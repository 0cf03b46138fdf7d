/** The browser side: the bounded analysis history kept newest first, the verdict icon,
    the banding of threat scores for display, and the parsing of the batch form. */
module Client {
  import opened Text
  import opened Wrappers
  import opened Heuristics
  import opened Analyzer

  // ---------------------------------------------------------------- history

  /** The most entries the history keeps. */
  const HistoryLimit := 100

  /** `addToHistory` on the history as a value: put `r` first and cut to the limit. */
  function Prepend<T>(h: seq<T>, r: T): (n: seq<T>)
    ensures |n| == Min(HistoryLimit, |h| + 1)
    ensures n[0] == r
    ensures forall i :: 1 <= i < |n| ==> n[i] == h[i - 1]
  {
    ([r] + h)[..Min(HistoryLimit, |h| + 1)]
  }

  function Reversed<T>(s: seq<T>): (r: seq<T>)
    ensures |r| == |s|
    ensures forall i :: 0 <= i < |s| ==> r[i] == s[|s| - 1 - i]
  {
    if s == [] then [] else [s[|s| - 1]] + Reversed(s[..|s| - 1])
  }

  /** `addBatchToHistory`: the results added one after the other, in order. */
  function PrependAll<T>(h: seq<T>, rs: seq<T>): (n: seq<T>)
    ensures rs != [] || |h| <= HistoryLimit ==> |n| <= HistoryLimit
  {
    if rs == [] then h else Prepend(PrependAll(h, rs[..|rs| - 1]), rs[|rs| - 1])
  }

  /** A batch lands newest first in front of the old history, cut to the limit. */
  lemma {:induction false} PrependAllClosedForm<T>(h: seq<T>, rs: seq<T>)
    requires |h| <= HistoryLimit
    ensures PrependAll(h, rs) == (Reversed(rs) + h)[..Min(HistoryLimit, |rs| + |h|)]
  {
    if rs == [] {
      assert (Reversed(rs) + h)[..|h|] == h;
    } else {
      var init := rs[..|rs| - 1];
      var r := rs[|rs| - 1];
      PrependAllClosedForm(h, init);
      var y := Reversed(init) + h;
      var m := Min(HistoryLimit, |init| + |h|);
      var k := Min(HistoryLimit, |rs| + |h|);
      assert Reversed(rs) == [r] + Reversed(init);
      assert Reversed(rs) + h == [r] + y;
      assert PrependAll(h, rs) == ([r] + y[..m])[..k];
      assert ([r] + y[..m])[..k] == ([r] + y)[..k];
    }
  }

  /** After a batch the last result of the batch is the newest entry. */
  lemma LastOfBatchFirst<T>(h: seq<T>, rs: seq<T>)
    requires rs != []
    ensures PrependAll(h, rs)[0] == rs[|rs| - 1]
  {
  }

  /** `analysisHistory`, with the stored list it was loaded from. */
  class History<T> {
    var entries: seq<T>

    /** Within the limit, which every addition restores. */
    ghost predicate Valid()
      reads this
    {
      |entries| <= HistoryLimit
    }

    /** Page load: whatever list local storage held, else the empty one. */
    constructor (stored: seq<T>)
      ensures entries == stored
    {
      entries := stored;
    }

    /** `addToHistory`. */
    method AddToHistory(result: T)
      modifies this
      ensures entries == Prepend(old(entries), result) && Valid()
    {
      entries := [result] + entries;
      if |entries| > HistoryLimit {
        entries := entries[..HistoryLimit];
      }
    }

    /** `addBatchToHistory`. */
    method AddBatchToHistory(results: seq<T>)
      modifies this
      ensures entries == PrependAll(old(entries), results)
      ensures results != [] || old(Valid()) ==> Valid()
    {
      for i := 0 to |results|
        invariant entries == PrependAll(old(entries), results[..i])
      {
        assert results[..i + 1][..i] == results[..i];
        AddToHistory(results[i]);
      }
      assert results[..|results|] == results;
    }

    /** `clearHistory`, given the user's answer to the confirmation. */
    method ClearHistory(confirmed: bool)
      modifies this
      ensures confirmed ==> entries == []
      ensures !confirmed ==> entries == old(entries)
      ensures confirmed || old(Valid()) ==> Valid()
    {
      if confirmed {
        entries := [];
      }
    }
  }

  // ---------------------------------------------------------- verdict icon

  function GetVerdictIcon(verdict: string): (icon: string)
    ensures icon == "fa-check-circle" <==> Lower(verdict) == "safe"
    ensures icon == "fa-exclamation-triangle" <==> Lower(verdict) == "suspicious"
    ensures icon == "fa-times-circle" <==> Lower(verdict) == "malicious"
    ensures icon == "fa-question-circle" <==> Lower(verdict) !in {"safe", "suspicious", "malicious"}
  {
    match Lower(verdict)
    case "safe" => "fa-check-circle"
    case "suspicious" => "fa-exclamation-triangle"
    case "malicious" => "fa-times-circle"
    case _ => "fa-question-circle"
  }

  /** The icon for each counter of the server's statistics. */
  function IconOf(c: Category): (icon: string)
    ensures icon == "fa-question-circle" <==> c == Unrecognized
  {
    match c
    case SafeVerdict => "fa-check-circle"
    case SuspiciousVerdict => "fa-exclamation-triangle"
    case MaliciousVerdict => "fa-times-circle"
    case Unrecognized => "fa-question-circle"
  }

  /** The four categories get four different icons. */
  lemma IconOfInjective(c: Category, d: Category)
    ensures IconOf(c) == IconOf(d) ==> c == d
  {
  }

  /** The page shows the icon of exactly the counter the server feeds with that verdict,
      and the question mark exactly for the verdicts no counter counts. */
  lemma IconMatchesServerCategory(verdict: string)
    ensures GetVerdictIcon(verdict) == IconOf(Classify(verdict))
    ensures GetVerdictIcon(verdict) == "fa-question-circle" <==> Classify(verdict) == Unrecognized
  {
  }

  lemma IconIgnoresCase(verdict: string)
    ensures GetVerdictIcon(Lower(verdict)) == GetVerdictIcon(verdict)
  {
    LowerIdempotent(verdict);
  }

  // ------------------------------------------------------- score banding

  /** The label and style the page gives a 0-100 score. */
  datatype Band = Band(level: string, cssClass: string)

  function ThreatLevel(score: int): (b: Band)
    ensures b.level == "High" <==> score >= 70
    ensures b.level == "Medium" <==> 40 <= score < 70
    ensures b.level == "Low" <==> score < 40
    ensures b.cssClass == (if score >= 70 then "malicious" else if score >= 40 then "suspicious" else "safe")
  {
    if score >= 70 then Band("High", "malicious")
    else if score >= 40 then Band("Medium", "suspicious")
    else Band("Low", "safe")
  }

  /** `result.threat_score || 0`: a missing score is shown as 0. */
  function DisplayedScore(score: Option<int>): (s: int)
    ensures score.None? ==> s == 0
    ensures score.Some? ==> s == score.value
  {
    score.GetOr(0)
  }

  /** The page's banding rule and the server's `risk_level` rule agree on a score except
      on 30 to 39, which the server's rule calls Medium and the page's rule calls Low. */
  lemma BandingDisagreesOnThirties(score: int)
    ensures ThreatLevel(score).level == RiskLevel(score) <==> !(30 <= score < 40)
    ensures 30 <= score < 40 ==> RiskLevel(score) == "Medium" && ThreatLevel(score).level == "Low"
  {
  }

  /** The threat-intelligence panel is handed the route's whole reply, whose top level
      holds only `status` and `result`. Its `threat_score` is therefore missing, and the
      panel's score is 0 and its band Low, whatever score the server computed. */
  lemma ThreatPanelReadsEnvelope()
    ensures DisplayedScore(None) == 0
    ensures ThreatLevel(DisplayedScore(None)) == Band("Low", "safe")
  {
  }

  /** An email the server flags as likely phishing may still be shown at Medium level. */
  lemma PhishingEmailShownAtMedium(email: string)
    requires AnalyzeEmailSecurity(email).emailThreatScore == 60
    ensures AnalyzeEmailSecurity(email).isLikelyPhishing
    ensures ThreatLevel(AnalyzeEmailSecurity(email).emailThreatScore).level == "Medium"
  {
  }

  // ---------------------------------------------------------- batch parsing

  /** What the batch form does with its text: an alert, or the list it sends. */
  datatype BatchInput = Refused(message: string) | Send(urls: seq<string>)

  const MaxBatch := 50

  /** Trim every line and drop the empty ones. */
  function NonEmptyTrimmed(lines: seq<string>): (urls: seq<string>)
    ensures |urls| <= |lines|
    ensures forall k :: 0 <= k < |urls| ==> urls[k] != []
  {
    if lines == [] then []
    else
      var rest := NonEmptyTrimmed(lines[1..]);
      var t := JsTrim(lines[0]);
      if t == [] then rest else [t] + rest
  }

  /** Trimming lines without a character gives lines without it. */
  lemma {:induction false} NonEmptyTrimmedAvoids(lines: seq<string>, c: char)
    requires forall j :: 0 <= j < |lines| ==> c !in lines[j]
    ensures forall k :: 0 <= k < |NonEmptyTrimmed(lines)| ==> c !in NonEmptyTrimmed(lines)[k]
  {
    if lines != [] {
      NonEmptyTrimmedAvoids(lines[1..], c);
      TrimSubsequence(lines[0]);
    }
  }

  /** The URLs the batch form would send for `raw`, before the two count checks. */
  function BatchLines(raw: string): seq<string>
  {
    NonEmptyTrimmed(Split(JsTrim(raw), '\n'))
  }

  /** Lines are trimmed and dropped one at a time: the result for a concatenation is
      the concatenation of the results. */
  lemma {:induction false} NonEmptyTrimmedAppend(a: seq<string>, b: seq<string>)
    ensures NonEmptyTrimmed(a + b) == NonEmptyTrimmed(a) + NonEmptyTrimmed(b)
  {
    if a == [] {
      assert a + b == b;
    } else {
      assert (a + b)[0] == a[0] && (a + b)[1..] == a[1..] + b;
      NonEmptyTrimmedAppend(a[1..], b);
    }
  }

  /** One line is kept trimmed, or dropped when it is blank. */
  lemma NonEmptyTrimmedSingle(l: string)
    ensures NonEmptyTrimmed([l]) == if JsTrim(l) == [] then [] else [JsTrim(l)]
  {
    assert [l][1..] == [];
  }

  /** Every kept line is trimmed already. */
  lemma {:induction false} NonEmptyTrimmedTrimmed(lines: seq<string>)
    ensures forall k :: 0 <= k < |NonEmptyTrimmed(lines)| ==> JsTrim(NonEmptyTrimmed(lines)[k]) == NonEmptyTrimmed(lines)[k]
  {
    if lines != [] {
      NonEmptyTrimmedTrimmed(lines[1..]);
      StripIdempotent(lines[0], IsJsWhitespace);
    }
  }

  /** `handleBatchAnalysis` up to the request: the lines of the trimmed text, each
      trimmed, the empty ones dropped, sent in order when there are 1 to 50. */
  function ParseBatch(raw: string): (r: BatchInput)
    ensures r.Refused? ==>
      r.message in {"Please enter URLs to analyze.", "Please enter at least one valid URL.", "Maximum 50 URLs allowed per batch."}
    ensures r == Refused("Please enter URLs to analyze.") <==> JsTrim(raw) == []
    ensures r == Refused("Maximum 50 URLs allowed per batch.") <==> JsTrim(raw) != [] && |BatchLines(raw)| > MaxBatch
    ensures r.Send? <==> JsTrim(raw) != [] && 1 <= |BatchLines(raw)| <= MaxBatch
    ensures r.Send? ==> r.urls == BatchLines(raw)
    ensures r.Send? ==> forall k :: 0 <= k < |r.urls| ==>
      r.urls[k] != [] && '\n' !in r.urls[k] && JsTrim(r.urls[k]) == r.urls[k]
  {
    var text := JsTrim(raw);
    if text == [] then Refused("Please enter URLs to analyze.")
    else
      var lines := Split(text, '\n');
      var urls := NonEmptyTrimmed(lines);
      NonEmptyTrimmedAvoids(lines, '\n');
      NonEmptyTrimmedTrimmed(lines);
      if |urls| == 0 then Refused("Please enter at least one valid URL.")
      else if |urls| > MaxBatch then Refused("Maximum 50 URLs allowed per batch.")
      else Send(urls)
  }

  /** Trimming only removes characters. */
  lemma TrimSubsequence(s: string)
    ensures forall c :: c in JsTrim(s) ==> c in s
  {
    var lo :| StrippedAt(s, JsTrim(s), lo, IsJsWhitespace);
    forall c | c in JsTrim(s) ensures c in s {
      var i :| 0 <= i < |JsTrim(s)| && JsTrim(s)[i] == c;
      assert s[lo + i] == c;
    }
  }

  /** The first piece of a split starts with the text's first character when that is
      not the separator. */
  lemma {:induction false} SplitFirstPiece(s: string, c: char)
    requires s != [] && s[0] != c
    ensures Split(s, c)[0] != [] && Split(s, c)[0][0] == s[0]
  {
  }

  lemma {:induction false} FirstLineKept(lines: seq<string>)
    requires lines != [] && JsTrim(lines[0]) != []
    ensures |NonEmptyTrimmed(lines)| >= 1
  {
  }

  /** Once the whole text is not blank, some line survives trimming: the alert about no
      valid URL can never be shown. */
  lemma NoValidUrlAlertUnreachable(raw: string)
    ensures ParseBatch(raw) != Refused("Please enter at least one valid URL.")
  {
    var text := JsTrim(raw);
    if text != [] {
      assert !IsJsWhitespace(text[0]);
      SplitFirstPiece(text, '\n');
      var first := Split(text, '\n')[0];
      assert !IsJsWhitespace(first[0]);
      assert JsTrim(first) != [];
      FirstLineKept(Split(text, '\n'));
    }
  }

  /** A line as the form sends it: not blank, already trimmed, one line. */
  predicate CleanLine(l: string)
  {
    l != [] && JsTrim(l) == l && '\n' !in l
  }

  lemma {:induction false} NonEmptyTrimmedKeepsClean(ls: seq<string>)
    requires forall l :: l in ls ==> CleanLine(l)
    ensures NonEmptyTrimmed(ls) == ls
  {
    if ls != [] {
      assert ls[0] in ls;
      NonEmptyTrimmedKeepsClean(ls[1..]);
      assert ls == [ls[0]] + ls[1..];
    }
  }

  /** A clean line neither starts nor ends with whitespace. */
  lemma CleanLineEnds(l: string)
    requires CleanLine(l)
    ensures !IsJsWhitespace(l[0]) && !IsJsWhitespace(l[|l| - 1])
  {
    assert JsTrim(l) == Strip(l, IsJsWhitespace);
  }

  /** Lines joined by newlines are already trimmed as a whole when the first does not
      start and the last does not end with whitespace. */
  lemma JoinedLinesTrimmed(ls: seq<string>)
    requires |ls| >= 1 && ls[0] != [] && ls[|ls| - 1] != []
    requires !IsJsWhitespace(ls[0][0]) && !IsJsWhitespace(ls[|ls| - 1][|ls[|ls| - 1]| - 1])
    ensures JsTrim(Join(ls, '\n')) == Join(ls, '\n')
  {
    var text := Join(ls, '\n');
    var first, last := ls[0], ls[|ls| - 1];
    JoinEnds(ls, '\n');
    assert text[0] == first[0];
    assert text[|text| - 1] == last[|last| - 1] by {
      assert text[|text| - |last|..][|last| - 1] == last[|last| - 1];
    }
    StripUnchanged(text, IsJsWhitespace);
  }

  /** Parsing inverts joining: between 1 and 50 clean lines joined by newlines are sent
      as exactly those lines. */
  lemma BatchRoundTrip(ls: seq<string>)
    requires 1 <= |ls| <= MaxBatch
    requires forall l :: l in ls ==> CleanLine(l)
    ensures ParseBatch(Join(ls, '\n')) == Send(ls)
  {
    var text := Join(ls, '\n');
    assert JsTrim(text) == text by {
      assert ls[0] in ls && ls[|ls| - 1] in ls;
      CleanLineEnds(ls[0]);
      CleanLineEnds(ls[|ls| - 1]);
      JoinedLinesTrimmed(ls);
    }
    assert Split(text, '\n') == ls by {
      assert forall k :: 0 <= k < |ls| ==> '\n' !in ls[k] by {
        forall k | 0 <= k < |ls| ensures '\n' !in ls[k] {
          assert ls[k] in ls;
        }
      }
      SplitJoin(ls, '\n');
    }
    assert BatchLines(text) == ls by {
      NonEmptyTrimmedKeepsClean(ls);
    }
    assert JsTrim(text) != [] by {
      assert ls[0] in ls;
      JoinEnds(ls, '\n');
    }
  }
}
