/** The parts of `analyze_with_ai` that do not talk to the network: turning the model's
    reply text into a verdict dictionary, the dictionaries the client makes up when it
    cannot, and the key-failover schedule of the retry loop as a recursive function.
    The credential pool (the module-level `api_keys`, `current_api_key_index` and the
    configured model) is the class KeyPool. */
module AiClient {
  import opened Text
  import opened Wrappers

  /** The verdict dictionary as the analysis reads it with `.get(key, default)`; a field
      is None when the key is missing. */
  datatype AIDict = AIDict(
    verdict: Option<string>,
    confidence: Option<int>,
    explanation: Option<string>,
    threats: Option<seq<string>>)

  /** One attempt at the model: the reply's text, or the message of the exception raised
      by the call or by reading the reply. */
  datatype Reply = Answered(text: string) | Raised(message: string)

  // ------------------------------------------------------- reply extraction

  /** The text handed to the JSON decoder: the body of a ```` ```json ```` fence if there
      is one, else the first `{` through the last `}`, else the whole reply. Whichever
      branch applies, the decoder only sees a contiguous piece of the reply. */
  function ExtractJsonText(t: string): (r: string)
    ensures Contains(t, r)
  {
    if Contains(t, "```json") then
      var start: nat := Find(t, "```json", 0) + 7;
      var body := Slice(t, start, Find(t, "```", start));
      assert Contains(t, body) by {
        assert OccursAt(t, body, SliceBound(start, |t|));
      }
      StripIsPiece(body, IsPyWhitespace);
      PieceOfPiece(t, body, PyStrip(body));
      PyStrip(body)
    else if Contains(t, "{") && Contains(t, "}") then
      var body := Slice(t, Find(t, "{", 0), RFind(t, "}") + 1);
      assert OccursAt(t, body, SliceBound(Find(t, "{", 0), |t|));
      body
    else
      assert OccursAt(t, t, 0);
      t
  }

  /** `k` is the first occurrence of `p` in `t` at or after `from`. */
  predicate FirstFrom(t: string, p: string, from: int, k: int)
  {
    from <= k && OccursAt(t, p, k) && forall i :: from <= i < k ==> !OccursAt(t, p, i)
  }

  /** A fence wins over braces: with the first ```` ```json ```` at `k` and the first
      closing ```` ``` ```` after it at `e`, the decoder gets the stripped text between them. */
  lemma FenceBodyIsExtracted(t: string, k: int, e: int)
    requires FirstFrom(t, "```json", 0, k)
    requires FirstFrom(t, "```", k + 7, e)
    ensures ExtractJsonText(t) == PyStrip(t[k + 7..e])
  {
    assert Find(t, "```json", 0) == k;
    assert Find(t, "```", k + 7) == e;
  }

  /** An unclosed fence: `find` answers -1 and the slice `[start:-1]` loses the reply's
      last character. */
  lemma UnclosedFenceDropsLastChar(t: string, k: int)
    requires FirstFrom(t, "```json", 0, k)
    requires forall i :: k + 7 <= i ==> !OccursAt(t, "```", i)
    ensures k + 7 < |t| ==> ExtractJsonText(t) == PyStrip(t[k + 7..|t| - 1])
    ensures k + 7 == |t| ==> ExtractJsonText(t) == ""
  {
    assert Find(t, "```json", 0) == k;
  }

  /** Nothing of length `|p|` fits after `from` once fewer than `|p|` characters remain. */
  lemma NoOccurrencePastEnd(t: string, p: string, from: int)
    requires |t| < from + |p|
    ensures forall i :: from <= i ==> !OccursAt(t, p, i)
  {
  }

  /** The smallest instance: the object's closing brace is cut off. */
  lemma UnclosedFenceExample(t: string)
    requires t == "```json{}"
    ensures ExtractJsonText(t) == "{"
  {
    assert ExtractJsonText(t) == PyStrip(t[7..|t| - 1]) by {
      assert FirstFrom(t, "```json", 0, 0) by {
        assert t[0..7] == "```json";
      }
      NoOccurrencePastEnd(t, "```", 7);
      UnclosedFenceDropsLastChar(t, 0);
    }
    assert t[7..|t| - 1] == "{";
    StripUnchanged("{", IsPyWhitespace);
  }

  /** Without a fence, the decoder gets the first `{` through the last `}` inclusive. */
  lemma BracesSpanFirstToLast(t: string, a: int, b: int)
    requires !Contains(t, "```json")
    requires FirstFrom(t, "{", 0, a)
    requires OccursAt(t, "}", b) && forall i :: b < i ==> !OccursAt(t, "}", i)
    requires a <= b
    ensures ExtractJsonText(t) == t[a..b + 1]
    ensures ExtractJsonText(t)[0] == '{' && ExtractJsonText(t)[b - a] == '}'
  {
    assert Find(t, "{", 0) == a;
    assert RFind(t, "}") == b;
    assert t[a..a + 1] == "{" && t[b..b + 1] == "}";
  }

  /** Without a fence, when the last `}` comes before the first `{` the slice is empty,
      and the decoder gets the empty string. */
  lemma BracesReversedGiveEmpty(t: string, a: int, b: int)
    requires !Contains(t, "```json")
    requires FirstFrom(t, "{", 0, a)
    requires OccursAt(t, "}", b) && forall i :: b < i ==> !OccursAt(t, "}", i)
    requires b < a
    ensures ExtractJsonText(t) == []
  {
    assert Find(t, "{", 0) == a;
    assert RFind(t, "}") == b;
  }

  /** Without a fence or a pair of braces, the decoder gets the reply unchanged. */
  lemma RawReplyOtherwise(t: string)
    requires !Contains(t, "```json") && !(Contains(t, "{") && Contains(t, "}"))
    ensures ExtractJsonText(t) == t
  {
  }

  // ------------------------------------------------------- keyword fallback

  /** The dictionary built when the extracted text does not decode: a guess from the
      words "safe" and "malicious" in the reply, in that order. */
  function KeywordFallback(t: string): (r: AIDict)
    ensures r.threats == Some(["JSON Parse Error"]) && r.explanation.Some?
    ensures Contains(Lower(t), "safe") ==> r.verdict == Some("Safe") && r.confidence == Some(70)
    ensures !Contains(Lower(t), "safe") && Contains(Lower(t), "malicious") ==>
              r.verdict == Some("Malicious") && r.confidence == Some(80)
    ensures !Contains(Lower(t), "safe") && !Contains(Lower(t), "malicious") ==>
              r.verdict == Some("Suspicious") && r.confidence == Some(60)
  {
    var lower := Lower(t);
    var guess :=
      if Contains(lower, "safe") then ("Safe", 70)
      else if Contains(lower, "malicious") then ("Malicious", 80)
      else ("Suspicious", 60);
    AIDict(Some(guess.0), Some(guess.1),
      Some("AI analysis completed but JSON parsing failed. Raw response: " + Slice(t, 0, 200) + "..."),
      Some(["JSON Parse Error"]))
  }

  /** A reply that mentions both words is read as safe. */
  lemma SafeWinsOverMalicious(t: string)
    requires Contains(Lower(t), "safe") && Contains(Lower(t), "malicious")
    ensures KeywordFallback(t).verdict == Some("Safe")
  {
  }

  /** The fallback's verdict and confidence do not depend on letter case. */
  lemma FallbackIgnoresCase(t: string)
    ensures KeywordFallback(Lower(t)).verdict == KeywordFallback(t).verdict
    ensures KeywordFallback(Lower(t)).confidence == KeywordFallback(t).confidence
  {
    LowerIdempotent(t);
  }

  /** What one answered attempt returns: the decoded dictionary, or the keyword guess. */
  function Interpret(t: string, decode: string -> Option<AIDict>): (r: AIDict)
    ensures decode(ExtractJsonText(t)).Some? ==> r == decode(ExtractJsonText(t)).value
    ensures decode(ExtractJsonText(t)).None? ==> r == KeywordFallback(t)
  {
    match decode(ExtractJsonText(t))
    case Some(d) => d
    case None => KeywordFallback(t)
  }

  /** The dictionary returned when the last attempt raised. */
  function AnalysisFailed(message: string): (r: AIDict)
    ensures r.verdict == Some("Suspicious") && r.confidence == Some(50)
    ensures r.explanation == Some("AI analysis failed: " + message) && r.threats == Some(["Analysis Error"])
  {
    AIDict(Some("Suspicious"), Some(50), Some("AI analysis failed: " + message), Some(["Analysis Error"]))
  }

  /** The dictionary returned after the loop, which only an empty key list reaches. */
  const AllKeysFailed: AIDict :=
    AIDict(Some("Suspicious"), Some(50), Some("All API keys failed"), Some(["API Error"]))

  // ------------------------------------------------------ failover schedule

  /** How the retry loop ended: on an answered attempt, on the last attempt raising,
      or without any attempt. */
  datatype Ending = AnsweredWith(text: string) | GaveUp(message: string) | NoAttempt

  /** Which reply ended one call of `analyze_with_ai`, the pool index it left behind,
      how many attempts it made and how many times it switched keys. */
  datatype Schedule = Schedule(ending: Ending, index: nat, attempts: nat, switches: nat)

  /** The dictionary a call returns for the way it ended. */
  function Conclude(e: Ending, decode: string -> Option<AIDict>): AIDict
  {
    match e
    case AnsweredWith(t) => Interpret(t, decode)
    case GaveUp(m) => AnalysisFailed(m)
    case NoAttempt => AllKeysFailed
  }

  /** The next pool position, `(i + 1) % n` for `i < n`. */
  function Succ(i: nat, n: nat): (r: nat)
    requires i < n
    ensures r < n
  {
    if i + 1 < n then i + 1 else 0
  }

  lemma ModNext(i: nat, n: nat)
    requires i < n
    ensures (i + 1) % n == Succ(i, n)
  {
  }

  /** The pool position `s < n` switches after position `i`: forward by `s`, wrapping
      at most once. */
  function Rotate(i: nat, s: nat, n: nat): (r: nat)
    requires i < n && s < n
    ensures r < n
  {
    if i + s < n then i + s else i + s - n
  }

  /** Rotating is adding modulo the number of keys. */
  lemma RotateIsMod(i: nat, s: nat, n: nat)
    requires i < n && s < n
    ensures Rotate(i, s, n) == (i + s) % n
  {
    if i + s >= n {
      assert i + s == 1 * n + (i + s - n);
    }
  }

  /** The retry loop from attempt `attempt` on, with the pool at `index`: the answer of
      `respond(attempt, key)` for the key configured at that point decides what happens. */
  function AttemptsFrom(keys: seq<string>, index: nat, attempt: nat, respond: (nat, string) -> Reply): (c: Schedule)
    requires attempt < |keys| ==> index < |keys|
    ensures attempt >= |keys| ==> c == Schedule(NoAttempt, index, 0, 0)
    ensures attempt < |keys| ==> 1 <= c.attempts <= |keys| - attempt && c.switches == c.attempts - 1
    ensures attempt < |keys| ==> c.index == Rotate(index, c.switches, |keys|) && !c.ending.NoAttempt?
    decreases |keys| - attempt
  {
    if attempt >= |keys| then Schedule(NoAttempt, index, 0, 0)
    else
      match respond(attempt, keys[index])
      case Answered(t) => Schedule(AnsweredWith(t), index, 1, 0)
      case Raised(m) =>
        if attempt < |keys| - 1 then
          var next := AttemptsFrom(keys, (index + 1) % |keys|, attempt + 1, respond);
          ModNext(index, |keys|);
          Schedule(next.ending, next.index, next.attempts + 1, next.switches + 1)
        else
          Schedule(GaveUp(m), index, 1, 0)
  }

  /** What one call of `analyze_with_ai` returns, with the pool at `index`. */
  datatype CallOutcome = CallOutcome(result: AIDict, index: nat, attempts: nat, switches: nat)

  function CallAI(keys: seq<string>, index: nat, respond: (nat, string) -> Reply,
                  decode: string -> Option<AIDict>): (c: CallOutcome)
    requires |keys| == 0 || index < |keys|
    ensures c.attempts <= |keys|
    ensures |keys| == 0 ==> c == CallOutcome(AllKeysFailed, index, 0, 0)
    ensures |keys| > 0 ==> 1 <= c.attempts && c.switches == c.attempts - 1 && c.switches <= |keys| - 1
    ensures |keys| > 0 ==> c.index == Rotate(index, c.switches, |keys|)
  {
    var s := AttemptsFrom(keys, index, 0, respond);
    CallOutcome(Conclude(s.ending, decode), s.index, s.attempts, s.switches)
  }

  /** The key configured for attempt `k` when the call started at `index`. */
  function KeyAt(keys: seq<string>, index: nat, k: nat): string
    requires index < |keys| && k < |keys|
  {
    keys[Rotate(index, k, |keys|)]
  }

  /** `s` after `m` more failed attempts in front of it. */
  function Delay(s: Schedule, m: nat): Schedule
  {
    Schedule(s.ending, s.index, s.attempts + m, s.switches + m)
  }

  /** Attempts `a` to `k - 1` raising only delays what attempt `k` leads to. */
  lemma {:induction false} SkipRaised(keys: seq<string>, index: nat, respond: (nat, string) -> Reply, a: nat, k: nat)
    requires index < |keys| && a <= k < |keys|
    requires forall j :: a <= j < k ==> respond(j, KeyAt(keys, index, j)).Raised?
    ensures AttemptsFrom(keys, Rotate(index, a, |keys|), a, respond) ==
      Delay(AttemptsFrom(keys, Rotate(index, k, |keys|), k, respond), k - a)
    decreases k - a
  {
    if a < k {
      var n := |keys|;
      var i := Rotate(index, a, n);
      assert respond(a, keys[i]).Raised? by {
        assert KeyAt(keys, index, a) == keys[i];
      }
      ModNext(i, n);
      assert (i + 1) % n == Rotate(index, a + 1, n);
      SkipRaised(keys, index, respond, a + 1, k);
    }
  }

  /** The first answered attempt decides the call: the key switches before it are the
      only ones, and the pool stays at the key that answered. */
  lemma FirstAnswerDecides(keys: seq<string>, index: nat, respond: (nat, string) -> Reply,
                           decode: string -> Option<AIDict>, k: nat, t: string)
    requires index < |keys| && k < |keys|
    requires forall j :: 0 <= j < k ==> respond(j, KeyAt(keys, index, j)).Raised?
    requires respond(k, KeyAt(keys, index, k)) == Answered(t)
    ensures CallAI(keys, index, respond, decode) ==
      CallOutcome(Interpret(t, decode), Rotate(index, k, |keys|), k + 1, k)
  {
    SkipRaised(keys, index, respond, 0, k);
    assert AttemptsFrom(keys, Rotate(index, k, |keys|), k, respond) == Schedule(AnsweredWith(t), Rotate(index, k, |keys|), 1, 0);
  }

  /** A reply that does not decode ends the call at once with the keyword guess; the
      key is not switched. */
  lemma DecodeFailureKeepsKey(keys: seq<string>, index: nat, respond: (nat, string) -> Reply,
                              decode: string -> Option<AIDict>, t: string)
    requires index < |keys|
    requires respond(0, keys[index]) == Answered(t) && decode(ExtractJsonText(t)).None?
    ensures CallAI(keys, index, respond, decode) == CallOutcome(KeywordFallback(t), index, 1, 0)
  {
    assert AttemptsFrom(keys, index, 0, respond) == Schedule(AnsweredWith(t), index, 1, 0);
  }

  /** When every key fails, the call makes one attempt per key and returns the
      "Analysis Error" dictionary with the last failure's message. */
  lemma AllKeysRaise(keys: seq<string>, index: nat, respond: (nat, string) -> Reply,
                     decode: string -> Option<AIDict>)
    requires index < |keys|
    requires forall j :: 0 <= j < |keys| ==> respond(j, KeyAt(keys, index, j)).Raised?
    ensures var last := respond(|keys| - 1, KeyAt(keys, index, |keys| - 1));
      CallAI(keys, index, respond, decode) ==
        CallOutcome(AnalysisFailed(last.message), Rotate(index, |keys| - 1, |keys|), |keys|, |keys| - 1)
  {
    var n := |keys|;
    SkipRaised(keys, index, respond, 0, n - 1);
    var i := Rotate(index, n - 1, n);
    assert respond(n - 1, keys[i]).Raised? by {
      assert KeyAt(keys, index, n - 1) == keys[i];
    }
    assert AttemptsFrom(keys, i, n - 1, respond) == Schedule(GaveUp(respond(n - 1, keys[i]).message), i, 1, 0);
  }

  /** The "All API keys failed" dictionary comes exactly from an empty key list, as
      long as the decoder never produces that very dictionary itself. */
  lemma AllKeysFailedOnlyWithoutKeys(keys: seq<string>, index: nat, respond: (nat, string) -> Reply,
                                     decode: string -> Option<AIDict>)
    requires |keys| == 0 || index < |keys|
    requires forall t :: decode(t) != Some(AllKeysFailed)
    ensures CallAI(keys, index, respond, decode).result == AllKeysFailed <==> |keys| == 0
  {
    if |keys| > 0 {
      var e := AttemptsFrom(keys, index, 0, respond).ending;
      match e
      case AnsweredWith(t) =>
        assert decode(ExtractJsonText(t)) != Some(AllKeysFailed);
        assert KeywordFallback(t).threats != AllKeysFailed.threats;
      case GaveUp(m) =>
        assert AnalysisFailed(m).threats != AllKeysFailed.threats;
    }
  }

  /** Within one call no key is tried twice: attempts `j < k` use distinct pool positions. */
  lemma EachKeyAtMostOnce(n: nat, index: nat, j: nat, k: nat)
    requires index < n && j < k < n
    ensures Rotate(index, j, n) != Rotate(index, k, n)
  {
  }

  /** A call that tries all `n` keys tries each of them: every position is reached by
      exactly one attempt. */
  lemma EveryKeyReached(n: nat, index: nat, p: nat)
    requires index < n && p < n
    ensures exists j :: 0 <= j < n && Rotate(index, j, n) == p
  {
    var j := if p >= index then p - index else p + n - index;
    assert Rotate(index, j, n) == p;
  }

  // -------------------------------------------------------- credential pool

  /** The key list, the index of the key in use, and the key the model client was last
      configured with. */
  class KeyPool {
    const keys: seq<string>
    var index: nat
    var configuredKey: string

    ghost predicate Valid()
      reads this
    {
      |keys| > 0 && index < |keys| && configuredKey == keys[index]
    }

    /** Module load: start at the first key and configure the client with it. */
    constructor (keys: seq<string>)
      requires |keys| > 0
      ensures Valid() && this.keys == keys && index == 0
    {
      this.keys := keys;
      index := 0;
      configuredKey := keys[0];
    }

    /** The key in use. */
    function CurrentApiKey(): (k: string)
      reads this
      requires Valid()
      ensures k in keys && k == configuredKey
    {
      keys[index]
    }

    /** Advance to the next key, wrapping at the end, and reconfigure the client. */
    method SwitchApiKey()
      requires Valid()
      modifies this
      ensures Valid() && index == (old(index) + 1) % |keys| && configuredKey == keys[index]
    {
      index := (index + 1) % |keys|;
      configuredKey := keys[index];
    }
  }
}
