/** The stateful half of `LinkAnalyzer`: the per-URL threat ledger keyed by the URL's
    MD5 hash, the verdict counters, the monitoring registry, the retry loop of
    `analyze_with_ai` and the orchestration in `analyze_link`. */
module Analyzer {
  import opened Text
  import opened Wrappers
  import opened Heuristics
  import opened AiClient

  /** The outside world the analyzer consults: URL validation, public-suffix splitting,
      MD5 in hex, and the JSON decoder (None when decoding fails). */
  datatype Env = Env(
    isValidUrl: string -> bool,
    extract: string -> Extracted,
    md5: string -> string,
    decode: string -> Option<AIDict>)

  /** The heuristic part of a full report. */
  datatype Details = Details(
    registration: Registration,
    structure: UrlStructure,
    content: ContentSignals,
    basicChecks: BasicChecks,
    urlHash: string)

  /** One report of `analyze_link`; the two info fields are None where the source
      returns an empty dictionary, and `details` is None for a rejected URL. */
  datatype AnalysisResult = AnalysisResult(
    url: string,
    verdict: string,
    confidence: int,
    explanation: string,
    threats: seq<string>,
    domainInfo: Option<DomainInfo>,
    redirectInfo: Option<RedirectInfo>,
    details: Option<Details>)

  // ------------------------------------------------------------- statistics

  datatype ThreatStatistics = ThreatStatistics(total: nat, safe: nat, suspicious: nat, malicious: nat)

  const NoStatistics := ThreatStatistics(0, 0, 0, 0)

  /** Which counter a verdict feeds, after lower-casing it. */
  datatype Category = SafeVerdict | SuspiciousVerdict | MaliciousVerdict | Unrecognized

  function Classify(verdict: string): (c: Category)
    ensures c == SafeVerdict <==> Lower(verdict) == "safe"
    ensures c == SuspiciousVerdict <==> Lower(verdict) == "suspicious"
    ensures c == MaliciousVerdict <==> Lower(verdict) == "malicious"
  {
    var v := Lower(verdict);
    if v == "safe" then SafeVerdict
    else if v == "suspicious" then SuspiciousVerdict
    else if v == "malicious" then MaliciousVerdict
    else Unrecognized
  }

  /** Letter case does not change the counter a verdict feeds. */
  lemma ClassifyIgnoresCase(verdict: string)
    ensures Classify(Lower(verdict)) == Classify(verdict)
  {
    LowerIdempotent(verdict);
  }

  /** A verdict that differs from all three names in length feeds no counter. */
  lemma OddLengthVerdictUncounted(verdict: string)
    requires |verdict| != 4 && |verdict| != 9 && |verdict| != 10
    requires forall i :: 0 <= i < |verdict| ==> 'A' <= verdict[i] <= 'Z' || 'a' <= verdict[i] <= 'z'
    ensures Classify(verdict) == Unrecognized
  {
    LowerAsciiLength(verdict);
  }

  lemma {:induction false} LowerAsciiLength(s: string)
    requires forall i :: 0 <= i < |s| ==> 'A' <= s[i] <= 'Z' || 'a' <= s[i] <= 'z'
    ensures |Lower(s)| == |s|
  {
    if s != [] {
      LowerAsciiLength(s[1..]);
    }
  }

  /** The counter update of `add_to_threat_database` for a verdict of category `c`. */
  function Count(stats: ThreatStatistics, c: Category): (r: ThreatStatistics)
    ensures r.total == stats.total + 1
    ensures r.safe == stats.safe + (if c == SafeVerdict then 1 else 0)
    ensures r.suspicious == stats.suspicious + (if c == SuspiciousVerdict then 1 else 0)
    ensures r.malicious == stats.malicious + (if c == MaliciousVerdict then 1 else 0)
  {
    var s := stats.(total := stats.total + 1);
    match c
    case SafeVerdict => s.(safe := s.safe + 1)
    case SuspiciousVerdict => s.(suspicious := s.suspicious + 1)
    case MaliciousVerdict => s.(malicious := s.malicious + 1)
    case Unrecognized => s
  }

  /** The in-place counter update of `add_to_threat_database`, on a copy. */
  method CountIn(stats: ThreatStatistics, verdict: string) returns (s: ThreatStatistics)
    ensures s == Count(stats, Classify(verdict))
  {
    s := stats.(total := stats.total + 1);
    var v := Lower(verdict);
    if v == "safe" {
      s := s.(safe := s.safe + 1);
    } else if v == "suspicious" {
      s := s.(suspicious := s.suspicious + 1);
    } else if v == "malicious" {
      s := s.(malicious := s.malicious + 1);
    }
  }

  /** The counters after recording `rs` in order, from zero. */
  function Tally(rs: seq<AnalysisResult>): (r: ThreatStatistics)
    ensures r.total == |rs|
    ensures r.safe + r.suspicious + r.malicious <= r.total
  {
    if rs == [] then NoStatistics else Count(Tally(rs[..|rs| - 1]), Classify(rs[|rs| - 1].verdict))
  }

  lemma TallyAppend(rs: seq<AnalysisResult>, r: AnalysisResult)
    ensures Tally(rs + [r]) == Count(Tally(rs), Classify(r.verdict))
  {
    assert (rs + [r])[..|rs|] == rs;
  }

  /** Every recorded report feeds at most one counter, and the three counters add up to
      the total exactly when every recorded verdict is one of the three names. */
  lemma {:induction false} TallyComplete(rs: seq<AnalysisResult>)
    ensures var t := Tally(rs);
      t.safe + t.suspicious + t.malicious == t.total <==>
        forall i :: 0 <= i < |rs| ==> Classify(rs[i].verdict) != Unrecognized
  {
    if rs != [] {
      var init := rs[..|rs| - 1];
      TallyComplete(init);
      assert forall i :: 0 <= i < |init| ==> init[i] == rs[i];
    }
  }

  /** What `get_threat_statistics` returns: the counters alone before the first report,
      and with the three shares in percent afterwards. */
  datatype StatisticsReport =
    | Counts(stats: ThreatStatistics)
    | WithPercentages(stats: ThreatStatistics, safePercent: real, suspiciousPercent: real, maliciousPercent: real)

  function Percent(count: nat, total: nat): (p: real)
    requires total > 0
    ensures p >= 0.0 && p * (total as real) == (count as real) * 100.0
  {
    (count as real) / (total as real) * 100.0
  }

  function Report(stats: ThreatStatistics): (r: StatisticsReport)
    ensures r.stats == stats
    ensures r.WithPercentages? <==> stats.total > 0
    ensures r.WithPercentages? ==>
      r.safePercent == Percent(stats.safe, stats.total) &&
      r.suspiciousPercent == Percent(stats.suspicious, stats.total) &&
      r.maliciousPercent == Percent(stats.malicious, stats.total)
  {
    if stats.total == 0 then Counts(stats)
    else WithPercentages(stats, Percent(stats.safe, stats.total), Percent(stats.suspicious, stats.total),
                         Percent(stats.malicious, stats.total))
  }

  /** The three shares are between 0 and 100 and add up to at most 100. */
  lemma PercentagesBounded(stats: ThreatStatistics)
    requires stats.total > 0 && stats.safe + stats.suspicious + stats.malicious <= stats.total
    ensures var r := Report(stats);
      0.0 <= r.safePercent <= 100.0 && 0.0 <= r.suspiciousPercent <= 100.0 && 0.0 <= r.maliciousPercent <= 100.0 &&
      r.safePercent + r.suspiciousPercent + r.maliciousPercent <= 100.0
  {
    var t := stats.total as real;
    var s, u, m := stats.safe as real, stats.suspicious as real, stats.malicious as real;
    ShareBounded(s, t);
    ShareBounded(u, t);
    ShareBounded(m, t);
    ShareBounded(s + u + m, t);
    SharesAdd(s, u, t);
    SharesAdd(s + u, m, t);
  }

  lemma ShareBounded(a: real, t: real)
    requires 0.0 <= a <= t && t > 0.0
    ensures 0.0 <= a / t <= 1.0
  {
    assert a / t * t == a;
  }

  lemma SharesAdd(a: real, b: real, t: real)
    requires t > 0.0
    ensures a / t + b / t == (a + b) / t
  {
    assert (a / t + b / t) * t == a + b;
  }

  // ---------------------------------------------------------------- ledger

  /** The reports stored under a hash; none for a hash never seen. */
  function HistoryOf(db: map<string, seq<AnalysisResult>>, key: string): (h: seq<AnalysisResult>)
    ensures key !in db ==> h == []
    ensures key in db ==> h == db[key]
  {
    if key in db then db[key] else []
  }

  /** Append one report to the list under `key`, creating it if needed. */
  function AppendHistory(db: map<string, seq<AnalysisResult>>, key: string, r: AnalysisResult): (d: map<string, seq<AnalysisResult>>)
    ensures key in d && d[key] == HistoryOf(db, key) + [r]
  {
    db[key := HistoryOf(db, key) + [r]]
  }

  /** Appending extends the list under `key` by exactly that report and leaves every
      other hash's list as it was. */
  lemma AppendHistoryEffect(db: map<string, seq<AnalysisResult>>, key: string, r: AnalysisResult, other: string)
    ensures AppendHistory(db, key, r).Keys == db.Keys + {key}
    ensures HistoryOf(AppendHistory(db, key, r), key) == HistoryOf(db, key) + [r]
    ensures other != key ==> HistoryOf(AppendHistory(db, key, r), other) == HistoryOf(db, other)
  {
  }

  // ----------------------------------------------------------- monitoring

  /** What `start_url_monitoring` stores per URL besides the clock reading. */
  datatype MonitorEntry = MonitorEntry(intervalHours: int, status: string)

  predicate Distinct(s: seq<string>)
  {
    forall i, j :: 0 <= i < j < |s| ==> s[i] != s[j]
  }

  /** `s` with `x` removed. */
  function Without(s: seq<string>, x: string): (r: seq<string>)
    ensures forall y :: y in r <==> y in s && y != x
    ensures Distinct(s) ==> Distinct(r)
  {
    if s == [] then []
    else
      var rest := Without(s[1..], x);
      if s[0] == x then rest
      else
        assert Distinct(s) ==> s[0] !in rest;
        [s[0]] + rest
  }

  /** Removing a URL keeps the others in their insertion order. */
  lemma {:induction false} WithoutKeepsOrder(s: seq<string>, y: string)
    requires y !in s
    ensures Without(s + [y], y) == s
  {
    if s == [] {
      assert [y][1..] == [];
    } else {
      assert (s + [y])[1..] == s[1..] + [y];
      WithoutKeepsOrder(s[1..], y);
      assert s == [s[0]] + s[1..];
    }
  }

  // --------------------------------------------------------------- reports

  /** The report for a URL the validator rejects. */
  function Rejected(url: string): (r: AnalysisResult)
    ensures r.url == url && r.verdict == "Malicious" && r.confidence == 100
    ensures r.explanation == "Invalid URL format" && r.threats == ["Invalid URL"]
    ensures r.domainInfo.None? && r.redirectInfo.None? && r.details.None?
  {
    AnalysisResult(url, "Malicious", 100, "Invalid URL format", ["Invalid URL"], None, None, None)
  }

  /** The heuristic view of an accepted URL; the raw URL, not the normalised one, is
      what every check sees. */
  function Inspect(env: Env, url: string, head: Option<HeadResponse>, page: PageFetch): (d: Details)
    ensures d.urlHash == env.md5(url)
    ensures d.structure == AnalyzeUrlStructure(url) && d.content == AnalyzeWebsiteContent(page)
    ensures d.basicChecks.isShortener == IsShortener(url, env.extract)
    ensures d.basicChecks.suspiciousDomain <==> ExtractDomainInfo(url, env.extract).domain in SuspiciousDomains
    ensures d.registration == AnalyzeDomainRegistration(ExtractDomainInfo(url, env.extract).domain)
    ensures d.basicChecks.suspiciousRedirect <==> head.Some? && head.value.hops > 3
    ensures d.basicChecks.phishingPattern <==> AnyOccurs(Lower(url), KnownPhishingPatterns)
    ensures !d.basicChecks.recentlyRegistered
    ensures d.basicChecks.hasSuspiciousChars == d.structure.hasSuspiciousChars
    ensures d.basicChecks.hasIpAddress == d.structure.hasIpAddress
    ensures d.basicChecks.hasTyposquatting == d.structure.hasTyposquatting
  {
    var domain := ExtractDomainInfo(url, env.extract);
    var redirect := CheckRedirects(url, head);
    var registration := AnalyzeDomainRegistration(domain.domain);
    var structure := AnalyzeUrlStructure(url);
    var shortener := IsShortener(url, env.extract);
    Details(registration, structure, AnalyzeWebsiteContent(page),
      ComputeBasicChecks(url, domain, redirect, shortener, registration, structure), env.md5(url))
  }

  /** The report for an accepted URL, given the AI's dictionary: the four headline fields
      come from the dictionary with their defaults, the rest from the heuristics. */
  function Combine(env: Env, url: string, head: Option<HeadResponse>, page: PageFetch, ai: AIDict): (r: AnalysisResult)
    ensures r.url == url && r.details == Some(Inspect(env, url, head, page))
    ensures r.domainInfo == Some(ExtractDomainInfo(url, env.extract)) && r.redirectInfo == Some(CheckRedirects(url, head))
    ensures ai.verdict.Some? ==> r.verdict == ai.verdict.value
    ensures ai.verdict.None? ==> r.verdict == "Suspicious"
    ensures ai.confidence.Some? ==> r.confidence == ai.confidence.value
    ensures ai.confidence.None? ==> r.confidence == 50
    ensures ai.explanation.Some? ==> r.explanation == ai.explanation.value
    ensures ai.explanation.None? ==> r.explanation == "Analysis completed"
    ensures ai.threats.Some? ==> r.threats == ai.threats.value
    ensures ai.threats.None? ==> r.threats == []
  {
    AnalysisResult(url,
      ai.verdict.GetOr("Suspicious"), ai.confidence.GetOr(50),
      ai.explanation.GetOr("Analysis completed"), ai.threats.GetOr([]),
      Some(ExtractDomainInfo(url, env.extract)), Some(CheckRedirects(url, head)),
      Some(Inspect(env, url, head, page)))
  }

  /** The heuristic checks never reach the verdict: two answers with the same four fields
      give the same headline whatever the checks found, and the checks do not depend on
      the answer. */
  lemma VerdictComesOnlyFromAI(env: Env, url: string, h1: Option<HeadResponse>, p1: PageFetch,
                               h2: Option<HeadResponse>, p2: PageFetch, ai: AIDict)
    ensures var r1, r2 := Combine(env, url, h1, p1, ai), Combine(env, url, h2, p2, ai);
      r1.verdict == r2.verdict && r1.confidence == r2.confidence &&
      r1.explanation == r2.explanation && r1.threats == r2.threats
  {
  }

  /** A dictionary with none of the four keys yields the documented defaults. */
  lemma EmptyAnswerDefaults(env: Env, url: string, head: Option<HeadResponse>, page: PageFetch)
    ensures var r := Combine(env, url, head, page, AIDict(None, None, None, None));
      r.verdict == "Suspicious" && r.confidence == 50 && r.explanation == "Analysis completed" && r.threats == []
  {
  }

  /** Confidence is passed through unclamped: an answer of 150 is reported as 150. */
  lemma ConfidenceNotClamped(env: Env, url: string, head: Option<HeadResponse>, page: PageFetch, ai: AIDict)
    requires ai.confidence == Some(150)
    ensures Combine(env, url, head, page, ai).confidence == 150
  {
  }

  // ---------------------------------------------------------------- object

  class LinkAnalyzer {
    const env: Env
    /** `threat_database`: reports per URL hash, oldest first (timestamps left out). */
    var threatDatabase: map<string, seq<AnalysisResult>>
    /** `threat_statistics`. */
    var stats: ThreatStatistics
    /** `monitored_urls`, as its keys in insertion order and the entry per key. */
    var monitoredOrder: seq<string>
    var monitored: map<string, MonitorEntry>
    /** Every report recorded so far, oldest first. */
    ghost var recorded: seq<AnalysisResult>

    ghost predicate Valid()
      reads this
    {
      stats == Tally(recorded) &&
      Distinct(monitoredOrder) &&
      (forall u :: u in monitoredOrder <==> u in monitored)
    }

    constructor (env: Env)
      ensures Valid() && this.env == env
      ensures threatDatabase == map[] && stats == NoStatistics && recorded == []
      ensures monitoredOrder == [] && monitored == map[]
    {
      this.env := env;
      threatDatabase := map[];
      stats := NoStatistics;
      monitoredOrder := [];
      monitored := map[];
      recorded := [];
    }

    /** `add_to_threat_database`. */
    method AddToThreatDatabase(url: string, result: AnalysisResult)
      requires Valid()
      modifies this
      ensures Valid()
      ensures threatDatabase == AppendHistory(old(threatDatabase), env.md5(url), result)
      ensures stats == Count(old(stats), Classify(result.verdict)) && recorded == old(recorded) + [result]
      ensures monitoredOrder == old(monitoredOrder) && monitored == old(monitored)
    {
      var key := env.md5(url);
      var previous := if key in threatDatabase then threatDatabase[key] else [];
      var db := threatDatabase[key := previous + [result]];
      var counted := CountIn(stats, result.verdict);
      assert counted == Tally(recorded + [result]) by { TallyAppend(recorded, result); }
      threatDatabase, stats, recorded := db, counted, recorded + [result];
    }

    /** `get_url_history`. */
    function GetUrlHistory(url: string): (h: seq<AnalysisResult>)
      reads this
      ensures env.md5(url) !in threatDatabase ==> h == []
      ensures env.md5(url) in threatDatabase ==> h == threatDatabase[env.md5(url)]
    {
      HistoryOf(threatDatabase, env.md5(url))
    }

    /** `get_threat_statistics`. */
    function GetThreatStatistics(): (r: StatisticsReport)
      reads this
      requires Valid()
      ensures r.stats == stats && (r.WithPercentages? <==> stats.total > 0)
      ensures r.stats.safe + r.stats.suspicious + r.stats.malicious <= r.stats.total
    {
      Report(stats)
    }

    /** `start_url_monitoring`: a new URL goes last, a known one keeps its place and
        gets the new entry. */
    method StartUrlMonitoring(url: string, intervalHours: int)
      requires Valid()
      modifies this
      ensures Valid()
      ensures monitored == old(monitored)[url := MonitorEntry(intervalHours, "monitoring")]
      ensures url in old(monitored) ==> monitoredOrder == old(monitoredOrder)
      ensures url !in old(monitored) ==> monitoredOrder == old(monitoredOrder) + [url]
      ensures threatDatabase == old(threatDatabase) && stats == old(stats) && recorded == old(recorded)
    {
      if url !in monitored {
        monitoredOrder := monitoredOrder + [url];
      }
      monitored := monitored[url := MonitorEntry(intervalHours, "monitoring")];
    }

    /** `stop_url_monitoring`: nothing happens for a URL not monitored. */
    method StopUrlMonitoring(url: string)
      requires Valid()
      modifies this
      ensures Valid()
      ensures monitored == old(monitored) - {url}
      ensures monitoredOrder == Without(old(monitoredOrder), url)
      ensures url !in old(monitored) ==> monitoredOrder == old(monitoredOrder)
      ensures threatDatabase == old(threatDatabase) && stats == old(stats) && recorded == old(recorded)
    {
      if url in monitored {
        monitored := monitored - {url};
      }
      WithoutAbsent(monitoredOrder, url);
      monitoredOrder := Without(monitoredOrder, url);
    }

    /** `get_monitored_urls`. */
    function GetMonitoredUrls(): (urls: seq<string>)
      reads this
      requires Valid()
      ensures Distinct(urls) && forall u :: u in urls <==> u in monitored
    {
      monitoredOrder
    }

    /** The retry loop of `analyze_with_ai`: it returns what the schedule CallAI
        computes and leaves the pool where the schedule says. */
    method AnalyzeWithAI(pool: KeyPool, respond: (nat, string) -> Reply) returns (r: AIDict)
      requires pool.Valid()
      modifies pool
      ensures pool.Valid()
      ensures r == CallAI(pool.keys, old(pool.index), respond, env.decode).result
      ensures pool.index == CallAI(pool.keys, old(pool.index), respond, env.decode).index
    {
      ghost var target := AttemptsFrom(pool.keys, pool.index, 0, respond);
      var maxRetries := |pool.keys|;
      for attempt := 0 to maxRetries
        invariant pool.Valid()
        invariant AttemptsFrom(pool.keys, pool.index, attempt, respond).ending == target.ending
        invariant AttemptsFrom(pool.keys, pool.index, attempt, respond).index == target.index
      {
        var key := pool.CurrentApiKey();
        match respond(attempt, key)
        case Answered(t) =>
          return Interpret(t, env.decode);
        case Raised(m) =>
          if attempt < maxRetries - 1 {
            pool.SwitchApiKey();
          } else {
            return AnalysisFailed(m);
          }
      }
      return AllKeysFailed;
    }

    /** `analyze_link`: a rejected URL gets the fixed report and nothing else happens;
        an accepted one is analysed, sent to the AI once, and recorded exactly once. */
    method AnalyzeLink(url: string, pool: KeyPool, head: Option<HeadResponse>, page: PageFetch,
                       respond: (nat, string) -> Reply) returns (r: AnalysisResult)
      requires Valid() && pool.Valid()
      modifies this, pool
      ensures Valid() && pool.Valid()
      ensures !ValidateUrl(url, env.isValidUrl) ==>
        r == Rejected(url) && pool.index == old(pool.index) &&
        threatDatabase == old(threatDatabase) && stats == old(stats) && recorded == old(recorded)
      ensures ValidateUrl(url, env.isValidUrl) ==>
        var c := CallAI(pool.keys, old(pool.index), respond, env.decode);
        r == Combine(env, url, head, page, c.result) && pool.index == c.index &&
        threatDatabase == AppendHistory(old(threatDatabase), env.md5(url), r) &&
        stats == Count(old(stats), Classify(r.verdict)) && recorded == old(recorded) + [r]
      ensures monitoredOrder == old(monitoredOrder) && monitored == old(monitored)
    {
      if !ValidateUrl(url, env.isValidUrl) {
        return Rejected(url);
      }
      var ai := AnalyzeWithAI(pool, respond);
      r := Combine(env, url, head, page, ai);
      AddToThreatDatabase(url, r);
    }
  }

  lemma {:induction false} WithoutAbsent(s: seq<string>, x: string)
    ensures x !in s ==> Without(s, x) == s
  {
    if s != [] {
      WithoutAbsent(s[1..], x);
      assert s == [s[0]] + s[1..];
    }
  }
}
