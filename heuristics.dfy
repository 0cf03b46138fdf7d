/** The deterministic checks `LinkAnalyzer` runs on a URL or on e-mail text, and the
    score of the threat-intelligence endpoint. The foreign libraries they call
    (`validators.url`, `tldextract.extract`, `hashlib.md5`) are passed in as functions;
    network replies are passed in as values. */
module Heuristics {
  import opened Text
  import opened Wrappers

  /** What `tldextract.extract(url)` returns. */
  datatype Extracted = Extracted(subdomain: string, domain: string, suffix: string)

  /** `LinkAnalyzer.suspicious_domains`. */
  const SuspiciousDomains: seq<string> :=
    ["bit.ly", "tinyurl.com", "short.link", "t.co", "goo.gl", "ow.ly", "is.gd", "v.gd", "shorturl.at"]

  /** The shortener list of `check_url_shortening_services`. */
  const Shorteners: seq<string> :=
    ["bit.ly", "tinyurl.com", "short.link", "t.co", "goo.gl", "ow.ly", "is.gd", "v.gd", "shorturl.at",
     "rebrand.ly", "cutt.ly", "short.ly", "tiny.cc", "buff.ly"]

  /** `LinkAnalyzer.known_phishing_patterns`. */
  const KnownPhishingPatterns: seq<string> :=
    ["paypal-security", "amazon-verification", "microsoft-update", "apple-id", "google-security",
     "facebook-login", "twitter-verify"]

  /** `LinkAnalyzer.suspicious_keywords`, looked for in page text. */
  const SuspiciousKeywords: seq<string> :=
    ["urgent", "verify", "suspended", "expired", "security", "update", "confirm", "validate",
     "restore", "unlock", "immediately"]

  /** `LinkAnalyzer.email_threat_patterns`. */
  const EmailThreatPatterns: seq<string> :=
    ["verify your account", "suspended account", "urgent action required", "click here to verify",
     "account security alert", "immediate attention"]

  const UrgencyWords: seq<string> := ["urgent", "immediately", "asap", "critical", "emergency"]

  const ActionWords: seq<string> := ["click", "verify", "confirm", "update", "validate"]

  /** The suspicious character sequences of `analyze_url_structure`. */
  const SuspiciousChars: seq<string> := ["@", "\\", "//", ".."]

  const CommonTypos: seq<string> := ["goggle", "facebok", "twiter", "amazom", "paypall"]

  /** Some pattern of `ps` occurs in `s` (Python `any(p in s for p in ps)`). */
  predicate AnyOccurs(s: string, ps: seq<string>)
  {
    exists p :: p in ps && Contains(s, p)
  }

  function Min(a: int, b: int): (m: int)
    ensures m <= a && m <= b && (m == a || m == b)
  {
    if a <= b then a else b
  }

  // ---------------------------------------------------------------- validation

  predicate HasScheme(url: string)
  {
    StartsWith(url, "http://") || StartsWith(url, "https://")
  }

  /** The string `validate_url` hands to the validity predicate. */
  function Normalize(url: string): (r: string)
    ensures HasScheme(r)
    ensures HasScheme(url) ==> r == url
    ensures !HasScheme(url) ==> r == "https://" + url
  {
    if HasScheme(url) then url
    else
      var r := "https://" + url;
      assert r[..8] == "https://";
      r
  }

  /** `validate_url`: the URL, with `https://` put in front when it has neither scheme,
      judged by `isValid` (`validators.url`). */
  function ValidateUrl(url: string, isValid: string -> bool): (ok: bool)
    ensures HasScheme(url) ==> ok == isValid(url)
    ensures !HasScheme(url) ==> ok == isValid("https://" + url)
  {
    isValid(Normalize(url))
  }

  /** Normalising twice is normalising once. */
  lemma NormalizeIdempotent(url: string)
    ensures Normalize(Normalize(url)) == Normalize(url)
  {
  }

  // ------------------------------------------------------------ domain parts

  datatype DomainInfo = DomainInfo(domain: string, subdomain: string, fullDomain: string)

  /** `extract_domain_info`. */
  function ExtractDomainInfo(url: string, extract: string -> Extracted): (r: DomainInfo)
    ensures r.domain == extract(url).domain + "." + extract(url).suffix
    ensures r.subdomain == extract(url).subdomain
    ensures r.subdomain == "" ==> r.fullDomain == r.domain
    ensures r.subdomain != "" ==> r.fullDomain == r.subdomain + "." + r.domain
  {
    var e := extract(url);
    var domain := e.domain + "." + e.suffix;
    DomainInfo(domain, e.subdomain,
      if e.subdomain != "" then e.subdomain + "." + e.domain + "." + e.suffix else domain)
  }

  /** `check_url_shortening_services`. */
  function IsShortener(url: string, extract: string -> Extracted): (r: bool)
    ensures r <==> ExtractDomainInfo(url, extract).domain in Shorteners
  {
    extract(url).domain + "." + extract(url).suffix in Shorteners
  }

  /** Every domain on the analyser's suspicious list is also on the shortener list. */
  lemma SuspiciousDomainsAreShorteners()
    ensures forall d :: d in SuspiciousDomains ==> d in Shorteners
  {
  }

  // ---------------------------------------------------------------- redirects

  /** What `requests.head(url, allow_redirects=True)` answered: `len(response.history)` and `response.url`. */
  datatype HeadResponse = HeadResponse(hops: nat, finalUrl: string)

  datatype RedirectInfo = RedirectInfo(redirectCount: nat, finalUrl: string, suspiciousRedirect: bool)

  /** `check_redirects`; `head` is None when the request raised. */
  function CheckRedirects(url: string, head: Option<HeadResponse>): (r: RedirectInfo)
    ensures r.suspiciousRedirect <==> r.redirectCount > 3
    ensures head.None? ==> r == RedirectInfo(0, url, false)
    ensures head.Some? ==> r.redirectCount == head.value.hops && r.finalUrl == head.value.finalUrl
  {
    match head
    case None => RedirectInfo(0, url, false)
    case Some(h) => RedirectInfo(h.hops, h.finalUrl, h.hops > 3)
  }

  // ------------------------------------------------------------ URL structure

  predicate IsWordChar(c: char)
  {
    'a' <= c <= 'z' || 'A' <= c <= 'Z' || '0' <= c <= '9' || c == '_'
  }

  predicate IsWordAt(s: string, k: int)
  {
    0 <= k < |s| && IsWordChar(s[k])
  }

  /** The regular-expression anchor `\b` at position `k`. */
  predicate WordBoundary(s: string, k: int)
  {
    IsWordAt(s, k - 1) != IsWordAt(s, k)
  }

  /** One to three ASCII digits (`[0-9]{1,3}`). */
  predicate IsOctetText(t: string)
  {
    1 <= |t| <= 3 && forall i :: 0 <= i < |t| ==> '0' <= t[i] <= '9'
  }

  /** `t` in full matches `(?:[0-9]{1,3}\.){3}[0-9]{1,3}`. */
  predicate IsDottedQuad(t: string)
  {
    var parts := Split(t, '.');
    |parts| == 4 && forall k :: 0 <= k < 4 ==> IsOctetText(parts[k])
  }

  /** `re.search(r'\b(?:[0-9]{1,3}\.){3}[0-9]{1,3}\b', url)` finds a match. */
  predicate HasIpAddress(url: string)
  {
    exists i, j :: 0 <= i <= j <= |url| && WordBoundary(url, i) && WordBoundary(url, j) && IsDottedQuad(url[i..j])
  }

  datatype UrlStructure = UrlStructure(
    hasSuspiciousChars: bool,
    hasIpAddress: bool,
    subdomainCount: int,
    hasTyposquatting: bool,
    urlLength: nat)

  /** `analyze_url_structure`. */
  function AnalyzeUrlStructure(url: string): (r: UrlStructure)
    ensures r.urlLength == |url|
    ensures r.subdomainCount == CountChar(url, '.') - 1
    ensures r.hasSuspiciousChars <==> AnyOccurs(url, SuspiciousChars)
    ensures r.hasTyposquatting <==> AnyOccurs(Lower(url), CommonTypos)
    ensures r.hasIpAddress <==> HasIpAddress(url)
  {
    SplitCount(url, '.');
    UrlStructure(
      AnyOccurs(url, SuspiciousChars),
      HasIpAddress(url),
      |Split(url, '.')| - 2,
      AnyOccurs(Lower(url), CommonTypos),
      |url|)
  }

  lemma {:induction false} CountCharAbsent(s: string, c: char)
    requires c !in s
    ensures CountChar(s, c) == 0
  {
    if s != [] {
      assert s[0] != c;
      assert forall k :: 0 <= k < |s[1..]| ==> s[1..][k] == s[k + 1];
      CountCharAbsent(s[1..], c);
    }
  }

  lemma CountCharPresent(s: string, c: char)
    ensures CountChar(s, c) > 0 ==> c in s
  {
    if c !in s {
      CountCharAbsent(s, c);
    }
  }

  /** A matched address has four digit groups, so exactly three dots. */
  lemma DottedQuadDots(t: string)
    requires IsDottedQuad(t)
    ensures CountChar(t, '.') == 3 && '.' in t
  {
    SplitCount(t, '.');
    CountCharPresent(t, '.');
  }

  /** The IP pattern never matches a URL without a dot. */
  lemma IpAddressNeedsDot(url: string)
    requires HasIpAddress(url)
    ensures '.' in url
  {
    var i, j :| 0 <= i <= j <= |url| && WordBoundary(url, i) && WordBoundary(url, j) && IsDottedQuad(url[i..j]);
    DottedQuadDots(url[i..j]);
  }

  /** A string with no dot has a subdomain count of -1. */
  lemma DotlessSubdomainCount(url: string)
    requires '.' !in url
    ensures AnalyzeUrlStructure(url).subdomainCount == -1
  {
    CountCharAbsent(url, '.');
  }

  /** Any URL with a scheme separator `://` contains `//`, so it is always flagged. */
  lemma SchemeSeparatorIsSuspicious(url: string)
    requires Contains(url, "://")
    ensures AnalyzeUrlStructure(url).hasSuspiciousChars
  {
    var i :| OccursAt(url, "://", i);
    assert OccursAt("://", "//", 1);
    ContainsInfix(url, "://", i, "//", 1);
    assert "//" in SuspiciousChars;
  }

  /** The typosquatting test does not depend on letter case. */
  lemma TyposquattingIgnoresCase(url: string)
    ensures AnalyzeUrlStructure(Lower(url)).hasTyposquatting == AnalyzeUrlStructure(url).hasTyposquatting
  {
    LowerIdempotent(url);
  }

  /** The address of a host on a private network is found by the IP pattern. */
  lemma IpHostExample()
    ensures AnalyzeUrlStructure("http://192.168.1.5/login").hasIpAddress
  {
    IpHostMatches();
  }

  lemma IpHostMatches()
    ensures HasIpAddress("http://192.168.1.5/login")
  {
    var url, ip := "http://192.168.1.5/login", "192.168.1.5";
    assert IsDottedQuad(url[7..18]) by {
      assert url == "http://" + ip + "/login";
      assert url[7..18] == ip;
      DottedQuadExample();
    }
    assert WordBoundary(url, 7) && WordBoundary(url, 18) by {
      assert url[6] == '/' && url[7] == '1' && url[17] == '5' && url[18] == '/';
    }
  }

  lemma DottedQuadExample()
    ensures IsDottedQuad("192.168.1.5")
  {
    var parts := ["192", "168", "1", "5"];
    assert Join(parts, '.') == "192.168.1.5" by {
      assert parts[1..] == ["168", "1", "5"] && parts[2..] == ["1", "5"] && parts[3..] == ["5"];
      assert Join(parts[3..], '.') == "5";
      assert Join(parts[2..], '.') == "1" + "." + "5" == "1.5";
      assert Join(parts[1..], '.') == "168" + "." + "1.5" == "168.1.5";
      assert Join(parts, '.') == "192" + "." + "168.1.5";
    }
    OctetsJoined(parts);
  }

  /** Four digit groups joined by dots form a dotted quad. */
  lemma OctetsJoined(parts: seq<string>)
    requires |parts| == 4 && forall k :: 0 <= k < 4 ==> IsOctetText(parts[k])
    ensures IsDottedQuad(Join(parts, '.'))
  {
    SplitJoin(parts, '.');
  }

  // ------------------------------------------------------------------- e-mail

  /** How many entries of `ps` occur in `s` (`sum(1 for p in ps if p in s)`). */
  function CountPresent(ps: seq<string>, s: string): (n: nat)
    ensures n <= |ps|
    ensures n == 0 <==> !AnyOccurs(s, ps)
    ensures n == |ps| <==> forall k :: 0 <= k < |ps| ==> Contains(s, ps[k])
  {
    if ps == [] then 0
    else
      var rest := CountPresent(ps[1..], s);
      assert forall p :: p in ps ==> p == ps[0] || p in ps[1..];
      assert forall k :: 1 <= k < |ps| ==> ps[k] == ps[1..][k - 1];
      (if Contains(s, ps[0]) then 1 else 0) + rest
  }

  /** Text that contains more contains at least as many of the patterns. */
  lemma {:induction false} CountPresentGrows(ps: seq<string>, a: string, b: string)
    ensures CountPresent(ps, a) <= CountPresent(ps, a + b)
  {
    if ps != [] {
      ContainsInConcat(a, b, ps[0]);
      CountPresentGrows(ps[1..], a, b);
    }
  }

  datatype EmailAnalysis = EmailAnalysis(
    suspiciousPatterns: nat,
    urgencyIndicators: nat,
    actionRequests: nat,
    emailThreatScore: nat,
    isLikelyPhishing: bool)

  /** `analyze_email_security`. */
  function AnalyzeEmailSecurity(email: string): (r: EmailAnalysis)
    ensures r.suspiciousPatterns == CountPresent(EmailThreatPatterns, Lower(email))
    ensures r.urgencyIndicators == CountPresent(UrgencyWords, Lower(email))
    ensures r.actionRequests == CountPresent(ActionWords, Lower(email))
    ensures r.suspiciousPatterns <= |EmailThreatPatterns|
    ensures r.urgencyIndicators <= |UrgencyWords| && r.actionRequests <= |ActionWords|
    ensures r.emailThreatScore == Min(20 * r.suspiciousPatterns + 10 * r.urgencyIndicators + 5 * r.actionRequests, 100)
    ensures 0 <= r.emailThreatScore <= 100
    ensures r.isLikelyPhishing <==> r.emailThreatScore > 50
    ensures r.isLikelyPhishing <==> 20 * r.suspiciousPatterns + 10 * r.urgencyIndicators + 5 * r.actionRequests > 50
  {
    var lower := Lower(email);
    var p := CountPresent(EmailThreatPatterns, lower);
    var u := CountPresent(UrgencyWords, lower);
    var a := CountPresent(ActionWords, lower);
    var score := Min(p * 20 + u * 10 + a * 5, 100);
    EmailAnalysis(p, u, a, score, score > 50)
  }

  /** A score of exactly 50 is not enough to call an e-mail phishing. */
  lemma EmailBoundaryAtFifty(email: string)
    requires var r := AnalyzeEmailSecurity(email);
      r.suspiciousPatterns == 2 && r.urgencyIndicators == 1 && r.actionRequests == 0
    ensures AnalyzeEmailSecurity(email).emailThreatScore == 50
    ensures !AnalyzeEmailSecurity(email).isLikelyPhishing
  {
  }

  /** Appending text to an e-mail never lowers its threat score. */
  lemma EmailScoreGrows(a: string, b: string)
    ensures AnalyzeEmailSecurity(a).emailThreatScore <= AnalyzeEmailSecurity(a + b).emailThreatScore
  {
    LowerAppend(a, b);
    CountPresentGrows(EmailThreatPatterns, Lower(a), Lower(b));
    CountPresentGrows(UrgencyWords, Lower(a), Lower(b));
    CountPresentGrows(ActionWords, Lower(a), Lower(b));
  }

  // ------------------------------------------------------------------ content

  /** What fetching and parsing the page produced: the page text (`soup.get_text()`),
      each form and meta tag as markup (`str(tag)`), the number of `<script src>` and
      `<a href>` elements and the title string; or the error the fetch raised. */
  datatype PageFetch =
    | Page(text: string, forms: seq<string>, scriptCount: nat, linkCount: nat, metas: seq<string>, title: Option<string>)
    | FetchError(message: string)

  datatype ContentSignals = ContentSignals(
    suspiciousKeywordCount: nat,
    hasLoginForm: bool,
    externalScriptsCount: nat,
    externalLinksCount: nat,
    suspiciousMetaTags: bool,
    contentLength: nat,
    title: string,
    error: Option<string>)

  predicate AnyTagMentions(tags: seq<string>, a: string, b: string)
  {
    exists t :: t in tags && (Contains(Lower(t), a) || Contains(Lower(t), b))
  }

  /** `analyze_website_content`, after the fetch. */
  function AnalyzeWebsiteContent(page: PageFetch): (r: ContentSignals)
    ensures r.suspiciousKeywordCount <= |SuspiciousKeywords|
    ensures page.FetchError? ==> r == ContentSignals(0, false, 0, 0, false, 0, "Error loading content", Some(page.message))
    ensures page.Page? ==> r.error.None? && r.contentLength == |Lower(page.text)|
    ensures page.Page? ==> r.suspiciousKeywordCount == CountPresent(SuspiciousKeywords, Lower(page.text))
    ensures page.Page? ==> r.externalScriptsCount == page.scriptCount && r.externalLinksCount == page.linkCount
    ensures page.Page? ==> r.title == page.title.GetOr("No title")
    ensures page.Page? ==> (r.hasLoginForm <==> AnyTagMentions(page.forms, "password", "login"))
    ensures page.Page? ==> (r.suspiciousMetaTags <==> AnyTagMentions(page.metas, "phishing", "scam"))
  {
    match page
    case FetchError(m) => ContentSignals(0, false, 0, 0, false, 0, "Error loading content", Some(m))
    case Page(text, forms, scripts, links, metas, title) =>
      var lower := Lower(text);
      ContentSignals(
        CountPresent(SuspiciousKeywords, lower),
        AnyTagMentions(forms, "password", "login"),
        scripts, links,
        AnyTagMentions(metas, "phishing", "scam"),
        |lower|,
        title.GetOr("No title"),
        None)
  }

  // ------------------------------------------------------------- registration

  datatype Registration = Registration(
    creationDate: string,
    expirationDate: string,
    registrar: string,
    daysOld: Option<int>,
    isRecentlyRegistered: bool,
    country: string,
    note: string)

  /** `analyze_domain_registration`: the disabled lookup, which never reports a recent registration. */
  function AnalyzeDomainRegistration(domain: string): (r: Registration)
    ensures !r.isRecentlyRegistered && r.daysOld.None?
  {
    var unknown := "Unknown (WHOIS disabled)";
    Registration(unknown, unknown, unknown, None, false, unknown,
      "Domain registration analysis temporarily disabled")
  }

  // ------------------------------------------------------------- basic checks

  datatype BasicChecks = BasicChecks(
    suspiciousDomain: bool,
    phishingPattern: bool,
    suspiciousRedirect: bool,
    isShortener: bool,
    recentlyRegistered: bool,
    hasSuspiciousChars: bool,
    hasIpAddress: bool,
    hasTyposquatting: bool)

  /** The `basic_checks` summary of `analyze_link`, from the values computed before it. */
  function ComputeBasicChecks(url: string, domain: DomainInfo, redirect: RedirectInfo, shortener: bool,
                              registration: Registration, structure: UrlStructure): (r: BasicChecks)
    ensures r.suspiciousDomain <==> domain.domain in SuspiciousDomains
    ensures r.phishingPattern <==> AnyOccurs(Lower(url), KnownPhishingPatterns)
    ensures r.suspiciousRedirect == redirect.suspiciousRedirect && r.isShortener == shortener
    ensures r.recentlyRegistered == registration.isRecentlyRegistered
    ensures r.hasSuspiciousChars == structure.hasSuspiciousChars
    ensures r.hasIpAddress == structure.hasIpAddress && r.hasTyposquatting == structure.hasTyposquatting
  {
    BasicChecks(
      domain.domain in SuspiciousDomains,
      AnyOccurs(Lower(url), KnownPhishingPatterns),
      redirect.suspiciousRedirect,
      shortener,
      registration.isRecentlyRegistered,
      structure.hasSuspiciousChars,
      structure.hasIpAddress,
      structure.hasTyposquatting)
  }

  /** A domain flagged as suspicious is always also flagged as a shortener. */
  lemma SuspiciousDomainIsShortener(url: string, extract: string -> Extracted, redirect: RedirectInfo)
    ensures var domain := ExtractDomainInfo(url, extract);
      var checks := ComputeBasicChecks(url, domain, redirect, IsShortener(url, extract),
        AnalyzeDomainRegistration(domain.domain), AnalyzeUrlStructure(url));
      checks.suspiciousDomain ==> checks.isShortener
  {
    SuspiciousDomainsAreShorteners();
  }

  // ------------------------------------------------------ threat intelligence

  /** The additive score of the threat-intelligence endpoint, before clamping. */
  function ThreatScore(registration: Registration, structure: UrlStructure): (n: nat)
    ensures n <= 110
    ensures n == 0 <==> !registration.isRecentlyRegistered && !structure.hasSuspiciousChars
                        && !structure.hasIpAddress && !structure.hasTyposquatting
  {
    (if registration.isRecentlyRegistered then 30 else 0)
    + (if structure.hasSuspiciousChars then 20 else 0)
    + (if structure.hasIpAddress then 25 else 0)
    + (if structure.hasTyposquatting then 35 else 0)
  }

  /** Each flag adds its own weight to the score, whatever the other flags are. */
  lemma ThreatScoreWeights(registration: Registration, structure: UrlStructure)
    ensures ThreatScore(registration.(isRecentlyRegistered := true), structure)
         == ThreatScore(registration.(isRecentlyRegistered := false), structure) + 30
    ensures ThreatScore(registration, structure.(hasSuspiciousChars := true))
         == ThreatScore(registration, structure.(hasSuspiciousChars := false)) + 20
    ensures ThreatScore(registration, structure.(hasIpAddress := true))
         == ThreatScore(registration, structure.(hasIpAddress := false)) + 25
    ensures ThreatScore(registration, structure.(hasTyposquatting := true))
         == ThreatScore(registration, structure.(hasTyposquatting := false)) + 35
  {
  }

  /** The server's risk banding. */
  function RiskLevel(score: int): (level: string)
    ensures level == "Low" <==> score < 30
    ensures level == "Medium" <==> 30 <= score < 70
    ensures level == "High" <==> score >= 70
  {
    if score < 30 then "Low" else if score < 70 then "Medium" else "High"
  }

  datatype ThreatReport = ThreatReport(
    url: string,
    domain: string,
    threatScore: nat,
    riskLevel: string,
    registration: Registration,
    structure: UrlStructure,
    urlHash: string)

  /** The result the threat-intelligence endpoint builds for `url`. */
  function ThreatIntelligence(url: string, extract: string -> Extracted, md5: string -> string): (r: ThreatReport)
    ensures r.threatScore <= 100
    ensures r.threatScore == Min(ThreatScore(r.registration, r.structure), 100)
    ensures r.riskLevel == RiskLevel(r.threatScore)
    ensures r.domain == ExtractDomainInfo(url, extract).domain && r.structure == AnalyzeUrlStructure(url)
    ensures r.url == url && r.urlHash == md5(url) && r.registration == AnalyzeDomainRegistration(r.domain)
  {
    var domain := ExtractDomainInfo(url, extract).domain;
    var registration := AnalyzeDomainRegistration(domain);
    var structure := AnalyzeUrlStructure(url);
    var raw := ThreatScore(registration, structure);
    ThreatReport(url, domain, Min(raw, 100), RiskLevel(raw), registration, structure, md5(url))
  }

  /** With the registration lookup disabled the score is at most 80, so the clamp to 100 never bites. */
  lemma DisabledLookupNeverClamps(url: string, extract: string -> Extracted, md5: string -> string)
    ensures var r := ThreatIntelligence(url, extract, md5);
      r.threatScore == ThreatScore(r.registration, r.structure) <= 80
  {
  }
}
