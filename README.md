# Link Verifier core, modelled in Dafny

This project models the deterministic core of the Link Verifier scam and fraud detector.

On the server (`app.py`) it models:

- **URL heuristics.** These are validation, domain splitting, the redirect summary, the shortener check, the URL structure analysis, e-mail phishing scoring, page-content signals, the disabled registration lookup and the `basic_checks` flags.
- **The threat-intelligence score and its risk level.**
- **The `LinkAnalyzer` object's state.** This is the threat ledger keyed by the URL's MD5 hash, the verdict counters and the monitoring registry.
- **API-key failover.** This is the key pool and the bounded retry loop of `analyze_with_ai`.
- **Reply handling.** This is how the model's reply text becomes the JSON text to decode, and the keyword guess used when decoding fails.
- **`analyze_link`**, which puts all of the above together.

On the page (`static/js/app.js`) it models:

- the bounded newest-first analysis history;
- the verdict icon;
- the banding of scores into Low/Medium/High;
- the parsing of the batch form.

The foreign libraries are parameters of the model, gathered in `Analyzer.Env`:

- `validators.url` is a predicate;
- `tldextract.extract` is a function returning subdomain, domain and suffix;
- `hashlib.md5` is a function;
- `json.loads` is a partial decoder returning an `Option`.

The network is modelled the same way:

- The answer of `requests.head` is an `Option<HeadResponse>`, with `None` when the request raised.
- The fetched and parsed page is a `PageFetch`.
- The Gemini model is a function `respond(attempt, configuredKey)` that answers with reply text or raises with a message.

String operations follow the semantics of Python and JavaScript:

- `find` returns -1 when nothing is found.
- Slices clamp their bounds, and negative bounds count from the end.
- `strip`/`trim` use their own whitespace sets.
- `split` and `join` behave as in those languages.
- Lower-casing is defined in `Text.Lower`.

Stateful code keeps the source's imperative form:

- `LinkAnalyzer` is a class with the ledger, counters and registry as fields.
- The key pool is a class holding `current_api_key_index` and the configured key.
- The history is a class.
- The retry loop and `addBatchToHistory`'s `forEach` are loops. Each is proved against a functional specification: `CallAI`/`AttemptsFrom` and `PrependAll`.

Files:

- `wrappers.dfy`: `Option`.
- `text.dfy`: string semantics.
- `heuristics.dfy`: the pure checks.
- `ai_client.dfy`: reply extraction, the fallback, the failover schedule and `KeyPool`.
- `analyzer.dfy`: counters, ledger, registry, reports and the `LinkAnalyzer` class.
- `client.dfy`: the page's logic.

Behaviours of the code that the model keeps:

- **The raw URL is analysed.** `analyze_link` hands the raw URL to every later check. The `https://` prefix is added only inside `validate_url`.
  - A URL without a scheme, such as `bit.ly/abc`, is passed unchanged to `requests.head` and `requests.get`. Both raise for it.
  - So for such a URL the redirect summary is always `(0, url, False)`, and the content analysis is always the error record.
  - The model leaves the HEAD answer and the page fetch as free inputs even for such URLs. No proof relies on their being free.
- **Confidence is never clamped** (`Analyzer.ConfidenceNotClamped`).
- **"All API keys failed" needs an empty key list.** With at least one key, the last failing attempt returns the "Analysis Error" dictionary, so the "All API keys failed" dictionary is returned only for an empty key list (`AiClient.AllKeysFailedOnlyWithoutKeys`).
- **The two banding rules differ.** The page's banding rule cuts at 40/70, while the server's `risk_level` rule cuts at 30/70 (`Client.BandingDisagreesOnThirties`). This compares the two rules only. The e-mail panel applies the page's rule to a real score. The threat-intelligence panel never shows a server score, as the next point explains.
- **The threat-intelligence panel reads the envelope.** The route replies `{'status': 'success', 'result': {...}}` (app.py:791-803), and the page passes that whole reply to `displayThreatIntelligence` (static/js/app.js:554-558). So `result.threat_score || 0` is always 0, banded Low (`Client.ThreatPanelReadsEnvelope`).
- **An unclosed fence loses a character.** In a reply whose ```` ```json ```` fence is never closed, `find` answers -1 and the slice loses the reply's last character (`AiClient.UnclosedFenceExample`).
- **One batch alert cannot appear.** The batch form's "Please enter at least one valid URL." alert can never be shown, because a text that is not blank after trimming always leaves a non-empty first line (`Client.NoValidUrlAlertUnreachable`).

## Model

| member | source | states |
|---|---|---|
| Heuristics.Normalize | app.py:100-101 | the result always starts with a scheme; a URL with `http://` or `https://` is kept, any other gets `https://` in front |
| Heuristics.ValidateUrl | app.py:98-103 | the validity predicate is applied to the URL itself when it starts with `http://` or `https://`, and to `https://` + URL otherwise |
| Heuristics.NormalizeIdempotent | app.py:100-101 | prefixing the scheme twice gives the same string as prefixing it once |
| Heuristics.ExtractDomainInfo | app.py:105-112 | domain is `domain.suffix` of the extractor's answer; the full domain carries the subdomain in front exactly when the subdomain is non-empty |
| Heuristics.IsShortener | app.py:205-214 | true exactly when `domain.suffix` is on the fourteen-entry shortener list |
| Heuristics.SuspiciousDomainsAreShorteners | app.py:58-61 | every entry of the analyser's suspicious-domain list is also on the shortener list |
| Heuristics.CheckRedirects | app.py:114-127 | `suspicious_redirect` holds exactly when more than 3 redirects were followed; a failed request gives 0 redirects, the original URL and false |
| Heuristics.AnalyzeUrlStructure | app.py:216-240 | URL length; subdomain count equal to the number of dots minus one; suspicious characters iff one of `@`, `\`, `//`, `..` occurs; typosquatting iff a listed typo occurs in the lower-cased URL; IP flag iff a word-bounded dotted quad of 1-3 digit groups occurs |
| Heuristics.DottedQuadDots | app.py:223 | a text matching the address pattern has four digit groups, hence exactly three dots |
| Heuristics.IpAddressNeedsDot | app.py:223-224 | the address pattern never matches a URL without a dot |
| Heuristics.OctetsJoined | app.py:223 | any four groups of one to three digits joined by dots match the address pattern |
| Heuristics.DotlessSubdomainCount | app.py:227-228 | a string without a dot has subdomain count -1 |
| Heuristics.SchemeSeparatorIsSuspicious | app.py:219-220 | every URL containing `://` is flagged for suspicious characters |
| Heuristics.TyposquattingIgnoresCase | app.py:231-232 | the typosquatting flag does not depend on letter case |
| Heuristics.IpHostExample | app.py:223-224 | `http://192.168.1.5/login` is flagged as using an IP address |
| Heuristics.CountPresent | app.py:247 | the count of listed phrases present is at most the list's length, zero iff none occurs, and full iff all occur |
| Heuristics.CountPresentGrows | app.py:247-255 | appending text never lowers the count of phrases present |
| Heuristics.AnalyzeEmailSecurity | app.py:242-267 | the three counts are the numbers of listed threat patterns, urgency words and action words present in the lower-cased e-mail (`CountPresent`); at most 6 patterns, 5 urgency words and 5 action words; score = min(20p + 10u + 5a, 100), so it lies in 0..100; likely phishing iff the score exceeds 50 |
| Heuristics.EmailBoundaryAtFifty | app.py:258-266 | a score of exactly 50 is not judged likely phishing |
| Heuristics.EmailScoreGrows | app.py:242-267 | appending text to an e-mail never lowers its threat score |
| Heuristics.AnalyzeWebsiteContent | app.py:154-199 | a failed fetch gives zero signals, the title "Error loading content" and the error message; a page gives the number of listed keywords in its lower-cased text (at most 11), the script and link counts of the page, its title or "No title", the login-form flag iff some form mentions "password" or "login", the meta flag iff some meta tag mentions "phishing" or "scam", and the lower-cased text's length |
| Heuristics.AnalyzeDomainRegistration | app.py:129-142 | the disabled lookup never reports a recently registered domain and has no age |
| Heuristics.ComputeBasicChecks | app.py:483-492 | suspicious domain iff the domain is listed; phishing pattern iff a known pattern occurs in the lower-cased URL; the other six flags copied from the redirect, shortener, registration and structure results |
| Heuristics.SuspiciousDomainIsShortener | app.py:484-487 | a URL flagged as a suspicious domain is always flagged as a shortener too |
| Heuristics.ThreatScore | app.py:781-789 | the additive score is at most 110 and is 0 iff none of the four flags is set |
| Heuristics.ThreatScoreWeights | app.py:781-789 | each flag adds its own weight whatever the others are: 30 for a recent registration, 20 for suspicious characters, 25 for an IP address, 35 for typosquatting |
| Heuristics.RiskLevel | app.py:797 | Low iff score < 30, Medium iff 30 <= score < 70, High iff score >= 70 |
| Heuristics.ThreatIntelligence | app.py:771-803 | the reported score is the additive score clamped to 100; its risk level is the banding of that score; domain and structure are those of the URL; the report carries the URL itself, its MD5 hash and the registration lookup of its domain |
| Heuristics.DisabledLookupNeverClamps | app.py:781-795 | with the registration lookup disabled the score never exceeds 80, so the clamp never applies |
| AiClient.ExtractJsonText | app.py:392-403 | the text handed to the decoder is always a contiguous piece of the reply |
| AiClient.FenceBodyIsExtracted | app.py:394-397 | with a ```` ```json ```` fence the decoder gets the stripped text between the fence and the first closing ```` ``` ```` after it, whatever braces the reply holds |
| AiClient.UnclosedFenceDropsLastChar | app.py:395-397 | an unclosed fence hands the decoder the text after the fence minus the reply's last character (empty when nothing follows the fence) |
| AiClient.UnclosedFenceExample | app.py:395-397 | the reply ```` ```json{} ```` is reduced to `{` |
| AiClient.BracesSpanFirstToLast | app.py:398-401 | without a fence the decoder gets the span from the first `{` to the last `}` inclusive |
| AiClient.BracesReversedGiveEmpty | app.py:398-401 | without a fence, when the last `}` comes before the first `{`, the decoder gets the empty string |
| AiClient.RawReplyOtherwise | app.py:402-403 | without a fence or a pair of braces the decoder gets the reply unchanged |
| AiClient.KeywordFallback | app.py:406-424 | "safe" in the lower-cased reply gives Safe/70, else "malicious" gives Malicious/80, else Suspicious/60; threats are ["JSON Parse Error"] |
| AiClient.SafeWinsOverMalicious | app.py:409-414 | a reply mentioning both words is read as Safe |
| AiClient.FallbackIgnoresCase | app.py:409-417 | the guessed verdict and confidence do not depend on letter case |
| AiClient.Interpret | app.py:392-424 | an answered attempt returns the decoded dictionary of the extracted text, or the keyword guess when it does not decode |
| AiClient.ModNext | app.py:47 | `(i + 1) % n` is the next position, wrapping to 0 after the last |
| AiClient.Rotate | app.py:47 | a position reached by switching keys stays below the number of keys |
| AiClient.RotateIsMod | app.py:47 | `s` switches from position `i` land at `(i + s) % n` |
| AiClient.AnalysisFailed | app.py:432-438 | the dictionary after the last attempt raised: Suspicious, 50, "AI analysis failed: " + the message, ["Analysis Error"] |
| AiClient.AttemptsFrom | app.py:388-438 | from attempt `a` of `n`: no attempt once `a >= n`; otherwise between 1 and `n - a` attempts, one switch fewer than attempts, and the pool left that many positions further on |
| AiClient.CallAI | app.py:354-446 | at most `n` attempts and at most `n - 1` switches per call; the pool index ends at `(start + switches) % n`; an empty key list returns "All API keys failed" with no attempt |
| AiClient.SkipRaised | app.py:425-431 | attempts that raise only switch the key and delay what the next attempt leads to |
| AiClient.FirstAnswerDecides | app.py:390-405 | the first answered attempt `k` decides the result; the call made `k + 1` attempts and `k` switches, and the pool stays on the key that answered |
| AiClient.DecodeFailureKeepsKey | app.py:406-424 | a reply that does not decode returns the keyword guess at once, without switching keys |
| AiClient.AllKeysRaise | app.py:425-438 | when every key raises, the call makes `n` attempts and `n - 1` switches and returns Suspicious/50/"AI analysis failed: " + the last message/["Analysis Error"] |
| AiClient.AllKeysFailedOnlyWithoutKeys | app.py:440-446 | the "All API keys failed" dictionary is returned exactly when the key list is empty, given a decoder that never yields that dictionary itself |
| AiClient.EachKeyAtMostOnce | app.py:388-431 | within one call no key position is tried twice |
| AiClient.EveryKeyReached | app.py:388-431 | a call that tries all keys tries each position |
| AiClient.KeyPool.constructor | app.py:38-39 | the pool starts at index 0 with the client configured for the first key |
| AiClient.KeyPool.CurrentApiKey | app.py:41-43 | the key in use is one of the keys and the one the client is configured with |
| AiClient.KeyPool.SwitchApiKey | app.py:45-51 | the index becomes `(index + 1) % n`, stays below `n`, and the client is reconfigured with the new key |
| Analyzer.Classify | app.py:292-298 | a verdict feeds the safe, suspicious or malicious counter exactly when its lower-cased form is "safe", "suspicious" or "malicious" |
| Analyzer.ClassifyIgnoresCase | app.py:292 | the counter a verdict feeds does not depend on letter case |
| Analyzer.OddLengthVerdictUncounted | app.py:292-298 | a letters-only verdict whose length is not 4, 9 or 10 (such as "Error") feeds no counter |
| Analyzer.Count | app.py:291-298 | the total grows by one and at most the matching one of the three counters grows by one |
| Analyzer.CountIn | app.py:291-298 | the in-place update of the counters on the lower-cased verdict agrees with `Count` on its category |
| Analyzer.Tally | app.py:291-298 | after recording `n` reports the total is `n` and safe + suspicious + malicious <= total |
| Analyzer.TallyAppend | app.py:291-298 | recording one more report updates the counters by `Count` of its verdict |
| Analyzer.TallyComplete | app.py:291-298 | the three counters add up to the total exactly when every recorded verdict is safe, suspicious or malicious in some letter case |
| Analyzer.Percent | app.py:277-279 | a share is non-negative and is the count times 100 divided by the total |
| Analyzer.Report | app.py:269-280 | the counters alone before any report; afterwards the counters and the three shares, each share being `Percent` of its counter over the total |
| Analyzer.PercentagesBounded | app.py:275-280 | each share lies between 0 and 100 and the three add up to at most 100 |
| Analyzer.HistoryOf | app.py:300-303 | the reports under a hash, or none when the hash was never recorded |
| Analyzer.AppendHistory | app.py:284-288 | the hash is in the ledger afterwards and its list is the old one (empty if new) with the report at the end |
| Analyzer.AppendHistoryEffect | app.py:284-288 | recording adds the hash to the ledger's keys, extends its list by exactly the new report at the end, and leaves every other hash's list unchanged |
| Analyzer.Without | app.py:313-316 | removing a URL keeps exactly the other URLs and keeps them distinct |
| Analyzer.WithoutKeepsOrder | app.py:313-320 | removing the URL inserted last restores the previous order |
| Analyzer.WithoutAbsent | app.py:315 | removing a URL that is not registered changes nothing |
| Analyzer.Rejected | app.py:451-461 | the report for an invalid URL: the URL, Malicious, 100, "Invalid URL format", ["Invalid URL"], no domain or redirect info and no details |
| Analyzer.Inspect | app.py:463-492 | the raw URL, not the normalised one, feeds the structure analysis, the shortener check, the hash and the suspicious-domain flag; content signals come from the page; the registration record is the lookup of the extracted domain; the redirect flag is set exactly when the HEAD request answered with more than 3 hops; the phishing-pattern flag holds iff a known pattern occurs in the lower-cased raw URL; the recently-registered flag is never set; the three structure flags are copied from the structure analysis |
| Analyzer.Combine | app.py:497-512 | the report carries the raw URL, the domain info, the redirect summary and the heuristic details of that URL; verdict, confidence, explanation and threats are the AI dictionary's values where its keys are present, and Suspicious, 50, "Analysis completed" and [] where they are missing |
| Analyzer.VerdictComesOnlyFromAI | app.py:497-503 | verdict, confidence, explanation and threats depend on the AI dictionary alone, not on the heuristic results |
| Analyzer.EmptyAnswerDefaults | app.py:500-503 | a dictionary lacking all four keys yields Suspicious, 50, "Analysis completed" and no threats |
| Analyzer.ConfidenceNotClamped | app.py:501 | a confidence of 150 is reported as 150 |
| Analyzer.LinkAnalyzer.constructor | app.py:82-90 | an empty ledger, zero counters and no monitored URL |
| Analyzer.LinkAnalyzer.AddToThreatDatabase | app.py:282-298 | one report appended under the URL's hash, the counters updated by its lower-cased verdict, the counters still the tally of everything recorded, the registry untouched |
| Analyzer.LinkAnalyzer.GetUrlHistory | app.py:300-303 | the list under the URL's hash, or empty for a URL never recorded |
| Analyzer.LinkAnalyzer.GetThreatStatistics | app.py:269-280 | the current counters, with shares exactly when something was recorded, and safe + suspicious + malicious <= total |
| Analyzer.LinkAnalyzer.StartUrlMonitoring | app.py:305-311 | the URL's entry is set to the interval and "monitoring"; a new URL is added once at the end, a known one keeps its single place; the ledger is untouched |
| Analyzer.LinkAnalyzer.StopUrlMonitoring | app.py:313-316 | the URL's entry is removed and the other URLs keep their order; stopping an unknown URL changes nothing |
| Analyzer.LinkAnalyzer.GetMonitoredUrls | app.py:318-320 | each monitored URL listed exactly once, and nothing else |
| Analyzer.LinkAnalyzer.AnalyzeWithAI | app.py:387-446 | the retry loop returns what `CallAI` specifies and leaves the key pool at the index it specifies |
| Analyzer.LinkAnalyzer.AnalyzeLink | app.py:448-517 | an invalid URL gets Malicious/100/"Invalid URL format"/["Invalid URL"] with empty infos, and the ledger, counters and pool stay as they were; a valid one gets the combined report of one AI call, recorded exactly once |
| Client.Prepend | static/js/app.js:249-255 | the new result comes first, the old history follows in order, and the length is min(100, old length + 1) |
| Client.Reversed | static/js/app.js:257-259 | the reverse of a list, position by position |
| Client.PrependAll | static/js/app.js:257-259 | after a non-empty batch, or from a history within the limit, the history holds at most 100 entries |
| Client.PrependAllClosedForm | static/js/app.js:257-259 | after a batch the history is the batch reversed, in front of the old history, cut to 100 |
| Client.LastOfBatchFirst | static/js/app.js:257-259 | after a batch its last result is the newest entry |
| Client.History.constructor | static/js/app.js:2 | the history starts as the stored list |
| Client.History.AddToHistory | static/js/app.js:249-255 | the history becomes `Prepend` of the old history and the result, and is within the limit of 100 |
| Client.History.AddBatchToHistory | static/js/app.js:257-259 | the loop adds the results one by one, in order, ending in `PrependAll` of the old history and the batch; within the limit after a non-empty batch, or if it was before |
| Client.History.ClearHistory | static/js/app.js:294-300 | a confirmed clear empties the history; a declined one leaves it as it was; either way a history within the limit stays within it |
| Client.GetVerdictIcon | static/js/app.js:236-247 | check-circle iff the lower-cased verdict is "safe", triangle iff "suspicious", times-circle iff "malicious", question mark iff none of the three |
| Client.IconOf | static/js/app.js:236-247 | only uncounted verdicts get the question mark |
| Client.IconOfInjective | static/js/app.js:236-247 | the four categories get four different icons |
| Client.IconMatchesServerCategory | static/js/app.js:236-247 | the icon is the one of the counter the server feeds with the same verdict, and the question mark exactly for verdicts no counter counts |
| Client.IconIgnoresCase | static/js/app.js:237 | the icon does not depend on letter case |
| Client.ThreatLevel | static/js/app.js:573-582 | High/malicious iff score >= 70, Medium/suspicious iff 40 <= score < 70, Low/safe iff score < 40 |
| Client.DisplayedScore | static/js/app.js:573 | a missing score is shown as 0 |
| Client.BandingDisagreesOnThirties | static/js/app.js:577-582 | the page's 40/70 banding rule and the server's 30/70 `risk_level` rule, compared as rules, give the same level except on 30 to 39, which the server's rule calls Medium and the page's Low |
| Client.ThreatPanelReadsEnvelope | static/js/app.js:554-582 | the threat-intelligence panel reads `threat_score` from the reply's envelope, where it is missing, so it shows 0 at Low/safe |
| Client.PhishingEmailShownAtMedium | static/js/app.js:663-672 | an e-mail scored 60 is flagged as likely phishing yet shown at Medium level |
| Client.NonEmptyTrimmed | static/js/app.js:103-105 | trimming and dropping empty lines keeps at most as many lines, none of them empty |
| Client.NonEmptyTrimmedAppend | static/js/app.js:103-105 | lines are handled one at a time: the result for two blocks of lines is the two results one after the other, so order is kept |
| Client.NonEmptyTrimmedSingle | static/js/app.js:104-105 | one line is kept as its trimmed form, or dropped when that is empty |
| Client.NonEmptyTrimmedTrimmed | static/js/app.js:104 | every kept line is already trimmed |
| Client.ParseBatch | static/js/app.js:97-115 | a blank text is refused with "Please enter URLs to analyze."; "Maximum 50 URLs allowed per batch." is the answer exactly when more than 50 lines survive; otherwise exactly the surviving lines of the trimmed text are sent, in order, each trimmed, non-empty and without line breaks, one to fifty of them |
| Client.NoValidUrlAlertUnreachable | static/js/app.js:107-110 | the "at least one valid URL" alert is never the outcome |
| Client.TrimSubsequence | static/js/app.js:104 | trimming only removes characters |
| Client.BatchRoundTrip | static/js/app.js:97-115 | one to fifty trimmed, non-empty single lines joined by newlines are sent as exactly those lines, in order |

## Left out

- Flask routes and request/response handling are not modelled, apart from the threat-score block of `threat_intelligence`. They are HTTP plumbing. The routes' calls to `analyze_link` and the monitoring methods are the entry points modelled here.
- Network I/O is replaced by parameters.
  - `requests.head` and `requests.get` are inputs (`Option<HeadResponse>`, `PageFetch`).
  - The Gemini calls are the `respond` function.
  - The prompt text is left out, since it only feeds the network call.
- BeautifulSoup's parsing is abstracted. `PageFetch` gives the page text, each form and meta tag as markup, the counts of `<script src>` and `<a href>` elements, and the title. How these are found in the HTML is not modelled.
- `validators.url`, `tldextract`, `hashlib.md5` and `json.loads` are uninterpreted functions in `Env`. They are foreign libraries.
- A decoded JSON value that is not an object, or fields of other types, are left out. `AIDict` holds only the four fields the analysis reads, each optional.
- Timestamps (`datetime.now()`) in ledger entries, reports and monitor entries are left out because they are nondeterministic.
  - Ledger entries store the report alone.
  - `MonitorEntry` has no `last_checked`.
- Analyzer.Report: the percentages are exact real numbers, not IEEE floating point. Their rounding is not modelled.
- `threat_trends` in the statistics dictionary is never updated by the source, so it is not modelled.
- `analyze_network_security` is not part of this model. Neither are `debug_models`, `api_status`, the CSV/PDF export, QR generation and decoding, `bulk_analyze`'s verdict counts and average confidence, or any rendering, alert, modal, `fetch` or `localStorage` code in `static/js/app.js`.
- The default argument `interval_hours=24` of `start_url_monitoring` is not modelled: every caller in the model passes an interval, as the monitoring route does.
- Heuristics.PageFetch: a missing `<title>` element and a title whose `.string` is None (a title with nested markup) both appear as `None`, and both leave the title as "No title". The source reports the first as "No title" and the second as None.
- The rest of `displayThreatIntelligence` is not modelled. Reading `result.registration_info.creation_date` from the envelope (static/js/app.js:604) throws, so the panel's HTML is never assigned, and the catch at static/js/app.js:562-563 shows a "Network error" alert. This is rendering code.
- Concurrency is not modelled: the threaded server and the key index shared between requests. Each call is modelled as running alone.
- `run.py` and `config.py` are not part of this model; they are a launcher and configuration.
- Printing of the key switch message (app.py:429) is a side effect and is not modelled.
- AiClient.KeyPool.constructor requires a non-empty key list. The source always builds a list of two keys, and reads its first entry when the module loads.
- Text.Lower lower-cases ASCII letters, plus the two non-ASCII characters whose lower case contains an ASCII letter: Kelvin sign to `k`, and dotted capital I to `i` with a combining dot. Other characters are left unchanged. That is exact for every test here, which compares against ASCII words, but not for other uses of lower-casing.
- Heuristics.HasIpAddress treats `\b` as an ASCII word boundary (letters, digits, `_`). Python's Unicode word characters are not modelled.
- Integers are unbounded: Python's integers are unbounded too, and JavaScript's numbers stay far below their exact range in these counters and scores.
