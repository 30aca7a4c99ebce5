/** The agent's tools (tools.py). Each tool takes one string and returns one
    string; every failure it anticipates comes back as text, never as an
    exception. The search backend and the HTTP client are passed in as
    functions: they are the only sources of variation.
 */
module Tools {

  import opened Base
  import opened Strings
  import opened Tables
  import opened Models

  // ---------------------------------------------------------------------
  // The search backend

  /** One call of the backend's `run`: its text, or the message of the
      exception it raised. */
  datatype SearchReply = Results(text: string) | Raised(reason: string)

  /** The module-level search wrapper: absent when no usable key is set. */
  datatype SearchBackend = NoBackend | Backend(run: string -> SearchReply)

  /** The key value the sample configuration ships with. */
  const PlaceholderKey := "YOUR_SERPER_API_KEY"

  /** The marker that starts the tools' error texts. */
  const ErrorMarker := "Error:"

  predicate IsErrorText(s: string) {
    ErrorMarker <= s
  }

  /** The shape of every error text: the marker, a fixed head, a variable
      part (a site, an exception message, a header) and a fixed tail. */
  function ErrorText(head: string, part: string, tail: string): (r: string)
    ensures IsErrorText(r)
    ensures ErrorMarker + head <= r
    ensures Contains(r, part)
  {
    var r := ErrorMarker + head + part + tail;
    assert r == ErrorMarker + (head + part + tail);
    PrefixOfConcat(ErrorMarker, head + part + tail);
    assert r == (ErrorMarker + head) + (part + tail);
    PrefixOfConcat(ErrorMarker + head, part + tail);
    ContainsPart(ErrorMarker + head, part, tail);
    r
  }

  /** A backend exists exactly when the key is set, non-empty and not the
      placeholder. */
  function ConfigureBackend(key: Option<string>, run: string -> SearchReply): (b: SearchBackend)
    ensures b.Backend? <==> key.Some? && key.value != "" && key.value != PlaceholderKey
    ensures b.Backend? ==> b.run == run
  {
    if key.Some? && key.value != "" && key.value != PlaceholderKey then Backend(run) else NoBackend
  }

  const NotConfigured := " SERPER_API_KEY not configured"
  const CheckKeyAdvice := ". Please check your SERPER_API_KEY configuration."

  /** `general_web_search`: the backend's text for the query unchanged, or
      an error text; without a backend the fixed "not configured" error. */
  function GeneralWebSearch(b: SearchBackend, query: string): (r: string)
    ensures b.NoBackend? ==> ErrorMarker + NotConfigured <= r
    ensures b.Backend? && b.run(query).Results? ==> r == b.run(query).text
    ensures b.Backend? && b.run(query).Raised? ==>
      ErrorMarker + " Search failed - " <= r && Contains(r, b.run(query).reason)
  {
    match b
    case NoBackend =>
      ErrorText(NotConfigured, ". Please set SERPER_API_KEY in your .env file.", "")
    case Backend(run) =>
      match run(query)
      case Results(t) => t
      case Raised(e) => ErrorText(" Search failed - ", e, CheckKeyAdvice)
  }

  // ---------------------------------------------------------------------
  // Site-restricted search

  /** The query text the backend is sent for a search restricted to `site`:
      the "site:" operator, the site, one space, then the user's query. */
  function SiteQuery(site: string, query: string): (r: string)
    ensures |r| == 6 + |site| + |query|
    ensures "site:" <= r
    ensures r[5..5 + |site|] == site && r[5 + |site|] == ' '
    ensures r[6 + |site|..] == query
  {
    "site:" + site + " " + query
  }

  /** The index of the first occurrence of `c` in `s`. */
  function IndexOf(s: string, c: char): (r: Option<nat>)
    ensures r.None? <==> forall j :: 0 <= j < |s| ==> s[j] != c
    ensures r.Some? ==> r.value < |s| && s[r.value] == c && forall j :: 0 <= j < r.value ==> s[j] != c
    decreases |s|
  {
    if |s| == 0 then None
    else if s[0] == c then Some(0)
    else match IndexOf(s[1..], c)
      case None => None
      case Some(i) => Some(i + 1)
  }

  /** Reads a site-restricted query back into its site and its query: the
      site runs from after "site:" to the first space. Whatever it reads
      rebuilds the same text, with a site free of spaces. */
  function ParseSiteQuery(s: string): (r: Option<(string, string)>)
    ensures r.Some? ==> SiteQuery(r.value.0, r.value.1) == s
    ensures r.Some? ==> forall j :: 0 <= j < |r.value.0| ==> r.value.0[j] != ' '
    ensures r.None? <==> !("site:" <= s) || forall j :: 5 <= j < |s| ==> s[j] != ' '
  {
    if "site:" <= s then
      var rest := s[5..];
      match IndexOf(rest, ' ')
      case None =>
        assert forall j :: 5 <= j < |s| ==> s[j] == rest[j - 5];
        None
      case Some(k) =>
        assert s == "site:" + rest[..k] + " " + rest[k + 1..];
        Some((rest[..k], rest[k + 1..]))
    else
      None
  }

  /** For a site name without spaces the backend query determines both the
      site and the user's query: nothing is lost or altered in building it. */
  lemma SiteQueryRoundTrip(site: string, query: string)
    requires forall j :: 0 <= j < |site| ==> site[j] != ' '
    ensures ParseSiteQuery(SiteQuery(site, query)) == Some((site, query))
  {
    var s := SiteQuery(site, query);
    var rest := site + " " + query;
    assert s == "site:" + rest;
    assert s[5..] == rest;
    var k := IndexOf(rest, ' ');
    assert rest[|site|] == ' ';
    assert k.Some?;
    assert k.value == |site|;
    assert rest[..|site|] == site;
    assert rest[|site| + 1..] == query;
  }

  /** `official_site_search`: the backend answer to exactly
      `SiteQuery(site, query)`, or an error text naming the site. */
  function OfficialSiteSearch(b: SearchBackend, query: string, site: string): (r: string)
    ensures b.NoBackend? ==> IsErrorText(r) && Contains(r, site)
    ensures b.Backend? && b.run(SiteQuery(site, query)).Results? ==>
      r == b.run(SiteQuery(site, query)).text
    ensures b.Backend? && b.run(SiteQuery(site, query)).Raised? ==>
      IsErrorText(r) && Contains(r, site) && Contains(r, b.run(SiteQuery(site, query)).reason)
  {
    match b
    case NoBackend =>
      ErrorText(NotConfigured + ". Cannot search ", site, ".")
    case Backend(run) =>
      match run(SiteQuery(site, query))
      case Results(t) => t
      case Raised(e) =>
        var r := ErrorText(" Search failed for ", site, " - " + e + CheckKeyAdvice);
        assert r == ErrorMarker + " Search failed for " + site + " - " + e + CheckKeyAdvice;
        ContainsPart(ErrorMarker + " Search failed for " + site + " - ", e, CheckKeyAdvice);
        r
  }

  /** The site search consults the backend at one point only: two backends
      that agree on the site query give the same result. */
  lemma OfficialSiteSearchAsksOnce(b1: SearchBackend, b2: SearchBackend, query: string, site: string)
    requires b1.Backend? && b2.Backend?
    requires b1.run(SiteQuery(site, query)) == b2.run(SiteQuery(site, query))
    ensures OfficialSiteSearch(b1, query, site) == OfficialSiteSearch(b2, query, site)
  {
  }

  const SedarSite := "sedarplus.ca"
  const CvmSite := "cvm.gov.br"
  const SecSite := "sec.gov"

  /** `sedar_plus_search`: the site search restricted to SEDAR+. */
  function SedarPlusSearch(b: SearchBackend, query: string): (r: string)
    ensures b.NoBackend? ==> IsErrorText(r) && Contains(r, SedarSite)
    ensures b.Backend? && b.run("site:sedarplus.ca " + query).Results? ==>
      r == b.run("site:sedarplus.ca " + query).text
    ensures b.Backend? && b.run("site:sedarplus.ca " + query).Raised? ==>
      IsErrorText(r) && Contains(r, SedarSite) && Contains(r, b.run("site:sedarplus.ca " + query).reason)
  {
    assert SiteQuery(SedarSite, query) == "site:sedarplus.ca " + query;
    OfficialSiteSearch(b, query, SedarSite)
  }

  /** `cvm_empresas_net_search`: the site search restricted to CVM. */
  function CvmEmpresasNetSearch(b: SearchBackend, query: string): (r: string)
    ensures b.NoBackend? ==> IsErrorText(r) && Contains(r, CvmSite)
    ensures b.Backend? && b.run("site:cvm.gov.br " + query).Results? ==>
      r == b.run("site:cvm.gov.br " + query).text
    ensures b.Backend? && b.run("site:cvm.gov.br " + query).Raised? ==>
      IsErrorText(r) && Contains(r, CvmSite) && Contains(r, b.run("site:cvm.gov.br " + query).reason)
  {
    assert SiteQuery(CvmSite, query) == "site:cvm.gov.br " + query;
    OfficialSiteSearch(b, query, CvmSite)
  }

  // ---------------------------------------------------------------------
  // SEC EDGAR: site search with a local fallback

  const EdgarBrowseBase := "https://www.sec.gov/cgi-bin/browse-edgar?action=getcompany&CIK="
  const EdgarBrowseQuery := "&type=10-K&dateb=&owner=exclude&count=10"

  /** The browse-by-company URL listing a company's 10-K filings: the
      browse base, the CIK, and the 10-K filter. */
  function EdgarBrowseUrl(cik: string): (r: string)
    ensures EdgarBrowseBase + cik <= r
    ensures Contains(r, cik)
    ensures |r| >= |EdgarBrowseQuery| && r[|r| - |EdgarBrowseQuery|..] == EdgarBrowseQuery
  {
    var r := EdgarBrowseBase + cik + EdgarBrowseQuery;
    PrefixOfConcat(EdgarBrowseBase + cik, EdgarBrowseQuery);
    ContainsPart(EdgarBrowseBase, cik, EdgarBrowseQuery);
    r
  }

  /** The local table of `sec_edgar_search`, in source order: each URL is
      the browse URL of the company's CIK. */
  const SecUrls: seq<(string, string)> := [
    ("microsoft", EdgarBrowseUrl("0000789019")),
    ("apple", EdgarBrowseUrl("0000320193")),
    ("amazon", EdgarBrowseUrl("0001018724")),
    ("google", EdgarBrowseUrl("0001652044"))]

  const ManualSearchUrl := "https://www.sec.gov/edgar/searchedgar/companysearch"
  const FoundSecPrefix := "Found SEC EDGAR filings for "

  /** The local lookup's hit: the prefix, the title-cased company name,
      and the URL. */
  function FoundSecMessage(company: string, url: string): (r: string)
    ensures FoundSecPrefix <= r
    ensures FoundSecPrefix + Title(company) <= r
    ensures Contains(r, url)
  {
    var r := FoundSecPrefix + Title(company) + ". Direct search URL: " + url;
    assert r == FoundSecPrefix + (Title(company) + ". Direct search URL: " + url);
    PrefixOfConcat(FoundSecPrefix, Title(company) + ". Direct search URL: " + url);
    assert r == (FoundSecPrefix + Title(company)) + (". Direct search URL: " + url);
    PrefixOfConcat(FoundSecPrefix + Title(company), ". Direct search URL: " + url);
    ContainsSuffix(FoundSecPrefix + Title(company) + ". Direct search URL: ", url);
    r
  }

  const ManualSecPrefix := "Real SEC EDGAR search attempted for: "

  /** The local lookup's miss: it echoes the query and points to the
      manual company search. */
  function ManualSecMessage(query: string): (r: string)
    ensures ManualSecPrefix + query <= r
    ensures Contains(r, ManualSearchUrl)
  {
    var tail := " for manual search.";
    var r := ManualSecPrefix + query + ". Please visit " + ManualSearchUrl + tail;
    assert r == (ManualSecPrefix + query) + (". Please visit " + ManualSearchUrl + tail);
    PrefixOfConcat(ManualSecPrefix + query, ". Please visit " + ManualSearchUrl + tail);
    ContainsPart(ManualSecPrefix + query + ". Please visit ", ManualSearchUrl, tail);
    r
  }

  /** The local half of `sec_edgar_search`: the company is the first run of
      word characters in the query, lower-cased, and only an exact key of
      the table is found. */
  function SecDirectLookup(query: string): (r: string)
    ensures FoundSecPrefix <= r <==>
      FirstWord(query).Some? && Lookup(SecUrls, Lower(FirstWord(query).value)).Some?
    ensures FirstWord(query).Some? && Lookup(SecUrls, Lower(FirstWord(query).value)).Some? ==>
      var company := Lower(FirstWord(query).value);
      r == FoundSecMessage(company, Lookup(SecUrls, company).value)
    ensures FirstWord(query).Some? && Lookup(SecUrls, Lower(FirstWord(query).value)).Some? ==>
      Contains(r, Lookup(SecUrls, Lower(FirstWord(query).value)).value)
    ensures !(FirstWord(query).Some? && Lookup(SecUrls, Lower(FirstWord(query).value)).Some?) ==>
      r == ManualSecMessage(query)
    ensures !IsErrorText(r)
  {
    var company := FirstWord(query);
    if company.Some? && Lookup(SecUrls, Lower(company.value)).Some? then
      var m := FoundSecMessage(Lower(company.value), Lookup(SecUrls, Lower(company.value)).value);
      assert m[0] == FoundSecPrefix[0];
      NotPrefixFirstChar(ErrorMarker, m);
      m
    else
      var m := ManualSecMessage(query);
      PrefixOfConcat(ManualSecPrefix, query);
      PrefixTransitive(ManualSecPrefix, ManualSecPrefix + query, m);
      assert m[0] == ManualSecPrefix[0] == 'R';
      NotPrefixFirstChar(FoundSecPrefix, m);
      NotPrefixFirstChar(ErrorMarker, m);
      m
  }

  /** The app's own example query starts with "Find", so the local lookup
      misses even though the company is in the table. */
  lemma SecDirectLookupMissesFindQuery()
    ensures FirstWord("Find" + " Microsoft's most recent 10-K annual report") == Some("Find")
    ensures SecDirectLookup("Find" + " Microsoft's most recent 10-K annual report")
         == ManualSecMessage("Find" + " Microsoft's most recent 10-K annual report")
  {
    var rest := " Microsoft's most recent 10-K annual report";
    assert IsWordChar("Find"[0]) && IsWordChar("Find"[1]) && IsWordChar("Find"[2]) && IsWordChar("Find"[3]);
    FirstWordOfLeadingWord("Find", rest);
    assert Lower("Find") == "find";
    assert Lookup(SecUrls, "find").None?;
  }

  /** `sec_edgar_search`: with a backend, the text of the site search on
      sec.gov unless that text contains "Error:"; in every other case the
      local lookup. A failing backend therefore never surfaces its error. */
  function SecEdgarSearch(b: SearchBackend, query: string): (r: string)
    ensures b.NoBackend? ==> r == SecDirectLookup(query)
    ensures b.Backend? && b.run(SiteQuery(SecSite, query)).Raised? ==> r == SecDirectLookup(query)
    ensures b.Backend? && b.run(SiteQuery(SecSite, query)).Results? ==>
      var t := b.run(SiteQuery(SecSite, query)).text;
      r == (if Contains(t, ErrorMarker) then SecDirectLookup(query) else t)
  {
    if b.Backend? then
      var result := OfficialSiteSearch(b, query, SecSite);
      if !Contains(result, ErrorMarker) then
        result
      else
        SecDirectLookup(query)
    else
      SecDirectLookup(query)
  }

  // ---------------------------------------------------------------------
  // Fetching a document

  /** What the HTTP client gives back for a page: a failure (connection
      error, timeout, or an error status), or the Content-Type header and
      the page's visible strings after markup removal. */
  datatype PageReply = RequestFailed(reason: string) | Page(contentType: Option<string>, strings: seq<string>)

  const MaxDocumentChars: nat := 8000

  function StripAll(parts: seq<string>): (r: seq<string>)
    ensures |r| == |parts|
    ensures forall i :: 0 <= i < |parts| ==> r[i] == Strip(parts[i])
  {
    seq(|parts|, i requires 0 <= i < |parts| => Strip(parts[i]))
  }

  /** The visible text of a page: its strings stripped and joined by
      spaces. It is empty for no strings and contains every stripped one. */
  function PageText(strings: seq<string>): (r: string)
    ensures |strings| == 0 ==> r == ""
    ensures forall i :: 0 <= i < |strings| ==> Contains(r, Strip(strings[i]))
  {
    var parts := StripAll(strings);
    assert forall i :: 0 <= i < |strings| ==> parts[i] == Strip(strings[i]);
    Join(" ", parts)
  }

  /** The strings a parser yields are already stripped, so the second strip
      leaves the text unchanged. */
  lemma PageTextOfStrippedStrings(strings: seq<string>)
    requires forall i :: 0 <= i < |strings| ==> IsStripped(strings[i])
    ensures PageText(strings) == Join(" ", strings)
  {
    forall i | 0 <= i < |strings|
      ensures StripAll(strings)[i] == strings[i]
    {
      StripFixesStripped(strings[i]);
    }
    assert StripAll(strings) == strings;
  }

  function ShowContentType(ct: Option<string>): string {
    match ct
    case Some(s) => s
    case None => "None"
  }

  const NotHtml := " Content type is not text/html"

  /** `read_document_from_url`: an HTML page gives the first 8000
      characters of its text; any other content type and any failed request
      give an error text. */
  function ReadDocumentFromUrl(fetch: string -> PageReply, url: string): (r: string)
    ensures fetch(url).Page? && Contains(fetch(url).contentType.GetOr(""), "text/html") ==>
      && r <= PageText(fetch(url).strings)
      && |r| <= MaxDocumentChars
      && (|PageText(fetch(url).strings)| <= MaxDocumentChars ==> r == PageText(fetch(url).strings))
      && (|PageText(fetch(url).strings)| > MaxDocumentChars ==> |r| == MaxDocumentChars)
    ensures fetch(url).Page? && !Contains(fetch(url).contentType.GetOr(""), "text/html") ==>
      ErrorMarker + NotHtml <= r
    ensures fetch(url).RequestFailed? ==> IsErrorText(r) && Contains(r, fetch(url).reason)
  {
    match fetch(url)
    case RequestFailed(e) =>
      var r := ErrorText(" Could not retrieve URL. Reason: ", e, "");
      assert r == ErrorMarker + " Could not retrieve URL. Reason: " + e;
      r
    case Page(ct, strings) =>
      if Contains(ct.GetOr(""), "text/html") then
        Take(PageText(strings), MaxDocumentChars)
      else
        var r := ErrorText(NotHtml + ". It is ", ShowContentType(ct), ". Cannot process.");
        PrefixOfConcat(ErrorMarker + NotHtml, ". It is ");
        assert ErrorMarker + (NotHtml + ". It is ") == ErrorMarker + NotHtml + ". It is ";
        PrefixTransitive(ErrorMarker + NotHtml, ErrorMarker + NotHtml + ". It is ", r);
        r
  }

  // ---------------------------------------------------------------------
  // SEC EDGAR by company name

  /** The reply to the company-information request: unreachable, or a
      status and a body that may fail to decode as JSON. */
  datatype JsonBody = Decoded(entityName: Option<string>) | Undecodable(reason: string)
  datatype CompanyReply = Unreachable(reason: string) | Reply(status: int, body: JsonBody)

  /** The table of `real_sec_search`, in source order. */
  const CikTable: seq<(string, string)> := [
    ("microsoft", "0000789019"),
    ("apple", "0000320193"),
    ("amazon", "0001018724"),
    ("google", "0001652044"),
    ("alphabet", "0001652044"),
    ("tesla", "0001318605"),
    ("netflix", "0001065280"),
    ("meta", "0001326801"),
    ("facebook", "0001326801")]

  const SubmissionsBase := "https://data.sec.gov/submissions/CIK"

  /** `s.zfill(n)` for a string without a sign: pad with '0' on the left. */
  function ZFill(s: string, n: nat): (r: string)
    ensures |s| >= n ==> r == s
    ensures |s| < n ==> |r| == n && r[n - |s|..] == s
    ensures |s| < n ==> forall i :: 0 <= i < n - |s| ==> r[i] == '0'
    decreases n - |s|
  {
    if |s| >= n then s else ZFill("0" + s, n)
  }

  /** The company-information URL asked for a CIK: the submissions base,
      the CIK padded to ten digits, and ".json". */
  function CompanyInfoUrl(cik: string): (r: string)
    ensures SubmissionsBase <= r
    ensures Contains(r, ZFill(cik, 10))
    ensures |r| >= 5 && r[|r| - 5..] == ".json"
  {
    var r := SubmissionsBase + ZFill(cik, 10) + ".json";
    assert r == SubmissionsBase + (ZFill(cik, 10) + ".json");
    PrefixOfConcat(SubmissionsBase, ZFill(cik, 10) + ".json");
    ContainsPart(SubmissionsBase, ZFill(cik, 10), ".json");
    r
  }

  const RealSecAttempted := "Real SEC search attempted for "
  const RealSecSucceeded := "Real SEC search successful for "
  const RealSecFailed := "Real SEC search failed: "

  function ManualRealSecMessage(companyName: string): (r: string)
    ensures RealSecAttempted + companyName <= r
    ensures Contains(r, ManualSearchUrl)
  {
    var tail := " for manual search.";
    var r := RealSecAttempted + companyName + ". Please visit " + ManualSearchUrl + tail;
    assert r == (RealSecAttempted + companyName) + (". Please visit " + ManualSearchUrl + tail);
    PrefixOfConcat(RealSecAttempted + companyName, ". Please visit " + ManualSearchUrl + tail);
    ContainsPart(RealSecAttempted + companyName + ". Please visit ", ManualSearchUrl, tail);
    r
  }

  /** The answer when the company information came back: the company's
      title, its CIK and the filings URL. */
  function RealSecSuccessMessage(title: string, cik: string, url: string): (r: string)
    ensures RealSecSucceeded + title <= r
    ensures Contains(r, cik) && Contains(r, url)
  {
    var mid := ". Company CIK: ";
    var tail := ". Filings URL: ";
    var r := RealSecSucceeded + title + mid + cik + tail + url;
    assert r == (RealSecSucceeded + title) + (mid + cik + tail + url);
    PrefixOfConcat(RealSecSucceeded + title, mid + cik + tail + url);
    ContainsPart(RealSecSucceeded + title + mid, cik, tail + url);
    assert r == RealSecSucceeded + title + mid + cik + (tail + url);
    ContainsSuffix(RealSecSucceeded + title + mid + cik + tail, url);
    r
  }

  /** The answer when the company-information request gave another status. */
  function RealSecAttemptMessage(companyName: string, url: string): (r: string)
    ensures RealSecAttempted + companyName + ". Filings URL: " <= r
    ensures Contains(r, url)
  {
    var r := RealSecAttempted + companyName + ". Filings URL: " + url;
    PrefixOfConcat(RealSecAttempted + companyName + ". Filings URL: ", url);
    ContainsSuffix(RealSecAttempted + companyName + ". Filings URL: ", url);
    r
  }

  /** The answer when the request or the decoding raised. */
  function RealSecFailureMessage(reason: string): (r: string)
    ensures RealSecFailed <= r && Contains(r, reason)
  {
    PrefixOfConcat(RealSecFailed, reason);
    ContainsSuffix(RealSecFailed, reason);
    RealSecFailed + reason
  }

  /** `real_sec_search`: a name whose lower-case form is not in the table
      gives the manual-search message; a known name asks for the company's
      information once and, unless the request or the decoding fails,
      returns a message carrying the filings URL of the mapped CIK. */
  function RealSecSearch(fetch: string -> CompanyReply, companyName: string): (r: string)
    ensures Lookup(CikTable, Lower(companyName)).None? ==> r == ManualRealSecMessage(companyName)
    ensures Lookup(CikTable, Lower(companyName)).Some? ==>
      var cik := Lookup(CikTable, Lower(companyName)).value;
      var reply := fetch(CompanyInfoUrl(cik));
      && (reply.Unreachable? ==> RealSecFailed <= r && Contains(r, reply.reason))
      && (reply.Reply? && reply.status == 200 && reply.body.Undecodable? ==>
            RealSecFailed <= r && Contains(r, reply.body.reason))
      && (reply.Reply? && reply.status == 200 && reply.body.Decoded? ==>
            RealSecSucceeded + reply.body.entityName.GetOr(Title(companyName)) <= r
            && Contains(r, cik) && Contains(r, EdgarBrowseUrl(cik)))
      && (reply.Reply? && reply.status != 200 ==>
            RealSecAttempted + companyName + ". Filings URL: " <= r && Contains(r, EdgarBrowseUrl(cik)))
  {
    var companyLower := Lower(companyName);
    match Lookup(CikTable, companyLower)
    case None => ManualRealSecMessage(companyName)
    case Some(cik) =>
      var filingsUrl := EdgarBrowseUrl(cik);
      match fetch(CompanyInfoUrl(cik))
      case Unreachable(e) => RealSecFailureMessage(e)
      case Reply(status, body) =>
        if status == 200 then
          match body
          case Undecodable(e) => RealSecFailureMessage(e)
          case Decoded(entity) => RealSecSuccessMessage(entity.GetOr(Title(companyName)), cik, filingsUrl)
        else
          RealSecAttemptMessage(companyName, filingsUrl)
  }

  /** An unknown company is answered without any request: the result does
      not depend on the HTTP client at all. */
  lemma RealSecSearchUnknownDoesNoRequest(f1: string -> CompanyReply, f2: string -> CompanyReply, companyName: string)
    requires Lookup(CikTable, Lower(companyName)).None?
    ensures RealSecSearch(f1, companyName) == RealSecSearch(f2, companyName)
  {
  }

  /** The filings URL names the CIK it was built from. */
  lemma EdgarBrowseUrlNamesCik(cik: string)
    ensures Contains(EdgarBrowseUrl(cik), "CIK=" + cik)
  {
    var pre := "https://www.sec.gov/cgi-bin/browse-edgar?action=getcompany&";
    assert EdgarBrowseBase == pre + "CIK=";
    assert EdgarBrowseUrl(cik) == EdgarBrowseBase + cik + EdgarBrowseQuery;
    assert EdgarBrowseUrl(cik) == pre + ("CIK=" + cik) + EdgarBrowseQuery;
    ContainsPart(pre, "CIK=" + cik, EdgarBrowseQuery);
  }

  /** Every CIK of the table is already ten digits long, so the
      company-information URL embeds it unchanged. */
  lemma CompanyInfoUrlEmbedsCik(i: nat)
    requires i < |CikTable|
    ensures CompanyInfoUrl(CikTable[i].1) == SubmissionsBase + CikTable[i].1 + ".json"
  {
    assert |CikTable[i].1| == 10;
    assert ZFill(CikTable[i].1, 10) == CikTable[i].1;
  }

  /** The two SEC tables agree: each URL of the local table is the browse
      URL of the CIK the name table maps the same company to. */
  lemma SecTablesAgree(i: nat)
    requires i < |SecUrls|
    ensures Lookup(CikTable, SecUrls[i].0).Some?
    ensures SecUrls[i].1 == EdgarBrowseUrl(Lookup(CikTable, SecUrls[i].0).value)
  {
    assert DistinctKeys(CikTable);
    assert CikTable[i].0 == SecUrls[i].0 && SecUrls[i].1 == EdgarBrowseUrl(CikTable[i].1);
    LookupFindsEntry(CikTable, i);
  }

  // ---------------------------------------------------------------------
  // Fallback: canned filings

  /** Where the SEC keeps filed documents. */
  const SecArchive := "https://www." + SecSite + "/Archives/edgar/data/"

  /** The canned filings of `fallback_search`, in source order. */
  const MockFilings: seq<(string, CompanyFiling)> := [
    ("microsoft", CompanyFiling(
      "Form 10-K", "Microsoft Corporation",
      "Annual report for fiscal year ending June 30, 2024. This comprehensive report includes financial statements, management discussion and analysis, risk factors, and business segment information.",
      "2024-07-25", "SEC EDGAR", "United States", "English",
      SecArchive + "789019/000095017024087843/msft-20240630.htm",
      Some("Securities Exchange Act of 1934"), Some("Item 1A. Risk Factors"))),
    ("apple", CompanyFiling(
      "Form 10-K", "Apple Inc.",
      "Annual report for fiscal year ending September 30, 2024. Contains comprehensive financial information, business operations, and risk assessment.",
      "2024-10-28", "SEC EDGAR", "United States", "English",
      SecArchive + "320193/000032019324000106/aapl-20240928.htm",
      Some("Securities Exchange Act of 1934"), Some("Item 1A. Risk Factors"))),
    ("petrobras", CompanyFiling(
      "Formul\U{E1}rio de Refer\U{EA}ncia", "Petrobras",
      "Reference form for the year 2024 containing comprehensive company information and financial data.",
      "2024-03-15", "CVM Empresas.NET", "Brazil", "Portuguese",
      "https://www.cvm.gov.br/empresas/empresas-net/empresas-net",
      Some("Lei 6.404/76"), Some("Fatores de Risco"))),
    ("amazon", CompanyFiling(
      "Form 10-K", "Amazon.com Inc.",
      "Annual report for fiscal year ending December 31, 2023. Comprehensive overview of Amazon's business operations, financial performance, and strategic initiatives.",
      "2024-02-01", "SEC EDGAR", "United States", "English",
      SecArchive + "1018724/000101872424000004/amzn-20231231.htm",
      Some("Securities Exchange Act of 1934"), Some("Item 1A. Risk Factors"))),
    ("google", CompanyFiling(
      "Form 10-K", "Alphabet Inc.",
      "Annual report for fiscal year ending December 31, 2023. Detailed analysis of Google's parent company operations, financial results, and future outlook.",
      "2024-02-02", "SEC EDGAR", "United States", "English",
      SecArchive + "1652044/000165204424000004/googl-20231231.htm",
      Some("Securities Exchange Act of 1934"), Some("Item 1A. Risk Factors")))]

  const FoundFilingPrefix := "Found filing for "

  /** A canned hit: the company's name, then its form, date and URL. */
  function FoundFilingMessage(f: CompanyFiling): (r: string)
    ensures FoundFilingPrefix + f.companyName <= r
    ensures Contains(r, f.contractName) && Contains(r, f.filingDate) && Contains(r, f.documentUrl)
  {
    var a := FoundFilingPrefix + f.companyName;
    var b := ": " + f.contractName + " filed on ";
    var c := ". Document URL: ";
    var r := a + b + f.filingDate + c + f.documentUrl;
    assert r == a + (b + f.filingDate + c + f.documentUrl);
    PrefixOfConcat(a, b + f.filingDate + c + f.documentUrl);
    assert b == ": " + f.contractName + " filed on ";
    assert r == a + ": " + f.contractName + (" filed on " + f.filingDate + c + f.documentUrl);
    ContainsPart(a + ": ", f.contractName, " filed on " + f.filingDate + c + f.documentUrl);
    assert r == a + b + f.filingDate + (c + f.documentUrl);
    ContainsPart(a + b, f.filingDate, c + f.documentUrl);
    ContainsSuffix(a + b + f.filingDate + c, f.documentUrl);
    r
  }

  const NoMockPrefix := "Mock search completed for: "
  const NoMockTail := ". No specific filing found in mock database."

  /** The canned search's miss: the prefix, the query as given, and the
      "no specific filing" sentence. */
  function NoMockMessage(query: string): (r: string)
    ensures NoMockPrefix + query <= r
    ensures |r| >= |NoMockTail| && r[|r| - |NoMockTail|..] == NoMockTail
  {
    PrefixOfConcat(NoMockPrefix + query, NoMockTail);
    NoMockPrefix + query + NoMockTail
  }

  /** `fallback_search`: the canned filing of the first table entry, in
      table order, whose key occurs in the lower-cased query; otherwise the
      "no specific filing" text. No backend and no HTTP client is involved. */
  function FallbackSearch(query: string): (r: string)
    ensures FoundFilingPrefix <= r <==>
      exists j :: 0 <= j < |MockFilings| && Contains(Lower(query), MockFilings[j].0)
  {
    var lowered := Lower(query);
    match FirstWhere(MockFilings, key => Contains(lowered, key))
    case Some(i) =>
      var m := FoundFilingMessage(MockFilings[i].1);
      assert m == FoundFilingPrefix + (m[|FoundFilingPrefix|..]);
      m
    case None =>
      var m := NoMockMessage(query);
      assert m[0] == 'M';
      m
  }

  /** First match wins: the entry chosen is the earliest in table order
      whose key occurs in the lower-cased query, whatever the order of the
      names in the query. */
  lemma FallbackFirstMatchWins(query: string, i: nat)
    requires i < |MockFilings|
    requires Contains(Lower(query), MockFilings[i].0)
    requires forall j :: 0 <= j < i ==> !Contains(Lower(query), MockFilings[j].0)
    ensures FallbackSearch(query) == FoundFilingMessage(MockFilings[i].1)
  {
    var lowered := Lower(query);
    var found := FirstWhere(MockFilings, key => Contains(lowered, key));
    assert found.Some?;
    assert found.value == i;
  }

  /** A query naming no company of the table gets the "no match" text. */
  lemma FallbackNoMatch(query: string)
    requires forall j :: 0 <= j < |MockFilings| ==> !Contains(Lower(query), MockFilings[j].0)
    ensures FallbackSearch(query) == NoMockMessage(query)
  {
    var lowered := Lower(query);
    assert FirstWhere(MockFilings, key => Contains(lowered, key)).None?;
  }

  /** Any query mentioning Microsoft, in any letter case, gets the
      Microsoft filing, which is an SEC EDGAR filing hosted on sec.gov. */
  lemma FallbackMicrosoft(query: string)
    requires Contains(Lower(query), "microsoft")
    ensures FallbackSearch(query) == FoundFilingMessage(MockFilings[0].1)
    ensures MockFilings[0].1.companyName == "Microsoft Corporation"
    ensures MockFilings[0].1.sourceOfInformation == "SEC EDGAR"
    ensures Contains(MockFilings[0].1.documentUrl, SecSite)
  {
    assert MockFilings[0].0 == "microsoft";
    FallbackFirstMatchWins(query, 0);
    MicrosoftFilingOnSec();
  }

  /** The canned Microsoft filing is Microsoft Corporation's, from SEC
      EDGAR, and its URL is on sec.gov. */
  lemma MicrosoftFilingOnSec()
    ensures MockFilings[0].1.companyName == "Microsoft Corporation"
    ensures MockFilings[0].1.sourceOfInformation == "SEC EDGAR"
    ensures Contains(MockFilings[0].1.documentUrl, SecSite)
  {
    var rest := "/Archives/edgar/data/" + "789019/000095017024087843/msft-20240630.htm";
    assert MockFilings[0].1.documentUrl == "https://www." + SecSite + rest;
    ContainsPart("https://www.", SecSite, rest);
  }
}
