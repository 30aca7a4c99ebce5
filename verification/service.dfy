/** The search endpoint (main.py, `search_filing`): run the agent on the
    query, then turn the model's last turn into a response envelope. The
    output parser first tries the reply strictly; failing that, the reply is
    read as plain JSON and its fields are reconciled onto the filing record;
    failing that too, the envelope reports the failure with the raw reply.
    Only a failure outside these two parse stages becomes a 500 error.
 */
module Service {

  import opened Base
  import opened Strings
  import opened Models
  import opened Agent

  /** The two JSON readers, both outside the model: the output parser's
      (which also finds JSON inside surrounding text) and `json.loads`.
      Each gives the decoded value or the text of its error. */
  datatype Parsers = Parsers(
    extractJson: string -> Result<Json, string>,
    loadJson: string -> Result<Json, string>)

  /** The strict stage: the parser's JSON must be an object of the filing
      shape. */
  function StrictParse(p: Parsers, content: string): (r: Result<CompanyFiling, string>)
    ensures r.Success? <==>
      && p.extractJson(content).Success?
      && p.extractJson(content).value.JObject?
      && IsFilingShape(p.extractJson(content).value.fields)
    ensures r.Success? ==> r == ValidateFiling(p.extractJson(content).value.fields)
  {
    var j :- p.extractJson(content);
    if j.JObject? then ValidateFiling(j.fields) else Failure("Input should be a valid dictionary")
  }

  /** A reply whose JSON is exactly a record's field dump parses strictly
      to that record. */
  lemma StrictParseOfDump(p: Parsers, content: string, f: CompanyFiling)
    requires p.extractJson(content) == Success(JObject(ToFields(f)))
    ensures StrictParse(p, content) == Success(f)
  {
    ValidateDumpRoundTrip(f);
  }

  const UnknownValue := "Unknown"
  const NoDescription := "No description available"
  const SecSourceName := "SEC EDGAR"
  const SecCountry := "United States"
  const ReconciledLanguage := "English"
  const ReconciledLaw := "Securities Exchange Act of 1934"

  /** `o.get(key, default)` */
  function Get(o: Fields, key: string, default: Json): Json {
    if key in o then o[key] else default
  }

  /** `key` is absent or holds a string. */
  predicate StringOrAbsent(o: Fields, key: string) {
    key !in o || o[key].JString?
  }

  /** Every value the reconciliation reads is a string: the first present
      of "filing_type"/"contract_name", of "summary"/"description", and
      "company_name", "filing_date" and "document_url" when present. */
  predicate Reconcilable(o: Fields) {
    && (if "filing_type" in o then o["filing_type"].JString? else StringOrAbsent(o, "contract_name"))
    && (if "summary" in o then o["summary"].JString? else StringOrAbsent(o, "description"))
    && StringOrAbsent(o, "company_name")
    && StringOrAbsent(o, "filing_date")
    && StringOrAbsent(o, "document_url")
  }

  /** The field map the reconciliation builds from the decoded reply. */
  function ReconciledFields(o: Fields): (r: Fields)
    ensures forall k :: k in RequiredFields ==> k in r
    ensures "applicable_law" in r && "relevant_clause" in r
    ensures "filing_type" in o ==> r["contract_name"] == o["filing_type"]
    ensures "filing_type" !in o && "contract_name" in o ==> r["contract_name"] == o["contract_name"]
    ensures "summary" in o ==> r["description"] == o["summary"]
    ensures "summary" !in o && "description" in o ==> r["description"] == o["description"]
    ensures "company_name" in o ==> r["company_name"] == o["company_name"]
    ensures "filing_date" in o ==> r["filing_date"] == o["filing_date"]
    ensures "document_url" in o ==> r["document_url"] == o["document_url"]
    ensures r["source_of_information"] == JString(SecSourceName) <==>
      r["document_url"].JString? && Contains(r["document_url"].str, Tools.SecSite)
    ensures r["language"] == JString(ReconciledLanguage)
    ensures r["applicable_law"] == JString(ReconciledLaw)
    ensures r["relevant_clause"] == JString(NotApplicable)
  {
    var url := Get(o, "document_url", JString(""));
    var onSec := url.JString? && Contains(url.str, Tools.SecSite);
    map[
      "contract_name" := Get(o, "filing_type", Get(o, "contract_name", JString(UnknownValue))),
      "company_name" := Get(o, "company_name", JString(UnknownValue)),
      "description" := Get(o, "summary", Get(o, "description", JString(NoDescription))),
      "filing_date" := Get(o, "filing_date", JString(UnknownValue)),
      "source_of_information" := JString(if onSec then SecSourceName else UnknownValue),
      "country" := JString(if onSec then SecCountry else UnknownValue),
      "language" := JString(ReconciledLanguage),
      "applicable_law" := JString(ReconciledLaw),
      "relevant_clause" := JString(NotApplicable),
      "document_url" := url]
  }

  /** The lenient stage. It succeeds exactly on an object whose consulted
      values are strings. "filing_type" beats "contract_name" and "summary"
      beats "description" whenever present; missing names and dates become
      "Unknown" and a missing URL the empty string. The source and country
      say SEC EDGAR / United States exactly when the URL mentions sec.gov,
      and language, law and clause are fixed. */
  function Reconcile(raw: Json): (r: Result<CompanyFiling, string>)
    ensures r.Success? <==> raw.JObject? && Reconcilable(raw.fields)
    ensures r.Success? ==>
      var o, f := raw.fields, r.value;
      && ("filing_type" in o ==> JString(f.contractName) == o["filing_type"])
      && ("filing_type" !in o && "contract_name" in o ==> JString(f.contractName) == o["contract_name"])
      && ("filing_type" !in o && "contract_name" !in o ==> f.contractName == UnknownValue)
      && ("summary" in o ==> JString(f.description) == o["summary"])
      && ("summary" !in o && "description" in o ==> JString(f.description) == o["description"])
      && ("summary" !in o && "description" !in o ==> f.description == NoDescription)
      && ("company_name" in o ==> JString(f.companyName) == o["company_name"])
      && ("company_name" !in o ==> f.companyName == UnknownValue)
      && ("filing_date" in o ==> JString(f.filingDate) == o["filing_date"])
      && ("filing_date" !in o ==> f.filingDate == UnknownValue)
      && ("document_url" in o ==> JString(f.documentUrl) == o["document_url"])
      && ("document_url" !in o ==> f.documentUrl == "")
    ensures r.Success? ==>
      var f := r.value;
      && (f.sourceOfInformation == SecSourceName <==> Contains(f.documentUrl, Tools.SecSite))
      && (f.country == SecCountry <==> Contains(f.documentUrl, Tools.SecSite))
      && (!Contains(f.documentUrl, Tools.SecSite) ==> f.sourceOfInformation == UnknownValue && f.country == UnknownValue)
      && f.language == ReconciledLanguage
      && f.applicableLaw == Some(ReconciledLaw)
      && f.relevantClause == Some(NotApplicable)
  {
    if !raw.JObject? then
      Failure("object has no attribute 'get'")
    else
      var o := raw.fields;
      var url := Get(o, "document_url", JString(""));
      if !url.JString? then
        Failure("argument of type is not iterable")
      else
        var fields := ReconciledFields(o);
        ReconciledFieldsShape(o);
        ReconciledConsulted(o);
        ReconciledConstants(o);
        ValidateFiling(fields)
  }

  /** The consulted values of a reconciled record, with their precedence. */
  lemma ReconciledConsulted(o: Fields)
    requires Get(o, "document_url", JString("")).JString?
    ensures ValidateFiling(ReconciledFields(o)).Success? ==>
      var f := ValidateFiling(ReconciledFields(o)).value;
      && ("filing_type" in o ==> JString(f.contractName) == o["filing_type"])
      && ("filing_type" !in o && "contract_name" in o ==> JString(f.contractName) == o["contract_name"])
      && ("filing_type" !in o && "contract_name" !in o ==> f.contractName == UnknownValue)
      && ("summary" in o ==> JString(f.description) == o["summary"])
      && ("summary" !in o && "description" in o ==> JString(f.description) == o["description"])
      && ("summary" !in o && "description" !in o ==> f.description == NoDescription)
      && ("company_name" in o ==> JString(f.companyName) == o["company_name"])
      && ("company_name" !in o ==> f.companyName == UnknownValue)
      && ("filing_date" in o ==> JString(f.filingDate) == o["filing_date"])
      && ("filing_date" !in o ==> f.filingDate == UnknownValue)
      && ("document_url" in o ==> JString(f.documentUrl) == o["document_url"])
      && ("document_url" !in o ==> f.documentUrl == "")
  {
    ReconciledFieldsShape(o);
  }

  /** The fixed and URL-derived values of a reconciled record. */
  lemma ReconciledConstants(o: Fields)
    requires Get(o, "document_url", JString("")).JString?
    ensures ValidateFiling(ReconciledFields(o)).Success? ==>
      var f := ValidateFiling(ReconciledFields(o)).value;
      && (f.sourceOfInformation == SecSourceName <==> Contains(f.documentUrl, Tools.SecSite))
      && (f.country == SecCountry <==> Contains(f.documentUrl, Tools.SecSite))
      && (!Contains(f.documentUrl, Tools.SecSite) ==> f.sourceOfInformation == UnknownValue && f.country == UnknownValue)
      && f.language == ReconciledLanguage
      && f.applicableLaw == Some(ReconciledLaw)
      && f.relevantClause == Some(NotApplicable)
  {
    ReconciledFieldsShape(o);
  }

  /** What validation sees of the reconciled map: the consulted values in
      place, the constants, and string values exactly when reconcilable. */
  lemma ReconciledFieldsShape(o: Fields)
    requires Get(o, "document_url", JString("")).JString?
    ensures var fields := ReconciledFields(o);
      && fields["contract_name"] == Get(o, "filing_type", Get(o, "contract_name", JString(UnknownValue)))
      && fields["company_name"] == Get(o, "company_name", JString(UnknownValue))
      && fields["description"] == Get(o, "summary", Get(o, "description", JString(NoDescription)))
      && fields["filing_date"] == Get(o, "filing_date", JString(UnknownValue))
      && fields["document_url"] == Get(o, "document_url", JString(""))
      && fields["language"] == JString(ReconciledLanguage)
      && fields["applicable_law"] == JString(ReconciledLaw)
      && fields["relevant_clause"] == JString(NotApplicable)
      && (IsFilingShape(fields) <==> Reconcilable(o))
  {
    var fields := ReconciledFields(o);
    assert HasString(fields, "source_of_information");
    assert HasString(fields, "country");
    assert HasString(fields, "language");
    assert HasString(fields, "document_url");
    assert fields["applicable_law"].JString? && fields["relevant_clause"].JString?;
    assert HasString(fields, "contract_name") <==>
      (if "filing_type" in o then o["filing_type"].JString? else StringOrAbsent(o, "contract_name"));
    assert HasString(fields, "description") <==>
      (if "summary" in o then o["summary"].JString? else StringOrAbsent(o, "description"));
    assert HasString(fields, "company_name") <==> StringOrAbsent(o, "company_name");
    assert HasString(fields, "filing_date") <==> StringOrAbsent(o, "filing_date");
    assert RequiredFields[0] == "contract_name" && RequiredFields[1] == "company_name";
    assert RequiredFields[2] == "description" && RequiredFields[3] == "filing_date";
  }

  /** A reply carrying only a filing type still yields a record: every
      other field is filled with its placeholder, and the URL is empty. */
  lemma ReconcileFillsPlaceholders(filingType: string)
    ensures Reconcile(JObject(map["filing_type" := JString(filingType)])) == Success(CompanyFiling(
      filingType, UnknownValue, NoDescription, UnknownValue, UnknownValue, UnknownValue,
      ReconciledLanguage, "", Some(ReconciledLaw), Some(NotApplicable)))
  {
    var o := map["filing_type" := JString(filingType)];
    var r := Reconcile(JObject(o));
    assert Reconcilable(o);
    assert !Contains("", Tools.SecSite);
  }

  const ParseFailurePrefix := "Failed to parse structured output: "

  /** Lines 79-131 of the endpoint: strict parse, else reconciliation, else
      a failure envelope quoting the strict stage's error and the raw reply. */
  function ShapeResponse(p: Parsers, content: string): (r: FilingResponse)
    ensures r.success <==>
      || StrictParse(p, content).Success?
      || (p.loadJson(content).Success? && Reconcile(p.loadJson(content).value).Success?)
    ensures r.success <==> r.data.Some?
    ensures r.success <==> r.error.None?
    ensures StrictParse(p, content).Success? ==> r.data == Some(StrictParse(p, content).value)
    ensures StrictParse(p, content).Failure? && p.loadJson(content).Success?
            && Reconcile(p.loadJson(content).value).Success? ==>
      r.data == Some(Reconcile(p.loadJson(content).value).value)
    ensures !r.success ==>
      && ParseFailurePrefix <= r.error.value
      && Contains(r.error.value, StrictParse(p, content).error)
      && Contains(r.error.value, content)
  {
    match StrictParse(p, content)
    case Success(f) =>
      FilingResponse(true, data := Some(f))
    case Failure(parseError) =>
      var manual := match p.loadJson(content)
        case Success(j) => Reconcile(j)
        case Failure(e) => Failure(e);
      match manual
      case Success(f) =>
        FilingResponse(true, data := Some(f))
      case Failure(_) =>
        var message := ParseFailurePrefix + parseError + ". Raw response: " + content;
        PrefixOfConcat(ParseFailurePrefix, parseError + ". Raw response: " + content);
        assert message == ParseFailurePrefix + (parseError + ". Raw response: " + content);
        ContainsPart(ParseFailurePrefix, parseError, ". Raw response: " + content);
        assert message == ParseFailurePrefix + parseError + (". Raw response: " + content);
        ContainsSuffix(ParseFailurePrefix + parseError + ". Raw response: ", content);
        FilingResponse(false, error := Some(message))
  }

  /** What the endpoint answers: a response envelope, or a 500 error. */
  datatype HttpReply = Ok(response: FilingResponse) | HttpError(status: int, detail: string)

  const InternalErrorPrefix := "Internal server error: "

  /** `search_filing` with at most `fuel` agent steps; `None` when the fuel
      runs out first. In this model a failing model call is the only way to
      a 500 error: a run that finishes always answers with an envelope built
      from the model's final answer. */
  function SearchFiling(decide: seq<Message> -> Decision, env: Env, p: Parsers,
                        request: FilingRequest, fuel: nat): (r: Option<HttpReply>)
    ensures var run := RunGraph(decide, env, InitialConversation(request.query), fuel);
      && (r.None? <==> run.status.OutOfFuel?)
      && (r.Some? && r.value.HttpError? <==> run.status.Crashed?)
      && (run.status.Crashed? ==>
            r.value.status == 500 && InternalErrorPrefix <= r.value.detail
            && Contains(r.value.detail, run.status.reason))
      && (run.status.Finished? ==>
            EndsWithAnswer(run.messages)
            && decide(run.messages[..|run.messages| - 1]) == Respond(run.messages[|run.messages| - 1].content, [])
            && r == Some(Ok(ShapeResponse(p, run.messages[|run.messages| - 1].content))))
  {
    var run := RunGraph(decide, env, InitialConversation(request.query), fuel);
    match run.status
    case OutOfFuel => None
    case Crashed(e) =>
      PrefixOfConcat(InternalErrorPrefix, e);
      ContainsSuffix(InternalErrorPrefix, e);
      Some(HttpError(500, InternalErrorPrefix + e))
    case Finished =>
      Some(Ok(ShapeResponse(p, run.messages[|run.messages| - 1].content)))
  }

  /** When the model answers the query at once, without tools, the
      endpoint shapes exactly that answer. */
  lemma SearchFilingDirectAnswer(decide: seq<Message> -> Decision, env: Env, p: Parsers,
                                 query: string, content: string, fuel: nat)
    requires fuel > 0
    requires decide([Human(query)]) == Respond(content, [])
    ensures SearchFiling(decide, env, p, FilingRequest(query), fuel) == Some(Ok(ShapeResponse(p, content)))
  {
    var run := RunGraph(decide, env, InitialConversation(FilingRequest(query).query), fuel);
    assert InitialConversation(query) == [Human(query)];
    assert run.messages == [Human(query), Ai(content, [])];
  }

  /** When the model call fails on the query, the endpoint answers 500 with
      the failure's text. */
  lemma SearchFilingModelDown(decide: seq<Message> -> Decision, env: Env, p: Parsers,
                              query: string, reason: string, fuel: nat)
    requires fuel > 0
    requires decide([Human(query)]) == ModelFailed(reason)
    ensures SearchFiling(decide, env, p, FilingRequest(query), fuel)
         == Some(HttpError(500, InternalErrorPrefix + reason))
  {
    assert InitialConversation(query) == [Human(query)];
  }

  /** One round of tools, then an answer: the endpoint shapes the answer
      the model gave to the conversation including the tools' results. */
  lemma SearchFilingAfterOneRound(decide: seq<Message> -> Decision, env: Env, p: Parsers,
                                  query: string, first: string, calls: seq<ToolCall>,
                                  content: string, fuel: nat)
    requires fuel > 1
    requires decide([Human(query)]) == Respond(first, calls) && calls != []
    requires decide(AfterRound(env, [Human(query)], first, calls)) == Respond(content, [])
    ensures SearchFiling(decide, env, p, FilingRequest(query), fuel) == Some(Ok(ShapeResponse(p, content)))
  {
    assert InitialConversation(query) == [Human(query)];
    var next := AfterRound(env, [Human(query)], first, calls);
    var rest := RunGraph(decide, env, next, fuel - 1);
    assert rest.messages == next + [Ai(content, [])];
  }
}
