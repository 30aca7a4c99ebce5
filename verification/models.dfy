/** The record and envelope shapes of the service (models.py): the filing
    record, the request and the response, and what building a filing record
    from a field map accepts (Pydantic's `CompanyFiling(**fields)`).
 */
module Models {

  import opened Base

  /** A JSON value, told apart only as far as validation needs: numbers,
      booleans and arrays are all `JOther`, and a `str` field rejects each
      of them. */
  datatype Json = JString(str: string) | JNull | JObject(fields: map<string, Json>) | JOther

  type Fields = map<string, Json>

  /** Default of the optional `relevant_clause` field. */
  const NotApplicable := "N/A"

  /** A company's securities filing: eight required strings and two
      optional ones. `applicableLaw` defaults to absent and
      `relevantClause` to "N/A". */
  datatype CompanyFiling = CompanyFiling(
    contractName: string,
    companyName: string,
    description: string,
    filingDate: string,
    sourceOfInformation: string,
    country: string,
    language: string,
    documentUrl: string,
    applicableLaw: Option<string> := None,
    relevantClause: Option<string> := Some(NotApplicable))

  /** The request body of a search: one required query string. */
  datatype FilingRequest = FilingRequest(query: string)

  /** The response envelope: `success` is required, `data` and `error`
      default to absent. */
  datatype FilingResponse = FilingResponse(
    success: bool,
    data: Option<CompanyFiling> := None,
    error: Option<string> := None)

  /** The wire names of the eight required fields of a filing record. */
  const RequiredFields: seq<string> := [
    "contract_name", "company_name", "description", "filing_date",
    "source_of_information", "country", "language", "document_url"]

  /** `k` is present and holds a string. */
  predicate HasString(o: Fields, k: string) {
    k in o && o[k].JString?
  }

  /** An optional string field is absent, null or a string. */
  predicate OptionalStringOk(o: Fields, k: string) {
    k !in o || o[k].JString? || o[k].JNull?
  }

  /** What validation accepts: every required field a string, every
      optional one absent, null or a string. Other keys are ignored. */
  predicate IsFilingShape(o: Fields) {
    && (forall k :: k in RequiredFields ==> HasString(o, k))
    && OptionalStringOk(o, "applicable_law")
    && OptionalStringOk(o, "relevant_clause")
  }

  /** The required names, one by one. */
  lemma RequiredFieldNames()
    ensures forall k :: k in RequiredFields <==>
      || k == "contract_name" || k == "company_name" || k == "description" || k == "filing_date"
      || k == "source_of_information" || k == "country" || k == "language" || k == "document_url"
  {
  }

  /** A required `str` field: present and a string, and then that string. */
  function RequiredString(o: Fields, k: string): (r: Result<string, string>)
    ensures r.Success? <==> HasString(o, k)
    ensures r.Success? ==> JString(r.value) == o[k]
  {
    if k !in o then Failure(k + ": Field required")
    else if o[k].JString? then Success(o[k].str)
    else Failure(k + ": Input should be a valid string")
  }

  /** An `Optional[str]` field: the default when absent, the string when
      a string, absent when null, and a failure otherwise. */
  function OptionalString(o: Fields, k: string, default: Option<string>): (r: Result<Option<string>, string>)
    ensures r.Success? <==> OptionalStringOk(o, k)
    ensures k !in o ==> r == Success(default)
    ensures k in o && o[k].JString? ==> r == Success(Some(o[k].str))
    ensures k in o && o[k].JNull? ==> r == Success(None)
  {
    if k !in o then Success(default)
    else match o[k]
      case JString(s) => Success(Some(s))
      case JNull => Success(None)
      case _ => Failure(k + ": Input should be a valid string")
  }

  /** A filing record as a field map (Pydantic's `model_dump`): every
      field present, an absent optional field as null. */
  function ToFields(f: CompanyFiling): Fields {
    map[
      "contract_name" := JString(f.contractName),
      "company_name" := JString(f.companyName),
      "description" := JString(f.description),
      "filing_date" := JString(f.filingDate),
      "source_of_information" := JString(f.sourceOfInformation),
      "country" := JString(f.country),
      "language" := JString(f.language),
      "document_url" := JString(f.documentUrl),
      "applicable_law" := OptionToJson(f.applicableLaw),
      "relevant_clause" := OptionToJson(f.relevantClause)]
  }

  function OptionToJson(o: Option<string>): Json {
    match o
    case Some(s) => JString(s)
    case None => JNull
  }

  /** `CompanyFiling(**o)`: succeeds exactly on the filing shape; the
      required fields of the record are the strings of the map, and an
      absent optional field takes its default. Empty strings are accepted. */
  function ValidateFiling(o: Fields): (r: Result<CompanyFiling, string>)
    ensures r.Success? <==> IsFilingShape(o)
    ensures r.Success? ==> forall k :: k in RequiredFields ==> ToFields(r.value)[k] == o[k]
    ensures r.Success? && "applicable_law" !in o ==> r.value.applicableLaw == None
    ensures r.Success? && "relevant_clause" !in o ==> r.value.relevantClause == Some(NotApplicable)
    ensures r.Success? && "applicable_law" in o ==> OptionToJson(r.value.applicableLaw) == o["applicable_law"]
    ensures r.Success? && "relevant_clause" in o ==> OptionToJson(r.value.relevantClause) == o["relevant_clause"]
  {
    if IsFilingShape(o) then
      ShapedFilingFields(o);
      Success(ShapedFiling(o))
    else
      Failure(ShapeError(o))
  }

  /** The record of a map of the filing shape, field by field. */
  function ShapedFiling(o: Fields): (f: CompanyFiling)
    requires IsFilingShape(o)
  {
    RequiredFieldNames();
    CompanyFiling(
      RequiredString(o, "contract_name").value,
      RequiredString(o, "company_name").value,
      RequiredString(o, "description").value,
      RequiredString(o, "filing_date").value,
      RequiredString(o, "source_of_information").value,
      RequiredString(o, "country").value,
      RequiredString(o, "language").value,
      RequiredString(o, "document_url").value,
      OptionalString(o, "applicable_law", None).value,
      OptionalString(o, "relevant_clause", Some(NotApplicable)).value)
  }

  /** The record of a well-shaped map dumps back to the map's required
      values and its present optional values. */
  lemma ShapedFilingFields(o: Fields)
    requires IsFilingShape(o)
    ensures forall k :: k in RequiredFields ==> ToFields(ShapedFiling(o))[k] == o[k]
    ensures "applicable_law" !in o ==> ShapedFiling(o).applicableLaw == None
    ensures "relevant_clause" !in o ==> ShapedFiling(o).relevantClause == Some(NotApplicable)
    ensures "applicable_law" in o ==> OptionToJson(ShapedFiling(o).applicableLaw) == o["applicable_law"]
    ensures "relevant_clause" in o ==> OptionToJson(ShapedFiling(o).relevantClause) == o["relevant_clause"]
  {
    var d := ToFields(ShapedFiling(o));
    RequiredFieldNames();
    assert d["contract_name"] == o["contract_name"];
    assert d["company_name"] == o["company_name"];
    assert d["description"] == o["description"];
    assert d["filing_date"] == o["filing_date"];
    assert d["source_of_information"] == o["source_of_information"];
    assert d["country"] == o["country"];
    assert d["language"] == o["language"];
    assert d["document_url"] == o["document_url"];
  }

  /** The error of the first field, in declaration order, that fails. */
  function ShapeError(o: Fields): string
    requires !IsFilingShape(o)
  {
    RequiredFieldNames();
    if !HasString(o, "contract_name") then RequiredString(o, "contract_name").error
    else if !HasString(o, "company_name") then RequiredString(o, "company_name").error
    else if !HasString(o, "description") then RequiredString(o, "description").error
    else if !HasString(o, "filing_date") then RequiredString(o, "filing_date").error
    else if !HasString(o, "source_of_information") then RequiredString(o, "source_of_information").error
    else if !HasString(o, "country") then RequiredString(o, "country").error
    else if !HasString(o, "language") then RequiredString(o, "language").error
    else if !OptionalStringOk(o, "applicable_law") then OptionalString(o, "applicable_law", None).error
    else if !OptionalStringOk(o, "relevant_clause") then OptionalString(o, "relevant_clause", Some(NotApplicable)).error
    else RequiredString(o, "document_url").error
  }

  /** Dumping a record and validating the dump gives the record back. */
  lemma ValidateDumpRoundTrip(f: CompanyFiling)
    ensures ValidateFiling(ToFields(f)) == Success(f)
  {
    var o := ToFields(f);
    assert o["contract_name"] == JString(f.contractName);
    assert o["company_name"] == JString(f.companyName);
    assert o["description"] == JString(f.description);
    assert o["filing_date"] == JString(f.filingDate);
    assert o["source_of_information"] == JString(f.sourceOfInformation);
    assert o["country"] == JString(f.country);
    assert o["language"] == JString(f.language);
    assert o["document_url"] == JString(f.documentUrl);
    assert o["applicable_law"] == OptionToJson(f.applicableLaw);
    assert o["relevant_clause"] == OptionToJson(f.relevantClause);
  }

  /** `FilingRequest(**o)`: the query must be present and a string. */
  function ValidateRequest(o: Fields): (r: Result<FilingRequest, string>)
    ensures r.Success? <==> HasString(o, "query")
    ensures r.Success? ==> JString(r.value.query) == o["query"]
  {
    var q :- RequiredString(o, "query");
    Success(FilingRequest(q))
  }
}
