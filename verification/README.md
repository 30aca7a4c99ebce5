# AI legal assistant — a Dafny model of its tools, agent loop and response shaping

The service answers a natural-language request for a company's securities
filing, such as "Microsoft's latest 10-K". A language-model agent works on the
request and calls search and fetch tools until it gives a final answer. The
endpoint then parses that answer into a `CompanyFiling` record. This project
models four parts of the service:

- **Tools** (`tools.py`). These are:
  - the general web search and the site-restricted searches: SEC EDGAR,
    SEDAR+ and CVM Empresas.NET;
  - the SEC EDGAR search's fallback to a local table;
  - the document reader, which returns HTML pages truncated to 8000
    characters;
  - the "real" SEC search, which uses the CIK table and one HTTP request;
  - the canned fallback search.

  The search backend and the HTTP client are parameters of the model.
  `Tools.SearchBackend` is either absent or a function from query to reply.
  The page fetcher and the company-information fetcher are functions too. The
  tools' results, the error texts by their fixed prefixes and what they quote,
  are stated in terms of these parameters.
- **Agent loop** (`agent_workflow.py`). This covers:
  - the registry of seven tools, in source order;
  - the `should_continue` routing;
  - `call_tools` dispatch, which looks up each call's tool by name, keeps the
    calls' order and drops calls to unknown tools;
  - the two-node graph (agent → tools → agent). It is modelled as a run
    bounded by fuel, with the language model as an arbitrary function from
    the conversation to its next turn.
- **Models** (`models.py`): the filing record, the request and the response
  envelope, and record validation under Pydantic v2's lax mode. A string field
  rejects any non-string value, optional fields take their defaults, and empty
  strings are accepted.
- **Endpoint** (`main.py`, `search_filing`). The last message of the run goes
  through the strict output parser. If that fails, it is read with
  `json.loads` and reconciled: synonyms are mapped and fixed values filled
  in. If that also fails, the response is a failure envelope quoting the
  parser's error and the raw reply. A crash of the agent run becomes a
  500 error.

Four behaviours of the code are easy to miss; the model follows the code:

- `call_tools` answers no message to a call whose tool name is unknown. It
  does not produce an "unknown tool" result. See `Agent.DispatchAnswersCalls`.
- Reconciliation can produce a record with an empty `document_url`, and a
  record in which every other required field is a placeholder. See
  `Service.ReconcileFillsPlaceholders`.
- The local SEC EDGAR lookup takes the first word of the query as the company
  name. So when the tool is called with the application's example query
  unchanged, which starts with "Find", the lookup misses the table. See
  `Tools.SecDirectLookupMissesFindQuery`.
- The routing's "back to the agent" branch cannot happen inside the graph,
  because routing is only consulted after an agent turn. See
  `Agent.AgentTurnNeverRoutesToAgent`.

The modules follow the program's layout:

| file | module | contents |
|---|---|---|
| `base.dfy` | `Base` | `Option` and `Result` |
| `strings.dfy` | `Strings` | substring search, ASCII case mapping, `\w+`, strip, join and truncation |
| `tables.dfy` | `Tables` | first-match lookup in insertion-ordered tables (Python dicts and the tool list) |
| `models.dfy` | `Models` | records and their validation |
| `tools.dfy` | `Tools` | the seven tool functions |
| `agent.dfy` | `Agent` | conversation, registry, dispatch, routing and the graph |
| `service.dfy` | `Service` | strict parse, reconciliation, envelope and HTTP outcome |

## Model

| member | source | states |
|---|---|---|
| Strings.Contains | src/ai_legal_assistant/tools.py:43 | Python's substring `in`: true exactly when the needle occurs at some position of the haystack |
| Strings.Lower | src/ai_legal_assistant/tools.py:229 | `lower()` keeps the length and lowers each character independently; the result has no upper-case letter |
| Strings.LowerIdempotent | src/ai_legal_assistant/tools.py:54 | lowering an already lowered name changes nothing |
| Strings.FirstWordSpan | src/ai_legal_assistant/tools.py:52 | `re.search(r'(\w+)')`: none exactly when there is no word character; otherwise the leftmost maximal run of word characters |
| Strings.FirstWordOfLeadingWord | src/ai_legal_assistant/tools.py:52-54 | a query that starts with a word followed by a non-word character yields exactly that word |
| Strings.Strip | src/ai_legal_assistant/tools.py:97 | `strip()` removes exactly the leading and trailing whitespace (space, tab, line feed, carriage return, vertical tab, form feed and 0x1C-0x1F): the result is `s[a..b]` with only whitespace before `a` and after `b`, and begins and ends with a non-space |
| Strings.StripFixesStripped | src/ai_legal_assistant/tools.py:97 | stripping an already stripped string returns it unchanged |
| Strings.Join | src/ai_legal_assistant/tools.py:97 | `' '.join(parts)`: empty for no parts, the one part for a single part, and otherwise begins with the first part and contains every part |
| Strings.JoinSnoc | src/ai_legal_assistant/tools.py:97 | joining one more part appends the separator and that part to the join of the others |
| Strings.Title | src/ai_legal_assistant/tools.py:65 | `title()` keeps the length and each character's letter case-insensitively; a letter is upper-case exactly when it starts the string or follows a non-letter, and non-letters are unchanged |
| Strings.TitleIdempotent | src/ai_legal_assistant/tools.py:65 | title-casing twice is title-casing once |
| Strings.Take | src/ai_legal_assistant/tools.py:98 | `text[:n]` is a prefix of at most n characters, and the whole text when it is shorter |
| Tables.FirstWhere | src/ai_legal_assistant/agent_workflow.py:120 | `next(t for t in tools if …)`: none exactly when no key matches; otherwise the earliest matching index |
| Tables.Lookup | src/ai_legal_assistant/tools.py:64-65 | dict lookup: none exactly when the key is absent; otherwise the value of an entry with that key |
| Tables.LookupFindsEntry | src/ai_legal_assistant/tools.py:129-130 | with distinct keys, looking up an entry's key finds that entry's value |
| Models.RequiredString | src/ai_legal_assistant/models.py:8-14 | a required `str` field validates exactly when present and a string, and then gives that string |
| Models.OptionalString | src/ai_legal_assistant/models.py:15-16 | an `Optional[str]` field validates exactly when absent, null or a string, and gives the default, None or that string respectively |
| Models.ValidateFiling | src/ai_legal_assistant/models.py:4-17 | `CompanyFiling(**o)` succeeds exactly on the filing shape; the required fields come from the map; present optional fields keep their value (null as None), absent ones take None and "N/A" |
| Models.ValidateDumpRoundTrip | src/ai_legal_assistant/models.py:4-17 | validating a record's own field dump gives the record back |
| Models.ValidateRequest | src/ai_legal_assistant/models.py:19-23 | a request validates exactly when `query` is a string, and carries that string |
| Tools.ConfigureBackend | src/ai_legal_assistant/tools.py:10-13 | a search backend exists exactly when the key is set, non-empty and not the placeholder |
| Tools.GeneralWebSearch | src/ai_legal_assistant/tools.py:15-23 | the backend's text unchanged; a "not configured" error without a backend; an error quoting the exception when the backend raises |
| Tools.SiteQuery | src/ai_legal_assistant/tools.py:31 | `f"site:{site} {query}"` is the prefix `site:`, the site, one space and the query, at the stated positions |
| Tools.ParseSiteQuery | src/ai_legal_assistant/tools.py:31 | reads a site query back: a result rebuilds the input and has a space-free site; none exactly when the `site:` prefix is missing or no space follows it |
| Tools.SiteQueryRoundTrip | src/ai_legal_assistant/tools.py:31 | a site without spaces and the query can both be recovered from `site:<site> <query>` |
| Tools.OfficialSiteSearch | src/ai_legal_assistant/tools.py:25-33 | the backend's answer to exactly the site query; otherwise an error text naming the site and quoting any exception |
| Tools.OfficialSiteSearchAsksOnce | src/ai_legal_assistant/tools.py:30-31 | the result depends on the backend only through its answer to the one site query |
| Tools.SedarPlusSearch | src/ai_legal_assistant/tools.py:72-74 | the site search restricted to sedarplus.ca: the backend's answer to `site:sedarplus.ca <query>`, an error naming sedarplus.ca without a backend, and an error naming it and quoting the reason when the backend raises |
| Tools.CvmEmpresasNetSearch | src/ai_legal_assistant/tools.py:76-78 | the site search restricted to cvm.gov.br: the backend's answer to `site:cvm.gov.br <query>`, an error naming cvm.gov.br without a backend, and an error naming it and quoting the reason when the backend raises |
| Tools.EdgarBrowseUrl | src/ai_legal_assistant/tools.py:133 | the browse URL of a company's 10-K filings starts with the `browse-edgar?action=getcompany&CIK=` base followed by the CIK, contains the CIK, and ends with the 10-K filter `&type=10-K&dateb=&owner=exclude&count=10` |
| Tools.FoundSecMessage | src/ai_legal_assistant/tools.py:65 | the hit message starts with the fixed prefix followed by the title-cased company and carries the EDGAR URL |
| Tools.ManualSecMessage | src/ai_legal_assistant/tools.py:67 | the miss message starts with "Real SEC EDGAR search attempted for: " and the query, and carries the manual-search URL |
| Tools.SecDirectLookup | src/ai_legal_assistant/tools.py:49-67 | a hit exactly when the lower-cased first word is a key of the local table; a hit is the found message for that key and its URL, a miss is the manual-search message for the query; never an error text |
| Tools.SecDirectLookupMissesFindQuery | src/ai_legal_assistant/tools.py:52-64 | the example query "Find Microsoft's …" looks up "find" and falls through to the manual-search message |
| Tools.SecEdgarSearch | src/ai_legal_assistant/tools.py:35-70 | the backend's answer for `site:sec.gov` unless it contains "Error:" or the backend is missing or raises; in those cases the local lookup |
| Tools.StripAll | src/ai_legal_assistant/tools.py:97 | each string of the page stripped, same count and order |
| Tools.PageText | src/ai_legal_assistant/tools.py:97 | the page text is empty for a page without strings and contains every string of the page stripped |
| Tools.PageTextOfStrippedStrings | src/ai_legal_assistant/tools.py:97 | when the parser's strings are already stripped, the page text is their plain space-join |
| Tools.ReadDocumentFromUrl | src/ai_legal_assistant/tools.py:80-103 | an HTML page gives a prefix of its text of at most 8000 characters, exactly 8000 when the text is longer, and the whole text when it is short; a non-HTML page and a failed request give error texts, the latter quoting the reason |
| Tools.ZFill | src/ai_legal_assistant/tools.py:136 | `zfill(n)` on a string without a sign: leaves strings of length at least n alone and otherwise left-pads with '0' characters to exactly n, keeping the string as the suffix |
| Tools.CompanyInfoUrl | src/ai_legal_assistant/tools.py:113-136 | the submissions URL starts with the API base, contains the CIK zero-filled to ten characters and ends in `.json` |
| Tools.ManualRealSecMessage | src/ai_legal_assistant/tools.py:153 | the unknown-company message starts with "Real SEC search attempted for " and the name, and carries the manual-search URL |
| Tools.RealSecSuccessMessage | src/ai_legal_assistant/tools.py:149 | the success message starts with "Real SEC search successful for " and the title, and carries the CIK and the filings URL |
| Tools.RealSecAttemptMessage | src/ai_legal_assistant/tools.py:151 | the non-200 message starts with "Real SEC search attempted for ", the name and ". Filings URL: ", and carries the filings URL |
| Tools.RealSecFailureMessage | src/ai_legal_assistant/tools.py:155-156 | the failure message starts with "Real SEC search failed: " and quotes the exception's text |
| Tools.RealSecSearch | src/ai_legal_assistant/tools.py:105-156 | an unknown name gives the manual-search message; for a known name, status 200 with a decodable body gives the success message titled with `entityName` or the `title()`-cased name and carrying the CIK and filings URL; another status gives the attempted message with the filings URL; an unreachable host or an undecodable body gives the failure message quoting the reason |
| Tools.RealSecSearchUnknownDoesNoRequest | src/ai_legal_assistant/tools.py:128-153 | for an unknown name the result does not depend on the HTTP client |
| Tools.EdgarBrowseUrlNamesCik | src/ai_legal_assistant/tools.py:133 | the filings URL names its CIK |
| Tools.CompanyInfoUrlEmbedsCik | src/ai_legal_assistant/tools.py:136 | every CIK in the table is already ten digits, so the submissions URL embeds it unpadded |
| Tools.SecTablesAgree | src/ai_legal_assistant/tools.py:57-62 | every entry of the SEC EDGAR search's URL table is the browse URL of the same company's CIK in the real search's table |
| Tools.FallbackSearch | src/ai_legal_assistant/tools.py:158-234 | a filing is found exactly when some canned company key occurs in the lower-cased query |
| Tools.FoundFilingMessage | src/ai_legal_assistant/tools.py:232 | the found message starts with "Found filing for " and the company name, and carries the filing's contract name, date and document URL |
| Tools.NoMockMessage | src/ai_legal_assistant/tools.py:234 | the canned search's miss starts with "Mock search completed for: " and the query, and ends with ". No specific filing found in mock database." |
| Tools.FallbackFirstMatchWins | src/ai_legal_assistant/tools.py:229-232 | the filing reported is that of the earliest key in table order that occurs in the query |
| Tools.FallbackNoMatch | src/ai_legal_assistant/tools.py:234 | no key in the query gives the "no specific filing" message |
| Tools.FallbackMicrosoft | src/ai_legal_assistant/tools.py:166-178 | any query mentioning microsoft, in any case, gets Microsoft Corporation's SEC EDGAR 10-K, whose URL is on sec.gov |
| Agent.RegistryNamesDistinct | src/ai_legal_assistant/agent_workflow.py:15-23 | seven tools with distinct names, so each name resolves to its own tool |
| Agent.Invoke | src/ai_legal_assistant/agent_workflow.py:15-23 | each registered tool runs its own tool function on the argument, with the oracle that function needs |
| Agent.InvokeUsesOwnOracle | src/ai_legal_assistant/agent_workflow.py:15-23 | a tool's result depends only on its own oracle: environments agreeing on it give the same result |
| Agent.WithoutBackend | src/ai_legal_assistant/tools.py:15-78 | with no search key, the general, SEDAR+ and CVM searches answer with errors, and the SEC EDGAR search answers from its table and never with an error |
| Agent.KnownIndices | src/ai_legal_assistant/agent_workflow.py:116-121 | exactly the positions of calls whose tool name is registered, in increasing order |
| Agent.Answer | src/ai_legal_assistant/agent_workflow.py:120-123 | the answer to a known call is a tool result with the call's id and the registered tool's output on the call's argument |
| Agent.Dispatch | src/ai_legal_assistant/agent_workflow.py:116-123 | one answer per known call, in the calls' order, from the tool the name resolves to |
| Agent.DispatchAnswersCalls | src/ai_legal_assistant/agent_workflow.py:112-124 | never more answers than calls; every answer is a tool result carrying a call's id; no answers exactly when no name is known |
| Agent.CallTools | src/ai_legal_assistant/agent_workflow.py:112-124 | the tools node answers the last model turn's known calls, in order |
| Agent.ShouldContinue | src/ai_legal_assistant/agent_workflow.py:100-105 | back to the agent exactly after a tool result; to the end exactly after a model turn without calls; to the tools exactly after one with calls |
| Agent.AgentTurnNeverRoutesToAgent | src/ai_legal_assistant/agent_workflow.py:92-96 | after a model turn the route is never "agent", and it ends exactly when the turn has no calls |
| Agent.PendingThroughResults | src/ai_legal_assistant/agent_workflow.py:123 | appending tool results keeps a pending call answerable |
| Agent.AppendAnswersWellFormed | src/ai_legal_assistant/agent_workflow.py:112-124 | appending answers to a model turn's calls keeps the conversation well formed |
| Agent.AlternatesAfterRound | src/ai_legal_assistant/agent_workflow.py:97 | an agent-tools round in front of an alternating trace keeps it alternating |
| Agent.ToolsStepKeepsConversation | src/ai_legal_assistant/agent_workflow.py:107-124 | an agent turn followed by the tools node only appends, and preserves well-formedness |
| Agent.RunGraph | src/ai_legal_assistant/agent_workflow.py:87-98 | messages are only appended; the trace alternates agent and tools; every completed round is a model turn with calls followed by the tools' answers, as the model decided on the conversation so far; a crash is the model failing on the final conversation; a finished run ends with the model's own call-free answer to the conversation before it; running out of fuel means the full trace length; well-formedness is preserved |
| Agent.DrivenByAfterRound | src/ai_legal_assistant/agent_workflow.py:92-97 | a run driven by the model after one agent-tools round, preceded by that round, is driven by the model from the start |
| Agent.InitialConversation | src/ai_legal_assistant/main.py:73-76 | the run starts from a single human message holding the query |
| Service.StrictParse | src/ai_legal_assistant/main.py:82-89 | the strict stage succeeds exactly when the parser finds a JSON object of the filing shape, and then gives that object's validated record |
| Service.StrictParseOfDump | src/ai_legal_assistant/main.py:82-89 | a reply whose JSON is a record's own field dump parses strictly to that record |
| Service.ReconciledFields | src/ai_legal_assistant/main.py:101-112 | the reconciled map has every field name; "filing_type" and "summary" take precedence over their synonyms; present names, dates and URL are kept; the source says SEC EDGAR exactly when the URL is a string mentioning sec.gov; language, law and clause are fixed |
| Service.Reconcile | src/ai_legal_assistant/main.py:96-116 | succeeds exactly on an object whose consulted values are strings; "filing_type" beats "contract_name" and "summary" beats "description"; placeholders for missing values; SEC EDGAR and United States exactly when the URL mentions sec.gov; fixed language, law and clause |
| Service.ReconciledFieldsShape | src/ai_legal_assistant/main.py:101-112 | the reconciled map holds the consulted values and the constants, and has the filing shape exactly when the reply is reconcilable |
| Service.ReconcileFillsPlaceholders | src/ai_legal_assistant/main.py:101-116 | a reply with only a filing type becomes a full record of placeholders with an empty URL |
| Service.ShapeResponse | src/ai_legal_assistant/main.py:79-131 | success exactly when the strict or the lenient stage succeeds, and then data is present and error absent; the strict result wins; a failure names the strict error and quotes the raw reply |
| Service.SearchFiling | src/ai_legal_assistant/main.py:62-138 | a crashed run gives a 500 error quoting the reason; a finished run gives the envelope built from its final model turn, which has no calls and is the model's answer to the conversation before it; no answer when the fuel runs out |
| Service.SearchFilingDirectAnswer | src/ai_legal_assistant/main.py:62-131 | when the model answers the query at once without tools, the endpoint shapes exactly that answer |
| Service.SearchFilingModelDown | src/ai_legal_assistant/main.py:133-138 | when the model call fails on the query, the endpoint answers 500 with "Internal server error: " and the failure's text |
| Service.SearchFilingAfterOneRound | src/ai_legal_assistant/main.py:62-131 | after one round of tool calls, the endpoint shapes the answer the model gave to the conversation including the tools' results |

## Left out

- Strings: case mapping, `\w`, `title()` and whitespace follow Python on ASCII characters, including the separators 0x1C-0x1F that `strip()` removes. Non-ASCII characters are treated as non-letters and non-space; Python's Unicode tables are not modelled.
- Tools.ReadDocumentFromUrl: HTML parsing with BeautifulSoup and removal of script, style, nav, footer and header elements are not modelled. The fetcher returns the page's visible strings, so "stripped strings" are its input. The User-Agent header and the 10-second timeout are left out. A timeout is one of the fetcher's failures.
- Tools.ZFill: Python's `zfill` puts the zeros after a leading sign (`"-5".zfill(3) == "-05"`); the model pads in front of any string. The only call passes the table's CIKs, which are digits only.
- Tools.ReadDocumentFromUrl: the non-HTML error is stated only by its fixed prefix, not by the content type it quotes.
- Tools.RealSecSearch: the decoded body is reduced to an optional `entityName` string; a JSON value of another type under that key is not modelled.
- Tools.SecEdgarSearch: the "Direct SEC search failed" branch is not modelled. Nothing in the local lookup can raise.
- Tools.GeneralWebSearch: the Serper HTTP API, and the backend's formatting of results, are a function parameter.
- Progress printing by the tools and the endpoint's logging are left out. They have no effect on results.
- Agent.Invoke: `Tool.invoke` receives the model's argument object. The model passes one string argument; converting an argument dictionary to the tool's input is not modelled.
- Agent.RunGraph: the language model (Gemini), the system prompt and the prompt template are left out. The model's next turn is an arbitrary function of the conversation.
- Agent.RunGraph: LangGraph's recursion limit, the checkpointer and thread ids are not modelled. The fuel bound only makes the run a total function and is not a claim about any limit in the service.
- Service.StrictParse: the output parser's JSON extraction from surrounding text is a parameter. So is `json.loads`, and both report an error text.
- Service.StrictParse: its validation error texts ("Input should be a valid dictionary" and those of Models.RequiredString and Models.OptionalString) stand in for the parser's own message, which begins "Failed to parse CompanyFiling from completion" and quotes the completion. The contract promises only that the envelope contains whatever error the strict stage reports.
- Service.SearchFiling: in the service, building the graph, converting tool arguments and LangGraph's recursion limit can also raise and lead to a 500 error. None of these is modelled; in this model only a failing model call does.
- Service.Reconcile: a non-string `document_url` is rejected. In Python, `"sec.gov" in x` either raises or passes a non-string to validation, which rejects it. The error texts of these failures are not modelled, because only the strict parser's error reaches the envelope.
- The FastAPI application, its other routes (root, examples, health), CORS, the startup code and `config.py`'s environment reading are left out. Only `search_filing`'s logic is modelled.
- Pydantic v1 coercion, where numbers are accepted as strings, is not modelled. Validation follows Pydantic v2's lax mode for `str` fields.
