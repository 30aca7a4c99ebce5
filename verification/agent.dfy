/** The agent's control loop (agent_workflow.py): the conversation, the tool
    registry, the routing decision after each model turn, the tool-dispatch
    node, and the two-node graph agent -> tools -> agent. The language model
    is an arbitrary function from the conversation to its next turn.
 */
module Agent {

  import opened Base
  import opened Tables
  import opened Tools
  import Strings

  /** A tool invocation the model asks for, with its correlation id. */
  datatype ToolCall = ToolCall(name: string, args: string, id: string)

  /** One turn of the conversation. */
  datatype Message =
    | Human(content: string)
    | Ai(content: string, toolCalls: seq<ToolCall>)
    | ToolResult(content: string, toolCallId: string)

  /** The seven tool functions the registry can point at. */
  datatype ToolKind =
    | SecEdgarTool
    | RealSecTool
    | SedarPlusTool
    | CvmTool
    | ReadDocumentTool
    | GeneralSearchTool
    | FallbackTool

  /** The registry handed to the agent, in source order. */
  const Registry: seq<(string, ToolKind)> := [
    ("search_sec_edgar", SecEdgarTool),
    ("real_sec_search", RealSecTool),
    ("search_sedar_plus", SedarPlusTool),
    ("search_cvm_empresas_net", CvmTool),
    ("read_document_from_url", ReadDocumentTool),
    ("general_web_search", GeneralSearchTool),
    ("fallback_search", FallbackTool)]

  /** The registry has seven entries with pairwise distinct names, so
      resolving a registered name always finds that name's own entry. */
  lemma RegistryNamesDistinct()
    ensures |Registry| == 7
    ensures DistinctKeys(Registry)
    ensures forall i :: 0 <= i < |Registry| ==> Lookup(Registry, Registry[i].0) == Some(Registry[i].1)
  {
    assert DistinctKeys(Registry);
    forall i | 0 <= i < |Registry|
      ensures Lookup(Registry, Registry[i].0) == Some(Registry[i].1)
    {
      LookupFindsEntry(Registry, i);
    }
  }

  /** Everything outside the process the tools talk to. */
  datatype Env = Env(
    search: SearchBackend,
    fetchPage: string -> PageReply,
    fetchCompany: string -> CompanyReply)

  /** Runs one tool on its argument: each kind is its tool function, fed
      with the part of the environment that function talks to. */
  function Invoke(env: Env, kind: ToolKind, arg: string): (r: string)
    ensures kind == SecEdgarTool ==> r == SecEdgarSearch(env.search, arg)
    ensures kind == RealSecTool ==> r == RealSecSearch(env.fetchCompany, arg)
    ensures kind == SedarPlusTool ==> r == SedarPlusSearch(env.search, arg)
    ensures kind == CvmTool ==> r == CvmEmpresasNetSearch(env.search, arg)
    ensures kind == ReadDocumentTool ==> r == ReadDocumentFromUrl(env.fetchPage, arg)
    ensures kind == GeneralSearchTool ==> r == GeneralWebSearch(env.search, arg)
    ensures kind == FallbackTool ==> r == FallbackSearch(arg)
  {
    match kind
    case SecEdgarTool => SecEdgarSearch(env.search, arg)
    case RealSecTool => RealSecSearch(env.fetchCompany, arg)
    case SedarPlusTool => SedarPlusSearch(env.search, arg)
    case CvmTool => CvmEmpresasNetSearch(env.search, arg)
    case ReadDocumentTool => ReadDocumentFromUrl(env.fetchPage, arg)
    case GeneralSearchTool => GeneralWebSearch(env.search, arg)
    case FallbackTool => FallbackSearch(arg)
  }

  /** Without a configured search backend the general and the two
      site searches answer with an error text, while the SEC EDGAR search
      answers from its local table and never does. */
  lemma WithoutBackend(env: Env, arg: string)
    requires env.search.NoBackend?
    ensures IsErrorText(Invoke(env, GeneralSearchTool, arg))
    ensures IsErrorText(Invoke(env, SedarPlusTool, arg))
    ensures IsErrorText(Invoke(env, CvmTool, arg))
    ensures Invoke(env, SecEdgarTool, arg) == SecDirectLookup(arg)
    ensures !IsErrorText(Invoke(env, SecEdgarTool, arg))
  {
  }

  /** Two search backends that give the same reply to every query. */
  ghost predicate SameBackend(b1: SearchBackend, b2: SearchBackend) {
    && (b1.NoBackend? <==> b2.NoBackend?)
    && (b1.Backend? && b2.Backend? ==> forall q :: b1.run(q) == b2.run(q))
  }

  /** `e1` and `e2` agree on the part of the environment `kind` talks to. */
  ghost predicate SameOracle(kind: ToolKind, e1: Env, e2: Env) {
    match kind
    case SecEdgarTool => SameBackend(e1.search, e2.search)
    case SedarPlusTool => SameBackend(e1.search, e2.search)
    case CvmTool => SameBackend(e1.search, e2.search)
    case GeneralSearchTool => SameBackend(e1.search, e2.search)
    case RealSecTool => forall u :: e1.fetchCompany(u) == e2.fetchCompany(u)
    case ReadDocumentTool => forall u :: e1.fetchPage(u) == e2.fetchPage(u)
    case FallbackTool => true
  }

  /** A tool's text depends on its argument and on its own part of the
      environment only; the fallback search depends on nothing else. */
  lemma InvokeUsesOwnOracle(e1: Env, e2: Env, kind: ToolKind, arg: string)
    requires SameOracle(kind, e1, e2)
    ensures Invoke(e1, kind, arg) == Invoke(e2, kind, arg)
  {
  }

  // ---------------------------------------------------------------------
  // Dispatch

  predicate IsKnown(reg: seq<(string, ToolKind)>, call: ToolCall) {
    Lookup(reg, call.name).Some?
  }

  /** The positions of the calls whose name the registry knows, in
      increasing order: exactly the calls that get an answer. */
  function KnownIndices(reg: seq<(string, ToolKind)>, calls: seq<ToolCall>): (idx: seq<nat>)
    ensures |idx| <= |calls|
    ensures forall k :: 0 <= k < |idx| ==> idx[k] < |calls| && IsKnown(reg, calls[idx[k]])
    ensures forall k, l :: 0 <= k < l < |idx| ==> idx[k] < idx[l]
    ensures forall j :: 0 <= j < |calls| && IsKnown(reg, calls[j]) ==> j in idx
    decreases |calls|
  {
    if |calls| == 0 then
      []
    else
      var n := |calls| - 1;
      var front := KnownIndices(reg, calls[..n]);
      assert forall j :: 0 <= j < n ==> calls[..n][j] == calls[j];
      if IsKnown(reg, calls[n]) then front + [n] else front
  }

  /** The answer to a known call: the tool's text, tagged with the call's id. */
  function Answer(env: Env, reg: seq<(string, ToolKind)>, call: ToolCall): (m: Message)
    requires IsKnown(reg, call)
    ensures m.ToolResult? && m.toolCallId == call.id
    ensures m.content == Invoke(env, Lookup(reg, call.name).value, call.args)
  {
    ToolResult(Invoke(env, Lookup(reg, call.name).value, call.args), call.id)
  }

  /** The loop of `call_tools`: one answer per call with a known name, in
      call order, each carrying its call's id; unknown names are skipped. */
  function Dispatch(env: Env, reg: seq<(string, ToolKind)>, calls: seq<ToolCall>): (out: seq<Message>)
    ensures |out| == |KnownIndices(reg, calls)|
    ensures forall k :: 0 <= k < |out| ==> out[k] == Answer(env, reg, calls[KnownIndices(reg, calls)[k]])
    decreases |calls|
  {
    if |calls| == 0 then
      []
    else
      var n := |calls| - 1;
      var front := Dispatch(env, reg, calls[..n]);
      if IsKnown(reg, calls[n]) then
        DispatchKnownStep(env, reg, calls, front);
        front + [Answer(env, reg, calls[n])]
      else
        DispatchUnknownStep(env, reg, calls, front);
        front
  }

  /** The answers to all calls but the last, as the loop has them. */
  predicate AnswersFront(env: Env, reg: seq<(string, ToolKind)>, calls: seq<ToolCall>, front: seq<Message>)
    requires |calls| > 0
  {
    var idx := KnownIndices(reg, calls[..|calls| - 1]);
    && |front| == |idx|
    && forall k :: 0 <= k < |front| ==> front[k] == Answer(env, reg, calls[..|calls| - 1][idx[k]])
  }

  /** A known last call adds its answer after the others. */
  lemma DispatchKnownStep(env: Env, reg: seq<(string, ToolKind)>, calls: seq<ToolCall>, front: seq<Message>)
    requires |calls| > 0 && IsKnown(reg, calls[|calls| - 1])
    requires AnswersFront(env, reg, calls, front)
    ensures |front + [Answer(env, reg, calls[|calls| - 1])]| == |KnownIndices(reg, calls)|
    ensures forall k :: 0 <= k < |KnownIndices(reg, calls)| ==>
      (front + [Answer(env, reg, calls[|calls| - 1])])[k] == Answer(env, reg, calls[KnownIndices(reg, calls)[k]])
  {
    var n := |calls| - 1;
    var frontIdx := KnownIndices(reg, calls[..n]);
    var idx := KnownIndices(reg, calls);
    var out := front + [Answer(env, reg, calls[n])];
    assert idx == frontIdx + [n];
    assert |idx| == |frontIdx| + 1 && idx[|frontIdx|] == n;
    forall k | 0 <= k < |idx|
      ensures out[k] == Answer(env, reg, calls[idx[k]])
    {
      if k < |frontIdx| {
        assert out[k] == front[k] && idx[k] == frontIdx[k];
        assert calls[..n][frontIdx[k]] == calls[frontIdx[k]];
      } else {
        assert out[k] == Answer(env, reg, calls[n]);
      }
    }
  }

  /** An unknown last call adds nothing. */
  lemma DispatchUnknownStep(env: Env, reg: seq<(string, ToolKind)>, calls: seq<ToolCall>, front: seq<Message>)
    requires |calls| > 0 && !IsKnown(reg, calls[|calls| - 1])
    requires AnswersFront(env, reg, calls, front)
    ensures |front| == |KnownIndices(reg, calls)|
    ensures forall k :: 0 <= k < |KnownIndices(reg, calls)| ==>
      front[k] == Answer(env, reg, calls[KnownIndices(reg, calls)[k]])
  {
    var n := |calls| - 1;
    var frontIdx := KnownIndices(reg, calls[..n]);
    assert KnownIndices(reg, calls) == frontIdx;
    forall k | 0 <= k < |frontIdx|
      ensures front[k] == Answer(env, reg, calls[frontIdx[k]])
    {
      assert calls[..n][frontIdx[k]] == calls[frontIdx[k]];
    }
  }

  function CallIds(calls: seq<ToolCall>): (ids: seq<string>)
    ensures |ids| == |calls|
    ensures forall i :: 0 <= i < |calls| ==> ids[i] == calls[i].id
  {
    seq(|calls|, i requires 0 <= i < |calls| => calls[i].id)
  }

  /** What dispatch promises the conversation: never more answers than
      calls, every answer a tool result whose id is one of the calls' ids,
      and no answer at all exactly when no name is known. */
  lemma DispatchAnswersCalls(env: Env, reg: seq<(string, ToolKind)>, calls: seq<ToolCall>)
    ensures |Dispatch(env, reg, calls)| <= |calls|
    ensures forall k :: 0 <= k < |Dispatch(env, reg, calls)| ==>
      Dispatch(env, reg, calls)[k].ToolResult? && Dispatch(env, reg, calls)[k].toolCallId in CallIds(calls)
    ensures Dispatch(env, reg, calls) == [] <==> forall j :: 0 <= j < |calls| ==> !IsKnown(reg, calls[j])
  {
    var out := Dispatch(env, reg, calls);
    var idx := KnownIndices(reg, calls);
    forall k | 0 <= k < |out|
      ensures out[k].ToolResult? && out[k].toolCallId in CallIds(calls)
    {
      assert CallIds(calls)[idx[k]] == out[k].toolCallId;
    }
    if out == [] {
      assert |idx| == 0;
    }
  }

  /** `call_tools`: dispatches the calls of the last turn. */
  function CallTools(env: Env, reg: seq<(string, ToolKind)>, messages: seq<Message>): (out: seq<Message>)
    requires |messages| > 0 && messages[|messages| - 1].Ai?
    ensures |out| == |KnownIndices(reg, messages[|messages| - 1].toolCalls)|
    ensures forall k :: 0 <= k < |out| ==>
      var calls := messages[|messages| - 1].toolCalls;
      out[k] == Answer(env, reg, calls[KnownIndices(reg, calls)[k]])
  {
    Dispatch(env, reg, messages[|messages| - 1].toolCalls)
  }

  // ---------------------------------------------------------------------
  // Routing

  datatype Route = ToAgent | ToTools | ToEnd

  /** `should_continue`: back to the agent after a tool result, to the end
      after a turn without tool calls, to the tools otherwise. */
  function ShouldContinue(messages: seq<Message>): (r: Route)
    requires |messages| > 0 && !messages[|messages| - 1].Human?
    ensures r == ToAgent <==> messages[|messages| - 1].ToolResult?
    ensures r == ToEnd <==> messages[|messages| - 1].Ai? && |messages[|messages| - 1].toolCalls| == 0
    ensures r == ToTools <==> messages[|messages| - 1].Ai? && |messages[|messages| - 1].toolCalls| > 0
  {
    var last := messages[|messages| - 1];
    if last.ToolResult? then ToAgent
    else if |last.toolCalls| == 0 then ToEnd
    else ToTools
  }

  /** The routing is only consulted right after the agent node, whose last
      turn is the model's, so the "agent" answer never occurs there. */
  lemma AgentTurnNeverRoutesToAgent(messages: seq<Message>, content: string, calls: seq<ToolCall>)
    ensures ShouldContinue(messages + [Ai(content, calls)]) != ToAgent
    ensures ShouldContinue(messages + [Ai(content, calls)]) == ToEnd <==> calls == []
  {
  }

  // ---------------------------------------------------------------------
  // Well-formed conversations

  /** The trailing tool results of `ms` follow a model turn, and `id` is
      the id of one of that turn's calls. */
  predicate AnswersPending(ms: seq<Message>, id: string)
    decreases |ms|
  {
    && |ms| > 0
    && match ms[|ms| - 1]
       case ToolResult(_, _) => AnswersPending(ms[..|ms| - 1], id)
       case Ai(_, calls) => id in CallIds(calls)
       case Human(_) => false
  }

  /** Every tool result answers a call of the model turn that precedes its
      run of tool results. */
  predicate WellFormed(ms: seq<Message>)
    decreases |ms|
  {
    || |ms| == 0
    || (&& WellFormed(ms[..|ms| - 1])
        && (ms[|ms| - 1].ToolResult? ==> AnswersPending(ms[..|ms| - 1], ms[|ms| - 1].toolCallId)))
  }

  /** Tool results appended after a model turn still answer that turn. */
  lemma {:induction false} PendingThroughResults(ms: seq<Message>, results: seq<Message>, id: string)
    requires AnswersPending(ms, id)
    requires forall k :: 0 <= k < |results| ==> results[k].ToolResult?
    ensures AnswersPending(ms + results, id)
    decreases |results|
  {
    if |results| > 0 {
      var n := |results| - 1;
      var all := ms + results;
      PendingThroughResults(ms, results[..n], id);
      assert all[..|all| - 1] == ms + results[..n];
      assert all[|all| - 1] == results[n];
      assert all[|all| - 1].ToolResult?;
    } else {
      assert ms + results == ms;
    }
  }

  /** Appending answers to the calls of the last model turn keeps the
      conversation well formed. */
  lemma {:induction false} AppendAnswersWellFormed(ms: seq<Message>, calls: seq<ToolCall>, results: seq<Message>)
    requires WellFormed(ms) && |ms| > 0 && ms[|ms| - 1].Ai? && ms[|ms| - 1].toolCalls == calls
    requires forall k :: 0 <= k < |results| ==> results[k].ToolResult? && results[k].toolCallId in CallIds(calls)
    ensures WellFormed(ms + results)
    decreases |results|
  {
    if |results| > 0 {
      var n := |results| - 1;
      var all := ms + results;
      AppendAnswersWellFormed(ms, calls, results[..n]);
      assert all[..|all| - 1] == ms + results[..n];
      assert all[|all| - 1] == results[n];
      assert ms[..|ms| - 1] + [ms[|ms| - 1]] == ms;
      assert AnswersPending(ms, results[n].toolCallId);
      PendingThroughResults(ms, results[..n], results[n].toolCallId);
    } else {
      assert ms + results == ms;
    }
  }

  // ---------------------------------------------------------------------
  // The graph

  datatype Node = AgentNode | ToolsNode

  /** The model's next turn, or the failure of the model call. */
  datatype Decision = Respond(content: string, calls: seq<ToolCall>) | ModelFailed(reason: string)

  datatype Status = Finished | Crashed(reason: string) | OutOfFuel

  /** The end of a run: how it ended, the conversation, and the nodes
      visited in order. */
  datatype RunResult = RunResult(status: Status, messages: seq<Message>, trace: seq<Node>)

  /** The trace is agent, tools, agent, tools, ... */
  predicate Alternates(trace: seq<Node>) {
    forall i :: 0 <= i < |trace| ==> trace[i] == (if i % 2 == 0 then AgentNode else ToolsNode)
  }

  /** The last turn is the model's and asks for no tool. */
  predicate EndsWithAnswer(ms: seq<Message>) {
    |ms| > 0 && ms[|ms| - 1].Ai? && ms[|ms| - 1].toolCalls == []
  }

  /** The conversation after one round from `ms`: the model's turn with
      its calls, then the tools node's answers to them. */
  function AfterRound(env: Env, ms: seq<Message>, content: string, calls: seq<ToolCall>): seq<Message> {
    var afterAgent := ms + [Ai(content, calls)];
    afterAgent + CallTools(env, Registry, afterAgent)
  }

  /** `n` rounds, in each of which the model asks for tools and the tools
      answer, lead from `from` to `to`. */
  predicate Rounds(decide: seq<Message> -> Decision, env: Env, from: seq<Message>, to: seq<Message>, n: nat)
    decreases n
  {
    if n == 0 then
      from == to
    else
      && decide(from).Respond?
      && decide(from).calls != []
      && Rounds(decide, env, AfterRound(env, from, decide(from).content, decide(from).calls), to, n - 1)
  }

  /** The conversation a run had reached when the model last answered:
      for a finished run, everything before its final answer. */
  function Reached(status: Status, ms: seq<Message>): seq<Message> {
    if status.Finished? && |ms| > 0 then ms[..|ms| - 1] else ms
  }

  /** How a run stopped, as the model decided it: a finished run's last
      turn is the model's answer without calls to the conversation before
      it; a crashed run's model call failed on the conversation reached. */
  predicate StoppedBy(decide: seq<Message> -> Decision, status: Status, ms: seq<Message>) {
    match status
    case OutOfFuel => true
    case Crashed(e) => decide(ms) == ModelFailed(e)
    case Finished =>
      |ms| > 0 && decide(Reached(status, ms)) == Respond(ms[|ms| - 1].content, [])
  }

  /** How the model's decisions produced a run from `messages`: one round
      per agent-tools pair in the trace, then the way it stopped. */
  predicate DrivenBy(decide: seq<Message> -> Decision, env: Env, messages: seq<Message>, r: RunResult) {
    Rounds(decide, env, messages, Reached(r.status, r.messages), |r.trace| / 2)
    && StoppedBy(decide, r.status, r.messages)
  }

  /** A round in which the model asks for tools, followed by `n` rounds,
      makes `n + 1` rounds. */
  lemma RoundsCons(decide: seq<Message> -> Decision, env: Env, from: seq<Message>, to: seq<Message>,
                   content: string, calls: seq<ToolCall>, n: nat)
    requires decide(from) == Respond(content, calls) && calls != []
    requires Rounds(decide, env, AfterRound(env, from, content, calls), to, n)
    ensures Rounds(decide, env, from, to, n + 1)
  {
  }

  /** A run that stops at its first agent step, as the model decided, is
      driven by the model. */
  lemma OneTurnDrivenBy(decide: seq<Message> -> Decision, env: Env, messages: seq<Message>, r: RunResult)
    requires |r.trace| == 1
    requires Reached(r.status, r.messages) == messages
    requires StoppedBy(decide, r.status, r.messages)
    ensures DrivenBy(decide, env, messages, r)
  {
    assert |r.trace| / 2 == 0;
  }

  /** An agent-tools pair in front of a trace adds one to its pair count
      and keeps the parity of its length. */
  lemma HalfAfterRound(trace: seq<Node>)
    ensures |[AgentNode, ToolsNode] + trace| / 2 == |trace| / 2 + 1
    ensures |[AgentNode, ToolsNode] + trace| % 2 == |trace| % 2
  {
  }

  /** A round in front of a run driven by the model is still driven by it. */
  lemma DrivenByAfterRound(decide: seq<Message> -> Decision, env: Env, messages: seq<Message>,
                           content: string, calls: seq<ToolCall>, rest: RunResult)
    requires decide(messages) == Respond(content, calls) && calls != []
    requires DrivenBy(decide, env, AfterRound(env, messages, content, calls), rest)
    ensures DrivenBy(decide, env, messages, RunResult(rest.status, rest.messages, [AgentNode, ToolsNode] + rest.trace))
  {
    var n := |rest.trace| / 2;
    var to := Reached(rest.status, rest.messages);
    assert Rounds(decide, env, AfterRound(env, messages, content, calls), to, n);
    RoundsCons(decide, env, messages, to, content, calls, n);
    HalfAfterRound(rest.trace);
  }

  /** One more agent-tools round in front of an alternating trace keeps
      it alternating. */
  lemma AlternatesAfterRound(trace: seq<Node>)
    requires Alternates(trace)
    ensures Alternates([AgentNode, ToolsNode] + trace)
  {
    var t := [AgentNode, ToolsNode] + trace;
    forall i | 2 <= i < |t|
      ensures t[i] == (if i % 2 == 0 then AgentNode else ToolsNode)
    {
      assert t[i] == trace[i - 2];
      assert (i - 2) % 2 == i % 2;
    }
  }

  /** A model turn with calls followed by their answers only extends the
      conversation, and keeps it well formed. */
  lemma ToolsStepKeepsConversation(env: Env, messages: seq<Message>, content: string, calls: seq<ToolCall>)
    ensures var afterAgent := messages + [Ai(content, calls)];
      messages <= afterAgent + CallTools(env, Registry, afterAgent)
    ensures var afterAgent := messages + [Ai(content, calls)];
      WellFormed(messages) ==> WellFormed(afterAgent + CallTools(env, Registry, afterAgent))
  {
    var afterAgent := messages + [Ai(content, calls)];
    var results := CallTools(env, Registry, afterAgent);
    assert (afterAgent + results)[..|messages|] == messages;
    DispatchAnswersCalls(env, Registry, calls);
    if WellFormed(messages) {
      assert afterAgent[..|afterAgent| - 1] == messages;
      AppendAnswersWellFormed(afterAgent, calls, results);
    }
  }

  /** The compiled graph, entered at the agent node, with at most `fuel`
      agent steps. Each node appends its output to the conversation; the
      tools node always hands back to the agent. */
  function RunGraph(decide: seq<Message> -> Decision, env: Env, messages: seq<Message>, fuel: nat): (r: RunResult)
    ensures messages <= r.messages
    ensures Alternates(r.trace)
    ensures |r.trace| <= 2 * fuel
    ensures fuel > 0 ==> |r.trace| > 0
    ensures r.status.OutOfFuel? <==> |r.trace| == 2 * fuel
    ensures r.status.Finished? ==> EndsWithAnswer(r.messages)
    ensures WellFormed(messages) ==> WellFormed(r.messages)
    ensures r.status.OutOfFuel? || |r.trace| % 2 == 1
    ensures DrivenBy(decide, env, messages, r)
    decreases fuel
  {
    if fuel == 0 then
      assert Rounds(decide, env, messages, messages, 0);
      RunResult(OutOfFuel, messages, [])
    else
      match decide(messages)
      case ModelFailed(e) =>
        OneTurnDrivenBy(decide, env, messages, RunResult(Crashed(e), messages, [AgentNode]));
        RunResult(Crashed(e), messages, [AgentNode])
      case Respond(content, calls) =>
        var afterAgent := messages + [Ai(content, calls)];
        assert afterAgent[|afterAgent| - 1] == Ai(content, calls);
        match ShouldContinue(afterAgent)
        case ToEnd =>
          assert calls == [];
          assert afterAgent[..|afterAgent| - 1] == messages;
          OneTurnDrivenBy(decide, env, messages, RunResult(Finished, afterAgent, [AgentNode]));
          RunResult(Finished, afterAgent, [AgentNode])
        case ToAgent =>
          assert false;
          RunResult(Finished, afterAgent, [AgentNode])
        case ToTools =>
          var results := CallTools(env, Registry, afterAgent);
          ToolsStepKeepsConversation(env, messages, content, calls);
          var rest := RunGraph(decide, env, afterAgent + results, fuel - 1);
          AlternatesAfterRound(rest.trace);
          DrivenByAfterRound(decide, env, messages, content, calls, rest);
          HalfAfterRound(rest.trace);
          Strings.PrefixTransitive(messages, afterAgent + results, rest.messages);
          RunResult(rest.status, rest.messages, [AgentNode, ToolsNode] + rest.trace)
  }

  /** A run starts from the user's query alone. */
  function InitialConversation(query: string): (ms: seq<Message>)
    ensures |ms| == 1 && ms[0].Human? && ms[0].content == query
    ensures WellFormed(ms)
  {
    [Human(query)]
  }
}
