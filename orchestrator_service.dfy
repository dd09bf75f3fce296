/** The step-tracking orchestration service: one run calls the AI agent, then
    the retrieval (RAG) service, then every tool call the agent listed, records
    each call as a step of the session, saves the session and returns a summary
    with one entry per call. Failures follow the try/catch structure: a failing
    RAG or tool call is recorded and the run goes on; a failing agent call ends
    the run after the session is saved. The error payloads the handlers build
    are not modelled. */
module LegacyOrchestration {
  import opened Common
  import opened Domain
  import opened SessionStore

  const AGENT_STEP := "AI Agent"
  const RAG_STEP := "RAG Service"
  const TOOL_STEP_PREFIX := "Tool:"
  const UNKNOWN_TOOL := "unknown"
  const NO_SUMMARY := "No summary"

  /** One entry of the agent's "toolCalls" array. A missing or null entry, or a
      missing "toolName", reads as a None name. */
  datatype ToolCallEntry = ToolCallEntry(toolName: Option<string>, arguments: Option<Json>)

  /** The JSON object the agent returns, reduced to what a run reads from it:
      its text, "reasoningSummary", and "toolCalls" (a missing array is empty). */
  datatype AgentReply = AgentReply(json: Json, reasoningSummary: Option<string>, toolCalls: seq<ToolCallEntry>)

  /** The three remote collaborators, each as the outcome it produces for the
      arguments of a call: (query, session id, trace id), (query hints, trace
      id) and (tool call, trace id). */
  type AgentClient = (string, Guid, string) -> Outcome<AgentReply>
  type RagClient = (string, string) -> Outcome<Json>
  type ToolExecutionClient = (ToolCall, string) -> Outcome<Json>

  /** What a run does to the outside world, in the order it does it. */
  datatype Effect =
    | AgentCalled(query: string, sessionId: Guid, traceId: string)
    | RagCalled(queryHints: string, traceId: string)
    | ToolExecuted(call: ToolCall, traceId: string)
    | SessionSaved(sessionId: Guid)

  /** A step entry of the returned summary carries the call's response, or an
      object holding the exception message. */
  datatype Payload = Response(json: Json) | ErrorMessage(message: string)
  datatype StepDto = StepDto(name: string, status: StepStatus, payload: Payload)
  datatype InvestigationResult = InvestigationResult(sessionId: Guid, traceId: string, summary: string, steps: seq<StepDto>)

  /** The exceptions a run lets escape: `Guid.Parse` rejecting the session id,
      and the agent call's own exception, rethrown. */
  datatype Error = InvalidSessionId(text: string) | AgentFailed(message: string)

  /** The session identifier of a run: a fresh one when the caller's is blank,
      otherwise the caller's, parsed (`parse` is `Guid.Parse`, None when it throws). */
  function ResolveSessionId(sessionId: Option<string>, freshId: Guid, parse: string -> Option<Guid>): (r: Result<Guid, Error>)
    ensures IsNullOrWhiteSpace(sessionId) ==> r == Returned(freshId)
    ensures !IsNullOrWhiteSpace(sessionId) ==>
              match parse(sessionId.value)
              case Some(id) => r == Returned(id)
              case None => r == Threw(InvalidSessionId(sessionId.value))
  {
    if IsNullOrWhiteSpace(sessionId) then Returned(freshId)
    else
      match parse(sessionId.value)
      case Some(id) => Returned(id)
      case None => Threw(InvalidSessionId(sessionId.value))
  }

  /** The call a tool-call entry asks for; a nameless entry is run as "unknown". */
  function ToolCallOf(entry: ToolCallEntry): (call: ToolCall)
    ensures call.arguments == entry.arguments
    ensures entry.toolName.Some? ==> call.toolName == entry.toolName.value
    ensures entry.toolName.None? ==> call.toolName == UNKNOWN_TOOL
  {
    ToolCall(entry.toolName.GetOr(UNKNOWN_TOOL), entry.arguments)
  }

  function ToolStepName(call: ToolCall): string {
    TOOL_STEP_PREFIX + call.toolName
  }

  /** The step a finished call leaves: Success with the response text, or
      Failed with the exception message. */
  function Settled(name: string, outcome: Outcome<Json>): (s: StepSummary)
    ensures s.name == name && s.status != Pending
    ensures s.status == Success <==> outcome.Ok?
    ensures outcome.Ok? ==> s.details == Some(outcome.value)
    ensures outcome.Err? ==> s.details == Some(outcome.message)
  {
    match outcome
    case Ok(json) => StepSummary(name, Success, Some(json))
    case Err(message) => StepSummary(name, Failed, Some(message))
  }

  /** The summary entry a finished call leaves. */
  function Reported(name: string, outcome: Outcome<Json>): (d: StepDto)
    ensures d.name == name && d.status != Pending
    ensures d.status == Success <==> outcome.Ok?
    ensures outcome.Ok? ==> d.payload == Response(outcome.value)
    ensures outcome.Err? ==> d.payload == ErrorMessage(outcome.message)
  {
    match outcome
    case Ok(json) => StepDto(name, Success, Response(json))
    case Err(message) => StepDto(name, Failed, ErrorMessage(message))
  }

  function ToolCalls(entries: seq<ToolCallEntry>): seq<ToolCall> {
    seq(|entries|, i requires 0 <= i < |entries| => ToolCallOf(entries[i]))
  }

  function ToolSteps(calls: seq<ToolCall>, tool: ToolExecutionClient, traceId: string): seq<StepSummary> {
    seq(|calls|, i requires 0 <= i < |calls| => Settled(ToolStepName(calls[i]), tool(calls[i], traceId)))
  }

  function ToolDtos(calls: seq<ToolCall>, tool: ToolExecutionClient, traceId: string): seq<StepDto> {
    seq(|calls|, i requires 0 <= i < |calls| => Reported(ToolStepName(calls[i]), tool(calls[i], traceId)))
  }

  function ToolEffects(calls: seq<ToolCall>, traceId: string): seq<Effect> {
    seq(|calls|, i requires 0 <= i < |calls| => ToolExecuted(calls[i], traceId))
  }

  /** Everything one run decides, given the session it runs in: the steps it
      appends to the session, what it does to the outside world, and what it
      returns or throws. */
  datatype Run = Run(steps: seq<StepSummary>, effects: seq<Effect>, result: Result<InvestigationResult, Error>)

  /** The specification of a run in session `sessionId`. */
  function Investigation(query: string, sessionId: Guid, traceId: string,
                         agent: AgentClient, rag: RagClient, tool: ToolExecutionClient): (r: Run)
    ensures |r.effects| >= 2 && r.effects[0] == AgentCalled(query, sessionId, traceId)
    ensures r.effects[|r.effects| - 1] == SessionSaved(sessionId)
    ensures |r.steps| >= 1 && r.steps[0].name == AGENT_STEP
    ensures r.result.Threw? <==> agent(query, sessionId, traceId).Err?
  {
    match agent(query, sessionId, traceId)
    case Err(message) => AbortedRun(query, sessionId, traceId, message)
    case Ok(reply) => AnsweredRun(query, sessionId, traceId, reply, rag, tool)
  }

  /** A run whose agent call threw: the handler saves the session and rethrows
      without marking the agent step, which stays Pending. */
  function AbortedRun(query: string, sessionId: Guid, traceId: string, message: string): (r: Run)
    ensures |r.steps| == 1 && r.steps[0].name == AGENT_STEP && r.steps[0].status == Pending
    ensures |r.effects| == 2 && r.effects[1] == SessionSaved(sessionId)
    ensures r.result == Threw(AgentFailed(message))
  {
    Run([StepSummary(AGENT_STEP, Pending, None)],
        [AgentCalled(query, sessionId, traceId), SessionSaved(sessionId)],
        Threw(AgentFailed(message)))
  }

  /** A run whose agent call answered `reply`. */
  function AnsweredRun(query: string, sessionId: Guid, traceId: string, reply: AgentReply,
                       rag: RagClient, tool: ToolExecutionClient): (r: Run)
    ensures |r.steps| == 2 + |reply.toolCalls| && |r.effects| == 3 + |reply.toolCalls|
    ensures r.steps[0] == StepSummary(AGENT_STEP, Success, Some(reply.json))
    ensures r.effects[0] == AgentCalled(query, sessionId, traceId)
    ensures r.effects[|r.effects| - 1] == SessionSaved(sessionId)
    ensures r.result.Returned? && |r.result.value.steps| == |r.steps|
  {
    var hints := reply.reasoningSummary.GetOr(query);
    var ragOutcome := rag(hints, traceId);
    var calls := ToolCalls(reply.toolCalls);
    Run([StepSummary(AGENT_STEP, Success, Some(reply.json)), Settled(RAG_STEP, ragOutcome)]
          + ToolSteps(calls, tool, traceId),
        [AgentCalled(query, sessionId, traceId), RagCalled(hints, traceId)]
          + ToolEffects(calls, traceId) + [SessionSaved(sessionId)],
        Returned(InvestigationResult(
          sessionId, traceId, reply.reasoningSummary.GetOr(NO_SUMMARY),
          [StepDto(AGENT_STEP, Success, Response(reply.json)), Reported(RAG_STEP, ragOutcome)]
            + ToolDtos(calls, tool, traceId))))
  }

  /** An answered run is the agent and RAG entries followed by the tool
      entries, with the save after the tool calls. */
  lemma AnsweredRunParts(query: string, sessionId: Guid, traceId: string, reply: AgentReply,
                         rag: RagClient, tool: ToolExecutionClient)
    ensures var run := AnsweredRun(query, sessionId, traceId, reply, rag, tool);
            var calls := ToolCalls(reply.toolCalls);
            var hints := reply.reasoningSummary.GetOr(query);
            && run.steps == [StepSummary(AGENT_STEP, Success, Some(reply.json)), Settled(RAG_STEP, rag(hints, traceId))]
                              + ToolSteps(calls, tool, traceId)
            && run.effects == [AgentCalled(query, sessionId, traceId), RagCalled(hints, traceId)]
                                + ToolEffects(calls, traceId) + [SessionSaved(sessionId)]
  {
  }

  /** When the agent answers, the run appends "AI Agent", then "RAG Service",
      then one step per listed tool call; it calls the agent, then RAG, then
      every listed tool, then saves. */
  lemma StepsFollowCallOrder(query: string, sessionId: Guid, traceId: string,
                             agent: AgentClient, rag: RagClient, tool: ToolExecutionClient)
    requires agent(query, sessionId, traceId).Ok?
    ensures var entries := agent(query, sessionId, traceId).value.toolCalls;
            var run := Investigation(query, sessionId, traceId, agent, rag, tool);
            && |run.steps| == 2 + |entries|
            && run.steps[0].name == AGENT_STEP
            && run.steps[1].name == RAG_STEP
            && |run.effects| == 3 + |entries|
            && run.effects[0] == AgentCalled(query, sessionId, traceId)
            && run.effects[1].RagCalled?
            && run.effects[2 + |entries|] == SessionSaved(sessionId)
  {
    var reply := agent(query, sessionId, traceId).value;
    assert Investigation(query, sessionId, traceId, agent, rag, tool) == AnsweredRun(query, sessionId, traceId, reply, rag, tool);
    AnsweredRunParts(query, sessionId, traceId, reply, rag, tool);
  }

  /** The i-th tool call the agent lists is the i-th tool executed, and leaves
      the i-th tool step, named "Tool:<name>" and settled by that call's
      outcome; the agent's order is kept. */
  lemma ToolStepFollowsCall(query: string, sessionId: Guid, traceId: string,
                            agent: AgentClient, rag: RagClient, tool: ToolExecutionClient, i: nat)
    requires agent(query, sessionId, traceId).Ok?
    requires i < |agent(query, sessionId, traceId).value.toolCalls|
    ensures var entry := agent(query, sessionId, traceId).value.toolCalls[i];
            var call := ToolCall(entry.toolName.GetOr(UNKNOWN_TOOL), entry.arguments);
            var run := Investigation(query, sessionId, traceId, agent, rag, tool);
            && 2 + i < |run.steps| && 2 + i < |run.effects|
            && run.effects[2 + i] == ToolExecuted(call, traceId)
            && run.steps[2 + i] == Settled(TOOL_STEP_PREFIX + call.toolName, tool(call, traceId))
  {
    var reply := agent(query, sessionId, traceId).value;
    var calls := ToolCalls(reply.toolCalls);
    assert Investigation(query, sessionId, traceId, agent, rag, tool) == AnsweredRun(query, sessionId, traceId, reply, rag, tool);
    AnsweredRunParts(query, sessionId, traceId, reply, rag, tool);
    assert calls[i] == ToolCallOf(reply.toolCalls[i]);
    assert ToolSteps(calls, tool, traceId)[i] == Settled(ToolStepName(calls[i]), tool(calls[i], traceId));
    assert ToolEffects(calls, traceId)[i] == ToolExecuted(calls[i], traceId);
  }

  /** A tool-call entry without a name is still executed, as "unknown", and
      recorded as "Tool:unknown". */
  lemma NamelessToolRunsAsUnknown(query: string, sessionId: Guid, traceId: string,
                                  agent: AgentClient, rag: RagClient, tool: ToolExecutionClient, i: nat)
    requires agent(query, sessionId, traceId).Ok?
    requires i < |agent(query, sessionId, traceId).value.toolCalls|
    requires agent(query, sessionId, traceId).value.toolCalls[i].toolName.None?
    ensures var entry := agent(query, sessionId, traceId).value.toolCalls[i];
            var run := Investigation(query, sessionId, traceId, agent, rag, tool);
            && 2 + i < |run.steps| && 2 + i < |run.effects|
            && run.effects[2 + i] == ToolExecuted(ToolCall("unknown", entry.arguments), traceId)
            && run.steps[2 + i].name == "Tool:unknown"
  {
    ToolStepFollowsCall(query, sessionId, traceId, agent, rag, tool, i);
    assert TOOL_STEP_PREFIX + UNKNOWN_TOOL == "Tool:unknown";
  }

  /** A failing RAG call fails only the RAG step, with the exception message;
      the run still returns a result. */
  lemma RagFailureIsIsolated(query: string, sessionId: Guid, traceId: string,
                             agent: AgentClient, rag: RagClient, tool: ToolExecutionClient)
    requires agent(query, sessionId, traceId).Ok?
    requires rag(agent(query, sessionId, traceId).value.reasoningSummary.GetOr(query), traceId).Err?
    ensures var message := rag(agent(query, sessionId, traceId).value.reasoningSummary.GetOr(query), traceId).message;
            var run := Investigation(query, sessionId, traceId, agent, rag, tool);
            && run.steps[0].status == Success
            && run.steps[1] == StepSummary(RAG_STEP, Failed, Some(message))
            && run.result.Returned?
            && run.result.value.steps[1] == StepDto(RAG_STEP, Failed, ErrorMessage(message))
  {
  }

  /** Whatever the RAG call does, the tool calls made and the tool steps
      recorded are the same. */
  lemma ToolsIndependentOfRag(query: string, sessionId: Guid, traceId: string,
                              agent: AgentClient, rag1: RagClient, rag2: RagClient, tool: ToolExecutionClient)
    requires agent(query, sessionId, traceId).Ok?
    ensures var run1 := Investigation(query, sessionId, traceId, agent, rag1, tool);
            var run2 := Investigation(query, sessionId, traceId, agent, rag2, tool);
            && run1.steps[2..] == run2.steps[2..]
            && run1.effects[2..] == run2.effects[2..]
            && run1.result.Returned? && run2.result.Returned?
  {
  }

  /** A failing tool call fails only its own step, with the exception
      message; every listed tool is still called (the later ones too, each
      recorded by its own outcome as the lemma above states), and the run still
      returns a result. */
  lemma ToolFailureIsIsolated(query: string, sessionId: Guid, traceId: string,
                              agent: AgentClient, rag: RagClient, tool: ToolExecutionClient, i: nat)
    requires agent(query, sessionId, traceId).Ok?
    requires i < |agent(query, sessionId, traceId).value.toolCalls|
    requires tool(ToolCallOf(agent(query, sessionId, traceId).value.toolCalls[i]), traceId).Err?
    ensures var entries := agent(query, sessionId, traceId).value.toolCalls;
            var call := ToolCallOf(entries[i]);
            var run := Investigation(query, sessionId, traceId, agent, rag, tool);
            && 2 + i < |run.steps|
            && run.steps[2 + i] == StepSummary(TOOL_STEP_PREFIX + call.toolName, Failed, Some(tool(call, traceId).message))
            && |run.effects| == 3 + |entries|
            && run.result.Returned?
  {
    ToolStepFollowsCall(query, sessionId, traceId, agent, rag, tool, i);
    StepsFollowCallOrder(query, sessionId, traceId, agent, rag, tool);
  }

  /** A failing agent call ends the run: no RAG or tool call is made, the
      session is saved once with its agent step still Pending, and the
      exception is rethrown. */
  lemma AgentFailureAborts(query: string, sessionId: Guid, traceId: string,
                           agent: AgentClient, rag: RagClient, tool: ToolExecutionClient)
    requires agent(query, sessionId, traceId).Err?
    ensures var run := Investigation(query, sessionId, traceId, agent, rag, tool);
            && run.steps == [StepSummary(AGENT_STEP, Pending, None)]
            && run.effects == [AgentCalled(query, sessionId, traceId), SessionSaved(sessionId)]
            && run.result == Threw(AgentFailed(agent(query, sessionId, traceId).message))
  {
  }

  /** On both paths the agent is called exactly once, first, and the session is
      saved exactly once, last. */
  lemma CalledOnceSavedOnce(query: string, sessionId: Guid, traceId: string,
                            agent: AgentClient, rag: RagClient, tool: ToolExecutionClient)
    ensures var effects := Investigation(query, sessionId, traceId, agent, rag, tool).effects;
            && |effects| >= 2
            && effects[0] == AgentCalled(query, sessionId, traceId)
            && effects[|effects| - 1] == SessionSaved(sessionId)
            && (forall i :: 0 < i < |effects| ==> !effects[i].AgentCalled?)
            && (forall i :: 0 <= i < |effects| - 1 ==> !effects[i].SessionSaved?)
  {
    var run := Investigation(query, sessionId, traceId, agent, rag, tool);
    if agent(query, sessionId, traceId).Ok? {
      var reply := agent(query, sessionId, traceId).value;
      var middle := ToolEffects(ToolCalls(reply.toolCalls), traceId);
      forall i | 2 <= i < |run.effects| - 1
        ensures run.effects[i] == ToolExecuted(ToolCalls(reply.toolCalls)[i - 2], traceId)
      {
        assert run.effects[i] == middle[i - 2];
      }
    }
  }

  /** RAG is asked with the agent's reasoning summary, or the query when there
      is none; the returned summary is the reasoning summary, or "No summary". */
  lemma SummaryFallbacks(query: string, sessionId: Guid, traceId: string,
                         agent: AgentClient, rag: RagClient, tool: ToolExecutionClient)
    requires agent(query, sessionId, traceId).Ok?
    ensures var reply := agent(query, sessionId, traceId).value;
            var run := Investigation(query, sessionId, traceId, agent, rag, tool);
            && run.effects[1] == RagCalled(if reply.reasoningSummary.Some? then reply.reasoningSummary.value else query, traceId)
            && run.result.Returned?
            && run.result.value.summary == (if reply.reasoningSummary.Some? then reply.reasoningSummary.value else "No summary")
            && run.result.value.sessionId == sessionId
            && run.result.value.traceId == traceId
  {
  }

  /** A returned entry mirrors a settled session step: same name and status,
      carrying the response of a successful call or the message of a failed one. */
  predicate Mirrors(step: StepSummary, dto: StepDto) {
    && step.status != Pending
    && step.details.Some?
    && dto.name == step.name
    && dto.status == step.status
    && dto.payload == (if step.status == Success then Response(step.details.value)
                       else ErrorMessage(step.details.value))
  }

  /** The step and the summary entry one finished call leaves agree. */
  lemma SettledIsMirrored(name: string, outcome: Outcome<Json>)
    ensures Mirrors(Settled(name, outcome), Reported(name, outcome))
  {
  }

  /** On success every appended step is settled, and the returned list has one
      entry per step, with the same name and status, carrying the response of a
      successful call or the message of a failed one. */
  lemma ResultMirrorsSteps(query: string, sessionId: Guid, traceId: string,
                           agent: AgentClient, rag: RagClient, tool: ToolExecutionClient)
    requires agent(query, sessionId, traceId).Ok?
    ensures var run := Investigation(query, sessionId, traceId, agent, rag, tool);
            && run.result.Returned?
            && |run.result.value.steps| == |run.steps|
            && forall i :: 0 <= i < |run.steps| ==> Mirrors(run.steps[i], run.result.value.steps[i])
  {
    var reply := agent(query, sessionId, traceId).value;
    var run := AnsweredRun(query, sessionId, traceId, reply, rag, tool);
    var calls := ToolCalls(reply.toolCalls);
    forall i | 0 <= i < |run.steps|
      ensures Mirrors(run.steps[i], run.result.value.steps[i])
    {
      if i == 1 {
        SettledIsMirrored(RAG_STEP, rag(reply.reasoningSummary.GetOr(query), traceId));
      } else if i >= 2 {
        assert run.steps[i] == ToolSteps(calls, tool, traceId)[i - 2];
        assert run.result.value.steps[i] == ToolDtos(calls, tool, traceId)[i - 2];
        SettledIsMirrored(ToolStepName(calls[i - 2]), tool(calls[i - 2], traceId));
      }
    }
  }

  /** The steps of `history` from position `from` on are the run's steps:
      each consistent, summarised as `steps` says, in that order. */
  ghost predicate RecordsRun(history: seq<InvestigationStep>, from: nat, steps: seq<StepSummary>)
    reads history
  {
    && |history| == from + |steps|
    && forall j :: from <= j < |history| ==>
         && history[j].Valid()
         && history[j].Summary() == steps[j - from]
  }

  /** A history records a run from `from` on when its entry at `from` records
      the run's first step and the rest records the others. */
  lemma RecordsRunExtend(history: seq<InvestigationStep>, from: nat, steps: seq<StepSummary>)
    requires |steps| > 0 && from < |history|
    requires history[from].Valid() && history[from].Summary() == steps[0]
    requires RecordsRun(history, from + 1, steps[1..])
    ensures RecordsRun(history, from, steps)
  {
  }

  /** The orchestration service with its collaborators. */
  class InvestigationOrchestratorService {
    const agentClient: AgentClient
    const ragClient: RagClient
    const toolClient: ToolExecutionClient
    const sessionRepository: InMemorySessionRepository

    constructor (agentClient: AgentClient, ragClient: RagClient, toolClient: ToolExecutionClient,
                 sessionRepository: InMemorySessionRepository)
      ensures this.agentClient == agentClient && this.ragClient == ragClient
      ensures this.toolClient == toolClient && this.sessionRepository == sessionRepository
    {
      this.agentClient := agentClient;
      this.ragClient := ragClient;
      this.toolClient := toolClient;
      this.sessionRepository := sessionRepository;
    }

    /** One guarded call of a run (the RAG call, or one tool call): a new
        step named `name` is appended and settled by the call's `outcome`,
        Success with the response or Failed with the exception message, which
        is recorded rather than thrown; the matching summary entry is returned. */
    method RecordCall(session: InvestigationSession, name: string, outcome: Outcome<Json>, stepId: Guid, now: Timestamp)
      returns (dto: StepDto)
      modifies session
      ensures session.status == old(session.status)
      ensures |session.steps| == |old(session.steps)| + 1
      ensures session.steps[..|old(session.steps)|] == old(session.steps)
      ensures var step := session.steps[|old(session.steps)|];
              && step.Valid()
              && step.Summary() == Settled(name, outcome)
      ensures dto == Reported(name, outcome)
    {
      var step := new InvestigationStep(stepId, name, now);
      session.AddStep(step);
      match outcome {
        case Ok(response) =>
          step.MarkSuccess(Some(response), now);
        case Err(message) =>
          step.MarkFailed(Some(message), now);
      }
      dto := Reported(name, outcome);
    }

    /** The tool phase of a run (the loop over the agent's tool calls): each
        call in the agent's order gets its own step appended to `session`,
        with id `newGuid(3 + i)` for the i-th call, and a failing call is
        recorded on its step while the loop goes on. */
    method ExecuteTools(session: InvestigationSession, toolCalls: seq<ToolCallEntry>, traceId: string,
                        newGuid: nat -> Guid, now: Timestamp)
      returns (steps: seq<StepDto>, effects: seq<Effect>)
      modifies session
      ensures session.status == old(session.status)
      ensures |session.steps| == |old(session.steps)| + |toolCalls|
      ensures session.steps[..|old(session.steps)|] == old(session.steps)
      ensures RecordsRun(session.steps, |old(session.steps)|, ToolSteps(ToolCalls(toolCalls), toolClient, traceId))
      ensures steps == ToolDtos(ToolCalls(toolCalls), toolClient, traceId)
      ensures effects == ToolEffects(ToolCalls(toolCalls), traceId)
    {
      ghost var calls := ToolCalls(toolCalls);
      ghost var before := session.steps;
      steps, effects := [], [];
      var i := 0;
      while i < |toolCalls|
        invariant 0 <= i <= |toolCalls|
        invariant |session.steps| == |before| + i
        invariant session.steps[..|before|] == before
        invariant session.status == old(session.status)
        invariant forall j :: |before| <= j < |session.steps| ==>
                    && session.steps[j].Valid()
                    && session.steps[j].Summary() == ToolSteps(calls, toolClient, traceId)[j - |before|]
        invariant steps == ToolDtos(calls, toolClient, traceId)[..i]
        invariant effects == ToolEffects(calls, traceId)[..i]
      {
        var call := ToolCallOf(toolCalls[i]);
        var dto := RecordCall(session, ToolStepName(call), toolClient(call, traceId), newGuid(3 + i), now);
        steps := steps + [dto];
        effects := effects + [ToolExecuted(call, traceId)];
        assert calls[i] == call;
        assert ToolDtos(calls, toolClient, traceId)[..i + 1] == ToolDtos(calls, toolClient, traceId)[..i] + [ToolDtos(calls, toolClient, traceId)[i]];
        assert ToolEffects(calls, traceId)[..i + 1] == ToolEffects(calls, traceId)[..i] + [ToolEffects(calls, traceId)[i]];
        i := i + 1;
      }
    }

    /** One investigation run. `parse` is `Guid.Parse`; `newGuid(0)` is the
        fresh session id and `newGuid(k)` for k > 0 the id of the k-th step of
        the run; every clock reading is `now`. The session loaded, or created
        when none is stored under the run's id, gets the run's steps appended
        after any it already had, and is the one stored under that id
        afterwards; no other stored session changes. */
    method RunInvestigation(query: string, sessionId: Option<string>, traceId: string,
                            parse: string -> Option<Guid>, newGuid: nat -> Guid, now: Timestamp)
      returns (result: Result<InvestigationResult, Error>, effects: seq<Effect>)
      requires sessionRepository.Valid()
      modifies sessionRepository, sessionRepository.store.Values
      ensures sessionRepository.Valid()
      ensures ResolveSessionId(sessionId, newGuid(0), parse).Threw? ==>
                && result == Threw(ResolveSessionId(sessionId, newGuid(0), parse).error)
                && effects == []
                && sessionRepository.store == old(sessionRepository.store)
                && forall s :: s in old(sessionRepository.store.Values) ==> unchanged(s)
      ensures ResolveSessionId(sessionId, newGuid(0), parse).Returned? ==>
                var id := ResolveSessionId(sessionId, newGuid(0), parse).value;
                var run := Investigation(query, id, traceId, agentClient, ragClient, toolClient);
                var prior := if id in old(sessionRepository.store) then old(sessionRepository.store[id].steps) else [];
                && result == run.result
                && effects == run.effects
                && id in sessionRepository.store
                && var session := sessionRepository.store[id];
                   && sessionRepository.store == old(sessionRepository.store)[id := session]
                   && (id in old(sessionRepository.store) ==>
                         session == old(sessionRepository.store[id]) && session.status == old(session.status))
                   && (id !in old(sessionRepository.store) ==>
                         fresh(session) && session.owner == None && session.status == Active)
                   && RecordsRun(session.steps, |prior|, run.steps)
                   && session.steps[..|prior|] == prior
                   && forall s :: s in old(sessionRepository.store.Values) && s != session ==> unchanged(s)
    {
      var resolved := ResolveSessionId(sessionId, newGuid(0), parse);
      if resolved.Threw? {
        return Threw(resolved.error), [];
      }
      var id := resolved.value;

      // Load or create the session.
      var loaded := sessionRepository.Get(id);
      var session: InvestigationSession;
      if loaded.Some? {
        session := loaded.value;
      } else {
        session := new InvestigationSession(id, None, now);
      }
      result, effects := RunInSession(session, query, traceId, newGuid, now);
    }

    /** A run in a loaded or newly created session: the agent call with its
        step, then, if the agent answered, the rest of the run. */
    method RunInSession(session: InvestigationSession, query: string, traceId: string,
                        newGuid: nat -> Guid, now: Timestamp)
      returns (result: Result<InvestigationResult, Error>, effects: seq<Effect>)
      requires sessionRepository.Valid()
      modifies sessionRepository, session
      ensures sessionRepository.Valid()
      ensures var run := Investigation(query, session.id, traceId, agentClient, ragClient, toolClient);
              && result == run.result
              && effects == run.effects
              && sessionRepository.store == old(sessionRepository.store)[session.id := session]
              && session.status == old(session.status)
              && RecordsRun(session.steps, |old(session.steps)|, run.steps)
              && session.steps[..|old(session.steps)|] == old(session.steps)
    {
      // 1) The agent call; its failure ends the run.
      var stepAgent := new InvestigationStep(newGuid(1), AGENT_STEP, now);
      session.AddStep(stepAgent);
      var agentOutcome := agentClient(query, session.id, traceId);
      match agentOutcome {
        case Err(message) =>
          // The handler saves and rethrows; the agent step is not marked.
          assert Investigation(query, session.id, traceId, agentClient, ragClient, toolClient)
              == AbortedRun(query, session.id, traceId, message);
          sessionRepository.Save(session);
          result := Threw(AgentFailed(message));
          effects := [AgentCalled(query, session.id, traceId), SessionSaved(session.id)];
        case Ok(reply) =>
          assert Investigation(query, session.id, traceId, agentClient, ragClient, toolClient)
              == AnsweredRun(query, session.id, traceId, reply, ragClient, toolClient);
          ghost var prior := old(session.steps);
          result, effects := AnsweredInSession(session, stepAgent, query, traceId, reply, newGuid, now);
          assert session.steps[..|prior|] == (prior + [stepAgent])[..|prior|];
      }
    }

    /** A run whose agent call answered `reply`, from the point where the
        agent step, the session's last step, is marked successful. */
    method AnsweredInSession(session: InvestigationSession, stepAgent: InvestigationStep, query: string,
                             traceId: string, reply: AgentReply, newGuid: nat -> Guid, now: Timestamp)
      returns (result: Result<InvestigationResult, Error>, effects: seq<Effect>)
      requires sessionRepository.Valid()
      requires |session.steps| > 0 && session.steps[|session.steps| - 1] == stepAgent
      requires stepAgent.name == AGENT_STEP
      modifies sessionRepository, session, stepAgent
      ensures sessionRepository.Valid()
      ensures var run := AnsweredRun(query, session.id, traceId, reply, ragClient, toolClient);
              var from := |old(session.steps)| - 1;
              && result == run.result
              && effects == run.effects
              && sessionRepository.store == old(sessionRepository.store)[session.id := session]
              && session.status == old(session.status)
              && RecordsRun(session.steps, from, run.steps)
              && session.steps[..from] == old(session.steps)[..from]
    {
      stepAgent.MarkSuccess(Some(reply.json), now);
      ghost var run := AnsweredRun(query, session.id, traceId, reply, ragClient, toolClient);
      ghost var afterAgent := session.steps;
      ghost var from := |afterAgent| - 1;
      var moreEffects;
      result, moreEffects := ContinueInvestigation(session, query, traceId, reply, newGuid, now);
      effects := [AgentCalled(query, session.id, traceId)] + moreEffects;
      assert session.steps[..|afterAgent|] == afterAgent;
      assert session.steps[from] == stepAgent;
      AnsweredRunParts(query, session.id, traceId, reply, ragClient, toolClient);
      assert run.steps[1..] == [run.steps[1]] + ToolSteps(ToolCalls(reply.toolCalls), toolClient, traceId);
      RecordsRunExtend(session.steps, from, run.steps);
      assert session.steps[..from] == afterAgent[..from];
    }

    /** The rest of a run once the agent answered `reply`: the RAG call and
        the tool calls with their steps, the save, and the aggregated result,
        whose step list starts with the agent's entry. */
    method ContinueInvestigation(session: InvestigationSession, query: string, traceId: string,
                                 reply: AgentReply, newGuid: nat -> Guid, now: Timestamp)
      returns (result: Result<InvestigationResult, Error>, effects: seq<Effect>)
      requires sessionRepository.Valid()
      modifies sessionRepository, session
      ensures sessionRepository.Valid()
      ensures var hints := reply.reasoningSummary.GetOr(query);
              var ragOutcome := ragClient(hints, traceId);
              var calls := ToolCalls(reply.toolCalls);
              && result == Returned(InvestigationResult(
                   session.id, traceId, reply.reasoningSummary.GetOr(NO_SUMMARY),
                   [StepDto(AGENT_STEP, Success, Response(reply.json)), Reported(RAG_STEP, ragOutcome)]
                     + ToolDtos(calls, toolClient, traceId)))
              && effects == [RagCalled(hints, traceId)] + ToolEffects(calls, traceId) + [SessionSaved(session.id)]
              && sessionRepository.store == old(sessionRepository.store)[session.id := session]
              && session.status == old(session.status)
              && RecordsRun(session.steps, |old(session.steps)|, [Settled(RAG_STEP, ragOutcome)] + ToolSteps(calls, toolClient, traceId))
              && session.steps[..|old(session.steps)|] == old(session.steps)
    {
      var hints := reply.reasoningSummary.GetOr(query);
      var steps;
      steps, effects := CallServices(session, hints, reply.toolCalls, traceId, newGuid, now);

      // Persist the session, then aggregate.
      sessionRepository.Save(session);
      effects := effects + [SessionSaved(session.id)];
      var summary := reply.reasoningSummary.GetOr(NO_SUMMARY);
      var agentDto := StepDto(AGENT_STEP, Success, Response(reply.json));
      result := Returned(InvestigationResult(session.id, traceId, summary, [agentDto] + steps));
      ghost var dtos := ToolDtos(ToolCalls(reply.toolCalls), toolClient, traceId);
      assert [agentDto] + steps == [agentDto, Reported(RAG_STEP, ragClient(hints, traceId))] + dtos;
    }

    /** The RAG call, asked with `hints`, then the tool calls, each recorded
        on a new step of `session`; returns their summary entries and the
        calls made. */
    method CallServices(session: InvestigationSession, hints: string, toolCalls: seq<ToolCallEntry>,
                        traceId: string, newGuid: nat -> Guid, now: Timestamp)
      returns (steps: seq<StepDto>, effects: seq<Effect>)
      modifies session
      ensures var ragOutcome := ragClient(hints, traceId);
              var calls := ToolCalls(toolCalls);
              && steps == [Reported(RAG_STEP, ragOutcome)] + ToolDtos(calls, toolClient, traceId)
              && effects == [RagCalled(hints, traceId)] + ToolEffects(calls, traceId)
              && session.status == old(session.status)
              && RecordsRun(session.steps, |old(session.steps)|, [Settled(RAG_STEP, ragOutcome)] + ToolSteps(calls, toolClient, traceId))
              && session.steps[..|old(session.steps)|] == old(session.steps)
    {
      // 2) The RAG call; its failure is recorded and the run goes on.
      var ragStep := RecordCall(session, RAG_STEP, ragClient(hints, traceId), newGuid(2), now);
      ghost var head := session.steps;

      // 3) The tool calls.
      var toolSteps, toolEffects := ExecuteTools(session, toolCalls, traceId, newGuid, now);
      steps := [ragStep] + toolSteps;
      effects := [RagCalled(hints, traceId)] + toolEffects;
      assert session.steps[..|head|] == head;
      ghost var recorded := [Settled(RAG_STEP, ragClient(hints, traceId))] + ToolSteps(ToolCalls(toolCalls), toolClient, traceId);
      assert recorded[1..] == ToolSteps(ToolCalls(toolCalls), toolClient, traceId);
      RecordsRunExtend(session.steps, |old(session.steps)|, recorded);
    }
  }
}
