/** The request-validating orchestrator: one call checks that the request names
    a query, a case and a user, asks the AI agent once, turns the actions the
    agent suggests into pending tool calls, marks a new session completed,
    saves it, and answers with a "Success" response. A validation or agent
    exception is rethrown and nothing is saved. */
module Orchestration {
  import opened Common
  import opened Domain
  import opened SessionStore

  const SUCCESS_STATUS := "Success"
  const PENDING_STATUS := "Pending"
  const DEFAULT_SUMMARY := "Analysis completed"
  const INSIGHT := "Investigation performed"

  /** An investigation request. Every field may be null when the request
      reaches the orchestrator; the context dictionary is carried, never read. */
  datatype InvestigationRequest = InvestigationRequest(
    traceId: Option<string>,
    caseId: Option<string>,
    query: Option<string>,
    context: Option<map<string, Json>>,
    userId: Option<string>)

  /** The exceptions a call lets escape: an `ArgumentException` naming the
      missing parameter, and the agent call's own exception, rethrown. */
  datatype Error = ArgumentError(paramName: string, message: string) | AgentFailed(message: string)

  /** The anonymous metadata object of a tool call: the action's tool name and
      its input. */
  datatype ToolCallMetadata = ToolCallMetadata(action: string, input: Option<Json>)
  datatype ToolCallDto = ToolCallDto(toolName: string, status: string, durationMs: int, metadata: ToolCallMetadata)

  /** The anonymous result object `{ insight = ... }`. */
  datatype Insight = Insight(insight: string)

  datatype InvestigationResponse = InvestigationResponse(
    traceId: string,
    caseId: string,
    status: string,
    summary: string,
    result: Option<Insight>,
    toolCalls: seq<ToolCallDto>,
    durationMs: int,
    timestampUtc: Timestamp)

  /** The AI agent as the outcome of a call with (query, case id, trace id);
      the response it returns may itself be null. */
  type AiAgentClient = (string, string, string) -> Outcome<Option<AgentResponse>>

  /** What a call does to the outside world, in order. */
  datatype Effect =
    | AgentInvoked(query: string, caseId: string, traceId: string)
    | SessionSaved(sessionId: Guid)

  /** The required fields, in the order they are checked, with the parameter
      name an `ArgumentException` reports for each. */
  function RequiredFields(request: InvestigationRequest): seq<(string, Option<string>)> {
    [("Query", request.query), ("CaseId", request.caseId), ("UserId", request.userId)]
  }

  /** The exception validation throws, if any: the first required field that is
      null or whitespace, named in the exception, with the message
      "<field> is required". */
  function ValidateRequest(request: InvestigationRequest): (r: Option<Error>)
    ensures r.None? <==>
              forall k :: 0 <= k < |RequiredFields(request)| ==> !IsNullOrWhiteSpace(RequiredFields(request)[k].1)
    ensures r.Some? ==>
              exists k :: 0 <= k < |RequiredFields(request)|
                && IsNullOrWhiteSpace(RequiredFields(request)[k].1)
                && (forall j :: 0 <= j < k ==> !IsNullOrWhiteSpace(RequiredFields(request)[j].1))
                && r.value == ArgumentError(RequiredFields(request)[k].0, RequiredFields(request)[k].0 + " is required")
    ensures r.None? ==> request.query.Some? && request.caseId.Some? && request.userId.Some?
  {
    var fields := RequiredFields(request);
    if IsNullOrWhiteSpace(request.query) then
      assert IsNullOrWhiteSpace(fields[0].1) && fields[0].0 + " is required" == "Query is required";
      Some(ArgumentError("Query", "Query is required"))
    else if IsNullOrWhiteSpace(request.caseId) then
      assert IsNullOrWhiteSpace(fields[1].1) && fields[1].0 + " is required" == "CaseId is required";
      Some(ArgumentError("CaseId", "CaseId is required"))
    else if IsNullOrWhiteSpace(request.userId) then
      assert IsNullOrWhiteSpace(fields[2].1) && fields[2].0 + " is required" == "UserId is required";
      Some(ArgumentError("UserId", "UserId is required"))
    else
      None
  }

  /** The tool call an action maps to: planned, not run. */
  function PendingToolCall(action: AgentAction): ToolCallDto {
    ToolCallDto(action.toolName, PENDING_STATUS, 0, ToolCallMetadata(action.toolName, action.input))
  }

  /** The list the `foreach` builds, one entry appended per action. */
  function PendingList(actions: seq<AgentAction>): (calls: seq<ToolCallDto>)
    ensures |calls| == |actions|
    ensures forall i :: 0 <= i < |actions| ==>
              && calls[i].toolName == actions[i].toolName
              && calls[i].status == PENDING_STATUS
              && calls[i].durationMs == 0
              && calls[i].metadata == ToolCallMetadata(actions[i].toolName, actions[i].input)
  {
    if |actions| == 0 then []
    else PendingList(actions[..|actions| - 1]) + [PendingToolCall(actions[|actions| - 1])]
  }

  /** The tool calls of a response: none for a null or empty action list. */
  function PendingToolCalls(actions: Option<seq<AgentAction>>): seq<ToolCallDto> {
    if actions.None? || |actions.value| == 0 then [] else PendingList(actions.value)
  }

  /** The tool-call list of the response, built by a loop over the actions. */
  method MapActionsToToolCalls(actions: Option<seq<AgentAction>>) returns (toolCalls: seq<ToolCallDto>)
    ensures toolCalls == PendingToolCalls(actions)
    ensures actions.None? ==> toolCalls == []
    ensures actions.Some? ==> |toolCalls| == |actions.value|
  {
    toolCalls := [];
    if actions.None? || |actions.value| == 0 {
      return;
    }
    var list := actions.value;
    var i := 0;
    while i < |list|
      invariant 0 <= i <= |list|
      invariant toolCalls == PendingList(list[..i])
    {
      assert list[..i + 1][..i] == list[..i];
      toolCalls := toolCalls + [PendingToolCall(list[i])];
      i := i + 1;
    }
    assert list[..i] == list;
  }

  /** `resp?.ReasoningSummary ?? resp?.Reasoning ?? "Analysis completed"`. */
  function Summary(response: Option<AgentResponse>): (s: string)
    ensures response.Some? && response.value.reasoningSummary.Some? ==> s == response.value.reasoningSummary.value
    ensures response.Some? && response.value.reasoningSummary.None? && response.value.reasoning.Some? ==>
              s == response.value.reasoning.value
    ensures response.None? || (response.value.reasoningSummary.None? && response.value.reasoning.None?) ==>
              s == DEFAULT_SUMMARY
  {
    match response
    case None => DEFAULT_SUMMARY
    case Some(r) => r.reasoningSummary.GetOr(r.reasoning.GetOr(DEFAULT_SUMMARY))
  }

  /** The actions of a possibly null response. */
  function ActionsOf(response: Option<AgentResponse>): Option<seq<AgentAction>> {
    match response
    case None => None
    case Some(r) => r.actions
  }

  /** The response built from a validated request and the agent's answer;
      `durationMs` is the stopwatch reading and `now` the clock reading. */
  function Answer(request: InvestigationRequest, response: Option<AgentResponse>,
                  durationMs: int, now: Timestamp): (r: InvestigationResponse)
    requires request.caseId.Some?
    ensures r.traceId == request.traceId.GetOr("") && r.caseId == request.caseId.value
    ensures r.status == SUCCESS_STATUS && r.durationMs == durationMs && r.timestampUtc == now
    ensures r.summary == Summary(response)
    ensures r.result.Some? <==> response.Some?
    ensures forall i :: 0 <= i < |r.toolCalls| ==> r.toolCalls[i].status == PENDING_STATUS
    ensures ActionsOf(response).None? ==> r.toolCalls == []
    ensures ActionsOf(response).Some? ==>
              && |r.toolCalls| == |ActionsOf(response).value|
              && forall i :: 0 <= i < |r.toolCalls| ==> r.toolCalls[i] == PendingToolCall(ActionsOf(response).value[i])
  {
    InvestigationResponse(
      request.traceId.GetOr(""),
      request.caseId.value,
      SUCCESS_STATUS,
      Summary(response),
      if response.Some? then Some(Insight(INSIGHT)) else None,
      PendingToolCalls(ActionsOf(response)),
      durationMs,
      now)
  }

  /** Everything one call decides: what it returns or throws and what it does
      to the outside world. */
  datatype Run = Run(result: Result<InvestigationResponse, Error>, effects: seq<Effect>)

  /** The specification of a call; `sessionId` is the fresh session identifier. */
  function Investigation(request: InvestigationRequest, agent: AiAgentClient, sessionId: Guid,
                         durationMs: int, now: Timestamp): (r: Run)
    ensures ValidateRequest(request).Some? ==> r == Run(Threw(ValidateRequest(request).value), [])
    ensures ValidateRequest(request).None? ==>
              |r.effects| >= 1 && r.effects[0] == AgentInvoked(request.query.value, request.caseId.value, request.traceId.GetOr(""))
    ensures SessionSaved(sessionId) in r.effects <==> r.result.Returned?
  {
    match ValidateRequest(request)
    case Some(error) => Run(Threw(error), [])
    case None =>
      var traceId := request.traceId.GetOr("");
      var call := AgentInvoked(request.query.value, request.caseId.value, traceId);
      match agent(request.query.value, request.caseId.value, traceId)
      case Err(message) => Run(Threw(AgentFailed(message)), [call])
      case Ok(response) => Run(Returned(Answer(request, response, durationMs, now)), [call, SessionSaved(sessionId)])
  }

  /** An invalid request is rejected with its validation exception before the
      agent is called or anything is saved. */
  lemma ValidationPrecedesCalls(request: InvestigationRequest, agent: AiAgentClient, sessionId: Guid,
                                durationMs: int, now: Timestamp)
    requires !IsNullOrWhiteSpace(request.query) ==> IsNullOrWhiteSpace(request.caseId) || IsNullOrWhiteSpace(request.userId)
    ensures var run := Investigation(request, agent, sessionId, durationMs, now);
            && run.effects == []
            && run.result.Threw?
            && run.result.error.ArgumentError?
            && run.result.error.message == run.result.error.paramName + " is required"
  {
  }

  /** A null or whitespace query is reported first, whatever else is missing. */
  lemma QueryCheckedFirst(request: InvestigationRequest)
    requires IsNullOrWhiteSpace(request.query)
    ensures ValidateRequest(request) == Some(ArgumentError("Query", "Query is required"))
  {
  }

  /** A valid request calls the agent exactly once, first, with the query, the
      case id and the trace id (empty when absent). */
  lemma AgentCalledOnce(request: InvestigationRequest, agent: AiAgentClient, sessionId: Guid,
                        durationMs: int, now: Timestamp)
    requires ValidateRequest(request).None?
    ensures var effects := Investigation(request, agent, sessionId, durationMs, now).effects;
            && |effects| >= 1
            && effects[0] == AgentInvoked(request.query.value, request.caseId.value, request.traceId.GetOr(""))
            && forall i :: 0 < i < |effects| ==> !effects[i].AgentInvoked?
  {
  }

  /** The session is saved exactly once, last, when a response is returned, and
      never when an exception escapes. */
  lemma SavedOnlyOnSuccess(request: InvestigationRequest, agent: AiAgentClient, sessionId: Guid,
                           durationMs: int, now: Timestamp)
    ensures var run := Investigation(request, agent, sessionId, durationMs, now);
            && (run.result.Returned? ==>
                  && |run.effects| >= 1
                  && run.effects[|run.effects| - 1] == SessionSaved(sessionId)
                  && forall i :: 0 <= i < |run.effects| - 1 ==> !run.effects[i].SessionSaved?)
            && (run.result.Threw? ==> forall i :: 0 <= i < |run.effects| ==> !run.effects[i].SessionSaved?)
  {
  }

  /** A returned response carries the request's trace id (empty when absent)
      and case id, the status "Success", the call's duration and completion
      time, and one pending tool call per action of the agent's reply, in order. */
  lemma ResponseEchoesRequest(request: InvestigationRequest, agent: AiAgentClient, sessionId: Guid,
                              durationMs: int, now: Timestamp)
    requires Investigation(request, agent, sessionId, durationMs, now).result.Returned?
    ensures var response := Investigation(request, agent, sessionId, durationMs, now).result.value;
            && request.caseId.Some?
            && response.traceId == (if request.traceId.Some? then request.traceId.value else "")
            && response.caseId == request.caseId.value
            && response.status == "Success"
            && response.durationMs == durationMs
            && response.timestampUtc == now
            && (forall i :: 0 <= i < |response.toolCalls| ==> response.toolCalls[i].status == "Pending")
            && request.query.Some?
            && agent(request.query.value, request.caseId.value, request.traceId.GetOr("")).Ok?
            && var actions := ActionsOf(agent(request.query.value, request.caseId.value, request.traceId.GetOr("")).value);
               && (actions.None? ==> response.toolCalls == [])
               && (actions.Some? ==>
                     && |response.toolCalls| == |actions.value|
                     && forall i :: 0 <= i < |actions.value| ==> response.toolCalls[i] == PendingToolCall(actions.value[i]))
  {
  }

  /** The summary is the agent's reasoning summary, else its reasoning, else
      "Analysis completed"; the result object is present exactly when the agent
      returned a response. */
  lemma SummaryFallbacks(request: InvestigationRequest, agent: AiAgentClient, sessionId: Guid,
                         durationMs: int, now: Timestamp)
    requires ValidateRequest(request).None?
    requires agent(request.query.value, request.caseId.value, request.traceId.GetOr("")).Ok?
    ensures var response := agent(request.query.value, request.caseId.value, request.traceId.GetOr("")).value;
            var result := Investigation(request, agent, sessionId, durationMs, now).result;
            && result.Returned?
            && result.value.summary ==
                 (if response.Some? && response.value.reasoningSummary.Some? then response.value.reasoningSummary.value
                  else if response.Some? && response.value.reasoning.Some? then response.value.reasoning.value
                  else "Analysis completed")
            && (result.value.result.Some? <==> response.Some?)
            && (result.value.result.Some? ==> result.value.result.value.insight == "Investigation performed")
  {
  }

  /** An agent failure is rethrown after the single agent call; nothing is saved. */
  lemma AgentFailureRethrown(request: InvestigationRequest, agent: AiAgentClient, sessionId: Guid,
                             durationMs: int, now: Timestamp)
    requires ValidateRequest(request).None?
    requires agent(request.query.value, request.caseId.value, request.traceId.GetOr("")).Err?
    ensures var run := Investigation(request, agent, sessionId, durationMs, now);
            && run.result == Threw(AgentFailed(agent(request.query.value, request.caseId.value, request.traceId.GetOr("")).message))
            && run.effects == [AgentInvoked(request.query.value, request.caseId.value, request.traceId.GetOr(""))]
  {
  }

  /** No actions, or an empty action list, give no tool calls; otherwise the
      tool calls follow the actions one for one, in order. */
  lemma ToolCallsFollowActions(actions: Option<seq<AgentAction>>)
    ensures actions.None? || |actions.value| == 0 ==> PendingToolCalls(actions) == []
    ensures actions.Some? ==>
              && |PendingToolCalls(actions)| == |actions.value|
              && forall i :: 0 <= i < |actions.value| ==> PendingToolCalls(actions)[i] == PendingToolCall(actions.value[i])
  {
  }

  /** A request with trace "trace-123", case "case-456", a query and a user,
      answered with summary "Test summary" and the single action
      "search_documents", yields a "Success" response for "trace-123" with that
      summary and exactly one tool call, named "search_documents". */
  lemma SingleSearchAction(agent: AiAgentClient, sessionId: Guid, durationMs: int, now: Timestamp, input: Option<Json>)
    requires agent("Find evidence of fraud", "case-456", "trace-123")
               == Ok(Some(AgentResponse(Some("Test reasoning"), Some("Test summary"),
                                        Some([AgentAction("search_documents", input)]))))
    ensures var request := InvestigationRequest(Some("trace-123"), Some("case-456"),
                                                Some("Find evidence of fraud"), None, Some("user-789"));
            var run := Investigation(request, agent, sessionId, durationMs, now);
            && run.result.Returned?
            && run.result.value.traceId == "trace-123"
            && run.result.value.status == "Success"
            && run.result.value.summary == "Test summary"
            && |run.result.value.toolCalls| == 1
            && run.result.value.toolCalls[0].toolName == "search_documents"
  {
    var request := InvestigationRequest(Some("trace-123"), Some("case-456"),
                                        Some("Find evidence of fraud"), None, Some("user-789"));
    assert !IsWhiteSpace(request.query.value[0]);
    assert !IsWhiteSpace(request.caseId.value[0]);
    assert !IsWhiteSpace(request.userId.value[0]);
  }

  /** A request whose query is null is rejected with an argument exception
      and nothing else happens. */
  lemma NullQueryRejected(agent: AiAgentClient, sessionId: Guid, durationMs: int, now: Timestamp)
    ensures var request := InvestigationRequest(None, Some("case-456"), None, None, Some("user-789"));
            Investigation(request, agent, sessionId, durationMs, now)
              == Run(Threw(ArgumentError("Query", "Query is required")), [])
  {
  }

  /** The orchestrator, holding the agent and the session repository. */
  class InvestigationOrchestrator {
    const aiClient: AiAgentClient
    const sessionRepository: InMemorySessionRepository

    constructor (aiClient: AiAgentClient, sessionRepository: InMemorySessionRepository)
      ensures this.aiClient == aiClient && this.sessionRepository == sessionRepository
    {
      this.aiClient := aiClient;
      this.sessionRepository := sessionRepository;
    }

    /** One investigation call. `newSessionId` is the `Guid.NewGuid()` of the
        session, `durationMs` the stopwatch reading, `now` the clock reading.
        Only a returned response stores anything: a new session, owned by the
        request's user, with no steps, marked completed. */
    method Investigate(request: InvestigationRequest, newSessionId: Guid, durationMs: int, now: Timestamp)
      returns (result: Result<InvestigationResponse, Error>, effects: seq<Effect>)
      requires sessionRepository.Valid()
      modifies sessionRepository
      ensures sessionRepository.Valid()
      ensures Run(result, effects) == Investigation(request, aiClient, newSessionId, durationMs, now)
      ensures result.Threw? ==> sessionRepository.store == old(sessionRepository.store)
      ensures result.Returned? ==>
                && newSessionId in sessionRepository.store
                && var session := sessionRepository.store[newSessionId];
                && fresh(session)
                && sessionRepository.store == old(sessionRepository.store)[newSessionId := session]
                && session.owner == request.userId
                && session.steps == []
                && session.status == Completed
    {
      var invalid := ValidateRequest(request);
      if invalid.Some? {
        return Threw(invalid.value), [];
      }
      var session := new InvestigationSession(newSessionId, request.userId, now);
      var traceId := request.traceId.GetOr("");
      effects := [AgentInvoked(request.query.value, request.caseId.value, traceId)];
      var reply := aiClient(request.query.value, request.caseId.value, traceId);
      if reply.Err? {
        return Threw(AgentFailed(reply.message)), effects;
      }
      var toolCalls := MapActionsToToolCalls(ActionsOf(reply.value));
      var response := Answer(request, reply.value, durationMs, now).(toolCalls := toolCalls);
      session.MarkCompleted();
      sessionRepository.Save(session);
      effects := effects + [SessionSaved(newSessionId)];
      result := Returned(response);
    }
  }
}
