# Investigation orchestration, modelled in Dafny

This project models the orchestration core of an investigation service. A
user's question about a case goes to an AI agent, and the service keeps a
session of the steps taken to answer it. Two orchestrators exist side by side:

- **The step-tracking service** (`InvestigationOrchestratorService.RunInvestigationAsync`,
  module `LegacyOrchestration`, `orchestrator_service.dfy`).
  - It resolves or creates a session, calls the AI agent, then the
    retrieval (RAG) service, then every tool call the agent listed.
  - Each call is recorded as an `InvestigationStep` of the session. The
    session is saved, and a summary with one entry per call is returned.
  - The model follows the structure of its try/catch blocks. A RAG or tool
    call that throws is caught by its own handler, which marks that step
    Failed and lets the run go on. A failing agent call reaches the outer
    handler, which saves the session and rethrows. The error payloads these
    handlers build are not modelled; as written they always throw themselves
    (see "## Left out").
- **The request-validating orchestrator** (`InvestigationOrchestrator.InvestigateAsync`,
  module `Orchestration`, `orchestrator.dfy`).
  - It validates the request (query, then case id, then user id) and calls
    the AI agent once.
  - It maps the agent's suggested actions to pending tool calls, marks a new
    session completed, saves it and answers "Success".
  - Any exception is rethrown and nothing is saved.

The supporting pieces:

- `common.dfy` (module `Common`): nullable values, call outcomes, and the .NET
  `string.IsNullOrWhiteSpace` test.
- `domain.dfy` (module `Domain`): the `InvestigationStep` and
  `InvestigationSession` classes and the agent/tool records.
- `session_store.dfy` (module `SessionStore`): `InMemorySessionRepository`, a
  dictionary from session id to session.

How the model stands in for the outside world:

- Remote collaborators (the AI agent, RAG, tool execution) are
  function-typed fields. A call's result is a function of its arguments:
  either the response or the message of the exception it threw.
- Each run returns, next to its result, the ordered log of what it did to the
  outside world (calls made, sessions saved). "Called once", "saved exactly
  once, last" and "nothing saved" are stated on that log.
- `Guid.NewGuid()` and `DateTime.UtcNow` are parameters.
  - Step and session ids come from `newGuid`: `newGuid(0)` is the legacy
    run's fresh session id, `newGuid(1)` the agent step, `newGuid(2)` the RAG
    step, `newGuid(3 + i)` the i-th tool step.
  - The newer orchestrator gets its session id as `newSessionId`.
  - A single `now` stands for every clock reading of one call.
- `Guid.Parse` is the parameter `parse`, which returns None where it would
  throw.
- Each run is specified by a pure function named `Investigation` in each
  module. It returns the effect log and the result, and in the step-tracking
  service also the steps the run appends. The class methods are proved to
  do exactly that to the session objects and the repository. Lemmas prove
  the promised properties of the functions.

Two facts about the code shape the model:

- When the agent call throws, the step-tracking service saves the session
  with the agent step still **Pending**. Its handler never calls
  `MarkFailed` on that step.
- The newer orchestrator calls `MarkCompleted()` and a five-argument
  constructor on the session, but the session class declares neither and
  has no status. The model adds an `Active | Completed` status and
  `MarkCompleted`, and keeps the two-argument constructor.

## Model

| member | source | states |
|---|---|---|
| Domain.Opened | Investigation.Domain/InvestigationStep.cs:15-21 | a new step is Pending with no completion time and no details, keeps its id, name and start time, and is consistent |
| Domain.Marked | Investigation.Domain/InvestigationStep.cs:23-35 | marking gives the new status and details, records a completion time, keeps id, name and start time, and leaves the step consistent (completion time set iff not Pending) |
| Domain.LastMarkWins | Investigation.Domain/InvestigationStep.cs:23-35 | marks are not guarded: a second mark overwrites status and details of the first |
| Domain.InvestigationStep.constructor | Investigation.Domain/InvestigationStep.cs:15-21 | the constructed step is the opened step for the given id, name and time, and is consistent |
| Domain.InvestigationStep.MarkSuccess | Investigation.Domain/InvestigationStep.cs:23-28 | the step becomes the Success mark of its old state with the given details; identity kept, invariant preserved |
| Domain.InvestigationStep.MarkFailed | Investigation.Domain/InvestigationStep.cs:30-35 | the step becomes the Failed mark of its old state with the given details; identity kept, invariant preserved |
| Domain.InvestigationSession.constructor | Investigation.Domain/InvestigationSession.cs:14-19 | a new session has the given id and owner, the creation time, and no steps |
| Domain.InvestigationSession.AddStep | Investigation.Domain/InvestigationSession.cs:21-24 | the step is appended at the end; earlier steps stay in place and in order |
| Domain.InvestigationSession.MarkCompleted | Investigation.Application/Orchestration/InvestigationOrchestrator.cs:102 | the session's status becomes Completed and its steps are unchanged |
| SessionStore.NeverSavedIsAbsent | Investigation.Infrastructure/Session/InMemorySessionRepository.cs:15-19 | looking up an id that was never stored finds nothing |
| SessionStore.SaveThenGet | Investigation.Infrastructure/Session/InMemorySessionRepository.cs:15-25 | after saving, a lookup of the session's id yields that session; saving an id already present replaces it (upsert), a new id adds one entry |
| SessionStore.SaveKeepsOtherEntries | Investigation.Infrastructure/Session/InMemorySessionRepository.cs:21-25 | saving leaves every other id's entry as it was |
| SessionStore.SaveKeepsKeying | Investigation.Infrastructure/Session/InMemorySessionRepository.cs:21-25 | saving keeps every key naming the session stored under it |
| SessionStore.InMemorySessionRepository.constructor | Investigation.Infrastructure/Session/InMemorySessionRepository.cs:13 | a new repository is empty |
| SessionStore.InMemorySessionRepository.Get | Investigation.Infrastructure/Session/InMemorySessionRepository.cs:15-19 | finds a session exactly when one is stored under the id, returns that session, and changes nothing |
| SessionStore.InMemorySessionRepository.Save | Investigation.Infrastructure/Session/InMemorySessionRepository.cs:21-25 | the store afterwards is the old store with the session under its own id; keying is preserved |
| LegacyOrchestration.ResolveSessionId | Investigation.Application/Services/InvestigationOrchestratorService.cs:40 | a null or whitespace session id gives the fresh id; any other is parsed, and an unparsable one throws before anything else happens |
| LegacyOrchestration.ToolCallOf | Investigation.Application/Services/InvestigationOrchestratorService.cs:104-106 | a tool-call entry runs under its own name, or "unknown" when it has none, with its arguments |
| LegacyOrchestration.Settled | Investigation.Application/Services/InvestigationOrchestratorService.cs:89-95 | the step a finished call leaves keeps its name and is no longer Pending: Success with the response exactly when the call answered, otherwise Failed with the exception message |
| LegacyOrchestration.Reported | Investigation.Application/Services/InvestigationOrchestratorService.cs:90-96 | the returned entry for a finished call keeps its name: Success with the response exactly when the call answered, otherwise Failed with the exception message |
| LegacyOrchestration.Investigation | Investigation.Application/Services/InvestigationOrchestratorService.cs:47-150 | every run calls the agent first and saves the session last, its first step is "AI Agent", and it throws exactly when the agent call throws |
| LegacyOrchestration.AbortedRun | Investigation.Application/Services/InvestigationOrchestratorService.cs:144-150 | after an agent exception: one step, "AI Agent", still Pending; two effects ending with the save; the agent exception rethrown |
| LegacyOrchestration.AnsweredRun | Investigation.Application/Services/InvestigationOrchestratorService.cs:64-142 | after an agent answer: two steps plus one per tool call, the agent step Success with the reply; the agent called first, three effects plus one per tool call, the save last; a result with one entry per step |
| LegacyOrchestration.StepsFollowCallOrder | Investigation.Application/Services/InvestigationOrchestratorService.cs:47-137 | an answered run appends "AI Agent", "RAG Service", then one step per listed tool call, and calls the agent, RAG, every listed tool, then saves |
| LegacyOrchestration.ToolStepFollowsCall | Investigation.Application/Services/InvestigationOrchestratorService.cs:100-134 | the i-th listed tool call (nameless as "unknown") is the i-th tool executed and leaves the i-th tool step, named "Tool:<name>" and settled by that call's own outcome |
| LegacyOrchestration.NamelessToolRunsAsUnknown | Investigation.Application/Services/InvestigationOrchestratorService.cs:102-109 | a tool call without a name is executed as "unknown" and recorded as "Tool:unknown" |
| LegacyOrchestration.RagFailureIsIsolated | Investigation.Application/Services/InvestigationOrchestratorService.cs:71-97 | a RAG exception fails only the RAG step, with its message, in the session and in the returned list, and the run still returns |
| LegacyOrchestration.ToolsIndependentOfRag | Investigation.Application/Services/InvestigationOrchestratorService.cs:71-134 | whatever RAG does, the same tool calls are made and the same tool steps recorded |
| LegacyOrchestration.ToolFailureIsIsolated | Investigation.Application/Services/InvestigationOrchestratorService.cs:100-134 | a tool exception fails only that tool's step, with its message; every listed tool is still called (with the lemma above, each recorded by its own outcome); the run still returns |
| LegacyOrchestration.AgentFailureAborts | Investigation.Application/Services/InvestigationOrchestratorService.cs:144-150 | an agent exception leaves only the Pending agent step, makes no RAG or tool call, saves once, and rethrows the exception |
| LegacyOrchestration.CalledOnceSavedOnce | Investigation.Application/Services/InvestigationOrchestratorService.cs:38-151 | on both paths the agent is called exactly once, first, and the session is saved exactly once, last |
| LegacyOrchestration.SummaryFallbacks | Investigation.Application/Services/InvestigationOrchestratorService.cs:85-142 | RAG is asked with the reasoning summary or else the query; the result's summary is the reasoning summary or else "No summary"; the result carries the session and trace ids |
| LegacyOrchestration.SettledIsMirrored | Investigation.Application/Services/InvestigationOrchestratorService.cs:124-131 | the step a finished call leaves and its returned entry agree on name and status, and carry the response or the exception message |
| LegacyOrchestration.ResultMirrorsSteps | Investigation.Application/Services/InvestigationOrchestratorService.cs:64-142 | in an answered run every appended step is settled, and the returned list has one matching entry per step |
| LegacyOrchestration.InvestigationOrchestratorService.constructor | Investigation.Application/Services/InvestigationOrchestratorService.cs:24-36 | the service holds the given agent, RAG, tool and repository collaborators |
| LegacyOrchestration.InvestigationOrchestratorService.RecordCall | Investigation.Application/Services/InvestigationOrchestratorService.cs:72-97 | one guarded call (the RAG call, or a tool call at 108-132): appends one new step settled by the call's outcome, Success with the response or Failed with the message, and returns the matching entry; earlier steps untouched |
| LegacyOrchestration.InvestigationOrchestratorService.CallServices | Investigation.Application/Services/InvestigationOrchestratorService.cs:71-134 | the RAG call with the hints, then the tool calls: the steps appended, the entries returned and the calls made are those of the answered run |
| LegacyOrchestration.InvestigationOrchestratorService.ExecuteTools | Investigation.Application/Services/InvestigationOrchestratorService.cs:99-134 | appends one new settled step per tool call in order, returns the matching entries and the calls made, earlier steps untouched |
| LegacyOrchestration.InvestigationOrchestratorService.RunInvestigation | Investigation.Application/Services/InvestigationOrchestratorService.cs:38-151 | an unparsable id throws with nothing changed; otherwise the result and effect log are the run's, the loaded session (or a fresh ownerless one) holds its old steps followed by the run's new steps and is stored under the id, and no other stored session changes |
| LegacyOrchestration.InvestigationOrchestratorService.RunInSession | Investigation.Application/Services/InvestigationOrchestratorService.cs:47-150 | the run in a given session: result, effects and appended steps are the run's (on an agent exception: the Pending agent step, one save, the rethrow), and the session is stored under its id |
| LegacyOrchestration.InvestigationOrchestratorService.AnsweredInSession | Investigation.Application/Services/InvestigationOrchestratorService.cs:64-142 | once the agent answered: the agent step marked Success with the response, then the rest of the run; result, effects and steps are those of the answered run |
| LegacyOrchestration.InvestigationOrchestratorService.ContinueInvestigation | Investigation.Application/Services/InvestigationOrchestratorService.cs:71-142 | after the agent step: the RAG and tool steps, the single save, and the aggregated result whose entries start with the agent's |
| Orchestration.ValidateRequest | Investigation.Application/Orchestration/InvestigationOrchestrator.cs:134-147 | a request passes iff query, case id and user id are all non-blank; otherwise the error names the first blank one in that order, with "<field> is required" |
| Orchestration.PendingList | Investigation.Application/Orchestration/InvestigationOrchestrator.cs:159-167 | one entry per action, in order, with the action's tool name, status "Pending", duration 0 and metadata holding the action's name and input |
| Orchestration.MapActionsToToolCalls | Investigation.Application/Orchestration/InvestigationOrchestrator.cs:152-170 | the loop returns the pending tool calls of the actions: empty for null, one per action otherwise |
| Orchestration.ToolCallsFollowActions | Investigation.Application/Orchestration/InvestigationOrchestrator.cs:152-170 | null or empty actions give no tool calls; otherwise the tool calls follow the actions one for one |
| Orchestration.Summary | Investigation.Application/Orchestration/InvestigationOrchestrator.cs:94 | the agent's reasoning summary if present, else its reasoning, else "Analysis completed" (also for a null response) |
| Orchestration.Answer | Investigation.Application/Orchestration/InvestigationOrchestrator.cs:90-99 | the response echoes the trace id (or "") and case id, has status "Success", the duration and time, the summary of the agent's answer, an insight exactly when the agent answered non-null, and no tool calls for null actions, otherwise the pending call of each action, one for one and in order |
| Orchestration.Investigation | Investigation.Application/Orchestration/InvestigationOrchestrator.cs:50-128 | an invalid request throws its validation error with no effect; a valid one calls the agent first; the session is saved exactly when a response is returned |
| Orchestration.ValidationPrecedesCalls | Investigation.Application/Orchestration/InvestigationOrchestrator.cs:55-103 | an invalid request throws its argument exception before the agent call and without saving |
| Orchestration.QueryCheckedFirst | Investigation.Application/Orchestration/InvestigationOrchestrator.cs:139-140 | a blank query is reported as "Query is required" whatever else is missing |
| Orchestration.AgentCalledOnce | Investigation.Application/Orchestration/InvestigationOrchestrator.cs:75-79 | a valid request calls the agent exactly once, first, with the query, the case id and the trace id or "" |
| Orchestration.SavedOnlyOnSuccess | Investigation.Application/Orchestration/InvestigationOrchestrator.cs:101-128 | a returned response follows exactly one save, the last effect; an escaping exception follows no save |
| Orchestration.ResponseEchoesRequest | Investigation.Application/Orchestration/InvestigationOrchestrator.cs:90-99 | a response carries the trace id or "", the case id, status "Success", the duration and time, and the pending tool calls of the agent's actions: none for null actions, otherwise the pending call of each action, one for one and in order |
| Orchestration.SummaryFallbacks | Investigation.Application/Orchestration/InvestigationOrchestrator.cs:94-95 | the summary is the reasoning summary, else the reasoning, else "Analysis completed"; the result object is present iff the agent returned a response |
| Orchestration.AgentFailureRethrown | Investigation.Application/Orchestration/InvestigationOrchestrator.cs:120-128 | an agent exception is rethrown after the single agent call, with nothing saved |
| Orchestration.SingleSearchAction | Investigation.Tests/InvestigationOrchestratorTests.cs:31-67 | the single "search_documents" action yields a "Success" response for "trace-123" with summary "Test summary" and exactly one tool call of that name |
| Orchestration.NullQueryRejected | Investigation.Tests/InvestigationOrchestratorTests.cs:69-77 | a request with a null query is rejected with an argument exception and no other effect |
| Orchestration.InvestigationOrchestrator.constructor | Investigation.Application/Orchestration/InvestigationOrchestrator.cs:25-35 | the orchestrator holds the given agent and repository |
| Orchestration.InvestigationOrchestrator.Investigate | Investigation.Application/Orchestration/InvestigationOrchestrator.cs:40-129 | result and effect log are the specified call's; on an exception the store is unchanged; on success a new session owned by the user, with no steps and marked Completed, is stored under the new id and nothing else changes |

## Left out

- Remote clients are not modelled as HTTP. The agent, RAG and tool clients,
  their retry policies, DI wiring and the API host are outside the model. A
  client is a deterministic function of its arguments.
- Cancellation tokens, OpenTelemetry activities, tags and logging are left
  out. They do not affect results.
- Step durations in the legacy summary entries are left out: stopwatch
  readings are not modelled. The newer response takes `durationMs` as a
  parameter.
- Clock readings are one parameter `now` per call, so the model does not
  distinguish the start and completion times of a step.
- The session id is passed to the legacy agent client as a Guid, not as its
  string form.
- JSON shape errors in the legacy agent reply are left out; the reply is a
  typed record. A non-array "toolCalls" (line 69) or a non-object
  "arguments" (line 106, outside the tool's try block) throws into the outer
  handler at line 144 after the agent step was marked Success. A non-string
  "reasoningSummary" throws inside the RAG try block at line 85, so it is
  caught as a RAG failure and then meets the payload parse at line 96.
- A null RAG response (which would leave the RAG step's details unset) is
  not modelled. The RAG client always yields JSON or an exception.
- An exception thrown by `SaveAsync` itself is not modelled.
- The error payloads of the legacy service are not modelled. The model
  takes each handler to record the exception message and go on as its
  try/catch structure intends; the code as written does not.
  - The RAG and tool handlers (InvestigationOrchestratorService.cs lines 96
    and 131) mark the step Failed, then call `JsonObject.Parse` on an
    anonymous object's `ToString()`, `{ error = <message> }`. That text is
    not JSON, so the parse throws inside the handler. The exception goes to
    the outer handler at line 144, and the remaining RAG and tool calls are
    not made.
  - The outer handler (line 147) parses `{ "error": "<message>" }` with the
    message spliced in unescaped. A message holding `"`, `\` or a control
    character makes that parse throw. The save at line 148 is then skipped,
    and a JSON exception escapes instead of the original one. Parser error
    messages quote `'"'`, so after a failed RAG or tool call the session is,
    reading the code, most likely not saved at all.
  - When the parse succeeds, the handler adds an "AI Agent" Failed entry to
    a local list that is then discarded. The model has no such entry.
- A null request to `InvestigateAsync` is not modelled: the source
  dereferences it while logging before the null guard can throw.
- The session's trace id, case id and query, passed to the five-argument
  constructor, are not stored, because the domain class has no such fields.
- The response statuses "Failed" and "Partial" and the tool-call statuses
  "Running", "Success" and "Failed" are never produced by the code, so they
  are absent.
- `ToolResult` is not modelled: the domain declares it, but no orchestration
  step builds one.
- A null entry in the agent's `Actions`, or an action whose `ToolName` was
  set to null, is not modelled: actions and their tool names are non-null
  values here. In the code a null entry makes `MapActionsToToolCalls` throw a
  `NullReferenceException` (InvestigationOrchestrator.cs line 162), which the
  handler at line 127 rethrows with nothing saved. A null `ToolName` would
  give a pending tool call with a null name.
- Concurrent access to the session dictionary is not modelled; calls are
  taken one at a time.
- LegacyOrchestration.InvestigationOrchestratorService.RunInvestigation: does
  not state that the appended step objects are newly allocated. Their
  positions, summaries and consistency are stated, and the modifies frame
  shows that no other stored session changes.
- The .NET `ArgumentException` message suffix " (Parameter 'X')" is not
  modelled. The error keeps the parameter name and the message separately.
