/** The investigation domain: a step record whose status moves from Pending to
    Success or Failed, the session that collects steps, and the plain records
    exchanged with the AI agent and the tool-execution service. */
module Domain {
  import opened Common

  datatype StepStatus = Pending | Success | Failed

  /** Everything an InvestigationStep holds, as one value. */
  datatype StepView = StepView(
    id: Guid,
    name: string,
    status: StepStatus,
    startedAt: Timestamp,
    completedAt: Option<Timestamp>,
    details: Option<string>)
  {
    /** The invariant every step keeps: a completion time is recorded exactly
        when the step has left Pending. */
    predicate Consistent() {
      completedAt.Some? <==> status != Pending
    }
  }

  /** What the orchestration decides about a step (its name, its status and its
      payload), leaving out the fresh identifier and the clock readings. */
  datatype StepSummary = StepSummary(name: string, status: StepStatus, details: Option<string>)

  /** The step a constructor call produces. */
  function Opened(id: Guid, name: string, now: Timestamp): (v: StepView)
    ensures v.Consistent() && v.status == Pending
    ensures v.id == id && v.name == name && v.startedAt == now && v.details == None
  {
    StepView(id, name, Pending, now, None, None)
  }

  /** The step after MarkSuccess or MarkFailed: whatever it was before (the
      marks are not guarded), it now carries the new status and details and a
      completion time, and keeps its identity. */
  function Marked(v: StepView, status: StepStatus, details: Option<string>, now: Timestamp): (r: StepView)
    requires status != Pending
    ensures r.Consistent()
    ensures r.id == v.id && r.name == v.name && r.startedAt == v.startedAt
    ensures r.status == status && r.details == details
  {
    v.(status := status, details := details, completedAt := Some(now))
  }

  /** Marking twice is not refused: the second mark overwrites the first. */
  lemma LastMarkWins(v: StepView, s1: StepStatus, d1: Option<string>, t1: Timestamp,
                     s2: StepStatus, d2: Option<string>, t2: Timestamp)
    requires s1 != Pending && s2 != Pending
    ensures Marked(Marked(v, s1, d1, t1), s2, d2, t2) == Marked(v, s2, d2, t2)
  {
  }

  /** One attempted call of an investigation run. */
  class InvestigationStep {
    const id: Guid
    const name: string
    const startedAt: Timestamp
    var status: StepStatus
    var completedAt: Option<Timestamp>
    var details: Option<string>

    function View(): StepView
      reads this
    {
      StepView(id, name, status, startedAt, completedAt, details)
    }

    function Summary(): StepSummary
      reads this
    {
      StepSummary(name, status, details)
    }

    predicate Valid()
      reads this
    {
      View().Consistent()
    }

    /** `Guid.NewGuid()` and `DateTime.UtcNow` are the parameters `id` and `now`. */
    constructor (id: Guid, name: string, now: Timestamp)
      ensures View() == Opened(id, name, now)
      ensures Valid()
    {
      this.id := id;
      this.name := name;
      this.startedAt := now;
      this.status := Pending;
      this.completedAt := None;
      this.details := None;
    }

    method MarkSuccess(details: Option<string>, now: Timestamp)
      modifies this
      ensures View() == Marked(old(View()), Success, details, now)
      ensures Valid()
    {
      this.status := Success;
      this.details := details;
      this.completedAt := Some(now);
    }

    method MarkFailed(details: Option<string>, now: Timestamp)
      modifies this
      ensures View() == Marked(old(View()), Failed, details, now)
      ensures Valid()
    {
      this.status := Failed;
      this.details := details;
      this.completedAt := Some(now);
    }
  }

  /** Overall state of a session. Only the newer orchestrator moves it, by
      marking a session completed just before saving it. */
  datatype SessionStatus = Active | Completed

  /** One investigation's identity and its step history. Identity fields are
      constants; the history only ever grows at its end. */
  class InvestigationSession {
    const id: Guid
    const owner: Option<string>
    const createdAt: Timestamp
    var steps: seq<InvestigationStep>
    var status: SessionStatus

    constructor (id: Guid, owner: Option<string>, now: Timestamp)
      ensures this.id == id && this.owner == owner && this.createdAt == now
      ensures steps == [] && status == Active
    {
      this.id := id;
      this.owner := owner;
      this.createdAt := now;
      this.steps := [];
      this.status := Active;
    }

    method AddStep(step: InvestigationStep)
      modifies this
      ensures steps == old(steps) + [step]
      ensures status == old(status)
    {
      steps := steps + [step];
    }

    method MarkCompleted()
      modifies this
      ensures status == Completed
      ensures steps == old(steps)
    {
      status := Completed;
    }
  }

  /** A tool call the agent suggests: the tool's name and its input object. */
  datatype AgentAction = AgentAction(toolName: string, input: Option<Json>)

  /** What the AI agent returns; each field may be null. */
  datatype AgentResponse = AgentResponse(
    reasoning: Option<string>,
    reasoningSummary: Option<string>,
    actions: Option<seq<AgentAction>>)

  /** A requested tool call, as handed to the tool-execution service. */
  datatype ToolCall = ToolCall(toolName: string, arguments: Option<Json>)
}
