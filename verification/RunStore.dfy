/**
 The workflow-run row, and the two services that write it: `EventsService.record` and
 `ApprovalsService.decide`.  Each is a serializable transaction; the guards and effects are
 stated as functions on the row, and the methods below work step by step with rollback.
 */
module RunStore {
  import opened Common
  import opened Text
  import opened RunEvents
  import opened Redaction

  datatype RunMode = Single | Multi

  datatype RunStatus = Pending | Planning | Running | AwaitingApproval | Completed | Partial | Failed

  datatype ApprovalState = NotRequested | Awaiting | Approved | Rejected

  datatype TaskStatus = TaskPending | TaskRunning | TaskCompleted | TaskFailed | TaskSkipped

  datatype Task = Task(agent: AgentKind, status: TaskStatus, result: Option<Payload>)

  datatype Verdict = Approve | Reject

  datatype Approval = Approval(verdict: Verdict, actor: string, reason: string, runVersion: nat)

  datatype Proposal = Proposal(title: string, description: string)

  datatype Ticket = Ticket(id: string, proposal: Proposal)

  datatype AuditEntry = AuditEntry(action: string, payload: Payload)

  /** One `workflow_runs` row with the rows that refer to it. */
  datatype Run = Run(
    mode: RunMode,
    status: RunStatus,
    approvalState: ApprovalState,
    version: nat,
    lastEventSequence: nat,
    plan: Option<Payload>,
    decision: Option<Json>,
    results: Option<Payload>,
    tasks: map<string, Task>,
    events: seq<RunEvent>,
    approvals: seq<Approval>,
    tickets: seq<Ticket>)

  function NewRun(mode: RunMode): Run {
    Run(mode, Pending, NotRequested, 0, 0, None, None, None, map[], [], [], [])
  }

  // ---- Reading payloads ----

  /** `payload.key ?? fallback` */
  function NonNull(payload: Payload, key: string): Option<Json> {
    if key in payload && !payload[key].Null? then Some(payload[key]) else None
  }

  function DecisionValue(payload: Payload): Json {
    match NonNull(payload, "decision")
    case Some(d) => d
    case None =>
      match NonNull(payload, "finalDecision")
      case Some(d) => d
      case None => Object(payload)
  }

  const TICKET_ACTION := "CREATE_ACTION_TICKET"

  function ExtractProposedAction(decision: Option<Json>): Option<Proposal> {
    if !(decision.Some? && decision.value.Object?) then None
    else
      var d := decision.value.fields;
      if !("proposedAction" in d && d["proposedAction"].Object?) then None
      else
        var p := d["proposedAction"].fields;
        if "type" in p && p["type"] == String(TICKET_ACTION)
          && "title" in p && p["title"].String?
          && "description" in p && p["description"].String?
        then Some(Proposal(p["title"].s, p["description"].s))
        else None
  }

  function AgentNamed(name: string): Option<AgentKind> {
    if name == "PLANNER" then Some(Planner)
    else if name == "CREDIT" then Some(Credit)
    else if name == "COMPLIANCE" then Some(Compliance)
    else if name == "OPERATIONS" then Some(Operations)
    else if name == "SYNTHESIZER" then Some(Synthesizer)
    else None
  }

  function AgentName(agent: AgentKind): string {
    match agent
    case Planner => "PLANNER"
    case Credit => "CREDIT"
    case Compliance => "COMPLIANCE"
    case Operations => "OPERATIONS"
    case Synthesizer => "SYNTHESIZER"
  }

  /** The two functions are inverse, so a stored agent name names the agent it was written for. */
  lemma {:induction false} AgentNamesAreInverse(agent: AgentKind, name: string)
    ensures AgentNamed(AgentName(agent)) == Some(agent)
    ensures AgentNamed(name) == Some(agent) <==> name == AgentName(agent)
  {
  }

  /** The decision of a payload: under its own key, else under the second one, else the whole payload. */
  lemma {:induction false} DecisionFound(payload: Payload, d: Json)
    requires d != Null
    ensures DecisionValue(payload["decision" := d]) == d
    ensures LacksValue(payload, "decision") ==> DecisionValue(payload["finalDecision" := d]) == d
    ensures LacksValue(payload, "decision") && LacksValue(payload, "finalDecision") ==>
      DecisionValue(payload) == Object(payload)
  {
  }

  predicate LacksValue(payload: Payload, key: string) {
    key in payload ==> payload[key] == Null
  }

  // ---- Plans ----

  /** The agent a plan item names; `Null` stands for undefined. */
  function PlannedAgent(item: Json): Json {
    if item.Object? && "agent" in item.fields then item.fields["agent"] else Null
  }

  function PlannedAgents(items: seq<Json>): seq<Json> {
    seq(|items|, i requires 0 <= i < |items| => PlannedAgent(items[i]))
  }

  predicate IsMultiAgentPlan(payload: Payload) {
    && "tasks" in payload && payload["tasks"].Array?
    && |payload["tasks"].items| == 3
    && var agents := set a | a in PlannedAgents(payload["tasks"].items);
      |agents| == 3 && String("CREDIT") in agents && String("COMPLIANCE") in agents && String("OPERATIONS") in agents
  }

  /** The set test of the service accepts exactly the permutations of the three specialists. */
  lemma {:induction false} MultiAgentPlanIsPermutation(payload: Payload)
    ensures IsMultiAgentPlan(payload) <==>
      && "tasks" in payload && payload["tasks"].Array?
      && multiset(PlannedAgents(payload["tasks"].items))
        == multiset{String("CREDIT"), String("COMPLIANCE"), String("OPERATIONS")}
  {
    if "tasks" in payload && payload["tasks"].Array? {
      ThreeDistinct(PlannedAgents(payload["tasks"].items), String("CREDIT"), String("COMPLIANCE"),
        String("OPERATIONS"));
    }
  }

  lemma {:induction false} ThreeDistinct<T(!new)>(s: seq<T>, a: T, b: T, c: T)
    requires a != b && b != c && a != c
    ensures |s| == 3 && |set x | x in s| == 3 && a in s && b in s && c in s
      <==> multiset(s) == multiset{a, b, c}
  {
    if |s| == 3 && a in s && b in s && c in s {
      ThreeFound(s, a, b, c);
    }
    if multiset(s) == multiset{a, b, c} {
      ThreeCounted(s, a, b, c);
    }
  }

  lemma {:induction false} ThreeFound<T(!new)>(s: seq<T>, a: T, b: T, c: T)
    requires a != b && b != c && a != c
    requires |s| == 3 && a in s && b in s && c in s
    ensures multiset(s) == multiset{a, b, c}
  {
    if s[0] == a {
      if s[1] == b { assert s == [a, b, c]; } else { assert s == [a, c, b]; }
    } else if s[0] == b {
      if s[1] == a { assert s == [b, a, c]; } else { assert s == [b, c, a]; }
    } else {
      if s[1] == a { assert s == [c, a, b]; } else { assert s == [c, b, a]; }
    }
  }

  lemma {:induction false} ThreeCounted<T(!new)>(s: seq<T>, a: T, b: T, c: T)
    requires a != b && b != c && a != c
    requires multiset(s) == multiset{a, b, c}
    ensures |s| == 3 && (set x | x in s) == {a, b, c} && |{a, b, c}| == 3
  {
    assert |s| == |multiset(s)|;
    forall x ensures x in s <==> x in {a, b, c} {
      assert x in s <==> x in multiset(s);
    }
  }

  /** The id and agent of a plan item the upsert accepts. */
  function PlannedTask(item: Json): Option<(string, AgentKind)> {
    if item.Object?
      && "id" in item.fields && item.fields["id"].String?
      && "agent" in item.fields && item.fields["agent"].String?
      && AgentNamed(item.fields["agent"].s).Some?
    then Some((item.fields["id"].s, AgentNamed(item.fields["agent"].s).value))
    else None
  }

  function UpsertTask(tasks: map<string, Task>, item: Json): map<string, Task> {
    match PlannedTask(item)
    case Some((id, agent)) => if id in tasks then tasks else tasks[id := Task(agent, TaskPending, None)]
    case None => tasks
  }

  function UpsertTasks(tasks: map<string, Task>, items: seq<Json>): map<string, Task> {
    if items == [] then tasks
    else UpsertTask(UpsertTasks(tasks, items[..|items| - 1]), items[|items| - 1])
  }

  /** Item `i` is the first accepted item with its id. */
  predicate FirstWithId(items: seq<Json>, i: nat, id: string)
    requires i < |items|
  {
    && PlannedTask(items[i]).Some? && PlannedTask(items[i]).value.0 == id
    && forall j :: 0 <= j < i && PlannedTask(items[j]).Some? ==> PlannedTask(items[j]).value.0 != id
  }

  /** Existing tasks survive a repeated plan, and the first item with a new id creates its task. */
  lemma {:induction false} UpsertKeepsAndFirstWins(tasks: map<string, Task>, items: seq<Json>, id: string)
    ensures id in tasks ==> id in UpsertTasks(tasks, items) && UpsertTasks(tasks, items)[id] == tasks[id]
    ensures id !in tasks ==>
      (id in UpsertTasks(tasks, items) <==> exists i: nat :: i < |items| && FirstWithId(items, i, id))
    ensures id !in tasks ==> forall i: nat :: i < |items| && FirstWithId(items, i, id) ==>
      id in UpsertTasks(tasks, items)
      && UpsertTasks(tasks, items)[id] == Task(PlannedTask(items[i]).value.1, TaskPending, None)
  {
    if id in tasks { UpsertKeeps(tasks, items, id); } else { FirstWins(tasks, items, id); }
  }

  lemma {:induction false} UpsertKeeps(tasks: map<string, Task>, items: seq<Json>, id: string)
    requires id in tasks
    ensures id in UpsertTasks(tasks, items) && UpsertTasks(tasks, items)[id] == tasks[id]
  {
    if items != [] { UpsertKeeps(tasks, items[..|items| - 1], id); }
  }

  lemma {:induction false} FirstWins(tasks: map<string, Task>, items: seq<Json>, id: string)
    requires id !in tasks
    ensures id in UpsertTasks(tasks, items) <==> exists i: nat :: i < |items| && FirstWithId(items, i, id)
    ensures forall i: nat :: i < |items| && FirstWithId(items, i, id) ==>
      id in UpsertTasks(tasks, items)
      && UpsertTasks(tasks, items)[id] == Task(PlannedTask(items[i]).value.1, TaskPending, None)
  {
    if items != [] {
      var init, n := items[..|items| - 1], |items| - 1;
      FirstWins(tasks, init, id);
      assert forall i: nat :: i < n ==> (FirstWithId(init, i, id) <==> FirstWithId(items, i, id));
      if id in UpsertTasks(tasks, init) {
        var i: nat :| i < |init| && FirstWithId(init, i, id);
        assert FirstWithId(items, i, id);
        assert !FirstWithId(items, n, id);
      } else {
        NoFirstMeansNone(init, id);
        assert FirstWithId(items, n, id) <==> PlannedTask(items[n]).Some? && PlannedTask(items[n]).value.0 == id;
      }
    }
  }

  lemma {:induction false} NoFirstMeansNone(items: seq<Json>, id: string)
    requires forall i: nat :: i < |items| ==> !FirstWithId(items, i, id)
    ensures forall i: nat :: i < |items| && PlannedTask(items[i]).Some? ==> PlannedTask(items[i]).value.0 != id
  {
    if items != [] {
      var init := items[..|items| - 1];
      assert forall i: nat :: i < |init| && FirstWithId(init, i, id) ==> FirstWithId(items, i, id);
      NoFirstMeansNone(init, id);
      assert forall i: nat :: i < |init| ==> items[i] == init[i];
      assert !FirstWithId(items, |init|, id);
    }
  }

  function SetTaskStatus(
      tasks: map<string, Task>, payload: Payload, status: TaskStatus, result: Option<Payload>): map<string, Task>
  {
    if "taskId" in payload && payload["taskId"].String? && payload["taskId"].s != "" && payload["taskId"].s in tasks
    then
      var id := payload["taskId"].s;
      tasks[id := tasks[id].(status := status, result := if result.Some? then result else tasks[id].result)]
    else tasks
  }

  // ---- Recording one event ----

  function Stored(scrub: string -> string, e: RunEvent): RunEvent {
    e.(payload := RedactPayload(scrub, e.payload))
  }

  datatype Outcome = Created | NotFound | Conflict | Unprocessable

  predicate KeyTaken(run: Run, key: string) {
    exists i :: 0 <= i < |run.events| && run.events[i].key == key
  }

  predicate IdTaken(run: Run, id: EventId) {
    exists i :: 0 <= i < |run.events| && run.events[i].id == id
  }

  predicate PlanRefused(run: Run, e: RunEvent) {
    e.kind == PlanCreated && run.mode == Multi && !IsMultiAgentPlan(e.payload)
  }

  /** What happens to an event when only its own run matters. */
  function RowOutcome(run: Run, e: RunEvent): Outcome {
    if KeyTaken(run, e.key) || e.sequence != run.lastEventSequence + 1 || IdTaken(run, e.id) then Conflict
    else if PlanRefused(run, e) then Unprocessable
    else Created
  }

  /** The effect of an event on the row, apart from the log itself. */
  function ApplyEvent(run: Run, e: RunEvent): Run {
    match e.kind
    case RunStarted => run.(status := Running)
    case PlanCreated =>
      run.(plan := Some(e.payload), status := Planning,
        tasks := if "tasks" in e.payload && e.payload["tasks"].Array?
                 then UpsertTasks(run.tasks, e.payload["tasks"].items) else run.tasks)
    case AgentStarted => run.(tasks := SetTaskStatus(run.tasks, e.payload, TaskRunning, None), status := Running)
    case AgentCompleted =>
      var status :=
        if "status" in e.payload && e.payload["status"] == String("FAILED") then TaskFailed
        else if "status" in e.payload && e.payload["status"] == String("SKIPPED") then TaskSkipped
        else TaskCompleted;
      run.(tasks := SetTaskStatus(run.tasks, e.payload, status, Some(e.payload)))
    case SynthesisCompleted => run.(decision := Some(DecisionValue(e.payload)))
    case ApprovalRequired => run.(approvalState := Awaiting, status := AwaitingApproval)
    case RunCompleted =>
      run.(results := Some(e.payload),
        status := if run.approvalState == Awaiting then AwaitingApproval
                  else if "partial" in e.payload && e.payload["partial"] == Bool(true) then Partial
                  else Completed)
    case RunFailed => run.(results := Some(e.payload), status := Failed)
    case ToolCompleted => run
    case CitationAdded => run
  }

  /** The canonical text of an event id. */
  function IdText(id: EventId): string {
    match id
    case NameBased(name) => "name:" + name
    case RandomId(token) => "random:" + Decimal(token)
  }

  function EventAudit(scrub: string -> string, e: RunEvent): AuditEntry {
    var agent := if e.agent.Some? then String(AgentName(e.agent.value)) else Null;
    AuditEntry(WireName(e.kind), AuditPayload(scrub, e.payload, agent, IdText(e.id), e.sequence))
  }

  function RecordRow(run: Run, e: RunEvent): Run {
    ApplyEvent(run.(lastEventSequence := e.sequence, events := run.events + [e]), e)
  }

  // ---- Deciding an approval ----

  datatype DecideCommand = DecideCommand(
    verdict: Verdict, expectedVersion: nat, actor: string, reason: string, freshTicketId: string)

  /** Exactly the situations in which a decision is taken. */
  predicate MayDecide(run: Run, cmd: DecideCommand) {
    && run.approvals == []
    && run.approvalState == Awaiting
    && run.version == cmd.expectedVersion
    && (cmd.verdict == Approve ==> ExtractProposedAction(run.decision).Some?)
  }

  function DecideRow(run: Run, cmd: DecideCommand): Run
    requires MayDecide(run, cmd)
  {
    run.(
      approvalState := if cmd.verdict == Approve then Approved else Rejected,
      status := Completed,
      version := run.version + 1,
      approvals := run.approvals + [Approval(cmd.verdict, cmd.actor, Trim(cmd.reason), cmd.expectedVersion + 1)],
      tickets := run.tickets + (if cmd.verdict == Approve
        then [Ticket(cmd.freshTicketId, ExtractProposedAction(run.decision).value)] else []))
  }

  function DecisionAudit(scrub: string -> string, cmd: DecideCommand): AuditEntry {
    AuditEntry(
      if cmd.verdict == Approve then "approval.approved" else "approval.rejected",
      RedactPayload(scrub, map[
        "actionTicketId" := if cmd.verdict == Approve then String(cmd.freshTicketId) else Null,
        "reason" := String(cmd.reason)]))
  }

  // ---- What the audit log says ----

  lemma {:induction false} DecisionAuditKeysAreOpen()
    ensures !Sensitive("actionTicketId") && !Sensitive("reason")
  {
    KeyIsOpen("actionTicketId", "actionticketid");
    ReasonIsOpen();
  }

  /** The audit entry of a decision says what the decision does to the row, in the backend's strings. */
  lemma {:induction false} AuditTellsDecision(scrub: string -> string, run: Run, cmd: DecideCommand)
    requires MayDecide(run, cmd)
    ensures var entry, after := DecisionAudit(scrub, cmd), DecideRow(run, cmd);
      && (entry.action == "approval.approved" <==> after.approvalState == Approved)
      && (entry.action == "approval.rejected" <==> after.approvalState == Rejected)
      && "reason" in entry.payload && entry.payload["reason"] == String(scrub(cmd.reason))
      && "actionTicketId" in entry.payload
      && entry.payload["actionTicketId"] ==
        if |after.tickets| == |run.tickets| then Null else String(scrub(after.tickets[|run.tickets|].id))
  {
    DecisionAuditKeysAreOpen();
    var ticket := if cmd.verdict == Approve then String(cmd.freshTicketId) else Null;
    var fields := map["actionTicketId" := ticket, "reason" := String(cmd.reason)];
    RedactField(scrub, fields, "actionTicketId", 0);
    RedactField(scrub, fields, "reason", 0);
    assert "approval.approved"[9] != "approval.rejected"[9];
  }

  /** The audit entry of a recorded event names the event, its agent and its number. */
  lemma {:induction false} AuditTellsEvent(scrub: string -> string, e: RunEvent)
    ensures var entry := EventAudit(scrub, e);
      && entry.action == WireName(e.kind)
      && {"agent", "eventId", "sequence"} <= entry.payload.Keys
      && entry.payload["sequence"] == Number(e.sequence as real)
      && entry.payload["eventId"] == String(scrub(IdText(e.id)))
      && (e.agent.None? ==> entry.payload["agent"] == Null)
      && (e.agent.Some? ==> entry.payload["agent"] == String(scrub(AgentName(e.agent.value))))
  {
    AuditKeysAreOpen();
    var agent := if e.agent.Some? then String(AgentName(e.agent.value)) else Null;
    var id, sequence := String(IdText(e.id)), Number(e.sequence as real);
    var fields := e.payload["agent" := agent]["eventId" := id]["sequence" := sequence];
    RedactField(scrub, fields, "agent", 0);
    RedactField(scrub, fields, "eventId", 0);
    RedactField(scrub, fields, "sequence", 0);
  }

  // ---- The services ----

  predicate IdTakenAnywhere(runs: map<string, Run>, id: EventId) {
    exists r :: r in runs && IdTaken(runs[r], id)
  }

  function RecordOutcome(runs: map<string, Run>, e: RunEvent): Outcome {
    if e.runId !in runs then NotFound
    else if IdTakenAnywhere(runs, e.id) then Conflict
    else RowOutcome(runs[e.runId], e)
  }

  // ---- Which events are taken ----

  /** The event is new to the run and carries the next number. */
  predicate IsNext(run: Run, e: RunEvent) {
    && e.sequence == run.lastEventSequence + 1
    && forall i :: 0 <= i < |run.events| ==> run.events[i].key != e.key && run.events[i].id != e.id
  }

  /** Exactly one task for each of the three specialists, in any order. */
  predicate PlansEverySpecialist(payload: Payload) {
    && "tasks" in payload && payload["tasks"].Array?
    && multiset(PlannedAgents(payload["tasks"].items))
      == multiset{String("CREDIT"), String("COMPLIANCE"), String("OPERATIONS")}
  }

  /** A multi-agent run insists on such a plan; a single-agent run takes any. */
  predicate PlanSuits(run: Run, e: RunEvent) {
    e.kind == PlanCreated && run.mode == Multi ==> PlansEverySpecialist(e.payload)
  }

  /** Which of the three answers an event gets from its own run. */
  lemma {:induction false} TakenExactly(run: Run, e: RunEvent)
    ensures RowOutcome(run, e) == Created <==> IsNext(run, e) && PlanSuits(run, e)
    ensures RowOutcome(run, e) == Unprocessable <==> IsNext(run, e) && !PlanSuits(run, e)
    ensures RowOutcome(run, e) == Conflict <==> !IsNext(run, e)
  {
    MultiAgentPlanIsPermutation(e.payload);
  }

  predicate IdUnused(runs: map<string, Run>, id: EventId) {
    forall r :: r in runs ==> forall i :: 0 <= i < |runs[r].events| ==> runs[r].events[i].id != id
  }

  /** And from the service: event ids are unique over all runs. */
  lemma {:induction false} RecordedExactly(runs: map<string, Run>, e: RunEvent)
    ensures RecordOutcome(runs, e) == NotFound <==> e.runId !in runs
    ensures RecordOutcome(runs, e) == Created <==>
      e.runId in runs && IdUnused(runs, e.id) && IsNext(runs[e.runId], e) && PlanSuits(runs[e.runId], e)
    ensures RecordOutcome(runs, e) == Unprocessable <==>
      e.runId in runs && IdUnused(runs, e.id) && IsNext(runs[e.runId], e) && !PlanSuits(runs[e.runId], e)
  {
    if e.runId in runs { TakenExactly(runs[e.runId], e); }
    assert IdUnused(runs, e.id) <==> !IdTakenAnywhere(runs, e.id) by {
      if r :| r in runs && IdTaken(runs[r], e.id) { assert !IdUnused(runs, e.id); }
    }
  }

  datatype DecideResult = Decided(ticket: Option<Ticket>, version: nat) | NoSuchRun | DecideConflict

  /** The run rows and the audit table, together with what was handed to the live stream. */
  class RunServices {
    const scrub: string -> string
    var runs: map<string, Run>
    var audit: seq<AuditEntry>
    var published: seq<RunEvent>

    constructor (scrub: string -> string)
      ensures this.scrub == scrub && runs == map[] && audit == [] && published == []
    {
      this.scrub := scrub;
      runs := map[];
      audit := [];
      published := [];
    }

    method UpsertPlanTasks(tasks: map<string, Task>, items: seq<Json>) returns (after: map<string, Task>)
      ensures after == UpsertTasks(tasks, items)
    {
      after := tasks;
      for i := 0 to |items|
        invariant after == UpsertTasks(tasks, items[..i])
      {
        assert items[..i + 1][..i] == items[..i];
        var planned := PlannedTask(items[i]);
        if planned.Some? && planned.value.0 !in after {
          after := after[planned.value.0 := Task(planned.value.1, TaskPending, None)];
        }
      }
      assert items[..|items|] == items;
    }

    /** `updateTaskStatus`: only a task that exists is updated, and a result only if one is given. */
    method UpdateTaskStatus(tasks: map<string, Task>, payload: Payload, status: TaskStatus, result: Option<Payload>)
      returns (after: map<string, Task>)
      ensures after == SetTaskStatus(tasks, payload, status, result)
    {
      after := tasks;
      if "taskId" !in payload || !payload["taskId"].String? { return; }
      var taskId := payload["taskId"].s;
      if taskId == "" || taskId !in tasks { return; }
      var task := tasks[taskId].(status := status);
      if result.Some? { task := task.(result := result); }
      after := tasks[taskId := task];
    }

    /** `applyEvent`: false when a multi-agent plan is refused, which aborts the transaction. */
    method ApplyToRow(row: Run, e: RunEvent) returns (ok: bool, after: Run)
      ensures ok <==> !PlanRefused(row, e)
      ensures ok ==> after == ApplyEvent(row, e)
    {
      ok, after := true, row;
      match e.kind {
        case RunStarted =>
          after := after.(status := Running);
        case PlanCreated =>
          if row.mode == Multi && !IsMultiAgentPlan(e.payload) { return false, row; }
          after := after.(plan := Some(e.payload), status := Planning);
          if "tasks" in e.payload && e.payload["tasks"].Array? {
            var tasks := UpsertPlanTasks(after.tasks, e.payload["tasks"].items);
            after := after.(tasks := tasks);
          }
        case AgentStarted =>
          var tasks := UpdateTaskStatus(after.tasks, e.payload, TaskRunning, None);
          after := after.(tasks := tasks);
          after := after.(status := Running);
        case AgentCompleted =>
          var taskStatus := TaskCompleted;
          if "status" in e.payload && e.payload["status"] == String("FAILED") {
            taskStatus := TaskFailed;
          } else if "status" in e.payload && e.payload["status"] == String("SKIPPED") {
            taskStatus := TaskSkipped;
          }
          var tasks := UpdateTaskStatus(after.tasks, e.payload, taskStatus, Some(e.payload));
          after := after.(tasks := tasks);
        case SynthesisCompleted =>
          var decision := Object(e.payload);
          if "decision" in e.payload && !e.payload["decision"].Null? {
            decision := e.payload["decision"];
          } else if "finalDecision" in e.payload && !e.payload["finalDecision"].Null? {
            decision := e.payload["finalDecision"];
          }
          after := after.(decision := Some(decision));
        case ApprovalRequired =>
          after := after.(approvalState := Awaiting, status := AwaitingApproval);
        case RunCompleted =>
          var partial := "partial" in e.payload && e.payload["partial"] == Bool(true);
          after := after.(results := Some(e.payload));
          if row.approvalState == Awaiting {
            after := after.(status := AwaitingApproval);
          } else if partial {
            after := after.(status := Partial);
          } else {
            after := after.(status := Completed);
          }
        case RunFailed =>
          after := after.(results := Some(e.payload), status := Failed);
        case ToolCompleted =>
        case CitationAdded =>
      }
    }

    /** `record`: the checks, then the writes. */
    method Record(input: RunEvent) returns (outcome: Outcome)
      modifies this
      ensures outcome == RecordOutcome(old(runs), Stored(scrub, input))
      ensures var e := Stored(scrub, input); outcome == Created <==>
        && e.runId in old(runs) && IdUnused(old(runs), e.id)
        && IsNext(old(runs)[e.runId], e) && PlanSuits(old(runs)[e.runId], e)
      ensures outcome == Created ==>
        && runs == old(runs)[input.runId := RecordRow(old(runs)[input.runId], Stored(scrub, input))]
        && audit == old(audit) + [EventAudit(scrub, Stored(scrub, input))]
        && published == old(published) + [Stored(scrub, input)]
      ensures outcome != Created ==> runs == old(runs) && audit == old(audit) && published == old(published)
    {
      RecordedExactly(runs, Stored(scrub, input));
      var payload := RedactPayload(scrub, input.payload);
      if input.runId !in runs { return NotFound; }
      var row := runs[input.runId];
      if KeyTaken(row, input.key) { return Conflict; }
      if row.lastEventSequence != input.sequence - 1 { return Conflict; }
      outcome := Insert(input.(payload := payload));
    }

    /** The writes of `record`: conditional update, insert, row changes and audit entry, or a full rollback. */
    method Insert(created: RunEvent) returns (outcome: Outcome)
      requires created.runId in runs && !KeyTaken(runs[created.runId], created.key)
      requires runs[created.runId].lastEventSequence == created.sequence - 1
      modifies this
      ensures outcome == RecordOutcome(old(runs), created)
      ensures outcome == Created ==>
        && runs == old(runs)[created.runId := RecordRow(old(runs)[created.runId], created)]
        && audit == old(audit) + [EventAudit(scrub, created)]
        && published == old(published) + [created]
      ensures outcome != Created ==> runs == old(runs) && audit == old(audit) && published == old(published)
    {
      var before := runs;
      var id := created.runId;
      var row := runs[id].(lastEventSequence := created.sequence);
      runs := runs[id := row];
      OutcomeOfInsert(before, created);
      SameLogSameIds(before, id, row, created.id);
      if IdTakenAnywhere(runs, created.id) {
        runs := before;
        return Conflict;
      }
      row := row.(events := row.events + [created]);
      runs := runs[id := row];
      var applied, after := ApplyToRow(row, created);
      if !applied {
        runs := before;
        return Unprocessable;
      }
      row := after;
      runs := runs[id := row];
      audit := audit + [EventAudit(scrub, created)];
      assert row == RecordRow(before[id], created);
      assert runs == before[id := row];
      published := published + [created];
      outcome := Created;
    }

    /** Changing a row apart from its log takes no event id and frees none. */
    static lemma {:induction false} SameLogSameIds(runs: map<string, Run>, runId: string, row: Run, id: EventId)
      requires runId in runs && row.events == runs[runId].events
      ensures IdTakenAnywhere(runs[runId := row], id) <==> IdTakenAnywhere(runs, id)
    {
      var after := runs[runId := row];
      if IdTakenAnywhere(after, id) {
        var r :| r in after && IdTaken(after[r], id);
        assert IdTaken(runs[r], id);
      }
      if IdTakenAnywhere(runs, id) {
        var r :| r in runs && IdTaken(runs[r], id);
        assert IdTaken(after[r], id);
      }
    }

    /** Behind the first checks only a taken id and a refused plan are left. */
    static lemma {:induction false} OutcomeOfInsert(runs: map<string, Run>, e: RunEvent)
      requires e.runId in runs && !KeyTaken(runs[e.runId], e.key)
      requires runs[e.runId].lastEventSequence == e.sequence - 1
      ensures RecordOutcome(runs, e) ==
        if IdTakenAnywhere(runs, e.id) then Conflict
        else if PlanRefused(runs[e.runId], e) then Unprocessable else Created
    {
      if !IdTakenAnywhere(runs, e.id) { assert !IdTaken(runs[e.runId], e.id); }
    }

    /** `decide`: guards, writes, and a rollback when an approval finds no valid proposal. */
    method Decide(runId: string, cmd: DecideCommand) returns (result: DecideResult)
      modifies this`runs, this`audit
      ensures result == NoSuchRun <==> runId !in old(runs)
      ensures result.Decided? <==> runId in old(runs) && MayDecide(old(runs)[runId], cmd)
      ensures result.Decided? ==>
        && runs == old(runs)[runId := DecideRow(old(runs)[runId], cmd)]
        && audit == old(audit) + [DecisionAudit(scrub, cmd)]
        && result.version == runs[runId].version
        && runs[runId].tickets == old(runs)[runId].tickets + (if result.ticket.Some? then [result.ticket.value] else [])
      ensures !result.Decided? ==> runs == old(runs) && audit == old(audit)
    {
      var before := runs;
      if runId !in runs { return NoSuchRun; }
      var run := runs[runId];
      if run.approvals != [] || run.approvalState != Awaiting { return DecideConflict; }
      if run.version != cmd.expectedVersion { return DecideConflict; }
      var approve := cmd.verdict == Approve;
      run := run.(approvalState := if approve then Approved else Rejected, status := Completed,
        version := run.version + 1);
      runs := runs[runId := run];
      var approval := Approval(cmd.verdict, cmd.actor, Trim(cmd.reason), cmd.expectedVersion + 1);
      run := run.(approvals := run.approvals + [approval]);
      runs := runs[runId := run];
      var ticket: Option<Ticket> := None;
      if approve {
        var proposal := ExtractProposedAction(run.decision);
        if proposal.None? {
          runs := before;
          return DecideConflict;
        }
        ticket := Some(Ticket(cmd.freshTicketId, proposal.value));
        run := run.(tickets := run.tickets + [ticket.value]);
        runs := runs[runId := run];
      }
      var entry := AuditEntry(
        if approve then "approval.approved" else "approval.rejected",
        RedactPayload(scrub, map[
          "actionTicketId" := if ticket.Some? then String(ticket.value.id) else Null,
          "reason" := String(cmd.reason)]));
      audit := audit + [entry];
      assert run.tickets == before[runId].tickets + (if ticket.Some? then [ticket.value] else []);
      assert runs == before[runId := run];
      result := Decided(ticket, cmd.expectedVersion + 1);
    }
  }
}
