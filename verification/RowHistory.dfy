/**
 What a run's row says about its log: every column is the one the last relevant event dictates,
 over every interleaving of recorded events and decisions.
 */
module RowHistory {
  import opened Common
  import opened RunEvents
  import opened RunStore
  import opened ApprovalSafety
  import opened Text

  /** The events of a kind that a column listens to. */
  predicate Hears(kinds: set<EventType>, e: RunEvent) {
    e.kind in kinds
  }

  /** Event `i` is the last of these kinds. */
  predicate LastOf(events: seq<RunEvent>, kinds: set<EventType>, i: nat) {
    i < |events| && Hears(kinds, events[i]) && forall j :: i < j < |events| ==> !Hears(kinds, events[j])
  }

  predicate NoneOf(events: seq<RunEvent>, kinds: set<EventType>) {
    forall j :: 0 <= j < |events| ==> !Hears(kinds, events[j])
  }

  const PLAN_KINDS := {PlanCreated}
  const DECISION_KINDS := {SynthesisCompleted}
  const RESULT_KINDS := {RunCompleted, RunFailed}
  const STATUS_KINDS := {RunStarted, PlanCreated, AgentStarted, ApprovalRequired, RunCompleted, RunFailed}

  /**
   The status when event `i` is the last that sets one, of the events since the start of the run or
   since the human decision: a completion waits exactly if an approval was requested before it.
   */
  function StatusAt(events: seq<RunEvent>, i: nat): RunStatus
    requires i < |events|
  {
    match events[i].kind
    case RunStarted => Running
    case AgentStarted => Running
    case PlanCreated => Planning
    case ApprovalRequired => AwaitingApproval
    case RunCompleted =>
      if Requested(events[..i]) then AwaitingApproval
      else if "partial" in events[i].payload && events[i].payload["partial"] == Bool(true) then Partial
      else Completed
    case _ => Failed
  }

  /** The status follows from these events, or is the one there was before them. */
  ghost predicate StatusReflects(events: seq<RunEvent>, before: RunStatus, status: RunStatus) {
    && (NoneOf(events, STATUS_KINDS) ==> status == before)
    && (forall i: nat :: LastOf(events, STATUS_KINDS, i) ==> status == StatusAt(events, i))
  }

  /** A column holds what `read` finds in the last event of its kinds. */
  ghost predicate Reflects<T>(events: seq<RunEvent>, kinds: set<EventType>, column: Option<T>, read: RunEvent -> T) {
    && (NoneOf(events, kinds) ==> column == None)
    && (forall i: nat :: LastOf(events, kinds, i) ==> column == Some(read(events[i])))
  }

  function PayloadOf(e: RunEvent): Payload {
    e.payload
  }

  function DecisionOf(e: RunEvent): Json {
    DecisionValue(e.payload)
  }

  ghost predicate RowReflects(run: Run) {
    && (run.approvals == [] ==> StatusReflects(run.events, Pending, run.status))
    && Reflects(run.events, PLAN_KINDS, run.plan, PayloadOf)
    && Reflects(run.events, DECISION_KINDS, run.decision, DecisionOf)
    && Reflects(run.events, RESULT_KINDS, run.results, PayloadOf)
  }

  /** One more event is the last of its kinds, or leaves the last one where it was. */
  lemma {:induction false} LastMoves(events: seq<RunEvent>, e: RunEvent, kinds: set<EventType>)
    ensures Hears(kinds, e) ==> !NoneOf(events + [e], kinds)
    ensures Hears(kinds, e) ==> forall i: nat :: LastOf(events + [e], kinds, i) <==> i == |events|
    ensures !Hears(kinds, e) ==> (NoneOf(events + [e], kinds) <==> NoneOf(events, kinds))
    ensures !Hears(kinds, e) ==> forall i: nat :: LastOf(events + [e], kinds, i) <==> LastOf(events, kinds, i)
  {
    var more, n := events + [e], |events|;
    assert more[n] == e && forall i :: 0 <= i < n ==> more[i] == events[i];
    if Hears(kinds, e) {
      forall i: nat ensures LastOf(more, kinds, i) <==> i == n {
        if i < n { assert Hears(kinds, more[n]); }
      }
    }
  }

  lemma {:induction false} StatusMoves(events: seq<RunEvent>, before: RunStatus, run: Run, e: RunEvent)
    requires StatusReflects(events, before, run.status) && (run.approvalState == Awaiting <==> Requested(events))
    ensures StatusReflects(events + [e], before, RecordRow(run, e).status)
  {
    var more := events + [e];
    LastMoves(events, e, STATUS_KINDS);
    assert more[|events|] == e && more[..|events|] == events;
    forall i: nat | LastOf(more, STATUS_KINDS, i) ensures RecordRow(run, e).status == StatusAt(more, i) {
      if !Hears(STATUS_KINDS, e) { assert more[i] == events[i] && more[..i] == events[..i]; }
    }
  }

  lemma {:induction false} ColumnMoves<T>(
      events: seq<RunEvent>, e: RunEvent, kinds: set<EventType>, before: Option<T>, after: Option<T>,
      read: RunEvent -> T)
    requires Reflects(events, kinds, before, read)
    requires after == if Hears(kinds, e) then Some(read(e)) else before
    ensures Reflects(events + [e], kinds, after, read)
  {
    var more := events + [e];
    LastMoves(events, e, kinds);
    assert more[|events|] == e && forall i :: 0 <= i < |events| ==> more[i] == events[i];
  }

  lemma {:induction false} PlanMoves(run: Run, e: RunEvent)
    requires Reflects(run.events, PLAN_KINDS, run.plan, PayloadOf)
    ensures Reflects(run.events + [e], PLAN_KINDS, RecordRow(run, e).plan, PayloadOf)
  {
    ColumnMoves(run.events, e, PLAN_KINDS, run.plan, RecordRow(run, e).plan, PayloadOf);
  }

  lemma {:induction false} DecisionMoves(run: Run, e: RunEvent)
    requires Reflects(run.events, DECISION_KINDS, run.decision, DecisionOf)
    ensures Reflects(run.events + [e], DECISION_KINDS, RecordRow(run, e).decision, DecisionOf)
  {
    ColumnMoves(run.events, e, DECISION_KINDS, run.decision, RecordRow(run, e).decision, DecisionOf);
  }

  lemma {:induction false} ResultsMove(run: Run, e: RunEvent)
    requires Reflects(run.events, RESULT_KINDS, run.results, PayloadOf)
    ensures Reflects(run.events + [e], RESULT_KINDS, RecordRow(run, e).results, PayloadOf)
  {
    ColumnMoves(run.events, e, RESULT_KINDS, run.results, RecordRow(run, e).results, PayloadOf);
  }

  lemma {:induction false} RecordedReflects(run: Run, e: RunEvent)
    requires RowReflects(run) && RequestInv(run)
    ensures RowReflects(RecordRow(run, e))
  {
    RecordFrame(run, e);
    PlanMoves(run, e);
    DecisionMoves(run, e);
    ResultsMove(run, e);
    if run.approvals == [] { StatusMoves(run.events, Pending, run, e); }
  }

  /**
   Over every interleaving: plan, decision and results are those of the last event that carries
   one, and until a human decides the status is the one the last status event dictates, a
   completion counting as awaited exactly if an approval had been requested before it.
   */
  lemma {:induction false} RowIsDictatedByLog(mode: RunMode, actions: seq<RowAction>)
    ensures RowReflects(Exec(NewRun(mode), actions))
  {
    if actions != [] {
      var n := |actions| - 1;
      var run := Exec(NewRun(mode), actions[..n]);
      RowIsDictatedByLog(mode, actions[..n]);
      ExecInv(mode, actions[..n]);
      match actions[n]
      case Recording(e) => if RowOutcome(run, e) == Created { RecordedReflects(run, e); }
      case Deciding(cmd) =>
    }
  }

  // ---- After the decision ----

  /**
   A run decided by this approval, whose events from number `from` on were recorded afterwards.  The
   approval state is the verdict, until an approval is requested again.
   */
  ghost predicate DecidedAt(run: Run, approval: Approval, from: nat) {
    && run.approvals == [approval] && from <= |run.events|
    && StatusReflects(run.events[from..], Completed, run.status)
    && run.approvalState ==
      if Requested(run.events[from..]) then Awaiting
      else match approval.verdict case Approve => Approved case Reject => Rejected
  }

  /** What a decision leaves on record: who took it, why, and the version it made. */
  function ApprovalOf(cmd: DecideCommand): Approval {
    Approval(cmd.verdict, cmd.actor, Trim(cmd.reason), cmd.expectedVersion + 1)
  }

  lemma {:induction false} DecisionIsReflected(run: Run, cmd: DecideCommand)
    requires MayDecide(run, cmd)
    ensures DecidedAt(DecideRow(run, cmd), ApprovalOf(cmd), |run.events|)
  {
  }

  lemma {:induction false} DecidedMoves(run: Run, approval: Approval, from: nat, e: RunEvent)
    requires DecidedAt(run, approval, from)
    ensures DecidedAt(RecordRow(run, e), approval, from)
  {
    RecordFrame(run, e);
    var since := run.events[from..];
    assert (run.events + [e])[from..] == since + [e];
    StatusMoves(since, Completed, run, e);
    LogGrowth(since, e);
  }

  lemma {:induction false} DecidedStep(run: Run, approval: Approval, from: nat, a: RowAction)
    requires DecidedAt(run, approval, from)
    ensures DecidedAt(Step(run, a), approval, from) && run.events <= Step(run, a).events
  {
    match a
    case Recording(e) => if RowOutcome(run, e) == Created { DecidedMoves(run, approval, from, e); RecordFrame(run, e); }
    case Deciding(cmd) =>
  }

  lemma {:induction false} DecidedStays(
      run: Run, actions: seq<RowAction>, later: seq<RowAction>, approval: Approval, from: nat)
    requires DecidedAt(Exec(run, actions), approval, from)
    ensures DecidedAt(Exec(run, actions + later), approval, from)
    ensures Exec(run, actions).events <= Exec(run, actions + later).events
  {
    if later == [] {
      assert actions + later == actions;
    } else {
      var n := |later| - 1;
      OneMoreStep(run, actions + later[..n], actions + later, later[n]);
      DecidedStays(run, actions, later[..n], approval, from);
      DecidedStep(Exec(run, actions + later[..n]), approval, from, later[n]);
    }
  }

  lemma {:induction false} OneMoreStep(run: Run, init: seq<RowAction>, all: seq<RowAction>, last: RowAction)
    requires all == init + [last]
    ensures Exec(run, all) == Step(Exec(run, init), last)
  {
    assert all[..|all| - 1] == init;
  }

  /**
   After the human decision, whatever is recorded later: its approval stays the only one, the approval
   state is its verdict until an approval is requested again, and the status is COMPLETED until an
   event sets another one, and then the one the last status event since the decision dictates.  A completion
   waits for approval again exactly if one was requested between the decision and the completion.
   */
  lemma {:induction false} StatusAfterDecision(
      mode: RunMode, actions: seq<RowAction>, cmd: DecideCommand, later: seq<RowAction>)
    requires MayDecide(Exec(NewRun(mode), actions), cmd)
    ensures var before := Exec(NewRun(mode), actions);
      var run := Exec(NewRun(mode), actions + [Deciding(cmd)] + later);
      before.events <= run.events && DecidedAt(run, ApprovalOf(cmd), |before.events|)
  {
    var before, upTo := Exec(NewRun(mode), actions), actions + [Deciding(cmd)];
    assert upTo[..|upTo| - 1] == actions;
    DecisionIsReflected(before, cmd);
    DecidedStays(NewRun(mode), upTo, later, ApprovalOf(cmd), |before.events|);
  }

  // ---- Tasks ----

  const TASK_KINDS := {AgentStarted, AgentCompleted}
  const FINISHING_KINDS := {AgentCompleted}

  predicate Names(e: RunEvent, kinds: set<EventType>, id: string) {
    Hears(kinds, e) && id != "" && "taskId" in e.payload && e.payload["taskId"] == String(id)
  }

  predicate PlansTask(e: RunEvent, id: string) {
    e.kind == PlanCreated && "tasks" in e.payload && e.payload["tasks"].Array?
    && exists i: nat :: i < |e.payload["tasks"].items| && FirstWithId(e.payload["tasks"].items, i, id)
  }

  predicate Planned(events: seq<RunEvent>, id: string) {
    exists c :: 0 <= c < |events| && PlansTask(events[c], id)
  }

  function TaskStatusAt(e: RunEvent): TaskStatus {
    if e.kind == AgentStarted then TaskRunning
    else if "status" in e.payload && e.payload["status"] == String("FAILED") then TaskFailed
    else if "status" in e.payload && e.payload["status"] == String("SKIPPED") then TaskSkipped
    else TaskCompleted
  }

  function ResultAt(e: RunEvent): Option<Payload> {
    Some(e.payload)
  }

  /** Event `i` is the last of these kinds that names this agent task after it was planned. */
  predicate LastNaming(events: seq<RunEvent>, kinds: set<EventType>, id: string, i: nat) {
    i < |events| && Names(events[i], kinds, id) && Planned(events[..i], id)
    && forall j :: i < j < |events| ==> !Names(events[j], kinds, id)
  }

  /** A column of a task holds what `read` finds in the last event naming it, and `unset` before. */
  ghost predicate TaskColumn<T>(
      events: seq<RunEvent>, kinds: set<EventType>, id: string, column: T, unset: T, read: RunEvent -> T)
  {
    && (forall i: nat :: LastNaming(events, kinds, id, i) ==> column == read(events[i]))
    && ((forall i: nat :: !LastNaming(events, kinds, id, i)) ==> column == unset)
  }

  /**
   A task exists exactly if it was planned; its status is that of the last event naming it since, and
   its result the payload of the last agent completion naming it since.
   */
  ghost predicate TaskReflects(events: seq<RunEvent>, tasks: map<string, Task>, id: string) {
    && (id in tasks <==> Planned(events, id))
    && (id in tasks ==>
        && TaskColumn(events, TASK_KINDS, id, tasks[id].status, TaskPending, TaskStatusAt)
        && TaskColumn(events, FINISHING_KINDS, id, tasks[id].result, None, ResultAt))
  }

  lemma {:induction false} PlannedGrows(events: seq<RunEvent>, e: RunEvent, id: string)
    ensures Planned(events + [e], id) <==> Planned(events, id) || PlansTask(e, id)
  {
    var more := events + [e];
    assert more[|events|] == e;
    if Planned(events, id) {
      var c :| 0 <= c < |events| && PlansTask(events[c], id);
      assert PlansTask(more[c], id);
    }
  }

  lemma {:induction false} NamingMoves(events: seq<RunEvent>, e: RunEvent, kinds: set<EventType>, id: string)
    ensures Names(e, kinds, id) && Planned(events, id) ==>
      forall i: nat :: LastNaming(events + [e], kinds, id, i) <==> i == |events|
    ensures !Names(e, kinds, id) ==>
      forall i: nat :: LastNaming(events + [e], kinds, id, i) <==> LastNaming(events, kinds, id, i)
    ensures Names(e, kinds, id) && !Planned(events, id) ==>
      forall i: nat :: !LastNaming(events + [e], kinds, id, i)
  {
    var more, n := events + [e], |events|;
    assert more[n] == e && more[..n] == events;
    forall i: nat | i < n ensures more[i] == events[i] && more[..i] == events[..i] {}
    if Names(e, kinds, id) {
      forall i: nat ensures LastNaming(more, kinds, id, i) <==> i == n && Planned(events, id) {
        if i < n { assert Names(more[n], kinds, id); }
      }
    }
  }

  lemma {:induction false} NotYetNamed(events: seq<RunEvent>, kinds: set<EventType>, id: string)
    requires !Planned(events, id)
    ensures forall i: nat :: !LastNaming(events, kinds, id, i)
  {
    forall i: nat ensures !LastNaming(events, kinds, id, i) { PlannedSooner(events, id, i); }
  }

  lemma {:induction false} PlannedSooner(events: seq<RunEvent>, id: string, i: nat)
    ensures i < |events| && Planned(events[..i], id) ==> Planned(events, id)
  {
    if i < |events| && Planned(events[..i], id) {
      var c :| 0 <= c < i && PlansTask(events[..i][c], id);
      assert PlansTask(events[c], id);
    }
  }

  lemma {:induction false} TaskColumnMoves<T>(
      events: seq<RunEvent>, e: RunEvent, kinds: set<EventType>, id: string, before: T, after: T, unset: T,
      read: RunEvent -> T)
    requires Planned(events, id) && TaskColumn(events, kinds, id, before, unset, read)
    requires after == if Names(e, kinds, id) then read(e) else before
    ensures TaskColumn(events + [e], kinds, id, after, unset, read)
  {
    var more := events + [e];
    NamingMoves(events, e, kinds, id);
    assert more[|events|] == e && forall i :: 0 <= i < |events| ==> more[i] == events[i];
    if Names(e, kinds, id) { assert LastNaming(more, kinds, id, |events|); }
  }

  lemma {:induction false} TaskColumnStarts<T>(
      events: seq<RunEvent>, e: RunEvent, kinds: set<EventType>, id: string, unset: T, read: RunEvent -> T)
    requires !Planned(events, id)
    ensures TaskColumn(events + [e], kinds, id, unset, unset, read)
  {
    NotYetNamed(events, kinds, id);
    NamingMoves(events, e, kinds, id);
  }

  /** What one event does to a task: it is created by the first plan with it, or moved by an event naming it. */
  lemma {:induction false} TaskEffect(run: Run, e: RunEvent, id: string)
    ensures var after := RecordRow(run, e).tasks;
      && (id in after <==> id in run.tasks || PlansTask(e, id))
      && (id in run.tasks ==>
          && after[id].status == (if Names(e, TASK_KINDS, id) then TaskStatusAt(e) else run.tasks[id].status)
          && after[id].result == (if Names(e, FINISHING_KINDS, id) then ResultAt(e) else run.tasks[id].result))
      && (id !in run.tasks && id in after ==> after[id].status == TaskPending && after[id].result == None)
  {
    if e.kind == PlanCreated && "tasks" in e.payload && e.payload["tasks"].Array? {
      UpsertKeepsAndFirstWins(run.tasks, e.payload["tasks"].items, id);
    }
  }

  lemma {:induction false} TaskMoves(run: Run, e: RunEvent, id: string)
    requires TaskReflects(run.events, run.tasks, id)
    ensures TaskReflects(run.events + [e], RecordRow(run, e).tasks, id)
  {
    var events, after := run.events, RecordRow(run, e).tasks;
    TaskEffect(run, e, id);
    PlannedGrows(events, e, id);
    if id in run.tasks {
      TaskColumnMoves(events, e, TASK_KINDS, id, run.tasks[id].status, after[id].status, TaskPending, TaskStatusAt);
      TaskColumnMoves(events, e, FINISHING_KINDS, id, run.tasks[id].result, after[id].result, None, ResultAt);
    } else {
      TaskColumnStarts(events, e, TASK_KINDS, id, TaskPending, TaskStatusAt);
      TaskColumnStarts(events, e, FINISHING_KINDS, id, None, ResultAt);
    }
  }

  /** Over every interleaving each task holds what the events since it was planned dictate. */
  lemma {:induction false} TaskIsDictatedByLog(mode: RunMode, actions: seq<RowAction>, id: string)
    ensures var run := Exec(NewRun(mode), actions); TaskReflects(run.events, run.tasks, id)
  {
    if actions != [] {
      var n := |actions| - 1;
      var run := Exec(NewRun(mode), actions[..n]);
      TaskIsDictatedByLog(mode, actions[..n], id);
      match actions[n]
      case Recording(e) => if RowOutcome(run, e) == Created { TaskMoves(run, e, id); RecordFrame(run, e); }
      case Deciding(cmd) =>
    }
  }
}
