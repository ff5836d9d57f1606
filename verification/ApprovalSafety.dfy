/**
 Every interleaving of recorded events and approval decisions on one run.
 No assumption is made here about which events arrive or in which order.
 */
module ApprovalSafety {
  import opened Common
  import opened RunEvents
  import opened RunStore

  datatype RowAction = Recording(e: RunEvent) | Deciding(cmd: DecideCommand)

  /** One serializable transaction; a refused one leaves the row as it was. */
  function Step(run: Run, a: RowAction): Run {
    match a
    case Recording(e) => if RowOutcome(run, e) == Created then RecordRow(run, e) else run
    case Deciding(cmd) => if MayDecide(run, cmd) then DecideRow(run, cmd) else run
  }

  function Exec(run: Run, actions: seq<RowAction>): Run {
    if actions == [] then run
    else Step(Exec(run, actions[..|actions| - 1]), actions[|actions| - 1])
  }

  // ---- Statements about a log ----

  predicate Requested(events: seq<RunEvent>) {
    exists i :: 0 <= i < |events| && events[i].kind == ApprovalRequired
  }

  /** A completion was recorded at a moment when no approval had been requested yet. */
  predicate CompletedUnrequested(events: seq<RunEvent>) {
    exists i :: 0 <= i < |events| && events[i].kind == RunCompleted && !Requested(events[..i])
  }

  /** The decision column holds what some recorded synthesis event carried. */
  predicate SynthesisCarried(events: seq<RunEvent>, decision: Json) {
    exists i :: 0 <= i < |events| && events[i].kind == SynthesisCompleted
      && decision == DecisionValue(events[i].payload)
  }

  /** Some recorded synthesis event carried exactly this proposal. */
  predicate Proposed(events: seq<RunEvent>, proposal: Proposal) {
    exists i :: 0 <= i < |events| && events[i].kind == SynthesisCompleted
      && ExtractProposedAction(Some(DecisionValue(events[i].payload))) == Some(proposal)
  }

  // ---- The invariants ----

  /** The log is numbered from one without gaps, and no key or id occurs twice. */
  predicate LogInv(run: Run) {
    && run.lastEventSequence == |run.events|
    && (forall i :: 0 <= i < |run.events| ==> run.events[i].sequence == i + 1)
    && (forall i, j :: 0 <= i < j < |run.events| ==>
        run.events[i].key != run.events[j].key && run.events[i].id != run.events[j].id)
  }

  predicate ApprovalInv(run: Run) {
    && |run.approvals| <= 1
    && run.version == |run.approvals|
    && |run.tickets| == (if run.approvals != [] && run.approvals[0].verdict == Approve then 1 else 0)
    && (run.approvals != [] ==> run.approvals[0].runVersion == 1)
  }

  /** Before the human decision the approval state says exactly whether one was requested. */
  predicate RequestInv(run: Run) {
    && (run.approvals == [] ==> run.approvalState == if Requested(run.events) then Awaiting else NotRequested)
    && (run.approvals != [] ==> Requested(run.events))
  }

  predicate ProvenanceInv(run: Run) {
    && (run.decision.Some? ==> SynthesisCarried(run.events, run.decision.value))
    && (forall t :: t in run.tickets ==> Proposed(run.events, t.proposal))
  }

  predicate CompletionInv(run: Run) {
    run.status in {Completed, Partial} && run.approvals == [] ==> CompletedUnrequested(run.events)
  }

  predicate Inv(run: Run) {
    LogInv(run) && ApprovalInv(run) && RequestInv(run) && ProvenanceInv(run) && CompletionInv(run)
  }

  // ---- Log predicates under extension ----

  lemma {:induction false} LogGrowth(events: seq<RunEvent>, e: RunEvent)
    ensures Requested(events + [e]) <==> Requested(events) || e.kind == ApprovalRequired
    ensures CompletedUnrequested(events) ==> CompletedUnrequested(events + [e])
    ensures e.kind == RunCompleted && !Requested(events) ==> CompletedUnrequested(events + [e])
    ensures forall d :: SynthesisCarried(events, d) ==> SynthesisCarried(events + [e], d)
    ensures e.kind == SynthesisCompleted ==> SynthesisCarried(events + [e], DecisionValue(e.payload))
    ensures forall p :: Proposed(events, p) ==> Proposed(events + [e], p)
  {
    var more := events + [e];
    var n := |events|;
    assert more[n] == e && more[..n] == events;
    if Requested(events) {
      var i :| 0 <= i < n && events[i].kind == ApprovalRequired;
      assert more[i].kind == ApprovalRequired;
    }
    if CompletedUnrequested(events) {
      var i :| 0 <= i < n && events[i].kind == RunCompleted && !Requested(events[..i]);
      assert more[i].kind == RunCompleted && more[..i] == events[..i];
    }
    forall d | SynthesisCarried(events, d) ensures SynthesisCarried(more, d) {
      var i :| 0 <= i < n && events[i].kind == SynthesisCompleted && d == DecisionValue(events[i].payload);
      assert more[i].kind == SynthesisCompleted && d == DecisionValue(more[i].payload);
    }
    forall p | Proposed(events, p) ensures Proposed(more, p) {
      var i :| 0 <= i < n && events[i].kind == SynthesisCompleted
        && ExtractProposedAction(Some(DecisionValue(events[i].payload))) == Some(p);
      assert more[i] == events[i];
    }
  }

  /** Recording changes neither the version nor the approval and ticket tables. */
  lemma {:induction false} RecordFrame(run: Run, e: RunEvent)
    ensures var after := RecordRow(run, e);
      && after.events == run.events + [e]
      && after.lastEventSequence == e.sequence
      && after.version == run.version
      && after.approvals == run.approvals
      && after.tickets == run.tickets
      && after.decision == (if e.kind == SynthesisCompleted then Some(DecisionValue(e.payload)) else run.decision)
      && after.approvalState == (if e.kind == ApprovalRequired then Awaiting else run.approvalState)
      && (after.status in {Completed, Partial} <==>
          || (e.kind == RunCompleted && run.approvalState != Awaiting)
          || (run.status in {Completed, Partial}
              && e.kind in {ToolCompleted, CitationAdded, AgentCompleted, SynthesisCompleted}))
  {
  }

  lemma {:induction false} RecordPreserves(run: Run, e: RunEvent)
    requires Inv(run) && RowOutcome(run, e) == Created
    ensures Inv(RecordRow(run, e))
  {
    var after := RecordRow(run, e);
    RecordFrame(run, e);
    LogGrowth(run.events, e);
    assert forall i :: 0 <= i < |run.events| ==> after.events[i] == run.events[i];
    assert forall i :: 0 <= i < |run.events| ==> run.events[i].key != e.key && run.events[i].id != e.id;
  }

  lemma {:induction false} DecidePreserves(run: Run, cmd: DecideCommand)
    requires Inv(run) && MayDecide(run, cmd)
    ensures Inv(DecideRow(run, cmd))
  {
    var after := DecideRow(run, cmd);
    assert run.tickets == [];
    if cmd.verdict == Approve {
      var i :| 0 <= i < |run.events| && run.events[i].kind == SynthesisCompleted
        && run.decision.value == DecisionValue(run.events[i].payload);
      assert Proposed(run.events, after.tickets[0].proposal);
    }
  }

  lemma {:induction false} StepPreserves(run: Run, a: RowAction)
    requires Inv(run)
    ensures Inv(Step(run, a))
  {
    match a
    case Recording(e) => if RowOutcome(run, e) == Created { RecordPreserves(run, e); }
    case Deciding(cmd) => if MayDecide(run, cmd) { DecidePreserves(run, cmd); }
  }

  lemma {:induction false} ExecInv(mode: RunMode, actions: seq<RowAction>)
    ensures Inv(Exec(NewRun(mode), actions))
  {
    if actions != [] {
      ExecInv(mode, actions[..|actions| - 1]);
      StepPreserves(Exec(NewRun(mode), actions[..|actions| - 1]), actions[|actions| - 1]);
    }
  }

  // ---- The theorems ----

  /**
   Whatever is recorded and decided in whatever order: at most one approval and one ticket, a
   ticket exactly for an APPROVE, a version that counts the approvals, and an approval only
   after one was requested.
   */
  lemma {:induction false} ApprovalSafety(mode: RunMode, actions: seq<RowAction>)
    ensures var run := Exec(NewRun(mode), actions);
      && |run.approvals| <= 1
      && |run.tickets| <= 1
      && (run.tickets != [] <==> run.approvals != [] && run.approvals[0].verdict == Approve)
      && run.version == |run.approvals|
      && (run.approvals != [] ==> Requested(run.events))
  {
    ExecInv(mode, actions);
  }

  /** A ticket carries the proposal of a synthesis event that was recorded before it. */
  lemma {:induction false} TicketProvenance(mode: RunMode, actions: seq<RowAction>)
    ensures var run := Exec(NewRun(mode), actions);
      forall t :: t in run.tickets ==> Proposed(run.events, t.proposal)
  {
    ExecInv(mode, actions);
  }

  /** A run is finished without a human only if a completion was recorded before any approval request. */
  lemma {:induction false} CompletionNeedsHuman(mode: RunMode, actions: seq<RowAction>)
    ensures var run := Exec(NewRun(mode), actions);
      run.status in {Completed, Partial} && !CompletedUnrequested(run.events) ==> |run.approvals| == 1
  {
    ExecInv(mode, actions);
  }

  /** And such a premature completion really does finish the run: the condition is exact. */
  lemma {:induction false} PrematureCompletionFinishes(mode: RunMode, actions: seq<RowAction>, e: RunEvent)
    requires e.kind == RunCompleted && RowOutcome(Exec(NewRun(mode), actions), e) == Created
    ensures var run := Exec(NewRun(mode), actions);
      var after := Step(run, Recording(e));
      run.approvals == [] ==> (after.status in {Completed, Partial} <==> !Requested(run.events))
  {
    ExecInv(mode, actions);
  }

  /** One transaction never rewrites the log: it appends at most one event, carrying the next number. */
  lemma {:induction false} StepAppends(run: Run, a: RowAction)
    ensures var after := Step(run, a);
      after.events == run.events
      || (a.Recording? && after.events == run.events + [a.e] && a.e.sequence == run.lastEventSequence + 1)
  {
  }

  /** Once decided, every further decision is refused, whatever is recorded in between. */
  lemma {:induction false} DecidedOnce(
      mode: RunMode, actions: seq<RowAction>, cmd: DecideCommand, later: seq<RowAction>, again: DecideCommand)
    requires MayDecide(Exec(NewRun(mode), actions), cmd)
    ensures !MayDecide(Exec(NewRun(mode), actions + [Deciding(cmd)] + later), again)
  {
    var run := Exec(NewRun(mode), actions);
    var upTo := actions + [Deciding(cmd)];
    assert upTo[..|upTo| - 1] == actions;
    assert Exec(NewRun(mode), upTo).approvals != [];
    ApprovalsStay(NewRun(mode), upTo, later);
  }

  lemma {:induction false} ApprovalsStay(run: Run, actions: seq<RowAction>, later: seq<RowAction>)
    ensures Exec(run, actions).approvals <= Exec(run, actions + later).approvals
  {
    if later == [] {
      assert actions + later == actions;
    } else {
      var all := actions + later;
      assert all[..|all| - 1] == actions + later[..|later| - 1];
      ApprovalsStay(run, actions, later[..|later| - 1]);
      StepKeepsApprovals(Exec(run, all[..|all| - 1]), all[|all| - 1]);
    }
  }

  lemma {:induction false} StepKeepsApprovals(run: Run, a: RowAction)
    ensures run.approvals <= Step(run, a).approvals
  {
    if a.Recording? { RecordFrame(run, a.e); }
  }
}
