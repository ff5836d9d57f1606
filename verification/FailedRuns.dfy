/**
 When a run leaves FAILED: exactly which transactions do it, over every schedule of the protocol,
 and a schedule in which a failed run is approved and acquires a ticket.
 */
module FailedRuns {
  import opened Common
  import opened RunEvents
  import opened RunStore
  import opened ApprovalSafety
  import Runner
  import opened Delivery

  const REVIVING := {RunStarted, PlanCreated, AgentStarted, ApprovalRequired, RunCompleted}

  /** The transaction goes through, and it is a decision or an event that sets another status. */
  predicate Revives(run: Run, a: RowAction) {
    match a
    case Recording(e) => RowOutcome(run, e) == Created && e.kind in REVIVING
    case Deciding(cmd) => MayDecide(run, cmd)
  }

  /** For every row: FAILED is left by exactly these transactions. */
  lemma {:induction false} FailedIsLeftExactly(run: Run, a: RowAction)
    requires run.status == RunStatus.Failed
    ensures ApprovalSafety.Step(run, a).status != RunStatus.Failed <==> Revives(run, a)
  {
    if a.Recording? && RowOutcome(run, a.e) == Created {
      RecordedStatus(run, a.e);
    }
  }

  lemma {:induction false} RecordedStatus(run: Run, e: RunEvent)
    requires run.status == RunStatus.Failed
    ensures RecordRow(run, e).status != RunStatus.Failed <==> e.kind in REVIVING
  {
    match e.kind
    case _ =>
  }

  /** The protocol step is such a transaction; a dispatch failure never is. */
  predicate StepRevives(cfg: Config, s: System, a: Action) {
    match a
    case Serve(m) => m in s.network && Revives(s.run, Recording(cfg.keep(m.event)))
    case Take(cmd) => MayDecide(s.run, cmd)
    case _ => false
  }

  lemma {:induction false} StepLeavesExactly(cfg: Config, s: System, a: Action)
    requires Faithful(cfg) && s.run.status == RunStatus.Failed
    ensures Delivery.Apply(cfg, s, a).run.status != RunStatus.Failed <==> StepRevives(cfg, s, a)
  {
    match a
    case Serve(m) => if m in s.network { FailedIsLeftExactly(s.run, Recording(cfg.keep(m.event))); }
    case Take(cmd) => FailedIsLeftExactly(s.run, Deciding(cmd));
    case DispatchFails(d) => FailedIsLeftExactly(s.run, Recording(cfg.keep(d)));
    case _ =>
  }

  /** FAILED at every moment from `actions` through `later`. */
  predicate StaysFailed(cfg: Config, actions: seq<Action>, later: seq<Action>) {
    Delivery.Exec(cfg, actions + later).run.status == RunStatus.Failed
    && (later != [] ==> StaysFailed(cfg, actions, later[..|later| - 1]))
  }

  predicate NothingRevives(cfg: Config, actions: seq<Action>, later: seq<Action>) {
    later != [] ==>
      var n := |later| - 1;
      NothingRevives(cfg, actions, later[..n]) && !StepRevives(cfg, Delivery.Exec(cfg, actions + later[..n]), later[n])
  }

  /** Over every schedule a failed run stays failed exactly as long as no such transaction goes through. */
  lemma {:induction false} StaysFailedExactly(cfg: Config, actions: seq<Action>, later: seq<Action>)
    requires Faithful(cfg) && Delivery.Exec(cfg, actions).run.status == RunStatus.Failed
    ensures StaysFailed(cfg, actions, later) <==> NothingRevives(cfg, actions, later)
  {
    if later == [] {
      assert actions + later == actions;
    } else {
      var n := |later| - 1;
      StaysFailedExactly(cfg, actions, later[..n]);
      assert actions + later == (actions + later[..n]) + [later[n]];
      ExecAppend(cfg, actions + later[..n], later[n]);
      if Delivery.Exec(cfg, actions + later[..n]).run.status == RunStatus.Failed {
        StepLeavesExactly(cfg, Delivery.Exec(cfg, actions + later[..n]), later[n]);
      }
    }
  }

  // ---- A schedule without trouble ----

  function ScriptEvent(cfg: Config, n: nat): RunEvent
    requires n < |cfg.script|
  {
    cfg.make(n + 1, cfg.script[n])
  }

  /** The first n events of the script are each posted, stored and acknowledged at once. */
  function Smooth(cfg: Config, n: nat): seq<Action>
    requires n <= |cfg.script|
  {
    if n == 0 then []
    else Smooth(cfg, n - 1) + [Emit] + [Serve(Message(ScriptEvent(cfg, n - 1), 1))] + [Hear(Reply(n, 1, Created))]
  }

  /** The row after the first n events of the script. */
  function RowAfter(cfg: Config, n: nat): Run
    requires n <= |cfg.script|
  {
    if n == 0 then NewRun(cfg.mode) else RecordRow(RowAfter(cfg, n - 1), cfg.keep(ScriptEvent(cfg, n - 1)))
  }

  /** Nobody has decided yet, and n events are stored. */
  predicate Fresh(run: Run, mode: RunMode, n: nat) {
    && |run.events| == n && run.lastEventSequence == n && run.mode == mode
    && run.version == 0 && run.approvals == [] && run.tickets == []
  }

  lemma {:induction false} RecordKeepsFresh(run: Run, mode: RunMode, n: nat, e: RunEvent)
    requires Fresh(run, mode, n) && e.sequence == n + 1
    ensures Fresh(RecordRow(run, e), mode, n + 1) && RecordRow(run, e).events == run.events + [e]
  {
    RecordFrame(run, e);
    RecordKeepsMode(run, e);
  }

  lemma {:induction false} RowAfterLog(cfg: Config, n: nat)
    requires Faithful(cfg) && n <= |cfg.script|
    ensures Fresh(RowAfter(cfg, n), cfg.mode, n)
    ensures forall i :: 0 <= i < n ==> RowAfter(cfg, n).events[i] == cfg.keep(ScriptEvent(cfg, i))
  {
    if n > 0 {
      RowAfterLog(cfg, n - 1);
      RecordKeepsFresh(RowAfter(cfg, n - 1), cfg.mode, n - 1, cfg.keep(ScriptEvent(cfg, n - 1)));
    }
  }

  lemma {:induction false} RecordKeepsMode(run: Run, e: RunEvent)
    ensures RecordRow(run, e).mode == run.mode
  {
  }

  /** The plans of a multi-agent script are stored with one task for each specialist. */
  ghost predicate PlansSuit(cfg: Config) {
    cfg.mode == Multi ==> forall n: nat, m :: m in cfg.script && m.kind == PlanCreated ==>
      PlansEverySpecialist(cfg.keep(cfg.make(n, m)).payload)
  }

  /** The real services keep a plan suitable. */
  lemma {:induction false} RealPlansSuit(cfg: Config, runId: string)
    requires RealServices(cfg, runId)
    requires cfg.mode == Multi ==>
      && cfg.scrub("CREDIT") == "CREDIT" && cfg.scrub("COMPLIANCE") == "COMPLIANCE"
      && cfg.scrub("OPERATIONS") == "OPERATIONS"
      && forall m :: m in cfg.script && m.kind == PlanCreated ==> PlansEverySpecialist(m.payload)
    ensures PlansSuit(cfg)
  {
    if cfg.mode == Multi {
      forall n: nat, m | m in cfg.script && m.kind == PlanCreated
        ensures PlansEverySpecialist(cfg.keep(cfg.make(n, m)).payload)
      {
        assert cfg.keep(cfg.make(n, m)) == Stored(cfg.scrub, MakeEvent(runId, n, m));
        PlanSurvivesRedaction(cfg.scrub, m.payload);
      }
    }
  }

  /** An event of a position beyond the stored ones is accepted next. */
  lemma {:induction false} NextIsAccepted(cfg: Config, n: nat, m: Emission)
    requires Faithful(cfg) && Distinct(cfg) && PlansSuit(cfg) && n <= |cfg.script|
    requires m in cfg.script || m.kind != PlanCreated
    ensures RowOutcome(RowAfter(cfg, n), cfg.keep(cfg.make(n + 1, m))) == Created
  {
    var run, e := RowAfter(cfg, n), cfg.keep(cfg.make(n + 1, m));
    RowAfterLog(cfg, n);
    assert e.sequence == n + 1;
    forall i | 0 <= i < n ensures run.events[i].key != e.key && run.events[i].id != e.id {
      assert run.events[i] == cfg.keep(ScriptEvent(cfg, i));
      assert cfg.make(i + 1, cfg.script[i]).key != cfg.make(n + 1, m).key;
    }
    TakenExactly(run, e);
  }

  /** Where a schedule without trouble leads. */
  predicate SmoothTo(cfg: Config, s: System, n: nat)
    requires n <= |cfg.script|
  {
    && s.run == RowAfter(cfg, n) && |s.emitted| == n && s.trouble.None? && s.dispatch.None?
    && s.phase == if n > 0 && n == |cfg.script| then Over else Ready
  }

  lemma {:induction false} SmoothStep(cfg: Config, s: System, n: nat)
    requires Faithful(cfg) && Distinct(cfg) && PlansSuit(cfg) && n < |cfg.script| && SmoothTo(cfg, s, n)
    ensures var e := ScriptEvent(cfg, n);
      var posted := Delivery.Apply(cfg, s, Emit);
      var served := Delivery.Apply(cfg, posted, Serve(Message(e, 1)));
      && posted == s.(emitted := s.emitted + [e], phase := Posting(1), network := s.network + {Message(e, 1)})
      && served.run == RowAfter(cfg, n + 1) && served.phase == Posting(1) && served.emitted == posted.emitted
      && served.trouble.None? && served.dispatch.None?
      && SmoothTo(cfg, Delivery.Apply(cfg, served, Hear(Reply(n + 1, 1, Created))), n + 1)
  {
    NextIsAccepted(cfg, n, cfg.script[n]);
    var e := ScriptEvent(cfg, n);
    var posted := Delivery.Apply(cfg, s, Emit);
    assert cfg.keep(e).sequence == n + 1;
    assert posted == s.(emitted := s.emitted + [e], phase := Posting(1), network := s.network + {Message(e, 1)});
  }

  lemma {:induction false} TwoMore(cfg: Config, actions: seq<Action>, a: Action, b: Action)
    ensures Delivery.Exec(cfg, actions + [a] + [b])
      == Delivery.Apply(cfg, Delivery.Apply(cfg, Delivery.Exec(cfg, actions), a), b)
  {
    ExecAppend(cfg, actions, a);
    ExecAppend(cfg, actions + [a], b);
  }

  /** The schedule up to the storing of the next event. */
  function Served(cfg: Config, n: nat): seq<Action>
    requires n < |cfg.script|
  {
    Smooth(cfg, n) + [Emit] + [Serve(Message(ScriptEvent(cfg, n), 1))]
  }

  predicate ServedTo(cfg: Config, s: System, n: nat)
    requires n < |cfg.script|
  {
    && s.run == RowAfter(cfg, n + 1) && s.phase == Posting(1) && |s.emitted| == n + 1
    && s.trouble.None? && s.dispatch.None?
    && SmoothTo(cfg, Delivery.Apply(cfg, s, Hear(Reply(n + 1, 1, Created))), n + 1)
  }

  lemma {:induction false} ServedLeads(cfg: Config, n: nat)
    requires Faithful(cfg) && Distinct(cfg) && PlansSuit(cfg) && n < |cfg.script|
    requires SmoothTo(cfg, Delivery.Exec(cfg, Smooth(cfg, n)), n)
    ensures ServedTo(cfg, Delivery.Exec(cfg, Served(cfg, n)), n)
  {
    SmoothStep(cfg, Delivery.Exec(cfg, Smooth(cfg, n)), n);
    TwoMore(cfg, Smooth(cfg, n), Emit, Serve(Message(ScriptEvent(cfg, n), 1)));
  }

  lemma {:induction false} SmoothIsServed(cfg: Config, n: nat)
    requires n < |cfg.script|
    ensures Smooth(cfg, n + 1) == Served(cfg, n) + [Hear(Reply(n + 1, 1, Created))]
  {
  }

  lemma {:induction false} SmoothLeads(cfg: Config, n: nat)
    requires Faithful(cfg) && Distinct(cfg) && PlansSuit(cfg) && n <= |cfg.script|
    ensures SmoothTo(cfg, Delivery.Exec(cfg, Smooth(cfg, n)), n)
  {
    if n > 0 {
      var k := n - 1;
      SmoothLeads(cfg, k);
      ServedLeads(cfg, k);
      ExecAppend(cfg, Served(cfg, k), Hear(Reply(k + 1, 1, Created)));
      SmoothIsServed(cfg, k);
    }
  }

  /**
   A run without trouble, of either mode: posting, storing and acknowledging one event after the other
   stores the whole script and ends the run.
   */
  lemma {:induction false} UntroubledRunIsStored(cfg: Config)
    requires Faithful(cfg) && Distinct(cfg) && PlansSuit(cfg) && cfg.script != []
    ensures var s := Delivery.Exec(cfg, Smooth(cfg, |cfg.script|));
      && |s.run.events| == |cfg.script| && s.phase == Over && s.trouble.None?
      && forall i :: 0 <= i < |cfg.script| ==> s.run.events[i] == cfg.keep(cfg.make(i + 1, cfg.script[i]))
  {
    SmoothLeads(cfg, |cfg.script|);
    RowAfterLog(cfg, |cfg.script|);
  }

  // ---- A failed run that is approved ----

  /** After the approval was asked for, the row holds the run's own decision and awaits an answer. */
  lemma {:induction false} AwaitsAnswer(cfg: Config, runId: string, w: Runner.WorkflowState)
    requires RealServices(cfg, runId) && Faithful(cfg) && Runs(cfg, w)
    requires w.decision.proposedAction.Some? && cfg.scrub(TICKET_ACTION) == TICKET_ACTION
    ensures var n := |cfg.script| - 1;
      && n >= 4 && RowAfter(cfg, n).approvalState == Awaiting
      && ExtractProposedAction(RowAfter(cfg, n).decision).Some?
  {
    Runner.ScriptGrammar(w);
    var n := |cfg.script| - 1;
    var synthesis, request := cfg.keep(ScriptEvent(cfg, n - 2)), cfg.keep(ScriptEvent(cfg, n - 1));
    assert cfg.script[n - 2] == Runner.Synthesised(w) && cfg.script[n - 1] == Runner.ApprovalAsked(w);
    assert synthesis == Stored(cfg.scrub, ScriptEvent(cfg, n - 2));
    ProposalSurvivesRedaction(cfg.scrub, w.decision);
    RecordFrame(RowAfter(cfg, n - 2), synthesis);
    RecordFrame(RowAfter(cfg, n - 1), request);
  }

  /** The completion is stored but its publish raises, so the failure event is stored behind it. */
  function Broken(cfg: Config): seq<Action>
    requires cfg.script != []
  {
    var n := |cfg.script|;
    Served(cfg, n - 1) + [Refused] + [Emit]
      + [Serve(Message(cfg.make(n + 1, Runner.Failure(Runner.DELIVERY_ERROR)), 1))]
  }

  /** Completion and failure leave the answer awaited and the decision untouched; the run is failed. */
  lemma {:induction false} BrokenRow(run: Run, completed: RunEvent, failed: RunEvent)
    requires completed.kind == RunCompleted && failed.kind == RunFailed
    ensures var row := RecordRow(RecordRow(run, completed), failed);
      && row.status == RunStatus.Failed && row.approvalState == run.approvalState && row.decision == run.decision
      && row.version == run.version && row.approvals == run.approvals && row.tickets == run.tickets
  {
    RecordFrame(run, completed);
    RecordFrame(RecordRow(run, completed), failed);
  }

  /** The publish of the last event raises after it was stored; the failure event is stored behind it. */
  lemma {:induction false} BrokenSteps(cfg: Config, s: System, f: RunEvent)
    requires Faithful(cfg) && Distinct(cfg) && PlansSuit(cfg)
    requires var n := |cfg.script|;
      && s.run == RowAfter(cfg, n) && s.phase == Posting(1) && |s.emitted| == n && s.trouble.None?
      && f == cfg.make(n + 1, Runner.Failure(Runner.DELIVERY_ERROR))
    ensures var t :=
      Delivery.Apply(cfg, Delivery.Apply(cfg, Delivery.Apply(cfg, s, Refused), Emit), Serve(Message(f, 1)));
      t.run == RecordRow(RowAfter(cfg, |cfg.script|), cfg.keep(f))
  {
    var n := |cfg.script|;
    var raised := Delivery.Apply(cfg, s, Refused);
    assert raised == s.(phase := Ready, trouble := Some(Trouble(n, Runner.DELIVERY_ERROR, false)));
    var posted := Delivery.Apply(cfg, raised, Emit);
    assert posted.run == s.run && Message(f, 1) in posted.network;
    NextIsAccepted(cfg, n, Runner.Failure(Runner.DELIVERY_ERROR));
  }

  /** Three more actions bring a run whose last event was stored to its failure event. */
  lemma {:induction false} BrokenFrom(cfg: Config, actions: seq<Action>, f: RunEvent)
    requires Faithful(cfg) && Distinct(cfg) && PlansSuit(cfg)
    requires var s, n := Delivery.Exec(cfg, actions), |cfg.script|;
      && s.run == RowAfter(cfg, n) && s.phase == Posting(1) && |s.emitted| == n && s.trouble.None?
      && f == cfg.make(n + 1, Runner.Failure(Runner.DELIVERY_ERROR))
    ensures Delivery.Exec(cfg, actions + [Refused] + [Emit] + [Serve(Message(f, 1))]).run
      == RecordRow(RowAfter(cfg, |cfg.script|), cfg.keep(f))
  {
    BrokenSteps(cfg, Delivery.Exec(cfg, actions), f);
    ExecAppend(cfg, actions, Refused);
    TwoMore(cfg, actions + [Refused], Emit, Serve(Message(f, 1)));
  }

  lemma {:induction false} BrokenLeads(cfg: Config, f: RunEvent)
    requires Faithful(cfg) && Distinct(cfg) && PlansSuit(cfg) && |cfg.script| >= 1
    requires f == cfg.make(|cfg.script| + 1, Runner.Failure(Runner.DELIVERY_ERROR))
    ensures Delivery.Exec(cfg, Broken(cfg)).run == RecordRow(RowAfter(cfg, |cfg.script|), cfg.keep(f))
  {
    var n := |cfg.script|;
    SmoothLeads(cfg, n - 1);
    ServedLeads(cfg, n - 1);
    BrokenFrom(cfg, Served(cfg, n - 1), f);
  }

  lemma {:induction false} ApprovalTicks(run: Run, cmd: DecideCommand)
    requires run.approvals == [] && run.tickets == [] && run.approvalState == Awaiting && run.version == 0
    requires ExtractProposedAction(run.decision).Some? && cmd.verdict == Approve && cmd.expectedVersion == 0
    ensures var after := ApprovalSafety.Step(run, Deciding(cmd));
      after.status == RunStatus.Completed && |after.tickets| == 1 && |after.approvals| == 1
  {
  }

  /** Failed, undecided, still awaiting an answer, with a proposal to approve. */
  predicate FailedButAwaited(run: Run) {
    && run.status == RunStatus.Failed && run.approvalState == Awaiting && run.version == 0
    && run.approvals == [] && run.tickets == [] && ExtractProposedAction(run.decision).Some?
  }

  lemma {:induction false} BrokenIsAwaited(cfg: Config, runId: string, w: Runner.WorkflowState)
    requires RealServices(cfg, runId) && Runs(cfg, w) && PlansSuit(cfg)
    requires w.decision.proposedAction.Some? && cfg.scrub(TICKET_ACTION) == TICKET_ACTION
    ensures cfg.script != [] && FailedButAwaited(Delivery.Exec(cfg, Broken(cfg)).run)
  {
    var n := |cfg.script|;
    RealServicesAreFaithful(cfg, runId);
    AwaitsAnswer(cfg, runId, w);
    var f := cfg.make(n + 1, Runner.Failure(Runner.DELIVERY_ERROR));
    BrokenLeads(cfg, f);
    RowAfterLog(cfg, n - 1);
    BrokenRow(RowAfter(cfg, n - 1), cfg.keep(ScriptEvent(cfg, n - 1)), cfg.keep(f));
  }

  /**
   The second way out of FAILED: a run whose completion could not be acknowledged is failed, but its
   approval is still awaited, and approving it completes the run and creates its ticket.
   */
  lemma {:induction false} FailedRunIsApproved(cfg: Config, runId: string, w: Runner.WorkflowState, cmd: DecideCommand)
    requires RealServices(cfg, runId) && Runs(cfg, w) && PlansSuit(cfg)
    requires w.decision.proposedAction.Some? && cfg.scrub(TICKET_ACTION) == TICKET_ACTION
    requires cmd.verdict == Approve && cmd.expectedVersion == 0
    ensures cfg.script != [] && Delivery.Exec(cfg, Broken(cfg)).run.status == RunStatus.Failed
    ensures var after := Delivery.Exec(cfg, Broken(cfg) + [Take(cmd)]).run;
      after.status == RunStatus.Completed && |after.tickets| == 1 && |after.approvals| == 1
  {
    BrokenIsAwaited(cfg, runId, w);
    TakeIsStep(cfg, Broken(cfg), cmd);
    ApprovalTicks(Delivery.Exec(cfg, Broken(cfg)).run, cmd);
  }

  lemma {:induction false} TakeIsStep(cfg: Config, actions: seq<Action>, cmd: DecideCommand)
    ensures Delivery.Exec(cfg, actions + [Take(cmd)]).run
      == ApprovalSafety.Step(Delivery.Exec(cfg, actions).run, Deciding(cmd))
  {
    ExecAppend(cfg, actions, Take(cmd));
  }
}
