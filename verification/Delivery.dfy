/**
 The delivery protocol of one run: a producer that posts numbered events with bounded retry, a
 network that may lose, delay, duplicate and reorder every request and every response, and the
 transactional log.  Decisions and the dispatch-failure event interleave freely.
 */
module Delivery {
  import opened Common
  import opened RunEvents
  import opened RunStore
  import opened ApprovalSafety
  import opened Redaction
  import Decision
  import Runner

  /**
   What is fixed for one run.  The script is what the producer emits if nothing goes wrong;
   `make` is the event factory and `keep` is what the backend stores of an event it receives.
   */
  datatype Config = Config(
    scrub: string -> string, make: (nat, Emission) -> RunEvent, keep: RunEvent -> RunEvent,
    mode: RunMode, script: seq<Emission>, maxAttempts: nat)

  /** The factory puts the emission at its position, and storing changes the payload only. */
  ghost predicate Faithful(cfg: Config) {
    && (forall n: nat, m ::
          cfg.make(n, m).sequence == n && cfg.make(n, m).kind == m.kind && cfg.make(n, m).payload == m.payload)
    && (forall e :: cfg.keep(e).id == e.id && cfg.keep(e).key == e.key
          && cfg.keep(e).sequence == e.sequence && cfg.keep(e).kind == e.kind)
  }

  /** Keys and ids never repeat at different positions. */
  ghost predicate Distinct(cfg: Config) {
    forall n: nat, m, k: nat, l :: n != k ==>
      cfg.make(n, m).key != cfg.make(k, l).key && cfg.make(n, m).id != cfg.make(k, l).id
  }

  /** The configuration of the real services. */
  ghost predicate RealServices(cfg: Config, runId: string) {
    && ValidRunId(runId)
    && (forall n: nat, m :: cfg.make(n, m) == MakeEvent(runId, n, m))
    && (forall e :: cfg.keep(e) == Stored(cfg.scrub, e))
  }

  /** The event factory and the redacting store meet the two assumptions. */
  lemma {:induction false} RealServicesAreFaithful(cfg: Config, runId: string)
    requires RealServices(cfg, runId)
    ensures Faithful(cfg) && Distinct(cfg)
  {
    forall n: nat, m, k: nat, l | n != k
      ensures cfg.make(n, m).key != cfg.make(k, l).key && cfg.make(n, m).id != cfg.make(k, l).id
    {
      assert cfg.make(n, m) == MakeEvent(runId, n, m);
      assert cfg.make(k, l) == MakeEvent(runId, k, l);
      if IdempotencyKey(runId, n, m.kind) == IdempotencyKey(runId, k, l.kind) {
        KeyDeterminesOrigin(runId, n, m.kind, runId, k, l.kind);
      }
    }
    forall n: nat, m
      ensures cfg.make(n, m).sequence == n && cfg.make(n, m).kind == m.kind && cfg.make(n, m).payload == m.payload
    {
      assert cfg.make(n, m) == MakeEvent(runId, n, m);
    }
    forall e
      ensures cfg.keep(e).id == e.id && cfg.keep(e).key == e.key
        && cfg.keep(e).sequence == e.sequence && cfg.keep(e).kind == e.kind
    {
      assert cfg.keep(e) == Stored(cfg.scrub, e);
    }
  }

  datatype Message = Message(event: RunEvent, attempt: nat)

  /** An answer of the backend to one attempt. */
  datatype Reply = Reply(sequence: nat, attempt: nat, outcome: Outcome)

  datatype Phase = Ready | Posting(attempt: nat) | Over

  /** An exception was raised after `at` events; `delivered` says whether the last of them was acknowledged. */
  datatype Trouble = Trouble(at: nat, code: string, delivered: bool)

  datatype System = System(
    emitted: seq<RunEvent>,
    phase: Phase,
    trouble: Option<Trouble>,
    network: set<Message>,      // every request ever posted: it may be processed at any later time, any number of times
    replies: set<Reply>,        // every answer ever given: it may be heard late or never
    dispatch: Option<RunEvent>, // the dispatch-failure event, once the backend has recorded or tried to record it
    run: Run)

  function Init(cfg: Config): System {
    System([], Ready, None, {}, {}, None, NewRun(cfg.mode))
  }

  datatype Action =
    | Emit                      // the factory numbers the next event and the client posts it
    | WorkflowRaises(code: string)
    | Serve(m: Message)         // the backend processes a copy of a posted request
    | Hear(r: Reply)            // the client hears an answer to its current attempt
    | NoAnswer                  // timeout, connection error, 429 or 5xx
    | Refused                   // any other 4xx from in between
    | DispatchFails(d: RunEvent) // the backend records that the producer could not be started
    | Take(cmd: DecideCommand)  // an approver decides

  // ---- The steps ----

  function NextEmission(cfg: Config, s: System): Option<Emission> {
    if s.phase != Ready then None
    else if s.trouble.Some? then Some(Runner.Failure(s.trouble.value.code))
    else if |s.emitted| < |cfg.script| then Some(cfg.script[|s.emitted|])
    else None
  }

  function Post(s: System, e: RunEvent, attempt: nat): System {
    s.(phase := Posting(attempt), network := s.network + {Message(e, attempt)})
  }

  /** `publish` returned normally. */
  function Acknowledged(cfg: Config, s: System): System {
    s.(phase := if s.trouble.Some? || |s.emitted| == |cfg.script| then Over else Ready)
  }

  /** `publish` raised: the first time the failure event follows, the second time the run is over. */
  function Undelivered(s: System): System {
    if s.trouble.Some? then s.(phase := Over)
    else s.(phase := Ready, trouble := Some(Trouble(|s.emitted|, Runner.DELIVERY_ERROR, false)))
  }

  function StatusOf(outcome: Outcome): Runner.Post {
    match outcome
    case Created => Runner.Status(201)
    case NotFound => Runner.Status(404)
    case Conflict => Runner.Status(409)
    case Unprocessable => Runner.Status(422)
  }

  function ApplyEmit(cfg: Config, s: System): System {
    var next := NextEmission(cfg, s);
    if next.None? then s
    else
      var e := cfg.make(|s.emitted| + 1, next.value);
      Post(s.(emitted := s.emitted + [e]), e, 1)
  }

  function ApplyServe(cfg: Config, s: System, m: Message): System {
    if m !in s.network then s
    else
      var e := cfg.keep(m.event);
      s.(run := Step(s.run, Recording(e)),
         replies := s.replies + {Reply(e.sequence, m.attempt, RowOutcome(s.run, e))})
  }

  function ApplyHear(cfg: Config, s: System, r: Reply): System {
    if r in s.replies && s.phase == Posting(r.attempt) && r.sequence == |s.emitted| then
      match Runner.React(StatusOf(r.outcome))
      case Delivered => Acknowledged(cfg, s)
      case Retry => s
      case GiveUp => Undelivered(s)
    else s
  }

  function ApplyNoAnswer(cfg: Config, s: System): System {
    if !s.phase.Posting? || s.emitted == [] then s
    else if s.phase.attempt < cfg.maxAttempts then Post(s, s.emitted[|s.emitted| - 1], s.phase.attempt + 1)
    else Undelivered(s)
  }

  function ApplyDispatch(cfg: Config, s: System, d: RunEvent): System {
    if s.dispatch.Some? || d.sequence != 1 || d.kind != RunFailed then s
    else s.(dispatch := Some(d), run := Step(s.run, Recording(cfg.keep(d))))
  }

  function Apply(cfg: Config, s: System, a: Action): System {
    match a
    case Emit => ApplyEmit(cfg, s)
    case WorkflowRaises(code) =>
      if s.phase == Ready && s.trouble.None? && s.emitted != []
      then s.(trouble := Some(Trouble(|s.emitted|, code, true))) else s
    case Serve(m) => ApplyServe(cfg, s, m)
    case Hear(r) => ApplyHear(cfg, s, r)
    case NoAnswer => ApplyNoAnswer(cfg, s)
    case Refused => if s.phase.Posting? then Undelivered(s) else s
    case DispatchFails(d) => ApplyDispatch(cfg, s, d)
    case Take(cmd) => s.(run := Step(s.run, Deciding(cmd)))
  }

  function Exec(cfg: Config, actions: seq<Action>): System {
    if actions == [] then Init(cfg)
    else Apply(cfg, Exec(cfg, actions[..|actions| - 1]), actions[|actions| - 1])
  }

  // ---- One publish as a row of steps ----

  /** The client's steps from its current attempt on, when attempt k ends as `network(k)` says. */
  function Drive(cfg: Config, s: System, network: nat -> Runner.Post): System
    requires s.phase.Posting? && s.emitted != []
    decreases cfg.maxAttempts - s.phase.attempt
  {
    match Runner.React(network(s.phase.attempt))
    case Delivered => Acknowledged(cfg, s)
    case GiveUp => Undelivered(s)
    case Retry =>
      if s.phase.attempt < cfg.maxAttempts then Drive(cfg, ApplyNoAnswer(cfg, s), network) else ApplyNoAnswer(cfg, s)
  }

  /** An attempt from m to the last is accepted, and all before it were passing. */
  predicate AcceptedFrom(network: nat -> Runner.Post, m: nat, last: nat) {
    exists n :: m <= n <= last && Runner.AcceptedAt(network, n)
  }

  /** The steps acknowledge the event exactly when the retry loop returns normally, and touch nothing else. */
  lemma {:induction false} PublishIsTheSteps(cfg: Config, s: System, network: nat -> Runner.Post, m: nat)
    requires s.phase == Posting(m) && s.emitted != [] && 1 <= m <= cfg.maxAttempts
    requires forall k :: 1 <= k < m ==> Runner.Passing(network(k))
    ensures var t := Drive(cfg, s, network);
      var end := if AcceptedFrom(network, m, cfg.maxAttempts) then Acknowledged(cfg, s) else Undelivered(s);
      t.phase == end.phase && t.trouble == end.trouble && t.emitted == s.emitted && t.run == s.run
        && t.replies == s.replies
    decreases cfg.maxAttempts - m
  {
    Runner.ReactsExactly(network(m));
    if Runner.Passing(network(m)) {
      assert !Runner.AcceptedAt(network, m);
      if m < cfg.maxAttempts {
        PublishIsTheSteps(cfg, ApplyNoAnswer(cfg, s), network, m + 1);
        assert AcceptedFrom(network, m, cfg.maxAttempts) <==> AcceptedFrom(network, m + 1, cfg.maxAttempts);
      }
    } else if Runner.Acknowledges(network(m)) {
      assert Runner.AcceptedAt(network, m);
    } else {
      assert !Runner.AcceptedAt(network, m);
    }
  }

  // ---- Invariants ----

  /** What the producer emits at index `i`: the script's emission, or the failure event after an exception. */
  function EmissionAt(cfg: Config, s: System, i: nat): Emission {
    if s.trouble.Some? && i >= s.trouble.value.at then Runner.Failure(s.trouble.value.code)
    else if i < |cfg.script| then cfg.script[i]
    else Runner.Failure("")
  }

  /** The emitted events are the script's beginning, with at most one failure event after it. */
  predicate Shape(cfg: Config, s: System) {
    && (forall i :: 0 <= i < |s.emitted| ==> s.emitted[i] == cfg.make(i + 1, EmissionAt(cfg, s, i)))
    && match s.trouble
       case None => |s.emitted| <= |cfg.script|
       case Some(t) =>
         && 1 <= t.at <= |cfg.script|
         && t.at <= |s.emitted| <= t.at + 1
         && (s.phase == Ready ==> |s.emitted| == t.at)
         && (s.phase.Posting? ==> |s.emitted| == t.at + 1)
  }

  predicate Wire(s: System) {
    && (forall m :: m in s.network ==>
      1 <= m.event.sequence <= |s.emitted| && m.event == s.emitted[m.event.sequence - 1])
    && (forall r :: r in s.replies ==> 1 <= r.sequence <= |s.emitted|)
    && (s.phase.Posting? ==> s.emitted != [])
  }

  /** Position `i` of the log holds what was emitted there. */
  predicate KeptAt(cfg: Config, log: seq<RunEvent>, emitted: seq<RunEvent>, i: nat)
    requires i < |log|
  {
    i < |emitted| && log[i] == cfg.keep(emitted[i])
  }

  /** From the second position on, the log holds what the producer emitted there. */
  predicate TailFromProducer(cfg: Config, log: seq<RunEvent>, emitted: seq<RunEvent>) {
    forall i :: 1 <= i < |log| ==> KeptAt(cfg, log, emitted, i)
  }

  /** The first position holds the producer's first event or the dispatch failure. */
  predicate HeadFromProducer(cfg: Config, log: seq<RunEvent>, emitted: seq<RunEvent>, dispatch: Option<RunEvent>) {
    log != [] ==>
      || (emitted != [] && log[0] == cfg.keep(emitted[0]))
      || (dispatch.Some? && log[0] == cfg.keep(dispatch.value) && dispatch.value.kind == RunFailed)
  }

  predicate LogFromProducer(cfg: Config, s: System) {
    && TailFromProducer(cfg, s.run.events, s.emitted)
    && HeadFromProducer(cfg, s.run.events, s.emitted, s.dispatch)
  }

  predicate SafetyInv(cfg: Config, s: System) {
    Shape(cfg, s) && Wire(s) && LogFromProducer(cfg, s) && s.run.lastEventSequence == |s.run.events|
  }

  /** How much of what was emitted is certainly stored. */
  function Secured(s: System): int {
    match s.trouble
    case None => if s.phase.Posting? then |s.emitted| - 1 else |s.emitted|
    case Some(t) => if t.delivered then t.at else t.at - 1
  }

  /** An acknowledgement of a position proves that it is stored, except for 409 right after an undelivered event. */
  predicate ReplyProves(s: System, r: Reply) {
    r.outcome in {Created, Conflict} ==>
      || |s.run.events| >= r.sequence
      || (r.outcome == Conflict && s.trouble.Some? && !s.trouble.value.delivered
        && r.sequence == s.trouble.value.at + 1)
  }

  predicate AckInv(s: System) {
    s.dispatch.None? ==>
      && |s.run.events| >= Secured(s)
      && forall r :: r in s.replies ==> ReplyProves(s, r)
  }

  // ---- Safety ----

  lemma {:induction false} RecordingPreserves(cfg: Config, s: System, e: RunEvent, dispatch: Option<RunEvent>)
    requires Faithful(cfg)
    requires SafetyInv(cfg, s)
    requires
      || (dispatch == s.dispatch && 1 <= e.sequence <= |s.emitted| && e == cfg.keep(s.emitted[e.sequence - 1]))
      || (s.dispatch.None? && dispatch.Some? && dispatch.value.sequence == 1 && dispatch.value.kind == RunFailed
        && e == cfg.keep(dispatch.value))
    ensures var run := Step(s.run, Recording(e));
      run.lastEventSequence == |run.events| && LogFromProducer(cfg, s.(run := run, dispatch := dispatch))
      && |run.events| >= |s.run.events|
  {
    var run := Step(s.run, Recording(e));
    if RowOutcome(s.run, e) == Created {
      assert run.events == s.run.events + [e];
      assert e.sequence == |s.run.events| + 1;
      forall i | 1 <= i < |run.events| ensures KeptAt(cfg, run.events, s.emitted, i) {
        if i < |s.run.events| { assert KeptAt(cfg, s.run.events, s.emitted, i); }
      }
      if s.run.events != [] { assert run.events[0] == s.run.events[0]; }
    }
  }

  /** Steps of the client that leave the log alone: only the phase, the network and the trouble change. */
  lemma {:induction false} ClientStepSafety(cfg: Config, s: System, after: System)
    requires SafetyInv(cfg, s)
    requires after.run == s.run && after.emitted == s.emitted && after.dispatch == s.dispatch
      && after.replies == s.replies
    requires forall m :: m in after.network && m !in s.network ==>
      s.emitted != [] && m.event == s.emitted[|s.emitted| - 1] && m.event.sequence == |s.emitted|
    requires after.phase.Posting? ==> s.phase.Posting?
    requires after.trouble == s.trouble
      || (s.trouble.None? && after.trouble.Some? && after.trouble.value.at == |s.emitted|)
    requires after.trouble == s.trouble ==>
      after.phase == s.phase || after.phase == Over || after.phase.Posting? || s.trouble.None?
    requires after.trouble != s.trouble ==> s.emitted != [] && after.phase == Ready
    ensures SafetyInv(cfg, after)
  {
    assert forall i :: 0 <= i < |s.emitted| ==> EmissionAt(cfg, after, i) == EmissionAt(cfg, s, i);
  }

  lemma {:induction false} EmitSafety(cfg: Config, s: System)
    requires Faithful(cfg)
    requires SafetyInv(cfg, s)
    ensures SafetyInv(cfg, ApplyEmit(cfg, s))
  {
    var next := NextEmission(cfg, s);
    if next.Some? {
      var e := cfg.make(|s.emitted| + 1, next.value);
      EmitShape(cfg, s, ApplyEmit(cfg, s), e);
      EmitWire(cfg, s, ApplyEmit(cfg, s), e);
    }
  }

  lemma {:induction false} EmitShape(cfg: Config, s: System, after: System, e: RunEvent)
    requires Shape(cfg, s) && NextEmission(cfg, s).Some? && e == cfg.make(|s.emitted| + 1, NextEmission(cfg, s).value)
    requires after == ApplyEmit(cfg, s)
    ensures Shape(cfg, after)
  {
    assert after.emitted == s.emitted + [e] && after.trouble == s.trouble;
    forall i | 0 <= i < |after.emitted| ensures after.emitted[i] == cfg.make(i + 1, EmissionAt(cfg, after, i)) {
      if i < |s.emitted| { assert s.emitted[i] == cfg.make(i + 1, EmissionAt(cfg, s, i)); }
    }
  }

  lemma {:induction false} EmitWire(cfg: Config, s: System, after: System, e: RunEvent)
    requires Faithful(cfg) && NextEmission(cfg, s).Some? && e == cfg.make(|s.emitted| + 1, NextEmission(cfg, s).value)
    requires Wire(s) && LogFromProducer(cfg, s) && s.run.lastEventSequence == |s.run.events|
    requires after == ApplyEmit(cfg, s)
    ensures Wire(after) && LogFromProducer(cfg, after) && after.run.lastEventSequence == |after.run.events|
  {
    var n := |s.emitted|;
    assert after.emitted == s.emitted + [e] && after.run == s.run && after.dispatch == s.dispatch;
    assert e.sequence == n + 1 && after.emitted[n] == e;
    assert forall i :: 0 <= i < n ==> after.emitted[i] == s.emitted[i];
    forall i | 1 <= i < |after.run.events| ensures KeptAt(cfg, after.run.events, after.emitted, i) {
      assert KeptAt(cfg, s.run.events, s.emitted, i);
    }
    assert n > 0 ==> after.emitted[0] == s.emitted[0];
    forall m | m in after.network
      ensures 1 <= m.event.sequence <= |after.emitted| && m.event == after.emitted[m.event.sequence - 1]
    {
      assert m in s.network || m == Message(e, 1);
    }
  }

  /** Steps that change the row and add replies about known positions. */
  lemma {:induction false} RowStepSafety(cfg: Config, s: System, after: System)
    requires SafetyInv(cfg, s)
    requires after.run.lastEventSequence == |after.run.events| && LogFromProducer(cfg, after)
    requires after.emitted == s.emitted && after.phase == s.phase && after.trouble == s.trouble
      && after.network == s.network
    requires forall r :: r in after.replies && r !in s.replies ==> 1 <= r.sequence <= |s.emitted|
    ensures SafetyInv(cfg, after)
  {
    assert forall i :: 0 <= i < |s.emitted| ==> EmissionAt(cfg, after, i) == EmissionAt(cfg, s, i);
  }

  lemma {:induction false} ServeSafety(cfg: Config, s: System, m: Message)
    requires Faithful(cfg)
    requires SafetyInv(cfg, s)
    ensures SafetyInv(cfg, ApplyServe(cfg, s, m))
  {
    if m in s.network {
      RecordingPreserves(cfg, s, cfg.keep(m.event), s.dispatch);
      RowStepSafety(cfg, s, ApplyServe(cfg, s, m));
    }
  }

  lemma {:induction false} DispatchSafety(cfg: Config, s: System, d: RunEvent)
    requires Faithful(cfg)
    requires SafetyInv(cfg, s)
    ensures SafetyInv(cfg, ApplyDispatch(cfg, s, d))
  {
    if s.dispatch.None? && d.sequence == 1 && d.kind == RunFailed {
      RecordingPreserves(cfg, s, cfg.keep(d), Some(d));
      RowStepSafety(cfg, s, ApplyDispatch(cfg, s, d));
    }
  }

  lemma {:induction false} HearSafety(cfg: Config, s: System, r: Reply)
    requires SafetyInv(cfg, s)
    ensures SafetyInv(cfg, ApplyHear(cfg, s, r))
  {
    ClientStepSafety(cfg, s, ApplyHear(cfg, s, r));
  }

  lemma {:induction false} NoAnswerSafety(cfg: Config, s: System)
    requires Faithful(cfg)
    requires SafetyInv(cfg, s)
    ensures SafetyInv(cfg, ApplyNoAnswer(cfg, s))
  {
    if s.emitted != [] { assert s.emitted[|s.emitted| - 1].sequence == |s.emitted|; }
    ClientStepSafety(cfg, s, ApplyNoAnswer(cfg, s));
  }

  lemma {:induction false} StepSafety(cfg: Config, s: System, a: Action)
    requires Faithful(cfg)
    requires SafetyInv(cfg, s)
    ensures SafetyInv(cfg, Apply(cfg, s, a))
  {
    match a
    case Emit => EmitSafety(cfg, s);
    case Serve(m) => ServeSafety(cfg, s, m);
    case DispatchFails(d) => DispatchSafety(cfg, s, d);
    case Hear(r) => HearSafety(cfg, s, r);
    case NoAnswer => NoAnswerSafety(cfg, s);
    case Take(cmd) => RowStepSafety(cfg, s, s.(run := Step(s.run, Deciding(cmd))));
    case WorkflowRaises(code) =>
      if s.phase == Ready && s.trouble.None? && s.emitted != [] {
        ClientStepSafety(cfg, s, s.(trouble := Some(Trouble(|s.emitted|, code, true))));
      }
    case Refused => if s.phase.Posting? { ClientStepSafety(cfg, s, Undelivered(s)); }
  }

  lemma {:induction false} AlwaysSafe(cfg: Config, actions: seq<Action>)
    requires Faithful(cfg)
    ensures SafetyInv(cfg, Exec(cfg, actions))
  {
    if actions != [] {
      AlwaysSafe(cfg, actions[..|actions| - 1]);
      StepSafety(cfg, Exec(cfg, actions[..|actions| - 1]), actions[|actions| - 1]);
    }
  }

  /** The row itself always satisfies the approval invariants: it changes by row transactions only. */
  lemma {:induction false} AlwaysInv(cfg: Config, actions: seq<Action>)
    ensures Inv(Exec(cfg, actions).run)
  {
    if actions == [] {
      ExecInv(cfg.mode, []);
    } else {
      var s, a := Exec(cfg, actions[..|actions| - 1]), actions[|actions| - 1];
      AlwaysInv(cfg, actions[..|actions| - 1]);
      match a
      case Serve(m) => StepPreserves(s.run, Recording(cfg.keep(m.event)));
      case DispatchFails(d) => StepPreserves(s.run, Recording(cfg.keep(d)));
      case Take(cmd) => StepPreserves(s.run, Deciding(cmd));
      case _ =>
    }
  }

  // ---- Soundness of the acknowledgements ----

  /** A stored event with the key or the id of position `q` sits at position `q`. */
  lemma {:induction false} TakenMeansStored(cfg: Config, s: System, q: nat)
    requires Faithful(cfg)
    requires Distinct(cfg) && SafetyInv(cfg, s) && s.dispatch.None?
    requires 1 <= q <= |s.emitted|
    requires var e := cfg.keep(s.emitted[q - 1]); KeyTaken(s.run, e.key) || IdTaken(s.run, e.id)
    ensures |s.run.events| >= q
  {
    var e := cfg.keep(s.emitted[q - 1]);
    var i :| 0 <= i < |s.run.events| && (s.run.events[i].key == e.key || s.run.events[i].id == e.id);
    assert KeptAt(cfg, s.run.events, s.emitted, i) by { if i == 0 { HeadIsEmitted(cfg, s); } }
    assert s.emitted[i] == cfg.make(i + 1, EmissionAt(cfg, s, i));
    assert s.emitted[q - 1] == cfg.make(q, EmissionAt(cfg, s, q - 1));
  }

  lemma {:induction false} ServeProves(cfg: Config, s: System, m: Message)
    requires Faithful(cfg)
    requires Distinct(cfg) && SafetyInv(cfg, s) && AckInv(s) && s.dispatch.None? && m in s.network
    ensures AckInv(ApplyServe(cfg, s, m))
  {
    var after := ApplyServe(cfg, s, m);
    var e := cfg.keep(m.event);
    var q := e.sequence;
    var outcome := RowOutcome(s.run, e);
    RecordingPreserves(cfg, s, e, s.dispatch);
    if outcome == Created {
      assert |after.run.events| == q;
    } else if outcome == Conflict && (s.trouble.None? || s.trouble.value.delivered || q <= s.trouble.value.at) {
      assert |s.run.events| >= q - 1;
      if KeyTaken(s.run, e.key) || IdTaken(s.run, e.id) {
        TakenMeansStored(cfg, s, q);
      }
    }
    forall r | r in after.replies ensures ReplyProves(after, r) {
      if r in s.replies { assert ReplyProves(s, r); }
    }
  }

  /** Steps that leave the replies and the row's log alone and secure no more than is stored. */
  lemma {:induction false} QuietStepAck(s: System, after: System)
    requires s.dispatch.None? && AckInv(s)
    requires after.replies == s.replies && |after.run.events| == |s.run.events|
    requires |after.run.events| >= Secured(after)
    requires s.trouble.Some? ==> after.trouble == s.trouble
    ensures AckInv(after)
  {
    forall r | r in after.replies ensures ReplyProves(after, r) { assert ReplyProves(s, r); }
  }

  lemma {:induction false} HearAck(cfg: Config, s: System, r: Reply)
    requires SafetyInv(cfg, s) && AckInv(s) && s.dispatch.None?
    ensures AckInv(ApplyHear(cfg, s, r))
  {
    if r in s.replies { assert ReplyProves(s, r); }
    QuietStepAck(s, ApplyHear(cfg, s, r));
  }

  lemma {:induction false} StepAck(cfg: Config, s: System, a: Action)
    requires Faithful(cfg)
    requires Distinct(cfg) && SafetyInv(cfg, s) && AckInv(s)
    ensures AckInv(Apply(cfg, s, a))
  {
    var after := Apply(cfg, s, a);
    if after.dispatch.None? {
      match a
      case Serve(m) => if m in s.network { ServeProves(cfg, s, m); }
      case Hear(r) => HearAck(cfg, s, r);
      case Take(cmd) =>
        StepAppends(s.run, Deciding(cmd));
        QuietStepAck(s, after);
      case _ => QuietStepAck(s, after);
    }
  }

  lemma {:induction false} AlwaysAck(cfg: Config, actions: seq<Action>)
    requires Faithful(cfg)
    requires Distinct(cfg)
    ensures AckInv(Exec(cfg, actions))
  {
    if actions != [] {
      AlwaysAck(cfg, actions[..|actions| - 1]);
      AlwaysSafe(cfg, actions[..|actions| - 1]);
      StepAck(cfg, Exec(cfg, actions[..|actions| - 1]), actions[|actions| - 1]);
    }
  }

  // ---- Theorems ----

  function KeptAll(cfg: Config, es: seq<RunEvent>): seq<RunEvent> {
    seq(|es|, i requires 0 <= i < |es| => cfg.keep(es[i]))
  }

  lemma {:induction false} PrefixFromPositions(cfg: Config, s: System)
    requires forall i :: 0 <= i < |s.run.events| ==> KeptAt(cfg, s.run.events, s.emitted, i)
    ensures s.run.events <= KeptAll(cfg, s.emitted)
  {
    var log, kept := s.run.events, KeptAll(cfg, s.emitted);
    if |log| > 0 {
      var n := |log| - 1;
      assert KeptAt(cfg, log, s.emitted, n);
    }
    forall i | 0 <= i < |log| ensures log[i] == kept[i] { assert KeptAt(cfg, s.run.events, s.emitted, i); }
  }

  lemma {:induction false} HeadIsEmitted(cfg: Config, s: System)
    requires LogFromProducer(cfg, s) && Faithful(cfg) && s.run.events != []
    requires s.dispatch.None? || s.run.events[0].kind != RunFailed
    ensures s.emitted != [] && s.run.events[0] == cfg.keep(s.emitted[0])
  {
    assert s.dispatch.Some? ==> cfg.keep(s.dispatch.value).kind == s.dispatch.value.kind;
  }

  /** Unless a dispatch failure took the first position, the log is a prefix of what was emitted. */
  lemma {:induction false} PrefixUnlessDispatch(cfg: Config, s: System)
    requires SafetyInv(cfg, s) && Faithful(cfg)
    requires s.dispatch.None? || s.run.events == [] || s.run.events[0].kind != RunFailed
    ensures s.run.events <= KeptAll(cfg, s.emitted)
  {
    var log := s.run.events;
    forall i | 0 <= i < |log| ensures KeptAt(cfg, s.run.events, s.emitted, i) {
      if i == 0 { HeadIsEmitted(cfg, s); }
    }
    PrefixFromPositions(cfg, s);
  }

  /**
   Prefix safety.  Under every schedule the log is numbered without gaps or repetitions, and
   without a dispatch failure in first place it is a prefix of what was emitted.
   */
  lemma {:induction false} PrefixSafety(cfg: Config, actions: seq<Action>)
    requires Faithful(cfg)
    ensures var s := Exec(cfg, actions);
      && LogInv(s.run)
      && (s.dispatch.None? || s.run.events == [] || s.run.events[0].kind != RunFailed ==>
          s.run.events <= KeptAll(cfg, s.emitted))
  {
    AlwaysSafe(cfg, actions);
    AlwaysInv(cfg, actions);
    var s := Exec(cfg, actions);
    if s.dispatch.None? || s.run.events == [] || s.run.events[0].kind != RunFailed {
      PrefixUnlessDispatch(cfg, s);
    }
  }

  /** With a dispatch failure, only position one may differ from what was emitted. */
  lemma {:induction false} OnlyFirstPositionMayDiffer(cfg: Config, actions: seq<Action>)
    requires Faithful(cfg)
    ensures var s := Exec(cfg, actions);
      && TailFromProducer(cfg, s.run.events, s.emitted)
      && HeadFromProducer(cfg, s.run.events, s.emitted, s.dispatch)
  {
    AlwaysSafe(cfg, actions);
  }

  /** The overloaded 409 is sound: while no publish has raised, everything acknowledged is stored. */
  lemma {:induction false} AcknowledgedMeansStored(cfg: Config, actions: seq<Action>)
    requires Faithful(cfg)
    requires Distinct(cfg)
    ensures var s := Exec(cfg, actions);
      s.dispatch.None? && s.trouble.None? && !s.phase.Posting? ==> s.run.events == KeptAll(cfg, s.emitted)
  {
    AlwaysSafe(cfg, actions);
    AlwaysAck(cfg, actions);
    var s := Exec(cfg, actions);
    if s.dispatch.None? && s.trouble.None? && !s.phase.Posting? {
      PrefixUnlessDispatch(cfg, s);
      assert |s.run.events| == |s.emitted|;
    }
  }

  /**
   After an exception at event k: events 1..k-1 are stored; the failure event is stored exactly if it
   was served at a moment when k was; and an acknowledged failure event is missing only if k itself
   was undelivered.
   */
  lemma {:induction false} FailureEventStored(cfg: Config, actions: seq<Action>)
    requires Faithful(cfg)
    requires Distinct(cfg)
    ensures var s := Exec(cfg, actions);
      s.dispatch.None? && s.trouble.Some? ==>
        var t := s.trouble.value;
        && t.at - 1 <= |s.run.events| <= t.at + 1
        && (t.delivered ==> t.at <= |s.run.events|)
        && s.run.events <= KeptAll(cfg, s.emitted)
        && (|s.run.events| == t.at + 1 <==> FailureServedInTime(cfg, actions, t.at))
        && (forall r :: r in s.replies && r.sequence == t.at + 1 && r.outcome in {Created, Conflict} ==>
            |s.run.events| == t.at + 1 || (!t.delivered && r.outcome == Conflict))
  {
    AlwaysSafe(cfg, actions);
    AlwaysAck(cfg, actions);
    var s := Exec(cfg, actions);
    if s.dispatch.None? && s.trouble.Some? {
      PrefixUnlessDispatch(cfg, s);
      StoredIffServedInTime(cfg, actions, s.trouble.value.at);
      assert forall r :: r in s.replies ==> ReplyProves(s, r);
    }
  }

  /** Serving the failure event, at any moment, leaves it stored exactly if event `at` is stored by then. */
  lemma {:induction false} ServingFailureStores(cfg: Config, s: System, m: Message)
    requires Faithful(cfg) && Distinct(cfg) && SafetyInv(cfg, s) && s.dispatch.None? && s.trouble.Some?
    requires m in s.network && m.event.sequence == s.trouble.value.at + 1
    ensures RowOutcome(s.run, cfg.keep(m.event)) in {Created, Conflict}
    ensures |ApplyServe(cfg, s, m).run.events| == s.trouble.value.at + 1 <==> |s.run.events| >= s.trouble.value.at
  {
    var at, e := s.trouble.value.at, cfg.keep(m.event);
    PrefixUnlessDispatch(cfg, s);
    assert m.event == s.emitted[at] == cfg.make(at + 1, EmissionAt(cfg, s, at));
    assert e.kind == RunFailed && e.sequence == at + 1;
    if KeyTaken(s.run, e.key) || IdTaken(s.run, e.id) {
      TakenMeansStored(cfg, s, at + 1);
    }
  }

  /** The failure event behind event `at` was served at a moment when event `at` was stored. */
  predicate FailureServedInTime(cfg: Config, actions: seq<Action>, at: nat) {
    actions != [] &&
      var n := |actions| - 1;
      || FailureServedInTime(cfg, actions[..n], at)
      || (actions[n].Serve? && ServedInTime(Exec(cfg, actions[..n]), actions[n].m, at))
  }

  predicate ServedInTime(s: System, m: Message, at: nat) {
    m in s.network && m.event.sequence == at + 1 && |s.run.events| >= at
  }

  /** Before the exception nothing behind event `at` exists; afterwards the exception is at `at`. */
  predicate BrokenAt(s: System, at: nat) {
    if s.trouble.Some? then at == s.trouble.value.at else |s.emitted| <= at
  }

  lemma {:induction false} BrokenBefore(cfg: Config, s: System, a: Action, at: nat)
    requires var t := Apply(cfg, s, a); t.dispatch.None? && BrokenAt(t, at)
    ensures s.dispatch.None? && BrokenAt(s, at)
  {
  }

  /** Steps other than serving leave the number of stored events alone. */
  lemma {:induction false} OnlyServingStores(cfg: Config, s: System, a: Action)
    requires !a.Serve? && Apply(cfg, s, a).dispatch.None?
    ensures Apply(cfg, s, a).run.events == s.run.events
  {
    if a.Take? { StepAppends(s.run, Deciding(a.cmd)); }
  }

  lemma {:induction false} ServeStores(cfg: Config, s: System, m: Message, at: nat)
    requires Faithful(cfg) && Distinct(cfg) && SafetyInv(cfg, s) && s.dispatch.None? && BrokenAt(s, at)
    ensures |ApplyServe(cfg, s, m).run.events| == at + 1 <==> |s.run.events| == at + 1 || ServedInTime(s, m, at)
  {
    PrefixUnlessDispatch(cfg, s);
    if m in s.network {
      StepAppends(s.run, Recording(cfg.keep(m.event)));
      if m.event.sequence == at + 1 { ServingFailureStores(cfg, s, m); }
    }
  }

  /** The whole-run form of the next theorem, which also speaks about the moments before the exception. */
  lemma {:induction false} StoredIffServedInTime(cfg: Config, actions: seq<Action>, at: nat)
    requires Faithful(cfg) && Distinct(cfg)
    requires Exec(cfg, actions).dispatch.None? && BrokenAt(Exec(cfg, actions), at)
    ensures |Exec(cfg, actions).run.events| == at + 1 <==> FailureServedInTime(cfg, actions, at)
  {
    if actions != [] {
      var n := |actions| - 1;
      var s := Exec(cfg, actions[..n]);
      BrokenBefore(cfg, s, actions[n], at);
      StoredIffServedInTime(cfg, actions[..n], at);
      AlwaysSafe(cfg, actions[..n]);
      if actions[n].Serve? {
        ServeStores(cfg, s, actions[n].m, at);
      } else {
        OnlyServingStores(cfg, s, actions[n]);
      }
    }
  }

  /**
   After an exception at event k, over every schedule: the failure event ends up stored if and only
   if one of its requests was processed at a moment when event k was stored.
   */
  lemma {:induction false} FailureStoredExactly(cfg: Config, actions: seq<Action>)
    requires Faithful(cfg) && Distinct(cfg)
    requires Exec(cfg, actions).dispatch.None? && Exec(cfg, actions).trouble.Some?
    ensures var s := Exec(cfg, actions); var at := s.trouble.value.at;
      && (|s.run.events| == at + 1 <==> FailureServedInTime(cfg, actions, at))
      && (forall m :: m in s.network && m.event.sequence == at + 1 ==>
          (|ApplyServe(cfg, s, m).run.events| == at + 1 <==> |s.run.events| >= at))
  {
    var s := Exec(cfg, actions);
    StoredIffServedInTime(cfg, actions, s.trouble.value.at);
    AlwaysSafe(cfg, actions);
    forall m | m in s.network && m.event.sequence == s.trouble.value.at + 1
      ensures |ApplyServe(cfg, s, m).run.events| == s.trouble.value.at + 1 <==> |s.run.events| >= s.trouble.value.at
    {
      ServingFailureStores(cfg, s, m);
    }
  }

  /**
   The promise "a failure is always delivered" does not hold: event 1 is never processed, so the
   failure event at 2 meets the wrong sequence, and its 409 counts as delivered.
   */
  lemma {:induction false} AcknowledgedFailureCanBeMissing(cfg: Config)
    requires Faithful(cfg)
    requires |cfg.script| >= 2
    ensures var e := cfg.make(2, Runner.Failure(Runner.DELIVERY_ERROR));
      var s := Exec(cfg, [Emit, Refused, Emit, Serve(Message(e, 1)), Hear(Reply(2, 1, Conflict))]);
      s.phase == Over && |s.emitted| == 2 && s.emitted[1] == e && s.run.events == []
  {
    var e := cfg.make(2, Runner.Failure(Runner.DELIVERY_ERROR));
    var actions := [Emit, Refused, Emit, Serve(Message(e, 1)), Hear(Reply(2, 1, Conflict))];
    assert actions[..3] == [Emit, Refused, Emit] && actions[..5] == actions;
    SecondEventPosted(cfg);
    ExecPrefix(cfg, actions, 4);
    ExecPrefix(cfg, actions, 5);
    var s3, s4 := Exec(cfg, actions[..3]), Exec(cfg, actions[..4]);
    assert RowOutcome(s3.run, cfg.keep(e)) == Conflict;
    assert s4 == s3.(replies := s3.replies + {Reply(2, 1, Conflict)});
  }

  lemma {:induction false} SecondEventPosted(cfg: Config)
    requires Faithful(cfg)
    requires |cfg.script| >= 2
    ensures var e := cfg.make(2, Runner.Failure(Runner.DELIVERY_ERROR));
      var s := Exec(cfg, [Emit, Refused, Emit]);
      && |s.emitted| == 2 && s.emitted[1] == e && Message(e, 1) in s.network
      && s.phase == Posting(1) && s.trouble.Some? && s.run == NewRun(cfg.mode)
  {
    var actions := [Emit, Refused, Emit];
    ExecPrefix(cfg, actions, 1);
    ExecPrefix(cfg, actions, 2);
    ExecPrefix(cfg, actions, 3);
    assert actions[..0] == [] && actions[..3] == actions;
    var s1, s2 := Exec(cfg, actions[..1]), Exec(cfg, actions[..2]);
    assert s1.phase == Posting(1) && |s1.emitted| == 1;
    assert s2.trouble == Some(Trouble(1, Runner.DELIVERY_ERROR, false)) && s2.phase == Ready
      && s2.emitted == s1.emitted;
  }

  lemma {:induction false} ExecPrefix(cfg: Config, actions: seq<Action>, n: nat)
    requires 1 <= n <= |actions|
    ensures Exec(cfg, actions[..n]) == Apply(cfg, Exec(cfg, actions[..n - 1]), actions[n - 1])
  {
    assert actions[..n][..n - 1] == actions[..n - 1];
  }

  /**
   FAILED is not final either: the backend's own dispatch failure takes position one, the producer's
   first event is answered by a 409 that counts as delivered, and its second event is accepted.
   */
  lemma {:induction false} DispatchFailureIsOvertaken(cfg: Config, runId: string, token: nat)
    requires RealServices(cfg, runId) && cfg.mode == Single
    requires |cfg.script| >= 2 && cfg.script[1].kind == PlanCreated
    ensures var d := DispatchFailure(runId, token);
      var e1, e2 := cfg.make(1, cfg.script[0]), cfg.make(2, cfg.script[1]);
      var s := Exec(cfg,
        [DispatchFails(d), Emit, Serve(Message(e1, 1)), Hear(Reply(1, 1, Conflict)), Emit, Serve(Message(e2, 1))]);
      && s.run.events == [cfg.keep(d), cfg.keep(e2)] && s.run.status == Planning && s.trouble.None?
      && Exec(cfg, [DispatchFails(d)]).run.status == RunStatus.Failed
  {
    var d := DispatchFailure(runId, token);
    var e1, e2 := cfg.make(1, cfg.script[0]), cfg.make(2, cfg.script[1]);
    var first := [DispatchFails(d), Emit, Serve(Message(e1, 1)), Hear(Reply(1, 1, Conflict))];
    RealServicesAreFaithful(cfg, runId);
    OvertakenSoFar(cfg, runId, d);
    ExecAppend(cfg, first, Emit);
    ExecAppend(cfg, first + [Emit], Serve(Message(e2, 1)));
    assert first + [Emit] + [Serve(Message(e2, 1))]
      == [DispatchFails(d), Emit, Serve(Message(e1, 1)), Hear(Reply(1, 1, Conflict)), Emit, Serve(Message(e2, 1))];
    SecondEventAccepted(cfg, runId, token, Exec(cfg, first), e2);
  }

  lemma {:induction false} ExecAppend(cfg: Config, actions: seq<Action>, a: Action)
    ensures Exec(cfg, actions + [a]) == Apply(cfg, Exec(cfg, actions), a)
  {
    assert (actions + [a])[..|actions|] == actions;
  }

  lemma {:induction false} OvertakenSoFar(cfg: Config, runId: string, d: RunEvent)
    requires RealServices(cfg, runId) && Faithful(cfg) && |cfg.script| >= 2 && d.sequence == 1 && d.kind == RunFailed
    ensures Exec(cfg, [DispatchFails(d)]) == Apply(cfg, Init(cfg), DispatchFails(d))
    ensures Exec(cfg, [DispatchFails(d)]).run.status == RunStatus.Failed
    ensures var e1 := cfg.make(1, cfg.script[0]);
      var s := Exec(cfg, [DispatchFails(d), Emit, Serve(Message(e1, 1)), Hear(Reply(1, 1, Conflict))]);
      && s.run == Exec(cfg, [DispatchFails(d)]).run && s.run.events == [cfg.keep(d)]
      && s.run.lastEventSequence == 1 && s.run.mode == cfg.mode
      && |s.emitted| == 1 && s.phase == Ready && s.trouble.None?
  {
    var e1 := cfg.make(1, cfg.script[0]);
    var a1, a2 := [DispatchFails(d)], [DispatchFails(d), Emit];
    var a3 := [DispatchFails(d), Emit, Serve(Message(e1, 1))];
    ExecAppend(cfg, [], DispatchFails(d));
    ExecAppend(cfg, a1, Emit);
    ExecAppend(cfg, a2, Serve(Message(e1, 1)));
    ExecAppend(cfg, a3, Hear(Reply(1, 1, Conflict)));
    assert [] + [DispatchFails(d)] == a1 && a1 + [Emit] == a2 && a2 + [Serve(Message(e1, 1))] == a3;
    assert a3 + [Hear(Reply(1, 1, Conflict))]
      == [DispatchFails(d), Emit, Serve(Message(e1, 1)), Hear(Reply(1, 1, Conflict))];
    FailureTakesFirst(cfg, runId, d);
    FirstEventConflicts(cfg, d, Exec(cfg, a1), e1);
  }

  lemma {:induction false} FailureTakesFirst(cfg: Config, runId: string, d: RunEvent)
    requires RealServices(cfg, runId) && d.sequence == 1 && d.kind == RunFailed
    ensures var s := Apply(cfg, Init(cfg), DispatchFails(d));
      && s == Init(cfg).(dispatch := Some(d), run := s.run)
      && s.run.events == [cfg.keep(d)] && s.run.lastEventSequence == 1 && s.run.status == RunStatus.Failed
        && s.run.mode == cfg.mode
  {
    assert cfg.keep(d) == Stored(cfg.scrub, d);
  }

  lemma {:induction false} FirstEventConflicts(cfg: Config, d: RunEvent, s: System, e1: RunEvent)
    requires Faithful(cfg) && |cfg.script| >= 2 && e1 == cfg.make(1, cfg.script[0])
    requires s == Init(cfg).(dispatch := Some(d), run := s.run)
    requires |s.run.events| == 1 && s.run.lastEventSequence == 1
    ensures var t := Apply(cfg, Apply(cfg, Apply(cfg, s, Emit), Serve(Message(e1, 1))), Hear(Reply(1, 1, Conflict)));
      && t.run == s.run && t.emitted == [e1] && t.phase == Ready && t.trouble.None?
  {
    var a := Apply(cfg, s, Emit);
    assert a.emitted == [e1] && a.phase == Posting(1) && Message(e1, 1) in a.network;
    assert RowOutcome(a.run, cfg.keep(e1)) == Conflict;
  }

  lemma {:induction false} SecondEventAccepted(cfg: Config, runId: string, token: nat, s: System, e2: RunEvent)
    requires RealServices(cfg, runId) && Faithful(cfg) && |cfg.script| >= 2
    requires cfg.script[1].kind == PlanCreated && e2 == cfg.make(2, cfg.script[1])
    requires s.run.events == [cfg.keep(DispatchFailure(runId, token))] && s.run.lastEventSequence == 1
      && s.run.mode == Single
    requires |s.emitted| == 1 && s.phase == Ready && s.trouble.None?
    ensures var t := Apply(cfg, Apply(cfg, s, Emit), Serve(Message(e2, 1)));
      t.run.events == s.run.events + [cfg.keep(e2)] && t.run.status == Planning && t.trouble.None?
  {
    var a := Apply(cfg, s, Emit);
    var d, kept := DispatchFailure(runId, token), cfg.keep(e2);
    assert a.run == s.run && Message(e2, 1) in a.network;
    assert cfg.make(2, cfg.script[1]) == MakeEvent(runId, 2, cfg.script[1]);
    DispatchKeyIsForeign(runId, runId, 2, cfg.script[1].kind);
    assert cfg.keep(d) == Stored(cfg.scrub, d) && kept == Stored(cfg.scrub, e2);
    assert RowOutcome(a.run, kept) == Created;
  }

  // ---- What the log's grammar means for the run's status ----

  /** The system is running the script of this workflow state. */
  predicate Runs(cfg: Config, w: Runner.WorkflowState) {
    cfg.script == Runner.Script(w) && w.decision.requiresHumanApproval
  }

  /** A logged event after the first is the stored form of the script's event there, or a failure. */
  lemma {:induction false} LoggedKind(cfg: Config, s: System, i: nat)
    requires Faithful(cfg)
    requires SafetyInv(cfg, s) && 1 <= i < |s.run.events|
    ensures
      || (i < |cfg.script| && i < |s.emitted| && s.emitted[i] == cfg.make(i + 1, cfg.script[i])
        && s.run.events[i] == cfg.keep(s.emitted[i]))
      || s.run.events[i].kind == RunFailed
  {
    assert KeptAt(cfg, s.run.events, s.emitted, i);
    assert s.emitted[i] == cfg.make(i + 1, EmissionAt(cfg, s, i));
  }

  lemma {:induction false} FirstKind(cfg: Config, w: Runner.WorkflowState, s: System)
    requires Faithful(cfg)
    requires SafetyInv(cfg, s) && Runs(cfg, w) && s.run.events != []
    ensures s.run.events[0].kind in {RunStarted, RunFailed}
  {
    Runner.ScriptGrammar(w);
    if s.emitted != [] { assert s.emitted[0] == cfg.make(1, EmissionAt(cfg, s, 0)); }
  }

  lemma {:induction false} CompletionIsRequestedFirst(cfg: Config, w: Runner.WorkflowState, s: System)
    requires Faithful(cfg)
    requires SafetyInv(cfg, s) && Runs(cfg, w)
    ensures !CompletedUnrequested(s.run.events)
  {
    var events := s.run.events;
    if i :| 0 <= i < |events| && events[i].kind == RunCompleted && !Requested(events[..i]) {
      FirstKind(cfg, w, s);
      RequestBefore(cfg, w, s, i);
      RequestedAt(events[..i], i - 1);
      assert false;
    }
  }

  lemma {:induction false} RequestedAt(events: seq<RunEvent>, i: nat)
    requires i < |events| && events[i].kind == ApprovalRequired
    ensures Requested(events)
  {
  }

  /** A logged completion is the last event of the script, and the request stands right before it. */
  lemma {:induction false} RequestBefore(cfg: Config, w: Runner.WorkflowState, s: System, i: nat)
    requires Faithful(cfg)
    requires SafetyInv(cfg, s) && Runs(cfg, w) && 1 <= i < |s.run.events| && s.run.events[i].kind == RunCompleted
    ensures i >= 2 && s.run.events[i - 1].kind == ApprovalRequired
  {
    Runner.ScriptGrammar(w);
    LoggedKind(cfg, s, i);
    assert i == |cfg.script| - 1;
    assert KeptAt(cfg, s.run.events, s.emitted, i - 1);
    assert s.emitted[i - 1] == cfg.make(i, EmissionAt(cfg, s, i - 1));
    assert s.emitted[i] == cfg.make(i + 1, EmissionAt(cfg, s, i));
  }

  /**
   No completion without a human: under every schedule of emission, retry, loss, duplication,
   dispatch failure and decisions, a COMPLETED or PARTIAL run has an approval record.
   */
  lemma {:induction false} NoCompletionWithoutHuman(cfg: Config, w: Runner.WorkflowState, actions: seq<Action>)
    requires Faithful(cfg)
    requires Runs(cfg, w)
    ensures var run := Exec(cfg, actions).run;
      run.status in {Completed, Partial} ==> |run.approvals| == 1
  {
    AlwaysSafe(cfg, actions);
    AlwaysInv(cfg, actions);
    CompletionIsRequestedFirst(cfg, w, Exec(cfg, actions));
  }

  // ---- Tickets come from the synthesised decision ----

  /** Redaction keeps a proposal readable and creates none. */
  lemma {:induction false} ProposalSurvivesRedaction(scrub: string -> string, d: Decision.FinalDecision)
    ensures var stored := RedactPayload(scrub, map["decision" := Runner.DecisionJson(d)]);
      ExtractProposedAction(Some(DecisionValue(stored))) ==
        if d.proposedAction.Some? && scrub(TICKET_ACTION) == TICKET_ACTION
        then Some(Proposal(scrub(d.proposedAction.value.title), scrub(d.proposedAction.value.description)))
        else None
  {
    ProposalKeysAreOpen();
    var body := Runner.DecisionJson(d);
    var payload := map["decision" := body];
    RedactField(scrub, payload, "decision", 0);
    RedactField(scrub, body.fields, "proposedAction", 1);
    ExtractRedacted(scrub, d.proposedAction, Redact(scrub, body, 1));
  }

  /** Redaction leaves a suitable plan suitable, if the scrubber leaves the three names alone. */
  lemma {:induction false} PlanSurvivesRedaction(scrub: string -> string, payload: Payload)
    requires PlansEverySpecialist(payload)
    requires scrub("CREDIT") == "CREDIT" && scrub("COMPLIANCE") == "COMPLIANCE" && scrub("OPERATIONS") == "OPERATIONS"
    ensures PlansEverySpecialist(RedactPayload(scrub, payload))
  {
    PlanKeysAreOpen();
    var items := payload["tasks"].items;
    RedactField(scrub, payload, "tasks", 0);
    var stored := RedactPayload(scrub, payload)["tasks"];
    assert stored.Array? && |stored.items| == |items|;
    forall i | 0 <= i < |items| ensures PlannedAgents(stored.items)[i] == PlannedAgents(items)[i] {
      assert stored.items[i] == Redact(scrub, items[i], 2);
      assert PlannedAgents(items)[i] in multiset(PlannedAgents(items));
      AgentSurvives(scrub, items[i]);
    }
    assert PlannedAgents(stored.items) == PlannedAgents(items);
  }

  lemma {:induction false} AgentSurvives(scrub: string -> string, item: Json)
    requires !Sensitive("agent") && PlannedAgent(item).String? && scrub(PlannedAgent(item).s) == PlannedAgent(item).s
    ensures PlannedAgent(Redact(scrub, item, 2)) == PlannedAgent(item)
  {
    RedactField(scrub, item.fields, "agent", 2);
  }

  lemma {:induction false} PlanKeysAreOpen()
    ensures !Sensitive("tasks") && !Sensitive("agent")
  {
    KeyIsOpen("tasks", "tasks");
    KeyIsOpen("agent", "agent");
  }

  lemma {:induction false} ExtractRedacted(scrub: string -> string, action: Option<Decision.Action>, stored: Json)
    requires stored.Object? && "proposedAction" in stored.fields
    requires stored.fields["proposedAction"] == Redact(scrub, Runner.ActionJson(action), 2)
    ensures ExtractProposedAction(Some(stored)) ==
      if action.Some? && scrub(TICKET_ACTION) == TICKET_ACTION
      then Some(Proposal(scrub(action.value.title), scrub(action.value.description)))
      else None
  {
    if action.Some? {
      ProposalKeysAreOpen();
      var p := Runner.ActionJson(action).fields;
      RedactField(scrub, p, "type", 2);
      RedactField(scrub, p, "title", 2);
      RedactField(scrub, p, "description", 2);
    }
  }

  /** The ticket `t` carries the decision's action, as the backend stores its strings. */
  predicate CarriesAction(scrub: string -> string, d: Decision.FinalDecision, t: Ticket) {
    && d.proposedAction.Some?
    && t.proposal.title == scrub(d.proposedAction.value.title)
    && t.proposal.description == scrub(d.proposedAction.value.description)
  }

  /** A logged synthesis event carries the run's own decision. */
  lemma {:induction false} LoggedSynthesis(cfg: Config, runId: string, w: Runner.WorkflowState, s: System, i: nat)
    requires RealServices(cfg, runId) && Faithful(cfg) && Runs(cfg, w) && SafetyInv(cfg, s)
    requires i < |s.run.events| && s.run.events[i].kind == SynthesisCompleted
    ensures s.run.events[i].payload == RedactPayload(cfg.scrub, Runner.Synthesised(w).payload)
  {
    FirstKind(cfg, w, s);
    LoggedKind(cfg, s, i);
    SynthesisPlace(w, cfg.script[i], i);
    assert s.emitted[i].payload == cfg.script[i].payload;
    assert s.run.events[i] == Stored(cfg.scrub, s.emitted[i]);
  }

  lemma {:induction false} SynthesisPlace(w: Runner.WorkflowState, m: Emission, i: nat)
    requires w.decision.requiresHumanApproval
    requires 1 <= i < |Runner.Script(w)| && m == Runner.Script(w)[i] && m.kind == SynthesisCompleted
    ensures m == Runner.Synthesised(w)
  {
    Runner.ScriptGrammar(w);
  }

  /** Whatever is scheduled, a ticket carries the proposed action of this run's own decision. */
  lemma {:induction false} TicketComesFromDecision(
      cfg: Config, runId: string, w: Runner.WorkflowState, actions: seq<Action>)
    requires RealServices(cfg, runId) && Runs(cfg, w)
    ensures forall t :: t in Exec(cfg, actions).run.tickets ==> CarriesAction(cfg.scrub, w.decision, t)
  {
    var s := Exec(cfg, actions);
    RealServicesAreFaithful(cfg, runId);
    AlwaysSafe(cfg, actions);
    AlwaysInv(cfg, actions);
    forall t | t in s.run.tickets ensures CarriesAction(cfg.scrub, w.decision, t) {
      TicketCarries(cfg, runId, w, s, t);
    }
  }

  lemma {:induction false} TicketCarries(cfg: Config, runId: string, w: Runner.WorkflowState, s: System, t: Ticket)
    requires RealServices(cfg, runId) && Faithful(cfg) && Runs(cfg, w) && SafetyInv(cfg, s)
    requires Proposed(s.run.events, t.proposal)
    ensures CarriesAction(cfg.scrub, w.decision, t)
  {
    var i :| 0 <= i < |s.run.events| && s.run.events[i].kind == SynthesisCompleted
      && ExtractProposedAction(Some(DecisionValue(s.run.events[i].payload))) == Some(t.proposal);
    LoggedSynthesis(cfg, runId, w, s, i);
    ProposalSurvivesRedaction(cfg.scrub, w.decision);
  }

  /** A run blocked by a compliance hard stop can never acquire a ticket. */
  lemma {:induction false} HardStopNeverGetsTicket(
      cfg: Config, runId: string, w: Runner.WorkflowState, results: Decision.Results, actions: seq<Action>)
    requires RealServices(cfg, runId) && Runs(cfg, w) && w.decision == Decision.Decide(results)
    requires Decision.Found(results, Decision.Compliance, Decision.ComplianceHardStop)
    ensures Exec(cfg, actions).run.tickets == []
  {
    TicketComesFromDecision(cfg, runId, w, actions);
    Decision.NoActionExactlyOnHardStop(results);
    var tickets := Exec(cfg, actions).run.tickets;
    if tickets != [] {
      NoCarrier(cfg.scrub, w.decision, tickets);
    }
  }

  /** The ticket proposes `action`, in the backend's strings. */
  predicate Proposes(scrub: string -> string, t: Ticket, action: Decision.Action) {
    t.proposal == Proposal(scrub(action.title), scrub(action.description))
  }

  /**
   Whatever is scheduled, the ticket of a multi-agent run proposes what its status stands for: the
   credit proposal only after a recommendation, and otherwise one of the two kinds of review.
   */
  lemma {:induction false} TicketFollowsStatus(
      cfg: Config, runId: string, w: Runner.WorkflowState, results: Decision.Results, actions: seq<Action>)
    requires RealServices(cfg, runId) && Runs(cfg, w) && w.decision == Decision.Decide(results)
    ensures forall t :: t in Exec(cfg, actions).run.tickets ==>
      match w.decision.status
      case Recommend => Proposes(cfg.scrub, t, Decision.RECOMMEND_ACTION)
      case NeedsReview =>
        Proposes(cfg.scrub, t,
          if Decision.Incomplete(results) then Decision.PARTIAL_ACTION else Decision.REVIEW_ACTION)
      case Blocked => false
  {
    TicketComesFromDecision(cfg, runId, w, actions);
    Decision.NoActionExactlyOnHardStop(results);
    Decision.StatusDecidesTheRest(results);
    var tickets := Exec(cfg, actions).run.tickets;
    assert forall t :: t in tickets ==> CarriesAction(cfg.scrub, w.decision, t);
  }

  /** A single-agent run can only lead to the ticket that asks for a multi-agent review. */
  lemma {:induction false} BaselineTicketAsksForReview(
      cfg: Config, runId: string, w: Runner.WorkflowState, actions: seq<Action>)
    requires RealServices(cfg, runId) && Runs(cfg, w) && w.decision == Decision.SingleAgentBaseline()
    ensures forall t :: t in Exec(cfg, actions).run.tickets ==>
      t.proposal == Proposal(cfg.scrub(Decision.BASELINE_ACTION.title), cfg.scrub(Decision.BASELINE_ACTION.description))
  {
    TicketComesFromDecision(cfg, runId, w, actions);
    var run := Exec(cfg, actions).run;
    forall t | t in run.tickets
      ensures t.proposal
        == Proposal(cfg.scrub(Decision.BASELINE_ACTION.title), cfg.scrub(Decision.BASELINE_ACTION.description))
    {
      assert CarriesAction(cfg.scrub, w.decision, t);
    }
  }

  lemma {:induction false} NoCarrier(scrub: string -> string, d: Decision.FinalDecision, tickets: seq<Ticket>)
    requires forall t :: t in tickets ==> CarriesAction(scrub, d, t)
    ensures tickets != [] ==> d.proposedAction.Some?
  {
    if tickets != [] { assert CarriesAction(scrub, d, tickets[0]); }
  }
}
