/**
 The producing side in the AI service: accepting a start request, running the workflow, emitting
 its events in order and posting each one with bounded retry.
 */
module Runner {
  import opened Common
  import opened RunEvents
  import Decision
  import Redaction
  import RunStore

  // ---- CallbackClient.publish ----

  /** How one POST ended for the client. */
  datatype Post = Status(code: nat) | HttpError

  datatype Reaction = Delivered | Retry | GiveUp

  function React(post: Post): Reaction {
    match post
    case HttpError => Retry
    case Status(code) =>
      if code in {200, 201, 202, 204, 409} then Delivered
      else if code < 500 && code != 429 then GiveUp
      else Retry
  }

  /** The backend has the event: it was stored now, or there was something in its place before. */
  predicate Acknowledges(post: Post) {
    post.Status? && post.code in {200, 201, 202, 204, 409}
  }

  /** Nothing is decided yet: no answer, too many requests, or a failure of the server. */
  predicate Passing(post: Post) {
    post.HttpError? || post.code == 429 || post.code >= 500
  }

  /** Attempt `n` is accepted, and none before it decided anything. */
  predicate AcceptedAt(network: nat -> Post, n: nat) {
    Acknowledges(network(n)) && forall m :: 1 <= m < n ==> Passing(network(m))
  }

  /** Attempt `n` is refused for good, and none before it decided anything. */
  predicate RefusedAt(network: nat -> Post, n: nat) {
    !Acknowledges(network(n)) && !Passing(network(n)) && forall m :: 1 <= m < n ==> Passing(network(m))
  }

  lemma {:induction false} ReactsExactly(post: Post)
    ensures React(post) == Delivered <==> Acknowledges(post)
    ensures React(post) == Retry <==> Passing(post)
  {
  }

  /**
   Posts until something decisive happens, at most `maxAttempts` times.  It returns normally exactly
   if some attempt within the limit is accepted and every one before it was passing; everything else
   raises, behind a refusal or behind the last attempt.
   */
  method Publish(network: nat -> Post, maxAttempts: nat) returns (delivered: bool, posts: nat)
    ensures posts <= maxAttempts
    ensures delivered <==> exists n :: 1 <= n <= maxAttempts && AcceptedAt(network, n)
    ensures delivered ==> posts >= 1 && AcceptedAt(network, posts)
    ensures !delivered ==>
      || (posts >= 1 && RefusedAt(network, posts))
      || (posts == maxAttempts && forall m :: 1 <= m <= maxAttempts ==> Passing(network(m)))
  {
    posts := 0;
    while posts < maxAttempts
      invariant posts <= maxAttempts
      invariant forall m :: 1 <= m <= posts ==> Passing(network(m))
    {
      posts := posts + 1;
      match network(posts) {
        case HttpError =>
          if posts == maxAttempts { break; }
          continue;
        case Status(code) =>
          if code in {200, 201, 202, 204, 409} {
            assert AcceptedAt(network, posts);
            return true, posts;
          }
          if code < 500 && code != 429 {
            assert RefusedAt(network, posts);
            return false, posts;
          }
      }
    }
    delivered := false;
  }

  // ---- What a run emits when every publish returns ----

  datatype Citation = Citation(id: string, body: Payload)

  datatype Execution = Execution(
    agent: AgentKind, taskId: string, toolEvents: seq<Payload>, citations: seq<Citation>, result: Payload)

  datatype WorkflowState = WorkflowState(
    mode: RunStore.RunMode, plan: seq<Json>, executions: seq<Execution>,
    decision: Decision.FinalDecision, partial: bool)

  function ModeName(mode: RunStore.RunMode): Json {
    match mode case Single => String("SINGLE") case Multi => String("MULTI")
  }

  function StatusName(status: Decision.DecisionStatus): Json {
    match status
    case Recommend => String("RECOMMEND")
    case NeedsReview => String("NEEDS_REVIEW")
    case Blocked => String("BLOCKED")
  }

  function ActionJson(action: Option<Decision.Action>): Json {
    match action
    case None => Null
    case Some(a) =>
      Object(map["type" := String(RunStore.TICKET_ACTION), "title" := String(a.title),
        "description" := String(a.description)])
  }

  function DecisionJson(d: Decision.FinalDecision): Json {
    Object(map[
      "status" := StatusName(d.status),
      "confidence" := Number(d.confidence),
      "requiresHumanApproval" := Bool(d.requiresHumanApproval),
      "proposedAction" := ActionJson(d.proposedAction)])
  }

  function Started(mode: RunStore.RunMode): Emission {
    Emission(RunStarted, None, map["status" := String("PLANNING"), "demoData" := Bool(true), "mode" := ModeName(mode)])
  }

  function Planned(s: WorkflowState): Emission {
    Emission(PlanCreated, Some(Planner), map["mode" := ModeName(s.mode), "tasks" := Array(s.plan)])
  }

  function AgentStart(x: Execution): Emission {
    Emission(AgentStarted, Some(x.agent),
      map["agent" := String(RunStore.AgentName(x.agent)), "taskId" := String(x.taskId)])
  }

  function ToolEmission(x: Execution, tool: Payload): Emission {
    Emission(ToolCompleted, Some(x.agent), tool)
  }

  function CitationEmission(x: Execution, c: Citation): Emission {
    Emission(CitationAdded, Some(x.agent), c.body)
  }

  function AgentDone(x: Execution): Emission {
    Emission(AgentCompleted, Some(x.agent), map["taskId" := String(x.taskId)] + x.result)
  }

  function Synthesised(s: WorkflowState): Emission {
    Emission(SynthesisCompleted, Some(Synthesizer), map["decision" := DecisionJson(s.decision)])
  }

  function ApprovalAsked(s: WorkflowState): Emission {
    Emission(ApprovalRequired, Some(Synthesizer),
      map["decisionStatus" := StatusName(s.decision.status), "proposedAction" := ActionJson(s.decision.proposedAction)])
  }

  function Finished(s: WorkflowState): Emission {
    Emission(RunCompleted, None, map[
      "status" := String(if s.partial then "PARTIAL" else "COMPLETED"), "partial" := Bool(s.partial),
      "mode" := ModeName(s.mode), "decisionStatus" := StatusName(s.decision.status)])
  }

  function Failure(errorCode: string): Emission {
    Emission(RunFailed, None, map["status" := String("FAILED"), "errorCode" := String(errorCode)])
  }

  function Tools(x: Execution, tools: seq<Payload>): seq<Emission> {
    if tools == [] then [] else [ToolEmission(x, tools[0])] + Tools(x, tools[1..])
  }

  /** Citations in order, each id once: the ids in `seen` were emitted before. */
  function Citations(x: Execution, citations: seq<Citation>, seen: set<string>): seq<Emission> {
    if citations == [] then []
    else if citations[0].id in seen then Citations(x, citations[1..], seen)
    else [CitationEmission(x, citations[0])] + Citations(x, citations[1..], seen + {citations[0].id})
  }

  function AgentBlock(x: Execution): seq<Emission> {
    [AgentStart(x)] + (Tools(x, x.toolEvents) + (Citations(x, x.citations, {}) + [AgentDone(x)]))
  }

  function AgentBlocks(xs: seq<Execution>): seq<Emission> {
    if xs == [] then [] else AgentBlock(xs[0]) + AgentBlocks(xs[1..])
  }

  function Closing(s: WorkflowState): seq<Emission> {
    [Synthesised(s)] + ((if s.decision.requiresHumanApproval then [ApprovalAsked(s)] else []) + [Finished(s)])
  }

  function Script(s: WorkflowState): seq<Emission> {
    [Started(s.mode)] + ([Planned(s)] + (AgentBlocks(s.executions) + Closing(s)))
  }

  // ---- What is emitted when a publish raises ----

  const DELIVERY_ERROR := "CALLBACKDELIVERYERROR"

  predicate AllDelivered(deliver: nat -> bool, n: nat) {
    forall k :: 1 <= k <= n ==> deliver(k)
  }

  /** `out` is everything up to the undelivered event at index `n`, followed by one failure. */
  predicate CutAt(script: seq<Emission>, deliver: nat -> bool, n: nat, out: seq<Emission>) {
    && n < |script|
    && out == script[..n + 1] + [Failure(DELIVERY_ERROR)]
    && AllDelivered(deliver, n) && !deliver(n + 1)
  }

  /** All of `script`, or everything up to the first undelivered event followed by one failure. */
  predicate IsTrace(script: seq<Emission>, deliver: nat -> bool, out: seq<Emission>) {
    || (out == script && AllDelivered(deliver, |script|))
    || exists n :: 0 <= n < |script| && CutAt(script, deliver, n, out)
  }

  function Numbered(runId: string, ms: seq<Emission>): seq<RunEvent> {
    seq(|ms|, i requires 0 <= i < |ms| => MakeEvent(runId, i + 1, ms[i]))
  }

  lemma {:induction false} NumberedNext(runId: string, ms: seq<Emission>, m: Emission)
    ensures Numbered(runId, ms + [m]) == Numbered(runId, ms) + [MakeEvent(runId, |ms| + 1, m)]
  {
  }

  class RunExecution {
    const factory: EventFactory
    const deliver: nat -> bool
    var emitted: seq<RunEvent>

    /** `deliver(n)` says whether the publish of the n-th event returns normally. */
    constructor (factory: EventFactory, deliver: nat -> bool)
      ensures this.factory == factory && this.deliver == deliver && emitted == []
    {
      this.factory := factory;
      this.deliver := deliver;
      emitted := [];
    }

    predicate Valid()
      reads this, factory
    {
      factory.sequence == |emitted|
    }

    method Emit(m: Emission) returns (delivered: bool)
      requires Valid()
      modifies this, factory
      ensures Valid()
      ensures emitted == old(emitted) + [MakeEvent(factory.runId, |old(emitted)| + 1, m)]
      ensures delivered == deliver(|old(emitted)| + 1)
    {
      var e := factory.Create(m);
      emitted := emitted + [e];
      delivered := deliver(e.sequence);
    }

    /** Everything emitted so far is the beginning of `script`, and all of it was delivered. */
    ghost predicate OnTrack(script: seq<Emission>)
      reads this, factory
    {
      && Valid() && |emitted| <= |script|
      && emitted == Numbered(factory.runId, script[..|emitted|])
      && AllDelivered(deliver, |emitted|)
    }

    ghost predicate Ended(script: seq<Emission>)
      reads this
    {
      exists out :: IsTrace(script, deliver, out) && emitted == Numbered(factory.runId, out)
    }

    /** The next event of `script`: either it is delivered, or the run ends with a failure event. */
    method EmitNext(m: Emission, ghost script: seq<Emission>, ghost rest: seq<Emission>) returns (delivered: bool)
      requires OnTrack(script) && script[|emitted|..] == [m] + rest
      modifies this, factory
      ensures delivered ==> OnTrack(script) && script[|emitted|..] == rest
      ensures !delivered ==> Ended(script)
    {
      ghost var n := |emitted|;
      NextOfRest(script, n, m, rest);
      NumberedNext(factory.runId, script[..n], m);
      delivered := Emit(m);
      if !delivered { EmitFailure(script, n); }
    }

    /** The publish of the event at index `n` raised: the failure event is the last one. */
    method EmitFailure(ghost script: seq<Emission>, ghost n: nat)
      requires Valid() && n < |script| && emitted == Numbered(factory.runId, script[..n + 1])
      requires AllDelivered(deliver, n) && !deliver(n + 1)
      modifies this, factory
      ensures Ended(script)
    {
      var _ := Emit(Failure(DELIVERY_ERROR));
      NumberedNext(factory.runId, script[..n + 1], Failure(DELIVERY_ERROR));
      assert CutAt(script, deliver, n, script[..n + 1] + [Failure(DELIVERY_ERROR)]);
    }

    /**
     `execute_run`.  A workflow that raises ends the run right after its first event; otherwise
     the events are a trace of the script.
     */
    method ExecuteRun(mode: RunStore.RunMode, workflow: Option<WorkflowState>, workflowError: string)
      requires Valid() && emitted == []
      requires workflow.Some? ==> workflow.value.mode == mode
      modifies this, factory
      ensures workflow.Some? ==> Ended(Script(workflow.value))
      ensures workflow.None? ==> emitted == Numbered(factory.runId,
        [Started(mode), Failure(if deliver(1) then workflowError else DELIVERY_ERROR)])
    {
      if workflow.None? {
        var delivered := Emit(Started(mode));
        var _ := Emit(Failure(if delivered then workflowError else DELIVERY_ERROR));
        return;
      }
      var state := workflow.value;
      ghost var script := Script(state);
      ghost var closing := Closing(state);
      ghost var blocks := AgentBlocks(state.executions) + closing;
      assert script[|emitted|..] == script;
      var ok := EmitNext(Started(mode), script, [Planned(state)] + blocks);
      if !ok { return; }
      ok := EmitNext(Planned(state), script, blocks);
      if !ok { return; }
      assert state.executions[0..] == state.executions;
      var i := 0;
      while i < |state.executions|
        invariant 0 <= i <= |state.executions|
        invariant OnTrack(script)
        invariant script[|emitted|..] == AgentBlocks(state.executions[i..]) + closing
      {
        BlocksUnfold(state.executions, i, closing);
        ok := EmitBlock(state.executions[i], script, AgentBlocks(state.executions[i + 1..]) + closing);
        if !ok { return; }
        i := i + 1;
      }
      assert script[|emitted|..] == closing;
      EmitClosing(state, script);
    }

    /** The end of the run: synthesis, the request for approval where one is required, completion. */
    method EmitClosing(state: WorkflowState, ghost script: seq<Emission>)
      requires OnTrack(script) && script[|emitted|..] == Closing(state)
      modifies this, factory
      ensures Ended(script)
    {
      ghost var request := if state.decision.requiresHumanApproval then [ApprovalAsked(state)] else [];
      var ok := EmitNext(Synthesised(state), script, request + [Finished(state)]);
      if !ok { return; }
      if state.decision.requiresHumanApproval {
        ok := EmitNext(ApprovalAsked(state), script, [Finished(state)]);
        if !ok { return; }
      }
      ok := EmitNext(Finished(state), script, []);
      if !ok { return; }
      assert script[..|emitted|] == script;
      assert IsTrace(script, deliver, script);
    }

    static lemma {:induction false} BlocksUnfold(xs: seq<Execution>, i: nat, closing: seq<Emission>)
      requires i < |xs|
      ensures AgentBlocks(xs[i..]) + closing == AgentBlock(xs[i]) + (AgentBlocks(xs[i + 1..]) + closing)
    {
      assert xs[i..][0] == xs[i];
      assert xs[i..][1..] == xs[i + 1..];
      assert AgentBlock(xs[i]) + AgentBlocks(xs[i + 1..]) + closing
        == AgentBlock(xs[i]) + (AgentBlocks(xs[i + 1..]) + closing);
    }

    /** One specialist: started, its tools, its citations without repetition, completed. */
    method EmitBlock(x: Execution, ghost script: seq<Emission>, ghost rest: seq<Emission>) returns (delivered: bool)
      requires OnTrack(script) && script[|emitted|..] == AgentBlock(x) + rest
      modifies this, factory
      ensures delivered ==> OnTrack(script) && script[|emitted|..] == rest
      ensures !delivered ==> Ended(script)
    {
      ghost var done := [AgentDone(x)] + rest;
      ghost var cites := Citations(x, x.citations, {}) + done;
      BlockUnfolds(x, rest);
      delivered := EmitNext(AgentStart(x), script, Tools(x, x.toolEvents) + cites);
      if !delivered { return; }
      delivered := EmitTools(x, script, cites);
      if !delivered { return; }
      delivered := EmitCitations(x, script, done);
      if !delivered { return; }
      delivered := EmitNext(AgentDone(x), script, rest);
    }

    method EmitTools(x: Execution, ghost script: seq<Emission>, ghost rest: seq<Emission>) returns (delivered: bool)
      requires OnTrack(script) && script[|emitted|..] == Tools(x, x.toolEvents) + rest
      modifies this, factory
      ensures delivered ==> OnTrack(script) && script[|emitted|..] == rest
      ensures !delivered ==> Ended(script)
    {
      delivered := true;
      assert x.toolEvents[0..] == x.toolEvents;
      var j := 0;
      while j < |x.toolEvents|
        invariant 0 <= j <= |x.toolEvents| && delivered
        invariant OnTrack(script)
        invariant script[|emitted|..] == Tools(x, x.toolEvents[j..]) + rest
      {
        ToolsUnfold(x, x.toolEvents, j, rest);
        delivered := EmitNext(ToolEmission(x, x.toolEvents[j]), script, Tools(x, x.toolEvents[j + 1..]) + rest);
        if !delivered { return; }
        j := j + 1;
      }
      assert [] + rest == rest;
    }

    method EmitCitations(x: Execution, ghost script: seq<Emission>, ghost rest: seq<Emission>) returns (delivered: bool)
      requires OnTrack(script) && script[|emitted|..] == Citations(x, x.citations, {}) + rest
      modifies this, factory
      ensures delivered ==> OnTrack(script) && script[|emitted|..] == rest
      ensures !delivered ==> Ended(script)
    {
      delivered := true;
      assert x.citations[0..] == x.citations;
      var seen: set<string> := {};
      var j := 0;
      while j < |x.citations|
        invariant 0 <= j <= |x.citations| && delivered
        invariant OnTrack(script)
        invariant script[|emitted|..] == Citations(x, x.citations[j..], seen) + rest
      {
        CitationsUnfold(x, x.citations, j, seen, rest);
        if x.citations[j].id !in seen {
          ghost var later := Citations(x, x.citations[j + 1..], seen + {x.citations[j].id}) + rest;
          delivered := EmitNext(CitationEmission(x, x.citations[j]), script, later);
          if !delivered { return; }
          seen := seen + {x.citations[j].id};
        }
        j := j + 1;
      }
      assert x.citations[j..] == [] && [] + rest == rest;
    }
  }

  lemma {:induction false} BlockUnfolds(x: Execution, rest: seq<Emission>)
    ensures AgentBlock(x) + rest ==
      [AgentStart(x)] + (Tools(x, x.toolEvents) + (Citations(x, x.citations, {}) + ([AgentDone(x)] + rest)))
  {
  }

  lemma {:induction false} ToolsUnfold(x: Execution, tools: seq<Payload>, j: nat, rest: seq<Emission>)
    requires j < |tools|
    ensures Tools(x, tools[j..]) + rest == [ToolEmission(x, tools[j])] + (Tools(x, tools[j + 1..]) + rest)
  {
    assert tools[j..][1..] == tools[j + 1..];
  }

  lemma {:induction false} CitationsUnfold(
      x: Execution, citations: seq<Citation>, j: nat, seen: set<string>, rest: seq<Emission>)
    requires j < |citations|
    ensures Citations(x, citations[j..], seen) + rest ==
      if citations[j].id in seen then Citations(x, citations[j + 1..], seen) + rest
      else [CitationEmission(x, citations[j])] + (Citations(x, citations[j + 1..], seen + {citations[j].id}) + rest)
  {
    assert citations[j..][1..] == citations[j + 1..];
  }

  // ---- The grammar of a script ----

  predicate Inner(kind: EventType) {
    kind in {AgentStarted, ToolCompleted, CitationAdded, AgentCompleted}
  }

  lemma {:induction false} ToolsAreInner(x: Execution, tools: seq<Payload>)
    ensures forall i :: 0 <= i < |Tools(x, tools)| ==> Inner(Tools(x, tools)[i].kind)
  {
    if tools != [] { ToolsAreInner(x, tools[1..]); }
  }

  lemma {:induction false} CitationsAreInner(x: Execution, citations: seq<Citation>, seen: set<string>)
    ensures forall i :: 0 <= i < |Citations(x, citations, seen)| ==> Inner(Citations(x, citations, seen)[i].kind)
    decreases citations
  {
    if citations != [] {
      CitationsAreInner(x, citations[1..], seen);
      CitationsAreInner(x, citations[1..], seen + {citations[0].id});
    }
  }

  lemma {:induction false} BlocksAreInner(xs: seq<Execution>)
    ensures forall i :: 0 <= i < |AgentBlocks(xs)| ==> Inner(AgentBlocks(xs)[i].kind)
  {
    if xs != [] {
      ToolsAreInner(xs[0], xs[0].toolEvents);
      CitationsAreInner(xs[0], xs[0].citations, {});
      BlocksAreInner(xs[1..]);
    }
  }

  /**
   In a script that needs a human: the start comes first, the plan second, and the last three
   events are the synthesis, the approval request and the completion, each occurring nowhere else.
   */
  lemma {:induction false} ScriptGrammar(s: WorkflowState)
    requires s.decision.requiresHumanApproval
    ensures var ms := Script(s);
      && |ms| >= 5
      && ms[0] == Started(s.mode) && ms[1] == Planned(s)
      && ms[|ms| - 3] == Synthesised(s) && ms[|ms| - 2] == ApprovalAsked(s) && ms[|ms| - 1] == Finished(s)
      && forall i :: 2 <= i < |ms| - 3 ==> Inner(ms[i].kind)
  {
    BlocksAreInner(s.executions);
    var ms, blocks := Script(s), AgentBlocks(s.executions);
    assert ms == [Started(s.mode), Planned(s)] + blocks + [Synthesised(s), ApprovalAsked(s), Finished(s)];
    forall i | 2 <= i < |ms| - 3 ensures Inner(ms[i].kind) {
      assert ms[i] == blocks[i - 2];
    }
  }

  predicate Closes(m: Emission) {
    m.kind == RunCompleted || m.kind == RunFailed
  }

  lemma {:induction false} OnlyLastCloses(s: WorkflowState)
    requires s.decision.requiresHumanApproval
    ensures var ms := Script(s); ms != [] && forall i :: 0 <= i < |ms| ==> (Closes(ms[i]) <==> i == |ms| - 1)
  {
    ScriptGrammar(s);
  }

  /**
   What a run emits holds one terminal event, and nothing follows it; only a completion that could not
   be delivered is followed by a failure.
   */
  lemma {:induction false} ClosesOnce(s: WorkflowState, deliver: nat -> bool, out: seq<Emission>, runId: string)
    requires s.decision.requiresHumanApproval && IsTrace(Script(s), deliver, out)
    ensures out != [] && forall i :: 0 <= i < |out| ==> (Terminal(Numbered(runId, out)[i]) <==>
      i == |out| - 1 || (i == |Script(s)| - 1 && |out| == |Script(s)| + 1))
  {
    var ms := Script(s);
    OnlyLastCloses(s);
    if out != ms {
      var n :| 0 <= n < |ms| && CutAt(ms, deliver, n, out);
      CutCloses(ms, n);
    }
  }

  lemma {:induction false} CutCloses(ms: seq<Emission>, n: nat)
    requires n < |ms| && forall i :: 0 <= i < |ms| ==> (Closes(ms[i]) <==> i == |ms| - 1)
    ensures var out := ms[..n + 1] + [Failure(DELIVERY_ERROR)];
      |out| == n + 2 && forall i :: 0 <= i < |out| ==> (Closes(out[i]) <==> i == n + 1 || i == |ms| - 1)
  {
  }

  // ---- What a script holds of every execution ----

  function OfKind(ms: seq<Emission>, kind: EventType): seq<Emission> {
    if ms == [] then [] else (if ms[0].kind == kind then [ms[0]] else []) + OfKind(ms[1..], kind)
  }

  lemma {:induction false} OfKindConcat(a: seq<Emission>, b: seq<Emission>, kind: EventType)
    ensures OfKind(a + b, kind) == OfKind(a, kind) + OfKind(b, kind)
  {
    if a == [] {
      assert a + b == b;
    } else {
      assert (a + b)[1..] == a[1..] + b;
      OfKindConcat(a[1..], b, kind);
    }
  }

  lemma {:induction false} NoneOfKind(ms: seq<Emission>, kind: EventType)
    requires forall i :: 0 <= i < |ms| ==> ms[i].kind != kind
    ensures OfKind(ms, kind) == []
  {
    if ms != [] { NoneOfKind(ms[1..], kind); }
  }

  lemma {:induction false} AllOfKind(ms: seq<Emission>, kind: EventType)
    requires forall i :: 0 <= i < |ms| ==> ms[i].kind == kind
    ensures OfKind(ms, kind) == ms
  {
    if ms != [] {
      AllOfKind(ms[1..], kind);
      assert ms == [ms[0]] + ms[1..];
    }
  }

  /** Tool events are emitted one for one. */
  lemma {:induction false} ToolsAt(x: Execution, tools: seq<Payload>)
    ensures |Tools(x, tools)| == |tools|
    ensures forall i :: 0 <= i < |tools| ==> Tools(x, tools)[i] == ToolEmission(x, tools[i])
  {
    if tools != [] {
      ToolsAt(x, tools[1..]);
      assert forall i :: 1 <= i < |tools| ==> tools[i] == tools[1..][i - 1];
    }
  }

  /** Citation `i` is the first with its id, and its id was not emitted before. */
  predicate FirstCited(citations: seq<Citation>, seen: set<string>, i: nat)
    requires i < |citations|
  {
    citations[i].id !in seen && forall j :: 0 <= j < i ==> citations[j].id != citations[i].id
  }

  predicate AreFirst(citations: seq<Citation>, seen: set<string>, at: seq<nat>) {
    forall k :: 0 <= k < |at| ==> at[k] < |citations| && FirstCited(citations, seen, at[k])
  }

  predicate Increasing(at: seq<nat>) {
    forall k, l :: 0 <= k < l < |at| ==> at[k] < at[l]
  }

  /** The positions `at` are increasing, and they are exactly those of the first citations with their ids. */
  predicate FirstPositions(citations: seq<Citation>, seen: set<string>, at: seq<nat>) {
    && AreFirst(citations, seen, at) && Increasing(at)
    && forall i: nat :: i < |citations| && FirstCited(citations, seen, i) ==> i in at
  }

  /** The emitted citations are those at the positions `at`. */
  predicate EmittedAt(x: Execution, citations: seq<Citation>, seen: set<string>, at: seq<nat>) {
    && |Citations(x, citations, seen)| == |at|
    && forall k :: 0 <= k < |at| ==>
        at[k] < |citations| && Citations(x, citations, seen)[k] == CitationEmission(x, citations[at[k]])
  }

  /** Of citations with one id only the first is emitted, and the emitted ones keep their order. */
  lemma {:induction false} CitationsAreFirsts(x: Execution, citations: seq<Citation>, seen: set<string>)
    returns (at: seq<nat>)
    ensures FirstPositions(citations, seen, at) && EmittedAt(x, citations, seen, at)
    decreases citations
  {
    at := [];
    if citations != [] {
      var later := CitationsAreFirsts(x, citations[1..], SeenBehind(citations, seen));
      at := Shifted(citations, seen, later);
      ShiftedPositions(citations, seen, later);
      ShiftedEmissions(x, citations, seen, later);
    }
  }

  /** Positions behind the first citation, counted from the first one, which is added if it is new. */
  function Shifted(citations: seq<Citation>, seen: set<string>, later: seq<nat>): seq<nat>
    requires citations != []
  {
    (if citations[0].id in seen then [] else [0]) + seq(|later|, k requires 0 <= k < |later| => later[k] + 1)
  }

  lemma {:induction false} ShiftedEmissions(x: Execution, citations: seq<Citation>, seen: set<string>, later: seq<nat>)
    requires citations != [] && EmittedAt(x, citations[1..], SeenBehind(citations, seen), later)
    ensures EmittedAt(x, citations, seen, Shifted(citations, seen, later))
  {
    var d := if citations[0].id in seen then 0 else 1;
    var at, rest := Shifted(citations, seen, later), Citations(x, citations[1..], SeenBehind(citations, seen));
    forall k | 0 <= k < |at|
      ensures at[k] < |citations| && Citations(x, citations, seen)[k] == CitationEmission(x, citations[at[k]])
    {
      if k >= d {
        assert at[k] == later[k - d] + 1 && Citations(x, citations, seen)[k] == rest[k - d];
      }
    }
  }

  function SeenBehind(citations: seq<Citation>, seen: set<string>): set<string>
    requires citations != []
  {
    if citations[0].id in seen then seen else seen + {citations[0].id}
  }

  lemma {:induction false} FirstShifts(citations: seq<Citation>, seen: set<string>, i: nat)
    requires i + 1 < |citations|
    ensures FirstCited(citations, seen, i + 1) <==> FirstCited(citations[1..], SeenBehind(citations, seen), i)
  {
    var rest := citations[1..];
    assert rest[i] == citations[i + 1] && forall j :: 0 <= j < i ==> rest[j].id == citations[j + 1].id;
    if FirstCited(citations, seen, i + 1) { assert citations[0].id != citations[i + 1].id; }
    if FirstCited(rest, SeenBehind(citations, seen), i) {
      forall j | 0 <= j < i + 1 ensures citations[j].id != citations[i + 1].id {
        if j > 0 { assert rest[j - 1].id != rest[i].id; }
      }
    }
  }

  lemma {:induction false} ShiftedHoldsFirst(citations: seq<Citation>, seen: set<string>, later: seq<nat>, i: nat)
    requires citations != [] && FirstPositions(citations[1..], SeenBehind(citations, seen), later)
    requires i < |citations| && FirstCited(citations, seen, i)
    ensures i in Shifted(citations, seen, later)
  {
    var at, d := Shifted(citations, seen, later), if citations[0].id in seen then 0 else 1;
    if i > 0 {
      FirstShifts(citations, seen, i - 1);
      assert (i - 1) as nat in later;
      var k :| 0 <= k < |later| && later[k] == i - 1;
      assert at[k + d] == i;
    } else {
      assert at[0] == 0;
    }
  }

  lemma {:induction false} ShiftedAreFirst(citations: seq<Citation>, seen: set<string>, later: seq<nat>)
    requires citations != [] && AreFirst(citations[1..], SeenBehind(citations, seen), later)
    ensures AreFirst(citations, seen, Shifted(citations, seen, later))
  {
    var at, d := Shifted(citations, seen, later), if citations[0].id in seen then 0 else 1;
    forall k | 0 <= k < |at| ensures at[k] < |citations| && FirstCited(citations, seen, at[k]) {
      if k >= d {
        assert at[k] == later[k - d] + 1;
        FirstShifts(citations, seen, later[k - d]);
      }
    }
  }

  lemma {:induction false} ShiftedPositions(citations: seq<Citation>, seen: set<string>, later: seq<nat>)
    requires citations != [] && FirstPositions(citations[1..], SeenBehind(citations, seen), later)
    ensures FirstPositions(citations, seen, Shifted(citations, seen, later))
  {
    ShiftedAreFirst(citations, seen, later);
    forall i: nat | i < |citations| && FirstCited(citations, seen, i) ensures i in Shifted(citations, seen, later) {
      ShiftedHoldsFirst(citations, seen, later, i);
    }
  }

  /** One execution: its start, its tool events one for one, its citations, and its completion. */
  lemma {:induction false} BlockGrammar(x: Execution)
    ensures var b, n := AgentBlock(x), |x.toolEvents|;
      && |b| >= n + 2 && b[0] == AgentStart(x) && b[|b| - 1] == AgentDone(x)
      && (forall i :: 0 <= i < n ==> b[i + 1] == ToolEmission(x, x.toolEvents[i]))
      && b[n + 1..|b| - 1] == Citations(x, x.citations, {})
  {
    ToolsAt(x, x.toolEvents);
    var b, tools := AgentBlock(x), Tools(x, x.toolEvents);
    assert b == [AgentStart(x)] + tools + Citations(x, x.citations, {}) + [AgentDone(x)];
  }

  lemma {:induction false} BlockByKind(x: Execution, kind: EventType)
    ensures OfKind(AgentBlock(x), kind) == OfKind([AgentStart(x)], kind) + (OfKind(Tools(x, x.toolEvents), kind)
      + (OfKind(Citations(x, x.citations, {}), kind) + OfKind([AgentDone(x)], kind)))
  {
    var tools, cited := Tools(x, x.toolEvents), Citations(x, x.citations, {});
    OfKindConcat([AgentStart(x)], tools + (cited + [AgentDone(x)]), kind);
    OfKindConcat(tools, cited + [AgentDone(x)], kind);
    OfKindConcat(cited, [AgentDone(x)], kind);
  }

  lemma {:induction false} ToolsByKind(x: Execution, kind: EventType)
    ensures OfKind(Tools(x, x.toolEvents), kind) == if kind == ToolCompleted then Tools(x, x.toolEvents) else []
  {
    ToolsAt(x, x.toolEvents);
    var tools := Tools(x, x.toolEvents);
    if kind == ToolCompleted { AllOfKind(tools, kind); } else { NoneOfKind(tools, kind); }
  }

  lemma {:induction false} CitationsByKind(x: Execution, kind: EventType)
    ensures var cited := Citations(x, x.citations, {});
      OfKind(cited, kind) == if kind == CitationAdded then cited else []
  {
    var at := CitationsAreFirsts(x, x.citations, {});
    var cited := Citations(x, x.citations, {});
    if kind == CitationAdded { AllOfKind(cited, kind); } else { NoneOfKind(cited, kind); }
  }

  lemma {:induction false} BlockHolds(x: Execution, kind: EventType)
    requires Inner(kind)
    ensures OfKind(AgentBlock(x), kind) ==
      match kind
      case AgentStarted => [AgentStart(x)]
      case ToolCompleted => Tools(x, x.toolEvents)
      case CitationAdded => Citations(x, x.citations, {})
      case _ => [AgentDone(x)]
  {
    BlockByKind(x, kind);
    ToolsByKind(x, kind);
    CitationsByKind(x, kind);
    if kind == AgentStarted { AllOfKind([AgentStart(x)], kind); } else { NoneOfKind([AgentStart(x)], kind); }
    if kind == AgentCompleted { AllOfKind([AgentDone(x)], kind); } else { NoneOfKind([AgentDone(x)], kind); }
  }

  function AllTools(xs: seq<Execution>): seq<Emission> {
    if xs == [] then [] else Tools(xs[0], xs[0].toolEvents) + AllTools(xs[1..])
  }

  function AllCitations(xs: seq<Execution>): seq<Emission> {
    if xs == [] then [] else Citations(xs[0], xs[0].citations, {}) + AllCitations(xs[1..])
  }

  predicate OneStartEach(xs: seq<Execution>, starts: seq<Emission>, ends: seq<Emission>) {
    && |starts| == |xs| == |ends|
    && forall i :: 0 <= i < |xs| ==> starts[i] == AgentStart(xs[i]) && ends[i] == AgentDone(xs[i])
  }

  lemma {:induction false} BlocksByKind(xs: seq<Execution>, kind: EventType)
    requires xs != []
    ensures OfKind(AgentBlocks(xs), kind) == OfKind(AgentBlock(xs[0]), kind) + OfKind(AgentBlocks(xs[1..]), kind)
  {
    OfKindConcat(AgentBlock(xs[0]), AgentBlocks(xs[1..]), kind);
  }

  lemma {:induction false} StartsAndEnds(xs: seq<Execution>)
    ensures OneStartEach(xs, OfKind(AgentBlocks(xs), AgentStarted), OfKind(AgentBlocks(xs), AgentCompleted))
  {
    if xs != [] {
      BlocksByKind(xs, AgentStarted);
      BlocksByKind(xs, AgentCompleted);
      BlockHolds(xs[0], AgentStarted);
      BlockHolds(xs[0], AgentCompleted);
      StartsAndEnds(xs[1..]);
      OneMoreEach(xs, OfKind(AgentBlocks(xs[1..]), AgentStarted), OfKind(AgentBlocks(xs[1..]), AgentCompleted));
    }
  }

  lemma {:induction false} OneMoreEach(xs: seq<Execution>, starts: seq<Emission>, ends: seq<Emission>)
    requires xs != [] && OneStartEach(xs[1..], starts, ends)
    ensures OneStartEach(xs, [AgentStart(xs[0])] + starts, [AgentDone(xs[0])] + ends)
  {
    var more, after := [AgentStart(xs[0])] + starts, [AgentDone(xs[0])] + ends;
    forall i | 0 <= i < |xs| ensures more[i] == AgentStart(xs[i]) && after[i] == AgentDone(xs[i]) {
      if i > 0 { assert xs[1..][i - 1] == xs[i] && more[i] == starts[i - 1] && after[i] == ends[i - 1]; }
    }
  }

  lemma {:induction false} ToolsAndCitations(xs: seq<Execution>)
    ensures OfKind(AgentBlocks(xs), ToolCompleted) == AllTools(xs)
    ensures OfKind(AgentBlocks(xs), CitationAdded) == AllCitations(xs)
  {
    if xs != [] {
      BlocksByKind(xs, ToolCompleted);
      BlocksByKind(xs, CitationAdded);
      BlockHolds(xs[0], ToolCompleted);
      BlockHolds(xs[0], CitationAdded);
      ToolsAndCitations(xs[1..]);
    }
  }

  lemma {:induction false} FrameHoldsNone(s: WorkflowState, kind: EventType)
    requires Inner(kind)
    ensures OfKind(Script(s), kind) == OfKind(AgentBlocks(s.executions), kind)
  {
    var blocks := AgentBlocks(s.executions);
    OfKindConcat([Started(s.mode)], [Planned(s)] + (blocks + Closing(s)), kind);
    OfKindConcat([Planned(s)], blocks + Closing(s), kind);
    OfKindConcat(blocks, Closing(s), kind);
    NoneOfKind([Started(s.mode)], kind);
    NoneOfKind([Planned(s)], kind);
    NoneOfKind(Closing(s), kind);
  }

  /**
   A script holds exactly one start and one completion of every execution, in the order of the
   executions, and their tool events and first citations, in order; nothing of them is left out.
   */
  lemma {:induction false} ScriptHoldsExecutions(s: WorkflowState)
    ensures var ms := Script(s);
      && OneStartEach(s.executions, OfKind(ms, AgentStarted), OfKind(ms, AgentCompleted))
      && OfKind(ms, ToolCompleted) == AllTools(s.executions)
      && OfKind(ms, CitationAdded) == AllCitations(s.executions)
  {
    FrameHoldsNone(s, AgentStarted);
    FrameHoldsNone(s, AgentCompleted);
    FrameHoldsNone(s, ToolCompleted);
    FrameHoldsNone(s, CitationAdded);
    StartsAndEnds(s.executions);
    ToolsAndCitations(s.executions);
  }

  // ---- What the backend makes of these events ----

  /** The row after the backend has recorded this event as number `n`. */
  function Recorded(scrub: string -> string, runId: string, n: nat, run: RunStore.Run, m: Emission): RunStore.Run {
    RunStore.RecordRow(run, RunStore.Stored(scrub, MakeEvent(runId, n, m)))
  }

  lemma {:induction false} StatusKeysAreOpen()
    ensures !Redaction.Sensitive("partial") && !Redaction.Sensitive("status") && !Redaction.Sensitive("taskId")
  {
    Redaction.KeyIsOpen("partial", "partial");
    Redaction.KeyIsOpen("status", "status");
    Redaction.KeyIsOpen("taskId", "taskid");
  }

  lemma {:induction false} PartialIsKept(scrub: string -> string, s: WorkflowState)
    ensures var kept := Redaction.RedactPayload(scrub, Finished(s).payload);
      "partial" in kept && kept["partial"] == Bool(s.partial)
  {
    StatusKeysAreOpen();
    Redaction.RedactField(scrub, Finished(s).payload, "partial", 0);
  }

  /** A completion leads to the status it names, if nobody is waited for. */
  lemma {:induction false} CompletionSetsStatus(
      scrub: string -> string, runId: string, n: nat, run: RunStore.Run, s: WorkflowState)
    ensures Recorded(scrub, runId, n, run, Finished(s)).status ==
      if run.approvalState == RunStore.Awaiting then RunStore.AwaitingApproval
      else if s.partial then RunStore.Partial else RunStore.Completed
    ensures Finished(s).payload["status"] == String(if s.partial then "PARTIAL" else "COMPLETED")
  {
    PartialIsKept(scrub, s);
  }

  /** How the result of an agent ended, as it says itself. */
  function EndedAs(result: Payload): RunStore.TaskStatus {
    if "status" in result && result["status"] == String("FAILED") then RunStore.TaskFailed
    else if "status" in result && result["status"] == String("SKIPPED") then RunStore.TaskSkipped
    else RunStore.TaskCompleted
  }

  /** The scrubber leaves the names alone that the backend compares. */
  predicate Sparing(scrub: string -> string, x: Execution) {
    && scrub(x.taskId) == x.taskId
    && ("status" in x.result && x.result["status"].String? ==>
        scrub(x.result["status"].s) == x.result["status"].s)
  }

  lemma {:induction false} TaskIdIsKept(scrub: string -> string, payload: Payload, id: string)
    requires "taskId" in payload && payload["taskId"] == String(id) && scrub(id) == id
    ensures var kept := Redaction.RedactPayload(scrub, payload); "taskId" in kept && kept["taskId"] == String(id)
  {
    StatusKeysAreOpen();
    Redaction.RedactField(scrub, payload, "taskId", 0);
  }

  lemma {:induction false} EndIsKept(scrub: string -> string, x: Execution)
    requires Sparing(scrub, x)
    ensures EndedAs(Redaction.RedactPayload(scrub, AgentDone(x).payload)) == EndedAs(x.result)
  {
    StatusKeysAreOpen();
    if "status" in x.result { Redaction.RedactField(scrub, AgentDone(x).payload, "status", 0); }
  }

  /** The events of an execution move its own task, and no other, to running and then to its end. */
  lemma {:induction false} AgentEventsMoveTask(
      scrub: string -> string, runId: string, n: nat, run: RunStore.Run, x: Execution)
    requires x.taskId in run.tasks && x.taskId != "" && "taskId" !in x.result && Sparing(scrub, x)
    ensures var after := Recorded(scrub, runId, n, run, AgentStart(x)).tasks;
      after == run.tasks[x.taskId := run.tasks[x.taskId].(status := RunStore.TaskRunning)]
    ensures var after, task := Recorded(scrub, runId, n, run, AgentDone(x)).tasks, run.tasks[x.taskId];
      after == run.tasks[x.taskId := RunStore.Task(task.agent, EndedAs(x.result),
        Some(Redaction.RedactPayload(scrub, AgentDone(x).payload)))]
  {
    TaskIdIsKept(scrub, AgentStart(x).payload, x.taskId);
    TaskIdIsKept(scrub, AgentDone(x).payload, x.taskId);
    EndIsKept(scrub, x);
  }

  // ---- Accepting start requests ----

  datatype StartResponse = Accepted(runId: string) | KeyBoundElsewhere

  datatype StartRequest = StartRequest(runId: string, idempotencyKey: Option<string>)

  function EffectiveKey(r: StartRequest): string {
    if r.idempotencyKey.Some? && r.idempotencyKey.value != "" then r.idempotencyKey.value else "start-run:" + r.runId
  }

  /** The bound keys and the producers scheduled so far. */
  datatype Accepting = Accepting(keys: map<string, string>, scheduled: seq<string>)

  function Start(a: Accepting, r: StartRequest): Accepting {
    if EffectiveKey(r) in a.keys then a
    else Accepting(a.keys[EffectiveKey(r) := r.runId], a.scheduled + [r.runId])
  }

  function StartAll(rs: seq<StartRequest>): Accepting {
    if rs == [] then Accepting(map[], []) else Start(StartAll(rs[..|rs| - 1]), rs[|rs| - 1])
  }

  class RunsApi {
    var acceptedKeys: map<string, string>
    var scheduled: seq<string>

    function State(): Accepting
      reads this
    {
      Accepting(acceptedKeys, scheduled)
    }

    constructor ()
      ensures State() == StartAll([])
    {
      acceptedKeys := map[];
      scheduled := [];
    }

    method StartRun(r: StartRequest) returns (response: StartResponse)
      modifies this
      ensures State() == Start(old(State()), r)
      ensures response == (if acceptedKeys[EffectiveKey(r)] == r.runId then Accepted(r.runId) else KeyBoundElsewhere)
      ensures EffectiveKey(r) in acceptedKeys
    {
      var key := if r.idempotencyKey.Some? && r.idempotencyKey.value != "" then r.idempotencyKey.value
                 else "start-run:" + r.runId;
      if key in acceptedKeys {
        if acceptedKeys[key] != r.runId { return KeyBoundElsewhere; }
        return Accepted(r.runId);
      }
      acceptedKeys := acceptedKeys[key := r.runId];
      scheduled := scheduled + [r.runId];
      response := Accepted(r.runId);
    }
  }

  function Producers(a: Accepting, runId: string): nat {
    multiset(a.scheduled)[runId]
  }

  function KeysOf(a: Accepting, runId: string): set<string> {
    set k | k in a.keys && a.keys[k] == runId
  }

  /** The key a caller gives, or else one that names the run. */
  predicate UsesKey(r: StartRequest, key: string) {
    if r.idempotencyKey.Some? && r.idempotencyKey.value != "" then key == r.idempotencyKey.value
    else key == "start-run:" + r.runId
  }

  /** Request `i` is the first with this key. */
  predicate FirstWithKey(rs: seq<StartRequest>, i: nat, key: string)
    requires i < |rs|
  {
    UsesKey(rs[i], key) && forall j :: 0 <= j < i ==> !UsesKey(rs[j], key)
  }

  /** A key belongs to the run of the first request that uses it, and to nobody before. */
  predicate BoundByFirst(keys: map<string, string>, rs: seq<StartRequest>, key: string) {
    && (key in keys <==> exists i :: 0 <= i < |rs| && UsesKey(rs[i], key))
    && forall i: nat :: i < |rs| && FirstWithKey(rs, i, key) ==> key in keys && keys[key] == rs[i].runId
  }

  lemma {:induction false} FirstRequestBinds(rs: seq<StartRequest>, key: string)
    ensures BoundByFirst(StartAll(rs).keys, rs, key)
  {
    if rs != [] {
      var init, n := rs[..|rs| - 1], |rs| - 1;
      FirstRequestBinds(init, key);
      assert rs == init + [rs[n]];
      OneMoreBinds(StartAll(init), init, rs[n], key);
    }
  }

  lemma {:induction false} OneMoreBinds(a: Accepting, before: seq<StartRequest>, r: StartRequest, key: string)
    requires BoundByFirst(a.keys, before, key)
    ensures BoundByFirst(Start(a, r).keys, before + [r], key)
  {
    var all, n := before + [r], |before|;
    assert all[n] == r && forall i :: 0 <= i < n ==> all[i] == before[i];
    assert UsesKey(r, key) <==> key == EffectiveKey(r);
    forall i: nat | i <= n && FirstWithKey(all, i, key)
      ensures key in Start(a, r).keys && Start(a, r).keys[key] == all[i].runId
    {
      if i < n { assert FirstWithKey(before, i, key); }
    }
  }

  /** A run has exactly as many producers as idempotency keys were ever bound to it. */
  lemma {:induction false} ProducersCountKeys(rs: seq<StartRequest>, runId: string)
    ensures Producers(StartAll(rs), runId) == |KeysOf(StartAll(rs), runId)|
  {
    if rs == [] {
      assert KeysOf(StartAll(rs), runId) == {};
    } else {
      var before, r := StartAll(rs[..|rs| - 1]), rs[|rs| - 1];
      var after := Start(before, r);
      ProducersCountKeys(rs[..|rs| - 1], runId);
      if EffectiveKey(r) !in before.keys {
        if r.runId == runId {
          assert KeysOf(after, runId) == KeysOf(before, runId) + {EffectiveKey(r)};
        } else {
          assert KeysOf(after, runId) == KeysOf(before, runId);
        }
      }
    }
  }

  /** The backend sends no idempotency key, so each of its runs gets at most one producer. */
  lemma {:induction false} OneProducerPerRun(rs: seq<StartRequest>, runId: string)
    requires forall i :: 0 <= i < |rs| && rs[i].runId == runId ==> rs[i].idempotencyKey.None?
    ensures Producers(StartAll(rs), runId) <= 1
    ensures KeysOf(StartAll(rs), runId) <= {"start-run:" + runId}
  {
    if rs != [] {
      OneProducerPerRun(rs[..|rs| - 1], runId);
    }
    ProducersCountKeys(rs, runId);
    AtMostOneKey(KeysOf(StartAll(rs), runId), "start-run:" + runId);
  }

  lemma {:induction false} AtMostOneKey(keys: set<string>, key: string)
    requires keys <= {key}
    ensures |keys| <= 1
  {
    assert keys == {} || keys == {key};
  }
}
