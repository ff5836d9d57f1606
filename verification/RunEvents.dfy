/** Run events, their sequence numbers and their idempotency keys. */
module RunEvents {
  import opened Common

  datatype EventType =
    | RunStarted | PlanCreated | AgentStarted | ToolCompleted | CitationAdded
    | AgentCompleted | SynthesisCompleted | ApprovalRequired | RunCompleted | RunFailed

  datatype AgentKind = Planner | Credit | Compliance | Operations | Synthesizer

  /** `uuid5` is injective in its name; a random UUID never equals a name-based one. */
  datatype EventId = NameBased(name: string) | RandomId(token: nat)

  datatype RunEvent = RunEvent(
    id: EventId,
    runId: string,
    sequence: nat,
    kind: EventType,
    agent: Option<AgentKind>,
    key: string,
    payload: Payload)

  predicate Terminal(e: RunEvent) {
    e.kind == RunCompleted || e.kind == RunFailed
  }

  function WireName(kind: EventType): string {
    match kind
    case RunStarted => "run.started"
    case PlanCreated => "plan.created"
    case AgentStarted => "agent.started"
    case ToolCompleted => "tool.completed"
    case CitationAdded => "citation.added"
    case AgentCompleted => "agent.completed"
    case SynthesisCompleted => "synthesis.completed"
    case ApprovalRequired => "approval.required"
    case RunCompleted => "run.completed"
    case RunFailed => "run.failed"
  }

  // ---- Decimal rendering of sequence numbers ----

  predicate AllDigits(s: string) {
    forall i :: 0 <= i < |s| ==> '0' <= s[i] <= '9'
  }

  function Decimal(n: nat): (s: string)
    ensures s != "" && AllDigits(s)
  {
    if n < 10 then ['0' + n as char] else Decimal(n / 10) + ['0' + (n % 10) as char]
  }

  function ParseDecimal(s: string): nat
    requires AllDigits(s)
  {
    if s == "" then 0
    else 10 * ParseDecimal(s[..|s| - 1]) + (s[|s| - 1] - '0') as nat
  }

  /** Reading back a rendered sequence number gives the number. */
  lemma {:induction false} ParseDecimalInverts(n: nat)
    ensures ParseDecimal(Decimal(n)) == n
  {
    if n < 10 {
      assert Decimal(n)[..0] == "";
    } else {
      var init := Decimal(n / 10);
      assert Decimal(n)[..|init|] == init;
      ParseDecimalInverts(n / 10);
    }
  }

  // ---- Idempotency keys ----

  /** A run id is a UUID in text form: it holds no colon and is no English word. */
  predicate ValidRunId(runId: string) {
    ':' !in runId && runId != "dispatch-failure"
  }

  function IdempotencyKey(runId: string, sequence: nat, kind: EventType): string {
    runId + ":" + Decimal(sequence) + ":" + WireName(kind)
  }

  function DispatchKey(runId: string): string {
    "dispatch-failure" + ":" + runId
  }

  /** The text before the first colon, and the text after it, are determined by the whole. */
  lemma {:induction false} FirstColonSplits(a: string, x: string, b: string, y: string)
    requires ':' !in a && ':' !in b
    requires a + ":" + x == b + ":" + y
    ensures a == b && x == y
  {
    var s := a + ":" + x;
    assert s[|a|] == ':' && s[|b|] == ':';
    assert |a| == |b|;
    assert a == s[..|a|] == b;
    assert x == s[|a| + 1..] == y;
  }

  lemma {:induction false} ThreePartsSplit(a: string, b: string, c: string, x: string, y: string, z: string)
    requires ':' !in a && ':' !in b && ':' !in x && ':' !in y
    requires a + ":" + b + ":" + c == x + ":" + y + ":" + z
    ensures a == x && b == y && c == z
  {
    assert a + ":" + b + ":" + c == a + ":" + (b + ":" + c);
    assert x + ":" + y + ":" + z == x + ":" + (y + ":" + z);
    FirstColonSplits(a, b + ":" + c, x, y + ":" + z);
    FirstColonSplits(b, c, y, z);
  }

  lemma {:induction false} WireNameInjective(k: EventType, l: EventType)
    requires WireName(k) == WireName(l)
    ensures k == l
  {
    var n := WireName(k);
    assert |n| == 13 ==> n[0] == 'a' || n[0] == 'r';
    assert |n| == 14 ==> n[0] == 't' || n[0] == 'c';
  }

  /** Equal keys come from the same run, the same position and the same event type. */
  lemma {:induction false} KeyDeterminesOrigin(r: string, m: nat, k: EventType, q: string, n: nat, l: EventType)
    requires ValidRunId(r) && ValidRunId(q)
    requires IdempotencyKey(r, m, k) == IdempotencyKey(q, n, l)
    ensures r == q && m == n && k == l
  {
    ThreePartsSplit(r, Decimal(m), WireName(k), q, Decimal(n), WireName(l));
    ParseDecimalInverts(m);
    ParseDecimalInverts(n);
    WireNameInjective(k, l);
  }

  /** The key of the dispatch-failure event never collides with a producer key. */
  lemma {:induction false} DispatchKeyIsForeign(r: string, q: string, n: nat, k: EventType)
    requires ValidRunId(r) && ValidRunId(q)
    ensures DispatchKey(r) != IdempotencyKey(q, n, k)
  {
    ForeignKey(r, q, Decimal(n), WireName(k));
  }

  lemma {:induction false} ForeignKey(r: string, q: string, digits: string, name: string)
    requires ':' !in q && q != "dispatch-failure"
    ensures DispatchKey(r) != q + ":" + digits + ":" + name
  {
    assert q + ":" + digits + ":" + name == q + ":" + (digits + ":" + name);
    DifferentHeads("dispatch-failure", r, q, digits + ":" + name);
  }

  lemma {:induction false} DifferentHeads(a: string, x: string, b: string, y: string)
    requires ':' !in a && ':' !in b && a != b
    ensures a + ":" + x != b + ":" + y
  {
    if a + ":" + x == b + ":" + y {
      FirstColonSplits(a, x, b, y);
    }
  }

  // ---- The two producers ----

  /** What a caller of the factory supplies; the factory adds identity and position. */
  datatype Emission = Emission(kind: EventType, agent: Option<AgentKind>, payload: Payload)

  function MakeEvent(runId: string, sequence: nat, m: Emission): RunEvent {
    var key := IdempotencyKey(runId, sequence, m.kind);
    RunEvent(NameBased(key), runId, sequence, m.kind, m.agent, key, m.payload)
  }

  /** The event recorded by the backend itself when the AI service could not be started. */
  function DispatchFailure(runId: string, token: nat): RunEvent {
    RunEvent(RandomId(token), runId, 1, RunFailed, None, DispatchKey(runId),
      map["code" := String("AI_SERVICE_UNAVAILABLE"),
          "summary" := String("AI workflow could not be started")])
  }

  /** Numbers the events of one run. */
  class EventFactory {
    const runId: string
    var sequence: nat

    constructor (runId: string)
      ensures this.runId == runId && sequence == 0
    {
      this.runId := runId;
      sequence := 0;
    }

    method Create(m: Emission) returns (e: RunEvent)
      modifies this
      ensures sequence == old(sequence) + 1
      ensures e == MakeEvent(runId, sequence, m)
      ensures e.kind == m.kind && e.agent == m.agent && e.payload == m.payload
      ensures e.runId == runId && e.sequence == sequence && e.id == NameBased(e.key)
    {
      sequence := sequence + 1;
      var key := IdempotencyKey(runId, sequence, m.kind);
      e := RunEvent(NameBased(key), runId, sequence, m.kind, m.agent, key, m.payload);
    }
  }
}
