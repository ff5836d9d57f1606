/**
 The run page of the front end: merges REST snapshots and live events into one timeline and keeps
 a single live stream per load.
 */
module Timeline {
  import opened Common
  import opened RunEvents
  import opened Sorting
  import ServerStream
  import opened StreamClient

  // ---- Merging ----

  /** Keeps the first event of every id and of every sequence. */
  function Dedup(es: seq<RunEvent>, ids: set<EventId>, sequences: set<nat>): seq<RunEvent>
    decreases es
  {
    if es == [] then []
    else if es[0].id in ids || es[0].sequence in sequences then Dedup(es[1..], ids, sequences)
    else [es[0]] + Dedup(es[1..], ids + {es[0].id}, sequences + {es[0].sequence})
  }

  function Merge(events: seq<RunEvent>, incoming: seq<RunEvent>): seq<RunEvent> {
    Dedup(ServerStream.BySequence(events + incoming), {}, {})
  }

  predicate DistinctIds(es: seq<RunEvent>) {
    forall i, j :: 0 <= i < j < |es| ==> es[i].id != es[j].id
  }

  /** What a timeline always is. */
  predicate IsTimeline(es: seq<RunEvent>) {
    ServerStream.Increasing(es) && DistinctIds(es)
  }

  lemma {:induction false} DedupMembers(es: seq<RunEvent>, ids: set<EventId>, sequences: set<nat>)
    ensures forall e :: e in Dedup(es, ids, sequences) ==> e in es && e.id !in ids && e.sequence !in sequences
    decreases es
  {
    if es != [] {
      DedupMembers(es[1..], ids, sequences);
      DedupMembers(es[1..], ids + {es[0].id}, sequences + {es[0].sequence});
    }
  }

  lemma {:induction false} DedupIsTimeline(es: seq<RunEvent>, ids: set<EventId>, sequences: set<nat>)
    requires Sorted(es, ServerStream.Earlier)
    ensures IsTimeline(Dedup(es, ids, sequences))
    decreases es
  {
    if es != [] {
      var rest := es[1..];
      assert Sorted(rest, ServerStream.Earlier);
      DedupIsTimeline(rest, ids, sequences);
      DedupIsTimeline(rest, ids + {es[0].id}, sequences + {es[0].sequence});
      var kept := Dedup(rest, ids + {es[0].id}, sequences + {es[0].sequence});
      DedupMembers(rest, ids + {es[0].id}, sequences + {es[0].sequence});
      forall j | 0 <= j < |kept| ensures es[0].sequence < kept[j].sequence && es[0].id != kept[j].id {
        assert kept[j] in kept;
        var k :| 0 <= k < |rest| && rest[k] == kept[j];
        assert ServerStream.Earlier(es[0], es[k + 1]);
      }
    }
  }

  lemma {:induction false} EarlierIsTotal()
    ensures TotalPreorder(ServerStream.Earlier)
  {
  }

  /** Merging any two lists gives strictly increasing sequences and distinct ids. */
  lemma {:induction false} MergeIsTimeline(events: seq<RunEvent>, incoming: seq<RunEvent>)
    ensures IsTimeline(Merge(events, incoming))
    ensures forall e :: e in Merge(events, incoming) ==> e in events || e in incoming
  {
    EarlierIsTotal();
    SortSorts(events + incoming, ServerStream.Earlier);
    SortMembers(events + incoming, ServerStream.Earlier);
    DedupIsTimeline(ServerStream.BySequence(events + incoming), {}, {});
    DedupMembers(ServerStream.BySequence(events + incoming), {}, {});
  }

  // ---- Idempotence ----

  /** `e` cannot enter a timeline that holds `m`: an event not later than `e` shares its id or sequence. */
  predicate Blocked(m: seq<RunEvent>, e: RunEvent) {
    exists i :: 0 <= i < |m| && m[i].sequence <= e.sequence && (m[i].id == e.id || m[i].sequence == e.sequence)
  }

  lemma {:induction false} DedupBlocks(es: seq<RunEvent>, ids: set<EventId>, sequences: set<nat>, e: RunEvent)
    requires Sorted(es, ServerStream.Earlier) && e in es
    ensures e.id in ids || e.sequence in sequences || Blocked(Dedup(es, ids, sequences), e)
    decreases es
  {
    var rest, kept := es[1..], Dedup(es, ids, sequences);
    assert Sorted(rest, ServerStream.Earlier);
    if e == es[0] {
      assert !(e.id in ids || e.sequence in sequences) ==> kept[0] == e;
    } else if es[0].id in ids || es[0].sequence in sequences {
      DedupBlocks(rest, ids, sequences, e);
    } else {
      var later := Dedup(rest, ids + {es[0].id}, sequences + {es[0].sequence});
      DedupBlocks(rest, ids + {es[0].id}, sequences + {es[0].sequence}, e);
      var k :| 0 <= k < |es| && es[k] == e;
      assert ServerStream.Earlier(es[0], es[k]);
      assert kept[0] == es[0];
      if Blocked(later, e) {
        var i :| 0 <= i < |later| && later[i].sequence <= e.sequence
          && (later[i].id == e.id || later[i].sequence == e.sequence);
        assert kept[i + 1] == later[i];
      }
    }
  }

  /** Two sorted lists woven together, the first one's elements first on ties. */
  function Weave(m: seq<RunEvent>, u: seq<RunEvent>): seq<RunEvent> {
    if m == [] then u
    else if u == [] || ServerStream.Earlier(m[0], u[0]) then [m[0]] + Weave(m[1..], u)
    else [u[0]] + Weave(m, u[1..])
  }

  lemma {:induction false} InsertWeaves(m: seq<RunEvent>, u: seq<RunEvent>)
    requires m != [] && Sorted(m, ServerStream.Earlier) && Sorted(u, ServerStream.Earlier)
    ensures Insert(m[0], Weave(m[1..], u), ServerStream.Earlier) == Weave(m, u)
    decreases u
  {
    if u != [] && !ServerStream.Earlier(m[0], u[0]) {
      InsertWeaves(m, u[1..]);
      assert |m| > 1 ==> ServerStream.Earlier(m[0], m[1]);
      assert Weave(m[1..], u) == [u[0]] + Weave(m[1..], u[1..]);
    } else if u == [] {
      WeaveNothing(m[1..]);
      assert |m| > 1 ==> ServerStream.Earlier(m[0], m[1]);
    } else {
      assert |m| > 1 ==> ServerStream.Earlier(m[0], m[1]);
    }
  }

  lemma {:induction false} WeaveNothing(m: seq<RunEvent>)
    ensures Weave(m, []) == m
  {
    if m != [] { WeaveNothing(m[1..]); }
  }

  lemma {:induction false} SortWeaves(m: seq<RunEvent>, u: seq<RunEvent>)
    requires Sorted(m, ServerStream.Earlier)
    ensures ServerStream.BySequence(m + u) == Weave(m, ServerStream.BySequence(u))
    decreases m
  {
    EarlierIsTotal();
    SortSorts(u, ServerStream.Earlier);
    if m == [] {
      assert m + u == u;
    } else {
      assert (m + u)[1..] == m[1..] + u;
      SortWeaves(m[1..], u);
      InsertWeaves(m, ServerStream.BySequence(u));
    }
  }

  predicate Barred(m: seq<RunEvent>, ids: set<EventId>, sequences: set<nat>, e: RunEvent) {
    e.id in ids || e.sequence in sequences || Blocked(m, e)
  }

  /** A timeline absorbs everything that is barred. */
  lemma {:induction false} DedupAbsorbs(m: seq<RunEvent>, u: seq<RunEvent>, ids: set<EventId>, sequences: set<nat>)
    requires IsTimeline(m)
    requires forall i :: 0 <= i < |m| ==> m[i].id !in ids && m[i].sequence !in sequences
    requires forall i :: 0 <= i < |u| ==> Barred(m, ids, sequences, u[i])
    ensures Dedup(Weave(m, u), ids, sequences) == m
    decreases |m| + |u|
  {
    if m == [] {
      if u != [] {
        assert Barred(m, ids, sequences, u[0]);
        DedupAbsorbs(m, u[1..], ids, sequences);
      }
    } else if u == [] || ServerStream.Earlier(m[0], u[0]) {
      var more, rest := ids + {m[0].id}, m[1..];
      forall i | 0 <= i < |u| ensures Barred(rest, more, sequences + {m[0].sequence}, u[i]) {
        assert Barred(m, ids, sequences, u[i]);
        if Blocked(m, u[i]) {
          var k :| 0 <= k < |m| && m[k].sequence <= u[i].sequence
            && (m[k].id == u[i].id || m[k].sequence == u[i].sequence);
          assert k > 0 ==> rest[k - 1] == m[k];
        }
      }
      DedupAbsorbs(rest, u, more, sequences + {m[0].sequence});
      assert ([m[0]] + Weave(rest, u))[1..] == Weave(rest, u);
      assert [m[0]] + rest == m;
    } else {
      assert Barred(m, ids, sequences, u[0]);
      assert !Blocked(m, u[0]);
      DedupAbsorbs(m, u[1..], ids, sequences);
      assert ([u[0]] + Weave(m, u[1..]))[1..] == Weave(m, u[1..]);
    }
  }

  /** Merging is idempotent: what was merged before, in any order and number, changes nothing. */
  lemma {:induction false} MergeIsIdempotent(events: seq<RunEvent>, incoming: seq<RunEvent>, again: seq<RunEvent>)
    requires forall e :: e in again ==> e in events || e in incoming
    ensures Merge(Merge(events, incoming), again) == Merge(events, incoming)
  {
    var sorted := ServerStream.BySequence(events + incoming);
    var m, u := Merge(events, incoming), ServerStream.BySequence(again);
    EarlierIsTotal();
    MergeIsTimeline(events, incoming);
    SortSorts(events + incoming, ServerStream.Earlier);
    SortMembers(events + incoming, ServerStream.Earlier);
    SortMembers(again, ServerStream.Earlier);
    SortWeaves(m, again);
    forall i | 0 <= i < |u| ensures Barred(m, {}, {}, u[i]) {
      assert u[i] in u && u[i] in again && u[i] in events + incoming && u[i] in sorted;
      DedupBlocks(sorted, {}, {}, u[i]);
    }
    DedupAbsorbs(m, u, {}, {});
  }

  // ---- Coherent events ----

  predicate SamePlace(e: RunEvent, f: RunEvent) {
    e.sequence == f.sequence || e.id == f.id
  }

  /** Sequence and id determine the event. */
  ghost predicate Coherent(es: iset<RunEvent>) {
    forall e, f :: e in es && f in es && SamePlace(e, f) ==> e == f
  }

  ghost function Both(a: seq<RunEvent>, b: seq<RunEvent>): iset<RunEvent> {
    iset e | e in a || e in b
  }

  /** Of coherent events none is lost: a merge holds exactly the union. */
  lemma {:induction false} MergeIsUnion(events: seq<RunEvent>, incoming: seq<RunEvent>)
    requires Coherent(Both(events, incoming))
    ensures forall e :: e in Merge(events, incoming) <==> e in events || e in incoming
  {
    var sorted, m := ServerStream.BySequence(events + incoming), Merge(events, incoming);
    EarlierIsTotal();
    MergeIsTimeline(events, incoming);
    SortSorts(events + incoming, ServerStream.Earlier);
    SortMembers(events + incoming, ServerStream.Earlier);
    forall e | e in events || e in incoming ensures e in m {
      assert e in events + incoming;
      DedupBlocks(sorted, {}, {}, e);
      var i :| 0 <= i < |m| && m[i].sequence <= e.sequence && (m[i].id == e.id || m[i].sequence == e.sequence);
      assert m[i] in m && SamePlace(m[i], e);
    }
  }

  lemma {:induction false} SomeMember(b: seq<RunEvent>)
    ensures b == [] || exists e :: e in b
  {
    if b != [] { assert b[0] in b; }
  }

  /** A timeline is determined by the set of its events. */
  lemma {:induction false} TimelineIsItsSet(a: seq<RunEvent>, b: seq<RunEvent>)
    requires ServerStream.Increasing(a) && ServerStream.Increasing(b)
    requires forall e :: e in a <==> e in b
    ensures a == b
  {
    if a == [] {
      SomeMember(b);
    } else {
      assert a[0] in b && b[0] in a by { assert a[0] in a && (b == [] || b[0] in b); }
      var x, y := a[1..], b[1..];
      SameFirst(a, b);
      forall e ensures e in x <==> e in y { RestMembers(a, e); RestMembers(b, e); }
      TimelineIsItsSet(x, y);
      assert a == [a[0]] + x && b == [b[0]] + y;
    }
  }

  lemma {:induction false} SameFirst(a: seq<RunEvent>, b: seq<RunEvent>)
    requires ServerStream.Increasing(a) && ServerStream.Increasing(b) && a != [] && b != []
    requires a[0] in b && b[0] in a
    ensures a[0] == b[0]
  {
    var i :| 0 <= i < |b| && b[i] == a[0];
    var j :| 0 <= j < |a| && a[j] == b[0];
    assert i > 0 ==> b[0].sequence < b[i].sequence;
    assert j > 0 ==> a[0].sequence < a[j].sequence;
  }

  lemma {:induction false} RestMembers(a: seq<RunEvent>, e: RunEvent)
    requires ServerStream.Increasing(a) && a != []
    ensures e in a[1..] <==> e in a && e != a[0]
  {
    if e in a[1..] {
      var k :| 0 <= k < |a[1..]| && a[1..][k] == e;
      assert a[k + 1] == e;
    }
    if e in a && e != a[0] {
      var k :| 0 <= k < |a| && a[k] == e;
      assert a[1..][k - 1] == e;
    }
  }

  /** Merging batch after batch. */
  function MergeBatches(events: seq<RunEvent>, batches: seq<seq<RunEvent>>): seq<RunEvent> {
    if batches == [] then events else Merge(MergeBatches(events, batches[..|batches| - 1]), batches[|batches| - 1])
  }

  predicate InBatches(batches: seq<seq<RunEvent>>, e: RunEvent) {
    exists i :: 0 <= i < |batches| && e in batches[i]
  }

  lemma {:induction false} BatchesAreUnion(events: seq<RunEvent>, batches: seq<seq<RunEvent>>, all: iset<RunEvent>)
    requires IsTimeline(events) && Coherent(all)
    requires forall e :: e in events || InBatches(batches, e) ==> e in all
    ensures IsTimeline(MergeBatches(events, batches))
    ensures forall e :: e in MergeBatches(events, batches) <==> e in events || InBatches(batches, e)
  {
    if batches != [] {
      var n := |batches| - 1;
      var init, last := batches[..n], batches[n];
      forall e ensures InBatches(batches, e) <==> InBatches(init, e) || e in last {
        if InBatches(init, e) {
          var i :| 0 <= i < |init| && e in init[i];
          assert e in batches[i];
        }
        if InBatches(batches, e) {
          var i :| 0 <= i < |batches| && e in batches[i];
          assert i < n ==> e in init[i];
        }
        assert e in last ==> e in batches[n];
      }
      BatchesAreUnion(events, init, all);
      MergeIsTimeline(MergeBatches(events, init), last);
      MergeIsUnion(MergeBatches(events, init), last);
    }
  }

  /** The timeline does not depend on how the events were batched or in which order they came. */
  lemma {:induction false} MergeOrderDoesNotMatter(
      events: seq<RunEvent>, some: seq<seq<RunEvent>>, others: seq<seq<RunEvent>>, all: iset<RunEvent>)
    requires IsTimeline(events) && Coherent(all)
    requires forall e :: e in events || InBatches(some, e) ==> e in all
    requires forall e :: InBatches(some, e) <==> InBatches(others, e)
    ensures MergeBatches(events, some) == MergeBatches(events, others)
    ensures forall e :: e in events ==> e in MergeBatches(events, some)
  {
    BatchesAreUnion(events, some, all);
    BatchesAreUnion(events, others, all);
    TimelineIsItsSet(MergeBatches(events, some), MergeBatches(events, others));
  }

  /** `#mergeEvents` with its two sets. */
  method MergeEvents(events: seq<RunEvent>, incoming: seq<RunEvent>) returns (merged: seq<RunEvent>)
    ensures merged == Merge(events, incoming)
  {
    var sorted := ServerStream.BySequence(events + incoming);
    var byId: set<EventId>, bySequence: set<nat> := {}, {};
    merged := [];
    var i := 0;
    while i < |sorted|
      invariant 0 <= i <= |sorted|
      invariant merged + Dedup(sorted[i..], byId, bySequence) == Merge(events, incoming)
    {
      var e := sorted[i];
      assert sorted[i..][0] == e && sorted[i..][1..] == sorted[i + 1..];
      if !(e.id in byId || e.sequence in bySequence) {
        merged := merged + [e];
        byId := byId + {e.id};
        bySequence := bySequence + {e.sequence};
      }
      i := i + 1;
    }
  }

  // ---- The facade ----

  datatype Status = Open | Finished

  /** A REST snapshot of a run; `Finished` stands for COMPLETED, PARTIAL and FAILED. */
  datatype RunDetail = RunDetail(id: string, version: nat, status: Status, events: seq<RunEvent>)

  /** `stream` is the generation of the load that owns the one live stream, if there is one. */
  datatype Facade = Facade(
    runId: Option<string>,
    run: Option<RunDetail>,
    events: seq<RunEvent>,
    loading: bool,
    failed: bool,
    connection: ConnectionState,
    streamError: Option<StreamError>,
    loadGeneration: nat,
    stream: Option<nat>,
    persisted: seq<RunEvent>,
    destroyed: bool)

  const NEW_FACADE := Facade(None, None, [], false, false, Closed, None, 0, None, [], false)

  function AbortStream(f: Facade): Facade {
    f.(stream := None, connection := Closed)
  }

  function BeginLoad(f: Facade, id: string): Facade {
    AbortStream(f).(loadGeneration := f.loadGeneration + 1, runId := Some(id), run := None, events := [],
      failed := false, streamError := None, loading := true)
  }

  /** An older version of the shown run only contributes its events. */
  predicate Outdated(f: Facade, s: RunDetail) {
    f.run.Some? && f.run.value.id == s.id && s.version < f.run.value.version
  }

  function ApplySnapshot(f: Facade, s: RunDetail): Facade {
    var merged := f.(events := Merge(f.events, s.events));
    if Outdated(f, s) then merged
    else if s.status == Finished then AbortStream(merged.(run := Some(s)))
    else merged.(run := Some(s))
  }

  function OpenStream(f: Facade): Facade {
    f.(stream := Some(f.loadGeneration), persisted := f.events)
  }

  predicate ShowsFinished(f: Facade) {
    f.run.Some? && f.run.value.status == Finished
  }

  function EndLoad(f: Facade, generation: nat, answer: Option<RunDetail>): Facade {
    if f.destroyed || generation != f.loadGeneration then f
    else match answer
      case None => f.(failed := true, loading := false)
      case Some(s) =>
        var g := ApplySnapshot(f, s);
        (if ShowsFinished(g) then g else OpenStream(g)).(loading := false)
  }

  /** The answer to a reload is applied whatever has been loaded in the meantime. */
  function EndReload(f: Facade, answer: Option<RunDetail>): Facade {
    if f.destroyed then f
    else match answer
      case None => f.(failed := true)
      case Some(s) => ApplySnapshot(f, s).(failed := false)
  }

  predicate Listens(f: Facade, generation: nat) {
    f.stream == Some(generation) && !f.destroyed
  }

  function OnEvent(f: Facade, generation: nat, e: RunEvent): Facade {
    if Listens(f, generation) then f.(events := Merge(f.events, [e])) else f
  }

  function OnConnection(f: Facade, generation: nat, state: ConnectionState): Facade {
    if !Listens(f, generation) then f
    else
      var heals := state == Online && f.streamError.Some? && f.streamError.value.retryable;
      f.(connection := state, streamError := if heals then None else f.streamError)
  }

  function OnStreamError(f: Facade, generation: nat, error: StreamError): Facade {
    if Listens(f, generation) then f.(streamError := Some(error)) else f
  }

  function Destroy(f: Facade): Facade {
    if f.destroyed then f else AbortStream(f.(destroyed := true, loadGeneration := f.loadGeneration + 1))
  }

  class RunFacade {
    var runId: Option<string>
    var run: Option<RunDetail>
    var events: seq<RunEvent>
    var loading: bool
    var failed: bool
    var connection: ConnectionState
    var streamError: Option<StreamError>
    var loadGeneration: nat
    var stream: Option<nat>
    var persisted: seq<RunEvent>
    var destroyed: bool

    function State(): Facade
      reads this
    {
      Facade(runId, run, events, loading, failed, connection, streamError, loadGeneration, stream, persisted, destroyed)
    }

    constructor ()
      ensures State() == NEW_FACADE
    {
      runId, run, events, loading, failed := None, None, [], false, false;
      connection, streamError, loadGeneration, stream, persisted, destroyed := Closed, None, 0, None, [], false;
    }

    method Abort()
      modifies `stream, `connection
      ensures State() == AbortStream(old(State()))
    {
      stream := None;
      connection := Closed;
    }

    /** The part of `load` before the request; the caller keeps the generation for `Loaded`. */
    method Load(id: string) returns (generation: nat)
      modifies this
      ensures State() == BeginLoad(old(State()), id) && generation == loadGeneration
    {
      loadGeneration := loadGeneration + 1;
      generation := loadGeneration;
      Abort();
      runId := Some(id);
      run := None;
      events := [];
      failed := false;
      streamError := None;
      loading := true;
    }

    method Apply(snapshot: RunDetail)
      modifies `run, `events, `stream, `connection
      ensures State() == ApplySnapshot(old(State()), snapshot)
    {
      if run.Some? && run.value.id == snapshot.id && snapshot.version < run.value.version {
        events := MergeEvents(events, snapshot.events);
        return;
      }
      run := Some(snapshot);
      events := MergeEvents(events, snapshot.events);
      if snapshot.status == Finished { Abort(); }
    }

    /** The part of `load` after the answer; `persisted` is what the opened stream starts from. */
    method Loaded(generation: nat, answer: Option<RunDetail>)
      modifies this
      ensures State() == EndLoad(old(State()), generation, answer)
    {
      if destroyed || generation != loadGeneration { return; }
      match answer {
        case None => failed := true;
        case Some(snapshot) =>
          Apply(snapshot);
          if !(run.Some? && run.value.status == Finished) {
            stream := Some(loadGeneration);
            persisted := events;
          }
      }
      loading := false;
    }

    method Reloaded(answer: Option<RunDetail>)
      modifies this
      ensures State() == EndReload(old(State()), answer)
    {
      if destroyed { return; }
      match answer {
        case None => failed := true;
        case Some(snapshot) =>
          Apply(snapshot);
          failed := false;
      }
    }

    /** Answers whether the event makes the facade reload the snapshot. */
    method Event(generation: nat, e: RunEvent) returns (reload: bool)
      modifies `events
      ensures State() == OnEvent(old(State()), generation, e)
      ensures reload <==> Listens(State(), generation) && e.kind in {ApprovalRequired, RunCompleted, RunFailed}
    {
      if stream != Some(generation) || destroyed { return false; }
      events := MergeEvents(events, [e]);
      reload := e.kind in {ApprovalRequired, RunCompleted, RunFailed};
    }

    method ConnectionChanged(generation: nat, state: ConnectionState)
      modifies `connection, `streamError
      ensures State() == OnConnection(old(State()), generation, state)
    {
      if stream != Some(generation) || destroyed { return; }
      connection := state;
      if state == Online && streamError.Some? && streamError.value.retryable { streamError := None; }
    }

    method StreamFailed(generation: nat, error: StreamError)
      modifies `streamError
      ensures State() == OnStreamError(old(State()), generation, error)
    {
      if stream == Some(generation) && !destroyed { streamError := Some(error); }
    }

    method OnDestroy()
      modifies this
      ensures State() == Destroy(old(State()))
    {
      if destroyed { return; }
      destroyed := true;
      loadGeneration := loadGeneration + 1;
      Abort();
    }
  }

  // ---- Every sequence of calls and answers ----

  datatype Action =
    | StartLoad(id: string)
    | LoadAnswer(generation: nat, answer: Option<RunDetail>)
    | ReloadAnswer(answer: Option<RunDetail>)
    | Mutation(s: RunDetail)                  // the answer to an approval
    | Streamed(generation: nat, e: RunEvent)
    | Connection(generation: nat, state: ConnectionState)
    | StreamBroke(generation: nat, error: StreamError)
    | Leave

  function Apply(f: Facade, a: Action): Facade {
    match a
    case StartLoad(id) => BeginLoad(f, id)
    case LoadAnswer(generation, answer) => EndLoad(f, generation, answer)
    case ReloadAnswer(answer) => EndReload(f, answer)
    case Mutation(s) => ApplySnapshot(f, s)
    case Streamed(generation, e) => OnEvent(f, generation, e)
    case Connection(generation, state) => OnConnection(f, generation, state)
    case StreamBroke(generation, error) => OnStreamError(f, generation, error)
    case Leave => Destroy(f)
  }

  function Exec(actions: seq<Action>): Facade {
    if actions == [] then NEW_FACADE else Apply(Exec(actions[..|actions| - 1]), actions[|actions| - 1])
  }

  lemma {:induction false} ExecAppend(actions: seq<Action>, a: Action)
    ensures Exec(actions + [a]) == Apply(Exec(actions), a)
  {
    assert (actions + [a])[..|actions|] == actions;
  }

  lemma {:induction false} SnapshotKeepsTimeline(f: Facade, s: RunDetail)
    ensures IsTimeline(ApplySnapshot(f, s).events)
  {
    MergeIsTimeline(f.events, s.events);
  }

  lemma {:induction false} StepTimeline(f: Facade, a: Action)
    requires IsTimeline(f.events)
    ensures IsTimeline(Apply(f, a).events)
  {
    match a
    case LoadAnswer(_, answer) => if answer.Some? { SnapshotKeepsTimeline(f, answer.value); }
    case ReloadAnswer(answer) => if answer.Some? { SnapshotKeepsTimeline(f, answer.value); }
    case Mutation(s) => SnapshotKeepsTimeline(f, s);
    case Streamed(_, e) => MergeIsTimeline(f.events, [e]);
    case _ =>
  }

  /** Whatever is called and answered, the timeline shown is strictly ordered with distinct ids. */
  lemma {:induction false} AlwaysTimeline(actions: seq<Action>)
    ensures IsTimeline(Exec(actions).events)
  {
    if actions != [] {
      AlwaysTimeline(actions[..|actions| - 1]);
      StepTimeline(Exec(actions[..|actions| - 1]), actions[|actions| - 1]);
    }
  }

  // ---- One live stream ----

  /** A live stream belongs to the latest load of a run that is not shown as finished. */
  predicate OneStream(f: Facade) {
    f.stream.Some? ==> f.stream.value == f.loadGeneration && !ShowsFinished(f) && !f.destroyed
  }

  lemma {:induction false} SnapshotKeepsOneStream(f: Facade, s: RunDetail)
    requires OneStream(f)
    ensures OneStream(ApplySnapshot(f, s))
    ensures f.run.Some? ==>
      var g := ApplySnapshot(f, s);
      g.run.Some? && (g.run.value.id == f.run.value.id ==> g.run.value.version >= f.run.value.version)
  {
  }

  lemma {:induction false} StepOneStream(f: Facade, a: Action)
    requires OneStream(f)
    ensures OneStream(Apply(f, a))
    ensures !a.StartLoad? && f.run.Some? ==>
      var g := Apply(f, a);
      g.run.Some? && (g.run.value.id == f.run.value.id ==> g.run.value.version >= f.run.value.version)
  {
    match a
    case LoadAnswer(_, answer) => if answer.Some? { SnapshotKeepsOneStream(f, answer.value); }
    case ReloadAnswer(answer) => if answer.Some? { SnapshotKeepsOneStream(f, answer.value); }
    case Mutation(s) => SnapshotKeepsOneStream(f, s);
    case _ =>
  }

  /** Streams of earlier loads and of finished runs are closed, and the version of a shown run never decreases. */
  lemma {:induction false} AlwaysOneStream(actions: seq<Action>, a: Action)
    ensures var f := Exec(actions); var g := Apply(f, a);
      && OneStream(f)
      && (!a.StartLoad? && f.run.Some? ==>
          g.run.Some? && (g.run.value.id == f.run.value.id ==> g.run.value.version >= f.run.value.version))
  {
    if actions != [] {
      AlwaysOneStream(actions[..|actions| - 1], actions[|actions| - 1]);
      StepOneStream(Exec(actions[..|actions| - 1]), actions[|actions| - 1]);
    }
    StepOneStream(Exec(actions), a);
  }

  lemma {:induction false} LoadEffect(f: Facade, s: RunDetail)
    requires OneStream(f) && !f.destroyed
    ensures var g := Apply(f, LoadAnswer(f.loadGeneration, Some(s)));
      && g.run.Some? && g.run.value.id == s.id && g.run.value.version >= s.version
      && (g.stream == Some(f.loadGeneration) <==> g.run.value.status != Finished)
      && (g.run.value.status != Finished ==> g.persisted == g.events)
  {
  }

  /**
   After any calls and answers, a snapshot that answers the latest load of a page still open is shown,
   unless a newer one of the same run already is, and the live stream is opened exactly if the run
   shown is not finished.
   */
  lemma {:induction false} LoadOpensStream(actions: seq<Action>, s: RunDetail)
    requires !Exec(actions).destroyed
    ensures var f := Exec(actions); var g := Exec(actions + [LoadAnswer(f.loadGeneration, Some(s))]);
      && g.run.Some? && g.run.value.id == s.id && g.run.value.version >= s.version
      && (g.stream == Some(f.loadGeneration) <==> g.run.value.status != Finished)
      && (g.run.value.status != Finished ==> g.persisted == g.events)
  {
    var f := Exec(actions);
    AlwaysOneStream(actions, Leave);
    ExecAppend(actions, LoadAnswer(f.loadGeneration, Some(s)));
    LoadEffect(f, s);
  }

  // ---- What is shown ----

  /** The snapshot that an action applies. */
  function Applies(f: Facade, a: Action): Option<RunDetail> {
    match a
    case LoadAnswer(generation, answer) => if f.destroyed || generation != f.loadGeneration then None else answer
    case ReloadAnswer(answer) => if f.destroyed then None else answer
    case Mutation(s) => Some(s)
    case _ => None
  }

  /** The events that an action brings: those of its snapshot, or the one of the live stream. */
  function Brings(f: Facade, a: Action): seq<RunEvent> {
    if Applies(f, a).Some? then Applies(f, a).value.events
    else if a.Streamed? && f.stream == Some(a.generation) && !f.destroyed then [a.e]
    else []
  }

  /** The snapshots applied since the latest load began. */
  function Applied(actions: seq<Action>): seq<RunDetail> {
    if actions == [] || actions[|actions| - 1].StartLoad? then []
    else
      var n := |actions| - 1;
      var s := Applies(Exec(actions[..n]), actions[n]);
      Applied(actions[..n]) + if s.Some? then [s.value] else []
  }

  /** The events brought since the latest load began. */
  function Gathered(actions: seq<Action>): seq<RunEvent> {
    if actions == [] || actions[|actions| - 1].StartLoad? then []
    else
      var n := |actions| - 1;
      Gathered(actions[..n]) + Brings(Exec(actions[..n]), actions[n])
  }

  predicate OneRun(snapshots: seq<RunDetail>) {
    forall i, j :: 0 <= i < |snapshots| && 0 <= j < |snapshots| ==> snapshots[i].id == snapshots[j].id
  }

  /** Snapshot `k` has the highest version, and is the last one with it. */
  predicate NewestAt(snapshots: seq<RunDetail>, k: nat) {
    && k < |snapshots|
    && (forall i :: 0 <= i < k ==> snapshots[i].version <= snapshots[k].version)
    && (forall i :: k < i < |snapshots| ==> snapshots[i].version < snapshots[k].version)
  }

  /** The shown run is the newest of these; of equal versions the one that came last. */
  predicate Newest(run: Option<RunDetail>, snapshots: seq<RunDetail>) {
    if run.None? then snapshots == []
    else exists k: nat :: k < |snapshots| && NewestAt(snapshots, k) && snapshots[k] == run.value
  }

  lemma {:induction false} MoreSnapshots(before: seq<RunDetail>, s: RunDetail, k: nat)
    requires k < |before| && NewestAt(before, k)
    ensures NewestAt(before + [s], if s.version < before[k].version then k else |before|)
  {
    var all := before + [s];
    assert all[|before|] == s && forall i :: 0 <= i < |before| ==> all[i] == before[i];
  }

  lemma {:induction false} SnapshotNewest(f: Facade, s: RunDetail, before: seq<RunDetail>)
    requires Newest(f.run, before) && OneRun(before + [s])
    ensures Newest(ApplySnapshot(f, s).run, before + [s])
  {
    var all := before + [s];
    assert all[|before|] == s && forall i :: 0 <= i < |before| ==> all[i] == before[i];
    if f.run.Some? {
      var k: nat :| k < |before| && NewestAt(before, k) && before[k] == f.run.value;
      assert all[k].id == all[|before|].id;
      MoreSnapshots(before, s, k);
    } else {
      assert NewestAt(all, 0);
    }
  }

  lemma {:induction false} StepNewest(f: Facade, a: Action, before: seq<RunDetail>)
    requires !a.StartLoad? && Newest(f.run, before)
    requires Applies(f, a).Some? ==> OneRun(before + [Applies(f, a).value])
    ensures Newest(Apply(f, a).run, before + if Applies(f, a).Some? then [Applies(f, a).value] else [])
  {
    if Applies(f, a).Some? {
      SnapshotNewest(f, Applies(f, a).value, before);
    } else {
      assert before + [] == before;
    }
  }

  /** Of the snapshots of one run applied since the latest load began, the newest is shown, of equal ones the last. */
  lemma {:induction false} NewestIsShown(actions: seq<Action>)
    requires OneRun(Applied(actions))
    ensures Newest(Exec(actions).run, Applied(actions))
  {
    if actions != [] && !actions[|actions| - 1].StartLoad? {
      var n := |actions| - 1;
      var before, s := Applied(actions[..n]), Applies(Exec(actions[..n]), actions[n]);
      assert forall i :: 0 <= i < |before| ==> Applied(actions)[i] == before[i];
      NewestIsShown(actions[..n]);
      StepNewest(Exec(actions[..n]), actions[n], before);
    }
  }

  ghost predicate CoherentEvents(es: seq<RunEvent>) {
    Coherent(iset e | e in es)
  }

  lemma {:induction false} StepBrings(f: Facade, a: Action, before: seq<RunEvent>)
    requires !a.StartLoad? && (forall e :: e in f.events <==> e in before)
    requires CoherentEvents(before + Brings(f, a))
    ensures forall e :: e in Apply(f, a).events <==> e in before + Brings(f, a)
  {
    var more := Brings(f, a);
    forall x, y | x in Both(f.events, more) && y in Both(f.events, more) && SamePlace(x, y) ensures x == y {
      assert x in (iset e | e in before + more) && y in (iset e | e in before + more);
    }
    MergeIsUnion(f.events, more);
    assert more == [] || Apply(f, a).events == Merge(f.events, more);
  }

  /**
   Coherent events are shown exactly if they were brought since the latest load began, by a snapshot
   or by the live stream of that load: nothing of an earlier load stays, and nothing is lost.
   */
  lemma {:induction false} ShowsWhatWasBrought(actions: seq<Action>)
    requires CoherentEvents(Gathered(actions))
    ensures forall e :: e in Exec(actions).events <==> e in Gathered(actions)
  {
    if actions != [] && !actions[|actions| - 1].StartLoad? {
      var n := |actions| - 1;
      assert Coherent(iset e | e in Gathered(actions[..n])) by {
        assert forall e :: e in Gathered(actions[..n]) ==> e in (iset x | x in Gathered(actions));
      }
      ShowsWhatWasBrought(actions[..n]);
      StepBrings(Exec(actions[..n]), actions[n], Gathered(actions[..n]));
    }
  }

  // ---- Which run is shown ----

  /** The run that the load of generation `g` asked for. */
  function LoadAsked(actions: seq<Action>, g: nat): Option<string> {
    if actions == [] then None
    else
      var a := actions[|actions| - 1];
      if a.StartLoad? && Exec(actions).loadGeneration == g then Some(a.id)
      else LoadAsked(actions[..|actions| - 1], g)
  }

  /** The answer to a load names the run that this load asked for. */
  predicate HonestAnswer(before: seq<Action>, a: Action) {
    a.LoadAnswer? && a.answer.Some? ==> LoadAsked(before, a.generation) == Some(a.answer.value.id)
  }

  predicate Honest(actions: seq<Action>) {
    actions != [] ==>
      var n := |actions| - 1;
      Honest(actions[..n]) && HonestAnswer(actions[..n], actions[n])
  }

  /** The shown run is the one last asked for. */
  predicate ShowsAsked(f: Facade) {
    f.run.Some? ==> f.runId == Some(f.run.value.id)
  }

  /** A snapshot that is not guarded by a generation arrives for a run other than the one last asked for. */
  predicate Stray(f: Facade, a: Action) {
    match a
    case ReloadAnswer(answer) => answer.Some? && !f.destroyed && f.runId != Some(answer.value.id)
    case Mutation(s) => f.runId != Some(s.id)
    case _ => false
  }

  lemma {:induction false} LoadedIsAsked(actions: seq<Action>)
    ensures var f := Exec(actions);
      !f.destroyed && f.loadGeneration > 0 ==> LoadAsked(actions, f.loadGeneration) == f.runId
    ensures Exec(actions).loadGeneration == 0 ==> forall g :: LoadAsked(actions, g) == None
  {
    if actions != [] {
      LoadedIsAsked(actions[..|actions| - 1]);
      KeepsRequest(Exec(actions[..|actions| - 1]), actions[|actions| - 1]);
    }
  }

  lemma {:induction false} KeepsRequest(f: Facade, a: Action)
    ensures var g := Apply(f, a);
      && (a.StartLoad? ==>
        g.loadGeneration == f.loadGeneration + 1 && g.runId == Some(a.id) && g.destroyed == f.destroyed)
      && (a.Leave? ==> g.destroyed && g.runId == f.runId)
      && (!a.StartLoad? && !a.Leave? ==>
          g.loadGeneration == f.loadGeneration && g.runId == f.runId && g.destroyed == f.destroyed)
      && g.loadGeneration >= f.loadGeneration
  {
  }

  /** One step keeps the page on the run asked for exactly when it is not a stray snapshot. */
  lemma {:induction false} StepShowsAsked(actions: seq<Action>, a: Action)
    requires HonestAnswer(actions, a) && ShowsAsked(Exec(actions))
    ensures ShowsAsked(Apply(Exec(actions), a)) <==> !Stray(Exec(actions), a)
  {
    LoadedIsAsked(actions);
    StepShows(Exec(actions), a);
  }

  lemma {:induction false} SnapshotShows(f: Facade, s: RunDetail)
    requires ShowsAsked(f)
    ensures ShowsAsked(ApplySnapshot(f, s)) <==> f.runId == Some(s.id)
  {
  }

  lemma {:induction false} StepShows(f: Facade, a: Action)
    requires ShowsAsked(f)
    requires a.LoadAnswer? && a.answer.Some? && !f.destroyed && a.generation == f.loadGeneration ==>
      f.runId == Some(a.answer.value.id)
    ensures ShowsAsked(Apply(f, a)) <==> !Stray(f, a)
  {
    match a
    case LoadAnswer(_, answer) => if answer.Some? { SnapshotShows(f, answer.value); }
    case ReloadAnswer(answer) => if answer.Some? { SnapshotShows(f, answer.value); }
    case Mutation(s) => SnapshotShows(f, s);
    case _ =>
  }

  lemma {:induction false} HonestAppend(actions: seq<Action>, a: Action)
    requires Honest(actions) && HonestAnswer(actions, a)
    ensures Honest(actions + [a])
  {
    assert (actions + [a])[..|actions|] == actions;
  }

  /** The page after two loads in a row. */
  lemma {:induction false} TwoLoads()
    ensures var actions := [StartLoad("a")] + [StartLoad("b")];
      Honest(actions) && Exec(actions).runId == Some("b") && Exec(actions).run == None && !Exec(actions).destroyed
  {
    assert [] + [StartLoad("a")] == [StartLoad("a")];
    ExecAppend([], StartLoad("a"));
    ExecAppend([StartLoad("a")], StartLoad("b"));
    HonestAppend([], StartLoad("a"));
    HonestAppend([StartLoad("a")], StartLoad("b"));
  }

  lemma {:induction false} ReloadShows(f: Facade, s: RunDetail)
    requires f.runId.Some? && f.run == None && !f.destroyed
    ensures var g := Apply(f, ReloadAnswer(Some(s))); g.run == Some(s) && g.runId == f.runId
  {
  }

  /** An input on which another run is shown: a reload of run a is answered after run b was asked for. */
  lemma {:induction false} StaleReloadIsShown(s: RunDetail)
    requires s.id == "a"
    ensures var actions := [StartLoad("a"), StartLoad("b"), ReloadAnswer(Some(s))];
      Honest(actions) && !ShowsAsked(Exec(actions)) && Exec(actions).runId == Some("b") && Exec(actions).run == Some(s)
  {
    var asked := [StartLoad("a")] + [StartLoad("b")];
    TwoLoads();
    HonestAppend(asked, ReloadAnswer(Some(s)));
    ExecAppend(asked, ReloadAnswer(Some(s)));
    ReloadShows(Exec(asked), s);
    assert [StartLoad("a"), StartLoad("b"), ReloadAnswer(Some(s))] == asked + [ReloadAnswer(Some(s))];
  }

  predicate NeverStray(actions: seq<Action>) {
    actions != [] ==>
      var n := |actions| - 1;
      NeverStray(actions[..n]) && !Stray(Exec(actions[..n]), actions[n])
  }

  /** At every moment of the run of actions. */
  predicate AlwaysShowsAsked(actions: seq<Action>) {
    ShowsAsked(Exec(actions)) && (actions != [] ==> AlwaysShowsAsked(actions[..|actions| - 1]))
  }

  /**
   The page shows the run last asked for throughout, exactly when no reload or mutation answer
   arrives after another run has been asked for: those answers carry no generation.
   */
  lemma {:induction false} ShowsAskedExactly(actions: seq<Action>)
    requires Honest(actions)
    ensures AlwaysShowsAsked(actions) <==> NeverStray(actions)
  {
    if actions != [] {
      var n := |actions| - 1;
      ShowsAskedExactly(actions[..n]);
      if AlwaysShowsAsked(actions[..n]) { StepShowsAsked(actions[..n], actions[n]); }
    }
  }
}
