/**
 The whole path of one run's events: produced and stored (Delivery), published in order and merged
 with the history for one connection (ServerStream), written as text that arrives in arbitrary
 chunks (SseParser), read by a client that reconnects (StreamClient), and shown on the run page
 together with REST snapshots (Timeline).
 */
module EndToEnd {
  import opened Common
  import opened RunEvents
  import opened SseParser
  import RunStore
  import ApprovalSafety
  import Delivery
  import ServerStream
  import opened StreamClient
  import opened Timeline

  /** What is fixed: the run, its producer's configuration, and how events are rendered and read back. */
  datatype Setting = Setting(
    runId: string, cfg: Delivery.Config, show: RunEvent -> string, parse: string -> Option<RunEvent>)

  datatype State = State(
    system: Delivery.System,
    world: ServerStream.World,
    snapshots: set<RunDetail>, // every snapshot the backend ever served: it may be answered late or again
    facade: Facade,
    client: Client,
    connected: bool,
    received: seq<string>)     // chunks of text that arrived on the current connection

  datatype Action =
    | Backend(step: Delivery.Action) // emission, retry, loss, duplication, commit, dispatch failure, decision
    | PublishNext
    | Snapshot
    | Page(call: Timeline.Action) // calls and answers on the run page
    | Connect                     // the first connection, and every reconnection after a drop
    | QueryHistory
    | HistoryArrives
    | Read(chunk: string)         // the next piece of the text arrives

  function Log(st: State): seq<RunEvent> {
    st.system.run.events
  }

  function Init(g: Setting): State {
    State(Delivery.Init(g.cfg), ServerStream.NO_WORLD, {}, NEW_FACADE, NewClient([], None), false, [])
  }

  function PageStatus(status: RunStore.RunStatus): Status {
    if status in {RunStore.Completed, RunStore.Partial, RunStore.RunStatus.Failed} then Finished else Open
  }

  function Detail(g: Setting, run: RunStore.Run): RunDetail {
    RunDetail(g.runId, run.version, PageStatus(run.status), run.events)
  }

  function ApplyBackend(g: Setting, st: State, a: Delivery.Action): State {
    var system := Delivery.Apply(g.cfg, st.system, a);
    st.(system := system, world := st.world.(log := system.run.events))
  }

  /** The page asks for this run only, and answers carry snapshots the backend served. */
  predicate Allowed(g: Setting, st: State, a: Timeline.Action) {
    match a
    case StartLoad(id) => id == g.runId
    case LoadAnswer(_, answer) => answer.Some? ==> answer.value in st.snapshots
    case ReloadAnswer(answer) => answer.Some? ==> answer.value in st.snapshots
    case Mutation(s) => s in st.snapshots
    case Streamed(_, _) => false
    case _ => true
  }

  /** A successful load of an unfinished run opens a new stream. */
  predicate Opens(f: Facade, a: Timeline.Action) {
    a.LoadAnswer? && a.answer.Some? && !f.destroyed && a.generation == f.loadGeneration
      && !ShowsFinished(ApplySnapshot(f, a.answer.value))
  }

  function ApplyPage(g: Setting, st: State, a: Timeline.Action): State {
    if !Allowed(g, st, a) then st
    else
      var f := Timeline.Apply(st.facade, a);
      if Opens(st.facade, a) then st.(facade := f, client := NewClient(f.persisted, None), connected := false)
      else st.(facade := f)
  }

  predicate Reading(st: State) {
    st.facade.stream.Some? && !st.client.terminal
  }

  function ApplyConnect(st: State): State {
    if !Reading(st) then st
    else st.(world := ServerStream.Apply(st.world, ServerStream.Subscribe(Position(st.client))),
                 connected := true, received := [])
  }

  /** The text the server has written on the current connection. */
  function Sent(g: Setting, st: State): string {
    if st.world.subscriber.None? then "" else Encode(Messages(g.show, st.world.subscriber.value.delivered))
  }

  /** The text goes on with this piece, however it is cut. */
  predicate Arrives(g: Setting, st: State, chunk: string) {
    Reading(st) && st.connected && Concat(st.received + [chunk]) <= Sent(g, st)
  }

  /** The frames that the next piece completes. */
  function NextFrames(st: State, chunk: string): seq<Frame> {
    ParseSse(FeedAll(st.received).remainder + chunk).frames
  }

  /** The calls of onEvent between two states of the client. */
  function NewDeliveries(before: Client, after: Client): seq<RunEvent> {
    if |before.delivered| <= |after.delivered| then after.delivered[|before.delivered|..] else []
  }

  /** The completed frames go through the client; new events go on to the page. */
  function ApplyRead(g: Setting, st: State, chunk: string): State {
    if !Arrives(g, st, chunk) then st
    else
      var client := HandleFrames(g.parse, st.client, NextFrames(st, chunk));
      st.(client := client, received := st.received + [chunk],
          facade := ShowAll(st.facade, NewDeliveries(st.client, client)))
  }

  function ShowAll(f: Facade, es: seq<RunEvent>): Facade {
    if es == [] || f.stream.None? then f else OnEvent(ShowAll(f, es[..|es| - 1]), f.stream.value, es[|es| - 1])
  }

  function Apply(g: Setting, st: State, a: Action): State {
    match a
    case Backend(b) => ApplyBackend(g, st, b)
    case PublishNext => st.(world := ServerStream.Apply(st.world, ServerStream.Publish(|st.world.published|)))
    case Snapshot => st.(snapshots := st.snapshots + {Detail(g, st.system.run)})
    case Page(p) => ApplyPage(g, st, p)
    case Connect => ApplyConnect(st)
    case QueryHistory => st.(world := ServerStream.Apply(st.world, ServerStream.Query))
    case HistoryArrives => st.(world := ServerStream.Apply(st.world, ServerStream.Arrive))
    case Read(chunk) => ApplyRead(g, st, chunk)
  }

  function Exec(g: Setting, actions: seq<Action>): State {
    if actions == [] then Init(g) else Apply(g, Exec(g, actions[..|actions| - 1]), actions[|actions| - 1])
  }

  // ---- Merging beginnings of a log ----

  lemma {:induction false} LogIsCoherent(log: seq<RunEvent>, all: iset<RunEvent>)
    requires IsLog(log) && forall e :: e in all ==> e in log
    ensures Coherent(all)
  {
    forall e, f | e in all && f in all && SamePlace(e, f) ensures e == f {
      var i :| 0 <= i < |log| && log[i] == e;
      var j :| 0 <= j < |log| && log[j] == f;
    }
  }

  lemma {:induction false} LogIsTimeline(log: seq<RunEvent>, n: nat)
    requires IsLog(log) && n <= |log|
    ensures IsTimeline(log[..n])
  {
  }

  /** A beginning of the log absorbs events of the log that leave no gap. */
  lemma {:induction false} MergeExtends(log: seq<RunEvent>, n: nat, incoming: seq<RunEvent>, m: nat)
    requires IsLog(log) && n <= m <= |log|
    requires forall e :: e in incoming ==> e in log[..m]
    requires forall i :: n <= i < m ==> log[i] in incoming
    ensures Merge(log[..n], incoming) == log[..m]
  {
    var shown := log[..n];
    forall e | e in Both(shown, incoming) ensures e in log {
      if e in incoming { assert e in log[..m]; }
    }
    LogIsCoherent(log, Both(shown, incoming));
    MergeIsUnion(shown, incoming);
    MergeIsTimeline(shown, incoming);
    LogIsTimeline(log, m);
    forall e ensures e in shown || e in incoming <==> e in log[..m] {
      if e in log[..m] {
        var i :| 0 <= i < m && log[..m][i] == e;
        assert i < n ==> shown[i] == e;
      }
      if e in shown {
        var i :| 0 <= i < n && shown[i] == e;
        assert log[..m][i] == e;
      }
    }
    TimelineIsItsSet(Merge(shown, incoming), log[..m]);
  }

  lemma {:induction false} MergePrefixes(log: seq<RunEvent>, shown: seq<RunEvent>, incoming: seq<RunEvent>)
    requires IsLog(log) && shown <= log && incoming <= log
    ensures Merge(shown, incoming) == if |incoming| > |shown| then incoming else shown
  {
    var n := |shown|;
    var m := if |incoming| > n then |incoming| else n;
    assert shown == log[..n] && incoming == log[..|incoming|];
    forall i | n <= i < m ensures log[i] in incoming { assert incoming[i] == log[i]; }
    forall e | e in incoming ensures e in log[..m] {
      var i :| 0 <= i < |incoming| && incoming[i] == e;
      assert log[..m][i] == e;
    }
    MergeExtends(log, n, incoming, m);
  }

  lemma {:induction false} MergeNext(log: seq<RunEvent>, shown: seq<RunEvent>, pos: nat)
    requires IsLog(log) && shown <= log && pos <= |shown| && pos < |log|
    ensures Merge(shown, [log[pos]]) == if pos == |shown| then log[..pos + 1] else shown
  {
    var n := |shown|;
    var m := if pos == n then n + 1 else n;
    assert shown == log[..n];
    assert log[..m][pos] == log[pos];
    MergeExtends(log, n, [log[pos]], m);
  }

  // ---- The invariant ----

  /** The backend's log, the server's view of it, and the snapshots read from it. */
  predicate BackInv(g: Setting, st: State) {
    && st.world.log == Log(st)
    && IsLog(Log(st))
    && ServerStream.InOrder(st.world) && ServerStream.MergeInv(st.world)
    && forall s :: s in st.snapshots ==> s.id == g.runId && s.events <= Log(st)
  }

  /** The page shows a beginning of the log, and the client is not ahead of it. */
  predicate FrontInv(st: State) {
    && st.facade.events <= Log(st)
    && (st.facade.stream.Some? ==>
        && UpTo(Log(st), st.client, |st.facade.persisted|, Position(st.client))
        && Position(st.client) <= |st.facade.events|
        && !st.facade.destroyed)
  }

  /** The current connection began where the client was, and its frames lead to where the client is. */
  predicate ConnectionInv(g: Setting, st: State) {
    st.facade.stream.Some? && st.connected && !st.client.terminal ==>
      && st.world.subscriber.Some?
      && Concat(st.received) <= Sent(g, st)
      && st.world.after + |FeedAll(st.received).frames| == Position(st.client)
  }

  predicate Inv(g: Setting, st: State) {
    BackInv(g, st) && FrontInv(st) && ConnectionInv(g, st)
  }

  // ---- Backend steps ----

  lemma {:induction false} BackendAppends(cfg: Delivery.Config, s: Delivery.System, a: Delivery.Action)
    requires ApprovalSafety.LogInv(s.run)
    ensures var before, after := s.run.events, Delivery.Apply(cfg, s, a).run.events;
      after == before
        || (|after| == |before| + 1 && after[..|before|] == before && after[|before|].sequence == |before| + 1)
  {
    match a
    case Serve(m) => ApprovalSafety.StepAppends(s.run, ApprovalSafety.Recording(cfg.keep(m.event)));
    case DispatchFails(d) => ApprovalSafety.StepAppends(s.run, ApprovalSafety.Recording(cfg.keep(d)));
    case Take(cmd) => ApprovalSafety.StepAppends(s.run, ApprovalSafety.Deciding(cmd));
    case _ =>
  }

  lemma {:induction false} UpToGrows(log: seq<RunEvent>, more: seq<RunEvent>, c: Client, start: nat, pos: nat)
    requires UpTo(log, c, start, pos) && log <= more
    ensures UpTo(more, c, start, pos)
  {
    assert more[..pos] == log[..pos] && more[start..pos] == log[start..pos];
  }

  lemma {:induction false} BackendKeeps(g: Setting, st: State, a: Delivery.Action)
    requires Inv(g, st) && ApprovalSafety.LogInv(st.system.run)
    requires ApprovalSafety.LogInv(ApplyBackend(g, st, a).system.run)
    ensures Inv(g, ApplyBackend(g, st, a))
  {
    var after := ApplyBackend(g, st, a);
    var log, more := Log(st), Log(after);
    BackendAppends(g.cfg, st.system, a);
    if more != log {
      assert more == log + [more[|log|]];
      ServerStream.CommitInOrder(st.world, more[|log|]);
    }
    if st.facade.stream.Some? {
      UpToGrows(log, more, st.client, |st.facade.persisted|, Position(st.client));
    }
  }

  lemma {:induction false} PublishKeeps(g: Setting, st: State)
    requires Inv(g, st)
    ensures Inv(g, Apply(g, st, PublishNext))
  {
    var i := |st.world.published|;
    var world := ServerStream.Apply(st.world, ServerStream.Publish(i));
    ServerStream.PublishInOrder(st.world, i);
    ServerKeepsText(g, st, world);
  }

  lemma {:induction false} LongerTail(head: string, tail: string, longer: string)
    requires tail <= longer
    ensures head + ("\n\n" + tail) <= head + ("\n\n" + longer)
  {
    assert head + ("\n\n" + tail) == (head + "\n\n") + tail;
    assert head + ("\n\n" + longer) == (head + "\n\n") + longer;
  }

  /** More deliveries only add text behind what was written. */
  lemma {:induction false} TextGrows(show: RunEvent -> string, es: seq<RunEvent>, more: seq<RunEvent>)
    requires es <= more
    ensures Encode(Messages(show, es)) <= Encode(Messages(show, more))
  {
    if es != [] {
      assert Messages(show, es)[1..] == Messages(show, es[1..]);
      assert Messages(show, more)[1..] == Messages(show, more[1..]);
      TextGrows(show, es[1..], more[1..]);
      LongerTail(JoinLines(FrameLines(ToMessage(show, es[0]))),
        Encode(Messages(show, es[1..])), Encode(Messages(show, more[1..])));
    }
  }

  /** Server steps only add deliveries to the current connection. */
  lemma {:induction false} ServerKeepsText(g: Setting, st: State, world: ServerStream.World)
    requires ConnectionInv(g, st)
    requires world.after == st.world.after
    requires st.world.subscriber.Some? ==>
      world.subscriber.Some? && st.world.subscriber.value.delivered <= world.subscriber.value.delivered
    ensures ConnectionInv(g, st.(world := world))
  {
    if st.world.subscriber.Some? {
      TextGrows(g.show, st.world.subscriber.value.delivered, world.subscriber.value.delivered);
    }
  }

  lemma {:induction false} ArriveKeeps(g: Setting, st: State)
    requires Inv(g, st)
    ensures Inv(g, Apply(g, st, HistoryArrives))
  {
    var w := st.world;
    var world := ServerStream.Apply(w, ServerStream.Arrive);
    ServerStream.StepInOrder(w, ServerStream.Arrive);
    if w.subscriber.Some? && w.inFlight.Some? && !w.subscriber.value.closed {
      var s, rows := w.subscriber.value, w.inFlight.value;
      var sorted := ServerStream.BySequence(s.pending);
      ServerStream.Added(s, rows);
      ServerStream.Added(ServerStream.DeliverAll(s, rows).(historyLoaded := true, pending := sorted), sorted);
    }
    ServerKeepsText(g, st, world);
  }

  lemma {:induction false} QueryKeeps(g: Setting, st: State)
    requires Inv(g, st)
    ensures Inv(g, Apply(g, st, QueryHistory))
  {
    ServerStream.StepInOrder(st.world, ServerStream.Query);
    ServerKeepsText(g, st, ServerStream.Apply(st.world, ServerStream.Query));
  }

  lemma {:induction false} ConnectKeeps(g: Setting, st: State)
    requires Inv(g, st)
    ensures Inv(g, ApplyConnect(st))
  {
    if Reading(st) {
      ServerStream.StepInOrder(st.world, ServerStream.Subscribe(Position(st.client)));
    }
  }

  // ---- Page steps ----

  lemma {:induction false} SnapshotExtends(g: Setting, st: State, s: RunDetail)
    requires BackInv(g, st) && st.facade.events <= Log(st) && s in st.snapshots
    ensures var f := ApplySnapshot(st.facade, s);
      && st.facade.events <= f.events <= Log(st)
      && f.persisted == st.facade.persisted && f.destroyed == st.facade.destroyed
      && (f.stream == st.facade.stream || f.stream == None)
  {
    MergePrefixes(Log(st), st.facade.events, s.events);
  }

  lemma {:induction false} HighestOfPrefix(log: seq<RunEvent>, n: nat)
    requires IsLog(log) && 0 < n <= |log|
    ensures Highest(log[..n]) == n
  {
    if n > 1 {
      assert log[..n][..n - 1] == log[..n - 1];
      HighestOfPrefix(log, n - 1);
    }
  }

  lemma {:induction false} NewClientStands(log: seq<RunEvent>, shown: seq<RunEvent>)
    requires IsLog(log) && shown <= log
    ensures UpTo(log, NewClient(shown, None), |shown|, |shown|)
    ensures Position(NewClient(shown, None)) == |shown|
  {
    assert shown == log[..|shown|];
    if shown != [] { HighestOfPrefix(log, |shown|); }
    InitialUpTo(log, shown, |shown|);
    UpToPosition(log, NewClient(shown, None), |shown|, |shown|);
  }

  /** What a page step does to the timeline and the stream. */
  lemma {:induction false} PageEffect(g: Setting, st: State, a: Timeline.Action)
    requires BackInv(g, st) && st.facade.events <= Log(st) && Allowed(g, st, a)
    ensures var f := Timeline.Apply(st.facade, a);
      && f.events <= Log(st)
      && (!a.StartLoad? ==> st.facade.events <= f.events)
      && (a.StartLoad? ==> f.stream == None)
      && (Opens(st.facade, a) ==> f.persisted == f.events && !f.destroyed)
      && (!Opens(st.facade, a) && f.stream.Some? ==>
          f.stream == st.facade.stream && f.persisted == st.facade.persisted && f.destroyed == st.facade.destroyed)
  {
    match a
    case LoadAnswer(_, answer) => if answer.Some? { SnapshotExtends(g, st, answer.value); }
    case ReloadAnswer(answer) => if answer.Some? { SnapshotExtends(g, st, answer.value); }
    case Mutation(s) => SnapshotExtends(g, st, s);
    case _ =>
  }

  lemma {:induction false} PageKeeps(g: Setting, st: State, a: Timeline.Action)
    requires Inv(g, st)
    ensures Inv(g, ApplyPage(g, st, a))
  {
    if Allowed(g, st, a) {
      PageEffect(g, st, a);
      if Opens(st.facade, a) {
        NewClientStands(Log(st), Timeline.Apply(st.facade, a).events);
      }
    }
  }

  // ---- Reading ----

  predicate TextIsWritable(g: Setting, st: State) {
    st.world.subscriber.Some? ==>
      var messages := Messages(g.show, st.world.subscriber.value.delivered);
      forall i :: 0 <= i < |messages| ==> Writable(messages[i])
  }

  lemma {:induction false} DeliveredAreWritable(g: Setting, st: State)
    requires Readable(g.parse, g.show, Log(st)) && BackInv(g, st) && st.world.subscriber.Some?
    ensures TextIsWritable(g, st)
  {
    var delivered := st.world.subscriber.value.delivered;
    forall e | e in delivered ensures ReadBack(g.parse, g.show, e) {
      assert e in Log(st);
    }
    MessagesAreWritable(g.parse, g.show, delivered);
  }

  /** The connection delivers a stretch of the log, and the client stands behind the frames it has read. */
  predicate Stands(st: State) {
    && st.world.subscriber.Some?
    && var w := st.world; var delivered := w.subscriber.value.delivered;
      && (delivered != [] ==>
        w.after + |delivered| <= |Log(st)| && delivered == Log(st)[w.after..w.after + |delivered|])
      && w.after + |FeedAll(st.received).frames| == Position(st.client) <= |Log(st)|
  }

  lemma {:induction false} ConnectionStands(g: Setting, st: State)
    requires Inv(g, st) && Reading(st) && st.connected
    ensures Stands(st)
  {
  }

  /** The page once it shows the log up to `end`, if it did not before. */
  function Shown(log: seq<RunEvent>, f: Facade, end: nat): Facade
    requires end <= |log|
  {
    f.(events := if end > |f.events| then log[..end] else f.events)
  }

  lemma {:induction false} ShowOneMore(log: seq<RunEvent>, f: Facade, es: seq<RunEvent>, i: nat)
    requires IsLog(log) && f.events <= log && i < |log| && f.stream.Some? && !f.destroyed
    requires es != [] && es[|es| - 1] == log[i] && ShowAll(f, es[..|es| - 1]) == Shown(log, f, i)
    ensures ShowAll(f, es) == Shown(log, f, i + 1)
  {
    MergeNext(log, Shown(log, f, i).events, i);
  }

  /** New events in the order of the log bring the page at least as far as the last of them. */
  lemma {:induction false} ShowStretch(log: seq<RunEvent>, f: Facade, from: nat, es: seq<RunEvent>)
    requires IsLog(log) && f.events <= log && from <= |f.events| && from + |es| <= |log|
    requires forall i :: 0 <= i < |es| ==> es[i] == log[from + i]
    requires f.stream.Some? && !f.destroyed
    ensures ShowAll(f, es) == Shown(log, f, from + |es|)
  {
    if es != [] {
      var n := |es| - 1;
      ShowStretch(log, f, from, es[..n]);
      ShowOneMore(log, f, es, from + n);
    }
  }

  lemma {:induction false} DeliveriesBetween(log: seq<RunEvent>, c: Client, d: Client, start: nat, pos: nat, end: nat)
    requires UpTo(log, c, start, pos) && UpTo(log, d, start, end) && pos <= end
    ensures NewDeliveries(c, d) == log[pos..end]
  {
    TailOfStretch(log, start, pos, end);
  }

  /** Frames of the entries behind the client move it forward, and the page shows everything up to there. */
  lemma {:induction false} FramesShown(g: Setting, log: seq<RunEvent>, c: Client, f: Facade, fs: seq<Frame>, pos: nat)
    returns (end: nat)
    requires Readable(g.parse, g.show, log) && IsLog(log) && Follow(g.show, log, fs, pos)
    requires UpTo(log, c, |f.persisted|, pos) && !c.terminal
    requires f.events <= log && pos <= |f.events| && f.stream.Some? && !f.destroyed
    ensures var after := HandleFrames(g.parse, c, fs);
      && UpTo(log, after, |f.persisted|, end)
      && (!after.terminal ==> end == pos + |fs|)
      && ShowAll(f, NewDeliveries(c, after)) == Shown(log, f, end)
  {
    end := FramesForward(g.parse, g.show, log, c, fs, |f.persisted|, pos);
    DeliveriesBetween(log, c, HandleFrames(g.parse, c, fs), |f.persisted|, pos, end);
    ShowStretch(log, f, pos, log[pos..end]);
  }

  /** The state after a read: a later client, more text, and the page that shows the log up to the client. */
  lemma {:induction false} LaterKeeps(g: Setting, st: State, client: Client, received: seq<string>, end: nat)
    requires Inv(g, st) && Reading(st) && st.connected
    requires Concat(received) <= Sent(g, st) && UpTo(Log(st), client, |st.facade.persisted|, end)
    requires !client.terminal ==> end == st.world.after + |FeedAll(received).frames|
    ensures Inv(g, st.(client := client, received := received, facade := Shown(Log(st), st.facade, end)))
  {
    UpToPosition(Log(st), client, |st.facade.persisted|, end);
  }

  /** A piece of text completes frames of exactly the log entries behind the client's position. */
  lemma {:induction false} FramesFollow(g: Setting, st: State, chunk: string)
    requires Arrives(g, st, chunk) && Stands(st) && TextIsWritable(g, st)
    ensures Follow(g.show, Log(st), NextFrames(st, chunk), Position(st.client))
  {
    NextPiece(g.show, Log(st), st.world.subscriber.value.delivered, st.world.after, st.received, chunk,
      Position(st.client));
  }

  lemma {:induction false} ReadKeeps(g: Setting, st: State, chunk: string)
    requires Readable(g.parse, g.show, Log(st)) && Inv(g, st)
    ensures Inv(g, ApplyRead(g, st, chunk)) && st.facade.events <= ApplyRead(g, st, chunk).facade.events
  {
    if Arrives(g, st, chunk) {
      var fs := NextFrames(st, chunk);
      DeliveredAreWritable(g, st);
      ConnectionStands(g, st);
      FramesFollow(g, st, chunk);
      FeedNext(st.received, chunk);
      var end := FramesShown(g, Log(st), st.client, st.facade, fs, Position(st.client));
      LaterKeeps(g, st, HandleFrames(g.parse, st.client, fs), st.received + [chunk], end);
    }
  }

  // ---- Runs ----

  lemma {:induction false} StepKeeps(g: Setting, st: State, a: Action)
    requires Readable(g.parse, g.show, Log(st)) && Inv(g, st)
    requires ApprovalSafety.LogInv(st.system.run) && ApprovalSafety.LogInv(Apply(g, st, a).system.run)
    ensures Inv(g, Apply(g, st, a))
    ensures a != Page(StartLoad(g.runId)) ==> st.facade.events <= Apply(g, st, a).facade.events
  {
    match a
    case Backend(b) => BackendKeeps(g, st, b);
    case PublishNext => PublishKeeps(g, st);
    case Snapshot =>
    case Page(p) =>
      PageKeeps(g, st, p);
      if Allowed(g, st, p) { PageEffect(g, st, p); }
    case Connect => ConnectKeeps(g, st);
    case QueryHistory => QueryKeeps(g, st);
    case HistoryArrives => ArriveKeeps(g, st);
    case Read(chunk) => ReadKeeps(g, st, chunk);
  }

  /** The backend actions among the actions of a run. */
  function BackendActions(actions: seq<Action>): seq<Delivery.Action> {
    if actions == [] then []
    else
      var n := |actions| - 1;
      BackendActions(actions[..n]) + if actions[n].Backend? then [actions[n].step] else []
  }

  /** Publishing, streaming and showing never influence the backend. */
  lemma {:induction false} BackendIsAlone(g: Setting, actions: seq<Action>)
    ensures Exec(g, actions).system == Delivery.Exec(g.cfg, BackendActions(actions))
  {
    if actions != [] {
      var n := |actions| - 1;
      BackendIsAlone(g, actions[..n]);
      if actions[n].Backend? {
        var all := BackendActions(actions);
        assert all[..|all| - 1] == BackendActions(actions[..n]);
      } else {
        assert BackendActions(actions[..n]) + [] == BackendActions(actions[..n]);
      }
    }
  }

  lemma {:induction false} LogInvHolds(g: Setting, actions: seq<Action>)
    ensures ApprovalSafety.LogInv(Exec(g, actions).system.run)
  {
    BackendIsAlone(g, actions);
    Delivery.AlwaysInv(g.cfg, BackendActions(actions));
  }

  lemma {:induction false} LogOnlyGrows(g: Setting, st: State, a: Action)
    requires ApprovalSafety.LogInv(st.system.run)
    ensures Log(st) <= Log(Apply(g, st, a))
  {
    if a.Backend? { BackendAppends(g.cfg, st.system, a.step); }
  }

  lemma {:induction false} AlwaysInv(g: Setting, actions: seq<Action>)
    requires Readable(g.parse, g.show, Log(Exec(g, actions)))
    ensures Inv(g, Exec(g, actions))
  {
    if actions != [] {
      LogInvHolds(g, actions[..|actions| - 1]);
      LogOnlyGrows(g, Exec(g, actions[..|actions| - 1]), actions[|actions| - 1]);
      AlwaysInv(g, actions[..|actions| - 1]);
      LogInvHolds(g, actions);
      StepKeeps(g, Exec(g, actions[..|actions| - 1]), actions[|actions| - 1]);
    }
  }

  /** When all the text has arrived, the client stands behind the last delivery. */
  lemma {:induction false} AllFramesRead(g: Setting, st: State)
    requires Readable(g.parse, g.show, Log(st)) && Inv(g, st)
    requires Reading(st) && st.connected && Concat(st.received) == Sent(g, st)
    ensures Position(st.client) == st.world.after + |st.world.subscriber.value.delivered|
  {
    var delivered := st.world.subscriber.value.delivered;
    DeliveredAreWritable(g, st);
    WireRoundTrip(Messages(g.show, delivered), st.received);
  }

  // ---- Theorems ----

  /** The log depends on the backend actions alone, so every run has a setting that can read its events. */
  lemma {:induction false} EveryRunIsReadable(runId: string, cfg: Delivery.Config, actions: seq<Action>)
    ensures var log := Delivery.Exec(cfg, BackendActions(actions)).run.events;
      var g := Setting(runId, cfg, WriterOf(log), ReaderOf(log));
      Readable(g.parse, g.show, Log(Exec(g, actions)))
  {
    var log := Delivery.Exec(cfg, BackendActions(actions)).run.events;
    EveryLogIsReadable(log);
    BackendIsAlone(Setting(runId, cfg, WriterOf(log), ReaderOf(log)), actions);
  }

  /**
   For every interleaving of emission, retry, commit, publish, disconnect, reconnect and REST
   snapshot: the page shows a contiguous beginning of the persisted log, strictly sorted.
   */
  lemma {:induction false} TimelineIsPrefixOfLog(g: Setting, actions: seq<Action>)
    requires Readable(g.parse, g.show, Log(Exec(g, actions)))
    ensures var st := Exec(g, actions); st.facade.events <= Log(st) && IsTimeline(st.facade.events)
  {
    AlwaysInv(g, actions);
    var st := Exec(g, actions);
    assert st.facade.events == Log(st)[..|st.facade.events|];
    LogIsTimeline(Log(st), |st.facade.events|);
  }

  /** And it never shrinks, except when the page is loaded anew. */
  lemma {:induction false} TimelineNeverShrinks(g: Setting, actions: seq<Action>, a: Action)
    requires Readable(g.parse, g.show, Log(Exec(g, actions))) && a != Page(StartLoad(g.runId))
    ensures Exec(g, actions).facade.events <= Exec(g, actions + [a]).facade.events
  {
    var all := actions + [a];
    assert all[..|all| - 1] == actions;
    AlwaysInv(g, actions);
    LogInvHolds(g, actions);
    LogInvHolds(g, all);
    StepKeeps(g, Exec(g, actions), a);
  }

  /** Without a dispatch failure in first place, the page shows a beginning of what the producer emitted. */
  lemma {:induction false} TimelineIsPrefixOfEmitted(g: Setting, actions: seq<Action>)
    requires Readable(g.parse, g.show, Log(Exec(g, actions))) && Delivery.Faithful(g.cfg)
    ensures var st := Exec(g, actions);
      st.system.dispatch.None? || Log(st) == [] || Log(st)[0].kind != RunFailed ==>
        st.facade.events <= Delivery.KeptAll(g.cfg, st.system.emitted)
  {
    TimelineIsPrefixOfLog(g, actions);
    BackendIsAlone(g, actions);
    Delivery.PrefixSafety(g.cfg, BackendActions(actions));
  }

  /**
   Nothing is held back for good: once the history of the current connection is loaded and all its
   text has arrived, the page shows everything published up to the first terminal event.
   */
  lemma {:induction false} CaughtUp(g: Setting, actions: seq<Action>, i: nat)
    requires Readable(g.parse, g.show, Log(Exec(g, actions)))
    requires var st := Exec(g, actions);
      && Reading(st) && st.connected && st.world.subscriber.Some?
      && st.world.subscriber.value.historyLoaded && !st.world.subscriber.value.closed
      && Concat(st.received) == Sent(g, st)
      && i < |st.world.published| && ServerStream.NoTerminalBefore(Log(st), i)
    ensures var st := Exec(g, actions); i < |st.facade.events| && st.facade.events <= Log(st)
  {
    AlwaysInv(g, actions);
    var st := Exec(g, actions);
    AllFramesRead(g, st);
    ServerStream.NothingMissing(st.world, i);
  }
}
