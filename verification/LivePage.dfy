/**
 A schedule of the whole path on which the page is live: it is loaded before anything has happened,
 its stream is opened, and an event stored only afterwards is published, written, read and shown.
 */
module LivePage {
  import opened Common
  import opened RunEvents
  import opened RunStore
  import opened SseParser
  import ApprovalSafety
  import Delivery
  import ServerStream
  import opened StreamClient
  import Timeline
  import opened EndToEnd

  /** The first event of the script, as it is posted and as it is stored. */
  function Posted(g: Setting): RunEvent
    requires g.cfg.script != []
  {
    g.cfg.make(1, g.cfg.script[0])
  }

  function FirstStored(g: Setting): RunEvent
    requires g.cfg.script != []
  {
    g.cfg.keep(Posted(g))
  }

  /** What the backend answers to the load of a run in which nothing has happened yet. */
  function EmptyDetail(g: Setting): Timeline.RunDetail {
    Detail(g, NewRun(g.cfg.mode))
  }

  function LoadPage(g: Setting): seq<Action> {
    [Page(Timeline.StartLoad(g.runId))] + [Snapshot] + [Page(Timeline.LoadAnswer(1, Some(EmptyDetail(g))))]
  }

  function OpenConnection(g: Setting): seq<Action> {
    LoadPage(g) + [Connect] + [QueryHistory] + [HistoryArrives]
  }

  function StoreFirst(g: Setting): seq<Action>
    requires g.cfg.script != []
  {
    OpenConnection(g) + [Backend(Delivery.Emit)] + [Backend(Delivery.Serve(Delivery.Message(Posted(g), 1)))]
  }

  function PublishFirst(g: Setting): seq<Action>
    requires g.cfg.script != []
  {
    StoreFirst(g) + [PublishNext]
  }

  function WholeText(g: Setting): string
    requires g.cfg.script != []
  {
    Encode(Messages(g.show, [FirstStored(g)]))
  }

  function ReadFirst(g: Setting): seq<Action>
    requires g.cfg.script != []
  {
    PublishFirst(g) + [Read(WholeText(g))]
  }

  lemma {:induction false} ExecAppend(g: Setting, actions: seq<Action>, a: Action)
    ensures Exec(g, actions + [a]) == Apply(g, Exec(g, actions), a)
  {
    assert (actions + [a])[..|actions|] == actions;
  }

  /** The page is loaded and its stream opened, and nothing has been shown yet. */
  predicate Loaded(g: Setting, st: State) {
    && st.system == Delivery.Init(g.cfg) && st.world == ServerStream.NO_WORLD
    && st.facade.stream == Some(1) && st.facade.events == [] && st.facade.persisted == [] && !st.facade.destroyed
    && st.client == NewClient([], None) && !st.connected
  }

  /** An empty snapshot answers the first load. */
  lemma {:induction false} LoadedEmpty(g: Setting, st: State)
    requires st.facade.loadGeneration == 1 && st.facade.events == [] && !st.facade.destroyed && st.facade.run.None?
    requires EmptyDetail(g) in st.snapshots
    ensures var f := Apply(g, st, Page(Timeline.LoadAnswer(1, Some(EmptyDetail(g))))).facade;
      f.stream == Some(1) && f.events == [] && f.persisted == [] && !f.destroyed
  {
    NothingMerged();
  }

  lemma {:induction false} NothingMerged()
    ensures Timeline.Merge([], []) == []
  {
    assert ServerStream.BySequence([] + []) == [];
  }

  lemma {:induction false} PageIsLoaded(g: Setting)
    ensures Loaded(g, Exec(g, LoadPage(g)))
  {
    var start, answer := Page(Timeline.StartLoad(g.runId)), Page(Timeline.LoadAnswer(1, Some(EmptyDetail(g))));
    ExecAppend(g, [], start);
    assert [] + [start] == [start];
    ExecAppend(g, [start], Snapshot);
    ExecAppend(g, [start] + [Snapshot], answer);
    var st := Exec(g, [start] + [Snapshot]);
    assert EmptyDetail(g) in st.snapshots;
    LoadedEmpty(g, st);
  }

  predicate Ready(g: Setting, st: State) {
    && st.system == Delivery.Init(g.cfg)
    && st.world == ServerStream.NO_WORLD.(
         subscriber := Some(ServerStream.Subscriber(0, [], true, false, [])), attached := true, inFlight := Some([]))
    && st.facade.stream == Some(1) && st.facade.events == []
    && st.client == NewClient([], None) && st.connected && st.received == []
  }

  lemma {:induction false} ConnectionIsOpen(g: Setting)
    ensures Ready(g, Exec(g, OpenConnection(g)))
  {
    PageIsLoaded(g);
    ExecAppend(g, LoadPage(g), Connect);
    ExecAppend(g, LoadPage(g) + [Connect], QueryHistory);
    ExecAppend(g, LoadPage(g) + [Connect] + [QueryHistory], HistoryArrives);
    assert ServerStream.BySequence([]) == [];
  }

  /** The first event is a start, which every run takes. */
  ghost predicate Starts(g: Setting) {
    Delivery.Faithful(g.cfg) && g.cfg.script != [] && g.cfg.script[0].kind == RunStarted
  }

  lemma {:induction false} FirstIsStored(cfg: Delivery.Config)
    requires Delivery.Faithful(cfg) && cfg.script != [] && cfg.script[0].kind == RunStarted
    ensures var posted := cfg.make(1, cfg.script[0]);
      var s := Delivery.Apply(cfg, Delivery.Apply(cfg, Delivery.Init(cfg), Delivery.Emit),
        Delivery.Serve(Delivery.Message(posted, 1)));
      s.run.events == [cfg.keep(posted)] && cfg.keep(posted).sequence == 1 && cfg.keep(posted).kind == RunStarted
  {
    var e := cfg.keep(cfg.make(1, cfg.script[0]));
    TakenExactly(NewRun(cfg.mode), e);
    ApprovalSafety.RecordFrame(NewRun(cfg.mode), e);
    assert [] + [e] == [e];
  }

  predicate Stored(g: Setting, st: State)
    requires g.cfg.script != []
  {
    && Log(st) == [FirstStored(g)]
    && st.world == ServerStream.NO_WORLD.(log := [FirstStored(g)],
         subscriber := Some(ServerStream.Subscriber(0, [], true, false, [])), attached := true, inFlight := Some([]))
    && st.facade.stream == Some(1) && st.facade.events == []
    && st.client == NewClient([], None) && st.connected && st.received == []
  }

  lemma {:induction false} EventIsStored(g: Setting)
    requires Starts(g)
    ensures Stored(g, Exec(g, StoreFirst(g)))
  {
    ConnectionIsOpen(g);
    FirstIsStored(g.cfg);
    ExecAppend(g, OpenConnection(g), Backend(Delivery.Emit));
    ExecAppend(g, OpenConnection(g) + [Backend(Delivery.Emit)],
      Backend(Delivery.Serve(Delivery.Message(Posted(g), 1))));
  }

  predicate Published(g: Setting, st: State)
    requires g.cfg.script != []
  {
    && Log(st) == [FirstStored(g)] && st.world.published == [0] && st.world.after == 0
    && st.world.subscriber == Some(ServerStream.Subscriber(1, [], true, false, [FirstStored(g)]))
    && st.facade.stream == Some(1) && st.facade.events == []
    && st.client == NewClient([], None) && st.connected && st.received == []
  }

  lemma {:induction false} EventIsPublished(g: Setting)
    requires Starts(g)
    ensures Published(g, Exec(g, PublishFirst(g)))
  {
    EventIsStored(g);
    FirstIsStored(g.cfg);
    ExecAppend(g, StoreFirst(g), PublishNext);
    assert [] + [FirstStored(g)] == [FirstStored(g)];
  }

  /** The text can be read to its end. */
  lemma {:induction false} TextArrives(g: Setting, st: State)
    requires g.cfg.script != [] && Published(g, st)
    ensures Arrives(g, st, WholeText(g)) && Concat(st.received + [WholeText(g)]) == Sent(g, st)
  {
    OnePiece(WholeText(g));
  }

  lemma {:induction false} OnePiece(text: string)
    ensures Concat([text]) == text && Concat([] + [text]) == text
  {
    assert [text][..0] == [] && "" + text == text && [] + [text] == [text];
  }

  /** Without a terminal event in the log, reading on leaves the stream open. */
  lemma {:induction false} ReadingGoesOn(g: Setting, st: State, chunk: string)
    requires Readable(g.parse, g.show, Log(st)) && Inv(g, st) && Arrives(g, st, chunk) && NoTerminal(Log(st))
    ensures var after := ApplyRead(g, st, chunk);
      !after.client.terminal && after.facade.stream == st.facade.stream
  {
    DeliveredAreWritable(g, st);
    ConnectionStands(g, st);
    FramesFollow(g, st, chunk);
    var end := FramesShown(g, Log(st), st.client, st.facade, NextFrames(st, chunk), Position(st.client));
    assert UpTo(Log(st), HandleFrames(g.parse, st.client, NextFrames(st, chunk)), |st.facade.persisted|, end);
  }

  lemma {:induction false} ReadLeaves(g: Setting, st: State, chunk: string)
    requires Arrives(g, st, chunk)
    ensures var after := ApplyRead(g, st, chunk);
      && after.connected && after.world == st.world && after.system == st.system
      && after.received == st.received + [chunk] && Sent(g, after) == Sent(g, st)
  {
  }

  /** Where all text of the one published event has been read: what `CaughtUp` asks for. */
  predicate AllRead(g: Setting, st: State) {
    && Reading(st) && st.connected && st.world.subscriber.Some?
    && st.world.subscriber.value.historyLoaded && !st.world.subscriber.value.closed
    && Concat(st.received) == Sent(g, st)
    && st.world.published == [0] && |Log(st)| == 1
  }

  /** What reading the first event leaves: a stream still open, all of its text received. */
  lemma {:induction false} FirstIsRead(g: Setting, st: State)
    requires g.cfg.script != [] && Published(g, st) && Inv(g, st) && !Terminal(FirstStored(g))
    requires Readable(g.parse, g.show, [FirstStored(g)])
    ensures var after := ApplyRead(g, st, WholeText(g));
      AllRead(g, after) && Log(after) == [FirstStored(g)]
  {
    TextArrives(g, st);
    ReadingGoesOn(g, st, WholeText(g));
    ReadLeaves(g, st, WholeText(g));
  }

  lemma {:induction false} AllIsRead(g: Setting)
    requires Starts(g) && Readable(g.parse, g.show, [FirstStored(g)])
    ensures AllRead(g, Exec(g, ReadFirst(g))) && Log(Exec(g, ReadFirst(g))) == [FirstStored(g)]
  {
    var st := Exec(g, PublishFirst(g));
    EventIsPublished(g);
    FirstIsStored(g.cfg);
    AlwaysInv(g, PublishFirst(g));
    FirstIsRead(g, st);
    LastIsRead(g);
  }

  lemma {:induction false} LastIsRead(g: Setting)
    requires g.cfg.script != []
    ensures Exec(g, ReadFirst(g)) == ApplyRead(g, Exec(g, PublishFirst(g)), WholeText(g))
  {
    ExecAppend(g, PublishFirst(g), Read(WholeText(g)));
  }

  /**
   For every setting whose script begins with a start: a page whose snapshot held no event shows the
   first event of the run, and everything `CaughtUp` asks for holds when it does.
   */
  lemma {:induction false} LiveEventReachesPage(g: Setting)
    requires Starts(g) && Readable(g.parse, g.show, [FirstStored(g)])
    ensures EmptyDetail(g).events == []
    ensures AllRead(g, Exec(g, ReadFirst(g))) && Exec(g, ReadFirst(g)).facade.events == [FirstStored(g)]
  {
    AllIsRead(g);
    CaughtUp(g, ReadFirst(g), 0);
  }
}
