/**
 The server side of the live event stream: every subscriber gets the history read from the
 database first and the live events after it, merged under a watermark.
 */
module ServerStream {
  import opened Common
  import opened RunEvents
  import opened Sorting

  datatype Subscriber = Subscriber(
    watermark: nat, pending: seq<RunEvent>, historyLoaded: bool, closed: bool, delivered: seq<RunEvent>)

  function NewSubscriber(after: nat): Subscriber {
    Subscriber(after, [], false, false, [])
  }

  predicate Earlier(a: RunEvent, b: RunEvent) {
    a.sequence <= b.sequence
  }

  function BySequence(es: seq<RunEvent>): seq<RunEvent> {
    Sort(es, Earlier)
  }

  // ---- What the callbacks of one subscriber do ----

  function Deliver(s: Subscriber, e: RunEvent): Subscriber {
    if e.sequence > s.watermark then s.(watermark := e.sequence, delivered := s.delivered + [e]) else s
  }

  function DeliverAll(s: Subscriber, es: seq<RunEvent>): Subscriber {
    if es == [] then s else Deliver(DeliverAll(s, es[..|es| - 1]), es[|es| - 1])
  }

  /** A live event: kept back until the history has been read. */
  function Live(s: Subscriber, e: RunEvent): Subscriber {
    if s.closed then s
    else if !s.historyLoaded then s.(pending := s.pending + [e])
    else Deliver(s, e)
  }

  /** The history arrives: its rows, then the events kept back, in order of sequence. */
  function History(s: Subscriber, rows: seq<RunEvent>): Subscriber {
    if s.closed then s
    else
      var sorted := BySequence(s.pending);
      DeliverAll(DeliverAll(s, rows).(historyLoaded := true, pending := sorted), sorted)
  }

  class Subscription {
    var watermark: nat
    var pending: seq<RunEvent>
    var historyLoaded: bool
    var closed: bool
    var delivered: seq<RunEvent>

    function State(): Subscriber
      reads this
    {
      Subscriber(watermark, pending, historyLoaded, closed, delivered)
    }

    constructor (after: nat)
      ensures State() == NewSubscriber(after)
    {
      watermark := after;
      pending := [];
      historyLoaded := false;
      closed := false;
      delivered := [];
    }

    method OnLive(e: RunEvent)
      requires !closed
      modifies this
      ensures State() == Live(old(State()), e)
    {
      if !historyLoaded {
        pending := pending + [e];
        return;
      }
      if e.sequence > watermark {
        watermark := e.sequence;
        delivered := delivered + [e];
      }
    }

    method DeliverEach(es: seq<RunEvent>)
      modifies this
      ensures State() == DeliverAll(old(State()), es)
    {
      for i := 0 to |es|
        invariant State() == DeliverAll(old(State()), es[..i])
      {
        assert es[..i + 1][..i] == es[..i];
        if es[i].sequence > watermark {
          watermark := es[i].sequence;
          delivered := delivered + [es[i]];
        }
      }
      assert es[..|es|] == es;
    }

    method OnHistory(rows: seq<RunEvent>)
      modifies this
      ensures State() == History(old(State()), rows)
    {
      if closed { return; }
      DeliverEach(rows);
      historyLoaded := true;
      pending := BySequence(pending);
      KeepsFlags(old(State()), rows);
      DeliverEach(pending);
    }

    method Close()
      modifies this
      ensures State() == old(State()).(closed := true)
    {
      closed := true;
    }
  }

  lemma {:induction false} KeepsFlags(s: Subscriber, es: seq<RunEvent>)
    ensures var t := DeliverAll(s, es);
      t.pending == s.pending && t.historyLoaded == s.historyLoaded && t.closed == s.closed
  {
    if es != [] { KeepsFlags(s, es[..|es| - 1]); }
  }

  // ---- The service with its channels ----

  /** The subscriptions other than `s`, in order. */
  function Without(subs: seq<Subscription>, s: Subscription): seq<Subscription> {
    if subs == [] then []
    else if subs[0] == s then Without(subs[1..], s)
    else [subs[0]] + Without(subs[1..], s)
  }

  lemma {:induction false} WithoutMembers(subs: seq<Subscription>, s: Subscription)
    ensures forall t :: t in Without(subs, s) <==> t in subs && t != s
    ensures (forall i, j :: 0 <= i < j < |subs| ==> subs[i] != subs[j]) ==>
      forall i, j :: 0 <= i < j < |Without(subs, s)| ==> Without(subs, s)[i] != Without(subs, s)[j]
  {
    if subs != [] {
      WithoutMembers(subs[1..], s);
      if forall i, j :: 0 <= i < j < |subs| ==> subs[i] != subs[j] {
        assert forall i :: 0 <= i < |subs[1..]| ==> subs[1..][i] == subs[i + 1];
        assert subs[0] !in subs[1..];
      }
    }
  }

  class EventStreamService {
    var channels: map<string, seq<Subscription>>

    function Observers(runId: string): seq<Subscription>
      reads this
    {
      if runId in channels then channels[runId] else []
    }

    /** No subscription is attached twice to a channel, and a closed one is detached. */
    ghost predicate ValidChannel(runId: string)
      reads this, Observers(runId)
    {
      var subs := Observers(runId);
      && (forall i, j :: 0 <= i < j < |subs| ==> subs[i] != subs[j])
      && (forall i :: 0 <= i < |subs| ==> !subs[i].closed)
    }

    constructor ()
      ensures channels == map[]
    {
      channels := map[];
    }

    /** Every attached subscriber gets the event; a terminal event ends the channel. */
    method Publish(e: RunEvent)
      requires ValidChannel(e.runId)
      modifies this, Observers(e.runId)
      ensures forall s :: s in old(Observers(e.runId)) ==> s.State() == Live(old(s.State()), e)
      ensures channels ==
        if Terminal(e) then old(channels) - {e.runId} else old(channels)[e.runId := old(Observers(e.runId))]
      ensures ValidChannel(e.runId)
    {
      var subs := Observers(e.runId);
      channels := channels[e.runId := subs];
      var i := 0;
      while i < |subs|
        invariant 0 <= i <= |subs|
        invariant channels == old(channels)[e.runId := subs]
        invariant forall j :: 0 <= j < i ==> subs[j].State() == Live(old(subs[j].State()), e)
        invariant forall j :: i <= j < |subs| ==> subs[j].State() == old(subs[j].State())
      {
        subs[i].OnLive(e);
        i := i + 1;
      }
      forall j | 0 <= j < |subs| ensures !subs[j].closed {
        KeepsFlags(old(subs[j].State()), [e]);
        assert subs[j].State().closed == old(subs[j].State()).closed;
      }
      if Terminal(e) {
        channels := channels - {e.runId};
      }
    }

    /** The subscriber goes away: it takes no more callbacks and leaves the channel, if it is still in it. */
    method Unsubscribe(runId: string, s: Subscription)
      requires ValidChannel(runId)
      modifies this, s
      ensures s.State() == old(s.State()).(closed := true)
      ensures channels == if runId in old(channels)
        then old(channels)[runId := Without(old(channels)[runId], s)] else old(channels)
      ensures ValidChannel(runId)
    {
      s.Close();
      WithoutMembers(Observers(runId), s);
      if runId in channels {
        channels := channels[runId := Without(channels[runId], s)];
        forall i | 0 <= i < |Observers(runId)| ensures !Observers(runId)[i].closed {
          assert Observers(runId)[i] in Without(old(Observers(runId)), s);
        }
      }
    }

    method Stream(runId: string, after: nat) returns (s: Subscription)
      requires ValidChannel(runId)
      modifies this
      ensures fresh(s) && s.State() == NewSubscriber(after)
      ensures channels == old(channels)[runId := old(Observers(runId)) + [s]]
      ensures ValidChannel(runId)
    {
      s := new Subscription(after);
      channels := channels[runId := Observers(runId) + [s]];
    }
  }

  // ---- The position a client asks for ----

  /** A Last-Event-ID that is no decimal number counts as absent. */
  function AfterSequence(header: Option<string>): nat {
    if header.Some? && header.value != "" && AllDigits(header.value) then ParseDecimal(header.value) else 0
  }

  /** The id of a frame brings a reconnecting client exactly behind that frame. */
  lemma {:induction false} ResumesBehind(e: RunEvent)
    ensures AfterSequence(Some(Decimal(e.sequence))) == e.sequence
  {
    ParseDecimalInverts(e.sequence);
  }

  // ---- One subscriber under every interleaving ----

  /**
   The log of a run, the publishes so far by position in the log, and the subscriber under
   observation; subscribing again replaces it, as a reconnecting client does.
   */
  datatype World = World(
    log: seq<RunEvent>,
    published: seq<nat>,
    subscriber: Option<Subscriber>,
    after: nat,
    joined: nat,     // publishes made before the subscriber joined
    heard: nat,      // publishes made until the subscriber was detached
    attached: bool,
    inFlight: Option<seq<RunEvent>>)

  const NO_WORLD := World([], [], None, 0, 0, 0, false, None)

  datatype Action = Commit(e: RunEvent) | Publish(i: nat) | Subscribe(after: nat) | Query | Arrive | Leave

  function Rows(log: seq<RunEvent>, after: nat): seq<RunEvent> {
    if after <= |log| then log[after..] else []
  }

  function ApplyPublish(w: World, i: nat): World {
    if i >= |w.log| then w
    else
      var v := w.(published := w.published + [i]);
      if w.subscriber.None? || !w.attached then v
      else v.(subscriber := Some(Live(w.subscriber.value, w.log[i])), heard := |v.published|,
        attached := !Terminal(w.log[i]))
  }

  function Apply(w: World, a: Action): World {
    match a
    case Commit(e) => if e.sequence == |w.log| + 1 then w.(log := w.log + [e]) else w
    case Publish(i) => ApplyPublish(w, i)
    case Subscribe(after) =>
      w.(subscriber := Some(NewSubscriber(after)), after := after, inFlight := None,
         joined := |w.published|, heard := |w.published|, attached := true)
    case Query =>
      if w.subscriber.None? || w.inFlight.Some? then w else w.(inFlight := Some(Rows(w.log, w.after)))
    case Arrive =>
      if w.subscriber.None? || w.inFlight.None? || w.subscriber.value.historyLoaded then w
      else w.(subscriber := Some(History(w.subscriber.value, w.inFlight.value)))
    case Leave =>
      if w.subscriber.None? then w
      else w.(subscriber := Some(w.subscriber.value.(closed := true)), attached := false)
  }

  function Exec(actions: seq<Action>): World {
    if actions == [] then NO_WORLD else Apply(Exec(actions[..|actions| - 1]), actions[|actions| - 1])
  }

  // ---- Strictly increasing deliveries, whatever the order of publishing ----

  predicate Increasing(es: seq<RunEvent>) {
    forall i, j :: 0 <= i < j < |es| ==> es[i].sequence < es[j].sequence
  }

  /** The deliveries increase strictly from `after` to the watermark. */
  predicate Ordered(s: Subscriber, after: nat) {
    && Increasing(s.delivered)
    && (forall i :: 0 <= i < |s.delivered| ==> after < s.delivered[i].sequence <= s.watermark)
    && after <= s.watermark
  }

  lemma {:induction false} DeliverAllOrdered(s: Subscriber, es: seq<RunEvent>, after: nat)
    requires Ordered(s, after)
    ensures Ordered(DeliverAll(s, es), after)
  {
    if es != [] { DeliverAllOrdered(s, es[..|es| - 1], after); }
  }

  lemma {:induction false} HistoryOrdered(s: Subscriber, rows: seq<RunEvent>, after: nat)
    requires Ordered(s, after)
    ensures Ordered(History(s, rows), after)
  {
    if !s.closed {
      var sorted := BySequence(s.pending);
      DeliverAllOrdered(s, rows, after);
      DeliverAllOrdered(DeliverAll(s, rows).(historyLoaded := true, pending := sorted), sorted, after);
    }
  }

  /** Whatever is scheduled, a subscriber receives strictly increasing sequences above `after`. */
  lemma {:induction false} AlwaysOrdered(actions: seq<Action>)
    ensures var w := Exec(actions); w.subscriber.Some? ==> Ordered(w.subscriber.value, w.after)
  {
    if actions != [] {
      AlwaysOrdered(actions[..|actions| - 1]);
      var w, a := Exec(actions[..|actions| - 1]), actions[|actions| - 1];
      if w.subscriber.Some? && w.inFlight.Some? && a.Arrive? {
        HistoryOrdered(w.subscriber.value, w.inFlight.value, w.after);
      }
    }
  }

  predicate Within(es: seq<RunEvent>, log: seq<RunEvent>) {
    forall e :: e in es ==> e in log
  }

  /** What a subscriber holds and what is on its way to it. */
  predicate HoldsOnly(s: Subscriber, log: seq<RunEvent>) {
    Within(s.pending, log) && Within(s.delivered, log)
  }

  predicate FromLog(w: World) {
    && (w.subscriber.Some? ==> HoldsOnly(w.subscriber.value, w.log))
    && (w.inFlight.Some? ==> Within(w.inFlight.value, w.log))
  }

  lemma {:induction false} DeliverAllWithin(s: Subscriber, es: seq<RunEvent>, log: seq<RunEvent>)
    requires HoldsOnly(s, log) && Within(es, log)
    ensures HoldsOnly(DeliverAll(s, es), log)
  {
    if es != [] { DeliverAllWithin(s, es[..|es| - 1], log); }
  }

  lemma {:induction false} HistoryWithin(s: Subscriber, rows: seq<RunEvent>, log: seq<RunEvent>)
    requires HoldsOnly(s, log) && Within(rows, log)
    ensures HoldsOnly(History(s, rows), log)
  {
    if !s.closed {
      var sorted := BySequence(s.pending);
      SortMembers(s.pending, Earlier);
      DeliverAllWithin(s, rows, log);
      DeliverAllWithin(DeliverAll(s, rows).(historyLoaded := true, pending := sorted), sorted, log);
    }
  }

  /** Whatever is scheduled, a subscriber receives nothing but entries of the log. */
  lemma {:induction false} AlwaysFromLog(actions: seq<Action>)
    ensures FromLog(Exec(actions))
  {
    if actions != [] {
      AlwaysFromLog(actions[..|actions| - 1]);
      var w, a := Exec(actions[..|actions| - 1]), actions[|actions| - 1];
      if w.subscriber.Some? && w.inFlight.Some? && a.Arrive? {
        HistoryWithin(w.subscriber.value, w.inFlight.value, w.log);
      }
    }
  }

  // ---- Publishing in sequence order ----

  /** The events were published in the order of the log, each once. */
  predicate InOrder(w: World) {
    forall i :: 0 <= i < |w.published| ==> w.published[i] == i
  }

  predicate Numbered(log: seq<RunEvent>) {
    forall i :: 0 <= i < |log| ==> log[i].sequence == i + 1
  }

  /** The deliveries are exactly the log from position `after` up to the watermark. */
  predicate Consecutive(log: seq<RunEvent>, s: Subscriber, after: nat) {
    && s.watermark == after + |s.delivered|
    && (s.delivered != [] ==> s.watermark <= |log| && s.delivered == log[after..s.watermark])
  }

  /** Where a subscriber stands when everything is published in order. */
  predicate MergeInv(w: World) {
    && Numbered(w.log) && |w.published| <= |w.log|
    && (w.subscriber.Some? ==>
        var s := w.subscriber.value;
        && Consecutive(w.log, s, w.after)
        && w.joined <= w.heard <= |w.published|
        && (w.attached ==> w.heard == |w.published| && !s.closed)
        && (!w.attached && !s.closed ==> w.joined < w.heard <= |w.log| && Terminal(w.log[w.heard - 1]))
        && (!s.closed && !s.historyLoaded ==>
          w.heard <= |w.log| && s.pending == w.log[w.joined..w.heard] && s.delivered == [])
        && (w.inFlight.Some? ==> Read(w))
        && (!s.closed && s.historyLoaded ==> s.watermark >= w.heard))
    && (w.subscriber.None? ==> w.inFlight.None?)
  }

  /** The rows being read cover at least everything published before the subscriber joined. */
  predicate Read(w: World) {
    exists m :: w.joined <= m <= |w.log| && w.inFlight == Some(Rows(w.log[..m], w.after))
  }

  /** Delivering a stretch of the log that begins no later than the watermark leaves no gap. */
  lemma {:induction false} DeliverStretch(log: seq<RunEvent>, s: Subscriber, after: nat, lo: nat, hi: nat)
    requires Numbered(log) && Consecutive(log, s, after)
    requires lo <= hi <= |log| && lo <= s.watermark
    ensures var t := DeliverAll(s, log[lo..hi]);
      Consecutive(log, t, after) && t.watermark == if hi > s.watermark then hi else s.watermark
    decreases hi
  {
    if lo < hi {
      LastOfStretch(log, lo, hi);
      DeliverStretch(log, s, after, lo, hi - 1);
      DeliverNext(log, DeliverAll(s, log[lo..hi - 1]), after, hi - 1);
    }
  }

  lemma {:induction false} DeliverNext(log: seq<RunEvent>, s: Subscriber, after: nat, i: nat)
    requires Numbered(log) && Consecutive(log, s, after) && i < |log| && i <= s.watermark
    ensures var t := Deliver(s, log[i]);
      Consecutive(log, t, after) && t.watermark == if i == s.watermark then i + 1 else s.watermark
  {
    if i == s.watermark {
      LastOfStretch(log, after, i + 1);
      if s.delivered == [] { assert log[after..i] == []; }
    }
  }

  lemma {:induction false} RowsInOrder(log: seq<RunEvent>, s: Subscriber, after: nat, m: nat)
    requires Numbered(log) && Consecutive(log, s, after) && m <= |log|
    ensures var read := DeliverAll(s, Rows(log[..m], after));
      Consecutive(log, read, after) && read.watermark >= m
  {
    if after <= m {
      assert log[..m][after..] == log[after..m];
      DeliverStretch(log, s, after, after, m);
    }
  }

  lemma {:induction false} ArriveInOrder(w: World)
    requires MergeInv(w) && InOrder(w) && w.subscriber.Some? && w.inFlight.Some?
    requires !w.subscriber.value.closed && !w.subscriber.value.historyLoaded
    ensures var s := History(w.subscriber.value, w.inFlight.value);
      Consecutive(w.log, s, w.after) && s.watermark >= w.heard && s.historyLoaded && !s.closed
  {
    var s, log := w.subscriber.value, w.log;
    var m :| w.joined <= m <= |log| && w.inFlight == Some(Rows(log[..m], w.after));
    var rows := Rows(log[..m], w.after);
    var read := DeliverAll(s, rows);
    KeepsFlags(s, rows);
    RowsInOrder(log, s, w.after, m);
    var pending := s.pending;
    SortFixed(pending, Earlier);
    var ready := read.(historyLoaded := true, pending := pending);
    DeliverStretch(log, ready, w.after, w.joined, w.heard);
    KeepsFlags(ready, pending);
  }

  lemma {:induction false} PublishInOrder(w: World, i: nat)
    requires MergeInv(w) && InOrder(w) && InOrder(ApplyPublish(w, i))
    ensures MergeInv(ApplyPublish(w, i))
  {
    if i < |w.log| {
      assert ApplyPublish(w, i).published[|w.published|] == i;
    }
    if i < |w.log| && w.subscriber.Some? && w.attached {
      var s, v := w.subscriber.value, ApplyPublish(w, i);
      assert i == |w.published| == w.heard;
      if s.historyLoaded {
        DeliverStretch(w.log, s, w.after, i, i + 1);
        assert w.log[i..i + 1] == [w.log[i]];
        assert DeliverAll(s, [w.log[i]]) == Deliver(s, w.log[i]);
      } else {
        assert w.log[w.joined..i + 1] == w.log[w.joined..i] + [w.log[i]];
      }
    }
  }

  lemma {:induction false} CommitInOrder(w: World, e: RunEvent)
    requires MergeInv(w) && InOrder(w) && e.sequence == |w.log| + 1
    ensures MergeInv(w.(log := w.log + [e]))
  {
    var v := w.(log := w.log + [e]);
    if w.subscriber.Some? {
      var s := w.subscriber.value;
      if s.delivered != [] {
        assert v.log[w.after..s.watermark] == w.log[w.after..s.watermark];
      }
      if !s.closed && !s.historyLoaded { assert v.log[w.joined..w.heard] == w.log[w.joined..w.heard]; }
      if w.inFlight.Some? {
        var m :| w.joined <= m <= |w.log| && w.inFlight == Some(Rows(w.log[..m], w.after));
        assert v.log[..m] == w.log[..m];
      }
    }
  }

  lemma {:induction false} StepInOrder(w: World, a: Action)
    requires MergeInv(w) && InOrder(w) && InOrder(Apply(w, a))
    ensures MergeInv(Apply(w, a))
  {
    match a
    case Commit(e) => if e.sequence == |w.log| + 1 { CommitInOrder(w, e); }
    case Publish(i) => PublishInOrder(w, i);
    case Subscribe(after) =>
    case Query =>
      if w.subscriber.Some? && w.inFlight.None? {
        assert w.log[..|w.log|] == w.log;
        assert Read(Apply(w, a));
      }
    case Arrive =>
      if w.subscriber.Some? && w.inFlight.Some? && !w.subscriber.value.historyLoaded {
        if !w.subscriber.value.closed { ArriveInOrder(w); }
        assert Read(w) ==> Read(Apply(w, a));
      }
    case Leave =>
  }

  lemma {:induction false} StillInOrder(w: World, a: Action)
    requires InOrder(Apply(w, a))
    ensures InOrder(w)
  {
    assert forall i :: 0 <= i < |w.published| ==> Apply(w, a).published[i] == w.published[i];
  }

  lemma {:induction false} MergedInOrder(actions: seq<Action>)
    requires InOrder(Exec(actions))
    ensures MergeInv(Exec(actions))
  {
    if actions != [] {
      var w, a := Exec(actions[..|actions| - 1]), actions[|actions| - 1];
      StillInOrder(w, a);
      MergedInOrder(actions[..|actions| - 1]);
      StepInOrder(w, a);
    }
  }

  predicate NoTerminalBefore(log: seq<RunEvent>, i: nat) {
    i <= |log| && forall j :: 0 <= j < i ==> !Terminal(log[j])
  }

  /** Once the history is loaded, whatever was published up to the first terminal event is covered. */
  lemma {:induction false} NothingMissing(w: World, i: nat)
    requires MergeInv(w) && w.subscriber.Some? && w.subscriber.value.historyLoaded && !w.subscriber.value.closed
    requires i < |w.published| && NoTerminalBefore(w.log, i)
    ensures i < w.after + |w.subscriber.value.delivered|
  {
    assert !w.attached ==> Terminal(w.log[w.heard - 1]);
  }

  /**
   Publishing in sequence order, under every interleaving of subscription, history query, commits
   and publishes: a subscriber receives exactly the consecutive log entries from `after` + 1,
   and none of those published up to the first terminal event is missing.
   */
  lemma {:induction false} ReceivesConsecutively(actions: seq<Action>)
    requires InOrder(Exec(actions)) && Exec(actions).subscriber.Some?
    ensures var w := Exec(actions); var s := w.subscriber.value;
      && (s.delivered != [] ==>
          w.after + |s.delivered| <= |w.log| && s.delivered == w.log[w.after..w.after + |s.delivered|])
      && (s.historyLoaded && !s.closed ==>
          forall i: nat :: w.after <= i < |w.published| && NoTerminalBefore(w.log, i) ==> i < w.after + |s.delivered|)
  {
    MergedInOrder(actions);
    var w := Exec(actions);
    var s := w.subscriber.value;
    if s.historyLoaded && !s.closed {
      forall i: nat | w.after <= i < |w.published| && NoTerminalBefore(w.log, i)
        ensures i < w.after + |s.delivered|
      {
        NothingMissing(w, i);
      }
    }
  }

  // ---- Publishing out of order ----

  function Above(es: seq<RunEvent>, mark: nat): seq<RunEvent> {
    Filter(es, (e: RunEvent) => e.sequence > mark)
  }

  lemma {:induction false} DeliverAllConcat(s: Subscriber, a: seq<RunEvent>, b: seq<RunEvent>)
    ensures DeliverAll(s, a + b) == DeliverAll(DeliverAll(s, a), b)
  {
    if b == [] {
      assert a + b == a;
    } else {
      assert (a + b)[..|a + b| - 1] == a + b[..|b| - 1];
      DeliverAllConcat(s, a, b[..|b| - 1]);
    }
  }

  /** The deliveries only grow, and what is added increases strictly from the watermark. */
  lemma {:induction false} Added(s: Subscriber, es: seq<RunEvent>)
    ensures var t := DeliverAll(s, es);
      && s.delivered <= t.delivered
      && Ordered(t.(delivered := t.delivered[|s.delivered|..]), s.watermark)
  {
    if es != [] {
      Added(s, es[..|es| - 1]);
      var u, t := DeliverAll(s, es[..|es| - 1]), DeliverAll(s, es);
      if t != u {
        assert t.delivered[|s.delivered|..] == u.delivered[|s.delivered|..] + [es[|es| - 1]];
      }
    }
  }

  lemma {:induction false} AboveLater(es: seq<RunEvent>, low: nat, high: nat)
    requires low <= high && forall i :: 0 <= i < |Above(es, low)| ==> Above(es, low)[i].sequence > high
    ensures Above(es, high) == Above(es, low)
  {
    if es != [] {
      if es[0].sequence > low {
        assert Above(es, low)[0] == es[0];
        assert Above(es, low)[1..] == Above(es[1..], low);
      }
      forall i | 0 <= i < |Above(es[1..], low)| ensures Above(es[1..], low)[i].sequence > high {
        var j := if es[0].sequence > low then i + 1 else i;
        assert Above(es[1..], low)[i] == Above(es, low)[j];
      }
      AboveLater(es[1..], low, high);
    }
  }

  lemma {:induction false} AboveFirst(es: seq<RunEvent>, mark: nat)
    requires es != [] && es[0].sequence > mark && Increasing(Above(es, mark))
    ensures Above(es, mark) == [es[0]] + Above(es[1..], es[0].sequence)
    ensures Increasing(Above(es[1..], es[0].sequence))
  {
    var above, rest := Above(es, mark), Above(es[1..], mark);
    assert above == [es[0]] + rest;
    forall i | 0 <= i < |rest| ensures rest[i].sequence > es[0].sequence {
      assert rest[i] == above[i + 1] && above[0] == es[0];
    }
    AboveLater(es[1..], mark, es[0].sequence);
    assert forall i :: 0 <= i < |rest| ==> rest[i] == above[i + 1];
  }

  lemma {:induction false} IncreasingAreDelivered(s: Subscriber, es: seq<RunEvent>)
    requires Increasing(Above(es, s.watermark))
    ensures DeliverAll(s, es).delivered == s.delivered + Above(es, s.watermark)
    decreases es
  {
    if es == [] {
      assert s.delivered + Above(es, s.watermark) == s.delivered;
    } else {
      var e, rest := es[0], es[1..];
      assert es == [e] + rest;
      DeliverAllConcat(s, [e], rest);
      assert DeliverAll(s, [e]) == Deliver(s, e) by { assert [e][..0] == []; }
      if e.sequence > s.watermark {
        var later := Above(rest, e.sequence);
        AboveFirst(es, s.watermark);
        IncreasingAreDelivered(Deliver(s, e), rest);
        assert s.delivered + ([e] + later) == (s.delivered + [e]) + later;
      } else {
        IncreasingAreDelivered(s, rest);
      }
    }
  }

  /**
   Once the history is loaded, nothing published above the watermark is lost exactly when it is
   published in increasing order: a late event is dropped for good.
   */
  lemma {:induction false} LateEventsAreDropped(s: Subscriber, es: seq<RunEvent>)
    ensures DeliverAll(s, es).delivered == s.delivered + Above(es, s.watermark)
      <==> Increasing(Above(es, s.watermark))
  {
    if DeliverAll(s, es).delivered == s.delivered + Above(es, s.watermark) {
      Added(s, es);
      assert DeliverAll(s, es).delivered[|s.delivered|..] == Above(es, s.watermark);
    } else if Increasing(Above(es, s.watermark)) {
      IncreasingAreDelivered(s, es);
    }
  }

  lemma {:induction false} ExecAppend(actions: seq<Action>, a: Action)
    ensures Exec(actions + [a]) == Apply(Exec(actions), a)
  {
    assert (actions + [a])[..|actions|] == actions;
  }

  /** An input on which an event is lost: the second of two events is published before the first. */
  lemma {:induction false} LateEventIsLost(e: RunEvent, f: RunEvent)
    requires e.sequence == 1 && f.sequence == 2 && !Terminal(f)
    ensures var w := Exec([Subscribe(0), Query, Arrive, Commit(e), Commit(f), Publish(1), Publish(0)]);
      w.log == [e, f] && w.published == [1, 0] && w.subscriber.Some? && w.subscriber.value.delivered == [f]
  {
    var read := [Subscribe(0)] + [Query] + [Arrive];
    var stored := read + [Commit(e)] + [Commit(f)];
    ReadyAtOnce();
    ExecAppend(read, Commit(e));
    ExecAppend(read + [Commit(e)], Commit(f));
    ExecAppend(stored, Publish(1));
    ExecAppend(stored + [Publish(1)], Publish(0));
    assert [Subscribe(0), Query, Arrive, Commit(e), Commit(f), Publish(1), Publish(0)]
      == stored + [Publish(1)] + [Publish(0)];
  }

  /** A subscriber to an empty log, once the history has been read. */
  lemma {:induction false} ReadyAtOnce()
    ensures var w := Exec([Subscribe(0)] + [Query] + [Arrive]);
      && w.subscriber == Some(Subscriber(0, [], true, false, []))
      && w.attached && w.log == [] && w.published == []
  {
    ExecAppend([], Subscribe(0));
    assert [] + [Subscribe(0)] == [Subscribe(0)];
    ExecAppend([Subscribe(0)], Query);
    ExecAppend([Subscribe(0)] + [Query], Arrive);
    assert Exec([Subscribe(0)] + [Query]).inFlight == Some([]);
  }

  /**
   While the history is being read the order of publishing does not matter: everything kept back
   above the last row is delivered, if no sequence number is published twice.
   */
  lemma {:induction false} PendingOrderIsRepaired(s: Subscriber, rows: seq<RunEvent>, e: RunEvent)
    requires !s.closed
    requires forall i, j :: 0 <= i < j < |s.pending| ==> s.pending[i].sequence != s.pending[j].sequence
    requires e in s.pending && e.sequence > DeliverAll(s, rows).watermark
    ensures e in History(s, rows).delivered
  {
    var sorted := BySequence(s.pending);
    var read := DeliverAll(s, rows).(historyLoaded := true, pending := sorted);
    SortSorts(s.pending, Earlier);
    SortMembers(s.pending, Earlier);
    DistinctSorted(s.pending, sorted);
    AboveIncreasing(sorted, read.watermark);
    IncreasingAreDelivered(read, sorted);
    assert e in Above(sorted, read.watermark);
    assert e in read.delivered + Above(sorted, read.watermark);
  }

  lemma {:induction false} DistinctSorted(es: seq<RunEvent>, sorted: seq<RunEvent>)
    requires multiset(sorted) == multiset(es) && Sorted(sorted, Earlier)
    requires forall i, j :: 0 <= i < j < |es| ==> es[i].sequence != es[j].sequence
    ensures Increasing(sorted)
  {
    forall i, j | 0 <= i < j < |sorted| ensures sorted[i].sequence < sorted[j].sequence {
      assert Earlier(sorted[i], sorted[j]);
      if sorted[i].sequence == sorted[j].sequence {
        assert sorted[i] in multiset(es) && sorted[j] in multiset(es);
        var k :| 0 <= k < |es| && es[k] == sorted[i];
        var l :| 0 <= l < |es| && es[l] == sorted[j];
        assert k == l;
        CountTwice(sorted, i, j);
        CountOnce(es, k);
      }
    }
  }

  lemma {:induction false} CountTwice(s: seq<RunEvent>, i: nat, j: nat)
    requires i < j < |s| && s[i] == s[j]
    ensures multiset(s)[s[i]] >= 2
  {
    assert s == s[..j] + s[j..];
    assert s[..j][i] == s[i] && s[j..][0] == s[i];
    assert s[i] in multiset(s[..j]) && s[i] in multiset(s[j..]);
  }

  lemma {:induction false} CountOnce(s: seq<RunEvent>, k: nat)
    requires k < |s| && forall i, j :: 0 <= i < j < |s| ==> s[i].sequence != s[j].sequence
    ensures multiset(s)[s[k]] == 1
  {
    assert s == s[..k] + [s[k]] + s[k + 1..];
    assert s[k] !in s[..k] && s[k] !in s[k + 1..];
    assert s[k] !in multiset(s[..k]) && s[k] !in multiset(s[k + 1..]);
  }

  lemma {:induction false} AboveIncreasing(es: seq<RunEvent>, mark: nat)
    requires Increasing(es)
    ensures Increasing(Above(es, mark))
  {
    if es != [] {
      var rest := es[1..];
      assert forall i :: 0 <= i < |rest| ==> rest[i] == es[i + 1];
      AboveIncreasing(rest, mark);
      if es[0].sequence > mark {
        forall j | 0 <= j < |Above(rest, mark)| ensures es[0].sequence < Above(rest, mark)[j].sequence {
          assert Above(rest, mark)[j] in Above(rest, mark);
          assert Above(rest, mark)[j] in rest;
        }
      }
    }
  }
}
