/**
 The client side of the live event stream: reads frames, removes duplicates, and reconnects with
 the id of the last event it saw until a terminal event arrives.
 */
module StreamClient {
  import opened Common
  import opened RunEvents
  import opened SseParser
  import ServerStream

  datatype ConnectionState = Connecting | Online | Reconnecting | Closed

  datatype ErrorKind = Auth | Http | Transport

  datatype StreamError = StreamError(kind: ErrorKind, retryable: bool, status: Option<nat>)

  datatype Ending = Done | ReadFails | AbortedWhileReading

  datatype Body = Body(chunks: seq<string>, ending: Ending)

  /** What the environment does in one attempt to read the stream. */
  datatype Attempt =
    | TokenFails
    | FetchFails
    | AbortedEarly
    | Response(status: nat, body: Option<Body>)

  datatype Client = Client(
    seenIds: set<EventId>,
    seenSequences: set<nat>,
    lastEventId: Option<string>,
    retryAttempt: nat,
    terminal: bool,
    delivered: seq<RunEvent>,       // calls of onEvent
    requested: seq<Option<string>>, // Last-Event-ID headers sent
    errors: seq<StreamError>,       // calls of onError
    waits: seq<nat>,                // delays before a new attempt, in milliseconds
    states: seq<ConnectionState>)   // calls of onConnectionChange

  datatype Fate = Again | Stopped | Raised

  const RETRY_BASE := 1200
  const RETRY_MAX := 9600

  function Power(n: nat): nat {
    if n == 0 then 1 else 2 * Power(n - 1)
  }

  function RetryDelay(attempt: nat): nat
    requires attempt >= 1
  {
    var d := RETRY_BASE * Power(attempt - 1);
    if d < RETRY_MAX then d else RETRY_MAX
  }

  function Highest(es: seq<RunEvent>): nat
    requires es != []
  {
    var last := es[|es| - 1].sequence;
    if |es| == 1 then last
    else
      var rest := Highest(es[..|es| - 1]);
      if last > rest then last else rest
  }

  function HighestSequence(es: seq<RunEvent>): Option<string> {
    if es == [] then None else Some(Decimal(Highest(es)))
  }

  function Ids(es: seq<RunEvent>): set<EventId> {
    set e | e in es :: e.id
  }

  function Sequences(es: seq<RunEvent>): set<nat> {
    set e | e in es :: e.sequence
  }

  function NewClient(persisted: seq<RunEvent>, lastEventId: Option<string>): Client {
    Client(Ids(persisted), Sequences(persisted),
      if lastEventId.Some? then lastEventId else HighestSequence(persisted),
      0, false, [], [], [], [], [])
  }

  function Current(c: Client): ConnectionState {
    if c.states == [] then Closed else c.states[|c.states| - 1]
  }

  function ChangeState(c: Client, state: ConnectionState): Client {
    if Current(c) == state then c else c.(states := c.states + [state])
  }

  function Header(c: Client): Option<string> {
    if c.lastEventId.Some? && c.lastEventId.value != "" then c.lastEventId else None
  }

  // ---- Frames ----

  function Receive(c: Client, id: Option<string>, e: RunEvent): Client {
    var seen := c.(retryAttempt := 0, terminal := Terminal(e),
                   lastEventId := if id.Some? then id else Some(Decimal(e.sequence)));
    if e.id in c.seenIds || e.sequence in c.seenSequences then seen
    else seen.(seenIds := c.seenIds + {e.id}, seenSequences := c.seenSequences + {e.sequence},
               delivered := c.delivered + [e])
  }

  /** Frames that hold no valid event are skipped. */
  function HandleFrame(parse: string -> Option<RunEvent>, c: Client, f: Frame): Client {
    if c.terminal then c
    else match parse(f.data)
      case None => c
      case Some(e) => Receive(c, f.id, e)
  }

  function HandleFrames(parse: string -> Option<RunEvent>, c: Client, fs: seq<Frame>): Client {
    if fs == [] then c else HandleFrame(parse, HandleFrames(parse, c, fs[..|fs| - 1]), fs[|fs| - 1])
  }

  // ---- Attempts ----

  function Fail(c: Client, error: StreamError): (Client, Fate) {
    var told := c.(errors := c.errors + [error]);
    if !error.retryable then (told, Raised)
    else
      var n := c.retryAttempt + 1;
      var waiting := ChangeState(told.(retryAttempt := n), Reconnecting);
      (waiting.(waits := waiting.waits + [RetryDelay(n)]), Again)
  }

  const BROKEN := StreamError(Transport, true, None)

  function EndBody(read: Client, ending: Ending): (Client, Fate) {
    if read.terminal || ending.AbortedWhileReading? then (read, Stopped) else Fail(read, BROKEN)
  }

  function ReadBody(parse: string -> Option<RunEvent>, c: Client, body: Body): (Client, Fate) {
    EndBody(HandleFrames(parse, ChangeState(c, Online), FeedAll(body.chunks).frames), body.ending)
  }

  function TryOnce(parse: string -> Option<RunEvent>, c: Client, a: Attempt): (Client, Fate) {
    match a
    case TokenFails => Fail(c, StreamError(Auth, false, None))
    case AbortedEarly => (c, Stopped)
    case FetchFails => Fail(c.(requested := c.requested + [Header(c)]), BROKEN)
    case Response(status, body) =>
      var asked := c.(requested := c.requested + [Header(c)]);
      if status == 401 || status == 403 then Fail(asked, StreamError(Auth, false, Some(status)))
      else if !(200 <= status <= 299) then Fail(asked, StreamError(Http, status >= 500, Some(status)))
      else match body
        case None => Fail(asked, StreamError(Transport, true, Some(status)))
        case Some(b) => ReadBody(parse, asked, b)
  }

  /** All attempts until one does not lead to another; when they run out, the caller has aborted. */
  function Attempts(parse: string -> Option<RunEvent>, c: Client, attempts: seq<Attempt>): (Client, Fate)
    decreases attempts
  {
    if attempts == [] then (c, Stopped)
    else
      var (next, fate) := TryOnce(parse, c, attempts[0]);
      if fate == Again then Attempts(parse, next, attempts[1..]) else (next, fate)
  }

  function Stream(parse: string -> Option<RunEvent>, c: Client, attempts: seq<Attempt>): (Client, Fate) {
    var begun := if attempts == [] then c else ChangeState(c, Connecting);
    var (last, fate) := Attempts(parse, begun, attempts);
    (ChangeState(last, Closed), fate)
  }

  // ---- The service as it is written ----

  class RunEventStream {
    const parse: string -> Option<RunEvent>
    var seenIds: set<EventId>
    var seenSequences: set<nat>
    var lastEventId: Option<string>
    var retryAttempt: nat
    var terminal: bool
    var connectionState: ConnectionState
    var delivered: seq<RunEvent>
    var requested: seq<Option<string>>
    var errors: seq<StreamError>
    var waits: seq<nat>
    var states: seq<ConnectionState>

    function State(): Client
      reads this
    {
      Client(seenIds, seenSequences, lastEventId, retryAttempt, terminal, delivered, requested, errors, waits, states)
    }

    predicate Valid()
      reads this
    {
      connectionState == Current(State())
    }

    constructor (parse: string -> Option<RunEvent>, persisted: seq<RunEvent>, after: Option<string>)
      ensures this.parse == parse && Valid() && State() == NewClient(persisted, after)
    {
      this.parse := parse;
      seenIds := Ids(persisted);
      seenSequences := Sequences(persisted);
      lastEventId := if after.Some? then after else HighestSequence(persisted);
      retryAttempt := 0;
      terminal := false;
      connectionState := Closed;
      delivered, requested, errors, waits, states := [], [], [], [], [];
    }

    method SwitchTo(state: ConnectionState)
      requires Valid()
      modifies this
      ensures Valid() && State() == ChangeState(old(State()), state)
    {
      if connectionState == state { return; }
      connectionState := state;
      states := states + [state];
    }

    method OnEvent(id: Option<string>, e: RunEvent)
      requires Valid()
      modifies `retryAttempt, `lastEventId, `seenIds, `seenSequences, `delivered, `terminal
      ensures State() == Receive(old(State()), id, e)
    {
      retryAttempt := 0;
      lastEventId := if id.Some? then id else Some(Decimal(e.sequence));
      var duplicate := e.id in seenIds || e.sequence in seenSequences;
      if !duplicate {
        seenIds := seenIds + {e.id};
        seenSequences := seenSequences + {e.sequence};
        delivered := delivered + [e];
      }
      terminal := Terminal(e);
    }

    method OnFrame(frame: Frame)
      requires Valid() && !terminal
      modifies this
      ensures Valid() && State() == HandleFrame(parse, old(State()), frame)
    {
      var parsed := parse(frame.data);
      if parsed.None? { return; }
      OnEvent(frame.id, parsed.value);
    }

    method OnFrames(frames: seq<Frame>)
      requires Valid() && !terminal
      modifies this
      ensures Valid() && State() == HandleFrames(parse, old(State()), frames)
    {
      var i := 0;
      while i < |frames| && !terminal
        invariant 0 <= i <= |frames| && Valid()
        invariant State() == HandleFrames(parse, old(State()), frames[..i])
      {
        assert frames[..i + 1][..i] == frames[..i];
        OnFrame(frames[i]);
        i := i + 1;
      }
      if terminal { StopsForGood(parse, old(State()), frames[..i], frames[i..]); }
      assert frames[..i] + frames[i..] == frames && (i == |frames| ==> frames[..i] == frames);
    }

    method OnError(error: StreamError) returns (fate: Fate)
      requires Valid()
      modifies this
      ensures Valid() && (State(), fate) == Fail(old(State()), error)
    {
      errors := errors + [error];
      if !error.retryable { return Raised; }
      retryAttempt := retryAttempt + 1;
      SwitchTo(Reconnecting);
      waits := waits + [RetryDelay(retryAttempt)];
      fate := Again;
    }

    /** The reading loop: each chunk is parsed behind the remainder of the one before. */
    method OnBody(body: Body) returns (fate: Fate)
      requires Valid() && !terminal
      modifies this
      ensures Valid() && (State(), fate) == ReadBody(parse, old(State()), body)
    {
      SwitchTo(Online);
      ghost var online := State();
      var buffer := "";
      var i := 0;
      while i < |body.chunks|
        invariant 0 <= i <= |body.chunks| && Valid() && !terminal
        invariant buffer == FeedAll(body.chunks[..i]).remainder
        invariant State() == HandleFrames(parse, online, FeedAll(body.chunks[..i]).frames)
      {
        var frames, remainder := ParseSseFrames(buffer + body.chunks[i]);
        FeedOneMore(body.chunks, i, frames, remainder);
        HandleMore(parse, online, FeedAll(body.chunks[..i]).frames, frames);
        buffer := remainder;
        OnFrames(frames);
        if terminal {
          RestIsIgnored(parse, online, body.chunks, i + 1);
          return Stopped;
        }
        i := i + 1;
      }
      assert body.chunks[..|body.chunks|] == body.chunks;
      if body.ending.AbortedWhileReading? { return Stopped; }
      fate := OnError(BROKEN);
    }

    method Try(a: Attempt) returns (fate: Fate)
      requires Valid() && !terminal
      modifies this
      ensures Valid() && (State(), fate) == TryOnce(parse, old(State()), a)
    {
      if a.TokenFails? {
        fate := OnError(StreamError(Auth, false, None));
        return;
      }
      if a.AbortedEarly? { return Stopped; }
      requested := requested + [if lastEventId.Some? && lastEventId.value != "" then lastEventId else None];
      if a.FetchFails? {
        fate := OnError(BROKEN);
      } else if a.status == 401 || a.status == 403 {
        fate := OnError(StreamError(Auth, false, Some(a.status)));
      } else if !(200 <= a.status <= 299) {
        fate := OnError(StreamError(Http, a.status >= 500, Some(a.status)));
      } else if a.body.None? {
        fate := OnError(StreamError(Transport, true, Some(a.status)));
      } else {
        fate := OnBody(a.body.value);
      }
    }

    /** `stream`: one attempt after the other. */
    method Run(attempts: seq<Attempt>) returns (fate: Fate)
      requires Valid() && !terminal
      modifies this
      ensures Valid() && (State(), fate) == Stream(parse, old(State()), attempts)
    {
      if attempts != [] { SwitchTo(Connecting); }
      ghost var begun := State();
      var i := 0;
      assert attempts[0..] == attempts;
      while i < |attempts|
        invariant 0 <= i <= |attempts| && Valid() && !terminal
        invariant Attempts(parse, begun, attempts) == Attempts(parse, State(), attempts[i..])
      {
        ghost var before := State();
        AttemptsFrom(parse, before, attempts, i);
        AgainMeansOpen(parse, before, attempts[i]);
        fate := Try(attempts[i]);
        if fate != Again {
          SwitchTo(Closed);
          return;
        }
        i := i + 1;
      }
      fate := Stopped;
      SwitchTo(Closed);
    }
  }

  lemma {:induction false} HandleMore(parse: string -> Option<RunEvent>, c: Client, a: seq<Frame>, b: seq<Frame>)
    ensures HandleFrames(parse, c, a + b) == HandleFrames(parse, HandleFrames(parse, c, a), b)
  {
    if b == [] {
      assert a + b == a;
    } else {
      assert (a + b)[..|a + b| - 1] == a + b[..|b| - 1];
      HandleMore(parse, c, a, b[..|b| - 1]);
    }
  }

  /** After a terminal event no frame has any effect. */
  lemma {:induction false} StopsForGood(parse: string -> Option<RunEvent>, c: Client, a: seq<Frame>, b: seq<Frame>)
    requires HandleFrames(parse, c, a).terminal
    ensures HandleFrames(parse, c, a + b) == HandleFrames(parse, c, a)
  {
    if b == [] {
      assert a + b == a;
    } else {
      assert (a + b)[..|a + b| - 1] == a + b[..|b| - 1];
      StopsForGood(parse, c, a, b[..|b| - 1]);
    }
  }

  lemma {:induction false} FeedOneMore(chunks: seq<string>, n: nat, frames: seq<Frame>, remainder: string)
    requires n < |chunks|
    requires Parsed(frames, remainder) == ParseSse(FeedAll(chunks[..n]).remainder + chunks[n])
    ensures FeedAll(chunks[..n + 1]) == Parsed(FeedAll(chunks[..n]).frames + frames, remainder)
  {
    assert chunks[..n + 1][..n] == chunks[..n];
  }

  lemma {:induction false} FramesGrow(chunks: seq<string>, n: nat)
    requires n <= |chunks|
    ensures FeedAll(chunks[..n]).frames <= FeedAll(chunks).frames
  {
    if n == |chunks| {
      assert chunks[..n] == chunks;
    } else {
      FramesGrow(chunks[..|chunks| - 1], n);
      assert chunks[..|chunks| - 1][..n] == chunks[..n];
    }
  }

  /** A terminal event among the first chunks makes the other chunks irrelevant. */
  lemma {:induction false} RestIsIgnored(parse: string -> Option<RunEvent>, c: Client, chunks: seq<string>, n: nat)
    requires n <= |chunks| && HandleFrames(parse, c, FeedAll(chunks[..n]).frames).terminal
    ensures HandleFrames(parse, c, FeedAll(chunks[..n]).frames) == HandleFrames(parse, c, FeedAll(chunks).frames)
  {
    var all, read := FeedAll(chunks).frames, FeedAll(chunks[..n]).frames;
    FramesGrow(chunks, n);
    StopsForGood(parse, c, read, all[|read|..]);
    assert read + all[|read|..] == all;
  }

  lemma {:induction false} AgainMeansOpen(parse: string -> Option<RunEvent>, c: Client, a: Attempt)
    requires !c.terminal
    ensures TryOnce(parse, c, a).1 == Again ==> !TryOnce(parse, c, a).0.terminal
  {
  }

  // ---- A whole run is one reading of all its frames ----

  /** What matters for deliveries: not the connection, the backoff or the calls made. */
  predicate SameReading(c: Client, d: Client) {
    c.seenIds == d.seenIds && c.seenSequences == d.seenSequences && c.lastEventId == d.lastEventId
    && c.terminal == d.terminal && c.delivered == d.delivered
  }

  lemma {:induction false} SameFrames(parse: string -> Option<RunEvent>, c: Client, d: Client, fs: seq<Frame>)
    requires SameReading(c, d)
    ensures SameReading(HandleFrames(parse, c, fs), HandleFrames(parse, d, fs))
  {
    if fs != [] { SameFrames(parse, c, d, fs[..|fs| - 1]); }
  }

  /** The attempt gets as far as a body to read. */
  predicate HasBody(a: Attempt) {
    a.Response? && 200 <= a.status <= 299 && a.body.Some?
  }

  function Asked(c: Client): Client {
    c.(requested := c.requested + [Header(c)])
  }

  lemma {:induction false} TryReading(parse: string -> Option<RunEvent>, c: Client, a: Attempt)
    requires HasBody(a)
    ensures TryOnce(parse, c, a) == ReadBody(parse, Asked(c), a.body.value)
  {
  }

  lemma {:induction false} TryFailing(parse: string -> Option<RunEvent>, c: Client, a: Attempt)
    returns (d: Client, error: StreamError)
    requires !HasBody(a) && !a.AbortedEarly?
    ensures TryOnce(parse, c, a) == Fail(d, error) && (d == c || d == Asked(c))
  {
    match a
    case TokenFails => d, error := c, StreamError(Auth, false, None);
    case FetchFails => d, error := Asked(c), BROKEN;
    case Response(status, body) =>
      d := Asked(c);
      error :=
        if status == 401 || status == 403 then StreamError(Auth, false, Some(status))
        else if !(200 <= status <= 299) then StreamError(Http, status >= 500, Some(status))
        else StreamError(Transport, true, Some(status));
  }

  /** The frames an attempt brings. */
  function Brought(a: Attempt): seq<Frame> {
    if HasBody(a) then FeedAll(a.body.value.chunks).frames else []
  }

  lemma {:induction false} EndReads(read: Client, ending: Ending)
    ensures SameReading(EndBody(read, ending).0, read)
  {
  }

  lemma {:induction false} BodyReads(parse: string -> Option<RunEvent>, c: Client, body: Body)
    ensures SameReading(ReadBody(parse, c, body).0, HandleFrames(parse, c, FeedAll(body.chunks).frames))
  {
    var fs := FeedAll(body.chunks).frames;
    SameFrames(parse, c, ChangeState(c, Online), fs);
    EndReads(HandleFrames(parse, ChangeState(c, Online), fs), body.ending);
  }

  lemma {:induction false} TryReads(parse: string -> Option<RunEvent>, c: Client, a: Attempt)
    ensures SameReading(TryOnce(parse, c, a).0, HandleFrames(parse, c, Brought(a)))
  {
    if HasBody(a) {
      TryReading(parse, c, a);
      BodyReads(parse, Asked(c), a.body.value);
      SameFrames(parse, c, Asked(c), Brought(a));
    } else if !a.AbortedEarly? {
      var d, error := TryFailing(parse, c, a);
    }
  }

  function ReadAltogether(parse: string -> Option<RunEvent>, c: Client, attempts: seq<Attempt>): seq<Frame>
    decreases attempts
  {
    if attempts == [] then []
    else
      var (next, fate) := TryOnce(parse, c, attempts[0]);
      Brought(attempts[0]) + if fate == Again then ReadAltogether(parse, next, attempts[1..]) else []
  }

  /** Reconnecting any number of times delivers what one uninterrupted reading would deliver. */
  lemma {:induction false} AttemptsAreOneReading(parse: string -> Option<RunEvent>, c: Client, attempts: seq<Attempt>)
    ensures SameReading(Attempts(parse, c, attempts).0, HandleFrames(parse, c, ReadAltogether(parse, c, attempts)))
    decreases attempts
  {
    if attempts != [] {
      var (next, fate) := TryOnce(parse, c, attempts[0]);
      var first := Brought(attempts[0]);
      TryReads(parse, c, attempts[0]);
      if fate == Again {
        var rest := ReadAltogether(parse, next, attempts[1..]);
        AttemptsAreOneReading(parse, next, attempts[1..]);
        HandleMore(parse, c, first, rest);
        SameFrames(parse, next, HandleFrames(parse, c, first), rest);
      } else {
        assert first + [] == first;
      }
    }
  }

  // ---- At most once ----

  predicate DistinctEvents(es: seq<RunEvent>) {
    && (forall i, j :: 0 <= i < j < |es| ==> es[i].id != es[j].id)
    && (forall i, j :: 0 <= i < j < |es| ==> es[i].sequence != es[j].sequence)
  }

  predicate NewTo(ids: set<EventId>, sequences: set<nat>, es: seq<RunEvent>) {
    forall i :: 0 <= i < |es| ==> es[i].id !in ids && es[i].sequence !in sequences
  }

  predicate NoTerminal(es: seq<RunEvent>) {
    forall i :: 0 <= i < |es| ==> !Terminal(es[i])
  }

  /** What was delivered is new and pairwise distinct; only the last delivery may be terminal. */
  predicate AtMostOnce(ids: set<EventId>, sequences: set<nat>, c: Client) {
    && DistinctEvents(c.delivered)
    && NewTo(ids, sequences, c.delivered)
    && c.seenIds == ids + Ids(c.delivered) && c.seenSequences == sequences + Sequences(c.delivered)
    && EndsWell(c.delivered, c.terminal)
  }

  predicate EndsWell(es: seq<RunEvent>, terminal: bool) {
    if terminal && es != [] then NoTerminal(es[..|es| - 1]) else NoTerminal(es)
  }

  lemma {:induction false} SeenGrows(es: seq<RunEvent>, e: RunEvent)
    ensures Ids(es + [e]) == Ids(es) + {e.id} && Sequences(es + [e]) == Sequences(es) + {e.sequence}
  {
    assert forall x :: x in es + [e] <==> x in es || x == e;
  }

  lemma {:induction false} DistinctGrow(es: seq<RunEvent>, e: RunEvent)
    requires DistinctEvents(es) && e.id !in Ids(es) && e.sequence !in Sequences(es)
    ensures DistinctEvents(es + [e])
  {
    forall i | 0 <= i < |es| ensures es[i].id != e.id && es[i].sequence != e.sequence {
      assert es[i].id in Ids(es) && es[i].sequence in Sequences(es);
    }
  }

  lemma {:induction false} EndsWithNext(es: seq<RunEvent>, e: RunEvent)
    requires EndsWell(es, false)
    ensures EndsWell(es, Terminal(e)) && EndsWell(es + [e], Terminal(e))
  {
    assert (es + [e])[..|es|] == es;
  }

  lemma {:induction false} NewGrow(ids: set<EventId>, sequences: set<nat>, es: seq<RunEvent>, e: RunEvent)
    requires NewTo(ids, sequences, es) && e.id !in ids && e.sequence !in sequences
    ensures NewTo(ids, sequences, es + [e])
  {
  }

  lemma {:induction false} ReceiveOnce(
      ids: set<EventId>, sequences: set<nat>, c: Client, id: Option<string>, e: RunEvent)
    requires AtMostOnce(ids, sequences, c) && !c.terminal
    ensures AtMostOnce(ids, sequences, Receive(c, id, e))
  {
    EndsWithNext(c.delivered, e);
    if e.id in c.seenIds || e.sequence in c.seenSequences {
      ReceiveAgain(c, id, e);
    } else {
      var d := Receive(c, id, e);
      SeenGrows(c.delivered, e);
      DistinctGrow(c.delivered, e);
      NewGrow(ids, sequences, c.delivered, e);
      assert d.seenIds == ids + (Ids(c.delivered) + {e.id});
      assert d.seenSequences == sequences + (Sequences(c.delivered) + {e.sequence});
    }
  }

  lemma {:induction false} ReceiveAgain(c: Client, id: Option<string>, e: RunEvent)
    requires e.id in c.seenIds || e.sequence in c.seenSequences
    ensures var d := Receive(c, id, e);
      d.delivered == c.delivered && d.seenIds == c.seenIds && d.seenSequences == c.seenSequences
  {
  }

  lemma {:induction false} FramesOnce(parse: string -> Option<RunEvent>, c: Client, fs: seq<Frame>)
    requires c.delivered == [] && !c.terminal
    ensures AtMostOnce(c.seenIds, c.seenSequences, HandleFrames(parse, c, fs))
  {
    if fs == [] {
      assert Ids(c.delivered) == {} && Sequences(c.delivered) == {};
    } else {
      FramesOnce(parse, c, fs[..|fs| - 1]);
      var d, f := HandleFrames(parse, c, fs[..|fs| - 1]), fs[|fs| - 1];
      if !d.terminal && parse(f.data).Some? {
        ReceiveOnce(c.seenIds, c.seenSequences, d, f.id, parse(f.data).value);
      }
    }
  }

  predicate TerminalFrame(parse: string -> Option<RunEvent>, f: Frame) {
    parse(f.data).Some? && Terminal(parse(f.data).value)
  }

  predicate BringsTerminal(parse: string -> Option<RunEvent>, fs: seq<Frame>) {
    exists i :: 0 <= i < |fs| && TerminalFrame(parse, fs[i])
  }

  lemma {:induction false} TerminalExactly(parse: string -> Option<RunEvent>, c: Client, fs: seq<Frame>)
    requires !c.terminal
    ensures HandleFrames(parse, c, fs).terminal <==> BringsTerminal(parse, fs)
  {
    if fs != [] {
      var init := fs[..|fs| - 1];
      TerminalExactly(parse, c, init);
      assert forall i :: 0 <= i < |init| ==> init[i] == fs[i];
    }
  }

  /** Frames behind a terminal event, new or seen before, contribute nothing. */
  lemma {:induction false} NothingBehind(parse: string -> Option<RunEvent>, c: Client, fs: seq<Frame>, n: nat)
    requires !c.terminal && n < |fs| && TerminalFrame(parse, fs[n])
    ensures HandleFrames(parse, c, fs) == HandleFrames(parse, c, fs[..n + 1])
  {
    assert fs[..n + 1][n] == fs[n];
    TerminalExactly(parse, c, fs[..n + 1]);
    StopsForGood(parse, c, fs[..n + 1], fs[n + 1..]);
    assert fs[..n + 1] + fs[n + 1..] == fs;
  }

  /**
   Whatever the network does (drops, partial reads, replays, errors), an event is delivered at most
   once per id and per sequence, never again if it was persisted, and nothing follows the first
   terminal event.  That event need not be new: of all frames brought, the deliveries are those of
   the frames up to any terminal one.
   */
  lemma {:induction false} DeliversAtMostOnce(
      parse: string -> Option<RunEvent>, persisted: seq<RunEvent>, after: Option<string>, attempts: seq<Attempt>)
    ensures AtMostOnce(Ids(persisted), Sequences(persisted), Stream(parse, NewClient(persisted, after), attempts).0)
    ensures var begun := ChangeState(NewClient(persisted, after), Connecting);
      var all := ReadAltogether(parse, begun, attempts);
      forall n :: 0 <= n < |all| && TerminalFrame(parse, all[n]) ==>
        Stream(parse, NewClient(persisted, after), attempts).0.delivered
          == HandleFrames(parse, begun, all[..n + 1]).delivered
  {
    var c := NewClient(persisted, after);
    var begun := if attempts == [] then c else ChangeState(c, Connecting);
    var all := ReadAltogether(parse, begun, attempts);
    AttemptsAreOneReading(parse, begun, attempts);
    FramesOnce(parse, begun, all);
    SameOnce(Ids(persisted), Sequences(persisted), HandleFrames(parse, begun, all), Attempts(parse, begun, attempts).0);
    forall n | 0 <= n < |all| && TerminalFrame(parse, all[n])
      ensures Stream(parse, c, attempts).0.delivered == HandleFrames(parse, begun, all[..n + 1]).delivered
    {
      NothingBehind(parse, begun, all, n);
    }
  }

  lemma {:induction false} SameOnce(ids: set<EventId>, sequences: set<nat>, c: Client, d: Client)
    requires AtMostOnce(ids, sequences, c) && SameReading(d, c)
    ensures AtMostOnce(ids, sequences, ChangeState(d, Closed))
  {
  }

  // ---- Backoff ----

  /** The attempt brings at least one valid event that is looked at. */
  predicate Lively(parse: string -> Option<RunEvent>, a: Attempt) {
    exists i :: 0 <= i < |Brought(a)| && parse(Brought(a)[i].data).Some?
  }

  /** Which attempts bring an event. */
  function Signs(parse: string -> Option<RunEvent>, attempts: seq<Attempt>): seq<bool> {
    seq(|attempts|, i requires 0 <= i < |attempts| => Lively(parse, attempts[i]))
  }

  /** Failures in a row up to attempt n, counting from the last attempt that brought an event. */
  function Row(lively: seq<bool>, n: nat): (r: nat)
    requires n < |lively|
    ensures r >= 1
  {
    if n == 0 || lively[n] then 1 else 1 + Row(lively, n - 1)
  }

  lemma {:induction false} FramesAndRetries(parse: string -> Option<RunEvent>, c: Client, fs: seq<Frame>)
    requires !HandleFrames(parse, c, fs).terminal
    ensures var d := HandleFrames(parse, c, fs);
      && d.waits == c.waits && d.states == c.states && d.errors == c.errors && d.requested == c.requested
      && d.retryAttempt == if exists i :: 0 <= i < |fs| && parse(fs[i].data).Some? then 0 else c.retryAttempt
  {
    if fs != [] {
      var init := fs[..|fs| - 1];
      FramesAndRetries(parse, c, init);
      assert forall i :: 0 <= i < |init| ==> init[i] == fs[i];
    }
  }

  /** An attempt that leads to another one waits once, longer after each failure in a row. */
  lemma {:induction false} TryWaits(parse: string -> Option<RunEvent>, c: Client, a: Attempt)
    requires TryOnce(parse, c, a).1 == Again
    ensures var d := TryOnce(parse, c, a).0;
      && d.retryAttempt == (if Lively(parse, a) then 1 else c.retryAttempt + 1)
      && d.waits == c.waits + [RetryDelay(d.retryAttempt)]
  {
    if HasBody(a) {
      TryReading(parse, c, a);
      FramesAndRetries(parse, ChangeState(Asked(c), Online), Brought(a));
    } else if !a.AbortedEarly? {
      var d, error := TryFailing(parse, c, a);
    }
  }

  /** The first n waits, each for the failures in a row up to its attempt. */
  function Delays(lively: seq<bool>, n: nat): (waits: seq<nat>)
    requires n <= |lively|
    ensures |waits| == n
  {
    if n == 0 then [] else Delays(lively, n - 1) + [RetryDelay(Row(lively, n - 1))]
  }

  lemma {:induction false} DelayAt(lively: seq<bool>, n: nat, i: nat)
    requires i < n <= |lively|
    ensures Delays(lively, n)[i] == RetryDelay(Row(lively, i))
  {
    if i < n - 1 { DelayAt(lively, n - 1, i); }
  }

  lemma {:induction false} AttemptsFrom(parse: string -> Option<RunEvent>, c: Client, attempts: seq<Attempt>, k: nat)
    requires k < |attempts|
    ensures var (next, fate) := TryOnce(parse, c, attempts[k]);
      Attempts(parse, c, attempts[k..]) ==
        if fate == Again then Attempts(parse, next, attempts[k + 1..]) else (next, fate)
  {
    assert attempts[k..][0] == attempts[k] && attempts[k..][1..] == attempts[k + 1..];
  }

  /** After k attempts the client has waited for each of them, and counts the failures in a row. */
  predicate Paced(lively: seq<bool>, c: Client, k: nat) {
    && k <= |lively| && c.waits == Delays(lively, k)
    && c.retryAttempt == if k == 0 then 0 else Row(lively, k - 1)
  }

  lemma {:induction false} PacedNext(lively: seq<bool>, c: Client, d: Client, k: nat)
    requires Paced(lively, c, k) && k < |lively|
    requires d.retryAttempt == if lively[k] then 1 else c.retryAttempt + 1
    requires d.waits == c.waits + [RetryDelay(d.retryAttempt)]
    ensures Paced(lively, d, k + 1)
  {
  }

  lemma {:induction false} TryPaced(
      parse: string -> Option<RunEvent>, c: Client, a: Attempt, lively: seq<bool>, k: nat)
    requires Paced(lively, c, k) && k < |lively| && lively[k] == Lively(parse, a)
    ensures var (next, fate) := TryOnce(parse, c, a);
      if fate == Again then Paced(lively, next, k + 1) else next.waits == c.waits
  {
    var (next, fate) := TryOnce(parse, c, a);
    if fate == Again {
      TryWaits(parse, c, a);
      PacedNext(lively, c, next, k);
    } else {
      LastKeepsWaits(parse, c, a);
    }
  }

  lemma {:induction false} SignsTail(
      parse: string -> Option<RunEvent>, attempts: seq<Attempt>, lively: seq<bool>, k: nat)
    requires k <= |lively| && lively[k..] == Signs(parse, attempts) && attempts != []
    ensures k < |lively| && lively[k] == Lively(parse, attempts[0]) && lively[k + 1..] == Signs(parse, attempts[1..])
  {
    assert lively[k] == lively[k..][0] && lively[k + 1..] == lively[k..][1..];
  }

  /** The waits of a run, where `lively` says which attempts bring an event, k of them made before. */
  lemma {:induction false} AttemptsWait(
      parse: string -> Option<RunEvent>, c: Client, attempts: seq<Attempt>, lively: seq<bool>, k: nat)
    returns (n: nat)
    requires Paced(lively, c, k) && lively[k..] == Signs(parse, attempts)
    ensures n <= |lively| && Attempts(parse, c, attempts).0.waits == Delays(lively, n)
    decreases attempts
  {
    n := k;
    if attempts != [] {
      SignsTail(parse, attempts, lively, k);
      TryPaced(parse, c, attempts[0], lively, k);
      if TryOnce(parse, c, attempts[0]).1 == Again {
        n := AttemptsWait(parse, TryOnce(parse, c, attempts[0]).0, attempts[1..], lively, k + 1);
      }
    }
  }

  lemma {:induction false} LastKeepsWaits(parse: string -> Option<RunEvent>, c: Client, a: Attempt)
    requires TryOnce(parse, c, a).1 != Again
    ensures TryOnce(parse, c, a).0.waits == c.waits
  {
    if HasBody(a) {
      TryReading(parse, c, a);
      FramesKeepWaits(parse, ChangeState(Asked(c), Online), Brought(a));
    } else if !a.AbortedEarly? {
      var d, error := TryFailing(parse, c, a);
    }
  }

  lemma {:induction false} FramesKeepWaits(parse: string -> Option<RunEvent>, c: Client, fs: seq<Frame>)
    ensures HandleFrames(parse, c, fs).waits == c.waits && HandleFrames(parse, c, fs).states == c.states
  {
    if fs != [] { FramesKeepWaits(parse, c, fs[..|fs| - 1]); }
  }

  lemma {:induction false} PowerGrows(n: nat)
    ensures Power(n) >= 1 && (n >= 3 ==> Power(n) >= 8)
  {
    if n > 0 { PowerGrows(n - 1); }
  }

  lemma {:induction false} DelayOfRow(row: nat)
    requires row >= 1
    ensures RetryDelay(row) == if row == 1 then 1200 else if row == 2 then 2400 else if row == 3 then 4800 else 9600
  {
    PowerGrows(row - 1);
    assert Power(1) == 2 && Power(2) == 4;
  }

  /**
   Backoff: the wait after attempt n depends only on the failures in a row since an event last came
   in.  It is 1200 ms, 2400 ms, 4800 ms for the first three of them and 9600 ms from then on.
   */
  lemma {:induction false} BackoffIsBounded(
      parse: string -> Option<RunEvent>, persisted: seq<RunEvent>, after: Option<string>, attempts: seq<Attempt>)
    ensures var waits := Stream(parse, NewClient(persisted, after), attempts).0.waits;
      |waits| <= |attempts| && forall n :: 0 <= n < |waits| ==>
        var row := Row(Signs(parse, attempts), n);
        waits[n] == if row == 1 then 1200 else if row == 2 then 2400 else if row == 3 then 4800 else 9600
  {
    var c := NewClient(persisted, after);
    var begun := if attempts == [] then c else ChangeState(c, Connecting);
    var end := AttemptsWait(parse, begun, attempts, Signs(parse, attempts), 0);
    var waits := Stream(parse, c, attempts).0.waits;
    forall n | 0 <= n < |waits|
      ensures var row := Row(Signs(parse, attempts), n);
        waits[n] == if row == 1 then 1200 else if row == 2 then 2400 else if row == 3 then 4800 else 9600
    {
      DelayAt(Signs(parse, attempts), end, n);
      DelayOfRow(Row(Signs(parse, attempts), n));
    }
  }

  // ---- When a stream gives up ----

  /** A failure that retrying cannot cure. */
  predicate Fatal(a: Attempt) {
    a.TokenFails? || (a.Response? && !(200 <= a.status <= 299) && (a.status < 500))
  }

  /** A failure after which the client tries again. */
  predicate Recoverable(parse: string -> Option<RunEvent>, a: Attempt) {
    || a.FetchFails?
    || (a.Response? && !Fatal(a)
        && (200 <= a.status <= 299 && a.body.Some? ==>
            !a.body.value.ending.AbortedWhileReading? && !BringsTerminal(parse, Brought(a))))
  }

  lemma {:induction false} FateOfTry(parse: string -> Option<RunEvent>, c: Client, a: Attempt)
    requires !c.terminal
    ensures TryOnce(parse, c, a).1 == Raised <==> Fatal(a)
    ensures TryOnce(parse, c, a).1 == Again <==> Recoverable(parse, a)
  {
    if HasBody(a) {
      TryReading(parse, c, a);
      TerminalExactly(parse, ChangeState(Asked(c), Online), Brought(a));
    }
  }

  predicate GivesUpAt(parse: string -> Option<RunEvent>, attempts: seq<Attempt>, n: nat) {
    n < |attempts| && Fatal(attempts[n]) && forall i :: 0 <= i < n ==> Recoverable(parse, attempts[i])
  }

  lemma {:induction false} GivesUpLater(parse: string -> Option<RunEvent>, attempts: seq<Attempt>)
    requires attempts != [] && Recoverable(parse, attempts[0])
    ensures (exists n :: GivesUpAt(parse, attempts, n)) <==> (exists n :: GivesUpAt(parse, attempts[1..], n))
  {
    var rest := attempts[1..];
    assert forall i :: 0 <= i < |rest| ==> rest[i] == attempts[i + 1];
    if n: nat :| GivesUpAt(parse, rest, n) {
      assert GivesUpAt(parse, attempts, n + 1);
    }
    if n: nat :| GivesUpAt(parse, attempts, n) {
      assert n > 0 && GivesUpAt(parse, rest, n - 1);
    }
  }

  lemma {:induction false} GivesUpExactly(parse: string -> Option<RunEvent>, c: Client, attempts: seq<Attempt>)
    requires !c.terminal
    ensures Attempts(parse, c, attempts).1 == Raised <==> exists n :: GivesUpAt(parse, attempts, n)
    decreases attempts
  {
    if attempts != [] {
      var (next, fate) := TryOnce(parse, c, attempts[0]);
      FateOfTry(parse, c, attempts[0]);
      AgainMeansOpen(parse, c, attempts[0]);
      if fate == Again {
        GivesUpExactly(parse, next, attempts[1..]);
        GivesUpLater(parse, attempts);
      } else if fate == Raised {
        assert GivesUpAt(parse, attempts, 0);
      }
    }
  }

  /** The stream raises exactly when a fatal failure comes after nothing but recoverable ones. */
  lemma {:induction false} RaisesExactly(
      parse: string -> Option<RunEvent>, persisted: seq<RunEvent>, after: Option<string>, attempts: seq<Attempt>)
    ensures Stream(parse, NewClient(persisted, after), attempts).1 == Raised
      <==> exists n :: GivesUpAt(parse, attempts, n)
  {
    var c := NewClient(persisted, after);
    GivesUpExactly(parse, if attempts == [] then c else ChangeState(c, Connecting), attempts);
  }

  // ---- Connection states ----

  /** No state is announced twice in a row, and connecting only at the start. */
  predicate WellAnnounced(states: seq<ConnectionState>) {
    && (forall i :: 0 < i < |states| ==> states[i] != states[i - 1] && states[i] != Connecting)
    && (states != [] ==> states[0] == Connecting)
  }

  /** Once begun, the client is connecting, online or reconnecting until it ends. */
  predicate Begun(c: Client) {
    c.states != [] && WellAnnounced(c.states) && NotClosed(c.states)
  }

  predicate NotClosed(states: seq<ConnectionState>) {
    forall i :: 0 <= i < |states| ==> states[i] != Closed
  }

  lemma {:induction false} AnnounceKeeps(c: Client, state: ConnectionState)
    requires Begun(c) && state in {Online, Reconnecting}
    ensures Begun(ChangeState(c, state))
  {
  }

  lemma {:induction false} AnnounceEnd(c: Client)
    requires Begun(c)
    ensures ChangeState(c, Closed).states == c.states + [Closed] && WellAnnounced(c.states + [Closed])
  {
  }

  lemma {:induction false} FailBegun(c: Client, error: StreamError)
    requires Begun(c)
    ensures Begun(Fail(c, error).0)
  {
    AnnounceKeeps(c.(errors := c.errors + [error], retryAttempt := c.retryAttempt + 1), Reconnecting);
  }

  lemma {:induction false} TryBegun(parse: string -> Option<RunEvent>, c: Client, a: Attempt)
    requires Begun(c)
    ensures Begun(TryOnce(parse, c, a).0)
  {
    if HasBody(a) {
      TryReading(parse, c, a);
      AnnounceKeeps(Asked(c), Online);
      var online := ChangeState(Asked(c), Online);
      FramesKeepWaits(parse, online, Brought(a));
      FailBegun(HandleFrames(parse, online, Brought(a)), BROKEN);
    } else if !a.AbortedEarly? {
      var d, error := TryFailing(parse, c, a);
      FailBegun(d, error);
    }
  }

  lemma {:induction false} AttemptsBegun(parse: string -> Option<RunEvent>, c: Client, attempts: seq<Attempt>)
    requires Begun(c)
    ensures Begun(Attempts(parse, c, attempts).0)
    decreases attempts
  {
    if attempts != [] {
      TryBegun(parse, c, attempts[0]);
      if TryOnce(parse, c, attempts[0]).1 == Again {
        AttemptsBegun(parse, TryOnce(parse, c, attempts[0]).0, attempts[1..]);
      }
    }
  }

  /** Whatever happens, the announced states begin with connecting, never repeat, and end with closed. */
  lemma {:induction false} AnnouncesProperly(
      parse: string -> Option<RunEvent>, persisted: seq<RunEvent>, after: Option<string>, attempts: seq<Attempt>)
    ensures var states := Stream(parse, NewClient(persisted, after), attempts).0.states;
      && WellAnnounced(states)
      && (if attempts == [] then states == []
          else |states| >= 2 && states[|states| - 1] == Closed && NotClosed(states[..|states| - 1]))
  {
    if attempts != [] {
      var begun := ChangeState(NewClient(persisted, after), Connecting);
      var last := Attempts(parse, begun, attempts).0;
      AttemptsBegun(parse, begun, attempts);
      AnnounceEnd(last);
      assert (last.states + [Closed])[..|last.states|] == last.states;
    }
  }

  // ---- Against a server whose streams increase ----

  function Position(c: Client): nat {
    ServerStream.AfterSequence(Header(c))
  }

  /** Different sequences have different ids. */
  ghost predicate Injective(idOf: nat -> EventId) {
    forall m, n :: m != n ==> idOf(m) != idOf(n)
  }

  /** Frame `f` is skipped, or it carries an event above `low` under its own sequence number. */
  predicate GoodFrame(parse: string -> Option<RunEvent>, idOf: nat -> EventId, f: Frame, low: nat) {
    parse(f.data).Some? ==>
      var e := parse(f.data).value;
      e.sequence > low && e.id == idOf(e.sequence) && f.id in {None, Some(Decimal(e.sequence))}
  }

  predicate InOrder(parse: string -> Option<RunEvent>, f: Frame, g: Frame) {
    parse(f.data).Some? && parse(g.data).Some? ==> parse(f.data).value.sequence < parse(g.data).value.sequence
  }

  /** The sequences increase strictly above `low`. */
  predicate IncreasingFrames(parse: string -> Option<RunEvent>, idOf: nat -> EventId, fs: seq<Frame>, low: nat) {
    && (forall i :: 0 <= i < |fs| ==> GoodFrame(parse, idOf, fs[i], low))
    && (forall i, j :: 0 <= i < j < |fs| ==> InOrder(parse, fs[i], fs[j]))
  }

  /** Every connection serves increasing events above the position the client asks for. */
  predicate IncreasingServer(parse: string -> Option<RunEvent>, idOf: nat -> EventId, c: Client, attempts: seq<Attempt>)
    decreases attempts
  {
    attempts != [] ==>
      IncreasingFrames(parse, idOf, Brought(attempts[0]), Position(c))
      && (TryOnce(parse, c, attempts[0]).1 == Again ==>
          IncreasingServer(parse, idOf, TryOnce(parse, c, attempts[0]).0, attempts[1..]))
  }

  /** `top` is the highest sequence seen, and it is the last event id. */
  ghost predicate AtTop(idOf: nat -> EventId, c: Client, top: nat) {
    && (forall n :: n in c.seenSequences ==> n <= top)
    && (forall id :: id in c.seenIds ==> exists n: nat :: n <= top && id == idOf(n))
    && (if c.lastEventId.None? then c.seenSequences == {} && top == 0
        else top in c.seenSequences && c.lastEventId.value == Decimal(top))
  }

  lemma {:induction false} PositionIsTop(idOf: nat -> EventId, c: Client, top: nat)
    requires AtTop(idOf, c, top)
    ensures Position(c) == top
  {
    ParseDecimalInverts(top);
  }

  lemma {:induction false} ReceiveTop(idOf: nat -> EventId, c: Client, id: Option<string>, e: RunEvent, top: nat)
    requires Injective(idOf) && AtTop(idOf, c, top)
    requires e.sequence > top && e.id == idOf(e.sequence) && id in {None, Some(Decimal(e.sequence))}
    ensures AtTop(idOf, Receive(c, id, e), e.sequence)
  {
    assert e.id !in c.seenIds;
    var d := Receive(c, id, e);
    forall x | x in d.seenIds ensures exists n: nat :: n <= e.sequence && x == idOf(n) {
      if x != e.id {
        var n: nat :| n <= top && x == idOf(n);
        assert n <= e.sequence;
      }
    }
  }

  /** `top` is `low`, or the sequence of an event in the frames. */
  predicate Reached(parse: string -> Option<RunEvent>, fs: seq<Frame>, low: nat, top: nat) {
    top == low || exists i :: 0 <= i < |fs| && parse(fs[i].data).Some? && parse(fs[i].data).value.sequence == top
  }

  lemma {:induction false} IncreasingInit(
      parse: string -> Option<RunEvent>, idOf: nat -> EventId, fs: seq<Frame>, n: nat, low: nat)
    requires n < |fs| && IncreasingFrames(parse, idOf, fs, low)
    ensures IncreasingFrames(parse, idOf, fs[..n], low)
    ensures forall top :: Reached(parse, fs[..n], low, top) ==> Reached(parse, fs, low, top)
    ensures forall top :: Reached(parse, fs[..n], low, top) && parse(fs[n].data).Some? ==>
      parse(fs[n].data).value.sequence > top
  {
    var init := fs[..n];
    assert forall i :: 0 <= i < n ==> init[i] == fs[i];
    assert GoodFrame(parse, idOf, fs[n], low);
    forall top | Reached(parse, init, low, top)
      ensures Reached(parse, fs, low, top)
      ensures parse(fs[n].data).Some? ==> parse(fs[n].data).value.sequence > top
    {
      if top != low {
        var i :| 0 <= i < |init| && parse(init[i].data).Some? && parse(init[i].data).value.sequence == top;
        assert InOrder(parse, fs[i], fs[n]);
      }
    }
  }

  lemma {:induction false} FramesTop(
      parse: string -> Option<RunEvent>, idOf: nat -> EventId, c: Client, fs: seq<Frame>, low: nat)
    returns (top: nat)
    requires Injective(idOf) && AtTop(idOf, c, low) && IncreasingFrames(parse, idOf, fs, low)
    ensures AtTop(idOf, HandleFrames(parse, c, fs), top) && Reached(parse, fs, low, top)
  {
    if fs == [] {
      top := low;
    } else {
      var n := |fs| - 1;
      var f := fs[n];
      IncreasingInit(parse, idOf, fs, n, low);
      top := FramesTop(parse, idOf, c, fs[..n], low);
      var d := HandleFrames(parse, c, fs[..n]);
      assert GoodFrame(parse, idOf, f, low);
      if !d.terminal && parse(f.data).Some? {
        ReceiveTop(idOf, d, f.id, parse(f.data).value, top);
        top := parse(f.data).value.sequence;
      }
    }
  }

  lemma {:induction false} SameTop(idOf: nat -> EventId, c: Client, d: Client, top: nat)
    requires AtTop(idOf, c, top) && SameReading(d, c)
    ensures AtTop(idOf, d, top)
  {
  }

  lemma {:induction false} AttemptsTop(
      parse: string -> Option<RunEvent>, idOf: nat -> EventId, c: Client, attempts: seq<Attempt>, low: nat)
    returns (top: nat)
    requires Injective(idOf) && AtTop(idOf, c, low) && IncreasingServer(parse, idOf, c, attempts)
    ensures AtTop(idOf, Attempts(parse, c, attempts).0, top)
    decreases attempts
  {
    top := low;
    if attempts != [] {
      var (next, fate) := TryOnce(parse, c, attempts[0]);
      var fs := Brought(attempts[0]);
      PositionIsTop(idOf, c, low);
      top := FramesTop(parse, idOf, c, fs, low);
      TryReads(parse, c, attempts[0]);
      SameTop(idOf, HandleFrames(parse, c, fs), next, top);
      if fate == Again {
        top := AttemptsTop(parse, idOf, next, attempts[1..], top);
      }
    }
  }

  lemma {:induction false} HighestIsHighest(es: seq<RunEvent>)
    requires es != []
    ensures Highest(es) in Sequences(es) && forall n :: n in Sequences(es) ==> n <= Highest(es)
  {
    if |es| > 1 {
      var init, last := es[..|es| - 1], es[|es| - 1];
      HighestIsHighest(init);
      SeenGrows(init, last);
      assert es == init + [last];
    }
  }

  /**
   Against a server whose streams increase, the last event id is always the highest sequence
   number seen, persisted events included, however often the connection breaks.
   */
  lemma {:induction false} LastEventIdIsHighest(
      parse: string -> Option<RunEvent>, idOf: nat -> EventId, persisted: seq<RunEvent>, attempts: seq<Attempt>)
    requires Injective(idOf) && forall e :: e in persisted ==> e.id == idOf(e.sequence)
    requires attempts != [] ==>
      IncreasingServer(parse, idOf, ChangeState(NewClient(persisted, None), Connecting), attempts)
    ensures var c := Stream(parse, NewClient(persisted, None), attempts).0;
      exists top :: AtTop(idOf, c, top)
  {
    var c := NewClient(persisted, None);
    var begun := if attempts == [] then c else ChangeState(c, Connecting);
    var low := if persisted == [] then 0 else Highest(persisted);
    if persisted != [] { HighestIsHighest(persisted); }
    InitialTop(idOf, persisted, low);
    SameTop(idOf, c, begun, low);
    var top := AttemptsTop(parse, idOf, begun, attempts, low);
    SameTop(idOf, Attempts(parse, begun, attempts).0, Stream(parse, c, attempts).0, top);
  }

  lemma {:induction false} InitialTop(idOf: nat -> EventId, persisted: seq<RunEvent>, low: nat)
    requires forall e :: e in persisted ==> e.id == idOf(e.sequence)
    requires low == if persisted == [] then 0 else Highest(persisted)
    ensures AtTop(idOf, NewClient(persisted, None), low)
  {
    if persisted != [] { HighestIsHighest(persisted); }
    forall id | id in Ids(persisted) ensures exists n: nat :: n <= low && id == idOf(n) {
      var e :| e in persisted && e.id == id;
      assert e.sequence in Sequences(persisted);
    }
  }

  // ---- The first position asked for ----

  /** The given position, unless it is empty; without one, the highest persisted sequence. */
  function FirstPosition(persisted: seq<RunEvent>, after: Option<string>): Option<string> {
    match after
    case Some(id) => if id == "" then None else Some(id)
    case None => if persisted == [] then None else Some(Decimal(Highest(persisted)))
  }

  lemma {:induction false} TryAsks(parse: string -> Option<RunEvent>, c: Client, a: Attempt)
    ensures var (d, fate) := TryOnce(parse, c, a);
      && (d.requested == c.requested || d.requested == c.requested + [Header(c)])
      && (fate == Again ==> d.requested == c.requested + [Header(c)])
  {
    if HasBody(a) {
      TryReading(parse, c, a);
      BodyAsksNothing(parse, Asked(c), a.body.value);
    } else if !a.AbortedEarly? {
      var d, error := TryFailing(parse, c, a);
    }
  }

  lemma {:induction false} FramesAskNothing(parse: string -> Option<RunEvent>, c: Client, fs: seq<Frame>)
    ensures HandleFrames(parse, c, fs).requested == c.requested
  {
    if fs != [] { FramesAskNothing(parse, c, fs[..|fs| - 1]); }
  }

  lemma {:induction false} BodyAsksNothing(parse: string -> Option<RunEvent>, c: Client, body: Body)
    ensures ReadBody(parse, c, body).0.requested == c.requested
  {
    FramesAskNothing(parse, ChangeState(c, Online), FeedAll(body.chunks).frames);
  }

  lemma {:induction false} AttemptsAsk(parse: string -> Option<RunEvent>, c: Client, attempts: seq<Attempt>)
    ensures var d := Attempts(parse, c, attempts).0;
      c.requested <= d.requested && (c.requested < d.requested ==> d.requested[|c.requested|] == Header(c))
    decreases attempts
  {
    if attempts != [] {
      TryAsks(parse, c, attempts[0]);
      var (next, fate) := TryOnce(parse, c, attempts[0]);
      if fate == Again { AttemptsAsk(parse, next, attempts[1..]); }
    }
  }

  /** The first request asks for what is behind the given position, or behind everything persisted. */
  lemma {:induction false} FirstRequest(
      parse: string -> Option<RunEvent>, persisted: seq<RunEvent>, after: Option<string>, attempts: seq<Attempt>)
    ensures var requested := Stream(parse, NewClient(persisted, after), attempts).0.requested;
      requested != [] ==> requested[0] == FirstPosition(persisted, after)
    ensures persisted != [] ==>
      Highest(persisted) in Sequences(persisted) && forall e :: e in persisted ==> e.sequence <= Highest(persisted)
  {
    var c := NewClient(persisted, after);
    AttemptsAsk(parse, if attempts == [] then c else ChangeState(c, Connecting), attempts);
    if persisted != [] {
      HighestIsHighest(persisted);
      assert forall e :: e in persisted ==> e.sequence in Sequences(persisted);
    }
  }

  // ---- Against a server without gaps ----

  /** A log as the backend keeps it: numbered from one, ids all different. */
  predicate IsLog(log: seq<RunEvent>) {
    ServerStream.Numbered(log) && forall i, j :: 0 <= i < j < |log| ==> log[i].id != log[j].id
  }

  /** How the server writes an event; `show` renders it as JSON. */
  function ToMessage(show: RunEvent -> string, e: RunEvent): Frame {
    Frame(Some(Decimal(e.sequence)), Some(WireName(e.kind)), show(e))
  }

  function Messages(show: RunEvent -> string, es: seq<RunEvent>): seq<Frame> {
    seq(|es|, i requires 0 <= i < |es| => ToMessage(show, es[i]))
  }

  /** The events of the log are read back from what is written for them, and their text holds no CR. */
  predicate Readable(parse: string -> Option<RunEvent>, show: RunEvent -> string, log: seq<RunEvent>) {
    forall e :: e in log ==> ReadBack(parse, show, e)
  }

  predicate ReadBack(parse: string -> Option<RunEvent>, show: RunEvent -> string, e: RunEvent) {
    parse(show(e)) == Some(e) && '\r' !in show(e)
  }

  // A writer and a strict reader for the events of one log: the text is the place in the log.

  function PlaceOf(log: seq<RunEvent>, e: RunEvent): (i: nat)
    ensures e in log ==> i < |log| && log[i] == e
  {
    if log == [] || log[0] == e then 0 else 1 + PlaceOf(log[1..], e)
  }

  function WriterOf(log: seq<RunEvent>): RunEvent -> string {
    e => Decimal(PlaceOf(log, e))
  }

  function ReaderOf(log: seq<RunEvent>): string -> Option<RunEvent> {
    text => if AllDigits(text) && ParseDecimal(text) < |log| then Some(log[ParseDecimal(text)]) else None
  }

  /** For every log there are a writer and a reader that accepts nothing but its events. */
  lemma {:induction false} EveryLogIsReadable(log: seq<RunEvent>)
    ensures Readable(ReaderOf(log), WriterOf(log), log)
    ensures forall text :: ReaderOf(log)(text).Some? ==> ReaderOf(log)(text).value in log
  {
    forall e | e in log ensures ReadBack(ReaderOf(log), WriterOf(log), e) {
      ParseDecimalInverts(PlaceOf(log, e));
    }
  }

  /** A connection sends, in any chunks and however far, the text of the log from the position on. */
  predicate SendsLog(show: RunEvent -> string, log: seq<RunEvent>, pos: nat, a: Attempt) {
    a.Response? && a.body.Some? ==>
      Concat(a.body.value.chunks) <= Encode(Messages(show, ServerStream.Rows(log, pos)))
  }

  predicate LogServer(
      parse: string -> Option<RunEvent>, show: RunEvent -> string, log: seq<RunEvent>, c: Client,
      attempts: seq<Attempt>)
    decreases attempts
  {
    attempts != [] ==>
      SendsLog(show, log, Position(c), attempts[0])
      && (TryOnce(parse, c, attempts[0]).1 == Again ==>
          LogServer(parse, show, log, TryOnce(parse, c, attempts[0]).0, attempts[1..]))
  }

  /** The client has delivered exactly the log entries from `start` up to `pos`. */
  predicate UpTo(log: seq<RunEvent>, c: Client, start: nat, pos: nat) {
    && start <= pos <= |log|
    && c.lastEventId == (if pos == 0 then None else Some(Decimal(pos)))
    && c.delivered == log[start..pos]
    && (forall n :: n in c.seenSequences ==> n <= pos)
    && (forall id :: id in c.seenIds ==> id in Ids(log[..pos]))
    && (if c.terminal then pos > 0 && Terminal(log[pos - 1]) else NoTerminal(log[start..pos]))
  }

  lemma {:induction false} ReceiveNext(log: seq<RunEvent>, c: Client, start: nat, pos: nat)
    requires IsLog(log) && UpTo(log, c, start, pos) && !c.terminal && pos < |log|
    ensures UpTo(log, Receive(c, Some(Decimal(pos + 1)), log[pos]), start, pos + 1)
  {
    var e := log[pos];
    assert log[..pos + 1] == log[..pos] + [e];
    SeenGrows(log[..pos], e);
    assert e.id !in Ids(log[..pos]);
    assert log[start..pos + 1] == log[start..pos] + [e];
  }

  /** The frames hold the consecutive log entries behind `pos`. */
  predicate Follow(show: RunEvent -> string, log: seq<RunEvent>, fs: seq<Frame>, pos: nat) {
    pos + |fs| <= |log| && forall i :: 0 <= i < |fs| ==> fs[i] == ToMessage(show, log[pos + i])
  }

  lemma {:induction false} BeginningFollows(show: RunEvent -> string, log: seq<RunEvent>, fs: seq<Frame>, pos: nat)
    requires pos <= |log| && fs <= Messages(show, log[pos..])
    ensures Follow(show, log, fs, pos)
  {
    forall i | 0 <= i < |fs| ensures fs[i] == ToMessage(show, log[pos + i]) {
      assert fs[i] == Messages(show, log[pos..])[i];
    }
  }

  lemma {:induction false} HandleNext(
      parse: string -> Option<RunEvent>, show: RunEvent -> string, log: seq<RunEvent>, c: Client, f: Frame,
      start: nat, pos: nat)
    returns (end: nat)
    requires Readable(parse, show, log) && IsLog(log) && UpTo(log, c, start, pos)
    requires !c.terminal ==> pos < |log| && f == ToMessage(show, log[pos])
    ensures UpTo(log, HandleFrame(parse, c, f), start, end) && pos <= end
    ensures !HandleFrame(parse, c, f).terminal ==> end == pos + 1
  {
    end := pos;
    if !c.terminal {
      assert ReadBack(parse, show, log[pos]);
      ReceiveNext(log, c, start, pos);
      end := pos + 1;
    }
  }

  lemma {:induction false} FollowInit(show: RunEvent -> string, log: seq<RunEvent>, fs: seq<Frame>, pos: nat, n: nat)
    requires Follow(show, log, fs, pos) && n < |fs|
    ensures Follow(show, log, fs[..n], pos) && pos + n < |log| && fs[n] == ToMessage(show, log[pos + n])
  {
  }

  /** Behind `k` frames the client has moved from `pos` to `end`: all the way, unless it met a terminal event. */
  predicate Moved(log: seq<RunEvent>, c: Client, start: nat, pos: nat, end: nat, k: nat) {
    UpTo(log, c, start, end) && pos <= end && (!c.terminal ==> end == pos + k)
  }

  lemma {:induction false} MoveOn(
      parse: string -> Option<RunEvent>, show: RunEvent -> string, log: seq<RunEvent>, c: Client, f: Frame,
      start: nat, pos: nat, mid: nat, k: nat)
    returns (end: nat)
    requires Readable(parse, show, log) && IsLog(log) && Moved(log, c, start, pos, mid, k)
    requires pos + k < |log| && f == ToMessage(show, log[pos + k])
    ensures Moved(log, HandleFrame(parse, c, f), start, pos, end, k + 1)
  {
    end := HandleNext(parse, show, log, c, f, start, mid);
  }

  /** Such frames move the client forward entry by entry, up to a terminal one. */
  lemma {:induction false} FramesForward(
      parse: string -> Option<RunEvent>, show: RunEvent -> string, log: seq<RunEvent>, c: Client, fs: seq<Frame>,
      start: nat, pos: nat)
    returns (end: nat)
    requires Readable(parse, show, log) && IsLog(log) && UpTo(log, c, start, pos) && !c.terminal
    requires Follow(show, log, fs, pos)
    ensures Moved(log, HandleFrames(parse, c, fs), start, pos, end, |fs|)
  {
    end := pos;
    if fs != [] {
      var n := |fs| - 1;
      FollowInit(show, log, fs, pos, n);
      var mid := FramesForward(parse, show, log, c, fs[..n], start, pos);
      end := MoveOn(parse, show, log, HandleFrames(parse, c, fs[..n]), fs[n], start, pos, mid, n);
    }
  }

  /** The text of a stretch of the log behind `after`, read as far as `read`. */
  predicate ReadsStretch(
      show: RunEvent -> string, log: seq<RunEvent>, delivered: seq<RunEvent>, after: nat, read: seq<Frame>)
  {
    && (delivered != [] ==> after + |delivered| <= |log| && delivered == log[after..after + |delivered|])
    && after + |read| <= |log| && read <= Messages(show, delivered)
  }

  /** Frames behind the ones read before hold the entries behind the position they lead to. */
  lemma {:induction false} MessagesTail(
      show: RunEvent -> string, log: seq<RunEvent>, delivered: seq<RunEvent>, after: nat, read: seq<Frame>,
      next: seq<Frame>, pos: nat)
    requires ReadsStretch(show, log, delivered, after, read + next) && pos == after + |read|
    ensures Follow(show, log, next, pos)
  {
    forall i | 0 <= i < |next| ensures pos + i < |log| && next[i] == ToMessage(show, log[pos + i]) {
      assert next[i] == (read + next)[|read| + i] == Messages(show, delivered)[|read| + i];
      assert delivered[|read| + i] == log[pos + i];
    }
  }

  lemma {:induction false} WrittenIsRead(
      show: RunEvent -> string, log: seq<RunEvent>, delivered: seq<RunEvent>, after: nat, chunks: seq<string>)
    requires forall i :: 0 <= i < |Messages(show, delivered)| ==> Writable(Messages(show, delivered)[i])
    requires Concat(chunks) <= Encode(Messages(show, delivered)) && after <= |log|
    requires delivered != [] ==> after + |delivered| <= |log| && delivered == log[after..after + |delivered|]
    ensures ReadsStretch(show, log, delivered, after, FeedAll(chunks).frames)
  {
    WireRoundTrip(Messages(show, delivered), chunks);
  }

  lemma {:induction false} FurtherFrames(
      show: RunEvent -> string, log: seq<RunEvent>, delivered: seq<RunEvent>, after: nat, received: seq<string>,
      chunk: string, pos: nat)
    requires ReadsStretch(show, log, delivered, after, FeedAll(received + [chunk]).frames)
    requires pos == after + |FeedAll(received).frames|
    ensures Follow(show, log, ParseSse(FeedAll(received).remainder + chunk).frames, pos)
  {
    var read, next := FeedAll(received).frames, ParseSse(FeedAll(received).remainder + chunk).frames;
    FeedNext(received, chunk);
    MessagesTail(show, log, delivered, after, read, next, pos);
  }

  /** A further piece of the text of a stretch of the log completes frames of the entries that follow. */
  lemma {:induction false} NextPiece(
      show: RunEvent -> string, log: seq<RunEvent>, delivered: seq<RunEvent>, after: nat, received: seq<string>,
      chunk: string, pos: nat)
    requires forall i :: 0 <= i < |Messages(show, delivered)| ==> Writable(Messages(show, delivered)[i])
    requires Concat(received + [chunk]) <= Encode(Messages(show, delivered)) && after <= |log|
    requires delivered != [] ==> after + |delivered| <= |log| && delivered == log[after..after + |delivered|]
    requires pos == after + |FeedAll(received).frames|
    ensures Follow(show, log, ParseSse(FeedAll(received).remainder + chunk).frames, pos)
  {
    WrittenIsRead(show, log, delivered, after, received + [chunk]);
    FurtherFrames(show, log, delivered, after, received, chunk, pos);
  }

  lemma {:induction false} UpToPosition(log: seq<RunEvent>, c: Client, start: nat, pos: nat)
    requires UpTo(log, c, start, pos)
    ensures Position(c) == pos
  {
    ParseDecimalInverts(pos);
  }

  lemma {:induction false} DigitsAreOneLine(s: string)
    requires AllDigits(s)
    ensures OneLine(s)
  {
  }

  lemma {:induction false} PlainText(s: string)
    requires forall i :: 0 <= i < |s| ==> s[i] >= ' '
    ensures OneLine(s)
  {
  }

  lemma {:induction false} WireNamesAreOneLine(kind: EventType)
    ensures OneLine(WireName(kind))
  {
    match kind
    case RunStarted => PlainText("run.started");
    case PlanCreated => PlainText("plan.created");
    case AgentStarted => PlainText("agent.started");
    case ToolCompleted => PlainText("tool.completed");
    case CitationAdded => PlainText("citation.added");
    case AgentCompleted => PlainText("agent.completed");
    case SynthesisCompleted => PlainText("synthesis.completed");
    case ApprovalRequired => PlainText("approval.required");
    case RunCompleted => PlainText("run.completed");
    case RunFailed => PlainText("run.failed");
  }

  lemma {:induction false} MessagesAreWritable(
      parse: string -> Option<RunEvent>, show: RunEvent -> string, es: seq<RunEvent>)
    requires Readable(parse, show, es)
    ensures forall i :: 0 <= i < |Messages(show, es)| ==> Writable(Messages(show, es)[i])
  {
    forall i | 0 <= i < |es| ensures Writable(ToMessage(show, es[i])) {
      assert ReadBack(parse, show, es[i]);
      DigitsAreOneLine(Decimal(es[i].sequence));
      WireNamesAreOneLine(es[i].kind);
    }
  }

  lemma {:induction false} SameUpTo(log: seq<RunEvent>, c: Client, d: Client, start: nat, pos: nat)
    requires UpTo(log, c, start, pos) && SameReading(d, c)
    ensures UpTo(log, d, start, pos)
  {
  }

  lemma {:induction false} TryForward(
      parse: string -> Option<RunEvent>, show: RunEvent -> string, log: seq<RunEvent>, c: Client, a: Attempt,
      start: nat, pos: nat)
    returns (end: nat)
    requires Readable(parse, show, log) && IsLog(log) && UpTo(log, c, start, pos) && !c.terminal
    requires SendsLog(show, log, pos, a)
    ensures UpTo(log, TryOnce(parse, c, a).0, start, end)
  {
    var fs := Brought(a);
    assert fs <= Messages(show, log[pos..]) by {
      if HasBody(a) {
        assert forall e :: e in log[pos..] ==> e in log;
        MessagesAreWritable(parse, show, log[pos..]);
        WireRoundTrip(Messages(show, log[pos..]), a.body.value.chunks);
      }
    }
    BeginningFollows(show, log, fs, pos);
    end := FramesForward(parse, show, log, c, fs, start, pos);
    TryReads(parse, c, a);
    SameUpTo(log, HandleFrames(parse, c, fs), TryOnce(parse, c, a).0, start, end);
  }

  lemma {:induction false} AttemptsForward(
      parse: string -> Option<RunEvent>, show: RunEvent -> string, log: seq<RunEvent>, c: Client,
      attempts: seq<Attempt>,
      start: nat, pos: nat)
    returns (end: nat)
    requires Readable(parse, show, log) && IsLog(log) && UpTo(log, c, start, pos) && !c.terminal
    requires LogServer(parse, show, log, c, attempts)
    ensures UpTo(log, Attempts(parse, c, attempts).0, start, end)
    decreases attempts
  {
    end := pos;
    if attempts != [] {
      UpToPosition(log, c, start, pos);
      end := TryForward(parse, show, log, c, attempts[0], start, pos);
      var (next, fate) := TryOnce(parse, c, attempts[0]);
      AgainMeansOpen(parse, c, attempts[0]);
      if fate == Again {
        end := AttemptsForward(parse, show, log, next, attempts[1..], start, end);
      }
    }
  }

  lemma {:induction false} InitialUpTo(log: seq<RunEvent>, persisted: seq<RunEvent>, start: nat)
    requires IsLog(log) && forall e :: e in persisted ==> e in log
    requires start == if persisted == [] then 0 else Highest(persisted)
    ensures UpTo(log, NewClient(persisted, None), start, start)
  {
    if persisted != [] {
      HighestIsHighest(persisted);
      var top :| top in persisted && top.sequence == start;
      assert top in log;
    }
    forall id | id in Ids(persisted) ensures id in Ids(log[..start]) {
      var e :| e in persisted && e.id == id;
      var i :| 0 <= i < |log| && log[i] == e;
      assert e.sequence in Sequences(persisted) && i < start;
      assert log[..start][i] == e;
    }
  }

  /**
   Against a server without gaps, over any number of drops, partial reads and replays: the
   deliveries are exactly the consecutive log entries after the highest persisted one, never going
   past the first terminal event, and the last event id is the sequence of the last of them.
   */
  lemma {:induction false} DeliversConsecutively(
      parse: string -> Option<RunEvent>, show: RunEvent -> string, log: seq<RunEvent>,
      persisted: seq<RunEvent>, attempts: seq<Attempt>)
    requires Readable(parse, show, log) && IsLog(log) && forall e :: e in persisted ==> e in log
    requires attempts != [] ==>
      LogServer(parse, show, log, ChangeState(NewClient(persisted, None), Connecting), attempts)
    ensures var start := if persisted == [] then 0 else Highest(persisted);
      exists end :: UpTo(log, Stream(parse, NewClient(persisted, None), attempts).0, start, end)
  {
    var c := NewClient(persisted, None);
    var begun := if attempts == [] then c else ChangeState(c, Connecting);
    var start := if persisted == [] then 0 else Highest(persisted);
    InitialUpTo(log, persisted, start);
    SameUpTo(log, c, begun, start, start);
    var end := AttemptsForward(parse, show, log, begun, attempts, start, start);
    SameUpTo(log, Attempts(parse, begun, attempts).0, Stream(parse, c, attempts).0, start, end);
  }

  // ---- Against the server itself ----

  /** Ids for all sequences: those of the log, and fresh ones for the others. */
  function IdOf(log: seq<RunEvent>): nat -> EventId {
    (n: nat) => if 1 <= n <= |log| then log[n - 1].id else RandomId(FreshToken(log) + n)
  }

  function FreshToken(log: seq<RunEvent>): nat {
    if log == [] then 0
    else
      var rest, id := FreshToken(log[1..]), log[0].id;
      if id.RandomId? && id.token >= rest then id.token + 1 else rest
  }

  lemma {:induction false} TokensAreBelow(log: seq<RunEvent>, i: nat)
    requires i < |log| && log[i].id.RandomId?
    ensures log[i].id.token < FreshToken(log)
  {
    if i > 0 { TokensAreBelow(log[1..], i - 1); }
  }

  lemma {:induction false} LogIdsAreInjective(log: seq<RunEvent>)
    requires IsLog(log)
    ensures Injective(IdOf(log))
    ensures forall e :: e in log ==> e.id == IdOf(log)(e.sequence)
  {
    forall m: nat, n: nat | m < n ensures IdOf(log)(m) != IdOf(log)(n) {
      if 1 <= m <= |log| && log[m - 1].id.RandomId? { TokensAreBelow(log, m - 1); }
      if 1 <= n <= |log| && log[n - 1].id.RandomId? { TokensAreBelow(log, n - 1); }
    }
  }

  /** The connection brings a beginning of the text that this schedule makes the server write behind `pos`. */
  predicate Serves(
      show: RunEvent -> string, log: seq<RunEvent>, schedule: seq<ServerStream.Action>, pos: nat, a: Attempt)
  {
    var w := ServerStream.Exec(schedule);
    && w.log <= log && w.subscriber.Some? && w.after == pos
    && (HasBody(a) ==> Concat(a.body.value.chunks) <= Encode(Messages(show, w.subscriber.value.delivered)))
  }

  /** Every connection is served behind the position the client asks for, under some schedule of its own. */
  ghost predicate ServedThroughout(
      parse: string -> Option<RunEvent>, show: RunEvent -> string, log: seq<RunEvent>, c: Client,
      attempts: seq<Attempt>)
    decreases attempts
  {
    attempts != [] ==>
      (exists schedule :: Serves(show, log, schedule, Position(c), attempts[0]))
      && (TryOnce(parse, c, attempts[0]).1 == Again ==>
          ServedThroughout(parse, show, log, TryOnce(parse, c, attempts[0]).0, attempts[1..]))
  }

  lemma {:induction false} ReadableWithin(
      parse: string -> Option<RunEvent>, show: RunEvent -> string, log: seq<RunEvent>, es: seq<RunEvent>)
    requires Readable(parse, show, log) && ServerStream.Within(es, log)
    ensures Readable(parse, show, es)
  {
  }

  /** Frames written for increasing events of the log increase. */
  lemma {:induction false} MessagesIncrease(
      parse: string -> Option<RunEvent>, show: RunEvent -> string, log: seq<RunEvent>, es: seq<RunEvent>,
      fs: seq<Frame>, low: nat)
    requires Readable(parse, show, log) && IsLog(log) && ServerStream.Within(es, log)
    requires ServerStream.Increasing(es) && (forall i :: 0 <= i < |es| ==> low < es[i].sequence)
    requires fs <= Messages(show, es)
    ensures IncreasingFrames(parse, IdOf(log), fs, low)
  {
    LogIdsAreInjective(log);
    forall i | 0 <= i < |fs| ensures fs[i].id == Some(Decimal(es[i].sequence)) && parse(fs[i].data) == Some(es[i]) {
      assert fs[i] == Messages(show, es)[i];
      assert ReadBack(parse, show, es[i]);
    }
  }

  lemma {:induction false} ServedFramesIncrease(
      parse: string -> Option<RunEvent>, show: RunEvent -> string, log: seq<RunEvent>,
      schedule: seq<ServerStream.Action>, pos: nat, a: Attempt)
    requires Readable(parse, show, log) && IsLog(log) && Serves(show, log, schedule, pos, a)
    ensures IncreasingFrames(parse, IdOf(log), Brought(a), pos)
  {
    if HasBody(a) {
      var w := ServerStream.Exec(schedule);
      var es := w.subscriber.value.delivered;
      ServerStream.AlwaysOrdered(schedule);
      ServerStream.AlwaysFromLog(schedule);
      ReadableWithin(parse, show, log, es);
      MessagesAreWritable(parse, show, es);
      WireRoundTrip(Messages(show, es), a.body.value.chunks);
      MessagesIncrease(parse, show, log, es, Brought(a), pos);
    }
  }

  lemma {:induction false} ServerIncreases(
      parse: string -> Option<RunEvent>, show: RunEvent -> string, log: seq<RunEvent>, c: Client,
      attempts: seq<Attempt>)
    requires Readable(parse, show, log) && IsLog(log) && ServedThroughout(parse, show, log, c, attempts)
    ensures IncreasingServer(parse, IdOf(log), c, attempts)
    decreases attempts
  {
    if attempts != [] {
      var schedule :| Serves(show, log, schedule, Position(c), attempts[0]);
      ServedFramesIncrease(parse, show, log, schedule, Position(c), attempts[0]);
      if TryOnce(parse, c, attempts[0]).1 == Again {
        ServerIncreases(parse, show, log, TryOnce(parse, c, attempts[0]).0, attempts[1..]);
      }
    }
  }

  /**
   The server as it is meets that: whatever the schedule of commits, publishes (in any order),
   history queries and subscriptions behind each connection, and wherever its text is cut, the last
   event id is the highest sequence number the client has seen.
   */
  lemma {:induction false} LastEventIdFromServer(
      parse: string -> Option<RunEvent>, show: RunEvent -> string, log: seq<RunEvent>,
      persisted: seq<RunEvent>, attempts: seq<Attempt>)
    requires Readable(parse, show, log) && IsLog(log) && ServerStream.Within(persisted, log)
    requires attempts != [] ==>
      ServedThroughout(parse, show, log, ChangeState(NewClient(persisted, None), Connecting), attempts)
    ensures var c := Stream(parse, NewClient(persisted, None), attempts).0;
      && (c.lastEventId.None? ==> c.seenSequences == {})
      && (c.lastEventId.Some? ==> exists top: nat ::
          c.lastEventId == Some(Decimal(top)) && top in c.seenSequences
          && forall n :: n in c.seenSequences ==> n <= top)
  {
    LogIdsAreInjective(log);
    if attempts != [] {
      ServerIncreases(parse, show, log, ChangeState(NewClient(persisted, None), Connecting), attempts);
    }
    LastEventIdIsHighest(parse, IdOf(log), persisted, attempts);
    var c := Stream(parse, NewClient(persisted, None), attempts).0;
    var top :| AtTop(IdOf(log), c, top);
  }
}
