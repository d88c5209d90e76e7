/** One client of the invalidation log, over event streams that break and resume and over polls. */
module InvalidationFeed {
  import opened InvalidationLog
  import opened SseStream
  import opened Wrappers

  /** What the client has. `received` are the events since it last had to start over; `from` is the
      position of the first of them in the history, and `restarts` counts the resyncs it was told of. */
  datatype Client = Client(cursor: Option<nat>, from: nat, received: seq<Event>, restarts: nat)

  /** `live`: the gateway is subscribed and writes to the stream. `pipe` is what was written and has not
      been parsed. The log keeps the history from `first` on. */
  datatype Feed = Feed(history: seq<Event>, first: nat, live: bool, connected: bool, pipe: seq<Item>,
                       reading: Reading, client: Client)

  /** The parser of a connection: its buffer for the next last event id, the cursor that was there when
      the connection was opened, and how many blocks and events it has delivered since. */
  datatype Reading = Reading(idBuffer: Option<nat>, sent: Option<nat>, blocks: nat, events: nat)

  /** `keepsId`: the client's id buffer starts out with the last event id when it reconnects. Section
      9.2.6 of the WHATWG HTML standard lets it start out empty. */
  datatype Setting = Setting(limits: Limits, keepsId: bool, retry: string)

  datatype Action =
    | Publish(event: Event, overflows: bool)
    | Heartbeat(line: string, overflows: bool)
    | Connect(garbled: bool, resync: Event)
    | Deliver
    | Cut(arrives: nat)
    | Drop
    | Poll(limit: nat)

  ghost predicate Enabled(f: Feed, a: Action, s: Setting) {
    match a
    case Publish(e, _) => Latest(f.history) < e.revision <= MAX_SAFE && Size(e) <= s.limits.maximumBytes
    case Heartbeat(line, _) => f.live && Harmless(line)
    case Connect(_, resync) =>
      && !f.connected && resync.kind == ResyncRequired && resync.revision == Latest(f.history)
    case Deliver => f.connected && f.pipe != []
    case Cut(arrives) => f.connected && arrives <= |f.pipe|
    case Drop => f.connected
    case Poll(limit) => !f.connected && 1 <= limit <= s.limits.maximumEvents
  }

  /** The frames written before the gateway subscribes: the replay, or the order to resync. */
  function Replay(f: Feed, header: Header, resync: Event): seq<Event> {
    var after := if header.Revision? then header.revision else Latest(f.history);
    if header.Malformed? || Stale(f.history, f.first, after) then [resync]
    else f.history[Position(f.history, after)..]
  }

  function Items(events: seq<Event>): seq<Item> {
    seq(|events|, i requires 0 <= i < |events| => EventItem(events[i]))
  }

  /** The last event id as the gateway reads it; a page load has none to send. */
  function HeaderOf(c: Client): Header {
    if c.cursor.Some? then Revision(c.cursor.value) else NoHeader
  }

  /** Replay and subscription run without an await between them. */
  function ConnectStep(f: Feed, s: Setting, garbled: bool, resync: Event): Feed {
    var header := if garbled then Malformed else HeaderOf(f.client);
    f.(live := true, connected := true,
       pipe := [Block(s.retry)] + Items(Replay(f, header, resync)),
       reading := Reading(if s.keepsId then f.client.cursor else None, f.client.cursor, 0, 0),
       client := if header.NoHeader? then Client(None, |f.history|, [], f.client.restarts) else f.client)
  }

  /** The client takes an event: the next one, or the order to start over. */
  function Take(c: Client, history: seq<Event>, e: Event): Client {
    if e.kind.ResyncRequired? then Client(Some(e.revision), Position(history, e.revision), [], c.restarts + 1)
    else Client(Some(e.revision), c.from, c.received + [e], c.restarts)
  }

  function TakeAll(c: Client, history: seq<Event>, events: seq<Event>): Client
    decreases |events|
  {
    if events == [] then c else TakeAll(Take(c, history, events[0]), history, events[1..])
  }

  function DeliverStep(f: Feed): Feed
    requires f.pipe != []
  {
    var rest, r := f.(pipe := f.pipe[1..]), f.reading;
    match f.pipe[0]
    case Block(_) => rest.(client := f.client.(cursor := r.idBuffer), reading := r.(blocks := r.blocks + 1))
    case EventItem(e) =>
      rest.(client := Take(f.client, f.history, e), reading := r.(idBuffer := Some(e.revision), events := r.events + 1))
  }

  /** Without a cursor a client polls from the beginning. */
  function Starting(c: Client): Client {
    if c.cursor.Some? then c else Client(Some(0), 0, [], c.restarts)
  }

  function PollStep(f: Feed, limit: nat): Feed {
    var start := Starting(f.client);
    if Stale(f.history, f.first, start.cursor.value) then
      f.(client := Client(Some(Latest(f.history)), |f.history|, [], f.client.restarts + 1))
    else
      f.(client := TakeAll(start, f.history, FirstN(f.history[Position(f.history, start.cursor.value)..], limit)))
  }

  function WriteStep(f: Feed, item: Item, overflows: bool): Feed {
    if !f.live then f else if overflows then f.(live := false) else f.(pipe := f.pipe + [item])
  }

  function Published(f: Feed, e: Event, l: Limits): Feed {
    f.(history := f.history + [e], first := FirstKept(f.history + [e], l))
  }

  ghost function Step(f: Feed, a: Action, s: Setting): Feed {
    if !Enabled(f, a, s) then f
    else
      match a
      case Publish(e, overflows) => WriteStep(Published(f, e, s.limits), EventItem(e), overflows)
      case Heartbeat(line, overflows) => WriteStep(f, Block(line), overflows)
      case Connect(garbled, resync) => ConnectStep(f, s, garbled, resync)
      case Deliver => DeliverStep(f)
      case Cut(arrives) => f.(live := false, pipe := f.pipe[..arrives])
      case Drop => f.(live := false, connected := false, pipe := [])
      case Poll(limit) => PollStep(f, limit)
  }

  function Start(): Feed {
    Feed([], 0, false, false, [], Reading(None, None, 0, 0), Client(None, 0, [], 0))
  }

  ghost function Run(f: Feed, schedule: seq<Action>, s: Setting): Feed
    decreases |schedule|
  {
    if schedule == [] then f else Run(Step(f, schedule[0], s), schedule[1..], s)
  }

  /** How far into the history the client is. */
  function Reached(c: Client): nat {
    c.from + |c.received|
  }

  /** The client's events are a contiguous piece of the history, and its cursor, if it has one, is where
      the piece ends. */
  ghost predicate Segment(c: Client, history: seq<Event>) {
    && Reached(c) <= |history|
    && c.received == history[c.from..Reached(c)]
    && (c.cursor.Some? ==> c.cursor.value <= Latest(history) && Position(history, c.cursor.value) == Reached(c))
  }

  /** What is in the pipe continues the history at `position`, or orders a resync and continues from there. */
  ghost predicate Flows(history: seq<Event>, position: nat, pipe: seq<Item>)
    decreases |pipe|
  {
    && position <= |history|
    && (pipe == []
        || match pipe[0]
           case Block(_) => Flows(history, position, pipe[1..])
           case EventItem(e) =>
             if e.kind.ResyncRequired?
             then e.revision <= Latest(history) && Flows(history, Position(history, e.revision), pipe[1..])
             else position < |history| && history[position] == e && Flows(history, position + 1, pipe[1..]))
  }

  /** The position at which the pipe ends. */
  function EndOf(history: seq<Event>, position: nat, pipe: seq<Item>): nat
    decreases |pipe|
  {
    if pipe == [] then position
    else
      match pipe[0]
      case Block(_) => EndOf(history, position, pipe[1..])
      case EventItem(e) =>
        EndOf(history, if e.kind.ResyncRequired? then Position(history, e.revision) else position + 1, pipe[1..])
  }

  ghost predicate Inv(f: Feed) {
    && Increasing(f.history)
    && Segment(f.client, f.history)
    && (f.connected ==> Flows(f.history, Reached(f.client), f.pipe))
    && (f.live ==> f.connected && EndOf(f.history, Reached(f.client), f.pipe) == |f.history|)
    && (f.connected && f.reading.idBuffer.Some? ==> f.reading.idBuffer == f.client.cursor)
    && f.first <= |f.history| && (f.history != [] ==> f.first < |f.history|)
  }

  lemma PositionGrows(history: seq<Event>, e: Event, revision: nat)
    requires revision <= Latest(history) < e.revision
    ensures Position(history + [e], revision) == Position(history, revision)
  {
    assert (history + [e])[..|history|] == history;
  }

  lemma LatestIsAll(history: seq<Event>)
    ensures Position(history, Latest(history)) == |history|
  {
  }

  lemma SegmentGrows(c: Client, history: seq<Event>, e: Event)
    requires Segment(c, history) && Latest(history) < e.revision
    ensures Segment(c, history + [e])
  {
    assert (history + [e])[c.from..Reached(c)] == history[c.from..Reached(c)];
    if c.cursor.Some? {
      PositionGrows(history, e, c.cursor.value);
    }
  }

  lemma {:induction false} FlowGrows(history: seq<Event>, position: nat, pipe: seq<Item>, e: Event)
    requires Flows(history, position, pipe) && Latest(history) < e.revision
    ensures Flows(history + [e], position, pipe)
    ensures EndOf(history + [e], position, pipe) == EndOf(history, position, pipe)
    decreases |pipe|
  {
    if pipe != [] {
      match pipe[0]
      case Block(_) => FlowGrows(history, position, pipe[1..], e);
      case EventItem(x) =>
        if x.kind.ResyncRequired? {
          PositionGrows(history, e, x.revision);
          FlowGrows(history, Position(history, x.revision), pipe[1..], e);
        } else {
          FlowGrows(history, position + 1, pipe[1..], e);
        }
    }
  }

  /** Appending the event at which the pipe ends, or a block. */
  lemma {:induction false} FlowAppends(history: seq<Event>, position: nat, pipe: seq<Item>, item: Item)
    requires Increasing(history) && Flows(history, position, pipe)
    requires var end := EndOf(history, position, pipe);
             item.EventItem? ==> end < |history| && history[end] == item.event
    ensures Flows(history, position, pipe + [item])
    ensures EndOf(history, position, pipe + [item]) == EndOf(history, position, pipe) + if item.EventItem? then 1 else 0
    decreases |pipe|
  {
    if pipe == [] {
      assert (pipe + [item])[1..] == [];
      if item.EventItem? {
        PositionIs(history, item.event.revision, position + 1);
        IncreasingLatest(history, position);
      }
    } else {
      assert (pipe + [item])[1..] == pipe[1..] + [item];
      match pipe[0]
      case Block(_) => FlowAppends(history, position, pipe[1..], item);
      case EventItem(e) =>
        var next := if e.kind.ResyncRequired? then Position(history, e.revision) else position + 1;
        FlowAppends(history, next, pipe[1..], item);
    }
  }

  lemma IncreasingLatest(history: seq<Event>, i: nat)
    requires Increasing(history) && i < |history|
    ensures history[i].revision <= Latest(history)
  {
  }

  lemma {:induction false} FlowCut(history: seq<Event>, position: nat, pipe: seq<Item>, n: nat)
    requires Flows(history, position, pipe) && n <= |pipe|
    ensures Flows(history, position, pipe[..n])
    decreases |pipe|
  {
    if n > 0 {
      assert pipe[..n][1..] == pipe[1..][..n - 1];
      match pipe[0]
      case Block(_) => FlowCut(history, position, pipe[1..], n - 1);
      case EventItem(e) =>
        var next := if e.kind.ResyncRequired? then Position(history, e.revision) else position + 1;
        FlowCut(history, next, pipe[1..], n - 1);
    }
  }

  /** The rest of the history, one frame an event. */
  lemma {:induction false} ReplayFlows(history: seq<Event>, p: nat)
    requires Increasing(history) && p <= |history|
    ensures Flows(history, p, Items(history[p..])) && EndOf(history, p, Items(history[p..])) == |history|
    decreases |history| - p
  {
    if p < |history| {
      assert Items(history[p..])[1..] == Items(history[p + 1..]);
      PositionIs(history, history[p].revision, p + 1);
      IncreasingLatest(history, p);
      ReplayFlows(history, p + 1);
    }
  }

  lemma ResyncFlows(history: seq<Event>, position: nat, resync: Event)
    requires position <= |history| && resync.kind == ResyncRequired && resync.revision == Latest(history)
    ensures Flows(history, position, Items([resync])) && EndOf(history, position, Items([resync])) == |history|
  {
    LatestIsAll(history);
    assert Items([resync])[1..] == [];
  }

  /** A client that is not told to resync continues where it is. */
  lemma ReplayContinues(f: Feed, header: Header, resync: Event)
    requires Inv(f) && resync.kind == ResyncRequired && resync.revision == Latest(f.history)
    requires header.NoHeader? || header.Malformed? || header == HeaderOf(f.client)
    ensures var at := if header.NoHeader? then |f.history| else Reached(f.client);
            var replay := Items(Replay(f, header, resync));
            Flows(f.history, at, replay) && EndOf(f.history, at, replay) == |f.history|
  {
    var at := if header.NoHeader? then |f.history| else Reached(f.client);
    LatestIsAll(f.history);
    ResyncFlows(f.history, at, resync);
    ReplayFlows(f.history, at);
  }

  /** The header carries the cursor unharmed. */
  lemma CursorTravels(f: Feed)
    requires Inv(f)
    ensures ReadHeader(if f.client.cursor.Some? then Some(Decimal(f.client.cursor.value)) else None)
              == HeaderOf(f.client)
  {
    if f.client.cursor.Some? {
      RevisionRoundTrip(f.client.cursor.value, "");
      LatestIsSafe(f.history);
    }
  }

  lemma LatestIsSafe(history: seq<Event>)
    requires Increasing(history)
    ensures Latest(history) <= MAX_SAFE
  {
  }

  lemma TakeKeepsSegment(c: Client, history: seq<Event>, e: Event)
    requires Increasing(history) && Segment(c, history)
    requires if e.kind.ResyncRequired? then e.revision <= Latest(history)
             else Reached(c) < |history| && history[Reached(c)] == e
    ensures Segment(Take(c, history, e), history)
  {
    if !e.kind.ResyncRequired? {
      var end := Reached(c);
      assert history[c.from..end + 1] == history[c.from..end] + [e];
      PositionIs(history, e.revision, end + 1);
      IncreasingLatest(history, end);
    }
  }

  /** A published event at the client's position is taken, whether or not it is itself a resync order. */
  lemma TakeNext(c: Client, history: seq<Event>)
    requires Increasing(history) && Segment(c, history) && Reached(c) < |history|
    ensures Segment(Take(c, history, history[Reached(c)]), history)
    ensures Reached(Take(c, history, history[Reached(c)])) == Reached(c) + 1
  {
    var e := history[Reached(c)];
    IncreasingLatest(history, Reached(c));
    TakeKeepsSegment(c, history, e);
    PositionIs(history, e.revision, Reached(c) + 1);
  }

  lemma {:induction false} TakeAllKeepsSegment(c: Client, history: seq<Event>, n: nat)
    requires Increasing(history) && Segment(c, history) && Reached(c) + n <= |history|
    ensures var end := TakeAll(c, history, history[Reached(c)..Reached(c) + n]);
            Segment(end, history) && Reached(end) == Reached(c) + n
    decreases n
  {
    if n > 0 {
      var at := Reached(c);
      TakeNext(c, history);
      assert history[at..at + n][1..] == history[at + 1..at + n];
      TakeAllKeepsSegment(Take(c, history, history[at]), history, n - 1);
    }
  }

  lemma PublishKeepsInv(f: Feed, s: Setting, e: Event, overflows: bool)
    requires ValidLimits(s.limits) && Inv(f) && Enabled(f, Publish(e, overflows), s)
    ensures Inv(Step(f, Publish(e, overflows), s))
  {
    IncreasingAppends(f.history, e);
    SegmentGrows(f.client, f.history, e);
    SomethingFits(f.history, e, s.limits);
    if f.connected {
      FlowGrows(f.history, Reached(f.client), f.pipe, e);
      if f.live {
        FlowAppends(f.history + [e], Reached(f.client), f.pipe, EventItem(e));
      }
    }
  }

  lemma HeartbeatKeepsInv(f: Feed, s: Setting, line: string, overflows: bool)
    requires Inv(f) && Enabled(f, Heartbeat(line, overflows), s)
    ensures Inv(Step(f, Heartbeat(line, overflows), s))
  {
    FlowAppends(f.history, Reached(f.client), f.pipe, Block(line));
  }

  lemma ConnectKeepsInv(f: Feed, s: Setting, garbled: bool, resync: Event)
    requires Inv(f) && Enabled(f, Connect(garbled, resync), s)
    ensures Inv(Step(f, Connect(garbled, resync), s))
  {
    var header := if garbled then Malformed else HeaderOf(f.client);
    ReplayContinues(f, header, resync);
    var replay := Items(Replay(f, header, resync));
    assert ([Block(s.retry)] + replay)[1..] == replay;
  }

  lemma DeliverKeepsInv(f: Feed, s: Setting)
    requires Inv(f) && Enabled(f, Deliver, s)
    ensures Inv(Step(f, Deliver, s))
  {
    if f.pipe[0].EventItem? {
      TakeKeepsSegment(f.client, f.history, f.pipe[0].event);
    }
  }

  lemma PageIsASlice(history: seq<Event>, p: nat, limit: nat)
    requires p <= |history|
    ensures var n := Min(limit, |history| - p); FirstN(history[p..], limit) == history[p..p + n]
  {
  }

  lemma PageKeepsSegment(c: Client, history: seq<Event>, limit: nat)
    requires Increasing(history) && Segment(c, history)
    ensures Segment(TakeAll(c, history, FirstN(history[Reached(c)..], limit)), history)
  {
    TakeAllKeepsSegment(c, history, Min(limit, |history| - Reached(c)));
    PageIsASlice(history, Reached(c), limit);
  }

  lemma ClientKeepsInv(f: Feed, c: Client)
    requires Inv(f) && !f.connected && Segment(c, f.history)
    ensures Inv(f.(client := c))
  {
  }

  lemma EverythingIsASegment(history: seq<Event>, restarts: nat)
    requires Increasing(history)
    ensures Segment(Client(Some(Latest(history)), |history|, [], restarts), history)
    ensures Segment(Client(Some(0), 0, [], restarts), history)
  {
    LatestIsAll(history);
    PositionIs(history, 0, 0);
  }

  lemma StartingIsASegment(c: Client, history: seq<Event>)
    requires Increasing(history) && Segment(c, history)
    ensures Segment(Starting(c), history)
    ensures Position(history, Starting(c).cursor.value) == Reached(Starting(c))
  {
    EverythingIsASegment(history, c.restarts);
  }

  lemma PolledIsASegment(c: Client, history: seq<Event>, limit: nat)
    requires Increasing(history) && Segment(c, history)
    ensures var start := Starting(c);
            Segment(TakeAll(start, history, FirstN(history[Position(history, start.cursor.value)..], limit)), history)
  {
    StartingIsASegment(c, history);
    PageKeepsSegment(Starting(c), history, limit);
  }

  lemma PollKeepsInv(f: Feed, s: Setting, limit: nat)
    requires Inv(f) && Enabled(f, Poll(limit), s)
    ensures Inv(Step(f, Poll(limit), s))
  {
    EverythingIsASegment(f.history, f.client.restarts + 1);
    PolledIsASegment(f.client, f.history, limit);
    ClientKeepsInv(f, PollStep(f, limit).client);
  }

  lemma CutKeepsInv(f: Feed, s: Setting, arrives: nat)
    requires Inv(f) && Enabled(f, Cut(arrives), s)
    ensures Inv(Step(f, Cut(arrives), s))
  {
    FlowCut(f.history, Reached(f.client), f.pipe, arrives);
  }

  lemma DropKeepsInv(f: Feed, s: Setting)
    requires Inv(f) && Enabled(f, Drop, s)
    ensures Inv(Step(f, Drop, s))
  {
  }

  lemma StepKeepsInv(f: Feed, a: Action, s: Setting)
    requires ValidLimits(s.limits) && Inv(f)
    ensures Inv(Step(f, a, s))
  {
    if Enabled(f, a, s) {
      match a
      case Publish(e, overflows) => PublishKeepsInv(f, s, e, overflows);
      case Heartbeat(line, overflows) => HeartbeatKeepsInv(f, s, line, overflows);
      case Connect(garbled, resync) => ConnectKeepsInv(f, s, garbled, resync);
      case Deliver => DeliverKeepsInv(f, s);
      case Cut(arrives) => CutKeepsInv(f, s, arrives);
      case Drop => DropKeepsInv(f, s);
      case Poll(limit) => PollKeepsInv(f, s, limit);
    }
  }

  /** Over every run of publishes, writes, breaks, reconnects and polls, what the client has received
      since it last started over is a contiguous piece of the history, in order and once each, and its
      cursor is the end of that piece; a live stream that has been read to its end has missed nothing. */
  lemma {:induction false} RunKeepsInv(f: Feed, schedule: seq<Action>, s: Setting)
    requires ValidLimits(s.limits) && Inv(f)
    ensures var end := Run(f, schedule, s);
            && Inv(end) && Segment(end.client, end.history)
            && (end.live && end.pipe == [] ==> end.client.received == end.history[end.client.from..])
    decreases |schedule|
  {
    if schedule != [] {
      StepKeepsInv(f, schedule[0], s);
      RunKeepsInv(Step(f, schedule[0], s), schedule[1..], s);
    }
  }

  lemma EveryClientSeesSegments(schedule: seq<Action>, s: Setting)
    requires ValidLimits(s.limits)
    ensures var end := Run(Start(), schedule, s);
            && Segment(end.client, end.history)
            && (end.live && end.pipe == [] ==> end.client.received == end.history[end.client.from..])
  {
    RunKeepsInv(Start(), schedule, s);
  }

  /** The client's piece is abandoned only when the client is told to start over, or has no cursor. */
  lemma StartsOverOnlyWhenTold(f: Feed, a: Action, s: Setting)
    requires Inv(f)
    ensures var before, after := f.client, Step(f, a, s).client;
            GoesOn(before, after) || after.restarts > before.restarts || before.cursor.None?
  {
    if Enabled(f, a, s) && f.client.cursor.Some? {
      match a
      case Poll(limit) => PollGoesOn(f, limit);
      case Deliver => DeliverGoesOn(f);
      case _ =>
    }
  }

  predicate GoesOn(before: Client, after: Client) {
    after.from == before.from && before.received <= after.received && after.restarts == before.restarts
  }

  lemma PollGoesOn(f: Feed, limit: nat)
    requires f.client.cursor.Some?
    ensures var after := PollStep(f, limit).client; GoesOn(f.client, after) || after.restarts > f.client.restarts
  {
    TakeAllRestarts(f.client, f.history, FirstN(f.history[Position(f.history, f.client.cursor.value)..], limit));
  }

  lemma DeliverGoesOn(f: Feed)
    requires f.pipe != []
    ensures var after := DeliverStep(f).client; GoesOn(f.client, after) || after.restarts > f.client.restarts
  {
  }

  /** How many of the events order to start over. */
  function Orders(events: seq<Event>): nat
    decreases |events|
  {
    if events == [] then 0 else (if events[0].kind.ResyncRequired? then 1 else 0) + Orders(events[1..])
  }

  /** How often a step tells the client to start over: an order that is delivered or polled, or a poll from
      a revision that the log cannot answer. Without a cursor the poll is from the beginning. */
  function Told(f: Feed, a: Action): nat {
    match a
    case Deliver => if f.pipe != [] && f.pipe[0].EventItem? && f.pipe[0].event.kind.ResyncRequired? then 1 else 0
    case Poll(limit) =>
      var after := if f.client.cursor.Some? then f.client.cursor.value else 0;
      if Stale(f.history, f.first, after) then 1
      else Orders(FirstN(f.history[Position(f.history, after)..], limit))
    case _ => 0
  }

  /** The client counts every time it was told, and no other. */
  lemma RestartsExactly(f: Feed, a: Action, s: Setting)
    requires Inv(f)
    ensures Step(f, a, s).client.restarts == f.client.restarts + if Enabled(f, a, s) then Told(f, a) else 0
  {
    if a.Poll? && Enabled(f, a, s) {
      var start := Starting(f.client);
      TakeAllOrders(start, f.history, FirstN(f.history[Position(f.history, start.cursor.value)..], a.limit));
    }
  }

  lemma {:induction false} TakeAllOrders(c: Client, history: seq<Event>, events: seq<Event>)
    ensures TakeAll(c, history, events).restarts == c.restarts + Orders(events)
    decreases |events|
  {
    if events != [] {
      TakeAllOrders(Take(c, history, events[0]), history, events[1..]);
    }
  }

  /** The client's piece now begins beyond where it had got, and it was not told: events are lost to it. */
  predicate Skips(before: Client, after: Client) {
    after.restarts == before.restarts && after.from > Reached(before)
  }

  /** Whatever the setting, a step loses events to the client exactly if the client connects without a
      cursor, with a readable header, while it is behind. */
  lemma SkipsExactly(f: Feed, a: Action, s: Setting)
    requires Inv(f)
    ensures Skips(f.client, Step(f, a, s).client) <==>
              && a.Connect? && Enabled(f, a, s) && !a.garbled
              && f.client.cursor.None? && Reached(f.client) < |f.history|
  {
    if a.Poll? && Enabled(f, a, s) {
      var start := Starting(f.client);
      TakeAllRestarts(start, f.history, FirstN(f.history[Position(f.history, start.cursor.value)..], a.limit));
    }
  }

  lemma {:induction false} TakeAllRestarts(c: Client, history: seq<Event>, events: seq<Event>)
    ensures var after := TakeAll(c, history, events);
            GoesOn(c, after) || after.restarts > c.restarts
    decreases |events|
  {
    if events != [] {
      TakeAllRestarts(Take(c, history, events[0]), history, events[1..]);
    }
  }

  /** An event that was evicted before the client saw it forces a resync, on a poll and on a reconnect. */
  lemma EvictionForcesResync(f: Feed, s: Setting, limit: nat, resync: Event)
    requires Inv(f) && !f.connected && f.client.cursor.Some? && Reached(f.client) < f.first
    ensures PollStep(f, limit).client.restarts == f.client.restarts + 1
    ensures ConnectStep(f, s, false, resync).pipe == [Block(s.retry), EventItem(resync)]
  {
    StaleExactly(f.history, f.first, f.client.cursor.value);
  }

  /** The log of every run keeps the longest fitting suffix, so the replay is never cut by a limit. */
  lemma ReplayIsWhole(schedule: seq<Action>, s: Setting, after: nat)
    requires ValidLimits(s.limits)
    requires var end := Run(Start(), schedule, s); !Stale(end.history, end.first, after)
    ensures var end := Run(Start(), schedule, s);
            && end.first == FirstKept(end.history, s.limits)
            && |end.history| - Position(end.history, after) <= s.limits.maximumEvents
  {
    var end := Run(Start(), schedule, s);
    RunKeepsInv(Start(), schedule, s);
    RunKeepsLongest(Start(), schedule, s);
    NothingIsLeft(end.history, end.first, s.limits, after);
  }

  lemma StepKeepsLongest(f: Feed, a: Action, s: Setting)
    requires f.first == FirstKept(f.history, s.limits)
    ensures Step(f, a, s).first == FirstKept(Step(f, a, s).history, s.limits)
  {
  }

  lemma {:induction false} RunKeepsLongest(f: Feed, schedule: seq<Action>, s: Setting)
    requires f.first == FirstKept(f.history, s.limits)
    ensures Run(f, schedule, s).first == FirstKept(Run(f, schedule, s).history, s.limits)
    decreases |schedule|
  {
    if schedule != [] {
      StepKeepsLongest(f, schedule[0], s);
      RunKeepsLongest(Step(f, schedule[0], s), schedule[1..], s);
    }
  }

  // --- what the steps stand for ------------------------------------------

  lemma {:induction false} TakeAllCursor(c: Client, history: seq<Event>, events: seq<Event>)
    ensures TakeAll(c, history, events).cursor == if events == [] then c.cursor else Some(events[|events| - 1].revision)
    decreases |events|
  {
    if events != [] {
      TakeAllCursor(Take(c, history, events[0]), history, events[1..]);
    }
  }

  /** A poll is what the client makes of the log's answer: it starts over at its next revision, or takes
      its events and goes on from its next revision. */
  lemma PollTakesTheAnswer(f: Feed, limit: nat, r: Snapshot)
    requires Inv(f) && Answers(r, f.history, f.first, Starting(f.client).cursor.value, limit)
    ensures PollStep(f, limit).client
            == if r.resyncRequired then Client(Some(r.nextRevision), |f.history|, [], f.client.restarts + 1)
               else TakeAll(Starting(f.client), f.history, r.events)
    ensures PollStep(f, limit).client.cursor == Some(r.nextRevision)
  {
    var start := Starting(f.client);
    PageIsASlice(f.history, Position(f.history, start.cursor.value), limit);
    TakeAllCursor(start, f.history, r.events);
  }

  /** The frames of a connection are the log's answer for as many events as the log may hold. */
  lemma ReplayIsTheAnswer(f: Feed, l: Limits, header: Header, resync: Event, r: Snapshot)
    requires Inv(f) && f.first == FirstKept(f.history, l) && !header.Malformed?
    requires var after := if header.Revision? then header.revision else Latest(f.history);
             Answers(r, f.history, f.first, after, l.maximumEvents)
    ensures Replay(f, header, resync) == if r.resyncRequired then [resync] else r.events
  {
    var after := if header.Revision? then header.revision else Latest(f.history);
    if !r.resyncRequired {
      NothingIsLeft(f.history, f.first, l, after);
      assert r.events == f.history[Position(f.history, after)..];
    }
  }

  /** What the log keeps is no more than a snapshot may hold. */
  lemma NothingIsLeft(history: seq<Event>, first: nat, l: Limits, after: nat)
    requires Increasing(history) && first == FirstKept(history, l) && (history != [] ==> first < |history|)
    requires !Stale(history, first, after)
    ensures |history| - Position(history, after) <= l.maximumEvents
  {
    StaleExactly(history, first, after);
    LongestFits(history, l, first);
  }

  /** An id as it stands in the text of a stream; the empty text is no id. */
  function IdText(id: Option<nat>): string {
    if id.Some? then Decimal(id.value) else ""
  }

  /** The feed and the text parser agree on the ids. */
  ghost predicate Mirrors(p: Parser, f: Feed) {
    p.idBuffer == IdText(f.reading.idBuffer) && p.lastEventId == IdText(f.client.cursor)
  }

  /** Delivering an item is what the text parser makes of its frame. */
  lemma DeliveryIsParsing(p: Parser, f: Feed)
    requires f.pipe != [] && Mirrors(p, f)
    ensures Mirrors(Receive(p, f.pipe[0]), DeliverStep(f))
    ensures Receive(p, f.pipe[0]).messages
            == p.messages + if f.pipe[0].EventItem? then [MessageOf(f.pipe[0].event)] else []
  {
  }

  /** `n` deliveries in a row. */
  function DeliverMany(f: Feed, n: nat): (r: Feed)
    requires n <= |f.pipe|
    ensures r.pipe == f.pipe[n..]
  {
    if n == 0 then f else DeliverStep(DeliverMany(f, n - 1))
  }

  lemma {:induction false} DeliveriesAreParsing(p: Parser, f: Feed, n: nat)
    requires n <= |f.pipe| && Mirrors(p, f)
    ensures Mirrors(ReceiveAll(p, f.pipe[..n]), DeliverMany(f, n))
  {
    if n > 0 {
      DeliveriesAreParsing(p, f, n - 1);
      assert f.pipe[..n][..n - 1] == f.pipe[..n - 1];
      DeliveryIsParsing(ReceiveAll(p, f.pipe[..n - 1]), DeliverMany(f, n - 1));
    }
  }

  /** Wherever the text of the pipe is cut, the client has its whole items delivered: it has the cursor
      that those deliveries leave, and the cut item is as good as never written. */
  lemma CutTextIsCutPipe(p: Parser, f: Feed, n: nat)
    requires p.data == "" && p.kind == "" && Mirrors(p, f) && n <= |EncodeAll(f.pipe)|
    requires forall i | 0 <= i < |f.pipe| :: ValidItem(f.pipe[i])
    ensures var whole := WholeItems(f.pipe, n);
            && Parse(p, EncodeAll(f.pipe)[..n]).lastEventId == IdText(DeliverMany(f, whole).client.cursor)
            && Parse(p, EncodeAll(f.pipe)[..n]).messages == ReceiveAll(p, f.pipe[..whole]).messages
  {
    CutStream(p, f.pipe, n);
    DeliveriesAreParsing(p, f, WholeItems(f.pipe, n));
  }

  // --- the cursor --------------------------------------------------------

  /** What the parser of a connection knows of its client's cursor. */
  ghost predicate Reads(f: Feed, s: Setting) {
    var r, cursor := f.reading, f.client.cursor;
    f.connected ==>
      && (r.idBuffer.None? <==> r.events == 0 && (r.sent.None? || !s.keepsId))
      && (r.events > 0 ==> cursor.Some?)
      && (r.events == 0 && r.blocks == 0 ==> cursor == r.sent)
      && (r.events == 0 && r.blocks > 0 ==> cursor == r.idBuffer)
      && (r.events == 0 && s.keepsId ==> r.idBuffer == r.sent)
  }

  lemma StepKeepsReads(f: Feed, a: Action, s: Setting)
    requires Reads(f, s)
    ensures Reads(Step(f, a, s), s)
  {
  }

  lemma {:induction false} RunKeepsReads(f: Feed, schedule: seq<Action>, s: Setting)
    requires Reads(f, s)
    ensures Reads(Run(f, schedule, s), s)
    decreases |schedule|
  {
    if schedule != [] {
      StepKeepsReads(f, schedule[0], s);
      RunKeepsReads(Step(f, schedule[0], s), schedule[1..], s);
    }
  }

  /** A connected client has no cursor exactly if no event has been delivered on its connection, and it
      had none before or its id buffer started out empty and a block has been delivered. */
  lemma NoCursorExactly(schedule: seq<Action>, s: Setting)
    ensures var end := Run(Start(), schedule, s);
            end.connected ==>
              (end.client.cursor.None? <==>
                && end.reading.events == 0
                && (end.reading.sent.None? || (!s.keepsId && end.reading.blocks > 0)))
  {
    RunKeepsReads(Start(), schedule, s);
  }

  /** A client that keeps its id never loses its cursor. */
  lemma {:induction false} CursorLasts(f: Feed, schedule: seq<Action>, s: Setting)
    requires s.keepsId && Reads(f, s) && f.client.cursor.Some?
    ensures Run(f, schedule, s).client.cursor.Some?
    decreases |schedule|
  {
    if schedule != [] {
      StepKeepsReads(f, schedule[0], s);
      StepKeepsCursor(f, schedule[0], s);
      CursorLasts(Step(f, schedule[0], s), schedule[1..], s);
    }
  }

  lemma StepKeepsCursor(f: Feed, a: Action, s: Setting)
    requires s.keepsId && Reads(f, s) && f.client.cursor.Some?
    ensures Step(f, a, s).client.cursor.Some?
  {
    if a.Poll? && Enabled(f, a, s) {
      TakeAllHasCursor(f.client, f.history, FirstN(f.history[Position(f.history, f.client.cursor.value)..], a.limit));
    }
  }

  lemma {:induction false} TakeAllHasCursor(c: Client, history: seq<Event>, events: seq<Event>)
    requires c.cursor.Some?
    ensures TakeAll(c, history, events).cursor.Some?
    decreases |events|
  {
    if events != [] {
      TakeAllHasCursor(Take(c, history, events[0]), history, events[1..]);
    }
  }

  /** So from the moment it has a cursor, no step of any run loses events to it. */
  lemma NeverSkippedWithKeptId(before: seq<Action>, after: seq<Action>, a: Action, s: Setting)
    requires ValidLimits(s.limits) && s.keepsId && Run(Start(), before, s).client.cursor.Some?
    ensures var f := Run(Run(Start(), before, s), after, s); !Skips(f.client, Step(f, a, s).client)
  {
    RunKeepsInv(Start(), before, s);
    RunKeepsReads(Start(), before, s);
    RunKeepsInv(Run(Start(), before, s), after, s);
    CursorLasts(Run(Start(), before, s), after, s);
    SkipsExactly(Run(Run(Start(), before, s), after, s), a, s);
  }

  /** From the opening of a stream that breaks right after its first block. */
  lemma BreaksAfterRetry(f: Feed, s: Setting, resync: Event)
    requires Enabled(f, Connect(false, resync), s) && f.client.cursor.Some?
    ensures var broken := Step(Step(Step(f, Connect(false, resync), s), Deliver, s), Drop, s);
            broken == f.(live := false, connected := false, pipe := [], reading := broken.reading,
                         client := f.client.(cursor := if s.keepsId then f.client.cursor else None))
  {
    var joined := ConnectStep(f, s, false, resync);
    assert joined.pipe[0] == Block(s.retry);
  }

  /** A client without a cursor misses whatever was published before it connects, and is not told. */
  lemma ConnectsAtTheEnd(f: Feed, s: Setting, resync: Event)
    requires Enabled(f, Connect(false, resync), s) && f.client.cursor.None? && Increasing(f.history)
             && f.first <= |f.history|
    ensures ConnectStep(f, s, false, resync)
            == Feed(f.history, f.first, true, true, [Block(s.retry)], Reading(None, None, 0, 0),
                    Client(None, |f.history|, [], f.client.restarts))
  {
    LatestIsAll(f.history);
    if f.first < |f.history| {
      IncreasingLatest(f.history, f.first);
    }
    assert Items([]) == [];
  }

  /** A client with a cursor that is behind finds an event in the pipe: the next one, or the order to resync. */
  lemma ConnectsWithNews(f: Feed, s: Setting, resync: Event)
    requires Inv(f) && Enabled(f, Connect(false, resync), s) && f.client.cursor.Some? && Reached(f.client) < |f.history|
    ensures var joined := ConnectStep(f, s, false, resync);
            && joined.client == f.client && |joined.pipe| >= 2
            && (joined.pipe[1] == EventItem(resync) || joined.pipe[1] == EventItem(f.history[Reached(f.client)]))
  {
  }

  /** The run [connect, deliver, drop, publish, connect] of a client with a cursor: the published event is
      lost to it, with nothing but a block in the pipe and no order to resync, exactly if its id buffer
      starts out empty. */
  lemma BrokenStreamLosesExactly(f: Feed, s: Setting, resync: Event, e: Event, next: Event)
    requires ValidLimits(s.limits) && Inv(f) && f.client.cursor.Some?
    requires Enabled(f, Connect(false, resync), s) && Enabled(f, Publish(e, false), s)
    requires next == Event(e.revision, ResyncRequired, "")
    ensures var end := Run(f, [Connect(false, resync), Deliver, Drop, Publish(e, false), Connect(false, next)], s);
            && end.live && end.history == f.history + [e] && end.client.restarts == f.client.restarts
            && (!s.keepsId <==> end.pipe == [Block(s.retry)])
            && (!s.keepsId <==> end.client.from == |end.history|)
            && (!s.keepsId ==> end.client.received == [] && end.client.cursor.None?)
  {
    RunFive(f, Connect(false, resync), Deliver, Drop, Publish(e, false), Connect(false, next), s);
    BreaksAfterRetry(f, s, resync);
    var broken := Step(Step(Step(f, Connect(false, resync), s), Deliver, s), Drop, s);
    BrokenKeepsInv(f, s, resync);
    var told := Step(broken, Publish(e, false), s);
    assert told == Published(broken, e, s.limits);
    PublishKeepsInv(broken, s, e, false);
    if s.keepsId {
      ConnectsWithNews(told, s, next);
    } else {
      ConnectsAtTheEnd(told, s, next);
    }
  }

  lemma BrokenKeepsInv(f: Feed, s: Setting, resync: Event)
    requires ValidLimits(s.limits) && Inv(f)
    ensures Inv(Step(Step(Step(f, Connect(false, resync), s), Deliver, s), Drop, s))
  {
    StepKeepsInv(f, Connect(false, resync), s);
    StepKeepsInv(Step(f, Connect(false, resync), s), Deliver, s);
    StepKeepsInv(Step(Step(f, Connect(false, resync), s), Deliver, s), Drop, s);
  }

  lemma RunFirst(f: Feed, schedule: seq<Action>, s: Setting)
    requires schedule != []
    ensures Run(f, schedule, s) == Run(Step(f, schedule[0], s), schedule[1..], s)
  {
  }

  lemma RunFive(f: Feed, a: Action, b: Action, c: Action, d: Action, e: Action, s: Setting)
    ensures Run(f, [a, b, c, d, e], s) == Step(Step(Step(Step(Step(f, a, s), b, s), c, s), d, s), e, s)
  {
    var two := Step(Step(f, a, s), b, s);
    var four := Step(Step(two, c, s), d, s);
    assert [a, b, c, d, e][1..] == [b, c, d, e] && [b, c, d, e][1..] == [c, d, e];
    RunFirst(f, [a, b, c, d, e], s);
    RunFirst(Step(f, a, s), [b, c, d, e], s);
    assert [c, d, e][1..] == [d, e] && [d, e][1..] == [e] && [e][1..] == [];
    RunFirst(two, [c, d, e], s);
    RunFirst(Step(two, c, s), [d, e], s);
    RunFirst(four, [e], s);
  }
}
