/** Room subscriptions and ghost publishers: the state of `RoomEventSource` and its repository, and each operation on it. */
module RoomEvents {

  datatype Room = Room(cname: string)
  type User = int
  type SubId = nat
  type SinkId = nat
  type ConnId = nat

  datatype RoomEvent =
    | UserJoin(user: User)
    | UserQuit(user: User)
    | StageJoin(user: User, isGhost: bool)
    | StageQuit(user: User)
    | RoomKick(user: User)
    | ConnectionState(state: string)
    | UpstreamError
    | OtherEvent

  predicate AudienceAffecting(e: RoomEvent) {
    e.UserJoin? || e.UserQuit? || e.StageJoin? || e.RoomKick?
  }

  /** An event in a subscriber's stream. `synthetic`: replayed on subscription, or emitted by a controller. */
  datatype Delivery = Delivery(event: RoomEvent, synthetic: bool)

  /** One row of the `ghost_publisher` table; rows are kept in the order of `started_at`. */
  datatype Row = Row(room: Room, user: User)

  /**
    * The maps `connectors` and `counts`, the open subscriptions they account for,
    * and how many connectors were ever opened and closed.
    */
  datatype Registry = Registry(
    connectors: map<Room, ConnId>, counts: map<Room, nat>,
    subs: map<SubId, Room>, nextSub: SubId, opens: ConnId, closes: nat)

  datatype Stream = Stream(sink: SinkId, inbox: seq<Delivery>)

  /** The map `sinks`, the sinks already completed, the streams listening, and the sink each connector completes. */
  datatype Hub = Hub(
    sinks: map<Room, SinkId>, nextSink: SinkId, completed: set<SinkId>,
    streams: map<SubId, Stream>, captured: map<ConnId, Capture>)

  datatype Capture = Capture(room: Room, sink: SinkId)

  datatype Entry = Emitted(room: Room, event: RoomEvent) | TornDown(room: Room)

  datatype State = State(
    table: seq<Row>, registry: Registry, hub: Hub,
    revisions: map<Room, nat>, lastState: map<Room, string>, history: seq<Entry>)

  function Get<T>(m: map<Room, T>, room: Room, default: T): T {
    if room in m then m[room] else default
  }

  // ---- Sinks

  /** `sinkFor`: the room's sink, created when absent. */
  function WithSink(hub: Hub, room: Room): (h: Hub)
    ensures room in h.sinks
  {
    if room in hub.sinks then hub
    else hub.(sinks := hub.sinks[room := hub.nextSink], nextSink := hub.nextSink + 1)
  }

  /** An emission to a completed sink is lost. */
  function Deliver(hub: Hub, sink: SinkId, d: Delivery): Hub {
    if sink in hub.completed then hub
    else hub.(streams := map i | i in hub.streams :: Received(hub.streams[i], sink, d))
  }

  function Received(stream: Stream, sink: SinkId, d: Delivery): Stream {
    if stream.sink == sink then stream.(inbox := stream.inbox + [d]) else stream
  }

  function Publish(hub: Hub, room: Room, d: Delivery): Hub {
    var h := WithSink(hub, room);
    Deliver(h, h.sinks[room], d)
  }

  function Complete(hub: Hub, sink: SinkId): Hub {
    hub.(completed := hub.completed + {sink})
  }

  function Capturing(hub: Hub, conn: ConnId, room: Room): Hub {
    var h := WithSink(hub, room);
    h.(captured := h.captured[conn := Capture(room, h.sinks[room])])
  }

  function Listening(hub: Hub, sub: SubId, room: Room, inbox: seq<Delivery>): Hub {
    var h := WithSink(hub, room);
    h.(streams := h.streams[sub := Stream(h.sinks[room], inbox)])
  }

  function Leaving(hub: Hub, sub: SubId): Hub {
    hub.(streams := hub.streams - {sub})
  }

  function Dropping(hub: Hub, room: Room): Hub {
    if room in hub.sinks then Complete(hub, hub.sinks[room]).(sinks := hub.sinks - {room}) else hub
  }

  // ---- Subscriptions

  function Subscribed(reg: Registry, room: Room): Registry {
    var r := reg.(counts := reg.counts[room := Get(reg.counts, room, 0) + 1],
                  subs := reg.subs[reg.nextSub := room], nextSub := reg.nextSub + 1);
    if r.counts[room] == 1 then r.(connectors := reg.connectors[room := reg.opens], opens := reg.opens + 1) else r
  }

  /** Whether leaving `room` leaves it without subscribers. */
  predicate IsLast(reg: Registry, room: Room) {
    room in reg.counts && reg.counts[room] <= 1
  }

  /** One subscriber fewer; without any, the room's count and connector go. */
  function Released(reg: Registry, room: Room): Registry {
    if room !in reg.counts then reg
    else if IsLast(reg, room) then
      reg.(counts := reg.counts - {room}, connectors := reg.connectors - {room},
           closes := reg.closes + if room in reg.connectors then 1 else 0)
    else reg.(counts := reg.counts[room := reg.counts[room] - 1])
  }

  function Unsubscribed(reg: Registry, sub: SubId): Registry
    requires sub in reg.subs
  {
    Released(reg.(subs := reg.subs - {sub}), reg.subs[sub])
  }

  // ---- The ghost publishers' table

  /** `listByRoom`: the users of the room's rows, in order. */
  function ListByRoom(table: seq<Row>, room: Room): seq<User> {
    if table == [] then []
    else
      var last := table[|table| - 1];
      if last.room == room then ListByRoom(table[..|table| - 1], room) + [last.user]
      else ListByRoom(table[..|table| - 1], room)
  }

  /** What a new subscriber is told of the ghosts already publishing. */
  function Replay(users: seq<User>): seq<Delivery> {
    if users == [] then []
    else Replay(users[..|users| - 1]) + [Delivery(StageJoin(users[|users| - 1], true), true)]
  }

  function Inserted(table: seq<Row>, row: Row): seq<Row> {
    if row in table then table else table + [row]
  }

  function Deleted(table: seq<Row>, row: Row): seq<Row> {
    if table == [] then []
    else
      var last := table[|table| - 1];
      if last == row then Deleted(table[..|table| - 1], row) else Deleted(table[..|table| - 1], row) + [last]
  }

  // ---- Operations

  /** `emitWithRevisionBump` */
  function AfterEmit(s: State, room: Room, d: Delivery): State {
    s.(revisions := if AudienceAffecting(d.event) then s.revisions[room := Get(s.revisions, room, 0) + 1] else s.revisions,
       hub := Publish(s.hub, room, d),
       history := s.history + [Emitted(room, d.event)])
  }

  /** `emitAndTrackState`: an event of the upstream, whose room may have been torn down meanwhile. */
  function AfterUpstreamEvent(s: State, room: Room, e: RoomEvent): State {
    AfterEmit(if e.ConnectionState? then s.(lastState := s.lastState[room := e.state]) else s, room, Delivery(e, false))
  }

  /** `emitSynthetic`: dropped when nobody subscribes to the room. */
  function AfterEmitSynthetic(s: State, room: Room, e: RoomEvent): State {
    if Get(s.registry.counts, room, 0) == 0 then s else AfterEmit(s, room, Delivery(e, true))
  }

  /** The first subscriber opens the upstream; later ones are told its last state. All are replayed the ghosts. */
  function AfterSubscribe(s: State, room: Room): State {
    var replay := Replay(ListByRoom(s.table, room));
    var reg := Subscribed(s.registry, room);
    if reg.counts[room] == 1 then
      var t := AfterUpstreamEvent(s.(registry := reg, hub := Capturing(s.hub, s.registry.opens, room)),
                                  room, ConnectionState("connecting"));
      t.(hub := Listening(t.hub, s.registry.nextSub, room, replay))
    else
      var state := Delivery(ConnectionState(Get(s.lastState, room, "disconnected")), false);
      s.(registry := reg, hub := Listening(s.hub, s.registry.nextSub, room, replay + [state]))
  }

  function AfterRelease(s: State, room: Room): State {
    var t := s.(registry := Released(s.registry, room));
    if IsLast(s.registry, room) then
      t.(hub := Dropping(s.hub, room), revisions := s.revisions - {room}, lastState := s.lastState - {room},
         history := s.history + [TornDown(room)])
    else t
  }

  function AfterCancel(s: State, sub: SubId): State {
    s.(registry := s.registry.(subs := s.registry.subs - {sub}), hub := Leaving(s.hub, sub))
  }

  /** A subscriber closes its stream and gives its room back. */
  function AfterUnsubscribe(s: State, sub: SubId): State
    requires sub in s.registry.subs
  {
    AfterRelease(AfterCancel(s, sub), s.registry.subs[sub])
  }

  /** A failed connection is reported to the sink it was opened with, which then completes. */
  function AfterConnectFailure(s: State, conn: ConnId): State
    requires conn in s.hub.captured
  {
    var sink := s.hub.captured[conn].sink;
    s.(hub := Complete(Deliver(s.hub, sink, Delivery(UpstreamError, false)), sink))
  }

  function AfterDisconnect(s: State, conn: ConnId): State
    requires conn in s.hub.captured
  {
    s.(hub := Complete(s.hub, s.hub.captured[conn].sink))
  }

  /** `startGhostPublish`: the second start of a user changes nothing. */
  function AfterStartGhost(s: State, room: Room, user: User): State {
    if Row(room, user) in s.table then s
    else AfterEmitSynthetic(s.(table := Inserted(s.table, Row(room, user))), room, StageJoin(user, true))
  }

  /** `stopGhostPublish`: stopping a user who is not publishing changes nothing. */
  function AfterStopGhost(s: State, room: Room, user: User): State {
    if Row(room, user) !in s.table then s
    else AfterEmitSynthetic(s.(table := Deleted(s.table, Row(room, user))), room, StageQuit(user))
  }

  // ---- Runs

  datatype Step =
    | Subscribes(room: Room)
    | Unsubscribes(sub: SubId)
    | UpstreamSends(conn: ConnId, event: RoomEvent)
    | ConnectFails(conn: ConnId)
    | Disconnects(conn: ConnId)
    | GhostStarts(room: Room, user: User)
    | GhostStops(room: Room, user: User)
    | Kicks(room: Room, user: User)

  /** Each unsubscription is of a subscription still open; upstream callbacks are of connectors opened before. */
  predicate Enabled(s: State, step: Step) {
    match step
    case Unsubscribes(sub) => sub in s.registry.subs
    case UpstreamSends(conn, _) => conn in s.hub.captured
    case ConnectFails(conn) => conn in s.hub.captured
    case Disconnects(conn) => conn in s.hub.captured
    case _ => true
  }

  function Next(s: State, step: Step): State
    requires Enabled(s, step)
  {
    match step
    case Subscribes(room) => AfterSubscribe(s, room)
    case Unsubscribes(sub) => AfterUnsubscribe(s, sub)
    case UpstreamSends(conn, e) => AfterUpstreamEvent(s, s.hub.captured[conn].room, e)
    case ConnectFails(conn) => AfterConnectFailure(s, conn)
    case Disconnects(conn) => AfterDisconnect(s, conn)
    case GhostStarts(room, user) => AfterStartGhost(s, room, user)
    case GhostStops(room, user) => AfterStopGhost(s, room, user)
    case Kicks(room, user) => AfterEmitSynthetic(s, room, RoomKick(user))
  }

  function Initial(table: seq<Row>): State {
    State(table, Registry(map[], map[], map[], 0, 0, 0), Hub(map[], 0, {}, map[], map[]), map[], map[], [])
  }

  /** The table's primary key; rows of an earlier process may be there from the start. */
  predicate DistinctRows(table: seq<Row>) {
    forall i, j :: 0 <= i < j < |table| ==> table[i] != table[j]
  }

  ghost predicate IsRun(run: seq<State>, steps: seq<Step>) {
    && |run| == |steps| + 1
    && DistinctRows(run[0].table) && run[0] == Initial(run[0].table)
    && forall k :: 0 <= k < |steps| ==> Enabled(run[k], steps[k]) && run[k + 1] == Next(run[k], steps[k])
  }
}
