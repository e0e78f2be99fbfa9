/** What subscribers see of the upstream: whose failure ends their stream, and which connection state they are told. */
module UpstreamLaws {
  import opened Wrappers
  import opened RoomEvents
  import opened RoomEventLaws
  import opened GhostStreams

  // ---- Connectors and the sinks they complete

  predicate IsAttached(reg: Registry, hub: Hub, room: Room)
    requires room in reg.connectors
  {
    var conn := reg.connectors[room];
    room in hub.sinks && conn in hub.captured && hub.captured[conn] == Capture(room, hub.sinks[room])
  }

  /** A connector is its room's current one, or the sink it would complete is completed already. */
  predicate IsCurrentOrSpent(reg: Registry, hub: Hub, conn: ConnId)
    requires conn in hub.captured
  {
    var c := hub.captured[conn];
    c.sink in hub.completed || (c.room in reg.connectors && reg.connectors[c.room] == conn)
  }

  ghost predicate Attached(reg: Registry, hub: Hub) {
    && (forall room :: room in reg.connectors ==> IsAttached(reg, hub, room))
    && (forall conn :: conn in hub.captured ==> conn < reg.opens && IsCurrentOrSpent(reg, hub, conn))
  }

  lemma GrowthKeepsAttached(reg: Registry, hub: Hub, r: Registry, h: Hub)
    requires Attached(reg, hub)
    requires r.connectors == reg.connectors && r.opens == reg.opens
    requires h.captured == hub.captured && hub.completed <= h.completed
    requires forall room :: room in hub.sinks ==> room in h.sinks && h.sinks[room] == hub.sinks[room]
    ensures Attached(r, h)
  {
    forall room | room in r.connectors
      ensures IsAttached(r, h, room)
    {
      assert IsAttached(reg, hub, room);
    }
    forall conn | conn in h.captured
      ensures IsCurrentOrSpent(r, h, conn)
    {
      assert IsCurrentOrSpent(reg, hub, conn);
    }
  }

  /** The room's first subscriber: a new connector, attached to the sink the room has or is given. */
  lemma OpeningKeepsAttached(reg: Registry, hub: Hub, room: Room, r: Registry)
    requires Attached(reg, hub) && room !in reg.connectors
    requires r.connectors == reg.connectors[room := reg.opens] && r.opens == reg.opens + 1
    ensures Attached(r, Capturing(hub, reg.opens, room))
  {
    var h := Capturing(hub, reg.opens, room);
    forall other | other in r.connectors
      ensures IsAttached(r, h, other)
    {
      assert other != room ==> IsAttached(reg, hub, other);
    }
    forall conn | conn in h.captured
      ensures conn < r.opens && IsCurrentOrSpent(r, h, conn)
    {
      assert conn != reg.opens ==> IsCurrentOrSpent(reg, hub, conn);
    }
  }

  /** The last subscriber leaves: the connector goes and the sink it was attached to completes. */
  lemma ClosingKeepsAttached(reg: Registry, hub: Hub, room: Room, r: Registry)
    requires Attached(reg, hub) && room in reg.connectors
    requires r.connectors == reg.connectors - {room} && r.opens == reg.opens
    ensures Attached(r, Dropping(hub, room))
  {
    var h := Dropping(hub, room);
    assert IsAttached(reg, hub, room);
    forall other | other in r.connectors
      ensures IsAttached(r, h, other)
    {
      assert IsAttached(reg, hub, other);
    }
    forall conn | conn in h.captured
      ensures conn < r.opens && IsCurrentOrSpent(r, h, conn)
    {
      assert IsCurrentOrSpent(reg, hub, conn);
    }
  }

  lemma PublishGrows(hub: Hub, room: Room, d: Delivery)
    ensures var h := Publish(hub, room, d);
            && h.captured == hub.captured && h.completed == hub.completed
            && forall other :: other in hub.sinks ==> other in h.sinks && h.sinks[other] == hub.sinks[other]
  {
  }

  lemma ListeningGrows(hub: Hub, sub: SubId, room: Room, inbox: seq<Delivery>)
    ensures var h := Listening(hub, sub, room, inbox);
            && h.captured == hub.captured && h.completed == hub.completed
            && forall other :: other in hub.sinks ==> other in h.sinks && h.sinks[other] == hub.sinks[other]
  {
  }

  lemma SubscribeKeepsAttached(s: State, room: Room)
    requires Inv(s) && Attached(s.registry, s.hub)
    ensures Attached(AfterSubscribe(s, room).registry, AfterSubscribe(s, room).hub)
  {
    var reg, sub := Subscribed(s.registry, room), s.registry.nextSub;
    var replay := Replay(ListByRoom(s.table, room));
    SubscribedKeepsCounts(s.registry, room);
    assert room in s.registry.connectors <==> room in s.registry.counts;
    hide Inv, Attached, CountsMatch, HubMatches, Publish, Capturing, Listening, Replay, ListByRoom;
    if reg.counts[room] == 1 {
      var c := Capturing(s.hub, s.registry.opens, room);
      var connecting := Delivery(ConnectionState("connecting"), false);
      OpeningKeepsAttached(s.registry, s.hub, room, reg);
      PublishGrows(c, room, connecting);
      GrowthKeepsAttached(reg, c, reg, Publish(c, room, connecting));
      ListeningGrows(Publish(c, room, connecting), sub, room, replay);
      GrowthKeepsAttached(reg, Publish(c, room, connecting), reg, Listening(Publish(c, room, connecting), sub, room, replay));
    } else {
      var state := Delivery(ConnectionState(Get(s.lastState, room, "disconnected")), false);
      ListeningGrows(s.hub, sub, room, replay + [state]);
      GrowthKeepsAttached(s.registry, s.hub, reg, Listening(s.hub, sub, room, replay + [state]));
    }
  }

  lemma UnsubscribeKeepsAttached(s: State, sub: SubId)
    requires Inv(s) && Attached(s.registry, s.hub) && sub in s.registry.subs
    ensures Attached(AfterUnsubscribe(s, sub).registry, AfterUnsubscribe(s, sub).hub)
  {
    var room, t := s.registry.subs[sub], AfterCancel(s, sub);
    assert room in s.registry.counts && room in s.registry.connectors;
    hide Inv, Attached, CountsMatch, HubMatches, Dropping;
    GrowthKeepsAttached(s.registry, s.hub, t.registry, t.hub);
    if IsLast(s.registry, room) {
      ClosingKeepsAttached(t.registry, t.hub, room, Released(t.registry, room));
    } else {
      GrowthKeepsAttached(t.registry, t.hub, Released(t.registry, room), t.hub);
    }
  }

  lemma EmitKeepsAttached(s: State, t: State, room: Room, d: Delivery)
    requires Attached(s.registry, s.hub) && t.registry == s.registry && t.hub == s.hub
    ensures Attached(AfterEmit(t, room, d).registry, AfterEmit(t, room, d).hub)
  {
    PublishGrows(t.hub, room, d);
    hide Publish, Attached;
    GrowthKeepsAttached(t.registry, t.hub, t.registry, Publish(t.hub, room, d));
  }

  lemma CompletionKeepsAttached(s: State, conn: ConnId)
    requires Attached(s.registry, s.hub) && conn in s.hub.captured
    ensures Attached(s.registry, AfterConnectFailure(s, conn).hub)
    ensures Attached(s.registry, AfterDisconnect(s, conn).hub)
  {
    hide Attached;
    GrowthKeepsAttached(s.registry, s.hub, s.registry, AfterConnectFailure(s, conn).hub);
    GrowthKeepsAttached(s.registry, s.hub, s.registry, AfterDisconnect(s, conn).hub);
  }

  lemma StepKeepsAttached(s: State, step: Step)
    requires Inv(s) && Attached(s.registry, s.hub) && Enabled(s, step)
    ensures Attached(Next(s, step).registry, Next(s, step).hub)
  {
    hide Inv, Attached, AfterSubscribe, AfterUnsubscribe, AfterEmit, Complete, Deliver, Inserted, Deleted;
    match step {
      case Subscribes(room) => SubscribeKeepsAttached(s, room);
      case Unsubscribes(sub) => UnsubscribeKeepsAttached(s, sub);
      case UpstreamSends(conn, e) =>
        var room := s.hub.captured[conn].room;
        EmitKeepsAttached(s, if e.ConnectionState? then s.(lastState := s.lastState[room := e.state]) else s,
                          room, Delivery(e, false));
      case ConnectFails(conn) => CompletionKeepsAttached(s, conn);
      case Disconnects(conn) => CompletionKeepsAttached(s, conn);
      case GhostStarts(room, user) =>
        EmitKeepsAttached(s, s.(table := Inserted(s.table, Row(room, user))), room, Delivery(StageJoin(user, true), true));
      case GhostStops(room, user) =>
        EmitKeepsAttached(s, s.(table := Deleted(s.table, Row(room, user))), room, Delivery(StageQuit(user), true));
      case Kicks(room, user) => EmitKeepsAttached(s, s, room, Delivery(RoomKick(user), true));
    }
  }

  lemma {:induction false} RunKeepsAttached(run: seq<State>, steps: seq<Step>, k: nat)
    requires IsRun(run, steps) && k < |run|
    ensures Inv(run[k]) && Attached(run[k].registry, run[k].hub)
  {
    hide Inv;
    RunKeepsInv(run, steps, k);
    if k > 0 {
      RunKeepsAttached(run, steps, k - 1);
      StepKeepsAttached(run[k - 1], steps[k - 1]);
    }
  }

  /**
    * In every state a run reaches, a failed connection ends a live stream exactly when it is of the current connector
    * of the stream's room; late failures of connectors already closed end nobody's stream.
    */
  lemma FailureEndsItsRoom(run: seq<State>, steps: seq<Step>, k: nat, conn: ConnId, i: SubId)
    requires IsRun(run, steps) && k < |run|
    requires conn in run[k].hub.captured && i in run[k].registry.subs
    ensures i in run[k].hub.streams && run[k].registry.subs[i] in run[k].registry.connectors
    ensures
      var s, sink := run[k], run[k].hub.streams[i].sink;
      sink !in s.hub.completed ==>
        (sink in AfterConnectFailure(s, conn).hub.completed <==> s.registry.connectors[s.registry.subs[i]] == conn)
  {
    RunKeepsAttached(run, steps, k);
    EndsItsRoom(run[k], conn, i);
  }

  /**
    * A connector calls the disconnect listener only once it was closed, and it is closed only after it left the map:
    * then, in every state a run reaches, the call ends no live stream.
    */
  lemma DisconnectEndsNoStream(run: seq<State>, steps: seq<Step>, k: nat, conn: ConnId, i: SubId)
    requires IsRun(run, steps) && k < |run|
    requires conn in run[k].hub.captured && conn !in run[k].registry.connectors.Values
    requires i in run[k].registry.subs
    ensures
      var s, t := run[k], AfterDisconnect(run[k], conn);
      && i in s.hub.streams && t.hub.streams == s.hub.streams
      && (s.hub.streams[i].sink in t.hub.completed <==> s.hub.streams[i].sink in s.hub.completed)
  {
    RunKeepsAttached(run, steps, k);
    EndsItsRoom(run[k], conn, i);
    var connectors, room := run[k].registry.connectors, run[k].registry.subs[i];
    assert connectors[room] in connectors.Values;
  }

  lemma EndsItsRoom(s: State, conn: ConnId, i: SubId)
    requires CountsMatch(s.registry) && HubMatches(s.registry, s.hub) && Attached(s.registry, s.hub)
    requires conn in s.hub.captured && i in s.registry.subs
    ensures i in s.hub.streams && s.registry.subs[i] in s.registry.connectors
    ensures
      var sink := s.hub.streams[i].sink;
      sink !in s.hub.completed ==>
        (s.hub.captured[conn].sink == sink <==> s.registry.connectors[s.registry.subs[i]] == conn)
  {
    var room := s.registry.subs[i];
    assert room in s.registry.counts;
    assert ListensToRoom(s.registry.subs, s.hub, i);
    assert IsAttached(s.registry, s.hub, room);
    assert IsCurrentOrSpent(s.registry, s.hub, conn);
    var other := s.hub.captured[conn].room;
    assert other in s.registry.connectors ==> IsAttached(s.registry, s.hub, other);
  }

  // ---- The connection state a later subscriber is told

  /** The last connection state emitted for the room since it was torn down. */
  function LastStateIn(history: seq<Entry>, room: Room): Option<string> {
    if history == [] then None
    else
      var last := history[|history| - 1];
      if last == TornDown(room) then None
      else if last.Emitted? && last.room == room && last.event.ConnectionState? then Some(last.event.state)
      else LastStateIn(history[..|history| - 1], room)
  }

  function LastStateOf(s: State, room: Room): Option<string> {
    if room in s.lastState then Some(s.lastState[room]) else None
  }

  lemma UpstreamKeepsState(s: State, other: Room, e: RoomEvent, room: Room)
    requires LastStateOf(s, room) == LastStateIn(s.history, room)
    ensures LastStateOf(AfterUpstreamEvent(s, other, e), room) == LastStateIn(AfterUpstreamEvent(s, other, e).history, room)
  {
    hide Publish;
    var h := AfterUpstreamEvent(s, other, e).history;
    assert h[..|h| - 1] == s.history;
  }

  lemma SyntheticKeepsState(s: State, table: seq<Row>, other: Room, e: RoomEvent, room: Room)
    requires LastStateOf(s, room) == LastStateIn(s.history, room) && !e.ConnectionState?
    ensures
      var t := AfterEmitSynthetic(s.(table := table), other, e);
      LastStateOf(t, room) == LastStateIn(t.history, room)
  {
    hide Publish;
    var h := AfterEmitSynthetic(s.(table := table), other, e).history;
    if h != s.history {
      assert h[..|h| - 1] == s.history;
    }
  }

  lemma SubscribeKeepsState(s: State, other: Room, room: Room)
    requires LastStateOf(s, room) == LastStateIn(s.history, room)
    ensures LastStateOf(AfterSubscribe(s, other), room) == LastStateIn(AfterSubscribe(s, other).history, room)
  {
    hide Publish, Capturing, Listening, Replay, ListByRoom;
    var reg := Subscribed(s.registry, other);
    var t := s.(registry := reg, hub := Capturing(s.hub, s.registry.opens, other));
    UpstreamKeepsState(t, other, ConnectionState("connecting"), room);
  }

  lemma UnsubscribeKeepsState(s: State, sub: SubId, room: Room)
    requires LastStateOf(s, room) == LastStateIn(s.history, room) && sub in s.registry.subs
    ensures LastStateOf(AfterUnsubscribe(s, sub), room) == LastStateIn(AfterUnsubscribe(s, sub).history, room)
  {
    hide Dropping, Leaving;
    var h := AfterUnsubscribe(s, sub).history;
    if h != s.history {
      assert h[..|h| - 1] == s.history;
    }
  }

  /** In every state a run reaches, the state kept for a room is the last one emitted for it since its teardown. */
  lemma {:induction false} StateIsCurrent(run: seq<State>, steps: seq<Step>, k: nat, room: Room)
    requires IsRun(run, steps) && k < |run|
    ensures LastStateOf(run[k], room) == LastStateIn(run[k].history, room)
  {
    if k > 0 {
      StateIsCurrent(run, steps, k - 1, room);
      var s := run[k - 1];
      hide LastStateOf, LastStateIn, AfterSubscribe, AfterUnsubscribe, AfterUpstreamEvent, AfterEmitSynthetic;
      match steps[k - 1] {
        case Subscribes(other) => SubscribeKeepsState(s, other, room);
        case Unsubscribes(sub) => UnsubscribeKeepsState(s, sub, room);
        case UpstreamSends(conn, e) => UpstreamKeepsState(s, s.hub.captured[conn].room, e, room);
        case GhostStarts(other, user) =>
          SyntheticKeepsState(s, Inserted(s.table, Row(other, user)), other, StageJoin(user, true), room);
        case GhostStops(other, user) =>
          SyntheticKeepsState(s, Deleted(s.table, Row(other, user)), other, StageQuit(user), room);
        case Kicks(other, user) => SyntheticKeepsState(s, s.table, other, RoomKick(user), room);
        case ConnectFails(conn) => HubHoldsNoState(s, run[k], room);
        case Disconnects(conn) => HubHoldsNoState(s, run[k], room);
      }
    }
  }

  lemma HubHoldsNoState(s: State, t: State, room: Room)
    requires LastStateOf(s, room) == LastStateIn(s.history, room) && t == s.(hub := t.hub)
    ensures LastStateOf(t, room) == LastStateIn(t.history, room)
  {
  }

  predicate HasState(s: State, room: Room) {
    room in s.registry.counts ==> room in s.lastState
  }

  lemma StepKeepsHasState(s: State, step: Step, room: Room)
    requires HasState(s, room) && Enabled(s, step)
    ensures HasState(Next(s, step), room)
  {
    hide Publish, Capturing, Listening, Dropping, Leaving, Replay, ListByRoom, Inserted, Deleted;
  }

  /** A room with subscribers always has a state: its first subscriber's "connecting", or a later one. */
  lemma {:induction false} SubscribedRoomsHaveState(run: seq<State>, steps: seq<Step>, k: nat, room: Room)
    requires IsRun(run, steps) && k < |run|
    ensures HasState(run[k], room)
  {
    if k > 0 {
      SubscribedRoomsHaveState(run, steps, k - 1, room);
      StepKeepsHasState(run[k - 1], steps[k - 1], room);
    }
  }

  /** Who joins a room with subscribers is told, last of all at once, the last state emitted; there always is one. */
  lemma LaterSubscriberIsToldTheState(run: seq<State>, steps: seq<Step>, k: nat, room: Room)
    requires IsRun(run, steps) && k < |run| && room in run[k].registry.counts
    ensures
      var t, sub := AfterSubscribe(run[k], room), run[k].registry.nextSub;
      var told := LastStateIn(run[k].history, room);
      && told.Some? && sub in t.hub.streams && t.hub.streams[sub].inbox != []
      && t.hub.streams[sub].inbox[|t.hub.streams[sub].inbox| - 1] == Delivery(ConnectionState(told.value), false)
  {
    RunKeepsInv(run, steps, k);
    StateIsCurrent(run, steps, k, room);
    SubscribedRoomsHaveState(run, steps, k, room);
    assert CountIs(run[k].registry, room);
    hide Replay, ListByRoom, CountsMatch, HubMatches, GhostsMatch, IsRun;
  }
}
