/** What every run of the room subscriptions keeps: counts, sinks, ghosts and audience revisions. */
module RoomEventLaws {
  import opened RoomEvents

  // ---- Subscriptions are counted

  function SubsOf(subs: map<SubId, Room>, room: Room): set<SubId> {
    set i | i in subs && subs[i] == room
  }

  predicate CountIs(reg: Registry, room: Room)
    requires room in reg.counts
  {
    reg.counts[room] == |SubsOf(reg.subs, room)| > 0
  }

  /** One connector per room with subscribers, and none else; each count is the number of open subscriptions. */
  ghost predicate CountsMatch(reg: Registry) {
    && reg.connectors.Keys == reg.counts.Keys
    && (forall room :: room in reg.counts ==> CountIs(reg, room))
    && (forall i :: i in reg.subs ==> i < reg.nextSub && reg.subs[i] in reg.counts)
    && reg.opens == reg.closes + |reg.connectors|
  }

  lemma OneMore(subs: map<SubId, Room>, sub: SubId, room: Room, other: Room)
    requires sub !in subs
    ensures |SubsOf(subs[sub := room], other)| == |SubsOf(subs, other)| + if other == room then 1 else 0
  {
    assert SubsOf(subs[sub := room], other) == SubsOf(subs, other) + if other == room then {sub} else {};
  }

  lemma OneLess(subs: map<SubId, Room>, sub: SubId, other: Room)
    requires sub in subs
    ensures |SubsOf(subs - {sub}, other)| == |SubsOf(subs, other)| - if other == subs[sub] then 1 else 0
    ensures SubsOf(subs - {sub}, other) == SubsOf(subs, other) - {sub}
  {
    assert SubsOf(subs - {sub}, other) == SubsOf(subs, other) - {sub};
  }

  lemma SubscribedKeepsCount(reg: Registry, room: Room, other: Room)
    requires CountsMatch(reg) && other in Subscribed(reg, room).counts
    ensures CountIs(Subscribed(reg, room), other)
  {
    OneMore(reg.subs, reg.nextSub, room, other);
    if other in reg.counts {
      assert CountIs(reg, other);
    } else {
      assert SubsOf(reg.subs, other) == {};
    }
  }

  lemma SubscribedKeepsCounts(reg: Registry, room: Room)
    requires CountsMatch(reg)
    ensures CountsMatch(Subscribed(reg, room))
    ensures Subscribed(reg, room).counts[room] == 1 <==> room !in reg.counts
  {
    forall other | other in Subscribed(reg, room).counts
      ensures CountIs(Subscribed(reg, room), other)
    {
      SubscribedKeepsCount(reg, room, other);
    }
    assert room in reg.counts ==> CountIs(reg, room);
    hide CountIs;
    assert room !in reg.counts ==> |reg.connectors[room := reg.opens]| == |reg.connectors| + 1;
  }

  lemma LastSubscriberLeaves(reg: Registry, sub: SubId)
    requires CountsMatch(reg) && sub in reg.subs
    ensures reg.subs[sub] in reg.counts
    ensures IsLast(reg, reg.subs[sub]) <==> SubsOf(reg.subs - {sub}, reg.subs[sub]) == {}
  {
    assert CountIs(reg, reg.subs[sub]);
    OneLess(reg.subs, sub, reg.subs[sub]);
  }

  lemma RestKeepsCount(reg: Registry, sub: SubId, other: Room)
    requires CountsMatch(reg) && sub in reg.subs && other in Unsubscribed(reg, sub).counts
    ensures CountIs(Unsubscribed(reg, sub), other)
  {
    assert CountIs(reg, other);
    OneLess(reg.subs, sub, other);
  }

  lemma UnsubscribedKeepsCounts(reg: Registry, sub: SubId)
    requires CountsMatch(reg) && sub in reg.subs
    ensures CountsMatch(Unsubscribed(reg, sub))
  {
    var room, r := reg.subs[sub], Unsubscribed(reg, sub);
    LastSubscriberLeaves(reg, sub);
    forall other | other in r.counts
      ensures CountIs(r, other)
    {
      RestKeepsCount(reg, sub, other);
    }
    hide CountIs;
    forall i | i in r.subs
      ensures r.subs[i] in r.counts
    {
      assert r.subs[i] == room ==> i in SubsOf(reg.subs - {sub}, room);
    }
    assert |reg.connectors - {room}| == |reg.connectors| - 1 by {
      assert (reg.connectors - {room})[room := reg.connectors[room]] == reg.connectors;
    }
  }

  lemma StepKeepsCounts(s: State, step: Step)
    requires CountsMatch(s.registry) && Enabled(s, step)
    ensures CountsMatch(Next(s, step).registry)
  {
    hide CountsMatch, Subscribed, Released, IsLast, Publish, Listening, Capturing, Dropping, Leaving;
    match step {
      case Subscribes(room) => SubscribedKeepsCounts(s.registry, room);
      case Unsubscribes(sub) => UnsubscribedKeepsCounts(s.registry, sub);
      case _ =>
    }
  }

  // ---- Subscribers listen to their room's sink

  predicate ListensToRoom(subs: map<SubId, Room>, hub: Hub, i: SubId)
    requires i in subs
  {
    i in hub.streams && subs[i] in hub.sinks && hub.sinks[subs[i]] == hub.streams[i].sink
  }

  /** No connector was ever told of the room's sink, and nothing completed it. */
  predicate Untouched(hub: Hub, room: Room)
    requires room in hub.sinks
  {
    hub.sinks[room] !in hub.completed && forall c :: c in hub.captured ==> hub.captured[c].sink != hub.sinks[room]
  }

  ghost predicate SinksMatch(subs: map<SubId, Room>, hub: Hub) {
    && hub.streams.Keys == subs.Keys
    && (forall i :: i in subs ==> ListensToRoom(subs, hub, i))
    && SinksAreApart(hub)
  }

  ghost predicate SinksAreApart(hub: Hub) {
    && (forall room :: room in hub.sinks ==> hub.sinks[room] < hub.nextSink)
    && (forall a, b :: a in hub.sinks && b in hub.sinks && a != b ==> hub.sinks[a] != hub.sinks[b])
    && (forall k :: k in hub.completed ==> k < hub.nextSink)
    && (forall c :: c in hub.captured ==> hub.captured[c].sink < hub.nextSink)
  }

  /** A room's sink that outlives, or precedes, its connector is untouched. */
  ghost predicate IdleSinksUntouched(counts: map<Room, nat>, hub: Hub) {
    forall room :: room in hub.sinks && room !in counts ==> Untouched(hub, room)
  }

  ghost predicate HubMatches(reg: Registry, hub: Hub) {
    SinksMatch(reg.subs, hub) && IdleSinksUntouched(reg.counts, hub)
  }

  lemma WithSinkKeepsApart(hub: Hub, room: Room)
    requires SinksAreApart(hub)
    ensures SinksAreApart(WithSink(hub, room))
  {
  }

  lemma WithSinkIsFresh(hub: Hub, room: Room)
    requires SinksAreApart(hub)
    requires room in hub.sinks ==> Untouched(hub, room)
    ensures Untouched(WithSink(hub, room), room)
  {
  }

  lemma WithSinkKeepsHub(reg: Registry, hub: Hub, room: Room)
    requires HubMatches(reg, hub)
    ensures HubMatches(reg, WithSink(hub, room))
  {
    var h := WithSink(hub, room);
    WithSinkKeepsApart(hub, room);
    forall i | i in reg.subs
      ensures ListensToRoom(reg.subs, h, i)
    {
      assert ListensToRoom(reg.subs, hub, i);
    }
    forall other | other in h.sinks && other !in reg.counts
      ensures Untouched(h, other)
    {
      if other in hub.sinks {
        assert Untouched(hub, other);
      } else {
        WithSinkIsFresh(hub, room);
      }
    }
  }

  lemma DeliverKeepsStreams(hub: Hub, sink: SinkId, d: Delivery)
    ensures Deliver(hub, sink, d).(streams := hub.streams) == hub
    ensures Deliver(hub, sink, d).streams.Keys == hub.streams.Keys
    ensures forall i :: i in hub.streams ==> Deliver(hub, sink, d).streams[i].sink == hub.streams[i].sink
  {
  }

  lemma SameSinksMatch(reg: Registry, hub: Hub, h: Hub)
    requires HubMatches(reg, hub)
    requires h.(streams := hub.streams) == hub && h.streams.Keys == hub.streams.Keys
    requires forall i :: i in hub.streams ==> h.streams[i].sink == hub.streams[i].sink
    ensures HubMatches(reg, h)
  {
    assert SinksAreApart(h);
    hide SinksAreApart;
    forall i | i in reg.subs
      ensures ListensToRoom(reg.subs, h, i)
    {
      assert ListensToRoom(reg.subs, hub, i);
    }
    forall other | other in h.sinks && other !in reg.counts
      ensures Untouched(h, other)
    {
      assert Untouched(hub, other);
    }
  }

  lemma DeliverKeepsHub(reg: Registry, hub: Hub, sink: SinkId, d: Delivery)
    requires HubMatches(reg, hub)
    ensures HubMatches(reg, Deliver(hub, sink, d))
  {
    hide HubMatches, Deliver;
    DeliverKeepsStreams(hub, sink, d);
    SameSinksMatch(reg, hub, Deliver(hub, sink, d));
  }

  lemma PublishKeepsHub(reg: Registry, hub: Hub, room: Room, d: Delivery)
    requires HubMatches(reg, hub)
    ensures HubMatches(reg, Publish(hub, room, d))
  {
    hide HubMatches;
    var h := WithSink(hub, room);
    WithSinkKeepsHub(reg, hub, room);
    DeliverKeepsHub(reg, h, h.sinks[room], d);
  }

  /** Completing a sink some connector captured spoils no idle sink. */
  lemma CompleteKeepsHub(reg: Registry, hub: Hub, conn: ConnId)
    requires HubMatches(reg, hub) && conn in hub.captured
    ensures HubMatches(reg, Complete(hub, hub.captured[conn].sink))
  {
    var h := Complete(hub, hub.captured[conn].sink);
    forall i | i in reg.subs
      ensures ListensToRoom(reg.subs, h, i)
    {
      assert ListensToRoom(reg.subs, hub, i);
    }
    forall other | other in h.sinks && other !in reg.counts
      ensures Untouched(h, other)
    {
      assert Untouched(hub, other);
    }
  }

  lemma CapturingKeepsHub(reg: Registry, hub: Hub, conn: ConnId, room: Room)
    requires HubMatches(reg, hub) && room in reg.counts
    ensures HubMatches(reg, Capturing(hub, conn, room))
  {
    WithSinkKeepsHub(reg, hub, room);
    var w, h := WithSink(hub, room), Capturing(hub, conn, room);
    forall i | i in reg.subs
      ensures ListensToRoom(reg.subs, h, i)
    {
      assert ListensToRoom(reg.subs, w, i);
    }
    forall other | other in h.sinks && other !in reg.counts
      ensures Untouched(h, other)
    {
      assert Untouched(w, other);
    }
  }

  lemma ListenerJoins(subs: map<SubId, Room>, hub: Hub, sub: SubId, room: Room, inbox: seq<Delivery>)
    requires SinksMatch(subs, hub) && room in hub.sinks
    ensures SinksMatch(subs[sub := room], hub.(streams := hub.streams[sub := Stream(hub.sinks[room], inbox)]))
  {
    var joined, h := subs[sub := room], hub.(streams := hub.streams[sub := Stream(hub.sinks[room], inbox)]);
    forall i | i in joined
      ensures ListensToRoom(joined, h, i)
    {
      assert i in subs ==> ListensToRoom(subs, hub, i);
    }
  }

  lemma IdleSinksStay(counts: map<Room, nat>, more: map<Room, nat>, hub: Hub, h: Hub)
    requires IdleSinksUntouched(counts, hub) && counts.Keys <= more.Keys
    requires h.sinks == hub.sinks && h.completed == hub.completed && h.captured == hub.captured
    ensures IdleSinksUntouched(more, h)
  {
    forall room | room in h.sinks && room !in more
      ensures Untouched(h, room)
    {
      assert Untouched(hub, room);
    }
  }

  lemma ListeningKeepsHub(reg: Registry, r: Registry, hub: Hub, sub: SubId, room: Room, inbox: seq<Delivery>)
    requires HubMatches(reg, hub)
    requires r.subs == reg.subs[sub := room] && reg.counts.Keys <= r.counts.Keys
    ensures HubMatches(r, Listening(hub, sub, room, inbox))
  {
    hide SinksMatch, IdleSinksUntouched, WithSink;
    WithSinkKeepsHub(reg, hub, room);
    ListenerJoins(reg.subs, WithSink(hub, room), sub, room, inbox);
    IdleSinksStay(reg.counts, r.counts, WithSink(hub, room), Listening(hub, sub, room, inbox));
  }

  lemma LeavingKeepsHub(reg: Registry, r: Registry, hub: Hub, sub: SubId)
    requires HubMatches(reg, hub)
    requires r.subs == reg.subs - {sub} && r.counts.Keys == reg.counts.Keys
    ensures HubMatches(r, Leaving(hub, sub))
  {
    var h := Leaving(hub, sub);
    forall i | i in r.subs
      ensures ListensToRoom(r.subs, h, i)
    {
      assert ListensToRoom(reg.subs, hub, i);
    }
    forall other | other in h.sinks && other !in r.counts
      ensures Untouched(h, other)
    {
      assert Untouched(hub, other);
    }
  }

  lemma SinkGoes(subs: map<SubId, Room>, hub: Hub, room: Room)
    requires SinksMatch(subs, hub) && SubsOf(subs, room) == {} && room in hub.sinks
    ensures SinksMatch(subs, Complete(hub, hub.sinks[room]).(sinks := hub.sinks - {room}))
  {
    var h := Complete(hub, hub.sinks[room]).(sinks := hub.sinks - {room});
    forall i | i in subs
      ensures ListensToRoom(subs, h, i)
    {
      assert ListensToRoom(subs, hub, i);
      assert subs[i] == room ==> i in SubsOf(subs, room);
    }
  }

  lemma OtherIdleSinksStay(counts: map<Room, nat>, hub: Hub, room: Room)
    requires IdleSinksUntouched(counts, hub) && SinksAreApart(hub) && room in hub.sinks
    ensures IdleSinksUntouched(counts - {room}, Complete(hub, hub.sinks[room]).(sinks := hub.sinks - {room}))
  {
    var h := Complete(hub, hub.sinks[room]).(sinks := hub.sinks - {room});
    forall other | other in h.sinks && other !in counts - {room}
      ensures Untouched(h, other)
    {
      assert Untouched(hub, other);
    }
  }

  lemma DroppingKeepsHub(reg: Registry, r: Registry, hub: Hub, room: Room)
    requires HubMatches(reg, hub) && SubsOf(reg.subs, room) == {}
    requires r.subs == reg.subs && r.counts == reg.counts - {room}
    ensures HubMatches(r, Dropping(hub, room))
  {
    assert SinksAreApart(hub);
    if room in hub.sinks {
      SinkGoes(reg.subs, hub, room);
      OtherIdleSinksStay(reg.counts, hub, room);
    }
  }

  lemma SubscribeKeepsHub(s: State, room: Room)
    requires HubMatches(s.registry, s.hub)
    ensures HubMatches(AfterSubscribe(s, room).registry, AfterSubscribe(s, room).hub)
  {
    var reg, sub := Subscribed(s.registry, room), s.registry.nextSub;
    var counted := s.registry.(counts := reg.counts);
    var replay := Replay(ListByRoom(s.table, room));
    if reg.counts[room] == 1 {
      var c := Capturing(s.hub, s.registry.opens, room);
      var connecting := Delivery(ConnectionState("connecting"), false);
      assert HubMatches(counted, s.hub);
      hide HubMatches, Capturing, Publish, Listening, Replay, ListByRoom;
      CapturingKeepsHub(counted, s.hub, s.registry.opens, room);
      PublishKeepsHub(counted, c, room, connecting);
      ListeningKeepsHub(counted, reg, Publish(c, room, connecting), sub, room, replay);
    } else {
      hide HubMatches, Listening, Replay, ListByRoom;
      var state := Delivery(ConnectionState(Get(s.lastState, room, "disconnected")), false);
      ListeningKeepsHub(s.registry, reg, s.hub, sub, room, replay + [state]);
    }
  }

  lemma UnsubscribeKeepsHub(s: State, sub: SubId)
    requires CountsMatch(s.registry) && HubMatches(s.registry, s.hub) && sub in s.registry.subs
    ensures HubMatches(AfterUnsubscribe(s, sub).registry, AfterUnsubscribe(s, sub).hub)
  {
    var room := s.registry.subs[sub];
    var left, reg := s.registry.(subs := s.registry.subs - {sub}), Unsubscribed(s.registry, sub);
    var h := Leaving(s.hub, sub);
    assert room in s.registry.counts;
    LastSubscriberLeaves(s.registry, sub);
    hide HubMatches, CountsMatch, Leaving, Dropping;
    if IsLast(s.registry, room) {
      LeavingKeepsHub(s.registry, left, s.hub, sub);
      DroppingKeepsHub(left, reg, h, room);
    } else {
      LeavingKeepsHub(s.registry, reg, s.hub, sub);
    }
  }

  lemma FailureKeepsHub(s: State, conn: ConnId)
    requires HubMatches(s.registry, s.hub) && conn in s.hub.captured
    ensures HubMatches(s.registry, AfterConnectFailure(s, conn).hub)
  {
    hide HubMatches;
    var sink := s.hub.captured[conn].sink;
    DeliverKeepsHub(s.registry, s.hub, sink, Delivery(UpstreamError, false));
    CompleteKeepsHub(s.registry, Deliver(s.hub, sink, Delivery(UpstreamError, false)), conn);
  }

  lemma StepKeepsHub(s: State, step: Step)
    requires CountsMatch(s.registry) && HubMatches(s.registry, s.hub) && Enabled(s, step)
    ensures HubMatches(Next(s, step).registry, Next(s, step).hub)
  {
    hide CountsMatch, HubMatches, Publish, AfterSubscribe, AfterUnsubscribe, Deliver, Complete, Inserted, Deleted;
    match step {
      case Subscribes(room) => SubscribeKeepsHub(s, room);
      case Unsubscribes(sub) => UnsubscribeKeepsHub(s, sub);
      case UpstreamSends(conn, e) => PublishKeepsHub(s.registry, s.hub, s.hub.captured[conn].room, Delivery(e, false));
      case ConnectFails(conn) => FailureKeepsHub(s, conn);
      case Disconnects(conn) => CompleteKeepsHub(s.registry, s.hub, conn);
      case GhostStarts(room, user) => PublishKeepsHub(s.registry, s.hub, room, Delivery(StageJoin(user, true), true));
      case GhostStops(room, user) => PublishKeepsHub(s.registry, s.hub, room, Delivery(StageQuit(user), true));
      case Kicks(room, user) => PublishKeepsHub(s.registry, s.hub, room, Delivery(RoomKick(user), true));
    }
  }

  lemma SinkOfRoom(reg: Registry, hub: Hub, room: Room, i: SubId)
    requires HubMatches(reg, hub) && i in reg.subs
    ensures i in hub.streams
    ensures hub.streams[i].sink == WithSink(hub, room).sinks[room] <==> reg.subs[i] == room
    ensures WithSink(hub, room).streams == hub.streams && WithSink(hub, room).completed == hub.completed
  {
    hide IdleSinksUntouched;
    assert ListensToRoom(reg.subs, hub, i);
  }

  /** An event of a room reaches each of its subscribers, unless their sink has completed, and nobody else. */
  lemma EventReachesItsRoom(reg: Registry, hub: Hub, room: Room, d: Delivery, i: SubId)
    requires HubMatches(reg, hub) && i in reg.subs
    ensures i in hub.streams && i in Publish(hub, room, d).streams
    ensures Publish(hub, room, d).completed == hub.completed
    ensures Publish(hub, room, d).streams[i].sink == hub.streams[i].sink
    ensures Publish(hub, room, d).streams[i].inbox
         == hub.streams[i].inbox + if reg.subs[i] == room && hub.streams[i].sink !in hub.completed then [d] else []
  {
    hide HubMatches, WithSink;
    SinkOfRoom(reg, hub, room, i);
    assert hub.streams[i].inbox + [] == hub.streams[i].inbox;
  }
}
