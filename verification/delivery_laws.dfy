/** What each subscriber's stream holds: what it was opened with, and then everything its room was sent. */
module DeliveryLaws {
  import opened RoomEvents
  import opened RoomEventLaws
  import opened GhostStreams
  import opened UpstreamLaws

  predicate IsLive(s: State, i: SubId) {
    i in s.hub.streams && s.hub.streams[i].sink !in s.hub.completed
  }

  // ---- What a step says to a subscriber

  function When<T>(c: bool, x: T): seq<T> { if c then [x] else [] }

  /** What a subscriber still listening hears of a step: the events of its own room, each as it was sent. */
  function Heard(s: State, step: Step, i: SubId): seq<Delivery>
    requires Enabled(s, step) && i in s.registry.subs && s.registry.subs[i] in s.registry.connectors
  {
    var room := s.registry.subs[i];
    match step
    case UpstreamSends(conn, e) => When(s.hub.captured[conn].room == room, Delivery(e, false))
    case ConnectFails(conn) => When(s.registry.connectors[room] == conn, Delivery(UpstreamError, false))
    case GhostStarts(r, user) => When(r == room && Row(r, user) !in s.table, Delivery(StageJoin(user, true), true))
    case GhostStops(r, user) => When(r == room && Row(r, user) in s.table, Delivery(StageQuit(user), true))
    case Kicks(r, user) => When(r == room, Delivery(RoomKick(user), true))
    case _ => []
  }

  /** The stream ends with its room's connector, on failure or disconnection. */
  predicate Ends(s: State, step: Step, i: SubId)
    requires i in s.registry.subs && s.registry.subs[i] in s.registry.connectors
  {
    && (step.ConnectFails? || step.Disconnects?)
    && step.conn == s.registry.connectors[s.registry.subs[i]]
  }

  /** From `s` to `t` the open subscription `i` hears `ds`, if it is live, and stays live unless it `ends`. */
  predicate Hears(s: State, t: State, i: SubId, ds: seq<Delivery>, ends: bool) {
    && i in s.registry.subs && i in t.registry.subs && t.registry.subs[i] == s.registry.subs[i]
    && i in s.hub.streams && i in t.hub.streams
    && t.hub.streams[i].sink == s.hub.streams[i].sink
    && t.hub.streams[i].inbox == s.hub.streams[i].inbox + (if IsLive(s, i) then ds else [])
    && (IsLive(t, i) <==> IsLive(s, i) && !ends)
  }

  lemma NothingIsHeard(s: State, t: State, i: SubId)
    requires HubMatches(s.registry, s.hub) && i in s.registry.subs
    requires t.registry == s.registry && t.hub == s.hub
    ensures Hears(s, t, i, [], false)
  {
  }

  lemma EventIsHeard(s: State, t: State, room: Room, d: Delivery, i: SubId)
    requires HubMatches(s.registry, s.hub) && i in s.registry.subs
    requires t.registry == s.registry && t.hub == Publish(s.hub, room, d)
    ensures Hears(s, t, i, When(s.registry.subs[i] == room, d), false)
  {
    hide HubMatches, Publish;
    EventReachesItsRoom(s.registry, s.hub, room, d, i);
  }

  lemma SyntheticIsHeard(s: State, table: seq<Row>, room: Room, e: RoomEvent, i: SubId)
    requires CountsMatch(s.registry) && HubMatches(s.registry, s.hub) && i in s.registry.subs
    ensures Hears(s, AfterEmitSynthetic(s.(table := table), room, e), i, When(s.registry.subs[i] == room, Delivery(e, true)), false)
  {
    var t := AfterEmitSynthetic(s.(table := table), room, e);
    assert s.registry.subs[i] in s.registry.counts && CountIs(s.registry, s.registry.subs[i]);
    hide HubMatches, CountsMatch, Publish;
    if Get(s.registry.counts, room, 0) == 0 {
      NothingIsHeard(s, t, i);
    } else {
      EventIsHeard(s, t, room, Delivery(e, true), i);
    }
  }

  lemma GhostIsHeard(s: State, room: Room, user: User, i: SubId)
    requires CountsMatch(s.registry) && HubMatches(s.registry, s.hub) && i in s.registry.subs
    ensures
      var ours, listed := s.registry.subs[i] == room, Row(room, user) in s.table;
      && Hears(s, AfterStartGhost(s, room, user), i, When(ours && !listed, Delivery(StageJoin(user, true), true)), false)
      && Hears(s, AfterStopGhost(s, room, user), i, When(ours && listed, Delivery(StageQuit(user), true)), false)
  {
    hide HubMatches, CountsMatch, Hears, AfterEmitSynthetic, Inserted, Deleted;
    NothingIsHeard(s, s, i);
    SyntheticIsHeard(s, Inserted(s.table, Row(room, user)), room, StageJoin(user, true), i);
    SyntheticIsHeard(s, Deleted(s.table, Row(room, user)), room, StageQuit(user), i);
  }

  lemma OtherRoomsHearNothing(hub: Hub, conn: ConnId, room: Room, d: Delivery, i: SubId)
    requires i in hub.streams && hub.streams[i].sink != WithSink(hub, room).sinks[room]
    ensures
      var h := Publish(Capturing(hub, conn, room), room, d);
      && i in h.streams && h.streams[i] == hub.streams[i] && h.completed == hub.completed
  {
  }

  lemma SameStreamHearsNothing(s: State, t: State, i: SubId)
    requires i in s.registry.subs && i in t.registry.subs && t.registry.subs[i] == s.registry.subs[i]
    requires i in s.hub.streams && i in t.hub.streams && t.hub.streams[i] == s.hub.streams[i]
    requires s.hub.streams[i].sink in t.hub.completed <==> s.hub.streams[i].sink in s.hub.completed
    ensures Hears(s, t, i, [], false)
  {
  }

  lemma SubscriptionIsNotHeard(s: State, room: Room, i: SubId)
    requires CountsMatch(s.registry) && HubMatches(s.registry, s.hub) && i in s.registry.subs
    ensures Hears(s, AfterSubscribe(s, room), i, [], false)
  {
    SinkOfRoom(s.registry, s.hub, room, i);
    SubscribedKeepsCounts(s.registry, room);
    assert i < s.registry.nextSub && s.registry.subs[i] in s.registry.counts;
    hide HubMatches, CountsMatch, Hears;
    if Subscribed(s.registry, room).counts[room] == 1 {
      FirstSubscriptionIsNotHeard(s, room, i);
    } else {
      LaterSubscriptionIsNotHeard(s, room, i);
    }
  }

  lemma FirstSubscriptionIsNotHeard(s: State, room: Room, i: SubId)
    requires i in s.registry.subs && i < s.registry.nextSub && i in s.hub.streams
    requires Subscribed(s.registry, room).counts[room] == 1 && s.hub.streams[i].sink != WithSink(s.hub, room).sinks[room]
    ensures Hears(s, AfterSubscribe(s, room), i, [], false)
  {
    var d := Delivery(ConnectionState("connecting"), false);
    OtherRoomsHearNothing(s.hub, s.registry.opens, room, d, i);
    hide Hears, Capturing, Publish, Listening, ListByRoom, Replay;
    var announced := Publish(Capturing(s.hub, s.registry.opens, room), room, d);
    ListeningLeavesOthers(announced, s.registry.nextSub, room, Replay(ListByRoom(s.table, room)), i);
    SameStreamHearsNothing(s, AfterSubscribe(s, room), i);
  }

  lemma LaterSubscriptionIsNotHeard(s: State, room: Room, i: SubId)
    requires i in s.registry.subs && i < s.registry.nextSub && i in s.hub.streams
    requires Subscribed(s.registry, room).counts[room] != 1
    ensures Hears(s, AfterSubscribe(s, room), i, [], false)
  {
    hide Hears, Capturing, Publish, Listening, ListByRoom, Replay;
    var state := Delivery(ConnectionState(Get(s.lastState, room, "disconnected")), false);
    ListeningLeavesOthers(s.hub, s.registry.nextSub, room, Replay(ListByRoom(s.table, room)) + [state], i);
    SameStreamHearsNothing(s, AfterSubscribe(s, room), i);
  }

  lemma ListeningLeavesOthers(hub: Hub, sub: SubId, room: Room, inbox: seq<Delivery>, i: SubId)
    requires i in hub.streams && i != sub
    ensures var h := Listening(hub, sub, room, inbox);
            i in h.streams && h.streams[i] == hub.streams[i] && h.completed == hub.completed
  {
  }

  lemma LeavingIsNotHeard(s: State, sub: SubId, i: SubId)
    requires CountsMatch(s.registry) && HubMatches(s.registry, s.hub)
    requires sub in s.registry.subs && i in s.registry.subs && i != sub
    ensures Hears(s, AfterUnsubscribe(s, sub), i, [], false)
  {
    var room := s.registry.subs[sub];
    LastSubscriberLeaves(s.registry, sub);
    assert s.registry.subs[i] == room ==> i in SubsOf(s.registry.subs - {sub}, room);
    assert i in s.hub.streams;
    assert s.registry.subs[i] != room && room in s.hub.sinks ==> s.hub.sinks[room] != s.hub.streams[i].sink by {
      SinkOfRoom(s.registry, s.hub, room, i);
    }
    hide HubMatches, CountsMatch, Hears, SubsOf;
    SameStreamHearsNothing(s, AfterUnsubscribe(s, sub), i);
  }

  lemma FailureIsHeard(s: State, conn: ConnId, i: SubId, ours: bool)
    requires conn in s.hub.captured && i in s.registry.subs && i in s.hub.streams
    requires IsLive(s, i) ==> (ours <==> s.hub.captured[conn].sink == s.hub.streams[i].sink)
    ensures Hears(s, AfterConnectFailure(s, conn), i, When(ours, Delivery(UpstreamError, false)), ours)
  {
  }

  lemma DisconnectionIsHeard(s: State, conn: ConnId, i: SubId, ours: bool)
    requires conn in s.hub.captured && i in s.registry.subs && i in s.hub.streams
    requires IsLive(s, i) ==> (ours <==> s.hub.captured[conn].sink == s.hub.streams[i].sink)
    ensures Hears(s, AfterDisconnect(s, conn), i, [], ours)
  {
  }

  lemma ConnectionEndIsHeard(s: State, conn: ConnId, i: SubId)
    requires CountsMatch(s.registry) && HubMatches(s.registry, s.hub) && Attached(s.registry, s.hub)
    requires conn in s.hub.captured && i in s.registry.subs
    ensures s.registry.subs[i] in s.registry.connectors
    ensures
      var ours := s.registry.connectors[s.registry.subs[i]] == conn;
      && Hears(s, AfterConnectFailure(s, conn), i, When(ours, Delivery(UpstreamError, false)), ours)
      && Hears(s, AfterDisconnect(s, conn), i, [], ours)
  {
    EndsItsRoom(s, conn, i);
    hide HubMatches, CountsMatch, Attached, Hears, AfterConnectFailure, AfterDisconnect;
    FailureIsHeard(s, conn, i, s.registry.connectors[s.registry.subs[i]] == conn);
    DisconnectionIsHeard(s, conn, i, s.registry.connectors[s.registry.subs[i]] == conn);
  }

  lemma ConnectorIsThere(s: State, i: SubId)
    requires CountsMatch(s.registry) && i in s.registry.subs
    ensures s.registry.subs[i] in s.registry.connectors
  {
  }

  lemma HearsStep(s: State, step: Step, i: SubId)
    requires CountsMatch(s.registry) && HubMatches(s.registry, s.hub) && Attached(s.registry, s.hub)
    requires Enabled(s, step) && i in s.registry.subs && step != Unsubscribes(i)
    requires s.registry.subs[i] in s.registry.connectors
    ensures Hears(s, Next(s, step), i, Heard(s, step, i), Ends(s, step, i))
  {
    hide HubMatches, CountsMatch, Attached, Hears, Publish, AfterSubscribe, AfterUnsubscribe,
      AfterStartGhost, AfterStopGhost, AfterEmitSynthetic, AfterConnectFailure, AfterDisconnect;
    match step {
      case Subscribes(room) => SubscriptionIsNotHeard(s, room, i);
      case Unsubscribes(sub) => LeavingIsNotHeard(s, sub, i);
      case UpstreamSends(conn, e) => EventIsHeard(s, Next(s, step), s.hub.captured[conn].room, Delivery(e, false), i);
      case ConnectFails(conn) => ConnectionEndIsHeard(s, conn, i);
      case Disconnects(conn) => ConnectionEndIsHeard(s, conn, i);
      case GhostStarts(room, user) => GhostIsHeard(s, room, user, i);
      case GhostStops(room, user) => GhostIsHeard(s, room, user, i);
      case Kicks(room, user) => SyntheticIsHeard(s, s.table, room, RoomKick(user), i);
    }
  }

  /**
    * In every state a run reaches, each step adds to each open stream exactly what its room was sent, once and in order,
    * and ends it exactly when the room's own connector fails or disconnects.
    */
  lemma StepIsHeard(run: seq<State>, steps: seq<Step>, k: nat, step: Step, i: SubId)
    requires IsRun(run, steps) && k < |run| && Enabled(run[k], step)
    requires i in run[k].registry.subs && step != Unsubscribes(i)
    ensures run[k].registry.subs[i] in run[k].registry.connectors
    ensures Hears(run[k], Next(run[k], step), i, Heard(run[k], step, i), Ends(run[k], step, i))
  {
    RunKeepsAttached(run, steps, k);
    ConnectorIsThere(run[k], i);
    hide IsRun, HubMatches, CountsMatch, Attached, GhostsMatch, Hears, Heard, Ends, Next;
    HearsStep(run[k], step, i);
  }

  // ---- What a stream is opened with

  lemma {:induction false} ReplayAnnouncesEach(users: seq<User>)
    ensures |Replay(users)| == |users|
    ensures forall n :: 0 <= n < |users| ==> Replay(users)[n] == Delivery(StageJoin(users[n], true), true)
  {
    if users != [] {
      ReplayAnnouncesEach(users[..|users| - 1]);
    }
  }

  /** The stream opens with one join for each listed ghost, in order, and for a later subscriber with the state kept. */
  predicate OpensWith(inbox: seq<Delivery>, users: seq<User>, rest: seq<Delivery>) {
    && |inbox| == |users| + |rest|
    && (forall n :: 0 <= n < |users| ==> inbox[n] == Delivery(StageJoin(users[n], true), true))
    && inbox[|users|..] == rest
  }

  lemma ListenerIsOpened(hub: Hub, sub: SubId, room: Room, inbox: seq<Delivery>)
    ensures sub in Listening(hub, sub, room, inbox).streams && Listening(hub, sub, room, inbox).streams[sub].inbox == inbox
  {
  }

  lemma OpenedWith(s: State, room: Room)
    requires Subscribed(s.registry, room).counts[room] == 1 <==> room !in s.registry.counts
    ensures
      var t, i := AfterSubscribe(s, room), s.registry.nextSub;
      && i in t.registry.subs && t.registry.subs[i] == room && i in t.hub.streams
      && OpensWith(t.hub.streams[i].inbox, ListByRoom(s.table, room),
                   When(room in s.registry.counts, Delivery(ConnectionState(Get(s.lastState, room, "disconnected")), false)))
  {
    var replay := Replay(ListByRoom(s.table, room));
    var d, state := Delivery(ConnectionState("connecting"), false),
                    Delivery(ConnectionState(Get(s.lastState, room, "disconnected")), false);
    ReplayAnnouncesEach(ListByRoom(s.table, room));
    hide Capturing, Publish, ListByRoom, Replay, Listening;
    if room in s.registry.counts {
      ListenerIsOpened(s.hub, s.registry.nextSub, room, replay + [state]);
    } else {
      ListenerIsOpened(Publish(Capturing(s.hub, s.registry.opens, room), room, d), s.registry.nextSub, room, replay);
    }
  }

  lemma StreamOpens(run: seq<State>, steps: seq<Step>, k: nat, room: Room)
    requires IsRun(run, steps) && k < |run|
    ensures
      var s, t, i := run[k], Next(run[k], Subscribes(room)), run[k].registry.nextSub;
      && i !in s.registry.subs && i in t.registry.subs && t.registry.subs[i] == room
      && i in t.hub.streams
      && OpensWith(t.hub.streams[i].inbox, ListByRoom(s.table, room),
                   When(room in s.registry.counts, Delivery(ConnectionState(Get(s.lastState, room, "disconnected")), false)))
  {
    var s := run[k];
    RunKeepsInv(run, steps, k);
    SubscribedKeepsCounts(s.registry, room);
    assert s.registry.nextSub !in s.registry.subs;
    hide IsRun, Inv, CountsMatch;
    OpenedWith(s, room);
  }

  // ---- Whole runs

  lemma ConnectorExists(run: seq<State>, steps: seq<Step>, k: nat, i: SubId)
    requires IsRun(run, steps) && k < |run| && i in run[k].registry.subs
    ensures run[k].registry.subs[i] in run[k].registry.connectors
    ensures i in run[k].hub.streams
  {
    RunKeepsInv(run, steps, k);
  }

  ghost predicate StaysOpen(run: seq<State>, j: nat, k: nat, i: SubId) {
    j <= k < |run| && forall n :: j <= n <= k ==> i in run[n].registry.subs
  }

  /** All that subscription `i` heard from state `j` to state `k`. */
  ghost function HeardBetween(run: seq<State>, steps: seq<Step>, j: nat, k: nat, i: SubId): seq<Delivery>
    requires IsRun(run, steps) && StaysOpen(run, j, k, i)
    decreases k
  {
    if k == j then []
    else
      ConnectorExists(run, steps, k - 1, i);
      HeardBetween(run, steps, j, k - 1, i)
      + if IsLive(run[k - 1], i) then Heard(run[k - 1], steps[k - 1], i) else []
  }

  lemma StillOpen(s: State, step: Step, i: SubId)
    requires Enabled(s, step) && i in s.registry.subs && i in Next(s, step).registry.subs
    ensures step != Unsubscribes(i)
  {
  }

  lemma Appended(s: State, t: State, i: SubId, ds: seq<Delivery>, ends: bool)
    requires Hears(s, t, i, ds, ends)
    ensures i in s.hub.streams && i in t.hub.streams
    ensures t.hub.streams[i].inbox == s.hub.streams[i].inbox + if IsLive(s, i) then ds else []
  {
  }

  lemma InboxGrows(run: seq<State>, steps: seq<Step>, k: nat, i: SubId)
    requires IsRun(run, steps) && k + 1 < |run| && i in run[k].registry.subs && i in run[k + 1].registry.subs
    ensures run[k].registry.subs[i] in run[k].registry.connectors
    ensures i in run[k].hub.streams && i in run[k + 1].hub.streams
    ensures run[k + 1].hub.streams[i].inbox
         == run[k].hub.streams[i].inbox + if IsLive(run[k], i) then Heard(run[k], steps[k], i) else []
  {
    hide Heard, Ends, Hears, Next;
    StillOpen(run[k], steps[k], i);
    StepIsHeard(run, steps, k, steps[k], i);
    Appended(run[k], run[k + 1], i, Heard(run[k], steps[k], i), Ends(run[k], steps[k], i));
  }

  /** In every run, an open stream holds what it held before and then all that its room was sent while it was live. */
  lemma {:induction false} StreamIsWhatWasHeard(run: seq<State>, steps: seq<Step>, j: nat, k: nat, i: SubId)
    requires IsRun(run, steps) && StaysOpen(run, j, k, i)
    ensures i in run[j].hub.streams && i in run[k].hub.streams
    ensures run[k].hub.streams[i].inbox == run[j].hub.streams[i].inbox + HeardBetween(run, steps, j, k, i)
    decreases k
  {
    hide Heard, IsLive, IsRun;
    ConnectorExists(run, steps, j, i);
    if k > j {
      StreamIsWhatWasHeard(run, steps, j, k - 1, i);
      InboxGrows(run, steps, k - 1, i);
    }
  }

  // ---- Connections

  /** The first subscriber opens a connector for the room, with a number no other has had, and the state kept is "connecting". */
  lemma FirstSubscriptionConnects(run: seq<State>, steps: seq<Step>, k: nat, room: Room)
    requires IsRun(run, steps) && k < |run|
    ensures
      var s, t := run[k], Next(run[k], Subscribes(room));
      if room in s.registry.counts then t.registry.connectors == s.registry.connectors && t.lastState == s.lastState
      else
        && s.registry.opens !in s.hub.captured
        && t.registry.connectors == s.registry.connectors[room := s.registry.opens]
        && s.registry.opens in t.hub.captured && t.hub.captured[s.registry.opens].room == room
        && t.lastState == s.lastState[room := "connecting"]
  {
    RunKeepsAttached(run, steps, k);
    SubscribedKeepsCounts(run[k].registry, room);
    assert run[k].registry.opens !in run[k].hub.captured;
    hide IsRun, Inv, CountsMatch, Attached, Listening, ListByRoom, Replay;
  }
}
