/** What a subscriber's stream says of the ghost publishers, against the table they are kept in. */
module GhostStreams {
  import opened RoomEvents
  import opened RoomEventLaws

  // ---- The ghosts a stream announces

  predicate IsGhostJoin(d: Delivery) {
    d.synthetic && d.event.StageJoin? && d.event.isGhost
  }

  predicate IsGhostQuit(d: Delivery) {
    d.synthetic && d.event.StageQuit?
  }

  /** The users the synthetic events of the stream leave as ghosts. */
  function Ghosts(inbox: seq<Delivery>): set<User> {
    if inbox == [] then {}
    else
      var before, d := Ghosts(inbox[..|inbox| - 1]), inbox[|inbox| - 1];
      if IsGhostJoin(d) then before + {d.event.user}
      else if IsGhostQuit(d) then before - {d.event.user}
      else before
  }

  /** The user's joins (true) and quits (false), in order. */
  function JoinsAndQuits(inbox: seq<Delivery>, user: User): seq<bool> {
    if inbox == [] then []
    else
      var before, d := JoinsAndQuits(inbox[..|inbox| - 1], user), inbox[|inbox| - 1];
      if (IsGhostJoin(d) || IsGhostQuit(d)) && d.event.user == user then before + [IsGhostJoin(d)] else before
  }

  predicate Alternates(joins: seq<bool>) {
    forall k :: 0 <= k < |joins| ==> joins[k] == (k % 2 == 0)
  }

  /** The synthetic events leave exactly `users` as ghosts, each of them having joined and quit in turn. */
  ghost predicate Shows(inbox: seq<Delivery>, users: set<User>) {
    && Ghosts(inbox) == users
    && forall user :: Follows(inbox, user, user in users)
  }

  predicate Follows(inbox: seq<Delivery>, user: User, shown: bool) {
    Alternates(JoinsAndQuits(inbox, user)) && (|JoinsAndQuits(inbox, user)| % 2 == 1 <==> shown)
  }

  function UsersIn(table: seq<Row>, room: Room): set<User> {
    set user | user in ListByRoom(table, room)
  }

  lemma FollowsNext(inbox: seq<Delivery>, user: User, shown: bool, d: Delivery)
    requires Follows(inbox, user, shown)
    ensures IsGhostJoin(d) && d.event.user == user && !shown ==> Follows(inbox + [d], user, true)
    ensures IsGhostQuit(d) && d.event.user == user && shown ==> Follows(inbox + [d], user, false)
    ensures (!IsGhostJoin(d) && !IsGhostQuit(d)) || d.event.user != user ==> Follows(inbox + [d], user, shown)
  {
    assert (inbox + [d])[..|inbox + [d]| - 1] == inbox;
  }

  lemma ShowsNext(inbox: seq<Delivery>, users: set<User>, d: Delivery)
    requires Shows(inbox, users)
    ensures IsGhostJoin(d) && d.event.user !in users ==> Shows(inbox + [d], users + {d.event.user})
    ensures IsGhostQuit(d) && d.event.user in users ==> Shows(inbox + [d], users - {d.event.user})
    ensures !IsGhostJoin(d) && !IsGhostQuit(d) ==> Shows(inbox + [d], users)
  {
    hide Follows;
    assert (inbox + [d])[..|inbox + [d]| - 1] == inbox;
    forall user
      ensures IsGhostJoin(d) && d.event.user !in users ==> Follows(inbox + [d], user, user in users + {d.event.user})
      ensures IsGhostQuit(d) && d.event.user in users ==> Follows(inbox + [d], user, user in users - {d.event.user})
      ensures !IsGhostJoin(d) && !IsGhostQuit(d) ==> Follows(inbox + [d], user, user in users)
    {
      assert Follows(inbox, user, user in users);
      FollowsNext(inbox, user, user in users, d);
    }
  }

  // ---- The table

  predicate Distinct(users: seq<User>) {
    forall i, j :: 0 <= i < j < |users| ==> users[i] != users[j]
  }

  lemma {:induction false} ListHoldsTheRooms(table: seq<Row>, room: Room, user: User)
    ensures user in ListByRoom(table, room) <==> Row(room, user) in table
  {
    if table != [] {
      var n := |table| - 1;
      ListHoldsTheRooms(table[..n], room, user);
      assert table == table[..n] + [table[n]];
    }
  }

  lemma {:induction false} ListIsDistinct(table: seq<Row>, room: Room)
    requires DistinctRows(table)
    ensures Distinct(ListByRoom(table, room))
  {
    if table != [] {
      var n := |table| - 1;
      ListIsDistinct(table[..n], room);
      ListHoldsTheRooms(table[..n], room, table[n].user);
    }
  }

  lemma {:induction false} DeletedRows(table: seq<Row>, row: Row, other: Row)
    ensures other in Deleted(table, row) <==> other in table && other != row
  {
    if table != [] {
      var n := |table| - 1;
      DeletedRows(table[..n], row, other);
      assert table == table[..n] + [table[n]];
    }
  }

  lemma {:induction false} DeletedIsDistinct(table: seq<Row>, row: Row)
    requires DistinctRows(table)
    ensures DistinctRows(Deleted(table, row))
  {
    if table != [] {
      var n := |table| - 1;
      DeletedIsDistinct(table[..n], row);
      DeletedRows(table[..n], row, table[n]);
    }
  }

  /** Starting adds the user to the room's list and to no other room's. */
  lemma UsersInserted(table: seq<Row>, row: Row, room: Room)
    ensures UsersIn(Inserted(table, row), room) == UsersIn(table, room) + if row.room == room then {row.user} else {}
  {
    forall user
      ensures user in ListByRoom(table, room) <==> Row(room, user) in table
      ensures user in ListByRoom(Inserted(table, row), room) <==> Row(room, user) in Inserted(table, row)
    {
      ListHoldsTheRooms(table, room, user);
      ListHoldsTheRooms(Inserted(table, row), room, user);
    }
  }

  lemma UsersDeleted(table: seq<Row>, row: Row, room: Room)
    ensures UsersIn(Deleted(table, row), room) == UsersIn(table, room) - if row.room == room then {row.user} else {}
  {
    var expected := UsersIn(table, room) - if row.room == room then {row.user} else {};
    forall user
      ensures user in UsersIn(Deleted(table, row), room) <==> user in expected
    {
      ListHoldsTheRooms(table, room, user);
      ListHoldsTheRooms(Deleted(table, row), room, user);
      DeletedRows(table, row, Row(room, user));
    }
  }

  lemma StepKeepsTable(s: State, step: Step)
    requires DistinctRows(s.table) && Enabled(s, step)
    ensures DistinctRows(Next(s, step).table)
  {
    if step.GhostStops? {
      DeletedIsDistinct(s.table, Row(step.room, step.user));
    }
  }

  // ---- A new subscriber

  lemma {:induction false} ReplayShows(users: seq<User>)
    requires Distinct(users)
    ensures Shows(Replay(users), set user | user in users)
  {
    if users == [] {
      forall user
        ensures Follows(Replay(users), user, false)
      {
      }
    } else {
      var n := |users| - 1;
      ReplayShows(users[..n]);
      ShowsNext(Replay(users[..n]), (set user | user in users[..n]), Delivery(StageJoin(users[n], true), true));
      assert (set user | user in users) == (set user | user in users[..n]) + {users[n]} by {
        assert users == users[..n] + [users[n]];
      }
    }
  }

  lemma NewSubscriberShows(table: seq<Row>, room: Room)
    requires DistinctRows(table)
    ensures Shows(Replay(ListByRoom(table, room)), UsersIn(table, room))
  {
    ListIsDistinct(table, room);
    ReplayShows(ListByRoom(table, room));
  }

  // ---- Every subscriber, in every state

  ghost predicate SeesGhosts(s: State, i: SubId)
    requires i in s.registry.subs && i in s.hub.streams
  {
    var stream := s.hub.streams[i];
    stream.sink in s.hub.completed || Shows(stream.inbox, UsersIn(s.table, s.registry.subs[i]))
  }

  ghost predicate GhostsMatch(s: State) {
    forall i :: i in s.registry.subs ==> i in s.hub.streams && SeesGhosts(s, i)
  }

  ghost predicate Inv(s: State) {
    && DistinctRows(s.table)
    && CountsMatch(s.registry)
    && HubMatches(s.registry, s.hub)
    && GhostsMatch(s)
  }

  /** An event that changes the listed ghosts of its room by what it announces keeps every stream faithful. */
  lemma EmitKeepsGhosts(s: State, t: State, room: Room, d: Delivery)
    requires HubMatches(s.registry, s.hub) && GhostsMatch(s)
    requires t.registry == s.registry && t.hub == Publish(s.hub, room, d)
    requires forall other :: other != room ==> UsersIn(t.table, other) == UsersIn(s.table, other)
    requires
      || (IsGhostJoin(d) && d.event.user !in UsersIn(s.table, room) && UsersIn(t.table, room) == UsersIn(s.table, room) + {d.event.user})
      || (IsGhostQuit(d) && d.event.user in UsersIn(s.table, room) && UsersIn(t.table, room) == UsersIn(s.table, room) - {d.event.user})
      || (!IsGhostJoin(d) && !IsGhostQuit(d) && UsersIn(t.table, room) == UsersIn(s.table, room))
    ensures GhostsMatch(t)
  {
    forall i | i in t.registry.subs
      ensures i in t.hub.streams && SeesGhosts(t, i)
    {
      EventReachesItsRoom(s.registry, s.hub, room, d, i);
      assert SeesGhosts(s, i);
      hide Shows, UsersIn, HubMatches, Publish;
      var inbox, users := s.hub.streams[i].inbox, UsersIn(s.table, s.registry.subs[i]);
      if s.hub.streams[i].sink !in s.hub.completed {
        ShowsNext(inbox, users, d);
        assert inbox + [] == inbox;
      }
    }
  }

  /** Streams may be lost and sinks may complete; those that still listen have read no more. */
  lemma FewerStreamsKeepGhosts(s: State, t: State)
    requires GhostsMatch(s) && t.table == s.table
    requires t.hub.streams.Keys == t.registry.subs.Keys
    requires s.hub.completed <= t.hub.completed
    requires forall i :: i in t.registry.subs ==>
      && i in s.registry.subs && t.registry.subs[i] == s.registry.subs[i]
      && (t.hub.streams[i].sink in t.hub.completed || t.hub.streams[i] == s.hub.streams[i])
    ensures GhostsMatch(t)
  {
    forall i | i in t.registry.subs
      ensures SeesGhosts(t, i)
    {
      assert SeesGhosts(s, i);
    }
  }

  lemma UnheardChangeKeepsGhosts(s: State, table: seq<Row>, room: Room)
    requires GhostsMatch(s) && CountsMatch(s.registry) && Get(s.registry.counts, room, 0) == 0
    requires forall other :: other != room ==> UsersIn(table, other) == UsersIn(s.table, other)
    ensures GhostsMatch(s.(table := table))
  {
    assert room !in s.registry.counts;
    forall i | i in s.registry.subs
      ensures i in s.hub.streams && SeesGhosts(s.(table := table), i)
    {
      assert SeesGhosts(s, i);
    }
  }

  lemma StartKeepsGhosts(s: State, room: Room, user: User)
    requires Inv(s)
    ensures GhostsMatch(AfterStartGhost(s, room, user))
  {
    if Row(room, user) !in s.table {
      var table := Inserted(s.table, Row(room, user));
      forall other
        ensures UsersIn(table, other) == UsersIn(s.table, other) + if room == other then {user} else {}
      {
        UsersInserted(s.table, Row(room, user), other);
      }
      ListHoldsTheRooms(s.table, room, user);
      assert user !in UsersIn(s.table, room);
      hide UsersIn, GhostsMatch, HubMatches, CountsMatch, Publish, Inserted;
      if Get(s.registry.counts, room, 0) == 0 {
        UnheardChangeKeepsGhosts(s, table, room);
      } else {
        EmitKeepsGhosts(s, AfterStartGhost(s, room, user), room, Delivery(StageJoin(user, true), true));
      }
    }
  }

  lemma StopKeepsGhosts(s: State, room: Room, user: User)
    requires Inv(s)
    ensures GhostsMatch(AfterStopGhost(s, room, user))
  {
    if Row(room, user) in s.table {
      var table := Deleted(s.table, Row(room, user));
      forall other
        ensures UsersIn(table, other) == UsersIn(s.table, other) - if room == other then {user} else {}
      {
        UsersDeleted(s.table, Row(room, user), other);
      }
      ListHoldsTheRooms(s.table, room, user);
      assert user in UsersIn(s.table, room);
      hide UsersIn, GhostsMatch, HubMatches, CountsMatch, Publish, Deleted;
      if Get(s.registry.counts, room, 0) == 0 {
        UnheardChangeKeepsGhosts(s, table, room);
      } else {
        EmitKeepsGhosts(s, AfterStopGhost(s, room, user), room, Delivery(StageQuit(user), true));
      }
    }
  }

  /** A new listener is told the room's ghosts, and those who already listened hear nothing of it. */
  lemma ListenerKeepsGhosts(s: State, reg: Registry, room: Room, rest: seq<Delivery>)
    requires GhostsMatch(s) && s.registry.nextSub !in s.registry.subs && DistinctRows(s.table)
    requires rest == [] || (|rest| == 1 && rest[0].event.ConnectionState?)
    requires reg.subs == s.registry.subs[s.registry.nextSub := room]
    ensures GhostsMatch(s.(registry := reg,
                           hub := Listening(s.hub, s.registry.nextSub, room, Replay(ListByRoom(s.table, room)) + rest)))
  {
    var replay := Replay(ListByRoom(s.table, room));
    var t := s.(registry := reg, hub := Listening(s.hub, s.registry.nextSub, room, replay + rest));
    NewSubscriberShows(s.table, room);
    if rest == [] {
      assert replay + rest == replay;
    } else {
      ShowsNext(replay, UsersIn(s.table, room), rest[0]);
      assert rest == [rest[0]];
    }
    hide Shows, UsersIn, Replay, ListByRoom;
    forall i | i in t.registry.subs
      ensures i in t.hub.streams && SeesGhosts(t, i)
    {
      assert i in s.registry.subs ==> SeesGhosts(s, i);
    }
  }

  lemma ConnectingKeepsGhosts(s: State, counted: Registry, room: Room, d: Delivery)
    requires Inv(s) && !d.synthetic && room in counted.counts
    requires counted == s.registry.(counts := counted.counts) && s.registry.counts.Keys <= counted.counts.Keys
    ensures GhostsMatch(s.(registry := counted, hub := Publish(Capturing(s.hub, s.registry.opens, room), room, d)))
  {
    var c := Capturing(s.hub, s.registry.opens, room);
    var attached := s.(registry := counted, hub := c);
    assert HubMatches(counted, s.hub);
    assert c.streams == s.hub.streams && c.completed == s.hub.completed && s.hub.streams.Keys == counted.subs.Keys;
    hide GhostsMatch, HubMatches, CountsMatch, Publish, Capturing;
    CapturingKeepsHub(counted, s.hub, s.registry.opens, room);
    FewerStreamsKeepGhosts(s, attached);
    EmitKeepsGhosts(attached, attached.(hub := Publish(c, room, d)), room, d);
  }

  lemma SubscribeKeepsGhosts(s: State, room: Room)
    requires Inv(s)
    ensures GhostsMatch(AfterSubscribe(s, room))
  {
    var reg, replay := Subscribed(s.registry, room), Replay(ListByRoom(s.table, room));
    var counted := s.registry.(counts := reg.counts);
    hide GhostsMatch, HubMatches, Publish, Capturing, ListByRoom, Replay, Listening;
    if reg.counts[room] == 1 {
      var connecting := Delivery(ConnectionState("connecting"), false);
      var announced := s.(registry := counted, hub := Publish(Capturing(s.hub, s.registry.opens, room), room, connecting));
      ConnectingKeepsGhosts(s, counted, room, connecting);
      ListenerKeepsGhosts(announced, reg, room, []);
      assert replay + [] == replay;
      GhostsIgnoreTheRest(announced.(registry := reg, hub := Listening(announced.hub, s.registry.nextSub, room, replay)),
                          AfterSubscribe(s, room));
    } else {
      var state := Delivery(ConnectionState(Get(s.lastState, room, "disconnected")), false);
      ListenerKeepsGhosts(s, reg, room, [state]);
    }
  }

  lemma GhostsIgnoreTheRest(s: State, t: State)
    requires GhostsMatch(s) && t.table == s.table && t.registry == s.registry && t.hub == s.hub
    ensures GhostsMatch(t)
  {
    forall i | i in t.registry.subs
      ensures i in t.hub.streams && SeesGhosts(t, i)
    {
      assert SeesGhosts(s, i);
    }
  }

  lemma UnsubscribeKeepsGhosts(s: State, sub: SubId)
    requires Inv(s) && sub in s.registry.subs
    ensures GhostsMatch(AfterUnsubscribe(s, sub))
  {
    hide CountsMatch, HubMatches, GhostsMatch;
    UnsubscribeKeepsHub(s, sub);
    assert HubMatches(AfterUnsubscribe(s, sub).registry, AfterUnsubscribe(s, sub).hub);
    StreamsKeys(AfterUnsubscribe(s, sub));
    FewerStreamsKeepGhosts(s, AfterUnsubscribe(s, sub));
  }

  lemma StreamsKeys(s: State)
    requires HubMatches(s.registry, s.hub)
    ensures s.hub.streams.Keys == s.registry.subs.Keys
  {
  }

  lemma CompletionKeepsGhosts(s: State, conn: ConnId)
    requires Inv(s) && conn in s.hub.captured
    ensures GhostsMatch(AfterConnectFailure(s, conn)) && GhostsMatch(AfterDisconnect(s, conn))
  {
    hide CountsMatch, GhostsMatch;
    FewerStreamsKeepGhosts(s, AfterConnectFailure(s, conn));
    FewerStreamsKeepGhosts(s, AfterDisconnect(s, conn));
  }

  lemma StepKeepsGhosts(s: State, step: Step)
    requires Inv(s) && Enabled(s, step)
    ensures GhostsMatch(Next(s, step))
  {
    match step {
      case Subscribes(room) => SubscribeKeepsGhosts(s, room);
      case Unsubscribes(sub) => UnsubscribeKeepsGhosts(s, sub);
      case UpstreamSends(conn, e) => EmitKeepsGhosts(s, Next(s, step), s.hub.captured[conn].room, Delivery(e, false));
      case ConnectFails(conn) => CompletionKeepsGhosts(s, conn);
      case Disconnects(conn) => CompletionKeepsGhosts(s, conn);
      case GhostStarts(room, user) => StartKeepsGhosts(s, room, user);
      case GhostStops(room, user) => StopKeepsGhosts(s, room, user);
      case Kicks(room, user) =>
        if Get(s.registry.counts, room, 0) != 0 {
          EmitKeepsGhosts(s, Next(s, step), room, Delivery(RoomKick(user), true));
        }
    }
  }

  lemma StepKeepsInv(s: State, step: Step)
    requires Inv(s) && Enabled(s, step)
    ensures Inv(Next(s, step))
  {
    StepKeepsTable(s, step);
    StepKeepsCounts(s, step);
    StepKeepsHub(s, step);
    StepKeepsGhosts(s, step);
  }

  lemma {:induction false} RunKeepsInv(run: seq<State>, steps: seq<Step>, k: nat)
    requires IsRun(run, steps) && k < |run|
    ensures Inv(run[k])
  {
    if k > 0 {
      RunKeepsInv(run, steps, k - 1);
      StepKeepsInv(run[k - 1], steps[k - 1]);
    }
  }

  /** In every state a run reaches, the ghosts a live stream announced are those `listByRoom` lists, and alternate. */
  lemma SubscribersSeeTheGhosts(run: seq<State>, steps: seq<Step>, k: nat, i: SubId, user: User)
    requires IsRun(run, steps) && k < |run|
    requires i in run[k].registry.subs
    ensures i in run[k].hub.streams
    ensures
      var stream := run[k].hub.streams[i];
      stream.sink !in run[k].hub.completed ==>
        && Ghosts(stream.inbox) == UsersIn(run[k].table, run[k].registry.subs[i])
        && Alternates(JoinsAndQuits(stream.inbox, user))
  {
    RunKeepsInv(run, steps, k);
    assert SeesGhosts(run[k], i);
    assert forall users :: Shows(run[k].hub.streams[i].inbox, users) ==> Follows(run[k].hub.streams[i].inbox, user, user in users);
  }

  /** The maps agree in every state: rooms with a connector are the rooms subscribed to, counted exactly. */
  lemma RoomsAreAccountedFor(run: seq<State>, steps: seq<Step>, k: nat, room: Room)
    requires IsRun(run, steps) && k < |run|
    ensures
      var reg := run[k].registry;
      && (room in reg.connectors <==> room in reg.counts)
      && (room in reg.counts <==> SubsOf(reg.subs, room) != {})
      && Get(reg.counts, room, 0) == |SubsOf(reg.subs, room)|
      && reg.opens - reg.closes == |reg.connectors|
  {
    RunKeepsInv(run, steps, k);
    var reg := run[k].registry;
    if room in reg.counts {
      assert CountIs(reg, room);
    } else {
      assert SubsOf(reg.subs, room) == {};
    }
  }

  /** The first subscriber of a room listens to a sink nothing has completed, even one a late event left behind. */
  lemma FirstSubscriberIsLive(run: seq<State>, steps: seq<Step>, k: nat, room: Room)
    requires IsRun(run, steps) && k < |run|
    requires room !in run[k].registry.counts
    ensures
      var t, sub := AfterSubscribe(run[k], room), run[k].registry.nextSub;
      sub in t.hub.streams && t.hub.streams[sub].sink !in t.hub.completed
  {
    RunKeepsInv(run, steps, k);
    var hub, reg := run[k].hub, run[k].registry;
    assert SinksAreApart(hub) && reg.connectors.Keys == reg.counts.Keys;
    assert room in hub.sinks ==> Untouched(hub, room);
    hide Inv, HubMatches, SinksAreApart, Untouched, IsRun, CountsMatch;
    FirstListenerIsLive(run[k], room);
  }

  lemma FirstListenerIsLive(s: State, room: Room)
    requires SinksAreApart(s.hub) && room !in s.registry.counts
    requires room in s.hub.sinks ==> Untouched(s.hub, room)
    ensures
      var t, sub := AfterSubscribe(s, room), s.registry.nextSub;
      sub in t.hub.streams && t.hub.streams[sub].sink !in t.hub.completed
  {
    hide Replay, ListByRoom, SinksAreApart;
    WithSinkIsFresh(s.hub, room);
  }

  /** The stream is still open, its sink still completed, and it has heard nothing. */
  predicate StaysSilent(s: State, t: State, i: SubId) {
    && i in t.registry.subs && i in t.hub.streams && i in s.hub.streams
    && t.hub.streams[i] == s.hub.streams[i]
    && s.hub.streams[i].sink in t.hub.completed
  }

  /** Once its sink has completed, a stream hears nothing more until it is closed. */
  lemma CompletedStreamIsSilent(s: State, step: Step, i: SubId)
    requires Inv(s) && Enabled(s, step) && i in s.registry.subs && step != Unsubscribes(i)
    requires s.hub.streams[i].sink in s.hub.completed
    ensures StaysSilent(s, Next(s, step), i)
  {
    assert i < s.registry.nextSub && StaysSilent(s, s, i);
    hide Inv, StaysSilent;
    SilentStep(s, step, i);
  }

  lemma SilentStep(s: State, step: Step, i: SubId)
    requires Enabled(s, step) && step != Unsubscribes(i)
    requires i < s.registry.nextSub && StaysSilent(s, s, i)
    ensures StaysSilent(s, Next(s, step), i)
  {
    hide StaysSilent, AfterSubscribe, AfterUnsubscribe, AfterConnectFailure, AfterDisconnect, AfterEmit, Inserted, Deleted;
    match step {
      case Subscribes(room) => SilentSubscribe(s, room, i);
      case Unsubscribes(sub) => SilentUnsubscribe(s, sub, i);
      case UpstreamSends(conn, e) =>
        var room := s.hub.captured[conn].room;
        SilentEmit(s, if e.ConnectionState? then s.(lastState := s.lastState[room := e.state]) else s,
                   room, Delivery(e, false), i);
      case ConnectFails(conn) => SilentCompletion(s, conn, i);
      case Disconnects(conn) => SilentCompletion(s, conn, i);
      case GhostStarts(room, user) =>
        SilentEmit(s, s.(table := Inserted(s.table, Row(room, user))), room, Delivery(StageJoin(user, true), true), i);
      case GhostStops(room, user) =>
        SilentEmit(s, s.(table := Deleted(s.table, Row(room, user))), room, Delivery(StageQuit(user), true), i);
      case Kicks(room, user) => SilentEmit(s, s, room, Delivery(RoomKick(user), true), i);
    }
  }

  lemma SilentEmit(s: State, t: State, room: Room, d: Delivery, i: SubId)
    requires StaysSilent(s, s, i) && t.registry == s.registry && t.hub == s.hub
    ensures StaysSilent(s, t, i) && StaysSilent(s, AfterEmit(t, room, d), i)
  {
    SilentPublish(t.hub, room, d, i);
    hide Publish;
  }

  lemma SilentSubscribe(s: State, room: Room, i: SubId)
    requires i < s.registry.nextSub && StaysSilent(s, s, i)
    ensures StaysSilent(s, AfterSubscribe(s, room), i)
  {
    SilentPublish(Capturing(s.hub, s.registry.opens, room), room, Delivery(ConnectionState("connecting"), false), i);
    hide Publish, Replay, ListByRoom;
  }

  lemma SilentUnsubscribe(s: State, sub: SubId, i: SubId)
    requires sub in s.registry.subs && i != sub && StaysSilent(s, s, i)
    ensures StaysSilent(s, AfterUnsubscribe(s, sub), i)
  {
  }

  lemma SilentCompletion(s: State, conn: ConnId, i: SubId)
    requires conn in s.hub.captured && StaysSilent(s, s, i)
    ensures StaysSilent(s, AfterConnectFailure(s, conn), i) && StaysSilent(s, AfterDisconnect(s, conn), i)
  {
  }

  lemma SilentPublish(hub: Hub, room: Room, d: Delivery, i: SubId)
    requires i in hub.streams && hub.streams[i].sink in hub.completed
    ensures Publish(hub, room, d).completed == hub.completed
    ensures i in Publish(hub, room, d).streams && Publish(hub, room, d).streams[i] == hub.streams[i]
  {
  }
}
