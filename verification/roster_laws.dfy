/** The ghost publishers' table against the commands given, and which events count as a change of a room's roster. */
module RosterLaws {
  import opened RoomEvents
  import opened RoomEventLaws
  import opened GhostStreams
  import opened AudienceRevisions

  // ---- The table

  /** Whether the user's last command for the room was a start; without any, what it was before. */
  function Publishing(steps: seq<Step>, room: Room, user: User, before: bool): bool {
    if steps == [] then before
    else
      var last := steps[|steps| - 1];
      if last == GhostStarts(room, user) then true
      else if last == GhostStops(room, user) then false
      else Publishing(steps[..|steps| - 1], room, user, before)
  }

  lemma StepMovesRow(s: State, step: Step, row: Row)
    requires Enabled(s, step)
    ensures row in Next(s, step).table <==>
              if step == GhostStarts(row.room, row.user) then true
              else if step == GhostStops(row.room, row.user) then false
              else row in s.table
  {
    hide Publish, Capturing, Listening, Dropping, Leaving, Replay, ListByRoom, Deleted;
    if step.GhostStops? {
      DeletedRows(s.table, Row(step.room, step.user), row);
    }
  }

  /** In every state a run reaches, a user is in the table exactly when their last command for that room was a start. */
  lemma {:induction false} TableFollowsCommands(run: seq<State>, steps: seq<Step>, k: nat, room: Room, user: User)
    requires IsRun(run, steps) && k < |run|
    ensures Row(room, user) in run[k].table <==> Publishing(steps[..k], room, user, Row(room, user) in run[0].table)
  {
    hide Next, Enabled;
    if k > 0 {
      TableFollowsCommands(run, steps, k - 1, room, user);
      StepMovesRow(run[k - 1], steps[k - 1], Row(room, user));
      assert steps[..k][..k - 1] == steps[..k - 1];
    }
  }

  lemma {:induction false} ListByRoomConcat(a: seq<Row>, b: seq<Row>, room: Room)
    ensures ListByRoom(a + b, room) == ListByRoom(a, room) + ListByRoom(b, room)
    decreases |b|
  {
    if b == [] {
      assert a + b == a;
    } else {
      var n := |b| - 1;
      ListByRoomConcat(a, b[..n], room);
      assert (a + b)[..|a + b| - 1] == a + b[..n];
    }
  }

  lemma ListOfOne(row: Row, room: Room)
    ensures ListByRoom([row], room) == if row.room == room then [row.user] else []
  {
    assert [row][..0] == [];
  }

  /** A user who starts is listed last in their room; every other room's list stays as it is. */
  lemma StartedIsLast(table: seq<Row>, row: Row, room: Room)
    requires row !in table
    ensures ListByRoom(Inserted(table, row), room) == ListByRoom(table, room) + if row.room == room then [row.user] else []
  {
    ListByRoomConcat(table, [row], room);
    ListOfOne(row, room);
  }

  /** The users listed before and after one who stops keep their order. */
  lemma StoppedIsCutOut(a: seq<Row>, row: Row, b: seq<Row>, room: Room)
    requires row !in a && row !in b
    ensures ListByRoom(Deleted(a + [row] + b, row), room) == ListByRoom(a, room) + ListByRoom(b, room)
  {
    DeletedConcat(a + [row], b, row);
    DeletedConcat(a, [row], row);
    DeletedOfOthers(a, row);
    DeletedOfOthers(b, row);
    assert [row][..0] == [];
    assert Deleted([row], row) == [];
    ListByRoomConcat(a, b, room);
    assert a + [] == a;
  }

  lemma {:induction false} DeletedConcat(a: seq<Row>, b: seq<Row>, row: Row)
    ensures Deleted(a + b, row) == Deleted(a, row) + Deleted(b, row)
    decreases |b|
  {
    if b == [] {
      assert a + b == a;
    } else {
      var n := |b| - 1;
      DeletedConcat(a, b[..n], row);
      assert (a + b)[..|a + b| - 1] == a + b[..n];
    }
  }

  lemma {:induction false} DeletedOfOthers(table: seq<Row>, row: Row)
    requires row !in table
    ensures Deleted(table, row) == table
  {
    if table != [] {
      var n := |table| - 1;
      DeletedOfOthers(table[..n], row);
      assert table == table[..n] + [table[n]];
    }
  }

  // ---- The revision

  /** The upstream's events that change the roster. */
  function Counts(e: RoomEvent): nat {
    match e
    case UserJoin(_) => 1
    case UserQuit(_) => 1
    case StageJoin(_, _) => 1
    case RoomKick(_) => 1
    case StageQuit(_) => 0
    case ConnectionState(_) => 0
    case UpstreamError => 0
    case OtherEvent => 0
  }

  /** By how much a step raises the room's revision: a ghost's start and a kick count when somebody listens, a stop never. */
  function Raise(s: State, step: Step, room: Room): nat
    requires Enabled(s, step)
  {
    match step
    case UpstreamSends(conn, e) => if s.hub.captured[conn].room == room then Counts(e) else 0
    case GhostStarts(r, user) =>
      if r == room && Row(r, user) !in s.table && SubsOf(s.registry.subs, room) != {} then 1 else 0
    case Kicks(r, _) => if r == room && SubsOf(s.registry.subs, room) != {} then 1 else 0
    case _ => 0
  }

  predicate IsLastToLeave(s: State, step: Step, room: Room) {
    step.Unsubscribes? && SubsOf(s.registry.subs, room) == {step.sub}
  }

  lemma EmitRaises(s: State, other: Room, d: Delivery, room: Room)
    ensures Revision(AfterEmit(s, other, d), room) == Revision(s, room) + if other == room then Counts(d.event) else 0
  {
  }

  lemma UpstreamRaises(s: State, other: Room, e: RoomEvent, room: Room)
    ensures Revision(AfterUpstreamEvent(s, other, e), room) == Revision(s, room) + if other == room then Counts(e) else 0
  {
  }

  lemma SyntheticRaises(s: State, table: seq<Row>, other: Room, e: RoomEvent, room: Room)
    requires CountsMatch(s.registry)
    ensures Revision(AfterEmitSynthetic(s.(table := table), other, e), room)
         == Revision(s, room) + if other == room && SubsOf(s.registry.subs, room) != {} then Counts(e) else 0
  {
    EmitRaises(s.(table := table), other, Delivery(e, true), room);
    assert other in s.registry.counts ==> CountIs(s.registry, other);
    assert other !in s.registry.counts ==> SubsOf(s.registry.subs, other) == {};
    hide CountsMatch, AfterEmit;
  }

  lemma SubscriptionRaisesNothing(s: State, other: Room, room: Room)
    ensures Revision(AfterSubscribe(s, other), room) == Revision(s, room)
  {
    hide Publish, Capturing, Listening, Replay, ListByRoom;
  }

  lemma LeavingClears(s: State, sub: SubId, room: Room)
    requires CountsMatch(s.registry) && sub in s.registry.subs
    ensures Revision(AfterUnsubscribe(s, sub), room) == if SubsOf(s.registry.subs, room) == {sub} then 0 else Revision(s, room)
  {
    var left := s.registry.subs[sub];
    LastSubscriberLeaves(s.registry, sub);
    OneLess(s.registry.subs, sub, left);
    assert sub in SubsOf(s.registry.subs, room) <==> left == room;
    assert sub in SubsOf(s.registry.subs, left);
    hide CountsMatch, Dropping, Leaving, SubsOf;
  }

  /**
    * In every state of every run, a step raises a room's revision by one for an arrival, a departure, a seat taken or a
    * kick, by nothing for any other event, and clears it when the last subscriber leaves.
    */
  lemma RevisionMoves(run: seq<State>, steps: seq<Step>, k: nat, step: Step, room: Room)
    requires IsRun(run, steps) && k < |run| && Enabled(run[k], step)
    ensures Revision(Next(run[k], step), room)
         == if IsLastToLeave(run[k], step, room) then 0 else Revision(run[k], room) + Raise(run[k], step, room)
  {
    RunKeepsInv(run, steps, k);
    hide IsRun, HubMatches, GhostsMatch;
    StepRaises(run[k], step, room);
  }

  lemma StepRaises(s: State, step: Step, room: Room)
    requires CountsMatch(s.registry) && Enabled(s, step)
    ensures Revision(Next(s, step), room)
         == if IsLastToLeave(s, step, room) then 0 else Revision(s, room) + Raise(s, step, room)
  {
    hide CountsMatch, Revision, SubsOf, AfterSubscribe, AfterUnsubscribe, AfterUpstreamEvent, AfterEmitSynthetic, Inserted, Deleted;
    match step {
      case Subscribes(other) => SubscriptionRaisesNothing(s, other, room);
      case Unsubscribes(sub) => LeavingClears(s, sub, room);
      case UpstreamSends(conn, e) => UpstreamRaises(s, s.hub.captured[conn].room, e, room);
      case GhostStarts(other, user) =>
        SyntheticRaises(s, Inserted(s.table, Row(other, user)), other, StageJoin(user, true), room);
      case GhostStops(other, user) =>
        SyntheticRaises(s, Deleted(s.table, Row(other, user)), other, StageQuit(user), room);
      case Kicks(other, user) => SyntheticRaises(s, s.table, other, RoomKick(user), room);
      case ConnectFails(conn) => SameRevisions(s, Next(s, step), room);
      case Disconnects(conn) => SameRevisions(s, Next(s, step), room);
    }
  }

  lemma SameRevisions(s: State, t: State, room: Room)
    requires t.revisions == s.revisions
    ensures Revision(t, room) == Revision(s, room)
  {
  }
}
