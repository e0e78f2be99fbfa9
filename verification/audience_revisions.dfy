/** The audience revision of a room, as the reconcile endpoint reports it, against the events that change the roster. */
module AudienceRevisions {
  import opened RoomEvents

  /** `audienceRevision`: zero for a room without a counter. */
  function Revision(s: State, room: Room): nat {
    Get(s.revisions, room, 0)
  }

  /** The endpoint's answer to a client that last saw `since`: a new roster exactly when the revision has grown. */
  predicate Changed(s: State, room: Room, since: int) {
    Revision(s, room) > since
  }

  predicate Affects(entry: Entry, room: Room) {
    entry.Emitted? && entry.room == room && AudienceAffecting(entry.event)
  }

  /** How many of the entries since the room was last torn down changed its roster. */
  function AffectingSince(history: seq<Entry>, room: Room): nat {
    if history == [] then 0
    else
      var before, last := AffectingSince(history[..|history| - 1], room), history[|history| - 1];
      if last == TornDown(room) then 0
      else if Affects(last, room) then before + 1
      else before
  }

  ghost predicate RevisionMatches(s: State, room: Room) {
    Revision(s, room) == AffectingSince(s.history, room)
  }

  lemma EmitKeepsRevision(s: State, other: Room, d: Delivery, room: Room)
    requires RevisionMatches(s, room)
    ensures RevisionMatches(AfterEmit(s, other, d), room)
  {
    var h := AfterEmit(s, other, d).history;
    assert h[..|h| - 1] == s.history;
  }

  lemma StepKeepsRevision(s: State, step: Step, room: Room)
    requires RevisionMatches(s, room) && Enabled(s, step)
    ensures RevisionMatches(Next(s, step), room)
    ensures s.history <= Next(s, step).history
  {
    hide RevisionMatches, Publish, Listening, Capturing;
    var table := s.table;
    match step {
      case Subscribes(other) => SubscribeKeepsRevision(s, other, room);
      case Unsubscribes(sub) => UnsubscribeKeepsRevision(s, sub, room);
      case UpstreamSends(conn, e) =>
        UpstreamKeepsRevision(s, s.hub.captured[conn].room, e, room);
      case GhostStarts(other, user) =>
        SyntheticKeepsRevision(s, Inserted(table, Row(other, user)), other, StageJoin(user, true), room);
      case GhostStops(other, user) =>
        SyntheticKeepsRevision(s, Deleted(table, Row(other, user)), other, StageQuit(user), room);
      case Kicks(other, user) => SyntheticKeepsRevision(s, table, other, RoomKick(user), room);
      case ConnectFails(conn) => RevisionIgnoresTheRest(s, Next(s, step), room);
      case Disconnects(conn) => RevisionIgnoresTheRest(s, Next(s, step), room);
    }
  }

  lemma RevisionIgnoresTheRest(s: State, t: State, room: Room)
    requires RevisionMatches(s, room) && t.revisions == s.revisions && t.history == s.history
    ensures RevisionMatches(t, room)
  {
  }

  lemma UpstreamKeepsRevision(s: State, other: Room, e: RoomEvent, room: Room)
    requires RevisionMatches(s, room)
    ensures RevisionMatches(AfterUpstreamEvent(s, other, e), room)
  {
    EmitKeepsRevision(if e.ConnectionState? then s.(lastState := s.lastState[other := e.state]) else s,
                      other, Delivery(e, false), room);
  }

  lemma SyntheticKeepsRevision(s: State, table: seq<Row>, other: Room, e: RoomEvent, room: Room)
    requires RevisionMatches(s, room)
    ensures RevisionMatches(AfterEmitSynthetic(s.(table := table), other, e), room)
    ensures RevisionMatches(s.(table := table), room)
  {
    EmitKeepsRevision(s.(table := table), other, Delivery(e, true), room);
  }

  lemma SubscribeKeepsRevision(s: State, other: Room, room: Room)
    requires RevisionMatches(s, room)
    ensures RevisionMatches(AfterSubscribe(s, other), room)
  {
    var reg := Subscribed(s.registry, other);
    var t := s.(registry := reg, hub := Capturing(s.hub, s.registry.opens, other));
    var connected := AfterUpstreamEvent(t, other, ConnectionState("connecting"));
    UpstreamKeepsRevision(t, other, ConnectionState("connecting"), room);
    assert AfterSubscribe(s, other).revisions == if reg.counts[other] == 1 then connected.revisions else s.revisions;
    assert AfterSubscribe(s, other).history == if reg.counts[other] == 1 then connected.history else s.history;
  }

  lemma UnsubscribeKeepsRevision(s: State, sub: SubId, room: Room)
    requires RevisionMatches(s, room) && sub in s.registry.subs
    ensures RevisionMatches(AfterUnsubscribe(s, sub), room)
  {
    var t := AfterUnsubscribe(s, sub);
    if t.history != s.history {
      assert t.history[..|t.history| - 1] == s.history;
    }
  }

  /** In every state a run reaches, the revision counts the roster's changes since the room was last torn down. */
  lemma {:induction false} RevisionCountsChanges(run: seq<State>, steps: seq<Step>, k: nat, room: Room)
    requires IsRun(run, steps) && k < |run|
    ensures Revision(run[k], room) == AffectingSince(run[k].history, room)
  {
    if k > 0 {
      RevisionCountsChanges(run, steps, k - 1, room);
      StepKeepsRevision(run[k - 1], steps[k - 1], room);
    }
  }

  lemma {:induction false} HistoryGrows(run: seq<State>, steps: seq<Step>, j: nat, k: nat)
    requires IsRun(run, steps) && j <= k < |run|
    ensures run[j].history <= run[k].history
  {
    hide Next, Enabled, Revision, AffectingSince;
    if j < k {
      HistoryGrows(run, steps, j, k - 1);
      RevisionCountsChanges(run, steps, k - 1, Room(""));
      StepKeepsRevision(run[k - 1], steps[k - 1], Room(""));
    }
  }

  lemma {:induction false} AffectingSplits(before: seq<Entry>, more: seq<Entry>, room: Room)
    ensures AffectingSince(before + more, room)
         == AffectingSince(more, room) + if TornDown(room) in more then 0 else AffectingSince(before, room)
  {
    if more == [] {
      assert before + more == before;
    } else {
      var n := |more| - 1;
      AffectingSplits(before, more[..n], room);
      assert (before + more)[..|before + more| - 1] == before + more[..n];
      assert more == more[..n] + [more[n]];
    }
  }

  lemma {:induction false} AffectingIsPositive(more: seq<Entry>, room: Room)
    requires TornDown(room) !in more
    ensures AffectingSince(more, room) > 0 <==> exists k :: 0 <= k < |more| && Affects(more[k], room)
  {
    if more != [] {
      var n := |more| - 1;
      AffectingIsPositive(more[..n], room);
      assert forall k :: 0 <= k < n ==> more[..n][k] == more[k];
      if k :| 0 <= k < |more| && Affects(more[k], room) && k < n {
        assert Affects(more[..n][k], room);
      }
    }
  }

  /**
    * A client that read its revision in an earlier state of the run is told of a change exactly when the roster changed
    * in between, provided the room was not torn down in between; otherwise exactly when more changes followed the
    * last teardown than its revision counted.
    */
  lemma ReconcileReportsChanges(run: seq<State>, steps: seq<Step>, j: nat, k: nat, room: Room)
    requires IsRun(run, steps) && j <= k < |run|
    ensures run[j].history <= run[k].history
    ensures
      var more := run[k].history[|run[j].history|..];
      Changed(run[k], room, Revision(run[j], room)) <==>
        if TornDown(room) in more then AffectingSince(more, room) > Revision(run[j], room)
        else exists i :: 0 <= i < |more| && Affects(more[i], room)
  {
    HistoryGrows(run, steps, j, k);
    RevisionCountsChanges(run, steps, j, room);
    RevisionCountsChanges(run, steps, k, room);
    var more := run[k].history[|run[j].history|..];
    assert run[k].history == run[j].history + more;
    AffectingSplits(run[j].history, more, room);
    if TornDown(room) !in more {
      AffectingIsPositive(more, room);
    }
  }

  // ---- Runs on which the endpoint's answer surprises

  /** A room without subscribers; every connector so far was opened for it, one for each subscription. */
  predicate IsLeft(s: State, room: Room, revision: nat, opens: nat) {
    && room !in s.registry.counts && s.registry.opens == s.registry.nextSub == opens
    && Revision(s, room) == revision
    && forall c: nat :: c < opens ==> c in s.hub.captured && s.hub.captured[c].room == room
  }

  /** The same room with its newest connector and subscription open. */
  predicate IsJoined(s: State, room: Room, revision: nat, opens: nat) {
    && opens > 0 && room in s.registry.counts && s.registry.counts[room] == 1
    && opens - 1 in s.registry.subs && s.registry.subs[opens - 1] == room
    && s.registry.opens == s.registry.nextSub == opens
    && Revision(s, room) == revision
    && forall c: nat :: c < opens ==> c in s.hub.captured && s.hub.captured[c].room == room
  }

  lemma Joins(s: State, room: Room, revision: nat, opens: nat)
    requires IsLeft(s, room, revision, opens)
    ensures IsJoined(Next(s, Subscribes(room)), room, revision, opens + 1)
  {
    hide Replay, ListByRoom;
  }

  lemma Leaves(s: State, room: Room, revision: nat, opens: nat)
    requires IsJoined(s, room, revision, opens)
    ensures Enabled(s, Unsubscribes(opens - 1)) && IsLeft(Next(s, Unsubscribes(opens - 1)), room, 0, opens)
  {
  }

  /** A user joins while the room is open, or after its connector was closed. */
  lemma UserJoins(s: State, room: Room, revision: nat, opens: nat, user: User)
    requires opens > 0
    ensures IsJoined(s, room, revision, opens) ==>
              && Enabled(s, UpstreamSends(opens - 1, UserJoin(user)))
              && IsJoined(Next(s, UpstreamSends(opens - 1, UserJoin(user))), room, revision + 1, opens)
    ensures IsLeft(s, room, revision, opens) ==>
              && Enabled(s, UpstreamSends(opens - 1, UserJoin(user)))
              && IsLeft(Next(s, UpstreamSends(opens - 1, UserJoin(user))), room, revision + 1, opens)
  {
  }

  lemma RunStarts(table: seq<Row>)
    requires DistinctRows(table)
    ensures IsRun([Initial(table)], [])
  {
  }

  /** A run goes on by an enabled step. */
  lemma RunGrows(run: seq<State>, steps: seq<Step>, step: Step) returns (more: seq<State>)
    requires IsRun(run, steps) && Enabled(run[|steps|], step)
    ensures IsRun(more, steps + [step]) && more == run + [Next(run[|steps|], step)]
  {
    more := run + [Next(run[|steps|], step)];
    var longer := steps + [step];
    forall k | 0 <= k < |longer|
      ensures Enabled(more[k], longer[k]) && more[k + 1] == Next(more[k], longer[k])
    {
      if k < |steps| {
        assert more[k] == run[k] && more[k + 1] == run[k + 1] && longer[k] == steps[k];
      }
    }
  }

  /** A closed connector's late event counts too: a room without subscribers may have a revision, for clients to come. */
  lemma LateEventsAreCounted(table: seq<Row>, room: Room, user: User) returns (run: seq<State>)
    requires DistinctRows(table)
    ensures IsRun(run, [Subscribes(room), Unsubscribes(0), UpstreamSends(0, UserJoin(user))])
    ensures room !in run[3].registry.counts && Revision(run[3], room) == 1
  {
    hide Next, Enabled, IsLeft, IsJoined, Initial, IsRun;
    run := [Initial(table)];
    RunStarts(table);
    NoneYet(table, room);
    Joins(run[0], room, 0, 0);
    run := RunGrows(run, [], Subscribes(room));
    Leaves(run[1], room, 0, 1);
    run := RunGrows(run, [Subscribes(room)], Unsubscribes(0));
    UserJoins(run[2], room, 0, 1, user);
    run := RunGrows(run, [Subscribes(room), Unsubscribes(0)], UpstreamSends(0, UserJoin(user)));
    LeftRoom(run[3], room, 1, 1);
    assert [Subscribes(room), Unsubscribes(0)] + [UpstreamSends(0, UserJoin(user))]
        == [Subscribes(room), Unsubscribes(0), UpstreamSends(0, UserJoin(user))];
  }

  lemma NoneYet(table: seq<Row>, room: Room)
    ensures IsLeft(Initial(table), room, 0, 0)
  {
  }

  lemma LeftRoom(s: State, room: Room, revision: nat, opens: nat)
    requires IsLeft(s, room, revision, opens)
    ensures room !in s.registry.counts && Revision(s, room) == revision
  {
  }

  lemma JoinedRoom(s: State, room: Room, revision: nat, opens: nat)
    requires IsJoined(s, room, revision, opens)
    ensures Revision(s, room) == revision
  {
  }

  function RejoinSteps(room: Room, first: User, second: User): seq<Step> {
    [Subscribes(room), UpstreamSends(0, UserJoin(first)), Unsubscribes(0),
     Subscribes(room), UpstreamSends(1, UserJoin(second))]
  }

  lemma RejoinRun(table: seq<Row>, room: Room, first: User, second: User) returns (run: seq<State>)
    requires DistinctRows(table)
    ensures IsRun(run, RejoinSteps(room, first, second))
    ensures Revision(run[2], room) == Revision(run[5], room) == 1
    ensures run[5].history == run[4].history + [Emitted(room, UserJoin(second))]
  {
    hide Next, Enabled, IsLeft, IsJoined, Initial, IsRun;
    run := [Initial(table)];
    RunStarts(table);
    NoneYet(table, room);
    Joins(run[0], room, 0, 0);
    run := RunGrows(run, [], Subscribes(room));
    UserJoins(run[1], room, 0, 1, first);
    var joined := UpstreamSends(0, UserJoin(first));
    run := RunGrows(run, [Subscribes(room)], joined);
    JoinedRoom(run[2], room, 1, 1);
    Leaves(run[2], room, 1, 1);
    run := RunGrows(run, [Subscribes(room), joined], Unsubscribes(0));
    Joins(run[3], room, 0, 1);
    run := RunGrows(run, [Subscribes(room), joined, Unsubscribes(0)], Subscribes(room));
    UserJoins(run[4], room, 0, 2, second);
    LastEntry(run[4], room, 0, 2, second);
    run := RunGrows(run, [Subscribes(room), joined, Unsubscribes(0), Subscribes(room)], UpstreamSends(1, UserJoin(second)));
    JoinedRoom(run[5], room, 1, 2);
    assert RejoinSteps(room, first, second)
        == [Subscribes(room), joined, Unsubscribes(0), Subscribes(room)] + [UpstreamSends(1, UserJoin(second))];
  }

  lemma LastEntry(s: State, room: Room, revision: nat, opens: nat, user: User)
    requires opens > 0 && IsJoined(s, room, revision, opens)
    ensures Enabled(s, UpstreamSends(opens - 1, UserJoin(user)))
    ensures Next(s, UpstreamSends(opens - 1, UserJoin(user))).history == s.history + [Emitted(room, UserJoin(user))]
  {
  }

  /**
    * A change that is missed: two users join a room, one before and one after it was torn down. The client that saw the
    * first comes back with revision 1, and is told that nothing changed.
    */
  lemma ChangeIsMissed(table: seq<Row>, room: Room, first: User, second: User) returns (run: seq<State>)
    requires DistinctRows(table)
    ensures IsRun(run, RejoinSteps(room, first, second))
    ensures !Changed(run[5], room, Revision(run[2], room))
    ensures run[2].history <= run[5].history && Emitted(room, UserJoin(second)) in run[5].history[|run[2].history|..]
  {
    run := RejoinRun(table, room, first, second);
    var steps := RejoinSteps(room, first, second);
    HistoryGrows(run, steps, 2, 4);
    HistoryGrows(run, steps, 2, 5);
    hide IsRun, Revision;
    var more := run[5].history[|run[2].history|..];
    assert more[|more| - 1] == Emitted(room, UserJoin(second));
  }
}
