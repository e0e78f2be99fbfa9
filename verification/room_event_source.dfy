/** The classes: the ghost publishers' repository, the event source with its maps, and the endpoints that drive them. */
module RoomEventSources {
  import opened Wrappers
  import opened RoomEvents
  import opened GhostStreams
  import opened AudienceRevisions

  lemma {:induction false} DeletedLength(table: seq<Row>, row: Row)
    requires DistinctRows(table)
    ensures |Deleted(table, row)| == |table| - if row in table then 1 else 0
  {
    if table != [] {
      var n := |table| - 1;
      DeletedLength(table[..n], row);
      assert table == table[..n] + [table[n]];
    }
  }

  /** `JdbcGhostPublisherRepository`: `rows` is the table, whose primary key is the whole row. */
  class GhostPublisherRepository {
    var rows: seq<Row>

    ghost predicate Valid()
      reads this
    {
      DistinctRows(rows)
    }

    constructor ()
      ensures Valid() && rows == []
    {
      rows := [];
    }

    /** The insert is ignored on a conflict; the answer is whether it changed one row. */
    method Start(cname: Room, userId: User) returns (started: bool)
      requires Valid()
      modifies this
      ensures Valid()
      ensures rows == Inserted(old(rows), Row(cname, userId))
      ensures started <==> Row(cname, userId) !in old(rows)
    {
      started := Row(cname, userId) !in rows;
      if started {
        rows := rows + [Row(cname, userId)];
      }
    }

    /** The answer is whether the delete changed exactly one row: by the primary key, whether the row was there. */
    method Stop(cname: Room, userId: User) returns (stopped: bool)
      requires Valid()
      modifies this
      ensures Valid()
      ensures rows == Deleted(old(rows), Row(cname, userId))
      ensures stopped <==> Row(cname, userId) in old(rows)
    {
      var row := Row(cname, userId);
      DeletedLength(rows, row);
      DeletedIsDistinct(rows, row);
      var kept := Deleted(rows, row);
      stopped := |rows| - |kept| == 1;
      rows := kept;
    }

    method ListUsers(cname: Room) returns (out: seq<User>)
      ensures out == ListByRoom(rows, cname)
    {
      out := [];
      for i := 0 to |rows|
        invariant out == ListByRoom(rows[..i], cname)
      {
        assert rows[..i + 1][..i] == rows[..i];
        if rows[i].room == cname {
          out := out + [rows[i].user];
        }
      }
      assert rows[..|rows|] == rows;
    }
  }

  /** What lies beyond the maps: the open streams and their sinks, the connectors opened and closed, and what was emitted. */
  datatype Outside = Outside(
    subs: map<SubId, Room>, nextSub: SubId, opens: ConnId, closes: nat,
    nextSink: SinkId, completed: set<SinkId>, streams: map<SubId, Stream>, captured: map<ConnId, Capture>,
    history: seq<Entry>)

  class RoomEventSource {
    const ghostPublishers: GhostPublisherRepository
    var connectors: map<Room, ConnId>
    var counts: map<Room, nat>
    var sinks: map<Room, SinkId>
    var audienceRevisions: map<Room, nat>
    var lastConnectionState: map<Room, string>
    var outside: Outside

    function View(): State
      reads this, ghostPublishers
    {
      State(ghostPublishers.rows,
            Registry(connectors, counts, outside.subs, outside.nextSub, outside.opens, outside.closes),
            Hub(sinks, outside.nextSink, outside.completed, outside.streams, outside.captured),
            audienceRevisions, lastConnectionState, outside.history)
    }

    constructor (ghostPublishers: GhostPublisherRepository)
      ensures this.ghostPublishers == ghostPublishers && View() == Initial(ghostPublishers.rows)
    {
      this.ghostPublishers := ghostPublishers;
      connectors, counts, sinks, audienceRevisions, lastConnectionState := map[], map[], map[], map[], map[];
      outside := Outside(map[], 0, 0, 0, 0, {}, map[], map[], []);
    }

    // ---- Sinks

    method SinkFor(cname: Room) returns (sink: SinkId)
      modifies this
      ensures View() == old(View()).(hub := WithSink(old(View()).hub, cname))
      ensures sink == View().hub.sinks[cname]
    {
      if cname !in sinks {
        sinks := sinks[cname := outside.nextSink];
        outside := outside.(nextSink := outside.nextSink + 1);
      }
      sink := sinks[cname];
    }

    method TryEmitNext(sink: SinkId, d: Delivery)
      modifies `outside
      ensures View() == old(View()).(hub := Deliver(old(View()).hub, sink, d))
    {
      if sink !in outside.completed {
        outside := outside.(streams := map i | i in outside.streams :: Received(outside.streams[i], sink, d));
      }
    }

    method TryEmitComplete(sink: SinkId)
      modifies `outside
      ensures View() == old(View()).(hub := Complete(old(View()).hub, sink))
    {
      outside := outside.(completed := outside.completed + {sink});
    }

    // ---- Emission

    method BumpAudienceRevision(cname: Room)
      modifies `audienceRevisions
      ensures audienceRevisions == old(audienceRevisions)[cname := Get(old(audienceRevisions), cname, 0) + 1]
    {
      if cname !in audienceRevisions {
        audienceRevisions := audienceRevisions[cname := 0];
      }
      audienceRevisions := audienceRevisions[cname := audienceRevisions[cname] + 1];
    }

    method EmitWithRevisionBump(cname: Room, d: Delivery)
      modifies this
      ensures View() == AfterEmit(old(View()), cname, d)
    {
      if AudienceAffecting(d.event) {
        BumpAudienceRevision(cname);
      }
      var sink := SinkFor(cname);
      TryEmitNext(sink, d);
      outside := outside.(history := outside.history + [Emitted(cname, d.event)]);
    }

    method EmitAndTrackState(cname: Room, event: RoomEvent)
      modifies this
      ensures View() == AfterUpstreamEvent(old(View()), cname, event)
    {
      if event.ConnectionState? {
        lastConnectionState := lastConnectionState[cname := event.state];
      }
      EmitWithRevisionBump(cname, Delivery(event, false));
    }

    method EmitSynthetic(cname: Room, event: RoomEvent)
      modifies this
      ensures View() == AfterEmitSynthetic(old(View()), cname, event)
    {
      if cname !in counts || counts[cname] <= 0 {
        return;
      }
      EmitWithRevisionBump(cname, Delivery(event, true));
    }

    // ---- Subscribing

    method ReplayGhosts(cname: Room) returns (replay: seq<Delivery>)
      ensures replay == Replay(ListByRoom(ghostPublishers.rows, cname))
    {
      var users := ghostPublishers.ListUsers(cname);
      replay := [];
      for i := 0 to |users|
        invariant replay == Replay(users[..i])
      {
        assert users[..i + 1][..i] == users[..i];
        replay := replay + [Delivery(StageJoin(users[i], true), true)];
      }
      assert users[..|users|] == users;
    }

    /** The stream a caller is handed: what it is told at once, then whatever reaches the room's sink. */
    method Listen(cname: Room, sub: SubId, inbox: seq<Delivery>)
      modifies this
      ensures View() == old(View()).(hub := Listening(old(View()).hub, sub, cname, inbox))
    {
      var sink := SinkFor(cname);
      outside := outside.(streams := outside.streams[sub := Stream(sink, inbox)]);
    }

    /** The new connector is attached to the sink its failure callbacks will complete. */
    method Attach(cname: Room, conn: ConnId)
      modifies this
      ensures View() == old(View()).(hub := Capturing(old(View()).hub, conn, cname))
    {
      var sink := SinkFor(cname);
      outside := outside.(captured := outside.captured[conn := Capture(cname, sink)]);
    }

    /** Counts the subscriber; the first opens a connector. */
    method Enter(cname: Room) returns (first: bool)
      modifies this
      ensures View() == old(View()).(registry := Subscribed(old(View()).registry, cname))
      ensures first <==> counts[cname] == 1
    {
      if cname !in counts {
        counts := counts[cname := 0];
      }
      counts := counts[cname := counts[cname] + 1];
      outside := outside.(subs := outside.subs[outside.nextSub := cname], nextSub := outside.nextSub + 1);
      first := counts[cname] == 1;
      if first {
        connectors := connectors[cname := outside.opens];
        outside := outside.(opens := outside.opens + 1);
      }
    }

    method Subscribe(cname: Room) returns (sub: SubId)
      modifies this
      ensures View() == AfterSubscribe(old(View()), cname)
      ensures sub == old(outside.nextSub)
    {
      var replay := ReplayGhosts(cname);
      sub := outside.nextSub;
      var conn := outside.opens;
      var first := Enter(cname);
      if first {
        Attach(cname, conn);
        EmitAndTrackState(cname, ConnectionState("connecting"));
        Listen(cname, sub, replay);
      } else {
        var state := Delivery(ConnectionState(Get(lastConnectionState, cname, "disconnected")), false);
        Listen(cname, sub, replay + [state]);
      }
    }

    // ---- Leaving

    method DropSink(cname: Room)
      modifies this
      ensures View() == old(View()).(hub := Dropping(old(View()).hub, cname))
    {
      if cname in sinks {
        var sink := sinks[cname];
        sinks := sinks - {cname};
        TryEmitComplete(sink);
      }
    }

    method Unsubscribe(cname: Room)
      modifies this
      ensures View() == AfterRelease(old(View()), cname)
    {
      hide Dropping;
      if cname !in counts {
        return;
      }
      var count: int := counts[cname];
      var remaining := count - 1;
      if remaining <= 0 {
        counts := counts - {cname};
        if cname in connectors {
          connectors := connectors - {cname};
          outside := outside.(closes := outside.closes + 1);
        }
        DropSink(cname);
        audienceRevisions := audienceRevisions - {cname};
        lastConnectionState := lastConnectionState - {cname};
        outside := outside.(history := outside.history + [TornDown(cname)]);
      } else {
        counts := counts[cname := remaining];
      }
    }

    /** What `RoomSocketController.onClose` does for a session it had subscribed. */
    method CloseSession(sub: SubId)
      requires sub in outside.subs
      modifies this
      ensures View() == AfterUnsubscribe(old(View()), sub)
    {
      var cname := outside.subs[sub];
      outside := outside.(subs := outside.subs - {sub}, streams := outside.streams - {sub});
      Unsubscribe(cname);
    }

    // ---- The upstream's callbacks

    method OnConnectFailure(conn: ConnId)
      requires conn in outside.captured
      modifies `outside
      ensures View() == AfterConnectFailure(old(View()), conn)
    {
      var sink := outside.captured[conn].sink;
      TryEmitNext(sink, Delivery(UpstreamError, false));
      TryEmitComplete(sink);
    }

    method OnDisconnect(conn: ConnId)
      requires conn in outside.captured
      modifies `outside
      ensures View() == AfterDisconnect(old(View()), conn)
    {
      TryEmitComplete(outside.captured[conn].sink);
    }

    method AudienceRevision(cname: Room) returns (revision: nat)
      ensures revision == Revision(View(), cname)
    {
      revision := if cname in audienceRevisions then audienceRevisions[cname] else 0;
    }
  }

  datatype Response = BadRequest | NoContent

  /** The endpoints of `UserController` that emit events, and `RoomController.audienceReconcile`. */
  class Controllers {
    const source: RoomEventSource

    constructor (source: RoomEventSource)
      ensures this.source == source
    {
      this.source := source;
    }

    method StartGhostPublish(cname: Room, caller: Option<User>) returns (response: Response)
      requires source.ghostPublishers.Valid()
      modifies source, source.ghostPublishers
      ensures source.ghostPublishers.Valid()
      ensures response == if caller.None? then BadRequest else NoContent
      ensures source.View()
           == if caller.None? then old(source.View()) else AfterStartGhost(old(source.View()), cname, caller.value)
    {
      if caller.None? {
        return BadRequest;
      }
      var started := source.ghostPublishers.Start(cname, caller.value);
      if started {
        source.EmitSynthetic(cname, StageJoin(caller.value, true));
      }
      return NoContent;
    }

    method StopGhostPublish(cname: Room, caller: Option<User>) returns (response: Response)
      requires source.ghostPublishers.Valid()
      modifies source, source.ghostPublishers
      ensures source.ghostPublishers.Valid()
      ensures response == if caller.None? then BadRequest else NoContent
      ensures source.View()
           == if caller.None? then old(source.View()) else AfterStopGhost(old(source.View()), cname, caller.value)
    {
      if caller.None? {
        return BadRequest;
      }
      var stopped := source.ghostPublishers.Stop(cname, caller.value);
      if stopped {
        source.EmitSynthetic(cname, StageQuit(caller.value));
      } else {
        NothingDeleted(old(source.View()).table, Row(cname, caller.value));
      }
      return NoContent;
    }

    method Kick(cname: Room, caller: Option<User>, request: Option<User>) returns (response: Response)
      modifies source
      ensures
        var accepted := caller.Some? && request.Some? && request.value > 0;
        && response == (if accepted then NoContent else BadRequest)
        && source.View()
           == if accepted then AfterEmitSynthetic(old(source.View()), cname, RoomKick(request.value)) else old(source.View())
    {
      if caller.None? {
        return BadRequest;
      }
      if request.None? || request.value <= 0 {
        return BadRequest;
      }
      source.EmitSynthetic(cname, RoomKick(request.value));
      return NoContent;
    }

    method AudienceReconcile(cname: Room, sinceRevision: int) returns (revision: nat, changed: bool)
      ensures revision == Revision(source.View(), cname)
      ensures changed <==> Changed(source.View(), cname, sinceRevision)
    {
      revision := source.AudienceRevision(cname);
      changed := !(revision <= sinceRevision);
    }
  }

  lemma {:induction false} NothingDeleted(table: seq<Row>, row: Row)
    requires row !in table
    ensures Deleted(table, row) == table
  {
    if table != [] {
      var n := |table| - 1;
      NothingDeleted(table[..n], row);
      assert table == table[..n] + [table[n]];
    }
  }
}
