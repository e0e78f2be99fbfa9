/** What a client can tell of the ghosts: events reach it without a mark of where they came from. */
module VisibleGhosts {
  import opened RoomEvents
  import opened GhostStreams

  /** The ghosts of a client that takes every ghost's join and every quit at face value. */
  function Shown(inbox: seq<Delivery>): set<User> {
    if inbox == [] then {}
    else
      var before, e := Shown(inbox[..|inbox| - 1]), inbox[|inbox| - 1].event;
      if e.StageJoin? && e.isGhost then before + {e.user}
      else if e.StageQuit? then before - {e.user}
      else before
  }

  /** The k-th event is synthetic, or changes nothing for the ghosts listed when it arrives. */
  predicate IsHarmless(inbox: seq<Delivery>, k: nat)
    requires k < |inbox|
  {
    var e := inbox[k].event;
    || inbox[k].synthetic
    || ((e.StageJoin? && e.isGhost ==> e.user in Ghosts(inbox[..k])) && (e.StageQuit? ==> e.user !in Ghosts(inbox[..k])))
  }

  predicate AgreesAt(inbox: seq<Delivery>, k: nat)
    requires k <= |inbox|
  {
    Shown(inbox[..k]) == Ghosts(inbox[..k])
  }

  lemma OneMoreEvent(inbox: seq<Delivery>, k: nat)
    requires k < |inbox| && AgreesAt(inbox, k)
    ensures AgreesAt(inbox, k + 1) <==> IsHarmless(inbox, k)
  {
    assert inbox[..k + 1][..k] == inbox[..k] && inbox[..k + 1][k] == inbox[k];
    var before, d := Ghosts(inbox[..k]), inbox[k];
    if !d.synthetic && d.event.StageQuit? && d.event.user in before {
      assert d.event.user !in Shown(inbox[..k + 1]);
    }
    if !d.synthetic && d.event.StageJoin? && d.event.isGhost && d.event.user !in before {
      assert d.event.user in Shown(inbox[..k + 1]);
    }
  }

  /**
    * Such a client agrees with the synthetic events all along the stream if and only if the upstream never sent a quit
    * of a ghost that was listed, nor a ghost's join of a user who was not.
    */
  lemma {:induction false} ShownIsExact(inbox: seq<Delivery>, n: nat)
    requires n <= |inbox|
    ensures (forall k: nat :: k <= n ==> AgreesAt(inbox, k)) <==> (forall k: nat :: k < n ==> IsHarmless(inbox, k))
  {
    hide AgreesAt, IsHarmless;
    if n == 0 {
      NothingShown(inbox);
    } else {
      ShownIsExact(inbox, n - 1);
      if AgreesAt(inbox, n - 1) {
        OneMoreEvent(inbox, n - 1);
      }
    }
  }

  lemma NothingShown(inbox: seq<Delivery>)
    ensures AgreesAt(inbox, 0)
  {
  }

  /** In every state of every run, without such events a live subscriber's client shows exactly the listed ghosts. */
  lemma ClientsShowTheGhosts(run: seq<State>, steps: seq<Step>, k: nat, i: SubId)
    requires IsRun(run, steps) && k < |run|
    requires i in run[k].registry.subs && i in run[k].hub.streams
    requires run[k].hub.streams[i].sink !in run[k].hub.completed
    requires var inbox := run[k].hub.streams[i].inbox; forall j: nat :: j < |inbox| ==> IsHarmless(inbox, j)
    ensures Shown(run[k].hub.streams[i].inbox) == UsersIn(run[k].table, run[k].registry.subs[i])
  {
    var inbox := run[k].hub.streams[i].inbox;
    SubscribersSeeTheGhosts(run, steps, k, i, 0);
    hide IsHarmless;
    ShownIsExact(inbox, |inbox|);
    assert AgreesAt(inbox, |inbox|) && inbox[..|inbox|] == inbox;
  }
}
