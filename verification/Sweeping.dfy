/** One pass of the dead-consumer sweeper (pkg/queue/sweeper.go) as a function on the stream. */
module Sweeping {
  import opened Prelude
  import opened Protocol
  import opened JobStream

  const PENDING_PAGE: nat := 100  // XPENDING page size used when listing a dead consumer's entries

  /** Consumers with pending entries and no heartbeat. */
  function DeadConsumers(s: Stream, heartbeats: set<WorkerId>): set<WorkerId> {
    set id | id in s.pel && s.pel[id] !in heartbeats :: s.pel[id]
  }

  ghost function FirstPage(s: Stream, w: WorkerId): set<EntryId> {
    Smallest(Owned(s, w), PENDING_PAGE)
  }

  ghost function Reclaim(s: Stream, dead: WorkerId, target: WorkerId): Stream {
    var ids := FirstPage(s, dead);
    if ids == {} then DelConsumer(s, dead) else DelConsumer(Claim(s, ids, target), dead)
  }

  /** Reclaim dead[i], dead[i+1], ... round-robin over the live workers. */
  ghost function ReclaimFrom(s: Stream, dead: seq<WorkerId>, live: seq<WorkerId>, i: nat): Stream
    requires |live| > 0 && i <= |dead|
    decreases |dead| - i
  {
    if i == |dead| then s
    else ReclaimFrom(Reclaim(s, dead[i], live[i % |live|]), dead, live, i + 1)
  }

  /** `dead` and `live` are the orders in which the consumer map and the heartbeat keys happened to be listed. */
  ghost predicate Listing(s: Stream, heartbeats: set<WorkerId>, dead: seq<WorkerId>, live: seq<WorkerId>) {
    && Distinct(dead) && (forall w :: w in dead <==> w in DeadConsumers(s, heartbeats))
    && (forall w :: w in live <==> w in heartbeats)
  }

  ghost function Sweep(s: Stream, dead: seq<WorkerId>, live: seq<WorkerId>): Stream {
    if dead == [] || live == [] then s else ReclaimFrom(s, dead, live, 0)
  }

  /** No dead consumer holds more than one page of pending entries. */
  ghost predicate WithinPage(s: Stream, heartbeats: set<WorkerId>) {
    forall w :: w in DeadConsumers(s, heartbeats) ==> |Owned(s, w)| <= PENDING_PAGE
  }

  /** Which pending entries a sweep keeps: those of live consumers and each dead consumer's first page. */
  ghost function Kept(s: Stream, heartbeats: set<WorkerId>): set<EntryId> {
    set id | id in s.pel && (s.pel[id] in heartbeats || id in FirstPage(s, s.pel[id]))
  }

  lemma ReclaimEffect(s: Stream, dead: WorkerId, target: WorkerId)
    requires dead != target
    ensures var r := Reclaim(s, dead, target);
            && r == s.(pel := r.pel)
            && (forall id :: id in r.pel <==> id in s.pel && (s.pel[id] != dead || id in FirstPage(s, dead)))
            && (forall id :: id in r.pel ==> r.pel[id] == if s.pel[id] == dead then target else s.pel[id])
  {
    var ids := FirstPage(s, dead);
    SmallestSize(Owned(s, dead), PENDING_PAGE);
    assert ids == {} ==> Owned(s, dead) == {};
    forall id | id in s.pel && s.pel[id] == dead ensures id in Owned(s, dead) {}
  }

  /** Handling one dead consumer leaves the others' entries, and what the whole sweep keeps, unchanged. */
  lemma ReclaimKeeps(s: Stream, heartbeats: set<WorkerId>, d: WorkerId, t: WorkerId)
    requires d !in heartbeats && t in heartbeats
    ensures Kept(Reclaim(s, d, t), heartbeats) == Kept(s, heartbeats)
  {
    var r := Reclaim(s, d, t);
    ReclaimEffect(s, d, t);
    forall id | id in s.pel && s.pel[id] != d && s.pel[id] != t
      ensures id in r.pel && Owned(r, r.pel[id]) == Owned(s, s.pel[id])
    {
      forall k ensures k in Owned(r, r.pel[id]) <==> k in Owned(s, s.pel[id]) {
        if k in Owned(s, s.pel[id]) { assert k in s.pel; }
        if k in Owned(r, r.pel[id]) { assert k in r.pel; }
      }
    }
    forall id ensures id in Kept(r, heartbeats) <==> id in Kept(s, heartbeats) {
      if id in s.pel && s.pel[id] != d && s.pel[id] != t {
        assert id in r.pel;
      }
    }
  }

  lemma {:induction false} ReclaimFromEffect(
      s: Stream, heartbeats: set<WorkerId>, dead: seq<WorkerId>, live: seq<WorkerId>, i: nat)
    requires |live| > 0 && i <= |dead|
    requires Distinct(dead) && (forall w :: w in dead ==> w !in heartbeats)
    requires forall w :: w in live ==> w in heartbeats
    requires forall id :: id in s.pel ==> s.pel[id] in heartbeats || s.pel[id] in dead[i..]
    ensures var r := ReclaimFrom(s, dead, live, i);
            && r == s.(pel := r.pel)
            && r.pel.Keys == Kept(s, heartbeats)
            && (forall id :: id in r.pel ==> r.pel[id] in heartbeats)
            && (forall id :: id in r.pel && s.pel[id] in heartbeats ==> r.pel[id] == s.pel[id])
    decreases |dead| - i
  {
    if i < |dead| {
      var d, t := dead[i], live[i % |live|];
      var s' := Reclaim(s, d, t);
      assert d in dead && t in live;
      ReclaimEffect(s, d, t);
      assert dead[i..] == [d] + dead[i + 1..];
      ReclaimKeeps(s, heartbeats, d, t);
      ReclaimFromEffect(s', heartbeats, dead, live, i + 1);
      assert forall id :: id in s'.pel ==> id in s.pel;
    } else {
      assert dead[i..] == [];
      assert Kept(s, heartbeats) == s.pel.Keys;
    }
  }

  /**
   A sweep with a live worker present leaves nothing pending under a dead consumer, moves nothing between live
   ones, and touches neither entries nor cursor, whatever the listing orders. It keeps every pending id exactly
   when no dead consumer holds more than a page; otherwise each dead consumer's entries past its first page are
   dropped from the PEL. With no live worker it changes nothing.
   */
  lemma SweepEffect(s: Stream, heartbeats: set<WorkerId>, dead: seq<WorkerId>, live: seq<WorkerId>)
    requires Listing(s, heartbeats, dead, live)
    ensures heartbeats == {} ==> Sweep(s, dead, live) == s
    ensures heartbeats != {} ==>
              var r := Sweep(s, dead, live);
              && r == s.(pel := r.pel)
              && DeadConsumers(r, heartbeats) == {}
              && r.pel.Keys == Kept(s, heartbeats)
              && (forall id :: id in r.pel && s.pel[id] in heartbeats ==> r.pel[id] == s.pel[id])
              && (r.pel.Keys == s.pel.Keys <==> WithinPage(s, heartbeats))
  {
    if heartbeats == {} {
      HeadIn(live);
    } else {
      var h :| h in heartbeats;
      assert h in live;
      forall id | id in s.pel ensures s.pel[id] in heartbeats || s.pel[id] in dead {
        assert s.pel[id] !in heartbeats ==> s.pel[id] in DeadConsumers(s, heartbeats);
      }
      if dead == [] {
        assert Kept(s, heartbeats) == s.pel.Keys;
      } else {
        forall w | w in dead ensures w !in heartbeats {
          assert w in DeadConsumers(s, heartbeats);
        }
        assert dead[0..] == dead;
        ReclaimFromEffect(s, heartbeats, dead, live, 0);
      }
      KeptAllIff(s, heartbeats);
    }
  }

  lemma KeptAllIff(s: Stream, heartbeats: set<WorkerId>)
    ensures Kept(s, heartbeats) == s.pel.Keys <==> WithinPage(s, heartbeats)
  {
    forall w ensures |FirstPage(s, w)| <= PENDING_PAGE && (|Owned(s, w)| <= PENDING_PAGE ==> FirstPage(s, w) == Owned(s, w)) {
      SmallestSize(Owned(s, w), PENDING_PAGE);
    }
    if Kept(s, heartbeats) == s.pel.Keys {
      forall w | w in DeadConsumers(s, heartbeats) ensures |Owned(s, w)| <= PENDING_PAGE {
        assert Owned(s, w) <= FirstPage(s, w) by {
          forall id | id in Owned(s, w) ensures id in FirstPage(s, w) {
            assert id in Kept(s, heartbeats);
          }
        }
        SubsetSize(Owned(s, w), FirstPage(s, w));
      }
    }
  }

  /** Two sweeps of the same stream that listed things in different orders agree on what stays pending. */
  lemma ListingOrderIrrelevant(s: Stream, heartbeats: set<WorkerId>,
                               dead: seq<WorkerId>, live: seq<WorkerId>, dead': seq<WorkerId>, live': seq<WorkerId>)
    requires Listing(s, heartbeats, dead, live) && Listing(s, heartbeats, dead', live')
    ensures Sweep(s, dead, live).pel.Keys == Sweep(s, dead', live').pel.Keys
    ensures Sweep(s, dead, live).entries == Sweep(s, dead', live').entries
    ensures Sweep(s, dead, live).cursor == Sweep(s, dead', live').cursor
  {
    SweepEffect(s, heartbeats, dead, live);
    SweepEffect(s, heartbeats, dead', live');
  }
}
