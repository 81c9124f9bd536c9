/** The shared Redis objects as the router uses them (pkg/queue): job queue, token streams, heartbeats. */
module Redis {
  import opened Prelude
  import opened Protocol
  import opened JobStream

  datatype Entry = Entry(id: EntryId, payload: Payload)

  ghost predicate Sorted(es: seq<Entry>) {
    forall i, k :: 0 <= i < k < |es| ==> es[i].id < es[k].id
  }

  function Ids(es: seq<Entry>): (r: seq<EntryId>)
    ensures |r| == |es| && forall i :: 0 <= i < |es| ==> r[i] == es[i].id
  {
    seq(|es|, i requires 0 <= i < |es| => es[i].id)
  }

  lemma MinIsUnique(s: set<nat>, m: nat)
    requires IsMin(s, m)
    ensures s != {} && m == MinOf(s)
  {
  }

  method SmallestOf(ids: set<nat>) returns (m: nat)
    requires ids != {}
    ensures IsMin(ids, m)
  {
    m :| m in ids;
    var todo := ids - {m};
    while todo != {}
      invariant m in ids && forall x :: x in ids ==> x in todo || m <= x
      decreases todo
    {
      var x :| x in todo;
      if x < m && x in ids {
        m := x;
      }
      todo := todo - {x};
    }
  }

  ghost predicate Increasing(ids: seq<nat>) {
    forall i, k :: 0 <= i < k < |ids| ==> ids[i] < ids[k]
  }

  ghost function Elems(r: seq<nat>): set<nat> {
    set x | x in r
  }

  /** Where the listing stands: r holds the smallest ids so far, `left` more are to be taken from the rest. */
  ghost predicate Listed(ids: set<nat>, n: nat, r: seq<nat>, rest: set<nat>, left: nat) {
    && |r| + left == n && Increasing(r)
    && (forall i, y :: 0 <= i < |r| && y in rest ==> r[i] < y)
    && Smallest(ids, n) == Elems(r) + Smallest(rest, left)
  }

  lemma ListOneMore(ids: set<nat>, n: nat, r: seq<nat>, rest: set<nat>, left: nat, m: nat)
    requires Listed(ids, n, r, rest, left) && 0 < left && IsMin(rest, m)
    ensures Listed(ids, n, r + [m], rest - {m}, left - 1)
  {
    MinIsUnique(rest, m);
    assert Elems(r + [m]) == Elems(r) + {m};
  }

  /** The n smallest members in increasing order. */
  method FirstIds(ids: set<nat>, n: nat) returns (r: seq<nat>)
    ensures Increasing(r) && |r| <= n
    ensures Elems(r) == Smallest(ids, n)
  {
    r := [];
    var rest, left := ids, n;
    assert Elems(r) == {};
    while left != 0 && rest != {}
      invariant Listed(ids, n, r, rest, left)
      decreases rest
    {
      var m := SmallestOf(rest);
      ListOneMore(ids, n, r, rest, left, m);
      r, rest, left := r + [m], rest - {m}, left - 1;
    }
  }

  /** The client's view of the shared stream and its consumer group. */
  class JobQueue {
    var stream: Stream

    ghost predicate Valid()
      reads this
    {
      JobStream.Valid(stream)
    }

    constructor ()
      ensures Valid() && stream == Stream(map[], 1, 0, map[])
    {
      stream := Stream(map[], 1, 0, map[]);
    }

    method Enqueue(p: Payload) returns (id: EntryId)
      requires Valid()
      modifies this
      ensures Valid() && id == old(stream).nextId && stream == JobStream.Enqueue(old(stream), p)
    {
      id := stream.nextId;
      stream := JobStream.Enqueue(stream, p);
    }

    /** XREADGROUP ">": the oldest entry not delivered yet, if any, becomes pending for this consumer. */
    method Read(w: WorkerId) returns (r: Option<Entry>)
      requires Valid()
      modifies this
      ensures Valid()
      ensures r.None? ==> stream == old(stream) && forall id :: id in stream.entries ==> id <= stream.cursor
      ensures r.Some? ==>
                && IsNext(old(stream), r.value.id) && old(stream).entries[r.value.id] == r.value.payload
                && stream == Deliver(old(stream), w, r.value.id)
    {
      var unread := set id | id in stream.entries && stream.cursor < id;
      if unread == {} {
        forall id | id in stream.entries ensures id <= stream.cursor {
          assert id !in unread;
        }
        return None;
      }
      var id := SmallestOf(unread);
      forall k | k in stream.entries && stream.cursor < k ensures id <= k {
        assert k in unread;
      }
      r := Some(Entry(id, stream.entries[id]));
      stream := Deliver(stream, w, id);
    }

    /** The first entries pending for a consumer, at most `count` of them, in stream order. */
    method PendingFor(w: WorkerId, count: nat) returns (es: seq<Entry>)
      requires Valid()
      ensures Sorted(es) && |es| <= count
      ensures forall i :: 0 <= i < |es| ==> es[i].id in stream.entries && stream.entries[es[i].id] == es[i].payload
      ensures Elems(Ids(es)) == Smallest(Owned(stream, w), count)
    {
      var ids := FirstIds(Owned(stream, w), count);
      assert forall i :: 0 <= i < |ids| ==> ids[i] in Owned(stream, w);
      var all := stream.entries;
      es := seq(|ids|, i requires 0 <= i < |ids| && ids[i] in all => Entry(ids[i], all[ids[i]]));
      assert Ids(es) == ids;
    }

    /** Non-blocking re-read of what is pending for this consumer. */
    method ReadPending(w: WorkerId) returns (es: seq<Entry>)
      requires Valid()
      ensures Sorted(es) && |es| <= 10
      ensures forall i :: 0 <= i < |es| ==> es[i].id in stream.entries && stream.entries[es[i].id] == es[i].payload
      ensures Elems(Ids(es)) == Smallest(Owned(stream, w), 10)
    {
      es := PendingFor(w, 10);
    }

    /** XACK, then XDEL. */
    method Ack(id: EntryId)
      requires Valid()
      modifies this
      ensures Valid() && stream == JobStream.Ack(old(stream), id)
    {
      stream := stream.(pel := stream.pel - {id});
      stream := stream.(entries := stream.entries - {id});
    }

    method Claim(ids: set<EntryId>, target: WorkerId)
      requires Valid()
      modifies this
      ensures Valid() && stream == JobStream.Claim(old(stream), ids, target)
    {
      stream := JobStream.Claim(stream, ids, target);
    }

    method DelConsumer(w: WorkerId)
      requires Valid()
      modifies this
      ensures Valid() && stream == JobStream.DelConsumer(old(stream), w)
    {
      stream := JobStream.DelConsumer(stream, w);
    }
  }

  class Heartbeats {
    var live: set<WorkerId>

    constructor ()
      ensures live == {}
    {
      live := {};
    }

    method Ping(w: WorkerId)
      modifies this
      ensures live == old(live) + {w}
    {
      live := live + {w};
    }

    method Remove(w: WorkerId)
      modifies this
      ensures live == old(live) - {w}
    {
      live := live - {w};
    }

    /** A key scan lists every live worker, in no particular order. */
    method LiveWorkerIds() returns (ids: seq<WorkerId>)
      ensures forall w :: w in ids <==> w in live
    {
      ids := [];
      var todo := live;
      while todo != {}
        invariant todo <= live && forall w :: w in ids <==> w in live - todo
        decreases todo
      {
        var w :| w in todo;
        ids := ids + [w];
        todo := todo - {w};
      }
    }
  }
}
