/** The sweeper's loops over the shared queue (pkg/queue/sweeper.go). */
module SweeperLoop {
  import opened Prelude
  import opened Protocol
  import opened Redis
  import Sweeping

  class Sweeper {
    const jobQueue: JobQueue
    const heartbeat: Heartbeats

    constructor (jobQueue: JobQueue, heartbeat: Heartbeats)
      ensures this.jobQueue == jobQueue && this.heartbeat == heartbeat
    {
      this.jobQueue, this.heartbeat := jobQueue, heartbeat;
    }

    /** Move a dead consumer's first page of pending entries to the target, then drop the consumer. */
    method ReclaimFromConsumer(dead: WorkerId, target: WorkerId)
      requires jobQueue.Valid()
      modifies jobQueue
      ensures jobQueue.Valid() && jobQueue.stream == Sweeping.Reclaim(old(jobQueue.stream), dead, target)
    {
      var page := jobQueue.PendingFor(dead, Sweeping.PENDING_PAGE);
      if page == [] {
        jobQueue.DelConsumer(dead);
        return;
      }
      var ids := set i | 0 <= i < |page| :: page[i].id;
      assert ids == Sweeping.FirstPage(jobQueue.stream, dead) by {
        assert ids == Elems(Ids(page));
      }
      assert page[0].id in ids;
      jobQueue.Claim(ids, target);
      jobQueue.DelConsumer(dead);
    }

    /** Consumers holding pending entries without a heartbeat, in whatever order the summary lists them. */
    method FindDead() returns (dead: seq<WorkerId>)
      ensures Distinct(dead)
      ensures forall w :: w in dead <==> w in Sweeping.DeadConsumers(jobQueue.stream, heartbeat.live)
    {
      dead := [];
      var todo := jobQueue.stream.pel.Values;
      while todo != {}
        invariant todo <= jobQueue.stream.pel.Values && Distinct(dead)
        invariant forall w :: w in dead <==> w in jobQueue.stream.pel.Values - todo && w !in heartbeat.live
        decreases todo
      {
        var w :| w in todo;
        if w !in heartbeat.live {
          dead := dead + [w];
        }
        todo := todo - {w};
      }
    }

    /** One pass: some listing orders explain it, and by SweepEffect the outcome does not depend on which. */
    method Sweep()
      requires jobQueue.Valid()
      modifies jobQueue
      ensures jobQueue.Valid()
      ensures exists dead, live ::
                && Sweeping.Listing(old(jobQueue.stream), heartbeat.live, dead, live)
                && jobQueue.stream == Sweeping.Sweep(old(jobQueue.stream), dead, live)
    {
      ghost var before := jobQueue.stream;
      var dead := FindDead();
      var live := heartbeat.LiveWorkerIds();
      assert Sweeping.Listing(before, heartbeat.live, dead, live);
      if |dead| == 0 || |live| == 0 {
        return;
      }
      var i := 0;
      while i < |dead|
        invariant i <= |dead| && jobQueue.Valid()
        invariant Sweeping.ReclaimFrom(jobQueue.stream, dead, live, i) == Sweeping.ReclaimFrom(before, dead, live, 0)
      {
        ReclaimFromConsumer(dead[i], live[i % |live|]);
        i := i + 1;
      }
    }
  }
}
