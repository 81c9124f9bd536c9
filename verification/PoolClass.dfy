/** The worker pool and the per-connection job table (pkg/gpu/pool.go, internal/router/wshandler.go). */
module PoolClass {
  import opened Prelude
  import opened Protocol
  import opened JobStream
  import Router

  class Pool {
    var workers: map<WorkerId, Router.PoolWorker>

    constructor ()
      ensures workers == map[]
    {
      workers := map[];
    }

    method Add(id: WorkerId, maxSlots: int) returns (ok: bool)
      modifies this
      ensures ok <==> id !in old(workers)
      ensures workers == if ok then old(workers)[id := Router.PoolWorker({}, maxSlots)] else old(workers)
    {
      ok := id !in workers;
      if ok {
        workers := workers[id := Router.PoolWorker({}, maxSlots)];
      }
    }

    /** Reports the jobs that were active on the removed worker. */
    method Remove(id: WorkerId) returns (orphaned: set<JobId>)
      modifies this
      ensures workers == old(workers) - {id}
      ensures orphaned == if id in old(workers) then old(workers)[id].active else {}
    {
      orphaned := if id in workers then workers[id].active else {};
      workers := workers - {id};
    }

    method UpdateCapabilities(id: WorkerId, totalSlots: int)
      modifies this
      ensures workers == Router.PoolUpdate(old(workers), id, totalSlots)
    {
      if id in workers && totalSlots > 0 {
        workers := workers[id := workers[id].(maxSlots := totalSlots)];
      }
    }

    method AssignJob(id: WorkerId, j: JobId) returns (ok: bool)
      modifies this
      ensures var r := Router.PoolAssign(old(workers), id, j);
              ok == r.Some? && workers == if ok then r.value else old(workers)
    {
      if id !in workers {
        return false;
      }
      if |workers[id].active| >= workers[id].maxSlots {
        return false;
      }
      workers := workers[id := workers[id].(active := workers[id].active + {j})];
      ok := true;
    }

    method CompleteJob(id: WorkerId, j: JobId) returns (had: bool)
      modifies this
      ensures workers == Router.PoolComplete(old(workers), id, j)
      ensures had <==> id in old(workers) && j in old(workers)[id].active
    {
      if id !in workers {
        return false;
      }
      had := j in workers[id].active;
      workers := workers[id := workers[id].(active := workers[id].active - {j})];
    }
  }

  class TokenStreams {
    var streams: map<JobId, seq<TokenEvent>>

    constructor ()
      ensures streams == map[]
    {
      streams := map[];
    }

    method Publish(j: JobId, e: TokenEvent)
      modifies this
      ensures streams == Router.Publish(old(streams), j, e)
    {
      streams := streams[j := (if j in streams then streams[j] else []) + [e]];
    }

    /** Up to `count` events after position `lastId`; positions are stream ids, counted from 1. */
    method Read(j: JobId, lastId: nat, count: nat) returns (es: seq<TokenEvent>)
      requires lastId <= |Router.Events(streams, j)|
      ensures |es| == if |Router.Events(streams, j)| - lastId <= count then |Router.Events(streams, j)| - lastId else count
      ensures es == Router.Events(streams, j)[lastId..lastId + |es|]
    {
      var all := if j in streams then streams[j] else [];
      var last := if |all| - lastId <= count then |all| else lastId + count;
      es := all[lastId..last];
    }
  }

  datatype ActiveJob = ActiveJob(entryId: EntryId, assignedAt: int)

  datatype AssignResult = AssignOk | AssignDuplicate | AssignAtCapacity

  class WorkerConn {
    const id: WorkerId
    var activeJobs: map<JobId, ActiveJob>
    var maxSlots: int

    constructor (id: WorkerId, maxSlots: int)
      ensures this.id == id && this.maxSlots == maxSlots && activeJobs == map[]
      ensures View() == Router.Conn(map[], maxSlots)
    {
      this.id, this.maxSlots, activeJobs := id, maxSlots, map[];
    }

    ghost function View(): Router.Conn
      reads this
    {
      Router.Conn(map j | j in activeJobs :: activeJobs[j].entryId, maxSlots)
    }

    method HasCapacity() returns (r: bool)
      ensures r <==> |View().active| < maxSlots
    {
      ViewSize();
      r := |activeJobs| < maxSlots;
    }

    lemma ViewSize()
      ensures |View().active| == |activeJobs|
    {
      assert View().active.Keys == activeJobs.Keys;
      assert |View().active| == |View().active.Keys| == |activeJobs.Keys| == |activeJobs|;
    }

    method AssignJob(j: JobId, entryId: EntryId, now: int) returns (r: AssignResult)
      modifies this
      ensures r.AssignDuplicate? <==> j in old(View()).active
      ensures r.AssignAtCapacity? <==> j !in old(View()).active && |old(View()).active| >= maxSlots
      ensures maxSlots == old(maxSlots)
      ensures View() == if r.AssignOk? then old(View()).(active := old(View()).active[j := entryId]) else old(View())
    {
      ViewSize();
      if j in activeJobs {
        return AssignDuplicate;
      }
      if |activeJobs| >= maxSlots {
        return AssignAtCapacity;
      }
      activeJobs := activeJobs[j := ActiveJob(entryId, now)];
      assert View().active == old(View()).active[j := entryId];
      r := AssignOk;
    }

    /** The entry to acknowledge, if the job was in flight here. */
    method CompleteJob(j: JobId) returns (entry: Option<EntryId>)
      modifies this
      ensures entry == if j in old(View()).active then Some(old(View()).active[j]) else None
      ensures View() == old(View()).(active := old(View()).active - {j})
      ensures activeJobs == old(activeJobs) - {j}
    {
      entry := if j in activeJobs then Some(activeJobs[j].entryId) else None;
      activeJobs := activeJobs - {j};
      assert View().active == old(View()).active - {j};
    }

    /** Jobs in flight for longer than the timeout, in some order. */
    method StaleJobs(now: int, timeout: int) returns (stale: seq<JobId>)
      ensures Distinct(stale)
      ensures forall j :: j in stale <==> j in activeJobs && now - activeJobs[j].assignedAt > timeout
    {
      stale := [];
      var todo := activeJobs.Keys;
      while todo != {}
        invariant todo <= activeJobs.Keys && Distinct(stale)
        invariant forall j :: j in stale <==> j in activeJobs.Keys - todo && now - activeJobs[j].assignedAt > timeout
        decreases todo
      {
        var j :| j in todo;
        if now - activeJobs[j].assignedAt > timeout {
          stale := stale + [j];
        }
        todo := todo - {j};
      }
    }
  }
}
