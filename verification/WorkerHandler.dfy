/** The worker side of the router with its tables updated in place (internal/router/wshandler.go). */
module WorkerHandler {
  import opened Prelude
  import opened Protocol
  import opened JobStream
  import opened Redis
  import opened PoolClass
  import opened ToolsHandler
  import opened Router
  import opened ReaderLoop

  /** Append the definitions whose names the existing list does not have. */
  method AppendMissing(existing: seq<ToolDef>, defs: seq<ToolDef>) returns (tools: seq<ToolDef>)
    ensures tools == existing + NewDefs(defs, existing)
  {
    tools := existing;
    var i := 0;
    assert defs[0..] == defs;
    while i < |defs|
      invariant i <= |defs| && tools + NewDefs(defs[i..], existing) == existing + NewDefs(defs, existing)
    {
      assert defs[i..][1..] == defs[i + 1..];
      if forall t :: t in existing ==> t.name != defs[i].name {
        tools := tools + [defs[i]];
      }
      i := i + 1;
    }
    assert tools + [] == tools;
  }

  /** The listed entries from position i on are in the stream, with the payload listed. */
  ghost predicate Held(st: JobStream.Stream, pending: seq<Entry>, i: nat) {
    forall k :: i <= k < |pending| ==> pending[k].id in st.entries && st.entries[pending[k].id] == pending[k].payload
  }

  lemma StillHeld(st: JobStream.Stream, st': JobStream.Stream, pending: seq<Entry>, i: nat)
    requires Held(st, pending, i) && Sorted(pending) && i < |pending|
    requires st' == st || st' == Ack(st, pending[i].id)
    ensures Held(st', pending, i + 1)
  {
  }

  class WSHandler {
    const cfg: Config
    const pool: Pool
    const jobQueue: JobQueue
    const tokenStream: TokenStreams
    const heartbeat: Heartbeats
    const tools: ToolsWSHandler
    var workers: map<WorkerId, WorkerConn>

    constructor (cfg: Config, pool: Pool, jobQueue: JobQueue, tokenStream: TokenStreams, heartbeat: Heartbeats,
                 tools: ToolsWSHandler)
      requires tools.cfg == cfg && tools.jobQueue == jobQueue && tools.tokenStream == tokenStream && jobQueue.Valid()
      ensures Valid() && workers == map[]
      ensures this.cfg == cfg && this.pool == pool && this.jobQueue == jobQueue && this.tokenStream == tokenStream
      ensures this.heartbeat == heartbeat && this.tools == tools
    {
      this.cfg, this.pool, this.jobQueue, this.tokenStream, this.heartbeat, this.tools :=
        cfg, pool, jobQueue, tokenStream, heartbeat, tools;
      workers := map[];
    }

    /** Connections are filed under their own id, so no two ids share one. */
    ghost predicate Valid()
      reads this, jobQueue, workers.Values
    {
      && tools.cfg == cfg && tools.jobQueue == jobQueue && tools.tokenStream == tokenStream && jobQueue.Valid()
      && forall w :: w in workers ==> workers[w].id == w
    }

    ghost function Table(): map<WorkerId, Conn>
      reads this, workers.Values
    {
      map w | w in workers :: workers[w].View()
    }

    /** Everything but the tools handler's share of the state. */
    ghost function Rest(): State
      reads this, pool, heartbeat, workers.Values
    {
      Initial.(heartbeats := heartbeat.live, conns := Table(), pool := pool.workers)
    }

    ghost function View(): State
      reads this, pool, jobQueue, tokenStream, heartbeat, tools, tools.jobQueue, tools.tokenStream, workers.Values
    {
      tools.View(Rest())
    }

    ghost predicate Connected(wc: WorkerConn)
      reads this
    {
      wc.id in workers && workers[wc.id] == wc
    }

    method PublishEvent(j: JobId, e: TokenEvent)
      requires Valid()
      modifies tokenStream
      ensures Valid() && View() == old(View()).(tokens := Publish(old(View()).tokens, j, e))
    {
      tokenStream.Publish(j, e);
    }

    method AckEntry(id: EntryId)
      requires Valid()
      modifies jobQueue
      ensures Valid() && View() == old(View()).(stream := Ack(old(View()).stream, id))
    {
      jobQueue.Ack(id);
    }

    /** Add the allowed tools the job does not list yet. */
    method InjectInto(raw: JobMessage) returns (jobMsg: JobMessage)
      requires Valid()
      ensures jobMsg == InjectTools(cfg, View(), raw)
    {
      jobMsg := raw;
      if !cfg.toolsEnabled {
        return;
      }
      var defs := tools.AllowedToolDefs();
      var all := AppendMissing(jobMsg.tools, defs);
      jobMsg := jobMsg.(tools := all);
      assert NewDefs([], raw.tools) == [] && raw.tools + [] == raw.tools;
    }

    method PrepareJob(raw: JobMessage) returns (jobMsg: JobMessage)
      requires Valid()
      modifies tools
      ensures Valid() && jobMsg.jobId == raw.jobId
      ensures View() == SaveContext(cfg, old(View()), InjectTools(cfg, old(View()), raw))
    {
      jobMsg := InjectInto(raw);
      if cfg.toolsEnabled {
        tools.SaveJobContext(Rest(), jobMsg);
      }
    }

    /** Take a slot for the job, in the connection and in the pool, if it has none here and one is free. */
    method TakeSlot(wc: WorkerConn, j: JobId, id: EntryId, now: int) returns (r: AssignResult)
      requires Valid() && Connected(wc)
      modifies wc, pool
      ensures Valid()
      ensures r.AssignDuplicate? <==> j in old(View()).conns[wc.id].active
      ensures r.AssignAtCapacity? <==>
                j !in old(View()).conns[wc.id].active
                && |old(View()).conns[wc.id].active| >= old(View()).conns[wc.id].maxSlots
      ensures View() == if r.AssignOk? then Assign(old(View()), wc.id, j, id) else old(View())
    {
      hide PoolAssign;
      ghost var table := Table();
      r := wc.AssignJob(j, id, now);
      if !r.AssignOk? {
        assert Table() == table;
        return;
      }
      assert Table() == table[wc.id := table[wc.id].(active := table[wc.id].active[j := id])];
      var _ := pool.AssignJob(wc.id, j);
    }

    method FreeInConn(wc: WorkerConn, j: JobId) returns (entry: Option<EntryId>)
      requires Valid() && Connected(wc)
      modifies wc
      ensures Valid() && wc.id in old(View()).conns
      ensures var conn := old(View()).conns[wc.id];
              && entry == (if j in conn.active then Some(conn.active[j]) else None)
              && View() == old(View()).(conns := old(View()).conns[wc.id := conn.(active := conn.active - {j})])
      ensures wc.activeJobs == old(wc.activeJobs) - {j}
    {
      ghost var table := Table();
      entry := wc.CompleteJob(j);
      assert Table() == table[wc.id := table[wc.id].(active := table[wc.id].active - {j})];
    }

    method FreeInPool(w: WorkerId, j: JobId)
      requires Valid()
      modifies pool
      ensures Valid() && View() == old(View()).(pool := PoolComplete(old(View()).pool, w, j))
    {
      var _ := pool.CompleteJob(w, j);
    }

    /** Drop a job from its slot, in the connection and in the pool. */
    method Free(wc: WorkerConn, j: JobId)
      requires Valid() && Connected(wc)
      modifies wc, pool
      ensures Valid() && View() == Unassign(old(View()), wc.id, j)
      ensures wc.activeJobs == old(wc.activeJobs) - {j}
    {
      var _ := FreeInConn(wc, j);
      FreeInPool(wc.id, j);
    }

    /** Drop a job from its slot and acknowledge its entry, if it was in flight here. */
    method FreeAndAck(wc: WorkerConn, j: JobId)
      requires Valid() && Connected(wc)
      modifies wc, pool, jobQueue
      ensures Valid() && View() == Release(old(View()), wc.id, j)
      ensures wc.activeJobs == old(wc.activeJobs) - {j}
    {
      var entry := FreeInConn(wc, j);
      if entry.Some? {
        AckEntry(entry.value);
      }
      FreeInPool(wc.id, j);
    }

    /** Prepare the entry's job, take a slot for it, and send it; a job that cannot be sent gives its slot back. */
    method DispatchToWorker(wc: WorkerConn, entry: Entry, sendOk: bool, now: int) returns (r: DispatchResult)
      requires Valid() && Connected(wc)
      requires entry.id in jobQueue.stream.entries && jobQueue.stream.entries[entry.id] == entry.payload
      modifies wc, pool, jobQueue, tokenStream, tools
      ensures Valid() && (View(), r) == Dispatch(cfg, old(View()), wc.id, entry.id, sendOk)
    {
      if entry.payload.Corrupt? {
        AckEntry(entry.id);
        return DispatchFailed;
      }
      var raw := entry.payload.msg;
      if raw.jobId == "" {
        raw := raw.(jobId := entry.payload.jobId);
      }
      var jobMsg := PrepareJob(raw);
      var j := jobMsg.jobId;
      var slot := TakeSlot(wc, j, entry.id, now);
      match slot {
        case AssignDuplicate => r := AlreadyAssigned;
        case AssignAtCapacity => r := WorkerFull;
        case AssignOk =>
          if sendOk {
            PublishEvent(j, Dispatched);
            r := DispatchOk;
          } else {
            Free(wc, j);
            r := DispatchFailed;
          }
      }
    }

    method TryContinue(msg: CompleteMessage, toolJobs: seq<ToolJobId>, sent: seq<bool>) returns (started: bool)
      requires Valid() && |toolJobs| == |msg.toolCalls| == |sent|
      modifies tools
      ensures Valid() && (started <==> CanContinue(cfg, old(View()), msg))
      ensures View() == if started then StartContinuation(old(View()), msg, toolJobs, sent) else old(View())
    {
      started := false;
      if cfg.toolsEnabled && |msg.toolCalls| > 0 {
        started := tools.StartContinuation(Rest(), msg, toolJobs, sent);
      }
    }

    method ForgetContext(j: JobId)
      requires Valid()
      modifies tools
      ensures Valid() && View() == if cfg.toolsEnabled then old(View()).(contexts := old(View()).contexts - {j}) else old(View())
    {
      if cfg.toolsEnabled {
        tools.DeleteJobContext(Rest(), j);
      }
    }

    /** Acknowledge, then either hand the tool calls to a tools worker or publish the completion. */
    method HandleComplete(wc: WorkerConn, msg: CompleteMessage, toolJobs: seq<ToolJobId>, sent: seq<bool>)
      requires Valid() && Connected(wc) && |toolJobs| == |msg.toolCalls| == |sent|
      modifies wc, pool, jobQueue, tokenStream, tools
      ensures Valid() && View() == Router.HandleComplete(cfg, old(View()), wc.id, msg, toolJobs, sent)
    {
      FreeAndAck(wc, msg.jobId);
      var started := TryContinue(msg, toolJobs, sent);
      if started {
        return;
      }
      PublishEvent(msg.jobId, Done(msg));
      ForgetContext(msg.jobId);
    }

    method HandleWorkerError(wc: WorkerConn, j: JobId, reason: string)
      requires Valid() && Connected(wc)
      modifies wc, pool, jobQueue, tokenStream
      ensures Valid() && View() == Router.HandleWorkerError(old(View()), wc.id, j, reason)
    {
      if j != "" {
        PublishEvent(j, Failed(reason));
        FreeAndAck(wc, j);
      }
    }

    method HandleConfig(wc: WorkerConn, totalSlots: int)
      requires Valid() && Connected(wc)
      modifies wc, pool
      ensures Valid() && View() == Router.HandleConfig(old(View()), wc.id, totalSlots)
    {
      ghost var table := Table();
      pool.UpdateCapabilities(wc.id, totalSlots);
      if totalSlots > 0 {
        wc.maxSlots := totalSlots;
        assert Table() == table[wc.id := table[wc.id].(maxSlots := totalSlots)];
      }
    }

    method AddToPool(id: WorkerId, maxSlots: int) returns (added: bool)
      requires Valid()
      modifies pool
      ensures Valid() && (added <==> id !in old(View()).pool)
      ensures View() == if added then old(View()).(pool := old(View()).pool[id := PoolWorker({}, maxSlots)]) else old(View())
    {
      added := pool.Add(id, maxSlots);
    }

    method Ping(id: WorkerId)
      requires Valid()
      modifies heartbeat
      ensures Valid() && View() == old(View()).(heartbeats := old(View()).heartbeats + {id})
    {
      heartbeat.Ping(id);
    }

    method AddConn(id: WorkerId, maxSlots: int)
      requires Valid()
      modifies this
      ensures Valid() && View() == old(View()).(conns := old(View()).conns[id := Conn(map[], maxSlots)])
    {
      ghost var table := Table();
      var wc := new WorkerConn(id, maxSlots);
      workers := workers[id := wc];
      assert Table() == table[id := Conn(map[], maxSlots)];
    }

    /** Register a new connection; nothing happens if the id is taken. */
    method Connect(id: WorkerId, totalSlots: int)
      requires Valid()
      modifies this, pool, heartbeat
      ensures Valid() && View() == ConnectWorker(cfg, old(View()), id, totalSlots)
    {
      var maxSlots := cfg.maxParallel;
      if totalSlots > 0 {
        maxSlots := totalSlots;
      }
      var added := AddToPool(id, maxSlots);
      if !added {
        return;
      }
      AddConn(id, maxSlots);
      Ping(id);
    }

    method Unping(id: WorkerId)
      requires Valid()
      modifies heartbeat
      ensures Valid() && View() == old(View()).(heartbeats := old(View()).heartbeats - {id})
    {
      heartbeat.Remove(id);
    }

    method RemoveFromPool(id: WorkerId)
      requires Valid()
      modifies pool
      ensures Valid() && View() == old(View()).(pool := old(View()).pool - {id})
    {
      var _ := pool.Remove(id);
    }

    method RemoveConn(id: WorkerId)
      requires Valid()
      modifies this
      ensures Valid() && View() == old(View()).(conns := old(View()).conns - {id})
    {
      ghost var table := Table();
      workers := workers - {id};
      assert Table() == table - {id};
    }

    method Cleanup(wc: WorkerConn)
      requires Valid() && Connected(wc)
      modifies this, pool, heartbeat
      ensures Valid() && View() == Router.Cleanup(old(View()), wc.id)
    {
      Unping(wc.id);
      RemoveFromPool(wc.id);
      RemoveConn(wc.id);
    }

    method ExpireOne(wc: WorkerConn, j: JobId)
      requires Valid() && Connected(wc) && j in wc.activeJobs
      modifies wc, pool, jobQueue, tokenStream
      ensures Valid() && View() == ExpireJobIf(old(View()), wc.id, j)
      ensures wc.activeJobs == old(wc.activeJobs) - {j}
    {
      InFlight(wc, j);
      FreeAndAck(wc, j);
      PublishEvent(j, Failed("job_timeout"));
    }

    /** Expire every job in flight for longer than the timeout. */
    method ExpireStaleJobs(wc: WorkerConn, now: int, timeout: int) returns (stale: seq<JobId>)
      requires Valid() && Connected(wc)
      modifies wc, pool, jobQueue, tokenStream
      ensures Valid() && View() == ExpireAll(old(View()), wc.id, stale)
      ensures forall j :: j in stale <==> j in old(wc.activeJobs) && now - old(wc.activeJobs)[j].assignedAt > timeout
    {
      stale := wc.StaleJobs(now, timeout);
      ExpireEach(wc, stale);
    }

    method ExpireEach(wc: WorkerConn, stale: seq<JobId>)
      requires Valid() && Connected(wc) && Distinct(stale)
      requires forall j :: j in stale ==> j in wc.activeJobs
      modifies wc, pool, jobQueue, tokenStream
      ensures Valid() && View() == ExpireAll(old(View()), wc.id, stale)
    {
      var i := 0;
      ghost var s0 := View();
      assert stale[0..] == stale;
      while i < |stale|
        invariant i <= |stale| && Valid()
        invariant ExpireAll(View(), wc.id, stale[i..]) == ExpireAll(s0, wc.id, stale)
        invariant forall k :: i <= k < |stale| ==> stale[k] in wc.activeJobs
      {
        assert stale[i..][1..] == stale[i + 1..];
        ExpireOne(wc, stale[i]);
        i := i + 1;
      }
    }

    lemma InFlight(wc: WorkerConn, j: JobId)
      requires Valid() && Connected(wc) && j in wc.activeJobs
      ensures wc.id in View().conns && j in View().conns[wc.id].active
    {
    }

    /** Try the pending entries in order; entries that do not fit stay pending. */
    method RetryPending(wc: WorkerConn, pending: seq<Entry>, sends: seq<bool>, now: int)
      requires Valid() && Connected(wc) && Sorted(pending) && |pending| <= |sends|
      requires Held(jobQueue.stream, pending, 0)
      modifies wc, pool, jobQueue, tokenStream, tools
      ensures Valid() && View() == RetryAll(cfg, old(View()), wc.id, Ids(pending), sends)
    {
      hide Dispatch;
      hide Held;
      var i := 0;
      while i < |pending|
        invariant i <= |pending| && Valid() && Held(View().stream, pending, i)
        invariant View() == RetryAll(cfg, old(View()), wc.id, Ids(pending)[..i], sends)
      {
        RetryOne(wc, pending, i, sends[i], now);
        assert Ids(pending)[..i + 1][..i] == Ids(pending)[..i];
        i := i + 1;
      }
      assert Ids(pending)[..i] == Ids(pending);
    }

    method RetryOne(wc: WorkerConn, pending: seq<Entry>, i: nat, send: bool, now: int)
      requires Valid() && Connected(wc) && Sorted(pending) && i < |pending| && Held(jobQueue.stream, pending, i)
      modifies wc, pool, jobQueue, tokenStream, tools
      ensures Valid() && wc.id in old(View()).conns && pending[i].id in old(View()).stream.entries
      ensures View() == Dispatch(cfg, old(View()), wc.id, pending[i].id, send).0
      ensures Held(View().stream, pending, i + 1)
    {
      ghost var s := View();
      ConnectedInView(wc);
      DispatchStream(cfg, s, wc.id, pending[i].id, send);
      var _ := DispatchToWorker(wc, pending[i], send, now);
      StillHeld(s.stream, View().stream, pending, i);
    }

    method ReadOne(wc: WorkerConn, send: bool, now: int)
      requires Valid() && Connected(wc)
      modifies wc, pool, jobQueue, tokenStream, tools
      ensures Valid() && View() == ReadNext(cfg, old(View()), wc.id, send)
    {
      hide Dispatch;
      ghost var s := View();
      var entry := jobQueue.Read(wc.id);
      if entry.Some? {
        NextIsUnique(s.stream, entry.value.id);
        assert View() == s.(stream := Deliver(s.stream, wc.id, entry.value.id));
        var _ := DispatchToWorker(wc, entry.value, send, now);
      } else {
        assert forall id :: !IsNext(s.stream, id);
      }
    }

    /**
     One turn of the reader loop: nothing without a free slot; otherwise expire stale jobs, then retry what is
     pending for this worker, and only if nothing is pending read one new entry.
     */
    method ReaderTurn(wc: WorkerConn, now: int, timeout: int, sends: seq<bool>)
      returns (stale: seq<JobId>, ids: seq<EntryId>)
      requires Valid() && Connected(wc) && |sends| >= 10
      modifies wc, pool, jobQueue, tokenStream, tools
      ensures Valid() && |ids| <= 10 && Distinct(ids) && View() == Turn(cfg, old(View()), wc.id, stale, ids, sends)
      ensures PendingPage(old(View()), wc.id, stale, ids)
    {
      stale, ids := [], [];
      var free := HasRoom(wc);
      if !free {
        return;
      }
      stale := ExpireStaleJobs(wc, now, timeout);
      ids := TakeWork(wc, sends, now);
    }

    /** Retry what is pending for this worker, or read one new entry if nothing is. */
    method TakeWork(wc: WorkerConn, sends: seq<bool>, now: int) returns (ids: seq<EntryId>)
      requires Valid() && Connected(wc) && |sends| >= 10
      modifies wc, pool, jobQueue, tokenStream, tools
      ensures Valid() && |ids| <= 10 && Distinct(ids) && Elems(ids) == Smallest(Owned(old(View()).stream, wc.id), 10)
      ensures View() == TurnAfter(cfg, old(View()), wc.id, ids, sends)
    {
      var pending := NextPending(wc);
      ids := Ids(pending);
      if |pending| > 0 {
        RetryPending(wc, pending, sends, now);
      } else {
        ConnectedInView(wc);
        ReadOne(wc, sends[0], now);
      }
    }

    method NextPending(wc: WorkerConn) returns (pending: seq<Entry>)
      requires Valid()
      ensures Sorted(pending) && |pending| <= 10
      ensures Elems(Ids(pending)) == Smallest(Owned(View().stream, wc.id), 10)
      ensures Held(jobQueue.stream, pending, 0)
    {
      pending := jobQueue.ReadPending(wc.id);
    }

    method HasRoom(wc: WorkerConn) returns (r: bool)
      requires Valid() && Connected(wc)
      ensures wc.id in View().conns && (r <==> |View().conns[wc.id].active| < View().conns[wc.id].maxSlots)
    {
      r := wc.HasCapacity();
    }

    lemma ConnectedInView(wc: WorkerConn)
      requires Valid() && Connected(wc)
      ensures wc.id in View().conns
    {
    }
  }
}
