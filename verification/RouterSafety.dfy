/** Every step keeps the basic invariant and keeps track of every accepted job. */
module RouterSafety {
  import opened Prelude
  import opened Protocol
  import opened JobStream
  import opened Continuations
  import opened Router
  import opened RouterBasics
  import Sweeping
  import ToolRouting

  /** A sweep may meet dead consumers with more than a page of pending entries only if nobody is alive to claim. */
  ghost predicate SweepInBounds(s: State, step: Step) {
    step.SweepDead? ==> s.heartbeats == {} || Sweeping.WithinPage(s.stream, s.heartbeats)
  }

  /** The pool grants a slot exactly when the connection has one. */
  lemma PoolHasRoom(s: State, w: WorkerId, j: JobId)
    requires Mirror(s) && w in s.conns
    ensures PoolAssign(s.pool, w, j).Some? <==> |s.conns[w].active| < s.conns[w].maxSlots
  {
    assert |s.pool[w].active| == |s.conns[w].active.Keys| == |s.conns[w].active|;
  }

  lemma AssignMirror(s: State, w: WorkerId, j: JobId, id: EntryId)
    requires Mirror(s) && w in s.conns && PoolAssign(s.pool, w, j).Some?
    ensures Mirror(Assign(s, w, j, id))
  {
    var t := Assign(s, w, j, id);
    assert t.pool.Keys == s.pool.Keys && t.conns.Keys == s.conns.Keys;
    assert t.conns[w].active.Keys == s.conns[w].active.Keys + {j};
  }

  lemma AssignBase(s: State, w: WorkerId, j: JobId, id: EntryId)
    requires Base(s) && w in s.conns && id in s.stream.entries && EntryJob(s.stream.entries[id]) == j
    requires |s.conns[w].active| < s.conns[w].maxSlots
    ensures Base(Assign(s, w, j, id))
  {
    PoolHasRoom(s, w, j);
    AssignMirror(s, w, j, id);
    var t := Assign(s, w, j, id);
    forall v, k | v in t.conns && k in t.conns[v].active
      ensures t.conns[v].active[k] == if v == w && k == j then id else s.conns[v].active[k]
    {
    }
  }

  lemma SavedShape(cfg: Config, s: State, msg: JobMessage)
    ensures SaveContext(cfg, s, msg) == s.(contexts := SaveContext(cfg, s, msg).contexts)
  {
  }

  lemma ContextsKeep(s: State, contexts: map<JobId, JobContext>)
    requires Base(s)
    ensures Base(s.(contexts := contexts)) && KeepsTrack(s, s.(contexts := contexts))
  {
    QueueKeeps(s, s.(contexts := contexts));
  }

  lemma TrackChain(s: State, t: State, u: State)
    requires KeepsTrack(s, t) && KeepsTrack(t, u)
    ensures KeepsTrack(s, u)
  {
    forall j | Accounted(s, j) ensures Accounted(u, j) {
      assert Accounted(t, j);
    }
  }

  lemma OccupyKeeps(s: State, w: WorkerId, j: JobId, id: EntryId, ok: bool)
    requires Base(s) && w in s.conns && id in s.stream.entries && EntryJob(s.stream.entries[id]) == j
    ensures var t := Occupy(s, w, j, id, ok).0; Base(t) && KeepsTrack(s, t)
  {
    OccupyShape(s, w, j, id, ok);
    if j !in s.conns[w].active && |s.conns[w].active| < s.conns[w].maxSlots {
      var s2 := Assign(s, w, j, id);
      AssignBase(s, w, j, id);
      QueueKeeps(s, s2);
      if ok {
        PublishKeeps(s2, j, Dispatched);
        TrackChain(s, s2, s2.(tokens := Publish(s2.tokens, j, Dispatched)));
      } else {
        UnassignBase(s2, w, j);
        QueueKeeps(s, Unassign(s2, w, j));
      }
    }
  }

  lemma DispatchKeeps(cfg: Config, s: State, w: WorkerId, id: EntryId, ok: bool)
    requires Base(s) && w in s.conns && id in s.stream.entries
    ensures var t := Dispatch(cfg, s, w, id, ok).0; Base(t) && KeepsTrack(s, t)
  {
    var raw := s.stream.entries[id].msg;
    var j := EntryJob(s.stream.entries[id]);
    var msg := InjectTools(cfg, s, raw.(jobId := j));
    var s1 := SaveContext(cfg, s, msg);
    assert Dispatch(cfg, s, w, id, ok) == Occupy(s1, w, j, id, ok);
    SavedShape(cfg, s, msg);
    hide Dispatch;
    hide SaveContext;
    hide InjectTools;
    ContextsKeep(s, s1.contexts);
    hide Base;
    hide KeepsTrack;
    OccupyKeeps(s1, w, j, id, ok);
    TrackChain(s, s1, Occupy(s1, w, j, id, ok).0);
  }

  lemma DeliverKeeps(s: State, w: WorkerId, id: EntryId)
    requires Base(s) && IsNext(s.stream, id)
    ensures var t := s.(stream := Deliver(s.stream, w, id)); Base(t) && KeepsTrack(s, t)
  {
    var t := s.(stream := Deliver(s.stream, w, id));
    assert SlotsPointHome(t);
    QueueKeeps(s, t);
  }

  lemma ParkCallsKeeps(s: State, j: JobId, c: Continuation, calls: seq<ToolCall>, ts: seq<ToolJobId>, ok: seq<bool>)
    requires Base(s) && |ts| == |calls| == |ok| && c.jobId == j && c.remaining > 0
    ensures var parked := s.(conts := s.conts[j := c]);
            var t := DispatchCalls(parked, j, calls, ts, ok);
            Base(t) && KeepsTrack(s, t) && Accounted(t, j)
  {
    var parked := s.(conts := s.conts[j := c]);
    var t := DispatchCalls(parked, j, calls, ts, ok);
    forall k | k in s.conts || Firing(s, k) ensures k in parked.conts || Firing(parked, k) {
      if Firing(s, k) {
        var i :| 0 <= i < |s.firing| && s.firing[i].jobId == k;
        assert parked.firing[i].jobId == k;
      }
    }
    ParkedKeeps(s, parked);
    DispatchCallsKeeps(parked, j, calls, ts, ok);
    hide DispatchCalls;
    hide Firing;
    ParkedKeeps(parked, t);
    TrackChain(s, parked, t);
    assert Accounted(parked, j) by { assert j in parked.conts; }
  }

  lemma DoneKeeps(s: State, j: JobId, e: TokenEvent, contexts: map<JobId, JobContext>)
    requires Base(s) && e.Terminal()
    ensures var t := s.(tokens := Publish(s.tokens, j, e), contexts := contexts);
            Base(t) && KeepsTrack(s, t) && Accounted(t, j)
  {
    var s2 := s.(tokens := Publish(s.tokens, j, e));
    PublishKeeps(s, j, e);
    hide Publish;
    ContextsKeep(s2, contexts);
    assert Accounted(s2, j);
    TrackChain(s, s2, s2.(contexts := contexts));
  }

  lemma CompleteKeeps(cfg: Config, s: State, w: WorkerId, msg: CompleteMessage, ts: seq<ToolJobId>, ok: seq<bool>)
    requires Base(s) && w in s.conns && |ts| == |msg.toolCalls| == |ok|
    ensures var t := HandleComplete(cfg, s, w, msg, ts, ok); Base(t) && KeepsTrack(s, t)
  {
    var j := msg.jobId;
    var s1 := Release(s, w, j);
    var t := HandleComplete(cfg, s, w, msg, ts, ok);
    CompleteShape(cfg, s, w, msg, ts, ok);
    ReleaseKeeps(s, w, j);
    if CanContinue(cfg, s1, msg) {
      hide Base;
      hide HandleComplete;
      hide Release;
      hide DispatchCalls;
      ParkCallsKeeps(s1, j, Park(s1.contexts[j], msg), msg.toolCalls, ts, ok);
    } else {
      hide Base;
      hide HandleComplete;
      hide Release;
      hide Publish;
      DoneKeeps(s1, j, Done(msg), t.contexts);
    }
  }

  lemma ErrorKeeps(s: State, w: WorkerId, j: JobId, reason: string)
    requires Base(s) && w in s.conns
    ensures var t := HandleWorkerError(s, w, j, reason); Base(t) && KeepsTrack(s, t)
  {
    if j != "" {
      PublishKeeps(s, j, Failed(reason));
      var s1 := s.(tokens := Publish(s.tokens, j, Failed(reason)));
      ReleaseKeeps(s1, w, j);
      var t := Release(s1, w, j);
      assert Accounted(t, j) by {
        assert t.tokens == s1.tokens;
        assert Finished(t, j);
      }
    }
  }

  lemma ExpireKeeps(s: State, w: WorkerId, j: JobId)
    requires Base(s) && w in s.conns && j in s.conns[w].active
    ensures var t := ExpireJob(s, w, j); Base(t) && KeepsTrack(s, t)
  {
    ReleaseKeeps(s, w, j);
    PublishKeeps(Release(s, w, j), j, Failed("job_timeout"));
  }

  lemma SubmitKeeps(s: State, m: JobMessage)
    requires Base(s)
    ensures var t := s.(stream := Enqueue(s.stream, Job(m.jobId, m)));
            Base(t) && KeepsTrack(s, t) && Queued(t, m.jobId)
  {
    var t := s.(stream := Enqueue(s.stream, Job(m.jobId, m)));
    QueueKeeps(s, t);
    assert Live(t.stream, s.stream.nextId) && EntryJob(t.stream.entries[s.stream.nextId]) == m.jobId;
    assert SlotsPointHome(t);
  }

  lemma ContinueKeeps(s: State, i: nat, enqueued: bool)
    requires Base(s) && i < |s.firing|
    ensures var t := ContinueRound(s, i, enqueued); Base(t) && KeepsTrack(s, t)
  {
    var c := s.firing[i];
    var s1 := s.(firing := RemoveAt(s.firing, i), contexts := s.contexts[c.jobId := c.ctx.(messages := NextMessages(c))]);
    assert Base(s1);
    var t := ContinueRound(s, i, enqueued);
    if enqueued {
      SubmitKeeps(s1, NextJob(c));
    } else {
      PublishKeeps(s1, c.jobId, Failed("continuation_failed"));
    }
    forall k | Accounted(s, k) ensures Accounted(t, k) {
      if k != c.jobId {
        if Queued(s, k) {
          var id :| Live(s.stream, id) && EntryJob(s.stream.entries[id]) == k;
          assert Live(s1.stream, id);
        } else if Firing(s, k) {
          var n :| 0 <= n < |s.firing| && s.firing[n].jobId == k;
          assert s1.firing[if n < i then n else n - 1].jobId == k;
        } else if Finished(s, k) {
          assert Finished(s1, k);
        }
        assert Accounted(s1, k);
      }
    }
  }

  lemma SweepBase(s: State, dead: seq<WorkerId>, live: seq<WorkerId>)
    requires Base(s) && Sweeping.Listing(s.stream, s.heartbeats, dead, live)
    ensures var t := s.(stream := Sweeping.Sweep(s.stream, dead, live));
            Base(t) && (s.heartbeats == {} || Sweeping.WithinPage(s.stream, s.heartbeats) ==> KeepsTrack(s, t))
  {
    Sweeping.SweepEffect(s.stream, s.heartbeats, dead, live);
    var t := s.(stream := Sweeping.Sweep(s.stream, dead, live));
    assert t.stream == s.stream.(pel := t.stream.pel);
    assert t.stream.pel.Keys <= s.stream.pel.Keys;
    forall id | id in t.stream.pel ensures id in t.stream.entries && id <= t.stream.cursor {
      assert id in t.stream.pel.Keys;
    }
    assert SlotsPointHome(t);
    if s.heartbeats == {} || Sweeping.WithinPage(s.stream, s.heartbeats) {
      QueueKeeps(s, t);
    }
  }

  lemma TableKeeps(s: State, t: State)
    requires Base(s)
    requires t == s.(conns := t.conns, pool := t.pool, heartbeats := t.heartbeats, toolsWorkers := t.toolsWorkers)
    requires Mirror(t)
    requires forall w :: w in t.conns ==> t.conns[w].active == map[] || (w in s.conns && t.conns[w].active == s.conns[w].active)
    ensures Base(t) && KeepsTrack(s, t)
  {
    QueueKeeps(s, t);
    assert SlotsPointHome(t);
  }

  lemma ToolAnswerKeeps(s: State, refs: map<ToolJobId, ToolRef>, parent: JobId, callId: CallId, r: ToolResult)
    requires Base(s)
    ensures var t := RecordToolResult(s.(refs := refs), parent, callId, r); Base(t) && KeepsTrack(s, t)
  {
    var s1 := s.(refs := refs);
    RecordKeeps(s1, parent, callId, r);
    var t := RecordToolResult(s1, parent, callId, r);
    forall k | k in s.conts || Firing(s, k) ensures k in t.conts || Firing(t, k) {
      if Firing(s, k) {
        var i :| 0 <= i < |s.firing| && s.firing[i].jobId == k;
        assert s1.firing[i].jobId == k;
        assert Firing(s1, k);
      }
    }
    ParkedKeeps(s, t);
  }

  lemma ConnectKeeps(cfg: Config, s: State, w: WorkerId, n: int)
    requires Base(s) && w !in s.pool
    ensures var t := ConnectWorker(cfg, s, w, n); Base(t) && KeepsTrack(s, t)
  {
    TableKeeps(s, ConnectWorker(cfg, s, w, n));
  }

  lemma ConfigKeeps(s: State, w: WorkerId, n: int)
    requires Base(s) && w in s.conns
    ensures var t := HandleConfig(s, w, n); Base(t) && KeepsTrack(s, t)
  {
    TableKeeps(s, HandleConfig(s, w, n));
  }

  lemma CleanupKeeps(s: State, w: WorkerId)
    requires Base(s)
    ensures var t := Cleanup(s, w); Base(t) && KeepsTrack(s, t)
  {
    TableKeeps(s, Cleanup(s, w));
  }

  lemma OutsideKeeps(s: State, heartbeats: set<WorkerId>, toolsWorkers: ToolRouting.Advertised)
    requires Base(s)
    ensures var t := s.(heartbeats := heartbeats, toolsWorkers := toolsWorkers); Base(t) && KeepsTrack(s, t)
  {
    TableKeeps(s, s.(heartbeats := heartbeats, toolsWorkers := toolsWorkers));
  }

  lemma ToolErrorKeeps(s: State, tj: ToolJobId, reason: string)
    requires Base(s)
    ensures var t := HandleToolError(s, tj, reason); Base(t) && KeepsTrack(s, t)
  {
    if tj != "" && tj in s.refs {
      ToolAnswerKeeps(s, s.refs - {tj}, s.refs[tj].parent, s.refs[tj].callId, ToolResult("", NoOutput, [], reason));
    }
  }

  lemma ReadKeeps(cfg: Config, s: State, w: WorkerId, id: EntryId, ok: bool)
    requires Base(s) && w in s.conns && IsNext(s.stream, id)
    ensures var t := Dispatch(cfg, s.(stream := Deliver(s.stream, w, id)), w, id, ok).0; Base(t) && KeepsTrack(s, t)
  {
    var s1 := s.(stream := Deliver(s.stream, w, id));
    DeliverKeeps(s, w, id);
    DispatchKeeps(cfg, s1, w, id, ok);
    assert forall j :: Accounted(s, j) ==> Accounted(s1, j);
  }

  /** One step of any kind. */
  lemma StepKeeps(cfg: Config, s: State, step: Step)
    requires Base(s) && Enabled(cfg, s, step)
    ensures Base(Next(cfg, s, step))
    ensures SweepInBounds(s, step) ==> KeepsTrack(s, Next(cfg, s, step))
    ensures step.Submit? ==> Queued(Next(cfg, s, step), step.msg.jobId)
  {
    hide ConnectWorker;
    hide HandleConfig;
    hide ExpireJob;
    hide Dispatch;
    hide HandleComplete;
    hide HandleWorkerError;
    hide Cleanup;
    hide ContinueRound;
    hide HandleToolError;
    hide DispatchCalls;
    hide Base;
    hide KeepsTrack;
    match step {
      case Submit(m) => SubmitKeeps(s, m);
      case Connect(w, n) => ConnectKeeps(cfg, s, w, n);
      case Reconfigure(w, n) => ConfigKeeps(s, w, n);
      case Expire(w, j) => ExpireKeeps(s, w, j);
      case DispatchPending(w, id, ok) => DispatchKeeps(cfg, s, w, id, ok);
      case ReadNew(w, id, ok) => ReadKeeps(cfg, s, w, id, ok);
      case EmitToken(_, j, e) => PublishKeeps(s, j, e);
      case Complete(w, m, ts, ok) => CompleteKeeps(cfg, s, w, m, ts, ok);
      case WorkerError(w, j, r) => ErrorKeeps(s, w, j, r);
      case Disconnect(w) => CleanupKeeps(s, w);
      case Heartbeat(w) => OutsideKeeps(s, s.heartbeats + {w}, s.toolsWorkers);
      case HeartbeatLost(w) => OutsideKeeps(s, s.heartbeats - {w}, s.toolsWorkers);
      case SweepDead(dead, live) => SweepBase(s, dead, live);
      case ToolResultMsg(tj, parent, callId, r) => ToolAnswerKeeps(s, s.refs - {tj}, parent, callId, r);
      case ToolErrorMsg(tj, reason) => ToolErrorKeeps(s, tj, reason);
      case RunContinuation(i, ok) => ContinueKeeps(s, i, ok);
      case ToolsConnect(tw, tools) => OutsideKeeps(s, s.heartbeats, s.toolsWorkers[tw := tools]);
      case ToolsDisconnect(tw) => OutsideKeeps(s, s.heartbeats, s.toolsWorkers - {tw});
    }
  }

  // ---------------------------------------------------------------- whole runs

  lemma {:induction false} RunKeepsBase(cfg: Config, states: seq<State>, steps: seq<Step>, k: nat)
    requires Run(cfg, states, steps) && k < |states|
    ensures Base(states[k])
  {
    if k > 0 {
      RunKeepsBase(cfg, states, steps, k - 1);
      StepKeeps(cfg, states[k - 1], steps[k - 1]);
    }
  }

  /** A job once accounted for stays so. */
  lemma {:induction false} RunKeepsTrack(cfg: Config, states: seq<State>, steps: seq<Step>, i: nat, k: nat, j: JobId)
    requires Run(cfg, states, steps) && i <= k < |states|
    requires forall n :: i <= n < k ==> SweepInBounds(states[n], steps[n])
    requires Accounted(states[i], j)
    ensures Accounted(states[k], j)
  {
    if i < k {
      RunKeepsTrack(cfg, states, steps, i, k - 1, j);
      RunKeepsBase(cfg, states, steps, k - 1);
      StepKeeps(cfg, states[k - 1], steps[k - 1]);
    }
  }

  /**
   No accepted job is ever lost: over any run whose sweeps stay within a page per dead consumer, a job submitted
   at step i is at every later point in the queue, in a continuation, or finished.
   */
  lemma NoJobLost(cfg: Config, states: seq<State>, steps: seq<Step>, i: nat, k: nat)
    requires Run(cfg, states, steps) && i < k < |states| && steps[i].Submit?
    requires forall n :: i <= n < k ==> SweepInBounds(states[n], steps[n])
    ensures Accounted(states[k], steps[i].msg.jobId)
  {
    RunKeepsBase(cfg, states, steps, i);
    StepKeeps(cfg, states[i], steps[i]);
    RunKeepsTrack(cfg, states, steps, i + 1, k, steps[i].msg.jobId);
  }

  /** Pool and connection table agree in every reachable state, so the pool never refuses an accepted assignment. */
  lemma PoolNeverDisagrees(cfg: Config, states: seq<State>, steps: seq<Step>, k: nat, w: WorkerId, j: JobId)
    requires Run(cfg, states, steps) && k < |states| && w in states[k].conns
    ensures Mirror(states[k])
    ensures PoolAssign(states[k].pool, w, j).Some? <==>
              |states[k].conns[w].active| < states[k].conns[w].maxSlots
  {
    RunKeepsBase(cfg, states, steps, k);
    PoolHasRoom(states[k], w, j);
  }
}
