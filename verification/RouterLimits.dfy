/** How far the router's guarantees reach: exact conditions, and bounds over whole runs. */
module RouterLimits {
  import opened Prelude
  import opened Protocol
  import opened JobStream
  import opened Continuations
  import opened Router
  import opened RouterBasics
  import opened RouterSafety
  import opened RouterPlaces
  import opened RouterDiscipline
  import Sweeping

  // ---------------------------------------------------------------- reports for jobs that are not in flight

  lemma ReleaseIdle(s: State, w: WorkerId, j: JobId)
    requires Mirror(s) && w in s.conns && j !in s.conns[w].active
    ensures Release(s, w, j) == s
  {
    var active := s.conns[w].active;
    assert active - {j} == active;
    assert s.conns[w := s.conns[w]] == s.conns;
    assert s.pool[w].active - {j} == s.pool[w].active;
    assert s.pool[w := s.pool[w]] == s.pool;
  }

  /** Job j is parked, or among the rounds fired from position n on. */
  ghost predicate ParkedOrFired(s: State, n: nat, j: JobId) {
    j in s.conts || exists i :: n <= i < |s.firing| && s.firing[i].jobId == j
  }

  lemma RecordParks(s: State, n: nat, j: JobId, callId: CallId, r: ToolResult)
    requires ContsKeyed(s) && n <= |s.firing| && ParkedOrFired(s, n, j)
    ensures var t := RecordToolResult(s, j, callId, r); s.firing <= t.firing && ParkedOrFired(t, n, j)
  {
    if j in s.conts && callId in s.conts[j].results {
      var c := Record(s.conts[j], callId, r);
      assert c.jobId == j;
      RecordShape(s, j, callId, r);
      hide RecordToolResult;
      hide Record;
      if c.remaining <= 0 {
        assert (s.firing + [c])[|s.firing|].jobId == j;
      }
    }
  }

  lemma {:induction false} DispatchCallsParks(
      s: State, n: nat, j: JobId, calls: seq<ToolCall>, ts: seq<ToolJobId>, ok: seq<bool>)
    requires |ts| == |calls| == |ok| && ContsKeyed(s) && n <= |s.firing| && ParkedOrFired(s, n, j)
    ensures var t := DispatchCalls(s, j, calls, ts, ok);
            && t == s.(refs := t.refs, conts := t.conts, firing := t.firing)
            && s.firing <= t.firing && ParkedOrFired(t, n, j)
    decreases |calls|
  {
    if calls != [] {
      var s1 := s.(refs := s.refs[ts[0] := ToolRef(j, calls[0].id)]);
      var r := ToolResult(calls[0].name, NoOutput, [], DISPATCH_FAILURE);
      assert ContsKeyed(s1) && ParkedOrFired(s1, n, j);
      RecordKeeps(s1, j, calls[0].id, r);
      RecordParks(s1, n, j, calls[0].id, r);
      hide RecordToolResult;
      hide ParkedOrFired;
      var s2 := if ok[0] then s1 else RecordToolResult(s1, j, calls[0].id, r);
      DispatchCallsParks(s2, n, j, calls[1..], ts[1..], ok[1..]);
    }
  }

  lemma LateDoneUnsettles(s: State, h: History, j: JobId, e: TokenEvent, t: State)
    requires OnePlaceEach(s, h) && e.Terminal() && t.stream == s.stream && t.conts == s.conts && t.firing == s.firing
    requires t.tokens == Publish(s.tokens, j, e)
    ensures !OnePlaceEach(t, h)
  {
    PublishPlaces(s, j, e);
    var u := s.(tokens := Publish(s.tokens, j, e));
    assert InQueue(u, j) <==> InQueue(t, j);
    assert Firing(u, j) <==> Firing(t, j);
    assert Finished(t, j);
    TerminalsCount(Events(s.tokens, j));
    assert Somewhere(t, j);
    if j in h.orig {
      assert Somewhere(s, j);
      if Finished(s, j) {
        assert Terminals(Events(t.tokens, j)) > 1;
      } else {
        assert !AtMostOnePlace(t, j);
      }
    }
  }

  /** A job that is parked or fired anew while it is somewhere else already is in two places. */
  lemma SecondPlace(s: State, t: State, j: JobId)
    requires Somewhere(s, j) && j !in s.conts && s.firing <= t.firing && ParkedOrFired(t, |s.firing|, j)
    requires t == s.(refs := t.refs, conts := t.conts, firing := t.firing)
    ensures !(FiringDistinct(t) && AtMostOnePlace(t, j))
  {
    assert InQueue(s, j) <==> InQueue(t, j);
    assert Finished(s, j) <==> Finished(t, j);
    if Firing(s, j) {
      var i :| 0 <= i < |s.firing| && s.firing[i].jobId == j;
      assert t.firing[i].jobId == j;
      if j !in t.conts {
        var k :| |s.firing| <= k < |t.firing| && t.firing[k].jobId == j;
        assert !FiringDistinct(t);
      } else {
        assert Firing(t, j) && !AtMostOnePlace(t, j);
      }
    } else {
      assert j in t.conts || Firing(t, j);
      assert !AtMostOnePlace(t, j);
    }
  }

  lemma SecondParkUnsettles(s: State, h: History, msg: CompleteMessage, ts: seq<ToolJobId>, ok: seq<bool>)
    requires Settled(s, h) && msg.jobId in s.contexts && msg.jobId !in s.conts && msg.toolCalls != []
    requires |ts| == |msg.toolCalls| == |ok|
    ensures !Settled(StartContinuation(s, msg, ts, ok), h)
  {
    var j := msg.jobId;
    var parked := s.(conts := s.conts[j := Park(s.contexts[j], msg)]);
    var t := StartContinuation(s, msg, ts, ok);
    assert ContsKeyed(parked) && ParkedOrFired(parked, |s.firing|, j);
    assert Carries(h, j, s.contexts[j].messages);
    hide HistoryAgrees;
    hide QueueUnique;
    hide SlotsHeld;
    hide Base;
    hide Terminals;
    assert Somewhere(s, j);
    hide DispatchCalls;
    hide ParkedOrFired;
    DispatchCallsParks(parked, |s.firing|, j, msg.toolCalls, ts, ok);
    hide Park;
    hide StartContinuation;
    hide Somewhere;
    hide FiringDistinct;
    SecondPlace(s, t, j);
  }

  /**
   A completion keeps every job in one place exactly when the job is in flight on the reporting worker, or the
   report only replaces a continuation that is already parked for the same job.
   */
  lemma CompleteKeepsPlacesIff(cfg: Config, s: State, h: History, w: WorkerId, msg: CompleteMessage,
                               ts: seq<ToolJobId>, ok: seq<bool>)
    requires Settled(s, h) && w in s.conns && |ts| == |msg.toolCalls| == |ok|
    ensures Settled(HandleComplete(cfg, s, w, msg, ts, ok), h) <==>
              msg.jobId in s.conns[w].active || (CanContinue(cfg, s, msg) && msg.jobId in s.conts)
  {
    var j := msg.jobId;
    var t := HandleComplete(cfg, s, w, msg, ts, ok);
    if j in s.conns[w].active {
      CompleteSettles(cfg, s, h, w, msg, ts, ok);
    } else {
      ReleaseIdle(s, w, j);
      if CanContinue(cfg, s, msg) {
        if j in s.conts {
          UpdateParked(s, h, Park(s.contexts[j], msg));
          ParkSettles(s, h, msg, ts, ok);
        } else {
          SecondParkUnsettles(s, h, msg, ts, ok);
        }
      } else {
        LateDoneUnsettles(s, h, j, Done(msg), t);
      }
    }
  }

  /** An error report keeps every job in one place exactly when it names no job or one in flight on that worker. */
  lemma ErrorKeepsPlacesIff(s: State, h: History, w: WorkerId, j: JobId, reason: string)
    requires Settled(s, h) && w in s.conns
    ensures Settled(HandleWorkerError(s, w, j, reason), h) <==> j == "" || j in s.conns[w].active
  {
    if j == "" || j in s.conns[w].active {
      ErrorSettles(s, h, w, j, reason);
    } else {
      var s1 := s.(tokens := Publish(s.tokens, j, Failed(reason)));
      ReleaseIdle(s1, w, j);
      LateDoneUnsettles(s, h, j, Failed(reason), s1);
    }
  }

  /** With somebody alive, a sweep loses no job exactly when no dead consumer holds more than a page. */
  lemma SweepLosesNothingIff(s: State, h: History, dead: seq<WorkerId>, live: seq<WorkerId>)
    requires Settled(s, h) && Sweeping.Listing(s.stream, s.heartbeats, dead, live) && s.heartbeats != {}
    ensures KeepsTrack(s, s.(stream := Sweeping.Sweep(s.stream, dead, live))) <==>
              Sweeping.WithinPage(s.stream, s.heartbeats)
  {
    var t := s.(stream := Sweeping.Sweep(s.stream, dead, live));
    SweepBase(s, dead, live);
    Sweeping.SweepEffect(s.stream, s.heartbeats, dead, live);
    if !Sweeping.WithinPage(s.stream, s.heartbeats) {
      assert t.stream.pel.Keys <= s.stream.pel.Keys && t.stream.pel.Keys != s.stream.pel.Keys;
      var id :| id in s.stream.pel && id !in t.stream.pel;
      var j := EntryJob(s.stream.entries[id]);
      assert Live(s.stream, id) && Queued(s, j) && InQueue(s, j);
      assert Accounted(s, j) && AtMostOnePlace(s, j);
      assert forall x :: x in s.stream.entries && x != id ==> EntryJob(s.stream.entries[x]) != j;
      assert !Live(t.stream, id);
      assert !Queued(t, j);
      assert Firing(s, j) <==> Firing(t, j);
      assert Finished(s, j) <==> Finished(t, j);
      assert !Accounted(t, j);
    }
  }

  /** The job is nowhere but in the given queue entry. */
  ghost predicate OnlyInEntry(s: State, id: EntryId) {
    && id in s.stream.entries
    && var j := EntryJob(s.stream.entries[id]);
       && (forall x :: x in s.stream.entries && x != id ==> EntryJob(s.stream.entries[x]) != j)
       && j !in s.conts && !Firing(s, j) && !Finished(s, j)
  }

  /**
   Dispatching a pending entry, whatever its outcome, loses the job exactly if the entry's data does not parse: then
   the entry is acknowledged and dropped, nothing else changes, and nobody is told.
   */
  lemma DispatchLosesJobIff(cfg: Config, s: State, w: WorkerId, id: EntryId, ok: bool)
    requires w in s.conns && id in Owned(s.stream, w) && OnlyInEntry(s, id)
    ensures var t := Dispatch(cfg, s, w, id, ok).0;
            && (Accounted(t, EntryJob(s.stream.entries[id])) <==> s.stream.entries[id].Job?)
            && (s.stream.entries[id].Corrupt? ==>
                  t == s.(stream := t.stream) && id !in t.stream.entries && id !in t.stream.pel)
  {
    var t := Dispatch(cfg, s, w, id, ok).0;
    var j := EntryJob(s.stream.entries[id]);
    if s.stream.entries[id].Job? {
      DispatchShape(cfg, s, w, id, ok);
      hide Dispatch;
      assert t.stream == s.stream;
      assert Live(t.stream, id) && Queued(t, j);
    } else {
      assert !Queued(t, j) && (Firing(t, j) <==> Firing(s, j)) && (Finished(t, j) <==> Finished(s, j));
    }
  }

  // ---------------------------------------------------------------- sticky routing

  /**
   The saved thread id is carried into the next round's context, but the re-enqueued job has no reference id, so
   dispatching it resets the thread. Sticky routing survives a round exactly when there was no thread to stick to.
   */
  lemma ThreadSurvivesRoundIff(cfg: Config, s: State, i: nat, w: WorkerId, ok: bool)
    requires i < |s.firing| && w in s.conns && cfg.toolsEnabled && cfg.allowedTools != []
    ensures var c := s.firing[i];
            var s1 := ContinueRound(s, i, true);
            var s2 := s1.(stream := Deliver(s1.stream, w, s.stream.nextId));
            var t := Dispatch(cfg, s2, w, s.stream.nextId, ok).0;
            && c.jobId in s1.contexts && s1.contexts[c.jobId].threadId == c.ctx.threadId
            && c.jobId in t.contexts
            && (t.contexts[c.jobId].threadId == c.ctx.threadId <==> c.ctx.threadId == "")
  {
    var c := s.firing[i];
    var s1 := ContinueRound(s, i, true);
    var s2 := s1.(stream := Deliver(s1.stream, w, s.stream.nextId));
    assert s2.stream.entries[s.stream.nextId] == Job(c.jobId, NextJob(c));
    DispatchShape(cfg, s2, w, s.stream.nextId, ok);
    assert EntryJob(s2.stream.entries[s.stream.nextId]) == c.jobId;
    var m := InjectTools(cfg, s2, NextJob(c).(jobId := c.jobId));
    assert m.referenceId == "";
    var s3 := SaveContext(cfg, s2, m);
    assert s3.contexts[c.jobId].threadId == "";
  }

  // ---------------------------------------------------------------- tool injection

  lemma {:induction false} KnownDefsAreNotNew(defs: seq<ToolDef>, existing: seq<ToolDef>)
    requires forall d :: d in defs ==> exists t :: t in existing && t.name == d.name
    ensures NewDefs(defs, existing) == []
  {
    if defs != [] {
      assert defs[0] in defs;
      KnownDefsAreNotNew(defs[1..], existing);
    }
  }

  lemma {:induction false} EveryDefIsKnownAfter(defs: seq<ToolDef>, existing: seq<ToolDef>, d: ToolDef)
    requires d in defs
    ensures exists t :: t in existing + NewDefs(defs, existing) && t.name == d.name
  {
    if d == defs[0] {
      if forall t :: t in existing ==> t.name != d.name {
        assert NewDefs(defs, existing)[0] == d;
        assert d in existing + NewDefs(defs, existing);
      } else {
        var t :| t in existing && t.name == d.name;
        assert t in existing + NewDefs(defs, existing);
      }
    } else {
      assert d in defs[1..];
      EveryDefIsKnownAfter(defs[1..], existing, d);
      var t :| t in existing + NewDefs(defs[1..], existing) && t.name == d.name;
      assert t in existing + NewDefs(defs, existing);
    }
  }

  /** Injecting again, as every later round does, adds nothing. */
  lemma InjectionIsIdempotent(cfg: Config, s: State, m: JobMessage)
    ensures InjectTools(cfg, s, InjectTools(cfg, s, m)) == InjectTools(cfg, s, m)
  {
    var defs := AllowedToolDefs(cfg, cfg.allowedTools);
    var tools := m.tools + NewDefs(defs, m.tools);
    forall d | d in defs ensures exists t :: t in tools && t.name == d.name {
      EveryDefIsKnownAfter(defs, m.tools, d);
    }
    KnownDefsAreNotNew(defs, tools);
    assert tools + [] == tools;
  }

  // ---------------------------------------------------------------- slots

  function AtLeastZero(n: int): nat {
    if n < 0 then 0 else n
  }

  ghost predicate WithinSlots(c: Conn) {
    |c.active| <= AtLeastZero(c.maxSlots)
  }

  /** Per worker: within its current limit, or no busier than before. */
  ghost predicate NoBusier(before: map<WorkerId, Conn>, after: map<WorkerId, Conn>) {
    forall w :: w in after ==>
      WithinSlots(after[w]) || (w in before && |after[w].active| <= |before[w].active|)
  }

  lemma UnassignNoBusier(s: State, w: WorkerId, j: JobId)
    requires w in s.conns
    ensures NoBusier(s.conns, Unassign(s, w, j).conns)
  {
    var t := Unassign(s, w, j);
    assert t.conns[w].active.Keys <= s.conns[w].active.Keys;
    SubsetSize(t.conns[w].active.Keys, s.conns[w].active.Keys);
  }

  lemma ReleaseNoBusier(s: State, w: WorkerId, j: JobId)
    requires w in s.conns
    ensures NoBusier(s.conns, Release(s, w, j).conns)
  {
    if j in s.conns[w].active {
      UnassignNoBusier(s.(stream := Ack(s.stream, s.conns[w].active[j])), w, j);
    } else {
      UnassignNoBusier(s, w, j);
    }
  }

  lemma AssignWithinSlots(s: State, w: WorkerId, j: JobId, id: EntryId)
    requires w in s.conns && j !in s.conns[w].active && |s.conns[w].active| < s.conns[w].maxSlots
    ensures NoBusier(s.conns, Assign(s, w, j, id).conns)
    ensures NoBusier(s.conns, Unassign(Assign(s, w, j, id), w, j).conns)
  {
    OneMoreJob(s.conns[w].active, j, id);
    hide PoolAssign;
    hide PoolComplete;
  }

  lemma OneMoreJob(active: map<JobId, EntryId>, j: JobId, id: EntryId)
    requires j !in active
    ensures |active[j := id]| == |active| + 1 && active[j := id] - {j} == active
  {
    assert active[j := id].Keys == active.Keys + {j};
    assert |active[j := id]| == |active[j := id].Keys| == |active.Keys| + 1 == |active| + 1;
  }

  lemma DispatchNoBusier(cfg: Config, s: State, w: WorkerId, id: EntryId, ok: bool)
    requires w in s.conns && id in s.stream.entries
    ensures NoBusier(s.conns, Dispatch(cfg, s, w, id, ok).0.conns)
  {
    if s.stream.entries[id].Job? {
      DispatchShape(cfg, s, w, id, ok);
      var raw := s.stream.entries[id].msg;
      var j := EntryJob(s.stream.entries[id]);
      var s1 := SaveContext(cfg, s, InjectTools(cfg, s, raw.(jobId := j)));
      var t := Dispatch(cfg, s, w, id, ok).0;
      if j !in s.conns[w].active && |s.conns[w].active| < s.conns[w].maxSlots {
        AssignWithinSlots(s1, w, j, id);
        assert t.conns == if ok then Assign(s1, w, j, id).conns else Unassign(Assign(s1, w, j, id), w, j).conns;
      } else {
        assert t.conns == s.conns;
      }
    }
  }

  lemma {:induction false} DispatchCallsConns(s: State, j: JobId, calls: seq<ToolCall>, ts: seq<ToolJobId>, ok: seq<bool>)
    requires |ts| == |calls| == |ok|
    ensures DispatchCalls(s, j, calls, ts, ok).conns == s.conns
    decreases |calls|
  {
    if calls != [] {
      var s1 := s.(refs := s.refs[ts[0] := ToolRef(j, calls[0].id)]);
      var r := ToolResult(calls[0].name, NoOutput, [], DISPATCH_FAILURE);
      DispatchCallsConns(if ok[0] then s1 else RecordToolResult(s1, j, calls[0].id, r), j, calls[1..], ts[1..], ok[1..]);
    }
  }

  lemma CompleteNoBusier(cfg: Config, s: State, w: WorkerId, m: CompleteMessage, ts: seq<ToolJobId>, ok: seq<bool>)
    requires w in s.conns && |ts| == |m.toolCalls| == |ok|
    ensures NoBusier(s.conns, HandleComplete(cfg, s, w, m, ts, ok).conns)
  {
    var s1 := Release(s, w, m.jobId);
    ReleaseNoBusier(s, w, m.jobId);
    if CanContinue(cfg, s1, m) {
      DispatchCallsConns(s1.(conts := s1.conts[m.jobId := Park(s1.contexts[m.jobId], m)]), m.jobId, m.toolCalls, ts, ok);
    }
  }

  lemma ConnectNoBusier(cfg: Config, s: State, w: WorkerId, n: int)
    requires w !in s.pool
    ensures NoBusier(s.conns, ConnectWorker(cfg, s, w, n).conns)
  {
    var t := ConnectWorker(cfg, s, w, n);
    assert t.conns[w].active == map[];
    OneChanged(s.conns, t.conns, w);
  }

  lemma ConfigNoBusier(s: State, w: WorkerId, n: int)
    requires w in s.conns
    ensures NoBusier(s.conns, HandleConfig(s, w, n).conns)
  {
    OneChanged(s.conns, HandleConfig(s, w, n).conns, w);
  }

  lemma CleanupNoBusier(s: State, w: WorkerId)
    ensures NoBusier(s.conns, Cleanup(s, w).conns)
  {
    OneChanged(s.conns, Cleanup(s, w).conns, w);
  }

  lemma OneChanged(before: map<WorkerId, Conn>, after: map<WorkerId, Conn>, w: WorkerId)
    requires forall v :: v in after && v != w ==> v in before && after[v] == before[v]
    requires w in after ==> after[w].active == map[] || (w in before && after[w].active == before[w].active)
    ensures NoBusier(before, after)
  {
    forall v | v in after
      ensures WithinSlots(after[v]) || (v in before && |after[v].active| <= |before[v].active|)
    {
      if v == w && after[w].active == map[] {
        assert |after[w].active| == 0;
      }
    }
  }

  lemma RecordLeavesConns(s: State, t: ToolJobId, parent: JobId, callId: CallId, r: ToolResult)
    ensures HandleToolResult(s, t, parent, callId, r).conns == s.conns
  {
  }

  predicate TouchesSlots(step: Step) {
    || step.Connect? || step.Reconfigure? || step.Disconnect?
    || step.Expire? || step.DispatchPending? || step.ReadNew? || step.Complete? || step.WorkerError?
  }

  lemma ToolErrorLeavesConns(s: State, t: ToolJobId, reason: string)
    ensures HandleToolError(s, t, reason).conns == s.conns
  {
    hide HandleToolResult;
    if t in s.refs {
      RecordLeavesConns(s, t, s.refs[t].parent, s.refs[t].callId, ToolResult("", NoOutput, [], reason));
    }
  }

  lemma RoundLeavesConns(s: State, i: nat, enqueued: bool)
    requires i < |s.firing|
    ensures ContinueRound(s, i, enqueued).conns == s.conns
  {
  }

  lemma OtherStepsLeaveConns(cfg: Config, s: State, step: Step)
    requires Enabled(cfg, s, step) && !TouchesSlots(step)
    ensures Next(cfg, s, step).conns == s.conns
  {
    hide HandleComplete;
    hide Dispatch;
    hide HandleToolResult;
    hide HandleToolError;
    hide ContinueRound;
    hide ExpireJob;
    hide HandleWorkerError;
    hide ConnectWorker;
    hide HandleConfig;
    hide Publish;
    hide Sweeping.Sweep;
    match step {
      case ToolResultMsg(t, parent, callId, r) => RecordLeavesConns(s, t, parent, callId, r);
      case ToolErrorMsg(t, reason) => ToolErrorLeavesConns(s, t, reason);
      case RunContinuation(i, ok) => RoundLeavesConns(s, i, ok);
      case _ =>
    }
  }

  lemma StepNoBusier(cfg: Config, s: State, step: Step)
    requires Enabled(cfg, s, step)
    ensures NoBusier(s.conns, Next(cfg, s, step).conns)
  {
    if !TouchesSlots(step) {
      OtherStepsLeaveConns(cfg, s, step);
    } else {
      match step {
        case Expire(w, j) => ReleaseNoBusier(s, w, j);
        case DispatchPending(w, id, ok) => DispatchNoBusier(cfg, s, w, id, ok);
        case ReadNew(w, id, ok) => DispatchNoBusier(cfg, s.(stream := Deliver(s.stream, w, id)), w, id, ok);
        case Complete(w, m, ts, ok) => CompleteNoBusier(cfg, s, w, m, ts, ok);
        case WorkerError(w, j, r) => ReleaseNoBusier(s.(tokens := Publish(s.tokens, j, Failed(r))), w, j);
        case Connect(w, n) => ConnectNoBusier(cfg, s, w, n);
        case Reconfigure(w, n) => ConfigNoBusier(s, w, n);
        case Disconnect(w) => CleanupNoBusier(s, w);
      }
    }
  }

  lemma RunNoBusier(cfg: Config, states: seq<State>, steps: seq<Step>, k: nat)
    requires Run(cfg, states, steps) && 0 < k < |states|
    ensures NoBusier(states[k - 1].conns, states[k].conns)
  {
    StepNoBusier(cfg, states[k - 1], steps[k - 1]);
  }

  lemma {:induction false} PeakBound(tables: seq<map<WorkerId, Conn>>, k: nat, w: WorkerId) returns (i: nat)
    requires k < |tables| && w in tables[k] && tables[0] == map[]
    requires forall n :: 0 < n < |tables| ==> NoBusier(tables[n - 1], tables[n])
    ensures i <= k && w in tables[i] && |tables[k][w].active| <= AtLeastZero(tables[i][w].maxSlots)
  {
    if WithinSlots(tables[k][w]) {
      i := k;
    } else {
      assert NoBusier(tables[k - 1], tables[k]);
      i := PeakBound(tables, k - 1, w);
    }
  }

  /** No worker ever holds more jobs than the largest slot limit it was given up to then. */
  lemma SlotsBoundedByPeak(cfg: Config, states: seq<State>, steps: seq<Step>, k: nat, w: WorkerId) returns (i: nat)
    requires Run(cfg, states, steps) && k < |states| && w in states[k].conns
    ensures i <= k && w in states[i].conns
    ensures |states[k].conns[w].active| <= AtLeastZero(states[i].conns[w].maxSlots)
  {
    var tables := seq(|states|, n requires 0 <= n < |states| => states[n].conns);
    forall n | 0 < n < |tables| ensures NoBusier(tables[n - 1], tables[n]) {
      RunNoBusier(cfg, states, steps, n);
    }
    i := PeakBound(tables, k, w);
  }
}
