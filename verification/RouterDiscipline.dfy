/**
 The one-place property, step by step. A handler takes a job out of its place (Unplaced) and puts it into another
 one; between the two, nothing else about the books may have changed. Each step of the protocol gets its own lemma,
 put together from such moves; StepSettles covers them all. The steps that only touch the worker tables come last,
 and the sweep, which moves entries between workers, has its exact condition here.
 */
module RouterDiscipline {
  import opened Prelude
  import opened Protocol
  import opened JobStream
  import opened Continuations
  import opened Router
  import opened RouterBasics
  import opened RouterSafety
  import opened RouterPlaces
  import Sweeping
  import ToolRouting

  /** Job j has been taken out of its place; every other job is in exactly one. */
  ghost predicate Unplaced(s: State, h: History, j: JobId) {
    && j in h.orig && !Somewhere(s, j)
    && (forall k :: AtMostOnePlace(s, k))
    && (forall k :: k != j ==> (Somewhere(s, k) <==> k in h.orig))
    && (forall k :: Terminals(Events(s.tokens, k)) <= 1)
  }

  lemma PlaceTerminal(s: State, h: History, j: JobId, e: TokenEvent)
    requires Unplaced(s, h, j) && e.Terminal()
    ensures OnePlaceEach(s.(tokens := Publish(s.tokens, j, e)), h)
  {
    var t := s.(tokens := Publish(s.tokens, j, e));
    PublishPlaces(s, j, e);
    TerminalsCount(Events(s.tokens, j));
    forall k ensures AtMostOnePlace(t, k) && (Somewhere(t, k) <==> k in h.orig) {
      assert AtMostOnePlace(s, k);
      if k != j { assert SamePlaces(s, t, k); }
    }
  }

  lemma PlaceParked(s: State, h: History, j: JobId, c: Continuation)
    requires Unplaced(s, h, j)
    ensures OnePlaceEach(s.(conts := s.conts[j := c]), h)
  {
    var t := s.(conts := s.conts[j := c]);
    forall k
      ensures InQueue(s, k) <==> InQueue(t, k)
      ensures Firing(s, k) <==> Firing(t, k)
      ensures Finished(s, k) <==> Finished(t, k)
    {
    }
    forall k ensures AtMostOnePlace(t, k) && (Somewhere(t, k) <==> k in h.orig) {
      assert AtMostOnePlace(s, k);
    }
  }

  lemma PlaceQueued(s: State, h: History, m: JobMessage)
    requires Unplaced(s, h, m.jobId) && QueueUnique(s) && JobStream.Valid(s.stream)
    ensures var t := s.(stream := Enqueue(s.stream, Job(m.jobId, m))); OnePlaceEach(t, h) && QueueUnique(t)
  {
    var id := s.stream.nextId;
    var t := s.(stream := Enqueue(s.stream, Job(m.jobId, m)));
    assert EntryJob(t.stream.entries[id]) == m.jobId;
    forall k
      ensures InQueue(t, k) <==> InQueue(s, k) || k == m.jobId
      ensures Firing(s, k) <==> Firing(t, k)
      ensures Finished(s, k) <==> Finished(t, k)
    {
      if InQueue(s, k) {
        var x :| x in s.stream.entries && EntryJob(s.stream.entries[x]) == k;
        assert x in t.stream.entries;
      }
      if k == m.jobId { assert id in t.stream.entries; }
    }
    forall a, b | a in t.stream.entries && b in t.stream.entries && a != b
      ensures EntryJob(t.stream.entries[a]) != EntryJob(t.stream.entries[b])
    {
      assert !InQueue(s, m.jobId);
    }
    forall k ensures AtMostOnePlace(t, k) && (Somewhere(t, k) <==> k in h.orig) {
      assert AtMostOnePlace(s, k);
    }
  }

  /** A continuation replaced by another one of the same job stays in its place. */
  lemma UpdateParked(s: State, h: History, c: Continuation)
    requires OnePlaceEach(s, h) && c.jobId in s.conts
    ensures OnePlaceEach(s.(conts := s.conts[c.jobId := c]), h)
  {
    var t := s.(conts := s.conts[c.jobId := c]);
    forall k
      ensures InQueue(s, k) <==> InQueue(t, k)
      ensures Firing(s, k) <==> Firing(t, k)
      ensures Finished(s, k) <==> Finished(t, k)
    {
    }
    forall k ensures AtMostOnePlace(t, k) && (Somewhere(t, k) <==> k in h.orig) {
      assert AtMostOnePlace(s, k) && (Somewhere(s, k) <==> k in h.orig);
    }
  }

  lemma FireParked(s: State, h: History, c: Continuation)
    requires OnePlaceEach(s, h) && FiringDistinct(s) && c.jobId in s.conts
    ensures var t := s.(conts := s.conts - {c.jobId}, firing := s.firing + [c]); OnePlaceEach(t, h) && FiringDistinct(t)
  {
    var t := s.(conts := s.conts - {c.jobId}, firing := s.firing + [c]);
    assert AtMostOnePlace(s, c.jobId);
    assert t.firing[|s.firing|] == c;
    forall i | 0 <= i < |s.firing| ensures s.firing[i].jobId != c.jobId {
      assert Firing(s, s.firing[i].jobId);
    }
    forall k
      ensures InQueue(s, k) <==> InQueue(t, k)
      ensures Finished(s, k) <==> Finished(t, k)
      ensures Firing(t, k) <==> Firing(s, k) || k == c.jobId
    {
      if Firing(s, k) {
        var i :| 0 <= i < |s.firing| && s.firing[i].jobId == k;
        assert t.firing[i].jobId == k;
      }
    }
    forall k ensures AtMostOnePlace(t, k) && (Somewhere(t, k) <==> k in h.orig) {
      assert AtMostOnePlace(s, k) && (Somewhere(s, k) <==> k in h.orig);
    }
  }

  lemma RecordPlaces(s: State, h: History, parent: JobId, callId: CallId, r: ToolResult)
    requires OnePlaceEach(s, h) && FiringDistinct(s) && ContsKeyed(s)
    ensures var t := RecordToolResult(s, parent, callId, r); OnePlaceEach(t, h) && FiringDistinct(t)
  {
    if parent in s.conts && callId in s.conts[parent].results {
      var c := Record(s.conts[parent], callId, r);
      assert c.jobId == parent;
      if c.remaining > 0 {
        UpdateParked(s, h, c);
      } else {
        FireParked(s, h, c);
      }
    }
  }

  lemma RecordedCarries(h: History, c: Continuation, callId: CallId, r: ToolResult)
    requires ContCarries(h, c)
    ensures ContCarries(h, Record(c, callId, r))
  {
  }

  lemma RecordHistory(s: State, h: History, parent: JobId, callId: CallId, r: ToolResult)
    requires HistoryAgrees(s, h) && ContsKeyed(s)
    ensures HistoryAgrees(RecordToolResult(s, parent, callId, r), h)
  {
    if parent in s.conts && callId in s.conts[parent].results {
      RecordShape(s, parent, callId, r);
      assert ContCarries(h, s.conts[parent]);
      RecordedCarries(h, s.conts[parent], callId, r);
      var c := Record(s.conts[parent], callId, r);
      ContsCarryOneMore(s.conts, s.firing, h, parent, c);
    }
  }

  lemma ContsCarryOneMore(conts: map<JobId, Continuation>, firing: seq<Continuation>, h: History, j: JobId, c: Continuation)
    requires ContsCarry(conts, h) && FiringCarries(firing, h) && ContCarries(h, c)
    ensures ContsCarry(conts[j := c], h) && ContsCarry(conts - {j}, h) && FiringCarries(firing + [c], h)
  {
  }

  lemma {:induction false} DispatchCallsPlaces(
      s: State, h: History, j: JobId, calls: seq<ToolCall>, ts: seq<ToolJobId>, ok: seq<bool>)
    requires |ts| == |calls| == |ok|
    requires OnePlaceEach(s, h) && FiringDistinct(s) && ContsKeyed(s) && HistoryAgrees(s, h)
    ensures var t := DispatchCalls(s, j, calls, ts, ok);
            OnePlaceEach(t, h) && FiringDistinct(t) && HistoryAgrees(t, h)
    decreases |calls|
  {
    if calls != [] {
      var s1 := s.(refs := s.refs[ts[0] := ToolRef(j, calls[0].id)]);
      SameEverywhere(s, s1, h);
      var r := ToolResult(calls[0].name, NoOutput, [], DISPATCH_FAILURE);
      RecordPlaces(s1, h, j, calls[0].id, r);
      RecordHistory(s1, h, j, calls[0].id, r);
      RecordKeeps(s1, j, calls[0].id, r);
      var s2 := if ok[0] then s1 else RecordToolResult(s1, j, calls[0].id, r);
      DispatchCallsPlaces(s2, h, j, calls[1..], ts[1..], ok[1..]);
    }
  }

  lemma SameEverywhere(s: State, t: State, h: History)
    requires OnePlaceEach(s, h)
    requires t.stream.entries == s.stream.entries && t.conts == s.conts && t.firing == s.firing && t.tokens == s.tokens
    ensures OnePlaceEach(t, h)
  {
    forall k
      ensures InQueue(s, k) <==> InQueue(t, k)
      ensures Firing(s, k) <==> Firing(t, k)
      ensures Finished(s, k) <==> Finished(t, k)
    {
    }
    forall k ensures AtMostOnePlace(t, k) && (Somewhere(t, k) <==> k in h.orig) {
      assert AtMostOnePlace(s, k) && (Somewhere(s, k) <==> k in h.orig);
    }
  }

  lemma FiringWithout(s: State, i: nat, k: JobId)
    requires FiringDistinct(s) && i < |s.firing|
    ensures var t := s.(firing := RemoveAt(s.firing, i));
            FiringDistinct(t) && (Firing(t, k) <==> Firing(s, k) && k != s.firing[i].jobId)
  {
    var t := s.(firing := RemoveAt(s.firing, i));
    if Firing(t, k) {
      var n :| 0 <= n < |t.firing| && t.firing[n].jobId == k;
      assert s.firing[if n < i then n else n + 1].jobId == k;
    }
    if Firing(s, k) && k != s.firing[i].jobId {
      var n :| 0 <= n < |s.firing| && s.firing[n].jobId == k;
      assert t.firing[if n < i then n else n - 1].jobId == k;
    }
  }

  lemma FiringRemoved(s: State, h: History, i: nat)
    requires OnePlaceEach(s, h) && FiringDistinct(s) && i < |s.firing|
    ensures var t := s.(firing := RemoveAt(s.firing, i)); Unplaced(t, h, s.firing[i].jobId) && FiringDistinct(t)
  {
    var j := s.firing[i].jobId;
    var t := s.(firing := RemoveAt(s.firing, i));
    assert Firing(s, j) && AtMostOnePlace(s, j);
    forall k ensures Firing(t, k) <==> Firing(s, k) && k != j {
      FiringWithout(s, i, k);
    }
    FiringWithout(s, i, j);
    hide FiringDistinct;
    hide Firing;
    forall k ensures AtMostOnePlace(t, k) && (k != j ==> (Somewhere(t, k) <==> k in h.orig)) {
      assert AtMostOnePlace(s, k) && (Somewhere(s, k) <==> k in h.orig);
      assert InQueue(s, k) <==> InQueue(t, k);
    }
  }

  // ---------------------------------------------------------------- steps

  lemma ReleaseUnplaces(s: State, h: History, w: WorkerId, j: JobId)
    requires Settled(s, h) && w in s.conns && j in s.conns[w].active
    ensures var t := Release(s, w, j);
            && Unplaced(t, h, j) && QueueUnique(t) && SlotsHeld(t) && FiringDistinct(t) && Base(t)
            && HistoryAgrees(t, h) && t.conns.Keys <= t.heartbeats
            && t.firing == s.firing && t.contexts == s.contexts && t.conts == s.conts && t.toolsWorkers == s.toolsWorkers
  {
    var t := Release(s, w, j);
    ReleaseShape(s, w, j);
    ReleasePlaces(s, h, w, j);
    ReleaseKeeps(s, w, j);
    ReleaseHistory(s, h, w, j);
    forall k ensures AtMostOnePlace(t, k) && (k != j ==> (Somewhere(t, k) <==> k in h.orig)) {
      assert AtMostOnePlace(s, k) && (Somewhere(s, k) <==> k in h.orig);
      if k != j { assert SamePlaces(s, t, k); }
    }
  }

  lemma TerminalSettles(s: State, h: History, j: JobId, e: TokenEvent, contexts: map<JobId, JobContext>)
    requires Unplaced(s, h, j) && QueueUnique(s) && SlotsHeld(s) && FiringDistinct(s) && Base(s)
    requires HistoryAgrees(s, h) && s.conns.Keys <= s.heartbeats && e.Terminal()
    requires contexts.Keys <= s.contexts.Keys && forall k :: k in contexts ==> contexts[k] == s.contexts[k]
    ensures Settled(s.(tokens := Publish(s.tokens, j, e), contexts := contexts), h)
  {
    var t1 := s.(tokens := Publish(s.tokens, j, e));
    PlaceTerminal(s, h, j, e);
    PublishKeeps(s, j, e);
    SameEverywhere(t1, t1.(contexts := contexts), h);
  }

  lemma ParkSettles(s: State, h: History, msg: CompleteMessage, ts: seq<ToolJobId>, ok: seq<bool>)
    requires QueueUnique(s) && SlotsHeld(s) && FiringDistinct(s) && Base(s)
    requires HistoryAgrees(s, h) && s.conns.Keys <= s.heartbeats
    requires msg.jobId in s.contexts && msg.toolCalls != [] && |ts| == |msg.toolCalls| == |ok|
    requires OnePlaceEach(s.(conts := s.conts[msg.jobId := Park(s.contexts[msg.jobId], msg)]), h)
    ensures Settled(StartContinuation(s, msg, ts, ok), h)
  {
    var j := msg.jobId;
    var parked := s.(conts := s.conts[j := Park(s.contexts[j], msg)]);
    assert HistoryAgrees(parked, h);
    assert ContsKeyed(parked);
    DispatchCallsPlaces(parked, h, j, msg.toolCalls, ts, ok);
    DispatchCallsKeeps(parked, j, msg.toolCalls, ts, ok);
    var t := StartContinuation(s, msg, ts, ok);
    assert t == s.(conts := t.conts, firing := t.firing, refs := t.refs);
  }

  lemma CompleteSettles(cfg: Config, s: State, h: History, w: WorkerId, msg: CompleteMessage,
                        ts: seq<ToolJobId>, ok: seq<bool>)
    requires Settled(s, h) && w in s.conns && msg.jobId in s.conns[w].active && |ts| == |msg.toolCalls| == |ok|
    ensures Settled(HandleComplete(cfg, s, w, msg, ts, ok), h)
  {
    var j := msg.jobId;
    ReleaseUnplaces(s, h, w, j);
    var s1 := Release(s, w, j);
    if CanContinue(cfg, s1, msg) {
      PlaceParked(s1, h, j, Park(s1.contexts[j], msg));
      ParkSettles(s1, h, msg, ts, ok);
    } else {
      TerminalSettles(s1, h, j, Done(msg), if cfg.toolsEnabled then s1.contexts - {j} else s1.contexts);
    }
  }

  lemma ErrorSettles(s: State, h: History, w: WorkerId, j: JobId, reason: string)
    requires Settled(s, h) && w in s.conns && (j == "" || j in s.conns[w].active)
    ensures Settled(HandleWorkerError(s, w, j, reason), h)
  {
    if j != "" {
      var s1 := Release(s, w, j);
      ReleaseUnplaces(s, h, w, j);
      ReleaseShape(s, w, j);
      ReleaseShape(s.(tokens := Publish(s.tokens, j, Failed(reason))), w, j);
      TerminalSettles(s1, h, j, Failed(reason), s1.contexts);
    }
  }

  lemma ExpireSettles(s: State, h: History, w: WorkerId, j: JobId)
    requires Settled(s, h) && w in s.conns && j in s.conns[w].active
    ensures Settled(ExpireJob(s, w, j), h)
  {
    var s1 := Release(s, w, j);
    ReleaseUnplaces(s, h, w, j);
    TerminalSettles(s1, h, j, Failed("job_timeout"), s1.contexts);
  }

  /** Adding a job to the books leaves what is known about the others as it was. */
  lemma NewJobHistory(s: State, h: History, m: JobMessage)
    requires HistoryAgrees(s, h) && m.jobId !in h.orig
    ensures var h' := h.(orig := h.orig[m.jobId := m.messages], rounds := h.rounds - {m.jobId});
            HistoryAgrees(s, h') && Sent(h', m.jobId) == m.messages
  {
    var h' := h.(orig := h.orig[m.jobId := m.messages], rounds := h.rounds - {m.jobId});
    forall k | k in h.orig ensures k in h'.orig && Sent(h', k) == Sent(h, k) {
      assert k != m.jobId;
    }
  }

  lemma SubmitSettles(s: State, h: History, m: JobMessage)
    requires Settled(s, h) && m.jobId !in h.orig
    ensures var h' := h.(orig := h.orig[m.jobId := m.messages], rounds := h.rounds - {m.jobId});
            Settled(s.(stream := Enqueue(s.stream, Job(m.jobId, m))), h')
  {
    var h' := h.(orig := h.orig[m.jobId := m.messages], rounds := h.rounds - {m.jobId});
    NewJobHistory(s, h, m);
    assert !Somewhere(s, m.jobId);
    RequeueSettles(s, h', m);
  }

  lemma DeliverHeld(s: State, w: WorkerId, id: EntryId)
    requires QueueUnique(s) && SlotsHeld(s) && JobStream.Valid(s.stream) && IsNext(s.stream, id)
    ensures var t := s.(stream := Deliver(s.stream, w, id)); QueueUnique(t) && SlotsHeld(t)
  {
    var t := s.(stream := Deliver(s.stream, w, id));
    forall v, j | v in t.conns && j in t.conns[v].active
      ensures var x := t.conns[v].active[j]; x in t.stream.entries && x in t.stream.pel && t.stream.pel[x] == v
    {
      assert s.conns[v].active[j] in s.stream.pel;
    }
    forall x | x in t.stream.entries ensures Live(t.stream, x) {
      assert Live(s.stream, x);
    }
  }

  lemma DeliverSettles(s: State, h: History, w: WorkerId, id: EntryId)
    requires Settled(s, h) && IsNext(s.stream, id)
    ensures Settled(s.(stream := Deliver(s.stream, w, id)), h)
  {
    var t := s.(stream := Deliver(s.stream, w, id));
    DeliverKeeps(s, w, id);
    SameEverywhere(s, t, h);
    DeliverHeld(s, w, id);
  }

  lemma AssignHeld(s: State, w: WorkerId, j: JobId, id: EntryId)
    requires SlotsHeld(s) && w in s.conns && id in Owned(s.stream, w) && id in s.stream.entries
    ensures SlotsHeld(Assign(s, w, j, id))
  {
    var t := Assign(s, w, j, id);
    forall v, k | v in t.conns && k in t.conns[v].active
      ensures var x := t.conns[v].active[k]; x in t.stream.entries && x in t.stream.pel && t.stream.pel[x] == v
    {
      assert (v == w && k == j) || (v in s.conns && k in s.conns[v].active && t.conns[v].active[k] == s.conns[v].active[k]);
    }
  }

  lemma AssignSettles(s: State, h: History, w: WorkerId, j: JobId, id: EntryId)
    requires Settled(s, h) && w in s.conns && id in Owned(s.stream, w) && id in s.stream.entries
    requires EntryJob(s.stream.entries[id]) == j && |s.conns[w].active| < s.conns[w].maxSlots
    ensures Settled(Assign(s, w, j, id), h)
  {
    var t := Assign(s, w, j, id);
    AssignBase(s, w, j, id);
    SameEverywhere(s, t, h);
    AssignHeld(s, w, j, id);
  }

  lemma UnassignSettles(s: State, h: History, w: WorkerId, j: JobId)
    requires Settled(s, h) && w in s.conns
    ensures Settled(Unassign(s, w, j), h)
  {
    var t := Unassign(s, w, j);
    UnassignBase(s, w, j);
    SameEverywhere(s, t, h);
    forall v, k | v in t.conns && k in t.conns[v].active
      ensures k in s.conns[v].active && t.conns[v].active[k] == s.conns[v].active[k]
    {
    }
  }

  lemma EmitSettles(s: State, h: History, j: JobId, e: TokenEvent)
    requires Settled(s, h) && !e.Terminal()
    ensures Settled(s.(tokens := Publish(s.tokens, j, e)), h)
  {
    var t := s.(tokens := Publish(s.tokens, j, e));
    PublishKeeps(s, j, e);
    PublishPlaces(s, j, e);
    forall k ensures AtMostOnePlace(t, k) && (Somewhere(t, k) <==> k in h.orig) {
      assert AtMostOnePlace(s, k) && SamePlaces(s, t, k) && (Somewhere(s, k) <==> k in h.orig);
    }
  }

  lemma SaveContextSettles(cfg: Config, s: State, h: History, id: EntryId)
    requires Settled(s, h) && id in s.stream.entries
    ensures var raw := s.stream.entries[id].msg;
            var j := EntryJob(s.stream.entries[id]);
            Settled(SaveContext(cfg, s, InjectTools(cfg, s, raw.(jobId := j))), h)
  {
    var raw := s.stream.entries[id].msg;
    var j := EntryJob(s.stream.entries[id]);
    var t := SaveContext(cfg, s, InjectTools(cfg, s, raw.(jobId := j)));
    assert t == s.(contexts := t.contexts);
    assert Carries(h, j, raw.messages);
    assert ContextsCarry(t.contexts, h);
    SameEverywhere(s, t, h);
  }

  lemma PlacedSettles(s: State, h: History, w: WorkerId, j: JobId, id: EntryId, ok: bool)
    requires Settled(s, h) && w in s.conns && id in Owned(s.stream, w) && id in s.stream.entries
    requires EntryJob(s.stream.entries[id]) == j && |s.conns[w].active| < s.conns[w].maxSlots
    ensures var t := Assign(s, w, j, id);
            Settled(if ok then t.(tokens := Publish(t.tokens, j, Dispatched)) else Unassign(t, w, j), h)
  {
    hide Settled;
    hide Owned;
    var t := Assign(s, w, j, id);
    AssignSettles(s, h, w, j, id);
    if ok {
      EmitSettles(t, h, j, Dispatched);
    } else {
      UnassignSettles(t, h, w, j);
    }
  }

  lemma DispatchSettles(cfg: Config, s: State, h: History, w: WorkerId, id: EntryId, ok: bool)
    requires Settled(s, h) && w in s.conns && id in s.stream.entries && id in Owned(s.stream, w)
    ensures Settled(Dispatch(cfg, s, w, id, ok).0, h)
  {
    var raw := s.stream.entries[id].msg;
    var j := EntryJob(s.stream.entries[id]);
    var s1 := SaveContext(cfg, s, InjectTools(cfg, s, raw.(jobId := j)));
    SaveContextSettles(cfg, s, h, id);
    DispatchShape(cfg, s, w, id, ok);
    if !(j in s.conns[w].active || |s.conns[w].active| >= s.conns[w].maxSlots) {
      PlacedSettles(s1, h, w, j, id, ok);
    }
  }

  lemma TableSettles(s: State, t: State, h: History)
    requires Settled(s, h)
    requires t == s.(conns := t.conns, pool := t.pool, heartbeats := t.heartbeats, toolsWorkers := t.toolsWorkers)
    requires Mirror(t) && t.conns.Keys <= t.heartbeats
    requires forall w :: w in t.conns ==>
               t.conns[w].active == map[] || (w in s.conns && t.conns[w].active == s.conns[w].active)
    ensures Settled(t, h)
  {
    TableKeeps(s, t);
    SameEverywhere(s, t, h);
  }

  /** A sweep leaves slots backed by their entries exactly if every busy connected worker has its heartbeat. */
  lemma SweepKeepsSlotsIff(s: State, dead: seq<WorkerId>, live: seq<WorkerId>)
    requires Base(s) && SlotsHeld(s) && Sweeping.Listing(s.stream, s.heartbeats, dead, live) && s.heartbeats != {}
    ensures SlotsHeld(s.(stream := Sweeping.Sweep(s.stream, dead, live))) <==>
              forall w :: w in s.conns && s.conns[w].active != map[] ==> w in s.heartbeats
  {
    Sweeping.SweepEffect(s.stream, s.heartbeats, dead, live);
    var t := s.(stream := Sweeping.Sweep(s.stream, dead, live));
    if w :| w in s.conns && s.conns[w].active != map[] && w !in s.heartbeats {
      var j :| j in s.conns[w].active;
      var id := s.conns[w].active[j];
      assert id in t.stream.pel && t.stream.pel[id] == w ==> w in Sweeping.DeadConsumers(t.stream, s.heartbeats);
      assert j in t.conns[w].active;
    } else {
      forall v, k | v in t.conns && k in t.conns[v].active
        ensures var x := t.conns[v].active[k]; x in t.stream.entries && x in t.stream.pel && t.stream.pel[x] == v
      {
        var x := s.conns[v].active[k];
        assert s.conns[v].active != map[] && v in s.heartbeats && s.stream.pel[x] == v;
        assert x in Sweeping.Kept(s.stream, s.heartbeats);
      }
    }
  }

  lemma SweepSettles(s: State, h: History, dead: seq<WorkerId>, live: seq<WorkerId>)
    requires Settled(s, h) && Sweeping.Listing(s.stream, s.heartbeats, dead, live)
    requires s.heartbeats == {} || Sweeping.WithinPage(s.stream, s.heartbeats)
    ensures Settled(s.(stream := Sweeping.Sweep(s.stream, dead, live)), h)
  {
    var t := s.(stream := Sweeping.Sweep(s.stream, dead, live));
    SweepBase(s, dead, live);
    Sweeping.SweepEffect(s.stream, s.heartbeats, dead, live);
    if s.heartbeats != {} {
      SweepKeepsSlotsIff(s, dead, live);
      SweptUnique(s, t);
      assert t.stream.entries == s.stream.entries;
      assert HistoryAgrees(t, h);
      hide Sweeping.Sweep;
      hide Sweeping.WithinPage;
      hide Sweeping.Kept;
      hide QueueUnique;
      hide HistoryAgrees;
      hide SlotsHeld;
      hide Base;
      SameEverywhere(s, t, h);
    }
  }

  lemma SweptUnique(s: State, t: State)
    requires QueueUnique(s) && t.stream == s.stream.(pel := t.stream.pel) && t.stream.pel.Keys == s.stream.pel.Keys
    ensures QueueUnique(t)
  {
    assert forall id :: id in t.stream.pel <==> id in t.stream.pel.Keys;
  }

  lemma RecordSettles(s: State, h: History, parent: JobId, callId: CallId, r: ToolResult)
    requires Settled(s, h)
    ensures Settled(RecordToolResult(s, parent, callId, r), h)
  {
    RecordPlaces(s, h, parent, callId, r);
    RecordHistory(s, h, parent, callId, r);
    RecordKeeps(s, parent, callId, r);
    var t := RecordToolResult(s, parent, callId, r);
    ParkedKeeps(s, t);
    ParkedFrame(s, t);
  }

  lemma ParkedFrame(s: State, t: State)
    requires t == s.(conts := t.conts, firing := t.firing, refs := t.refs)
    ensures QueueUnique(s) ==> QueueUnique(t)
    ensures SlotsHeld(s) ==> SlotsHeld(t)
  {
  }

  lemma ToolAnswerSettles(s: State, h: History, tj: ToolJobId, parent: JobId, callId: CallId, r: ToolResult)
    requires Settled(s, h)
    ensures Settled(HandleToolResult(s, tj, parent, callId, r), h)
  {
    var s1 := s.(refs := s.refs - {tj});
    SameEverywhere(s, s1, h);
    ParkedFrame(s, s1);
    assert Settled(s1, h);
    RecordSettles(s1, h, parent, callId, r);
  }

  function WithRound(h: History, c: Continuation): History {
    h.(rounds := h.rounds[c.jobId := RoundsOf(h, c.jobId) + [RoundOf(c)]])
  }

  lemma RoundSent(h: History, c: Continuation)
    requires ContCarries(h, c)
    ensures var h' := WithRound(h, c);
            && Sent(h', c.jobId) == NextMessages(c) && (RoundsAnswered(h) ==> RoundsAnswered(h'))
            && forall k :: k in h.orig && k != c.jobId ==> Sent(h', k) == Sent(h, k)
  {
    var j := c.jobId;
    assert (RoundsOf(h, j) + [RoundOf(c)])[..|RoundsOf(h, j)|] == RoundsOf(h, j);
    assert AnswersItsCalls(RoundOf(c));
  }

  /** Where the job of the closed round is not, nothing changes. */
  lemma ElsewhereCarries(s: State, h: History, h': History, j: JobId)
    requires QueueCarries(s.stream.entries, h) && ContsCarry(s.conts, h) && FiringCarries(s.firing, h)
    requires h'.orig == h.orig && forall k :: k in h.orig && k != j ==> Sent(h', k) == Sent(h, k)
    requires WellFormed(s.stream) && ContsKeyed(s) && !InQueue(s, j) && j !in s.conts && !Firing(s, j)
    ensures QueueCarries(s.stream.entries, h') && ContsCarry(s.conts, h') && FiringCarries(s.firing, h')
  {
    hide Sent;
  }

  /** Closing a round extends the transcript of its own job only. */
  lemma RoundHistory(s: State, h: History, i: nat)
    requires HistoryAgrees(s, h) && i < |s.firing| && Unplaced(s.(firing := RemoveAt(s.firing, i)), h, s.firing[i].jobId)
    requires WellFormed(s.stream) && ContsKeyed(s)
    ensures var c := s.firing[i];
            var h' := h.(rounds := h.rounds[c.jobId := RoundsOf(h, c.jobId) + [RoundOf(c)]]);
            && Sent(h', c.jobId) == NextMessages(c)
            && HistoryAgrees(s.(firing := RemoveAt(s.firing, i),
                                contexts := s.contexts[c.jobId := c.ctx.(messages := NextMessages(c))]), h')
  {
    var c := s.firing[i];
    var h' := WithRound(h, c);
    var t := s.(firing := RemoveAt(s.firing, i));
    hide NextMessages;
    RoundSent(h, c);
    hide Sent;
    assert !Somewhere(t, c.jobId);
    forall n | 0 <= n < |t.firing| ensures ContCarries(h, t.firing[n]) {
      assert t.firing[n] == s.firing[if n < i then n else n + 1];
    }
    ElsewhereCarries(t, h, h', c.jobId);
    assert ContextsCarry(s.contexts[c.jobId := c.ctx.(messages := NextMessages(c))], h');
  }

  lemma RequeueSettles(s: State, h: History, m: JobMessage)
    requires Unplaced(s, h, m.jobId) && QueueUnique(s) && SlotsHeld(s) && FiringDistinct(s) && Base(s)
    requires HistoryAgrees(s, h) && s.conns.Keys <= s.heartbeats && Carries(h, m.jobId, m.messages)
    ensures Settled(s.(stream := Enqueue(s.stream, Job(m.jobId, m))), h)
  {
    var t := s.(stream := Enqueue(s.stream, Job(m.jobId, m)));
    PlaceQueued(s, h, m);
    SubmitKeeps(s, m);
    assert QueueCarries(t.stream.entries, h);
    assert SlotsHeld(t);
  }

  lemma ContinueSettles(s: State, h: History, i: nat, enqueued: bool)
    requires Settled(s, h) && i < |s.firing|
    ensures var c := s.firing[i];
            Settled(ContinueRound(s, i, enqueued),
                    h.(rounds := h.rounds[c.jobId := RoundsOf(h, c.jobId) + [RoundOf(c)]]))
  {
    var c := s.firing[i];
    var h' := h.(rounds := h.rounds[c.jobId := RoundsOf(h, c.jobId) + [RoundOf(c)]]);
    var s0 := s.(firing := RemoveAt(s.firing, i));
    var s1 := s0.(contexts := s.contexts[c.jobId := c.ctx.(messages := NextMessages(c))]);
    FiringRemoved(s, h, i);
    RoundHistory(s, h, i);
    UnplacedElsewhere(s0, s1, h, h', c.jobId);
    assert Base(s1);
    if enqueued {
      RequeueSettles(s1, h', NextJob(c));
    } else {
      TerminalSettles(s1, h', c.jobId, Failed("continuation_failed"), s1.contexts);
    }
  }

  lemma UnplacedElsewhere(s: State, t: State, h: History, h': History, j: JobId)
    requires Unplaced(s, h, j) && h'.orig == h.orig
    requires t.stream.entries == s.stream.entries && t.conts == s.conts && t.firing == s.firing && t.tokens == s.tokens
    ensures Unplaced(t, h', j)
  {
    forall k
      ensures InQueue(s, k) <==> InQueue(t, k)
      ensures Firing(s, k) <==> Firing(t, k)
      ensures Finished(s, k) <==> Finished(t, k)
    {
    }
    forall k ensures AtMostOnePlace(t, k) && (Somewhere(t, k) <==> Somewhere(s, k)) {
      assert AtMostOnePlace(s, k);
    }
  }

  lemma ConnectSettles(cfg: Config, s: State, h: History, w: WorkerId, n: int)
    requires Settled(s, h) && w !in s.pool
    ensures Settled(ConnectWorker(cfg, s, w, n), h)
  {
    hide QueueUnique;
    hide FiringDistinct;
    hide OnePlaceEach;
    hide HistoryAgrees;
    TableSettles(s, ConnectWorker(cfg, s, w, n), h);
  }

  lemma ConfigMirror(s: State, w: WorkerId, n: int)
    requires Mirror(s) && w in s.conns
    ensures var t := HandleConfig(s, w, n);
            && t == s.(conns := t.conns, pool := t.pool) && Mirror(t) && t.conns.Keys == s.conns.Keys
            && forall v :: v in t.conns ==> t.conns[v].active == s.conns[v].active
  {
  }

  lemma ConfigSettles(s: State, h: History, w: WorkerId, n: int)
    requires Settled(s, h) && w in s.conns
    ensures Settled(HandleConfig(s, w, n), h)
  {
    ConfigMirror(s, w, n);
    TableSettles(s, HandleConfig(s, w, n), h);
  }

  lemma CleanupSettles(s: State, h: History, w: WorkerId)
    requires Settled(s, h)
    ensures Settled(Cleanup(s, w), h)
  {
    TableSettles(s, Cleanup(s, w), h);
  }

  lemma OutsideSettles(s: State, h: History, heartbeats: set<WorkerId>, toolsWorkers: ToolRouting.Advertised)
    requires Settled(s, h) && s.conns.Keys <= heartbeats
    ensures Settled(s.(heartbeats := heartbeats, toolsWorkers := toolsWorkers), h)
  {
    TableSettles(s, s.(heartbeats := heartbeats, toolsWorkers := toolsWorkers), h);
  }

  lemma ReadSettles(cfg: Config, s: State, h: History, w: WorkerId, id: EntryId, ok: bool)
    requires Settled(s, h) && w in s.conns && IsNext(s.stream, id)
    ensures Settled(Dispatch(cfg, s.(stream := Deliver(s.stream, w, id)), w, id, ok).0, h)
  {
    DeliverSettles(s, h, w, id);
    DispatchSettles(cfg, s.(stream := Deliver(s.stream, w, id)), h, w, id, ok);
  }

  lemma ToolErrorSettles(s: State, h: History, tj: ToolJobId, reason: string)
    requires Settled(s, h)
    ensures Settled(HandleToolError(s, tj, reason), h)
  {
    if tj != "" && tj in s.refs {
      ToolAnswerSettles(s, h, tj, s.refs[tj].parent, s.refs[tj].callId, ToolResult("", NoOutput, [], reason));
    }
  }

  predicate WorkerStep(step: Step) {
    step.Expire? || step.DispatchPending? || step.ReadNew? || step.EmitToken? || step.Complete? || step.WorkerError?
  }

  lemma WorkerStepSettles(cfg: Config, s: State, h: History, step: Step)
    requires Settled(s, h) && Enabled(cfg, s, step) && Disciplined(s, h, step) && WorkerStep(step)
    ensures Settled(Next(cfg, s, step), h)
  {
    hide ConnectWorker;
    hide HandleConfig;
    hide ExpireJob;
    hide Dispatch;
    hide HandleComplete;
    hide HandleWorkerError;
    hide Cleanup;
    hide ContinueRound;
    hide HandleToolError;
    hide DispatchCalls;
    hide Settled;
    match step {
      case Expire(w, j) => ExpireSettles(s, h, w, j);
      case DispatchPending(w, id, ok) => DispatchSettles(cfg, s, h, w, id, ok);
      case ReadNew(w, id, ok) => ReadSettles(cfg, s, h, w, id, ok);
      case EmitToken(_, j, e) => EmitSettles(s, h, j, e);
      case Complete(w, m, ts, ok) => CompleteSettles(cfg, s, h, w, m, ts, ok);
      case WorkerError(w, j, r) => ErrorSettles(s, h, w, j, r);
    }
  }

  predicate TableStep(step: Step) {
    || step.Connect? || step.Reconfigure? || step.Disconnect? || step.Heartbeat? || step.HeartbeatLost?
    || step.SweepDead? || step.ToolsConnect? || step.ToolsDisconnect?
  }

  lemma TableStepSettles(cfg: Config, s: State, h: History, step: Step)
    requires Settled(s, h) && Enabled(cfg, s, step) && Disciplined(s, h, step) && TableStep(step)
    ensures Settled(Next(cfg, s, step), h)
  {
    hide ConnectWorker;
    hide HandleConfig;
    hide ExpireJob;
    hide Dispatch;
    hide HandleComplete;
    hide HandleWorkerError;
    hide Cleanup;
    hide ContinueRound;
    hide HandleToolError;
    hide DispatchCalls;
    hide Base;
    hide QueueUnique;
    hide SlotsHeld;
    hide FiringDistinct;
    hide OnePlaceEach;
    hide HistoryAgrees;
    match step {
      case Connect(w, n) => ConnectSettles(cfg, s, h, w, n);
      case Reconfigure(w, n) => ConfigSettles(s, h, w, n);
      case Disconnect(w) => CleanupSettles(s, h, w);
      case Heartbeat(w) => OutsideSettles(s, h, s.heartbeats + {w}, s.toolsWorkers);
      case HeartbeatLost(w) => OutsideSettles(s, h, s.heartbeats - {w}, s.toolsWorkers);
      case SweepDead(dead, live) => SweepSettles(s, h, dead, live);
      case ToolsConnect(tw, tools) => OutsideSettles(s, h, s.heartbeats, s.toolsWorkers[tw := tools]);
      case ToolsDisconnect(tw) => OutsideSettles(s, h, s.heartbeats, s.toolsWorkers - {tw});
    }
  }

  /** One disciplined step of any kind. */
  lemma StepSettles(cfg: Config, s: State, h: History, step: Step)
    requires Settled(s, h) && Enabled(cfg, s, step) && Disciplined(s, h, step)
    ensures Settled(Next(cfg, s, step), Remember(s, step, h))
  {
    hide ConnectWorker;
    hide HandleConfig;
    hide ExpireJob;
    hide Dispatch;
    hide HandleComplete;
    hide HandleWorkerError;
    hide Cleanup;
    hide ContinueRound;
    hide HandleToolError;
    hide DispatchCalls;
    hide Settled;
    if WorkerStep(step) {
      WorkerStepSettles(cfg, s, h, step);
    } else if TableStep(step) {
      TableStepSettles(cfg, s, h, step);
    } else {
      match step {
        case Submit(m) => SubmitSettles(s, h, m);
        case ToolResultMsg(tj, parent, callId, r) => ToolAnswerSettles(s, h, tj, parent, callId, r);
        case ToolErrorMsg(tj, reason) => ToolErrorSettles(s, h, tj, reason);
        case RunContinuation(i, ok) => ContinueSettles(s, h, i, ok);
      }
    }
  }
}
