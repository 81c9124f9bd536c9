/**
 What every step of the router keeps, in every run: well-formed queue, slots that point at their own job's entry,
 and a pool that mirrors the connection table. On top of it: no step ever loses track of an accepted job. Here are
 the definitions and the building blocks, what publishing, releasing, acknowledging and recording keep; the steps
 themselves are in RouterSafety.
 */
module RouterBasics {
  import opened Protocol
  import opened JobStream
  import opened Continuations
  import opened Router

  function EntryJob(p: Payload): JobId {
    if p.Corrupt? then p.jobId else JobOf(p)
  }

  ghost predicate WellFormed(st: JobStream.Stream) {
    && JobStream.Valid(st)
    && forall id :: id in st.entries ==> st.entries[id].Job? && st.entries[id].msg.jobId == st.entries[id].jobId
  }

  /** The pool holds the same workers as the connection table, with the same limits and the same jobs. */
  ghost predicate Mirror(s: State) {
    && s.pool.Keys == s.conns.Keys
    && forall w :: w in s.conns ==>
         s.pool[w].maxSlots == s.conns[w].maxSlots && s.pool[w].active == s.conns[w].active.Keys
  }

  /** A slot's entry, while it exists, is an entry of the slot's job. */
  ghost predicate SlotsPointHome(s: State) {
    forall w, j :: w in s.conns && j in s.conns[w].active ==>
      var id := s.conns[w].active[j];
      id < s.stream.nextId && (id in s.stream.entries ==> EntryJob(s.stream.entries[id]) == j)
  }

  ghost predicate ContsKeyed(s: State) {
    forall j :: j in s.conts ==> s.conts[j].jobId == j && s.conts[j].remaining > 0
  }

  ghost predicate Base(s: State) {
    WellFormed(s.stream) && Mirror(s) && SlotsPointHome(s) && ContsKeyed(s)
  }

  // ---------------------------------------------------------------- where a job can be

  ghost predicate Queued(s: State, j: JobId) {
    exists id :: Live(s.stream, id) && EntryJob(s.stream.entries[id]) == j
  }

  ghost predicate Firing(s: State, j: JobId) {
    exists i :: 0 <= i < |s.firing| && s.firing[i].jobId == j
  }

  ghost predicate Finished(s: State, j: JobId) {
    exists e :: e in Events(s.tokens, j) && e.Terminal()
  }

  /** The job has a live queue entry, or a parked or firing continuation, or a terminal event. */
  ghost predicate Accounted(s: State, j: JobId) {
    Queued(s, j) || j in s.conts || Firing(s, j) || Finished(s, j)
  }

  ghost predicate KeepsTrack(s: State, t: State) {
    forall j :: Accounted(s, j) ==> Accounted(t, j)
  }

  // ---------------------------------------------------------------- the handlers' effects at a glance

  lemma ReleaseShape(s: State, w: WorkerId, j: JobId)
    requires w in s.conns && j in s.conns[w].active
    ensures var t := Release(s, w, j);
            t == s.(stream := Ack(s.stream, s.conns[w].active[j]), pool := PoolComplete(s.pool, w, j),
                    conns := s.conns[w := s.conns[w].(active := s.conns[w].active - {j})])
  {
  }

  lemma RecordShape(s: State, parent: JobId, callId: CallId, r: ToolResult)
    requires parent in s.conts && callId in s.conts[parent].results
    ensures var c := Record(s.conts[parent], callId, r);
            RecordToolResult(s, parent, callId, r) ==
              if c.remaining > 0 then s.(conts := s.conts[parent := c])
              else s.(conts := s.conts - {parent}, firing := s.firing + [c])
  {
  }

  /** Dispatching a well-formed entry: save its context, then occupy a slot if one is free and the job has none. */
  lemma DispatchShape(cfg: Config, s: State, w: WorkerId, id: EntryId, ok: bool)
    requires w in s.conns && id in s.stream.entries && s.stream.entries[id].Job?
    ensures var raw := s.stream.entries[id].msg;
            var j := EntryJob(s.stream.entries[id]);
            var s1 := SaveContext(cfg, s, InjectTools(cfg, s, raw.(jobId := j)));
            Dispatch(cfg, s, w, id, ok).0 ==
              if j in s.conns[w].active || |s.conns[w].active| >= s.conns[w].maxSlots then s1
              else
                var s2 := Assign(s1, w, j, id);
                if ok then s2.(tokens := Publish(s2.tokens, j, Dispatched)) else Unassign(s2, w, j)
  {
    var j := EntryJob(s.stream.entries[id]);
    var s1 := SaveContext(cfg, s, InjectTools(cfg, s, s.stream.entries[id].msg.(jobId := j)));
    assert Dispatch(cfg, s, w, id, ok) == Occupy(s1, w, j, id, ok);
    OccupyShape(s1, w, j, id, ok);
  }

  lemma OccupyShape(s: State, w: WorkerId, j: JobId, id: EntryId, ok: bool)
    requires w in s.conns
    ensures Occupy(s, w, j, id, ok).0 ==
              if j in s.conns[w].active || |s.conns[w].active| >= s.conns[w].maxSlots then s
              else
                var s2 := Assign(s, w, j, id);
                if ok then s2.(tokens := Publish(s2.tokens, j, Dispatched)) else Unassign(s2, w, j)
  {
  }

  // ---------------------------------------------------------------- building blocks

  /** A completion parks the job and sends its calls, or publishes the completion and forgets the context. */
  lemma CompleteShape(cfg: Config, s: State, w: WorkerId, m: CompleteMessage, ts: seq<ToolJobId>, sent: seq<bool>)
    requires w in s.conns && |ts| == |m.toolCalls| == |sent|
    ensures var s1 := Release(s, w, m.jobId);
            var t := HandleComplete(cfg, s, w, m, ts, sent);
            if CanContinue(cfg, s1, m) then
              t == DispatchCalls(s1.(conts := s1.conts[m.jobId := Park(s1.contexts[m.jobId], m)]), m.jobId, m.toolCalls, ts, sent)
            else t == s1.(tokens := Publish(s1.tokens, m.jobId, Done(m)), contexts := t.contexts)
  {
    hide Release;
    hide DispatchCalls;
  }

  lemma PublishKeeps(s: State, j: JobId, e: TokenEvent)
    requires Base(s)
    ensures var t := s.(tokens := Publish(s.tokens, j, e));
            Base(t) && KeepsTrack(s, t) && (e.Terminal() ==> Finished(t, j))
  {
    var t := s.(tokens := Publish(s.tokens, j, e));
    assert Events(t.tokens, j) == Events(s.tokens, j) + [e];
    assert e in Events(t.tokens, j);
    forall k | Accounted(s, k) ensures Accounted(t, k) {
      if Queued(s, k) {
        var id :| Live(s.stream, id) && EntryJob(s.stream.entries[id]) == k;
        assert Live(t.stream, id);
      } else if Firing(s, k) {
        var i :| 0 <= i < |s.firing| && s.firing[i].jobId == k;
        assert t.firing[i].jobId == k;
      } else if Finished(s, k) {
        var x :| x in Events(s.tokens, k) && x.Terminal();
        assert x in Events(t.tokens, k);
      }
    }
  }

  lemma UnassignBase(s: State, w: WorkerId, j: JobId)
    requires Base(s) && w in s.conns
    ensures Base(Unassign(s, w, j))
  {
    var t := Unassign(s, w, j);
    assert t.pool.Keys == s.pool.Keys && t.conns.Keys == s.conns.Keys;
    forall v | v in t.conns
      ensures t.pool[v].maxSlots == t.conns[v].maxSlots && t.pool[v].active == t.conns[v].active.Keys
    {
      assert v in s.conns && v in s.pool;
    }
    forall v, k | v in t.conns && k in t.conns[v].active
      ensures t.conns[v].active[k] == s.conns[v].active[k]
    {
    }
  }

  lemma AckBase(s: State, id: EntryId)
    requires Base(s)
    ensures Base(s.(stream := Ack(s.stream, id)))
    ensures forall k :: k != id && Live(s.stream, k) ==>
              Live(Ack(s.stream, id), k) && Ack(s.stream, id).entries[k] == s.stream.entries[k]
  {
    var t := s.(stream := Ack(s.stream, id));
    assert SlotsPointHome(t);
  }

  /** Only the released job can lose its entry. */
  lemma ReleaseKeeps(s: State, w: WorkerId, j: JobId)
    requires Base(s) && w in s.conns
    ensures var t := Release(s, w, j);
            && Base(t) && t == s.(stream := t.stream, conns := t.conns, pool := t.pool)
            && forall k :: k != j && Accounted(s, k) ==> Accounted(t, k)
  {
    var t := Release(s, w, j);
    var active := s.conns[w].active;
    if j in active {
      AckBase(s, active[j]);
      UnassignBase(s.(stream := Ack(s.stream, active[j])), w, j);
    } else {
      UnassignBase(s, w, j);
    }
    forall k | k != j && Accounted(s, k) ensures Accounted(t, k) {
      if Queued(s, k) {
        var id :| Live(s.stream, id) && EntryJob(s.stream.entries[id]) == k;
        assert j in active ==> id != active[j];
        assert Live(t.stream, id) && EntryJob(t.stream.entries[id]) == k;
      } else if Firing(s, k) {
        var i :| 0 <= i < |s.firing| && s.firing[i].jobId == k;
        assert t.firing[i].jobId == k;
      } else if Finished(s, k) {
        assert t.tokens == s.tokens;
      }
    }
  }

  lemma FiringGrows(s: State, t: State, c: Continuation, k: JobId)
    requires Firing(s, k) && (t.firing == s.firing || t.firing == s.firing + [c])
    ensures Firing(t, k)
  {
    var i :| 0 <= i < |s.firing| && s.firing[i].jobId == k;
    assert t.firing[i].jobId == k;
  }

  lemma RecordedKeyed(s: State, parent: JobId, c: Continuation)
    requires ContsKeyed(s) && c.jobId == parent && c.remaining > 0
    ensures ContsKeyed(s.(conts := s.conts[parent := c]))
  {
  }

  lemma FiredOne(s: State, parent: JobId, c: Continuation)
    requires ContsKeyed(s) && c.jobId == parent
    ensures var t := s.(conts := s.conts - {parent}, firing := s.firing + [c]);
            ContsKeyed(t) && forall k :: k in s.conts || Firing(s, k) ==> k in t.conts || Firing(t, k)
  {
    var t := s.(conts := s.conts - {parent}, firing := s.firing + [c]);
    forall k | k in s.conts || Firing(s, k) ensures k in t.conts || Firing(t, k) {
      if Firing(s, k) {
        FiringGrows(s, t, c, k);
      } else if k == parent {
        assert t.firing[|s.firing|].jobId == k;
      }
    }
  }

  lemma SameFiring(s: State, conts: map<JobId, Continuation>)
    ensures forall k :: Firing(s, k) <==> Firing(s.(conts := conts), k)
  {
  }

  /** Recording a result parks or fires, but never forgets. */
  lemma RecordKeeps(s: State, parent: JobId, callId: CallId, r: ToolResult)
    requires ContsKeyed(s)
    ensures var t := RecordToolResult(s, parent, callId, r);
            && t == s.(conts := t.conts, firing := t.firing) && ContsKeyed(t)
            && forall k :: k in s.conts || Firing(s, k) ==> k in t.conts || Firing(t, k)
  {
    if parent in s.conts && callId in s.conts[parent].results {
      RecordShape(s, parent, callId, r);
      var c := Record(s.conts[parent], callId, r);
      assert c.jobId == parent;
      hide RecordToolResult;
      hide Firing;
      hide ContsKeyed;
      if c.remaining > 0 {
        RecordedKeyed(s, parent, c);
        SameFiring(s, s.conts[parent := c]);
      } else {
        FiredOne(s, parent, c);
      }
    }
  }

  lemma {:induction false} DispatchCallsKeeps(
      s: State, j: JobId, calls: seq<ToolCall>, ts: seq<ToolJobId>, ok: seq<bool>)
    requires |ts| == |calls| == |ok| && ContsKeyed(s)
    ensures var t := DispatchCalls(s, j, calls, ts, ok);
            && t == s.(refs := t.refs, conts := t.conts, firing := t.firing) && ContsKeyed(t)
            && forall k :: k in s.conts || Firing(s, k) ==> k in t.conts || Firing(t, k)
    decreases |calls|
  {
    if calls != [] {
      var s1 := s.(refs := s.refs[ts[0] := ToolRef(j, calls[0].id)]);
      var r := ToolResult(calls[0].name, NoOutput, [], DISPATCH_FAILURE);
      RecordKeeps(s1, j, calls[0].id, r);
      var s2 := if ok[0] then s1 else RecordToolResult(s1, j, calls[0].id, r);
      forall k | k in s.conts || Firing(s, k) ensures k in s1.conts || Firing(s1, k) {
        if Firing(s, k) {
          var i :| 0 <= i < |s.firing| && s.firing[i].jobId == k;
          assert s1.firing[i].jobId == k;
        }
      }
      DispatchCallsKeeps(s2, j, calls[1..], ts[1..], ok[1..]);
    }
  }

  /** Changes outside queue, connections, tokens and pool keep track as long as they keep what is parked. */
  lemma ParkedKeeps(s: State, t: State)
    requires Base(s) && ContsKeyed(t)
    requires t == s.(refs := t.refs, conts := t.conts, firing := t.firing, contexts := t.contexts)
    requires forall k :: k in s.conts || Firing(s, k) ==> k in t.conts || Firing(t, k)
    ensures Base(t) && KeepsTrack(s, t)
  {
    forall k | Accounted(s, k) ensures Accounted(t, k) {
      if Queued(s, k) {
        var id :| Live(s.stream, id) && EntryJob(s.stream.entries[id]) == k;
        assert Live(t.stream, id);
      } else if Finished(s, k) {
        var x :| x in Events(s.tokens, k) && x.Terminal();
        assert x in Events(t.tokens, k);
      }
    }
  }

  /** A queue that still has every live entry keeps track of every job. */
  lemma QueueKeeps(s: State, t: State)
    requires t == s.(stream := t.stream, conns := t.conns, pool := t.pool, heartbeats := t.heartbeats,
                     contexts := t.contexts, toolsWorkers := t.toolsWorkers)
    requires forall id :: Live(s.stream, id) ==> Live(t.stream, id) && t.stream.entries[id] == s.stream.entries[id]
    ensures KeepsTrack(s, t)
  {
    forall k | Accounted(s, k) ensures Accounted(t, k) {
      if Queued(s, k) {
        var id :| Live(s.stream, id) && EntryJob(s.stream.entries[id]) == k;
        assert Live(t.stream, id) && EntryJob(t.stream.entries[id]) == k;
      } else if Firing(s, k) {
        var i :| 0 <= i < |s.firing| && s.firing[i].jobId == k;
        assert t.firing[i].jobId == k;
      } else if Finished(s, k) {
        var x :| x in Events(s.tokens, k) && x.Terminal();
        assert x in Events(t.tokens, k);
      }
    }
  }
}
