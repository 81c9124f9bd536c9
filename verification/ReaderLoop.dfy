/** One turn of a worker's reader loop on values, and how it decomposes into the router's steps. */
module ReaderLoop {
  import opened Prelude
  import opened Protocol
  import opened JobStream
  import opened Redis
  import opened Router
  import opened RouterBasics
  import opened RouterSafety

  ghost function ExpireAll(s: State, w: WorkerId, jobs: seq<JobId>): State
    decreases |jobs|
  {
    if jobs == [] then s
    else
      ExpireAll(ExpireJobIf(s, w, jobs[0]), w, jobs[1..])
  }

  ghost function ExpireJobIf(s: State, w: WorkerId, j: JobId): State {
    if w in s.conns && j in s.conns[w].active then ExpireJob(s, w, j) else s
  }

  ghost function RetryAll(cfg: Config, s: State, w: WorkerId, ids: seq<EntryId>, sends: seq<bool>): State
    requires |ids| <= |sends|
  {
    if ids == [] then s
    else
      var n := |ids| - 1;
      var t := RetryAll(cfg, s, w, ids[..n], sends);
      if w in t.conns && ids[n] in t.stream.entries then Dispatch(cfg, t, w, ids[n], sends[n]).0 else t
  }

  lemma NextIsUnique(s: JobStream.Stream, id: EntryId)
    requires IsNext(s, id)
    ensures forall k :: IsNext(s, k) ==> k == id
  {
  }

  ghost function ReadNext(cfg: Config, s: State, w: WorkerId, send: bool): State
    requires w in s.conns
  {
    if id :| IsNext(s.stream, id) then Dispatch(cfg, s.(stream := Deliver(s.stream, w, id)), w, id, send).0 else s
  }

  ghost predicate PendingPage(s: State, w: WorkerId, stale: seq<JobId>, ids: seq<EntryId>) {
    w in s.conns && |s.conns[w].active| < s.conns[w].maxSlots ==>
      Elems(ids) == Smallest(Owned(ExpireAll(s, w, stale).stream, w), 10)
  }

  ghost function Turn(cfg: Config, s: State, w: WorkerId, stale: seq<JobId>, ids: seq<EntryId>, sends: seq<bool>): State
    requires 0 < |sends| && |ids| <= |sends|
  {
    if w !in s.conns || |s.conns[w].active| >= s.conns[w].maxSlots then s
    else TurnAfter(cfg, ExpireAll(s, w, stale), w, ids, sends)
  }

  ghost function TurnAfter(cfg: Config, s: State, w: WorkerId, ids: seq<EntryId>, sends: seq<bool>): State
    requires 0 < |sends| && |ids| <= |sends|
  {
    if ids != [] then RetryAll(cfg, s, w, ids, sends)
    else if w in s.conns then ReadNext(cfg, s, w, sends[0]) else s
  }

  lemma OccupyStream(s: State, w: WorkerId, j: JobId, id: EntryId, ok: bool)
    requires w in s.conns
    ensures Occupy(s, w, j, id, ok).0.stream == s.stream && Occupy(s, w, j, id, ok).0.conns.Keys == s.conns.Keys
  {
  }

  /** Dispatching touches the queue only to acknowledge a corrupt entry. */
  lemma DispatchStream(cfg: Config, s: State, w: WorkerId, id: EntryId, ok: bool)
    requires w in s.conns && id in s.stream.entries
    ensures Dispatch(cfg, s, w, id, ok).0.stream == if s.stream.entries[id].Corrupt? then Ack(s.stream, id) else s.stream
    ensures Dispatch(cfg, s, w, id, ok).0.conns.Keys == s.conns.Keys
  {
    match s.stream.entries[id]
    case Corrupt(_) =>
    case Job(entryJob, raw) =>
      var j := if raw.jobId == "" then entryJob else raw.jobId;
      OccupyStream(SaveContext(cfg, s, InjectTools(cfg, s, raw.(jobId := j))), w, j, id, ok);
  }

  // ---------------------------------------------------------------- a turn is a run of steps

  lemma {:induction false} ExpireAllIsPath(cfg: Config, s: State, w: WorkerId, jobs: seq<JobId>) returns (steps: seq<Step>)
    ensures Path(cfg, s, steps, ExpireAll(s, w, jobs))
    ensures forall x :: x in steps ==> x.Expire? && x.w == w
    decreases |jobs|
  {
    if jobs == [] {
      steps := [];
    } else {
      var j := jobs[0];
      var t := ExpireJobIf(s, w, j);
      var rest := ExpireAllIsPath(cfg, t, w, jobs[1..]);
      if w in s.conns && j in s.conns[w].active {
        steps := [Expire(w, j)] + rest;
        assert steps[1..] == rest;
      } else {
        steps := rest;
      }
    }
  }

  /** Retrying some entries leaves every other entry, and the set of connections, alone. */
  lemma {:induction false} RetryAllStream(cfg: Config, s: State, w: WorkerId, ids: seq<EntryId>, sends: seq<bool>)
    requires |ids| <= |sends|
    ensures var t := RetryAll(cfg, s, w, ids, sends);
            && t.conns.Keys == s.conns.Keys && t.stream.pel.Keys <= s.stream.pel.Keys
            && forall id :: id !in ids ==>
                 (id in s.stream.entries <==> id in t.stream.entries)
                 && (id in s.stream.pel <==> id in t.stream.pel)
                 && (id in s.stream.pel ==> t.stream.pel[id] == s.stream.pel[id])
  {
    if ids != [] {
      var n := |ids| - 1;
      var front := ids[..n];
      var t := RetryAll(cfg, s, w, front, sends);
      RetryAllStream(cfg, s, w, front, sends);
      if w in t.conns && ids[n] in t.stream.entries {
        DispatchStream(cfg, t, w, ids[n], sends[n]);
      }
      assert forall id :: id !in ids ==> id !in front;
    }
  }

  lemma {:induction false} RetryAllIsPath(cfg: Config, s: State, w: WorkerId, ids: seq<EntryId>, sends: seq<bool>)
    returns (steps: seq<Step>)
    requires |ids| <= |sends| && Distinct(ids) && forall id :: id in ids ==> id in Owned(s.stream, w)
    ensures Path(cfg, s, steps, RetryAll(cfg, s, w, ids, sends))
    ensures forall x :: x in steps ==> x.DispatchPending? && x.w == w
  {
    if ids == [] {
      steps := [];
    } else {
      var n := |ids| - 1;
      var front := ids[..n];
      var t := RetryAll(cfg, s, w, front, sends);
      steps := RetryAllIsPath(cfg, s, w, front, sends);
      RetryAllStream(cfg, s, w, front, sends);
      if w in t.conns && ids[n] in t.stream.entries {
        assert ids[n] in ids && ids[n] !in front;
        assert ids[n] in Owned(t.stream, w);
        PathSnoc(cfg, s, steps, t, DispatchPending(w, ids[n], sends[n]));
        steps := steps + [DispatchPending(w, ids[n], sends[n])];
      }
    }
  }

  /**
   Whatever a turn of the reader loop does is a run of expiries followed by either retries of pending entries or one
   read of a new entry; new entries are never read in a turn that found something pending.
   */
  lemma TurnIsPath(cfg: Config, s: State, w: WorkerId, stale: seq<JobId>, ids: seq<EntryId>, sends: seq<bool>)
    returns (steps: seq<Step>)
    requires 0 < |sends| && |ids| <= |sends| && Distinct(ids) && PendingPage(s, w, stale, ids)
    ensures Path(cfg, s, steps, Turn(cfg, s, w, stale, ids, sends))
    ensures forall x :: x in steps ==> x.Expire? || x.DispatchPending? || x.ReadNew?
    ensures ids != [] ==> forall x :: x in steps ==> !x.ReadNew?
  {
    if w !in s.conns || |s.conns[w].active| >= s.conns[w].maxSlots {
      steps := [];
    } else {
      var s1 := ExpireAll(s, w, stale);
      steps := ExpireAllIsPath(cfg, s, w, stale);
      if ids != [] {
        forall id | id in ids ensures id in Owned(s1.stream, w) {
          assert id in (set x | x in ids);
        }
        var more := RetryAllIsPath(cfg, s1, w, ids, sends);
        PathAppend(cfg, s, steps, s1, more, RetryAll(cfg, s1, w, ids, sends));
        steps := steps + more;
      } else if w in s1.conns {
        if id :| IsNext(s1.stream, id) {
          NextIsUnique(s1.stream, id);
          PathSnoc(cfg, s, steps, s1, ReadNew(w, id, sends[0]));
          steps := steps + [ReadNew(w, id, sends[0])];
        }
      }
    }
  }

  lemma {:induction false} PathKeeps(cfg: Config, s: State, steps: seq<Step>, t: State)
    requires Base(s) && Path(cfg, s, steps, t) && forall x :: x in steps ==> !x.SweepDead?
    ensures Base(t) && KeepsTrack(s, t)
    decreases |steps|
  {
    if steps != [] {
      assert steps[0] in steps;
      var u := Next(cfg, s, steps[0]);
      StepKeeps(cfg, s, steps[0]);
      PathKeeps(cfg, u, steps[1..], t);
      forall j | Accounted(s, j) ensures Accounted(t, j) {
        assert Accounted(u, j);
      }
    }
  }

  /** So a turn keeps the basic invariant and loses no job. */
  lemma TurnKeeps(cfg: Config, s: State, w: WorkerId, stale: seq<JobId>, ids: seq<EntryId>, sends: seq<bool>)
    requires Base(s) && 0 < |sends| && |ids| <= |sends| && Distinct(ids) && PendingPage(s, w, stale, ids)
    ensures var t := Turn(cfg, s, w, stale, ids, sends); Base(t) && KeepsTrack(s, t)
  {
    var steps := TurnIsPath(cfg, s, w, stale, ids, sends);
    PathKeeps(cfg, s, steps, Turn(cfg, s, w, stale, ids, sends));
  }
}
