/** Answer bookkeeping over runs (internal/router/toolshandler.go): exact counts, rounds fire on the last answer. */
module RouterTools {
  import opened Prelude
  import opened Protocol
  import opened JobStream
  import opened Continuations
  import opened Router
  import opened RouterBasics

  ghost predicate Reachable(refs: map<ToolJobId, ToolRef>, j: JobId, callId: CallId) {
    exists t :: t in refs && refs[t] == ToolRef(j, callId)
  }

  /** Parked: an exact count of open calls, at least one of them, each with a tool job leading back to it. */
  ghost predicate Waiting(refs: map<ToolJobId, ToolRef>, c: Continuation) {
    && Exact(c) && c.remaining > 0
    && forall id :: id in Unanswered(c) ==> Reachable(refs, c.jobId, id)
  }

  ghost predicate Answered(c: Continuation) {
    Exact(c) && Unanswered(c) == {}
  }

  ghost predicate AllWaiting(conts: map<JobId, Continuation>, refs: map<ToolJobId, ToolRef>) {
    forall j :: j in conts ==> conts[j].jobId == j && Waiting(refs, conts[j])
  }

  ghost predicate AllAnswered(firing: seq<Continuation>) {
    forall i :: 0 <= i < |firing| ==> Answered(firing[i])
  }

  ghost predicate Books(s: State) {
    AllWaiting(s.conts, s.refs) && AllAnswered(s.firing)
  }

  ghost predicate Open(s: State, parent: JobId, callId: CallId) {
    parent in s.conts && callId in s.conts[parent].results ==> s.conts[parent].results[callId].None?
  }

  /** Forgetting tool job t, a result for another call leaves t's own open call with no tool job leading to it. */
  ghost predicate Strands(s: State, t: ToolJobId, parent: JobId, callId: CallId) {
    && t in s.refs && s.refs[t] != ToolRef(parent, callId) && s.refs[t].parent in s.conts
    && s.refs[t].callId in Unanswered(s.conts[s.refs[t].parent])
    && !Reachable(s.refs - {t}, s.refs[t].parent, s.refs[t].callId)
  }

  /**
   Distinct call ids in every completion; no answer to a call that already has one; and no result message that names
   another call than its tool job's own, if that strands the own call. A tool worker that copies its job's parent and
   call ids into its message never does.
   */
  ghost predicate AnswersOnce(s: State, step: Step) {
    match step
    case Complete(_, m, _, _) => DistinctIds(m.toolCalls)
    case ToolResultMsg(t, parent, callId, _) => Open(s, parent, callId) && !Strands(s, t, parent, callId)
    case ToolErrorMsg(t, _) => t in s.refs ==> Open(s, s.refs[t].parent, s.refs[t].callId)
    case _ => true
  }

  /** The round fires precisely when the answer at hand closes the last open call. */
  lemma FiresExactlyOnLast(s: State, parent: JobId, callId: CallId, r: ToolResult)
    requires parent in s.conts && Exact(s.conts[parent]) && callId in s.conts[parent].results
    requires s.conts[parent].results[callId].None?
    ensures var t := RecordToolResult(s, parent, callId, r);
            && (Unanswered(s.conts[parent]) == {callId} <==> parent !in t.conts)
            && (parent !in t.conts ==> t.firing == s.firing + [Record(s.conts[parent], callId, r)])
            && (parent in t.conts ==> t.firing == s.firing && Exact(t.conts[parent]) && t.conts[parent].remaining > 0)
  {
    var c := s.conts[parent];
    RecordExactIff(c, callId, r);
    assert Unanswered(c) == {callId} <==> Unanswered(Record(c, callId, r)) == {};
  }

  /** Forgetting a tool job is harmless to every continuation that has another one for the same open call. */
  lemma FewerRefs(refs: map<ToolJobId, ToolRef>, t: ToolJobId, c: Continuation)
    requires Waiting(refs, c)
    requires (t in refs && refs[t].parent == c.jobId && refs[t].callId in Unanswered(c)) ==>
               Reachable(refs - {t}, c.jobId, refs[t].callId)
    ensures Waiting(refs - {t}, c)
  {
    forall id | id in Unanswered(c) ensures Reachable(refs - {t}, c.jobId, id) {
      var x :| x in refs && refs[x] == ToolRef(c.jobId, id);
      assert x != t ==> x in refs - {t};
    }
  }

  /** After the answer, the calls still open are reachable without the tool job that answered. */
  lemma AnsweredRef(refs: map<ToolJobId, ToolRef>, t: ToolJobId, c: Continuation, callId: CallId, r: ToolResult)
    requires Waiting(refs, c) && callId in c.results && c.results[callId].None?
    requires (t in refs && refs[t].parent == c.jobId && refs[t].callId != callId && refs[t].callId in Unanswered(c)) ==>
               Reachable(refs - {t}, c.jobId, refs[t].callId)
    ensures var c' := Record(c, callId, r);
            Exact(c') && if c'.remaining > 0 then Waiting(refs - {t}, c') else Answered(c')
  {
    var c' := Record(c, callId, r);
    RecordExactIff(c, callId, r);
    forall id | id in Unanswered(c') ensures Reachable(refs - {t}, c.jobId, id) {
      assert id in Unanswered(c);
      var x :| x in refs && refs[x] == ToolRef(c.jobId, id);
      assert x != t ==> x in refs - {t};
    }
  }

  /** Everybody but the answered continuation keeps waiting without the tool job that answered. */
  lemma OthersKeepWaiting(s: State, t: ToolJobId, parent: JobId, callId: CallId)
    requires Books(s) && Open(s, parent, callId) && !Strands(s, t, parent, callId)
    ensures AllWaiting(s.conts - {parent}, s.refs - {t})
    ensures (parent in s.conts ==> callId !in s.conts[parent].results) ==> AllWaiting(s.conts, s.refs - {t})
  {
    forall j | j in s.conts && (j != parent || callId !in s.conts[j].results)
      ensures Waiting(s.refs - {t}, s.conts[j])
    {
      FewerRefs(s.refs, t, s.conts[j]);
    }
  }

  lemma AnsweredAppend(firing: seq<Continuation>, c: Continuation)
    requires AllAnswered(firing) && Answered(c)
    ensures AllAnswered(firing + [c])
  {
  }

  lemma WaitingUpdate(conts: map<JobId, Continuation>, refs: map<ToolJobId, ToolRef>, c: Continuation)
    requires AllWaiting(conts - {c.jobId}, refs) && Waiting(refs, c)
    ensures AllWaiting(conts[c.jobId := c], refs)
  {
    forall j | j in conts[c.jobId := c] && j != c.jobId ensures conts[j].jobId == j && Waiting(refs, conts[j]) {
      assert j in conts - {c.jobId};
    }
  }

  lemma RecordBooks(s: State, t: ToolJobId, parent: JobId, callId: CallId, r: ToolResult)
    requires Books(s) && Open(s, parent, callId) && !Strands(s, t, parent, callId)
    ensures Books(HandleToolResult(s, t, parent, callId, r))
  {
    var refs := s.refs - {t};
    var u := HandleToolResult(s, t, parent, callId, r);
    OthersKeepWaiting(s, t, parent, callId);
    if parent in s.conts && callId in s.conts[parent].results {
      var c := Record(s.conts[parent], callId, r);
      AnsweredRef(s.refs, t, s.conts[parent], callId, r);
      if c.remaining > 0 {
        assert u == s.(refs := refs, conts := s.conts[parent := c]);
        WaitingUpdate(s.conts, refs, c);
      } else {
        assert u == s.(refs := refs, conts := s.conts - {parent}, firing := s.firing + [c]);
        AnsweredAppend(s.firing, c);
      }
    } else {
      assert u == s.(refs := refs);
    }
  }

  lemma SecondAnswerBreaks(s: State, t: ToolJobId, parent: JobId, callId: CallId, r: ToolResult)
    requires Books(s) && !Open(s, parent, callId)
    ensures !Books(HandleToolResult(s, t, parent, callId, r))
  {
    var c := Record(s.conts[parent], callId, r);
    var u := HandleToolResult(s, t, parent, callId, r);
    RecordExactIff(s.conts[parent], callId, r);
    assert !Exact(c);
    if c.remaining > 0 {
      assert parent in u.conts && u.conts[parent] == c;
    } else {
      assert u.firing[|s.firing|] == c;
    }
  }

  lemma OtherStaysOpen(c: Continuation, callId: CallId, id: CallId, r: ToolResult)
    requires Exact(c) && id in Unanswered(c) && id != callId && (callId in c.results ==> c.results[callId].None?)
    ensures var c' := Record(c, callId, r); c'.remaining > 0 && id in Unanswered(c') && c'.jobId == c.jobId
  {
    if callId in c.results {
      RecordExactIff(c, callId, r);
      NotEmpty(Unanswered(Record(c, callId, r)), id);
    } else {
      NotEmpty(Unanswered(c), id);
    }
  }

  lemma NotEmpty<T>(xs: set<T>, x: T)
    requires x in xs
    ensures |xs| > 0
  {
  }

  /** What a result message leaves of a parked job: the answered one updated, while it has open calls; others alone. */
  lemma AfterResult(s: State, t: ToolJobId, parent: JobId, callId: CallId, r: ToolResult, p: JobId)
    requires p in s.conts && (p == parent ==> Record(s.conts[p], callId, r).remaining > 0)
    ensures var u := HandleToolResult(s, t, parent, callId, r);
            && u.refs == s.refs - {t} && p in u.conts
            && u.conts[p] == if p == parent then Record(s.conts[p], callId, r) else s.conts[p]
  {
    var s1 := s.(refs := s.refs - {t});
    if parent in s.conts && callId in s.conts[parent].results {
      hide RecordToolResult;
      hide Record;
      RecordShape(s1, parent, callId, r);
    } else {
      hide Record;
      assert RecordToolResult(s1, parent, callId, r) == s1;
      UnknownCall(s.conts, parent, callId, r);
    }
  }

  lemma UnknownCall(conts: map<JobId, Continuation>, parent: JobId, callId: CallId, r: ToolResult)
    ensures parent in conts && callId !in conts[parent].results ==> Record(conts[parent], callId, r) == conts[parent]
  {
  }

  lemma StrandingBreaks(s: State, t: ToolJobId, parent: JobId, callId: CallId, r: ToolResult)
    requires Books(s) && Open(s, parent, callId) && Strands(s, t, parent, callId)
    ensures !Books(HandleToolResult(s, t, parent, callId, r))
  {
    var p, id := s.refs[t].parent, s.refs[t].callId;
    assert s.conts[p].jobId == p && Waiting(s.refs, s.conts[p]);
    if p == parent {
      OtherStaysOpen(s.conts[p], callId, id, r);
    }
    hide Record;
    hide Exact;
    hide Unanswered;
    hide HandleToolResult;
    AfterResult(s, t, parent, callId, r, p);
  }

  /** A result message keeps the books exactly if its call is not answered yet and its tool job's own call is not stranded. */
  lemma ResultKeepsBooksIff(s: State, t: ToolJobId, parent: JobId, callId: CallId, r: ToolResult)
    requires Books(s)
    ensures Books(HandleToolResult(s, t, parent, callId, r)) <==>
              Open(s, parent, callId) && !Strands(s, t, parent, callId)
  {
    hide HandleToolResult;
    if !Open(s, parent, callId) {
      SecondAnswerBreaks(s, t, parent, callId, r);
    } else if Strands(s, t, parent, callId) {
      StrandingBreaks(s, t, parent, callId, r);
    } else {
      RecordBooks(s, t, parent, callId, r);
    }
  }

  lemma MoreRefs(refs: map<ToolJobId, ToolRef>, t: ToolJobId, r: ToolRef)
    requires t !in refs
    ensures forall j, id :: Reachable(refs, j, id) ==> Reachable(refs[t := r], j, id)
    ensures forall c :: Waiting(refs, c) ==> Waiting(refs[t := r], c)
    ensures Reachable(refs[t := r], r.parent, r.callId)
  {
    assert refs[t := r][t] == r;
    forall j, id | Reachable(refs, j, id) ensures Reachable(refs[t := r], j, id) {
      var x :| x in refs && refs[x] == ToolRef(j, id);
      assert refs[t := r][x] == ToolRef(j, id);
    }
  }

  /** Midway through sending a round's calls: those before position i have a tool job or an answer, the rest neither. */
  ghost predicate Sending(refs: map<ToolJobId, ToolRef>, c: Continuation, all: seq<ToolCall>, i: nat) {
    && i <= |all| && DistinctIds(all) && Exact(c) && c.results.Keys == CallIds(all)
    && (forall n :: i <= n < |all| ==> c.results[all[n].id].None?)
    && (forall n :: 0 <= n < i && c.results[all[n].id].None? ==> Reachable(refs, c.jobId, all[n].id))
  }

  lemma SendOne(refs: map<ToolJobId, ToolRef>, c: Continuation, all: seq<ToolCall>, i: nat, t: ToolJobId, r: ToolResult)
    requires i < |all| && Sending(refs, c, all, i) && t !in refs
    ensures var refs' := refs[t := ToolRef(c.jobId, all[i].id)];
            Sending(refs', c, all, i + 1) && Sending(refs', Record(c, all[i].id, r), all, i + 1)
    ensures c.remaining > 0
  {
    MoreRefs(refs, t, ToolRef(c.jobId, all[i].id));
    assert all[i].id in CallIds(all);
    assert all[i].id in Unanswered(c);
    RecordExactIff(c, all[i].id, r);
  }

  lemma SentAll(refs: map<ToolJobId, ToolRef>, c: Continuation, all: seq<ToolCall>)
    requires Sending(refs, c, all, |all|)
    ensures if c.remaining > 0 then Waiting(refs, c) else Answered(c)
  {
    forall id | id in Unanswered(c) ensures Reachable(refs, c.jobId, id) {
      assert id in CallIds(all);
      var n :| 0 <= n < |all| && all[n].id == id;
    }
  }

  lemma ConstsRekeyed(conts: map<JobId, Continuation>, refs: map<ToolJobId, ToolRef>, c: Continuation)
    requires AllWaiting(conts - {c.jobId}, refs) && Waiting(refs, c)
    requires c.jobId in conts && conts[c.jobId] == c
    ensures AllWaiting(conts, refs)
  {
    forall j | j in conts ensures conts[j].jobId == j && Waiting(refs, conts[j]) {
      assert j != c.jobId ==> j in conts - {c.jobId};
    }
  }

  lemma MoreRefsAll(conts: map<JobId, Continuation>, refs: map<ToolJobId, ToolRef>, t: ToolJobId, r: ToolRef)
    requires AllWaiting(conts, refs) && t !in refs
    ensures AllWaiting(conts, refs[t := r])
  {
    MoreRefs(refs, t, r);
  }

  /** The whole state midway through sending c's calls; once c has fired, nothing is left to send. */
  ghost predicate Midway(s: State, c: Continuation, all: seq<ToolCall>, i: nat) {
    && i <= |all| && Sending(s.refs, c, all, i) && AllWaiting(s.conts - {c.jobId}, s.refs)
    && if c.remaining > 0 then c.jobId in s.conts && s.conts[c.jobId] == c && AllAnswered(s.firing)
       else i == |all| && Books(s)
  }

  lemma MidwayDone(s: State, c: Continuation, all: seq<ToolCall>)
    requires Midway(s, c, all, |all|)
    ensures Books(s)
  {
    SentAll(s.refs, c, all);
    if c.remaining > 0 {
      ConstsRekeyed(s.conts, s.refs, c);
    }
  }

  lemma MidwaySent(s: State, c: Continuation, all: seq<ToolCall>, i: nat, t: ToolJobId)
    requires i < |all| && Midway(s, c, all, i) && t !in s.refs
    ensures Midway(s.(refs := s.refs[t := ToolRef(c.jobId, all[i].id)]), c, all, i + 1)
  {
    SendOne(s.refs, c, all, i, t, ToolResult("", NoOutput, [], ""));
    MoreRefsAll(s.conts - {c.jobId}, s.refs, t, ToolRef(c.jobId, all[i].id));
  }

  lemma MidwayFailed(s: State, c: Continuation, all: seq<ToolCall>, i: nat, t: ToolJobId, r: ToolResult)
    requires i < |all| && Midway(s, c, all, i) && t !in s.refs
    ensures var s1 := s.(refs := s.refs[t := ToolRef(c.jobId, all[i].id)]);
            Midway(RecordToolResult(s1, c.jobId, all[i].id, r), Record(c, all[i].id, r), all, i + 1)
  {
    var s1 := s.(refs := s.refs[t := ToolRef(c.jobId, all[i].id)]);
    SendOne(s.refs, c, all, i, t, r);
    MoreRefsAll(s.conts - {c.jobId}, s.refs, t, ToolRef(c.jobId, all[i].id));
    assert all[i].id in CallIds(all) && all[i].id in c.results;
    hide Sending;
    hide AllWaiting;
    hide AllAnswered;
    hide Books;
    hide RecordToolResult;
    if Record(c, all[i].id, r).remaining <= 0 {
      LastCall(s1.refs, Record(c, all[i].id, r), all, i + 1);
    }
    AfterFailedCall(s1, c, all[i].id, r);
  }

  lemma {:induction false} DispatchBooks(
      s: State, c: Continuation, all: seq<ToolCall>, i: nat, ts: seq<ToolJobId>, ok: seq<bool>)
    requires i <= |all| && |ts| == |all| - i == |ok| && FreshToolJobs(s, ts) && Midway(s, c, all, i)
    ensures Books(DispatchCalls(s, c.jobId, all[i..], ts, ok))
    decreases |all| - i
  {
    hide Midway;
    hide Books;
    hide Record;
    if i == |all| {
      MidwayDone(s, c, all);
    } else {
      var call := all[i];
      var r := ToolResult(call.name, NoOutput, [], DISPATCH_FAILURE);
      var s1 := s.(refs := s.refs[ts[0] := ToolRef(c.jobId, call.id)]);
      assert all[i..][1..] == all[i + 1..] && all[i..][0] == call;
      if ok[0] {
        MidwaySent(s, c, all, i, ts[0]);
        DispatchBooks(s1, c, all, i + 1, ts[1..], ok[1..]);
      } else {
        MidwayFailed(s, c, all, i, ts[0], r);
        RecordLeavesRefs(s1, c, call.id, r);
        DispatchBooks(RecordToolResult(s1, c.jobId, call.id, r), Record(c, call.id, r), all, i + 1, ts[1..], ok[1..]);
      }
    }
  }

  lemma RecordLeavesRefs(s: State, c: Continuation, callId: CallId, r: ToolResult)
    ensures RecordToolResult(s, c.jobId, callId, r).refs == s.refs && Record(c, callId, r).jobId == c.jobId
  {
    if c.jobId in s.conts && callId in s.conts[c.jobId].results {
      hide RecordToolResult;
      RecordShape(s, c.jobId, callId, r);
    }
  }

  lemma StillOpen(refs: map<ToolJobId, ToolRef>, c: Continuation, all: seq<ToolCall>, i: nat)
    requires Sending(refs, c, all, i)
    ensures i < |all| ==> c.remaining > 0
  {
    if i < |all| {
      assert all[i].id in CallIds(all);
      assert all[i].id in Unanswered(c);
    }
  }

  lemma LastCall(refs: map<ToolJobId, ToolRef>, c: Continuation, all: seq<ToolCall>, i: nat)
    requires Sending(refs, c, all, i) && c.remaining <= 0
    ensures i == |all| && Answered(c)
  {
    StillOpen(refs, c, all, i);
  }

  /** A call that could not be sent is answered with an error, which may fire the round if it was the last call. */
  lemma AfterFailedCall(s: State, c: Continuation, callId: CallId, r: ToolResult)
    requires AllWaiting(s.conts - {c.jobId}, s.refs) && AllAnswered(s.firing)
    requires c.jobId in s.conts && s.conts[c.jobId] == c && callId in c.results
    requires var c' := Record(c, callId, r); c'.remaining > 0 || Answered(c')
    ensures var c' := Record(c, callId, r);
            var t := RecordToolResult(s, c.jobId, callId, r);
            && t.refs == s.refs && AllWaiting(t.conts - {c.jobId}, t.refs) && AllAnswered(t.firing)
            && if c'.remaining > 0 then c.jobId in t.conts && t.conts[c.jobId] == c' else Books(t)
  {
    var c' := Record(c, callId, r);
    var t := RecordToolResult(s, c.jobId, callId, r);
    RecordShape(s, c.jobId, callId, r);
    assert t.conts - {c.jobId} == s.conts - {c.jobId};
    if c'.remaining <= 0 {
      AnsweredAppend(s.firing, c');
      assert t.conts == s.conts - {c.jobId};
    }
  }

  lemma ContinueBooks(s: State, m: CompleteMessage, ts: seq<ToolJobId>, ok: seq<bool>)
    requires Books(s) && |ts| == |m.toolCalls| == |ok| && FreshToolJobs(s, ts) && DistinctIds(m.toolCalls)
    requires m.jobId in s.contexts && m.toolCalls != []
    ensures Books(StartContinuation(s, m, ts, ok))
  {
    var c := Park(s.contexts[m.jobId], m);
    ParkExactIff(s.contexts[m.jobId], m);
    assert m.toolCalls[0..] == m.toolCalls;
    var parked := s.(conts := s.conts[m.jobId := c]);
    assert parked.conts - {m.jobId} == s.conts - {m.jobId};
    assert Sending(s.refs, c, m.toolCalls, 0) by {
      forall n | 0 <= n < |m.toolCalls| ensures c.results[m.toolCalls[n].id].None? {
        assert m.toolCalls[n].id in CallIds(m.toolCalls);
      }
    }
    DispatchBooks(parked, c, m.toolCalls, 0, ts, ok);
  }

  lemma CompleteBooks(cfg: Config, s: State, w: WorkerId, m: CompleteMessage, ts: seq<ToolJobId>, ok: seq<bool>)
    requires Books(s) && w in s.conns && |ts| == |m.toolCalls| == |ok| && FreshToolJobs(s, ts) && DistinctIds(m.toolCalls)
    ensures Books(HandleComplete(cfg, s, w, m, ts, ok))
  {
    var s1 := Release(s, w, m.jobId);
    ReleaseLeavesTools(s, w, m.jobId);
    if CanContinue(cfg, s1, m) {
      ContinueBooks(s1, m, ts, ok);
    }
  }

  lemma ReleaseLeavesTools(s: State, w: WorkerId, j: JobId)
    requires w in s.conns
    ensures var t := Release(s, w, j); t.conts == s.conts && t.firing == s.firing && t.refs == s.refs
  {
  }

  lemma DispatchLeavesTools(cfg: Config, s: State, w: WorkerId, id: EntryId, ok: bool)
    requires w in s.conns && id in s.stream.entries
    ensures var t := Dispatch(cfg, s, w, id, ok).0; t.conts == s.conts && t.firing == s.firing && t.refs == s.refs
  {
    if s.stream.entries[id].Job? {
      DispatchShape(cfg, s, w, id, ok);
    }
  }

  lemma {:induction false} FiringRemovedBooks(firing: seq<Continuation>, i: nat)
    requires AllAnswered(firing) && i < |firing|
    ensures AllAnswered(RemoveAt(firing, i))
  {
    forall n | 0 <= n < |firing| - 1 ensures Answered(RemoveAt(firing, i)[n]) {
      assert RemoveAt(firing, i)[n] == firing[if n < i then n else n + 1];
    }
  }

  predicate TouchesTools(step: Step) {
    step.Complete? || step.ToolResultMsg? || step.ToolErrorMsg? || step.RunContinuation?
  }

  lemma OtherStepsLeaveTools(cfg: Config, s: State, step: Step)
    requires Enabled(cfg, s, step) && !TouchesTools(step)
    ensures var t := Next(cfg, s, step); t.conts == s.conts && t.firing == s.firing && t.refs == s.refs
  {
    match step {
      case Expire(w, j) => ReleaseLeavesTools(s, w, j);
      case DispatchPending(w, id, ok) => DispatchLeavesTools(cfg, s, w, id, ok);
      case ReadNew(w, id, ok) => DispatchLeavesTools(cfg, s.(stream := Deliver(s.stream, w, id)), w, id, ok);
      case WorkerError(w, j, r) => ReleaseLeavesTools(s.(tokens := Publish(s.tokens, j, Failed(r))), w, j);
      case _ =>
    }
  }

  lemma ToolErrorBooks(s: State, t: ToolJobId, reason: string)
    requires Books(s) && (t != "" && t in s.refs ==> Open(s, s.refs[t].parent, s.refs[t].callId))
    ensures Books(HandleToolError(s, t, reason))
  {
    if t != "" && t in s.refs {
      RecordBooks(s, t, s.refs[t].parent, s.refs[t].callId, ToolResult("", NoOutput, [], reason));
    }
  }

  lemma RoundBooks(s: State, i: nat, enqueued: bool)
    requires Books(s) && i < |s.firing|
    ensures Books(ContinueRound(s, i, enqueued))
  {
    FiringRemovedBooks(s.firing, i);
  }

  lemma StepBooks(cfg: Config, s: State, step: Step)
    requires Books(s) && Enabled(cfg, s, step) && AnswersOnce(s, step)
    ensures Books(Next(cfg, s, step))
  {
    if !TouchesTools(step) {
      OtherStepsLeaveTools(cfg, s, step);
    } else {
      hide ConnectWorker;
      hide HandleConfig;
      hide ExpireJob;
      hide Dispatch;
      hide HandleComplete;
      hide HandleWorkerError;
      hide HandleToolError;
      hide HandleToolResult;
      hide ContinueRound;
      hide Books;
      match step {
        case Complete(w, m, ts, ok) => CompleteBooks(cfg, s, w, m, ts, ok);
        case ToolResultMsg(tj, parent, callId, r) => RecordBooks(s, tj, parent, callId, r);
        case ToolErrorMsg(tj, reason) => ToolErrorBooks(s, tj, reason);
        case RunContinuation(i, ok) => RoundBooks(s, i, ok);
      }
    }
  }

  ghost predicate AnswersOnceRun(cfg: Config, states: seq<State>, steps: seq<Step>) {
    Run(cfg, states, steps) && forall i :: 0 <= i < |steps| ==> AnswersOnce(states[i], steps[i])
  }

  /**
   In every state of such a run, a parked job's `remaining` is the number of its open calls (and not zero), each of
   them still reachable through a tool job, and every round that fired has all its answers.
   */
  lemma {:induction false} RunBooks(cfg: Config, states: seq<State>, steps: seq<Step>, k: nat)
    requires AnswersOnceRun(cfg, states, steps) && k < |states|
    ensures Books(states[k])
  {
    if k > 0 {
      RunBooks(cfg, states, steps, k - 1);
      StepBooks(cfg, states[k - 1], steps[k - 1]);
    }
  }

  /** So no continuation round ever carries the "tool result missing" placeholder. */
  lemma RoundsAreComplete(cfg: Config, states: seq<State>, steps: seq<Step>, k: nat, i: nat, n: nat)
    requires AnswersOnceRun(cfg, states, steps) && k < |states| && i < |states[k].firing|
    requires n < |states[k].firing[i].assistant.toolCalls|
    ensures var c := states[k].firing[i];
            var id := c.assistant.toolCalls[n].id;
            && id in c.results && c.results[id].Some?
            && ToolMessage(c, c.assistant.toolCalls[n]) == ChatMessage(Tool, ResultContent(c.results[id].value), [], id)
  {
    RunBooks(cfg, states, steps, k);
    var c := states[k].firing[i];
    assert c.assistant.toolCalls[n].id in CallIds(c.assistant.toolCalls);
    assert c.assistant.toolCalls[n].id !in Unanswered(c);
  }
}
