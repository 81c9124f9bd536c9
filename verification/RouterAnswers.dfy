/** Where the tool messages of a queued round come from: each carries what one earlier step answered to its call. */
module RouterAnswers {
  import opened Protocol
  import opened JobStream
  import opened Continuations
  import opened Router
  import opened RouterBasics
  import opened RouterPlaces
  import opened RouterRuns
  import opened RouterTools

  /** The step completes job j with this assistant turn. */
  ghost predicate Asks(step: Step, j: JobId, assistant: ChatMessage) {
    && step.Complete? && step.complete.jobId == j
    && assistant == ChatMessage(Assistant, Text(step.complete.fullResponse), step.complete.toolCalls, "")
  }

  /** The step answers a call of job j: a result message, an error message, or a call that could not be sent. */
  ghost predicate Answers(s: State, step: Step, j: JobId, id: CallId, r: ToolResult) {
    match step
    case ToolResultMsg(_, parent, callId, result) => parent == j && callId == id && result == r
    case ToolErrorMsg(t, reason) =>
      t in s.refs && s.refs[t] == ToolRef(j, id) && r == ToolResult("", NoOutput, [], reason)
    case Complete(_, m, _, sent) => m.jobId == j && exists n :: FailedSend(m.toolCalls, sent, n, id, r)
    case _ => false
  }

  ghost predicate FailedSend(calls: seq<ToolCall>, sent: seq<bool>, n: nat, id: CallId, r: ToolResult) {
    && n < |calls| && n < |sent| && !sent[n] && calls[n].id == id
    && r == ToolResult(calls[n].name, NoOutput, [], DISPATCH_FAILURE)
  }

  ghost predicate Asked(steps: seq<Step>, k: nat, j: JobId, assistant: ChatMessage) {
    exists p :: 0 <= p < k && p < |steps| && Asks(steps[p], j, assistant)
  }

  /** Before step k, some step answered the call with r, and not before the turn that made the call. */
  ghost predicate Traced(states: seq<State>, steps: seq<Step>, k: nat, j: JobId, assistant: ChatMessage, id: CallId, r: ToolResult) {
    exists p, i :: 0 <= p <= i < k && i < |steps| && i < |states|
                   && Asks(steps[p], j, assistant) && Answers(states[i], steps[i], j, id, r)
  }

  ghost predicate ContTraced(states: seq<State>, steps: seq<Step>, k: nat, c: Continuation) {
    && Asked(steps, k, c.jobId, c.assistant)
    && forall id :: id in c.results && c.results[id].Some? ==>
         Traced(states, steps, k, c.jobId, c.assistant, id, c.results[id].value)
  }

  ghost predicate AllTraced(states: seq<State>, steps: seq<Step>, k: nat, conts: map<JobId, Continuation>, firing: seq<Continuation>) {
    && (forall j :: j in conts ==> conts[j].jobId == j && ContTraced(states, steps, k, conts[j]))
    && (forall n :: 0 <= n < |firing| ==> ContTraced(states, steps, k, firing[n]))
  }

  // ---------------------------------------------------------------- one step

  lemma LaterTraced(states: seq<State>, steps: seq<Step>, k: nat, c: Continuation)
    requires ContTraced(states, steps, k, c)
    ensures ContTraced(states, steps, k + 1, c)
  {
    forall id | id in c.results && c.results[id].Some?
      ensures Traced(states, steps, k + 1, c.jobId, c.assistant, id, c.results[id].value)
    {
      var p, i :| 0 <= p <= i < k && i < |steps| && i < |states|
                  && Asks(steps[p], c.jobId, c.assistant)
                  && Answers(states[i], steps[i], c.jobId, id, c.results[id].value);
    }
  }

  lemma LaterAllTraced(states: seq<State>, steps: seq<Step>, k: nat, conts: map<JobId, Continuation>, firing: seq<Continuation>)
    requires AllTraced(states, steps, k, conts, firing)
    ensures AllTraced(states, steps, k + 1, conts, firing)
  {
    hide ContTraced;
    forall j | j in conts ensures ContTraced(states, steps, k + 1, conts[j]) {
      LaterTraced(states, steps, k, conts[j]);
    }
    forall n | 0 <= n < |firing| ensures ContTraced(states, steps, k + 1, firing[n]) {
      LaterTraced(states, steps, k, firing[n]);
    }
  }

  /** Recording what step k answers. */
  lemma RecordTraced(states: seq<State>, steps: seq<Step>, k: nat, c: Continuation, id: CallId, r: ToolResult)
    requires k < |steps| && k < |states| && ContTraced(states, steps, k + 1, c)
    requires Answers(states[k], steps[k], c.jobId, id, r)
    ensures ContTraced(states, steps, k + 1, Record(c, id, r))
  {
    hide Answers;
    hide Asks;
    var p :| 0 <= p < k + 1 && p < |steps| && Asks(steps[p], c.jobId, c.assistant);
    assert Traced(states, steps, k + 1, c.jobId, c.assistant, id, r);
  }

  lemma RecordAllTraced(states: seq<State>, steps: seq<Step>, k: nat, s: State, parent: JobId, id: CallId, r: ToolResult)
    requires k < |steps| && k < |states| && AllTraced(states, steps, k + 1, s.conts, s.firing)
    requires Answers(states[k], steps[k], parent, id, r)
    ensures var t := RecordToolResult(s, parent, id, r); AllTraced(states, steps, k + 1, t.conts, t.firing)
  {
    hide ContTraced;
    if parent in s.conts && id in s.conts[parent].results {
      var c := Record(s.conts[parent], id, r);
      RecordTraced(states, steps, k, s.conts[parent], id, r);
      RecordShape(s, parent, id, r);
      hide RecordToolResult;
      assert c.jobId == parent;
    }
  }

  lemma {:induction false} SendsTraced(states: seq<State>, steps: seq<Step>, k: nat, s: State, off: nat,
                                       ts: seq<ToolJobId>, sent: seq<bool>)
    requires k < |steps| && k < |states| && steps[k].Complete? && off <= |steps[k].complete.toolCalls|
    requires |steps[k].sent| == |steps[k].complete.toolCalls| && sent == steps[k].sent[off..] && |ts| == |sent|
    requires AllTraced(states, steps, k + 1, s.conts, s.firing)
    ensures var t := DispatchCalls(s, steps[k].complete.jobId, steps[k].complete.toolCalls[off..], ts, sent);
            AllTraced(states, steps, k + 1, t.conts, t.firing)
    decreases |sent|
  {
    hide AllTraced;
    var m := steps[k].complete;
    if off < |m.toolCalls| {
      var call := m.toolCalls[off];
      var s1 := s.(refs := s.refs[ts[0] := ToolRef(m.jobId, call.id)]);
      var r := ToolResult(call.name, NoOutput, [], DISPATCH_FAILURE);
      assert m.toolCalls[off..][1..] == m.toolCalls[off + 1..] && sent[1..] == steps[k].sent[off + 1..];
      var s2 := if sent[0] then s1 else RecordToolResult(s1, m.jobId, call.id, r);
      if !sent[0] {
        assert FailedSend(m.toolCalls, steps[k].sent, off, call.id, r);
        RecordAllTraced(states, steps, k, s1, m.jobId, call.id, r);
      }
      hide RecordToolResult;
      SendsTraced(states, steps, k, s2, off + 1, ts[1..], sent[1..]);
    }
  }

  lemma ParkTraced(states: seq<State>, steps: seq<Step>, k: nat, ctx: JobContext,
                   conts: map<JobId, Continuation>, firing: seq<Continuation>)
    requires k < |steps| && steps[k].Complete? && AllTraced(states, steps, k + 1, conts, firing)
    ensures var m := steps[k].complete; AllTraced(states, steps, k + 1, conts[m.jobId := Park(ctx, m)], firing)
  {
    var m := steps[k].complete;
    var c := Park(ctx, m);
    assert Asks(steps[k], c.jobId, c.assistant) && ContTraced(states, steps, k + 1, c);
    hide ContTraced;
  }

  lemma CompleteTraced(cfg: Config, states: seq<State>, steps: seq<Step>, k: nat, s: State)
    requires k < |steps| && k < |states| && s == states[k] && steps[k].Complete? && Enabled(cfg, s, steps[k])
    requires AllTraced(states, steps, k, s.conts, s.firing)
    ensures var t := Next(cfg, s, steps[k]); AllTraced(states, steps, k + 1, t.conts, t.firing)
  {
    var w, m, ts, sent := steps[k].w, steps[k].complete, steps[k].toolJobs, steps[k].sent;
    assert Next(cfg, s, steps[k]) == HandleComplete(cfg, s, w, m, ts, sent);
    assert w in s.conns && |ts| == |m.toolCalls| == |sent|;
    assert m.toolCalls[0..] == m.toolCalls && sent[0..] == sent;
    hide *;
    var s1 := Release(s, w, m.jobId);
    ReleaseLeavesTools(s, w, m.jobId);
    LaterAllTraced(states, steps, k, s.conts, s.firing);
    CompleteShape(cfg, s, w, m, ts, sent);
    if CanContinue(cfg, s1, m) {
      var ctx := ContextOf(cfg, s1, m);
      ParkTraced(states, steps, k, ctx, s1.conts, s1.firing);
      SendsTraced(states, steps, k, s1.(conts := s1.conts[m.jobId := Park(ctx, m)]), 0, ts, sent);
    }
  }

  lemma ContextOf(cfg: Config, s: State, m: CompleteMessage) returns (ctx: JobContext)
    requires CanContinue(cfg, s, m)
    ensures m.jobId in s.contexts && ctx == s.contexts[m.jobId]
  {
    ctx := s.contexts[m.jobId];
  }

  lemma StepTraced(cfg: Config, states: seq<State>, steps: seq<Step>, k: nat)
    requires k < |steps| && k < |states| && Enabled(cfg, states[k], steps[k])
    requires AllTraced(states, steps, k, states[k].conts, states[k].firing)
    ensures var t := Next(cfg, states[k], steps[k]); AllTraced(states, steps, k + 1, t.conts, t.firing)
  {
    var s := states[k];
    LaterAllTraced(states, steps, k, s.conts, s.firing);
    hide ContTraced;
    if !TouchesTools(steps[k]) {
      hide AllTraced;
      OtherStepsLeaveTools(cfg, s, steps[k]);
    } else {
      match steps[k] {
        case Complete(_, _, _, _) =>
          hide AllTraced;
          CompleteTraced(cfg, states, steps, k, s);
        case ToolResultMsg(t, parent, id, r) =>
          hide AllTraced;
          RecordAllTraced(states, steps, k, s.(refs := s.refs - {t}), parent, id, r);
        case ToolErrorMsg(t, reason) =>
          if t != "" && t in s.refs {
            hide AllTraced;
            RecordAllTraced(states, steps, k, s.(refs := s.refs - {t}), s.refs[t].parent, s.refs[t].callId,
                            ToolResult("", NoOutput, [], reason));
          }
        case RunContinuation(_, _) =>
      }
    }
  }

  /** In every run, every stored answer was given by a step, and not before the turn that asked. */
  lemma {:induction false} RunTraced(cfg: Config, states: seq<State>, steps: seq<Step>, k: nat)
    requires Run(cfg, states, steps) && k < |states|
    ensures AllTraced(states, steps, k, states[k].conts, states[k].firing)
  {
    if k > 0 {
      RunTraced(cfg, states, steps, k - 1);
      StepTraced(cfg, states, steps, k - 1);
    }
  }

  // ---------------------------------------------------------------- rounds

  /** Each tool message of the round is the content of an answer some step gave to its call. */
  ghost predicate RoundTraced(states: seq<State>, steps: seq<Step>, k: nat, j: JobId, round: Round) {
    && |round.answers| == |round.assistant.toolCalls|
    && forall n :: 0 <= n < |round.answers| ==>
         MessageTraced(states, steps, k, j, round.assistant, round.assistant.toolCalls[n].id, round.answers[n])
  }

  ghost predicate MessageTraced(states: seq<State>, steps: seq<Step>, k: nat, j: JobId, assistant: ChatMessage,
                                id: CallId, message: ChatMessage) {
    exists r :: message == ChatMessage(Tool, ResultContent(r), [], id) && Traced(states, steps, k, j, assistant, id, r)
  }

  lemma LaterMessage(states: seq<State>, steps: seq<Step>, k: nat, j: JobId, assistant: ChatMessage, id: CallId,
                     message: ChatMessage)
    requires MessageTraced(states, steps, k, j, assistant, id, message)
    ensures MessageTraced(states, steps, k + 1, j, assistant, id, message)
  {
    var r :| message == ChatMessage(Tool, ResultContent(r), [], id) && Traced(states, steps, k, j, assistant, id, r);
    var p, i :| 0 <= p <= i < k && i < |steps| && i < |states|
                && Asks(steps[p], j, assistant) && Answers(states[i], steps[i], j, id, r);
    assert Traced(states, steps, k + 1, j, assistant, id, r);
  }

  lemma ClosedRoundTraced(cfg: Config, states: seq<State>, steps: seq<Step>, k: nat, n: nat)
    requires AnswersOnceRun(cfg, states, steps) && k < |states| && n < |states[k].firing|
    ensures RoundTraced(states, steps, k, states[k].firing[n].jobId, RoundOf(states[k].firing[n]))
  {
    var c := states[k].firing[n];
    RunTraced(cfg, states, steps, k);
    forall i | 0 <= i < |c.assistant.toolCalls|
      ensures MessageTraced(states, steps, k, c.jobId, c.assistant, c.assistant.toolCalls[i].id,
                            ToolMessage(c, c.assistant.toolCalls[i]))
    {
      hide Traced;
      RoundsAreComplete(cfg, states, steps, k, n, i);
      var id := c.assistant.toolCalls[i].id;
      assert Traced(states, steps, k, c.jobId, c.assistant, id, c.results[id].value);
    }
  }

  lemma {:induction false} HistoryTraced(cfg: Config, states: seq<State>, steps: seq<Step>, k: nat, j: JobId, i: nat)
    requires AnswersOnceRun(cfg, states, steps) && k < |states|
    requires i < |RoundsOf(HistoryAt(states, steps, k), j)|
    ensures RoundTraced(states, steps, k, j, RoundsOf(HistoryAt(states, steps, k), j)[i])
  {
    if k > 0 {
      hide AnswersOnceRun;
      var s, step, h := states[k - 1], steps[k - 1], HistoryAt(states, steps, k - 1);
      var round := RoundsOf(HistoryAt(states, steps, k), j)[i];
      if step.RunContinuation? && step.index < |s.firing| && s.firing[step.index].jobId == j && i == |RoundsOf(h, j)| {
        ClosedRoundTraced(cfg, states, steps, k - 1, step.index);
      } else {
        assert i < |RoundsOf(h, j)| && round == RoundsOf(h, j)[i];
        HistoryTraced(cfg, states, steps, k - 1, j, i);
      }
      hide MessageTraced;
      assert RoundTraced(states, steps, k - 1, j, round);
      forall n | 0 <= n < |round.answers|
        ensures MessageTraced(states, steps, k, j, round.assistant, round.assistant.toolCalls[n].id, round.answers[n])
      {
        LaterMessage(states, steps, k - 1, j, round.assistant, round.assistant.toolCalls[n].id, round.answers[n]);
      }
    }
  }

  /**
   What a worker is sent: the submitted messages followed, for each earlier round, by the assistant turn and, in call
   order, for each call the content of the result message, error message or failed send that answered it.
   */
  lemma QueuedAnswers(cfg: Config, states: seq<State>, steps: seq<Step>, k: nat, id: EntryId)
    requires DisciplinedRun(cfg, states, steps) && AnswersOnceRun(cfg, states, steps)
    requires k < |states| && id in states[k].stream.entries
    ensures var p, h := states[k].stream.entries[id], HistoryAt(states, steps, k);
            && p.Job? && p.msg.jobId in h.orig
            && p.msg.messages == Transcript(h.orig[p.msg.jobId], RoundsOf(h, p.msg.jobId))
            && forall i :: 0 <= i < |RoundsOf(h, p.msg.jobId)| ==>
                 RoundTraced(states, steps, k, p.msg.jobId, RoundsOf(h, p.msg.jobId)[i])
  {
    assert Run(cfg, states, steps);
    hide DisciplinedRun;
    hide AnswersOnceRun;
    hide RoundTraced;
    QueuedHistory(cfg, states, steps, k, id);
    var h, j := HistoryAt(states, steps, k), states[k].stream.entries[id].msg.jobId;
    forall i | 0 <= i < |RoundsOf(h, j)| ensures RoundTraced(states, steps, k, j, RoundsOf(h, j)[i]) {
      HistoryTraced(cfg, states, steps, k, j, i);
    }
  }
}
