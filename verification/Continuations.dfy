/**
 Tool continuations (internal/router/toolshandler.go): a job whose model turn ended in tool calls is parked
 until every call is answered, and is then sent again with the answers appended to its history.
 */
module Continuations {
  import opened Prelude
  import opened Protocol

  datatype ToolOutput = NoOutput | JsonString(text: string) | RawJson(text: string)

  datatype ToolResult = ToolResult(toolName: string, output: ToolOutput, images: seq<Image>, errMsg: string)

  datatype JobContext = JobContext(messages: seq<ChatMessage>, tools: seq<ToolDef>, params: Params, threadId: string)

  datatype Continuation = Continuation(
    jobId: JobId, ctx: JobContext, assistant: ChatMessage,
    results: map<CallId, Option<ToolResult>>, remaining: int)

  datatype Answer = Answer(callId: CallId, result: ToolResult)

  function CallIds(calls: seq<ToolCall>): set<CallId> {
    set i | 0 <= i < |calls| :: calls[i].id
  }

  ghost predicate DistinctIds(calls: seq<ToolCall>) {
    forall i, j :: 0 <= i < j < |calls| ==> calls[i].id != calls[j].id
  }

  function Park(ctx: JobContext, msg: CompleteMessage): Continuation {
    Continuation(msg.jobId, ctx,
                 ChatMessage(Assistant, Text(msg.fullResponse), msg.toolCalls, ""),
                 map id | id in CallIds(msg.toolCalls) :: None,
                 |msg.toolCalls|)
  }

  /** A result for an unknown call id is ignored; any other one is stored and counted. */
  function Record(c: Continuation, callId: CallId, result: ToolResult): Continuation {
    if callId !in c.results then c
    else c.(results := c.results[callId := Some(result)], remaining := c.remaining - 1)
  }

  ghost function RecordAll(c: Continuation, answers: seq<Answer>): Continuation {
    if answers == [] then c
    else
      var last := answers[|answers| - 1];
      Record(RecordAll(c, answers[..|answers| - 1]), last.callId, last.result)
  }

  function ResultContent(res: ToolResult): Content {
    var text :=
      if res.errMsg != "" then ErrorObject(res.errMsg)
      else match res.output
        case NoOutput => Text("")
        case JsonString(s) => Text(s)
        case RawJson(s) => Text(s);
    if res.images == [] then text else Multimodal(text, res.images)
  }

  function ToolMessage(c: Continuation, call: ToolCall): ChatMessage {
    var content :=
      if call.id in c.results && c.results[call.id].Some? then ResultContent(c.results[call.id].value)
      else ErrorObject("tool result missing");
    ChatMessage(Tool, content, [], call.id)
  }

  function ToolMessages(c: Continuation, calls: seq<ToolCall>): (r: seq<ChatMessage>)
    ensures |r| == |calls|
    ensures forall i :: 0 <= i < |calls| ==> r[i] == ToolMessage(c, calls[i])
  {
    seq(|calls|, i requires 0 <= i < |calls| => ToolMessage(c, calls[i]))
  }

  function NextMessages(c: Continuation): seq<ChatMessage> {
    c.ctx.messages + [c.assistant] + ToolMessages(c, c.assistant.toolCalls)
  }

  /** The job that is enqueued for the next round; it carries no reference id. */
  function NextJob(c: Continuation): JobMessage {
    JobMessage(c.jobId, NextMessages(c), c.ctx.tools, c.ctx.params, "")
  }

  // ---------------------------------------------------------------- counting answers

  ghost function Unanswered(c: Continuation): set<CallId> {
    set id | id in c.results && c.results[id].None?
  }

  /** The bookkeeping is exact: one slot per call, and `remaining` is the number of empty slots. */
  ghost predicate Exact(c: Continuation) {
    && DistinctIds(c.assistant.toolCalls)
    && c.results.Keys == CallIds(c.assistant.toolCalls)
    && c.remaining == |Unanswered(c)|
  }

  lemma CallIdsSize(calls: seq<ToolCall>)
    requires DistinctIds(calls)
    ensures |CallIds(calls)| == |calls|
  {
    if calls != [] {
      var rest := calls[..|calls| - 1];
      CallIdsSize(rest);
      assert CallIds(calls) == CallIds(rest) + {calls[|calls| - 1].id};
    }
  }

  /** Distinct call ids are exactly what makes a freshly parked continuation's count right. */
  lemma ParkExactIff(ctx: JobContext, msg: CompleteMessage)
    ensures Exact(Park(ctx, msg)) <==> DistinctIds(msg.toolCalls)
  {
    var c := Park(ctx, msg);
    if DistinctIds(msg.toolCalls) {
      CallIdsSize(msg.toolCalls);
      assert Unanswered(c) == CallIds(msg.toolCalls);
    }
  }

  /** One answer keeps the count exact precisely when its call had not been answered before. */
  lemma RecordExactIff(c: Continuation, callId: CallId, result: ToolResult)
    requires Exact(c) && callId in c.results
    ensures Exact(Record(c, callId, result)) <==> c.results[callId].None?
    ensures c.results[callId].None? ==> Unanswered(Record(c, callId, result)) == Unanswered(c) - {callId}
  {
    var c' := Record(c, callId, result);
    assert Unanswered(c') == Unanswered(c) - {callId};
    assert c'.results.Keys == c.results.Keys;
  }

  /** A second answer to one call fires a two-call round while the other call is still open. */
  lemma SecondAnswerFiresEarly(ctx: JobContext, r: ToolResult) returns (c: Continuation)
    ensures Exact(c) && "b" in c.results
    ensures var c' := RecordAll(c, [Answer("a", r), Answer("a", r)]);
            c'.remaining == 0 && "b" in Unanswered(c')
            && ErrorObject("tool result missing") == ToolMessage(c', ToolCall("b", "t", "")).content
  {
    var calls := [ToolCall("a", "t", ""), ToolCall("b", "t", "")];
    c := Park(ctx, CompleteMessage("j", "", "", 0, 0, calls));
    ParkExactIff(ctx, CompleteMessage("j", "", "", 0, 0, calls));
    assert calls[0].id == "a" && calls[1].id == "b";
    assert "a" in CallIds(calls) && "b" in CallIds(calls);
    var one := [Answer("a", r)];
    var two := [Answer("a", r), Answer("a", r)];
    assert one[..0] == [] && two[..1] == one;
    assert RecordAll(c, one) == Record(c, "a", r);
    assert RecordAll(c, two) == Record(Record(c, "a", r), "a", r);
  }

  // ---------------------------------------------------------------- order of arrival

  function AnsweredIds(answers: seq<Answer>): set<CallId> {
    set x | x in answers :: x.callId
  }

  ghost predicate DistinctAnswers(answers: seq<Answer>) {
    forall i, j :: 0 <= i < j < |answers| ==> answers[i].callId != answers[j].callId
  }

  /** Every call is answered exactly once. */
  ghost predicate AnswersEachOnce(c: Continuation, answers: seq<Answer>) {
    DistinctAnswers(answers) && AnsweredIds(answers) == c.results.Keys
  }

  lemma {:induction false} AnsweredIdsSize(answers: seq<Answer>)
    requires DistinctAnswers(answers)
    ensures |AnsweredIds(answers)| == |answers|
  {
    if answers != [] {
      var front, last := answers[..|answers| - 1], answers[|answers| - 1];
      AnsweredIdsSize(front);
      assert answers == front + [last];
      assert AnsweredIds(answers) == AnsweredIds(front) + {last.callId};
    }
  }

  /** What distinct answers to known calls leave behind. */
  lemma LastIsNew(answers: seq<Answer>)
    requires answers != [] && DistinctAnswers(answers)
    ensures var front, last := answers[..|answers| - 1], answers[|answers| - 1];
            && answers == front + [last] && DistinctAnswers(front)
            && AnsweredIds(answers) == AnsweredIds(front) + {last.callId} && last.callId !in AnsweredIds(front)
  {
  }

  lemma {:induction false} RecordAllEffect(c: Continuation, answers: seq<Answer>)
    requires DistinctAnswers(answers) && AnsweredIds(answers) <= c.results.Keys
    ensures var c' := RecordAll(c, answers);
            && c' == c.(results := c'.results, remaining := c.remaining - |answers|)
            && c'.results.Keys == c.results.Keys
            && (forall x :: x in answers ==> c'.results[x.callId] == Some(x.result))
            && (forall id :: id in c.results && id !in AnsweredIds(answers) ==> c'.results[id] == c.results[id])
  {
    hide DistinctAnswers;
    if answers != [] {
      var front := answers[..|answers| - 1];
      LastIsNew(answers);
      RecordAllEffect(c, front);
      assert forall x :: x in front ==> x.callId in AnsweredIds(front);
    }
  }

  /** The round ends on the last answer, not before it, and then no call is open. */
  lemma FiresOnLastAnswer(c: Continuation, answers: seq<Answer>, k: nat)
    requires Exact(c) && Unanswered(c) == c.results.Keys
    requires AnswersEachOnce(c, answers) && k <= |answers|
    ensures |answers| == |c.assistant.toolCalls|
    ensures RecordAll(c, answers[..k]).remaining == |answers| - k
    ensures k == |answers| ==> Unanswered(RecordAll(c, answers)) == {}
  {
    AnsweredIdsSize(answers);
    CallIdsSize(c.assistant.toolCalls);
    assert AnsweredIds(answers[..k]) <= AnsweredIds(answers);
    RecordAllEffect(c, answers[..k]);
    RecordAllEffect(c, answers);
  }

  /** The result stored for a call is the answer given to it. */
  lemma StoredAnswer(c: Continuation, answers: seq<Answer>, id: CallId) returns (x: Answer)
    requires AnswersEachOnce(c, answers) && id in c.results
    ensures x in answers && x.callId == id
    ensures id in RecordAll(c, answers).results && RecordAll(c, answers).results[id] == Some(x.result)
  {
    assert id in AnsweredIds(answers);
    x :| x in answers && x.callId == id;
    RecordAllEffect(c, answers);
  }

  lemma OneAnswerPerCall(answers: seq<Answer>, x: Answer, y: Answer)
    requires DistinctAnswers(answers) && x in answers && y in answers && x.callId == y.callId
    ensures x == y
  {
  }

  lemma SameAnswer(c: Continuation, a: seq<Answer>, b: seq<Answer>, id: CallId)
    requires AnswersEachOnce(c, a) && AnswersEachOnce(c, b)
    requires (forall x :: x in a <==> x in b) && id in c.results
    ensures id in RecordAll(c, a).results && id in RecordAll(c, b).results
    ensures RecordAll(c, a).results[id] == RecordAll(c, b).results[id]
  {
    hide RecordAll;
    hide AnsweredIds;
    var x := StoredAnswer(c, a, id);
    var y := StoredAnswer(c, b, id);
    OneAnswerPerCall(b, x, y);
  }

  lemma RecordAllShape(c: Continuation, answers: seq<Answer>)
    requires AnswersEachOnce(c, answers)
    ensures var c' := RecordAll(c, answers);
            && c' == c.(results := c'.results, remaining := c.remaining - |c.results.Keys|)
            && c'.results.Keys == c.results.Keys
  {
    AnsweredIdsSize(answers);
    RecordAllEffect(c, answers);
  }

  /** Whatever the order in which the answers arrive, the next round's job is the same. */
  lemma ArrivalOrderIrrelevant(c: Continuation, a: seq<Answer>, b: seq<Answer>)
    requires AnswersEachOnce(c, a) && AnswersEachOnce(c, b)
    requires forall x :: x in a <==> x in b
    ensures RecordAll(c, a) == RecordAll(c, b)
    ensures NextJob(RecordAll(c, a)) == NextJob(RecordAll(c, b))
  {
    hide *;
    RecordAllShape(c, a);
    RecordAllShape(c, b);
    var ra, rb := RecordAll(c, a).results, RecordAll(c, b).results;
    forall id | id in ra ensures id in rb && ra[id] == rb[id] {
      SameAnswer(c, a, b, id);
    }
    assert ra == rb;
  }

  /**
   The next round is the same job with the same tools and parameters; each of its tool messages carries its own call's
   id and that call's answer, in call order.
   */
  lemma NextRoundAnswersInCallOrder(c: Continuation, answers: seq<Answer>, i: nat, x: Answer)
    requires AnswersEachOnce(c, answers)
    requires i < |c.assistant.toolCalls| && x in answers && x.callId == c.assistant.toolCalls[i].id
    ensures var job := NextJob(RecordAll(c, answers));
            && job.jobId == c.jobId && job.tools == c.ctx.tools && job.params == c.ctx.params
            && |job.messages| == |c.ctx.messages| + 1 + |c.assistant.toolCalls|
            && job.messages[..|c.ctx.messages|] == c.ctx.messages
            && job.messages[|c.ctx.messages|] == c.assistant
            && job.messages[|c.ctx.messages| + 1 + i]
               == ChatMessage(Tool, ResultContent(x.result), [], c.assistant.toolCalls[i].id)
  {
    RecordAllEffect(c, answers);
  }
}
