/**
 The Anthropic streaming response against its blocking twin (internal/router/anthropichandler.go): a client that
 reads the server-sent events must end up with the content blocks the blocking response returns.
 */
module AnthropicStream {
  import opened Prelude
  import opened Protocol

  datatype ContentBlock =
    | Thinking(thinking: string)
    | TextPart(text: string)
    | ToolUse(id: string, name: string, input: string)

  datatype Sse =
    | MessageStart | Ping
    | BlockStart(index: nat, block: ContentBlock)
    | ThinkingDelta(index: nat, thinking: string)
    | TextDelta(index: nat, text: string)
    | InputDelta(index: nat, json: string)
    | BlockStop(index: nat)
    | MessageDelta(stopReason: string, outputTokens: int)
    | MessageStop
    | ErrorEvent(message: string)

  /** The streaming handler's variables and what it has written so far. */
  datatype Conn = Conn(out: seq<Sse>, index: nat, hasText: bool, hasThinking: bool, outputTokens: int, closed: bool)

  const Fresh: Conn := Conn([MessageStart, Ping], 0, false, false, 0, false)

  /** A tool call's id; the k-th call without one gets a generated id. */
  function ToolId(calls: seq<ToolCall>, k: nat, newId: nat -> string): string
    requires k < |calls|
  {
    if calls[k].id == "" then newId(k) else calls[k].id
  }

  function StopReason(calls: seq<ToolCall>): string {
    if calls != [] then "tool_use" else "end_turn"
  }

  // ---------------------------------------------------------------- streaming

  function OnReasoning(c: Conn, t: string): Conn {
    var start := if c.hasThinking then [] else [BlockStart(c.index, Thinking(""))];
    c.(out := c.out + start + [ThinkingDelta(c.index, t)], hasThinking := true)
  }

  function OnToken(c: Conn, t: string): Conn {
    var closing := c.hasThinking && !c.hasText;
    var index := if closing then c.index + 1 else c.index;
    var start := (if closing then [BlockStop(c.index)] else [])
                 + (if c.hasText then [] else [BlockStart(index, TextPart(""))]);
    Conn(c.out + start + [TextDelta(index, t)], index, true, if closing then false else c.hasThinking,
         c.outputTokens + 1, c.closed)
  }

  function CallEvents(index: nat, calls: seq<ToolCall>, k: nat, newId: nat -> string): seq<Sse>
    requires k < |calls|
  {
    [BlockStart(index, ToolUse(ToolId(calls, k, newId), calls[k].name, ""))]
    + (if calls[k].arguments != "" then [InputDelta(index, calls[k].arguments)] else [])
    + [BlockStop(index)]
  }

  /** The events for the calls from the k-th on, the first of them at the given index. */
  function CallsEvents(index: nat, calls: seq<ToolCall>, k: nat, newId: nat -> string): seq<Sse>
    requires k <= |calls|
    decreases |calls| - k
  {
    if k == |calls| then [] else CallEvents(index, calls, k, newId) + CallsEvents(index + 1, calls, k + 1, newId)
  }

  /** The block still open, if any, is closed before tool calls and the message end. */
  function CloseOpen(c: Conn): Conn {
    if (c.hasThinking && !c.hasText) || c.hasText then c.(out := c.out + [BlockStop(c.index)], index := c.index + 1) else c
  }

  function OnDone(c: Conn, msg: CompleteMessage, newId: nat -> string): Conn {
    var tokens := if msg.outputTokens > 0 then msg.outputTokens else c.outputTokens;
    var d := CloseOpen(c);
    d.(out := d.out + CallsEvents(d.index, msg.toolCalls, 0, newId)
              + [MessageDelta(StopReason(msg.toolCalls), tokens), MessageStop],
       index := d.index + |msg.toolCalls|, outputTokens := tokens, closed := true)
  }

  function ErrorText(reason: string): string {
    if reason == "" then "internal error" else reason
  }

  function Handle(c: Conn, e: TokenEvent, newId: nat -> string): Conn {
    match e
    case ReasoningToken(t) => OnReasoning(c, t)
    case Token(t) => OnToken(c, t)
    case Done(msg) => OnDone(c, msg, newId)
    case Failed(reason) => c.(out := c.out + [ErrorEvent(ErrorText(reason))], closed := true)
    case _ => c
  }

  function Run(c: Conn, events: seq<TokenEvent>, newId: nat -> string): Conn
    decreases |events|
  {
    if events == [] || c.closed then c else Run(Handle(c, events[0], newId), events[1..], newId)
  }

  // ---------------------------------------------------------------- blocking

  datatype Answer = NoAnswer | Failure(message: string) | Message(content: seq<ContentBlock>, stopReason: string)

  function CallBlocks(calls: seq<ToolCall>, newId: nat -> string): (r: seq<ContentBlock>)
    ensures |r| == |calls|
    ensures forall k :: 0 <= k < |r| ==> r[k] == ToolUse(ToolId(calls, k, newId), calls[k].name, calls[k].arguments)
  {
    seq(|calls|, k requires 0 <= k < |calls| => ToolUse(ToolId(calls, k, newId), calls[k].name, calls[k].arguments))
  }

  /** The final report wins over the collected tokens where it says something. */
  function Prefer(report: string, collected: string): string {
    if report != "" then report else collected
  }

  function ProperBlocks(reasoning: string, text: string, msg: CompleteMessage, newId: nat -> string): seq<ContentBlock> {
    var thinking := Prefer(msg.reasoning, reasoning);
    var full := Prefer(msg.fullResponse, text);
    (if thinking != "" then [Thinking(thinking)] else [])
    + (if full != "" then [TextPart(full)] else [])
    + CallBlocks(msg.toolCalls, newId)
  }

  /** An answer is never without blocks: an empty text block stands in for none. */
  function OrPlaceholder(blocks: seq<ContentBlock>): seq<ContentBlock> {
    if blocks == [] then [TextPart("")] else blocks
  }

  function Collect(reasoning: string, text: string, events: seq<TokenEvent>, newId: nat -> string): Answer
    decreases |events|
  {
    if events == [] then NoAnswer
    else
      match events[0]
      case ReasoningToken(t) => Collect(reasoning + t, text, events[1..], newId)
      case Token(t) => Collect(reasoning, text + t, events[1..], newId)
      case Done(msg) => Message(OrPlaceholder(ProperBlocks(reasoning, text, msg, newId)), StopReason(msg.toolCalls))
      case Failed(reason) => Failure(ErrorText(reason))
      case _ => Collect(reasoning, text, events[1..], newId)
  }

  // ---------------------------------------------------------------- a client reading the event stream

  /** The client accumulates blocks and gives up on anything that is not well bracketed. */
  datatype Client = Broken | Reading(blocks: seq<ContentBlock>, open: bool)

  function Extend(blocks: seq<ContentBlock>, b: ContentBlock): seq<ContentBlock>
    requires blocks != []
  {
    blocks[..|blocks| - 1] + [b]
  }

  /**
   Blocks are numbered 0, 1, 2, ... in the order they start; a block's deltas and its stop carry its number and come
   before the next start; the message ends with no block open.
   */
  function Receive(c: Client, e: Sse): Client {
    if c.Broken? then c
    else
      var n := |c.blocks|;
      match e
      case BlockStart(i, b) => if c.open || i != n then Broken else Reading(c.blocks + [b], true)
      case ThinkingDelta(i, t) =>
        if !c.open || n == 0 || i != n - 1 || !c.blocks[n - 1].Thinking? then Broken
        else c.(blocks := Extend(c.blocks, Thinking(c.blocks[n - 1].thinking + t)))
      case TextDelta(i, t) =>
        if !c.open || n == 0 || i != n - 1 || !c.blocks[n - 1].TextPart? then Broken
        else c.(blocks := Extend(c.blocks, TextPart(c.blocks[n - 1].text + t)))
      case InputDelta(i, j) =>
        if !c.open || n == 0 || i != n - 1 || !c.blocks[n - 1].ToolUse? then Broken
        else c.(blocks := Extend(c.blocks, c.blocks[n - 1].(input := c.blocks[n - 1].input + j)))
      case BlockStop(i) => if !c.open || n == 0 || i != n - 1 then Broken else c.(open := false)
      case MessageDelta(_, _) => if c.open then Broken else c
      case MessageStop => if c.open then Broken else c
      case _ => c
  }

  function ReceiveAll(c: Client, es: seq<Sse>): Client {
    if es == [] then c else Receive(ReceiveAll(c, es[..|es| - 1]), es[|es| - 1])
  }

  const NewClient: Client := Reading([], false)

  function View(out: seq<Sse>): Client {
    ReceiveAll(NewClient, out)
  }

  lemma {:induction false} ReceiveAppend(c: Client, a: seq<Sse>, b: seq<Sse>)
    ensures ReceiveAll(c, a + b) == ReceiveAll(ReceiveAll(c, a), b)
  {
    if b == [] {
      assert a + b == a;
    } else {
      var n := |b| - 1;
      assert (a + b)[..|a + b| - 1] == a + b[..n];
      ReceiveAppend(c, a, b[..n]);
    }
  }

  lemma Receive1(c: Client, a: Sse)
    ensures ReceiveAll(c, [a]) == Receive(c, a)
  {
    assert [a][..0] == [];
  }

  lemma Receive2(c: Client, a: Sse, b: Sse)
    ensures ReceiveAll(c, [a, b]) == Receive(Receive(c, a), b)
  {
    assert [a, b][..1] == [a];
    Receive1(c, a);
  }

  lemma Receive3(c: Client, a: Sse, b: Sse, d: Sse)
    ensures ReceiveAll(c, [a, b, d]) == Receive(Receive(Receive(c, a), b), d)
  {
    assert [a, b, d][..2] == [a, b];
    Receive2(c, a, b);
  }

  // ---------------------------------------------------------------- what the tokens say

  function TextOf(es: seq<TokenEvent>): string {
    if es == [] then "" else (if es[0].Token? then es[0].text else "") + TextOf(es[1..])
  }

  function ReasoningOf(es: seq<TokenEvent>): string {
    if es == [] then "" else (if es[0].ReasoningToken? then es[0].text else "") + ReasoningOf(es[1..])
  }

  predicate HasText(es: seq<TokenEvent>) {
    exists e :: e in es && e.Token?
  }

  predicate HasReasoning(es: seq<TokenEvent>) {
    exists e :: e in es && e.ReasoningToken?
  }

  ghost predicate ReasoningFirst(es: seq<TokenEvent>) {
    forall i, j :: 0 <= i < j < |es| && es[i].Token? ==> !es[j].ReasoningToken?
  }

  ghost predicate NoTerminal(es: seq<TokenEvent>) {
    forall e :: e in es ==> !e.Terminal()
  }

  function SoFar(hasReasoning: bool, reasoning: string, hasText: bool, text: string): seq<ContentBlock> {
    (if hasReasoning then [Thinking(reasoning)] else []) + (if hasText then [TextPart(text)] else [])
  }

  /** How the handler's variables and the client's view go together while reasoning comes first. */
  ghost predicate InStep(c: Conn, hasReasoning: bool, reasoning: string, text: string) {
    && !c.closed
    && View(c.out) == Reading(SoFar(hasReasoning, reasoning, c.hasText, text), hasReasoning || c.hasText)
    && c.index == (if hasReasoning && c.hasText then 1 else 0)
    && c.hasThinking == (hasReasoning && !c.hasText)
  }

  lemma MoreReasoning(c: Conn, reasoning: string, text: string, t: string)
    requires InStep(c, true, reasoning, text) && !c.hasText
    ensures InStep(OnReasoning(c, t), true, reasoning + t, text)
  {
    hide ReceiveAll;
    var last := ThinkingDelta(c.index, t);
    assert OnReasoning(c, t).out == c.out + [last];
    ReceiveAppend(NewClient, c.out, [last]);
    Receive1(View(c.out), last);
  }

  lemma ThinkingAlone(t: string)
    ensures ReceiveAll(NewClient, [BlockStart(0, Thinking("")), ThinkingDelta(0, t)]) == Reading([Thinking(t)], true)
  {
    Receive2(NewClient, BlockStart(0, Thinking("")), ThinkingDelta(0, t));
    assert "" + t == t;
  }

  lemma FirstReasoning(c: Conn, text: string, t: string)
    requires InStep(c, false, "", text) && !c.hasText
    ensures InStep(OnReasoning(c, t), true, t, text)
  {
    hide ReceiveAll;
    SoFarCases("", text);
    SoFarCases(t, text);
    var more := [BlockStart(0, Thinking("")), ThinkingDelta(0, t)];
    assert OnReasoning(c, t).out == c.out + more;
    ReceiveAppend(NewClient, c.out, more);
    ThinkingAlone(t);
  }

  lemma ReasoningStep(c: Conn, has: bool, reasoning: string, text: string, t: string)
    requires InStep(c, has, reasoning, text) && !c.hasText && (!has ==> reasoning == "")
    ensures InStep(OnReasoning(c, t), true, reasoning + t, text)
  {
    hide InStep;
    if has {
      MoreReasoning(c, reasoning, text, t);
    } else {
      FirstReasoning(c, text, t);
      assert "" + t == t;
    }
  }

  lemma MoreText(c: Conn, has: bool, reasoning: string, text: string, t: string)
    requires InStep(c, has, reasoning, text) && c.hasText
    ensures InStep(OnToken(c, t), has, reasoning, text + t)
  {
    var last := TextDelta(c.index, t);
    assert OnToken(c, t).out == c.out + [last];
    ReceiveAppend(NewClient, c.out, [last]);
    Receive1(View(c.out), last);
  }

  lemma TextAfterThinking(reasoning: string, t: string)
    ensures ReceiveAll(Reading([Thinking(reasoning)], true), [BlockStop(0), BlockStart(1, TextPart("")), TextDelta(1, t)])
            == Reading([Thinking(reasoning), TextPart(t)], true)
  {
    Receive3(Reading([Thinking(reasoning)], true), BlockStop(0), BlockStart(1, TextPart("")), TextDelta(1, t));
    assert "" + t == t;
  }

  lemma TextAlone(t: string)
    ensures ReceiveAll(NewClient, [BlockStart(0, TextPart("")), TextDelta(0, t)]) == Reading([TextPart(t)], true)
  {
    Receive2(NewClient, BlockStart(0, TextPart("")), TextDelta(0, t));
    assert "" + t == t;
  }

  lemma SoFarCases(reasoning: string, text: string)
    ensures SoFar(true, reasoning, true, text) == [Thinking(reasoning), TextPart(text)]
    ensures SoFar(true, reasoning, false, text) == [Thinking(reasoning)]
    ensures SoFar(false, reasoning, true, text) == [TextPart(text)]
    ensures SoFar(false, reasoning, false, text) == []
  {
  }

  lemma FirstText(c: Conn, has: bool, reasoning: string, t: string)
    requires InStep(c, has, reasoning, "") && !c.hasText
    ensures InStep(OnToken(c, t), has, reasoning, t)
  {
    hide ReceiveAll;
    SoFarCases(reasoning, "");
    SoFarCases(reasoning, t);
    if has {
      var more := [BlockStop(0), BlockStart(1, TextPart("")), TextDelta(1, t)];
      assert OnToken(c, t).out == c.out + more;
      ReceiveAppend(NewClient, c.out, more);
      TextAfterThinking(reasoning, t);
    } else {
      var more := [BlockStart(0, TextPart("")), TextDelta(0, t)];
      assert OnToken(c, t).out == c.out + more;
      ReceiveAppend(NewClient, c.out, more);
      TextAlone(t);
    }
  }

  lemma TokenStep(c: Conn, has: bool, reasoning: string, text: string, t: string)
    requires InStep(c, has, reasoning, text) && (!c.hasText ==> text == "")
    ensures InStep(OnToken(c, t), has, reasoning, text + t)
  {
    hide InStep;
    if c.hasText {
      MoreText(c, has, reasoning, text, t);
    } else {
      FirstText(c, has, reasoning, t);
      assert "" + t == t;
    }
  }

  lemma {:induction false} StaysBroken(es: seq<Sse>)
    ensures ReceiveAll(Broken, es) == Broken
  {
    if es != [] {
      StaysBroken(es[..|es| - 1]);
    }
  }

  lemma {:induction false} RunExtends(c: Conn, es: seq<TokenEvent>, newId: nat -> string)
    ensures c.out <= Run(c, es, newId).out
    decreases |es|
  {
    if es != [] && !c.closed {
      var d := Handle(c, es[0], newId);
      assert c.out <= d.out;
      RunExtends(d, es[1..], newId);
    }
  }

  lemma BrokenForGood(c: Conn, es: seq<TokenEvent>, newId: nat -> string)
    requires View(c.out) == Broken
    ensures View(Run(c, es, newId).out) == Broken
  {
    RunExtends(c, es, newId);
    var out := Run(c, es, newId).out;
    assert out == c.out + out[|c.out|..];
    ReceiveAppend(NewClient, c.out, out[|c.out|..]);
    StaysBroken(out[|c.out|..]);
  }

  /** A reasoning token after text starts a block while the text block is still open. */
  lemma LateReasoningBreaks(c: Conn, has: bool, reasoning: string, text: string, t: string)
    requires InStep(c, has, reasoning, text) && c.hasText
    ensures View(OnReasoning(c, t).out) == Broken
  {
    var start, last := BlockStart(c.index, Thinking("")), ThinkingDelta(c.index, t);
    assert OnReasoning(c, t).out == c.out + [start, last];
    ReceiveAppend(NewClient, c.out, [start, last]);
    Receive2(View(c.out), start, last);
  }

  predicate InOrder(hasText: bool, es: seq<TokenEvent>)
    decreases |es|
  {
    es == [] || (!(hasText && es[0].ReasoningToken?) && InOrder(hasText || es[0].Token?, es[1..]))
  }

  lemma HasHead(es: seq<TokenEvent>)
    requires es != []
    ensures HasReasoning(es) <==> es[0].ReasoningToken? || HasReasoning(es[1..])
    ensures HasText(es) <==> es[0].Token? || HasText(es[1..])
  {
    assert es == [es[0]] + es[1..];
  }

  lemma NoneBehind(es: seq<TokenEvent>)
    requires es != []
    ensures ReasoningFirst(es) <==> ReasoningFirst(es[1..]) && (es[0].Token? ==> !HasReasoning(es[1..]))
  {
    var rest := es[1..];
    assert forall i :: 0 <= i < |rest| ==> rest[i] == es[i + 1];
    forall i, j | 0 <= i < j < |es| && es[i].Token?
      ensures i > 0 ==> rest[i - 1].Token? && rest[j - 1] == es[j]
      ensures i == 0 ==> es[j] in rest
    {
      assert rest[j - 1] == es[j];
    }
  }

  lemma {:induction false} InOrderIff(hasText: bool, es: seq<TokenEvent>)
    ensures InOrder(hasText, es) <==> ReasoningFirst(es) && (hasText ==> !HasReasoning(es))
    decreases |es|
  {
    if es != [] {
      InOrderIff(hasText || es[0].Token?, es[1..]);
      HasHead(es);
      NoneBehind(es);
    }
  }

  /** What has been seen of a stream: whether any reasoning came, and the two texts. */
  datatype Seen = Seen(hasReasoning: bool, reasoning: string, hasText: bool, text: string)

  function Look(seen: Seen, e: TokenEvent): Seen {
    match e
    case ReasoningToken(t) => seen.(hasReasoning := true, reasoning := seen.reasoning + t)
    case Token(t) => seen.(hasText := true, text := seen.text + t)
    case _ => seen
  }

  function LookAll(seen: Seen, es: seq<TokenEvent>): Seen
    decreases |es|
  {
    if es == [] then seen else LookAll(Look(seen, es[0]), es[1..])
  }

  ghost predicate Matches(c: Conn, seen: Seen) {
    && InStep(c, seen.hasReasoning, seen.reasoning, seen.text) && c.hasText == seen.hasText
    && (!seen.hasReasoning ==> seen.reasoning == "") && (!seen.hasText ==> seen.text == "")
  }

  lemma StepMatches(c: Conn, seen: Seen, e: TokenEvent, newId: nat -> string)
    requires Matches(c, seen) && !e.Terminal() && !(seen.hasText && e.ReasoningToken?)
    ensures Matches(Handle(c, e, newId), Look(seen, e))
  {
    match e
    case ReasoningToken(t) => ReasoningStep(c, seen.hasReasoning, seen.reasoning, seen.text, t);
    case Token(t) => TokenStep(c, seen.hasReasoning, seen.reasoning, seen.text, t);
    case _ =>
  }

  /** The stream up to the terminal event: in step with the tokens, or broken for good. */
  lemma {:induction false} RunView(c: Conn, seen: Seen, es: seq<TokenEvent>, newId: nat -> string)
    requires Matches(c, seen) && NoTerminal(es)
    ensures InOrder(seen.hasText, es) ==> Matches(Run(c, es, newId), LookAll(seen, es))
    ensures !InOrder(seen.hasText, es) ==> View(Run(c, es, newId).out) == Broken
    decreases |es|
  {
    if es != [] {
      var e, rest := es[0], es[1..];
      assert e in es;
      if seen.hasText && e.ReasoningToken? {
        LateReasoningBreaks(c, seen.hasReasoning, seen.reasoning, seen.text, e.text);
        BrokenForGood(Handle(c, e, newId), rest, newId);
      } else {
        StepMatches(c, seen, e, newId);
        RunView(Handle(c, e, newId), Look(seen, e), rest, newId);
      }
    }
  }

  lemma {:induction false} LookAllIs(seen: Seen, es: seq<TokenEvent>)
    ensures var s := LookAll(seen, es);
            && s.hasReasoning == (seen.hasReasoning || HasReasoning(es)) && s.hasText == (seen.hasText || HasText(es))
            && s.reasoning == seen.reasoning + ReasoningOf(es) && s.text == seen.text + TextOf(es)
    decreases |es|
  {
    if es != [] {
      LookAllIs(Look(seen, es[0]), es[1..]);
      HasHead(es);
    }
  }

  // ---------------------------------------------------------------- the end of the message

  lemma CallReceived(blocks: seq<ContentBlock>, calls: seq<ToolCall>, k: nat, newId: nat -> string)
    requires k < |calls|
    ensures ReceiveAll(Reading(blocks, false), CallEvents(|blocks|, calls, k, newId))
            == Reading(blocks + [CallBlocks(calls, newId)[k]], false)
  {
    var c := Reading(blocks, false);
    var start := BlockStart(|blocks|, ToolUse(ToolId(calls, k, newId), calls[k].name, ""));
    assert "" + calls[k].arguments == calls[k].arguments;
    if calls[k].arguments != "" {
      var input := InputDelta(|blocks|, calls[k].arguments);
      assert CallEvents(|blocks|, calls, k, newId) == [start, input, BlockStop(|blocks|)];
      Receive3(c, start, input, BlockStop(|blocks|));
    } else {
      assert CallEvents(|blocks|, calls, k, newId) == [start, BlockStop(|blocks|)];
      Receive2(c, start, BlockStop(|blocks|));
    }
  }

  lemma OneMore(blocks: seq<ContentBlock>, all: seq<ContentBlock>, k: nat)
    requires k < |all|
    ensures blocks + [all[k]] + all[k + 1..] == blocks + all[k..]
  {
  }

  lemma {:induction false} CallsReceived(blocks: seq<ContentBlock>, calls: seq<ToolCall>, k: nat, newId: nat -> string)
    requires k <= |calls|
    ensures ReceiveAll(Reading(blocks, false), CallsEvents(|blocks|, calls, k, newId))
            == Reading(blocks + CallBlocks(calls, newId)[k..], false)
    decreases |calls| - k
  {
    if k < |calls| {
      hide ReceiveAll;
      var all := CallBlocks(calls, newId);
      ReceiveAppend(Reading(blocks, false), CallEvents(|blocks|, calls, k, newId),
                    CallsEvents(|blocks| + 1, calls, k + 1, newId));
      CallReceived(blocks, calls, k, newId);
      CallsReceived(blocks + [all[k]], calls, k + 1, newId);
      OneMore(blocks, all, k);
    } else {
      assert blocks + CallBlocks(calls, newId)[k..] == blocks;
    }
  }

  lemma CloseReceived(c: Conn, seen: Seen)
    requires Matches(c, seen)
    ensures var blocks := SoFar(seen.hasReasoning, seen.reasoning, seen.hasText, seen.text);
            View(CloseOpen(c).out) == Reading(blocks, false) && CloseOpen(c).index == |blocks|
  {
    if seen.hasReasoning || seen.hasText {
      ReceiveAppend(NewClient, c.out, [BlockStop(c.index)]);
      Receive1(View(c.out), BlockStop(c.index));
    }
  }

  function StreamedBlocks(seen: Seen, msg: CompleteMessage, newId: nat -> string): seq<ContentBlock> {
    SoFar(seen.hasReasoning, seen.reasoning, seen.hasText, seen.text) + CallBlocks(msg.toolCalls, newId)
  }

  lemma CallsAfter(out: seq<Sse>, blocks: seq<ContentBlock>, calls: seq<ToolCall>, newId: nat -> string)
    requires View(out) == Reading(blocks, false)
    ensures View(out + CallsEvents(|blocks|, calls, 0, newId)) == Reading(blocks + CallBlocks(calls, newId), false)
  {
    ReceiveAppend(NewClient, out, CallsEvents(|blocks|, calls, 0, newId));
    CallsReceived(blocks, calls, 0, newId);
    assert CallBlocks(calls, newId)[0..] == CallBlocks(calls, newId);
  }

  lemma EndAfter(out: seq<Sse>, blocks: seq<ContentBlock>, reason: string, tokens: int)
    requires View(out) == Reading(blocks, false)
    ensures View(out + [MessageDelta(reason, tokens), MessageStop]) == Reading(blocks, false)
  {
    ReceiveAppend(NewClient, out, [MessageDelta(reason, tokens), MessageStop]);
    Receive2(View(out), MessageDelta(reason, tokens), MessageStop);
  }

  lemma DoneReceived(c: Conn, seen: Seen, msg: CompleteMessage, newId: nat -> string)
    requires Matches(c, seen)
    ensures View(OnDone(c, msg, newId).out) == Reading(StreamedBlocks(seen, msg, newId), false)
  {
    var d := CloseOpen(c);
    var blocks := SoFar(seen.hasReasoning, seen.reasoning, seen.hasText, seen.text);
    CloseReceived(c, seen);
    CallsAfter(d.out, blocks, msg.toolCalls, newId);
    EndAfter(d.out + CallsEvents(d.index, msg.toolCalls, 0, newId), blocks + CallBlocks(msg.toolCalls, newId),
             StopReason(msg.toolCalls), if msg.outputTokens > 0 then msg.outputTokens else c.outputTokens);
  }

  lemma FreshMatches()
    ensures Matches(Fresh, Seen(false, "", false, ""))
  {
    Receive2(NewClient, MessageStart, Ping);
  }

  lemma Uncons(pre: seq<TokenEvent>, e: TokenEvent, post: seq<TokenEvent>)
    requires pre != []
    ensures (pre + [e] + post)[0] == pre[0] && (pre + [e] + post)[1..] == pre[1..] + [e] + post
  {
  }

  lemma {:induction false} RunTo(c: Conn, pre: seq<TokenEvent>, e: TokenEvent, post: seq<TokenEvent>, newId: nat -> string)
    requires NoTerminal(pre) && e.Terminal() && !c.closed
    ensures !Run(c, pre, newId).closed
    ensures Run(c, pre + [e] + post, newId) == Handle(Run(c, pre, newId), e, newId)
    decreases |pre|
  {
    if pre == [] {
      assert (pre + [e] + post)[0] == e;
    } else {
      assert pre[0] in pre;
      Uncons(pre, e, post);
      RunTo(Handle(c, pre[0], newId), pre[1..], e, post, newId);
    }
  }

  lemma {:induction false} CollectTo(
      reasoning: string, text: string, pre: seq<TokenEvent>, e: TokenEvent, post: seq<TokenEvent>, newId: nat -> string)
    requires NoTerminal(pre) && e.Terminal()
    ensures var seen := LookAll(Seen(true, reasoning, true, text), pre);
            Collect(reasoning, text, pre + [e] + post, newId) == Collect(seen.reasoning, seen.text, [e] + post, newId)
    decreases |pre|
  {
    if pre == [] {
      assert pre + [e] + post == [e] + post;
    } else {
      assert pre[0] in pre;
      Uncons(pre, e, post);
      var s := Look(Seen(true, reasoning, true, text), pre[0]);
      CollectTo(s.reasoning, s.text, pre[1..], e, post, newId);
    }
  }

  // ---------------------------------------------------------------- the twins agree

  function Saw(pre: seq<TokenEvent>): Seen {
    Seen(HasReasoning(pre), ReasoningOf(pre), HasText(pre), TextOf(pre))
  }

  lemma SawIs(pre: seq<TokenEvent>)
    ensures LookAll(Seen(false, "", false, ""), pre) == Saw(pre)
  {
    LookAllIs(Seen(false, "", false, ""), pre);
    assert "" + ReasoningOf(pre) == ReasoningOf(pre) && "" + TextOf(pre) == TextOf(pre);
  }

  lemma RunSaw(pre: seq<TokenEvent>, newId: nat -> string)
    requires NoTerminal(pre)
    ensures ReasoningFirst(pre) ==> Matches(Run(Fresh, pre, newId), Saw(pre))
    ensures !ReasoningFirst(pre) ==> View(Run(Fresh, pre, newId).out) == Broken
  {
    FreshMatches();
    RunView(Fresh, Seen(false, "", false, ""), pre, newId);
    InOrderIff(false, pre);
    SawIs(pre);
  }

  lemma BrokenDone(c: Conn, msg: CompleteMessage, newId: nat -> string)
    requires View(c.out) == Broken && !c.closed
    ensures View(OnDone(c, msg, newId).out) == Broken
  {
    BrokenForGood(c, [Done(msg)], newId);
  }

  /**
   The event stream of a completed job is well bracketed exactly if no reasoning token comes after a text token;
   a client then holds one thinking block, one text block and the tool calls, each if there was any.
   */
  lemma WellBracketedIff(pre: seq<TokenEvent>, msg: CompleteMessage, post: seq<TokenEvent>, newId: nat -> string)
    requires NoTerminal(pre)
    ensures var client := View(Run(Fresh, pre + [Done(msg)] + post, newId).out);
            && (client != Broken <==> ReasoningFirst(pre))
            && (client != Broken ==> client == Reading(StreamedBlocks(Saw(pre), msg, newId), false))
  {
    RunTo(Fresh, pre, Done(msg), post, newId);
    RunSaw(pre, newId);
    if ReasoningFirst(pre) {
      DoneReceived(Run(Fresh, pre, newId), Saw(pre), msg, newId);
    } else {
      BrokenDone(Run(Fresh, pre, newId), msg, newId);
    }
  }

  /** A failed job's stream is cut short: the block being written, if any, is never closed. */
  lemma ErrorLeavesBlockOpen(pre: seq<TokenEvent>, reason: string, post: seq<TokenEvent>, newId: nat -> string)
    requires NoTerminal(pre) && ReasoningFirst(pre)
    ensures var c := Run(Fresh, pre + [Failed(reason)] + post, newId);
            && |c.out| > 0 && c.out[|c.out| - 1] == ErrorEvent(ErrorText(reason)) && View(c.out).Reading?
            && (View(c.out).open <==> HasReasoning(pre) || HasText(pre))
            && Collect("", "", pre + [Failed(reason)] + post, newId) == Failure(ErrorText(reason))
  {
    RunTo(Fresh, pre, Failed(reason), post, newId);
    RunSaw(pre, newId);
    var out := Run(Fresh, pre, newId).out;
    ReceiveAppend(NewClient, out, [ErrorEvent(ErrorText(reason))]);
    Receive1(View(out), ErrorEvent(ErrorText(reason)));
    CollectTo("", "", pre, Failed(reason), post, newId);
    assert ([Failed(reason)] + post)[0] == Failed(reason);
  }

  lemma BlockingIs(pre: seq<TokenEvent>, msg: CompleteMessage, post: seq<TokenEvent>, newId: nat -> string)
    requires NoTerminal(pre)
    ensures Collect("", "", pre + [Done(msg)] + post, newId)
            == Message(OrPlaceholder(ProperBlocks(ReasoningOf(pre), TextOf(pre), msg, newId)), StopReason(msg.toolCalls))
  {
    CollectTo("", "", pre, Done(msg), post, newId);
    LookAllIs(Seen(true, "", true, ""), pre);
    assert ([Done(msg)] + post)[0] == Done(msg);
    assert "" + ReasoningOf(pre) == ReasoningOf(pre) && "" + TextOf(pre) == TextOf(pre);
  }

  lemma SameBlocksIff(pre: seq<TokenEvent>, msg: CompleteMessage, newId: nat -> string)
    requires NoTerminal(pre)
    ensures StreamedBlocks(Saw(pre), msg, newId) == ProperBlocks(ReasoningOf(pre), TextOf(pre), msg, newId) <==>
              && SamePart(HasReasoning(pre), ReasoningOf(pre), Prefer(msg.reasoning, ReasoningOf(pre)))
              && SamePart(HasText(pre), TextOf(pre), Prefer(msg.fullResponse, TextOf(pre)))
  {
    var thinking, full := Prefer(msg.reasoning, ReasoningOf(pre)), Prefer(msg.fullResponse, TextOf(pre));
    SoFarEqualIff(HasReasoning(pre), ReasoningOf(pre), HasText(pre), TextOf(pre),
                  thinking != "", thinking, full != "", full, CallBlocks(msg.toolCalls, newId));
  }

  /** Only empty text was streamed, and nothing is reported: the blocking response's placeholder looks the same. */
  predicate OnlyEmptyText(pre: seq<TokenEvent>, msg: CompleteMessage) {
    && HasText(pre) && !HasReasoning(pre) && TextOf(pre) == ""
    && msg.fullResponse == "" && msg.reasoning == "" && msg.toolCalls == []
  }

  lemma {:induction false} NoReasoningNoText(es: seq<TokenEvent>)
    ensures !HasReasoning(es) ==> ReasoningOf(es) == ""
  {
    if es != [] {
      HasHead(es);
      NoReasoningNoText(es[1..]);
    }
  }

  lemma Front(a: bool, r: string, b: bool, t: string, calls: seq<ContentBlock>)
    ensures var blocks := SoFar(a, r, b, t) + calls;
            && (a ==> blocks != [] && blocks[0] == Thinking(r))
            && (!a && b ==> blocks != [] && blocks[0] == TextPart(t) && |blocks| == 1 + |calls|)
            && (!a && !b ==> blocks == calls)
  {
  }

  lemma PlaceholderIff(pre: seq<TokenEvent>, msg: CompleteMessage, newId: nat -> string)
    requires NoTerminal(pre)
    ensures var streamed := StreamedBlocks(Saw(pre), msg, newId);
            var proper := ProperBlocks(ReasoningOf(pre), TextOf(pre), msg, newId);
            OrPlaceholder(streamed) == OrPlaceholder(proper) <==> streamed == proper || OnlyEmptyText(pre, msg)
  {
    var thinking, full := Prefer(msg.reasoning, ReasoningOf(pre)), Prefer(msg.fullResponse, TextOf(pre));
    var calls := CallBlocks(msg.toolCalls, newId);
    NoReasoningNoText(pre);
    Front(HasReasoning(pre), ReasoningOf(pre), HasText(pre), TextOf(pre), calls);
    Front(thinking != "", thinking, full != "", full, calls);
    hide SoFar;
    assert ProperBlocks(ReasoningOf(pre), TextOf(pre), msg, newId)
        == SoFar(thinking != "", thinking, full != "", full) + calls by { ProperIs(thinking, full, calls); }
  }

  lemma ProperIs(thinking: string, full: string, calls: seq<ContentBlock>)
    ensures SoFar(thinking != "", thinking, full != "", full) + calls
            == (if thinking != "" then [Thinking(thinking)] else [])
               + (if full != "" then [TextPart(full)] else []) + calls
  {
  }

  /**
   With reasoning first, the client's blocks are the blocking response's, up to its empty placeholder, exactly if the
   final report agrees with the tokens on whether there is reasoning and text, and on what they are, or nothing but
   empty text was streamed and nothing is reported.
   */
  lemma TwinsAgreeIff(pre: seq<TokenEvent>, msg: CompleteMessage, post: seq<TokenEvent>, newId: nat -> string)
    requires NoTerminal(pre) && ReasoningFirst(pre)
    ensures var client := View(Run(Fresh, pre + [Done(msg)] + post, newId).out);
            && client.Reading? && !client.open
            && (Collect("", "", pre + [Done(msg)] + post, newId)
                == Message(OrPlaceholder(client.blocks), StopReason(msg.toolCalls)) <==>
                  OnlyEmptyText(pre, msg)
                  || (&& SamePart(HasReasoning(pre), ReasoningOf(pre), Prefer(msg.reasoning, ReasoningOf(pre)))
                      && SamePart(HasText(pre), TextOf(pre), Prefer(msg.fullResponse, TextOf(pre)))))
  {
    WellBracketedIff(pre, msg, post, newId);
    BlockingIs(pre, msg, post, newId);
    PlaceholderIff(pre, msg, newId);
    SameBlocksIff(pre, msg, newId);
  }

  /** Streamed and reported part are there together, and then equal. */
  predicate SamePart(streamed: bool, text: string, reported: string) {
    (streamed <==> reported != "") && (streamed ==> text == reported)
  }

  lemma SoFarEqualIff(a: bool, r: string, b: bool, t: string, a': bool, r': string, b': bool, t': string,
                      calls: seq<ContentBlock>)
    requires forall c :: c in calls ==> c.ToolUse?
    ensures SoFar(a, r, b, t) + calls == SoFar(a', r', b', t') + calls <==>
              (a == a' && (a ==> r == r')) && (b == b' && (b ==> t == t'))
  {
    SoFarCases(r, t);
    SoFarCases(r', t');
    var x, y := SoFar(a, r, b, t), SoFar(a', r', b', t');
    if x + calls == y + calls {
      assert |x + calls| == |x| + |calls| && |y + calls| == |y| + |calls|;
      assert x == (x + calls)[..|x|] && y == (y + calls)[..|y|];
    }
  }

  ghost predicate NonEmptyTokens(es: seq<TokenEvent>) {
    forall e :: e in es ==> (e.Token? || e.ReasoningToken? ==> e.text != "")
  }

  lemma {:induction false} NonEmptyTexts(es: seq<TokenEvent>)
    requires NonEmptyTokens(es)
    ensures (HasText(es) <==> TextOf(es) != "") && (HasReasoning(es) <==> ReasoningOf(es) != "")
  {
    if es != [] {
      assert es[0] in es;
      HasHead(es);
      NonEmptyTexts(es[1..]);
    }
  }

  /** Non-empty tokens whose concatenation the report repeats, or leaves out, give the same blocks both ways. */
  lemma TwinsAgree(pre: seq<TokenEvent>, msg: CompleteMessage, post: seq<TokenEvent>, newId: nat -> string)
    requires NoTerminal(pre) && NonEmptyTokens(pre) && ReasoningFirst(pre)
    requires msg.reasoning in {"", ReasoningOf(pre)} && msg.fullResponse in {"", TextOf(pre)}
    ensures var client := View(Run(Fresh, pre + [Done(msg)] + post, newId).out);
            client.Reading? && !client.open
            && Collect("", "", pre + [Done(msg)] + post, newId)
               == Message(OrPlaceholder(client.blocks), StopReason(msg.toolCalls))
  {
    NonEmptyTexts(pre);
    TwinsAgreeIff(pre, msg, post, newId);
  }

  function CountText(es: seq<TokenEvent>): nat {
    if es == [] then 0 else (if es[0].Token? then 1 else 0) + CountText(es[1..])
  }

  lemma {:induction false} TokensCounted(c: Conn, es: seq<TokenEvent>, newId: nat -> string)
    requires NoTerminal(es) && !c.closed
    ensures Run(c, es, newId).outputTokens == c.outputTokens + CountText(es)
    decreases |es|
  {
    if es != [] {
      assert es[0] in es;
      TokensCounted(Handle(c, es[0], newId), es[1..], newId);
    }
  }

  /** A completed stream ends with the blocking response's stop reason, and the reported or else counted tokens. */
  lemma EndsWithReport(pre: seq<TokenEvent>, msg: CompleteMessage, post: seq<TokenEvent>, newId: nat -> string)
    requires NoTerminal(pre)
    ensures var out := Run(Fresh, pre + [Done(msg)] + post, newId).out;
            |out| >= 2 && out[|out| - 1] == MessageStop
            && out[|out| - 2] == MessageDelta(StopReason(msg.toolCalls),
                                              if msg.outputTokens > 0 then msg.outputTokens else CountText(pre))
  {
    RunTo(Fresh, pre, Done(msg), post, newId);
    TokensCounted(Fresh, pre, newId);
  }

  // ---------------------------------------------------------------- how the stream is cut into reads

  /** Reading in a log that only grows: each read goes on where the ones before it stopped, up to some limit. */
  ghost predicate Reads(logs: seq<seq<TokenEvent>>, batches: seq<seq<TokenEvent>>)
    requires |logs| == |batches|
  {
    forall k :: 0 <= k < |batches| ==> ReadFrom(logs[k], |Flatten(batches[..k])|, batches[k])
  }

  ghost predicate ReadFrom(log: seq<TokenEvent>, n: nat, batch: seq<TokenEvent>) {
    n + |batch| <= |log| && batch == log[n..n + |batch|]
  }

  lemma ReadMore(log: seq<TokenEvent>, read: seq<TokenEvent>, batch: seq<TokenEvent>)
    requires read <= log && ReadFrom(log, |read|, batch)
    ensures read + batch <= log
  {
  }

  /** However a growing log is cut into reads, the reads together are a prefix of it. */
  lemma {:induction false} ReadsAreAPrefix(logs: seq<seq<TokenEvent>>, batches: seq<seq<TokenEvent>>)
    requires |logs| == |batches| > 0 && Reads(logs, batches)
    requires forall k :: 0 < k < |logs| ==> logs[k - 1] <= logs[k]
    ensures Flatten(batches) <= logs[|logs| - 1]
    decreases |logs|
  {
    var n := |batches| - 1;
    var front := batches[..n];
    assert front + [batches[n]] == batches;
    FlattenSnoc(front, batches[n]);
    if n > 0 {
      forall k | 0 <= k < n ensures ReadFrom(logs[..n][k], |Flatten(front[..k])|, front[k]) {
        assert front[..k] == batches[..k];
      }
      ReadsAreAPrefix(logs[..n], front);
    }
    ReadMore(logs[n], Flatten(front), batches[n]);
  }
}

