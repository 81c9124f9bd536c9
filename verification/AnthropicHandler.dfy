/** The two Anthropic responses with their variables updated in place (internal/router/anthropichandler.go). */
module AnthropicHandler {
  import opened Prelude
  import opened Protocol
  import opened AnthropicStream

  class StreamResponse {
    const newId: nat -> string
    var out: seq<Sse>
    var currentBlockIndex: nat
    var hasStartedTextBlock: bool
    var hasStartedThinkingBlock: bool
    var outputTokens: int
    var closed: bool

    constructor (newId: nat -> string)
      ensures this.newId == newId && View() == Fresh
    {
      this.newId := newId;
      out, currentBlockIndex, outputTokens := [MessageStart, Ping], 0, 0;
      hasStartedTextBlock, hasStartedThinkingBlock, closed := false, false, false;
    }

    ghost function View(): Conn
      reads this
    {
      Conn(out, currentBlockIndex, hasStartedTextBlock, hasStartedThinkingBlock, outputTokens, closed)
    }

    method Write(e: Sse)
      modifies this`out
      ensures out == old(out) + [e]
    {
      out := out + [e];
    }

    method OnReasoningToken(token: string)
      modifies this
      ensures View() == OnReasoning(old(View()), token)
    {
      if !hasStartedThinkingBlock {
        Write(BlockStart(currentBlockIndex, Thinking("")));
        hasStartedThinkingBlock := true;
      }
      Write(ThinkingDelta(currentBlockIndex, token));
    }

    method OnTextToken(token: string)
      modifies this
      ensures View() == OnToken(old(View()), token)
    {
      if hasStartedThinkingBlock && !hasStartedTextBlock {
        Write(BlockStop(currentBlockIndex));
        currentBlockIndex := currentBlockIndex + 1;
        hasStartedThinkingBlock := false;
      }
      if !hasStartedTextBlock {
        Write(BlockStart(currentBlockIndex, TextPart("")));
        hasStartedTextBlock := true;
      }
      outputTokens := outputTokens + 1;
      Write(TextDelta(currentBlockIndex, token));
    }

    method CloseBlocks()
      modifies this
      ensures View() == CloseOpen(old(View()))
    {
      if hasStartedThinkingBlock && !hasStartedTextBlock {
        Write(BlockStop(currentBlockIndex));
        currentBlockIndex := currentBlockIndex + 1;
      }
      if hasStartedTextBlock {
        Write(BlockStop(currentBlockIndex));
        currentBlockIndex := currentBlockIndex + 1;
      }
    }

    method WriteCall(calls: seq<ToolCall>, k: nat)
      requires k < |calls|
      modifies this`out
      ensures out == old(out) + CallEvents(currentBlockIndex, calls, k, newId)
    {
      var toolId := calls[k].id;
      if toolId == "" {
        toolId := newId(k);
      }
      Write(BlockStart(currentBlockIndex, ToolUse(toolId, calls[k].name, "")));
      if calls[k].arguments != "" {
        Write(InputDelta(currentBlockIndex, calls[k].arguments));
      }
      Write(BlockStop(currentBlockIndex));
    }

    method WriteCalls(calls: seq<ToolCall>)
      modifies this`out, this`currentBlockIndex
      ensures out == old(out) + CallsEvents(old(currentBlockIndex), calls, 0, newId)
      ensures currentBlockIndex == old(currentBlockIndex) + |calls|
    {
      var k := 0;
      while k < |calls|
        invariant k <= |calls| && currentBlockIndex == old(currentBlockIndex) + k
        invariant out + CallsEvents(currentBlockIndex, calls, k, newId)
                  == old(out) + CallsEvents(old(currentBlockIndex), calls, 0, newId)
      {
        ghost var before := out;
        WriteCall(calls, k);
        assert before + CallsEvents(currentBlockIndex, calls, k, newId)
            == out + CallsEvents(currentBlockIndex + 1, calls, k + 1, newId);
        currentBlockIndex := currentBlockIndex + 1;
        k := k + 1;
      }
      assert out + [] == out;
    }

    method Finish(complete: CompleteMessage)
      modifies this
      ensures View() == OnDone(old(View()), complete, newId)
    {
      if complete.outputTokens > 0 {
        outputTokens := complete.outputTokens;
      }
      CloseBlocks();
      WriteCalls(complete.toolCalls);
      var stopReason := "end_turn";
      if |complete.toolCalls| > 0 {
        stopReason := "tool_use";
      }
      ghost var before := out;
      Write(MessageDelta(stopReason, outputTokens));
      Write(MessageStop);
      assert out == before + [MessageDelta(stopReason, outputTokens), MessageStop];
      closed := true;
    }

    method OnEvent(e: TokenEvent)
      modifies this
      ensures View() == Handle(old(View()), e, newId)
    {
      match e {
        case ReasoningToken(token) => OnReasoningToken(token);
        case Token(token) => OnTextToken(token);
        case Done(complete) => Finish(complete);
        case Failed(reason) =>
          Write(ErrorEvent(if reason == "" then "internal error" else reason));
          closed := true;
        case _ =>
      }
    }

    /** Write one batch of token stream entries; `later` stands for whatever is read after it. */
    method OnBatch(entries: seq<TokenEvent>, ghost later: seq<TokenEvent>)
      modifies this
      ensures Run(View(), later, newId) == Run(old(View()), entries + later, newId)
    {
      var k := 0;
      assert entries[0..] == entries;
      while k < |entries| && !closed
        invariant k <= |entries| && Run(View(), entries[k..] + later, newId) == Run(old(View()), entries + later, newId)
      {
        assert entries[k..] + later == [entries[k]] + (entries[k + 1..] + later);
        OnEvent(entries[k]);
        k := k + 1;
      }
      assert k == |entries| ==> entries[k..] + later == later;
    }

    /** Serve the whole response; how the token stream was cut into reads makes no difference. */
    method Serve(batches: seq<seq<TokenEvent>>)
      requires View() == Fresh
      modifies this
      ensures View() == Run(Fresh, Flatten(batches), newId)
    {
      var i := 0;
      assert batches[0..] == batches;
      while i < |batches| && !closed
        invariant i <= |batches| && Run(View(), Flatten(batches[i..]), newId) == Run(Fresh, Flatten(batches), newId)
      {
        assert batches[i..] == [batches[i]] + batches[i + 1..];
        OnBatch(batches[i], Flatten(batches[i + 1..]));
        i := i + 1;
      }
    }
  }

  lemma OneMoreBlock(before: seq<ContentBlock>, all: seq<ContentBlock>, k: nat)
    requires k < |all|
    ensures before + all[..k] + [all[k]] == before + all[..k + 1]
  {
  }

  /** The blocks of the final answer. */
  method BuildContent(thinking: string, text: string, calls: seq<ToolCall>, newId: nat -> string)
    returns (blocks: seq<ContentBlock>)
    ensures blocks == OrPlaceholder((if thinking != "" then [Thinking(thinking)] else [])
                                    + (if text != "" then [TextPart(text)] else []) + CallBlocks(calls, newId))
  {
    blocks := [];
    if thinking != "" {
      blocks := blocks + [Thinking(thinking)];
    }
    if text != "" {
      blocks := blocks + [TextPart(text)];
    }
    ghost var before := blocks;
    ghost var all := CallBlocks(calls, newId);
    assert before + all[..0] == before;
    hide CallBlocks;
    var k := 0;
    while k < |calls|
      invariant k <= |calls| && blocks == before + all[..k]
    {
      var toolId := if calls[k].id == "" then newId(k) else calls[k].id;
      blocks := blocks + [ToolUse(toolId, calls[k].name, calls[k].arguments)];
      OneMoreBlock(before, all, k);
      k := k + 1;
    }
    assert all[..k] == all;
    if |blocks| == 0 {
      blocks := blocks + [TextPart("")];
    }
  }

  /** Wait for the terminal event, collecting tokens; no answer if the reads end before it comes. */
  method BlockingResponse(batches: seq<seq<TokenEvent>>, newId: nat -> string) returns (answer: Answer)
    ensures answer == Collect("", "", Flatten(batches), newId)
  {
    var fullContent, reasoningContent := "", "";
    var i := 0;
    assert batches[0..] == batches;
    while i < |batches|
      invariant i <= |batches|
      invariant Collect(reasoningContent, fullContent, Flatten(batches[i..]), newId) == Collect("", "", Flatten(batches), newId)
    {
      assert batches[i..] == [batches[i]] + batches[i + 1..];
      ghost var later := Flatten(batches[i + 1..]);
      var entries := batches[i];
      var k := 0;
      assert entries[0..] == entries;
      while k < |entries|
        invariant k <= |entries|
        invariant Collect(reasoningContent, fullContent, entries[k..] + later, newId)
                  == Collect("", "", Flatten(batches), newId)
      {
        ghost var rest := entries[k..] + later;
        assert rest[0] == entries[k] && rest[1..] == entries[k + 1..] + later;
        match entries[k] {
          case Token(token) => fullContent := fullContent + token;
          case ReasoningToken(token) => reasoningContent := reasoningContent + token;
          case Done(complete) =>
            if complete.fullResponse != "" {
              fullContent := complete.fullResponse;
            }
            if complete.reasoning != "" {
              reasoningContent := complete.reasoning;
            }
            var content := BuildContent(reasoningContent, fullContent, complete.toolCalls, newId);
            return Message(content, if |complete.toolCalls| > 0 then "tool_use" else "end_turn");
          case Failed(reason) =>
            return Failure(if reason == "" then "internal error" else reason);
          case _ =>
        }
        k := k + 1;
      }
      assert entries[k..] + later == later;
      i := i + 1;
    }
    answer := NoAnswer;
  }
}
