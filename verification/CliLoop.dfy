/** The event loop of one Claude CLI run with its variables updated in place (internal/cliworker/claude.go). */
module CliLoop {
  import opened Prelude
  import opened CliTurn

  class CliRun {
    const live: bool
    var fullText: string
    var preToolText: string
    var postToolText: string
    var streamed: string           // what onToken was given
    var fullReasoning: string
    var streamedReasoning: string  // what onReasoningToken was given
    var toolCalls: seq<McpCall>
    var seenMcpTool: bool
    var seenBuiltinResult: bool
    var batchComplete: bool
    var pendingBuiltin: map<string, Builtin>
    var completedBuiltins: seq<Builtin>
    var liveToolResults: map<string, string>
    var hasStdinPipe: bool
    var kills: nat
    var notices: seq<Builtin>      // what onBuiltinTool was given
    var limited: Option<RateInfo>

    constructor (live: bool)
      ensures this.live == live && View() == Start
    {
      this.live := live;
      fullText, preToolText, postToolText, streamed, fullReasoning, streamedReasoning := "", "", "", "", "", "";
      toolCalls, completedBuiltins, notices := [], [], [];
      seenMcpTool, seenBuiltinResult, batchComplete, hasStdinPipe := false, false, false, true;
      pendingBuiltin, liveToolResults, kills, limited := map[], map[], 0, None;
    }

    ghost function View(): Turn
      reads this
    {
      Turn(fullText, preToolText, postToolText, streamed, fullReasoning, streamedReasoning, toolCalls, seenMcpTool,
           seenBuiltinResult, batchComplete, pendingBuiltin, completedBuiltins, liveToolResults, hasStdinPipe, kills,
           notices, limited)
    }

    method OnText(text: string)
      modifies this
      ensures View() == OnAssistantBlock(live, old(View()), TextBlock(text))
    {
      if text != "" {
        fullText := fullText + text;
        if seenMcpTool && !live {
          // text of the suppressed retry turn
        } else if seenBuiltinResult {
          postToolText := postToolText + text;
          streamed := streamed + text;
        } else {
          preToolText := preToolText + text;
          streamed := streamed + text;
        }
      } else {
        assert forall t: string :: t + "" == t;
      }
    }

    method OnThinking(thinking: string)
      modifies this
      ensures View() == OnAssistantBlock(live, old(View()), ThinkingBlock(thinking))
    {
      if thinking != "" {
        fullReasoning := fullReasoning + thinking;
        if !seenMcpTool {
          streamedReasoning := streamedReasoning + thinking;
        }
      } else {
        assert forall t: string :: t + "" == t;
      }
    }

    method OnUse(u: Use)
      modifies this
      ensures View() == OnToolUse(old(View()), u)
    {
      if "mcp__" <= u.name {
        seenMcpTool := true;
        var tc := McpCall(u.id, StripMcpPrefix(u.name), u.input);
        toolCalls := toolCalls + [tc];
        notices := notices + [Builtin(u.id, tc.name, tc.arguments, "")];
      } else {
        pendingBuiltin := pendingBuiltin[u.id := Builtin(u.id, u.name, u.input, "")];
      }
    }

    method HandleAssistant(blocks: seq<Block>)
      modifies this
      ensures View() == Apply(live, old(View()), AssistantEvent(blocks))
    {
      if batchComplete && |toolCalls| > 0 {
        return;
      }
      var i := 0;
      assert blocks[0..] == blocks;
      while i < |blocks|
        invariant i <= |blocks|
        invariant OnAssistant(live, View(), blocks[i..]) == OnAssistant(live, old(View()), blocks)
      {
        assert blocks[i..][1..] == blocks[i + 1..];
        match blocks[i] {
          case TextBlock(text) => OnText(text);
          case ThinkingBlock(thinking) => OnThinking(thinking);
          case ToolUse(u) => OnUse(u);
          case _ =>
        }
        i := i + 1;
      }
    }

    method KillWhenDone()
      modifies this
      ensures View() == KillIfDone(old(View()))
    {
      if batchComplete && |toolCalls| > 0 && |pendingBuiltin| == 0 && hasStdinPipe {
        hasStdinPipe := false;
        kills := kills + 1;
      }
    }

    method CompletePending(id: string, result: string)
      requires id in pendingBuiltin
      modifies this
      ensures View() == Completing(old(View()), id, old(pendingBuiltin)[id].(result := result))
    {
      var done := pendingBuiltin[id].(result := result);
      notices := notices + [done];
      completedBuiltins := completedBuiltins + [done];
      pendingBuiltin := pendingBuiltin - {id};
      seenBuiltinResult := true;
    }

    method OnResult(b: Block)
      modifies this
      ensures View() == OnUserBlock(live, old(View()), b)
    {
      if !b.ToolResult? || b.toolUseId == "" {
        return;
      }
      if b.toolUseId in pendingBuiltin {
        CompletePending(b.toolUseId, b.content);
        KillWhenDone();
      } else if live {
        liveToolResults := liveToolResults[b.toolUseId := b.content];
        seenBuiltinResult := true;
      }
    }

    method HandleUser(blocks: seq<Block>)
      modifies this
      ensures View() == Apply(live, old(View()), UserEvent(blocks))
    {
      var i := 0;
      assert blocks[0..] == blocks;
      while i < |blocks|
        invariant i <= |blocks|
        invariant OnUser(live, View(), blocks[i..]) == OnUser(live, old(View()), blocks)
      {
        assert blocks[i..][1..] == blocks[i + 1..];
        OnResult(blocks[i]);
        i := i + 1;
      }
    }

    method HandleRateLimit(info: Option<RateInfo>)
      modifies this
      ensures View() == Apply(live, old(View()), RateLimitEvent(info))
    {
      if info.Some? && info.value.status != "allowed" {
        limited := info;
        return;
      }
      if live {
        return;
      }
      batchComplete := true;
      KillWhenDone();
    }

    /** Read events until the stream ends or the account turns out to be limited. */
    method ReadEvents(events: seq<Event>)
      modifies this
      ensures View() == Run(live, old(View()), events)
    {
      var i := 0;
      assert events[0..] == events;
      while i < |events| && limited.None?
        invariant i <= |events|
        invariant Run(live, View(), events[i..]) == Run(live, old(View()), events)
      {
        assert events[i..][1..] == events[i + 1..];
        match events[i] {
          case AssistantEvent(blocks) => HandleAssistant(blocks);
          case UserEvent(blocks) => HandleUser(blocks);
          case RateLimitEvent(info) => HandleRateLimit(info);
          case ResultEvent => hasStdinPipe := false;
          case OtherEvent =>
        }
        i := i + 1;
      }
    }

    /** Announce the builtins still pending, in whatever order the map yields them. */
    method AnnouncePending()
      requires forall k :: k in pendingBuiltin ==> pendingBuiltin[k].id == k
      modifies this`notices
      ensures forall x :: CountBuiltins(notices, x) == old(Due(View(), x))
    {
      var todo := pendingBuiltin.Keys;
      while todo != {}
        invariant todo <= pendingBuiltin.Keys
        invariant forall x :: CountBuiltins(notices, x) + (if x in todo then 1 else 0) == old(Due(View(), x))
        decreases todo
      {
        var k :| k in todo;
        ghost var before := notices;
        notices := notices + [pendingBuiltin[k]];
        forall x ensures CountBuiltins(notices, x) == CountBuiltins(before, x) + if k == x then 1 else 0 {
          BuiltinSnoc(before, pendingBuiltin[k], x);
        }
        todo := todo - {k};
      }
    }

    /** Live mode: the calls were executed in-band, so they become resolved builtins. */
    method ResolveCalls()
      modifies this`completedBuiltins, this`toolCalls
      ensures completedBuiltins == old(completedBuiltins) + Resolved(old(toolCalls), liveToolResults) && toolCalls == []
    {
      var i := 0;
      while i < |toolCalls|
        invariant i <= |toolCalls| && toolCalls == old(toolCalls)
        invariant completedBuiltins == old(completedBuiltins) + Resolved(toolCalls, liveToolResults)[..i]
      {
        var tc := toolCalls[i];
        var result := if tc.id in liveToolResults then liveToolResults[tc.id] else "";
        completedBuiltins := completedBuiltins + [Builtin(tc.id, tc.name, tc.arguments, result)];
        i := i + 1;
      }
      assert completedBuiltins == old(completedBuiltins) + Resolved(old(toolCalls), liveToolResults);
      toolCalls := [];
    }

    method ReportTurn(tooLong: string -> bool) returns (r: Outcome)
      modifies this`completedBuiltins, this`toolCalls
      ensures r == Report(live, old(View()), tooLong)
    {
      if live && |toolCalls| > 0 {
        ResolveCalls();
      }
      assert live && old(toolCalls) == [] ==> completedBuiltins + [] == completedBuiltins;
      if |toolCalls| == 0 && |completedBuiltins| == 0 && tooLong(fullText) {
        return RetryTrimmed;
      }
      if |toolCalls| > 0 {
        r := Completed(preToolText, "", fullReasoning, toolCalls, completedBuiltins);
      } else if |completedBuiltins| > 0 {
        r := Completed(preToolText, postToolText, fullReasoning, toolCalls, completedBuiltins);
      } else {
        r := Completed(fullText, "", fullReasoning, toolCalls, completedBuiltins);
      }
    }

    /** What the run reports, from the way the subprocess exited. */
    method Complete(exit: Exit, tooLong: string -> bool, now: int) returns (r: Outcome)
      modifies this`completedBuiltins, this`toolCalls
      ensures r == Finish(live, old(View()), exit, tooLong, now)
    {
      if limited.Some? {
        var retryAfter := 0;
        if limited.value.resetsAt > 0 {
          var secs := limited.value.resetsAt - now;
          if secs < 0 {
            secs := 0;
          }
          retryAfter := secs;
        }
        return RateLimited(limited.value, retryAfter);
      }
      if exit.failed {
        if exit.jobCancelled {
          if !(|toolCalls| > 0 || |fullText| > 0) {
            return Silent;
          }
        } else if |fullText| == 0 && |toolCalls| == 0 {
          if exit.cacheLimit {
            return RetryCacheControl;
          }
          if exit.imageError {
            return RetryWithoutImages;
          }
          return Failed;
        }
      }
      r := ReportTurn(tooLong);
    }

    /** The whole turn: a limited account ends it inside the loop, before the pending builtins are announced. */
    method RunTurn(events: seq<Event>, exit: Exit, tooLong: string -> bool, now: int) returns (r: Outcome)
      requires View() == Start
      modifies this
      ensures r == Finish(live, Run(live, Start, events), exit, tooLong, now)
      ensures forall x :: CountBuiltins(notices, x) == Announced(Run(live, Start, events), x)
    {
      ReadEvents(events);
      ghost var t := Run(live, Start, events);
      RunFiled(live, Start, events);
      assert View() == t;
      if limited.None? {
        AnnouncePending();
      }
      assert View() == t.(notices := notices);
      r := Complete(exit, tooLong, now);
    }
  }
}
