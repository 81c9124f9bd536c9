/** What holds of every Claude CLI turn, whatever the subprocess emits. */
module CliTurnTheorems {
  import opened Prelude
  import opened Strings
  import opened CliTurn

  lemma StartSound(live: bool)
    ensures Sound(live, Start)
  {
  }

  /**
   A tool use whose id was used once ends up in exactly one place (MCP list, completed builtins, pending builtins),
   and as a builtin keeps its own name and arguments. It is announced exactly once, unless it is still pending when
   the account turns out to be limited; then it is not announced at all.
   */
  lemma EveryUseInOnePlace(live: bool, events: seq<Event>, x: string)
    requires CountUses(Processed(live, Start, events), x) == 1
    ensures var t := Run(live, Start, events);
            && Places(t, x) == 1 && Announced(t, x) <= 1
            && (Announced(t, x) == 1 <==> t.limited.None? || x !in t.pending)
            && FromUses(t.pending, t.completed, UseSet(Processed(live, Start, events)))
  {
    assert [] + Processed(live, Start, events) == Processed(live, Start, events);
    RunBooks(live, Start, [], events, x);
  }

  /** A builtin pending when the account turns out to be limited is never announced. */
  lemma LimitedLeavesUnannounced(u: Use, info: RateInfo)
    requires !IsMcp(u) && info.status != "allowed"
    ensures var t := Run(false, Start, [AssistantEvent([ToolUse(u)]), RateLimitEvent(Some(info))]);
            t.limited == Some(info) && u.id in t.pending && Announced(t, u.id) == 0
  {
    var events := [AssistantEvent([ToolUse(u)]), RateLimitEvent(Some(info))];
    var s1 := OnToolUse(Start, u);
    assert [ToolUse(u)][1..] == [] && OnAssistant(false, Start, [ToolUse(u)]) == s1;
    assert Apply(false, Start, events[0]) == s1;
    assert events[1..] == [RateLimitEvent(Some(info))] && events[1..][1..] == [];
    assert Run(false, Start, events) == Run(false, s1, events[1..]);
    assert Run(false, s1, events[1..]) == Run(false, s1.(limited := Some(info)), []);
  }

  /**
   The call list is the MCP uses taken in, in order, and no later event changes it once the batch is closed; the
   subprocess is killed at most once for a closed batch, with nothing pending then or later, and never in live mode.
   */
  lemma BatchDiscipline(live: bool, before: seq<Event>, after: seq<Event>)
    ensures var t := Run(live, Start, before);
            && t.toolCalls == McpCalls(Processed(live, Start, before))
            && (BatchClosed(t) ==> Run(live, t, after).toolCalls == t.toolCalls)
            && t.kills <= 1 && (t.kills == 1 ==> BatchClosed(t) && t.pending == map[] && !t.hasStdinPipe)
            && (live ==> t.kills == 0)
  {
    hide Run;
    hide Processed;
    hide McpCalls;
    RunFacts(live, before);
    RunSound(live, Run(live, Start, before), after);
  }

  lemma {:induction false} UserKills(live: bool, s: Turn, blocks: seq<Block>)
    requires Sound(live, s)
    ensures var t := OnUser(live, s, blocks);
            t.kills == s.kills + 1 <==> BatchClosed(s) && s.hasStdinPipe && s.pending != map[] && t.pending == map[]
    ensures OnUser(live, s, blocks).kills in {s.kills, s.kills + 1}
    ensures s.pending == map[] ==> OnUser(live, s, blocks).pending == map[]
    decreases |blocks|
  {
    if blocks != [] {
      var u := OnUserBlock(live, s, blocks[0]);
      UserBlockSound(live, s, blocks[0]);
      UserKills(live, u, blocks[1..]);
    }
  }

  /**
   When exactly an event makes the loop kill the subprocess because its batch is complete: an "allowed" rate-limit
   event with calls collected and nothing pending, or, after one, the tool result that clears the last pending
   builtin; the loop must still have its pipe variable.
   */
  lemma KillsExactlyWhen(live: bool, s: Turn, e: Event)
    requires Sound(live, s)
    ensures var t := Apply(live, s, e);
            t.kills == s.kills + 1 <==>
              && !live && s.hasStdinPipe && s.toolCalls != [] && t.pending == map[]
              && ((e.RateLimitEvent? && (e.info.Some? ==> e.info.value.status == "allowed"))
                  || (e.UserEvent? && s.batchComplete && s.pending != map[]))
  {
    match e
    case AssistantEvent(blocks) =>
      if !BatchClosed(s) {
        AssistantSound(live, s, blocks);
      }
    case UserEvent(blocks) => UserKills(live, s, blocks);
    case _ =>
  }

  /** A call that arrives after the rate-limit event closes the batch without a kill, though nothing is pending. */
  lemma LateCallLeavesProcessRunning(u: Use)
    requires IsMcp(u)
    ensures var t := Run(false, Start, [RateLimitEvent(None), AssistantEvent([ToolUse(u)])]);
            BatchClosed(t) && t.pending == map[] && t.hasStdinPipe && t.kills == 0
  {
    var s1 := Start.(batchComplete := true);
    var e := AssistantEvent([ToolUse(u)]);
    assert Apply(false, Start, RateLimitEvent(None)) == s1;
    assert [ToolUse(u)][1..] == [];
    assert OnAssistant(false, s1, [ToolUse(u)]) == OnAssistant(false, OnToolUse(s1, u), []) == OnToolUse(s1, u);
    assert Run(false, s1, [e]) == Run(false, Apply(false, s1, e), [e][1..]) == OnToolUse(s1, u);
    assert [RateLimitEvent(None), e][1..] == [e];
  }

  /** Whatever arrives, the loop's books on text and kills are in order and its list is that of the calls taken in. */
  lemma RunFacts(live: bool, events: seq<Event>)
    ensures Sound(live, Run(live, Start, events))
    ensures Run(live, Start, events).toolCalls == McpCalls(Processed(live, Start, events))
  {
    StartSound(live);
    hide Sound;
    RunSound(live, Start, events);
    RunCalls(live, Start, events);
  }

  /**
   Which turns complete, and what they report. A turn that is not rate limited completes if there are calls, however
   the subprocess exits; without calls it completes exactly if it did not fail without text, and there are finished
   builtins or the text is not the CLI's complaint about the prompt. In live mode no calls are reported but every call
   as a resolved builtin, in order, after the builtins; otherwise all calls. The text reported is the text streamed,
   except that a turn ending in calls reports only its part before the first tool result. Reasoning is reported in full.
   */
  lemma CompletedReportsTurn(live: bool, events: seq<Event>, exit: Exit, tooLong: string -> bool, now: int)
    ensures var t := Run(live, Start, events);
            var calls := McpCalls(Processed(live, Start, events));
            var r := Finish(live, t, exit, tooLong, now);
            && (r.Completed? <==>
                  t.limited.None?
                  && (calls != [] || (!(exit.failed && t.full == "") && (t.completed != [] || !tooLong(t.full)))))
            && (r.Completed? ==>
                  && r.toolCalls == (if live then [] else calls)
                  && r.builtins == (if live then t.completed + Resolved(calls, t.liveResults) else t.completed)
                  && t.streamed <= t.full && r.pre + r.post <= t.streamed
                  && (r.toolCalls == [] ==> r.pre + r.post == t.streamed == t.full)
                  && t.streamedReasoning <= r.reasoning)
  {
    hide Run;
    hide Processed;
    hide McpCalls;
    RunFacts(live, events);
    if Finish(live, Run(live, Start, events), exit, tooLong, now).Completed? {
      ReportedText(live, Run(live, Start, events), exit, tooLong, now);
    }
  }

  lemma ReportedText(live: bool, t: Turn, exit: Exit, tooLong: string -> bool, now: int)
    requires TextBooks(live, t) && Finish(live, t, exit, tooLong, now).Completed?
    ensures var r := Finish(live, t, exit, tooLong, now);
            && r.pre + r.post <= t.streamed && t.streamedReasoning <= r.reasoning
            && (r.toolCalls == [] ==> r.pre + r.post == t.streamed == t.full)
  {
    assert t.full + "" == t.full;
    assert t.pre + "" == t.pre <= t.streamed;
  }

  /** The prefix the worker puts on its own tools comes off again, for every tool name. */
  lemma StripUndoesPrefix(name: string)
    ensures StripMcpPrefix("mcp__auxot__" + name) == name
  {
    var full, rest := "mcp__auxot__" + name, "auxot__" + name;
    assert MCP <= full;
    FirstSeparator("mcp", rest);
    assert full == "mcp" + ("__" + rest);
    assert full[5..] == rest;
    FirstSeparator("auxot", name);
    assert rest == "auxot" + ("__" + name);
    assert rest[7..] == name;
  }

  /** The first separator behind a word without underscores is the one that follows it. */
  lemma {:induction false} FirstSeparator(word: string, tail: string)
    requires '_' !in word
    ensures IndexOf(word + ("__" + tail), "__") == Some(|word|)
    decreases |word|
  {
    var s := word + ("__" + tail);
    IndexStep(s, "__");
    if word == [] {
      assert s == "__" + tail;
    } else {
      assert s[0] == word[0] && s[1..] == word[1..] + ("__" + tail);
      FirstSeparator(word[1..], tail);
    }
  }
}
