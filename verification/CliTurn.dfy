/**
 The Claude CLI event loop (internal/cliworker/claude.go) as a fold over the subprocess's event stream: the loop's
 variables, what one event does to them, and what is reported in the end. Two invariants are kept by every event,
 one on text and kills, one on the places and announcements of a tool use's id. What they amount to for a whole
 turn is in CliTurnTheorems.
 */
module CliTurn {
  import opened Prelude
  import opened Strings

  datatype Use = Use(id: string, name: string, input: string)

  datatype Block =
    | TextBlock(text: string)
    | ThinkingBlock(thinking: string)
    | ToolUse(use: Use)
    | ToolResult(toolUseId: string, content: string)
    | OtherBlock

  datatype RateInfo = RateInfo(status: string, resetsAt: int, rateLimitType: string)

  datatype Event =
    | AssistantEvent(blocks: seq<Block>)
    | UserEvent(blocks: seq<Block>)
    | RateLimitEvent(info: Option<RateInfo>)
    | ResultEvent
    | OtherEvent

  datatype McpCall = McpCall(id: string, name: string, arguments: string)

  datatype Builtin = Builtin(id: string, name: string, arguments: string, result: string)

  datatype Turn = Turn(
    full: string, pre: string, post: string, streamed: string,
    reasoning: string, streamedReasoning: string,
    toolCalls: seq<McpCall>, seenMcpTool: bool, seenBuiltinResult: bool, batchComplete: bool,
    pending: map<string, Builtin>, completed: seq<Builtin>, liveResults: map<string, string>,
    hasStdinPipe: bool,     // the loop's pipe variable is not nil; stdin itself is closed before the loop starts
    kills: nat,             // times the subprocess was killed because its batch of calls was complete
    notices: seq<Builtin>,  // real-time tool events sent so far
    limited: Option<RateInfo>)

  const Start: Turn := Turn("", "", "", "", "", "", [], false, false, false, map[], [], map[], true, 0, [], None)

  const MCP: string := "mcp__"

  /** Drop "mcp__<server>__"; a name with no second separator is left alone. */
  function StripMcpPrefix(name: string): string {
    if !(MCP <= name) then name
    else
      var first := IndexOf(name, "__");
      if first.None? then name
      else
        var rest := name[first.value + 2..];
        var second := IndexOf(rest, "__");
        if second.None? then name else rest[second.value + 2..]
  }

  predicate IsMcp(u: Use) {
    MCP <= u.name
  }

  function CallOf(u: Use): McpCall {
    McpCall(u.id, StripMcpPrefix(u.name), u.input)
  }

  function Open(u: Use): Builtin {
    Builtin(u.id, u.name, u.input, "")
  }

  // ---------------------------------------------------------------- one event

  function OnToolUse(s: Turn, u: Use): Turn {
    if IsMcp(u) then
      var c := CallOf(u);
      s.(seenMcpTool := true, toolCalls := s.toolCalls + [c],
         notices := s.notices + [Builtin(c.id, c.name, c.arguments, "")])
    else s.(pending := s.pending[u.id := Open(u)])
  }

  function OnAssistantBlock(live: bool, s: Turn, b: Block): Turn {
    match b
    case TextBlock(t) =>
      var s1 := s.(full := s.full + t);
      if s.seenMcpTool && !live then s1
      else if s.seenBuiltinResult then s1.(post := s.post + t, streamed := s.streamed + t)
      else s1.(pre := s.pre + t, streamed := s.streamed + t)
    case ThinkingBlock(t) =>
      s.(reasoning := s.reasoning + t,
         streamedReasoning := if s.seenMcpTool then s.streamedReasoning else s.streamedReasoning + t)
    case ToolUse(u) => OnToolUse(s, u)
    case _ => s
  }

  function OnAssistant(live: bool, s: Turn, blocks: seq<Block>): Turn
    decreases |blocks|
  {
    if blocks == [] then s else OnAssistant(live, OnAssistantBlock(live, s, blocks[0]), blocks[1..])
  }

  /** The batch's calls are known; what the model says from here on is ignored. */
  predicate BatchClosed(s: Turn) {
    s.batchComplete && s.toolCalls != []
  }

  function KillIfDone(s: Turn): Turn {
    if BatchClosed(s) && s.pending == map[] && s.hasStdinPipe then s.(hasStdinPipe := false, kills := s.kills + 1) else s
  }

  /** A builtin delivered its result. */
  function Completing(s: Turn, id: string, done: Builtin): Turn {
    s.(notices := s.notices + [done], completed := s.completed + [done], pending := s.pending - {id},
       seenBuiltinResult := true)
  }

  function OnUserBlock(live: bool, s: Turn, b: Block): Turn {
    if !b.ToolResult? || b.toolUseId == "" then s
    else if b.toolUseId in s.pending then
      KillIfDone(Completing(s, b.toolUseId, s.pending[b.toolUseId].(result := b.content)))
    else if live then s.(liveResults := s.liveResults[b.toolUseId := b.content], seenBuiltinResult := true)
    else s
  }

  function OnUser(live: bool, s: Turn, blocks: seq<Block>): Turn
    decreases |blocks|
  {
    if blocks == [] then s else OnUser(live, OnUserBlock(live, s, blocks[0]), blocks[1..])
  }

  function OnRateLimit(live: bool, s: Turn, info: Option<RateInfo>): Turn {
    if info.Some? && info.value.status != "allowed" then s.(limited := info)
    else if live then s
    else KillIfDone(s.(batchComplete := true))
  }

  function Apply(live: bool, s: Turn, e: Event): Turn {
    match e
    case AssistantEvent(blocks) => if BatchClosed(s) then s else OnAssistant(live, s, blocks)
    case UserEvent(blocks) => OnUser(live, s, blocks)
    case RateLimitEvent(info) => OnRateLimit(live, s, info)
    case ResultEvent => s.(hasStdinPipe := false)
    case OtherEvent => s
  }

  /** The event loop; it stops early when the account turns out to be limited. */
  function Run(live: bool, s: Turn, events: seq<Event>): Turn
    decreases |events|
  {
    if events == [] || s.limited.Some? then s else Run(live, Apply(live, s, events[0]), events[1..])
  }

  // ---------------------------------------------------------------- what is reported

  function Resolve(c: McpCall, results: map<string, string>): Builtin {
    Builtin(c.id, c.name, c.arguments, if c.id in results then results[c.id] else "")
  }

  function Resolved(calls: seq<McpCall>, results: map<string, string>): (r: seq<Builtin>)
    ensures |r| == |calls| && forall i :: 0 <= i < |r| ==> r[i] == Resolve(calls[i], results)
  {
    seq(|calls|, i requires 0 <= i < |calls| => Resolve(calls[i], results))
  }

  /** How the subprocess ended, and what its stderr shows. */
  datatype Exit = Exit(failed: bool, jobCancelled: bool, cacheLimit: bool, imageError: bool)

  datatype Outcome =
    | Completed(pre: string, post: string, reasoning: string, toolCalls: seq<McpCall>, builtins: seq<Builtin>)
    | Silent
    | Failed
    | RetryCacheControl
    | RetryWithoutImages
    | RetryTrimmed
    | RateLimited(info: RateInfo, retryAfter: int)

  function Report(live: bool, s: Turn, tooLong: string -> bool): Outcome {
    var calls := if live then [] else s.toolCalls;
    var builtins := if live then s.completed + Resolved(s.toolCalls, s.liveResults) else s.completed;
    if calls == [] && builtins == [] && tooLong(s.full) then RetryTrimmed
    else if calls != [] then Completed(s.pre, "", s.reasoning, calls, builtins)
    else if builtins != [] then Completed(s.pre, s.post, s.reasoning, calls, builtins)
    else Completed(s.full, "", s.reasoning, calls, builtins)
  }

  function Finish(live: bool, s: Turn, exit: Exit, tooLong: string -> bool, now: int): Outcome {
    match s.limited
    case Some(info) =>
      RateLimited(info, if info.resetsAt > 0 && info.resetsAt > now then info.resetsAt - now else 0)
    case None =>
      if exit.failed && s.full == "" && s.toolCalls == [] then
        if exit.jobCancelled then Silent
        else if exit.cacheLimit then RetryCacheControl
        else if exit.imageError then RetryWithoutImages
        else Failed
      else Report(live, s, tooLong)
  }

  // ---------------------------------------------------------------- invariants of the loop

  /** Streamed text splits into before and after the first result; only a closed-off batch hides text. */
  ghost predicate TextBooks(live: bool, s: Turn) {
    && s.streamed == s.pre + s.post && s.streamed <= s.full
    && (!s.seenBuiltinResult ==> s.post == "")
    && (live || s.toolCalls == [] ==> s.streamed == s.full)
    && s.streamedReasoning <= s.reasoning && (s.toolCalls == [] ==> s.streamedReasoning == s.reasoning)
    && (s.seenMcpTool <==> s.toolCalls != [])
  }

  /** At most one kill, only with the batch closed, no builtin pending, and the stdin pipe given up; never in live mode. */
  ghost predicate KillBooks(live: bool, s: Turn) {
    && s.kills <= 1
    && (s.kills == 1 ==> !s.hasStdinPipe && BatchClosed(s) && s.pending == map[])
    && (live ==> s.kills == 0 && !s.batchComplete)
  }

  ghost predicate Sound(live: bool, s: Turn) {
    TextBooks(live, s) && KillBooks(live, s)
  }

  lemma TextSound(live: bool, s: Turn, t: string)
    requires TextBooks(live, s)
    ensures TextBooks(live, OnAssistantBlock(live, s, TextBlock(t)))
  {
    if s.seenMcpTool && !live {
      assert s.full <= s.full + t;
    } else {
      assert s.full == s.streamed;
      assert s.pre + s.post + t == s.pre + (s.post + t);
      assert s.post == "" ==> s.pre + t == (s.pre + t) + s.post;
    }
  }

  lemma ThinkingSound(live: bool, s: Turn, t: string)
    requires TextBooks(live, s)
    ensures TextBooks(live, OnAssistantBlock(live, s, ThinkingBlock(t)))
  {
  }

  lemma UseSound(live: bool, s: Turn, u: Use)
    requires TextBooks(live, s)
    ensures TextBooks(live, OnAssistantBlock(live, s, ToolUse(u)))
  {
    hide StripMcpPrefix;
  }

  lemma AssistantBlockSound(live: bool, s: Turn, b: Block)
    requires Sound(live, s) && s.kills == 0
    ensures var t := OnAssistantBlock(live, s, b);
            Sound(live, t) && t.kills == 0 && t.batchComplete == s.batchComplete && t.limited == s.limited
  {
    match b
    case TextBlock(t) => TextSound(live, s, t);
    case ThinkingBlock(t) => ThinkingSound(live, s, t);
    case ToolUse(u) => UseSound(live, s, u);
    case _ =>
  }

  lemma {:induction false} AssistantSound(live: bool, s: Turn, blocks: seq<Block>)
    requires Sound(live, s) && s.kills == 0
    ensures var t := OnAssistant(live, s, blocks);
            Sound(live, t) && t.kills == 0 && t.batchComplete == s.batchComplete && t.limited == s.limited
    decreases |blocks|
  {
    if blocks != [] {
      AssistantBlockSound(live, s, blocks[0]);
      AssistantSound(live, OnAssistantBlock(live, s, blocks[0]), blocks[1..]);
    }
  }

  lemma UserBlockSound(live: bool, s: Turn, b: Block)
    requires Sound(live, s)
    ensures var t := OnUserBlock(live, s, b);
            Sound(live, t) && t.toolCalls == s.toolCalls && t.batchComplete == s.batchComplete && t.limited == s.limited
  {
  }

  lemma {:induction false} UserSound(live: bool, s: Turn, blocks: seq<Block>)
    requires Sound(live, s)
    ensures var t := OnUser(live, s, blocks);
            Sound(live, t) && t.toolCalls == s.toolCalls && t.batchComplete == s.batchComplete && t.limited == s.limited
    decreases |blocks|
  {
    if blocks != [] {
      UserBlockSound(live, s, blocks[0]);
      UserSound(live, OnUserBlock(live, s, blocks[0]), blocks[1..]);
    }
  }

  lemma RateLimitSound(live: bool, s: Turn, info: Option<RateInfo>)
    requires Sound(live, s)
    ensures var t := OnRateLimit(live, s, info);
            Sound(live, t) && t.toolCalls == s.toolCalls && (s.batchComplete ==> t.batchComplete)
  {
  }

  lemma ApplySound(live: bool, s: Turn, e: Event)
    requires Sound(live, s)
    ensures Sound(live, Apply(live, s, e))
    ensures BatchClosed(s) ==> Apply(live, s, e).toolCalls == s.toolCalls && BatchClosed(Apply(live, s, e))
  {
    match e
    case AssistantEvent(blocks) =>
      if !BatchClosed(s) {
        AssistantSound(live, s, blocks);
      }
    case UserEvent(blocks) => UserSound(live, s, blocks);
    case RateLimitEvent(info) => RateLimitSound(live, s, info);
    case _ =>
  }

  /** From a closed batch on, whatever else arrives, the list of calls stays as it is. */
  lemma {:induction false} RunSound(live: bool, s: Turn, events: seq<Event>)
    requires Sound(live, s)
    ensures Sound(live, Run(live, s, events))
    ensures BatchClosed(s) ==> Run(live, s, events).toolCalls == s.toolCalls
    decreases |events|
  {
    if events != [] && s.limited.None? {
      ApplySound(live, s, events[0]);
      RunSound(live, Apply(live, s, events[0]), events[1..]);
    }
  }

  // ---------------------------------------------------------------- every tool use is accounted for

  function UseOf(b: Block): seq<Use> {
    if b.ToolUse? then [b.use] else []
  }

  function UsesIn(blocks: seq<Block>): seq<Use> {
    if blocks == [] then [] else UseOf(blocks[0]) + UsesIn(blocks[1..])
  }

  function Taken(s: Turn, e: Event): seq<Use> {
    if e.AssistantEvent? && !BatchClosed(s) then UsesIn(e.blocks) else []
  }

  /** The tool uses the loop takes in, in order: those of every assistant event that is not ignored. */
  function Processed(live: bool, s: Turn, events: seq<Event>): seq<Use>
    decreases |events|
  {
    if events == [] || s.limited.Some? then []
    else Taken(s, events[0]) + Processed(live, Apply(live, s, events[0]), events[1..])
  }

  function McpCalls(uses: seq<Use>): seq<McpCall> {
    if uses == [] then [] else (if IsMcp(uses[0]) then [CallOf(uses[0])] else []) + McpCalls(uses[1..])
  }

  function CountUses(uses: seq<Use>, x: string): nat {
    if uses == [] then 0 else CountUses(uses[..|uses| - 1], x) + if uses[|uses| - 1].id == x then 1 else 0
  }

  function CountCalls(calls: seq<McpCall>, x: string): nat {
    if calls == [] then 0 else CountCalls(calls[..|calls| - 1], x) + if calls[|calls| - 1].id == x then 1 else 0
  }

  function CountBuiltins(done: seq<Builtin>, x: string): nat {
    if done == [] then 0 else CountBuiltins(done[..|done| - 1], x) + if done[|done| - 1].id == x then 1 else 0
  }

  function CountPending(pending: map<string, Builtin>, x: string): nat {
    if x in pending then 1 else 0
  }

  /** In how many places an id is: the MCP list, the completed builtins, the pending ones. */
  function Places(s: Turn, x: string): nat {
    CountCalls(s.toolCalls, x) + CountBuiltins(s.completed, x) + CountPending(s.pending, x)
  }

  /** How often an id has been announced by a real-time event, or is to be: pending builtins are announced at the end. */
  function Due(s: Turn, x: string): nat {
    CountBuiltins(s.notices, x) + CountPending(s.pending, x)
  }

  /** How often an id is announced in all: a limited account ends the run before the pending builtins are. */
  function Announced(s: Turn, x: string): nat {
    if s.limited.None? then Due(s, x) else CountBuiltins(s.notices, x)
  }

  ghost predicate Counts(s: Turn, uses: seq<Use>, x: string) {
    Places(s, x) == CountUses(uses, x) && Due(s, x) == CountUses(uses, x)
  }

  /** Pending and completed builtins are the model's own uses, pending ones still without a result. */
  ghost predicate FromUses(pending: map<string, Builtin>, completed: seq<Builtin>, uses: set<Use>) {
    && (forall k :: k in pending ==> IsOpen(k, pending[k], uses))
    && (forall d :: d in completed ==> IsDone(d, uses))
  }

  predicate IsOpen(k: string, d: Builtin, uses: set<Use>) {
    d.id == k && d.result == "" && IsDone(d, uses)
  }

  predicate IsDone(d: Builtin, uses: set<Use>) {
    Use(d.id, d.name, d.arguments) in uses && !(MCP <= d.name)
  }

  ghost function UseSet(uses: seq<Use>): set<Use> {
    set u | u in uses
  }

  /** The books for one id: its places and announcements, and where the builtins come from. */
  ghost predicate Books(s: Turn, uses: seq<Use>, x: string) {
    Counts(s, uses, x) && FromUses(s.pending, s.completed, UseSet(uses))
  }

  lemma CallSnoc(calls: seq<McpCall>, c: McpCall, x: string)
    ensures CountCalls(calls + [c], x) == CountCalls(calls, x) + if c.id == x then 1 else 0
  {
    assert (calls + [c])[..|calls|] == calls;
  }

  lemma BuiltinSnoc(done: seq<Builtin>, d: Builtin, x: string)
    ensures CountBuiltins(done + [d], x) == CountBuiltins(done, x) + if d.id == x then 1 else 0
  {
    assert (done + [d])[..|done|] == done;
  }

  lemma UseSnoc(uses: seq<Use>, u: Use, x: string)
    ensures CountUses(uses + [u], x) == CountUses(uses, x) + if u.id == x then 1 else 0
    ensures UseSet(uses + [u]) == UseSet(uses) + {u}
  {
    assert (uses + [u])[..|uses|] == uses;
  }

  lemma McpCounts(s: Turn, uses: seq<Use>, u: Use, x: string)
    requires Counts(s, uses, x) && IsMcp(u)
    ensures Counts(OnToolUse(s, u), uses + [u], x)
  {
    hide StripMcpPrefix;
    UseSnoc(uses, u, x);
    CallSnoc(s.toolCalls, CallOf(u), x);
    BuiltinSnoc(s.notices, Builtin(u.id, CallOf(u).name, u.input, ""), x);
  }

  lemma BuiltinCountsIff(s: Turn, uses: seq<Use>, u: Use, x: string)
    requires Counts(s, uses, x) && !IsMcp(u)
    ensures Counts(OnToolUse(s, u), uses + [u], x) <==> u.id != x || x !in s.pending
  {
    hide StripMcpPrefix;
    UseSnoc(uses, u, x);
    assert CountPending(s.pending[u.id := Open(u)], x) == if u.id == x then 1 else CountPending(s.pending, x);
  }

  /** A use is accounted for unless it is a builtin whose id is already pending: then the older one is lost. */
  lemma UseCountsIff(s: Turn, uses: seq<Use>, u: Use, x: string)
    requires Counts(s, uses, x)
    ensures Counts(OnToolUse(s, u), uses + [u], x) <==> IsMcp(u) || u.id != x || x !in s.pending
  {
    if IsMcp(u) {
      McpCounts(s, uses, u, x);
    } else {
      BuiltinCountsIff(s, uses, u, x);
    }
  }

  lemma MoreUses(pending: map<string, Builtin>, completed: seq<Builtin>, uses: set<Use>, u: Use)
    requires FromUses(pending, completed, uses)
    ensures FromUses(pending, completed, uses + {u})
  {
    forall k | k in pending ensures IsOpen(k, pending[k], uses + {u}) {
      assert IsOpen(k, pending[k], uses);
    }
    forall d | d in completed ensures IsDone(d, uses + {u}) {
      assert IsDone(d, uses);
    }
  }

  lemma OpenedUse(pending: map<string, Builtin>, completed: seq<Builtin>, uses: set<Use>, u: Use)
    requires FromUses(pending, completed, uses) && u in uses && !IsMcp(u)
    ensures FromUses(pending[u.id := Open(u)], completed, uses)
  {
    assert IsOpen(u.id, Open(u), uses);
  }

  lemma UseFrom(s: Turn, uses: seq<Use>, u: Use)
    requires FromUses(s.pending, s.completed, UseSet(uses))
    ensures FromUses(OnToolUse(s, u).pending, OnToolUse(s, u).completed, UseSet(uses + [u]))
  {
    hide FromUses;
    hide StripMcpPrefix;
    UseSnoc(uses, u, "");
    MoreUses(s.pending, s.completed, UseSet(uses), u);
    if !IsMcp(u) {
      OpenedUse(s.pending, s.completed, UseSet(uses + [u]), u);
    }
  }

  lemma UseBooks(s: Turn, uses: seq<Use>, u: Use, x: string)
    requires Books(s, uses, x) && (u.id == x ==> CountUses(uses, x) == 0)
    ensures Books(OnToolUse(s, u), uses + [u], x)
  {
    UseCountsIff(s, uses, u, x);
    UseFrom(s, uses, u);
  }

  lemma ResultCounts(s: Turn, uses: seq<Use>, done: Builtin, x: string)
    requires Counts(s, uses, x) && done.id in s.pending
    ensures Counts(Completing(s, done.id, done), uses, x)
  {
    BuiltinSnoc(s.completed, done, x);
    BuiltinSnoc(s.notices, done, x);
    assert CountPending(s.pending - {done.id}, x) == CountPending(s.pending, x) - if done.id == x then 1 else 0;
  }

  lemma ResultFromUses(pending: map<string, Builtin>, completed: seq<Builtin>, uses: set<Use>, id: string, result: string)
    requires FromUses(pending, completed, uses) && id in pending
    ensures FromUses(pending - {id}, completed + [pending[id].(result := result)], uses)
  {
    assert IsOpen(id, pending[id], uses);
  }

  lemma CompletingBooks(s: Turn, uses: seq<Use>, id: string, result: string, x: string)
    requires Books(s, uses, x) && id in s.pending
    ensures s.pending[id].id == id && Books(Completing(s, id, s.pending[id].(result := result)), uses, x)
  {
    assert IsOpen(id, s.pending[id], UseSet(uses));
    hide FromUses;
    ResultCounts(s, uses, s.pending[id].(result := result), x);
    ResultFromUses(s.pending, s.completed, UseSet(uses), id, result);
  }

  lemma UserBlockBooks(live: bool, s: Turn, uses: seq<Use>, b: Block, x: string)
    requires Books(s, uses, x)
    ensures Books(OnUserBlock(live, s, b), uses, x)
  {
    if b.ToolResult? && b.toolUseId != "" && b.toolUseId in s.pending {
      hide Books;
      CompletingBooks(s, uses, b.toolUseId, b.content, x);
      KillBooksKeep(Completing(s, b.toolUseId, s.pending[b.toolUseId].(result := b.content)), uses, x);
    }
  }

  lemma KillBooksKeep(s: Turn, uses: seq<Use>, x: string)
    requires Books(s, uses, x)
    ensures Books(KillIfDone(s), uses, x)
  {
  }

  lemma {:induction false} UserBooks(live: bool, s: Turn, uses: seq<Use>, blocks: seq<Block>, x: string)
    requires Books(s, uses, x)
    ensures Books(OnUser(live, s, blocks), uses, x)
    decreases |blocks|
  {
    if blocks != [] {
      UserBlockBooks(live, s, uses, blocks[0], x);
      UserBooks(live, OnUserBlock(live, s, blocks[0]), uses, blocks[1..], x);
    }
  }

  lemma SaidBooks(live: bool, s: Turn, uses: seq<Use>, b: Block, x: string)
    requires Books(s, uses, x) && !b.ToolUse?
    ensures Books(OnAssistantBlock(live, s, b), uses, x)
  {
  }

  lemma {:induction false} CountAppend(a: seq<Use>, b: seq<Use>, x: string)
    ensures CountUses(a + b, x) == CountUses(a, x) + CountUses(b, x)
  {
    if b == [] {
      assert a + b == a;
    } else {
      var n := |b| - 1;
      assert (a + b)[..|a + b| - 1] == a + b[..n];
      CountAppend(a, b[..n], x);
    }
  }

  lemma BlockBooks(live: bool, s: Turn, uses: seq<Use>, b: Block, x: string)
    requires Books(s, uses, x) && CountUses(uses + UseOf(b), x) <= 1
    ensures Books(OnAssistantBlock(live, s, b), uses + UseOf(b), x)
  {
    if b.ToolUse? {
      UseSnoc(uses, b.use, x);
      UseBooks(s, uses, b.use, x);
    } else {
      assert uses + [] == uses;
      SaidBooks(live, s, uses, b, x);
    }
  }

  lemma {:induction false} AssistantBooks(live: bool, s: Turn, uses: seq<Use>, blocks: seq<Block>, x: string)
    requires Books(s, uses, x) && CountUses(uses + UsesIn(blocks), x) <= 1
    ensures Books(OnAssistant(live, s, blocks), uses + UsesIn(blocks), x)
    decreases |blocks|
  {
    hide OnAssistantBlock;
    hide Books;
    if blocks == [] {
      assert uses + [] == uses;
    } else {
      var b, rest := blocks[0], blocks[1..];
      var mid := uses + UseOf(b);
      assert uses + UsesIn(blocks) == mid + UsesIn(rest);
      CountAppend(mid, UsesIn(rest), x);
      BlockBooks(live, s, uses, b, x);
      AssistantBooks(live, OnAssistantBlock(live, s, b), mid, rest, x);
    }
  }

  lemma LimitBooks(live: bool, s: Turn, uses: seq<Use>, info: Option<RateInfo>, x: string)
    requires Books(s, uses, x)
    ensures Books(OnRateLimit(live, s, info), uses, x)
  {
    assert Books(s.(batchComplete := true), uses, x);
    KillBooksKeep(s.(batchComplete := true), uses, x);
  }

  lemma OtherBooks(live: bool, s: Turn, uses: seq<Use>, e: Event, x: string)
    requires Books(s, uses, x) && !(e.AssistantEvent? && !BatchClosed(s))
    ensures Books(Apply(live, s, e), uses, x)
  {
    match e
    case UserEvent(blocks) => UserBooks(live, s, uses, blocks, x);
    case RateLimitEvent(info) => LimitBooks(live, s, uses, info, x);
    case _ =>
  }

  lemma EventBooks(live: bool, s: Turn, uses: seq<Use>, e: Event, x: string)
    requires Books(s, uses, x) && CountUses(uses + Taken(s, e), x) <= 1
    ensures Books(Apply(live, s, e), uses + Taken(s, e), x)
  {
    if e.AssistantEvent? && !BatchClosed(s) {
      AssistantBooks(live, s, uses, e.blocks, x);
    } else {
      assert uses + [] == uses;
      OtherBooks(live, s, uses, e, x);
    }
  }

  lemma {:induction false} RunBooks(live: bool, s: Turn, uses: seq<Use>, events: seq<Event>, x: string)
    requires Books(s, uses, x) && CountUses(uses + Processed(live, s, events), x) <= 1
    ensures Books(Run(live, s, events), uses + Processed(live, s, events), x)
    decreases |events|
  {
    hide Apply;
    hide Books;
    hide Taken;
    if events == [] || s.limited.Some? {
      assert uses + [] == uses;
    } else {
      var t := Apply(live, s, events[0]);
      var mid, more := uses + Taken(s, events[0]), Processed(live, t, events[1..]);
      assert uses + Processed(live, s, events) == mid + more;
      CountAppend(mid, more, x);
      EventBooks(live, s, uses, events[0], x);
      RunBooks(live, t, mid, events[1..], x);
    }
  }

  lemma Regroup<T>(a: seq<T>, b: seq<T>, c: seq<T>)
    ensures a + (b + c) == a + b + c && [] + c == c
  {
  }

  lemma McpHead(u: Use, rest: seq<Use>)
    ensures McpCalls([u] + rest) == (if IsMcp(u) then [CallOf(u)] else []) + McpCalls(rest)
  {
    assert ([u] + rest)[1..] == rest;
  }

  lemma {:induction false} McpAppend(a: seq<Use>, b: seq<Use>)
    ensures McpCalls(a + b) == McpCalls(a) + McpCalls(b)
    decreases |a|
  {
    if a == [] {
      assert a + b == b && McpCalls(a) == [];
    } else {
      var u, rest := a[0], a[1..];
      assert a == [u] + rest && a + b == [u] + (rest + b);
      hide McpCalls;
      hide CallOf;
      McpHead(u, rest);
      McpHead(u, rest + b);
      McpAppend(rest, b);
      Regroup(if IsMcp(u) then [CallOf(u)] else [], McpCalls(rest), McpCalls(b));
    }
  }

  lemma BlockCalls(live: bool, s: Turn, b: Block)
    ensures OnAssistantBlock(live, s, b).toolCalls == s.toolCalls + McpCalls(UseOf(b))
  {
    if b.ToolUse? {
      assert McpCalls([b.use]) == (if IsMcp(b.use) then [CallOf(b.use)] else []) + McpCalls([]);
    }
  }

  lemma {:induction false} AssistantCalls(live: bool, s: Turn, blocks: seq<Block>)
    ensures OnAssistant(live, s, blocks).toolCalls == s.toolCalls + McpCalls(UsesIn(blocks))
    decreases |blocks|
  {
    if blocks != [] {
      hide McpCalls;
      hide OnAssistantBlock;
      var first, rest := UseOf(blocks[0]), UsesIn(blocks[1..]);
      BlockCalls(live, s, blocks[0]);
      AssistantCalls(live, OnAssistantBlock(live, s, blocks[0]), blocks[1..]);
      McpAppend(first, rest);
      assert s.toolCalls + (McpCalls(first) + McpCalls(rest)) == s.toolCalls + McpCalls(first) + McpCalls(rest);
    }
  }

  lemma {:induction false} UserCalls(live: bool, s: Turn, blocks: seq<Block>)
    ensures OnUser(live, s, blocks).toolCalls == s.toolCalls
    decreases |blocks|
  {
    if blocks != [] {
      UserCalls(live, OnUserBlock(live, s, blocks[0]), blocks[1..]);
    }
  }

  lemma OtherCalls(live: bool, s: Turn, e: Event)
    requires !(e.AssistantEvent? && !BatchClosed(s))
    ensures Apply(live, s, e).toolCalls == s.toolCalls
  {
    if e.UserEvent? {
      UserCalls(live, s, e.blocks);
    }
  }

  lemma EventCalls(live: bool, s: Turn, e: Event)
    ensures Apply(live, s, e).toolCalls == s.toolCalls + McpCalls(Taken(s, e))
  {
    if e.AssistantEvent? && !BatchClosed(s) {
      AssistantCalls(live, s, e.blocks);
    } else {
      OtherCalls(live, s, e);
    }
  }

  /** The call list grows by the MCP uses taken in, in order and with the server prefix removed. */
  lemma {:induction false} RunCalls(live: bool, s: Turn, events: seq<Event>)
    ensures Run(live, s, events).toolCalls == s.toolCalls + McpCalls(Processed(live, s, events))
    decreases |events|
  {
    hide Apply;
    hide Taken;
    if events != [] && s.limited.None? {
      var t := Apply(live, s, events[0]);
      EventCalls(live, s, events[0]);
      RunCalls(live, t, events[1..]);
      McpAppend(Taken(s, events[0]), Processed(live, t, events[1..]));
    }
  }

  // ---------------------------------------------------------------- pending builtins are filed under their own id

  ghost predicate Filed(s: Turn) {
    forall k :: k in s.pending ==> s.pending[k].id == k
  }

  lemma {:induction false} AssistantFiled(live: bool, s: Turn, blocks: seq<Block>)
    requires Filed(s)
    ensures Filed(OnAssistant(live, s, blocks))
    decreases |blocks|
  {
    if blocks != [] {
      hide StripMcpPrefix;
      AssistantFiled(live, OnAssistantBlock(live, s, blocks[0]), blocks[1..]);
    }
  }

  lemma {:induction false} UserFiled(live: bool, s: Turn, blocks: seq<Block>)
    requires Filed(s)
    ensures Filed(OnUser(live, s, blocks))
    decreases |blocks|
  {
    if blocks != [] {
      UserFiled(live, OnUserBlock(live, s, blocks[0]), blocks[1..]);
    }
  }

  lemma {:induction false} RunFiled(live: bool, s: Turn, events: seq<Event>)
    requires Filed(s)
    ensures Filed(Run(live, s, events))
    decreases |events|
  {
    hide Apply;
    if events != [] && s.limited.None? {
      ApplyFiled(live, s, events[0]);
      RunFiled(live, Apply(live, s, events[0]), events[1..]);
    }
  }

  lemma ApplyFiled(live: bool, s: Turn, e: Event)
    requires Filed(s)
    ensures Filed(Apply(live, s, e))
  {
    hide OnAssistant;
    hide OnUser;
    match e
    case AssistantEvent(blocks) => AssistantFiled(live, s, blocks);
    case UserEvent(blocks) => UserFiled(live, s, blocks);
    case _ =>
  }
}
