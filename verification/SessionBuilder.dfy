/** Choosing the history and writing the session file, step by step (internal/cliworker/claude.go, buildSessionFile). */
module SessionBuilder {
  import opened Prelude
  import opened Protocol
  import opened SessionFile

  /** No entries means that no file is written. */
  datatype Session = Session(
    entries: seq<Entry>, systemPrompt: string, currentPrompt: string, images: seq<Image>, isContinuation: bool)

  // ---------------------------------------------------------------- what is kept

  /** The last message with this role, or -1. */
  function LastWith(h: seq<Msg>, r: Role): (k: int)
    ensures -1 <= k < |h| && (k >= 0 ==> h[k].role == r)
  {
    if h == [] then -1
    else if h[|h| - 1].role == r then |h| - 1
    else LastWith(h[..|h| - 1], r)
  }

  lemma {:induction false} NoneAfterLast(h: seq<Msg>, r: Role, i: nat)
    requires LastWith(h, r) < i < |h|
    ensures h[i].role != r
  {
    if i < |h| - 1 {
      NoneAfterLast(h[..|h| - 1], r, i);
    }
  }

  /** After the last user message come only assistant and tool messages, at least one of them a tool message. */
  ghost predicate Continues(conv: seq<Msg>, lastUser: int)
    requires -1 <= lastUser < |conv|
  {
    && lastUser >= 0
    && (forall i :: lastUser < i < |conv| ==> conv[i].role.Tool? || conv[i].role.Assistant?)
    && (exists i :: lastUser < i < |conv| && conv[i].role.Tool?)
  }

  function Newest(h: seq<Msg>): seq<Msg> {
    if |h| > MAX_HISTORY then h[|h| - MAX_HISTORY..] else h
  }

  ghost function Retained(conv: seq<Msg>): seq<Msg> {
    var u := LastWith(conv, User);
    if u < 0 then []
    else if Continues(conv, u) then if LastWith(conv, Assistant) < 0 then [] else Newest(conv)
    else Newest(conv[..LastWith(conv[..u], Assistant) + 1])
  }

  function Conversation(messages: seq<Msg>): seq<Msg> {
    if messages == [] then []
    else Conversation(messages[..|messages| - 1])
         + if messages[|messages| - 1].role.System? then [] else [messages[|messages| - 1]]
  }

  function Systems(messages: seq<Msg>): seq<Msg> {
    if messages == [] then []
    else Systems(messages[..|messages| - 1])
         + if messages[|messages| - 1].role.System? then [messages[|messages| - 1]] else []
  }

  /** The text of the last system message. */
  function SystemText(messages: seq<Msg>): string {
    if messages == [] then ""
    else if messages[|messages| - 1].role.System? then messages[|messages| - 1].text
    else SystemText(messages[..|messages| - 1])
  }

  /** The last system message, if it says anything, followed by the standing instruction. */
  function SystemPrompt(messages: seq<Msg>, instr: string): string {
    if SystemText(messages) == "" then instr else SystemText(messages) + "\n\n" + instr
  }

  ghost predicate Chained(entries: seq<Entry>) {
    forall k :: 0 <= k < |entries| ==> entries[k].parent == if k == 0 then None else Some(entries[k - 1].uuid)
  }

  ghost function BodiesOf(entries: seq<Entry>): seq<Body> {
    seq(|entries|, k requires 0 <= k < |entries| => entries[k].body)
  }

  ghost predicate DistinctUuids(entries: seq<Entry>) {
    forall j, k :: 0 <= j < k < |entries| ==> entries[j].uuid != entries[k].uuid
  }

  // ---------------------------------------------------------------- the loops

  method FindLast(h: seq<Msg>, r: Role) returns (k: int)
    ensures k == LastWith(h, r)
  {
    k := |h| - 1;
    assert h[..k + 1] == h;
    while k >= 0
      invariant -1 <= k < |h| && LastWith(h[..k + 1], r) == LastWith(h, r)
    {
      if h[k].role == r {
        break;
      }
      assert h[..k + 1][..k] == h[..k];
      k := k - 1;
    }
  }

  lemma TakeOne(messages: seq<Msg>, i: nat)
    requires i < |messages|
    ensures var m, before, after := messages[i], messages[..i], messages[..i + 1];
            && Conversation(after) == Conversation(before) + (if m.role.System? then [] else [m])
            && Systems(after) == Systems(before) + (if m.role.System? then [m] else [])
            && SystemText(after) == if m.role.System? then m.text else SystemText(before)
  {
    assert messages[..i + 1][..i] == messages[..i];
  }

  method SplitSystem(messages: seq<Msg>) returns (systemPrompt: string, conv: seq<Msg>)
    ensures conv == Conversation(messages) && systemPrompt == SystemText(messages)
  {
    systemPrompt, conv := "", [];
    var i := 0;
    while i < |messages|
      invariant i <= |messages| && conv == Conversation(messages[..i]) && systemPrompt == SystemText(messages[..i])
    {
      TakeOne(messages, i);
      if messages[i].role.System? {
        systemPrompt := messages[i].text;
      } else {
        conv := conv + [messages[i]];
      }
      i := i + 1;
    }
    assert messages[..i] == messages;
  }

  method IsToolChain(conv: seq<Msg>, lastUser: int) returns (r: bool)
    requires -1 <= lastUser < |conv|
    ensures r <==> Continues(conv, lastUser)
  {
    if lastUser < 0 || lastUser >= |conv| - 1 {
      return false;
    }
    var isToolChain, hasToolMsg := true, false;
    var i := lastUser + 1;
    while i < |conv| && isToolChain
      invariant lastUser < i <= |conv|
      invariant isToolChain ==> forall k :: lastUser < k < i ==> conv[k].role.Tool? || conv[k].role.Assistant?
      invariant !isToolChain ==> exists k :: lastUser < k < |conv| && !conv[k].role.Tool? && !conv[k].role.Assistant?
      invariant hasToolMsg <==> exists k :: lastUser < k < i && conv[k].role.Tool?
    {
      if conv[i].role.Tool? {
        hasToolMsg := true;
      } else if !conv[i].role.Assistant? {
        isToolChain := false;
      }
      i := i + 1;
    }
    return isToolChain && hasToolMsg;
  }

  /** The entries so far are a chain of distinct ids taken from the first `used` ones. */
  ghost predicate Linked(entries: seq<Entry>, prevUuid: string, uuids: seq<string>, used: nat)
    requires used <= |uuids|
  {
    && Chained(entries) && DistinctUuids(entries)
    && (forall k :: 0 <= k < |entries| ==> entries[k].uuid in uuids[..used])
    && prevUuid == if entries == [] then "" else entries[|entries| - 1].uuid
  }

  lemma LinkNext(entries: seq<Entry>, prevUuid: string, uuids: seq<string>, used: nat, body: Body)
    requires used < |uuids| && Linked(entries, prevUuid, uuids, used) && Distinct(uuids) && "" !in uuids
    ensures var e := Entry(uuids[used], if prevUuid != "" then Some(prevUuid) else None, body);
            && Linked(entries + [e], uuids[used], uuids, used + 1)
            && BodiesOf(entries + [e]) == BodiesOf(entries) + [body]
  {
    var uuid := uuids[used];
    var all := entries + [Entry(uuid, if prevUuid != "" then Some(prevUuid) else None, body)];
    var before := uuids[..used];
    FreshUuid(uuids, used);
    forall k | 0 <= k < |entries| ensures all[k] == entries[k] && all[k].uuid in before && all[k].uuid != "" {
      assert entries[k].uuid in before;
    }
    assert prevUuid != "" <==> entries != [];
    assert all[|entries|].uuid == uuid && uuid in uuids[..used + 1];
    assert forall u :: u in before ==> u in uuids[..used + 1];
    assert DistinctUuids(all);
    assert Chained(all);
  }

  lemma FreshUuid(uuids: seq<string>, used: nat)
    requires used < |uuids| && Distinct(uuids) && "" !in uuids
    ensures uuids[used] !in uuids[..used] && "" !in uuids[..used]
    ensures uuids[..used + 1] == uuids[..used] + [uuids[used]]
  {
  }

  /** The entry body for the message at `start`, if it makes one, and where the rest begins. */
  method NextBody(tools: set<string>, history: seq<Msg>, start: nat) returns (body: Option<Body>, i: nat)
    requires start < |history|
    ensures start < i <= |history|
    ensures Bodies(tools, history, start) == (if body.Some? then [body.value] else []) + Bodies(tools, history, i)
  {
    var msg := history[start];
    match msg.role {
      case User =>
        body, i := Some(UserBody(TextAndImages(msg.text, msg.images))), start + 1;
      case Assistant =>
        body, i := Some(AssistantBody(Speech(tools, msg))), start + 1;
      case Tool =>
        var blocks: seq<Block>;
        blocks, i := CollectResults(history, start);
        body := Some(UserBody(blocks));
      case _ =>
        body, i := None, start + 1;
    }
  }

  /** One entry per user or assistant message and per run of tool messages, each linked to the one before. */
  method WriteEntries(tools: set<string>, history: seq<Msg>, uuids: seq<string>) returns (entries: seq<Entry>)
    requires |history| <= |uuids| && Distinct(uuids) && "" !in uuids
    ensures BodiesOf(entries) == Bodies(tools, history, 0)
    ensures Chained(entries) && DistinctUuids(entries)
  {
    entries := [];
    var prevUuid := "";
    var i, used := 0, 0;
    while i < |history|
      invariant used <= i <= |history| && Linked(entries, prevUuid, uuids, used)
      invariant BodiesOf(entries) + Bodies(tools, history, i) == Bodies(tools, history, 0)
    {
      var uuid := uuids[used];
      var body: Option<Body>;
      body, i := NextBody(tools, history, i);
      if body.Some? {
        LinkNext(entries, prevUuid, uuids, used, body.value);
        entries := entries + [Entry(uuid, if prevUuid != "" then Some(prevUuid) else None, body.value)];
        prevUuid := uuid;
      } else {
        assert forall x :: x in uuids[..used] ==> x in uuids[..used + 1];
      }
      used := used + 1;
    }
  }

  lemma RunStep(h: seq<Msg>, i: nat, done: seq<Block>, b: Block)
    requires i < |h| && h[i].role.Tool? && b == Result(h[i])
    ensures done + RunResults(h, i) == (done + [b]) + RunResults(h, i + 1) && RunEnd(h, i) == RunEnd(h, i + 1)
  {
  }

  lemma RunStop(h: seq<Msg>, i: nat)
    requires i <= |h| && (i < |h| ==> !h[i].role.Tool?)
    ensures RunResults(h, i) == [] && RunEnd(h, i) == i
  {
  }

  method CollectResults(history: seq<Msg>, start: nat) returns (blocks: seq<Block>, i: nat)
    requires start < |history| && history[start].role.Tool?
    ensures i == RunEnd(history, start) && blocks == RunResults(history, start)
  {
    hide *;
    blocks, i := [], start;
    while i < |history| && history[i].role.Tool?
      invariant start <= i <= |history| && RunEnd(history, i) == RunEnd(history, start)
      invariant blocks + RunResults(history, i) == RunResults(history, start)
    {
      var block := Result(history[i]);
      RunStep(history, i, blocks, block);
      blocks := blocks + [block];
      i := i + 1;
    }
    RunStop(history, i);
  }

  /** Pick the history to keep, and say whether this is a continuation. */
  method ChooseHistory(conv: seq<Msg>, lastUser: int) returns (history: seq<Msg>, continuation: bool)
    requires 0 <= lastUser == LastWith(conv, User)
    ensures history == Retained(conv) && (continuation <==> Continues(conv, lastUser))
  {
    history := conv[..lastUser];
    var lastAssistant := FindLast(history, Assistant);
    continuation := IsToolChain(conv, lastUser);
    if continuation {
      history := conv;
      lastAssistant := FindLast(history, Assistant);
    }
    if lastAssistant < 0 {
      return [], continuation;
    }
    if !continuation {
      history := history[..lastAssistant + 1];
      assert history == conv[..lastAssistant + 1];
    }
    if |history| > MAX_HISTORY {
      var drop := |history| - MAX_HISTORY;
      history := history[drop..];
    }
  }

  method BuildSession(messages: seq<Msg>, tools: set<string>, instr: string, uuids: seq<string>) returns (s: Session)
    requires |messages| <= |uuids| && Distinct(uuids) && "" !in uuids
    ensures BodiesOf(s.entries) == Bodies(tools, Retained(Conversation(messages)), 0)
    ensures Chained(s.entries) && DistinctUuids(s.entries)
    ensures s.systemPrompt == SystemPrompt(messages, instr)
    ensures var conv := Conversation(messages);
            var u := LastWith(conv, User);
            && (s.isContinuation <==> Continues(conv, u))
            && s.currentPrompt == (if u < 0 || s.isContinuation then "" else conv[u].text)
            && s.images == (if u < 0 || s.isContinuation then [] else conv[u].images)
  {
    var system, conv := SplitSystem(messages);
    ConversationShorter(messages);
    var systemPrompt := if system != "" then system + "\n\n" + instr else instr;
    var lastUser := FindLast(conv, User);
    if lastUser < 0 {
      return Session([], systemPrompt, "", [], false);
    }
    var history, continuation := ChooseHistory(conv, lastUser);
    RetainedFits(conv);
    var entries := WriteEntries(tools, history, uuids);
    s := Session(entries, systemPrompt, if continuation then "" else conv[lastUser].text,
                 if continuation then [] else conv[lastUser].images, continuation);
  }

  lemma RetainedFits(conv: seq<Msg>)
    ensures |Retained(conv)| <= |conv|
  {
  }

  lemma {:induction false} ConversationShorter(messages: seq<Msg>)
    ensures |Conversation(messages)| <= |messages|
  {
    if messages != [] {
      ConversationShorter(messages[..|messages| - 1]);
    }
  }

  // ---------------------------------------------------------------- what a session file is good for

  /**
   Outside continuations the kept history is the newest 120 (or all) of the messages up to the last assistant turn
   before the final user message, so it ends on an assistant turn; in a continuation it ends with the conversation.
   */
  lemma RetainedShape(conv: seq<Msg>)
    requires Retained(conv) != []
    ensures var u := LastWith(conv, User);
            u >= 0 && IsNewest(Retained(conv), conv, KeptEnd(conv)) && 0 < KeptEnd(conv)
            && (!Continues(conv, u) ==>
                  && KeptEnd(conv) <= u && conv[KeptEnd(conv) - 1].role.Assistant?
                  && forall i :: KeptEnd(conv) <= i < u ==> !conv[i].role.Assistant?)
  {
    hide *;
    RetainedIs(conv);
    NewestOfPrefix(conv, KeptEnd(conv));
    NoneBetween(conv, LastWith(conv, User));
  }

  lemma RetainedIs(conv: seq<Msg>)
    requires Retained(conv) != []
    ensures var u := LastWith(conv, User);
            && u >= 0 && Retained(conv) == Newest(conv[..KeptEnd(conv)]) && 0 < KeptEnd(conv)
            && (!Continues(conv, u) ==> KeptEnd(conv) == LastWith(conv[..u], Assistant) + 1)
  {
    hide LastWith;
    hide Continues;
    assert conv[..|conv|] == conv;
  }

  lemma NoneBetween(conv: seq<Msg>, u: nat)
    requires u <= |conv|
    ensures forall i :: LastWith(conv[..u], Assistant) < i < u ==> !conv[i].role.Assistant?
  {
    forall i | LastWith(conv[..u], Assistant) < i < u ensures !conv[i].role.Assistant? {
      NoneAfterLast(conv[..u], Assistant, i);
    }
  }

  /** Where the kept history ends: after the last assistant turn before the final user message, or at the very end. */
  ghost function KeptEnd(conv: seq<Msg>): (end: nat)
    ensures end <= |conv|
  {
    var u := LastWith(conv, User);
    if u < 0 then 0
    else if Continues(conv, u) then |conv|
    else LastWith(conv[..u], Assistant) + 1
  }

  /** h is the newest 120 of the messages before position `end`, or all of them if there are fewer. */
  ghost predicate IsNewest(h: seq<Msg>, conv: seq<Msg>, end: nat) {
    && end <= |conv| && |h| == (if end > MAX_HISTORY then MAX_HISTORY else end)
    && h == conv[end - |h|..end]
  }

  lemma NewestOfPrefix(conv: seq<Msg>, end: nat)
    requires end <= |conv|
    ensures IsNewest(Newest(conv[..end]), conv, end)
  {
  }

  /** The written file reads back as the kept history. */
  lemma SessionDecodes(tools: set<string>, conv: seq<Msg>, entries: seq<Entry>)
    requires BodiesOf(entries) == Bodies(tools, Retained(conv), 0)
    ensures Read(BodiesOf(entries)) == FiledHistory(tools, Retained(conv), 0, |Retained(conv)|)
  {
    FileDecodes(tools, Retained(conv), 0);
  }

  // ---------------------------------------------------------------- the retry after "prompt is too long"

  /** How many messages go: at least one if that leaves something, never all of them. */
  function TrimCount(wanted: int, n: nat): (drop: nat)
    ensures n > 0 ==> drop < n
    ensures n >= 2 ==> drop >= 1
    ensures 1 <= wanted < n ==> drop == wanted
  {
    var atLeastOne := if wanted < 1 then 1 else wanted;
    if atLeastOne >= n then n / 2 else atLeastOne
  }

  /** Drop the oldest messages that are not system messages; `wanted` is how many the fraction asks for. */
  method TrimOldest(messages: seq<Msg>, wanted: int) returns (r: seq<Msg>)
    ensures TrimCount(wanted, |Conversation(messages)|) <= |Conversation(messages)|
    ensures r == Systems(messages) + Conversation(messages)[TrimCount(wanted, |Conversation(messages)|)..]
  {
    var sys, conv := [], [];
    var i := 0;
    while i < |messages|
      invariant i <= |messages| && sys == Systems(messages[..i]) && conv == Conversation(messages[..i])
    {
      TakeOne(messages, i);
      if messages[i].role.System? {
        sys := sys + [messages[i]];
      } else {
        conv := conv + [messages[i]];
      }
      i := i + 1;
    }
    assert messages[..i] == messages;
    var drop := wanted;
    if drop < 1 {
      drop := 1;
    }
    if drop >= |conv| {
      drop := |conv| / 2;
    }
    r := sys + conv[drop..];
  }
}
