/**
 The synthetic session file a Claude CLI run resumes from (internal/cliworker/claude.go): which part of the
 conversation goes into it, how messages become linked transcript entries, and that the entries decode back.
 */
module SessionFile {
  import opened Prelude
  import opened Protocol
  import opened Strings
  import CliTurn
  import CliTurnTheorems

  /** A chat message with its content split into text and images. */
  datatype Msg = Msg(role: Role, text: string, images: seq<Image>, calls: seq<ToolCall>, toolCallId: CallId)

  datatype Block =
    | TextBlock(text: string)
    | ImageBlock(image: Image)
    | UseBlock(id: CallId, name: string, input: string)
    | ResultBlock(toolUseId: CallId, content: seq<Block>)

  /** The part of an entry that depends on the message: "user" or "assistant", and its content. */
  datatype Body = UserBody(blocks: seq<Block>) | AssistantBody(blocks: seq<Block>)

  datatype Entry = Entry(uuid: string, parent: Option<string>, body: Body)

  const MAX_HISTORY := 120
  const TOOL_PREFIX := "mcp__auxot__"

  // ---------------------------------------------------------------- one message

  function Images(images: seq<Image>): (r: seq<Block>)
    ensures |r| == |images| && forall i :: 0 <= i < |r| ==> r[i] == ImageBlock(images[i])
  {
    seq(|images|, i requires 0 <= i < |images| => ImageBlock(images[i]))
  }

  function TextAndImages(text: string, images: seq<Image>): seq<Block> {
    (if text != "" then [TextBlock(text)] else []) + Images(images)
  }

  function Prefixed(tools: set<string>, name: string): string {
    if name in tools then TOOL_PREFIX + name else name
  }

  function Use(tools: set<string>, c: ToolCall): Block {
    UseBlock(c.id, Prefixed(tools, c.name), if c.arguments == "" then "{}" else c.arguments)
  }

  function Uses(tools: set<string>, calls: seq<ToolCall>): (r: seq<Block>)
    ensures |r| == |calls| && forall i :: 0 <= i < |r| ==> r[i] == Use(tools, calls[i])
  {
    seq(|calls|, i requires 0 <= i < |calls| => Use(tools, calls[i]))
  }

  function Speech(tools: set<string>, m: Msg): seq<Block> {
    (if m.text != "" then [TextBlock(m.text)] else []) + Uses(tools, m.calls)
  }

  /** A tool result never has empty content. */
  function Result(m: Msg): Block {
    var content := TextAndImages(m.text, m.images);
    ResultBlock(m.toolCallId, if content == [] then [TextBlock("(empty)")] else content)
  }

  /** Where the run of tool messages starting at position i ends. */
  function RunEnd(h: seq<Msg>, i: nat): (e: nat)
    requires i <= |h|
    ensures i <= e <= |h| && (i < |h| && h[i].role.Tool? ==> i < e) && (e < |h| ==> !h[e].role.Tool?)
    decreases |h| - i
  {
    if i == |h| || !h[i].role.Tool? then i else RunEnd(h, i + 1)
  }

  /** The results of the run of tool messages starting at position i. */
  function RunResults(h: seq<Msg>, i: nat): seq<Block>
    requires i <= |h|
    decreases |h| - i
  {
    if i == |h| || !h[i].role.Tool? then [] else [Result(h[i])] + RunResults(h, i + 1)
  }

  /**
   The entries' bodies for the history from position i on: one per user or assistant message, one per run of tool
   messages, none for other roles.
   */
  function Bodies(tools: set<string>, h: seq<Msg>, i: nat): seq<Body>
    requires i <= |h|
    decreases |h| - i
  {
    if i == |h| then []
    else
      match h[i].role
      case User => [UserBody(TextAndImages(h[i].text, h[i].images))] + Bodies(tools, h, i + 1)
      case Assistant => [AssistantBody(Speech(tools, h[i]))] + Bodies(tools, h, i + 1)
      case Tool => [UserBody(RunResults(h, i))] + Bodies(tools, h, RunEnd(h, i))
      case _ => Bodies(tools, h, i + 1)
  }

  // ---------------------------------------------------------------- reading a file back

  function TextOf(blocks: seq<Block>): string {
    if blocks != [] && blocks[0].TextBlock? then blocks[0].text else ""
  }

  function ImagesOf(blocks: seq<Block>): seq<Image> {
    if blocks == [] then []
    else (if blocks[0].ImageBlock? then [blocks[0].image] else []) + ImagesOf(blocks[1..])
  }

  function CallsOf(blocks: seq<Block>): seq<ToolCall> {
    if blocks == [] then []
    else
      (if blocks[0].UseBlock? then [ToolCall(blocks[0].id, blocks[0].name, blocks[0].input)] else [])
      + CallsOf(blocks[1..])
  }

  function ReadResult(b: Block): Msg
    requires b.ResultBlock?
  {
    Msg(Tool, TextOf(b.content), ImagesOf(b.content), [], b.toolUseId)
  }

  function ReadResults(blocks: seq<Block>): seq<Msg> {
    if blocks == [] then []
    else (if blocks[0].ResultBlock? then [ReadResult(blocks[0])] else []) + ReadResults(blocks[1..])
  }

  function ReadBody(b: Body): seq<Msg> {
    match b
    case UserBody(blocks) =>
      if blocks != [] && blocks[0].ResultBlock? then ReadResults(blocks)
      else [Msg(User, TextOf(blocks), ImagesOf(blocks), [], "")]
    case AssistantBody(blocks) => [Msg(Assistant, TextOf(blocks), [], CallsOf(blocks), "")]
  }

  function Read(bodies: seq<Body>): seq<Msg> {
    if bodies == [] then [] else ReadBody(bodies[0]) + Read(bodies[1..])
  }

  // ---------------------------------------------------------------- what a file keeps of a history

  function FiledCall(tools: set<string>, c: ToolCall): ToolCall {
    ToolCall(c.id, Prefixed(tools, c.name), if c.arguments == "" then "{}" else c.arguments)
  }

  function FiledCalls(tools: set<string>, calls: seq<ToolCall>): seq<ToolCall> {
    seq(|calls|, i requires 0 <= i < |calls| => FiledCall(tools, calls[i]))
  }

  function Filed(tools: set<string>, m: Msg): Msg {
    match m.role
    case User => Msg(User, m.text, m.images, [], "")
    case Assistant => Msg(Assistant, m.text, [], FiledCalls(tools, m.calls), "")
    case _ =>
      Msg(m.role, if m.text == "" && m.images == [] then "(empty)" else m.text, m.images, [], m.toolCallId)
  }

  predicate KnownRole(m: Msg) {
    m.role.User? || m.role.Assistant? || m.role.Tool?
  }

  /** The history from position i up to e as a file keeps it. */
  function FiledHistory(tools: set<string>, h: seq<Msg>, i: nat, e: nat): seq<Msg>
    requires i <= e <= |h|
    decreases e - i
  {
    if i == e then []
    else (if KnownRole(h[i]) then [Filed(tools, h[i])] else []) + FiledHistory(tools, h, i + 1, e)
  }

  // ---------------------------------------------------------------- the round trip

  lemma {:induction false} ImagesBack(images: seq<Image>)
    ensures ImagesOf(Images(images)) == images
  {
    if images != [] {
      assert Images(images)[1..] == Images(images[1..]);
      ImagesBack(images[1..]);
    }
  }

  lemma TextAndImagesBack(text: string, images: seq<Image>)
    ensures var blocks := TextAndImages(text, images);
            && TextOf(blocks) == text && ImagesOf(blocks) == images
            && (blocks == [] <==> text == "" && images == [])
            && (blocks != [] ==> !blocks[0].ResultBlock?)
  {
    ImagesBack(images);
    if text != "" {
      assert TextAndImages(text, images)[1..] == Images(images);
    } else {
      assert TextAndImages(text, images) == Images(images);
    }
  }

  lemma {:induction false} UsesBack(tools: set<string>, calls: seq<ToolCall>)
    ensures CallsOf(Uses(tools, calls)) == FiledCalls(tools, calls)
  {
    if calls != [] {
      assert Uses(tools, calls)[1..] == Uses(tools, calls[1..]);
      assert FiledCalls(tools, calls) == [FiledCall(tools, calls[0])] + FiledCalls(tools, calls[1..]);
      UsesBack(tools, calls[1..]);
    }
  }

  lemma SpeechBack(tools: set<string>, m: Msg)
    ensures TextOf(Speech(tools, m)) == m.text && CallsOf(Speech(tools, m)) == FiledCalls(tools, m.calls)
  {
    UsesBack(tools, m.calls);
    if m.text != "" {
      assert Speech(tools, m)[1..] == Uses(tools, m.calls);
    } else {
      assert Speech(tools, m) == Uses(tools, m.calls);
    }
  }

  lemma ResultBack(tools: set<string>, m: Msg)
    requires m.role.Tool?
    ensures ReadResult(Result(m)) == Filed(tools, m)
  {
    TextAndImagesBack(m.text, m.images);
    assert ImagesOf([TextBlock("(empty)")]) == ImagesOf([]) == [];
  }

  lemma {:induction false} ResultsBack(tools: set<string>, h: seq<Msg>, i: nat)
    requires i <= |h|
    ensures ReadResults(RunResults(h, i)) == FiledHistory(tools, h, i, RunEnd(h, i))
    decreases |h| - i
  {
    if i < |h| && h[i].role.Tool? {
      ResultBack(tools, h[i]);
      ResultsBack(tools, h, i + 1);
    }
  }

  lemma {:induction false} FiledSplit(tools: set<string>, h: seq<Msg>, i: nat, m: nat, e: nat)
    requires i <= m <= e <= |h|
    ensures FiledHistory(tools, h, i, e) == FiledHistory(tools, h, i, m) + FiledHistory(tools, h, m, e)
    decreases m - i
  {
    if i < m {
      FiledSplit(tools, h, i + 1, m, e);
    }
  }

  lemma SingleBack(tools: set<string>, m: Msg)
    ensures m.role.User? ==> ReadBody(UserBody(TextAndImages(m.text, m.images))) == [Filed(tools, m)]
    ensures m.role.Assistant? ==> ReadBody(AssistantBody(Speech(tools, m))) == [Filed(tools, m)]
  {
    TextAndImagesBack(m.text, m.images);
    SpeechBack(tools, m);
  }

  lemma RunBack(tools: set<string>, h: seq<Msg>, i: nat)
    requires i < |h| && h[i].role.Tool?
    ensures IsResults(UserBody(RunResults(h, i)))
    ensures ReadBody(UserBody(RunResults(h, i))) == FiledHistory(tools, h, i, RunEnd(h, i))
  {
    ResultsBack(tools, h, i);
  }

  lemma ReadHead(b: Body, rest: seq<Body>)
    ensures Read([b] + rest) == ReadBody(b) + Read(rest)
  {
  }

  /** Reading the entries back gives the history in order, with unknown roles left out. */
  lemma {:induction false} FileDecodes(tools: set<string>, h: seq<Msg>, i: nat)
    requires i <= |h|
    ensures Read(Bodies(tools, h, i)) == FiledHistory(tools, h, i, |h|)
    decreases |h| - i
  {
    if i < |h| {
      if h[i].role.Tool? {
        var e := RunEnd(h, i);
        RunBack(tools, h, i);
        FiledSplit(tools, h, i, e, |h|);
        FileDecodes(tools, h, e);
        ReadHead(UserBody(RunResults(h, i)), Bodies(tools, h, e));
      } else {
        SingleBack(tools, h[i]);
        FileDecodes(tools, h, i + 1);
        if h[i].role.User? {
          ReadHead(UserBody(TextAndImages(h[i].text, h[i].images)), Bodies(tools, h, i + 1));
        } else if h[i].role.Assistant? {
          ReadHead(AssistantBody(Speech(tools, h[i])), Bodies(tools, h, i + 1));
        }
      }
    }
  }

  predicate IsResults(b: Body) {
    b.UserBody? && b.blocks != [] && b.blocks[0].ResultBlock?
  }

  /** Runs of tool messages are grouped as far as they go: without unknown roles no two result entries are adjacent. */
  lemma {:induction false} RunsAreMaximal(tools: set<string>, h: seq<Msg>, i: nat, k: nat)
    requires i <= |h| && forall m :: m in h ==> KnownRole(m)
    requires k + 1 < |Bodies(tools, h, i)|
    ensures !(IsResults(Bodies(tools, h, i)[k]) && IsResults(Bodies(tools, h, i)[k + 1]))
    decreases |h| - i
  {
    assert h[i] in h;
    var next := if h[i].role.Tool? then RunEnd(h, i) else i + 1;
    assert Bodies(tools, h, i)[1..] == Bodies(tools, h, next);
    if k > 0 {
      RunsAreMaximal(tools, h, next, k - 1);
    } else if h[i].role.Tool? {
      assert h[next] in h;
      TextAndImagesBack(h[next].text, h[next].images);
    } else if h[i].role.User? {
      TextAndImagesBack(h[i].text, h[i].images);
    }
  }

  /**
   A tool name is recovered by the event loop exactly if the job offers the tool, or the name does not begin with the
   MCP prefix, or it has no second separator behind that prefix.
   */
  lemma NameRecoveredIff(tools: set<string>, name: string)
    ensures CliTurn.StripMcpPrefix(Prefixed(tools, name)) == name <==>
              name in tools || !(CliTurn.MCP <= name) || !Contains(name[|CliTurn.MCP|..], "__")
  {
    if name in tools {
      CliTurnTheorems.StripUndoesPrefix(name);
    } else if CliTurn.MCP <= name {
      var rest := name[|CliTurn.MCP|..];
      assert name == "mcp" + ("__" + rest);
      CliTurnTheorems.FirstSeparator("mcp", rest);
      assert |CliTurn.StripMcpPrefix(name)| < |name| <==> Contains(rest, "__");
    }
  }
}
