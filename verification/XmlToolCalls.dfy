/**
 Extracting tool calls that the model wrote as text (internal/worker/qwen_tool_xml.go): the lazy regular
 expressions as searches, what extraction keeps of any text, and that it undoes printing.
 */
module XmlToolCalls {
  import opened Prelude
  import opened Strings

  /** The markers of the block form. */
  datatype Markers = Markers(open: string, close: string, fn: string, param: string, paramEnd: string)

  const QWEN: Markers := Markers("<tool_call>", "</tool_call>", "<function=", "<parameter=", "</parameter>")
  const INLINE: string := "[Calling tool:"

  /** A parameter value is embedded as JSON or encoded as a string. */
  datatype Value = RawJson(json: string) | Text(text: string)

  datatype Arguments = Params(params: map<string, Value>) | Given(json: string)

  datatype Call = Call(name: string, arguments: Arguments)

  /** A text cut into what stays and the blocks that were taken out. */
  datatype Piece = Kept(text: string) | Taken(text: string, call: Call)

  // ---------------------------------------------------------------- lazy matches

  /** \w of the regular expressions. */
  predicate IsWord(c: char) {
    '0' <= c <= '9' || 'A' <= c <= 'Z' || 'a' <= c <= 'z' || c == '_'
  }

  /** (\S+?)> at the front: the length of the name. */
  function LazyName(s: string, k: nat): (r: Option<nat>)
    requires k <= |s|
    ensures r.Some? ==> k <= r.value < |s| && 0 < r.value
    decreases |s| - k
  {
    if k == |s| then None
    else if k > 0 && s[k] == '>' then Some(k)
    else if IsBlank(s[k]) then None
    else LazyName(s, k + 1)
  }

  datatype Tagged = Tagged(name: string, rest: string)

  /** The leftmost tag with a readable name, and what follows it. */
  function FindTagged(s: string, tag: string): (r: Option<Tagged>)
    ensures r.Some? ==> |r.value.rest| < |s|
    decreases |s|
  {
    if TagHere(s, tag) then
      var rest := s[|tag|..];
      var n := LazyName(rest, 0).value;
      Some(Tagged(rest[..n], rest[n + 1..]))
    else if s == "" then None
    else FindTagged(s[1..], tag)
  }

  predicate TagHere(s: string, tag: string) {
    tag <= s && LazyName(s[|tag|..], 0).Some?
  }

  /** All parameters with a readable name and a closing tag, from left to right. */
  function FindParams(m: Markers, s: string): seq<(string, string)>
    decreases |s|, 0
  {
    match FindTagged(s, m.param)
    case None => []
    case Some(t) => ParamAndMore(m, t)
  }

  function ParamAndMore(m: Markers, t: Tagged): seq<(string, string)>
    decreases |t.rest|, 1
  {
    match IndexOf(t.rest, m.paramEnd)
    case None => []
    case Some(j) => [(t.name, t.rest[..j])] + FindParams(m, t.rest[j + |m.paramEnd|..])
  }

  function ToValue(raw: string, isJson: string -> bool): Value {
    var v := TrimSpace(raw);
    if v != "" && (v[0] == '{' || v[0] == '[') && isJson(v) then RawJson(v) else Text(v)
  }

  /** Later values for the same name win. */
  function ToParams(found: seq<(string, string)>, isJson: string -> bool): map<string, Value> {
    if found == [] then map[]
    else ToParams(found[..|found| - 1], isJson)[found[|found| - 1].0 := ToValue(found[|found| - 1].1, isJson)]
  }

  function TrimBlank(s: string): string {
    Trim(s, c => IsBlank(c))
  }

  /** The call a block's inside describes, if it names a function. */
  function ReadCall(m: Markers, inside: string, isJson: string -> bool): Option<Call> {
    var content := TrimBlank(inside);
    match FindTagged(content, m.fn)
    case None => None
    case Some(t) => Some(Call(t.name, Params(ToParams(FindParams(m, content), isJson))))
  }

  /** How the replacement callback reads a block. */
  function Reader(m: Markers, isJson: string -> bool): string -> Option<Call> {
    inside => ReadCall(m, inside, isJson)
  }

  /** A match is the part of the text from `start` up to `end`. */
  datatype Span = Span(start: nat, end: nat)

  /** The first opening marker up to the end of the first closing marker behind it. */
  function FindBlock(m: Markers, s: string): (r: Option<Span>)
    ensures r.Some? ==> r.value.start + |m.open| + |m.close| <= r.value.end <= |s|
  {
    match IndexOf(s, m.open)
    case None => None
    case Some(i) =>
      match IndexOf(s[i + |m.open|..], m.close)
      case None => None
      case Some(j) => Some(Span(i, i + |m.open| + j + |m.close|))
  }

  function BlockAt(m: Markers, s: string, b: Span, read: string -> Option<Call>): Piece
    requires b.start + |m.open| + |m.close| <= b.end <= |s|
  {
    match read(s[b.start + |m.open|..b.end - |m.close|])
    case None => Kept(s[b.start..b.end])
    case Some(call) => Taken(s[b.start..b.end], call)
  }

  function CutBlocks(m: Markers, s: string, read: string -> Option<Call>): seq<Piece>
    requires m.open != ""
    decreases |s|
  {
    match FindBlock(m, s)
    case None => [Kept(s)]
    case Some(b) => [Kept(s[..b.start]), BlockAt(m, s, b, read)] + CutBlocks(m, s[b.end..], read)
  }

  // ---------------------------------------------------------------- the inline form

  function SkipBlank(s: string): (r: string)
    ensures |r| <= |s|
  {
    TrimLeft(s, c => IsBlank(c))
  }

  function WordLength(s: string): (n: nat)
    ensures n <= |s|
  {
    if s == "" || !IsWord(s[0]) then 0 else 1 + WordLength(s[1..])
  }

  datatype Inline = Inline(name: string, json: string, span: Span)

  /** \s*(\w+)\((\{.*?\})\)\] behind the marker: name, arguments, and how much of the text they take up. */
  function ReadInline(s: string): (r: Option<(string, string, nat)>)
    ensures r.Some? ==> r.value.2 <= |s|
  {
    var t := SkipBlank(s);
    var n := WordLength(t);
    var u := t[n..];
    if n == 0 || !("({" <= u) then None
    else
      var body := u[2..];
      match IndexOf(body, "})]")
      case None => None
      case Some(j) =>
        if '\n' in body[..j] then None else Some((t[..n], "{" + body[..j] + "}", |s| - |body| + j + 3))
  }

  /** The inline form whose marker stands at position i, if the rest of it is well formed. */
  function InlineAt(s: string, i: nat): (r: Option<Inline>)
    requires i + |INLINE| <= |s|
    ensures r.Some? ==> r.value.span.start < r.value.span.end <= |s|
  {
    match ReadInline(s[i + |INLINE|..])
    case None => None
    case Some((name, json, n)) => Some(Inline(name, json, Span(i, i + |INLINE| + n)))
  }

  function FindInline(s: string, from: nat): (r: Option<Inline>)
    requires from <= |s|
    ensures r.Some? ==> r.value.span.start < r.value.span.end <= |s|
    decreases |s| - from
  {
    match IndexOf(s[from..], INLINE)
    case None => None
    case Some(k) =>
      var r := InlineAt(s, from + k);
      if r.Some? then r else FindInline(s, from + k + 1)
  }

  function InlinePiece(s: string, f: Inline, isJson: string -> bool): Piece
    requires f.span.start < f.span.end <= |s|
  {
    var matched := s[f.span.start..f.span.end];
    if isJson(f.json) then Taken(matched, Call(f.name, Given(f.json))) else Kept(matched)
  }

  function CutInline(s: string, isJson: string -> bool): seq<Piece>
    decreases |s|
  {
    match FindInline(s, 0)
    case None => [Kept(s)]
    case Some(f) => [Kept(s[..f.span.start]), InlinePiece(s, f, isJson)] + CutInline(s[f.span.end..], isJson)
  }

  // ---------------------------------------------------------------- extraction

  function Calls(pieces: seq<Piece>): seq<Call> {
    if pieces == [] then []
    else (if pieces[0].Taken? then [pieces[0].call] else []) + Calls(pieces[1..])
  }

  /** What stays of the text. */
  function Rest(pieces: seq<Piece>): string {
    if pieces == [] then "" else (if pieces[0].Kept? then pieces[0].text else "") + Rest(pieces[1..])
  }

  /** Text without an opening marker is returned as it is; the inline form is looked for only behind the blocks. */
  function Extract(text: string, isJson: string -> bool): (seq<Call>, string) {
    if !Contains(text, QWEN.open) then ([], text)
    else
      var blocks := CutBlocks(QWEN, text, Reader(QWEN, isJson));
      var inline := CutInline(Rest(blocks), isJson);
      (Calls(blocks) + Calls(inline), TrimSpace(Rest(inline)))
  }

  /** Where a replacement loop stands: what it has, and what it will find in the rest, make up the whole result. */
  ghost predicate SoFar(calls: seq<Call>, stripped: string, ahead: seq<Piece>, all: seq<Piece>) {
    calls + Calls(ahead) == Calls(all) && stripped + Rest(ahead) == Rest(all)
  }

  lemma OneMatch(calls: seq<Call>, stripped: string, before: string, piece: Piece, ahead: seq<Piece>, all: seq<Piece>)
    requires SoFar(calls, stripped, [Kept(before), piece] + ahead, all)
    ensures piece.Taken? ==> SoFar(calls + [piece.call], stripped + before, ahead, all)
    ensures piece.Kept? ==> SoFar(calls, stripped + before + piece.text, ahead, all)
  {
    TwoPieces(Kept(before), piece, ahead);
    if piece.Taken? {
      Regroup(calls, [piece.call], Calls(ahead));
      Regroup(stripped, before, Rest(ahead));
    } else {
      Regroup(stripped, before, piece.text + Rest(ahead));
      Regroup(stripped + before, piece.text, Rest(ahead));
    }
  }

  lemma Regroup<T>(a: seq<T>, b: seq<T>, c: seq<T>)
    ensures a + (b + c) == (a + b) + c
  {
  }

  lemma LastPiece(calls: seq<Call>, stripped: string, s: string, all: seq<Piece>)
    requires SoFar(calls, stripped, [Kept(s)], all)
    ensures calls == Calls(all) && stripped + s == Rest(all)
  {
    var one := [Kept(s)];
    assert one[1..] == [];
    assert Calls(one) == [] && Rest(one) == s;
  }

  method ReplaceBlocks(m: Markers, text: string, read: string -> Option<Call>) returns (calls: seq<Call>, stripped: string)
    requires m.open != ""
    ensures calls == Calls(CutBlocks(m, text, read)) && stripped == Rest(CutBlocks(m, text, read))
  {
    calls, stripped := [], "";
    var rest := text;
    ghost var all := CutBlocks(m, text, read);
    var found := FindBlock(m, rest);
    while found.Some?
      invariant found == FindBlock(m, rest) && SoFar(calls, stripped, CutBlocks(m, rest, read), all)
      decreases |rest|
    {
      var b := found.value;
      var piece := BlockAt(m, rest, b, read);
      OneMatch(calls, stripped, rest[..b.start], piece, CutBlocks(m, rest[b.end..], read), all);
      stripped := stripped + rest[..b.start];
      match piece {
        case Taken(_, call) => calls := calls + [call];
        case Kept(block) => stripped := stripped + block;
      }
      rest := rest[b.end..];
      found := FindBlock(m, rest);
    }
    LastPiece(calls, stripped, rest, all);
    stripped := stripped + rest;
  }

  lemma TwoPieces(a: Piece, b: Piece, pieces: seq<Piece>)
    requires a.Kept?
    ensures Calls([a, b] + pieces) == if b.Taken? then [b.call] + Calls(pieces) else Calls(pieces)
    ensures Rest([a, b] + pieces) == a.text + if b.Kept? then b.text + Rest(pieces) else Rest(pieces)
  {
    assert ([a, b] + pieces)[1..] == [b] + pieces;
    assert ([b] + pieces)[1..] == pieces;
  }

  method ReplaceInline(text: string, isJson: string -> bool) returns (calls: seq<Call>, stripped: string)
    ensures calls == Calls(CutInline(text, isJson)) && stripped == Rest(CutInline(text, isJson))
  {
    calls, stripped := [], "";
    var rest := text;
    ghost var all := CutInline(text, isJson);
    var found := FindInline(rest, 0);
    while found.Some?
      invariant found == FindInline(rest, 0) && SoFar(calls, stripped, CutInline(rest, isJson), all)
      decreases |rest|
    {
      var f := found.value;
      var at := f.span;
      var piece := InlinePiece(rest, f, isJson);
      OneMatch(calls, stripped, rest[..at.start], piece, CutInline(rest[at.end..], isJson), all);
      stripped := stripped + rest[..at.start];
      match piece {
        case Taken(_, call) => calls := calls + [call];
        case Kept(matched) => stripped := stripped + matched;
      }
      rest := rest[at.end..];
      found := FindInline(rest, 0);
    }
    LastPiece(calls, stripped, rest, all);
    stripped := stripped + rest;
  }

  method ExtractXmlToolCalls(text: string, isJson: string -> bool) returns (calls: seq<Call>, stripped: string)
    ensures (calls, stripped) == Extract(text, isJson)
  {
    if !Contains(text, QWEN.open) {
      return [], text;
    }
    calls, stripped := ReplaceBlocks(QWEN, text, Reader(QWEN, isJson));
    var inline;
    inline, stripped := ReplaceInline(stripped, isJson);
    calls := calls + inline;
    stripped := TrimSpace(stripped);
  }

  // ---------------------------------------------------------------- nothing is lost

  function Whole(pieces: seq<Piece>): string {
    if pieces == [] then "" else pieces[0].text + Whole(pieces[1..])
  }

  lemma WholeIs(s: string, m: Span, piece: Piece, pieces: seq<Piece>)
    requires m.start <= m.end <= |s| && piece.text == s[m.start..m.end] && Whole(pieces) == s[m.end..]
    ensures Whole([Kept(s[..m.start]), piece] + pieces) == s
  {
    var all := [Kept(s[..m.start]), piece] + pieces;
    assert all[1..] == [piece] + pieces;
    assert all[1..][1..] == pieces;
    assert s == s[..m.start] + (s[m.start..m.end] + s[m.end..]);
  }

  lemma WholeOne(s: string)
    ensures Whole([Kept(s)]) == s
  {
    assert [Kept(s)][1..] == [] && s + "" == s;
  }

  /** Cutting only takes apart: the pieces, removed ones included, are the text again. */
  lemma {:induction false} BlocksAreTheText(m: Markers, s: string, read: string -> Option<Call>)
    requires m.open != ""
    ensures Whole(CutBlocks(m, s, read)) == s
    decreases |s|
  {
    match FindBlock(m, s)
    case None => WholeOne(s);
    case Some(b) =>
      BlocksAreTheText(m, s[b.end..], read);
      WholeIs(s, b, BlockAt(m, s, b, read), CutBlocks(m, s[b.end..], read));
  }

  lemma {:induction false} InlineIsTheText(s: string, isJson: string -> bool)
    ensures Whole(CutInline(s, isJson)) == s
    decreases |s|
  {
    match FindInline(s, 0)
    case None => WholeOne(s);
    case Some(f) =>
      InlineIsTheText(s[f.span.end..], isJson);
      WholeIs(s, f.span, InlinePiece(s, f, isJson), CutInline(s[f.span.end..], isJson));
  }

  lemma {:induction false} TaggedIff(s: string, tag: string)
    ensures FindTagged(s, tag).None? <==> forall k :: 0 <= k <= |s| ==> !TagHere(s[k..], tag)
    decreases |s|
  {
    assert s[0..] == s;
    if s != "" {
      var t := s[1..];
      TaggedIff(t, tag);
      assert forall k :: 0 <= k <= |t| ==> t[k..] == s[k + 1..];
      assert forall k :: 1 <= k <= |s| ==> s[k..] == t[k - 1..];
    }
  }

  /** A block is left in the text exactly if no function tag with a readable name stands anywhere in it. */
  lemma BlockStaysIff(m: Markers, inside: string, isJson: string -> bool)
    ensures Reader(m, isJson)(inside).None? <==>
              forall k :: 0 <= k <= |TrimBlank(inside)| ==> !TagHere(TrimBlank(inside)[k..], m.fn)
  {
    TaggedIff(TrimBlank(inside), m.fn);
    ReadIff(m, inside, isJson);
  }

  lemma ReadIff(m: Markers, inside: string, isJson: string -> bool)
    ensures Reader(m, isJson)(inside).None? <==> FindTagged(TrimBlank(inside), m.fn).None?
  {
  }
}
