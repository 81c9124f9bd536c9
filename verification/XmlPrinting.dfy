/**
 Tool calls in the documented textual form (internal/worker/qwen_tool_xml.go, lines 28-38): printing them for any
 markers that tell each other apart, and reading one printed block back. Names and values are read one by one; the
 closing marker is found right behind the content, since none of the pieces in front of it contains or completes it.
 The round trip over whole texts is in XmlRoundTrip.
 */
module XmlPrinting {
  import opened Prelude
  import opened Strings
  import opened Tags
  import opened XmlToolCalls

  const END: string := "</function>"

  datatype Printed = Printed(name: string, params: seq<(string, string)>)

  // ---------------------------------------------------------------- the documented form, followed by a tail

  function PrintParams(m: Markers, ps: seq<(string, string)>, tail: string): string {
    if ps == [] then tail
    else m.param + (ps[0].0 + (">" + (ps[0].1 + (m.paramEnd + ("\n" + PrintParams(m, ps[1..], tail))))))
  }

  function Content(m: Markers, end: string, c: Printed, tail: string): string {
    m.fn + (c.name + (">" + ("\n" + PrintParams(m, c.params, end + tail))))
  }

  function PrintCall(m: Markers, end: string, c: Printed, tail: string): string {
    m.open + ("\n" + Content(m, end, c, "\n" + (m.close + tail)))
  }

  /** Each call preceded by some text, and text after the last one. */
  function Print(m: Markers, end: string, items: seq<(string, Printed)>, last: string): string {
    if items == [] then last else items[0].0 + PrintCall(m, end, items[0].1, Print(m, end, items[1..], last))
  }

  function Joined(items: seq<(string, Printed)>, last: string): string {
    if items == [] then last else items[0].0 + Joined(items[1..], last)
  }

  function ToCall(c: Printed, isJson: string -> bool): Call {
    Call(c.name, Params(ToParams(c.params, isJson)))
  }

  function ToCalls(items: seq<(string, Printed)>, isJson: string -> bool): seq<Call> {
    if items == [] then [] else [ToCall(items[0].1, isJson)] + ToCalls(items[1..], isJson)
  }

  // ---------------------------------------------------------------- what can be printed

  ghost predicate PlainName(n: string) {
    n != "" && forall i :: 0 <= i < |n| ==> n[i] != '>' && !IsBlank(n[i])
  }

  /** A name whose printed form, followed by '>', does not end in the closing marker of the block. */
  ghost predicate OpenName(m: Markers, n: string) {
    PlainName(n) && !Contains(n + ">", m.close)
  }

  ghost predicate PlainParams(m: Markers, ps: seq<(string, string)>) {
    forall i :: 0 <= i < |ps| ==>
      OpenName(m, ps[i].0) && !Contains(ps[i].1, m.paramEnd) && !Contains(ps[i].1, m.close)
  }

  /** With parameters, a function's name must not contain a readable parameter tag either. */
  ghost predicate Plain(m: Markers, c: Printed) {
    && OpenName(m, c.name) && PlainParams(m, c.params)
    && (c.params == [] || FindTagged(c.name + ">", m.param).None?)
  }

  ghost predicate PlainItems(m: Markers, items: seq<(string, Printed)>) {
    forall i :: 0 <= i < |items| ==> !Contains(items[i].0, m.open) && Plain(m, items[i].1)
  }

  /** The markers tell each other apart by an early character. */
  ghost predicate Telling(m: Markers, end: string) {
    && Solid(m.open) && Solid(m.close) && Solid(m.fn) && Solid(m.param) && Solid(m.paramEnd) && Solid(end)
    && Differ(m.fn, m.close, 1) && Differ(m.fn, m.param, 1) && Differ(m.param, m.close, 1)
    && Differ(m.paramEnd, m.close, 2) && Differ(end, m.close, 2) && Differ(end, m.param, 1) && Differ(end, m.paramEnd, 2)
    && end[|end| - 1] == '>' && OnlyLast(m.close) && OnlyLast(m.param)
  }

  /** No '>' but possibly the last character. */
  ghost predicate OnlyLast(pat: string) {
    forall i :: 0 <= i < |pat| - 1 ==> pat[i] != '>'
  }

  ghost predicate Differ(a: string, b: string, i: nat) {
    i < |a| && i < |b| && a[i] != b[i]
  }

  lemma QwenMarkersAreSolid()
    ensures Solid(QWEN.open) && Solid(QWEN.close) && Solid(QWEN.fn) && Solid(QWEN.param) && Solid(QWEN.paramEnd) && Solid(END)
  {
  }

  lemma QwenTells()
    ensures Telling(QWEN, END)
  {
    hide Solid;
    QwenMarkersAreSolid();
  }

  // ---------------------------------------------------------------- reading names and values

  lemma {:induction false} LazyNameReads(n: string, k: nat, more: string)
    requires PlainName(n) && k <= |n|
    ensures LazyName(n + (">" + more), k) == Some(|n|)
    decreases |n| - k
  {
    var s := n + (">" + more);
    if k < |n| {
      assert s[k] == n[k];
      LazyNameReads(n, k + 1, more);
    } else {
      assert s[k] == '>';
    }
  }

  lemma NameRead(tag: string, n: string, more: string)
    requires PlainName(n)
    ensures FindTagged(tag + (n + (">" + more)), tag) == Some(Tagged(n, more))
  {
    var rest := n + (">" + more);
    LazyNameReads(n, 0, more);
    assert (tag + rest)[|tag|..] == rest;
    assert rest[..|n|] == n && rest[|n| + 1..] == more;
  }

  lemma {:induction false} SkipTagged(a: string, b: string, tag: string)
    requires Solid(tag) && StartsTag(b) && !Contains(a, tag)
    ensures FindTagged(a + b, tag) == FindTagged(b, tag)
    decreases |a|
  {
    IndexStep(a, tag);
    if a == "" {
      assert a + b == b;
    } else {
      NoStraddle(a, b, tag);
      assert (a + b)[1..] == a[1..] + b;
      SkipTagged(a[1..], b, tag);
    }
  }

  lemma SkipParams(m: Markers, a: string, b: string)
    requires Solid(m.param) && StartsTag(b) && !Contains(a, m.param)
    ensures FindParams(m, a + b) == FindParams(m, b)
  {
    SkipTagged(a, b, m.param);
  }

  lemma ParamsStartTag(m: Markers, ps: seq<(string, string)>, tail: string)
    requires Solid(m.param) && StartsTag(tail)
    ensures StartsTag(PrintParams(m, ps, tail))
  {
  }

  lemma ValueRead(v: string, paramEnd: string, rest: string)
    requires Solid(paramEnd) && !Contains(v, paramEnd)
    ensures var t := v + (paramEnd + rest);
            IndexOf(t, paramEnd) == Some(|v|) && t[..|v|] == v && t[|v| + |paramEnd|..] == rest
  {
    hide IndexOf;
    SkipText(v, paramEnd + rest, paramEnd);
    AtFront(paramEnd, rest);
    assert (v + (paramEnd + rest))[|v|..] == paramEnd + rest;
  }

  lemma MoreRead(m: Markers, n: string, v: string, y: string)
    requires Solid(m.param) && Solid(m.paramEnd) && !Contains(v, m.paramEnd) && StartsTag(y)
    ensures ParamAndMore(m, Tagged(n, v + (m.paramEnd + ("\n" + y)))) == [(n, v)] + FindParams(m, y)
  {
    ValueRead(v, m.paramEnd, "\n" + y);
    PlainText("\n", m.param);
    SkipParams(m, "\n", y);
  }

  lemma OneParamRead(m: Markers, n: string, v: string, y: string)
    requires Solid(m.param) && Solid(m.paramEnd) && PlainName(n) && !Contains(v, m.paramEnd) && StartsTag(y)
    ensures FindParams(m, m.param + (n + (">" + (v + (m.paramEnd + ("\n" + y)))))) == [(n, v)] + FindParams(m, y)
  {
    NameRead(m.param, n, v + (m.paramEnd + ("\n" + y)));
    MoreRead(m, n, v, y);
  }

  lemma {:induction false} ParamsRead(m: Markers, end: string, ps: seq<(string, string)>)
    requires Telling(m, end) && PlainParams(m, ps)
    ensures FindParams(m, PrintParams(m, ps, end)) == ps
  {
    hide FindParams;
    if ps == [] {
      NothingIn(m, end);
    } else {
      ParamsStartTag(m, ps[1..], end);
      OneParamRead(m, ps[0].0, ps[0].1, PrintParams(m, ps[1..], end));
      ParamsRead(m, end, ps[1..]);
    }
  }

  lemma NothingIn(m: Markers, end: string)
    requires Telling(m, end)
    ensures FindParams(m, end) == []
  {
    PlainText("", m.param);
    OtherTag(end, "", m.param, 1);
    assert end + "" == end;
    SkipParams(m, end, "");
  }

  lemma HeadWithout(tag: string, n: string, tail: string, pat: string)
    requires Solid(tag) && Solid(pat) && OnlyLast(pat) && Differ(tag, pat, 1)
    requires !Contains(n + ">", pat) && !Contains(tail, pat)
    ensures !Contains(tag + (n + (">" + tail)), pat)
  {
    NameWithout(n, tail, pat);
    OtherTag(tag, n + (">" + tail), pat, 1);
  }

  /** An occurrence that goes on behind the name's '>' would have that '>' inside. */
  lemma NameWithout(n: string, tail: string, pat: string)
    requires pat != "" && OnlyLast(pat) && !Contains(n + ">", pat) && !Contains(tail, pat)
    ensures !Contains(n + (">" + tail), pat)
  {
    var g := n + ">";
    var s := g + tail;
    assert s == n + (">" + tail);
    IndexIff(g, pat);
    IndexIff(tail, pat);
    IndexIff(s, pat);
    forall k: nat ensures !At(s, pat, k) {
      if k + |pat| <= |g| {
        assert s[k..][..|pat|] == g[k..][..|pat|];
        assert !At(g, pat, k);
      } else if |g| <= k <= |s| {
        assert s[k..] == tail[k - |g|..];
        assert !At(tail, pat, k - |g|);
      } else if k < |g| {
        assert s[k..][|n| - k] == '>';
      }
    }
  }

  // ---------------------------------------------------------------- reading one block back

  lemma FunctionRead(m: Markers, end: string, c: Printed)
    requires Plain(m, c)
    ensures FindTagged(Content(m, end, c, ""), m.fn) == Some(Tagged(c.name, "\n" + PrintParams(m, c.params, end)))
  {
    assert end + "" == end;
    NameRead(m.fn, c.name, "\n" + PrintParams(m, c.params, end));
  }

  lemma {:induction false} SkipPlain(a: string, b: string, tag: string)
    requires Solid(tag) && forall i :: 0 <= i < |a| ==> a[i] != '<'
    ensures FindTagged(a + b, tag) == FindTagged(b, tag)
    decreases |a|
  {
    if a == "" {
      assert a + b == b;
    } else {
      assert (a + b)[0] == a[0] && (a + b)[1..] == a[1..] + b;
      SkipPlain(a[1..], b, tag);
    }
  }

  /** Another tag is skipped, whatever follows it. */
  lemma SkipOther(head: string, b: string, tag: string)
    requires Solid(head) && Solid(tag) && Differ(head, tag, 1)
    ensures FindTagged(head + b, tag) == FindTagged(b, tag)
  {
    assert (head + b)[1] == head[1] && (head + b)[1..] == head[1..] + b;
    SkipPlain(head[1..], b, tag);
  }

  /** Inside a name a tag is read up to the name's end, or it is not readable at all. */
  lemma TagInNameHere(n: string, y: string, tag: string)
    requires Solid(tag) && OnlyLast(tag) && (n == "" || PlainName(n))
    ensures var more := "\n" + y;
            && (TagHere(n + ">", tag) <==> TagHere(n + (">" + more), tag))
            && (TagHere(n + ">", tag) ==>
                  && |tag| < |n| && LazyName((n + ">")[|tag|..], 0) == Some(|n| - |tag|)
                  && LazyName((n + (">" + more))[|tag|..], 0) == Some(|n| - |tag|))
  {
    var more := "\n" + y;
    var s, s' := n + ">", n + (">" + more);
    if |tag| < |n| {
      var r := n[|tag|..];
      assert s[|tag|..] == r + (">" + "") && s'[|tag|..] == r + (">" + more);
      LazyNameReads(r, 0, "");
      LazyNameReads(r, 0, more);
      assert s[..|tag|] == s'[..|tag|];
    } else if |tag| == |n| {
      assert s[|tag|..] == ">" && s'[|tag|..] == ">" + more;
      assert LazyName(">" + more, 0) == LazyName(">" + more, 1) == None;
    } else if |tag| == |n| + 1 {
      assert s[|tag|..] == "" && s'[|tag|..] == more;
      assert LazyName(more, 0) == None;
    } else {
      assert s'[|n|] == '>' && tag[|n|] != '>';
    }
  }

  /** The first tag readable in a name, or else the first one behind the name. */
  lemma {:induction false} TagInName(n: string, y: string, tag: string)
    requires Solid(tag) && OnlyLast(tag) && (n == "" || PlainName(n))
    ensures var more := "\n" + y;
            match FindTagged(n + ">", tag)
            case None => FindTagged(n + (">" + more), tag) == FindTagged(more, tag)
            case Some(t) => FindTagged(n + (">" + more), tag) == Some(Tagged(t.name, more))
    decreases |n|
  {
    var more := "\n" + y;
    TagInNameHere(n, y, tag);
    if TagHere(n + ">", tag) {
      var k := |n| - |tag|;
      assert (n + ">")[|tag|..][..k] == n[|tag|..] == (n + (">" + more))[|tag|..][..k];
      assert (n + (">" + more))[|tag|..][k + 1..] == more;
    } else if n == "" {
      assert n + ">" == ">" && ">"[1..] == "" && n + (">" + more) == ">" + more && (">" + more)[1..] == more;
    } else {
      assert (n + ">")[1..] == n[1..] + ">" && (n + (">" + more))[1..] == n[1..] + (">" + more);
      TagInName(n[1..], y, tag);
    }
  }

  /** The first parameter tag in a block's content: in the function's name, or else among the parameters. */
  lemma ContentTagged(m: Markers, end: string, n: string, ps: seq<(string, string)>)
    requires Telling(m, end) && PlainName(n)
    ensures var x := PrintParams(m, ps, end);
            FindTagged(Content(m, end, Printed(n, ps), ""), m.param) ==
              match FindTagged(n + ">", m.param)
              case None => FindTagged(x, m.param)
              case Some(t) => Some(Tagged(t.name, "\n" + x))
  {
    var x := PrintParams(m, ps, end);
    assert end + "" == end;
    SkipOther(m.fn, n + (">" + ("\n" + x)), m.param);
    TagInName(n, x, m.param);
    SkipPlain("\n", x, m.param);
  }

  lemma NoValueInEnd(m: Markers, end: string)
    requires Telling(m, end)
    ensures !Contains("\n" + end, m.paramEnd)
  {
    PlainText("", m.paramEnd);
    OtherTag(end, "", m.paramEnd, 2);
    assert end + "" == end;
    PlainPrefix("\n", end, m.paramEnd);
  }

  lemma ContentRead(m: Markers, end: string, c: Printed)
    requires Telling(m, end) && Plain(m, c)
    ensures FindParams(m, Content(m, end, c, "")) == c.params
  {
    ContentTagged(m, end, c.name, c.params);
    ParamsRead(m, end, c.params);
    NoValueInEnd(m, end);
  }

  // ---------------------------------------------------------------- the closing marker is found behind the content

  lemma Assoc(a: string, b: string, c: string)
    ensures (a + b) + c == a + (b + c)
  {
  }

  lemma Assoc4(tag: string, n: string, g: string, v: string, y: string)
    ensures (tag + (n + (g + v))) + y == tag + (n + (g + (v + y)))
  {
    Assoc(tag, n + (g + v), y);
    Assoc(n, g + v, y);
    Assoc(g, v, y);
  }

  lemma SkipPiece(piece: string, y: string, whole: string, pat: string)
    requires Solid(pat) && StartsTag(y) && !Contains(piece, pat) && piece + y == whole
    ensures IndexOf(whole, pat) == Shift(|whole| - |y|, IndexOf(y, pat))
  {
    SkipText(piece, y, pat);
  }

  lemma CloseSkipsHead(tag: string, n: string, v: string, y: string, pat: string)
    requires Solid(tag) && Solid(pat) && OnlyLast(pat) && Differ(tag, pat, 1)
    requires !Contains(n + ">", pat) && !Contains(v, pat) && StartsTag(y)
    ensures var whole := tag + (n + (">" + (v + y)));
            IndexOf(whole, pat) == Shift(|whole| - |y|, IndexOf(y, pat))
  {
    hide IndexOf;
    HeadWithout(tag, n, v, pat);
    Assoc4(tag, n, ">", v, y);
    SkipPiece(tag + (n + (">" + v)), y, tag + (n + (">" + (v + y))), pat);
  }

  lemma CloseSkipsEnd(tag: string, y: string, pat: string)
    requires Solid(tag) && Solid(pat) && Differ(tag, pat, 2) && StartsTag(y)
    ensures var whole := tag + ("\n" + y);
            IndexOf(whole, pat) == Shift(|whole| - |y|, IndexOf(y, pat))
  {
    hide IndexOf;
    PlainText("\n", pat);
    OtherTag(tag, "\n", pat, 2);
    Assoc(tag, "\n", y);
    SkipPiece(tag + "\n", y, tag + ("\n" + y), pat);
  }

  lemma CloseSkipsParam(m: Markers, n: string, v: string, y: string)
    requires Solid(m.param) && Solid(m.paramEnd) && Solid(m.close) && Differ(m.param, m.close, 1)
    requires Differ(m.paramEnd, m.close, 2) && OnlyLast(m.close)
    requires !Contains(n + ">", m.close) && !Contains(v, m.close) && StartsTag(y)
    ensures var whole := m.param + (n + (">" + (v + (m.paramEnd + ("\n" + y)))));
            IndexOf(whole, m.close) == Shift(|whole| - |y|, IndexOf(y, m.close))
  {
    hide IndexOf;
    CloseSkipsEnd(m.paramEnd, y, m.close);
    CloseSkipsHead(m.param, n, v, m.paramEnd + ("\n" + y), m.close);
  }

  lemma {:induction false} CloseSkipsParams(m: Markers, end: string, ps: seq<(string, string)>, y: string)
    requires Telling(m, end) && PlainParams(m, ps) && StartsTag(y)
    ensures |y| <= |PrintParams(m, ps, y)|
    ensures IndexOf(PrintParams(m, ps, y), m.close) == Shift(|PrintParams(m, ps, y)| - |y|, IndexOf(y, m.close))
  {
    hide IndexOf;
    if ps != [] {
      ParamsStartTag(m, ps[1..], y);
      CloseSkipsParams(m, end, ps[1..], y);
      CloseSkipsParam(m, ps[0].0, ps[0].1, PrintParams(m, ps[1..], y));
    }
  }

  /** Behind the opening marker, the closing marker comes right after the content. */
  lemma CloseFound(m: Markers, end: string, c: Printed, tail: string)
    requires Telling(m, end) && Plain(m, c)
    ensures var rest := Content(m, end, c, "\n" + (m.close + tail));
            |m.close| + |tail| <= |rest| && IndexOf(rest, m.close) == Some(|rest| - |m.close| - |tail|)
  {
    hide IndexOf;
    hide PrintParams;
    var stop := m.close + tail;
    var y := end + ("\n" + stop);
    AtFront(m.close, tail);
    CloseSkipsEnd(end, stop, m.close);
    CloseSkipsParams(m, end, c.params, y);
    ParamsStartTag(m, c.params, y);
    PlainText("\n", m.close);
    CloseSkipsHead(m.fn, c.name, "\n", PrintParams(m, c.params, y), m.close);
  }

  // ---------------------------------------------------------------- the block is cut out and read

  lemma {:induction false} ParamsTail(m: Markers, ps: seq<(string, string)>, a: string, b: string)
    ensures PrintParams(m, ps, a + b) == PrintParams(m, ps, a) + b
  {
    if ps != [] {
      var more := PrintParams(m, ps[1..], a);
      ParamsTail(m, ps[1..], a, b);
      Assoc4(m.paramEnd, "", "\n", more, b);
      Assoc("", "\n" + more, b);
      Assoc("\n", more, b);
      Assoc(m.paramEnd, "\n" + more, b);
      Assoc4(m.param, ps[0].0, ">", ps[0].1 + (m.paramEnd + ("\n" + more)), b);
      Assoc(ps[0].1, m.paramEnd + ("\n" + more), b);
    }
  }

  lemma ContentTail(m: Markers, end: string, c: Printed, b: string)
    ensures Content(m, end, c, b) == Content(m, end, c, "") + b
  {
    assert end + "" == end;
    ParamsTail(m, c.params, end, b);
    Assoc("\n", PrintParams(m, c.params, end), b);
    Assoc4(m.fn, c.name, ">", "\n" + PrintParams(m, c.params, end), b);
  }

  lemma EndsWith(a: string, end: string)
    requires end != ""
    ensures (a + end)[|a + end| - 1] == end[|end| - 1]
  {
  }

  lemma ContentStops(m: Markers, end: string, c: Printed)
    requires end != ""
    ensures var g := Content(m, end, c, ""); g != "" && g[|g| - 1] == end[|end| - 1]
  {
    var x := PrintParams(m, c.params, "");
    assert end + "" == end && "" + end == end;
    ParamsTail(m, c.params, "", end);
    Assoc("\n", x, end);
    Assoc4(m.fn, c.name, ">", "\n" + x, end);
    EndsWith(m.fn + (c.name + (">" + ("\n" + x))), end);
  }

  lemma ContentEnds(m: Markers, end: string, c: Printed)
    requires Telling(m, end)
    ensures var g := Content(m, end, c, ""); g != "" && g[0] == '<' && g[|g| - 1] == '>'
  {
    ContentStops(m, end, c);
    StartsWith(m.fn, c.name + (">" + ("\n" + PrintParams(m, c.params, end + ""))));
  }

  lemma StartsWith(a: string, b: string)
    requires a != ""
    ensures (a + b)[0] == a[0]
  {
  }

  lemma TrimLine(g: string)
    requires g != "" && !IsBlank(g[0]) && !IsBlank(g[|g| - 1])
    ensures TrimBlank("\n" + (g + "\n")) == g
  {
    var s := "\n" + (g + "\n");
    assert s[1..] == g + "\n";
    var blank := c => IsBlank(c);
    assert TrimLeft(g + "\n", blank) == g + "\n";
    assert (g + "\n")[..|g|] == g;
    assert TrimRight(g + "\n", blank) == TrimRight(g, blank) == g;
  }

  /** What stands between a printed call's markers. */
  function Inside(m: Markers, end: string, c: Printed): string {
    "\n" + (Content(m, end, c, "") + "\n")
  }

  lemma InsideRead(m: Markers, end: string, c: Printed, isJson: string -> bool)
    requires Telling(m, end) && Plain(m, c)
    ensures ReadCall(m, Inside(m, end, c), isJson) == Some(ToCall(c, isJson))
  {
    ContentEnds(m, end, c);
    TrimLine(Content(m, end, c, ""));
    FunctionRead(m, end, c);
    ContentRead(m, end, c);
  }

  lemma InsideShape(m: Markers, end: string, c: Printed, tail: string)
    ensures Inside(m, end, c) + (m.close + tail) == "\n" + Content(m, end, c, "\n" + (m.close + tail))
    ensures PrintCall(m, end, c, tail) == m.open + (Inside(m, end, c) + (m.close + tail))
  {
    var g := Content(m, end, c, "");
    ContentTail(m, end, c, "\n" + (m.close + tail));
    Assoc(g, "\n", m.close + tail);
    Assoc("\n", g + "\n", m.close + tail);
  }

  lemma InsideCloses(m: Markers, end: string, c: Printed, tail: string)
    requires Telling(m, end) && Plain(m, c)
    ensures IndexOf(Inside(m, end, c) + (m.close + tail), m.close) == Some(|Inside(m, end, c)|)
  {
    var rest := Content(m, end, c, "\n" + (m.close + tail));
    InsideShape(m, end, c, tail);
    CloseFound(m, end, c, tail);
    PlainText("\n", m.close);
    SkipPiece("\n", rest, "\n" + rest, m.close);
    assert |Inside(m, end, c) + (m.close + tail)| == |Inside(m, end, c)| + |m.close| + |tail|;
  }

  lemma DropSum(a: string, b: string)
    ensures (a + b)[|a|..] == b && (a + b)[..|a|] == a
  {
  }

  lemma SkipTo(s: string, pat: string, i: nat)
    requires Solid(pat) && i <= |s| && pat <= s[i..] && !Contains(s[..i], pat)
    ensures IndexOf(s, pat) == Some(i)
  {
    assert s == s[..i] + s[i..];
    IndexStep(s[i..], pat);
    SkipText(s[..i], s[i..], pat);
  }

  lemma CutUnfolds(m: Markers, s: string, b: Span, before: string, piece: Piece, tail: string, read: string -> Option<Call>)
    requires m.open != "" && FindBlock(m, s) == Some(b)
    requires s[..b.start] == before && BlockAt(m, s, b, read) == piece && s[b.end..] == tail
    ensures CutBlocks(m, s, read) == [Kept(before), piece] + CutBlocks(m, tail, read)
  {
  }

  lemma PieceIs(m: Markers, s: string, b: Span, inside: string, call: Call, read: string -> Option<Call>)
    requires b.start + |m.open| + |m.close| <= b.end <= |s|
    requires s[b.start + |m.open|..b.end - |m.close|] == inside && read(inside) == Some(call)
    ensures BlockAt(m, s, b, read) == Taken(s[b.start..b.end], call)
  {
  }

  lemma BlockSlices(before: string, open: string, inside: string, close: string, tail: string)
    ensures var s := before + (open + (inside + (close + tail)));
            var i := |before| + |open|;
            var e := i + |inside| + |close|;
            e <= |s| && s[..|before|] == before && s[i..e - |close|] == inside && s[e..] == tail
  {
    DropSum(before, open + (inside + (close + tail)));
    Assoc(before, open, inside + (close + tail));
    DropSum(before + open, inside + (close + tail));
    Assoc(before + open, inside, close + tail);
    DropSum(before + open + inside, close + tail);
    Assoc(before + open + inside, close, tail);
    DropSum(before + open + inside + close, tail);
    var s := before + (open + (inside + (close + tail)));
    assert s[..|before| + |open| + |inside|] == before + open + inside;
    DropSum(before + open, inside);
  }

  lemma SpanAt(m: Markers, s: string, i: nat, j: nat)
    requires Solid(m.open) && i + |m.open| <= |s| && m.open <= s[i..] && !Contains(s[..i], m.open)
    requires IndexOf(s[i + |m.open|..], m.close) == Some(j)
    ensures FindBlock(m, s) == Some(Span(i, i + |m.open| + j + |m.close|))
  {
    hide IndexOf;
    SkipTo(s, m.open, i);
  }

  lemma BlockParts(before: string, open: string, inside: string, close: string, tail: string)
    ensures var s := before + (open + (inside + (close + tail)));
            var i := |before| + |open|;
            var e := i + |inside| + |close|;
            && e <= |s| && s[..|before|] == before && open <= s[|before|..] && s[i..] == inside + (close + tail)
            && s[i..i + |inside|] == inside && s[e..] == tail
  {
    DropSum(before, open + (inside + (close + tail)));
    Assoc(before, open, inside + (close + tail));
    DropSum(before + open, inside + (close + tail));
    BlockSlices(before, open, inside, close, tail);
  }
}
