/** Printing tool calls between arbitrary text and extracting them again (internal/worker/qwen_tool_xml.go). */
module XmlRoundTrip {
  import opened Prelude
  import opened Strings
  import opened Tags
  import opened XmlToolCalls
  import opened XmlPrinting

  lemma PrintedCut(m: Markers, end: string, before: string, c: Printed, tail: string, isJson: string -> bool)
    returns (block: string)
    requires Telling(m, end) && Plain(m, c) && !Contains(before, m.open)
    ensures CutBlocks(m, before + PrintCall(m, end, c, tail), Reader(m, isJson))
            == [Kept(before), Taken(block, ToCall(c, isJson))] + CutBlocks(m, tail, Reader(m, isJson))
  {
    var inside := Inside(m, end, c);
    InsideShape(m, end, c, tail);
    BlockParts(before, m.open, inside, m.close, tail);
    InsideRead(m, end, c, isJson);
    InsideCloses(m, end, c, tail);
    block := PartsCut(m, before + PrintCall(m, end, c, tail), before, inside, ToCall(c, isJson), tail, Reader(m, isJson));
  }

  lemma PartsCut(m: Markers, s: string, before: string, inside: string, call: Call, tail: string, read: string -> Option<Call>)
    returns (block: string)
    requires Solid(m.open) && |before| + |m.open| + |inside| + |m.close| <= |s|
    requires s[..|before|] == before && m.open <= s[|before|..] && !Contains(before, m.open)
    requires IndexOf(s[|before| + |m.open|..], m.close) == Some(|inside|)
    requires s[|before| + |m.open|..|before| + |m.open| + |inside|] == inside && read(inside) == Some(call)
    requires s[|before| + |m.open| + |inside| + |m.close|..] == tail
    ensures CutBlocks(m, s, read) == [Kept(before), Taken(block, call)] + CutBlocks(m, tail, read)
  {
    var b := Span(|before|, |before| + |m.open| + |inside| + |m.close|);
    SpanAt(m, s, |before|, |inside|);
    block := s[b.start..b.end];
    InsideCut(m, s, b, before, inside, call, tail, read);
  }

  /** A text with a readable block behind `before` and ahead of `tail`. */
  lemma InsideCut(m: Markers, s: string, b: Span, before: string, inside: string, call: Call, tail: string,
                  read: string -> Option<Call>)
    requires m.open != "" && FindBlock(m, s) == Some(b) && s[..b.start] == before && s[b.end..] == tail
    requires s[b.start + |m.open|..b.end - |m.close|] == inside && read(inside) == Some(call)
    ensures CutBlocks(m, s, read) == [Kept(before), Taken(s[b.start..b.end], call)] + CutBlocks(m, tail, read)
  {
    PieceIs(m, s, b, inside, call, read);
    CutUnfolds(m, s, b, before, Taken(s[b.start..b.end], call), tail, read);
  }

  /** Every printed block is taken out with its own call, and what stays is the text between the blocks. */
  lemma {:induction false} BlocksCutOut(m: Markers, end: string, items: seq<(string, Printed)>, last: string, isJson: string -> bool)
    requires Telling(m, end) && PlainItems(m, items) && FindBlock(m, last).None?
    ensures Calls(CutBlocks(m, Print(m, end, items, last), Reader(m, isJson))) == ToCalls(items, isJson)
    ensures Rest(CutBlocks(m, Print(m, end, items, last), Reader(m, isJson))) == Joined(items, last)
  {
    if items == [] {
      LastIsKept(last);
    } else {
      var (before, c) := items[0];
      var read := Reader(m, isJson);
      var tail := Print(m, end, items[1..], last);
      var block := PrintedCut(m, end, before, c, tail, isJson);
      TwoPieces(Kept(before), Taken(block, ToCall(c, isJson)), CutBlocks(m, tail, read));
      BlocksCutOut(m, end, items[1..], last, isJson);
    }
  }

  lemma LastIsKept(last: string)
    ensures Calls([Kept(last)]) == [] && Rest([Kept(last)]) == last
  {
    assert [Kept(last)][1..] == [];
  }

  lemma PrintedHasMarker(m: Markers, end: string, items: seq<(string, Printed)>, last: string)
    requires items != [] && Solid(m.open) && !Contains(items[0].0, m.open)
    ensures Contains(Print(m, end, items, last), m.open)
  {
    var (before, c) := items[0];
    var x := "\n" + Content(m, end, c, "\n" + (m.close + Print(m, end, items[1..], last)));
    AtFront(m.open, x);
    SkipText(before, m.open + x, m.open);
  }

  /**
   Tool calls printed in the documented form between arbitrary text come back with their names and trimmed
   parameters, in order, and the text between them is what is left. Values must not contain a closing parameter or
   block tag, the text before each block no opening marker, and the joined text no inline marker.
   */
  lemma ExtractUndoesPrint(items: seq<(string, Printed)>, last: string, isJson: string -> bool)
    requires items != [] && PlainItems(QWEN, items) && FindBlock(QWEN, last).None?
    requires !Contains(Joined(items, last), INLINE)
    ensures Extract(Print(QWEN, END, items, last), isJson) == (ToCalls(items, isJson), TrimSpace(Joined(items, last)))
  {
    QwenTells();
    BlocksCutOut(QWEN, END, items, last, isJson);
    var joined := Joined(items, last);
    assert joined[0..] == joined;
    assert FindInline(joined, 0).None?;
    LastIsKept(joined);
    PrintedHasMarker(QWEN, END, items, last);
    assert ToCalls(items, isJson) + [] == ToCalls(items, isJson);
  }

  /** A parameter printed once is found under its name with its value trimmed, embedded as JSON if it is an object or array. */
  lemma {:induction false} ParamValue(ps: seq<(string, string)>, i: nat, isJson: string -> bool)
    requires i < |ps| && forall k :: i < k < |ps| ==> ps[k].0 != ps[i].0
    ensures ps[i].0 in ToParams(ps, isJson) && ToParams(ps, isJson)[ps[i].0] == ToValue(ps[i].1, isJson)
  {
    if i < |ps| - 1 {
      ParamValue(ps[..|ps| - 1], i, isJson);
    }
  }

  // ---------------------------------------------------------------- names that cannot be printed

  lemma NoTagWithoutEnd(s: string, tag: string)
    requires forall i :: 0 <= i < |s| ==> s[i] != '>'
    ensures FindTagged(s, tag).None?
  {
    TaggedIff(s, tag);
    forall k | 0 <= k <= |s| ensures !TagHere(s[k..], tag) {
      if tag <= s[k..] {
        NoNameWithoutEnd(s[k..][|tag|..], 0);
      }
    }
  }

  lemma {:induction false} NoNameWithoutEnd(s: string, k: nat)
    requires k <= |s| && forall i :: 0 <= i < |s| ==> s[i] != '>'
    ensures LazyName(s, k).None?
    decreases |s| - k
  {
    if k < |s| {
      NoNameWithoutEnd(s, k + 1);
    }
  }

  /** The first occurrence in a text is the first one in any text that goes on from there. */
  lemma FirstInPrefix(g: string, more: string, pat: string)
    requires Contains(g, pat)
    ensures IndexOf(g + more, pat) == IndexOf(g, pat)
  {
    var q := IndexOf(g, pat).value;
    IndexIff(g, pat);
    var s := g + more;
    assert s[q..][..|pat|] == g[q..][..|pat|];
    forall k | 0 <= k < q ensures !At(s, pat, k) {
      assert s[k..][..|pat|] == g[k..][..|pat|];
      assert !At(g, pat, k);
    }
    IndexIs(s, pat, q);
  }

  lemma ClosesAtTheEnd(m: Markers, n: string)
    requires PlainName(n) && Contains(n + ">", m.close) && m.close != "" && m.close[|m.close| - 1] == '>'
    ensures IndexOf(n + ">", m.close).value + |m.close| == |n| + 1
  {
    var g := n + ">";
    var q := IndexOf(g, m.close).value;
    IndexHits(g, m.close);
    assert g[q..][|m.close| - 1] == '>';
  }

  lemma FrontOfClose(head: string, y: string, close: string, q: nat)
    requires head == "\n" + QWEN.fn && close == QWEN.close && IndexOf(y, close) == Some(q)
    ensures IndexOf(head + y, close) == Some(|head| + q)
  {
    IndexIff(y, close);
    var s := head + y;
    assert s[|head| + q..] == y[q..];
    forall k | 0 <= k < |head| + q ensures !At(s, close, k) {
      if k >= |head| {
        assert s[k..] == y[k - |head|..];
        assert !At(y, close, k - |head|);
      } else {
        assert s[k..][0] == head[k] && (k + 1 < |head| ==> s[k..][1] == head[k + 1]);
      }
    }
    IndexIs(s, close, |head| + q);
  }

  lemma NoTagInTrimmed(s: string, tag: string)
    requires forall i :: 0 <= i < |s| ==> s[i] != '>'
    ensures FindTagged(TrimBlank(s), tag).None?
  {
    var blank := c => IsBlank(c);
    var l := TrimLeft(s, blank);
    assert l == s[|s| - |l|..];
    assert TrimRight(l, blank) <= l;
    NoTagWithoutEnd(TrimBlank(s), tag);
  }

  /** The block found when the closing marker is in the name: all of it up to there is free of '>'. */
  lemma ClosingBlock(s: string, n: string, more: string) returns (b: Span)
    requires PlainName(n) && Contains(n + ">", QWEN.close)
    requires s == QWEN.open + (("\n" + QWEN.fn) + ((n + ">") + more))
    ensures FindBlock(QWEN, s) == Some(b) && b.start == 0
    ensures forall i :: |QWEN.open| <= i < b.end - |QWEN.close| ==> s[i] != '>'
  {
    var m, head, g := QWEN, "\n" + QWEN.fn, n + ">";
    hide IndexOf;
    QwenMarkersAreSolid();
    ClosesAtTheEnd(m, n);
    FirstInPrefix(g, more, m.close);
    var q := IndexOf(g, m.close).value;
    FrontOfClose(head, g + more, m.close, q);
    assert s[|m.open|..] == head + (g + more);
    assert s[..0] == "" && s[0..] == s;
    PlainText("", m.open);
    SpanAt(m, s, 0, |head| + q);
    b := Span(0, |m.open| + |head| + q + |m.close|);
    forall i | |m.open| <= i < b.end - |m.close| ensures s[i] != '>' {
      var k := i - |m.open|;
      assert s[i] == (head + (g + more))[k] == if k < |head| then head[k] else n[k - |head|];
    }
  }

  /**
   Why names must be open: the closing marker is found in a function's name that would complete one. What is left
   of the block in front of it has no readable function tag, so the block stays in the text and the call is lost.
   */
  lemma ClosingNameIsLost(c: Printed, last: string, isJson: string -> bool) returns (b: Span)
    requires PlainName(c.name) && Contains(c.name + ">", QWEN.close)
    ensures FindBlock(QWEN, PrintCall(QWEN, END, c, last)) == Some(b)
    ensures BlockAt(QWEN, PrintCall(QWEN, END, c, last), b, Reader(QWEN, isJson)).Kept?
  {
    var s := PrintCall(QWEN, END, c, last);
    var more := "\n" + PrintParams(QWEN, c.params, END + ("\n" + (QWEN.close + last)));
    PrintedName(c, last, more);
    hide *;
    b := ClosingBlock(s, c.name, more);
    UnreadableIsKept(s, b, isJson);
  }

  lemma UnreadableIsKept(s: string, b: Span, isJson: string -> bool)
    requires b.start == 0 && |QWEN.open| + |QWEN.close| <= b.end <= |s|
    requires forall i :: |QWEN.open| <= i < b.end - |QWEN.close| ==> s[i] != '>'
    ensures BlockAt(QWEN, s, b, Reader(QWEN, isJson)).Kept?
  {
    hide TrimBlank;
    hide FindTagged;
    hide ReadCall;
    hide Reader;
    var inside := s[b.start + |QWEN.open|..b.end - |QWEN.close|];
    assert forall i :: 0 <= i < |inside| ==> inside[i] == s[|QWEN.open| + i];
    NoTagInTrimmed(inside, QWEN.fn);
    ReadIff(QWEN, inside, isJson);
  }

  lemma PrintedName(c: Printed, last: string, more: string)
    requires more == "\n" + PrintParams(QWEN, c.params, END + ("\n" + (QWEN.close + last)))
    ensures PrintCall(QWEN, END, c, last) == QWEN.open + (("\n" + QWEN.fn) + ((c.name + ">") + more))
  {
    hide PrintParams;
    Assoc(c.name, ">", more);
    Assoc("\n", QWEN.fn, c.name + (">" + more));
  }

  /**
   And when a parameter tag in a function's name does harm: the parameters come back exactly if there are none, or
   no tag is readable in the name. Otherwise the tag is read, with all of the first parameter's print as its value.
   */
  lemma ParamsBackIff(m: Markers, end: string, n: string, ps: seq<(string, string)>)
    requires Telling(m, end) && PlainName(n) && PlainParams(m, ps)
    requires ps != [] ==> !Contains(m.param + (ps[0].0 + (">" + ps[0].1)), m.paramEnd)
    ensures FindParams(m, Content(m, end, Printed(n, ps), "")) == ps <==>
              ps == [] || FindTagged(n + ">", m.param).None?
  {
    ContentTagged(m, end, n, ps);
    ParamsRead(m, end, ps);
    if ps == [] {
      NoValueInEnd(m, end);
    } else if FindTagged(n + ">", m.param).Some? {
      NameTagged(m, end, FindTagged(n + ">", m.param).value.name, ps);
    }
  }

  lemma NameTagged(m: Markers, end: string, r: string, ps: seq<(string, string)>)
    requires Telling(m, end) && ps != [] && PlainParams(m, ps)
    requires !Contains(m.param + (ps[0].0 + (">" + ps[0].1)), m.paramEnd)
    ensures ParamAndMore(m, Tagged(r, "\n" + PrintParams(m, ps, end))) != ps
  {
    var y := PrintParams(m, ps[1..], end);
    var v := "\n" + (m.param + (ps[0].0 + (">" + ps[0].1)));
    assert "\n" + PrintParams(m, ps, end) == v + (m.paramEnd + ("\n" + y));
    PlainPrefix("\n", m.param + (ps[0].0 + (">" + ps[0].1)), m.paramEnd);
    ParamsStartTag(m, ps[1..], end);
    MoreRead(m, r, v, y);
    assert |v| > |ps[0].1|;
    assert ParamAndMore(m, Tagged(r, "\n" + PrintParams(m, ps, end)))[0] == (r, v);
  }
}
