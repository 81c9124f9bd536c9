/** Splitting streamed content around thinking tags (internal/worker/executor.go, splitThinkContent). */
module ThinkSplit {
  import opened Prelude
  import opened Strings
  import opened Tags

  datatype Part = Part(text: string, isThinking: bool)

  const OPEN: string := "<think>"
  const CLOSE: string := "</think>"

  /** Text in front of a tag makes a part unless it is empty. */
  function Lead(text: string, inThink: bool): seq<Part> {
    if text == "" then [] else [Part(text, inThink)]
  }

  // ---------------------------------------------------------------- one chunk

  /** `cur` is the tag that ends the current mode, `other` the one that ends the next. */
  function Split(s: string, cur: string, other: string, inThink: bool): seq<Part>
    requires cur != "" && other != ""
    decreases |s|
  {
    match IndexOf(s, cur)
    case None => Lead(s, inThink)
    case Some(i) => Lead(s[..i], inThink) + Split(s[i + |cur|..], other, cur, !inThink)
  }

  /** Whether the chunk leaves the mode switched. */
  function Switched(s: string, cur: string, other: string): bool
    requires cur != "" && other != ""
    decreases |s|
  {
    match IndexOf(s, cur)
    case None => false
    case Some(i) => !Switched(s[i + |cur|..], other, cur)
  }

  function Ending(inThink: bool): string {
    if inThink then CLOSE else OPEN
  }

  /** The parts of a chunk that starts in the given mode. */
  function Parts(chunk: string, inThink: bool): seq<Part> {
    Split(chunk, Ending(inThink), Ending(!inThink), inThink)
  }

  function ModeAfter(chunk: string, inThink: bool): bool {
    if Switched(chunk, Ending(inThink), Ending(!inThink)) then !inThink else inThink
  }

  lemma Assoc<T>(a: seq<T>, b: seq<T>, c: seq<T>)
    ensures a + (b + c) == (a + b) + c && (b == [] ==> a + b == a) && (c == [] ==> b + c == b)
  {
  }

  lemma SplitTagged(s: string, cur: string, other: string, k: bool, i: nat)
    requires cur != "" && other != "" && IndexOf(s, cur) == Some(i)
    ensures Split(s, cur, other, k) == Lead(s[..i], k) + Split(s[i + |cur|..], other, cur, !k)
    ensures Switched(s, cur, other) == !Switched(s[i + |cur|..], other, cur)
  {
  }

  method SplitThinkContent(chunk: string, inThink: bool) returns (parts: seq<Part>, inThink': bool)
    ensures parts == Parts(chunk, inThink) && inThink' == ModeAfter(chunk, inThink)
  {
    parts, inThink' := SplitLoop(chunk, OPEN, CLOSE, inThink);
  }

  method SplitLoop(chunk: string, open: string, close: string, inThink: bool) returns (parts: seq<Part>, inThink': bool)
    requires open != "" && close != ""
    ensures var cur, other := if inThink then close else open, if inThink then open else close;
            && parts == Split(chunk, cur, other, inThink)
            && inThink' == if Switched(chunk, cur, other) then !inThink else inThink
  {
    parts, inThink' := [], inThink;
    var remainder := chunk;
    var cur, other := if inThink then close else open, if inThink then open else close;
    ghost var first, second := cur, other;
    while |remainder| > 0
      invariant cur != "" && other != ""
      invariant cur == (if inThink' then close else open) && other == (if inThink' then open else close)
      invariant parts + Split(remainder, cur, other, inThink') == Split(chunk, first, second, inThink)
      invariant (inThink' == inThink) == (Switched(remainder, cur, other) == Switched(chunk, first, second))
      decreases |remainder|
    {
      var idx := IndexOf(remainder, cur);
      if idx.None? {
        parts := parts + [Part(remainder, inThink')];
        return;
      }
      var i := idx.value;
      SplitTagged(remainder, cur, other, inThink', i);
      Assoc(parts, Lead(remainder[..i], inThink'), Split(remainder[i + |cur|..], other, cur, !inThink'));
      if i > 0 {
        parts := parts + [Part(remainder[..i], inThink')];
      }
      remainder := remainder[i + |cur|..];
      inThink', cur, other := !inThink', other, cur;
    }
    assert Split("", cur, other, inThink') == [];
  }

  // ---------------------------------------------------------------- nothing but tags is dropped

  datatype Item = Say(part: Part) | Drop(tag: string)

  /** The chunk as labelled text and consumed tags in turn. */
  function Items(s: string, cur: string, other: string, inThink: bool): seq<Item>
    requires cur != "" && other != ""
    decreases |s|
  {
    match IndexOf(s, cur)
    case None => [Say(Part(s, inThink))]
    case Some(i) => [Say(Part(s[..i], inThink)), Drop(cur)] + Items(s[i + |cur|..], other, cur, !inThink)
  }

  function Whole(items: seq<Item>): string {
    if items == [] then ""
    else (if items[0].Say? then items[0].part.text else items[0].tag) + Whole(items[1..])
  }

  function Said(items: seq<Item>): seq<Part> {
    if items == [] then []
    else (if items[0].Say? then Lead(items[0].part.text, items[0].part.isThinking) else []) + Said(items[1..])
  }

  lemma TwoItems(p: Part, tag: string, rest: seq<Item>)
    ensures Whole([Say(p), Drop(tag)] + rest) == p.text + (tag + Whole(rest))
    ensures Said([Say(p), Drop(tag)] + rest) == Lead(p.text, p.isThinking) + Said(rest)
  {
    var all := [Say(p), Drop(tag)] + rest;
    assert all[1..] == [Drop(tag)] + rest;
    assert all[1..][1..] == rest;
  }

  lemma LastItem(p: Part)
    ensures Whole([Say(p)]) == p.text && Said([Say(p)]) == Lead(p.text, p.isThinking)
  {
    assert [Say(p)][1..] == [];
  }

  lemma Rejoin(s: string, i: nat, tag: string)
    requires i + |tag| <= |s| && s[i..][..|tag|] == tag
    ensures s[..i] + (tag + s[i + |tag|..]) == s
  {
    assert s[i..] == tag + s[i..][|tag|..];
    assert s[i..][|tag|..] == s[i + |tag|..];
  }

  /** The parts, with the consumed tags put back between them, are the chunk again. */
  lemma {:induction false} OnlyTagsAreDropped(s: string, cur: string, other: string, k: bool)
    requires cur != "" && other != ""
    ensures Whole(Items(s, cur, other, k)) == s && Said(Items(s, cur, other, k)) == Split(s, cur, other, k)
    decreases |s|
  {
    hide IndexOf;
    match IndexOf(s, cur)
    case None => LastItem(Part(s, k));
    case Some(i) =>
      OnlyTagsAreDropped(s[i + |cur|..], other, cur, !k);
      IndexHits(s, cur);
      Rejoin(s, i, cur);
      TwoItems(Part(s[..i], k), cur, Items(s[i + |cur|..], other, cur, !k));
  }

  // ---------------------------------------------------------------- where a text may be cut

  function Label(s: string, thinking: bool): (r: seq<(char, bool)>)
    ensures |r| == |s| && forall i :: 0 <= i < |s| ==> r[i] == (s[i], thinking)
  {
    seq(|s|, i requires 0 <= i < |s| => (s[i], thinking))
  }

  /** Each character of the parts with its label. */
  function Labelled(parts: seq<Part>): seq<(char, bool)> {
    if parts == [] then [] else Label(parts[0].text, parts[0].isThinking) + Labelled(parts[1..])
  }

  /** The characters that are passed on, each with its label: what Labelled makes of the parts (see LabelsOfParts). */
  function Labels(s: string, cur: string, other: string, k: bool): seq<(char, bool)>
    requires cur != "" && other != ""
    decreases |s|
  {
    match IndexOf(s, cur)
    case None => Label(s, k)
    case Some(i) => Label(s[..i], k) + Labels(s[i + |cur|..], other, cur, !k)
  }

  lemma LeadLabelled(text: string, k: bool, more: seq<Part>)
    ensures Labelled(Lead(text, k) + more) == Label(text, k) + Labelled(more)
  {
    if text == "" {
      assert Lead(text, k) + more == more && Label(text, k) + Labelled(more) == Labelled(more);
    } else {
      assert ([Part(text, k)] + more)[1..] == more;
    }
  }

  lemma {:induction false} LabelsOfParts(s: string, cur: string, other: string, k: bool)
    requires cur != "" && other != ""
    ensures Labelled(Split(s, cur, other, k)) == Labels(s, cur, other, k)
    decreases |s|
  {
    match IndexOf(s, cur)
    case None =>
      LeadLabelled(s, k, []);
      assert Lead(s, k) + [] == Lead(s, k) && Label(s, k) + [] == Label(s, k);
    case Some(i) =>
      LabelsOfParts(s[i + |cur|..], other, cur, !k);
      LeadLabelled(s[..i], k, Split(s[i + |cur|..], other, cur, !k));
  }

  /** Position n lies inside a tag that processing the whole text consumes. */
  predicate Straddles(s: string, n: nat, cur: string, other: string)
    requires cur != "" && other != ""
    decreases |s|
  {
    match IndexOf(s, cur)
    case None => false
    case Some(i) => i < n && (n < i + |cur| || Straddles(s[i + |cur|..], n - i - |cur|, other, cur))
  }

  lemma {:induction false} IndexInPrefix(s: string, pat: string, n: nat)
    requires pat != "" && n <= |s|
    ensures IndexOf(s[..n], pat) == match IndexOf(s, pat)
                                    case Some(i) => if i + |pat| <= n then Some(i) else None
                                    case None => None
    decreases |s|
  {
    hide IndexOf;
    IndexStep(s, pat);
    IndexStep(s[..n], pat);
    if n > 0 {
      assert s[..n][1..] == s[1..][..n - 1];
      IndexInPrefix(s[1..], pat, n - 1);
      assert pat <= s && |pat| <= n ==> pat <= s[..n];
      assert pat <= s[..n] ==> pat <= s;
    }
  }

  lemma {:induction false} IndexInSuffix(s: string, pat: string, n: nat)
    requires pat != "" && n <= |s| && (IndexOf(s, pat).Some? ==> n <= IndexOf(s, pat).value)
    ensures IndexOf(s[n..], pat) == match IndexOf(s, pat) case Some(i) => Some(i - n) case None => None
    decreases n
  {
    hide IndexOf;
    if n == 0 {
      assert s[0..] == s;
    } else {
      IndexStep(s, pat);
      assert s[n..] == s[1..][n - 1..];
      IndexInSuffix(s[1..], pat, n - 1);
    }
  }

  lemma LabelSum(s: string, n: nat, k: bool)
    requires n <= |s|
    ensures Label(s, k) == Label(s[..n], k) + Label(s[n..], k)
  {
  }

  lemma LabelsTagged(s: string, cur: string, other: string, k: bool, i: nat)
    requires cur != "" && other != "" && IndexOf(s, cur) == Some(i)
    ensures Labels(s, cur, other, k) == Label(s[..i], k) + Labels(s[i + |cur|..], other, cur, !k)
  {
  }

  /** The labels when the text comes as two chunks, cut at position n. */
  function CutLabels(s: string, n: nat, cur: string, other: string, k: bool): seq<(char, bool)>
    requires cur != "" && other != "" && n <= |s|
  {
    Labels(s[..n], cur, other, k) + SecondChunk(s, n, cur, other, k)
  }

  lemma NoTag(s: string, cur: string, other: string, k: bool)
    requires cur != "" && other != "" && IndexOf(s, cur) == None
    ensures Labels(s, cur, other, k) == Label(s, k) && !Switched(s, cur, other)
  {
  }

  /** Cut before the first tag, or with no tag at all: both chunks start in the same mode. */
  lemma CutBeforeTag(s: string, n: nat, cur: string, other: string, k: bool)
    requires cur != "" && other != "" && n <= |s| && (IndexOf(s, cur).Some? ==> n <= IndexOf(s, cur).value)
    ensures CutLabels(s, n, cur, other, k) == Labels(s, cur, other, k)
  {
    IndexInPrefix(s, cur, n);
    NoTag(s[..n], cur, other, k);
    SuffixLabels(s, n, cur, other, k);
  }

  lemma SuffixLabels(s: string, n: nat, cur: string, other: string, k: bool)
    requires cur != "" && other != "" && n <= |s| && (IndexOf(s, cur).Some? ==> n <= IndexOf(s, cur).value)
    ensures Label(s[..n], k) + Labels(s[n..], cur, other, k) == Labels(s, cur, other, k)
  {
    IndexInSuffix(s, cur, n);
    match IndexOf(s, cur)
    case None =>
      NoTag(s, cur, other, k);
      NoTag(s[n..], cur, other, k);
      LabelSum(s, n, k);
    case Some(i) => SuffixTagged(s, n, cur, other, k, i);
  }

  lemma SuffixTagged(s: string, n: nat, cur: string, other: string, k: bool, i: nat)
    requires cur != "" && other != "" && n <= i && IndexOf(s, cur) == Some(i) && IndexOf(s[n..], cur) == Some(i - n)
    ensures Label(s[..n], k) + Labels(s[n..], cur, other, k) == Labels(s, cur, other, k)
  {
    LabelsTagged(s, cur, other, k, i);
    LabelsOfSuffix(s, n, cur, other, k, i);
    LabelParts(s, n, i, k);
    Assoc(Label(s[..n], k), Label(s[n..i], k), Labels(s[i + |cur|..], other, cur, !k));
  }

  lemma LabelsOfSuffix(s: string, n: nat, cur: string, other: string, k: bool, i: nat)
    requires cur != "" && other != "" && n <= i && i + |cur| <= |s| && IndexOf(s[n..], cur) == Some(i - n)
    ensures Labels(s[n..], cur, other, k) == Label(s[n..i], k) + Labels(s[i + |cur|..], other, cur, !k)
  {
    hide *;
    LabelsTagged(s[n..], cur, other, k, i - n);
    SubSlices(s, n, i, i + |cur|);
  }

  lemma LabelParts(s: string, n: nat, i: nat, k: bool)
    requires n <= i <= |s|
    ensures Label(s[..i], k) == Label(s[..n], k) + Label(s[n..i], k)
  {
  }

  lemma SubSlices(s: string, n: nat, i: nat, e: nat)
    requires n <= i <= e <= |s|
    ensures s[n..][e - n..] == s[e..] && s[n..][..i - n] == s[n..i]
  {
  }

  /** Cut behind the first tag: it is consumed in the first chunk, and the rest is cut in the other mode. */
  lemma CutBehindTag(s: string, n: nat, cur: string, other: string, k: bool, i: nat)
    requires cur != "" && other != "" && n <= |s| && IndexOf(s, cur) == Some(i) && i + |cur| <= n
    ensures CutLabels(s, n, cur, other, k)
            == Label(s[..i], k) + CutLabels(s[i + |cur|..], n - i - |cur|, other, cur, !k)
  {
    var e := i + |cur|;
    FirstChunkBehindTag(s, n, cur, other, k, i);
    hide *;
    Assoc(Label(s[..i], k), Labels(s[e..][..n - e], other, cur, !k), SecondChunk(s, n, cur, other, k));
  }

  lemma FirstChunkBehindTag(s: string, n: nat, cur: string, other: string, k: bool, i: nat)
    requires cur != "" && other != "" && n <= |s| && IndexOf(s, cur) == Some(i) && i + |cur| <= n
    ensures var rest, m := s[i + |cur|..], n - i - |cur|;
            && Labels(s[..n], cur, other, k) == Label(s[..i], k) + Labels(rest[..m], other, cur, !k)
            && Switched(s[..n], cur, other) == !Switched(rest[..m], other, cur) && s[n..] == rest[m..]
            && SecondChunk(s, n, cur, other, k) == SecondChunk(rest, m, other, cur, !k)
  {
    hide IndexOf;
    IndexInPrefix(s, cur, n);
    PrefixSlices(s, i, i + |cur|, n);
    LabelsTagged(s[..n], cur, other, k, i);
    SplitTagged(s[..n], cur, other, k, i);
  }

  function SecondChunk(s: string, n: nat, cur: string, other: string, k: bool): seq<(char, bool)>
    requires cur != "" && other != "" && n <= |s|
  {
    if Switched(s[..n], cur, other) then Labels(s[n..], other, cur, !k) else Labels(s[n..], cur, other, k)
  }

  lemma PrefixSlices(s: string, i: nat, e: nat, n: nat)
    requires i <= e <= n <= |s|
    ensures s[..n][..i] == s[..i] && s[..n][e..] == s[e..][..n - e] && s[e..][n - e..] == s[n..]
  {
  }

  lemma {:induction false} CleanCutHarmless(s: string, n: nat, cur: string, other: string, k: bool)
    requires cur != "" && other != "" && n <= |s| && !Straddles(s, n, cur, other)
    ensures CutLabels(s, n, cur, other, k) == Labels(s, cur, other, k)
    decreases |s|
  {
    if IndexOf(s, cur).Some? && IndexOf(s, cur).value < n {
      var i := IndexOf(s, cur).value;
      CutBehindTag(s, n, cur, other, k, i);
      CleanCutHarmless(s[i + |cur|..], n - i - |cur|, other, cur, !k);
      LabelsTagged(s, cur, other, k, i);
    } else {
      CutBeforeTag(s, n, cur, other, k);
    }
  }

  // ---------------------------------------------------------------- a cut inside a consumed tag shows

  ghost predicate Telling(a: string, b: string) {
    Solid(a) && Solid(b) && |a| > 1 && |b| > 1 && a[1] != b[1]
  }

  lemma ThinkTagsTell()
    ensures Telling(OPEN, CLOSE) && Telling(CLOSE, OPEN)
  {
  }

  /** The tag may begin at position p of v: its first character is there, and its second is or would come after v. */
  ghost predicate MayBegin(v: string, tag: string, p: nat)
    requires |tag| > 1 && p < |v|
  {
    v[p] == tag[0] && (p + 1 == |v| || v[p + 1] == tag[1])
  }

  ghost predicate NoStart(v: string, tag: string)
    requires |tag| > 1
  {
    forall p :: 0 <= p < |v| ==> !MayBegin(v, tag, p)
  }

  lemma {:induction false} SearchSkips(v: string, w: string, tag: string)
    requires |tag| > 1 && NoStart(v, tag)
    ensures IndexOf(v + w, tag) == Shift(|v|, IndexOf(w, tag))
    decreases |v|
  {
    hide IndexOf;
    if v == "" {
      assert v + w == w;
    } else {
      IndexStep(v + w, tag);
      assert !MayBegin(v, tag, 0);
      assert (v + w)[1..] == v[1..] + w;
      assert (v + w)[0] == v[0] && (1 < |v| ==> (v + w)[1] == v[1]);
      forall p | 0 <= p < |v| - 1 ensures !MayBegin(v[1..], tag, p) {
        assert !MayBegin(v, tag, p + 1);
      }
      SearchSkips(v[1..], w, tag);
    }
  }

  lemma LabelsSkip(v: string, w: string, cur: string, other: string, k: bool)
    requires |cur| > 1 && other != "" && NoStart(v, cur)
    ensures Labels(v + w, cur, other, k) == Label(v, k) + Labels(w, cur, other, k)
  {
    SearchSkips(v, w, cur);
    match IndexOf(w, cur)
    case None =>
      NoTag(w, cur, other, k);
      NoTag(v + w, cur, other, k);
      LabelAppend(v, w, k);
    case Some(j) => SkipTagged(v, w, v + w, cur, other, k, j);
  }

  lemma SkipTagged(v: string, w: string, s: string, cur: string, other: string, k: bool, j: nat)
    requires cur != "" && other != "" && s == v + w && IndexOf(w, cur) == Some(j) && IndexOf(s, cur) == Some(|v| + j)
    ensures Labels(s, cur, other, k) == Label(v, k) + Labels(w, cur, other, k)
  {
    hide *;
    LabelsTagged(s, cur, other, k, |v| + j);
    LabelsTagged(w, cur, other, k, j);
    AppendSlices(v, w, j, j + |cur|);
    LabelAppend(v, w[..j], k);
    Assoc(Label(v, k), Label(w[..j], k), Labels(w[j + |cur|..], other, cur, !k));
  }

  lemma AppendSlices(v: string, w: string, j: nat, e: nat)
    requires j <= e <= |w|
    ensures (v + w)[|v| + e..] == w[e..] && (v + w)[..|v| + j] == v + w[..j]
  {
  }

  lemma LabelAppend(v: string, w: string, k: bool)
    ensures Label(v + w, k) == Label(v, k) + Label(w, k)
  {
  }

  /** What is behind the tag starts with text of the next mode, or with the other tag, or is empty. */
  lemma FirstLabel(u: string, cur: string, other: string, k: bool)
    requires cur != "" && other != "" && u != "" && IndexOf(u, cur) != Some(0)
    ensures |Labels(u, cur, other, k)| > 0 && Labels(u, cur, other, k)[0].1 == k
  {
  }

  lemma InsideTagShows(s: string, n: nat, cur: string, other: string, k: bool, i: nat, tail: seq<(char, bool)>)
    requires Telling(cur, other) && n <= |s| && IndexOf(s, cur) == Some(i) && i < n < i + |cur|
    requires |tail| >= |SecondChunk(s, n, cur, other, k)|
    ensures Labels(s[..n], cur, other, k) + tail != Labels(s, cur, other, k)
  {
    var u := s[i + |cur|..];
    IndexInPrefix(s, cur, n);
    LabelsTagged(s, cur, other, k, i);
    assert Labels(s[..n], cur, other, k) == Label(s[..n], k) && !Switched(s[..n], cur, other);
    assert (Labels(s[..n], cur, other, k) + tail)[i] == (s[i], k);
    if u == "" {
      assert Labels(u, other, cur, !k) == [];
    } else if IndexOf(u, other) == Some(0) {
      DoubleTagShows(s, n, cur, other, k, i);
    } else {
      FirstLabel(u, other, cur, !k);
      assert Labels(s, cur, other, k)[i] == Labels(u, other, cur, !k)[0];
    }
  }

  lemma TagCutIn(s: string, n: nat, tag: string, i: nat)
    requires IndexOf(s, tag) == Some(i) && i <= n <= i + |tag|
    ensures s[n..] == tag[n - i..] + s[i + |tag|..]
  {
    IndexHits(s, tag);
    hide IndexOf;
    assert s[i..][..|tag|] == tag && s[n..i + |tag|] == tag[n - i..];
  }

  lemma TwoTags(s: string, v: string, u: string, tag: string, w: string)
    requires s == v + u && u[0..] == tag[0..] + w
    ensures s == (v + tag) + w && u == tag + w
  {
  }

  lemma DoubleTagShows(s: string, n: nat, cur: string, other: string, k: bool, i: nat)
    requires Telling(cur, other) && n <= |s| && IndexOf(s, cur) == Some(i) && i < n < i + |cur|
    requires IndexOf(s[i + |cur|..], other) == Some(0)
    ensures |Label(s[..n], k) + Labels(s[n..], cur, other, k)| > |Labels(s, cur, other, k)|
  {
    hide IndexOf;
    hide Labels;
    var u := s[i + |cur|..];
    var v, w := cur[n - i..] + other, u[|other|..];
    TagCutIn(s, n, cur, i);
    TagCutIn(u, 0, other, 0);
    TwoTags(s[n..], cur[n - i..], u, other, w);
    LabelsSkip(v, w, cur, other, k);
    LabelsTagged(s, cur, other, k, i);
    LabelsTagged(u, other, cur, !k, 0);
  }

  lemma StraddleCases(s: string, n: nat, cur: string, other: string) returns (i: nat)
    requires cur != "" && other != "" && n <= |s| && Straddles(s, n, cur, other)
    ensures IndexOf(s, cur) == Some(i) && i < n
    ensures i + |cur| <= n ==> Straddles(s[i + |cur|..], n - i - |cur|, other, cur)
  {
    i := IndexOf(s, cur).value;
  }

  /** Whatever comes for the second chunk shows, as long as it passes on no less than processing it would. */
  lemma {:induction false} StraddleShows(s: string, n: nat, cur: string, other: string, k: bool, tail: seq<(char, bool)>)
    requires Telling(cur, other) && n <= |s| && Straddles(s, n, cur, other)
    requires |tail| >= |SecondChunk(s, n, cur, other, k)|
    ensures Labels(s[..n], cur, other, k) + tail != Labels(s, cur, other, k)
    decreases |s|
  {
    hide IndexOf;
    hide Labels;
    hide SecondChunk;
    var i := StraddleCases(s, n, cur, other);
    if n < i + |cur| {
      InsideTagShows(s, n, cur, other, k, i, tail);
    } else {
      var rest, m := s[i + |cur|..], n - i - |cur|;
      FirstChunkBehindTag(s, n, cur, other, k, i);
      StraddleShows(rest, m, other, cur, !k, tail);
      LabelsTagged(s, cur, other, k, i);
      Assoc(Label(s[..i], k), Labels(rest[..m], other, cur, !k), tail);
      Cancel(Label(s[..i], k), Labels(rest[..m], other, cur, !k) + tail, Labels(rest, other, cur, !k));
    }
  }

  /** Two chunks give the labels of the whole text exactly if the cut is not inside a tag the whole text consumes. */
  lemma CutHarmlessIff(s: string, n: nat, cur: string, other: string, k: bool)
    requires Telling(cur, other) && n <= |s|
    ensures CutLabels(s, n, cur, other, k) == Labels(s, cur, other, k) <==> !Straddles(s, n, cur, other)
  {
    if Straddles(s, n, cur, other) {
      StraddleShows(s, n, cur, other, k, SecondChunk(s, n, cur, other, k));
    } else {
      CleanCutHarmless(s, n, cur, other, k);
    }
  }

  lemma Cancel<T>(a: seq<T>, b: seq<T>, c: seq<T>)
    ensures a + b == a + c ==> b == c
  {
    assert (a + b)[|a|..] == b && (a + c)[|a|..] == c;
  }

  // ---------------------------------------------------------------- cutting never consumes more

  /** Where the tag first found ends, the other one has not begun. */
  lemma TagsApart(u: string, cur: string, other: string, p: nat, q: nat)
    requires Telling(cur, other) && IndexOf(u, cur) == Some(p) && IndexOf(u, other) == Some(q)
    ensures p + |cur| <= q || q + |other| <= p
  {
    IndexHits(u, cur);
    IndexHits(u, other);
    hide IndexOf;
    assert forall i :: 0 <= i < |cur| ==> cur[i] == u[p..][i] == u[p + i];
    assert forall i :: 0 <= i < |other| ==> other[i] == u[q..][i] == u[q + i];
  }

  /** One search ahead: the tag found first is consumed by the one who looks for it, and from there on both agree. */
  lemma OneTagAhead(u: string, cur: string, other: string, k: bool, p: nat)
    requires cur != "" && other != "" && IndexOf(u, cur) == Some(p)
    requires IndexOf(u, other).Some? ==> p + |cur| <= IndexOf(u, other).value
    ensures |Labels(u, other, cur, !k)| == |cur| + |Labels(u, cur, other, k)|
  {
    hide *;
    LabelsTagged(u, cur, other, k, p);
    SuffixLabels(u, p + |cur|, other, cur, !k);
  }

  /** Who looks for the other tag passes on at most one tag more. */
  lemma AtMostOneTagMore(u: string, cur: string, other: string, k: bool)
    requires Telling(cur, other)
    ensures |Labels(u, other, cur, !k)| <= |cur| + |Labels(u, cur, other, k)|
  {
    var p, q := IndexOf(u, cur), IndexOf(u, other);
    if p.Some? && q.Some? {
      TagsApart(u, cur, other, p.value, q.value);
    }
    hide IndexOf;
    hide Labels;
    if p.Some? && (q.None? || p.value < q.value) {
      OneTagAhead(u, cur, other, k, p.value);
    } else if q.Some? {
      OneTagAhead(u, other, cur, !k, q.value);
    } else {
      NoTag(u, cur, other, k);
      NoTag(u, other, cur, !k);
    }
  }

  lemma InsideTagPassesMore(s: string, n: nat, cur: string, other: string, k: bool, i: nat)
    requires Telling(cur, other) && n <= |s| && IndexOf(s, cur) == Some(i) && i < n < i + |cur|
    ensures |CutLabels(s, n, cur, other, k)| >= |Labels(s, cur, other, k)|
  {
    var v, u := cur[n - i..], s[i + |cur|..];
    hide *;
    CutInTag(s, n, cur, other, k, i);
    NoStartInside(cur, other, n - i);
    TagCutIn(s, n, cur, i);
    LabelsSkip(v, u, cur, other, k);
    LabelsTagged(s, cur, other, k, i);
    AtMostOneTagMore(u, cur, other, k);
  }

  lemma CutInTag(s: string, n: nat, cur: string, other: string, k: bool, i: nat)
    requires cur != "" && other != "" && n <= |s| && IndexOf(s, cur) == Some(i) && i < n < i + |cur|
    ensures |CutLabels(s, n, cur, other, k)| == n + |Labels(s[n..], cur, other, k)|
  {
    IndexInPrefix(s, cur, n);
    NoTag(s[..n], cur, other, k);
    hide Labels;
    hide Switched;
    hide IndexOf;
  }

  lemma NoStartInside(cur: string, other: string, n: nat)
    requires Telling(cur, other) && 0 < n <= |cur|
    ensures |cur| > 1 && |other| > 1 && NoStart(cur[n..], cur)
  {
  }

  lemma {:induction false} CutPassesMore(s: string, n: nat, cur: string, other: string, k: bool)
    requires Telling(cur, other) && n <= |s|
    ensures |CutLabels(s, n, cur, other, k)| >= |Labels(s, cur, other, k)|
    decreases |s|
  {
    hide Labels;
    hide IndexOf;
    hide CutLabels;
    if Straddles(s, n, cur, other) {
      var i := StraddleCases(s, n, cur, other);
      if n < i + |cur| {
        InsideTagPassesMore(s, n, cur, other, k, i);
      } else {
        CutBehindTag(s, n, cur, other, k, i);
        CutPassesMore(s[i + |cur|..], n - i - |cur|, other, cur, !k);
        LabelsTagged(s, cur, other, k, i);
      }
    } else {
      CleanCutHarmless(s, n, cur, other, k);
    }
  }

  /** What straddles behind a clean cut is what straddles in the second chunk, in the mode the first one leaves. */
  lemma {:induction false} StraddleBehind(s: string, n: nat, m: nat, cur: string, other: string)
    requires cur != "" && other != "" && n <= |s| && !Straddles(s, n, cur, other)
    ensures Straddles(s, n + m, cur, other) <==>
              if Switched(s[..n], cur, other) then Straddles(s[n..], m, other, cur) else Straddles(s[n..], m, cur, other)
    decreases |s|
  {
    match IndexOf(s, cur)
    case None =>
      IndexInPrefix(s, cur, n);
      IndexInSuffix(s, cur, n);
    case Some(i) =>
      var e := i + |cur|;
      if i < n {
        FirstChunkBehindTag(s, n, cur, other, true, i);
        StraddleBehind(s[e..], n - e, m, other, cur);
      } else {
        IndexInPrefix(s, cur, n);
        IndexInSuffix(s, cur, n);
        SubSlices(s, n, i, e);
      }
  }

  // ---------------------------------------------------------------- any number of chunks

  /** All characters of a stream of chunks, with the mode carried from chunk to chunk. */
  function StreamLabels(chunks: seq<string>, k: bool): seq<(char, bool)> {
    if chunks == [] then []
    else Labelled(Parts(chunks[0], k)) + StreamLabels(chunks[1..], ModeAfter(chunks[0], k))
  }

  /** No chunk boundary lies inside a tag that processing the rest of the stream in one piece would consume. */
  ghost predicate CleanCuts(chunks: seq<string>, k: bool) {
    chunks == []
    || (!Straddles(Flatten(chunks), |chunks[0]|, Ending(k), Ending(!k)) && CleanCuts(chunks[1..], ModeAfter(chunks[0], k)))
  }

  /** However the stream is cut, as long as it is cut cleanly, the labelled text is that of the whole. */
  lemma {:induction false} ChunkingIrrelevant(chunks: seq<string>, k: bool)
    requires CleanCuts(chunks, k)
    ensures StreamLabels(chunks, k) == Labelled(Parts(Flatten(chunks), k))
  {
    var s := Flatten(chunks);
    LabelsOfParts(s, Ending(k), Ending(!k), k);
    if chunks != [] {
      var n := |chunks[0]|;
      ChunkingIrrelevant(chunks[1..], ModeAfter(chunks[0], k));
      CleanCutHarmless(s, n, Ending(k), Ending(!k), k);
      assert s[..n] == chunks[0] && s[n..] == Flatten(chunks[1..]);
      LabelsOfParts(chunks[0], Ending(k), Ending(!k), k);
      RestLabels(s[n..], ModeAfter(chunks[0], k));
    }
  }

  /** A stream of chunks, from the first cut on. */
  lemma FirstCut(chunks: seq<string>, k: bool)
    requires chunks != []
    ensures var s, n, c := Flatten(chunks), |chunks[0]|, ModeAfter(chunks[0], k);
            && n <= |s| && s[..n] == chunks[0] && s[n..] == Flatten(chunks[1..])
            && StreamLabels(chunks, k) == Labels(s[..n], Ending(k), Ending(!k), k) + StreamLabels(chunks[1..], c)
            && SecondChunk(s, n, Ending(k), Ending(!k), k) == Labels(Flatten(chunks[1..]), Ending(c), Ending(!c), c)
            && (c == if Switched(s[..n], Ending(k), Ending(!k)) then !k else k)
  {
    var s, n := Flatten(chunks), |chunks[0]|;
    assert s[..n] == chunks[0] && s[n..] == Flatten(chunks[1..]);
    RestLabels(chunks[0], k);
  }

  /** However the stream is cut, no fewer characters are passed on than for the whole. */
  lemma {:induction false} ChunksPassMore(chunks: seq<string>, k: bool)
    ensures |StreamLabels(chunks, k)| >= |Labels(Flatten(chunks), Ending(k), Ending(!k), k)|
  {
    if chunks != [] {
      ThinkTagsTell();
      FirstCut(chunks, k);
      ChunksPassMore(chunks[1..], ModeAfter(chunks[0], k));
      CutPassesMore(Flatten(chunks), |chunks[0]|, Ending(k), Ending(!k), k);
    }
  }

  lemma {:induction false} UncleanCutsShow(chunks: seq<string>, k: bool)
    requires !CleanCuts(chunks, k)
    ensures StreamLabels(chunks, k) != Labels(Flatten(chunks), Ending(k), Ending(!k), k)
  {
    hide Labels;
    hide StreamLabels;
    hide Straddles;
    ThinkTagsTell();
    FirstCut(chunks, k);
    var s, n, c, rest := Flatten(chunks), |chunks[0]|, ModeAfter(chunks[0], k), chunks[1..];
    if Straddles(s, n, Ending(k), Ending(!k)) {
      ChunksPassMore(rest, c);
      StraddleShows(s, n, Ending(k), Ending(!k), k, StreamLabels(rest, c));
    } else {
      UncleanCutsShow(rest, c);
      CleanCutHarmless(s, n, Ending(k), Ending(!k), k);
      Cancel(Labels(s[..n], Ending(k), Ending(!k), k), StreamLabels(rest, c),
             Labels(Flatten(rest), Ending(c), Ending(!c), c));
    }
  }

  /** Where the j-th chunk begins in the whole text. */
  function CutAt(chunks: seq<string>, j: nat): (n: nat)
    requires j <= |chunks|
    ensures n <= |Flatten(chunks)|
  {
    if j == 0 then 0 else |chunks[0]| + CutAt(chunks[1..], j - 1)
  }

  /** The j-th chunk does not begin inside a tag that the whole text consumes. */
  predicate CleanAt(chunks: seq<string>, j: nat, k: bool)
    requires j <= |chunks|
  {
    !Straddles(Flatten(chunks), CutAt(chunks, j), Ending(k), Ending(!k))
  }

  lemma CutBehindFirst(chunks: seq<string>, j: nat)
    requires 0 < j <= |chunks|
    ensures CutAt(chunks, j) == |chunks[0]| + CutAt(chunks[1..], j - 1) && CutAt(chunks, 1) == |chunks[0]|
  {
    assert CutAt(chunks[1..], 0) == 0;
  }

  lemma EndingsNotEmpty()
    ensures Ending(true) != "" && Ending(false) != ""
  {
  }

  lemma LaterCut(chunks: seq<string>, j: nat, k: bool)
    requires 0 < j <= |chunks| && CleanAt(chunks, 1, k)
    ensures CleanAt(chunks, j, k) <==> CleanAt(chunks[1..], j - 1, ModeAfter(chunks[0], k))
  {
    hide CutAt;
    hide Flatten;
    hide ModeAfter;
    hide Straddles;
    hide Ending;
    EndingsNotEmpty();
    CutBehindFirst(chunks, j);
    FirstCut(chunks, k);
    StraddleBehind(Flatten(chunks), |chunks[0]|, CutAt(chunks[1..], j - 1), Ending(k), Ending(!k));
  }

  /** The same in terms of the whole text only. */
  lemma {:induction false} CleanCutsIff(chunks: seq<string>, k: bool)
    ensures CleanCuts(chunks, k) <==> forall j :: 0 <= j <= |chunks| ==> CleanAt(chunks, j, k)
  {
    assert CleanAt(chunks, 0, k);
    if chunks != [] {
      var rest, c := chunks[1..], ModeAfter(chunks[0], k);
      assert CutAt(chunks, 1) == |chunks[0]| + CutAt(rest, 0) == |chunks[0]|;
      assert CleanCuts(chunks, k) <==> CleanAt(chunks, 1, k) && CleanCuts(rest, c);
      CleanCutsIff(rest, c);
      hide CleanAt;
      hide CleanCuts;
      if CleanAt(chunks, 1, k) {
        forall j | 0 < j <= |chunks| ensures CleanAt(chunks, j, k) <==> CleanAt(rest, j - 1, c) {
          LaterCut(chunks, j, k);
        }
        forall j | 0 <= j <= |rest| ensures CleanAt(rest, j, c) <==> CleanAt(chunks, j + 1, k) {
          LaterCut(chunks, j + 1, k);
        }
      }
    }
  }

  /**
   For any number of chunks: the labelled text is that of the whole exactly if no chunk begins inside a tag that the
   whole text consumes. Several unclean cuts never make up for each other.
   */
  lemma ChunkingIff(chunks: seq<string>, k: bool)
    ensures StreamLabels(chunks, k) == Labelled(Parts(Flatten(chunks), k)) <==>
              forall j :: 0 <= j <= |chunks| ==> CleanAt(chunks, j, k)
  {
    CleanCutsIff(chunks, k);
    hide CleanAt;
    hide CleanCuts;
    hide StreamLabels;
    if CleanCuts(chunks, k) {
      ChunkingIrrelevant(chunks, k);
    } else {
      UncleanCutsShow(chunks, k);
      RestLabels(Flatten(chunks), k);
    }
  }

  lemma RestLabels(s: string, k: bool)
    ensures Labelled(Parts(s, k)) == Labels(s, Ending(k), Ending(!k), k)
  {
    LabelsOfParts(s, Ending(k), Ending(!k), k);
  }

  lemma TwoChunks(a: string, b: string, k: bool)
    ensures StreamLabels([a, b], k)
            == Labels(a, Ending(k), Ending(!k), k) + Labels(b, Ending(ModeAfter(a, k)), Ending(!ModeAfter(a, k)), ModeAfter(a, k))
  {
    RestLabels(a, k);
    RestLabels(b, ModeAfter(a, k));
    assert [a, b][1..] == [b] && [b][1..] == [];
    assert StreamLabels([b], ModeAfter(a, k)) == Labelled(Parts(b, ModeAfter(a, k))) + [];
  }

  lemma CutIsTwoChunks(a: string, b: string, k: bool)
    ensures CutLabels(a + b, |a|, Ending(k), Ending(!k), k) == StreamLabels([a, b], k)
  {
    assert (a + b)[..|a|] == a && (a + b)[|a|..] == b;
    TwoChunks(a, b, k);
  }

  /** Two chunks of a stream: exact for the tags in use. */
  lemma TwoChunksIff(a: string, b: string, k: bool)
    ensures StreamLabels([a, b], k) == Labelled(Parts(a + b, k)) <==> !Straddles(a + b, |a|, Ending(k), Ending(!k))
  {
    ThinkTagsTell();
    CutHarmlessIff(a + b, |a|, Ending(k), Ending(!k), k);
    RestLabels(a + b, k);
    CutIsTwoChunks(a, b, k);
  }
}
