/**
 Merging streamed tool-call fragments (pkg/llamacpp/client.go CollectStream, internal/worker/executor.go Execute):
 what the accumulated calls are in terms of the fragments, and that the two implementations agree.
 */
module ToolCallDeltas {
  import opened Prelude

  /** A fragment, and also an accumulated call. */
  datatype ToolCall = ToolCall(index: int, id: string, kind: string, name: string, arguments: string)

  datatype Token = Token(content: string, reasoning: string, toolCalls: seq<ToolCall>, finish: string)

  function NonEmptyOr(new_: string, old_: string): string {
    if new_ != "" then new_ else old_
  }

  function MergeInto(existing: ToolCall, d: ToolCall): ToolCall {
    ToolCall(existing.index, NonEmptyOr(d.id, existing.id), NonEmptyOr(d.kind, existing.kind),
             NonEmptyOr(d.name, existing.name), existing.arguments + d.arguments)
  }

  function Merge(m: map<int, ToolCall>, d: ToolCall): map<int, ToolCall> {
    if d.index in m then m[d.index := MergeInto(m[d.index], d)] else m[d.index := d]
  }

  function MergeAll(m: map<int, ToolCall>, ds: seq<ToolCall>): map<int, ToolCall>
    decreases |ds|
  {
    if ds == [] then m else MergeAll(Merge(m, ds[0]), ds[1..])
  }

  // ---------------------------------------------------------------- closed form

  /** The fragments of one index, in arrival order. */
  function Only(ds: seq<ToolCall>, i: int): seq<ToolCall> {
    if ds == [] then [] else (if ds[0].index == i then [ds[0]] else []) + Only(ds[1..], i)
  }

  function LastNonEmpty(ds: seq<ToolCall>, field: ToolCall -> string): string {
    if ds == [] then "" else NonEmptyOr(LastNonEmpty(ds[1..], field), field(ds[0]))
  }

  function Concat(ds: seq<ToolCall>): string {
    if ds == [] then "" else ds[0].arguments + Concat(ds[1..])
  }

  const ID := (d: ToolCall) => d.id
  const KIND := (d: ToolCall) => d.kind
  const NAME := (d: ToolCall) => d.name

  /** One call per index: arguments concatenated, every other field its last non-empty value. */
  function Closed(i: int, ds: seq<ToolCall>): ToolCall {
    ToolCall(i, LastNonEmpty(ds, ID), LastNonEmpty(ds, KIND), LastNonEmpty(ds, NAME), Concat(ds))
  }

  function MergeOnto(c: ToolCall, ds: seq<ToolCall>): ToolCall {
    ToolCall(c.index, NonEmptyOr(LastNonEmpty(ds, ID), c.id), NonEmptyOr(LastNonEmpty(ds, KIND), c.kind),
             NonEmptyOr(LastNonEmpty(ds, NAME), c.name), c.arguments + Concat(ds))
  }

  lemma OntoNothing(c: ToolCall)
    ensures MergeOnto(c, []) == c
  {
    assert c.arguments + "" == c.arguments;
  }

  lemma OntoOneMore(c: ToolCall, d: ToolCall, ds: seq<ToolCall>)
    ensures MergeOnto(c, [d] + ds) == MergeOnto(MergeInto(c, d), ds)
  {
    assert ([d] + ds)[1..] == ds;
    assert c.arguments + (d.arguments + Concat(ds)) == c.arguments + d.arguments + Concat(ds);
  }

  lemma FirstIsClosed(d: ToolCall, ds: seq<ToolCall>)
    ensures MergeOnto(d, ds) == Closed(d.index, [d] + ds)
  {
    assert ([d] + ds)[1..] == ds;
  }

  lemma OnlyHead(ds: seq<ToolCall>, i: int)
    requires ds != []
    ensures Only(ds, i) == if ds[0].index == i then [ds[0]] + Only(ds[1..], i) else Only(ds[1..], i)
  {
  }

  /** An index already present keeps merging its own fragments; a new one starts with its first. */
  lemma {:induction false} MergeAllAt(m: map<int, ToolCall>, ds: seq<ToolCall>, i: int)
    requires i in m ==> m[i].index == i
    ensures i in MergeAll(m, ds) <==> i in m || Only(ds, i) != []
    ensures i in m ==> MergeAll(m, ds)[i] == MergeOnto(m[i], Only(ds, i))
    ensures i !in m && Only(ds, i) != [] ==> MergeAll(m, ds)[i] == Closed(i, Only(ds, i))
    decreases |ds|
  {
    if ds == [] {
      if i in m {
        OntoNothing(m[i]);
      }
    } else {
      var d, rest := ds[0], ds[1..];
      MergeAllAt(Merge(m, d), rest, i);
      OnlyHead(ds, i);
      if d.index == i {
        if i in m {
          OntoOneMore(m[i], d, Only(rest, i));
        } else {
          FirstIsClosed(d, Only(rest, i));
        }
      }
    }
  }

  // ---------------------------------------------------------------- the sorted list

  /** The calls of the map in ascending order of index. */
  ghost predicate Listed(m: map<int, ToolCall>, out: seq<ToolCall>) {
    && (forall j, k :: 0 <= j < k < |out| ==> out[j].index < out[k].index)
    && (forall k :: 0 <= k < |out| ==> out[k].index in m && m[out[k].index] == out[k])
    && (forall i :: i in m ==> exists k :: 0 <= k < |out| && out[k].index == i)
  }

  lemma SmallestFirst(m: map<int, ToolCall>, a: seq<ToolCall>, b: seq<ToolCall>)
    requires Listed(m, a) && Listed(m, b) && a != []
    ensures b != [] && a[0] == b[0]
  {
    assert a[0].index in m;
    var k :| 0 <= k < |b| && b[k].index == a[0].index;
    assert b[0].index in m;
    var j :| 0 <= j < |a| && a[j].index == b[0].index;
  }

  lemma TailListed(m: map<int, ToolCall>, a: seq<ToolCall>)
    requires Listed(m, a) && a != []
    ensures Listed(m - {a[0].index}, a[1..])
  {
    forall i | i in m - {a[0].index} ensures exists k :: 0 <= k < |a[1..]| && a[1..][k].index == i {
      var k :| 0 <= k < |a| && a[k].index == i;
      assert a[1..][k - 1] == a[k];
    }
  }

  /** A map has one listing only, so the order in which its keys come out does not matter. */
  lemma {:induction false} ListedUnique(m: map<int, ToolCall>, a: seq<ToolCall>, b: seq<ToolCall>)
    requires Listed(m, a) && Listed(m, b)
    ensures a == b
    decreases |a|
  {
    if a == [] {
      if b != [] {
        SmallestFirst(m, b, a);
      }
    } else {
      SmallestFirst(m, a, b);
      TailListed(m, a);
      TailListed(m, b);
      hide Listed;
      ListedUnique(m - {a[0].index}, a[1..], b[1..]);
      assert a == [a[0]] + a[1..] && b == [b[0]] + b[1..];
    }
  }

  /**
   One call per distinct index, ascending; its arguments are that index's fragments in arrival order, its id, type
   and name the last non-empty ones.
   */
  lemma ListedIsClosed(ds: seq<ToolCall>, out: seq<ToolCall>, k: nat)
    requires Listed(MergeAll(map[], ds), out) && k < |out|
    ensures Only(ds, out[k].index) != [] && out[k] == Closed(out[k].index, Only(ds, out[k].index))
  {
    MergeAllAt(map[], ds, out[k].index);
  }

  lemma EveryIndexListed(ds: seq<ToolCall>, out: seq<ToolCall>, d: ToolCall)
    requires Listed(MergeAll(map[], ds), out) && d in ds
    ensures exists k :: 0 <= k < |out| && out[k].index == d.index
  {
    OnlyNonEmpty(ds, d);
    MergeAllAt(map[], ds, d.index);
  }

  lemma {:induction false} OnlyNonEmpty(ds: seq<ToolCall>, d: ToolCall)
    requires d in ds
    ensures Only(ds, d.index) != []
  {
    if ds[0] != d {
      assert d in ds[1..];
      OnlyNonEmpty(ds[1..], d);
    }
  }

  /** Interleavings that keep each index's own order give the same calls. */
  lemma InterleavingIrrelevant(a: seq<ToolCall>, b: seq<ToolCall>)
    requires forall i :: Only(a, i) == Only(b, i)
    ensures MergeAll(map[], a) == MergeAll(map[], b)
  {
    var x, y := MergeAll(map[], a), MergeAll(map[], b);
    forall i ensures (i in x <==> i in y) && (i in x ==> x[i] == y[i]) {
      MergeAllAt(map[], a, i);
      MergeAllAt(map[], b, i);
      assert Only(a, i) == Only(b, i);
    }
    assert x.Keys == y.Keys;
  }

  // ---------------------------------------------------------------- the two implementations

  /** All fragments up to the first error token. */
  function Fragments(tokens: seq<Token>): seq<ToolCall> {
    if tokens == [] || tokens[0].finish == "error" then [] else tokens[0].toolCalls + Fragments(tokens[1..])
  }

  ghost predicate Errs(tokens: seq<Token>) {
    exists t :: t in tokens && t.finish == "error"
  }

  lemma {:induction false} MergeAllAppend(m: map<int, ToolCall>, a: seq<ToolCall>, b: seq<ToolCall>)
    ensures MergeAll(m, a + b) == MergeAll(MergeAll(m, a), b)
    decreases |a|
  {
    if a == [] {
      assert a + b == b;
    } else {
      assert (a + b)[1..] == a[1..] + b;
      MergeAllAppend(Merge(m, a[0]), a[1..], b);
    }
  }

  function Contents(tokens: seq<Token>): string {
    if tokens == [] then "" else tokens[0].content + Contents(tokens[1..])
  }

  function Reasoning(tokens: seq<Token>): string {
    if tokens == [] then "" else tokens[0].reasoning + Reasoning(tokens[1..])
  }

  function LastFinish(tokens: seq<Token>): string {
    if tokens == [] then "" else NonEmptyOr(LastFinish(tokens[1..]), tokens[0].finish)
  }

  class CallMerger {
    var tcMap: map<int, ToolCall>

    constructor ()
      ensures tcMap == map[]
    {
      tcMap := map[];
    }

    /** The first fragment of an index is taken as it is; later ones fill in and append. */
    method MergeDelta(delta: ToolCall)
      modifies this
      ensures tcMap == Merge(old(tcMap), delta)
    {
      if delta.index !in tcMap {
        tcMap := tcMap[delta.index := delta];
        return;
      }
      var existing := tcMap[delta.index];
      if delta.id != "" {
        existing := existing.(id := delta.id);
      }
      if delta.kind != "" {
        existing := existing.(kind := delta.kind);
      }
      if delta.name != "" {
        existing := existing.(name := delta.name);
      }
      existing := existing.(arguments := existing.arguments + delta.arguments);
      tcMap := tcMap[delta.index := existing];
    }

    method MergeToken(deltas: seq<ToolCall>)
      modifies this
      ensures tcMap == MergeAll(old(tcMap), deltas)
    {
      var i := 0;
      assert deltas[0..] == deltas;
      while i < |deltas|
        invariant i <= |deltas| && MergeAll(tcMap, deltas[i..]) == MergeAll(old(tcMap), deltas)
      {
        assert deltas[i..][1..] == deltas[i + 1..];
        MergeDelta(deltas[i]);
        i := i + 1;
      }
    }

    /** The indices in ascending order, whatever order the map yields them in. */
    method SortedIndices() returns (indices: seq<int>)
      ensures Ascending(indices) && forall i :: i in indices <==> i in tcMap
    {
      var todo := tcMap.Keys;
      indices := [];
      while todo != {}
        invariant todo <= tcMap.Keys && Ascending(indices)
        invariant forall i :: i in indices <==> i in tcMap && i !in todo
        decreases todo
      {
        ghost var some := NonEmptyHas(todo);
        var i :| i in todo;
        indices := Insert(indices, i);
        todo := todo - {i};
      }
    }

    method SortedToolCalls() returns (out: seq<ToolCall>)
      requires forall i :: i in tcMap ==> tcMap[i].index == i
      ensures Listed(tcMap, out)
    {
      var indices := SortedIndices();
      out := [];
      var k := 0;
      while k < |indices|
        invariant k <= |indices| == |indices| && |out| == k
        invariant forall j :: 0 <= j < k ==> indices[j] in tcMap && out[j] == tcMap[indices[j]]
      {
        assert indices[k] in indices;
        out := out + [tcMap[indices[k]]];
        k := k + 1;
      }
      forall i | i in tcMap ensures exists j :: 0 <= j < |out| && out[j].index == i {
        var j := PositionOf(indices, i);
        assert out[j] == tcMap[indices[j]];
      }
    }
  }

  lemma PositionOf(xs: seq<int>, x: int) returns (j: nat)
    requires x in xs
    ensures j < |xs| && xs[j] == x
  {
    j :| 0 <= j < |xs| && xs[j] == x;
  }

  ghost predicate Ascending(xs: seq<int>) {
    forall j, k :: 0 <= j < k < |xs| ==> xs[j] < xs[k]
  }

  /** One step of sorting: put a new number where it belongs. */
  method Insert(xs: seq<int>, x: int) returns (r: seq<int>)
    requires Ascending(xs) && x !in xs
    ensures Ascending(r) && forall y :: y in r <==> y == x || y in xs
  {
    var k := 0;
    while k < |xs| && xs[k] < x
      invariant k <= |xs| && forall j :: 0 <= j < k ==> xs[j] < x
    {
      k := k + 1;
    }
    r := xs[..k] + [x] + xs[k..];
    assert forall y :: y in xs <==> y in xs[..k] || y in xs[k..] by {
      assert xs == xs[..k] + xs[k..];
    }
    assert k < |xs| ==> x < xs[k];
  }

  lemma {:induction false} MergeKeepsIndex(m: map<int, ToolCall>, ds: seq<ToolCall>)
    requires forall i :: i in m ==> m[i].index == i
    ensures forall i :: i in MergeAll(m, ds) ==> MergeAll(m, ds)[i].index == i
    decreases |ds|
  {
    if ds != [] {
      MergeKeepsIndex(Merge(m, ds[0]), ds[1..]);
    }
  }

  datatype CompletionResult = CompletionResult(
    fullResponse: string, reasoningContent: string, finishReason: string, toolCalls: seq<ToolCall>)

  lemma NextToken(tokens: seq<Token>, i: nat)
    requires i < |tokens|
    ensures Contents(tokens[i..]) == tokens[i].content + Contents(tokens[i + 1..])
    ensures Reasoning(tokens[i..]) == tokens[i].reasoning + Reasoning(tokens[i + 1..])
    ensures LastFinish(tokens[i..]) == NonEmptyOr(LastFinish(tokens[i + 1..]), tokens[i].finish)
    ensures Fragments(tokens[i..]) == if tokens[i].finish == "error" then [] else tokens[i].toolCalls + Fragments(tokens[i + 1..])
  {
    assert tokens[i..][1..] == tokens[i + 1..];
  }

  lemma Regroup(a: string, b: string, c: string)
    ensures a + (b + c) == a + b + c
  {
  }

  /** Collect a whole stream; an error token ends it, and then only its message is reported. */
  method CollectStream(tokens: seq<Token>) returns (result: CompletionResult)
    ensures !Errs(tokens) ==>
              && result.fullResponse == Contents(tokens) && result.reasoningContent == Reasoning(tokens)
              && result.finishReason == LastFinish(tokens)
              && Listed(MergeAll(map[], Fragments(tokens)), result.toolCalls)
    ensures Errs(tokens) ==>
              exists k :: 0 <= k < |tokens| && !Errs(tokens[..k]) && tokens[k].finish == "error"
                          && result == CompletionResult(tokens[k].content, Reasoning(tokens[..k]), "error", [])
  {
    hide MergeAll;
    var full, reasoning, finish := "", "", "";
    var merger := new CallMerger();
    var i := 0;
    assert tokens[0..] == tokens;
    while i < |tokens|
      invariant i <= |tokens| && forall k :: 0 <= k < i ==> tokens[k].finish != "error"
      invariant full + Contents(tokens[i..]) == Contents(tokens)
      invariant reasoning + Reasoning(tokens[i..]) == Reasoning(tokens) && reasoning == Reasoning(tokens[..i])
      invariant NonEmptyOr(LastFinish(tokens[i..]), finish) == LastFinish(tokens)
      invariant fresh(merger)
      invariant MergeAll(merger.tcMap, Fragments(tokens[i..])) == MergeAll(map[], Fragments(tokens))
    {
      var token := tokens[i];
      if token.finish == "error" {
        assert token in tokens;
        return CompletionResult(token.content, reasoning, "error", []);
      }
      NextToken(tokens, i);
      ReasoningSoFar(tokens, i);
      Regroup(full, token.content, Contents(tokens[i + 1..]));
      Regroup(reasoning, token.reasoning, Reasoning(tokens[i + 1..]));
      MergeAllAppend(merger.tcMap, token.toolCalls, Fragments(tokens[i + 1..]));
      full := full + token.content;
      reasoning := reasoning + token.reasoning;
      merger.MergeToken(token.toolCalls);
      if token.finish != "" {
        finish := token.finish;
      }
      i := i + 1;
    }
    assert tokens[i..] == [];
    MergeNothing(merger.tcMap);
    MergeKeepsIndex(map[], Fragments(tokens));
    var calls := merger.SortedToolCalls();
    result := CompletionResult(full, reasoning, finish, calls);
  }

  lemma MergeNothing(m: map<int, ToolCall>)
    ensures MergeAll(m, Fragments([])) == m
  {
  }

  lemma {:induction false} ReasoningAppend(a: seq<Token>, t: Token)
    ensures Reasoning(a + [t]) == Reasoning(a) + t.reasoning
  {
    if a == [] {
      assert Reasoning([t]) == t.reasoning + Reasoning([t][1..]);
    } else {
      assert (a + [t])[1..] == a[1..] + [t];
      ReasoningAppend(a[1..], t);
    }
  }

  lemma ReasoningSoFar(tokens: seq<Token>, i: nat)
    requires i < |tokens|
    ensures Reasoning(tokens[..i + 1]) == Reasoning(tokens[..i]) + tokens[i].reasoning
  {
    assert tokens[..i + 1] == tokens[..i] + [tokens[i]];
    ReasoningAppend(tokens[..i], tokens[i]);
  }

  /** The protocol's form of a call: without the streaming index. */
  datatype ProtoCall = ProtoCall(id: string, kind: string, name: string, arguments: string)

  function Protos(calls: seq<ToolCall>): (r: seq<ProtoCall>)
    ensures |r| == |calls|
  {
    seq(|calls|, k requires 0 <= k < |calls| => ProtoCall(calls[k].id, calls[k].kind, calls[k].name, calls[k].arguments))
  }

  /** The executor's own merge: None if the stream ended in an error, which it reports instead of completing. */
  method ExecuteCalls(tokens: seq<Token>) returns (calls: Option<seq<ProtoCall>>)
    ensures calls.None? <==> Errs(tokens)
    ensures calls.Some? ==> exists out :: Listed(MergeAll(map[], Fragments(tokens)), out) && calls.value == Protos(out)
  {
    hide MergeAll;
    var acc := new CallMerger();
    var i := 0;
    assert tokens[0..] == tokens;
    while i < |tokens|
      invariant i <= |tokens| && fresh(acc) && forall k :: 0 <= k < i ==> tokens[k].finish != "error"
      invariant MergeAll(acc.tcMap, Fragments(tokens[i..])) == MergeAll(map[], Fragments(tokens))
    {
      if tokens[i].finish == "error" {
        assert tokens[i] in tokens;
        return None;
      }
      NextToken(tokens, i);
      MergeAllAppend(acc.tcMap, tokens[i].toolCalls, Fragments(tokens[i + 1..]));
      acc.MergeToken(tokens[i].toolCalls);
      i := i + 1;
    }
    assert tokens[i..] == [];
    MergeNothing(acc.tcMap);
    MergeKeepsIndex(map[], Fragments(tokens));
    var sorted := acc.SortedToolCalls();
    var protos := [];
    var k := 0;
    while k < |sorted|
      invariant k <= |sorted| && protos == Protos(sorted)[..k]
    {
      protos := protos + [ProtoCall(sorted[k].id, sorted[k].kind, sorted[k].name, sorted[k].arguments)];
      k := k + 1;
    }
    assert protos == Protos(sorted);
    calls := Some(protos);
  }

  /** Whatever the two implementations report for a stream without error, they report the same calls. */
  lemma ImplementationsAgree(tokens: seq<Token>, collected: seq<ToolCall>, executed: seq<ProtoCall>)
    requires Listed(MergeAll(map[], Fragments(tokens)), collected)
    requires exists out :: Listed(MergeAll(map[], Fragments(tokens)), out) && executed == Protos(out)
    ensures executed == Protos(collected)
  {
    var out :| Listed(MergeAll(map[], Fragments(tokens)), out) && executed == Protos(out);
    ListedUnique(MergeAll(map[], Fragments(tokens)), collected, out);
  }
}
