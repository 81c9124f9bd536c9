/** Which tools worker serves a round of tool calls (internal/router/toolshandler.go). */
module ToolRouting {
  import opened Prelude

  type ToolsWorkerId = nat  // fixed-length hex ids; their string order is the numeric one
  type Advertised = map<ToolsWorkerId, seq<string>>

  predicate CoversAll(tools: seq<string>, names: set<string>) {
    forall n :: n in names ==> n in tools
  }

  predicate CoversAny(tools: seq<string>, names: set<string>) {
    exists n :: n in names && n in tools
  }

  function AllCover(ws: Advertised, names: set<string>): set<ToolsWorkerId> {
    set w | w in ws && CoversAll(ws[w], names)
  }

  function AnyCover(ws: Advertised, names: set<string>): set<ToolsWorkerId> {
    set w | w in ws && CoversAny(ws[w], names)
  }

  function Covering(ws: Advertised, names: set<string>, all: bool): set<ToolsWorkerId> {
    if all then AllCover(ws, names) else AnyCover(ws, names)
  }

  /** Workers that serve every name of the round, or else those that serve some of them. */
  function Eligible(ws: Advertised, names: set<string>): set<ToolsWorkerId> {
    if AllCover(ws, names) != {} then AllCover(ws, names) else AnyCover(ws, names)
  }

  ghost predicate Ascending(s: seq<ToolsWorkerId>) {
    forall i, j :: 0 <= i < j < |s| ==> s[i] < s[j]
  }

  /** The ids of a set in ascending order. */
  ghost function Ranked(ids: set<ToolsWorkerId>): (r: seq<ToolsWorkerId>)
    ensures Ascending(r) && |r| == |ids|
    ensures forall x :: x in r <==> x in ids
  {
    if ids == {} then []
    else
      var m := MinOf(ids);
      [m] + Ranked(ids - {m})
  }

  lemma RankedUnique(s: seq<ToolsWorkerId>, ids: set<ToolsWorkerId>)
    requires Ascending(s) && forall x :: x in s <==> x in ids
    ensures s == Ranked(ids)
  {
    if ids == {} {
      HeadIn(s);
    } else {
      var m := MinOf(ids);
      assert m in s;
      assert s[0] in s && s[0] == m;
      var rest := s[1..];
      assert s == [m] + rest;
      forall x ensures x in rest <==> x in ids - {m} {
        if x in rest { assert x in s; }
        if x in ids - {m} { assert x in s; }
      }
      RankedUnique(rest, ids - {m});
    }
  }

  /** Index 0 without a thread; otherwise the thread's hash modulo the number of eligible workers. */
  ghost function PickFrom(ids: set<ToolsWorkerId>, threadId: string, hash: string -> nat): Option<ToolsWorkerId> {
    if ids == {} then None
    else Some(Ranked(ids)[if threadId == "" then 0 else hash(threadId) % |Ranked(ids)|])
  }

  ghost function Pick(ws: Advertised, names: set<string>, threadId: string, hash: string -> nat)
    : Option<ToolsWorkerId>
  {
    PickFrom(Eligible(ws, names), threadId, hash)
  }

  /**
   The chosen worker advertises every requested tool whenever some worker does, at least one of them otherwise,
   and nobody is chosen exactly when no connected worker advertises any.
   */
  lemma PickCovers(ws: Advertised, names: set<string>, threadId: string, hash: string -> nat)
    ensures var p := Pick(ws, names, threadId, hash);
            && (p.Some? ==> p.value in ws)
            && ((exists w :: w in ws && CoversAll(ws[w], names)) ==> p.Some? && CoversAll(ws[p.value], names))
            && (p.Some? && names != {} ==> CoversAny(ws[p.value], names))
            && (p.None? <==> forall w :: w in ws ==> names != {} && !CoversAny(ws[w], names))
  {
    var ids := Eligible(ws, names);
    var p := Pick(ws, names, threadId, hash);
    if ids != {} {
      assert p.value in Ranked(ids);
      assert p.value in ids;
    }
    if w :| w in ws && CoversAll(ws[w], names) {
      assert w in AllCover(ws, names);
    }
    if p.None? {
      forall w | w in ws ensures names != {} && !CoversAny(ws[w], names) {
        assert w !in AllCover(ws, names) && w !in AnyCover(ws, names);
      }
    } else {
      assert names == {} || CoversAny(ws[p.value], names) by {
        if names != {} && p.value in AllCover(ws, names) {
          var n :| n in names;
          assert n in ws[p.value];
        }
      }
    }
  }

  // ---------------------------------------------------------------- the imperative form

  /** Insertion keeps the eligible list sorted, as the sort before the pick does. */
  function Insert(s: seq<ToolsWorkerId>, x: ToolsWorkerId): (r: seq<ToolsWorkerId>)
    ensures Ascending(s) && x !in s ==> Ascending(r)
    ensures forall y :: y in r <==> y == x || y in s
  {
    if s == [] then [x]
    else if x < s[0] then [x] + s
    else
      var rest := Insert(s[1..], x);
      assert s == [s[0]] + s[1..];
      assert Ascending(s) && x !in s ==> forall i :: 0 <= i < |rest| ==> rest[i] in rest && s[0] < rest[i];
      [s[0]] + rest
  }

  method Collect(ws: Advertised, names: set<string>, all: bool) returns (ids: seq<ToolsWorkerId>)
    ensures Ascending(ids)
    ensures forall x :: x in ids <==> x in Covering(ws, names, all)
  {
    ids := [];
    var todo := ws.Keys;
    while todo != {}
      invariant todo <= ws.Keys && Ascending(ids)
      invariant forall x :: x in ids <==>
                  x in ws.Keys - todo && x in Covering(ws, names, all)
      decreases todo
    {
      var w :| w in todo;
      if if all then CoversAll(ws[w], names) else CoversAny(ws[w], names) {
        ids := Insert(ids, w);
      }
      todo := todo - {w};
    }
  }

  /** The map of workers is walked in any order; the choice depends only on its contents. */
  method PickToolsWorkerAll(ws: Advertised, names: set<string>, threadId: string, hash: string -> nat)
    returns (worker: Option<ToolsWorkerId>)
    ensures worker == Pick(ws, names, threadId, hash)
  {
    var ids := Collect(ws, names, true);
    if ids == [] {
      ids := Collect(ws, names, false);
      assert Covering(ws, names, true) == {};
    } else {
      assert ids[0] in ids;
    }
    RankedUnique(ids, Eligible(ws, names));
    if ids == [] {
      worker := None;
    } else {
      assert ids[0] in Eligible(ws, names);
      worker := Some(ids[if threadId == "" then 0 else hash(threadId) % |ids|]);
    }
  }
}
