/** Last-resort truncation of a job's messages (internal/worker/executor.go, lastResortContextTruncation). */
module ContextTruncation {

  datatype ToolFunction = ToolFunction(name: string, arguments: string)

  datatype Message = Message(role: string, content: string, toolCalls: seq<ToolFunction>)

  function CallBytes(calls: seq<ToolFunction>): nat {
    if calls == [] then 0
    else CallBytes(calls[..|calls| - 1]) + |calls[|calls| - 1].name| + |calls[|calls| - 1].arguments|
  }

  function Bytes(m: Message): nat {
    |m.content| + CallBytes(m.toolCalls)
  }

  function Total(ms: seq<Message>): nat {
    if ms == [] then 0 else Bytes(ms[0]) + Total(ms[1..])
  }

  /** Length of the run of system messages at the front. */
  function SystemPrefix(ms: seq<Message>): (n: nat)
    ensures n <= |ms| && (n < |ms| ==> ms[n].role != "system") && forall i :: 0 <= i < n ==> ms[i].role == "system"
  {
    if ms == [] || ms[0].role != "system" then 0 else 1 + SystemPrefix(ms[1..])
  }

  /** Drop from the front of the rest until everything fits or one message of the rest is left. */
  function DropOldest(sys: seq<Message>, rest: seq<Message>, maxBytes: int): seq<Message>
    decreases |rest|
  {
    if Total(sys) + Total(rest) > maxBytes && |rest| > 1 then DropOldest(sys, rest[1..], maxBytes) else sys + rest
  }

  function Truncate(ms: seq<Message>, contextSize: int, maxBytes: int): seq<Message> {
    if contextSize <= 0 then ms else DropOldest(ms[..SystemPrefix(ms)], ms[SystemPrefix(ms)..], maxBytes)
  }

  // ---------------------------------------------------------------- the loops

  lemma {:induction false} TotalAppend(a: seq<Message>, b: seq<Message>)
    ensures Total(a + b) == Total(a) + Total(b)
  {
    if a == [] {
      assert a + b == b;
    } else {
      assert (a + b)[1..] == a[1..] + b;
      TotalAppend(a[1..], b);
    }
  }

  lemma TotalSnoc(ms: seq<Message>, i: nat)
    requires i < |ms|
    ensures Total(ms[..i + 1]) == Total(ms[..i]) + Bytes(ms[i])
  {
    assert ms[..i + 1] == ms[..i] + [ms[i]];
    TotalAppend(ms[..i], [ms[i]]);
    assert [ms[i]][1..] == [];
  }

  method MsgContentBytes(m: Message) returns (n: nat)
    ensures n == Bytes(m)
  {
    n := |m.content|;
    var i := 0;
    while i < |m.toolCalls|
      invariant i <= |m.toolCalls| && n == |m.content| + CallBytes(m.toolCalls[..i])
    {
      n := n + |m.toolCalls[i].name| + |m.toolCalls[i].arguments|;
      assert m.toolCalls[..i + 1][..i] == m.toolCalls[..i];
      i := i + 1;
    }
    assert m.toolCalls[..i] == m.toolCalls;
  }

  method SumBytes(a: array<Message>, n: nat) returns (total: nat)
    requires n <= a.Length
    ensures total == Total(a[..n])
  {
    total := 0;
    var i := 0;
    while i < n
      invariant i <= n && total == Total(a[..i])
    {
      var size := MsgContentBytes(a[i]);
      TotalSnoc(a[..n], i);
      assert a[..n][..i] == a[..i] && a[..n][..i + 1] == a[..i + 1];
      total := total + size;
      i := i + 1;
    }
  }

  /** Remove one message by moving the ones behind it forward. */
  method RemoveInPlace(a: array<Message>, n: nat, at: nat)
    requires at < n <= a.Length
    modifies a
    ensures a[..n - 1] == old(a[..at]) + old(a[at + 1..n])
  {
    var i := at;
    while i < n - 1
      invariant at <= i <= n - 1
      invariant forall k :: 0 <= k < at ==> a[k] == old(a[k])
      invariant forall k :: at <= k < i ==> a[k] == old(a[k + 1])
      invariant forall k :: i <= k < n ==> a[k] == old(a[k])
    {
      a[i] := a[i + 1];
      i := i + 1;
    }
  }

  lemma HeadDropped(sys: seq<Message>, rest: seq<Message>)
    requires rest != []
    ensures (sys + rest)[|sys|] == rest[0] && (sys + rest)[..|sys|] == sys && (sys + rest)[|sys| + 1..] == rest[1..]
    ensures Total(rest) == Bytes(rest[0]) + Total(rest[1..])
  {
  }

  /** Drop the message behind the system prefix; reports its size. */
  method DropOne(a: array<Message>, n: nat, ghost sys: seq<Message>, ghost rest: seq<Message>, first: nat)
    returns (size: nat)
    requires n <= a.Length && |sys| == first && rest != [] && a[..n] == sys + rest
    modifies a
    ensures a[..n - 1] == sys + rest[1..] && size == Bytes(rest[0])
  {
    HeadDropped(sys, rest);
    assert a[..n][first] == a[first];
    size := MsgContentBytes(a[first]);
    assert a[..n][..first] == a[..first] && a[..n][first + 1..] == a[first + 1..n];
    RemoveInPlace(a, n, first);
  }

  method CountSystem(a: array<Message>, n: nat) returns (first: nat)
    requires n <= a.Length
    ensures first == SystemPrefix(a[..n])
  {
    first := 0;
    while first < n && a[first].role == "system"
      invariant first <= n && forall i :: 0 <= i < first ==> a[i].role == "system"
    {
      first := first + 1;
    }
    PrefixIs(a[..n], first);
  }

  lemma DropStep(sys: seq<Message>, rest: seq<Message>, maxBytes: int)
    ensures DropOldest(sys, rest, maxBytes) ==
              if Total(sys) + Total(rest) > maxBytes && |rest| > 1 then DropOldest(sys, rest[1..], maxBytes)
              else sys + rest
  {
  }

  /** The first n messages of the array are kept; the array is edited in place. */
  method LastResortContextTruncation(a: array<Message>, count: nat, contextSize: int, maxBytes: int) returns (n: nat)
    requires count <= a.Length
    modifies a
    ensures n <= count && a[..n] == Truncate(old(a[..count]), contextSize, maxBytes)
  {
    n := count;
    if contextSize <= 0 {
      return;
    }
    var total := SumBytes(a, n);
    ghost var all := a[..count];
    ghost var sys, rest := all[..SystemPrefix(all)], all[SystemPrefix(all)..];
    assert all == sys + rest;
    TotalAppend(sys, rest);
    DropStep(sys, rest, maxBytes);
    if total <= maxBytes {
      return;
    }
    var first := CountSystem(a, n);
    assert DropOldest(sys, rest, maxBytes) == Truncate(all, contextSize, maxBytes);
    hide *;
    while total > maxBytes && first < n - 1
      invariant |sys| == first <= n <= count && a[..n] == sys + rest && total == Total(sys) + Total(rest)
      invariant DropOldest(sys, rest, maxBytes) == Truncate(all, contextSize, maxBytes)
      decreases n
    {
      DropStep(sys, rest, maxBytes);
      HeadDropped(sys, rest);
      var size := DropOne(a, n, sys, rest, first);
      total := total - size;
      rest := rest[1..];
      n := n - 1;
    }
    DropStep(sys, rest, maxBytes);
  }

  lemma {:induction false} PrefixIs(ms: seq<Message>, k: nat)
    requires k <= |ms| && (forall i :: 0 <= i < k ==> ms[i].role == "system") && (k < |ms| ==> ms[k].role != "system")
    ensures SystemPrefix(ms) == k
  {
    if k > 0 {
      PrefixIs(ms[1..], k - 1);
    }
  }

  // ---------------------------------------------------------------- what is kept

  /** r is the leading system messages followed by all but the oldest `dropped` of the others. */
  ghost predicate KeepsAllBut(ms: seq<Message>, dropped: nat, r: seq<Message>) {
    && SystemPrefix(ms) + dropped <= |ms|
    && r == ms[..SystemPrefix(ms)] + ms[SystemPrefix(ms) + dropped..]
  }

  function Rest(ms: seq<Message>): nat {
    |ms| - SystemPrefix(ms)
  }

  /** How many messages go: the fewest that make everything fit, or all others but the last. */
  lemma {:induction false} DropOldestCount(sys: seq<Message>, rest: seq<Message>, maxBytes: int) returns (d: nat)
    ensures d <= |rest| && (rest != [] ==> d < |rest|) && DropOldest(sys, rest, maxBytes) == sys + rest[d..]
    ensures Total(sys + rest[d..]) <= maxBytes || d + 1 >= |rest|
    ensures forall e :: 0 <= e < d ==> Total(sys + rest[e..]) > maxBytes
    decreases |rest|
  {
    assert rest[0..] == rest;
    TotalAppend(sys, rest);
    if Total(sys) + Total(rest) > maxBytes && |rest| > 1 {
      var n := DropOldestCount(sys, rest[1..], maxBytes);
      d := n + 1;
      assert rest[1..][n..] == rest[d..];
      forall e | 0 <= e < d ensures Total(sys + rest[e..]) > maxBytes {
        if e > 0 {
          assert rest[1..][e - 1..] == rest[e..];
        }
      }
    } else {
      d := 0;
    }
  }

  /**
   For a positive context size, the result is the leading system messages and the longest suffix of the rest that
   fits the budget, or the last message alone if no suffix fits; nothing is dropped if everything fits.
   */
  lemma KeepsLongestSuffix(ms: seq<Message>, contextSize: int, maxBytes: int) returns (dropped: nat)
    requires contextSize > 0
    ensures KeepsAllBut(ms, dropped, Truncate(ms, contextSize, maxBytes)) && (Rest(ms) > 0 ==> dropped < Rest(ms))
    ensures Total(Truncate(ms, contextSize, maxBytes)) <= maxBytes || dropped + 1 >= Rest(ms)
    ensures forall e, r :: 0 <= e < dropped && KeepsAllBut(ms, e, r) ==> Total(r) > maxBytes
  {
    var k := SystemPrefix(ms);
    dropped := DropOldestCount(ms[..k], ms[k..], maxBytes);
    assert ms[k..][dropped..] == ms[k + dropped..];
    forall e, r | 0 <= e < dropped && KeepsAllBut(ms, e, r) ensures Total(r) > maxBytes {
      assert ms[k..][e..] == ms[k + e..];
    }
  }

  lemma LastFits(sys: seq<Message>, rest: seq<Message>, d: nat)
    requires d < |rest|
    ensures Total(sys + [rest[|rest| - 1]]) <= Total(sys + rest[d..])
    ensures d + 1 == |rest| ==> rest[d..] == [rest[|rest| - 1]]
  {
    var kept, last := rest[d..], [rest[|rest| - 1]];
    assert kept == kept[..|kept| - 1] + last;
    TotalAppend(kept[..|kept| - 1], last);
    TotalAppend(sys, kept);
    TotalAppend(sys, last);
  }

  /** The budget is kept exactly if the system messages and the last other message fit by themselves. */
  lemma FitsIff(ms: seq<Message>, contextSize: int, maxBytes: int)
    requires contextSize > 0 && Rest(ms) > 0
    ensures Total(Truncate(ms, contextSize, maxBytes)) <= maxBytes
            <==> Total(ms[..SystemPrefix(ms)] + [ms[|ms| - 1]]) <= maxBytes
  {
    hide Total;
    hide DropOldest;
    var sys, rest := ms[..SystemPrefix(ms)], ms[SystemPrefix(ms)..];
    var d := DropOldestCount(sys, rest, maxBytes);
    LastFits(sys, rest, d);
    assert rest[|rest| - 1] == ms[|ms| - 1];
  }
}
