/** Redacting credential values from tool output (internal/agentworker/worker.go, redactEnvValues). */
module Redaction {
  import opened Prelude
  import opened Strings

  const MARKER: string := "********"
  const MIN_LENGTH := 3

  /** strings.ReplaceAll: leftmost occurrences that do not overlap. */
  function ReplaceAll(s: string, v: string, mark: string): string
    requires v != ""
    decreases |s|
  {
    match IndexOf(s, v)
    case None => s
    case Some(i) => s[..i] + (mark + ReplaceAll(s[i + |v|..], v, mark))
  }

  function ReplaceEach(s: string, vals: seq<string>): string
    requires "" !in vals
    decreases |vals|
  {
    if vals == [] then s else ReplaceEach(ReplaceAll(s, vals[0], MARKER), vals[1..])
  }

  /** The values that are replaced, longest first: each once, in some order among equals. */
  ghost predicate Order(env: map<string, string>, vals: seq<string>) {
    && Distinct(vals) && (forall v :: v in vals <==> v in env.Values && |v| >= MIN_LENGTH)
    && LongestFirst(vals)
  }

  // ---------------------------------------------------------------- the loops

  ghost predicate LongestFirst(vals: seq<string>) {
    forall i, j :: 0 <= i < j < |vals| ==> |vals[i]| >= |vals[j]|
  }

  method Insert(vals: seq<string>, v: string) returns (r: seq<string>)
    requires LongestFirst(vals) && Distinct(vals) && v !in vals
    ensures LongestFirst(r) && Distinct(r) && forall x :: x in r <==> x == v || x in vals
  {
    var k := 0;
    while k < |vals| && |vals[k]| > |v|
      invariant k <= |vals| && forall j :: 0 <= j < k ==> |vals[j]| > |v|
    {
      k := k + 1;
    }
    r := vals[..k] + [v] + vals[k..];
    InsertedDistinct(vals, k, v);
    InsertedOrder(vals, k, v);
  }

  lemma InsertedDistinct(vals: seq<string>, k: nat, v: string)
    requires k <= |vals| && Distinct(vals) && v !in vals
    ensures var r := vals[..k] + [v] + vals[k..]; Distinct(r) && forall x :: x in r <==> x == v || x in vals
  {
    assert vals == vals[..k] + vals[k..];
  }

  lemma InsertedOrder(vals: seq<string>, k: nat, v: string)
    requires k <= |vals| && LongestFirst(vals) && forall j :: 0 <= j < k ==> |vals[j]| > |v|
    requires k < |vals| ==> |vals[k]| <= |v|
    ensures LongestFirst(vals[..k] + [v] + vals[k..])
  {
  }

  /** The distinct values of at least three characters, whatever order the map yields them in. */
  method CollectValues(env: map<string, string>) returns (vals: seq<string>)
    ensures Order(env, vals)
  {
    vals := [];
    var todo := env.Values;
    while todo != {}
      invariant todo <= env.Values && LongestFirst(vals) && Distinct(vals)
      invariant forall v :: v in vals <==> v in env.Values && v !in todo && |v| >= MIN_LENGTH
      decreases todo
    {
      var v :| v in todo;
      if |v| >= MIN_LENGTH {
        vals := Insert(vals, v);
      }
      todo := todo - {v};
    }
  }

  method RedactEnvValues(output: string, env: map<string, string>) returns (r: string)
    ensures exists vals :: Order(env, vals) && "" !in vals && r == ReplaceEach(output, vals)
  {
    r := output;
    var vals := CollectValues(env);
    if |env| == 0 || output == "" {
      NothingToReplace(output, env, vals);
      return;
    }
    var i := 0;
    assert vals[0..] == vals;
    while i < |vals|
      invariant i <= |vals| && ReplaceEach(r, vals[i..]) == ReplaceEach(output, vals)
    {
      assert vals[i..][1..] == vals[i + 1..];
      assert vals[i] in vals;
      r := ReplaceAll(r, vals[i], MARKER);
      i := i + 1;
    }
  }

  /** The early return changes nothing: without values, or in empty output, there is nothing to replace. */
  lemma NothingToReplace(output: string, env: map<string, string>, vals: seq<string>)
    requires Order(env, vals) && (|env| == 0 || output == "")
    ensures "" !in vals && ReplaceEach(output, vals) == output
  {
    if |env| == 0 {
      assert env == map[];
      HeadIn(vals);
    } else {
      EmptyStays(vals);
    }
  }

  lemma {:induction false} EmptyStays(vals: seq<string>)
    requires "" !in vals
    ensures ReplaceEach("", vals) == ""
    decreases |vals|
  {
    if vals != [] {
      assert vals[0] in vals;
      IndexStep("", vals[0]);
      EmptyStays(vals[1..]);
    }
  }

  // ---------------------------------------------------------------- no value is left

  /** The marker can take no part in an occurrence of v: v has no star at either end and no whole marker inside. */
  predicate MarkerProof(v: string) {
    v != "" && v[0] != '*' && v[|v| - 1] != '*' && !Contains(v, MARKER)
  }

  /** An occurrence that meets the marker would start in it, end in it, or contain it. */
  lemma NotIntoMarker(a: string, b: string, w: string, k: nat)
    requires MarkerProof(w) && k < |a| + |MARKER| && |a| < k + |w|
    ensures !At(a + (MARKER + b), w, k)
  {
    var s := a + (MARKER + b);
    if At(s, w, k) {
      assert forall i :: 0 <= i < |w| ==> w[i] == s[k..][i] == s[k + i];
      assert forall i :: 0 <= i < |MARKER| ==> MARKER[i] == '*' && s[|a| + i] == '*';
      if k < |a| && |a| + |MARKER| < k + |w| {
        assert forall i :: 0 <= i < |MARKER| ==> w[|a| - k..][i] == MARKER[i];
        assert At(w, MARKER, |a| - k);
        IndexIff(w, MARKER);
      }
    }
  }

  lemma AtSides(a: string, m: string, b: string, w: string, k: nat)
    ensures k + |w| <= |a| && At(a + (m + b), w, k) ==> At(a, w, k)
    ensures |a| + |m| <= k && At(a + (m + b), w, k) ==> At(b, w, k - |a| - |m|)
  {
    var s := a + (m + b);
    if k + |w| <= |a| {
      assert s[k..][..|w|] == a[k..][..|w|];
    } else if |a| + |m| <= k <= |s| {
      assert s[k..] == b[k - |a| - |m|..];
    }
  }

  lemma GlueWithMarker(a: string, b: string, w: string)
    requires MarkerProof(w) && !Contains(a, w) && !Contains(b, w)
    ensures !Contains(a + (MARKER + b), w)
  {
    IndexIff(a, w);
    IndexIff(b, w);
    IndexIff(a + (MARKER + b), w);
    forall k: nat ensures !At(a + (MARKER + b), w, k) {
      AtSides(a, MARKER, b, w, k);
      if k < |a| + |MARKER| && |a| < k + |w| {
        NotIntoMarker(a, b, w, k);
      }
    }
  }

  lemma AtPart(s: string, from: nat, to: nat, w: string, k: nat)
    requires from <= to <= |s| && At(s[from..to], w, k)
    ensures At(s, w, from + k)
  {
    assert s[from..to][k..][..|w|] == s[from + k..][..|w|];
  }

  /** What a text does not contain, no part of it contains. */
  lemma PartLacks(s: string, from: nat, to: nat, w: string)
    requires from <= to <= |s| && !Contains(s, w)
    ensures !Contains(s[from..to], w)
  {
    IndexIff(s, w);
    var part := s[from..to];
    IndexIff(part, w);
    if Contains(part, w) {
      AtPart(s, from, to, w, IndexOf(part, w).value);
    }
  }

  /** The text in front of the first occurrence of v does not contain v. */
  lemma FrontLacks(s: string, v: string)
    requires v != "" && IndexOf(s, v).Some?
    ensures !Contains(s[..IndexOf(s, v).value], v)
  {
    IndexIff(s, v);
    var front := s[..IndexOf(s, v).value];
    IndexIff(front, v);
    if Contains(front, v) {
      AtPart(s, 0, |front|, v, IndexOf(front, v).value);
    }
  }

  /** Replacing v removes v, and brings back no other value that was absent, if the marker takes no part in them. */
  lemma {:induction false} ReplaceLeavesNone(s: string, v: string, w: string)
    requires v != "" && MarkerProof(w) && (w == v || !Contains(s, w))
    ensures !Contains(ReplaceAll(s, v, MARKER), w)
    decreases |s|
  {
    if IndexOf(s, v).Some? {
      var i := IndexOf(s, v).value;
      if w == v {
        FrontLacks(s, v);
      } else {
        PartLacks(s, 0, i, w);
        PartLacks(s, i + |v|, |s|, w);
        assert s[0..i] == s[..i] && s[i + |v|..|s|] == s[i + |v|..];
      }
      hide IndexOf;
      ReplaceLeavesNone(s[i + |v|..], v, w);
      GlueWithMarker(s[..i], ReplaceAll(s[i + |v|..], v, MARKER), w);
    }
  }

  lemma {:induction false} StaysAway(s: string, vals: seq<string>, w: string)
    requires "" !in vals && MarkerProof(w) && (w in vals || !Contains(s, w))
    ensures !Contains(ReplaceEach(s, vals), w)
    decreases |vals|
  {
    if vals != [] {
      assert vals[0] in vals;
      if w == vals[0] || !Contains(s, w) {
        ReplaceLeavesNone(s, vals[0], w);
      }
      StaysAway(ReplaceAll(s, vals[0], MARKER), vals[1..], w);
    }
  }

  /**
   Whatever the environment and the order of replacement, a value of at least three characters with no star at its
   ends and no marker inside does not occur in the redacted output, whatever other values overlap or contain it.
   */
  lemma NoValueLeft(output: string, env: map<string, string>, vals: seq<string>, v: string)
    requires Order(env, vals) && "" !in vals
    requires v in env.Values && |v| >= MIN_LENGTH && MarkerProof(v)
    ensures !Contains(ReplaceEach(output, vals), v)
  {
    StaysAway(output, vals, v);
  }

  // ---------------------------------------------------------------- which values can be left

  lemma ReplaceFirst(s: string, v: string, i: nat)
    requires v != "" && First(s, v, i)
    ensures i + |v| <= |s| && ReplaceAll(s, v, MARKER) == s[..i] + (MARKER + ReplaceAll(s[i + |v|..], v, MARKER))
  {
    IndexIs(s, v, i);
  }

  /** One occurrence of v between texts: it is replaced, and nothing else is. */
  lemma ReplaceBetween(x: string, v: string, y: string)
    requires v != "" && |y| < |v| && First(x + (v + y), v, |x|)
    ensures ReplaceAll(x + (v + y), v, MARKER) == x + (MARKER + y)
  {
    var s := x + (v + y);
    ReplaceFirst(s, v, |x|);
    assert s[..|x|] == x && s[|x| + |v|..] == y;
    TooShort(y, v);
  }

  lemma Occurs(s: string, a: string, v: string, b: string)
    requires s == a + (v + b)
    ensures Contains(s, v)
  {
    assert s[|a|..] == v + b;
    assert At(s, v, |a|);
    IndexIff(s, v);
  }

  lemma LastStarShared(v: string, x: string)
    requires v != "" && v[0] == '*' && x == v[1..]
    ensures MARKER + x == "*******" + (v + "")
  {
    assert v == "*" + x && MARKER == "*******" + "*";
  }

  /** A leading star is made good by the marker: of v and v without its star, the first is replaced and v is back. */
  lemma LeadingStarLeaves(v: string) returns (output: string)
    requires v != "" && v[0] == '*'
    ensures Contains(ReplaceAll(output, v, MARKER), v)
  {
    var x := v[1..];
    output := v + x;
    ReplaceAtFront(v, x);
    TooShort(x, v);
    LastStarShared(v, x);
    hide *;
    Occurs(MARKER + x, "*******", v, "");
  }

  /** So is a star at the end: of v without its star and v, the second is replaced and v is back. */
  lemma TrailingStarLeaves(v: string) returns (output: string)
    requires v != "" && v[0] != '*' && v[|v| - 1] == '*'
    ensures Contains(ReplaceAll(output, v, MARKER), v)
  {
    var x := v[..|v| - 1];
    output := x + (v + "");
    assert output[|x|..] == v + "";
    forall p | 0 <= p < |x| ensures !At(output, v, p) {
      assert output[p..][0] == v[p] && output[p..][|x|] == v[p];
    }
    ReplaceBetween(x, v, "");
    assert v == x + "*" && MARKER == "*" + "*******";
    assert x + (MARKER + "") == "" + (v + "*******");
    Occurs(x + (MARKER + ""), "", v, "*******");
  }

  lemma EarlierMarker(v: string, i: nat, y: string, p: nat)
    requires i + |MARKER| <= |v| && At(v, MARKER, i) && p < i && At(v[..i] + (v + y), v, p)
    ensures At(v, MARKER, p)
  {
    var s := v[..i] + (v + y);
    forall n | 0 <= n < |MARKER| ensures v[p..][n] == MARKER[n] {
      assert v[i + n] == s[p..][i + n] == s[p + i + n] == v[p + n];
      assert v[i + n] == v[i..][n] == MARKER[n];
    }
  }

  /** And so is a marker inside: v between what stands before its first marker and what stands behind it. */
  lemma InnerMarkerLeaves(v: string) returns (output: string)
    requires Contains(v, MARKER)
    ensures Contains(ReplaceAll(output, v, MARKER), v)
  {
    IndexIff(v, MARKER);
    var i := IndexOf(v, MARKER).value;
    var x, y := v[..i], v[i + |MARKER|..];
    assert v[i..][..|MARKER|] == MARKER;
    assert v == x + (MARKER + y);
    output := x + (v + y);
    assert output[|x|..] == v + y;
    forall p | 0 <= p < i ensures !At(output, v, p) {
      if At(output, v, p) {
        EarlierMarker(v, i, y, p);
      }
    }
    ReplaceBetween(x, v, y);
    assert v == "" + (v + "");
    Occurs(v, "", v, "");
  }

  /** v is one of the values to redact, and occurs in what redaction makes of the output. */
  ghost predicate Leaves(output: string, env: map<string, string>, vals: seq<string>, v: string) {
    Order(env, vals) && "" !in vals && v in env.Values && Contains(ReplaceEach(output, vals), v)
  }

  lemma OnlyValue(output: string, v: string)
    requires |v| >= MIN_LENGTH && Contains(ReplaceAll(output, v, MARKER), v)
    ensures Leaves(output, map["" := v], [v], v)
  {
    var env := map["" := v];
    assert env[""] == v && env.Values == {v};
    assert [v][1..] == [];
    assert ReplaceEach(output, [v]) == ReplaceEach(ReplaceAll(output, v, MARKER), []);
  }

  /**
   A value to redact can be left in some output, in some environment, exactly if it begins or ends with a star or
   contains a marker; and then it can be left where it is the only value.
   */
  lemma CanBeLeftIff(v: string)
    requires |v| >= MIN_LENGTH
    ensures (exists output, env, vals :: Leaves(output, env, vals, v)) <==>
              v[0] == '*' || v[|v| - 1] == '*' || Contains(v, MARKER)
    ensures (exists output, env, vals :: Leaves(output, env, vals, v)) <==>
              exists output :: Leaves(output, map["" := v], [v], v)
  {
    if MarkerProof(v) {
      forall output, env, vals | Order(env, vals) && "" !in vals && v in env.Values
        ensures !Leaves(output, env, vals, v)
      {
        NoValueLeft(output, env, vals, v);
      }
    } else {
      var output;
      if v[0] == '*' {
        output := LeadingStarLeaves(v);
      } else if v[|v| - 1] == '*' {
        output := TrailingStarLeaves(v);
      } else {
        output := InnerMarkerLeaves(v);
      }
      OnlyValue(output, v);
    }
  }

  /** Output in which no value occurs is not touched. */
  lemma {:induction false} CleanOutputUntouched(s: string, vals: seq<string>)
    requires "" !in vals && forall v :: v in vals ==> !Contains(s, v)
    ensures ReplaceEach(s, vals) == s
    decreases |vals|
  {
    if vals != [] {
      assert vals[0] in vals;
      CleanOutputUntouched(s, vals[1..]);
    }
  }

  lemma ReplaceAtFront(v: string, rest: string)
    requires v != ""
    ensures ReplaceAll(v + rest, v, MARKER) == MARKER + ReplaceAll(rest, v, MARKER)
  {
    IndexStep(v + rest, v);
    assert (v + rest)[|v|..] == rest && (v + rest)[..0] == "";
  }

  lemma TooShort(s: string, v: string)
    requires |s| < |v|
    ensures ReplaceAll(s, v, MARKER) == s
  {
  }

  lemma NoneReplaced(s: string, v: string)
    requires v != "" && !Contains(s, v)
    ensures ReplaceAll(s, v, MARKER) == s
  {
  }

  lemma TwoSteps(s: string, v: string, w: string)
    requires v != "" && w != ""
    ensures ReplaceEach(s, [v, w]) == ReplaceAll(ReplaceAll(s, v, MARKER), w, MARKER)
  {
    hide ReplaceAll;
    var s1 := ReplaceAll(s, v, MARKER);
    assert [v, w][1..] == [w] && [w][1..] == [];
    assert ReplaceEach(s, [v, w]) == ReplaceEach(s1, [w]);
    assert ReplaceEach(s1, [w]) == ReplaceEach(ReplaceAll(s1, w, MARKER), []);
  }

  lemma LongFirst(short: string, long: string)
    requires MarkerProof(short) && long != ""
    ensures ReplaceEach(long, [long, short]) == MARKER
  {
    hide ReplaceAll;
    hide ReplaceEach;
    assert long + "" == long && MARKER + "" == MARKER;
    TwoSteps(long, long, short);
    ReplaceAtFront(long, "");
    TooShort("", long);
    NoneInMarker(short);
    NoneReplaced(MARKER, short);
  }

  lemma ShortFirst(short: string, more: string)
    requires short != "" && MarkerProof(short + more) && !Contains(more, short)
    ensures ReplaceEach(short + more, [short, short + more]) == MARKER + more
  {
    hide ReplaceAll;
    hide ReplaceEach;
    var long := short + more;
    TwoSteps(long, short, long);
    ReplaceAtFront(short, more);
    NoneReplaced(more, short);
    NotTooLong(more, long);
    GlueWithMarker("", more, long);
    assert "" + (MARKER + more) == MARKER + more;
    NoneReplaced(MARKER + more, long);
  }

  /** Why longest first: a longer value that begins with a shorter one goes as a whole; the other way its rest stays. */
  lemma LongerValueGoesWhole(short: string, more: string)
    requires |short| >= MIN_LENGTH && more != "" && !Contains(more, short)
    requires MarkerProof(short) && MarkerProof(short + more)
    ensures ReplaceEach(short + more, [short + more, short]) == MARKER
    ensures ReplaceEach(short + more, [short, short + more]) == MARKER + more
  {
    LongFirst(short, short + more);
    ShortFirst(short, more);
  }

  lemma NotTooLong(more: string, long: string)
    requires |more| < |long|
    ensures !Contains(more, long) && !Contains("", long)
  {
  }

  lemma NoneInMarker(short: string)
    requires MarkerProof(short)
    ensures !Contains(MARKER, short)
  {
    IndexIff(MARKER, short);
    forall k: nat ensures !At(MARKER, short, k) {
      if k < |MARKER| {
        assert MARKER[k..][0] == '*';
      }
    }
  }
}
