/** The caps on a bash result (pkg/codingtools/bash.go): 100 KB of payload, then 1 KB of inline JSON. */
module BashOutput {
  import opened JsonLength

  const MAX_OUTPUT: nat := 102400
  const INLINE: nat := 1024

  /** "\n[output truncated at 100KB]" in ASCII. */
  const SUFFIX: seq<byte> := [
    0x0A, 0x5B, 0x6F, 0x75, 0x74, 0x70, 0x75, 0x74, 0x20, 0x74, 0x72, 0x75, 0x6E, 0x63, 0x61, 0x74, 0x65, 0x64,
    0x20, 0x61, 0x74, 0x20, 0x31, 0x30, 0x30, 0x4B, 0x42, 0x5D]

  datatype BashResult = BashResult(stdout: seq<byte>, stderr: seq<byte>, output: seq<byte>, status: int)

  // ---------------------------------------------------------------- the 100 KB cap

  class Payload {
    var stdout: seq<byte>
    var stderr: seq<byte>
    var output: seq<byte>
    const status: int

    constructor (stdout: seq<byte>, stderr: seq<byte>, status: int)
      ensures this.stdout == stdout && this.stderr == stderr && this.status == status && output == stdout
    {
      this.stdout, this.stderr, this.status, output := stdout, stderr, status, stdout;
    }

    /** An oversized payload becomes exactly 100 KB, cut at the end of stderr first. */
    method ApplyMaxBashPayload()
      modifies this
      ensures output == stdout
      ensures Capped(old(stdout), old(stderr), stdout, stderr)
    {
      var total := |stdout| + |stderr|;
      if total <= MAX_OUTPUT {
        output := stdout;
        return;
      }
      var contentBudget := MAX_OUTPUT - |SUFFIX|;
      var over := total - contentBudget;
      if over > 0 && |stderr| > 0 {
        if over >= |stderr| {
          over := over - |stderr|;
          stderr := [];
        } else {
          stderr := stderr[..|stderr| - over];
          over := 0;
        }
      }
      if over > 0 && |stdout| > 0 {
        if over >= |stdout| {
          assert false;  // the budget is positive, so some of stdout is always left
        } else {
          stdout := stdout[..|stdout| - over];
        }
      }
      stderr := stderr + SUFFIX;
      output := stdout;
    }
  }

  /** What the cap promises about the streams before and after. */
  ghost predicate Capped(out: seq<byte>, err: seq<byte>, out': seq<byte>, err': seq<byte>) {
    if |out| + |err| <= MAX_OUTPUT then out' == out && err' == err
    else
      && |out'| + |err'| == MAX_OUTPUT && out' <= out
      && |SUFFIX| <= |err'| && err'[|err'| - |SUFFIX|..] == SUFFIX && err'[..|err'| - |SUFFIX|] <= err
      && (out' != out ==> err' == SUFFIX)
  }

  // ---------------------------------------------------------------- the size of the inline JSON

  function Digits(n: nat): nat {
    if n < 10 then 1 else 1 + Digits(n / 10)
  }

  function StatusLength(status: int): nat {
    if status < 0 then 1 + Digits(-status) else Digits(status)
  }

  const OVERHEAD := 47  // the object with three empty strings and no status

  function MarshaledLength(p: BashResult): nat {
    OVERHEAD + EscapedLength(p.stdout) + EscapedLength(p.stderr) + EscapedLength(p.output) + StatusLength(p.status)
  }

  function Inline(out: seq<byte>, err: seq<byte>, status: int): BashResult {
    BashResult(out, err, out, status)
  }

  // ---------------------------------------------------------------- the binary search

  /** The longest prefix length found, starting from lo..hi with `best` found so far. */
  function Search(fits: nat -> bool, lo: nat, hi: int, best: nat): nat
    decreases hi - lo + 1
  {
    if lo > hi then best
    else
      var mid := (lo + hi + 1) / 2;
      if fits(mid) then Search(fits, mid + 1, hi, mid) else Search(fits, lo, mid - 1, best)
  }

  method LongestPrefix(fits: nat -> bool, n: nat) returns (best: nat)
    ensures best == Search(fits, 0, n, 0)
  {
    best := 0;
    var lo: nat, hi: int := 0, n;
    while lo <= hi
      invariant Search(fits, lo, hi, best) == Search(fits, 0, n, 0)
      decreases hi - lo + 1
    {
      var mid := (lo + hi + 1) / 2;
      if fits(mid) {
        best := mid;
        lo := mid + 1;
      } else {
        hi := mid - 1;
      }
    }
  }

  /** What the search keeps true: best is lo - 1 and fits, and what comes after hi does not. */
  ghost predicate Narrowed(fits: nat -> bool, n: nat, lo: nat, hi: int, best: nat) {
    && -1 <= hi <= n && lo <= hi + 1
    && (if lo == 0 then best == 0 else best == lo - 1 && fits(best))
    && (0 <= hi < n ==> !fits(hi + 1))
    && (hi == -1 ==> !fits(0) && (n == 0 || !fits(1)))
  }

  lemma MiddleBetween(lo: nat, hi: int)
    requires lo <= hi
    ensures lo <= (lo + hi + 1) / 2 <= hi && (lo < hi ==> lo < (lo + hi + 1) / 2)
  {
  }

  lemma ProbeNarrows(fits: nat -> bool, n: nat, lo: nat, hi: int, best: nat)
    requires Narrowed(fits, n, lo, hi, best) && lo <= hi
    ensures var mid := (lo + hi + 1) / 2;
            if fits(mid) then Narrowed(fits, n, mid + 1, hi, mid) else Narrowed(fits, n, lo, mid - 1, best)
  {
    MiddleBetween(lo, hi);
  }

  lemma NarrowedDone(fits: nat -> bool, n: nat, lo: nat, hi: int, best: nat)
    requires Narrowed(fits, n, lo, hi, best) && lo > hi
    ensures best <= n && (best > 0 ==> fits(best)) && (best < n ==> !fits(best + 1))
  {
  }

  lemma {:induction false} SearchNarrows(fits: nat -> bool, n: nat, lo: nat, hi: int, best: nat)
    requires Narrowed(fits, n, lo, hi, best)
    ensures var k := Search(fits, lo, hi, best);
            k <= n && (k > 0 ==> fits(k)) && (k < n ==> !fits(k + 1))
    decreases hi - lo + 1
  {
    hide Narrowed;
    if lo > hi {
      NarrowedDone(fits, n, lo, hi, best);
    } else {
      var mid := (lo + hi + 1) / 2;
      MiddleBetween(lo, hi);
      ProbeNarrows(fits, n, lo, hi, best);
      if fits(mid) {
        SearchNarrows(fits, n, mid + 1, hi, mid);
      } else {
        SearchNarrows(fits, n, lo, mid - 1, best);
      }
    }
  }

  /** For any test at all: the prefix found fits unless it is empty, and one byte more does not fit. */
  lemma LocallyLongest(fits: nat -> bool, n: nat)
    ensures var k := Search(fits, 0, n, 0); k <= n && (k > 0 ==> fits(k)) && (k < n ==> !fits(k + 1))
  {
    SearchNarrows(fits, n, 0, n, 0);
  }

  /** Prefixes of what fits fit too. */
  ghost predicate Monotone(fits: nat -> bool, n: nat) {
    forall i: nat, j: nat :: i <= j <= n && fits(j) ==> fits(i)
  }

  /** With a monotone test the prefix found is the longest that fits. */
  lemma Longest(fits: nat -> bool, n: nat, j: nat)
    requires Monotone(fits, n) && j <= n && fits(j)
    ensures var k := Search(fits, 0, n, 0); fits(k) && j <= k
  {
    LocallyLongest(fits, n);
  }

  // ---------------------------------------------------------------- the 1 KB cap

  /** Whether the JSON with this much of stderr fits. */
  function FitsErr(out: seq<byte>, err: seq<byte>, status: int): nat -> bool {
    (k: nat) => k <= |err| && MarshaledLength(Inline(out, err[..k], status)) <= INLINE
  }

  function FitsOut(out: seq<byte>, err: seq<byte>, status: int): nat -> bool {
    (k: nat) => k <= |out| && MarshaledLength(Inline(out[..k], err, status)) <= INLINE
  }

  /** How much of stderr the inline result keeps. */
  function KeptErr(p: BashResult): (k: nat)
    ensures k <= |p.stderr|
  {
    LocallyLongest(FitsErr(p.stdout, p.stderr, p.status), |p.stderr|);
    Search(FitsErr(p.stdout, p.stderr, p.status), 0, |p.stderr|, 0)
  }

  /** How much of stdout it keeps next to that. */
  function KeptOut(p: BashResult): (k: nat)
    ensures k <= |p.stdout|
  {
    LocallyLongest(FitsOut(p.stdout, p.stderr[..KeptErr(p)], p.status), |p.stdout|);
    Search(FitsOut(p.stdout, p.stderr[..KeptErr(p)], p.status), 0, |p.stdout|, 0)
  }

  /** The result that is marshaled: everything if it fits, otherwise what the two searches keep. */
  ghost function Shortened(p: BashResult): BashResult {
    if MarshaledLength(Inline(p.stdout, p.stderr, p.status)) <= INLINE then Inline(p.stdout, p.stderr, p.status)
    else Inline(p.stdout[..KeptOut(p)], p.stderr[..KeptErr(p)], p.status)
  }

  /** The status of a process is a machine integer. */
  predicate MachineInt(status: int) {
    -0x8000_0000_0000_0000 <= status < 0x8000_0000_0000_0000
  }

  function Pow10(k: nat): nat {
    if k == 0 then 1 else 10 * Pow10(k - 1)
  }

  lemma {:induction false} DigitsBound(n: nat, k: nat)
    requires k > 0 && n < Pow10(k)
    ensures Digits(n) <= k
  {
    if n >= 10 {
      assert k > 1;
      DigitsBound(n / 10, k - 1);
    }
  }

  lemma StatusShort(status: int)
    requires MachineInt(status)
    ensures StatusLength(status) <= 20
  {
    assert Pow10(4) == 10_000;
    assert Pow10(8) == 100_000_000;
    assert Pow10(12) == 1_000_000_000_000;
    assert Pow10(16) == 10_000_000_000_000_000;
    assert Pow10(19) == 10_000_000_000_000_000_000;
    DigitsBound(if status < 0 then -status else status, 19);
  }

  /** The searches always end in something that fits, for any bytes: the fallback message is never needed. */
  lemma AlwaysFits(p: BashResult)
    requires MachineInt(p.status)
    ensures MarshaledLength(Shortened(p)) <= INLINE
  {
    hide Search;
    hide EscapedLength;
    hide StatusLength;
    if MarshaledLength(Inline(p.stdout, p.stderr, p.status)) > INLINE {
      var se := p.stderr[..KeptErr(p)];
        LocallyLongest(FitsErr(p.stdout, p.stderr, p.status), |p.stderr|);
      LocallyLongest(FitsOut(p.stdout, se, p.status), |p.stdout|);
      StatusShort(p.status);
      NoBytes();
      if KeptOut(p) == 0 {
        assert p.stdout[..0] == [];
        if KeptErr(p) == 0 {
          assert se == [];
        }
      }
    }
  }

  lemma NoBytes()
    ensures EscapedLength([]) == 0
  {
  }

  /** Reports the inline JSON's content and its length. */
  method MarshalBashResultInline(p: BashResult) returns (r: BashResult, length: nat)
    requires MachineInt(p.status)
    ensures r == Shortened(p) && length == MarshaledLength(r) <= INLINE
    ensures r.output == r.stdout && r.stdout <= p.stdout && r.stderr <= p.stderr && r.status == p.status
  {
    AlwaysFits(p);
    hide EscapedLength;
    r := Inline(p.stdout, p.stderr, p.status);
    length := MarshaledLength(r);
    if length <= INLINE {
      return;
    }
    var so, se := p.stdout, p.stderr;
    var bestKE := LongestPrefix(FitsErr(so, se, p.status), |se|);
    var seUse := se[..bestKE];
    var bestKO := LongestPrefix(FitsOut(so, seUse, p.status), |so|);
    r := Inline(so[..bestKO], seUse, p.status);
    length := MarshaledLength(r);
  }

  // ---------------------------------------------------------------- how much is kept

  /** For any bytes: one more byte of stderr, or of stdout next to the stderr kept, would not fit. */
  lemma KeptIsTight(p: BashResult)
    requires MarshaledLength(Inline(p.stdout, p.stderr, p.status)) > INLINE
    ensures var r := Shortened(p);
            && (|r.stderr| < |p.stderr| ==>
                  MarshaledLength(Inline(p.stdout, p.stderr[..|r.stderr| + 1], p.status)) > INLINE)
            && (|r.stdout| < |p.stdout| ==>
                  MarshaledLength(Inline(p.stdout[..|r.stdout| + 1], r.stderr, p.status)) > INLINE)
  {
    hide EscapedLength;
    LocallyLongest(FitsErr(p.stdout, p.stderr, p.status), |p.stderr|);
    LocallyLongest(FitsOut(p.stdout, p.stderr[..KeptErr(p)], p.status), |p.stdout|);
  }

  lemma ErrMonotone(out: seq<byte>, err: seq<byte>, status: int)
    requires Ascii(err)
    ensures Monotone(FitsErr(out, err, status), |err|)
  {
    hide EscapedLength;
    forall i: nat, j: nat | i <= j <= |err| && FitsErr(out, err, status)(j) ensures FitsErr(out, err, status)(i) {
      AsciiMonotone(err, i, j);
    }
  }

  lemma OutMonotone(out: seq<byte>, err: seq<byte>, status: int)
    requires Ascii(out)
    ensures Monotone(FitsOut(out, err, status), |out|)
  {
    hide EscapedLength;
    forall i: nat, j: nat | i <= j <= |out| && FitsOut(out, err, status)(j) ensures FitsOut(out, err, status)(i) {
      AsciiMonotone(out, i, j);
    }
  }

  /**
   For ASCII output the shortened result keeps all of stdout and the longest prefix of stderr that fits beside it;
   if even an empty stderr does not fit, it keeps no stderr and the longest prefix of stdout that fits.
   */
  lemma AsciiKeepsLongest(p: BashResult, k: nat)
    requires Ascii(p.stdout) && Ascii(p.stderr)
    requires MarshaledLength(Inline(p.stdout, p.stderr, p.status)) > INLINE
    ensures var r := Shortened(p);
            if MarshaledLength(Inline(p.stdout, [], p.status)) <= INLINE then
              && r.stdout == p.stdout
              && (k <= |p.stderr| && MarshaledLength(Inline(p.stdout, p.stderr[..k], p.status)) <= INLINE ==> k <= |r.stderr|)
            else
              && r.stderr == []
              && (k <= |p.stdout| && MarshaledLength(Inline(p.stdout[..k], [], p.status)) <= INLINE ==> k <= |r.stdout|)
  {
    hide EscapedLength;
    hide Search;
    var fe, fo := FitsErr(p.stdout, p.stderr, p.status), FitsOut(p.stdout, p.stderr[..KeptErr(p)], p.status);
    ErrMonotone(p.stdout, p.stderr, p.status);
    OutMonotone(p.stdout, p.stderr[..KeptErr(p)], p.status);
    assert p.stderr[..0] == [] && p.stdout[..|p.stdout|] == p.stdout;
    LocallyLongest(fe, |p.stderr|);
    if fe(0) {
      Longest(fe, |p.stderr|, 0);
      if fe(k) {
        Longest(fe, |p.stderr|, k);
      }
      assert fo(|p.stdout|);
      Longest(fo, |p.stdout|, |p.stdout|);
    } else {
      assert KeptErr(p) == 0;
      if fo(k) {
        Longest(fo, |p.stdout|, k);
      }
    }
  }

  // ---------------------------------------------------------------- where the searches fall short

  /** Whatever fits is not much shorter in bytes than what does not: a longer prefix that fits is at most 14 longer. */
  lemma FitsNearby(s: seq<byte>, m: nat, j: nat)
    requires m <= j <= |s| && EscapedLength(s[..j]) < EscapedLength(s[..m])
    ensures j <= m + 14
  {
    hide EscapedLength;
    assert s[..j][..m] == s[..m];
    CutCostsLittle(s[..j], m);
  }

  /**
   For any bytes, a search keeps at most 15 bytes less than the longest prefix that fits: of stderr beside all of
   stdout, and of stdout beside the stderr kept.
   */
  lemma KeepsNearlyLongest(p: BashResult, j: nat)
    ensures FitsErr(p.stdout, p.stderr, p.status)(j) ==> j <= KeptErr(p) + 15
    ensures FitsOut(p.stdout, p.stderr[..KeptErr(p)], p.status)(j) ==> j <= KeptOut(p) + 15
  {
    hide EscapedLength;
    hide StatusLength;
    hide Search;
    var ke, ko := KeptErr(p), KeptOut(p);
    LocallyLongest(FitsErr(p.stdout, p.stderr, p.status), |p.stderr|);
    LocallyLongest(FitsOut(p.stdout, p.stderr[..ke], p.status), |p.stdout|);
    if FitsErr(p.stdout, p.stderr, p.status)(j) && j > ke {
      FitsNearby(p.stderr, ke + 1, j);
    }
    if FitsOut(p.stdout, p.stderr[..ke], p.status)(j) && j > ko {
      FitsNearby(p.stdout, ko + 1, j);
    }
  }

  /** n times e-acute, a character of two bytes. */
  function Acutes(n: nat): (s: seq<byte>)
    ensures |s| == 2 * n
  {
    if n == 0 then [] else [0xC3, 0xA9] + Acutes(n - 1)
  }

  lemma {:induction false} AcutesCut(n: nat, k: nat)
    requires k <= 2 * n
    ensures EscapedLength(Acutes(n)[..k]) == if k % 2 == 0 then k else k + 5
    decreases n
  {
    if k == 1 {
      assert Acutes(n)[..1] == [0xC3];
      CutCharacterIsLonger([]);
    } else if k > 1 {
      AcutesCut(n - 1, k - 2);
      assert Acutes(n)[..k] == [0xC3, 0xA9] + Acutes(n - 1)[..k - 2];
      CutCharacterIsLonger(Acutes(n - 1)[..k - 2]);
    }
  }

  lemma AcutesFit(k: nat)
    requires k <= 1946
    ensures FitsErr([], Acutes(973), 0)(k) <==> (if k % 2 == 0 then k else k + 5) <= 976
  {
    hide EscapedLength;
    hide Acutes;
    NoBytes();
    AcutesCut(973, k);
  }

  /** A first probe that fails sends the search below it; where everything fits, the search keeps everything. */
  lemma BelowFirstProbe(fits: nat -> bool, n: nat)
    requires var mid := (n + 1) / 2; mid > 0 && !fits(mid) && forall k: nat :: k < mid ==> fits(k)
    ensures Search(fits, 0, n, 0) == (n + 1) / 2 - 1
  {
    var below := (n + 1) / 2 - 1;
    assert Search(fits, 0, n, 0) == Search(fits, 0, below, 0);
    LocallyLongest(fits, below);
  }

  /**
   1946 bytes of e-acutes on stderr: 976 of them fit, but the first probe of the search cuts a character at 973 and
   is too long, so that it keeps 972.
   */
  lemma SearchCanFallShort()
    ensures var p := BashResult([], Acutes(973), [], 0);
            && MarshaledLength(Inline(p.stdout, p.stderr, p.status)) > INLINE
            && Shortened(p).stderr == p.stderr[..972] && FitsErr(p.stdout, p.stderr, p.status)(976)
  {
    hide EscapedLength;
    hide Acutes;
    hide Search;
    var p := BashResult([], Acutes(973), [], 0);
    var fits := FitsErr(p.stdout, p.stderr, p.status);
    assert p.stderr[..1946] == p.stderr;
    AcutesFit(1946);
    AcutesFit(976);
    AcutesFit(973);
    forall k: nat | k < 973 ensures fits(k) {
      AcutesFit(k);
    }
    BelowFirstProbe(fits, 1946);
  }
}
