/** The length of Go's JSON encoding of a byte string (encoding/json with HTML escaping; section 7 of RFC 8259). */
module JsonLength {
  type byte = x: int | 0 <= x < 256

  predicate Continues(b: byte) {
    0x80 <= b <= 0xBF
  }

  /** Size of the UTF-8 character at the front, or 0 if there is no valid one. */
  function RuneSize(s: seq<byte>): (n: nat)
    requires s != []
    ensures n <= |s| && n <= 4
  {
    var b := s[0];
    if b < 0x80 then 1
    else if 0xC2 <= b <= 0xDF then
      if |s| >= 2 && Continues(s[1]) then 2 else 0
    else if 0xE0 <= b <= 0xEF then
      if |s| >= 3 && (if b == 0xE0 then 0xA0 else 0x80) <= s[1] <= (if b == 0xED then 0x9F else 0xBF) && Continues(s[2])
      then 3 else 0
    else if 0xF0 <= b <= 0xF4 then
      if |s| >= 4 && (if b == 0xF0 then 0x90 else 0x80) <= s[1] <= (if b == 0xF4 then 0x8F else 0xBF)
         && Continues(s[2]) && Continues(s[3])
      then 4 else 0
    else 0
  }

  /** Quotes, backslash and the short control escapes take two bytes; other controls and < > & six. */
  function AsciiCost(b: byte): nat {
    if b in {0x22, 0x5C, 0x08, 0x0C, 0x0A, 0x0D, 0x09} then 2
    else if b < 0x20 || b in {0x3C, 0x3E, 0x26} then 6
    else 1
  }

  /** The line and paragraph separators U+2028 and U+2029 are escaped; other characters stay as they are. */
  function RuneCost(s: seq<byte>, n: nat): nat
    requires 1 <= n <= |s|
  {
    if n == 1 then AsciiCost(s[0])
    else if n == 3 && s[0] == 0xE2 && s[1] == 0x80 && s[2] in {0xA8, 0xA9} then 6
    else n
  }

  /** Bytes that are not part of a valid character become the six bytes of an escaped U+FFFD. */
  function EscapedLength(s: seq<byte>): nat {
    if s == [] then 0
    else
      var n := RuneSize(s);
      if n == 0 then 6 + EscapedLength(s[1..]) else RuneCost(s, n) + EscapedLength(s[n..])
  }

  ghost predicate Ascii(s: seq<byte>) {
    forall i :: 0 <= i < |s| ==> s[i] < 0x80
  }

  lemma {:induction false} AsciiAppend(a: seq<byte>, b: seq<byte>)
    requires Ascii(a)
    ensures EscapedLength(a + b) == EscapedLength(a) + EscapedLength(b)
  {
    if a == [] {
      assert a + b == b;
    } else {
      assert a[0] < 0x80 && (a + b)[0] == a[0];
      assert (a + b)[1..] == a[1..] + b;
      AsciiAppend(a[1..], b);
    }
  }

  lemma AsciiMonotone(s: seq<byte>, i: nat, j: nat)
    requires Ascii(s) && i <= j <= |s|
    ensures EscapedLength(s[..i]) <= EscapedLength(s[..j])
  {
    assert s[..j] == s[..i] + s[i..j];
    AsciiAppend(s[..i], s[i..j]);
  }

  /** Cutting inside a character makes the text longer: half an e-acute is escaped, a whole one is not. */
  lemma CutCharacterIsLonger(more: seq<byte>)
    ensures EscapedLength([0xC3]) == 6
    ensures EscapedLength([0xC3, 0xA9] + more) == 2 + EscapedLength(more)
  {
    var s: seq<byte> := [0xC3];
    assert RuneSize(s) == 0 && s[1..] == [];
    var t: seq<byte> := [0xC3, 0xA9] + more;
    assert t[0] == 0xC3 && t[1] == 0xA9 && RuneSize(t) == 2 && t[2..] == more;
  }

  // ---------------------------------------------------------------- cutting any bytes

  lemma RuneCostBounds(s: seq<byte>, n: nat)
    requires 1 <= n <= |s|
    ensures n <= RuneCost(s, n) <= 6 * n
  {
  }

  lemma {:induction false} EscapedBounds(s: seq<byte>)
    ensures |s| <= EscapedLength(s) <= 6 * |s|
  {
    if s != [] {
      var n := RuneSize(s);
      if n == 0 {
        EscapedBounds(s[1..]);
      } else {
        RuneCostBounds(s, n);
        EscapedBounds(s[n..]);
      }
    }
  }

  /** A prefix that does not cut the character at the front reads it the same way. */
  lemma SameFront(s: seq<byte>, m: nat)
    requires 0 < m <= |s| && RuneSize(s) <= m
    ensures RuneSize(s[..m]) == RuneSize(s)
    ensures RuneSize(s) > 0 ==> RuneCost(s[..m], RuneSize(s)) == RuneCost(s, RuneSize(s))
  {
    assert forall i :: 0 <= i < m ==> s[..m][i] == s[i];
  }

  /** At most three bytes of a cut character cost six each; every byte behind the cut costs at least one. */
  lemma {:induction false} CutCostsLittle(s: seq<byte>, m: nat)
    requires m <= |s|
    ensures EscapedLength(s[..m]) + (|s| - m) <= EscapedLength(s) + 15
    decreases |s|
  {
    EscapedBounds(s);
    if m > 0 {
      var n := RuneSize(s);
      if n > m {
        EscapedBounds(s[..m]);
      } else {
        var step := if n == 0 then 1 else n;
        SameFront(s, m);
        assert s[..m][step..] == s[step..][..m - step];
        CutCostsLittle(s[step..], m - step);
      }
    }
  }
}
