/**
 The string operations the parsers share, with Go's meaning: leftmost search, containment and trimming. Search is
 specified by the first position at which the pattern occurs; IndexStep turns that into a walk from left to right,
 which is how the proofs about loops use it. Two character classes occur: the blanks of the regular expressions, and
 the larger set that strings.TrimSpace removes.
 */
module Strings {
  import opened Prelude

  /** pat occurs in s at position k. */
  predicate At(s: string, pat: string, k: nat) {
    k <= |s| && pat <= s[k..]
  }

  predicate First(s: string, pat: string, k: nat) {
    At(s, pat, k) && forall i :: 0 <= i < k ==> !At(s, pat, i)
  }

  /** strings.Index: the leftmost occurrence. */
  function IndexOf(s: string, pat: string): (r: Option<nat>)
    ensures r.Some? ==> r.value + |pat| <= |s|
  {
    if exists k :: 0 <= k <= |s| && First(s, pat, k) then
      var k :| 0 <= k <= |s| && First(s, pat, k);
      Some(k)
    else None
  }

  predicate Contains(s: string, pat: string) {
    IndexOf(s, pat).Some?
  }

  lemma FirstExists(s: string, pat: string, k: nat)
    requires At(s, pat, k)
    ensures exists i :: 0 <= i <= k && First(s, pat, i)
  {
    if i :| 0 <= i < k && At(s, pat, i) {
      FirstExists(s, pat, i);
    } else {
      assert First(s, pat, k);
    }
  }

  /** What the search returns: the first occurrence, or nothing if there is none. */
  lemma IndexIff(s: string, pat: string)
    ensures IndexOf(s, pat) == None <==> forall k: nat :: !At(s, pat, k)
    ensures IndexOf(s, pat).Some? ==> First(s, pat, IndexOf(s, pat).value)
  {
    if k: nat :| At(s, pat, k) {
      FirstExists(s, pat, k);
    }
  }

  lemma IndexIs(s: string, pat: string, k: nat)
    requires First(s, pat, k)
    ensures IndexOf(s, pat) == Some(k)
  {
    IndexIff(s, pat);
  }

  lemma IndexHits(s: string, pat: string)
    ensures IndexOf(s, pat).Some? ==> s[IndexOf(s, pat).value..][..|pat|] == pat
  {
    IndexIff(s, pat);
  }

  /** The search as a walk from left to right. */
  lemma IndexStep(s: string, pat: string)
    ensures pat <= s ==> IndexOf(s, pat) == Some(0)
    ensures !(pat <= s) && s != "" ==> IndexOf(s, pat) == match IndexOf(s[1..], pat)
                                                          case Some(i) => Some(i + 1)
                                                          case None => None
    ensures !(pat <= s) && s == "" ==> IndexOf(s, pat) == None
  {
    assert s[0..] == s;
    if pat <= s {
      IndexIs(s, pat, 0);
    } else if s != "" {
      forall k: nat ensures At(s, pat, k + 1) <==> At(s[1..], pat, k) {
        if k + 1 <= |s| {
          assert s[k + 1..] == s[1..][k..];
        }
      }
      IndexIff(s[1..], pat);
      match IndexOf(s[1..], pat)
      case Some(i) =>
        forall j | 0 <= j < i + 1 ensures !At(s, pat, j) {
          assert j > 0 ==> !At(s[1..], pat, j - 1);
        }
        IndexIs(s, pat, i + 1);
      case None =>
        forall j: nat ensures !At(s, pat, j) {
          assert j > 0 ==> !At(s[1..], pat, j - 1);
        }
        IndexIff(s, pat);
    } else {
      IndexIff(s, pat);
    }
  }

  // ---------------------------------------------------------------- character classes and trimming

  /** \s of the regular expressions. */
  predicate IsBlank(c: char) {
    c in {'\t', '\n', '\U{000C}', '\r', ' '}
  }

  /** unicode.IsSpace, which strings.TrimSpace uses. */
  predicate IsSpace(c: char) {
    || IsBlank(c) || c in {'\U{000B}', '\U{0085}', '\U{00A0}', '\U{1680}', '\U{2028}', '\U{2029}', '\U{202F}', '\U{205F}', '\U{3000}'}
    || '\U{2000}' <= c <= '\U{200A}'
  }

  function TrimLeft(s: string, drop: char -> bool): (r: string)
    ensures |r| <= |s| && r == s[|s| - |r|..] && (r != "" ==> !drop(r[0]))
  {
    if s != "" && drop(s[0]) then TrimLeft(s[1..], drop) else s
  }

  function TrimRight(s: string, drop: char -> bool): (r: string)
    ensures r <= s && (r != "" ==> !drop(r[|r| - 1]))
  {
    if s != "" && drop(s[|s| - 1]) then TrimRight(s[..|s| - 1], drop) else s
  }

  function Trim(s: string, drop: char -> bool): (r: string)
    ensures |r| <= |s|
  {
    TrimRight(TrimLeft(s, drop), drop)
  }

  function TrimSpace(s: string): string {
    Trim(s, c => IsSpace(c))
  }
}
