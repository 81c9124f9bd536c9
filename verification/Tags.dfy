/**
 Searching for tags: patterns whose only '<' is their first character cannot straddle a boundary before a '<'. So a
 search may skip text that does not contain the tag, other tags with their plain text, and text without any '<'.
 These facts carry the proofs about printed tool calls and about thinking tags; they hold for every such pattern,
 not only for the markers in use.
 */
module Tags {
  import opened Prelude
  import opened Strings

  /** A tag-like pattern: it starts with '<' and has no other '<'. */
  ghost predicate Solid(pat: string) {
    |pat| > 0 && pat[0] == '<' && forall i :: 0 < i < |pat| ==> pat[i] != '<'
  }

  function Shift(n: nat, r: Option<nat>): Option<nat> {
    if r.None? then None else Some(n + r.value)
  }

  ghost predicate StartsTag(s: string) {
    s == [] || s[0] == '<'
  }

  lemma NoStraddle(a: string, b: string, pat: string)
    requires Solid(pat) && StartsTag(b) && a != [] && !(pat <= a)
    ensures !(pat <= a + b)
  {
    assert (a + b)[..|a|] == a;
    if b != "" {
      assert (a + b)[|a|] == '<';
    }
  }

  /** Text without the tag, followed by something that begins a tag: the search goes on behind the text. */
  lemma {:induction false} SkipText(a: string, b: string, pat: string)
    requires Solid(pat) && StartsTag(b) && !Contains(a, pat)
    ensures IndexOf(a + b, pat) == Shift(|a|, IndexOf(b, pat))
    decreases |a|
  {
    hide IndexOf;
    IndexStep(a, pat);
    IndexStep(a + b, pat);
    if a == [] {
      assert a + b == b;
    } else {
      NoStraddle(a, b, pat);
      assert (a + b)[1..] == a[1..] + b;
      SkipText(a[1..], b, pat);
    }
  }

  /** Text with no '<' contains no tag. */
  lemma {:induction false} PlainText(a: string, pat: string)
    requires Solid(pat) && forall i :: 0 <= i < |a| ==> a[i] != '<'
    ensures !Contains(a, pat)
    decreases |a|
  {
    IndexStep(a, pat);
    if a != [] {
      PlainText(a[1..], pat);
    }
  }

  /** Another tag, plain text up to its end, then text without the pattern: still no pattern. */
  lemma OtherTag(head: string, tail: string, pat: string, i: nat)
    requires Solid(pat) && !Contains(tail, pat)
    requires i < |head| && i < |pat| && head[i] != pat[i] && forall k :: 0 < k < |head| ==> head[k] != '<'
    ensures !Contains(head + tail, pat)
  {
    IndexStep(head + tail, pat);
    assert (head + tail)[i] == head[i];
    assert (head + tail)[1..] == head[1..] + tail;
    PlainPrefix(head[1..], tail, pat);
  }

  lemma AtFront(pat: string, b: string)
    ensures IndexOf(pat + b, pat) == Some(0) && (pat + b)[|pat|..] == b
  {
    IndexStep(pat + b, pat);
  }

  lemma {:induction false} PlainPrefix(a: string, b: string, pat: string)
    requires Solid(pat) && !Contains(b, pat) && forall i :: 0 <= i < |a| ==> a[i] != '<'
    ensures !Contains(a + b, pat)
    decreases |a|
  {
    IndexStep(a + b, pat);
    if a == [] {
      assert a + b == b;
    } else {
      assert (a + b)[1..] == a[1..] + b;
      PlainPrefix(a[1..], b, pat);
    }
  }
}
