/**
 The rolling capture of llama.cpp's stderr (internal/worker/llamaproc.go): an unterminated rest that is bounded, the
 last lines, and the critical ones logged at once. What a capture should hold is defined on everything written so
 far; one write keeps it so exactly if the rest does not overflow, and then the way the output was cut into writes
 makes no difference.
 */
module StderrCapture {
  import opened Prelude
  import opened Strings

  const MAX_LINES := 50
  const MAX_BUF := 4096
  const KEPT_BUF := 2048

  /** The unterminated rest, the rolling lines, and the lines logged as critical. */
  datatype Capture = Capture(buf: string, lines: seq<string>, logged: seq<string>)

  const Empty: Capture := Capture("", [], [])

  function Last<T>(xs: seq<T>, n: nat): seq<T> {
    if |xs| > n then xs[|xs| - n..] else xs
  }

  /** The first newline. */
  function Newline(s: string): (r: Option<nat>)
    ensures r.Some? ==> r.value < |s| && s[r.value] == '\n' && forall i :: 0 <= i < r.value ==> s[i] != '\n'
    ensures r.None? ==> forall i :: 0 <= i < |s| ==> s[i] != '\n'
    decreases |s|
  {
    if s == "" then None
    else if s[0] == '\n' then Some(0)
    else
      match Newline(s[1..])
      case None => None
      case Some(i) => Some(i + 1)
  }

  // ---------------------------------------------------------------- one write

  function TakeLine(c: Capture, i: nat, critical: string -> bool): Capture
    requires i < |c.buf|
  {
    var line := TrimSpace(c.buf[..i]);
    var rest := c.buf[i + 1..];
    if line == "" then c.(buf := rest)
    else Capture(rest, Last(c.lines + [line], MAX_LINES), c.logged + if critical(line) then [line] else [])
  }

  function Bound(c: Capture): Capture {
    if |c.buf| > MAX_BUF then c.(buf := Last(c.buf, KEPT_BUF)) else c
  }

  function Drain(c: Capture, critical: string -> bool): Capture
    decreases |c.buf|
  {
    match Newline(c.buf)
    case None => Bound(c)
    case Some(i) => Drain(TakeLine(c, i, critical), critical)
  }

  function WriteTo(c: Capture, p: string, critical: string -> bool): Capture {
    Drain(c.(buf := c.buf + p), critical)
  }

  class LlamaStderrCapture {
    const critical: string -> bool  // which lines are logged at once
    var buf: string
    var lines: seq<string>
    var logged: seq<string>

    constructor (critical: string -> bool)
      ensures this.critical == critical && View() == Empty
    {
      this.critical := critical;
      buf, lines, logged := "", [], [];
    }

    ghost function View(): Capture
      reads this
    {
      Capture(buf, lines, logged)
    }

    method FindNewline() returns (idx: int)
      ensures match Newline(buf) case None => idx == -1 case Some(i) => idx == i
    {
      var i := 0;
      while i < |buf|
        invariant i <= |buf| && forall k :: 0 <= k < i ==> buf[k] != '\n'
      {
        if buf[i] == '\n' {
          return i;
        }
        i := i + 1;
      }
      idx := -1;
    }

    /** Store the line that ends at position idx, unless it is blank. */
    method StoreLine(idx: nat)
      requires idx < |buf|
      modifies this
      ensures View() == TakeLine(old(View()), idx, critical)
    {
      hide TrimSpace;
      var line := TrimSpace(buf[..idx]);
      buf := buf[idx + 1..];
      if line == "" {
        return;
      }
      lines := lines + [line];
      if |lines| > MAX_LINES {
        lines := lines[|lines| - MAX_LINES..];
      }
      if critical(line) {
        logged := logged + [line];
      } else {
        assert logged + [] == logged;
      }
    }

    method Write(p: string)
      modifies this
      ensures View() == WriteTo(old(View()), p, critical) && |buf| <= MAX_BUF
    {
      hide TrimSpace;
      buf := buf + p;
      ghost var full := View();
      var idx := FindNewline();
      while idx >= 0
        invariant idx >= 0 ==> Newline(buf) == Some(idx)
        invariant idx < 0 ==> Newline(buf) == None
        invariant Drain(View(), critical) == Drain(full, critical)
        decreases |buf|
      {
        StoreLine(idx);
        idx := FindNewline();
      }
      if |buf| > MAX_BUF {
        buf := buf[|buf| - KEPT_BUF..];
      }
    }

    method RecentLines(n: nat) returns (r: string)
      ensures r == Join(Last(lines, n))
    {
      var recent := if |lines| > n then lines[|lines| - n..] else lines;
      r := Join(recent);
    }
  }

  function Join(lines: seq<string>): string {
    if lines == [] then "" else if |lines| == 1 then lines[0] else lines[0] + "\n" + Join(lines[1..])
  }

  // ---------------------------------------------------------------- what everything written amounts to

  function Kept(line: string): seq<string> {
    if TrimSpace(line) == "" then [] else [TrimSpace(line)]
  }

  /** The non-empty trimmed lines of a text, not counting an unterminated rest. */
  function AllLines(w: string): seq<string>
    decreases |w|
  {
    match Newline(w)
    case None => []
    case Some(i) => Kept(w[..i]) + AllLines(w[i + 1..])
  }

  function Tail(w: string): string
    decreases |w|
  {
    match Newline(w)
    case None => w
    case Some(i) => Tail(w[i + 1..])
  }

  function Filter(lines: seq<string>, critical: string -> bool): seq<string> {
    if lines == [] then []
    else (if critical(lines[0]) then [lines[0]] else []) + Filter(lines[1..], critical)
  }

  /** What a capture of the whole text should hold. */
  function Ideal(w: string, critical: string -> bool): Capture {
    Capture(Tail(w), Last(AllLines(w), MAX_LINES), Filter(AllLines(w), critical))
  }

  lemma NewlineIs(s: string, i: nat)
    requires i < |s| && s[i] == '\n' && forall k :: 0 <= k < i ==> s[k] != '\n'
    ensures Newline(s) == Some(i)
  {
  }

  lemma LastLast<T>(a: seq<T>, b: seq<T>, n: nat)
    ensures Last(Last(a, n) + b, n) == Last(a + b, n)
  {
  }

  lemma {:induction false} FilterAppend(a: seq<string>, b: seq<string>, critical: string -> bool)
    ensures Filter(a + b, critical) == Filter(a, critical) + Filter(b, critical)
  {
    if a == [] {
      assert a + b == b;
    } else {
      assert (a + b)[1..] == a[1..] + b;
      FilterAppend(a[1..], b, critical);
    }
  }

  lemma {:induction false} DrainIs(c: Capture, critical: string -> bool)
    requires |c.lines| <= MAX_LINES
    ensures Drain(c, critical)
            == Bound(Capture(Tail(c.buf), Last(c.lines + AllLines(c.buf), MAX_LINES),
                             c.logged + Filter(AllLines(c.buf), critical)))
    decreases |c.buf|
  {
    hide TrimSpace;
    match Newline(c.buf)
    case None =>
      assert c.lines + [] == c.lines && c.logged + [] == c.logged;
    case Some(i) =>
      DrainIs(TakeLine(c, i, critical), critical);
      LineThenRest(c, i, critical);
  }

  /** Storing one line and then all further ones is storing them all. */
  lemma LineThenRest(c: Capture, i: nat, critical: string -> bool)
    requires Newline(c.buf) == Some(i) && |c.lines| <= MAX_LINES
    ensures var d := TakeLine(c, i, critical);
            && d.buf == c.buf[i + 1..] && |d.lines| <= MAX_LINES
            && Last(d.lines + AllLines(d.buf), MAX_LINES) == Last(c.lines + AllLines(c.buf), MAX_LINES)
            && d.logged + Filter(AllLines(d.buf), critical) == c.logged + Filter(AllLines(c.buf), critical)
  {
    hide TrimSpace;
    var line, rest := TrimSpace(c.buf[..i]), AllLines(c.buf[i + 1..]);
    assert AllLines(c.buf) == Kept(c.buf[..i]) + rest;
    hide AllLines;
    if line == "" {
      assert [] + rest == rest;
    } else {
      OneMoreLine(c.lines, line, rest);
      OneMoreLogged(c.logged, line, rest, critical);
      hide Last;
      hide Filter;
    }
  }

  lemma OneMoreLine(lines: seq<string>, line: string, rest: seq<string>)
    ensures Last(Last(lines + [line], MAX_LINES) + rest, MAX_LINES) == Last(lines + ([line] + rest), MAX_LINES)
    ensures |Last(lines + [line], MAX_LINES)| <= MAX_LINES
  {
    LastLast(lines + [line], rest, MAX_LINES);
    assert lines + [line] + rest == lines + ([line] + rest);
  }

  lemma OneMoreLogged(logged: seq<string>, line: string, rest: seq<string>, critical: string -> bool)
    ensures logged + (if critical(line) then [line] else []) + Filter(rest, critical)
            == logged + Filter([line] + rest, critical)
  {
    var g := if critical(line) then [line] else [];
    assert ([line] + rest)[1..] == rest;
    assert logged + g + Filter(rest, critical) == logged + (g + Filter(rest, critical));
  }

  lemma LinesAt(w: string, i: nat)
    requires Newline(w) == Some(i)
    ensures AllLines(w) == Kept(w[..i]) + AllLines(w[i + 1..]) && Tail(w) == Tail(w[i + 1..])
  {
  }

  lemma NewlineStays(w: string, p: string, i: nat)
    requires Newline(w) == Some(i)
    ensures Newline(w + p) == Some(i) && (w + p)[..i] == w[..i] && (w + p)[i + 1..] == w[i + 1..] + p
  {
    NewlineIs(w + p, i);
  }

  lemma NoLines(w: string)
    requires Newline(w).None?
    ensures Tail(w) == w && AllLines(w) == []
  {
  }

  lemma Regroup(k: seq<string>, a: seq<string>, b: seq<string>)
    ensures k + (a + b) == (k + a) + b && [] + b == b
  {
  }

  /** What was written before matters only through its unterminated tail. */
  lemma {:induction false} AppendLines(w: string, p: string)
    ensures AllLines(w + p) == AllLines(w) + AllLines(Tail(w) + p) && Tail(w + p) == Tail(Tail(w) + p)
    decreases |w|
  {
    hide *;
    match Newline(w)
    case None =>
      NoLines(w);
      Regroup([], [], AllLines(w + p));
    case Some(i) =>
      var rest := w[i + 1..];
      LinesAt(w, i);
      NewlineStays(w, p, i);
      LinesAt(w + p, i);
      AppendLines(rest, p);
      Regroup(Kept(w[..i]), AllLines(rest), AllLines(Tail(rest) + p));
  }

  /** Writing onto an ideal capture gives the ideal one again, but for the bound on the rest. */
  lemma WriteIs(w: string, p: string, critical: string -> bool)
    ensures WriteTo(Ideal(w, critical), p, critical) == Bound(Ideal(w + p, critical))
  {
    hide Drain;
    hide AllLines;
    hide Filter;
    AppendLines(w, p);
    var c := Ideal(w, critical);
    DrainIs(c.(buf := c.buf + p), critical);
    LastLast(AllLines(w), AllLines(Tail(w) + p), MAX_LINES);
    FilterAppend(AllLines(w), AllLines(Tail(w) + p), critical);
  }

  /** One write keeps the capture ideal exactly if it leaves no more than 4096 unterminated bytes. */
  lemma WriteIdealIff(w: string, p: string, critical: string -> bool)
    ensures WriteTo(Ideal(w, critical), p, critical) == Ideal(w + p, critical) <==> |Tail(w + p)| <= MAX_BUF
  {
    WriteIs(w, p, critical);
  }

  /** Whatever is written, the rest stays bounded, and so do the lines. */
  lemma Bounded(c: Capture, p: string, critical: string -> bool)
    requires |c.lines| <= MAX_LINES
    ensures |WriteTo(c, p, critical).buf| <= MAX_BUF && |WriteTo(c, p, critical).lines| <= MAX_LINES
  {
    hide Drain;
    hide AllLines;
    hide Filter;
    hide Tail;
    DrainIs(c.(buf := c.buf + p), critical);
  }

  // ---------------------------------------------------------------- any way of cutting the output into writes

  function WriteAll(c: Capture, ps: seq<string>, critical: string -> bool): Capture
    decreases |ps|
  {
    if ps == [] then c else WriteAll(WriteTo(c, ps[0], critical), ps[1..], critical)
  }

  /** No write, on top of what was written before, leaves more than 4096 unterminated bytes. */
  predicate NeverOverflows(w: string, ps: seq<string>)
    decreases |ps|
  {
    ps == [] || (|Tail(w + ps[0])| <= MAX_BUF && NeverOverflows(w + ps[0], ps[1..]))
  }

  lemma {:induction false} WriteAllIs(w: string, ps: seq<string>, critical: string -> bool)
    requires NeverOverflows(w, ps)
    ensures WriteAll(Ideal(w, critical), ps, critical) == Ideal(w + Flatten(ps), critical)
    decreases |ps|
  {
    hide Ideal;
    hide WriteTo;
    if ps == [] {
      assert w + Flatten(ps) == w;
    } else {
      WriteIdealIff(w, ps[0], critical);
      WriteAllIs(w + ps[0], ps[1..], critical);
      assert w + ps[0] + Flatten(ps[1..]) == w + Flatten(ps);
    }
  }

  /**
   The capture does not depend on how the output was cut into writes: it holds the last 50 non-empty trimmed lines,
   the unterminated tail, and every critical line ever completed.
   */
  lemma CaptureIsIdeal(ps: seq<string>, critical: string -> bool)
    requires NeverOverflows("", ps)
    ensures WriteAll(Empty, ps, critical) == Ideal(Flatten(ps), critical)
  {
    assert Ideal("", critical) == Empty;
    WriteAllIs("", ps, critical);
    assert "" + Flatten(ps) == Flatten(ps);
  }
}
