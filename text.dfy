/**
 * String primitives the application relies on: substring containment (Python's
 * `pat in s`, used by the guide lookup), concatenation of template pieces
 * (the f-strings), and joining/splitting on newlines (`"\n".join` and its
 * inverse `str.split("\n")`).
 */
module Text {

  // ---------------------------------------------------------------------------
  // Substring containment
  // ---------------------------------------------------------------------------

  /** `pat` occurs in `s` starting at position `i`. */
  ghost predicate OccursAt(pat: string, s: string, i: nat) {
    i + |pat| <= |s| && s[i..i + |pat|] == pat
  }

  /** Reference definition of containment: some position of `s` starts a copy of `pat`. */
  ghost predicate Occurs(pat: string, s: string) {
    exists i: nat :: OccursAt(pat, s, i)
  }

  /** Whatever stands between a prefix and a suffix occurs in the whole. */
  lemma OccursBetween(a: string, x: string, b: string)
    ensures Occurs(x, a + x + b)
  {
    assert OccursAt(x, a + x + b, |a|);
  }

  /**
   * Executable containment test `pat in s`: slide along `s` and stop at the
   * first position that starts with `pat`. The empty pattern occurs everywhere,
   * as in Python.
   */
  function Contains(s: string, pat: string): (b: bool)
    ensures b <==> Occurs(pat, s)
    decreases |s|
  {
    if pat <= s then
      assert OccursAt(pat, s, 0);
      true
    else if |s| == 0 then
      false
    else
      var rest := Contains(s[1..], pat);
      ShiftOccurs(pat, s);
      rest
  }

  /** Containment in `s` away from position 0 is containment in `s[1..]`. */
  lemma ShiftOccurs(pat: string, s: string)
    requires |s| > 0 && !(pat <= s)
    ensures Occurs(pat, s) <==> Occurs(pat, s[1..])
  {
    if Occurs(pat, s) {
      var i: nat :| OccursAt(pat, s, i);
      assert OccursAt(pat, s[1..], i - 1);
    }
    if Occurs(pat, s[1..]) {
      var i: nat :| OccursAt(pat, s[1..], i);
      assert OccursAt(pat, s, i + 1);
    }
  }

  // ---------------------------------------------------------------------------
  // Concatenation of template pieces
  // ---------------------------------------------------------------------------

  /** The pieces of a template laid end to end. */
  function Concat(parts: seq<string>): string {
    if parts == [] then "" else parts[0] + Concat(parts[1..])
  }

  /** A concatenation splits around any one of its pieces. */
  lemma {:induction false} ConcatAround(parts: seq<string>, k: nat)
    requires k < |parts|
    ensures Concat(parts) == Concat(parts[..k]) + parts[k] + Concat(parts[k + 1..])
  {
    if k > 0 {
      ConcatAround(parts[1..], k - 1);
      assert parts[1..][..k - 1] == parts[1..k];
      assert parts[1..][k..] == parts[k + 1..];
      assert parts[..k] == [parts[0]] + parts[1..k];
      assert Concat(parts[..k]) == parts[0] + Concat(parts[1..k]);
    }
  }

  /** Every piece of a template occurs verbatim in the assembled text. */
  lemma PieceOccurs(parts: seq<string>, k: nat)
    requires k < |parts|
    ensures Occurs(parts[k], Concat(parts))
  {
    ConcatAround(parts, k);
    OccursBetween(Concat(parts[..k]), parts[k], Concat(parts[k + 1..]));
  }

  /** A value placed between a fixed prefix and a fixed suffix can be read back. */
  lemma {:induction false} CancelAround(a: string, x: string, y: string, b: string)
    requires a + x + b == a + y + b
    ensures x == y
  {
    var w := a + x + b;
    assert |x| == |y|;
    assert x == w[|a|..|a| + |x|];
    assert y == (a + y + b)[|a|..|a| + |y|];
  }

  /**
   * Two templates that agree on every piece but the `k`-th agree on that
   * piece too when they produce the same text: no interpolated value is lost.
   */
  lemma TemplateRecoversPiece(p: seq<string>, q: seq<string>, k: nat)
    requires |p| == |q| && k < |p|
    requires forall j :: 0 <= j < |p| && j != k ==> p[j] == q[j]
    requires Concat(p) == Concat(q)
    ensures p[k] == q[k]
  {
    ConcatAround(p, k);
    ConcatAround(q, k);
    assert p[..k] == q[..k];
    assert p[k + 1..] == q[k + 1..];
    CancelAround(Concat(p[..k]), p[k], q[k], Concat(p[k + 1..]));
  }

  // ---------------------------------------------------------------------------
  // Newline-separated text
  // ---------------------------------------------------------------------------

  /** `s` has no line break. */
  predicate SingleLine(s: string) {
    '\n' !in s
  }

  /** Python's `"\n".join(xs)`: the items in order, one separator between neighbours. */
  function JoinLines(xs: seq<string>): string {
    if |xs| == 0 then ""
    else if |xs| == 1 then xs[0]
    else xs[0] + "\n" + JoinLines(xs[1..])
  }

  /**
   * Python's `s.split("\n")`: the maximal newline-free runs of `s`, including
   * empty ones, so that the result is never empty (`"".split("\n") == [""]`).
   */
  function SplitLines(s: string): (r: seq<string>)
    ensures |r| >= 1
    ensures forall k :: 0 <= k < |r| ==> SingleLine(r[k])
    decreases |s|
  {
    if |s| == 0 then [""]
    else if s[0] == '\n' then [""] + SplitLines(s[1..])
    else
      var t := SplitLines(s[1..]);
      [[s[0]] + t[0]] + t[1..]
  }

  /** Splitting text that starts with a newline-free run glues that run to the first line. */
  lemma {:induction false} SplitAfterSingleLine(a: string, t: string)
    requires SingleLine(a)
    ensures SplitLines(a + t) == [a + SplitLines(t)[0]] + SplitLines(t)[1..]
  {
    if |a| > 0 {
      SplitAfterSingleLine(a[1..], t);
      var u, r := a + t, SplitLines(t);
      assert u[0] == a[0] && u[0] != '\n';
      assert u[1..] == a[1..] + t;
      var w := SplitLines(u[1..]);
      assert w[0] == a[1..] + r[0] && w[1..] == r[1..];
      assert SplitLines(u) == [[u[0]] + w[0]] + w[1..];
      assert [u[0]] + w[0] == a + r[0];
    } else {
      assert a + t == t;
      var r := SplitLines(t);
      assert a + r[0] == r[0];
      assert r == [r[0]] + r[1..];
    }
  }

  /** A line followed by a newline is split off as a line of its own. */
  lemma SplitFirstLine(a: string, rest: string)
    requires SingleLine(a)
    ensures SplitLines(a + "\n" + rest) == [a] + SplitLines(rest)
  {
    var nl := "\n" + rest;
    SplitAfterSingleLine(a, nl);
    assert nl[0] == '\n' && nl[1..] == rest;
    var r := SplitLines(nl);
    assert r == [""] + SplitLines(rest);
    assert r[0] == "" && r[1..] == SplitLines(rest);
    assert a + r[0] == a;
    assert a + "\n" + rest == a + nl;
  }

  /**
   * Round trip: joining answers with newlines and splitting the result gives
   * back the answers, in order and with empty answers kept, provided none
   * holds a newline and there is at least one.
   */
  lemma {:induction false} SplitJoin(xs: seq<string>)
    requires |xs| >= 1
    requires forall k :: 0 <= k < |xs| ==> SingleLine(xs[k])
    ensures SplitLines(JoinLines(xs)) == xs
  {
    if |xs| == 1 {
      SplitAfterSingleLine(xs[0], "");
      assert xs[0] + "" == xs[0];
    } else {
      SplitJoin(xs[1..]);
      SplitFirstLine(xs[0], JoinLines(xs[1..]));
    }
  }

  /** The other round trip: any text is rebuilt by joining its lines. */
  lemma {:induction false} JoinSplit(s: string)
    ensures JoinLines(SplitLines(s)) == s
    decreases |s|
  {
    if |s| > 0 {
      JoinSplit(s[1..]);
      var t := SplitLines(s[1..]);
      if s[0] == '\n' {
        assert SplitLines(s)[1..] == t;
      } else if |t| > 1 {
        assert JoinLines(t) == t[0] + "\n" + JoinLines(t[1..]);
        assert SplitLines(s)[1..] == t[1..];
        assert s == [s[0]] + s[1..];
      } else {
        assert s == [s[0]] + s[1..];
      }
    }
  }

  /** Joined single-line answers determine the answers: different answers, different text. */
  lemma JoinInjective(xs: seq<string>, ys: seq<string>)
    requires |xs| >= 1 && |ys| >= 1
    requires forall k :: 0 <= k < |xs| ==> SingleLine(xs[k])
    requires forall k :: 0 <= k < |ys| ==> SingleLine(ys[k])
    requires JoinLines(xs) == JoinLines(ys)
    ensures xs == ys
  {
    SplitJoin(xs);
    SplitJoin(ys);
  }

  /** The lines before an item of a join, with the line break that ends them. */
  function LinesBefore(ys: seq<string>): string {
    if ys == [] then "" else JoinLines(ys) + "\n"
  }

  /** The lines after an item of a join, with the line break that starts them. */
  function LinesAfter(zs: seq<string>): string {
    if zs == [] then "" else "\n" + JoinLines(zs)
  }

  /** An item put in front of the lines before another item. */
  lemma LinesBeforeCons(x: string, ys: seq<string>)
    ensures LinesBefore([x] + ys) == x + "\n" + LinesBefore(ys)
  {
    if ys != [] {
      assert ([x] + ys)[1..] == ys;
    }
  }

  /** A non-empty join is its first item followed by the lines after it. */
  lemma JoinFirst(xs: seq<string>)
    requires |xs| >= 1
    ensures JoinLines(xs) == xs[0] + LinesAfter(xs[1..])
  {
    if |xs| == 1 {
      assert xs[1..] == [];
      assert xs[0] + "" == xs[0];
    } else {
      assert xs[1..] != [];
      assert LinesAfter(xs[1..]) == "\n" + JoinLines(xs[1..]);
      assert JoinLines(xs) == xs[0] + ("\n" + JoinLines(xs[1..]));
    }
  }

  /** A join splits around any one of its items. */
  lemma {:induction false} JoinAround(xs: seq<string>, k: nat)
    requires k < |xs|
    ensures JoinLines(xs) == LinesBefore(xs[..k]) + xs[k] + LinesAfter(xs[k + 1..])
  {
    assert xs == xs[..k] + [xs[k]] + xs[k + 1..];
    JoinSplice(xs[..k], xs[k], xs[k + 1..]);
  }

  /** The join of `ys`, then `x`, then `zs`, is `x` between the lines of each side. */
  lemma {:induction false} JoinSplice(ys: seq<string>, x: string, zs: seq<string>)
    ensures JoinLines(ys + [x] + zs) == LinesBefore(ys) + x + LinesAfter(zs)
    decreases |ys|
  {
    if ys == [] {
      assert ys + [x] + zs == [x] + zs;
      assert ([x] + zs)[1..] == zs;
      JoinFirst([x] + zs);
    } else {
      var rest := ys[1..];
      var b, a := LinesBefore(rest), LinesAfter(zs);
      var xs := ys + [x] + zs;
      assert xs[0] == ys[0] && xs[1..] == rest + [x] + zs;
      assert JoinLines(xs) == ys[0] + LinesAfter(rest + [x] + zs) by {
        JoinFirst(xs);
      }
      assert LinesAfter(rest + [x] + zs) == "\n" + JoinLines(rest + [x] + zs) by {
        assert |rest + [x] + zs| > 0;
      }
      JoinSplice(rest, x, zs);
      assert LinesBefore(ys) == ys[0] + "\n" + b by {
        assert ys == [ys[0]] + rest;
        LinesBeforeCons(ys[0], rest);
      }
      PrependLine(JoinLines(xs), ys[0], LinesAfter(rest + [x] + zs), JoinLines(rest + [x] + zs), b, x, a);
    }
  }

  /**
   * A line followed by a line break and a three-part string is the line, the
   * break and the first part, followed by the other two.
   */
  lemma PrependLine(whole: string, line: string, tail: string, joined: string, b: string, x: string, a: string)
    requires whole == line + tail && tail == "\n" + joined && joined == b + x + a
    ensures whole == (line + "\n" + b) + x + a
  {
  }


  /** An occurrence in `s` is still one, further on, once `p` is put in front. */
  lemma OccursAfterPrefix(pat: string, p: string, s: string, i: nat)
    requires OccursAt(pat, s, i)
    ensures OccursAt(pat, p + s, |p| + i)
  {
    assert (p + s)[|p| + i..|p| + i + |pat|] == s[i..i + |pat|];
  }

  /** Every item occurs verbatim in the joined text. */
  lemma {:induction false} ItemOccursInJoin(xs: seq<string>, k: nat)
    requires k < |xs|
    ensures Occurs(xs[k], JoinLines(xs))
  {
    if |xs| == 1 {
      OccursBetween("", xs[0], "");
      assert "" + xs[0] + "" == xs[0];
    } else if k == 0 {
      OccursBetween("", xs[0], "\n" + JoinLines(xs[1..]));
      assert "" + xs[0] + ("\n" + JoinLines(xs[1..])) == JoinLines(xs);
    } else {
      var rest := xs[1..];
      assert rest[k - 1] == xs[k];
      ItemOccursInJoin(rest, k - 1);
      var i: nat :| OccursAt(xs[k], JoinLines(rest), i);
      var p := xs[0] + "\n";
      assert JoinLines(xs) == p + JoinLines(rest);
      OccursAfterPrefix(xs[k], p, JoinLines(rest), i);
    }
  }
}
