/** Python's ordering of strings (code point by code point, a proper prefix first)
    and `sorted(set(...))` over it. */
module Order {

  /** `a < b` on Python strings. */
  predicate LexLess(a: string, b: string)
    decreases |a|
  {
    if |a| == 0 then |b| > 0
    else |b| > 0 && (a[0] < b[0] || (a[0] == b[0] && LexLess(a[1..], b[1..])))
  }

  lemma {:induction false} LexLessIrreflexive(a: string)
    ensures !LexLess(a, a)
    decreases |a|
  {
    if |a| > 0 { LexLessIrreflexive(a[1..]); }
  }

  lemma {:induction false} LexLessTransitive(a: string, b: string, c: string)
    requires LexLess(a, b) && LexLess(b, c)
    ensures LexLess(a, c)
    decreases |a|
  {
    if |a| > 0 && a[0] == b[0] && b[0] == c[0] {
      LexLessTransitive(a[1..], b[1..], c[1..]);
    }
  }

  lemma {:induction false} LexLessTotal(a: string, b: string)
    requires a != b
    ensures LexLess(a, b) || LexLess(b, a)
    decreases |a|
  {
    if |a| > 0 && |b| > 0 && a[0] == b[0] {
      assert a == [a[0]] + a[1..] && b == [b[0]] + b[1..];
      LexLessTotal(a[1..], b[1..]);
    }
  }

  lemma LexLessAsymmetric(a: string, b: string)
    requires LexLess(a, b)
    ensures !LexLess(b, a)
  {
    if LexLess(b, a) {
      LexLessTransitive(a, b, a);
      LexLessIrreflexive(a);
    }
  }

  /** A common prefix does not change the order. */
  lemma {:induction false} LexLessCommonPrefix(p: string, a: string, b: string)
    requires LexLess(a, b)
    ensures LexLess(p + a, p + b)
    decreases |p|
  {
    if |p| > 0 {
      LexLessCommonPrefix(p[1..], a, b);
      assert (p + a)[1..] == p[1..] + a && (p + b)[1..] == p[1..] + b;
    } else {
      assert p + a == a && p + b == b;
    }
  }

  /** Strictly increasing, hence free of duplicates. */
  predicate StrictlySorted(xs: seq<string>) {
    forall i, j :: 0 <= i < j < |xs| ==> LexLess(xs[i], xs[j])
  }

  /** The values of a sequence, as a set. */
  function Elems(xs: seq<string>): set<string> {
    set x | x in xs
  }

  lemma ElemsAppend(a: seq<string>, b: seq<string>)
    ensures Elems(a + b) == Elems(a) + Elems(b)
  {
  }

  lemma ElemsSnoc(a: seq<string>, x: string)
    ensures Elems(a + [x]) == Elems(a) + {x}
  {
    ElemsAppend(a, [x]);
    assert Elems([x]) == {x};
  }

  lemma ElemsEmpty(xs: seq<string>)
    ensures Elems(xs) == {} <==> |xs| == 0
  {
    if |xs| > 0 {
      assert xs[0] in Elems(xs);
    }
  }

  /** Inserting a value into a strictly sorted sequence, ignoring it when present. */
  function InsertSorted(xs: seq<string>, x: string): (r: seq<string>)
    decreases |xs|
  {
    if |xs| == 0 then [x]
    else if xs[0] == x then xs
    else if LexLess(x, xs[0]) then [x] + xs
    else [xs[0]] + InsertSorted(xs[1..], x)
  }

  lemma {:induction false} InsertSortedSpec(xs: seq<string>, x: string)
    requires StrictlySorted(xs)
    ensures StrictlySorted(InsertSorted(xs, x))
    ensures Elems(InsertSorted(xs, x)) == Elems(xs) + {x}
    decreases |xs|
  {
    if |xs| == 0 {
      assert Elems([x]) == {x};
    } else if xs[0] == x {
      assert x in Elems(xs);
    } else if LexLess(x, xs[0]) {
      forall k | 0 <= k < |xs| ensures LexLess(x, xs[k]) {
        if k > 0 { LexLessTransitive(x, xs[0], xs[k]); }
      }
      PrependSorted(x, xs);
      ElemsCons(x, xs);
    } else {
      LexLessTotal(x, xs[0]);
      var tail := xs[1..];
      SortedTail(xs);
      InsertSortedSpec(tail, x);
      var t := InsertSorted(tail, x);
      forall k | 0 <= k < |tail| ensures LexLess(xs[0], tail[k]) {
        assert tail[k] == xs[k + 1];
      }
      AllAbove(xs[0], tail, t, x);
      PrependSorted(xs[0], t);
      assert xs == [xs[0]] + tail;
      ElemsCons(xs[0], t);
      ElemsCons(xs[0], tail);
    }
  }

  /** A value below every value of `ys` and below `x` is below every value of a
      sequence holding the values of `ys` and `x`. */
  lemma AllAbove(y: string, ys: seq<string>, zs: seq<string>, x: string)
    requires forall k :: 0 <= k < |ys| ==> LexLess(y, ys[k])
    requires LexLess(y, x) && Elems(zs) == Elems(ys) + {x}
    ensures forall k :: 0 <= k < |zs| ==> LexLess(y, zs[k])
  {
    forall k | 0 <= k < |zs| ensures LexLess(y, zs[k]) {
      assert zs[k] in Elems(zs);
      if zs[k] != x {
        assert zs[k] in Elems(ys);
        var m :| 0 <= m < |ys| && ys[m] == zs[k];
      }
    }
  }

  lemma SortedTail(xs: seq<string>)
    requires StrictlySorted(xs) && |xs| > 0
    ensures StrictlySorted(xs[1..])
  {
    var tail := xs[1..];
    forall i, j | 0 <= i < j < |tail| ensures LexLess(tail[i], tail[j]) {
      assert tail[i] == xs[i + 1] && tail[j] == xs[j + 1];
    }
  }

  lemma ElemsCons(x: string, t: seq<string>)
    ensures Elems([x] + t) == Elems(t) + {x}
  {
    ElemsAppend([x], t);
    assert Elems([x]) == {x};
  }

  /** A value below every value of a strictly sorted sequence may go in front. */
  lemma PrependSorted(x: string, rest: seq<string>)
    requires StrictlySorted(rest)
    requires forall k :: 0 <= k < |rest| ==> LexLess(x, rest[k])
    ensures StrictlySorted([x] + rest)
  {
    var r := [x] + rest;
    forall i, j | 0 <= i < j < |r| ensures LexLess(r[i], r[j]) {
      assert r[j] == rest[j - 1];
      if i > 0 {
        assert r[i] == rest[i - 1];
      }
    }
  }

  /** `sorted(set(xs))`, as a reference definition by insertion. */
  function SortedSet(xs: seq<string>): seq<string>
    decreases |xs|
  {
    if |xs| == 0 then [] else InsertSorted(SortedSet(xs[..|xs| - 1]), xs[|xs| - 1])
  }

  lemma {:induction false} SortedSetSpec(xs: seq<string>)
    ensures StrictlySorted(SortedSet(xs))
    ensures Elems(SortedSet(xs)) == Elems(xs)
    decreases |xs|
  {
    if |xs| > 0 {
      var n := |xs| - 1;
      SortedSetSpec(xs[..n]);
      InsertSortedSpec(SortedSet(xs[..n]), xs[n]);
      assert xs == xs[..n] + [xs[n]];
      ElemsAppend(xs[..n], [xs[n]]);
    }
  }

  /** A strictly sorted sequence is determined by its set of values. */
  lemma {:induction false} StrictlySortedUnique(a: seq<string>, b: seq<string>)
    requires StrictlySorted(a) && StrictlySorted(b) && Elems(a) == Elems(b)
    ensures a == b
    decreases |a|
  {
    ElemsEmpty(a);
    ElemsEmpty(b);
    if |a| > 0 {
      assert a[0] in Elems(b);
      assert a[0] == b[0] by {
        assert b[0] in Elems(b);
        var i :| 0 <= i < |a| && a[i] == b[0];
        var j :| 0 <= j < |b| && b[j] == a[0];
        if i > 0 && j > 0 {
          LexLessAsymmetric(a[0], a[i]);
        }
      }
      forall x ensures x in Elems(a[1..]) <==> x in Elems(b[1..]) {
        if x in Elems(a[1..]) {
          var i :| 1 <= i < |a| && a[i] == x;
          assert LexLess(a[0], x);
          LexLessIrreflexive(x);
          assert x in Elems(b);
          assert x != b[0];
        }
        if x in Elems(b[1..]) {
          var j :| 1 <= j < |b| && b[j] == x;
          assert LexLess(b[0], x);
          LexLessIrreflexive(x);
          assert x in Elems(a);
          assert x != a[0];
        }
      }
      StrictlySortedUnique(a[1..], b[1..]);
      assert a == [a[0]] + a[1..] && b == [b[0]] + b[1..];
    }
  }

  /** `m` is the least value of `s`. */
  predicate IsLeast(m: string, s: set<string>) {
    m in s && forall y :: y in s && y != m ==> LexLess(m, y)
  }

  /** A non-empty finite set of strings has a least element. */
  lemma LeastExists(s: set<string>)
    requires s != {}
    ensures exists m :: IsLeast(m, s)
    decreases |s|
  {
    var x :| x in s;
    if s - {x} == {} {
      assert s == {x};
      assert IsLeast(x, s);
    } else {
      LeastExists(s - {x});
      var m :| IsLeast(m, s - {x});
      LeastAdd(m, x, s);
    }
  }

  /** Adding a value back: the least is either that value or the old least. */
  lemma LeastAdd(m: string, x: string, s: set<string>)
    requires x in s && IsLeast(m, s - {x})
    ensures IsLeast(x, s) || IsLeast(m, s)
  {
    LexLessTotal(m, x);
    if LexLess(x, m) {
      forall y | y in s && y != x ensures LexLess(x, y) {
        if y != m { LexLessTransitive(x, m, y); }
      }
    } else {
      forall y | y in s && y != m ensures LexLess(m, y) {
        if y != x { assert y in s - {x}; }
      }
    }
  }

  /** Moving the least remaining value to the end of the output keeps the
      loop's invariants. */
  lemma SortStep(r: seq<string>, rest: set<string>, s: set<string>, m: string)
    requires StrictlySorted(r) && Elems(r) + rest == s
    requires forall x, y :: x in r && y in rest ==> LexLess(x, y)
    requires IsLeast(m, rest)
    ensures StrictlySorted(r + [m]) && Elems(r + [m]) + (rest - {m}) == s
    ensures forall x, y :: x in r + [m] && y in rest - {m} ==> LexLess(x, y)
    ensures |rest - {m}| < |rest|
  {
    SortedSnoc(r, m);
    ElemsAppend(r, [m]);
    assert Elems([m]) == {m};
    forall x, y | x in r + [m] && y in rest - {m} ensures LexLess(x, y) {
      if x != m {
        assert x in r;
      }
    }
    assert rest == (rest - {m}) + {m};
  }

  lemma SortedSnoc(r: seq<string>, m: string)
    requires StrictlySorted(r)
    requires forall x :: x in r ==> LexLess(x, m)
    ensures StrictlySorted(r + [m])
  {
    var t := r + [m];
    forall i, j | 0 <= i < j < |t| ensures LexLess(t[i], t[j]) {
      assert t[i] == r[i] && r[i] in r;
      if j < |r| {
        assert t[j] == r[j];
      }
    }
  }

  /** `sorted(s)` for a Python set: takes the least remaining value until none is left. */
  method SortSet(s: set<string>) returns (r: seq<string>)
    ensures StrictlySorted(r)
    ensures Elems(r) == s
  {
    r := [];
    var rest := s;
    while rest != {}
      invariant StrictlySorted(r)
      invariant Elems(r) + rest == s
      invariant forall x, y :: x in r && y in rest ==> LexLess(x, y)
      decreases |rest|
    {
      LeastExists(rest);
      var m :| IsLeast(m, rest);
      SortStep(r, rest, s, m);
      r := r + [m];
      rest := rest - {m};
    }
  }
}
