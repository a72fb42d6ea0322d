/** Longest common subsequences, the yardstick every exact diff is measured against.

    The reference notion is an *alignment*: index pairs that increase on both sides and
    join equal elements.  `Lcs` is the textbook recursion; the lemmas below prove that it
    is the length of a longest alignment, and then everything a divide-and-conquer diff
    needs (reversal, the recursion from the other end, splitting, trimming) follows from
    that characterization. */
module Alignment {
  import opened Ints

  datatype Pair = Pair(i: nat, j: nat)

  /** Length of a longest common subsequence of `a` and `b`. */
  function Lcs<T(==)>(a: seq<T>, b: seq<T>): nat
    decreases |a| + |b|
  {
    if a == [] || b == [] then 0
    else if a[0] == b[0] then 1 + Lcs(a[1..], b[1..])
    else Max(Lcs(a[1..], b), Lcs(a, b[1..]))
  }

  /** One cell of the usual table. */
  lemma {:induction false} LcsStep<T>(a: seq<T>, i: nat, b: seq<T>, j: nat)
    requires i <= |a| && j <= |b|
    ensures i == |a| || j == |b| ==> Lcs(a[i..], b[j..]) == 0
    ensures i < |a| && j < |b| ==>
      (Lcs(a[i..], b[j..]) ==
       if a[i] == b[j] then Lcs(a[i + 1..], b[j + 1..]) + 1 else Max(Lcs(a[i + 1..], b[j..]), Lcs(a[i..], b[j + 1..])))
  {
    if i < |a| && j < |b| {
      assert a[i..][1..] == a[i + 1..] && b[j..][1..] == b[j + 1..];
    }
  }

  ghost predicate Joins<T>(pr: Pair, a: seq<T>, b: seq<T>) {
    pr.i < |a| && pr.j < |b| && a[pr.i] == b[pr.j]
  }

  ghost predicate Before(x: Pair, y: Pair) {
    x.i < y.i && x.j < y.j
  }

  /** `p` pairs equal elements of `a` and `b`, in increasing order on both sides. */
  ghost predicate IsAlignment<T>(p: seq<Pair>, a: seq<T>, b: seq<T>) {
    && (forall k :: 0 <= k < |p| ==> Joins(p[k], a, b))
    && (forall k, l :: 0 <= k < l < |p| ==> Before(p[k], p[l]))
  }

  /** `p` moved down by the given amounts, into the suffixes that start there. */
  ghost function Drop<T>(p: seq<Pair>, m: nat, n: nat, a: seq<T>, b: seq<T>): (r: seq<Pair>)
    requires IsAlignment(p, a, b) && m <= |a| && n <= |b|
    requires p != [] ==> p[0].i >= m && p[0].j >= n
    ensures |r| == |p| && IsAlignment(r, a[m..], b[n..])
  {
    forall k | 0 <= k < |p| ensures p[k].i >= m && p[k].j >= n {
      assert k > 0 ==> Before(p[0], p[k]);
    }
    var r := seq(|p|, k requires 0 <= k < |p| => Pair(p[k].i - m, p[k].j - n));
    forall k, l | 0 <= k < l < |p| ensures Before(r[k], r[l]) {
      assert Before(p[k], p[l]);
    }
    forall k | 0 <= k < |p| ensures Joins(r[k], a[m..], b[n..]) {
      assert Joins(p[k], a, b);
    }
    r
  }

  /** The inverse of `Drop`: an alignment of two suffixes, seen from the whole. */
  ghost function Lift<T>(p: seq<Pair>, a1: seq<T>, a2: seq<T>, b1: seq<T>, b2: seq<T>): (r: seq<Pair>)
    requires IsAlignment(p, a2, b2)
    ensures |r| == |p| && IsAlignment(r, a1 + a2, b1 + b2)
    ensures forall k :: 0 <= k < |r| ==> r[k].i >= |a1| && r[k].j >= |b1|
  {
    var r := seq(|p|, k requires 0 <= k < |p| => Pair(|a1| + p[k].i, |b1| + p[k].j));
    forall k, l | 0 <= k < l < |p| ensures Before(r[k], r[l]) {
      assert Before(p[k], p[l]);
    }
    forall k | 0 <= k < |p| ensures Joins(r[k], a1 + a2, b1 + b2) {
      assert Joins(p[k], a2, b2);
    }
    r
  }

  /** No alignment is longer than `Lcs`. */
  lemma {:induction false} AlignmentBound<T>(p: seq<Pair>, a: seq<T>, b: seq<T>)
    requires IsAlignment(p, a, b)
    ensures |p| <= Lcs(a, b)
    decreases |a| + |b|
  {
    if p == [] {
    } else {
      assert Joins(p[0], a, b);
      if a[0] == b[0] {
        assert |p| > 1 ==> Before(p[0], p[1]);
        AlignmentBound(Drop(p[1..], 1, 1, a, b), a[1..], b[1..]);
      } else if p[0].i > 0 {
        AlignmentBound(Drop(p, 1, 0, a, b), a[1..], b);
      } else {
        AlignmentBound(Drop(p, 0, 1, a, b), a, b[1..]);
      }
    }
  }

  /** Which of the two sides is called the first makes no difference. */
  lemma {:induction false} LcsSymmetric<T>(a: seq<T>, b: seq<T>)
    ensures Lcs(a, b) == Lcs(b, a)
    decreases |a| + |b|
  {
    if a != [] && b != [] {
      LcsSymmetric(a[1..], b[1..]);
      LcsSymmetric(a[1..], b);
      LcsSymmetric(a, b[1..]);
    }
  }

  /** Nothing has more in common than its shorter side. */
  lemma {:induction false} LcsFits<T>(a: seq<T>, b: seq<T>)
    ensures Lcs(a, b) <= |a| && Lcs(a, b) <= |b|
    decreases |a| + |b|
  {
    if a != [] && b != [] {
      LcsFits(a[1..], b[1..]);
      LcsFits(a[1..], b);
      LcsFits(a, b[1..]);
    }
  }

  /** Two equal first elements, in front of an alignment of what follows them. */
  lemma {:induction false} PairInFront<T>(p: seq<Pair>, a: seq<T>, b: seq<T>)
    requires IsAlignment(p, a, b) && a != [] && b != [] && a[0] == b[0]
    requires forall k :: 0 <= k < |p| ==> p[k].i >= 1 && p[k].j >= 1
    ensures IsAlignment([Pair(0, 0)] + p, a, b)
  {
    var q := [Pair(0, 0)] + p;
    forall k | 0 <= k < |q| ensures Joins(q[k], a, b) {
      assert k > 0 ==> q[k] == p[k - 1];
    }
    forall k, l | 0 <= k < l < |q| ensures Before(q[k], q[l]) {
      assert q[l] == p[l - 1] && (k > 0 ==> q[k] == p[k - 1]);
    }
  }

  /** Some alignment is exactly `Lcs` long. */
  lemma {:induction false} AlignmentWitness<T>(a: seq<T>, b: seq<T>) returns (p: seq<Pair>)
    ensures IsAlignment(p, a, b) && |p| == Lcs(a, b)
    decreases |a| + |b|
  {
    hide Lift;
    if a == [] || b == [] {
      p := [];
    } else if a[0] == b[0] {
      var q := AlignmentWitness(a[1..], b[1..]);
      assert a[..1] + a[1..] == a && b[..1] + b[1..] == b;
      var rest := Lift(q, a[..1], a[1..], b[..1], b[1..]);
      p := [Pair(0, 0)] + rest;
      PairInFront(rest, a, b);
    } else if Lcs(a[1..], b) >= Lcs(a, b[1..]) {
      var q := AlignmentWitness(a[1..], b);
      p := Lift(q, a[..1], a[1..], [], b);
      assert a[..1] + a[1..] == a && [] + b == b;
    } else {
      var q := AlignmentWitness(a, b[1..]);
      p := Lift(q, [], a, b[..1], b[1..]);
      assert b[..1] + b[1..] == b && [] + a == a;
    }
  }

  function Reverse<T>(s: seq<T>): (r: seq<T>)
    ensures |r| == |s|
    ensures forall k :: 0 <= k < |s| ==> r[k] == s[|s| - 1 - k]
  {
    seq(|s|, k requires 0 <= k < |s| => s[|s| - 1 - k])
  }

  ghost predicate Within(p: seq<Pair>, m: nat, n: nat) {
    forall k :: 0 <= k < |p| ==> p[k].i < m && p[k].j < n
  }

  /** A pair of indices, counted from the other ends. */
  ghost function Flip(pr: Pair, m: nat, n: nat): Pair
    requires pr.i < m && pr.j < n
  {
    Pair(m - 1 - pr.i, n - 1 - pr.j)
  }

  /** The same pairs, counted from the other ends and in the opposite order. */
  ghost function Mirror(p: seq<Pair>, m: nat, n: nat): (q: seq<Pair>)
    requires Within(p, m, n)
    ensures |q| == |p| && forall k :: 0 <= k < |p| ==> q[k] == Flip(p[|p| - 1 - k], m, n)
  {
    seq(|p|, k requires 0 <= k < |p| => Flip(p[|p| - 1 - k], m, n))
  }

  lemma {:induction false} MirrorAligns<T>(p: seq<Pair>, a: seq<T>, b: seq<T>)
    requires IsAlignment(p, a, b)
    ensures Within(p, |a|, |b|) && IsAlignment(Mirror(p, |a|, |b|), Reverse(a), Reverse(b))
  {
    hide Mirror, Reverse;
    var n := |p|;
    forall k | 0 <= k < n ensures p[k].i < |a| && p[k].j < |b| {
      assert Joins(p[k], a, b);
    }
    var q := Mirror(p, |a|, |b|);
    forall k, l | 0 <= k < l < n ensures Before(q[k], q[l]) {
      assert Before(p[n - 1 - l], p[n - 1 - k]);
    }
    forall k | 0 <= k < n ensures Joins(q[k], Reverse(a), Reverse(b)) {
      assert Joins(p[n - 1 - k], a, b);
    }
  }

  lemma {:induction false} ReverseLe<T>(a: seq<T>, b: seq<T>)
    ensures Lcs(a, b) <= Lcs(Reverse(a), Reverse(b))
  {
    var p := AlignmentWitness(a, b);
    MirrorAligns(p, a, b);
    AlignmentBound(Mirror(p, |a|, |b|), Reverse(a), Reverse(b));
  }

  /** Reading both sides backwards changes nothing. */
  lemma {:induction false} ReverseLcs<T>(a: seq<T>, b: seq<T>)
    ensures Lcs(Reverse(a), Reverse(b)) == Lcs(a, b)
  {
    ReverseLe(a, b);
    ReverseLe(Reverse(a), Reverse(b));
    assert Reverse(Reverse(a)) == a && Reverse(Reverse(b)) == b;
  }

  /** The recursion of `Lcs`, from the last elements. */
  lemma {:induction false} LcsFromTheEnd<T>(a: seq<T>, x: T, b: seq<T>, y: T)
    ensures x == y ==> Lcs(a + [x], b + [y]) == Lcs(a, b) + 1
    ensures x != y ==> Lcs(a + [x], b + [y]) == Max(Lcs(a, b + [y]), Lcs(a + [x], b))
  {
    var ra, rb := Reverse(a + [x]), Reverse(b + [y]);
    ReverseLcs(a + [x], b + [y]);
    ReverseLcs(a, b);
    ReverseLcs(a, b + [y]);
    ReverseLcs(a + [x], b);
    assert ra[0] == x && ra[1..] == Reverse(a);
    assert rb[0] == y && rb[1..] == Reverse(b);
  }

  /** Two halves aligned separately never beat the whole. */
  lemma {:induction false} SplitBound<T>(a1: seq<T>, a2: seq<T>, b1: seq<T>, b2: seq<T>)
    ensures Lcs(a1, b1) + Lcs(a2, b2) <= Lcs(a1 + a2, b1 + b2)
  {
    var p := AlignmentWitness(a1, b1);
    var q := AlignmentWitness(a2, b2);
    var r := p + Lift(q, a1, a2, b1, b2);
    forall k | 0 <= k < |p| ensures Joins(r[k], a1 + a2, b1 + b2) {
      assert Joins(p[k], a1, b1);
    }
    AlignmentBound(r, a1 + a2, b1 + b2);
  }

  /** Some split of `b` loses nothing. */
  lemma {:induction false} SplitWitness<T>(a1: seq<T>, a2: seq<T>, b: seq<T>) returns (j: nat)
    ensures j <= |b|
    ensures Lcs(a1, b[..j]) + Lcs(a2, b[j..]) == Lcs(a1 + a2, b)
  {
    var p := AlignmentWitness(a1 + a2, b);
    var c := 0;
    while c < |p| && p[c].i < |a1|
      invariant 0 <= c <= |p|
      invariant forall k :: 0 <= k < c ==> p[k].i < |a1|
    {
      c := c + 1;
    }
    j := if c == 0 then 0 else p[c - 1].j + 1;
    assert c > 0 ==> Joins(p[c - 1], a1 + a2, b);
    assert 0 < c < |p| ==> Before(p[c - 1], p[c]);
    forall k | 0 <= k < c ensures Joins(p[k], a1, b[..j]) {
      assert Joins(p[k], a1 + a2, b);
      assert k < c - 1 ==> Before(p[k], p[c - 1]);
    }
    hide Lcs, Drop;
    AlignmentBound(p[..c], a1, b[..j]);
    AlignmentBound(Drop(p[c..], |a1|, j, a1 + a2, b), a2, b[j..]) by {
      assert (a1 + a2)[|a1|..] == a2;
    }
    SplitBound(a1, a2, b[..j], b[j..]);
    assert b[..j] + b[j..] == b;
  }

  /** A common first element may always be matched, so trimming a common prefix is free. */
  lemma {:induction false} PrefixTrim<T>(c: seq<T>, a: seq<T>, b: seq<T>)
    ensures Lcs(c + a, c + b) == |c| + Lcs(a, b)
  {
    if c == [] {
      assert c + a == a && c + b == b;
    } else {
      PrefixTrim(c[1..], a, b);
      assert (c + a)[1..] == c[1..] + a && (c + b)[1..] == c[1..] + b;
    }
  }

  /** Likewise for a common suffix. */
  lemma {:induction false} SuffixTrim<T>(a: seq<T>, b: seq<T>, c: seq<T>)
    ensures Lcs(a + c, b + c) == Lcs(a, b) + |c|
  {
    ReverseLcs(a + c, b + c);
    ReverseLcs(a, b);
    assert Reverse(a + c) == Reverse(c) + Reverse(a);
    assert Reverse(b + c) == Reverse(c) + Reverse(b);
    PrefixTrim(Reverse(c), Reverse(a), Reverse(b));
  }
}
