/** Line-level diff: common ends trimmed, then a dense LCS table, Hirschberg's linear-space
    recursion, or a coarse fallback past a time budget. */
module Diff {
  import opened Alignment
  import opened DiffScript
  import opened Ints
  import opened Lines
  import opened Text

  datatype Stats = Stats(adds: nat, dels: nat, ctx: nat)

  const SPACE_THRESHOLD := 4_000_000
  const TIME_BUDGET_CELLS := 25_000_000

  method Tally(lines: seq<DiffLine>) returns (s: Stats)
    ensures s == Stats(Count(lines, Add), Count(lines, Del), Count(lines, Ctx))
  {
    s := Stats(0, 0, 0);
    for i := 0 to |lines|
      invariant s == Stats(Count(lines[..i], Add), Count(lines[..i], Del), Count(lines[..i], Ctx))
    {
      var l := lines[i];
      assert lines[..i + 1] == lines[..i] + [l];
      Push(lines[..i], l);
      match l.kind
      case Add => s := s.(adds := s.adds + 1);
      case Del => s := s.(dels := s.dels + 1);
      case Ctx => s := s.(ctx := s.ctx + 1);
    }
    assert lines[..|lines|] == lines;
  }

  /** Cell `(i, j)` of `t` is the LCS length of the two suffixes that start there. */
  ghost predicate IsTable(t: array2<nat>, a: seq<string>, b: seq<string>)
    reads t
  {
    && t.Length0 == |a| + 1 && t.Length1 == |b| + 1
    && forall i, j :: 0 <= i <= |a| && 0 <= j <= |b| ==> t[i, j] == Lcs(a[i..], b[j..])
  }

  /** The dense table, filled from the last row up and from the last column back. */
  method LcsTable(a: seq<string>, b: seq<string>) returns (t: array2<nat>)
    ensures IsTable(t, a, b)
  {
    hide Lcs;
    t := new nat[|a| + 1, |b| + 1]((i, j) => 0);
    forall i, j | 0 <= i <= |a| && 0 <= j <= |b| && (i == |a| || j == |b|) ensures Lcs(a[i..], b[j..]) == 0 {
      LcsStep(a, i, b, j);
    }
    for i := |a| downto 0
      invariant forall i', j' :: i <= i' <= |a| && 0 <= j' <= |b| ==> t[i', j'] == Lcs(a[i'..], b[j'..])
      invariant forall i', j' :: 0 <= i' < i && 0 <= j' <= |b| ==> t[i', j'] == 0
    {
      for j := |b| downto 0
        invariant forall i', j' :: i < i' <= |a| && 0 <= j' <= |b| ==> t[i', j'] == Lcs(a[i'..], b[j'..])
        invariant forall j' :: j <= j' <= |b| ==> t[i, j'] == Lcs(a[i..], b[j'..])
        invariant forall i', j' :: 0 <= i' < i && 0 <= j' <= |b| ==> t[i', j'] == 0
      {
        LcsStep(a, i, b, j);
        if a[i] == b[j] {
          t[i, j] := t[i + 1, j + 1] + 1;
        } else {
          t[i, j] := Max(t[i + 1, j], t[i, j + 1]);
        }
      }
    }
  }

  lemma {:induction false} NothingInCommon(a: seq<string>, b: seq<string>)
    requires a == [] && b == []
    ensures forall x: seq<string> {:trigger Lcs(a, x)} :: Lcs(a, x) == 0
    ensures forall x: seq<string> {:trigger Lcs(x, b)} :: Lcs(x, b) == 0
  {
  }

  /** The LCS length of `a[aLo..aHi]` against every prefix of `b[bLo..bHi]`, on two rolling rows. */
  method LcsLastRow(a: seq<string>, aLo: nat, aHi: nat, b: seq<string>, bLo: nat, bHi: nat)
    returns (prev: array<nat>)
    requires aLo <= aHi <= |a| && bLo <= bHi <= |b|
    ensures prev.Length == bHi - bLo + 1
    ensures forall k :: 0 <= k < prev.Length ==> prev[k] == Lcs(a[aLo..aHi], b[bLo..bLo + k])
  {
    hide Lcs;
    var cols := bHi - bLo;
    NothingInCommon(a[aLo..aLo], b[bLo..bLo]);
    prev := new nat[cols + 1](_ => 0);
    var curr := new nat[cols + 1](_ => 0);
    for i := aLo to aHi
      invariant prev.Length == curr.Length == cols + 1 && prev != curr
      invariant fresh(prev) && fresh(curr)
      invariant forall k :: 0 <= k <= cols ==> prev[k] == Lcs(a[aLo..i], b[bLo..bLo + k])
      invariant forall k :: 0 <= k <= cols ==> curr[k] == 0
    {
      for j := bLo to bHi
        invariant forall k :: 0 <= k <= cols ==> prev[k] == Lcs(a[aLo..i], b[bLo..bLo + k])
        invariant forall k :: 0 <= k <= j - bLo ==> curr[k] == Lcs(a[aLo..i + 1], b[bLo..bLo + k])
      {
        LcsFromTheEnd(a[aLo..i], a[i], b[bLo..j], b[j]);
        assert a[aLo..i + 1] == a[aLo..i] + [a[i]];
        assert b[bLo..bLo + (j - bLo + 1)] == b[bLo..j] + [b[j]];
        if a[i] == b[j] {
          curr[j - bLo + 1] := prev[j - bLo] + 1;
        } else {
          curr[j - bLo + 1] := Max(curr[j - bLo], prev[j - bLo + 1]);
        }
      }
      prev, curr := curr, prev;
      for k := 0 to cols + 1
        invariant forall k' :: 0 <= k' <= cols ==> prev[k'] == Lcs(a[aLo..i + 1], b[bLo..bLo + k'])
        invariant forall k' :: 0 <= k' < k ==> curr[k'] == 0
      {
        curr[k] := 0;
      }
    }
  }

  /** Old lines `from..to`, all deleted. */
  method DeleteRange(v: View, from: nat, to: nat, ghost j: nat) returns (out: seq<DiffLine>)
    requires v.Valid() && from <= to <= |v.a| && j <= |v.b|
    ensures Walks(out, v, from, j, to, j) && Count(out, Ctx) == 0
  {
    out := [];
    for i := from to to
      invariant Walks(out, v, from, j, i, j) && Count(out, Ctx) == 0
    {
      Push(out, DiffLine(Del, v.aOffset + i + 1, 0, v.a[i]));
      out := out + [DiffLine(Del, v.aOffset + i + 1, 0, v.a[i])];
    }
  }

  /** New lines `from..to`, all added. */
  method AddRange(v: View, from: nat, to: nat, ghost i: nat) returns (out: seq<DiffLine>)
    requires v.Valid() && from <= to <= |v.b| && i <= |v.a|
    ensures Walks(out, v, i, from, i, to) && Count(out, Ctx) == 0
  {
    out := [];
    for j := from to to
      invariant Walks(out, v, i, from, i, j) && Count(out, Ctx) == 0
    {
      Push(out, DiffLine(Add, 0, v.bOffset + j + 1, v.b[j]));
      out := out + [DiffLine(Add, 0, v.bOffset + j + 1, v.b[j])];
    }
  }

  /** A script with new lines `from..to` added after it. */
  method ThenAdd(v: View, out: seq<DiffLine>, ghost i0: nat, ghost j0: nat, ghost i: nat, from: nat, to: nat)
    returns (more: seq<DiffLine>)
    requires v.Valid() && from <= to <= |v.b| && i <= |v.a| && Walks(out, v, i0, j0, i, from)
    ensures Walks(more, v, i0, j0, i, to) && Count(more, Ctx) == Count(out, Ctx)
  {
    var adds := AddRange(v, from, to, i);
    WalksConcat(out, adds, v, i0, j0, i, from, i, to);
    more := out + adds;
  }

  /** One line against many: it matches once or not at all. */
  lemma {:induction false} LcsOfOneLine(x: string, b: seq<string>)
    ensures Lcs([x], b) == if x in b then 1 else 0
  {
    var p := AlignmentWitness([x], b);
    assert p != [] ==> Joins(p[0], [x], b);
    assert |p| > 1 ==> Joins(p[1], [x], b) && Before(p[0], p[1]);
    if x in b {
      var j :| 0 <= j < |b| && b[j] == x;
      var q := [Pair(0, j)];
      assert Joins(q[0], [x], b);
      AlignmentBound(q, [x], b);
    }
  }

  lemma {:induction false} OneSideEmpty(a: seq<string>, b: seq<string>)
    requires b == []
    ensures Lcs(a, b) == 0
  {
  }

  /** The base case of the recursion: a single old line against `b[bLo..bHi]`. */
  method SingleLineDiff(v: View, aLo: nat, bLo: nat, bHi: nat) returns (out: seq<DiffLine>)
    requires v.Valid() && aLo < |v.a| && bLo <= bHi <= |v.b|
    ensures Walks(out, v, aLo, bLo, aLo + 1, bHi)
    ensures Count(out, Ctx) == Lcs(v.aNorm[aLo..aLo + 1], v.bNorm[bLo..bHi])
  {
    hide Lcs;
    var line := v.aNorm[aLo];
    assert v.aNorm[aLo..aLo + 1] == [line];
    var matchIdx := -1;
    for j := bLo to bHi
      invariant matchIdx == -1 && line !in v.bNorm[bLo..j]
    {
      assert v.bNorm[bLo..j + 1] == v.bNorm[bLo..j] + [v.bNorm[j]];
      if v.bNorm[j] == line {
        matchIdx := j;
        break;
      }
    }
    LcsOfOneLine(line, v.bNorm[bLo..bHi]);
    if matchIdx == -1 {
      out := DeleteRange(v, aLo, aLo + 1, bLo);
      out := ThenAdd(v, out, aLo, bLo, aLo + 1, bLo, bHi);
    } else {
      assert v.bNorm[bLo..bHi][matchIdx - bLo] == line;
      out := AddRange(v, bLo, matchIdx, aLo);
      var kept := DiffLine(Ctx, v.aOffset + aLo + 1, v.bOffset + matchIdx + 1, v.a[aLo]);
      Push(out, kept);
      out := out + [kept];
      out := ThenAdd(v, out, aLo, bLo, aLo + 1, matchIdx + 1, bHi);
    }
  }

  /** The index where a forward row and a backward row add up to the most. */
  method BestSplit(fwd: array<nat>, rev: array<nat>, n: nat) returns (best: nat)
    requires fwd.Length == rev.Length == n + 1
    ensures best <= n
    ensures forall k :: 0 <= k <= n ==> fwd[k] + rev[n - k] <= fwd[best] + rev[n - best]
  {
    best := 0;
    var bestScore := -1;
    for j := 0 to n + 1
      invariant best <= n
      invariant bestScore == -1 ==> j == 0
      invariant bestScore != -1 ==> bestScore == fwd[best] + rev[n - best]
      invariant forall k :: 0 <= k < j ==> fwd[k] + rev[n - k] <= bestScore
    {
      var score := fwd[j] + rev[n - j];
      if score > bestScore {
        bestScore := score;
        best := j;
      }
    }
  }

  /** The row of the reversed ranges, read from its end, is about the suffixes of `b`. */
  method BackwardRow(a: seq<string>, b: seq<string>) returns (rev: array<nat>)
    ensures rev.Length == |b| + 1
    ensures forall k :: 0 <= k <= |b| ==> rev[|b| - k] == Lcs(a, b[k..])
  {
    var aRev, bRev := Reverse(a), Reverse(b);
    rev := LcsLastRow(aRev, 0, |aRev|, bRev, 0, |bRev|);
    forall k | 0 <= k <= |b| ensures rev[|b| - k] == Lcs(a, b[k..]) {
      ReverseLcs(a, b[k..]);
      assert aRev[0..|aRev|] == aRev && bRev[0..0 + (|b| - k)] == Reverse(b[k..]);
    }
  }

  /** The best split of `b` keeps as many lines as the whole problem. */
  lemma {:induction false} BestSplitIsExact(a1: seq<string>, a2: seq<string>, b: seq<string>, best: nat)
    requires best <= |b|
    requires forall k {:trigger b[..k]} :: 0 <= k <= |b| ==>
      Lcs(a1, b[..k]) + Lcs(a2, b[k..]) <= Lcs(a1, b[..best]) + Lcs(a2, b[best..])
    ensures Lcs(a1, b[..best]) + Lcs(a2, b[best..]) == Lcs(a1 + a2, b)
  {
    var w := SplitWitness(a1, a2, b);
    assert b[..w] + b[w..] == b;
    SplitBound(a1, a2, b[..best], b[best..]);
    assert b[..best] + b[best..] == b;
  }

  /** Hirschberg's linear-space recursion.  There is no base case for an empty `a` range: the
      halves of a range of two or more lines are never empty, so neither call can reach one. */
  method HirschbergDiff(v: View, aLo: nat, aHi: nat, bLo: nat, bHi: nat) returns (out: seq<DiffLine>)
    requires v.Valid() && aLo < aHi <= |v.a| && bLo <= bHi <= |v.b|
    ensures Walks(out, v, aLo, bLo, aHi, bHi)
    ensures Count(out, Ctx) == Lcs(v.aNorm[aLo..aHi], v.bNorm[bLo..bHi])
    decreases aHi - aLo
  {
    hide Walks, Count, Lcs;
    var m, n := aHi - aLo, bHi - bLo;
    if n == 0 {
      OneSideEmpty(v.aNorm[aLo..aHi], v.bNorm[bLo..bHi]);
      out := DeleteRange(v, aLo, aHi, bLo);
      return;
    }
    if m == 1 {
      out := SingleLineDiff(v, aLo, bLo, bHi);
      return;
    }
    var aMid := aLo + m / 2;
    var best := SplitPoint(v.aNorm, aLo, aMid, aHi, v.bNorm, bLo, bHi);
    var bestJ := bLo + best;
    SliceCut(v.aNorm, aLo, aMid, aHi);
    SliceCut(v.bNorm, bLo, bestJ, bHi);
    var left := HirschbergDiff(v, aLo, aMid, bLo, bestJ);
    var right := HirschbergDiff(v, aMid, aHi, bestJ, bHi);
    WalksConcat(left, right, v, aLo, bLo, aMid, bestJ, aHi, bHi);
    out := left + right;
  }

  /** Where to cut `b[bLo..bHi]` so that the two halves of `a` keep the most lines between them. */
  method SplitPoint(a: seq<string>, aLo: nat, aMid: nat, aHi: nat, b: seq<string>, bLo: nat, bHi: nat)
    returns (best: nat)
    requires aLo <= aMid <= aHi <= |a| && bLo <= bHi <= |b|
    ensures best <= bHi - bLo
    ensures var mid := b[bLo..bHi];
      Lcs(a[aLo..aMid], mid[..best]) + Lcs(a[aMid..aHi], mid[best..]) == Lcs(a[aLo..aMid] + a[aMid..aHi], mid)
  {
    hide Lcs;
    var fwd := LcsLastRow(a, aLo, aMid, b, bLo, bHi);
    ghost var mid := b[bLo..bHi];
    forall k | 0 <= k <= |mid| ensures fwd[k] == Lcs(a[aLo..aMid], mid[..k]) {
      assert b[bLo..bLo + k] == mid[..k];
    }
    var rev := BackwardRow(a[aMid..aHi], b[bLo..bHi]);
    best := BestSplit(fwd, rev, bHi - bLo);
    BestSplitIsExact(a[aLo..aMid], a[aMid..aHi], mid, best);
  }

  lemma {:induction false} NothingCounted()
    ensures Count([], Ctx) == 0
  {
  }

  /** What the two cells the walk compares hold, and what it can still keep. */
  lemma {:induction false} DenseCells(v: View, t: array2<nat>, i: nat, j: nat)
    requires v.Valid() && i < |v.a| && j < |v.b| && IsTable(t, v.aNorm, v.bNorm)
    ensures var below, right := t[i + 1, j], t[i, j + 1];
      && below == Lcs(v.aNorm[i + 1..], v.bNorm[j..]) && right == Lcs(v.aNorm[i..], v.bNorm[j + 1..])
      && Lcs(v.aNorm[i..], v.bNorm[j..]) ==
         if v.aNorm[i] == v.bNorm[j] then Lcs(v.aNorm[i + 1..], v.bNorm[j + 1..]) + 1 else Max(below, right)
  {
    hide Lcs;
    LcsStep(v.aNorm, i, v.bNorm, j);
  }

  /** One step of the walk over the dense table. */
  method DenseStep(v: View, t: array2<nat>, i: nat, j: nat) returns (row: DiffLine, i': nat, j': nat)
    requires v.Valid() && i < |v.a| && j < |v.b|
    requires IsTable(t, v.aNorm, v.bNorm)
    ensures i <= i' <= i + 1 && j <= j' <= j + 1 && i + j < i' + j'
    ensures Walks([row], v, i, j, i', j')
    ensures Count([row], Ctx) + Lcs(v.aNorm[i'..], v.bNorm[j'..]) == Lcs(v.aNorm[i..], v.bNorm[j..])
  {
    DenseCells(v, t, i, j);
    hide Lcs, Count, IsTable;
    if v.aNorm[i] == v.bNorm[j] {
      row := DiffLine(Ctx, v.aOffset + i + 1, v.bOffset + j + 1, v.a[i]);
      i', j' := i + 1, j + 1;
    } else if t[i + 1, j] >= t[i, j + 1] {
      row := DiffLine(Del, v.aOffset + i + 1, 0, v.a[i]);
      i', j' := i + 1, j;
    } else {
      row := DiffLine(Add, 0, v.bOffset + j + 1, v.b[j]);
      i', j' := i, j + 1;
    }
    assert [row] == [] + [row];
    NothingCounted();
    Push([], row);
  }

  /** The forward walk over the dense table. */
  method DenseDiff(v: View) returns (out: seq<DiffLine>)
    requires v.Valid()
    ensures Walks(out, v, 0, 0, |v.a|, |v.b|)
    ensures Count(out, Ctx) == Lcs(v.aNorm, v.bNorm)
  {
    var m, n := |v.a|, |v.b|;
    var t := LcsTable(v.aNorm, v.bNorm);
    out := [];
    var i, j := 0, 0;
    assert v.aNorm[0..] == v.aNorm && v.bNorm[0..] == v.bNorm;
    while i < m && j < n
      invariant 0 <= i <= m && 0 <= j <= n && IsTable(t, v.aNorm, v.bNorm)
      invariant Walks(out, v, 0, 0, i, j)
      invariant Count(out, Ctx) + Lcs(v.aNorm[i..], v.bNorm[j..]) == Lcs(v.aNorm, v.bNorm)
      decreases m - i + n - j
    {
      var row, i', j' := DenseStep(v, t, i, j);
      WalksConcat(out, [row], v, 0, 0, i, j, i', j');
      out := out + [row];
      i, j := i', j';
    }
    assert Lcs(v.aNorm[i..], v.bNorm[j..]) == 0;
    var dels := DeleteRange(v, i, m, j);
    WalksConcat(out, dels, v, 0, 0, i, j, m, j);
    out := out + dels;
    out := ThenAdd(v, out, 0, 0, m, j, n);
  }

  // ------------------------------------------------------------------- the entry points

  /** The first `p` lines agree. */
  predicate StartsAgree<T(==)>(a: seq<T>, b: seq<T>, p: nat) {
    p <= |a| && p <= |b| && a[..p] == b[..p]
  }

  /** Length of the longest common prefix. */
  function CommonPrefix<T(==)>(a: seq<T>, b: seq<T>): (p: nat)
    ensures StartsAgree(a, b, p)
    ensures p < |a| && p < |b| ==> a[p] != b[p]
  {
    if a != [] && b != [] && a[0] == b[0] then
      var q := CommonPrefix(a[1..], b[1..]);
      assert a[..q + 1] == [a[0]] + a[1..][..q] && b[..q + 1] == [b[0]] + b[1..][..q];
      q + 1
    else 0
  }

  /** The `i`th line from the end. */
  function FromEnd<T>(a: seq<T>, i: nat): T
    requires i < |a|
  {
    a[|a| - 1 - i]
  }

  /** The last `s` lines agree. */
  predicate EndsAgree<T(==)>(a: seq<T>, b: seq<T>, s: nat)
    requires s <= |a| && s <= |b|
  {
    forall i :: 0 <= i < s ==> FromEnd(a, i) == FromEnd(b, i)
  }

  lemma {:induction false} EndsAgreeIff<T>(a: seq<T>, b: seq<T>, s: nat)
    requires s <= |a| && s <= |b|
    ensures EndsAgree(a, b, s) <==> a[|a| - s..] == b[|b| - s..]
  {
    var c, d := a[|a| - s..], b[|b| - s..];
    assert forall k :: 0 <= k < s ==> c[k] == FromEnd(a, s - 1 - k) && d[k] == FromEnd(b, s - 1 - k);
    if c == d {
      forall i | 0 <= i < s ensures FromEnd(a, i) == FromEnd(b, i) {
        assert c[s - 1 - i] == d[s - 1 - i];
      }
    }
  }

  /** Length of the longest common suffix of at most `k` lines, `s` of which are known. */
  function SuffixFrom<T(==)>(a: seq<T>, b: seq<T>, k: nat, s: nat): (r: nat)
    requires s <= k <= |a| && k <= |b| && EndsAgree(a, b, s)
    ensures s <= r <= k && EndsAgree(a, b, r)
    ensures r < k ==> a[|a| - 1 - r] != b[|b| - 1 - r]
    decreases k - s
  {
    if s < k && a[|a| - 1 - s] == b[|b| - 1 - s] then SuffixFrom(a, b, k, s + 1) else s
  }

  function CommonSuffix<T(==)>(a: seq<T>, b: seq<T>, k: nat): (s: nat)
    requires k <= |a| && k <= |b|
    ensures s <= k && a[|a| - s..] == b[|b| - s..]
    ensures s < k ==> a[|a| - 1 - s] != b[|b| - 1 - s]
  {
    var s := SuffixFrom(a, b, k, 0);
    EndsAgreeIff(a, b, s);
    s
  }

  /** The two trims: a common prefix, then a common suffix that does not run into it. */
  function TrimP<T(==)>(a: seq<T>, b: seq<T>): (p: nat)
    ensures StartsAgree(a, b, p)
  {
    CommonPrefix(a, b)
  }

  function TrimS<T(==)>(a: seq<T>, b: seq<T>): (s: nat)
    ensures TrimP(a, b) + s <= |a| && TrimP(a, b) + s <= |b| && a[|a| - s..] == b[|b| - s..]
  {
    CommonSuffix(a, b, (if |a| <= |b| then |a| else |b|) - TrimP(a, b))
  }

  /** The forms lines are compared in. */
  function Comparable(lines: seq<string>, ignoreWhitespace: bool): (r: seq<string>)
    ensures |r| == |lines|
  {
    seq(|lines|, k requires 0 <= k < |lines| => if ignoreWhitespace then Normalize(lines[k]) else lines[k])
  }

  /** An exact diff of two whole slices, by whichever algorithm their size allows. */
  method ExactDiff(v: View) returns (out: seq<DiffLine>)
    requires v.Valid()
    ensures Walks(out, v, 0, 0, |v.a|, |v.b|)
    ensures Count(out, Ctx) == Lcs(v.aNorm, v.bNorm)
  {
    var m, n := |v.a|, |v.b|;
    assert m == 0 ==> m * n == 0;
    if m * n > SPACE_THRESHOLD {
      out := HirschbergDiff(v, 0, m, 0, n);
      assert v.aNorm[0..m] == v.aNorm && v.bNorm[0..n] == v.bNorm;
    } else {
      out := DenseDiff(v);
    }
  }

  /** Whether the middle that is left past `p` common first and `s` common last lines fits the time budget. */
  predicate MiddleFits<T(==)>(a: seq<T>, b: seq<T>, p: nat, s: nat)
    requires p + s <= |a| && p + s <= |b|
  {
    (|a| - s - p) * (|b| - s - p) <= TIME_BUDGET_CELLS
  }

  /** How many of its lines the diff of that middle keeps. */
  function MiddleKept<T(==)>(a: seq<T>, b: seq<T>, p: nat, s: nat): nat
    requires p + s <= |a| && p + s <= |b|
  {
    if MiddleFits(a, b, p, s) then Lcs(a[p..|a| - s], b[p..|b| - s]) else 0
  }

  /** The trimmed middle: exact, or deleted and added whole when it is past the time budget. */
  method DiffMiddle(v: View, p: nat, s: nat) returns (out: seq<DiffLine>)
    requires v.Valid() && v.aOffset == v.bOffset == 0 && p + s <= |v.a| && p + s <= |v.b|
    ensures Walks(out, v, p, p, |v.a| - s, |v.b| - s)
    ensures Count(out, Ctx) == MiddleKept(v.aNorm, v.bNorm, p, s)
  {
    var aHi, bHi := |v.a| - s, |v.b| - s;
    if aHi == p && bHi == p {
      return [];
    }
    if !MiddleFits(v.aNorm, v.bNorm, p, s) {
      out := DeleteRange(v, p, aHi, p);
      out := ThenAdd(v, out, p, p, aHi, p, bHi);
    } else {
      out := ExactMiddle(v, p, aHi, bHi);
    }
  }

  lemma {:induction false} SliceWithin(lines: seq<string>, from: nat, to: nat)
    requires from <= to <= |lines|
    ensures DiffScript.Within(lines[from..to], lines, from)
  {
  }

  /** Lines `p..aHi` against `p..bHi`, diffed as slices. */
  method ExactMiddle(v: View, p: nat, aHi: nat, bHi: nat) returns (out: seq<DiffLine>)
    requires v.Valid() && v.aOffset == v.bOffset == 0 && p <= aHi <= |v.a| && p <= bHi <= |v.b|
    ensures Walks(out, v, p, p, aHi, bHi)
    ensures Count(out, Ctx) == Lcs(v.aNorm[p..aHi], v.bNorm[p..bHi])
  {
    hide Lcs, Walks, Count, DiffScript.Within;
    var mid := View(v.a[p..aHi], v.b[p..bHi], v.aNorm[p..aHi], v.bNorm[p..bHi], p, p);
    out := ExactDiff(mid);
    SliceWithin(v.a, p, aHi);
    SliceWithin(v.aNorm, p, aHi);
    SliceWithin(v.b, p, bHi);
    SliceWithin(v.bNorm, p, bHi);
    WalksShift(out, mid, v, p, aHi - p, bHi - p);
  }

  /** One of two equal ranges of lines, line by line. */
  lemma {:induction false} RangesAgree(a: seq<string>, i: nat, b: seq<string>, j: nat, n: nat, k: nat)
    requires i + n <= |a| && j + n <= |b| && a[i..i + n] == b[j..j + n] && k < n
    ensures a[i + k] == b[j + k]
  {
    assert a[i..i + n][k] == b[j..j + n][k];
  }

  /** Context rows for the common lines `i..i + n` and `j..j + n`. */
  method KeepRange(v: View, i: nat, j: nat, n: nat) returns (out: seq<DiffLine>)
    requires v.Valid() && v.aOffset == v.bOffset == 0 && i + n <= |v.a| && j + n <= |v.b|
    requires v.aNorm[i..i + n] == v.bNorm[j..j + n]
    ensures Walks(out, v, i, j, i + n, j + n) && Count(out, Ctx) == n
  {
    out := [];
    for k := 0 to n
      invariant Walks(out, v, i, j, i + k, j + k) && Count(out, Ctx) == k
    {
      RangesAgree(v.aNorm, i, v.bNorm, j, n, k);
      Push(out, DiffLine(Ctx, i + k + 1, j + k + 1, v.a[i + k]));
      out := out + [DiffLine(Ctx, i + k + 1, j + k + 1, v.a[i + k])];
    }
  }

  lemma {:induction false} CommonPrefixUnique<T>(a: seq<T>, b: seq<T>, p: nat)
    requires p <= |a| && p <= |b| && a[..p] == b[..p]
    requires p < |a| && p < |b| ==> a[p] != b[p]
    ensures p == CommonPrefix(a, b)
  {
    if p > 0 {
      assert a[0] == a[..p][0] && b[0] == b[..p][0];
      assert a[1..][..p - 1] == a[..p][1..] && b[1..][..p - 1] == b[..p][1..];
      CommonPrefixUnique(a[1..], b[1..], p - 1);
    }
  }

  lemma {:induction false} CommonSuffixUnique<T>(a: seq<T>, b: seq<T>, k: nat, s: nat)
    requires s <= k <= |a| && k <= |b| && a[|a| - s..] == b[|b| - s..]
    requires s < k ==> a[|a| - 1 - s] != b[|b| - 1 - s]
    ensures s == CommonSuffix(a, b, k)
  {
    var r := CommonSuffix(a, b, k);
    EndsAgreeIff(a, b, s);
    EndsAgreeIff(a, b, r);
    AgreeAt(a, b, s, r);
    AgreeAt(a, b, r, s);
  }

  lemma {:induction false} AgreeAt<T>(a: seq<T>, b: seq<T>, s: nat, i: nat)
    requires s <= |a| && s <= |b| && EndsAgree(a, b, s)
    ensures i < s ==> a[|a| - 1 - i] == b[|b| - 1 - i]
  {
    if i < s {
      assert FromEnd(a, i) == FromEnd(b, i);
    }
  }

  /** Trimming the common ends loses nothing. */
  lemma {:induction false} TrimLosesNothing<T>(a: seq<T>, b: seq<T>, p: nat, s: nat)
    requires p + s <= |a| && p + s <= |b| && a[..p] == b[..p] && a[|a| - s..] == b[|b| - s..]
    ensures Lcs(a, b) == p + Lcs(a[p..|a| - s], b[p..|b| - s]) + s
  {
    var x, y, c, d := a[p..|a| - s], b[p..|b| - s], a[..p], a[|a| - s..];
    assert a == c + (x + d) && b == c + (y + d);
    PrefixTrim(c, x + d, y + d);
    SuffixTrim(x, y, d);
  }

  /** Whether what is left once the common ends are trimmed fits the time budget. */
  predicate InBudget<T(==)>(a: seq<T>, b: seq<T>) {
    MiddleFits(a, b, TrimP(a, b), TrimS(a, b))
  }

  /** How many lines a diff keeps: as many as possible, or just the trimmed ends. */
  function KeptLines<T(==)>(a: seq<T>, b: seq<T>): nat {
    if InBudget(a, b) then Lcs(a, b) else TrimP(a, b) + TrimS(a, b)
  }

  lemma {:induction false} KeptLinesTrimmed<T>(a: seq<T>, b: seq<T>)
    ensures KeptLines(a, b) == TrimP(a, b) + MiddleKept(a, b, TrimP(a, b), TrimS(a, b)) + TrimS(a, b)
  {
    hide TrimP, TrimS, MiddleFits, Lcs;
    TrimLosesNothing(a, b, TrimP(a, b), TrimS(a, b));
  }

  /** The lengths of the common ends. */
  method TrimEnds(aNorm: seq<string>, bNorm: seq<string>) returns (p: nat, s: nat)
    ensures p == TrimP(aNorm, bNorm) && s == TrimS(aNorm, bNorm)
  {
    hide CommonPrefix, CommonSuffix;
    var maxTrim := if |aNorm| <= |bNorm| then |aNorm| else |bNorm|;
    p := 0;
    while p < maxTrim && aNorm[p] == bNorm[p]
      invariant p <= maxTrim && aNorm[..p] == bNorm[..p]
    {
      p := p + 1;
    }
    CommonPrefixUnique(aNorm, bNorm, p);
    s := 0;
    while s < maxTrim - p && aNorm[|aNorm| - 1 - s] == bNorm[|bNorm| - 1 - s]
      invariant s <= maxTrim - p && aNorm[|aNorm| - s..] == bNorm[|bNorm| - s..]
    {
      s := s + 1;
    }
    CommonSuffixUnique(aNorm, bNorm, maxTrim - p, s);
  }

  lemma {:induction false} SameEnds(a: seq<string>, p: nat, s: nat)
    requires p <= |a| && s <= |a|
    ensures a[0..0 + p] == a[..p] && a[|a| - s..|a| - s + s] == a[|a| - s..]
  {
  }

  /** The common ends kept, the middle diffed. */
  method DiffTrimmed(v: View, p: nat, s: nat) returns (out: seq<DiffLine>)
    requires v.Valid() && v.aOffset == v.bOffset == 0 && p + s <= |v.a| && p + s <= |v.b|
    requires v.aNorm[..p] == v.bNorm[..p] && v.aNorm[|v.a| - s..] == v.bNorm[|v.b| - s..]
    ensures Walks(out, v, 0, 0, |v.a|, |v.b|)
    ensures Count(out, Ctx) == p + MiddleKept(v.aNorm, v.bNorm, p, s) + s
  {
    hide Walks, Count, MiddleKept;
    var aHi, bHi := |v.a| - s, |v.b| - s;
    SameEnds(v.aNorm, p, s);
    SameEnds(v.bNorm, p, s);
    out := KeepRange(v, 0, 0, p);
    var middle := DiffMiddle(v, p, s);
    WalksConcat(out, middle, v, 0, 0, p, p, aHi, bHi);
    out := out + middle;
    var tail := KeepRange(v, aHi, bHi, s);
    WalksConcat(out, tail, v, 0, 0, aHi, bHi, |v.a|, |v.b|);
    out := out + tail;
  }

  // ------------------------------------------------------ what two lines are compared by

  /** Two pairs of sequences that are equal at the same places. */
  ghost predicate EqualAlike<T, U>(a: seq<T>, b: seq<T>, c: seq<U>, d: seq<U>) {
    && |a| == |c| && |b| == |d|
    && forall i, j :: 0 <= i < |a| && 0 <= j < |b| ==> (a[i] == b[j] <==> c[i] == d[j])
  }

  lemma {:induction false} AlikeLcs<T, U>(a: seq<T>, b: seq<T>, c: seq<U>, d: seq<U>)
    requires EqualAlike(a, b, c, d)
    ensures Lcs(a, b) == Lcs(c, d)
    decreases |a| + |b|
  {
    if a != [] && b != [] {
      AlikeLcs(a[1..], b[1..], c[1..], d[1..]);
      AlikeLcs(a[1..], b, c[1..], d);
      AlikeLcs(a, b[1..], c, d[1..]);
    }
  }

  lemma {:induction false} AlikePrefix<T, U>(a: seq<T>, b: seq<T>, c: seq<U>, d: seq<U>)
    requires EqualAlike(a, b, c, d)
    ensures CommonPrefix(a, b) == CommonPrefix(c, d)
  {
    if a != [] && b != [] {
      AlikePrefix(a[1..], b[1..], c[1..], d[1..]);
    }
  }

  lemma {:induction false} AlikeAt<T, U>(a: seq<T>, b: seq<T>, c: seq<U>, d: seq<U>, i: nat, j: nat)
    requires EqualAlike(a, b, c, d) && i < |a| && j < |b|
    ensures |a| == |c| && |b| == |d| && (a[i] == b[j] <==> c[i] == d[j])
  {
  }

  lemma {:induction false} OneMoreAgrees<T>(a: seq<T>, b: seq<T>, s: nat)
    requires s < |a| && s < |b| && EndsAgree(a, b, s) && a[|a| - 1 - s] == b[|b| - 1 - s]
    ensures EndsAgree(a, b, s + 1)
  {
  }

  lemma {:induction false} AlikeSuffix<T, U>(a: seq<T>, b: seq<T>, c: seq<U>, d: seq<U>, k: nat, s: nat)
    requires EqualAlike(a, b, c, d) && s <= k <= |a| && k <= |b| && EndsAgree(a, b, s) && EndsAgree(c, d, s)
    ensures SuffixFrom(a, b, k, s) == SuffixFrom(c, d, k, s)
    decreases k - s
  {
    if s < k {
      AlikeAt(a, b, c, d, |a| - 1 - s, |b| - 1 - s);
      hide EqualAlike, EndsAgree;
      if a[|a| - 1 - s] == b[|b| - 1 - s] {
        OneMoreAgrees(a, b, s);
        OneMoreAgrees(c, d, s);
        AlikeSuffix(a, b, c, d, k, s + 1);
      }
    }
  }

  lemma {:induction false} AlikeTrims<T, U>(a: seq<T>, b: seq<T>, c: seq<U>, d: seq<U>)
    requires EqualAlike(a, b, c, d)
    ensures TrimP(a, b) == TrimP(c, d) && TrimS(a, b) == TrimS(c, d)
  {
    hide CommonPrefix, SuffixFrom;
    AlikePrefix(a, b, c, d);
    AlikeSuffix(a, b, c, d, (if |a| <= |b| then |a| else |b|) - TrimP(a, b), 0);
  }

  /** Cells of the table between two ends. */
  function Cells(m: nat, n: nat, p: nat, s: nat): int {
    (m - s - p) * (n - s - p)
  }

  lemma {:induction false} BudgetOf<T>(a: seq<T>, b: seq<T>)
    ensures InBudget(a, b) <==> Cells(|a|, |b|, TrimP(a, b), TrimS(a, b)) <= 25_000_000
  {
    hide TrimP, TrimS;
  }

  /** How many lines are kept depends only on which lines are equal. */
  lemma {:induction false} AlikeKept<T, U>(a: seq<T>, b: seq<T>, c: seq<U>, d: seq<U>)
    requires EqualAlike(a, b, c, d)
    ensures KeptLines(a, b) == KeptLines(c, d) && (InBudget(a, b) <==> InBudget(c, d))
  {
    AlikeTrims(a, b, c, d);
    AlikeLcs(a, b, c, d);
    BudgetOf(a, b);
    BudgetOf(c, d);
    hide TrimP, TrimS, InBudget, Lcs, Cells;
  }

  /** The words of every line. */
  function AllWords(lines: seq<string>): (r: seq<seq<string>>)
    ensures |r| == |lines| && forall k :: 0 <= k < |lines| ==> r[k] == Words(lines[k])
  {
    seq(|lines|, k requires 0 <= k < |lines| => Words(lines[k]))
  }

  /** Every context row joins lines that hold the same words, or the same line when white space counts. */
  ghost predicate ContextJoins(out: seq<DiffLine>, a: seq<string>, b: seq<string>, ignoreWhitespace: bool) {
    forall k :: 0 <= k < |out| && out[k].kind == Ctx ==>
      && 1 <= out[k].oldNo <= |a| && 1 <= out[k].newNo <= |b|
      && (ignoreWhitespace ==> Words(a[out[k].oldNo - 1]) == Words(b[out[k].newNo - 1]))
      && (!ignoreWhitespace ==> a[out[k].oldNo - 1] == b[out[k].newNo - 1])
  }

  lemma {:induction false} ComparableAlike(a: seq<string>, b: seq<string>)
    ensures EqualAlike(Comparable(a, true), Comparable(b, true), AllWords(a), AllWords(b))
    ensures Comparable(a, false) == a && Comparable(b, false) == b
  {
    hide Normalize, Words;
    forall i, j | 0 <= i < |a| && 0 <= j < |b|
      ensures Comparable(a, true)[i] == Comparable(b, true)[j] <==> AllWords(a)[i] == AllWords(b)[j]
    {
      NormalizeEqualIffSameWords(a[i], b[j]);
    }
  }

  /** Ignoring white space, lines are compared by their words; otherwise by themselves. */
  lemma {:induction false} ComparedByWords(out: seq<DiffLine>, a: seq<string>, b: seq<string>, ignoreWhitespace: bool)
    requires IsDiff(out, a, b, Comparable(a, ignoreWhitespace), Comparable(b, ignoreWhitespace))
    ensures ContextJoins(out, a, b, ignoreWhitespace)
    ensures KeptLines(Comparable(a, ignoreWhitespace), Comparable(b, ignoreWhitespace)) ==
      if ignoreWhitespace then KeptLines(AllWords(a), AllWords(b)) else KeptLines(a, b)
  {
    ComparableAlike(a, b);
    hide Comparable, Words, KeptLines, OldRows, NewNos;
    if ignoreWhitespace {
      AlikeKept(Comparable(a, true), Comparable(b, true), AllWords(a), AllWords(b));
    }
    var x, y := Comparable(a, ignoreWhitespace), Comparable(b, ignoreWhitespace);
    forall k | 0 <= k < |out| && out[k].kind == Ctx
      ensures 1 <= out[k].oldNo <= |a| && 1 <= out[k].newNo <= |b| && x[out[k].oldNo - 1] == y[out[k].newNo - 1]
    {
      assert RowOk(out[k], b, x, y);
    }
  }

  /** Where nothing differs everything is kept. */
  lemma {:induction false} NothingChanged<T>(a: seq<T>)
    ensures KeptLines(a, a) == |a|
  {
    KeptLinesTrimmed(a, a);
  }

  /** What the time budget is, said of the longest common ends. */
  lemma {:induction false} BudgetIs<T>(a: seq<T>, b: seq<T>, p: nat, s: nat)
    requires p + s <= |a| && p + s <= |b| && a[..p] == b[..p] && a[|a| - s..] == b[|b| - s..]
    requires p < |a| && p < |b| ==> a[p] != b[p]
    requires p + s < |a| && p + s < |b| ==> a[|a| - 1 - s] != b[|b| - 1 - s]
    ensures InBudget(a, b) <==> (|a| - p - s) * (|b| - p - s) <= 25_000_000
    ensures KeptLines(a, b) == if InBudget(a, b) then Lcs(a, b) else p + s
  {
    assert TrimP(a, b) == p && TrimS(a, b) == s by {
      hide CommonPrefix, CommonSuffix;
      CommonPrefixUnique(a, b, p);
      CommonSuffixUnique(a, b, (if |a| <= |b| then |a| else |b|) - p, s);
    }
    BudgetOf(a, b);
    hide TrimP, TrimS, InBudget, Lcs;
  }

  /** The engine behind both entry points. */
  method DiffLineArrays(a: seq<string>, b: seq<string>, ignoreWhitespace: bool) returns (out: seq<DiffLine>)
    ensures IsDiff(out, a, b, Comparable(a, ignoreWhitespace), Comparable(b, ignoreWhitespace))
    ensures Count(out, Ctx) == KeptLines(Comparable(a, ignoreWhitespace), Comparable(b, ignoreWhitespace))
    ensures Count(out, Del) == |a| - Count(out, Ctx) && Count(out, Add) == |b| - Count(out, Ctx)
    ensures ContextJoins(out, a, b, ignoreWhitespace)
    ensures Count(out, Ctx) == if ignoreWhitespace then KeptLines(AllWords(a), AllWords(b)) else KeptLines(a, b)
  {
    hide KeptLines, MiddleKept, IsDiff, ContextJoins, Walks, Count, CommonPrefix, CommonSuffix;
    hide TrimP, TrimS, Lcs, Comparable;
    var aNorm := Comparable(a, ignoreWhitespace);
    var bNorm := Comparable(b, ignoreWhitespace);
    var p, s := TrimEnds(aNorm, bNorm);
    KeptLinesTrimmed(aNorm, bNorm);
    var v := View(a, b, aNorm, bNorm, 0, 0);
    out := DiffTrimmed(v, p, s);
    DiffIffWalk(out, v);
    EveryDiffCosts(out, a, b, aNorm, bNorm);
    ComparedByWords(out, a, b, ignoreWhitespace);
  }

  /** No diff of the same files keeps more lines than the LCS, or changes fewer. */
  lemma {:induction false} EveryDiffCosts(out: seq<DiffLine>, a: seq<string>, b: seq<string>, aNorm: seq<string>,
                                          bNorm: seq<string>)
    requires |aNorm| == |a| && |bNorm| == |b| && IsDiff(out, a, b, aNorm, bNorm)
    ensures Count(out, Ctx) <= Lcs(aNorm, bNorm)
    ensures Count(out, Del) == |a| - Count(out, Ctx) && Count(out, Add) == |b| - Count(out, Ctx)
  {
    var v := View(a, b, aNorm, bNorm, 0, 0);
    DiffIffWalk(out, v);
    WalkCounts(out, v, 0, 0, |a|, |b|);
    assert aNorm[0..|a|] == aNorm && bNorm[0..|b|] == bNorm;
  }

  lemma {:induction false} NoDiffKeepsMore(a: seq<string>, b: seq<string>, ignoreWhitespace: bool)
    ensures var aNorm, bNorm := Comparable(a, ignoreWhitespace), Comparable(b, ignoreWhitespace);
      forall other :: IsDiff(other, a, b, aNorm, bNorm) ==> Count(other, Ctx) <= Lcs(aNorm, bNorm)
  {
    hide IsDiff, Lcs, Count;
    var aNorm, bNorm := Comparable(a, ignoreWhitespace), Comparable(b, ignoreWhitespace);
    assert |aNorm| == |a| && |bNorm| == |b|;
    hide Comparable;
    forall other | IsDiff(other, a, b, aNorm, bNorm) ensures Count(other, Ctx) <= Lcs(aNorm, bNorm) {
      EveryDiffCosts(other, a, b, aNorm, bNorm);
    }
  }

  lemma {:induction false} SameWordsKept(a: seq<string>, b: seq<string>)
    requires AllWords(a) == AllWords(b)
    ensures |a| == |b| == KeptLines(AllWords(a), AllWords(b))
  {
    hide KeptLines, Words;
    NothingChanged(AllWords(a));
    assert |AllWords(a)| == |a| && |AllWords(b)| == |b|;
  }

  /** A line-level diff of two texts. */
  method LineDiff(oldText: string, newText: string, ignoreWhitespace: bool) returns (out: seq<DiffLine>)
    ensures var a, b := LinesOf(oldText), LinesOf(newText);
      var aNorm, bNorm := Comparable(a, ignoreWhitespace), Comparable(b, ignoreWhitespace);
      && IsDiff(out, a, b, aNorm, bNorm)
      && Count(out, Ctx) == KeptLines(aNorm, bNorm)
      && (InBudget(aNorm, bNorm) ==> forall other ::
            IsDiff(other, a, b, aNorm, bNorm) ==> Count(other, Ctx) <= Count(out, Ctx))
      && ContextJoins(out, a, b, ignoreWhitespace)
      && (ignoreWhitespace ==> Count(out, Ctx) == KeptLines(AllWords(a), AllWords(b)))
      && (ignoreWhitespace && AllWords(a) == AllWords(b) ==> Count(out, Del) == 0 && Count(out, Add) == 0)
      && (!ignoreWhitespace ==> Count(out, Ctx) == KeptLines(a, b))
  {
    hide ContextJoins, IsDiff, Lcs, Count, InBudget, Comparable, AllWords, TrimP, TrimS, LinesOf;
    var a := SplitLines(oldText);
    var b := SplitLines(newText);
    out := DiffLineArrays(a, b, ignoreWhitespace);
    NoDiffKeepsMore(a, b, ignoreWhitespace);
    if AllWords(a) == AllWords(b) {
      SameWordsKept(a, b);
    }
  }

  /** The two counts of a change: within the budget, the fewest any diff can show. */
  method LineDelta(oldText: string, newText: string) returns (added: nat, removed: nat)
    ensures var a, b := LinesOf(oldText), LinesOf(newText);
      && added == |b| - KeptLines(a, b) && removed == |a| - KeptLines(a, b)
      && (InBudget(a, b) ==> forall other ::
            IsDiff(other, a, b, a, b) ==> added <= Count(other, Add) && removed <= Count(other, Del))
  {
    var a := SplitLines(oldText);
    var b := SplitLines(newText);
    var rows := DiffLineArrays(a, b, false);
    var s := Tally(rows);
    added, removed := s.adds, s.dels;
    assert Comparable(a, false) == a && Comparable(b, false) == b;
    forall other | IsDiff(other, a, b, a, b)
      ensures Count(other, Ctx) <= Lcs(a, b)
      ensures Count(other, Del) == |a| - Count(other, Ctx) && Count(other, Add) == |b| - Count(other, Ctx)
    {
      EveryDiffCosts(other, a, b, a, b);
    }
  }
}
