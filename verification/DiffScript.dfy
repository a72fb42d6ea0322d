/** What a line diff is, said twice: declaratively, by reading both files back out of it, and as a
    walk over the two files that the algorithms can extend row by row. */
module DiffScript {
  import opened Alignment

  datatype DiffKind = Add | Del | Ctx

  /** One row of a diff.  `oldNo` is 0 on an added row, `newNo` is 0 on a deleted one. */
  datatype DiffLine = DiffLine(kind: DiffKind, oldNo: nat, newNo: nat, text: string)

  /** The two texts a script is read against: the lines it prints, the forms they are
      compared in, and how far into the files these arrays start. */
  datatype View = View(a: seq<string>, b: seq<string>, aNorm: seq<string>, bNorm: seq<string>,
                       aOffset: nat, bOffset: nat) {
    predicate Valid() {
      |a| == |aNorm| && |b| == |bNorm|
    }
  }

  /** How many rows of `out` have the given kind. */
  function Count(out: seq<DiffLine>, kind: DiffKind): nat {
    if out == [] then 0
    else Count(out[..|out| - 1], kind) + (if out[|out| - 1].kind == kind then 1 else 0)
  }

  /** The numbered lines of the old file that `out` shows, in order. */
  function OldRows(out: seq<DiffLine>): seq<(nat, string)> {
    if out == [] then []
    else
      var l := out[|out| - 1];
      OldRows(out[..|out| - 1]) + (if l.kind == Add then [] else [(l.oldNo, l.text)])
  }

  /** The line numbers of the new file that `out` shows, in order. */
  function NewNos(out: seq<DiffLine>): seq<nat> {
    if out == [] then []
    else
      var l := out[|out| - 1];
      NewNos(out[..|out| - 1]) + (if l.kind == Del then [] else [l.newNo])
  }

  /** The first `n` lines of a file, numbered from 1. */
  function Numbered(lines: seq<string>, n: nat): seq<(nat, string)>
    requires n <= |lines|
  {
    if n == 0 then [] else Numbered(lines, n - 1) + [(n, lines[n - 1])]
  }

  function Upto(n: nat): seq<nat> {
    if n == 0 then [] else Upto(n - 1) + [n]
  }

  /** What one row may say: an added row prints its new line, and a context row joins two
      lines that compare equal. */
  predicate RowOk(l: DiffLine, b: seq<string>, aNorm: seq<string>, bNorm: seq<string>)
    requires |b| == |bNorm|
  {
    match l.kind
    case Add => l.oldNo == 0 && 1 <= l.newNo <= |b| && l.text == b[l.newNo - 1]
    case Del => l.newNo == 0
    case Ctx => 1 <= l.oldNo <= |aNorm| && 1 <= l.newNo <= |b| && aNorm[l.oldNo - 1] == bNorm[l.newNo - 1]
  }

  /** `out` is a diff of `a` against `b`: deleted and context rows rebuild `a` in order, added
      and context rows number `b` in order, and every row tells the truth. */
  predicate IsDiff(out: seq<DiffLine>, a: seq<string>, b: seq<string>, aNorm: seq<string>, bNorm: seq<string>)
    requires |a| == |aNorm| && |b| == |bNorm|
  {
    && OldRows(out) == Numbered(a, |a|)
    && NewNos(out) == Upto(|b|)
    && forall k :: 0 <= k < |out| ==> RowOk(out[k], b, aNorm, bNorm)
  }

  /** The same thing as a walk: `out` leads from line `(i0, j0)` to line `(i1, j1)`. */
  ghost predicate Walks(out: seq<DiffLine>, v: View, i0: nat, j0: nat, i1: nat, j1: nat)
    requires v.Valid() && i1 <= |v.a| && j1 <= |v.b|
  {
    if out == [] then i0 == i1 && j0 == j1
    else
      var l, rest := out[|out| - 1], out[..|out| - 1];
      match l.kind
      case Ctx =>
        && i1 > 0 && j1 > 0 && v.aNorm[i1 - 1] == v.bNorm[j1 - 1]
        && l == DiffLine(Ctx, v.aOffset + i1, v.bOffset + j1, v.a[i1 - 1])
        && Walks(rest, v, i0, j0, i1 - 1, j1 - 1)
      case Del =>
        && i1 > 0 && l == DiffLine(Del, v.aOffset + i1, 0, v.a[i1 - 1])
        && Walks(rest, v, i0, j0, i1 - 1, j1)
      case Add =>
        && j1 > 0 && l == DiffLine(Add, 0, v.bOffset + j1, v.b[j1 - 1])
        && Walks(rest, v, i0, j0, i1, j1 - 1)
  }

  /** One more row on the end of a walk. */
  lemma {:induction false} Push(out: seq<DiffLine>, l: DiffLine)
    ensures (out + [l])[..|out|] == out
    ensures forall k :: Count(out + [l], k) == Count(out, k) + if l.kind == k then 1 else 0
  {
    assert (out + [l])[..|out|] == out;
  }

  lemma {:induction false} WalksConcat(x: seq<DiffLine>, y: seq<DiffLine>, v: View,
                                       i0: nat, j0: nat, i1: nat, j1: nat, i2: nat, j2: nat)
    requires v.Valid() && i1 <= |v.a| && j1 <= |v.b| && i2 <= |v.a| && j2 <= |v.b|
    requires Walks(x, v, i0, j0, i1, j1) && Walks(y, v, i1, j1, i2, j2)
    ensures Walks(x + y, v, i0, j0, i2, j2)
    ensures forall k :: Count(x + y, k) == Count(x, k) + Count(y, k)
    decreases |y|
  {
    if y == [] {
      assert x + y == x;
    } else {
      var l, rest := y[|y| - 1], y[..|y| - 1];
      assert (x + y)[..|x + y| - 1] == x + rest;
      match l.kind
      case Ctx => WalksConcat(x, rest, v, i0, j0, i1, j1, i2 - 1, j2 - 1);
      case Del => WalksConcat(x, rest, v, i0, j0, i1, j1, i2 - 1, j2);
      case Add => WalksConcat(x, rest, v, i0, j0, i1, j1, i2, j2 - 1);
    }
  }

  /** `part` stands in `whole` from line `p` on. */
  predicate Within(part: seq<string>, whole: seq<string>, p: nat) {
    p + |part| <= |whole| && forall k :: 0 <= k < |part| ==> part[k] == whole[p + k]
  }

  /** A walk over slices is a walk over the whole files, further along. */
  lemma {:induction false} WalksShift(out: seq<DiffLine>, v: View, w: View, p: nat, i1: nat, j1: nat)
    requires v.Valid() && w.Valid() && i1 <= |v.a| && j1 <= |v.b|
    requires v.aOffset == v.bOffset == p && w.aOffset == w.bOffset == 0
    requires Within(v.a, w.a, p) && Within(v.aNorm, w.aNorm, p) && Within(v.b, w.b, p) && Within(v.bNorm, w.bNorm, p)
    requires Walks(out, v, 0, 0, i1, j1)
    ensures Walks(out, w, p, p, p + i1, p + j1)
    decreases |out|
  {
    if out != [] {
      var l, rest := out[|out| - 1], out[..|out| - 1];
      match l.kind
      case Ctx => WalksShift(rest, v, w, p, i1 - 1, j1 - 1);
      case Del => WalksShift(rest, v, w, p, i1 - 1, j1);
      case Add => WalksShift(rest, v, w, p, i1, j1 - 1);
    }
  }

  /** What the last row of a walk tells. */
  lemma {:induction false} LastStep(out: seq<DiffLine>, v: View, i0: nat, j0: nat, i1: nat, j1: nat)
    requires v.Valid() && i1 <= |v.a| && j1 <= |v.b| && Walks(out, v, i0, j0, i1, j1) && out != []
    ensures var l, rest := out[|out| - 1], out[..|out| - 1];
      && Count(out, Ctx) == Count(rest, Ctx) + (if l.kind == Ctx then 1 else 0)
      && Count(out, Del) == Count(rest, Del) + (if l.kind == Del then 1 else 0)
      && Count(out, Add) == Count(rest, Add) + (if l.kind == Add then 1 else 0)
      && (l.kind == Ctx ==> i1 > 0 && j1 > 0 && v.aNorm[i1 - 1] == v.bNorm[j1 - 1]
                            && Walks(rest, v, i0, j0, i1 - 1, j1 - 1))
      && (l.kind == Del ==> i1 > 0 && Walks(rest, v, i0, j0, i1 - 1, j1))
      && (l.kind == Add ==> j1 > 0 && Walks(rest, v, i0, j0, i1, j1 - 1))
  {
  }

  /** Every walk reads both ranges to the end, and never keeps more lines than the LCS. */
  lemma {:induction false} WalkCounts(out: seq<DiffLine>, v: View, i0: nat, j0: nat, i1: nat, j1: nat)
    requires v.Valid() && i1 <= |v.a| && j1 <= |v.b| && Walks(out, v, i0, j0, i1, j1)
    ensures i0 <= i1 && j0 <= j1
    ensures Count(out, Ctx) + Count(out, Del) == i1 - i0
    ensures Count(out, Ctx) + Count(out, Add) == j1 - j0
    ensures Count(out, Ctx) <= Lcs(v.aNorm[i0..i1], v.bNorm[j0..j1])
    decreases |out|
  {
    if out != [] {
      LastStep(out, v, i0, j0, i1, j1);
      hide Lcs, Walks, Count;
      var l, rest := out[|out| - 1], out[..|out| - 1];
      match l.kind
      case Ctx =>
        WalkCounts(rest, v, i0, j0, i1 - 1, j1 - 1);
        RangeKeeps(v.aNorm, i0, i1, v.bNorm, j0, j1);
      case Del =>
        WalkCounts(rest, v, i0, j0, i1 - 1, j1);
        RangeGrows(v.aNorm, i0, i1 - 1, i1, v.bNorm, j0, j1, j1);
      case Add =>
        WalkCounts(rest, v, i0, j0, i1, j1 - 1);
        RangeGrows(v.aNorm, i0, i1, i1, v.bNorm, j0, j1 - 1, j1);
    }
  }

  lemma {:induction false} RangeKeeps(a: seq<string>, i0: nat, i1: nat, b: seq<string>, j0: nat, j1: nat)
    requires i0 < i1 <= |a| && j0 < j1 <= |b| && a[i1 - 1] == b[j1 - 1]
    ensures Lcs(a[i0..i1], b[j0..j1]) == Lcs(a[i0..i1 - 1], b[j0..j1 - 1]) + 1
  {
    hide Lcs;
    assert a[i0..i1] == a[i0..i1 - 1] + [a[i1 - 1]] && b[j0..j1] == b[j0..j1 - 1] + [b[j1 - 1]];
    LcsFromTheEnd(a[i0..i1 - 1], a[i1 - 1], b[j0..j1 - 1], b[j1 - 1]);
  }

  lemma {:induction false} RangeGrows(a: seq<string>, i0: nat, i1: nat, i2: nat, b: seq<string>, j0: nat, j1: nat,
                                      j2: nat)
    requires i0 <= i1 <= i2 <= |a| && j0 <= j1 <= j2 <= |b|
    ensures Lcs(a[i0..i1], b[j0..j1]) <= Lcs(a[i0..i2], b[j0..j2])
  {
    hide Lcs;
    assert a[i0..i2] == a[i0..i1] + a[i1..i2] && b[j0..j2] == b[j0..j1] + b[j1..j2];
    SplitBound(a[i0..i1], a[i1..i2], b[j0..j1], b[j1..j2]);
  }

  /** A diff is a walk from the first lines to the last ... */
  lemma {:induction false} ReadsWalk(out: seq<DiffLine>, v: View, i: nat, j: nat)
    requires v.Valid() && i <= |v.a| && j <= |v.b| && v.aOffset == v.bOffset == 0
    requires OldRows(out) == Numbered(v.a, i) && NewNos(out) == Upto(j)
    requires forall k :: 0 <= k < |out| ==> RowOk(out[k], v.b, v.aNorm, v.bNorm)
    ensures Walks(out, v, 0, 0, i, j)
    decreases |out|
  {
    if out == [] {
    } else {
      var l, rest := out[|out| - 1], out[..|out| - 1];
      if l.kind != Add {
        LastOf(OldRows(rest), (l.oldNo, l.text), Numbered(v.a, i));
      }
      if l.kind != Del {
        LastOf(NewNos(rest), l.newNo, Upto(j));
      }
      match l.kind
      case Ctx => ReadsWalk(rest, v, i - 1, j - 1);
      case Del => ReadsWalk(rest, v, i - 1, j);
      case Add => ReadsWalk(rest, v, i, j - 1);
    }
  }

  lemma {:induction false} LastOf<T>(s: seq<T>, x: T, t: seq<T>)
    requires s + [x] == t
    ensures |t| > 0 && t[|t| - 1] == x && t[..|t| - 1] == s
  {
    assert (s + [x])[..|s|] == s;
  }

  /** ... and every such walk is a diff. */
  lemma {:induction false} WalkReads(out: seq<DiffLine>, v: View, i: nat, j: nat)
    requires v.Valid() && i <= |v.a| && j <= |v.b| && v.aOffset == v.bOffset == 0
    requires Walks(out, v, 0, 0, i, j)
    ensures OldRows(out) == Numbered(v.a, i) && NewNos(out) == Upto(j)
    ensures forall k :: 0 <= k < |out| ==> RowOk(out[k], v.b, v.aNorm, v.bNorm)
    decreases |out|
  {
    if out != [] {
      var l, rest := out[|out| - 1], out[..|out| - 1];
      assert forall k :: 0 <= k < |out| ==> out[k] == if k < |rest| then rest[k] else l;
      match l.kind
      case Ctx => WalkReads(rest, v, i - 1, j - 1);
      case Del => WalkReads(rest, v, i - 1, j);
      case Add => WalkReads(rest, v, i, j - 1);
    }
  }

  /** A script is a diff exactly when it walks both files from their first lines to their last. */
  lemma {:induction false} DiffIffWalk(out: seq<DiffLine>, v: View)
    requires v.Valid() && v.aOffset == v.bOffset == 0
    ensures IsDiff(out, v.a, v.b, v.aNorm, v.bNorm) <==> Walks(out, v, 0, 0, |v.a|, |v.b|)
  {
    if IsDiff(out, v.a, v.b, v.aNorm, v.bNorm) {
      ReadsWalk(out, v, |v.a|, |v.b|);
    }
    if Walks(out, v, 0, 0, |v.a|, |v.b|) {
      WalkReads(out, v, |v.a|, |v.b|);
    }
  }
}
