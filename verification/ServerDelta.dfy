/** The server's count of the lines a change added and removed.  It is a twin of the client's, written
    without a diff: only the length of a longest common subsequence goes into it. */
module ServerDelta {
  import opened Alignment
  import Diff
  import opened Lines
  import opened Text

  const MAX_DIFF_CELLS := 25_000_000

  /** The server's own split: the last piece goes when it is empty, and every line is stripped. */
  method SplitDiffLines(s: string) returns (lines: seq<string>)
    ensures lines == LinesOf(s)
  {
    if s == "" {
      return [];
    }
    lines := Split(s);
    LastPiece(s);
    if lines[|lines| - 1] == "" {
      lines := lines[..|lines| - 1];
    }
    ghost var was := lines;
    for i := 0 to |lines|
      invariant |lines| == |was|
      invariant forall k :: 0 <= k < i ==> lines[k] == StripCr(was[k])
      invariant forall k :: i <= k < |was| ==> lines[k] == was[k]
    {
      if EndsWith(lines[i], '\r') {
        lines := lines[i := lines[i][..|lines[i]| - 1]];
      }
    }
  }

  lemma {:induction false} LastPiece(s: string)
    ensures Split(s)[|Split(s)| - 1] == "" <==> s == "" || EndsWith(s, '\n')
  {
    if s != "" {
      LastPiece(s[1..]);
      assert |s| > 1 ==> s[1..][|s| - 2] == s[|s| - 1];
    }
  }

  /** The length alone, the shorter side along the rows. */
  method LcsLen(a: seq<string>, b: seq<string>) returns (k: nat)
    ensures k == Lcs(a, b)
  {
    hide Lcs;
    LcsStep(a, 0, b, 0);
    assert a[0..] == a && b[0..] == b && a[0..|a|] == a && b[0..|b|] == b;
    if |a| == 0 || |b| == 0 {
      return 0;
    }
    var row;
    if |b| > |a| {
      LcsSymmetric(a, b);
      row := Diff.LcsLastRow(b, 0, |b|, a, 0, |a|);
      assert a[0..0 + |a|] == a;
    } else {
      row := Diff.LcsLastRow(a, 0, |a|, b, 0, |b|);
      assert b[0..0 + |b|] == b;
    }
    k := row[row.Length - 1];
  }

  /** What the trimmed middle adds to the common ends. */
  lemma {:induction false} MiddleCounts(a: seq<string>, b: seq<string>, p: nat, s: nat)
    requires p == Diff.TrimP(a, b) && s == Diff.TrimS(a, b)
    ensures p + s <= |a| && p + s <= |b|
    ensures var midOld, midNew := a[p..|a| - s], b[p..|b| - s];
      && Diff.KeptLines(a, b) == p + s + (if |midOld| * |midNew| > MAX_DIFF_CELLS then 0 else Lcs(midOld, midNew))
      && Lcs(midOld, midNew) <= |midOld| && Lcs(midOld, midNew) <= |midNew|
  {
    hide Lcs, Diff.KeptLines, Diff.TrimP, Diff.TrimS;
    Diff.KeptLinesTrimmed(a, b);
    LcsFits(a[p..|a| - s], b[p..|b| - s]);
  }

  /** What the server counts is what the client counts, for any two texts, within the budget and past it. */
  method LineDelta(oldText: string, newText: string) returns (added: nat, removed: nat)
    ensures var a, b := LinesOf(oldText), LinesOf(newText);
      added == |b| - Diff.KeptLines(a, b) && removed == |a| - Diff.KeptLines(a, b)
  {
    hide Lcs, Diff.KeptLines, Diff.TrimP, Diff.TrimS, LinesOf;
    if oldText == newText {
      Diff.NothingChanged(LinesOf(oldText));
      return 0, 0;
    }
    var a := SplitDiffLines(oldText);
    var b := SplitDiffLines(newText);
    var p, s := Diff.TrimEnds(a, b);
    MiddleCounts(a, b, p, s);
    var midOld, midNew := a[p..|a| - s], b[p..|b| - s];
    if |midOld| == 0 || |midNew| == 0 || |midOld| * |midNew| > MAX_DIFF_CELLS {
      return |midNew|, |midOld|;
    }
    var k := LcsLen(midOld, midNew);
    added, removed := |midNew| - k, |midOld| - k;
  }
}
