/** A diff windowed to whole hunks: as many as fit a row budget, each with its context. */
module HunkWindow {
  import opened DiffScript
  import opened Ints
  import Text

  predicate Changed(l: DiffLine) {
    l.kind != Ctx
  }

  // ------------------------------------------------------------- what the window shows

  /** A changed line at most `context` lines above `k`. */
  ghost predicate HunkAbove(lines: seq<DiffLine>, k: nat, context: nat) {
    exists m :: 0 <= m < k && m < |lines| && Changed(lines[m]) && k - m <= context
  }

  /** A changed line at most `context` lines below `k`; a context of 0 sets no limit here. */
  ghost predicate HunkBelow(lines: seq<DiffLine>, k: nat, context: nat) {
    exists m :: k < m < |lines| && Changed(lines[m]) && (m - k <= context || context == 0)
  }

  /** The lines the window keeps. */
  ghost predicate Kept(lines: seq<DiffLine>, k: nat, context: nat)
    requires k < |lines|
  {
    Changed(lines[k]) || HunkAbove(lines, k, context) || HunkBelow(lines, k, context)
  }

  /** The kept lines among the first `e`, in order. */
  ghost function Shown(lines: seq<DiffLine>, context: nat, e: nat): seq<DiffLine>
    requires e <= |lines|
  {
    if e == 0 then []
    else Shown(lines, context, e - 1) + (if Kept(lines, e - 1, context) then [lines[e - 1]] else [])
  }

  predicate HunkStart(lines: seq<DiffLine>, h: nat) {
    h < |lines| && Changed(lines[h]) && (h == 0 || !Changed(lines[h - 1]))
  }

  /** How many changed lines follow one another from `h` on. */
  function HunkLen(lines: seq<DiffLine>, h: nat): (n: nat)
    requires h <= |lines|
    ensures h + n <= |lines|
    ensures forall k :: h <= k < h + n ==> Changed(lines[k])
    ensures h + n < |lines| ==> !Changed(lines[h + n])
    decreases |lines| - h
  {
    if h < |lines| && Changed(lines[h]) then 1 + HunkLen(lines, h + 1) else 0
  }

  /** Hunks that start in `lines[from..to]`. */
  function Hunks(lines: seq<DiffLine>, from: nat, to: nat): nat
    requires from <= to <= |lines|
  {
    if from == to then 0
    else Hunks(lines, from, to - 1) + (if HunkStart(lines, to - 1) then 1 else 0)
  }

  /** The first hunk starts at `h`. */
  ghost predicate FirstHunk(lines: seq<DiffLine>, h: nat) {
    HunkStart(lines, h) && forall k :: 0 <= k < h ==> !Changed(lines[k])
  }

  /** The hunk at `h` goes in: it is the first one, or there is still room for it. */
  ghost predicate Admitted(lines: seq<DiffLine>, context: nat, maxRows: nat, h: nat)
    requires h <= |lines|
  {
    FirstHunk(lines, h) || |Shown(lines, context, h)| + HunkLen(lines, h) <= maxRows
  }

  /** The window stops at `e`: at the first hunk that is not admitted, or at the end. */
  ghost predicate StopsAt(lines: seq<DiffLine>, context: nat, maxRows: nat, e: nat) {
    && e <= |lines|
    && (e < |lines| ==> HunkStart(lines, e) && !Admitted(lines, context, maxRows, e))
    && forall h :: 0 <= h < e && HunkStart(lines, h) ==> Admitted(lines, context, maxRows, h)
  }

  lemma {:induction false} ShownAll(lines: seq<DiffLine>, context: nat, from: nat, to: nat)
    requires from <= to <= |lines|
    requires forall k :: from <= k < to ==> Kept(lines, k, context)
    ensures Shown(lines, context, to) == Shown(lines, context, from) + lines[from..to]
  {
    if from < to {
      ShownAll(lines, context, from, to - 1);
      assert lines[from..to] == lines[from..to - 1] + [lines[to - 1]];
    } else {
      assert lines[from..to] == [];
    }
  }

  lemma {:induction false} ShownNone(lines: seq<DiffLine>, context: nat, from: nat, to: nat)
    requires from <= to <= |lines|
    requires forall k :: from <= k < to ==> !Kept(lines, k, context)
    ensures Shown(lines, context, to) == Shown(lines, context, from)
  {
    if from < to {
      ShownNone(lines, context, from, to - 1);
    }
  }

  // ---------------------------------------------------------------------------- runs

  /** A stretch of lines that are all changed or all context. */
  datatype Run = Run(changed: bool, lines: seq<DiffLine>)

  function Flat(runs: seq<Run>): seq<DiffLine> {
    if runs == [] then [] else Flat(runs[..|runs| - 1]) + runs[|runs| - 1].lines
  }

  ghost predicate Uniform(r: Run) {
    r.lines != [] && forall k :: 0 <= k < |r.lines| ==> Changed(r.lines[k]) == r.changed
  }

  /** The runs of `lines`: changed and context stretches in turn. */
  ghost predicate AreRuns(runs: seq<Run>, lines: seq<DiffLine>) {
    && Flat(runs) == lines
    && (forall k :: 0 <= k < |runs| ==> Uniform(runs[k]))
    && (forall k {:trigger Alternates(runs, k)} :: 0 <= k < |runs| - 1 ==> Alternates(runs, k))
  }

  ghost predicate Alternates(runs: seq<Run>, k: nat)
    requires k + 1 < |runs|
  {
    runs[k].changed != runs[k + 1].changed
  }

  method Segment(lines: seq<DiffLine>) returns (runs: seq<Run>)
    ensures AreRuns(runs, lines)
  {
    hide AreRuns;
    runs := [];
    NoRuns();
    for i := 0 to |lines|
      invariant AreRuns(runs, lines[..i])
    {
      var l := lines[i];
      assert lines[..i + 1] == lines[..i] + [l];
      if runs != [] && runs[|runs| - 1].changed == Changed(l) {
        var last := runs[|runs| - 1];
        RunGrows(runs, lines[..i], l);
        runs := runs[..|runs| - 1] + [Run(last.changed, last.lines + [l])];
      } else {
        RunStarts(runs, lines[..i], l);
        runs := runs + [Run(Changed(l), [l])];
      }
    }
    assert lines[..|lines|] == lines;
  }

  lemma {:induction false} NoRuns()
    ensures AreRuns([], [])
  {
  }

  lemma {:induction false} RunGrows(runs: seq<Run>, lines: seq<DiffLine>, l: DiffLine)
    requires AreRuns(runs, lines) && runs != [] && runs[|runs| - 1].changed == Changed(l)
    ensures var last := runs[|runs| - 1];
      AreRuns(runs[..|runs| - 1] + [Run(last.changed, last.lines + [l])], lines + [l])
  {
    hide Changed;
    var init, last := runs[..|runs| - 1], runs[|runs| - 1];
    var grown := Run(last.changed, last.lines + [l]);
    var more := init + [grown];
    assert more[..|init|] == init && Flat(more) == Flat(init) + grown.lines;
    assert Flat(init) + (last.lines + [l]) == Flat(init) + last.lines + [l];
    assert Uniform(grown) by { assert Uniform(last); }
    forall k | 0 <= k < |more| - 1 ensures Alternates(more, k) {
      assert Alternates(runs, k);
    }
  }

  lemma {:induction false} RunStarts(runs: seq<Run>, lines: seq<DiffLine>, l: DiffLine)
    requires AreRuns(runs, lines) && (runs != [] ==> runs[|runs| - 1].changed != Changed(l))
    ensures AreRuns(runs + [Run(Changed(l), [l])], lines + [l])
  {
    hide Changed;
    var more := runs + [Run(Changed(l), [l])];
    assert more[..|runs|] == runs;
    forall k | 0 <= k < |more| - 1 ensures Alternates(more, k) {
      assert k < |runs| - 1 ==> Alternates(runs, k);
    }
  }

  /** `s.slice(-context)`, which for a context of 0 is the whole of `s`. */
  function SliceLast(s: seq<DiffLine>, context: nat): seq<DiffLine> {
    if context == 0 || context >= |s| then s else s[|s| - context..]
  }

  function SliceFirst(s: seq<DiffLine>, context: nat): seq<DiffLine> {
    if context >= |s| then s else s[..context]
  }

  /** Where run `i` starts, and what stands on each side of it. */
  lemma {:induction false} RunPlace(runs: seq<Run>, lines: seq<DiffLine>, i: nat)
    requires AreRuns(runs, lines) && i < |runs|
    ensures var pos, n := |Flat(runs[..i])|, |runs[i].lines|;
      && pos + n <= |lines| && lines[pos..pos + n] == runs[i].lines && |Flat(runs[..i + 1])| == pos + n
      && (i > 0 ==> pos > 0 && Changed(lines[pos - 1]) != runs[i].changed)
      && (i == 0 ==> pos == 0)
      && (i + 1 < |runs| ==> pos + n < |lines| && Changed(lines[pos + n]) != runs[i].changed)
      && (i + 1 == |runs| ==> pos + n == |lines|)
  {
    hide Changed, Flat;
    FlatPrefix(runs, i);
    RunEnd(runs, i);
    FlatPrefix(runs, i + 1);
    if i > 0 {
      RunBefore(runs, lines, i);
    }
    if i + 1 < |runs| {
      RunAfter(runs, lines, i);
    } else {
      assert runs[..i + 1] == runs;
    }
  }

  lemma {:induction false} RunEnd(runs: seq<Run>, i: nat)
    requires i < |runs|
    ensures Flat(runs[..i + 1]) == Flat(runs[..i]) + runs[i].lines
    ensures i == 0 ==> Flat(runs[..i]) == []
  {
    assert runs[..i + 1][..i] == runs[..i];
  }

  lemma {:induction false} RunBefore(runs: seq<Run>, lines: seq<DiffLine>, i: nat)
    requires AreRuns(runs, lines) && 0 < i < |runs|
    ensures var pos := |Flat(runs[..i])|; 0 < pos <= |lines| && Changed(lines[pos - 1]) != runs[i].changed
  {
    hide Changed, Flat;
    FlatPrefix(runs, i);
    RunEnd(runs, i - 1);
    var prev, before := runs[i - 1], Flat(runs[..i]);
    assert Uniform(prev) && Alternates(runs, i - 1);
    assert lines[|before| - 1] == before[|before| - 1] == prev.lines[|prev.lines| - 1];
  }

  lemma {:induction false} RunAfter(runs: seq<Run>, lines: seq<DiffLine>, i: nat)
    requires AreRuns(runs, lines) && i + 1 < |runs|
    ensures var end := |Flat(runs[..i + 1])|; end < |lines| && Changed(lines[end]) != runs[i].changed
  {
    hide Changed, Flat;
    FlatPrefix(runs, i + 2);
    RunEnd(runs, i + 1);
    var next, end, upto := runs[i + 1], |Flat(runs[..i + 1])|, Flat(runs[..i + 2]);
    assert Uniform(next) && Alternates(runs, i);
    assert lines[end] == upto[end] == next.lines[0];
  }

  lemma {:induction false} FlatPrefix(runs: seq<Run>, i: nat)
    requires i <= |runs|
    ensures |Flat(runs[..i])| <= |Flat(runs)| && Flat(runs[..i]) == Flat(runs)[..|Flat(runs[..i])|]
  {
    if i == |runs| {
      assert runs[..i] == runs;
    } else {
      var shorter := runs[..|runs| - 1];
      FlatPrefix(shorter, i);
      assert shorter[..i] == runs[..i];
    }
  }

  /** `lines[pos..pos + n]` is one whole run. */
  ghost predicate RunAt(lines: seq<DiffLine>, pos: nat, n: nat, changed: bool) {
    && n > 0 && pos + n <= |lines|
    && (forall k :: pos <= k < pos + n ==> Changed(lines[k]) == changed)
    && (pos > 0 ==> Changed(lines[pos - 1]) != changed)
    && (pos + n < |lines| ==> Changed(lines[pos + n]) != changed)
  }

  lemma {:induction false} RunIsAt(runs: seq<Run>, lines: seq<DiffLine>, i: nat)
    requires AreRuns(runs, lines) && i < |runs|
    ensures var pos, n := |Flat(runs[..i])|, |runs[i].lines|;
      && RunAt(lines, pos, n, runs[i].changed) && lines[pos..pos + n] == runs[i].lines
      && |Flat(runs[..i + 1])| == pos + n
      && (i > 0 <==> pos > 0) && (i + 1 < |runs| <==> pos + n < |lines|)
      && (i > 0 ==> runs[i - 1].changed != runs[i].changed)
      && (i + 1 < |runs| ==> runs[i + 1].changed != runs[i].changed)
  {
    RunPlace(runs, lines, i);
    var pos, n := |Flat(runs[..i])|, |runs[i].lines|;
    forall k | pos <= k < pos + n ensures Changed(lines[k]) == runs[i].changed {
      assert lines[k] == lines[pos..pos + n][k - pos];
    }
    assert i > 0 ==> Alternates(runs, i - 1);
    assert i + 1 < |runs| ==> Alternates(runs, i);
  }

  /** Which lines of a context run are kept: those near its ends, where there is a hunk. */
  lemma {:induction false} KeptContext(lines: seq<DiffLine>, context: nat, pos: nat, n: nat, k: nat)
    requires RunAt(lines, pos, n, false) && pos <= k < pos + n
    ensures HunkAbove(lines, k, context) <==> pos > 0 && k < pos + context
    ensures HunkBelow(lines, k, context) <==> pos + n < |lines| && (context == 0 || k + context >= pos + n)
  {
    if pos > 0 && k < pos + context {
      assert Changed(lines[pos - 1]);
    }
    if pos + n < |lines| && (context == 0 || k + context >= pos + n) {
      assert Changed(lines[pos + n]);
    }
  }

  /** What the window shows of one context run. */
  function ContextRows(run: seq<DiffLine>, context: nat, above: bool, below: bool): seq<DiffLine> {
    var head := if above then SliceFirst(run, context) else [];
    var tail := if below then SliceLast(run, context) else [];
    if |head| + |tail| >= |run| then run else head + tail
  }

  /** The first `h` and the last `t` of some lines, or all of them when the two meet. */
  function Ends(run: seq<DiffLine>, h: nat, t: nat): seq<DiffLine>
    requires h <= |run| && t <= |run|
  {
    if h + t >= |run| then run else run[..h] + run[|run| - t..]
  }

  lemma {:induction false} ShownEnds(lines: seq<DiffLine>, context: nat, pos: nat, n: nat, h: nat, t: nat)
    requires pos + n <= |lines| && h <= n && t <= n
    requires forall k :: pos <= k < pos + n ==> (Kept(lines, k, context) <==> k < pos + h || k >= pos + n - t)
    ensures Shown(lines, context, pos + n) == Shown(lines, context, pos) + Ends(lines[pos..pos + n], h, t)
  {
    hide Shown, Kept, Ends;
    if h + t >= n {
      ShownAll(lines, context, pos, pos + n);
    } else {
      ShownAll(lines, context, pos, pos + h);
      ShownNone(lines, context, pos + h, pos + n - t);
      ShownAll(lines, context, pos + n - t, pos + n);
      Text.ConcatAssociates(Shown(lines, context, pos), lines[pos..pos + h], lines[pos + n - t..pos + n]);
    }
    EndsOfRange(lines, pos, n, h, t);
  }

  lemma {:induction false} EndsOfRange(lines: seq<DiffLine>, pos: nat, n: nat, h: nat, t: nat)
    requires pos + n <= |lines| && h <= n && t <= n
    ensures Ends(lines[pos..pos + n], h, t) ==
            if h + t >= n then lines[pos..pos + n] else lines[pos..pos + h] + lines[pos + n - t..pos + n]
  {
    var run := lines[pos..pos + n];
    assert lines[pos..pos + h] == run[..h] && lines[pos + n - t..pos + n] == run[n - t..];
  }

  lemma {:induction false} ContextRowsAreEnds(run: seq<DiffLine>, context: nat, above: bool, below: bool)
    ensures var h := if above then |SliceFirst(run, context)| else 0;
      var t := if below then |SliceLast(run, context)| else 0;
      h <= |run| && t <= |run| && ContextRows(run, context, above, below) == Ends(run, h, t)
  {
  }

  lemma {:induction false} ShownContext(lines: seq<DiffLine>, context: nat, pos: nat, n: nat)
    requires RunAt(lines, pos, n, false)
    ensures Shown(lines, context, pos + n) ==
            Shown(lines, context, pos) + ContextRows(lines[pos..pos + n], context, pos > 0, pos + n < |lines|)
  {
    var run := lines[pos..pos + n];
    var h := if pos > 0 then |SliceFirst(run, context)| else 0;
    var t := if pos + n < |lines| then |SliceLast(run, context)| else 0;
    forall k | pos <= k < pos + n ensures Kept(lines, k, context) <==> k < pos + h || k >= pos + n - t {
      KeptContext(lines, context, pos, n, k);
    }
    ContextRowsAreEnds(run, context, pos > 0, pos + n < |lines|);
    ShownEnds(lines, context, pos, n, h, t);
  }

  lemma {:induction false} HunksInRun(lines: seq<DiffLine>, pos: nat, n: nat, changed: bool, from: nat)
    requires RunAt(lines, pos, n, changed) && from <= pos
    ensures Hunks(lines, from, pos + n) == Hunks(lines, from, pos) + (if changed then 1 else 0)
    ensures forall k :: pos <= k < pos + n && HunkStart(lines, k) ==> changed && k == pos
    ensures changed ==> HunkStart(lines, pos) && HunkLen(lines, pos) == n
  {
    HunksConcat(lines, from, pos, pos + n);
    if changed {
      HunkLenIs(lines, pos, n);
      NoHunks(lines, pos + 1, pos + n);
      HunksConcat(lines, pos, pos + 1, pos + n);
      assert Hunks(lines, pos, pos + 1) == Hunks(lines, pos, pos) + 1;
    } else {
      NoHunks(lines, pos, pos + n);
    }
  }

  lemma {:induction false} HunkLenIs(lines: seq<DiffLine>, pos: nat, n: nat)
    requires pos + n <= |lines| && (forall k :: pos <= k < pos + n ==> Changed(lines[k]))
    requires pos + n < |lines| ==> !Changed(lines[pos + n])
    ensures HunkLen(lines, pos) == n
  {
    assert HunkLen(lines, pos) >= n;
  }

  lemma {:induction false} NoHunks(lines: seq<DiffLine>, from: nat, to: nat)
    requires from <= to <= |lines| && forall k :: from <= k < to ==> !HunkStart(lines, k)
    ensures Hunks(lines, from, to) == 0
  {
    if from < to {
      NoHunks(lines, from, to - 1);
    }
  }

  lemma {:induction false} HunksConcat(lines: seq<DiffLine>, from: nat, mid: nat, to: nat)
    requires from <= mid <= to <= |lines|
    ensures Hunks(lines, from, to) == Hunks(lines, from, mid) + Hunks(lines, mid, to)
  {
    if mid < to {
      HunksConcat(lines, from, mid, to - 1);
    }
  }

  // ------------------------------------------------------------------------ the window

  /** How many runs hold changes. */
  function ChangedRuns(runs: seq<Run>): nat {
    if runs == [] then 0
    else ChangedRuns(runs[..|runs| - 1]) + (if runs[|runs| - 1].changed then 1 else 0)
  }

  lemma {:induction false} ChangedRunsAreHunks(runs: seq<Run>, lines: seq<DiffLine>, i: nat)
    requires AreRuns(runs, lines) && i <= |runs|
    ensures |Flat(runs[..i])| <= |lines|
    ensures ChangedRuns(runs[..i]) == Hunks(lines, 0, |Flat(runs[..i])|)
  {
    if i > 0 {
      ChangedRunsAreHunks(runs, lines, i - 1);
      NextRunIsHunk(runs, lines, i - 1);
      assert runs[..i][..i - 1] == runs[..i - 1];
    }
  }

  lemma {:induction false} NextRunIsHunk(runs: seq<Run>, lines: seq<DiffLine>, i: nat)
    requires AreRuns(runs, lines) && i < |runs|
    ensures |Flat(runs[..i])| <= |Flat(runs[..i + 1])| <= |lines|
    ensures Hunks(lines, 0, |Flat(runs[..i + 1])|) ==
            Hunks(lines, 0, |Flat(runs[..i])|) + (if runs[i].changed then 1 else 0)
  {
    RunIsAt(runs, lines, i);
    HunksInRun(lines, |Flat(runs[..i])|, |runs[i].lines|, runs[i].changed, 0);
  }

  /** The most rows a window can hold: the row budget, or the first hunk when that alone is past it,
      and the context around them. */
  ghost predicate RowsBounded(lines: seq<DiffLine>, maxRows: nat, context: nat, rows: nat) {
    forall h :: FirstHunk(lines, h) ==> rows <= Max(maxRows, context + HunkLen(lines, h)) + 2 * context
  }

  method WindowHunks(lines: seq<DiffLine>, maxRows: nat, context: nat) returns (out: seq<DiffLine>, hunksOmitted: nat)
    ensures exists e :: StopsAt(lines, context, maxRows, e) && out == Shown(lines, context, e)
              && hunksOmitted == Hunks(lines, e, |lines|)
    ensures context >= 1 ==> RowsBounded(lines, maxRows, context, |out|)
  {
    var runs := Segment(lines);
    ChangedRunsAreHunks(runs, lines, |runs|);
    assert runs[..|runs|] == runs;
    var totalHunks := ChangedRuns(runs);
    if totalHunks == 0 {
      NothingShown(lines, context, maxRows);
      return [], 0;
    }
    out := [];
    var kept, i := 0, 0;
    ghost var pos := 0;
    while i < |runs|
      invariant i <= |runs| && pos == |Flat(runs[..i])|
      invariant Windowing(lines, maxRows, context, pos, out, kept)
    {
      var more, isHunk, refused := WindowRun(lines, runs, i, pos, maxRows, context, out, kept);
      if refused {
        break;
      }
      out := out + more;
      kept := if isHunk then kept + 1 else kept;
      i := i + 1;
      pos := |Flat(runs[..i])|;
    }
    if i == |runs| {
      assert runs[..i] == runs;
    }
    WindowDone(lines, maxRows, context, pos, out, kept);
    hunksOmitted := totalHunks - kept;
  }

  /** One turn of the loop: the rows run `i` contributes, or the refusal that ends the window. */
  method WindowRun(ghost lines: seq<DiffLine>, runs: seq<Run>, i: nat, ghost pos: nat, maxRows: nat, context: nat,
                   out: seq<DiffLine>, kept: nat)
    returns (more: seq<DiffLine>, isHunk: bool, refused: bool)
    requires AreRuns(runs, lines) && i < |runs|
    requires pos == |Flat(runs[..i])| && Windowing(lines, maxRows, context, pos, out, kept)
    ensures |Flat(runs[..i + 1])| == pos + |runs[i].lines|
    ensures refused ==> StopsAt(lines, context, maxRows, pos)
    ensures !refused ==>
      Windowing(lines, maxRows, context, pos + |runs[i].lines|, out + more, if isHunk then kept + 1 else kept)
  {
    hide AreRuns, Flat, Windowing, StopsAt, ContextRows;
    var run := runs[i];
    RunIsAt(runs, lines, i);
    more, isHunk, refused := [], run.changed, false;
    if !run.changed {
      var above := i > 0 && runs[i - 1].changed;
      var below := i + 1 < |runs| && runs[i + 1].changed;
      more := ContextRows(run.lines, context, above, below);
      WindowContext(lines, maxRows, context, pos, run.lines, above, below, out, kept);
    } else if |out| + |run.lines| > maxRows && kept > 0 {
      refused := true;
      HunkRefused(lines, maxRows, context, pos, |run.lines|, out, kept);
    } else {
      more := run.lines;
      WindowHunk(lines, maxRows, context, pos, run.lines, out, kept);
    }
  }

  lemma {:induction false} HunkRefused(lines: seq<DiffLine>, maxRows: nat, context: nat, pos: nat, n: nat,
                                       out: seq<DiffLine>, kept: nat)
    requires Windowing(lines, maxRows, context, pos, out, kept) && RunAt(lines, pos, n, true)
    requires |out| + n > maxRows && kept > 0
    ensures StopsAt(lines, context, maxRows, pos)
  {
    HunkComesFirst(lines, pos);
    HunksInRun(lines, pos, n, true, 0);
  }

  lemma {:induction false} WindowDone(lines: seq<DiffLine>, maxRows: nat, context: nat, pos: nat, out: seq<DiffLine>,
                                      kept: nat)
    requires Windowing(lines, maxRows, context, pos, out, kept)
    ensures Hunks(lines, 0, |lines|) - kept == Hunks(lines, pos, |lines|)
    ensures pos == |lines| ==> StopsAt(lines, context, maxRows, pos)
    ensures context >= 1 ==> RowsBounded(lines, maxRows, context, |out|)
  {
    HunksConcat(lines, 0, pos, |lines|);
  }

  /** A hunk with none before it is the first one. */
  lemma {:induction false} HunkComesFirst(lines: seq<DiffLine>, pos: nat)
    requires HunkStart(lines, pos)
    ensures FirstHunk(lines, pos) <==> Hunks(lines, 0, pos) == 0
  {
    if Hunks(lines, 0, pos) == 0 {
      forall k | 0 <= k < pos ensures !Changed(lines[k]) {
        if Changed(lines[k]) { ChangeMeansHunk(lines, k, pos); }
      }
    } else {
      if forall k :: 0 <= k < pos ==> !Changed(lines[k]) { NoHunks(lines, 0, pos); }
    }
  }

  lemma {:induction false} ChangeMeansHunk(lines: seq<DiffLine>, k: nat, to: nat)
    requires k < to <= |lines| && Changed(lines[k])
    ensures Hunks(lines, 0, to) > 0
  {
    var h: nat := k;
    while h > 0 && Changed(lines[h - 1])
      invariant 0 <= h <= k && Changed(lines[h])
    {
      h := h - 1;
    }
    HunksConcat(lines, 0, h, to);
    HunksConcat(lines, h, h + 1, to);
    assert Hunks(lines, h, h + 1) == Hunks(lines, h, h) + 1;
  }

  lemma {:induction false} NothingShown(lines: seq<DiffLine>, context: nat, maxRows: nat)
    requires Hunks(lines, 0, |lines|) == 0
    ensures StopsAt(lines, context, maxRows, |lines|) && Shown(lines, context, |lines|) == []
    ensures Hunks(lines, |lines|, |lines|) == 0
  {
    forall k | 0 <= k < |lines| ensures !Changed(lines[k]) {
      if Changed(lines[k]) { ChangeMeansHunk(lines, k, |lines|); }
    }
    ShownNone(lines, context, 0, |lines|);
  }

  /** The row count in the middle of the loop: at most one run of context past the last hunk. */
  ghost predicate RowsSoFar(lines: seq<DiffLine>, maxRows: nat, context: nat, pos: nat, rows: nat)
    requires pos <= |lines|
  {
    && (Hunks(lines, 0, pos) == 0 ==> rows <= context)
    && (Hunks(lines, 0, pos) > 0 && pos > 0 ==> forall h :: FirstHunk(lines, h) ==>
          rows <= Max(maxRows, context + HunkLen(lines, h)) + (if Changed(lines[pos - 1]) then 0 else 2 * context))
  }

  /** The loop's state in front of line `pos`. */
  ghost predicate Windowing(lines: seq<DiffLine>, maxRows: nat, context: nat, pos: nat, out: seq<DiffLine>, kept: nat) {
    && pos <= |lines| && out == Shown(lines, context, pos) && kept == Hunks(lines, 0, pos)
    && (forall h :: 0 <= h < pos && HunkStart(lines, h) ==> Admitted(lines, context, maxRows, h))
    && (context >= 1 ==> RowsSoFar(lines, maxRows, context, pos, |out|))
  }

  lemma {:induction false} ShownFromStart(lines: seq<DiffLine>, context: nat)
    ensures Shown(lines, context, 0) == []
  {
  }

  lemma {:induction false} WindowContext(lines: seq<DiffLine>, maxRows: nat, context: nat, pos: nat,
                                         run: seq<DiffLine>, above: bool, below: bool, out: seq<DiffLine>, kept: nat)
    requires Windowing(lines, maxRows, context, pos, out, kept)
    requires RunAt(lines, pos, |run|, false) && lines[pos..pos + |run|] == run
    requires above == (pos > 0) && below == (pos + |run| < |lines|)
    ensures Windowing(lines, maxRows, context, pos + |run|, out + ContextRows(run, context, above, below), kept)
  {
    hide Shown, Hunks, Admitted, RowsSoFar;
    ShownFromStart(lines, context);
    ShownContext(lines, context, pos, |run|);
    HunksInRun(lines, pos, |run|, false, 0);
    if context >= 1 {
      RowsContext(lines, maxRows, context, pos, |run|, |out|, |ContextRows(run, context, above, below)|);
    }
  }

  lemma {:induction false} RowsContext(lines: seq<DiffLine>, maxRows: nat, context: nat, pos: nat, n: nat, rows: nat,
                                       more: nat)
    requires RunAt(lines, pos, n, false) && RowsSoFar(lines, maxRows, context, pos, rows)
    requires Hunks(lines, 0, pos + n) == Hunks(lines, 0, pos)
    requires more <= 2 * context && (pos == 0 ==> more <= context && rows == 0)
    ensures RowsSoFar(lines, maxRows, context, pos + n, rows + more)
  {
    if pos > 0 {
      ChangeMeansHunk(lines, pos - 1, pos);
    }
  }

  lemma {:induction false} WindowHunk(lines: seq<DiffLine>, maxRows: nat, context: nat, pos: nat, run: seq<DiffLine>,
                                      out: seq<DiffLine>, kept: nat)
    requires Windowing(lines, maxRows, context, pos, out, kept)
    requires RunAt(lines, pos, |run|, true) && lines[pos..pos + |run|] == run
    requires |out| + |run| <= maxRows || kept == 0
    ensures Windowing(lines, maxRows, context, pos + |run|, out + run, kept + 1)
  {
    hide Shown, Hunks, RowsSoFar;
    HunkComesFirst(lines, pos);
    HunksInRun(lines, pos, |run|, true, 0);
    ShownAll(lines, context, pos, pos + |run|);
    if context >= 1 {
      RowsHunk(lines, maxRows, context, pos, |run|, |out|);
    }
  }

  lemma {:induction false} RowsHunk(lines: seq<DiffLine>, maxRows: nat, context: nat, pos: nat, n: nat, rows: nat)
    requires RunAt(lines, pos, n, true) && RowsSoFar(lines, maxRows, context, pos, rows)
    requires HunkLen(lines, pos) == n && (FirstHunk(lines, pos) <==> Hunks(lines, 0, pos) == 0)
    requires Hunks(lines, 0, pos + n) > 0 && (rows + n <= maxRows || Hunks(lines, 0, pos) == 0)
    ensures RowsSoFar(lines, maxRows, context, pos + n, rows + n)
  {
    forall h | FirstHunk(lines, h) ensures rows + n <= Max(maxRows, context + HunkLen(lines, h)) {
      if FirstHunk(lines, pos) {
        assert h == pos;
      }
    }
  }

  // -------------------------------------------------------- the context the window keeps

  /** `k` is a changed line or within `context` lines of one. */
  ghost predicate NearHunk(lines: seq<DiffLine>, k: nat, context: nat) {
    exists m :: 0 <= m < |lines| && Changed(lines[m]) && -(context as int) <= m - k <= context
  }

  /** The documented rule, that context is kept up to `context` lines from a hunk, is what the window
      does for every context but 0; for 0 it fails as soon as a context line comes before a change,
      since taking the last 0 rows of a run takes all of it. */
  lemma {:induction false} ContextRule(lines: seq<DiffLine>, context: nat, e: nat)
    requires e <= |lines|
    ensures (forall k :: 0 <= k < e ==> (Kept(lines, k, context) <==> NearHunk(lines, k, context)))
       <==> context != 0 || forall k, m :: 0 <= k < e && k < m < |lines| && Changed(lines[m]) ==> Changed(lines[k])
  {
    if context != 0 {
      forall k | 0 <= k < e ensures Kept(lines, k, context) <==> NearHunk(lines, k, context) {
        KeptIsNear(lines, k, context);
      }
    } else {
      forall k | 0 <= k < e
        ensures (Kept(lines, k, 0) <==> NearHunk(lines, k, 0)) <==> (Changed(lines[k]) || !HunkBelow(lines, k, 0))
      {
        assert Changed(lines[k]) ==> NearHunk(lines, k, 0);
      }
    }
  }

  lemma {:induction false} KeptIsNear(lines: seq<DiffLine>, k: nat, context: nat)
    requires k < |lines| && context != 0
    ensures Kept(lines, k, context) <==> NearHunk(lines, k, context)
  {
    if NearHunk(lines, k, context) {
      var m :| 0 <= m < |lines| && Changed(lines[m]) && -(context as int) <= m - k <= context;
      assert m < k ==> HunkAbove(lines, k, context);
      assert m > k ==> HunkBelow(lines, k, context);
    }
  }

  /** A context of 0 that keeps a context line: the one above the only change. */
  lemma {:induction false} ZeroContextKeepsContext()
    ensures var lines := [DiffLine(Ctx, 1, 1, "a"), DiffLine(Add, 0, 2, "b")];
      StopsAt(lines, 0, 24, 2) && Shown(lines, 0, 2) == lines
  {
    var lines := [DiffLine(Ctx, 1, 1, "a"), DiffLine(Add, 0, 2, "b")];
    assert Changed(lines[1]);
    assert HunkBelow(lines, 0, 0);
    ShownAll(lines, 0, 0, 2);
    assert FirstHunk(lines, 1);
  }
}
