/** The height of the entries that are not mounted: measured or estimated entry by entry, and added up
    so that mounting more or fewer of them moves nothing else on the page. */
module Spacer {
  import opened Ints
  import opened Turns

  /** One pointer tier's prices. */
  datatype EntryEstimates = EntryEstimates(
    text: real, emptyText: real, thinking: real, runCard: real, toolCard: real,
    subagentCard: real, planCard: real, steerNote: real, row: real)

  const ROW_GAP_PX := 12.0

  /** What a prose row measured, and the range it held then. */
  datatype RowHeight = RowHeight(range: EntryRange, px: real)

  /** One turn's measurements: entries by ordinal, prose rows by their first ordinal. */
  datatype Heights = Heights(entries: map<int, real>, rows: map<int, RowHeight>)

  datatype Side = Head | Tail

  // ---------------------------------------------------------------------------- prices

  /** The workflow a turn's tool results name, by result entry; the last one with an id wins. */
  function RunResults(body: seq<Entry>): map<string, string> {
    if body == [] then map[]
    else
      var e, rest := body[|body| - 1], RunResults(body[..|body| - 1]);
      if e.kind == ToolResult && e.call.workflow != "" then rest[e.id := e.call.workflow] else rest
  }

  method CollectRunResults(t: Turn) returns (out: map<string, string>)
    ensures out == RunResults(t.body)
  {
    out := map[];
    for i := 0 to |t.body|
      invariant out == RunResults(t.body[..i])
    {
      var e := t.body[i];
      assert t.body[..i + 1][..i] == t.body[..i];
      if e.kind == ToolResult && e.call.workflow != "" {
        out := out[e.id := e.call.workflow];
      }
    }
    assert t.body[..|t.body|] == t.body;
  }

  /** A call's own workflow, or else the one its result names. */
  function EffectiveRunID(e: Entry, results: map<string, string>): string {
    if e.kind == ToolCall && e.call.workflow != "" then e.call.workflow
    else if e.id + ":result" in results then results[e.id + ":result"] else ""
  }

  function CallEstimate(e: Entry, est: EntryEstimates, results: map<string, string>): real {
    if EffectiveRunID(e, results) != "" then est.runCard
    else if e.call.title == "Orchestrate Sub-agent" then est.subagentCard
    else if e.call.subtask != "" then (if e.call.pipeline == "" then est.subagentCard else 0.0)
    else est.toolCard
  }

  /** An entry's price while no measurement of it is known; for text, the price of a whole run. */
  function EstimateOf(e: Entry, est: EntryEstimates, results: map<string, string>): real {
    match e.kind
    case Text => if e.text == "" then est.emptyText else est.text
    case Thinking => est.thinking
    case ToolCall => CallEstimate(e, est, results)
    case Plan => est.planCard
    case Steer => est.steerNote
    case SteerAck => est.text
    case _ => est.row
  }

  /** Everything a price depends on. */
  datatype Prices = Prices(v: View, heights: Heights, est: EntryEstimates, results: map<string, string>)

  /** The height charged at ordinal `k`: the row a run starts with, or the entry drawn there. */
  function Own(p: Prices, k: int): real
    requires p.v.Renders(k)
  {
    var e := p.v.t.body[k - 1];
    if e.kind == Text then
      if k in p.heights.rows && p.heights.rows[k].range == Slice(p.v, EntryRange(k, k + 1)) then p.heights.rows[k].px
      else EstimateOf(e, p.est, p.results)
    else if k in p.heights.entries then p.heights.entries[k]
    else EstimateOf(e, p.est, p.results)
  }

  /** That height and, for a box that shows, the gap that comes with it. */
  function Worth(p: Prices, k: int): real
    requires p.v.Renders(k)
  {
    var own := Own(p, k);
    if own > 0.0 then own + ROW_GAP_PX else own
  }

  /** Reading from ordinal `from` on, ordinal `k` is charged: every entry is, but of a prose run only the first. */
  ghost predicate Charged(v: View, from: int, k: int) {
    v.Breaks(k) || (v.Prose(k) && forall m :: from <= m < k ==> !SameRun(v, m, k))
  }

  /** The height of ordinals `from..to`, as one stretch of unmounted space. */
  ghost function Height(p: Prices, from: int, to: int): real
    decreases to - from
  {
    if to <= from then 0.0
    else Height(p, from, to - 1) + (if Charged(p.v, from, to - 1) then Worth(p, to - 1) else 0.0)
  }

  /** The range one spacer stands in for. */
  function Stood(v: View, range: EntryRange, side: Side): EntryRange {
    if side == Head then EntryRange(0, Min(Max(range.from, 0), Span(v.t)))
    else EntryRange(Min(Max(range.to, 0), Span(v.t)), Span(v.t))
  }

  function GapsBetween(n: nat): real {
    if n == 0 then 0.0 else (n - 1) as real * ROW_GAP_PX
  }

  /** Text in front of `k`, from `from` on, that `k` would belong with. */
  ghost predicate RunOpen(v: View, from: int, k: int) {
    exists m :: from <= m < k && v.Prose(m) && forall l :: m < l < k ==> !v.Breaks(l)
  }

  lemma {:induction false} RunOpenCharges(v: View, from: int, k: int)
    requires v.Prose(k)
    ensures RunOpen(v, from, k) <==> !Charged(v, from, k)
  {
    if RunOpen(v, from, k) {
      var m :| from <= m < k && v.Prose(m) && forall l :: m < l < k ==> !v.Breaks(l);
      assert SameRun(v, m, k);
    }
  }

  lemma {:induction false} RunOpenNext(v: View, from: int, k: int)
    requires from <= k
    ensures RunOpen(v, from, k + 1) <==> !v.Breaks(k) && (v.Prose(k) || RunOpen(v, from, k))
    ensures !RunOpen(v, from, from)
  {
    if RunOpen(v, from, k + 1) && !v.Prose(k) {
      var m :| from <= m < k + 1 && v.Prose(m) && forall l :: m < l < k + 1 ==> !v.Breaks(l);
      assert m < k;
    }
    if !v.Breaks(k) && v.Prose(k) {
      assert from <= k < k + 1;
    } else if !v.Breaks(k) && RunOpen(v, from, k) {
      var m :| from <= m < k && v.Prose(m) && forall l :: m < l < k ==> !v.Breaks(l);
      assert forall l :: m < l < k + 1 ==> !v.Breaks(l);
    }
  }

  lemma {:induction false} NoHeight(p: Prices, x: int)
    ensures Height(p, x, x) == 0.0
  {
  }

  /** What reading ordinal `k` adds, and whether it leaves a run open. */
  lemma {:induction false} ReadOrdinal(p: Prices, from: int, k: int)
    requires from <= k
    ensures var v, here := p.v, Height(p, from, k);
      && (!v.Renders(k) ==> Height(p, from, k + 1) == here && (RunOpen(v, from, k + 1) <==> RunOpen(v, from, k)))
      && (v.Prose(k) ==> RunOpen(v, from, k + 1)
                         && Height(p, from, k + 1) == here + if RunOpen(v, from, k) then 0.0 else Worth(p, k))
      && (v.Breaks(k) ==> !RunOpen(v, from, k + 1) && Height(p, from, k + 1) == here + Worth(p, k))
  {
    hide RunOpen, Worth;
    RunOpenNext(p.v, from, k);
    if p.v.Prose(k) {
      RunOpenCharges(p.v, from, k);
    }
  }

  /** Rows are filed under the first ordinal of the range they measured. */
  ghost predicate Filed(h: Heights) {
    forall k :: k in h.rows ==> h.rows[k].range.from == k
  }

  /** A run is charged what its row measured, whenever a row that held exactly that run was measured, and
      the estimate otherwise: no measurement is missed and none answers for other entries. */
  lemma {:induction false} RowAnswersForItsRun(p: Prices, k: nat)
    requires Filed(p.heights) && p.v.Prose(k)
    ensures var first, run := RunFrom(p.v, k), ProseRunAt(p.v, k);
      && p.v.Prose(first)
      && (forall j :: j in p.heights.rows && p.heights.rows[j].range == run ==> Own(p, first) == p.heights.rows[j].px)
      && ((forall j :: j in p.heights.rows ==> p.heights.rows[j].range != run) ==>
            Own(p, first) == EstimateOf(p.v.t.body[first - 1], p.est, p.results))
  {
    hide RunFrom, RunTo, EstimateOf;
    RunBounds(p.v, k);
    OneRunOneRange(p.v, RunFrom(p.v, k), k);
  }

  /** Every measurement taken so far. */
  class HeightCache {
    var entryHeights: map<string, map<int, real>>
    var rowHeights: map<string, map<int, RowHeight>>

    constructor ()
      ensures entryHeights == map[] && rowHeights == map[]
    {
      entryHeights, rowHeights := map[], map[];
    }

    /** What the cache holds for one turn. */
    function Of(turnID: string): Heights
      reads this
    {
      Heights(if turnID in entryHeights then entryHeights[turnID] else map[],
              if turnID in rowHeights then rowHeights[turnID] else map[])
    }

    ghost predicate Valid()
      reads this
    {
      forall id :: Filed(Of(id))
    }

    method RecordEntryHeight(turnID: string, at: int, px: real)
      requires Valid()
      modifies this
      ensures Valid()
      ensures Of(turnID) == old(Of(turnID)).(entries := old(Of(turnID)).entries[at := px])
      ensures forall id :: id != turnID ==> Of(id) == old(Of(id))
    {
      var per := if turnID in entryHeights then entryHeights[turnID] else map[];
      entryHeights := entryHeights[turnID := per[at := px]];
      forall id ensures Filed(Of(id)) {
        assert Filed(old(Of(id)));
      }
    }

    method RecordRowHeight(turnID: string, range: EntryRange, px: real)
      requires Valid()
      modifies this
      ensures Valid()
      ensures Of(turnID) == old(Of(turnID)).(rows := old(Of(turnID)).rows[range.from := RowHeight(range, px)])
      ensures forall id :: id != turnID ==> Of(id) == old(Of(id))
    {
      var per := if turnID in rowHeights then rowHeights[turnID] else map[];
      rowHeights := rowHeights[turnID := per[range.from := RowHeight(range, px)]];
      assert Of(turnID).rows == old(Of(turnID)).rows[range.from := RowHeight(range, px)];
      forall id ensures Filed(Of(id)) {
        assert Filed(old(Of(id)));
      }
    }

    /** Drop what is known of some turns, and of no others. */
    method ForgetHeights(turnIDs: seq<string>)
      requires Valid()
      modifies this
      ensures Valid()
      ensures forall id :: Of(id) == if id in turnIDs then Heights(map[], map[]) else old(Of(id))
    {
      for i := 0 to |turnIDs|
        invariant forall id :: Of(id) == if id in turnIDs[..i] then Heights(map[], map[]) else old(Of(id))
      {
        entryHeights, rowHeights := entryHeights - {turnIDs[i]}, rowHeights - {turnIDs[i]};
        assert turnIDs[..i + 1] == turnIDs[..i] + [turnIDs[i]];
      }
      assert turnIDs[..|turnIDs|] == turnIDs;
      forall id ensures Filed(Of(id)) {
        assert Filed(old(Of(id)));
      }
    }

    /** The height of everything on one side of the mounted range, its gaps included. */
    method SpacerHeight(t: Turn, range: EntryRange, side: Side, lane: string, est: EntryEstimates) returns (px: real)
      ensures var p, n := Prices(View(t, lane), Of(t.id), est, RunResults(t.body)), Span(t);
        && (side == Head ==> px == Height(p, 0, Min(Max(range.from, 0), n)))
        && (side == Tail ==> px == Height(p, Min(Max(range.to, 0), n), n))
    {
      var v := View(t, lane);
      var stood := Stood(v, range, side);
      if stood.from >= stood.to {
        return 0.0;
      }
      var results := CollectRunResults(t);
      var p := Prices(v, Of(t.id), est, results);
      var firstPlan := FirstPlanSeq(t, lane);
      hide Height, Own, RunOpen, FirstPlan;
      RunOpenNext(v, stood.from, stood.from);
      assert Height(p, stood.from, stood.from) == 0.0 by { NoHeight(p, stood.from); }
      px := 0.0;
      var boxes: nat := 0;
      var inRun := false;
      for k := stood.from to stood.to
        invariant px + boxes as real * ROW_GAP_PX == Height(p, stood.from, k)
        invariant inRun <==> RunOpen(v, stood.from, k)
      {
        ReadOrdinal(p, stood.from, k);
        if k == 0 || !EntryRenders(t.body[k - 1], lane, firstPlan) {
          continue;
        }
        var text := t.body[k - 1].kind == Text;
        if text {
          if inRun {
            continue;
          }
        }
        var own := Own(p, k);
        inRun := text;
        px := px + own;
        if own > 0.0 {
          boxes := boxes + 1;
        }
      }
      px := if boxes == 0 then px else px + GapsBetween(boxes) + ROW_GAP_PX;
    }
  }

  // ------------------------------------------------------------ what one entry is worth

  /** Nothing but ordinal `k` is drawn between `from` and `to`. */
  predicate Alone(v: View, from: int, end: int, k: int) {
    from <= k < end && v.Renders(k) && forall j :: from <= j < end && j != k ==> !v.Renders(j)
  }

  lemma {:induction false} NothingToRead(p: Prices, from: int, end: int)
    requires forall j :: from <= j < end ==> !p.v.Renders(j)
    ensures Height(p, from, end) == 0.0
    decreases end - from
  {
    if from < end {
      NothingToRead(p, from, end - 1);
      assert !Charged(p.v, from, end - 1);
    }
  }

  lemma {:induction false} AloneHeight(p: Prices, from: int, end: int, k: int)
    requires Alone(p.v, from, end, k)
    ensures Height(p, from, end) == Worth(p, k)
    decreases end - from
  {
    hide Worth;
    HeightStep(p, from, end);
    if k < end - 1 {
      AloneHeight(p, from, end - 1, k);
    } else {
      NothingToRead(p, from, k);
      assert Charged(p.v, from, k);
    }
  }

  /** A spacer over one measured entry is as high as that was, and a gap more when it shows. */
  lemma {:induction false} MeasuredEntryHeight(p: Prices, from: int, end: int, k: int)
    requires Alone(p.v, from, end, k) && p.v.Breaks(k) && k in p.heights.entries
    ensures var px := p.heights.entries[k];
      Height(p, from, end) == if px > 0.0 then px + 12.0 else px
  {
    AloneHeight(p, from, end, k);
  }

  /** A spacer over one measured run is as high as its row was, and a gap more when it shows. */
  lemma {:induction false} MeasuredRunHeight(p: Prices, from: int, end: int, k: int)
    requires Alone(p.v, from, end, k) && p.v.Prose(k) && RunFrom(p.v, k) == RunTo(p.v, k) == k
    requires Filed(p.heights) && k in p.heights.rows && p.heights.rows[k].range == EntryRange(k, k + 1)
    ensures var px := p.heights.rows[k].px;
      Height(p, from, end) == if px > 0.0 then px + 12.0 else px
  {
    hide RunFrom, RunTo;
    AloneHeight(p, from, end, k);
    RowAnswersForItsRun(p, k);
  }

  /** A call launches a workflow: it names one itself, or some result of it does. */
  ghost predicate Launches(t: Turn, e: Entry) {
    || e.call.workflow != ""
    || exists j :: 0 <= j < |t.body| && t.body[j].kind == ToolResult && t.body[j].id == e.id + ":result"
                   && t.body[j].call.workflow != ""
  }

  /** The price of an entry that was never measured, kind by kind.  Of a pipeline only the call that drives
      it has a price, that of one card. */
  ghost predicate PricedAt(t: Turn, e: Entry, est: EntryEstimates, px: real) {
    match e.kind
    case Text => px == (if e.text == "" then est.emptyText else est.text)
    case SteerAck => px == est.text
    case Thinking => px == est.thinking
    case Plan => px == est.planCard
    case Steer => px == est.steerNote
    case EventRow => px == est.row
    case ToolCall =>
      && (Launches(t, e) ==> px == est.runCard)
      && (!Launches(t, e) && e.call.title == "Orchestrate Sub-agent" ==> px == est.subagentCard)
      && (!Launches(t, e) && e.call.title != "Orchestrate Sub-agent" ==>
            && (e.call.subtask == "" ==> px == est.toolCard)
            && (e.call.subtask != "" && e.call.pipeline == "" ==> px == est.subagentCard)
            && (e.call.subtask != "" && e.call.pipeline != "" ==> px == 0.0))
    case _ => false
  }

  lemma {:induction false} ResultsName(body: seq<Entry>, id: string)
    ensures id in RunResults(body) <==>
      exists j :: 0 <= j < |body| && body[j].kind == ToolResult && body[j].id == id && body[j].call.workflow != ""
    ensures id in RunResults(body) ==> RunResults(body)[id] != ""
  {
    if body != [] {
      var init, last := body[..|body| - 1], body[|body| - 1];
      ResultsName(init, id);
      if j :| 0 <= j < |body| && body[j].kind == ToolResult && body[j].id == id && body[j].call.workflow != "" {
        assert j < |init| ==> init[j] == body[j];
      }
      assert forall j :: 0 <= j < |init| ==> init[j] == body[j];
    }
  }

  /** A spacer over one entry nothing was measured of is as high as its price, and a gap more when that
      is something. */
  lemma {:induction false} UnmeasuredHeight(p: Prices, from: int, end: int, k: int) returns (px: real)
    requires Alone(p.v, from, end, k) && p.results == RunResults(p.v.t.body)
    requires k !in p.heights.entries && k !in p.heights.rows
    ensures PricedAt(p.v.t, p.v.t.body[k - 1], p.est, px)
    ensures Height(p, from, end) == if px > 0.0 then px + 12.0 else px
  {
    AloneHeight(p, from, end, k);
    var e := p.v.t.body[k - 1];
    ResultsName(p.v.t.body, e.id + ":result");
    hide Height, RunResults;
    px := Own(p, k);
  }

  /** A stretch over two prices that agree but at `k`. */
  lemma {:induction false} PricesDiffer(p: Prices, q: Prices, from: int, end: int, k: int)
    requires p.v == q.v && forall j :: p.v.Renders(j) && j != k ==> Worth(p, j) == Worth(q, j)
    ensures Height(q, from, end) - Height(p, from, end) ==
      if from <= k < end && Charged(p.v, from, k) then Worth(q, k) - Worth(p, k) else 0.0
    decreases end - from
  {
    hide Worth;
    if from < end {
      assert Charged(p.v, from, end - 1) ==> p.v.Renders(end - 1);
      PricesDiffer(p, q, from, end - 1, k);
    }
  }

  /** Recording an entry's height moves every spacer over it, whatever else that stands for, by what the
      record differs from what it was priced at alone; it moves no other spacer, and none at all when
      the ordinal is no entry of its own. */
  lemma {:induction false} RecordingMoves(p: Prices, from: int, end: int, k: int, px: real)
    ensures var q := p.(heights := p.heights.(entries := p.heights.entries[k := px]));
      var moved := Height(p, from, end) - Height(p, k, k + 1) + (if px > 0.0 then px + 12.0 else px);
      Height(q, from, end) == if from <= k < end && p.v.Breaks(k) then moved else Height(p, from, end)
  {
    var q := p.(heights := p.heights.(entries := p.heights.entries[k := px]));
    assert forall j :: p.v.Renders(j) && (j != k || !p.v.Breaks(k)) ==> Worth(p, j) == Worth(q, j);
    PricesDiffer(p, q, from, end, k);
    if p.v.Breaks(k) {
      AloneHeight(p, k, k + 1, k);
      hide Height;
      assert Worth(q, k) == if px > 0.0 then px + 12.0 else px;
    }
  }

  // --------------------------------------------------------- the document's own height

  /** A reading that starts over at `x`, in the middle of a run opened from `a` on, charges that run
      again at ordinal `m`: the next one drawn, when it is text. */
  ghost predicate Recharged(v: View, a: int, x: int, m: int) {
    x <= m && v.Prose(m) && RunOpen(v, a, x) && forall l :: x <= l < m ==> !v.Renders(l)
  }

  lemma {:induction false} ChargesDiffer(v: View, a: int, x: int, k: int)
    requires a <= x <= k
    ensures Charged(v, a, k) ==> Charged(v, x, k)
    ensures Charged(v, x, k) && !Charged(v, a, k) <==> Recharged(v, a, x, k)
  {
    if v.Prose(k) {
      RunOpenCharges(v, a, k);
      RunOpenCharges(v, x, k);
      if Recharged(v, a, x, k) {
        var m :| a <= m < x && v.Prose(m) && forall l :: m < l < x ==> !v.Breaks(l);
        assert forall l :: m < l < k ==> !v.Breaks(l);
        assert RunOpen(v, a, k);
      }
      if RunOpen(v, a, k) && !RunOpen(v, x, k) {
        var m :| a <= m < k && v.Prose(m) && forall l :: m < l < k ==> !v.Breaks(l);
        assert m < x;
        forall l | x <= l < k ensures !v.Renders(l) {
          if v.Renders(l) {
            LastProse(v, l, k);
          }
        }
        assert RunOpen(v, a, x);
      }
    }
  }

  /** Text before `k` with nothing but text drawn after it leaves a run open at `k`. */
  lemma {:induction false} LastProse(v: View, l: int, k: int)
    requires l < k && v.Renders(l) && forall j :: l <= j < k ==> !v.Breaks(j)
    ensures RunOpen(v, l, k)
  {
    assert !v.Breaks(l);
    assert v.Prose(l);
  }

  lemma {:induction false} NothingRecharged(p: Prices, a: int, x: int, c: int)
    requires a <= x <= c && forall m :: x <= m < c ==> !Recharged(p.v, a, x, m)
    ensures Height(p, a, x) + Height(p, x, c) == Height(p, a, c)
    decreases c - x
  {
    hide Charged, Worth, Recharged, Height;
    if x < c {
      NothingRecharged(p, a, x, c - 1);
      HeightStep(p, a, c);
      HeightStep(p, x, c);
      ChargesDiffer(p.v, a, x, c - 1);
    } else {
      NoHeight(p, x);
    }
  }

  lemma {:induction false} RunRecharged(p: Prices, a: int, x: int, c: int, m: int)
    requires a <= x <= m < c && Recharged(p.v, a, x, m)
    ensures Height(p, a, x) + Height(p, x, c) == Height(p, a, c) + Worth(p, m)
    decreases c - x
  {
    hide Charged, Worth, Recharged, Height;
    HeightStep(p, a, c);
    HeightStep(p, x, c);
    ChargesDiffer(p.v, a, x, c - 1);
    RechargedOnce(p.v, a, x);
    if m < c - 1 {
      RunRecharged(p, a, x, c - 1, m);
    } else {
      NothingRecharged(p, a, x, c - 1);
    }
  }

  /** Two stretches that meet are worth what they are worth as one, and once more the run the second one recharges. */
  lemma {:induction false} HeightSplit(p: Prices, a: int, x: int, c: int)
    requires a <= x <= c
    ensures (forall m :: x <= m < c ==> !Recharged(p.v, a, x, m)) ==>
      Height(p, a, x) + Height(p, x, c) == Height(p, a, c)
    ensures forall m :: x <= m < c && Recharged(p.v, a, x, m) ==>
      Height(p, a, x) + Height(p, x, c) == Height(p, a, c) + Worth(p, m)
  {
    hide Worth, RunOpen, Height;
    if m :| x <= m < c && Recharged(p.v, a, x, m) {
      forall m | x <= m < c && Recharged(p.v, a, x, m)
        ensures Height(p, a, x) + Height(p, x, c) == Height(p, a, c) + Worth(p, m)
      {
        RunRecharged(p, a, x, c, m);
      }
    } else {
      NothingRecharged(p, a, x, c);
    }
  }

  lemma {:induction false} HeightStep(p: Prices, from: int, to: int)
    requires from < to
    ensures Height(p, from, to) ==
      Height(p, from, to - 1) + if Charged(p.v, from, to - 1) then Worth(p, to - 1) else 0.0
  {
  }

  lemma {:induction false} RechargedOnce(v: View, a: int, x: int)
    ensures forall m, n :: Recharged(v, a, x, m) && Recharged(v, a, x, n) ==> m == n
  {
    hide RunOpen;
  }

  /** An edge recharges a run exactly when it cuts one in two. */
  lemma {:induction false} RechargedIffSplit(v: View, x: int)
    requires 0 <= x <= Span(v.t)
    ensures SplitsRun(v, x) <==> exists m :: x <= m < Span(v.t) && Recharged(v, 0, x, m)
  {
    if SplitsRun(v, x) {
      var a, b :| a < x <= b && SameRun(v, a, b);
      var m := x;
      while !v.Renders(m)
        invariant x <= m <= b
        invariant forall l :: x <= l < m ==> !v.Renders(l)
        decreases b - m
      {
        m := m + 1;
      }
      assert !v.Breaks(m);
      assert RunOpen(v, 0, x);
      assert Recharged(v, 0, x, m);
    }
    if m :| x <= m < Span(v.t) && Recharged(v, 0, x, m) {
      var a :| 0 <= a < x && v.Prose(a) && forall l :: a < l < x ==> !v.Breaks(l);
      assert SameRun(v, a, m);
    }
  }

  /** The head spacer in front of `x` and the tail spacer behind it add up to the same total for every
      edge that cuts no prose run; an edge that does cut one adds what the cut run is worth again,
      so the total is right exactly when there is no cut or the run's second half is worth nothing. */
  lemma {:induction false} SpacersAddUp(p: Prices, x: int)
    requires 0 <= x <= Span(p.v.t)
    ensures var n := Span(p.v.t);
      && (Height(p, 0, x) + Height(p, x, n) == Height(p, 0, n) <==>
            !SplitsRun(p.v, x) || exists m :: x <= m < n && Recharged(p.v, 0, x, m) && Own(p, m) == 0.0)
      && forall m :: x <= m < n && Recharged(p.v, 0, x, m) ==>
            Height(p, 0, x) + Height(p, x, n) == Height(p, 0, n) + Worth(p, m)
  {
    HeightSplit(p, 0, x, Span(p.v.t));
    RechargedIffSplit(p.v, x);
  }

  /** With both edges on run boundaries, the two spacers and the mounted range between them always
      make up the whole turn, wherever the window stands. */
  lemma {:induction false} DocumentHeight(p: Prices, range: EntryRange)
    requires 0 <= range.from <= range.to <= Span(p.v.t)
    requires !SplitsRun(p.v, range.from) && !SplitsRun(p.v, range.to)
    ensures var head, tail := Stood(p.v, range, Head), Stood(p.v, range, Tail);
      Height(p, head.from, head.to) + Height(p, range.from, range.to) + Height(p, tail.from, tail.to)
        == Height(p, 0, Span(p.v.t))
  {
    var n := Span(p.v.t);
    RechargedIffSplit(p.v, range.from);
    RechargedIffSplit(p.v, range.to);
    HeightSplit(p, 0, range.from, range.to);
    HeightSplit(p, 0, range.to, n);
  }
}
