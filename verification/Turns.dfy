/** A turn as the transcript draws it: its entries' ordinals, which of them a view renders, and the
    prose runs the text entries form. */
module Turns {
  import opened Ints

  /** The entry kinds the window and the spacers tell apart; every event badge is an `EventRow`. */
  datatype Kind =
    | TurnOpen | TurnClose | TurnBind | ToolResult | Reconciled
    | Plan | Steer | SteerAck | Text | Thinking | ToolCall | EventRow

  /** What a tool call or its result carries: the workflow it names, and for a call its title, its
      delegate's subtask id and the pipeline its own id makes it a stage of. */
  datatype Call = Call(workflow: string, title: string, subtask: string, pipeline: string)

  datatype Entry = Entry(id: string, kind: Kind, lane: string, ordinal: nat, text: string, call: Call)

  /** `body` is the turn's log past its opening entry, which holds ordinal 0. */
  datatype Turn = Turn(id: string, body: seq<Entry>)

  /** Ordinals from `from` up to, but not with, `to`. */
  datatype EntryRange = EntryRange(from: int, to: int)

  datatype TurnCost = TurnCost(entries: nat, toolCalls: nat)

  function Span(t: Turn): nat {
    |t.body| + 1
  }

  /** Whether a view of `lane` draws anything at an entry's own position. */
  predicate EntryRenders(e: Entry, lane: string, firstPlan: int) {
    if e.kind == Steer then lane == ""
    else if e.lane != lane then false
    else match e.kind
      case TurnOpen | TurnClose | TurnBind | ToolResult | Reconciled => false
      case Plan => firstPlan == e.ordinal
      case _ => true
  }

  predicate IsPlanOf(e: Entry, lane: string) {
    e.kind == Plan && e.lane == lane
  }

  /** The ordinal of the first plan a lane holds, or -1. */
  function FirstPlan(body: seq<Entry>, lane: string): (r: int)
    ensures r >= -1
  {
    if body == [] then -1
    else if IsPlanOf(body[0], lane) then body[0].ordinal
    else FirstPlan(body[1..], lane)
  }

  method FirstPlanSeq(t: Turn, lane: string) returns (r: int)
    ensures r == FirstPlan(t.body, lane)
  {
    for i := 0 to |t.body|
      invariant FirstPlan(t.body, lane) == FirstPlan(t.body[i..], lane)
    {
      if IsPlanOf(t.body[i], lane) {
        return t.body[i].ordinal;
      }
      assert t.body[i..][1..] == t.body[i + 1..];
    }
    return -1;
  }

  /** What `body` costs to draw: its visible entries, tool calls counted a second time apart. */
  function Cost(body: seq<Entry>, lane: string, firstPlan: int): TurnCost {
    if body == [] then TurnCost(0, 0)
    else
      var last, rest := body[|body| - 1], Cost(body[..|body| - 1], lane, firstPlan);
      if !EntryRenders(last, lane, firstPlan) then rest
      else TurnCost(rest.entries + 1, rest.toolCalls + if last.kind == ToolCall then 1 else 0)
  }

  lemma {:induction false} CostGrows(body: seq<Entry>, n: nat, lane: string, firstPlan: int)
    requires n <= |body|
    ensures Cost(body[..n], lane, firstPlan).entries <= Cost(body, lane, firstPlan).entries
    decreases |body|
  {
    if n < |body| {
      var shorter := body[..|body| - 1];
      CostGrows(shorter, n, lane, firstPlan);
      assert shorter[..n] == body[..n];
    } else {
      assert body[..n] == body;
    }
  }

  // ------------------------------------------------------------------------ prose runs

  /** One turn seen from one lane. */
  datatype View = View(t: Turn, lane: string) {
    function First(): int {
      FirstPlan(t.body, lane)
    }

    /** Something is drawn at ordinal `at`. */
    predicate Renders(at: int) {
      1 <= at < Span(t) && EntryRenders(t.body[at - 1], lane, First())
    }

    /** What is drawn there is text, so it belongs to a prose run. */
    predicate Prose(at: int) {
      Renders(at) && t.body[at - 1].kind == Text
    }

    /** What is drawn there is something else, which ends any run. */
    predicate Breaks(at: int) {
      Renders(at) && t.body[at - 1].kind != Text
    }
  }

  // What is drawn, apart from how it is found out.

  /** Every entry's number is its place in the turn. */
  predicate Placed(t: Turn) {
    forall k :: 0 <= k < |t.body| ==> t.body[k].ordinal == k + 1
  }

  /** The entry at ordinal `k` is a plan of the lane. */
  predicate PlanAt(t: Turn, lane: string, k: int) {
    1 <= k < Span(t) && t.body[k - 1].kind == Plan && t.body[k - 1].lane == lane
  }

  /** What a view of `lane` is to draw: in the root view every steer, whichever lane it carries, and of
      the lane's own entries the first plan and whatever is no plan, no frame around the turn, no
      result of a call and no note of a reconciliation. */
  ghost predicate ToDraw(t: Turn, lane: string, k: int) {
    1 <= k < Span(t) &&
    var e := t.body[k - 1];
    if e.kind == Steer then lane == ""
    else
      && e.lane == lane
      && e.kind !in {TurnOpen, TurnClose, TurnBind, ToolResult, Reconciled}
      && (e.kind == Plan ==> forall j :: j < k ==> !PlanAt(t, lane, j))
  }

  /** The first plan is the one with no plan before it. */
  lemma {:induction false} FirstPlanAt(t: Turn, lane: string, n: nat)
    requires Placed(t) && n <= |t.body| && forall j :: 1 <= j <= n ==> !PlanAt(t, lane, j)
    ensures var f := FirstPlan(t.body[n..], lane);
      if f == -1 then forall j :: !PlanAt(t, lane, j)
      else PlanAt(t, lane, f) && forall j :: j < f ==> !PlanAt(t, lane, j)
    decreases |t.body| - n
  {
    if n < |t.body| {
      assert t.body[n..][1..] == t.body[n + 1..];
      assert t.body[n..][0] == t.body[(n + 1) - 1];
      if !PlanAt(t, lane, n + 1) {
        FirstPlanAt(t, lane, n + 1);
      }
    }
  }

  /** A view draws exactly what it is to draw. */
  lemma {:induction false} RendersIff(t: Turn, lane: string, k: int)
    requires Placed(t)
    ensures View(t, lane).Renders(k) <==> ToDraw(t, lane, k)
  {
    FirstPlanAt(t, lane, 0);
    assert t.body[0..] == t.body;
    hide FirstPlan;
    var f := FirstPlan(t.body, lane);
    if 1 <= k < Span(t) && t.body[k - 1].kind == Plan && t.body[k - 1].lane == lane {
      assert PlanAt(t, lane, k);
      assert f == k <==> forall j :: j < k ==> !PlanAt(t, lane, j);
    }
  }

  /** So it draws one plan at most. */
  lemma {:induction false} OnePlanDrawn(t: Turn, lane: string, j: int, k: int)
    requires Placed(t) && View(t, lane).Renders(j) && View(t, lane).Renders(k)
    requires t.body[j - 1].kind == t.body[k - 1].kind == Plan
    ensures j == k
  {
    RendersIff(t, lane, j);
    RendersIff(t, lane, k);
    assert PlanAt(t, lane, j) && PlanAt(t, lane, k);
  }

  ghost function DrawnUpTo(t: Turn, lane: string, n: nat): set<int> {
    set k | 1 <= k <= n && ToDraw(t, lane, k)
  }

  ghost function CallsUpTo(t: Turn, lane: string, n: nat): set<int> {
    set k | 1 <= k <= n && ToDraw(t, lane, k) && t.body[k - 1].kind == ToolCall
  }

  /** A turn costs as many entries, and as many tool calls, as the view is to draw of it. */
  lemma {:induction false} CostIsCount(t: Turn, lane: string, n: nat)
    requires Placed(t) && n <= |t.body|
    ensures Cost(t.body[..n], lane, FirstPlan(t.body, lane)) ==
      TurnCost(|DrawnUpTo(t, lane, n)|, |CallsUpTo(t, lane, n)|)
  {
    hide ToDraw, FirstPlan, EntryRenders;
    if n == 0 {
      assert DrawnUpTo(t, lane, 0) == {} && CallsUpTo(t, lane, 0) == {};
    } else {
      CostIsCount(t, lane, n - 1);
      RendersIff(t, lane, n);
      CostSnoc(t.body, n - 1, lane, FirstPlan(t.body, lane));
      OneMoreDrawn(t, lane, n);
    }
  }

  lemma {:induction false} CostSnoc(body: seq<Entry>, n: nat, lane: string, firstPlan: int)
    requires n < |body|
    ensures var rest, c := Cost(body[..n], lane, firstPlan), Cost(body[..n + 1], lane, firstPlan);
      c == if !EntryRenders(body[n], lane, firstPlan) then rest
           else TurnCost(rest.entries + 1, rest.toolCalls + if body[n].kind == ToolCall then 1 else 0)
  {
    assert body[..n + 1][..n] == body[..n];
  }

  lemma {:induction false} OneMoreDrawn(t: Turn, lane: string, n: nat)
    requires 1 <= n <= |t.body|
    ensures var more := if ToDraw(t, lane, n) then 1 else 0;
      && |DrawnUpTo(t, lane, n)| == |DrawnUpTo(t, lane, n - 1)| + more
      && |CallsUpTo(t, lane, n)| ==
         |CallsUpTo(t, lane, n - 1)| + if t.body[n - 1].kind == ToolCall then more else 0
  {
    hide ToDraw;
    GrowsBy(DrawnUpTo(t, lane, n - 1), DrawnUpTo(t, lane, n), n, ToDraw(t, lane, n));
    GrowsBy(CallsUpTo(t, lane, n - 1), CallsUpTo(t, lane, n), n,
            ToDraw(t, lane, n) && t.body[n - 1].kind == ToolCall);
  }

  lemma {:induction false} GrowsBy(x: set<int>, y: set<int>, n: int, more: bool)
    requires n !in x && forall k :: k in y <==> k in x || (more && k == n)
    ensures |y| == |x| + if more then 1 else 0
  {
    var z := if more then x + {n} else x;
    forall k ensures k in y <==> k in z {
    }
    assert y == z;
  }

  lemma {:induction false} NothingDrawn(t: Turn, lane: string)
    requires Placed(t)
    ensures Cost(t.body, lane, FirstPlan(t.body, lane)).entries == 0 <==> forall k :: !ToDraw(t, lane, k)
  {
    hide ToDraw, Cost;
    CostIsCount(t, lane, |t.body|);
    assert t.body[..|t.body|] == t.body;
    var drawn := DrawnUpTo(t, lane, |t.body|);
    if k :| ToDraw(t, lane, k) {
      ToDrawWithin(t, lane, k);
      assert k in drawn;
    } else {
      assert drawn == {};
    }
  }

  lemma {:induction false} ToDrawWithin(t: Turn, lane: string, k: int)
    requires ToDraw(t, lane, k)
    ensures 1 <= k < Span(t)
  {
  }

  // The two counts of the source.

  method CostOf(t: Turn, lane: string) returns (cost: TurnCost)
    ensures cost == Cost(t.body, lane, FirstPlan(t.body, lane))
    ensures Placed(t) ==>
      cost == TurnCost(|DrawnUpTo(t, lane, |t.body|)|, |CallsUpTo(t, lane, |t.body|)|)
  {
    var firstPlan := FirstPlanSeq(t, lane);
    var entries, toolCalls := 0, 0;
    for i := 0 to |t.body|
      invariant TurnCost(entries, toolCalls) == Cost(t.body[..i], lane, firstPlan)
    {
      assert t.body[..i + 1][..i] == t.body[..i];
      if EntryRenders(t.body[i], lane, firstPlan) {
        entries := entries + 1;
        if t.body[i].kind == ToolCall {
          toolCalls := toolCalls + 1;
        }
      }
    }
    assert t.body[..|t.body|] == t.body;
    cost := TurnCost(entries, toolCalls);
    if Placed(t) {
      CostIsCount(t, lane, |t.body|);
    }
  }

  /** The existence test agrees with the count, though it settles the lane's first plan on the way. */
  method RendersNothing(t: Turn, lane: string) returns (nothing: bool)
    ensures nothing <==> Cost(t.body, lane, FirstPlan(t.body, lane)).entries == 0
    ensures Placed(t) ==> (nothing <==> forall k :: !ToDraw(t, lane, k))
  {
    if Placed(t) {
      NothingDrawn(t, lane);
    }
    var firstPlan: int := -1;
    ghost var first := FirstPlan(t.body, lane);
    for i := 0 to |t.body|
      invariant firstPlan < 0 ==> firstPlan == -1 && first == FirstPlan(t.body[i..], lane)
      invariant firstPlan >= 0 ==> firstPlan == first
      invariant Cost(t.body[..i], lane, first).entries == 0
    {
      var e := t.body[i];
      assert t.body[i..][1..] == t.body[i + 1..];
      assert t.body[..i + 1][..i] == t.body[..i];
      if firstPlan < 0 && IsPlanOf(e, lane) {
        firstPlan := e.ordinal;
      }
      assert EntryRenders(e, lane, firstPlan) == EntryRenders(e, lane, first);
      if EntryRenders(e, lane, firstPlan) {
        CostGrows(t.body, i + 1, lane, first);
        return false;
      }
    }
    assert t.body[..|t.body|] == t.body;
    return true;
  }

  /** `a` and `b` are text of one run: nothing drawn between them is anything but text. */
  ghost predicate SameRun(v: View, a: int, b: int) {
    && v.Prose(a) && v.Prose(b)
    && forall k :: a < k < b || b < k < a ==> !v.Breaks(k)
  }

  /** Being in one run is transitive, so runs partition the text a view draws. */
  lemma {:induction false} SameRunTrans(v: View, a: int, b: int, c: int)
    requires SameRun(v, a, b) && SameRun(v, b, c)
    ensures SameRun(v, a, c)
  {
  }

  /** Walk down from below `at`, remembering the lowest text met, until something breaks the run. */
  function WalkDown(v: View, i: nat, first: nat): nat
    decreases i
  {
    if i == 0 then first
    else if v.Prose(i) then WalkDown(v, i - 1, i)
    else if v.Renders(i) then first
    else WalkDown(v, i - 1, first)
  }

  /** The first ordinal of the run `at` is in, or `at` itself. */
  function RunFrom(v: View, at: nat): nat {
    if v.Prose(at) then WalkDown(v, at - 1, at) else at
  }

  function WalkUp(v: View, i: nat, last: nat): nat
    decreases Span(v.t) - i
  {
    if i >= Span(v.t) then last
    else if v.Prose(i) then WalkUp(v, i + 1, i)
    else if v.Renders(i) then last
    else WalkUp(v, i + 1, last)
  }

  /** The last ordinal of the run `at` is in, or `at` itself. */
  function RunTo(v: View, at: nat): nat {
    if v.Prose(at) then WalkUp(v, at + 1, at) else at
  }

  lemma {:induction false} WalkDownIs(v: View, i: nat, first: nat, at: nat)
    requires i < first <= at && SameRun(v, first, at) && forall k :: i < k < first ==> !v.Renders(k)
    ensures var m := WalkDown(v, i, first);
      m <= first && SameRun(v, m, at) && forall k :: 0 <= k < m ==> !SameRun(v, k, at)
    decreases i
  {
    if i > 0 {
      if v.Prose(i) {
        assert SameRun(v, i, at) by {
          assert SameRun(v, i, first);
          SameRunTrans(v, i, first, at);
        }
        WalkDownIs(v, i - 1, i, at);
      } else if v.Renders(i) {
        assert v.Breaks(i);
      } else {
        WalkDownIs(v, i - 1, first, at);
      }
    }
  }

  lemma {:induction false} WalkUpIs(v: View, i: nat, last: nat, at: nat)
    requires at <= last < i && SameRun(v, at, last) && forall k :: last < k < i ==> !v.Renders(k)
    ensures var m := WalkUp(v, i, last);
      m >= last && SameRun(v, at, m) && forall k :: m < k ==> !SameRun(v, at, k)
    decreases Span(v.t) - i
  {
    if i < Span(v.t) {
      if v.Prose(i) {
        assert SameRun(v, at, i) by {
          assert SameRun(v, last, i);
          SameRunTrans(v, at, last, i);
        }
        WalkUpIs(v, i + 1, i, at);
      } else if v.Renders(i) {
        assert v.Breaks(i);
      } else {
        WalkUpIs(v, i + 1, last, at);
      }
    }
  }

  /** `RunFrom` and `RunTo` are the least and the greatest member of the run. */
  lemma {:induction false} RunBounds(v: View, at: nat)
    requires v.Prose(at)
    ensures RunFrom(v, at) <= at <= RunTo(v, at)
    ensures SameRun(v, RunFrom(v, at), at) && SameRun(v, at, RunTo(v, at))
    ensures forall k :: SameRun(v, k, at) ==> RunFrom(v, at) <= k <= RunTo(v, at)
  {
    assert SameRun(v, at, at);
    WalkDownIs(v, at - 1, at, at);
    WalkUpIs(v, at + 1, at, at);
    assert forall k :: SameRun(v, k, at) ==> SameRun(v, at, k);
  }

  method RunStart(v: View, at: nat) returns (first: nat)
    ensures first == RunFrom(v, at)
  {
    if !v.Prose(at) {
      return at;
    }
    first := at;
    var i := at - 1;
    while i > 0
      invariant 0 <= i
      invariant RunFrom(v, at) == WalkDown(v, i, first)
    {
      if v.Prose(i) {
        first := i;
      } else if v.Renders(i) {
        break;
      }
      i := i - 1;
    }
  }

  method RunEnd(v: View, at: nat) returns (last: nat)
    ensures last == RunTo(v, at)
  {
    if !v.Prose(at) {
      return at;
    }
    last := at;
    var i := at + 1;
    while i < Span(v.t)
      invariant at < i <= Span(v.t)
      invariant RunTo(v, at) == WalkUp(v, i, last)
    {
      if v.Prose(i) {
        last := i;
      } else if v.Renders(i) {
        break;
      }
      i := i + 1;
    }
  }

  /** A range clamped into the turn. */
  function Clamp(v: View, range: EntryRange): (r: EntryRange)
    ensures 0 <= r.from <= r.to <= Span(v.t)
  {
    var from := Min(Max(range.from, 0), Span(v.t));
    EntryRange(from, Min(Max(range.to, from), Span(v.t)))
  }

  /** A range clamped into the turn and, where its edges rest on text, widened to whole runs. */
  function Slice(v: View, range: EntryRange): EntryRange {
    var r := Clamp(v, range);
    if r.from >= r.to then r else EntryRange(RunFrom(v, r.from), RunTo(v, r.to - 1) + 1)
  }

  method SliceTurn(v: View, range: EntryRange) returns (r: EntryRange)
    ensures r == Slice(v, range)
  {
    var clamped := Clamp(v, range);
    if clamped.from >= clamped.to {
      return clamped;
    }
    var from := RunStart(v, clamped.from);
    var to := RunEnd(v, clamped.to - 1);
    r := EntryRange(from, to + 1);
  }

  /** The range of the run `at` belongs to, when it is text the view draws. */
  function ProseRunAt(v: View, at: nat): EntryRange
    requires v.Prose(at)
  {
    EntryRange(RunFrom(v, at), RunTo(v, at) + 1)
  }

  lemma {:induction false} OneRunOneRange(v: View, a: nat, b: nat)
    requires SameRun(v, a, b)
    ensures RunFrom(v, a) == RunFrom(v, b) && RunTo(v, a) == RunTo(v, b)
  {
    hide RunFrom, RunTo;
    RunBounds(v, a);
    RunBounds(v, b);
    SameRunTrans(v, RunFrom(v, a), a, b);
    SameRunTrans(v, RunFrom(v, b), b, a);
    SameRunTrans(v, RunTo(v, a), a, b);
    SameRunTrans(v, RunTo(v, b), b, a);
  }

  /** Text between two members of a run is a member of it. */
  lemma {:induction false} InsideRun(v: View, a: int, x: int, b: int)
    requires SameRun(v, a, b) && a <= x <= b && v.Prose(x)
    ensures SameRun(v, a, x) && SameRun(v, x, b)
  {
  }

  /** Runs whose ranges meet are one. */
  lemma {:induction false} RunsMeet(v: View, a: nat, b: nat)
    requires v.Prose(a) && v.Prose(b) && RunFrom(v, b) <= RunTo(v, a) && RunFrom(v, a) <= RunTo(v, b)
    ensures SameRun(v, a, b)
  {
    hide RunFrom, RunTo;
    RunBounds(v, a);
    RunBounds(v, b);
    var x := Max(RunFrom(v, a), RunFrom(v, b));
    SameRunTrans(v, RunFrom(v, a), a, RunTo(v, a));
    SameRunTrans(v, RunFrom(v, b), b, RunTo(v, b));
    InsideRun(v, RunFrom(v, a), x, RunTo(v, a));
    InsideRun(v, RunFrom(v, b), x, RunTo(v, b));
    SameRunTrans(v, x, RunFrom(v, a), a);
    SameRunTrans(v, x, RunFrom(v, b), b);
    SameRunTrans(v, a, x, b);
  }

  /** Members of one run agree on its range, members of different runs have disjoint ones, and
      nothing but text is drawn inside. */
  lemma {:induction false} ProseRuns(v: View, a: nat, b: nat)
    requires v.Prose(a) && v.Prose(b)
    ensures var r, s := ProseRunAt(v, a), ProseRunAt(v, b);
      && (SameRun(v, a, b) ==> r == s)
      && (!SameRun(v, a, b) ==> r.to <= s.from || s.to <= r.from)
      && (forall k :: r.from <= k < r.to ==> !v.Breaks(k))
  {
    hide RunFrom, RunTo;
    RunBounds(v, a);
    SameRunTrans(v, RunFrom(v, a), a, RunTo(v, a));
    if SameRun(v, a, b) {
      OneRunOneRange(v, a, b);
    } else if RunFrom(v, b) <= RunTo(v, a) && RunFrom(v, a) <= RunTo(v, b) {
      RunsMeet(v, a, b);
    }
  }

  /** A window edge in front of ordinal `x` would cut a run in two. */
  ghost predicate SplitsRun(v: View, x: int) {
    exists a, b :: a < x <= b && SameRun(v, a, b)
  }

  /** Widening covers what it was given, stays inside the turn and is done after one pass. */
  lemma {:induction false} SliceCovers(v: View, range: EntryRange)
    ensures var c, r := Clamp(v, range), Slice(v, range);
      && 0 <= r.from <= c.from <= c.to <= r.to <= Span(v.t)
      && Slice(v, r) == r
  {
    hide RunFrom, RunTo, SameRun;
    var c := Clamp(v, range);
    if c.from < c.to {
      RunTwice(v, c.from);
      RunTwice(v, c.to - 1);
    }
  }

  lemma {:induction false} RunTwice(v: View, at: nat)
    requires at < Span(v.t)
    ensures RunFrom(v, at) <= at <= RunTo(v, at) < Span(v.t)
    ensures RunFrom(v, RunFrom(v, at)) == RunFrom(v, at) && RunTo(v, RunTo(v, at)) == RunTo(v, at)
  {
    if v.Prose(at) {
      hide RunFrom, RunTo;
      RunBounds(v, at);
      OneRunOneRange(v, at, RunTo(v, at));
      OneRunOneRange(v, RunFrom(v, at), at);
    }
  }

  /** No edge is left inside a run, unless it rests on an ordinal that is no text itself. */
  lemma {:induction false} SliceSplits(v: View, range: EntryRange)
    requires Clamp(v, range).from < Clamp(v, range).to
    ensures var c, r := Clamp(v, range), Slice(v, range);
      && (SplitsRun(v, r.from) <==> !v.Prose(c.from) && SplitsRun(v, c.from))
      && (SplitsRun(v, r.to) <==> !v.Prose(c.to - 1) && SplitsRun(v, c.to))
  {
    var c, r := Clamp(v, range), Slice(v, range);
    if v.Prose(c.from) {
      RunBounds(v, c.from);
      forall a, b | a < r.from <= b ensures !SameRun(v, a, b) {
        if SameRun(v, a, b) {
          InsideRun(v, a, r.from, b);
          SameRunTrans(v, a, r.from, c.from);
        }
      }
    }
    if v.Prose(c.to - 1) {
      RunBounds(v, c.to - 1);
      forall a, b | a < r.to <= b ensures !SameRun(v, a, b) {
        if SameRun(v, a, b) {
          InsideRun(v, a, r.to - 1, b);
          SameRunTrans(v, b, r.to - 1, c.to - 1);
        }
      }
    }
  }

  /** An edge the widening leaves alone: it rests on a tool result, which is not drawn, between two
      text entries of one run. */
  lemma {:induction false} SliceCanSplit()
    ensures exists v, range :: Clamp(v, range).from < Clamp(v, range).to && SplitsRun(v, Slice(v, range).from)
  {
    var none := Call("", "", "", "");
    var t := Turn("t", [Entry("a", Text, "", 1, "x", none), Entry("b", ToolResult, "", 2, "", none),
                        Entry("c", Text, "", 3, "y", none)]);
    var v, range := View(t, ""), EntryRange(2, 4);
    assert v.Prose(1) && !v.Renders(2) && v.Prose(3);
    assert SameRun(v, 1, 3);
    assert Clamp(v, range) == range && Slice(v, range).from == 2;
  }
}
