/** Residency: the window of ordinals that gets mounted.  It starts at the reader's place and grows both
    ways while an entry budget and a tool call budget last; its ends are then moved out to whole runs. */
module Residency {
  import opened Ints
  import opened Turns

  const RESIDENT_ENTRIES: nat := 320
  const RESIDENT_TOOL_CALLS: nat := 96
  const OVERSCAN_ENTRIES: nat := 24

  datatype Anchor = LiveEdge | At(turnID: string, at: int)

  // ------------------------------------------------------------------ the flat sequence

  /** Which of a turn's first `n` ordinals nothing is drawn at. */
  function FreeUpTo(v: View, n: nat): (r: seq<bool>)
    ensures |r| == n && forall k :: 0 <= k < n ==> r[k] == !v.Renders(k)
  {
    if n == 0 then [] else FreeUpTo(v, n - 1) + [!v.Renders(n - 1)]
  }

  /** A tool call is drawn at ordinal `k`. */
  predicate ToolAt(v: View, k: nat) {
    v.Renders(k) && v.t.body[k - 1].kind == ToolCall
  }

  function ToolUpTo(v: View, n: nat): (r: seq<bool>)
    ensures |r| == n && forall k :: 0 <= k < n ==> r[k] == ToolAt(v, k)
  {
    if n == 0 then [] else ToolUpTo(v, n - 1) + [ToolAt(v, n - 1)]
  }

  function TurnFree(t: Turn, lane: string): (r: seq<bool>)
    ensures |r| == Span(t)
  {
    FreeUpTo(View(t, lane), Span(t))
  }

  function TurnTool(t: Turn, lane: string): (r: seq<bool>)
    ensures |r| == Span(t)
  {
    ToolUpTo(View(t, lane), Span(t))
  }

  /** The first `n` turns' ordinals laid end to end. */
  function Free(turns: seq<Turn>, lane: string, n: nat): seq<bool>
    requires n <= |turns|
  {
    if n == 0 then [] else Free(turns, lane, n - 1) + TurnFree(turns[n - 1], lane)
  }

  function Tool(turns: seq<Turn>, lane: string, n: nat): seq<bool>
    requires n <= |turns|
  {
    if n == 0 then [] else Tool(turns, lane, n - 1) + TurnTool(turns[n - 1], lane)
  }

  /** Where turn `n` starts in that sequence. */
  function Base(turns: seq<Turn>, n: nat): nat
    requires n <= |turns|
  {
    if n == 0 then 0 else Base(turns, n - 1) + Span(turns[n - 1])
  }

  lemma {:induction false} FlatLengths(turns: seq<Turn>, lane: string, n: nat)
    requires n <= |turns|
    ensures |Free(turns, lane, n)| == |Tool(turns, lane, n)| == Base(turns, n)
    ensures forall k :: 0 <= k < Base(turns, n) && Tool(turns, lane, n)[k] ==> !Free(turns, lane, n)[k]
  {
    if n > 0 {
      FlatLengths(turns, lane, n - 1);
    }
  }

  lemma {:induction false} OneTurnMore(turns: seq<Turn>, lane: string, i: nat)
    requires i < |turns|
    ensures Free(turns, lane, i + 1) == Free(turns, lane, i) + TurnFree(turns[i], lane)
    ensures Tool(turns, lane, i + 1) == Tool(turns, lane, i) + TurnTool(turns[i], lane)
    ensures Base(turns, i + 1) == Base(turns, i) + Span(turns[i])
  {
  }

  lemma {:induction false} NothingLaid(turns: seq<Turn>, lane: string)
    ensures Base(turns, 0) == 0 && Free(turns, lane, 0) == [] && Tool(turns, lane, 0) == []
  {
  }

  /** What stands at a turn's own ordinals. */
  lemma {:induction false} FlatAt(turns: seq<Turn>, lane: string, n: nat, i: nat, k: nat)
    requires i < n <= |turns| && k < Span(turns[i])
    ensures Base(turns, i) + k < |Free(turns, lane, n)| == |Tool(turns, lane, n)| == Base(turns, n)
    ensures Free(turns, lane, n)[Base(turns, i) + k] == TurnFree(turns[i], lane)[k]
    ensures Tool(turns, lane, n)[Base(turns, i) + k] == TurnTool(turns[i], lane)[k]
  {
    hide TurnFree, TurnTool;
    FlatLengths(turns, lane, n);
    FlatLengths(turns, lane, n - 1);
    if i < n - 1 {
      FlatAt(turns, lane, n - 1, i, k);
    }
  }

  // ------------------------------------------------------------------- growing a window

  /** Ordinals of `lo..hi` that something is drawn at. */
  function Used(isFree: seq<bool>, lo: nat, hi: nat): nat
    requires hi <= |isFree|
    decreases hi
  {
    if lo >= hi then 0 else Used(isFree, lo, hi - 1) + if isFree[hi - 1] then 0 else 1
  }

  function UsedTools(isTool: seq<bool>, lo: nat, hi: nat): nat
    requires hi <= |isTool|
    decreases hi
  {
    if lo >= hi then 0 else UsedTools(isTool, lo, hi - 1) + if isTool[hi - 1] then 1 else 0
  }

  lemma {:induction false} UsedSplit(isFree: seq<bool>, isTool: seq<bool>, lo: nat, mid: nat, hi: nat)
    requires lo <= mid <= hi <= |isFree| && |isTool| == |isFree|
    ensures Used(isFree, lo, hi) == Used(isFree, lo, mid) + Used(isFree, mid, hi)
    ensures UsedTools(isTool, lo, hi) == UsedTools(isTool, lo, mid) + UsedTools(isTool, mid, hi)
    decreases hi
  {
    if mid < hi {
      UsedSplit(isFree, isTool, lo, mid, hi - 1);
    }
  }

  lemma {:induction false} UsedBound(isFree: seq<bool>, isTool: seq<bool>, lo: nat, hi: nat)
    requires lo <= hi <= |isFree| && |isTool| == |isFree|
    requires forall k :: 0 <= k < |isTool| && isTool[k] ==> !isFree[k]
    ensures UsedTools(isTool, lo, hi) <= Used(isFree, lo, hi) <= hi - lo
    decreases hi
  {
    if lo < hi {
      UsedBound(isFree, isTool, lo, hi - 1);
    }
  }

  /** Ordinal `k` is one the budget cannot pay for next to what `lo..hi` already holds. */
  ghost predicate Stuck(isFree: seq<bool>, isTool: seq<bool>, budget: TurnCost, lo: nat, hi: nat, k: nat)
    requires hi <= |isFree| && |isTool| == |isFree| && k < |isFree|
  {
    && !isFree[k]
    && (Used(isFree, lo, hi) + 1 > budget.entries
        || UsedTools(isTool, lo, hi) + (if isTool[k] then 1 else 0) > budget.toolCalls)
  }

  /** The head side has ended, at the start of the sequence or for want of budget. */
  ghost predicate HeadDone(isFree: seq<bool>, isTool: seq<bool>, budget: TurnCost, at: nat, lo: nat, hi: nat)
    requires lo <= at < hi <= |isFree| && |isTool| == |isFree|
  {
    || lo == 0
    || (Stuck(isFree, isTool, budget, lo, hi, lo - 1) && 2 * (at - lo) + 1 >= Min(budget.entries, budget.toolCalls))
  }

  ghost predicate TailDone(isFree: seq<bool>, isTool: seq<bool>, budget: TurnCost, at: nat, lo: nat, hi: nat)
    requires lo <= at < hi <= |isFree| && |isTool| == |isFree|
  {
    || hi == |isFree|
    || (Stuck(isFree, isTool, budget, lo, hi, hi) && 2 * (hi - 1 - at) + 2 >= Min(budget.entries, budget.toolCalls))
  }

  /** A window grown from `at`: within budget but for the seed, and each side stopped at the end of the sequence or at
      an ordinal there is no budget for, after taking its share of the smaller budget. */
  ghost predicate Grown(isFree: seq<bool>, isTool: seq<bool>, budget: TurnCost, at: nat, lo: nat, hi: nat) {
    && |isTool| == |isFree| && lo <= at < hi <= |isFree|
    && Used(isFree, lo, hi) <= Max(Used(isFree, at, at + 1), budget.entries)
    && UsedTools(isTool, lo, hi) <= Max(UsedTools(isTool, at, at + 1), budget.toolCalls)
    && HeadDone(isFree, isTool, budget, at, lo, hi)
    && TailDone(isFree, isTool, budget, at, lo, hi)
  }

  datatype Latches = Latches(head: bool, tail: bool)

  /** The loop's state after `tailTurns` turns of the tail and `headTurns` of the head. */
  ghost predicate Growing(isFree: seq<bool>, isTool: seq<bool>, budget: TurnCost, at: nat, lo: nat, hi: nat,
                          latched: Latches, tailTurns: nat, headTurns: nat)
  {
    && |isTool| == |isFree| && lo <= at < hi <= |isFree|
    && Used(isFree, lo, hi) <= Max(Used(isFree, at, at + 1), budget.entries)
    && UsedTools(isTool, lo, hi) <= Max(UsedTools(isTool, at, at + 1), budget.toolCalls)
    && (lo == 0 ==> latched.head) && (hi == |isFree| ==> latched.tail)
    && (latched.head ==> HeadDone(isFree, isTool, budget, at, lo, hi))
    && (latched.tail ==> TailDone(isFree, isTool, budget, at, lo, hi))
    && at - lo <= headTurns && hi - 1 - at <= tailTurns
    && (!latched.head ==> at - lo == headTurns) && (!latched.tail ==> hi - 1 - at == tailTurns)
  }

  /** One ordinal on one side: taken, or the side ends. */
  method Step(isFree: seq<bool>, isTool: seq<bool>, budget: TurnCost, next: nat, entries: nat, toolCalls: nat,
              ghost lo: nat, ghost hi: nat)
    returns (taken: bool, entries': nat, toolCalls': nat)
    requires |isTool| == |isFree| && lo < hi <= |isFree| && next < |isFree| && (next == hi || next + 1 == lo)
    requires isTool[next] ==> !isFree[next]
    requires entries == Used(isFree, lo, hi) && toolCalls == UsedTools(isTool, lo, hi)
    ensures !taken ==> Stuck(isFree, isTool, budget, lo, hi, next) && entries' == entries && toolCalls' == toolCalls
    ensures taken ==> var lo', hi' := Min(lo, next), if next == hi then hi + 1 else hi;
      && entries' == Used(isFree, lo', hi') >= entries && toolCalls' == UsedTools(isTool, lo', hi') >= toolCalls
      && entries' <= Max(entries, budget.entries) && toolCalls' <= Max(toolCalls, budget.toolCalls)
  {
    var tool := if isTool[next] then 1 else 0;
    taken, entries', toolCalls' := true, entries, toolCalls;
    UsedSplit(isFree, isTool, Min(lo, next), lo, hi);
    if !isFree[next] && (entries + 1 > budget.entries || toolCalls + tool > budget.toolCalls) {
      taken := false;
    } else {
      if !isFree[next] {
        entries' := entries + 1;
      }
      toolCalls' := toolCalls + tool;
    }
  }

  /** The head's turn. */
  method GrowHead(isFree: seq<bool>, isTool: seq<bool>, budget: TurnCost, ghost at: nat, lo: nat, ghost hi: nat,
                  entries: nat, toolCalls: nat, ghost latched: Latches, ghost turns: nat)
    returns (lo': nat, entries': nat, toolCalls': nat, headLatched: bool)
    requires Growing(isFree, isTool, budget, at, lo, hi, latched, turns, turns) && !latched.head
    requires forall k :: 0 <= k < |isTool| && isTool[k] ==> !isFree[k]
    requires entries == Used(isFree, lo, hi) && toolCalls == UsedTools(isTool, lo, hi)
    ensures Growing(isFree, isTool, budget, at, lo', hi, latched.(head := headLatched), turns, turns + 1)
    ensures entries' == Used(isFree, lo', hi) && toolCalls' == UsedTools(isTool, lo', hi)
    ensures headLatched || lo' < lo
    ensures lo' <= lo
  {
    UsedBound(isFree, isTool, lo, hi);
    var taken;
    taken, entries', toolCalls' := Step(isFree, isTool, budget, lo - 1, entries, toolCalls, lo, hi);
    lo' := if taken then lo - 1 else lo;
    headLatched := !taken || lo' == 0;
  }

  /** The tail's turn. */
  method GrowTail(isFree: seq<bool>, isTool: seq<bool>, budget: TurnCost, ghost at: nat, ghost lo: nat, hi: nat,
                  entries: nat, toolCalls: nat, ghost latched: Latches, ghost turns: nat)
    returns (hi': nat, entries': nat, toolCalls': nat, tailLatched: bool)
    requires Growing(isFree, isTool, budget, at, lo, hi, latched, turns, turns + 1) && !latched.tail
    requires forall k :: 0 <= k < |isTool| && isTool[k] ==> !isFree[k]
    requires entries == Used(isFree, lo, hi) && toolCalls == UsedTools(isTool, lo, hi)
    ensures Growing(isFree, isTool, budget, at, lo, hi', latched.(tail := tailLatched), turns + 1, turns + 1)
    ensures entries' == Used(isFree, lo, hi') && toolCalls' == UsedTools(isTool, lo, hi')
    ensures tailLatched || hi < hi'
    ensures hi <= hi'
  {
    UsedBound(isFree, isTool, lo, hi);
    var taken;
    taken, entries', toolCalls' := Step(isFree, isTool, budget, hi, entries, toolCalls, lo, hi);
    hi' := if taken then hi + 1 else hi;
    tailLatched := !taken || hi' == |isFree|;
  }

  /** The window from its seed: head and tail take turns until neither can go on. */
  method Grow(isFree: seq<bool>, isTool: seq<bool>, budget: TurnCost, at: nat) returns (lo: nat, hi: nat)
    requires |isTool| == |isFree| && at < |isFree|
    requires forall k :: 0 <= k < |isTool| && isTool[k] ==> !isFree[k]
    ensures Grown(isFree, isTool, budget, at, lo, hi)
  {
    var total := |isFree|;
    lo, hi := at, at + 1;
    var entries := if isFree[at] then 0 else 1;
    var toolCalls := if isTool[at] then 1 else 0;
    var latched := Latches(lo == 0, hi == total);
    var head := true;
    ghost var turns: nat := 0;
    while !latched.head || !latched.tail
      invariant Growing(isFree, isTool, budget, at, lo, hi, latched, turns, if head then turns else turns + 1)
      invariant entries == Used(isFree, lo, hi) && toolCalls == UsedTools(isTool, lo, hi)
      decreases (if latched.head then 0 else lo + 1) + (if latched.tail then 0 else total - hi + 1),
                if (if head then latched.head else latched.tail) then 1 else 0
    {
      if head {
        if !latched.head {
          var headLatched;
          lo, entries, toolCalls, headLatched :=
            GrowHead(isFree, isTool, budget, at, lo, hi, entries, toolCalls, latched, turns);
          latched := latched.(head := headLatched);
        }
      } else {
        if !latched.tail {
          var tailLatched;
          hi, entries, toolCalls, tailLatched :=
            GrowTail(isFree, isTool, budget, at, lo, hi, entries, toolCalls, latched, turns);
          latched := latched.(tail := tailLatched);
        }
        turns := turns + 1;
      }
      head := !head;
    }
  }

  // --------------------------------------------------------------------------- the plan

  /** Where the reader's ordinal is in the flat sequence. */
  function Seed(turns: seq<Turn>, anchor: Anchor): (at: int)
    requires turns != []
    ensures 0 <= at < Base(turns, |turns|)
  {
    BaseMonotone(turns, 1, |turns|);
    if anchor.LiveEdge? || Index(turns, anchor.turnID) == |turns| then Base(turns, |turns|) - 1
    else
      var i := Index(turns, anchor.turnID);
      BaseMonotone(turns, i + 1, |turns|);
      Base(turns, i) + Min(Max(anchor.at, 0), Span(turns[i]) - 1)
  }

  lemma {:induction false} BaseMonotone(turns: seq<Turn>, i: nat, j: nat)
    requires i <= j <= |turns|
    ensures Base(turns, i) <= Base(turns, j)
    ensures i < j ==> Base(turns, i) + Span(turns[i]) <= Base(turns, j)
  {
    if i < j {
      BaseMonotone(turns, i, j - 1);
    }
  }

  /** The first turn of that id, or the number of turns. */
  function Index(turns: seq<Turn>, id: string): (i: nat)
    ensures i <= |turns| && (i < |turns| ==> turns[i].id == id)
    ensures forall k :: 0 <= k < i ==> turns[k].id != id
  {
    if turns == [] || turns[0].id == id then 0 else Index(turns[1..], id) + 1
  }

  /** The part of turn `i` the window holds, in the turn's own ordinals. */
  function Local(turns: seq<Turn>, lo: nat, hi: nat, i: nat): EntryRange
    requires i < |turns|
  {
    var base := Base(turns, i);
    EntryRange(Max(lo, base) - base, Min(hi, base + Span(turns[i])) - base)
  }

  predicate Touched(turns: seq<Turn>, lo: nat, hi: nat, i: nat)
    requires i < |turns|
  {
    Local(turns, lo, hi, i).from < Local(turns, lo, hi, i).to
  }

  /** The window handed out turn by turn, each part widened to whole runs. */
  function Project(turns: seq<Turn>, lane: string, lo: nat, hi: nat, n: nat): map<string, EntryRange>
    requires n <= |turns|
  {
    if n == 0 then map[]
    else
      var plan, t := Project(turns, lane, lo, hi, n - 1), turns[n - 1];
      if Touched(turns, lo, hi, n - 1) then plan[t.id := Slice(View(t, lane), Local(turns, lo, hi, n - 1))] else plan
  }

  lemma {:induction false} ProjectNone(turns: seq<Turn>, lane: string, lo: nat, hi: nat)
    ensures Project(turns, lane, lo, hi, 0) == map[]
  {
  }

  lemma {:induction false} ProjectNext(turns: seq<Turn>, lane: string, lo: nat, hi: nat, i: nat)
    requires i < |turns|
    ensures Project(turns, lane, lo, hi, i + 1) ==
      if !Touched(turns, lo, hi, i) then Project(turns, lane, lo, hi, i)
      else Project(turns, lane, lo, hi, i)[turns[i].id := Slice(View(turns[i], lane), Local(turns, lo, hi, i))]
  {
  }

  /** The window a plan came from. */
  ghost predicate PlannedBy(turns: seq<Turn>, anchor: Anchor, lane: string, budget: TurnCost, lo: nat, hi: nat) {
    && turns != []
    && Grown(Free(turns, lane, |turns|), Tool(turns, lane, |turns|), budget, Seed(turns, anchor), lo, hi)
  }

  /** One turn's ordinals onto the flat sequence. */
  method Flatten(t: Turn, lane: string) returns (free: seq<bool>, tool: seq<bool>)
    ensures free == TurnFree(t, lane) && tool == TurnTool(t, lane)
  {
    free, tool := [], [];
    var firstPlan := FirstPlanSeq(t, lane);
    for k := 0 to Span(t)
      invariant free == FreeUpTo(View(t, lane), k) && tool == ToolUpTo(View(t, lane), k)
    {
      var isFree := k == 0 || !EntryRenders(t.body[k - 1], lane, firstPlan);
      free := free + [isFree];
      tool := tool + [!isFree && t.body[k - 1].kind == ToolCall];
    }
  }

  /** Where the first `n` turns start, and how long they are. */
  predicate Located(turns: seq<Turn>, bases: seq<nat>, spans: seq<nat>, n: nat)
    requires n <= |turns| && |bases| >= n && |spans| >= n
  {
    && (forall k {:trigger bases[k]} :: 0 <= k < n ==> bases[k] == Base(turns, k))
    && (forall k {:trigger spans[k]} :: 0 <= k < n ==> spans[k] == Span(turns[k]))
  }

  /** Every turn's ordinals end to end, and where each turn starts. */
  method FlattenAll(turns: seq<Turn>, lane: string)
    returns (isFree: seq<bool>, isTool: seq<bool>, bases: seq<nat>, spans: seq<nat>)
    ensures isFree == Free(turns, lane, |turns|) && isTool == Tool(turns, lane, |turns|)
    ensures |bases| == |spans| == |turns|
    ensures Located(turns, bases, spans, |turns|)
  {
    hide Free, Tool, TurnFree, TurnTool, Base;
    isFree, isTool, bases, spans := [], [], [], [];
    NothingLaid(turns, lane);
    for i := 0 to |turns|
      invariant |bases| == |spans| == i
      invariant isFree == Free(turns, lane, i) && isTool == Tool(turns, lane, i)
      invariant Located(turns, bases, spans, i)
    {
      FlatLengths(turns, lane, i);
      OneTurnMore(turns, lane, i);
      var free, tool := Flatten(turns[i], lane);
      ghost var bases', spans' := bases, spans;
      bases, spans := bases + [|isTool|], spans + [Span(turns[i])];
      assert forall k :: 0 <= k < i ==> bases[k] == bases'[k] && spans[k] == spans'[k];
      isFree, isTool := isFree + free, isTool + tool;
    }
  }

  /** A range of ordinals for every turn that is to be mounted, the rest left to spacers. */
  method PlanResidency(turns: seq<Turn>, anchor: Anchor, lane: string, budget: TurnCost)
    returns (plan: map<string, EntryRange>)
    ensures turns == [] ==> plan == map[]
    ensures turns != [] ==> exists lo, hi :: PlannedBy(turns, anchor, lane, budget, lo, hi)
                                         && plan == Project(turns, lane, lo, hi, |turns|)
  {
    plan := map[];
    var isFree, isTool, bases, spans := FlattenAll(turns, lane);
    FlatLengths(turns, lane, |turns|);
    var total := |isTool|;
    if total == 0 {
      BaseMonotone(turns, 0, |turns|);
      return;
    }
    var at := total - 1;
    if anchor.At? {
      var i := Index(turns, anchor.turnID);
      if i < |turns| {
        BaseMonotone(turns, i, |turns|);
        at := bases[i] + Min(Max(anchor.at, 0), spans[i] - 1);
      }
    }
    assert at == Seed(turns, anchor);
    var lo, hi := Grow(isFree, isTool, budget, at);
    assert PlannedBy(turns, anchor, lane, budget, lo, hi);
    plan := HandOut(turns, lane, lo, hi, bases, spans);
  }

  /** The window cut into each turn's part. */
  method HandOut(turns: seq<Turn>, lane: string, lo: nat, hi: nat, bases: seq<nat>, spans: seq<nat>)
    returns (plan: map<string, EntryRange>)
    requires |bases| == |spans| == |turns|
    requires Located(turns, bases, spans, |turns|)
    ensures plan == Project(turns, lane, lo, hi, |turns|)
  {
    hide Project, Slice, Base;
    ProjectNone(turns, lane, lo, hi);
    plan := map[];
    for i := 0 to |turns|
      invariant plan == Project(turns, lane, lo, hi, i)
    {
      ProjectNext(turns, lane, lo, hi, i);
      var t := turns[i];
      var from, to := Max(lo, bases[i]), Min(hi, bases[i] + spans[i]);
      if from < to {
        var range := SliceTurn(View(t, lane), EntryRange(from - bases[i], to - bases[i]));
        plan := plan[t.id := range];
      }
    }
  }

  // ---------------------------------------------------------------- what a plan guarantees

  /** Each side of the reader holds the overscan, or reaches the end of the sequence. */
  lemma {:induction false} OverscanHeld(turns: seq<Turn>, anchor: Anchor, lane: string, lo: nat, hi: nat)
    requires PlannedBy(turns, anchor, lane, TurnCost(RESIDENT_ENTRIES, RESIDENT_TOOL_CALLS), lo, hi)
    ensures lo == 0 || Seed(turns, anchor) - lo >= OVERSCAN_ENTRIES
    ensures hi == Base(turns, |turns|) || hi - 1 - Seed(turns, anchor) >= OVERSCAN_ENTRIES
  {
    FlatLengths(turns, lane, |turns|);
  }

  /** What a whole turn costs, summed over turns. */
  function TotalCost(turns: seq<Turn>, lane: string, n: nat): TurnCost
    requires n <= |turns|
  {
    if n == 0 then TurnCost(0, 0)
    else
      var rest, c := TotalCost(turns, lane, n - 1), Cost(turns[n - 1].body, lane, FirstPlan(turns[n - 1].body, lane));
      TurnCost(rest.entries + c.entries, rest.toolCalls + c.toolCalls)
  }

  /** The flags charge a turn what `Cost` says. */
  lemma {:induction false} FlagsCost(t: Turn, lane: string, n: nat)
    requires n <= |t.body|
    ensures var c := Cost(t.body[..n], lane, FirstPlan(t.body, lane));
      Used(TurnFree(t, lane), 0, n + 1) == c.entries && UsedTools(TurnTool(t, lane), 0, n + 1) == c.toolCalls
  {
    if n > 0 {
      FlagsCost(t, lane, n - 1);
      assert t.body[..n][..n - 1] == t.body[..n - 1];
    }
  }

  /** The flags say what is to be drawn, and charge as much as there is of it. */
  lemma {:induction false} FlagsDraw(t: Turn, lane: string)
    requires Placed(t)
    ensures forall k {:trigger TurnFree(t, lane)[k]} :: 0 <= k < Span(t) ==>
      TurnFree(t, lane)[k] == !ToDraw(t, lane, k)
    ensures forall k {:trigger TurnTool(t, lane)[k]} :: 0 <= k < Span(t) ==>
      TurnTool(t, lane)[k] == (ToDraw(t, lane, k) && t.body[k - 1].kind == ToolCall)
    ensures Used(TurnFree(t, lane), 0, Span(t)) == |DrawnUpTo(t, lane, |t.body|)|
    ensures UsedTools(TurnTool(t, lane), 0, Span(t)) == |CallsUpTo(t, lane, |t.body|)|
  {
    hide ToDraw, View.Renders, Cost, FirstPlan, Used, UsedTools, DrawnUpTo, CallsUpTo;
    forall k ensures View(t, lane).Renders(k) <==> ToDraw(t, lane, k) {
      RendersIff(t, lane, k);
    }
    CostIsCount(t, lane, |t.body|);
    FlagsCost(t, lane, |t.body|);
  }

  lemma {:induction false} UsedConcat(x: seq<bool>, y: seq<bool>, u: seq<bool>, w: seq<bool>, n: nat)
    requires |x| == |u| && |y| == |w| && n <= |y|
    ensures Used(x + y, 0, |x| + n) == Used(x, 0, |x|) + Used(y, 0, n)
    ensures UsedTools(u + w, 0, |u| + n) == UsedTools(u, 0, |u|) + UsedTools(w, 0, n)
  {
    if n > 0 {
      UsedConcat(x, y, u, w, n - 1);
    } else {
      UsedPrefix(x, x + y, u, u + w, |x|);
    }
  }

  lemma {:induction false} UsedPrefix(x: seq<bool>, z: seq<bool>, u: seq<bool>, v: seq<bool>, n: nat)
    requires n <= |x| && x <= z && u <= v && |x| == |u|
    ensures Used(z, 0, n) == Used(x, 0, n) && UsedTools(v, 0, n) == UsedTools(u, 0, n)
  {
    if n > 0 {
      UsedPrefix(x, z, u, v, n - 1);
    }
  }

  lemma {:induction false} NothingCosts()
    ensures Used([], 0, 0) == 0 && UsedTools([], 0, 0) == 0
  {
  }

  lemma {:induction false} SequenceCost(turns: seq<Turn>, lane: string, n: nat)
    requires n <= |turns|
    ensures |Free(turns, lane, n)| == |Tool(turns, lane, n)| == Base(turns, n)
    ensures TotalCost(turns, lane, n) ==
      TurnCost(Used(Free(turns, lane, n), 0, Base(turns, n)), UsedTools(Tool(turns, lane, n), 0, Base(turns, n)))
  {
    hide Free, Tool, Base, Cost, FirstPlan, Used, UsedTools;
    FlatLengths(turns, lane, n);
    if n == 0 {
      NothingLaid(turns, lane);
      NothingCosts();
    } else {
      SequenceCost(turns, lane, n - 1);
      NextTurnCost(turns, lane, n - 1);
    }
  }

  lemma {:induction false} NextTurnCost(turns: seq<Turn>, lane: string, i: nat)
    requires i < |turns| && |Free(turns, lane, i)| == |Tool(turns, lane, i)| == Base(turns, i)
    requires |Free(turns, lane, i + 1)| == |Tool(turns, lane, i + 1)| == Base(turns, i + 1)
    ensures var t := turns[i];
      var c := Cost(t.body, lane, FirstPlan(t.body, lane));
      && Used(Free(turns, lane, i + 1), 0, Base(turns, i + 1)) ==
         Used(Free(turns, lane, i), 0, Base(turns, i)) + c.entries
      && UsedTools(Tool(turns, lane, i + 1), 0, Base(turns, i + 1)) ==
         UsedTools(Tool(turns, lane, i), 0, Base(turns, i)) + c.toolCalls
  {
    hide Used, UsedTools, Cost, FirstPlan, Free, Tool, Base, TurnFree, TurnTool;
    var t := turns[i];
    FlagsCost(t, lane, |t.body|);
    assert t.body[..|t.body|] == t.body;
    OneTurnMore(turns, lane, i);
    UsedConcat(Free(turns, lane, i), TurnFree(t, lane), Tool(turns, lane, i), TurnTool(t, lane), Span(t));
  }

  /** When everything fits, everything is planned whole. */
  lemma {:induction false} WholeSequenceFits(turns: seq<Turn>, anchor: Anchor, lane: string, budget: TurnCost,
                                             lo: nat, hi: nat)
    requires PlannedBy(turns, anchor, lane, budget, lo, hi)
    requires var c := TotalCost(turns, lane, |turns|); c.entries <= budget.entries && c.toolCalls <= budget.toolCalls
    ensures lo == 0 && hi == Base(turns, |turns|)
  {
    var isFree, isTool := Free(turns, lane, |turns|), Tool(turns, lane, |turns|);
    var total := Base(turns, |turns|);
    SequenceCost(turns, lane, |turns|);
    UsedSplit(isFree, isTool, 0, lo, total);
    UsedSplit(isFree, isTool, lo, hi, total);
    UsedAround(isFree, isTool, lo, hi);
  }

  /** One more drawn ordinal on either side costs one more. */
  lemma {:induction false} UsedAround(isFree: seq<bool>, isTool: seq<bool>, lo: nat, hi: nat)
    requires lo <= hi <= |isFree| == |isTool|
    ensures lo > 0 && !isFree[lo - 1] ==>
      Used(isFree, 0, lo) >= 1 && UsedTools(isTool, 0, lo) >= if isTool[lo - 1] then 1 else 0
    ensures hi < |isFree| && !isFree[hi] ==>
      Used(isFree, hi, |isFree|) >= 1 && UsedTools(isTool, hi, |isFree|) >= if isTool[hi] then 1 else 0
  {
    if hi < |isFree| {
      UsedSplit(isFree, isTool, hi, hi + 1, |isFree|);
    }
  }

  predicate DistinctIds(turns: seq<Turn>) {
    forall i, j :: 0 <= i < j < |turns| ==> turns[i].id != turns[j].id
  }

  /** A turn is in the plan exactly when the window touches it, with its own widened part. */
  lemma {:induction false} PlanOfTurn(turns: seq<Turn>, lane: string, lo: nat, hi: nat, n: nat, i: nat)
    requires DistinctIds(turns) && n <= |turns| && i < |turns|
    ensures var plan := Project(turns, lane, lo, hi, n);
      && (turns[i].id in plan <==> i < n && Touched(turns, lo, hi, i))
      && (turns[i].id in plan ==> plan[turns[i].id] == Slice(View(turns[i], lane), Local(turns, lo, hi, i)))
  {
    hide Project, Slice, Local, Touched;
    if n == 0 {
      ProjectNone(turns, lane, lo, hi);
    } else {
      ProjectNext(turns, lane, lo, hi, n - 1);
      PlanOfTurn(turns, lane, lo, hi, n - 1, i);
    }
  }

  /** The turns a window touches follow one another, and every one strictly inside it is planned whole. */
  lemma {:induction false} TouchedConsecutive(turns: seq<Turn>, lane: string, lo: nat, hi: nat, i: nat, j: nat, k: nat)
    requires i < j < k < |turns| && DistinctIds(turns)
    requires Touched(turns, lo, hi, i) && Touched(turns, lo, hi, k)
    ensures var plan := Project(turns, lane, lo, hi, |turns|);
      turns[j].id in plan && plan[turns[j].id] == EntryRange(0, Span(turns[j]))
  {
    BaseMonotone(turns, i, j);
    BaseMonotone(turns, j, k);
    PlanOfTurn(turns, lane, lo, hi, |turns|, j);
    WholeSlice(turns, lane, lo, hi, j);
  }

  lemma {:induction false} WholeSlice(turns: seq<Turn>, lane: string, lo: nat, hi: nat, j: nat)
    requires j < |turns| && lo <= Base(turns, j) && Base(turns, j) + Span(turns[j]) <= hi
    ensures Local(turns, lo, hi, j) == EntryRange(0, Span(turns[j]))
    ensures Slice(View(turns[j], lane), Local(turns, lo, hi, j)) == EntryRange(0, Span(turns[j]))
  {
    SliceCovers(View(turns[j], lane), EntryRange(0, Span(turns[j])));
  }

  /** When everything fits, each turn's plan is its whole span. */
  lemma {:induction false} EveryTurnWhole(turns: seq<Turn>, anchor: Anchor, lane: string, budget: TurnCost, lo: nat,
                                          hi: nat, i: nat)
    requires PlannedBy(turns, anchor, lane, budget, lo, hi) && DistinctIds(turns) && i < |turns|
    requires var c := TotalCost(turns, lane, |turns|); c.entries <= budget.entries && c.toolCalls <= budget.toolCalls
    ensures var plan := Project(turns, lane, lo, hi, |turns|);
      turns[i].id in plan && plan[turns[i].id] == EntryRange(0, Span(turns[i]))
  {
    WholeSequenceFits(turns, anchor, lane, budget, lo, hi);
    BaseMonotone(turns, i, |turns|);
    WholeSlice(turns, lane, lo, hi, i);
    PlanOfTurn(turns, lane, lo, hi, |turns|, i);
  }

  /** The reader's own turn is always planned, and the plan holds the reader's ordinal. */
  lemma {:induction false} ReaderPlanned(turns: seq<Turn>, anchor: Anchor, lane: string, budget: TurnCost, lo: nat,
                                         hi: nat, i: nat)
    requires PlannedBy(turns, anchor, lane, budget, lo, hi) && DistinctIds(turns) && i < |turns|
    requires Base(turns, i) <= Seed(turns, anchor) < Base(turns, i) + Span(turns[i])
    ensures var plan, at := Project(turns, lane, lo, hi, |turns|), Seed(turns, anchor) - Base(turns, i);
      turns[i].id in plan && plan[turns[i].id].from <= at < plan[turns[i].id].to
  {
    PlanOfTurn(turns, lane, lo, hi, |turns|, i);
    SliceCovers(View(turns[i], lane), Local(turns, lo, hi, i));
  }

  /** The run of text `p` has a member past `x`. */
  ghost predicate GoesOnPast(v: View, p: int, x: int) {
    exists b :: b > x && SameRun(v, p, b)
  }

  /** The run of text `p` has a member before `x`. */
  ghost predicate StartsBefore(v: View, p: int, x: int) {
    exists a :: a < x && SameRun(v, a, p)
  }

  /** An edge between a drawn ordinal and one that is no text cuts a run exactly when the drawn one is
      text, the other draws nothing, and the run goes on behind it. */
  lemma {:induction false} CutAfterDrawn(v: View, x: int)
    requires v.Renders(x - 1) && !v.Prose(x)
    ensures SplitsRun(v, x) <==> !v.Renders(x) && v.Prose(x - 1) && GoesOnPast(v, x - 1, x)
  {
    if SplitsRun(v, x) {
      var a, b :| a < x <= b && SameRun(v, a, b);
      assert !v.Breaks(x - 1);
      assert SameRun(v, x - 1, b);
      assert b > x && !v.Breaks(x);
    }
  }

  lemma {:induction false} CutBeforeDrawn(v: View, y: int)
    requires v.Renders(y) && !v.Prose(y - 1)
    ensures SplitsRun(v, y) <==> !v.Renders(y - 1) && v.Prose(y) && StartsBefore(v, y, y - 1)
  {
    if SplitsRun(v, y) {
      var a, b :| a < y <= b && SameRun(v, a, b);
      assert !v.Breaks(y);
      assert SameRun(v, a, y);
      assert a < y - 1 && !v.Breaks(y - 1);
    }
  }

  /** Whether the first edge of a plan cuts a prose run.  The last ordinal left out is always one the
      view draws, so it does exactly when that is text, the first ordinal let in draws nothing, and
      the run goes on behind it: the widening starts from a drawn text entry or not at all. */
  lemma {:induction false} HeadEdgeSplits(turns: seq<Turn>, anchor: Anchor, lane: string, budget: TurnCost,
                                          lo: nat, hi: nat, i: nat)
    requires PlannedBy(turns, anchor, lane, budget, lo, hi) && i < |turns|
    requires Base(turns, i) < lo < Base(turns, i) + Span(turns[i])
    ensures var v, x := View(turns[i], lane), lo - Base(turns, i);
      && v.Renders(x - 1)
      && (SplitsRun(v, Slice(v, Local(turns, lo, hi, i)).from) <==>
            !v.Renders(x) && v.Prose(x - 1) && GoesOnPast(v, x - 1, x))
  {
    hide SplitsRun, GoesOnPast, Slice, Base, Used, UsedTools, Seed, Free, Tool;
    var v, x := View(turns[i], lane), lo - Base(turns, i);
    FlatAt(turns, lane, |turns|, i, x - 1);
    SliceSplits(v, Local(turns, lo, hi, i));
    if !v.Prose(x) {
      CutAfterDrawn(v, x);
    }
  }

  /** The same at the last edge. */
  lemma {:induction false} TailEdgeSplits(turns: seq<Turn>, anchor: Anchor, lane: string, budget: TurnCost,
                                          lo: nat, hi: nat, i: nat)
    requires PlannedBy(turns, anchor, lane, budget, lo, hi) && i < |turns|
    requires Base(turns, i) < hi < Base(turns, i) + Span(turns[i]) && Touched(turns, lo, hi, i)
    ensures var v, y := View(turns[i], lane), hi - Base(turns, i);
      && v.Renders(y)
      && (SplitsRun(v, Slice(v, Local(turns, lo, hi, i)).to) <==>
            !v.Renders(y - 1) && v.Prose(y) && StartsBefore(v, y, y - 1))
  {
    hide SplitsRun, StartsBefore, Slice, Base, Used, UsedTools, Seed;
    var v, y := View(turns[i], lane), hi - Base(turns, i);
    FlatAt(turns, lane, |turns|, i, y);
    SliceSplits(v, Local(turns, lo, hi, i));
    if !v.Prose(y - 1) {
      CutBeforeDrawn(v, y);
    }
  }

  /** Nothing is drawn at `x`, and a run has members on both sides of it. */
  ghost predicate GapInRun(v: View, x: int) {
    !v.Renders(x) && exists a, b :: a < x < b && SameRun(v, a, b)
  }

  /** The plan has an edge inside one of turn `i`'s runs. */
  ghost predicate CutsARun(turns: seq<Turn>, lane: string, plan: map<string, EntryRange>, i: nat)
    requires i < |turns|
  {
    var id, v := turns[i].id, View(turns[i], lane);
    id in plan && (SplitsRun(v, plan[id].from) || SplitsRun(v, plan[id].to))
  }

  /** A range that starts or ends with its turn cuts no run there. */
  lemma {:induction false} TurnEdgesCutNothing(v: View, range: EntryRange)
    requires 0 <= range.from < range.to <= Span(v.t)
    ensures range.from == 0 ==> !SplitsRun(v, Slice(v, range).from)
    ensures range.to == Span(v.t) ==> !SplitsRun(v, Slice(v, range).to)
  {
    SliceSplits(v, range);
  }

  /** Where a plan cuts a run, the run has a gap. */
  lemma {:induction false} CutNeedsGap(turns: seq<Turn>, anchor: Anchor, lane: string, budget: TurnCost,
                                       lo: nat, hi: nat, i: nat)
    requires PlannedBy(turns, anchor, lane, budget, lo, hi) && i < |turns| && DistinctIds(turns)
    requires CutsARun(turns, lane, Project(turns, lane, lo, hi, |turns|), i)
    ensures exists x :: GapInRun(View(turns[i], lane), x)
  {
    hide PlannedBy, SplitsRun, Slice, SameRun, Base;
    var v, base := View(turns[i], lane), Base(turns, i);
    PlanOfTurn(turns, lane, lo, hi, |turns|, i);
    TurnEdgesCutNothing(v, Local(turns, lo, hi, i));
    if SplitsRun(v, Slice(v, Local(turns, lo, hi, i)).from) {
      HeadEdgeSplits(turns, anchor, lane, budget, lo, hi, i);
      assert GapInRun(v, lo - base);
    } else {
      TailEdgeSplits(turns, anchor, lane, budget, lo, hi, i);
      assert GapInRun(v, hi - 1 - base);
    }
  }

  /** What a window that holds nothing drawn looks like. */
  lemma {:induction false} UsedNothing(isFree: seq<bool>, isTool: seq<bool>, lo: nat, hi: nat)
    requires lo <= hi <= |isFree| == |isTool|
    requires forall k :: 0 <= k < |isTool| && isTool[k] ==> !isFree[k]
    ensures Used(isFree, lo, hi) == 0 <==> forall k :: lo <= k < hi ==> isFree[k]
    ensures Used(isFree, lo, hi) == 0 ==> UsedTools(isTool, lo, hi) == 0
    decreases hi
  {
    if lo < hi {
      UsedNothing(isFree, isTool, lo, hi - 1);
    }
  }

  /** From an ordinal nothing is drawn at, an empty budget takes the ordinals around it up to the
      next drawn ones, and no window but that. */
  ghost predicate FreeStretch(isFree: seq<bool>, at: nat, lo: nat, hi: nat) {
    && lo <= at < hi <= |isFree| && (forall k :: lo <= k < hi ==> isFree[k])
    && (lo == 0 || !isFree[lo - 1]) && (hi == |isFree| || !isFree[hi])
  }

  lemma {:induction false} EmptyBudgetWindow(isFree: seq<bool>, isTool: seq<bool>, at: nat, lo: nat, hi: nat)
    requires at < |isFree| == |isTool| && isFree[at]
    requires forall k :: 0 <= k < |isTool| && isTool[k] ==> !isFree[k]
    ensures Grown(isFree, isTool, TurnCost(0, 0), at, lo, hi) <==> FreeStretch(isFree, at, lo, hi)
  {
    UsedNothing(isFree, isTool, at, at + 1);
    if lo <= at < hi <= |isFree| {
      UsedNothing(isFree, isTool, lo, hi);
    }
  }

  lemma {:induction false} FreeStretchExists(isFree: seq<bool>, at: nat) returns (lo: nat, hi: nat)
    requires at < |isFree| && isFree[at]
    ensures FreeStretch(isFree, at, lo, hi)
  {
    lo, hi := at, at + 1;
    while lo > 0 && isFree[lo - 1]
      invariant lo <= at && forall k :: lo <= k < hi ==> isFree[k]
    {
      lo := lo - 1;
    }
    while hi < |isFree| && isFree[hi]
      invariant at < hi <= |isFree| && forall k :: lo <= k < hi ==> isFree[k]
    {
      hi := hi + 1;
    }
  }

  /** A reader whose ordinal is such a gap. */
  lemma {:induction false} SeedAt(turns: seq<Turn>, i: nat, x: nat)
    requires i < |turns| && DistinctIds(turns) && x < Span(turns[i])
    ensures Seed(turns, At(turns[i].id, x)) == Base(turns, i) + x
  {
    assert Index(turns, turns[i].id) == i;
  }

  lemma {:induction false} GapIsFree(turns: seq<Turn>, lane: string, i: nat, x: nat)
    requires i < |turns| && x < Span(turns[i])
    ensures var isFree := Free(turns, lane, |turns|);
      && Base(turns, i) + x < |isFree| == |Tool(turns, lane, |turns|)|
      && isFree[Base(turns, i) + x] == !View(turns[i], lane).Renders(x)
  {
    FlatAt(turns, lane, |turns|, i, x);
  }

  /** The window of a reader in a gap with no budget starts right after the drawn ordinal before it. */
  lemma {:induction false} GapWindow(turns: seq<Turn>, lane: string, lo: nat, hi: nat, i: nat, a: nat, x: nat)
    requires i < |turns| && DistinctIds(turns) && a < x < Span(turns[i])
    requires View(turns[i], lane).Renders(a) && !View(turns[i], lane).Renders(x)
    requires PlannedBy(turns, At(turns[i].id, x), lane, TurnCost(0, 0), lo, hi)
    ensures Base(turns, i) + a < lo <= Base(turns, i) + x < hi
    ensures View(turns[i], lane).Renders(lo - 1 - Base(turns, i)) && !View(turns[i], lane).Renders(lo - Base(turns, i))
  {
    hide Free, Tool, Base, Grown, Seed;
    var base := Base(turns, i);
    SeedAt(turns, i, x);
    GapIsFree(turns, lane, i, x);
    GapIsFree(turns, lane, i, a);
    FlatLengths(turns, lane, |turns|);
    EmptyBudgetWindow(Free(turns, lane, |turns|), Tool(turns, lane, |turns|), base + x, lo, hi);
    GapIsFree(turns, lane, i, lo - 1 - base);
    GapIsFree(turns, lane, i, lo - base);
  }

  /** A reader in a gap, and no budget: every plan cuts the run. */
  lemma {:induction false} GapIsCut(turns: seq<Turn>, lane: string, lo: nat, hi: nat, i: nat, x: nat)
    requires i < |turns| && DistinctIds(turns) && GapInRun(View(turns[i], lane), x)
    requires PlannedBy(turns, At(turns[i].id, x), lane, TurnCost(0, 0), lo, hi)
    ensures CutsARun(turns, lane, Project(turns, lane, lo, hi, |turns|), i)
  {
    hide Base, Slice, SplitsRun, PlannedBy;
    var v := View(turns[i], lane);
    var a, b :| a < x < b && SameRun(v, a, b);
    GapWindow(turns, lane, lo, hi, i, a, x);
    var head := lo - 1 - Base(turns, i);
    assert v.Renders(head) && !v.Breaks(head);
    InsideRun(v, a, head, b);
    HeadEdgeSplits(turns, At(turns[i].id, x), lane, TurnCost(0, 0), lo, hi, i);
    PlanOfTurn(turns, lane, lo, hi, |turns|, i);
  }

  /** There is such a plan. */
  lemma {:induction false} GapIsPlanned(turns: seq<Turn>, lane: string, i: nat, x: nat) returns (lo: nat, hi: nat)
    requires i < |turns| && DistinctIds(turns) && x < Span(turns[i]) && !View(turns[i], lane).Renders(x)
    ensures PlannedBy(turns, At(turns[i].id, x), lane, TurnCost(0, 0), lo, hi)
  {
    hide Free, Tool, Base, Grown;
    var isFree, isTool := Free(turns, lane, |turns|), Tool(turns, lane, |turns|);
    SeedAt(turns, i, x);
    GapIsFree(turns, lane, i, x);
    FlatLengths(turns, lane, |turns|);
    lo, hi := FreeStretchExists(isFree, Base(turns, i) + x);
    EmptyBudgetWindow(isFree, isTool, Base(turns, i) + x, lo, hi);
  }

  /** No plan of any reader and any budget cuts one of a turn's runs, if and only if nothing undrawn
      lies strictly inside one. */
  lemma {:induction false} PlansNeverCutIff(turns: seq<Turn>, lane: string, i: nat)
    requires i < |turns| && DistinctIds(turns)
    ensures (forall anchor, budget, lo, hi :: PlannedBy(turns, anchor, lane, budget, lo, hi) ==>
              !CutsARun(turns, lane, Project(turns, lane, lo, hi, |turns|), i))
       <==> (forall x :: !GapInRun(View(turns[i], lane), x))
  {
    hide PlannedBy, CutsARun, Project;
    var v := View(turns[i], lane);
    forall anchor, budget, lo, hi | PlannedBy(turns, anchor, lane, budget, lo, hi)
      && CutsARun(turns, lane, Project(turns, lane, lo, hi, |turns|), i)
      ensures exists x :: GapInRun(v, x)
    {
      CutNeedsGap(turns, anchor, lane, budget, lo, hi, i);
    }
    if x :| GapInRun(v, x) {
      var lo, hi := GapIsPlanned(turns, lane, i, x);
      GapIsCut(turns, lane, lo, hi, i, x);
    }
  }

  /** Two text entries around a tool result. */
  function Sandwich(): Turn {
    var none := Call("", "", "", "");
    Turn("t", [Entry("a", Text, "", 1, "x", none), Entry("b", ToolResult, "", 2, "", none),
               Entry("c", Text, "", 3, "y", none)])
  }

  lemma {:induction false} SandwichRun()
    ensures var v := View(Sandwich(), "");
      !v.Renders(0) && v.Prose(1) && !v.Renders(2) && v.Prose(3) && SameRun(v, 1, 3)
  {
  }

  lemma {:induction false} SandwichFlags()
    ensures Base([Sandwich()], 0) == 0 && Base([Sandwich()], 1) == 4
    ensures Free([Sandwich()], "", 1) == [true, false, true, false]
  {
    var v := View(Sandwich(), "");
    SandwichRun();
    assert FreeUpTo(v, 4) == [true, false, true, false];
    assert Free([Sandwich()], "", 0) + FreeUpTo(v, 4) == FreeUpTo(v, 4);
  }

  /** A plan that cuts a run: that turn, and a budget for one of its texts. */
  lemma {:induction false} PlanCanSplit(lo: nat, hi: nat)
    requires PlannedBy([Sandwich()], LiveEdge, "", TurnCost(1, 1), lo, hi)
    ensures var v := View(Sandwich(), "");
      lo == 2 && SplitsRun(v, Slice(v, Local([Sandwich()], lo, hi, 0)).from)
  {
    hide Free, Base, SplitsRun, Grown, SameRun, Slice;
    SandwichFlags();
    SandwichRun();
    SandwichWindow(Free([Sandwich()], "", 1), Tool([Sandwich()], "", 1), lo, hi);
    SandwichEdge(View(Sandwich(), ""), EntryRange(2, 4));
  }

  lemma {:induction false} SandwichWindow(isFree: seq<bool>, isTool: seq<bool>, lo: nat, hi: nat)
    requires isFree == [true, false, true, false] && Grown(isFree, isTool, TurnCost(1, 1), 3, lo, hi)
    ensures lo == 2 && hi == 4
  {
    UsedOfFour(isFree);
  }

  lemma {:induction false} SandwichEdge(v: View, range: EntryRange)
    requires Span(v.t) == 4 && range == EntryRange(2, 4) && SameRun(v, 1, 3) && !v.Prose(2)
    ensures SplitsRun(v, Slice(v, range).from)
  {
    assert Slice(v, range).from == 2;
  }

  lemma {:induction false} UsedOfFour(isFree: seq<bool>)
    requires isFree == [true, false, true, false]
    ensures Used(isFree, 0, 4) == 2 && Used(isFree, 1, 4) == 2 && Used(isFree, 2, 4) == Used(isFree, 3, 4) == 1
  {
    assert Used(isFree, 0, 1) == 0 && Used(isFree, 0, 2) == 1 && Used(isFree, 0, 3) == 1;
    assert Used(isFree, 1, 2) == 1 && Used(isFree, 1, 3) == 1;
  }
}
