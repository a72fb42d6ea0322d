/** What a screen remembers of its transcript between two boots: the newest turns, within a budget of
    entries and one of bytes, and how they are grouped into turns again. */
module BootSnapshot {
  import Strings = Text

  const SNAPSHOT_TURNS: nat := 3
  const SNAPSHOT_MAX_ENTRIES: nat := 80
  const SNAPSHOT_MAX_BYTES: nat := 96 * 1024
  const SNAPSHOT_MAX_TOOL_OUTPUT: nat := 256
  const SNAPSHOT_MAX_TOOL_INPUT: nat := 256

  datatype Option<T> = None | Some(value: T)

  datatype Kind = TurnOpen | TurnClose | ToolCall | ToolResult | OtherKind(name: string)

  /** A value the snapshot looks into only when it is a text; `id` stands for any other value. */
  datatype Json = Text(text: string) | OtherJson(id: int)

  datatype Input = NoInput | OpaqueInput(id: int) | Record(fields: map<string, Json>)

  datatype Payload =
    | NotAnObject(id: int)
    | Object(output: Option<string>, spans: Option<int>, input: Input, rest: int)

  datatype Entry = Entry(turn: string, seqNo: int, kind: Kind, payload: Payload)

  datatype Turn = Turn(entries: seq<Entry>, closeAt: Option<int>)

  // -------------------------------------------------------------------------- lightening

  function Cut(text: string, max: nat): string {
    if |text| > max then text[..max] else text
  }

  function LightenValue(v: Json): Json {
    if v.Text? then Text(Cut(v.text, SNAPSHOT_MAX_TOOL_INPUT)) else v
  }

  function LightenInput(v: Input): Input {
    if v.Record? then Record(map k | k in v.fields :: LightenValue(v.fields[k])) else v
  }

  function LightenToolPayload(v: Payload): Payload {
    if v.NotAnObject? then v
    else Object(if v.output.Some? then Some(Cut(v.output.value, SNAPSHOT_MAX_TOOL_OUTPUT)) else None, None,
                LightenInput(v.input), v.rest)
  }

  function Lighten(e: Entry): Entry {
    if e.kind.ToolCall? || e.kind.ToolResult? then e.(payload := LightenToolPayload(e.payload)) else e
  }

  /** An entry keeps its place and its kind; one that holds no tool output is itself; lightening twice
      is lightening once; and no tool text it leaves is over its limit. */
  lemma {:induction false} LightenKeepsPlace(e: Entry)
    ensures var l := Lighten(e);
      && l.turn == e.turn && l.seqNo == e.seqNo && l.kind == e.kind && Lighten(l) == l
      && (l.payload != e.payload ==> e.kind.ToolCall? || e.kind.ToolResult?)
  {
    var l := Lighten(e);
    if l.payload.Object? && l.payload.input.Record? && (e.kind.ToolCall? || e.kind.ToolResult?) {
      assert LightenInput(l.payload.input).fields == l.payload.input.fields;
    }
  }

  /** As much of a text as a limit allows. */
  predicate IsCut(cut: string, text: string, limit: nat) {
    cut <= text && |cut| <= limit && (|cut| < limit ==> cut == text)
  }

  /** A tool payload keeps its keys, loses its spans, and holds each text as far as its limit goes. */
  lemma {:induction false} LightenBounds(e: Entry)
    requires (e.kind.ToolCall? || e.kind.ToolResult?) && e.payload.Object?
    ensures var p := Lighten(e).payload;
      && p.Object? && p.spans.None? && p.rest == e.payload.rest
      && (p.output.Some? <==> e.payload.output.Some?)
      && (p.output.Some? ==> IsCut(p.output.value, e.payload.output.value, 256))
      && (e.payload.input.Record? ==> p.input.Record? && p.input.fields.Keys == e.payload.input.fields.Keys)
      && (!e.payload.input.Record? ==> p.input == e.payload.input)
      && (p.input.Record? ==> forall k :: k in p.input.fields ==>
            var was, now := e.payload.input.fields[k], p.input.fields[k];
            if was.Text? then now.Text? && IsCut(now.text, was.text, 256) else now == was)
  {
    var p := Lighten(e).payload;
    if p.input.Record? {
      assert p.input.fields.Keys == e.payload.input.fields.Keys;
    }
  }

  function Lightened(entries: seq<Entry>): (r: seq<Entry>)
    ensures |r| == |entries|
    ensures forall k :: 0 <= k < |r| ==> r[k] == Lighten(entries[k])
  {
    if entries == [] then [] else Lightened(entries[..|entries| - 1]) + [Lighten(entries[|entries| - 1])]
  }

  // ----------------------------------------------------------------------------- budgets

  /** What entries cost, by whatever measure of an entry. */
  function Cost(entries: seq<Entry>, sizeOf: Entry -> nat): nat {
    if entries == [] then 0 else Cost(entries[..|entries| - 1], sizeOf) + sizeOf(entries[|entries| - 1])
  }

  lemma {:induction false} CostConcat(a: seq<Entry>, b: seq<Entry>, sizeOf: Entry -> nat)
    ensures Cost(a + b, sizeOf) == Cost(a, sizeOf) + Cost(b, sizeOf)
  {
    if b == [] {
      assert a + b == a;
    } else {
      CostConcat(a, b[..|b| - 1], sizeOf);
      assert (a + b)[..|a + b| - 1] == a + b[..|b| - 1];
    }
  }

  /** Within both caps. */
  predicate Fits(entries: seq<Entry>, sizeOf: Entry -> nat) {
    |entries| <= SNAPSHOT_MAX_ENTRIES && Cost(entries, sizeOf) <= SNAPSHOT_MAX_BYTES
  }

  function Flat(bodies: seq<seq<Entry>>): seq<Entry> {
    if bodies == [] then [] else bodies[0] + Flat(bodies[1..])
  }

  /** The longest front of a turn that fits. */
  predicate IsFront(entries: seq<Entry>, sizeOf: Entry -> nat, front: seq<Entry>) {
    front <= entries && Fits(front, sizeOf)
    && (|front| < |entries| ==> !Fits(entries[..|front| + 1], sizeOf))
  }

  /** The window over turns in file order: as many whole newest ones as fit together, and a front of the
      next one when that leaves nothing. */
  ghost predicate IsWindow(bodies: seq<seq<Entry>>, sizeOf: Entry -> nat, out: seq<Entry>) {
    exists n :: 0 <= n <= |bodies| && WindowFrom(bodies, sizeOf, n, out)
  }

  predicate WindowFrom(bodies: seq<seq<Entry>>, sizeOf: Entry -> nat, n: nat, out: seq<Entry>)
    requires n <= |bodies|
  {
    && Cuts(bodies, sizeOf, n)
    && if n > 0 && Flat(bodies[n..]) == [] then IsFront(bodies[n - 1], sizeOf, out) else out == Flat(bodies[n..])
  }

  /** The turns from `n` on fit, and one more does not. */
  predicate Cuts(bodies: seq<seq<Entry>>, sizeOf: Entry -> nat, n: nat)
    requires n <= |bodies|
  {
    Fits(Flat(bodies[n..]), sizeOf) && (n > 0 ==> !Fits(Flat(bodies[n - 1..]), sizeOf))
  }

  lemma {:induction false} FlatCost(body: seq<Entry>, rest: seq<seq<Entry>>, sizeOf: Entry -> nat)
    ensures Flat([body] + rest) == body + Flat(rest)
    ensures Cost(Flat([body] + rest), sizeOf) == Cost(body, sizeOf) + Cost(Flat(rest), sizeOf)
  {
    assert ([body] + rest)[1..] == rest;
    CostConcat(body, Flat(rest), sizeOf);
  }

  /** Fewer turns cost less, so there is one place to cut and the window is the only one. */
  lemma {:induction false} FitsLater(bodies: seq<seq<Entry>>, sizeOf: Entry -> nat, m: nat, n: nat)
    requires m <= n <= |bodies| && Fits(Flat(bodies[m..]), sizeOf)
    ensures Fits(Flat(bodies[n..]), sizeOf)
    decreases n - m
  {
    if m < n {
      assert bodies[m..] == [bodies[m]] + bodies[m + 1..];
      FlatCost(bodies[m], bodies[m + 1..], sizeOf);
      FitsLater(bodies, sizeOf, m + 1, n);
    }
  }

  lemma {:induction false} WindowUnique(bodies: seq<seq<Entry>>,
                                        sizeOf: Entry -> nat, out: seq<Entry>, out': seq<Entry>)
    requires IsWindow(bodies, sizeOf, out) && IsWindow(bodies, sizeOf, out')
    ensures out == out'
  {
    hide Fits, Flat, IsFront;
    var m :| 0 <= m <= |bodies| && WindowFrom(bodies, sizeOf, m, out);
    var n :| 0 <= n <= |bodies| && WindowFrom(bodies, sizeOf, n, out');
    if m < n {
      FitsLater(bodies, sizeOf, m, n - 1);
    } else if n < m {
      FitsLater(bodies, sizeOf, n, m - 1);
    } else if m > 0 && Flat(bodies[m..]) == [] {
      FrontUnique(bodies[m - 1], sizeOf, out, out');
    }
  }

  lemma {:induction false} FrontUnique(entries: seq<Entry>, sizeOf: Entry -> nat, a: seq<Entry>, b: seq<Entry>)
    requires IsFront(entries, sizeOf, a) && IsFront(entries, sizeOf, b)
    ensures a == b
  {
    assert a == entries[..|a|] && b == entries[..|b|];
    if |a| < |b| {
      FrontFits(entries, sizeOf, |a| + 1, |b|);
    } else if |b| < |a| {
      FrontFits(entries, sizeOf, |b| + 1, |a|);
    }
  }

  lemma {:induction false} FrontFits(entries: seq<Entry>, sizeOf: Entry -> nat, m: nat, n: nat)
    requires m <= n <= |entries| && Fits(entries[..n], sizeOf)
    ensures Fits(entries[..m], sizeOf)
  {
    CostConcat(entries[..m], entries[m..n], sizeOf);
    assert entries[..m] + entries[m..n] == entries[..n];
  }

  // ----------------------------------------------------------------------------- capture

  /** The lightened bodies of the turns that are there. */
  function Bodies(ids: seq<string>, turns: map<string, Turn>): seq<seq<Entry>> {
    if ids == [] then []
    else (if ids[0] in turns then [Lightened(turns[ids[0]].entries)] else []) + Bodies(ids[1..], turns)
  }

  function Newest(order: seq<string>): seq<string> {
    if |order| > SNAPSHOT_TURNS then order[|order| - SNAPSHOT_TURNS..] else order
  }

  method AdmitPrefix(entries: seq<Entry>, sizeOf: Entry -> nat) returns (out: seq<Entry>)
    ensures IsFront(Lightened(entries), sizeOf, out)
  {
    hide Lighten, Lightened;
    out := [];
    var bytes := 0;
    ghost var all := Lightened(entries);
    for i := 0 to |entries|
      invariant out == all[..i] && Fits(out, sizeOf) && bytes == Cost(out, sizeOf)
    {
      var light := Lighten(entries[i]);
      var cost := sizeOf(light);
      assert all[..i + 1] == out + [light] && (out + [light])[..i] == out;
      if |out| + 1 > SNAPSHOT_MAX_ENTRIES || bytes + cost > SNAPSHOT_MAX_BYTES {
        return;
      }
      out, bytes := out + [light], bytes + cost;
    }
  }

  method NewestWindow(order: seq<string>, turns: map<string, Turn>, sizeOf: Entry -> nat)
    returns (out: seq<Entry>)
    ensures IsWindow(Bodies(Newest(order), turns), sizeOf, out)
    ensures Captures(order, turns, sizeOf, out)
  {
    hide Newest, Fits, Flat, Bodies, IsWindow, Captures;
    var ids := Newest(order);
    var n := |ids|;
    var bytes := 0;
    out := [];
    NoTurns(ids, turns, sizeOf);
    while n > 0
      invariant 0 <= n <= |ids|
      invariant out == Flat(Bodies(ids[n..], turns)) && Fits(out, sizeOf) && bytes == Cost(out, sizeOf)
    {
      n := n - 1;
      BodiesFrom(ids, n, turns);
      if ids[n] !in turns {
        continue;
      }
      var whole := Lightened(turns[ids[n]].entries);
      FlatCost(whole, Bodies(ids[n + 1..], turns), sizeOf);
      var cost := Total(whole, sizeOf);
      FitsTogether(whole, out, sizeOf);
      if |out| + |whole| <= SNAPSHOT_MAX_ENTRIES && bytes + cost <= SNAPSHOT_MAX_BYTES {
        out, bytes := whole + out, bytes + cost;
        continue;
      }
      ghost var later := out;
      if |out| == 0 {
        out := AdmitPrefix(turns[ids[n]].entries, sizeOf);
      }
      CutHere(ids, n, turns, sizeOf, later, out);
      CapturedUpTo(order, turns, sizeOf, n, later, out);
      return;
    }
    AllFit(ids, turns, sizeOf, out);
    AllCaptured(order, turns, sizeOf, out);
  }

  lemma {:induction false} NoTurns(ids: seq<string>, turns: map<string, Turn>, sizeOf: Entry -> nat)
    ensures Flat(Bodies(ids[|ids|..], turns)) == [] && Fits([], sizeOf)
  {
  }

  lemma {:induction false} BodiesFrom(ids: seq<string>, n: nat, turns: map<string, Turn>)
    requires n < |ids|
    ensures ids[n] in turns ==>
      Bodies(ids[n..], turns) == [Lightened(turns[ids[n]].entries)] + Bodies(ids[n + 1..], turns)
    ensures ids[n] !in turns ==> Bodies(ids[n..], turns) == Bodies(ids[n + 1..], turns)
  {
    assert ids[n..][0] == ids[n] && ids[n..][1..] == ids[n + 1..];
  }

  lemma {:induction false} FitsTogether(a: seq<Entry>, b: seq<Entry>, sizeOf: Entry -> nat)
    ensures Fits(a + b, sizeOf) <==>
            |a| + |b| <= SNAPSHOT_MAX_ENTRIES && Cost(a, sizeOf) + Cost(b, sizeOf) <= SNAPSHOT_MAX_BYTES
  {
    CostConcat(a, b, sizeOf);
  }

  /** The first turn from the end that does not fit is where the window is cut. */
  lemma {:induction false} CutHere(ids: seq<string>, n: nat, turns: map<string, Turn>, sizeOf: Entry -> nat,
                                   later: seq<Entry>, out: seq<Entry>)
    requires n < |ids| && ids[n] in turns && later == Flat(Bodies(ids[n + 1..], turns)) && Fits(later, sizeOf)
    requires !Fits(Lightened(turns[ids[n]].entries) + later, sizeOf)
    requires if later == [] then IsFront(Lightened(turns[ids[n]].entries), sizeOf, out) else out == later
    ensures IsWindow(Bodies(ids, turns), sizeOf, out)
  {
    hide Fits, Bodies, Lightened;
    var whole := Lightened(turns[ids[n]].entries);
    var bodies, front, rest := Bodies(ids, turns), Bodies(ids[..n], turns), Bodies(ids[n + 1..], turns);
    BodiesConcat(ids[..n], ids[n..], turns);
    assert ids[..n] + ids[n..] == ids;
    BodiesFrom(ids, n, turns);
    var m := |front| + 1;
    assert bodies[m..] == rest && bodies[m - 1] == whole && bodies[m - 1..] == [whole] + rest;
    FlatCost(whole, rest, sizeOf);
    assert WindowFrom(bodies, sizeOf, m, out);
  }

  lemma {:induction false} AllFit(ids: seq<string>, turns: map<string, Turn>, sizeOf: Entry -> nat, out: seq<Entry>)
    requires out == Flat(Bodies(ids[0..], turns)) && Fits(out, sizeOf)
    ensures IsWindow(Bodies(ids, turns), sizeOf, out)
  {
    assert ids[0..] == ids;
    var bodies := Bodies(ids, turns);
    assert bodies[0..] == bodies;
    assert WindowFrom(bodies, sizeOf, 0, out);
  }

  method Total(entries: seq<Entry>, sizeOf: Entry -> nat) returns (n: nat)
    ensures n == Cost(entries, sizeOf)
  {
    n := 0;
    for i := 0 to |entries|
      invariant n == Cost(entries[..i], sizeOf)
    {
      assert entries[..i + 1][..i] == entries[..i];
      n := n + sizeOf(entries[i]);
    }
    assert entries[..|entries|] == entries;
  }

  lemma {:induction false} BodiesConcat(a: seq<string>, b: seq<string>, turns: map<string, Turn>)
    ensures Bodies(a + b, turns) == Bodies(a, turns) + Bodies(b, turns)
  {
    if a == [] {
      assert a + b == b;
    } else {
      hide Bodies;
      BodiesConcat(a[1..], b, turns);
      assert (a + b)[1..] == a[1..] + b;
      FirstBody(a, turns);
      FirstBody(a + b, turns);
      var first := if a[0] in turns then [Lightened(turns[a[0]].entries)] else [];
      Strings.ConcatAssociates(first, Bodies(a[1..], turns), Bodies(b, turns));
    }
  }

  lemma {:induction false} FirstBody(ids: seq<string>, turns: map<string, Turn>)
    requires ids != []
    ensures var first := if ids[0] in turns then [Lightened(turns[ids[0]].entries)] else [];
      Bodies(ids, turns) == first + Bodies(ids[1..], turns)
  {
  }

  // What is captured, said of the store's order.

  /** A stored turn's entries, lightened; nothing for a turn that is not there. */
  function BodyOf(turns: map<string, Turn>, id: string): seq<Entry> {
    if id in turns then Lightened(turns[id].entries) else []
  }

  /** The turns from place `n` of the order on, whole. */
  function WholeFrom(order: seq<string>, turns: map<string, Turn>, n: nat): seq<Entry>
    decreases |order| - n
  {
    if n >= |order| then [] else BodyOf(turns, order[n]) + WholeFrom(order, turns, n + 1)
  }

  /** The window holds the turns from `n` on, each of them whole: all three newest, or as many as fit
      together. */
  predicate CapturesWhole(order: seq<string>, turns: map<string, Turn>, sizeOf: Entry -> nat, n: nat, out: seq<Entry>) {
    && n <= |order| <= n + 3 && out == WholeFrom(order, turns, n) && Fits(out, sizeOf)
    && (n == 0 || |order| == n + 3 || (out != [] && !Fits(WholeFrom(order, turns, n - 1), sizeOf)))
  }

  /** The window holds a front of turn `n`, which does not fit alone, and no later turn holds anything. */
  predicate CapturesFront(order: seq<string>, turns: map<string, Turn>, sizeOf: Entry -> nat, n: nat, out: seq<Entry>) {
    && n < |order| <= n + 3 && WholeFrom(order, turns, n + 1) == [] && !Fits(BodyOf(turns, order[n]), sizeOf)
    && IsFront(BodyOf(turns, order[n]), sizeOf, out)
  }

  ghost predicate Captures(order: seq<string>, turns: map<string, Turn>, sizeOf: Entry -> nat, out: seq<Entry>) {
    || (exists n: nat :: CapturesWhole(order, turns, sizeOf, n, out))
    || (exists n: nat :: CapturesFront(order, turns, sizeOf, n, out))
  }

  lemma {:induction false} WholeIsFlat(order: seq<string>, turns: map<string, Turn>, n: nat)
    requires n <= |order|
    ensures Flat(Bodies(order[n..], turns)) == WholeFrom(order, turns, n)
    decreases |order| - n
  {
    hide Lightened;
    if n < |order| {
      WholeIsFlat(order, turns, n + 1);
      assert order[n..][1..] == order[n + 1..] && order[n..][0] == order[n];
      var rest := Bodies(order[n + 1..], turns);
      FirstBody(order[n..], turns);
      if order[n] in turns {
        assert ([BodyOf(turns, order[n])] + rest)[1..] == rest;
      } else {
        assert [] + rest == rest && [] + WholeFrom(order, turns, n + 1) == WholeFrom(order, turns, n + 1);
      }
    } else {
      assert order[n..] == [];
    }
  }

  /** The window is cut at turn `n`: those behind it fit together, and not with it. */
  lemma {:induction false} CutCaptures(order: seq<string>, turns: map<string, Turn>, sizeOf: Entry -> nat, n: nat,
                                       out: seq<Entry>)
    requires n < |order| <= n + 3 && Fits(WholeFrom(order, turns, n + 1), sizeOf)
    requires !Fits(BodyOf(turns, order[n]) + WholeFrom(order, turns, n + 1), sizeOf)
    requires var later := WholeFrom(order, turns, n + 1);
      if later == [] then IsFront(BodyOf(turns, order[n]), sizeOf, out) else out == later
    ensures Captures(order, turns, sizeOf, out)
  {
    WholeStep(order, turns, n);
    hide Fits, BodyOf, WholeFrom, IsFront;
    if WholeFrom(order, turns, n + 1) == [] {
      assert BodyOf(turns, order[n]) + [] == BodyOf(turns, order[n]);
      assert CapturesFront(order, turns, sizeOf, n, out);
    } else {
      assert CapturesWhole(order, turns, sizeOf, n + 1, out);
    }
  }

  /** The newest turns are the last of the order, three or all of them. */
  lemma {:induction false} NewestAt(order: seq<string>, turns: map<string, Turn>, n: nat)
    requires n <= |Newest(order)|
    ensures var ids := Newest(order); var off := |order| - |ids|;
      && 0 <= off && |order| <= off + 3 && (off == 0 || |order| == off + 3)
      && (n < |ids| ==> ids[n] == order[off + n])
      && Flat(Bodies(ids[n..], turns)) == WholeFrom(order, turns, off + n)
  {
    hide Flat, Bodies, WholeFrom;
    var off := |order| - |Newest(order)|;
    assert Newest(order)[n..] == order[off + n..];
    WholeIsFlat(order, turns, off + n);
  }

  lemma {:induction false} CapturedUpTo(order: seq<string>, turns: map<string, Turn>, sizeOf: Entry -> nat, n: nat,
                                        later: seq<Entry>, out: seq<Entry>)
    requires var ids := Newest(order); n < |ids| && ids[n] in turns && later == Flat(Bodies(ids[n + 1..], turns))
    requires Fits(later, sizeOf) && !Fits(Lightened(turns[Newest(order)[n]].entries) + later, sizeOf)
    requires if later == [] then IsFront(Lightened(turns[Newest(order)[n]].entries), sizeOf, out) else out == later
    ensures Captures(order, turns, sizeOf, out)
  {
    hide Newest, Fits, Flat, Bodies, IsFront, Captures, WholeFrom, Lightened;
    NewestAt(order, turns, n);
    NewestAt(order, turns, n + 1);
    var k := |order| - |Newest(order)| + n;
    assert BodyOf(turns, order[k]) == Lightened(turns[Newest(order)[n]].entries);
    hide BodyOf;
    CutCaptures(order, turns, sizeOf, k, out);
  }

  lemma {:induction false} AllCaptured(order: seq<string>, turns: map<string, Turn>, sizeOf: Entry -> nat,
                                       out: seq<Entry>)
    requires out == Flat(Bodies(Newest(order)[0..], turns)) && Fits(out, sizeOf)
    ensures Captures(order, turns, sizeOf, out)
  {
    hide Newest, Fits, Flat, Bodies, WholeFrom, BodyOf, CapturesFront;
    NewestAt(order, turns, 0);
    var n := |order| - |Newest(order)|;
    assert out == WholeFrom(order, turns, n);
    assert CapturesWhole(order, turns, sizeOf, n, out);
  }

  lemma {:induction false} WholeStep(order: seq<string>, turns: map<string, Turn>, n: nat)
    requires n < |order|
    ensures WholeFrom(order, turns, n) == BodyOf(turns, order[n]) + WholeFrom(order, turns, n + 1)
    ensures WholeFrom(order, turns, n + 1) == [] ==> WholeFrom(order, turns, n) == BodyOf(turns, order[n])
  {
  }

  /** Every captured entry is of one of the three newest turns. */
  lemma {:induction false} OnlyNewest(order: seq<string>, turns: map<string, Turn>, sizeOf: Entry -> nat,
                                      out: seq<Entry>, e: Entry) returns (i: nat)
    requires Captures(order, turns, sizeOf, out) && e in out
    ensures i < |order| <= i + 3 && e in BodyOf(turns, order[i])
  {
    hide BodyOf, Fits, WholeFrom;
    if n: nat :| CapturesWhole(order, turns, sizeOf, n, out) {
      i := WholeHolds(order, turns, n, e);
    } else {
      i :| CapturesFront(order, turns, sizeOf, i, out);
    }
  }

  /** The newest turn is captured whole, at the end, whenever it fits alone. */
  lemma {:induction false} NewestIsWhole(order: seq<string>, turns: map<string, Turn>, sizeOf: Entry -> nat,
                                         out: seq<Entry>)
    requires Captures(order, turns, sizeOf, out)
    requires order != [] && Fits(BodyOf(turns, order[|order| - 1]), sizeOf)
    ensures var newest := BodyOf(turns, order[|order| - 1]);
      |newest| <= |out| && out[|out| - |newest|..] == newest
  {
    hide BodyOf, Fits, WholeFrom;
    if n: nat :| CapturesWhole(order, turns, sizeOf, n, out) {
      if n == |order| {
        NothingCaptured(order, turns, n);
      } else {
        WholeEnds(order, turns, n);
      }
    } else {
      var n: nat :| CapturesFront(order, turns, sizeOf, n, out);
      WholeEnds(order, turns, if n < |order| - 1 then n + 1 else n);
    }
  }

  lemma {:induction false} NothingCaptured(order: seq<string>, turns: map<string, Turn>, n: nat)
    requires n >= |order|
    ensures WholeFrom(order, turns, n) == []
  {
  }

  lemma {:induction false} WholeHolds(order: seq<string>, turns: map<string, Turn>, n: nat, e: Entry)
    returns (i: nat)
    requires e in WholeFrom(order, turns, n)
    ensures n <= i < |order| && e in BodyOf(turns, order[i])
    decreases |order| - n
  {
    hide BodyOf;
    if e in BodyOf(turns, order[n]) {
      i := n;
    } else {
      i := WholeHolds(order, turns, n + 1, e);
    }
  }

  lemma {:induction false} WholeEnds(order: seq<string>, turns: map<string, Turn>, n: nat)
    requires n < |order|
    ensures var newest, all := BodyOf(turns, order[|order| - 1]), WholeFrom(order, turns, n);
      |newest| <= |all| && all[|all| - |newest|..] == newest
    decreases |order| - n
  {
    hide BodyOf;
    if n < |order| - 1 {
      WholeEnds(order, turns, n + 1);
    } else {
      assert WholeFrom(order, turns, n + 1) == [];
      assert BodyOf(turns, order[n]) + [] == BodyOf(turns, order[n]);
    }
  }

  /** Whatever an entry costs, a captured window is within both caps. */
  lemma {:induction false} WindowFits(bodies: seq<seq<Entry>>, sizeOf: Entry -> nat, out: seq<Entry>)
    requires IsWindow(bodies, sizeOf, out)
    ensures |out| <= 80 && Cost(out, sizeOf) <= 98304
  {
  }

  // --------------------------------------------------------------------------- regrouping

  /** One turn's entries, in file order. */
  function Of(entries: seq<Entry>, t: string): seq<Entry> {
    if entries == [] then []
    else
      var last := entries[|entries| - 1];
      Of(entries[..|entries| - 1], t) + if last.turn == t then [last] else []
  }

  /** The entries of one turn that can be seated: each one that comes when it is next. */
  function Seated(entries: seq<Entry>): seq<Entry> {
    if entries == [] then []
    else
      var held, last := Seated(entries[..|entries| - 1]), entries[|entries| - 1];
      if last.seqNo == |held| then held + [last] else held
  }

  /** Where a seated turn was closed; an opening entry closes nothing. */
  function CloseOf(entries: seq<Entry>): Option<int> {
    if |entries| <= 1 then None
    else
      var last := entries[|entries| - 1];
      if last.kind.TurnClose? then Some(last.seqNo) else CloseOf(entries[..|entries| - 1])
  }

  /** The turns in the order in which their first entries come. */
  function Starts(entries: seq<Entry>): seq<string> {
    if entries == [] then []
    else
      var held, last := Starts(entries[..|entries| - 1]), entries[|entries| - 1];
      if last.seqNo == 0 && last.turn !in held then held + [last.turn] else held
  }

  function TurnOf(entries: seq<Entry>, t: string): Turn {
    var seated := Seated(Of(entries, t));
    Turn(seated, CloseOf(seated))
  }

  /** Every entry goes to its own turn, and is kept there exactly when it is next in line. */
  ghost predicate Grouped(entries: seq<Entry>, turns: map<string, Turn>, order: seq<string>) {
    && order == Starts(entries)
    && (forall t :: t in turns <==> Seated(Of(entries, t)) != [])
    && (forall t :: t in turns ==> turns[t] == TurnOf(entries, t))
  }

  method TurnsFromEntries(entries: seq<Entry>) returns (turns: map<string, Turn>, order: seq<string>)
    ensures Grouped(entries, turns, order)
  {
    turns, order := map[], [];
    for i := 0 to |entries|
      invariant Grouped(entries[..i], turns, order)
    {
      assert entries[..i + 1] == entries[..i] + [entries[i]];
      turns, order := SeatEntry(entries[..i], turns, order, entries[i]);
    }
    assert entries[..|entries|] == entries;
  }

  /** One entry more. */
  method SeatEntry(ghost done: seq<Entry>, turns: map<string, Turn>, order: seq<string>, e: Entry)
    returns (turns': map<string, Turn>, order': seq<string>)
    requires Grouped(done, turns, order)
    ensures Grouped(done + [e], turns', order')
  {
    hide Of, Seated, CloseOf, Starts;
    turns', order' := turns, order;
    NextEntry(done, e);
    NextClose(Seated(Of(done, e.turn)), e);
    StartIffSeated(done, e.turn);
    if e.turn !in turns {
      if e.seqNo != 0 {
        return;
      }
      turns' := turns[e.turn := Turn([e], None)];
      order' := order + [e.turn];
      return;
    }
    var held := turns[e.turn];
    if e.seqNo != |held.entries| {
      return;
    }
    turns' := turns[e.turn := Turn(held.entries + [e], if e.kind.TurnClose? then Some(e.seqNo) else held.closeAt)];
  }

  lemma {:induction false} NextEntry(done: seq<Entry>, e: Entry)
    ensures forall t :: t != e.turn ==> Of(done + [e], t) == Of(done, t)
    ensures var held := Seated(Of(done, e.turn));
      Seated(Of(done + [e], e.turn)) == if e.seqNo == |held| then held + [e] else held
    ensures Starts(done + [e]) ==
      if e.seqNo == 0 && e.turn !in Starts(done) then Starts(done) + [e.turn] else Starts(done)
  {
    assert (done + [e])[..|done|] == done;
    var mine := Of(done, e.turn);
    assert Of(done + [e], e.turn) == mine + [e] && (mine + [e])[..|mine|] == mine;
  }

  lemma {:induction false} NextClose(g: seq<Entry>, e: Entry)
    ensures CloseOf(g + [e]) == if g == [] then None else if e.kind.TurnClose? then Some(e.seqNo) else CloseOf(g)
  {
    assert (g + [e])[..|g|] == g;
  }

  /** A turn is listed when, and only when, it is seated. */
  lemma {:induction false} StartIffSeated(entries: seq<Entry>, t: string)
    ensures t in Starts(entries) <==> Seated(Of(entries, t)) != []
  {
    if entries == [] {
      NothingStarts(t);
    } else {
      hide Starts, Of, Seated, CloseOf;
      var init, last := entries[..|entries| - 1], entries[|entries| - 1];
      assert init + [last] == entries;
      StartIffSeated(init, t);
      NextEntry(init, last);
      if t != last.turn {
        assert Of(entries, t) == Of(init, t);
      }
    }
  }

  // On any list of entries at all.

  predicate Contiguous(entries: seq<Entry>) {
    forall k :: 0 <= k < |entries| ==> entries[k].seqNo == k
  }

  /** Every seated turn is contiguous from 0, whatever the list holds. */
  lemma {:induction false} SeatedContiguous(entries: seq<Entry>)
    ensures Contiguous(Seated(entries))
  {
    if entries != [] {
      SeatedContiguous(entries[..|entries| - 1]);
    }
  }

  lemma {:induction false} SeatedLength(entries: seq<Entry>)
    ensures |Seated(entries)| <= |entries|
  {
    if entries != [] {
      SeatedLength(entries[..|entries| - 1]);
    }
  }

  /** A turn is seated whole exactly when its entries are contiguous from 0; one that is not is cut
      short, it is not dropped. */
  lemma {:induction false} SeatedWholeIff(entries: seq<Entry>)
    ensures Seated(entries) == entries <==> Contiguous(entries)
    ensures Seated(entries) == [] <==> forall k :: 0 <= k < |entries| ==> entries[k].seqNo != 0
  {
    if entries != [] {
      hide Contiguous;
      var init, last := entries[..|entries| - 1], entries[|entries| - 1];
      assert entries == init + [last];
      SeatedWholeIff(init);
      SeatedLength(init);
      SnocInjective(Seated(init), init, last);
      ContiguousSnoc(init, last);
      NoZeroSnoc(init, last);
    } else {
      assert Contiguous(entries);
    }
  }

  lemma {:induction false} NoZeroSnoc(entries: seq<Entry>, e: Entry)
    ensures (forall k :: 0 <= k < |entries + [e]| ==> (entries + [e])[k].seqNo != 0)
      <==> e.seqNo != 0 && forall k :: 0 <= k < |entries| ==> entries[k].seqNo != 0
  {
    var more := entries + [e];
    assert more[|entries|] == e;
    assert forall k :: 0 <= k < |entries| ==> more[k] == entries[k];
  }

  lemma {:induction false} SnocInjective(a: seq<Entry>, b: seq<Entry>, e: Entry)
    ensures a + [e] == b + [e] <==> a == b
    ensures a == b + [e] ==> |a| > |b|
  {
    if a + [e] == b + [e] {
      assert a == (a + [e])[..|a + [e]| - 1] && b == (b + [e])[..|b + [e]| - 1];
    }
  }

  lemma {:induction false} ContiguousSnoc(entries: seq<Entry>, e: Entry)
    ensures Contiguous(entries + [e]) <==> Contiguous(entries) && e.seqNo == |entries|
  {
    var more := entries + [e];
    assert more[|entries|] == e;
    assert forall k :: 0 <= k < |entries| ==> more[k] == entries[k];
  }

  /** Two of three entries with a hole between them: the turn is still seated, without what is past the hole. */
  lemma {:induction false} HoleIsCutNotDropped(t: string, p: Payload)
    ensures var first, third := Entry(t, 0, TurnOpen, p), Entry(t, 2, TurnClose, p);
      Starts([first, third]) == [t] && TurnOf([first, third], t) == Turn([first], None)
  {
    hide Of, Seated, CloseOf, Starts;
    var first, third := Entry(t, 0, TurnOpen, p), Entry(t, 2, TurnClose, p);
    NothingStarts(t);
    NextEntry([], first);
    NextEntry([first], third);
    NextClose([], first);
    assert [] + [first] == [first] && [first] + [third] == [first, third];
  }

  // What is captured comes back.

  /** The store's own turns: numbered from 0, each under its own id, closed where the close stands. */
  predicate Stored(turns: map<string, Turn>) {
    forall t :: t in turns ==> StoredTurn(t, turns[t])
  }

  predicate StoredTurn(t: string, turn: Turn) {
    && Contiguous(turn.entries) && turn.closeAt == CloseOf(turn.entries)
    && forall k :: 0 <= k < |turn.entries| ==> turn.entries[k].turn == t
  }

  predicate Unrepeated(ids: seq<string>) {
    forall j, k :: 0 <= j < k < |ids| ==> ids[j] != ids[k]
  }

  /** The turns that have anything to show. */
  function Held(ids: seq<string>, turns: map<string, Turn>): seq<string> {
    if ids == [] then []
    else (if ids[0] in turns && turns[ids[0]].entries != [] then [ids[0]] else []) + Held(ids[1..], turns)
  }

  /** `out` regroups into exactly these turns, lightened, in this order. */
  predicate Regroups(out: seq<Entry>, ids: seq<string>, turns: map<string, Turn>) {
    && Starts(out) == Held(ids, turns)
    && (forall k :: 0 <= k < |ids| && ids[k] in turns ==>
          TurnOf(out, ids[k]) == Turn(Lightened(turns[ids[k]].entries), turns[ids[k]].closeAt))
  }

  lemma {:induction false} OfConcat(a: seq<Entry>, b: seq<Entry>, t: string)
    ensures Of(a + b, t) == Of(a, t) + Of(b, t)
  {
    if b == [] {
      assert a + b == a;
    } else {
      OfConcat(a, b[..|b| - 1], t);
      assert (a + b)[..|a + b| - 1] == a + b[..|b| - 1];
    }
  }

  predicate AllOf(entries: seq<Entry>, t: string) {
    forall k :: 0 <= k < |entries| ==> entries[k].turn == t
  }

  predicate NoneOf(entries: seq<Entry>, t: string) {
    forall k :: 0 <= k < |entries| ==> entries[k].turn != t
  }

  lemma {:induction false} OfAllOrNone(entries: seq<Entry>, t: string)
    ensures AllOf(entries, t) ==> Of(entries, t) == entries
    ensures NoneOf(entries, t) ==> Of(entries, t) == []
  {
    if entries != [] {
      OfAllOrNone(entries[..|entries| - 1], t);
      assert entries == entries[..|entries| - 1] + [entries[|entries| - 1]];
    }
  }

  lemma {:induction false} StartsConcat(a: seq<Entry>, t: string, b: seq<Entry>)
    requires AllOf(a, t) && NoneOf(b, t)
    ensures Starts(a + b) == Starts(a) + Starts(b)
  {
    if b == [] {
      assert a + b == a;
    } else {
      hide Starts;
      var init, last := b[..|b| - 1], b[|b| - 1];
      StartsConcat(a, t, init);
      assert b == init + [last] && a + b == (a + init) + [last];
      NextEntry(a + init, last);
      NextEntry(init, last);
      StartsAll(a, t);
      assert last.turn !in Starts(a);
      Strings.ConcatAssociates(Starts(a), Starts(init), [last.turn]);
    }
  }

  lemma {:induction false} StartsAll(entries: seq<Entry>, t: string)
    requires AllOf(entries, t)
    ensures forall x :: x in Starts(entries) ==> x == t
    ensures Contiguous(entries) ==> Starts(entries) == if entries == [] then [] else [t]
  {
    if entries != [] {
      StartsAll(entries[..|entries| - 1], t);
    }
  }

  lemma {:induction false} LightenedStored(t: string, turn: Turn)
    requires StoredTurn(t, turn)
    ensures var l := Lightened(turn.entries);
      AllOf(l, t) && Contiguous(l) && Seated(l) == l && CloseOf(l) == turn.closeAt
  {
    var l := Lightened(turn.entries);
    forall k | 0 <= k < |l| ensures l[k].turn == t && l[k].seqNo == k {
      LightenKeepsPlace(turn.entries[k]);
    }
    SeatedWholeIff(l);
    CloseOfLightened(turn.entries);
  }

  lemma {:induction false} CloseOfLightened(entries: seq<Entry>)
    ensures CloseOf(Lightened(entries)) == CloseOf(entries)
  {
    if |entries| > 1 {
      var init := entries[..|entries| - 1];
      CloseOfLightened(init);
      LightenKeepsPlace(entries[|entries| - 1]);
      assert Lightened(entries)[..|entries| - 1] == Lightened(init);
    }
  }

  lemma {:induction false} BodiesHoldOnly(ids: seq<string>, turns: map<string, Turn>, t: string)
    requires Stored(turns) && t !in ids
    ensures NoneOf(Flat(Bodies(ids, turns)), t)
  {
    hide StoredTurn, Lightened, AllOf;
    if ids != [] {
      var later := Bodies(ids[1..], turns);
      BodiesHoldOnly(ids[1..], turns, t);
      if ids[0] in turns {
        var body := Lightened(turns[ids[0]].entries);
        LightenedStored(ids[0], turns[ids[0]]);
        NoneOfOther(body, ids[0], t);
        assert Bodies(ids, turns) == [body] + later && ([body] + later)[1..] == later;
      } else {
        assert Bodies(ids, turns) == later;
      }
    }
  }

  /** Whole turns laid end to end regroup into themselves. */
  lemma {:induction false} WholeTurnsRegroup(ids: seq<string>, turns: map<string, Turn>)
    requires Stored(turns) && Unrepeated(ids)
    ensures Regroups(Flat(Bodies(ids, turns)), ids, turns)
  {
    hide Stored, StoredTurn, Lightened, AllOf, NoneOf, Contiguous, Seated, Of, Starts, CloseOf;
    if ids == [] {
      NothingStarts("");
    } else {
      var id, rest := ids[0], ids[1..];
      var later := Flat(Bodies(rest, turns));
      assert id !in rest;
      WholeTurnsRegroup(rest, turns);
      BodiesHoldOnly(rest, turns, id);
      if id in turns {
        TurnInFront(id, rest, turns);
      } else {
        assert Bodies(ids, turns) == Bodies(rest, turns) && Held(ids, turns) == Held(rest, turns);
        forall k | 0 <= k < |ids| && ids[k] in turns
          ensures TurnOf(later, ids[k]) == Turn(Lightened(turns[ids[k]].entries), turns[ids[k]].closeAt)
        {
          assert ids[k] == rest[k - 1];
        }
      }
    }
  }

  lemma {:induction false} NothingStarts(t: string)
    ensures Starts([]) == [] && Of([], t) == [] && Seated([]) == []
  {
  }

  lemma {:induction false} TurnInFront(id: string, rest: seq<string>, turns: map<string, Turn>)
    requires Stored(turns) && id in turns && id !in rest && NoneOf(Flat(Bodies(rest, turns)), id)
    requires Regroups(Flat(Bodies(rest, turns)), rest, turns)
    ensures Regroups(Flat(Bodies([id] + rest, turns)), [id] + rest, turns)
  {
    hide Stored, StoredTurn, Lightened, AllOf, NoneOf, Contiguous, Seated, Of, Starts, CloseOf;
    var ids, body, later := [id] + rest, Lightened(turns[id].entries), Flat(Bodies(rest, turns));
    assert ids[1..] == rest;
    LightenedStored(id, turns[id]) by { StoredAt(turns, id); }
    assert Bodies(ids, turns) == [body] + Bodies(rest, turns);
    assert ([body] + Bodies(rest, turns))[1..] == Bodies(rest, turns);
    var out := body + later;
    StartsConcat(body, id, later);
    StartsAll(body, id);
    forall k | 0 <= k < |ids| && ids[k] in turns
      ensures TurnOf(out, ids[k]) == Turn(Lightened(turns[ids[k]].entries), turns[ids[k]].closeAt)
    {
      OfConcat(body, later, ids[k]);
      OfAllOrNone(body, ids[k]);
      OfAllOrNone(later, ids[k]);
      if k > 0 {
        assert ids[k] == rest[k - 1];
        NoneOfOther(body, id, ids[k]);
        assert Of(out, ids[k]) == Of(later, ids[k]);
      } else {
        assert Of(out, ids[k]) == body;
      }
    }
  }

  lemma {:induction false} StoredAt(turns: map<string, Turn>, id: string)
    requires Stored(turns) && id in turns
    ensures StoredTurn(id, turns[id])
  {
  }

  lemma {:induction false} NoneOfOther(body: seq<Entry>, id: string, other: string)
    requires AllOf(body, id) && other != id
    ensures NoneOf(body, other)
  {
  }

  /** Where the `m`th body is among the ids. */
  lemma {:induction false} BodyIndex(ids: seq<string>, turns: map<string, Turn>, m: nat) returns (n: nat)
    requires m <= |Bodies(ids, turns)|
    ensures n <= |ids| && Bodies(ids[n..], turns) == Bodies(ids, turns)[m..]
    ensures m < |Bodies(ids, turns)| ==>
      n < |ids| && ids[n] in turns && Bodies(ids, turns)[m] == Lightened(turns[ids[n]].entries)
  {
    var bodies := Bodies(ids, turns);
    if ids != [] && ids[0] !in turns {
      assert bodies == Bodies(ids[1..], turns);
      var k := BodyIndex(ids[1..], turns, m);
      n := k + 1;
      assert ids[n..] == ids[1..][k..];
    } else if m == 0 {
      n := 0;
      assert ids[0..] == ids && bodies[0..] == bodies;
    } else {
      assert bodies[1..] == Bodies(ids[1..], turns);
      var k := BodyIndex(ids[1..], turns, m - 1);
      n := k + 1;
      assert ids[n..] == ids[1..][k..] && bodies[m..] == bodies[1..][m - 1..];
    }
  }

  /** `out` regroups into a front of one turn that did not fit whole. */
  predicate RegroupsFront(out: seq<Entry>, id: string, turns: map<string, Turn>) {
    && id in turns && out < Lightened(turns[id].entries)
    && Starts(out) == (if out == [] then [] else [id]) && TurnOf(out, id) == Turn(out, CloseOf(out))
  }

  lemma {:induction false} FrontRegroups(out: seq<Entry>, id: string, turns: map<string, Turn>)
    requires Stored(turns) && id in turns && out < Lightened(turns[id].entries)
    ensures RegroupsFront(out, id, turns)
  {
    LightenedStored(id, turns[id]);
    var l := Lightened(turns[id].entries);
    assert forall k :: 0 <= k < |out| ==> out[k] == l[k];
    StartsAll(out, id);
    OfAllOrNone(out, id);
    SeatedWholeIff(out);
  }

  /** From the store's turns to the record and back: what was captured regroups into whole newest turns,
      lightened and in order, or into a front of a single one. */
  lemma {:induction false} CaptureComesBack(order: seq<string>, turns: map<string, Turn>,
                                            sizeOf: Entry -> nat, out: seq<Entry>)
    requires Stored(turns) && Unrepeated(order) && IsWindow(Bodies(Newest(order), turns), sizeOf, out)
    ensures
      || (exists n {:trigger order[n..]} :: 0 <= n <= |order| <= n + 3 && Regroups(out, order[n..], turns))
      || (exists n {:trigger order[n]} :: 0 <= n < |order| <= n + 3 && RegroupsFront(out, order[n], turns))
  {
    hide Stored, Regroups, RegroupsFront, Flat, Bodies, Fits;
    var ids := Newest(order);
    var off := |order| - |ids|;
    assert forall n :: 0 <= n <= |ids| ==> ids[n..] == order[off + n..];
    var bodies := Bodies(ids, turns);
    var m :| 0 <= m <= |bodies| && WindowFrom(bodies, sizeOf, m, out);
    assert bodies[m..] == [] || m < |bodies|;
    if m > 0 && Flat(bodies[m..]) == [] {
      var n := BodyIndex(ids, turns, m - 1);
      FrontIsProper(bodies, sizeOf, m, out);
      FrontRegroups(out, ids[n], turns);
      assert ids[n] == order[off + n];
    } else {
      var n := BodyIndex(ids, turns, m);
      assert Unrepeated(ids[n..]);
      WholeTurnsRegroup(ids[n..], turns);
    }
  }

  lemma {:induction false} FrontIsProper(bodies: seq<seq<Entry>>, sizeOf: Entry -> nat, m: nat, out: seq<Entry>)
    requires 0 < m <= |bodies| && WindowFrom(bodies, sizeOf, m, out) && Flat(bodies[m..]) == []
    ensures out < bodies[m - 1]
  {
    assert bodies[m - 1..] == [bodies[m - 1]] + bodies[m..];
    FlatCost(bodies[m - 1], bodies[m..], sizeOf);
    assert bodies[m - 1] + [] == bodies[m - 1];
    assert |out| == |bodies[m - 1]| ==> out == bodies[m - 1];
  }
}
