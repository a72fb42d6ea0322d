/** Which pairs of style rules compete for one element, found through an index of the names they share,
    and which of the two wins. */
module Cascade {

  const UNLAYERED: nat := 99

  /** Specificity: ids, classes, elements. */
  datatype Spec = Spec(ids: nat, classes: nat, elements: nat)

  /** A flattened rule; its place in the bundle is its place in the list.  `order` only counts
      stylesheets, `elem` is "" when the selector names no element. */
  datatype Rule = Rule(order: nat, pos: set<string>, neg: set<string>, elem: string, pseudo: string,
                       props: set<string>, spec: Spec, layer: nat)

  // ------------------------------------------------------------------------- collisions

  predicate Named(key: string) {
    key != "" && (key[0] == '.' || key[0] == '#')
  }

  /** An id and a class of one name are the same element. */
  function Bridge(key: string): string {
    if key != "" && key[0] == '#' then "." + key[1..] else key
  }

  function Names(r: Rule): set<string> {
    set k | k in r.pos && Named(k) :: Bridge(k)
  }

  predicate CanMatchSameElement(a: Rule, b: Rule, loose: bool) {
    && a.pseudo == b.pseudo
    && (a.elem != "" && b.elem != "" ==> a.elem == b.elem)
    && a.pos * b.neg == {} && b.pos * a.neg == {}
    && Names(a) * Names(b) != {}
    && (loose || Names(a) <= Names(b) || Names(b) <= Names(a))
  }

  /** Two rules compete: some element can match both, and both set one property. */
  predicate Collide(a: Rule, b: Rule, loose: bool) {
    a.props * b.props != {} && CanMatchSameElement(a, b, loose)
  }

  lemma {:induction false} CollideSymmetric(a: Rule, b: Rule, loose: bool)
    ensures Collide(a, b, loose) <==> Collide(b, a, loose)
  {
    assert a.props * b.props == b.props * a.props;
    assert Names(a) * Names(b) == Names(b) * Names(a);
  }

  lemma {:induction false} BridgeIs(x: string)
    ensures Named("#" + x) && Named("." + x)
    ensures Bridge("#" + x) == "." + x && Bridge("." + x) == "." + x
  {
    var id, class_ := "#" + x, "." + x;
    assert id[0] == '#' && class_[0] == '.' && id[1..] == x;
  }

  lemma {:induction false} BridgedFrom(k: string, x: string)
    requires Named(k) && Bridge(k) == "." + x
    ensures k == "." + x || k == "#" + x
  {
    if k[0] == '#' {
      var class_ := "." + k[1..];
      assert k == "#" + k[1..] && class_[1..] == k[1..];
      assert ("." + x)[1..] == x;
    }
  }

  /** A rule's names are the classes and ids it asks for, an id under the class of its name. */
  lemma {:induction false} NamesAre(r: Rule)
    ensures forall x: string :: "." + x in Names(r) <==> "." + x in r.pos || "#" + x in r.pos
    ensures forall n :: n in Names(r) ==> n != "" && n[0] == '.'
  {
    forall x: string ensures "." + x in Names(r) <==> "." + x in r.pos || "#" + x in r.pos {
      hide Named, Bridge;
      BridgeIs(x);
      if "." + x in Names(r) {
        var k :| k in r.pos && Named(k) && Bridge(k) == "." + x;
        BridgedFrom(k, x);
      }
    }
  }

  /** An element as far as a subject looks at it: the classes and ids it has, its name, and what is
      drawn beside it. */
  datatype Element = Element(keys: set<string>, name: string, pseudo: string)

  predicate Matches(r: Rule, e: Element) {
    r.pseudo == e.pseudo && (r.elem == "" || r.elem == e.name) && r.pos <= e.keys && r.neg !! e.keys
  }

  /** Rules that any element can match at all compete exactly when both set a property, they name one
      class or id in common, some element matches both, and, unless pairs are to be found loosely, the
      names of one are among the names of the other. */
  lemma {:induction false} CollideIff(a: Rule, b: Rule, loose: bool)
    requires a.pos !! a.neg && b.pos !! b.neg
    ensures Collide(a, b, loose) <==>
      && (exists p :: p in a.props && p in b.props)
      && (exists n :: n in Names(a) && n in Names(b))
      && (exists e :: Matches(a, e) && Matches(b, e))
      && (loose || Names(a) <= Names(b) || Names(b) <= Names(a))
  {
    hide Names;
    OneInCommon(a.props, b.props);
    OneInCommon(Names(a), Names(b));
    OneInCommon(a.pos, b.neg);
    OneInCommon(b.pos, a.neg);
    if Collide(a, b, loose) {
      var e := Element(a.pos + b.pos, if a.elem == "" then b.elem else a.elem, a.pseudo);
      assert Matches(a, e) && Matches(b, e);
    }
    if e :| Matches(a, e) && Matches(b, e) {
      assert a.pos * b.neg == {} && b.pos * a.neg == {};
    }
  }

  lemma {:induction false} OneInCommon(x: set<string>, y: set<string>)
    ensures (exists n :: n in x && n in y) <==> x * y != {}
  {
    if n :| n in x && n in y {
      assert n in x * y;
    } else {
      assert x * y == {};
    }
  }

  /** Every rule under each of its names. */
  ghost predicate IndexOk(rules: seq<Rule>, upto: nat, index: map<string, seq<nat>>) {
    && (forall key :: key in index ==> forall n :: 0 <= n < |index[key]| ==> index[key][n] < upto)
    && (forall key, i :: 0 <= i < upto <= |rules| ==> (Listed(index, key, i) <==> key in Names(rules[i])))
  }

  predicate Listed(index: map<string, seq<nat>>, key: string, i: nat) {
    key in index && i in index[key]
  }

  /** The keys of a rule come in any order. */
  method Collect(rules: seq<Rule>) returns (index: map<string, seq<nat>>)
    ensures IndexOk(rules, |rules|, index)
  {
    index := map[];
    for i := 0 to |rules|
      invariant IndexOk(rules, i, index)
    {
      index := IndexRule(rules, i, index);
    }
  }

  method IndexRule(rules: seq<Rule>, i: nat, before: map<string, seq<nat>>) returns (index: map<string, seq<nat>>)
    requires i < |rules| && IndexOk(rules, i, before)
    ensures IndexOk(rules, i + 1, index)
  {
    hide Listed;
    index := before;
    NoneListed(rules, i, before);
    var left := rules[i].pos;
    ghost var done := {};
    while left != {}
      invariant left <= rules[i].pos && done == set k | k in rules[i].pos - left && Named(k) :: Bridge(k)
      invariant forall key :: key in index ==> forall n :: 0 <= n < |index[key]| ==> index[key][n] <= i
      invariant forall key, j {:trigger Listed(index, key, j)} :: 0 <= j < i ==>
                  (Listed(index, key, j) <==> Listed(before, key, j))
      invariant forall key {:trigger Listed(index, key, i)} :: Listed(index, key, i) <==> key in done
      decreases left
    {
      var k :| k in left;
      left := left - {k};
      if Named(k) {
        var key := Bridge(k);
        var held := if key in index then index[key] else [];
        var next := index[key := held + [i]];
        ListAppended(index, key, i, next);
        index := next;
        done := done + {key};
      }
    }
    assert done == Names(rules[i]);
  }

  lemma {:induction false} ListAppend(index: map<string, seq<nat>>, key: string, i: nat, key': string, j: nat)
    ensures var held := if key in index then index[key] else [];
      Listed(index[key := held + [i]], key', j) <==> Listed(index, key', j) || (key' == key && j == i)
  {
    var held := if key in index then index[key] else [];
    assert j in held + [i] <==> j in held || j == i;
  }

  lemma {:induction false} ListAppended(index: map<string, seq<nat>>, key: string, i: nat, next: map<string, seq<nat>>)
    requires next == index[key := (if key in index then index[key] else []) + [i]]
    ensures forall key', j {:trigger Listed(next, key', j)} ::
      Listed(next, key', j) <==> Listed(index, key', j) || (key' == key && j == i)
  {
    hide Listed;
    forall key', j {:trigger Listed(next, key', j)}
      ensures Listed(next, key', j) <==> Listed(index, key', j) || (key' == key && j == i)
    {
      ListAppend(index, key, i, key', j);
    }
  }

  lemma {:induction false} NoneListed(rules: seq<Rule>, i: nat, index: map<string, seq<nat>>)
    requires i < |rules| && IndexOk(rules, i, index)
    ensures forall key :: !Listed(index, key, i)
  {
  }

  // ------------------------------------------------------------------------------ pairs

  datatype Pair = Pair(first: nat, second: nat, shared: set<string>)

  predicate PairOk(rules: seq<Rule>, loose: bool, p: Pair) {
    && p.first < p.second < |rules| && Collide(rules[p.first], rules[p.second], loose)
    && p.shared == rules[p.first].props * rules[p.second].props
  }

  /** The unordered pairs that were put out. */
  predicate Recorded(out: seq<Pair>, emitted: set<set<nat>>) {
    && (forall n :: 0 <= n < |out| ==> {out[n].first, out[n].second} in emitted)
    && (forall e :: e in emitted ==> exists n :: 0 <= n < |out| && e == {out[n].first, out[n].second})
  }

  /** No pair twice, and the first rules in order. */
  predicate Rising(out: seq<Pair>) {
    forall m, n :: 0 <= m < n < |out| ==>
      out[m].first <= out[n].first && (out[m].first, out[m].second) != (out[n].first, out[n].second)
  }

  predicate Has(out: seq<Pair>, x: nat, y: nat) {
    exists n :: 0 <= n < |out| && out[n].first == x && out[n].second == y
  }

  /** All the pairs of the rules in front of `i`, and of rule `i` those with the rules seen. */
  predicate Complete(rules: seq<Rule>, loose: bool, out: seq<Pair>, i: nat, seen: set<nat>) {
    forall x, y :: 0 <= x < y < |rules| && (x < i || (x == i && y in seen)) && Collide(rules[x], rules[y], loose) ==>
                     Has(out, x, y)
  }

  predicate Sound(rules: seq<Rule>, loose: bool, out: seq<Pair>, i: nat) {
    forall n :: 0 <= n < |out| ==> PairOk(rules, loose, out[n]) && out[n].first < i
  }

  ghost predicate Found(rules: seq<Rule>, loose: bool, out: seq<Pair>, emitted: set<set<nat>>, i: nat, seen: set<nat>) {
    Sound(rules, loose, out, i + 1) && Recorded(out, emitted) && Rising(out) && Complete(rules, loose, out, i, seen)
  }

  /** Rule `i` against one more rule of the index. */
  method Against(rules: seq<Rule>, loose: bool, i: nat, j: nat, out: seq<Pair>, emitted: set<set<nat>>,
                 ghost seen: set<nat>)
    returns (out': seq<Pair>, emitted': set<set<nat>>)
    requires i < |rules| && j < |rules| && Found(rules, loose, out, emitted, i, seen)
    ensures Found(rules, loose, out', emitted', i, seen + {j})
  {
    hide CanMatchSameElement, Sound, Recorded, Rising, Complete;
    out', emitted' := out, emitted;
    var a, b := rules[i], rules[j];
    if i == j || b.props == {} {
      assert a.props * {} == {};
      NoPair(rules, loose, i, j, out, seen);
      return;
    }
    if {i, j} in emitted {
      KnownPair(rules, loose, i, j, out, emitted, seen);
      return;
    }
    var shared := a.props * b.props;
    if shared == {} || !CanMatchSameElement(a, b, loose) {
      NoPair(rules, loose, i, j, out, seen);
      return;
    }
    NewPair(rules, loose, i, j, out, emitted, seen);
    emitted' := emitted + {{i, j}};
    out' := out + [Pair(i, j, shared)];
  }

  lemma {:induction false} NoPair(rules: seq<Rule>, loose: bool, i: nat, j: nat, out: seq<Pair>, seen: set<nat>)
    requires i < |rules| && j < |rules| && (i == j || !Collide(rules[i], rules[j], loose))
    requires Complete(rules, loose, out, i, seen)
    ensures Complete(rules, loose, out, i, seen + {j})
  {
    hide Collide, Has;
  }

  lemma {:induction false} KnownPair(rules: seq<Rule>, loose: bool, i: nat, j: nat, out: seq<Pair>,
                                     emitted: set<set<nat>>, seen: set<nat>)
    requires i < |rules| && j < |rules| && i != j && {i, j} in emitted && Recorded(out, emitted)
    requires Complete(rules, loose, out, i, seen) && Sound(rules, loose, out, i + 1)
    ensures Complete(rules, loose, out, i, seen + {j})
  {
    hide Collide;
    var n :| 0 <= n < |out| && {i, j} == {out[n].first, out[n].second};
    SamePair(i, j, out[n].first, out[n].second);
    assert PairOk(rules, loose, out[n]);
    assert i < j ==> Has(out, i, j);
  }

  lemma {:induction false} SamePair(i: nat, j: nat, x: nat, y: nat)
    requires {i, j} == {x, y}
    ensures (i == x && j == y) || (i == y && j == x)
  {
    assert i in {x, y} && j in {x, y} && x in {i, j} && y in {i, j};
  }

  /** A pair that was not put out yet is one of a later rule: the earlier ones were found in their turn. */
  lemma {:induction false} NewPair(rules: seq<Rule>, loose: bool, i: nat, j: nat, out: seq<Pair>,
                                   emitted: set<set<nat>>, seen: set<nat>)
    requires i < |rules| && j < |rules| && i != j && {i, j} !in emitted && Collide(rules[i], rules[j], loose)
    requires Found(rules, loose, out, emitted, i, seen)
    ensures Found(rules, loose, out + [Pair(i, j, rules[i].props * rules[j].props)], emitted + {{i, j}}, i, seen + {j})
  {
    hide Collide;
    CollideSymmetric(rules[i], rules[j], loose);
    if j < i {
      NotRecorded(out, emitted, j, i);
      assert false;
    }
    NotRecorded(out, emitted, i, j);
    var more := out + [Pair(i, j, rules[i].props * rules[j].props)];
    MoreHas(out, more[|out|]);
    MoreRecorded(out, emitted, more[|out|]);
  }

  lemma {:induction false} NotRecorded(out: seq<Pair>, emitted: set<set<nat>>, x: nat, y: nat)
    requires Recorded(out, emitted) && ({x, y} !in emitted || {y, x} !in emitted)
    ensures !Has(out, x, y)
  {
    assert {x, y} == {y, x};
  }

  lemma {:induction false} MoreHas(out: seq<Pair>, p: Pair)
    ensures forall x, y :: Has(out, x, y) ==> Has(out + [p], x, y)
    ensures Has(out + [p], p.first, p.second)
  {
    forall x, y | Has(out, x, y) ensures Has(out + [p], x, y) {
      var n :| 0 <= n < |out| && out[n].first == x && out[n].second == y;
      assert (out + [p])[n] == out[n];
    }
    assert (out + [p])[|out|] == p;
  }

  lemma {:induction false} MoreRecorded(out: seq<Pair>, emitted: set<set<nat>>, p: Pair)
    requires Recorded(out, emitted)
    ensures Recorded(out + [p], emitted + {{p.first, p.second}})
  {
    var more := out + [p];
    forall e | e in emitted + {{p.first, p.second}}
      ensures exists n :: 0 <= n < |more| && e == {more[n].first, more[n].second}
    {
      if e in emitted {
        var n :| 0 <= n < |out| && e == {out[n].first, out[n].second};
        assert more[n] == out[n];
      } else {
        assert more[|out|] == p;
      }
    }
  }

  /** The rules that share one of some names with rule `i`. */
  ghost predicate SeenAll(rules: seq<Rule>, keys: set<string>, seen: set<nat>) {
    forall j :: 0 <= j < |rules| && Names(rules[j]) * keys != {} ==> j in seen
  }

  /** Rule `i` against everything the index holds under one of its names. */
  method Under(rules: seq<Rule>, index: map<string, seq<nat>>, loose: bool, i: nat, key: string, out: seq<Pair>,
               emitted: set<set<nat>>, ghost seen: set<nat>, ghost keys: set<string>)
    returns (out': seq<Pair>, emitted': set<set<nat>>, ghost seen': set<nat>)
    requires i < |rules| && IndexOk(rules, |rules|, index)
    requires Found(rules, loose, out, emitted, i, seen) && SeenAll(rules, keys, seen)
    ensures Found(rules, loose, out', emitted', i, seen') && SeenAll(rules, keys + {key}, seen')
  {
    hide Found, Names;
    out', emitted', seen' := out, emitted, seen;
    var list := if key in index then index[key] else [];
    for n := 0 to |list|
      invariant Found(rules, loose, out', emitted', i, seen') && seen <= seen'
      invariant forall m :: 0 <= m < n ==> list[m] in seen'
    {
      out', emitted' := Against(rules, loose, i, list[n], out', emitted', seen');
      seen' := seen' + {list[n]};
    }
    forall j | 0 <= j < |rules| && Names(rules[j]) * (keys + {key}) != {} ensures j in seen' {
      var name :| name in Names(rules[j]) * (keys + {key});
      if name in keys {
        assert name in Names(rules[j]) * keys;
      } else {
        assert Listed(index, key, j);
      }
    }
  }

  /** Every competing pair, each once, the earlier rule first: what comparing all rules with all would find. */
  ghost predicate AllPairs(rules: seq<Rule>, loose: bool, out: seq<Pair>) {
    && (forall n :: 0 <= n < |out| ==> PairOk(rules, loose, out[n]))
    && (forall x, y :: 0 <= x < y < |rules| && Collide(rules[x], rules[y], loose) ==> Has(out, x, y))
    && Rising(out)
  }

  /** Two rules are paired exactly when they compete, in one pair only, which tells what both set. */
  lemma {:induction false} PairsAre(rules: seq<Rule>, loose: bool, out: seq<Pair>, x: nat, y: nat)
    requires AllPairs(rules, loose, out)
    ensures (exists n :: 0 <= n < |out| && out[n].first == x && out[n].second == y) <==>
      x < y < |rules| && Collide(rules[x], rules[y], loose)
    ensures forall m, n :: 0 <= m < n < |out| ==>
      !(out[m].first == out[n].first == x && out[m].second == out[n].second == y)
    ensures forall n, prop :: 0 <= n < |out| && out[n].first == x && out[n].second == y ==>
      (prop in out[n].shared <==> prop in rules[x].props && prop in rules[y].props)
  {
    hide Collide;
  }

  method CollidingPairs(rules: seq<Rule>, index: map<string, seq<nat>>, loose: bool) returns (out: seq<Pair>)
    requires IndexOk(rules, |rules|, index)
    ensures AllPairs(rules, loose, out)
  {
    out := [];
    var emitted := {};
    for i := 0 to |rules|
      invariant Sound(rules, loose, out, i) && Recorded(out, emitted) && Rising(out)
      invariant Complete(rules, loose, out, i, {})
    {
      out, emitted := OfRule(rules, index, loose, i, out, emitted);
    }
  }

  method OfRule(rules: seq<Rule>, index: map<string, seq<nat>>, loose: bool, i: nat, out: seq<Pair>,
                emitted: set<set<nat>>)
    returns (out': seq<Pair>, emitted': set<set<nat>>)
    requires i < |rules| && IndexOk(rules, |rules|, index)
    requires Sound(rules, loose, out, i) && Recorded(out, emitted) && Rising(out) && Complete(rules, loose, out, i, {})
    ensures Sound(rules, loose, out', i + 1) && Recorded(out', emitted') && Rising(out')
    ensures Complete(rules, loose, out', i + 1, {})
  {
    hide Recorded, Rising, PairOk, Names, Has, CanMatchSameElement, Collide;
    out', emitted' := out, emitted;
    var a := rules[i];
    if a.props == {} {
      NothingShared(rules, loose, i);
      return;
    }
    var left := a.pos;
    ghost var seen, keys := {}, {};
    while left != {}
      invariant left <= a.pos && (forall k :: k in a.pos - left && Named(k) ==> Bridge(k) in keys)
      invariant Found(rules, loose, out', emitted', i, seen) && SeenAll(rules, keys, seen)
      decreases left
    {
      var k :| k in left;
      left := left - {k};
      if Named(k) {
        out', emitted', seen := Under(rules, index, loose, i, Bridge(k), out', emitted', seen, keys);
        keys := keys + {Bridge(k)};
      }
    }
    NamesAmong(a, keys);
    CompleteNext(rules, loose, out', i, seen, keys);
  }

  lemma {:induction false} NamesAmong(a: Rule, keys: set<string>)
    requires forall k :: k in a.pos && Named(k) ==> Bridge(k) in keys
    ensures Names(a) <= keys
  {
  }

  lemma {:induction false} NothingShared(rules: seq<Rule>, loose: bool, i: nat)
    requires i < |rules| && rules[i].props == {}
    ensures forall j :: 0 <= j < |rules| ==> !Collide(rules[i], rules[j], loose)
  {
  }

  /** Two rules that compete share a name, so looking under all of a rule's names misses nothing. */
  lemma {:induction false} CompleteNext(rules: seq<Rule>, loose: bool, out: seq<Pair>, i: nat, seen: set<nat>,
                                        keys: set<string>)
    requires i < |rules| && Complete(rules, loose, out, i, seen)
    requires SeenAll(rules, keys, seen) && Names(rules[i]) <= keys
    ensures Complete(rules, loose, out, i + 1, {})
  {
    hide Has, Names;
    forall y | i < y < |rules| && Collide(rules[i], rules[y], loose) ensures y in seen {
      var name :| name in Names(rules[i]) * Names(rules[y]);
      assert name in Names(rules[y]) * keys;
    }
  }

  // ----------------------------------------------------------------------------- winners

  predicate SpecAbove(a: Spec, b: Spec) {
    a.ids > b.ids || (a.ids == b.ids && (a.classes > b.classes || (a.classes == b.classes && a.elements > b.elements)))
  }

  /** Above in the first part that differs: any number of classes weighs less than one id. */
  lemma {:induction false} SpecIsWeight(a: Spec, b: Spec, n: nat)
    requires a.classes < n && a.elements < n && b.classes < n && b.elements < n
    ensures SpecAbove(a, b) <==>
      (a.ids * n + a.classes) * n + a.elements > (b.ids * n + b.classes) * n + b.elements
  {
    var high, low := a.ids * n + a.classes, b.ids * n + b.classes;
    Weighs(a.ids, b.ids, a.classes, b.classes, n);
    Weighs(high, low, a.elements, b.elements, n);
  }

  lemma {:induction false} Weighs(high: nat, low: nat, x: nat, y: nat, n: nat)
    requires x < n && y < n
    ensures high * n + x > low * n + y <==> high > low || (high == low && x > y)
    ensures high * n + x == low * n + y <==> high == low && x == y
  {
    if high > low {
      Outweighs(high, low, n);
    } else if high < low {
      Outweighs(low, high, n);
    }
  }

  lemma {:induction false} Outweighs(high: nat, low: nat, n: nat)
    requires high > low
    ensures high * n >= low * n + n
  {
    var d := high - low;
    assert high * n == low * n + d * n;
    assert d * n == n + (d - 1) * n;
  }

  datatype Winner = A | B

  function Wins(a: Rule, b: Rule, aLayer: nat, bLayer: nat): Winner {
    if aLayer != bLayer then if aLayer > bLayer then A else B
    else if a.spec != b.spec then if SpecAbove(a.spec, b.spec) then A else B
    else if a.order > b.order then A else B
  }

  /** The order of the cascade: layer, then specificity, then the later place in the bundle. */
  predicate Beats(rules: seq<Rule>, i: nat, j: nat)
    requires i < |rules| && j < |rules|
  {
    var a, b := rules[i], rules[j];
    a.layer > b.layer || (a.layer == b.layer && (SpecAbove(a.spec, b.spec) || (a.spec == b.spec && i > j)))
  }

  /** Stylesheets follow one another in the bundle. */
  predicate Bundled(rules: seq<Rule>) {
    forall i, j :: 0 <= i < j < |rules| ==> rules[i].order <= rules[j].order
  }

  /** Asked with the earlier rule first, as the pairs are given, the answer is the cascade's. */
  lemma {:induction false} WinsIsCascade(rules: seq<Rule>, i: nat, j: nat)
    requires Bundled(rules) && i < j < |rules|
    ensures Wins(rules[i], rules[j], rules[i].layer, rules[j].layer) == if Beats(rules, i, j) then A else B
  {
  }

  /** Asked the other way round it is right exactly when the rules differ in layer, specificity or
      stylesheet: within a sheet a tie always goes to the second argument. */
  lemma {:induction false} WinsReversedIff(rules: seq<Rule>, i: nat, j: nat)
    requires Bundled(rules) && i < j < |rules|
    ensures (Wins(rules[j], rules[i], rules[j].layer, rules[i].layer) == if Beats(rules, j, i) then A else B)
      <==> rules[i].layer != rules[j].layer || rules[i].spec != rules[j].spec || rules[i].order != rules[j].order
  {
    assert rules[i].order <= rules[j].order;
  }

  /** A tie within one stylesheet, asked the other way round. */
  lemma {:induction false} TieInOneSheet()
    ensures var r := Rule(0, {".x"}, {}, "", "", {"color"}, Spec(0, 1, 0), UNLAYERED);
      Bundled([r, r]) && Beats([r, r], 1, 0) && Wins(r, r, r.layer, r.layer) == B
  {
  }

  /** What decides between two rules of one layer: specificity, then the later stylesheet. */
  predicate Higher(a: Rule, b: Rule) {
    SpecAbove(a.spec, b.spec) || (a.spec == b.spec && a.order > b.order)
  }

  /** A rule's layer once some stylesheets have left theirs. */
  function After(r: Rule, sheets: set<nat>): nat {
    if r.order in sheets then UNLAYERED else r.layer
  }

  /** When stylesheets leave their layers, the outcome of a pair changes exactly like this.  One leaves:
      against an unlayered rule, when it is higher; against a layered one, when its layer was below, or the
      same and it was not higher.  Both leave: when the layers and the rest disagreed. */
  lemma {:induction false} UnlayerFlipsIff(a: Rule, b: Rule, sheets: set<nat>)
    requires a.layer <= UNLAYERED && b.layer <= UNLAYERED
    ensures Wins(a, b, a.layer, b.layer) != Wins(a, b, After(a, sheets), After(b, sheets)) <==>
      if a.order in sheets && b.order in sheets then
        (a.layer > b.layer && !Higher(a, b)) || (a.layer < b.layer && Higher(a, b))
      else if a.order in sheets then
        if b.layer == UNLAYERED then a.layer < b.layer && Higher(a, b)
        else a.layer < b.layer || (a.layer == b.layer && !Higher(a, b))
      else if b.order in sheets then
        if a.layer == UNLAYERED then b.layer < a.layer && !Higher(a, b)
        else b.layer < a.layer || (b.layer == a.layer && Higher(a, b))
      else false
  {
  }

  /** Two rules of one selector that set one property compete. */
  lemma {:induction false} OneSelectorCollides(a: Rule, b: Rule, key: string, prop: string)
    requires a.pos == b.pos && a.neg == b.neg == {} && a.elem == b.elem && a.pseudo == b.pseudo
    requires key in a.pos && Named(key) && prop in a.props && prop in b.props
    ensures Collide(a, b, false)
  {
    assert Bridge(key) in Names(a) * Names(b);
    assert prop in a.props * b.props;
  }

  /** A pair against another layered sheet that does not flip: the sheet that leaves was above already. */
  lemma {:induction false} UnlayerCanKeep()
    ensures var a, b := Rule(0, {".x"}, {}, "", "", {"color"}, Spec(0, 1, 0), 5),
                        Rule(1, {".x"}, {}, "", "", {"color"}, Spec(0, 1, 0), 1);
      && Collide(a, b, false) && a.layer != b.layer && b.layer < UNLAYERED
      && Wins(a, b, a.layer, b.layer) == Wins(a, b, After(a, {0}), After(b, {0}))
  {
    hide Collide;
    var a := Rule(0, {".x"}, {}, "", "", {"color"}, Spec(0, 1, 0), 5);
    OneSelectorCollides(a, a.(order := 1, layer := 1), ".x", "color");
  }
}
