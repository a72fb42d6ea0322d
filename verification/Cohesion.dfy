/** Type cohesion: a type's methods grouped into the connected components of "calls a sibling or
    reaches a name in common", by union-find with path halving and lazy insertion. */
module Cohesion {

  /** One method: its name and every name it reaches through its receiver. */
  datatype Method = Method(name: string, reached: set<string>)

  // ------------------------------------------------------------------ connectedness

  /** `p` leads from `x` to `y`, each step along an edge in one direction or the other. */
  ghost predicate IsPath(edges: set<(string, string)>, p: seq<string>, x: string, y: string) {
    && p != [] && p[0] == x && p[|p| - 1] == y
    && forall k :: 0 <= k < |p| - 1 ==> Edge(edges, p[k], p[k + 1])
  }

  ghost predicate Edge(edges: set<(string, string)>, u: string, v: string) {
    (u, v) in edges || (v, u) in edges
  }

  ghost predicate Connected(edges: set<(string, string)>, x: string, y: string) {
    exists p :: IsPath(edges, p, x, y)
  }

  lemma {:induction false} ConnectedRefl(edges: set<(string, string)>, x: string)
    ensures Connected(edges, x, x)
  {
    assert IsPath(edges, [x], x, x);
  }

  lemma {:induction false} ConnectedEdge(edges: set<(string, string)>, x: string, y: string)
    requires Edge(edges, x, y)
    ensures Connected(edges, x, y)
  {
    assert IsPath(edges, [x, y], x, y);
  }

  lemma {:induction false} ConnectedTrans(edges: set<(string, string)>, x: string, y: string, z: string)
    requires Connected(edges, x, y) && Connected(edges, y, z)
    ensures Connected(edges, x, z)
  {
    var p :| IsPath(edges, p, x, y);
    var q :| IsPath(edges, q, y, z);
    var r := p + q[1..];
    forall k | 0 <= k < |r| - 1 ensures Edge(edges, r[k], r[k + 1]) {
      if k < |p| - 1 {
        assert Edge(edges, p[k], p[k + 1]);
      } else {
        assert r[k] == q[k - |p| + 1] && Edge(edges, q[k - |p| + 1], q[k - |p| + 2]);
      }
    }
    assert IsPath(edges, r, x, z);
  }

  lemma {:induction false} ConnectedSym(edges: set<(string, string)>, x: string, y: string)
    requires Connected(edges, x, y)
    ensures Connected(edges, y, x)
  {
    var p :| IsPath(edges, p, x, y);
    var q := seq(|p|, k requires 0 <= k < |p| => p[|p| - 1 - k]);
    forall k | 0 <= k < |q| - 1 ensures Edge(edges, q[k], q[k + 1]) {
      assert Edge(edges, p[|p| - 2 - k], p[|p| - 2 - k + 1]);
    }
    assert IsPath(edges, q, y, x);
  }

  // ----------------------------------------------------------------------- the forest

  type Links = map<string, string>
  type Depths = map<string, nat>

  /** What the forest keeps about one name: its link stays inside its set and goes down, and a name
      linked to itself is the root of its set. */
  ghost predicate NodeOk(parent: Links, root: Links, depth: Depths, x: string) {
    && x in parent && x in root && x in depth && root[x] in parent && root[x] in root && parent[root[x]] == root[x]
    && parent[x] in parent && parent[x] in root && parent[x] in depth && root[parent[x]] == root[x]
    && (parent[x] == x ==> root[x] == x)
    && (parent[x] != x ==> depth[parent[x]] < depth[x])
  }

  ghost predicate IsForest(parent: Links, root: Links, depth: Depths) {
    && root.Keys == parent.Keys && depth.Keys == parent.Keys
    && forall x {:trigger NodeOk(parent, root, depth, x)} :: x in parent ==> NodeOk(parent, root, depth, x)
  }

  /** The root of `x`, which for a name nobody has asked about is `x` itself. */
  ghost function RootOf(root: Links, x: string): string {
    if x in root then root[x] else x
  }

  /** Two names share a set. */
  ghost predicate Same(root: Links, x: string, y: string) {
    RootOf(root, x) == RootOf(root, y)
  }

  /** `x` and `y` share a set once the sets of `a` and `b` are merged. */
  ghost predicate Merged(root: Links, a: string, b: string, x: string, y: string) {
    Same(root, x, y) || (Same(root, x, a) && Same(root, y, b)) || (Same(root, x, b) && Same(root, y, a))
  }

  /** Linking a name to its grandparent keeps the forest, and every root. */
  lemma {:induction false} Halve(parent: Links, root: Links, depth: Depths, r: string)
    requires IsForest(parent, root, depth) && r in parent
    ensures NodeOk(parent, root, depth, r) && NodeOk(parent, root, depth, parent[r])
    ensures parent[r] in parent && IsForest(parent[r := parent[parent[r]]], root, depth)
  {
    assert NodeOk(parent, root, depth, r) && NodeOk(parent, root, depth, parent[r]);
    var next := parent[r := parent[parent[r]]];
    assert NodeOk(parent, root, depth, parent[parent[r]]);
    forall x | x in next ensures NodeOk(next, root, depth, x) {
      assert NodeOk(parent, root, depth, x);
      assert root[x] == r ==> next[r] == r;
    }
  }

  /** A new name starts as a set of its own. */
  lemma {:induction false} Plant(parent: Links, root: Links, depth: Depths, x: string)
    requires IsForest(parent, root, depth) && x !in parent
    ensures IsForest(parent[x := x], root[x := x], depth[x := 0])
  {
    var p, q, d := parent[x := x], root[x := x], depth[x := 0];
    forall y | y in p ensures NodeOk(p, q, d, y) {
      assert y != x ==> NodeOk(parent, root, depth, y);
    }
  }

  ghost function Regraft(root: Links, ra: string, rb: string): Links {
    map x | x in root :: if root[x] == ra then rb else root[x]
  }

  ghost function Deepen(root: Links, depth: Depths, ra: string, more: nat): Depths
    requires depth.Keys == root.Keys
  {
    map x | x in depth :: if root[x] == ra then depth[x] + more else depth[x]
  }

  /** Linking one root under another merges the two sets. */
  lemma {:induction false} Graft(parent: Links, root: Links, depth: Depths, ra: string, rb: string)
    requires IsForest(parent, root, depth) && ra in parent && rb in parent && ra != rb
    requires parent[ra] == ra && parent[rb] == rb
    ensures rb in depth && IsForest(parent[ra := rb], Regraft(root, ra, rb), Deepen(root, depth, ra, depth[rb] + 1))
  {
    assert NodeOk(parent, root, depth, ra) && NodeOk(parent, root, depth, rb);
    var p, q, d := parent[ra := rb], Regraft(root, ra, rb), Deepen(root, depth, ra, depth[rb] + 1);
    forall x | x in p ensures NodeOk(p, q, d, x) {
      assert NodeOk(parent, root, depth, x);
    }
  }

  ghost predicate Closed(root: Links) {
    forall x {:trigger RootOf(root, x)} :: x in root ==> RootOf(root, x) in root
  }

  lemma {:induction false} RootsAreNodes(parent: Links, root: Links, depth: Depths)
    requires IsForest(parent, root, depth)
    ensures Closed(root)
  {
    forall x | x in root ensures RootOf(root, x) in root {
      assert NodeOk(parent, root, depth, x);
    }
  }

  /** The roots once the set of root `ra` has gone under `rb`. */
  ghost function Relinked(root: Links, ra: string, rb: string): Links {
    if ra == rb then root else Regraft(root, ra, rb)
  }

  lemma {:induction false} RelinkedRoot(root: Links, ra: string, rb: string, x: string)
    requires ra in root
    requires Closed(root)
    ensures RootOf(Relinked(root, ra, rb), x) == if RootOf(root, x) == ra then rb else RootOf(root, x)
  {
  }

  lemma {:induction false} MergedAfter(was: Links, root: Links, a: string, b: string)
    requires a in root && b in root && Closed(root)
    requires forall x :: RootOf(root, x) == RootOf(was, x)
    ensures forall x, y :: Same(Relinked(root, root[a], root[b]), x, y) <==> Merged(was, a, b, x, y)
  {
    assert RootOf(root, a) in root;
    forall x, y ensures Same(Relinked(root, root[a], root[b]), x, y) <==> Merged(was, a, b, x, y) {
      RelinkedRoot(root, root[a], root[b], x);
      RelinkedRoot(root, root[a], root[b], y);
      assert RootOf(root, a) == RootOf(was, a) && RootOf(root, b) == RootOf(was, b);
      assert RootOf(root, x) == RootOf(was, x) && RootOf(root, y) == RootOf(was, y);
    }
  }

  /** Disjoint sets of names, as a forest of parent links. */
  class Forest {
    var parent: Links
    /** The name every member of a set is found under. */
    ghost var root: Links
    /** A bound on how far a name is from its root. */
    ghost var depth: Depths

    ghost predicate Valid()
      reads this
    {
      IsForest(parent, root, depth)
    }

    constructor ()
      ensures Valid() && parent == map[] && root == map[]
    {
      parent, root, depth := map[], map[], map[];
    }

    /** The representative of `x`, which joins the forest as a set of its own when it is new.  Every
        link followed on the way is redirected to the grandparent; no set changes. */
    method Find(x: string) returns (r: string)
      requires Valid()
      modifies this
      ensures Valid() && x in root && r == root[x] && r in parent && parent[r] == r
      ensures root.Keys == old(root).Keys + {x} && forall y :: RootOf(root, y) == RootOf(old(root), y)
    {
      if x !in parent {
        Plant(parent, root, depth, x);
        parent, root, depth := parent[x := x], root[x := x], depth[x := 0];
      }
      r := x;
      ghost var planted := root;
      assert NodeOk(parent, root, depth, x);
      while parent[r] != r
        invariant Valid() && r in parent && r in root && x in root && root[r] == root[x] && r in depth
        invariant root == planted
        decreases depth[r]
      {
        Halve(parent, root, depth, r);
        parent := parent[r := parent[parent[r]]];
        r := parent[r];
      }
      assert NodeOk(parent, root, depth, r);
    }

    /** Put one root under another. */
    method Link(ra: string, rb: string)
      requires Valid() && ra in parent && rb in parent && parent[ra] == ra && parent[rb] == rb
      modifies this
      ensures Valid() && root == Relinked(old(root), ra, rb)
    {
      if ra != rb {
        Graft(parent, root, depth, ra, rb);
        parent, root, depth := parent[ra := rb], Regraft(root, ra, rb), Deepen(root, depth, ra, depth[rb] + 1);
      }
    }

    /** Merge the sets of `a` and `b`. */
    method Union(a: string, b: string)
      requires Valid()
      modifies this
      ensures Valid() && root.Keys == old(root).Keys + {a, b}
      ensures forall x, y :: Same(root, x, y) <==> Merged(old(root), a, b, x, y)
    {
      var ra := Find(a);
      ghost var between := root;
      var rb := Find(b);
      assert forall y :: RootOf(root, y) == RootOf(between, y);
      RootsAreNodes(parent, root, depth);
      assert RootOf(between, a) == ra && RootOf(root, a) == ra;
      assert NodeOk(parent, root, depth, a);
      MergedAfter(old(root), root, a, b);
      Link(ra, rb);
    }
  }

  // ------------------------------------------------------------------- the components

  function Names(methods: seq<Method>): set<string> {
    set k | 0 <= k < |methods| :: methods[k].name
  }

  /** `u` calls its sibling `v`, or both reach a name that is no method's. */
  ghost predicate Linked(methods: seq<Method>, u: string, v: string) {
    || (exists k :: 0 <= k < |methods| && methods[k].name == u && v in methods[k].reached && v in Names(methods))
    || (exists k, l, r :: 0 <= k < |methods| && 0 <= l < |methods| && methods[k].name == u && methods[l].name == v
          && r in methods[k].reached && r in methods[l].reached && r !in Names(methods))
  }

  ghost function Edges(methods: seq<Method>): set<(string, string)> {
    set u, v | u in Names(methods) && v in Names(methods) && Linked(methods, u, v) :: (u, v)
  }

  /** One method calls the other, or both reach a name that no method of the type has. */
  ghost predicate Touch(methods: seq<Method>, caller: Method, other: Method) {
    || other.name in caller.reached
    || (exists r :: r in caller.reached && r in other.reached && forall m :: m in methods ==> m.name != r)
  }

  /** Names are joined directly when methods of those names touch, whatever else the two do or do not
      reach. */
  lemma {:induction false} EdgeIff(methods: seq<Method>, u: string, v: string)
    ensures (u, v) in Edges(methods) <==>
      exists a, b :: a in methods && b in methods && a.name == u && b.name == v && Touch(methods, a, b)
  {
    NamesAre(methods);
    if (u, v) in Edges(methods) {
      if k :| 0 <= k < |methods| && methods[k].name == u && v in methods[k].reached && v in Names(methods) {
        var b :| b in methods && b.name == v;
        assert Touch(methods, methods[k], b);
      } else {
        var k, l, r :| 0 <= k < |methods| && 0 <= l < |methods| && methods[k].name == u && methods[l].name == v
          && r in methods[k].reached && r in methods[l].reached && r !in Names(methods);
        assert Touch(methods, methods[k], methods[l]);
      }
    }
    if a, b :| a in methods && b in methods && a.name == u && b.name == v && Touch(methods, a, b) {
      if v !in a.reached {
        var r :| r in a.reached && r in b.reached && forall m :: m in methods ==> m.name != r;
        var k, l :| 0 <= k < |methods| && 0 <= l < |methods| && methods[k] == a && methods[l] == b;
        assert r !in Names(methods);
      }
      assert Linked(methods, u, v);
    }
  }

  lemma {:induction false} NamesAre(methods: seq<Method>)
    ensures forall x :: x in Names(methods) <==> exists m :: m in methods && m.name == x
  {
    forall m | m in methods ensures m.name in Names(methods) {
      var k :| 0 <= k < |methods| && methods[k] == m;
    }
  }

  predicate NonEmpty(groups: seq<seq<string>>) {
    forall k :: 0 <= k < |groups| ==> groups[k] != []
  }

  /** A name added to the first group it is connected to, or to a group of its own. */
  ghost function Place(groups: seq<seq<string>>, edges: set<(string, string)>, name: string): (r: seq<seq<string>>)
    requires NonEmpty(groups)
    ensures NonEmpty(r)
  {
    if groups == [] then [[name]]
    else if Connected(edges, groups[0][0], name) then [groups[0] + [name]] + groups[1..]
    else [groups[0]] + Place(groups[1..], edges, name)
  }

  /** Names grouped by connectedness, in order of first appearance. */
  ghost function Classes(edges: set<(string, string)>, names: seq<string>): (groups: seq<seq<string>>)
    ensures NonEmpty(groups)
  {
    if names == [] then []
    else Place(Classes(edges, names[..|names| - 1]), edges, names[|names| - 1])
  }

  /** The names of the first `n` methods. */
  function NameList(methods: seq<Method>, n: nat): seq<string>
    requires n <= |methods|
  {
    if n == 0 then [] else NameList(methods, n - 1) + [methods[n - 1].name]
  }

  /** A type's components, largest first. */
  ghost function ComponentsOf(methods: seq<Method>): seq<seq<string>> {
    SortByLen(Classes(Edges(methods), NameList(methods, |methods|)))
  }

  /** `g` into a list sorted by falling length, behind every group at least as long. */
  function InsertByLen(g: seq<string>, sorted: seq<seq<string>>): seq<seq<string>> {
    if sorted == [] || |sorted[0]| < |g| then [g] + sorted
    else [sorted[0]] + InsertByLen(g, sorted[1..])
  }

  /** `sorted(groups, key=len, reverse=True)`: longest first, equals in their old order. */
  function SortByLen(groups: seq<seq<string>>): seq<seq<string>> {
    if groups == [] then [] else InsertByLen(groups[|groups| - 1], SortByLen(groups[..|groups| - 1]))
  }

  /** Everything joined so far is connected. */
  ghost predicate Sound(root: Links, edges: set<(string, string)>) {
    forall x, y :: Same(root, x, y) ==> Connected(edges, x, y)
  }

  ghost predicate Coarser(was: Links, root: Links) {
    forall x, y :: Same(was, x, y) ==> Same(root, x, y)
  }

  lemma {:induction false} MergeIsSound(was: Links, root: Links, a: string, b: string, edges: set<(string, string)>)
    requires Sound(was, edges) && Edge(edges, a, b)
    requires forall x, y :: Same(root, x, y) <==> Merged(was, a, b, x, y)
    ensures Sound(root, edges) && Coarser(was, root) && Same(root, a, b)
  {
    assert Same(was, a, a) && Same(was, b, b);
    ConnectedEdge(edges, a, b);
    ConnectedSym(edges, a, b);
    forall x, y | Same(root, x, y) ensures Connected(edges, x, y) {
      if Same(was, x, y) {
      } else if Same(was, x, a) && Same(was, y, b) {
        MergeTrans(was, edges, x, a, b, y);
      } else {
        MergeTrans(was, edges, x, b, a, y);
      }
    }
  }

  lemma {:induction false} MergeTrans(was: Links, edges: set<(string, string)>, x: string, a: string, b: string,
                                      y: string)
    requires Sound(was, edges) && Same(was, x, a) && Same(was, y, b) && Connected(edges, a, b)
    ensures Connected(edges, x, y)
  {
    assert Same(was, b, y);
    ConnectedTrans(edges, x, a, b);
    ConnectedTrans(edges, x, b, y);
  }

  /** Once both ends of every edge share a set, the sets are the components. */
  lemma {:induction false} Complete(root: Links, edges: set<(string, string)>, x: string, y: string)
    requires Sound(root, edges) && forall u, v :: (u, v) in edges ==> Same(root, u, v)
    ensures Same(root, x, y) <==> Connected(edges, x, y)
  {
    if Connected(edges, x, y) {
      var p :| IsPath(edges, p, x, y);
      PathStaysInSet(root, edges, p, x, y);
    }
  }

  lemma {:induction false} PathStaysInSet(root: Links, edges: set<(string, string)>, p: seq<string>, x: string,
                                          y: string)
    requires IsPath(edges, p, x, y) && forall u, v :: (u, v) in edges ==> Same(root, u, v)
    ensures Same(root, x, y)
    decreases |p|
  {
    if |p| > 1 {
      assert Edge(edges, p[0], p[1]);
      forall k | 0 <= k < |p[1..]| - 1 ensures Edge(edges, p[1..][k], p[1..][k + 1]) {
        assert Edge(edges, p[k + 1], p[k + 2]);
      }
      PathStaysInSet(root, edges, p[1..], p[1], y);
    }
  }

  /** The methods among the first `n` that reach `r`, by name and in order. */
  function Users(methods: seq<Method>, n: nat, r: string): seq<string>
    requires n <= |methods|
  {
    if n == 0 then []
    else Users(methods, n - 1, r) + (if r in methods[n - 1].reached then [methods[n - 1].name] else [])
  }

  lemma {:induction false} UserReaches(methods: seq<Method>, n: nat, r: string, k: nat)
    requires n <= |methods| && k < |Users(methods, n, r)|
    ensures exists i :: 0 <= i < n && methods[i].name == Users(methods, n, r)[k] && r in methods[i].reached
  {
    if k < |Users(methods, n - 1, r)| {
      UserReaches(methods, n - 1, r, k);
    }
  }

  lemma {:induction false} ReacherIsUser(methods: seq<Method>, n: nat, r: string, i: nat)
    requires i < n <= |methods| && r in methods[i].reached
    ensures methods[i].name in Users(methods, n, r)
  {
    if i < n - 1 {
      ReacherIsUser(methods, n - 1, r, i);
    }
  }

  /** Two users of a name that is no method's are linked. */
  lemma {:induction false} UsersLinked(methods: seq<Method>, r: string, k: nat, l: nat)
    requires r !in Names(methods)
    requires k < |Users(methods, |methods|, r)| && l < |Users(methods, |methods|, r)|
    ensures Edge(Edges(methods), Users(methods, |methods|, r)[k], Users(methods, |methods|, r)[l])
  {
    UserReaches(methods, |methods|, r, k);
    UserReaches(methods, |methods|, r, l);
    var names := Users(methods, |methods|, r);
    var i :| 0 <= i < |methods| && methods[i].name == names[k] && r in methods[i].reached;
    var j :| 0 <= j < |methods| && methods[j].name == names[l] && r in methods[j].reached;
    assert Linked(methods, names[k], names[l]);
  }

  lemma {:induction false} CallLinked(methods: seq<Method>, i: nat, r: string)
    requires i < |methods| && r in methods[i].reached && r in Names(methods)
    ensures Edge(Edges(methods), methods[i].name, r)
  {
    assert Linked(methods, methods[i].name, r);
  }

  /** The index built from the first `n` methods, and from the names `done` of the next. */
  ghost predicate Indexed(byField: map<string, seq<string>>, methods: seq<Method>, n: nat, done: set<string>)
    requires n <= |methods| && (done != {} ==> n < |methods|)
  {
    && (forall r :: r !in Names(methods) ==>
          (if r in byField then byField[r] else []) == Users(methods, if r in done then n + 1 else n, r))
    && (forall r :: r in byField ==> r !in Names(methods) && byField[r] != [])
  }

  ghost predicate Called(root: Links, methods: seq<Method>, i: nat, r: string)
    requires i < |methods|
  {
    r in methods[i].reached && r in Names(methods) ==> Same(root, methods[i].name, r)
  }

  /** The calls of the first `n` methods, and to the names `done` of the next, have been joined. */
  ghost predicate CallsJoined(root: Links, methods: seq<Method>, n: nat, done: set<string>)
    requires n <= |methods| && (done != {} ==> n < |methods|)
  {
    && (forall i, r :: 0 <= i < n ==> Called(root, methods, i, r))
    && (forall r :: r in done ==> Called(root, methods, n, r))
  }

  lemma {:induction false} CallsKept(was: Links, root: Links, methods: seq<Method>, n: nat, done: set<string>)
    requires n <= |methods| && (done != {} ==> n < |methods|)
    requires CallsJoined(was, methods, n, done) && Coarser(was, root)
    ensures CallsJoined(root, methods, n, done)
  {
    forall i, r | 0 <= i < n ensures Called(root, methods, i, r) {
      assert Called(was, methods, i, r);
    }
    forall r | r in done ensures Called(root, methods, n, r) {
      assert Called(was, methods, n, r);
    }
  }

  /** One name that method `i` reaches: a sibling to join, or a field to index it under. */
  method ReachOne(forest: Forest, methods: seq<Method>, i: nat, r: string, byField: map<string, seq<string>>,
                  ghost done: set<string>)
    returns (more: map<string, seq<string>>)
    requires i < |methods| && r in methods[i].reached && done < methods[i].reached && r !in done
    requires forest.Valid() && Sound(forest.root, Edges(methods))
    requires Indexed(byField, methods, i, done) && CallsJoined(forest.root, methods, i, done)
    modifies forest
    ensures forest.Valid() && Sound(forest.root, Edges(methods))
    ensures Indexed(more, methods, i, done + {r}) && CallsJoined(forest.root, methods, i, done + {r})
  {
    more := byField;
    ghost var was := forest.root;
    if r in Names(methods) {
      CallLinked(methods, i, r);
      forest.Union(methods[i].name, r);
      MergeIsSound(was, forest.root, methods[i].name, r, Edges(methods));
      CallsKept(was, forest.root, methods, i, done);
    } else {
      more := more[r := (if r in more then more[r] else []) + [methods[i].name]];
    }
    IndexOne(byField, methods, i, done, r);
  }

  lemma {:induction false} IndexOne(byField: map<string, seq<string>>, methods: seq<Method>, i: nat,
                                    done: set<string>, r: string)
    requires i < |methods| && r in methods[i].reached && r !in done && Indexed(byField, methods, i, done)
    ensures Indexed(if r in Names(methods) then byField
                    else byField[r := (if r in byField then byField[r] else []) + [methods[i].name]],
                    methods, i, done + {r})
  {
    hide Users, Names;
    UserNext(methods, i, r);
    var more := if r in Names(methods) then byField
                else byField[r := (if r in byField then byField[r] else []) + [methods[i].name]];
    forall x | x !in Names(methods)
      ensures (if x in more then more[x] else []) == Users(methods, if x in done + {r} then i + 1 else i, x)
    {
      assert x != r ==> (x in more <==> x in byField) && (x in done + {r} <==> x in done);
    }
  }

  lemma {:induction false} UserNext(methods: seq<Method>, i: nat, r: string)
    requires i < |methods| && r in methods[i].reached
    ensures Users(methods, i + 1, r) == Users(methods, i, r) + [methods[i].name]
  {
  }

  /** The names method `i` reaches, each a call to join or a use to index; in whatever order the set gives them. */
  method Reach(forest: Forest, methods: seq<Method>, i: nat, byField: map<string, seq<string>>)
    returns (more: map<string, seq<string>>)
    requires i < |methods| && forest.Valid() && Sound(forest.root, Edges(methods))
    requires Indexed(byField, methods, i, {}) && CallsJoined(forest.root, methods, i, {})
    modifies forest
    ensures forest.Valid() && Sound(forest.root, Edges(methods))
    ensures Indexed(more, methods, i + 1, {}) && CallsJoined(forest.root, methods, i + 1, {})
  {
    ghost var before := forest.root;
    var _ := forest.Find(methods[i].name);
    RootsKept(before, forest.root, Edges(methods));
    CallsKept(before, forest.root, methods, i, {});
    more := byField;
    var rest := methods[i].reached;
    while rest != {}
      invariant rest <= methods[i].reached
      invariant forest.Valid() && Sound(forest.root, Edges(methods))
      invariant Indexed(more, methods, i, methods[i].reached - rest)
      invariant CallsJoined(forest.root, methods, i, methods[i].reached - rest)
      decreases |rest|
    {
      var r :| r in rest;
      assert methods[i].reached - (rest - {r}) == methods[i].reached - rest + {r};
      more := ReachOne(forest, methods, i, r, more, methods[i].reached - rest);
      rest := rest - {r};
    }
    assert methods[i].reached - {} == methods[i].reached;
    IndexNext(more, methods, i);
    CallsNext(forest.root, methods, i);
  }

  lemma {:induction false} RootsKept(was: Links, root: Links, edges: set<(string, string)>)
    requires Sound(was, edges) && forall y :: RootOf(root, y) == RootOf(was, y)
    ensures Sound(root, edges) && Coarser(was, root)
  {
    forall x, y | Same(root, x, y) ensures Connected(edges, x, y) {
      assert Same(was, x, y);
    }
  }

  lemma {:induction false} IndexNext(byField: map<string, seq<string>>, methods: seq<Method>, i: nat)
    requires i < |methods| && Indexed(byField, methods, i, methods[i].reached)
    ensures Indexed(byField, methods, i + 1, {})
  {
  }

  lemma {:induction false} CallsNext(root: Links, methods: seq<Method>, i: nat)
    requires i < |methods| && CallsJoined(root, methods, i, methods[i].reached)
    ensures CallsJoined(root, methods, i + 1, {})
  {
    forall k, r | 0 <= k < i + 1 ensures Called(root, methods, k, r) {
      if k == i && r in methods[i].reached {
        assert Called(root, methods, i, r);
      }
    }
  }

  /** All users of one name share a set. */
  ghost predicate UsersJoined(root: Links, methods: seq<Method>, r: string) {
    var names := Users(methods, |methods|, r);
    forall k :: 0 <= k < |names| ==> Same(root, names[0], names[k])
  }

  lemma {:induction false} UsersKept(was: Links, root: Links, methods: seq<Method>, r: string)
    requires UsersJoined(was, methods, r) && Coarser(was, root)
    ensures UsersJoined(root, methods, r)
  {
  }

  /** Join every user of field `r` to the first one. */
  method JoinUsers(forest: Forest, ghost methods: seq<Method>, names: seq<string>, ghost r: string)
    requires forest.Valid() && Sound(forest.root, Edges(methods))
    requires r !in Names(methods) && names == Users(methods, |methods|, r) && names != []
    modifies forest
    ensures forest.Valid() && Sound(forest.root, Edges(methods)) && Coarser(old(forest.root), forest.root)
    ensures UsersJoined(forest.root, methods, r)
  {
    for k := 1 to |names|
      invariant forest.Valid() && Sound(forest.root, Edges(methods)) && Coarser(old(forest.root), forest.root)
      invariant forall l :: 0 <= l < k ==> Same(forest.root, names[0], names[l])
    {
      ghost var was := forest.root;
      UsersLinked(methods, r, 0, k);
      forest.Union(names[0], names[k]);
      MergeIsSound(was, forest.root, names[0], names[k], Edges(methods));
    }
  }

  /** The fields `done` have had their users joined. */
  ghost predicate FieldsJoined(root: Links, methods: seq<Method>, done: set<string>) {
    forall r :: r in done ==> UsersJoined(root, methods, r)
  }

  /** Join the users of every indexed field; in whatever order the index gives them. */
  method JoinFields(forest: Forest, ghost methods: seq<Method>, byField: map<string, seq<string>>)
    requires forest.Valid() && Sound(forest.root, Edges(methods))
    requires Indexed(byField, methods, |methods|, {}) && CallsJoined(forest.root, methods, |methods|, {})
    modifies forest
    ensures forest.Valid() && Sound(forest.root, Edges(methods))
    ensures CallsJoined(forest.root, methods, |methods|, {}) && FieldsJoined(forest.root, methods, byField.Keys)
  {
    var rest := byField.Keys;
    while rest != {}
      invariant rest <= byField.Keys
      invariant forest.Valid() && Sound(forest.root, Edges(methods))
      invariant CallsJoined(forest.root, methods, |methods|, {})
      invariant FieldsJoined(forest.root, methods, byField.Keys - rest)
      decreases |rest|
    {
      var r :| r in rest;
      ghost var was := forest.root;
      JoinUsers(forest, methods, byField[r], r);
      CallsKept(was, forest.root, methods, |methods|, {});
      forall f | f in byField.Keys - (rest - {r}) ensures UsersJoined(forest.root, methods, f) {
        if f != r {
          UsersKept(was, forest.root, methods, f);
        }
      }
      rest := rest - {r};
    }
    assert byField.Keys - {} == byField.Keys;
  }

  /** Then both ends of every edge share a set. */
  lemma {:induction false} EdgesJoined(root: Links, methods: seq<Method>, byField: map<string, seq<string>>)
    requires Indexed(byField, methods, |methods|, {}) && CallsJoined(root, methods, |methods|, {})
    requires FieldsJoined(root, methods, byField.Keys)
    ensures forall u, v :: (u, v) in Edges(methods) ==> Same(root, u, v)
  {
    forall u, v | (u, v) in Edges(methods) ensures Same(root, u, v) {
      assert Linked(methods, u, v);
      if k :| 0 <= k < |methods| && methods[k].name == u && v in methods[k].reached && v in Names(methods) {
        assert Called(root, methods, k, v);
      } else {
        var k, l, r :| 0 <= k < |methods| && 0 <= l < |methods| && methods[k].name == u && methods[l].name == v
          && r in methods[k].reached && r in methods[l].reached && r !in Names(methods);
        ReacherIsUser(methods, |methods|, r, k);
        ReacherIsUser(methods, |methods|, r, l);
        assert r in byField;
        assert UsersJoined(root, methods, r);
      }
    }
  }

  /** Where `Place` puts a name, once it is known which group it belongs to. */
  lemma {:induction false} PlaceAt(groups: seq<seq<string>>, edges: set<(string, string)>, name: string, k: nat)
    requires NonEmpty(groups) && k <= |groups|
    requires forall j :: 0 <= j < k ==> !Connected(edges, groups[j][0], name)
    requires k < |groups| ==> Connected(edges, groups[k][0], name)
    ensures Place(groups, edges, name) ==
            if k == |groups| then groups + [[name]] else groups[k := groups[k] + [name]]
  {
    if k > 0 {
      PlaceAt(groups[1..], edges, name, k - 1);
    }
  }

  /** A dictionary of groups by root: `slot` says where in the insertion order a root's group stands. */
  ghost predicate Slotted(root: Links, slot: map<string, nat>, groups: seq<seq<string>>) {
    && NonEmpty(groups)
    && (forall r :: r in slot ==> slot[r] < |groups| && RootOf(root, groups[slot[r]][0]) == r)
    && (forall k :: 0 <= k < |groups| ==> RootOf(root, groups[k][0]) in slot && slot[RootOf(root, groups[k][0])] == k)
  }

  /** Filing one more name under its root. */
  lemma {:induction false} SlotNext(root: Links, edges: set<(string, string)>, slot: map<string, nat>,
                                    groups: seq<seq<string>>, name: string)
    requires Slotted(root, slot, groups) && forall x, y :: Same(root, x, y) <==> Connected(edges, x, y)
    ensures var r := RootOf(root, name);
      if r in slot then
        var more := groups[slot[r] := groups[slot[r]] + [name]];
        more == Place(groups, edges, name) && Slotted(root, slot, more)
      else
        groups + [[name]] == Place(groups, edges, name) && Slotted(root, slot[r := |groups|], groups + [[name]])
  {
    var r := RootOf(root, name);
    var k := if r in slot then slot[r] else |groups|;
    forall j | 0 <= j < |groups| ensures Connected(edges, groups[j][0], name) <==> j == k {
      assert Same(root, groups[j][0], name) <==> Connected(edges, groups[j][0], name);
    }
    PlaceAt(groups, edges, name, k);
  }

  /** The methods filed under their roots. */
  method Group(forest: Forest, methods: seq<Method>) returns (groups: seq<seq<string>>)
    requires forest.Valid()
    requires forall x, y :: Same(forest.root, x, y) <==> Connected(Edges(methods), x, y)
    modifies forest
    ensures groups == Classes(Edges(methods), NameList(methods, |methods|))
  {
    groups := [];
    var slot: map<string, nat> := map[];
    ghost var root, edges := forest.root, Edges(methods);
    for i := 0 to |methods|
      invariant forest.Valid() && forall y :: RootOf(forest.root, y) == RootOf(root, y)
      invariant groups == Classes(edges, NameList(methods, i)) && Slotted(root, slot, groups)
    {
      var name := methods[i].name;
      assert NameList(methods, i + 1)[..|NameList(methods, i)|] == NameList(methods, i);
      var r := forest.Find(name);
      assert r == RootOf(forest.root, name);
      SlotNext(root, edges, slot, groups, name);
      if r in slot {
        groups := groups[slot[r] := groups[slot[r]] + [name]];
      } else {
        slot := slot[r := |groups|];
        groups := groups + [[name]];
      }
    }
  }

  /** The connected components of a type's methods, largest first. */
  method Components(methods: seq<Method>) returns (groups: seq<seq<string>>)
    ensures groups == ComponentsOf(methods)
  {
    var forest := new Forest();
    var byField: map<string, seq<string>> := map[];
    ghost var edges := Edges(methods);
    forall x, y | Same(forest.root, x, y) ensures Connected(edges, x, y) {
      ConnectedRefl(edges, x);
    }
    for i := 0 to |methods|
      invariant fresh(forest) && forest.Valid() && Sound(forest.root, edges)
      invariant Indexed(byField, methods, i, {}) && CallsJoined(forest.root, methods, i, {})
    {
      byField := Reach(forest, methods, i, byField);
    }
    JoinFields(forest, methods, byField);
    EdgesJoined(forest.root, methods, byField);
    forall x, y ensures Same(forest.root, x, y) <==> Connected(edges, x, y) {
      Complete(forest.root, edges, x, y);
    }
    groups := Group(forest, methods);
    groups := SortByLen(groups);
  }

  // ---------------------------------------------------------- what the groups amount to

  function Flatten(groups: seq<seq<string>>): seq<string> {
    if groups == [] then [] else groups[0] + Flatten(groups[1..])
  }

  /** All of one component, and none of another. */
  ghost predicate Together(edges: set<(string, string)>, g: seq<string>) {
    g != [] && forall x, y :: x in g && y in g ==> Connected(edges, x, y)
  }

  ghost predicate Apart(edges: set<(string, string)>, g: seq<string>, h: seq<string>) {
    forall x, y :: x in g && y in h ==> !Connected(edges, x, y)
  }

  /** Each group is connected, and no two of them are. */
  ghost predicate Partition(edges: set<(string, string)>, groups: seq<seq<string>>) {
    groups != [] ==>
      && Together(edges, groups[0]) && Partition(edges, groups[1..])
      && forall k :: 1 <= k < |groups| ==> Apart(edges, groups[0], groups[k])
  }

  /** No two groups hold names of one component. */
  lemma {:induction false} PartitionApart(edges: set<(string, string)>, groups: seq<seq<string>>, k: nat, l: nat)
    requires Partition(edges, groups) && k < l < |groups|
    ensures Together(edges, groups[k]) && Together(edges, groups[l]) && Apart(edges, groups[k], groups[l])
  {
    if k > 0 {
      PartitionApart(edges, groups[1..], k - 1, l - 1);
    } else if l > 1 {
      PartitionApart(edges, groups[1..], 0, l - 1);
    }
  }

  lemma {:induction false} ApartSym(edges: set<(string, string)>, g: seq<string>, h: seq<string>)
    requires Apart(edges, g, h)
    ensures Apart(edges, h, g)
  {
    forall x, y | x in h && y in g ensures !Connected(edges, x, y) {
      if Connected(edges, x, y) { ConnectedSym(edges, x, y); }
    }
  }

  /** A name joins the group it is connected to. */
  lemma {:induction false} TogetherWith(edges: set<(string, string)>, g: seq<string>, name: string)
    requires Together(edges, g) && Connected(edges, g[0], name)
    ensures Together(edges, g + [name])
  {
    ConnectedRefl(edges, name);
    forall x | x in g ensures Connected(edges, x, name) && Connected(edges, name, x) {
      ConnectedTrans(edges, x, g[0], name);
      ConnectedSym(edges, x, name);
    }
  }

  /** What is apart from a group is apart from a name connected to it, and a name that is not is apart
      from all of it. */
  lemma {:induction false} ApartFrom(edges: set<(string, string)>, g: seq<string>, h: seq<string>, name: string)
    requires Together(edges, g)
    ensures Apart(edges, g, h) && Connected(edges, g[0], name) ==> Apart(edges, g + [name], h)
    ensures Apart(edges, g, h) && !Connected(edges, g[0], name) ==> Apart(edges, g, h + [name])
  {
    if Apart(edges, g, h) {
      if Connected(edges, g[0], name) {
        forall y | y in h ensures !Connected(edges, name, y) {
          if Connected(edges, name, y) { ConnectedTrans(edges, g[0], name, y); }
        }
      } else {
        forall x | x in g ensures !Connected(edges, x, name) {
          if Connected(edges, x, name) { ConnectedTrans(edges, g[0], x, name); }
        }
      }
    }
  }

  /** Adding a name adds just that name ... */
  lemma {:induction false} PlaceNames(groups: seq<seq<string>>, edges: set<(string, string)>, name: string)
    requires NonEmpty(groups)
    ensures multiset(Flatten(Place(groups, edges, name))) == multiset(Flatten(groups)) + multiset{name}
  {
    if groups == [] {
      assert Flatten([[name]]) == [name] + [];
    } else if Connected(edges, groups[0][0], name) {
      assert Flatten(Place(groups, edges, name)) == groups[0] + [name] + Flatten(groups[1..]);
    } else {
      PlaceNames(groups[1..], edges, name);
      assert Place(groups, edges, name)[1..] == Place(groups[1..], edges, name);
    }
  }

  /** ... and keeps the partition. */
  lemma {:induction false} PlacePartition(groups: seq<seq<string>>, edges: set<(string, string)>, name: string)
    requires NonEmpty(groups) && Partition(edges, groups)
    ensures Partition(edges, Place(groups, edges, name))
  {
    if groups == [] {
      ConnectedRefl(edges, name);
      assert Together(edges, [name]) && [[name]][1..] == [];
    } else {
      var rest := groups[1..];
      if Connected(edges, groups[0][0], name) {
        TogetherWith(edges, groups[0], name);
        forall k | 1 <= k < |groups| ensures Apart(edges, groups[0] + [name], groups[k]) {
          ApartFrom(edges, groups[0], groups[k], name);
        }
        assert Place(groups, edges, name)[1..] == rest;
      } else {
        PlacePartition(rest, edges, name);
        PlaceApart(groups[0], rest, edges, name);
        var placed := Place(rest, edges, name);
        assert Place(groups, edges, name) == [groups[0]] + placed && ([groups[0]] + placed)[1..] == placed;
      }
    }
  }

  lemma {:induction false} PlaceApart(g: seq<string>, groups: seq<seq<string>>, edges: set<(string, string)>,
                                      name: string)
    requires NonEmpty(groups) && Together(edges, g) && !Connected(edges, g[0], name)
    requires forall k :: 0 <= k < |groups| ==> Apart(edges, g, groups[k])
    ensures forall k :: 0 <= k < |Place(groups, edges, name)| ==> Apart(edges, g, Place(groups, edges, name)[k])
  {
    ApartFrom(edges, g, [], name);
    assert [] + [name] == [name];
    if groups != [] {
      ApartFrom(edges, g, groups[0], name);
      PlaceApart(g, groups[1..], edges, name);
    }
  }

  /** Longest groups first. */
  predicate Falling(groups: seq<seq<string>>) {
    forall k :: 0 <= k < |groups| - 1 ==> |groups[k]| >= |groups[k + 1]|
  }

  lemma {:induction false} InsertNames(g: seq<string>, sorted: seq<seq<string>>)
    ensures multiset(InsertByLen(g, sorted)) == multiset(sorted) + multiset{g}
    ensures multiset(Flatten(InsertByLen(g, sorted))) == multiset(Flatten(sorted)) + multiset(g)
  {
    if sorted == [] || |sorted[0]| < |g| {
      assert ([g] + sorted)[1..] == sorted;
    } else {
      InsertNames(g, sorted[1..]);
      assert sorted == [sorted[0]] + sorted[1..];
      assert InsertByLen(g, sorted)[1..] == InsertByLen(g, sorted[1..]);
    }
  }

  /** What holds of a group and of every one in a list holds all along the list it is inserted in. */
  lemma {:induction false} InsertedFrom(g: seq<string>, sorted: seq<seq<string>>, k: nat)
    requires k < |InsertByLen(g, sorted)|
    ensures InsertByLen(g, sorted)[k] == g || InsertByLen(g, sorted)[k] in sorted
  {
    InsertNames(g, sorted);
    assert InsertByLen(g, sorted)[k] in multiset(InsertByLen(g, sorted));
  }

  lemma {:induction false} InsertFalling(g: seq<string>, sorted: seq<seq<string>>)
    requires Falling(sorted)
    ensures Falling(InsertByLen(g, sorted))
  {
    if sorted != [] && |sorted[0]| >= |g| {
      var rest := sorted[1..];
      assert forall k :: 0 <= k < |rest| ==> rest[k] == sorted[k + 1];
      InsertFalling(g, rest);
      assert rest != [] ==> |sorted[0]| >= |sorted[1]|;
    }
  }

  lemma {:induction false} InsertPartition(edges: set<(string, string)>, g: seq<string>, sorted: seq<seq<string>>)
    requires Partition(edges, sorted) && Together(edges, g)
    requires forall k :: 0 <= k < |sorted| ==> Apart(edges, g, sorted[k])
    ensures Partition(edges, InsertByLen(g, sorted))
  {
    if sorted == [] || |sorted[0]| < |g| {
      assert ([g] + sorted)[1..] == sorted;
    } else {
      var rest := sorted[1..];
      InsertPartition(edges, g, rest);
      var more := InsertByLen(g, rest);
      assert ([sorted[0]] + more)[1..] == more;
      ApartSym(edges, g, sorted[0]);
      forall k | 0 <= k < |more| ensures Apart(edges, sorted[0], more[k]) {
        InsertedFrom(g, rest, k);
        if more[k] != g {
          var l :| 0 <= l < |rest| && rest[l] == more[k];
          assert rest[l] == sorted[l + 1];
        }
      }
    }
  }

  lemma {:induction false} PartitionInit(edges: set<(string, string)>, groups: seq<seq<string>>)
    requires Partition(edges, groups) && groups != []
    ensures var init, last := groups[..|groups| - 1], groups[|groups| - 1];
      && Partition(edges, init) && Together(edges, last)
      && (forall k :: 0 <= k < |init| ==> Apart(edges, last, init[k]))
  {
    var init, last := groups[..|groups| - 1], groups[|groups| - 1];
    if |groups| > 1 {
      var rest := groups[1..];
      PartitionInit(edges, rest);
      assert rest[..|rest| - 1] == init[1..] && rest[|rest| - 1] == last;
      ApartSym(edges, groups[0], last);
      forall k | 0 <= k < |init| ensures Apart(edges, last, init[k]) {
        assert k > 0 ==> init[k] == init[1..][k - 1];
      }
      assert forall k :: 1 <= k < |init| ==> init[k] == groups[k];
    }
  }

  lemma {:induction false} FlattenInit(groups: seq<seq<string>>)
    requires groups != []
    ensures Flatten(groups) == Flatten(groups[..|groups| - 1]) + groups[|groups| - 1]
  {
    var init, last := groups[..|groups| - 1], groups[|groups| - 1];
    if |groups| > 1 {
      FlattenInit(groups[1..]);
      assert groups[1..][..|groups| - 2] == init[1..];
      assert groups[0] + (Flatten(init[1..]) + last) == groups[0] + Flatten(init[1..]) + last;
    }
  }

  lemma {:induction false} SortNames(groups: seq<seq<string>>)
    ensures Falling(SortByLen(groups)) && multiset(SortByLen(groups)) == multiset(groups)
    ensures multiset(Flatten(SortByLen(groups))) == multiset(Flatten(groups))
  {
    if groups != [] {
      var init, last := groups[..|groups| - 1], groups[|groups| - 1];
      SortNames(init);
      FlattenInit(groups);
      assert groups == init + [last];
      InsertNames(last, SortByLen(init));
      InsertFalling(last, SortByLen(init));
    }
  }

  lemma {:induction false} SortPartition(edges: set<(string, string)>, groups: seq<seq<string>>)
    requires Partition(edges, groups)
    ensures Partition(edges, SortByLen(groups))
  {
    if groups != [] {
      var init, last := groups[..|groups| - 1], groups[|groups| - 1];
      PartitionInit(edges, groups);
      SortPartition(edges, init);
      SortNames(init);
      forall k | 0 <= k < |SortByLen(init)| ensures Apart(edges, last, SortByLen(init)[k]) {
        assert SortByLen(init)[k] in multiset(SortByLen(init));
        var l :| 0 <= l < |init| && init[l] == SortByLen(init)[k];
      }
      InsertPartition(edges, last, SortByLen(init));
    }
  }

  lemma {:induction false} ClassesPartition(edges: set<(string, string)>, names: seq<string>)
    ensures Partition(edges, Classes(edges, names))
  {
    if names != [] {
      ClassesPartition(edges, names[..|names| - 1]);
      PlacePartition(Classes(edges, names[..|names| - 1]), edges, names[|names| - 1]);
    }
  }

  lemma {:induction false} ClassesNames(edges: set<(string, string)>, names: seq<string>)
    ensures multiset(Flatten(Classes(edges, names))) == multiset(names)
  {
    assert Flatten([]) == [];
    hide Place, Flatten, NonEmpty;
    if names != [] {
      var init, last := names[..|names| - 1], names[|names| - 1];
      assert names == init + [last];
      ClassesNames(edges, init);
      PlaceNames(Classes(edges, init), edges, last);
    }
  }

  /** What `Components` answers: every method once, each group connected, no two groups connected,
      largest first. */
  lemma {:induction false} ComponentsPartition(methods: seq<Method>)
    ensures var groups := ComponentsOf(methods);
      && Partition(Edges(methods), groups) && Falling(groups)
      && multiset(Flatten(groups)) == multiset(NameList(methods, |methods|))
      && forall k, l :: 0 <= k < l < |groups| ==> Apart(Edges(methods), groups[k], groups[l])
  {
    var edges, names := Edges(methods), NameList(methods, |methods|);
    ClassesPartition(edges, names);
    ClassesNames(edges, names);
    SortNames(Classes(edges, names));
    SortPartition(edges, Classes(edges, names));
    var groups := ComponentsOf(methods);
    forall k, l | 0 <= k < l < |groups| ensures Apart(edges, groups[k], groups[l]) {
      PartitionApart(edges, groups, k, l);
    }
  }
}
