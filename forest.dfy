/**
 * The depth-counted recursive tree builder shared by the building forest and the
 * group-range forest.
 *
 * A forest is a list of root nodes; every node owns an ordered list of children.
 * The builder never holds a reference to "the current node": it keeps a depth
 * counter and finds the current node again by starting at the last root and
 * taking the last child, once per unit of depth. A counter of 0 or below takes
 * no step at all, so depth -1 (the initial value) and depth 0 resolve to the
 * same node once the forest has a root.
 */
module Forest {
  import opened Lists

  datatype Tree<D> = Tree(data: D, children: seq<Tree<D>>)

  /**
   * What the current-node lookup hands back: the root list itself (the forest is
   * empty), a node, or JavaScript's undefined (the walk ran out of children).
   */
  datatype Target<D> = Roots | At(node: Tree<D>) | Undefined

  /** The number of last-child steps the walk takes: `while (wayToGo > 0)`. */
  function Steps(depth: int): (n: nat)
    ensures depth >= 0 ==> n == depth
    ensures depth < 0 ==> n == 0
  {
    if depth > 0 then depth else 0
  }

  /** The node reached from `t` by `n` last-child steps. */
  function Below<D>(t: Tree<D>, n: nat): (r: Target<D>)
    ensures !r.Roots?
  {
    if n == 0 then At(t)
    else if t.children == [] then Undefined
    else Below(Last(t.children), n - 1)
  }

  /** The insertion point for a depth counter: `getCurrentBuildingPart` / `getCurrentGroupRange`. */
  function Resolve<D>(f: seq<Tree<D>>, depth: int): (r: Target<D>)
    ensures r.Roots? <==> f == []
  {
    if f == [] then Roots else Below(Last(f), Steps(depth))
  }

  /**
   * The lookup as the source performs it: start at the last root and descend while
   * `wayToGo > 0`; `_.last` of an empty child list is undefined, and reading the
   * children of undefined throws.
   */
  method GetCurrent<D>(f: seq<Tree<D>>, depth: int) returns (t: Target<D>)
    ensures t == Resolve(f, depth)
  {
    if f == [] {
      return Roots;
    }
    var current: Target<D> := At(Last(f));
    var wayToGo := depth;
    while wayToGo > 0
      invariant !current.Roots?
      invariant (if current.At? then Below(current.node, Steps(wayToGo)) else Undefined) == Resolve(f, depth)
    {
      if current.Undefined? {
        return Undefined;
      }
      wayToGo := wayToGo - 1;
      current := if current.node.children == [] then Undefined else At(Last(current.node.children));
    }
    return current;
  }

  /** `t` with the node `n` last-child steps below it replaced by `x`. */
  function ReplaceBelow<D>(t: Tree<D>, n: nat, x: Tree<D>): Tree<D>
    requires Below(t, n).At?
  {
    if n == 0 then x
    else t.(children := WithLast(t.children, ReplaceBelow(Last(t.children), n - 1, x)))
  }

  /** The forest with its current node replaced by `x`: an in-place update of that node. */
  function ReplaceCurrent<D>(f: seq<Tree<D>>, depth: int, x: Tree<D>): seq<Tree<D>>
    requires Resolve(f, depth).At?
  {
    WithLast(f, ReplaceBelow(Last(f), Steps(depth), x))
  }

  /**
   * `getCurrent(true).push(x)`: into the root list while the forest is empty,
   * otherwise onto the end of the current node's children.
   */
  function AppendAt<D>(f: seq<Tree<D>>, depth: int, x: Tree<D>): seq<Tree<D>>
    requires !Resolve(f, depth).Undefined?
  {
    match Resolve(f, depth)
    case Roots => f + [x]
    case At(current) => ReplaceCurrent(f, depth, current.(children := current.children + [x]))
  }

  // ---------------------------------------------------------------------------
  // Where an update lands
  // ---------------------------------------------------------------------------

  lemma {:induction false} BelowReplaceBelow<D>(t: Tree<D>, n: nat, x: Tree<D>)
    requires Below(t, n).At?
    ensures Below(ReplaceBelow(t, n, x), n) == At(x)
  {
    if n > 0 {
      BelowReplaceBelow(Last(t.children), n - 1, x);
    }
  }

  /** After replacing the current node, the same depth resolves to the replacement. */
  lemma ResolveReplaceCurrent<D>(f: seq<Tree<D>>, depth: int, x: Tree<D>)
    requires Resolve(f, depth).At?
    ensures Resolve(ReplaceCurrent(f, depth, x), depth) == At(x)
  {
    BelowReplaceBelow(Last(f), Steps(depth), x);
  }

  /** One more step below a node that is reached is a step to its last child. */
  lemma {:induction false} BelowOneMore<D>(t: Tree<D>, n: nat)
    requires Below(t, n).At?
    ensures Below(t, n + 1) ==
      var u := Below(t, n).node; if u.children == [] then Undefined else At(Last(u.children))
  {
    if n > 0 {
      BelowOneMore(Last(t.children), n - 1);
    }
  }

  /**
   * Opening a node at a non-negative depth, or at a negative depth in an empty
   * forest, makes the new node the current node at the incremented depth.
   */
  lemma AppendAtBecomesCurrent<D>(f: seq<Tree<D>>, depth: int, x: Tree<D>)
    requires (depth >= 0 && Resolve(f, depth).At?) || (depth < 0 && f == [])
    ensures Resolve(AppendAt(f, depth, x), depth + 1) == At(x)
  {
    if f != [] {
      var current := Resolve(f, depth).node;
      var y := current.(children := current.children + [x]);
      var g := ReplaceCurrent(f, depth, y);
      ResolveReplaceCurrent(f, depth, y);
      BelowOneMore(Last(g), depth);
    }
  }
  /**
   * Wherever the walk finds the insertion point, the appended node is the current
   * node one step further down; a first root is current at depth 0.
   */
  lemma AppendedIsCurrent<D>(f: seq<Tree<D>>, depth: int, x: Tree<D>)
    requires !Resolve(f, depth).Undefined?
    ensures Resolve(AppendAt(f, depth, x), if f == [] then 0 else Steps(depth) + 1) == At(x)
  {
    if f == [] {
      AppendAtBecomesCurrent(f, -1, x);
    } else {
      AppendAtBecomesCurrent(f, Steps(depth), x);
      assert AppendAt(f, Steps(depth), x) == AppendAt(f, depth, x);
    }
  }



  // ---------------------------------------------------------------------------
  // Replaying open and close events
  // ---------------------------------------------------------------------------

  /** A structural event of one forest: a node opens (with its own data) or the current node closes. */
  datatype Event<D> = Open(data: D) | Close

  /** The builder's state for one forest, or the state after a failed lookup threw. */
  datatype Cursor<D> = Cursor(forest: seq<Tree<D>>, depth: int) | Crashed

  /** One event: an open adds a childless node at the insertion point and deepens; a close only climbs. */
  function Step<D>(c: Cursor<D>, e: Event<D>): Cursor<D>
  {
    match c
    case Crashed => Crashed
    case Cursor(f, depth) =>
      match e
      case Open(data) =>
        if Resolve(f, depth).Undefined? then Crashed else Cursor(AppendAt(f, depth, Tree(data, [])), depth + 1)
      case Close => Cursor(f, depth - 1)
  }

  function Run<D>(c: Cursor<D>, es: seq<Event<D>>): Cursor<D>
    decreases |es|
  {
    if es == [] then c else Run(Step(c, es[0]), es[1..])
  }

  /** The well-nested events a list of trees is written as: each node opens, its children follow, it closes. */
  function EventsOf<D>(ts: seq<Tree<D>>): seq<Event<D>>
  {
    if ts == [] then [] else [Open(ts[0].data)] + EventsOf(ts[0].children) + [Close] + EventsOf(ts[1..])
  }

  lemma {:induction false} RunConcat<D>(c: Cursor<D>, a: seq<Event<D>>, b: seq<Event<D>>)
    ensures Run(c, a + b) == Run(Run(c, a), b)
    decreases |a|
  {
    if a == [] {
      assert a + b == b;
    } else {
      assert (a + b)[0] == a[0] && (a + b)[1..] == a[1..] + b;
      RunConcat(Step(c, a[0]), a[1..], b);
    }
  }

  lemma {:induction false} ReplaceBelowSame<D>(t: Tree<D>, n: nat)
    requires Below(t, n).At?
    ensures ReplaceBelow(t, n, Below(t, n).node) == t
  {
    if n > 0 {
      ReplaceBelowSame(Last(t.children), n - 1);
      assert WithLast(t.children, Last(t.children)) == t.children;
    }
  }

  lemma {:induction false} ReplaceBelowTwice<D>(t: Tree<D>, n: nat, x: Tree<D>, y: Tree<D>)
    requires Below(t, n).At?
    ensures Below(ReplaceBelow(t, n, x), n).At?
    ensures ReplaceBelow(ReplaceBelow(t, n, x), n, y) == ReplaceBelow(t, n, y)
  {
    BelowReplaceBelow(t, n, x);
    if n > 0 {
      ReplaceBelowTwice(Last(t.children), n - 1, x, y);
      var c := t.children;
      var c' := WithLast(c, ReplaceBelow(Last(c), n - 1, x));
      assert c'[..|c'| - 1] == c[..|c| - 1];
    }
  }

  /** Replacing the current node twice is replacing it once, by the second node. */
  lemma ReplaceCurrentTwice<D>(f: seq<Tree<D>>, depth: int, x: Tree<D>, y: Tree<D>)
    requires Resolve(f, depth).At?
    ensures Resolve(ReplaceCurrent(f, depth, x), depth).At?
    ensures ReplaceCurrent(ReplaceCurrent(f, depth, x), depth, y) == ReplaceCurrent(f, depth, y)
  {
    ResolveReplaceCurrent(f, depth, x);
    ReplaceBelowTwice(Last(f), Steps(depth), x, y);
    var h := ReplaceCurrent(f, depth, x);
    assert h[..|h| - 1] == f[..|f| - 1];
  }

  /** Replacing the node one level below the current node, right after it was added, is adding the replacement. */
  lemma {:induction false} ReplaceBelowChild<D>(t: Tree<D>, n: nat, y: Tree<D>, x: Tree<D>)
    requires Below(t, n).At? && y.children != []
    ensures Below(ReplaceBelow(t, n, y), n + 1).At?
    ensures ReplaceBelow(ReplaceBelow(t, n, y), n + 1, x) == ReplaceBelow(t, n, y.(children := WithLast(y.children, x)))
  {
    BelowReplaceBelow(t, n, y);
    BelowOneMore(ReplaceBelow(t, n, y), n);
    if n > 0 {
      ReplaceBelowChild(Last(t.children), n - 1, y, x);
      var c := t.children;
      var c' := WithLast(c, ReplaceBelow(Last(c), n - 1, y));
      assert c'[..|c'| - 1] == c[..|c| - 1];
    }
  }

  /** Closing a node right after it was added and replaced by `t0` is adding `t0` itself. */
  lemma CloseAfterChildren<D>(f: seq<Tree<D>>, depth: int, x0: Tree<D>, t0: Tree<D>)
    requires depth >= 0 && Resolve(f, depth).At?
    ensures Resolve(AppendAt(f, depth, x0), depth + 1).At?
    ensures var cur := Resolve(f, depth).node;
      ReplaceCurrent(AppendAt(f, depth, x0), depth + 1, t0) == ReplaceCurrent(f, depth, cur.(children := cur.children + [t0]))
  {
    AppendAtBecomesCurrent(f, depth, x0);
    var cur := Resolve(f, depth).node;
    var y := cur.(children := cur.children + [x0]);
    ReplaceBelowChild(Last(f), Steps(depth), y, t0);
    assert WithLast(y.children, t0) == cur.children + [t0];
    var g := AppendAt(f, depth, x0);
    assert g[..|g| - 1] == f[..|f| - 1];
  }

  /** Replaying the events of one tree below a current node at a non-negative depth appends that tree. */
  lemma {:induction false} RunOneTree<D>(f: seq<Tree<D>>, depth: int, t0: Tree<D>)
    requires depth >= 0 && Resolve(f, depth).At?
    ensures var cur := Resolve(f, depth).node;
      Run(Cursor(f, depth), [Open(t0.data)] + EventsOf(t0.children) + [Close])
        == Cursor(ReplaceCurrent(f, depth, cur.(children := cur.children + [t0])), depth)
    decreases t0.children, 1
  {
    var x0 := Tree(t0.data, []);
    var inner := EventsOf(t0.children);
    RunConcat(Cursor(f, depth), [Open(t0.data)] + inner, [Close]);
    RunConcat(Cursor(f, depth), [Open(t0.data)], inner);
    var g := AppendAt(f, depth, x0);
    assert Run(Cursor(f, depth), [Open(t0.data)]) == Cursor(g, depth + 1);
    AppendAtBecomesCurrent(f, depth, x0);
    RunEventsOf(g, depth + 1, t0.children);
    assert x0.(children := x0.children + t0.children) == t0;
    CloseAfterChildren(f, depth, x0, t0);
  }

  /**
   * Replaying the events of a list of trees below a current node at a non-negative
   * depth appends exactly those trees to the current node's children and returns
   * to the same depth.
   */
  lemma {:induction false} RunEventsOf<D>(f: seq<Tree<D>>, depth: int, ts: seq<Tree<D>>)
    requires depth >= 0 && Resolve(f, depth).At?
    ensures var cur := Resolve(f, depth).node;
      Run(Cursor(f, depth), EventsOf(ts)) == Cursor(ReplaceCurrent(f, depth, cur.(children := cur.children + ts)), depth)
    decreases ts, 0
  {
    var cur := Resolve(f, depth).node;
    if ts == [] {
      assert cur.(children := cur.children + ts) == cur;
      ReplaceBelowSame(Last(f), Steps(depth));
      assert WithLast(f, Last(f)) == f;
    } else {
      var t0 := ts[0];
      var rest := ts[1..];
      var one := [Open(t0.data)] + EventsOf(t0.children) + [Close];
      assert EventsOf(ts) == one + EventsOf(rest);
      RunConcat(Cursor(f, depth), one, EventsOf(rest));
      RunOneTree(f, depth, t0);
      var cur1 := cur.(children := cur.children + [t0]);
      var h := ReplaceCurrent(f, depth, cur1);
      ResolveReplaceCurrent(f, depth, cur1);
      RunEventsOf(h, depth, rest);
      ReplaceCurrentTwice(f, depth, cur1, cur1.(children := cur1.children + rest));
      assert cur1.children + rest == cur.children + ts;
    }
  }

  /** From the initial state, the events of one tree rebuild exactly that tree. */
  lemma RunSingleTree<D>(t: Tree<D>)
    ensures Run(Cursor([], -1), EventsOf([t])) == Cursor([t], -1)
  {
    var x0 := Tree(t.data, []);
    var one := [Open(t.data)] + EventsOf(t.children) + [Close];
    assert [t][1..] == [];
    assert EventsOf([t]) == one + [];
    assert one + [] == one;
    RunConcat(Cursor([], -1), [Open(t.data)] + EventsOf(t.children), [Close]);
    RunConcat(Cursor([], -1), [Open(t.data)], EventsOf(t.children));
    assert Run(Cursor([], -1), [Open(t.data)]) == Cursor([x0], 0);
    RunEventsOf([x0], 0, t.children);
    assert x0.(children := x0.children + t.children) == t;
    assert ReplaceCurrent([x0], 0, t) == [t];
    assert Run(Cursor([t], 0), [Close]) == Cursor([t], -1);
  }

  /**
   * The depth -1 quirk: after a first top-level tree has closed, the depth is back
   * at -1, which resolves to that tree's root, so a second top-level node is added
   * as the last child of the first root instead of as a second root.
   */
  lemma SecondTopLevelNodeNested<D>(t: Tree<D>, data: D)
    ensures Run(Cursor([], -1), EventsOf([t, Tree(data, [])])) ==
      Cursor([t.(children := t.children + [Tree(data, [])])], -1)
  {
    var x := Tree(data, []);
    assert [t, x][1..] == [x] && [x][1..] == [];
    assert EventsOf([t, x]) == EventsOf([t]) + [Open(data), Close] by {
      assert EventsOf([x]) == [Open(data)] + EventsOf([]) + [Close] + EventsOf([]);
    }
    assert EventsOf([t, x]) == ([Open(t.data)] + EventsOf(t.children) + [Close]) + EventsOf([x]);
    assert EventsOf([t]) == ([Open(t.data)] + EventsOf(t.children) + [Close]) + EventsOf([]);
    RunConcat(Cursor([], -1), EventsOf([t]), [Open(data), Close]);
    RunSingleTree(t);
    var t' := t.(children := t.children + [x]);
    assert AppendAt([t], -1, x) == [t'];
    assert Run(Cursor([t], -1), [Open(data), Close]) == Run(Cursor([t'], 0), [Close]);
  }

  /** In an empty forest every depth resolves to the root list: a new node becomes the only root. */
  lemma AppendToEmptyForest<D>(depth: int, x: Tree<D>)
    ensures Resolve<D>([], depth) == Roots
    ensures AppendAt([], depth, x) == [x]
  {
    assert [] + [x] == [x];
  }

  /** With a single root and a depth of at most 0, the root is current: a new node becomes its last child. */
  lemma AppendUnderSingleRoot<D>(r: D, cs: seq<Tree<D>>, depth: int, x: Tree<D>)
    requires depth <= 0
    ensures Resolve([Tree(r, cs)], depth) == At(Tree(r, cs))
    ensures AppendAt([Tree(r, cs)], depth, x) == [Tree(r, cs + [x])]
  {
    assert ReplaceCurrent([Tree(r, cs)], depth, Tree(r, cs + [x])) == [Tree(r, cs + [x])];
  }

  /** At depth 1 below a root with one leaf child, that child is current: a new node becomes its child. */
  lemma AppendUnderOnlyChild<D>(r: D, c: D, x: Tree<D>)
    ensures Resolve([Tree(r, [Tree(c, [])])], 1) == At(Tree(c, []))
    ensures AppendAt([Tree(r, [Tree(c, [])])], 1, x) == [Tree(r, [Tree(c, [x])])]
  {
    var t := Tree(r, [Tree(c, [])]);
    assert Below(t, 1) == At(Tree(c, []));
    assert WithLast(t.children, Tree(c, [x])) == [Tree(c, [x])];
    assert ReplaceBelow(t, 1, Tree(c, [x])) == Tree(r, [Tree(c, [x])]);
    assert Tree(c, []).(children := [] + [x]) == Tree(c, [x]);
  }

  // ---------------------------------------------------------------------------
  // Nothing already built is rewritten
  // ---------------------------------------------------------------------------

  /**
   * Every node of `f` is still in `g`, at the same position, with the same `key`
   * of its data; `g` may have more nodes.
   */
  ghost predicate Keeps<D, K>(f: seq<Tree<D>>, g: seq<Tree<D>>, key: D -> K)
    decreases f
  {
    && |f| <= |g|
    && forall i :: 0 <= i < |f| ==>
         key(g[i].data) == key(f[i].data) && Keeps(f[i].children, g[i].children, key)
  }

  lemma {:induction false} KeepsReflexive<D, K>(f: seq<Tree<D>>, key: D -> K)
    ensures Keeps(f, f, key)
    decreases f
  {
    forall i | 0 <= i < |f| ensures Keeps(f[i].children, f[i].children, key) {
      KeepsReflexive(f[i].children, key);
    }
  }

  lemma KeepsExtended<D, K>(f: seq<Tree<D>>, extra: seq<Tree<D>>, key: D -> K)
    ensures Keeps(f, f + extra, key)
  {
    KeepsReflexive(f, key);
    forall i | 0 <= i < |f| ensures (f + extra)[i] == f[i] {}
  }

  lemma {:induction false} KeepsReplaceBelow<D, K>(t: Tree<D>, n: nat, x: Tree<D>, key: D -> K)
    requires Below(t, n).At?
    requires key(x.data) == key(Below(t, n).node.data)
    requires Keeps(Below(t, n).node.children, x.children, key)
    ensures key(ReplaceBelow(t, n, x).data) == key(t.data)
    ensures Keeps(t.children, ReplaceBelow(t, n, x).children, key)
  {
    if n > 0 {
      var c := t.children;
      var last := ReplaceBelow(Last(c), n - 1, x);
      KeepsReplaceBelow(Last(c), n - 1, x, key);
      KeepsReflexive(c, key);
      var r := WithLast(c, last);
      forall i | 0 <= i < |c|
        ensures key(r[i].data) == key(c[i].data) && Keeps(c[i].children, r[i].children, key)
      {
        if i < |c| - 1 {
          assert r[i] == c[i];
        }
      }
    }
  }

  /** Replacing the current node by one with the same key and kept children keeps the forest. */
  lemma KeepsReplaceCurrent<D, K>(f: seq<Tree<D>>, depth: int, x: Tree<D>, key: D -> K)
    requires Resolve(f, depth).At?
    requires key(x.data) == key(Resolve(f, depth).node.data)
    requires Keeps(Resolve(f, depth).node.children, x.children, key)
    ensures Keeps(f, ReplaceCurrent(f, depth, x), key)
  {
    var g := ReplaceCurrent(f, depth, x);
    KeepsReplaceBelow(Last(f), Steps(depth), x, key);
    KeepsReflexive(f, key);
    forall i | 0 <= i < |f|
      ensures key(g[i].data) == key(f[i].data) && Keeps(f[i].children, g[i].children, key)
    {
      if i < |f| - 1 {
        assert g[i] == f[i];
      }
    }
  }

  /** Opening a node rewrites no key of any node already in the forest. */
  lemma KeepsAppendAt<D, K>(f: seq<Tree<D>>, depth: int, x: Tree<D>, key: D -> K)
    requires !Resolve(f, depth).Undefined?
    ensures Keeps(f, AppendAt(f, depth, x), key)
  {
    if f == [] {
    } else {
      var current := Resolve(f, depth).node;
      KeepsExtended(current.children, [x], key);
      KeepsReplaceCurrent(f, depth, current.(children := current.children + [x]), key);
    }
  }

  // ---------------------------------------------------------------------------
  // Counting and flattening
  // ---------------------------------------------------------------------------

  /** The nodes of a forest in pre-order: the reference walk. */
  function Preorder<D>(f: seq<Tree<D>>): seq<Tree<D>>
  {
    if f == [] then [] else [f[0]] + Preorder(f[0].children) + Preorder(f[1..])
  }

  function Size<D>(f: seq<Tree<D>>): nat
  {
    if f == [] then 0 else 1 + Size(f[0].children) + Size(f[1..])
  }

  lemma {:induction false} SizeConcat<D>(a: seq<Tree<D>>, b: seq<Tree<D>>)
    ensures Size(a + b) == Size(a) + Size(b)
  {
    if a != [] {
      assert (a + b)[0] == a[0] && (a + b)[1..] == a[1..] + b;
      SizeConcat(a[1..], b);
    } else {
      assert a + b == b;
    }
  }

  lemma {:induction false} SizeReplaceBelow<D>(t: Tree<D>, n: nat, x: Tree<D>)
    requires Below(t, n).At?
    ensures Size([ReplaceBelow(t, n, x)]) + Size([Below(t, n).node]) == Size([t]) + Size([x])
  {
    assert [t][1..] == [];
    assert [x][1..] == [];
    assert [Below(t, n).node][1..] == [];
    var r := ReplaceBelow(t, n, x);
    assert [r][1..] == [];
    if n > 0 {
      var c := t.children;
      SizeReplaceBelow(Last(c), n - 1, x);
      assert c == c[..|c| - 1] + [Last(c)];
      SizeConcat(c[..|c| - 1], [Last(c)]);
      SizeConcat(c[..|c| - 1], [ReplaceBelow(Last(c), n - 1, x)]);
    }
  }

  /** Opening a node adds exactly that node (with its subtree) to the forest. */
  lemma SizeAppendAt<D>(f: seq<Tree<D>>, depth: int, x: Tree<D>)
    requires !Resolve(f, depth).Undefined?
    ensures Size(AppendAt(f, depth, x)) == Size(f) + Size([x])
  {
    if f == [] {
      SizeConcat(f, [x]);
    } else {
      var current := Resolve(f, depth).node;
      var y := current.(children := current.children + [x]);
      SizeReplaceBelow(Last(f), Steps(depth), y);
      SizeConcat(current.children, [x]);
      assert [y][1..] == [] && [current][1..] == [];
      assert f == f[..|f| - 1] + [Last(f)];
      SizeConcat(f[..|f| - 1], [Last(f)]);
      SizeConcat(f[..|f| - 1], [ReplaceBelow(Last(f), Steps(depth), y)]);
    }
  }

  lemma {:induction false} PreorderLength<D>(f: seq<Tree<D>>)
    ensures |Preorder(f)| == Size(f)
  {
    if f != [] {
      PreorderLength(f[0].children);
      PreorderLength(f[1..]);
    }
  }

  /**
   * The flattening of `getBuildingParts`: the list itself, followed, for each of its
   * nodes in order, by the flattening of that node's children. It lists every node
   * of the forest exactly as often as the pre-order walk, so once per node.
   */
  function Flatten<D>(f: seq<Tree<D>>): (r: seq<Tree<D>>)
    ensures multiset(r) == multiset(Preorder(f))
    ensures |r| == Size(f)
    decreases f, 1
  {
    var r := f + FlattenChildren(f);
    PreorderLength(f);
    assert |multiset(r)| == |r| && |multiset(Preorder(f))| == |Preorder(f)|;
    r
  }

  /** The flattenings of the children of the nodes of `f`, node by node. */
  function FlattenChildren<D>(f: seq<Tree<D>>): (r: seq<Tree<D>>)
    ensures multiset(f) + multiset(r) == multiset(Preorder(f))
    decreases f, 0
  {
    if f == [] then []
    else
      assert f == [f[0]] + f[1..];
      Flatten(f[0].children) + FlattenChildren(f[1..])
  }

  /**
   * The items of every node, each node's children before the node itself
   * (`getGroupAddresses`): each item of each node exactly once.
   */
  function Collect<D, X>(f: seq<Tree<D>>, items: D -> seq<X>): (r: seq<X>)
    ensures multiset(r) == multiset(ItemsOf(Preorder(f), items))
  {
    if f == [] then []
    else
      var c := f[0].children;
      ItemsOfConcat([f[0]] + Preorder(c), Preorder(f[1..]), items);
      ItemsOfConcat([f[0]], Preorder(c), items);
      assert ItemsOf([f[0]], items) == items(f[0].data);
      Collect(c, items) + items(f[0].data) + Collect(f[1..], items)
  }

  /** The items of a list of nodes, node by node. */
  function ItemsOf<D, X>(nodes: seq<Tree<D>>, items: D -> seq<X>): seq<X>
  {
    if nodes == [] then [] else items(nodes[0].data) + ItemsOf(nodes[1..], items)
  }

  lemma {:induction false} ItemsOfConcat<D, X>(a: seq<Tree<D>>, b: seq<Tree<D>>, items: D -> seq<X>)
    ensures ItemsOf(a + b, items) == ItemsOf(a, items) + ItemsOf(b, items)
  {
    if a != [] {
      assert (a + b)[0] == a[0] && (a + b)[1..] == a[1..] + b;
      ItemsOfConcat(a[1..], b, items);
    } else {
      assert a + b == b;
    }
  }
}
