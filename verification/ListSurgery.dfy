/** Expression lists are linked through pNext.  Reduction may replace a node by another one, whose
    own link means nothing; the list survives because its links are saved and restored. */
module ListSurgery {
  import opened Expressions
  import Reduction

  datatype Ptr = Null | To(id: nat)

  datatype Kind =
    | IifKind | ReferenceKind | ArrayAtKind | MacroKind | StringKind | NilKind | CodeblockKind | ArrayKind
    | OtherKind(exprType: nat)

  /** first is pExprList of a list, an element access or a codeblock, or asReference of a reference. */
  datatype Node = Node(kind: Kind, first: Ptr, index: Ptr, text: string, next: Ptr)

  type Pool = seq<Node>

  /** From head to end the links lead through exactly these nodes. */
  predicate Linked(ns: Pool, head: Ptr, ids: seq<nat>, end: Ptr) {
    head == PtrAt(ids, 0, end)
    && forall k :: 0 <= k < |ids| ==> ids[k] < |ns| && ns[ids[k]].next == PtrAt(ids, k + 1, end)
  }

  function PtrAt(ids: seq<nat>, k: nat, end: Ptr): Ptr {
    if k < |ids| then To(ids[k]) else end
  }

  /** What one reduction may do: it returns a node of the tree that it reduces or a new one, and
      changes only such nodes. */
  ghost predicate Within(ns: Pool, own: iset<nat>, ms: Pool, r: nat) {
    |ns| <= |ms| && r < |ms| && (r in own || |ns| <= r)
    && forall k :: 0 <= k < |ns| && k !in own ==> ms[k] == ns[k]
  }

  type TreeReduction = (Pool, nat) -> (Pool, nat)

  /** own(id) are the nodes of the tree below id. */
  ghost predicate Reducer(reduce: TreeReduction, own: nat -> iset<nat>) {
    forall ns: Pool, id: nat {:trigger reduce(ns, id)} :: id < |ns| ==>
      var (ms, r) := reduce(ns, id);
      Within(ns, own(id), ms, r)
  }

  /** The items are the roots of separate trees that do not contain the list node. */
  ghost predicate Separate(own: nat -> iset<nat>, list: nat, ids: seq<nat>, size: nat) {
    list < size
    && (forall i :: 0 <= i < |ids| ==> ids[i] in own(ids[i]) && list !in own(ids[i]))
    && (forall i, k :: 0 <= i < |ids| && k in own(ids[i]) ==> k < size)
    && (forall i, j :: 0 <= i < j < |ids| ==> own(ids[i]) !! own(ids[j]))
  }

  /** r is what reducing id gave when that tree was still as in the pool was, and the reduced tree is
      in ns; only the link of r is another one. */
  ghost predicate Reduced(reduce: TreeReduction, own: iset<nat>, was: Pool, before: Pool, id: nat, r: nat, ns: Pool) {
    id < |before| && |was| <= |before|
    && (forall k :: 0 <= k < |was| && k in own ==> before[k] == was[k])
    && var (ms, q) := reduce(before, id);
       r == q < |ms| <= |ns| && ns[r].(next := ms[r].next) == ms[r]
       && forall k :: 0 <= k < |ms| && k != r && (k in own || |before| <= k) ==> ns[k] == ms[k]
  }

  // ---------------------------------------------------------------- one turn of the loop

  /** The nodes that stand for the items so far differ from each other and from the list node. */
  ghost predicate Apart(own: nat -> iset<nat>, list: nat, ids: seq<nat>, results: seq<nat>, size: nat)
    requires |results| <= |ids|
  {
    (forall i :: 0 <= i < |results| ==> results[i] != list && (results[i] in own(ids[i]) || size <= results[i]))
    && forall i, j :: 0 <= i < j < |results| ==> results[i] != results[j]
  }

  /** Only the list node and the trees of the first n items have changed. */
  ghost predicate Untouched(own: nat -> iset<nat>, list: nat, ids: seq<nat>, n: nat, was: Pool, ns: Pool)
    requires n <= |ids|
  {
    |was| <= |ns|
    && forall k :: 0 <= k < |was| && k != list && (forall i :: 0 <= i < n ==> k !in own(ids[i])) ==> ns[k] == was[k]
  }

  ghost predicate Before(own: nat -> iset<nat>, list: nat, ids: seq<nat>, results: seq<nat>, was: Pool, ns: Pool) {
    && Separate(own, list, ids, |was|) && Linked(was, was[list].first, ids, Null)
    && |results| <= |ids| && Apart(own, list, ids, results, |was|)
    && Untouched(own, list, ids, |results|, was, ns) && Linked(ns, ns[list].first, results, PtrAt(ids, |results|, Null))
    && ns[list] == was[list].(first := ns[list].first)
  }

  /** The node in front of the current link. */
  function Holder(list: nat, results: seq<nat>): nat {
    if results == [] then list else results[|results| - 1]
  }

  function SetLink(list: nat, holder: nat, node: Node, p: Ptr): Node {
    if holder == list then node.(first := p) else node.(next := p)
  }

  /** The pool after an item has been reduced to r and linked in. */
  ghost predicate Relinked(ms: Pool, list: nat, holder: nat, r: nat, next: Ptr, ns: Pool) {
    |ns| == |ms| && holder < |ms| && r < |ms| && holder != r
    && ns[holder] == SetLink(list, holder, ms[holder], To(r)) && ns[r] == ms[r].(next := next)
    && forall k :: 0 <= k < |ms| && k != holder && k != r ==> ns[k] == ms[k]
  }

  /** The reduction of the next item touches neither the list node nor the results so far. */
  lemma Undisturbed(own: nat -> iset<nat>, list: nat, ids: seq<nat>, results: seq<nat>, was: Pool, ns: Pool, ms: Pool, r: nat)
    requires Before(own, list, ids, results, was, ns) && |results| < |ids|
    requires Within(ns, own(ids[|results|]), ms, r)
    ensures ids[|results|] < |ns| && ns[ids[|results|]].next == PtrAt(ids, |results| + 1, Null)
    ensures ms[list] == ns[list] && r != list
    ensures forall j :: 0 <= j < |results| ==> results[j] < |ns| && ms[results[j]] == ns[results[j]] && results[j] != r
    ensures Holder(list, results) < |ms| && Holder(list, results) != r
  {
  }

  lemma NextTurn(own: nat -> iset<nat>, list: nat, ids: seq<nat>, results: seq<nat>, was: Pool, ns: Pool, ms: Pool, r: nat, ns1: Pool)
    requires Before(own, list, ids, results, was, ns) && |results| < |ids|
    requires Within(ns, own(ids[|results|]), ms, r)
    requires Relinked(ms, list, Holder(list, results), r, PtrAt(ids, |results| + 1, Null), ns1)
    ensures Before(own, list, ids, results + [r], was, ns1)
  {
    Undisturbed(own, list, ids, results, was, ns, ms, r);
    assert Apart(own, list, ids, results + [r], |was|);
    NextUntouched(own, list, ids, results, was, ns, ms, r, ns1);
    NextLinked(list, results, r, ns, ms, PtrAt(ids, |results|, Null), PtrAt(ids, |results| + 1, Null), ns1);
  }

  lemma NextUntouched(own: nat -> iset<nat>, list: nat, ids: seq<nat>, results: seq<nat>, was: Pool, ns: Pool, ms: Pool, r: nat, ns1: Pool)
    requires Before(own, list, ids, results, was, ns) && |results| < |ids|
    requires Within(ns, own(ids[|results|]), ms, r)
    requires Relinked(ms, list, Holder(list, results), r, PtrAt(ids, |results| + 1, Null), ns1)
    ensures Untouched(own, list, ids, |results| + 1, was, ns1)
  {
    hide Linked;
    var n := |results|;
    forall k | 0 <= k < |was| && k != list && (forall i :: 0 <= i < n + 1 ==> k !in own(ids[i]))
      ensures ns1[k] == was[k]
    {
      assert k !in own(ids[n]);
      assert ns[k] == was[k] == ms[k];
      if n > 0 { assert k !in own(ids[n - 1]); }
    }
  }

  lemma NextLinked(list: nat, results: seq<nat>, r: nat, ns: Pool, ms: Pool, here: Ptr, next: Ptr, ns1: Pool)
    requires list < |ns| <= |ms| && Linked(ns, ns[list].first, results, here)
    requires ms[list] == ns[list] && r != list
    requires forall j :: 0 <= j < |results| ==> ms[results[j]] == ns[results[j]] && results[j] != r && results[j] != list
    requires forall i, j :: 0 <= i < j < |results| ==> results[i] != results[j]
    requires Relinked(ms, list, Holder(list, results), r, next, ns1)
    ensures Linked(ns1, ns1[list].first, results + [r], next) && ns1[list] == ms[list].(first := ns1[list].first)
  {
    var all := results + [r];
    assert ns1[list].first == PtrAt(all, 0, next);
    forall k | 0 <= k < |all| ensures all[k] < |ns1| && ns1[all[k]].next == PtrAt(all, k + 1, next) {
    }
  }

  /** A reduced tree stays as it is while the next item is reduced and linked in. */
  lemma StaysReduced(reduce: TreeReduction, own: nat -> iset<nat>, list: nat, ids: seq<nat>, results: seq<nat>, was: Pool, ns: Pool, ms: Pool, r: nat,
      ns1: Pool, i: nat, pool: Pool)
    requires Reducer(reduce, own) && Before(own, list, ids, results, was, ns) && i < |results| < |ids|
    requires Within(ns, own(ids[|results|]), ms, r)
    requires Relinked(ms, list, Holder(list, results), r, PtrAt(ids, |results| + 1, Null), ns1)
    requires Reduced(reduce, own(ids[i]), was, pool, ids[i], results[i], ns)
    requires i < |results| - 1 ==> Later(reduce, own, ids, results, i, |results| - 1, pool)
    ensures Reduced(reduce, own(ids[i]), was, pool, ids[i], results[i], ns1)
  {
    hide Linked, Reducer;
    Undisturbed(own, list, ids, results, was, ns, ms, r);
  }

  /** The node that stands for item j is none that the reduction of item i has made. */
  ghost predicate Later(reduce: TreeReduction, own: nat -> iset<nat>, ids: seq<nat>, results: seq<nat>, i: nat, j: nat, pool: Pool)
    requires i < j < |results| <= |ids|
  {
    results[j] in own(ids[j]) || |reduce(pool, ids[i]).0| <= results[j]
  }

  ghost predicate AllReduced(reduce: TreeReduction, own: nat -> iset<nat>, ids: seq<nat>, results: seq<nat>, pools: seq<Pool>, was: Pool, ns: Pool) {
    |results| == |pools| <= |ids|
    && (forall i :: 0 <= i < |results| ==> Reduced(reduce, own(ids[i]), was, pools[i], ids[i], results[i], ns))
    && (forall i, j :: 0 <= i < j < |results| ==> Later(reduce, own, ids, results, i, j, pools[i]))
  }

  lemma NowReduced(reduce: TreeReduction, own: nat -> iset<nat>, list: nat, ids: seq<nat>, results: seq<nat>, was: Pool, ns: Pool, ms: Pool, r: nat, ns1: Pool)
    requires Before(own, list, ids, results, was, ns) && |results| < |ids| && ids[|results|] < |ns|
    requires (ms, r) == reduce(ns, ids[|results|]) && Within(ns, own(ids[|results|]), ms, r)
    requires Relinked(ms, list, Holder(list, results), r, PtrAt(ids, |results| + 1, Null), ns1)
    ensures Reduced(reduce, own(ids[|results|]), was, ns, ids[|results|], r, ns1)
  {
    hide Linked;
    Undisturbed(own, list, ids, results, was, ns, ms, r);
  }

  lemma NextReduced(reduce: TreeReduction, own: nat -> iset<nat>, list: nat, ids: seq<nat>, results: seq<nat>, pools: seq<Pool>, was: Pool, ns: Pool,
      ms: Pool, r: nat, ns1: Pool)
    requires Reducer(reduce, own) && Before(own, list, ids, results, was, ns) && |results| < |ids| && ids[|results|] < |ns|
    requires AllReduced(reduce, own, ids, results, pools, was, ns)
    requires (ms, r) == reduce(ns, ids[|results|]) && Within(ns, own(ids[|results|]), ms, r)
    requires Relinked(ms, list, Holder(list, results), r, PtrAt(ids, |results| + 1, Null), ns1)
    ensures AllReduced(reduce, own, ids, results + [r], pools + [ns], was, ns1)
  {
    hide Before, Relinked, Reducer, Linked;
    var n, rs, ps := |results|, results + [r], pools + [ns];
    NowReduced(reduce, own, list, ids, results, was, ns, ms, r, ns1);
    forall i | 0 <= i < n + 1 ensures Reduced(reduce, own(ids[i]), was, ps[i], ids[i], rs[i], ns1) {
      if i < n { StaysReduced(reduce, own, list, ids, results, was, ns, ms, r, ns1, i, pools[i]); }
    }
    forall i, j | 0 <= i < j < n + 1 ensures Later(reduce, own, ids, rs, i, j, ps[i]) {
      if j < n {
        assert Later(reduce, own, ids, results, i, j, pools[i]);
      } else {
        assert Reduced(reduce, own(ids[i]), was, pools[i], ids[i], results[i], ns);
      }
    }
  }

  class Tree {
    var nodes: Pool

    /** hb_compExprReduceList */
    method ReduceList(list: nat, reduce: TreeReduction, ghost own: nat -> iset<nat>, ghost ids: seq<nat>)
      returns (ghost results: seq<nat>, ghost pools: seq<Pool>)
      requires Reducer(reduce, own) && Separate(own, list, ids, |nodes|)
      requires Linked(nodes, nodes[list].first, ids, Null)
      modifies this
      ensures |results| == |pools| == |ids| && list < |nodes| && Linked(nodes, nodes[list].first, results, Null)
      ensures nodes[list] == old(nodes[list]).(first := nodes[list].first)
      ensures forall i :: 0 <= i < |ids| ==> Reduced(reduce, own(ids[i]), old(nodes), pools[i], ids[i], results[i], nodes)
      ensures Untouched(own, list, ids, |ids|, old(nodes), nodes)
    {
      results, pools := [], [];
      var expr, prev := nodes[list].first, list;
      while expr != Null
        invariant |results| <= |ids| && expr == PtrAt(ids, |results|, Null) && prev == Holder(list, results)
        invariant Before(own, list, ids, results, old(nodes), nodes)
        invariant AllReduced(reduce, own, ids, results, pools, old(nodes), nodes)
        decreases |ids| - |results|
      {
        hide Before, Reducer, Reduced, Within, AllReduced;
        ghost var before := nodes;
        StillLinked(own, list, ids, results, old(nodes), nodes);
        var id := expr.id;
        var next := nodes[id].next;
        var (reduced, r) := reduce(nodes, id);
        nodes := reduced;
        assert Within(before, own(id), reduced, r) by { Apply(reduce, own, before, id); }
        Undisturbed(own, list, ids, results, old(nodes), before, reduced, r);
        nodes := nodes[prev := SetLink(list, prev, nodes[prev], To(r))];
        nodes := nodes[r := nodes[r].(next := next)];
        assert Relinked(reduced, list, prev, r, next, nodes);
        NextTurn(own, list, ids, results, old(nodes), before, reduced, r, nodes);
        NextReduced(reduce, own, list, ids, results, pools, old(nodes), before, reduced, r, nodes);
        results, pools := results + [r], pools + [before];
        expr, prev := next, r;
      }
    }

    /** hb_compExprNewRef */
    method NewRef(operand: Ptr) returns (r: nat)
      modifies this
      ensures r == |old(nodes)| && nodes == old(nodes) + [Node(ReferenceKind, operand, Null, "", Null)]
    {
      r := |nodes|;
      nodes := nodes + [Node(ReferenceKind, operand, Null, "", Null)];
    }

    /** HB_EA_REDUCE of a reference.  The operand is reduced; if it is a conditional then, `@iif( c, a, b )`
        becomes `iif( c, @a, @b )`, and the reference itself is no longer used. */
    method UseRef(self: nat, reduce: TreeReduction, ghost own: nat -> iset<nat>, ghost items: seq<nat>, ghost tree: nat -> Expr) returns (r: nat)
      requires self < |nodes| && nodes[self].kind == ReferenceKind && nodes[self].first.To? && nodes[self].first.id < |nodes|
      requires Reducer(reduce, own) && self !in own(nodes[self].first.id)
      requires var (ms, q) := reduce(nodes, nodes[self].first.id); Conditional(ms, q, self, items, tree)
      modifies this
      ensures var (ms, q) := old(reduce(nodes, nodes[self].first.id));
        && q < |ms| <= |nodes| && r == (if ms[q].kind == IifKind then q else self)
        && (ms[q].kind != IifKind ==> nodes == ms[self := ms[self].(first := To(q))])
        && (ms[q].kind == IifKind ==> ArmsReferred(ms, q, self, items, nodes))
        && Denotes(nodes, r, tree, Reduction.ReferTo(tree(q)))
    {
      hide Reducer, Linked, ArmsReferred;
      r := self;
      Apply(reduce, own, nodes, nodes[self].first.id);
      var (reduced, operand) := reduce(nodes, nodes[self].first.id);
      nodes := reduced;
      nodes := nodes[self := nodes[self].(first := To(operand))];
      if nodes[operand].kind == IifKind {
        ghost var before := nodes;
        SelfApart(reduced, nodes, operand, self, items);
        ReferToArms(operand, self, items);
        r := operand;
        ArmsDenote(reduced, before, operand, self, items, tree, nodes);
      }
    }

    /** Puts references to the two arms in their place. */
    method ReferToArms(operand: nat, ghost self: nat, ghost items: seq<nat>)
      requires operand < |nodes| && |items| == 3 && operand !in items && Linked(nodes, nodes[operand].first, items, Null)
      modifies this
      ensures ArmsReferred(old(nodes), operand, self, items, nodes) && nodes[operand] == old(nodes)[operand]
    {
      Three(nodes, nodes[operand].first, items);
      var cond := nodes[operand].first.id;
      var thn := nodes[cond].next;
      var onFalse := NewRef(nodes[thn.id].next);
      var onTrue := NewRef(thn);
      nodes := nodes[cond := nodes[cond].(next := To(onTrue))];
      nodes := nodes[onTrue := nodes[onTrue].(next := To(onFalse))];
      LinkThree(nodes, cond, onTrue, onFalse);
    }
  }

  lemma ArmsDenote(ms: Pool, mid: Pool, q: nat, self: nat, items: seq<nat>, tree: nat -> Expr, ns: Pool)
    requires Conditional(ms, q, self, items, tree) && ms[q].kind == IifKind && self < |ms| == |mid|
    requires forall k :: 0 <= k < |ms| && k != self ==> mid[k] == ms[k]
    requires ArmsReferred(mid, q, self, items, ns) && ns[q] == mid[q]
    ensures ArmsReferred(ms, q, self, items, ns) && Denotes(ns, q, tree, Reduction.ReferTo(tree(q)))
  {
    hide Linked;
    Arms(ns, q, [items[0], |ms| + 1, |ms|], tree);
  }

  lemma SelfApart(ms: Pool, ns: Pool, q: nat, self: nat, items: seq<nat>)
    requires q < |ms| == |ns| && self != q && self !in items && Linked(ms, ms[q].first, items, Null)
    requires forall k :: 0 <= k < |ms| && k != self ==> ns[k] == ms[k]
    ensures Linked(ns, ns[q].first, items, Null)
  {
  }

  /** What the reduced operand q of the reference self stands for: tree(k) is the expression of node k. */
  ghost predicate Conditional(ms: Pool, q: nat, self: nat, items: seq<nat>, tree: nat -> Expr) {
    q < |ms| && self != q && (ms[q].kind == IifKind <==> tree(q).EIif?)
    && (ms[q].kind == IifKind ==>
        && |items| == 3 && Linked(ms, ms[q].first, items, Null) && q !in items && self !in items
        && (forall k :: 0 <= k < 3 ==> items[k] < |ms| && ms[items[k]].kind != ReferenceKind)
        && tree(q) == EIif(tree(items[0]), tree(items[1]), tree(items[2])))
  }

  /** The list has two new reference nodes; every other node but the first item and the unused reference
      is as it was. */
  ghost predicate ArmsReferred(ms: Pool, q: nat, self: nat, items: seq<nat>, ns: Pool) {
    q < |ms| && |items| == 3 && |ns| == |ms| + 2 && items[0] < |ms| &&
    var onTrue, onFalse := |ms| + 1, |ms|;
      && Linked(ns, ns[q].first, [items[0], onTrue, onFalse], Null)
      && ns[onTrue].kind == ReferenceKind && ns[onTrue].first == To(items[1])
      && ns[onFalse].kind == ReferenceKind && ns[onFalse].first == To(items[2])
      && ns[items[0]] == ms[items[0]].(next := To(onTrue))
      && forall k :: 0 <= k < |ms| && k != items[0] && k != self ==> ns[k] == ms[k]
  }

  /** An item of a list: a reference, or what the node stands for. */
  ghost function ItemOf(ns: Pool, k: nat, tree: nat -> Expr): Expr
    requires k < |ns|
  {
    if ns[k].kind == ReferenceKind && ns[k].first.To? then ERef(tree(ns[k].first.id)) else tree(k)
  }

  /** Node id stands for a reference, or for a conditional with these items. */
  ghost predicate Denotes(ns: Pool, id: nat, tree: nat -> Expr, e: Expr) {
    id < |ns| &&
    if ns[id].kind == IifKind then
      exists ids :: |ids| == 3 && Linked(ns, ns[id].first, ids, Null)
        && e == EIif(ItemOf(ns, ids[0], tree), ItemOf(ns, ids[1], tree), ItemOf(ns, ids[2], tree))
    else e == ItemOf(ns, id, tree)
  }

  lemma Arms(ns: Pool, id: nat, ids: seq<nat>, tree: nat -> Expr)
    requires id < |ns| && ns[id].kind == IifKind && |ids| == 3 && Linked(ns, ns[id].first, ids, Null)
    ensures Denotes(ns, id, tree, EIif(ItemOf(ns, ids[0], tree), ItemOf(ns, ids[1], tree), ItemOf(ns, ids[2], tree)))
  {
  }

  lemma Three(ns: Pool, head: Ptr, ids: seq<nat>)
    requires |ids| == 3 && Linked(ns, head, ids, Null)
    ensures head == To(ids[0]) && ids[0] < |ns| && ids[1] < |ns| && ids[2] < |ns|
    ensures ns[ids[0]].next == To(ids[1]) && ns[ids[1]].next == To(ids[2]) && ns[ids[2]].next == Null
  {
    assert PtrAt(ids, 1, Null) == To(ids[1]) && PtrAt(ids, 2, Null) == To(ids[2]) && PtrAt(ids, 3, Null) == Null;
  }

  lemma LinkThree(ns: Pool, a: nat, b: nat, c: nat)
    requires a < |ns| && b < |ns| && c < |ns|
    requires ns[a].next == To(b) && ns[b].next == To(c) && ns[c].next == Null
    ensures Linked(ns, To(a), [a, b, c], Null)
  {
    var ids := [a, b, c];
    assert PtrAt(ids, 1, Null) == To(b) && PtrAt(ids, 2, Null) == To(c);
  }

  lemma Apply(reduce: TreeReduction, own: nat -> iset<nat>, ns: Pool, id: nat)
    requires Reducer(reduce, own) && id < |ns|
    ensures Within(ns, own(id), reduce(ns, id).0, reduce(ns, id).1)
  {
    var (_, _) := reduce(ns, id);
  }

  lemma StillLinked(own: nat -> iset<nat>, list: nat, ids: seq<nat>, results: seq<nat>, was: Pool, ns: Pool)
    requires Before(own, list, ids, results, was, ns) && |results| < |ids|
    ensures ids[|results|] < |ns| && ns[ids[|results|]].next == PtrAt(ids, |results| + 1, Null)
  {
  }
}
