/** HB_EA_REDUCE on the nodes themselves: operands are replaced by what they reduce to, parentheses
    are cut out, and assignments change their type.  The loop over a list is
    ListSurgery.Tree.ReduceList; here the list is followed node by node. */
module ReducePass {
  import opened Values
  import opened Expressions
  import opened Nodes
  import opened Reduction

  // ---------------------------------------------------------------- wider ranges

  /** The nodes of a tree also lie in any range that begins earlier. */
  lemma {:induction false} RepWiden(ns: seq<Node>, lo: nat, low: nat, id: nat, e: Expr)
    requires Rep(ns, lo, id, e) && low <= lo
    ensures Rep(ns, low, id, e)
    decreases Weight(e), 1
  {
    var v := ns[id].value;
    match e
    case ERef(x) => PtrWiden(ns, lo, low, id, v.operand, x);
    case EArray(items) => ChainWiden(ns, lo, low, id, v.exprList, items);
    case EIif(x, _, _) => PtrWiden(ns, lo, low, id, v.exprList, x);
    case EList(init, last) => ListWiden(ns, lo, low, id, v.exprList, init, last);
    case EAt(b, _, _) => PtrWiden(ns, lo, low, id, v.exprList, b);
    case ECall(_, args) => if v.parms.Some? { ChainWiden(ns, lo, low, v.parms.value, ns[v.parms.value].value.exprList, args); }
    case ESend(o, _, _, _) => PtrWiden(ns, lo, low, id, v.object_, o);
    case EAlias(a, _) => PtrWiden(ns, lo, low, id, v.alias, a);
    case EAssign(l, _) => PtrWiden(ns, lo, low, id, v.left, l);
    case EOpEq(_, l, _) => PtrWiden(ns, lo, low, id, v.left, l);
    case EStep(_, _, l) => PtrWiden(ns, lo, low, id, v.left, l);
    case ELogic(_, a, _) => PtrWiden(ns, lo, low, id, v.left, a);
    case ENot(x) => PtrWiden(ns, lo, low, id, v.left, x);
    case ENeg(x) => PtrWiden(ns, lo, low, id, v.left, x);
    case EBin(_, a, _) => PtrWiden(ns, lo, low, id, v.left, a);
    case _ =>
  }

  lemma {:induction false} PtrWiden(ns: seq<Node>, lo: nat, low: nat, hi: nat, p: Ptr, e: Expr)
    requires RepPtr(ns, lo, hi, p, e) && low <= lo
    ensures RepPtr(ns, low, hi, p, e)
    decreases Weight(e), 2
  {
    hide Rep;
    RepWiden(ns, lo, low, p.value, e);
  }

  lemma {:induction false} ChainWiden(ns: seq<Node>, lo: nat, low: nat, hi: nat, p: Ptr, es: Exprs)
    requires RepChain(ns, lo, hi, p, es) && low <= lo
    ensures RepChain(ns, low, hi, p, es)
    decreases WeightAll(es), 0
  {
    hide Rep;
    match es
    case ENone =>
    case EMore(e, _) => PtrWiden(ns, lo, low, hi, p, e);
  }

  lemma {:induction false} ListWiden(ns: seq<Node>, lo: nat, low: nat, hi: nat, p: Ptr, init: Exprs, last: Expr)
    requires RepList(ns, lo, hi, p, init, last) && low <= lo
    ensures RepList(ns, low, hi, p, init, last)
    decreases WeightAll(init) + Weight(last) + 1, 0
  {
    hide Rep;
    PtrWiden(ns, lo, low, hi, p, if init.ENone? then last else init.head);
  }

  // ---------------------------------------------------------------- Clipper mode

  /** Without the Harbour switch nothing is rewritten in a tree whose targets have no parentheses. */
  lemma {:induction false} ClipperKeeps(c: Config, e: Expr)
    requires !c.harbour && WellFormed(c, e)
    ensures Reduce(c, e) == e
    decreases e, 1
  {
    match e
    case ERef(x) => ClipperKeeps(c, x);
    case EArray(items) => ClipperKeepsAll(c, items);
    case EIif(x, a, b) => ClipperKeeps(c, x); ClipperKeeps(c, a); ClipperKeeps(c, b);
    case EList(init, last) => ClipperKeepsAll(c, init); ClipperKeeps(c, last);
    case EAt(b, i, _) => ClipperKeeps(c, b); ClipperKeeps(c, i);
    case ECall(_, args) => ClipperKeepsAll(c, args);
    case ESend(_, _, _, ps) => ClipperKeepsAll(c, ps);
    case EAlias(a, b) => ClipperKeeps(c, a); ClipperKeeps(c, b);
    case EAssign(l, r) => ReduceTarget(c, l); ClipperKeeps(c, l); ClipperKeeps(c, r);
    case EOpEq(_, l, r) => ReduceTarget(c, l); ClipperKeeps(c, l); ClipperKeeps(c, r);
    case EStep(_, _, l) => ReduceTarget(c, l); ClipperKeeps(c, l);
    case ELogic(_, a, b) => ClipperKeeps(c, a); ClipperKeeps(c, b);
    case ENot(x) => ClipperKeeps(c, x);
    case ENeg(x) => ClipperKeeps(c, x);
    case EBin(_, a, b) => ClipperKeeps(c, a); ClipperKeeps(c, b);
    case _ =>
  }

  lemma {:induction false} ClipperKeepsAll(c: Config, es: Exprs)
    requires !c.harbour && WellFormedAll(c, es)
    ensures ReduceAll(c, es) == es
    decreases es, 0
  {
    match es
    case ENone =>
    case EMore(e, t) => ClipperKeeps(c, e); ClipperKeepsAll(c, t);
  }

  // ---------------------------------------------------------------- putting nodes together

  /** Only nodes from lo up to hi have changed. */
  ghost predicate Confined(ns: seq<Node>, ms: seq<Node>, lo: nat, hi: nat) {
    |ns| == |ms| && forall i :: 0 <= i < |ns| && !(lo <= i < hi) ==> ms[i] == ns[i]
  }

  /** Operators with two operands, and with one. */
  predicate Dyadic(e: Expr) { e.EAssign? || e.EOpEq? || e.ELogic? || e.EBin? }

  predicate Monadic(e: Expr) { e.EStep? || e.ENot? || e.ENeg? }

  function First(e: Expr): Expr
    requires Dyadic(e) || Monadic(e)
  {
    if e.EAssign? || e.EOpEq? || e.EStep? then e.target else if e.ELogic? || e.EBin? then e.left else e.arg
  }

  function Second(e: Expr): Expr
    requires Dyadic(e)
  {
    if e.EAssign? || e.EOpEq? then e.source else e.right
  }

  function Rebuilt(e: Expr, a: Expr, b: Expr): Expr
    requires Dyadic(e)
  {
    match e
    case EAssign(_, _) => EAssign(a, b)
    case EOpEq(op, _, _) => EOpEq(op, a, b)
    case ELogic(isAnd, _, _) => ELogic(isAnd, a, b)
    case EBin(op, _, _) => EBin(op, a, b)
  }

  /** The type of the node of an operator. */
  predicate DyadicNode(kind: Kind, e: Expr)
    requires Dyadic(e)
  {
    match e
    case EAssign(_, _) => kind == KAssign
    case EOpEq(op, _, _) => kind == KOpEq(op)
    case ELogic(isAnd, _, _) => kind == if isAnd then KAnd else KOr
    case EBin(op, _, _) => kind == KBinary(op)
  }

  lemma DyadicKind(ns: seq<Node>, lo: nat, id: nat, e: Expr)
    requires Dyadic(e) && Rep(ns, lo, id, e)
    ensures lo <= id < |ns| && DyadicNode(ns[id].kind, e) && ns[id].value.AsOperator?
  {
    hide RepTwo;
  }

  lemma DyadicBuild(ns: seq<Node>, lo: nat, id: nat, e: Expr)
    requires Dyadic(e) && lo <= id < |ns| && DyadicNode(ns[id].kind, e) && ns[id].value.AsOperator?
    requires RepTwo(ns, lo, id, ns[id].value.left, First(e), ns[id].value.right, Second(e))
    ensures Rep(ns, lo, id, e)
  {
    hide RepTwo;
  }

  lemma RebuiltRep(ns: seq<Node>, lo: nat, id: nat, e: Expr, a: Expr, b: Expr, ms: seq<Node>, p: Ptr, q: Ptr)
    requires Dyadic(e) && Rep(ns, lo, id, e) && id < |ms| && ms[id] == ns[id].(value := AsOperator(p, q))
    requires RepTwo(ms, lo, id, p, a, q, b)
    ensures Rep(ms, lo, id, Rebuilt(e, a, b))
  {
    hide RepTwo, Rep;
    DyadicKind(ns, lo, id, e);
    DyadicBuild(ms, lo, id, Rebuilt(e, a, b));
  }

  /** The links from p lead through nodes for es to end; prev is the last of these nodes. */
  predicate RepSeg(ns: seq<Node>, lo: nat, hi: nat, p: Ptr, es: Exprs, prev: Ptr, end: Ptr)
    decreases es
  {
    match es
    case ENone => prev.None? && p == end
    case EMore(e, t) =>
      RepPtr(ns, lo, hi, p, e) &&
      if t.ENone? then prev == p && ns[p.value].next == end
      else RepSeg(ns, p.value + 1, hi, ns[p.value].next, t, prev, end)
  }

  function Snoc(es: Exprs, e: Expr): (r: Exprs)
    ensures r.EMore?
  {
    match es
    case ENone => EMore(e, ENone)
    case EMore(h, t) => EMore(h, Snoc(t, e))
  }

  function Append(es: Exprs, fs: Exprs): Exprs {
    match es
    case ENone => fs
    case EMore(h, t) => EMore(h, Append(t, fs))
  }

  lemma {:induction false} SnocAppend(es: Exprs, e: Expr, fs: Exprs)
    ensures Append(Snoc(es, e), fs) == Append(es, EMore(e, fs))
    ensures Append(es, ENone) == es
  {
    match es
    case ENone =>
    case EMore(_, t) => SnocAppend(t, e, fs);
  }

  lemma {:induction false} AppendWeight(es: Exprs, fs: Exprs)
    ensures WeightAll(fs) <= WeightAll(Append(es, fs))
  {
    if es.EMore? { AppendWeight(es.tail, fs); }
  }

  lemma {:induction false} SnocWeight(es: Exprs, e: Expr)
    ensures WeightAll(Snoc(es, e)) == WeightAll(es) + Weight(e) + 1
  {
    if es.EMore? { SnocWeight(es.tail, e); }
  }

  lemma {:induction false} ReduceSnoc(c: Config, es: Exprs, e: Expr)
    ensures ReduceAll(c, Snoc(es, e)) == Snoc(ReduceAll(c, es), Reduce(c, e))
  {
    hide Reduce;
    match es
    case ENone =>
    case EMore(_, t) => ReduceSnoc(c, t, e);
  }

  /** A node is what it is whatever its own link says. */
  lemma RootLink(ns: seq<Node>, ms: seq<Node>, lo: nat, id: nat, e: Expr)
    requires Rep(ns, lo, id, e) && Same(ns, ms, lo, id) && ms[id].kind == ns[id].kind && ms[id].value == ns[id].value
    ensures Rep(ms, lo, id, e)
  {
    var ls := ns[id := ms[id]];
    assert Rep(ls, lo, id, e) by { RootOnly(ns, ls, lo, id, e); }
    RepFrame(ls, ms, lo, id, e);
  }

  lemma RootOnly(ns: seq<Node>, ls: seq<Node>, lo: nat, id: nat, e: Expr)
    requires Rep(ns, lo, id, e) && |ls| == |ns| && ls[id].kind == ns[id].kind && ls[id].value == ns[id].value && ls == ns[id := ls[id]]
    ensures Rep(ls, lo, id, e)
  {
    if e.EIif? {
      RootIif(ns, ls, lo, id, e);
    } else if Dyadic(e) {
      RootOperator(ns, ls, lo, id, e);
    } else {
      RootOther(ns, ls, lo, id, e);
    }
  }

  lemma RootIif(ns: seq<Node>, ls: seq<Node>, lo: nat, id: nat, e: Expr)
    requires e.EIif? && Rep(ns, lo, id, e)
    requires |ls| == |ns| && ls[id].kind == ns[id].kind && ls[id].value == ns[id].value && ls == ns[id := ls[id]]
    ensures Rep(ls, lo, id, e)
  {
    IifChain(ns, lo, id, e);
    hide Rep, RepChain;
    ChainFrame(ns, ls, lo, id, ns[id].value.exprList, EMore(e.cond, EMore(e.thn, EMore(e.els, ENone))));
    RepBound(ns, lo, id, e);
    ChainIif(ls, lo, id, e.cond, e.thn, e.els);
  }

  lemma RootOther(ns: seq<Node>, ls: seq<Node>, lo: nat, id: nat, e: Expr)
    requires Rep(ns, lo, id, e) && !Dyadic(e) && !e.EIif?
    requires |ls| == |ns| && ls[id].kind == ns[id].kind && ls[id].value == ns[id].value && ls == ns[id := ls[id]]
    ensures Rep(ls, lo, id, e)
  {
    if e.ESend? {
      MessageParts(ns, lo, id, e);
    }
    hide RepPtr, RepTwo, RepChain, RepList, RepArgs;
    var v := ns[id].value;
    match e
    case ERef(x) => PtrFrame(ns, ls, lo, id, v.operand, x);
    case EArray(items) => ChainFrame(ns, ls, lo, id, v.exprList, items);
    case EList(init, last) => ListFrame(ns, ls, lo, id, v.exprList, init, last);
    case EAt(b, i, _) => TwoFrame(ns, ls, lo, id, v.exprList, b, v.index, i);
    case ECall(_, args) => if v.parms.Some? { ArgsFrame(ns, ls, lo, id, v.parms.value, args); }
    case ESend(o, _, isCall, ps) =>
      PtrFrame(ns, ls, lo, id, v.object_, o);
      if isCall { ArgsFrame(ns, ls, v.object_.value + 1, id, v.args.value, ps); }
    case EAlias(a, b) => TwoFrame(ns, ls, lo, id, v.alias, a, v.expList, b);
    case EStep(_, _, l) => PtrFrame(ns, ls, lo, id, v.left, l);
    case ENot(x) => PtrFrame(ns, ls, lo, id, v.left, x);
    case ENeg(x) => PtrFrame(ns, ls, lo, id, v.left, x);
    case _ =>
  }

  lemma RootOperator(ns: seq<Node>, ls: seq<Node>, lo: nat, id: nat, e: Expr)
    requires Dyadic(e) && Rep(ns, lo, id, e)
    requires |ls| == |ns| && ls[id].kind == ns[id].kind && ls[id].value == ns[id].value && ls == ns[id := ls[id]]
    ensures Rep(ls, lo, id, e)
  {
    OperandsRep(ns, lo, id, e);
    DyadicKind(ns, lo, id, e);
    hide Rep, RepTwo;
    TwoFrame(ns, ls, lo, id, ns[id].value.left, First(e), ns[id].value.right, Second(e));
    DyadicBuild(ls, lo, id, e);
  }

  lemma {:induction false} SegFrame(ns: seq<Node>, ms: seq<Node>, lo: nat, hi: nat, p: Ptr, es: Exprs, prev: Ptr, end: Ptr)
    requires RepSeg(ns, lo, hi, p, es, prev, end) && Same(ns, ms, lo, hi)
    ensures RepSeg(ms, lo, hi, p, es, prev, end)
    decreases es
  {
    hide Rep;
    match es
    case ENone =>
    case EMore(e, t) =>
      PtrFrame(ns, ms, lo, hi, p, e);
      if t.EMore? { SegFrame(ns, ms, p.value + 1, hi, ns[p.value].next, t, prev, end); }
  }

  /** Setting the link of the last node. */
  lemma {:induction false} SegRelink(ns: seq<Node>, ms: seq<Node>, lo: nat, hi: nat, p: Ptr, es: Exprs, prev: Ptr, end: Ptr, end1: Ptr)
    requires RepSeg(ns, lo, hi, p, es, prev, end) && es.EMore?
    requires |ms| == |ns| && prev.Some? && prev.value < |ns| && ms == ns[prev.value := ns[prev.value].(next := end1)]
    ensures RepSeg(ms, lo, hi, p, es, prev, end1) && p.Some? && p.value <= prev.value < hi
    decreases es
  {
    hide Rep;
    var EMore(e, t) := es;
    if t.ENone? {
      RootLink(ns, ms, lo, p.value, e);
    } else {
      SegRelink(ns, ms, p.value + 1, hi, ns[p.value].next, t, prev, end, end1);
      PtrParts(ns, lo, hi, p, e);
      RepFrame(ns, ms, lo, p.value, e);
    }
  }

  lemma {:induction false} SegAppend(ns: seq<Node>, lo: nat, mid: nat, hi: nat, p: Ptr, es: Exprs, prev: Ptr, q: Ptr, e: Expr, end: Ptr)
    requires RepSeg(ns, lo, mid, p, es, prev, q) && RepPtr(ns, mid, hi, q, e) && ns[q.value].next == end && lo <= mid
    ensures RepSeg(ns, lo, hi, p, Snoc(es, e), q, end)
    decreases es
  {
    hide Rep;
    match es
    case ENone => PtrWiden(ns, mid, lo, hi, q, e);
    case EMore(h, t) =>
      if t.ENone? { PtrWiden(ns, mid, p.value + 1, hi, q, e); }
      else { SegAppend(ns, p.value + 1, mid, hi, ns[p.value].next, t, prev, q, e, end); }
  }

  lemma {:induction false} SegChain(ns: seq<Node>, lo: nat, mid: nat, hi: nat, p: Ptr, es: Exprs, prev: Ptr)
    requires RepSeg(ns, lo, mid, p, es, prev, None) && mid <= hi
    ensures RepChain(ns, lo, hi, p, es)
    decreases es
  {
    hide Rep;
    match es
    case ENone =>
    case EMore(e, t) => if t.EMore? { SegChain(ns, p.value + 1, mid, hi, ns[p.value].next, t, prev); }
  }

  lemma SegLast(ns: seq<Node>, lo: nat, hi: nat, p: Ptr, es: Exprs, prev: Ptr, end: Ptr)
    requires RepSeg(ns, lo, hi, p, es, prev, end)
    ensures prev.None? <==> es.ENone?
    ensures prev.Some? ==> lo <= prev.value < hi && prev.value < |ns|
    decreases es
  {
    hide Rep;
    if es.EMore? && es.tail.EMore? { SegLast(ns, p.value + 1, hi, ns[p.value].next, es.tail, prev, end); }
  }

  function Linked(ns: seq<Node>, id: nat, prev: Ptr, r: nat): seq<Node>
    requires id < |ns| && ns[id].value.AsList? && (prev.Some? ==> prev.value < |ns|)
  {
    if prev.None? then ns[id := ns[id].(value := ns[id].value.(exprList := Some(r)))] else ns[prev.value := ns[prev.value].(next := Some(r))]
  }

  /** One turn of the loop: n0 before, n1 after the item has been reduced to r, n2 with r linked in. */
  lemma ListTurn(n0: seq<Node>, n1: seq<Node>, n2: seq<Node>, n3: seq<Node>, id: nat, lo: nat, mid: nat, item: nat, r: nat, prev: Ptr,
      done: Exprs, e: Expr, rest: Exprs, next: Ptr)
    requires id < |n0| && n0[id].value.AsList? && lo <= mid <= item < id
    requires RepSeg(n0, lo, mid, n0[id].value.exprList, done, prev, Some(item)) && RepChain(n0, item + 1, id, next, rest)
    requires Confined(n0, n1, mid, item + 1) && Rep(n1, mid, r, e) && r <= item
    requires (prev.Some? ==> prev.value < |n1|) && n2 == Linked(n1, id, prev, r) && n3 == n2[r := n2[r].(next := next)]
    ensures RepSeg(n3, lo, item + 1, n3[id].value.exprList, Snoc(done, e), Some(r), next)
    ensures RepChain(n3, item + 1, id, next, rest)
  {
    hide Rep;
    var head := n0[id].value.exprList;
    RepBound(n1, mid, r, e);
    SegLast(n0, lo, mid, head, done, prev, Some(item));
    SegFrame(n0, n1, lo, mid, head, done, prev, Some(item));
    if prev.Some? { SegRelink(n1, n2, lo, mid, head, done, prev, Some(item), Some(r)); }
    assert RepSeg(n2, lo, mid, n2[id].value.exprList, done, prev, Some(r));
    RepFrame(n1, n2, mid, r, e);
    RootLink(n2, n3, mid, r, e);
    SegFrame(n2, n3, lo, mid, n2[id].value.exprList, done, prev, Some(r));
    SegAppend(n3, lo, mid, item + 1, n2[id].value.exprList, done, prev, Some(r), e, next);
    ChainFrame(n0, n3, item + 1, id, next, rest);
  }

  /** What the first operand becomes: a target loses its parentheses. */
  function ReducedFirst(c: Config, e: Expr): Expr
    requires Dyadic(e) || Monadic(e)
  {
    if e.EAssign? || e.EOpEq? || e.EStep? then Bare(c, Reduce(c, First(e))) else Reduce(c, First(e))
  }

  /** Operands that are referred to keep their form. */
  lemma {:induction false} DirectKept(c: Config, ns: seq<Node>, lo: nat, id: nat, e: Expr)
    requires Rep(ns, lo, id, e) && e.ERef?
    ensures Direct(Reduce(c, e.operand)) && Reduce(c, e) == ERef(Reduce(c, e.operand))
    decreases e
  {
    ReferenceParts(ns, lo, id, e);
    if e.operand.ERef? { DirectKept(c, ns, lo, ns[id].value.operand.value, e.operand); }
  }

  class Reducer {
    var nodes: seq<Node>
    const config: Config

    constructor (c: Config, ns: seq<Node>)
      ensures config == c && nodes == ns
    {
      config, nodes := c, ns;
    }

    /** HB_EA_REDUCE of one operand. */
    method ReduceOne(p: Ptr, ghost lo: nat, ghost hi: nat, ghost a: Expr) returns (p1: Ptr)
      requires RepPtr(nodes, lo, hi, p, a)
      modifies this
      ensures RepPtr(nodes, lo, hi, p1, Reduce(config, a)) && p1.value <= p.value && Confined(old(nodes), nodes, lo, hi)
      decreases Weight(a), 6
    {
      hide Rep;
      var r := Use(p.value, lo, a);
      RepBound(nodes, lo, r, Reduce(config, a));
      p1 := Some(r);
    }

    method ReduceBoth(p: Ptr, q: Ptr, ghost lo: nat, ghost hi: nat, ghost a: Expr, ghost b: Expr) returns (p1: Ptr, q1: Ptr)
      requires RepTwo(nodes, lo, hi, p, a, q, b)
      modifies this
      ensures RepTwo(nodes, lo, hi, p1, Reduce(config, a), q1, Reduce(config, b)) && Confined(old(nodes), nodes, lo, hi)
      decreases Weight(a) + Weight(b), 0
    {
      hide Rep, Reduce;
      TwoParts(nodes, lo, hi, p, a, q, b);
      ghost var n0 := nodes;
      p1 := ReduceOne(p, lo, p.value + 1, a);
      ghost var n1 := nodes;
      PtrFrame(n0, n1, p.value + 1, hi, q, b);
      q1 := ReduceOne(q, p.value + 1, hi, b);
      PtrFrame(n1, nodes, lo, p.value + 1, p1, Reduce(config, a));
      PtrWiden(nodes, p.value + 1, p1.value + 1, hi, q1, Reduce(config, b));
    }

    /** hb_compExprReduceList */
    method ReduceList(id: nat, ghost lo: nat, ghost es: Exprs)
      requires id < |nodes| && nodes[id].value.AsList? && lo <= id && RepChain(nodes, lo, id, nodes[id].value.exprList, es)
      modifies this
      ensures |nodes| == |old(nodes)| && nodes[id].value.AsList? && RepChain(nodes, lo, id, nodes[id].value.exprList, ReduceAll(config, es))
      ensures nodes[id] == old(nodes[id]).(value := old(nodes[id].value).(exprList := nodes[id].value.exprList))
      ensures Confined(old(nodes), nodes, lo, id + 1)
      decreases WeightAll(es), 2
    {
      hide Rep, Reduce;
      var expr, prev: Ptr := nodes[id].value.exprList, None;
      ghost var mid, done, rest := lo, ENone, es;
      while expr.Some?
        invariant |nodes| == |old(nodes)| && nodes[id].value.AsList? && lo <= mid <= id
        invariant nodes[id] == old(nodes[id]).(value := old(nodes[id].value).(exprList := nodes[id].value.exprList))
        invariant RepSeg(nodes, lo, mid, nodes[id].value.exprList, ReduceAll(config, done), prev, expr)
        invariant RepChain(nodes, mid, id, expr, rest) && es == Append(done, rest)
        invariant Confined(old(nodes), nodes, lo, id + 1)
        decreases WeightAll(rest)
      {
        ghost var before, reducedDone := nodes, ReduceAll(config, done);
        SegLast(before, lo, mid, before[id].value.exprList, reducedDone, prev, expr);
        AppendWeight(done, rest);
        var item := expr.value;
        var next := nodes[item].next;
        var r := Use(item, mid, rest.head);
        ghost var reduced := nodes;
        RepBound(nodes, mid, r, Reduce(config, rest.head));
        if prev.None? {
          nodes := nodes[id := nodes[id].(value := nodes[id].value.(exprList := Some(r)))];
        } else {
          nodes := nodes[prev.value := nodes[prev.value].(next := Some(r))];
        }
        ghost var linked := nodes;
        nodes := nodes[r := nodes[r].(next := next)];
        ListTurn(before, reduced, linked, nodes, id, lo, mid, item, r, prev, reducedDone, Reduce(config, rest.head), rest.tail, next);
        ReduceSnoc(config, done, rest.head);
        SnocAppend(done, rest.head, rest.tail);
        expr, prev := next, Some(r);
        mid, done, rest := item + 1, Snoc(done, rest.head), rest.tail;
      }
      SnocAppend(done, ENil, ENone);
      SegChain(nodes, lo, mid, id, nodes[id].value.exprList, ReduceAll(config, done), prev);
    }

    /** The operand of a step loses its parentheses in Clipper mode. */
    method UseMonadic(id: nat, ghost lo: nat, ghost e: Expr) returns (r: nat)
      requires Monadic(e) && Rep(nodes, lo, id, e)
      modifies this
      ensures Rep(nodes, lo, r, Reduce(config, e)) && r <= id && Confined(old(nodes), nodes, lo, id + 1)
      decreases Weight(e), 1
    {
      r := id;
      MonadicRep(nodes, lo, id, e);
      ghost var was := nodes;
      var left := ReduceOne(nodes[id].value.left, lo, id, First(e));
      if !config.harbour && nodes[id].kind in {KPreInc, KPreDec, KPostInc, KPostDec} {
        var bare := ListStrip(left.value, lo, Reduce(config, First(e)));
        RepBound(nodes, lo, bare, Strip(Reduce(config, First(e))));
        left := Some(bare);
      }
      ghost var reduced := nodes;
      nodes := nodes[id := nodes[id].(value := nodes[id].value.(left := left))];
      hide Rep, Reduce, Strip;
      PtrFrame(reduced, nodes, lo, id, left, ReducedFirst(config, e));
      MonadicBuild(config, was, lo, id, e, nodes);
    }

    /** Operators; the folding of constant operands is not part of this model. */
    method UseDyadic(id: nat, ghost lo: nat, ghost e: Expr) returns (r: nat)
      requires Dyadic(e) && Rep(nodes, lo, id, e)
      modifies this
      ensures Rep(nodes, lo, id, Rebuilt(e, ReducedFirst(config, e), Reduce(config, Second(e))))
      ensures r == id && Confined(old(nodes), nodes, lo, id + 1)
      decreases Weight(e), 1
    {
      r := id;
      hide Rep, Reduce, Strip, RepTwo;
      OperandsRep(nodes, lo, id, e);
      DyadicKind(nodes, lo, id, e);
      OperandWeights(e);
      ghost var was := nodes;
      var left, right := ReduceBoth(nodes[id].value.left, nodes[id].value.right, lo, id, First(e), Second(e));
      ghost var b := Reduce(config, Second(e));
      if !config.harbour && (nodes[id].kind == KAssign || nodes[id].kind.KOpEq?) {
        TwoParts(nodes, lo, id, left, Reduce(config, First(e)), right, b);
        var bare := ListStrip(left.value, lo, Reduce(config, First(e)));
        RepBound(nodes, lo, bare, Strip(Reduce(config, First(e))));
        BareTwo(nodes, lo, id, left, right, bare, Reduce(config, First(e)), b);
        left := Some(bare);
      }
      ghost var reduced := nodes;
      nodes := nodes[id := nodes[id].(value := AsOperator(left, right))];
      TwoFrame(reduced, nodes, lo, id, left, ReducedFirst(config, e), right, b);
      RebuiltRep(was, lo, id, e, ReducedFirst(config, e), b, nodes, left, right);
    }

    /** hb_compExprUseAssign: `x := x op r` becomes `x op= r`. */
    method UseAssign(id: nat, ghost lo: nat, ghost e: Expr) returns (r: nat)
      requires e.EAssign? && Rep(nodes, lo, id, e)
      modifies this
      ensures Rep(nodes, lo, r, Reduce(config, e)) && r <= id && Confined(old(nodes), nodes, lo, id + 1)
      decreases Weight(e), 2
    {
      r := UseDyadic(id, lo, e);
      ghost var l, source := Bare(config, Reduce(config, e.target)), Reduce(config, e.source);
      ghost var was := nodes;
      AssignParts(nodes, lo, id, l, source);
      var left, right := nodes[id].value.left.value, nodes[id].value.right.value;
      if config.harbour && nodes[left].kind == KVariable && nodes[right].kind.KBinary? && Compound(nodes[right].kind.operator)
        && nodes[nodes[right].value.left.value].kind == KVariable
        && nodes[nodes[right].value.left.value].value.name == nodes[left].value.name
      {
        var operand := nodes[right].value.right;
        nodes := nodes[id := nodes[id].(kind := KOpEq(nodes[right].kind.operator), value := AsOperator(Some(left), operand))];
        RewrittenRep(was, nodes, lo, id, l, source);
      }
    }

    /** HB_EA_REDUCE of a reference.  `@iif( .. )`, which needs new nodes, is ListSurgery.Tree.UseRef. */
    method UseRef(id: nat, ghost lo: nat, ghost e: Expr) returns (r: nat)
      requires e.ERef? && Rep(nodes, lo, id, e)
      modifies this
      ensures Rep(nodes, lo, r, Reduce(config, e)) && r <= id && Confined(old(nodes), nodes, lo, id + 1)
      decreases Weight(e), 1
    {
      r := id;
      DirectKept(config, nodes, lo, id, e);
      ReferenceParts(nodes, lo, id, e);
      var operand := ReduceOne(nodes[id].value.operand, lo, id, e.operand);
      ghost var reduced := nodes;
      nodes := nodes[id := nodes[id].(value := AsReference(operand))];
      PtrFrame(reduced, nodes, lo, id, operand, Reduce(config, e.operand));
    }

    method UseArrayAt(id: nat, ghost lo: nat, ghost e: Expr) returns (r: nat)
      requires e.EAt? && Rep(nodes, lo, id, e)
      modifies this
      ensures Rep(nodes, lo, r, Reduce(config, e)) && r <= id && Confined(old(nodes), nodes, lo, id + 1)
      decreases Weight(e), 1
    {
      r := id;
      var base, index := ReduceBoth(nodes[id].value.exprList, nodes[id].value.index, lo, id, e.base, e.index);
      ghost var reduced := nodes;
      nodes := nodes[id := nodes[id].(value := nodes[id].value.(exprList := base, index := index))];
      TwoFrame(reduced, nodes, lo, id, base, Reduce(config, e.base), index, Reduce(config, e.index));
    }

    method UseAliasExpr(id: nat, ghost lo: nat, ghost e: Expr) returns (r: nat)
      requires e.EAlias? && Rep(nodes, lo, id, e)
      modifies this
      ensures Rep(nodes, lo, r, Reduce(config, e)) && r <= id && Confined(old(nodes), nodes, lo, id + 1)
      decreases Weight(e), 1
    {
      r := id;
      var alias, expList := ReduceBoth(nodes[id].value.alias, nodes[id].value.expList, lo, id, e.alias, e.body);
      ghost var reduced := nodes;
      nodes := nodes[id := nodes[id].(value := AsAlias(alias, expList))];
      TwoFrame(reduced, nodes, lo, id, alias, Reduce(config, e.alias), expList, Reduce(config, e.body));
    }

    /** The argument list of a call. */
    method UseArgList(id: nat, ghost lo: nat, ghost hi: nat, ghost es: Exprs)
      requires RepArgs(nodes, lo, hi, id, es)
      modifies this
      ensures RepArgs(nodes, lo, hi, id, ReduceAll(config, es)) && Confined(old(nodes), nodes, lo, id + 1)
      decreases WeightAll(es), 3
    {
      ReduceCount(config, es);
      ReduceList(id, lo, es);
    }

    method UseFunCall(id: nat, ghost lo: nat, ghost e: Expr) returns (r: nat)
      requires e.ECall? && Rep(nodes, lo, id, e)
      modifies this
      ensures Rep(nodes, lo, r, Reduce(config, e)) && r <= id && Confined(old(nodes), nodes, lo, id + 1)
      decreases Weight(e), 1
    {
      r := id;
      if nodes[id].value.parms.Some? {
        UseArgList(nodes[id].value.parms.value, lo, id, e.args);
      }
    }

    /** Clipper does not reduce the object of a message. */
    method UseSend(id: nat, ghost lo: nat, ghost e: Expr) returns (r: nat)
      requires e.ESend? && Rep(nodes, lo, id, e)
      modifies this
      ensures Rep(nodes, lo, r, Reduce(config, e)) && r <= id && Confined(old(nodes), nodes, lo, id + 1)
      decreases Weight(e), 1
    {
      hide Rep, Reduce;
      r := id;
      MessageParts(nodes, lo, id, e);
      ghost var o := if config.harbour then Reduce(config, e.object_) else e.object_;
      if config.harbour {
        ghost var was := nodes;
        var object_ := ReduceOne(nodes[id].value.object_, lo, nodes[id].value.object_.value + 1, e.object_);
        ghost var reduced := nodes;
        nodes := nodes[id := nodes[id].(value := nodes[id].value.(object_ := object_))];
        PtrFrame(reduced, nodes, lo, was[id].value.object_.value + 1, object_, o);
        SendRep(was, nodes, lo, id, e, o);
      }
      ghost var e1 := ESend(o, e.message, e.isCall, e.parms);
      MessageParts(nodes, lo, id, e1);
      if nodes[id].value.args.Some? {
        ghost var before := nodes;
        ghost var low := nodes[id].value.object_.value + 1;
        UseArgList(nodes[id].value.args.value, low, id, e.parms);
        PtrFrame(before, nodes, lo, low, nodes[id].value.object_, o);
        SendBuild(nodes, lo, id, ESend(o, e.message, e.isCall, ReduceAll(config, e.parms)));
      }
      ReducedSend(config, e);
    }

    method UseArray(id: nat, ghost lo: nat, ghost e: Expr) returns (r: nat)
      requires e.EArray? && Rep(nodes, lo, id, e)
      modifies this
      ensures Rep(nodes, lo, r, Reduce(config, e)) && r <= id && Confined(old(nodes), nodes, lo, id + 1)
      decreases Weight(e), 1
    {
      r := id;
      ReduceCount(config, e.items);
      ReduceList(id, lo, e.items);
    }

    method UseIIF(id: nat, ghost lo: nat, ghost e: Expr) returns (r: nat)
      requires e.EIif? && Rep(nodes, lo, id, e)
      modifies this
      ensures Rep(nodes, lo, r, Reduce(config, e)) && r <= id && Confined(old(nodes), nodes, lo, id + 1)
      decreases Weight(e), 1
    {
      r := id;
      IifChain(nodes, lo, id, e);
      ghost var items := EMore(e.cond, EMore(e.thn, EMore(e.els, ENone)));
      ThreeWeight(e.cond, e.thn, e.els);
      ReduceList(id, lo, items);
      ReduceThree(config, e.cond, e.thn, e.els);
      ChainIif(nodes, lo, id, Reduce(config, e.cond), Reduce(config, e.thn), Reduce(config, e.els));
    }

    /** hb_compExprListStrip */
    method ListStrip(id: nat, ghost lo: nat, ghost e: Expr) returns (r: nat)
      requires Rep(nodes, lo, id, e)
      ensures Rep(nodes, lo, r, Strip(e)) && r <= id
    {
      r := id;
      ghost var x := e;
      StripParts(nodes, lo, id, e);
      while Parenthesized(nodes, r)
        invariant r <= id && Rep(nodes, lo, r, x) && Strip(x) == Strip(e)
        invariant Parenthesized(nodes, r) <==> Strippable(x)
        decreases r
      {
        hide Rep, Strip, Strippable, Parenthesized;
        StripOne(nodes, lo, r, x);
        r := nodes[r].value.exprList.value;
        x := x.last;
        StripParts(nodes, lo, r, x);
      }
    }

    method UseList(id: nat, ghost lo: nat, ghost e: Expr) returns (r: nat)
      requires e.EList? && Rep(nodes, lo, id, e)
      modifies this
      ensures Rep(nodes, lo, r, Reduce(config, e)) && r <= id && Confined(old(nodes), nodes, lo, id + 1)
      decreases Weight(e), 4
    {
      r := id;
      ListNodeParts(nodes, lo, id, e);
      ListChain(nodes, lo, id, nodes[id].value.exprList, e.init, e.last);
      SnocWeight(e.init, e.last);
      ReduceList(id, lo, Snoc(e.init, e.last));
      ReduceSnoc(config, e.init, e.last);
      ChainList(nodes, lo, id, nodes[id].value.exprList, ReduceAll(config, e.init), Reduce(config, e.last));
      if config.harbour {
        r := ListStrip(id, lo, EList(ReduceAll(config, e.init), Reduce(config, e.last)));
      }
    }

    method Use(id: nat, ghost lo: nat, ghost e: Expr) returns (r: nat)
      requires Rep(nodes, lo, id, e)
      modifies this
      ensures Rep(nodes, lo, r, Reduce(config, e)) && r <= id && Confined(old(nodes), nodes, lo, id + 1)
      decreases Weight(e), 5
    {
      DispatchKinds(nodes, lo, id, e);
      hide Rep;
      match nodes[id].kind
      case KReference => r := UseRef(id, lo, e);
      case KArray => r := UseArray(id, lo, e);
      case KIif => r := UseIIF(id, lo, e);
      case KList => r := UseList(id, lo, e);
      case KArrayAt => r := UseArrayAt(id, lo, e);
      case KFunCall => r := UseFunCall(id, lo, e);
      case KSend => r := UseSend(id, lo, e);
      case KAliasExpr => r := UseAliasExpr(id, lo, e);
      case KAssign => r := UseAssign(id, lo, e);
      case KOpEq(_) => r := UseDyadic(id, lo, e);
      case KOr => r := UseDyadic(id, lo, e);
      case KAnd => r := UseDyadic(id, lo, e);
      case KBinary(_) => r := UseDyadic(id, lo, e);
      case KPreInc => r := UseMonadic(id, lo, e);
      case KPreDec => r := UseMonadic(id, lo, e);
      case KPostInc => r := UseMonadic(id, lo, e);
      case KPostDec => r := UseMonadic(id, lo, e);
      case KNot => r := UseMonadic(id, lo, e);
      case KNegate => r := UseMonadic(id, lo, e);
      case _ => r := id;
    }
  }

  lemma DispatchKinds(ns: seq<Node>, lo: nat, id: nat, e: Expr)
    requires Rep(ns, lo, id, e)
    ensures id < |ns|
    ensures ns[id].kind == KReference <==> e.ERef?
    ensures ns[id].kind == KArray <==> e.EArray?
    ensures ns[id].kind == KIif <==> e.EIif?
    ensures ns[id].kind == KList <==> e.EList?
    ensures ns[id].kind == KArrayAt <==> e.EAt?
    ensures ns[id].kind == KFunCall <==> e.ECall?
    ensures ns[id].kind == KSend <==> e.ESend?
    ensures ns[id].kind == KAliasExpr <==> e.EAlias?
    ensures ns[id].kind == KAssign <==> e.EAssign?
    ensures ns[id].kind.KOpEq? || ns[id].kind == KOr || ns[id].kind == KAnd || ns[id].kind.KBinary? <==> Dyadic(e) && !e.EAssign?
    ensures ns[id].kind in {KPreInc, KPreDec, KPostInc, KPostDec, KNot, KNegate} <==> Monadic(e)
  {
  }

  // ---------------------------------------------------------------- lists of a fixed form

  lemma {:induction false} ReduceCount(c: Config, es: Exprs)
    ensures Count(ReduceAll(c, es)) == Count(es)
  {
    hide Reduce;
    if es.EMore? { ReduceCount(c, es.tail); }
  }

  lemma IifChain(ns: seq<Node>, lo: nat, id: nat, e: Expr)
    requires e.EIif? && Rep(ns, lo, id, e)
    ensures id < |ns| && ns[id].kind == KIif && ns[id].value.AsList?
    ensures RepChain(ns, lo, id, ns[id].value.exprList, EMore(e.cond, EMore(e.thn, EMore(e.els, ENone))))
  {
    IifParts(ns, lo, id, e);
    hide Rep;
    var p := ns[id].value.exprList;
    var q := ns[p.value].next;
    var r := ns[q.value].next;
    assert RepChain(ns, r.value + 1, id, None, ENone);
    assert RepChain(ns, q.value + 1, id, r, EMore(e.els, ENone));
    assert RepChain(ns, p.value + 1, id, q, EMore(e.thn, EMore(e.els, ENone)));
  }

  lemma ThreeWeight(x: Expr, a: Expr, b: Expr)
    ensures WeightAll(EMore(x, EMore(a, EMore(b, ENone)))) == 3 + Weight(x) + Weight(a) + Weight(b)
  {
    hide Weight;
    assert WeightAll(EMore(b, ENone)) == 1 + Weight(b);
    assert WeightAll(EMore(a, EMore(b, ENone))) == 2 + Weight(a) + Weight(b);
  }

  lemma ReduceThree(c: Config, x: Expr, a: Expr, b: Expr)
    ensures ReduceAll(c, EMore(x, EMore(a, EMore(b, ENone)))) == EMore(Reduce(c, x), EMore(Reduce(c, a), EMore(Reduce(c, b), ENone)))
  {
    assert ReduceAll(c, EMore(b, ENone)) == EMore(Reduce(c, b), ENone);
    assert ReduceAll(c, EMore(a, EMore(b, ENone))) == EMore(Reduce(c, a), EMore(Reduce(c, b), ENone));
  }

  lemma ChainIif(ns: seq<Node>, lo: nat, id: nat, x: Expr, a: Expr, b: Expr)
    requires id < |ns| && lo <= id && ns[id].kind == KIif && ns[id].value.AsList?
    requires RepChain(ns, lo, id, ns[id].value.exprList, EMore(x, EMore(a, EMore(b, ENone))))
    ensures Rep(ns, lo, id, EIif(x, a, b))
  {
    var p := ns[id].value.exprList;
    PtrParts(ns, lo, id, p, x);
    var q := ns[p.value].next;
    assert RepChain(ns, p.value + 1, id, q, EMore(a, EMore(b, ENone)));
    PtrParts(ns, p.value + 1, id, q, a);
    var r := ns[q.value].next;
    assert RepChain(ns, q.value + 1, id, r, EMore(b, ENone));
    PtrParts(ns, q.value + 1, id, r, b);
    assert RepChain(ns, r.value + 1, id, ns[r.value].next, ENone);
  }

  lemma {:induction false} ListChain(ns: seq<Node>, lo: nat, hi: nat, p: Ptr, init: Exprs, last: Expr)
    requires RepList(ns, lo, hi, p, init, last)
    ensures RepChain(ns, lo, hi, p, Snoc(init, last))
    decreases init
  {
    hide Rep;
    match init
    case ENone => assert RepChain(ns, p.value + 1, hi, None, ENone);
    case EMore(_, t) => ListChain(ns, p.value + 1, hi, ns[p.value].next, t, last);
  }

  lemma {:induction false} ChainList(ns: seq<Node>, lo: nat, hi: nat, p: Ptr, init: Exprs, last: Expr)
    requires RepChain(ns, lo, hi, p, Snoc(init, last))
    ensures RepList(ns, lo, hi, p, init, last)
    decreases init
  {
    hide Rep;
    match init
    case ENone => assert RepChain(ns, p.value + 1, hi, ns[p.value].next, ENone);
    case EMore(_, t) => ChainList(ns, p.value + 1, hi, ns[p.value].next, t, last);
  }

  // ---------------------------------------------------------------- parentheses

  /** ExprType is at most HB_ET_VARIABLE. */
  predicate SimpleKind(k: Kind) {
    match k
    case KAssign => false
    case KOpEq(_) => false
    case KPreInc => false
    case KPreDec => false
    case KPostInc => false
    case KPostDec => false
    case KOr => false
    case KAnd => false
    case KNot => false
    case KNegate => false
    case KBinary(_) => false
    case _ => true
  }

  /** A list of one item that needs no parentheses. */
  predicate Parenthesized(ns: seq<Node>, id: nat) {
    id < |ns| && ns[id].kind == KList && ns[id].value.AsList? && ns[id].value.exprList.Some? &&
    var p := ns[id].value.exprList.value;
    p < |ns| && ns[p].next.None? && SimpleKind(ns[p].kind)
    && !(ns[p].kind == KFunCall && ns[p].value.AsFunCall? && ns[p].value.funName == "HB_ARRAYTOPARAMS")
  }

  lemma StripParts(ns: seq<Node>, lo: nat, id: nat, e: Expr)
    requires Rep(ns, lo, id, e)
    ensures Parenthesized(ns, id) <==> Strippable(e)
  {
    IsList(ns, lo, id, e);
    if e.EList? {
      ListNodeParts(ns, lo, id, e);
      ListParts(ns, lo, id, ns[id].value.exprList, e.init, e.last);
      if e.init.ENone? { SimpleParts(ns, lo, ns[id].value.exprList.value, e.last); }
    }
  }

  lemma IsList(ns: seq<Node>, lo: nat, id: nat, e: Expr)
    requires Rep(ns, lo, id, e)
    ensures id < |ns| && (ns[id].kind == KList <==> e.EList?)
  {
  }

  lemma SimpleParts(ns: seq<Node>, lo: nat, id: nat, e: Expr)
    requires Rep(ns, lo, id, e)
    ensures id < |ns| && (SimpleKind(ns[id].kind) <==> Simple(e)) && (ns[id].kind == KFunCall <==> e.ECall?)
    ensures e.ECall? ==> (ns[id].value.AsFunCall? && ns[id].value.funName == e.function_)
  {
  }

  lemma StripOne(ns: seq<Node>, lo: nat, id: nat, e: Expr)
    requires Rep(ns, lo, id, e) && Strippable(e)
    ensures e.EList? && id < |ns| && ns[id].value.AsList? && ns[id].value.exprList.Some? && ns[id].value.exprList.value < id
    ensures Rep(ns, lo, ns[id].value.exprList.value, e.last) && Strip(e.last) == Strip(e)
  {
    ListNodeParts(ns, lo, id, e);
    ListParts(ns, lo, id, ns[id].value.exprList, e.init, e.last);
  }

  // ---------------------------------------------------------------- messages and assignments

  lemma ReducedSend(c: Config, e: Expr)
    requires e.ESend?
    ensures Reduce(c, e) == ESend(if c.harbour then Reduce(c, e.object_) else e.object_, e.message, e.isCall, ReduceAll(c, e.parms))
    ensures e.parms.ENone? ==> ReduceAll(c, e.parms) == ENone
  {
  }

  lemma SendBuild(ns: seq<Node>, lo: nat, id: nat, e: Expr)
    requires e.ESend? && lo <= id < |ns| && ns[id].kind == KSend && ns[id].value.AsMessage? && ns[id].value.message == e.message
    requires RepPtr(ns, lo, id, ns[id].value.object_, e.object_)
    requires if e.isCall then ns[id].value.args.Some? && RepArgs(ns, ns[id].value.object_.value + 1, id, ns[id].value.args.value, e.parms)
      else ns[id].value.args.None? && e.parms.ENone?
    ensures Rep(ns, lo, id, e)
  {
    hide RepPtr, RepArgs;
  }

  /** A message whose object has been replaced. */
  lemma SendRep(ns: seq<Node>, ms: seq<Node>, lo: nat, id: nat, e: Expr, o: Expr)
    requires e.ESend? && Rep(ns, lo, id, e) && id < |ns| == |ms| && ns[id].value.AsMessage? && ns[id].value.object_.Some?
    requires var p := ns[id].value.object_.value;
      && ms[id].value.AsMessage? && ms[id] == ns[id].(value := ns[id].value.(object_ := ms[id].value.object_))
      && RepPtr(ms, lo, p + 1, ms[id].value.object_, o) && Same(ns, ms, p + 1, id)
    ensures Rep(ms, lo, id, ESend(o, e.message, e.isCall, e.parms))
  {
    MessageParts(ns, lo, id, e);
    hide Rep, RepChain, Same;
    var p, p1 := ns[id].value.object_, ms[id].value.object_;
    PtrParts(ms, lo, p.value + 1, p1, o);
    if e.isCall {
      var a := ns[id].value.args.value;
      ArgsFrame(ns, ms, p.value + 1, id, a, e.parms);
      ArgsWiden(ms, p.value + 1, p1.value + 1, id, a, e.parms);
    }
    SendBuild(ms, lo, id, ESend(o, e.message, e.isCall, e.parms));
  }

  lemma ArgsWiden(ns: seq<Node>, lo: nat, low: nat, hi: nat, id: nat, es: Exprs)
    requires RepArgs(ns, lo, hi, id, es) && low <= lo
    ensures RepArgs(ns, low, hi, id, es)
  {
    ChainWiden(ns, lo, low, id, ns[id].value.exprList, es);
  }

  lemma OperandWeights(e: Expr)
    requires Dyadic(e)
    ensures Weight(First(e)) + Weight(Second(e)) < Weight(e)
  {
  }

  /** The first operand without its parentheses. */
  lemma BareTwo(ns: seq<Node>, lo: nat, hi: nat, p: Ptr, q: Ptr, bare: nat, a: Expr, b: Expr)
    requires RepTwo(ns, lo, hi, p, a, q, b) && p.Some? && bare <= p.value && Rep(ns, lo, bare, Strip(a))
    ensures RepTwo(ns, lo, hi, Some(bare), Strip(a), q, b)
  {
    hide Rep;
    TwoParts(ns, lo, hi, p, a, q, b);
    RepBound(ns, lo, bare, Strip(a));
    PtrWiden(ns, p.value + 1, bare + 1, hi, q, b);
  }

  lemma MonadicRep(ns: seq<Node>, lo: nat, id: nat, e: Expr)
    requires Monadic(e) && Rep(ns, lo, id, e)
    ensures id < |ns| && ns[id].value.AsOperator? && RepPtr(ns, lo, id, ns[id].value.left, First(e))
    ensures ns[id].kind in {KPreInc, KPreDec, KPostInc, KPostDec} <==> e.EStep?
  {
    hide RepPtr;
  }

  lemma MonadicBuild(c: Config, ns: seq<Node>, lo: nat, id: nat, e: Expr, ms: seq<Node>)
    requires Monadic(e) && Rep(ns, lo, id, e) && id < |ns| && ns[id].value.AsOperator?
    requires id < |ms| && ms[id].value.AsOperator? && ms[id] == ns[id].(value := ms[id].value)
    requires RepPtr(ms, lo, id, ms[id].value.left, ReducedFirst(c, e))
    ensures Rep(ms, lo, id, Reduce(c, e))
  {
    hide RepPtr;
  }

  lemma OperandsRep(ns: seq<Node>, lo: nat, id: nat, e: Expr)
    requires Dyadic(e) && Rep(ns, lo, id, e)
    ensures id < |ns| && ns[id].value.AsOperator? && RepTwo(ns, lo, id, ns[id].value.left, First(e), ns[id].value.right, Second(e))
    ensures ns[id].kind == KAssign || ns[id].kind.KOpEq? <==> e.EAssign? || e.EOpEq?
  {
    hide RepTwo;
  }

  predicate BinaryNode(ns: seq<Node>, id: nat, e: Expr)
    requires e.EBin?
  {
    id < |ns| && ns[id].kind == KBinary(e.op) && ns[id].value.AsOperator? && ns[id].value.left.Some? && ns[id].value.right.Some?
    && NamedVariable(ns, ns[id].value.left.value, e.left)
  }

  predicate NamedVariable(ns: seq<Node>, id: nat, e: Expr) {
    id < |ns| && (ns[id].kind == KVariable <==> e.EVar?) && (e.EVar? ==> ns[id].value == AsSymbol(e.name))
  }

  lemma AssignParts(ns: seq<Node>, lo: nat, id: nat, l: Expr, r: Expr)
    requires Rep(ns, lo, id, EAssign(l, r))
    ensures id < |ns| && ns[id].value.AsOperator? && ns[id].value.left.Some? && ns[id].value.right.Some?
    ensures var p, q := ns[id].value.left.value, ns[id].value.right.value;
      && lo <= p < q < id && Rep(ns, lo, p, l) && Rep(ns, p + 1, q, r)
      && NamedVariable(ns, p, l)
      && (ns[q].kind.KBinary? <==> r.EBin?)
      && (r.EBin? ==> BinaryNode(ns, q, r))
  {
    hide Rep;
    OperandParts(ns, lo, id, EAssign(l, r));
    var p, q := ns[id].value.left.value, ns[id].value.right.value;
    KindParts(ns, lo, p, l);
    BinaryKind(ns, p + 1, q, r);
    if r.EBin? { BinaryParts(ns, p + 1, q, r); }
  }

  lemma BinaryParts(ns: seq<Node>, lo: nat, id: nat, e: Expr)
    requires Rep(ns, lo, id, e) && e.EBin?
    ensures BinaryNode(ns, id, e)
  {
    OperandParts(ns, lo, id, e);
    hide Rep;
    DyadicKind(ns, lo, id, e);
    KindParts(ns, lo, ns[id].value.left.value, e.left);
  }

  lemma BinaryKind(ns: seq<Node>, lo: nat, id: nat, e: Expr)
    requires Rep(ns, lo, id, e)
    ensures id < |ns| && (ns[id].kind.KBinary? <==> e.EBin?)
  {
  }

  lemma RewrittenRep(ns: seq<Node>, ms: seq<Node>, lo: nat, id: nat, l: Expr, r: Expr)
    requires Rep(ns, lo, id, EAssign(l, r)) && r.EBin? && |ms| == |ns|
    requires ns[id].value.left.Some? && ns[id].value.right.Some? && ns[id].value.right.value < |ns| && ns[ns[id].value.right.value].value.AsOperator?
    requires ms == ns[id := ns[id].(kind := KOpEq(r.op), value := AsOperator(ns[id].value.left, ns[ns[id].value.right.value].value.right))]
    ensures Rep(ms, lo, id, EOpEq(r.op, l, r.right))
  {
    hide Rep;
    OperandParts(ns, lo, id, EAssign(l, r));
    var p, q := ns[id].value.left.value, ns[id].value.right.value;
    OperandParts(ns, p + 1, q, r);
    RepBound(ns, lo, id, EAssign(l, r));
    var s, t := ns[q].value.left.value, ns[q].value.right.value;
    RepWiden(ns, s + 1, p + 1, t, r.right);
    RepFrame(ns, ms, p + 1, t, r.right);
    RepFrame(ns, ms, lo, p, l);
    DyadicBuild(ms, lo, id, EOpEq(r.op, l, r.right));
  }
}
