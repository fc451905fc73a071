/** The expression nodes of the compiler as they lie in memory.  A pointer is an index into the
    node pool.  The nodes of a tree are numbered so that an operand comes before the node that uses
    it, and a left operand before a right one; this stands for no more than that a tree has no
    cycles and shares no nodes. */
module Nodes {
  import opened Values
  import opened Expressions

  type Ptr = Option<nat>

  /** ExprType */
  datatype Kind =
    | KNil | KNumeric | KString | KLogical | KVariable | KVarRef | KReference
    | KArray | KArgList | KIif | KList | KArrayAt | KFunCall | KSend | KAliasExpr
    | KAssign | KOpEq(op: BinOp) | KPreInc | KPreDec | KPostInc | KPostDec
    | KOr | KAnd | KNot | KNegate | KBinary(operator: BinOp)

  /** The union of the node. */
  datatype Payload =
    | NoValue
    | AsNum(n: int)
    | AsString(s: seq<byte>)
    | AsLogical(b: bool)
    | AsSymbol(name: string)
    | AsReference(operand: Ptr)
    | AsList(exprList: Ptr, index: Ptr, reference: bool)
    | AsOperator(left: Ptr, right: Ptr)
    | AsFunCall(funName: string, parms: Ptr)
    | AsMessage(message: string, object_: Ptr, args: Ptr)
    | AsAlias(alias: Ptr, expList: Ptr)

  datatype Node = Node(kind: Kind, next: Ptr, value: Payload)

  /** A measure for recursion, not less than the number of nodes. */
  function Weight(e: Expr): (n: nat)
    ensures n > 0
  {
    match e
    case ERef(x) => 1 + Weight(x)
    case EArray(items) => 1 + WeightAll(items)
    case EIif(x, a, b) => 4 + Weight(x) + Weight(a) + Weight(b)
    case EList(init, last) => 2 + WeightAll(init) + Weight(last)
    case EAt(b, i, _) => 1 + Weight(b) + Weight(i)
    case ECall(_, args) => 1 + WeightAll(args)
    case ESend(o, _, _, ps) => 1 + Weight(o) + WeightAll(ps)
    case EAlias(a, b) => 1 + Weight(a) + Weight(b)
    case EAssign(l, r) => 1 + Weight(l) + Weight(r)
    case EOpEq(_, l, r) => 1 + Weight(l) + Weight(r)
    case EStep(_, _, l) => 1 + Weight(l)
    case ELogic(_, a, b) => 1 + Weight(a) + Weight(b)
    case ENot(x) => 1 + Weight(x)
    case ENeg(x) => 1 + Weight(x)
    case EBin(_, a, b) => 1 + Weight(a) + Weight(b)
    case _ => 1
  }

  function WeightAll(es: Exprs): nat {
    match es
    case ENone => 0
    case EMore(e, t) => 1 + Weight(e) + WeightAll(t)
  }

  function StepKind(up: bool, pre: bool): Kind {
    if pre then if up then KPreInc else KPreDec else if up then KPostInc else KPostDec
  }

  /** The operands of reference nodes.  The flag of an element under a reference is set, as it is from
      the first time code is generated for it; conditionals have been rewritten. */
  predicate Direct(x: Expr) {
    x.EVar? || x.EVarRef? || x.ERef? || x.ESend? || (x.EAt? && x.byRef)
  }

  /** Node id is the root of e and the nodes of e lie in lo..id.  Lists with more items than
      HB_USHORT counts are not represented. */
  predicate Rep(ns: seq<Node>, lo: nat, id: nat, e: Expr)
    decreases Weight(e), 0
  {
    lo <= id < |ns| &&
    var v := ns[id].value;
    match e
    case ENil => ns[id].kind == KNil
    case ENum(n) => ns[id].kind == KNumeric && v == AsNum(n)
    case EStr(s) => ns[id].kind == KString && v == AsString(s)
    case ELog(b) => ns[id].kind == KLogical && v == AsLogical(b)
    case EVar(n) => ns[id].kind == KVariable && v == AsSymbol(n)
    case EVarRef(n) => ns[id].kind == KVarRef && v == AsSymbol(n)
    case ERef(x) => ns[id].kind == KReference && v.AsReference? && Direct(x) && RepPtr(ns, lo, id, v.operand, x)
    case EArray(items) =>
      ns[id].kind == KArray && v.AsList? && !v.reference && Count(items) <= 0xFFFF && RepChain(ns, lo, id, v.exprList, items)
    case EIif(x, a, b) =>
      ns[id].kind == KIif && v.AsList? && RepPtr(ns, lo, id, v.exprList, x) &&
      var p := v.exprList.value;
      RepPtr(ns, p + 1, id, ns[p].next, a) &&
      var q := ns[p].next.value;
      RepPtr(ns, q + 1, id, ns[q].next, b) && ns[ns[q].next.value].next.None?
    case EList(init, last) => ns[id].kind == KList && v.AsList? && RepList(ns, lo, id, v.exprList, init, last)
    case EAt(b, i, byRef) =>
      ns[id].kind == KArrayAt && v.AsList? && v.reference == byRef && RepTwo(ns, lo, id, v.exprList, b, v.index, i)
    case ECall(f, args) =>
      ns[id].kind == KFunCall && v.AsFunCall? && v.funName == f
      && (if v.parms.None? then args.ENone? else RepArgs(ns, lo, id, v.parms.value, args))
    case ESend(o, m, isCall, ps) =>
      ns[id].kind == KSend && v.AsMessage? && v.message == m && RepPtr(ns, lo, id, v.object_, o)
      && (if isCall then v.args.Some? && RepArgs(ns, v.object_.value + 1, id, v.args.value, ps)
          else v.args.None? && ps.ENone?)
    case EAlias(a, b) => ns[id].kind == KAliasExpr && v.AsAlias? && RepTwo(ns, lo, id, v.alias, a, v.expList, b)
    case EAssign(l, r) => ns[id].kind == KAssign && v.AsOperator? && RepTwo(ns, lo, id, v.left, l, v.right, r)
    case EOpEq(op, l, r) => ns[id].kind == KOpEq(op) && v.AsOperator? && RepTwo(ns, lo, id, v.left, l, v.right, r)
    case EStep(up, pre, l) => ns[id].kind == StepKind(up, pre) && v.AsOperator? && RepPtr(ns, lo, id, v.left, l)
    case ELogic(isAnd, a, b) =>
      ns[id].kind == (if isAnd then KAnd else KOr) && v.AsOperator? && RepTwo(ns, lo, id, v.left, a, v.right, b)
    case ENot(x) => ns[id].kind == KNot && v.AsOperator? && RepPtr(ns, lo, id, v.left, x)
    case ENeg(x) => ns[id].kind == KNegate && v.AsOperator? && RepPtr(ns, lo, id, v.left, x)
    case EBin(op, a, b) => ns[id].kind == KBinary(op) && v.AsOperator? && RepTwo(ns, lo, id, v.left, a, v.right, b)
  }

  predicate RepPtr(ns: seq<Node>, lo: nat, hi: nat, p: Ptr, e: Expr)
    decreases Weight(e), 1
  {
    p.Some? && lo <= p.value < hi && p.value < |ns| && Rep(ns, lo, p.value, e)
  }

  predicate RepTwo(ns: seq<Node>, lo: nat, hi: nat, p: Ptr, a: Expr, q: Ptr, b: Expr)
    decreases Weight(a) + Weight(b), 0
  {
    RepPtr(ns, lo, hi, p, a) && RepPtr(ns, p.value + 1, hi, q, b)
  }

  /** A list linked by pNext. */
  predicate RepChain(ns: seq<Node>, lo: nat, hi: nat, p: Ptr, es: Exprs)
    decreases WeightAll(es), 0
  {
    match es
    case ENone => p.None?
    case EMore(e, t) => RepPtr(ns, lo, hi, p, e) && RepChain(ns, p.value + 1, hi, ns[p.value].next, t)
  }

  predicate RepList(ns: seq<Node>, lo: nat, hi: nat, p: Ptr, init: Exprs, last: Expr)
    decreases WeightAll(init) + Weight(last) + 1, 0
  {
    match init
    case ENone => RepPtr(ns, lo, hi, p, last) && ns[p.value].next.None?
    case EMore(e, t) =>
      RepPtr(ns, lo, hi, p, e) && ns[p.value].next.Some? && RepList(ns, p.value + 1, hi, ns[p.value].next, t, last)
  }

  /** An argument list node and its items. */
  predicate RepArgs(ns: seq<Node>, lo: nat, hi: nat, id: nat, es: Exprs)
    decreases WeightAll(es), 1
  {
    lo <= id < hi && id < |ns| && ns[id].kind == KArgList && ns[id].value.AsList? && !ns[id].value.reference
    && Count(es) <= 0xFFFF
    && RepChain(ns, lo, id, ns[id].value.exprList, es)
  }

  // ---------------------------------------------------------------- parts

  lemma PtrParts(ns: seq<Node>, lo: nat, hi: nat, p: Ptr, e: Expr)
    requires RepPtr(ns, lo, hi, p, e)
    ensures p.Some? && lo <= p.value < hi && p.value < |ns| && Rep(ns, lo, p.value, e)
  {
    hide Rep;
  }

  lemma TwoParts(ns: seq<Node>, lo: nat, hi: nat, p: Ptr, a: Expr, q: Ptr, b: Expr)
    requires RepTwo(ns, lo, hi, p, a, q, b)
    ensures p.Some? && q.Some? && lo <= p.value < q.value < hi && q.value < |ns|
    ensures Rep(ns, lo, p.value, a) && Rep(ns, p.value + 1, q.value, b)
  {
    hide Rep;
    PtrParts(ns, lo, hi, p, a);
    PtrParts(ns, p.value + 1, hi, q, b);
  }

  lemma ListParts(ns: seq<Node>, lo: nat, hi: nat, p: Ptr, init: Exprs, last: Expr)
    requires RepList(ns, lo, hi, p, init, last)
    ensures p.Some? && lo <= p.value < hi && p.value < |ns|
    ensures ns[p.value].next.Some? == init.EMore?
    ensures init.ENone? ==> Rep(ns, lo, p.value, last)
    ensures init.EMore? ==> (
      Rep(ns, lo, p.value, init.head) && RepList(ns, p.value + 1, hi, ns[p.value].next, init.tail, last))
  {
    hide Rep;
  }

  lemma ListNodeParts(ns: seq<Node>, lo: nat, id: nat, e: Expr)
    requires Rep(ns, lo, id, e) && e.EList?
    ensures id < |ns| && ns[id].value.AsList? && ns[id].value.exprList.Some?
    ensures RepList(ns, lo, id, ns[id].value.exprList, e.init, e.last)
  {
    ListParts(ns, lo, id, ns[id].value.exprList, e.init, e.last);
  }

  /** What the type of a node says about its expression. */
  lemma KindParts(ns: seq<Node>, lo: nat, id: nat, e: Expr)
    requires Rep(ns, lo, id, e)
    ensures id < |ns|
    ensures ns[id].kind == KSend <==> e.ESend?
    ensures ns[id].kind == KArrayAt <==> e.EAt?
    ensures ns[id].kind == KVariable <==> e.EVar?
    ensures ns[id].kind == KNumeric <==> e.ENum?
    ensures ns[id].kind == KIif <==> e.EIif?
    ensures ns[id].kind == KNil <==> e.ENil?
    ensures ns[id].kind == KVarRef <==> e.EVarRef?
    ensures ns[id].kind == KReference <==> e.ERef?
    ensures e.EVar? ==> ns[id].value == AsSymbol(e.name)
    ensures e.ENum? ==> ns[id].value == AsNum(e.n)
    ensures e.EAt? ==> ns[id].value.AsList? && ns[id].value.reference == e.byRef
    ensures e.ESend? ==> ns[id].value.AsMessage? && ns[id].value.message == e.message
  {
  }

  /** The operands of a node with pLeft and pRight. */
  lemma OperandParts(ns: seq<Node>, lo: nat, id: nat, e: Expr)
    requires Rep(ns, lo, id, e) && (e.EAssign? || e.EOpEq? || e.ELogic? || e.EBin?)
    ensures var (a, b) := if e.EAssign? || e.EOpEq? then (e.target, e.source) else (e.left, e.right);
      id < |ns| && ns[id].value.AsOperator? && (e.EOpEq? ==> ns[id].kind == KOpEq(e.op)) && (e.EBin? ==> ns[id].kind == KBinary(e.op)) &&
      var p, q := ns[id].value.left, ns[id].value.right;
      && p.Some? && q.Some? && lo <= p.value < q.value < id && q.value < |ns|
      && Rep(ns, lo, p.value, a) && Rep(ns, p.value + 1, q.value, b)
  {
    var (a, b) := if e.EAssign? || e.EOpEq? then (e.target, e.source) else (e.left, e.right);
    TwoParts(ns, lo, id, ns[id].value.left, a, ns[id].value.right, b);
  }

  lemma OperandPart(ns: seq<Node>, lo: nat, id: nat, e: Expr)
    requires Rep(ns, lo, id, e) && (e.EStep? || e.ENot? || e.ENeg?)
    ensures var a := if e.EStep? then e.target else e.arg;
      id < |ns| && ns[id].value.AsOperator? &&
      var p := ns[id].value.left;
      p.Some? && lo <= p.value < id && p.value < |ns| && Rep(ns, lo, p.value, a)
  {
    PtrParts(ns, lo, id, ns[id].value.left, if e.EStep? then e.target else e.arg);
  }

  lemma ReferenceParts(ns: seq<Node>, lo: nat, id: nat, e: Expr)
    requires Rep(ns, lo, id, e) && e.ERef?
    ensures id < |ns| && ns[id].value.AsReference? && Direct(e.operand)
    ensures var p := ns[id].value.operand; p.Some? && lo <= p.value < id && p.value < |ns| && Rep(ns, lo, p.value, e.operand)
  {
    PtrParts(ns, lo, id, ns[id].value.operand, e.operand);
  }

  lemma ElementParts(ns: seq<Node>, lo: nat, id: nat, e: Expr)
    requires Rep(ns, lo, id, e) && e.EAt?
    ensures id < |ns| && ns[id].value.AsList? && ns[id].value.reference == e.byRef
    ensures var p, q := ns[id].value.exprList, ns[id].value.index;
      && p.Some? && q.Some? && lo <= p.value < q.value < id && q.value < |ns|
      && Rep(ns, lo, p.value, e.base) && Rep(ns, p.value + 1, q.value, e.index)
  {
    TwoParts(ns, lo, id, ns[id].value.exprList, e.base, ns[id].value.index, e.index);
  }

  lemma AliasParts(ns: seq<Node>, lo: nat, id: nat, e: Expr)
    requires Rep(ns, lo, id, e) && e.EAlias?
    ensures id < |ns| && ns[id].value.AsAlias?
    ensures var p, q := ns[id].value.alias, ns[id].value.expList;
      && p.Some? && q.Some? && lo <= p.value < q.value < id && q.value < |ns|
      && Rep(ns, lo, p.value, e.alias) && Rep(ns, p.value + 1, q.value, e.body)
  {
    TwoParts(ns, lo, id, ns[id].value.alias, e.alias, ns[id].value.expList, e.body);
  }

  lemma IifParts(ns: seq<Node>, lo: nat, id: nat, e: Expr)
    requires Rep(ns, lo, id, e) && e.EIif?
    ensures id < |ns| && ns[id].value.AsList?
    ensures var p := ns[id].value.exprList;
      && p.Some? && lo <= p.value < id && p.value < |ns| && Rep(ns, lo, p.value, e.cond)
      && var q := ns[p.value].next;
        && q.Some? && p.value < q.value < id && q.value < |ns| && Rep(ns, p.value + 1, q.value, e.thn)
        && var r := ns[q.value].next;
          r.Some? && q.value < r.value < id && r.value < |ns| && Rep(ns, q.value + 1, r.value, e.els) && ns[r.value].next.None?
  {
    var p := ns[id].value.exprList;
    PtrParts(ns, lo, id, p, e.cond);
    var q := ns[p.value].next;
    PtrParts(ns, p.value + 1, id, q, e.thn);
    PtrParts(ns, q.value + 1, id, ns[q.value].next, e.els);
  }

  lemma MessageParts(ns: seq<Node>, lo: nat, id: nat, e: Expr)
    requires Rep(ns, lo, id, e) && e.ESend?
    ensures id < |ns| && ns[id].kind == KSend && ns[id].value.AsMessage? && ns[id].value.message == e.message
    ensures RepPtr(ns, lo, id, ns[id].value.object_, e.object_)
    ensures ns[id].value.object_.Some? && lo <= ns[id].value.object_.value < id && Rep(ns, lo, ns[id].value.object_.value, e.object_)
    ensures ns[id].value.args.Some? == e.isCall && (!e.isCall ==> e.parms == ENone)
    ensures e.isCall ==> RepArgs(ns, ns[id].value.object_.value + 1, id, ns[id].value.args.value, e.parms)
  {
    PtrParts(ns, lo, id, ns[id].value.object_, e.object_);
  }

  // ---------------------------------------------------------------- frames

  predicate Same(ns: seq<Node>, ms: seq<Node>, lo: nat, hi: nat) {
    |ns| == |ms| && forall i :: lo <= i < hi && i < |ns| ==> ms[i] == ns[i]
  }

  /** Changing nodes outside lo..id does not change what node id stands for. */
  lemma {:induction false} RepFrame(ns: seq<Node>, ms: seq<Node>, lo: nat, id: nat, e: Expr)
    requires Rep(ns, lo, id, e) && Same(ns, ms, lo, id + 1)
    ensures Rep(ms, lo, id, e)
    decreases Weight(e), 1
  {
    hide Same;
    SameAt(ns, ms, lo, id + 1, id);
    SameWithin(ns, ms, lo, id + 1, lo, id);
    var v := ns[id].value;
    match e
    case ERef(x) => PtrFrame(ns, ms, lo, id, v.operand, x);
    case EArray(items) => ChainFrame(ns, ms, lo, id, v.exprList, items);
    case EIif(_, _, _) => IifFrame(ns, ms, lo, id, e);
    case EList(init, last) => ListFrame(ns, ms, lo, id, v.exprList, init, last);
    case EAt(b, i, _) => TwoFrame(ns, ms, lo, id, v.exprList, b, v.index, i);
    case ECall(_, args) => if v.parms.Some? { ArgsFrame(ns, ms, lo, id, v.parms.value, args); }
    case ESend(o, _, isCall, ps) =>
      PtrFrame(ns, ms, lo, id, v.object_, o);
      if isCall {
        SameWithin(ns, ms, lo, id + 1, v.object_.value + 1, id);
        ArgsFrame(ns, ms, v.object_.value + 1, id, v.args.value, ps);
      }
    case EAlias(a, b) => TwoFrame(ns, ms, lo, id, v.alias, a, v.expList, b);
    case EAssign(l, r) => TwoFrame(ns, ms, lo, id, v.left, l, v.right, r);
    case EOpEq(_, l, r) => TwoFrame(ns, ms, lo, id, v.left, l, v.right, r);
    case EStep(_, _, l) => PtrFrame(ns, ms, lo, id, v.left, l);
    case ELogic(_, a, b) => TwoFrame(ns, ms, lo, id, v.left, a, v.right, b);
    case ENot(x) => PtrFrame(ns, ms, lo, id, v.left, x);
    case ENeg(x) => PtrFrame(ns, ms, lo, id, v.left, x);
    case EBin(_, a, b) => TwoFrame(ns, ms, lo, id, v.left, a, v.right, b);
    case _ =>
  }

  lemma {:induction false} IifFrame(ns: seq<Node>, ms: seq<Node>, lo: nat, id: nat, e: Expr)
    requires e.EIif? && Rep(ns, lo, id, e) && Same(ns, ms, lo, id + 1)
    ensures Rep(ms, lo, id, e)
    decreases Weight(e), 0
  {
    hide Same;
    IifParts(ns, lo, id, e);
    SameWithin(ns, ms, lo, id + 1, lo, id);
    SameAt(ns, ms, lo, id + 1, id);
    var EIif(x, a, b) := e;
    var v := ns[id].value;
    var p := v.exprList.value;
    var q := ns[p].next.value;
    PtrFrame(ns, ms, lo, id, v.exprList, x);
    SameAt(ns, ms, lo, id + 1, p);
    SameWithin(ns, ms, lo, id + 1, p + 1, id);
    PtrFrame(ns, ms, p + 1, id, ns[p].next, a);
    SameAt(ns, ms, lo, id + 1, q);
    SameWithin(ns, ms, lo, id + 1, q + 1, id);
    PtrFrame(ns, ms, q + 1, id, ns[q].next, b);
    SameAt(ns, ms, lo, id + 1, ns[q].next.value);
  }

  lemma SameAt(ns: seq<Node>, ms: seq<Node>, lo: nat, hi: nat, i: nat)
    requires Same(ns, ms, lo, hi) && lo <= i < hi && i < |ns|
    ensures |ms| == |ns| && ms[i] == ns[i]
  {
  }

  lemma SameWithin(ns: seq<Node>, ms: seq<Node>, lo: nat, hi: nat, lo1: nat, hi1: nat)
    requires Same(ns, ms, lo, hi) && lo <= lo1 && hi1 <= hi
    ensures Same(ns, ms, lo1, hi1)
  {
  }

  lemma {:induction false} PtrFrame(ns: seq<Node>, ms: seq<Node>, lo: nat, hi: nat, p: Ptr, e: Expr)
    requires RepPtr(ns, lo, hi, p, e) && Same(ns, ms, lo, hi)
    ensures RepPtr(ms, lo, hi, p, e)
    decreases Weight(e), 2
  {
    hide Same, Rep;
    SameWithin(ns, ms, lo, hi, lo, p.value + 1);
    RepFrame(ns, ms, lo, p.value, e);
  }

  lemma {:induction false} TwoFrame(ns: seq<Node>, ms: seq<Node>, lo: nat, hi: nat, p: Ptr, a: Expr, q: Ptr, b: Expr)
    requires RepTwo(ns, lo, hi, p, a, q, b) && Same(ns, ms, lo, hi)
    ensures RepTwo(ms, lo, hi, p, a, q, b)
    decreases Weight(a) + Weight(b), 0
  {
    hide Same;
    PtrFrame(ns, ms, lo, hi, p, a);
    RepBound(ns, lo, p.value, a);
    SameWithin(ns, ms, lo, hi, p.value + 1, hi);
    PtrFrame(ns, ms, p.value + 1, hi, q, b);
  }

  lemma RepBound(ns: seq<Node>, lo: nat, id: nat, e: Expr)
    requires Rep(ns, lo, id, e)
    ensures lo <= id < |ns|
  {
  }

  lemma {:induction false} ChainFrame(ns: seq<Node>, ms: seq<Node>, lo: nat, hi: nat, p: Ptr, es: Exprs)
    requires RepChain(ns, lo, hi, p, es) && Same(ns, ms, lo, hi)
    ensures RepChain(ms, lo, hi, p, es)
    decreases WeightAll(es), 0
  {
    hide Same;
    match es
    case ENone =>
    case EMore(e, t) =>
      PtrFrame(ns, ms, lo, hi, p, e);
      RepBound(ns, lo, p.value, e);
      SameAt(ns, ms, lo, hi, p.value);
      SameWithin(ns, ms, lo, hi, p.value + 1, hi);
      ChainFrame(ns, ms, p.value + 1, hi, ns[p.value].next, t);
  }

  lemma {:induction false} ListFrame(ns: seq<Node>, ms: seq<Node>, lo: nat, hi: nat, p: Ptr, init: Exprs, last: Expr)
    requires RepList(ns, lo, hi, p, init, last) && Same(ns, ms, lo, hi)
    ensures RepList(ms, lo, hi, p, init, last)
    decreases WeightAll(init) + Weight(last) + 1, 0
  {
    hide Same;
    var e := if init.ENone? then last else init.head;
    PtrFrame(ns, ms, lo, hi, p, e);
    RepBound(ns, lo, p.value, e);
    SameAt(ns, ms, lo, hi, p.value);
    if init.EMore? {
      SameWithin(ns, ms, lo, hi, p.value + 1, hi);
      ListFrame(ns, ms, p.value + 1, hi, ns[p.value].next, init.tail, last);
    }
  }

  lemma {:induction false} ArgsFrame(ns: seq<Node>, ms: seq<Node>, lo: nat, hi: nat, id: nat, es: Exprs)
    requires RepArgs(ns, lo, hi, id, es) && Same(ns, ms, lo, hi)
    ensures RepArgs(ms, lo, hi, id, es)
    decreases WeightAll(es), 1
  {
    hide Same;
    SameAt(ns, ms, lo, hi, id);
    SameWithin(ns, ms, lo, hi, lo, id);
    ChainFrame(ns, ms, lo, id, ns[id].value.exprList, es);
  }
}
