/** What is left after HB_EA_REDUCE in Harbour mode: no parentheses around an operand, no assignment that
    could be a compound one, no reference to a conditional.  Reducing once more changes nothing. */
module Settled {
  import opened Values
  import opened Expressions
  import opened Reduction

  /** Every assignment to a variable: it is rewritten exactly for the six arithmetic operators with the
      variable itself as the left operand, in Harbour mode. */
  lemma AssignmentReduced(c: Config, x: string, e: Expr)
    ensures var s := Reduce(c, e);
      Reduce(c, EAssign(EVar(x), e))
        == if c.harbour && s.EBin? && s.op in {Plus, Minus, Mult, Div, Mod, Power} && s.left == EVar(x)
           then EOpEq(s.op, EVar(x), s.right) else EAssign(EVar(x), s)
  {
    assert Reduce(c, EVar(x)) == EVar(x) && Bare(c, EVar(x)) == EVar(x);
  }

  /** An operand that parentheses around it would not protect. */
  predicate Operand(e: Expr) {
    !e.EAssign? && !e.EOpEq? && !e.EStep? && !e.ELogic? && !e.ENot? && !e.ENeg? && !e.EBin?
    && !(e.ECall? && e.function_ == "HB_ARRAYTOPARAMS")
  }

  predicate Settled(e: Expr) {
    match e
    case ERef(x) => !x.EIif? && Settled(x)
    case EArray(items) => AllSettled(items)
    case EIif(x, a, b) => Settled(x) && Settled(a) && Settled(b)
    case EList(init, last) => (init == ENone ==> !Operand(last)) && AllSettled(init) && Settled(last)
    case EAt(b, i, _) => Settled(b) && Settled(i)
    case ECall(_, args) => AllSettled(args)
    case ESend(o, _, _, ps) => Settled(o) && AllSettled(ps)
    case EAlias(a, b) => Settled(a) && Settled(b)
    case EAssign(l, r) =>
      Settled(l) && Settled(r) && !(l.EVar? && r.EBin? && r.op in {Plus, Minus, Mult, Div, Mod, Power} && r.left == l)
    case EOpEq(_, l, r) => Settled(l) && Settled(r)
    case EStep(_, _, l) => Settled(l)
    case ELogic(_, a, b) => Settled(a) && Settled(b)
    case ENot(x) => Settled(x)
    case ENeg(x) => Settled(x)
    case EBin(_, a, b) => Settled(a) && Settled(b)
    case _ => true
  }

  predicate AllSettled(es: Exprs) {
    match es
    case ENone => true
    case EMore(e, t) => Settled(e) && AllSettled(t)
  }

  /** No arm of a conditional under a reference is a conditional. */
  predicate FlatReferences(c: Config, e: Expr) {
    match e
    case ERef(x) => FlatReferences(c, x) && FlatArms(Reduce(c, x))
    case EArray(items) => AllFlat(c, items)
    case EIif(x, a, b) => FlatReferences(c, x) && FlatReferences(c, a) && FlatReferences(c, b)
    case EList(init, last) => AllFlat(c, init) && FlatReferences(c, last)
    case EAt(b, i, _) => FlatReferences(c, b) && FlatReferences(c, i)
    case ECall(_, args) => AllFlat(c, args)
    case ESend(o, _, _, ps) => FlatReferences(c, o) && AllFlat(c, ps)
    case EAlias(a, b) => FlatReferences(c, a) && FlatReferences(c, b)
    case EAssign(l, r) => FlatReferences(c, l) && FlatReferences(c, r)
    case EOpEq(_, l, r) => FlatReferences(c, l) && FlatReferences(c, r)
    case EStep(_, _, l) => FlatReferences(c, l)
    case ELogic(_, a, b) => FlatReferences(c, a) && FlatReferences(c, b)
    case ENot(x) => FlatReferences(c, x)
    case ENeg(x) => FlatReferences(c, x)
    case EBin(_, a, b) => FlatReferences(c, a) && FlatReferences(c, b)
    case _ => true
  }

  predicate AllFlat(c: Config, es: Exprs) {
    match es
    case ENone => true
    case EMore(e, t) => FlatReferences(c, e) && AllFlat(c, t)
  }

  predicate FlatArms(x: Expr) {
    x.EIif? ==> !x.thn.EIif? && !x.els.EIif?
  }

  // ---------------------------------------------------------------- the reduced tree is settled

  lemma {:induction false} StripSettled(e: Expr)
    requires if e.EList? then AllSettled(e.init) && Settled(e.last) else Settled(e)
    ensures Settled(Strip(e))
  {
    if Strippable(e) { StripSettled(e.last); }
  }

  lemma {:induction false} ReduceSettled(c: Config, e: Expr)
    requires c.harbour && FlatReferences(c, e)
    ensures Settled(Reduce(c, e))
    decreases e, 1
  {
    hide Strip, Operand;
    match e
    case ERef(x) => ReduceSettled(c, x);
    case EArray(items) => ReduceAllSettled(c, items);
    case EIif(x, a, b) => ReduceSettled(c, x); ReduceSettled(c, a); ReduceSettled(c, b);
    case EList(init, last) =>
      ReduceAllSettled(c, init);
      ReduceSettled(c, last);
      StripSettled(EList(ReduceAll(c, init), Reduce(c, last)));
    case EAt(b, i, _) => ReduceSettled(c, b); ReduceSettled(c, i);
    case ECall(_, args) => ReduceAllSettled(c, args);
    case ESend(o, _, _, ps) => ReduceSettled(c, o); ReduceAllSettled(c, ps);
    case EAlias(a, b) => ReduceSettled(c, a); ReduceSettled(c, b);
    case _ => OperatorSettled(c, e);
  }

  lemma {:induction false} OperatorSettled(c: Config, e: Expr)
    requires c.harbour && FlatReferences(c, e)
    requires !e.ERef? && !e.EArray? && !e.EIif? && !e.EList? && !e.EAt? && !e.ECall? && !e.ESend? && !e.EAlias?
    ensures Settled(Reduce(c, e))
    decreases e, 0
  {
    hide Strip, Operand;
    match e
    case EAssign(l, r) => ReduceSettled(c, l); ReduceSettled(c, r);
    case EOpEq(_, l, r) => ReduceSettled(c, l); ReduceSettled(c, r);
    case EStep(_, _, l) => ReduceSettled(c, l);
    case ELogic(_, a, b) => ReduceSettled(c, a); ReduceSettled(c, b);
    case ENot(x) => ReduceSettled(c, x);
    case ENeg(x) => ReduceSettled(c, x);
    case EBin(_, a, b) => ReduceSettled(c, a); ReduceSettled(c, b);
    case _ =>
  }

  lemma {:induction false} ReduceAllSettled(c: Config, es: Exprs)
    requires c.harbour && AllFlat(c, es)
    ensures AllSettled(ReduceAll(c, es))
    decreases es, 0
  {
    hide Settled, Reduce, FlatReferences;
    match es
    case ENone =>
    case EMore(e, t) => ReduceSettled(c, e); ReduceAllSettled(c, t);
  }

  // ---------------------------------------------------------------- a settled tree stays

  lemma {:induction false} SettledStays(c: Config, e: Expr)
    requires c.harbour && Settled(e)
    ensures Reduce(c, e) == e
    decreases e, 1
  {
    match e
    case ERef(x) => SettledStays(c, x);
    case EArray(items) => AllSettledStay(c, items);
    case EIif(x, a, b) => SettledStays(c, x); SettledStays(c, a); SettledStays(c, b);
    case EList(init, last) => AllSettledStay(c, init); SettledStays(c, last);
    case EAt(b, i, _) => SettledStays(c, b); SettledStays(c, i);
    case ECall(_, args) => AllSettledStay(c, args);
    case ESend(o, _, _, ps) => SettledStays(c, o); AllSettledStay(c, ps);
    case EAlias(a, b) => SettledStays(c, a); SettledStays(c, b);
    case _ => OperatorStays(c, e);
  }

  lemma {:induction false} OperatorStays(c: Config, e: Expr)
    requires c.harbour && Settled(e)
    requires !e.ERef? && !e.EArray? && !e.EIif? && !e.EList? && !e.EAt? && !e.ECall? && !e.ESend? && !e.EAlias?
    ensures Reduce(c, e) == e
    decreases e, 0
  {
    match e
    case EAssign(l, r) => SettledStays(c, l); SettledStays(c, r);
    case EOpEq(_, l, r) => SettledStays(c, l); SettledStays(c, r);
    case EStep(_, _, l) => SettledStays(c, l);
    case ELogic(_, a, b) => SettledStays(c, a); SettledStays(c, b);
    case ENot(x) => SettledStays(c, x);
    case ENeg(x) => SettledStays(c, x);
    case EBin(_, a, b) => SettledStays(c, a); SettledStays(c, b);
    case _ =>
  }

  lemma {:induction false} AllSettledStay(c: Config, es: Exprs)
    requires c.harbour && AllSettled(es)
    ensures ReduceAll(c, es) == es
    decreases es, 0
  {
    hide Settled, Reduce;
    match es
    case ENone =>
    case EMore(e, t) => SettledStays(c, e); AllSettledStay(c, t);
  }

  /** HB_EA_REDUCE on a reduced tree has nothing left to do. */
  lemma ReduceTwice(c: Config, e: Expr)
    requires c.harbour && FlatReferences(c, e)
    ensures Reduce(c, Reduce(c, e)) == Reduce(c, e)
  {
    ReduceSettled(c, e);
    SettledStays(c, Reduce(c, e));
  }

  /** A conditional in an arm of a conditional under a reference is left for a second reduction. */
  lemma NestedReferenceLeft(c: Config, p: string, q: string, a: string, b: string, d: string)
    requires c.harbour
    ensures var e := ERef(EIif(EVar(p), EIif(EVar(q), EVar(a), EVar(b)), EVar(d)));
      !FlatReferences(c, e) && Reduce(c, Reduce(c, e)) != Reduce(c, e)
  {
    var inner := EIif(EVar(q), EVar(a), EVar(b));
    assert Reduce(c, inner) == inner;
    var outer := EIif(EVar(p), inner, EVar(d));
    assert Reduce(c, outer) == outer;
    var once := EIif(EVar(p), ERef(inner), ERef(EVar(d)));
    assert Reduce(c, ERef(outer)) == once;
    assert Reduce(c, ERef(inner)) == EIif(EVar(q), ERef(EVar(a)), ERef(EVar(b)));
    assert Reduce(c, once).EIif? && Reduce(c, once).thn == Reduce(c, ERef(inner));
  }
}
