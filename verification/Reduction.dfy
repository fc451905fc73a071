/** HB_EA_REDUCE of assignments: `x := x op r` becomes `x op= r`. */
module Reduction {
  import opened Values
  import opened Expressions
  import opened Meaning
  import opened Correctness
  import opened FastForms
  import opened Untouched

  /** The guard of the rewrite. */
  predicate Rewritten(c: Config, l: Expr, r: Expr) {
    c.harbour && l.EVar? && r.EBin? && Compound(r.op) && r.left.EVar? && r.left.name == l.name
  }

  /** ExprType is at most HB_ET_VARIABLE: no operator. */
  predicate Simple(e: Expr) {
    !e.EAssign? && !e.EOpEq? && !e.EStep? && !e.ELogic? && !e.ENot? && !e.ENeg? && !e.EBin?
  }

  predicate Strippable(e: Expr) {
    e.EList? && e.init.ENone? && Simple(e.last) && !(e.last.ECall? && e.last.function_ == "HB_ARRAYTOPARAMS")
  }

  /** `( e )` becomes e. */
  function Strip(e: Expr): Expr {
    if Strippable(e) then Strip(e.last) else e
  }

  /** In Clipper mode the parentheses of a target are removed by the assignment itself. */
  function Bare(c: Config, l: Expr): Expr {
    if c.harbour then l else Strip(l)
  }

  /** `@iif( c, a, b )` becomes `iif( c, @a, @b )`; the new references are not reduced again. */
  function ReferTo(x: Expr): Expr {
    match x
    case EIif(q, a, b) => EIif(q, ERef(a), ERef(b))
    case _ => ERef(x)
  }

  function Reduce(c: Config, e: Expr): Expr {
    match e
    case ERef(x) => ReferTo(Reduce(c, x))
    case EArray(items) => EArray(ReduceAll(c, items))
    case EIif(x, a, b) => EIif(Reduce(c, x), Reduce(c, a), Reduce(c, b))
    case EList(init, last) =>
      var e1 := EList(ReduceAll(c, init), Reduce(c, last));
      if c.harbour then Strip(e1) else e1
    case EAt(b, i, byRef) => EAt(Reduce(c, b), Reduce(c, i), byRef)
    case ECall(f, args) => ECall(f, ReduceAll(c, args))
    case ESend(o, m, isCall, ps) => ESend(if c.harbour then Reduce(c, o) else o, m, isCall, ReduceAll(c, ps))
    case EAlias(a, b) => EAlias(Reduce(c, a), Reduce(c, b))
    case EAssign(l, r) =>
      var l1, r1 := Bare(c, Reduce(c, l)), Reduce(c, r);
      if Rewritten(c, l1, r1) then EOpEq(r1.op, l1, r1.right) else EAssign(l1, r1)
    case EOpEq(op, l, r) => EOpEq(op, Bare(c, Reduce(c, l)), Reduce(c, r))
    case EStep(up, pre, l) => EStep(up, pre, Bare(c, Reduce(c, l)))
    case ELogic(isAnd, a, b) => ELogic(isAnd, Reduce(c, a), Reduce(c, b))
    case ENot(x) => ENot(Reduce(c, x))
    case ENeg(x) => ENeg(Reduce(c, x))
    case EBin(op, a, b) => EBin(op, Reduce(c, a), Reduce(c, b))
    case _ => e
  }

  function ReduceAll(c: Config, es: Exprs): Exprs {
    match es
    case ENone => ENone
    case EMore(e, t) => EMore(Reduce(c, e), ReduceAll(c, t))
  }

  // ---------------------------------------------------------------- the reduction

  /** `x := x op r` means what the generic form of `x op= r` means, for every variable. */
  lemma SiteMeaning(w: World, c: Config, l: Expr, r: Expr, st: State)
    requires Rewritten(c, l, r)
    ensures Eval(w, c, EAssign(l, r), st) == GenericOpEq(w, c, EOpEq(r.op, l, r.right), st)
    ensures Effect(w, c, EAssign(l, r), st) == Drop(Eval(w, c, EAssign(l, r), st))
  {
    hide OperateItems;
    assert Eval(w, c, l, st) == Eval(w, c, r.left, st);
    match Eval(w, c, r, st)
    case Err(_) =>
    case Ok(v, st1) =>
      assert v.V? && Unref(w, v, st1) == Ok(v.value, st1);
      assert Store(w, c, l, v.value, st1).Ok? ==> Store(w, c, l, v.value, st1).value == ();
  }

  /** Where the rewrite keeps the meaning: fields and undeclared variables, which are compiled to the
      generic form, and other variables that the operand leaves alone. */
  predicate SiteSafe(c: Config, l: Expr, r: Expr, safe: set<string>) {
    Rewritten(c, l, r) ==> !Referenced(c.scope(l.name)) || (WellFormed(c, r.right) && Leaves(c, r.right, l.name, l.name in safe))
  }

  /** Functions and methods leave the variables of these names alone unless they get references. */
  ghost predicate RespectsAll(w: World, c: Config, safe: set<string>) {
    forall x :: x in safe ==> Respects(w, c, x)
  }

  lemma SiteReduced(w: World, c: Config, l: Expr, r: Expr, safe: set<string>, st: State)
    requires RespectsAll(w, c, safe)
    requires Rewritten(c, l, r) && SiteSafe(c, l, r, safe)
    ensures Eval(w, c, EOpEq(r.op, l, r.right), st) == Eval(w, c, EAssign(l, r), st)
    ensures Effect(w, c, EOpEq(r.op, l, r.right), st) == Effect(w, c, EAssign(l, r), st)
  {
    hide OperateItems;
    var e := EOpEq(r.op, l, r.right);
    SiteMeaning(w, c, l, r, st);
    if Referenced(c.scope(l.name)) {
      LeavesKeeps(w, c, r.right, l.name, l.name in safe, st);
      VariableOpEqRefines(w, c, e, st);
    }
    assert EvalOpEq(w, c, e, st) == GenericOpEq(w, c, e, st);
  }

  /** Every assignment that the reduction rewrites is a safe one. */
  predicate Reducible(c: Config, e: Expr, safe: set<string>) {
    match e
    case ERef(x) => Reducible(c, x, safe)
    case EArray(items) => ReducibleAll(c, items, safe)
    case EIif(x, a, b) => Reducible(c, x, safe) && Reducible(c, a, safe) && Reducible(c, b, safe)
    case EList(init, last) => ReducibleAll(c, init, safe) && Reducible(c, last, safe)
    case EAt(b, i, _) => Reducible(c, b, safe) && Reducible(c, i, safe)
    case ECall(_, args) => ReducibleAll(c, args, safe)
    case ESend(o, _, _, ps) => Reducible(c, o, safe) && ReducibleAll(c, ps, safe)
    case EAlias(a, b) => Reducible(c, a, safe) && Reducible(c, b, safe)
    case EAssign(l, r) => Reducible(c, l, safe) && Reducible(c, r, safe) && SiteSafe(c, Bare(c, Reduce(c, l)), Reduce(c, r), safe)
    case EOpEq(_, l, r) => Reducible(c, l, safe) && Reducible(c, r, safe)
    case EStep(_, _, l) => Reducible(c, l, safe)
    case ELogic(_, a, b) => Reducible(c, a, safe) && Reducible(c, b, safe)
    case ENot(x) => Reducible(c, x, safe)
    case ENeg(x) => Reducible(c, x, safe)
    case EBin(_, a, b) => Reducible(c, a, safe) && Reducible(c, b, safe)
    case _ => true
  }

  predicate ReducibleAll(c: Config, es: Exprs, safe: set<string>) {
    match es
    case ENone => true
    case EMore(e, t) => Reducible(c, e, safe) && ReducibleAll(c, t, safe)
  }

  /** Reduction preserves meaning, both of the value and of evaluation for effect, for a whole tree. */
  lemma {:induction false} ReduceMeaning(w: World, c: Config, e: Expr, safe: set<string>, st: State)
    requires RespectsAll(w, c, safe)
    requires WellFormed(c, e) && Reducible(c, e, safe)
    ensures Eval(w, c, Reduce(c, e), st) == Eval(w, c, e, st)
    ensures Effect(w, c, Reduce(c, e), st) == Effect(w, c, e, st)
    decreases e, 5
  {
    hide Eval, Effect, WellFormed, Reducible, Reduce, RespectsAll;
    match e
    case ERef(_) => ReduceRef(w, c, e, safe, st);
    case EArray(_) => ReduceItems(w, c, e, safe, st);
    case ECall(_, _) => ReduceItems(w, c, e, safe, st);
    case ESend(_, _, _, _) => ReduceItems(w, c, e, safe, st);
    case EIif(_, _, _) => ReduceIif(w, c, e, safe, st);
    case EList(_, _) => ReduceList(w, c, e, safe, st);
    case EAt(_, _, _) => ReducePair(w, c, e, safe, st);
    case EAlias(_, _) => ReduceAlias(w, c, e, safe, st);
    case EAssign(_, _) => ReduceAssign(w, c, e, safe, st);
    case EOpEq(_, _, _) => ReduceOpEq(w, c, e, safe, st);
    case EStep(_, _, _) => ReduceUnary(w, c, e, safe, st);
    case ELogic(_, _, _) => ReducePair(w, c, e, safe, st);
    case ENot(_) => ReduceUnary(w, c, e, safe, st);
    case ENeg(_) => ReduceUnary(w, c, e, safe, st);
    case EBin(_, _, _) => ReducePair(w, c, e, safe, st);
    case _ => ReduceLeaf(c, e);
  }

  lemma ReduceLeaf(c: Config, e: Expr)
    requires e.ENil? || e.ENum? || e.EStr? || e.ELog? || e.EVar? || e.EVarRef?
    ensures Reduce(c, e) == e
  {
  }

  lemma {:induction false} ReducePair(w: World, c: Config, e: Expr, safe: set<string>, st: State)
    requires RespectsAll(w, c, safe)
    requires (e.EAt? || e.ELogic? || e.EBin?) && WellFormed(c, e) && Reducible(c, e, safe)
    ensures Eval(w, c, Reduce(c, e), st) == Eval(w, c, e, st)
    ensures Effect(w, c, Reduce(c, e), st) == Effect(w, c, e, st)
    decreases e, 4
  {
    hide RespectsAll, Element, LocateElement, OperateItems, Logical;
    match e
    case EAt(b, i, _) => ReduceBoth(w, c, b, i, e, safe, st);
    case ELogic(_, a, b) => ReduceBoth(w, c, a, b, e, safe, st);
    case EBin(_, a, b) => ReduceBoth(w, c, a, b, e, safe, st);
  }

  lemma {:induction false} ReduceUnary(w: World, c: Config, e: Expr, safe: set<string>, st: State)
    requires RespectsAll(w, c, safe)
    requires (e.EStep? || e.ENot? || e.ENeg?) && WellFormed(c, e) && Reducible(c, e, safe)
    ensures Eval(w, c, Reduce(c, e), st) == Eval(w, c, e, st)
    ensures Effect(w, c, Reduce(c, e), st) == Effect(w, c, e, st)
    decreases e, 4
  {
    hide RespectsAll, EvalStep, Inverted;
    match e
    case EStep(up, pre, l) =>
      ReduceTarget(c, l);
      ReduceStep(w, c, up, pre, l, safe, st);
      ReduceStep(w, c, up, true, l, safe, st);
    case ENot(x) => ReduceMeaning(w, c, x, safe, st);
    case ENeg(x) => ReduceMeaning(w, c, x, safe, st);
  }

  /** What can be referred to keeps its kind. */
  lemma {:induction false} ReduceReferable(c: Config, x: Expr)
    requires Referable(c, x) && WellFormed(c, x)
    ensures Referable(c, Reduce(c, x)) && (x.EVar? ==> Reduce(c, x) == x)
    ensures Reduce(c, x).EVarRef? == x.EVarRef? && Reduce(c, x).ERef? == x.ERef?
    ensures Reduce(c, x).EAt? == x.EAt? && Reduce(c, x).ESend? == x.ESend?
  {
    if x.ERef? { ReduceReferable(c, x.operand); }
  }

  lemma {:induction false} ReduceRef(w: World, c: Config, e: Expr, safe: set<string>, st: State)
    requires RespectsAll(w, c, safe)
    requires e.ERef? && WellFormed(c, e) && Reducible(c, e, safe)
    ensures Eval(w, c, Reduce(c, e), st) == Eval(w, c, e, st)
    ensures Effect(w, c, Reduce(c, e), st) == Effect(w, c, e, st)
    decreases e, 4
  {
    hide RespectsAll, Refer, WellFormed, Referable;
    RefParts(c, e);
    ReduceReferable(c, e.operand);
    ReduceRefer(w, c, e.operand, safe, st);
    assert Reduce(c, e) == ERef(Reduce(c, e.operand));
  }

  lemma RefParts(c: Config, e: Expr)
    requires e.ERef? && WellFormed(c, e)
    ensures Referable(c, e.operand) && WellFormed(c, e.operand) && !e.operand.EIif?
    ensures var x := e.operand; x.EVar? || x.EVarRef? || x.ERef? || x.EAt? || x.ESend?
  {
  }

  lemma {:induction false} ReduceRefer(w: World, c: Config, x: Expr, safe: set<string>, st: State)
    requires RespectsAll(w, c, safe) && Referable(c, x) && WellFormed(c, x) && Reducible(c, x, safe)
    ensures Refer(w, c, Reduce(c, x), st) == Refer(w, c, x, st)
    ensures !Reduce(c, x).EIif?
    decreases x, 6
  {
    hide RespectsAll, LocateElement, MessageReference, VarReference;
    ReduceReferable(c, x);
    match x
    case EAt(b, i, _) => ReduceBoth(w, c, b, i, x, safe, st);
    case ESend(o, _, _, _) => ReduceMeaning(w, c, o, safe, st);
    case ERef(_) => ReduceMeaning(w, c, x, safe, st);
    case _ =>
  }

  /** Two operands in sequence, in every combination of the two modes. */
  lemma {:induction false} ReduceBoth(w: World, c: Config, a: Expr, b: Expr, whole: Expr, safe: set<string>, st: State)
    requires RespectsAll(w, c, safe)
    requires a < whole && b < whole
    requires WellFormed(c, a) && Reducible(c, a, safe) && WellFormed(c, b) && Reducible(c, b, safe)
    ensures Eval(w, c, Reduce(c, a), st) == Eval(w, c, a, st) && Effect(w, c, Reduce(c, a), st) == Effect(w, c, a, st)
    ensures var st1 := Eval(w, c, a, st).state;
      Eval(w, c, Reduce(c, b), st1) == Eval(w, c, b, st1) && Effect(w, c, Reduce(c, b), st1) == Effect(w, c, b, st1)
    ensures var st1 := Effect(w, c, a, st).state; Effect(w, c, Reduce(c, b), st1) == Effect(w, c, b, st1)
    decreases whole, 2
  {
    hide Eval, Effect, WellFormed, Reducible, Reduce;
    ReduceMeaning(w, c, a, safe, st);
    ReduceMeaning(w, c, b, safe, Eval(w, c, a, st).state);
    ReduceMeaning(w, c, b, safe, Effect(w, c, a, st).state);
  }

  lemma {:induction false} ReduceAllMeaning(w: World, c: Config, es: Exprs, safe: set<string>, st: State)
    requires RespectsAll(w, c, safe)
    requires WellFormedAll(c, es) && ReducibleAll(c, es, safe)
    ensures EvalAll(w, c, ReduceAll(c, es), st) == EvalAll(w, c, es, st)
    ensures EffectAll(w, c, ReduceAll(c, es), st) == EffectAll(w, c, es, st)
    decreases es, 0
  {
    hide Eval, Effect, WellFormed, Reducible, Reduce;
    match es
    case ENone =>
    case EMore(e, t) =>
      ReduceMeaning(w, c, e, safe, st);
      ReduceAllMeaning(w, c, t, safe, Eval(w, c, e, st).state);
      ReduceAllMeaning(w, c, t, safe, Effect(w, c, e, st).state);
  }

  lemma {:induction false} ReduceItems(w: World, c: Config, e: Expr, safe: set<string>, st: State)
    requires RespectsAll(w, c, safe)
    requires e.EArray? || e.ECall? || e.ESend?
    requires WellFormed(c, e) && Reducible(c, e, safe)
    ensures Eval(w, c, Reduce(c, e), st) == Eval(w, c, e, st)
    ensures Effect(w, c, Reduce(c, e), st) == Effect(w, c, e, st)
    decreases e, 4
  {
    hide NewArray, CallFunction, SendItem;
    match e
    case EArray(items) => ReduceAllMeaning(w, c, items, safe, st);
    case ECall(_, args) => ReduceAllMeaning(w, c, args, safe, st);
    case ESend(o, _, _, ps) =>
      ReduceMeaning(w, c, o, safe, st);
      ReduceAllMeaning(w, c, ps, safe, Eval(w, c, o, st).state);
  }

  lemma {:induction false} ReduceIif(w: World, c: Config, e: Expr, safe: set<string>, st: State)
    requires RespectsAll(w, c, safe)
    requires e.EIif? && WellFormed(c, e) && Reducible(c, e, safe)
    ensures Eval(w, c, Reduce(c, e), st) == Eval(w, c, e, st)
    ensures Effect(w, c, Reduce(c, e), st) == Effect(w, c, e, st)
    decreases e, 4
  {
    ReduceMeaning(w, c, e.cond, safe, st);
    var st1 := Eval(w, c, e.cond, st).state;
    ReduceMeaning(w, c, e.thn, safe, st1);
    ReduceMeaning(w, c, e.els, safe, st1);
  }

  lemma {:induction false} ReduceList(w: World, c: Config, e: Expr, safe: set<string>, st: State)
    requires RespectsAll(w, c, safe)
    requires e.EList? && WellFormed(c, e) && Reducible(c, e, safe)
    ensures Eval(w, c, Reduce(c, e), st) == Eval(w, c, e, st)
    ensures Effect(w, c, Reduce(c, e), st) == Effect(w, c, e, st)
    decreases e, 4
  {
    ReduceAllMeaning(w, c, e.init, safe, st);
    ReduceMeaning(w, c, e.last, safe, EffectAll(w, c, e.init, st).state);
    StripMeaning(w, c, EList(ReduceAll(c, e.init), Reduce(c, e.last)), st);
  }

  /** Parentheses mean nothing. */
  lemma {:induction false} StripMeaning(w: World, c: Config, e: Expr, st: State)
    ensures Eval(w, c, Strip(e), st) == Eval(w, c, e, st)
    ensures Effect(w, c, Strip(e), st) == Effect(w, c, e, st)
  {
    if Strippable(e) {
      assert EffectAll(w, c, ENone, st) == Ok((), st);
      StripMeaning(w, c, e.last, st);
    }
  }

  lemma {:induction false} ReduceAlias(w: World, c: Config, e: Expr, safe: set<string>, st: State)
    requires RespectsAll(w, c, safe)
    requires e.EAlias? && WellFormed(c, e) && Reducible(c, e, safe)
    ensures Eval(w, c, Reduce(c, e), st) == Eval(w, c, e, st)
    ensures Effect(w, c, Reduce(c, e), st) == Effect(w, c, e, st)
    decreases e, 4
  {
    hide SelectArea, SelectNumber;
    ReduceMeaning(w, c, e.alias, safe, st);
    var o := Eval(w, c, e.alias, st);
    if o.Ok? { ReduceMeaning(w, c, e.body, safe, SelectArea(w, o.value, o.state)); }
  }

  /** Reduction keeps the kind of a target. */
  lemma {:induction false} ReduceTarget(c: Config, l: Expr)
    requires Target(c, l)
    ensures Target(c, Reduce(c, l))
    ensures l.EVar? ==> Reduce(c, l) == l
    ensures Reduce(c, l).EAt? == l.EAt? && Reduce(c, l).ESend? == l.ESend? && Reduce(c, l).EIif? == l.EIif?
    ensures l.ESend? ==> Reduce(c, l).message == l.message && Reduce(c, l).object_ == if c.harbour then Reduce(c, l.object_) else l.object_
    ensures Bare(c, Reduce(c, l)) == Reduce(c, l)
    ensures UpdatesByRef(c, Reduce(c, l)) == UpdatesByRef(c, l) && StepsByRef(c, Reduce(c, l)) == StepsByRef(c, l)
  {
    match l
    case EIif(_, a, b) => ReduceTarget(c, a); ReduceTarget(c, b);
    case _ =>
  }

  lemma {:induction false} ReduceStore(w: World, c: Config, l: Expr, v: Value, safe: set<string>, st: State)
    requires RespectsAll(w, c, safe)
    requires Target(c, l) && WellFormed(c, l) && Reducible(c, l, safe)
    ensures Store(w, c, Reduce(c, l), v, st) == Store(w, c, l, v, st)
    decreases l, 6
  {
    hide StoreElement, SendItem;
    ReduceTarget(c, l);
    match l
    case EVar(_) =>
    case EAt(b, i, _) => ReduceBoth(w, c, b, i, l, safe, st);
    case ESend(o, _, _, _) => ReduceMeaning(w, c, o, safe, st);
    case EIif(x, a, b) =>
      ReduceMeaning(w, c, x, safe, st);
      var st1 := Eval(w, c, x, st).state;
      ReduceStore(w, c, a, v, safe, st1);
      ReduceStore(w, c, b, v, safe, st1);
  }

  lemma {:induction false} ReduceLocate(w: World, c: Config, l: Expr, safe: set<string>, st: State)
    requires RespectsAll(w, c, safe)
    requires Target(c, l) && WellFormed(c, l) && Reducible(c, l, safe)
    ensures Locate(w, c, Reduce(c, l), st) == Locate(w, c, l, st)
    decreases l, 6
  {
    hide LocateElement;
    match l
    case EVar(_) =>
    case EAt(b, i, _) => ReduceBoth(w, c, b, i, l, safe, st);
    case ESend(o, _, _, _) => ReduceMeaning(w, c, o, safe, st);
    case EIif(_, _, _) =>
  }

  lemma {:induction false} ReduceAccess(w: World, c: Config, l: Expr, safe: set<string>, st: State)
    requires RespectsAll(w, c, safe)
    requires l.ESend? && Target(c, l) && WellFormed(c, l) && Reducible(c, l, safe)
    ensures AccessPair(w, c, Reduce(c, l), st) == AccessPair(w, c, l, st)
    decreases l, 6
  {
    hide SendItem;
    ReduceMeaning(w, c, l.object_, safe, st);
    ReduceMeaning(w, c, l.object_, safe, Eval(w, c, l.object_, st).state);
  }

  lemma {:induction false} ReduceAssign(w: World, c: Config, e: Expr, safe: set<string>, st: State)
    requires RespectsAll(w, c, safe)
    requires e.EAssign? && WellFormed(c, e) && Reducible(c, e, safe)
    ensures Eval(w, c, Reduce(c, e), st) == Eval(w, c, e, st)
    ensures Effect(w, c, Reduce(c, e), st) == Effect(w, c, e, st)
    decreases e, 4
  {
    hide Store, SendItem, Unref, Rewritten;
    var EAssign(l, r) := e;
    var l1, r1 := Reduce(c, l), Reduce(c, r);
    ReduceTarget(c, l);
    ReducedAssign(w, c, l, r, e, safe, st);
    if Rewritten(c, l1, r1) { SiteReduced(w, c, l1, r1, safe, st); }
  }

  /** Reducing the two sides of an assignment. */
  lemma {:induction false} ReducedAssign(w: World, c: Config, l: Expr, r: Expr, whole: Expr, safe: set<string>, st: State)
    requires RespectsAll(w, c, safe)
    requires l < whole && r < whole
    requires Target(c, l) && WellFormed(c, l) && WellFormed(c, r) && Reducible(c, l, safe) && Reducible(c, r, safe)
    ensures Eval(w, c, EAssign(Reduce(c, l), Reduce(c, r)), st) == Eval(w, c, EAssign(l, r), st)
    ensures Effect(w, c, EAssign(Reduce(c, l), Reduce(c, r)), st) == Effect(w, c, EAssign(l, r), st)
    decreases whole, 3, 1
  {
    hide Store, SendItem, Unref, Reduce, Reducible;
    ReduceTarget(c, l);
    ReducedEvalAssign(w, c, l, r, whole, safe, st);
    if !l.ESend? {
      ReduceMeaning(w, c, r, safe, st);
      var o := Eval(w, c, r, st);
      if o.Ok? && o.value.V? { ReduceStore(w, c, l, o.value.value, safe, o.state); }
    }
  }

  lemma {:induction false} ReducedEvalAssign(w: World, c: Config, l: Expr, r: Expr, whole: Expr, safe: set<string>, st: State)
    requires RespectsAll(w, c, safe)
    requires l < whole && r < whole
    requires Target(c, l) && WellFormed(c, l) && WellFormed(c, r) && Reducible(c, l, safe) && Reducible(c, r, safe)
    ensures EvalAssign(w, c, EAssign(Reduce(c, l), Reduce(c, r)), st) == EvalAssign(w, c, EAssign(l, r), st)
    decreases whole, 3, 0
  {
    hide Store, SendItem, Unref, Reduce, Reducible, Eval, WellFormed;
    ReduceTarget(c, l);
    if l.ESend? {
      SendParts(c, l, safe);
      ReduceBoth(w, c, l.object_, r, whole, safe, st);
    } else {
      ReduceMeaning(w, c, r, safe, st);
      match Eval(w, c, r, st)
      case Err(_) =>
      case Ok(rv, st1) =>
        match Unref(w, rv, st1)
        case Err(_) =>
        case Ok(v, st2) => ReduceStore(w, c, l, v, safe, st2);
    }
  }

  lemma SendParts(c: Config, l: Expr, safe: set<string>)
    requires l.ESend? && WellFormed(c, l) && Reducible(c, l, safe)
    ensures WellFormed(c, l.object_) && Reducible(c, l.object_, safe)
  {
  }

  lemma {:induction false} ReduceOpEq(w: World, c: Config, e: Expr, safe: set<string>, st: State)
    requires RespectsAll(w, c, safe)
    requires e.EOpEq? && WellFormed(c, e) && Reducible(c, e, safe)
    ensures Eval(w, c, Reduce(c, e), st) == Eval(w, c, e, st)
    ensures Effect(w, c, Reduce(c, e), st) == Effect(w, c, e, st)
    decreases e, 4
  {
    hide Store, Locate, AccessPair, OperateRef, OperateItems, SendItem, UpdatesByRef;
    var EOpEq(op, l, r) := e;
    ReduceTarget(c, l);
    if UpdatesByRef(c, l) {
      ReduceLocate(w, c, l, safe, st);
      ReduceMeaning(w, c, r, safe, Locate(w, c, l, st).state);
    } else if l.ESend? {
      ReduceAccess(w, c, l, safe, st);
      ReduceMeaning(w, c, r, safe, AccessPair(w, c, l, st).state);
    } else {
      ReduceGeneric(w, c, e, safe, st);
      var e1 := Reduce(c, e);
      assert EvalOpEq(w, c, e, st) == GenericOpEq(w, c, e, st);
      assert EvalOpEq(w, c, e1, st) == GenericOpEq(w, c, e1, st);
    }
  }

  lemma {:induction false} ReduceGeneric(w: World, c: Config, e: Expr, safe: set<string>, st: State)
    requires RespectsAll(w, c, safe)
    requires e.EOpEq? && WellFormed(c, e) && Reducible(c, e, safe)
    ensures GenericOpEq(w, c, EOpEq(e.op, Reduce(c, e.target), Reduce(c, e.source)), st) == GenericOpEq(w, c, e, st)
    decreases e, 3
  {
    hide Store, OperateItems;
    var EOpEq(op, l, r) := e;
    ReduceBoth(w, c, l, r, e, safe, st);
    var o := EvalPair(w, c, l, r, st);
    if o.Ok? {
      var v := OperateItems(w, op, o.value.0, o.value.1);
      if v.Some? { ReduceStore(w, c, l, v.value, safe, o.state); }
    }
  }

  lemma {:induction false} ReduceStep(w: World, c: Config, up: bool, pre: bool, l: Expr, safe: set<string>, st: State)
    requires RespectsAll(w, c, safe)
    requires Target(c, l) && WellFormed(c, l) && Reducible(c, l, safe)
    ensures EvalStep(w, c, up, pre, Reduce(c, l), st) == EvalStep(w, c, up, pre, l, st)
    decreases l, 8
  {
    hide Locate, StepMessage, AccessPair, StepRef, ReadRef, SendItem, StepsByRef, Step, Reduce, Reducible;
    ReduceTarget(c, l);
    var l1 := Reduce(c, l);
    if StepsByRef(c, l) {
      ReduceLocate(w, c, l, safe, st);
    } else if l.ESend? {
      ReduceMeaning(w, c, l, safe, st);
      ReduceAccess(w, c, l, safe, st);
      ReduceStepMessage(w, c, up, l, safe, st);
      ReduceStepMessage(w, c, up, l, safe, Eval(w, c, l, st).state);
    } else {
      ReduceGenericStep(w, c, up, pre, l, safe, st);
      assert EvalStep(w, c, up, pre, l, st) == GenericStep(w, c, up, pre, l, st);
      assert EvalStep(w, c, up, pre, l1, st) == GenericStep(w, c, up, pre, l1, st);
    }
  }

  lemma {:induction false} ReduceStepMessage(w: World, c: Config, up: bool, l: Expr, safe: set<string>, st: State)
    requires RespectsAll(w, c, safe)
    requires l.ESend? && Target(c, l) && WellFormed(c, l) && Reducible(c, l, safe)
    ensures StepMessage(w, c, up, Reduce(c, l), st) == StepMessage(w, c, up, l, st)
    decreases l, 7
  {
    hide SendItem, AccessPair, StepItem;
    ReduceAccess(w, c, l, safe, st);
  }

  lemma {:induction false} ReduceGenericStep(w: World, c: Config, up: bool, pre: bool, l: Expr, safe: set<string>, st: State)
    requires RespectsAll(w, c, safe)
    requires Target(c, l) && WellFormed(c, l) && Reducible(c, l, safe)
    ensures GenericStep(w, c, up, pre, Reduce(c, l), st) == GenericStep(w, c, up, pre, l, st)
    decreases l, 7
  {
    hide Store, StepItem, Eval, Reduce, Reducible, WellFormed;
    ReduceMeaning(w, c, l, safe, st);
    var o := Eval(w, c, l, st);
    if o.Ok? {
      var v := StepItem(up, o.value);
      if v.Some? { ReduceStore(w, c, l, v.value, safe, o.state); }
    }
  }

  lemma SiteForm(c: Config, x: string, i: nat)
    requires c.harbour && c.scope(x) == Local(i)
    ensures var v, five := EVar(x), EAssign(EVar(x), ENum(5));
      Reduce(c, EAssign(v, EBin(Plus, v, five))) == EOpEq(Plus, v, five)
  {
    var v, five := EVar(x), EAssign(EVar(x), ENum(5));
    assert Reduce(c, v) == v && Reduce(c, five) == five;
    assert Reduce(c, EBin(Plus, v, five)) == EBin(Plus, v, five);
  }

  lemma FiveStored(w: World, c: Config, x: string, i: nat, st: State)
    requires c.scope(x) == Local(i)
    ensures Eval(w, c, EAssign(EVar(x), ENum(5)), st) == Ok(V(Num(5.0)), PutLocal(i, Num(5.0), st))
  {
    assert Eval(w, c, ENum(5), st) == Ok(V(Num(5.0)), st);
    assert Store(w, c, EVar(x), Num(5.0), st) == Ok((), PutLocal(i, Num(5.0), st));
    assert EvalAssign(w, c, EAssign(EVar(x), ENum(5)), st) == Ok(V(Num(5.0)), PutLocal(i, Num(5.0), st));
  }

  lemma OldValueAdded(w: World, c: Config, x: string, i: nat, st: State)
    requires c.scope(x) == Local(i) && ReadLocal(i, st) == Num(1.0)
    ensures var o := Eval(w, c, EAssign(EVar(x), EBin(Plus, EVar(x), EAssign(EVar(x), ENum(5)))), st);
      o.Ok? && o.value == V(Num(6.0))
  {
    var v, five := EVar(x), EAssign(EVar(x), ENum(5));
    var st1 := PutLocal(i, Num(5.0), st);
    FiveStored(w, c, x, i, st);
    assert Eval(w, c, v, st) == Ok(V(Num(1.0)), st);
    assert Eval(w, c, EBin(Plus, v, five), st) == Ok(V(Num(6.0)), st1);
    assert Store(w, c, v, Num(6.0), st1) == Ok((), PutLocal(i, Num(6.0), st1));
  }

  lemma NewValueAdded(w: World, c: Config, x: string, i: nat, st: State)
    requires c.harbour && c.scope(x) == Local(i)
    ensures var o := Eval(w, c, EOpEq(Plus, EVar(x), EAssign(EVar(x), ENum(5))), st);
      o.Ok? && o.value == V(Num(10.0))
  {
    var v, five := EVar(x), EAssign(EVar(x), ENum(5));
    var st1 := PutLocal(i, Num(5.0), st);
    FiveStored(w, c, x, i, st);
    assert Locate(w, c, v, st) == Ok(LocalRef(i), st);
    assert EvalOpEq(w, c, EOpEq(Plus, v, five), st) == AsItem(OperateRef(w, Plus, LocalRef(i), V(Num(5.0)), st1));
  }

  /** A referenced variable that the operand does change: `x := x + ( x := 5 )` adds the old value,
      the reduced `x += ( x := 5 )` the new one. */
  lemma ReductionNeedsCare(w: World, c: Config, x: string, i: nat, safe: set<string>, st: State)
    requires c.harbour && c.scope(x) == Local(i) && ReadLocal(i, st) == Num(1.0)
    ensures var e := EAssign(EVar(x), EBin(Plus, EVar(x), EAssign(EVar(x), ENum(5))));
      && !Reducible(c, e, safe)
      && Eval(w, c, e, st).Ok? && Eval(w, c, e, st).value == V(Num(6.0))
      && Eval(w, c, Reduce(c, e), st).Ok? && Eval(w, c, Reduce(c, e), st).value == V(Num(10.0))
  {
    hide Reducible, Eval;
    NotReducible(c, x, i, safe);
    OldValueAdded(w, c, x, i, st);
    NewValueAdded(w, c, x, i, st);
    SiteForm(c, x, i);
  }

  lemma NotReducible(c: Config, x: string, i: nat, safe: set<string>)
    requires c.harbour && c.scope(x) == Local(i)
    ensures var e := EAssign(EVar(x), EBin(Plus, EVar(x), EAssign(EVar(x), ENum(5))));
      !Reducible(c, e, safe) && Reduce(c, e) == EOpEq(Plus, EVar(x), EAssign(EVar(x), ENum(5)))
  {
    var five := EAssign(EVar(x), ENum(5));
    assert Reduce(c, five) == five;
    assert Reduce(c, EBin(Plus, EVar(x), five)) == EBin(Plus, EVar(x), five);
    assert !LeavesTarget(c, EVar(x), x, x in safe);
    assert !Leaves(c, five, x, x in safe);
    assert !SiteSafe(c, EVar(x), EBin(Plus, EVar(x), five), safe);
  }

  // ---------------------------------------------------------------- what reaches code generation

  lemma {:induction false} StripWellFormed(c: Config, e: Expr)
    requires WellFormed(c, e)
    ensures WellFormed(c, Strip(e)) && (YieldsRef(Strip(e)) <==> YieldsRef(e))
  {
    if Strippable(e) { StripWellFormed(c, e.last); }
  }

  /** The reduced tree can be compiled. */
  lemma {:induction false} ReduceWellFormed(c: Config, e: Expr)
    requires WellFormed(c, e)
    ensures WellFormed(c, Reduce(c, e)) && (YieldsRef(Reduce(c, e)) ==> YieldsRef(e))
    decreases e, 2
  {
    hide WellFormed, YieldsRef, Reduce;
    match e
    case ERef(x) => ReduceRefFormed(c, e);
    case EArray(_) => ReduceItemsFormed(c, e);
    case ECall(_, _) => ReduceItemsFormed(c, e);
    case ESend(_, _, _, _) => ReduceItemsFormed(c, e);
    case EIif(_, _, _) => ReduceIifFormed(c, e);
    case EList(_, _) => ReduceListFormed(c, e);
    case EAssign(_, _) => ReduceTargetFormed(c, e);
    case EOpEq(_, _, _) => ReduceTargetFormed(c, e);
    case EStep(_, _, _) => ReduceTargetFormed(c, e);
    case EAt(b, i, _) => ReduceOperandsFormed(c, e, b, i);
    case EAlias(a, b) => ReduceOperandsFormed(c, e, a, b);
    case ELogic(_, a, b) => ReduceOperandsFormed(c, e, a, b);
    case EBin(_, a, b) => ReduceOperandsFormed(c, e, a, b);
    case ENot(x) => ReduceOperandsFormed(c, e, x, ENil);
    case ENeg(x) => ReduceOperandsFormed(c, e, x, ENil);
    case _ => ReduceLeaf(c, e);
  }

  lemma {:induction false} ReduceRefFormed(c: Config, e: Expr)
    requires e.ERef? && WellFormed(c, e)
    ensures WellFormed(c, Reduce(c, e)) && (YieldsRef(Reduce(c, e)) ==> YieldsRef(e))
    decreases e, 1
  {
    ReduceReferable(c, e.operand);
    ReduceWellFormed(c, e.operand);
  }

  lemma {:induction false} ReduceItemsFormed(c: Config, e: Expr)
    requires (e.EArray? || e.ECall? || e.ESend?) && WellFormed(c, e)
    ensures WellFormed(c, Reduce(c, e)) && (YieldsRef(Reduce(c, e)) ==> YieldsRef(e))
    decreases e, 1
  {
    match e
    case EArray(items) => ReduceAllWellFormed(c, items);
    case ECall(_, args) => ReduceAllWellFormed(c, args);
    case ESend(o, _, _, ps) => ReduceWellFormed(c, o); ReduceAllWellFormed(c, ps);
  }

  lemma {:induction false} ReduceIifFormed(c: Config, e: Expr)
    requires e.EIif? && WellFormed(c, e)
    ensures WellFormed(c, Reduce(c, e)) && (YieldsRef(Reduce(c, e)) ==> YieldsRef(e))
    decreases e, 1
  {
    ReduceWellFormed(c, e.cond);
    ReduceWellFormed(c, e.thn);
    ReduceWellFormed(c, e.els);
  }

  lemma {:induction false} ReduceListFormed(c: Config, e: Expr)
    requires e.EList? && WellFormed(c, e)
    ensures WellFormed(c, Reduce(c, e)) && (YieldsRef(Reduce(c, e)) ==> YieldsRef(e))
    decreases e, 1
  {
    ReduceAllWellFormed(c, e.init);
    ReduceWellFormed(c, e.last);
    StripWellFormed(c, EList(ReduceAll(c, e.init), Reduce(c, e.last)));
  }

  lemma {:induction false} ReduceTargetFormed(c: Config, e: Expr)
    requires (e.EAssign? || e.EOpEq? || e.EStep?) && WellFormed(c, e)
    ensures WellFormed(c, Reduce(c, e)) && (YieldsRef(Reduce(c, e)) ==> YieldsRef(e))
    decreases e, 1
  {
    hide Compound;
    ReduceTarget(c, e.target);
    ReduceWellFormed(c, e.target);
    if !e.EStep? { ReduceWellFormed(c, e.source); }
  }

  /** The operands of an expression that is neither a list nor a conditional and stores nothing. */
  predicate Operands(e: Expr, a: Expr, b: Expr) {
    match e
    case EAt(x, y, _) => a == x && b == y
    case EAlias(x, y) => a == x && b == y
    case ELogic(_, x, y) => a == x && b == y
    case EBin(_, x, y) => a == x && b == y
    case ENot(x) => a == x && b == ENil
    case ENeg(x) => a == x && b == ENil
    case _ => false
  }

  lemma {:induction false} ReduceOperandsFormed(c: Config, e: Expr, a: Expr, b: Expr)
    requires Operands(e, a, b) && WellFormed(c, e)
    ensures WellFormed(c, Reduce(c, e)) && (YieldsRef(Reduce(c, e)) ==> YieldsRef(e))
    decreases e, 1
  {
    ReduceWellFormed(c, a);
    if !e.ENot? && !e.ENeg? { ReduceWellFormed(c, b); }
  }

  lemma {:induction false} ReduceAllWellFormed(c: Config, es: Exprs)
    requires WellFormedAll(c, es)
    ensures WellFormedAll(c, ReduceAll(c, es))
    decreases es, 0
  {
    match es
    case ENone =>
    case EMore(e, t) => ReduceWellFormed(c, e); ReduceAllWellFormed(c, t);
  }
}
