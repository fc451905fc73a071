/** Expressions that leave a variable alone, by their text and, for calls, by what functions and
    methods do. */
module Untouched {
  import opened Values
  import opened Expressions
  import opened Meaning
  import opened Correctness

  /** Where an assignment to a variable goes. */
  datatype Cell = LocalCell(index: int) | StaticCell(number: nat) | MemvarCell(memvar: string) | FieldCell(field: string)

  function CellOf(c: Config, name: string): Cell {
    match c.scope(name)
    case Local(i) => LocalCell(i)
    case Detached(i) => LocalCell(-(i as int))
    case Static(i) => StaticCell(i)
    case Field => FieldCell(name)
    case _ => MemvarCell(name)
  }

  /** No reference and no assignment to the cell of x; calls and messages, with values as arguments,
      only if they are allowed. */
  predicate Leaves(c: Config, e: Expr, x: string, calls: bool)
    decreases e, 1
  {
    match e
    case EVarRef(_) => false
    case ERef(_) => false
    case EArray(items) => LeavesAll(c, items, x, calls)
    case EIif(a, b, d) => Leaves(c, a, x, calls) && Leaves(c, b, x, calls) && Leaves(c, d, x, calls)
    case EList(init, last) => LeavesAll(c, init, x, calls) && Leaves(c, last, x, calls)
    case EAt(b, i, byRef) => !byRef && Leaves(c, b, x, calls) && Leaves(c, i, x, calls)
    case ECall(_, args) => calls && LeavesAll(c, args, x, calls)
    case ESend(o, _, _, ps) => calls && Leaves(c, o, x, calls) && LeavesAll(c, ps, x, calls)
    case EAlias(a, b) => Leaves(c, a, x, calls) && Leaves(c, b, x, calls)
    case EAssign(l, r) => LeavesTarget(c, l, x, calls) && Leaves(c, r, x, calls)
    case EOpEq(_, l, r) => LeavesTarget(c, l, x, calls) && Leaves(c, r, x, calls)
    case EStep(_, _, l) => LeavesTarget(c, l, x, calls)
    case ELogic(_, a, b) => Leaves(c, a, x, calls) && Leaves(c, b, x, calls)
    case ENot(a) => Leaves(c, a, x, calls)
    case ENeg(a) => Leaves(c, a, x, calls)
    case EBin(_, a, b) => Leaves(c, a, x, calls) && Leaves(c, b, x, calls)
    case _ => true
  }

  predicate LeavesAll(c: Config, es: Exprs, x: string, calls: bool)
    decreases es, 0
  {
    match es
    case ENone => true
    case EMore(e, t) => Leaves(c, e, x, calls) && LeavesAll(c, t, x, calls)
  }

  predicate LeavesTarget(c: Config, l: Expr, x: string, calls: bool)
    decreases l, 2
  {
    match l
    case EVar(n) => CellOf(c, n) != CellOf(c, x)
    case EAt(_, _, _) => Leaves(c, l, x, calls)
    case EIif(a, b, d) => Leaves(c, a, x, calls) && LeavesTarget(c, b, x, calls) && LeavesTarget(c, d, x, calls)
    case ESend(o, _, _, _) => calls && Leaves(c, o, x, calls)
    case _ => false
  }

  /** The variable reads the same in both states. */
  predicate Keeps(c: Config, x: string, st: State, st1: State) {
    LoadVar(c, x, st1) == LoadVar(c, x, st)
  }

  /** Functions and methods that get values, not references, leave the variable alone. */
  ghost predicate Respects(w: World, c: Config, x: string) {
    && (forall f, args, st :: AllValues(args) ==> Keeps(c, x, st, (w.call)(f, args, st).state))
    && (forall o, m, args, st :: AllValues(args) ==> Keeps(c, x, st, (w.send)(o, m, args, st).state))
  }

  lemma SendRespects(w: World, c: Config, x: string, o: Item, m: string, args: seq<Item>, st: State)
    requires Referenced(c.scope(x)) && Respects(w, c, x) && AllValues(args)
    ensures Keeps(c, x, st, SendItem(w, o, m, args, st).state)
    ensures o.V? ==> Keeps(c, x, st, SendMessage(w, o.value, m, args, st).state)
    ensures SendItem(w, o, m, args, st).Ok? ==> SendItem(w, o, m, args, st).value.V?
  {
    if o.V? {
      var st1 := st.(log := st.log + [Sent(o.value, m, args)]);
      assert Keeps(c, x, st, st1);
      assert Keeps(c, x, st1, (w.send)(o.value, m, args, st1).state);
    }
  }

  lemma CallRespects(w: World, c: Config, x: string, f: string, args: seq<Item>, st: State)
    requires Referenced(c.scope(x)) && Respects(w, c, x) && AllValues(args)
    ensures Keeps(c, x, st, CallFunction(w, f, args, st).state)
  {
    var st1 := st.(log := st.log + [Called(f, args)]);
    assert Keeps(c, x, st, st1);
    assert Keeps(c, x, st1, (w.call)(f, args, st1).state);
  }

  /** Evaluating such an expression, for its value or for effect, keeps the variable and gives a value. */
  lemma {:induction false} LeavesKeeps(w: World, c: Config, e: Expr, x: string, calls: bool, st: State)
    requires Referenced(c.scope(x)) && (calls ==> Respects(w, c, x)) && WellFormed(c, e) && Leaves(c, e, x, calls)
    ensures Keeps(c, x, st, Eval(w, c, e, st).state)
    ensures Keeps(c, x, st, Effect(w, c, e, st).state)
    ensures Eval(w, c, e, st).Ok? ==> Eval(w, c, e, st).value.V?
    decreases e, 5
  {
    hide Eval, Effect, WellFormed, Leaves, Keeps, Respects;
    match e
    case EArray(_) => LeavesItems(w, c, e, x, calls, st);
    case EIif(_, _, _) => LeavesIif(w, c, e, x, calls, st);
    case EList(_, _) => LeavesItems(w, c, e, x, calls, st);
    case EAt(_, _, _) => LeavesPair(w, c, e, x, calls, st);
    case ECall(_, _) => LeavesCall(w, c, e, x, calls, st);
    case ESend(_, _, _, _) => LeavesSend(w, c, e, x, calls, st);
    case EAlias(_, _) => LeavesAlias(w, c, e, x, calls, st);
    case EAssign(_, _) => LeavesAssign(w, c, e, x, calls, st);
    case EOpEq(_, _, _) => LeavesOpEq(w, c, e, x, calls, st);
    case EStep(_, _, _) => LeavesUnary(w, c, e, x, calls, st);
    case ELogic(_, _, _) => LeavesLogic(w, c, e, x, calls, st);
    case ENot(_) => LeavesUnary(w, c, e, x, calls, st);
    case ENeg(_) => LeavesUnary(w, c, e, x, calls, st);
    case EBin(_, _, _) => LeavesPair(w, c, e, x, calls, st);
    case _ => LeavesLeaf(w, c, e, x, calls, st);
  }

  lemma {:induction false} LeavesLeaf(w: World, c: Config, e: Expr, x: string, calls: bool, st: State)
    requires (e.ENil? || e.ENum? || e.EStr? || e.ELog? || e.EVar? || e.EVarRef? || e.ERef?) && Referenced(c.scope(x)) && (calls ==> Respects(w, c, x)) && WellFormed(c, e) && Leaves(c, e, x, calls)
    ensures Keeps(c, x, st, Eval(w, c, e, st).state)
    ensures Keeps(c, x, st, Effect(w, c, e, st).state)
    ensures Eval(w, c, e, st).Ok? ==> Eval(w, c, e, st).value.V?
  {
    hide Respects, LoadVar;
  }

  lemma {:induction false} LeavesItems(w: World, c: Config, e: Expr, x: string, calls: bool, st: State)
    requires (e.EArray? || e.EList?) && Referenced(c.scope(x)) && (calls ==> Respects(w, c, x)) && WellFormed(c, e) && Leaves(c, e, x, calls)
    ensures Keeps(c, x, st, Eval(w, c, e, st).state)
    ensures Keeps(c, x, st, Effect(w, c, e, st).state)
    ensures Eval(w, c, e, st).Ok? ==> Eval(w, c, e, st).value.V?
    decreases e, 4
  {
    hide Respects, LoadVar, NewArray, SelectArea;
    if e.EArray? {
      LeavesAllKeeps(w, c, e.items, x, calls, st);
      var o := EvalAll(w, c, e.items, st);
      if o.Ok? { NewArrayKeeps(c, x, o.value, o.state); }
    } else {
      LeavesAllKeeps(w, c, e.init, x, calls, st);
      LeavesKeeps(w, c, e.last, x, calls, EffectAll(w, c, e.init, st).state);
    }
  }

  lemma NewArrayKeeps(c: Config, x: string, xs: seq<Item>, st: State)
    requires Referenced(c.scope(x))
    ensures Keeps(c, x, st, NewArray(xs, st).state)
  {
  }

  lemma {:induction false} LeavesPair(w: World, c: Config, e: Expr, x: string, calls: bool, st: State)
    requires (e.EAt? || e.EBin?) && Referenced(c.scope(x)) && (calls ==> Respects(w, c, x)) && WellFormed(c, e) && Leaves(c, e, x, calls)
    ensures Keeps(c, x, st, Eval(w, c, e, st).state)
    ensures Keeps(c, x, st, Effect(w, c, e, st).state)
    ensures Eval(w, c, e, st).Ok? ==> Eval(w, c, e, st).value.V?
    decreases e, 4
  {
    hide Respects, LoadVar, Element, OperateItems;
    if e.EAt? { LeavesBoth(w, c, e.base, e.index, e, x, calls, st); } else { LeavesBoth(w, c, e.left, e.right, e, x, calls, st); }
  }

  lemma {:induction false} LeavesUnary(w: World, c: Config, e: Expr, x: string, calls: bool, st: State)
    requires (e.EStep? || e.ENot? || e.ENeg?) && Referenced(c.scope(x)) && (calls ==> Respects(w, c, x)) && WellFormed(c, e) && Leaves(c, e, x, calls)
    ensures Keeps(c, x, st, Eval(w, c, e, st).state)
    ensures Keeps(c, x, st, Effect(w, c, e, st).state)
    ensures Eval(w, c, e, st).Ok? ==> Eval(w, c, e, st).value.V?
    decreases e, 4
  {
    hide Respects, LoadVar, EvalStep, Step;
    if e.EStep? {
      LeavesStep(w, c, e.up, e.pre, e.target, x, calls, st);
      LeavesStep(w, c, e.up, true, e.target, x, calls, st);
    } else {
      LeavesKeeps(w, c, e.arg, x, calls, st);
    }
  }

  lemma {:induction false} LeavesBoth(w: World, c: Config, a: Expr, b: Expr, whole: Expr, x: string, calls: bool, st: State)
    requires Referenced(c.scope(x)) && (calls ==> Respects(w, c, x)) && a < whole && b < whole
    requires WellFormed(c, a) && Leaves(c, a, x, calls) && WellFormed(c, b) && Leaves(c, b, x, calls)
    ensures Keeps(c, x, st, Eval(w, c, a, st).state) && Keeps(c, x, st, Effect(w, c, a, st).state)
    ensures Keeps(c, x, st, Eval(w, c, b, Eval(w, c, a, st).state).state)
    ensures Keeps(c, x, st, Effect(w, c, b, Eval(w, c, a, st).state).state)
    ensures Keeps(c, x, st, Effect(w, c, b, Effect(w, c, a, st).state).state)
    ensures Eval(w, c, a, st).Ok? ==> Eval(w, c, a, st).value.V?
    ensures var st1 := Eval(w, c, a, st).state; Eval(w, c, b, st1).Ok? ==> Eval(w, c, b, st1).value.V?
    decreases whole, 3
  {
    hide Eval, Effect, WellFormed, Leaves;
    LeavesKeeps(w, c, a, x, calls, st);
    LeavesKeeps(w, c, b, x, calls, Eval(w, c, a, st).state);
    LeavesKeeps(w, c, b, x, calls, Effect(w, c, a, st).state);
  }

  lemma {:induction false} LeavesAllKeeps(w: World, c: Config, es: Exprs, x: string, calls: bool, st: State)
    requires Referenced(c.scope(x)) && (calls ==> Respects(w, c, x)) && WellFormedAll(c, es) && LeavesAll(c, es, x, calls)
    ensures Keeps(c, x, st, EvalAll(w, c, es, st).state)
    ensures Keeps(c, x, st, EffectAll(w, c, es, st).state)
    ensures EvalAll(w, c, es, st).Ok? ==> AllValues(EvalAll(w, c, es, st).value)
    decreases es, 0
  {
    hide Eval, Effect, WellFormed, Leaves;
    match es
    case ENone =>
    case EMore(e, t) =>
      LeavesKeeps(w, c, e, x, calls, st);
      LeavesAllKeeps(w, c, t, x, calls, Eval(w, c, e, st).state);
      LeavesAllKeeps(w, c, t, x, calls, Effect(w, c, e, st).state);
  }

  lemma {:induction false} LeavesCall(w: World, c: Config, e: Expr, x: string, calls: bool, st: State)
    requires e.ECall? && Referenced(c.scope(x)) && (calls ==> Respects(w, c, x)) && WellFormed(c, e) && Leaves(c, e, x, calls)
    ensures Keeps(c, x, st, Eval(w, c, e, st).state)
    ensures Keeps(c, x, st, Effect(w, c, e, st).state)
    ensures Eval(w, c, e, st).Ok? ==> Eval(w, c, e, st).value.V?
    decreases e, 4
  {
    hide Respects, LoadVar, CallFunction;
    LeavesAllKeeps(w, c, e.args, x, calls, st);
    var o := EvalAll(w, c, e.args, st);
    if o.Ok? { CallRespects(w, c, x, e.function_, o.value, o.state); }
  }

  lemma {:induction false} LeavesSend(w: World, c: Config, e: Expr, x: string, calls: bool, st: State)
    requires e.ESend? && Referenced(c.scope(x)) && (calls ==> Respects(w, c, x)) && WellFormed(c, e) && Leaves(c, e, x, calls)
    ensures Keeps(c, x, st, Eval(w, c, e, st).state)
    ensures Keeps(c, x, st, Effect(w, c, e, st).state)
    ensures Eval(w, c, e, st).Ok? ==> Eval(w, c, e, st).value.V?
    decreases e, 4
  {
    hide Respects, LoadVar, SendItem;
    LeavesKeeps(w, c, e.object_, x, calls, st);
    var o := Eval(w, c, e.object_, st);
    if o.Ok? {
      LeavesAllKeeps(w, c, e.parms, x, calls, o.state);
      var ps := EvalAll(w, c, e.parms, o.state);
      if ps.Ok? { SendRespects(w, c, x, o.value, e.message, ps.value, ps.state); }
    }
  }

  lemma {:induction false} LeavesIif(w: World, c: Config, e: Expr, x: string, calls: bool, st: State)
    requires e.EIif? && Referenced(c.scope(x)) && (calls ==> Respects(w, c, x)) && WellFormed(c, e) && Leaves(c, e, x, calls)
    ensures Keeps(c, x, st, Eval(w, c, e, st).state)
    ensures Keeps(c, x, st, Effect(w, c, e, st).state)
    ensures Eval(w, c, e, st).Ok? ==> Eval(w, c, e, st).value.V?
    decreases e, 4
  {
    LeavesKeeps(w, c, e.cond, x, calls, st);
    var st1 := Eval(w, c, e.cond, st).state;
    LeavesKeeps(w, c, e.thn, x, calls, st1);
    LeavesKeeps(w, c, e.els, x, calls, st1);
  }

  lemma {:induction false} LeavesLogic(w: World, c: Config, e: Expr, x: string, calls: bool, st: State)
    requires e.ELogic? && Referenced(c.scope(x)) && (calls ==> Respects(w, c, x)) && WellFormed(c, e) && Leaves(c, e, x, calls)
    ensures Keeps(c, x, st, Eval(w, c, e, st).state)
    ensures Keeps(c, x, st, Effect(w, c, e, st).state)
    ensures Eval(w, c, e, st).Ok? ==> Eval(w, c, e, st).value.V?
    decreases e, 4
  {
    hide LoadVar;
    LeavesBoth(w, c, e.left, e.right, e, x, calls, st);
  }

  /** Selecting a work area changes no variable but a field. */
  lemma {:induction false} LeavesAlias(w: World, c: Config, e: Expr, x: string, calls: bool, st: State)
    requires e.EAlias? && Referenced(c.scope(x)) && (calls ==> Respects(w, c, x)) && WellFormed(c, e) && Leaves(c, e, x, calls)
    ensures Keeps(c, x, st, Eval(w, c, e, st).state)
    ensures Keeps(c, x, st, Effect(w, c, e, st).state)
    ensures Eval(w, c, e, st).Ok? ==> Eval(w, c, e, st).value.V?
    decreases e, 4
  {
    hide SelectArea, SelectNumber;
    LeavesKeeps(w, c, e.alias, x, calls, st);
    var o := Eval(w, c, e.alias, st);
    if o.Ok? {
      var st1 := SelectArea(w, o.value, o.state);
      SelectKeeps(w, c, o.value, st.area, x, o.state);
      LeavesKeeps(w, c, e.body, x, calls, st1);
      SelectKeeps(w, c, o.value, st.area, x, Eval(w, c, e.body, st1).state);
      SelectKeeps(w, c, o.value, st.area, x, Effect(w, c, e.body, st1).state);
    }
  }

  lemma {:induction false} LeavesAssign(w: World, c: Config, e: Expr, x: string, calls: bool, st: State)
    requires e.EAssign? && Referenced(c.scope(x)) && (calls ==> Respects(w, c, x)) && WellFormed(c, e) && Leaves(c, e, x, calls)
    ensures Keeps(c, x, st, Eval(w, c, e, st).state)
    ensures Keeps(c, x, st, Effect(w, c, e, st).state)
    ensures Eval(w, c, e, st).Ok? ==> Eval(w, c, e, st).value.V?
    decreases e, 4
  {
    hide Store;
    if e.target.ESend? {
      LeavesAssignMessage(w, c, e, x, calls, st);
      return;
    }
    LeavesKeeps(w, c, e.source, x, calls, st);
    var o := Eval(w, c, e.source, st);
    if o.Ok? { LeavesStore(w, c, e.target, x, calls, o.value.value, o.state); }
  }

  lemma {:induction false} LeavesAssignMessage(w: World, c: Config, e: Expr, x: string, calls: bool, st: State)
    requires e.EAssign? && e.target.ESend? && Referenced(c.scope(x)) && (calls ==> Respects(w, c, x)) && WellFormed(c, e) && Leaves(c, e, x, calls)
    ensures Keeps(c, x, st, EvalAssign(w, c, e, st).state)
    ensures EvalAssign(w, c, e, st).Ok? ==> EvalAssign(w, c, e, st).value.V?
    decreases e, 3
  {
    hide Respects, LoadVar, SendItem;
    var EAssign(l, r) := e;
    LeavesKeeps(w, c, l.object_, x, calls, st);
    var o := Eval(w, c, l.object_, st);
    if o.Ok? {
      LeavesKeeps(w, c, r, x, calls, o.state);
      var ov := Eval(w, c, r, o.state);
      if ov.Ok? { SendRespects(w, c, x, o.value, "_" + l.message, [ov.value], ov.state); }
    }
  }

  lemma {:induction false} LeavesStore(w: World, c: Config, l: Expr, x: string, calls: bool, v: Value, st: State)
    requires Referenced(c.scope(x)) && (calls ==> Respects(w, c, x)) && Target(c, l) && WellFormed(c, l) && LeavesTarget(c, l, x, calls)
    ensures Keeps(c, x, st, Store(w, c, l, v, st).state)
    decreases l, 6
  {
    hide StoreElement, Eval, Leaves, LoadVar;
    match l
    case EVar(n) => StoreVarKeeps(c, n, x, v, st);
    case EAt(b, i, _) => LeavesStoreElement(w, c, l, x, calls, v, st);
    case ESend(_, _, _, _) => LeavesStoreMessage(w, c, l, x, calls, v, st);
    case EIif(a, b, d) =>
      LeavesKeeps(w, c, a, x, calls, st);
      var o := Eval(w, c, a, st);
      LeavesStore(w, c, b, x, calls, v, o.state);
      LeavesStore(w, c, d, x, calls, v, o.state);
  }

  lemma {:induction false} LeavesStoreMessage(w: World, c: Config, l: Expr, x: string, calls: bool, v: Value, st: State)
    requires l.ESend? && Referenced(c.scope(x)) && (calls ==> Respects(w, c, x)) && WellFormed(c, l) && LeavesTarget(c, l, x, calls)
    ensures Keeps(c, x, st, Store(w, c, l, v, st).state)
    decreases l, 5
  {
    hide Respects, LoadVar, SendItem;
    LeavesKeeps(w, c, l.object_, x, calls, st);
    var o := Eval(w, c, l.object_, st);
    if o.Ok? { SendRespects(w, c, x, o.value, "_" + l.message, [V(v)], o.state); }
  }

  lemma StoreVarKeeps(c: Config, n: string, x: string, v: Value, st: State)
    requires Referenced(c.scope(x)) && CellOf(c, n) != CellOf(c, x)
    ensures Keeps(c, x, st, StoreVar(c, n, v, st).state)
  {
    match c.scope(n)
    case Local(_) =>
    case Detached(_) =>
    case Static(_) =>
    case Memvar =>
    case Field =>
    case Undeclared =>
  }

  lemma {:induction false} LeavesStoreElement(w: World, c: Config, l: Expr, x: string, calls: bool, v: Value, st: State)
    requires l.EAt? && Referenced(c.scope(x)) && (calls ==> Respects(w, c, x)) && WellFormed(c, l) && Leaves(c, l, x, calls)
    ensures Keeps(c, x, st, Store(w, c, l, v, st).state)
    decreases l, 5
  {
    hide StoreElement, Eval, LoadVar;
    LeavesBoth(w, c, l.base, l.index, l, x, calls, st);
    match EvalPair(w, c, l.base, l.index, st)
    case Err(_) =>
    case Ok((bv, iv), st1) => StoreElementKeeps(w, c, bv, iv, v, x, st1);
  }

  /** A located target is a reference to another variable, to an array element or to a message. */
  lemma {:induction false} LeavesLocate(w: World, c: Config, l: Expr, x: string, calls: bool, st: State)
    requires Referenced(c.scope(x)) && (calls ==> Respects(w, c, x)) && Target(c, l) && WellFormed(c, l) && LeavesTarget(c, l, x, calls)
    ensures Keeps(c, x, st, Locate(w, c, l, st).state)
    ensures Locate(w, c, l, st).Ok? ==> Elsewhere(c, Locate(w, c, l, st).value, x, calls)
    decreases l, 6
  {
    match l
    case EVar(n) =>
    case EAt(b, i, _) => LeavesBoth(w, c, b, i, l, x, calls, st);
    case ESend(o, _, _, _) => LeavesKeeps(w, c, o, x, calls, st);
    case EIif(_, _, _) =>
  }

  predicate Elsewhere(c: Config, r: Ref, x: string, calls: bool) {
    match r
    case LocalRef(i) => CellOf(c, x) != LocalCell(i)
    case StaticRef(i) => CellOf(c, x) != StaticCell(i)
    case MemvarRef(n) => CellOf(c, x) != MemvarCell(n)
    case ElemRef(_, _) => true
    case MessageRef(_, _) => calls
  }

  lemma UpdateElsewhere(w: World, c: Config, r: Ref, x: string, calls: bool, op: BinOp, y: Item, up: bool, st: State)
    requires Referenced(c.scope(x)) && (calls ==> Respects(w, c, x)) && Elsewhere(c, r, x, calls)
    ensures Keeps(c, x, st, ReadRef(w, r, st).state)
    ensures Keeps(c, x, st, OperateRef(w, op, r, y, st).state)
    ensures Keeps(c, x, st, StepRef(w, up, r, st).state)
  {
    hide OperateItems, Step, WriteRef, LoadVar, Respects, SendMessage;
    var o := ReadRef(w, r, st);
    if r.MessageRef? { SendRespects(w, c, x, V(r.receiver), r.message, [], st); }
    if o.Ok? {
      var v := OperateItems(w, op, V(o.value), y);
      if v.Some? { WriteElsewhere(w, c, r, x, calls, v.value, o.state); }
      var v2 := Step(up, o.value);
      if v2.Some? { WriteElsewhere(w, c, r, x, calls, v2.value, o.state); }
    }
  }

  lemma WriteElsewhere(w: World, c: Config, r: Ref, x: string, calls: bool, v: Value, st: State)
    requires Referenced(c.scope(x)) && (calls ==> Respects(w, c, x)) && Elsewhere(c, r, x, calls)
    ensures Keeps(c, x, st, WriteRef(w, r, v, st).state)
  {
    hide Respects, SendMessage;
    if r.MessageRef? { SendRespects(w, c, x, V(r.receiver), "_" + r.message, [V(v)], st); }
  }

  lemma StoreElementKeeps(w: World, c: Config, b: Item, i: Item, v: Value, x: string, st: State)
    requires Referenced(c.scope(x)) && b.V?
    ensures Keeps(c, x, st, StoreElement(w, b, i, v, st).state)
  {
  }

  lemma SelectKeeps(w: World, c: Config, a: Item, area: int, x: string, st: State)
    requires Referenced(c.scope(x))
    ensures Keeps(c, x, st, SelectArea(w, a, st)) && Keeps(c, x, st, SelectNumber(w, area, st))
  {
  }

  lemma {:induction false} LeavesOpEq(w: World, c: Config, e: Expr, x: string, calls: bool, st: State)
    requires e.EOpEq? && Referenced(c.scope(x)) && (calls ==> Respects(w, c, x)) && WellFormed(c, e) && Leaves(c, e, x, calls)
    ensures Keeps(c, x, st, Eval(w, c, e, st).state)
    ensures Keeps(c, x, st, Effect(w, c, e, st).state)
    ensures Eval(w, c, e, st).Ok? ==> Eval(w, c, e, st).value.V?
    decreases e, 4
  {
    hide Store, Locate, OperateRef, OperateItems, ReadRef;
    var EOpEq(op, l, r) := e;
    if UpdatesByRef(c, l) {
      LeavesLocate(w, c, l, x, calls, st);
      var o := Locate(w, c, l, st);
      LeavesKeeps(w, c, r, x, calls, o.state);
      var o2 := Eval(w, c, r, o.state);
      if o.Ok? && o2.Ok? { UpdateElsewhere(w, c, o.value, x, calls, op, o2.value, true, o2.state); }
    } else if l.ESend? {
      LeavesMessageOpEq(w, c, e, x, calls, st);
    } else {
      LeavesGeneric(w, c, e, x, calls, st);
      assert EvalOpEq(w, c, e, st) == GenericOpEq(w, c, e, st);
    }
  }

  lemma {:induction false} LeavesAccess(w: World, c: Config, l: Expr, x: string, calls: bool, st: State)
    requires l.ESend? && Referenced(c.scope(x)) && (calls ==> Respects(w, c, x)) && WellFormed(c, l) && LeavesTarget(c, l, x, calls)
    ensures Keeps(c, x, st, AccessPair(w, c, l, st).state)
    ensures AccessPair(w, c, l, st).Ok? ==> AccessPair(w, c, l, st).value.1.V?
    decreases l, 2
  {
    hide Respects, LoadVar, SendItem;
    LeavesKeeps(w, c, l.object_, x, calls, st);
    var o := Eval(w, c, l.object_, st);
    if o.Ok? {
      SendRespects(w, c, x, o.value, l.message, [], o.state);
      LeavesKeeps(w, c, l.object_, x, calls, o.state);
      var again := Eval(w, c, l.object_, o.state);
      if again.Ok? { SendRespects(w, c, x, again.value, l.message, [], again.state); }
    }
  }

  lemma {:induction false} LeavesMessageOpEq(w: World, c: Config, e: Expr, x: string, calls: bool, st: State)
    requires e.EOpEq? && e.target.ESend? && !UpdatesByRef(c, e.target) && Referenced(c.scope(x)) && (calls ==> Respects(w, c, x))
    requires WellFormed(c, e) && Leaves(c, e, x, calls)
    ensures Keeps(c, x, st, EvalOpEq(w, c, e, st).state)
    ensures EvalOpEq(w, c, e, st).Ok? ==> EvalOpEq(w, c, e, st).value.V?
    decreases e, 3
  {
    hide Respects, LoadVar, SendItem, AccessPair, OperateItems;
    var EOpEq(op, l, r) := e;
    LeavesAccess(w, c, l, x, calls, st);
    var p := AccessPair(w, c, l, st);
    if p.Ok? {
      LeavesKeeps(w, c, r, x, calls, p.state);
      var o := Eval(w, c, r, p.state);
      if o.Ok? {
        var v := OperateItems(w, op, p.value.1, o.value);
        if v.Some? { SendRespects(w, c, x, p.value.0, "_" + l.message, [V(v.value)], o.state); }
      }
    }
  }

  lemma {:induction false} LeavesStepMessage(w: World, c: Config, up: bool, l: Expr, x: string, calls: bool, st: State)
    requires l.ESend? && Referenced(c.scope(x)) && (calls ==> Respects(w, c, x)) && WellFormed(c, l) && LeavesTarget(c, l, x, calls)
    ensures Keeps(c, x, st, StepMessage(w, c, up, l, st).state)
    ensures StepMessage(w, c, up, l, st).Ok? ==> StepMessage(w, c, up, l, st).value.V?
    decreases l, 3
  {
    hide Respects, LoadVar, SendItem, AccessPair, StepItem;
    LeavesAccess(w, c, l, x, calls, st);
    var p := AccessPair(w, c, l, st);
    if p.Ok? {
      var v := StepItem(up, p.value.1);
      if v.Some? { SendRespects(w, c, x, p.value.0, "_" + l.message, [V(v.value)], p.state); }
    }
  }

  lemma {:induction false} LeavesGeneric(w: World, c: Config, e: Expr, x: string, calls: bool, st: State)
    requires e.EOpEq? && Referenced(c.scope(x)) && (calls ==> Respects(w, c, x)) && WellFormed(c, e) && Leaves(c, e, x, calls)
    ensures Keeps(c, x, st, GenericOpEq(w, c, e, st).state)
    decreases e, 3
  {
    hide Store, OperateItems;
    var EOpEq(op, l, r) := e;
    LeavesLoad(w, c, l, x, calls, st);
    var st1 := Eval(w, c, l, st).state;
    LeavesKeeps(w, c, r, x, calls, st1);
    var o := Eval(w, c, r, st1);
    var v := OperateItems(w, op, if Eval(w, c, l, st).Ok? then Eval(w, c, l, st).value else V(NilV), if o.Ok? then o.value else V(NilV));
    if v.Some? { LeavesStore(w, c, l, x, calls, v.value, o.state); }
  }

  /** A target is also a loadable expression. */
  lemma {:induction false} LeavesLoad(w: World, c: Config, l: Expr, x: string, calls: bool, st: State)
    requires Referenced(c.scope(x)) && (calls ==> Respects(w, c, x)) && Target(c, l) && WellFormed(c, l) && LeavesTarget(c, l, x, calls)
    ensures Keeps(c, x, st, Eval(w, c, l, st).state)
    ensures Eval(w, c, l, st).Ok? ==> Eval(w, c, l, st).value.V?
    decreases l, 5
  {
    hide Respects, LoadVar;
    match l
    case EVar(n) =>
    case EAt(b, i, _) => LeavesBoth(w, c, b, i, l, x, calls, st);
    case ESend(_, _, _, _) => LeavesSend(w, c, l, x, calls, st);
    case EIif(a, b, d) =>
      LeavesKeeps(w, c, a, x, calls, st);
      var o := Eval(w, c, a, st);
      LeavesLoad(w, c, b, x, calls, o.state);
      LeavesLoad(w, c, d, x, calls, o.state);
  }

  /** `o:x++` and `++o:x` that do not go through a reference. */
  lemma {:induction false} LeavesStepSend(w: World, c: Config, up: bool, pre: bool, l: Expr, x: string, calls: bool, st: State)
    requires l.ESend? && !StepsByRef(c, l) && Referenced(c.scope(x)) && (calls ==> Respects(w, c, x))
    requires Target(c, l) && WellFormed(c, l) && LeavesTarget(c, l, x, calls)
    ensures Keeps(c, x, st, EvalStep(w, c, up, pre, l, st).state)
    ensures EvalStep(w, c, up, pre, l, st).Ok? ==> EvalStep(w, c, up, pre, l, st).value.V?
    decreases l, 6
  {
    hide Respects, LoadVar, SendItem, AccessPair, StepItem, StepMessage, Eval;
    LeavesStepMessage(w, c, up, l, x, calls, st);
    LeavesAccess(w, c, l, x, calls, st);
    var p := AccessPair(w, c, l, st);
    if p.Ok? {
      var v := StepItem(up, p.value.1);
      if v.Some? { SendRespects(w, c, x, p.value.0, "_" + l.message, [V(v.value)], p.state); }
    }
    LeavesLoad(w, c, l, x, calls, st);
    var o := Eval(w, c, l, st);
    if o.Ok? { LeavesStepMessage(w, c, up, l, x, calls, o.state); }
  }

  lemma {:induction false} LeavesStep(w: World, c: Config, up: bool, pre: bool, l: Expr, x: string, calls: bool, st: State)
    requires Referenced(c.scope(x)) && (calls ==> Respects(w, c, x)) && Target(c, l) && WellFormed(c, l) && LeavesTarget(c, l, x, calls)
    ensures Keeps(c, x, st, EvalStep(w, c, up, pre, l, st).state)
    ensures EvalStep(w, c, up, pre, l, st).Ok? ==> EvalStep(w, c, up, pre, l, st).value.V?
    decreases l, 7
  {
    hide Store, Locate, StepRef, ReadRef, Step;
    if StepsByRef(c, l) {
      LeavesLocate(w, c, l, x, calls, st);
      var o := Locate(w, c, l, st);
      if o.Ok? {
        UpdateElsewhere(w, c, o.value, x, calls, Plus, V(NilV), up, o.state);
        var before := ReadRef(w, o.value, o.state);
        UpdateElsewhere(w, c, o.value, x, calls, Plus, V(NilV), up, before.state);
      }
    } else if l.ESend? {
      LeavesStepSend(w, c, up, pre, l, x, calls, st);
    } else {
      assert EvalStep(w, c, up, pre, l, st) == GenericStep(w, c, up, pre, l, st);
      LeavesLoad(w, c, l, x, calls, st);
      var o := Eval(w, c, l, st);
      if o.Ok? {
        var v := StepItem(up, o.value);
        if v.Some? { LeavesStore(w, c, l, x, calls, v.value, o.state); }
      }
    }
  }
}
