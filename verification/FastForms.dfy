/** The fast forms of compound assignments and steps, which locate their target once and read it
    when the operator runs, against the generic form, which loads the target first, evaluates the
    operand, operates, and evaluates the target again to store. */
module FastForms {
  import opened Values
  import opened Expressions
  import opened Pcode
  import opened Meaning
  import opened Compiler
  import opened Runs
  import opened Correctness

  // ---------------------------------------------------------------- variables

  /** `x op= r` by reference has the outcome of the generic form, errors included, if evaluating r
      leaves x alone. */
  lemma VariableOpEqRefines(w: World, c: Config, e: Expr, st: State)
    requires e.EOpEq? && e.target.EVar? && UpdatesByRef(c, e.target)
    requires Eval(w, c, e.source, st).Ok? ==> LoadVar(c, e.target.name, Eval(w, c, e.source, st).state) == LoadVar(c, e.target.name, st)
    ensures EvalOpEq(w, c, e, st) == GenericOpEq(w, c, e, st)
  {
    hide OperateItems;
    var x := e.target.name;
    assert Eval(w, c, e.target, st) == FromOption(LoadVar(c, x, st), st);
    match Eval(w, c, e.source, st)
    case Err(_) =>
    case Ok(rv, st2) =>
      if LoadVar(c, x, st).Some? {
        VariableUpdate(w, c, e.op, x, rv, st, st2);
      }
  }

  lemma VariableUpdate(w: World, c: Config, op: BinOp, x: string, y: Item, st: State, st2: State)
    requires Referenced(c.scope(x)) && LoadVar(c, x, st).Some? && LoadVar(c, x, st2) == LoadVar(c, x, st)
    ensures VarReference(c, x, st).Ok?
    ensures var v := OperateItems(w, op, V(LoadVar(c, x, st).value), y);
      OperateRef(w, op, VarReference(c, x, st).value, y, st2) ==
        if v.None? then Err(st2) else Ok(v.value, StoreVar(c, x, v.value, st2).state)
    ensures forall v :: StoreVar(c, x, v, st2) == Ok((), StoreVar(c, x, v, st2).state)
  {
    hide OperateItems;
  }

  /** Addition of numbers tells exactly when the late read differs from the early one. */
  lemma LateReadExact(w: World, c: Config, e: Expr, st: State)
    requires e.EOpEq? && e.op == Plus && e.target.EVar? && UpdatesByRef(c, e.target)
    requires var o := Eval(w, c, e.source, st);
      && o.Ok? && o.value.V? && o.value.value.Num?
      && NumberIn(c, e.target.name, st) && NumberIn(c, e.target.name, o.state)
    ensures EvalOpEq(w, c, e, st) == GenericOpEq(w, c, e, st) <==>
      LoadVar(c, e.target.name, Eval(w, c, e.source, st).state) == LoadVar(c, e.target.name, st)
  {
    var x := e.target.name;
    var o := Eval(w, c, e.source, st);
    if LoadVar(c, x, o.state) == LoadVar(c, x, st) {
      VariableOpEqRefines(w, c, e, st);
    } else {
      VariableUpdate(w, c, Plus, x, o.value, o.state, o.state);
      SameReference(c, x, st, o.state);
      assert Eval(w, c, e.target, st) == FromOption(LoadVar(c, x, st), st);
    }
  }

  predicate NumberIn(c: Config, x: string, st: State) {
    LoadVar(c, x, st).Some? && LoadVar(c, x, st).value.Num?
  }

  lemma SameReference(c: Config, x: string, st: State, st2: State)
    requires Referenced(c.scope(x)) && LoadVar(c, x, st).Some? && LoadVar(c, x, st2).Some?
    ensures VarReference(c, x, st) == Ok(VarReference(c, x, st2).value, st)
  {
  }

  /** `++x`, `--x`, `x++` and `x--`: no operand is evaluated in between, so the two forms always agree. */
  lemma VariableStepRefines(w: World, c: Config, up: bool, pre: bool, l: Expr, st: State)
    requires l.EVar? && StepsByRef(c, l)
    ensures EvalStep(w, c, up, pre, l, st) == GenericStep(w, c, up, pre, l, st)
  {
    hide Step;
    assert Eval(w, c, l, st) == FromOption(LoadVar(c, l.name, st), st);
  }

  // ---------------------------------------------------------------- array elements

  /** Evaluating e gives x and changes nothing. */
  predicate Steady(w: World, c: Config, e: Expr, x: Item, st: State) {
    Eval(w, c, e, st) == Ok(x, st)
  }

  /** `b[i] op= r` by reference has the outcome of the generic form if b and i are steady before
      and after r and r leaves the element alone. */
  lemma ElementOpEqRefines(w: World, c: Config, e: Expr, b: Value, i: Item, st: State)
    requires e.EOpEq? && e.target.EAt? && !e.target.byRef && c.harbour
    requires Steady(w, c, e.target.base, V(b), st) && Steady(w, c, e.target.index, i, st)
    requires var o := Eval(w, c, e.source, st); o.Ok? ==>
      && Steady(w, c, e.target.base, V(b), o.state) && Steady(w, c, e.target.index, i, o.state)
      && Fetch(V(b), i, o.state) == Fetch(V(b), i, st)
    ensures EvalOpEq(w, c, e, st) == GenericOpEq(w, c, e, st)
  {
    hide OperateItems, Element;
    assert Eval(w, c, e.target, st) == ReadElement(V(b), i, st);
    assert LocateElement(w, V(b), i, st) == if Element(V(b), i, st).None? then Err(st) else
      Ok(ElemRef(Element(V(b), i, st).value.0, Element(V(b), i, st).value.1), st);
    match Eval(w, c, e.source, st)
    case Err(_) =>
    case Ok(rv, st2) =>
      FetchSame(b, i, st, st2);
      if Element(V(b), i, st).Some? {
        var (a, k) := Element(V(b), i, st).value;
        ElementUpdate(w, e.op, b, i, a, k, rv, st2);
        assert forall v :: Store(w, c, e.target, v, st2) == StoreElement(w, V(b), i, v, st2);
      }
  }

  /** The value that `base[index]` reads. */
  function Fetch(base: Item, index: Item, st: State): Option<Value> {
    match ReadElement(base, index, st)
    case Ok(V(v), _) => Some(v)
    case _ => None
  }

  lemma FetchSame(b: Value, i: Item, st: State, st2: State)
    requires Fetch(V(b), i, st2) == Fetch(V(b), i, st)
    ensures Element(V(b), i, st2) == Element(V(b), i, st)
    ensures Element(V(b), i, st).Some? ==>
      var (a, k) := Element(V(b), i, st).value;
      ValidElement(a, k, st) && ValidElement(a, k, st2) && st2.arrays[a][k] == st.arrays[a][k]
  {
  }

  lemma ElementUpdate(w: World, op: BinOp, b: Value, i: Item, a: nat, k: nat, y: Item, st: State)
    requires Element(V(b), i, st) == Some((a, k))
    ensures ValidElement(a, k, st)
    ensures var v := OperateItems(w, op, V(st.arrays[a][k]), y);
      OperateRef(w, op, ElemRef(a, k), y, st) ==
        if v.None? then Err(st) else Ok(v.value, WriteElement(a, k, v.value, st))
    ensures forall v :: StoreElement(w, V(b), i, v, st) == Ok((), WriteElement(a, k, v, st))
  {
    hide OperateItems;
  }

  /** `b[i]++` and the other steps of an element agree if b and i are steady. */
  lemma ElementStepRefines(w: World, c: Config, up: bool, pre: bool, l: Expr, b: Value, i: Item, st: State)
    requires l.EAt? && !l.byRef && c.harbour
    requires Steady(w, c, l.base, V(b), st) && Steady(w, c, l.index, i, st)
    ensures EvalStep(w, c, up, pre, l, st) == GenericStep(w, c, up, pre, l, st)
  {
    hide Element, Step;
    assert Eval(w, c, l, st) == ReadElement(V(b), i, st);
    assert Locate(w, c, l, st) == LocateElement(w, V(b), i, st);
    if Element(V(b), i, st).Some? {
      var (a, k) := Element(V(b), i, st).value;
      assert ValidElement(a, k, st) by { FetchSame(b, i, st, st); }
      ElementUpdate(w, Plus, b, i, a, k, V(NilV), st);
      assert forall v :: Store(w, c, l, v, st) == StoreElement(w, V(b), i, v, st);
    }
  }

  // ---------------------------------------------------------------- operands that change nothing

  /** Constants, variables and elements, combined by operators, conditions and lists. */
  predicate Quiet(e: Expr) {
    match e
    case ENil => true
    case ENum(_) => true
    case EStr(_) => true
    case ELog(_) => true
    case EVar(_) => true
    case EIif(x, a, b) => Quiet(x) && Quiet(a) && Quiet(b)
    case EList(init, last) => QuietAll(init) && Quiet(last)
    case EAt(b, i, byRef) => !byRef && Quiet(b) && Quiet(i)
    case ELogic(_, a, b) => Quiet(a) && Quiet(b)
    case ENot(x) => Quiet(x)
    case ENeg(x) => Quiet(x)
    case EBin(_, a, b) => Quiet(a) && Quiet(b)
    case _ => false
  }

  predicate QuietAll(es: Exprs) {
    match es
    case ENone => true
    case EMore(e, t) => Quiet(e) && QuietAll(t)
  }

  /** A quiet expression changes no state, in either mode, and gives a value. */
  lemma {:induction false} QuietKeeps(w: World, c: Config, e: Expr, st: State)
    requires Quiet(e)
    ensures Eval(w, c, e, st).state == st && Effect(w, c, e, st).state == st
    ensures Eval(w, c, e, st).Ok? ==> Eval(w, c, e, st).value.V?
    decreases e, 2
  {
    hide Eval, Effect;
    if e.EIif? || e.ELogic? {
      QuietArms(w, c, e, st);
    } else if e.EAt? || e.EBin? {
      QuietPair(w, c, e, st);
    } else if e.EList? || e.ENot? || e.ENeg? {
      QuietOne(w, c, e, st);
    } else {
      QuietLeaf(w, c, e, st);
    }
  }

  lemma {:induction false} QuietArms(w: World, c: Config, e: Expr, st: State)
    requires (e.EIif? || e.ELogic?) && Quiet(e)
    ensures Eval(w, c, e, st).state == st && Effect(w, c, e, st).state == st
    ensures Eval(w, c, e, st).Ok? ==> Eval(w, c, e, st).value.V?
    decreases e, 1
  {
    hide Logical;
    if e.EIif? {
      QuietKeeps(w, c, e.cond, st);
      QuietKeeps(w, c, e.thn, st);
      QuietKeeps(w, c, e.els, st);
    } else {
      QuietKeeps(w, c, e.left, st);
      QuietKeeps(w, c, e.right, st);
    }
  }

  lemma {:induction false} QuietPair(w: World, c: Config, e: Expr, st: State)
    requires (e.EAt? || e.EBin?) && Quiet(e)
    ensures Eval(w, c, e, st).state == st && Effect(w, c, e, st).state == st
    ensures Eval(w, c, e, st).Ok? ==> Eval(w, c, e, st).value.V?
    decreases e, 1
  {
    hide OperateItems, Element;
    var (a, b) := if e.EAt? then (e.base, e.index) else (e.left, e.right);
    QuietKeeps(w, c, a, st);
    QuietKeeps(w, c, b, st);
  }

  lemma {:induction false} QuietOne(w: World, c: Config, e: Expr, st: State)
    requires (e.EList? || e.ENot? || e.ENeg?) && Quiet(e)
    ensures Eval(w, c, e, st).state == st && Effect(w, c, e, st).state == st
    ensures Eval(w, c, e, st).Ok? ==> Eval(w, c, e, st).value.V?
    decreases e, 1
  {
    hide Inverted, Negated;
    if e.EList? {
      QuietAllKeeps(w, c, e.init, st);
      QuietKeeps(w, c, e.last, st);
    } else {
      QuietKeeps(w, c, e.arg, st);
    }
  }

  lemma QuietLeaf(w: World, c: Config, e: Expr, st: State)
    requires e.ENil? || e.ENum? || e.EStr? || e.ELog? || e.EVar?
    ensures Eval(w, c, e, st).state == st && Effect(w, c, e, st).state == st
    ensures Eval(w, c, e, st).Ok? ==> Eval(w, c, e, st).value.V?
  {
    hide LoadVar;
  }

  lemma {:induction false} QuietAllKeeps(w: World, c: Config, es: Exprs, st: State)
    requires QuietAll(es)
    ensures EffectAll(w, c, es, st).state == st
    decreases es, 0
  {
    match es
    case ENone =>
    case EMore(e, t) => QuietKeeps(w, c, e, st); QuietAllKeeps(w, c, t, st);
  }

  /** A variable, or an element whose base and index are quiet. */
  predicate QuietTarget(l: Expr) {
    l.EVar? || (l.EAt? && !l.byRef && Quiet(l.base) && Quiet(l.index))
  }

  /** With quiet operands the fast forms are the generic ones in every state, errors included. */
  lemma QuietRefines(w: World, c: Config, l: Expr, st: State)
    requires QuietTarget(l) && UpdatesByRef(c, l)
    ensures forall e: Expr :: e.EOpEq? && e.target == l && Quiet(e.source) ==> EvalOpEq(w, c, e, st) == GenericOpEq(w, c, e, st)
    ensures forall up, pre :: EvalStep(w, c, up, pre, l, st) == GenericStep(w, c, up, pre, l, st)
  {
    hide EvalOpEq, GenericOpEq, EvalStep, GenericStep, Quiet;
    forall e: Expr | e.EOpEq? && e.target == l && Quiet(e.source) ensures EvalOpEq(w, c, e, st) == GenericOpEq(w, c, e, st) {
      QuietOpEq(w, c, e, st);
    }
    forall up, pre ensures EvalStep(w, c, up, pre, l, st) == GenericStep(w, c, up, pre, l, st) {
      QuietStep(w, c, up, pre, l, st);
    }
  }

  lemma QuietOpEq(w: World, c: Config, e: Expr, st: State)
    requires e.EOpEq? && QuietTarget(e.target) && UpdatesByRef(c, e.target) && Quiet(e.source)
    ensures EvalOpEq(w, c, e, st) == GenericOpEq(w, c, e, st)
  {
    hide Quiet, OperateItems, OperateRef, Element, LocateElement;
    QuietKeeps(w, c, e.source, st);
    if e.target.EVar? {
      VariableOpEqRefines(w, c, e, st);
    } else {
      var b, i := Eval(w, c, e.target.base, st), Eval(w, c, e.target.index, st);
      QuietKeeps(w, c, e.target.base, st);
      QuietKeeps(w, c, e.target.index, st);
      if b.Ok? && i.Ok? { ElementOpEqRefines(w, c, e, b.value.value, i.value, st); }
    }
  }

  lemma QuietStep(w: World, c: Config, up: bool, pre: bool, l: Expr, st: State)
    requires QuietTarget(l) && UpdatesByRef(c, l)
    ensures EvalStep(w, c, up, pre, l, st) == GenericStep(w, c, up, pre, l, st)
  {
    hide Quiet, Step, Element, LocateElement;
    if l.EVar? {
      VariableStepRefines(w, c, up, pre, l, st);
    } else {
      var b, i := Eval(w, c, l.base, st), Eval(w, c, l.index, st);
      QuietKeeps(w, c, l.base, st);
      QuietKeeps(w, c, l.index, st);
      if b.Ok? && i.Ok? { ElementStepRefines(w, c, up, pre, l, b.value.value, i.value, st); }
    }
  }

  // ---------------------------------------------------------------- index expressions

  /** `a[ i++ ] += 1`: by reference the index expression runs once, in the generic form twice. */
  lemma IndexRunsOnce(w: World, c: Config, a: string, i: string, ai: nat, ii: nat, address: nat, n: nat, st: State)
    requires c.harbour && c.scope(a) == Local(ai) && c.scope(i) == Local(ii) && ai != ii
    requires ReadLocal(ai, st) == Arr(address) && ReadLocal(ii, st) == Num(n as real)
    requires address < |st.arrays| && 1 <= n < |st.arrays[address]|
    requires st.arrays[address][n - 1].Num?
    ensures var e := EOpEq(Plus, EAt(EVar(a), EStep(true, false, EVar(i)), false), ENum(1));
      var v := Num(st.arrays[address][n - 1].r + 1.0);
      && EvalOpEq(w, c, e, st) == Ok(V(v), WriteElement(address, n - 1, v, PutLocal(ii, Num(n as real + 1.0), st)))
      && GenericOpEq(w, c, e, st) == Ok(V(v), WriteElement(address, n, v, PutLocal(ii, Num(n as real + 2.0), st)))
  {
    hide EvalOpEq, GenericOpEq, ReadLocal, PutLocal, WriteElement;
    IndexByReference(w, c, a, i, ai, ii, address, n, st);
    IndexTwice(w, c, a, i, ai, ii, address, n, st);
  }

  lemma IndexByReference(w: World, c: Config, a: string, i: string, ai: nat, ii: nat, address: nat, n: nat, st: State)
    requires c.harbour && c.scope(a) == Local(ai) && c.scope(i) == Local(ii) && ai != ii
    requires ReadLocal(ai, st) == Arr(address) && ReadLocal(ii, st) == Num(n as real)
    requires address < |st.arrays| && 1 <= n < |st.arrays[address]|
    requires st.arrays[address][n - 1].Num?
    ensures var e := EOpEq(Plus, EAt(EVar(a), EStep(true, false, EVar(i)), false), ENum(1));
      var v := Num(st.arrays[address][n - 1].r + 1.0);
      EvalOpEq(w, c, e, st) == Ok(V(v), WriteElement(address, n - 1, v, PutLocal(ii, Num(n as real + 1.0), st)))
  {
    var l := EAt(EVar(a), EStep(true, false, EVar(i)), false);
    var st1 := PutLocal(ii, Num(n as real + 1.0), st);
    LocalPostInc(w, c, i, ii, n as real, st);
    TruncInt(n);
    assert Eval(w, c, EVar(a), st) == Ok(V(Arr(address)), st);
    assert Locate(w, c, l, st) == LocateElement(w, V(Arr(address)), V(Num(n as real)), st1);
  }

  lemma IndexTwice(w: World, c: Config, a: string, i: string, ai: nat, ii: nat, address: nat, n: nat, st: State)
    requires c.harbour && c.scope(a) == Local(ai) && c.scope(i) == Local(ii) && ai != ii
    requires ReadLocal(ai, st) == Arr(address) && ReadLocal(ii, st) == Num(n as real)
    requires address < |st.arrays| && 1 <= n < |st.arrays[address]|
    requires st.arrays[address][n - 1].Num?
    ensures var e := EOpEq(Plus, EAt(EVar(a), EStep(true, false, EVar(i)), false), ENum(1));
      var v := Num(st.arrays[address][n - 1].r + 1.0);
      GenericOpEq(w, c, e, st) == Ok(V(v), WriteElement(address, n, v, PutLocal(ii, Num(n as real + 2.0), st)))
  {
    hide EvalStep, Step, WriteRef, Add;
    var step := EStep(true, false, EVar(i));
    var l, v := EAt(EVar(a), step, false), Num(st.arrays[address][n - 1].r + 1.0);
    var st1, st2 := PutLocal(ii, Num(n as real + 1.0), st), PutLocal(ii, Num(n as real + 2.0), st);
    IndexLoads(w, c, a, i, ai, ii, address, n, st, st1);
    assert st2 == PutLocal(ii, Num(n as real + 2.0), st1) by {
      assert st2.locals == st1.locals[ii := Num(n as real + 2.0)];
    }
    IndexLoads(w, c, a, i, ai, ii, address, n + 1, st1, st2);
    IndexStores(w, c, l, V(Arr(address)), n + 1, v, st1, st2);
    assert OperateItems(w, Plus, V(st.arrays[address][n - 1]), V(Num(1.0))) == Some(v) by { PlusOne(w, st.arrays[address][n - 1]); }
    assert Eval(w, c, ENum(1), st1) == Ok(V(Num(1.0)), st1);
  }

  lemma PlusOne(w: World, x: Value)
    requires x.Num?
    ensures OperateItems(w, Plus, V(x), V(Num(1.0))) == Some(Num(x.r + 1.0))
  {
  }

  /** Loading `a[ i++ ]` when i holds k: the element k, and i is one more. */
  lemma IndexLoads(w: World, c: Config, a: string, i: string, ai: nat, ii: nat, address: nat, k: nat, st: State, st1: State)
    requires c.harbour && c.scope(a) == Local(ai) && c.scope(i) == Local(ii) && ai != ii
    requires ReadLocal(ai, st) == Arr(address) && ReadLocal(ii, st) == Num(k as real) && st1 == PutLocal(ii, Num(k as real + 1.0), st)
    requires address < |st.arrays| && 1 <= k <= |st.arrays[address]|
    ensures var step := EStep(true, false, EVar(i));
      && Eval(w, c, EVar(a), st) == Ok(V(Arr(address)), st) && Eval(w, c, step, st) == Ok(V(Num(k as real)), st1)
      && Eval(w, c, EAt(EVar(a), step, false), st) == Ok(V(st.arrays[address][k - 1]), st1)
  {
    LocalPostInc(w, c, i, ii, k as real, st);
    TruncInt(k);
  }

  lemma IndexStores(w: World, c: Config, l: Expr, b: Item, k: nat, v: Value, st: State, st1: State)
    requires l.EAt? && b.V? && b.value.Arr? && b.value.address < |st1.arrays| && 1 <= k <= |st1.arrays[b.value.address]|
    requires Eval(w, c, l.base, st) == Ok(b, st) && Eval(w, c, l.index, st) == Ok(V(Num(k as real)), st1)
    ensures Store(w, c, l, v, st) == Ok((), WriteElement(b.value.address, k - 1, v, st1))
  {
    TruncInt(k);
  }

  lemma LocalPostInc(w: World, c: Config, i: string, ii: nat, r: real, st: State)
    requires c.harbour && c.scope(i) == Local(ii) && ReadLocal(ii, st) == Num(r)
    ensures Eval(w, c, EStep(true, false, EVar(i)), st) == Ok(V(Num(r)), PutLocal(ii, Num(r + 1.0), st))
  {
    assert Locate(w, c, EVar(i), st) == Ok(LocalRef(ii), st);
  }

  // ---------------------------------------------------------------- IIF layouts

  /** With an empty true arm, one inverted jump does what the two jumps of the full layout do, for
      every condition value and every false arm. */
  lemma IifInversion(w: World, m: nat, otherwise: Code, k: Code, s: Stack, st: State)
    requires Skip(otherwise, m) == Some(k)
    ensures Run(w, Then(JumpTrue(FAR + m), otherwise), s, st)
         == Run(w, Then(JumpFalse(FAR + FAR), Then(Jump(FAR + m), otherwise)), s, st)
  {
    hide Run, Exec, Skip, Size;
    var jump := Then(Jump(FAR + m), otherwise);
    JumpSizes(m, otherwise);
    RunThen(w, JumpTrue(FAR + m), otherwise, s, st);
    RunThen(w, JumpFalse(FAR + FAR), jump, s, st);
    if s.On? { RunThen(w, Jump(FAR + m), otherwise, s.below, st); }
    JumpBothWays(w, FAR + m, FAR + FAR, s, st);
    match s
    case On(V(Log(b)), below) =>
      if b { assert Run(w, jump, below, st) == Run(w, k, below, st); }
    case _ =>
  }

  lemma JumpSizes(m: nat, otherwise: Code)
    ensures Size(JumpTrue(FAR + m)) == Size(JumpFalse(FAR + FAR)) == Size(Jump(FAR + m)) == FAR
    ensures Skip(Then(Jump(FAR + m), otherwise), FAR) == Some(otherwise)
  {
    assert Skip(otherwise, 0) == Some(otherwise);
  }

  /** The two conditional jumps on the same stack. */
  lemma JumpBothWays(w: World, d: int, d2: int, s: Stack, st: State)
    ensures Exec(w, JumpTrue(d), s, st) == JumpOn(true, d, s, st) && Exec(w, JumpFalse(d2), s, st) == JumpOn(false, d2, s, st)
    ensures s.On? ==> Exec(w, Jump(d), s.below, st) == Branch(d, s.below, st)
  {
    hide JumpOn, Exec;
    ExecJumpTrue(w, d, s, st);
    ExecJumpFalse(w, d2, s, st);
    if s.On? { ExecJump(w, d, s.below, st); }
  }

  lemma ExecJumpTrue(w: World, d: int, s: Stack, st: State)
    ensures Exec(w, JumpTrue(d), s, st) == JumpOn(true, d, s, st)
  {
  }

  lemma ExecJumpFalse(w: World, d: int, s: Stack, st: State)
    ensures Exec(w, JumpFalse(d), s, st) == JumpOn(false, d, s, st)
  {
  }

  lemma ExecJump(w: World, d: int, s: Stack, st: State)
    ensures Exec(w, Jump(d), s, st) == Branch(d, s, st)
  {
  }
}
