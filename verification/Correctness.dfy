/** Compiler correctness: running the generated code followed by any code k is the same as
    running k after what the expression means, on every state and stack, errors included. */
module Correctness {
  import opened Values
  import opened Expressions
  import opened Pcode
  import opened Meaning
  import opened Compiler
  import opened Shape
  import opened Runs

  // ---------------------------------------------------------------- variables and constants

  lemma PushVarCorrect(w: World, c: Config, n: string, k: Code, s: Stack, st: State)
    ensures Run(w, Then(PushVarInstr(c, n), k), s, st) == Resume(w, FromOption(LoadVar(c, n, st), st), k, s)
  {
    hide Run;
    RunThen(w, PushVarInstr(c, n), k, s, st);
  }

  lemma PopVarCorrect(w: World, c: Config, n: string, v: Value, k: Code, s: Stack, st: State)
    ensures Run(w, Then(PopVarInstr(c, n), k), On(V(v), s), st) == ResumeUnit(w, StoreVar(c, n, v, st), k, s)
  {
    hide Run;
    RunThen(w, PopVarInstr(c, n), k, On(V(v), s), st);
  }

  lemma VarRefCorrect(w: World, c: Config, n: string, k: Code, s: Stack, st: State)
    requires !c.scope(n).Field?
    ensures Run(w, PushVarRefCode(c, n, k), s, st) == ResumeRef(w, VarReference(c, n, st), k, s)
  {
    hide Run;
    RunThen(w, PushVarRefCode(c, n, k).head, k, s, st);
  }

  lemma PushLeafCorrect(w: World, c: Config, e: Expr, k: Code, s: Stack, st: State)
    requires e.ENil? || e.ENum? || e.EStr? || e.ELog? || e.EVar? || e.EVarRef?
    requires WellFormed(c, e)
    ensures Run(w, PushCode(c, e, k), s, st) == Resume(w, Eval(w, c, e, st), k, s)
  {
    hide Run;
    match e
    case ENil => RunThen(w, PushNil, k, s, st);
    case ENum(n) => RunThen(w, PushNum(n), k, s, st);
    case EStr(x) => RunThen(w, PushStr(x), k, s, st);
    case ELog(b) => RunThen(w, PushLog(b), k, s, st);
    case EVar(n) => PushVarCorrect(w, c, n, k, s, st);
    case EVarRef(n) => VarRefCorrect(w, c, n, k, s, st);
  }

  // ---------------------------------------------------------------- HB_EA_PUSH_PCODE

  lemma {:induction false} PushCorrect(w: World, c: Config, e: Expr, k: Code, s: Stack, st: State)
    requires WellFormed(c, e)
    ensures Run(w, PushCode(c, e, k), s, st) == Resume(w, Eval(w, c, e, st), k, s)
    decreases e, 2
  {
    hide Run, Exec, Eval, PushCode;
    match e
    case ERef(_) => PushRefCorrect(w, c, e, k, s, st);
    case EArray(_) => PushArrayCorrect(w, c, e, k, s, st);
    case EIif(_, _, _) => PushIifCorrect(w, c, e, k, s, st);
    case EList(_, _) => PushListCorrect(w, c, e, k, s, st);
    case EAt(_, _, _) => PushAtCorrect(w, c, e, k, s, st);
    case ECall(_, _) => PushCallCorrect(w, c, e, k, s, st);
    case ESend(_, _, _, _) => PushSendCorrect(w, c, e, k, s, st);
    case EAlias(_, _) => PushAliasCorrect(w, c, e, k, s, st);
    case EAssign(_, _) => PushAssignCorrect(w, c, e, k, s, st);
    case EOpEq(_, _, _) => PushOpEqCorrect(w, c, e, k, s, st);
    case EStep(_, _, _) => PushStepCorrect(w, c, e, k, s, st);
    case ELogic(_, _, _) => PushLogicCorrect(w, c, e, k, s, st);
    case ENot(_) => PushUnaryCorrect(w, c, e, k, s, st);
    case ENeg(_) => PushUnaryCorrect(w, c, e, k, s, st);
    case EBin(_, _, _) => PushBinCorrect(w, c, e, k, s, st);
    case _ => PushLeafCorrect(w, c, e, k, s, st);
  }

  /** A reference designates what assignment would write. */
  lemma {:induction false} PushRefCorrect(w: World, c: Config, e: Expr, k: Code, s: Stack, st: State)
    requires e.ERef? && WellFormed(c, e)
    ensures Run(w, PushCode(c, e, k), s, st) == Resume(w, Eval(w, c, e, st), k, s)
    decreases e, 1
  {
    hide Run, Locate, LocateCode, VarReference;
    if e.operand.EVarRef? || e.operand.ERef? {
      PushCorrect(w, c, e.operand, k, s, st);
    } else {
      LocateCorrect(w, c, e.operand, k, s, st);
    }
  }

  lemma {:induction false} PushAllCorrect(w: World, c: Config, es: Exprs, k: Code, s: Stack, st: State)
    requires WellFormedAll(c, es)
    ensures Run(w, PushAllCode(c, es, k), s, st) == ResumeAll(w, EvalAll(w, c, es, st), k, s)
    decreases es, 0
  {
    hide Run, Exec;
    match es
    case ENone =>
    case EMore(e, t) =>
      PushCorrect(w, c, e, PushAllCode(c, t, k), s, st);
      var o := Eval(w, c, e, st);
      if o.Ok? {
        PushAllCorrect(w, c, t, k, On(o.value, s), o.state);
        var o2 := EvalAll(w, c, t, o.state);
        if o2.Ok? {
          assert ([o.value] + o2.value)[1..] == o2.value;
        }
      }
  }

  lemma {:induction false} PushArrayCorrect(w: World, c: Config, e: Expr, k: Code, s: Stack, st: State)
    requires e.EArray? && WellFormed(c, e)
    ensures Run(w, PushCode(c, e, k), s, st) == Resume(w, Eval(w, c, e, st), k, s)
    decreases e, 1
  {
    hide Run, Exec;
    PushAllCorrect(w, c, e.items, Then(ArrayGen(Count(e.items)), k), s, st);
    var o := EvalAll(w, c, e.items, st);
    if o.Ok? { RunArrayGen(w, o.value, k, s, o.state); }
  }

  lemma {:induction false} PushCallCorrect(w: World, c: Config, e: Expr, k: Code, s: Stack, st: State)
    requires e.ECall? && WellFormed(c, e)
    ensures Run(w, PushCode(c, e, k), s, st) == Resume(w, Eval(w, c, e, st), k, s)
    decreases e, 1
  {
    hide Run, Exec;
    var n := Count(e.args);
    RunFunSym(w, e.function_, PushAllCode(c, e.args, Then(Function(n), k)), s, st);
    PushAllCorrect(w, c, e.args, Then(Function(n), k), On(V(NilV), On(S(e.function_), s)), st);
    var o := EvalAll(w, c, e.args, st);
    if o.Ok? { RunCall(w, e.function_, o.value, k, s, o.state); }
  }

  lemma {:induction false} PushSendCorrect(w: World, c: Config, e: Expr, k: Code, s: Stack, st: State)
    requires e.ESend? && WellFormed(c, e)
    ensures Run(w, PushCode(c, e, k), s, st) == Resume(w, Eval(w, c, e, st), k, s)
    decreases e, 1
  {
    hide Run, Exec;
    var ESend(obj, m, _, ps) := e;
    var kn := Then(Send(Count(ps)), k);
    RunMessage(w, m, PushCode(c, obj, PushAllCode(c, ps, kn)), s, st);
    PushCorrect(w, c, obj, PushAllCode(c, ps, kn), On(S(m), s), st);
    var o := Eval(w, c, obj, st);
    if o.Ok? {
      PushAllCorrect(w, c, ps, kn, On(o.value, On(S(m), s)), o.state);
      var o2 := EvalAll(w, c, ps, o.state);
      if o2.Ok? { RunSend(w, m, o.value, o2.value, k, s, o2.state); }
    }
  }

  lemma {:induction false} PushIifCorrect(w: World, c: Config, e: Expr, k: Code, s: Stack, st: State)
    requires e.EIif? && WellFormed(c, e)
    ensures Run(w, PushCode(c, e, k), s, st) == Resume(w, Eval(w, c, e, st), k, s)
    decreases e, 1
  {
    hide Run, Skip, CodeSize, Exec, PushCode, Eval, WellFormed, Condition;
    IifForms(c, e, k);
    IifMeaning(w, c, e, st);
    var EIif(x, a, b) := e;
    var n, m := CodeSize(PushCode(c, a, End)), CodeSize(PushCode(c, b, End));
    var kb := PushCode(c, b, k);
    var ka := PushCode(c, a, Then(Jump(FAR + m), kb));
    var o := Eval(w, c, x, st);
    PushDistance(c, b, k);
    PushDistance(c, a, Then(Jump(FAR + m), kb));
    SkipPast(ka, n, Jump(FAR + m), kb);
    PushCorrect(w, c, x, Then(JumpFalse(FAR + n + FAR), ka), s, st);
    ForkFalse(w, o, FAR + n + FAR, ka, kb, s);
    if o.Ok? {
      PushCorrect(w, c, a, Then(Jump(FAR + m), kb), s, o.state);
      PushCorrect(w, c, b, k, s, o.state);
      var oa := Eval(w, c, a, o.state);
      if oa.Ok? { RunJump(w, FAR + m, kb, k, On(oa.value, s), oa.state); }
    }
  }

  lemma {:induction false} PushListCorrect(w: World, c: Config, e: Expr, k: Code, s: Stack, st: State)
    requires e.EList? && WellFormed(c, e)
    ensures Run(w, PushCode(c, e, k), s, st) == Resume(w, Eval(w, c, e, st), k, s)
    decreases e, 1
  {
    hide Run, Exec;
    DropAllCorrect(w, c, e.init, PushCode(c, e.last, k), s, st);
    var o := EffectAll(w, c, e.init, st);
    if o.Ok? { PushCorrect(w, c, e.last, k, s, o.state); }
  }

  function EvalPair(w: World, c: Config, a: Expr, b: Expr, st: State): Outcome<(Item, Item)> {
    match Eval(w, c, a, st)
    case Err(st1) => Err(st1)
    case Ok(x, st1) =>
      match Eval(w, c, b, st1)
      case Err(st2) => Err(st2)
      case Ok(y, st2) => Ok((x, y), st2)
  }

  /** Two operands from left to right. */
  lemma {:induction false} PushPairCorrect(w: World, c: Config, a: Expr, b: Expr, whole: Expr, k: Code, s: Stack, st: State)
    requires a < whole && b < whole && WellFormed(c, a) && WellFormed(c, b)
    ensures Run(w, PushCode(c, a, PushCode(c, b, k)), s, st) == ResumePair(w, EvalPair(w, c, a, b, st), k, s)
    decreases whole, 0
  {
    hide Run, Exec, PushCode, Eval, WellFormed;
    PushCorrect(w, c, a, PushCode(c, b, k), s, st);
    match Eval(w, c, a, st)
    case Err(st1) => assert EvalPair(w, c, a, b, st) == Err(st1);
    case Ok(x, st1) => PushCorrect(w, c, b, k, On(x, s), st1);
  }

  lemma {:induction false} PushAtCorrect(w: World, c: Config, e: Expr, k: Code, s: Stack, st: State)
    requires e.EAt? && WellFormed(c, e)
    ensures Run(w, PushCode(c, e, k), s, st) == Resume(w, Eval(w, c, e, st), k, s)
    decreases e, 1
  {
    hide Run, Exec, LocateElement, ReadElement;
    var EAt(b, i, byRef) := e;
    PushPairCorrect(w, c, b, i, e, Then(if byRef then ArrayPushRef else ArrayPush, k), s, st);
    var o := EvalPair(w, c, b, i, st);
    if o.Ok? {
      RunArrayPush(w, o.value.0, o.value.1, k, s, o.state);
      RunArrayPushRef(w, o.value.0, o.value.1, k, s, o.state);
    }
  }

  lemma {:induction false} PushAliasCorrect(w: World, c: Config, e: Expr, k: Code, s: Stack, st: State)
    requires e.EAlias? && WellFormed(c, e)
    ensures Run(w, PushCode(c, e, k), s, st) == Resume(w, Eval(w, c, e, st), k, s)
    decreases e, 1
  {
    hide Run, Exec, SelectArea;
    var EAlias(a, b) := e;
    var saved := V(Num(st.area as real));
    var kb := PushCode(c, b, Then(SwapAlias, k));
    RunPushAlias(w, PushCode(c, a, Then(PopAlias, kb)), s, st);
    PushCorrect(w, c, a, Then(PopAlias, kb), On(saved, s), st);
    var o := Eval(w, c, a, st);
    if o.Ok? {
      RunPopAlias(w, o.value, kb, On(saved, s), o.state);
      var st1 := SelectArea(w, o.value, o.state);
      PushCorrect(w, c, b, Then(SwapAlias, k), On(saved, s), st1);
      var ob := Eval(w, c, b, st1);
      if ob.Ok? {
        RunSwapAlias(w, ob.value, saved, k, s, ob.state);
        SelectSaved(w, st.area, ob.state);
      }
    }
  }

  /** A saved work area number selects that number again. */
  lemma SelectSaved(w: World, area: int, st: State)
    ensures SelectArea(w, V(Num(area as real)), st) == SelectNumber(w, area, st)
  {
    TruncInt(area);
  }

  lemma TruncInt(n: int)
    ensures Trunc(n as real) == n
  {
    assert -(n as real) == (-n) as real;
  }

  lemma {:induction false} PushAssignCorrect(w: World, c: Config, e: Expr, k: Code, s: Stack, st: State)
    requires e.EAssign? && WellFormed(c, e)
    ensures Run(w, PushCode(c, e, k), s, st) == Resume(w, Eval(w, c, e, st), k, s)
    decreases e, 1
  {
    hide Run, Unref, PopCode, Store;
    var EAssign(l, r) := e;
    if l.ESend? {
      var m := "_" + l.message;
      RunMessage(w, m, PushCode(c, l.object_, PushCode(c, r, Then(Send(1), k))), s, st);
      PushPairCorrect(w, c, l.object_, r, e, Then(Send(1), k), On(S(m), s), st);
      var o := EvalPair(w, c, l.object_, r, st);
      if o.Ok? { RunSendShort(w, m, o.value.0, o.value.1, k, s, o.state); }
    } else {
      PushCorrect(w, c, r, Then(PushUnref, PopCode(c, l, k)), s, st);
      var o := Eval(w, c, r, st);
      if o.Ok? {
        RunUnref(w, o.value, PopCode(c, l, k), s, o.state);
        var u := Unref(w, o.value, o.state);
        if u.Ok? { PopCorrect(w, c, l, u.value, k, On(o.value, s), u.state); }
      }
    }
  }

  lemma {:induction false} PushOpEqCorrect(w: World, c: Config, e: Expr, k: Code, s: Stack, st: State)
    requires e.EOpEq? && WellFormed(c, e)
    ensures Run(w, PushCode(c, e, k), s, st) == Resume(w, Eval(w, c, e, st), k, s)
    decreases e, 1, 2
  {
    hide Run, Exec, OpEqCode, EvalOpEq;
    OpEqCorrect(w, c, e, true, k, s, st);
  }

  lemma {:induction false} PushStepCorrect(w: World, c: Config, e: Expr, k: Code, s: Stack, st: State)
    requires e.EStep? && WellFormed(c, e)
    ensures Run(w, PushCode(c, e, k), s, st) == Resume(w, Eval(w, c, e, st), k, s)
    decreases e, 1
  {
    hide Run, Exec, StepCode, PostStepCode, EvalStep;
    var EStep(up, pre, l) := e;
    if pre { StepCorrect(w, c, up, l, true, k, s, st); } else { PostStepCorrect(w, c, up, l, k, s, st); }
  }

  lemma {:induction false} PushLogicCorrect(w: World, c: Config, e: Expr, k: Code, s: Stack, st: State)
    requires e.ELogic? && WellFormed(c, e)
    ensures Run(w, PushCode(c, e, k), s, st) == Resume(w, Eval(w, c, e, st), k, s)
    decreases e, 1, 2
  {
    hide Run, Exec;
    var ELogic(isAnd, a, b) := e;
    if c.shortcuts {
      PushShortcutCorrect(w, c, e, k, s, st);
    } else {
      PushPairCorrect(w, c, a, b, e, Then(if isAnd then And else Or, k), s, st);
      var o := EvalPair(w, c, a, b, st);
      if o.Ok? { RunLogical(w, isAnd, o.value.0, o.value.1, k, s, o.state); }
    }
  }

  /** DUPLICATE keeps the left value for the jump; POP drops it before the right operand. */
  lemma {:induction false} PushShortcutCorrect(w: World, c: Config, e: Expr, k: Code, s: Stack, st: State)
    requires e.ELogic? && WellFormed(c, e) && c.shortcuts
    ensures Run(w, PushCode(c, e, k), s, st) == Resume(w, Eval(w, c, e, st), k, s)
    decreases e, 1, 1
  {
    hide Run, Skip, CodeSize, Exec, PushCode, Eval, WellFormed;
    var ELogic(isAnd, a, b) := e;
    ShortcutForms(w, c, e, k, st);
    var n := CodeSize(PushCode(c, b, End));
    var kb := PushCode(c, b, k);
    var d := FAR + 1 + n;
    PushCorrect(w, c, a, Then(Duplicate, Then(Branching(!isAnd, d), Then(Pop, kb))), s, st);
    var o := Eval(w, c, a, st);
    if o.Ok? {
      PushDistance(c, b, k);
      RunDuplicate(w, o.value, Then(Branching(!isAnd, d), Then(Pop, kb)), s, o.state);
      SkipFirst(Pop, kb, n, k);
      RunPop(w, o.value, kb, s, o.state);
      PushCorrect(w, c, b, k, s, o.state);
      if isAnd {
        ForkFalse(w, o, d, Then(Pop, kb), k, On(o.value, s));
      } else {
        ForkTrue(w, o, d, k, Then(Pop, kb), On(o.value, s));
      }
    }
  }

  /** One level of .AND. and .OR. with shortcuts. */
  lemma ShortcutForms(w: World, c: Config, e: Expr, k: Code, st: State)
    requires e.ELogic? && c.shortcuts
    ensures WellFormed(c, e) ==> WellFormed(c, e.left) && WellFormed(c, e.right)
    ensures PushCode(c, e, k) == PushCode(c, e.left, Then(Duplicate,
      Then(Branching(!e.isAnd, FAR + 1 + CodeSize(PushCode(c, e.right, End))), Then(Pop, PushCode(c, e.right, k)))))
    ensures var o := Eval(w, c, e.left, st);
      Eval(w, c, e, st) ==
        if o.Err? then o
        else if Condition(o.value).None? then Err(o.state)
        else if Condition(o.value).value == e.isAnd then Eval(w, c, e.right, o.state) else o
  {
    hide CodeSize;
  }

  /** One level of IIF. */
  lemma IifForms(c: Config, e: Expr, k: Code)
    requires e.EIif?
    ensures WellFormed(c, e) ==> WellFormed(c, e.cond) && WellFormed(c, e.thn) && WellFormed(c, e.els)
    ensures PushCode(c, e, k) == PushCode(c, e.cond, Then(JumpFalse(FAR + CodeSize(PushCode(c, e.thn, End)) + FAR),
      PushCode(c, e.thn, Then(Jump(FAR + CodeSize(PushCode(c, e.els, End))), PushCode(c, e.els, k)))))
  {
    hide CodeSize;
  }

  /** What is evaluated after the condition. */
  function Choice(o: Outcome<Item>): Option<bool> {
    if o.Err? then None else Condition(o.value)
  }

  lemma IifMeaning(w: World, c: Config, e: Expr, st: State)
    requires e.EIif?
    ensures var o := Eval(w, c, e.cond, st);
      && (Choice(o) == None ==> Eval(w, c, e, st) == Err(o.state))
      && (Choice(o) == Some(true) ==> Eval(w, c, e, st) == Eval(w, c, e.thn, o.state))
      && (Choice(o) == Some(false) ==> Eval(w, c, e, st) == Eval(w, c, e.els, o.state))
  {
  }

  lemma DropIifForms(c: Config, e: Expr, k: Code)
    requires e.EIif?
    ensures var n, m := CodeSize(DropCode(c, e.thn, End)), CodeSize(DropCode(c, e.els, End));
      DropCode(c, e, k) == PushCode(c, e.cond,
        if n == 0 then Then(JumpTrue(FAR + m), DropCode(c, e.els, k))
        else Then(JumpFalse(FAR + n + FAR), DropCode(c, e.thn, Then(Jump(FAR + m), DropCode(c, e.els, k)))))
  {
    hide CodeSize, PushCode;
  }

  lemma DropIifMeaning(w: World, c: Config, e: Expr, st: State)
    requires e.EIif?
    ensures var o := Eval(w, c, e.cond, st);
      && (Choice(o) == None ==> Effect(w, c, e, st) == Err(o.state))
      && (Choice(o) == Some(true) ==> Effect(w, c, e, st) == Effect(w, c, e.thn, o.state))
      && (Choice(o) == Some(false) ==> Effect(w, c, e, st) == Effect(w, c, e.els, o.state))
  {
    hide Eval;
  }

  lemma SkipFirst(i: Instr, code: Code, n: nat, k: Code)
    requires Skip(code, n) == Some(k)
    ensures Skip(Then(i, code), Size(i) + n) == Some(k)
  {
  }

  lemma {:induction false} PushUnaryCorrect(w: World, c: Config, e: Expr, k: Code, s: Stack, st: State)
    requires (e.ENot? || e.ENeg?) && WellFormed(c, e)
    ensures Run(w, PushCode(c, e, k), s, st) == Resume(w, Eval(w, c, e, st), k, s)
    decreases e, 1
  {
    hide Run, Exec;
    var x := e.arg;
    var o := Eval(w, c, x, st);
    if e.ENot? {
      PushCorrect(w, c, x, Then(Not, k), s, st);
      if o.Ok? { RunNot(w, o.value, k, s, o.state); }
    } else {
      PushCorrect(w, c, x, Then(Neg, k), s, st);
      if o.Ok? { RunNeg(w, o.value, k, s, o.state); }
    }
  }

  lemma {:induction false} PushBinCorrect(w: World, c: Config, e: Expr, k: Code, s: Stack, st: State)
    requires e.EBin? && WellFormed(c, e)
    ensures Run(w, PushCode(c, e, k), s, st) == Resume(w, Eval(w, c, e, st), k, s)
    decreases e, 1
  {
    hide Run, Exec, OperateItems;
    var EBin(op, a, b) := e;
    match UnitStep(c, e) {
      case None =>
        PushPairCorrect(w, c, a, b, e, Then(Bin(op), k), s, st);
        var o := EvalPair(w, c, a, b, st);
        if o.Ok? { RunBin(w, op, o.value.0, o.value.1, k, s, o.state); }
      case Some((x, up)) =>
        PushCorrect(w, c, x, Then(StepInstr(up), k), s, st);
        UnitStepMeaning(w, c, e, st);
        var o := Eval(w, c, x, st);
        if o.Ok? { RunStep(w, up, o.value, k, s, o.state); }
    }
  }

  function StepOutcome(up: bool, o: Outcome<Item>): Outcome<Item> {
    match o
    case Err(st) => Err(st)
    case Ok(it, st) => FromOption(StepItem(up, it), st)
  }

  /** With EXTOPT: adding or subtracting a literal 1 or -1 is the same as INC or DEC on any operand. */
  lemma UnitStepMeaning(w: World, c: Config, e: Expr, st: State)
    requires UnitStep(c, e).Some?
    ensures Eval(w, c, e, st) == StepOutcome(UnitStep(c, e).value.1, Eval(w, c, UnitStep(c, e).value.0, st))
  {
    var (x, up) := UnitStep(c, e).value;
    var EBin(op, a, b) := e;
    var o := Eval(w, c, x, st);
    if o.Ok? && o.value.V? { UnitOperate(o.value.value); }
    TruncInt(1);
    TruncInt(-1);
  }

  lemma UnitOperate(v: Value)
    ensures Add(v, Num(1.0)) == Step(true, v) == Add(Num(1.0), v) == Subtract(v, Num(-1.0))
    ensures Add(v, Num(-1.0)) == Step(false, v) == Add(Num(-1.0), v) == Subtract(v, Num(1.0))
  {
    TruncInt(1);
    TruncInt(-1);
  }

  // ---------------------------------------------------------------- HB_EA_POP_PCODE

  lemma {:induction false} PopCorrect(w: World, c: Config, l: Expr, v: Value, k: Code, s: Stack, st: State)
    requires Target(c, l) && WellFormed(c, l)
    ensures Run(w, PopCode(c, l, k), On(V(v), s), st) == ResumeUnit(w, Store(w, c, l, v, st), k, s)
    decreases l, 2
  {
    hide Run, Exec;
    match l
    case EVar(n) => PopVarCorrect(w, c, n, v, k, s, st);
    case EAt(b, i, _) =>
      PushPairCorrect(w, c, b, i, l, Then(ArrayPop, k), On(V(v), s), st);
      var o := EvalPair(w, c, b, i, st);
      if o.Ok? { RunArrayPop(w, o.value.0, o.value.1, v, k, s, o.state); }
    case ESend(_, _, _, _) => PopSendCorrect(w, c, l, v, k, s, st);
    case EIif(_, _, _) => PopIifCorrect(w, c, l, v, k, s, st);
  }

  lemma {:induction false} PopIifCorrect(w: World, c: Config, l: Expr, v: Value, k: Code, s: Stack, st: State)
    requires l.EIif? && Target(c, l) && WellFormed(c, l)
    ensures Run(w, PopCode(c, l, k), On(V(v), s), st) == ResumeUnit(w, Store(w, c, l, v, st), k, s)
    decreases l, 1
  {
    hide Run, Exec, Skip, CodeSize;
    var EIif(x, a, b) := l;
    var n, m := CodeSize(PopCode(c, a, End)), CodeSize(PopCode(c, b, End));
    var kb := PopCode(c, b, k);
    var ka := PopCode(c, a, Then(Jump(FAR + m), kb));
    var o := Eval(w, c, x, st);
    PopDistance(c, b, k);
    PopDistance(c, a, Then(Jump(FAR + m), kb));
    SkipPast(ka, n, Jump(FAR + m), kb);
    PushCorrect(w, c, x, Then(JumpFalse(FAR + n + FAR), ka), On(V(v), s), st);
    ForkFalse(w, o, FAR + n + FAR, ka, kb, On(V(v), s));
    if o.Ok? {
      PopCorrect(w, c, a, v, Then(Jump(FAR + m), kb), s, o.state);
      PopCorrect(w, c, b, v, k, s, o.state);
      var oa := Store(w, c, a, v, o.state);
      if oa.Ok? { RunJump(w, FAR + m, kb, k, s, oa.state); }
    }
  }

  /** The two SWAPs turn value, message, object into message, object, value. */
  lemma {:induction false} PopSendCorrect(w: World, c: Config, l: Expr, v: Value, k: Code, s: Stack, st: State)
    requires l.ESend? && WellFormed(c, l)
    ensures Run(w, PopCode(c, l, k), On(V(v), s), st) == ResumeUnit(w, Store(w, c, l, v, st), k, s)
    decreases l, 1
  {
    hide Run, Exec;
    var name := "_" + l.message;
    var m := S(name);
    var k3 := Then(Send(1), Then(Pop, k));
    var k2 := Then(Swap(1), k3);
    var k1 := Then(Swap(1), k2);
    RunMessage(w, name, PushCode(c, l.object_, k1), On(V(v), s), st);
    PushCorrect(w, c, l.object_, k1, On(m, On(V(v), s)), st);
    var o := Eval(w, c, l.object_, st);
    if o.Ok? {
      RunSwapFew(w, k2, s, o.state, o.value, m, V(v), m);
      RunSwapFew(w, k3, s, o.state, m, V(v), o.value, m);
      RunSendShort(w, name, o.value, V(v), Then(Pop, k), s, o.state);
      ResumePop(w, SendItem(w, o.value, name, [V(v)], o.state), k, s);
    }
  }

  // ---------------------------------------------------------------- compound targets

  lemma {:induction false} LocateCorrect(w: World, c: Config, l: Expr, k: Code, s: Stack, st: State)
    requires l.EVar? || l.EAt? || l.ESend?
    requires WellFormed(c, l) && (l.EVar? ==> !c.scope(l.name).Field?)
    ensures Run(w, LocateCode(c, l, k), s, st) == ResumeRef(w, Locate(w, c, l, st), k, s)
    decreases l, 2
  {
    hide Run, Exec;
    match l
    case EVar(n) => VarRefCorrect(w, c, n, k, s, st);
    case EAt(b, i, _) =>
      PushPairCorrect(w, c, b, i, l, Then(ArrayPushRef, k), s, st);
      var o := EvalPair(w, c, b, i, st);
      if o.Ok? { RunArrayPushRef(w, o.value.0, o.value.1, k, s, o.state); }
    case ESend(obj, m, _, _) =>
      RunMessage(w, "_" + m, PushCode(c, obj, Then(PushOVarRef, k)), s, st);
      PushCorrect(w, c, obj, Then(PushOVarRef, k), On(S("_" + m), s), st);
      var o := Eval(w, c, obj, st);
      if o.Ok? { RunOVarRef(w, o.value, m, k, s, o.state); }
  }

  /** hb_compExprPushSendPopPush leaves the assign message, the receiver and the accessed value. */
  lemma {:induction false} AccessCorrect(w: World, c: Config, l: Expr, k: Code, s: Stack, st: State)
    requires l.ESend? && WellFormed(c, l)
    ensures Run(w, AccessCode(c, l, k), s, st) == ResumePair(w, AccessPair(w, c, l, st), k, On(S("_" + l.message), s))
    decreases l, 2
  {
    hide Run, Exec;
    var obj, am, m := l.object_, S("_" + l.message), S(l.message);
    if c.harbour {
      var k3 := Then(Send(0), k);
      var k2 := Then(Message(l.message), Then(Swap(0), k3));
      RunMessage(w, "_" + l.message, PushCode(c, obj, Then(Duplicate, k2)), s, st);
      PushCorrect(w, c, obj, Then(Duplicate, k2), On(am, s), st);
      var o := Eval(w, c, obj, st);
      if o.Ok? {
        var ov := o.value;
        var s1 := On(ov, On(am, s));
        RunDuplicate(w, ov, k2, On(am, s), o.state);
        RunMessage(w, l.message, Then(Swap(0), k3), On(ov, s1), o.state);
        RunSwapFew(w, k3, s1, o.state, m, ov, ov, ov);
        RunSendShort(w, l.message, ov, ov, k, s1, o.state);
      }
    } else {
      AccessAgain(w, c, l, k, s, st);
    }
  }

  /** Without HB_SUPPORT_HARBOUR the object expression is generated a second time. */
  lemma {:induction false} AccessAgain(w: World, c: Config, l: Expr, k: Code, s: Stack, st: State)
    requires l.ESend? && WellFormed(c, l) && !c.harbour
    ensures Run(w, AccessCode(c, l, k), s, st) == ResumePair(w, AccessPair(w, c, l, st), k, On(S("_" + l.message), s))
    decreases l, 1
  {
    hide Run, Exec;
    var obj, am, m := l.object_, S("_" + l.message), S(l.message);
    var k2 := PushCode(c, obj, Then(Send(0), k));
    RunMessage(w, "_" + l.message, PushCode(c, obj, Then(Message(l.message), k2)), s, st);
    PushCorrect(w, c, obj, Then(Message(l.message), k2), On(am, s), st);
    var o := Eval(w, c, obj, st);
    if o.Ok? {
      var s1 := On(o.value, On(am, s));
      RunMessage(w, l.message, k2, s1, o.state);
      PushCorrect(w, c, obj, Then(Send(0), k), On(m, s1), o.state);
      var again := Eval(w, c, obj, o.state);
      if again.Ok? { RunSendShort(w, l.message, again.value, again.value, k, s1, again.state); }
    }
  }

  /** The local opcode adds the literal that `+=` and `-=` would add or subtract. */
  lemma AddIntMeaning(x: Value, n: int)
    ensures AddInt(x, n) == Add(x, Num(n as real))
    ensures AddInt(x, -n) == Subtract(x, Num(n as real))
  {
    TruncInt(n);
  }

  /** A value that is wanted stays on the stack, another one is dropped. */
  function ResumeIf(w: World, wanted: bool, o: Outcome<Item>, k: Code, s: Stack): Final {
    if wanted then Resume(w, o, k, s) else ResumeUnit(w, Drop(o), k, s)
  }

  lemma ResumeDropIf(w: World, wanted: bool, o: Outcome<Item>, k: Code, s: Stack)
    ensures Resume(w, o, DropIf(!wanted, k), s) == ResumeIf(w, wanted, o, k, s)
  {
    hide Run, Exec;
    ResumePop(w, o, k, s);
  }

  lemma {:induction false} OpEqCorrect(w: World, c: Config, e: Expr, wanted: bool, k: Code, s: Stack, st: State)
    requires e.EOpEq? && WellFormed(c, e)
    ensures Run(w, OpEqCode(c, e, wanted, k), s, st) == ResumeIf(w, wanted, EvalOpEq(w, c, e, st), k, s)
    decreases e, 1, 1
  {
    hide Run, Exec, OpEqCode, EvalOpEq;
    if UpdatesByRef(c, e.target) {
      if AddsInt(c, e.op, e.target, e.source) {
        OpEqLocal(w, c, e, wanted, k, s, st);
      } else {
        OpEqReference(w, c, e, wanted, k, s, st);
      }
    } else if e.target.ESend? {
      OpEqMessage(w, c, e, wanted, k, s, st);
    } else {
      OpEqGeneric(w, c, e, wanted, k, s, st);
    }
  }

  lemma {:induction false} OpEqReference(w: World, c: Config, e: Expr, wanted: bool, k: Code, s: Stack, st: State)
    requires e.EOpEq? && WellFormed(c, e) && UpdatesByRef(c, e.target) && !AddsInt(c, e.op, e.target, e.source)
    ensures Run(w, OpEqCode(c, e, wanted, k), s, st) == ResumeIf(w, wanted, EvalOpEq(w, c, e, st), k, s)
    decreases e, 0
  {
    hide Run, Exec, OperateRef, AddsInt, PushCode, Eval;
    var EOpEq(op, l, r) := e;
    var kr := Then(if wanted then Pcode.OpEq(op) else OpEqPop(op), k);
    LocateCorrect(w, c, l, PushCode(c, r, kr), s, st);
    var o := Locate(w, c, l, st);
    if o.Ok? {
      PushCorrect(w, c, r, kr, On(R(o.value), s), o.state);
      var o2 := Eval(w, c, r, o.state);
      if o2.Ok? { RunOpEq(w, op, o.value, o2.value, k, s, o2.state); }
    }
  }

  /** What the addition by reference means for a local. */
  function LocalSum(i: nat, k: int, st: State): Outcome<Item> {
    match AddInt(ReadLocal(i, st), k)
    case None => Err(st)
    case Some(v) => Ok(V(v), PutLocal(i, v, st))
  }

  lemma OpEqSum(w: World, c: Config, e: Expr, st: State)
    requires e.EOpEq? && UpdatesByRef(c, e.target) && AddsInt(c, e.op, e.target, e.source)
    ensures EvalOpEq(w, c, e, st) == LocalSum(c.scope(e.target.name).index, Increment(e.op, e.source.n), st)
  {
    hide AddInt;
    var i := c.scope(e.target.name).index;
    AddIntMeaning(ReadLocal(i, st), e.source.n);
    assert Locate(w, c, e.target, st) == Ok(LocalRef(i), st);
    assert Eval(w, c, e.source, st) == Ok(V(Num(e.source.n as real)), st);
  }

  lemma OpEqLocal(w: World, c: Config, e: Expr, wanted: bool, k: Code, s: Stack, st: State)
    requires e.EOpEq? && UpdatesByRef(c, e.target) && AddsInt(c, e.op, e.target, e.source)
    ensures Run(w, OpEqCode(c, e, wanted, k), s, st) == ResumeIf(w, wanted, EvalOpEq(w, c, e, st), k, s)
  {
    hide Run, Exec, AddInt, EvalOpEq;
    var EOpEq(op, l, r) := e;
    var i := c.scope(l.name).index;
    var d := Increment(op, r.n);
    var k1 := if wanted then Then(PushVarInstr(c, l.name), k) else k;
    OpEqSum(w, c, e, st);
    RunAddToLocal(w, i, d, k1, s, st);
    var v := AddInt(ReadLocal(i, st), d);
    if v.Some? {
      PushVarCorrect(w, c, l.name, k, s, PutLocal(i, v.value, st));
    }
  }

  lemma {:induction false} OpEqMessage(w: World, c: Config, e: Expr, wanted: bool, k: Code, s: Stack, st: State)
    requires e.EOpEq? && WellFormed(c, e) && !UpdatesByRef(c, e.target) && e.target.ESend?
    ensures Run(w, OpEqCode(c, e, wanted, k), s, st) == ResumeIf(w, wanted, EvalOpEq(w, c, e, st), k, s)
    decreases e, 0
  {
    hide Run, Exec, AccessCode, AccessPair, OperateItems, SendItem, PushCode, Eval;
    var EOpEq(op, l, r) := e;
    var m := "_" + l.message;
    var k2 := Then(Send(1), DropIf(!wanted, k));
    AccessCorrect(w, c, l, PushCode(c, r, Then(Bin(op), k2)), s, st);
    var p := AccessPair(w, c, l, st);
    if p.Ok? {
      var (ov, cur) := p.value;
      var s1 := On(ov, On(S(m), s));
      PushCorrect(w, c, r, Then(Bin(op), k2), On(cur, s1), p.state);
      var o := Eval(w, c, r, p.state);
      if o.Ok? {
        RunBin(w, op, cur, o.value, k2, s1, o.state);
        var v := OperateItems(w, op, cur, o.value);
        if v.Some? {
          RunSendShort(w, m, ov, V(v.value), DropIf(!wanted, k), s, o.state);
          ResumeDropIf(w, wanted, SendItem(w, ov, m, [V(v.value)], o.state), k, s);
        }
      }
    }
  }

  lemma {:induction false} OpEqGeneric(w: World, c: Config, e: Expr, wanted: bool, k: Code, s: Stack, st: State)
    requires e.EOpEq? && WellFormed(c, e) && !UpdatesByRef(c, e.target) && !e.target.ESend?
    ensures Run(w, OpEqCode(c, e, wanted, k), s, st) == ResumeIf(w, wanted, EvalOpEq(w, c, e, st), k, s)
    decreases e, 1, 0
  {
    hide Run, Exec, OperateItems, PushCode, PopCode, Eval, Store;
    var EOpEq(op, l, r) := e;
    var kp := if wanted then Then(Duplicate, PopCode(c, l, k)) else PopCode(c, l, k);
    PushPairCorrect(w, c, l, r, e, Then(Bin(op), kp), s, st);
    var o := EvalPair(w, c, l, r, st);
    if o.Ok? {
      RunBin(w, op, o.value.0, o.value.1, kp, s, o.state);
      var v := OperateItems(w, op, o.value.0, o.value.1);
      if v.Some? { StoreWanted(w, c, l, v.value, wanted, k, s, o.state); }
    }
  }

  /** The tail of the generic paths: store the result, leaving a copy if it is wanted. */
  lemma {:induction false} StoreWanted(w: World, c: Config, l: Expr, v: Value, wanted: bool, k: Code, s: Stack, st: State)
    requires Target(c, l) && WellFormed(c, l)
    ensures Run(w, if wanted then Then(Duplicate, PopCode(c, l, k)) else PopCode(c, l, k), On(V(v), s), st)
         == ResumeIf(w, wanted, WithResult(Store(w, c, l, v, st), V(v)), k, s)
    decreases l, 3
  {
    hide Run, Exec, PopCode, Store;
    RunDuplicate(w, V(v), PopCode(c, l, k), s, st);
    PopCorrect(w, c, l, v, k, On(V(v), s), st);
    PopCorrect(w, c, l, v, k, s, st);
  }

  lemma {:induction false} StepCorrect(w: World, c: Config, up: bool, l: Expr, wanted: bool, k: Code, s: Stack, st: State)
    requires Target(c, l) && WellFormed(c, l)
    ensures Run(w, StepCode(c, up, l, wanted, k), s, st) == ResumeIf(w, wanted, EvalStep(w, c, up, true, l, st), k, s)
    decreases l, 5
  {
    hide Run, Exec, StepCode, EvalStep;
    if StepsByRef(c, l) {
      if l.EVar? && c.scope(l.name).Local? {
        StepLocalCorrect(w, c, up, l, wanted, k, s, st);
      } else {
        StepReference(w, c, up, l, wanted, k, s, st);
      }
    } else if l.ESend? {
      StepMessageWanted(w, c, up, l, wanted, k, s, st);
    } else {
      StepGeneric(w, c, up, l, wanted, k, s, st);
    }
  }

  lemma {:induction false} StepReference(w: World, c: Config, up: bool, l: Expr, wanted: bool, k: Code, s: Stack, st: State)
    requires Target(c, l) && WellFormed(c, l) && StepsByRef(c, l) && !(l.EVar? && c.scope(l.name).Local?)
    ensures Run(w, StepCode(c, up, l, wanted, k), s, st) == ResumeIf(w, wanted, EvalStep(w, c, up, true, l, st), k, s)
    decreases l, 4
  {
    hide Run, Exec, LocateCode, Locate, StepRef;
    LocateCorrect(w, c, l, Then(if wanted then StepEq(up) else StepEqPop(up), k), s, st);
    var o := Locate(w, c, l, st);
    if o.Ok? { RunStepEq(w, up, o.value, k, s, o.state); }
  }

  lemma {:induction false} StepGeneric(w: World, c: Config, up: bool, l: Expr, wanted: bool, k: Code, s: Stack, st: State)
    requires Target(c, l) && WellFormed(c, l) && !StepsByRef(c, l) && !l.ESend?
    ensures Run(w, StepCode(c, up, l, wanted, k), s, st) == ResumeIf(w, wanted, EvalStep(w, c, up, true, l, st), k, s)
    decreases l, 4
  {
    hide Run, Exec, PushCode, PopCode, Eval, StepItem, Store;
    var kp := if wanted then Then(Duplicate, PopCode(c, l, k)) else PopCode(c, l, k);
    PushCorrect(w, c, l, Then(StepInstr(up), kp), s, st);
    var o := Eval(w, c, l, st);
    if o.Ok? {
      RunStep(w, up, o.value, kp, s, o.state);
      var v := StepItem(up, o.value);
      if v.Some? { StoreWanted(w, c, l, v.value, wanted, k, s, o.state); }
    }
  }

  lemma StepLocalCorrect(w: World, c: Config, up: bool, l: Expr, wanted: bool, k: Code, s: Stack, st: State)
    requires StepsByRef(c, l) && l.EVar? && c.scope(l.name).Local?
    ensures Run(w, StepCode(c, up, l, wanted, k), s, st) == ResumeIf(w, wanted, EvalStep(w, c, up, true, l, st), k, s)
  {
    hide Run, Exec, Step;
    var i := c.scope(l.name).index;
    assert Locate(w, c, l, st) == Ok(LocalRef(i), st);
    var kp := Then(PushVarInstr(c, l.name), k);
    var v := Step(up, ReadLocal(i, st));
    RunLocalStep(w, up, i, k, s, st);
    if up {
      RunLocalIncPush(w, i, k, s, st);
    } else {
      RunLocalStep(w, up, i, kp, s, st);
      if v.Some? { PushVarCorrect(w, c, l.name, k, s, PutLocal(i, v.value, st)); }
    }
  }

  lemma {:induction false} StepMessageWanted(w: World, c: Config, up: bool, l: Expr, wanted: bool, k: Code, s: Stack, st: State)
    requires l.ESend? && WellFormed(c, l) && !StepsByRef(c, l)
    ensures Run(w, StepCode(c, up, l, wanted, k), s, st) == ResumeIf(w, wanted, EvalStep(w, c, up, true, l, st), k, s)
    decreases l, 4
  {
    hide Run, Exec, AccessCode, StepMessage;
    StepMessageCorrect(w, c, up, l, DropIf(!wanted, k), s, st);
    ResumeDropIf(w, wanted, StepMessage(w, c, up, l, st), k, s);
  }

  lemma {:induction false} StepMessageCorrect(w: World, c: Config, up: bool, l: Expr, k: Code, s: Stack, st: State)
    requires l.ESend? && WellFormed(c, l)
    ensures Run(w, AccessCode(c, l, Then(StepInstr(up), Then(Send(1), k))), s, st) == Resume(w, StepMessage(w, c, up, l, st), k, s)
    decreases l, 3
  {
    hide Run, Exec, AccessCode, AccessPair, StepItem, SendItem;
    var m := "_" + l.message;
    AccessCorrect(w, c, l, Then(StepInstr(up), Then(Send(1), k)), s, st);
    var p := AccessPair(w, c, l, st);
    if p.Ok? {
      var (ov, cur) := p.value;
      RunStep(w, up, cur, Then(Send(1), k), On(ov, On(S(m), s)), p.state);
      var v := StepItem(up, cur);
      if v.Some? { RunSendShort(w, m, ov, V(v.value), k, s, p.state); }
    }
  }

  lemma {:induction false} PostStepCorrect(w: World, c: Config, up: bool, l: Expr, k: Code, s: Stack, st: State)
    requires Target(c, l) && WellFormed(c, l)
    ensures Run(w, PostStepCode(c, up, l, k), s, st) == Resume(w, EvalStep(w, c, up, false, l, st), k, s)
    decreases l, 5
  {
    hide Run, Exec, PostStepCode, EvalStep;
    if StepsByRef(c, l) {
      if l.EVar? && c.scope(l.name).Local? {
        PostStepLocal(w, c, up, l, k, s, st);
      } else {
        PostStepRef(w, c, up, l, k, s, st);
      }
    } else if l.ESend? {
      PostStepMessage(w, c, up, l, k, s, st);
    } else {
      PostStepGeneric(w, c, up, l, k, s, st);
    }
  }

  lemma PostStepLocal(w: World, c: Config, up: bool, l: Expr, k: Code, s: Stack, st: State)
    requires StepsByRef(c, l) && l.EVar? && c.scope(l.name).Local?
    ensures Run(w, PostStepCode(c, up, l, k), s, st) == Resume(w, EvalStep(w, c, up, false, l, st), k, s)
  {
    hide Run, Exec, Step;
    var i := c.scope(l.name).index;
    assert Locate(w, c, l, st) == Ok(LocalRef(i), st);
    var s1 := On(V(ReadLocal(i, st)), s);
    PushVarCorrect(w, c, l.name, Then(if up then LocalInc(i) else LocalDec(i), k), s, st);
    RunLocalStep(w, up, i, k, s1, st);
  }

  lemma {:induction false} PostStepRef(w: World, c: Config, up: bool, l: Expr, k: Code, s: Stack, st: State)
    requires Target(c, l) && WellFormed(c, l) && StepsByRef(c, l) && !(l.EVar? && c.scope(l.name).Local?)
    ensures Run(w, PostStepCode(c, up, l, k), s, st) == Resume(w, EvalStep(w, c, up, false, l, st), k, s)
    decreases l, 4
  {
    hide Run, Exec, LocateCode, Locate, ReadRef, StepRef;
    var k1 := Then(StepEqPop(up), k);
    LocateCorrect(w, c, l, Then(DuplUnref, k1), s, st);
    var o := Locate(w, c, l, st);
    if o.Ok? {
      RunDuplUnref(w, o.value, k1, s, o.state);
      var b := ReadRef(w, o.value, o.state);
      if b.Ok? { RunStepEq(w, up, o.value, k, On(V(b.value), s), b.state); }
    }
  }

  lemma {:induction false} PostStepGeneric(w: World, c: Config, up: bool, l: Expr, k: Code, s: Stack, st: State)
    requires Target(c, l) && WellFormed(c, l) && !StepsByRef(c, l) && !l.ESend?
    ensures Run(w, PostStepCode(c, up, l, k), s, st) == Resume(w, EvalStep(w, c, up, false, l, st), k, s)
    decreases l, 4
  {
    hide Run, Exec, PushCode, PopCode, Eval, StepItem, Store;
    assert EvalStep(w, c, up, false, l, st) == GenericStep(w, c, up, false, l, st);
    var kp := PopCode(c, l, k);
    PushCorrect(w, c, l, Then(Duplicate, Then(StepInstr(up), kp)), s, st);
    var o := Eval(w, c, l, st);
    if o.Ok? {
      RunDuplicate(w, o.value, Then(StepInstr(up), kp), s, o.state);
      RunStep(w, up, o.value, kp, On(o.value, s), o.state);
      var v := StepItem(up, o.value);
      if v.Some? { PopCorrect(w, c, l, v.value, k, On(o.value, s), o.state); }
    }
  }

  lemma {:induction false} PostStepMessage(w: World, c: Config, up: bool, l: Expr, k: Code, s: Stack, st: State)
    requires l.ESend? && WellFormed(c, l) && !StepsByRef(c, l)
    ensures Run(w, PostStepCode(c, up, l, k), s, st) == Resume(w, EvalStep(w, c, up, false, l, st), k, s)
    decreases l, 4
  {
    hide Run, Exec, AccessCode, PushCode, Eval, StepMessage;
    if c.harbour {
      PostStepShuffle(w, c, up, l, k, s, st);
    } else {
      var kp := Then(Pop, k);
      PushCorrect(w, c, l, AccessCode(c, l, Then(StepInstr(up), Then(Send(1), kp))), s, st);
      var o := Eval(w, c, l, st);
      if o.Ok? {
        StepMessageCorrect(w, c, up, l, kp, On(o.value, s), o.state);
        ResumePop(w, StepMessage(w, c, up, l, o.state), k, On(o.value, s));
      }
    }
  }

  /** DUPLICATE and SWAP 2 put the accessed value below the message and the receiver, so that it
      is what remains when the result of the assign message is popped. */
  lemma {:induction false} PostStepShuffle(w: World, c: Config, up: bool, l: Expr, k: Code, s: Stack, st: State)
    requires l.ESend? && WellFormed(c, l) && !StepsByRef(c, l) && c.harbour
    ensures Run(w, PostStepCode(c, up, l, k), s, st) == Resume(w, EvalStep(w, c, up, false, l, st), k, s)
    decreases l, 3
  {
    hide Run, Exec, AccessCode, AccessPair, StepItem, SendItem;
    var m := "_" + l.message;
    var am := S(m);
    var kp := Then(Pop, k);
    var k2 := Then(StepInstr(up), Then(Send(1), kp));
    AccessCorrect(w, c, l, Then(Duplicate, Then(Swap(2), k2)), s, st);
    var p := AccessPair(w, c, l, st);
    if p.Ok? {
      var (ov, cur) := p.value;
      RunDuplicate(w, cur, Then(Swap(2), k2), On(ov, On(am, s)), p.state);
      RunSwapFew(w, k2, s, p.state, cur, cur, ov, am);
      RunStep(w, up, cur, Then(Send(1), kp), On(ov, On(am, On(cur, s))), p.state);
      var v := StepItem(up, cur);
      if v.Some? {
        RunSendShort(w, m, ov, V(v.value), kp, On(cur, s), p.state);
        ResumePop(w, SendItem(w, ov, m, [V(v.value)], p.state), k, On(cur, s));
      }
    }
  }

  // ---------------------------------------------------------------- HB_EA_PUSH_POP

  lemma {:induction false} DropCorrect(w: World, c: Config, e: Expr, k: Code, s: Stack, st: State)
    requires WellFormed(c, e)
    ensures Run(w, DropCode(c, e, k), s, st) == ResumeUnit(w, Effect(w, c, e, st), k, s)
    decreases e, 5
  {
    hide Run, Exec, PushCode, DropCode, Eval, Effect, WellFormed;
    match e
    case EVar(_) => DropVarCorrect(w, c, e, k, s, st);
    case EIif(_, _, _) => DropIifCorrect(w, c, e, k, s, st);
    case ECall(_, _) => DropCallCorrect(w, c, e, k, s, st);
    case EAlias(_, _) => DropAliasCorrect(w, c, e, k, s, st);
    case EAssign(_, _) => DropAssignCorrect(w, c, e, k, s, st);
    case ELogic(_, _, _) => DropLogicCorrect(w, c, e, k, s, st);
    case EArray(_) => DropItemsCorrect(w, c, e, k, s, st);
    case EList(_, _) => DropItemsCorrect(w, c, e, k, s, st);
    case EAt(_, _, _) => DropOperandsCorrect(w, c, e, k, s, st);
    case EBin(_, _, _) => DropOperandsCorrect(w, c, e, k, s, st);
    case ENot(_) => DropOperandsCorrect(w, c, e, k, s, st);
    case ENeg(_) => DropOperandsCorrect(w, c, e, k, s, st);
    case EOpEq(_, _, _) => DropUpdateCorrect(w, c, e, k, s, st);
    case EStep(_, _, _) => DropUpdateCorrect(w, c, e, k, s, st);
    case _ => DropOtherCorrect(w, c, e, k, s, st);
  }

  lemma {:induction false} DropItemsCorrect(w: World, c: Config, e: Expr, k: Code, s: Stack, st: State)
    requires (e.EArray? || e.EList?) && WellFormed(c, e)
    ensures Run(w, DropCode(c, e, k), s, st) == ResumeUnit(w, Effect(w, c, e, st), k, s)
    decreases e, 4
  {
    hide Run, Exec;
    if e.EArray? {
      DropAllCorrect(w, c, e.items, k, s, st);
    } else {
      DropAllCorrect(w, c, e.init, DropCode(c, e.last, k), s, st);
      var o := EffectAll(w, c, e.init, st);
      if o.Ok? { DropCorrect(w, c, e.last, k, s, o.state); }
    }
  }

  lemma {:induction false} DropOperandsCorrect(w: World, c: Config, e: Expr, k: Code, s: Stack, st: State)
    requires (e.EAt? || e.EBin? || e.ENot? || e.ENeg?) && WellFormed(c, e)
    ensures Run(w, DropCode(c, e, k), s, st) == ResumeUnit(w, Effect(w, c, e, st), k, s)
    decreases e, 4
  {
    hide Run, Exec, PushCode, Eval;
    if e.EAt? {
      DropBothCorrect(w, c, e.base, e.index, e, k, s, st);
    } else if !c.harbour {
      DropByPop(w, c, e, k, s, st);
    } else if e.EBin? {
      DropBothCorrect(w, c, e.left, e.right, e, k, s, st);
    } else {
      DropCorrect(w, c, e.arg, k, s, st);
    }
  }

  lemma {:induction false} DropUpdateCorrect(w: World, c: Config, e: Expr, k: Code, s: Stack, st: State)
    requires (e.EOpEq? || e.EStep?) && WellFormed(c, e)
    ensures Run(w, DropCode(c, e, k), s, st) == ResumeUnit(w, Effect(w, c, e, st), k, s)
    decreases e, 4
  {
    hide Run, Exec, PushCode, OpEqCode, EvalOpEq, StepCode, EvalStep;
    if e.EOpEq? { OpEqCorrect(w, c, e, false, k, s, st); } else { StepCorrect(w, c, e.up, e.target, false, k, s, st); }
  }

  lemma {:induction false} DropOtherCorrect(w: World, c: Config, e: Expr, k: Code, s: Stack, st: State)
    requires (e.ENil? || e.ENum? || e.EStr? || e.ELog? || e.EVarRef? || e.ERef? || e.ESend?) && WellFormed(c, e)
    ensures Run(w, DropCode(c, e, k), s, st) == ResumeUnit(w, Effect(w, c, e, st), k, s)
    decreases e, 4
  {
    hide Run, Exec, PushCode, Eval, WellFormed;
    if e.ESend? { DropByPop(w, c, e, k, s, st); }
  }

  lemma DropVarCorrect(w: World, c: Config, e: Expr, k: Code, s: Stack, st: State)
    requires e.EVar?
    ensures Run(w, DropCode(c, e, k), s, st) == ResumeUnit(w, Effect(w, c, e, st), k, s)
  {
    hide Run, Exec, LoadVar, PushVarInstr;
    PushVarCorrect(w, c, e.name, Then(Pop, k), s, st);
    ResumePop(w, FromOption(LoadVar(c, e.name, st), st), k, s);
  }

  lemma {:induction false} DropAllCorrect(w: World, c: Config, es: Exprs, k: Code, s: Stack, st: State)
    requires WellFormedAll(c, es)
    ensures Run(w, DropAllCode(c, es, k), s, st) == ResumeUnit(w, EffectAll(w, c, es, st), k, s)
    decreases es, 0
  {
    hide Run, Exec, DropCode, Effect;
    match es
    case ENone =>
    case EMore(e, t) =>
      DropCorrect(w, c, e, DropAllCode(c, t, k), s, st);
      var o := Effect(w, c, e, st);
      if o.Ok? { DropAllCorrect(w, c, t, k, s, o.state); }
  }

  function EffectBoth(w: World, c: Config, a: Expr, b: Expr, st: State): Outcome<()> {
    match Effect(w, c, a, st)
    case Err(st1) => Err(st1)
    case Ok(_, st1) => Effect(w, c, b, st1)
  }

  lemma {:induction false} DropBothCorrect(w: World, c: Config, a: Expr, b: Expr, whole: Expr, k: Code, s: Stack, st: State)
    requires a < whole && b < whole && WellFormed(c, a) && WellFormed(c, b)
    ensures Run(w, DropCode(c, a, DropCode(c, b, k)), s, st) == ResumeUnit(w, EffectBoth(w, c, a, b, st), k, s)
    decreases whole, 0
  {
    hide Run, Exec, DropCode, Effect;
    DropCorrect(w, c, a, DropCode(c, b, k), s, st);
    var o := Effect(w, c, a, st);
    if o.Ok? { DropCorrect(w, c, b, k, s, o.state); }
  }

  /** The value is computed and popped. */
  lemma {:induction false} DropByPop(w: World, c: Config, e: Expr, k: Code, s: Stack, st: State)
    requires WellFormed(c, e) && DropCode(c, e, k) == PushCode(c, e, Then(Pop, k)) && Effect(w, c, e, st) == Drop(Eval(w, c, e, st))
    ensures Run(w, DropCode(c, e, k), s, st) == ResumeUnit(w, Effect(w, c, e, st), k, s)
    decreases e, 3
  {
    hide Run, Exec, DropCode, PushCode, Effect, Eval;
    PushCorrect(w, c, e, Then(Pop, k), s, st);
    ResumePop(w, Eval(w, c, e, st), k, s);
  }

  /** The two layouts: with both jumps, and with the single inverted jump when the true arm
      generated no bytes. */
  lemma {:induction false} DropIifCorrect(w: World, c: Config, e: Expr, k: Code, s: Stack, st: State)
    requires e.EIif? && WellFormed(c, e)
    ensures Run(w, DropCode(c, e, k), s, st) == ResumeUnit(w, Effect(w, c, e, st), k, s)
    decreases e, 2
  {
    hide Run, Exec, Skip, CodeSize, PushCode, DropCode, Eval, Effect, WellFormed, Condition;
    DropIifForms(c, e, k);
    DropIifMeaning(w, c, e, st);
    IifForms(c, e, k);
    var EIif(x, a, b) := e;
    var n, m := CodeSize(DropCode(c, a, End)), CodeSize(DropCode(c, b, End));
    var kb := DropCode(c, b, k);
    var kj := Then(Jump(FAR + m), kb);
    var ka := DropCode(c, a, kj);
    var o := Eval(w, c, x, st);
    DropDistance(c, b, k);
    if n == 0 {
      DropNothing(c, a, k);
      PushCorrect(w, c, x, Then(JumpTrue(FAR + m), kb), s, st);
      ForkTrue(w, o, FAR + m, k, kb, s);
    } else {
      DropDistance(c, a, kj);
      SkipPast(ka, n, Jump(FAR + m), kb);
      PushCorrect(w, c, x, Then(JumpFalse(FAR + n + FAR), ka), s, st);
      ForkFalse(w, o, FAR + n + FAR, ka, kb, s);
    }
    if o.Ok? {
      DropCorrect(w, c, a, kj, s, o.state);
      DropCorrect(w, c, a, k, s, o.state);
      DropCorrect(w, c, b, k, s, o.state);
      match Effect(w, c, a, o.state)
      case Err(_) =>
      case Ok(_, st2) => RunJump(w, FAR + m, kb, k, s, st2);
    }
  }

  /** Code of no bytes is no code. */
  lemma DropNothing(c: Config, e: Expr, k: Code)
    requires CodeSize(DropCode(c, e, End)) == 0
    ensures DropCode(c, e, k) == k
  {
    hide DropCode;
    DropDistance(c, e, k);
  }

  lemma {:induction false} DropCallCorrect(w: World, c: Config, e: Expr, k: Code, s: Stack, st: State)
    requires e.ECall? && WellFormed(c, e)
    ensures Run(w, DropCode(c, e, k), s, st) == ResumeUnit(w, Effect(w, c, e, st), k, s)
    decreases e, 2
  {
    hide Run, PushCode;
    var n := Count(e.args);
    RunFunSym(w, e.function_, PushAllCode(c, e.args, Then(Do(n), k)), s, st);
    PushAllCorrect(w, c, e.args, Then(Do(n), k), On(V(NilV), On(S(e.function_), s)), st);
    var o := EvalAll(w, c, e.args, st);
    if o.Ok? { RunCall(w, e.function_, o.value, k, s, o.state); }
  }

  lemma {:induction false} DropAliasCorrect(w: World, c: Config, e: Expr, k: Code, s: Stack, st: State)
    requires e.EAlias? && WellFormed(c, e)
    ensures Run(w, DropCode(c, e, k), s, st) == ResumeUnit(w, Effect(w, c, e, st), k, s)
    decreases e, 2
  {
    hide Run, Exec, SelectArea, PushCode, Eval;
    var EAlias(a, b) := e;
    var saved := V(Num(st.area as real));
    var kb := DropCode(c, b, Then(PopAlias, k));
    RunPushAlias(w, PushCode(c, a, Then(PopAlias, kb)), s, st);
    PushCorrect(w, c, a, Then(PopAlias, kb), On(saved, s), st);
    var o := Eval(w, c, a, st);
    if o.Ok? {
      RunPopAlias(w, o.value, kb, On(saved, s), o.state);
      var st1 := SelectArea(w, o.value, o.state);
      DropCorrect(w, c, b, Then(PopAlias, k), On(saved, s), st1);
      var ob := Effect(w, c, b, st1);
      if ob.Ok? {
        RunPopAlias(w, saved, k, s, ob.state);
        SelectSaved(w, st.area, ob.state);
      }
    }
  }

  lemma {:induction false} DropAssignCorrect(w: World, c: Config, e: Expr, k: Code, s: Stack, st: State)
    requires e.EAssign? && WellFormed(c, e)
    ensures Run(w, DropCode(c, e, k), s, st) == ResumeUnit(w, Effect(w, c, e, st), k, s)
    decreases e, 4
  {
    hide Run, Exec, PushCode, PopCode, Eval, Store;
    var EAssign(l, r) := e;
    if l.ESend? {
      DropByPop(w, c, e, k, s, st);
    } else {
      PushCorrect(w, c, r, PopCode(c, l, k), s, st);
      var o := Eval(w, c, r, st);
      if o.Ok? {
        YieldsValue(w, c, r, st);
        PopCorrect(w, c, l, o.value.value, k, s, o.state);
      }
    }
  }

  lemma {:induction false} DropLogicCorrect(w: World, c: Config, e: Expr, k: Code, s: Stack, st: State)
    requires e.ELogic? && WellFormed(c, e)
    ensures Run(w, DropCode(c, e, k), s, st) == ResumeUnit(w, Effect(w, c, e, st), k, s)
    decreases e, 4
  {
    hide Run, Exec, Skip, CodeSize, PushCode, Eval;
    var ELogic(isAnd, a, b) := e;
    if c.shortcuts {
      var kb := DropCode(c, b, k);
      var d := FAR + CodeSize(DropCode(c, b, End));
      var o := Eval(w, c, a, st);
      PushCorrect(w, c, a, Then(Branching(!isAnd, d), kb), s, st);
      DropDistance(c, b, k);
      if isAnd { ForkFalse(w, o, d, kb, k, s); } else { ForkTrue(w, o, d, k, kb, s); }
      if o.Ok? { DropCorrect(w, c, b, k, s, o.state); }
    } else {
      DropByPop(w, c, e, k, s, st);
    }
  }

  /** What is assigned is a value. */
  lemma {:induction false} YieldsValue(w: World, c: Config, e: Expr, st: State)
    requires WellFormed(c, e) && !YieldsRef(e)
    ensures Eval(w, c, e, st).Ok? ==> Eval(w, c, e, st).value.V?
    decreases e, 1
  {
    hide Eval, WellFormed, YieldsRef;
    match e
    case EIif(_, _, _) => ChosenYieldsValue(w, c, e, st);
    case ELogic(_, _, _) => ChosenYieldsValue(w, c, e, st);
    case EList(_, _) => LastYieldsValue(w, c, e, st);
    case EAlias(_, _) => LastYieldsValue(w, c, e, st);
    case EAssign(_, _) => LastYieldsValue(w, c, e, st);
    case EStep(_, _, _) => TargetFormed(c, e); UpdateYieldsValue(w, c, e, st);
    case EOpEq(_, _, _) => TargetFormed(c, e); UpdateYieldsValue(w, c, e, st);
    case _ => OtherYieldsValue(w, c, e, st);
  }

  lemma {:induction false} ChosenYieldsValue(w: World, c: Config, e: Expr, st: State)
    requires (e.EIif? || e.ELogic?) && WellFormed(c, e) && !YieldsRef(e)
    ensures Eval(w, c, e, st).Ok? ==> Eval(w, c, e, st).value.V?
    decreases e, 0
  {
    var o := Eval(w, c, if e.EIif? then e.cond else e.left, st);
    if o.Ok? {
      if e.EIif? {
        YieldsValue(w, c, e.thn, o.state);
        YieldsValue(w, c, e.els, o.state);
      } else {
        YieldsValue(w, c, e.right, o.state);
      }
    }
  }

  lemma {:induction false} LastYieldsValue(w: World, c: Config, e: Expr, st: State)
    requires (e.EList? || e.EAlias? || e.EAssign?) && WellFormed(c, e) && !YieldsRef(e)
    ensures Eval(w, c, e, st).Ok? ==> Eval(w, c, e, st).value.V?
    decreases e, 0
  {
    hide SelectArea, Store;
    match e
    case EList(init, last) =>
      var o := EffectAll(w, c, init, st);
      if o.Ok? { YieldsValue(w, c, last, o.state); }
    case EAlias(a, b) =>
      var o := Eval(w, c, a, st);
      if o.Ok? { YieldsValue(w, c, b, SelectArea(w, o.value, o.state)); }
    case EAssign(_, r) => YieldsValue(w, c, r, st);
  }

  lemma OtherYieldsValue(w: World, c: Config, e: Expr, st: State)
    requires !e.EIif? && !e.ELogic? && !e.EList? && !e.EAlias? && !e.EAssign? && !e.EStep? && !e.EOpEq? && !YieldsRef(e)
    ensures Eval(w, c, e, st).Ok? ==> Eval(w, c, e, st).value.V?
  {
    hide Refer, LocateElement, OperateItems, NewArray;
  }

  lemma TargetFormed(c: Config, e: Expr)
    requires (e.EStep? || e.EOpEq?) && WellFormed(c, e)
    ensures Target(c, e.target)
  {
  }

  lemma UpdateYieldsValue(w: World, c: Config, e: Expr, st: State)
    requires e.EStep? || e.EOpEq?
    requires Target(c, e.target)
    ensures Eval(w, c, e, st).Ok? ==> Eval(w, c, e, st).value.V?
  {
    hide StepRef, OperateRef, Locate, Store;
    if e.EStep? {
      StepYieldsValue(w, c, e.up, e.pre, e.target, st);
    } else {
      if !UpdatesByRef(c, e.target) && !e.target.ESend? {
        assert EvalOpEq(w, c, e, st) == GenericOpEq(w, c, e, st);
      }
      assert EvalOpEq(w, c, e, st).Ok? ==> EvalOpEq(w, c, e, st).value.V?;
    }
  }

  lemma StepYieldsValue(w: World, c: Config, up: bool, pre: bool, l: Expr, st: State)
    requires Target(c, l)
    ensures EvalStep(w, c, up, pre, l, st).Ok? ==> EvalStep(w, c, up, pre, l, st).value.V?
  {
    hide StepRef, OperateRef, Locate, Store;
    if !StepsByRef(c, l) && !l.ESend? { assert EvalStep(w, c, up, pre, l, st) == GenericStep(w, c, up, pre, l, st); }
    TargetYieldsValue(w, c, l, st);
    if l.ESend? { AccessYieldsValue(w, c, l, st); }
  }

  lemma AccessYieldsValue(w: World, c: Config, l: Expr, st: State)
    requires l.ESend?
    ensures AccessPair(w, c, l, st).Ok? ==> AccessPair(w, c, l, st).value.1.V?
  {
  }

  lemma {:induction false} TargetYieldsValue(w: World, c: Config, l: Expr, st: State)
    requires Target(c, l)
    ensures Eval(w, c, l, st).Ok? ==> Eval(w, c, l, st).value.V?
  {
    match l
    case EIif(x, a, b) =>
      var o := Eval(w, c, x, st);
      if o.Ok? { TargetYieldsValue(w, c, a, o.state); TargetYieldsValue(w, c, b, o.state); }
    case _ =>
  }
}
