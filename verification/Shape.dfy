/** Generated code does not depend on what follows it: appending k2 to the code of an expression
    is the same as generating the expression with k2 behind its continuation.  Jump distances
    measured on an expression's code alone are therefore right wherever the code is placed. */
module Shape {
  import opened Values
  import opened Expressions
  import opened Pcode
  import opened Meaning
  import opened Compiler

  lemma AppendThree(x: Instr, y: Instr, z: Instr, k1: Code, k2: Code)
    ensures Append(Then(x, Then(y, Then(z, k1))), k2) == Then(x, Then(y, Then(z, Append(k1, k2))))
    ensures Append(Then(y, Then(z, k1)), k2) == Then(y, Then(z, Append(k1, k2)))
  {
    assert Append(Then(z, k1), k2) == Then(z, Append(k1, k2));
    assert Append(Then(y, Then(z, k1)), k2) == Then(y, Append(Then(z, k1), k2));
  }

  lemma {:induction false} PushShape(c: Config, e: Expr, k1: Code, k2: Code)
    ensures PushCode(c, e, Append(k1, k2)) == Append(PushCode(c, e, k1), k2)
    decreases e, 2
  {
    hide PushCode, CodeSize, DropCode, PopCode;
    match e
    case ERef(_) => PushRefShape(c, e, k1, k2);
    case EArray(_) => PushItemsShape(c, e, k1, k2);
    case EIif(_, _, _) => PushIifShape(c, e, k1, k2);
    case EList(_, _) => PushListShape(c, e, k1, k2);
    case EAt(_, _, _) => PushAtShape(c, e, k1, k2);
    case ECall(_, _) => PushItemsShape(c, e, k1, k2);
    case ESend(_, _, _, _) => PushSendShape(c, e, k1, k2);
    case EAlias(_, _) => PushAliasShape(c, e, k1, k2);
    case EAssign(_, _) => PushAssignShape(c, e, k1, k2);
    case EOpEq(_, _, _) => PushUpdateShape(c, e, k1, k2);
    case EStep(_, _, _) => PushUpdateShape(c, e, k1, k2);
    case ELogic(_, _, _) => LogicShape(c, e, k1, k2);
    case ENot(_) => PushUnaryShape(c, e, k1, k2);
    case ENeg(_) => PushUnaryShape(c, e, k1, k2);
    case EBin(_, _, _) => BinShape(c, e, k1, k2);
    case _ => PushLeafShape(c, e, k1, k2);
  }

  lemma PushLeafShape(c: Config, e: Expr, k1: Code, k2: Code)
    requires e.ENil? || e.ENum? || e.EStr? || e.ELog? || e.EVar? || e.EVarRef?
    ensures PushCode(c, e, Append(k1, k2)) == Append(PushCode(c, e, k1), k2)
  {
  }

  lemma {:induction false} PushRefShape(c: Config, e: Expr, k1: Code, k2: Code)
    requires e.ERef?
    ensures PushCode(c, e, Append(k1, k2)) == Append(PushCode(c, e, k1), k2)
    decreases e, 1
  {
    hide LocateCode;
    if e.operand.EVarRef? || e.operand.ERef? { PushShape(c, e.operand, k1, k2); } else { LocateShape(c, e.operand, k1, k2); }
  }

  lemma {:induction false} PushItemsShape(c: Config, e: Expr, k1: Code, k2: Code)
    requires e.EArray? || e.ECall?
    ensures PushCode(c, e, Append(k1, k2)) == Append(PushCode(c, e, k1), k2)
    decreases e, 1
  {
    match e
    case EArray(items) => PushAllShape(c, items, Then(ArrayGen(Count(items)), k1), k2);
    case ECall(f, args) => PushAllShape(c, args, Then(Function(Count(args)), k1), k2);
  }

  lemma {:induction false} PushListShape(c: Config, e: Expr, k1: Code, k2: Code)
    requires e.EList?
    ensures PushCode(c, e, Append(k1, k2)) == Append(PushCode(c, e, k1), k2)
    decreases e, 1
  {
    PushShape(c, e.last, k1, k2);
    DropAllShape(c, e.init, PushCode(c, e.last, k1), k2);
  }

  lemma {:induction false} PushAtShape(c: Config, e: Expr, k1: Code, k2: Code)
    requires e.EAt?
    ensures PushCode(c, e, Append(k1, k2)) == Append(PushCode(c, e, k1), k2)
    decreases e, 1
  {
    var at := if e.byRef then ArrayPushRef else ArrayPush;
    PushShape(c, e.index, Then(at, k1), k2);
    PushShape(c, e.base, PushCode(c, e.index, Then(at, k1)), k2);
  }

  lemma {:induction false} PushUpdateShape(c: Config, e: Expr, k1: Code, k2: Code)
    requires e.EOpEq? || e.EStep?
    ensures PushCode(c, e, Append(k1, k2)) == Append(PushCode(c, e, k1), k2)
    decreases e, 1, 1
  {
    hide OpEqCode, StepCode, PostStepCode;
    match e
    case EOpEq(_, _, _) => OpEqShape(c, e, true, k1, k2);
    case EStep(up, pre, l) => if pre { StepShape(c, up, l, true, k1, k2); } else { PostStepShape(c, up, l, k1, k2); }
  }

  lemma {:induction false} PushUnaryShape(c: Config, e: Expr, k1: Code, k2: Code)
    requires e.ENot? || e.ENeg?
    ensures PushCode(c, e, Append(k1, k2)) == Append(PushCode(c, e, k1), k2)
    decreases e, 1
  {
    PushShape(c, e.arg, Then(if e.ENot? then Not else Neg, k1), k2);
  }

  lemma {:induction false} PushAliasShape(c: Config, e: Expr, k1: Code, k2: Code)
    requires e.EAlias?
    ensures PushCode(c, e, Append(k1, k2)) == Append(PushCode(c, e, k1), k2)
    decreases e, 1
  {
    hide CodeSize, DropCode, PopCode;
    var EAlias(a, b) := e;
    PushShape(c, b, Then(SwapAlias, k1), k2);
    PushShape(c, a, Then(PopAlias, PushCode(c, b, Then(SwapAlias, k1))), k2);
  }

  lemma {:induction false} PushSendShape(c: Config, e: Expr, k1: Code, k2: Code)
    requires e.ESend?
    ensures PushCode(c, e, Append(k1, k2)) == Append(PushCode(c, e, k1), k2)
    decreases e, 1
  {
    hide CodeSize, DropCode, PopCode;
    var ESend(o, m, _, ps) := e;
    PushAllShape(c, ps, Then(Send(Count(ps)), k1), k2);
    PushShape(c, o, PushAllCode(c, ps, Then(Send(Count(ps)), k1)), k2);
  }

  lemma {:induction false} PushAssignShape(c: Config, e: Expr, k1: Code, k2: Code)
    requires e.EAssign?
    ensures PushCode(c, e, Append(k1, k2)) == Append(PushCode(c, e, k1), k2)
    decreases e, 1
  {
    hide CodeSize, DropCode;
    var EAssign(l, r) := e;
    if l.ESend? {
      PushShape(c, r, Then(Send(1), k1), k2);
      PushShape(c, l.object_, PushCode(c, r, Then(Send(1), k1)), k2);
    } else {
      PopShape(c, l, k1, k2);
      PushShape(c, r, Then(PushUnref, PopCode(c, l, k1)), k2);
    }
  }

  lemma {:induction false} PushIifShape(c: Config, e: Expr, k1: Code, k2: Code)
    requires e.EIif?
    ensures PushCode(c, e, Append(k1, k2)) == Append(PushCode(c, e, k1), k2)
    decreases e, 1
  {
    hide CodeSize, DropCode, PopCode;
    var EIif(x, a, b) := e;
    var n, m := CodeSize(PushCode(c, a, End)), CodeSize(PushCode(c, b, End));
    PushShape(c, b, k1, k2);
    PushShape(c, a, Then(Jump(FAR + m), PushCode(c, b, k1)), k2);
    PushShape(c, x, Then(JumpFalse(FAR + n + FAR), PushCode(c, a, Then(Jump(FAR + m), PushCode(c, b, k1)))), k2);
  }

  lemma {:induction false} LogicShape(c: Config, e: Expr, k1: Code, k2: Code)
    requires e.ELogic?
    ensures PushCode(c, e, Append(k1, k2)) == Append(PushCode(c, e, k1), k2)
    decreases e, 1
  {
    var ELogic(isAnd, a, b) := e;
    if c.shortcuts {
      var n := CodeSize(PushCode(c, b, End));
      PushShape(c, b, k1, k2);
      AppendThree(Duplicate, Branching(!isAnd, FAR + 1 + n), Pop, PushCode(c, b, k1), k2);
      PushShape(c, a, Then(Duplicate, Then(Branching(!isAnd, FAR + 1 + n), Then(Pop, PushCode(c, b, k1)))), k2);
    } else {
      var op := if isAnd then And else Or;
      PushShape(c, b, Then(op, k1), k2);
      PushShape(c, a, PushCode(c, b, Then(op, k1)), k2);
    }
  }

  lemma {:induction false} BinShape(c: Config, e: Expr, k1: Code, k2: Code)
    requires e.EBin?
    ensures PushCode(c, e, Append(k1, k2)) == Append(PushCode(c, e, k1), k2)
    decreases e, 1
  {
    var EBin(op, a, b) := e;
    match UnitStep(c, e) {
      case Some((x, up)) => PushShape(c, x, Then(StepInstr(up), k1), k2);
      case None =>
        PushShape(c, b, Then(Bin(op), k1), k2);
        PushShape(c, a, PushCode(c, b, Then(Bin(op), k1)), k2);
    }
  }

  lemma {:induction false} PushAllShape(c: Config, es: Exprs, k1: Code, k2: Code)
    ensures PushAllCode(c, es, Append(k1, k2)) == Append(PushAllCode(c, es, k1), k2)
    decreases es, 0
  {
    match es
    case ENone =>
    case EMore(e, t) =>
      PushAllShape(c, t, k1, k2);
      PushShape(c, e, PushAllCode(c, t, k1), k2);
  }

  lemma {:induction false} PopShape(c: Config, l: Expr, k1: Code, k2: Code)
    ensures PopCode(c, l, Append(k1, k2)) == Append(PopCode(c, l, k1), k2)
    decreases l, 2
  {
    hide CodeSize;
    match l
    case EAt(b, i, _) =>
      PushShape(c, i, Then(ArrayPop, k1), k2);
      PushShape(c, b, PushCode(c, i, Then(ArrayPop, k1)), k2);
    case ESend(o, _, _, _) =>
      AppendThree(Swap(1), Send(1), Pop, k1, k2);
      assert Append(Then(Swap(1), Then(Swap(1), Then(Send(1), Then(Pop, k1)))), k2)
          == Then(Swap(1), Append(Then(Swap(1), Then(Send(1), Then(Pop, k1))), k2));
      PushShape(c, o, Then(Swap(1), Then(Swap(1), Then(Send(1), Then(Pop, k1)))), k2);
    case EIif(x, a, b) =>
      var n, m := CodeSize(PopCode(c, a, End)), CodeSize(PopCode(c, b, End));
      PopShape(c, b, k1, k2);
      PopShape(c, a, Then(Jump(FAR + m), PopCode(c, b, k1)), k2);
      PushShape(c, x, Then(JumpFalse(FAR + n + FAR), PopCode(c, a, Then(Jump(FAR + m), PopCode(c, b, k1)))), k2);
    case _ =>
  }

  lemma {:induction false} DropShape(c: Config, e: Expr, k1: Code, k2: Code)
    ensures DropCode(c, e, Append(k1, k2)) == Append(DropCode(c, e, k1), k2)
    decreases e, 4
  {
    hide DropCode, PushCode, CodeSize, PopCode;
    match e
    case EIif(_, _, _) => DropIifShape(c, e, k1, k2);
    case EAlias(_, _) => DropAliasShape(c, e, k1, k2);
    case EAssign(_, _) => DropAssignShape(c, e, k1, k2);
    case ELogic(_, _, _) => DropLogicShape(c, e, k1, k2);
    case EArray(_) => DropItemsShape(c, e, k1, k2);
    case EList(_, _) => DropItemsShape(c, e, k1, k2);
    case EAt(_, _, _) => DropTwoShape(c, e, k1, k2);
    case EBin(_, _, _) => DropTwoShape(c, e, k1, k2);
    case EOpEq(_, _, _) => DropUpdateShape(c, e, k1, k2);
    case EStep(_, _, _) => DropUpdateShape(c, e, k1, k2);
    case _ => DropOneShape(c, e, k1, k2);
  }

  lemma {:induction false} DropItemsShape(c: Config, e: Expr, k1: Code, k2: Code)
    requires e.EArray? || e.EList?
    ensures DropCode(c, e, Append(k1, k2)) == Append(DropCode(c, e, k1), k2)
    decreases e, 3
  {
    if e.EArray? {
      DropAllShape(c, e.items, k1, k2);
    } else {
      DropShape(c, e.last, k1, k2);
      DropAllShape(c, e.init, DropCode(c, e.last, k1), k2);
    }
  }

  lemma {:induction false} DropTwoShape(c: Config, e: Expr, k1: Code, k2: Code)
    requires e.EAt? || e.EBin?
    ensures DropCode(c, e, Append(k1, k2)) == Append(DropCode(c, e, k1), k2)
    decreases e, 3
  {
    hide PushCode;
    var (a, b) := if e.EAt? then (e.base, e.index) else (e.left, e.right);
    DropShape(c, b, k1, k2);
    DropShape(c, a, DropCode(c, b, k1), k2);
    PushShape(c, e, Then(Pop, k1), k2);
  }

  lemma {:induction false} DropUpdateShape(c: Config, e: Expr, k1: Code, k2: Code)
    requires e.EOpEq? || e.EStep?
    ensures DropCode(c, e, Append(k1, k2)) == Append(DropCode(c, e, k1), k2)
    decreases e, 3
  {
    hide OpEqCode, StepCode;
    if e.EOpEq? { OpEqShape(c, e, false, k1, k2); } else { StepShape(c, e.up, e.target, false, k1, k2); }
  }

  lemma {:induction false} DropOneShape(c: Config, e: Expr, k1: Code, k2: Code)
    requires e.ENot? || e.ENeg? || e.ECall? || e.ESend? || e.ENil? || e.ENum? || e.EStr? || e.ELog? || e.EVar? || e.EVarRef? || e.ERef?
    ensures DropCode(c, e, Append(k1, k2)) == Append(DropCode(c, e, k1), k2)
    decreases e, 3
  {
    hide PushCode;
    match e
    case ENot(x) => DropShape(c, x, k1, k2); PushShape(c, e, Then(Pop, k1), k2);
    case ENeg(x) => DropShape(c, x, k1, k2); PushShape(c, e, Then(Pop, k1), k2);
    case ECall(f, args) => PushAllShape(c, args, Then(Do(Count(args)), k1), k2);
    case ESend(_, _, _, _) => PushShape(c, e, Then(Pop, k1), k2);
    case _ =>
  }

  lemma {:induction false} DropAliasShape(c: Config, e: Expr, k1: Code, k2: Code)
    requires e.EAlias?
    ensures DropCode(c, e, Append(k1, k2)) == Append(DropCode(c, e, k1), k2)
    decreases e, 3
  {
    hide CodeSize, PopCode;
    var EAlias(a, b) := e;
    DropShape(c, b, Then(PopAlias, k1), k2);
    PushShape(c, a, Then(PopAlias, DropCode(c, b, Then(PopAlias, k1))), k2);
  }

  lemma {:induction false} DropLogicShape(c: Config, e: Expr, k1: Code, k2: Code)
    requires e.ELogic?
    ensures DropCode(c, e, Append(k1, k2)) == Append(DropCode(c, e, k1), k2)
    decreases e, 3
  {
    hide CodeSize, PopCode;
    var ELogic(isAnd, a, b) := e;
    if c.shortcuts {
      DropShape(c, b, k1, k2);
      PushShape(c, a, Then(Branching(!isAnd, FAR + CodeSize(DropCode(c, b, End))), DropCode(c, b, k1)), k2);
    } else {
      PushShape(c, e, Then(Pop, k1), k2);
    }
  }

  lemma {:induction false} DropAssignShape(c: Config, e: Expr, k1: Code, k2: Code)
    requires e.EAssign?
    ensures DropCode(c, e, Append(k1, k2)) == Append(DropCode(c, e, k1), k2)
    decreases e, 3
  {
    hide CodeSize;
    var EAssign(l, r) := e;
    if l.ESend? {
      PushShape(c, e, Then(Pop, k1), k2);
    } else {
      PopShape(c, l, k1, k2);
      PushShape(c, r, PopCode(c, l, k1), k2);
    }
  }

  lemma {:induction false} DropIifShape(c: Config, e: Expr, k1: Code, k2: Code)
    requires e.EIif?
    ensures DropCode(c, e, Append(k1, k2)) == Append(DropCode(c, e, k1), k2)
    decreases e, 3
  {
    hide CodeSize, PopCode;
    var EIif(x, a, b) := e;
    var n, m := CodeSize(DropCode(c, a, End)), CodeSize(DropCode(c, b, End));
    DropShape(c, b, k1, k2);
    DropShape(c, a, Then(Jump(FAR + m), DropCode(c, b, k1)), k2);
    if n == 0 {
      PushShape(c, x, Then(JumpTrue(FAR + m), DropCode(c, b, k1)), k2);
    } else {
      PushShape(c, x, Then(JumpFalse(FAR + n + FAR), DropCode(c, a, Then(Jump(FAR + m), DropCode(c, b, k1)))), k2);
    }
  }

  lemma {:induction false} DropAllShape(c: Config, es: Exprs, k1: Code, k2: Code)
    ensures DropAllCode(c, es, Append(k1, k2)) == Append(DropAllCode(c, es, k1), k2)
    decreases es, 0
  {
    match es
    case ENone =>
    case EMore(e, t) =>
      DropAllShape(c, t, k1, k2);
      DropShape(c, e, DropAllCode(c, t, k1), k2);
  }

  lemma {:induction false} LocateShape(c: Config, l: Expr, k1: Code, k2: Code)
    ensures LocateCode(c, l, Append(k1, k2)) == Append(LocateCode(c, l, k1), k2)
    decreases l, 2
  {
    match l
    case EAt(b, i, _) =>
      PushShape(c, i, Then(ArrayPushRef, k1), k2);
      PushShape(c, b, PushCode(c, i, Then(ArrayPushRef, k1)), k2);
    case ESend(o, _, _, _) => PushShape(c, o, Then(PushOVarRef, k1), k2);
    case _ =>
  }

  lemma {:induction false} AccessShape(c: Config, l: Expr, k1: Code, k2: Code)
    requires l.ESend?
    ensures AccessCode(c, l, Append(k1, k2)) == Append(AccessCode(c, l, k1), k2)
    decreases l, 2
  {
    if c.harbour {
      var k := Then(Message(l.message), Then(Swap(0), Then(Send(0), k1)));
      AppendThree(Message(l.message), Swap(0), Send(0), k1, k2);
      assert Append(Then(Duplicate, k), k2) == Then(Duplicate, Append(k, k2));
      PushShape(c, l.object_, Then(Duplicate, k), k2);
    } else {
      PushShape(c, l.object_, Then(Send(0), k1), k2);
      PushShape(c, l.object_, Then(Message(l.message), PushCode(c, l.object_, Then(Send(0), k1))), k2);
    }
  }

  lemma {:induction false} OpEqShape(c: Config, e: Expr, wanted: bool, k1: Code, k2: Code)
    requires e.EOpEq?
    ensures OpEqCode(c, e, wanted, Append(k1, k2)) == Append(OpEqCode(c, e, wanted, k1), k2)
    decreases e, 1, 0
  {
    var EOpEq(op, l, r) := e;
    if UpdatesByRef(c, l) {
      if !AddsInt(c, op, l, r) {
        var i := if wanted then OpEq(op) else OpEqPop(op);
        PushShape(c, r, Then(i, k1), k2);
        LocateShape(c, l, PushCode(c, r, Then(i, k1)), k2);
      }
    } else if l.ESend? {
      var k := Then(Bin(op), Then(Send(1), DropIf(!wanted, k1)));
      AppendThree(Pop, Bin(op), Send(1), DropIf(!wanted, k1), k2);
      PushShape(c, r, k, k2);
      AccessShape(c, l, PushCode(c, r, k), k2);
    } else {
      PopShape(c, l, k1, k2);
      var k := Then(Bin(op), if wanted then Then(Duplicate, PopCode(c, l, k1)) else PopCode(c, l, k1));
      PushShape(c, r, k, k2);
      PushShape(c, l, PushCode(c, r, k), k2);
    }
  }

  lemma {:induction false} StepShape(c: Config, up: bool, l: Expr, wanted: bool, k1: Code, k2: Code)
    ensures StepCode(c, up, l, wanted, Append(k1, k2)) == Append(StepCode(c, up, l, wanted, k1), k2)
    decreases l, 4
  {
    hide CodeSize, PushCode, PopCode;
    if StepsByRef(c, l) {
      LocateShape(c, l, Then(if wanted then StepEq(up) else StepEqPop(up), k1), k2);
    } else if l.ESend? {
      var k := Then(StepInstr(up), Then(Send(1), DropIf(!wanted, k1)));
      AppendThree(Pop, StepInstr(up), Send(1), DropIf(!wanted, k1), k2);
      AccessShape(c, l, k, k2);
    } else {
      PopShape(c, l, k1, k2);
      PushShape(c, l, Then(StepInstr(up), if wanted then Then(Duplicate, PopCode(c, l, k1)) else PopCode(c, l, k1)), k2);
    }
  }

  lemma {:induction false} PostStepShape(c: Config, up: bool, l: Expr, k1: Code, k2: Code)
    ensures PostStepCode(c, up, l, Append(k1, k2)) == Append(PostStepCode(c, up, l, k1), k2)
    decreases l, 4
  {
    if StepsByRef(c, l) {
      LocateShape(c, l, Then(DuplUnref, Then(StepEqPop(up), k1)), k2);
    } else if l.ESend? {
      var k0 := Then(StepInstr(up), Then(Send(1), Then(Pop, k1)));
      AppendThree(StepInstr(up), Send(1), Pop, k1, k2);
      AppendThree(Pop, Duplicate, Swap(2), k0, k2);
      if c.harbour {
        AccessShape(c, l, Then(Duplicate, Then(Swap(2), k0)), k2);
      } else {
        AccessShape(c, l, k0, k2);
        PushShape(c, l, AccessCode(c, l, k0), k2);
      }
    } else {
      PopShape(c, l, k1, k2);
      PushShape(c, l, Then(Duplicate, Then(StepInstr(up), PopCode(c, l, k1))), k2);
    }
  }

  // ---------------------------------------------------------------- distances

  /** A jump over the code of an expression lands on what follows it. */
  lemma PushDistance(c: Config, e: Expr, k: Code)
    ensures CodeSize(PushCode(c, e, k)) == CodeSize(PushCode(c, e, End)) + CodeSize(k)
    ensures Skip(PushCode(c, e, k), CodeSize(PushCode(c, e, End))) == Some(k)
  {
    PushShape(c, e, End, k);
    SkipAppend(PushCode(c, e, End), k);
  }

  lemma PopDistance(c: Config, l: Expr, k: Code)
    ensures CodeSize(PopCode(c, l, k)) == CodeSize(PopCode(c, l, End)) + CodeSize(k)
    ensures Skip(PopCode(c, l, k), CodeSize(PopCode(c, l, End))) == Some(k)
  {
    PopShape(c, l, End, k);
    SkipAppend(PopCode(c, l, End), k);
  }

  lemma DropDistance(c: Config, e: Expr, k: Code)
    ensures CodeSize(DropCode(c, e, k)) == CodeSize(DropCode(c, e, End)) + CodeSize(k)
    ensures Skip(DropCode(c, e, k), CodeSize(DropCode(c, e, End))) == Some(k)
  {
    DropShape(c, e, End, k);
    SkipAppend(DropCode(c, e, End), k);
  }
}
