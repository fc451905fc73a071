/** Generated code passes the stack scan: +1 for HB_EA_PUSH_PCODE, -1 for HB_EA_POP_PCODE, 0 for
    HB_EA_PUSH_POP, whatever follows it and whatever jumps over it. */
module Discipline {
  import opened Values
  import opened Expressions
  import opened Pcode
  import opened Meaning
  import opened Compiler
  import opened Shape
  import opened StackDepth
  import opened ByteMachine

  /** Code k may be entered with depth d. */
  predicate Entered(k: Code, d: nat, labels: Labels, final: nat) {
    Below(labels, CodeSize(k)) && Checks(k, Some(d), labels, final)
  }

  lemma Step(i: Instr, k: Code, d: nat, labels: Labels, final: nat)
    requires Distance(i).None? && !i.Refused? && Takes(i) <= d && Entered(k, After(i, d), labels, final)
    ensures Entered(Then(i, k), d, labels, final)
  {
    hide Takes, StackDepth.Leaves, Distance, Checks, Size;
    ThenChecks(i, k, d, labels, final);
  }

  /** A conditional jump over `over` to kb, in front of k. */
  lemma Fork(i: Instr, over: Code, kb: Code, k: Code, d: nat, e: nat, labels: Labels, final: nat)
    requires (i.JumpTrue? || i.JumpFalse?) && i.offset == FAR + CodeSize(over) - CodeSize(kb)
    requires CodeSize(k) <= CodeSize(kb) <= CodeSize(over) && (CodeSize(kb) == CodeSize(k) ==> d == e)
    requires Entered(k, e, labels, final) && Entered(over, d, labels[CodeSize(kb) := d], final)
    ensures Entered(Then(i, over), d + 1, labels, final)
  {
    hide Checks, Skip;
    EntryLabel(k, e, labels, final);
    JumpChecks(i, over, kb, d + 1, labels, final);
  }

  /** The end of a true arm: a jump over the false arm, which is entered by a jump only. */
  lemma Skipping(over: Code, k: Code, d: nat, e: nat, labels: Labels, final: nat)
    requires CodeSize(k) <= CodeSize(over) && (CodeSize(over) == CodeSize(k) ==> d == e)
    requires Entered(k, e, labels, final) && Entered(over, d, labels[CodeSize(k) := e], final)
    ensures Entered(Then(Jump(FAR + CodeSize(over) - CodeSize(k)), over), e, labels[CodeSize(over) := d], final)
  {
    hide Checks, Skip, Takes, StackDepth.Leaves, Below;
    var j, labels2 := Jump(FAR + CodeSize(over) - CodeSize(k)), labels[CodeSize(over) := d];
    JumpDepth(j, e);
    EntryLabel(k, e, labels, final);
    EntryLabel(over, d, labels[CodeSize(k) := e], final);
    SwapLabels(labels, CodeSize(k), e, CodeSize(over), d);
    BelowWider(labels, CodeSize(k), CodeSize(over), d, CodeSize(over));
    BelowWider(labels, CodeSize(k), CodeSize(over), d, CodeSize(Then(j, over)));
    JumpChecks(j, over, k, e, labels2, final);
  }

  lemma BelowWider(labels: Labels, r: nat, u: nat, d: nat, wider: nat)
    requires Below(labels, r) && r <= wider && u <= wider
    ensures Below(labels[u := d], wider)
  {
  }

  lemma JumpDepth(j: Instr, e: nat)
    requires j.Jump?
    ensures Takes(j) == 0 && After(j, e) == e && Onward(j, e) == None
  {
  }

  lemma SwapLabels(labels: Labels, r: nat, e: nat, u: nat, d: nat)
    requires r == u ==> d == e
    ensures labels[r := e][u := d] == labels[u := d][r := e]
  {
  }

  /** A jump to k may be pending when k is entered. */
  lemma BesideTarget(k: Code, d: nat, labels: Labels, final: nat)
    requires Entered(k, d, labels, final)
    ensures Entered(k, d, labels[CodeSize(k) := d], final)
  {
    hide Checks;
    EntryLabel(k, d, labels, final);
  }

  // ---------------------------------------------------------------- HB_EA_PUSH_PCODE

  lemma {:induction false} PushEntered(c: Config, e: Expr, k: Code, d: nat, labels: Labels, final: nat)
    requires WellFormed(c, e) && Entered(k, d + 1, labels, final)
    ensures Entered(PushCode(c, e, k), d, labels, final)
    decreases e, 3
  {
    hide Entered, CodeSize, StackDepth.Leaves, Takes;
    match e
    case ERef(_) => PushRef(c, e, k, d, labels, final);
    case EArray(_) => PushArray(c, e, k, d, labels, final);
    case ECall(_, _) => PushCall(c, e, k, d, labels, final);
    case ESend(_, _, _, _) => PushSend(c, e, k, d, labels, final);
    case EIif(_, _, _) => PushIif(c, e, k, d, labels, final);
    case EList(init, last) =>
      PushEntered(c, last, k, d, labels, final);
      DropAllEntered(c, init, PushCode(c, last, k), d, labels, final);
    case EAt(_, _, _) => PushAt(c, e, k, d, labels, final);
    case EAlias(_, _) => PushAliasEntered(c, e, k, d, labels, final);
    case EAssign(_, _) => PushAssign(c, e, k, d, labels, final);
    case EOpEq(_, _, _) => OpEqEntered(c, e, true, k, d, labels, final);
    case EStep(up, pre, l) =>
      if pre { StepEntered(c, up, l, true, k, d, labels, final); } else { PostEntered(c, up, l, k, d, labels, final); }
    case ELogic(_, _, _) => PushLogic(c, e, k, d, labels, final);
    case ENot(_) => PushUnary(c, e, k, d, labels, final);
    case ENeg(_) => PushUnary(c, e, k, d, labels, final);
    case EBin(_, _, _) => PushBin(c, e, k, d, labels, final);
    case _ => PushLeaf(c, e, k, d, labels, final);
  }

  /** An instruction with its depth before and after. */
  lemma StepOnce(i: Instr, k: Code, d: nat, e: nat, labels: Labels, final: nat)
    requires Distance(i).None? && !i.Refused? && Takes(i) <= d && e == After(i, d) && Entered(k, e, labels, final)
    ensures Entered(Then(i, k), d, labels, final)
  {
    Step(i, k, d, labels, final);
  }

  lemma PushLeaf(c: Config, e: Expr, k: Code, d: nat, labels: Labels, final: nat)
    requires e.ENil? || e.ENum? || e.EStr? || e.ELog? || e.EVar? || e.EVarRef?
    requires WellFormed(c, e) && Entered(k, d + 1, labels, final)
    ensures Entered(PushCode(c, e, k), d, labels, final)
  {
    hide Entered;
    Step(PushCode(c, e, k).head, k, d, labels, final);
  }

  lemma {:induction false} PushRef(c: Config, e: Expr, k: Code, d: nat, labels: Labels, final: nat)
    requires e.ERef? && WellFormed(c, e) && Entered(k, d + 1, labels, final)
    ensures Entered(PushCode(c, e, k), d, labels, final)
    decreases e, 2
  {
    hide Entered, LocateCode;
    if e.operand.EVarRef? || e.operand.ERef? {
      PushEntered(c, e.operand, k, d, labels, final);
    } else {
      LocateEntered(c, e.operand, k, d, labels, final);
    }
  }

  lemma {:induction false} PushAllEntered(c: Config, es: Exprs, k: Code, d: nat, labels: Labels, final: nat)
    requires WellFormedAll(c, es) && Entered(k, d + Count(es), labels, final)
    ensures Entered(PushAllCode(c, es, k), d, labels, final)
    decreases es, 0
  {
    hide Entered, PushCode, WellFormed;
    match es
    case ENone =>
    case EMore(e, t) =>
      PushAllEntered(c, t, k, d + 1, labels, final);
      PushEntered(c, e, PushAllCode(c, t, k), d, labels, final);
  }

  lemma {:induction false} PushTwo(c: Config, a: Expr, b: Expr, whole: Expr, k: Code, d: nat, labels: Labels, final: nat)
    requires a < whole && b < whole && WellFormed(c, a) && WellFormed(c, b) && Entered(k, d + 2, labels, final)
    ensures Entered(PushCode(c, a, PushCode(c, b, k)), d, labels, final)
    decreases whole, 0, 0
  {
    hide Entered, PushCode, WellFormed;
    PushEntered(c, b, k, d + 1, labels, final);
    PushEntered(c, a, PushCode(c, b, k), d, labels, final);
  }

  lemma {:induction false} PushAt(c: Config, e: Expr, k: Code, d: nat, labels: Labels, final: nat)
    requires e.EAt? && WellFormed(c, e) && Entered(k, d + 1, labels, final)
    ensures Entered(PushCode(c, e, k), d, labels, final)
    decreases e, 1
  {
    hide Entered;
    var at := if e.byRef then ArrayPushRef else ArrayPush;
    StepOnce(at, k, d + 2, d + 1, labels, final);
    PushTwo(c, e.base, e.index, e, Then(at, k), d, labels, final);
  }

  lemma {:induction false} PushUnary(c: Config, e: Expr, k: Code, d: nat, labels: Labels, final: nat)
    requires (e.ENot? || e.ENeg?) && WellFormed(c, e) && Entered(k, d + 1, labels, final)
    ensures Entered(PushCode(c, e, k), d, labels, final)
    decreases e, 1
  {
    hide Entered;
    var i := if e.ENot? then Not else Neg;
    StepOnce(i, k, d + 1, d + 1, labels, final);
    PushEntered(c, e.arg, Then(i, k), d, labels, final);
  }

  lemma {:induction false} PushArray(c: Config, e: Expr, k: Code, d: nat, labels: Labels, final: nat)
    requires e.EArray? && WellFormed(c, e) && Entered(k, d + 1, labels, final)
    ensures Entered(PushCode(c, e, k), d, labels, final)
    decreases e, 1
  {
    hide Entered;
    var g := ArrayGen(Count(e.items));
    StepOnce(g, k, d + Count(e.items), d + 1, labels, final);
    PushAllEntered(c, e.items, Then(g, k), d, labels, final);
  }

  lemma {:induction false} PushCall(c: Config, e: Expr, k: Code, d: nat, labels: Labels, final: nat)
    requires e.ECall? && WellFormed(c, e) && Entered(k, d + 1, labels, final)
    ensures Entered(PushCode(c, e, k), d, labels, final)
    decreases e, 1
  {
    hide Entered;
    var n := Count(e.args);
    StepOnce(Function(n), k, d + 2 + n, d + 1, labels, final);
    PushAllEntered(c, e.args, Then(Function(n), k), d + 2, labels, final);
    StepOnce(PushFunSym(e.function_), PushAllCode(c, e.args, Then(Function(n), k)), d, d + 2, labels, final);
  }

  lemma {:induction false} PushSend(c: Config, e: Expr, k: Code, d: nat, labels: Labels, final: nat)
    requires e.ESend? && WellFormed(c, e) && Entered(k, d + 1, labels, final)
    ensures Entered(PushCode(c, e, k), d, labels, final)
    decreases e, 1
  {
    hide Entered;
    var ESend(o, m, _, ps) := e;
    var n := Count(ps);
    StepOnce(Send(n), k, d + 2 + n, d + 1, labels, final);
    PushAllEntered(c, ps, Then(Send(n), k), d + 2, labels, final);
    PushEntered(c, o, PushAllCode(c, ps, Then(Send(n), k)), d + 1, labels, final);
    StepOnce(Message(m), PushCode(c, o, PushAllCode(c, ps, Then(Send(n), k))), d, d + 1, labels, final);
  }

  lemma {:induction false} PushIif(c: Config, e: Expr, k: Code, d: nat, labels: Labels, final: nat)
    requires e.EIif? && WellFormed(c, e) && Entered(k, d + 1, labels, final)
    ensures Entered(PushCode(c, e, k), d, labels, final)
    decreases e, 1
  {
    hide Entered, Skip;
    var EIif(x, a, b) := e;
    var n, m := CodeSize(PushCode(c, a, End)), CodeSize(PushCode(c, b, End));
    var kb := PushCode(c, b, k);
    var kj := Then(Jump(FAR + m), kb);
    var ka := PushCode(c, a, kj);
    PushDistance(c, b, k);
    PushDistance(c, a, kj);
    BesideTarget(k, d + 1, labels, final);
    PushEntered(c, b, k, d, labels[CodeSize(k) := d + 1], final);
    PushNonempty(c, b);
    Skipping(kb, k, d, d + 1, labels, final);
    PushEntered(c, a, kj, d, labels[CodeSize(kb) := d], final);
    Fork(JumpFalse(FAR + n + FAR), ka, kb, k, d, d + 1, labels, final);
    PushEntered(c, x, Then(JumpFalse(FAR + n + FAR), ka), d, labels, final);
  }

  /** Pushing takes at least one instruction. */
  lemma {:induction false} PushNonempty(c: Config, e: Expr)
    requires WellFormed(c, e)
    ensures CodeSize(PushCode(c, e, End)) > 0
    decreases e, 4
  {
    if CodeSize(PushCode(c, e, End)) == 0 {
      assert PushCode(c, e, End) == End;
      PushEntered(c, e, End, 0, map[], 1);
    }
  }

  lemma {:induction false} PushAliasEntered(c: Config, e: Expr, k: Code, d: nat, labels: Labels, final: nat)
    requires e.EAlias? && WellFormed(c, e) && Entered(k, d + 1, labels, final)
    ensures Entered(PushCode(c, e, k), d, labels, final)
    decreases e, 1
  {
    hide Entered, CodeSize, DropCode, PopCode;
    var EAlias(a, b) := e;
    var kb := PushCode(c, b, Then(SwapAlias, k));
    InAreaEntered(c, e, k, d, labels, final);
    PushEntered(c, a, Then(PopAlias, kb), d + 1, labels, final);
    StepOnce(PushAlias, PushCode(c, a, Then(PopAlias, kb)), d, d + 1, labels, final);
  }

  /** From the selection of the work area to the restored one. */
  lemma {:induction false} InAreaEntered(c: Config, e: Expr, k: Code, d: nat, labels: Labels, final: nat)
    requires e.EAlias? && WellFormed(c, e) && Entered(k, d + 1, labels, final)
    ensures Entered(Then(PopAlias, PushCode(c, e.body, Then(SwapAlias, k))), d + 2, labels, final)
    decreases e, 0
  {
    hide Entered, CodeSize, DropCode, PopCode;
    StepOnce(SwapAlias, k, d + 2, d + 1, labels, final);
    PushEntered(c, e.body, Then(SwapAlias, k), d + 1, labels, final);
    StepOnce(PopAlias, PushCode(c, e.body, Then(SwapAlias, k)), d + 2, d + 1, labels, final);
  }

  lemma {:induction false} PushAssign(c: Config, e: Expr, k: Code, d: nat, labels: Labels, final: nat)
    requires e.EAssign? && WellFormed(c, e) && Entered(k, d + 1, labels, final)
    ensures Entered(PushCode(c, e, k), d, labels, final)
    decreases e, 1
  {
    hide Entered, PopCode, CodeSize, DropCode;
    var EAssign(l, r) := e;
    if l.ESend? {
      AssignSend(c, l, r, e, k, d, labels, final);
    } else {
      PopEntered(c, l, k, d + 1, labels, final);
      StepOnce(PushUnref, PopCode(c, l, k), d + 1, d + 2, labels, final);
      PushEntered(c, r, Then(PushUnref, PopCode(c, l, k)), d, labels, final);
    }
  }

  /** The assign message with one parameter. */
  lemma {:induction false} AssignSend(c: Config, l: Expr, r: Expr, whole: Expr, k: Code, d: nat, labels: Labels, final: nat)
    requires l.ESend? && WellFormed(c, l) && WellFormed(c, r) && l.object_ < whole && r < whole && Entered(k, d + 1, labels, final)
    ensures Entered(Then(Message("_" + l.message), PushCode(c, l.object_, PushCode(c, r, Then(Send(1), k)))), d, labels, final)
    decreases whole, 0, 1
  {
    hide Entered, PopCode, CodeSize, DropCode, PushCode;
    StepOnce(Send(1), k, d + 3, d + 1, labels, final);
    PushTwo(c, l.object_, r, whole, Then(Send(1), k), d + 1, labels, final);
    StepOnce(Message("_" + l.message), PushCode(c, l.object_, PushCode(c, r, Then(Send(1), k))), d, d + 1, labels, final);
  }

  lemma {:induction false} PushLogic(c: Config, e: Expr, k: Code, d: nat, labels: Labels, final: nat)
    requires e.ELogic? && WellFormed(c, e) && Entered(k, d + 1, labels, final)
    ensures Entered(PushCode(c, e, k), d, labels, final)
    decreases e, 2
  {
    hide Entered, Skip;
    var ELogic(isAnd, a, b) := e;
    if c.shortcuts {
      PushShortcut(c, e, k, d, labels, final);
    } else {
      var op := if isAnd then And else Or;
      StepOnce(op, k, d + 2, d + 1, labels, final);
      PushTwo(c, a, b, e, Then(op, k), d, labels, final);
    }
  }

  lemma {:induction false} PushShortcut(c: Config, e: Expr, k: Code, d: nat, labels: Labels, final: nat)
    requires e.ELogic? && c.shortcuts && WellFormed(c, e) && Entered(k, d + 1, labels, final)
    ensures Entered(PushCode(c, e, k), d, labels, final)
    decreases e, 1
  {
    hide Entered, Skip;
    var ELogic(isAnd, a, b) := e;
    var n := CodeSize(PushCode(c, b, End));
    var kb := PushCode(c, b, k);
    var labels1 := labels[CodeSize(k) := d + 1];
    var j := Branching(!isAnd, FAR + 1 + n);
    PushDistance(c, b, k);
    BesideTarget(k, d + 1, labels, final);
    PushEntered(c, b, k, d, labels1, final);
    StepOnce(Pop, kb, d + 1, d, labels1, final);
    Fork(j, Then(Pop, kb), k, k, d + 1, d + 1, labels, final);
    StepOnce(Duplicate, Then(j, Then(Pop, kb)), d + 1, d + 2, labels, final);
    PushEntered(c, a, Then(Duplicate, Then(j, Then(Pop, kb))), d, labels, final);
  }

  lemma {:induction false} PushBin(c: Config, e: Expr, k: Code, d: nat, labels: Labels, final: nat)
    requires e.EBin? && WellFormed(c, e) && Entered(k, d + 1, labels, final)
    ensures Entered(PushCode(c, e, k), d, labels, final)
    decreases e, 1
  {
    hide Entered;
    match UnitStep(c, e) {
      case Some((x, up)) =>
        StepOnce(StepInstr(up), k, d + 1, d + 1, labels, final);
        PushEntered(c, x, Then(StepInstr(up), k), d, labels, final);
      case None =>
        StepOnce(Bin(e.op), k, d + 2, d + 1, labels, final);
        PushTwo(c, e.left, e.right, e, Then(Bin(e.op), k), d, labels, final);
    }
  }

  // ---------------------------------------------------------------- HB_EA_POP_PCODE

  lemma {:induction false} PopEntered(c: Config, l: Expr, k: Code, d: nat, labels: Labels, final: nat)
    requires Target(c, l) && WellFormed(c, l) && Entered(k, d, labels, final)
    ensures Entered(PopCode(c, l, k), d + 1, labels, final)
    decreases l, 2
  {
    hide Entered;
    match l
    case EVar(n) => Step(PopVarInstr(c, n), k, d + 1, labels, final);
    case EAt(b, i, _) =>
      StepOnce(ArrayPop, k, d + 3, d, labels, final);
      PushTwo(c, b, i, l, Then(ArrayPop, k), d + 1, labels, final);
    case ESend(_, _, _, _) => PopSend(c, l, k, d, labels, final);
    case EIif(_, _, _) => PopIif(c, l, k, d, labels, final);
  }

  /** The waiting value moves over message and receiver, and the result is dropped. */
  lemma SendRotated(k: Code, d: nat, labels: Labels, final: nat)
    requires Entered(k, d, labels, final)
    ensures Entered(Then(Swap(1), Then(Swap(1), Then(Send(1), Then(Pop, k)))), d + 3, labels, final)
  {
    hide Entered, CodeSize;
    var k1 := Then(Send(1), Then(Pop, k));
    StepOnce(Pop, k, d + 1, d, labels, final);
    StepOnce(Send(1), Then(Pop, k), d + 3, d + 1, labels, final);
    StepOnce(Swap(1), k1, d + 3, d + 3, labels, final);
    StepOnce(Swap(1), Then(Swap(1), k1), d + 3, d + 3, labels, final);
  }

  lemma {:induction false} PopSend(c: Config, l: Expr, k: Code, d: nat, labels: Labels, final: nat)
    requires l.ESend? && WellFormed(c, l) && Entered(k, d, labels, final)
    ensures Entered(PopCode(c, l, k), d + 1, labels, final)
    decreases l, 1
  {
    hide Entered;
    var ESend(o, m, _, _) := l;
    var k1 := Then(Send(1), Then(Pop, k));
    SendRotated(k, d, labels, final);
    PushEntered(c, o, Then(Swap(1), Then(Swap(1), k1)), d + 2, labels, final);
    StepOnce(Message("_" + m), PushCode(c, o, Then(Swap(1), Then(Swap(1), k1))), d + 1, d + 2, labels, final);
  }

  lemma {:induction false} PopIif(c: Config, l: Expr, k: Code, d: nat, labels: Labels, final: nat)
    requires l.EIif? && Target(c, l) && WellFormed(c, l) && Entered(k, d, labels, final)
    ensures Entered(PopCode(c, l, k), d + 1, labels, final)
    decreases l, 1
  {
    hide Entered, Skip, PushCode;
    var EIif(x, a, b) := l;
    var n, m := CodeSize(PopCode(c, a, End)), CodeSize(PopCode(c, b, End));
    var kb := PopCode(c, b, k);
    var kj := Then(Jump(FAR + m), kb);
    var ka := PopCode(c, a, kj);
    PopDistance(c, b, k);
    PopDistance(c, a, kj);
    BesideTarget(k, d, labels, final);
    PopEntered(c, b, k, d, labels[CodeSize(k) := d], final);
    PopNonempty(c, b);
    Skipping(kb, k, d + 1, d, labels, final);
    PopEntered(c, a, kj, d, labels[CodeSize(kb) := d + 1], final);
    Fork(JumpFalse(FAR + n + FAR), ka, kb, k, d + 1, d, labels, final);
    PushEntered(c, x, Then(JumpFalse(FAR + n + FAR), ka), d + 1, labels, final);
  }

  lemma {:induction false} PopNonempty(c: Config, l: Expr)
    requires Target(c, l) && WellFormed(c, l)
    ensures CodeSize(PopCode(c, l, End)) > 0
    decreases l, 3
  {
    if CodeSize(PopCode(c, l, End)) == 0 {
      assert PopCode(c, l, End) == End;
      PopEntered(c, l, End, 0, map[], 0);
    }
  }

  // ---------------------------------------------------------------- compound targets

  lemma {:induction false} LocateEntered(c: Config, l: Expr, k: Code, d: nat, labels: Labels, final: nat)
    requires l.EVar? || l.EAt? || l.ESend?
    requires WellFormed(c, l) && (l.EVar? ==> !c.scope(l.name).Field?) && Entered(k, d + 1, labels, final)
    ensures Entered(LocateCode(c, l, k), d, labels, final)
    decreases l, 2
  {
    hide Entered, PushCode;
    match l
    case EVar(n) => Step(PushVarRefCode(c, n, k).head, k, d, labels, final);
    case EAt(b, i, _) =>
      StepOnce(ArrayPushRef, k, d + 2, d + 1, labels, final);
      PushTwo(c, b, i, l, Then(ArrayPushRef, k), d, labels, final);
    case ESend(_, _, _, _) => LocateSend(c, l, k, d, labels, final);
  }

  lemma {:induction false} LocateSend(c: Config, l: Expr, k: Code, d: nat, labels: Labels, final: nat)
    requires l.ESend? && WellFormed(c, l) && Entered(k, d + 1, labels, final)
    ensures Entered(LocateCode(c, l, k), d, labels, final)
    decreases l, 1
  {
    hide Entered, PushCode, CodeSize;
    var ESend(o, m, _, _) := l;
    StepOnce(PushOVarRef, k, d + 2, d + 1, labels, final);
    PushEntered(c, o, Then(PushOVarRef, k), d + 1, labels, final);
    StepOnce(Message("_" + m), PushCode(c, o, Then(PushOVarRef, k)), d, d + 1, labels, final);
  }

  lemma {:induction false} AccessEntered(c: Config, l: Expr, k: Code, d: nat, labels: Labels, final: nat)
    requires l.ESend? && WellFormed(c, l) && Entered(k, d + 3, labels, final)
    ensures Entered(AccessCode(c, l, k), d, labels, final)
    decreases l, 2
  {
    hide Entered, PushCode, CodeSize;
    var o, am, m := l.object_, Message("_" + l.message), Message(l.message);
    if c.harbour {
      var k1 := Then(Swap(0), Then(Send(0), k));
      StepOnce(Send(0), k, d + 4, d + 3, labels, final);
      StepOnce(Swap(0), Then(Send(0), k), d + 4, d + 4, labels, final);
      StepOnce(m, k1, d + 3, d + 4, labels, final);
      StepOnce(Duplicate, Then(m, k1), d + 2, d + 3, labels, final);
      PushEntered(c, o, Then(Duplicate, Then(m, k1)), d + 1, labels, final);
      StepOnce(am, PushCode(c, o, Then(Duplicate, Then(m, k1))), d, d + 1, labels, final);
    } else {
      AccessTwice(c, l, k, d, labels, final);
    }
  }

  lemma {:induction false} AccessTwice(c: Config, l: Expr, k: Code, d: nat, labels: Labels, final: nat)
    requires l.ESend? && !c.harbour && WellFormed(c, l) && Entered(k, d + 3, labels, final)
    ensures Entered(AccessCode(c, l, k), d, labels, final)
    decreases l, 1
  {
    hide Entered;
    var o, am, m := l.object_, Message("_" + l.message), Message(l.message);
    var k1 := PushCode(c, o, Then(Send(0), k));
    StepOnce(Send(0), k, d + 4, d + 3, labels, final);
    PushEntered(c, o, Then(Send(0), k), d + 3, labels, final);
    StepOnce(m, k1, d + 2, d + 3, labels, final);
    PushEntered(c, o, Then(m, k1), d + 1, labels, final);
    StepOnce(am, PushCode(c, o, Then(m, k1)), d, d + 1, labels, final);
  }

  /** What remains of a value that may be wanted. */
  function Wanted(wanted: bool): nat {
    if wanted then 1 else 0
  }

  lemma DropIfEntered(wanted: bool, k: Code, d: nat, labels: Labels, final: nat)
    requires Entered(k, d + Wanted(wanted), labels, final)
    ensures Entered(DropIf(!wanted, k), d + 1, labels, final)
  {
    hide Entered;
    if !wanted { StepOnce(Pop, k, d + 1, d, labels, final); }
  }

  /** Store, leaving a copy if it is wanted. */
  lemma {:induction false} StoreEntered(c: Config, l: Expr, wanted: bool, k: Code, d: nat, labels: Labels, final: nat)
    requires Target(c, l) && WellFormed(c, l) && Entered(k, d + Wanted(wanted), labels, final)
    ensures Entered(if wanted then Then(Duplicate, PopCode(c, l, k)) else PopCode(c, l, k), d + 1, labels, final)
    decreases l, 3
  {
    hide Entered, PopCode;
    PopEntered(c, l, k, d + Wanted(wanted), labels, final);
    if wanted { StepOnce(Duplicate, PopCode(c, l, k), d + 1, d + 2, labels, final); }
  }

  lemma {:induction false} OpEqEntered(c: Config, e: Expr, wanted: bool, k: Code, d: nat, labels: Labels, final: nat)
    requires e.EOpEq? && WellFormed(c, e) && Entered(k, d + Wanted(wanted), labels, final)
    ensures Entered(OpEqCode(c, e, wanted, k), d, labels, final)
    decreases e, 1, 1
  {
    hide Entered, PushCode, PopCode, LocateCode, AccessCode;
    var EOpEq(op, l, r) := e;
    if UpdatesByRef(c, l) {
      if AddsInt(c, op, l, r) {
        if wanted { Step(PushVarInstr(c, l.name), k, d, labels, final); }
        StepOnce(LocalAddInt(c.scope(l.name).index, Increment(op, r.n)),
          if wanted then Then(PushVarInstr(c, l.name), k) else k, d, d, labels, final);
      } else {
        var kr := Then(if wanted then Pcode.OpEq(op) else OpEqPop(op), k);
        if wanted { StepOnce(Pcode.OpEq(op), k, d + 2, d + 1, labels, final); } else { StepOnce(OpEqPop(op), k, d + 2, d, labels, final); }
        PushEntered(c, r, kr, d + 1, labels, final);
        LocateEntered(c, l, PushCode(c, r, kr), d, labels, final);
      }
    } else if l.ESend? {
      OpEqSend(c, e, wanted, k, d, labels, final);
    } else {
      var kp := if wanted then Then(Duplicate, PopCode(c, l, k)) else PopCode(c, l, k);
      StoreEntered(c, l, wanted, k, d, labels, final);
      StepOnce(Bin(op), kp, d + 2, d + 1, labels, final);
      PushTwo(c, l, r, e, Then(Bin(op), kp), d, labels, final);
    }
  }

  lemma {:induction false} OpEqSend(c: Config, e: Expr, wanted: bool, k: Code, d: nat, labels: Labels, final: nat)
    requires e.EOpEq? && WellFormed(c, e) && !UpdatesByRef(c, e.target) && e.target.ESend?
    requires Entered(k, d + Wanted(wanted), labels, final)
    ensures Entered(OpEqCode(c, e, wanted, k), d, labels, final)
    decreases e, 1, 0
  {
    hide Entered, PushCode, AccessCode, DropIf;
    var EOpEq(op, l, r) := e;
    var k2 := Then(Send(1), DropIf(!wanted, k));
    DropIfEntered(wanted, k, d, labels, final);
    StepOnce(Send(1), DropIf(!wanted, k), d + 3, d + 1, labels, final);
    StepOnce(Bin(op), k2, d + 4, d + 3, labels, final);
    PushEntered(c, r, Then(Bin(op), k2), d + 3, labels, final);
    AccessEntered(c, l, PushCode(c, r, Then(Bin(op), k2)), d, labels, final);
  }

  lemma {:induction false} StepEntered(c: Config, up: bool, l: Expr, wanted: bool, k: Code, d: nat, labels: Labels, final: nat)
    requires Target(c, l) && WellFormed(c, l) && Entered(k, d + Wanted(wanted), labels, final)
    ensures Entered(StepCode(c, up, l, wanted, k), d, labels, final)
    decreases l, 5
  {
    hide Entered, PushCode, PopCode, LocateCode, AccessCode, DropIf;
    if StepsByRef(c, l) {
      if l.EVar? && c.scope(l.name).Local? {
        StepLocalEntered(c, up, l, wanted, k, d, labels, final);
      } else {
        var s := if wanted then StepEq(up) else StepEqPop(up);
        StepOnce(s, k, d + 1, d + Wanted(wanted), labels, final);
        LocateEntered(c, l, Then(s, k), d, labels, final);
      }
    } else if l.ESend? {
      StepSend(c, up, l, wanted, k, d, labels, final);
    } else {
      var kp := if wanted then Then(Duplicate, PopCode(c, l, k)) else PopCode(c, l, k);
      StoreEntered(c, l, wanted, k, d, labels, final);
      StepOnce(StepInstr(up), kp, d + 1, d + 1, labels, final);
      PushEntered(c, l, Then(StepInstr(up), kp), d, labels, final);
    }
  }

  lemma {:induction false} StepSend(c: Config, up: bool, l: Expr, wanted: bool, k: Code, d: nat, labels: Labels, final: nat)
    requires l.ESend? && !StepsByRef(c, l) && WellFormed(c, l) && Entered(k, d + Wanted(wanted), labels, final)
    ensures Entered(StepCode(c, up, l, wanted, k), d, labels, final)
    decreases l, 4
  {
    hide Entered, PushCode, PopCode, AccessCode, DropIf, CodeSize;
    DropIfEntered(wanted, k, d, labels, final);
    var k1 := DropIf(!wanted, k);
    StepOnce(Send(1), k1, d + 3, d + 1, labels, final);
    StepOnce(StepInstr(up), Then(Send(1), k1), d + 3, d + 3, labels, final);
    AccessEntered(c, l, Then(StepInstr(up), Then(Send(1), k1)), d, labels, final);
  }

  lemma StepLocalEntered(c: Config, up: bool, l: Expr, wanted: bool, k: Code, d: nat, labels: Labels, final: nat)
    requires l.EVar? && StepsByRef(c, l) && c.scope(l.name).Local? && Entered(k, d + Wanted(wanted), labels, final)
    ensures Entered(StepCode(c, up, l, wanted, k), d, labels, final)
  {
    hide Entered;
    var i := c.scope(l.name).index;
    var kp := Then(PushVarInstr(c, l.name), k);
    if wanted && up {
      StepOnce(LocalIncPush(i), k, d, d + 1, labels, final);
    } else if wanted {
      StepOnce(PushLocal(i), k, d, d + 1, labels, final);
      StepOnce(LocalDec(i), kp, d, d, labels, final);
    } else {
      StepOnce(if up then LocalInc(i) else LocalDec(i), k, d, d, labels, final);
    }
  }

  lemma {:induction false} PostEntered(c: Config, up: bool, l: Expr, k: Code, d: nat, labels: Labels, final: nat)
    requires Target(c, l) && WellFormed(c, l) && Entered(k, d + 1, labels, final)
    ensures Entered(PostStepCode(c, up, l, k), d, labels, final)
    decreases l, 5
  {
    hide Entered, PushCode, PopCode, LocateCode, AccessCode;
    if StepsByRef(c, l) {
      if l.EVar? && c.scope(l.name).Local? {
        PostLocal(c, up, l, k, d, labels, final);
      } else {
        StepOnce(StepEqPop(up), k, d + 2, d + 1, labels, final);
        StepOnce(DuplUnref, Then(StepEqPop(up), k), d + 1, d + 2, labels, final);
        LocateEntered(c, l, Then(DuplUnref, Then(StepEqPop(up), k)), d, labels, final);
      }
    } else if l.ESend? {
      PostSend(c, up, l, k, d, labels, final);
    } else {
      PopEntered(c, l, k, d + 1, labels, final);
      StepOnce(StepInstr(up), PopCode(c, l, k), d + 2, d + 2, labels, final);
      StepOnce(Duplicate, Then(StepInstr(up), PopCode(c, l, k)), d + 1, d + 2, labels, final);
      PushEntered(c, l, Then(Duplicate, Then(StepInstr(up), PopCode(c, l, k))), d, labels, final);
    }
  }

  lemma PostLocal(c: Config, up: bool, l: Expr, k: Code, d: nat, labels: Labels, final: nat)
    requires l.EVar? && StepsByRef(c, l) && c.scope(l.name).Local? && Entered(k, d + 1, labels, final)
    ensures Entered(PostStepCode(c, up, l, k), d, labels, final)
  {
    hide Entered;
    var s := if up then LocalInc(c.scope(l.name).index) else LocalDec(c.scope(l.name).index);
    StepOnce(s, k, d + 1, d + 1, labels, final);
    Step(PushVarInstr(c, l.name), Then(s, k), d, labels, final);
  }

  /** Step, assign and drop the result, leaving the old value. */
  lemma StepAndPop(c: Config, up: bool, k: Code, d: nat, labels: Labels, final: nat)
    requires Entered(k, d + 1, labels, final)
    ensures Entered(Then(StepInstr(up), Then(Send(1), Then(Pop, k))), d + 4, labels, final)
  {
    hide Entered, CodeSize;
    StepOnce(Pop, k, d + 2, d + 1, labels, final);
    StepOnce(Send(1), Then(Pop, k), d + 4, d + 2, labels, final);
    StepOnce(StepInstr(up), Then(Send(1), Then(Pop, k)), d + 4, d + 4, labels, final);
  }

  lemma {:induction false} PostSend(c: Config, up: bool, l: Expr, k: Code, d: nat, labels: Labels, final: nat)
    requires l.ESend? && !StepsByRef(c, l) && WellFormed(c, l) && Entered(k, d + 1, labels, final)
    ensures Entered(PostStepCode(c, up, l, k), d, labels, final)
    decreases l, 4
  {
    hide Entered, PushCode, AccessCode, CodeSize;
    var k2 := Then(StepInstr(up), Then(Send(1), Then(Pop, k)));
    StepAndPop(c, up, k, d, labels, final);
    if c.harbour {
      StepOnce(Swap(2), k2, d + 4, d + 4, labels, final);
      StepOnce(Duplicate, Then(Swap(2), k2), d + 3, d + 4, labels, final);
      AccessEntered(c, l, Then(Duplicate, Then(Swap(2), k2)), d, labels, final);
    } else {
      AccessEntered(c, l, k2, d + 1, labels, final);
      PushEntered(c, l, AccessCode(c, l, k2), d, labels, final);
    }
  }

  // ---------------------------------------------------------------- HB_EA_PUSH_POP

  lemma {:induction false} DropEntered(c: Config, e: Expr, k: Code, d: nat, labels: Labels, final: nat)
    requires WellFormed(c, e) && Entered(k, d, labels, final)
    ensures Entered(DropCode(c, e, k), d, labels, final)
    decreases e, 6
  {
    hide Entered, PushCode, PopCode, OpEqCode, StepCode, CodeSize;
    match e
    case EArray(items) => DropAllEntered(c, items, k, d, labels, final);
    case EIif(_, _, _) => DropIif(c, e, k, d, labels, final);
    case EList(init, last) =>
      DropEntered(c, last, k, d, labels, final);
      DropAllEntered(c, init, DropCode(c, last, k), d, labels, final);
    case EAt(b, i, _) =>
      DropEntered(c, i, k, d, labels, final);
      DropEntered(c, b, DropCode(c, i, k), d, labels, final);
    case ECall(_, _) => DropCall(c, e, k, d, labels, final);
    case EAlias(_, _) => DropAliasEntered(c, e, k, d, labels, final);
    case EAssign(l, r) =>
      if l.ESend? {
        PushPop(c, e, k, d, labels, final);
      } else {
        PopEntered(c, l, k, d, labels, final);
        PushEntered(c, r, PopCode(c, l, k), d, labels, final);
      }
    case EOpEq(_, _, _) => OpEqEntered(c, e, false, k, d, labels, final);
    case EStep(up, _, l) => StepEntered(c, up, l, false, k, d, labels, final);
    case ELogic(_, _, _) => DropLogic(c, e, k, d, labels, final);
    case EVar(_) => DropVar(c, e, k, d, labels, final);
    case ENot(x) => if c.harbour { DropEntered(c, x, k, d, labels, final); } else { PushPop(c, e, k, d, labels, final); }
    case ENeg(x) => if c.harbour { DropEntered(c, x, k, d, labels, final); } else { PushPop(c, e, k, d, labels, final); }
    case EBin(_, a, b) =>
      if c.harbour {
        DropEntered(c, b, k, d, labels, final);
        DropEntered(c, a, DropCode(c, b, k), d, labels, final);
      } else {
        PushPop(c, e, k, d, labels, final);
      }
    case ESend(_, _, _, _) => PushPop(c, e, k, d, labels, final);
    case _ =>
  }

  lemma {:induction false} DropAllEntered(c: Config, es: Exprs, k: Code, d: nat, labels: Labels, final: nat)
    requires WellFormedAll(c, es) && Entered(k, d, labels, final)
    ensures Entered(DropAllCode(c, es, k), d, labels, final)
    decreases es, 0
  {
    hide Entered, DropCode, WellFormed;
    match es
    case ENone =>
    case EMore(e, t) =>
      DropAllEntered(c, t, k, d, labels, final);
      DropEntered(c, e, DropAllCode(c, t, k), d, labels, final);
  }

  lemma {:induction false} PushPop(c: Config, e: Expr, k: Code, d: nat, labels: Labels, final: nat)
    requires WellFormed(c, e) && Entered(k, d, labels, final)
    ensures Entered(PushCode(c, e, Then(Pop, k)), d, labels, final)
    decreases e, 4
  {
    hide Entered, PushCode;
    StepOnce(Pop, k, d + 1, d, labels, final);
    PushEntered(c, e, Then(Pop, k), d, labels, final);
  }

  lemma DropVar(c: Config, e: Expr, k: Code, d: nat, labels: Labels, final: nat)
    requires e.EVar? && Entered(k, d, labels, final)
    ensures Entered(DropCode(c, e, k), d, labels, final)
  {
    hide Entered;
    StepOnce(Pop, k, d + 1, d, labels, final);
    Step(PushVarInstr(c, e.name), Then(Pop, k), d, labels, final);
  }

  lemma {:induction false} DropCall(c: Config, e: Expr, k: Code, d: nat, labels: Labels, final: nat)
    requires e.ECall? && WellFormed(c, e) && Entered(k, d, labels, final)
    ensures Entered(DropCode(c, e, k), d, labels, final)
    decreases e, 5
  {
    hide Entered, PushCode;
    var n := Count(e.args);
    StepOnce(Do(n), k, d + 2 + n, d, labels, final);
    PushAllEntered(c, e.args, Then(Do(n), k), d + 2, labels, final);
    StepOnce(PushFunSym(e.function_), PushAllCode(c, e.args, Then(Do(n), k)), d, d + 2, labels, final);
  }

  lemma {:induction false} DropAliasEntered(c: Config, e: Expr, k: Code, d: nat, labels: Labels, final: nat)
    requires e.EAlias? && WellFormed(c, e) && Entered(k, d, labels, final)
    ensures Entered(DropCode(c, e, k), d, labels, final)
    decreases e, 5
  {
    hide Entered, PushCode;
    var EAlias(a, b) := e;
    var kb := DropCode(c, b, Then(PopAlias, k));
    StepOnce(PopAlias, k, d + 1, d, labels, final);
    DropEntered(c, b, Then(PopAlias, k), d + 1, labels, final);
    StepOnce(PopAlias, kb, d + 2, d + 1, labels, final);
    PushEntered(c, a, Then(PopAlias, kb), d + 1, labels, final);
    StepOnce(PushAlias, PushCode(c, a, Then(PopAlias, kb)), d, d + 1, labels, final);
  }

  lemma {:induction false} DropIif(c: Config, e: Expr, k: Code, d: nat, labels: Labels, final: nat)
    requires e.EIif? && WellFormed(c, e) && Entered(k, d, labels, final)
    ensures Entered(DropCode(c, e, k), d, labels, final)
    decreases e, 5
  {
    hide Entered, Skip, PushCode;
    var EIif(x, a, b) := e;
    var m := CodeSize(DropCode(c, b, End));
    var kb := DropCode(c, b, k);
    if CodeSize(DropCode(c, a, End)) == 0 {
      DropDistance(c, b, k);
      BesideTarget(k, d, labels, final);
      DropEntered(c, b, k, d, labels[CodeSize(k) := d], final);
      Fork(JumpTrue(FAR + m), kb, k, k, d, d, labels, final);
      PushEntered(c, x, Then(JumpTrue(FAR + m), kb), d, labels, final);
    } else {
      DropIifBoth(c, e, k, d, labels, final);
    }
  }

  lemma {:induction false} DropIifBoth(c: Config, e: Expr, k: Code, d: nat, labels: Labels, final: nat)
    requires e.EIif? && WellFormed(c, e) && Entered(k, d, labels, final)
    requires CodeSize(DropCode(c, e.thn, End)) > 0
    ensures Entered(DropCode(c, e, k), d, labels, final)
    decreases e, 4
  {
    hide Entered, Skip, PushCode;
    var EIif(x, a, b) := e;
    var n, m := CodeSize(DropCode(c, a, End)), CodeSize(DropCode(c, b, End));
    var kb := DropCode(c, b, k);
    var kj := Then(Jump(FAR + m), kb);
    var ka := DropCode(c, a, kj);
    DropDistance(c, b, k);
    DropDistance(c, a, kj);
    BesideTarget(k, d, labels, final);
    DropEntered(c, b, k, d, labels[CodeSize(k) := d], final);
    Skipping(kb, k, d, d, labels, final);
    DropEntered(c, a, kj, d, labels[CodeSize(kb) := d], final);
    Fork(JumpFalse(FAR + n + FAR), ka, kb, k, d, d, labels, final);
    PushEntered(c, x, Then(JumpFalse(FAR + n + FAR), ka), d, labels, final);
  }

  lemma {:induction false} DropLogic(c: Config, e: Expr, k: Code, d: nat, labels: Labels, final: nat)
    requires e.ELogic? && WellFormed(c, e) && Entered(k, d, labels, final)
    ensures Entered(DropCode(c, e, k), d, labels, final)
    decreases e, 5
  {
    hide Entered, Skip, PushCode;
    var ELogic(isAnd, a, b) := e;
    if c.shortcuts {
      var kb := DropCode(c, b, k);
      var j := Branching(!isAnd, FAR + CodeSize(DropCode(c, b, End)));
      DropDistance(c, b, k);
      BesideTarget(k, d, labels, final);
      DropEntered(c, b, k, d, labels[CodeSize(k) := d], final);
      Fork(j, kb, k, k, d, d, labels, final);
      PushEntered(c, a, Then(j, kb), d, labels, final);
    } else {
      PushPop(c, e, k, d, labels, final);
    }
  }

  // ---------------------------------------------------------------- results

  /** The code of an expression on its own: every jump lands inside it, every position has one
      depth on all paths, and it nets +1, -1 and 0. */
  lemma PushDisciplined(c: Config, e: Expr, d: nat)
    requires WellFormed(c, e)
    ensures JumpsLand(PushCode(c, e, End)) && Checks(PushCode(c, e, End), Some(d), map[], d + 1)
  {
    PushEntered(c, e, End, d, map[], d + 1);
    ChecksLand(PushCode(c, e, End), Some(d), map[], d + 1);
  }

  lemma PopDisciplined(c: Config, l: Expr, d: nat)
    requires Target(c, l) && WellFormed(c, l)
    ensures JumpsLand(PopCode(c, l, End)) && Checks(PopCode(c, l, End), Some(d + 1), map[], d)
  {
    PopEntered(c, l, End, d, map[], d);
    ChecksLand(PopCode(c, l, End), Some(d + 1), map[], d);
  }

  lemma DropDisciplined(c: Config, e: Expr, d: nat)
    requires WellFormed(c, e)
    ensures JumpsLand(DropCode(c, e, End)) && Checks(DropCode(c, e, End), Some(d), map[], d)
  {
    DropEntered(c, e, End, d, map[], d);
    ChecksLand(DropCode(c, e, End), Some(d), map[], d);
  }

  /** After n instructions of code that nets from one depth to another: the height is the depth of the
      position, and at the end it is the final one. */
  ghost predicate RunsLevel(w: World, code: Code, s: Stack, st: State, final: nat, n: nat) {
    match Machine(w, code, s, st, n)
    case None => true
    case Some((k, s1, _)) =>
      && DepthAt(code, Height(s), CodeSize(k)) == Some(Height(s1))
      && (k.Then? ==> Takes(k.head) <= Height(s1)) && (k.End? ==> Height(s1) == final)
  }

  /** In every run of generated code, at every step. */
  lemma GeneratedDepth(w: World, c: Config, e: Expr, s: Stack, st: State, n: nat)
    requires WellFormed(c, e)
    ensures RunsLevel(w, PushCode(c, e, End), s, st, Height(s) + 1, n)
    ensures RunsLevel(w, DropCode(c, e, End), s, st, Height(s), n)
    ensures Target(c, e) && s.On? ==> RunsLevel(w, PopCode(c, e, End), s, st, Height(s) - 1, n)
  {
    hide Machine, Checks, DepthAt, Takes, PushCode, DropCode, PopCode, WellFormed, Target;
    var d := Height(s);
    PushDisciplined(c, e, d);
    DropDisciplined(c, e, d);
    if Machine(w, PushCode(c, e, End), s, st, n).Some? { RunDepth(w, PushCode(c, e, End), s, st, d + 1, n); }
    if Machine(w, DropCode(c, e, End), s, st, n).Some? { RunDepth(w, DropCode(c, e, End), s, st, d, n); }
    if Target(c, e) && s.On? {
      PopDisciplined(c, e, d - 1);
      if Machine(w, PopCode(c, e, End), s, st, n).Some? { RunDepth(w, PopCode(c, e, End), s, st, d - 1, n); }
    }
  }
}
