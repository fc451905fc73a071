/** What the expression handlers generate, as functions: XxxCode(c, ..., k) is the code for an
    expression followed by the code k.  Emitter.dfy has the handlers themselves, which append
    bytes and patch jumps. */
module Compiler {
  import opened Values
  import opened Expressions
  import opened Pcode
  import opened Meaning

  // ---------------------------------------------------------------- variables

  function PushVarInstr(c: Config, name: string): Instr {
    match c.scope(name)
    case Local(i) => PushLocal(i)
    case Detached(i) => PushLocal(-(i as int))
    case Static(i) => PushStatic(i)
    case Memvar => PushMemvar(name)
    case Field => PushField(name)
    case Undeclared => if c.forceMemvars then PushMemvar(name) else PushVariable(name)
  }

  function PopVarInstr(c: Config, name: string): Instr {
    match c.scope(name)
    case Local(i) => PopLocal(i)
    case Detached(i) => PopLocal(-(i as int))
    case Static(i) => PopStatic(i)
    case Memvar => PopMemvar(name)
    case Field => PopField(name)
    case Undeclared => if c.forceMemvars || !c.harbour then PopMemvar(name) else PopVariable(name)
  }

  /** No reference to a field can be generated: the compiler reports an error instead. */
  function PushVarRefCode(c: Config, name: string, k: Code): Code {
    match c.scope(name)
    case Local(i) => Then(PushLocalRef(i), k)
    case Detached(i) => Then(PushLocalRef(-(i as int)), k)
    case Static(i) => Then(PushStaticRef(i), k)
    case Field => Then(Refused, k)
    case _ => Then(PushMemvarRef(name), k)
  }

  // ---------------------------------------------------------------- fast paths

  /** hb_compExprIsInteger and the guard around LOCALADDINT. */
  predicate AddsInt(c: Config, op: BinOp, l: Expr, r: Expr) {
    && l.EVar? && c.scope(l.name).Local?
    && r.ENum? && (op == Plus || op == Minus)
    && -0x8000 <= r.n <= 0x7FFF
    && (op != Minus || r.n >= -0x7FFF)
  }

  function Increment(op: BinOp, n: int): int {
    if op == Minus then -n else n
  }

  /** HB_SUPPORT_EXTOPT: adding or subtracting a literal 1 or -1 becomes INC or DEC. */
  function UnitStep(c: Config, e: Expr): Option<(Expr, bool)> {
    match e
    case EBin(Plus, a, b) =>
      if !c.extopt then None
      else if a.ENum? then
        if a.n == 1 then Some((b, true)) else if a.n == -1 then Some((b, false)) else None
      else if b.ENum? then
        if b.n == 1 then Some((a, true)) else if b.n == -1 then Some((a, false)) else None
      else None
    case EBin(Minus, a, b) =>
      if !c.extopt || !b.ENum? then None
      else if b.n == 1 then Some((a, false)) else if b.n == -1 then Some((a, true)) else None
    case _ => None
  }

  // ---------------------------------------------------------------- jumps

  function Branching(jumpIf: bool, offset: int): Instr {
    if jumpIf then JumpTrue(offset) else JumpFalse(offset)
  }

  const FAR := 4  // bytes of a far jump

  // ---------------------------------------------------------------- HB_EA_PUSH_PCODE

  function PushCode(c: Config, e: Expr, k: Code): Code
    decreases e, 2
  {
    match e
    case ENil => Then(PushNil, k)
    case ENum(n) => Then(PushNum(n), k)
    case EStr(s) => Then(PushStr(s), k)
    case ELog(b) => Then(PushLog(b), k)
    case EVar(n) => Then(PushVarInstr(c, n), k)
    case EVarRef(n) => PushVarRefCode(c, n, k)
    case ERef(x) => if x.EVarRef? || x.ERef? then PushCode(c, x, k) else LocateCode(c, x, k)
    case EArray(items) => PushAllCode(c, items, Then(ArrayGen(Count(items)), k))
    case EIif(x, a, b) =>
      var n, m := CodeSize(PushCode(c, a, End)), CodeSize(PushCode(c, b, End));
      PushCode(c, x, Then(JumpFalse(FAR + n + FAR), PushCode(c, a, Then(Jump(FAR + m), PushCode(c, b, k)))))
    case EList(init, last) => DropAllCode(c, init, PushCode(c, last, k))
    case EAt(b, i, byRef) => PushCode(c, b, PushCode(c, i, Then(if byRef then ArrayPushRef else ArrayPush, k)))
    case ECall(f, args) => Then(PushFunSym(f), PushAllCode(c, args, Then(Function(Count(args)), k)))
    case ESend(o, m, _, ps) => Then(Message(m), PushCode(c, o, PushAllCode(c, ps, Then(Send(Count(ps)), k))))
    case EAlias(a, b) => Then(PushAlias, PushCode(c, a, Then(PopAlias, PushCode(c, b, Then(SwapAlias, k)))))
    case EAssign(l, r) =>
      if l.ESend? then SendPopCode(c, l, PushCode(c, r, Then(Send(1), k)))
      else PushCode(c, r, Then(PushUnref, PopCode(c, l, k)))
    case EOpEq(_, _, _) => OpEqCode(c, e, true, k)
    case EStep(up, pre, l) => if pre then StepCode(c, up, l, true, k) else PostStepCode(c, up, l, k)
    case ELogic(isAnd, a, b) =>
      if c.shortcuts then
        var n := CodeSize(PushCode(c, b, End));
        PushCode(c, a, Then(Duplicate, Then(Branching(!isAnd, FAR + 1 + n), Then(Pop, PushCode(c, b, k)))))
      else PushCode(c, a, PushCode(c, b, Then(if isAnd then And else Or, k)))
    case ENot(x) => PushCode(c, x, Then(Not, k))
    case ENeg(x) => PushCode(c, x, Then(Neg, k))
    case EBin(op, a, b) =>
      match UnitStep(c, e)
      case Some((x, up)) => PushCode(c, x, Then(StepInstr(up), k))
      case None => PushCode(c, a, PushCode(c, b, Then(Bin(op), k)))
  }

  function PushAllCode(c: Config, es: Exprs, k: Code): Code
    decreases es, 0
  {
    match es
    case ENone => k
    case EMore(e, t) => PushCode(c, e, PushAllCode(c, t, k))
  }

  // ---------------------------------------------------------------- HB_EA_POP_PCODE

  function PopCode(c: Config, l: Expr, k: Code): Code
    decreases l, 2
  {
    match l
    case EVar(n) => Then(PopVarInstr(c, n), k)
    case EAt(b, i, _) => PushCode(c, b, PushCode(c, i, Then(ArrayPop, k)))
    case ESend(_, _, _, _) => SendPopCode(c, l, Then(Swap(1), Then(Swap(1), Then(Send(1), Then(Pop, k)))))
    case EIif(x, a, b) =>
      var n, m := CodeSize(PopCode(c, a, End)), CodeSize(PopCode(c, b, End));
      PushCode(c, x, Then(JumpFalse(FAR + n + FAR), PopCode(c, a, Then(Jump(FAR + m), PopCode(c, b, k)))))
    case _ => k
  }

  // ---------------------------------------------------------------- HB_EA_PUSH_POP

  function DropCode(c: Config, e: Expr, k: Code): Code
    decreases e, 3
  {
    match e
    case ENil => k
    case ENum(_) => k
    case EStr(_) => k
    case ELog(_) => k
    case EVarRef(_) => k
    case ERef(_) => k
    case EVar(n) => Then(PushVarInstr(c, n), Then(Pop, k))
    case EArray(items) => DropAllCode(c, items, k)
    case EIif(x, a, b) =>
      var n, m := CodeSize(DropCode(c, a, End)), CodeSize(DropCode(c, b, End));
      if n == 0 then
        // the true arm generated nothing: the jump is turned around
        PushCode(c, x, Then(JumpTrue(FAR + m), DropCode(c, b, k)))
      else
        PushCode(c, x, Then(JumpFalse(FAR + n + FAR), DropCode(c, a, Then(Jump(FAR + m), DropCode(c, b, k)))))
    case EList(init, last) => DropAllCode(c, init, DropCode(c, last, k))
    case EAt(b, i, _) => DropCode(c, b, DropCode(c, i, k))
    case ECall(f, args) => Then(PushFunSym(f), PushAllCode(c, args, Then(Do(Count(args)), k)))
    case EAlias(a, b) => Then(PushAlias, PushCode(c, a, Then(PopAlias, DropCode(c, b, Then(PopAlias, k)))))
    case EAssign(l, r) =>
      if l.ESend? then PushCode(c, e, Then(Pop, k))
      else PushCode(c, r, PopCode(c, l, k))
    case EOpEq(_, _, _) => OpEqCode(c, e, false, k)
    case EStep(up, _, l) => StepCode(c, up, l, false, k)
    case ELogic(isAnd, a, b) =>
      if c.shortcuts then
        PushCode(c, a, Then(Branching(!isAnd, FAR + CodeSize(DropCode(c, b, End))), DropCode(c, b, k)))
      else PushCode(c, e, Then(Pop, k))
    case ENot(x) => if c.harbour then DropCode(c, x, k) else PushCode(c, e, Then(Pop, k))
    case ENeg(x) => if c.harbour then DropCode(c, x, k) else PushCode(c, e, Then(Pop, k))
    case EBin(_, a, b) =>
      if c.harbour then DropCode(c, a, DropCode(c, b, k)) else PushCode(c, e, Then(Pop, k))
    case ESend(_, _, _, _) => PushCode(c, e, Then(Pop, k))
  }

  function DropAllCode(c: Config, es: Exprs, k: Code): Code
    decreases es, 0
  {
    match es
    case ENone => k
    case EMore(e, t) => DropCode(c, e, DropAllCode(c, t, k))
  }

  // ---------------------------------------------------------------- compound targets

  /** hb_compExprPushSendPop: the assign message and the object. */
  function SendPopCode(c: Config, l: Expr, k: Code): Code
    requires l.ESend?
    decreases l, 1
  {
    Then(Message("_" + l.message), PushCode(c, l.object_, k))
  }

  /** A reference to the target; there is none to other expressions. */
  function LocateCode(c: Config, l: Expr, k: Code): Code
    decreases l, 2
  {
    match l
    case EVar(n) => PushVarRefCode(c, n, k)
    case EAt(b, i, _) => PushCode(c, b, PushCode(c, i, Then(ArrayPushRef, k)))
    case ESend(_, _, _, _) => SendPopCode(c, l, Then(PushOVarRef, k))
    case _ => Then(Refused, k)
  }

  /** The first half of hb_compExprPushSendPopPush: leaves the assign message, the object and
      the accessed value. */
  function AccessCode(c: Config, l: Expr, k: Code): Code
    requires l.ESend?
    decreases l, 2
  {
    if c.harbour then
      SendPopCode(c, l, Then(Duplicate, Then(Message(l.message), Then(Swap(0), Then(Send(0), k)))))
    else
      SendPopCode(c, l, Then(Message(l.message), PushCode(c, l.object_, Then(Send(0), k))))
  }

  function DropIf(drop: bool, k: Code): Code {
    if drop then Then(Pop, k) else k
  }

  /** hb_compExprPushOperEq (the value is wanted) and hb_compExprUseOperEq. */
  function OpEqCode(c: Config, e: Expr, wanted: bool, k: Code): Code
    requires e.EOpEq?
    decreases e, 1
  {
    var EOpEq(op, l, r) := e;
    if UpdatesByRef(c, l) then
      if AddsInt(c, op, l, r) then
        Then(LocalAddInt(c.scope(l.name).index, Increment(op, r.n)),
             if wanted then Then(PushVarInstr(c, l.name), k) else k)
      else LocateCode(c, l, PushCode(c, r, Then(if wanted then OpEq(op) else OpEqPop(op), k)))
    else if l.ESend? then
      AccessCode(c, l, PushCode(c, r, Then(Bin(op), Then(Send(1), DropIf(!wanted, k)))))
    else
      PushCode(c, l, PushCode(c, r, Then(Bin(op),
        if wanted then Then(Duplicate, PopCode(c, l, k)) else PopCode(c, l, k))))
  }

  function StepInstr(up: bool): Instr {
    if up then Inc else Dec
  }

  /** hb_compExprPushPreOp (the value is wanted) and hb_compExprUsePreOp. */
  function StepCode(c: Config, up: bool, l: Expr, wanted: bool, k: Code): Code
    decreases l, 4
  {
    if StepsByRef(c, l) then
      if l.EVar? && c.scope(l.name).Local? then
        var i := c.scope(l.name).index;
        if wanted then
          if up then Then(LocalIncPush(i), k) else Then(LocalDec(i), Then(PushVarInstr(c, l.name), k))
        else Then(if up then LocalInc(i) else LocalDec(i), k)
      else LocateCode(c, l, Then(if wanted then StepEq(up) else StepEqPop(up), k))
    else if l.ESend? then
      AccessCode(c, l, Then(StepInstr(up), Then(Send(1), DropIf(!wanted, k))))
    else
      PushCode(c, l, Then(StepInstr(up), if wanted then Then(Duplicate, PopCode(c, l, k)) else PopCode(c, l, k)))
  }

  /** hb_compExprPushPostOp. */
  function PostStepCode(c: Config, up: bool, l: Expr, k: Code): Code
    decreases l, 4
  {
    if StepsByRef(c, l) then
      if l.EVar? && c.scope(l.name).Local? then
        var i := c.scope(l.name).index;
        Then(PushVarInstr(c, l.name), Then(if up then LocalInc(i) else LocalDec(i), k))
      else LocateCode(c, l, Then(DuplUnref, Then(StepEqPop(up), k)))
    else if l.ESend? then
      if c.harbour then
        AccessCode(c, l, Then(Duplicate, Then(Swap(2), Then(StepInstr(up), Then(Send(1), Then(Pop, k))))))
      else
        PushCode(c, l, AccessCode(c, l, Then(StepInstr(up), Then(Send(1), Then(Pop, k)))))
    else
      PushCode(c, l, Then(Duplicate, Then(StepInstr(up), PopCode(c, l, k))))
  }
}
