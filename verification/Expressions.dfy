/** The expression trees that reach code generation, i.e. after HB_EA_REDUCE. */
module Expressions {
  import opened Values

  /** What hb_compVariableFind reports for a variable name. */
  datatype Slot =
    | Local(index: nat)          // HB_VS_LOCAL_VAR
    | Detached(position: nat)    // HB_VS_CBLOCAL_VAR: a local of an outer function seen in a codeblock
    | Static(number: nat)        // HB_VS_STATIC_VAR, HB_VS_GLOBAL_STATIC
    | Memvar                     // HB_VS_LOCAL_MEMVAR, HB_VS_GLOBAL_MEMVAR
    | Field                      // HB_VS_LOCAL_FIELD, HB_VS_GLOBAL_FIELD
    | Undeclared                 // HB_VS_UNDECLARED

  /** Compiler switches and the symbol information of the current function. */
  datatype Config = Config(
    harbour: bool,               // HB_SUPPORT_HARBOUR
    extopt: bool,                // HB_SUPPORT_EXTOPT
    shortcuts: bool,             // HB_COMPFLAG_SHORTCUTS
    forceMemvars: bool,          // -v
    scope: string -> Slot,
    symbolIndex: string -> int,
    symbolName: int -> string)

  datatype Expr =
    | ENil
    | ENum(n: int)
    | EStr(s: seq<byte>)
    | ELog(b: bool)
    | EVar(name: string)
    | EVarRef(name: string)
    | ERef(operand: Expr)
    | EArray(items: Exprs)
    | EIif(cond: Expr, thn: Expr, els: Expr)
    | EList(init: Exprs, last: Expr)
    | EAt(base: Expr, index: Expr, byRef: bool)
    | ECall(function_: string, args: Exprs)
    | ESend(object_: Expr, message: string, isCall: bool, parms: Exprs)
    | EAlias(alias: Expr, body: Expr)
    | EAssign(target: Expr, source: Expr)
    | EOpEq(op: BinOp, target: Expr, source: Expr)
    | EStep(up: bool, pre: bool, target: Expr)
    | ELogic(isAnd: bool, left: Expr, right: Expr)
    | ENot(arg: Expr)
    | ENeg(arg: Expr)
    | EBin(op: BinOp, left: Expr, right: Expr)

  datatype Exprs = ENone | EMore(head: Expr, tail: Exprs)

  function Count(es: Exprs): nat {
    match es
    case ENone => 0
    case EMore(_, t) => 1 + Count(t)
  }

  /** Scopes whose variables are updated through a reference. */
  predicate Referenced(slot: Slot) {
    !slot.Field? && !slot.Undeclared?
  }

  /** The operators that have a compound assignment. */
  predicate Compound(op: BinOp) {
    op in {Plus, Minus, Mult, Div, Mod, Power}
  }

  /** The targets that HB_EA_LVALUE accepts and HB_EA_POP_PCODE can store into. */
  predicate Target(c: Config, e: Expr) {
    match e
    case EVar(_) => true
    case EAt(_, _, byRef) => !byRef
    case ESend(_, _, isCall, parms) => !isCall && parms.ENone?
    case EIif(_, a, b) => c.harbour && Target(c, a) && Target(c, b)
    case _ => false
  }

  /** Expressions whose result can be a reference.  The grammar allows `@` only in front of an
      argument, so an assigned value never is one. */
  predicate YieldsRef(e: Expr) {
    match e
    case EVarRef(_) => true
    case ERef(_) => true
    case EAt(_, _, byRef) => byRef
    case EIif(_, a, b) => YieldsRef(a) || YieldsRef(b)
    case EList(_, last) => YieldsRef(last)
    case EAlias(_, body) => YieldsRef(body)
    case EAssign(_, source) => YieldsRef(source)
    case ELogic(_, _, right) => YieldsRef(right)
    case _ => false
  }

  /** The operands of which HB_EA_PUSH_PCODE of HB_ET_REFERENCE makes a reference. */
  predicate Referable(c: Config, e: Expr) {
    match e
    case EVar(n) => !c.scope(n).Field?
    case EAt(_, _, _) => true
    case ESend(_, _, _, _) => true
    case EVarRef(_) => true
    case ERef(_) => true
    case _ => false
  }

  /** Every assignment, compound assignment and step has a storable target, and no assigned
      value is a reference, and every reference is one that can be made. */
  predicate WellFormed(c: Config, e: Expr) {
    match e
    case ENil => true
    case ENum(_) => true
    case EStr(_) => true
    case ELog(_) => true
    case EVar(_) => true
    case EVarRef(n) => !c.scope(n).Field?
    case ERef(x) => Referable(c, x) && WellFormed(c, x)
    case EArray(items) => WellFormedAll(c, items)
    case EIif(x, a, b) => WellFormed(c, x) && WellFormed(c, a) && WellFormed(c, b)
    case EList(init, last) => WellFormedAll(c, init) && WellFormed(c, last)
    case EAt(b, i, _) => WellFormed(c, b) && WellFormed(c, i)
    case ECall(_, args) => WellFormedAll(c, args)
    case ESend(o, _, isCall, ps) => WellFormed(c, o) && WellFormedAll(c, ps) && (!isCall ==> ps.ENone?)
    case EAlias(a, b) => WellFormed(c, a) && WellFormed(c, b)
    case EAssign(l, r) => Target(c, l) && WellFormed(c, l) && WellFormed(c, r) && !YieldsRef(r)
    case EOpEq(op, l, r) => Compound(op) && Target(c, l) && WellFormed(c, l) && WellFormed(c, r)
    case EStep(_, _, l) => Target(c, l) && WellFormed(c, l)
    case ELogic(_, a, b) => WellFormed(c, a) && WellFormed(c, b)
    case ENot(x) => WellFormed(c, x)
    case ENeg(x) => WellFormed(c, x)
    case EBin(_, a, b) => WellFormed(c, a) && WellFormed(c, b)
  }

  predicate WellFormedAll(c: Config, es: Exprs) {
    match es
    case ENone => true
    case EMore(e, t) => WellFormed(c, e) && WellFormedAll(c, t)
  }
}
