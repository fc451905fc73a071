/** The expression handlers themselves: they walk the nodes, append bytes to the pcode buffer,
    patch jumps, and change nodes for a while to reuse each other. */
module Emitter {
  import opened Values
  import opened Expressions
  import opened Pcode
  import opened Meaning
  import opened Compiler
  import opened Shape
  import opened Codec
  import opened Encoding
  import opened Nodes

  // ---------------------------------------------------------------- bytes

  lemma Cut(a: seq<byte>, b: seq<byte>, t: seq<byte>)
    requires a + t == b + t
    ensures a == b
  {
    assert |a| == |b|;
    forall i | 0 <= i < |a| ensures a[i] == b[i] {
      assert (a + t)[i] == a[i] && (b + t)[i] == b[i];
    }
  }

  lemma Assoc(a: seq<byte>, b: seq<byte>, t: seq<byte>)
    ensures (a + b) + t == a + (b + t)
  {
  }

  /** The part of an appended buffer that was added. */
  lemma Added(old_: seq<byte>, new_: seq<byte>, x: seq<byte>, y: seq<byte>)
    requires old_ <= new_ && new_ + y == old_ + x
    ensures new_ == old_ + new_[|old_|..] && new_[|old_|..] + y == x
  {
    var s := new_[|old_|..];
    assert new_ == old_ + s;
    Assoc(old_, s, y);
    assert (old_ + (s + y))[|old_|..] == s + y;
    assert (old_ + x)[|old_|..] == x;
  }

  /** The buffer with a three-byte operand stored at pos. */
  function Patched(code: seq<byte>, pos: nat, d: int): seq<byte>
    requires pos + 3 <= |code|
  {
    code[..pos] + LE(d, 3) + code[pos + 3..]
  }

  lemma PatchOperand(pre: seq<byte>, op: byte, z: seq<byte>, post: seq<byte>, d: int)
    requires |z| == 3
    ensures Patched(pre + [op] + z + post, |pre| + 1, d) == pre + ([op] + LE(d, 3)) + post
  {
    var code := pre + [op] + z + post;
    assert code[..|pre| + 1] == pre + [op];
    assert code[|pre| + 4..] == post;
  }

  /** The bytes of an arm, between the buffer before it and the buffer after it. */
  lemma OneArm(c: Config, before: seq<byte>, after: seq<byte>, x: Code, k: Code) returns (arm: seq<byte>)
    requires before <= after && after + Bytes(c, k) == before + Bytes(c, x)
    ensures after == before + arm && arm + Bytes(c, k) == Bytes(c, x)
    ensures |arm| == CodeSize(x) - CodeSize(k)
  {
    Added(before, after, Bytes(c, x), Bytes(c, k));
    BytesSize(c, x);
    BytesSize(c, k);
    arm := after[|before|..];
  }

  lemma ArmSize(c: Config, before: seq<byte>, after: seq<byte>, x: Code, k: Code)
    requires before <= after && after + Bytes(c, k) == before + Bytes(c, x)
    ensures |after| - |before| == CodeSize(x) - CodeSize(k)
  {
    var _ := OneArm(c, before, after, x, k);
  }

  /** A patched jump and the code of an arm. */
  lemma OneJump(c: Config, start: seq<byte>, j: Instr, op: byte, d: int, arm: seq<byte>, x: Code, k: Code)
    requires Encode(c, j) == [op] + LE(d, 3) && arm + Bytes(c, k) == Bytes(c, x)
    ensures (start + ([op] + LE(d, 3)) + arm) + Bytes(c, k) == start + Bytes(c, Then(j, x))
  {
    hide LE, Encode;
    var ej := [op] + LE(d, 3);
    Assoc(start + ej, arm, Bytes(c, k));
    Assoc(start, ej, Bytes(c, x));
  }

  lemma AssocJump(x: seq<byte>, a: seq<byte>, j: seq<byte>, z: seq<byte>)
    ensures x + (a + j + z) == x + a + j + z
  {
  }

  /** The layout of two arms after both jumps have been patched. */
  lemma TwoArms(c: Config, start: seq<byte>, armed: seq<byte>, armEnd: seq<byte>, bothJumps: seq<byte>, patched: seq<byte>,
      done: seq<byte>, d1: int, d2: int, ka: Code, kb: Code, k: Code)
    requires armed == start + [JUMPFALSEFAR] + [0, 0, 0]
    requires armed <= armEnd && armEnd + Bytes(c, Then(Jump(d2), kb)) == armed + Bytes(c, ka)
    requires bothJumps == armEnd + [JUMPFAR] + [0, 0, 0]
    requires patched == Patched(bothJumps, |start| + 1, d1)
    requires patched <= done && done + Bytes(c, k) == patched + Bytes(c, kb)
    ensures |armEnd| == |armed| + CodeSize(ka) - FAR - CodeSize(kb) && |patched| == |armEnd| + 4
    ensures |done| == |patched| + CodeSize(kb) - CodeSize(k)
    ensures Patched(done, |armEnd| + 1, d2) + Bytes(c, k) == start + Bytes(c, Then(JumpFalse(d1), ka))
    ensures start <= Patched(done, |armEnd| + 1, d2)
  {
    hide Patched, LE, Bytes, CodeSize;
    var kj := Then(Jump(d2), kb);
    var a := OneArm(c, armed, armEnd, ka, kj);
    var j1, z := [JUMPFALSEFAR] + LE(d1, 3), [0, 0, 0];
    var pre := start + j1 + a;
    AssocJump(armed, a, [JUMPFAR], z);
    PatchOperand(start, JUMPFALSEFAR, z, a + [JUMPFAR] + z, d1);
    AssocJump(start + j1, a, [JUMPFAR], z);
    assert patched == pre + [JUMPFAR] + z;
    var b := OneArm(c, patched, done, kb, k);
    PatchOperand(pre, JUMPFAR, z, b, d2);
    JumpSize(d2, kb);
    assert start <= pre <= Patched(done, |armEnd| + 1, d2);
    OneJump(c, pre, Jump(d2), JUMPFAR, d2, b, kb, k);
    OneJump(c, start, JumpFalse(d1), JUMPFALSEFAR, d1, a, ka, kj);
  }

  /** The layout of one arm behind a conditional jump that has been patched. */
  lemma SingleArm(c: Config, start: seq<byte>, jumped: seq<byte>, done: seq<byte>, i: Instr, op: byte, d: int, x: Code, k: Code)
    requires Encode(c, i) == [op] + LE(d, 3) && jumped == start + [op] + [0, 0, 0]
    requires jumped <= done && done + Bytes(c, k) == jumped + Bytes(c, x)
    ensures |done| == |jumped| + CodeSize(x) - CodeSize(k)
    ensures Patched(done, |start| + 1, d) + Bytes(c, k) == start + Bytes(c, Then(i, x))
    ensures start <= Patched(done, |start| + 1, d)
  {
    hide Patched, LE, Bytes, CodeSize, Encode;
    var arm := OneArm(c, jumped, done, x, k);
    PatchOperand(start, op, [0, 0, 0], arm, d);
    OneJump(c, start, i, op, d, arm, x, k);
  }

  lemma PopSize(k: Code)
    ensures CodeSize(Then(Pop, k)) == 1 + CodeSize(k)
  {
  }

  lemma JumpSize(d: int, k: Code)
    ensures CodeSize(Then(Jump(d), k)) == FAR + CodeSize(k)
  {
  }

  // ---------------------------------------------------------------- opcodes and operands

  /** The instructions that are one opcode. */
  lemma StackCodes(c: Config)
    ensures Encode(c, Duplicate) == [DUPLICATE]
    ensures Encode(c, Pop) == [POP]
    ensures Encode(c, PushUnref) == [PUSHUNREF]
  {
  }

  lemma StepCodes(c: Config, up: bool)
    ensures Encode(c, StepInstr(up)) == [if up then INC else DEC]
    ensures Encode(c, StepEq(up)) == [if up then INCEQ else DECEQ]
    ensures Encode(c, StepEqPop(up)) == [if up then INCEQPOP else DECEQPOP]
  {
  }

  lemma VarRefFormed(c: Config, n: string)
    ensures WellFormed(c, EVarRef(n)) <==> !c.scope(n).Field?
  {
  }

  lemma UnrefCode(c: Config)
    ensures Encode(c, DuplUnref) == [DUPLUNREF]
  {
  }

  lemma RefCode(c: Config)
    ensures Encode(c, PushOVarRef) == [PUSHOVARREF]
  {
  }

  lemma LogicCodes(c: Config)
    ensures Encode(c, And) == [AND]
    ensures Encode(c, Or) == [OR]
  {
  }

  lemma AliasCodes(c: Config)
    ensures Encode(c, PushAlias) == [PUSHALIAS]
    ensures Encode(c, PopAlias) == [POPALIAS]
    ensures Encode(c, SwapAlias) == [SWAPALIAS]
  {
  }

  lemma OperatorCode(c: Config, op: BinOp)
    ensures Encode(c, Bin(op)) == [BinByte(op)]
  {
  }

  lemma CompoundCodes(c: Config, op: BinOp)
    ensures Encode(c, Pcode.OpEq(op)) == [OpEqByte(op)]
    ensures Encode(c, OpEqPop(op)) == [OpEqPopByte(op)]
  {
    hide Encode;
    CompoundCode(c, op);
    CompoundPopCode(c, op);
  }

  lemma CompoundCode(c: Config, op: BinOp)
    ensures Encode(c, Pcode.OpEq(op)) == [OpEqByte(op)]
  {
    hide OpEqByte;
  }

  lemma CompoundPopCode(c: Config, op: BinOp)
    ensures Encode(c, OpEqPop(op)) == [OpEqPopByte(op)]
  {
    hide OpEqPopByte;
  }

  lemma LocalCodes(c: Config, n: nat, k: int)
    ensures Encode(c, LocalInc(n)) == [LOCALINC] + LE(n, 2) && Encode(c, LocalDec(n)) == [LOCALDEC] + LE(n, 2)
    ensures Encode(c, LocalIncPush(n)) == [LOCALINCPUSH] + LE(n, 2)
    ensures Encode(c, LocalAddInt(n, k)) == [LOCALADDINT] + LE(n, 2) + LE(k, 2)
  {
  }

  lemma JumpCodes(c: Config, j: Instr, op: byte, d: int)
    requires (j == JumpTrue(d) && op == JUMPTRUEFAR) || (j == JumpFalse(d) && op == JUMPFALSEFAR) || (j == Jump(d) && op == JUMPFAR)
    ensures Encode(c, j) == [op] + LE(d, 3)
  {
  }

  lemma SwapCodes(c: Config, n: nat)
    ensures Encode(c, Swap(n)) == [SWAP] + LE(n, 1)
  {
  }

  /** The operands of a well-formed operator. */
  lemma OperandsFormed(c: Config, e: Expr)
    requires WellFormed(c, e) && (e.EAssign? || e.EOpEq? || e.ELogic? || e.EBin?)
    ensures var (a, b) := if e.EAssign? || e.EOpEq? then (e.target, e.source) else (e.left, e.right);
      && WellFormed(c, a) && WellFormed(c, b) && Weight(e) == 1 + Weight(a) + Weight(b)
      && (e.EAssign? || e.EOpEq? ==> Target(c, a)) && (e.EOpEq? ==> Compound(e.op))
  {
  }

  lemma OperandFormed(c: Config, e: Expr)
    requires WellFormed(c, e) && (e.EStep? || e.ENot? || e.ENeg?)
    ensures var a := if e.EStep? then e.target else e.arg;
      WellFormed(c, a) && Weight(e) == 1 + Weight(a) && (e.EStep? ==> Target(c, a))
  {
  }

  lemma IifFormed(c: Config, e: Expr)
    requires e.EIif? && WellFormed(c, e)
    ensures WellFormed(c, e.cond) && WellFormed(c, e.thn) && WellFormed(c, e.els)
    ensures Target(c, e) ==> Target(c, e.thn) && Target(c, e.els)
    ensures Weight(e) == 4 + Weight(e.cond) + Weight(e.thn) + Weight(e.els)
  {
  }

  lemma SendFormed(c: Config, l: Expr)
    requires l.ESend? && WellFormed(c, l)
    ensures WellFormed(c, l.object_) && WellFormedAll(c, l.parms) && Weight(l) == 1 + Weight(l.object_) + WeightAll(l.parms)
  {
  }

  /** A target is a variable, an element, a plain message or a conditional of these. */
  lemma TargetKinds(c: Config, l: Expr)
    requires Target(c, l)
    ensures l.EVar? || l.EAt? || l.ESend? || l.EIif?
    ensures l.EAt? ==> !l.byRef
    ensures l.ESend? ==> !l.isCall
  {
  }

  // ---------------------------------------------------------------- one level of generated code

  lemma PushBinary(c: Config, e: Expr, k: Code)
    requires e.EBin?
    ensures UnitStep(c, e).None? ==> PushCode(c, e, k) == PushCode(c, e.left, PushCode(c, e.right, Then(Bin(e.op), k)))
    ensures UnitStep(c, e).Some? ==>
      PushCode(c, e, k) == PushCode(c, UnitStep(c, e).value.0, Then(StepInstr(UnitStep(c, e).value.1), k))
  {
  }

  lemma PushInverted(c: Config, e: Expr, k: Code)
    ensures e.ENot? ==> PushCode(c, e, k) == PushCode(c, e.arg, Then(Not, k))
    ensures e.ENeg? ==> PushCode(c, e, k) == PushCode(c, e.arg, Then(Neg, k))
  {
  }

  lemma InvertCodes(c: Config)
    ensures Encode(c, Not) == [NOT] && Encode(c, Neg) == [NEGATE]
  {
  }

  lemma PushVariableCode(c: Config, l: Expr, k: Code)
    requires l.EVar?
    ensures PushCode(c, l, k) == Then(PushVarInstr(c, l.name), k)
  {
  }

  lemma OperEqForms(c: Config, e: Expr, wanted: bool, k: Code)
    requires e.EOpEq?
    ensures var EOpEq(op, l, r) := e; var i := if wanted then Pcode.OpEq(op) else OpEqPop(op);
      && (UpdatesByRef(c, l) && AddsInt(c, op, l, r) ==>
        OpEqCode(c, e, wanted, k) == Then(LocalAddInt(c.scope(l.name).index, Increment(op, r.n)),
          if wanted then Then(PushVarInstr(c, l.name), k) else k))
      && (UpdatesByRef(c, l) && !AddsInt(c, op, l, r) ==> OpEqCode(c, e, wanted, k) == LocateCode(c, l, PushCode(c, r, Then(i, k))))
      && (!UpdatesByRef(c, l) && l.ESend? ==>
        OpEqCode(c, e, wanted, k) == AccessCode(c, l, PushCode(c, r, Then(Bin(op), Then(Send(1), DropIf(!wanted, k))))))
      && (!UpdatesByRef(c, l) && !l.ESend? ==>
        OpEqCode(c, e, wanted, k) == PushCode(c, l, PushCode(c, r, Then(Bin(op),
          if wanted then Then(Duplicate, PopCode(c, l, k)) else PopCode(c, l, k)))))
  {
    hide PushCode, PopCode, LocateCode, AccessCode;
  }

  lemma StepForms(c: Config, up: bool, l: Expr, wanted: bool, k: Code)
    ensures StepsByRef(c, l) && l.EVar? && c.scope(l.name).Local? ==> (
      StepCode(c, up, l, wanted, k) == (
        if wanted then if up then Then(LocalIncPush(c.scope(l.name).index), k)
          else Then(LocalDec(c.scope(l.name).index), Then(PushVarInstr(c, l.name), k))
        else Then(if up then LocalInc(c.scope(l.name).index) else LocalDec(c.scope(l.name).index), k)))
    ensures StepsByRef(c, l) && !(l.EVar? && c.scope(l.name).Local?) ==>
      StepCode(c, up, l, wanted, k) == LocateCode(c, l, Then(if wanted then StepEq(up) else StepEqPop(up), k))
    ensures !StepsByRef(c, l) && l.ESend? ==>
      StepCode(c, up, l, wanted, k) == AccessCode(c, l, Then(StepInstr(up), Then(Send(1), DropIf(!wanted, k))))
    ensures !StepsByRef(c, l) && !l.ESend? ==>
      StepCode(c, up, l, wanted, k) ==
        PushCode(c, l, Then(StepInstr(up), if wanted then Then(Duplicate, PopCode(c, l, k)) else PopCode(c, l, k)))
  {
    hide PushCode, PopCode, LocateCode, AccessCode;
  }

  lemma NotVariable(c: Config, op: BinOp, l: Expr, r: Expr)
    ensures !l.EVar? ==> !AddsInt(c, op, l, r)
  {
  }

  lemma VarRefCode(c: Config, n: string, k: Code)
    ensures PushCode(c, EVarRef(n), k) == PushVarRefCode(c, n, k)
  {
  }

  lemma PushAliased(c: Config, e: Expr, k: Code)
    requires e.EAlias?
    ensures PushCode(c, e, k) ==
      Then(PushAlias, PushCode(c, e.alias, Then(PopAlias, PushCode(c, e.body, Then(SwapAlias, k)))))
    ensures DropCode(c, e, k) ==
      Then(PushAlias, PushCode(c, e.alias, Then(PopAlias, DropCode(c, e.body, Then(PopAlias, k)))))
  {
  }

  lemma PushElement(c: Config, e: Expr, k: Code)
    requires e.EAt?
    ensures PushCode(c, e, k) == PushCode(c, e.base, PushCode(c, e.index, Then(if e.byRef then ArrayPushRef else ArrayPush, k)))
    ensures PopCode(c, e, k) == PushCode(c, e.base, PushCode(c, e.index, Then(ArrayPop, k)))
    ensures DropCode(c, e, k) == DropCode(c, e.base, DropCode(c, e.index, k))
  {
  }

  lemma PushListed(c: Config, e: Expr, k: Code)
    requires e.EList?
    ensures PushCode(c, e, k) == DropAllCode(c, e.init, PushCode(c, e.last, k))
    ensures DropCode(c, e, k) == DropAllCode(c, e.init, DropCode(c, e.last, k))
  {
  }

  lemma PushAssigned(c: Config, e: Expr, k: Code)
    requires e.EAssign?
    ensures !e.target.ESend? ==>
      && PushCode(c, e, k) == PushCode(c, e.source, Then(PushUnref, PopCode(c, e.target, k)))
      && DropCode(c, e, k) == PushCode(c, e.source, PopCode(c, e.target, k))
    ensures e.target.ESend? ==>
      && PushCode(c, e, k) ==
        Then(Message("_" + e.target.message), PushCode(c, e.target.object_, PushCode(c, e.source, Then(Send(1), k))))
      && DropCode(c, e, k) == PushCode(c, e, Then(Pop, k))
  {
  }

  lemma PushLogical(c: Config, e: Expr, k: Code)
    requires e.ELogic?
    ensures c.shortcuts ==>
      && PushCode(c, e, k) == PushCode(c, e.left, Then(Duplicate,
        Then(Branching(!e.isAnd, FAR + 1 + CodeSize(PushCode(c, e.right, End))), Then(Pop, PushCode(c, e.right, k)))))
      && DropCode(c, e, k) == PushCode(c, e.left,
        Then(Branching(!e.isAnd, FAR + CodeSize(DropCode(c, e.right, End))), DropCode(c, e.right, k)))
    ensures !c.shortcuts ==>
      && PushCode(c, e, k) == PushCode(c, e.left, PushCode(c, e.right, Then(if e.isAnd then And else Or, k)))
      && DropCode(c, e, k) == PushCode(c, e, Then(Pop, k))
  {
  }

  lemma DropNil(c: Config, k: Code)
    ensures DropCode(c, ENil, k) == k
  {
  }

  lemma PushConditional(c: Config, e: Expr, k: Code)
    requires e.EIif?
    ensures var n, m := CodeSize(PushCode(c, e.thn, End)), CodeSize(PushCode(c, e.els, End));
      PushCode(c, e, k) == PushCode(c, e.cond, Then(JumpFalse(FAR + n + FAR),
        PushCode(c, e.thn, Then(Jump(FAR + m), PushCode(c, e.els, k)))))
  {
    hide CodeSize;
  }

  lemma PopConditional(c: Config, e: Expr, k: Code)
    requires e.EIif?
    ensures var n, m := CodeSize(PopCode(c, e.thn, End)), CodeSize(PopCode(c, e.els, End));
      PopCode(c, e, k) == PushCode(c, e.cond, Then(JumpFalse(FAR + n + FAR),
        PopCode(c, e.thn, Then(Jump(FAR + m), PopCode(c, e.els, k)))))
  {
    hide CodeSize, PushCode;
  }

  lemma DropConditional(c: Config, e: Expr, k: Code)
    requires e.EIif?
    ensures var n, m := CodeSize(DropCode(c, e.thn, End)), CodeSize(DropCode(c, e.els, End));
      DropCode(c, e, k) == PushCode(c, e.cond,
        if n == 0 then Then(JumpTrue(FAR + m), DropCode(c, e.els, k))
        else Then(JumpFalse(FAR + n + FAR), DropCode(c, e.thn, Then(Jump(FAR + m), DropCode(c, e.els, k)))))
  {
    hide CodeSize, PushCode;
  }

  /** A reference by the kind of its operand. */
  lemma PushReferred(c: Config, x: Expr, k: Code)
    ensures x.EAt? ==> PushCode(c, ERef(x), k) == PushCode(c, EAt(x.base, x.index, true), k)
    ensures x.EAt? && WellFormed(c, x) ==> WellFormed(c, EAt(x.base, x.index, true))
    ensures x.ESend? ==> PushCode(c, ERef(x), k) == Then(Message("_" + x.message), PushCode(c, x.object_, Then(PushOVarRef, k)))
    ensures x.EVar? ==> PushCode(c, ERef(x), k) == PushVarRefCode(c, x.name, k)
    ensures x.EVarRef? || x.ERef? ==> PushCode(c, ERef(x), k) == PushCode(c, x, k)
    ensures !x.EAt? && !x.ESend? && !x.EVar? && !x.EVarRef? && !x.ERef? ==> PushCode(c, ERef(x), k) == Then(Refused, k)
  {
    var code := if x.EVarRef? || x.ERef? then PushCode(c, x, k) else LocateCode(c, x, k);
    assert PushCode(c, ERef(x), k) == code;
    if x.EAt? {
      assert code == PushCode(c, x.base, PushCode(c, x.index, Then(ArrayPushRef, k)));
      PushElement(c, EAt(x.base, x.index, true), k);
    } else if x.ESend? {
      assert code == SendPopCode(c, x, Then(PushOVarRef, k));
    }
  }

  /** The nodes with the reference flag of an element set. */
  function Flagged(ns: seq<Node>, p: Ptr): seq<Node> {
    if p.Some? && p.value < |ns| && ns[p.value].value.AsList? then ns[p.value := ns[p.value].(value := ns[p.value].value.(reference := true))]
    else ns
  }

  /** Where an error stands, none of the code is used. */
  lemma RefusedSum(c: Config, failed: bool, code: seq<byte>, k: Code)
    ensures Sum(c, failed, code, Then(Refused, k)) == None && Sum(c, true, code, k) == None
  {
  }

  lemma FlaggedRep(ns: seq<Node>, lo: nat, id: nat, e: Expr)
    requires Rep(ns, lo, id, e) && e.EAt?
    ensures id < |ns| && ns[id].value.AsList? && Rep(Flagged(ns, Some(id)), lo, id, EAt(e.base, e.index, true))
    ensures Weight(EAt(e.base, e.index, true)) == Weight(e) && (e.byRef ==> Flagged(ns, Some(id)) == ns)
  {
    var ms := Flagged(ns, Some(id));
    TwoFrame(ns, ms, lo, id, ns[id].value.exprList, e.base, ns[id].value.index, e.index);
  }

  /** The type of a node tells the form of its expression. */
  lemma AllKinds(ns: seq<Node>, lo: nat, id: nat, e: Expr)
    requires Rep(ns, lo, id, e)
    ensures id < |ns|
    ensures ns[id].kind != KArgList
    ensures ns[id].kind == KReference <==> e.ERef?
    ensures ns[id].kind == KArray <==> e.EArray?
    ensures ns[id].kind == KIif <==> e.EIif?
    ensures ns[id].kind == KList <==> e.EList?
    ensures ns[id].kind == KArrayAt <==> e.EAt?
    ensures ns[id].kind == KFunCall <==> e.ECall?
    ensures ns[id].kind == KSend <==> e.ESend?
    ensures ns[id].kind == KAliasExpr <==> e.EAlias?
    ensures ns[id].kind == KAssign <==> e.EAssign?
    ensures ns[id].kind.KOpEq? <==> e.EOpEq?
    ensures ns[id].kind == KPreInc <==> e.EStep? && e.pre && e.up
    ensures ns[id].kind == KPreDec <==> e.EStep? && e.pre && !e.up
    ensures ns[id].kind == KPostInc <==> e.EStep? && !e.pre && e.up
    ensures ns[id].kind == KPostDec <==> e.EStep? && !e.pre && !e.up
    ensures ns[id].kind == KAnd <==> e.ELogic? && e.isAnd
    ensures ns[id].kind == KOr <==> e.ELogic? && !e.isAnd
    ensures ns[id].kind == KNot <==> e.ENot?
    ensures ns[id].kind == KNegate <==> e.ENeg?
    ensures ns[id].kind.KBinary? <==> e.EBin?
    ensures ns[id].kind == KVariable <==> e.EVar?
    ensures ns[id].kind in {KNil, KNumeric, KString, KLogical, KVariable, KVarRef} <==> e.ENil? || e.ENum? || e.EStr? || e.ELog? || e.EVar? || e.EVarRef?
  {
  }

  /** Compound assignments and steps. */
  lemma UpdateForms(c: Config, e: Expr, k: Code)
    ensures e.EOpEq? ==> PushCode(c, e, k) == OpEqCode(c, e, true, k) && DropCode(c, e, k) == OpEqCode(c, e, false, k)
    ensures e.EStep? && e.pre ==> PushCode(c, e, k) == StepCode(c, e.up, e.target, true, k)
    ensures e.EStep? && !e.pre ==> PushCode(c, e, k) == PostStepCode(c, e.up, e.target, k)
    ensures e.EStep? ==> DropCode(c, e, k) == StepCode(c, e.up, e.target, false, k)
  {
    hide OpEqCode, StepCode, PostStepCode;
  }

  /** Expressions that generate nothing when their value is not wanted, and messages. */
  lemma DropForms(c: Config, e: Expr, k: Code)
    ensures e.ENil? || e.ENum? || e.EStr? || e.ELog? || e.EVarRef? || e.ERef? ==> DropCode(c, e, k) == k
    ensures e.ESend? ==> DropCode(c, e, k) == PushCode(c, e, Then(Pop, k))
  {
  }

  lemma PushSent(c: Config, e: Expr, k: Code)
    requires e.ESend?
    ensures PushCode(c, e, k) == Then(Message(e.message), PushCode(c, e.object_, PushAllCode(c, e.parms, Then(Send(Count(e.parms)), k))))
    ensures e.parms == ENone ==> PushAllCode(c, e.parms, Then(Send(Count(e.parms)), k)) == Then(Send(0), k)
  {
  }

  lemma ReferenceFormed(c: Config, e: Expr)
    requires e.ERef? && WellFormed(c, e)
    ensures WellFormed(c, e.operand) && Weight(e) == 1 + Weight(e.operand)
  {
  }

  /** In a tree whose reference flags have been set nothing is left to set. */
  lemma AlreadyFlagged(ns: seq<Node>, lo: nat, id: nat, e: Expr)
    requires Rep(ns, lo, id, e) && e.ERef? && e.operand.EAt?
    ensures id < |ns| && ns[id].value.AsReference? && Flagged(ns, ns[id].value.operand) == ns
  {
    ReferenceParts(ns, lo, id, e);
    ElementParts(ns, lo, ns[id].value.operand.value, e.operand);
  }

  // ---------------------------------------------------------------- what is going to be generated

  /** The buffer when k has been generated as well; None if an error has been reported or is going to be. */
  ghost function Sum(c: Config, failed: bool, code: seq<byte>, k: Code): Option<seq<byte>> {
    if failed || !Fits(k) then None else Some(code + Bytes(c, k))
  }

  /** A conditional jump over x, patched to reach k: it fails exactly if the distance does not fit. */
  lemma SingleSum(c: Config, f0: bool, start: seq<byte>, jumped: seq<byte>, f1: bool, done: seq<byte>, i: Instr, op: byte, d: int, x: Code, k: Code,
      f2: bool, final: seq<byte>)
    requires Encode(c, i) == [op] + LE(d, 3) && (Fit(i) <==> Int24(d)) && jumped == start + [op] + [0, 0, 0]
    requires |jumped| <= |done| && (f0 ==> f1) && (f1 || jumped <= done) && Sum(c, f1, done, k) == Sum(c, f0, jumped, x)
    requires d == FAR + CodeSize(x) - CodeSize(k)
    requires f2 == (f1 || !Int24(|done| - |start|)) && (f2 || final == Patched(done, |start| + 1, |done| - |start|))
    ensures Sum(c, f2, final, k) == Sum(c, f0, start, Then(i, x)) && (f2 || start <= final)
  {
    hide LE, Patched, Bytes, CodeSize, Encode, Fit, Fits;
    FitsThen(i, x);
    if !f1 && Fits(k) {
      SingleArm(c, start, jumped, done, i, op, d, x, k);
    } else if !f1 {
      KeepsStart(start, jumped, done, d, final, f2);
    }
  }

  /** The two arms of a conditional with both jumps patched: f0 to f4 tell whether an error has been
      reported before, after the true arm, after its jumps, after the false arm and at the end. */
  lemma TwoSum(c: Config, f0: bool, start: seq<byte>, f1: bool, armEnd: seq<byte>, f2: bool, patched: seq<byte>, f3: bool, done: seq<byte>,
      f4: bool, final: seq<byte>, ka: Code, kb: Code, k: Code)
    requires var armed, d2 := start + [JUMPFALSEFAR] + [0, 0, 0], FAR + CodeSize(kb) - CodeSize(k);
      && |armed| <= |armEnd| && (f0 ==> f1) && (f1 || armed <= armEnd) && Sum(c, f1, armEnd, Then(Jump(d2), kb)) == Sum(c, f0, armed, ka)
    requires f2 == (f1 || !Int24(|armEnd| + 4 - |start|)) && |patched| == |armEnd| + 4
    requires f2 || patched == Patched(armEnd + [JUMPFAR] + [0, 0, 0], |start| + 1, |armEnd| + 4 - |start|)
    requires |patched| <= |done| && (f2 ==> f3) && (f3 || patched <= done) && Sum(c, f3, done, k) == Sum(c, f2, patched, kb)
    requires f4 == (f3 || !Int24(|done| - |armEnd|)) && |final| == |done| && (f4 || final == Patched(done, |armEnd| + 1, |done| - |armEnd|))
    ensures var d1, d2 := FAR + CodeSize(ka) - CodeSize(kb), FAR + CodeSize(kb) - CodeSize(k);
      Sum(c, f4, final, k) == Sum(c, f0, start, Then(JumpFalse(d1), ka)) && (f4 || start <= final)
  {
    hide LE, Patched, Bytes, CodeSize, Encode, Fit, Fits, Int24;
    var d1, d2 := FAR + CodeSize(ka) - CodeSize(kb), FAR + CodeSize(kb) - CodeSize(k);
    var kj, armed, both := Then(Jump(d2), kb), start + [JUMPFALSEFAR] + [0, 0, 0], armEnd + [JUMPFAR] + [0, 0, 0];
    FitsThen(JumpFalse(d1), ka);
    FitsThen(Jump(d2), kb);
    BranchFits(JumpFalse(d1), d1);
    BranchFits(Jump(d2), d2);
    JumpSize(d2, kb);
    if !f3 { PatchedPrefix(start, armed, armEnd, both, patched, done, f4, final); }
    if !f3 && Fits(k) {
      ArmSize(c, patched, done, kb, k);
      if Fits(kj) {
        ArmSize(c, armed, armEnd, ka, kj);
        TwoArms(c, start, armed, armEnd, both, patched, done, d1, d2, ka, kb, k);
      }
    } else if !f1 && Fits(kj) {
      ArmSize(c, armed, armEnd, ka, kj);
    }
  }

  /** What EndTrueArm leaves of the buffer, where it will patch, and whether an error has been reported. */
  ghost predicate ArmEnded(start: seq<byte>, f1: bool, armEnd: seq<byte>, posEnd: nat, f2: bool, patched: seq<byte>) {
    if |armEnd| == |start| + 4 then posEnd == |start| + 1 && f2 == f1 && |start| < |armEnd| && patched == armEnd[|start| := JUMPTRUEFAR]
    else
      && posEnd == |armEnd| + 1 && f2 == (f1 || !Int24(|armEnd| + 4 - |start|)) && |patched| == |armEnd| + 4 && |start| + 4 <= |armEnd|
      && (f2 || patched == Patched(armEnd + [JUMPFAR] + [0, 0, 0], |start| + 1, |armEnd| + 4 - |start|))
  }

  /** A conditional whose value is dropped: the layout depends on whether the true arm, a, is empty. */
  lemma DropSum(c: Config, a: Expr, f0: bool, start: seq<byte>, f1: bool, armEnd: seq<byte>, posEnd: nat, f2: bool, patched: seq<byte>,
      f3: bool, done: seq<byte>, f4: bool, final: seq<byte>, n: nat, d2: int, kb: Code, k: Code)
    requires n == CodeSize(DropCode(c, a, End)) && d2 == FAR + CodeSize(kb) - CodeSize(k)
    requires var armed, kj := start + [JUMPFALSEFAR] + [0, 0, 0], Then(Jump(d2), kb);
      && |armed| <= |armEnd| && (f0 ==> f1) && (f1 || armed <= armEnd) && Sum(c, f1, armEnd, kj) == Sum(c, f0, armed, DropCode(c, a, kj))
    requires ArmEnded(start, f1, armEnd, posEnd, f2, patched)
    requires |patched| <= |done| && (f2 ==> f3) && (f3 || patched <= done) && Sum(c, f3, done, k) == Sum(c, f2, patched, kb)
    requires f4 == (f3 || !Int24(|done| - posEnd + 1)) && |final| == |done| && (f4 || final == Patched(done, posEnd, |done| - posEnd + 1))
    ensures Sum(c, f4, final, k) == Sum(c, f0, start,
      if n == 0 then Then(JumpTrue(d2), kb) else Then(JumpFalse(FAR + n + FAR), DropCode(c, a, Then(Jump(d2), kb))))
    ensures f4 || start <= final
  {
    hide LE, Patched, Bytes, CodeSize, Encode, Fit, Fits, Int24, DropCode, Skip, Sum;
    var armed, kj := start + [JUMPFALSEFAR] + [0, 0, 0], Then(Jump(d2), kb);
    DropDistance(c, a, kj);
    JumpSize(d2, kb);
    if f1 || !Fits(kj) {
      DropFails(c, a, f0, start, f1, armEnd, posEnd, f2, patched, f3, done, f4, final, n, d2, kb, k);
    } else {
      ArmLength(c, f0, armed, f1, armEnd, DropCode(c, a, kj), kj);
      if n == 0 {
        EmptyDrop(c, a, kj);
        SameBuffer(c, f0, armed, f1, armEnd, kj);
        BranchFits(JumpTrue(d2), d2);
        JumpCodes(c, JumpTrue(d2), JUMPTRUEFAR, d2);
        assert patched == start + [JUMPTRUEFAR] + [0, 0, 0];
        SingleSum(c, f0, start, patched, f3, done, JumpTrue(d2), JUMPTRUEFAR, d2, kb, k, f4, final);
      } else {
        TwoSum(c, f0, start, f1, armEnd, f2, patched, f3, done, f4, final, DropCode(c, a, kj), kb, k);
      }
    }
  }

  /** If something does not fit, or an error has been reported, an error is reported in the end. */
  lemma DropFails(c: Config, a: Expr, f0: bool, start: seq<byte>, f1: bool, armEnd: seq<byte>, posEnd: nat, f2: bool, patched: seq<byte>,
      f3: bool, done: seq<byte>, f4: bool, final: seq<byte>, n: nat, d2: int, kb: Code, k: Code)
    requires n == CodeSize(DropCode(c, a, End)) && d2 == FAR + CodeSize(kb) - CodeSize(k)
    requires var armed, kj := start + [JUMPFALSEFAR] + [0, 0, 0], Then(Jump(d2), kb);
      && |armed| <= |armEnd| && (f0 ==> f1) && (f1 || armed <= armEnd) && Sum(c, f1, armEnd, kj) == Sum(c, f0, armed, DropCode(c, a, kj))
      && (f1 || !Fits(kj))
    requires ArmEnded(start, f1, armEnd, posEnd, f2, patched)
    requires |patched| <= |done| && (f2 ==> f3) && (f3 || patched <= done) && Sum(c, f3, done, k) == Sum(c, f2, patched, kb)
    requires f4 == (f3 || !Int24(|done| - posEnd + 1)) && |final| == |done| && (f4 || final == Patched(done, posEnd, |done| - posEnd + 1))
    ensures Sum(c, f4, final, k) == None && (f4 || start <= final)
    ensures Sum(c, f0, start,
      if n == 0 then Then(JumpTrue(d2), kb) else Then(JumpFalse(FAR + n + FAR), DropCode(c, a, Then(Jump(d2), kb)))) == None
  {
    hide LE, Patched, Bytes, CodeSize, Encode, Fit, Fits, Int24, DropCode, Skip;
    var kj := Then(Jump(d2), kb);
    if n == 0 { EmptyDrop(c, a, kj); }
    BranchFits(JumpTrue(d2), d2);
    BranchFits(Jump(d2), d2);
    FitsThen(Jump(d2), kb);
    FitsThen(JumpTrue(d2), kb);
    FitsThen(JumpFalse(FAR + n + FAR), DropCode(c, a, kj));
    if !f4 {
      DropKeepsStart(start, armEnd, posEnd, f1, f2, patched, done, final);
      if Fits(k) { ArmLength(c, f2, patched, f3, done, kb, k); }
    }
  }

  lemma DropKeepsStart(start: seq<byte>, armEnd: seq<byte>, posEnd: nat, f1: bool, f2: bool, patched: seq<byte>, done: seq<byte>, final: seq<byte>)
    requires !f1 && !f2 && start + [JUMPFALSEFAR] + [0, 0, 0] <= armEnd && ArmEnded(start, f1, armEnd, posEnd, f2, patched)
    requires patched <= done && posEnd + 3 <= |done| && final == Patched(done, posEnd, |done| - posEnd + 1)
    ensures start <= final
  {
    assert start <= armEnd;
    assert start <= patched;
  }

  lemma EmptyDrop(c: Config, a: Expr, k: Code)
    requires CodeSize(DropCode(c, a, End)) == 0
    ensures DropCode(c, a, k) == k
  {
    hide DropCode;
    DropDistance(c, a, k);
  }

  /** The lengths of the buffers, unless an error is involved. */
  lemma ArmLength(c: Config, f0: bool, before: seq<byte>, f1: bool, after: seq<byte>, x: Code, k: Code)
    requires !f1 && Fits(k) && before <= after && Sum(c, f1, after, k) == Sum(c, f0, before, x)
    ensures |after| - |before| == CodeSize(x) - CodeSize(k) && !f0 && Fits(x)
  {
    hide Bytes, CodeSize, Fits;
    ArmSize(c, before, after, x, k);
  }

  lemma SameBuffer(c: Config, f0: bool, before: seq<byte>, f1: bool, after: seq<byte>, k: Code)
    requires !f1 && Fits(k) && before <= after && |before| == |after|
    ensures before == after
  {
  }

  lemma PatchedPrefix(start: seq<byte>, armed: seq<byte>, armEnd: seq<byte>, both: seq<byte>, patched: seq<byte>, done: seq<byte>,
      f4: bool, final: seq<byte>)
    requires start <= armed <= armEnd <= both && |armed| == |start| + 4 && |both| == |armEnd| + 4
    requires patched == Patched(both, |start| + 1, |armEnd| + 4 - |start|) && patched <= done
    requires f4 || final == Patched(done, |armEnd| + 1, |done| - |armEnd|)
    ensures f4 || start <= final
  {
  }

  lemma BranchFits(j: Instr, d: int)
    requires j == JumpTrue(d) || j == JumpFalse(d) || j == Jump(d)
    ensures Fit(j) <==> Int24(d)
  {
  }

  lemma FitsThen(i: Instr, k: Code)
    ensures Fits(Then(i, k)) <==> Fit(i) && Fits(k)
  {
  }

  lemma KeepsStart(start: seq<byte>, jumped: seq<byte>, done: seq<byte>, d: int, final: seq<byte>, f2: bool)
    requires start <= jumped <= done && |jumped| == |start| + 4
    requires f2 || final == Patched(done, |start| + 1, |done| - |start|)
    ensures f2 || start <= final
  {
  }

  // ---------------------------------------------------------------- emitter

  class Emitter {
    const c: Config
    /** The node pool. */
    var nodes: seq<Node>
    /** The pcode buffer up to nPCodePos. */
    var code: seq<byte>
    /** A compilation error has been reported; the pcode is not used then. */
    var failed: bool

    constructor (c: Config, nodes: seq<Node>)
      ensures this.c == c && this.nodes == nodes && code == [] && !failed
    {
      this.c, this.nodes, code, failed := c, nodes, [], false;
    }

    ghost function Finished(k: Code): Option<seq<byte>>
      reads this`failed, this`code
    {
      Sum(c, failed, code, k)
    }

    // -------------------------------------------------------------- hb_compGenPCode*

    /** The bytes of instruction i; k is what is going to follow it. */
    method GenPCodeN(buffer: seq<byte>, ghost i: Instr, ghost k: Code)
      requires buffer == Encode(c, i) && Fit(i)
      modifies this`code
      ensures code == old(code) + buffer
      ensures Finished(k) == old(Finished(Then(i, k)))
    {
      code := code + buffer;
      Assoc(old(code), buffer, Bytes(c, k));
    }

    method GenPCode1(op: byte, ghost i: Instr, ghost k: Code)
      requires Encode(c, i) == [op] && Fit(i)
      modifies this`code
      ensures code == old(code) + [op]
      ensures Finished(k) == old(Finished(Then(i, k)))
    {
      GenPCodeN([op], i, k);
    }

    method GenPCode2(op: byte, n: int, ghost i: Instr, ghost k: Code)
      requires Encode(c, i) == [op] + LE(n, 1) && Fit(i)
      modifies this`code
      ensures old(code) <= code
      ensures Finished(k) == old(Finished(Then(i, k)))
    {
      assert LE(n, 1) == [n % 256];
      GenPCodeN([op, n % 256], i, k);
    }

    method GenPCode3(op: byte, n: int, ghost i: Instr, ghost k: Code)
      requires Encode(c, i) == [op] + LE(n, 2) && Fit(i)
      modifies this`code
      ensures old(code) <= code
      ensures Finished(k) == old(Finished(Then(i, k)))
    {
      assert LE(n, 2) == [n % 256, n / 256 % 256];
      GenPCodeN([op, n % 256, n / 256 % 256], i, k);
    }

    // -------------------------------------------------------------- jumps

    /** A far jump with an operand still to be filled in; the result is the operand's position. */
    method GenJump(op: byte) returns (pos: nat)
      modifies this`code
      ensures code == old(code) + [op] + [0, 0, 0] && pos == |old(code)| + 1
    {
      code := code + [op] + [0, 0, 0];
      pos := |code| - 3;
    }

    method GenJumpHere(pos: nat)
      requires pos + 3 <= |code|
      modifies this`code, this`failed
      ensures |code| == |old(code)| && code[..pos] == old(code[..pos])
      ensures old(failed) ==> failed
      ensures failed || code == Patched(old(code), pos, |old(code)| - pos + 1)
      ensures failed == (old(failed) || !Int24(|old(code)| - pos + 1))
    {
      var offset := |code| - pos + 1;
      if Int24(offset) {
        code := Patched(code, pos, offset);
      } else {
        failed := true;
      }
    }

    // -------------------------------------------------------------- hb_compGen* of variables and constants

    method GenPushLong(n: int, ghost k: Code)
      modifies this`code
      ensures old(code) <= code
      ensures Finished(k) == old(Finished(Then(PushNum(n), k)))
    {
      if n == 0 {
        GenPCode1(ZERO, PushNum(n), k);
      } else if n == 1 {
        GenPCode1(ONE, PushNum(n), k);
      } else if -128 <= n <= 127 {
        GenPCode2(PUSHBYTE, n, PushNum(n), k);
      } else if Int16(n) {
        GenPCode3(PUSHINT, n, PushNum(n), k);
      } else if -0x8000_0000 <= n <= 0x7FFF_FFFF {
        GenPCodeN([PUSHLONG] + LE(n, 4), PushNum(n), k);
      } else {
        GenPCodeN([PUSHLONGLONG] + LE(n, 8), PushNum(n), k);
      }
    }

    method GenPushString(s: seq<byte>, ghost k: Code)
      modifies this`code, this`failed
      ensures old(code) <= code && (old(failed) ==> failed)
      ensures Finished(k) == old(Finished(Then(PushStr(s), k)))
    {
      var n := |s| + 1;
      if n > 0xFF_FFFF {
        failed := true;
      } else {
        var header := if n > 0xFFFF then [PUSHSTRLARGE] + LE(n, 3) else if n > 0xFF then [PUSHSTR] + LE(n, 2) else [PUSHSTRSHORT] + LE(n, 1);
        GenPCodeN(header + s + [0], PushStr(s), k);
      }
    }

    method GenPushVar(name: string, ghost k: Code)
      modifies this`code
      ensures old(code) <= code
      ensures Finished(k) == old(Finished(Then(PushVarInstr(c, name), k)))
    {
      match c.scope(name)
      case Local(i) => GenPCode3(PUSHLOCAL, i, PushLocal(i), k);
      case Detached(i) => GenPCode3(PUSHLOCAL, -(i as int), PushLocal(-(i as int)), k);
      case Static(i) => GenPCode3(PUSHSTATIC, i, PushStatic(i), k);
      case Memvar => GenPCode3(PUSHMEMVAR, c.symbolIndex(name), PushMemvar(name), k);
      case Field => GenPCode3(PUSHFIELD, c.symbolIndex(name), PushField(name), k);
      case Undeclared =>
        if c.forceMemvars {
          GenPCode3(PUSHMEMVAR, c.symbolIndex(name), PushMemvar(name), k);
        } else {
          GenPCode3(PUSHVARIABLE, c.symbolIndex(name), PushVariable(name), k);
        }
    }

    method GenPopVar(name: string, ghost k: Code)
      modifies this`code
      ensures old(code) <= code
      ensures Finished(k) == old(Finished(Then(PopVarInstr(c, name), k)))
    {
      match c.scope(name)
      case Local(i) => GenPCode3(POPLOCAL, i, PopLocal(i), k);
      case Detached(i) => GenPCode3(POPLOCAL, -(i as int), PopLocal(-(i as int)), k);
      case Static(i) => GenPCode3(POPSTATIC, i, PopStatic(i), k);
      case Memvar => GenPCode3(POPMEMVAR, c.symbolIndex(name), PopMemvar(name), k);
      case Field => GenPCode3(POPFIELD, c.symbolIndex(name), PopField(name), k);
      case Undeclared =>
        if c.forceMemvars || !c.harbour {
          GenPCode3(POPMEMVAR, c.symbolIndex(name), PopMemvar(name), k);
        } else {
          GenPCode3(POPVARIABLE, c.symbolIndex(name), PopVariable(name), k);
        }
    }

    /** Fields cannot be passed by reference. */
    method GenPushVarRef(name: string, ghost k: Code)
      modifies this`code, this`failed
      ensures old(code) <= code && (old(failed) ==> failed)
      ensures Finished(k) == old(Finished(PushVarRefCode(c, name, k)))
    {
      hide LE;
      match c.scope(name)
      case Local(i) => GenPCode3(PUSHLOCALREF, i, PushLocalRef(i), k);
      case Detached(i) => GenPCode3(PUSHLOCALREF, -(i as int), PushLocalRef(-(i as int)), k);
      case Static(i) => GenPCode3(PUSHSTATICREF, i, PushStaticRef(i), k);
      case Field => failed := true;
      case _ => GenPCode3(PUSHMEMVARREF, c.symbolIndex(name), PushMemvarRef(name), k);
    }

    method GenMessage(name: string, ghost k: Code)
      modifies this`code
      ensures old(code) <= code
      ensures Finished(k) == old(Finished(Then(Message(name), k)))
    {
      GenPCode3(MESSAGE, c.symbolIndex(name), Message(name), k);
    }

    method GenSend(n: nat, ghost k: Code)
      modifies this`code
      ensures old(code) <= code
      ensures Finished(k) == old(Finished(Then(Send(n), k)))
    {
      if n > 255 { GenPCode3(SEND, n, Send(n), k); } else { GenPCode2(SENDSHORT, n, Send(n), k); }
    }

    // -------------------------------------------------------------- HB_EXPR_USE

    /** Since the old state the code x has been appended in front of what k will add.  An error has been
        reported exactly if there was one before or something in this part of x does not fit. */
    twostate predicate Appended(x: Code, k: Code)
      reads this
    {
      && |old(code)| <= |code| && (old(failed) ==> failed) && (failed || old(code) <= code)
      && Finished(k) == old(Finished(x))
    }

    /** The same, and the nodes are as they were. */
    twostate predicate Emitted(x: Code, k: Code)
      reads this
    {
      nodes == old(nodes) && Appended(x, k)
    }

    /** HB_EXPR_USE( pExpr, HB_EA_PUSH_PCODE ) */
    method PushPCode(id: nat, ghost lo: nat, ghost e: Expr, ghost k: Code)
      requires Rep(nodes, lo, id, e) && WellFormed(c, e)
      modifies this
      ensures Emitted(PushCode(c, e, k), k)
      decreases Weight(e), 9
    {
      hide Rep, WellFormed, PushCode, Bytes, Sum, Fits, OpEqCode, StepCode, PostStepCode, Weight, Encode;
      AllKinds(nodes, lo, id, e);
      UpdateForms(c, e, k);
      match nodes[id].kind
      case KReference =>
        ReferenceParts(nodes, lo, id, e);
        ReferenceFormed(c, e);
        if e.operand.EAt? { AlreadyFlagged(nodes, lo, id, e); }
        UseRefPush(id, lo, e.operand, k);
      case KArray => UseArrayPush(id, lo, e, k);
      case KIif => UseIifPush(id, lo, e, k);
      case KList => UseListPush(id, lo, e, k);
      case KArrayAt => UseArrayAtPush(id, lo, e, k);
      case KFunCall => UseFunCallPush(id, lo, e, k);
      case KSend => UseSendPush(id, lo, e, k);
      case KAliasExpr => UseAliasExprPush(id, lo, e, k);
      case KAssign => UseAssignPush(id, lo, e, k);
      case KOpEq(_) => PushOperEq(id, lo, e, k);
      case KPreInc => PushPreOp(id, true, lo, e, k);
      case KPreDec => PushPreOp(id, false, lo, e, k);
      case KPostInc => PushPostOp(id, true, lo, e, k);
      case KPostDec => PushPostOp(id, false, lo, e, k);
      case KAnd => UseLogicPush(id, true, lo, e, k);
      case KOr => UseLogicPush(id, false, lo, e, k);
      case KNot => UseUnaryPush(id, NOT, Not, lo, e, k);
      case KNegate => UseUnaryPush(id, NEGATE, Neg, lo, e, k);
      case KBinary(_) => UseBinaryPush(id, lo, e, k);
      case KNil => UseLeafPush(id, lo, e, k);
      case KNumeric => UseLeafPush(id, lo, e, k);
      case KString => UseLeafPush(id, lo, e, k);
      case KLogical => UseLeafPush(id, lo, e, k);
      case KVariable => UseLeafPush(id, lo, e, k);
      case KVarRef => UseLeafPush(id, lo, e, k);
    }

    /** Constants, variables and references to variables. */
    method UseLeafPush(id: nat, ghost lo: nat, ghost e: Expr, ghost k: Code)
      requires Rep(nodes, lo, id, e) && (e.ENil? || e.ENum? || e.EStr? || e.ELog? || e.EVar? || e.EVarRef?)
      modifies this
      ensures Emitted(PushCode(c, e, k), k)
      decreases Weight(e), 5
    {
      hide Sum, Bytes, Fits;
      match nodes[id].kind
      case KNil => GenPCode1(PUSHNIL, PushNil, k);
      case KNumeric => GenPushLong(nodes[id].value.n, k);
      case KString => GenPushString(nodes[id].value.s, k);
      case KLogical => GenPCode1(if nodes[id].value.b then TRUE else FALSE, PushLog(nodes[id].value.b), k);
      case KVariable => GenPushVar(nodes[id].value.name, k);
      case KVarRef => GenPushVarRef(nodes[id].value.name, k);
    }

    /** HB_EXPR_USE( pExpr, HB_EA_POP_PCODE ) */
    method PopPCode(id: nat, ghost lo: nat, ghost l: Expr, ghost k: Code)
      requires Rep(nodes, lo, id, l) && Target(c, l) && WellFormed(c, l)
      modifies this
      ensures Emitted(PopCode(c, l, k), k)
      decreases Weight(l), 9
    {
      match nodes[id].kind
      case KVariable => GenPopVar(nodes[id].value.name, k);
      case KArrayAt => UseArrayAtPop(id, lo, l, k);
      case KSend => UseSendPop(id, lo, l.object_, None, k);
      case KIif => UseIifPop(id, lo, l, k);
    }

    /** HB_EXPR_USE( pExpr, HB_EA_PUSH_POP ) */
    method PushPop(id: nat, ghost lo: nat, ghost e: Expr, ghost k: Code)
      requires Rep(nodes, lo, id, e) && WellFormed(c, e)
      modifies this
      ensures Emitted(DropCode(c, e, k), k)
      decreases Weight(e), 12
    {
      hide Rep, WellFormed, PushCode, DropCode, Bytes, Sum, Fits, OpEqCode, StepCode, Weight, Encode;
      AllKinds(nodes, lo, id, e);
      UpdateForms(c, e, k);
      DropForms(c, e, k);
      match nodes[id].kind
      case KVariable => UseVariablePushPop(id, lo, e, k);
      case KArray => UseArrayPushPop(id, lo, e, k);
      case KIif => UseIifPushPop(id, lo, e, k);
      case KList => UseListPushPop(id, lo, e, k);
      case KArrayAt => UseArrayAtPushPop(id, lo, e, k);
      case KFunCall => UseFunCallPushPop(id, lo, e, k);
      case KSend => PushThenPop(id, lo, e, k);
      case KAliasExpr => UseAliasExprPushPop(id, lo, e, k);
      case KAssign => UseAssignPushPop(id, lo, e, k);
      case KOpEq(_) => UseOperEq(id, lo, e, k);
      case KPreInc => UsePreOp(id, true, lo, e, k);
      case KPreDec => UsePreOp(id, false, lo, e, k);
      case KPostInc => UsePreOp(id, true, lo, e, k);
      case KPostDec => UsePreOp(id, false, lo, e, k);
      case KAnd => UseLogicPushPop(id, true, lo, e, k);
      case KOr => UseLogicPushPop(id, false, lo, e, k);
      case KNot => UseUnaryPushPop(id, lo, e, k);
      case KNegate => UseUnaryPushPop(id, lo, e, k);
      case KBinary(_) => UseBinaryPushPop(id, lo, e, k);
      case _ =>
    }

    method UseVariablePushPop(id: nat, ghost lo: nat, ghost e: Expr, ghost k: Code)
      requires Rep(nodes, lo, id, e) && e.EVar?
      modifies this
      ensures Emitted(DropCode(c, e, k), k)
      decreases Weight(e), 11
    {
      hide Sum, Bytes, Fits;
      GenPushVar(nodes[id].value.name, Then(Pop, k));
      GenPCode1(POP, Pop, k);
    }

    method UseArrayPushPop(id: nat, ghost lo: nat, ghost e: Expr, ghost k: Code)
      requires Rep(nodes, lo, id, e) && WellFormed(c, e) && e.EArray?
      modifies this
      ensures Emitted(DropCode(c, e, k), k)
      decreases Weight(e), 11
    {
      PushPopChain(nodes[id].value.exprList, lo, id, e.items, k);
    }

    /** The value is generated and popped. */
    method PushThenPop(id: nat, ghost lo: nat, ghost e: Expr, ghost k: Code)
      requires Rep(nodes, lo, id, e) && WellFormed(c, e)
      modifies this
      ensures Emitted(PushCode(c, e, Then(Pop, k)), k)
      decreases Weight(e), 10
    {
      PushPCode(id, lo, e, Then(Pop, k));
      GenPCode1(POP, Pop, k);
    }

    // -------------------------------------------------------------- operators

    method UseUnaryPush(id: nat, op: byte, ghost i: Instr, ghost lo: nat, ghost e: Expr, ghost k: Code)
      requires Rep(nodes, lo, id, e) && WellFormed(c, e)
      requires (e.ENot? && op == NOT && i == Not) || (e.ENeg? && op == NEGATE && i == Neg)
      modifies this
      ensures Emitted(PushCode(c, e, k), k)
      decreases Weight(e), 5
    {
      hide Rep, PushCode, Bytes, Sum, WellFormed, Weight, Encode, Fits;
      PushInverted(c, e, k);
      InvertCodes(c);
      OperandFormed(c, e);
      OperandPart(nodes, lo, id, e);
      PushPCode(nodes[id].value.left.value, lo, e.arg, Then(i, k));
      GenPCode1(op, i, k);
    }

    method UseUnaryPushPop(id: nat, ghost lo: nat, ghost e: Expr, ghost k: Code)
      requires Rep(nodes, lo, id, e) && WellFormed(c, e) && (e.ENot? || e.ENeg?)
      modifies this
      ensures Emitted(DropCode(c, e, k), k)
      decreases Weight(e), 11
    {
      OperandPart(nodes, lo, id, e);
      if c.harbour {
        PushPop(nodes[id].value.left.value, lo, e.arg, k);
      } else {
        PushThenPop(id, lo, e, k);
      }
    }

    method UseBinaryPush(id: nat, ghost lo: nat, ghost e: Expr, ghost k: Code)
      requires Rep(nodes, lo, id, e) && WellFormed(c, e) && e.EBin?
      modifies this
      ensures Emitted(PushCode(c, e, k), k)
      decreases Weight(e), 6
    {
      hide Rep, PushCode, PopCode, DropCode, Bytes, Sum, Encode, WellFormed, Weight, UnitStep;
      OperandsFormed(c, e);
      OperatorCode(c, e.op);
      PushBinary(c, e, k);
      OperandParts(nodes, lo, id, e);
      var left, right, op := nodes[id].value.left.value, nodes[id].value.right.value, nodes[id].kind.operator;
      var done := PushUnitStep(left, right, op, lo, e, k);
      if !done {
        PushPCode(left, lo, e.left, PushCode(c, e.right, Then(Bin(op), k)));
        PushPCode(right, left + 1, e.right, Then(Bin(op), k));
        GenPCode1(BinByte(op), Bin(op), k);
      }
    }

    /** HB_SUPPORT_EXTOPT: an operand and INC or DEC instead of adding or subtracting 1 or -1. */
    method PushUnitStep(left: nat, right: nat, op: BinOp, ghost lo: nat, ghost e: Expr, ghost k: Code) returns (done: bool)
      requires e.EBin? && e.op == op && WellFormed(c, e)
      requires left < right && Rep(nodes, lo, left, e.left) && Rep(nodes, left + 1, right, e.right)
      modifies this
      ensures done == UnitStep(c, e).Some?
      ensures done ==> Emitted(PushCode(c, UnitStep(c, e).value.0, Then(StepInstr(UnitStep(c, e).value.1), k)), k)
      ensures !done ==> nodes == old(nodes) && code == old(code) && failed == old(failed)
      decreases Weight(e), 5
    {
      hide Rep, PushCode, Bytes, Sum, WellFormed, Weight, StepInstr;
      OperandsFormed(c, e);
      KindParts(nodes, lo, left, e.left);
      KindParts(nodes, left + 1, right, e.right);
      done := false;
      if c.extopt && op == Plus {
        if nodes[left].kind == KNumeric {
          if nodes[left].value.n == 1 || nodes[left].value.n == -1 {
            done := true;
            PushStep(right, left + 1, e.right, nodes[left].value.n == 1, k);
          }
        } else if nodes[right].kind == KNumeric {
          if nodes[right].value.n == 1 || nodes[right].value.n == -1 {
            done := true;
            PushStep(left, lo, e.left, nodes[right].value.n == 1, k);
          }
        }
      } else if c.extopt && op == Minus && nodes[right].kind == KNumeric {
        if nodes[right].value.n == 1 || nodes[right].value.n == -1 {
          done := true;
          PushStep(left, lo, e.left, nodes[right].value.n == -1, k);
        }
      }
    }

    /** An operand and INC or DEC. */
    method PushStep(id: nat, ghost lo: nat, ghost e: Expr, up: bool, ghost k: Code)
      requires Rep(nodes, lo, id, e) && WellFormed(c, e)
      modifies this
      ensures Emitted(PushCode(c, e, Then(StepInstr(up), k)), k)
      decreases Weight(e), 10
    {
      hide Rep, PushCode, Bytes, Sum, Fits, Encode, WellFormed, Weight;
      StepCodes(c, up);
      PushPCode(id, lo, e, Then(StepInstr(up), k));
      GenPCode1(if up then INC else DEC, StepInstr(up), k);
    }

    method UseBinaryPushPop(id: nat, ghost lo: nat, ghost e: Expr, ghost k: Code)
      requires Rep(nodes, lo, id, e) && WellFormed(c, e) && e.EBin?
      modifies this
      ensures Emitted(DropCode(c, e, k), k)
      decreases Weight(e), 11
    {
      hide Rep, PushCode, Bytes, Sum, Encode, WellFormed, Weight;
      OperandsFormed(c, e);
      OperandParts(nodes, lo, id, e);
      if c.harbour {
        PushPop(nodes[id].value.left.value, lo, e.left, DropCode(c, e.right, k));
        PushPop(nodes[id].value.right.value, nodes[id].value.left.value + 1, e.right, k);
      } else {
        PushThenPop(id, lo, e, k);
      }
    }

    // -------------------------------------------------------------- arrays, lists and calls

    /** The first part of hb_compExprParamListCheck: the number of items. */
    method ParamListCheck(first: Ptr, ghost lo: nat, ghost hi: nat, ghost es: Exprs) returns (n: nat)
      requires RepChain(nodes, lo, hi, first, es)
      ensures n == Count(es)
    {
      n := 0;
      var p := first;
      ghost var rest, l := es, lo;
      while p.Some?
        invariant RepChain(nodes, l, hi, p, rest)
        invariant n + Count(rest) == Count(es)
        decreases WeightAll(rest)
      {
        n := n + 1;
        l, rest, p := p.value + 1, rest.tail, nodes[p.value].next;
      }
    }

    /** HB_EA_PUSH_PCODE of HB_ET_ARGLIST: all items stay on the stack. */
    method UseArgListPush(id: nat, ghost lo: nat, ghost hi: nat, ghost es: Exprs, ghost k: Code)
      requires RepArgs(nodes, lo, hi, id, es) && WellFormedAll(c, es)
      modifies this
      ensures Emitted(PushAllCode(c, es, k), k)
      decreases WeightAll(es) + 1, 3
    {
      var p := nodes[id].value.exprList;
      ghost var rest, l := es, lo;
      while p.Some?
        invariant nodes == old(nodes) && |old(code)| <= |code| && (old(failed) ==> failed)
        invariant RepChain(nodes, l, id, p, rest) && WellFormedAll(c, rest) && WeightAll(rest) <= WeightAll(es)
        invariant failed || old(code) <= code
        invariant Finished(PushAllCode(c, rest, k)) == old(Finished(PushAllCode(c, es, k)))
        decreases WeightAll(rest)
      {
        PushPCode(p.value, l, rest.head, PushAllCode(c, rest.tail, k));
        l, rest, p := p.value + 1, rest.tail, nodes[p.value].next;
      }
    }

    method PushPopChain(first: Ptr, ghost lo: nat, ghost hi: nat, ghost es: Exprs, ghost k: Code)
      requires RepChain(nodes, lo, hi, first, es) && WellFormedAll(c, es)
      modifies this
      ensures Emitted(DropAllCode(c, es, k), k)
      decreases WeightAll(es) + 1, 3
    {
      var p := first;
      ghost var rest, l := es, lo;
      while p.Some?
        invariant nodes == old(nodes) && |old(code)| <= |code| && (old(failed) ==> failed)
        invariant RepChain(nodes, l, hi, p, rest) && WellFormedAll(c, rest) && WeightAll(rest) <= WeightAll(es)
        invariant failed || old(code) <= code
        invariant Finished(DropAllCode(c, rest, k)) == old(Finished(DropAllCode(c, es, k)))
        decreases WeightAll(rest)
      {
        PushPop(p.value, l, rest.head, DropAllCode(c, rest.tail, k));
        l, rest, p := p.value + 1, rest.tail, nodes[p.value].next;
      }
    }

    /** The array node poses as an argument list while its items are pushed. */
    method UseArrayPush(id: nat, ghost lo: nat, ghost e: Expr, ghost k: Code)
      requires Rep(nodes, lo, id, e) && WellFormed(c, e) && e.EArray?
      modifies this
      ensures Emitted(PushCode(c, e, k), k)
      decreases Weight(e), 5
    {
      var n := ParamListCheck(nodes[id].value.exprList, lo, id, e.items);
      if n == 0 {
        assert e.items == ENone;
        GenPCode3(ARRAYGEN, 0, ArrayGen(0), k);
      } else {
        ghost var before := nodes;
        nodes := nodes[id := nodes[id].(kind := KArgList)];
        ChainFrame(before, nodes, lo, id, before[id].value.exprList, e.items);
        UseArgListPush(id, lo, id + 1, e.items, Then(ArrayGen(n), k));
        nodes := nodes[id := nodes[id].(kind := KArray)];
        assert nodes == before;
        GenPCode3(ARRAYGEN, n, ArrayGen(n), k);
      }
    }

    method UseFunCallPush(id: nat, ghost lo: nat, ghost e: Expr, ghost k: Code)
      requires Rep(nodes, lo, id, e) && WellFormed(c, e) && e.ECall?
      modifies this
      ensures Emitted(PushCode(c, e, k), k)
      decreases Weight(e), 5
    {
      var n := UseFunCallArgs(id, lo, e, Then(Function(Count(e.args)), k));
      if n > 255 {
        GenPCode3(FUNCTION, n, Function(n), k);
      } else {
        GenPCode2(FUNCTIONSHORT, n, Function(n), k);
      }
    }

    method UseFunCallPushPop(id: nat, ghost lo: nat, ghost e: Expr, ghost k: Code)
      requires Rep(nodes, lo, id, e) && WellFormed(c, e) && e.ECall?
      modifies this
      ensures Emitted(DropCode(c, e, k), k)
      decreases Weight(e), 5
    {
      var n := UseFunCallArgs(id, lo, e, Then(Do(Count(e.args)), k));
      if n > 255 {
        GenPCode3(DO, n, Do(n), k);
      } else {
        GenPCode2(DOSHORT, n, Do(n), k);
      }
    }

    /** The function symbol and its arguments. */
    method UseFunCallArgs(id: nat, ghost lo: nat, ghost e: Expr, ghost k: Code) returns (n: nat)
      requires Rep(nodes, lo, id, e) && WellFormed(c, e) && e.ECall?
      modifies this
      ensures n == Count(e.args)
      ensures Emitted(Then(PushFunSym(e.function_), PushAllCode(c, e.args, k)), k)
      decreases Weight(e), 4
    {
      hide PushCode, Bytes, Sum, Fits;
      var parms := nodes[id].value.parms;
      n := 0;
      if parms.Some? {
        n := ParamListCheck(nodes[parms.value].value.exprList, lo, parms.value, e.args);
      }
      GenPCode3(PUSHFUNCSYM, c.symbolIndex(nodes[id].value.funName), PushFunSym(e.function_), PushAllCode(c, e.args, k));
      if n > 0 {
        UseArgListPush(parms.value, lo, id, e.args, k);
      } else {
        assert e.args == ENone;
      }
    }

    /** The last item is pushed, the others are dropped. */
    method UseListPush(id: nat, ghost lo: nat, ghost e: Expr, ghost k: Code)
      requires Rep(nodes, lo, id, e) && WellFormed(c, e) && e.EList?
      modifies this
      ensures Emitted(PushCode(c, e, k), k)
      decreases Weight(e), 5
    {
      hide Rep, PushCode, PopCode, DropCode, Bytes, Sum;
      PushListed(c, e, k);
      ListNodeParts(nodes, lo, id, e);
      var p := nodes[id].value.exprList;
      ghost var rest, l, done := e.init, lo, false;
      while p.Some?
        invariant nodes == old(nodes) && |old(code)| <= |code| && (old(failed) ==> failed)
        invariant done <==> p.None?
        invariant !done ==> RepList(nodes, l, id, p, rest, e.last) && WellFormedAll(c, rest) && WeightAll(rest) <= WeightAll(e.init)
        invariant failed || old(code) <= code
        invariant Finished(if done then k else DropAllCode(c, rest, PushCode(c, e.last, k))) == old(Finished(PushCode(c, e, k)))
        decreases !done, WeightAll(rest)
      {
        ListParts(nodes, l, id, p, rest, e.last);
        if rest.EMore? { ListParts(nodes, p.value + 1, id, nodes[p.value].next, rest.tail, e.last); }
        if nodes[p.value].next.Some? {
          PushPop(p.value, l, rest.head, DropAllCode(c, rest.tail, PushCode(c, e.last, k)));
          l, rest, p := p.value + 1, rest.tail, nodes[p.value].next;
        } else {
          PushPCode(p.value, l, e.last, k);
          p, done := nodes[p.value].next, true;
        }
      }
    }

    method UseListPushPop(id: nat, ghost lo: nat, ghost e: Expr, ghost k: Code)
      requires Rep(nodes, lo, id, e) && WellFormed(c, e) && e.EList?
      modifies this
      ensures Emitted(DropCode(c, e, k), k)
      decreases Weight(e), 5
    {
      hide Rep, PushCode, PopCode, DropCode, Bytes, Sum;
      PushListed(c, e, k);
      ListNodeParts(nodes, lo, id, e);
      var p := nodes[id].value.exprList;
      ghost var rest, l, done := e.init, lo, false;
      while p.Some?
        invariant nodes == old(nodes) && |old(code)| <= |code| && (old(failed) ==> failed)
        invariant done <==> p.None?
        invariant !done ==> RepList(nodes, l, id, p, rest, e.last) && WellFormedAll(c, rest) && WeightAll(rest) <= WeightAll(e.init)
        invariant failed || old(code) <= code
        invariant Finished(if done then k else DropAllCode(c, rest, DropCode(c, e.last, k))) == old(Finished(DropCode(c, e, k)))
        decreases !done, WeightAll(rest)
      {
        ListParts(nodes, l, id, p, rest, e.last);
        if rest.EMore? { ListParts(nodes, p.value + 1, id, nodes[p.value].next, rest.tail, e.last); }
        ghost var last := nodes[p.value].next.None?;
        PushPop(p.value, l, if last then e.last else rest.head, if last then k else DropAllCode(c, rest.tail, DropCode(c, e.last, k)));
        if last { done := true; } else { l, rest := p.value + 1, rest.tail; }
        p := nodes[p.value].next;
      }
    }

    method UseArrayAtPush(id: nat, ghost lo: nat, ghost e: Expr, ghost k: Code)
      requires Rep(nodes, lo, id, e) && WellFormed(c, e) && e.EAt?
      modifies this
      ensures Emitted(PushCode(c, e, k), k)
      decreases Weight(e), 5
    {
      hide Rep, PushCode, PopCode, DropCode, Bytes, Sum;
      PushElement(c, e, k);
      ElementParts(nodes, lo, id, e);
      ghost var at := if e.byRef then ArrayPushRef else ArrayPush;
      PushPCode(nodes[id].value.exprList.value, lo, e.base, PushCode(c, e.index, Then(at, k)));
      PushPCode(nodes[id].value.index.value, nodes[id].value.exprList.value + 1, e.index, Then(at, k));
      if nodes[id].value.reference {
        GenPCode1(ARRAYPUSHREF, at, k);
      } else {
        GenPCode1(ARRAYPUSH, at, k);
      }
    }

    method UseArrayAtPop(id: nat, ghost lo: nat, ghost l: Expr, ghost k: Code)
      requires Rep(nodes, lo, id, l) && WellFormed(c, l) && l.EAt?
      modifies this
      ensures Emitted(PopCode(c, l, k), k)
      decreases Weight(l), 5
    {
      hide Rep, PushCode, PopCode, DropCode, Bytes, Sum;
      PushElement(c, l, k);
      ElementParts(nodes, lo, id, l);
      PushPCode(nodes[id].value.exprList.value, lo, l.base, PushCode(c, l.index, Then(ArrayPop, k)));
      PushPCode(nodes[id].value.index.value, nodes[id].value.exprList.value + 1, l.index, Then(ArrayPop, k));
      GenPCode1(ARRAYPOP, ArrayPop, k);
    }

    method UseArrayAtPushPop(id: nat, ghost lo: nat, ghost e: Expr, ghost k: Code)
      requires Rep(nodes, lo, id, e) && WellFormed(c, e) && e.EAt?
      modifies this
      ensures Emitted(DropCode(c, e, k), k)
      decreases Weight(e), 5
    {
      hide Rep, PushCode, PopCode, DropCode, Bytes, Sum;
      PushElement(c, e, k);
      ElementParts(nodes, lo, id, e);
      PushPop(nodes[id].value.exprList.value, lo, e.base, DropCode(c, e.index, k));
      PushPop(nodes[id].value.index.value, nodes[id].value.exprList.value + 1, e.index, k);
    }

    method UseAliasExprPush(id: nat, ghost lo: nat, ghost e: Expr, ghost k: Code)
      requires Rep(nodes, lo, id, e) && WellFormed(c, e) && e.EAlias?
      modifies this
      ensures Emitted(PushCode(c, e, k), k)
      decreases Weight(e), 5
    {
      hide Rep, PushCode, PopCode, DropCode, Bytes, Sum, Encode;
      AliasCodes(c);
      PushAliased(c, e, k);
      AliasParts(nodes, lo, id, e);
      ghost var kb := PushCode(c, e.body, Then(SwapAlias, k));
      GenPCode1(PUSHALIAS, PushAlias, PushCode(c, e.alias, Then(PopAlias, kb)));
      PushPCode(nodes[id].value.alias.value, lo, e.alias, Then(PopAlias, kb));
      GenPCode1(POPALIAS, PopAlias, kb);
      PushPCode(nodes[id].value.expList.value, nodes[id].value.alias.value + 1, e.body, Then(SwapAlias, k));
      GenPCode1(SWAPALIAS, SwapAlias, k);
    }

    method UseAliasExprPushPop(id: nat, ghost lo: nat, ghost e: Expr, ghost k: Code)
      requires Rep(nodes, lo, id, e) && WellFormed(c, e) && e.EAlias?
      modifies this
      ensures Emitted(DropCode(c, e, k), k)
      decreases Weight(e), 5
    {
      hide Rep, PushCode, PopCode, DropCode, Bytes, Sum, Encode;
      AliasCodes(c);
      PushAliased(c, e, k);
      AliasParts(nodes, lo, id, e);
      ghost var kb := DropCode(c, e.body, Then(PopAlias, k));
      GenPCode1(PUSHALIAS, PushAlias, PushCode(c, e.alias, Then(PopAlias, kb)));
      PushPCode(nodes[id].value.alias.value, lo, e.alias, Then(PopAlias, kb));
      GenPCode1(POPALIAS, PopAlias, kb);
      PushPop(nodes[id].value.expList.value, nodes[id].value.alias.value + 1, e.body, Then(PopAlias, k));
      GenPCode1(POPALIAS, PopAlias, k);
    }

    // -------------------------------------------------------------- references

    /** HB_EA_PUSH_PCODE of HB_ET_REFERENCE.  The reference flag of an element stays set.  Anything else
        than an element, a message, a variable or another reference is an error. */
    method UseRefPush(id: nat, ghost lo: nat, ghost x: Expr, ghost k: Code)
      requires id < |nodes| && nodes[id].kind == KReference && nodes[id].value.AsReference?
      requires RepPtr(nodes, lo, id, nodes[id].value.operand, x) && WellFormed(c, x)
      modifies this
      ensures Appended(PushCode(c, ERef(x), k), k)
      ensures nodes == if x.EAt? then Flagged(old(nodes), old(nodes[id].value.operand)) else old(nodes)
      decreases Weight(x), 12
    {
      hide Rep, PushCode, Bytes, Sum, Encode, WellFormed, Weight;
      PtrParts(nodes, lo, id, nodes[id].value.operand, x);
      var p := nodes[id].value.operand.value;
      KindParts(nodes, lo, p, x);
      PushReferred(c, x, k);
      match nodes[p].kind
      case KArrayAt =>
        FlaggedRep(nodes, lo, p, x);
        nodes := nodes[p := nodes[p].(value := nodes[p].value.(reference := true))];
        PushPCode(p, lo, EAt(x.base, x.index, true), k);
      case KSend =>
        MessageParts(nodes, lo, p, x);
        SendFormed(c, x);
        RefCode(c);
        PushSendPop(p, lo, x.object_, Then(PushOVarRef, k));
        GenPCode1(PUSHOVARREF, PushOVarRef, k);
      case KVariable =>
        ghost var before := nodes;
        nodes := nodes[p := nodes[p].(kind := KVarRef)];
        GenPushVarRef(nodes[p].value.name, k);
        nodes := nodes[p := nodes[p].(kind := KVariable)];
        assert nodes == before;
      case KVarRef => PushPCode(p, lo, x, k);
      case KReference => PushPCode(p, lo, x, k);
      case _ =>
        RefusedSum(c, failed, code, k);
        failed := true;
    }

    // -------------------------------------------------------------- messages

    method UseSendPush(id: nat, ghost lo: nat, ghost e: Expr, ghost k: Code)
      requires Rep(nodes, lo, id, e) && WellFormed(c, e) && e.ESend?
      modifies this
      ensures Emitted(PushCode(c, e, k), k)
      decreases Weight(e), 5
    {
      hide Rep, PushCode, PushAllCode, Bytes, Sum, Fits, Encode, Weight, WellFormed, RepArgs, RepChain;
      PushSent(c, e, k);
      SendFormed(c, e);
      MessageParts(nodes, lo, id, e);
      var args := nodes[id].value.args;
      if args.Some? {
        ghost var lo1 := nodes[id].value.object_.value + 1;
        var n := ParamListCheck(nodes[args.value].value.exprList, lo1, args.value, e.parms);
        PushSendPush(id, lo, e.object_, PushAllCode(c, e.parms, Then(Send(n), k)));
        if n > 0 {
          UseArgListPush(args.value, lo1, id, e.parms, Then(Send(n), k));
        } else {
          assert e.parms == ENone;
        }
        GenSend(n, k);
      } else {
        PushSendPush(id, lo, e.object_, Then(Send(0), k));
        GenSend(0, k);
      }
    }

    /** hb_compExprPushSendPush: the message and the object. */
    method PushSendPush(id: nat, ghost lo: nat, ghost o: Expr, ghost k: Code)
      requires id < |nodes| && nodes[id].value.AsMessage? && RepPtr(nodes, lo, id, nodes[id].value.object_, o) && WellFormed(c, o)
      modifies this
      ensures Emitted(Then(Message(old(nodes[id].value.message)), PushCode(c, o, k)), k)
      decreases Weight(o), 10
    {
      PtrParts(nodes, lo, id, nodes[id].value.object_, o);
      GenMessage(nodes[id].value.message, PushCode(c, o, k));
      PushPCode(nodes[id].value.object_.value, lo, o, k);
    }

    /** hb_compExprPushSendPop: the assign message and the object. */
    method PushSendPop(id: nat, ghost lo: nat, ghost o: Expr, ghost k: Code)
      requires id < |nodes| && nodes[id].value.AsMessage? && RepPtr(nodes, lo, id, nodes[id].value.object_, o) && WellFormed(c, o)
      modifies this
      ensures Emitted(Then(Message("_" + old(nodes[id].value.message)), PushCode(c, o, k)), k)
      decreases Weight(o), 10
    {
      PtrParts(nodes, lo, id, nodes[id].value.object_, o);
      GenMessage("_" + nodes[id].value.message, PushCode(c, o, k));
      PushPCode(nodes[id].value.object_.value, lo, o, k);
    }

    /** The code of the assign message: its argument is generated if there is one, otherwise the
        value that waits on the stack is rotated on top and the result is popped. */
    ghost function SendPopCodeOf(message: string, o: Expr, value: Option<(nat, Expr)>, k: Code): Code {
      Then(Message("_" + message), PushCode(c, o,
        match value
        case None => Then(Swap(1), Then(Swap(1), Then(Send(1), Then(Pop, k))))
        case Some((_, r)) => PushCode(c, r, Then(Send(1), k))))
    }

    ghost function ValueWeight(value: Option<(nat, Expr)>): nat {
      match value
      case None => 0
      case Some((_, r)) => Weight(r)
    }

    /** HB_EA_POP_PCODE of HB_ET_SEND; pParms is an expression or NULL. */
    method UseSendPop(id: nat, ghost lo: nat, ghost o: Expr, ghost value: Option<(nat, Expr)>, ghost k: Code)
      requires id < |nodes| && nodes[id].value.AsMessage? && RepPtr(nodes, lo, id, nodes[id].value.object_, o) && WellFormed(c, o)
      requires nodes[id].value.args.Some? == value.Some?
      requires value.Some? ==> Rep(nodes, value.value.0, nodes[id].value.args.value, value.value.1) && WellFormed(c, value.value.1)
      modifies this
      ensures Emitted(SendPopCodeOf(old(nodes[id].value.message), o, value, k), k)
      decreases Weight(o) + ValueWeight(value) + 1, 4
    {
      hide Rep, PushCode, Bytes, Sum, Encode, WellFormed, LE, Weight;
      StackCodes(c);
      SwapCodes(c, 1);
      PtrParts(nodes, lo, id, nodes[id].value.object_, o);
      var args := nodes[id].value.args;
      if args.Some? {
        PushSendPop(id, lo, o, PushCode(c, value.value.1, Then(Send(1), k)));
        PushPCode(args.value, value.value.0, value.value.1, Then(Send(1), k));
        GenSend(1, k);
      } else {
        ghost var k1 := Then(Send(1), Then(Pop, k));
        PushSendPop(id, lo, o, Then(Swap(1), Then(Swap(1), k1)));
        GenPCode2(SWAP, 1, Swap(1), Then(Swap(1), k1));
        GenPCode2(SWAP, 1, Swap(1), k1);
        GenSend(1, Then(Pop, k));
        GenPCode1(POP, Pop, k);
      }
    }

    method UseAssignPush(id: nat, ghost lo: nat, ghost e: Expr, ghost k: Code)
      requires Rep(nodes, lo, id, e) && WellFormed(c, e) && e.EAssign?
      modifies this
      ensures Emitted(PushCode(c, e, k), k)
      decreases Weight(e), 5
    {
      hide Rep, PushCode, PopCode, DropCode, Bytes, Sum, Encode, WellFormed, Weight, Target;
      StackCodes(c);
      OperandsFormed(c, e);
      TargetKinds(c, e.target);
      PushAssigned(c, e, k);
      OperandParts(nodes, lo, id, e);
      var left, right := nodes[id].value.left.value, nodes[id].value.right.value;
      KindParts(nodes, lo, left, e.target);
      if nodes[left].kind == KSend {
        AssignMessage(left, right, lo, e.target, e.source, k);
      } else {
        PushPCode(right, left + 1, e.source, Then(PushUnref, PopCode(c, e.target, k)));
        GenPCode1(PUSHUNREF, PushUnref, PopCode(c, e.target, k));
        PopPCode(left, lo, e.target, k);
      }
    }

    /** A message target borrows the assigned expression as its argument. */
    method AssignMessage(left: nat, right: nat, ghost lo: nat, ghost l: Expr, ghost r: Expr, ghost k: Code)
      requires left < right && Rep(nodes, lo, left, l) && Rep(nodes, left + 1, right, r)
      requires WellFormed(c, l) && WellFormed(c, r) && l.ESend?
      modifies this
      ensures Emitted(Then(Message("_" + l.message), PushCode(c, l.object_, PushCode(c, r, Then(Send(1), k)))), k)
      decreases Weight(l) + Weight(r), 10
    {
      hide Rep, PushCode, Bytes, Sum, WellFormed, Weight;
      ghost var before := nodes;
      MessageParts(nodes, lo, left, l);
      SendFormed(c, l);
      var parms := nodes[left].value.args;
      nodes := nodes[left := nodes[left].(value := nodes[left].value.(args := Some(right)))];
      PtrFrame(before, nodes, lo, left, before[left].value.object_, l.object_);
      RepFrame(before, nodes, left + 1, right, r);
      UseSendPop(left, lo, l.object_, Some((left + 1, r)), k);
      nodes := nodes[left := nodes[left].(value := nodes[left].value.(args := parms))];
      assert nodes == before;
    }

    method UseAssignPushPop(id: nat, ghost lo: nat, ghost e: Expr, ghost k: Code)
      requires Rep(nodes, lo, id, e) && WellFormed(c, e) && e.EAssign?
      modifies this
      ensures Emitted(DropCode(c, e, k), k)
      decreases Weight(e), 11
    {
      hide Rep, PushCode, PopCode, DropCode, Bytes, Sum;
      PushAssigned(c, e, k);
      OperandParts(nodes, lo, id, e);
      var left, right := nodes[id].value.left.value, nodes[id].value.right.value;
      KindParts(nodes, lo, left, e.target);
      if nodes[left].kind == KSend {
        PushThenPop(id, lo, e, k);
      } else {
        PushPCode(right, left + 1, e.source, PopCode(c, e.target, k));
        PopPCode(left, lo, e.target, k);
      }
    }

    /** The operand of a compound assignment to a message, if there is one. */
    ghost function OperandCode(value: Option<(nat, Expr)>, k: Code): Code {
      match value
      case None => k
      case Some((_, r)) => PushCode(c, r, k)
    }

    ghost function SendPopPushCode(l: Expr, value: Option<(nat, Expr)>, post: bool, i: Instr, k: Code): Code
      requires l.ESend?
    {
      var rest := OperandCode(value, Then(i, Then(Send(1), if post then Then(Pop, k) else k)));
      if c.harbour then AccessCode(c, l, if post then Then(Duplicate, Then(Swap(2), rest)) else rest)
      else if post then PushCode(c, l, AccessCode(c, l, rest))
      else AccessCode(c, l, rest)
    }

    /** hb_compExprPushSendPopPush.  Its flag fPreOp asks for the old value as the result. */
    method PushSendPopPush(obj: nat, operand: Ptr, post: bool, op: byte, ghost i: Instr, ghost lo: nat, ghost l: Expr,
        ghost value: Option<(nat, Expr)>, ghost k: Code)
      requires Rep(nodes, lo, obj, l) && WellFormed(c, l) && Target(c, l) && l.ESend?
      requires operand.Some? == value.Some? && Encode(c, i) == [op] && Fit(i)
      requires value.Some? ==> Rep(nodes, value.value.0, operand.value, value.value.1) && WellFormed(c, value.value.1)
      modifies this
      ensures Emitted(SendPopPushCode(l, value, post, i, k), k)
      decreases Weight(l) + ValueWeight(value), 12
    {
      hide Rep, PushCode, AccessCode, Bytes, Sum, Encode, WellFormed, Target, Weight;
      StackCodes(c);
      ghost var k3 := if post then Then(Pop, k) else k;
      ghost var k2 := Then(i, Then(Send(1), k3));
      ghost var rest := OperandCode(value, k2);
      PushAccess(obj, post, lo, l, rest);
      if operand.Some? { PushPCode(operand.value, value.value.0, value.value.1, k2); }
      GenPCode1(op, i, Then(Send(1), k3));
      GenSend(1, k3);
      if post { GenPCode1(POP, Pop, k); }
    }

    /** The part of hb_compExprPushSendPopPush up to the accessed value. */
    method PushAccess(obj: nat, post: bool, ghost lo: nat, ghost l: Expr, ghost rest: Code)
      requires Rep(nodes, lo, obj, l) && WellFormed(c, l) && Target(c, l) && l.ESend?
      modifies this
      ensures Emitted(if c.harbour then AccessCode(c, l, if post then Then(Duplicate, Then(Swap(2), rest)) else rest)
        else if post then PushCode(c, l, AccessCode(c, l, rest)) else AccessCode(c, l, rest), rest)
      decreases Weight(l), 11
    {
      hide Rep, PushCode, Bytes, Sum, Encode, WellFormed, Weight, LE;
      StackCodes(c);
      SwapCodes(c, 0);
      SwapCodes(c, 2);
      SendFormed(c, l);
      MessageParts(nodes, lo, obj, l);
      var m := nodes[obj].value.message;
      if c.harbour {
        ghost var k1 := if post then Then(Duplicate, Then(Swap(2), rest)) else rest;
        ghost var k2 := Then(Swap(0), Then(Send(0), k1));
        PushSendPop(obj, lo, l.object_, Then(Duplicate, Then(Message(m), k2)));
        GenPCode1(DUPLICATE, Duplicate, Then(Message(m), k2));
        GenMessage(m, k2);
        GenPCode2(SWAP, 0, Swap(0), Then(Send(0), k1));
        GenSend(0, k1);
        if post {
          GenPCode1(DUPLICATE, Duplicate, Then(Swap(2), rest));
          GenPCode2(SWAP, 2, Swap(2), rest);
        }
      } else {
        if post { PushPCode(obj, lo, l, AccessCode(c, l, rest)); }
        PushSendPop(obj, lo, l.object_, Then(Message(m), PushCode(c, l.object_, Then(Send(0), rest))));
        PushSendPush(obj, lo, l.object_, Then(Send(0), rest));
        GenSend(0, rest);
      }
    }

    // -------------------------------------------------------------- compound assignments and steps

    /** A reference to a target: an array element node has its reference flag set, a variable node
        poses as HB_ET_VARREF, a message is asked for a reference. */
    method PushTargetRef(id: nat, ghost lo: nat, ghost l: Expr, ghost k: Code)
      requires Rep(nodes, lo, id, l) && WellFormed(c, l) && Target(c, l) && !l.EIif?
      requires l.EVar? ==> !c.scope(l.name).Field?
      modifies this
      ensures Emitted(LocateCode(c, l, k), k)
      decreases Weight(l), 11
    {
      hide Rep, PushCode, Bytes, Sum, Encode, WellFormed, LE;
      KindParts(nodes, lo, id, l);
      TargetKinds(c, l);
      if nodes[id].kind == KSend {
        MessageParts(nodes, lo, id, l);
        SendFormed(c, l);
        RefCode(c);
        PushSendPop(id, lo, l.object_, Then(PushOVarRef, k));
        GenPCode1(PUSHOVARREF, PushOVarRef, k);
      } else if nodes[id].kind == KArrayAt {
        PushElementRef(id, lo, l, k);
      } else {
        PushVariableRef(id, lo, l, k);
      }
    }

    method PushElementRef(id: nat, ghost lo: nat, ghost l: Expr, ghost k: Code)
      requires Rep(nodes, lo, id, l) && WellFormed(c, l) && l.EAt? && !l.byRef
      modifies this
      ensures Emitted(LocateCode(c, l, k), k)
      decreases Weight(l), 10
    {
      hide PushCode, Bytes, Sum, Encode;
      ghost var before, byRef := nodes, EAt(l.base, l.index, true);
      nodes := nodes[id := nodes[id].(value := nodes[id].value.(reference := true))];
      TwoFrame(before, nodes, lo, id, before[id].value.exprList, l.base, before[id].value.index, l.index);
      PushElement(c, byRef, k);
      PushPCode(id, lo, byRef, k);
      nodes := nodes[id := nodes[id].(value := nodes[id].value.(reference := false))];
      assert nodes == before;
    }

    method PushVariableRef(id: nat, ghost lo: nat, ghost l: Expr, ghost k: Code)
      requires Rep(nodes, lo, id, l) && l.EVar? && !c.scope(l.name).Field?
      modifies this
      ensures Emitted(LocateCode(c, l, k), k)
      decreases Weight(l), 10
    {
      hide Bytes, Sum, Encode;
      ghost var before := nodes;
      nodes := nodes[id := nodes[id].(kind := KVarRef)];
      PushPCode(id, lo, EVarRef(l.name), k);
      nodes := nodes[id := nodes[id].(kind := KVariable)];
      assert nodes == before;
    }

    /** The reference, the operand and the operator. */
    method OperEqReference(left: nat, right: nat, op: byte, ghost i: Instr, ghost lo: nat, ghost l: Expr, ghost r: Expr, ghost k: Code)
      requires Rep(nodes, lo, left, l) && WellFormed(c, l) && Target(c, l) && (l.ESend? || l.EAt?)
      requires left < right && Rep(nodes, left + 1, right, r) && WellFormed(c, r) && Encode(c, i) == [op] && Fit(i)
      modifies this
      ensures Emitted(LocateCode(c, l, PushCode(c, r, Then(i, k))), k)
      decreases Weight(l) + Weight(r), 10
    {
      hide Rep, PushCode, LocateCode, Bytes, Sum, Encode, WellFormed, Target;
      PushTargetRef(left, lo, l, PushCode(c, r, Then(i, k)));
      PushPCode(right, left + 1, r, Then(i, k));
      GenPCode1(op, i, k);
    }

    /** The variable node stays a HB_ET_VARREF while the operand is generated. */
    method OperEqVariable(left: nat, right: nat, op: byte, ghost i: Instr, ghost lo: nat, ghost l: Expr, ghost r: Expr, ghost k: Code)
      requires Rep(nodes, lo, left, l) && l.EVar? && Referenced(c.scope(l.name))
      requires left < right && Rep(nodes, left + 1, right, r) && WellFormed(c, r) && Encode(c, i) == [op] && Fit(i)
      modifies this
      ensures Emitted(LocateCode(c, l, PushCode(c, r, Then(i, k))), k)
      decreases Weight(l) + Weight(r), 10
    {
      hide Bytes, Sum, Encode, WellFormed, PushCode;
      VarRefCode(c, l.name, PushCode(c, r, Then(i, k)));
      VarRefFormed(c, l.name);
      ghost var before := nodes;
      nodes := nodes[left := nodes[left].(kind := KVarRef)];
      RepFrame(before, nodes, left + 1, right, r);
      PushPCode(left, lo, EVarRef(l.name), PushCode(c, r, Then(i, k)));
      PushPCode(right, left + 1, r, Then(i, k));
      GenPCode1(op, i, k);
      nodes := nodes[left := nodes[left].(kind := KVariable)];
      assert nodes == before;
    }

    /** LOCALADDINT for a local variable and a small literal. */
    method LocalAddition(left: nat, right: nat, op: BinOp, wanted: bool, ghost lo: nat, ghost l: Expr, ghost r: Expr, ghost k: Code)
      returns (done: bool)
      requires left < right && Rep(nodes, lo, left, l) && Rep(nodes, left + 1, right, r) && l.EVar?
      modifies this
      ensures done == AddsInt(c, op, l, r)
      ensures done ==> Emitted(Then(LocalAddInt(c.scope(l.name).index, Increment(op, r.n)),
        if wanted then Then(PushVarInstr(c, l.name), k) else k), k)
      ensures !done ==> nodes == old(nodes) && code == old(code) && failed == old(failed)
      decreases Weight(l) + Weight(r), 10
    {
      hide Rep, PushCode, Bytes, Sum, Encode, LE;
      KindParts(nodes, lo, left, l);
      KindParts(nodes, left + 1, right, r);
      var slot := c.scope(nodes[left].value.name);
      done := false;
      if slot.Local? && nodes[right].kind == KNumeric && (op == Plus || op == Minus) {
        var n := nodes[right].value.n;
        if Int16(n) && (op != Minus || n >= -0x7FFF) {
          done := true;
          var increment := if op == Minus then -n else n;
          LocalCodes(c, slot.index, increment);
          PushVariableCode(c, l, k);
          GenPCodeN([LOCALADDINT] + LE(slot.index, 2) + LE(increment, 2), LocalAddInt(slot.index, increment),
            if wanted then Then(PushVarInstr(c, l.name), k) else k);
          if wanted { PushPCode(left, lo, l, k); }
        }
      }
    }

    /** The generic form: the old value, the operand, the operator, a copy if it is wanted, and the store. */
    method LoadOperateStore(left: nat, right: nat, op: BinOp, wanted: bool, ghost lo: nat, ghost l: Expr, ghost r: Expr, ghost k: Code)
      requires Rep(nodes, lo, left, l) && WellFormed(c, l) && Target(c, l)
      requires left < right && Rep(nodes, left + 1, right, r) && WellFormed(c, r)
      modifies this
      ensures Emitted(PushCode(c, l, PushCode(c, r, Then(Bin(op),
        if wanted then Then(Duplicate, PopCode(c, l, k)) else PopCode(c, l, k)))), k)
      decreases Weight(l) + Weight(r), 10
    {
      hide Rep, PushCode, PopCode, Bytes, Sum, Encode, WellFormed, Target;
      StackCodes(c);
      OperatorCode(c, op);
      ghost var kp := if wanted then Then(Duplicate, PopCode(c, l, k)) else PopCode(c, l, k);
      PushPCode(left, lo, l, PushCode(c, r, Then(Bin(op), kp)));
      PushPCode(right, left + 1, r, Then(Bin(op), kp));
      GenPCode1(BinByte(op), Bin(op), kp);
      if wanted { GenPCode1(DUPLICATE, Duplicate, PopCode(c, l, k)); }
      PopPCode(left, lo, l, k);
    }

    /** A message: through a reference, or by access and assign messages. */
    method OperEqMessage(left: nat, right: nat, op: BinOp, wanted: bool, ghost lo: nat, ghost l: Expr, ghost r: Expr, ghost k: Code)
      requires Rep(nodes, lo, left, l) && WellFormed(c, l) && Target(c, l) && l.ESend?
      requires left < right && Rep(nodes, left + 1, right, r) && WellFormed(c, r)
      modifies this
      ensures Emitted(OpEqCode(c, EOpEq(op, l, r), wanted, k), k)
      decreases Weight(l) + Weight(r), 13
    {
      hide Rep, OpEqCode, PushCode, PopCode, AccessCode, LocateCode, Bytes, Sum, Encode, WellFormed, Weight, Target, AddsInt;
      OperEqForms(c, EOpEq(op, l, r), wanted, k);
      NotVariable(c, op, l, r);
      StackCodes(c);
      OperatorCode(c, op);
      CompoundCodes(c, op);
      if c.extopt && c.harbour {
        OperEqReference(left, right, if wanted then OpEqByte(op) else OpEqPopByte(op), if wanted then Pcode.OpEq(op) else OpEqPop(op), lo, l, r, k);
      } else if wanted {
        PushSendPopPush(left, Some(right), false, BinByte(op), Bin(op), lo, l, Some((left + 1, r)), k);
      } else {
        PushSendPopPush(left, Some(right), false, BinByte(op), Bin(op), lo, l, Some((left + 1, r)), Then(Pop, k));
        GenPCode1(POP, Pop, k);
      }
    }

    method PushOperEq(id: nat, ghost lo: nat, ghost e: Expr, ghost k: Code)
      requires Rep(nodes, lo, id, e) && WellFormed(c, e) && e.EOpEq?
      modifies this
      ensures Emitted(OpEqCode(c, e, true, k), k)
      decreases Weight(e), 5
    {
      hide Rep, OpEqCode, PushCode, PopCode, AccessCode, LocateCode, Bytes, Sum, Encode, WellFormed, Weight, Target, AddsInt;
      OperandsFormed(c, e);
      OperEqForms(c, e, true, k);
      TargetKinds(c, e.target);
      StackCodes(c);
      CompoundCodes(c, e.op);
      OperandParts(nodes, lo, id, e);
      var left, right, op := nodes[id].value.left.value, nodes[id].value.right.value, nodes[id].kind.op;
      ghost var l, r := e.target, e.source;
      KindParts(nodes, lo, left, l);
      NotVariable(c, op, l, r);
      if nodes[left].kind == KSend {
        OperEqMessage(left, right, op, true, lo, l, r, k);
        return;
      } else if c.harbour {
        if nodes[left].kind == KArrayAt {
          OperEqReference(left, right, OpEqByte(op), Pcode.OpEq(op), lo, l, r, k);
          return;
        } else if nodes[left].kind == KVariable {
          var slot := c.scope(nodes[left].value.name);
          if !slot.Field? && !slot.Undeclared? {
            var done := LocalAddition(left, right, op, true, lo, l, r, k);
            if !done { OperEqVariable(left, right, OpEqByte(op), Pcode.OpEq(op), lo, l, r, k); }
            return;
          }
        }
      }
      LoadOperateStore(left, right, op, true, lo, l, r, k);
    }

    method UseOperEq(id: nat, ghost lo: nat, ghost e: Expr, ghost k: Code)
      requires Rep(nodes, lo, id, e) && WellFormed(c, e) && e.EOpEq?
      modifies this
      ensures Emitted(OpEqCode(c, e, false, k), k)
      decreases Weight(e), 5
    {
      hide Rep, OpEqCode, PushCode, PopCode, AccessCode, LocateCode, Bytes, Sum, Encode, WellFormed, Weight, Target, AddsInt;
      OperandsFormed(c, e);
      OperEqForms(c, e, false, k);
      TargetKinds(c, e.target);
      StackCodes(c);
      CompoundCodes(c, e.op);
      OperandParts(nodes, lo, id, e);
      var left, right, op := nodes[id].value.left.value, nodes[id].value.right.value, nodes[id].kind.op;
      ghost var l, r := e.target, e.source;
      KindParts(nodes, lo, left, l);
      NotVariable(c, op, l, r);
      if nodes[left].kind == KSend {
        OperEqMessage(left, right, op, false, lo, l, r, k);
        return;
      } else if c.harbour {
        if nodes[left].kind == KArrayAt {
          OperEqReference(left, right, OpEqPopByte(op), OpEqPop(op), lo, l, r, k);
          return;
        } else if nodes[left].kind == KVariable {
          var slot := c.scope(nodes[left].value.name);
          if !slot.Field? && !slot.Undeclared? {
            var done := LocalAddition(left, right, op, false, lo, l, r, k);
            if !done { OperEqVariable(left, right, OpEqPopByte(op), OpEqPop(op), lo, l, r, k); }
            return;
          }
        }
      }
      LoadOperateStore(left, right, op, false, lo, l, r, k);
    }

    method PushPreOp(id: nat, up: bool, ghost lo: nat, ghost e: Expr, ghost k: Code)
      requires Rep(nodes, lo, id, e) && WellFormed(c, e) && e.EStep? && e.up == up && e.pre
      modifies this
      ensures Emitted(StepCode(c, up, e.target, true, k), k)
      decreases Weight(e), 5
    {
      hide Rep, StepCode, PushCode, PopCode, DropCode, AccessCode, LocateCode, Bytes, Sum, Encode, WellFormed, Weight, LE, Target;
      StepForms(c, up, e.target, true, k);
      OperandFormed(c, e);
      TargetKinds(c, e.target);
      StackCodes(c);
      StepCodes(c, up);
      OperandPart(nodes, lo, id, e);
      var left := nodes[id].value.left.value;
      ghost var l := e.target;
      KindParts(nodes, lo, left, l);
      if nodes[left].kind == KSend {
        if c.extopt {
          PushTargetRef(left, lo, l, Then(StepEq(up), k));
          GenPCode1(if up then INCEQ else DECEQ, StepEq(up), k);
        } else {
          PushSendPopPush(left, None, false, if up then INC else DEC, StepInstr(up), lo, l, None, k);
        }
        return;
      } else if c.harbour {
        if nodes[left].kind == KArrayAt {
          PushTargetRef(left, lo, l, Then(StepEq(up), k));
          GenPCode1(if up then INCEQ else DECEQ, StepEq(up), k);
          return;
        } else if nodes[left].kind == KVariable {
          var slot := c.scope(nodes[left].value.name);
          if !slot.Field? && !slot.Undeclared? {
            if slot.Local? {
              LocalCodes(c, slot.index, 0);
              if up {
                GenPCode3(LOCALINCPUSH, slot.index, LocalIncPush(slot.index), k);
              } else {
                GenPCode3(LOCALDEC, slot.index, LocalDec(slot.index), Then(PushVarInstr(c, l.name), k));
                PushVariableCode(c, l, k);
                PushPCode(left, lo, l, k);
              }
            } else {
              PushTargetRef(left, lo, l, Then(StepEq(up), k));
              GenPCode1(if up then INCEQ else DECEQ, StepEq(up), k);
            }
            return;
          }
        }
      }
      ghost var kp := Then(Duplicate, PopCode(c, l, k));
      PushStep(left, lo, l, up, kp);
      GenPCode1(DUPLICATE, Duplicate, PopCode(c, l, k));
      PopPCode(left, lo, l, k);
    }

    method PushPostOp(id: nat, up: bool, ghost lo: nat, ghost e: Expr, ghost k: Code)
      requires Rep(nodes, lo, id, e) && WellFormed(c, e) && e.EStep? && e.up == up && !e.pre
      modifies this
      ensures Emitted(PostStepCode(c, up, e.target, k), k)
      decreases Weight(e), 5
    {
      hide Rep, PushCode, PopCode, DropCode, AccessCode, LocateCode, Bytes, Sum, Encode, WellFormed, Weight, LE, Target;
      OperandFormed(c, e);
      TargetKinds(c, e.target);
      StackCodes(c);
      StepCodes(c, up);
      OperandPart(nodes, lo, id, e);
      var left := nodes[id].value.left.value;
      ghost var l := e.target;
      KindParts(nodes, lo, left, l);
      if nodes[left].kind == KSend {
        if c.extopt {
          PostStepRef(left, up, lo, l, k);
        } else {
          PushSendPopPush(left, None, true, if up then INC else DEC, StepInstr(up), lo, l, None, k);
        }
        return;
      } else if c.harbour {
        if nodes[left].kind == KArrayAt {
          PostStepRef(left, up, lo, l, k);
          return;
        } else if nodes[left].kind == KVariable {
          var slot := c.scope(nodes[left].value.name);
          if !slot.Field? && !slot.Undeclared? {
            if slot.Local? {
              LocalCodes(c, slot.index, 0);
              ghost var i := if up then LocalInc(slot.index) else LocalDec(slot.index);
              PushVariableCode(c, l, Then(i, k));
              PushPCode(left, lo, l, Then(i, k));
              GenPCode3(if up then LOCALINC else LOCALDEC, slot.index, i, k);
            } else {
              PostStepRef(left, up, lo, l, k);
            }
            return;
          }
        }
      }
      ghost var kp := Then(StepInstr(up), PopCode(c, l, k));
      PushPCode(left, lo, l, Then(Duplicate, kp));
      GenPCode1(DUPLICATE, Duplicate, kp);
      GenPCode1(if up then INC else DEC, StepInstr(up), PopCode(c, l, k));
      PopPCode(left, lo, l, k);
    }

    /** The reference is duplicated and the lower copy replaced by the value. */
    method PostStepRef(left: nat, up: bool, ghost lo: nat, ghost l: Expr, ghost k: Code)
      requires Rep(nodes, lo, left, l) && WellFormed(c, l) && Target(c, l) && !l.EIif?
      requires l.EVar? ==> !c.scope(l.name).Field?
      modifies this
      ensures Emitted(LocateCode(c, l, Then(DuplUnref, Then(StepEqPop(up), k))), k)
      decreases Weight(l), 12
    {
      hide Rep, PushCode, LocateCode, Bytes, Sum, Encode, WellFormed, Target;
      StepCodes(c, up);
      UnrefCode(c);
      PushTargetRef(left, lo, l, Then(DuplUnref, Then(StepEqPop(up), k)));
      GenPCode1(DUPLUNREF, DuplUnref, Then(StepEqPop(up), k));
      GenPCode1(if up then INCEQPOP else DECEQPOP, StepEqPop(up), k);
    }

    method UsePreOp(id: nat, up: bool, ghost lo: nat, ghost e: Expr, ghost k: Code)
      requires Rep(nodes, lo, id, e) && WellFormed(c, e) && e.EStep? && e.up == up
      modifies this
      ensures Emitted(StepCode(c, up, e.target, false, k), k)
      decreases Weight(e), 5
    {
      hide Rep, StepCode, PushCode, PopCode, DropCode, AccessCode, LocateCode, Bytes, Sum, Encode, WellFormed, Weight, LE, Target;
      StepForms(c, up, e.target, false, k);
      OperandFormed(c, e);
      TargetKinds(c, e.target);
      StackCodes(c);
      StepCodes(c, up);
      OperandPart(nodes, lo, id, e);
      var left := nodes[id].value.left.value;
      ghost var l := e.target;
      KindParts(nodes, lo, left, l);
      if nodes[left].kind == KSend {
        if c.extopt {
          PushTargetRef(left, lo, l, Then(StepEqPop(up), k));
          GenPCode1(if up then INCEQPOP else DECEQPOP, StepEqPop(up), k);
        } else {
          PushSendPopPush(left, None, false, if up then INC else DEC, StepInstr(up), lo, l, None, Then(Pop, k));
          GenPCode1(POP, Pop, k);
        }
        return;
      } else if c.harbour {
        if nodes[left].kind == KArrayAt {
          PushTargetRef(left, lo, l, Then(StepEqPop(up), k));
          GenPCode1(if up then INCEQPOP else DECEQPOP, StepEqPop(up), k);
          return;
        } else if nodes[left].kind == KVariable {
          var slot := c.scope(nodes[left].value.name);
          if !slot.Field? && !slot.Undeclared? {
            if slot.Local? {
              LocalCodes(c, slot.index, 0);
              ghost var i := if up then LocalInc(slot.index) else LocalDec(slot.index);
              GenPCode3(if up then LOCALINC else LOCALDEC, slot.index, i, k);
            } else {
              PushTargetRef(left, lo, l, Then(StepEqPop(up), k));
              GenPCode1(if up then INCEQPOP else DECEQPOP, StepEqPop(up), k);
            }
            return;
          }
        }
      }
      PushStep(left, lo, l, up, PopCode(c, l, k));
      PopPCode(left, lo, l, k);
    }

    // -------------------------------------------------------------- jumps

    method UseLogicPush(id: nat, isAnd: bool, ghost lo: nat, ghost e: Expr, ghost k: Code)
      requires Rep(nodes, lo, id, e) && WellFormed(c, e) && e.ELogic? && e.isAnd == isAnd
      modifies this
      ensures Emitted(PushCode(c, e, k), k)
      decreases Weight(e), 5
    {
      hide Rep, PushCode, DropCode, Bytes, Sum, Encode, WellFormed, Weight;
      LogicCodes(c);
      OperandsFormed(c, e);
      PushLogical(c, e, k);
      OperandParts(nodes, lo, id, e);
      var left, right := nodes[id].value.left.value, nodes[id].value.right.value;
      if c.shortcuts {
        PushShortcut(left, right, isAnd, lo, e.left, e.right, k);
      } else {
        ghost var i := if isAnd then And else Or;
        PushPCode(left, lo, e.left, PushCode(c, e.right, Then(i, k)));
        PushPCode(right, left + 1, e.right, Then(i, k));
        GenPCode1(if isAnd then AND else OR, i, k);
      }
    }

    method PushShortcut(left: nat, right: nat, isAnd: bool, ghost lo: nat, ghost a: Expr, ghost b: Expr, ghost k: Code)
      requires left < right && Rep(nodes, lo, left, a) && Rep(nodes, left + 1, right, b) && WellFormed(c, a) && WellFormed(c, b)
      modifies this
      ensures Emitted(PushCode(c, a, Then(Duplicate, Then(Branching(!isAnd, FAR + 1 + CodeSize(PushCode(c, b, End))),
        Then(Pop, PushCode(c, b, k))))), k)
      decreases Weight(a) + Weight(b), 10
    {
      hide Rep, PushCode, DropCode, Bytes, CodeSize, LE, Patched, Encode, WellFormed, Skip, Sum, Fits;
      StackCodes(c);
      ghost var kb := PushCode(c, b, k);
      ghost var d := FAR + 1 + CodeSize(PushCode(c, b, End));
      ghost var j := Branching(!isAnd, d);
      var op := if isAnd then JUMPFALSEFAR else JUMPTRUEFAR;
      JumpCodes(c, j, op, d);
      PushPCode(left, lo, a, Then(Duplicate, Then(j, Then(Pop, kb))));
      GenPCode1(DUPLICATE, Duplicate, Then(j, Then(Pop, kb)));
      ghost var start, failedLeft := code, failed;
      var end := GenJump(op);
      ghost var jumped := code;
      GenPCode1(POP, Pop, kb);
      PushPCode(right, left + 1, b, k);
      ghost var done, failedArm := code, failed;
      GenJumpHere(end);
      PushDistance(c, b, k);
      PopSize(kb);
      BranchFits(j, d);
      SingleSum(c, failedLeft, start, jumped, failedArm, done, j, op, d, Then(Pop, kb), k, failed, code);
    }

    method UseLogicPushPop(id: nat, isAnd: bool, ghost lo: nat, ghost e: Expr, ghost k: Code)
      requires Rep(nodes, lo, id, e) && WellFormed(c, e) && e.ELogic? && e.isAnd == isAnd
      modifies this
      ensures Emitted(DropCode(c, e, k), k)
      decreases Weight(e), 11
    {
      hide Rep, PushCode, DropCode, Bytes, LE, Patched, Encode, WellFormed, Weight, Skip, CodeSize, Sum, Fits;
      OperandsFormed(c, e);
      PushLogical(c, e, k);
      OperandParts(nodes, lo, id, e);
      if c.shortcuts {
        var left, right := nodes[id].value.left.value, nodes[id].value.right.value;
        ghost var kb := DropCode(c, e.right, k);
        ghost var d := FAR + CodeSize(DropCode(c, e.right, End));
        ghost var j := Branching(!isAnd, d);
        var op := if isAnd then JUMPFALSEFAR else JUMPTRUEFAR;
        JumpCodes(c, j, op, d);
        PushPCode(left, lo, e.left, Then(j, kb));
        ghost var start, failedLeft := code, failed;
        var end := GenJump(op);
        ghost var jumped := code;
        PushPop(right, left + 1, e.right, k);
        ghost var done, failedArm := code, failed;
        GenJumpHere(end);
        DropDistance(c, e.right, k);
        BranchFits(j, d);
        SingleSum(c, failedLeft, start, jumped, failedArm, done, j, op, d, kb, k, failed, code);
      } else {
        PushThenPop(id, lo, e, k);
      }
    }

    method UseIifPush(id: nat, ghost lo: nat, ghost e: Expr, ghost k: Code)
      requires Rep(nodes, lo, id, e) && WellFormed(c, e) && e.EIif?
      modifies this
      ensures Emitted(PushCode(c, e, k), k)
      decreases Weight(e), 5
    {
      hide Rep, PushCode, PopCode, DropCode, Bytes, CodeSize, Encode, LE, Patched, Weight, WellFormed, Target, Skip, Sum, Fits, Int24;
      IifFormed(c, e);
      PushConditional(c, e, k);
      IifParts(nodes, lo, id, e);
      ghost var EIif(x, a, b) := e;
      ghost var n, m := CodeSize(PushCode(c, a, End)), CodeSize(PushCode(c, b, End));
      ghost var d1, d2 := FAR + n + FAR, FAR + m;
      ghost var kb := PushCode(c, b, k);
      ghost var kj := Then(Jump(d2), kb);
      ghost var ka := PushCode(c, a, kj);
      var p := nodes[id].value.exprList.value;
      PushPCode(p, lo, x, Then(JumpFalse(d1), ka));
      ghost var start, f0 := code, failed;
      var posFalse := GenJump(JUMPFALSEFAR);
      var q := nodes[p].next.value;
      PushPCode(q, p + 1, a, kj);
      ghost var armEnd, f1 := code, failed;
      var posEnd := GenJump(JUMPFAR);
      GenJumpHere(posFalse);
      ghost var patched, f2 := code, failed;
      PushPCode(nodes[q].next.value, q + 1, b, k);
      ghost var done, f3 := code, failed;
      GenJumpHere(posEnd);
      PushDistance(c, a, kj);
      PushDistance(c, b, k);
      JumpSize(d2, kb);
      TwoSum(c, f0, start, f1, armEnd, f2, patched, f3, done, failed, code, ka, kb, k);
    }

    method UseIifPop(id: nat, ghost lo: nat, ghost l: Expr, ghost k: Code)
      requires Rep(nodes, lo, id, l) && Target(c, l) && WellFormed(c, l) && l.EIif?
      modifies this
      ensures Emitted(PopCode(c, l, k), k)
      decreases Weight(l), 5
    {
      hide Rep, PushCode, PopCode, DropCode, Bytes, CodeSize, Encode, LE, Patched, Weight, WellFormed, Target, Skip, Sum, Fits, Int24;
      IifFormed(c, l);
      PopConditional(c, l, k);
      IifParts(nodes, lo, id, l);
      ghost var EIif(x, a, b) := l;
      ghost var n, m := CodeSize(PopCode(c, a, End)), CodeSize(PopCode(c, b, End));
      ghost var d1, d2 := FAR + n + FAR, FAR + m;
      ghost var kb := PopCode(c, b, k);
      ghost var kj := Then(Jump(d2), kb);
      ghost var ka := PopCode(c, a, kj);
      var p := nodes[id].value.exprList.value;
      PushPCode(p, lo, x, Then(JumpFalse(d1), ka));
      ghost var start, f0 := code, failed;
      var posFalse := GenJump(JUMPFALSEFAR);
      var q := nodes[p].next.value;
      PopPCode(q, p + 1, a, kj);
      ghost var armEnd, f1 := code, failed;
      var posEnd := GenJump(JUMPFAR);
      GenJumpHere(posFalse);
      ghost var patched, f2 := code, failed;
      PopPCode(nodes[q].next.value, q + 1, b, k);
      ghost var done, f3 := code, failed;
      GenJumpHere(posEnd);
      PopDistance(c, a, kj);
      PopDistance(c, b, k);
      JumpSize(d2, kb);
      TwoSum(c, f0, start, f1, armEnd, f2, patched, f3, done, failed, code, ka, kb, k);
    }

    /** Ends the true arm of a conditional jump: with a jump over the false arm, or, if the arm is
        empty, by inverting the conditional jump. */
    method EndTrueArm(posFalse: nat) returns (posEnd: nat)
      requires 0 < posFalse && posFalse + 3 <= |code|
      modifies this`code, this`failed
      ensures |old(code)| <= |code| && (old(failed) ==> failed)
      ensures |old(code)| == posFalse + 3 ==>
        code == old(code)[posFalse - 1 := JUMPTRUEFAR] && posEnd == posFalse && failed == old(failed)
      ensures |old(code)| != posFalse + 3 ==> posEnd == |old(code)| + 1 && |code| == |old(code)| + 4
      ensures |old(code)| != posFalse + 3 ==> failed == (old(failed) || !Int24(|old(code)| + 4 - posFalse + 1))
      ensures |old(code)| != posFalse + 3 && !failed ==>
        code == Patched(old(code) + [JUMPFAR] + [0, 0, 0], posFalse, |old(code)| + 4 - posFalse + 1)
    {
      if |code| == posFalse + 3 {
        code := code[posFalse - 1 := JUMPTRUEFAR];
        posEnd := posFalse;
      } else {
        posEnd := GenJump(JUMPFAR);
        GenJumpHere(posFalse);
      }
    }

    /** A true arm that generates no bytes turns the conditional jump around. */
    method UseIifPushPop(id: nat, ghost lo: nat, ghost e: Expr, ghost k: Code)
      requires Rep(nodes, lo, id, e) && WellFormed(c, e) && e.EIif?
      modifies this
      ensures Emitted(DropCode(c, e, k), k)
      decreases Weight(e), 11
    {
      hide Rep, PushCode, PopCode, DropCode, Bytes, CodeSize, Encode, LE, Patched, Weight, WellFormed, Target, Sum, Fits, Int24, Skip;
      IifFormed(c, e);
      DropConditional(c, e, k);
      IifParts(nodes, lo, id, e);
      ghost var EIif(x, a, b) := e;
      ghost var n, m := CodeSize(DropCode(c, a, End)), CodeSize(DropCode(c, b, End));
      ghost var kb := DropCode(c, b, k);
      ghost var kj := Then(Jump(FAR + m), kb);
      var p := nodes[id].value.exprList.value;
      PushPCode(p, lo, x, if n == 0 then Then(JumpTrue(FAR + m), kb) else Then(JumpFalse(FAR + n + FAR), DropCode(c, a, kj)));
      ghost var start, f0 := code, failed;
      var posFalse := GenJump(JUMPFALSEFAR);
      var q := nodes[p].next.value;
      PushPopUnlessNil(q, p + 1, a, kj);
      ghost var armEnd, f1 := code, failed;
      var posEnd := EndTrueArm(posFalse);
      ghost var patched, f2 := code, failed;
      PushPopUnlessNil(nodes[q].next.value, q + 1, b, k);
      ghost var done, f3 := code, failed;
      GenJumpHere(posEnd);
      DropDistance(c, b, k);
      DropSum(c, a, f0, start, f1, armEnd, posEnd, f2, patched, f3, done, failed, code, n, FAR + m, kb, k);
    }

    /** Generates no warning about a meaningless NIL. */
    method PushPopUnlessNil(id: nat, ghost lo: nat, ghost e: Expr, ghost k: Code)
      requires Rep(nodes, lo, id, e) && WellFormed(c, e)
      modifies this
      ensures Emitted(DropCode(c, e, k), k)
      decreases Weight(e), 13
    {
      hide Rep, DropCode, Bytes, Sum;
      KindParts(nodes, lo, id, e);
      DropNil(c, k);
      if nodes[id].kind != KNil { PushPop(id, lo, e, k); }
    }

    /** Generates an expression on its own. */
    method Compile(id: nat, ghost lo: nat, ghost e: Expr)
      requires Rep(nodes, lo, id, e) && WellFormed(c, e)
      modifies this
      ensures nodes == old(nodes)
      ensures failed == (old(failed) || !Fits(PushCode(c, e, End)))
      ensures failed || code == old(code) + Bytes(c, PushCode(c, e, End))
    {
      PushPCode(id, lo, e, End);
      assert Bytes(c, End) == [] && code + [] == code;
    }
  }
}
