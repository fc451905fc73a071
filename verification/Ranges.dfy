/** A condition on the expression alone under which the operands of its code fit into their
    instructions: 64-bit literals, 16-bit slots, known symbols and at most 65535 items in a list. */
module Ranges {
  import opened Values
  import opened Expressions
  import opened Pcode
  import opened Meaning
  import opened Compiler
  import opened Encoding
  import opened ByteMachine
  import opened Reduction

  /** The symbol table holds the name at a 16-bit index. */
  predicate HasSymbol(c: Config, name: string) {
    0 <= c.symbolIndex(name) <= 65535 && c.symbolName(c.symbolIndex(name)) == name
  }

  predicate SlotInRange(c: Config, name: string) {
    match c.scope(name)
    case Local(i) => i <= 32767
    case Detached(i) => i <= 32768
    case Static(i) => i <= 65535
    case _ => HasSymbol(c, name)
  }

  predicate InRange(c: Config, e: Expr) {
    match e
    case ENil => true
    case ENum(n) => -9223372036854775808 <= n <= 9223372036854775807
    case EStr(_) => true
    case ELog(_) => true
    case EVar(n) => SlotInRange(c, n)
    case EVarRef(n) => SlotInRange(c, n)
    case ERef(x) => InRange(c, x)
    case EArray(items) => Count(items) <= 65535 && AllInRange(c, items)
    case EIif(x, a, b) => InRange(c, x) && InRange(c, a) && InRange(c, b)
    case EList(init, last) => AllInRange(c, init) && InRange(c, last)
    case EAt(b, i, _) => InRange(c, b) && InRange(c, i)
    case ECall(f, args) => HasSymbol(c, f) && Count(args) <= 65535 && AllInRange(c, args)
    case ESend(o, m, _, ps) => HasSymbol(c, m) && HasSymbol(c, "_" + m) && InRange(c, o) && Count(ps) <= 65535 && AllInRange(c, ps)
    case EAlias(a, b) => InRange(c, a) && InRange(c, b)
    case EAssign(l, r) => InRange(c, l) && InRange(c, r)
    case EOpEq(_, l, r) => InRange(c, l) && InRange(c, r)
    case EStep(_, _, l) => InRange(c, l)
    case ELogic(_, a, b) => InRange(c, a) && InRange(c, b)
    case ENot(x) => InRange(c, x)
    case ENeg(x) => InRange(c, x)
    case EBin(_, a, b) => InRange(c, a) && InRange(c, b)
  }

  predicate AllInRange(c: Config, es: Exprs) {
    match es
    case ENone => true
    case EMore(e, t) => InRange(c, e) && AllInRange(c, t)
  }

  // ---------------------------------------------------------------- instructions

  /** What the emitter accepts decodes to what was meant. */
  predicate Sound(c: Config, i: Instr) {
    Fit(i) ==> Encodable(c, i)
  }

  predicate AllSound(c: Config, code: Code) {
    match code
    case End => true
    case Then(i, t) => Sound(c, i) && AllSound(c, t)
  }

  lemma {:induction false} SoundEncodable(c: Config, code: Code)
    requires AllSound(c, code)
    ensures Fits(code) <==> AllEncodable(c, code)
  {
    match code
    case End =>
    case Then(i, t) =>
      SoundEncodable(c, t);
      assert Encodable(c, i) ==> Fit(i);
  }

  lemma SoundThen(c: Config, i: Instr, k: Code)
    requires Sound(c, i) && AllSound(c, k)
    ensures AllSound(c, Then(i, k))
  {
  }

  /** Instructions without an operand, and those whose operand the emitter checks. */
  predicate Checked(i: Instr) {
    match i
    case PushStr(_) => true
    case Jump(_) => true
    case JumpFalse(_) => true
    case JumpTrue(_) => true
    case Refused => true
    case Swap(n) => n <= 2
    case OpEq(op) => Compound(op)
    case OpEqPop(op) => Compound(op)
    case _ => Unnumbered(i)
  }

  predicate Unnumbered(i: Instr) {
    i.PushNil? || i.PushLog? || i.Duplicate? || i.DuplUnref? || i.PushUnref? || i.Pop? || i.Bin? || i.Neg? || i.Not? || i.And? || i.Or?
    || i.Inc? || i.Dec? || i.StepEq? || i.StepEqPop? || i.ArrayPush? || i.ArrayPushRef? || i.ArrayPop? || i.PushOVarRef?
    || i.PushAlias? || i.PopAlias? || i.SwapAlias?
  }

  lemma CheckedSound(c: Config, i: Instr)
    requires Checked(i)
    ensures Sound(c, i)
  {
  }

  /** An instruction of this kind in front of sound code. */
  lemma Step(c: Config, i: Instr, k: Code)
    requires Checked(i) && AllSound(c, k)
    ensures AllSound(c, Then(i, k))
  {
    hide Checked, Sound;
    CheckedSound(c, i);
  }

  lemma VariableSound(c: Config, name: string)
    requires SlotInRange(c, name)
    ensures Sound(c, PushVarInstr(c, name)) && Sound(c, PopVarInstr(c, name))
  {
  }

  lemma ReferenceSound(c: Config, name: string, k: Code)
    requires SlotInRange(c, name) && AllSound(c, k)
    ensures AllSound(c, PushVarRefCode(c, name, k))
  {
  }

  lemma LocalSound(c: Config, i: nat, op: BinOp, l: Expr, r: Expr)
    requires l.EVar? && c.scope(l.name) == Local(i) && SlotInRange(c, l.name)
    ensures Sound(c, LocalInc(i)) && Sound(c, LocalDec(i)) && Sound(c, LocalIncPush(i))
    ensures AddsInt(c, op, l, r) ==> Sound(c, LocalAddInt(i, Increment(op, r.n)))
  {
  }

  lemma CountSound(c: Config, n: nat)
    requires n <= 65535
    ensures Sound(c, ArrayGen(n)) && Sound(c, Function(n)) && Sound(c, Do(n)) && Sound(c, Send(n))
  {
  }

  lemma SymbolSound(c: Config, name: string)
    requires HasSymbol(c, name)
    ensures Sound(c, PushFunSym(name)) && Sound(c, Message(name))
  {
  }

  // ---------------------------------------------------------------- HB_EA_PUSH_PCODE

  lemma {:induction false} PushSound(c: Config, e: Expr, k: Code)
    requires WellFormed(c, e) && InRange(c, e) && AllSound(c, k)
    ensures AllSound(c, PushCode(c, e, k))
    decreases e, 3
  {
    hide AllSound, PushCode;
    match e
    case ERef(_) => PushRefSound(c, e, k);
    case EArray(_) => PushListed(c, e, k);
    case ECall(_, _) => PushListed(c, e, k);
    case ESend(_, _, _, _) => PushListed(c, e, k);
    case EIif(_, _, _) => PushIifSound(c, e, k);
    case EList(_, _) => PushParts(c, e, k);
    case EAt(_, _, _) => PushParts(c, e, k);
    case EAlias(_, _) => PushAliasSound(c, e, k);
    case EAssign(_, _) => PushAssignSound(c, e, k);
    case EOpEq(_, _, _) => PushUpdate(c, e, k);
    case EStep(_, _, _) => PushUpdate(c, e, k);
    case ELogic(_, _, _) => PushLogicSound(c, e, k);
    case ENot(_) => PushParts(c, e, k);
    case ENeg(_) => PushParts(c, e, k);
    case EBin(_, _, _) => PushBinSound(c, e, k);
    case _ => PushLeafSound(c, e, k);
  }

  lemma PushLeafSound(c: Config, e: Expr, k: Code)
    requires e.ENil? || e.ENum? || e.EStr? || e.ELog? || e.EVar? || e.EVarRef?
    requires InRange(c, e) && AllSound(c, k)
    ensures AllSound(c, PushCode(c, e, k))
  {
    hide AllSound, PushVarRefCode, PushVarInstr, Checked;
    match e
    case ENil => Leaf(c, PushNil, k);
    case ENum(n) => Leaf(c, PushNum(n), k);
    case EStr(s) => Leaf(c, PushStr(s), k);
    case ELog(b) => Leaf(c, PushLog(b), k);
    case EVar(n) =>
      VariableSound(c, n);
      SoundThen(c, PushVarInstr(c, n), k);
    case EVarRef(n) => ReferenceSound(c, n, k);
  }

  lemma Leaf(c: Config, i: Instr, k: Code)
    requires i.PushNil? || i.PushStr? || i.PushLog? || (i.PushNum? && -9223372036854775808 <= i.n <= 9223372036854775807)
    requires AllSound(c, k)
    ensures AllSound(c, Then(i, k))
  {
  }

  lemma {:induction false} PushRefSound(c: Config, e: Expr, k: Code)
    requires e.ERef? && WellFormed(c, e) && InRange(c, e) && AllSound(c, k)
    ensures AllSound(c, PushCode(c, e, k))
    decreases e, 2
  {
    hide AllSound, LocateCode;
    var x := e.operand;
    if x.EVarRef? || x.ERef? { PushSound(c, x, k); } else { LocateSound(c, x, k); }
  }

  lemma {:induction false} PushAllSound(c: Config, es: Exprs, k: Code)
    requires WellFormedAll(c, es) && AllInRange(c, es) && AllSound(c, k)
    ensures AllSound(c, PushAllCode(c, es, k))
    decreases es, 0
  {
    hide AllSound, PushCode, WellFormed, InRange;
    match es
    case ENone =>
    case EMore(e, t) =>
      PushAllSound(c, t, k);
      PushSound(c, e, PushAllCode(c, t, k));
  }

  /** Two operands and what comes after them. */
  lemma {:induction false} PushPairSound(c: Config, a: Expr, b: Expr, whole: Expr, k: Code)
    requires a < whole && b < whole && WellFormed(c, a) && WellFormed(c, b) && InRange(c, a) && InRange(c, b) && AllSound(c, k)
    ensures AllSound(c, PushCode(c, a, PushCode(c, b, k)))
    decreases whole, 0
  {
    hide AllSound, PushCode, WellFormed, InRange;
    PushSound(c, b, k);
    PushSound(c, a, PushCode(c, b, k));
  }

  lemma {:induction false} PushListed(c: Config, e: Expr, k: Code)
    requires (e.EArray? || e.ECall? || e.ESend?) && WellFormed(c, e) && InRange(c, e) && AllSound(c, k)
    ensures AllSound(c, PushCode(c, e, k))
    decreases e, 2
  {
    hide AllSound, Sound, HasSymbol;
    match e
    case EArray(items) =>
      CountSound(c, Count(items));
      SoundThen(c, ArrayGen(Count(items)), k);
      PushAllSound(c, items, Then(ArrayGen(Count(items)), k));
    case ECall(f, args) =>
      var k1 := Then(Function(Count(args)), k);
      CountSound(c, Count(args));
      SymbolSound(c, f);
      SoundThen(c, Function(Count(args)), k);
      PushAllSound(c, args, k1);
      SoundThen(c, PushFunSym(f), PushAllCode(c, args, k1));
    case ESend(o, m, _, ps) =>
      var k1 := Then(Send(Count(ps)), k);
      CountSound(c, Count(ps));
      SymbolSound(c, m);
      SoundThen(c, Send(Count(ps)), k);
      PushAllSound(c, ps, k1);
      PushSound(c, o, PushAllCode(c, ps, k1));
      SoundThen(c, Message(m), PushCode(c, o, PushAllCode(c, ps, k1)));
  }

  lemma {:induction false} PushIifSound(c: Config, e: Expr, k: Code)
    requires e.EIif? && WellFormed(c, e) && InRange(c, e) && AllSound(c, k)
    ensures AllSound(c, PushCode(c, e, k))
    decreases e, 2
  {
    hide AllSound, CodeSize;
    var EIif(x, a, b) := e;
    var n, m := CodeSize(PushCode(c, a, End)), CodeSize(PushCode(c, b, End));
    PushSound(c, b, k);
    Step(c, Jump(FAR + m), PushCode(c, b, k));
    PushSound(c, a, Then(Jump(FAR + m), PushCode(c, b, k)));
    Step(c, JumpFalse(FAR + n + FAR), PushCode(c, a, Then(Jump(FAR + m), PushCode(c, b, k))));
    PushSound(c, x, Then(JumpFalse(FAR + n + FAR), PushCode(c, a, Then(Jump(FAR + m), PushCode(c, b, k)))));
  }

  lemma {:induction false} PushParts(c: Config, e: Expr, k: Code)
    requires (e.EList? || e.EAt? || e.ENot? || e.ENeg?) && WellFormed(c, e) && InRange(c, e) && AllSound(c, k)
    ensures AllSound(c, PushCode(c, e, k))
    decreases e, 2
  {
    hide AllSound, DropCode;
    match e
    case EList(init, last) =>
      PushSound(c, last, k);
      DropAllSound(c, init, PushCode(c, last, k));
    case EAt(b, i, byRef) =>
      var at := if byRef then ArrayPushRef else ArrayPush;
      Step(c, at, k);
      PushPairSound(c, b, i, e, Then(at, k));
    case ENot(x) =>
      Step(c, Not, k);
      PushSound(c, x, Then(Not, k));
    case ENeg(x) =>
      Step(c, Neg, k);
      PushSound(c, x, Then(Neg, k));
  }

  lemma {:induction false} PushAliasSound(c: Config, e: Expr, k: Code)
    requires e.EAlias? && WellFormed(c, e) && InRange(c, e) && AllSound(c, k)
    ensures AllSound(c, PushCode(c, e, k))
    decreases e, 2
  {
    hide AllSound;
    var EAlias(a, b) := e;
    var kb := PushCode(c, b, Then(SwapAlias, k));
    Step(c, SwapAlias, k);
    PushSound(c, b, Then(SwapAlias, k));
    Step(c, PopAlias, kb);
    PushSound(c, a, Then(PopAlias, kb));
    Step(c, PushAlias, PushCode(c, a, Then(PopAlias, kb)));
  }

  lemma {:induction false} PushAssignSound(c: Config, e: Expr, k: Code)
    requires e.EAssign? && WellFormed(c, e) && InRange(c, e) && AllSound(c, k)
    ensures AllSound(c, PushCode(c, e, k))
    decreases e, 2
  {
    hide AllSound, PopCode, SendPopCode;
    var EAssign(l, r) := e;
    if l.ESend? {
      CountSound(c, 1);
      SoundThen(c, Send(1), k);
      PushSound(c, r, Then(Send(1), k));
      SendPopSound(c, l, PushCode(c, r, Then(Send(1), k)));
    } else {
      PopSound(c, l, k);
      Step(c, PushUnref, PopCode(c, l, k));
      PushSound(c, r, Then(PushUnref, PopCode(c, l, k)));
    }
  }

  lemma {:induction false} PushUpdate(c: Config, e: Expr, k: Code)
    requires (e.EOpEq? || e.EStep?) && WellFormed(c, e) && InRange(c, e) && AllSound(c, k)
    ensures AllSound(c, PushCode(c, e, k))
    decreases e, 2
  {
    hide AllSound, OpEqCode, StepCode, PostStepCode;
    if e.EOpEq? { OpEqSound(c, e, true, k); }
    else if e.pre { StepSound(c, e.up, e.target, true, k); }
    else { PostStepSound(c, e.up, e.target, k); }
  }

  lemma {:induction false} PushLogicSound(c: Config, e: Expr, k: Code)
    requires e.ELogic? && WellFormed(c, e) && InRange(c, e) && AllSound(c, k)
    ensures AllSound(c, PushCode(c, e, k))
    decreases e, 2
  {
    hide AllSound, CodeSize;
    var ELogic(isAnd, a, b) := e;
    if c.shortcuts {
      var n := CodeSize(PushCode(c, b, End));
      var j := Branching(!isAnd, FAR + 1 + n);
      PushSound(c, b, k);
      Step(c, Pop, PushCode(c, b, k));
      Step(c, j, Then(Pop, PushCode(c, b, k)));
      Step(c, Duplicate, Then(j, Then(Pop, PushCode(c, b, k))));
      PushSound(c, a, Then(Duplicate, Then(j, Then(Pop, PushCode(c, b, k)))));
    } else {
      var op := if isAnd then And else Or;
      Step(c, op, k);
      PushPairSound(c, a, b, e, Then(op, k));
    }
  }

  lemma {:induction false} PushBinSound(c: Config, e: Expr, k: Code)
    requires e.EBin? && WellFormed(c, e) && InRange(c, e) && AllSound(c, k)
    ensures AllSound(c, PushCode(c, e, k))
    decreases e, 2
  {
    hide AllSound;
    match UnitStep(c, e) {
      case Some((x, up)) =>
        Step(c, StepInstr(up), k);
        PushSound(c, x, Then(StepInstr(up), k));
      case None =>
        Step(c, Bin(e.op), k);
        PushPairSound(c, e.left, e.right, e, Then(Bin(e.op), k));
    }
  }

  // ---------------------------------------------------------------- targets

  lemma {:induction false} SendPopSound(c: Config, l: Expr, k: Code)
    requires l.ESend? && WellFormed(c, l) && InRange(c, l) && AllSound(c, k)
    ensures AllSound(c, SendPopCode(c, l, k))
    decreases l, 0
  {
    hide AllSound, HasSymbol, Sound;
    PushSound(c, l.object_, k);
    SymbolSound(c, "_" + l.message);
    SoundThen(c, Message("_" + l.message), PushCode(c, l.object_, k));
  }

  lemma {:induction false} PopSound(c: Config, l: Expr, k: Code)
    requires Target(c, l) && WellFormed(c, l) && InRange(c, l) && AllSound(c, k)
    ensures AllSound(c, PopCode(c, l, k))
    decreases l, 2
  {
    hide AllSound, CodeSize, SendPopCode, Sound, PopVarInstr;
    match l
    case EVar(n) =>
      VariableSound(c, n);
      SoundThen(c, PopVarInstr(c, n), k);
    case EAt(b, i, _) =>
      Step(c, ArrayPop, k);
      PushPairSound(c, b, i, l, Then(ArrayPop, k));
    case ESend(_, _, _, _) => PopMessage(c, l, k);
    case EIif(_, _, _) => PopIifSound(c, l, k);
  }

  lemma {:induction false} PopMessage(c: Config, l: Expr, k: Code)
    requires l.ESend? && WellFormed(c, l) && InRange(c, l) && AllSound(c, k)
    ensures AllSound(c, PopCode(c, l, k))
    decreases l, 1
  {
    hide AllSound, SendPopCode;
    var k1 := Then(Send(1), Then(Pop, k));
    Step(c, Pop, k);
    CountSound(c, 1);
    SoundThen(c, Send(1), Then(Pop, k));
    Step(c, Swap(1), k1);
    Step(c, Swap(1), Then(Swap(1), k1));
    SendPopSound(c, l, Then(Swap(1), Then(Swap(1), k1)));
  }

  lemma {:induction false} PopIifSound(c: Config, l: Expr, k: Code)
    requires l.EIif? && Target(c, l) && WellFormed(c, l) && InRange(c, l) && AllSound(c, k)
    ensures AllSound(c, PopCode(c, l, k))
    decreases l, 1
  {
    hide AllSound, CodeSize, PushCode;
    var EIif(x, a, b) := l;
    var n, m := CodeSize(PopCode(c, a, End)), CodeSize(PopCode(c, b, End));
    PopSound(c, b, k);
    Step(c, Jump(FAR + m), PopCode(c, b, k));
    PopSound(c, a, Then(Jump(FAR + m), PopCode(c, b, k)));
    Step(c, JumpFalse(FAR + n + FAR), PopCode(c, a, Then(Jump(FAR + m), PopCode(c, b, k))));
    PushSound(c, x, Then(JumpFalse(FAR + n + FAR), PopCode(c, a, Then(Jump(FAR + m), PopCode(c, b, k)))));
  }

  lemma {:induction false} LocateSound(c: Config, l: Expr, k: Code)
    requires (l.EVar? || l.EAt? || l.ESend?) && WellFormed(c, l) && InRange(c, l) && AllSound(c, k)
    ensures AllSound(c, LocateCode(c, l, k))
    decreases l, 1
  {
    hide AllSound, SendPopCode, PushCode, PushVarRefCode;
    match l
    case EVar(n) => ReferenceSound(c, n, k);
    case EAt(b, i, _) =>
      Step(c, ArrayPushRef, k);
      PushPairSound(c, b, i, l, Then(ArrayPushRef, k));
    case ESend(_, _, _, _) =>
      Step(c, PushOVarRef, k);
      SendPopSound(c, l, Then(PushOVarRef, k));
  }

  lemma {:induction false} AccessSound(c: Config, l: Expr, k: Code)
    requires l.ESend? && WellFormed(c, l) && InRange(c, l) && AllSound(c, k)
    ensures AllSound(c, AccessCode(c, l, k))
    decreases l, 1
  {
    hide AllSound, SendPopCode, PushCode, Sound, HasSymbol;
    CountSound(c, 0);
    SymbolSound(c, l.message);
    SoundThen(c, Send(0), k);
    if c.harbour {
      Step(c, Swap(0), Then(Send(0), k));
      SoundThen(c, Message(l.message), Then(Swap(0), Then(Send(0), k)));
      Step(c, Duplicate, Then(Message(l.message), Then(Swap(0), Then(Send(0), k))));
      SendPopSound(c, l, Then(Duplicate, Then(Message(l.message), Then(Swap(0), Then(Send(0), k)))));
    } else {
      PushSound(c, l.object_, Then(Send(0), k));
      SoundThen(c, Message(l.message), PushCode(c, l.object_, Then(Send(0), k)));
      SendPopSound(c, l, Then(Message(l.message), PushCode(c, l.object_, Then(Send(0), k))));
    }
  }

  lemma DropIfSound(c: Config, drop: bool, k: Code)
    requires AllSound(c, k)
    ensures AllSound(c, DropIf(drop, k))
  {
    hide AllSound;
    if drop { Step(c, Pop, k); }
  }

  lemma {:induction false} StoreSound(c: Config, l: Expr, wanted: bool, k: Code)
    requires Target(c, l) && WellFormed(c, l) && InRange(c, l) && AllSound(c, k)
    ensures AllSound(c, if wanted then Then(Duplicate, PopCode(c, l, k)) else PopCode(c, l, k))
    decreases l, 3
  {
    hide AllSound, PopCode;
    PopSound(c, l, k);
    if wanted { Step(c, Duplicate, PopCode(c, l, k)); }
  }

  lemma {:induction false} OpEqSound(c: Config, e: Expr, wanted: bool, k: Code)
    requires e.EOpEq? && WellFormed(c, e) && InRange(c, e) && AllSound(c, k)
    ensures AllSound(c, OpEqCode(c, e, wanted, k))
    decreases e, 1, 1
  {
    hide AllSound, PushCode, PopCode, LocateCode, AccessCode, AddsInt;
    var EOpEq(op, l, r) := e;
    if UpdatesByRef(c, l) {
      if AddsInt(c, op, l, r) {
        OpEqAddition(c, e, wanted, k);
      } else {
        var i := if wanted then Pcode.OpEq(op) else OpEqPop(op);
        Step(c, i, k);
        PushSound(c, r, Then(i, k));
        LocateSound(c, l, PushCode(c, r, Then(i, k)));
      }
    } else if l.ESend? {
      OpEqMessageSound(c, e, wanted, k);
    } else {
      var kp := if wanted then Then(Duplicate, PopCode(c, l, k)) else PopCode(c, l, k);
      StoreSound(c, l, wanted, k);
      Step(c, Bin(op), kp);
      PushPairSound(c, l, r, e, Then(Bin(op), kp));
    }
  }

  lemma OpEqAddition(c: Config, e: Expr, wanted: bool, k: Code)
    requires e.EOpEq? && UpdatesByRef(c, e.target) && AddsInt(c, e.op, e.target, e.source) && InRange(c, e) && AllSound(c, k)
    ensures AllSound(c, OpEqCode(c, e, wanted, k))
  {
    hide AllSound, Sound, SlotInRange, PushVarInstr;
    var EOpEq(op, l, r) := e;
    var i := c.scope(l.name).index;
    LocalSound(c, i, op, l, r);
    VariableSound(c, l.name);
    if wanted { SoundThen(c, PushVarInstr(c, l.name), k); }
    SoundThen(c, LocalAddInt(i, Increment(op, r.n)), if wanted then Then(PushVarInstr(c, l.name), k) else k);
  }

  lemma {:induction false} OpEqMessageSound(c: Config, e: Expr, wanted: bool, k: Code)
    requires e.EOpEq? && e.target.ESend? && !UpdatesByRef(c, e.target) && WellFormed(c, e) && InRange(c, e) && AllSound(c, k)
    ensures AllSound(c, OpEqCode(c, e, wanted, k))
    decreases e, 1, 0
  {
    hide AllSound, PushCode, AccessCode, DropIf;
    var EOpEq(op, l, r) := e;
    var k1 := Then(Send(1), DropIf(!wanted, k));
    DropIfSound(c, !wanted, k);
    CountSound(c, 1);
    SoundThen(c, Send(1), DropIf(!wanted, k));
    Step(c, Bin(op), k1);
    PushSound(c, r, Then(Bin(op), k1));
    AccessSound(c, l, PushCode(c, r, Then(Bin(op), k1)));
  }

  lemma {:induction false} StepSound(c: Config, up: bool, l: Expr, wanted: bool, k: Code)
    requires Target(c, l) && WellFormed(c, l) && InRange(c, l) && AllSound(c, k)
    ensures AllSound(c, StepCode(c, up, l, wanted, k))
    decreases l, 5
  {
    hide AllSound, PushCode, PopCode, LocateCode, AccessCode, DropIf;
    if StepsByRef(c, l) {
      if l.EVar? && c.scope(l.name).Local? {
        StepLocalSound(c, up, l, wanted, k);
      } else {
        var i := if wanted then StepEq(up) else StepEqPop(up);
        Step(c, i, k);
        LocateSound(c, l, Then(i, k));
      }
    } else if l.ESend? {
      DropIfSound(c, !wanted, k);
      StepMessageSound(c, up, l, DropIf(!wanted, k));
    } else {
      var kp := if wanted then Then(Duplicate, PopCode(c, l, k)) else PopCode(c, l, k);
      StoreSound(c, l, wanted, k);
      Step(c, StepInstr(up), kp);
      PushSound(c, l, Then(StepInstr(up), kp));
    }
  }

  lemma {:induction false} StepMessageSound(c: Config, up: bool, l: Expr, k: Code)
    requires l.ESend? && WellFormed(c, l) && InRange(c, l) && AllSound(c, k)
    ensures AllSound(c, AccessCode(c, l, Then(StepInstr(up), Then(Send(1), k))))
    decreases l, 3
  {
    hide AllSound, AccessCode;
    CountSound(c, 1);
    SoundThen(c, Send(1), k);
    Step(c, StepInstr(up), Then(Send(1), k));
    AccessSound(c, l, Then(StepInstr(up), Then(Send(1), k)));
  }

  lemma StepLocalSound(c: Config, up: bool, l: Expr, wanted: bool, k: Code)
    requires l.EVar? && StepsByRef(c, l) && c.scope(l.name).Local? && InRange(c, l) && AllSound(c, k)
    ensures AllSound(c, StepCode(c, up, l, wanted, k)) && AllSound(c, PostStepCode(c, up, l, k))
  {
    hide AllSound, Sound, SlotInRange, PushVarInstr;
    var i := c.scope(l.name).index;
    LocalSound(c, i, Plus, l, l);
    VariableSound(c, l.name);
    SoundThen(c, LocalIncPush(i), k);
    SoundThen(c, PushVarInstr(c, l.name), k);
    SoundThen(c, LocalDec(i), Then(PushVarInstr(c, l.name), k));
    SoundThen(c, LocalInc(i), k);
    SoundThen(c, LocalDec(i), k);
    SoundThen(c, PushVarInstr(c, l.name), Then(if up then LocalInc(i) else LocalDec(i), k));
  }

  lemma {:induction false} PostStepSound(c: Config, up: bool, l: Expr, k: Code)
    requires Target(c, l) && WellFormed(c, l) && InRange(c, l) && AllSound(c, k)
    ensures AllSound(c, PostStepCode(c, up, l, k))
    decreases l, 5
  {
    hide AllSound, PushCode, PopCode, LocateCode, AccessCode, StepCode;
    if StepsByRef(c, l) {
      if l.EVar? && c.scope(l.name).Local? {
        StepLocalSound(c, up, l, true, k);
      } else {
        Step(c, StepEqPop(up), k);
        Step(c, DuplUnref, Then(StepEqPop(up), k));
        LocateSound(c, l, Then(DuplUnref, Then(StepEqPop(up), k)));
      }
    } else if l.ESend? {
      PostMessageSound(c, up, l, k);
    } else {
      PopSound(c, l, k);
      Step(c, StepInstr(up), PopCode(c, l, k));
      Step(c, Duplicate, Then(StepInstr(up), PopCode(c, l, k)));
      PushSound(c, l, Then(Duplicate, Then(StepInstr(up), PopCode(c, l, k))));
    }
  }

  lemma {:induction false} PostMessageSound(c: Config, up: bool, l: Expr, k: Code)
    requires l.ESend? && !StepsByRef(c, l) && WellFormed(c, l) && InRange(c, l) && AllSound(c, k)
    ensures AllSound(c, PostStepCode(c, up, l, k))
    decreases l, 4
  {
    hide AllSound, PushCode, AccessCode;
    Step(c, Pop, k);
    if c.harbour {
      var k1 := Then(StepInstr(up), Then(Send(1), Then(Pop, k)));
      CountSound(c, 1);
      SoundThen(c, Send(1), Then(Pop, k));
      Step(c, StepInstr(up), Then(Send(1), Then(Pop, k)));
      Step(c, Swap(2), k1);
      Step(c, Duplicate, Then(Swap(2), k1));
      AccessSound(c, l, Then(Duplicate, Then(Swap(2), k1)));
    } else {
      StepMessageSound(c, up, l, Then(Pop, k));
      PushSound(c, l, AccessCode(c, l, Then(StepInstr(up), Then(Send(1), Then(Pop, k)))));
    }
  }

  // ---------------------------------------------------------------- HB_EA_PUSH_POP

  lemma {:induction false} DropSound(c: Config, e: Expr, k: Code)
    requires WellFormed(c, e) && InRange(c, e) && AllSound(c, k)
    ensures AllSound(c, DropCode(c, e, k))
    decreases e, 7
  {
    hide AllSound, DropCode;
    match e
    case EArray(_) => DropParts(c, e, k);
    case EList(_, _) => DropParts(c, e, k);
    case EAt(_, _, _) => DropParts(c, e, k);
    case EIif(_, _, _) => DropIifSound(c, e, k);
    case ECall(_, _) => DropCallSound(c, e, k);
    case EAlias(_, _) => DropAliasSound(c, e, k);
    case EAssign(_, _) => DropUpdate(c, e, k);
    case EOpEq(_, _, _) => DropUpdate(c, e, k);
    case EStep(_, _, _) => DropUpdate(c, e, k);
    case ELogic(_, _, _) => DropLogicSound(c, e, k);
    case ENot(_) => DropOperator(c, e, k);
    case ENeg(_) => DropOperator(c, e, k);
    case EBin(_, _, _) => DropOperator(c, e, k);
    case _ => DropLeaf(c, e, k);
  }

  lemma {:induction false} DropAllSound(c: Config, es: Exprs, k: Code)
    requires WellFormedAll(c, es) && AllInRange(c, es) && AllSound(c, k)
    ensures AllSound(c, DropAllCode(c, es, k))
    decreases es, 0
  {
    hide AllSound, DropCode, WellFormed, InRange;
    match es
    case ENone =>
    case EMore(e, t) =>
      DropAllSound(c, t, k);
      DropSound(c, e, DropAllCode(c, t, k));
  }

  lemma {:induction false} PushThenPop(c: Config, e: Expr, k: Code)
    requires WellFormed(c, e) && InRange(c, e) && AllSound(c, k)
    ensures AllSound(c, PushCode(c, e, Then(Pop, k)))
    decreases e, 4
  {
    hide AllSound, PushCode;
    Step(c, Pop, k);
    PushSound(c, e, Then(Pop, k));
  }

  lemma {:induction false} DropParts(c: Config, e: Expr, k: Code)
    requires (e.EArray? || e.EList? || e.EAt?) && WellFormed(c, e) && InRange(c, e) && AllSound(c, k)
    ensures AllSound(c, DropCode(c, e, k))
    decreases e, 6
  {
    hide AllSound;
    match e
    case EArray(items) => DropAllSound(c, items, k);
    case EList(init, last) =>
      DropSound(c, last, k);
      DropAllSound(c, init, DropCode(c, last, k));
    case EAt(b, i, _) =>
      DropSound(c, i, k);
      DropSound(c, b, DropCode(c, i, k));
  }

  lemma {:induction false} DropIifSound(c: Config, e: Expr, k: Code)
    requires e.EIif? && WellFormed(c, e) && InRange(c, e) && AllSound(c, k)
    ensures AllSound(c, DropCode(c, e, k))
    decreases e, 6
  {
    hide AllSound, CodeSize, PushCode;
    var EIif(x, a, b) := e;
    var n, m := CodeSize(DropCode(c, a, End)), CodeSize(DropCode(c, b, End));
    DropSound(c, b, k);
    if n == 0 {
      Step(c, JumpTrue(FAR + m), DropCode(c, b, k));
      PushSound(c, x, Then(JumpTrue(FAR + m), DropCode(c, b, k)));
    } else {
      Step(c, Jump(FAR + m), DropCode(c, b, k));
      DropSound(c, a, Then(Jump(FAR + m), DropCode(c, b, k)));
      Step(c, JumpFalse(FAR + n + FAR), DropCode(c, a, Then(Jump(FAR + m), DropCode(c, b, k))));
      PushSound(c, x, Then(JumpFalse(FAR + n + FAR), DropCode(c, a, Then(Jump(FAR + m), DropCode(c, b, k)))));
    }
  }

  lemma {:induction false} DropCallSound(c: Config, e: Expr, k: Code)
    requires e.ECall? && WellFormed(c, e) && InRange(c, e) && AllSound(c, k)
    ensures AllSound(c, DropCode(c, e, k))
    decreases e, 6
  {
    hide AllSound, Sound, HasSymbol;
    var ECall(f, args) := e;
    CountSound(c, Count(args));
    SymbolSound(c, f);
    SoundThen(c, Do(Count(args)), k);
    PushAllSound(c, args, Then(Do(Count(args)), k));
    SoundThen(c, PushFunSym(f), PushAllCode(c, args, Then(Do(Count(args)), k)));
  }

  lemma {:induction false} DropAliasSound(c: Config, e: Expr, k: Code)
    requires e.EAlias? && WellFormed(c, e) && InRange(c, e) && AllSound(c, k)
    ensures AllSound(c, DropCode(c, e, k))
    decreases e, 6
  {
    hide AllSound;
    var EAlias(a, b) := e;
    var kb := DropCode(c, b, Then(PopAlias, k));
    Step(c, PopAlias, k);
    DropSound(c, b, Then(PopAlias, k));
    Step(c, PopAlias, kb);
    PushSound(c, a, Then(PopAlias, kb));
    Step(c, PushAlias, PushCode(c, a, Then(PopAlias, kb)));
  }

  lemma {:induction false} DropUpdate(c: Config, e: Expr, k: Code)
    requires (e.EAssign? || e.EOpEq? || e.EStep?) && WellFormed(c, e) && InRange(c, e) && AllSound(c, k)
    ensures AllSound(c, DropCode(c, e, k))
    decreases e, 6
  {
    hide AllSound, PushCode, PopCode, OpEqCode, StepCode;
    match e
    case EAssign(l, r) =>
      if l.ESend? {
        PushThenPop(c, e, k);
      } else {
        PopSound(c, l, k);
        PushSound(c, r, PopCode(c, l, k));
      }
    case EOpEq(_, _, _) => OpEqSound(c, e, false, k);
    case EStep(up, _, l) => StepSound(c, up, l, false, k);
  }

  lemma {:induction false} DropLogicSound(c: Config, e: Expr, k: Code)
    requires e.ELogic? && WellFormed(c, e) && InRange(c, e) && AllSound(c, k)
    ensures AllSound(c, DropCode(c, e, k))
    decreases e, 6
  {
    hide AllSound, CodeSize, PushCode;
    var ELogic(isAnd, a, b) := e;
    if c.shortcuts {
      var j := Branching(!isAnd, FAR + CodeSize(DropCode(c, b, End)));
      DropSound(c, b, k);
      Step(c, j, DropCode(c, b, k));
      PushSound(c, a, Then(j, DropCode(c, b, k)));
    } else {
      PushThenPop(c, e, k);
    }
  }

  lemma {:induction false} DropOperator(c: Config, e: Expr, k: Code)
    requires (e.ENot? || e.ENeg? || e.EBin?) && WellFormed(c, e) && InRange(c, e) && AllSound(c, k)
    ensures AllSound(c, DropCode(c, e, k))
    decreases e, 6
  {
    hide AllSound, PushCode;
    if !c.harbour {
      PushThenPop(c, e, k);
    } else if e.EBin? {
      DropSound(c, e.right, k);
      DropSound(c, e.left, DropCode(c, e.right, k));
    } else {
      DropSound(c, e.arg, k);
    }
  }

  lemma {:induction false} DropLeaf(c: Config, e: Expr, k: Code)
    requires (e.ENil? || e.ENum? || e.EStr? || e.ELog? || e.EVarRef? || e.ERef? || e.EVar? || e.ESend?) && WellFormed(c, e) && InRange(c, e) && AllSound(c, k)
    ensures AllSound(c, DropCode(c, e, k))
    decreases e, 6
  {
    hide AllSound, PushCode, PushVarInstr, Sound;
    if e.ESend? {
      PushThenPop(c, e, k);
    } else if e.EVar? {
      VariableSound(c, e.name);
      Step(c, Pop, k);
      SoundThen(c, PushVarInstr(c, e.name), Then(Pop, k));
    }
  }

  // ---------------------------------------------------------------- the reduced tree

  lemma {:induction false} StripInRange(c: Config, e: Expr)
    requires InRange(c, e)
    ensures InRange(c, Strip(e))
  {
    if Strippable(e) { StripInRange(c, e.last); }
  }

  lemma {:induction false} ReduceInRange(c: Config, e: Expr)
    requires InRange(c, e)
    ensures InRange(c, Reduce(c, e))
    decreases e, 1
  {
    hide HasSymbol, SlotInRange, Strip, Rewritten;
    match e
    case ERef(x) => ReduceInRange(c, x);
    case EArray(items) => ReduceAllInRange(c, items);
    case EIif(x, a, b) => ReduceInRange(c, x); ReduceInRange(c, a); ReduceInRange(c, b);
    case EList(init, last) =>
      ReduceAllInRange(c, init);
      ReduceInRange(c, last);
      StripInRange(c, EList(ReduceAll(c, init), Reduce(c, last)));
    case EAt(b, i, _) => ReduceInRange(c, b); ReduceInRange(c, i);
    case ECall(_, args) => ReduceAllInRange(c, args);
    case ESend(o, _, _, ps) => ReduceInRange(c, o); ReduceAllInRange(c, ps);
    case EAlias(a, b) => ReduceInRange(c, a); ReduceInRange(c, b);
    case _ => ReduceOperator(c, e);
  }

  lemma {:induction false} ReduceOperator(c: Config, e: Expr)
    requires InRange(c, e)
    requires !e.ERef? && !e.EArray? && !e.EIif? && !e.EList? && !e.EAt? && !e.ECall? && !e.ESend? && !e.EAlias?
    ensures InRange(c, Reduce(c, e))
    decreases e, 0
  {
    hide HasSymbol, SlotInRange, Strip, Rewritten;
    match e
    case EAssign(l, r) =>
      ReduceInRange(c, l);
      ReduceInRange(c, r);
      StripInRange(c, Reduce(c, l));
      RewrittenRight(c, Bare(c, Reduce(c, l)), Reduce(c, r));
    case EOpEq(_, l, r) => ReduceInRange(c, l); ReduceInRange(c, r); StripInRange(c, Reduce(c, l));
    case EStep(_, _, l) => ReduceInRange(c, l); StripInRange(c, Reduce(c, l));
    case ELogic(_, a, b) => ReduceInRange(c, a); ReduceInRange(c, b);
    case ENot(x) => ReduceInRange(c, x);
    case ENeg(x) => ReduceInRange(c, x);
    case EBin(_, a, b) => ReduceInRange(c, a); ReduceInRange(c, b);
    case _ =>
  }

  lemma RewrittenRight(c: Config, l: Expr, r: Expr)
    ensures Rewritten(c, l, r) && InRange(c, r) ==> r.EBin? && InRange(c, r.right)
  {
  }

  lemma {:induction false} ReduceAllInRange(c: Config, es: Exprs)
    requires AllInRange(c, es)
    ensures AllInRange(c, ReduceAll(c, es)) && Count(ReduceAll(c, es)) == Count(es)
    decreases es, 0
  {
    hide InRange, Reduce;
    match es
    case ENone =>
    case EMore(e, t) => ReduceInRange(c, e); ReduceAllInRange(c, t);
  }

  // ---------------------------------------------------------------- results

  /** The code of an expression in range: every operand fits if nothing is reported. */
  lemma FitsEncodable(c: Config, e: Expr)
    requires WellFormed(c, e) && InRange(c, e)
    ensures Fits(PushCode(c, e, End)) <==> AllEncodable(c, PushCode(c, e, End))
    ensures Fits(DropCode(c, e, End)) <==> AllEncodable(c, DropCode(c, e, End))
    ensures Target(c, e) ==> (Fits(PopCode(c, e, End)) <==> AllEncodable(c, PopCode(c, e, End)))
  {
    hide PushCode, DropCode, PopCode, Fits, AllEncodable, WellFormed, InRange, Target;
    assert AllSound(c, End);
    PushSound(c, e, End);
    SoundEncodable(c, PushCode(c, e, End));
    DropSound(c, e, End);
    SoundEncodable(c, DropCode(c, e, End));
    if Target(c, e) {
      PopSound(c, e, End);
      SoundEncodable(c, PopCode(c, e, End));
    }
  }
}
