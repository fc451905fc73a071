/** Pcode as bytes: the opcodes with their operands, and reading them back. */
module Encoding {
  import opened Values
  import opened Expressions
  import opened Pcode
  import opened Codec

  // ---------------------------------------------------------------- opcodes

  const AND: byte := 0
  const ARRAYPUSH: byte := 1
  const ARRAYPOP: byte := 2
  const ARRAYGEN: byte := 4
  const EQUAL: byte := 5
  const EXACTLYEQUAL: byte := 8
  const FALSE: byte := 9
  const FUNCTION: byte := 11
  const FUNCTIONSHORT: byte := 12
  const GREATER: byte := 15
  const GREATEREQUAL: byte := 16
  const DEC: byte := 17
  const DIVIDE: byte := 18
  const DO: byte := 19
  const DOSHORT: byte := 20
  const DUPLICATE: byte := 21
  const INC: byte := 23
  const INSTRING: byte := 24
  const JUMPFAR: byte := 27
  const JUMPFALSEFAR: byte := 30
  const JUMPTRUEFAR: byte := 33
  const LESSEQUAL: byte := 34
  const LESS: byte := 35
  const MESSAGE: byte := 48
  const MINUS: byte := 49
  const MODULUS: byte := 50
  const MULT: byte := 65
  const NEGATE: byte := 66
  const NOT: byte := 68
  const NOTEQUAL: byte := 69
  const OR: byte := 70
  const PLUS: byte := 72
  const POP: byte := 73
  const POPALIAS: byte := 74
  const POPFIELD: byte := 78
  const POPLOCAL: byte := 79
  const POPMEMVAR: byte := 81
  const POPSTATIC: byte := 82
  const POPVARIABLE: byte := 83
  const POWER: byte := 84
  const PUSHALIAS: byte := 85
  const PUSHFIELD: byte := 91
  const PUSHBYTE: byte := 92
  const PUSHINT: byte := 93
  const PUSHLOCAL: byte := 94
  const PUSHLOCALREF: byte := 96
  const PUSHLONG: byte := 97
  const PUSHMEMVAR: byte := 98
  const PUSHMEMVARREF: byte := 99
  const PUSHNIL: byte := 100
  const PUSHSTATIC: byte := 103
  const PUSHSTATICREF: byte := 104
  const PUSHSTR: byte := 105
  const PUSHSTRSHORT: byte := 106
  const PUSHVARIABLE: byte := 109
  const SEND: byte := 111
  const SENDSHORT: byte := 112
  const SWAPALIAS: byte := 119
  const TRUE: byte := 120
  const ZERO: byte := 121
  const ONE: byte := 122
  const PUSHLONGLONG: byte := 128
  const PLUSEQPOP: byte := 135
  const MINUSEQPOP: byte := 136
  const MULTEQPOP: byte := 137
  const DIVEQPOP: byte := 138
  const PLUSEQ: byte := 139
  const MINUSEQ: byte := 140
  const MULTEQ: byte := 141
  const DIVEQ: byte := 142
  const PUSHOVARREF: byte := 147
  const ARRAYPUSHREF: byte := 148
  const LOCALADDINT: byte := 153
  const MODEQPOP: byte := 154
  const EXPEQPOP: byte := 155
  const MODEQ: byte := 156
  const EXPEQ: byte := 157
  const DUPLUNREF: byte := 158
  const PUSHSTRLARGE: byte := 162
  const SWAP: byte := 163
  const PUSHUNREF: byte := 165
  const DECEQPOP: byte := 169
  const INCEQPOP: byte := 170
  const DECEQ: byte := 171
  const INCEQ: byte := 172
  const LOCALDEC: byte := 173
  const LOCALINC: byte := 174
  const LOCALINCPUSH: byte := 175
  const PUSHFUNCSYM: byte := 176

  function BinByte(op: BinOp): byte {
    match op
    case Plus => PLUS
    case Minus => MINUS
    case Mult => MULT
    case Div => DIVIDE
    case Mod => MODULUS
    case Power => POWER
    case Equal => EQUAL
    case ExactlyEqual => EXACTLYEQUAL
    case NotEqual => NOTEQUAL
    case Less => LESS
    case LessEqual => LESSEQUAL
    case Greater => GREATER
    case GreaterEqual => GREATEREQUAL
    case InString => INSTRING
  }

  /** An operator without a compound opcode keeps its plain opcode. */
  function OpEqByte(op: BinOp): byte {
    match op
    case Plus => PLUSEQ
    case Minus => MINUSEQ
    case Mult => MULTEQ
    case Div => DIVEQ
    case Mod => MODEQ
    case Power => EXPEQ
    case _ => BinByte(op)
  }

  function OpEqPopByte(op: BinOp): byte {
    match op
    case Plus => PLUSEQPOP
    case Minus => MINUSEQPOP
    case Mult => MULTEQPOP
    case Div => DIVEQPOP
    case Mod => MODEQPOP
    case Power => EXPEQPOP
    case _ => BinByte(op)
  }

  // ---------------------------------------------------------------- encoding

  function EncodeNum(n: int): seq<byte> {
    if n == 0 then [ZERO]
    else if n == 1 then [ONE]
    else if -128 <= n <= 127 then [PUSHBYTE] + LE(n, 1)
    else if -0x8000 <= n <= 0x7FFF then [PUSHINT] + LE(n, 2)
    else if -0x8000_0000 <= n <= 0x7FFF_FFFF then [PUSHLONG] + LE(n, 4)
    else [PUSHLONGLONG] + LE(n, 8)
  }

  /** The length counts the terminating NUL. */
  function EncodeStr(s: seq<byte>): seq<byte> {
    var n := |s| + 1;
    (if n > 0xFFFF then [PUSHSTRLARGE] + LE(n, 3)
     else if n > 0xFF then [PUSHSTR] + LE(n, 2)
     else [PUSHSTRSHORT] + LE(n, 1)) + s + [0]
  }

  function EncodeCount(short: byte, long: byte, n: nat): seq<byte> {
    if n > 255 then [long] + LE(n, 2) else [short] + LE(n, 1)
  }

  function Symbol(c: Config, op: byte, name: string): seq<byte> {
    [op] + LE(c.symbolIndex(name), 2)
  }

  /** The bytes that the hb_compGen* functions append for an instruction. */
  function Encode(c: Config, i: Instr): seq<byte> {
    match i
    case PushNil => [PUSHNIL]
    case PushNum(n) => EncodeNum(n)
    case PushStr(s) => EncodeStr(s)
    case PushLog(b) => [if b then TRUE else FALSE]
    case PushLocal(n) => [PUSHLOCAL] + LE(n, 2)
    case PopLocal(n) => [POPLOCAL] + LE(n, 2)
    case PushLocalRef(n) => [PUSHLOCALREF] + LE(n, 2)
    case PushStatic(n) => [PUSHSTATIC] + LE(n, 2)
    case PopStatic(n) => [POPSTATIC] + LE(n, 2)
    case PushStaticRef(n) => [PUSHSTATICREF] + LE(n, 2)
    case PushMemvar(n) => Symbol(c, PUSHMEMVAR, n)
    case PopMemvar(n) => Symbol(c, POPMEMVAR, n)
    case PushMemvarRef(n) => Symbol(c, PUSHMEMVARREF, n)
    case PushField(n) => Symbol(c, PUSHFIELD, n)
    case PopField(n) => Symbol(c, POPFIELD, n)
    case PushVariable(n) => Symbol(c, PUSHVARIABLE, n)
    case PopVariable(n) => Symbol(c, POPVARIABLE, n)
    case LocalAddInt(n, k) => [LOCALADDINT] + LE(n, 2) + LE(k, 2)
    case LocalInc(n) => [LOCALINC] + LE(n, 2)
    case LocalDec(n) => [LOCALDEC] + LE(n, 2)
    case LocalIncPush(n) => [LOCALINCPUSH] + LE(n, 2)
    case Duplicate => [DUPLICATE]
    case DuplUnref => [DUPLUNREF]
    case PushUnref => [PUSHUNREF]
    case Swap(n) => [SWAP] + LE(n, 1)
    case Pop => [POP]
    case Bin(op) => [BinByte(op)]
    case Neg => [NEGATE]
    case Not => [NOT]
    case And => [AND]
    case Or => [OR]
    case Inc => [INC]
    case Dec => [DEC]
    case OpEq(op) => [OpEqByte(op)]
    case OpEqPop(op) => [OpEqPopByte(op)]
    case StepEq(up) => [if up then INCEQ else DECEQ]
    case StepEqPop(up) => [if up then INCEQPOP else DECEQPOP]
    case ArrayPush => [ARRAYPUSH]
    case ArrayPushRef => [ARRAYPUSHREF]
    case ArrayPop => [ARRAYPOP]
    case ArrayGen(n) => [ARRAYGEN] + LE(n, 2)
    case Jump(d) => [JUMPFAR] + LE(d, 3)
    case JumpFalse(d) => [JUMPFALSEFAR] + LE(d, 3)
    case JumpTrue(d) => [JUMPTRUEFAR] + LE(d, 3)
    case PushFunSym(n) => Symbol(c, PUSHFUNCSYM, n)
    case Function(n) => EncodeCount(FUNCTIONSHORT, FUNCTION, n)
    case Do(n) => EncodeCount(DOSHORT, DO, n)
    case Message(n) => Symbol(c, MESSAGE, n)
    case Send(n) => EncodeCount(SENDSHORT, SEND, n)
    case PushOVarRef => [PUSHOVARREF]
    case PushAlias => [PUSHALIAS]
    case PopAlias => [POPALIAS]
    case SwapAlias => [SWAPALIAS]
    case Refused => [0]  // stands for nothing: the code is not used after an error
  }

  lemma EncodeSize(c: Config, i: Instr)
    ensures |Encode(c, i)| == Size(i)
  {
  }

  function Bytes(c: Config, code: Code): seq<byte> {
    match code
    case End => []
    case Then(i, t) => Encode(c, i) + Bytes(c, t)
  }

  lemma {:induction false} BytesSize(c: Config, code: Code)
    ensures |Bytes(c, code)| == CodeSize(code)
  {
    match code
    case End =>
    case Then(i, t) => EncodeSize(c, i); BytesSize(c, t);
  }

  lemma {:induction false} BytesAppend(c: Config, a: Code, b: Code)
    ensures Bytes(c, Append(a, b)) == Bytes(c, a) + Bytes(c, b)
  {
    match a
    case End =>
    case Then(_, t) => BytesAppend(c, t, b);
  }

  // ---------------------------------------------------------------- what fits

  predicate Int16(n: int) { -0x8000 <= n <= 0x7FFF }
  predicate Word(n: int) { 0 <= n <= 0xFFFF }
  predicate Int24(n: int) { -0x80_0000 <= n <= 0x7F_FFFF }

  /** The symbol table holds the name at a 16-bit index. */
  predicate Known(c: Config, name: string) {
    Word(c.symbolIndex(name)) && c.symbolName(c.symbolIndex(name)) == name
  }

  /** The operands fit into their fields. */
  predicate Encodable(c: Config, i: Instr) {
    match i
    case PushNum(n) => -0x8000_0000_0000_0000 <= n <= 0x7FFF_FFFF_FFFF_FFFF
    case PushStr(s) => |s| + 1 <= 0xFF_FFFF
    case PushLocal(n) => Int16(n)
    case PopLocal(n) => Int16(n)
    case PushLocalRef(n) => Int16(n)
    case PushStatic(n) => Word(n)
    case PopStatic(n) => Word(n)
    case PushStaticRef(n) => Word(n)
    case PushMemvar(n) => Known(c, n)
    case PopMemvar(n) => Known(c, n)
    case PushMemvarRef(n) => Known(c, n)
    case PushField(n) => Known(c, n)
    case PopField(n) => Known(c, n)
    case PushVariable(n) => Known(c, n)
    case PopVariable(n) => Known(c, n)
    case LocalAddInt(n, k) => Word(n) && Int16(k)
    case LocalInc(n) => Word(n)
    case LocalDec(n) => Word(n)
    case LocalIncPush(n) => Word(n)
    case Swap(n) => n <= 255
    case OpEq(op) => Compound(op)
    case OpEqPop(op) => Compound(op)
    case ArrayGen(n) => Word(n)
    case Jump(d) => Int24(d)
    case JumpFalse(d) => Int24(d)
    case JumpTrue(d) => Int24(d)
    case PushFunSym(n) => Known(c, n)
    case Function(n) => Word(n)
    case Do(n) => Word(n)
    case Message(n) => Known(c, n)
    case Send(n) => Word(n)
    case Refused => false
    case _ => true
  }

  /** What code generation accepts: an error is reported for a jump that is too long, for a string that
      is too long, and where no code can be generated. */
  predicate Fit(i: Instr) {
    match i
    case PushStr(s) => |s| + 1 <= 0xFF_FFFF
    case Jump(d) => Int24(d)
    case JumpFalse(d) => Int24(d)
    case JumpTrue(d) => Int24(d)
    case Refused => false
    case _ => true
  }

  predicate Fits(code: Code) {
    match code
    case End => true
    case Then(i, t) => Fit(i) && Fits(t)
  }

  lemma {:induction false} FitsAppend(a: Code, b: Code)
    ensures Fits(Append(a, b)) <==> Fits(a) && Fits(b)
  {
    match a
    case End =>
    case Then(_, t) => FitsAppend(t, b);
  }

  // ---------------------------------------------------------------- decoding

  function Operand(b: seq<byte>, k: nat): nat
    requires |b| > k
  {
    GetLE(b[1..1 + k])
  }

  function IntOperand(b: seq<byte>, k: nat): int
    requires |b| > k
  {
    Signed(GetLE(b[1..1 + k]), k)
  }

  /** Opcodes without an operand. */
  function Plain(op: byte): Option<Instr> {
    if op == PUSHNIL then Some(PushNil)
    else if op == ZERO then Some(PushNum(0))
    else if op == ONE then Some(PushNum(1))
    else if op == TRUE then Some(PushLog(true))
    else if op == FALSE then Some(PushLog(false))
    else if op == DUPLICATE then Some(Duplicate)
    else if op == DUPLUNREF then Some(DuplUnref)
    else if op == PUSHUNREF then Some(PushUnref)
    else if op == POP then Some(Pop)
    else if op == NEGATE then Some(Neg)
    else if op == NOT then Some(Not)
    else if op == AND then Some(And)
    else if op == OR then Some(Or)
    else if op == INC then Some(Inc)
    else if op == DEC then Some(Dec)
    else if op == ARRAYPUSH then Some(ArrayPush)
    else if op == ARRAYPUSHREF then Some(ArrayPushRef)
    else if op == ARRAYPOP then Some(ArrayPop)
    else if op == PUSHOVARREF then Some(PushOVarRef)
    else if op == PUSHALIAS then Some(PushAlias)
    else if op == POPALIAS then Some(PopAlias)
    else if op == SWAPALIAS then Some(SwapAlias)
    else if op == INCEQ then Some(StepEq(true))
    else if op == DECEQ then Some(StepEq(false))
    else if op == INCEQPOP then Some(StepEqPop(true))
    else if op == DECEQPOP then Some(StepEqPop(false))
    else Operator(op)
  }

  function Operator(op: byte): Option<Instr> {
    if op == PLUS then Some(Bin(BinOp.Plus))
    else if op == MINUS then Some(Bin(BinOp.Minus))
    else if op == MULT then Some(Bin(BinOp.Mult))
    else if op == DIVIDE then Some(Bin(BinOp.Div))
    else if op == MODULUS then Some(Bin(BinOp.Mod))
    else if op == POWER then Some(Bin(BinOp.Power))
    else if op == EQUAL then Some(Bin(BinOp.Equal))
    else if op == EXACTLYEQUAL then Some(Bin(BinOp.ExactlyEqual))
    else if op == NOTEQUAL then Some(Bin(BinOp.NotEqual))
    else if op == LESS then Some(Bin(BinOp.Less))
    else if op == LESSEQUAL then Some(Bin(BinOp.LessEqual))
    else if op == GREATER then Some(Bin(BinOp.Greater))
    else if op == GREATEREQUAL then Some(Bin(BinOp.GreaterEqual))
    else if op == INSTRING then Some(Bin(BinOp.InString))
    else if op == PLUSEQ then Some(OpEq(BinOp.Plus))
    else if op == MINUSEQ then Some(OpEq(BinOp.Minus))
    else if op == MULTEQ then Some(OpEq(BinOp.Mult))
    else if op == DIVEQ then Some(OpEq(BinOp.Div))
    else if op == MODEQ then Some(OpEq(BinOp.Mod))
    else if op == EXPEQ then Some(OpEq(BinOp.Power))
    else if op == PLUSEQPOP then Some(OpEqPop(BinOp.Plus))
    else if op == MINUSEQPOP then Some(OpEqPop(BinOp.Minus))
    else if op == MULTEQPOP then Some(OpEqPop(BinOp.Mult))
    else if op == DIVEQPOP then Some(OpEqPop(BinOp.Div))
    else if op == MODEQPOP then Some(OpEqPop(BinOp.Mod))
    else if op == EXPEQPOP then Some(OpEqPop(BinOp.Power))
    else None
  }

  /** Opcodes with a one-byte operand. */
  function Short(op: byte, b: seq<byte>): Option<Instr>
    requires |b| > 1
  {
    if op == PUSHBYTE then Some(PushNum(IntOperand(b, 1)))
    else if op == SWAP then Some(Swap(Operand(b, 1)))
    else if op == FUNCTIONSHORT then Some(Function(Operand(b, 1)))
    else if op == DOSHORT then Some(Do(Operand(b, 1)))
    else if op == SENDSHORT then Some(Send(Operand(b, 1)))
    else None
  }

  /** Opcodes with a two-byte operand. */
  function Long(c: Config, op: byte, b: seq<byte>): Option<Instr>
    requires |b| > 2
  {
    var u, i, name := Operand(b, 2), IntOperand(b, 2), c.symbolName(Operand(b, 2));
    if op == PUSHINT then Some(PushNum(i))
    else if op == PUSHLOCAL then Some(PushLocal(i))
    else if op == POPLOCAL then Some(PopLocal(i))
    else if op == PUSHLOCALREF then Some(PushLocalRef(i))
    else if op == PUSHSTATIC then Some(PushStatic(u))
    else if op == POPSTATIC then Some(PopStatic(u))
    else if op == PUSHSTATICREF then Some(PushStaticRef(u))
    else if op == PUSHMEMVAR then Some(PushMemvar(name))
    else if op == POPMEMVAR then Some(PopMemvar(name))
    else if op == PUSHMEMVARREF then Some(PushMemvarRef(name))
    else if op == PUSHFIELD then Some(PushField(name))
    else if op == POPFIELD then Some(PopField(name))
    else if op == PUSHVARIABLE then Some(PushVariable(name))
    else if op == POPVARIABLE then Some(PopVariable(name))
    else if op == LOCALINC then Some(LocalInc(u))
    else if op == LOCALDEC then Some(LocalDec(u))
    else if op == LOCALINCPUSH then Some(LocalIncPush(u))
    else if op == ARRAYGEN then Some(ArrayGen(u))
    else if op == PUSHFUNCSYM then Some(PushFunSym(name))
    else if op == FUNCTION then Some(Function(u))
    else if op == DO then Some(Do(u))
    else if op == MESSAGE then Some(Message(name))
    else if op == SEND then Some(Send(u))
    else None
  }

  /** Opcodes with longer operands. */
  function Wide(op: byte, b: seq<byte>): Option<Instr>
    requires |b| > 0
  {
    if op == JUMPFAR && |b| > 3 then Some(Jump(IntOperand(b, 3)))
    else if op == JUMPFALSEFAR && |b| > 3 then Some(JumpFalse(IntOperand(b, 3)))
    else if op == JUMPTRUEFAR && |b| > 3 then Some(JumpTrue(IntOperand(b, 3)))
    else if op == PUSHLONG && |b| > 4 then Some(PushNum(IntOperand(b, 4)))
    else if op == PUSHLONGLONG && |b| > 8 then Some(PushNum(IntOperand(b, 8)))
    else if op == LOCALADDINT && |b| > 4 then Some(LocalAddInt(Operand(b, 2), Signed(GetLE(b[3..5]), 2)))
    else if op == PUSHSTRSHORT && |b| > 1 then Text(b, 2, Operand(b, 1))
    else if op == PUSHSTR && |b| > 2 then Text(b, 3, Operand(b, 2))
    else if op == PUSHSTRLARGE && |b| > 3 then Text(b, 4, Operand(b, 3))
    else None
  }

  /** A string constant of n bytes, the last of them NUL. */
  function Text(b: seq<byte>, header: nat, n: nat): Option<Instr> {
    if n > 0 && |b| >= header + n then Some(PushStr(b[header..header + n - 1])) else None
  }

  /** The instruction at the start of b. */
  function Decode(c: Config, b: seq<byte>): Option<Instr> {
    if b == [] then None
    else if Plain(b[0]).Some? then Plain(b[0])
    else if |b| > 1 && Short(b[0], b).Some? then Short(b[0], b)
    else if |b| > 2 && Long(c, b[0], b).Some? then Long(c, b[0], b)
    else Wide(b[0], b)
  }

  lemma OperandOf(op: byte, n: int, k: nat, rest: seq<byte>)
    ensures var b := [op] + LE(n, k) + rest; |b| > k && b[0] == op && b[1..1 + k] == LE(n, k)
    ensures 0 <= n < Pow256(k) ==> Operand([op] + LE(n, k) + rest, k) == n
    ensures k > 0 && -(Pow256(k) / 2) <= n < Pow256(k) / 2 ==> IntOperand([op] + LE(n, k) + rest, k) == n
  {
    var b := [op] + LE(n, k) + rest;
    assert b[1..1 + k] == LE(n, k);
    UnsignedExact(n, k);
    if k > 0 { SignedExact(n, k); }
  }

  /** Decoding undoes encoding, whatever follows. */
  lemma DecodeEncode(c: Config, i: Instr, rest: seq<byte>)
    requires Encodable(c, i)
    ensures Decode(c, Encode(c, i) + rest) == Some(i)
  {
    hide Decode, Encode, Encodable;
    if i.Function? || i.Do? || i.Send? {
      DecodeCount(c, i, i.count, rest);
    } else if i.Jump? || i.JumpFalse? || i.JumpTrue? {
      DecodeJump(c, i, i.offset, rest);
    } else if Variable(i) {
      DecodeVariable(c, i, rest);
    } else {
      DecodeOther(c, i, rest);
    }
  }

  lemma DecodeVariable(c: Config, i: Instr, rest: seq<byte>)
    requires Encodable(c, i) && (i.PushNum? || i.PushStr? || i.LocalAddInt? || i.Swap?)
    ensures Decode(c, Encode(c, i) + rest) == Some(i)
  {
    hide Decode, Encode, Encodable;
    match i
    case PushNum(n) => DecodeNum(c, n, rest);
    case PushStr(s) => DecodeStr(c, s, rest);
    case LocalAddInt(n, k) =>
      AddIntFits(c, n, k);
      DecodeAddInt(c, n, k, rest);
    case Swap(n) => DecodeSwap(c, n, rest);
  }

  /** Instructions whose operand takes one of several forms, or more or less than two bytes. */
  predicate Variable(i: Instr) {
    i.PushNum? || i.PushStr? || i.LocalAddInt? || i.Function? || i.Do? || i.Send? || i.Swap? || i.Jump? || i.JumpFalse? || i.JumpTrue?
  }

  lemma DecodeOther(c: Config, i: Instr, rest: seq<byte>)
    requires Encodable(c, i)
    requires !Variable(i)
    ensures Decode(c, Encode(c, i) + rest) == Some(i)
  {
    hide Decode, LE;
    if SymbolOf(i).Some? { DecodeSymbol(c, i, rest); }
    else if |Encode(c, i)| == 1 { DecodePlain(c, i, rest); }
    else { DecodeLong(c, i, rest); }
  }

  lemma DecodePlain(c: Config, i: Instr, rest: seq<byte>)
    requires Encodable(c, i) && |Encode(c, i)| == 1 && !i.PushNum?
    ensures Decode(c, Encode(c, i) + rest) == Some(i)
  {
    hide LE, Short, Long, Wide, Plain, Encodable;
    if i.Bin? || i.OpEq? || i.OpEqPop? { PlainOperator(c, i); } else { PlainOther(c, i); }
  }

  lemma PlainOperator(c: Config, i: Instr)
    requires Encodable(c, i) && (i.Bin? || i.OpEq? || i.OpEqPop?)
    ensures Encode(c, i) != [] && Plain(Encode(c, i)[0]) == Some(i)
  {
    hide LE;
  }

  lemma PlainOther(c: Config, i: Instr)
    requires Encodable(c, i) && |Encode(c, i)| == 1 && !i.PushNum? && !i.Bin? && !i.OpEq? && !i.OpEqPop?
    ensures Plain(Encode(c, i)[0]) == Some(i)
  {
    hide LE, Operator;
  }

  lemma DecodeSwap(c: Config, n: nat, rest: seq<byte>)
    requires Encodable(c, Swap(n))
    ensures Decode(c, Encode(c, Swap(n)) + rest) == Some(Swap(n))
  {
    hide LE, Pow256, Long, Wide, Operand, IntOperand;
    Widths();
    OperandOf(SWAP, n, 1, rest);
  }

  lemma DecodeJump(c: Config, i: Instr, d: int, rest: seq<byte>)
    requires Encodable(c, i) && (i == Jump(d) || i == JumpFalse(d) || i == JumpTrue(d))
    ensures Decode(c, Encode(c, i) + rest) == Some(i)
  {
    hide LE, Pow256, Operand, IntOperand, Plain;
    NotPlain(Encode(c, i)[0]);
    Widths();
    OperandOf(Encode(c, i)[0], d, 3, rest);
  }

  lemma DecodeUnit(c: Config, rest: seq<byte>)
    ensures Decode(c, [ZERO] + rest) == Some(PushNum(0)) && Decode(c, [ONE] + rest) == Some(PushNum(1))
  {
    hide Short, Long, Wide;
  }

  lemma DecodeNum(c: Config, n: int, rest: seq<byte>)
    requires Encodable(c, PushNum(n))
    ensures Decode(c, Encode(c, PushNum(n)) + rest) == Some(PushNum(n))
  {
    hide LE, Pow256, Operand, IntOperand, Plain;
    NotPlain(PUSHBYTE);
    NotPlain(PUSHINT);
    NotPlain(PUSHLONG);
    NotPlain(PUSHLONGLONG);
    DecodeUnit(c, rest);
    Widths();
    OperandOf(PUSHBYTE, n, 1, rest);
    OperandOf(PUSHINT, n, 2, rest);
    OperandOf(PUSHLONG, n, 4, rest);
    OperandOf(PUSHLONGLONG, n, 8, rest);
  }

  lemma DecodeStr(c: Config, s: seq<byte>, rest: seq<byte>)
    requires Encodable(c, PushStr(s))
    ensures Decode(c, Encode(c, PushStr(s)) + rest) == Some(PushStr(s))
  {
    hide LE, Pow256, Operand, IntOperand, Plain;
    NotPlain(EncodeStr(s)[0]);
    Widths();
    var n, tail := |s| + 1, s + [0] + rest;
    var k := if n > 0xFFFF then 3 else if n > 0xFF then 2 else 1;
    var op := if n > 0xFFFF then PUSHSTRLARGE else if n > 0xFF then PUSHSTR else PUSHSTRSHORT;
    var b := [op] + LE(n, k) + tail;
    assert EncodeStr(s) + rest == b;
    OperandOf(op, n, k, tail);
    assert b[1 + k..][..|s|] == s;
    assert b[1 + k..1 + k + n - 1] == s;
  }

  lemma AddIntFits(c: Config, n: nat, k: int)
    requires Encodable(c, LocalAddInt(n, k))
    ensures Word(n) && Int16(k)
  {
  }

  /** LOCALADDINT reads back the number that was meant if and only if that fits in 16 bits. */
  lemma DecodeAddInt(c: Config, n: nat, k: int, rest: seq<byte>)
    requires Word(n)
    ensures Decode(c, Encode(c, LocalAddInt(n, k)) + rest) == Some(LocalAddInt(n, k)) <==> Int16(k)
  {
    hide LE, Pow256, Operand, IntOperand;
    Widths();
    var b := Encode(c, LocalAddInt(n, k)) + rest;
    assert b == [LOCALADDINT] + LE(n, 2) + (LE(k, 2) + rest);
    OperandOf(LOCALADDINT, n, 2, LE(k, 2) + rest);
    assert b[3..5] == LE(k, 2);
    SignedExact(k, 2);
  }

  lemma DecodeCount(c: Config, i: Instr, n: nat, rest: seq<byte>)
    requires Encodable(c, i) && (i == Function(n) || i == Do(n) || i == Send(n))
    ensures Decode(c, Encode(c, i) + rest) == Some(i)
  {
    hide LE, Pow256, Operand, IntOperand, Wide, Plain;
    NotPlain(Encode(c, i)[0]);
    Widths();
    OperandOf(Encode(c, i)[0], n, if n > 255 then 2 else 1, rest);
  }

  /** Instructions whose operand is a symbol. */
  function SymbolOf(i: Instr): Option<string> {
    match i
    case PushMemvar(n) => Some(n)
    case PopMemvar(n) => Some(n)
    case PushMemvarRef(n) => Some(n)
    case PushField(n) => Some(n)
    case PopField(n) => Some(n)
    case PushVariable(n) => Some(n)
    case PopVariable(n) => Some(n)
    case PushFunSym(n) => Some(n)
    case Message(n) => Some(n)
    case _ => None
  }

  lemma DecodeSymbol(c: Config, i: Instr, rest: seq<byte>)
    requires Encodable(c, i) && SymbolOf(i).Some?
    ensures Decode(c, Encode(c, i) + rest) == Some(i)
  {
    hide LE, Pow256, Operand, IntOperand, Wide, Short, Plain;
    NotPlain(Encode(c, i)[0]);
    Widths();
    OperandOf(Encode(c, i)[0], c.symbolIndex(SymbolOf(i).value), 2, rest);
    ShortOnly(Encode(c, i)[0], Encode(c, i) + rest);
  }

  /** An opcode with an operand is not one without. */
  lemma NotPlain(op: byte)
    requires op in {PUSHBYTE, SWAP, FUNCTIONSHORT, DOSHORT, SENDSHORT, PUSHINT, PUSHLOCAL, POPLOCAL, PUSHLOCALREF,
      PUSHSTATIC, POPSTATIC, PUSHSTATICREF, PUSHMEMVAR, POPMEMVAR, PUSHMEMVARREF, PUSHFIELD, POPFIELD, PUSHVARIABLE,
      POPVARIABLE, LOCALINC, LOCALDEC, LOCALINCPUSH, ARRAYGEN, PUSHFUNCSYM, FUNCTION, DO, MESSAGE, SEND, JUMPFAR,
      JUMPFALSEFAR, JUMPTRUEFAR, PUSHLONG, PUSHLONGLONG, LOCALADDINT, PUSHSTRSHORT, PUSHSTR, PUSHSTRLARGE}
    ensures Plain(op) == None
  {
  }

  lemma ShortOnly(op: byte, b: seq<byte>)
    requires |b| > 1 && op !in {PUSHBYTE, SWAP, FUNCTIONSHORT, DOSHORT, SENDSHORT}
    ensures Short(op, b) == None
  {
  }

  /** The other instructions with a two-byte operand. */
  lemma DecodeLong(c: Config, i: Instr, rest: seq<byte>)
    requires Encodable(c, i) && |Encode(c, i)| == 3 && SymbolOf(i).None?
    requires !i.PushNum? && !i.PushStr? && !i.Function? && !i.Do? && !i.Send?
    ensures Decode(c, Encode(c, i) + rest) == Some(i)
  {
    hide LE, Pow256, Operand, IntOperand, Wide, Short, Plain;
    NotPlain(Encode(c, i)[0]);
    Widths();
    var op, n := Encode(c, i)[0], LongOperand(i);
    assert Encode(c, i) == [op] + LE(n, 2);
    OperandOf(op, n, 2, rest);
    ShortOnly(op, Encode(c, i) + rest);
  }

  function LongOperand(i: Instr): int {
    match i
    case PushLocal(n) => n
    case PopLocal(n) => n
    case PushLocalRef(n) => n
    case PushStatic(n) => n
    case PopStatic(n) => n
    case PushStaticRef(n) => n
    case LocalInc(n) => n
    case LocalDec(n) => n
    case LocalIncPush(n) => n
    case ArrayGen(n) => n
    case _ => 0
  }
}
