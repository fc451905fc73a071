/** The numbers of the opcodes, as include/hbpcode.h has them: which byte each instruction begins with,
    and which instruction the machine runs for a byte. */
module Opcodes {
  import opened Values
  import opened Expressions
  import opened Pcode
  import opened Compiler
  import opened Codec
  import opened Encoding

  function Number(i: Instr): byte {
    match i
    case PushNil => 100
    case PushNum(n) =>
      if n == 0 then 121 else if n == 1 then 122
      else if -128 <= n <= 127 then 92 else if -32768 <= n <= 32767 then 93
      else if -2147483648 <= n <= 2147483647 then 97 else 128
    case PushStr(s) => if |s| <= 254 then 106 else if |s| <= 65534 then 105 else 162
    case PushLog(b) => if b then 120 else 9
    case PushLocal(_) => 94
    case PopLocal(_) => 79
    case PushLocalRef(_) => 96
    case PushStatic(_) => 103
    case PopStatic(_) => 82
    case PushStaticRef(_) => 104
    case PushMemvar(_) => 98
    case PopMemvar(_) => 81
    case PushMemvarRef(_) => 99
    case PushField(_) => 91
    case PopField(_) => 78
    case PushVariable(_) => 109
    case PopVariable(_) => 83
    case LocalAddInt(_, _) => 153
    case LocalInc(_) => 174
    case LocalDec(_) => 173
    case LocalIncPush(_) => 175
    case Duplicate => 21
    case DuplUnref => 158
    case PushUnref => 165
    case Swap(_) => 163
    case Pop => 73
    case Bin(op) => BinNumber(op)
    case Neg => 66
    case Not => 68
    case And => 0
    case Or => 70
    case Inc => 23
    case Dec => 17
    case OpEq(op) => OpEqNumber(op, true)
    case OpEqPop(op) => OpEqNumber(op, false)
    case StepEq(up) => if up then 172 else 171
    case StepEqPop(up) => if up then 170 else 169
    case ArrayPush => 1
    case ArrayPushRef => 148
    case ArrayPop => 2
    case ArrayGen(_) => 4
    case Jump(_) => 27
    case JumpFalse(_) => 30
    case JumpTrue(_) => 33
    case PushFunSym(_) => 176
    case Function(n) => if n <= 255 then 12 else 11
    case Do(n) => if n <= 255 then 20 else 19
    case Message(_) => 48
    case Send(n) => if n <= 255 then 112 else 111
    case PushOVarRef => 147
    case PushAlias => 85
    case PopAlias => 74
    case SwapAlias => 119
    case Refused => 0
  }

  function BinNumber(op: BinOp): byte {
    match op
    case Plus => 72
    case Minus => 49
    case Mult => 65
    case Div => 18
    case Mod => 50
    case Power => 84
    case Equal => 5
    case ExactlyEqual => 8
    case NotEqual => 69
    case Less => 35
    case LessEqual => 34
    case Greater => 15
    case GreaterEqual => 16
    case InString => 24
  }

  function OpEqNumber(op: BinOp, wanted: bool): byte {
    match op
    case Plus => if wanted then 139 else 135
    case Minus => if wanted then 140 else 136
    case Mult => if wanted then 141 else 137
    case Div => if wanted then 142 else 138
    case Mod => if wanted then 156 else 154
    case Power => if wanted then 157 else 155
    case _ => BinNumber(op)
  }

  /** Two bytes of a number, the lower one first. */
  function Word2(n: int): seq<byte> {
    [n % 256, n / 256 % 256]
  }

  function Word3(n: int): seq<byte> {
    [n % 256, n / 256 % 256, n / 65536 % 256]
  }

  function Word4(n: int): seq<byte> {
    [n % 256, n / 256 % 256, n / 65536 % 256, n / 16777216 % 256]
  }

  /** What follows the opcode. */
  function Operands(c: Config, i: Instr): seq<byte> {
    match i
    case PushNum(n) =>
      if n == 0 || n == 1 then [] else if -128 <= n <= 127 then [n % 256] else if -32768 <= n <= 32767 then Word2(n)
      else if -2147483648 <= n <= 2147483647 then Word4(n) else Word4(n) + Word4(n / 4294967296)
    case PushStr(s) =>
      (if |s| <= 254 then [|s| + 1] else if |s| <= 65534 then Word2(|s| + 1) else Word3(|s| + 1)) + s + [0]
    case LocalAddInt(n, k) => Word2(n) + Word2(k)
    case Swap(n) => [n % 256]
    case Jump(d) => Word3(d)
    case JumpFalse(d) => Word3(d)
    case JumpTrue(d) => Word3(d)
    case Function(n) => if n <= 255 then [n] else Word2(n)
    case Do(n) => if n <= 255 then [n] else Word2(n)
    case Send(n) => if n <= 255 then [n] else Word2(n)
    case _ => Word(c, i)
  }

  /** Slots, counts and symbol numbers of two bytes; the other instructions have no operand. */
  function Word(c: Config, i: Instr): seq<byte> {
    match i
    case PushLocal(n) => Word2(n)
    case PopLocal(n) => Word2(n)
    case PushLocalRef(n) => Word2(n)
    case PushStatic(n) => Word2(n)
    case PopStatic(n) => Word2(n)
    case PushStaticRef(n) => Word2(n)
    case LocalInc(n) => Word2(n)
    case LocalDec(n) => Word2(n)
    case LocalIncPush(n) => Word2(n)
    case ArrayGen(n) => Word2(n)
    case PushMemvar(n) => Word2(c.symbolIndex(n))
    case PopMemvar(n) => Word2(c.symbolIndex(n))
    case PushMemvarRef(n) => Word2(c.symbolIndex(n))
    case PushField(n) => Word2(c.symbolIndex(n))
    case PopField(n) => Word2(c.symbolIndex(n))
    case PushVariable(n) => Word2(c.symbolIndex(n))
    case PopVariable(n) => Word2(c.symbolIndex(n))
    case PushFunSym(n) => Word2(c.symbolIndex(n))
    case Message(n) => Word2(c.symbolIndex(n))
    case _ => []
  }

  lemma LEWords(n: int)
    ensures LE(n, 1) == [n % 256] && LE(n, 2) == Word2(n) && LE(n, 3) == Word3(n) && LE(n, 4) == Word4(n)
    ensures LE(n, 8) == Word4(n) + Word4(n / 4294967296)
  {
    hide LE, Shift;
    Bytes4(n);
    LEPrefix(n, 3);
    LEPrefix(n, 2);
    LEPrefix(n, 1);
    assert LE(n, 3) == LE(n, 4)[..3] && LE(n, 2) == LE(n, 3)[..2] && LE(n, 1) == LE(n, 2)[..1];
    LEConcat(n, 4, 4);
    Shift4(n);
    Bytes4(n / 4294967296);
  }

  /** The bytes of an instruction: the number of its opcode and its operand, in the form that is chosen. */
  lemma EncodedBytes(c: Config, i: Instr)
    requires !i.Refused?
    ensures Encode(c, i) == [Number(i)] + Operands(c, i)
  {
    hide LE, Number, Operands, Word2, Word3, Word4, Encode;
    if i.PushNum? { NumberBytes(c, i.n); }
    else if i.PushStr? { StringBytes(c, i.s); }
    else if i.LocalAddInt? || i.Swap? || i.Jump? || i.JumpFalse? || i.JumpTrue? { OtherBytes(c, i); }
    else if i.Function? || i.Do? || i.Send? { CountBytes(c, i); }
    else { WordBytes(c, i); }
  }

  lemma NumberBytes(c: Config, n: int)
    ensures Encode(c, PushNum(n)) == [Number(PushNum(n))] + Operands(c, PushNum(n))
  {
    hide LE, Word2, Word3, Word4;
    LEWords(n);
  }

  lemma StringBytes(c: Config, s: seq<byte>)
    ensures Encode(c, PushStr(s)) == [Number(PushStr(s))] + Operands(c, PushStr(s))
  {
    hide LE, Word2, Word3, Word4;
    LEWords(|s| + 1);
  }

  lemma OtherBytes(c: Config, i: Instr)
    requires i.LocalAddInt? || i.Swap? || i.Jump? || i.JumpFalse? || i.JumpTrue?
    ensures Encode(c, i) == [Number(i)] + Operands(c, i)
  {
    hide LE, Word2, Word3, Word4;
    if i.LocalAddInt? {
      LEWords(i.index);
      LEWords(i.k);
    } else if i.Swap? {
      LEWords(i.count);
    } else {
      LEWords(i.offset);
    }
  }

  lemma CountBytes(c: Config, i: Instr)
    requires i.Function? || i.Do? || i.Send?
    ensures Encode(c, i) == [Number(i)] + Operands(c, i)
  {
    hide LE, Word2, Word3, Word4;
    LEWords(i.count);
  }

  lemma WordBytes(c: Config, i: Instr)
    requires !i.PushNum? && !i.PushStr? && !i.LocalAddInt? && !i.Swap? && !i.Jump? && !i.JumpFalse? && !i.JumpTrue?
    requires !i.Function? && !i.Do? && !i.Send? && !i.Refused?
    ensures Encode(c, i) == [Number(i)] + Operands(c, i)
  {
    hide LE, Word2, Word3, Word4;
    forall n: int ensures LE(n, 2) == Word2(n) { LEWords(n); }
  }

  // ---------------------------------------------------------------- the other direction

  /** The opcodes at which the machine does i: those of the chosen form and of the longer ones. */
  predicate RunsAt(op: byte, i: Instr) {
    || op == Number(i)
    || (i.PushNum? && op in {92, 93, 97, 128}) || (i.PushStr? && op in {105, 106, 162})
    || (i.Function? && op in {11, 12}) || (i.Do? && op in {19, 20}) || (i.Send? && op in {111, 112})
  }

  /** The machine does an instruction only where one of its opcodes is. */
  lemma DecodedNumber(c: Config, b: seq<byte>)
    requires Decode(c, b).Some?
    ensures b != [] && RunsAt(b[0], Decode(c, b).value) && !Decode(c, b).value.Refused?
  {
    hide Plain, Short, Long, Wide, RunsAt;
    var op := b[0];
    PlainNumber(op);
    if Plain(op).None? && |b| > 1 { ShortNumber(op, b); }
    if Plain(op).None? && |b| > 2 { LongNumber(c, op, b); }
    if Plain(op).None? { WideNumber(op, b); }
  }

  lemma PlainNumber(op: byte)
    ensures Plain(op).Some? ==> RunsAt(op, Plain(op).value) && !Plain(op).value.Refused?
  {
    hide Plain, Operator, Number;
    PlainOwn(op);
    OperatorNumber(op);
  }

  lemma PlainOwn(op: byte)
    ensures Plain(op).Some? && Plain(op) != Operator(op) ==> Number(Plain(op).value) == op && !Plain(op).value.Refused?
  {
    hide Operator, BinNumber, OpEqNumber;
  }

  lemma OperatorNumber(op: byte)
    ensures Operator(op).Some? ==> RunsAt(op, Operator(op).value) && !Operator(op).value.Refused?
  {
  }

  lemma ShortNumber(op: byte, b: seq<byte>)
    requires |b| > 1
    ensures Short(op, b).Some? ==> RunsAt(op, Short(op, b).value) && !Short(op, b).value.Refused?
  {
  }

  lemma LongNumber(c: Config, op: byte, b: seq<byte>)
    requires |b| > 2
    ensures Long(c, op, b).Some? ==> RunsAt(op, Long(c, op, b).value) && !Long(c, op, b).value.Refused?
  {
  }

  lemma WideNumber(op: byte, b: seq<byte>)
    requires |b| > 0
    ensures Wide(op, b).Some? ==> RunsAt(op, Wide(op, b).value) && !Wide(op, b).value.Refused?
  {
    hide Signed, GetLE;
  }

  // ---------------------------------------------------------------- a program

  /** The bytes of `iif( .T., 1, 2 )`. */
  lemma IifBytes(c: Config)
    ensures Bytes(c, PushCode(c, EIif(ELog(true), ENum(1), ENum(2)), End)) == [120, 30, 9, 0, 0, 122, 27, 6, 0, 0, 92, 2]
  {
    hide Encode, Bytes, PushCode, Operands, Number;
    IifCode(c);
    FiveBytes(c, PushLog(true), JumpFalse(9), PushNum(1), Jump(6), PushNum(2));
    EncodedBytes(c, PushLog(true));
    EncodedBytes(c, JumpFalse(9));
    EncodedBytes(c, PushNum(1));
    EncodedBytes(c, Jump(6));
    EncodedBytes(c, PushNum(2));
    IifOperands(c);
  }

  lemma IifOperands(c: Config)
    ensures Number(PushLog(true)) == 120 && Number(JumpFalse(9)) == 30 && Number(PushNum(1)) == 122 && Number(Jump(6)) == 27
    ensures Number(PushNum(2)) == 92 && Operands(c, PushLog(true)) == [] && Operands(c, JumpFalse(9)) == [9, 0, 0]
    ensures Operands(c, PushNum(1)) == [] && Operands(c, Jump(6)) == [6, 0, 0] && Operands(c, PushNum(2)) == [2]
  {
  }

  lemma IifCode(c: Config)
    ensures PushCode(c, EIif(ELog(true), ENum(1), ENum(2)), End)
         == Then(PushLog(true), Then(JumpFalse(9), Then(PushNum(1), Then(Jump(6), Then(PushNum(2), End)))))
  {
    var a, b := Then(PushNum(1), End), Then(PushNum(2), End);
    assert PushCode(c, ENum(1), End) == a && PushCode(c, ENum(2), End) == b && CodeSize(a) == 1 && CodeSize(b) == 2;
  }

  lemma FiveBytes(c: Config, i: Instr, j: Instr, k: Instr, l: Instr, m: Instr)
    ensures Bytes(c, Then(i, Then(j, Then(k, Then(l, Then(m, End)))))) == Encode(c, i) + Encode(c, j) + Encode(c, k) + Encode(c, l) + Encode(c, m)
  {
    hide Encode, Bytes;
    FirstBytes(c, m, End);
    assert Bytes(c, End) == [] by { NoBytes(c); }
    FirstBytes(c, l, Then(m, End));
    FirstBytes(c, k, Then(l, Then(m, End)));
    FirstBytes(c, j, Then(k, Then(l, Then(m, End))));
    FirstBytes(c, i, Then(j, Then(k, Then(l, Then(m, End)))));
    Joined(Encode(c, i), Encode(c, j), Encode(c, k), Encode(c, l), Encode(c, m));
  }

  lemma FirstBytes(c: Config, i: Instr, k: Code)
    ensures Bytes(c, Then(i, k)) == Encode(c, i) + Bytes(c, k)
  {
    hide Encode;
  }

  lemma NoBytes(c: Config)
    ensures Bytes(c, End) == []
  {
  }

  lemma Joined(a: seq<byte>, b: seq<byte>, c: seq<byte>, d: seq<byte>, e: seq<byte>)
    ensures a + (b + (c + (d + (e + [])))) == a + b + c + d + e
  {
  }
}
