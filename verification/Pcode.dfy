/** Pcode instructions and what the virtual machine does for each of them.  Code is kept as
    the list of the instructions still to run, which is all a machine with forward jumps needs;
    ByteMachine.dfy has the machine that runs encoded bytes. */
module Pcode {
  import opened Values

  datatype Instr =
    | PushNil | PushNum(n: int) | PushStr(s: seq<byte>) | PushLog(b: bool)
    | PushLocal(slot: int) | PopLocal(slot: int) | PushLocalRef(slot: int)
    | PushStatic(number: nat) | PopStatic(number: nat) | PushStaticRef(number: nat)
    | PushMemvar(name: string) | PopMemvar(name: string) | PushMemvarRef(name: string)
    | PushField(name: string) | PopField(name: string)
    | PushVariable(name: string) | PopVariable(name: string)
    | LocalAddInt(index: nat, k: int) | LocalInc(index: nat) | LocalDec(index: nat) | LocalIncPush(index: nat)
    | Duplicate | DuplUnref | PushUnref | Swap(count: nat) | Pop
    | Bin(op: BinOp) | Neg | Not | And | Or | Inc | Dec
    | OpEq(op: BinOp) | OpEqPop(op: BinOp) | StepEq(up: bool) | StepEqPop(up: bool)
    | ArrayPush | ArrayPushRef | ArrayPop | ArrayGen(items: nat)
    | Jump(offset: int) | JumpFalse(offset: int) | JumpTrue(offset: int)
    | PushFunSym(name: string) | Function(count: nat) | Do(count: nat)
    | Message(name: string) | Send(count: nat) | PushOVarRef
    | PushAlias | PopAlias | SwapAlias
    | Refused  // stands where the compiler reports an error and generates nothing

  datatype Stack = Empty | On(top: Item, below: Stack)

  datatype Code = End | Then(head: Instr, tail: Code)

  function Length(code: Code): nat {
    match code
    case End => 0
    case Then(_, t) => 1 + Length(t)
  }

  function Append(a: Code, b: Code): Code {
    match a
    case End => b
    case Then(i, t) => Then(i, Append(t, b))
  }

  // ---------------------------------------------------------------- encoded sizes

  function SizeOfNum(n: int): nat {
    if n == 0 || n == 1 then 1
    else if -128 <= n <= 127 then 2
    else if -0x8000 <= n <= 0x7FFF then 3
    else if -0x8000_0000 <= n <= 0x7FFF_FFFF then 5
    else 9
  }

  function SizeOfStr(s: seq<byte>): nat {
    |s| + 1 + (if |s| + 1 > 0xFFFF then 4 else if |s| + 1 > 0xFF then 3 else 2)
  }

  /** Bytes that the encoding of an instruction takes. */
  function Size(i: Instr): (n: nat)
    ensures n > 0
  {
    match i
    case PushNum(n) => SizeOfNum(n)
    case PushStr(s) => SizeOfStr(s)
    case PushLocal(_) => 3
    case PopLocal(_) => 3
    case PushLocalRef(_) => 3
    case PushStatic(_) => 3
    case PopStatic(_) => 3
    case PushStaticRef(_) => 3
    case PushMemvar(_) => 3
    case PopMemvar(_) => 3
    case PushMemvarRef(_) => 3
    case PushField(_) => 3
    case PopField(_) => 3
    case PushVariable(_) => 3
    case PopVariable(_) => 3
    case LocalAddInt(_, _) => 5
    case LocalInc(_) => 3
    case LocalDec(_) => 3
    case LocalIncPush(_) => 3
    case Swap(_) => 2
    case ArrayGen(_) => 3
    case Jump(_) => 4
    case JumpFalse(_) => 4
    case JumpTrue(_) => 4
    case PushFunSym(_) => 3
    case Function(n) => if n > 255 then 3 else 2
    case Do(n) => if n > 255 then 3 else 2
    case Message(_) => 3
    case Send(n) => if n > 255 then 3 else 2
    case _ => 1
  }

  function CodeSize(code: Code): nat {
    match code
    case End => 0
    case Then(i, t) => Size(i) + CodeSize(t)
  }

  /** The code that remains after n bytes, provided an instruction starts there (or the code ends there). */
  function Skip(code: Code, n: int): (r: Option<Code>)
    ensures r.Some? ==> Length(r.value) <= Length(code)
  {
    if n == 0 then Some(code)
    else if n < 0 || code.End? then None
    else Skip(code.tail, n - Size(code.head))
  }

  lemma SkipAppend(a: Code, b: Code)
    ensures CodeSize(Append(a, b)) == CodeSize(a) + CodeSize(b)
    ensures Skip(Append(a, b), CodeSize(a)) == Some(b)
  {
    match a
    case End =>
    case Then(i, t) => SkipAppend(t, b);
  }

  // ---------------------------------------------------------------- instructions

  /** What one instruction does: continue, jump by an offset counted from its first byte,
      raise a run-time error, or find the stack unusable. */
  datatype Reaction =
    | Next(stack: Stack, state: State)
    | Branch(offset: int, stack: Stack, state: State)
    | Fail(state: State)
    | Stuck

  /** Puts an item below k others. */
  function Insert(x: Item, s: Stack, k: nat): Option<Stack> {
    if k == 0 then Some(On(x, s))
    else
      match s
      case Empty => None
      case On(t, below) =>
        match Insert(x, below, k - 1)
        case None => None
        case Some(r) => Some(On(t, r))
  }

  /** The topmost n items, deepest first, and what is below them. */
  function TakeArgs(s: Stack, n: nat): (r: Option<(seq<Item>, Stack)>)
    ensures r.Some? ==> |r.value.0| == n
  {
    if n == 0 then Some(([], s))
    else
      match s
      case Empty => None
      case On(t, below) =>
        match TakeArgs(below, n - 1)
        case None => None
        case Some((xs, rest)) => Some((xs + [t], rest))
  }

  function PushAll(xs: seq<Item>, s: Stack): Stack {
    if xs == [] then s else PushAll(xs[1..], On(xs[0], s))
  }

  function Push(v: Option<Value>, s: Stack, st: State): (r: Reaction)
    ensures !r.Branch?
  {
    match v
    case None => Fail(st)
    case Some(x) => Next(On(V(x), s), st)
  }

  function PushOutcome(o: Outcome<Value>, s: Stack): (r: Reaction)
    ensures !r.Branch?
  {
    match o
    case Ok(v, st) => Next(On(V(v), s), st)
    case Err(st) => Fail(st)
  }

  function DropOutcome<T>(o: Outcome<T>, s: Stack): (r: Reaction)
    ensures !r.Branch?
  {
    match o
    case Ok(_, st) => Next(s, st)
    case Err(st) => Fail(st)
  }

  function PushReference(o: Outcome<Ref>, s: Stack): (r: Reaction)
    ensures !r.Branch?
  {
    match o
    case Ok(r, st) => Next(On(R(r), s), st)
    case Err(st) => Fail(st)
  }

  /** What the opcodes that pop into a variable do with the value. */
  function Put(i: Instr, v: Value, st: State): Outcome<()> {
    match i
    case PopLocal(n) => Ok((), PutLocal(n, v, st))
    case PopStatic(n) => Ok((), PutStatic(n, v, st))
    case PopMemvar(n) => Ok((), PutMemvar(n, v, st))
    case PopField(n) => PutField(n, v, st)
    case PopVariable(n) => Ok((), PutMemvar(n, v, st))
    case _ => Err(st)
  }

  /** The popped item has to be a value; storing a reference into a variable is not modelled. */
  function PopInto(i: Instr, s: Stack, st: State): (r: Reaction)
    ensures !r.Branch?
  {
    match s
    case On(V(v), below) => DropOutcome(Put(i, v, st), below)
    case On(_, _) => Fail(st)
    case Empty => Stuck
  }

  function StepLocal(up: bool, i: nat, st: State): Outcome<Value> {
    match Step(up, ReadLocal(i, st))
    case None => Err(st)
    case Some(v) => Ok(v, PutLocal(i, v, st))
  }

  /** The result of an operation is pushed, or dropped by the opcodes whose name ends in POP. */
  function Give(wanted: bool, o: Outcome<Value>, s: Stack): (r: Reaction)
    ensures !r.Branch?
  {
    if wanted then PushOutcome(o, s) else DropOutcome(o, s)
  }

  /** HB_P_LOCALADDINT */
  function AddToLocal(n: nat, k: int, s: Stack, st: State): (r: Reaction)
    ensures !r.Branch?
  {
    match AddInt(ReadLocal(n, st), k)
    case None => Fail(st)
    case Some(v) => Next(s, PutLocal(n, v, st))
  }

  /** hb_vmDuplUnRef */
  function DuplicateUnref(w: World, s: Stack, st: State): (r: Reaction)
    ensures !r.Branch?
  {
    match s
    case On(R(r), below) =>
      (match ReadRef(w, r, st)
       case Ok(v, st1) => Next(On(R(r), On(V(v), below)), st1)
       case Err(st1) => Fail(st1))
    case On(x, _) => Next(On(x, s), st)
    case Empty => Stuck
  }

  /** hb_vmSwap: the top item moves down n + 1 places. */
  function SwapItems(n: nat, s: Stack, st: State): (r: Reaction)
    ensures !r.Branch?
  {
    match s
    case Empty => Stuck
    case On(x, below) =>
      match Insert(x, below, n + 1)
      case None => Stuck
      case Some(r) => Next(r, st)
  }

  function OperateTop(w: World, op: BinOp, s: Stack, st: State): (r: Reaction)
    ensures !r.Branch?
  {
    match s
    case On(y, On(x, below)) => Push(OperateItems(w, op, x, y), below, st)
    case _ => Stuck
  }

  function NegateTop(w: World, s: Stack, st: State): (r: Reaction)
    ensures !r.Branch?
  {
    match s
    case On(V(x), below) => Push((w.negate)(x), below, st)
    case On(_, _) => Fail(st)
    case Empty => Stuck
  }

  function InvertTop(s: Stack, st: State): (r: Reaction)
    ensures !r.Branch?
  {
    match s
    case On(V(Log(b)), below) => Next(On(V(Log(!b)), below), st)
    case On(_, _) => Fail(st)
    case Empty => Stuck
  }

  function Connective(isAnd: bool, s: Stack, st: State): (r: Reaction)
    ensures !r.Branch?
  {
    match s
    case On(V(Log(y)), On(V(Log(x)), below)) => Next(On(V(Log(if isAnd then x && y else x || y)), below), st)
    case On(_, On(_, _)) => Fail(st)
    case _ => Stuck
  }

  function StepTop(up: bool, s: Stack, st: State): (r: Reaction)
    ensures !r.Branch?
  {
    match s
    case On(V(x), below) => Push(Step(up, x), below, st)
    case On(_, _) => Fail(st)
    case Empty => Stuck
  }

  /** Compound assignment through the reference below the operand. */
  function OperateThrough(w: World, op: BinOp, wanted: bool, s: Stack, st: State): (r: Reaction)
    ensures !r.Branch?
  {
    match s
    case On(y, On(R(r), below)) => Give(wanted, OperateRef(w, op, r, y, st), below)
    case _ => Stuck
  }

  function StepThrough(w: World, up: bool, wanted: bool, s: Stack, st: State): (r: Reaction)
    ensures !r.Branch?
  {
    match s
    case On(R(r), below) => Give(wanted, StepRef(w, up, r, st), below)
    case _ => Stuck
  }

  /** hb_vmArrayPush */
  function FetchElement(s: Stack, st: State): (r: Reaction)
    ensures !r.Branch?
  {
    match s
    case On(index, On(base, below)) =>
      (match Element(base, index, st)
       case None => Fail(st)
       case Some((a, n)) => Next(On(V(st.arrays[a][n]), below), st))
    case _ => Stuck
  }

  /** hb_vmArrayPushRef */
  function ReferElement(w: World, s: Stack, st: State): (r: Reaction)
    ensures !r.Branch?
  {
    match s
    case On(index, On(base, below)) => PushReference(LocateElement(w, base, index, st), below)
    case _ => Stuck
  }

  /** hb_vmArrayPop */
  function PopElement(w: World, s: Stack, st: State): (r: Reaction)
    ensures !r.Branch?
  {
    match s
    case On(index, On(base, On(V(v), below))) =>
      (match LocateElement(w, base, index, st)
       case Err(st1) => Fail(st1)
       case Ok(r, st1) => DropOutcome(WriteRef(w, r, v, st1), below))
    case On(_, On(_, On(_, _))) => Fail(st)
    case _ => Stuck
  }

  function GenerateArray(n: nat, s: Stack, st: State): (r: Reaction)
    ensures !r.Branch?
  {
    match TakeArgs(s, n)
    case None => Stuck
    case Some((xs, below)) => PushOutcome(NewArray(xs, st), below)
  }

  function JumpOn(jumpIf: bool, d: int, s: Stack, st: State): (r: Reaction)
    ensures r.Branch? ==> r.offset == d
  {
    match s
    case On(V(Log(b)), below) => if b == jumpIf then Branch(d, below, st) else Next(below, st)
    case On(_, _) => Fail(st)
    case Empty => Stuck
  }

  function CallTop(w: World, n: nat, wanted: bool, s: Stack, st: State): (r: Reaction)
    ensures !r.Branch?
  {
    match TakeArgs(s, n)
    case Some((xs, On(_, On(S(f), below)))) => Give(wanted, CallFunction(w, f, xs, st), below)
    case _ => Stuck
  }

  function SendTop(w: World, n: nat, s: Stack, st: State): (r: Reaction)
    ensures !r.Branch?
  {
    match TakeArgs(s, n)
    case Some((xs, On(o, On(S(m), below)))) =>
      (match SendItem(w, o, m, xs, st)
       case Ok(it, st1) => Next(On(it, below), st1)
       case Err(st1) => Fail(st1))
    case _ => Stuck
  }

  /** HB_P_PUSHOVARREF: the symbol is that of the assign message. */
  function ReferMessage(w: World, s: Stack, st: State): (r: Reaction)
    ensures !r.Branch?
  {
    match s
    case On(o, On(S(m), below)) =>
      if |m| > 0 then PushReference(MessageReference(w, o, m[1..], st), below) else Stuck
    case _ => Stuck
  }

  /** hb_vmSwapAlias */
  function SwapArea(w: World, s: Stack, st: State): (r: Reaction)
    ensures !r.Branch?
  {
    match s
    case On(x, On(a, below)) => Next(On(x, below), SelectArea(w, a, st))
    case _ => Stuck
  }

  function Exec(w: World, i: Instr, s: Stack, st: State): (r: Reaction)
    ensures r.Branch? ==> i == Jump(r.offset) || i == JumpFalse(r.offset) || i == JumpTrue(r.offset)
  {
    match i
    case PushNil => Next(On(V(NilV), s), st)
    case PushNum(n) => Next(On(V(Num(n as real)), s), st)
    case PushStr(x) => Next(On(V(Str(x)), s), st)
    case PushLog(b) => Next(On(V(Log(b)), s), st)
    case PushLocal(n) => Next(On(V(ReadLocal(n, st)), s), st)
    case PopLocal(_) => PopInto(i, s, st)
    case PushLocalRef(n) => Next(On(R(LocalRef(n)), s), st)
    case PushStatic(n) => Next(On(V(ReadStatic(n, st)), s), st)
    case PopStatic(_) => PopInto(i, s, st)
    case PushStaticRef(n) => Next(On(R(StaticRef(n)), s), st)
    case PushMemvar(n) => Push(ReadMemvar(n, st), s, st)
    case PopMemvar(_) => PopInto(i, s, st)
    case PushMemvarRef(n) => if n in st.memvars then Next(On(R(MemvarRef(n)), s), st) else Fail(st)
    case PushField(n) => Push(ReadField(n, st), s, st)
    case PopField(_) => PopInto(i, s, st)
    case PushVariable(n) =>
      Push(if ReadField(n, st).Some? then ReadField(n, st) else ReadMemvar(n, st), s, st)
    case PopVariable(_) => PopInto(i, s, st)
    case LocalAddInt(n, k) => AddToLocal(n, k, s, st)
    case LocalInc(n) => DropOutcome(StepLocal(true, n, st), s)
    case LocalDec(n) => DropOutcome(StepLocal(false, n, st), s)
    case LocalIncPush(n) => PushOutcome(StepLocal(true, n, st), s)
    case Duplicate => if s.On? then Next(On(s.top, s), st) else Stuck
    case DuplUnref => DuplicateUnref(w, s, st)
    case PushUnref => if s.On? then PushOutcome(Unref(w, s.top, st), s) else Stuck
    case Swap(n) => SwapItems(n, s, st)
    case Pop => if s.On? then Next(s.below, st) else Stuck
    case Bin(op) => OperateTop(w, op, s, st)
    case Neg => NegateTop(w, s, st)
    case Not => InvertTop(s, st)
    case And => Connective(true, s, st)
    case Or => Connective(false, s, st)
    case Inc => StepTop(true, s, st)
    case Dec => StepTop(false, s, st)
    case OpEq(op) => OperateThrough(w, op, true, s, st)
    case OpEqPop(op) => OperateThrough(w, op, false, s, st)
    case StepEq(up) => StepThrough(w, up, true, s, st)
    case StepEqPop(up) => StepThrough(w, up, false, s, st)
    case ArrayPush => FetchElement(s, st)
    case ArrayPushRef => ReferElement(w, s, st)
    case ArrayPop => PopElement(w, s, st)
    case ArrayGen(n) => GenerateArray(n, s, st)
    case Jump(d) => Branch(d, s, st)
    case JumpFalse(d) => JumpOn(false, d, s, st)
    case JumpTrue(d) => JumpOn(true, d, s, st)
    case PushFunSym(n) => Next(On(V(NilV), On(S(n), s)), st)
    case Function(n) => CallTop(w, n, true, s, st)
    case Do(n) => CallTop(w, n, false, s, st)
    case Message(n) => Next(On(S(n), s), st)
    case Send(n) => SendTop(w, n, s, st)
    case PushOVarRef => ReferMessage(w, s, st)
    case PushAlias => Next(On(V(Num(st.area as real)), s), st)
    case PopAlias => if s.On? then Next(s.below, SelectArea(w, s.top, st)) else Stuck
    case SwapAlias => SwapArea(w, s, st)
    case Refused => Stuck
  }

  // ---------------------------------------------------------------- runs

  datatype Final = Done(stack: Stack, state: State) | Failed(state: State) | Broken

  /** Runs the remaining code.  A jump that does not land on a later instruction breaks the run. */
  function Run(w: World, code: Code, s: Stack, st: State): Final
    decreases Length(code), 0
  {
    match code
    case End => Done(s, st)
    case Then(i, rest) => Proceed(w, Exec(w, i, s, st), Size(i), rest)
  }

  /** Goes on after an instruction of the given size. */
  function Proceed(w: World, x: Reaction, size: nat, rest: Code): Final
    decreases Length(rest), 1
  {
    match x
    case Next(s, st) => Run(w, rest, s, st)
    case Branch(d, s, st) =>
      (match Skip(rest, d - size)
       case None => Broken
       case Some(k) => Run(w, k, s, st))
    case Fail(st) => Failed(st)
    case Stuck => Broken
  }
}
