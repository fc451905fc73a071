/** Run-time values, the store, and the primitive operations that the virtual
    machine and the source-level evaluator share. */
module Values {

  datatype Option<+T> = None | Some(value: T)

  type byte = x: int | 0 <= x < 256

  /** Program values.  Numbers are exact; 64-bit overflow to binary64 and the
      display width of an item are not modelled. */
  datatype Value =
    | NilV
    | Num(r: real)
    | Log(b: bool)
    | Str(s: seq<byte>)
    | Date(julian: int)
    | Arr(address: nat)
    | Obj(id: nat)

  /** What a reference item designates. */
  datatype Ref =
    | LocalRef(index: int)
    | StaticRef(number: nat)
    | MemvarRef(memvar: string)
    | ElemRef(array: nat, position: nat)
    | MessageRef(receiver: Value, message: string)

  /** An item of the evaluation stack. */
  datatype Item = V(value: Value) | R(ref: Ref) | S(symbol: string)

  datatype BinOp =
    | Plus | Minus | Mult | Div | Mod | Power
    | Equal | ExactlyEqual | NotEqual | Less | LessEqual | Greater | GreaterEqual | InString

  /** Calls out of the expression, in the order in which they happen. */
  datatype Event = Called(function_: string, args: seq<Item>) | Sent(receiver: Value, message: string, args: seq<Item>)

  /** Everything an expression can read or change. */
  datatype State = State(
    locals: map<int, Value>,
    statics: map<nat, Value>,
    memvars: map<string, Value>,
    fields: map<(int, string), Value>,
    area: int,
    arrays: seq<seq<Value>>,
    log: seq<Event>)

  /** A value (or item) with the state after it, or a run-time error with the state at that point. */
  datatype Outcome<+T> = Ok(value: T, state: State) | Err(state: State)

  /** The part of the system that the compiler knows nothing about: operators other
      than + and -, functions, methods and the work area allocator. */
  datatype World = World(
    operator: (BinOp, Value, Value) -> Option<Value>,
    negate: Value -> Option<Value>,
    call: (string, seq<Item>, State) -> Outcome<Value>,
    send: (Value, string, seq<Item>, State) -> Outcome<Value>,
    aliasNumber: (seq<byte>, State) -> int,
    firstAvailable: State -> int,
    assignable: (Value, string, State) -> bool)

  const MAX_AREA := 65535

  // ---------------------------------------------------------------- arithmetic

  function Trunc(r: real): int {
    if r >= 0.0 then r.Floor else -((-r).Floor)
  }

  function TrailingBlanks(s: seq<byte>): nat
    ensures TrailingBlanks(s) <= |s|
  {
    if |s| > 0 && s[|s| - 1] == 32 then 1 + TrailingBlanks(s[..|s| - 1]) else 0
  }

  function Add(x: Value, y: Value): Option<Value> {
    match (x, y)
    case (Num(a), Num(b)) => Some(Num(a + b))
    case (Str(a), Str(b)) => Some(Str(a + b))
    case (Date(a), Date(b)) => Some(Date(a + b))
    case (Date(a), Num(b)) => Some(Date(a + Trunc(b)))
    case (Num(a), Date(b)) => Some(Date(Trunc(a) + b))
    case _ => None
  }

  function Subtract(x: Value, y: Value): Option<Value> {
    match (x, y)
    case (Num(a), Num(b)) => Some(Num(a - b))
    case (Date(a), Date(b)) => Some(Num((a - b) as real))
    case (Date(a), Num(b)) => Some(Date(a - Trunc(b)))
    case (Str(a), Str(b)) =>
      // the trailing blanks of the first operand move behind the second
      var n := |a| - TrailingBlanks(a);
      Some(Str(a[..n] + b + a[n..]))
    case _ => None
  }

  function Operate(w: World, op: BinOp, x: Value, y: Value): Option<Value> {
    match op
    case Plus => Add(x, y)
    case Minus => Subtract(x, y)
    case _ => (w.operator)(op, x, y)
  }

  /** Addition of an integer in place, as the LOCALADDINT opcode does it. */
  function AddInt(x: Value, k: int): Option<Value> {
    match x
    case Num(a) => Some(Num(a + k as real))
    case Date(a) => Some(Date(a + k))
    case _ => None
  }

  /** hb_vmInc and hb_vmDec. */
  function Step(up: bool, x: Value): Option<Value> {
    match x
    case Num(a) => Some(Num(if up then a + 1.0 else a - 1.0))
    case Date(a) => Some(Date(if up then a + 1 else a - 1))
    case _ => None
  }

  /** The operators that accept only values: a reference or symbol operand is a type error. */
  function OperateItems(w: World, op: BinOp, x: Item, y: Item): Option<Value> {
    if x.V? && y.V? then Operate(w, op, x.value, y.value) else None
  }

  // ---------------------------------------------------------------- work areas

  function SelectNumber(w: World, n: int, st: State): State {
    st.(area := if 1 <= n <= MAX_AREA then n else (w.firstAvailable)(st))
  }

  function SelectArea(w: World, it: Item, st: State): State {
    match it
    case V(Num(r)) => SelectNumber(w, Trunc(r), st)
    case V(Str(s)) => SelectNumber(w, (w.aliasNumber)(s, st), st)
    case _ => SelectNumber(w, -1, st)
  }

  // ---------------------------------------------------------------- variables

  function ReadMemvar(name: string, st: State): Option<Value> {
    if name in st.memvars then Some(st.memvars[name]) else None
  }

  function ReadField(name: string, st: State): Option<Value> {
    if (st.area, name) in st.fields then Some(st.fields[(st.area, name)]) else None
  }

  function ReadLocal(i: int, st: State): Value {
    if i in st.locals then st.locals[i] else NilV
  }

  function ReadStatic(i: nat, st: State): Value {
    if i in st.statics then st.statics[i] else NilV
  }

  function PutLocal(i: int, v: Value, st: State): State {
    st.(locals := st.locals[i := v])
  }

  function PutStatic(i: nat, v: Value, st: State): State {
    st.(statics := st.statics[i := v])
  }

  function PutMemvar(name: string, v: Value, st: State): State {
    st.(memvars := st.memvars[name := v])
  }

  function PutField(name: string, v: Value, st: State): Outcome<()> {
    if (st.area, name) in st.fields then Ok((), st.(fields := st.fields[(st.area, name) := v])) else Err(st)
  }

  // ---------------------------------------------------------------- arrays

  /** The zero-based position selected by an index item in an array item, if both are valid. */
  function Element(base: Item, index: Item, st: State): Option<(nat, nat)> {
    if base.V? && base.value.Arr? && index.V? && index.value.Num? && base.value.address < |st.arrays| then
      var a, n := base.value.address, Trunc(index.value.r);
      if 1 <= n <= |st.arrays[a]| then Some((a, n - 1)) else None
    else None
  }

  /** Element selection for writing: the base may be given by reference. */
  function LocateElement(w: World, base: Item, index: Item, st: State): Outcome<Ref> {
    match Unref(w, base, st)
    case Err(st1) => Err(st1)
    case Ok(v, st1) =>
      match Element(V(v), index, st1)
      case None => Err(st1)
      case Some((a, i)) => Ok(ElemRef(a, i), st1)
  }

  predicate ValidElement(a: nat, i: nat, st: State) {
    a < |st.arrays| && i < |st.arrays[a]|
  }

  function WriteElement(a: nat, i: nat, v: Value, st: State): State
    requires ValidElement(a, i, st)
  {
    st.(arrays := st.arrays[a := st.arrays[a][i := v]])
  }

  predicate AllValues(xs: seq<Item>) {
    forall i :: 0 <= i < |xs| ==> xs[i].V?
  }

  function ItemValues(xs: seq<Item>): seq<Value>
    requires AllValues(xs)
  {
    seq(|xs|, i requires 0 <= i < |xs| => xs[i].value)
  }

  /** A new array.  Arrays that hold references are not modelled. */
  function NewArray(xs: seq<Item>, st: State): Outcome<Value> {
    if AllValues(xs)
    then Ok(Arr(|st.arrays|), st.(arrays := st.arrays + [ItemValues(xs)]))
    else Err(st)
  }

  // ---------------------------------------------------------------- calls

  function CallFunction(w: World, name: string, args: seq<Item>, st: State): Outcome<Value> {
    (w.call)(name, args, st.(log := st.log + [Called(name, args)]))
  }

  function SendMessage(w: World, receiver: Value, message: string, args: seq<Item>, st: State): Outcome<Value> {
    (w.send)(receiver, message, args, st.(log := st.log + [Sent(receiver, message, args)]))
  }

  /** A message needs a value as its receiver. */
  function SendItem(w: World, receiver: Item, message: string, args: seq<Item>, st: State): Outcome<Item> {
    if receiver.V? then
      match SendMessage(w, receiver.value, message, args, st)
      case Ok(v, st1) => Ok(V(v), st1)
      case Err(st1) => Err(st1)
    else Err(st)
  }

  // ---------------------------------------------------------------- references

  /** A reference to an assignable message of a receiver. */
  function MessageReference(w: World, receiver: Item, message: string, st: State): Outcome<Ref> {
    if receiver.V? && (w.assignable)(receiver.value, message, st)
    then Ok(MessageRef(receiver.value, message), st)
    else Err(st)
  }

  /** Reading through a reference.  A message reference sends its access message. */
  function ReadRef(w: World, ref: Ref, st: State): Outcome<Value> {
    match ref
    case LocalRef(i) => Ok(ReadLocal(i, st), st)
    case StaticRef(i) => Ok(ReadStatic(i, st), st)
    case MemvarRef(n) => if n in st.memvars then Ok(st.memvars[n], st) else Err(st)
    case ElemRef(a, i) => if ValidElement(a, i, st) then Ok(st.arrays[a][i], st) else Err(st)
    case MessageRef(o, m) => SendMessage(w, o, m, [], st)
  }

  /** Writing through a reference.  A message reference sends its assign message and ignores the result. */
  function WriteRef(w: World, ref: Ref, v: Value, st: State): Outcome<()> {
    match ref
    case LocalRef(i) => Ok((), PutLocal(i, v, st))
    case StaticRef(i) => Ok((), PutStatic(i, v, st))
    case MemvarRef(n) => if n in st.memvars then Ok((), PutMemvar(n, v, st)) else Err(st)
    case ElemRef(a, i) => if ValidElement(a, i, st) then Ok((), WriteElement(a, i, v, st)) else Err(st)
    case MessageRef(o, m) =>
      match SendMessage(w, o, "_" + m, [V(v)], st)
      case Ok(_, st1) => Ok((), st1)
      case Err(st1) => Err(st1)
  }

  /** The value an item stands for when it is used by value. */
  function Unref(w: World, it: Item, st: State): Outcome<Value> {
    match it
    case V(v) => Ok(v, st)
    case R(ref) => ReadRef(w, ref, st)
    case S(_) => Err(st)
  }

  /** `ref op= y`: the referent is read when the operator runs. */
  function OperateRef(w: World, op: BinOp, ref: Ref, y: Item, st: State): Outcome<Value> {
    match ReadRef(w, ref, st)
    case Err(st1) => Err(st1)
    case Ok(x, st1) =>
      match OperateItems(w, op, V(x), y)
      case None => Err(st1)
      case Some(v) => WriteBack(w, ref, v, st1)
  }

  /** `++ref` and `--ref`. */
  function StepRef(w: World, up: bool, ref: Ref, st: State): Outcome<Value> {
    match ReadRef(w, ref, st)
    case Err(st1) => Err(st1)
    case Ok(x, st1) =>
      match Step(up, x)
      case None => Err(st1)
      case Some(v) => WriteBack(w, ref, v, st1)
  }

  function WriteBack(w: World, ref: Ref, v: Value, st: State): Outcome<Value> {
    match WriteRef(w, ref, v, st)
    case Err(st1) => Err(st1)
    case Ok(_, st1) => Ok(v, st1)
  }
}
