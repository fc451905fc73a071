/** From the tree to the bytes that run: the byte machine on generated code does what the
    expression means, wherever in the buffer the code lies. */
module EndToEnd {
  import opened Values
  import opened Expressions
  import opened Pcode
  import opened Meaning
  import opened Compiler
  import opened Encoding
  import opened Runs
  import opened Correctness
  import opened ByteMachine
  import opened Discipline
  import opened Reduction
  import opened Ranges
  import opened References
  import Nodes
  import ReducePass
  import Emitter

  /** The end of a run that evaluates an expression on top of stack s. */
  function Finish(o: Outcome<Item>, s: Stack): Final {
    match o
    case Ok(it, st) => Done(On(it, s), st)
    case Err(st) => Failed(st)
  }

  function FinishUnit(o: Outcome<()>, s: Stack): Final {
    match o
    case Ok(_, st) => Done(s, st)
    case Err(st) => Failed(st)
  }

  // ---------------------------------------------------------------- operands that fit

  lemma EncodedPush(w: World, c: Config, prefix: seq<byte>, e: Expr, s: Stack, st: State)
    requires WellFormed(c, e) && AllEncodable(c, PushCode(c, e, End))
    ensures ByteRun(w, c, prefix + Bytes(c, PushCode(c, e, End)), |prefix|, s, st) == Finish(Eval(w, c, e, st), s)
  {
    hide Exec, ByteRun, PushCode, Bytes, Eval;
    PushDisciplined(c, e, 0);
    ByteRunRefines(w, c, prefix + Bytes(c, PushCode(c, e, End)), |prefix|, PushCode(c, e, End), s, st);
    PushCorrect(w, c, e, End, s, st);
  }

  lemma EncodedPop(w: World, c: Config, prefix: seq<byte>, l: Expr, v: Value, s: Stack, st: State)
    requires Target(c, l) && WellFormed(c, l) && AllEncodable(c, PopCode(c, l, End))
    ensures ByteRun(w, c, prefix + Bytes(c, PopCode(c, l, End)), |prefix|, On(V(v), s), st) == FinishUnit(Store(w, c, l, v, st), s)
  {
    hide Exec, ByteRun, PopCode, Bytes, Store;
    PopDisciplined(c, l, 0);
    ByteRunRefines(w, c, prefix + Bytes(c, PopCode(c, l, End)), |prefix|, PopCode(c, l, End), On(V(v), s), st);
    PopCorrect(w, c, l, v, End, s, st);
  }

  lemma EncodedDrop(w: World, c: Config, prefix: seq<byte>, e: Expr, s: Stack, st: State)
    requires WellFormed(c, e) && AllEncodable(c, DropCode(c, e, End))
    ensures ByteRun(w, c, prefix + Bytes(c, DropCode(c, e, End)), |prefix|, s, st) == FinishUnit(Effect(w, c, e, st), s)
  {
    hide Exec, ByteRun, DropCode, Bytes, Effect;
    DropDisciplined(c, e, 0);
    ByteRunRefines(w, c, prefix + Bytes(c, DropCode(c, e, End)), |prefix|, DropCode(c, e, End), s, st);
    DropCorrect(w, c, e, End, s, st);
  }

  // ---------------------------------------------------------------- expressions in range

  /** HB_EA_PUSH_PCODE: the value on an untouched stack, the same state, or the same error. */
  lemma CompiledPush(w: World, c: Config, prefix: seq<byte>, e: Expr, s: Stack, st: State)
    requires WellFormed(c, e) && InRange(c, e) && Fits(PushCode(c, e, End))
    ensures ByteRun(w, c, prefix + Bytes(c, PushCode(c, e, End)), |prefix|, s, st) == Finish(Eval(w, c, e, st), s)
  {
    hide *;
    FitsEncodable(c, e);
    EncodedPush(w, c, prefix, e, s, st);
  }

  /** HB_EA_POP_PCODE: the waiting value is stored and gone. */
  lemma CompiledPop(w: World, c: Config, prefix: seq<byte>, l: Expr, v: Value, s: Stack, st: State)
    requires Target(c, l) && WellFormed(c, l) && InRange(c, l) && Fits(PopCode(c, l, End))
    ensures ByteRun(w, c, prefix + Bytes(c, PopCode(c, l, End)), |prefix|, On(V(v), s), st) == FinishUnit(Store(w, c, l, v, st), s)
  {
    hide *;
    FitsEncodable(c, l);
    EncodedPop(w, c, prefix, l, v, s, st);
  }

  /** HB_EA_PUSH_POP: the effects only. */
  lemma CompiledDrop(w: World, c: Config, prefix: seq<byte>, e: Expr, s: Stack, st: State)
    requires WellFormed(c, e) && InRange(c, e) && Fits(DropCode(c, e, End))
    ensures ByteRun(w, c, prefix + Bytes(c, DropCode(c, e, End)), |prefix|, s, st) == FinishUnit(Effect(w, c, e, st), s)
  {
    hide *;
    FitsEncodable(c, e);
    EncodedDrop(w, c, prefix, e, s, st);
  }

  /** The guard of the local opcode, for every literal: it holds if and only if the literal has 16 bits
      and the two bytes that are emitted mean +n for `+=` and -n for `-=`. */
  lemma AddIntGuardExact(c: Config, op: BinOp, x: string, n: int, rest: seq<byte>)
    requires c.scope(x).Local? && c.scope(x).index <= 65535 && (op == Plus || op == Minus)
    ensures var i := LocalAddInt(c.scope(x).index, if op == Plus then n else -n);
      AddsInt(c, op, EVar(x), ENum(n)) <==> -32768 <= n <= 32767 && Decode(c, Encode(c, i) + rest) == Some(i)
  {
    DecodeAddInt(c, c.scope(x).index, if op == Plus then n else -n, rest);
  }

  /** `a->( list )` leaves the work area as it was, provided that was a valid one. */
  lemma AliasRestoresArea(w: World, c: Config, e: Expr, st: State)
    requires e.EAlias? && 1 <= st.area <= MAX_AREA && Eval(w, c, e, st).Ok?
    ensures Eval(w, c, e, st).state.area == st.area
  {
    hide SelectArea;
  }

  /** The two stages together: reducing a tree and compiling the reduced tree gives bytes that do
      what the tree as written means. */
  lemma ReducedAndCompiled(w: World, c: Config, prefix: seq<byte>, e: Expr, safe: set<string>, s: Stack, st: State)
    requires WellFormed(c, e) && InRange(c, e) && Reducible(c, e, safe) && RespectsAll(w, c, safe)
    ensures Fits(PushCode(c, Reduce(c, e), End)) ==>
      ByteRun(w, c, prefix + Bytes(c, PushCode(c, Reduce(c, e), End)), |prefix|, s, st) == Finish(Eval(w, c, e, st), s)
    ensures Fits(DropCode(c, Reduce(c, e), End)) ==>
      ByteRun(w, c, prefix + Bytes(c, DropCode(c, Reduce(c, e), End)), |prefix|, s, st) == FinishUnit(Effect(w, c, e, st), s)
  {
    hide *;
    ReduceWellFormed(c, e);
    ReduceInRange(c, e);
    ReduceMeaning(w, c, e, safe, st);
    if Fits(PushCode(c, Reduce(c, e), End)) { CompiledPush(w, c, prefix, Reduce(c, e), s, st); }
    if Fits(DropCode(c, Reduce(c, e), End)) { CompiledDrop(w, c, prefix, Reduce(c, e), s, st); }
  }

  /** `x += 100000` on a local that holds 1: the literal does not fit the local opcode, and x is 100001. */
  lemma LargeAddition(w: World, c: Config, x: string, i: nat, s: Stack, st: State)
    requires c.harbour && c.scope(x) == Local(i) && i <= 32767 && i in st.locals && st.locals[i] == Num(1.0)
    ensures var e := EOpEq(Plus, EVar(x), ENum(100000));
      && Reduce(c, e) == e && Fits(PushCode(c, e, End))
      && ByteRun(w, c, [] + Bytes(c, PushCode(c, e, End)), 0, s, st)
           == Done(On(V(Num(100001.0)), s), st.(locals := st.locals[i := Num(100001.0)]))
  {
    hide ByteRun, Bytes, Exec;
    var e := EOpEq(Plus, EVar(x), ENum(100000));
    AdditionCode(c, x, i);
    AdditionValue(w, c, x, i, st);
    CompiledPush(w, c, [], e, s, st);
  }

  lemma AdditionCode(c: Config, x: string, i: nat)
    requires c.harbour && c.scope(x) == Local(i)
    ensures var e := EOpEq(Plus, EVar(x), ENum(100000)); Reduce(c, e) == e && Fits(PushCode(c, e, End))
  {
    var e := EOpEq(Plus, EVar(x), ENum(100000));
    assert Reduce(c, EVar(x)) == EVar(x) && Reduce(c, ENum(100000)) == ENum(100000);
    assert PushCode(c, ENum(100000), Then(OpEq(Plus), End)) == Then(PushNum(100000), Then(OpEq(Plus), End));
    var k := Then(PushNum(100000), Then(OpEq(Plus), End));
    assert LocateCode(c, EVar(x), k) == Then(PushLocalRef(i), k);
    assert OpEqCode(c, e, true, End) == LocateCode(c, EVar(x), k);
    assert PushCode(c, e, End) == Then(PushLocalRef(i), k);
  }

  lemma AdditionValue(w: World, c: Config, x: string, i: nat, st: State)
    requires c.harbour && c.scope(x) == Local(i) && i in st.locals && st.locals[i] == Num(1.0)
    ensures Eval(w, c, EOpEq(Plus, EVar(x), ENum(100000)), st) == Ok(V(Num(100001.0)), st.(locals := st.locals[i := Num(100001.0)]))
  {
    var e := EOpEq(Plus, EVar(x), ENum(100000));
    assert Locate(w, c, EVar(x), st) == Ok(LocalRef(i), st);
    assert Eval(w, c, ENum(100000), st) == Ok(V(Num(100000.0)), st);
    assert OperateItems(w, Plus, V(Num(1.0)), V(Num(100000.0))) == Some(Num(100001.0));
    assert EvalOpEq(w, c, e, st) == AsItem(OperateRef(w, Plus, LocalRef(i), V(Num(100000.0)), st));
  }

  // ---------------------------------------------------------------- what is reported

  /** Code of at most 8 MB with no wild jump and nothing refused leaves nothing to report. */
  lemma {:induction false} SmallFits(code: Code)
    requires JumpsLand(code) && Accepted(code) && CodeSize(code) <= 0x7F_FFFF
    ensures Fits(code)
  {
    match code
    case End =>
    case Then(i, t) =>
      SmallFits(t);
      if Distance(i).Some? { SkipInside(t, Distance(i).value - Size(i)); }
      SmallFit(i, CodeSize(t));
  }

  lemma SmallFit(i: Instr, rest: nat)
    requires !i.Refused? && Size(i) + rest <= 0x7F_FFFF
    requires Distance(i).Some? ==> 0 <= Distance(i).value - Size(i) <= rest
    ensures Fit(i)
  {
  }

  lemma {:induction false} SkipInside(code: Code, n: int)
    requires Skip(code, n).Some?
    ensures 0 <= n <= CodeSize(code)
    decreases Length(code)
  {
    if n != 0 { SkipInside(code.tail, n - Size(code.head)); }
  }

  lemma SmallCode(c: Config, e: Expr)
    requires WellFormed(c, e) && CodeSize(PushCode(c, e, End)) <= 0x7F_FFFF
    ensures Fits(PushCode(c, e, End))
  {
    hide *;
    PushDisciplined(c, e, 0);
    FormedAccepted(c, e, End);
    assert Accepted(End) by { EndAccepted(); }
    SmallFits(PushCode(c, e, End));
  }

  lemma EndAccepted()
    ensures Accepted(End)
  {
  }

  // ---------------------------------------------------------------- the whole way

  /** The bytes do what the expression means, on any stack and in any state, in every world whose
      functions and methods leave the safe variables alone. */
  ghost predicate Implements(c: Config, code: seq<byte>, e: Expr, safe: set<string>) {
    forall w: World, s: Stack, st: State :: RespectsAll(w, c, safe) ==> ByteRun(w, c, code, 0, s, st) == Finish(Eval(w, c, e, st), s)
  }

  /** From the nodes that the parser has built to the bytes: HB_EA_REDUCE, then HB_EA_PUSH_PCODE on
      what that leaves.  An error is reported exactly if a jump or a string is too long, and never for code
      of at most 8 MB; if there is none, the bytes do what the tree as written means. */
  method CompileExpression(c: Config, nodes: seq<Nodes.Node>, root: nat, ghost e: Expr, ghost safe: set<string>)
    returns (code: seq<byte>, failed: bool)
    requires Nodes.Rep(nodes, 0, root, e) && WellFormed(c, e)
    ensures failed <==> !Fits(PushCode(c, Reduce(c, e), End))
    ensures CodeSize(PushCode(c, Reduce(c, e), End)) <= 0x7F_FFFF ==> !failed
    ensures !failed ==> code == Bytes(c, PushCode(c, Reduce(c, e), End))
    ensures !failed && InRange(c, e) && Reducible(c, e, safe) ==> Implements(c, code, e, safe)
  {
    hide PushCode, Bytes, Fits, Reduce, Reducible, Implements, InRange, WellFormed, CodeSize, Nodes.Rep;
    ReduceWellFormed(c, e);
    var reducer := new ReducePass.Reducer(c, nodes);
    var reduced := reducer.Use(root, 0, e);
    var emitter := new Emitter.Emitter(c, reducer.nodes);
    emitter.Compile(reduced, 0, Reduce(c, e));
    code, failed := emitter.code, emitter.failed;
    assert [] + Bytes(c, PushCode(c, Reduce(c, e), End)) == Bytes(c, PushCode(c, Reduce(c, e), End));
    if CodeSize(PushCode(c, Reduce(c, e), End)) <= 0x7F_FFFF { SmallCode(c, Reduce(c, e)); }
    if !failed && InRange(c, e) && Reducible(c, e, safe) { CodeImplements(c, code, e, safe); }
  }

  lemma CodeImplements(c: Config, code: seq<byte>, e: Expr, safe: set<string>)
    requires WellFormed(c, e) && InRange(c, e) && Reducible(c, e, safe) && code == Bytes(c, PushCode(c, Reduce(c, e), End))
    requires Fits(PushCode(c, Reduce(c, e), End))
    ensures Implements(c, code, e, safe)
  {
    hide ByteRun, PushCode, Bytes, Eval, Reduce, Reducible, WellFormed, InRange, RespectsAll, Fits;
    forall w: World, s: Stack, st: State | RespectsAll(w, c, safe) ensures ByteRun(w, c, code, 0, s, st) == Finish(Eval(w, c, e, st), s) {
      ReducedAndCompiled(w, c, [], e, safe, s, st);
      assert [] + code == code;
    }
  }
}
