/** How a run goes on after an evaluation, and what single instructions do to it.  Each lemma
    unfolds one or two instructions, so that the proofs about generated code need not unfold
    the machine. */
module Runs {
  import opened Values
  import opened Pcode
  import opened Meaning

  // ---------------------------------------------------------------- outcomes as runs

  /** Continue with k after an evaluation: its value on top of an untouched stack, or the same failure. */
  function Resume(w: World, o: Outcome<Item>, k: Code, s: Stack): Final {
    match o
    case Ok(it, st) => Run(w, k, On(it, s), st)
    case Err(st) => Failed(st)
  }

  function ResumeAll(w: World, o: Outcome<seq<Item>>, k: Code, s: Stack): Final {
    match o
    case Ok(xs, st) => Run(w, k, PushAll(xs, s), st)
    case Err(st) => Failed(st)
  }

  function ResumeUnit(w: World, o: Outcome<()>, k: Code, s: Stack): Final {
    match o
    case Ok(_, st) => Run(w, k, s, st)
    case Err(st) => Failed(st)
  }

  function ResumeRef(w: World, o: Outcome<Ref>, k: Code, s: Stack): Final {
    match o
    case Ok(r, st) => Run(w, k, On(R(r), s), st)
    case Err(st) => Failed(st)
  }

  /** Continue with two items, the second on top. */
  function ResumePair(w: World, o: Outcome<(Item, Item)>, k: Code, s: Stack): Final {
    match o
    case Ok((x, y), st) => Run(w, k, On(y, On(x, s)), st)
    case Err(st) => Failed(st)
  }

  /** Continue with a value above, or below, the item it was read from. */
  function ResumeAbove(w: World, o: Outcome<Value>, x: Item, k: Code, s: Stack): Final {
    match o
    case Ok(v, st) => Run(w, k, On(V(v), On(x, s)), st)
    case Err(st) => Failed(st)
  }

  function ResumeBelow(w: World, o: Outcome<Value>, x: Item, k: Code, s: Stack): Final {
    match o
    case Ok(v, st) => Run(w, k, On(x, On(V(v), s)), st)
    case Err(st) => Failed(st)
  }

  /** Continue in one of two places after evaluating a condition. */
  function ResumeFork(w: World, o: Outcome<Item>, yes: Code, no: Code, s: Stack): Final {
    match o
    case Err(st) => Failed(st)
    case Ok(it, st) =>
      match Condition(it)
      case None => Failed(st)
      case Some(t) => Run(w, if t then yes else no, s, st)
  }

  lemma RunThen(w: World, i: Instr, k: Code, s: Stack, st: State)
    ensures Run(w, Then(i, k), s, st) == Proceed(w, Exec(w, i, s, st), Size(i), k)
  {
    hide Exec;
  }

  /** The value is dropped. */
  lemma ResumePop(w: World, o: Outcome<Item>, k: Code, s: Stack)
    ensures Resume(w, o, Then(Pop, k), s) == ResumeUnit(w, Drop(o), k, s)
  {
    hide Run;
    if o.Ok? { RunThen(w, Pop, k, On(o.value, s), o.state); }
  }

  // ---------------------------------------------------------------- jumps

  lemma ForkFalse(w: World, o: Outcome<Item>, d: int, yes: Code, no: Code, s: Stack)
    requires Skip(yes, d - 4) == Some(no)
    ensures Resume(w, o, Then(JumpFalse(d), yes), s) == ResumeFork(w, o, yes, no, s)
  {
    hide Run, Skip;
    if o.Ok? { RunThen(w, JumpFalse(d), yes, On(o.value, s), o.state); }
  }

  lemma ForkTrue(w: World, o: Outcome<Item>, d: int, yes: Code, no: Code, s: Stack)
    requires Skip(no, d - 4) == Some(yes)
    ensures Resume(w, o, Then(JumpTrue(d), no), s) == ResumeFork(w, o, yes, no, s)
  {
    hide Run, Skip;
    if o.Ok? { RunThen(w, JumpTrue(d), no, On(o.value, s), o.state); }
  }

  lemma RunJump(w: World, d: int, rest: Code, k: Code, s: Stack, st: State)
    requires Skip(rest, d - 4) == Some(k)
    ensures Run(w, Then(Jump(d), rest), s, st) == Run(w, k, s, st)
  {
    hide Run, Skip;
    RunThen(w, Jump(d), rest, s, st);
  }

  /** Skipping one more instruction. */
  lemma {:induction false} SkipPast(code: Code, n: nat, i: Instr, k: Code)
    requires Skip(code, n) == Some(Then(i, k))
    ensures Skip(code, n + Size(i)) == Some(k)
    decreases Length(code)
  {
    if n == 0 {
      assert Skip(k, 0) == Some(k);
    } else {
      SkipPast(code.tail, n - Size(code.head), i, k);
    }
  }

  // ---------------------------------------------------------------- arguments on the stack

  lemma {:induction false} PushAllLast(xs: seq<Item>, x: Item, s: Stack)
    ensures PushAll(xs + [x], s) == On(x, PushAll(xs, s))
  {
    if xs == [] {
      assert [x][1..] == [];
      assert PushAll([x], s) == PushAll([], On(x, s));
      assert xs + [x] == [x];
    } else {
      assert (xs + [x])[1..] == xs[1..] + [x];
      PushAllLast(xs[1..], x, On(xs[0], s));
    }
  }

  /** Arguments pushed from left to right are taken back in the same order. */
  lemma {:induction false} TakePushed(xs: seq<Item>, s: Stack)
    ensures TakeArgs(PushAll(xs, s), |xs|) == Some((xs, s))
  {
    if xs != [] {
      var n := |xs| - 1;
      assert xs == xs[..n] + [xs[n]];
      PushAllLast(xs[..n], xs[n], s);
      TakePushed(xs[..n], s);
    }
  }

  lemma RunArrayGen(w: World, xs: seq<Item>, k: Code, s: Stack, st: State)
    ensures Run(w, Then(ArrayGen(|xs|), k), PushAll(xs, s), st) == Resume(w, AsItem(NewArray(xs, st)), k, s)
  {
    hide Run, TakeArgs, PushAll;
    TakePushed(xs, s);
    RunThen(w, ArrayGen(|xs|), k, PushAll(xs, s), st);
  }

  /** FUNCTION and DO find the symbol below the arguments and the self item. */
  lemma RunCall(w: World, f: string, xs: seq<Item>, k: Code, s: Stack, st: State)
    ensures var s1 := PushAll(xs, On(V(NilV), On(S(f), s)));
      && Run(w, Then(Function(|xs|), k), s1, st) == Resume(w, AsItem(CallFunction(w, f, xs, st)), k, s)
      && Run(w, Then(Do(|xs|), k), s1, st) == ResumeUnit(w, Drop(CallFunction(w, f, xs, st)), k, s)
  {
    hide Run, TakeArgs, PushAll;
    var s0 := On(V(NilV), On(S(f), s));
    TakePushed(xs, s0);
    RunThen(w, Function(|xs|), k, PushAll(xs, s0), st);
    RunThen(w, Do(|xs|), k, PushAll(xs, s0), st);
  }

  /** SEND finds the receiver and the message below the arguments. */
  lemma RunSend(w: World, m: string, o: Item, xs: seq<Item>, k: Code, s: Stack, st: State)
    ensures Run(w, Then(Send(|xs|), k), PushAll(xs, On(o, On(S(m), s))), st) == Resume(w, SendItem(w, o, m, xs, st), k, s)
  {
    hide Run, TakeArgs, PushAll;
    var s0 := On(o, On(S(m), s));
    TakePushed(xs, s0);
    RunThen(w, Send(|xs|), k, PushAll(xs, s0), st);
  }

  /** A message with one argument, and one without. */
  lemma RunSendShort(w: World, m: string, o: Item, x: Item, k: Code, s: Stack, st: State)
    ensures Run(w, Then(Send(1), k), On(x, On(o, On(S(m), s))), st) == Resume(w, SendItem(w, o, m, [x], st), k, s)
    ensures Run(w, Then(Send(0), k), On(o, On(S(m), s)), st) == Resume(w, SendItem(w, o, m, [], st), k, s)
  {
    hide Run, Exec;
    var s0 := On(o, On(S(m), s));
    RunSend(w, m, o, [], k, s, st);
    RunSend(w, m, o, [x], k, s, st);
    assert PushAll([], s0) == s0;
    PushAllLast([], x, s0);
    assert [] + [x] == [x];
  }

  // ---------------------------------------------------------------- stack shuffles

  lemma RunDuplicate(w: World, x: Item, k: Code, s: Stack, st: State)
    ensures Run(w, Then(Duplicate, k), On(x, s), st) == Run(w, k, On(x, On(x, s)), st)
  {
    hide Run;
    RunThen(w, Duplicate, k, On(x, s), st);
  }

  /** The items of xs, the first one on top, above s. */
  function Above(xs: seq<Item>, s: Stack): Stack {
    if xs == [] then s else On(xs[0], Above(xs[1..], s))
  }

  lemma {:induction false} InsertUnder(x: Item, xs: seq<Item>, s: Stack)
    ensures Insert(x, Above(xs, s), |xs|) == Some(Above(xs, On(x, s)))
  {
    if xs != [] { InsertUnder(x, xs[1..], s); }
  }

  /** SWAP n moves the top item down n + 1 places, whatever lies there, and touches nothing else. */
  lemma RunSwap(w: World, k: Code, x: Item, xs: seq<Item>, s: Stack, st: State)
    requires xs != []
    ensures Run(w, Then(Swap(|xs| - 1), k), On(x, Above(xs, s)), st) == Run(w, k, Above(xs, On(x, s)), st)
  {
    hide Run;
    InsertUnder(x, xs, s);
    RunThen(w, Swap(|xs| - 1), k, On(x, Above(xs, s)), st);
  }

  /** The three counts that the handlers use. */
  lemma RunSwapFew(w: World, k: Code, s: Stack, st: State, x: Item, y: Item, z: Item, u: Item)
    ensures Run(w, Then(Swap(0), k), On(x, On(y, s)), st) == Run(w, k, On(y, On(x, s)), st)
    ensures Run(w, Then(Swap(1), k), On(x, On(y, On(z, s))), st) == Run(w, k, On(y, On(z, On(x, s))), st)
    ensures Run(w, Then(Swap(2), k), On(x, On(y, On(z, On(u, s)))), st) == Run(w, k, On(y, On(z, On(u, On(x, s)))), st)
  {
    hide Run, Exec;
    AboveFew(y, z, u, s);
    AboveFew(y, z, u, On(x, s));
    RunSwap(w, k, x, [y], s, st);
    RunSwap(w, k, x, [y, z], s, st);
    RunSwap(w, k, x, [y, z, u], s, st);
  }

  lemma AboveFew(y: Item, z: Item, u: Item, s: Stack)
    ensures Above([y], s) == On(y, s)
    ensures Above([y, z], s) == On(y, On(z, s))
    ensures Above([y, z, u], s) == On(y, On(z, On(u, s)))
  {
    AboveMore(y, [], s);
    AboveMore(z, [], s);
    AboveMore(u, [], s);
    AboveMore(y, [z], s);
    AboveMore(z, [u], s);
    AboveMore(y, [z, u], s);
    assert [y] + [z] == [y, z] && [z] + [u] == [z, u] && [y] + [z, u] == [y, z, u];
  }

  lemma AboveMore(x: Item, xs: seq<Item>, s: Stack)
    ensures Above([x] + xs, s) == On(x, Above(xs, s))
    ensures [x] + [] == [x]
  {
    assert ([x] + xs)[1..] == xs;
  }

  // ---------------------------------------------------------------- symbols, POP and local opcodes

  lemma RunMessage(w: World, m: string, k: Code, s: Stack, st: State)
    ensures Run(w, Then(Message(m), k), s, st) == Run(w, k, On(S(m), s), st)
  {
    hide Run;
    RunThen(w, Message(m), k, s, st);
  }

  lemma RunFunSym(w: World, f: string, k: Code, s: Stack, st: State)
    ensures Run(w, Then(PushFunSym(f), k), s, st) == Run(w, k, On(V(NilV), On(S(f), s)), st)
  {
    hide Run;
    RunThen(w, PushFunSym(f), k, s, st);
  }

  lemma RunPop(w: World, x: Item, k: Code, s: Stack, st: State)
    ensures Run(w, Then(Pop, k), On(x, s), st) == Run(w, k, s, st)
  {
    hide Run;
    RunThen(w, Pop, k, On(x, s), st);
  }

  /** Continue if a local could be changed. */
  function ResumeStep(w: World, v: Option<Value>, i: nat, result: bool, k: Code, s: Stack, st: State): Final {
    match v
    case None => Failed(st)
    case Some(x) => Run(w, k, if result then On(V(x), s) else s, PutLocal(i, x, st))
  }

  lemma RunAddToLocal(w: World, i: nat, d: int, k: Code, s: Stack, st: State)
    ensures Run(w, Then(LocalAddInt(i, d), k), s, st) == ResumeStep(w, AddInt(ReadLocal(i, st), d), i, false, k, s, st)
  {
    hide Run, AddInt;
    RunThen(w, LocalAddInt(i, d), k, s, st);
  }

  lemma RunLocalStep(w: World, up: bool, i: nat, k: Code, s: Stack, st: State)
    ensures Run(w, Then(if up then LocalInc(i) else LocalDec(i), k), s, st) == ResumeStep(w, Step(up, ReadLocal(i, st)), i, false, k, s, st)
  {
    hide Run, Step;
    RunThen(w, if up then LocalInc(i) else LocalDec(i), k, s, st);
  }

  lemma RunLocalIncPush(w: World, i: nat, k: Code, s: Stack, st: State)
    ensures Run(w, Then(LocalIncPush(i), k), s, st) == ResumeStep(w, Step(true, ReadLocal(i, st)), i, true, k, s, st)
  {
    hide Run, Step;
    RunThen(w, LocalIncPush(i), k, s, st);
  }

  // ---------------------------------------------------------------- operators

  lemma RunBin(w: World, op: BinOp, x: Item, y: Item, k: Code, s: Stack, st: State)
    ensures Run(w, Then(Bin(op), k), On(y, On(x, s)), st) == Resume(w, FromOption(OperateItems(w, op, x, y), st), k, s)
  {
    hide Run, OperateItems;
    RunThen(w, Bin(op), k, On(y, On(x, s)), st);
  }

  lemma RunLogical(w: World, isAnd: bool, x: Item, y: Item, k: Code, s: Stack, st: State)
    ensures Run(w, Then(if isAnd then And else Or, k), On(y, On(x, s)), st) == Resume(w, FromOption(Logical(isAnd, x, y), st), k, s)
  {
    hide Run;
    if isAnd { RunThen(w, And, k, On(y, On(x, s)), st); } else { RunThen(w, Or, k, On(y, On(x, s)), st); }
  }

  lemma RunNot(w: World, x: Item, k: Code, s: Stack, st: State)
    ensures Run(w, Then(Not, k), On(x, s), st) == Resume(w, FromOption(Inverted(x), st), k, s)
  {
    hide Run;
    RunThen(w, Not, k, On(x, s), st);
  }

  lemma RunNeg(w: World, x: Item, k: Code, s: Stack, st: State)
    ensures Run(w, Then(Neg, k), On(x, s), st) == Resume(w, FromOption(Negated(w, x), st), k, s)
  {
    hide Run;
    RunThen(w, Neg, k, On(x, s), st);
  }

  lemma RunStep(w: World, up: bool, x: Item, k: Code, s: Stack, st: State)
    ensures Run(w, Then(if up then Inc else Dec, k), On(x, s), st) == Resume(w, FromOption(StepItem(up, x), st), k, s)
  {
    hide Run, Step;
    if up { RunThen(w, Inc, k, On(x, s), st); } else { RunThen(w, Dec, k, On(x, s), st); }
  }

  // ---------------------------------------------------------------- arrays, work areas, references

  lemma RunArrayPush(w: World, b: Item, i: Item, k: Code, s: Stack, st: State)
    ensures Run(w, Then(ArrayPush, k), On(i, On(b, s)), st) == Resume(w, ReadElement(b, i, st), k, s)
  {
    hide Run, Element;
    RunThen(w, ArrayPush, k, On(i, On(b, s)), st);
  }

  lemma RunArrayPushRef(w: World, b: Item, i: Item, k: Code, s: Stack, st: State)
    ensures Run(w, Then(ArrayPushRef, k), On(i, On(b, s)), st) == ResumeRef(w, LocateElement(w, b, i, st), k, s)
  {
    hide Run, LocateElement;
    RunThen(w, ArrayPushRef, k, On(i, On(b, s)), st);
  }

  lemma RunArrayPop(w: World, b: Item, i: Item, v: Value, k: Code, s: Stack, st: State)
    ensures Run(w, Then(ArrayPop, k), On(i, On(b, On(V(v), s))), st) == ResumeUnit(w, StoreElement(w, b, i, v, st), k, s)
  {
    hide Run, LocateElement, WriteRef;
    RunThen(w, ArrayPop, k, On(i, On(b, On(V(v), s))), st);
  }

  lemma RunPushAlias(w: World, k: Code, s: Stack, st: State)
    ensures Run(w, Then(PushAlias, k), s, st) == Run(w, k, On(V(Num(st.area as real)), s), st)
  {
    hide Run;
    RunThen(w, PushAlias, k, s, st);
  }

  lemma RunPopAlias(w: World, a: Item, k: Code, s: Stack, st: State)
    ensures Run(w, Then(PopAlias, k), On(a, s), st) == Run(w, k, s, SelectArea(w, a, st))
  {
    hide Run, SelectArea;
    RunThen(w, PopAlias, k, On(a, s), st);
  }

  lemma RunSwapAlias(w: World, x: Item, a: Item, k: Code, s: Stack, st: State)
    ensures Run(w, Then(SwapAlias, k), On(x, On(a, s)), st) == Run(w, k, On(x, s), SelectArea(w, a, st))
  {
    hide Run, SelectArea;
    RunThen(w, SwapAlias, k, On(x, On(a, s)), st);
  }

  lemma RunUnref(w: World, x: Item, k: Code, s: Stack, st: State)
    ensures Run(w, Then(PushUnref, k), On(x, s), st) == ResumeAbove(w, Unref(w, x, st), x, k, s)
  {
    hide Run, Unref;
    RunThen(w, PushUnref, k, On(x, s), st);
  }

  lemma RunDuplUnref(w: World, r: Ref, k: Code, s: Stack, st: State)
    ensures Run(w, Then(DuplUnref, k), On(R(r), s), st) == ResumeBelow(w, ReadRef(w, r, st), R(r), k, s)
  {
    hide Run, ReadRef;
    RunThen(w, DuplUnref, k, On(R(r), s), st);
  }

  lemma RunOpEq(w: World, op: BinOp, r: Ref, y: Item, k: Code, s: Stack, st: State)
    ensures Run(w, Then(Pcode.OpEq(op), k), On(y, On(R(r), s)), st) == Resume(w, AsItem(OperateRef(w, op, r, y, st)), k, s)
    ensures Run(w, Then(OpEqPop(op), k), On(y, On(R(r), s)), st) == ResumeUnit(w, Drop(OperateRef(w, op, r, y, st)), k, s)
  {
    hide Run, OperateRef;
    RunThen(w, Pcode.OpEq(op), k, On(y, On(R(r), s)), st);
    RunThen(w, OpEqPop(op), k, On(y, On(R(r), s)), st);
  }

  lemma RunStepEq(w: World, up: bool, r: Ref, k: Code, s: Stack, st: State)
    ensures Run(w, Then(StepEq(up), k), On(R(r), s), st) == Resume(w, AsItem(StepRef(w, up, r, st)), k, s)
    ensures Run(w, Then(StepEqPop(up), k), On(R(r), s), st) == ResumeUnit(w, Drop(StepRef(w, up, r, st)), k, s)
  {
    hide Run, StepRef;
    RunThen(w, StepEq(up), k, On(R(r), s), st);
    RunThen(w, StepEqPop(up), k, On(R(r), s), st);
  }

  lemma RunOVarRef(w: World, o: Item, m: string, k: Code, s: Stack, st: State)
    ensures Run(w, Then(PushOVarRef, k), On(o, On(S("_" + m), s)), st) == ResumeRef(w, MessageReference(w, o, m, st), k, s)
  {
    hide Run, MessageReference;
    assert ("_" + m)[1..] == m;
    RunThen(w, PushOVarRef, k, On(o, On(S("_" + m), s)), st);
  }
}
