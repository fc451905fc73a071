/** Value-discarding mode.  The HB_EA_PUSH_POP code skips operators and runs a post-increment as
    a pre-increment; it still has the effects of evaluating the expression and popping the
    result, whenever that raises no run-time error. */
module Discard {
  import opened Values
  import opened Expressions
  import opened Pcode
  import opened Meaning
  import opened Compiler
  import opened Runs
  import opened Correctness

  /** Whether turning a post-step of this target into a pre-step loses no message: a message
      target is accessed once by either form only in plain Harbour mode. */
  predicate PostIsPre(c: Config, target: Expr) {
    target.ESend? ==> c.harbour && !c.extopt
  }

  /** The subexpressions that are themselves generated in discarding mode contain no post-step
      of a message outside plain Harbour mode, no array literal and no reference with operands of its own. */
  predicate Discardable(c: Config, e: Expr) {
    match e
    case EArray(_) => false
    case ERef(_) => false
    case EIif(_, a, b) => Discardable(c, a) && Discardable(c, b)
    case EList(_, last) => Discardable(c, last)
    case EAt(b, i, byRef) => !byRef && Discardable(c, b) && Discardable(c, i)
    case EAlias(_, b) => Discardable(c, b)
    case EStep(_, pre, l) => pre || PostIsPre(c, l)
    case ELogic(_, _, b) => c.shortcuts ==> Discardable(c, b)
    case ENot(x) => c.harbour ==> Discardable(c, x)
    case ENeg(x) => c.harbour ==> Discardable(c, x)
    case EBin(_, a, b) => c.harbour ==> Discardable(c, a) && Discardable(c, b)
    case _ => true
  }

  /** A successful evaluation has the same effect on the state as evaluation for effect. */
  lemma {:induction false} EffectOfEval(w: World, c: Config, e: Expr, st: State)
    requires WellFormed(c, e) && Discardable(c, e) && Eval(w, c, e, st).Ok?
    ensures Effect(w, c, e, st) == Drop(Eval(w, c, e, st))
    decreases e, 2
  {
    hide Eval, Effect, WellFormed, Discardable;
    match e
    case EIif(_, _, _) => EffectOfArms(w, c, e, st);
    case ELogic(_, _, _) => EffectOfArms(w, c, e, st);
    case EList(_, _) => EffectOfRest(w, c, e, st);
    case EAlias(_, _) => EffectOfRest(w, c, e, st);
    case EAt(_, _, _) => EffectOfPair(w, c, e, st);
    case EBin(_, _, _) => EffectOfPair(w, c, e, st);
    case EAssign(_, _) => EffectOfAssign(w, c, e, st);
    case EStep(_, _, _) => EffectOfUnary(w, c, e, st);
    case ENot(_) => EffectOfUnary(w, c, e, st);
    case ENeg(_) => EffectOfUnary(w, c, e, st);
    case _ => EffectOfOther(w, c, e, st);
  }

  lemma {:induction false} EffectOfArms(w: World, c: Config, e: Expr, st: State)
    requires e.EIif? || e.ELogic?
    requires WellFormed(c, e) && Discardable(c, e) && Eval(w, c, e, st).Ok?
    ensures Effect(w, c, e, st) == Drop(Eval(w, c, e, st))
    decreases e, 1
  {
    hide Logical, Refer;
    if e.EIif? {
      var o := Eval(w, c, e.cond, st);
      EffectOfEval(w, c, if Condition(o.value).value then e.thn else e.els, o.state);
    } else if c.shortcuts {
      var o := Eval(w, c, e.left, st);
      if Condition(o.value) == Some(e.isAnd) { EffectOfEval(w, c, e.right, o.state); }
    }
  }

  lemma {:induction false} EffectOfRest(w: World, c: Config, e: Expr, st: State)
    requires e.EList? || e.EAlias?
    requires WellFormed(c, e) && Discardable(c, e) && Eval(w, c, e, st).Ok?
    ensures Effect(w, c, e, st) == Drop(Eval(w, c, e, st))
    decreases e, 1
  {
    hide SelectArea, SelectNumber, Refer;
    if e.EList? {
      EffectOfEval(w, c, e.last, EffectAll(w, c, e.init, st).state);
    } else {
      var o := Eval(w, c, e.alias, st);
      EffectOfEval(w, c, e.body, SelectArea(w, o.value, o.state));
    }
  }

  lemma {:induction false} EffectOfPair(w: World, c: Config, e: Expr, st: State)
    requires e.EAt? || e.EBin?
    requires WellFormed(c, e) && Discardable(c, e) && Eval(w, c, e, st).Ok?
    ensures Effect(w, c, e, st) == Drop(Eval(w, c, e, st))
    decreases e, 1
  {
    hide LocateElement, Element, OperateItems, Refer;
    if e.EAt? { EffectOfBoth(w, c, e.base, e.index, e, st); } else if c.harbour { EffectOfBoth(w, c, e.left, e.right, e, st); }
  }

  lemma {:induction false} EffectOfUnary(w: World, c: Config, e: Expr, st: State)
    requires e.EStep? || e.ENot? || e.ENeg?
    requires WellFormed(c, e) && Discardable(c, e) && Eval(w, c, e, st).Ok?
    ensures Effect(w, c, e, st) == Drop(Eval(w, c, e, st))
    decreases e, 1
  {
    hide EvalStep, Inverted, Negated;
    if e.EStep? {
      if !e.pre { PostAsPre(w, c, e.up, e.target, st); }
    } else if c.harbour {
      EffectOfEval(w, c, e.arg, st);
    }
  }

  lemma EffectOfOther(w: World, c: Config, e: Expr, st: State)
    requires e.ENil? || e.ENum? || e.EStr? || e.ELog? || e.EVar? || e.EVarRef? || e.ERef? || e.EArray? || e.ECall? || e.ESend? || e.EOpEq?
    requires Discardable(c, e) && Eval(w, c, e, st).Ok?
    ensures Effect(w, c, e, st) == Drop(Eval(w, c, e, st))
  {
    hide EvalOpEq, Refer, NewArray, CallFunction, SendItem;
  }

  lemma {:induction false} EffectOfBoth(w: World, c: Config, a: Expr, b: Expr, whole: Expr, st: State)
    requires a < whole && b < whole
    requires WellFormed(c, a) && Discardable(c, a) && WellFormed(c, b) && Discardable(c, b)
    requires EvalPair(w, c, a, b, st).Ok?
    ensures EffectBoth(w, c, a, b, st) == Drop(EvalPair(w, c, a, b, st))
    decreases whole, 0
  {
    hide Eval, Effect, WellFormed, Discardable;
    EffectOfEval(w, c, a, st);
    EffectOfEval(w, c, b, Eval(w, c, a, st).state);
  }

  lemma EffectOfAssign(w: World, c: Config, e: Expr, st: State)
    requires e.EAssign? && WellFormed(c, e) && Eval(w, c, e, st).Ok?
    ensures Effect(w, c, e, st) == Drop(Eval(w, c, e, st))
  {
    hide Store;
    if !e.target.ESend? {
      YieldsValue(w, c, e.source, st);
      var o := Eval(w, c, e.source, st);
      assert Unref(w, o.value, o.state) == Ok(o.value.value, o.state);
      assert Store(w, c, e.target, o.value.value, o.state).value == ();
      assert EvalAssign(w, c, e, st) == WithResult(Store(w, c, e.target, o.value.value, o.state), o.value);
    }
  }

  /** A discarded post-step is a pre-step. */
  lemma PostAsPre(w: World, c: Config, up: bool, l: Expr, st: State)
    requires Target(c, l) && PostIsPre(c, l) && EvalStep(w, c, up, false, l, st).Ok?
    ensures Drop(EvalStep(w, c, up, true, l, st)) == Drop(EvalStep(w, c, up, false, l, st))
  {
    hide Store, AccessPair;
    if !StepsByRef(c, l) && !l.ESend? {
      assert EvalStep(w, c, up, false, l, st) == GenericStep(w, c, up, false, l, st);
      assert EvalStep(w, c, up, true, l, st) == GenericStep(w, c, up, true, l, st);
    }
    if StepsByRef(c, l) { ReadKeepsState(w, c, l, st); }
  }

  /** Reading a variable or an element by reference changes nothing. */
  lemma ReadKeepsState(w: World, c: Config, l: Expr, st: State)
    requires Target(c, l) && !l.ESend? && Locate(w, c, l, st).Ok?
    ensures var o := Locate(w, c, l, st); ReadRef(w, o.value, o.state).state == o.state
  {
    hide Eval;
  }

  predicate DiscardableAll(c: Config, es: Exprs) {
    match es
    case ENone => true
    case EMore(e, t) => Discardable(c, e) && DiscardableAll(c, t)
  }

  /** A discarded array literal only leaves out the array itself, which nothing refers to. */
  lemma DiscardedArray(w: World, c: Config, items: Exprs, st: State)
    requires WellFormedAll(c, items) && DiscardableAll(c, items) && Eval(w, c, EArray(items), st).Ok?
    ensures var st1, o := Eval(w, c, EArray(items), st).state, Effect(w, c, EArray(items), st);
      && o.Ok? && |st1.arrays| == |o.state.arrays| + 1
      && o.state == st1.(arrays := st1.arrays[..|st1.arrays| - 1])
  {
    hide SelectArea;
    EffectOfAll(w, c, items, st);
    var st2 := EvalAll(w, c, items, st).state;
    var xs := EvalAll(w, c, items, st).value;
    assert (st2.arrays + [ItemValues(xs)])[..|st2.arrays|] == st2.arrays;
  }

  /** Array literals where nothing is evaluated after them: in an arm of a conditional or as the last
      item of a list, in any nesting. */
  predicate TailDiscardable(c: Config, e: Expr) {
    Discardable(c, e) ||
    match e
    case EArray(items) => DiscardableAll(c, items)
    case EIif(_, a, b) => TailDiscardable(c, a) && TailDiscardable(c, b)
    case EList(_, last) => TailDiscardable(c, last)
    case _ => false
  }

  /** The same state, or the second one has one array more, the last one made. */
  predicate SameButLastArray(st: State, st1: State) {
    st == st1 || (|st1.arrays| > 0 && st == st1.(arrays := st1.arrays[..|st1.arrays| - 1]))
  }

  /** A discarded expression with such literals has the effects of the pushed one. */
  lemma {:induction false} DiscardedTail(w: World, c: Config, e: Expr, st: State)
    requires WellFormed(c, e) && TailDiscardable(c, e) && Eval(w, c, e, st).Ok?
    ensures Effect(w, c, e, st).Ok? && SameButLastArray(Effect(w, c, e, st).state, Eval(w, c, e, st).state)
    decreases e
  {
    hide NewArray, EvalOpEq, EvalStep, EvalAssign, Store, SelectArea, Discardable;
    if Discardable(c, e) {
      EffectOfEval(w, c, e, st);
    } else {
      match e
      case EArray(items) => DiscardedArray(w, c, items, st);
      case EIif(x, a, b) =>
        var o := Eval(w, c, x, st);
        DiscardedTail(w, c, if Condition(o.value).value then a else b, o.state);
      case EList(init, last) => DiscardedTail(w, c, last, EffectAll(w, c, init, st).state);
    }
  }

  lemma {:induction false} EffectOfAll(w: World, c: Config, es: Exprs, st: State)
    requires WellFormedAll(c, es) && DiscardableAll(c, es) && EvalAll(w, c, es, st).Ok?
    ensures EffectAll(w, c, es, st) == Drop(EvalAll(w, c, es, st))
  {
    hide Eval, Effect, WellFormed, Discardable;
    match es
    case ENone =>
    case EMore(e, t) =>
      EffectOfEval(w, c, e, st);
      EffectOfAll(w, c, t, Eval(w, c, e, st).state);
  }

  /** The generated code: discarding instead of pushing and popping is invisible to any code k
      that follows, unless pushing fails. */
  lemma DiscardSound(w: World, c: Config, e: Expr, k: Code, s: Stack, st: State)
    requires WellFormed(c, e) && Discardable(c, e)
    requires Run(w, PushCode(c, e, Then(Pop, End)), s, st).Done?
    ensures Run(w, DropCode(c, e, k), s, st) == Run(w, PushCode(c, e, Then(Pop, k)), s, st)
  {
    hide PushCode, DropCode, Eval, Effect, Exec, WellFormed, Discardable;
    PushCorrect(w, c, e, Then(Pop, End), s, st);
    PushCorrect(w, c, e, Then(Pop, k), s, st);
    ResumePop(w, Eval(w, c, e, st), k, s);
    EffectOfEval(w, c, e, st);
    DropCorrect(w, c, e, k, s, st);
  }

  // ---------------------------------------------------------------- where it is not

  /** A world in which functions and methods only record that they were called. */
  ghost predicate Recording(w: World) {
    forall o, m, args, st :: (w.send)(o, m, args, st) == Ok(Num(1.0), st)
  }

  function Receiver(c: Config, l: Expr, st: State): Option<Value>
    requires l.ESend?
  {
    if l.object_.EVar? then LoadVar(c, l.object_.name, st) else None
  }

  /** For a message of a variable, the discarded post-step has the effect of the wanted one
      exactly in plain Harbour mode: elsewhere the wanted form sends the access message once more. */
  lemma PostMessageExact(w: World, c: Config, up: bool, l: Expr, st: State)
    requires l.ESend? && Target(c, l) && Recording(w)
    requires Receiver(c, l, st).Some? && EvalStep(w, c, up, false, l, st).Ok?
    ensures Effect(w, c, EStep(up, false, l), st) == Drop(EvalStep(w, c, up, false, l, st)) <==> c.harbour && !c.extopt
  {
    if c.harbour && !c.extopt {
      PostAsPre(w, c, up, l, st);
    } else {
      PostSendsMore(w, c, up, l, st);
    }
  }

  lemma PostSendsMore(w: World, c: Config, up: bool, l: Expr, st: State)
    requires l.ESend? && Target(c, l) && Recording(w) && !(c.harbour && !c.extopt)
    requires Receiver(c, l, st).Some? && EvalStep(w, c, up, false, l, st).Ok?
    ensures |EvalStep(w, c, up, false, l, st).state.log| == |st.log| + 3
    ensures EvalStep(w, c, up, true, l, st).Ok? ==> |EvalStep(w, c, up, true, l, st).state.log| == |st.log| + 2
  {
    hide SendMessage, Eval;
    var v := Receiver(c, l, st).value;
    ReceiverEval(w, c, l, v, st);
    var st1 := Recorded(w, v, l.message, [], st);
    if c.extopt {
      var st2 := Recorded(w, v, l.message, [], st1);
      assert Locate(w, c, l, st) == MessageReference(w, V(v), l.message, st);
      assert StepRef(w, up, MessageRef(v, l.message), st) == WriteBack(w, MessageRef(v, l.message), Step(up, Num(1.0)).value, st1);
      var st3 := Recorded(w, v, "_" + l.message, [V(Step(up, Num(1.0)).value)], st2);
      var st4 := Recorded(w, v, "_" + l.message, [V(Step(up, Num(1.0)).value)], st1);
    } else {
      StepMessageSends(w, c, up, l, st);
      SendEval(w, c, l, st);
      StepMessageSends(w, c, up, l, st1);
    }
  }

  lemma SendEval(w: World, c: Config, l: Expr, st: State)
    requires l.ESend? && l.parms.ENone? && Recording(w) && Receiver(c, l, st).Some?
    ensures Eval(w, c, l, st) == Ok(V(Num(1.0)), Record(w, Receiver(c, l, st).value, l.message, [], st))
  {
    var v := Receiver(c, l, st).value;
    ReceiverEval(w, c, l, v, st);
    var _ := Recorded(w, v, l.message, [], st);
    assert EvalAll(w, c, l.parms, st) == Ok([], st);
  }

  function Record(w: World, o: Value, m: string, args: seq<Item>, st: State): State {
    st.(log := st.log + [Sent(o, m, args)])
  }

  lemma Recorded(w: World, o: Value, m: string, args: seq<Item>, st: State) returns (st1: State)
    requires Recording(w)
    ensures st1 == Record(w, o, m, args, st) && SendMessage(w, o, m, args, st) == Ok(Num(1.0), st1)
  {
    st1 := Record(w, o, m, args, st);
  }

  lemma ReceiverEval(w: World, c: Config, l: Expr, v: Value, st: State)
    requires l.ESend? && Receiver(c, l, st) == Some(v)
    ensures Eval(w, c, l.object_, st) == Ok(V(v), st)
    ensures forall m, args :: Eval(w, c, l.object_, Record(w, v, m, args, st)) == Ok(V(v), Record(w, v, m, args, st))
    ensures forall m, args :: Receiver(c, l, Record(w, v, m, args, st)) == Some(v)
  {
  }

  lemma StepMessageSends(w: World, c: Config, up: bool, l: Expr, st: State)
    requires l.ESend? && Recording(w) && Receiver(c, l, st).Some?
    ensures StepMessage(w, c, up, l, st).Ok? && |StepMessage(w, c, up, l, st).state.log| == |st.log| + 2
  {
    hide SendMessage, Eval;
    var v := Receiver(c, l, st).value;
    ReceiverEval(w, c, l, v, st);
    var st1 := Recorded(w, v, l.message, [], st);
    assert AccessPair(w, c, l, st) == Ok((V(v), V(Num(1.0))), st1);
    var st2 := Recorded(w, v, "_" + l.message, [V(Step(up, Num(1.0)).value)], st1);
  }

  /** The operand of a discarded operator may fail the operator: no error is raised then. */
  lemma DiscardHidesError(w: World, c: Config, s: Stack, st: State)
    requires c.harbour && !c.extopt
    ensures var e := EBin(Plus, ENum(1), ELog(true));
      && Run(w, PushCode(c, e, Then(Pop, End)), s, st) == Failed(st)
      && Run(w, DropCode(c, e, End), s, st) == Done(s, st)
  {
    hide Run, Exec;
    var e := EBin(Plus, ENum(1), ELog(true));
    PushCorrect(w, c, e, Then(Pop, End), s, st);
    DropCorrect(w, c, e, End, s, st);
    assert Eval(w, c, e, st) == Err(st);
    assert DropCode(c, e, End) == End;
    RunEnd(w, s, st);
  }

  lemma RunEnd(w: World, s: Stack, st: State)
    ensures Run(w, End, s, st) == Done(s, st)
  {
  }
}
