/** References: which operands a reference can be made of, and what one to a conditional is. */
module References {
  import opened Values
  import opened Expressions
  import opened Pcode
  import opened Meaning
  import opened Compiler
  import opened Shape
  import opened Encoding
  import opened ByteMachine
  import opened StackDepth
  import opened Discipline
  import opened Reduction

  // ---------------------------------------------------------------- code without errors

  /** Code generation reports no error of its own: everything can be generated. */
  predicate Accepted(code: Code) {
    match code
    case End => true
    case Then(i, t) => !i.Refused? && Accepted(t)
  }

  lemma {:induction false} AcceptedAppend(a: Code, b: Code)
    ensures Accepted(Append(a, b)) <==> Accepted(a) && Accepted(b)
  {
    match a
    case End =>
    case Then(_, t) => AcceptedAppend(t, b);
  }

  /** Code that fits has been accepted. */
  lemma {:induction false} FitsAccepted(code: Code)
    requires Fits(code)
    ensures Accepted(code)
  {
    if code.Then? { FitsAccepted(code.tail); }
  }

  lemma {:induction false} ChecksAccepted(code: Code, d: Option<nat>, labels: Labels, final: nat)
    requires Checks(code, d, labels, final)
    ensures Accepted(code)
  {
    hide Takes, StackDepth.Leaves, Distance;
    if code.Then? {
      var here, passed := Arrive(code, d, labels).value, Passed(code, labels);
      ChecksAccepted(code.tail, Onward(code.head, here), Pending(code.head, code.tail, here, passed), final);
    }
  }

  /** Every well-formed expression is accepted, in front of any code that is. */
  lemma FormedAccepted(c: Config, e: Expr, k: Code)
    requires WellFormed(c, e)
    ensures Accepted(PushCode(c, e, k)) <==> Accepted(k)
  {
    hide PushCode, Checks, WellFormed;
    PushDisciplined(c, e, 0);
    ChecksAccepted(PushCode(c, e, End), Some(0), map[], 1);
    PushShape(c, e, End, k);
    AcceptedAppend(PushCode(c, e, End), k);
  }

  // ---------------------------------------------------------------- what can be referred to

  /** A reference on its own: accepted exactly for variables that are no fields, elements, messages and
      references. */
  lemma ReferenceAccepted(c: Config, x: Expr, k: Code)
    requires WellFormed(c, x)
    ensures Accepted(PushCode(c, ERef(x), k)) <==> Referable(c, x) && Accepted(k)
  {
    hide Accepted;
    if Referable(c, x) {
      FormedAccepted(c, ERef(x), k);
    } else {
      assert PushCode(c, ERef(x), k) == Then(Refused, k);
      RefusedFirst(k);
    }
  }

  lemma RefusedFirst(k: Code)
    ensures !Accepted(Then(Refused, k))
  {
  }

  /** Where `@x` is accepted once it has been reduced: x is one of these, or a conditional with both arms
      of these. */
  predicate ReferableOrArms(c: Config, x: Expr) {
    Referable(c, x) || (x.EIif? && Referable(c, x.thn) && Referable(c, x.els))
  }

  /** Reducing `@e` and generating code for it reports no error if and only if e reduces to such an operand. */
  lemma ReducedReferenceAccepted(c: Config, e: Expr, k: Code)
    requires WellFormed(c, Reduce(c, e)) && Accepted(k)
    ensures Accepted(PushCode(c, Reduce(c, ERef(e)), k)) <==> ReferableOrArms(c, Reduce(c, e))
  {
    hide Accepted, PushCode;
    var x := Reduce(c, e);
    assert Reduce(c, ERef(e)) == ReferTo(x);
    if x.EIif? { ArmsAccepted(c, x, k); } else { ReferenceAccepted(c, x, k); }
  }

  lemma ArmsAccepted(c: Config, x: Expr, k: Code)
    requires x.EIif? && WellFormed(c, x) && Accepted(k)
    ensures Accepted(PushCode(c, ReferTo(x), k)) <==> Referable(c, x.thn) && Referable(c, x.els)
  {
    hide Accepted, CodeSize;
    var EIif(q, a, b) := x;
    var n, m := CodeSize(PushCode(c, ERef(a), End)), CodeSize(PushCode(c, ERef(b), End));
    var kb := PushCode(c, ERef(b), k);
    var kj := Then(Jump(FAR + m), kb);
    var ka := PushCode(c, ERef(a), kj);
    assert PushCode(c, ReferTo(x), k) == PushCode(c, q, Then(JumpFalse(FAR + n + FAR), ka));
    FormedAccepted(c, q, Then(JumpFalse(FAR + n + FAR), ka));
    AcceptedJump(JumpFalse(FAR + n + FAR), ka);
    ReferenceAccepted(c, a, kj);
    AcceptedJump(Jump(FAR + m), kb);
    ReferenceAccepted(c, b, k);
  }

  lemma AcceptedJump(j: Instr, k: Code)
    requires j.Jump? || j.JumpFalse?
    ensures Accepted(Then(j, k)) <==> Accepted(k)
  {
  }

  /** A conditional in an arm of a conditional cannot be referred to: `@iif( p, iif( q, a, b ), d )`. */
  lemma NestedConditionalRefused(c: Config, p: string, q: string, a: string, b: string, d: string)
    requires Referable(c, EVar(a)) && Referable(c, EVar(b)) && Referable(c, EVar(d))
    ensures var inner := EIif(EVar(q), EVar(a), EVar(b));
      && Accepted(PushCode(c, Reduce(c, ERef(inner)), End))
      && !Accepted(PushCode(c, Reduce(c, ERef(EIif(EVar(p), inner, EVar(d)))), End))
      && !Fits(PushCode(c, Reduce(c, ERef(EIif(EVar(p), inner, EVar(d)))), End))
  {
    hide PushCode;
    var inner := EIif(EVar(q), EVar(a), EVar(b));
    var outer := EIif(EVar(p), inner, EVar(d));
    assert Reduce(c, inner) == inner && Reduce(c, outer) == outer;
    assert WellFormed(c, inner) && WellFormed(c, outer);
    ReducedReferenceAccepted(c, inner, End);
    ReducedReferenceAccepted(c, outer, End);
    var code := PushCode(c, Reduce(c, ERef(outer)), End);
    if Fits(code) { FitsAccepted(code); }
  }

  // ---------------------------------------------------------------- what a reference is

  /** The rewriting of a reference to a conditional keeps its meaning, for any operand. */
  lemma ReferToMeaning(w: World, c: Config, x: Expr, st: State)
    ensures Eval(w, c, ReferTo(x), st) == Eval(w, c, ERef(x), st)
  {
    hide Locate;
  }

  /** Storing through a reference to a variable, an element or a message is assigning to it. */
  lemma ReferenceStores(w: World, c: Config, l: Expr, v: Value, st: State)
    requires (l.EVar? && !c.scope(l.name).Field?) || l.EAt? || l.ESend?
    ensures var o := Eval(w, c, ERef(l), st);
      o.Ok? ==> o.value.R? && WriteRef(w, o.value.ref, v, o.state) == Store(w, c, l, v, st)
  {
    hide Locate, WriteRef, Store;
    assert Eval(w, c, ERef(l), st) == Refer(w, c, l, st);
    if l.EVar? { VariableBoth(w, c, l.name, v, st); } else if l.EAt? { ElementBoth(w, c, l, v, st); } else { SendBoth(w, c, l, v, st); }
  }

  lemma VariableBoth(w: World, c: Config, n: string, v: Value, st: State)
    requires !c.scope(n).Field?
    ensures var o := Locate(w, c, EVar(n), st); o.Ok? ==> WriteRef(w, o.value, v, o.state) == Store(w, c, EVar(n), v, st)
  {
  }

  lemma ElementBoth(w: World, c: Config, l: Expr, v: Value, st: State)
    requires l.EAt?
    ensures var o := Locate(w, c, l, st); o.Ok? ==> WriteRef(w, o.value, v, o.state) == Store(w, c, l, v, st)
  {
    hide Element, WriteRef, LocateElement;
  }

  lemma SendBoth(w: World, c: Config, l: Expr, v: Value, st: State)
    requires l.ESend?
    ensures var o := Locate(w, c, l, st); o.Ok? ==> WriteRef(w, o.value, v, o.state) == Store(w, c, l, v, st)
  {
    hide SendMessage;
  }

  /** `@iif( c, a, b )`, compiled as `iif( c, @a, @b )`, pushes a reference to the chosen arm: storing
      through it is assigning to the conditional. */
  lemma IifReference(w: World, c: Config, l: Expr, v: Value, st: State)
    requires l.EIif? && Referable(c, l.thn) && Referable(c, l.els) && Target(c, l)
    ensures var o := Eval(w, c, ReferTo(l), st);
      o.Ok? ==> o.value.R? && WriteRef(w, o.value.ref, v, o.state) == Store(w, c, l, v, st)
  {
    hide WriteRef, StoreVar, Refer, LocateElement, Element;
    var o := Eval(w, c, l.cond, st);
    if o.Ok? && Condition(o.value).Some? {
      ReferenceStores(w, c, l.thn, v, o.state);
      ReferenceStores(w, c, l.els, v, o.state);
    }
  }
}
