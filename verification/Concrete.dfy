/** What evaluation does to the store, in terms of positions, slots, names and log entries.  The machine and
    the evaluator share the primitive operations; these are the laws of the operations themselves. */
module Concrete {
  import opened Values
  import opened Expressions
  import opened Meaning

  // ---------------------------------------------------------------- arrays

  /** An array literal is a new array that holds its items in order; nothing else changes. */
  lemma ArrayLiteral(w: World, c: Config, items: Exprs, st: State, xs: seq<Item>, st1: State)
    requires EvalAll(w, c, items, st) == Ok(xs, st1) && forall k :: 0 <= k < |xs| ==> xs[k].V?
    ensures var o, a := Eval(w, c, EArray(items), st), |st1.arrays|;
      && o.Ok? && o.value == V(Arr(a)) && |o.state.arrays| == a + 1 && |o.state.arrays[a]| == |xs|
      && (forall k :: 0 <= k < |xs| ==> o.state.arrays[a][k] == xs[k].value)
      && o.state == st1.(arrays := o.state.arrays) && o.state.arrays[..a] == st1.arrays
  {
  }

  /** n is r without its fraction. */
  predicate Whole(r: real, n: int) {
    if r >= 0.0 then n as real <= r < n as real + 1.0 else n as real - 1.0 < r <= n as real
  }

  lemma TruncWhole(r: real, n: int)
    requires Whole(r, n)
    ensures Trunc(r) == n
  {
  }

  /** `b[ i ]` is the item at that position, counted from 1; other positions are an error. */
  lemma ElementRead(w: World, c: Config, b: Expr, i: Expr, st: State, a: nat, st1: State, r: real, n: int, st2: State)
    requires Eval(w, c, b, st) == Ok(V(Arr(a)), st1) && Eval(w, c, i, st1) == Ok(V(Num(r)), st2) && Whole(r, n) && a < |st2.arrays|
    ensures Eval(w, c, EAt(b, i, false), st) == if 1 <= n <= |st2.arrays[a]| then Ok(V(st2.arrays[a][n - 1]), st2) else Err(st2)
  {
    TruncWhole(r, n);
  }

  /** Nothing but an array has elements, and nothing but a number selects one. */
  lemma NoElement(w: World, c: Config, b: Expr, i: Expr, st: State, x: Value, st1: State, y: Value, st2: State)
    requires Eval(w, c, b, st) == Ok(V(x), st1) && Eval(w, c, i, st1) == Ok(V(y), st2) && (!x.Arr? || !y.Num?)
    ensures Eval(w, c, EAt(b, i, false), st) == Err(st2)
  {
  }

  /** `b[ i ] := r` changes that position of that array and nothing else. */
  lemma ElementStored(w: World, c: Config, b: Expr, i: Expr, e: Expr, st: State, v: Value, st0: State, a: nat, st1: State, r: real, n: int, st2: State)
    requires Eval(w, c, e, st) == Ok(V(v), st0) && Eval(w, c, b, st0) == Ok(V(Arr(a)), st1) && Eval(w, c, i, st1) == Ok(V(Num(r)), st2)
    requires Whole(r, n) && a < |st2.arrays|
    ensures Eval(w, c, EAssign(EAt(b, i, false), e), st)
         == if 1 <= n <= |st2.arrays[a]| then Ok(V(v), st2.(arrays := st2.arrays[a := st2.arrays[a][n - 1 := v]])) else Err(st2)
  {
    hide Trunc, Eval, Store;
    TruncWhole(r, n);
    StoredElement(w, c, b, i, v, st0, a, st1, r, n, st2);
    AssignedTo(w, c, EAt(b, i, false), e, st, v, st0);
  }

  lemma AssignedTo(w: World, c: Config, l: Expr, e: Expr, st: State, v: Value, st1: State)
    requires !l.ESend? && Eval(w, c, e, st) == Ok(V(v), st1)
    ensures Eval(w, c, EAssign(l, e), st) == WithResult(Store(w, c, l, v, st1), V(v))
  {
    hide Store;
    assert Unref(w, V(v), st1) == Ok(v, st1);
  }

  lemma StoredElement(w: World, c: Config, b: Expr, i: Expr, v: Value, st: State, a: nat, st1: State, r: real, n: int, st2: State)
    requires Eval(w, c, b, st) == Ok(V(Arr(a)), st1) && Eval(w, c, i, st1) == Ok(V(Num(r)), st2) && Trunc(r) == n && a < |st2.arrays|
    ensures Store(w, c, EAt(b, i, false), v, st)
         == if 1 <= n <= |st2.arrays[a]| then Ok((), st2.(arrays := st2.arrays[a := st2.arrays[a][n - 1 := v]])) else Err(st2)
  {
    hide Eval, Trunc;
  }

  lemma OneNumber(w: World, c: Config, x: int, rest: Exprs, st: State, xs: seq<Item>, st1: State)
    requires EvalAll(w, c, rest, st) == Ok(xs, st1)
    ensures EvalAll(w, c, EMore(ENum(x), rest), st) == Ok([V(Num(x as real))] + xs, st1)
  {
    assert Eval(w, c, ENum(x), st) == Ok(V(Num(x as real)), st);
  }

  /** An array that is designated by a reference is stored into like one that is given itself. */
  lemma StoredThrough(w: World, c: Config, x: string, i: Expr, v: Value, st: State, a: nat, r: real, st1: State)
    requires Eval(w, c, EVarRef(x), st).Ok? && Eval(w, c, EVar(x), st) == Ok(V(Arr(a)), st)
    requires Eval(w, c, i, st) == Ok(V(Num(r)), st1) && LoadVar(c, x, st1) == LoadVar(c, x, st)
    requires !c.scope(x).Undeclared?
    ensures Store(w, c, EAt(EVarRef(x), i, false), v, st) == Store(w, c, EAt(EVar(x), i, false), v, st)
  {
    hide Eval, ReadRef, LoadVar, WriteRef, Element;
    ReadThrough(w, c, x, st, a, st1);
    var ref := Eval(w, c, EVarRef(x), st).value.ref;
    assert LocateElement(w, R(ref), V(Num(r)), st1) == LocateElement(w, V(Arr(a)), V(Num(r)), st1);
  }

  lemma ReadThrough(w: World, c: Config, x: string, st: State, a: nat, st1: State)
    requires Eval(w, c, EVarRef(x), st).Ok? && Eval(w, c, EVar(x), st) == Ok(V(Arr(a)), st)
    requires LoadVar(c, x, st1) == LoadVar(c, x, st) && !c.scope(x).Undeclared?
    ensures var o := Eval(w, c, EVarRef(x), st);
      o.state == st && o.value.R? && ReadRef(w, o.value.ref, st1) == Ok(Arr(a), st1)
  {
  }

  /** `{ x, y }[ 1 ]` is x and `{ x, y }[ 2 ]` is y. */
  lemma PairElements(w: World, c: Config, x: int, y: int, k: int, st: State)
    ensures var o := Eval(w, c, EAt(EArray(EMore(ENum(x), EMore(ENum(y), ENone))), ENum(k), false), st);
      && (k == 1 ==> o.Ok? && o.value == V(Num(x as real))) && (k == 2 ==> o.Ok? && o.value == V(Num(y as real)))
      && (k < 1 || k > 2 ==> o.Err?)
  {
    var items, xs := EMore(ENum(x), EMore(ENum(y), ENone)), [V(Num(x as real)), V(Num(y as real))];
    var vx, vy := V(Num(x as real)), V(Num(y as real));
    assert [vy] + [] == [vy] && [vx] + [vy] == xs;
    OneNumber(w, c, y, ENone, st, [], st);
    OneNumber(w, c, x, EMore(ENum(y), ENone), st, [vy], st);
    ArrayLiteral(w, c, items, st, xs, st);
    var o := Eval(w, c, EArray(items), st);
    assert Eval(w, c, ENum(k), o.state) == Ok(V(Num(k as real)), o.state);
    ElementRead(w, c, EArray(items), ENum(k), st, |st.arrays|, o.state, k as real, k, o.state);
  }

  // ---------------------------------------------------------------- variables

  /** Where an assigned value is afterwards, and that nothing else changes. */
  lemma VariableStored(w: World, c: Config, x: string, e: Expr, st: State, v: Value, st1: State)
    requires Eval(w, c, e, st) == Ok(V(v), st1)
    ensures Eval(w, c, EAssign(EVar(x), e), st)
         == match c.scope(x)
            case Local(i) => Ok(V(v), st1.(locals := st1.locals[i := v]))
            case Detached(i) => Ok(V(v), st1.(locals := st1.locals[-(i as int) := v]))
            case Static(i) => Ok(V(v), st1.(statics := st1.statics[i := v]))
            case Field => if (st1.area, x) in st1.fields then Ok(V(v), st1.(fields := st1.fields[(st1.area, x) := v])) else Err(st1)
            case _ => Ok(V(v), st1.(memvars := st1.memvars[x := v]))
  {
    hide Eval;
    AssignedTo(w, c, EVar(x), e, st, v, st1);
    assert Store(w, c, EVar(x), v, st1) == StoreVar(c, x, v, st1);
    var o := StoreVar(c, x, v, st1);
    assert WithResult(o, V(v)) == if o.Ok? then Ok(V(v), o.state) else Err(o.state);
  }

  /** What a variable reads: NIL in a fresh local or static, an error for a memvar or field that is not
      there; an undeclared name is a field of the current work area if there is one, else a memvar. */
  lemma VariableRead(w: World, c: Config, x: string, st: State)
    ensures Eval(w, c, EVar(x), st)
         == match c.scope(x)
            case Local(i) => Ok(V(if i in st.locals then st.locals[i] else NilV), st)
            case Detached(i) => Ok(V(if -(i as int) in st.locals then st.locals[-(i as int)] else NilV), st)
            case Static(i) => Ok(V(if i in st.statics then st.statics[i] else NilV), st)
            case Memvar => if x in st.memvars then Ok(V(st.memvars[x]), st) else Err(st)
            case Field => if (st.area, x) in st.fields then Ok(V(st.fields[(st.area, x)]), st) else Err(st)
            case Undeclared =>
              if !c.forceMemvars && (st.area, x) in st.fields then Ok(V(st.fields[(st.area, x)]), st)
              else if x in st.memvars then Ok(V(st.memvars[x]), st) else Err(st)
  {
  }

  /** An assigned variable reads what was assigned, unless its name is undeclared and a field hides it. */
  lemma AssignedRead(w: World, c: Config, x: string, e: Expr, st: State, v: Value, st1: State)
    requires Eval(w, c, e, st) == Ok(V(v), st1) && Eval(w, c, EAssign(EVar(x), e), st).Ok?
    ensures var st2 := Eval(w, c, EAssign(EVar(x), e), st).state;
      Eval(w, c, EVar(x), st2) == Ok(V(v), st2)
      <==> !(c.scope(x).Undeclared? && !c.forceMemvars && (st1.area, x) in st1.fields && st1.fields[(st1.area, x)] != v)
  {
    VariableStored(w, c, x, e, st, v, st1);
    VariableRead(w, c, x, Eval(w, c, EAssign(EVar(x), e), st).state);
  }

  // ---------------------------------------------------------------- operators

  /** `a + b` and `a - b`: numbers, dates with days, and strings. */
  lemma NumbersAdded(w: World, c: Config, a: Expr, b: Expr, st: State, x: real, st1: State, y: real, st2: State)
    requires Eval(w, c, a, st) == Ok(V(Num(x)), st1) && Eval(w, c, b, st1) == Ok(V(Num(y)), st2)
    ensures Eval(w, c, EBin(Plus, a, b), st) == Ok(V(Num(x + y)), st2) && Eval(w, c, EBin(Minus, a, b), st) == Ok(V(Num(x - y)), st2)
  {
  }

  lemma DatesAdded(w: World, c: Config, a: Expr, b: Expr, st: State, d: int, st1: State, r: real, n: int, st2: State)
    requires Eval(w, c, a, st) == Ok(V(Date(d)), st1) && Eval(w, c, b, st1) == Ok(V(Num(r)), st2) && Whole(r, n)
    ensures Eval(w, c, EBin(Plus, a, b), st) == Ok(V(Date(d + n)), st2) && Eval(w, c, EBin(Minus, a, b), st) == Ok(V(Date(d - n)), st2)
  {
    hide Trunc;
    TruncWhole(r, n);
    assert OperateItems(w, Plus, V(Date(d)), V(Num(r))) == Some(Date(d + n));
    assert OperateItems(w, Minus, V(Date(d)), V(Num(r))) == Some(Date(d - n));
  }

  lemma DatesSubtracted(w: World, c: Config, a: Expr, b: Expr, st: State, d: int, st1: State, n: int, st2: State)
    requires Eval(w, c, a, st) == Ok(V(Date(d)), st1) && Eval(w, c, b, st1) == Ok(V(Date(n)), st2)
    ensures Eval(w, c, EBin(Minus, a, b), st) == Ok(V(Num((d - n) as real)), st2)
  {
  }

  /** The other operators are applied to the left and the right value, in this order. */
  lemma OperatorApplied(w: World, c: Config, op: BinOp, a: Expr, b: Expr, st: State, x: Value, st1: State, y: Value, st2: State)
    requires Eval(w, c, a, st) == Ok(V(x), st1) && Eval(w, c, b, st1) == Ok(V(y), st2) && op != Plus && op != Minus
    ensures var v := (w.operator)(op, x, y);
      Eval(w, c, EBin(op, a, b), st) == if v.Some? then Ok(V(v.value), st2) else Err(st2)
  {
  }

  function Blanks(n: nat): (s: seq<byte>)
    ensures |s| == n
  {
    if n == 0 then [] else [32] + Blanks(n - 1)
  }

  lemma {:induction false} BlanksBehind(s: seq<byte>, n: nat)
    requires s == [] || s[|s| - 1] != 32
    ensures TrailingBlanks(s + Blanks(n)) == n && (s + Blanks(n))[|s|..] == Blanks(n) && (s + Blanks(n))[..|s|] == s
  {
    var t := s + Blanks(n);
    assert t[|s|..] == Blanks(n) && t[..|s|] == s;
    if n == 0 {
      assert t == s;
    } else {
      BlanksEnd(n);
      assert t[..|t| - 1] == s + Blanks(n - 1);
      BlanksBehind(s, n - 1);
    }
  }

  lemma {:induction false} BlanksEnd(n: nat)
    requires n > 0
    ensures Blanks(n)[n - 1] == 32 && Blanks(n)[..n - 1] == Blanks(n - 1)
  {
    if n > 1 {
      BlanksEnd(n - 1);
      assert Blanks(n)[..n - 1] == [32] + Blanks(n - 1)[..n - 2];
    }
  }

  /** Strings: `+` joins them, and `-` moves the n blanks at the end of the left one behind the right one. */
  lemma StringsJoined(w: World, c: Config, a: Expr, b: Expr, st: State, s: seq<byte>, n: nat, st1: State, t: seq<byte>, st2: State)
    requires Eval(w, c, a, st) == Ok(V(Str(s + Blanks(n))), st1) && Eval(w, c, b, st1) == Ok(V(Str(t)), st2) && (s == [] || s[|s| - 1] != 32)
    ensures Eval(w, c, EBin(Plus, a, b), st) == Ok(V(Str(s + Blanks(n) + t)), st2)
    ensures Eval(w, c, EBin(Minus, a, b), st) == Ok(V(Str(s + t + Blanks(n))), st2)
  {
    hide TrailingBlanks, Blanks;
    BlanksBehind(s, n);
    var u := s + Blanks(n);
    assert |u| - n == |s|;
    assert Subtract(Str(u), Str(t)) == Some(Str(s + t + Blanks(n)));
  }

  // ---------------------------------------------------------------- compound assignment

  /** `x += ( x := 5 )` for a variable that holds 1: the reference is read late in Harbour mode, the
      generic form has read 1 before. */
  lemma LateRead(w: World, c: Config, x: string, st: State)
    requires Eval(w, c, EVar(x), st) == Ok(V(Num(1.0)), st)
    ensures var o := Eval(w, c, EOpEq(Plus, EVar(x), EAssign(EVar(x), ENum(5))), st);
      o.Ok? && o.value == V(Num(if c.harbour && !c.scope(x).Field? && !c.scope(x).Undeclared? then 10.0 else 6.0))
  {
    hide Eval;
    var five, e := EAssign(EVar(x), ENum(5)), EOpEq(Plus, EVar(x), EAssign(EVar(x), ENum(5)));
    FiveAssigned(w, c, x, st);
    var st1 := Eval(w, c, five, st).state;
    if UpdatesByRef(c, EVar(x)) {
      LateReference(w, c, x, st, st1);
    } else {
      EarlyRead(w, c, x, st, st1);
    }
  }

  lemma FiveAssigned(w: World, c: Config, x: string, st: State)
    requires Eval(w, c, EVar(x), st) == Ok(V(Num(1.0)), st)
    ensures var o := Eval(w, c, EAssign(EVar(x), ENum(5)), st);
      && o.Ok? && o.value == V(Num(5.0)) && StoreVar(c, x, Num(6.0), o.state).Ok?
      && (!c.scope(x).Field? && !c.scope(x).Undeclared? ==> LoadVar(c, x, o.state) == Some(Num(5.0)))
  {
    assert Eval(w, c, ENum(5), st) == Ok(V(Num(5.0)), st);
    VariableStored(w, c, x, ENum(5), st, Num(5.0), st);
    VariableRead(w, c, x, st);
  }

  lemma LateReference(w: World, c: Config, x: string, st: State, st1: State)
    requires Eval(w, c, EVar(x), st) == Ok(V(Num(1.0)), st) && UpdatesByRef(c, EVar(x))
    requires Eval(w, c, EAssign(EVar(x), ENum(5)), st) == Ok(V(Num(5.0)), st1) && LoadVar(c, x, st1) == Some(Num(5.0))
    ensures var o := Eval(w, c, EOpEq(Plus, EVar(x), EAssign(EVar(x), ENum(5))), st); o.Ok? && o.value == V(Num(10.0))
  {
    var e := EOpEq(Plus, EVar(x), EAssign(EVar(x), ENum(5)));
    var r := VarReference(c, x, st);
    assert LoadVar(c, x, st) == Some(Num(1.0));
    assert Locate(w, c, EVar(x), st) == r && r.Ok? && r.state == st;
    assert ReadRef(w, r.value, st1) == Ok(Num(5.0), st1);
    assert WriteRef(w, r.value, Num(10.0), st1).Ok?;
    assert OperateRef(w, Plus, r.value, V(Num(5.0)), st1).Ok? && OperateRef(w, Plus, r.value, V(Num(5.0)), st1).value == Num(10.0);
    assert EvalOpEq(w, c, e, st) == AsItem(OperateRef(w, Plus, r.value, V(Num(5.0)), st1));
  }

  lemma EarlyRead(w: World, c: Config, x: string, st: State, st1: State)
    requires Eval(w, c, EVar(x), st) == Ok(V(Num(1.0)), st) && !UpdatesByRef(c, EVar(x))
    requires Eval(w, c, EAssign(EVar(x), ENum(5)), st) == Ok(V(Num(5.0)), st1) && StoreVar(c, x, Num(6.0), st1).Ok?
    ensures var o := Eval(w, c, EOpEq(Plus, EVar(x), EAssign(EVar(x), ENum(5))), st); o.Ok? && o.value == V(Num(6.0))
  {
    var e := EOpEq(Plus, EVar(x), EAssign(EVar(x), ENum(5)));
    assert OperateItems(w, Plus, V(Num(1.0)), V(Num(5.0))) == Some(Num(6.0));
    assert Store(w, c, EVar(x), Num(6.0), st1) == StoreVar(c, x, Num(6.0), st1);
    assert GenericOpEq(w, c, e, st) == WithResult(StoreVar(c, x, Num(6.0), st1), V(Num(6.0)));
  }

  // ---------------------------------------------------------------- logical operators

  /** With the shortcut switch the right operand runs only if the left one does not decide; without it,
      both run and have to be logical. */
  lemma LogicRuns(w: World, c: Config, isAnd: bool, a: Expr, b: Expr, st: State, t: bool, st1: State)
    requires Eval(w, c, a, st) == Ok(V(Log(t)), st1)
    ensures c.shortcuts ==> Eval(w, c, ELogic(isAnd, a, b), st) == if t == isAnd then Eval(w, c, b, st1) else Ok(V(Log(t)), st1)
    ensures !c.shortcuts && Eval(w, c, b, st1).Ok? ==>
      var y, st2 := Eval(w, c, b, st1).value, Eval(w, c, b, st1).state;
      Eval(w, c, ELogic(isAnd, a, b), st)
        == if y.V? && y.value.Log? then Ok(V(Log(if isAnd then t && y.value.b else t || y.value.b)), st2) else Err(st2)
  {
  }

  // ---------------------------------------------------------------- work areas

  /** `n->( b )`: b runs in work area n, and the old area is selected again. */
  lemma AreaSelected(w: World, c: Config, n: int, b: Expr, st: State, x: Item, st1: State)
    requires 1 <= n <= 65535 && 1 <= st.area <= 65535 && Eval(w, c, b, st.(area := n)) == Ok(x, st1)
    ensures Eval(w, c, EAlias(ENum(n), b), st) == Ok(x, st1.(area := st.area))
  {
    assert Eval(w, c, ENum(n), st) == Ok(V(Num(n as real)), st);
    assert SelectArea(w, V(Num(n as real)), st) == st.(area := n);
  }

  /** An alias name selects the area it stands for; a number that is no area, a name that stands for
      none, and any other value select the first available one.  The same is done with the old area. */
  lemma AreaOf(w: World, c: Config, a: Expr, b: Expr, st: State, x: Value, st1: State)
    requires Eval(w, c, a, st) == Ok(V(x), st1)
    ensures var o := Eval(w, c, b, st1.(area := AreaNumber(w, x, st1)));
      Eval(w, c, EAlias(a, b), st)
        == if o.Ok? then Ok(o.value, o.state.(area := if 0 < st.area < 65536 then st.area else (w.firstAvailable)(o.state))) else Err(o.state)
  {
    assert SelectArea(w, V(x), st1) == st1.(area := AreaNumber(w, x, st1));
  }

  function AreaNumber(w: World, x: Value, st: State): int {
    var n := match x case Num(r) => (if r >= 0.0 then r.Floor else 0) case Str(s) => (w.aliasNumber)(s, st) case _ => 0;
    if 0 < n < 65536 then n else (w.firstAvailable)(st)
  }

  // ---------------------------------------------------------------- calls and messages

  /** A function is called with its arguments in order, after they have been logged. */
  lemma FunctionCalled(w: World, c: Config, f: string, args: Exprs, st: State, xs: seq<Item>, st1: State)
    requires EvalAll(w, c, args, st) == Ok(xs, st1)
    ensures var o := (w.call)(f, xs, st1.(log := st1.log + [Called(f, xs)]));
      Eval(w, c, ECall(f, args), st) == if o.Ok? then Ok(V(o.value), o.state) else Err(o.state)
  {
  }

  lemma MessageSent(w: World, c: Config, o: Expr, m: string, ps: Exprs, st: State, x: Value, st1: State, xs: seq<Item>, st2: State)
    requires Eval(w, c, o, st) == Ok(V(x), st1) && EvalAll(w, c, ps, st1) == Ok(xs, st2)
    ensures var r := (w.send)(x, m, xs, st2.(log := st2.log + [Sent(x, m, xs)]));
      Eval(w, c, ESend(o, m, true, ps), st) == if r.Ok? then Ok(V(r.value), r.state) else Err(r.state)
  {
  }

  /** A world whose functions and methods change nothing but the log. */
  ghost predicate Answers(w: World, f: string, object_: Value, m: string, x: Value, y: Value) {
    && (forall st: State :: (w.call)(f, [], st) == Ok(object_, st))
    && (forall st: State :: (w.send)(object_, m, [], st) == Ok(x, st))
    && (forall st: State :: (w.send)(object_, "_" + m, [V(y)], st) == Ok(y, st))
    && (forall st: State :: (w.assignable)(object_, m, st))
  }

  /** `f():m += n`: f runs once in Harbour mode, by reference or not, and twice in Clipper mode; then the
      access message is sent, and then the assign message with the sum. */
  lemma MessageUpdated(w: World, c: Config, f: string, object_: Value, m: string, x: real, n: int, st: State)
    requires Answers(w, f, object_, m, Num(x), Num(x + n as real))
    ensures var o, calls := Eval(w, c, EOpEq(Plus, ESend(ECall(f, ENone), m, false, ENone), ENum(n)), st), [Called(f, [])];
      && o.Ok? && o.value == V(Num(x + n as real))
      && o.state == st.(log := st.log + calls + (if c.harbour then [] else calls)
           + [Sent(object_, m, [])] + [Sent(object_, "_" + m, [V(Num(x + n as real))])])
  {
    var l, y := ESend(ECall(f, ENone), m, false, ENone), Num(x + n as real);
    var e := EOpEq(Plus, l, ENum(n));
    var st1 := st.(log := st.log + [Called(f, [])]);
    var st2 := st1.(log := st1.log + [Called(f, [])]);
    ObjectCalled(w, c, f, object_, m, x, y, st);
    ObjectCalled(w, c, f, object_, m, x, y, st1);
    if c.harbour && c.extopt {
      MessageByReference(w, c, f, object_, m, x, n, st, st1);
    } else {
      MessageGeneric(w, c, f, object_, m, x, n, st, st1, st2);
    }
  }

  lemma ObjectCalled(w: World, c: Config, f: string, object_: Value, m: string, x: real, y: Value, st: State)
    requires Answers(w, f, object_, m, Num(x), y)
    ensures Eval(w, c, ECall(f, ENone), st) == Ok(V(object_), st.(log := st.log + [Called(f, [])]))
  {
    FunctionCalled(w, c, f, ENone, st, [], st);
  }

  lemma MessageByReference(w: World, c: Config, f: string, object_: Value, m: string, x: real, n: int, st: State, st1: State)
    requires Answers(w, f, object_, m, Num(x), Num(x + n as real)) && c.harbour && c.extopt
    requires Eval(w, c, ECall(f, ENone), st) == Ok(V(object_), st1)
    ensures var y := Num(x + n as real);
      Eval(w, c, EOpEq(Plus, ESend(ECall(f, ENone), m, false, ENone), ENum(n)), st)
        == Ok(V(y), st1.(log := st1.log + [Sent(object_, m, [])] + [Sent(object_, "_" + m, [V(y)])]))
  {
    var l, y := ESend(ECall(f, ENone), m, false, ENone), Num(x + n as real);
    var e := EOpEq(Plus, l, ENum(n));
    var st2 := st1.(log := st1.log + [Sent(object_, m, [])]);
    assert Locate(w, c, l, st) == Ok(MessageRef(object_, m), st1);
    assert Eval(w, c, ENum(n), st1) == Ok(V(Num(n as real)), st1);
    assert ReadRef(w, MessageRef(object_, m), st1) == Ok(Num(x), st2);
    assert OperateItems(w, Plus, V(Num(x)), V(Num(n as real))) == Some(y);
    assert WriteBack(w, MessageRef(object_, m), y, st2) == Ok(y, st2.(log := st2.log + [Sent(object_, "_" + m, [V(y)])]));
    assert EvalOpEq(w, c, e, st) == AsItem(OperateRef(w, Plus, MessageRef(object_, m), V(Num(n as real)), st1));
  }

  lemma MessageGeneric(w: World, c: Config, f: string, object_: Value, m: string, x: real, n: int, st: State, st1: State, st2: State)
    requires Answers(w, f, object_, m, Num(x), Num(x + n as real)) && !(c.harbour && c.extopt)
    requires Eval(w, c, ECall(f, ENone), st) == Ok(V(object_), st1) && Eval(w, c, ECall(f, ENone), st1) == Ok(V(object_), st2)
    ensures var y, st3 := Num(x + n as real), if c.harbour then st1 else st2;
      Eval(w, c, EOpEq(Plus, ESend(ECall(f, ENone), m, false, ENone), ENum(n)), st)
        == Ok(V(y), st3.(log := st3.log + [Sent(object_, m, [])] + [Sent(object_, "_" + m, [V(y)])]))
  {
    var l, y, st3 := ESend(ECall(f, ENone), m, false, ENone), Num(x + n as real), if c.harbour then st1 else st2;
    var e := EOpEq(Plus, l, ENum(n));
    var st4 := st3.(log := st3.log + [Sent(object_, m, [])]);
    assert SendItem(w, V(object_), m, [], st3) == Ok(V(Num(x)), st4);
    assert AccessPair(w, c, l, st) == Ok((V(object_), V(Num(x))), st4);
    assert Eval(w, c, ENum(n), st4) == Ok(V(Num(n as real)), st4);
    assert OperateItems(w, Plus, V(Num(x)), V(Num(n as real))) == Some(y);
    assert EvalOpEq(w, c, e, st) == SendItem(w, V(object_), "_" + m, [V(y)], st4);
  }

  /** A message that cannot be assigned is not updated by reference: nothing is sent. */
  lemma NotAssignable(w: World, c: Config, o: Expr, m: string, r: Expr, up: bool, pre: bool, st: State, x: Value, st1: State)
    requires Eval(w, c, o, st) == Ok(V(x), st1) && !(w.assignable)(x, m, st1) && c.extopt
    ensures c.harbour ==> Eval(w, c, EOpEq(Plus, ESend(o, m, false, ENone), r), st) == Err(st1)
    ensures Eval(w, c, EStep(up, pre, ESend(o, m, false, ENone)), st) == Err(st1)
  {
    var l := ESend(o, m, false, ENone);
    assert Locate(w, c, l, st) == Err(st1);
    assert c.harbour ==> EvalOpEq(w, c, EOpEq(Plus, l, r), st) == Err(st1);
  }

  /** `++f():m` and `--f():m`: f runs once, by reference or not, but twice in Clipper mode without EXTOPT. */
  lemma MessageStepped(w: World, c: Config, f: string, object_: Value, m: string, up: bool, x: real, y: real, st: State)
    requires Answers(w, f, object_, m, Num(x), Num(y)) && y == if up then x + 1.0 else x - 1.0
    ensures var o, calls := Eval(w, c, EStep(up, true, ESend(ECall(f, ENone), m, false, ENone)), st), [Called(f, [])];
      && o.Ok? && o.value == V(Num(y))
      && o.state == st.(log := st.log + calls + (if c.harbour || c.extopt then [] else calls)
           + [Sent(object_, m, [])] + [Sent(object_, "_" + m, [V(Num(y))])])
  {
    hide Eval, SendMessage;
    var l := ESend(ECall(f, ENone), m, false, ENone);
    var st1 := st.(log := st.log + [Called(f, [])]);
    var st2 := st1.(log := st1.log + [Called(f, [])]);
    ObjectCalled(w, c, f, object_, m, x, Num(y), st);
    ObjectCalled(w, c, f, object_, m, x, Num(y), st1);
    if c.extopt {
      StepByReference(w, c, f, object_, m, up, x, y, st, st1);
    } else {
      StepByMessages(w, c, f, object_, m, up, x, y, st, st1, if c.harbour then st1 else st2);
    }
  }

  lemma StepByReference(w: World, c: Config, f: string, object_: Value, m: string, up: bool, x: real, y: real, st: State, st1: State)
    requires Answers(w, f, object_, m, Num(x), Num(y)) && y == (if up then x + 1.0 else x - 1.0) && c.extopt
    requires Eval(w, c, ECall(f, ENone), st) == Ok(V(object_), st1)
    ensures Eval(w, c, EStep(up, true, ESend(ECall(f, ENone), m, false, ENone)), st)
         == Ok(V(Num(y)), st1.(log := st1.log + [Sent(object_, m, [])] + [Sent(object_, "_" + m, [V(Num(y))])]))
  {
    var l, ref := ESend(ECall(f, ENone), m, false, ENone), MessageRef(object_, m);
    var st2 := st1.(log := st1.log + [Sent(object_, m, [])]);
    assert Locate(w, c, l, st) == Ok(ref, st1);
    assert ReadRef(w, ref, st1) == Ok(Num(x), st2) && Step(up, Num(x)) == Some(Num(y));
    assert WriteBack(w, ref, Num(y), st2) == Ok(Num(y), st2.(log := st2.log + [Sent(object_, "_" + m, [V(Num(y))])]));
    assert EvalStep(w, c, up, true, l, st) == AsItem(StepRef(w, up, ref, st1));
  }

  lemma StepByMessages(w: World, c: Config, f: string, object_: Value, m: string, up: bool, x: real, y: real, st: State, st1: State, st3: State)
    requires Answers(w, f, object_, m, Num(x), Num(y)) && y == (if up then x + 1.0 else x - 1.0) && !c.extopt
    requires Eval(w, c, ECall(f, ENone), st) == Ok(V(object_), st1)
    requires if c.harbour then st3 == st1 else Eval(w, c, ECall(f, ENone), st1) == Ok(V(object_), st3)
    ensures Eval(w, c, EStep(up, true, ESend(ECall(f, ENone), m, false, ENone)), st)
         == Ok(V(Num(y)), st3.(log := st3.log + [Sent(object_, m, [])] + [Sent(object_, "_" + m, [V(Num(y))])]))
  {
    var l := ESend(ECall(f, ENone), m, false, ENone);
    var st4 := st3.(log := st3.log + [Sent(object_, m, [])]);
    assert SendItem(w, V(object_), m, [], st3) == Ok(V(Num(x)), st4);
    assert AccessPair(w, c, l, st) == Ok((V(object_), V(Num(x))), st4);
    assert StepItem(up, V(Num(x))) == Some(Num(y));
    assert EvalStep(w, c, up, true, l, st) == SendItem(w, V(object_), "_" + m, [V(Num(y))], st4);
  }

  /** In Clipper mode, and for fields and undeclared names in both, an update of a variable or an element
      is load, operate, store, which runs the subexpressions of the target twice. */
  lemma GenericUpdate(w: World, c: Config, e: Expr, st: State)
    requires e.EOpEq? && (e.target.EVar? || e.target.EAt?)
    requires !c.harbour || (e.target.EVar? && (c.scope(e.target.name).Field? || c.scope(e.target.name).Undeclared?))
    ensures Eval(w, c, e, st) == GenericOpEq(w, c, e, st)
    ensures forall up, pre :: Eval(w, c, EStep(up, pre, e.target), st) == GenericStep(w, c, up, pre, e.target, st)
  {
    hide GenericOpEq, GenericStep;
    assert forall up, pre :: EvalStep(w, c, up, pre, e.target, st) == GenericStep(w, c, up, pre, e.target, st);
  }

  // ---------------------------------------------------------------- values that are not wanted

  /** In Clipper mode an operator whose value is not wanted is applied all the same, with its errors; in
      Harbour mode only its operands are evaluated. */
  lemma OperatorDiscarded(w: World, c: Config, op: BinOp, a: Expr, b: Expr, st: State)
    ensures Effect(w, c, EBin(op, a, b), st)
         == if !c.harbour then Drop(Eval(w, c, EBin(op, a, b), st))
            else if Effect(w, c, a, st).Ok? then Effect(w, c, b, Effect(w, c, a, st).state) else Err(Effect(w, c, a, st).state)
  {
    hide Eval;
  }

  lemma NotDiscarded(w: World, c: Config, a: Expr, st: State)
    ensures Effect(w, c, ENot(a), st) == if c.harbour then Effect(w, c, a, st) else Drop(Eval(w, c, ENot(a), st))
    ensures Effect(w, c, ENeg(a), st) == if c.harbour then Effect(w, c, a, st) else Drop(Eval(w, c, ENeg(a), st))
  {
    hide Eval;
  }
}
