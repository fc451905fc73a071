/** The initializers of STATIC variables have to be known when the program is compiled. */
module StaticInit {

  // the values of HB_EXPRTYPE that the check compares with
  const NONE := 0
  const SELF := 8
  const ARRAY := 9
  const HASH := 10
  const FUNREF := 11
  const LIST := 15
  const ARGLIST := 16
  const FUNCALL := 20
  const VARIABLE := 28

  /** items are the elements of a list, an array or a hash, or the arguments of a call of the function
      with this name; a call by other means than a name has the name "". */
  datatype Init = Init(exprType: nat, name: string, items: seq<Init>)

  // ---------------------------------------------------------------- what is permitted

  predicate StaticFunction(name: string) {
    name == "HB_MUTEXCREATE" || name == "__BREAKBLOCK"
  }

  /** Empty parentheses hold one item of type HB_ET_NONE. */
  function ParamListLen(items: seq<Init>): nat {
    if |items| == 1 && items[0].exprType == NONE then 0 else |items|
  }

  /** A constant, or a permitted function without arguments. */
  predicate Permitted(e: Init) {
    if e.exprType > FUNREF || e.exprType == SELF then e.exprType == FUNCALL && StaticFunction(e.name) && ParamListLen(e.items) == 0
    else true
  }

  predicate Nested(e: Init) {
    e.exprType == ARRAY || e.exprType == HASH
  }

  // ---------------------------------------------------------------- parentheses

  /** `( e )` that a multiple-value call or an operator does not need. */
  predicate Strippable(e: Init) {
    e.exprType == LIST && |e.items| == 1 && e.items[0].exprType <= VARIABLE
    && !(e.items[0].exprType == FUNCALL && e.items[0].name == "HB_ARRAYTOPARAMS")
  }

  function Strip(e: Init): (r: Init)
    ensures !Strippable(r) && (r == e || r < e)
  {
    if Strippable(e) then Strip(e.items[0]) else e
  }

  /** hb_compExprListStrip */
  method ListStrip(e: Init) returns (r: Init)
    ensures r == Strip(e)
  {
    r := e;
    while Strippable(r)
      invariant Strip(r) == Strip(e)
      decreases r
    {
      r := r.items[0];
    }
  }

  /** Without the Harbour switch parentheses are still there. */
  function Bare(harbour: bool, e: Init): (r: Init)
    ensures r == e || r < e
  {
    if harbour then e else Strip(e)
  }

  // ---------------------------------------------------------------- the check

  /** What the check reports for the first n items of a list, in order. */
  function Reported(harbour: bool, list: Init, n: nat): seq<Init>
    requires n <= |list.items|
    decreases list, n
  {
    if n == 0 then []
    else Reported(harbour, list, n - 1) + ReportedItem(harbour, list, n - 1)
  }

  function ReportedItem(harbour: bool, list: Init, i: nat): seq<Init>
    requires i < |list.items|
    decreases list, i
  {
    var e := Bare(harbour, list.items[i]);
    if Nested(e) then Reported(harbour, e, |e.items|) else if Permitted(e) then [] else [e]
  }

  /** The list without needless parentheses. */
  function Stripped(harbour: bool, list: Init): (r: Init)
    ensures r.exprType == list.exprType && r.name == list.name && |r.items| == |list.items|
    decreases list
  {
    list.(items := seq(|list.items|, i requires 0 <= i < |list.items| => StrippedItem(harbour, list, i)))
  }

  function StrippedItem(harbour: bool, list: Init, i: nat): Init
    requires i < |list.items|
    decreases list, i
  {
    var e := Bare(harbour, list.items[i]);
    if Nested(e) then Stripped(harbour, e) else e
  }

  // ---------------------------------------------------------------- what is reported

  /** What may stand for a static value, by the numbers of the expression types: NIL, numbers, dates,
      timestamps, strings, codeblocks, logicals and function references, and `hb_mutexCreate()` and
      `__breakBlock()` with empty parentheses. */
  predicate Lawful(e: Init) {
    || e.exprType in {0, 1, 2, 3, 4, 5, 6, 7, 11}
    || (e.exprType == 20 && e.name in {"HB_MUTEXCREATE", "__BREAKBLOCK"}
        && (e.items == [] || (|e.items| == 1 && e.items[0].exprType == 0)))
  }

  /** Arrays and hashes. */
  predicate Compound(e: Init) {
    e.exprType == 9 || e.exprType == 10
  }

  /** Following the path of positions, only arrays and hashes on the way, leads to e. */
  predicate Reaches(harbour: bool, list: Init, path: seq<nat>, e: Init)
    decreases |path|
  {
    path != [] && path[0] < |list.items| &&
    var x := Bare(harbour, list.items[path[0]]);
    if |path| == 1 then e == x else Compound(x) && Reaches(harbour, x, path[1..], e)
  }

  predicate Illegal(harbour: bool, list: Init, path: seq<nat>, e: Init) {
    Reaches(harbour, list, path, e) && !Compound(e) && !Lawful(e)
  }

  /** Whatever is reported is illegal and within reach. */
  lemma {:induction false} ReportedIsIllegal(harbour: bool, list: Init, n: nat, e: Init) returns (path: seq<nat>)
    requires n <= |list.items| && e in Reported(harbour, list, n)
    ensures Illegal(harbour, list, path, e) && path[0] < n
    decreases list, n
  {
    if e in Reported(harbour, list, n - 1) {
      path := ReportedIsIllegal(harbour, list, n - 1, e);
    } else {
      var x := Bare(harbour, list.items[n - 1]);
      if Nested(x) {
        var rest := ReportedIsIllegal(harbour, x, |x.items|, e);
        path := [n - 1] + rest;
        assert path[1..] == rest;
      } else {
        path := [n - 1];
      }
    }
  }

  /** Whatever is illegal and within reach is reported. */
  lemma {:induction false} IllegalIsReported(harbour: bool, list: Init, n: nat, path: seq<nat>, e: Init)
    requires n <= |list.items| && Illegal(harbour, list, path, e) && path[0] < n
    ensures e in Reported(harbour, list, n)
    decreases list, n
  {
    if path[0] < n - 1 {
      IllegalIsReported(harbour, list, n - 1, path, e);
    } else if |path| > 1 {
      var x := Bare(harbour, list.items[n - 1]);
      IllegalIsReported(harbour, x, |x.items|, path[1..], e);
    }
  }

  /** A list is refused if and only if some item within reach is illegal. */
  lemma RefusedIff(harbour: bool, list: Init)
    ensures Reported(harbour, list, |list.items|) != [] <==> exists path, e :: Illegal(harbour, list, path, e)
  {
    var errors := Reported(harbour, list, |list.items|);
    if errors != [] {
      var path := ReportedIsIllegal(harbour, list, |list.items|, errors[0]);
      assert Illegal(harbour, list, path, errors[0]);
    }
    if path, e :| Illegal(harbour, list, path, e) {
      IllegalIsReported(harbour, list, |list.items|, path, e);
    }
  }

  /** hb_compExprCheckStaticListInitializers: reports the illegal items, and leaves the list stripped. */
  method CheckStaticListInitializers(harbour: bool, list: Init) returns (checked: Init, errors: seq<Init>)
    ensures checked == Stripped(harbour, list) && errors == Reported(harbour, list, |list.items|)
    ensures errors != [] <==> exists path, e :: Illegal(harbour, list, path, e)
    decreases list
  {
    var items, i := list.items, 0;
    errors := [];
    while i < |items|
      invariant 0 <= i <= |items| == |list.items|
      invariant forall k :: 0 <= k < i ==> items[k] == StrippedItem(harbour, list, k)
      invariant forall k :: i <= k < |items| ==> items[k] == list.items[k]
      invariant errors == Reported(harbour, list, i)
    {
      if !harbour {
        var bare := ListStrip(items[i]);
        items := items[i := bare];
      }
      if Nested(items[i]) {
        var inner, innerErrors := CheckStaticListInitializers(harbour, items[i]);
        items := items[i := inner];
        errors := errors + innerErrors;
      } else if !Permitted(items[i]) {
        errors := errors + [items[i]];
      }
      i := i + 1;
    }
    checked := list.(items := items);
    RefusedIff(harbour, list);
  }

  /** hb_compExprAssignStatic: the initializer after the check, and what was reported. */
  method AssignStatic(harbour: bool, initializer: Init) returns (checked: Init, errors: seq<Init>)
    ensures var e := Bare(harbour, initializer);
      if e.exprType in {9, 10, 16} then
        && checked == Stripped(harbour, e) && errors == Reported(harbour, e, |e.items|)
        && (errors != [] <==> exists path, x :: Illegal(harbour, e, path, x))
      else checked == e && errors == if Lawful(e) then [] else [e]
  {
    checked := initializer;
    if !harbour {
      checked := ListStrip(checked);
    }
    errors := [];
    if checked.exprType == ARGLIST || checked.exprType == ARRAY || checked.exprType == HASH {
      checked, errors := CheckStaticListInitializers(harbour, checked);
    } else if !Permitted(checked) {
      errors := [checked];
    }
  }

  /** e in n pairs of parentheses. */
  function Wrap(e: Init, n: nat): Init {
    if n == 0 then e else Init(15, "", [Wrap(e, n - 1)])
  }

  /** Without the Harbour switch any number of parentheses around an operand changes nothing; with it,
      parentheses that are still there are refused.  A call of hb_ArrayToParams and operators keep theirs. */
  lemma {:induction false} Parentheses(e: Init, n: nat)
    requires e.exprType <= 28 && e.exprType != 15
    ensures !(e.exprType == 20 && e.name == "HB_ARRAYTOPARAMS") ==> Bare(false, Wrap(e, n)) == e
    ensures e.exprType == 20 && e.name == "HB_ARRAYTOPARAMS" && n > 0 ==> Bare(false, Wrap(e, n)) == Wrap(e, 1)
    ensures n > 0 ==> Bare(true, Wrap(e, n)) == Wrap(e, n) && !Lawful(Wrap(e, n)) && !Compound(Wrap(e, n))
  {
    if n > 0 { Parentheses(e, n - 1); }
  }

  /** Lists of any other length, and parentheses around an operator, are no parentheses of an operand. */
  lemma NoParentheses(e: Init)
    requires e.exprType != 15 || |e.items| != 1 || e.items[0].exprType > 28
    ensures Bare(false, e) == e
  {
  }

  /** The stripped list is judged the same by the rules for lists without parentheses. */
  lemma {:induction false} StrippedVerdict(list: Init, n: nat)
    requires n <= |list.items|
    ensures Reported(true, Stripped(false, list), n) == Reported(false, list, n)
    decreases list, n
  {
    if n > 0 {
      StrippedVerdict(list, n - 1);
      var e := Bare(false, list.items[n - 1]);
      assert Stripped(false, list).items[n - 1] == StrippedItem(false, list, n - 1);
      if Nested(e) { StrippedVerdict(e, |e.items|); }
    }
  }
}
