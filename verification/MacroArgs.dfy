/** Argument lists with parts whose length is known at run time only (list macros, `...`,
    hb_ArrayToParams): the compiler pushes run counts, the machine joins the groups in place. */
module MacroArgs {

  /** A stack item: a count is a number like any other. */
  datatype Item = Number(n: int) | Other(id: nat)

  /** A plain argument pushes one item, NIL if nothing is written there; a multiple one its items and
      their count. */
  datatype Arg = Plain(item: Item, empty: bool) | Multiple(items: seq<Item>)

  /** A group of items with its count on top. */
  function Layout(groups: seq<seq<Item>>): seq<Item> {
    if groups == [] then []
    else
      var m := |groups| - 1;
      Layout(groups[..m]) + groups[m] + [Number(|groups[m]|)]
  }

  function Flatten(groups: seq<seq<Item>>): seq<Item> {
    if groups == [] then [] else Flatten(groups[..|groups| - 1]) + groups[|groups| - 1]
  }

  function Values(args: seq<Arg>): seq<Item> {
    if args == [] then []
    else
      var m := |args| - 1;
      Values(args[..m]) + (if args[m].Plain? then [args[m].item] else args[m].items)
  }

  // ---------------------------------------------------------------- the groups of a list

  /** The groups closed so far, and the run of plain arguments still open. */
  function Grouped(args: seq<Arg>): (seq<seq<Item>>, seq<Item>) {
    if args == [] then ([], [])
    else
      var m := |args| - 1;
      var (closed, run) := Grouped(args[..m]);
      if args[m].Plain? then (closed, run + [args[m].item])
      else ((if run == [] then closed else closed + [run]) + [args[m].items], [])
  }

  function Groups(args: seq<Arg>): seq<seq<Item>> {
    var (closed, run) := Grouped(args);
    if run == [] then closed else closed + [run]
  }

  /** A list with a multiple argument becomes a HB_ET_MACROARGLIST. */
  predicate HasMultiple(args: seq<Arg>) {
    exists i :: 0 <= i < |args| && args[i].Multiple?
  }

  /** The list of a call without arguments. */
  predicate NoArguments(args: seq<Arg>) {
    |args| == 1 && args[0].Plain? && args[0].empty
  }

  /** hb_compExprParamListCheck: the number of groups, or of arguments if all are plain. */
  method ParamListCheck(args: seq<Arg>) returns (len: nat, macroList: bool)
    ensures macroList == HasMultiple(args)
    ensures len == if macroList then |Groups(args)| else if NoArguments(args) then 0 else |args|
  {
    len := 0;
    var items, i := 0, 0;
    while i < |args|
      invariant 0 <= i <= |args|
      invariant var (closed, run) := Grouped(args[..i]); len == |closed| && items == |run|
      invariant len > 0 <==> HasMultiple(args[..i])
      invariant !HasMultiple(args[..i]) ==> items == i
    {
      assert args[..i + 1][..i] == args[..i];
      if args[i].Multiple? {
        assert args[..i + 1][i].Multiple?;
        if items > 0 {
          items := 0;
          len := len + 1;
        }
        len := len + 1;
      } else {
        assert HasMultiple(args[..i + 1]) == HasMultiple(args[..i]) by { MultipleStep(args, i); }
        items := items + 1;
      }
      i := i + 1;
    }
    assert args[..|args|] == args;
    macroList := len > 0;
    if macroList {
      if items > 0 { len := len + 1; }
    } else if items == 1 && args[0].empty {
      len := 0;
    } else {
      len := items;
    }
  }

  lemma MultipleStep(args: seq<Arg>, i: nat)
    requires i < |args| && args[i].Plain?
    ensures HasMultiple(args[..i + 1]) == HasMultiple(args[..i])
  {
    if HasMultiple(args[..i]) {
      var j :| 0 <= j < i && args[..i][j].Multiple?;
      assert args[..i + 1][j].Multiple?;
    }
    if HasMultiple(args[..i + 1]) {
      var j :| 0 <= j < i + 1 && args[..i + 1][j].Multiple?;
      assert args[..i][j].Multiple?;
    }
  }

  // ---------------------------------------------------------------- pushing the groups

  /** An instruction: generate an argument, or push a run count. */
  datatype Step = Generate(arg: Arg) | PushLong(n: nat)

  /** What a step leaves on the stack. */
  function Effect(s: Step): seq<Item> {
    match s
    case PushLong(n) => [Number(n)]
    case Generate(Plain(x, _)) => [x]
    case Generate(Multiple(xs)) => xs + [Number(|xs|)]
  }

  function Effects(code: seq<Step>): seq<Item> {
    if code == [] then [] else Effects(code[..|code| - 1]) + Effect(code[|code| - 1])
  }

  lemma EffectsStep(code: seq<Step>, s: Step)
    ensures Effects(code + [s]) == Effects(code) + Effect(s)
  {
    assert (code + [s])[..|code|] == code;
  }

  lemma LayoutStep(groups: seq<seq<Item>>, g: seq<Item>)
    ensures Layout(groups + [g]) == Layout(groups) + g + [Number(|g|)]
    ensures Flatten(groups + [g]) == Flatten(groups) + g
  {
    assert (groups + [g])[..|groups|] == groups;
  }

  /** The code of the arguments so far has left the closed groups and the open run. */
  predicate Pushed(code: seq<Step>, args: seq<Arg>) {
    var (closed, run) := Grouped(args);
    Effects(code) == Layout(closed) + run
  }

  function Close(code: seq<Step>, run: nat): seq<Step> {
    if run > 0 then code + [PushLong(run)] else code
  }

  lemma CloseRun(code: seq<Step>, args: seq<Arg>)
    requires Pushed(code, args)
    ensures Effects(Close(code, |Grouped(args).1|)) == Layout(Groups(args))
  {
    var (closed, run) := Grouped(args);
    EffectsStep(code, PushLong(|run|));
    LayoutStep(closed, run);
  }

  lemma PushedMultiple(code: seq<Step>, args: seq<Arg>, xs: seq<Item>)
    requires Pushed(code, args)
    ensures Pushed(Close(code, |Grouped(args).1|) + [Generate(Multiple(xs))], args + [Multiple(xs)])
  {
    hide Effects, Layout;
    assert (args + [Multiple(xs)])[..|args|] == args;
    CloseRun(code, args);
    EffectsStep(Close(code, |Grouped(args).1|), Generate(Multiple(xs)));
    LayoutStep(Groups(args), xs);
  }

  lemma PushedPlain(code: seq<Step>, args: seq<Arg>, x: Item, empty: bool)
    requires Pushed(code, args)
    ensures Pushed(code + [Generate(Plain(x, empty))], args + [Plain(x, empty)])
  {
    hide Effects, Layout;
    assert (args + [Plain(x, empty)])[..|args|] == args;
    EffectsStep(code, Generate(Plain(x, empty)));
  }

  /** HB_EA_PUSH_PCODE of HB_ET_MACROARGLIST. */
  method UseMacroArgList(args: seq<Arg>) returns (code: seq<Step>)
    ensures Effects(code) == Layout(Groups(args))
  {
    hide Effects, Layout;
    code := [];
    var items, i := 0, 0;
    assert Pushed(code, args[..0]) by { EmptyPushed(); }
    while i < |args|
      invariant 0 <= i <= |args|
      invariant Pushed(code, args[..i]) && items == |Grouped(args[..i]).1|
    {
      hide Pushed;
      var arg := args[i];
      assert args[..i + 1] == args[..i] + [arg] && args[..i + 1][..i] == args[..i];
      if arg.Multiple? {
        PushedMultiple(code, args[..i], arg.items);
        if items > 0 {
          code := code + [PushLong(items)];
          items := 0;
        }
      } else {
        PushedPlain(code, args[..i], arg.item, arg.empty);
        items := items + 1;
      }
      code := code + [Generate(arg)];
      i := i + 1;
    }
    assert args[..|args|] == args;
    CloseRun(code, args);
    if items > 0 {
      code := code + [PushLong(items)];
    }
  }

  lemma EmptyPushed()
    ensures Pushed([], [])
  {
  }

  /** The groups hold every argument once and in order. */
  lemma {:induction false} GroupsPartition(args: seq<Arg>)
    ensures Flatten(Groups(args)) == Values(args)
  {
    var (closed, run) := Grouped(args);
    if args != [] {
      var m := |args| - 1;
      GroupsPartition(args[..m]);
      if args[m].Multiple? {
        LayoutStep(Groups(args[..m]), args[m].items);
      } else {
        LayoutStep(closed, run[..|run| - 1]);
        LayoutStep(closed, run);
      }
    }
  }

  /** A group without items comes from a multiple argument without items. */
  lemma {:induction false} NoEmptyRuns(args: seq<Arg>, i: nat)
    requires i < |Groups(args)| && Groups(args)[i] == []
    ensures Multiple([]) in args
    decreases |args|
  {
    var m := |args| - 1;
    if i < |Groups(args[..m])| && Groups(args[..m])[i] == [] {
      NoEmptyRuns(args[..m], i);
    } else {
      assert args[m] == Multiple([]);
    }
  }

  /** The counts make the encoding uniquely decodable from the top of the stack. */
  lemma {:induction false} UniquelyDecodable(g: seq<seq<Item>>, h: seq<seq<Item>>)
    requires Layout(g) == Layout(h)
    ensures g == h
    decreases |g|
  {
    if g != [] && h != [] {
      var m, n := |g| - 1, |h| - 1;
      var a, b := Layout(g), Layout(h);
      assert a[|a| - 1] == Number(|g[m]|) && b[|b| - 1] == Number(|h[n]|);
      var k := |a| - 1 - |g[m]|;
      assert g[m] == a[k..|a| - 1] == b[k..|b| - 1] == h[n];
      assert Layout(g[..m]) == a[..k] == b[..k] == Layout(h[..n]);
      UniquelyDecodable(g[..m], h[..n]);
      assert g == g[..m] + [g[m]] && h == h[..n] + [h[n]];
    }
  }

  // ---------------------------------------------------------------- joining the groups

  lemma {:induction false} LayoutLength(groups: seq<seq<Item>>)
    ensures |Layout(groups)| == |Flatten(groups)| + |groups|
  {
    if groups != [] { LayoutLength(groups[..|groups| - 1]); }
  }

  /** What lies below the highest count and above the lower groups. */
  lemma LayoutTop(groups: seq<seq<Item>>)
    requires groups != []
    ensures var m := |groups| - 1;
            && Layout(groups) == Layout(groups[..m]) + groups[m] + [Number(|groups[m]|)]
            && |Layout(groups[..m])| == |Flatten(groups[..m])| + m
            && Flatten(groups) == Flatten(groups[..m]) + groups[m]
  {
    LayoutLength(groups[..|groups| - 1]);
  }

  /** The items lie in s from position at. */
  ghost predicate Holds(s: seq<Item>, at: nat, items: seq<Item>) {
    at + |items| <= |s| && forall k :: at <= k < at + |items| ==> s[k] == items[k - at]
  }

  /** The two differ at most between low and high. */
  ghost predicate SameOutside(s: seq<Item>, t: seq<Item>, low: int, high: int) {
    |s| == |t| && forall k :: 0 <= k < |s| && !(low <= k < high) ==> s[k] == t[k]
  }

  lemma HoldsBoth(s: seq<Item>, at: nat, a: seq<Item>, b: seq<Item>)
    ensures Holds(s, at, a + b) <==> Holds(s, at, a) && Holds(s, at + |a|, b)
  {
    var n, m := at + |a|, at + |a| + |b|;
    if Holds(s, at, a + b) {
      assert forall k :: at <= k < n ==> s[k] == (a + b)[k - at] == a[k - at];
      assert forall k :: n <= k < m ==> s[k] == (a + b)[k - at] == b[k - n];
    }
  }

  lemma HoldsSlice(s: seq<Item>, at: nat, items: seq<Item>)
    ensures Holds(s, at, items) <==> at + |items| <= |s| && s[at..at + |items|] == items
  {
    if at + |items| <= |s| && s[at..at + |items|] == items {
      assert forall k :: at <= k < at + |items| ==> s[k] == s[at..at + |items|][k - at];
    }
  }

  /** hb_vmArgsJoin: closes the gaps that the counts of the lower groups leave.  The count of the
      highest group lies at stack[top + level]; its groups start at stack[base]. */
  method ArgsJoin(stack: array<Item>, top: nat, level: int, sets: nat, ghost base: nat, ghost groups: seq<seq<Item>>)
    returns (args: nat)
    requires 0 < sets == |groups| && Holds(stack[..], base, Layout(groups)) && base + |Layout(groups)| == top + level + 1
    modifies stack
    ensures args == |Flatten(groups)| && base + args + sets == top + level + 1
    ensures Holds(stack[..], base, Flatten(groups))
    ensures SameOutside(old(stack[..]), stack[..], base, top + level + 1)
    decreases sets
  {
    hide Layout, Flatten;
    ghost var g, rest := groups[sets - 1], groups[..sets - 1];
    LayoutTop(groups);
    HoldsBoth(stack[..], base, Layout(rest) + g, [Number(|g|)]);
    HoldsBoth(stack[..], base, Layout(rest), g);
    assert stack[..][top + level] == Number(|g|);
    args := stack[top + level].n;
    if sets > 1 {
      var moved, gap := args, sets - 1;
      var below := ArgsJoin(stack, top, level - moved - 1, gap, base, rest);
      args := args + below;
      assert Holds(stack[..], base + below + gap, g);
      var offset := top + level - moved - gap;
      MoveDown(stack, offset, gap, moved, g);
      assert Holds(stack[..], base, Flatten(rest));
      HoldsBoth(stack[..], base, Flatten(rest), g);
    } else {
      OnlyGroup(groups);
    }
  }

  lemma OnlyGroup(groups: seq<seq<Item>>)
    requires |groups| == 1
    ensures Flatten(groups) == groups[0] && Layout(groups[..0]) == []
  {
    assert groups[..0] == [];
  }

  /** Moves count items down by gap places, the lowest one first. */
  method MoveDown(stack: array<Item>, offset: nat, gap: nat, count: nat, ghost items: seq<Item>)
    requires Holds(stack[..], offset + gap, items) && count == |items| && gap > 0
    modifies stack
    ensures Holds(stack[..], offset, items) && SameOutside(old(stack[..]), stack[..], offset, offset + count)
  {
    var i := 0;
    while i < count
      invariant 0 <= i <= count
      invariant forall k :: 0 <= k < i ==> stack[offset + k] == items[k]
      invariant forall k :: i <= k < count ==> stack[offset + gap + k] == items[k]
      invariant SameOutside(old(stack[..]), stack[..], offset, offset + i)
    {
      stack[offset + i] := stack[offset + i + gap];
      i := i + 1;
    }
  }

  /** From the list to the call: joining what the list has pushed, with the number of groups that the
      compiler counted, recovers the arguments. */
  method MacroCall(args: seq<Arg>, stack: array<Item>, base: nat) returns (count: nat)
    requires HasMultiple(args) && base + |Layout(Groups(args))| <= stack.Length
    modifies stack
    ensures count == |Values(args)| && base + count <= stack.Length && stack[base..base + count] == Values(args)
    ensures stack[..base] == old(stack[..base])
  {
    hide Layout, Flatten, Values, Grouped, Groups, HasMultiple, NoArguments, Effects, Holds, SameOutside;
    ghost var before := stack[..];
    var sets, _ := ParamListCheck(args);
    var code := UseMacroArgList(args);
    var top := PushAll(code, stack, base);
    ghost var pushed := stack[..];
    GroupsPartition(args);
    LayoutLength(Groups(args));
    SomeGroup(args);
    count := ArgsJoin(stack, top, -1, sets, base, Groups(args));
    HoldsSlice(stack[..], base, Values(args));
    assert stack[..][base..base + count] == stack[base..base + count];
    SameBelow(before, pushed, stack[..], base, top);
    assert before[..base] == old(stack[..base]) && stack[..][..base] == stack[..base];
  }

  lemma SameBelow(s: seq<Item>, t: seq<Item>, u: seq<Item>, low: nat, high: int)
    requires SameOutside(s, t, low, high) && SameOutside(t, u, low, high) && low <= |s|
    ensures |u| == |s| && s[..low] == u[..low]
  {
  }

  lemma {:induction false} SomeGroup(args: seq<Arg>)
    requires HasMultiple(args)
    ensures Grouped(args).0 != [] && Groups(args) != []
  {
    var m := |args| - 1;
    var i :| 0 <= i < |args| && args[i].Multiple?;
    if i < m {
      assert args[..m][i].Multiple?;
      SomeGroup(args[..m]);
    }
  }

  /** Runs the generated steps. */
  method PushAll(code: seq<Step>, stack: array<Item>, base: nat) returns (top: nat)
    requires base + |Effects(code)| <= stack.Length
    modifies stack
    ensures top == base + |Effects(code)| && Holds(stack[..], base, Effects(code))
    ensures SameOutside(old(stack[..]), stack[..], base, top)
  {
    var pushed := Effects(code);
    var i := 0;
    while i < |pushed|
      invariant 0 <= i <= |pushed|
      invariant forall k :: 0 <= k < i ==> stack[base + k] == pushed[k]
      invariant SameOutside(old(stack[..]), stack[..], base, base + i)
    {
      stack[base + i] := pushed[i];
      i := i + 1;
    }
    top := base + i;
  }
}
