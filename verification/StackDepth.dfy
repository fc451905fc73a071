/** The stack discipline of generated code.  A single forward scan assigns a stack depth to every
    position; generated code passes it for any nesting. */
module StackDepth {
  import opened Values
  import opened Expressions
  import opened Pcode
  import opened Meaning
  import opened Compiler
  import opened Shape
  import opened Encoding
  import opened ByteMachine
  import opened Runs

  // ---------------------------------------------------------------- the scan

  /** Items an instruction takes from the stack, and items it leaves there. */
  function Takes(i: Instr): nat {
    match i
    case PopLocal(_) => 1
    case PopStatic(_) => 1
    case PopMemvar(_) => 1
    case PopField(_) => 1
    case PopVariable(_) => 1
    case Duplicate => 1
    case DuplUnref => 1
    case PushUnref => 1
    case Swap(n) => n + 2
    case Pop => 1
    case Bin(_) => 2
    case Neg => 1
    case Not => 1
    case And => 2
    case Or => 2
    case Inc => 1
    case Dec => 1
    case OpEq(_) => 2
    case OpEqPop(_) => 2
    case StepEq(_) => 1
    case StepEqPop(_) => 1
    case ArrayPush => 2
    case ArrayPushRef => 2
    case ArrayPop => 3
    case ArrayGen(n) => n
    case JumpFalse(_) => 1
    case JumpTrue(_) => 1
    case Function(n) => n + 2
    case Do(n) => n + 2
    case Send(n) => n + 2
    case PushOVarRef => 2
    case PopAlias => 1
    case SwapAlias => 2
    case _ => 0
  }

  function Leaves(i: Instr): nat {
    match i
    case PopLocal(_) => 0
    case PopStatic(_) => 0
    case PopMemvar(_) => 0
    case PopField(_) => 0
    case PopVariable(_) => 0
    case LocalAddInt(_, _) => 0
    case LocalInc(_) => 0
    case LocalDec(_) => 0
    case Duplicate => 2
    case DuplUnref => 2
    case PushUnref => 2
    case Swap(n) => n + 2
    case Pop => 0
    case OpEqPop(_) => 0
    case StepEqPop(_) => 0
    case ArrayPop => 0
    case Jump(_) => 0
    case JumpFalse(_) => 0
    case JumpTrue(_) => 0
    case PushFunSym(_) => 2
    case Do(_) => 0
    case PopAlias => 0
    case _ => 1
  }

  /** Depths that jumps already seen have at their targets.  A target is named by the number of
      bytes from it to the end of the code. */
  type Labels = map<nat, nat>

  /** No pending target lies inside an instruction that ends r bytes before the end. */
  predicate Below(labels: Labels, r: nat) {
    forall t :: t in labels ==> t <= r
  }

  /** The depth at a position: what falls through and what jumps there have to agree. */
  function Arrive(code: Code, d: Option<nat>, labels: Labels): Option<nat> {
    var r := CodeSize(code);
    if r in labels then
      if d == None || d == Some(labels[r]) then Some(labels[r]) else None
    else d
  }

  function Passed(code: Code, labels: Labels): Labels {
    labels - {CodeSize(code)}
  }

  /** The distance from a jump's target to the end of the code. */
  function TargetOf(distance: int, i: Instr, rest: Code): int {
    CodeSize(rest) - (distance - Size(i))
  }

  predicate Consistent(labels: Labels, target: nat, depth: nat) {
    target in labels ==> labels[target] == depth
  }

  function After(i: Instr, here: nat): nat
    requires Takes(i) <= here
  {
    here - Takes(i) + Leaves(i)
  }

  /** What falls through to the next instruction. */
  function Onward(i: Instr, here: nat): Option<nat>
    requires Takes(i) <= here
  {
    if i.Jump? then None else Some(After(i, here))
  }

  /** The labels pending behind an instruction. */
  function Pending(i: Instr, t: Code, here: nat, labels: Labels): Labels
    requires Takes(i) <= here && Lands(i, t)
  {
    match Distance(i)
    case None => labels
    case Some(n) => labels[TargetOf(n, i, t) := After(i, here)]
  }

  /** Execution goes on after this instruction: none stands for an error, and a jump stays in the code. */
  predicate Lands(i: Instr, t: Code) {
    !i.Refused? && (Distance(i).Some? ==> 0 <= TargetOf(Distance(i).value, i, t) <= CodeSize(t))
  }

  /** Code that is entered with depth d (None: only by jumps) and ends with depth final. */
  predicate Checks(code: Code, d: Option<nat>, labels: Labels, final: nat) {
    Arrive(code, d, labels).Some? &&
    var here, passed := Arrive(code, d, labels).value, Passed(code, labels);
    match code
    case End => here == final && passed == map[]
    case Then(i, t) =>
      && Takes(i) <= here && Below(passed, CodeSize(t)) && Lands(i, t)
      && (Distance(i).Some? ==> Consistent(passed, TargetOf(Distance(i).value, i, t), After(i, here)))
      && Checks(t, Onward(i, here), Pending(i, t, here, passed), final)
  }

  // ---------------------------------------------------------------- arriving

  /** A label at the entry with the depth of the entry makes no difference. */
  lemma EntryLabel(code: Code, d: nat, labels: Labels, final: nat)
    requires Checks(code, Some(d), labels, final)
    ensures Consistent(labels, CodeSize(code), d)
    ensures Checks(code, Some(d), labels[CodeSize(code) := d], final)
    ensures Checks(code, None, labels[CodeSize(code) := d], final)
  {
    var labels1 := labels[CodeSize(code) := d];
    assert Passed(code, labels1) == Passed(code, labels);
  }

  /** An instruction that is no jump. */
  lemma ThenChecks(i: Instr, k: Code, d: nat, labels: Labels, final: nat)
    requires Distance(i).None? && !i.Refused? && Takes(i) <= d && Below(labels, CodeSize(k))
    requires Checks(k, Some(After(i, d)), labels, final)
    ensures Checks(Then(i, k), Some(d), labels, final)
  {
    assert CodeSize(Then(i, k)) !in labels;
    assert Passed(Then(i, k), labels) == labels;
  }

  lemma JumpChecks(i: Instr, rest: Code, k: Code, d: nat, labels: Labels, final: nat)
    requires Distance(i).Some? && TargetOf(Distance(i).value, i, rest) == CodeSize(k) <= CodeSize(rest)
    requires Takes(i) <= d && Below(labels, CodeSize(rest)) && Consistent(labels, CodeSize(k), After(i, d))
    requires Checks(rest, Onward(i, d), labels[CodeSize(k) := After(i, d)], final)
    ensures Checks(Then(i, rest), Some(d), labels, final)
  {
    hide Takes, Leaves;
    assert CodeSize(Then(i, rest)) !in labels;
    assert Passed(Then(i, rest), labels) == labels;
  }

  // ---------------------------------------------------------------- soundness

  /** What the scan knows at a later position r bytes before the end. */
  function ScanTo(code: Code, d: Option<nat>, labels: Labels, r: nat): Option<(Code, Option<nat>, Labels)> {
    if CodeSize(code) == r then Some((code, d, labels))
    else if code.End? || Arrive(code, d, labels).None? then None
    else
      var Then(i, t) := code;
      var here := Arrive(code, d, labels).value;
      if Takes(i) <= here && Lands(i, t)
      then ScanTo(t, Onward(i, here), Pending(i, t, here, Passed(code, labels)), r)
      else None
  }

  /** The depth that the scan assigns to a position. */
  function DepthAt(code: Code, d: nat, r: nat): Option<nat> {
    match ScanTo(code, Some(d), map[], r)
    case None => None
    case Some((k, d1, labels)) => Arrive(k, d1, labels)
  }

  /** One step of control flow with the depth before and after it; a conditional jump goes either way. */
  function Walk(code: Code, d: nat, jump: bool): Option<(Code, nat)> {
    match code
    case End => None
    case Then(i, t) =>
      if Takes(i) > d then None
      else if i.Jump? || (jump && Distance(i).Some?) then
        match Skip(t, Distance(i).value - Size(i))
        case None => None
        case Some(k) => Some((k, After(i, d)))
      else Some((t, After(i, d)))
  }

  /** A path of control flow from the entry. */
  function Path(code: Code, d: nat, choices: seq<bool>): Option<(Code, nat)>
    decreases |choices|
  {
    if choices == [] then Some((code, d))
    else
      match Path(code, d, choices[..|choices| - 1])
      case None => None
      case Some((k, d1)) => Walk(k, d1, choices[|choices| - 1])
  }

  lemma ScanStep(code: Code, d: Option<nat>, labels: Labels, final: nat, r: nat)
    requires code.Then? && Checks(code, d, labels, final) && r <= CodeSize(code.tail)
    ensures var Then(i, t) := code;
      var here, passed := Arrive(code, d, labels).value, Passed(code, labels);
      && CodeSize(t) < CodeSize(code)
      && Takes(i) <= here && Lands(i, t)
      && Checks(t, Onward(i, here), Pending(i, t, here, passed), final)
      && ScanTo(code, d, labels, r) == ScanTo(t, Onward(i, here), Pending(i, t, here, passed), r)
  {
    hide Takes, Leaves, Distance;
  }

  /** A pending label is still there, with its depth, when the scan reaches its position. */
  lemma {:induction false} LabelArrives(code: Code, d: Option<nat>, labels: Labels, final: nat, r: nat)
    requires Checks(code, d, labels, final) && r in labels
    ensures r <= CodeSize(code) && Skip(code, CodeSize(code) - r).Some?
    ensures ScanTo(code, d, labels, r).Some?
    ensures var (k, d1, later) := ScanTo(code, d, labels, r).value;
      && k == Skip(code, CodeSize(code) - r).value && CodeSize(k) == r
      && Checks(k, d1, later, final) && Arrive(k, d1, later) == Some(labels[r])
  {
    hide Takes, Leaves, Size, Distance, Pending;
    if r == CodeSize(code) {
      assert ScanTo(code, d, labels, r) == Some((code, d, labels));
    } else {
      LabelLater(code, d, labels, final, r);
      ScanStep(code, d, labels, final, r);
      var here, passed := Arrive(code, d, labels).value, Passed(code, labels);
      var Then(i, t) := code;
      LabelArrives(t, Onward(i, here), Pending(i, t, here, passed), final, r);
      assert Skip(code, CodeSize(code) - r) == Skip(t, CodeSize(t) - r);
    }
  }

  lemma LabelLater(code: Code, d: Option<nat>, labels: Labels, final: nat, r: nat)
    requires Checks(code, d, labels, final) && r in labels && r != CodeSize(code)
    ensures code.Then? && r <= CodeSize(code.tail)
    ensures var Then(i, t) := code;
      var here, passed := Arrive(code, d, labels).value, Passed(code, labels);
      Takes(i) <= here && Lands(i, t) && r in Pending(i, t, here, passed) && Pending(i, t, here, passed)[r] == labels[r]
  {
    hide Takes, Leaves, Distance;
    var passed := Passed(code, labels);
    assert r in passed && passed[r] == labels[r];
  }

  /** Checked code has no wild jump, and pending ones land in it as well. */
  lemma {:induction false} ChecksLand(code: Code, d: Option<nat>, labels: Labels, final: nat)
    requires Checks(code, d, labels, final)
    ensures JumpsLand(code)
    ensures forall t :: t in labels ==> t <= CodeSize(code) && Skip(code, CodeSize(code) - t).Some?
  {
    hide Takes, Leaves, Distance, Size, Checks, Lands;
    forall t | t in labels ensures t <= CodeSize(code) && Skip(code, CodeSize(code) - t).Some? {
      LabelArrives(code, d, labels, final, t);
    }
    if code.Then? { JumpLands(code, d, labels, final); }
  }

  lemma {:induction false} JumpLands(code: Code, d: Option<nat>, labels: Labels, final: nat)
    requires Checks(code, d, labels, final) && code.Then?
    ensures JumpsLand(code)
    decreases code, 0
  {
    hide Takes, Leaves, Distance, Size, Checks;
    var Then(i, t) := code;
    ScanStep(code, d, labels, final, CodeSize(t));
    var here, passed := Arrive(code, d, labels).value, Passed(code, labels);
    var next := Pending(i, t, here, passed);
    if Distance(i).Some? {
      LabelArrives(t, Onward(i, here), next, final, TargetOf(Distance(i).value, i, t));
    }
    if t.Then? { JumpLands(t, Onward(i, here), next, final); }
  }

  /** The scan reaches what the scan reaches from a position it has reached. */
  lemma {:induction false} ScanFurther(code: Code, d: Option<nat>, labels: Labels, final: nat, r: nat, u: nat)
    requires Checks(code, d, labels, final) && u <= r
    requires ScanTo(code, d, labels, r).Some?
    ensures var (k, d1, later) := ScanTo(code, d, labels, r).value;
      && CodeSize(k) == r && Checks(k, d1, later, final)
      && ScanTo(k, d1, later, u) == ScanTo(code, d, labels, u)
  {
    hide Takes, Leaves;
    if CodeSize(code) != r {
      ScanShorter(code, d, labels, r);
      var here, passed := Arrive(code, d, labels).value, Passed(code, labels);
      var Then(i, t) := code;
      ScanFurther(t, Onward(i, here), Pending(i, t, here, passed), final, r, u);
    }
  }

  lemma {:induction false} ScanShorter(code: Code, d: Option<nat>, labels: Labels, r: nat)
    requires ScanTo(code, d, labels, r).Some?
    ensures r <= CodeSize(code)
  {
    hide Takes, Leaves;
    if CodeSize(code) != r {
      var Then(i, t) := code;
      var here, passed := Arrive(code, d, labels).value, Passed(code, labels);
      ScanShorter(t, Onward(i, here), Pending(i, t, here, passed), r);
    }
  }

  /** The scan at a position that a step leads to. */
  predicate Reaches(code: Code, d: Option<nat>, labels: Labels, final: nat, step: Option<(Code, nat)>) {
    step.Some? &&
    var (k, after) := step.value;
    && CodeSize(k) <= CodeSize(code)
    && ScanTo(code, d, labels, CodeSize(k)).Some?
    && var (k1, d1, later) := ScanTo(code, d, labels, CodeSize(k)).value;
      k1 == k && Checks(k, d1, later, final) && Arrive(k, d1, later) == Some(after)
  }

  /** A step of control flow goes to a position to which the scan assigns the depth after the step. */
  lemma WalkChecks(code: Code, d: Option<nat>, labels: Labels, final: nat, jump: bool)
    requires Checks(code, d, labels, final) && code.Then?
    ensures Reaches(code, d, labels, final, Walk(code, Arrive(code, d, labels).value, jump))
  {
    hide Takes, Leaves, Distance, ScanTo, Reaches, Walk;
    if code.head.Jump? || (jump && Distance(code.head).Some?) {
      WalkJump(code, d, labels, final, jump);
    } else {
      WalkOn(code, d, labels, final, jump);
    }
  }

  lemma WalkJump(code: Code, d: Option<nat>, labels: Labels, final: nat, jump: bool)
    requires Checks(code, d, labels, final) && code.Then? && (code.head.Jump? || (jump && Distance(code.head).Some?))
    ensures Reaches(code, d, labels, final, Walk(code, Arrive(code, d, labels).value, jump))
  {
    hide Takes, Leaves, Distance, ScanTo;
    var Then(i, t) := code;
    var here, passed := Arrive(code, d, labels).value, Passed(code, labels);
    JumpDistance(i);
    var target := TargetOf(Distance(i).value, i, t);
    ScanStep(code, d, labels, final, CodeSize(t));
    ScanStep(code, d, labels, final, target);
    LabelArrives(t, Onward(i, here), Pending(i, t, here, passed), final, target);
  }

  lemma WalkOn(code: Code, d: Option<nat>, labels: Labels, final: nat, jump: bool)
    requires Checks(code, d, labels, final) && code.Then? && !code.head.Jump? && !(jump && Distance(code.head).Some?)
    ensures Reaches(code, d, labels, final, Walk(code, Arrive(code, d, labels).value, jump))
  {
    hide Takes, Leaves, Distance, ScanTo;
    var Then(i, t) := code;
    var here, passed := Arrive(code, d, labels).value, Passed(code, labels);
    ScanStep(code, d, labels, final, CodeSize(t));
    ScanHere(t, Onward(i, here), Pending(i, t, here, passed));
  }

  lemma ScanHere(code: Code, d: Option<nat>, labels: Labels)
    ensures ScanTo(code, d, labels, CodeSize(code)) == Some((code, d, labels))
  {
  }

  lemma JumpDistance(i: Instr)
    ensures i.Jump? ==> Distance(i).Some?
  {
  }

  /** Whichever path leads to a position of checked code, the depth there is the one that the scan
      assigns; no path underflows the stack or leaves the code. */
  lemma {:induction false} PathDepth(code: Code, d: nat, final: nat, choices: seq<bool>)
    requires Checks(code, Some(d), map[], final)
    ensures Path(code, d, choices).Some? ==>
      DepthAt(code, d, CodeSize(Path(code, d, choices).value.0)) == Some(Path(code, d, choices).value.1)
    ensures Path(code, d, choices).Some? ==>
      var (k, d1) := Path(code, d, choices).value;
      && ScanTo(code, Some(d), map[], CodeSize(k)).Some? && ScanTo(code, Some(d), map[], CodeSize(k)).value.0 == k
      && (k.End? ==> d1 == final)
      && (k.Then? ==> Walk(k, d1, true).Some? && Walk(k, d1, false).Some?)
    decreases |choices|
  {
    if choices != [] {
      PathDepth(code, d, final, choices[..|choices| - 1]);
    }
    if Path(code, d, choices).Some? { PathStep(code, d, final, choices); }
  }

  lemma PathStep(code: Code, d: nat, final: nat, choices: seq<bool>)
    requires Checks(code, Some(d), map[], final) && Path(code, d, choices).Some?
    requires choices != [] ==>
      var (k, d1) := Path(code, d, choices[..|choices| - 1]).value;
      && DepthAt(code, d, CodeSize(k)) == Some(d1)
      && ScanTo(code, Some(d), map[], CodeSize(k)).Some? && ScanTo(code, Some(d), map[], CodeSize(k)).value.0 == k
    ensures var (k, d1) := Path(code, d, choices).value;
      && DepthAt(code, d, CodeSize(k)) == Some(d1)
      && ScanTo(code, Some(d), map[], CodeSize(k)).Some? && ScanTo(code, Some(d), map[], CodeSize(k)).value.0 == k
      && (k.End? ==> d1 == final)
      && (k.Then? ==> Walk(k, d1, true).Some? && Walk(k, d1, false).Some?)
  {
    var (k, d1) := Path(code, d, choices).value;
    if choices != [] {
      var (k0, d0) := Path(code, d, choices[..|choices| - 1]).value;
      ScanFurther(code, Some(d), map[], final, CodeSize(k0), 0);
      var (_, e0, later0) := ScanTo(code, Some(d), map[], CodeSize(k0)).value;
      WalkChecks(k0, e0, later0, final, choices[|choices| - 1]);
      ScanFurther(code, Some(d), map[], final, CodeSize(k0), CodeSize(k));
    }
    ScanFurther(code, Some(d), map[], final, CodeSize(k), 0);
    var (_, e1, later) := ScanTo(code, Some(d), map[], CodeSize(k)).value;
    if k.Then? {
      WalkChecks(k, e1, later, final, true);
      WalkChecks(k, e1, later, final, false);
    }
  }

  /** One stack depth per position. */
  lemma OneDepth(code: Code, d: nat, final: nat, p: seq<bool>, q: seq<bool>)
    requires Checks(code, Some(d), map[], final)
    requires Path(code, d, p).Some? && Path(code, d, q).Some?
    requires CodeSize(Path(code, d, p).value.0) == CodeSize(Path(code, d, q).value.0)
    ensures Path(code, d, p) == Path(code, d, q)
  {
    PathDepth(code, d, final, p);
    PathDepth(code, d, final, q);
  }

  // ---------------------------------------------------------------- runs of the machine

  function Height(s: Stack): nat {
    match s
    case Empty => 0
    case On(_, below) => 1 + Height(below)
  }

  lemma {:induction false} InsertHeight(x: Item, s: Stack, k: nat)
    ensures Insert(x, s, k).Some? ==> k <= Height(s) && Height(Insert(x, s, k).value) == Height(s) + 1
  {
    if k > 0 && s.On? { InsertHeight(x, s.below, k - 1); }
  }

  lemma {:induction false} TakeHeight(s: Stack, n: nat)
    ensures TakeArgs(s, n).Some? ==> n <= Height(s) && Height(TakeArgs(s, n).value.1) == Height(s) - n
  {
    if n > 0 && s.On? { TakeHeight(s.below, n - 1); }
  }

  /** What an instruction does to the height of the stack, wherever execution goes on. */
  predicate Moves(i: Instr, s: Stack, r: Reaction) {
    r.Next? || r.Branch? ==> Takes(i) <= Height(s) && Height(r.stack) == Height(s) - Takes(i) + Leaves(i)
  }

  /** Instructions that take their operands off the stack in a loop. */
  predicate Counted(i: Instr) {
    i.Swap? || i.ArrayGen? || i.Function? || i.Do? || i.Send?
  }

  predicate OnVariables(i: Instr) {
    i.PushLocal? || i.PopLocal? || i.PushLocalRef? || i.PushStatic? || i.PopStatic? || i.PushStaticRef? || i.PushMemvar? || i.PopMemvar?
    || i.PushMemvarRef? || i.PushField? || i.PopField? || i.PushVariable? || i.PopVariable? || i.LocalAddInt? || i.LocalInc? || i.LocalDec?
    || i.LocalIncPush?
  }

  predicate OnOne(i: Instr) {
    i.Neg? || i.Not? || i.Inc? || i.Dec? || i.StepEq? || i.StepEqPop?
  }

  predicate OnTwo(i: Instr) {
    i.Bin? || i.And? || i.Or? || i.OpEq? || i.OpEqPop?
  }

  predicate OnElements(i: Instr) {
    i.ArrayPush? || i.ArrayPushRef? || i.ArrayPop?
  }

  lemma ThreeHigh(s: Stack)
    ensures s.On? ==> Height(s) == 1 + Height(s.below)
    ensures s.On? && s.below.On? ==> Height(s.below) == 1 + Height(s.below.below)
    ensures s.On? && s.below.On? && s.below.below.On? ==> Height(s.below.below) == 1 + Height(s.below.below.below)
  {
  }

  lemma AllHigh()
    ensures forall x, s :: Height(On(x, s)) == 1 + Height(s)
  {
  }

  lemma CountedHeight(w: World, i: Instr, s: Stack, st: State)
    requires Counted(i)
    ensures Moves(i, s, Exec(w, i, s, st))
  {
    hide SwapItems, GenerateArray, CallTop, SendTop, Height, Exec, Takes, Leaves;
    ExecCounted(w, i, s, st);
    CountedMoves(i);
    match i
    case Swap(n) => SwapHeight(n, s, st);
    case ArrayGen(n) => ArrayHeight(n, s, st);
    case Send(n) => SendHeight(w, n, s, st);
    case Function(n) => CallHeight(w, n, true, s, st);
    case Do(n) => CallHeight(w, n, false, s, st);
  }

  lemma CountedMoves(i: Instr)
    ensures i.Swap? ==> Takes(i) == Leaves(i) == i.count + 2
    ensures i.ArrayGen? ==> Takes(i) == i.items && Leaves(i) == 1
    ensures i.Send? || i.Function? ==> Takes(i) == i.count + 2 && Leaves(i) == 1
    ensures i.Do? ==> Takes(i) == i.count + 2 && Leaves(i) == 0
  {
  }

  lemma ExecCounted(w: World, i: Instr, s: Stack, st: State)
    ensures i.Swap? ==> Exec(w, i, s, st) == SwapItems(i.count, s, st)
    ensures i.ArrayGen? ==> Exec(w, i, s, st) == GenerateArray(i.items, s, st)
    ensures i.Send? ==> Exec(w, i, s, st) == SendTop(w, i.count, s, st)
    ensures i.Function? ==> Exec(w, i, s, st) == CallTop(w, i.count, true, s, st)
    ensures i.Do? ==> Exec(w, i, s, st) == CallTop(w, i.count, false, s, st)
  {
    hide SwapItems, GenerateArray, CallTop, SendTop;
  }

  /** The reaction goes on with items taken and left. */
  predicate Trades(s: Stack, takes: nat, leaves: nat, r: Reaction) {
    !r.Branch? && (r.Next? ==> takes <= Height(s) && Height(r.stack) == Height(s) - takes + leaves)
  }

  lemma SwapHeight(n: nat, s: Stack, st: State)
    ensures Trades(s, n + 2, n + 2, SwapItems(n, s, st))
  {
    if s.On? { InsertHeight(s.top, s.below, n + 1); }
  }

  lemma ArrayHeight(n: nat, s: Stack, st: State)
    ensures Trades(s, n, 1, GenerateArray(n, s, st))
  {
    hide NewArray;
    TakeHeight(s, n);
  }

  lemma CallHeight(w: World, n: nat, wanted: bool, s: Stack, st: State)
    ensures Trades(s, n + 2, if wanted then 1 else 0, CallTop(w, n, wanted, s, st))
  {
    hide CallFunction;
    TakeHeight(s, n);
    if TakeArgs(s, n).Some? { ThreeHigh(TakeArgs(s, n).value.1); }
  }

  lemma SendHeight(w: World, n: nat, s: Stack, st: State)
    ensures Trades(s, n + 2, 1, SendTop(w, n, s, st))
  {
    hide SendItem;
    TakeHeight(s, n);
    if TakeArgs(s, n).Some? { ThreeHigh(TakeArgs(s, n).value.1); }
  }

  lemma VariableHeight(w: World, i: Instr, s: Stack, st: State)
    requires OnVariables(i)
    ensures Moves(i, s, Exec(w, i, s, st))
  {
    hide Exec, Moves, Takes, Leaves;
    if i.PopLocal? || i.PopStatic? || i.PopMemvar? || i.PopField? || i.PopVariable? || i.LocalAddInt? {
      StoreHeight(w, i, s, st);
    } else {
      LoadHeight(w, i, s, st);
    }
  }

  lemma StoreHeight(w: World, i: Instr, s: Stack, st: State)
    requires i.PopLocal? || i.PopStatic? || i.PopMemvar? || i.PopField? || i.PopVariable? || i.LocalAddInt?
    ensures Moves(i, s, Exec(w, i, s, st))
  {
    hide PopInto, AddToLocal, Height;
    PopHeight(i, s, st);
    LocalHeight(i, s, st);
  }

  lemma LoadHeight(w: World, i: Instr, s: Stack, st: State)
    requires OnVariables(i) && !i.PopLocal? && !i.PopStatic? && !i.PopMemvar? && !i.PopField? && !i.PopVariable? && !i.LocalAddInt?
    ensures Moves(i, s, Exec(w, i, s, st))
  {
    hide StepLocal, Height;
    AllHigh();
  }

  lemma PopHeight(i: Instr, s: Stack, st: State)
    ensures Trades(s, 1, 0, PopInto(i, s, st))
  {
    hide Put;
  }

  lemma LocalHeight(i: Instr, s: Stack, st: State)
    ensures i.LocalAddInt? ==> Trades(s, 0, 0, AddToLocal(i.index, i.k, s, st))
  {
    hide AddInt;
  }

  lemma OneHeight(w: World, i: Instr, s: Stack, st: State)
    requires OnOne(i)
    ensures Moves(i, s, Exec(w, i, s, st))
  {
    hide NegateTop, InvertTop, StepTop, StepThrough, Height;
    UnaryHeight(w, true, s, st);
    UnaryHeight(w, false, s, st);
    if i.StepEq? || i.StepEqPop? { UnaryHeight(w, i.up, s, st); }
  }

  lemma TwoHeight(w: World, i: Instr, s: Stack, st: State)
    requires OnTwo(i)
    ensures Moves(i, s, Exec(w, i, s, st))
  {
    hide OperateTop, Connective, OperateThrough, Height;
    if i.And? || i.Or? { UnaryHeight(w, i.And?, s, st); } else { BinaryHeight(w, i.op, s, st); }
  }

  lemma ArrayMoves(w: World, i: Instr, s: Stack, st: State)
    requires OnElements(i)
    ensures Moves(i, s, Exec(w, i, s, st))
  {
    hide FetchElement, ReferElement, PopElement, Height;
    ElementHeight(w, s, st);
  }

  lemma BinaryHeight(w: World, op: BinOp, s: Stack, st: State)
    ensures Trades(s, 2, 1, OperateTop(w, op, s, st))
    ensures Trades(s, 2, 1, OperateThrough(w, op, true, s, st)) && Trades(s, 2, 0, OperateThrough(w, op, false, s, st))
  {
    hide OperateItems, OperateRef, Height;
    ThreeHigh(s);
    AllHigh();
  }

  lemma UnaryHeight(w: World, up: bool, s: Stack, st: State)
    ensures Trades(s, 1, 1, NegateTop(w, s, st)) && Trades(s, 1, 1, InvertTop(s, st)) && Trades(s, 1, 1, StepTop(up, s, st))
    ensures Trades(s, 2, 1, Connective(up, s, st))
    ensures Trades(s, 1, 1, StepThrough(w, up, true, s, st)) && Trades(s, 1, 0, StepThrough(w, up, false, s, st))
  {
    hide StepRef, Step, Height;
    ThreeHigh(s);
    AllHigh();
  }

  lemma ElementHeight(w: World, s: Stack, st: State)
    ensures Trades(s, 2, 1, FetchElement(s, st)) && Trades(s, 2, 1, ReferElement(w, s, st)) && Trades(s, 3, 0, PopElement(w, s, st))
  {
    hide LocateElement, Element, WriteRef, Height;
    ThreeHigh(s);
    AllHigh();
  }

  lemma OtherHeight(w: World, i: Instr, s: Stack, st: State)
    requires !Counted(i) && !OnVariables(i) && !OnOne(i) && !OnTwo(i) && !OnElements(i)
    ensures Moves(i, s, Exec(w, i, s, st))
  {
    hide Unref, ReadRef, MessageReference, SelectArea, Height;
    ThreeHigh(s);
    AllHigh();
  }

  /** The table of depths is what the machine does. */
  lemma ExecHeight(w: World, i: Instr, s: Stack, st: State)
    ensures Moves(i, s, Exec(w, i, s, st))
  {
    hide Exec, Moves;
    if Counted(i) { CountedHeight(w, i, s, st); }
    else if OnVariables(i) { VariableHeight(w, i, s, st); }
    else if OnOne(i) { OneHeight(w, i, s, st); }
    else if OnTwo(i) { TwoHeight(w, i, s, st); }
    else if OnElements(i) { ArrayMoves(w, i, s, st); }
    else { OtherHeight(w, i, s, st); }
  }

  /** The machine after n instructions: the code that remains, the stack and the state. */
  function Machine(w: World, code: Code, s: Stack, st: State, n: nat): Option<(Code, Stack, State)> {
    if n == 0 then Some((code, s, st))
    else
      match Machine(w, code, s, st, n - 1)
      case None => None
      case Some((End, _, _)) => None
      case Some((Then(i, t), s1, st1)) =>
        match Exec(w, i, s1, st1)
        case Next(s2, st2) => Some((t, s2, st2))
        case Branch(d, s2, st2) =>
          (match Skip(t, d - Size(i))
           case None => None
           case Some(k) => Some((k, s2, st2)))
        case Fail(_) => None
        case Stuck => None
  }

  /** What the machine does is a path of control flow, with the heights of its stacks. */
  lemma {:induction false} MachinePath(w: World, code: Code, s: Stack, st: State, n: nat) returns (choices: seq<bool>)
    requires Machine(w, code, s, st, n).Some?
    ensures var (k, s1, st1) := Machine(w, code, s, st, n).value;
      && Path(code, Height(s), choices) == Some((k, Height(s1)))
      && Run(w, code, s, st) == Run(w, k, s1, st1)
  {
    hide Exec, Takes, Leaves, Distance, Run;
    choices := [];
    if n > 0 {
      var before := MachinePath(w, code, s, st, n - 1);
      var (k, s1, st1) := Machine(w, code, s, st, n - 1).value;
      var r := Exec(w, k.head, s1, st1);
      choices := before + [r.Branch?];
      assert choices[..|choices| - 1] == before;
      ExecHeight(w, k.head, s1, st1);
      BranchOnly(w, k.head, s1, st1);
      JumpReaction(w, k.head, s1, st1);
      RunThen(w, k.head, k.tail, s1, st1);
    }
  }

  lemma JumpReaction(w: World, i: Instr, s: Stack, st: State)
    ensures i.Jump? ==> Exec(w, i, s, st).Branch?
  {
  }

  /** In a run of checked code, every position is reached with the height that the scan assigns to it,
      every instruction finds its items, and the end is reached with the final depth. */
  lemma RunDepth(w: World, code: Code, s: Stack, st: State, final: nat, n: nat)
    requires Checks(code, Some(Height(s)), map[], final) && Machine(w, code, s, st, n).Some?
    ensures var (k, s1, _) := Machine(w, code, s, st, n).value;
      && DepthAt(code, Height(s), CodeSize(k)) == Some(Height(s1))
      && (k.Then? ==> Takes(k.head) <= Height(s1)) && (k.End? ==> Height(s1) == final)
  {
    hide Exec, Takes, Leaves, Distance, Checks, Machine, Path;
    var choices := MachinePath(w, code, s, st, n);
    PathDepth(code, Height(s), final, choices);
  }
}
