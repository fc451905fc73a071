/** The meaning of expressions, defined on the tree.  It knows the language modes
    (Harbour or Clipper evaluation of compound targets, shortcut logic) but none of the
    code generator's fast paths. */
module Meaning {
  import opened Values
  import opened Expressions

  // ---------------------------------------------------------------- variables

  /** Undeclared names are read as a field of the current work area first, then as a
      memvar (under -v: always as a memvar). */
  function LoadVar(c: Config, name: string, st: State): Option<Value> {
    match c.scope(name)
    case Local(i) => Some(ReadLocal(i, st))
    case Detached(i) => Some(ReadLocal(-(i as int), st))
    case Static(i) => Some(ReadStatic(i, st))
    case Memvar => ReadMemvar(name, st)
    case Field => ReadField(name, st)
    case Undeclared =>
      if c.forceMemvars then ReadMemvar(name, st)
      else if ReadField(name, st).Some? then ReadField(name, st)
      else ReadMemvar(name, st)
  }

  /** Assigning to an unknown memvar creates it; an undeclared name is assigned as a memvar. */
  function StoreVar(c: Config, name: string, v: Value, st: State): Outcome<()> {
    match c.scope(name)
    case Local(i) => Ok((), PutLocal(i, v, st))
    case Detached(i) => Ok((), PutLocal(-(i as int), v, st))
    case Static(i) => Ok((), PutStatic(i, v, st))
    case Field => PutField(name, v, st)
    case _ => Ok((), PutMemvar(name, v, st))
  }

  /** A reference to a variable; there is none to a field, and a memvar has to exist. */
  function VarReference(c: Config, name: string, st: State): Outcome<Ref> {
    match c.scope(name)
    case Local(i) => Ok(LocalRef(i), st)
    case Detached(i) => Ok(LocalRef(-(i as int)), st)
    case Static(i) => Ok(StaticRef(i), st)
    case Field => Err(st)
    case _ => if name in st.memvars then Ok(MemvarRef(name), st) else Err(st)
  }

  // ---------------------------------------------------------------- plumbing

  function Drop<T>(o: Outcome<T>): Outcome<()> {
    match o
    case Ok(_, st) => Ok((), st)
    case Err(st) => Err(st)
  }

  function AsItem(o: Outcome<Value>): Outcome<Item> {
    match o
    case Ok(v, st) => Ok(V(v), st)
    case Err(st) => Err(st)
  }

  function WithResult(o: Outcome<()>, result: Item): Outcome<Item> {
    match o
    case Err(st) => Err(st)
    case Ok(_, st) => Ok(result, st)
  }

  function FromOption(v: Option<Value>, st: State): Outcome<Item> {
    match v
    case None => Err(st)
    case Some(x) => Ok(V(x), st)
  }

  function Negated(w: World, x: Item): Option<Value> {
    if x.V? then (w.negate)(x.value) else None
  }

  function StepItem(up: bool, x: Item): Option<Value> {
    if x.V? then Step(up, x.value) else None
  }

  function Inverted(x: Item): Option<Value> {
    if x.V? && x.value.Log? then Some(Log(!x.value.b)) else None
  }

  /** .AND. and .OR. on two evaluated operands. */
  function Logical(isAnd: bool, x: Item, y: Item): Option<Value> {
    if x.V? && x.value.Log? && y.V? && y.value.Log?
    then Some(Log(if isAnd then x.value.b && y.value.b else x.value.b || y.value.b))
    else None
  }

  /** A condition has to be a logical value. */
  function Condition(x: Item): Option<bool> {
    if x.V? && x.value.Log? then Some(x.value.b) else None
  }

  function ReadElement(base: Item, index: Item, st: State): Outcome<Item> {
    match Element(base, index, st)
    case None => Err(st)
    case Some((a, i)) => Ok(V(st.arrays[a][i]), st)
  }

  function StoreElement(w: World, base: Item, index: Item, v: Value, st: State): Outcome<()> {
    match LocateElement(w, base, index, st)
    case Err(st1) => Err(st1)
    case Ok(ref, st1) => WriteRef(w, ref, v, st1)
  }

  /** Whether a compound assignment to this target goes through a reference. */
  predicate UpdatesByRef(c: Config, target: Expr) {
    match target
    case EVar(n) => c.harbour && Referenced(c.scope(n))
    case EAt(_, _, _) => c.harbour
    case ESend(_, _, _, _) => c.extopt && c.harbour
    case _ => false
  }

  /** The same for ++ and --, where a message needs only the EXTOPT switch. */
  predicate StepsByRef(c: Config, target: Expr) {
    match target
    case ESend(_, _, _, _) => c.extopt
    case _ => UpdatesByRef(c, target)
  }

  // ---------------------------------------------------------------- expressions

  function Eval(w: World, c: Config, e: Expr, st: State): Outcome<Item>
    decreases e, 2
  {
    match e
    case ENil => Ok(V(NilV), st)
    case ENum(n) => Ok(V(Num(n as real)), st)
    case EStr(s) => Ok(V(Str(s)), st)
    case ELog(b) => Ok(V(Log(b)), st)
    case EVar(n) => FromOption(LoadVar(c, n, st), st)
    case EVarRef(n) =>
      (match VarReference(c, n, st)
       case Ok(r, st1) => Ok(R(r), st1)
       case Err(st1) => Err(st1))
    case ERef(x) => Refer(w, c, x, st)
    case EArray(items) =>
      (match EvalAll(w, c, items, st)
       case Err(st1) => Err(st1)
       case Ok(xs, st1) => AsItem(NewArray(xs, st1)))
    case EIif(x, a, b) =>
      (match Eval(w, c, x, st)
       case Err(st1) => Err(st1)
       case Ok(it, st1) =>
         match Condition(it)
         case None => Err(st1)
         case Some(t) => if t then Eval(w, c, a, st1) else Eval(w, c, b, st1))
    case EList(init, last) =>
      (match EffectAll(w, c, init, st)
       case Err(st1) => Err(st1)
       case Ok(_, st1) => Eval(w, c, last, st1))
    case EAt(b, i, byRef) =>
      (match Eval(w, c, b, st)
       case Err(st1) => Err(st1)
       case Ok(bv, st1) =>
         match Eval(w, c, i, st1)
         case Err(st2) => Err(st2)
         case Ok(iv, st2) =>
           if byRef then
             match LocateElement(w, bv, iv, st2)
             case Err(st3) => Err(st3)
             case Ok(r, st3) => Ok(R(r), st3)
           else
             ReadElement(bv, iv, st2))
    case ECall(f, args) =>
      (match EvalAll(w, c, args, st)
       case Err(st1) => Err(st1)
       case Ok(xs, st1) => AsItem(CallFunction(w, f, xs, st1)))
    case ESend(o, m, _, ps) =>
      (match Eval(w, c, o, st)
       case Err(st1) => Err(st1)
       case Ok(ov, st1) =>
         match EvalAll(w, c, ps, st1)
         case Err(st2) => Err(st2)
         case Ok(xs, st2) => SendItem(w, ov, m, xs, st2))
    case EAlias(a, b) =>
      (match Eval(w, c, a, st)
       case Err(st1) => Err(st1)
       case Ok(av, st1) =>
         match Eval(w, c, b, SelectArea(w, av, st1))
         case Err(st2) => Err(st2)
         case Ok(bv, st2) => Ok(bv, SelectNumber(w, st.area, st2)))
    case EAssign(_, _) => EvalAssign(w, c, e, st)
    case EOpEq(_, _, _) => EvalOpEq(w, c, e, st)
    case EStep(up, pre, l) => EvalStep(w, c, up, pre, l, st)
    case ELogic(isAnd, a, b) =>
      (match Eval(w, c, a, st)
       case Err(st1) => Err(st1)
       case Ok(av, st1) =>
         if c.shortcuts then
           match Condition(av)
           case None => Err(st1)
           case Some(t) => if t == isAnd then Eval(w, c, b, st1) else Ok(av, st1)
         else
           match Eval(w, c, b, st1)
           case Err(st2) => Err(st2)
           case Ok(bv, st2) => FromOption(Logical(isAnd, av, bv), st2))
    case ENot(x) =>
      (match Eval(w, c, x, st)
       case Err(st1) => Err(st1)
       case Ok(it, st1) => FromOption(Inverted(it), st1))
    case ENeg(x) =>
      (match Eval(w, c, x, st)
       case Err(st1) => Err(st1)
       case Ok(it, st1) => FromOption(Negated(w, it), st1))
    case EBin(op, a, b) =>
      (match Eval(w, c, a, st)
       case Err(st1) => Err(st1)
       case Ok(av, st1) =>
         match Eval(w, c, b, st1)
         case Err(st2) => Err(st2)
         case Ok(bv, st2) => FromOption(OperateItems(w, op, av, bv), st2))
  }

  /** Left to right. */
  function EvalAll(w: World, c: Config, es: Exprs, st: State): (o: Outcome<seq<Item>>)
    ensures o.Ok? ==> |o.value| == Count(es)
    decreases es, 0
  {
    match es
    case ENone => Ok([], st)
    case EMore(e, t) =>
      match Eval(w, c, e, st)
      case Err(st1) => Err(st1)
      case Ok(x, st1) =>
        match EvalAll(w, c, t, st1)
        case Err(st2) => Err(st2)
        case Ok(xs, st2) => Ok([x] + xs, st2)
  }

  /** `l := r`.  A message target is sent its assign message, and what that returns is the
      result; any other target is stored after the right side has been evaluated. */
  function EvalAssign(w: World, c: Config, e: Expr, st: State): Outcome<Item>
    requires e.EAssign?
    decreases e, 1
  {
    var EAssign(l, r) := e;
    match l
    case ESend(o, m, _, _) =>
      (match Eval(w, c, o, st)
       case Err(st1) => Err(st1)
       case Ok(ov, st1) =>
         match Eval(w, c, r, st1)
         case Err(st2) => Err(st2)
         case Ok(rv, st2) => SendItem(w, ov, "_" + m, [rv], st2))
    case _ =>
      match Eval(w, c, r, st)
      case Err(st1) => Err(st1)
      case Ok(rv, st1) =>
        match Unref(w, rv, st1)
        case Err(st2) => Err(st2)
        case Ok(v, st2) => WithResult(Store(w, c, l, v, st2), rv)
  }

  /** `l op= r`.  By reference: locate the target once, evaluate r, then read, operate and
      write back.  Otherwise: read the target, evaluate r, operate, and store into the target,
      which evaluates the target's subexpressions a second time. */
  function EvalOpEq(w: World, c: Config, e: Expr, st: State): Outcome<Item>
    requires e.EOpEq?
    decreases e, 1
  {
    var EOpEq(op, l, r) := e;
    if UpdatesByRef(c, l) then
      match Locate(w, c, l, st)
      case Err(st1) => Err(st1)
      case Ok(ref, st1) =>
        match Eval(w, c, r, st1)
        case Err(st2) => Err(st2)
        case Ok(rv, st2) => AsItem(OperateRef(w, op, ref, rv, st2))
    else if l.ESend? then
      match AccessPair(w, c, l, st)
      case Err(st1) => Err(st1)
      case Ok((ov, cur), st1) =>
        match Eval(w, c, r, st1)
        case Err(st2) => Err(st2)
        case Ok(rv, st2) =>
          match OperateItems(w, op, cur, rv)
          case None => Err(st2)
          case Some(v) => SendItem(w, ov, "_" + l.message, [V(v)], st2)
    else GenericOpEq(w, c, e, st)
  }

  /** Load, operate, store. */
  function GenericOpEq(w: World, c: Config, e: Expr, st: State): Outcome<Item>
    requires e.EOpEq?
    decreases e, 0
  {
    match Eval(w, c, e.target, st)
    case Err(st1) => Err(st1)
    case Ok(cur, st1) =>
      match Eval(w, c, e.source, st1)
      case Err(st2) => Err(st2)
      case Ok(rv, st2) =>
        match OperateItems(w, e.op, cur, rv)
        case None => Err(st2)
        case Some(v) => WithResult(Store(w, c, e.target, v, st2), V(v))
  }

  /** `++l`, `--l`, `l++` and `l--`. */
  function EvalStep(w: World, c: Config, up: bool, pre: bool, l: Expr, st: State): Outcome<Item>
    decreases l, 4
  {
    if StepsByRef(c, l) then
      match Locate(w, c, l, st)
      case Err(st1) => Err(st1)
      case Ok(ref, st1) =>
        if pre then AsItem(StepRef(w, up, ref, st1))
        else
          match ReadRef(w, ref, st1)
          case Err(st2) => Err(st2)
          case Ok(before, st2) =>
            match StepRef(w, up, ref, st2)
            case Err(st3) => Err(st3)
            case Ok(_, st3) => Ok(V(before), st3)
    else if l.ESend? then
      if pre then StepMessage(w, c, up, l, st)
      else if c.harbour then
        match AccessPair(w, c, l, st)
        case Err(st1) => Err(st1)
        case Ok((ov, cur), st1) =>
          match StepItem(up, cur)
          case None => Err(st1)
          case Some(v) =>
            match SendItem(w, ov, "_" + l.message, [V(v)], st1)
            case Err(st2) => Err(st2)
            case Ok(_, st2) => Ok(cur, st2)
      else
        match Eval(w, c, l, st)
        case Err(st1) => Err(st1)
        case Ok(before, st1) =>
          match StepMessage(w, c, up, l, st1)
          case Err(st2) => Err(st2)
          case Ok(_, st2) => Ok(before, st2)
    else GenericStep(w, c, up, pre, l, st)
  }

  /** Load, step, store. */
  function GenericStep(w: World, c: Config, up: bool, pre: bool, l: Expr, st: State): Outcome<Item>
    decreases l, 3
  {
    match Eval(w, c, l, st)
    case Err(st1) => Err(st1)
    case Ok(cur, st1) =>
      match StepItem(up, cur)
      case None => Err(st1)
      case Some(v) => WithResult(Store(w, c, l, v, st1), if pre then V(v) else cur)
  }

  /** Access, step, assign; the result is what the assign message returns. */
  function StepMessage(w: World, c: Config, up: bool, l: Expr, st: State): Outcome<Item>
    requires l.ESend?
    decreases l, 3
  {
    match AccessPair(w, c, l, st)
    case Err(st1) => Err(st1)
    case Ok((ov, cur), st1) =>
      match StepItem(up, cur)
      case None => Err(st1)
      case Some(v) => SendItem(w, ov, "_" + l.message, [V(v)], st1)
  }

  /** The receiver to assign to and the accessed value.  Harbour mode evaluates the object
      expression once, Clipper mode once for the receiver and once more for the access. */
  function AccessPair(w: World, c: Config, l: Expr, st: State): Outcome<(Item, Item)>
    requires l.ESend?
    decreases l, 2
  {
    match Eval(w, c, l.object_, st)
    case Err(st1) => Err(st1)
    case Ok(ov, st1) =>
      if c.harbour then
        match SendItem(w, ov, l.message, [], st1)
        case Err(st2) => Err(st2)
        case Ok(cur, st2) => Ok((ov, cur), st2)
      else
        match Eval(w, c, l.object_, st1)
        case Err(st2) => Err(st2)
        case Ok(again, st2) =>
          match SendItem(w, again, l.message, [], st2)
          case Err(st3) => Err(st3)
          case Ok(cur, st3) => Ok((ov, cur), st3)
  }

  /** Evaluates the subexpressions of a target once. */
  function Locate(w: World, c: Config, l: Expr, st: State): Outcome<Ref>
    decreases l, 2
  {
    match l
    case EVar(n) => VarReference(c, n, st)
    case EAt(b, i, _) =>
      (match Eval(w, c, b, st)
       case Err(st1) => Err(st1)
       case Ok(bv, st1) =>
         match Eval(w, c, i, st1)
         case Err(st2) => Err(st2)
         case Ok(iv, st2) => LocateElement(w, bv, iv, st2))
    case ESend(o, m, _, _) =>
      (match Eval(w, c, o, st)
       case Err(st1) => Err(st1)
       case Ok(ov, st1) => MessageReference(w, ov, m, st1))
    case _ => Err(st)
  }

  /** A reference to what an expression designates; a reference to a conditional is one to the chosen arm. */
  function Refer(w: World, c: Config, e: Expr, st: State): Outcome<Item>
    decreases e, 3
  {
    match e
    case EVarRef(_) => Eval(w, c, e, st)
    case ERef(_) => Eval(w, c, e, st)
    case EIif(x, a, b) =>
      (match Eval(w, c, x, st)
       case Err(st1) => Err(st1)
       case Ok(it, st1) =>
         match Condition(it)
         case None => Err(st1)
         case Some(t) => if t then Refer(w, c, a, st1) else Refer(w, c, b, st1))
    case _ =>
      match Locate(w, c, e, st)
      case Err(st1) => Err(st1)
      case Ok(r, st1) => Ok(R(r), st1)
  }

  /** Stores a value into a target. */
  function Store(w: World, c: Config, l: Expr, v: Value, st: State): Outcome<()>
    decreases l, 1
  {
    match l
    case EVar(n) => StoreVar(c, n, v, st)
    case EAt(b, i, _) =>
      (match Eval(w, c, b, st)
       case Err(st1) => Err(st1)
       case Ok(bv, st1) =>
         match Eval(w, c, i, st1)
         case Err(st2) => Err(st2)
         case Ok(iv, st2) =>
           StoreElement(w, bv, iv, v, st2))
    case ESend(o, m, _, _) =>
      (match Eval(w, c, o, st)
       case Err(st1) => Err(st1)
       case Ok(ov, st1) => Drop(SendItem(w, ov, "_" + m, [V(v)], st1)))
    case EIif(x, a, b) =>
      (match Eval(w, c, x, st)
       case Err(st1) => Err(st1)
       case Ok(it, st1) =>
         match Condition(it)
         case None => Err(st1)
         case Some(t) => if t then Store(w, c, a, v, st1) else Store(w, c, b, v, st1))
    case _ => Err(st)
  }

  // ---------------------------------------------------------------- effects

  /** Evaluation for effect, when the value is not wanted: operators are not applied, array
      elements are not selected, and a post-increment may run as a pre-increment. */
  function Effect(w: World, c: Config, e: Expr, st: State): Outcome<()>
    decreases e, 3
  {
    match e
    case ENil => Ok((), st)
    case ENum(_) => Ok((), st)
    case EStr(_) => Ok((), st)
    case ELog(_) => Ok((), st)
    case EVarRef(_) => Ok((), st)
    case ERef(_) => Ok((), st)
    case EArray(items) => EffectAll(w, c, items, st)
    case EIif(x, a, b) =>
      (match Eval(w, c, x, st)
       case Err(st1) => Err(st1)
       case Ok(it, st1) =>
         match Condition(it)
         case None => Err(st1)
         case Some(t) => if t then Effect(w, c, a, st1) else Effect(w, c, b, st1))
    case EList(init, last) =>
      (match EffectAll(w, c, init, st)
       case Err(st1) => Err(st1)
       case Ok(_, st1) => Effect(w, c, last, st1))
    case EAt(b, i, _) =>
      (match Effect(w, c, b, st)
       case Err(st1) => Err(st1)
       case Ok(_, st1) => Effect(w, c, i, st1))
    case EAlias(a, b) =>
      (match Eval(w, c, a, st)
       case Err(st1) => Err(st1)
       case Ok(av, st1) =>
         match Effect(w, c, b, SelectArea(w, av, st1))
         case Err(st2) => Err(st2)
         case Ok(_, st2) => Ok((), SelectNumber(w, st.area, st2)))
    case EAssign(l, r) =>
      if l.ESend? then Drop(Eval(w, c, e, st))
      else
        (match Eval(w, c, r, st)
         case Err(st1) => Err(st1)
         case Ok(rv, st1) => if rv.V? then Store(w, c, l, rv.value, st1) else Err(st1))
    case EStep(up, _, l) => Drop(EvalStep(w, c, up, true, l, st))
    case ELogic(isAnd, a, b) =>
      if c.shortcuts then
        match Eval(w, c, a, st)
        case Err(st1) => Err(st1)
        case Ok(av, st1) =>
          match Condition(av)
          case None => Err(st1)
          case Some(t) => if t == isAnd then Effect(w, c, b, st1) else Ok((), st1)
      else Drop(Eval(w, c, e, st))
    case ENot(x) => if c.harbour then Effect(w, c, x, st) else Drop(Eval(w, c, e, st))
    case ENeg(x) => if c.harbour then Effect(w, c, x, st) else Drop(Eval(w, c, e, st))
    case EBin(_, a, b) =>
      if c.harbour then
        match Effect(w, c, a, st)
        case Err(st1) => Err(st1)
        case Ok(_, st1) => Effect(w, c, b, st1)
      else Drop(Eval(w, c, e, st))
    case _ => Drop(Eval(w, c, e, st))
  }

  function EffectAll(w: World, c: Config, es: Exprs, st: State): Outcome<()>
    decreases es, 0
  {
    match es
    case ENone => Ok((), st)
    case EMore(e, t) =>
      match Effect(w, c, e, st)
      case Err(st1) => Err(st1)
      case Ok(_, st1) => EffectAll(w, c, t, st1)
  }
}
