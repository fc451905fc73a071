/** The recursive spinlock, one memory access at a time under sequential consistency, as a
    refinement of an atomic reentrant lock. */
module Spinlock {
  import opened Values

  const UINT_MAX := 0xFFFF_FFFF
  const REPEAT := 63

  /** hb_spinlock_acquire_r or hb_spinlock_try_r. */
  datatype Call = Acquire | Try

  /** Where a thread is: the memory access it makes next, with its local variables. */
  datatype Pc =
    | Outside
    | ReadLock(call: Call, retry: nat)      // *l != HB_SPINLOCK_INIT
    | ReadThid(call: Call, retry: nat)      // sl->thid == HB_THREAD_SELF()
    | ReadCount(call: Call)                 // sl->count++: the read
    | WriteCount(call: Call, reg: nat)      //              the write
    | TestAndSet(call: Call, retry: nat)    // HB_SPINLOCK_TRY( l )
    | WriteThid(call: Call)                 // sl->thid = HB_THREAD_SELF()
    | WriteOne(call: Call)                  // sl->count = 1
    | ReleaseRead                           // --sl->count: the read
    | ReleaseWrite(reg: nat)                //              the write
    | ClearThid                             // sl->thid = 0
    | Unlock                                // HB_SPINLOCK_RELEASE( &sl->lock )

  /** A thread with its number of acquisitions not yet released. */
  datatype Thread = Thread(pc: Pc, depth: nat)

  /** struct hb_spinlock_r and the threads, by thread id. */
  datatype State = State(lock: nat, count: nat, thid: nat, threads: map<nat, Thread>)

  /** What a thread may do next: start a call, or make the next access of the call it is in. */
  datatype Action = Begin(call: Call) | BeginRelease | Access

  predicate Enabled(s: State, t: nat, a: Action) {
    t in s.threads &&
    var Thread(pc, depth) := s.threads[t];
    match a
    case Begin(_) => pc.Outside? && depth <= UINT_MAX
    case BeginRelease => pc.Outside? && depth > 0
    case Access => !pc.Outside?
  }

  function At(s: State, t: nat, pc: Pc): State
    requires t in s.threads
  {
    s.(threads := s.threads[t := s.threads[t].(pc := pc)])
  }

  function Return(s: State, t: nat, depth: nat): State
    requires t in s.threads
  {
    s.(threads := s.threads[t := Thread(Outside, depth)])
  }

  /** The end of a failed attempt: try gives up, acquire goes round, yielding from time to time. */
  function Missed(s: State, t: nat, call: Call, retry: nat): State
    requires t in s.threads
  {
    if call.Try? then Return(s, t, s.threads[t].depth)
    else At(s, t, ReadLock(call, if retry <= 1 then REPEAT else retry - 1))
  }

  function Do(s: State, t: nat, a: Action): State
    requires Enabled(s, t, a)
  {
    var Thread(pc, depth) := s.threads[t];
    match a
    case Begin(call) => At(s, t, ReadLock(call, REPEAT))
    case BeginRelease => At(s, t, ReleaseRead)
    case Access =>
      match pc
      case ReadLock(call, n) => At(s, t, if s.lock != 0 then ReadThid(call, n) else TestAndSet(call, n))
      case ReadThid(call, n) => if s.thid == t then At(s, t, ReadCount(call)) else Missed(s, t, call, n)
      case ReadCount(call) => At(s, t, WriteCount(call, s.count))
      case WriteCount(_, reg) => Return(s, t, depth + 1).(count := (reg + 1) % (UINT_MAX + 1))
      case TestAndSet(call, n) => if s.lock == 0 then At(s, t, WriteThid(call)).(lock := 1) else Missed(s, t, call, n)
      case WriteThid(call) => At(s, t, WriteOne(call)).(thid := t)
      case WriteOne(_) => Return(s, t, depth + 1).(count := 1)
      case ReleaseRead => At(s, t, ReleaseWrite(s.count))
      case ReleaseWrite(reg) =>
        var n := (reg - 1) % (UINT_MAX + 1);
        if n == 0 then At(s, t, ClearThid).(count := n) else Return(s, t, if depth > 0 then depth - 1 else 0).(count := n)
      case ClearThid => At(s, t, Unlock).(thid := 0)
      case Unlock => Return(s, t, if depth > 0 then depth - 1 else 0).(lock := 0)
  }

  /** HB_SPINLOCK_INITVAL_R; thread ids are not 0. */
  predicate Init(s: State) {
    && s.lock == 0 && s.count == 0 && s.thid == 0
    && 0 !in s.threads && forall t :: t in s.threads ==> s.threads[t] == Thread(Outside, 0)
  }

  // ---------------------------------------------------------------- the atomic reentrant lock

  /** How often each thread holds the lock. */
  type Levels = map<nat, nat>

  datatype Event = Acquired(t: nat) | Released(t: nat) | Refused(t: nat) | Silent

  predicate Others(levels: Levels, t: nat) {
    exists u :: u in levels && u != t && levels[u] > 0
  }

  /** A thread can acquire the lock when no other thread holds it, release it when it holds it, and
      be refused only while another thread holds it. */
  function SpecStep(levels: Levels, e: Event): Option<Levels> {
    match e
    case Acquired(t) => if t in levels && !Others(levels, t) then Some(levels[t := levels[t] + 1]) else None
    case Released(t) => if t in levels && levels[t] > 0 then Some(levels[t := levels[t] - 1]) else None
    case Refused(t) => if Others(levels, t) then Some(levels) else None
    case Silent => Some(levels)
  }

  function SpecRun(levels: Levels, events: seq<Event>): Option<Levels> {
    if events == [] then Some(levels)
    else
      match SpecStep(levels, events[0])
      case None => None
      case Some(next) => SpecRun(next, events[1..])
  }

  // ---------------------------------------------------------------- refinement mapping

  /** A thread holds the lock from its successful test-and-set to its store of 0. */
  function Level(th: Thread): nat {
    if th.pc.WriteThid? || th.pc.WriteOne? then 1 else th.depth
  }

  function LevelsOf(s: State): Levels {
    map t | t in s.threads :: Level(s.threads[t])
  }

  /** The moment at which a call takes effect. */
  function EventOf(s: State, t: nat, a: Action): Event
    requires Enabled(s, t, a)
  {
    var Thread(pc, depth) := s.threads[t];
    if !a.Access? then Silent
    else
      match pc
      case ReadLock(Try, _) => if s.lock != 0 && depth == 0 then Refused(t) else Silent
      case TestAndSet(call, _) => if s.lock == 0 then Acquired(t) else if call.Try? then Refused(t) else Silent
      case WriteCount(_, _) => Acquired(t)
      case ReleaseWrite(reg) => if (reg - 1) % (UINT_MAX + 1) == 0 then Silent else Released(t)
      case Unlock => Released(t)
      case _ => Silent
  }

  // ---------------------------------------------------------------- the invariant

  /** What an unsigned int keeps of a nesting depth. */
  function Counted(depth: nat): nat {
    depth % (UINT_MAX + 1)
  }

  /** What the holder's position says about the shared fields. */
  predicate HolderAt(s: State, h: nat)
    requires h in s.threads
  {
    var Thread(pc, depth) := s.threads[h];
    match pc
    case WriteThid(_) => depth == 0 && s.thid == 0 && s.count == 0
    case WriteOne(_) => depth == 0 && s.thid == h && s.count == 0
    case ClearThid => depth == 1 && s.thid == h && s.count == 0
    case Unlock => depth == 1 && s.thid == 0 && s.count == 0
    case TestAndSet(_, _) => false
    case _ =>
      && s.thid == h && s.count == Counted(depth)
      && 0 < depth <= (if pc.Outside? || pc.ReleaseRead? || pc.ReleaseWrite? then UINT_MAX + 1 else UINT_MAX)
      && (pc.WriteCount? || pc.ReleaseWrite? ==> pc.reg == s.count)
  }

  /** A thread that does not hold the lock is not inside. */
  predicate Waiting(th: Thread) {
    th.depth == 0 && (th.pc.Outside? || th.pc.ReadLock? || th.pc.ReadThid? || th.pc.TestAndSet?)
  }

  /** h is the only holder, or 0 if there is none. */
  predicate Inv(s: State, h: nat) {
    && 0 !in s.threads
    && (h == 0 ==> s.lock == 0 && s.thid == 0 && s.count == 0)
    && (h != 0 ==> h in s.threads && s.lock == 1 && HolderAt(s, h))
    && forall t :: t in s.threads && t != h ==> Waiting(s.threads[t])
  }

  function NextHolder(s: State, h: nat, t: nat, a: Action): nat
    requires Enabled(s, t, a)
  {
    match EventOf(s, t, a)
    case Acquired(u) => u
    case Released(u) => if s.threads[t].pc.Unlock? then 0 else h
    case _ => h
  }

  lemma InvInit(s: State)
    requires Init(s)
    ensures Inv(s, 0)
  {
  }

  /** Every memory access of every thread keeps the invariant. */
  lemma InvStep(s: State, h: nat, t: nat, a: Action)
    requires Inv(s, h) && Enabled(s, t, a)
    ensures Inv(Do(s, t, a), NextHolder(s, h, t, a))
  {
    var s1 := Do(s, t, a);
    forall u | u in s.threads && u != t ensures s1.threads[u] == s.threads[u] {
    }
    if t == h { HolderStep(s, h, a); } else { WaiterStep(s, h, t, a); }
  }

  lemma HolderStep(s: State, h: nat, a: Action)
    requires Inv(s, h) && Enabled(s, h, a)
    ensures var s1, h1 := Do(s, h, a), NextHolder(s, h, h, a);
      && s1.threads.Keys == s.threads.Keys
      && (h1 == 0 ==> s1.lock == 0 && s1.thid == 0 && s1.count == 0 && Waiting(s1.threads[h]))
      && (h1 != 0 ==> h1 == h && s1.lock == 1 && HolderAt(s1, h))
  {
    hide Counted;
    CountedStep(s.threads[h].depth);
  }

  lemma CountedStep(depth: nat)
    ensures Counted(0) == 0 && Counted(1) == 1
    ensures (Counted(depth) + 1) % (UINT_MAX + 1) == Counted(depth + 1)
    ensures 0 < depth <= UINT_MAX + 1 ==>
      (Counted(depth) - 1) % (UINT_MAX + 1) == Counted(depth - 1) && (Counted(depth - 1) == 0 <==> depth == 1)
  {
  }

  /** The racy read of thid never mistakes another thread's lock, or a lock that is just being taken
      or given back, for the reader's own. */
  lemma WaiterStep(s: State, h: nat, t: nat, a: Action)
    requires Inv(s, h) && Enabled(s, t, a) && t != h
    ensures var s1, h1 := Do(s, t, a), NextHolder(s, h, t, a);
      && s1.threads.Keys == s.threads.Keys
      && (h1 == t ==> h == 0 && s1.lock == 1 && HolderAt(s1, t))
      && (h1 != t ==> h1 == h && (s1.lock, s1.thid, s1.count) == (s.lock, s.thid, s.count) && Waiting(s1.threads[t]))
  {
  }

  // ---------------------------------------------------------------- results

  /** What a step does to the level of its thread, and who holds the lock then. */
  lemma LevelStep(s: State, h: nat, t: nat, a: Action)
    requires Inv(s, h) && Enabled(s, t, a)
    ensures var s1, e := Do(s, t, a), EventOf(s, t, a);
      && s1.threads.Keys == s.threads.Keys && (forall u :: u in s.threads && u != t ==> s1.threads[u] == s.threads[u])
      && (e == Acquired(t) || e == Released(t) || e == Refused(t) || e == Silent)
      && Level(s1.threads[t]) == Level(s.threads[t]) + (if e.Acquired? then 1 else if e.Released? then -1 else 0)
      && (e.Acquired? ==> h == 0 || h == t) && (e.Refused? ==> h != 0 && h != t)
  {
    if t == h { HolderStep(s, h, a); } else { WaiterStep(s, h, t, a); }
  }

  /** One step refines at most one step of the atomic lock. */
  lemma StepRefines(s: State, h: nat, t: nat, a: Action)
    requires Inv(s, h) && Enabled(s, t, a)
    ensures SpecStep(LevelsOf(s), EventOf(s, t, a)) == Some(LevelsOf(Do(s, t, a)))
  {
    hide Do, EventOf, Inv, Others;
    LevelStep(s, h, t, a);
    OthersHold(s, h, t);
    var s1 := Do(s, t, a);
    var l, l1 := LevelsOf(s), LevelsOf(s1);
    assert l1 == l[t := Level(s1.threads[t])];
    if Level(s1.threads[t]) == Level(s.threads[t]) { assert l1 == l; }
  }

  /** Another thread holds the lock exactly when the holder is another thread. */
  lemma OthersHold(s: State, h: nat, t: nat)
    requires Inv(s, h)
    ensures Others(LevelsOf(s), t) <==> h != 0 && h != t
    ensures h != 0 ==> Level(s.threads[h]) > 0
  {
    var l := LevelsOf(s);
    if h != 0 && h != t { assert h in l && l[h] > 0; }
    forall u | u in l && u != h ensures l[u] == 0 {
      assert Waiting(s.threads[u]);
    }
  }

  /** A schedule of steps; None if some step is not possible. */
  function Run(s: State, schedule: seq<(nat, Action)>): Option<State>
    decreases |schedule|
  {
    if schedule == [] then Some(s)
    else
      var (t, a) := schedule[0];
      if Enabled(s, t, a) then Run(Do(s, t, a), schedule[1..]) else None
  }

  function Events(s: State, schedule: seq<(nat, Action)>): seq<Event>
    decreases |schedule|
  {
    if schedule == [] then []
    else
      var (t, a) := schedule[0];
      if Enabled(s, t, a) then [EventOf(s, t, a)] + Events(Do(s, t, a), schedule[1..]) else []
  }

  /** Every interleaving of single memory accesses is a run of the atomic reentrant lock, and keeps
      the invariant. */
  lemma {:induction false} RunRefines(s: State, h: nat, schedule: seq<(nat, Action)>) returns (h1: nat)
    requires Inv(s, h) && Run(s, schedule).Some?
    ensures Inv(Run(s, schedule).value, h1)
    ensures SpecRun(LevelsOf(s), Events(s, schedule)) == Some(LevelsOf(Run(s, schedule).value))
    decreases |schedule|
  {
    if schedule == [] {
      h1 := h;
    } else {
      var (t, a) := schedule[0];
      InvStep(s, h, t, a);
      StepRefines(s, h, t, a);
      h1 := RunRefines(Do(s, t, a), NextHolder(s, h, t, a), schedule[1..]);
      var events := Events(s, schedule);
      assert events[1..] == Events(Do(s, t, a), schedule[1..]);
    }
  }

  /** From initialization on: at most one thread is inside. */
  lemma MutualExclusion(s: State, schedule: seq<(nat, Action)>, t: nat, u: nat)
    requires Init(s) && Run(s, schedule).Some?
    requires var s1 := Run(s, schedule).value; t in s1.threads && u in s1.threads && Level(s1.threads[t]) > 0 && Level(s1.threads[u]) > 0
    ensures t == u
  {
    InvInit(s);
    var h := RunRefines(s, 0, schedule);
    var s1 := Run(s, schedule).value;
    assert t != h ==> Waiting(s1.threads[t]);
    assert u != h ==> Waiting(s1.threads[u]);
  }

  /** In any run: a thread that reads its own id in thid holds the lock, and one that holds it reads
      its own id. */
  lemma ThidIsOwner(s: State, schedule: seq<(nat, Action)>, t: nat)
    requires Init(s) && Run(s, schedule).Some?
    requires var s1 := Run(s, schedule).value; t in s1.threads && s1.threads[t].pc.ReadThid?
    ensures var s1 := Run(s, schedule).value; s1.thid == t <==> s1.threads[t].depth > 0
  {
    InvInit(s);
    var h := RunRefines(s, 0, schedule);
    if h != t { assert Waiting(Run(s, schedule).value.threads[t]); }
  }

  /** In any run: between its calls, count is the nesting depth of a thread that holds the lock. */
  lemma CountIsDepth(s: State, schedule: seq<(nat, Action)>, t: nat)
    requires Init(s) && Run(s, schedule).Some?
    requires var s1 := Run(s, schedule).value; t in s1.threads && s1.threads[t].pc.Outside? && s1.threads[t].depth > 0
    ensures var s1 := Run(s, schedule).value;
      && s1.lock == 1 && s1.thid == t && s1.count == Counted(s1.threads[t].depth)
      && (s1.threads[t].depth <= UINT_MAX ==> s1.count == s1.threads[t].depth)
  {
    InvInit(s);
    var h := RunRefines(s, 0, schedule);
    assert h == t;
  }

  /** The accesses that an owner has still to make in a call that acquires. */
  function Remaining(pc: Pc): nat {
    match pc
    case ReadLock(_, _) => 4
    case ReadThid(_, _) => 3
    case ReadCount(_) => 2
    case WriteCount(_, _) => 1
    case _ => 0
  }

  /** The accesses of a thread in a schedule. */
  function Accesses(schedule: seq<(nat, Action)>, t: nat): nat {
    if schedule == [] then 0 else (if schedule[0].0 == t then 1 else 0) + Accesses(schedule[1..], t)
  }

  /** One access of an owner that acquires again is never a retry. */
  lemma OwnerStep(s: State, t: nat, a: Action)
    requires Inv(s, t) && Enabled(s, t, a) && s.threads[t].depth > 0 && Remaining(s.threads[t].pc) > 0
    ensures var th, th1 := s.threads[t], Do(s, t, a).threads[t];
      && NextHolder(s, t, t, a) == t
      && (if Remaining(th.pc) > 1 then Remaining(th1.pc) == Remaining(th.pc) - 1 && th1.depth == th.depth
          else th1 == Thread(Outside, th.depth + 1))
  {
  }

  /** An owner that acquires again never spins: whatever other threads do in between, its call returns
      with its own fourth access, one level deeper. */
  lemma {:induction false} OwnerNeverSpins(s: State, t: nat, schedule: seq<(nat, Action)>)
    requires Inv(s, t) && t in s.threads && s.threads[t].depth > 0 && Run(s, schedule).Some?
    requires 0 < Remaining(s.threads[t].pc) == Accesses(schedule, t)
    requires schedule[|schedule| - 1].0 == t
    ensures t in Run(s, schedule).value.threads
    ensures Run(s, schedule).value.threads[t] == Thread(Outside, s.threads[t].depth + 1)
    decreases |schedule|
  {
    hide Do, Inv;
    var (u, a) := schedule[0];
    var s1, rest := Do(s, u, a), schedule[1..];
    OwnerKeeps(s, t, u, a);
    if u != t {
      assert rest != [];
      OwnerNeverSpins(s1, t, rest);
    } else {
      OwnerStep(s, t, a);
      if Remaining(s.threads[t].pc) > 1 {
        assert rest != [];
        OwnerNeverSpins(s1, t, rest);
      } else {
        NoMore(schedule, t);
      }
    }
  }

  /** The steps of other threads leave the owner where it is. */
  lemma OwnerKeeps(s: State, t: nat, u: nat, a: Action)
    requires Inv(s, t) && t in s.threads && s.threads[t].depth > 0 && Remaining(s.threads[t].pc) > 0 && Enabled(s, u, a)
    ensures Inv(Do(s, u, a), t) && t in Do(s, u, a).threads
    ensures u != t ==> Do(s, u, a).threads[t] == s.threads[t]
  {
    InvStep(s, t, u, a);
    LevelStep(s, t, u, a);
    if u == t { OwnerStep(s, t, a); }
  }

  /** A schedule that begins and ends with the only access of a thread has no other step. */
  lemma NoMore(schedule: seq<(nat, Action)>, t: nat)
    requires schedule != [] && schedule[0].0 == t && schedule[|schedule| - 1].0 == t && Accesses(schedule, t) == 1
    ensures |schedule| == 1
  {
    if |schedule| > 1 {
      var rest := schedule[1..];
      LastCounts(rest, t);
    }
  }

  lemma {:induction false} LastCounts(schedule: seq<(nat, Action)>, t: nat)
    requires schedule != [] && schedule[|schedule| - 1].0 == t
    ensures Accesses(schedule, t) > 0
  {
    if |schedule| > 1 {
      assert schedule[1..][|schedule| - 2] == schedule[|schedule| - 1];
      LastCounts(schedule[1..], t);
    }
  }

  /** Why a client may not nest deeper than 2^32: a release gives the lock away exactly when the count that
      an unsigned int keeps is 1.  Up to that depth this is the last release; beyond it, it is not. */
  lemma NestingLimit(s: State, t: nat)
    requires t in s.threads && s.threads[t].pc.ReleaseWrite? && s.threads[t].depth > 0
    requires s.threads[t].pc.reg == Counted(s.threads[t].depth)
    ensures Do(s, t, Access).threads[t].pc.ClearThid? <==> Counted(s.threads[t].depth) == 1
    ensures s.threads[t].depth <= UINT_MAX + 1 ==> (Counted(s.threads[t].depth) == 1 <==> s.threads[t].depth == 1)
  {
  }

  /** The depths beyond the limit at which the lock is given away with levels still held. */
  lemma {:induction false} CountedTurns(k: nat)
    ensures Counted(k * (UINT_MAX + 1) + 1) == 1
  {
    if k > 0 { CountedTurns(k - 1); }
  }
}
