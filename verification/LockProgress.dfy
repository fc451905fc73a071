/** What the spinlock lets a thread do: a free lock is taken, a held one is the only reason to give up,
    and the last release leaves it free. */
module LockProgress {
  import opened Spinlock
  import Values

  /** n accesses of one thread without interruption. */
  function Alone(t: nat, n: nat): seq<(nat, Action)> {
    if n == 0 then [] else [(t, Access)] + Alone(t, n - 1)
  }

  lemma RunFirst(s: State, t: nat, a: Action, rest: seq<(nat, Action)>)
    requires Enabled(s, t, a)
    ensures Run(s, [(t, a)] + rest) == Run(Do(s, t, a), rest)
  {
    assert ([(t, a)] + rest)[1..] == rest;
  }

  /** A free lock is taken by an uninterrupted call of either kind, with four accesses. */
  lemma FreeLockTaken(s: State, t: nat, call: Call)
    requires Inv(s, 0) && t in s.threads && s.threads[t].pc == Outside
    ensures Run(s, [(t, Begin(call))] + Alone(t, 4)) == Values.Some(s.(lock := 1, thid := t, count := 1, threads := s.threads[t := Thread(Outside, 1)]))
  {
    assert s.threads[t] == Thread(Outside, 0) by { assert Waiting(s.threads[t]); }
    var s1 := Do(s, t, Begin(call));
    var s2 := Do(s1, t, Access);
    var s3 := Do(s2, t, Access);
    var s4 := Do(s3, t, Access);
    var s5 := Do(s4, t, Access);
    assert s5.threads == s.threads[t := Thread(Outside, 1)];
    RunFirst(s, t, Begin(call), Alone(t, 4));
    RunFirst(s1, t, Access, Alone(t, 3));
    RunFirst(s2, t, Access, Alone(t, 2));
    RunFirst(s3, t, Access, Alone(t, 1));
    RunFirst(s4, t, Access, Alone(t, 0));
  }

  // ---------------------------------------------------------------- a call of the holder

  /** The thread makes no other steps than the accesses of the call it is in. */
  predicate OnlyAccesses(schedule: seq<(nat, Action)>, t: nat) {
    forall i :: 0 <= i < |schedule| && schedule[i].0 == t ==> schedule[i].1.Access?
  }

  /** The accesses that a holder still has to make in its call. */
  function Left(th: Thread): nat {
    match th.pc
    case ReadLock(_, _) => 4
    case ReadThid(_, _) => 3
    case ReadCount(_) => 2
    case WriteCount(_, _) => 1
    case WriteThid(_) => 2
    case WriteOne(_) => 1
    case ReleaseRead => if th.depth == 1 then 4 else 2
    case ReleaseWrite(_) => if th.depth == 1 then 3 else 1
    case ClearThid => 2
    case Unlock => 1
    case _ => 0
  }

  /** The depth at which the call of a holder returns. */
  function Goal(th: Thread): int {
    if th.pc.ReleaseRead? || th.pc.ReleaseWrite? || th.pc.ClearThid? || th.pc.Unlock? then th.depth - 1 else th.depth + 1
  }

  /** What the shared fields are right after a return of t at this depth. */
  predicate LeftAt(s: State, t: nat, depth: int) {
    if depth == 0 then s.lock == 0 && s.thid == 0 && s.count == 0
    else s.lock == 1 && s.thid == t && s.count == depth % 4294967296
  }

  lemma HolderAccess(s: State, t: nat)
    requires Inv(s, t) && t in s.threads && !s.threads[t].pc.Outside?
    ensures var th, s1 := s.threads[t], Do(s, t, Access);
      && t in s1.threads && Left(th) > 0
      && (if Left(th) > 1 then
            Inv(s1, t) && !s1.threads[t].pc.Outside? && Left(s1.threads[t]) == Left(th) - 1 && Goal(s1.threads[t]) == Goal(th)
          else Goal(th) >= 0 && s1.threads[t] == Thread(Outside, Goal(th)) && LeftAt(s1, t, Goal(th)))
  {
    hide Inv, Do;
    InvStep(s, t, t, Access);
    AccessMoves(s, t);
  }

  lemma AccessMoves(s: State, t: nat)
    requires Inv(s, t) && t in s.threads && !s.threads[t].pc.Outside?
    ensures var th, s1 := s.threads[t], Do(s, t, Access);
      && t in s1.threads && Left(th) > 0
      && (if Left(th) > 1 then
            NextHolder(s, t, t, Access) == t && !s1.threads[t].pc.Outside? && Left(s1.threads[t]) == Left(th) - 1 && Goal(s1.threads[t]) == Goal(th)
          else Goal(th) >= 0 && s1.threads[t] == Thread(Outside, Goal(th)) && LeftAt(s1, t, Goal(th)))
  {
    hide Counted;
    var depth := s.threads[t].depth;
    CountedStep(depth);
    assert Counted(depth) == depth % 4294967296 && Counted(depth + 1) == (depth + 1) % 4294967296 by { CountedLiteral(depth); }
    assert depth > 0 ==> Counted(depth - 1) == (depth - 1) % 4294967296 by { CountedLiteral(depth); }
  }

  lemma CountedLiteral(depth: nat)
    ensures Counted(depth) == depth % 4294967296 && Counted(depth + 1) == (depth + 1) % 4294967296
    ensures depth > 0 ==> Counted(depth - 1) == (depth - 1) % 4294967296
  {
  }

  /** Steps of others leave a holder where it is. */
  lemma OthersKeep(s: State, h: nat, t: nat, u: nat, a: Action)
    requires Inv(s, h) && t in s.threads && Enabled(s, u, a) && u != t
    ensures var s1 := Do(s, u, a);
      && Inv(s1, NextHolder(s, h, u, a)) && t in s1.threads && s1.threads[t] == s.threads[t]
      && (h == t ==> NextHolder(s, h, u, a) == t)
  {
    InvStep(s, h, u, a);
    LevelStep(s, h, u, a);
  }

  /** A thread outside that starts no call stays as it is. */
  lemma {:induction false} IdleStays(s: State, h: nat, t: nat, schedule: seq<(nat, Action)>)
    requires Inv(s, h) && t in s.threads && s.threads[t].pc.Outside? && OnlyAccesses(schedule, t) && Run(s, schedule).Some?
    ensures Accesses(schedule, t) == 0 && t in Run(s, schedule).value.threads && Run(s, schedule).value.threads[t] == s.threads[t]
    decreases |schedule|
  {
    hide Inv, Do;
    if schedule != [] {
      var (u, a) := schedule[0];
      assert u != t;
      OthersKeep(s, h, t, u, a);
      IdleStays(Do(s, u, a), NextHolder(s, h, u, a), t, schedule[1..]);
    }
  }

  /** How far a holder is in its call after its own n accesses. */
  predicate Ahead(s: State, th: Thread, t: nat, n: nat) {
    t in s.threads && n <= Left(th) &&
    if n < Left(th) then Inv(s, t) && !s.threads[t].pc.Outside? && Left(s.threads[t]) == Left(th) - n && Goal(s.threads[t]) == Goal(th)
    else Goal(th) >= 0 && s.threads[t] == Thread(Outside, Goal(th))
  }

  /** A holder never waits: under any interleaving its call, of whichever kind, ends with its own last
      access, and the shared fields are then those of its new depth. */
  lemma {:induction false} HolderRuns(s: State, t: nat, schedule: seq<(nat, Action)>)
    requires Inv(s, t) && t in s.threads && !s.threads[t].pc.Outside? && OnlyAccesses(schedule, t) && Run(s, schedule).Some?
    ensures Ahead(Run(s, schedule).value, s.threads[t], t, Accesses(schedule, t))
    ensures schedule != [] && schedule[|schedule| - 1].0 == t && Accesses(schedule, t) == Left(s.threads[t]) ==>
      LeftAt(Run(s, schedule).value, t, Goal(s.threads[t]))
    decreases |schedule|
  {
    hide Inv, Do, LeftAt;
    if schedule == [] {
      HolderAccess(s, t);
    } else {
      var (u, a) := schedule[0];
      var s1, rest := Do(s, u, a), schedule[1..];
      assert OnlyAccesses(rest, t);
      if u != t {
        OthersKeep(s, t, t, u, a);
        HolderRuns(s1, t, rest);
        assert rest == [] ==> schedule[|schedule| - 1].0 != t;
      } else {
        HolderAccess(s, t);
        if Left(s.threads[t]) > 1 {
          HolderRuns(s1, t, rest);
          if rest == [] { assert Accesses(schedule, t) == 1; }
        } else {
          InvStep(s, t, t, a);
          IdleStays(s1, NextHolder(s, t, t, a), t, rest);
          if rest != [] && rest[|rest| - 1].0 == t { LastCounts(rest, t); }
        }
      }
    }
  }

  /** A test-and-set that finds the lock free has taken it: whatever other threads do in between, the call
      returns with its third access, one level deeper. */
  lemma TakenLockReturns(s: State, h: nat, t: nat, rest: seq<(nat, Action)>)
    requires Inv(s, h) && t in s.threads && s.threads[t].pc.TestAndSet? && s.lock == 0
    requires OnlyAccesses(rest, t) && rest != [] && Accesses(rest, t) == 2 && rest[|rest| - 1].0 == t && Run(s, [(t, Access)] + rest).Some?
    ensures var s1 := Run(s, [(t, Access)] + rest).value;
      t in s1.threads && s1.threads[t] == Thread(Outside, s.threads[t].depth + 1) && s1.lock == 1 && s1.thid == t && s1.count == 1
  {
    hide *;
    TakesLock(s, h, t);
    RunFirst(s, t, Access, rest);
    TakerReturns(Do(s, t, Access), t, rest);
  }

  lemma TakerReturns(s: State, t: nat, rest: seq<(nat, Action)>)
    requires Inv(s, t) && t in s.threads && s.threads[t].pc.WriteThid? && s.threads[t].depth == 0
    requires OnlyAccesses(rest, t) && rest != [] && Accesses(rest, t) == 2 && rest[|rest| - 1].0 == t && Run(s, rest).Some?
    ensures var s1 := Run(s, rest).value; t in s1.threads && s1.threads[t] == Thread(Outside, 1) && s1.lock == 1 && s1.thid == t && s1.count == 1
  {
    hide Inv, Run, Accesses, OnlyAccesses;
    HolderRuns(s, t, rest);
  }

  lemma TakesLock(s: State, h: nat, t: nat)
    requires Inv(s, h) && t in s.threads && s.threads[t].pc.TestAndSet? && s.lock == 0
    ensures Enabled(s, t, Access) && Inv(Do(s, t, Access), t) && s.threads[t].depth == 0
    ensures t in Do(s, t, Access).threads
    ensures var th := Do(s, t, Access).threads[t]; th.pc.WriteThid? && th.depth == 0
  {
    InvStep(s, h, t, Access);
  }

  /** The last release leaves the lock free, an earlier one leaves it with its owner, under any interleaving. */
  lemma ReleaseReturns(s: State, t: nat, rest: seq<(nat, Action)>)
    requires Inv(s, t) && t in s.threads && s.threads[t].pc.Outside? && s.threads[t].depth > 0
    requires OnlyAccesses(rest, t) && Accesses(rest, t) == if s.threads[t].depth == 1 then 4 else 2
    requires rest[|rest| - 1].0 == t && Run(s, [(t, BeginRelease)] + rest).Some?
    ensures var s1, depth := Run(s, [(t, BeginRelease)] + rest).value, s.threads[t].depth - 1;
      && t in s1.threads && s1.threads[t] == Thread(Outside, depth)
      && (depth == 0 ==> s1.lock == 0 && s1.thid == 0 && s1.count == 0)
      && (depth > 0 ==> s1.lock == 1 && s1.thid == t && s1.count == depth % 4294967296)
  {
    hide Inv;
    InvStep(s, t, t, BeginRelease);
    RunFirst(s, t, BeginRelease, rest);
    HolderRuns(Do(s, t, BeginRelease), t, rest);
  }

  // ---------------------------------------------------------------- calls of other threads

  /** A thread that has not got the lock yet. */
  predicate Asking(th: Thread, call: Call) {
    match th.pc
    case ReadLock(x, _) => x == call
    case TestAndSet(x, _) => x == call
    case ReadThid(x, _) => x == call && call.Acquire?
    case _ => false
  }

  /** Another thread holds the lock when t makes its access at this position of the schedule. */
  predicate HeldAt(s: State, schedule: seq<(nat, Action)>, t: nat, k: nat) {
    k < |schedule| && schedule[k].0 == t && Run(s, schedule[..k]).Some?
    && Run(s, schedule[..k]).value.lock != 0 && Others(LevelsOf(Run(s, schedule[..k]).value), t)
  }

  lemma HeldLater(s: State, schedule: seq<(nat, Action)>, t: nat, k: nat)
    requires schedule != [] && Enabled(s, schedule[0].0, schedule[0].1)
    requires HeldAt(Do(s, schedule[0].0, schedule[0].1), schedule[1..], t, k)
    ensures HeldAt(s, schedule, t, k + 1)
  {
    assert schedule[..k + 1][1..] == schedule[1..][..k];
  }

  /** What an access of a thread that asks for the lock leads to. */
  lemma AskingAccess(s: State, h: nat, t: nat, call: Call)
    requires Inv(s, h) && t in s.threads && Asking(s.threads[t], call)
    ensures var th, s1 := s.threads[t], Do(s, t, Access);
      && Enabled(s, t, Access) && t in s1.threads && Inv(s1, NextHolder(s, h, t, Access))
      && (s.lock != 0 || NextHolder(s, h, t, Access) == t || Asking(s1.threads[t], call))
      && (NextHolder(s, h, t, Access) == t && h != t ==> !s1.threads[t].pc.Outside? && Goal(s1.threads[t]) == th.depth + 1)
      && (h != t && call.Acquire? ==> NextHolder(s, h, t, Access) == t || (Asking(s1.threads[t], call) && s1.threads[t].depth == th.depth))
      && (h != t && s.lock != 0 ==> h != 0)
      && (s.lock == 0 && NextHolder(s, h, t, Access) != t ==> s1.threads[t].depth == th.depth)
  {
    InvStep(s, h, t, Access);
  }

  /** A holder that asks once more returns deeper. */
  lemma HolderDeeper(s: State, t: nat, schedule: seq<(nat, Action)>)
    requires Inv(s, t) && t in s.threads && !s.threads[t].pc.Outside? && OnlyAccesses(schedule, t) && Run(s, schedule).Some?
    requires t in Run(s, schedule).value.threads && Run(s, schedule).value.threads[t].pc.Outside?
    ensures Run(s, schedule).value.threads[t].depth == Goal(s.threads[t])
  {
    hide Inv;
    HolderRuns(s, t, schedule);
  }

  /** hb_spinlock_try_r gives up only if another thread holds the lock at one of its own accesses. */
  lemma {:induction false} TryRefused(s: State, h: nat, t: nat, schedule: seq<(nat, Action)>) returns (k: nat)
    requires Inv(s, h) && t in s.threads && Asking(s.threads[t], Try) && OnlyAccesses(schedule, t) && Run(s, schedule).Some?
    requires t in Run(s, schedule).value.threads && Run(s, schedule).value.threads[t] == Thread(Outside, s.threads[t].depth)
    ensures HeldAt(s, schedule, t, k)
    decreases |schedule|
  {
    hide Inv, Do, NextHolder, Others, LevelsOf;
    var (u, a) := schedule[0];
    var s1, rest := Do(s, u, a), schedule[1..];
    assert OnlyAccesses(rest, t);
    if u != t {
      OthersKeep(s, h, t, u, a);
      k := TryRefused(s1, NextHolder(s, h, u, a), t, rest);
      HeldLater(s, schedule, t, k);
      k := k + 1;
    } else if h == t {
      HolderDeeper(s, t, schedule);
    } else {
      AskingAccess(s, h, t, Try);
      if s.lock != 0 {
        OthersHold(s, h, t);
        assert schedule[..0] == [];
        k := 0;
      } else if NextHolder(s, h, t, a) == t {
        HolderDeeper(s1, t, rest);
      } else {
        k := TryRefused(s1, NextHolder(s, h, t, a), t, rest);
        HeldLater(s, schedule, t, k);
        k := k + 1;
      }
    }
  }

  /** hb_spinlock_acquire_r never returns without the lock. */
  lemma {:induction false} AcquireReturnsHolding(s: State, h: nat, t: nat, schedule: seq<(nat, Action)>)
    requires Inv(s, h) && t in s.threads && Asking(s.threads[t], Acquire) && OnlyAccesses(schedule, t) && Run(s, schedule).Some?
    requires t in Run(s, schedule).value.threads && Run(s, schedule).value.threads[t].pc.Outside?
    ensures Run(s, schedule).value.threads[t].depth == s.threads[t].depth + 1
    decreases |schedule|
  {
    hide Inv, Do, NextHolder;
    if h == t {
      HolderDeeper(s, t, schedule);
    } else {
      var (u, a) := schedule[0];
      var s1, rest := Do(s, u, a), schedule[1..];
      assert OnlyAccesses(rest, t);
      if u != t {
        OthersKeep(s, h, t, u, a);
        AcquireReturnsHolding(s1, NextHolder(s, h, u, a), t, rest);
      } else {
        AskingAccess(s, h, t, Acquire);
        if NextHolder(s, h, t, a) == t {
          HolderDeeper(s1, t, rest);
        } else {
          AcquireReturnsHolding(s1, NextHolder(s, h, t, a), t, rest);
        }
      }
    }
  }
}
