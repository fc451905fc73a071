/** The machine that runs encoded pcode with a program counter, and its agreement with the
    machine that runs the instruction list. */
module ByteMachine {
  import opened Values
  import opened Expressions
  import opened Pcode
  import opened Encoding
  import opened Runs

  /** Runs from byte position pc.  The generated code of an expression only jumps forward. */
  function ByteRun(w: World, c: Config, code: seq<byte>, pc: nat, s: Stack, st: State): Final
    requires pc <= |code|
    decreases |code| - pc
  {
    if pc == |code| then Done(s, st)
    else
      match Decode(c, code[pc..])
      case None => Broken
      case Some(i) =>
        match Exec(w, i, s, st)
        case Next(s1, st1) => if pc + Size(i) <= |code| then ByteRun(w, c, code, pc + Size(i), s1, st1) else Broken
        case Branch(d, s1, st1) => if 0 < d && pc + d <= |code| then ByteRun(w, c, code, pc + d, s1, st1) else Broken
        case Fail(st1) => Failed(st1)
        case Stuck => Broken
  }

  function Distance(i: Instr): Option<int> {
    match i
    case Jump(d) => Some(d)
    case JumpFalse(d) => Some(d)
    case JumpTrue(d) => Some(d)
    case _ => None
  }

  /** Every jump lands on the start of a later instruction or on the end of the code. */
  predicate JumpsLand(code: Code) {
    match code
    case End => true
    case Then(i, t) => (Distance(i).Some? ==> Skip(t, Distance(i).value - Size(i)).Some?) && JumpsLand(t)
  }

  predicate AllEncodable(c: Config, code: Code) {
    match code
    case End => true
    case Then(i, t) => Encodable(c, i) && AllEncodable(c, t)
  }

  /** The code after n bytes is what the bytes after n bytes encode. */
  lemma {:induction false} SkipBytes(c: Config, code: Code, n: int)
    requires Skip(code, n).Some?
    ensures 0 <= n <= |Bytes(c, code)| && Bytes(c, code)[n..] == Bytes(c, Skip(code, n).value)
    ensures AllEncodable(c, code) ==> AllEncodable(c, Skip(code, n).value)
    ensures JumpsLand(code) ==> JumpsLand(Skip(code, n).value)
    decreases Length(code)
  {
    if n != 0 {
      var Then(i, t) := code;
      EncodeSize(c, i);
      SkipBytes(c, t, n - Size(i));
      assert Bytes(c, code)[n..] == Bytes(c, t)[n - Size(i)..];
    }
  }

  lemma BranchOnly(w: World, i: Instr, s: Stack, st: State)
    ensures Exec(w, i, s, st).Branch? ==> Distance(i) == Some(Exec(w, i, s, st).offset)
  {
    hide Exec;
  }

  /** One step at an instruction that the bytes encode. */
  lemma ByteStep(w: World, c: Config, all: seq<byte>, pc: nat, i: Instr, rest: seq<byte>, s: Stack, st: State)
    requires pc <= |all| && all[pc..] == Encode(c, i) + rest && Encodable(c, i)
    ensures pc + Size(i) <= |all| && all[pc + Size(i)..] == rest
    ensures match Exec(w, i, s, st)
      case Next(s1, st1) => ByteRun(w, c, all, pc, s, st) == ByteRun(w, c, all, pc + Size(i), s1, st1)
      case Branch(d, s1, st1) => 0 < d && pc + d <= |all| ==> ByteRun(w, c, all, pc, s, st) == ByteRun(w, c, all, pc + d, s1, st1)
      case Fail(st1) => ByteRun(w, c, all, pc, s, st) == Failed(st1)
      case Stuck => ByteRun(w, c, all, pc, s, st) == Broken
  {
    hide Exec, Encode, Decode, Encodable, Size;
    EncodeSize(c, i);
    DecodeEncode(c, i, rest);
    assert |all[pc..]| == |all| - pc;
    assert all[pc + Size(i)..] == all[pc..][Size(i)..];
  }

  /** Where a jump lands. */
  lemma BranchLands(c: Config, all: seq<byte>, pc: nat, i: Instr, t: Code, d: int)
    requires pc <= |all| && AllEncodable(c, Then(i, t)) && JumpsLand(Then(i, t)) && Distance(i) == Some(d)
    requires pc + Size(i) <= |all| && all[pc + Size(i)..] == Bytes(c, t)
    ensures Skip(t, d - Size(i)).Some? && 0 < d && pc + d <= |all|
    ensures var target := Skip(t, d - Size(i)).value;
      all[pc + d..] == Bytes(c, target) && AllEncodable(c, target) && JumpsLand(target) && Length(target) <= Length(t)
  {
    hide Bytes, Encodable;
    var n := Size(i);
    SkipBytes(c, t, d - n);
    SkipShorter(t, d - n);
    assert |all[pc + n..]| == |all| - pc - n;
    assert all[pc + d..] == all[pc + n..][d - n..];
  }

  lemma {:induction false} SkipShorter(code: Code, n: int)
    requires Skip(code, n).Some?
    ensures Length(Skip(code, n).value) <= Length(code)
    decreases Length(code)
  {
    if n != 0 {
      var Then(i, t) := code;
      SkipShorter(t, n - Size(i));
    }
  }

  /** The byte machine at the encoding of code does what the list machine does with code. */
  lemma {:induction false} ByteRunRefines(w: World, c: Config, all: seq<byte>, pc: nat, code: Code, s: Stack, st: State)
    requires pc <= |all| && all[pc..] == Bytes(c, code)
    requires AllEncodable(c, code) && JumpsLand(code)
    ensures ByteRun(w, c, all, pc, s, st) == Run(w, code, s, st)
    decreases Length(code)
  {
    hide Exec, Encode, Decode, Encodable, ByteRun, Run, Bytes, AllEncodable, JumpsLand, Skip, Size, Distance;
    match code
    case End => AtEnd(w, c, all, pc, s, st);
    case Then(i, t) =>
      ThenParts(c, i, t);
      ByteStep(w, c, all, pc, i, Bytes(c, t), s, st);
      RunThen(w, i, t, s, st);
      BranchOnly(w, i, s, st);
      match Exec(w, i, s, st)
      case Next(s1, st1) => ByteRunRefines(w, c, all, pc + Size(i), t, s1, st1);
      case Branch(d, s1, st1) =>
        BranchLands(c, all, pc, i, t, d);
        ByteRunRefines(w, c, all, pc + d, Skip(t, d - Size(i)).value, s1, st1);
      case Fail(_) =>
      case Stuck =>
  }

  lemma AtEnd(w: World, c: Config, all: seq<byte>, pc: nat, s: Stack, st: State)
    requires pc <= |all| && all[pc..] == Bytes(c, End)
    ensures ByteRun(w, c, all, pc, s, st) == Run(w, End, s, st)
  {
    assert |all[pc..]| == |all| - pc;
  }

  lemma ThenParts(c: Config, i: Instr, t: Code)
    ensures Bytes(c, Then(i, t)) == Encode(c, i) + Bytes(c, t) && Length(t) < Length(Then(i, t))
    ensures AllEncodable(c, Then(i, t)) ==> Encodable(c, i) && AllEncodable(c, t)
    ensures JumpsLand(Then(i, t)) ==> JumpsLand(t)
  {
    hide Encode, Encodable, Size, Distance, Skip;
  }
}
