# Harbour's expression compiler, verified

A Dafny model of the part of Harbour that turns expressions into pcode, with the pieces of the
system around it whose correctness rests on a protocol or an encoding.

**Expressions to pcode.** `Values`, `Expressions` and `Meaning` define what expressions do: an
evaluator over locals, statics, memvars, fields, work areas and arrays, with a log of the calls
and messages in the order in which they happen. It knows the language modes (Harbour or Clipper,
message references, shortcut logic, `-v`) and none of the code generator's fast paths. `Pcode` is
the stack machine, one instruction as `hb_vmExecute` runs it, with jumps counted in bytes.
`Compiler` says which instructions each handler generates, in each of the modes
`HB_EA_PUSH_PCODE`, `HB_EA_POP_PCODE` and `HB_EA_PUSH_POP`. `Correctness` proves that running them
is evaluating the expression. `Concrete` says what the operations that both share do to the store,
position by position and slot by slot. The code is a function of the expression and of the code
that follows, so that every statement holds in any context; `Shape` shows that the context does
not matter to the part generated.

On that rest five groups of results. `Discard` compares the value-discarding mode with pushing and
popping, and says exactly where they differ. `FastForms` compares compound assignment and steps by
reference with load, operate, store. `Reduction` is the rewriting of `x := x op r` to `x op= r`
and the removal of parentheses, with the condition under which the meaning stays; `Untouched` says
which expressions leave a variable alone, by their text and by what functions do. `Settled` says
what that leaves: a tree in which nothing more can be reduced. `References` says of which operands
a reference can be made, and what one to a conditional is. `StackDepth` and `Discipline` show that
the code of any nesting is well formed: jumps land on instructions, every position has one stack
depth, and in every run the stack has that height there.

**The same on nodes and bytes.** `Codec`, `Encoding` and `ByteMachine` go from instructions to
bytes and show that a machine with a byte position does the same; `Opcodes` writes the bytes out
number by number. `Ranges` is the condition on an expression under which all operands of its code
fit. `Nodes` says how a tree lies in memory, linked through pointers. `ReducePass` and `Emitter`
are the handlers in the form the compiler has them: loops over lists, a growing buffer, jumps that
are patched when their target is known, and node types and flags that are changed for a while and
put back. `EndToEnd` joins everything: from the nodes that the parser has built to bytes that
compute what the expression means.

**Lists.** `ListSurgery` is the loop that reduces a linked list whose nodes may be replaced, and
the rewriting of a reference to a conditional. `MacroArgs` is the encoding of argument lists whose
length is known at run time only, and the join that undoes it in place on the stack. `GetRewrite`
is the rewriting of `_GET_` to `__GETA`. `StaticInit` is the check of static initializers.

**Locks and keys.** `Spinlock` is the recursive spinlock, one memory access at a time, as a
refinement of an atomic reentrant lock, and `LockProgress` what it lets a thread do. `DoubleKeys`
is the encoding of binary64 numbers (IEEE 754-2008, section 3.4) whose bytes compare like the
numbers.

`dafny verify dfyconfig.toml` checks the whole project.

## Where the code and its comments differ

* The comment at include/hbexprb.c:4027-4031 says that a discarded operator does not raise a type
  error. That is so, and `DiscardHidesError` is the input. What the discarding mode also changes
  is the number of messages sent by `o:x++` outside plain Harbour mode: `PostMessageExact` has the
  exact condition.
* The reduction at include/hbexprb.c:2904-2938 has no condition on the operand. It does change the
  meaning when the operand writes the variable, for scopes that are updated through a reference:
  `ReductionNeedsCare`. `ReduceMeaning` holds for the others and for operands that leave the
  variable alone.
* After `@iif( c, a, b )` has become `iif( c, @a, @b )` (include/hbexprb.c:820-829) the new
  references are not reduced again. An arm that is itself a conditional therefore stays a
  reference to a conditional, which code generation reports as an error:
  `NestedConditionalRefused` is the input, `ReducedReferenceAccepted` the exact condition.
* The nesting depth of the spinlock is not checked. `NestingLimit` says at which depths a release
  gives the lock away, and `CountedTurns` which of them come too early.

## Model

| member | source | states |
|---|---|---|
| `EndToEnd.CompileExpression` | include/hbexprb.c:144-203 | The whole way from nodes in memory to bytes: the tree is reduced in place and code is generated for what that leaves. An error is reported if and only if a jump or a string of the reduced code is too long, and never for code of at most 8 MB. If none is, the bytes compute the meaning of the tree as written on any stack and in any state, for every expression with 64-bit literals, 16-bit slots, known symbols and at most 65535 items in a list whose rewritten assignments are safe ones. |
| `EndToEnd.SmallCode` | src/compiler/hbmain.c:2436-2452 | Code of at most 8 MB leaves nothing to report: its jumps stay inside it, and its strings are shorter than it. |
| `Ranges.FitsEncodable` | include/hbexprb.c:4931-4955 | The compiler chooses no instruction that cannot hold its operand: for an expression in range, the code that is pushed, stored or discarded has operands that decode to what was meant, if nothing is reported. |
| `Ranges.ReduceInRange` | include/hbexprb.c:2904-2936 | Reduction keeps literals, names and counts in range. |
| `EndToEnd.LargeAddition` | include/hbexprb.c:4931-4955 | The bytes of `x += 100000` on a local that holds 1 leave 100001, not what the 16 bits of LOCALADDINT could hold. |
| `EndToEnd.ReducedAndCompiled` | include/hbexprb.c:2899-2938 | The same for the functions: the bytes of the reduced tree run to what the original tree means, both pushed and for effect, if nothing is reported. Operands of rewritten assignments may call functions and send messages, in every world where these leave the assigned variable alone. |
| `EndToEnd.CompiledPush` | include/hbexprb.c:144-203 | Wherever in a buffer the bytes of HB_EA_PUSH_PCODE lie, for an expression in range running them pushes exactly the evaluated value, or fails with the same state; the store, the order of calls and messages and the rest of the stack agree. |
| `EndToEnd.CompiledPop` | include/hbexprb.c:1467-1541 | HB_EA_POP_PCODE bytes store the waiting value in the target and leave the stack below it. |
| `EndToEnd.CompiledDrop` | include/hbexprb.c:1111-1129 | HB_EA_PUSH_POP bytes have the effects only and leave the stack as it was. |
| `EndToEnd.AliasRestoresArea` | include/hbexprb.c:2420-2439 | A successful `a->( list )` leaves the work area that was selected before, if that was a valid one. |
| `Correctness.PushCorrect` | include/hbexprb.c:144-203 | For every well-formed expression and any code after it, running the generated instructions is evaluating the expression and going on with its value on the stack, in every combination of the compiler switches. |
| `Correctness.PopCorrect` | include/hbexprb.c:957-976 | Storing into a variable, an element, a message or a conditional of these takes the waiting value and does what assignment means. |
| `Correctness.DropCorrect` | include/hbexprb.c:978-1020 | The value-discarding code is evaluation for effect, with nothing left on the stack. |
| `Correctness.PushIifCorrect` | include/hbexprb.c:937-955 | Both jumps of IIF lead to where the condition says; a condition that is not logical fails. |
| `Correctness.PushListCorrect` | include/hbexprb.c:1077-1106 | A list evaluates all items in order, the last one for its value. |
| `Correctness.PushAtCorrect` | include/hbexprb.c:1387-1456 | Element access evaluates the base, then the index, and reads the element or makes a reference to it. |
| `Correctness.PushAliasCorrect` | include/hbexprb.c:2420-2439 | PUSHALIAS, POPALIAS and SWAPALIAS run the list in the chosen work area and bring the old one back under the result. |
| `Correctness.PushAssignCorrect` | include/hbexprb.c:2948-2970 | Assignment stores and still has the value; to a message it goes through the assign message. |
| `Correctness.PushLogicCorrect` | include/hbexprb.c:3291-3309 | .OR. and .AND. with and without shortcuts. |
| `Correctness.PushShortcutCorrect` | include/hbexprb.c:3376-3394 | DUPLICATE, jump, operator: the right operand runs only if it decides, and both ends of the jump agree on the stack. |
| `Correctness.PushBinCorrect` | include/hbexprb.c:3971-4019 | Addition and subtraction with their INC and DEC forms, and the other operators, apply the operator to the two operands in order. |
| `Correctness.PushSendCorrect` | include/hbexprb.c:2724-2757 | A message evaluates the object once, then the parameters, and sends. |
| `Correctness.PushCallCorrect` | include/hbexprb.c:2109-2185 | A function call evaluates its arguments in order, by value or by reference, and pushes what the function returns. |
| `Correctness.OpEqCorrect` | include/hbexprb.c:4833-4980 | `x op= e` in every generation mode, wanted or not: by reference, local opcode, object message, and load, operate, store. |
| `Correctness.OpEqLocal` | include/hbexprb.c:4931-4955 | LOCALADDINT followed by a push is `x += k` or `x -= k` on a local, on any value. |
| `Correctness.OpEqMessage` | include/hbexprb.c:4749-4801 | A compound assignment to a message sends the access and then the assign message to the receiver, and what the assign message returns is the one result. |
| `Correctness.StepCorrect` | include/hbexprb.c:5134-5232 | `++x` and `--x` in every mode, including LOCALINC, LOCALDEC and LOCALINCPUSH. |
| `Correctness.PostStepCorrect` | include/hbexprb.c:5236-5342 | `x++` and `x--` leave the old value, through DUPLUNREF, DUPLICATE or a stack shuffle. |
| `Correctness.PostStepShuffle` | include/hbexprb.c:4749-4801 | In Harbour mode without message references DUPLICATE and SWAP 2 leave exactly the old value over an untouched stack, and the object expression has run once. |
| `Correctness.AccessCorrect` | include/hbexprb.c:4749-4780 | The code for access and assignment evaluates the object once in Harbour mode and twice in Clipper mode, and leaves message, receiver and accessed value. |
| `Correctness.PopSendCorrect` | include/hbexprb.c:2758-2773 | Assignment without parameters rotates the waiting value over message and receiver; one item less remains. |
| `Correctness.LocateCorrect` | include/hbexprb.c:4833-4930 | The reference pushed for a compound target evaluates the subexpressions of the target once and designates the cell that assignment would write. |
| `Correctness.UnitStepMeaning` | include/hbexprb.c:3971-4019 | With EXTOPT, adding or subtracting a literal 1 or -1 equals INC or DEC on every operand, errors included. |
| `Correctness.AddIntMeaning` | src/vm/hvm.c:3092-3150 | The local opcode adds what the operators + and - would add or subtract, for every kind of operand. |
| `EndToEnd.AddIntGuardExact` | include/hbexprb.c:4931-4955 | The guard of the local opcode holds, for a literal of any size, if and only if the literal has 16 bits and the bytes emitted mean +n for `+=` and -n for `-=`; it excludes -32768 under minus and nothing else of 16 bits. |
| `Correctness.DropIifCorrect` | include/hbexprb.c:978-1020 | The discarded IIF with its layouts for an empty true arm and an empty false arm. |
| `Correctness.YieldsValue` | include/hbexprb.c:2948-2970 | What an assignment stores is never a reference, whatever path the source expression takes. |
| `Concrete.ArrayLiteral` | src/vm/hvm.c:5487-5505 | An array literal is a new array with its items in order, and nothing else changes. |
| `Concrete.PairElements` | src/vm/hvm.c:5204-5265 | `{ x, y }[ k ]` is x for 1, y for 2, and an error for any other k. |
| `Concrete.ElementRead` | src/vm/hvm.c:5204-5265 | `b[ i ]` is the item at position i without its fraction, counted from 1; an error outside the array. |
| `Concrete.NoElement` | src/vm/hvm.c:5204-5265 | Indexing anything but an array, or with anything but a number, is an error. |
| `Concrete.ElementStored` | src/vm/hvm.c:5386-5450 | `b[ i ] := e` changes that position of that array and nothing else. |
| `Concrete.StoredThrough` | src/vm/hvm.c:5386-5450 | An array given by reference is stored into like the array itself. |
| `Concrete.VariableStored` | src/compiler/hbmain.c:2730-2796 | `x := e` puts the value into the slot of x and changes nothing else; a missing field is an error. |
| `Concrete.VariableRead` | src/compiler/hbmain.c:2810-2866 | What a variable reads in every scope; an undeclared name is a field of the selected area if there is one, else a memvar. |
| `Concrete.AssignedRead` | src/vm/hvm.c:7311-7340 | A variable reads what was assigned to it, except exactly an undeclared name that a field with another value hides. |
| `Concrete.NumbersAdded` | src/vm/hvm.c:3285-3400 | Sum and difference of numbers. |
| `Concrete.DatesAdded` | src/vm/hvm.c:3285-3400 | A date plus or minus days, without their fraction. |
| `Concrete.DatesSubtracted` | src/vm/hvm.c:3401-3509 | The days between two dates. |
| `Concrete.StringsJoined` | src/vm/hvm.c:3401-3509 | `+` joins strings; `-` moves the blanks at the end of the left one behind the right one. |
| `Concrete.OperatorApplied` | src/vm/hvm.c:3510-3560 | Every other operator is applied to the left and the right value in this order. |
| `Concrete.LateRead` | include/hbexprb.c:4833-4980 | `x += ( x := 5 )` on a variable that holds 1 is 10 if and only if x is updated by reference, that is in Harbour mode for locals, statics and memvars; else it is 6. |
| `Concrete.GenericUpdate` | include/hbexprb.c:4833-4980 | In Clipper mode, and for fields and undeclared names in both, compound assignments and steps of variables and elements are load, operate, store. |
| `Concrete.LogicRuns` | include/hbexprb.c:3291-3309 | With shortcuts the right operand runs only if the left one does not decide; without them both run and have to be logical. |
| `Concrete.AreaSelected` | include/hbexprb.c:2420-2439 | `n->( b )` runs b in work area n and selects the old area again. |
| `Concrete.AreaOf` | src/vm/hvm.c:5808-5918 | Which area any alias value selects: numbers 1 to 65535 and known names their own, everything else the first available one. |
| `Concrete.FunctionCalled` | src/vm/hvm.c:5940-6000 | A function gets its arguments in order, after the call has been logged. |
| `Concrete.MessageSent` | src/vm/hvm.c:6092-6180 | A message gets its receiver and its arguments in order. |
| `Concrete.MessageUpdated` | include/hbexprb.c:4749-4801 | `f():m += n` calls f once in Harbour mode and twice in Clipper mode, sends the access message and then the assign message with the sum. |
| `Concrete.MessageStepped` | include/hbexprb.c:5134-5232 | `++f():m` calls f once in Harbour mode or with EXTOPT, twice else, and sends the same two messages. |
| `Concrete.NotAssignable` | include/hbexprb.c:4833-4860 | By reference, a message that cannot be assigned is an error before anything is sent. |
| `Concrete.OperatorDiscarded` | include/hbexprb.c:4024-4038 | An operator whose value is not wanted is applied in Clipper mode and left out in Harbour mode. |
| `Runs.RunSwap` | src/vm/hvm.c:7381-7394 | SWAP n moves the top item down n + 1 places, for every n and whatever lies there, and touches nothing below. |
| `Discard.DiscardSound` | include/hbexprb.c:4024-4038 | Whenever pushing and popping finishes without a run-time error, the value-discarding code gives the same state, the same calls in the same order and the same stack, with any code after it. In discarded positions there is no array literal, no reference, and no post-step of a message outside plain Harbour mode. |
| `Discard.EffectOfEval` | include/hbexprb.c:2828-2833 | The same about meanings, with the same exclusions: skipping operators, selecting no element and running a post-step as a pre-step loses no effect. |
| `Discard.PostMessageExact` | include/hbexprb.c:2828-2833 | Where it is false: for a message of a variable the discarded post-step has the effects of the wanted one if and only if the mode is plain Harbour without EXTOPT. |
| `Discard.PostSendsMore` | include/hbexprb.c:5236-5342 | The reason: in the other modes the wanted post-step sends three messages, the discarded one two. |
| `Discard.DiscardedArray` | include/hbexprb.c:633-645 | A discarded array literal has the effects of its items and lacks only the array. |
| `Discard.DiscardedTail` | include/hbexprb.c:978-1020 | Array literals in the arms of conditionals and as last items of lists, in any nesting: the discarding code has all effects and lacks only the array made last. |
| `Discard.DiscardHidesError` | include/hbexprb.c:4027-4031 | An operator error that the pushing form reports is not reported by the discarding form. |
| `FastForms.VariableOpEqRefines` | include/hbexprb.c:4920-4979 | `x op= e` by reference has the outcome of load, operate, store, errors included, if evaluating e leaves x alone. |
| `FastForms.LateReadExact` | include/hbexprb.c:4920-4979 | For addition of numbers the two agree if and only if evaluating e leaves the value of x as it was. |
| `FastForms.VariableStepRefines` | include/hbexprb.c:5134-5232 | `++x` and `x++` by reference are load, step, store without any condition. |
| `FastForms.ElementOpEqRefines` | include/hbexprb.c:4833-4919 | `a[ i ] op= e` by reference is the generic form if base and index are steady and e does not change what they designate. |
| `FastForms.ElementStepRefines` | include/hbexprb.c:5236-5342 | The same for steps of an element. |
| `FastForms.QuietRefines` | include/hbexprb.c:4833-4980 | With base, index and operand made of constants, variables, elements, operators and conditions, every fast form of compound assignment and steps is the generic form in every state, errors included. |
| `FastForms.IndexRunsOnce` | include/hbexprb.c:4833-4919 | For `a[ i++ ] += n` the reference form steps i once and the generic form twice, and they write different elements. |
| `FastForms.IifInversion` | include/hbexprb.c:985-1018 | With an empty true arm, one inverted jump behaves as the two jumps do, for every condition and any false arm. |
| `References.ReducedReferenceAccepted` | include/hbexprb.c:813-897 | Reducing `@e` and generating code for it reports no error if and only if e reduces to a variable that is no field, an element, a message or a reference, or to a conditional with both arms of these kinds. |
| `References.ReferenceAccepted` | include/hbexprb.c:834-897 | The handler alone, without the reduction: the same without conditionals. |
| `References.NestedConditionalRefused` | include/hbexprb.c:817-830 | The input that is refused: `@iif( p, iif( q, a, b ), d )`, while `@iif( q, a, b )` is accepted. |
| `References.ReferToMeaning` | include/hbexprb.c:817-830 | Rewriting `@iif( c, a, b )` to `iif( c, @a, @b )` keeps the meaning, for any operand. |
| `References.ReferenceStores` | include/hbexprb.c:834-892 | Storing through a reference to a variable, an element or a message is assigning to it. |
| `References.IifReference` | include/hbexprb.c:813-830 | `iif( c, @a, @b )` pushes a reference to the chosen arm: storing through it is assigning to the conditional, for arms that are variables, elements or messages. |
| `Reduction.ReduceMeaning` | include/hbexprb.c:2899-2938 | Reducing a whole tree preserves its value and its effects if every rewritten assignment is to a field or an undeclared variable, or its operand leaves the variable alone: by its text and, for the variables named as safe, in every world whose functions and methods do not change them. |
| `Reduction.SiteMeaning` | include/hbexprb.c:2904-2936 | `x := x op r` means the generic form of `x op= r`, for every variable and every r. |
| `Reduction.SiteReduced` | include/hbexprb.c:2904-2936 | One rewritten assignment has the meaning of the original, value, state and errors; calls and messages in the operand are allowed where the world leaves the variable alone. |
| `Untouched.LeavesKeeps` | include/hbexprb.c:2904-2936 | The condition is sound: an expression without references and assignments to the cell of x, whose calls and messages respect x, leaves x as it was in both modes and yields a value. |
| `Reduction.ReductionNeedsCare` | include/hbexprb.c:4833-4979 | The condition is needed: `x := x + ( x := 5 )` gives 6 and its reduced form 10, for a local that holds 1. |
| `Reduction.StripMeaning` | src/common/expropt2.c:2003-2021 | Removing parentheses changes neither value nor effects. |
| `Reduction.ReduceWellFormed` | include/hbexprb.c:2899-2938 | The reduced tree has storable targets wherever the original has, and assigns no reference. |
| `Settled.AssignmentReduced` | include/hbexprb.c:2904-2936 | `x := e` becomes a compound assignment exactly in Harbour mode, for the six operators + - * / % ^ and with x itself on the left of the operator; everything else stays an assignment. |
| `Settled.ReduceSettled` | include/hbexprb.c:144-203 | What the reduction leaves in Harbour mode has no parentheses around an operand, no assignment that could be a compound one, and no reference to a conditional, if no arm of a conditional under a reference is a conditional. |
| `Settled.ReduceTwice` | include/hbexprb.c:144-203 | Under the same condition reducing the reduced tree changes nothing. |
| `Settled.NestedReferenceLeft` | include/hbexprb.c:817-830 | Without it a second reduction finds a reference that the first one has made and left. |
| `ReducePass.Reducer.Use` | include/hbexprb.c:144-203 | HB_EA_REDUCE on the nodes: afterwards the returned node stands for the reduced expression, and no node outside the tree has changed. |
| `ReducePass.Reducer.ReduceList` | include/hbexprb.c:5491-5508 | The loop that reduces a list: the items are the reduced ones in the same order, whichever nodes they are now. |
| `ReducePass.Reducer.UseAssign` | include/hbexprb.c:2887-2938 | The change of type and the moved right operand make `x op= r` out of `x := x op r` exactly when the guard holds; in Clipper mode the target loses its parentheses instead. |
| `ReducePass.Reducer.UseDyadic` | include/hbexprb.c:3009-3018 | The operands of operators, and of compound assignments, whose target loses its parentheses in Clipper mode. |
| `ReducePass.Reducer.UseMonadic` | include/hbexprb.c:2805-2815 | The same for steps and unary operators. |
| `ReducePass.Reducer.UseRef` | include/hbexprb.c:813-830 | The operand of a reference is reduced. |
| `ReducePass.Reducer.ListStrip` | src/common/expropt2.c:2003-2021 | The loop that takes parentheses away ends at the expression inside. |
| `ReducePass.Reducer.UseList` | include/hbexprb.c:1045-1059 | A parenthesized expression is replaced by its contents in Harbour mode only. |
| `ReducePass.Reducer.UseSend` | include/hbexprb.c:2708-2716 | The object of a message is reduced in Harbour mode only. |
| `ReducePass.Reducer.UseIIF` | include/hbexprb.c:914-920 | The three items of a conditional are reduced. |
| `ReducePass.ClipperKeeps` | include/hbexprb.c:2895-2906 | Without the Harbour switch the reduction changes no tree whose targets have no parentheses. |
| `Shape.PushShape` | include/hbexprb.c:144-203 | The code of an expression does not depend on the code that follows it. |
| `StackDepth.OneDepth` | include/hbexprb.c:937-1020 | In code that passes the scan, two paths of control flow to the same position have the same stack depth there. |
| `StackDepth.PathDepth` | include/hbexprb.c:937-1020 | Every path of control flow through such code meets exactly the depth that the scan has computed, never takes an item that is not there, and goes on or ends at the final depth. |
| `StackDepth.ExecHeight` | src/vm/hvm.c:2142-2200 | The table of items taken and left, which the scan uses, is what the machine does: for every instruction, stack and world, the height before covers what is taken and the height after is what the table says. |
| `StackDepth.MachinePath` | src/vm/hvm.c:2142-2200 | What the machine has done after any number of instructions is a path of control flow, with the heights of its stacks, and the rest of the run is the run from there. |
| `StackDepth.RunDepth` | include/hbexprb.c:937-1020 | After any number of instructions of a run of such code, the height of the stack is the depth assigned to the position, and the next instruction finds its items. |
| `StackDepth.ChecksLand` | include/hbexprb.c:3291-3301 | In such code every jump lands on the start of an instruction or on the end. |
| `Discipline.PushDisciplined` | include/hbexprb.c:937-955 | The code of any nesting of expressions passes the scan with a net depth of +1. |
| `Discipline.PopDisciplined` | include/hbexprb.c:957-976 | Storing into variables, elements, messages and conditionals of these nets -1. |
| `Discipline.DropDisciplined` | include/hbexprb.c:978-1020 | The discarding code nets 0. |
| `Discipline.GeneratedDepth` | include/hbexprb.c:937-1020 | At every step of every run of generated code the height of the stack is the depth of the position; the end is one item higher for a push, level for a discard, one lower for a store. |
| `ByteMachine.ByteRunRefines` | src/vm/hvm.c:2142-2200 | The machine with a byte position does on the encoding what the machine with an instruction list does; every jump distance counts from the first byte of the jump. |
| `Encoding.DecodeEncode` | src/compiler/hbmain.c:3096-3150 | Decoding gives back the encoded instruction, whichever of the short and long forms was chosen. |
| `Encoding.DecodeAddInt` | src/vm/hvm.c:2883-2891 | The two bytes of LOCALADDINT read back by HB_PCODE_MKSHORT are k if and only if k fits in 16 bits. |
| `Encoding.EncodeSize` | src/compiler/hbpcode.c:601-690 | The bytes of an instruction are as many as jump distances count. |
| `Opcodes.EncodedBytes` | include/hbpcode.h:65-248 | The bytes of every instruction, number by number: the opcode as the enumeration counts it, then the operand with its lower byte first, in the short or the long form. |
| `Opcodes.DecodedNumber` | src/vm/hvm.c:1714-2610 | The machine does an instruction only where a byte with one of its own numbers is. |
| `Opcodes.IifBytes` | include/hbexprb.c:937-955 | `iif( .T., 1, 2 )` is 120, 30, 9, 0, 0, 122, 27, 6, 0, 0, 92, 2. |
| `Emitter.Emitter.PushPCode` | include/hbexprb.c:144-203 | The handlers themselves: exactly the bytes of the expression are appended, jumps patched, and the nodes are as they were before; an error is reported if and only if a jump, a string or a reference in that code does not fit. |
| `Emitter.Emitter.PopPCode` | include/hbexprb.c:957-976 | The same for stores, errors included. |
| `Emitter.Emitter.PushPop` | include/hbexprb.c:1111-1129 | The same for the discarding mode, errors included. |
| `Emitter.Emitter.UseRefPush` | include/hbexprb.c:834-897 | A reference to an element, a message, a variable or another reference; anything else is an error. The flag set in an element stays. |
| `Emitter.Emitter.GenJumpHere` | src/compiler/hbmain.c:2436-2452 | Writes the distance from the jump to the end of the buffer into its three operand bytes, or reports that it does not fit. |
| `Emitter.Emitter.GenJump` | src/compiler/hbmain.c:2403-2412 | Appends a jump with an empty operand and returns where that is. |
| `Emitter.Emitter.GenPushLong` | src/compiler/hbmain.c:3096-3140 | Chooses the shortest push of an integer. |
| `Emitter.Emitter.GenPushVar` | src/compiler/hbmain.c:2810-2866 | Chooses the push opcode by the scope of the variable, in the form with a 16-bit index. |
| `Emitter.Emitter.GenPopVar` | src/compiler/hbmain.c:2730-2796 | The same for stores; an undeclared name is stored as a memvar where the switches say so. |
| `Emitter.Emitter.GenPushVarRef` | src/compiler/hbmain.c:2868-2917 | A reference to a variable; an error is reported for a field and for nothing else. |
| `Emitter.Emitter.UseIifPush` | include/hbexprb.c:937-955 | Generates both arms around two patched jumps. |
| `Emitter.Emitter.UseIifPop` | include/hbexprb.c:957-976 | Stores into one of two targets. |
| `Emitter.Emitter.UseIifPushPop` | include/hbexprb.c:978-1020 | Turns the jump around when the true arm has emitted nothing, and takes it away when the false arm is NIL. |
| `Emitter.Emitter.EndTrueArm` | include/hbexprb.c:985-1010 | The decision that the buffer position alone makes: inverted jump, or second jump and patch, which fails exactly if the distance does not fit. |
| `Emitter.Emitter.UseArrayPush` | include/hbexprb.c:594-629 | A plain array becomes an argument list for a while and is an array again. |
| `Emitter.Emitter.UseArrayAtPush` | include/hbexprb.c:1387-1456 | Base, index and the opcode for value or reference. |
| `Emitter.Emitter.UseListPush` | include/hbexprb.c:1077-1106 | The loop over a list that pushes its last item only. |
| `Emitter.Emitter.UseListPushPop` | include/hbexprb.c:1111-1129 | The loop over a list whose value is not wanted. |
| `Emitter.Emitter.UseFunCallPush` | include/hbexprb.c:2109-2185 | Function symbol, NIL for the missing object, arguments, call. |
| `Emitter.Emitter.UseSendPush` | include/hbexprb.c:2724-2757 | Message symbol, object, parameters, send. |
| `Emitter.Emitter.UseSendPop` | include/hbexprb.c:2758-2773 | The assign message, with the value generated in place or rotated up from the stack. |
| `Emitter.Emitter.UseAssignPush` | include/hbexprb.c:2948-2970 | Assignment, with the parameters of a message set and cleared again. |
| `Emitter.Emitter.UseAssignPushPop` | include/hbexprb.c:2975-2997 | Assignment as a statement. |
| `Emitter.Emitter.UseAliasExprPush` | include/hbexprb.c:2420-2439 | Saves and selects the work area, generates the list, restores. |
| `Emitter.Emitter.PushShortcut` | include/hbexprb.c:3291-3309 | Left operand, DUPLICATE, a jump over the right operand and the operator. |
| `Emitter.Emitter.UseLogicPushPop` | include/hbexprb.c:3314-3341 | The shortcut form without a value. |
| `Emitter.Emitter.PushSendPopPush` | include/hbexprb.c:4749-4801 | Access, operator and assign on one receiver. |
| `Emitter.Emitter.PushOperEq` | include/hbexprb.c:4833-4980 | Chooses among the modes of compound assignment and emits it; changed types and flags are restored. |
| `Emitter.Emitter.UseOperEq` | include/hbexprb.c:4985-5130 | The same as a statement. |
| `Emitter.Emitter.PushPreOp` | include/hbexprb.c:5134-5232 | The same for `++x` and `--x`. |
| `Emitter.Emitter.PushPostOp` | include/hbexprb.c:5236-5342 | The same for `x++` and `x--`. |
| `Emitter.Emitter.UsePreOp` | include/hbexprb.c:5347-5437 | The same for steps as statements. |
| `Emitter.Emitter.Compile` | include/hbexprb.c:144-203 | An expression on its own: the whole buffer, and an error if and only if something does not fit. |
| `MacroArgs.UniquelyDecodable` | include/hbexprb.c:1222-1254 | Two sequences of groups with the same stack layout are equal: the counts make the encoding uniquely decodable from the top. |
| `MacroArgs.GroupsPartition` | include/hbexprb.c:1222-1254 | The groups of a list hold every argument once and in order. |
| `MacroArgs.NoEmptyRuns` | include/hbexprb.c:1231-1247 | A group is empty only where a multiple argument is. |
| `MacroArgs.UseMacroArgList` | include/hbexprb.c:1222-1254 | The generated pushes leave exactly the groups with their counts. |
| `MacroArgs.ParamListCheck` | src/common/expropt1.c:1356-1412 | Counts the groups if there is a multiple argument, else the arguments; a single empty argument counts as none. |
| `MacroArgs.ArgsJoin` | src/vm/hvm.c:5675-5701 | Joining reads the counts from the top, moves the items together in place and returns their number; nothing below them changes. |
| `MacroArgs.MacroCall` | src/vm/hvm.c:5715-5727 | From the list to the call: the joined stack holds the arguments in order. |
| `ListSurgery.Tree.ReduceList` | include/hbexprb.c:5491-5508 | For any list and any reduction that stays within the tree of an item or makes new nodes: same length and order, each node replaced by its own reduction with only the link changed, no node lost, nothing else touched. |
| `ListSurgery.Tree.UseRef` | include/hbexprb.c:817-830 | The operand is reduced; if that gives a conditional, `@iif( c, a, b )` becomes the list c, @a, @b with two new reference nodes and every other node keeps its contents. The result denotes the reduced reference whose code is generated. |
| `ListSurgery.Tree.ReferToArms` | include/hbexprb.c:819-827 | The pointer stores alone: two new references linked between the condition and the end, in order. |
| `GetRewrite.Rewriter.GetA` | include/hbexpra.c:265-365 | The new argument list: codeblock of v or NIL, the old arguments 2 to 5 padded with NIL, the array of the indexes in source order as 6th, later arguments kept, an old 6th dropped, the name cut. |
| `GetRewrite.Rewriter.CollectIndexes` | include/hbexpra.c:281-294 | The walk to the leftmost expression links the indexes in source order. |
| `GetRewrite.Rewriter.PadArguments` | include/hbexpra.c:321-330 | At least five arguments, new ones NIL, given ones unchanged. |
| `GetRewrite.Rewriter.ReplaceSixth` | include/hbexpra.c:331-336 | The array takes the sixth place, before what followed it. |
| `GetRewrite.Rewriter.CutName` | include/hbexpra.c:338-363 | The name ends before its first '[' at position 1 or later. |
| `GetRewrite.SpineUnique` | include/hbexpra.c:271-294 | A chain of element accesses determines the variable and the indexes, so the array rebuilds the chain. |
| `GetRewrite.CutUnique` | include/hbexpra.c:338-363 | The cut is determined by the text. |
| `StaticInit.RefusedIff` | include/hbexpra.c:564-629 | A list is refused if and only if some item that is reached through nested arrays and hashes (types 9 and 10) is none of the types 0 to 7 and 11 and no call of HB_MUTEXCREATE or __BREAKBLOCK with empty parentheses. |
| `StaticInit.ReportedIsIllegal` | include/hbexpra.c:582-629 | Every reported item is illegal, and a path leads to it. |
| `StaticInit.IllegalIsReported` | include/hbexpra.c:582-629 | Every illegal item within reach is reported. |
| `StaticInit.StrippedVerdict` | include/hbexpra.c:602-615 | The list left by the check in Clipper mode is judged the same in Harbour mode. |
| `StaticInit.Parentheses` | src/common/expropt2.c:2003-2021 | Any number of parentheses around an operand is taken away in Clipper mode, up to a call of hb_ArrayToParams; in Harbour mode what still has them is refused. |
| `StaticInit.NoParentheses` | src/common/expropt2.c:2003-2021 | Nothing else is taken apart. |
| `StaticInit.CheckStaticListInitializers` | include/hbexpra.c:598-629 | The recursive loop reports the illegal items in order, some if and only if one is within reach, and strips items in place; it ends on any nesting. |
| `StaticInit.AssignStatic` | include/hbexpra.c:638-687 | The types 9, 10 and 16 are scanned as lists; anything else is reported if and only if it is no constant of the types 0 to 7 and 11 and no permitted call, like a mutex created with an argument. |
| `Spinlock.RunRefines` | include/hbatomic.h:475-571 | Every interleaving of single memory accesses is a run of an atomic reentrant lock. |
| `Spinlock.InvStep` | include/hbatomic.h:475-571 | Every access of every thread keeps the invariant, in all windows between accesses. |
| `Spinlock.StepRefines` | include/hbatomic.h:475-571 | One access is at most one step of the atomic lock; refusals happen only while another thread holds it. |
| `Spinlock.WaiterStep` | include/hbatomic.h:484-503 | The racy read of the owner by a thread that is not inside never succeeds and never disturbs the owner. |
| `Spinlock.MutualExclusion` | include/hbatomic.h:545-571 | In any run from the initial state at most one thread is inside. |
| `Spinlock.ThidIsOwner` | include/hbatomic.h:484-503 | In any run a thread reads its own id if and only if it holds the lock, in every window between accesses of other threads. |
| `Spinlock.CountIsDepth` | include/hbatomic.h:475-510 | In any run, between the calls of a thread that holds the lock, count is its nesting depth. |
| `Spinlock.OwnerNeverSpins` | include/hbatomic.h:545-571 | However the steps of other threads are interleaved, the call of an owner that acquires again returns with its own fourth access, one level deeper. |
| `LockProgress.FreeLockTaken` | include/hbatomic.h:489-510 | A call of either kind that is not interrupted takes a free lock with four accesses and changes nothing but its own thread and the three fields. |
| `LockProgress.TakenLockReturns` | include/hbatomic.h:496-503 | Under any interleaving, a test-and-set that finds the lock free has it: the call returns with its third access, one level deeper. |
| `LockProgress.TryRefused` | include/hbatomic.h:484-505 | Under any interleaving, try gives up only if another thread holds the lock at one of its own accesses. |
| `LockProgress.AcquireReturnsHolding` | include/hbatomic.h:545-571 | Under any interleaving, acquire never returns without being one level deeper. |
| `LockProgress.HolderRuns` | include/hbatomic.h:475-571 | Under any interleaving, every call of the thread inside ends with its own last access and leaves the three fields as its new depth asks for. |
| `LockProgress.ReleaseReturns` | include/hbatomic.h:475-482 | The last release leaves the lock free, an earlier one leaves it with its owner, whatever other threads do in between. |
| `Spinlock.NestingLimit` | include/hbatomic.h:475-482 | The release gives the lock away if and only if the count that an unsigned int keeps of the depth is 1, for every depth; up to a depth of 2^32 that is the last level. |
| `Spinlock.CountedTurns` | include/hbatomic.h:475-482 | The count is 1 again at every depth k * 2^32 + 1. |
| `DoubleKeys.OrderPreserved` | include/hbdefs.h:1399-1419 | For all binary64 values but NaN, d1 < d2 if and only if the encoded bytes compare less, and equal if and only if they are equal. |
| `DoubleKeys.RoundTrip` | include/hbdefs.h:1378-1419 | HB_ORD2DBL restores every such value bit for bit, with -0.0 as +0.0. |
| `DoubleKeys.KeyNumber` | include/hbdefs.h:1399-1419 | The key as a big-endian number counts up from 2^63 for positive and down for negative values. |
| `DoubleKeys.ValueOrder` | include/hbdefs.h:1399-1419 | Numbers compare as their signed bit patterns, through subnormals, exponent steps and infinities. |
| `DoubleKeys.PutOrd` | include/hbdefs.h:1399-1419 | The byte stores in place write the key, and make a negative zero positive in the source buffer. |
| `DoubleKeys.GetOrd` | include/hbdefs.h:1378-1397 | The byte stores back write the number. |
| `Codec.UnsignedExact` | include/hbdefs.h:1205-1293 | Reading back the k bytes of n gives n if and only if n fits in k bytes. |
| `Codec.SignedExact` | include/hbdefs.h:1431-1458 | Reading back as a signed number gives n if and only if n fits in k bytes of two's complement. |
| `Codec.Int24Exact` | include/hbdefs.h:1431-1458 | For three bytes that is exactly HB_LIM_INT24. |
| `Codec.PutGetLE` | include/hbdefs.h:1205-1247 | Writing what was read restores the bytes. |
| `Codec.PutGetBE` | include/hbdefs.h:1257-1293 | The same for the big-endian order. |
| `Codec.SwapsOrder` | include/hbdefs.h:744-781 | The two orders differ by HB_SWAP_UINT16, 32 and 64. |
| `Codec.PutLE16` | include/hbdefs.h:1223-1226 | Writes its own two bytes only. |
| `Codec.PutBE16` | include/hbdefs.h:1274-1277 | Writes its own two bytes only, highest first. |
| `Codec.PutLE24` | include/hbdefs.h:1440-1444 | Writes its own three bytes only. |
| `Codec.PutBE24` | include/hbdefs.h:1454-1458 | Writes its own three bytes only, highest first. |
| `Codec.PutLE32` | include/hbdefs.h:1227-1232 | Writes its own four bytes only. |
| `Codec.PutBE32` | include/hbdefs.h:1278-1283 | Writes its own four bytes only, highest first. |
| `Codec.PutLE64` | include/hbdefs.h:1233-1242 | Writes its own eight bytes only. |
| `Codec.PutBE64` | include/hbdefs.h:1284-1293 | Writes its own eight bytes only, highest first. |

## Left out

Of the language:

- WITH OBJECT, macros and macro text, hashes, codeblocks, SETGET expressions, date, timestamp and floating-point literals, `HB_SUPPORT_ARRSTR`, and function calls with an id of their own (`hb_F_*`): they add cases to every function but no new way of generating code.
- Constant folding (`hb_compExprReducePlus` and its kind, and the constant index into a literal array): operators are reduced to themselves.
- The base of an element access that is an undeclared variable: HB_EA_REDUCE makes it a memvar with an explicit alias. Here it keeps the scope that the configuration gives it.
- A parenthesized target, as in `( x ) := 1`: the methods of `ReducePass` strip it in Clipper mode as the handlers do. `WellFormed` describes targets without parentheses, so the statements about what code means start from those.
- References to alias variables and macros, which are accepted under conditions on their parts, and references to conditionals in the reducing pass on trees (`ListSurgery` has them, with the new nodes).
- The near opcodes for locals of a codeblock whose index fits in one byte, which are two bytes long instead of three and do the same.
- Overloaded operators, and error handlers that substitute a value and resume: an error ends the run.
- 64-bit overflow of integers into binary64 and the display width and decimals of numbers: numbers are exact.
- Locals and array elements that themselves hold references: a cell holds a value, so a parameter received by reference is not an alias of the caller's variable.
- What functions and methods do: they are parameters of the evaluator and of the machine, which call them with the same arguments in the same state.

Of the compiler:

- The target of `( a := b ) := c`, which HB_EA_LVALUE accepts and HB_EA_POP_PCODE ignores, and HB_EA_PUSH_POP of SETGET: the handlers there only report or drop.
- Symbol tables that grow while code is generated: name and number of a symbol are functions of the configuration. The assign message of a name of full length, which is cut to the length of a symbol.
- The passes over finished pcode (hbopt.c, hbfix.c, hblbl.c), debugger lines, warnings and the text of errors.
- Lists with more than 65535 items, whose counts wrap around, and, in the emitter, the single empty item that stands for an empty argument list (`MacroArgs` has it).
- Memory ownership: nodes are not freed, and a node that has been cut out keeps what it holds.
- The machine's shortcut for a POP right after SEND, which it skips instead of pushing the result first: the stack is the same after both.
- In `__GETA`, the first argument has been reduced, and index expressions are not empty.
- The reference flag of an element under a reference: `UseRefPush` sets it, and inside larger trees it is taken as set before.

Of locks and keys:

- Weak memory ordering and the processor-specific test-and-set: accesses are atomic and sequentially consistent. The non-recursive spinlock is its test-and-set alone.
- The big-endian form of the keys, software binary64, and NaN.

Stated weaker than one might wish:

- Discard.DiscardSound: asks that no operand that is itself discarded is an element reference, an array literal, or a post-step of a message outside plain Harbour mode. A literal alone is `DiscardedArray`, and one in the arms of conditionals or at the end of lists is `DiscardedTail`. Elsewhere the array that is not made would have had a number of its own, so later arrays get another one, which a function can observe. The messages are `PostMessageExact`, for a receiver that is a variable.
- FastForms.ElementOpEqRefines: asks that base and index evaluate to the same items before and after the operand. `QuietRefines` is the statement with a condition on the text of the expression alone.
- References.IifReference: says nothing when making the reference fails, as for a memvar that does not exist, where assigning would create it.
- EndToEnd.CompileExpression: says what the bytes compute for expressions in range (`Ranges.InRange`). The emitter reports long jumps and strings, and takes larger counts, slots and symbol numbers for granted, as the handlers do. The symbol of the assign message is asked for with every message.
- Reduction.ReduceMeaning: asks, for calls and messages in the operand of a rewritten assignment, that functions which get values only never change the variable, from any state. `SiteMeaning` has no such condition and is about the generic form.
- Concrete.AreaOf: takes work area numbers as they are, where the machine keeps 32 bits of them.
- Emitter.Emitter.GenPushVar: has the three-byte form only, without PUSHLOCALNEAR in codeblocks.
- Emitter.Emitter.GenPopVar: has the three-byte form only, without POPLOCALNEAR in codeblocks.
