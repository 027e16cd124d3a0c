# Cook's Lua core and scanner, in Dafny

Cook ships the Lua 5.4.7 core, which runs every lowered Cookfile, and a tree-sitter scanner that has to see Lua code
the way Lua does. This project models the parts of both with the most state and branching and proves what they are for.

- **Expression code generator** (`lcode.c`): one pass from expressions to register code, with jump lists threaded through
  the instructions. `Bytecode.dfy` has the machine and the meaning of expressions, `Denotation.dfy` says what a descriptor
  with its pending jumps means, `Rules.dfy`, `Combine.dfy`, `Operators.dfy` and `Comparisons.dfy` have one rule for each
  thing the generator does, and `CodeGen.dfy` the class `FuncState` with the generator itself. `Meaning.dfy` has expressions
  and tests as the manual describes them, value by value. `JumpThreading.dfy` is the final pass, and `Threaded.dfy` puts
  both together.
- **Incremental garbage collector** (`lgc.c`): `Heap.dfy` and `Marking.dfy` have the object graph and the colour invariant,
  `Mutation.dfy` and `Freeing.dfy` what writes and frees do to it, `Collector.dfy` the class `GlobalState`, `Mutator.dfy`
  stores with barriers, `Allocation.dfy` new objects and upvalues, `Finalizers.dfy` the lists of objects with finalizers,
  `Cycle.dfy` single steps and whole cycles, and `Program.dfy` every interleaving of the collector with a program.
- **Ephemeron tables** (`Ephemerons.dfy`): the convergence loop of the atomic step.
- **Generational mode**: `Ages.dfy` has the ages and what they mean, `YoungMarking.dfy` and `YoungSweep.dfy` the phases of a
  young collection, `Generations.dfy` the class `GenState`, `GenProgram.dfy` runs.
- **Line information** (`LineInfo.dfy`): the encoder in the code generator and the decoder of the debugger.
- **Two lexers of Lua**: `LuaText.dfy` specifies one round of the lexer, `Lexemes.dfy` the lexical elements as the manual
  describes them, `Llex.dfy` has Lua's own lexer, `Scanner.dfy` the scanner's loops, and `LexerAgreement.dfy` relates them.
  `UsePath.dfy` has the automaton for the paths of `use`.
- **Upvalues and to-be-closed variables** (`Upvalues.dfy`, `ToBeClosed.dfy`).
- **Binary chunks**: `Chunk.dfy` has the bytes and the loader, `Format.dfy` what the bytes must be, `Dump.dfy` the writer.
- **Arithmetic**: `Random.dfy` on `Words.dfy` (xoshiro256** in two versions), `Utf8.dfy`.

Objects that the source updates in place are classes (`FuncState`, `GlobalState`, `GenState`, `State`, `LexState`, `Lexer`,
`LuaState`, `DumpState`), and its loops are loops. Errors that leave by `longjmp` are a failing `Status`. What the model
cannot see (metamethods, constants' values, the writer, what `iswalpha` accepts, the conversion of numerals) is a parameter
or left open. `dafny verify dfyconfig.toml` checks everything.

## Findings

Properties that the code does not have, or has under a condition only. Each has a concrete input and the exact condition.

1. **An old object can come to refer to a new one** (lgc.c:208-219, 297-329). The forward barrier makes only the object
   that is stored old. What marking it marks besides keeps its age: the value of a closed upvalue, or the metatable of a
   userdata without user values. That content is then new but no longer white, so that a later store of it into a black old
   object passes no barrier. `lua_upvaluejoin` on an old closure (lapi.c:1453-1461) starts it, and so does `OP_SETUPVAL`
   (lvm.c:1242-1248) of such a userdata. `Generations.EscapingRun` is a run: a new closure with a new upvalue that holds a
   new table, the upvalue shared with an old closure, the table then stored in the registry. `Generations.GenState.Store`
   has the condition, both ways: a store keeps the invariant exactly unless the object written is black and old, and the
   one stored is marked already and too young. `GenProgram.Run` has every run up to such a store.
2. **A carriage return alone ends a comment for Lua and not for the scanner** (scanner.c:223-226, 952-954; llex.c:454-472).
   After it the scanner misses a closing brace: `LexerAgreement.BareReturn`. `LexerAgreement.CommentAgrees` is exact for
   every comment; strings, long brackets and all the rest agree without a condition.
3. **Some functions can be dumped and not loaded** (ldump.c:65-79, lundump.c:69-90). The loader compares with its limit
   before it takes in the last group of seven bits, so that an `int` of 0x7FFFFF80 or more is written and then refused:
   `Chunk.IntLoads` is exact. Lines can be such numbers, since a source may have up to 0x7FFFFFFE of them (llex.c:162):
   `Chunk.LateFunction` has a function of one line that cannot be loaded again if it stands in line 0x7FFFFF80 or behind.
   Strings are not concerned: `Chunk.HeldStringLoads`.

## Model

| member | source | states |
|---|---|---|
| CodeGen.Compile | cli/vendored/lua-5.4.7/lcode.c:772-1775 | For every expression of literals, locals, upvalues, `not`, `and`, `or` and comparisons: the code, run from any registers, leaves exactly the expression's value (not just its truth) in the first register after the locals and every register below as it was, or raises exactly its error; jumps stay inside the code and operands fit their fields. Compiling succeeds whenever the expression is not too big for the jump offsets and its operands are not nested deeper than the registers left. |
| Threaded.CompileAndFinish | cli/vendored/lua-5.4.7/lcode.c:1846-1874 | The same of the code after the final pass: compiling and jump threading together still compute the value or the error, and that is the one of the manual, value by value (`Meaning.Means`). |
| Meaning.EvalMeans | cli/vendored/lua-5.4.7/lobject.h:247 | The evaluation that the generator is proved against is the one written out over the values there are: only nil and false are false, `and` and `or` leave one of their operands, `not` and the comparisons a boolean. |
| Meaning.RunsDelivers | cli/vendored/lua-5.4.7/lcode.c:943-948 | Correct code, for every expression and all registers, ends with the value of the manual in its register, the registers below as they were, or raises the error of the manual. |
| Meaning.NotDelivers | cli/vendored/lua-5.4.7/lvm.c:1566-1574 | The code of `not x` leaves true exactly if `x` is nil or false, and false otherwise. |
| Meaning.AndDelivers | cli/vendored/lua-5.4.7/lvm.c:1656-1672 | The code of `x and y` leaves `x` if it is nil or false, and `y` otherwise. |
| Meaning.OrDelivers | cli/vendored/lua-5.4.7/lvm.c:1656-1672 | The code of `x or y` leaves `y` if `x` is nil or false, and `x` otherwise. |
| Meaning.TestsMean | cli/vendored/lua-5.4.7/lvm.c:1656-1672 | The tests of the machine, the negation and the jumps, for every value: which instruction is next and what is stored. |
| Meaning.ComparisonsMean | cli/vendored/lua-5.4.7/lvm.c:1603-1655 | Each comparison instruction, with a register, a constant or an immediate: what it decides and which instruction is next. |
| Bytecode.FieldsFit | cli/vendored/lua-5.4.7/lopcodes.h:38-76 | Operands that fit have the widths of the fields of a 32-bit instruction. |
| Threaded.SameRuns | cli/vendored/lua-5.4.7/lcode.c:1829-1838 | A machine that halts on the code before the pass halts in the same state on the code after it. |
| CodeGen.FuncState.SubExpr | cli/vendored/lua-5.4.7/lparser.c:1260-1287 | The descriptor left for an expression denotes it: every run that used to reach the end of the code now carries its value where the descriptor and its two jump lists say. |
| CodeGen.FuncState.Binary | cli/vendored/lua-5.4.7/lparser.c:1272-1285 | One operator with both operands, whatever they are: the result denotes the whole expression, within stated numbers of instructions, constants and registers. |
| CodeGen.FuncState.ExprToNextReg | cli/vendored/lua-5.4.7/lcode.c:943-948 | From any code already there: every run that reached its end now also puts the value in the next free register, and nothing else below changes. |
| CodeGen.FuncState.AssignLocal | cli/vendored/lua-5.4.7/lcode.c:1049-1055 | Assigning to a local changes that register alone, though the expression may read it. |
| CodeGen.FuncState.Exp2Reg | cli/vendored/lua-5.4.7/lcode.c:915-937 | Whichever way the value is produced, by the main code or by a jump of either list, it ends in the register, and no jump is left pending. |
| CodeGen.FuncState.FinishLists | cli/vendored/lua-5.4.7/lcode.c:918-932 | The two booleans are loaded when some jump carries no value, and both lists are closed on the right targets. |
| CodeGen.FuncState.Discharge2Reg | cli/vendored/lua-5.4.7/lcode.c:826-875 | The main value goes to the register; comparisons stay as they are; the jump lists survive. |
| CodeGen.FuncState.Exp2AnyReg | cli/vendored/lua-5.4.7/lcode.c:955-970 | A value in a register without jumps is left alone; any other ends in some register, still denoting the expression. |
| CodeGen.FuncState.Exp2RK | cli/vendored/lua-5.4.7/lcode.c:1029-1037 | A constant with a small index becomes a constant operand with the same value, anything else a register. |
| CodeGen.FuncState.JumpOnCond | cli/vendored/lua-5.4.7/lcode.c:1116-1128 | The jump is taken exactly for the wanted truth and carries the value; a trailing NOT is removed and the test negated instead. |
| CodeGen.FuncState.GoIfTrue | cli/vendored/lua-5.4.7/lcode.c:1134-1155 | Runs that fall through are those with a true value; all others leave by the false list. |
| CodeGen.FuncState.GoIfFalse | cli/vendored/lua-5.4.7/lcode.c:1161-1181 | Runs that fall through are those with a false value; all others leave by the true list. |
| CodeGen.FuncState.CodeNot | cli/vendored/lua-5.4.7/lcode.c:1187-1215 | The lists change places, no test in them stores a value any more, and the result denotes the negation. |
| CodeGen.FuncState.Infix | cli/vendored/lua-5.4.7/lcode.c:1636-1679 | The first operand is ready for the operator: tested, in a register, or a small constant. |
| CodeGen.FuncState.Posfix | cli/vendored/lua-5.4.7/lcode.c:1705-1775 | With the second operand compiled, the result denotes the whole binary expression. |
| CodeGen.FuncState.CodeOrder | cli/vendored/lua-5.4.7/lcode.c:1552-1577 | `<`, `<=`, and `>`, `>=` with operands exchanged: the test compares the two values in the order of evaluation, with an immediate operand where one fits. |
| CodeGen.FuncState.CodeEq | cli/vendored/lua-5.4.7/lcode.c:1584-1609 | Equality with a register, an immediate or a constant, exchanged when the constant comes first. |
| CodeGen.FuncState.Concat | cli/vendored/lua-5.4.7/lcode.c:181-193 | Concatenating two disjoint lists appends them; only links of the first are rewritten. |
| CodeGen.FuncState.PatchListAux | cli/vendored/lua-5.4.7/lcode.c:288-299 | Every jump of the list goes to its own target, every value-producing test gets its register, and no other instruction changes. |
| CodeGen.FuncState.RemoveValues | cli/vendored/lua-5.4.7/lcode.c:277-280 | Every test of the list stops producing a value; nothing else changes. |
| CodeGen.FuncState.LoadNils | cli/vendored/lua-5.4.7/lcode.c:131-147 | A LOADNIL just before is widened when the ranges touch and no label is between; else one is added. |
| CodeGen.FuncState.AddK | cli/vendored/lua-5.4.7/lcode.c:543-569 | The index holds a constant that is really equal, though the cache may be stale. |
| Bytecode.RunPatched | cli/vendored/lua-5.4.7/lcode.c:288-312 | Patching a list resumes, with their values stored, exactly the runs that stopped at a jump of the list. |
| Bytecode.RunWiden | cli/vendored/lua-5.4.7/lcode.c:131-147 | Widening a LOADNIL that no jump enters behind is the same as setting the further registers after the run. |
| JumpLists.ListNoDup | cli/vendored/lua-5.4.7/lcode.c:154-161 | Lists threaded through the instructions are acyclic. |
| JumpLists.ListAppend | cli/vendored/lua-5.4.7/lcode.c:181-193 | Linking the last jump to another list's head appends, and the link is never taken for the end marker. |
| Rules.TestRule | cli/vendored/lua-5.4.7/lcode.c:1116-1128 | Emitting a test and a jump in place of the value keeps the meaning of the code, for every environment and start state. |
| Rules.JumpRule | cli/vendored/lua-5.4.7/lcode.c:1102-1110 | A comparison's own jump joins the list of its truth, the condition negated if need be, without changing the meaning. |
| Combine.ValueRule | cli/vendored/lua-5.4.7/lcode.c:288-299 | Closing one list: jumps that carry a value store it on their way, others go through the loaded boolean. |
| Combine.HereRule | cli/vendored/lua-5.4.7/lcode.c:312-315 | Closing at the current position the list whose truth falls through keeps the meaning. |
| Operators.NotRule | cli/vendored/lua-5.4.7/lcode.c:1187-1215 | Negation of the main value and exchange of the lists mean the negated expression. |
| Operators.JunctionRule | cli/vendored/lua-5.4.7/lcode.c:1711-1723 | `and` and `or`: the second operand's code after the first, with the lists joined, means the short-circuit expression. |
| Comparisons.CompareRule | cli/vendored/lua-5.4.7/lcode.c:1552-1609 | A test of the two placed operands, in whatever order the instruction has them, means the comparison. |
| JumpThreading.Finish | cli/vendored/lua-5.4.7/lcode.c:1846-1874 | In place: from every pc the same instruction other than a jump is reached as before; chains that go round for ever still do; jumps within 100 hops of their destination go straight to it; only returns change otherwise; it fails only when a jump is too long. A return undoes the call: a vararg function puts `func` back where it was, for every number of extra arguments, and any other leaves it as before; upvalues are closed if and only if the function needs it or the bit was set (or the short form had it and is a short form no more); the values returned are the same. |
| JumpThreading.ShortenedSame | cli/vendored/lua-5.4.7/lcode.c:1829-1838 | Redirecting one jump by any number of hops changes neither what is reached nor which chains never end. |
| JumpThreading.ExecutesSame | cli/vendored/lua-5.4.7/lcode.c:1846-1874 | The instructions executed and their states are the same before and after, whatever the instructions do. |
| Collector.GlobalState.Accessible | cli/vendored/lua-5.4.7/lgc.c:1585-1645 | Safety in every phase: what can be reached is there, is not dead, and is among what the cycle may keep. |
| Program.Run | cli/vendored/lua-5.4.7/lgc.c:1585-1645 | Every interleaving of collector steps with anything the program does, from the start, with its history: at every moment what can be reached is there; from each moment to the next the program's view changes by what the program does, or the collector keeps what can be reached, or it hands over the next object that is due. |
| Program.RunCycle | cli/vendored/lua-5.4.7/lgc.c:1525-1645 | Completeness over every interleaving: when the cycle comes to the calls of finalizers, of the objects that are not fixed only those are left that could be reached when it started or were created since, all in the current white. No object has or gets a finalizer. |
| Program.Do | cli/vendored/lua-5.4.7/lgc.c:1585-1645 | One action beside the collector, exactly: the program's view, the lists of objects with finalizers and the queue of those due change by what the action says; a collector step leaves all that can be reached as it was, lets objects become due that cannot be reached, or hands over the first that is due. |
| Program.FirstInFirstOut | cli/vendored/lua-5.4.7/lgc.c:886-898 | Over every history the objects handed over, and then those still due, are the objects that became due in their order. |
| Program.DueUnreachable | cli/vendored/lua-5.4.7/lgc.c:974-991 | What becomes due had a finalizer and could not be reached. |
| Cycle.SingleStep | cli/vendored/lua-5.4.7/lgc.c:1585-1645 | Each step keeps the invariant and what can be reached; the pending finalizers form a queue; objects become due only when unreachable; only the atomic step adds to what is kept, and only what finalizers need. |
| Cycle.Collect | cli/vendored/lua-5.4.7/lgc.c:1585-1660 | A whole cycle without the program keeps exactly the reachable objects, those fixed aside. |
| Cycle.RunToFinalizers | cli/vendored/lua-5.4.7/lgc.c:1652-1657 | Running to the calls of finalizers ends, from any phase but the pause. |
| Cycle.FullGc | cli/vendored/lua-5.4.7/lgc.c:1710-1724 | Whatever the phase: the old cycle is finished, a whole one follows with all the marking in the atomic step, up to the pause, and all that is left has the current white. If nothing has a finalizer, of the objects that are not fixed exactly the reachable ones are left. |
| Cycle.OneList | cli/vendored/lua-5.4.7/lgc.c:886-898 | Every object that is not fixed is in exactly one of the three lists, and the finalized bit is set exactly in the last two. |
| Collector.GlobalState.constructor | cli/vendored/lua-5.4.7/lstate.c:360-411 | The first state has the main thread and the registry and keeps the invariant. |
| Collector.GlobalState.ReallyMark | cli/vendored/lua-5.4.7/lgc.c:297-329 | Marking keeps the tri-colour invariant, strings and closed upvalues being visited at once and open upvalues staying gray. |
| Collector.GlobalState.PropagateMark | cli/vendored/lua-5.4.7/lgc.c:660-673 | Visiting one gray object keeps the invariant; threads stay gray until the atomic step. |
| Collector.GlobalState.RemarkUpvals | cli/vendored/lua-5.4.7/lgc.c:367-391 | Threads that are not marked leave the list, the values of their marked upvalues marked. |
| Collector.GlobalState.SeparateToBeFnz | cli/vendored/lua-5.4.7/lgc.c:974-991 | Exactly the unmarked objects with finalizers become due, in their order, behind those that were due. |
| Collector.GlobalState.AtomicStep | cli/vendored/lua-5.4.7/lgc.c:1525-1565 | After it nothing reachable is white, no reachable object's finalizer is due, the white is flipped, and what was not marked is dead. |
| Collector.GlobalState.SweepOne | cli/vendored/lua-5.4.7/lgc.c:824-845 | A dead member is freed and a live one turns white; the objects that live keep what is seen of them; the lists still hold every object once. |
| Collector.GlobalState.SweepToLive | cli/vendored/lua-5.4.7/lgc.c:851-857 | The sweep goes on to the first live member, or to the end. |
| Collector.GlobalState.SweepStep | cli/vendored/lua-5.4.7/lgc.c:1568-1582 | Part of a list is swept, or the next phase begins, and the invariant stays. |
| Collector.GlobalState.Restart | cli/vendored/lua-5.4.7/lgc.c:403-409 | A cycle starts from the roots: what it may keep is exactly what can be reached. |
| Collector.GlobalState.FreeObj | cli/vendored/lua-5.4.7/lgc.c:772-817 | Freeing an object, a thread with its open upvalues closed first, takes nothing from what lives. |
| Heap.SuccMeans | cli/vendored/lua-5.4.7/lgc.c:629-641 | What an object refers to, place by place: an open upvalue to what is in its slot, anything else to what it holds, a thread to its open upvalues too. |
| Program.LookMore | cli/vendored/lua-5.4.7/lgc.c:1585-1645 | What the program can name: the running and the main thread, the registry, the metatables of types, and what is in the slots of what it can name. |
| Mutation.StorableTyped | cli/vendored/lua-5.4.7/lgc.h:175-187 | A store is one that the model allows if and only if it leaves the graph well typed. |
| Mutation.PutReads | cli/vendored/lua-5.4.7/lgc.h:175-187 | After a store the object stored is read at that place, and everywhere else what was read before. |
| Freeing.SeenReads | cli/vendored/lua-5.4.7/lfunc.c:193-207 | Objects that look the same are the same, and through upvalues that look the same the same value is read, open or closed. |
| Mutator.Barrier | cli/vendored/lua-5.4.7/lgc.c:208-224 | While marking, the barrier marks the object stored and only marks; while sweeping, the object written turns white and nothing else changes; either way the invariant that the store suspended holds again. |
| Mutator.BarrierBack | cli/vendored/lua-5.4.7/lgc.c:230-240 | The object written turns gray and is listed to be visited again, nothing else changes, and the invariant holds again. |
| Mutator.SetField | cli/vendored/lua-5.4.7/lgc.h:175-187 | A store with either barrier puts the value and keeps the invariant in every phase. |
| Mutator.SetUpvalue | cli/vendored/lua-5.4.7/lvm.c:1242-1248 | Writing an upvalue writes the slot while it is open, though its thread may be dead, and the upvalue when closed; either way the value is seen through it. |
| Allocation.New | cli/vendored/lua-5.4.7/lgc.c:258-275 | A new object has the current white, is at the head of its list, and the cursor of a sweep stays right. |
| Allocation.FindUpvalue | cli/vendored/lua-5.4.7/lfunc.c:87-100 | A slot has one open upvalue, an old one or a new one; a thread that got its first is listed. |
| Allocation.CloseUpvalue | cli/vendored/lua-5.4.7/lfunc.c:193-207 | Closing keeps what is seen through the upvalue and the invariant, with a barrier if it was marked. |
| Finalizers.CheckFinalizer | cli/vendored/lua-5.4.7/lgc.c:1019-1043 | An object that gets a finalizer changes lists, swept ahead of its turn, the cursor moved past it; nothing reachable is touched. |
| Finalizers.CallFinalizer | cli/vendored/lua-5.4.7/lgc.c:907-932 | The first object that is due leaves the queue, becomes ordinary again and is handed to the program. |
| Ephemerons.State.ConvergeEphemerons | cli/vendored/lua-5.4.7/lgc.c:691-710 | It ends, and the marked objects are the least set that contains those marked before and is closed under strong references and under values of ephemeron tables whose keys it contains. |
| Ephemerons.ClosedMeans | cli/vendored/lua-5.4.7/lgc.c:480-520 | What the least set is closed under, entry by entry: keys that are not collectable or strings keep their values, any other key if it is in the set. |
| Ephemerons.State.Round | cli/vendored/lua-5.4.7/lgc.c:695-708 | A round that changes anything marks a white object; one that does not leaves every table in order. |
| Ephemerons.State.TraverseEphemeron | cli/vendored/lua-5.4.7/lgc.c:480-520 | A visited table has the values of marked keys marked, in either direction of the traversal, and goes to the list that it needs. |
| GenProgram.Run | cli/vendored/lua-5.4.7/lgc.c:1251-1284 | Every run with any number of young collections, up to the first store that escapes the barriers, with its history: at every moment what can be reached is there; each collection frees exactly what can be reached neither from the roots nor from what is not white, and says what will not be white for the next; in the end old objects refer to old objects only. |
| GenProgram.Do | cli/vendored/lua-5.4.7/lgc.c:208-240 | One action keeps the invariant if and only if it is not a store that escapes, and changes the program's view exactly by what it says. A collection keeps exactly what can be reached from the roots and from what is not white, each kept object is one collection older, and white only if it was new. |
| GenProgram.Unreferenced | cli/vendored/lua-5.4.7/lgc.c:1129-1133 | What is no root, is white and is referred to by nothing is freed by the next young collection. |
| Generations.GenState.AtomicStep | cli/vendored/lua-5.4.7/lgc.c:1525-1565 | All roots are marked, and all that is marked can be reached from the roots and from what was marked before. |
| YoungMarking.SpreadsAll | cli/vendored/lua-5.4.7/lgc.c:1525-1565 | A marking that contains the roots, is closed, and only spreads from them marks exactly what can be reached from the roots and from what was marked. |
| YoungSweep.RunOlder | cli/vendored/lua-5.4.7/lgc.c:1115-1148 | The age of every object that a young collection keeps, by its age before, and which are white after it. |
| Generations.GenState.YoungCollection | cli/vendored/lua-5.4.7/lgc.c:1251-1284 | It keeps exactly what can be reached from the roots and from what was not white, though it sweeps the two young segments only; it keeps all invariants, advances the segments by one, and every age by one; just what was new is white again. |
| Generations.GenState.OldToOld | cli/vendored/lua-5.4.7/lgc.h:105-121 | An old object that is no thread refers to old objects only. |
| Generations.GenState.Store | cli/vendored/lua-5.4.7/lgc.c:208-240 | A store with its barrier keeps the invariant if and only if it does not escape: no black old object gets a marked object too young for it. |
| Generations.EscapingRun | cli/vendored/lua-5.4.7/lapi.c:1453-1461 | A run in which a store does escape: an old object ends up referring to a new one that no barrier saw. |
| Generations.GenState.constructor | cli/vendored/lua-5.4.7/lgc.c:1292-1312 | Entering the mode after a marking frees what is white and makes all the rest old. |
| Generations.GenState.SweepGen | cli/vendored/lua-5.4.7/lgc.c:1115-1148 | White objects of the segment are freed, the others advance in age, new ones turn white. |
| Generations.GenState.CorrectGrayList | cli/vendored/lua-5.4.7/lgc.c:1172-1200 | Touched objects advance, leave or stay in the list for the next collection; threads always stay. |
| Generations.GenState.MarkOld | cli/vendored/lua-5.4.7/lgc.c:1221-1231 | Objects that were old for one cycle are visited again and are old from now on. |
| Ages.ForwardStore | cli/vendored/lua-5.4.7/lgc.c:208-219 | After the forward barrier the ages and colours of the whole graph are again as they must be. |
| Ages.BackStore | cli/vendored/lua-5.4.7/lgc.c:230-240 | After the back barrier the object waits, touched, and the graph is as it must be. |
| LineInfo.GetFuncLine | cli/vendored/lua-5.4.7/ldebug.c:83-95 | For every instruction it finds the line saved last for it. |
| LineInfo.GetBaseLine | cli/vendored/lua-5.4.7/ldebug.c:60-75 | It finds the last absolute entry that is not past the instruction. |
| LineInfo.EstimateBelow | cli/vendored/lua-5.4.7/ldebug.c:66-70 | The first guess is always a lower bound. |
| LineInfo.CollectValidLines | cli/vendored/lua-5.4.7/ldebug.c:290-318 | The lines found are exactly those with an instruction, the first of a vararg function left out. |
| LineInfo.ChangedLine | cli/vendored/lua-5.4.7/ldebug.c:864-882 | It says whether the two instructions are in different lines, whichever of its two ways it takes. |
| LineInfo.DescribesBytes | cli/vendored/lua-5.4.7/lcode.c:329-346 | Every entry fits a signed byte, and any but -128 is the difference from the line before. |
| LineInfo.FuncState.SaveLineInfo | cli/vendored/lua-5.4.7/lcode.c:329-346 | Saving a line extends the description of the lines by one; the entry is absolute exactly if the difference does not fit a byte or 128 instructions have gone by. |
| LineInfo.FuncState.RemoveLastLineInfo | cli/vendored/lua-5.4.7/lcode.c:353-365 | Removing undoes the last save, absolute entry and counter included. |
| LineInfo.FuncState.FixLine | cli/vendored/lua-5.4.7/lcode.c:1786-1789 | Only the last instruction's line changes. |
| LineInfo.FuncState.CloseFunc | cli/vendored/lua-5.4.7/lparser.c:756-776 | The finished function decodes to the lines that were saved. |
| LexerAgreement.BlockAgrees | tree-sitter-cook/src/scanner.c:151-240 | Wherever the Lua lexer accepts the text up to the brace that closes the block, the scanner stops at that very brace, and on text without it both end alike, if every comment on the way is one on which both agree. |
| LexerAgreement.StatementAgrees | tree-sitter-cook/src/scanner.c:894-986 | The same of the line feed that ends a module call. |
| LexerAgreement.CommentAgrees | tree-sitter-cook/src/scanner.c:207-229 | Both end a comment at the same place if and only if no carriage return without a line feed beside it ends it. |
| LexerAgreement.PlainLines | tree-sitter-cook/src/scanner.c:223-226 | Text in which every carriage return has a line feed behind it satisfies the condition everywhere. |
| LexerAgreement.BareReturn | tree-sitter-cook/src/scanner.c:223-226 | A text on which they disagree. |
| LexerAgreement.StringAgrees | cli/vendored/lua-5.4.7/llex.c:382-435 | Both see the same end of a quoted string that the lexer accepts, escapes included. |
| Scanner.Lexer.ScanLuaBlockContent | tree-sitter-cook/src/scanner.c:151-240 | The cursor loop computes the specification of where a block ends. |
| Scanner.Lexer.ScanModuleCallTail | tree-sitter-cook/src/scanner.c:894-986 | The cursor loop with its two string flags computes the specification of where a statement ends. |
| Scanner.Lexer.SkipLongStringBody | tree-sitter-cook/src/scanner.c:130-149 | It stops behind the first closing bracket of the level. |
| Scanner.Lexer.TryLongStringOpener | tree-sitter-cook/src/scanner.c:114-125 | It finds the level, or leaves just the bracket and the equals signs consumed. |
| Llex.LexState.Lex | cli/vendored/lua-5.4.7/llex.c:445-562 | From any position the lexer finds the first token behind white space and comments, the end if there is none, and an error just where neither a blank nor a token begins: tokens are the longest names, numerals, strings and operators as the manual lists them. |
| Lexemes.NextTokenMeans | cli/vendored/lua-5.4.7/llex.c:445-562 | What the next token is, without the lexer's arms: the first token behind blanks. |
| Lexemes.StepMeans | cli/vendored/lua-5.4.7/llex.c:445-562 | Both ways: one round skips to `e` if and only if a blank from there ends at `e`, and finds a token that ends at `e` if and only if one does. |
| Lexemes.OperatorMeans | cli/vendored/lua-5.4.7/llex.c:486-532 | A token that is no name, numeral or string is the longest member of the manual's list of operators that begins there, or one character with which none begins. |
| Lexemes.StringEndMeans | cli/vendored/lua-5.4.7/llex.c:382-435 | A quoted string is accepted, up to its end, if and only if it is characters and escapes of the grammar up to the first quote that is in no escape. |
| Lexemes.EscapeMeans | cli/vendored/lua-5.4.7/llex.c:394-428 | Both ways, the grammar of escapes: letters and quotes, two hexadecimal digits, code points below 2^31, line breaks, white space, up to three decimal digits whose value is at most 255. |
| Lexemes.NumEndMeans | cli/vendored/lua-5.4.7/llex.c:227-246 | A numeral extends as far as some text from its start has the pattern of numerals. |
| Lexemes.LongCloseMeans | cli/vendored/lua-5.4.7/llex.c:280-316 | Both ways: a long bracket ends at the first closing bracket of its level. |
| Lexemes.CommentMeans | cli/vendored/lua-5.4.7/llex.c:454-472 | Both ways: a comment is a long bracket behind `--`, or the rest of the line. |
| Llex.LexState.ReadString | cli/vendored/lua-5.4.7/llex.c:382-435 | Quoted strings with all their escapes end where the specification says. |
| Llex.LexState.ReadLongString | cli/vendored/lua-5.4.7/llex.c:280-316 | Long brackets end at the closing bracket of their own level. |
| Llex.LexState.SkipSep | cli/vendored/lua-5.4.7/llex.c:265-277 | The number of equals signs and whether a bracket follows. |
| UsePath.AcceptsPaths | tree-sitter-cook/src/parser.c:1511-1717 | The automaton accepts a text if and only if it is a path: allowed characters, no slash first, no `..` segment, ending in `.lua`. |
| UsePath.AcceptsNames | tree-sitter-cook/src/parser.c:1511-1717 | It ends in the name's state if and only if the text is a name. |
| UsePath.RunAgrees | tree-sitter-cook/src/parser.c:1643-1717 | After every prefix the state of the automaton says exactly how the prefix ends. |
| UsePath.PathIsBody | tree-sitter-cook/grammar.js:7-38 | Every such path is in the language of the regular expression of the grammar. |
| UsePath.BodyIsPath | tree-sitter-cook/grammar.js:7-38 | And every text in that language is such a path. |
| UsePath.Lex | tree-sitter-cook/src/parser.c:1511-1717 | Behind white space it finds the longest path or name, if there is one. |
| Upvalues.LuaState.FindUpval | cli/vendored/lua-5.4.7/lfunc.c:87-100 | One upvalue a slot, whoever asks; it refers to the slot's variable, and no other upvalue does. |
| Upvalues.LuaState.CloseUpval | cli/vendored/lua-5.4.7/lfunc.c:193-207 | It closes exactly the upvalues from the level up; every upvalue still refers to its variable and every variable keeps its value. |
| Upvalues.LuaState.SetUpval | cli/vendored/lua-5.4.7/lvm.c:1242-1248 | Writing through an upvalue assigns to its variable, seen by all that share it, slot included. |
| Upvalues.LuaState.GetUpval | cli/vendored/lua-5.4.7/lvm.c:1236-1241 | Reading gives the variable's value, open or closed. |
| Upvalues.LuaState.UnlinkUpval | cli/vendored/lua-5.4.7/lfunc.c:182-187 | Unlinking mends both neighbours. |
| ToBeClosed.LuaState.NewTbc | cli/vendored/lua-5.4.7/lfunc.c:168-179 | A level is pushed, over dummies where the distance is too great; dummies stand a whole number of greatest distances above the old head, and nothing else is written. |
| ToBeClosed.LuaState.PopTbc | cli/vendored/lua-5.4.7/lfunc.c:213-220 | It pops the last level; dummies are never seen. |
| ToBeClosed.LuaState.Close | cli/vendored/lua-5.4.7/lfunc.c:227-238 | The variables from a level up are closed, the last first, and no others. |
| ToBeClosed.RepresentsOne | cli/vendored/lua-5.4.7/lobject.h:139-155 | A list of deltas represents one stack of levels only. |
| Chunk.FunctionLoads | cli/vendored/lua-5.4.7/lundump.c:258-272 | A function with all inside it is read back as it was written, and the bytes behind it are untouched; reading fails if and only if one of its numbers is too near the limit. |
| Chunk.UniquelyDecodable | cli/vendored/lua-5.4.7/ldump.c:183-198 | Functions whose bytes begin the same text are read back as the same function, whatever their numbers: no function's bytes begin another's. |
| Chunk.NothingLost | cli/vendored/lua-5.4.7/ldump.c:183-198 | Not stripped, functions with the same bytes are the same but for the names of their sources. |
| Chunk.SizeLoads | cli/vendored/lua-5.4.7/lundump.c:69-90 | A number is read back if and only if it is below the limit by enough. |
| Chunk.WhatFits | cli/vendored/lua-5.4.7/lundump.c:69-90 | What fits the limits of `int` and of `size_t`, for every number. |
| Chunk.IntLoads | cli/vendored/lua-5.4.7/lundump.c:88-90 | An `int` is read back if and only if it is not one of the last 128; those are refused. |
| Chunk.HeldStringLoads | cli/vendored/lua-5.4.7/lundump.c:110-130 | Every string that Lua can hold is read back. |
| Chunk.LateFunction | cli/vendored/lua-5.4.7/lundump.c:258-263 | A function of one line can be dumped from any line that a source can have, and loaded if and only if it does not stand in one of the last 127 of them. |
| Chunk.SizePrefixFree | cli/vendored/lua-5.4.7/ldump.c:65-74 | No number's bytes begin another's. |
| Dump.DumpState.DumpSize | cli/vendored/lua-5.4.7/ldump.c:65-74 | Filling the buffer from its end gives the groups of the number, and the buffer is long enough. |
| Format.SizeMeans | cli/vendored/lua-5.4.7/ldump.c:65-74 | A number's bytes are as few groups of seven bits as it needs, the highest first, with only the last one marked, and stand for the number. |
| Format.SizeUnique | cli/vendored/lua-5.4.7/ldump.c:65-74 | Any bytes of this form are the bytes of the number that they stand for. |
| Format.ConstantMeans | cli/vendored/lua-5.4.7/ldump.c:112-135 | A constant's first byte is its type and 16 times its variant, by the numbers of the header files; what follows is said too. |
| Format.OneFunction | cli/vendored/lua-5.4.7/ldump.c:183-198 | A function with one thing of each sort in it, byte by byte: the order of all parts and fields. |
| Format.StrippedSame | cli/vendored/lua-5.4.7/ldump.c:158-181 | Stripped functions have the same bytes if and only if they are the same but for sources, lines and names. |
| Dump.DumpState.DumpConstant | cli/vendored/lua-5.4.7/ldump.c:112-135 | The bytes of one constant, the first of them its type and 16 times its variant. |
| Dump.DumpState.DumpFunction | cli/vendored/lua-5.4.7/ldump.c:183-198 | What comes out is the encoding of the function, all of it or a prefix when the writer fails. |
| Dump.DumpState.Dump | cli/vendored/lua-5.4.7/ldump.c:217-229 | The same of the whole chunk. |
| Random.PairNextRand | cli/vendored/lua-5.4.7/lmathlib.c:456-475 | The generator on pairs of 32-bit words takes the same step and gives the same number as the one on 64-bit words, from every state. |
| Random.PairSetSeed | cli/vendored/lua-5.4.7/lmathlib.c:609-621 | Seeding it is the same too. |
| Random.NextRand | cli/vendored/lua-5.4.7/lmathlib.c:320-331 | The 64-bit version computes the step and the scrambled output. |
| Random.NeverZero | cli/vendored/lua-5.4.7/lmathlib.c:609-621 | From no seed does a run of any length reach the zero state. |
| Random.NextUndone | cli/vendored/lua-5.4.7/lmathlib.c:320-331 | Every step can be undone, so the step is injective. |
| Random.ScrambleUndone | cli/vendored/lua-5.4.7/lmathlib.c:316-331 | The output is a permutation of the 64-bit integers, with the inverse stated. |
| Random.FirstOutputs | cli/vendored/lua-5.4.7/lmathlib.c:316-331 | The first outputs from the state 1, 2, 3, 4. |
| Utf8.Known | cli/vendored/lua-5.4.7/lobject.c:323-338 | Encodings of three, four, five and six bytes, written out. |
| Utf8.Utf8Esc | cli/vendored/lua-5.4.7/lobject.c:323-338 | The encoding fits the buffer, ends at its end and leaves the rest alone. |
| Utf8.Encoded | cli/vendored/lua-5.4.7/lobject.c:323-338 | The encoding announces its own length and holds the value. |
| Utf8.Decoded | cli/vendored/lua-5.4.7/lutf8lib.c:61-89 | Bytes that announce their length and need it are the encoding of what they hold. |
| Utf8.PrefixFree | cli/vendored/lua-5.4.7/lobject.c:323-338 | No encoding begins another, so encodings are injective. |
| Utf8.Utf8Decode | cli/vendored/lua-5.4.7/lutf8lib.c:61-89 | It finds the value whose encoding stands at the start of the text, and fails if and only if there is none. |

## Left out

Code generator:
- Floating-point constants, arithmetic, bitwise and concatenation operators, constant folding, calls, varargs, table access
  and compile-time constants (`VCONST`); statements other than an assignment to a local variable.
- Tokens and precedence: `CodeGen.FuncState.SubExpr` is driven by an expression tree in the order in which the parser calls
  the generator.
- Metamethods of comparisons have no side effects here: they are functions of the two values, in `Env`.
- Expression descriptors are passed and returned as values; in the source they are updated through pointers.
- CodeGen.Compile: does not say that it fails only when it has to; the bounds on size and depth are sufficient, not exact.
- Line information is saved by `LineInfo.dfy` on its own, not together with the code.

Garbage collector:
- When a step happens (debts, pauses, step sizes), emergency collections, closing the state, memory errors.
- Weak values and `allweak` lists, ephemerons in the incremental model, and clearing keys and values after the atomic step;
  `Ephemerons.dfy` has the convergence on its own, with strong objects and ephemeron tables only, and no dead keys.
- The order in which references of one object are traversed is left open; `luaC_fix` after the start.
- What freeing an object does beyond closing the upvalues of a thread: memory and the table of strings.
- Mutator.Barrier: does not say which objects it marks besides the one stored.
- Collector.GlobalState.AtomicStep: does not converge ephemeron tables nor clear weak ones.
- Cycle.SingleStep: does not call more than one finalizer at a time, where the source may call ten.
- Generations.GenState.YoungCollection: does not model open upvalues, weak tables or objects with finalizers.
- GenProgram.Run: does not model open upvalues, weak tables or objects with finalizers, so that `remarkupvals` and the other
  lists do not occur in the generational mode; nor does it go on after a store that escapes.
- Generations.EscapingRun: does not follow the run up to the point where an object is freed too early.
- Going back from the generational to the incremental mode, major collections and bad collections.

Line information:
- Two removals without a save between them, which the code never does.

Lexers:
- The values of tokens, the buffer and its limit, line numbers, and what makes a numeral malformed beyond touching a letter
  or ending with a sign.
- The scanner's text is a sequence of characters, Lua's of bytes; the theorems are about texts of characters.
- LexerAgreement.BlockAgrees: does not say anything of texts that the Lua lexer refuses.
- `scan_lua_source_until_toplevel`, the shell scanner and here-documents.
- UsePath.AcceptsPaths: does not count NUL and the code points 0x17F and 0x212A among the characters of a path, because the
  generated automaton does not; white space in the grammar's expression is the six characters of ASCII.

Upvalues:
- Upvalues are records in a map, the two uses of the union in them are separate fields, and the stack does not move.
- ToBeClosed.LuaState.Close: does not call the closing methods; which levels it would call them for is what it returns.

Chunks:
- The bytes of the header are given, and numbers are bytes already, so that their endianness does not occur.
- The loader (lundump.c) is a set of functions on byte sequences, since it is here to check the writer.
- The writer may take any part of a block when it fails.

Arithmetic:
- Converting random numbers to floats, and `project`, whose loop ends with probability one only.
- The `|` of words with no common bit is a sum.
- Encoding of surrogates and the strict mode of `utf8_decode`.
