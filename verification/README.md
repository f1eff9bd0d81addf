# protoClojure: proofs about the compiler, the VM and the runtime around them

protoClojure reads Clojure forms, compiles each to a flat bytecode module and runs it on a stack VM with lexical
closures, `loop`/`recur` and `try`/`catch`/`finally`. Around the VM stand an actor scheduler, a window of slots that
keeps C++ values alive across collections, and text codecs. This project models these parts and proves what the rest of
the program relies on. `dafny verify dfyconfig.toml` checks it all.

## What is modelled

**Compiler and VM.** `Syntax` has the macro-expanded forms, `Evaluator` says what they mean (environments, `recur` as
simultaneous rebinding, handlers as structured outcomes, a fuel that only bounds calls and rounds). `Codegen.Compile` is
the code each form gets, with its scopes (`Scoping`), captures and patched jumps; `Vm` is the machine: operand stack,
slots, handler stack, the exceptions catch slots hold, and the native recursion of calls as a list of suspended frames.
`Placement` says how a form's code is made of its parts' code; `Simulation` proves by induction on fuel and form that
the VM does what the evaluator says, wherever the form's code stands, and `Correctness` draws the conclusions for whole
programs, `FnCalls` those about single calls: how many parameters are bound, and to what. `Assembler`, `FormCompiler`
and `ClearingPass` are the imperative compiler: a class that appends packed words, pools constants, patches operands and
undoes bindings; its methods are proved to emit exactly what `Codegen` and `LastReads` say.

**Stack bound.** `StackDepth` is the worklist analysis that sizes a frame's stack, `StackExact` proves that it counts
nothing the VM does not do, `StackBound` proves the VM stays within any bound of that kind, `CompiledDepth` that every
instruction of compiled code has one depth, and `DepthLimit` exactly which forms have a bound at all.

**Clearing locals.** `LastReads` is the rewrite of last reads; `Layout` describes how compiled code binds, reads and
rebinds slots, `Clearing` where a slot is dead; `Lockstep` proves that the rewrite changes no run.

**Debugger.** `DebuggerScan` is the scan that tells, when something is thrown, whether a frame will catch it, proved
against what dispatching the exception does; `CompiledHandlers` and `CompiledScan` that compiled frames only have
handlers it can read, and that dispatching there always gets to an answer.

**Rewrites before the compiler.** `Destructuring`/`Rewriter` flatten `let` patterns, `SyntaxQuote` expands templates;
`Forms` evaluates what they produce. `Hygiene` marks each flat binding as the program's or the rewrite's;
`DestructuringProof` proves that the bindings mean what the patterns do when the two kinds of names are kept apart, and
`Capture` says exactly when keeping them together changes nothing. `Patterns` and `Templates` say what the common
patterns and templates give, key by key and element by element.

**Actors.** One transition for each access to shared state (push, claim, enqueue, pop, the three takes, each handler,
release, the three looks, the second claim, the choice of band, requeue), in any interleaving. `ActorQueues` says whom a
worker serves next.

**Rooting.** `Rooting` is one thread's frames, windows and primitive scopes with a heap, where a collection may free
whatever no frame, traced slot, young chain or published value reaches. `PrimitiveScopes` and `ListBuilding` are the
classes over it; `Submissions` says exactly when young cells are handed over.

**Codecs.** `Literals` and `StringLexer` (escapes, UTF-8, surrogate pairs, the disassembler's printer), `StreamFilter`
(the debugger's stream pump); `Escapes` and `Marks` say byte by byte what they read and take out.

## What the results assume

- `PrimsAgree`: what the model does not contain (primitives, keywords and collections in call position, class tests,
  translation of foreign errors) does the same on related values. `PrimsBlind`: primitives do not look inside a
  function's code. `Correctness.ListsAgree` and `Pipeline.ListsBlind` give primitives for which both hold. Primitives are
  functions of their arguments: they neither call closures back nor store globals.
- `Accepted`: the compiler takes the form (`Check`) and no reachable `recur` has operands pending (`Level`). The compiler
  checks `recur` for arity and for crossing a `try` only, although its jump is right just where nothing is pending:
  `(loop [x true] (f (recur x)))` is compiled, and each round leaves one more value on the stack
  (`Counterexamples.RecurInArgumentGrowsStack`). `DepthLimit.DepthsExist` proves that `Level` is the exact condition.
- A top-level `let`, `loop` or `try` means a call of a fn of no parameters with it as its body, as the compiler takes it
  (`Syntax.AtTop`); a `recur` outside any loop in it is one to that fn.
- `Respects` (`Forms`): the value of a form of the program depends on the names it mentions only.
- Interleavings of the actor scheduler are sequentially consistent.

Where the code and its comments differ, the model follows the code: `src/runtime/BytecodeModule.cpp:168-171` calls the
stack analysis an upper bound for any finished code, which a handler target past the end of the code breaks
(`Counterexamples.HandlerPastEnd`; compiled code has no such target). Destructuring's generated names are ordinary
symbols a program may spell, and one that does can get another value than its pattern says (`Capture.CapturedName`);
`Capture.Safe` is the condition, a scan of the flat bindings. The debugger's scan gives up after 4096 clauses, so it
says that a `try` with that many catches whatever is thrown (`CompiledHandlers.ClausesAnswered`). And
`src/runtime/ExecutionEngine.cpp:100-101` calls a stale redefinition bit harmless: after `(def clojure.core/+ f)`,
`(def + f)` leaves the bit clear and the opcode computes as the built-in (`Operators.CoreRedefined`);
`Operators.OpcodeIsCall` has the exact condition.

## Model

| member | source | states |
|---|---|---|
| Correctness.TopLevel | src/compiler/Compiler.cpp:1737-2205 | for every accepted form, every globals and fuel: the compiled form, run from the start, ends as the evaluator says (same value, or the same uncaught exception, with related globals), and if the evaluator is out of fuel the VM has run at least that long |
| Correctness.OnlyEnd | src/runtime/ExecutionEngine.cpp:1129-1425 | the converse: any final state the VM reaches is one the evaluator gives with some fuel, and is never a fault (a slot or jump out of range) |
| Correctness.Program | src/runtime/ExecutionEngine.cpp:717-743 | running the compiled forms of a program one by one, each in the globals the last one left, ends as evaluating them in order does, up to the first uncaught exception |
| Correctness.ListsAgree | src/runtime/ExecutionEngine.cpp:869-900 | the assumption about primitives can be met: there are primitives over lists that agree on all related values |
| FnCalls.ClosureCalled | src/runtime/ExecutionEngine.cpp:962-983 | a fn of n parameters called with n values is its body run with each parameter bound to its value, for n up to 17; 18 or more, and another number of values, are the errors |
| FnCalls.FnCalled | src/runtime/ExecutionEngine.cpp:785-826 | the CALL of a compiled fn: a fresh frame whose slots hold the arguments, the captures and nil, with the stack below the call left to the caller; the same two errors |
| FnCalls.ParametersArrive | src/runtime/ExecutionEngine.cpp:52 | from the form to the end of the run: `((fn [p ...] p) c ...)` ends in exactly the constant its parameter stands for, with 18 parameters or more in the error |
| FnCalls.PlainResult | src/runtime/ExecutionEngine.cpp:1129-1425 | a form whose value holds no function ends in exactly that value |
| Simulation.Sim | src/compiler/Compiler.cpp:1737-2205 | wherever a form's code stands in a frame: the run from its start reaches its end with the value pushed once on an untouched stack, or the recur target with the new values in the loop's slots, or raises the evaluator's exception, keeping outer slots, handlers and callers |
| Simulation.SimLet | src/compiler/Compiler.cpp:1564-1634 | `let` binds in sequence, each name visible to later initialisers and the body only |
| Simulation.SimLoop | src/compiler/Compiler.cpp:1635-1735 | `loop` evaluates its initialisers in order and runs its body as often as the evaluator does |
| Simulation.SimRounds | src/runtime/ExecutionEngine.cpp:1402-1413 | every JUMP_BACK arrives at the loop head with the stack it started from and the slots holding the next round's bindings |
| Simulation.SimRecur | src/compiler/Compiler.cpp:2044-2081 | `recur` rebinds all loop locals at once, from values computed before any is stored |
| Simulation.SimCall | src/compiler/Compiler.cpp:2146-2204 | head, then arguments left to right, then the call; the first exception among them is the call's |
| Simulation.SimEnter | src/runtime/ExecutionEngine.cpp:785-826 | a call of a compiled closure, run in a fresh frame, returns or raises what applying the evaluator's closure does |
| Runs.SimFn | src/runtime/ExecutionEngine.cpp:1190-1234 | MAKE_FN after its captures were pushed leaves a function related to the evaluator's closure over the whole environment |
| Frames.CalleeLocals | src/runtime/ExecutionEngine.cpp:785-826 | once parameters and captures are written, each slot holds the value of the innermost binding of its name where the closure was made, parameters shadowing |
| Runs.RebindLocals | src/compiler/Compiler.cpp:2063-2069 | storing the new values from last to first leaves the slots holding the environment with all names rebound |
| Scoping.ResolveGrows | src/compiler/Compiler.cpp:1225-1261 | `resolveLocal` answers the slot of the name in the innermost scope of the scopes it leaves; those are well formed and differ by captures only, each taken from the scope just outside |
| Scoping.ResolveBound | src/compiler/Compiler.cpp:1225-1261 | it answers a slot exactly when some scope binds the name |
| ScopingProof.CompileGrows | src/compiler/Compiler.h:277-298 | compiling any form leaves the names and slots of every enclosing scope as they were, but for captures added |
| Simulation.SimCatches | src/compiler/Compiler.cpp:1119-1170 | a body under a catch handler: a normal value is the value, an exception goes to the clauses with handlers and stack restored |
| Simulation.SimClauses | src/compiler/Compiler.cpp:1138-1168 | the first clause in source order whose class matches runs, with the exception bound in its body only; if none does the very exception caught leaves |
| Simulation.SimFinally | src/compiler/Compiler.cpp:1172-1182 | `finally` runs once on each way out, outside its own handler, and its exception replaces the one in flight |
| Simulation.SimRaisingExit | src/compiler/Compiler.cpp:1176-1181 | after the forms of a `finally` entered by an exception, that exception is raised again |
| Handlers.Take | src/runtime/ExecutionEngine.cpp:1739-1772 | an exception that leaves guarded code arrives at the handler with the stack of its TRY_BEGIN, the outer handlers and the exception kept in the catch slot |
| Handlers.Again | src/runtime/ExecutionEngine.cpp:1659-1665 | RETHROW raises the exception kept in the slot, or the value of a translated foreign one |
| Lifting.CompileAtTop | src/compiler/Compiler.cpp:1350-1365 | a top-level form that needs slots compiles to the code of the call `((fn [] form))` |
| Leaving.ValLeaves | src/compiler/Compiler.cpp:2044-2080 | a form that the analysis says never completes never evaluates to a value: the code after it is dead |
| StackDepth.ComputeMaxStack | src/runtime/BytecodeModule.cpp:188-258 | when the code has a bound, the worklist ends, and gives the least depths consistent with the code and the deepest point they reach |
| StackDepth.Analysed | src/runtime/BytecodeModule.cpp:200-257 | and only then: whenever the worklist is empty its depths are consistent, so on code without a bound it never is |
| StackExact.PeakExact | src/runtime/BytecodeModule.cpp:200-257 | the peak counted for an instruction is the depth before it or after it when the VM runs it, whichever is more |
| StackExact.EdgeTaken | src/runtime/BytecodeModule.cpp:200-257 | every successor and depth the analysis follows is one that some frame of that depth takes |
| StackBound.StackBounded | src/runtime/ExecutionEngine.cpp:837-852 | from any state within the bounds, every run of every module keeps each frame's stack within its bound, exceptions included |
| DepthLimit.DepthsExist | src/compiler/Compiler.cpp:2044-2081 | for every form the compiler takes: its module and every body in it have stack bounds if and only if no reachable `recur` has operands pending |
| CompiledDepth.AcceptedExact | src/runtime/BytecodeModule.cpp:168-187 | in an accepted form's module and every body in it each instruction has one depth, the same along every path |
| CompiledDepth.OneDepth | src/runtime/BytecodeModule.cpp:188-258 | the least consistent depths are that one depth, on every instruction they reach |
| CompiledDepth.CompiledStack | src/runtime/BytecodeModule.cpp:188-258 | the worklist run on such a body gives its exact depths and the deepest point |
| BoundedRuns.FramesBounded | src/runtime/ExecutionEngine.cpp:837-852 | in every state reached from a cleared top-level module, every frame, running or suspended, has at most the stack that any bound of its body says |
| BoundedRuns.ClearedBodiesExact | src/compiler/Compiler.cpp:476-512 | clearing keeps the exact depths of every body |
| Counterexamples.RecurInArgumentGrowsStack | src/compiler/Compiler.cpp:2044-2081 | a `recur` in an argument: back at the loop head the stack is one deeper each round, for any number of rounds |
| Counterexamples.NoBoundForRecurInArgument | src/runtime/BytecodeModule.cpp:188-258 | that body has no consistent depths at all, so the worklist has no fixpoint |
| Counterexamples.RecurArgumentNotLevel | src/compiler/Compiler.cpp:2045-2058 | the compiler's checks pass on it and the exact condition does not |
| Counterexamples.RecurBeforeTheEnd | src/compiler/Compiler.cpp:2045-2058 | a `recur` outside tail position with nothing pending meets the exact condition |
| Counterexamples.HandlerPastEnd | src/runtime/BytecodeModule.cpp:188-258 | in hand-made code with a handler target past the end, whose consistent depths say that no room is needed, every frame comes to hold a value |
| LayoutProof.MadeLaid | src/compiler/Compiler.cpp:1564-1735 | every compiled body is laid out as clearing needs: each slot stored before it is read, in one stretch entered through its store, re-entered only by a recur that stores it or a loop that does not bind it, handlers active only inside their `try` |
| Lockstep.StepTwin | src/runtime/ExecutionEngine.cpp:1170-1189 | one step on compiled code and one on its cleared form keep values, handlers and control the same, up to slots that are stored again before any read |
| Lockstep.ClearingKeepsRuns | src/compiler/Compiler.cpp:476-512 | for every form the compiler takes, after any number of steps the cleared module is in the state of the uncleared one but for dead slots, so every result is the same |
| ClearingPass.ClearLastReads | src/compiler/Compiler.cpp:476-512 | the pass over a finished module turns exactly the eligible reads into clearing ones |
| LastReads.ReadCleared | src/compiler/Compiler.cpp:476-512 | exactly which reads clear their slot: the only read of a parameter or stored local that no capture and no catch clause uses, unless a loop over it stores the slot nowhere |
| Pipeline.ClearedTopLevel | src/compiler/Compiler.cpp:978-991 | the module as it is run, cleared, ends as the evaluator says |
| Pipeline.CompileTopLevel | src/compiler/Compiler.cpp:1737-2205 | the whole imperative compiler: the first error of the form, or a block of words that decodes to the cleared module of the form |
| Pipeline.ListsBlind | src/runtime/ExecutionEngine.cpp:869-900 | the second assumption about primitives can be met |
| FormCompiler.Compiler.CompileForm | src/compiler/Compiler.cpp:1737-2205 | emits exactly the specified code after what was there, leaves the scopes specified, or reports the error the form has |
| FormCompiler.Compiler.ResolveLocal | src/compiler/Compiler.cpp:1225-1261 | the two loops over the scope stack give the slot and the captures that resolving outwards scope by scope gives |
| FormCompiler.Compiler.CompileIf | src/compiler/Compiler.cpp:1839-1882 | a literal test picks its branch at compile time; otherwise both jumps are patched to land where each branch ends |
| Codegen.LiteralDecided | src/compiler/Compiler.cpp:1839-1882 | a literal test leaves only the branch it selects, nil and false the else branch: the other one is neither compiled nor checked |
| FormCompiler.Compiler.CompileAndOr | src/compiler/Compiler.cpp:1887-1925 | all short-circuit jumps are patched to the common end |
| FormCompiler.Compiler.CompileLetForm | src/compiler/Compiler.cpp:1564-1634 | binds in order and undoes the bindings in reverse, also when a name is bound twice |
| FormCompiler.Compiler.UnbindAll | src/compiler/Compiler.h:290-297 | undoing the saved slots in reverse order restores what each name meant before the form |
| FormCompiler.Compiler.CompileLoopForm | src/compiler/Compiler.cpp:1635-1735 | as `let`, with a recur target that is gone when the loop is compiled |
| FormCompiler.Compiler.CompileRecur | src/compiler/Compiler.cpp:2044-2081 | the checks in the source's order, the arguments, the stores from last to first, the jump back |
| FormCompiler.Compiler.CompileFnForm | src/compiler/Compiler.cpp:1448-1513 | compiles the body in its own scope and pushes its captures in the order of the body's capture list |
| FormCompiler.Compiler.CompileAsThunk | src/compiler/Compiler.cpp:1350-1365 | compiles a top-level form as a body of no parameters and calls it |
| FormCompiler.Compiler.CompileTryForm | src/compiler/Compiler.cpp:993-1183 | `try` with any clauses and `finally`: handler targets and exits patched, catch names restored, the `finally` forms compiled twice |
| Assembler.BytecodeModule.Emit | src/runtime/BytecodeModule.cpp:151-156 | appends the one word that decodes to the instruction meant, or refuses an operand too large and changes nothing |
| Assembler.WordMeans | src/runtime/Opcodes.h:26-170 | the opcode number and the operand in a word tell the instruction, and only that one |
| Assembler.OneModule | src/runtime/BytecodeModule.cpp:151-156 | a finished block, its pool and the blocks inside it decode to one module only |
| Assembler.BytecodeModule.AddSymbol | src/runtime/BytecodeModule.cpp:114-124 | the index of the symbol in a pool that keeps every entry it had and adds none it has |
| ActorSafety.SingleKept | src/runtime/ActorScheduler.cpp:158-174 | every step keeps: queue entries of an actor plus threads between winning its claim and giving it up are one when it is claimed and none otherwise |
| ActorSafety.NoneLostKept | src/runtime/ActorScheduler.cpp:314-331 | every step keeps: a non-empty band of an unclaimed actor has a witness, a sender before its claim or a worker that has yet to look at that band or to claim again |
| ActorSafety.QuiescentEmpty | src/runtime/ActorScheduler.cpp:319-331 | when no send is under way, no worker has an actor and the queues are empty, all mailboxes are empty and nothing is claimed |
| ActorSafety.ConservedKept | src/runtime/ActorScheduler.cpp:257-310 | every step keeps, for each actor and band: messages pushed are those handled, the rest of the batch, then the mailbox, in that order |
| ActorRuns.OrderKept | src/runtime/ActorScheduler.cpp:257-268 | every step keeps: a turn handles its high, then its medium, then its low batch, each in order |
| ActorRuns.StepValued | src/runtime/ActorScheduler.cpp:275-306 | an actor's value is the fold of its handlers over the messages handled, nil after one that throws, each promise offered its message's result once |
| ActorRuns.RunSafe | src/runtime/ActorScheduler.cpp:219-333 | all of these hold after every run of sends, worker steps, shutdown and exits in any interleaving |
| ActorRuns.AllHandled | src/runtime/ActorScheduler.cpp:219-333 | a run from the start to a quiescent state has handled exactly the messages pushed, band by band in order, with the value and the offers they give |
| ActorRuns.ExitedEmpty | src/runtime/ActorScheduler.cpp:319-331 | once all workers have exited, with sends from workers only, all mailboxes are empty |
| ActorQueues.PopServes | src/runtime/ActorScheduler.cpp:196-209 | an idle worker pops whenever an actor waits, and takes the front of the first band, high before medium before low, that has one; the other bands stay as they are |
| ActorQueues.FirstComeFirstServed | src/runtime/ActorScheduler.cpp:135-139 | over every run in any interleaving, each band serves its actors in the order they came |
| ActorQueues.WaitsIn | src/runtime/ActorScheduler.cpp:158-174 | a sender that wins the claim queues the actor at the back of its message's band, a worker at the back of the band it chose; nothing else touches the queues |
| ActorQueues.BandChosen | src/runtime/ActorScheduler.cpp:145-150 | that choice is the first band the worker sees a message in, low if it sees none |
| ActorQueues.NoneStuck | src/runtime/ActorScheduler.cpp:219-333 | every sender and every worker with an actor has a next step, and an idle worker has one while an actor waits |
| ActorQueues.ExitsWhen | src/runtime/ActorScheduler.cpp:196-209 | a worker leaves exactly when it is idle, no actor waits and the scheduler is shutting down |
| RootingRuns.StepInv | src/runtime/CallerSlots.cpp:22-69 | every step of every scope keeps the invariant: counters and `next` match the live scopes, free slots are empty, all that is held is protected |
| RootingRuns.NeverLost | src/runtime/CallerSlots.cpp:31-64 | after every run from the start, whatever frames, caller slots, blocks or locals hold is kept, is in the heap, and so is all it refers to |
| RootingRuns.SubmissionIsSafe | src/runtime/CallerSlots.cpp:58-64 | a submission happens only under a permit in the outermost activation, with no untraced slots, block or nested scope alive inside it |
| Submissions.SubmitsExactly | src/runtime/CallerSlots.cpp:58-64 | and whenever all that holds, it does happen: one submission is counted and the young chain handed over, else nothing changes |
| Submissions.MayFree | src/runtime/CallerSlots.h:22-57 | what a collection may free: what no traced slot, frame, young chain or shared value reaches |
| Submissions.PublishedStays | src/runtime/CallerSlots.h:22-57 | a value shared with other threads is kept and in the heap from when it is published until it is taken back |
| RootingRuns.SlotsDisjoint | src/runtime/CallerSlots.cpp:31-45 | the slot ranges alive in one window do not overlap and lie inside it |
| RootingRuns.Restored | src/runtime/CallerSlots.h:71-110 | `next`, `depth`, `permits` and `local` are a function of the live scopes: they come back when scopes end |
| RootingReturn.SlotStays | src/runtime/CallerSlots.h:157-163 | a slot keeps its value through any step but a store to it |
| RootingReturn.ReturnedOutlives | src/runtime/CallerSlots.cpp:66-69 | a value returned through `ret`, whatever happened since the scope began, is anchored in a frame outside the scope and stays so when the scope ends |
| PrimitiveScopes.CallerSlots.constructor | src/runtime/CallerSlots.cpp:31-45 | acquires traced slots in the window if there is room, untraced ones otherwise, as the transition system says |
| PrimitiveScopes.CallerSlots.Safepoint | src/runtime/CallerSlots.cpp:58-64 | submits exactly when the transition system does |
| PrimitiveScopes.CallerSlots.Tick | src/runtime/CallerSlots.h:168-171 | a safepoint on every stride-th call, nothing on the others |
| PrimitiveScopes.CallerSlots.Ret | src/runtime/CallerSlots.cpp:66-69 | anchors the value when a submission happened since the scope began |
| PrimitiveScopes.CallerSlots.Destroy | src/runtime/CallerSlots.cpp:47-51 | gives the slots back emptied, or the count of untraced ones |
| PrimitiveScopes.SafepointPermit.constructor | src/runtime/CallerSlots.cpp:22-25 | counts only in the window of the context at depth one |
| PrimitiveScopes.SafepointBlock.Release | src/runtime/CallerSlots.h:130-141 | any number of holds and releases undo one count |
| ListBuilding.ListBuilder.PushBack | src/runtime/ListBuilder.cpp:18-36 | appends the element to what is built, traced or not, folded or parked |
| ListBuilding.ListBuilder.Flush | src/runtime/ListBuilder.cpp:38-47 | folds what is parked and changes nothing of what is built |
| ListBuilding.ListBuilder.Finish | src/runtime/ListBuilder.cpp:49-53 | the list of exactly the elements pushed, in order, anchored outside the builder |
| ListBuilding.ListBuilder.FinishSeq | src/runtime/ListBuilder.cpp:59-73 | the same as a sequence, whether anything was folded or not |
| ListBuilding.BuilderStays | src/runtime/ListBuilder.cpp:18-36 | whatever else the thread does in between (allocation, nested calls, submissions, collections) keeps what is built |
| ListBuilding.ElementsKept | src/runtime/ListBuilder.cpp:18-36 | every element pushed is protected and in the heap all the while |
| StreamFilter.Pump | src/dap/DapStdio.cpp:185-210 | for every stream and every way it is cut: the output is the stream without its leftmost non-overlapping marks, and the marks are counted |
| StreamFilter.PumpTwice | src/dap/DapStdio.cpp:185-210 | two ways of cutting one stream give the same output and count |
| Marks.StrippedPieces | src/dap/DapStdio.cpp:185-210 | a stream cut at its marks, each the first after the one before, comes out as the pieces between them, one mark less than pieces |
| Marks.PiecesExist | src/dap/DapStdio.cpp:185-210 | every stream is cut in such pieces |
| Marks.MarkSpelled | src/dap/DapStdio.cpp:116-117 | the mark is NUL, US, `protoclj-dap-sync`, US, NUL |
| StreamFilter.PartialMarkAtEnd | src/dap/DapStdio.cpp:121-125 | the longest end that begins the mark |
| StreamFilter.CompleteUtf8Prefix | src/dap/DapStdio.cpp:102-111 | cuts off at most three bytes, exactly those of an unfinished sequence at the end |
| Marks.CharacterUncut | src/dap/DapStdio.cpp:100-111 | after a character's whole encoding nothing is held back, after the beginning of one exactly that (section 3 of RFC 3629) |
| Marks.HeldBytes | src/dap/DapStdio.cpp:100-111 | and on any bytes: exactly a lead byte of a longer sequence and the continuation bytes after it are held back, three at most |
| Literals.Decode | src/reader/Lexer.cpp:19-49 | the decoder's loop computes the specified decoding |
| Literals.DecodeEncoded | src/reader/Lexer.cpp:19-49 | decoding the encoding of a Unicode scalar value gives it back, wherever it stands (section 3 of RFC 3629) |
| Literals.DecodedEncodes | src/reader/Lexer.cpp:333-349 | whatever the decoder takes is the encoding of a scalar value: no overlong form, surrogate or larger value (sections 3 and 4 of RFC 3629) |
| Literals.Quote | src/runtime/Disassembler.cpp:24-44 | the printer's loop gives the quoted string |
| Literals.RoundTrip | src/runtime/Disassembler.cpp:24-44 | for every byte string, reading the quoted form back gives the string and ends at its closing quote, whatever stands around it |
| Literals.PairedScalar | src/reader/Lexer.cpp:396-419 | a surrogate pair is one supplementary scalar, from which both halves can be told (section 2.2 of RFC 2781) |
| Literals.PairExists | src/reader/Lexer.cpp:396-419 | every supplementary scalar has a pair |
| Literals.EscapeReads | src/reader/Lexer.cpp:396-419 | exactly when a `\u` escape is read, and what as |
| Escapes.SimpleReads | src/reader/Lexer.cpp:387-437 | the seven letters and the byte each stands for; any other letter but `u` and octal digits is an error |
| Escapes.HexReads | src/reader/Lexer.cpp:363-379 | four digits, small or capital, are the number they spell in base 16 |
| Escapes.OctalReads | src/reader/Lexer.cpp:420-434 | one to three octal digits, as many as there are, are the character of their number, up to 255 |
| StringLexer.Lexer.LexString | src/reader/Lexer.cpp:360-455 | the lexer's string method gives the specified text and end, or the error at its place |
| DestructuringProof.LetMatches | src/compiler/Compiler.cpp:442-459 | for every `let` vector of arbitrarily nested patterns: its flat bindings, evaluated in order with the generated names apart, bind each name to what its pattern means, or raise what a value, key, default or component raises |
| DestructuringProof.Matches | src/compiler/Compiler.cpp:285-440 | the same of one pattern, at any depth, for any value |
| DestructuringProof.ElementsMatch | src/compiler/Compiler.cpp:310-356 | the walk by `nth`, or by `seq`, `first` and `next` when there is a rest, agrees with indexing |
| DestructuringProof.TableMatches | src/compiler/Compiler.cpp:359-437 | map patterns: keys, `:keys`, `:strs`, `:syms`, `:or` and `:as` |
| Patterns.ListedNames | src/compiler/Compiler.cpp:394-424 | `:keys`, `:strs` and `:syms`, in a namespace or not: each name is bound to what the table has under the keyword, the string or the symbol of that name, its own namespace before the listing's, nil if there is nothing |
| Patterns.DefaultedName | src/compiler/Compiler.cpp:371-388 | `:or`: the default is evaluated after the key and bound when the table has nothing |
| Patterns.VectorNames | src/compiler/Compiler.cpp:310-356 | `[a b ... & r]`: each name the element at its place, nil past the end, `r` the list of what is left, nil if nothing is |
| Patterns.FlatListed | src/compiler/Compiler.cpp:359-424 | the flat bindings of `{:keys [x]}` and the like, form by form |
| Patterns.FlatVector | src/compiler/Compiler.cpp:310-356 | the flat bindings of `[x]` and `[x & r]`, form by form |
| Hygiene.Erased | src/compiler/Compiler.cpp:285-440 | the marked bindings are the flat bindings with marks: same names, same expressions, same order |
| Capture.LetRuns | src/compiler/Compiler.cpp:442-459 | a `let` that the scan passes, run flat in one scope, raises or binds what its patterns mean: every name but the hidden ones, which hold what the rewrite put there |
| Capture.SafeExactly | src/compiler/Compiler.cpp:285-440 | the scan passes a `let` if and only if each name read, by the program or by the rewrite, is last bound by the one that means to read it; a name is its own after the `let` if and only if the scan does not end with it hidden |
| Capture.OwnValue | src/compiler/Compiler.cpp:285-440 | after any safe part of the bindings a name has the value the program gave it if and only if it is not hidden, or was given that same value by the rewrite |
| Capture.NoClash | src/compiler/Compiler.cpp:193-197 | a `let` that mentions none of the names it generates itself passes the scan and hides none of its own names |
| Capture.LetMeans | src/compiler/Compiler.cpp:442-459 | such a `let` means what its patterns do, and leaves alone every name it does not generate |
| Capture.UnmentionedKept | src/compiler/Compiler.cpp:442-459 | a name the `let` does not mention keeps every value it may have around it if and only if no flat binding binds it, on every run that gets through |
| Capture.CapturedName | src/compiler/Compiler.cpp:193-197 | for every number N next in line: in `(let [vec__N 1, [a] nil, b vec__N] b)` the flat bindings give nil where the patterns mean 1 |
| DestructuringProof.SimpleFlat | src/compiler/Compiler.cpp:442-451 | plain names are left as they are |
| Rewriter.Destructurer.Destructure | src/compiler/Compiler.cpp:285-440 | the recursive method appends exactly the specified bindings, or stops at the specified error |
| SyntaxQuote.ExpansionFills | src/reader/Reader.cpp:484-620 | for every template: evaluating its expansion gives the template with unquotes and splices filled in, in order, and the same exception if one raises |
| Templates.EntriesInOrder | src/reader/Reader.cpp:544-563 | a map template without splices, filled in or expanded and evaluated, is what `hash-map` builds of its keys and values, each key just before its value |
| Templates.ElementsInOrder | src/reader/Reader.cpp:523-543 | a list, vector or set template without splices is the list, the vector or what `hash-set` builds of its elements in order |
| Templates.OneExpanded | src/reader/Reader.cpp:564-620 | the expansions of an empty list, of a list, vector or set of one element and of a map of one key, form by form |
| Templates.UnquotesFilled | src/reader/Reader.cpp:526-536 | `~x` is the value of `x`, and `[~@x]` the vector of the elements of its value |
| Templates.SymbolsQuoted | src/reader/Reader.cpp:496-522 | a symbol is quoted as resolved, `foo#` as `foo__N__auto__`, the same each time |
| SyntaxQuote.ExpandDistinct | src/reader/Reader.cpp:496-522 | within one syntax-quote, `foo#` has one symbol and different names have different ones |
| SyntaxQuote.SymbolsDiffer | src/reader/Reader.cpp:229-245 | symbols of different syntax-quotes differ |
| SyntaxQuote.Reader.SyntaxQuote | src/reader/Reader.cpp:484-620 | the reader's method gives the specified expansion, with the table on top of its stack updated |
| SyntaxQuote.Reader.Backtick | src/reader/Reader.cpp:229-245 | a fresh table for each syntax-quote, gone afterwards, also after an error |
| Operators.TagInverse | src/runtime/ExecutionEngine.cpp:58-75 | tag and untag are inverse on the 54-bit signed range |
| Operators.UntagInverse | src/runtime/ExecutionEngine.cpp:58-75 | and on every tagged word |
| Operators.FastExact | src/runtime/ExecutionEngine.cpp:1539-1583 | the fast path answers what exact integer arithmetic does, with no wrap in 64 bits; addition and subtraction decline exactly when the result has no tagged word, multiplication exactly when an operand is outside the half range, comparisons never |
| Operators.FastAnswers | src/runtime/ExecutionEngine.cpp:1539-1583 | operator by operator on the words of any two small integers: the sum, difference or product, or the truth of the comparison; which it declines |
| Operators.ExecutedAnswers | src/runtime/ExecutionEngine.cpp:1508-1583 | an operator that is not redefined, or named in clojure.core, computes what arithmetic says whatever the size of the result; any other calls its global |
| Operators.StoreMarks | src/runtime/ExecutionEngine.cpp:94-132 | a store of one of the eight names sets or clears that operator's bit, by what clojure.core's name holds, and no store changes another bit |
| Operators.OpcodeIsCall | src/runtime/ExecutionEngine.cpp:96-132 | from the initial globals, after any stores by one thread: an operator opcode applies what the global of its name holds if and only if the last store of that name did not put there what `clojure.core/` held, redefined, at the time; a core-qualified one applies what that name holds if and only if it is the built-in |
| Operators.CoreLeftAlone | src/runtime/ExecutionEngine.cpp:121-132 | stores that leave `clojure.core/` names alone keep every opcode right |
| Operators.CoreRedefined | src/runtime/ExecutionEngine.cpp:1361-1376 | the two stores that break it, from the initial globals: either alone does no harm |
| Operators.AppliedIsExact | src/runtime/ExecutionEngine.cpp:1508-1583 | an opcode on two small integers calls the value it applies, or gives the exact result where it applies the built-in |
| DebuggerScan.ScanRight | src/runtime/ExecutionEngine.cpp:1856-1873 | given that the `finally` forms met complete: either the body of the first matching clause begins to run, with the thrown value in its slot, or the exception leaves the frame; the scan says which for every frame, except that a handler with too many clauses counts as catching, so a negative answer is never wrong |
| DebuggerScan.HandlerScanned | src/runtime/ExecutionEngine.cpp:1797-1852 | the scan of one handler says yes if and only if a clause selects the value or the clauses are too many; a `finally` never selects |
| DebuggerScan.ScanHandler | src/runtime/ExecutionEngine.cpp:1797-1852 | the loop over a handler's code gives that answer |
| DebuggerScan.ScanFrame | src/runtime/ExecutionEngine.cpp:1856-1873 | the loop over the handlers, innermost first, gives the frame's |
| DebuggerScan.ClausesRun | src/compiler/Compiler.cpp:1138-1168 | a handler's clauses run to the body of the first that matches, or to the RETHROW, with stack, slots and globals unchanged |
| CompiledHandlers.FrameHandlers | src/compiler/Compiler.cpp:1135-1181 | in every state of every run of a compiled, cleared form, every handler of every frame has code of the shape the scan knows |
| CompiledHandlers.ClausesAnswered | src/runtime/ExecutionEngine.cpp:1811-1851 | for the code of any list of clauses: the scan says yes if and only if one of their classes matches or there are 4096 or more |
| CompiledScan.CompiledScan | src/runtime/ExecutionEngine.cpp:1856-1873 | in every run of an accepted form: wherever an exception is about to be dispatched in a frame, it begins the body of a clause, or leaves the frame, or meets a `finally` that does not complete; the scan says which of the first two, but for too many clauses |
| CompiledScan.NeverFaults | src/runtime/ExecutionEngine.cpp:1129-1425 | a cleared accepted form never reaches a slot or jump out of range |

## Left out

- protoCore itself (objects, lists, maps, threads, its queues and the collector's algorithm): the models use only what a collection may free, what a queue's push and take-all do, and atomic compare-and-set.
- Weak memory order of the actor scheduler's atomics: its steps are interleaved.
- Liveness of actor shutdown: what holds once the workers have exited is proved, not that they do.
- Arguments of an actor message past the fifteenth, which are dropped: a message's handler is one function of the actor's value.
- Primitives that call closures back or store globals (`map`, `swap!`, `alter-var-root` and the like): a primitive is a function of its arguments.
- Operator opcodes inside compiled calls: `Codegen` compiles `(+ a b)` to PUSH_VAR and CALL where the source emits ADD; `Operators` proves the opcodes apart, for two operands and one thread, without the left fold of three or more.
- Functions of several arities, variadic and keyword-argument functions (MAKE_FN_MULTI, CALL_KW), CALL_APPLY and its reserve of stack, module members (GET_MEMBER, CALL_MEMBER).
- Catch clauses that name a class only known at run time (EXC_MATCH_TYPE, RESOLVE_CLASS): clauses name built-in classes, by number.
- Macro expansion, namespaces, `defmacro`, metadata: forms are macro-expanded and their names resolved.
- Debug line marks and the debugger's table of locals.
- The native stack guard: the evaluator's fuel and the VM's list of callers have no limit.
- State after a compile error: the scopes are not given back, and only the error is specified.
- FormCompiler.Compiler.ResolveLocal: does not model the branch for a scope that has the name already above the one found, which the search from the top cannot meet.
- FormCompiler.Compiler.CompileForm: may also refuse an operand wider than 24 bits; the contract says only that this is the reason then, not for which forms.
- StackDepth.ComputeMaxStack: requires that the code has a bound, since the worklist does not end otherwise (`StackDepth.Analysed`); `DepthLimit.DepthsExist` says for which forms it has one.
- StackBound.StackBounded: requires handler targets in range and states that fit at the start; `BoundedRuns.FramesBounded` has neither for compiled forms.
- DebuggerScan.ScanRight: asks of each handler met that the VM can take the exception; `CompiledScan.CompiledScan` does not.
- Pipeline.CompileTopLevel: does not emit operator opcodes or CALL_KW, for the reasons given above for each.
- FormCompiler.Compiler.CompileFnForm: one fixed arity, because several arities, rest and keyword parameters add binding work at the call and no new scoping.
- FormCompiler.Compiler.CompileTryForm: clauses of built-in classes, because others are looked up in objects that are not part of this model.
- Capture.SafeExactly: whether a clash that the scan reports changes a value depends on the values: two bindings may happen to give the same one (`Capture.OwnValue`).
- Destructuring of function parameters and of `loop` bindings (the `p__` names), and infinite lazy sequences under a rest pattern.
- The laziness of `concat` in expanded templates, `#()` literals, and generated numbers drawn by several threads at once.
- The redefinition bits under several threads.
- The submission counter's wrap-around at the width of an unsigned int, and collections in the middle of one builder call: a collection is a step of its own between them.
- Number and symbol lexing, EDN, the REPL, I/O, the debug adapter's JSON and transport.
