# Verification of the cixl core

cixl is a stack language with a compiler and a virtual machine in C. This project
models the parts of it that are hard to get right and proves what they are for.
`dafny verify dfyconfig.toml` checks everything.

**Compiler, machine and emitter.** Tokens become one flat op array with relative
skips; inlined functions and lambda bodies lie in the middle of it. While errors are
pending the machine walks the same ops, but only error handlers run.
`VmState` and `Vm` hold the state, the direct meaning of tokens, the eval loop and
the labelled program that the emitter prints. `Compiler` is the compiler as a
function, `BinBuilder` the same compiler appending and back-patching in place,
`Context` the machine changing its stacks in place. Primitives, dispatch, the subtype
test, truth and bodies that lie in other bins are parameters (`World`). A primitive is
given the states it was entered and resumed in and either finishes or asks for a value
to be called. All engines share `fuel`, which goes down at calls, recalls and backward
jumps; results hold for every amount of it. Two history variables count what no handler reads:
`badReturns`, how often a function's own return checks failed, and `partings`, how
often something happened that emitted code does otherwise.

- `Layout`, `CompilerProof`, `Reading`, `Program`: compiled code does what its tokens
  mean, for all programs, states and both modes.
- `SwitchPatch`: `switch:` retargets every jump in its op range, also those that
  belong to a switch inside it. The ops are the intended ones exactly when no switch
  is inside another.
- `TailSwitch`, `TailRuns`: a program still does what its tokens mean in every run that
  takes no jump that leads elsewhere than it should. There is no such jump if switches
  stand inside others only at the end of a clause, where a jump too far skips nothing
  but a jump to the same place.
- `NestedSwitch`: for every other place inside a clause (condition, group, stack
  literal, `let:`, lambda, inlined function, `catch: _`, an earlier typed catch clause,
  in front of more tokens) a program that goes wrong. Not every such program does: one
  is right because the clause is never taken, and one is wrong in some worlds and right
  in the others, so that tokens alone do not tell.
- `Inlining`, `Reached`: functions are inlined once, in nested or separate ranges, and
  exactly those that the program can come to.
- `EmitProof`, `Visits`, `Sticky`: the emitted program passes the same ops in the same
  modes as the loop and ends in the same state, for every bin, unless they part, in
  one of two ways: a recall whose check fails is not counted down in emitted code, and
  a call site whose last dispatch failed starts again from the implementation it was
  printed with. `EmitDiffers` gives a program for each; `EmitEqual` proves that without
  calls that name an implementation and without recalls they never part.
- `Values`: what scopes, lambdas, arguments and results do with values.
- `Variables`, `Lexical`: names are looked up where code was written. No run gives a scope
  another parent or a function another home, so a lambda or function called much later
  finds its variables around the place where it was made.
- `Recalls`: a function that recalls is a loop over the arguments of its recalls.
- `Handlers`: what clauses, bindings, call sites, primitives and values that are called do,
  said without the handlers' own definitions.
- `Balance`: scope, lib and call stacks return to their entry depth, plus one for each
  failed return check.

**Threads.** `Switching` is the plain code with which tasks and continuations take
their part of the VM away and put it back; `Continuation` is that code in place.
`Scheduler*` is one run phase as a step system with one step per semaphore, atomic or
locked queue operation; `Coroutine*` the same for coroutine hand-over. `Rings` are the
circular lists of the queues. The run counter is compared modulo 2^32. A reachable
state cannot go on exactly if all that is left spins level with the counter; that takes
2^32 runs, and a run that gets there is given.

**Types and dispatch.** `TypeGraph`: the incrementally kept closure of a graph that may
have cycles. `Dispatch`: pruned search returns what full search would.

**Storage.** `Storage`, `Vectors`, `Tables`, `Environments`: slab allocator with each
slab as one stretch of memory, vectors that move between slab and heap, sorted tables,
hashed scopes.

**Algorithms.** `EditDistance`, `Days`, and `Codec`, `CodecValues`, `CodecStreams`,
`CodecExact` for writing values and reading them back; identifiers other than the pair
function, macros, symbols, lambdas and comments are a parameter of the reader (`Lang`).

Places where the code and what it is for differ: nested `switch:` clauses and the two
partings of emitted code (above); the lock-up of the scheduler; and written values with
a string in which `@` stands directly before n, r, s, t or a digit, or that ends in a
backslash, which are exactly the ones that are not read as their own tokens. What is
read instead may still evaluate to the value, if it holds tokens that no value is
written with; an example is given.

## Model

| member | source | states |
|---|---|---|
| `Layout.CodeRunsAsTokens` | src/cixl/bin.c:14-30 | In linked code, any coded stretch of tokens entered in normal or error mode, with any stop address outside it, ends at its own end in the state the tokens mean, and the loop goes on from there; catch bodies are walked twice, function bodies once per recall |
| `Layout.CasesRun` | src/cixl/lib/cond.c:14-49 | Clauses run in order until a condition holds; the jump behind a taken clause skips all others, also in error mode |
| `Layout.CatchRuns` | src/cixl/op.c:206-229 | A catch clause runs only for a matching error; after `_` has run its body with the error set aside, the body is walked again with the error back |
| `Layout.RoundsRun` | src/cixl/op.c:1081-1178 | From behind OBEGIN a function body with any number of recalls runs as its rounds do, and stops right behind ORETURN |
| `Layout.TargetsAgree` | src/cixl/fimp.c:172-209 | For every function and lambda body of a linked bin, every entry state and amount of fuel, the flat code gives what the tokens mean, including all calls made inside |
| `CompilerProof.CompiledIsLinked` | src/cixl/bin.c:70-96 | Every program compiles to code in which each token range, function body and lambda body lies where the bin says and every skip lands right behind what it skips |
| `CompilerProof.CompilerCorrect` | src/cixl/tok.c:46-297 | For every program, state, mode and amount of fuel, running the compiled ops is the direct meaning of the tokens, when a switch patches its own jumps |
| `CompilerProof.CompileCasesDone` | src/cixl/lib/cond.c:20-41 | Compiled clauses lie one after the other with skips that land right behind their bodies, and their open jumps lie outside every lambda and inlined function |
| `CompilerProof.CatchesDone` | src/cixl/lib/error.c:20-52 | Compiled catch clauses skip exactly their bodies |
| `CompilerProof.InlineDone` | src/cixl/fimp.c:150-170 | Inlining leaves everything compiled before as it was and adds one function that its OFIMP skips |
| `SwitchPatch.PatchingIsRightIffFlat` | src/cixl/lib/cond.c:42-46 | Retargeting every jump in the op range gives the very ops that retargeting only the own ones gives, if and only if no switch with clauses stands inside another, in a group, lambda, catch clause or function inlined there |
| `TailRuns.TailProgramsRunAsTokens` | src/cixl/lib/cond.c:14-49 | The compiler as it is, jump patching included, is correct on every program in which switches stand inside others only at the end of a clause: for every world, state, mode and amount of fuel |
| `TailSwitch.SeqEnds` | src/cixl/lib/cond.c:42-46 | In such code every jump that is sent elsewhere than meant was meant to lead to another jump, which leads to that place; and no body that is run by itself ends in between |
| `TailRuns.SaneRunsAsTokens` | src/cixl/lib/cond.c:42-46 | Any program, wherever switches stand: if every op that its run meets, in calls and clean-up clauses too, is the intended one or a jump that leads to the intended place, the run is what its tokens mean |
| `TailRuns.OpsSame` | src/cixl/bin.c:14-30 | Two bins that differ in jumps only run alike from every address and in both modes when all that is met is like that |
| `TailSwitch.FlatIsTail` | src/cixl/lib/cond.c:14-49 | A program without nested switches is such a program |
| `NestedSwitch.CondDiffers` | src/cixl/lib/cond.c:27-31 | A switch in a condition goes wrong: what it leaves is taken for the result of the outer switch |
| `NestedSwitch.BodyDiffers` | src/cixl/lib/cond.c:42-46 | In a group or stack literal inside a clause: the jump skips OEND and one scope too many is left |
| `NestedSwitch.BehindDiffers` | src/cixl/lib/cond.c:42-46 | With more tokens of the clause behind it: they are skipped |
| `NestedSwitch.LetDiffers` | src/cixl/lib/cond.c:42-46 | In a let inside a clause: the variable is never bound |
| `NestedSwitch.LambdaDiffers` | src/cixl/lib/cond.c:42-46 | In a lambda inside a clause: a call of the lambda, whenever it comes, runs on behind the outer switch |
| `NestedSwitch.CatchDiffers` | src/cixl/lib/cond.c:42-46 | In `catch: _` inside a clause: what is behind the switch runs once while the error is set aside |
| `NestedSwitch.TypedDiffers` | src/cixl/lib/cond.c:42-46 | In a typed catch clause that is not the last: what it throws never gets to the next |
| `NestedSwitch.FunctionDiffers` | src/cixl/lib/cond.c:42-46 | In a function inlined inside a clause: a call never returns, so that its scope, lib and call record stay |
| `NestedSwitch.HarmlessNested` | src/cixl/lib/cond.c:42-46 | A switch at such a place in a clause that is never taken does no harm in any world and state |
| `NestedSwitch.BehindHarmless` | src/cixl/lib/cond.c:42-46 | The program of BehindDiffers, wrong in every world in which its condition is true, is right in every other one: tokens alone do not say which programs go wrong |
| `Reading.CompiledAsWritten` | src/cixl/tok.c:46-297 | The annotated tokens that the meaning is defined on are the source tokens, function by function, with addresses added; each lambda shows the body its address names |
| `Inlining.InlinedOnce` | src/cixl/fimp.c:114-170 | In a compiled bin no function is inlined twice; each range starts at OBEGIN, ends at ORETURN and stands behind an OFIMP that skips exactly it; any two ranges are nested or apart |
| `Inlining.ImpTidies` | src/cixl/fimp.c:150-170 | Inlining one function, with all the functions it mentions, mutually recursive ones too, keeps this true in any bin |
| `Reached.HeldIffReached` | src/cixl/fimp.c:150-170 | The bin of a program holds the body of a function if and only if the program can come to it by a chain of definitions and of calls that name it or have it as the only implementation, each in the body of the one before |
| `BinBuilder.SeqSnoc` | src/cixl/bin.c:83-93 | Compiling token by token in a loop is compiling the sequence |
| `BinBuilder.Builder.CompileToks` | src/cixl/bin.c:70-96 | The compile loop leaves the bin that the compiler function describes, with every-jump patching |
| `BinBuilder.Builder.GroupCompile` | src/cixl/tok.c:46-69 | Appends OBEGIN, the body and OEND and fills in the size afterwards; an empty group leaves nothing |
| `BinBuilder.Builder.StackCompile` | src/cixl/tok.c:271-297 | As a group with OSTASH before OEND; an empty stack is a push |
| `BinBuilder.Builder.LambdaCompile` | src/cixl/tok.c:200-223 | Appends the body behind OLAMBDA and fills in its size |
| `BinBuilder.Builder.CallCompile` | src/cixl/tok.c:134-180 | Inlines the named or only implementation before the call op if it has a body |
| `BinBuilder.Builder.PutVars` | src/cixl/lib/var.c:19-67 | One OPUTVAR per name of a let, the last name first, so that it takes the value on top |
| `BinBuilder.Builder.CatchEval` | src/cixl/lib/error.c:16-52 | One clause after the other, each size filled in behind its body |
| `BinBuilder.Builder.SwitchEval` | src/cixl/lib/cond.c:14-49 | The clauses, then one pass that retargets every jump from the start of the switch on |
| `BinBuilder.Builder.FimpInline` | src/cixl/fimp.c:114-170 | Records the function before compiling its body, so a mention inside does not compile it again; fills in OBEGIN and the range at the end |
| `Context.Cx.Eval` | src/cixl/bin.c:114-123 | The in-place machine ends as the loop means and restores the program counter |
| `Context.Cx.Loop` | src/cixl/bin.c:14-30 | One op per turn, from the current pc up to the stop address |
| `Context.Cx.TurnNormal` | src/cixl/op.c:121-1171 | The eval handlers change pc and state as the step function says; what reading a variable finds is ReadsNearest, what a definition and a new lambda record LambdaMade and DefinedOnce |
| `Context.Cx.TurnError` | src/cixl/op.c:139-224 | The error handlers: skips, OEND, function exits and catch clauses; every other op does nothing |
| `Context.Cx.EndScope` | src/cixl/cx.c:340-364 | Popping a scope moves what it holds to the scope below; the last one stays |
| `Context.Cx.TakeArgs` | src/cixl/call.c:43-60 | Moves the arguments from the stack of the call's scope into the call record, or reports that there are too few |
| `Context.Cx.PutArgsEval` | src/cixl/op.c:883-900 | Each argument goes to its variable or to the stack |
| `Context.Cx.CopyRets` | src/cixl/op.c:1099-1152 | Return values are copied to the scope below until a check fails |
| `Context.Cx.ReturnEval` | src/cixl/op.c:1081-1171 | Recalls first, as RecallsIff and RecallTakesArgs say; then the return values, and scope, lib and call are popped if every check passes, as ReturnsIff says |
| `Context.Cx.Recall` | src/cixl/lib/func.c:249-268 | Counts up the recalls of the nearest call of a function with a body |
| `Context.Cx.LambdaCall` | src/cixl/lambda.c:50-83 | Moves the caller's stack into the lambda's scope, runs the body, and pops what was pushed |
| `Context.Cx.FimpCall` | src/cixl/fimp.c:172-209 | Pushes the call record, takes the arguments and runs the primitive or the body; at most 64 calls are open; a function that the bin does not hold runs in a bin of its own, whose effect is given |
| `Context.Cx.FuncallEval` | src/cixl/op.c:506-520 | The site keeps the implementation it found last and looks again when it does not apply |
| `Program.EvalToks` | src/cixl/bin.c:125-135 | Compiling and running any program in place ends as its compiled code does, with pc as before; with switches inside others only at clause ends that is what its tokens mean |
| `EmitProof.ResolvedAlike` | src/cixl/op.c:522-553 | Emitted call sites decide as the interpreter does if and only if it is not the case that the last dispatch there failed and the printed implementation applies now |
| `EmitProof.LabelIsStep` | src/cixl/bin.c:276-328 | For every op but a call or clean-up clause, in both modes, a printed label does what the loop does with that op if and only if it is not a recall whose check fails |
| `EmitProof.StepAlike` | src/cixl/op.c:144-362 | Calls, by name or by function, and clean-up clauses too, given that shorter runs agree |
| `EmitProof.CallAlike` | src/cixl/op.c:522-553 | At every call site the two either do the same or both count a parting |
| `EmitProof.EmittedRunsAsOps` | src/cixl/bin.c:155-339 | For every bin, start and stop label, state and mode: emitted program and loop meet the same ops in the same modes, calls and clean-up runs included, and end in the same state, unless they part at a recall whose check fails or at a call site as in ResolvedAlike |
| `Program.CompiledIsEmittable` | src/cixl/bin.c:276-328 | Whatever is compiled can be emitted: every OFIMP stands before a finished function |
| `EmitDiffers.StaleSiteDiffers` | src/cixl/op.c:522-553 | A program and state where they do part at a call site: the loop reports an error, the emitted code calls the function |
| `EmitDiffers.FailingRecallDiffers` | src/cixl/op.c:1201-1221 | A program where they do part at a recall whose check fails: the call record that stays behind counts one recall more in emitted code |
| `Program.EmittedRunsAsTokens` | src/cixl/bin.c:155-339 | Unless they part, the emitted program of any program with switches inside others only at clause ends means what its tokens mean |
| `EmitEqual.EmittedEqualsOps` | src/cixl/bin.c:155-339 | If no call in the bin names an implementation and no primitive asks for a recall they never part: same ops, same modes, same end, from every label, settled state and mode |
| `Program.EmittedEqualsTokens` | src/cixl/bin.c:155-339 | So the emitted program of such a program means what its tokens mean, without proviso |
| `Sticky.TargetKeeps` | src/cixl/bin.c:14-30 | No engine ever takes back a counted parting of emitted code and loop |
| `Balance.CompiledCodeBalanced` | src/cixl/op.c:121-142 | Compiled code, entered in any mode, leaves scopes, libs and the frames of all calls as they were if no return check failed; otherwise each failure leaves exactly one of each behind |
| `Balance.ReturnPopsAllOrNone` | src/cixl/op.c:1089-1171 | ORETURN pops scope, lib and call together when its checks pass and none of them when one fails |
| `Balance.RecallKeepsFrame` | src/cixl/op.c:1085-1097 | A recall goes on in the same scope, lib and call record and is counted down by one; what it takes as arguments is RecallTakesArgs |
| `Balance.RoundsBalanced` | src/cixl/op.c:1081-1178 | However many recalls and errors, a function leaves one frame less than it was entered with, plus one per failed check |
| `Balance.LambdaBalanced` | src/cixl/lambda.c:50-83 | Calling a lambda in either mode leaves the stacks at their entry depth |
| `Balance.GroupBalanced` | src/cixl/op.c:320-323 | So does a group or stack literal, whether or not an error is thrown inside |
| `Balance.RecallIsPolite` | src/cixl/lib/func.c:249-268 | The recall primitive changes one counter and no stack |
| `Values.EndMoves` | src/cixl/cx.c:340-364 | Leaving a scope puts what it holds behind what the scope below holds, in order, even if either is open elsewhere, and touches no other object; only a scope directly on itself loses what it holds |
| `Values.EndKeepsValues` | src/cixl/cx.c:340-364 | While all open scopes are different objects, leaving one loses no value and keeps their order over the open scopes |
| `Values.EnterLambdaMoves` | src/cixl/lambda.c:60-76 | A lambda call moves the caller's values into the lambda's scope, in order and behind what is there, and touches no other object, whether or not that scope is open already; in its own scope nothing moves |
| `Values.ArgsTaken` | src/cixl/call.c:43-60 | Arguments and what is left on the stack are the old stack |
| `Values.ArgsPut` | src/cixl/op.c:883-900 | Of arguments of any kind the positional ones reach the stack in order, each name has the value of its last argument, and no other variable, scope or stack changes |
| `Values.PlainArgs` | src/cixl/op.c:883-900 | Arguments by position alone go on the stack as they are and change nothing else |
| `Values.RetsCopied` | src/cixl/op.c:1117-1152 | Results of any kind are copied to the scope below in the order of the signature if and only if each is there and passes its check; exactly the positional ones are taken from the stack |
| `Values.ReturnsIff` | src/cixl/op.c:1098-1171 | A function returns if and only if each result is there and passes and none of its values is left over: results below, scope, lib and call gone; otherwise there is one error more and the three stay |
| `Values.PlainReturn` | src/cixl/op.c:1130-1152 | With as many results by position as values, the caller gets the function's stack as it is if every value passes its check or the scope is unchecked, and an error otherwise |
| `Values.StackLiteral` | src/cixl/scope.c:93-111 | Whatever the body of a stack literal leaves becomes one value that holds it in order, on the scope below; if the body throws it is left one by one |
| `Values.PutThenGet` | src/cixl/op.c:1011-1027 | A variable gives back what was put into it if that has the asked type; otherwise there is an error, and no variable changes; the value is off the stack either way |
| `Values.EmptyFunctionRearranges` | src/cixl/fimp.c:172-209 | A function without body replaces its arguments by its results as its signature says, by position, name or constant, and changes nothing else |
| `Variables.NearestBinding` | src/cixl/scope.c:65-80 | A name has the value that the nearest scope along the parents binds it to, an inner binding hiding every outer one, and none if no scope up to the outermost binds it |
| `Variables.ReadsNearest` | src/cixl/op.c:613-620 | Reading a name pushes that value; an unbound name adds one error and changes nothing else |
| `Variables.GroupInside` | src/cixl/op.c:121-139 | The scope of a group is new, empty, checked if the one around it is, and lies in that one |
| `Variables.GroupsSeeOut` | src/cixl/scope.c:65-80 | However deep in groups it is used, a name means what it means around them |
| `Program.LetProgram` | src/cixl/lib/var.c:19-87 | Compiled and run in any world and error-free state, `let: x v; (...($x)...)` leaves v, however deep the groups |
| `Lexical.SeqStays` | src/cixl/scope.c:9-19 | Whatever runs, with all calls made inside, every scope keeps its parent and every function the scope it was defined in |
| `Lexical.CompiledCodeStays` | src/cixl/scope.c:9-19 | So does running compiled code |
| `Lexical.LambdaMade` | src/cixl/lambda.c:16-29 | Making a lambda pushes a value with its address, the current lib, and a new empty scope inside the current one, checked if that one is |
| `Lexical.LambdaReadsWhereMade` | src/cixl/lambda.c:50-77 | A lambda called later, whatever ran in between and from whichever scope, reads its names in its own scope and then in those around the place where it was made, as they are by then |
| `Lexical.CalledLambdaReads` | src/cixl/lambda.c:50-83 | A call of `{$x}` adds to the caller's stack the value that x has where the lambda was made, whatever x means where it is called |
| `Lexical.DefinedOnce` | src/cixl/op.c:400-404 | The first time a definition is run, with errors pending or not, the current scope becomes its function's; later it stays, and other functions keep theirs |
| `Lexical.FunctionReadsWhereDefined` | src/cixl/op.c:121-139 | A function called later, whatever ran in between, reads its names in a new scope and then in those around its definition, with its own lib on top |
| `Lexical.NoHomeNoNames` | src/cixl/op.c:121-139 | A function for which no definition was run sees no variable of its caller |
| `Recalls.RecallsIff` | src/cixl/op.c:1085-1092 | A pending recall is taken if and only if the scope is unchecked or the values match; otherwise there is an error and stacks and variables stay; it is counted down either way |
| `Recalls.RecallTakesArgs` | src/cixl/op.c:1094-1096 | A recall makes the last values of the function's stack, as many as it has arguments, its new arguments in order; the rest stays, and no variable, other stack or other call record changes; with too few values there is an error instead |
| `Recalls.NextRound` | src/cixl/op.c:883-900 | The next round starts with the positional ones of them behind the rest, each name bound to the last value given for it, and all other variables as the last round left them |
| `Recalls.RecallLoops` | src/cixl/op.c:1081-1097 | A function that recalls is a loop: its body runs on the arguments of each recall in turn, and the first pass without one returns |
| `Handlers.ErrorsSkip` | src/cixl/bin.c:14-30 | While errors are pending, code without clauses, switches and definitions does nothing |
| `Handlers.TypedClause` | src/cixl/op.c:214-231 | A typed clause for the last error takes it off, and its body starts with the error as the value on top and nothing else changed; without errors, or with one of another type, it does nothing |
| `Handlers.CleanupRuns` | src/cixl/op.c:206-212 | A clause without type runs its body in either case; the last error is away meanwhile and is the last one again afterwards, behind those the body throws |
| `Handlers.FirstTrueRuns` | src/cixl/lib/cond.c:14-49 | Of a switch the first clause whose condition leaves a true value has its body run, from what the condition left below that value; no other body and no later condition runs; if none is true only the conditions run |
| `Handlers.FailedCondition` | src/cixl/op.c:286-292 | If a condition throws, is entered with errors or leaves no value, its body is walked with errors pending and no other clause |
| `Handlers.NothingThere` | src/cixl/scope.c:46-55 | Testing or binding without a value is an error and nothing else |
| `Handlers.LetBinds` | src/cixl/lib/var.c:19-87 | A name list takes as many values as it has names and binds each to its own, the last to the top, if the types are right; of equal names the first counts; nothing else changes |
| `Handlers.SiteRuns` | src/cixl/op.c:506-520 | A call site calls what it knows if the scope is unchecked or the values match that, otherwise the best there is, which it knows from then on, or fails if there is none; other sites keep what they know |
| `Handlers.SiteRemembers` | src/cixl/op.c:506-520 | What it has found it runs again, without a search, on any values that match |
| `Handlers.CallRefused` | src/cixl/cx.c:390-402 | A call with 64 calls open, or with too few values, is an error and nothing else; no call stays open |
| `Handlers.PrimCalled` | src/cixl/fimp.c:182-195 | A primitive starts with its arguments in a call record of its own, off the stack, and its lib on top; behind it the record is gone, and the lib if it was put there |
| `Handlers.BodyCalled` | src/cixl/fimp.c:197-209 | A body starts with its arguments in such a record |
| `Handlers.PrimGoesOn` | src/cixl/box.c:47-54 | A primitive goes on from what each call it asked for has come to, in turn, until it is done |
| `Handlers.ValueCalls` | src/cixl/box.c:47-54 | Calling a value: an implementation is checked where the scope is, a function has its best one called or fails, what is neither function nor lambda is pushed |
| `Handlers.LambdaLib` | src/cixl/lambda.c:55-58 | A lambda runs with its lib on top and leaves the libs as they were |
| `Handlers.RootStays` | src/cixl/cx.c:340-344 | The root scope is never left: there is an error instead; nor is the root lib |
| `SchedulerResults.MutualExclusion` | src/cixl/task.c:179-205 | In every state of every run, `run` plus the threads that hold the VM is 1; while no task holds it, libs, scopes, calls, bin, pc, task and coro are as on entry |
| `SchedulerResults.EachTaskOnce` | src/cixl/task.c:213-235 | Every task is in exactly one of ready queue, done queue, the main thread's hands and the reaped ones; only exited tasks are reaped |
| `SchedulerResults.ReturnsWhenAllDone` | src/cixl/sched.c:96-141 | cx_sched_run returns only when every task has exited and has been reaped once, with the VM as on entry |
| `SchedulerResults.YieldIsFair` | src/cixl/task.c:104-177 | A task that yielded gets the VM back only after another run has been counted or as the last task, and then finds its stacks, bin and pc as it left them |
| `SchedulerResults.FirstRun` | src/cixl/task.c:54-65 | The first run of a task starts on the stacks the run phase was entered with, without bin and pc, and cx->task names it |
| `SchedulerResults.YieldOffers` | src/cixl/task.c:173-177 | A task that yields posts the VM if other tasks live, and nobody holds it then; as the last one it keeps it and finds its own stacks again |
| `SchedulerResults.HandsBack` | src/cixl/task.c:126-172 | After a yield or an end the VM is as it was when the run phase was entered |
| `SchedulerResults.StepsDecrease` | src/cixl/task.c:104-238 | Apart from spinning, every step other than a yield or work on the VM brings the end of the run phase strictly nearer |
| `SchedulerResults.DeadlockIffWrapped` | src/cixl/task.c:113-116 | In every reachable state one or two steps bring the end nearer, if and only if it is not the case that all that is left spins level with the 32-bit run counter; that takes 2^32 runs |
| `SchedulerResults.StuckForever` | src/cixl/task.c:113-116 | That state is never left |
| `SchedulerDeadlock.DeadlockHappens` | src/cixl/task.c:104-124 | There is a run of three tasks that reaches it, with 2^32 + 1 runs counted: one sleeps in its spin loop while the others take turns until the counter has gone round |
| `SchedulerResults.CanComplete` | src/cixl/sched.c:96-141 | From every reachable state the run phase can be completed without further yields while the counter is not about to wrap |
| `SchedulerProof.InvAlways` | src/cixl/sched.c:96-141 | The invariant behind these results holds in every state of every run |
| `SchedulerProof.PlacedKept` | src/cixl/sched.c:110-133 | Every step keeps the queues a partition of the tasks |
| `SchedulerProof.ReportedKept` | src/cixl/task.c:231-235 | Every step keeps the count of reports: none lost, none answered twice |
| `SchedulerProof.FairKept` | src/cixl/task.c:104-124 | Every step keeps waiting tasks behind the run counter, at most one of them level with it |
| `SchedulerProof.VmKeptKept` | src/cixl/task.c:54-102 | Every step keeps the VM at its entry state below whoever is loaded |
| `Rings.Append` | src/cixl/ls.c:8-13 | Adds a node right behind the head of a circular list |
| `Rings.Prepend` | src/cixl/ls.c:15-20 | Adds a node at the end |
| `Rings.Delete` | src/cixl/ls.c:22-25 | Takes a member out and leaves the others in order |
| `Rings.Dequeue` | src/cixl/sched.c:121-122 | Prepending and taking what follows the head is first in, first out |
| `Switching.SuspendResume` | src/cixl/cont.c:48-133 | Suspended on one base and resumed on any other, the VM is the other base followed by the saved suffix in order; taking the suffix away again gives the other base, with the same suffix saved |
| `Switching.UnloadBase` | src/cixl/cont.c:48-93 | Suspending leaves exactly the caller's base |
| `Continuation.Cont.Reset` | src/cixl/cont.c:37-46 | Records the caller's depths and registers |
| `Continuation.Cont.Suspend` | src/cixl/cont.c:48-93 | Moves what lies above the base out of libs, scopes and the fixed calls array and restores the caller's registers |
| `Continuation.Cont.Resume` | src/cixl/cont.c:95-133 | Puts the saved parts on top of whatever the VM holds, within the calls array, and keeps nothing |
| `Continuation.Cont.Finish` | src/cixl/cont.c:135-145 | Pops everything above the latest base |
| `CoroutineResults.OneRunner` | src/cixl/coro.c:93-144 | Only one thread runs; a coroutine runs only in state RESUME and only while cx->coro names it, so a suspension stops the thread that asks for it |
| `CoroutineResults.OneToken` | src/cixl/coro.c:116-128 | on_call never exceeds 1, and holds a token only for a resumed coroutine that waits for it |
| `CoroutineResults.NoLostWakeUp` | src/cixl/coro.c:191-203 | A resumed coroutine that still waits has its token or its caller is about to post it |
| `CoroutineResults.ChainIsResumed` | src/cixl/cont.c:37-56 | From cx->coro through the saved prev_coro one meets exactly the RESUME coroutines, each followed by its caller |
| `CoroutineResults.CallerGetsBack` | src/cixl/coro.c:83-144 | When a call of a coroutine is over, the caller finds stacks and registers as they were, whatever was called inside |
| `CoroutineResults.CalleeGetsBack` | src/cixl/coro.c:116-128 | Called again, after anything, a coroutine continues on the new caller's stacks followed by its own, with its own bin and pc |
| `CoroutineResults.CalleeStarts` | src/cixl/coro.c:97-102 | Called for the first time, a coroutine starts on the stacks, bin and pc of its caller, which goes on to create its thread |
| `CoroutineResults.CreatedOnce` | src/cixl/coro.c:104-107 | In no run is a thread created twice for one coroutine |
| `CoroutineResults.FinishedForGood` | src/cixl/coro.c:83-91 | After its end a coroutine stays done in every later state: it is not in the chain, nobody is about to start it, its thread takes no step, and a call of it changes nothing |
| `CoroutineResults.CallFailsIff` | src/cixl/coro.c:129-137 | In every run a call changes nothing if and only if the coroutine has been called and has not given the VM back, or has come to its end at an earlier step |
| `CoroutineResults.HandOverGoesOn` | src/cixl/coro.c:93-144 | If no thread runs, some protocol step brings one closer to running |
| `Coroutine.InvAlways` | src/cixl/coro.c:83-203 | The invariant behind these results holds in every state of every run |
| `Coroutine.CallKept` | src/cixl/coro.c:97-128 | A call of a new or suspended coroutine keeps it |
| `Coroutine.SuspendKept` | src/cixl/coro.c:191-203 | A suspension keeps it, suspends its own thread and leaves the VM of the call |
| `Coroutine.FinishKept` | src/cixl/coro.c:83-91 | So does the end of a coroutine, which is done, with its thread gone and out of the chain |
| `TypeGraph.Types.AddParent` | src/cixl/type.c:224-232 | After any sequence of edges, cycles included, a type is marked as another exactly if it is that type or reaches it along parent edges |
| `TypeGraph.Types.Derive` | src/cixl/type.c:206-222 | Terminates because every call marks a new pair; marks only reachable pairs; what is next to a newly marked pair is marked |
| `TypeGraph.Types.Is` | src/cixl/type.c:234-267 | For types without parameters: true exactly for the type itself and what it reaches |
| `TypeGraph.Types.New` | src/cixl/type.c:16-55 | A new type is only itself |
| `TypeGraph.PathMarked` | src/cixl/type.c:206-222 | Marks that were exact and are closed at every new pair cover every path of the new graph |
| `Dispatch.Score` | src/cixl/fimp.c:54-92 | The bounded score is the full score (TotalMeans) if the implementation applies (AppliesMeans) and that is below the bound, -1 otherwise |
| `Dispatch.Matches` | src/cixl/fimp.c:94-96 | An implementation matches exactly if it applies (AppliesMeans) |
| `Dispatch.Match` | src/cixl/func.c:133-154 | With running bound and early exit, the result is the earliest applying implementation of least full score; each of its literal arguments meets a value of its type that equals it and each typed one a value of its resolved type; none only if every implementation is too long or has a position that fails |
| `Dispatch.AppliesMeans` | src/cixl/fimp.c:57-89 | An implementation applies if and only if there are enough values and, position by position from the top, each literal meets a value of its type that equals it, each typed argument a value whose type is the resolved one |
| `Dispatch.TotalMeans` | src/cixl/fimp.c:79-89 | Its full score is the sum of the level differences, in either direction, over its typed arguments; literals add nothing |
| `Storage.Malloc.Alloc` | src/cixl/malloc.c:48-65 | Hands out a slot that was not live: the first free one, or the next in the memory of the root slab |
| `Storage.Malloc.NewSlab` | src/cixl/malloc.c:18-27 | A new slab becomes the root only when the old one is full |
| `Storage.Malloc.Free` | src/cixl/malloc.c:67-71 | The block leaves the live ones and heads the free list |
| `Storage.Malloc.Deinit` | src/cixl/malloc.c:39-46 | Releases every slab once |
| `Storage.LiveDisjoint` | src/cixl/malloc.c:57-61 | The cells of two live blocks, at offsets computed from their numbers, lie within the memory of slabs of the list, behind their links, and never overlap; neither block is free |
| `Storage.LiveFreeDisjoint` | src/cixl/malloc.c:67-71 | A live block shares no cell with a free one |
| `Vectors.Vec.Grow` | src/cixl/vec.c:33-57 | Contents stay; slab block exactly at capacity 5 with an allocator; old and new block are exchanged at the places they came from |
| `Vectors.Vec.Drop` | src/cixl/vec.c:21-31 | The block is released to the allocator or the heap it came from |
| `Vectors.Vec.NewCapacity` | src/cixl/vec.c:37-41 | Tripling reaches the wanted capacity and never comes back to 5 |
| `Vectors.Vec.Push` | src/cixl/vec.c:71-74 | Appends, growing when full |
| `Vectors.Vec.Pop` | src/cixl/vec.c:81-85 | Takes the last item and keeps the block |
| `Vectors.Vec.Put` | src/cixl/vec.c:87-96 | Stores at any index; items between the old end and it are zero |
| `Vectors.Vec.Insert` | src/cixl/vec.c:98-109 | What follows moves up by one |
| `Vectors.Vec.Delete` | src/cixl/vec.c:111-118 | What follows moves down by one |
| `Vectors.Apart` | src/cixl/vec.c:43-56 | Two vectors of one allocator own no cell in common, though their blocks may lie in one slab |
| `Vectors.PushApart` | src/cixl/vec.c:71-74 | A push, with all growth and exchange of blocks, leaves every other vector of the allocator valid and with its contents |
| `Tables.Find` | src/cixl/set.c:22-47 | Binary search finds the key or the place where it would keep the order |
| `Tables.Table.Get` | src/cixl/table.c:78-80 | Lookup is the map's |
| `Tables.Table.Put` | src/cixl/table.c:82-93 | Entries stay strictly sorted and the map gets the binding |
| `Tables.Table.Delete` | src/cixl/table.c:95-104 | The key leaves the map; false exactly if it was not there |
| `Tables.Iter.Next` | src/cixl/table.c:15-28 | Entries one by one in their order, then done |
| `Tables.Collect` | src/cixl/table.c:15-28 | An iteration to the end meets every pair of the map once, in strictly ascending key order |
| `Tables.OncePerKey` | src/cixl/table.c:15-28 | An iteration has exactly as many entries as the map has keys |
| `Tables.Inserted` | src/cixl/set.c:61-66 | Inserting where the search ends keeps order and map |
| `Tables.Removed` | src/cixl/set.c:68-74 | Deleting keeps order and takes one key out of the map |
| `Environments.Env.Get` | src/cixl/env.c:19-26 | The early exit finds the latest binding of a tag, or nothing exactly if there is none |
| `Environments.Env.Put` | src/cixl/env.c:28-49 | The new binding is found for its tag, every other lookup is unchanged, chains stay in order and bucket |
| `Environments.Env.Clear` | src/cixl/env.c:51-64 | Every binding is released once and none is found any more |
| `Environments.NoneBeyond` | src/cixl/env.c:22-22 | No binding of a tag lies behind a larger one |
| `Environments.FirstOther` | src/cixl/env.c:40-46 | A new binding hides no other tag |
| `Environments.VarScope.GetVar` | src/cixl/scope.c:65-80 | The binding of the nearest scope of the parent chain that has one; none exactly if no scope has |
| `Environments.VarScope.PutVar` | src/cixl/scope.c:82-91 | One binding per name of a scope: an old one is overwritten |
| `EditDistance.StrDist` | src/cixl/util.c:65-90 | The filled table ends with the distance |
| `EditDistance.ScriptExists` | src/cixl/util.c:77-85 | There is a script of insertions, deletions and substitutions of that length |
| `EditDistance.ScriptsAreLong` | src/cixl/util.c:77-85 | No script is shorter |
| `EditDistance.NearApply` | src/cixl/util.c:77-85 | One edit changes the distance to any string by at most one |
| `EditDistance.Symmetric` | src/cixl/util.c:65-90 | The distance is symmetric |
| `EditDistance.ZeroIffEqual` | src/cixl/util.c:65-90 | It is zero only for equal strings |
| `EditDistance.Triangle` | src/cixl/util.c:65-90 | It satisfies the triangle inequality |
| `Codec.StrRoundTrip` | src/cixl/str.c:112-141 | A written string reads back as itself, in front of anything, if and only if it has no @ directly before n, r, s, t or a digit and no backslash at the end |
| `Codec.CharReadsBack` | src/cixl/char.c:22-45 | Every char reads back, in front of any delimiter |
| `Codec.ReadsNoMore` | src/cixl/parse.c:329-380 | A string that is read up to its own closing quote has no more characters than were written |
| `CodecValues.IntReadsBack` | src/cixl/parse.c:199-261 | Every 64-bit int reads back |
| `CodecValues.ItemsReadBack` | src/cixl/stack.c:165-178 | Written items read back as one token each, up to the closing bracket |
| `CodecValues.PairReadsBack` | src/cixl/pair.c:62-68 | So do the two halves of a pair and the function that joins them |
| `CodecValues.RoundTrip` | src/cixl/parse.c:495-585 | Any value built from ints, chars and clean strings by stacks and pairs reads back as one token that evaluates to it, whatever else is in the language |
| `CodecValues.BlanksSkipped` | src/cixl/parse.c:495-510 | Spaces, tabs and newlines in front of a token, also inside a body, do not matter |
| `CodecValues.NumbersRead` | src/cixl/parse.c:199-261 | Digits, also behind a sign, up to the first character that is neither digit nor point, are the int they spell if it fits 64 bits and an error otherwise |
| `CodecValues.CodesRead` | src/cixl/parse.c:263-327 | The named chars, and any three digits as the char of that code modulo 256 |
| `CodecValues.CharForms` | src/cixl/char.c:22-45 | How every char is written, alone and in a string: the named ones, visible ones as they are, the others by three digits that spell their code |
| `CodecExact.OnlyClean` | src/cixl/parse.c:329-380 | Only a clean string is read as itself, even if reading goes on behind its closing quote |
| `CodecExact.ReadsAsItsToken` | src/cixl/parse.c:495-585 | A value of ints, chars, strings, stacks and pairs is read as the token that belongs to it, and no further, if and only if all its strings are clean: for every rest of the language, such as identifiers, macros, symbols and lambdas |
| `CodecExact.OnlyReadable` | src/cixl/parse.c:418-466 | If nothing but tokens of values is read for a value, and they leave what it is made of or begin to, all its strings are clean |
| `CodecExact.RoundTripIff` | src/cixl/parse.c:495-585 | It evaluates to the value by tokens of values alone if and only if all its strings are clean |
| `CodecExact.OtherTokensMayHelp` | src/cixl/parse.c:143-197 | With other tokens it may come back all the same: a value with a bad string, and a language with a function that makes up for it |
| `CodecStreams.EncodeTo` | src/cixl/str.c:112-135 | The encoder loop writes the encoding to its stream |
| `CodecStreams.WriteTo` | src/cixl/stack.c:165-178 | The write functions append exactly the value's text |
| `CodecStreams.ReadChar` | src/cixl/parse.c:263-327 | Reads what the char grammar gives, pushback included |
| `CodecStreams.ReadStr` | src/cixl/parse.c:329-380 | Reads up to a quote that no backslash precedes |
| `CodecStreams.ReadNum` | src/cixl/parse.c:199-261 | Reads an int within 64 bits, or the characters of a float, and pushes the first other character back |
| `CodecStreams.ReadTok` | src/cixl/parse.c:495-585 | Reads one token; where no value begins, the rest of the language is asked |
| `CodecStreams.ReadBody` | src/cixl/parse.c:418-466 | Reads tokens up to the closing one |
| `Days.TimeDays` | src/cixl/lib/time.c:234-255 | The month loop ends with 365 days a year, the leap days, and the days before the month by the calendar, negated for negative months; to it come the whole days of the nanoseconds, all within 64 bits |
| `Days.WholeYears` | src/cixl/lib/time.c:21-36 | 12y months have 365y + ceil(y/4) - ceil(y/100) + ceil(y/400) days |
| `Days.DayCount` | src/cixl/lib/time.c:21-36 | Adding month lengths is 365y + ceil(y/4) - ceil(y/100) + ceil(y/400) plus 0, 31, 59, 90, 120, 151, 181, 212, 243, 273, 304 or 334 by month, plus 1 from March on in a leap year; negating the months negates the count |

## Left out

- Context.Cx.TurnNormal: ops for libraries, constants, type definitions and argument references are not modelled; they change none of the stacks the results are about, or have no jumps.
- Context.Cx.FimpCall: what a body in another bin does is a parameter; calls from there back into this bin are part of its effect.
- Layout.CodeRunsAsTokens: fuel bounds the depth of calls and the number of recalls and backward jumps; a program that does not end gives None for every amount.
- CompilerProof.CompilerCorrect: identifiers are resolved before compiling and compile errors are not modelled.
- Context.Cx.TurnError: nor are the error handlers of the ops that open and close libraries.
- EmitProof.EmittedRunsAsOps: what is passed is compared for runs that end.
- TailRuns.TailProgramsRunAsTokens: programs with a switch elsewhere inside a clause are outside; of their runs, those that take no wrong jump are right (SaneRunsAsTokens), and each place has an example that is wrong.
- Balance.CompiledCodeBalanced: the same programs are outside, rightly (BodyDiffers, FunctionDiffers); primitives are assumed to leave the three stacks alone and to ask for calls only while no errors are pending; a function entered with errors pending keeps its call record.
- Lexical.SeqStays: primitives and bodies in other bins are assumed to leave parents and homes alone; that a scope object is freed when nothing refers to it any more is not modelled.
- Handlers.SiteRuns: for the loop and the tokens; at a call site of emitted code the difference is ResolvedAlike's.
- SchedulerResults.CanComplete: the push phase, repeated runs of one scheduler, and one scheduler inside another are not modelled; a running task changes the VM only above its base.
- CoroutineResults.CalleeGetsBack: reset and cancel are not modelled; the stacks of scope objects are not part of the moved state.
- Continuation.Cont.Resume: room for 64 calls is a precondition; the original does not check it.
- TypeGraph.Types.AddParent: levels and type redefinition are not modelled.
- TypeGraph.Types.Is: parameterised types are not modelled.
- Dispatch.Score: resolving argument references, levels and the subtype test are taken as given.
- Storage.Malloc.Alloc: slots have room for five items, as the allocator under vectors has; other slot sizes are not modelled.
- Storage.Malloc.Free: the link of a free slot is kept with its address; that it is stored in the slot's first cell is not part of the model.
- Vectors.Vec.Pop: the original aborts on an empty vector; so do several other checks that are preconditions here.
- CodecStreams.ReadTok: floats keep their characters and are not converted; the rest of the language is read and run as given (`Lang`), each piece as one token; rows and columns are not counted.
- Days.TimeDays: calendar fields and formatting are not modelled.
- Row and column positions, the stack and calls an error captures, and reference counts.
- The literal C text of emitted headers and init blocks; only emitted control flow is modelled.
- Files, sockets, polling, processes, terminals and dynamic links.
- Hex coding, character case, arithmetic wrappers and time field getters: easy members.
