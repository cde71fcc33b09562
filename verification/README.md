# SSVM: what its validator, engine, loader, hash and store guarantee

SSVM is a WebAssembly 1.0 virtual machine. This project models five of its parts in Dafny and proves
how they depend on each other.

* **The validator's form checker.** `FormChecker` is the checker with its shared operand stack and control
  stack, updated in place; `Typing` is the same verdict defined by recursion on the code, without any stack.
  `Declarative` holds the typing rules of chapter 3.3 of the WebAssembly Core Specification as a relation on
  operand types, with the opcode tables of `Opcodes`; it and `Principal` prove that the checker accepts exactly
  what the rules type, up to its two liberties with `if`. `Standard` compares it with the standard's treatment
  of the function label. `Validator` is module validation around one reused checker, `ModuleRules` what a valid
  module is without any checker, `Initialisers` and `GlobalInit` what its constant expressions come to.
* **The execution engine.** `Machine` is the flat state machine of the interpreter (values, labels, frames,
  instruction scopes) with every unchecked access that would leave a vector or read a value of another type
  modelled as `Stuck`. `Layers` is the reference semantics of section 4.4 of the WebAssembly Core
  Specification with nested blocks and activations. `Laws` says what each instruction does by the shape of the
  stack it finds. `Engine` holds the stack manager, the instruction provider and the interpreter as objects.
  `Gas` adds the meter, `Worker` the branch of the older engine.
* **The binary loader.** `Leb128`, `Loader`, `FileMgr` and `InstrLoader`; `RoundTrip`, `Locality` and `Refusals`
  state its laws.
* **Keccak.** `KeccakF` (permutation), `KeccakBits` (the same bit by bit, as FIPS 202 defines it), `Sponge`
  (absorbing and padding), `Hasher` (the incremental object).
* **Store and life cycle.** `Store`, `StoreMgr` and `Vm`.

The stack manager is unchecked because it trusts the validator, so the central result crosses the two: a
module that the validator accepts and that meets the side conditions below runs without ever leaving the
stacks' domain, and every call ends, traps, runs out of gas or is still running, with exactly its results on
top of what was there before; what a finished invocation returns is what the run of the call leaves. `Linking`
derives the premise from the validator's verdict on a module, `TypeSafety` proves it for every run, and
`Engine.Interpreter.Invoke` states it for the object that runs.

Some promises do not hold of the code as it is written. For these the project keeps the code, shows an
input, and proves when the promise does hold.

* `popType` before an `if` is called and its answer dropped, so an `if` without a condition is accepted
  (`Gaps.AcceptsMissingCondition`); the condition is there exactly when that pop would have succeeded
  (`Gaps.ConditionNeeded`).
* An `if` with a result and no else arm is accepted; a false condition then leaves nothing
  (`Gaps.AcceptsMissingElse`, `Gaps.MissingElseKeepsPromise`). With both repaired, what is accepted is exactly
  what the typing rules type (`Principal.AcceptedIffTyped`).
* The runtime label of a loop keeps no values, so a loop with a result loses it when it falls through
  (`Gaps.AcceptsLoopResult`, `Gaps.LoopKeepsPromise`). A loop whose end is not reached is fine.
* The outermost control frame has no label types and is never closed. A function may end without its results,
  or with others (`Gaps.AcceptsMissingResult`): it delivers them exactly when the checker's end state has them
  on top (`Preservation.BodyEndDelivers`). A bare branch to the function label is accepted
  (`Gaps.AcceptsBareBranch`): it delivers the results exactly when the checker could have popped them
  (`Preservation.FunctionBranchDelivers`). A valid `br_table` may be rejected (`Gaps.RejectsFunctionLabel`): exactly
  one that mixes the function label with others in a function with results (`Standard.TableRefusedIff`);
  everything else that is valid by the standard's labels is accepted (`Standard.ValidIsAccepted`).
* A constant expression is not closed either: an initialiser may leave nothing, or a value of another type
  (`Gaps.AcceptsWrongConstant`, `Initialisers.AcceptsNoInitialiser`), and it may read a global that is not there
  yet (`Initialisers.AcceptsLaterGlobal`). `Initialisers.InitialiserLeavesIff` says exactly when an accepted
  initialiser leaves a value of the declared type.
* The older worker pops branch labels one at a time, the interpreter all at once; the worker loses branch
  operands unless every label on the way keeps enough (`LabelOrder.EnginesAgreeAlwaysIff`), even of a function
  that meets all conditions (`Examples.WorkerLosesOperand`). Its control stacks stay in lockstep all the same
  (`Worker.WorkerRunLocked`).
* With a zero cost table, or with the default limit, gas does not stop a run (`Gas.SpinsForever`, `Gas.NeverFails`).
* An import while temporary instances exist is not what the next reset keeps (`Store.ImportSurvives`).
* `instantiate` looks for the empty module name before it resets the store, so a second instantiation is
  refused (`Vm.VM.Instantiate`).

The side conditions are collected in `SideConditions.GoodBody`; each one can be decided on the code, and code
that cannot be reached needs none. With them, and with initialisers that meet theirs, nothing else is assumed
of a module: `Initialisers.InstanceIsSafe`.

## Model

| member | source | states |
|---|---|---|
| FormChecker.FormChecker.CheckInstr | lib/validator/formchecker.cpp:120-168 | the stack-based verdict and the new stacks are those of the compositional typing: only the top frame's operands and reachability change |
| FormChecker.FormChecker.CheckInstrs | lib/validator/formchecker.cpp:97-118 | the same for a sequence, through all nested blocks |
| FormChecker.FormChecker.CheckBody | lib/validator/formchecker.cpp:137-168 | a block is accepted exactly when its body, from no operands, ends with exactly its results; the enclosing frame then gains them |
| FormChecker.FormChecker.CheckIf | lib/validator/formchecker.cpp:170-208 | both arms are checked against the result type; the outcome of the condition's pop is ignored |
| FormChecker.FormChecker.CheckBr | lib/validator/formchecker.cpp:210-222 | a branch pops the target's label types and makes the rest unreachable |
| FormChecker.FormChecker.CheckBrIf | lib/validator/formchecker.cpp:223-232 | a conditional branch gives the label types back |
| FormChecker.FormChecker.CheckBrTable | lib/validator/formchecker.cpp:239-272 | all targets exist and have the default's label types |
| FormChecker.FormChecker.CheckCallIndirect | lib/validator/formchecker.cpp:284-299 | needs a function table, a declared type, an index and the arguments |
| FormChecker.FormChecker.CheckSelectOp | lib/validator/formchecker.cpp:310-327 | the two operands agree, Unknown standing for any type |
| FormChecker.FormChecker.CheckVariable | lib/validator/formchecker.cpp:334-387 | locals and globals exchange their declared type; an immutable global cannot be set |
| FormChecker.FormChecker.PopAnyType | lib/validator/formchecker.cpp:679-690 | never pops below the frame height; in dead code an empty frame yields Unknown |
| FormChecker.FormChecker.PopType | lib/validator/formchecker.cpp:692-708 | pops an operand of an expected type and refines Unknown |
| FormChecker.FormChecker.PopTypes | lib/validator/formchecker.cpp:710-717 | pops a list of types, the last one first |
| FormChecker.FormChecker.PushCtrl | lib/validator/formchecker.cpp:719-726 | a new frame starts at the current height, reachable |
| FormChecker.FormChecker.PopCtrl | lib/validator/formchecker.cpp:728-743 | closes a frame exactly when its own operands are its end types |
| FormChecker.FormChecker.MarkUnreachable | lib/validator/formchecker.cpp:745-753 | drops the frame's own operands and no others |
| FormChecker.FormChecker.StackTrans | lib/validator/formchecker.cpp:755-762 | exchanges operands of the top frame |
| FormChecker.FormChecker.Reset | lib/validator/formchecker.cpp:8-22 | the running stacks start over; the module context goes only on request |
| FormChecker.FormChecker.AddFunc | lib/validator/formchecker.cpp:53-57 | a function with an undeclared type is not added, so the context stays valid |
| FormChecker.FormChecker.Validate | lib/validator/formchecker.cpp:24-40 | a body is checked in a frame with no label types and never closed |
| FormChecker.Framing | lib/validator/formchecker.cpp:97-208 | an accepted sequence keeps all lower frames and all operands below the top frame's height; that frame can only become unreachable |
| Opcodes.NumericFamilies | lib/validator/formchecker.cpp:500-669 | every numeric opcode belongs to exactly one family of the opcode table (test, comparison, unary, binary, conversion) and is checked with that family's type |
| Opcodes.MemoryAccesses | lib/validator/formchecker.cpp:389-481 | every memory opcode has the type and the width of its entry in the opcode table |
| Opcodes.AlignedIff | lib/validator/formchecker.cpp:428-430 | the alignment is accepted exactly when it is at most the width of the access |
| Declarative.FixedSig | lib/validator/formchecker.cpp:274-387 | calls, indirect calls, locals, globals, constants, numeric and memory instructions are typed by the rules only with the signature that the checker uses |
| Declarative.BlockComplete | lib/validator/formchecker.cpp:137-168 | a typed block body is accepted, can be closed and has proper ifs only |
| Declarative.StepComplete | lib/validator/formchecker.cpp:120-669 | every instruction that the typing rules type is accepted, and the new state has the resulting types as an instance |
| Declarative.SeqComplete | lib/validator/formchecker.cpp:97-118 | completeness: whatever the rules type is accepted from every state that has the operand types as an instance |
| Principal.UnpopSeq | lib/validator/formchecker.cpp:710-717 | a successful pop read backwards: an instance of what is left, with the popped types put back, is an instance of the state before |
| Principal.FixedTyped | lib/validator/formchecker.cpp:274-387 | the signature that the checker uses for such an instruction is one that the rules allow |
| Principal.StepSound | lib/validator/formchecker.cpp:120-669 | every accepted instruction is typed by the rules, ending in any instance of the new state |
| Principal.SeqSound | lib/validator/formchecker.cpp:97-118 | soundness: every instance of the end state is reached by the rules from an instance of the first state |
| Principal.AcceptedIffTyped | lib/validator/formchecker.cpp:97-118 | the rules take an instance of the first state to given types exactly when the code is accepted, its ifs are proper and these types are an instance of the end state |
| Principal.ClosedIffTyped | lib/validator/formchecker.cpp:728-743 | a block body has a type exactly when it is accepted, can be closed with it and its ifs are proper |
| Principal.BodyIffTyped | lib/validator/formchecker.cpp:24-40 | a function body is accepted, with proper ifs, exactly when the rules type it with some end under a function label that carries nothing |
| Principal.ValidBodyAccepted | lib/validator/formchecker.cpp:24-40 | every body that is valid by the standard is accepted unless a br_table mixes the function label with others |
| Principal.ValidBodyIff | lib/validator/formchecker.cpp:24-40 | where no branch names the function label a body is valid by the standard exactly when it is accepted, could be closed with its results and its ifs are proper |
| Standard.SameSeq | lib/validator/formchecker.cpp:24-40 | the verdict is the standard's when no branch names the function label or there are no results |
| Standard.ValidIsAccepted | lib/validator/formchecker.cpp:24-40 | whatever is valid with the standard's function label is accepted unless a br_table mixes that label with others |
| Standard.AcceptedSeq | lib/validator/formchecker.cpp:97-272 | the simulation behind it, through nested blocks |
| Standard.TableRefusedIff | lib/validator/formchecker.cpp:248-259 | a valid br_table is refused exactly when it mixes the function label with others in a function with results |
| Standard.FunctionBranchVerdicts | lib/validator/formchecker.cpp:210-232 | branches to the function label are always accepted, by the standard exactly when the results can be popped |
| Subsumption.Monotone | lib/validator/formchecker.cpp:97-332 | a state that asks for less accepts as much |
| Subsumption.UnreachableSubsumption | lib/validator/formchecker.cpp:97-332 | what is accepted from a live frame is accepted when it is unreachable and holds only a top part of the operands, and the end states stay related |
| Subsumption.StepCovers | lib/validator/formchecker.cpp:120-332 | the simulation for each instruction |
| Subsumption.SelectCovers | lib/validator/formchecker.cpp:310-327 | the simulation through select, where Unknown meets a type |
| Subsumption.ClosingSubsumption | lib/validator/formchecker.cpp:728-743 | a frame that can be closed can be closed in dead code |
| Subsumption.StaysUnreachable | lib/validator/formchecker.cpp:745-753 | unreachability is never taken back within a frame |
| Refinement.EnclosingOnStacks | include/runtime/stackmgr.h:122-125 | a label index resolves to the enclosing block, whose saved height is what lies below it |
| Refinement.CallerOnStacks | include/runtime/stackmgr.h:80-96 | the top frame's saved heights are what lies below the current call |
| Refinement.LocalOnStacks | include/runtime/stackmgr.h:117-120 | a local slot is found at the frame's base, and writing it changes nothing else |
| Refinement.BranchRefines | lib/interpreter/engine/engine.cpp:656-675 | a branch on the flat stacks is a branch of the nested semantics |
| Refinement.ExitRefines | lib/interpreter/engine/engine.cpp:583-587 | leaving a block likewise |
| Refinement.ReturnRefines | lib/interpreter/engine/engine.cpp:646-654 | leaving a function, with all its labels and scopes, likewise |
| Refinement.CallRefines | lib/interpreter/engine/engine.cpp:589-644 | entering a function likewise; arguments become the first local slots |
| Refinement.ConditionalRefines | lib/interpreter/engine/control.cpp:25-82 | if, br_if, br_table and call_indirect likewise |
| Refinement.StepRefines | lib/interpreter/engine/engine.cpp:520-571 | every step that the nested semantics can make the machine makes too, and its stacks stay a picture of nested layers |
| Layers.PlainIsExec | lib/interpreter/engine/engine.cpp:143-190 | operand instructions follow the reduction rules of the nested semantics on the operands of the innermost block |
| Laws.SelectLaw | lib/interpreter/engine/engine.cpp:152-166 | select leaves the first operand for a non-zero condition and the second one for zero |
| Laws.DropLaw | lib/interpreter/engine/engine.cpp:149-151 | drop removes the top value and changes nothing else |
| Laws.GlobalGetLaw | lib/interpreter/engine/variable.cpp:30-35 | global.get pushes its slot and changes nothing else |
| Laws.GlobalSetLaw | lib/interpreter/engine/variable.cpp:37-42 | global.set moves the top value to its slot and leaves every other slot |
| Laws.LocalGetLaw | lib/interpreter/engine/variable.cpp:11-15 | local.get pushes the slot above the frame's base |
| Laws.LocalSetLaw | lib/interpreter/engine/variable.cpp:17-28 | local.set and local.tee write exactly their slot |
| Laws.ExchangeLaw | lib/interpreter/engine/engine.cpp:192-518 | numeric and memory instructions replace exactly their operands by results of their types, or trap |
| Laws.EntrySlots | lib/interpreter/engine/engine.cpp:624-637 | in a function just entered local.get yields the arguments in order and then the zero of each local's type |
| Laws.IfLaw | lib/interpreter/engine/control.cpp:25-57 | if is the block of the selected arm, nothing when that arm is empty |
| Laws.BrIfLaw | lib/interpreter/engine/control.cpp:63-69 | br_if is br for a non-zero condition and nothing otherwise |
| Laws.BrTableLaw | lib/interpreter/engine/control.cpp:71-82 | br_table is br to the selected entry or to the default |
| Laws.CallIndirectLaw | lib/interpreter/engine/control.cpp:95-124 | call_indirect enters the table entry selected by the operand, or traps when it is missing or of another type |
| Soundness.PopKnown | lib/validator/formchecker.cpp:692-717 | on known operands a pop succeeds exactly when the top operands have the expected types |
| Preservation.BranchSafe | lib/interpreter/engine/engine.cpp:656-675 | an accepted branch, to a block or with its results to the function label, lands in typed code |
| Preservation.ReturnSafe | lib/interpreter/engine/control.cpp:84-84 | an accepted return finds its results and lands in typed code |
| Preservation.IfSafe | lib/interpreter/engine/control.cpp:25-57 | an accepted if with its side conditions stays typed in both arms |
| Preservation.CallSafe | lib/interpreter/engine/engine.cpp:589-644 | a typed call keeps caller and callee typed |
| Preservation.IndirectCallSafe | lib/interpreter/engine/control.cpp:95-124 | an indirect call traps or calls a function of exactly the expected type |
| Preservation.StepSafe | lib/interpreter/engine/engine.cpp:520-571 | progress and preservation: a typed state never goes wrong and its successor is typed |
| TypeSafety.PicturedRun | lib/interpreter/engine/engine.cpp:520-571 | no run of the machine on a good program is ever Stuck |
| TypeSafety.MeteredSafe | lib/interpreter/engine/engine.cpp:520-571 | the same for the metered loop and any number of turns |
| TypeSafety.PicturedEnd | include/runtime/stackmgr.h:87-96 | a finished run leaves empty label and frame stacks, the old values and typed results |
| TypeSafety.CallIsSafe | include/runtime/stackmgr.h:49-51 | type safety of a whole call, for every sequence of numeric, memory and host outcomes |
| TypeSafety.AcceptedRunsLocked | lib/interpreter/engine/engine.cpp:520-571 | the verdict alone, without side conditions, keeps the control stacks in lockstep on every run, of functions and of initialisers |
| Lockstep.AcceptedBranches | lib/validator/formchecker.cpp:210-272 | accepted code at nesting depth d branches only to the d labels of its function |
| Lockstep.BranchLocked | lib/interpreter/engine/engine.cpp:656-675 | such a branch pops only Block scopes and labels of the current frame |
| Lockstep.LeaveLocked | lib/interpreter/engine/engine.cpp:646-654 | a return pops its FunctionCall scope and exactly its labels' scopes |
| Lockstep.RunLocked | lib/interpreter/engine/engine.cpp:520-571 | over every run the scopes are an optional Expression and, per frame, a FunctionCall and as many Blocks as it owns labels; when they are exhausted the labels are empty and only the frames below the run are left, none or the module frame of an initialiser |
| Regions.StepInside | lib/interpreter/engine/engine.cpp:520-571 | a step in an accepted block stays inside or leaves by falling through, branch or return with exactly the promised values |
| Regions.RunningStep | lib/interpreter/engine/engine.cpp:520-571 | the same for a step of the machine's flat stacks |
| Regions.LeftOnStacks | include/runtime/stackmgr.h:98-112 | left, the flat stacks are those at entry, around the target label or of the caller, with values of the promised types on top |
| Regions.BlockExecution | include/runtime/stackmgr.h:98-112 | on every run of the machine an accepted block or loop is open until a first moment at which it traps or has been left so |
| Regions.BlockBegins | lib/interpreter/engine/control.cpp:10-23 | executing a block or loop instruction in a typed state begins such a region |
| Regions.InsideOnStacks | include/runtime/stackmgr.h:98-112 | inside a block nothing below its label height differs from entry except the function's own locals, and the stack never shrinks below it |
| Calls.CallDiscipline | include/runtime/stackmgr.h:80-96 | on every run of the machine a call is open until a first moment at which it traps or has ended with the caller's stacks as they were and values of the result types on top |
| Calls.CallingStep | lib/interpreter/engine/engine.cpp:520-571 | the same for one step of the machine |
| Calls.ReturnStepWithin | lib/interpreter/engine/engine.cpp:646-654 | a return of any program, typed or not, stays within an outer call or ends it with its results |
| Calls.CallBegins | lib/interpreter/engine/control.cpp:86-93 | executing a call of a native function in a typed state begins such a call |
| Calls.WithinOnStacks | include/runtime/stackmgr.h:81-120 | during a call the caller's values, labels and frames are a prefix of the stacks, and every label of the call lies above its parameter and local slots |
| Calls.BackOnStacks | include/runtime/stackmgr.h:88-96 | after it they are the caller's stacks with the results on top |
| Calls.EnteredWithin | lib/interpreter/engine/engine.cpp:624-643 | entering a native function begins such a call |
| Gaps.ConditionNeeded | lib/validator/formchecker.cpp:179-180 | the condition is there exactly when the dropped check succeeds |
| Gaps.LoopKeepsPromise | lib/interpreter/engine/control.cpp:20-23 | falling out of a loop keeps its promise exactly when it promises nothing |
| Gaps.MissingElseKeepsPromise | lib/interpreter/engine/control.cpp:44-56 | a missing else arm keeps the promise exactly when the if promises nothing |
| Preservation.BodyEndTyped | lib/validator/formchecker.cpp:24-31 | when a function body has ended its operands are those with which the checker left it |
| Preservation.BodyEndDelivers | lib/interpreter/engine/engine.cpp:583-587 | leaving it then delivers values of the result types exactly when the checker could have popped these |
| Preservation.FunctionBranchDelivers | lib/interpreter/engine/engine.cpp:656-675 | a branch to the function label delivers values of the result types exactly when the checker could have popped these |
| Preservation.CleanStepSafe | lib/interpreter/engine/engine.cpp:520-571 | progress and preservation for every accepted program with the side conditions, up to the end of a body that falls short of its results |
| Gaps.AcceptsMissingCondition | lib/validator/formchecker.cpp:179-180 | accepted function that pops from an empty stack |
| Gaps.AcceptsMissingElse | lib/validator/formchecker.cpp:186-202 | accepted function whose if leaves no result |
| Gaps.AcceptsLoopResult | lib/validator/formchecker.cpp:150-154 | accepted function whose loop loses its result |
| Gaps.AcceptsMissingResult | lib/validator/formchecker.cpp:29-30 | accepted empty body of a function with a result |
| Gaps.AcceptsBareBranch | lib/validator/formchecker.cpp:29-30 | accepted branch to the function label without its operand |
| Gaps.RejectsFunctionLabel | lib/validator/formchecker.cpp:248-259 | valid br_table to the function label that is rejected |
| Gaps.AcceptsWrongConstant | lib/validator/validator.cpp:423-425 | one constant initialises a value of any type |
| Gaps.GoodExample | lib/validator/formchecker.cpp:24-31 | a function that meets every condition of the safety theorems |
| LabelOrder.UnwindsSuffices | include/runtime/stackmgr.h:104-112 | one-shot and repeated popping agree when every label on the way keeps enough |
| LabelOrder.EnginesAgreeIff | lib/executor/worker.cpp:692-697 | on a stack whose values can be told apart they agree exactly then |
| LabelOrder.EnginesAgreeAlwaysIff | lib/executor/worker.cpp:692-697 | on every content of the stack they agree exactly when heights and coarities of the labels unwind |
| Examples.WorkerLosesOperand | lib/executor/worker.cpp:683-705 | a function that meets every condition and on which a run of the worker fails |
| Examples.FunctionBranchGood | lib/validator/formchecker.cpp:210-222 | a branch to the function label with its operand meets the conditions |
| Examples.ExtraOperandGood | lib/validator/formchecker.cpp:24-31 | so does a body that ends with an operand more |
| Examples.EndlessLoopGood | lib/validator/formchecker.cpp:150-154 | so does a loop with a result whose end is not reached |
| Worker.WorkerPopControl | include/executor/stackmgr.h:144-161 | popping labels one by one removes the same labels and leaves frames and scopes alone |
| Worker.WorkerBranchLocked | lib/executor/worker.cpp:683-705 | the worker's branch pops only Block scopes and labels of the current frame |
| Worker.WorkerRunLocked | lib/executor/worker.cpp:518-705 | over every run of the worker on accepted functions scopes, labels and frames stay in lockstep and end together |
| Worker.BranchesAgree | lib/executor/worker.cpp:692-697 | on nested blocks no assertion fails and both engines take a branch alike whenever every label on the way keeps enough |
| Worker.ReturnsAgree | include/executor/stackmgr.h:112-136 | they leave a function alike, its assertions included, whenever its results are there |
| Worker.WorkerTurnDecreases | lib/executor/worker.cpp:529-563 | each turn of the worker uses gas or leaves a scope for good |
| Worker.WorkerTerminates | lib/executor/worker.cpp:529-563 | the worker's loop ends within a number of turns known at its start and counts at most one instruction more than its gas |
| Gas.AddCost | include/vm/envmgr.h:70-79 | without wrap-around a charge is refused exactly when it exceeds the limit, and the sum never does |
| Gas.MeteringOnlyStops | lib/interpreter/engine/engine.cpp:540-547 | metering never changes what is executed |
| Gas.TurnCost | lib/interpreter/engine/engine.cpp:540-547 | a turn that goes on uses exactly the opcode's cost, that of 0x05 for an entered arm and the own cost of a called host function, and is stopped exactly when less is left; leaving a scope is free |
| Gas.TurnDecreases | lib/interpreter/engine/engine.cpp:520-571 | each turn lowers gas left and scopes, weighted |
| Gas.GasTerminates | lib/interpreter/engine/engine.cpp:520-571 | with positive costs and no wrap-around every run ends within a number of turns known at its start |
| Gas.CountBound | include/vm/envmgr.h:70-79 | from nothing consumed at most CostLimit + 1 instructions are counted |
| Gas.NeverFails | include/support/measure.h:14-17 | with zero cost or the default limit no charge fails |
| Gas.SpinsForever | include/vm/costtable.h:33-34 | a spinning function then never ends |
| Engine.StackManager.PopFrame | include/runtime/stackmgr.h:87-96 | the frame's labels go and its results move to its base |
| Engine.StackManager.PopLabel | include/runtime/stackmgr.h:104-112 | the target's height is restored with its coarity of values on top |
| Engine.StackManager.PushFrame | include/runtime/stackmgr.h:80-85 | a frame starts below its arguments |
| Engine.InstrProvider.GetNextInstr | lib/interpreter/engine/provider.cpp:7-23 | yields the top scope's instructions in order, nothing at its end |
| Engine.InstrProvider.PopInstrs | lib/interpreter/engine/provider.cpp:25-33 | drops the top scope if there is one |
| Engine.Interpreter.EnterNative | lib/interpreter/engine/engine.cpp:624-643 | frame, zeroed locals, scopes and body label in the machine's order |
| Engine.Interpreter.LeaveFunctionOp | lib/interpreter/engine/engine.cpp:646-654 | refines the machine's function exit |
| Engine.Interpreter.BranchToLabel | lib/interpreter/engine/engine.cpp:656-675 | refines the machine's branch, re-entering loops |
| Engine.Interpreter.ExecuteConditional | lib/interpreter/engine/control.cpp:25-82 | refines the machine's if, br_if and br_table |
| Engine.Interpreter.Turn | lib/interpreter/engine/engine.cpp:522-566 | one turn is one step of the metered machine |
| Engine.Interpreter.Execute | lib/interpreter/engine/engine.cpp:520-571 | the loop ends and gives what the metered machine gives |
| Engine.Interpreter.ExecuteAtMost | lib/interpreter/engine/engine.cpp:520-571 | its first turns, with any cost table and limit |
| Engine.Interpreter.InvokeHost | lib/interpreter/engine/engine.cpp:595-623 | the host function's own cost is charged; within the limit the results are those of the host function, or it traps; otherwise nothing is run |
| Engine.Interpreter.Invoke | lib/interpreter/interpreter.cpp:67-104 | on a good program an invocation needs no further precondition on the stacks; finished, trapped and out of gas are what the metered run of the call on these arguments and globals comes to; the results returned, the globals and the meter are those the run leaves, one value of each result type, and all stacks are empty |
| Leb128.Accumulate | lib/loader/filemgr.cpp:260-262 | one turn of the decoding loop continues the digit sum modulo the word |
| Leb128.SignFill | lib/loader/filemgr.cpp:298-300 | the sign fill is subtraction of the run's weight in two's complement |
| Leb128.RunLengthOfRun | lib/loader/filemgr.cpp:255-263 | the decoder stops at the end of the run whatever follows |
| Leb128.UnsignedRoundTrip | lib/loader/filemgr.cpp:251-282 | decoding the encoding of a number gives the number |
| Leb128.SignedRoundTrip | lib/loader/filemgr.cpp:285-322 | decoding the encoding of a signed number gives its word |
| FileMgr.FileMgrVector.ReadByte | lib/loader/filemgr.cpp:227-233 | reads and advances, or reports the end; the position never passes it |
| FileMgr.FileMgrVector.ReadRun | lib/loader/filemgr.cpp:251-265 | the or-and-shift loop computes the digit sum of the run, minimal or padded, and advances by its length |
| FileMgr.FileMgrVector.ReadUnsignedNumber | lib/loader/filemgr.cpp:251-282 | 32- and 64-bit unsigned numbers |
| FileMgr.FileMgrVector.ReadSignedNumber | lib/loader/filemgr.cpp:285-322 | 32- and 64-bit signed numbers, sign-extended from bit 6 of the last byte |
| FileMgr.FileMgrVector.ReadFloat | lib/loader/filemgr.cpp:325-358 | little-endian bits of a float; at the end the position is the code size |
| InstrLoader.LoadNodeArgs | lib/ast/instruction.cpp:19-284 | the node loaders compute the loader function on the remaining bytes |
| InstrLoader.LoadUntilEnd | lib/ast/expression.cpp:8-39 | the loop up to End, for block bodies and whole expressions |
| InstrLoader.LoadBothArms | lib/ast/instruction.cpp:106-146 | the arms of an if; each Else switches to the else arm |
| InstrLoader.LoadLabelTable | lib/ast/instruction.cpp:169-175 | a br_table vector |
| InstrLoader.LoadBrTableArgs | lib/ast/instruction.cpp:160-184 | vector length, vector and default label |
| InstrLoader.LoadCallIndirectArgs | lib/ast/instruction.cpp:187-207 | the byte after the type index must be zero |
| InstrLoader.LoadMemoryArgs | lib/ast/instruction.cpp:220-245 | after memory.size or memory.grow a non-zero byte is followed by a memory argument |
| InstrLoader.LoadConstArgs | lib/ast/instruction.cpp:248-284 | the four constant kinds |
| RoundTrip.U32Printed | lib/loader/filemgr.cpp:251-265 | a printed index is read back, stopping before any trailing bytes |
| RoundTrip.ConstPrinted | lib/ast/instruction.cpp:248-284 | all four constant kinds are read back |
| RoundTrip.BrTablePrinted | lib/ast/instruction.cpp:160-184 | br_table vectors are read back |
| RoundTrip.MemoryPrinted | lib/ast/instruction.cpp:220-245 | memory instructions are read back, those with the extra argument too |
| RoundTrip.ArmsPrinted | lib/ast/instruction.cpp:87-147 | ifs with and without else are read back |
| RoundTrip.NodePrinted | lib/ast/instruction.cpp:19-284 | every instruction tree is read back from its encoding and any trailing bytes |
| RoundTrip.SeqPrinted | lib/ast/expression.cpp:8-39 | every instruction sequence is read back, stopping exactly at the trailing bytes |
| Loader.LoadNode | lib/ast/instruction.cpp:19-284 | loading ends on every byte string and consumes no more than there is |
| Loader.LoadBody | lib/ast/expression.cpp:8-39 | each success consumes at least one byte and no more than there are |
| Locality.NodeLocal | lib/ast/instruction.cpp:19-284 | what is loaded depends only on the bytes consumed |
| Locality.BodyLocal | lib/ast/expression.cpp:8-39 | the same for sequences |
| Locality.ArmsLocal | lib/ast/instruction.cpp:87-147 | the same for the arms of an if |
| Refusals.OpcodeDecides | lib/ast/instruction.cpp:287-301 | an unknown opcode is refused with InvalidGrammar, and a loaded node has the opcode it was announced with |
| Refusals.BlockTypeDecides | lib/ast/instruction.cpp:19-35 | a block, loop or if begins with one of five block types and is refused otherwise |
| Refusals.IndirectDecides | lib/ast/instruction.cpp:187-207 | the byte after the index of call_indirect has to be there and to be zero |
| Refusals.BodyEnds | lib/ast/expression.cpp:8-39 | what is loaded as a sequence ends with the End code |
| Refusals.ArmsEnd | lib/ast/instruction.cpp:105-146 | so do the arms of an if |
| Refusals.RefusedInside | lib/ast/expression.cpp:24-37 | a refused node makes the sequence around it be refused with the same error |
| Refusals.NodeTable | include/common/ast/instruction.h:37-54 | the opcodes without arguments, of structured instructions and of constants load these instructions |
| Refusals.IndexTable | include/common/ast/instruction.h:45-61 | the opcodes of branches, calls and variables load these instructions with the index read |
| KeccakF.RotateMovesBits | thirdparty/keccak/Rotation.h:8-15 | bit z of the rotated word is bit z - n, modulo 64 |
| KeccakF.IndexIsMod | thirdparty/keccak/Keccak.cpp:141-143 | the recursive index is the remainder modulo 5 for negative numbers too |
| KeccakF.RhoWalk | thirdparty/keccak/Keccak.cpp:18-19 | the walk of rho visits 24 different positions other than the origin |
| KeccakF.RhoOffsets | thirdparty/keccak/Keccak.cpp:18-19 | the table R holds the triangular numbers along the walk |
| KeccakF.Triangles | thirdparty/keccak/Keccak.cpp:18-19 | they are triangular numbers modulo 64 |
| KeccakF.RoundConstants | thirdparty/keccak/Keccak.cpp:8-16 | the table RC is what the standard's shift register generates |
| KeccakF.ScatterIsGather | thirdparty/keccak/Keccak.cpp:240-319 | writing lane (x, y) to (y, 2x + 3y) is pi |
| KeccakF.ThetaColumn | thirdparty/keccak/Keccak.cpp:173-238 | a column's update uses the saved parities, so columns already updated do not matter |
| KeccakF.RhoPiColumn | thirdparty/keccak/Keccak.cpp:240-319 | a column of rotations scattered to B |
| KeccakF.ChiColumn | thirdparty/keccak/Keccak.cpp:321-425 | a column of chi computed from B alone |
| KeccakF.ThetaInPlace | thirdparty/keccak/Keccak.cpp:157-238 | the parities and column updates in place are theta of the state before |
| KeccakF.ChiInPlace | thirdparty/keccak/Keccak.cpp:321-425 | the five columns in place are chi of B |
| KeccakF.UnrolledRound | thirdparty/keccak/Keccak.cpp:155-427 | the unrolled in-place round is iota after chi after pi after rho after theta, each on the whole state |
| KeccakF.PermuteInPlace | thirdparty/keccak/Keccak.cpp:152-429 | the in-place permutation is 24 such rounds, whatever the scratch arrays hold |
| KeccakBits.ThetaBits | thirdparty/keccak/Keccak.cpp:157-238 | theta bit by bit: a bit plus the parities of the columns (x - 1, z) and (x + 1, z - 1) |
| KeccakBits.RhoBits | thirdparty/keccak/Keccak.cpp:240-319 | rho bit by bit: bit z comes from z minus the offset of its lane, modulo 64 |
| KeccakBits.PiBits | thirdparty/keccak/Keccak.cpp:240-319 | pi bit by bit: (x, y) comes from (x + 3y, x) |
| KeccakBits.ChiBits | thirdparty/keccak/Keccak.cpp:321-425 | chi bit by bit: a bit plus (not the next one and the one after it) of its row |
| KeccakBits.ConstantBits | thirdparty/keccak/Keccak.cpp:8-16 | bit 2^j - 1 of a round constant is the output of the shift register after 7n + j steps, every other bit is zero |
| KeccakBits.IotaBits | thirdparty/keccak/Keccak.cpp:427-427 | iota adds that bit to lane (0, 0) and changes no other |
| KeccakBits.RoundBits | thirdparty/keccak/Keccak.cpp:155-428 | a round on lanes is the round on bits |
| KeccakBits.PermuteBits | thirdparty/keccak/Keccak.cpp:152-429 | every bit of the permuted lanes is the one that 24 rounds on the state array of bits give |
| Sponge.LaneBytes | thirdparty/keccak/Keccak.cpp:133-136 | a lane loaded from eight bytes holds them lowest first |
| Sponge.LowestFirst | thirdparty/keccak/Keccak.cpp:93-104 | the first byte of a lane is its lowest, the next are those of the shifted lane |
| Sponge.Capacity | thirdparty/keccak/Keccak.cpp:25-33 | rate and twice the hash length make up the 1600 bits of the state |
| Sponge.BlockXored | thirdparty/keccak/Keccak.cpp:133-136 | processing adds the block byte by byte to the front of the state |
| Sponge.Appended | thirdparty/keccak/Keccak.cpp:51-78 | bytes added at the end fill the last block |
| Sponge.RestLength | thirdparty/keccak/Keccak.cpp:51-56 | the bytes waiting are the message length modulo the rate |
| Sponge.PadIsPad101 | thirdparty/keccak/Keccak.cpp:121-131 | the padding bytes are the bits one, zeros, one |
| Sponge.PaddedWhole | thirdparty/keccak/Keccak.cpp:121-131 | padding completes the last block and adds no other |
| Sponge.PaddingInjective | thirdparty/keccak/Keccak.cpp:121-131 | different messages have different padded blocks |
| Sponge.FeedSplit | thirdparty/keccak/Keccak.cpp:51-78 | feeding in pieces is feeding at once, for every split |
| Sponge.ChunkFed | thirdparty/keccak/Keccak.cpp:58-78 | copying a chunk into the buffer is feeding its bytes |
| Sponge.FeedRepresents | thirdparty/keccak/Keccak.cpp:51-78 | the state stands for the message fed: lanes that have absorbed its whole blocks and a buffer with the rest |
| Sponge.DigestIsHash | thirdparty/keccak/Keccak.cpp:80-119 | what is squeezed is the sponge hash of the message, whatever else is in the buffer |
| Hasher.Keccak.AddByte | thirdparty/keccak/Keccak.cpp:50-56 | one byte more; the buffer never stays full |
| Hasher.Keccak.AddData | thirdparty/keccak/Keccak.cpp:58-78 | same lanes, buffer and fill as adding the bytes one by one |
| Hasher.Keccak.AddPadding | thirdparty/keccak/Keccak.cpp:121-131 | the waiting bytes followed by the padding, stale bytes overwritten |
| Hasher.Keccak.ProcessBuffer | thirdparty/keccak/Keccak.cpp:133-139 | absorbs the buffer |
| Hasher.Keccak.Output | thirdparty/keccak/Keccak.cpp:84-106 | the first length / 8 bytes of the state, also when the last lane is cut |
| Hasher.Keccak.Digest | thirdparty/keccak/Keccak.cpp:112-119 | the hash of the bytes added since the last digest, independent of earlier messages; the object is ready for the next |
| Hasher.Keccak.Reset | thirdparty/keccak/Keccak.cpp:41-46 | lanes zero, nothing waiting, buffer bytes left in place |
| Store.PopIsRollback | include/runtime/storemgr.h:190-216 | popping back one by one is rolling back |
| Store.PoolKept | include/runtime/storemgr.h:48-100 | pushes keep the registered prefix, imports extend it |
| Store.ImportSurvives | include/runtime/storemgr.h:48-66 | an import survives a reset exactly when nothing temporary was there |
| Store.DisciplinedRun | include/runtime/storemgr.h:48-109 | in every run with imports only when nothing is pushed, the temporary suffix is the last owned instances and the prefix is what was imported |
| Store.AddressesStable | include/runtime/storemgr.h:112-126 | an address of a registered instance resolves to it for ever |
| Store.ResetRestores | include/runtime/storemgr.h:173-217 | a reset restores the registered prefix exactly |
| StoreMgr.StoreManager.Reset | include/runtime/storemgr.h:173-217 | all five pools roll back; modules keep their addresses and registered ones their distinct names |
| StoreMgr.StoreManager.FindModule | include/runtime/storemgr.h:163-170 | finds a module exactly when one has the name |
| StoreMgr.StoreManager.AddModule | include/runtime/storemgr.h:48-51 | a module is given the next address |
| StoreMgr.StoreManager.RegisterHost | lib/interpreter/interpreter.cpp:24-57 | refused exactly when a registered module has the name; else every export resolves to the host's instance, names stay distinct |
| StoreMgr.StoreManager.Instantiate | lib/interpreter/instantiate/module.cpp:11-87 | a taken name refuses it and changes nothing; else the earlier temporary module goes and this one comes with its instances |
| StoreMgr.StoreManager.AddGlobals | lib/interpreter/instantiate/global.cpp:16-56 | the temporary module without a name is gone afterwards, unless an initialiser failed |
| StoreMgr.StoreManager.PopModule | include/runtime/storemgr.h:102-109 | drops the last temporary module if there is one |
| StoreMgr.GrownRollback | include/runtime/storemgr.h:173-217 | a reset undoes an instantiation and keeps a registration |
| Validator.Validator.Validate | lib/validator/validator.cpp:12-96 | the answer is the verdict on the module, whatever the shared checker has seen before |
| ModuleRules.AcceptedIffValid | lib/validator/validator.cpp:12-96 | the verdict holds exactly of valid modules: min <= max <= 2^16 for memories and 2^32 - 1 for tables, existing indices, a start function without parameters or results, distinct non-empty export names, at most one table and memory, constant initialisers, and every body accepted in the context of imports followed by declarations |
| ModuleRules.DeclarationsIff | lib/validator/validator.cpp:98-128 | limits and imported type indices are accepted exactly when they are in range, for declared and imported tables and memories alike |
| ModuleRules.ImportsAgree | lib/validator/validator.cpp:188-278 | the context built import by import holds, per kind, the imports of that kind in order |
| ModuleRules.FullSpace | lib/validator/validator.cpp:281-309 | function bodies are checked with imports followed by declarations in each index space |
| ModuleRules.FunctionsIff | lib/validator/validator.cpp:281-309 | function and code section come together and each body is accepted with its parameters and locals written out |
| ModuleRules.BodiesTyped | lib/validator/validator.cpp:158-175 | a body of an accepted module is typed by the rules exactly when its ifs are proper |
| Validator.Validator.ValidateFunctions | lib/validator/validator.cpp:281-309 | a function section is accepted exactly when each body is accepted separately in the same context |
| Validator.Validator.ValidateBody | lib/validator/validator.cpp:158-175 | a body is checked with its parameters and expanded locals from a fresh checker |
| Validator.Validator.ValidateConst | lib/validator/validator.cpp:399-426 | a constant expression is checked in the current context and leaves it unchanged |
| Validator.Validator.ValidateImports | lib/validator/validator.cpp:188-278 | imports are accepted one by one and extend the context in order |
| Validator.Validator.ValidateGlobals | lib/validator/validator.cpp:336-345 | each global sees the imports and the globals before it |
| Validator.Validator.ValidateElements | lib/validator/validator.cpp:138-155 | a function table, existing functions and a constant offset |
| Validator.Validator.ValidateData | lib/validator/validator.cpp:178-186 | an existing memory and a constant offset |
| Validator.Validator.ValidateExports | lib/validator/validator.cpp:348-362 | indices exist, names are non-empty and pairwise different |
| Validator.Validator.ValidateRest | lib/validator/validator.cpp:59-95 | elements, data, start, exports and at most one table and memory |
| Linking.SameContext | lib/validator/validator.cpp:158-175 | the context of the soundness argument is the one the validator used |
| Linking.ValidatedIsAccepted | lib/validator/validator.cpp:281-309 | instances of accepted modules meet the premise of the lockstep theorem |
| Linking.ValidatedIsGood | lib/validator/validator.cpp:281-309 | with the side conditions they meet the premise of type safety |
| Linking.ValidatedCallIsSafe | lib/interpreter/interpreter.cpp:67-104 | so every call of a function of such a module is safe |
| Initialisers.RunEvaluates | lib/interpreter/engine/engine.cpp:12-17 | running a constant expression, under whatever frames, pushes its values |
| Initialisers.EvaluatedTyped | lib/validator/validator.cpp:398-426 | the checker computes the types of these values |
| Initialisers.InitialiserLeavesIff | lib/interpreter/instantiate/global.cpp:34-40 | an accepted initialiser leaves a value of the declared type exactly when it reads only globals that are there and the checker's end state has that type on top |
| Initialisers.AcceptsNoInitialiser | lib/validator/validator.cpp:398-426 | an empty initialiser is accepted for every type |
| Initialisers.AcceptsLaterGlobal | lib/interpreter/instantiate/global.cpp:16-26 | an accepted initialiser that reads a global which is not there when it runs |
| Initialisers.InstanceGlobalsTyped | lib/interpreter/instantiate/global.cpp:28-50 | with these conditions the globals of an instance have their declared types |
| Initialisers.InstanceIsSafe | lib/interpreter/interpreter.cpp:67-104 | from the verdict on a module and these conditions alone, every call of its functions is safe |
| GlobalInit.RunInitialiser | lib/interpreter/instantiate/global.cpp:34-40 | one initialiser in the interpreter: its values go on the stack and the last one comes off |
| GlobalInit.InstantiateGlobals | lib/interpreter/instantiate/global.cpp:16-56 | the globals are the last values of their initialisers, and all stacks are as before |
| Vm.OnlyValidated | lib/expvm/vm.cpp:57-213 | in every sequence of public calls each module handed to instantiation is one the validator accepts |
| Vm.ThreeStages | lib/expvm/vm.cpp:164-200 | load, validate, instantiate from any state: an accepted module reaches the last stage and is handed over once, a refused one stays loaded |
| Vm.FailedLoadKeeps | lib/expvm/vm.cpp:164-173 | after a failed load an instantiation is the one of the module that was there |
| Vm.Stages | lib/expvm/vm.cpp:164-200 | on the object: loading succeeds, validation answers the verdict, and instantiation succeeds exactly when the verdict is good, the empty name is free and the initialisers run |
| Vm.VM.Validate | lib/expvm/vm.cpp:175-186 | answers the verdict on the loaded module and moves the stage accordingly |
| Vm.VM.Instantiate | lib/expvm/vm.cpp:188-200 | only from the stage Validated on and only if no module has the empty name; never twice in a row |
| Vm.VM.RegisterHost | lib/expvm/vm.cpp:87-94 | falls back to Validated because the store loses the instantiated module |
| Vm.VM.RegisterWasm | lib/expvm/vm.cpp:72-103 | hands over only an accepted module |
| Vm.VM.RunWasmFile | lib/expvm/vm.cpp:121-151 | hands over only an accepted module, falls back to Validated, and answers what the invocation answers |
| Vm.VM.LoadWasm | lib/expvm/vm.cpp:164-173 | a failed load leaves everything as it was |
| Vm.VM.Cleanup | lib/expvm/vm.cpp:208-213 | back to the start with the registered modules |

## Left out

- Numeric, memory and conversion results: they are typed values chosen by an oracle, and so are traps, host results and memory contents; floating-point constants are bit patterns.
- Instantiation details: import matching, table and memory initialisation and the start function appear as the handles made and success flags.
- More than one module instance: the machine runs the functions of one module; imported functions are host functions with a cost.
- Element and data offsets: they run like the initialisers of globals, with all globals there; what is done with the offset is not modelled.
- Host calls that look up a memory the module does not have.
- Host functions that return gas (`subCost`): the meter only adds.
- Value types of locals outside the four: the loader does not check these bytes; the model has only the four types.
- Alignment exponents: the shift in the alignment check is taken on unbounded numbers, not on 32 bits.
- LEB128 runs longer than ceil(N/7) bytes: the C++ shift is undefined there; the loader function answers `Overlong` and the methods require that it does not occur.
- The value stack of the checker is written with its top last; the source has it first.
- Engine.Interpreter.Execute: requires positive costs and no wrap-around, because with the zero table or the default limit the loop need not end; `Engine.Interpreter.ExecuteAtMost` does not require them. Operand instructions and indirect calls are taken from the machine's definition.
- Engine.Interpreter.Invoke: arguments have the parameter types, because the source compares only their number and a value of another type is then read as it is not.
- LabelOrder.EnginesAgreeIff: assumes that the values on the stack can be told apart, because equal values can hide a lost operand; `LabelOrder.EnginesAgreeAlwaysIff` has no such assumption. Both take the branch operands to lie in the innermost block, as accepted code has them.
- Worker.WorkerRunLocked: the worker's unchecked pops of an empty value stack are modelled as `Stuck`.
- StoreMgr.StoreManager.Instantiate: what is made and whether the initialisers run are parameters; `GlobalInit` models the initialisers.
- Vm.VM.Instantiate: what the interpreter makes and whether it succeeds are parameters; the public getter that hands out the store is not modelled.
- Vm.VM.RunWasmFile: what the invocation answers is a parameter; `Engine.Interpreter.Invoke` models invocations.
- Hasher.Keccak.AddData: the length must be a positive multiple of 32 up to 512, and the machine is little-endian.
- Numeric opcodes are told apart only by their type, as in `Wasm.NumericSig` and `Opcodes.Family`.
- The LLVM function compiler and its library, the file-stream manager, section and module loading, names, JSON snapshots, WASI, EEI and ONNC host modules, the proxy and the command line.
