# Monicelli front end: a verified model

Monicelli is a compiler for an esoteric language: a recursive-descent parser builds a
syntax tree, a printer shows it, and an IR generator turns it into LLVM code. This project
models these three parts in Dafny 4.11 and proves that they do what they are for.

`dafny verify dfyconfig.toml` checks the whole project.

## How it is organised

Every part that works by changing state is a class, and each of its methods is proved
against a function on values that says what the new state is. The theorems are about these
functions, so they hold for the classes too.

| part | class | specification | theorems |
|---|---|---|---|
| IR generator | `IRGenerator.dfy`, `NestedScopes.dfy` | `Codegen.dfy`, `Typing.dfy`, `Modules.dfy` | `Growth`, `SimExpr`, `SimStmt`, `Preservation`, `Allocation`, `Registers`, `WellFormed`, `Progress`, `Linking`, `ReturnStore`, `BranchChain`, `Types`, `Arithmetic`, `Numbers`, `Lowering`, `StaticRules`, `Acceptance`, `Modules` |
| parser | `Parser.dfy` | `Parsing.dfy` | `Soundness`, `Completeness`, `Precedence`, `RoundTrip`, `Noise` |
| printer | `AstPrinter.dfy` | `Printing.dfy` | `Printing`, `Decoding`, `Agreement` |

`Ast.dfy` is the syntax tree. `IR.dfy` is the instruction set with a small-step machine:
current block, position, registers, slots, events. `Source.dfy` is the meaning of the
language itself: a big-step semantics with fuel, which knows nothing of blocks, registers
or slots. `Grammar.dfy` is the grammar as a datatype: every way of writing a module, with
its articles, commas and colons, the tokens of each and the tree each stands for.
`StaticRules.dfy` says which programs are without fault, and which fault comes first, in terms
of names and of four kinds of things: whole numbers, fractional ones, pointers and nothing.
`Frontend.dfy` puts the pieces together.

Both semantics take the outside world as a parameter: what `scanf` delivers and what a
called function does are functions of the events so far, and floating point is any set of
total functions on bit patterns. `Linking.dfy` builds two worlds in which calls run the
functions of the program itself, one with their source and one with their code. There are
no global variables and no way to pass the address of a variable, so a callee cannot touch
the slots of its caller.

An outcome is a returned value, an abort, a callee that never returns (with every finite
beginning of the events it goes on to cause), or undefined
behaviour (division by zero, a shift by too much, a quotient that does not fit, a variable
read before it was given a value). A source program that meets undefined behaviour does so
in the code at the same point, after the same events.

Where the repository's own documentation and its code differ, the model follows the code:
`Necchi` is a 32-bit integer (`src/types.def:10`), although the README promises 64 bits.

## Model

| member | source | states |
|---|---|---|
| `Preservation.CodePreservesMeaning` | src/codegen.cpp:227-433 | for every function the generator accepts, all arguments of its parameter types and every outside world: source and code end in the same outcome after the same events, in both directions; one runs for ever exactly when the other does; and whether they end or not, the events one causes are, in order, the events the other causes; provided the source never uses a variable whose declaration was passed over |
| `Preservation.SourceThenCode` | src/codegen.cpp:227-433 | every run of the source that ends, in anything but the use of a variable whose declaration was passed over, is reproduced by the code: same outcome, same events, no further condition |
| `Preservation.SourceShowsInCode` | src/codegen.cpp:227-433 | every finite beginning of the events of the source, also of one that prints for ever, is a beginning of the events of the code |
| `Preservation.CodeShowsInSource` | src/codegen.cpp:227-433 | and the code causes no other events |
| `Preservation.FunctionCorrect` | src/codegen.cpp:227-276 | for every amount of fuel: whatever the source has done by then the code does in some number of steps; while the source is still running so is the code, after at least that many steps and exactly the same events |
| `Preservation.CodeNeverGetsStuck` | src/codegen.cpp:227-433 | for every function and every run of its code, whatever the arguments and the outside world: no register is read before it is set, no jump leads to a block that is not there, no block is left at its end and `unreachable` is not reached |
| `Progress.NeverStuck` | src/codegen.cpp:227-433 | after any number of steps the machine is inside a block that is not dead code, with a value in every register set so far in it, or has halted in some proper way |
| `Linking.CompiledProgramIsCorrect` | src/codegen.cpp:186-276 | whole programs, with calls nested to any depth: the program in which every call runs compiled code ends as the source program does, and, ending or not, recursing for ever included, causes the same events |
| `Linking.ProgramPreservesMeaning` | src/codegen.cpp:186-276 | the same with any bound on the depth of nested calls: source callees on one side, compiled callees on the other |
| `Linking.EndsOneWay` | src/codegen.cpp:186-276 | the depth is not part of the meaning: run with more of it a program ends in the same way, after the same events |
| `Linking.SameAnswer` | src/codegen.cpp:649-670 | running the code of a function answers a call, with its events and its result, exactly as running its source does, also when it never comes back |
| `Linking.AnswerIsComplete` | src/codegen.cpp:649-670 | no event of the callee is lost or invented on the way to its caller, whether the callee ends or goes on for ever; and the caller is told how it ended and gets its result |
| `Allocation.DefiniteAllocation` | src/codegen.cpp:278-296 | a function in which no name declared in a case body is used outside that body never uses a variable whose declaration did not run, for any nesting of statements |
| `Allocation.CodeAllocatesFirst` | src/codegen.cpp:278-296 | then no run of its code loads from or stores to a slot whose `alloca` has not been executed in that run |
| `Allocation.CaseDeclarationsCanStray` | src/codegen.cpp:373-388 | why the condition is there: case bodies open no scope, so a variable declared in a case is visible after the branch; this function is accepted, and with an argument that does not take the case its code stores to a slot that was never allocated |
| `Allocation.PlainFunctionsConfined` | src/codegen.cpp:373-388 | every function whose case bodies declare nothing in the scope of their branch is one of those, whatever it declares elsewhere |
| `WellFormed.CodeIsWellFormed` | src/codegen.cpp:227-433 | in the code of every function the order of insertion is a permutation of the blocks, and each block is either dead code behind a return or ends in its only terminator, a jump or a return; the entry block stands first and the block of the exit last; jumps lead to blocks that exist and are not dead; only the last instruction of the exit block returns; every register is set by one instruction only, before all its uses and in the same block, so on every path |
| `Registers.CodeRegistered` | src/codegen.cpp:227-433 | every operand of every instruction has a value when it is used: a constant, an argument the function has, or a register set earlier in the block; no register is set twice |
| `Registers.StmtRegistered` | src/codegen.cpp:278-561 | every statement keeps this so |
| `Registers.ExprYields` | src/codegen.cpp:570-670 | and so does every expression, whose operand then has a value in the current block |
| `WellFormed.ReachableBlocks` | src/codegen.cpp:310-318 | every block that a path of jumps from the entry reaches is an inserted block with one terminator, in last position, a jump or a return; the blocks made after a return are never reached |
| `WellFormed.StmtBuilt` | src/codegen.cpp:278-433 | every statement keeps this invariant of the graph under construction: blocks it creates are closed and inserted, its jumps land on live new blocks or on the exit block, older blocks other than the current one are untouched |
| `ReturnStore.ReturnEndsTheRun` | src/codegen.cpp:298-318 | whenever a run of a function with a result reaches the store of a return statement it is over four steps later, with that value as result and without any further event |
| `ReturnStore.AtMostOneReturnStores` | src/codegen.cpp:298-318 | in no run do two return statements store to the result slot |
| `ReturnStore.EntryPointResult` | src/codegen.cpp:237-268 | a finishing run of the entry point returns what its one storing return stored, or 0 when none stored |
| `ReturnStore.StmtTidy` | src/codegen.cpp:278-433 | statements store to the result slot only in a return, right before the jump to the exit block, and never jump back to the entry block |
| `SimExpr.ExprComputes` | src/codegen.cpp:570-670 | code generated for an expression stays in the current block, takes one step for each of its instructions, evaluates operands left to right with every call made once, and leaves the value of the typed source expression in its operand, disturbing neither slots nor older registers; or halts on the way as the source does |
| `SimExpr.ArgsCompute` | src/codegen.cpp:654-669 | arguments are evaluated in order and converted to the parameter types before the call |
| `SimExpr.ConvertComputes` | src/codegen.cpp:684-706 | a conversion computes what the source language says: sign extension (a comparison that is true becomes -1), truncation, integer to float and back |
| `Codegen.GenExpr` | src/codegen.cpp:570-670 | generating an expression only adds straight-line code, all of it at the end of the current block; the operand it yields is a constant, an argument or a register defined before |
| `Codegen.GenArgs` | src/codegen.cpp:654-669 | the same for the arguments of a call |
| `SimExpr.SameType` | src/codegen.cpp:708-759 | the type the generator calculates from its slots is the type the source semantics calculates from its variables |
| `SimStmt.StmtSim` | src/codegen.cpp:278-561 | every statement: from matching states the code reaches a matching state, the exit block with the returned value in the result slot, or the same halt; while the source is still running so is the code, after as many steps as there was fuel and the same events |
| `SimStmt.StmtsSim` | src/codegen.cpp:255-257 | the same for a sequence of statements |
| `SimStmt.LoopSim` | src/codegen.cpp:411-433 | do-while: the body in its own scope, then the condition outside it, for any number of rounds |
| `SimStmt.CasesSim` | src/codegen.cpp:373-388 | a chain of cases: the code tests the conditions in order and enters the body of the first that holds, and joins at the block after the branch; a body that goes on for ever causes the same events |
| `SimStmt.BranchSim` | src/codegen.cpp:359-409 | a branch with its cases and its optional else |
| `SimStmt.VardeclSim` | src/codegen.cpp:278-296 | a declaration allocates its slot before its initialiser is evaluated, with the variable already visible in it |
| `SimStmt.ReturnSim` | src/codegen.cpp:298-318 | a return converts and stores its value and jumps to the exit block |
| `SimStmt.AssertSim` | src/codegen.cpp:542-561 | an assertion that fails aborts, one that holds goes on |
| `SimStmt.PrintSim` | src/codegen.cpp:524-540 | print zero-extends small integers and widens floats |
| `BranchChain.FirstTrueRuns` | src/codegen.cpp:359-409 | in the generated code: from a state that matches the source at a branch whose first k conditions are false and whose next one is true, the machine reaches the start of the body of case k with memory untouched and exactly the events of those k+1 conditions; up to there it is in no block of any body and in no later condition; the body then runs and joins at the block after the branch unless it returns, halts or goes on for ever |
| `BranchChain.NoneRuns` | src/codegen.cpp:359-405 | if all conditions are false the machine reaches the place where the else part is generated, with the events of the conditions, and is in no block of any case body until then |
| `BranchChain.HaltsAtCondition` | src/codegen.cpp:359-388 | a condition that halts ends the run of the code there, without any body or later condition having been entered |
| `BranchChain.HeadsApart` | src/codegen.cpp:373-388 | every case takes at least two new blocks, and the next condition begins in the first of them |
| `BranchChain.SomethingDecides` | src/codegen.cpp:373-405 | one of these three always applies |
| `Growth.StmtGrows` | src/codegen.cpp:278-433 | a statement leaves the depth of the scope stack and every outer scope as they were, and adds to the innermost scope exactly the names it declares there, each with a new slot of its own |
| `Growth.LoopGrows` | src/codegen.cpp:411-433 | after a loop the visible environment is exactly the earlier one |
| `Growth.ElseGrows` | src/codegen.cpp:390-402 | after an else body the visible environment is exactly the earlier one |
| `Growth.BodyBalanced` | src/codegen.cpp:233-257 | the body of a function leaves only the function's own scope open |
| `Types.TypeIsJoinOfLeaves` | src/codegen.cpp:708-759 | an expression has a calculated type exactly when its leaf types can be combined, and the type is then their join |
| `Types.SameLeavesSameType` | src/codegen.cpp:708-737 | two expressions with the same set of leaf types have the same calculated type, whatever their shape and operators |
| `Types.JoinAssociates` | src/codegen.cpp:711-734 | the join of types is associative |
| `Types.JoinLaws` | src/codegen.cpp:711-734 | and commutative and idempotent |
| `Types.GeneratedType` | src/codegen.cpp:570-629 | the value generated for an expression has the calculated type, except that a comparison has type i1; and exactly the comparisons are comparison instructions |
| `Arithmetic.SlotGetsExactly` | src/codegen.cpp:570-594 | in the generated code: for integer expressions over plus, minus and times in which no operation is carried out in a type narrower than n bits, running the code of the expression, its conversion and the store leaves in an n-bit slot the exact integer result reduced to n bits, and touches no other slot |
| `Arithmetic.AssignsExactly` | src/codegen.cpp:320-336 | so an assignment leads to the state in which the variable has that value |
| `Arithmetic.StoredExactly` | src/codegen.cpp:570-594 | the same of the source language: an n-bit variable gets the exact integer result reduced to n bits |
| `Arithmetic.OperandCong` | src/codegen.cpp:570-594 | the operand the code leaves the value of such an expression in is congruent to the exact value modulo 2^n, despite the extension or truncation at every node |
| `Arithmetic.EvalCong` | src/codegen.cpp:570-594 | the same of the source language |
| `Arithmetic.NarrowCodeLosesBits` | src/codegen.cpp:684-695 | why the width condition is there: the code of the sum of two 8-bit variables leaves -56 in a 32-bit slot where the exact sum is 200 |
| `Arithmetic.NarrowLosesBits` | src/codegen.cpp:684-695 | the same of the source language |
| `Modules.FunctionOrderIrrelevant` | src/codegen.cpp:186-204 | any permutation of a module's functions gives the same declared signatures and, for every function, the same body |
| `Modules.DeclaresEach` | src/codegen.cpp:186-225 | declaring succeeds exactly when no name is a builtin or occurs twice; each name then resolves to the one function that has it |
| `Modules.DefinesEach` | src/codegen.cpp:196-199 | what is generated for a module is one item for each function, made from that function and the declared signatures alone |
| `Acceptance.ModuleAccepted` | src/codegen.cpp:186-204 | a module is accepted exactly when it has no fault by the static rules, which are written down in `StaticRules.dfy` without types of the IR, generator state or code: names are new and distinct, every function with a body is without fault; otherwise its first fault is the error reported |
| `Acceptance.FaultlessNeverGoesWrong` | src/codegen.cpp:227-670 | a function without a fault by the static rules, called with values of its parameter types, never goes wrong in any world: no run of the source meets a name that means nothing, an operation its operands do not have or a missing result |
| `Acceptance.FunctionAccepted` | src/codegen.cpp:227-276 | a function is accepted exactly when its header is proper and its body has no fault; otherwise the first fault is the error |
| `Acceptance.StmtAccepted` | src/codegen.cpp:278-561 | every statement, in every state: accepted exactly when it has no fault, otherwise refused with its first one; afterwards the visible names and their kinds are those the rules say |
| `Acceptance.BodyAccepted` | src/codegen.cpp:255-257 | the same for a sequence of statements, each seeing what the earlier ones declared |
| `Acceptance.LoopAccepted` | src/codegen.cpp:411-433 | a loop: its body with a new innermost scope, its condition without it |
| `Acceptance.CasesAccepted` | src/codegen.cpp:373-388 | cases: conditions and bodies in order, what a body declares being visible in all later ones |
| `Acceptance.BranchAccepted` | src/codegen.cpp:359-409 | a branch: its cases, then the else body in a scope of its own, which sees what the cases declared |
| `Acceptance.VardeclAccepted` | src/codegen.cpp:278-296 | a declaration: its type is not void, the innermost scope does not have the name, and the initialiser, which may use the name, converts |
| `Acceptance.AssignAccepted` | src/codegen.cpp:320-336 | an assignment is accepted exactly when the value has no fault, any open scope has the variable, and the value converts to the kind of the innermost one of that name |
| `Acceptance.ReturnAccepted` | src/codegen.cpp:298-318 | a return: its value, if any, has no fault and converts to the kind of the result |
| `Acceptance.InputAccepted` | src/codegen.cpp:497-522 | reading: any open scope has the name and it is that of a number |
| `Acceptance.ConditionAccepted` | src/codegen.cpp:338-357 | a condition: an expression without fault that is a number |
| `Acceptance.ExprAccepted` | src/codegen.cpp:570-670 | an expression: names resolve in some open scope, functions are declared, operands are numbers and those of shifts whole ones, arguments are as many as parameters and convert; otherwise the first fault from left to right is the error |
| `Acceptance.ArgsAccepted` | src/codegen.cpp:654-669 | the arguments of a call, each evaluated and converted before the next is looked at |
| `Acceptance.PrologueAccepted` | src/codegen.cpp:233-253 | the header of a function: an entry point with a whole number as result or none, parameters with types and names of their own; these are then the visible names |
| `StaticRules.Innermost` | src/codegen.cpp:165-171 | a name means the innermost variable of that name, however many scopes lie between |
| `Lowering.LoweredSignature` | src/codegen.cpp:206-213 | the signature of a function has, type by type, what the language says of the declared one: Necchi 32 bits, Mascetti 8, Melandri one, Perozzi single and Sassaroli double precision |
| `Lowering.ArgumentsFit` | src/codegen.cpp:206-213 | the arguments the theorems about code assume: as many as parameters, and each a value of the type declared for its own, -2^31..2^31-1, -128..127 or -1..0 for whole numbers and anything for the others |
| `Lowering.DeclaredSlotHolds` | src/codegen.cpp:278-296 | in the generated code: after a declaration with an initialiser the slot of the variable, of the type just said, holds what its declared type leaves of the value: a whole number modulo 2^32, 2^8 or 2 within the range of Necchi, Mascetti or Melandri, a Perozzi or Sassaroli of its own precision bit by bit, any other cast to it |
| `Lowering.DeclaredHolds` | src/codegen.cpp:278-296 | the same of the source language |
| `Lowering.AssignedSlotHolds` | src/codegen.cpp:320-336 | in the generated code: the same after an assignment to a variable of any open scope |
| `Lowering.AssignedHolds` | src/codegen.cpp:320-336 | the same of the source language |
| `Lowering.ReturnedHolds` | src/codegen.cpp:298-312 | the same of what a function returns, for its declared result type |
| `Lowering.ReadSlotHolds` | src/codegen.cpp:497-522 | in the generated code: after reading, the slot of a Necchi or Mascetti of any open scope holds what was read, reduced to its range, and that of a Perozzi or Sassaroli the bits read |
| `Lowering.ReadHolds` | src/codegen.cpp:497-522 | the same of the source language; if nothing could be read the variable keeps its value |
| `Lowering.AssignedExactly` | src/codegen.cpp:320-336 | for sums, differences and products of any depth: what is left is the exact integer result, reduced to the width of the variable named by its declared type |
| `Lowering.LiteralSlot` | src/types.def:12-14 | in the generated code: a Sassaroli initialised with a literal holds its bits unchanged, a Perozzi the literal in single precision |
| `Lowering.WholeLiteralSlot` | src/types.def:10-13 | in the generated code: a Necchi, Mascetti or Melandri initialised with any whole literal holds it reduced to -2^31..2^31-1, -128..127 or -1..0 |
| `Lowering.PrintsVariable` | src/codegen.cpp:524-540 | what is printed of a variable: a Necchi as it is, a Mascetti between 0 and 255, a Melandri as 0 or 1, a Perozzi in double precision |
| `Numbers.WrapReduces` | src/codegen.cpp:684-695 | truncation to a type gives the one two's complement number of its width that differs by a multiple of the number of values |
| `Numbers.UnsignedReduces` | src/codegen.cpp:530-533 | zero extension gives the one number from 0 up to the number of values that differs by a multiple of it |
| `Numbers.OperatorsReduce` | src/codegen.def:9-15 | sums, differences, products, doubling once for every place shifted left and halving, rounded down, once for every place shifted right, each reduced to the width; a shift by more than the width is undefined |
| `Numbers.DivisionTruncates` | src/codegen.def:9-15 | a quotient is the one whose remainder is smaller than the divisor and has not the sign opposite to the dividend, if it fits; otherwise, and by zero, division is undefined |
| `Numbers.OneQuotient` | src/codegen.def:9-15 | the machine's division is truncated toward zero, and no other quotient is |
| `Numbers.ShiftsDouble` | src/codegen.def:9-15 | multiplying by the machine's power doubles that often, dividing by it halves that often |
| `NestedScopes.NestedScopes.Lookup` | src/codegen.cpp:165-171 | the entry of the innermost scope that has the name |
| `NestedScopes.NestedScopes.Define` | src/codegen.cpp:52-56 | adds the name to the innermost scope unless it is there already, and tells which |
| `NestedScopes.NestedScopes.EnterScope` | src/codegen.cpp:58 | opens an empty innermost scope |
| `NestedScopes.NestedScopes.LeaveScope` | src/codegen.cpp:60-63 | closes the innermost scope |
| `IRGenerator.IRGenerator.EnsureTypeOf` | src/codegen.cpp:684-706 | changes the state as the specification `EnsureType` does and returns its operand or error |
| `IRGenerator.IRGenerator.EvalTruthiness` | src/codegen.cpp:349-357 | a comparison is its own truth value, anything else is compared with zero, as specified by `Truthiness` |
| `IRGenerator.IRGenerator.EvalBooleanCondition` | src/codegen.cpp:338-347 | evaluates a condition and its truth value, as specified |
| `IRGenerator.IRGenerator.VisitExpression` | src/codegen.cpp:631-647 | atomic expressions, and dispatch; new state and value are those of the specification |
| `IRGenerator.IRGenerator.VisitBinaryExpression` | src/codegen.cpp:570-629 | both operands, the type check, the conversions and the operation, as specified |
| `IRGenerator.IRGenerator.CreateOperation` | src/codegen.cpp:578-588 | both operands converted to the calculated type, then the operation, as specified |
| `IRGenerator.IRGenerator.CreateInstruction` | src/codegen.cpp:590-629 | the operator tables: integer or floating point instruction or comparison |
| `IRGenerator.IRGenerator.VisitFunctionCallExpression` | src/codegen.cpp:649-670 | the loop over arguments yields what the recursive specification yields |
| `IRGenerator.IRGenerator.VisitVardeclStatement` | src/codegen.cpp:278-296 | new state as specified; redefinition and inconvertible initialisers are reported |
| `IRGenerator.IRGenerator.VisitReturnStatement` | src/codegen.cpp:298-318 | new state as specified, generation going on in the block after the return |
| `IRGenerator.IRGenerator.VisitAssignStatement` | src/codegen.cpp:320-336 | new state as specified, which `Acceptance.AssignAccepted` says when there is one: the target is looked up in all open scopes, after the value is generated |
| `IRGenerator.IRGenerator.VisitInputStatement` | src/codegen.cpp:497-522 | new state as specified, with a temporary for booleans |
| `IRGenerator.IRGenerator.VisitPrintStatement` | src/codegen.cpp:524-540 | new state as specified |
| `IRGenerator.IRGenerator.VisitAssertStatement` | src/codegen.cpp:542-561 | the three blocks of an assertion, as specified |
| `IRGenerator.IRGenerator.VisitLoopStatement` | src/codegen.cpp:411-433 | blocks, scope and condition of a loop, as specified |
| `IRGenerator.IRGenerator.VisitLoopCondition` | src/codegen.cpp:420-431 | the blocks of the condition and behind the loop, and the jump back, as specified |
| `IRGenerator.IRGenerator.AbortUnless` | src/codegen.cpp:551-559 | branching on a check, with the abort where it fails |
| `IRGenerator.IRGenerator.LeaveFunction` | src/codegen.cpp:313-317 | the jump of a return and the block for what follows it |
| `IRGenerator.IRGenerator.OpenBranch` | src/codegen.cpp:359-371 | the blocks of a branch up to its first condition, and the block after it |
| `IRGenerator.IRGenerator.VisitBranchCase` | src/codegen.cpp:373-388 | one turn of the loop over cases, as specified |
| `IRGenerator.IRGenerator.VisitBranchCases` | src/codegen.cpp:373-388 | the loop over cases does what the recursive specification does |
| `IRGenerator.IRGenerator.VisitBranchElse` | src/codegen.cpp:390-402 | the else body in a scope and a block of its own |
| `IRGenerator.IRGenerator.VisitBranchStatement` | src/codegen.cpp:359-409 | the blocks of a branch, the last of them inserted last |
| `IRGenerator.IRGenerator.VisitBody` | src/codegen.cpp:255-257 | the loop over statements does what the recursive specification does |
| `IRGenerator.IRGenerator.VisitStatement` | src/ast-visitor.h:29-36 | every kind of statement is handled by its own method; new state as specified |
| `IRGenerator.IRGenerator.CreateResultVariable` | src/codegen.cpp:237-245 | the result slot, zero at first in the entry point |
| `IRGenerator.IRGenerator.CopyParameters` | src/codegen.cpp:247-251 | a slot for every parameter, of its declared type and holding the argument, as specified |
| `IRGenerator.IRGenerator.OpenFunction` | src/codegen.cpp:233-253 | scope, entry block, result slot, parameters and exit block, whatever state the previous function left in the blocks and counters |
| `IRGenerator.IRGenerator.CloseFunction` | src/codegen.cpp:259-268 | the jump to the exit block, its insertion and the return |
| `IRGenerator.IRGenerator.VisitFunction` | src/codegen.cpp:227-276 | the result depends on the function and the declared signatures only, and the generator is left as it was found: no scope open, exit block and result variable reset |
| `IRGenerator.IRGenerator.DeclareFunction` | src/codegen.cpp:206-225 | adds the signature of the function, the one `Lowering.LoweredSignature` describes, under its name |
| `IRGenerator.IRGenerator.VisitModule` | src/codegen.cpp:186-204 | builtins and all functions are declared before any body is generated; the result is that of the specification, which `Acceptance.ModuleAccepted` and the contract of `Frontend.GenerateIR` describe |
| `Frontend.ItemsDelivered` | src/codegen.cpp:192-199 | the items are those of the functions, in order, and last that of the entry point; each has the name of its function, or main, its types, and its code if it has a body |
| `Frontend.SignaturesInForce` | src/codegen.cpp:175-194 | in every body every function of the module, wherever it stands, the entry point included, can be called by its name with the types it declares, and besides only abort, printf and scanf |
| `Frontend.ItemsLink` | src/codegen.cpp:192-199 | the program made of the items has every function with a body under its name, the entry point included, and no other; if no name declared in a case is used outside it, it does what the source program does |
| `Precedence.ParsesByLevels` | src/operators.def:24-37 | parsing an expression finds a tree exactly when it is one of the grammar of levels, equality, relations, shifts, sums, products and operands, each associating to the left, and its tokens are those taken |
| `Precedence.Levels` | src/operators.def:24-37 | the trees of that grammar, which names operators and no numbers, are the canonical ones, and each level is reached by its own operators |
| `Precedence.Grouping` | src/parser.cpp:483-509 | for all operands and any two operators in a row: the second takes its operands first exactly when it binds tighter: products tighter than sums, sums than shifts, shifts than relations, relations than equality |
| `Grammar.StreamsEndOnce` | src/parser.cpp:527-540 | the streams of the model are those in which END or UNKNOWN is the last token and occurs nowhere else |
| `Soundness.TermSound` | src/parser.cpp:483-509 | an accepted expression is spelled by exactly the tokens taken, in order; the operator never binds tighter than one on top of its left side, and one on top of its right side always binds tighter, by the order of the operators that `Precedence` writes out; and climbing stops only where no operator of the minimum precedence comes next |
| `Soundness.SentenceSound` | src/parser.cpp:163-222 | an accepted statement is spelled by exactly the tokens taken |
| `Soundness.TextSound` | src/parser.cpp:144-152 | the same for a body, with the commas before statements and at its end |
| `Soundness.ModuleSound` | src/parser.cpp:9-32 | an accepted module is canonical and is spelled by the whole stream |
| `Completeness.TermComplete` | src/parser.cpp:483-509 | every canonical tree is recovered from its flattening, inside call arguments too |
| `Completeness.ClimbsTo` | src/parser.cpp:490-504 | climbing on the tokens of a canonical tree reaches that tree before it looks at what follows |
| `Completeness.SentenceComplete` | src/parser.cpp:163-222 | every canonical statement is recovered from its tokens wherever a statement may end |
| `Completeness.LoopBodyComplete` | src/parser.cpp:399-411 | the statements of a loop up to its condition |
| `Completeness.CaseComplete` | src/parser.cpp:301-312 | a case: its semi-expression, the optional colon and its body |
| `Completeness.ModuleComplete` | src/parser.cpp:9-32 | every canonical module is recovered from its tokens, with functions before and after the entry point |
| `Completeness.AcceptsExactly` | src/parser.cpp:9-469 | a stream is accepted with a module as result exactly when the module is canonical and the stream spells it |
| `Completeness.TermsUnambiguous` | src/parser.cpp:483-509 | two canonical terms with the same tokens are equal |
| `RoundTrip.ModuleRoundTrip` | src/parser.cpp:9-469 | writing any tree of parser shape, at any split of its functions around the entry point, and parsing it gives back exactly that tree |
| `RoundTrip.ParsedIsShaped` | src/parser.cpp:9-469 | every tree the parser returns has that shape: precedence-canonical expressions, conditions of cases with the lead variable on the left, only calls as statements |
| `Noise.NoiseInsensitive` | src/parser.cpp:103-182 | commas before statements and at the end of bodies, articles before variables and colons after conditions or else may be added or removed anywhere without changing acceptance or the tree |
| `Noise.NoCommaBeforeLoopCondition` | src/parser.cpp:406-408 | the exception: any number of commas right before a loop condition is an error |
| `Parser.Parser.constructor` | src/parser.h:17-26 | the parser begins with the first token of the stream as lookahead |
| `Parser.Parser.PeekNextToken` | src/parser.h:57-60 | the next token, which is there whenever tokens remain |
| `Parser.Parser.GetNextToken` | src/parser.cpp:527-540 | takes the next token; the stream is exhausted after END or UNKNOWN and after no other token |
| `Parser.Parser.IgnoreNextToken` | src/parser.h:62-65 | takes the next token and forgets it |
| `Parser.Parser.ReadVariable` | src/parser.cpp:103-117 | takes what the specification takes, or fails with the same error |
| `Parser.Parser.ReadType` | src/parser.cpp:130-142 | the same for a type |
| `Parser.Parser.MaybeReadExpression` | src/parser.cpp:483-509 | the climbing loop returns the tree of the specification, the one `Precedence.ParsesByLevels` describes, and stops at the same token |
| `Parser.Parser.MaybeReadAtomicExpression` | src/parser.cpp:511-525 | an operand, if one comes next |
| `Parser.Parser.ReadFunctionCallExpression` | src/parser.cpp:238-281 | a call with its arguments |
| `Parser.Parser.ReadArguments` | src/parser.cpp:253-268 | the loop over arguments returns what the recursive specification returns |
| `Parser.Parser.ReadExpression` | src/parser.cpp:437-444 | an expression, or an error if none comes next |
| `Parser.Parser.ReadSemiExpression` | src/parser.cpp:458-469 | an optional operator, `==` when there is none, and a whole expression as right side whatever the operator |
| `Parser.Parser.SkipColonToken` | src/parser.cpp:305-307 | takes a colon if one comes next |
| `Parser.Parser.ReadStatements` | src/parser.cpp:144-152 | the loop over statements returns what the recursive specification returns |
| `Parser.Parser.ReadStatement` | src/parser.cpp:154-161 | a statement, or an error if none comes next |
| `Parser.Parser.MaybeReadStatement` | src/parser.cpp:163-182 | skips commas, then a statement if one comes next |
| `Parser.Parser.MaybeReadSentence` | src/parser.cpp:164-182 | every statement that starts with a keyword is told apart by that keyword |
| `Parser.Parser.MaybeReadExpressionStatement` | src/parser.cpp:184-219 | print, assignment or call, told apart by the token after the expression |
| `Parser.Parser.ReadAssertStatement` | src/parser.cpp:224-236 | as specified |
| `Parser.Parser.ReadInputStatement` | src/parser.cpp:283-291 | as specified |
| `Parser.Parser.ReadAbortStatement` | src/parser.cpp:293-299 | as specified |
| `Parser.Parser.ReadVardeclStatement` | src/parser.cpp:377-397 | as specified, with an optional initialiser |
| `Parser.Parser.ReadReturnStatement` | src/parser.cpp:416-435 | as specified, with an optional value |
| `Parser.Parser.ReadLoopStatement` | src/parser.cpp:399-414 | as specified |
| `Parser.Parser.ReadLoopBody` | src/parser.cpp:406-411 | the loop over the statements of a loop returns what the recursive specification returns |
| `Parser.Parser.ReadBranchCase` | src/parser.cpp:301-312 | as specified |
| `Parser.Parser.ReadBranchCases` | src/parser.cpp:337-353 | the loop over cases returns what the recursive specification returns |
| `Parser.Parser.ReadBranchElse` | src/parser.cpp:314-372 | else body and end of the branch |
| `Parser.Parser.ReadBranchStatement` | src/parser.cpp:320-375 | as specified |
| `Parser.Parser.ReadParameters` | src/parser.cpp:73-89 | the loop over parameters returns what the recursive specification returns |
| `Parser.Parser.ReadFunction` | src/parser.cpp:48-101 | as specified |
| `Parser.Parser.ReadEntryPoint` | src/parser.cpp:34-46 | as specified |
| `Parser.Parser.ReadFunctions` | src/parser.cpp:12-22 | the loop over functions returns what the recursive specification returns |
| `Parser.Parser.ReadModule` | src/parser.cpp:9-32 | on every stream whose only END or UNKNOWN is its last token the parser ends with a module or an error, never looks at or takes a token that is not there, and has exhausted the stream, END last, when it returns a module |
| `Decoding.ModuleDecodes` | src/ast-printer.cpp:37-44 | what is printed of a module can be decoded to exactly that module: functions, prototypes, parameters, types, statements, nesting and the entry point; lines are indented by two blanks for each level |
| `Decoding.PrintingInjective` | src/ast-printer.cpp:37-44 | no two modules print alike |
| `Decoding.NamelessLooksLikeEntry` | src/ast-printer.cpp:46-52 | why functions have to have a name: without one a function prints as the entry point does |
| `Decoding.ShapedModulePlain` | src/ast-printer.cpp:37-44 | the trees the parser builds can all be read back |
| `Decoding.FunctionDecodes` | src/ast-printer.cpp:46-79 | a function is recovered from its printed form, whatever follows |
| `Decoding.HeaderDecodes` | src/ast-printer.cpp:47-66 | so are its result type, name and parameters |
| `Decoding.StmtDecodes` | src/ast-printer.cpp:81-167 | every statement is recovered from its printed form at any indentation, whatever line end follows |
| `Decoding.BodyDecodes` | src/ast-printer.cpp:113-116 | so is every statement of a body, in order, up to the closing brace |
| `Decoding.BranchDecodes` | src/ast-printer.cpp:103-133 | a branch, with its lead variable, cases and else |
| `Decoding.CasesDecode` | src/ast-printer.cpp:107-119 | its cases, with their conditions and bodies, in order |
| `Decoding.ElseDecodes` | src/ast-printer.cpp:120-130 | its else body, and whether there is one |
| `Decoding.LoopDecodes` | src/ast-printer.cpp:135-146 | a loop, with its body and condition |
| `Decoding.VardeclDecodes` | src/ast-printer.cpp:94-101 | a declaration, with its type, name and initialiser |
| `Printing.ExprDecodes` | src/ast-printer.cpp:169-210 | at every nesting level the printed form of an expression can be decoded to exactly that tree, canonical or not |
| `Printing.ConditionDecodes` | src/ast-printer.cpp:186-195 | the condition of a case, printed without its left side, can be decoded given the lead variable |
| `Agreement.SameMarks` | src/ast-printer.cpp:169-210 | printed at any level, an expression consists of the same operands, operators and separators in the same order as the tokens that spell it |
| `Agreement.PrinterAgreesWithParser` | src/ast-printer.cpp:169-210 | for every accepted expression: erasing the brackets from the printed form leaves the operands and operators of the source tokens in order, call arguments included |
| `AstPrinter.AstPrinter.Indent` | src/ast-printer.cpp:242-251 | writes as many blanks as the indentation level says, thirty-two at a time |
| `AstPrinter.AstPrinter.DecreaseIndent` | src/ast-printer.cpp:238-240 | takes two off the indentation unless fewer are left |
| `AstPrinter.AstPrinter.WriteType` | src/ast-printer.cpp:25-31 | a type and the mark of a pointer |
| `AstPrinter.AstPrinter.VisitExpression` | src/ast-printer.cpp:169-184 | output grows by the specified pieces and both counters are restored |
| `AstPrinter.AstPrinter.VisitBinaryExpression` | src/ast-printer.cpp:186-195 | the same for operations, parenthesised when nested |
| `AstPrinter.AstPrinter.VisitFunctionCallExpression` | src/ast-printer.cpp:197-210 | the same for calls, indented when not nested |
| `AstPrinter.AstPrinter.VisitArguments` | src/ast-printer.cpp:200-208 | the loop over arguments writes what the recursive specification writes |
| `AstPrinter.AstPrinter.VisitStatement` | src/ast-printer.cpp:81-167 | the same for statements |
| `AstPrinter.AstPrinter.VisitVardeclStatement` | src/ast-printer.cpp:94-101 | the same for declarations |
| `AstPrinter.AstPrinter.VisitBranchStatement` | src/ast-printer.cpp:103-133 | the same for branches, with the indentation restored |
| `AstPrinter.AstPrinter.VisitCases` | src/ast-printer.cpp:107-119 | the loop over cases writes what the recursive specification writes |
| `AstPrinter.AstPrinter.VisitBody` | src/ast-printer.cpp:113-116 | the loop over statements writes what the recursive specification writes |
| `AstPrinter.AstPrinter.VisitCase` | src/ast-printer.cpp:107-119 | the same for one case |
| `AstPrinter.AstPrinter.VisitElse` | src/ast-printer.cpp:120-130 | the same for the else body, with the indentation restored; `Decoding.ElseDecodes` gets the body back from it |
| `AstPrinter.AstPrinter.VisitLoopStatement` | src/ast-printer.cpp:135-146 | the same for loops |
| `AstPrinter.AstPrinter.VisitReturnStatement` | src/ast-printer.cpp:148-155 | the same for returns, whose value counts as nested |
| `AstPrinter.AstPrinter.WriteHeader` | src/ast-printer.cpp:47-66 | return type, name and parameters of a function |
| `AstPrinter.AstPrinter.WriteParams` | src/ast-printer.cpp:55-64 | the loop over parameters writes what the recursive specification writes |
| `AstPrinter.AstPrinter.VisitLines` | src/ast-printer.cpp:71-74 | the loop over the statements of a function body |
| `AstPrinter.AstPrinter.VisitFunction` | src/ast-printer.cpp:46-79 | the same for functions |
| `AstPrinter.AstPrinter.VisitModule` | src/ast-printer.cpp:37-44 | the same for modules |
| `Frontend.Parse` | src/parser.h:23-26 | parsing succeeds exactly when the stream spells a canonical module, one whose expressions group by the order of the operators written out in `Precedence`, and then gives the tree of that module |
| `Frontend.GenerateIR` | src/codegen.cpp:763-767 | every module without a fault by the static rules is accepted and every other refused with its first fault; the result has one item for each function, in order, and one more, last, for the entry point if there is one, each with its own name and types; prototypes exactly for functions without a body; in all others control flow, layout and registers are well formed and the code does what the function says, in every world; and if no name declared in a case is used outside it the program of all generated functions does what the source program does |
| `Frontend.PrintAst` | src/ast-printer.cpp:262-265 | the output for a whole module is the specified one, and decoding it gives back the exact module |

## Left out

- Preservation.CodePreservesMeaning: assumes that the source never uses a variable whose declaration was passed over. `Allocation.DefiniteAllocation` discharges this for every function in which no name declared in a case body is used outside that body, and `Allocation.CaseDeclarationsCanStray` shows a function for which it fails. The condition on the text is sufficient only: whether a use outside the case is ever reached depends on the run. When the source does use such a variable nothing is claimed about the outcome of the code, which may still find the slot that an earlier round of a loop allocated.
- Allocation.DefiniteAllocation: sufficient only, as just said.
- Linking.CompiledProgramIsCorrect: a call to a builtin, to a function without a body or with arguments that are not of its parameter types is answered from outside; the memory a deep recursion takes is not modelled.
- SimStmt.InputSim: reading a boolean counts as undefined behaviour in source and code, because the generator loads a one-bit value from a 32-bit temporary whose contents `scanf` wrote through a format for integers.
- SimStmt.StmtSim: a condition of floating point type counts as undefined behaviour in source and code, because the generator compares floating point values with an integer comparison; comparisons of floats are conditions like any other.
- The machine of `IR.dfy` treats poison and uninitialised reads as undefined at once, where LLVM lets them travel.
- Arithmetic.StoredExactly: the width condition is sufficient only; in a narrower type the result is still exact when no intermediate value overflows.
- Modules.DeclaresEach: a name that is taken is an error, where LLVM renames the second function.
- IRGenerator.IRGenerator.DeclareFunction: the same.
- IRGenerator.IRGenerator.CopyParameters: two parameters with one name are an error, where LLVM renames the second.
- IRGenerator.IRGenerator.VisitModule: two functions with one name, a function named like a builtin and two parameters with one name are errors in the model, where LLVM would rename the second and the generator would fill the first.
- IRGenerator.IRGenerator.VisitFunctionCallExpression: a wrong number of arguments is an error in the model and a failed assertion in the code.
- IRGenerator.IRGenerator.VisitReturnStatement: a value returned from a function without result, like a variable of type void, is an error in the model; the code dereferences a null result variable.
- IRGenerator.IRGenerator.VisitFunction: the null exit block between functions is the block number 0 with no result variable, a state in which no statement is visited.
- Printing.ExprDecodes: output is a sequence of pieces, with identifiers and literals kept apart, not a sequence of characters; the digits of a floating point literal are not modelled.
- Decoding.ModuleDecodes: for modules whose functions, unlike the entry point, have a name, whose semi-expressions stand as conditions of cases and whose expression statements are calls; the lexer and the parser deliver no others.
- AstPrinter.AstPrinter.VisitVardeclStatement: the assertions of the code that no variable or parameter is of type void are not preconditions here; such a tree is printed too.
- Error messages and source locations: errors are the values of an enumeration, one for each place that reports one.
- Pointer types: opaque, never converted, without operations on them.
- Floating point: any total functions on bit patterns; rounding, NaN and infinities are not modelled.
- Constant folding by LLVM's IR builder: the model always emits the instruction.
- `printf` and `scanf` format strings and the cache that shares them: printing and reading are typed events.
- The lexer and its buffer: a stream is a finished sequence of tokens, of which exactly the last is END or UNKNOWN. Tokens the lexer cannot produce, such as a type name for void, are not excluded.
- LLVM's verifier, optimiser and assembly output, the command line, and everything in `src/asmgen.cpp`, `src/main.cpp`, `src/options.cpp`, `src/errors.cpp` and `src/support.cpp`.
