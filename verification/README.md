# CA compiler: a verified model

CA is a compiler for a small Rust-like language. A parser builds the tree and the symbol
tables; `walk()` then goes through the tree twice and emits LLVM blocks. This project models
four parts of it and proves what they promise.

**Lowering.** `Syntax` has the statement trees (blocks, if-chains, while, loop, by-value for,
break, continue, return, goto and label, nested functions) and the checks made while walking.
`Source` gives them a big-step meaning over mathematical integers: control transfers are
outcomes, and a goto resumes the function body at its label. `Target` is the block machine:
registers, memory, phi nodes, one terminator after another, values as bit patterns. `Emit` says
what every walk function appends to the builder. `Generator.Walker` is the walker as it is written, with an
insertion point, an operand stack, a loop-control stack, a label map and a return flag, proved
against `Emit`. `IntTypes` has the cast and comparison tables. `Frame`, `SimExpr`, `SimStmt`
and `Lowering` prove the emitted code simulates the source, both ways; `Whole` puts that in
the code of a whole program. `Structured` says which trees have closed jumps, `ForLoops` what a
`for` visits. `Placement`, `WellFormed`, `Sufficient`, `Necessary` and `Programs` prove exactly
when the emitted functions are well formed, phis included; `Compile` walks a whole program.
`ReturnFlag` proves exactly when the missing-return check is right, `FallsOff` exactly which
functions can run off the end of their body.

Four files hold the shared definitions in place from outside: `Typing` gives the type rules as a
relation, `Laws` the laws of the source language (what each operator computes, which statements can
stand for which), `Listings` compares emitted functions with listings of the repository, and
`Euclid` follows one program from its tree to the machine's answer. `WellFormed` and `Structured`
end with the smallest trees and outputs that are, and are not, closed or well formed.

**Shadowing and patterns.** `Patterns` has the typing and the binding of let patterns against
the places at which a pattern has its names, `..` spelled out. `Shadowing` has the queue of declarations of a name and
its rotation; `LetScope` has plain lexical shadowing, `LetWalk.Scope` the symbol table as parser and
walker update it, and `LetMeaning` proves that parsing and then walking a scope is lexical shadowing.

**Names.** `Mangling` proves that function names can be read back; `LexicalIds` proves when both passes
number lexical bodies alike, so that pass 2 finds each function by the name pass 1 gave it.

**In place.** `StructFields` (cycle-following rearrangement), `UndoLog` (types undone after a
default trait method), `Interner` (names in one growing buffer), `StmtLists` (a stack of growing
arrays), `TraitMatch` (sorted merge and trait coverage).

`dafny verify dfyconfig.toml` checks the whole project.

Every error exit of the compiler is a failure result here. Where the source works step by step
the model is a method or a class with loops; its contract ties it to a specification function,
and the lemmas prove what the source promises about that function.

## What is not as one would expect

These follow from the code as it is; each has a lemma with a concrete input on which the promise
fails and one that says exactly when it holds.

- A label block is looked up by the bare label name in a map that is never cleared, the
  loop-control stack is not saved across a nested function, and the check that would report a label
  that is used but defined nowhere (`Sym_Label_Hanging`, `src/ca_parser.c`, line 1304) is never made.
  So functions are well formed exactly when no label name is defined twice in the program, gotos
  stay in their function and break and continue in a loop of theirs (`Programs.WellFormedIff`;
  inputs: `Programs.SharedLabel`, `Programs.LeakingBreak`, `Programs.LabelNowhere`).
- The return flag is reset by a nested function and not restored (`ReturnFlag.NestedMisleads`,
  `ReturnFlag.CheckRightIff`), and one return anywhere sets it, so it says little about falling off
  the end (`FallsOff.CheckMissesEnd`, `FallsOff.FallsOffIff`).
- An inclusive range up to the type's maximum wraps around and never ends (`ForLoops.FullRange`,
  `ForLoops.RangeEndsIff`).
- A `for` over an array reads each element when its turn comes, so it visits the elements there were
  at the start exactly when none is changed before its turn (`ForLoops.LaterWritten`,
  `ForLoops.ArrayItemsIff`).
- `..` must skip at least one field: `(a, .., b)` is refused for a pair (`Patterns.NoEmptyRest`,
  `Patterns.AcceptedIff`).
- A trait's own scope is not part of a method's name: two traits of one name give their methods for
  one struct the same name (`Mangling.TwoTraits`, `Mangling.TraitCollisionIff`).
- A function compiled inside a default trait method without an association of its own writes types
  that are not undone (`UndoLog.NotRestored`, `UndoLog.RestoredIff`).
- Statements with bodies outside functions, and expressions with bodies, are walked in one pass
  only and shift all later numbers (`LexicalIds.FlowOutside`, `LexicalIds.PassesAgree`).
- `docs/variable-shielding.md` explains why a pattern is rotated as a whole;
  `LetMeaning.PartialRotation` is that argument for any scope.

## Model

| member | source | states |
|---|---|---|
| IntTypes.ArithExact | src/llvm/ir1.cpp:206-217 | wrapping add, sub and mul on patterns give the patterns of the sum, the difference (left minus right) and the product of the values, wrapped to the type |
| IntTypes.Ranges | src/type_system_llvm.cpp:60-82 | the values and the number of patterns of each of the nine types, in numbers |
| IntTypes.WrapIs | src/type_system_llvm.cpp:741-748 | wrapping gives the one value of the type that differs by a multiple of 2^width |
| IntTypes.UnaryExact | src/llvm/IR_generator.cpp:3207-3223 | neg and not on patterns are -v and -1-v wrapped; on bool the latter is logical not |
| IntTypes.CmpExact | src/type_system_llvm.cpp:314-346 | for every type, the predicate the table has for each of `<`, `>`, `>=`, `<=`, `!=`, `==` decides that comparison of the values from their patterns |
| IntTypes.CastLegal | src/type_system_llvm.cpp:396-625 | the cast table refuses exactly the casts of integers to bool, and every other entry is legal for the two widths |
| IntTypes.CastExact | src/type_system_llvm.cpp:741-748 | applying the table's op to the pattern of v gives the pattern of v wrapped to the target type |
| IntTypes.CastThrough | src/type_system_llvm.cpp:741-748 | (v as M) as T is v as T whenever M is at least as wide as T |
| SimExpr.SimR | src/llvm/IR_generator.cpp:473-485 | running the code of a popped expression leaves its value's pattern in the popped operand, the same store and the same calls |
| SimExpr.SimE | src/llvm/IR_generator.cpp:3714-3809 | the code emitted for any expression computes its source value, wherever the insertion point ends up |
| SimExpr.SimLogic | src/llvm/IR_generator.cpp:3681-3712 | the code of a logical and or or yields the short-circuit value and makes the right operand's calls only when it is evaluated |
| SimExpr.SimRight | src/llvm/IR_generator.cpp:3691-3711 | when the right operand is evaluated, the machine comes to the join from the block the right operand ended in, and the phi yields that operand's value |
| SimExpr.SimCall | src/llvm/IR_generator.cpp:3547-3595 | a call passes the argument patterns left to right, and its result is stored in a slot of its own |
| SimExpr.SimArgs | src/llvm/IR_generator.cpp:3400-3411 | the arguments are computed left to right and all hold their values at the call |
| SimStmt.SimS | src/llvm/IR_generator.cpp:1236-1294 | for every statement, entered from above or at a label, each outcome of the source is the place the machine reaches: the end, the loop's exit or test block, the return block with the value in its slot, or the label's block |
| SimStmt.SimSeq | src/llvm/IR_generator.cpp:1236-1239 | the same for statement lists |
| SimStmt.SimIf | src/llvm/IR_generator.cpp:1759-1843 | an if-chain runs exactly the arm of the first true condition, or the else, and then the block after it |
| SimStmt.SimLoop | src/llvm/IR_generator.cpp:1598-1651 | while and loop: the machine goes round as often as the source repeats, and break and continue reach the right blocks |
| SimStmt.SimFor | src/llvm/IR_generator.cpp:1416-1526 | the emitted for runs its body with the same values, in the same order, as the source loop |
| SimStmt.SimIter | src/llvm/IR_generator.cpp:1488-1526 | one test of the index: the index slot holds the next index before the body runs |
| SimStmt.SimRet | src/llvm/IR_generator.cpp:3598-3652 | return puts the value into the return slot and goes to the exit block |
| SimStmt.SimBody | src/llvm/IR_generator.cpp:1212-1234 | gotos followed within a body, forward and backward alike, are followed by the machine |
| Laws.LitMeans | src/llvm/IR_generator.cpp:682-695 | a literal that fits its type is that number; a bool literal is whether it is not 0 |
| Laws.ArithMeans | src/llvm/IR_generator.cpp:3714-3809 | left is evaluated before right; the sum, the left minus the right and the product, wrapped |
| Laws.CmpMeans | src/llvm/IR_generator.cpp:3714-3809 | each comparison is that comparison of the two values |
| Laws.UnaryMeans | src/llvm/IR_generator.cpp:3181-3226 | `-` negates, `!` flips a bool and gives -1-v for a signed number |
| Laws.AsMeans | src/llvm/IR_generator.cpp:3811-3860 | a cast gives the value of the new type that differs by a multiple of 2^width |
| Laws.LogicMeans | src/llvm/IR_generator.cpp:3681-3712 | the right operand is evaluated only where the left does not decide |
| Laws.DeMorgan | src/llvm/IR_generator.cpp:3681-3712 | De Morgan's law for the short-circuit operators, the same calls made |
| Laws.AssignLaw | src/llvm/IR_generator.cpp:2199-2276 | an assignment changes its slot and no other, and the variable then has the value |
| Laws.AssignOpLaw | src/llvm/IR_generator.cpp:2199-2276 | `x op= e` is `x = x op e` |
| Laws.ElseIfLaw | src/llvm/IR_generator.cpp:1759-1843 | a chain of conditions is an if whose else is the rest of the chain |
| Laws.WhileLaw | src/llvm/IR_generator.cpp:1598-1651 | `while c s` is `loop { if c s else break }` |
| Laws.ContinueLaw | src/llvm/IR_generator.cpp:1254-1265 | `continue` at the end of a loop body changes nothing |
| Laws.PairLaw | src/llvm/IR_generator.cpp:1236-1239 | one statement after the other; what follows a return, a jump, a break or a continue is not reached |
| Laws.ReturnLaw | src/llvm/IR_generator.cpp:3598-3652 | a return leaves the body with the value of its expression |
| Laws.GotoLaw | src/llvm/IR_generator.cpp:1212-1234 | a label before an if whose arm ends by going back to it is a while, for every body without jumps out of it |
| Laws.EnterLaw | src/llvm/IR_generator.cpp:1212-1234 | a jump to a label inside a loop's body runs the rest of the body, and then the loop |
| Laws.CallMeans | src/llvm/IR_generator.cpp:3547-3595 | the arguments are evaluated, then the call is made with their patterns; nothing but the record of calls changes |
| Laws.ArgsMeans | src/llvm/IR_generator.cpp:3400-3411 | the last argument is evaluated after all the others |
| Structured.ClosedOutcome | src/llvm/IR_generator.cpp:1212-1265 | a body whose jumps are closed only ever finishes, returns, or goes on |
| Structured.FuelBody | src/llvm/IR_generator.cpp:1598-1651 | more fuel does not change the outcome of a run that had enough |
| Lowering.FunctionRuns | src/llvm/IR_generator.cpp:4576-4640 | forward, for every return type: when the source returns, the machine stops with the same result, store and calls; when the body ends, a void function stops so too, and any other stops with that store and those calls if its return slot was ever written; when the source needs more, the machine runs on |
| Lowering.FunctionReflects | src/llvm/IR_generator.cpp:4576-4640 | backward, for every return type: when the machine is no longer running, the source has finished, and the machine stopped as that outcome says |
| Lowering.DivergesIff | src/llvm/IR_generator.cpp:4576-4640 | a function of any return type runs for ever if and only if its source does |
| Lowering.FallOff | src/llvm/IR_generator.cpp:4550-4574 | from the exit block of a function with a return type, when nothing was returned: the machine halts exactly when the return slot was written, with what is in it |
| Whole.CanStartAt | src/llvm/IR_generator.cpp:5403-5424 | in the code of a whole program each top-level function's blocks are what its own walk emitted; nothing later disturbs them |
| Whole.ProgramFunction | src/llvm/IR_generator.cpp:5403-5424 | for each function of a program with distinct labels and closed jumps, whatever it returns: the machine stops if and only if the source finishes, and then result, store and calls agree |
| Euclid.EuclidRuns | src/llvm/IR_generator.cpp:5403-5424 | the code emitted for Euclid's algorithm (a while, an if-else and two `-=`), started with a and b in their slots, halts with a common divisor that all common divisors divide |
| ForLoops.RangeItems | src/llvm/IR_generator.cpp:1482-1506 | over a range the variable takes a, a+1, ... in order, once each |
| ForLoops.ArrayItems | src/llvm/IR_generator.cpp:1482-1506 | over an array the variable takes exactly the elements, in order, along every run whose visits keep the elements still to come; those already visited may be written |
| ForLoops.ArrayItemsIff | src/llvm/IR_generator.cpp:1482-1506 | the values are the elements there were at the start if and only if each still has that value when its turn comes |
| ForLoops.LaterWritten | src/llvm/IR_generator.cpp:1482-1506 | a body that writes the second of two elements: the loop visits the new value |
| ForLoops.ForVisits | src/llvm/IR_generator.cpp:1469-1526 | with a body that falls through or continues, the loop visits exactly its items and then ends |
| ForLoops.InclusiveMaxRunsOn | src/llvm/IR_generator.cpp:1300-1338 | an inclusive range up to the maximum of the type never ends |
| ForLoops.RangeEndsIff | src/llvm/IR_generator.cpp:1300-1338 | with a body that finishes from every state, however long it takes there, a range loop ends if and only if it is not inclusive up to the maximum |
| ForLoops.FullRange | src/llvm/IR_generator.cpp:1300-1338 | an empty loop over 0..=255 of u8 never ends |
| Generator.Walker.PopRightValue | src/llvm/IR_generator.cpp:473-485 | takes the top operand, loading it if it is an address; the stack below is untouched |
| Generator.Walker.WalkExpr | src/llvm/IR_generator.cpp:5096-5102 | succeeds exactly on well-typed expressions, appends exactly `EmitE`, and leaves the old operand stack with this expression's operand on top; for a literal that is the constant whose pattern stands for the number written (for bool, 1 exactly when it is not 0) |
| Generator.Walker.WalkValue | src/llvm/IR_generator.cpp:473-485 | walking and popping leaves the operand stack as it was and gives this expression's value and type |
| Generator.Walker.WalkUnary | src/llvm/IR_generator.cpp:3181-3226 | the operand is replaced by the result; after `-` its type is one of i8, i16, i32, i64 and bool, so `-` is refused on unsigned types |
| Generator.Walker.WalkOp2 | src/llvm/IR_generator.cpp:3714-3809 | both operands of one type; left is walked and popped before right |
| Generator.Walker.WalkLandor | src/llvm/IR_generator.cpp:3681-3712 | appends exactly what `LandorPart` says |
| Generator.Walker.Join | src/llvm/IR_generator.cpp:3699-3711 | the phi names the block at the insertion point after the right operand, not the one it began in |
| Generator.Walker.WalkAs | src/llvm/IR_generator.cpp:3811-3860 | refused exactly where the cast table has no entry |
| Generator.Walker.WalkCall | src/llvm/IR_generator.cpp:3547-3595 | arguments, call, result slot; one operand is left |
| Generator.Walker.ValuesFromExprs | src/llvm/IR_generator.cpp:3400-3411 | pops each argument as it is walked; the operand stack is as before |
| Generator.Walker.WalkStmt | src/llvm/IR_generator.cpp:5096-5102 | succeeds exactly on accepted statements, appends exactly `EmitS`, restores function and loop stack, keeps the old operand stack as a prefix, and leaves the return flag as `RetFlag` says |
| Generator.Walker.WalkAssign | src/llvm/IR_generator.cpp:2199-2276 | value, load for an operator assignment, store; a left-over operand stays on the stack |
| Generator.Walker.WalkStmtList | src/llvm/IR_generator.cpp:1236-1239 | the statements' code in order |
| Generator.Walker.WalkBreak | src/llvm/IR_generator.cpp:1241-1252 | a branch to the innermost loop's exit, then a fresh block |
| Generator.Walker.WalkContinue | src/llvm/IR_generator.cpp:1254-1265 | a branch to the innermost loop's test, then a fresh block |
| Generator.Walker.WalkRet | src/llvm/IR_generator.cpp:3598-3652 | refused on the wrong type; stores, branches to the exit block and sets the flag |
| Generator.Walker.LabelBlock | src/llvm/IR_generator.cpp:1182-1190 | one block for each label name |
| Generator.Walker.WalkGoto | src/llvm/IR_generator.cpp:1212-1234 | a branch to the label's block, then a fresh block |
| Generator.Walker.WalkLabel | src/llvm/IR_generator.cpp:1175-1210 | falls through into the label's block, which is placed here |
| Generator.Walker.WalkLoop | src/llvm/IR_generator.cpp:1267-1294 | exactly the loop's blocks; the loop stack is restored |
| Generator.Walker.WalkWhile | src/llvm/IR_generator.cpp:1598-1651 | exactly the while's blocks; a condition that is not bool is refused |
| Generator.Walker.WalkFor | src/llvm/IR_generator.cpp:1340-1526 | exactly the for's blocks |
| Generator.Walker.ForTest | src/llvm/IR_generator.cpp:1469-1513 | test, copy to the variable and step of the index, in this order |
| Generator.Walker.GenIfBlocks | src/llvm/IR_generator.cpp:1785-1802 | which blocks an if-chain creates, and in which order |
| Generator.Walker.WalkConds | src/llvm/IR_generator.cpp:1805-1823 | each condition in the block its predecessor falls to |
| Generator.Walker.WalkBodies | src/llvm/IR_generator.cpp:1828-1834 | each body in its own block, ending with a branch to the common exit |
| Generator.Walker.WalkIf | src/llvm/IR_generator.cpp:1759-1843 | exactly the if-chain's blocks |
| Generator.Walker.WalkFnDefine | src/llvm/IR_generator.cpp:4576-4672 | a function of its own blocks; insertion point and current function come back, the return flag is the inner function's |
| Generator.Walker.GenerateFinalReturn | src/llvm/IR_generator.cpp:4550-4574 | a non-void function needs the flag; it loads and returns the slot |
| Typing.TypedIff | src/llvm/IR_generator.cpp:3181-3860 | the walker types an expression as the typing rules do, which are given as a relation: operands of one type, no minus on unsigned types, no cast of a number to bool |
| Typing.WellTypedIff | src/llvm/IR_generator.cpp:1175-1843 | a statement is accepted exactly when every statement in it keeps the type rules, nested functions with their own return type included |
| Listings.LandIs | test/op/land.ca.ll:6-31 | the blocks, instructions and phi of this listing, and those of `test/op/lor.ca.ll`, in order; memory allocation left out |
| Listings.WhileListed | test/flow/while3.ca.ll:11-54 | the blocks of this listing, the unreachable one after the break included, in order and instruction by instruction; memory allocation and printing left out |
| Placement.AddsS | src/llvm/IR_generator.cpp:1175-1294 | a statement places blocks in its own or in new functions only, and the label blocks are placed exactly in the order the labels are written |
| Sufficient.ThroughS | src/llvm/IR_generator.cpp:1175-1265 | with distinct labels and resolved jumps every block left behind is sealed and every target is known |
| Sufficient.ThroughFn | src/llvm/IR_generator.cpp:4600-4634 | a whole function is closed: all its blocks sealed, all its targets its own |
| Necessary.NeedS | src/llvm/IR_generator.cpp:1175-1265 | if the finished program is well formed, this statement's jumps were resolved and its labels placed once |
| Necessary.NeedFn | src/llvm/IR_generator.cpp:4600-4634 | the same for a nested function, which must use its own labels and loops |
| Programs.WellFormedIff | src/llvm/IR_generator.cpp:1175-1265 | every emitted function is well formed (each block has one terminator, last; each target is a block of the function placed exactly once; a phi comes first and names two different blocks, exactly the placed blocks that branch to it) if and only if no label name is defined twice in the program and all jumps stay in their own function and loop |
| Programs.SharedLabel | src/llvm/IR_generator.cpp:1182-1190 | two functions with a label of one name are accepted and come out ill formed |
| Programs.LeakingBreak | src/llvm/IR_generator.cpp:1241-1252 | so does a break of a nested function inside a loop of the outer one |
| Programs.LabelNowhere | src/llvm/IR_generator.cpp:1212-1234 | and a goto to a label that is defined nowhere |
| Compile.CompileProgram | src/llvm/IR_generator.cpp:5403-5424 | walking a program succeeds exactly on accepted programs; the walker then holds exactly `EmitSeq` of its functions from the empty start, which is well formed exactly as `WellFormedIff` says |
| Programs.DistinctIff | src/ca_parser.c:1304-1349 | the labels a walk places are distinct exactly when the tree's labels are |
| ReturnFlag.FlagIsLast | src/llvm/IR_generator.cpp:4550-4580 | the flag is decided by the last return or nested function alone |
| ReturnFlag.CheckRightIff | src/llvm/IR_generator.cpp:4550-4580 | the missing-return check answers whether the body has a return of its own if and only if the last thing that touched the flag is a return, or a nested function that left what a return among the others would have left, or nothing touched it |
| ReturnFlag.NestedMisleads | src/llvm/IR_generator.cpp:4550-4580 | a body that returns is refused, and one that never returns is accepted, because of a nested function |
| FallsOff.FallsOffIff | src/llvm/IR_generator.cpp:4550-4574 | an accepted function without gotos can run off the end of its body, for some choice of its conditions and range bounds, if and only if its shape leaves a way there |
| FallsOff.Only | src/llvm/IR_generator.cpp:1236-1294 | a run of a statement without gotos ends, breaks or continues only where its shape allows that |
| FallsOff.Steer | src/llvm/IR_generator.cpp:1236-1294 | and each way its shape allows is taken from every state, with suitable conditions and bounds |
| FallsOff.CheckMissesEnd | src/llvm/IR_generator.cpp:4550-4574 | the check accepts a function that can run off its end and refuses one that cannot |
| Patterns.BindTyped | src/llvm/IR_generator.cpp:2736-2823 | binding picks for every variable a value of the type that typing gave it |
| Patterns.AcceptedIff | src/llvm/IR_generator.cpp:2556-2639 | a pattern is accepted if and only if its form with `..` spelled out fits the type (a struct item is matched against the first field of its name, or the field of its number in a named tuple) and each `..` skips at least one field |
| Patterns.NoEmptyRest | src/llvm/IR_generator.cpp:2572-2577 | `(a, .., b)` is refused for a pair though its spelled-out form fits |
| Patterns.BindMeans | src/llvm/IR_generator.cpp:2762-2823 | a name is bound to a value if and only if the value is at a place where the spelled-out pattern has the name: the field of an item's name or number, `@` names included |
| Patterns.DetermineMeans | src/llvm/IR_generator.cpp:2533-2668 | a name gets a type if and only if the type, signature included, is at a place where the spelled-out pattern has the name |
| Patterns.OccursSpelled | src/llvm/IR_generator.cpp:2556-2639 | spelling out `..` moves no name: items before it are for the fields from the left, items after it for the fields from the right |
| Patterns.ByName | src/llvm/IR_generator.cpp:2539-2546 | in `let P { x: a, y: b } = p` each variable gets the type and the value of the field it names, in whatever order they are listed |
| Shadowing.RotateOrder | src/llvm/IR_generator.cpp:2916-2926 | a rotation turns a name's queue round by one place, either way |
| Shadowing.RotateInverse | src/llvm/IR_generator.cpp:2916-2974 | forward then backward, or backward then forward, is the identity on the whole symbol table |
| Shadowing.RegisterAllIff | src/ca_parser.c:974-1040 | pass 1 succeeds exactly when no let declares a name twice and none is something else; each name's queue then lists its declarations in order |
| Shadowing.Forward | src/llvm/IR_generator.cpp:2991-3009 | rotating let k's pattern forward brings all its names to their declaration k |
| Shadowing.Backward | src/llvm/IR_generator.cpp:3022-3032 | rotating it back restores the table before let k, for the right side |
| Shadowing.UseSees | src/llvm/IR_generator.cpp:2977-3032 | a use sees the last declaration before it |
| Shadowing.SitesAre | src/ca_parser.c:974-994 | a name's declarations are all the lets that declare it, the earlier ones first |
| Shadowing.TurnedStart | src/llvm/IR_generator.cpp:3003-3032 | after the last let every queue is as pass 1 left it |
| Shadowing.QueuedSame | src/llvm/IR_generator.cpp:3003-3032 | that state is unique: the table is restored exactly |
| LetScope.BindNames | src/ca_parser.c:1042-1120 | the names bound are exactly the names registered, in the same order |
| LetScope.SwapLaw | docs/variable-shielding.md:83-123 | `let (a, b) = (b, a);` swaps: the right side means the declarations before it |
| LetWalk.Scope.RegisterVariable | src/ca_parser.c:974-994 | a new entry, or the old current joins the queue; refused for a name twice in a binding or not a variable |
| LetWalk.Scope.RegisterPattern | src/ca_parser.c:1100-1120 | registers exactly the pattern's names, or fails where a name is refused |
| LetWalk.Scope.RotateVariable | src/llvm/IR_generator.cpp:2916-2926 | pops one end of the queue and pushes the other |
| LetWalk.Scope.RotatePattern | src/llvm/IR_generator.cpp:2928-2974 | rotates exactly the names of the pattern tree |
| LetWalk.Scope.DetermineType | src/llvm/IR_generator.cpp:2533-2668 | succeeds exactly when `Determine` does, and assigns its types to the current declarations |
| LetWalk.Scope.BindValue | src/llvm/IR_generator.cpp:2736-2913 | assigns the bound values to the current declarations |
| LetMeaning.ParseScope | src/ca_parser.c:1163-1192 | pass 1 over a scope accepts exactly the programs `ParseOk` describes and leaves the queues in order |
| LetMeaning.WalkLet | src/llvm/IR_generator.cpp:2977-3079 | one let in pass 2: afterwards the current declarations hold the lexical environment |
| LetMeaning.WalkScope | src/llvm/IR_generator.cpp:2977-3079 | a walked scope means lexical shadowing, fails exactly when that does, and leaves the table as it was |
| LetMeaning.PartialRotation | docs/variable-shielding.md:83-123 | rotating back only part of a pattern shows a left-out name at the let being evaluated |
| Mangling.MangleFunctionName | src/llvm/IR_generator.cpp:4282-4329 | the two passes over the scopes produce the mangled name, which begins with the prefix; a function outside all scopes keeps its bare name |
| Mangling.BookNames | book/ca-book.md:2623-2624 | the two methods the book lists have the names it lists |
| Mangling.TestName | test/type_impl/inner_function3_0.ca.ll:23-23 | the inner function of this listing has the name it shows |
| Mangling.DemangleBack | src/llvm/IR_generator.cpp:4282-4420 | a demangler recovers the whole path: block ids, functions, struct, trait and method |
| Mangling.FullNameInjective | src/llvm/IR_generator.cpp:4341-4420 | two functions have the same module name if and only if they have the same path |
| Mangling.MangledNotIdent | src/llvm/IR_generator.cpp:4286-4286 | no mangled name is a name a program can write |
| Mangling.TraitCollisionIff | src/llvm/IR_generator.cpp:4383-4417 | two methods of traits have the same module name if and only if they differ in nothing but where their traits are declared |
| Mangling.TwoTraits | src/llvm/IR_generator.cpp:4398-4404 | two traits `T` of two functions, both implemented for one struct: one name |
| LexicalIds.LexWalker.WalkNode | src/llvm/IR_generator.cpp:5009-5051 | a walk makes exactly the visits of `Visits` and restores the scope stack |
| LexicalIds.LexWalker.WalkBody | src/llvm/IR_generator.cpp:5009-5051 | a lexical body is numbered, pushed, walked and popped |
| LexicalIds.CountIs | src/llvm/IR_generator.cpp:5411-5420 | the counter counts the bodies entered |
| LexicalIds.IdsInOrder | src/llvm/IR_generator.cpp:5411-5420 | the bodies are numbered 1, 2, 3, ... in the order in which they are entered |
| LexicalIds.InnerFunction | test/type_impl/inner_function3_0.ca.ll:6-23 | a function inside the if of main: its visits in either pass, and the name the listing shows |
| LexicalIds.PassesAgree | src/llvm/IR_generator.cpp:5403-5424 | both passes give every body the same number and every function the same name if and only if no statement with bodies is outside a function and no expression has bodies |
| LexicalIds.FlowOutside | src/llvm/IR_generator.cpp:5403-5424 | a statement with a body outside functions, then a function in a block: pass 2 looks for it under a name pass 1 did not give |
| LexicalIds.SeqUnambiguous | src/llvm/IR_generator.cpp:4341-4357 | no two functions of a program have the same path |
| LexicalIds.NameFindsFunction | src/llvm/IR_generator.cpp:5403-5424 | in such a program the name formed in pass 2 is the one from pass 1 and belongs to no other function |
| StructFields.NoneTwiceInCopy | src/llvm/IR_generator.cpp:4031-4040 | comparing neighbours of the sorted copy finds a field given twice, and only then |
| StructFields.CloseCycle | src/llvm/IR_generator.cpp:4046-4061 | going round one cycle fixes its first index, unfixes none, and keeps what goes where |
| StructFields.Rearrange | src/llvm/IR_generator.cpp:4042-4062 | for every permutation each value ends where its order says, and the order becomes the identity |
| StructFields.StructValues | src/llvm/IR_generator.cpp:3972-4062 | accepted exactly when each field is given once; each field then has its own value |
| StructFields.CoversIff | src/llvm/IR_generator.cpp:4031-4040 | the condition for acceptance, said of the items: as many as fields, and exactly one for each |
| UndoLog.TypeStore.RecordReplace | src/llvm/IR_generator.cpp:1103-1141 | logs the first changing write of an address, in the innermost frame, if it has an association |
| UndoLog.TypeStore.HandleReplace | src/llvm/IR_generator.cpp:1143-1150 | writes every logged value back |
| UndoLog.TypeStore.Compile | src/llvm/IR_generator.cpp:4587-4668 | a function pushes its frame, and undoes and pops it at the end |
| UndoLog.Restored | src/llvm/IR_generator.cpp:1103-1150 | after a default trait method every address has its value at entry, however often written, unless a function inside without an association wrote it |
| UndoLog.NotRestored | src/llvm/IR_generator.cpp:4587-4590 | such a write survives |
| UndoLog.LastStays | src/llvm/IR_generator.cpp:4587-4590 | in a function without an association its last write stays |
| UndoLog.RestoredTo | src/llvm/IR_generator.cpp:1123-1150 | an address gets back the value it had just before the method's own first changing write |
| UndoLog.RestoredIff | src/llvm/IR_generator.cpp:4587-4668 | whatever types are written and whatever was there before, an address is restored if and only if no function inside without an association writes it |
| Interner.SymNames.Insert | src/symtable_cpp.cpp:136-149 | appends the name and a terminator at the old end; buffer and map agree again, across growth |
| Interner.SymNames.CheckInsert | src/symtable_cpp.cpp:586-593 | reading the position back gives the name; the earlier text is unchanged; a known name keeps its position |
| Interner.SymNames.Check | src/symtable_cpp.cpp:604-610 | a position from which the text gives back the name, the only one the map has for it; -1 exactly when the name was never interned |
| Interner.SymNames.Get | src/symtable_cpp.cpp:612-612 | the characters up to the terminator |
| Interner.OneToOne | src/symtable_cpp.cpp:586-612 | equal positions if and only if equal names, and each position gives back its name |
| Interner.StillSame | src/symtable_cpp.cpp:136-149 | no later growth changes what an earlier position stands for |
| StmtLists.NodeLists.PutIntoList | src/ca_parser.c:3201-3223 | begins a list or appends to the innermost one; the other lists are unchanged |
| StmtLists.NodeLists.Grow | src/ca_parser.c:3215-3220 | doubling the capacity changes no list |
| StmtLists.NodeLists.Zip | src/ca_parser.c:3225-3253 | pops the innermost list: one statement alone, more as a list in order |
| StmtLists.NodeLists.Parse | src/ca_parser.c:3201-3253 | replaying the parser's calls rebuilds any nested block, single statements collapsed, and returns the stack to its start |
| StmtLists.MeaningKeeps | src/ca_parser.c:3201-3253 | the tree built has the statements written, in order, with one list for each block of several members and no list of fewer than two |
| StmtLists.Collapsed | src/ca_parser.c:3225-3253 | what `{ 1; { 2; } {} { 3; 4; } }` is built into |
| TraitMatch.SetDifference | src/llvm/IR_generator.cpp:4685-4707 | the sorted merge is exactly the keys minus the implemented ones |
| TraitMatch.CreateTraitEntry | src/symtable_cpp.cpp:1193-1216 | the entry's names are exactly the trait's methods, with and without a body |
| TraitMatch.CheckImplMatch | src/llvm/IR_generator.cpp:4842-4911 | accepts exactly when only members of the trait are implemented, signatures agree and nothing without a body is missing; the defaults are the remaining methods, each once |
| TraitMatch.MatchesMeans | src/llvm/IR_generator.cpp:4842-4911 | in terms of the trait as written: accepted if and only if every implemented method is declared there with that signature and every method declared without a body is implemented |
| TraitMatch.OnlyDefaults | src/llvm/IR_generator.cpp:4861-4911 | an implementation that leaves everything to defaults is accepted exactly when each method has a body; one wrong signature is enough to be refused |
| TraitMatch.Coverage | src/llvm/IR_generator.cpp:4861-4911 | explicit methods and chosen defaults are disjoint, cover the trait exactly, and every chosen default has a body |

## Left out

- LLVM, its optimisations, the JIT, debug information and the `-main` mode.
- Type inference and literal ranges: types are given, and the model checks them where an operand
  is popped. A literal is its value wrapped to its type.
- Floats, pointers, arrays and structs as operands; `/`, `%`, shifts and bitwise and, or, xor.
  Division and remainder are always signed in the source.
- Memory layout: a variable is a numbered slot that exists from the start. Parameters are in their
  slots when a function begins, and the copy at its entry is not modelled.
- The range of a `for` is two values; the source stores the range as a struct and loads it again.
  `for` over pointers to elements is left out.
- A goto into a `for` body from outside it: the index slot has no meaningful value there, so the
  simulation claims nothing for such a run (outcome Wild). Such gotos are part of the
  well-formedness result.
- A label's block is identified with its name, because the label map holds one block a name.
- The value a function with a return type gives after falling off its end: it is what is in the
  return slot, which LLVM leaves undefined if nobody wrote it; the machine is stuck there.
- Break or continue with an empty loop stack is undefined in the source and refused here.
- Calls are events with an arbitrary result that may depend on all earlier calls; a function of
  the program is not linked to the calls of it. Printing is a call. `ProgramFunction` is about top-level functions.
- `ife` and other expressions with statements inside, whose first pass is skipped by the source.
- Array patterns, and the typing of a tuple pattern against a tuple expression item by item; the
  types of patterns are determined from the type of the right side.
- The lets of one scope inside a function only: names of enclosing scopes are not looked up, and
  the refusal of a pattern outside functions is not modelled.
- Struct and trait definitions as scopes of lexical numbering, generic functions, `match`.
- Addresses written without the log: the `for` variable and types determined by the parser.
- Names with an embedded NUL.
- That each use of a register is dominated by its definition is shown only along runs, not as a
  property of the blocks.
- SimExpr.SimCall: a call of a function without a result, which leaves the call itself as operand, is
  not modelled.
- Generator.Walker.WalkCall: the same; and a call's formal parameter types are not compared.
- SimExpr.SimRight: the side that skips the right operand is in SimExpr.SimLogic; that the phi's two
  blocks are the only predecessors of the join is in Programs.WellFormedIff.
- SimStmt.SimS: nothing is claimed after a goto into a `for` body from outside it.
- SimStmt.SimFor: the same, and the range is two values instead of a struct.
- Generator.Walker.WalkFor: the range is two values, and `for` over pointers to elements is left out.
- Generator.Walker.WalkLandor: operands that are not bool are refused here; the source does not look
  and builds a conditional branch on them, which LLVM has no meaning for.
- Generator.Walker.WalkRet: the type of the value is compared here; in the source type inference
  refuses another type first (`src/ca_parser.c`, lines 2158-2290), and the later comparison is of
  LLVM types.
- Generator.Walker.WalkFnDefine: parameters are not copied into slots at entry.
- FallsOff.FallsOffIff: bodies with a goto are left out; which ways are open then depends on more
  than one pass over the body.
- LetWalk.Scope.DetermineType: array patterns are left out.
- LetWalk.Scope.BindValue: array patterns are left out.
- LetMeaning.ParseScope: the refusal of a pattern outside functions is left out.
- LetMeaning.WalkLet: the type of the right side is given, not inferred from both sides.
- LexicalIds.PassesAgree: bodies of impl and trait blocks, which also count, are not nodes here.
- LexicalIds.NameFindsFunction: methods of impl and trait blocks are not covered.
- StructFields.StructValues: the positional form and the types of the field values are left out.
