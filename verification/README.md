# A model of the compiler and its runtime

This project models the hard parts of a small ahead-of-time compiler and of the standard library
written in its own language, and proves what they promise.

| area | files | main results |
|---|---|---|
| lowering to three-address code | `Ir`, `Source`, `Lowering*`, `LateReading`, `IrVisitor`, `Linking` | meaning preserved, jump targets unique, call preparations never interrupted, calls by name reach their function |
| AArch64 code generation | `A64`, `Backend*`, `A64Generator` | simulation of unlimited registers on seven temporaries, allocator invariant, calling convention round trip |
| parsing | `Tokens`, `Scopes`, `ExprSyntax`, `ParserState`, `Grammar`, `Visibility`, `*Rendering`, `*RoundTrip`, `Precedence`, `TypePrinting`, `ParserCrashes`, `Parser` | whole programs parse back from their tokens; precedence of any two operators; every stream is parsed to its end except where a null is dereferenced, and exactly where; scopes balance |
| checking and layout | `Checker*`, `Typing`, `Bits`, `Layout`, `TaggedUnion` | exactly the typable trees are accepted, checking twice changes nothing, operand sizes match, least layouts, tagged-union round trip |
| runtime and support | `HashTable`, `HashMap`, `Decimal*`, `Arena`, `Preprocessor`, `Macros`, `StringLiteral` | last put wins, decimal and literal round trips, disjoint blocks, include once, what macros expand to |

Code that works on values is modelled by functions; code that updates fields, arrays or token
lists is modelled by classes and methods, each proved against such a function. A *World* (source
and IR) or *Host* (AArch64) stands for what the compiler does not define: the arithmetic, the
addresses of symbols, what callees answer, write and clobber.

Where the code does not do what one would expect, the model follows the code:

- An identifier operand is read when it is used, not where it stands. Meaning is preserved for
  programs where that cannot be seen, and the compiled meaning is stated for all others.
- A function called through an IR register is lost from that register's record after the call.
- `struct N { ... }` dereferences null when `N` is an enum or a variable of the scope, and a
  function declaration does when its signature can be read and its name is a global variable
  declared with `:=`.
- An `f64` and an integer narrower than eight bytes may be stored in each other without a cast,
  so the widths of the two sides differ there, and only there.
- An external function `_f` has the symbol of a function `f`.
- A carriage return is escaped to a sequence the lexer does not know, and comes back as `r`.
- A `#define` or `#include` with nothing after it but the end of the file swallows the
  end-of-file token, with a report.

Verify with `dafny verify dfyconfig.toml`.

## Model

| member | source | states |
|---|---|---|
| `LoweringCorrect.LoweringPreservesMeaning` | src/codegen/ir/ir_visitor.cpp:601-710 | for every function, arguments and terminating source run, the emitted IR started on those arguments halts in one final machine, with the same variable store, call trace, result or exit code; no other final machine is reachable |
| `LoweringCorrect.ProgramPreservesMeaning` | src/codegen/ir/ir_visitor.cpp:22-42 | the same for any function of a program, entered in the middle of the code of all functions |
| `LoweringStmts.FuncRuns` | src/codegen/ir/ir_visitor.cpp:601-710 | the same without the read-on-sight restriction: the IR of any function does what the source does when identifiers are read where they are used |
| `LoweringStmts.StmtRuns` | src/codegen/ir/ir_visitor.cpp:497-599 | every statement: normal end, break, continue, return and exit each land on the right instruction with the store and trace of the source run |
| `LoweringStmts.IfRuns` | src/codegen/ir/ir_visitor.cpp:536-560 | an `if` with or without `else`: only the branch the condition selects runs, then control is after the statement |
| `LoweringStmts.WhileRuns` | src/codegen/ir/ir_visitor.cpp:562-583 | a `while` loop iterates as its source does; break leaves it, continue goes back to the test |
| `LoweringStmts.ForRuns` | src/codegen/ir/ir_visitor.cpp:825-874 | a `for` loop: initializer, test, body, iteration; continue goes to the iteration, a missing test counts as true |
| `LoweringStmts.SwitchRuns` | src/codegen/ir/ir_visitor.cpp:979-1114 | a value switch runs the first case equal to the subject, else the default wherever it stands, else nothing |
| `LoweringStmts.DispatchRuns` | src/codegen/ir/ir_visitor.cpp:1032-1058 | the comparison chain ends at the label of the first fitting case, or falls through |
| `LoweringStmts.DeclRuns` | src/codegen/ir/ir_visitor.cpp:502-534 | a declaration gives the variable the value of its initializer, or 0 |
| `LoweringStmts.ReturnRuns` | src/codegen/ir/ir_visitor.cpp:793-823 | `return` sets the result and leaves for the epilogue label |
| `LoweringStmts.PrintRuns` | src/codegen/ir/ir_visitor.cpp:916-932 | `print` calls the runtime once per operand, in order |
| `LoweringStmts.ParamsRun` | src/codegen/ir/ir_visitor.cpp:671-706 | parameter moves bind every parameter to its argument |
| `LoweringExprs.ExprRuns` | src/codegen/ir/ir_visitor.cpp:114-315 | the code of an expression computes its value in the operand it answers, with its side effects, leaving all earlier registers alone |
| `LoweringExprs.LogicalRuns` | src/codegen/ir/ir_visitor.cpp:153-203 | `and` and `or` evaluate their right operand exactly when the left one does not decide |
| `LoweringExprs.BinaryRuns` | src/codegen/ir/ir_visitor.cpp:205-282 | a binary operator applies to both operand values, read when the instruction runs |
| `LoweringExprs.AssignmentRuns` | src/codegen/ir/ir_visitor.cpp:432-449 | an assignment stores the right-hand value and answers the right-hand operand |
| `LoweringExprs.CallRuns` | src/codegen/ir/ir_visitor.cpp:720-791 | a call evaluates its arguments left to right, prepares and makes one call with their values |
| `LoweringExprs.SpellingInjective` | src/codegen/ir/ir_visitor.cpp:8-16 | distinct variables get distinct IR spellings, so looking up by spelling is sound |
| `LateReading.SafeExec` | src/codegen/ir/ir_visitor.cpp:141-144 | on statements where no unread variable is assigned before its use, reading late gives every run that reading on sight gives |
| `LateReading.LateReadExact` | src/codegen/ir/ir_visitor.cpp:141-282 | for any binary operation with a bare left operand: both results, so reading late differs exactly by the value the right operand left in that variable |
| `LateReading.LateCallExact` | src/codegen/ir/ir_visitor.cpp:720-791 | for any call whose arguments are safe one by one: both results, so a bare argument is passed with the value its variable has after all arguments, not the one at its place |
| `LateReading.LateSwitchExact` | src/codegen/ir/ir_visitor.cpp:979-1058 | for any switch on a variable: the compiled comparison uses the value the variable has after each case value |
| `LateReading.LateReadIsVisible` | src/codegen/ir/ir_visitor.cpp:141-282 | `x == (x = n)` is always true when compiled, and agrees with reading on sight if and only if x was n |
| `LoweringCorrect.OneRun` | src/codegen/ir/ir_visitor.cpp:562-583 | a source statement has at most one terminating run, whatever bound it is executed with |
| `LoweringLabels.FuncLabels` | src/codegen/ir/ir_visitor.cpp:601-710 | in the code of every function each label is defined at most once, with a number the function allocated, and every jump target is defined exactly once |
| `LoweringLabels.ProgramLabels` | src/codegen/ir/ir_visitor.cpp:22-42 | in the code of a whole program, functions one after another, every label is defined at most once and every jump target exactly once |
| `LoweringLabels.TargetInSameFunction` | src/codegen/ir/ir_visitor.cpp:22-42 | a jump of one function goes to a label that this function defines, once, and no other function does |
| `LoweringLabels.StmtLabels` | src/codegen/ir/ir_visitor.cpp:536-599 | labels of a statement are its own and unique; it jumps only to them, to the enclosing loop or to the epilogue |
| `LoweringLabels.SwitchLabels` | src/codegen/ir/ir_visitor.cpp:979-1114 | the same for a switch, whose dispatch, cases and default share a block of labels |
| `LoweringPreps.FuncGrouped` | src/codegen/ir/ir_visitor.cpp:720-791 | a function begins under its label and nothing else in it begins one; in it each call preparation is followed by its arguments and its call alone; arguments and calls occur nowhere else |
| `LoweringPreps.PreparationsUninterrupted` | src/codegen/aarch64/backend.cpp:292-308 | between a preparation and its call there is no other preparation, call or label, as the backend buffer relies on |
| `Linking.CallFindsFunction` | src/codegen/aarch64/backend.cpp:195-202 | for any program with distinct names: the symbol the backend spells at a call of a function is the label at the start of exactly that function |
| `Linking.CallPreservesMeaning` | src/codegen/ir/ir_visitor.cpp:601-612 | a call by name, looked up in the code of the whole program, runs what the source of that function runs |
| `Linking.BeginsOnce` | src/codegen/ir/ir_visitor.cpp:601-612 | the label of a function stands at its start and nowhere else in the program |
| `Linking.CallMeetsLabel` | src/codegen/aarch64/backend.cpp:195-202 | the symbol of a callee, its scope number cut off, is the label of that function, and an external name is itself |
| `Linking.LabelsDiffer` | src/codegen/ir/ir_visitor.cpp:601-612 | different functions have different labels |
| `Linking.MainIsMain` | src/codegen/ir/ir_visitor.cpp:601-612 | `main` keeps its name |
| `Linking.ExternCollides` | src/codegen/aarch64/backend.cpp:195-202 | an external function has the symbol of a function of the program if and only if it is called `main` with it, or `_` and its name |
| `IrVisitorModel.IrVisitor.VisitExpr` | src/codegen/ir/ir_visitor.cpp:114-315 | visiting an expression appends exactly the code the correctness lemmas speak of, advances the counters with it and restores the rest of the visitor |
| `IrVisitorModel.IrVisitor.VisitLogical` | src/codegen/ir/ir_visitor.cpp:153-203 | visiting a short-circuit operator appends exactly the code the correctness lemmas speak of, advances the counters with it and restores the rest of the visitor |
| `IrVisitorModel.IrVisitor.VisitCall` | src/codegen/ir/ir_visitor.cpp:720-791 | visiting a call appends exactly the code the correctness lemmas speak of, advances the counters with it and restores the rest of the visitor |
| `IrVisitorModel.IrVisitor.VisitStmt` | src/codegen/ir/ir_visitor.cpp:497-599 | visiting any statement appends exactly the code the correctness lemmas speak of, advances the counters with it and restores the rest of the visitor |
| `IrVisitorModel.IrVisitor.VisitIf` | src/codegen/ir/ir_visitor.cpp:536-560 | visiting an `if` appends exactly the code the correctness lemmas speak of, advances the counters with it and restores the rest of the visitor |
| `IrVisitorModel.IrVisitor.VisitWhile` | src/codegen/ir/ir_visitor.cpp:562-583 | visiting a `while`, with its loop context pushed and popped appends exactly the code the correctness lemmas speak of, advances the counters with it and restores the rest of the visitor |
| `IrVisitorModel.IrVisitor.VisitFor` | src/codegen/ir/ir_visitor.cpp:825-874 | visiting a `for`, with its loop context pushed and popped appends exactly the code the correctness lemmas speak of, advances the counters with it and restores the rest of the visitor |
| `IrVisitorModel.IrVisitor.VisitSwitch` | src/codegen/ir/ir_visitor.cpp:979-1114 | visiting a value switch appends exactly the code the correctness lemmas speak of, advances the counters with it and restores the rest of the visitor |
| `IrVisitorModel.IrVisitor.VisitFunction` | src/codegen/ir/ir_visitor.cpp:601-710 | visiting a function appends exactly the code the correctness lemmas speak of, advances the counters with it and restores the rest of the visitor |
| `IrVisitorModel.IrVisitor.VisitAll` | src/codegen/ir/ir_visitor.cpp:22-42 | visiting a list of functions, in order, appends exactly the code the correctness lemmas speak of, advances the counters with it and restores the rest of the visitor |
| `IrVisitorModel.IrVisitor.NewTempReg` | src/codegen/ir/ir_generator.cpp:6-6 | a register number is handed out once |
| `IrVisitorModel.IrVisitor.NewLabel` | src/codegen/ir/ir_generator.cpp:7-7 | a label number is handed out once |
| `BackendCorrect.AllocatorSimulates` | src/codegen/aarch64/backend.cpp:43-130 | for every label-free instruction run, arbitrary arithmetic and arbitrary callees that clobber x0-x17: the emitted code ends in one state where every IR register is found where the maps say with the value of the unlimited-register machine, all public memory is equal, and the same calls were made with the same arguments and an aligned stack |
| `BackendCorrect.EmitRuns` | src/codegen/aarch64/backend.cpp:428-474 | one instruction of any kind from any state of the simulation |
| `BackendCorrect.CallThroughRegisterLosesIt` | src/codegen/aarch64/backend.cpp:664-690 | a callee held in an IR register is reloaded after the saves, so afterwards the record for it names what the callee left in that temporary |
| `BackendInvariant.AllocatorInvariant` | src/codegen/aarch64/backend.cpp:43-130 | in every reachable state the two register maps are inverse, nothing is both in a register and spilled, all slots are pairwise disjoint and inside a 16-aligned frame |
| `BackendInvariant.LocationsPersist` | src/codegen/aarch64/backend.cpp:43-106 | an IR register once located is never lost, and slots never move |
| `BackendInvariant.SoundDivisionExists` | src/codegen/aarch64/backend.cpp:144-183 | locals and spill slots never share a byte, so the division of memory the simulation assumes exists in every reachable state |
| `BackendInvariant.LocalAligned` | src/codegen/aarch64/backend.cpp:170-176 | a new local gets the first aligned room after what is used; its offset is aligned if and only if its size is a multiple of its alignment |
| `BackendInvariant.LocalAddressAligned` | src/codegen/aarch64/backend.cpp:170-176 | so the address of such a local is aligned |
| `BackendEntry.ParametersArrive` | src/codegen/aarch64/backend.cpp:476-520 | for any parameter list, after the prologue and the parameter moves each parameter holds the low bytes of the word passed for it, and sp is a multiple of 16 |
| `BackendEntry.ArgumentRoundTrip` | src/codegen/aarch64/backend.cpp:643-690 | for any number of arguments, in registers or on the stack, across the caller-saved spills: callee parameter i holds the value of caller argument i, to the width of the parameter, in a local or an IR register |
| `BackendAlloc.Survives` | src/codegen/aarch64/backend.cpp:43-56 | a scratch register taken n turns ago is not handed out again for k more turns while n + k is at most 7 |
| `BackendAlloc.GetTempRuns` | src/codegen/aarch64/backend.cpp:43-56 | taking a scratch register spills its owner and changes nothing the unlimited machine can see |
| `BackendAlloc.GetRegRuns` | src/codegen/aarch64/backend.cpp:58-91 | asking for an IR register brings it back with its value, from a slot if need be |
| `BackendAlloc.SpillRuns` | src/codegen/aarch64/backend.cpp:93-106 | a spill moves the value to a private slot; other registers, values and public memory stay |
| `BackendCalls.SaveRuns` | src/codegen/aarch64/backend.cpp:115-130 | after the saves no temporary holds an IR register, and every value is intact |
| `BackendLoads.LoadIntoRuns` | src/codegen/aarch64/backend.cpp:185-244 | an operand of any kind ends up in the destination within two turns |
| `BackendHandlers.AssignRuns` | src/codegen/aarch64/backend.cpp:549-559 | assignment does on the seven temporaries what it does with unlimited registers; every scratch register is still intact when it is used |
| `BackendHandlers.BinRuns` | src/codegen/aarch64/backend.cpp:561-570 | a primitive binary operator does on the seven temporaries what it does with unlimited registers; every scratch register is still intact when it is used |
| `BackendHandlers.ModRuns` | src/codegen/aarch64/backend.cpp:576-589 | remainder, whose quotient goes through a third register does on the seven temporaries what it does with unlimited registers; every scratch register is still intact when it is used |
| `BackendHandlers.NegRuns` | src/codegen/aarch64/backend.cpp:591-595 | negation does on the seven temporaries what it does with unlimited registers; every scratch register is still intact when it is used |
| `BackendHandlers.NotRuns` | src/codegen/aarch64/backend.cpp:597-602 | logical not does on the seven temporaries what it does with unlimited registers; every scratch register is still intact when it is used |
| `BackendHandlers.CmpRuns` | src/codegen/aarch64/backend.cpp:608-628 | comparison does on the seven temporaries what it does with unlimited registers; every scratch register is still intact when it is used |
| `BackendHandlers.LoadRuns` | src/codegen/aarch64/backend.cpp:696-701 | load does on the seven temporaries what it does with unlimited registers; every scratch register is still intact when it is used |
| `BackendHandlers.StoreRuns` | src/codegen/aarch64/backend.cpp:703-707 | store does on the seven temporaries what it does with unlimited registers; every scratch register is still intact when it is used |
| `BackendHandlers.AddrOfRuns` | src/codegen/aarch64/backend.cpp:709-719 | address-of does on the seven temporaries what it does with unlimited registers; every scratch register is still intact when it is used |
| `BackendCallRuns.CallRuns` | src/codegen/aarch64/backend.cpp:643-690 | a whole call group: arguments where the callee looks for them, live registers saved, aligned sp, result taken, stack space returned |
| `BackendRuntimeCalls.MemCallRuns` | src/codegen/aarch64/backend.cpp:756-776 | memory copy and fill: the runtime is called with the right arguments and nothing live is lost |
| `BackendRuntimeCalls.AllocRuns` | src/codegen/aarch64/backend.cpp:721-733 | allocation with or without an initial value: the runtime is called with the right arguments and nothing live is lost |
| `BackendRuntimeCalls.AllocArrayRuns` | src/codegen/aarch64/backend.cpp:735-747 | array allocation: the runtime is called with the right arguments and nothing live is lost |
| `BackendRuntimeCalls.FreeRuns` | src/codegen/aarch64/backend.cpp:749-754 | release: the runtime is called with the right arguments and nothing live is lost |
| `A64Generator.BufferedCall` | src/codegen/aarch64/backend.cpp:664-690 | arguments buffered one by one and flushed at the call give the code of the whole call |
| `A64Generator.Generator.GetTempPhysReg` | src/codegen/aarch64/backend.cpp:43-56 | the in-place update leaves exactly the allocator state and appends exactly the code that the simulation lemmas speak of |
| `A64Generator.Generator.GetPhysReg` | src/codegen/aarch64/backend.cpp:58-91 | the in-place update leaves exactly the allocator state and appends exactly the code that the simulation lemmas speak of |
| `A64Generator.Generator.SpillRegister` | src/codegen/aarch64/backend.cpp:93-106 | the in-place update leaves exactly the allocator state and appends exactly the code that the simulation lemmas speak of |
| `A64Generator.Generator.SaveCallerSavedRegs` | src/codegen/aarch64/backend.cpp:115-130 | the in-place update leaves exactly the allocator state and appends exactly the code that the simulation lemmas speak of |
| `A64Generator.Generator.EmitGetVarAddr` | src/codegen/aarch64/backend.cpp:144-183 | the in-place update leaves exactly the allocator state and appends exactly the code that the simulation lemmas speak of |
| `A64Generator.Generator.LoadIntoReg` | src/codegen/aarch64/backend.cpp:185-244 | the in-place update leaves exactly the allocator state and appends exactly the code that the simulation lemmas speak of |
| `A64Generator.Generator.StoreToOperand` | src/codegen/aarch64/backend.cpp:253-264 | the in-place update leaves exactly the allocator state and appends exactly the code that the simulation lemmas speak of |
| `A64Generator.Generator.Emit` | src/codegen/aarch64/backend.cpp:292-300 | an instruction goes to the innermost call buffer, or to the function when no call is being prepared |
| `A64Generator.Generator.HandleAssign` | src/codegen/aarch64/backend.cpp:549-559 | the in-place update leaves exactly the allocator state and appends exactly the code that the simulation lemmas speak of |
| `A64Generator.Generator.HandlePrimBinop` | src/codegen/aarch64/backend.cpp:561-570 | the in-place update leaves exactly the allocator state and appends exactly the code that the simulation lemmas speak of |
| `A64Generator.Generator.HandleMod` | src/codegen/aarch64/backend.cpp:576-589 | the in-place update leaves exactly the allocator state and appends exactly the code that the simulation lemmas speak of |
| `A64Generator.Generator.HandleNeg` | src/codegen/aarch64/backend.cpp:591-595 | the in-place update leaves exactly the allocator state and appends exactly the code that the simulation lemmas speak of |
| `A64Generator.Generator.HandleLogicalNot` | src/codegen/aarch64/backend.cpp:597-602 | the in-place update leaves exactly the allocator state and appends exactly the code that the simulation lemmas speak of |
| `A64Generator.Generator.HandleCmp` | src/codegen/aarch64/backend.cpp:608-628 | the in-place update leaves exactly the allocator state and appends exactly the code that the simulation lemmas speak of |
| `A64Generator.Generator.HandleLoad` | src/codegen/aarch64/backend.cpp:696-701 | the in-place update leaves exactly the allocator state and appends exactly the code that the simulation lemmas speak of |
| `A64Generator.Generator.HandleStore` | src/codegen/aarch64/backend.cpp:703-707 | the in-place update leaves exactly the allocator state and appends exactly the code that the simulation lemmas speak of |
| `A64Generator.Generator.HandleAddrOf` | src/codegen/aarch64/backend.cpp:709-719 | the in-place update leaves exactly the allocator state and appends exactly the code that the simulation lemmas speak of |
| `A64Generator.Generator.HandleMemCall` | src/codegen/aarch64/backend.cpp:756-776 | the in-place update leaves exactly the allocator state and appends exactly the code that the simulation lemmas speak of |
| `A64Generator.Generator.HandleAlloc` | src/codegen/aarch64/backend.cpp:721-733 | the in-place update leaves exactly the allocator state and appends exactly the code that the simulation lemmas speak of |
| `A64Generator.Generator.HandleAllocArray` | src/codegen/aarch64/backend.cpp:735-747 | the in-place update leaves exactly the allocator state and appends exactly the code that the simulation lemmas speak of |
| `A64Generator.Generator.HandleFree` | src/codegen/aarch64/backend.cpp:749-754 | the in-place update leaves exactly the allocator state and appends exactly the code that the simulation lemmas speak of |
| `A64Generator.Generator.SetHiddenArg` | src/codegen/aarch64/backend.cpp:643-648 | the in-place update leaves exactly the allocator state and appends exactly the code that the simulation lemmas speak of |
| `A64Generator.Generator.PushArg` | src/codegen/aarch64/backend.cpp:650-662 | the in-place update leaves exactly the allocator state and appends exactly the code that the simulation lemmas speak of |
| `A64Generator.Generator.LCall` | src/codegen/aarch64/backend.cpp:664-690 | the in-place update leaves exactly the allocator state and appends exactly the code that the simulation lemmas speak of |
| `A64Generator.Generator.HandleCallGroup` | src/codegen/aarch64/backend.cpp:643-690 | the four call instructions together leave the allocator and the code of one whole call, and close the buffer they opened |
| `A64Generator.Generator.Generate` | src/codegen/aarch64/backend.cpp:310-375 | a run of instructions appends exactly the code the simulation speaks of, ends with no open call and answers a frame for all slots |
| `DeclRoundTrip.ProgramRoundTrip` | src/parser/parser.cpp:119-148 | every program of structs, enums, functions and statements whose names are declared before use, written out as tokens, is read as exactly that program, up to the end of the file |
| `DeclRoundTrip.ProgramsDiffer` | src/parser/parser.cpp:119-148 | different programs have different tokens |
| `DeclRoundTrip.ProgramParses` | src/parser/parser.cpp:119-130 | the same from any state of the symbol table, and what the program leaves visible there |
| `DeclRoundTrip.DeclParses` | src/parser/parser.cpp:132-148 | every top-level declaration parses back, consumes exactly its tokens, and afterwards the global scope shows exactly what it declares |
| `DeclRoundTrip.StructBodyParses` | src/parser/parser.cpp:265-332 | a struct with its fields in order, new or declared before and not yet complete; its own name is a type inside it |
| `DeclRoundTrip.OpaqueParses` | src/parser/parser.cpp:265-332 | `struct Name ;` binds an incomplete type, or changes nothing |
| `DeclRoundTrip.EnumParses` | src/parser/parser.cpp:163-261 | an enum with its variants, tags and payload fields in order; every payload becomes a struct of the scope of the enum |
| `DeclRoundTrip.FuncParses` | src/parser/parser.cpp:364-447 | a function, external, forward or with a body: parameters, named result and body in order; its type and name are known globally afterwards |
| `StmtRoundTrip.StmtParses` | src/parser/parser.cpp:519-563 | every statement, written out before anything but `else`, parses back to its tree, consumes exactly its tokens and leaves behind exactly the variable it declares |
| `StmtRoundTrip.IfParses` | src/parser/parser.cpp:612-638 | the first block is taken when the condition holds and the one after `else` otherwise; `else if` nests |
| `StmtRoundTrip.ForParses` | src/parser/parser.cpp:641-683 | initializer, test, iteration and block of a `for` each in its place, the initializer visible in all of them and not after |
| `StmtRoundTrip.SwitchParses` | src/parser/parser.cpp:701-758 | subject and cases of a `switch` in order |
| `StmtRoundTrip.CaseParses` | src/parser/parser.cpp:713-754 | value, pattern with or without payload, and default |
| `StmtRoundTrip.BlockParses` | src/parser/parser.cpp:850-870 | statements in order, each seeing what the ones before it declared; nothing of it is left outside |
| `StmtRoundTrip.VarParses` | src/parser/parser.cpp:566-609 | a declaration with type, with initializer, or with both; the name is bound after its initializer |
| `StmtRoundTrip.AsmParses` | src/parser/parser.cpp:873-927 | an assembly block ends at the brace that closes it |
| `TypeRoundTrip.TypeParses` | src/parser/parser.cpp:1200-1296 | every type parses back; of the symbol table only printed pointer types are new |
| `TypeRoundTrip.MergedAngles` | src/parser/parser.cpp:54-75 | `ptr<ptr<T>>` with `>>` as one token is the same type |
| `TypePrinting.PrintedExact` | src/parser/types.cpp:8-59 | two types have one printed form if and only if they are the same type, `string` being `ptr<imm u8>` |
| `TypePrinting.RedeclaredExact` | src/parser/parser.cpp:416-441 | a function declared before is accepted again if and only if parameters, their mutability and the result have the same types |
| `ExprRoundTrip.RoundTrip` | src/parser/parser.cpp:930-1197 | every expression tree shaped by the grammar, literals of structs and enums, `new`, `cast` and `sizeof` included, written out anywhere before a token that does not continue it, parses back to that tree and consumes exactly its tokens |
| `ExprRoundTrip.RenderInjective` | src/parser/parser.cpp:930-1197 | different trees have different tokens |
| `Precedence.TwoOperators` | src/parser/parser.cpp:943-1093 | for any two of the eighteen operators, in ten groups listed from loose to tight: `x p y q z` is `(x p y) q z` when q stands in the group of p or a looser one, and `x p (y q z)` when in a tighter one |
| `Precedence.DerivedParses` | src/parser/parser.cpp:930-1182 | whatever the nonterminals of the grammar derive, group by group of that list, parses back |
| `Precedence.ExpressionShaped` | src/parser/parser.cpp:930-1182 | the nonterminals derive exactly the shaped trees |
| `Precedence.LevelIsGroup` | src/parser/parser.cpp:943-1093 | the level of an operator is its place in that list, under its own token |
| `ExprRoundTrip.BinaryParses` | src/parser/parser.cpp:943-1093 | each of the ten levels associates to the left and takes tighter levels as operands |
| `ExprRoundTrip.UnaryParses` | src/parser/parser.cpp:1095-1136 | prefix operators nest to the right, with `mut` after `&` |
| `ExprRoundTrip.ChainParses` | src/parser/parser.cpp:1138-1182 | index, call and field suffixes chain to the left |
| `ExprRoundTrip.NewParses` | src/parser/parser.cpp:1440-1489 | `new` with a number of elements, an initial value or neither |
| `Visibility.SeesAfter` | src/parser/symtab.h:87-104 | declaring variables hides types of their names and changes the meaning of no other name |
| `Grammar.ProgramAt` | src/parser/parser.cpp:119-130 | terminates on every token stream; where it ends, nothing is given back, tokens ahead are untouched, the scope is the one before, every new name has its reason in the tokens, and it is the end of the file unless a declaration crashes |
| `Grammar.TopAt` | src/parser/parser.cpp:132-148 | a top-level declaration consumes something, also when it panics; nothing is given back, tokens ahead are untouched, the scope is the one before, every new name has its reason in the tokens |
| `Grammar.StmtAt` | src/parser/parser.cpp:519-563 | a panic inside one statement ends there and something is consumed; nothing is given back, tokens ahead are untouched, the scope is the one before, every new name has its reason in the tokens |
| `Grammar.BlockAt` | src/parser/parser.cpp:850-870 | a block recovers by itself and leaves its scope on return and on panic; nothing is given back, tokens ahead are untouched, the scope is the one before, every new name has its reason in the tokens |
| `Grammar.ExprAt` | src/parser/parser.cpp:930-941 | an expression, read or not: nothing is given back, tokens ahead are untouched, the scope is the one before, every new name has its reason in the tokens; a value consumes something |
| `Grammar.TypeAt` | src/parser/parser.cpp:1200-1296 | a type, read or not: nothing is given back, tokens ahead are untouched, the scope is the one before, every new name has its reason in the tokens; a value consumes something |
| `Grammar.Rangle` | src/parser/parser.cpp:54-75 | taking half of `>>` or `>=` lowers the weight of what is left although the position stays |
| `Grammar.Recover` | src/parser/parser.cpp:110-117 | stops at the first synchronization point after the token it starts at |
| `Grammar.ForAt` | src/parser/parser.cpp:641-683 | the scope of a `for` is left on return and on panic |
| `Grammar.SwitchAt` | src/parser/parser.cpp:701-758 | the case loop ends on every stream |
| `Grammar.EnumAt` | src/parser/parser.cpp:163-261 | the scope of an enum is left on return and on panic |
| `Grammar.FuncAt` | src/parser/parser.cpp:364-447 | the scope of a function is left on return and on panic |
| `ParserCrashes.CrashExact` | src/parser/parser.cpp:119-148 | a program dereferences null if and only if one of the states its loop passes through is in one of the two families; then it stops there |
| `ParserCrashes.TopCrashExact` | src/parser/parser.cpp:132-148 | a top-level declaration dereferences null if and only if the state before it is in one of the families |
| `ParserCrashes.StructCrashExact` | src/parser/parser.cpp:265-332 | the first family: `struct N` with a body where N is a type but no struct, or a variable of this scope |
| `ParserCrashes.FunctionCrashExact` | src/parser/parser.cpp:364-447 | the second family: a function whose signature can be read and whose name was a global `:=` variable before it |
| `ParserCrashes.TopStatesReach` | src/parser/parser.cpp:119-130 | every state a program passes through continues its input |
| `ParserCrashes.ProgramEnds` | src/parser/parser.cpp:119-130 | every program ends inside its stream, in the scope it started in, at the end of the file unless it crashes |
| `ParserCrashes.CleanFinishes` | src/parser/parser.cpp:119-148 | a condition on the input alone: when struct names are used for structs only and no function has the name of a `:=` variable, the program is parsed to its end |
| `ParserCrashes.VariableThenFunctionCrashes` | src/parser/parser.cpp:430-437 | `x := 1; func x();` crashes at the function |
| `ParserCrashes.VariableThenStructCrashes` | src/parser/parser.cpp:265-332 | `struct x {}` after a variable x crashes |
| `ParserCrashes.EnumThenStructCrashes` | src/parser/parser.cpp:265-332 | `enum E {} struct E {}` crashes at the struct |
| `ParserModel.Parser.ParseProgram` | src/parser/parser.cpp:119-130 | answers the declarations of the grammar and ends where it ends, at the end of the file; crashes if and only if a state it passes through is in one of the families, so never on a clean input |
| `ParserModel.Parser.ParseToplevelDeclaration` | src/parser/parser.cpp:132-148 | the tree and the state of the grammar; crashes if and only if the state before it is in one of the families |
| `ParserModel.Parser.ParseStructDecl` | src/parser/parser.cpp:265-332 | the fields read before the end or a panic, the type bound and completed; dereferences null exactly in the first family |
| `ParserModel.Parser.ParseFunctionDecl` | src/parser/parser.cpp:364-447 | signature, body and the function bound in the global scope; dereferences null exactly in the second family |
| `ParserModel.Parser.Advance` | src/parser/parser.cpp:32-37 | moves one token on, except at the end of the file |
| `ParserModel.Parser.Consume` | src/parser/parser.cpp:39-52 | moves on if and only if the token is the expected one, and answers its text |
| `ParserModel.Parser.ConsumeRangle` | src/parser/parser.cpp:54-75 | accepts `>`, `>>` and `>=` and nothing else, rewriting the longer ones in place |
| `ParserModel.Parser.Synchronize` | src/parser/parser.cpp:110-117 | the loop stops at the synchronization point of the grammar |
| `ParserModel.Parser.ParseExpression` | src/parser/parser.cpp:774-778 | the tree of the grammar or its panic, and exactly its state: position, rewritten tokens and symbol table |
| `ParserModel.Parser.ParseAssignment` | src/parser/parser.cpp:930-941 | the tree of the grammar or its panic, and exactly its state: position, rewritten tokens and symbol table |
| `ParserModel.Parser.ParseBinary` | src/parser/parser.cpp:943-1093 | the tree of the grammar or its panic, and exactly its state: position, rewritten tokens and symbol table |
| `ParserModel.Parser.ParseUnary` | src/parser/parser.cpp:1095-1136 | the tree of the grammar or its panic, and exactly its state: position, rewritten tokens and symbol table |
| `ParserModel.Parser.ParsePostfix` | src/parser/parser.cpp:1138-1182 | the tree of the grammar or its panic, and exactly its state: position, rewritten tokens and symbol table |
| `ParserModel.Parser.ParseArgs` | src/parser/parser.cpp:1184-1197 | the tree of the grammar or its panic, and exactly its state: position, rewritten tokens and symbol table |
| `ParserModel.Parser.ParsePrimary` | src/parser/parser.cpp:1298-1345 | the tree of the grammar or its panic, and exactly its state: position, rewritten tokens and symbol table |
| `ParserModel.Parser.ParseType` | src/parser/parser.cpp:1200-1296 | the tree of the grammar or its panic, and exactly its state: position, rewritten tokens and symbol table |
| `ParserModel.Parser.ParseStructLiteral` | src/parser/parser.cpp:1379-1410 | the tree of the grammar or its panic, and exactly its state: position, rewritten tokens and symbol table |
| `ParserModel.Parser.ParseEnumLiteral` | src/parser/parser.cpp:1412-1438 | the tree of the grammar or its panic, and exactly its state: position, rewritten tokens and symbol table |
| `ParserModel.Parser.ParseNew` | src/parser/parser.cpp:1440-1489 | the tree of the grammar or its panic, and exactly its state: position, rewritten tokens and symbol table |
| `ParserModel.Parser.ParseCast` | src/parser/parser.cpp:1491-1504 | the tree of the grammar or its panic, and exactly its state: position, rewritten tokens and symbol table |
| `ParserModel.Parser.ParseSizeof` | src/parser/parser.cpp:1506-1514 | the tree of the grammar or its panic, and exactly its state: position, rewritten tokens and symbol table |
| `ParserModel.Parser.ParseStatement` | src/parser/parser.cpp:519-563 | the tree of the grammar or its panic, and exactly its state: position, rewritten tokens and symbol table |
| `ParserModel.Parser.ParseVarDecl` | src/parser/parser.cpp:566-609 | the tree of the grammar or its panic, and exactly its state: position, rewritten tokens and symbol table |
| `ParserModel.Parser.ParseIf` | src/parser/parser.cpp:612-638 | the tree of the grammar or its panic, and exactly its state: position, rewritten tokens and symbol table |
| `ParserModel.Parser.ParseFor` | src/parser/parser.cpp:641-683 | the tree of the grammar or its panic, and exactly its state: position, rewritten tokens and symbol table |
| `ParserModel.Parser.ParseWhile` | src/parser/parser.cpp:686-698 | the tree of the grammar or its panic, and exactly its state: position, rewritten tokens and symbol table |
| `ParserModel.Parser.ParseSwitch` | src/parser/parser.cpp:701-758 | the tree of the grammar or its panic, and exactly its state: position, rewritten tokens and symbol table |
| `ParserModel.Parser.ParseBlock` | src/parser/parser.cpp:850-870 | the tree of the grammar or its panic, and exactly its state: position, rewritten tokens and symbol table |
| `ParserModel.Parser.ParseAsm` | src/parser/parser.cpp:873-927 | the tree of the grammar or its panic, and exactly its state: position, rewritten tokens and symbol table |
| `ParserModel.Parser.ParseEnumDecl` | src/parser/parser.cpp:163-261 | the tree of the grammar or its panic, and exactly its state: position, rewritten tokens and symbol table |
| `ParserModel.Parser.ParseStructField` | src/parser/parser.cpp:336-361 | the tree of the grammar or its panic, and exactly its state: position, rewritten tokens and symbol table |
| `ParserModel.Parser.ParseFunctionParam` | src/parser/parser.cpp:452-476 | the tree of the grammar or its panic, and exactly its state: position, rewritten tokens and symbol table |
| `ParserModel.Parser.ParseReturnType` | src/parser/parser.cpp:479-503 | the tree of the grammar or its panic, and exactly its state: position, rewritten tokens and symbol table |
| `ParserState.ReachesTrans` | src/parser/parser.cpp:119-148 | what every routine keeps (position, the rest of the stream, scope tree, current scope, reasons of names) composes over whole runs |
| `ParserState.ExitOnward` | src/parser/parser.cpp:649-679 | whatever runs inside a scope that is entered and left again is a step outside it |
| `ParserState.BindOnward` | src/parser/parser.cpp:566-609 | declaring a name the tokens introduce is a step |
| `Tokens.WeighHalf` | src/parser/parser.cpp:54-75 | replacing a token of weight two by one of weight one lowers the total by one |
| `Scopes.SymTab.Lookup` | src/parser/symtab.h:87-98 | terminates and answers the innermost binding on the stack of scopes |
| `Scopes.SymTab.LookupStruct` | src/parser/symtab.cpp:62-72 | finds a struct declared in any scope of the stack, and only those |
| `Scopes.SymTab.LookupEnum` | src/parser/symtab.cpp:74-84 | finds an enum declared in any scope of the stack, and only those |
| `Scopes.SymTab.EnterScope` | src/parser/symtab.cpp:51-54 | pushes an empty scope on the stack |
| `Scopes.SymTab.ExitScope` | src/parser/symtab.cpp:56-60 | pops the stack; the global scope stays |
| `Scopes.SymTab.Declare` | src/parser/symtab.h:99-104 | binds a name unless the scope already does |
| `Scopes.EnterPushes` | src/parser/symtab.cpp:51-54 | on every scope tree entering is a push, and parents stay smaller than children |
| `Scopes.ExitPops` | src/parser/symtab.cpp:56-60 | leaving is a pop |
| `Scopes.DeclaredIsFound` | src/parser/symtab.h:87-104 | a declared name is found and no other name changes meaning |
| `HashMap.Replay` | stdlib/map.sn:29-110 | after any sequence of puts on a new map of any capacity, across growth and collisions, get answers the last value put for the key, null if none |
| `HashMap.Map.constructor` | stdlib/map.sn:29-43 | an empty map; a capacity that is not positive becomes 16 |
| `HashMap.Map.Put` | stdlib/map.sn:64-91 | updates the mapping at one key, doubles the table at half load, counts one more put; a null key changes nothing |
| `HashMap.Map.Grow` | stdlib/map.sn:68-87 | rehashing into the doubled table keeps every binding |
| `HashMap.Map.Get` | stdlib/map.sn:94-109 | the value of the key, null for a key that is not there |
| `HashMap.Map.Keys` | stdlib/map.sn:112-127 | each key exactly once, within the `len` cells of the new array |
| `HashMap.InsertInternal` | stdlib/map.sn:46-62 | the probe terminates and the table then stands for the updated mapping |
| `HashMap.MapHash` | stdlib/map.sn:17-27 | the wrapping 64-bit hash of all bytes |
| `HashTable.Djb2Closed` | stdlib/map.sn:17-27 | the hash is 5381 times a power of 33 plus the key read in base 33, modulo 2^64 |
| `HashTable.WriteOk` | stdlib/map.sn:46-62 | writing the slot a probe may stop at keeps the table in order and updates exactly one key |
| `HashTable.NotFound` | stdlib/map.sn:94-109 | a probe that meets a free slot or goes all round has shown the key absent |
| `HashTable.NotAllPassed` | stdlib/map.sn:46-62 | with fewer keys than slots a probe cannot pass every slot |
| `Layout.LayoutStruct` | src/checker/typechecker.cpp:612-642 | offsets, size and alignment of every field list are those of the reference layout |
| `Layout.OffsetsPlace` | src/checker/typechecker.cpp:612-642 | the offsets are in order, aligned and without overlap |
| `Layout.OffsetsLeast` | src/checker/typechecker.cpp:612-642 | and least: no such placement puts any field lower |
| `Layout.SizeLeast` | src/checker/typechecker.cpp:612-642 | and the size is the least multiple of the alignment that any placement fits |
| `Layout.FieldsApart` | src/checker/typechecker.cpp:612-642 | any two fields are disjoint and inside the struct |
| `Layout.ArrayAligned` | src/checker/typechecker.cpp:612-642 | every field of every array element is aligned |
| `Layout.LayoutPayload` | src/checker/typechecker.cpp:673-692 | one payload laid out by bit masks is the same layout |
| `Layout.LayoutEnum` | src/checker/typechecker.cpp:652-707 | offsets of all payloads, size and alignment of the enum |
| `Layout.PayloadOffsetAgain` | src/codegen/ir/ir_visitor.cpp:1066-1076 | the offset computed again by the lowering is the offset of the checker |
| `Layout.PayloadInside` | src/checker/typechecker.cpp:652-707 | every payload lies after the tag, aligned, and ends inside the enum |
| `Layout.EnumLeast` | src/checker/typechecker.cpp:652-707 | payload offset and size are the least that leave room for the tag and every aligned payload |
| `Layout.EnumHouses` | src/checker/typechecker.cpp:652-707 | and they do leave that room |
| `Bits.MaskRoundsUp` | src/checker/typechecker.cpp:673-704 | the bit-mask form rounds up to a multiple for every power of two without overflow |
| `Bits.ModRoundsUp` | src/checker/typechecker.cpp:612-637 | the modulus form rounds up to a multiple for every alignment |
| `Bits.FormsAgree` | src/checker/typechecker.cpp:612-707 | so both forms agree on powers of two |
| `Bits.FormsDisagree` | src/checker/typechecker.cpp:612-707 | and differ on 3 |
| `TaggedUnion.UnionRoundTrip` | src/codegen/ir/ir_visitor.cpp:1239-1303 | an enum literal of any variant, switched on, selects the first case naming that variant; the bound copy holds the initialized fields and zero elsewhere; nothing outside the enum is written |
| `TaggedUnion.BuiltField` | src/codegen/ir/ir_visitor.cpp:1239-1303 | each byte of each payload field after building and unpacking |
| `TaggedUnion.SelectFirst` | src/codegen/ir/ir_visitor.cpp:979-1104 | dispatch on the tag is dispatch on the variant when tags are distinct |
| `TaggedUnion.SharedTagConfuses` | src/codegen/ir/ir_visitor.cpp:979-1104 | two variants with one tag are taken for each other |
| `Typing.CheckExact` | src/checker/typechecker.cpp:710-978 | an expression is given a type by the checker if and only if the typing rules, stated as a relation on trees and types, give it that type |
| `Typing.MutableExact` | src/checker/typechecker.cpp:209-269 | what may be assigned is exactly a mutable variable, what a `ptr<mut T>` points to, an element of it, or a field of one of these |
| `Typing.ArgsExact` | src/checker/typechecker.cpp:907-978 | the arguments of a call are accepted if and only if each has a type its parameter takes, and there are as many |
| `Typing.AcceptedFitted` | src/checker/typechecker.cpp:273-313 | in every accepted tree a stored value is as wide as its target and an argument as its parameter, if and only if the pair is not an `f64` and an integer narrower than eight bytes; indices are eight bytes; every cast goes to the type the place demands and changes the width of an integer |
| `Typing.FloatTakesByte` | src/checker/typechecker.cpp:302-313 | an `i8` assigned to an `f64` is accepted without a cast |
| `Typing.OnlyCastsAdded` | src/checker/typechecker.cpp:302-313 | checking adds casts to a tree and changes nothing else |
| `CheckerCorrect.Recheck` | src/checker/typechecker.cpp:710-839 | checking the tree an accepted expression checked to changes neither tree nor type |
| `CheckerCorrect.AcceptedSizesMatch` | src/codegen/ir/ir_visitor.cpp:205-225 | in the checked tree both operands of every arithmetic or comparison node have one size, as the lowering asserts |
| `CheckerCorrect.LValueAgrees` | src/checker/typechecker.cpp:209-269 | the l-value test on a checked tree answers what the check answered, and its type |
| `Checker.BinaryStable` | src/checker/typechecker.cpp:710-839 | one binary node: the casts inserted the first time make the second check a no-op |
| `Checker.CastStable` | src/checker/typechecker.cpp:302-313 | a child once cast is not cast again |
| `CheckerCorrect.RecheckArgs` | src/checker/typechecker.cpp:907-978 | the same for the arguments of a call |
| `Decimal.NoLeadingZero` | stdlib/runtime.sn:73-103 | no notation but that of zero starts with a zero |
| `DecimalIo.PrintUint` | stdlib/runtime.sn:73-103 | writes the decimal notation of any u64, terminated, inside the 32-byte buffer |
| `DecimalIo.PrintInt` | stdlib/runtime.sn:105-149 | the same with sign for any i64, the least included |
| `DecimalIo.PutDigits` | stdlib/runtime.sn:73-90 | digits least significant first, at most twenty |
| `DecimalIo.ReverseInPlace` | stdlib/runtime.sn:92-101 | the first n characters are reversed and the others unchanged |
| `DecimalIo.ParseUint` | stdlib/runtime.sn:152-163 | the value of the leading digits modulo 2^64 |
| `DecimalIo.ParseInt` | stdlib/runtime.sn:165-188 | optional sign and leading digits, wrapped to i64 |
| `DecimalIo.UintRoundTrip` | stdlib/runtime.sn:73-163 | every u64 is read back from its notation |
| `DecimalIo.IntRoundTrip` | stdlib/runtime.sn:105-188 | every i64 is read back from its notation |
| `DecimalIo.PlusRoundTrip` | stdlib/runtime.sn:165-188 | a plus sign before a number is read over |
| `DecimalIo.ThroughBuffer` | stdlib/runtime.sn:105-188 | parsing the buffer that printing leaves gives the number back |
| `ArenaModel.Arena.Allocate` | src/memory/arena.cpp:24-45 | the block is aligned, inside its chunk and disjoint from all blocks since the last reset, at the lowest aligned address left, and uses the chunk up to its end only; at most one new chunk; a third try is needed if and only if neither the newest nor the fresh chunk fits, never when the fresh base is aligned |
| `ArenaModel.Arena.AllocateNewChunk` | src/memory/arena.cpp:16-22 | a chunk of the current size, nothing else changed |
| `ArenaModel.Arena.Reset` | src/memory/arena.cpp:55-59 | all chunks empty, no block counts any more |
| `ArenaModel.AlignedFits` | src/memory/arena.cpp:24-45 | a fresh chunk with an aligned base fits any request it was made for, larger than the chunk size or not |
| `ArenaModel.MisalignedNeverFits` | src/memory/arena.cpp:24-45 | a misaligned base never fits a request as large as the chunk size |
| `Macros.OutputLaw` | src/preprocessor/preprocessor.cpp:5-104 | for every file and every state: the output is the tokens outside directives in order, the files included for the first time in place of their includes without their end, each use of a defined name replaced by the tokens after the name on the row of its last definition before the use; a report if and only if a directive is bad; macros and files known afterwards |
| `Macros.SpliceLaw` | src/preprocessor/preprocessor.cpp:64-104 | the same for one included file and what follows it |
| `Macros.InnerEvents` | src/preprocessor/preprocessor.cpp:64-104 | only the end-of-file token of an included file is dropped |
| `Macros.SmallestMacro` | src/preprocessor/preprocessor.cpp:43-62 | after `#define N 5`, N stands for `5` alone |
| `PreprocessorModel.EachFileOnce` | src/preprocessor/preprocessor.cpp:64-104 | on every include graph, cyclic or not, expansion terminates; the files spliced in are distinct, new, and exactly those added to the included set |
| `PreprocessorModel.DepthFirst` | src/preprocessor/preprocessor.cpp:64-104 | the files an include enters stand together in the order of entry, the included file first |
| `PreprocessorModel.EndOfFileExact` | src/preprocessor/preprocessor.cpp:5-104 | for every file, reported or not: the output has exactly one EOF token, at its end, if and only if reading does not come to a `#define` or `#include` right before the end of the file; otherwise it has none |
| `PreprocessorModel.CutOffReported` | src/preprocessor/preprocessor.cpp:43-76 | such a cut-off directive is reported |
| `PreprocessorModel.OneEndOfFile` | src/preprocessor/preprocessor.cpp:5-41 | so when nothing is reported the output has exactly one EOF token, at its end |
| `PreprocessorModel.CutOffLosesTheEnd` | src/preprocessor/preprocessor.cpp:43-76 | the shortest such files, with `define` and with `include`, expand to nothing |
| `PreprocessorModel.ReportStays` | src/preprocessor/preprocessor.cpp:5-104 | a report is never withdrawn |
| `PreprocessorModel.Preprocessor.ProcessTokens` | src/preprocessor/preprocessor.cpp:5-41 | the loop produces the reference expansion and its state |
| `PreprocessorModel.Preprocessor.HandleDefine` | src/preprocessor/preprocessor.cpp:43-62 | records the tokens after the name up to the end of the row, which Macros.OutputLaw puts in place of its uses |
| `PreprocessorModel.Preprocessor.HandleInclude` | src/preprocessor/preprocessor.cpp:64-104 | splices a new file in place of the line, without its EOF token, and continues after the line |
| `PreprocessorModel.Run` | src/preprocessor/preprocessor.cpp:5-41 | a whole program: include once, and one EOF token exactly when the file is not cut off |
| `StringLiteral.LiteralRoundTrip` | src/lexer/lexer.cpp:157-176 | lexing a quoted escaped string yields one literal ending at the closing quote; its value is the string, with no report, if and only if the string has no carriage return |
| `StringLiteral.EscapeTable` | src/lexer/lexer.cpp:138-155 | the five known escapes with their values; any other character stands for itself, with a report |
| `StringLiteral.EscapedLine` | src/util.h:50-63 | escaped text is one line without tabs, longer by one for each special character, and text without any is left alone |
| `StringLiteral.EscapeString` | src/util.h:50-63 | the loop escapes character by character |
| `StringLiteral.StringLexer.LexString` | src/lexer/lexer.cpp:157-176 | value, end and report of the literal at the cursor, or a report for an unterminated one |
| `StringLiteral.StringLexer.HandleEscapeSequence` | src/lexer/lexer.cpp:138-155 | known escapes are decoded, others reported |
| `StringLiteral.StringLexer.Advance` | src/lexer/lexer.cpp:63-73 | cursor, row and column |

## Left out

- The x86_64 backend and the hand-written assembly runtimes: the AArch64 backend carries the same claims.
- BackendCorrect.AllocatorSimulates: label-free runs only, because the allocator follows text order and not control flow (sample_code/register-spilling-bug.sn:8-10). It speaks of every IR register except one a call went through, for which BackendCorrect.CallThroughRegisterLosesIt says what happens instead. Each IR register is defined once, as the lowering does.
- In the backend: globals and string literals as operands, `RETURN`, `EXIT`, assembly blocks and the text of instructions. Arithmetic results are arbitrary functions of their operands, so narrow signed arithmetic and the signed division used for unsigned operands are not judged.
- LoweringCorrect.LoweringPreservesMeaning: for statements in which no variable read late is assigned first (SafeStmt, a syntactic condition); the general statement is LoweringStmts.FuncRuns, and LateReading.LateReadExact gives the difference. Values are integers without widths; casts, pointers, structs, `new`, `free`, `read` and string operands are not lowered here.
- LateReading.LateReadExact: binary operations whose operands are safe themselves; LateReading.LateCallExact and LateReading.LateSwitchExact do the same for calls and switches.
- LoweringStmts.SwitchRuns: value switches; enum patterns are in TaggedUnion, on memory and not through the IR.
- Parser: positions, scope numbers and diagnostics of nodes; a type is the tree written, not a pointer into the symbol table; integer values of literals and running enum tags.
- DeclRoundTrip.ProgramRoundTrip: one way of writing each tree: no `imm`, a struct without fields as `struct Name ;` (DeclRoundTrip.StructBodyParses covers the braces), `else if` without braces, no `>>` for two closing angles (TypeRoundTrip.MergedAngles covers it). Names are free of the characters that printed types use.
- TypePrinting.PrintedExact: names of declared types are words without marks and not names of primitive types, as the lexer provides.
- ParserCrashes.CleanFinishes: sufficient, not necessary: it looks at names anywhere in the stream, also at those declared in inner scopes. The exact condition is ParserCrashes.CrashExact.
- Checker: the source sets types and inserts casts in the tree it walks; here checking answers a new tree, so sharing of nodes is not captured. Struct and enum literals, `new`, `sizeof` and statements are not checked here.
- Layout.LayoutEnum: sizes for which no sum leaves 64 bits (Sized), and powers of two as alignments; self-containing structs are outside that.
- HashMap.Map.Put: unbounded capacity, allocation that does not fail, a map pointer that is not null; 64-bit hashes are unsigned as declared, while the generated remainder is signed. `map_destroy` is left out.
- ArenaModel.Arena.Allocate: bases of new chunks are a parameter, one per request; when a third try is needed the model answers none instead of trying on. Freeing at destruction is left out.
- PreprocessorModel.Run: finding and loading files is a parameter; only tokens, rows and files are kept of a token.
- StringLiteral.LiteralRoundTrip: the value of the token; its span and the other tokens of the lexer are left out.
- DecimalIo: writing to a file descriptor is left out; the bytes written are the answer.
- Driver, REPL, source loading, diagnostics, printers and JSON export; vector, string, stack, queue and I/O libraries: plumbing, or members that would only add easy results.
