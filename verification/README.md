# Lua and Lanes in the agent: a verified model

The monitoring agent of this repository embeds Lua 5.1.4 and the Lanes threading library. This project
models the parts of these two that are hardest to get right and proves what they are for. Everything is
Dafny 4.11; `dafny verify dfyconfig.toml` checks it.

## What is modelled

**The incremental garbage collector** (`Gc*.dfy`). The heap of tables, closures, prototypes, userdata,
threads, upvalues and strings; the two whites; gray, grayagain and weak; the five collector states; both
barriers; sweeping by buckets and by pieces of rootgc. A run is any sequence of mutator operations and
collector single steps. One invariant over the whole state (`GcInvariant.Inv`) is shown to survive every
operation in every collector state, and safety, the tri-colour facts and the result of a full collection
follow from it. What a collection leaves of the objects it keeps, and what the operations of a program do, is
also said in slots and fields (`GcRetain.dfy`, `GcReads.dfy`). Weak tables, dead keys, several threads, open upvalues and the revival of dead strings and
upvalues are part of the model.

**Tables** (`Table*.dfy`). The array part and the chained scatter table with Brent's variation, its free
pointer and its rehash, as a class that changes nodes in place. It is proved to be a finite map over all
histories of stores. The mutual recursion of luaH_set, newkey, rehash and resize is modelled as it is; calls
made inside a rehash are marked by a ghost argument, and the proof that these always find a free position is
what makes the recursion end. `TableSort.dfy` has the quicksort of table.sort.

**The code generator for logical expressions** (`Code*.dfy`). FuncState with the code being emitted,
expression descriptors, and patch lists threaded through the offsets of the jumps. What a descriptor means
halfway is stated by running the unfinished code: a run stops at a jump that has no target yet. The main
theorem compiles any expression, also after other code and for every jump that leads to its start, and runs
it: the code gives the value of the flow that `CodeFlow.dfy` defines. That flow has the value the manual asks
for, except through the always-jumps of luaK_goiftrue and luaK_goiffalse, which keep the jumps that led there
with the values they bring. A guard on the expression and on fs->jpc at entry rules this out for all
environments, and holds of every expression without literals; for a single environment it is shown exactly
when the value is right. `CodeLiteral.dfy` derives wrong code from the compiler for both always-jumps.

**Patterns** (`Pattern*.dfy`). Pattern strings are read as items; the ways to match them are listed in order
of preference, and independently defined without order and without items, from the bytes of the pattern. The
matcher, with its mutable captures and their undoing, returns the first way. No assumption is made about the pattern: malformed ones are items that raise
an error when the search reaches them.

**Precompiled chunks** (`Chunk*.dfy`). Writers, the chunked input stream and readers, against functions that
define the format; reading undoes writing. `ChunkBytes.dfy` says what each byte of a chunk is.

**Captured variables** (`UpvalueCells.dfy`) refine shared cells. **Copying between states**
(`GraphCopy.dfy`) yields an isomorphic graph. **The chain of free-running lanes** (`LaneChain.dfy`) stays
sound under every interleaving of its three users; two accesses that are made after a lock is released can hit
a record that has been freed, and the model says exactly when. **Quoted strings** (`QuotedStrings.dfy`) are
read back.

Where the code and its comments disagree the code is followed: the header of ltable.c asks for an array part
at least half full, while computesizes chooses one that is more than half full.

## Model

| member | source | states |
|---|---|---|
| GcBits.ColorTests | extern/lua/src/lgc.h:65-67 | iswhite, isblack and isgray on the mark byte are the tests on the colour of the object |
| GcBits.DeadTests | extern/lua/src/lgc.h:69-77 | isdead is "has the other white"; the sweep test spares exactly fixed objects and those without the other white; otherwhite and makewhite are the flip and the whitening of the model |
| GcMark.ReallyMarkObject | extern/lua/src/lgc.c:69-112 | a white object and all it must mark at once become non-white; the tri-colour and gray-list invariant holds but for the objects under visit; nothing the program can read changes |
| GcMark.MarkValue | extern/lua/src/lgc.c:52-53 | a collectable white value is marked, any other left alone, and the marking invariant is kept |
| GcMark.MarkValues | extern/lua/src/lgc.c:158-270 | every value of a traversed run is non-white afterwards, and the marking invariant is kept |
| GcCycle.PropagateMark | extern/lua/src/lgc.c:277-320 | one gray object leaves the gray list with its colour rule met (weak tables and threads go to weak and grayagain), dead keys included, and the remaining work shrinks |
| GcCycle.PropagateAll | extern/lua/src/lgc.c:323-327 | propagation ends with an empty gray list and the invariant kept |
| GcAtomic.RemarkUpvals | extern/lua/src/lgc.c:515-522 | the values of all gray open upvalues are marked |
| GcAtomic.FinishMarking | extern/lua/src/lgc.c:529-542 | after upvalues, weak tables, roots and grayagain have been traversed again marking is complete |
| GcClear.IsCleared | extern/lua/src/lgc.c:337-345 | strings are marked and kept; other white values are cleared |
| GcClear.ClearTable | extern/lua/src/lgc.c:351-375 | every weak table holds no unmarked key or value afterwards, and nothing else changes |
| GcCollect.MarkRoot | extern/lua/src/lgc.c:501-512 | a cycle starts in GCSpropagate with the roots marked and empty grayagain and weak lists |
| GcCollect.Atomic | extern/lua/src/lgc.c:525-553 | after the flip exactly what was marked survives: everything strongly reachable from the roots at this moment, and nothing outside what could be reached since the cycle began |
| GcCollect.SweepStringStep | extern/lua/src/lgc.c:572-580 | one bucket is swept; only doomed strings are freed |
| GcCollect.SweepStep | extern/lua/src/lgc.c:581-591 | sweeping rootgc makes progress, frees only doomed objects and leaves the survivors of the new white |
| GcCollect.SingleStep | extern/lua/src/lgc.c:556-607 | each of the five collector states keeps the invariant of the whole system and does what its state promises |
| GcSweep.SweepBucket | extern/lua/src/lgc.c:407-428 | every string left in the bucket has the current white; no other bucket changes |
| GcSweep.SweepUpvals | extern/lua/src/lgc.c:412-413 | the open upvalues left on a thread are clean |
| GcSweep.SweepOne | extern/lua/src/lgc.c:411-426 | one object of rootgc is whitened or freed, never a reachable one |
| GcSweep.SweptContents | extern/lua/src/lgc.c:407-428 | sweeping changes nothing a surviving object holds |
| GcFull.FullGc | extern/lua/src/lgc.c:636-659 | from any collector state: ends in GCSpause with no gray, black or dead object; keeps everything strongly reachable at the call; whatever is left is fixed or could be reached at the call; whatever is kept has all its fields, but that a table loses exactly the weak elements and entries of which a weak part is gone, and everything held is allocated |
| GcRetain.EdgeMeans | extern/lua/src/lgc.c:158-270 | field by field for each kind of object, which references it holds: an empty entry of a table holds none |
| GcRetain.StrongEdgeMeans | extern/lua/src/lgc.c:158-192 | field by field, which references are strong: all but the values of a table whose metatable has the letter v in its mode, and its keys for the letter k |
| GcRetain.AtomicRetained | extern/lua/src/lgc.c:525-553 | what survives the atomic step keeps every field; a weak element or entry is lost exactly if a weak part of it does not survive |
| GcRetain.StepRetained | extern/lua/src/lgc.c:556-607 | the same for a single step in each of the five collector states; an upvalue is closed by the collector only with its thread, with the value of its slot |
| GcFull.SweptReach | extern/lua/src/lgc.c:636-659 | finishing an abandoned sweep neither cuts off nor adds anything reachable |
| GcBarrier.BarrierForward | extern/lua/src/lgc.c:662-672 | while marking, the value is marked; otherwise the writer is whitened |
| GcBarrier.BackDone | extern/lua/src/lgc.c:675-683 | in the marking phase a write of anything reachable into a black table, followed by the barrier that turns it gray at the head of grayagain, restores the whole invariant |
| GcBarrier.BackInv | extern/lua/src/lgc.c:675-683 | in every other phase that barrier keeps the whole invariant |
| GcBarrier.Store | extern/lua/src/lgc.h:86-98 | any write with its barrier, in any collector state, keeps the invariant, and exactly the written object changes |
| GcMutator.AllocatedInv | extern/lua/src/lgc.c:686-692 | linking a new object of the current white keeps the invariant in every state, also after the flip |
| GcMutator.InternedInv | extern/lua/src/lstring.c:50-72 | linking a new string keeps the invariant in every state |
| GcMutator.RevivedInv | extern/lua/src/lstring.c:75-93 | whitening a dead string or upvalue that is found again before it is swept keeps the invariant |
| GcMutator.FindUpval | extern/lua/src/lfunc.c:53-79 | the upvalue open on the slot, revived if dead, or, exactly if there is none, a new one in its place in the list; it cannot be freed |
| GcMutator.Close | extern/lua/src/lfunc.c:96-112 | no upvalue stays open at or above the level; those that were hold the values of their slots, only doomed ones are freed, and no other object changes; the invariant holds |
| GcMutator.CloseHead | extern/lua/src/lgc.c:695-710 | a gray upvalue closed while marking turns black with its value marked, one closed while sweeping turns white |
| GcInvariant.PathSafe | extern/lua/src/lgc.c:407-428 | nothing on a path from the roots is missing or about to be freed |
| GcInvariant.ReachableSafe | extern/lua/src/lgc.c:407-428 | every reachable object is allocated and not doomed |
| GcRun.Perform | extern/lua/src/lgc.c:525-692 | any mutator operation or collector step, in any collector state, has its effect, keeps the invariant and frees nothing reachable |
| GcRun.Execute | extern/lua/src/lgc.c:407-692 | in every run of mutator operations and collector steps all states meet the invariant, everything reachable is allocated, and no step frees anything reachable before it |
| GcRun.MarkingPhase | extern/lua/src/lgc.c:69-112 | in every state of GCSpropagate no black object refers to a white one, and a gray table, closure, prototype or thread is on exactly one of gray, grayagain and weak, once, while nothing else is on them |
| GcRun.InitialInv | extern/lua/src/lstate.c:143-190 | the state lua_newstate builds meets the invariant |
| GcReads.PushMeans | extern/lua/src/lapi.c:228-233 | a pushed value is on top of the stack, and no other slot, object or root changes |
| GcReads.ElementMeans | extern/lua/src/lapi.c:684-694 | after a store to the array part the slot holds the value, and nothing else changes |
| GcReads.EntryMeans | extern/lua/src/lapi.c:671-681 | after a store under a key the node has that key and the value, and nothing else changes |
| GcReads.MetatableMeans | extern/lua/src/lapi.c:697-731 | setting a metatable, or its mode, changes that and nothing else |
| GcReads.UpvalueMeans | extern/lua/src/lapi.c:1071-1086 | after a store to a closed upvalue it holds the value, and nothing else changes |
| GcReads.OverwriteMeans | extern/lua/src/lapi.c:203-225 | after a store to a slot of a thread the slot holds the value, and nothing else changes |
| GcReads.PartMeans | extern/lua/src/lapi.c:557-564 | reading from an object gives a value that one of its fields holds |
| GcReads.PartReadable | extern/lua/src/lapi.c:557-564 | every reference an object holds can be read |
| GcReads.TableMeans | extern/lua/src/lapi.c:578-584 | a new table has nil in all its slots and no metatable, a new thread an empty stack and the same globals; it is on top of the stack, and nothing else changes |
| GcReads.BlockMeans | extern/lua/src/lgc.c:686-692 | a new closure, prototype or userdatum holds the values of the given slots, in their order |
| GcReads.StringMeans | extern/lua/src/lstring.c:75-93 | a string is found or new, and on top of the stack |
| GcReads.CaptureMeans | extern/lua/src/lfunc.c:53-79 | capturing a slot gives the upvalue open on it, a new one only if there is none |
| TableModel.TakeMain | extern/lua/src/ltable.c:399-402 | taking over a main position whose value is nil keeps chains, links and keys sound |
| TableModel.MoveKeys | extern/lua/src/ltable.c:409-418 | moving a colliding node that is out of its main position to the free node keeps every key findable |
| TableModel.InsertKeys | extern/lua/src/ltable.c:419-424 | chaining the free node after a collision in its own main position keeps every key findable |
| TableHash.MainInvariant | extern/lua/src/ltable.c:15-18 | a key away from its main position gave way to one that is in its own, and both are on one chain |
| TableHash.KeyAt | extern/lua/src/ltable.c:469-491 | a key has one node, and its value is the one the map gives |
| TableHash.SameView | extern/lua/src/ltable.c:399-429 | node vectors with the same valued keys stand for the same map, wherever the nodes are |
| TableHash.Table.FindNode | extern/lua/src/ltable.c:469-491 | the walk from the main position finds the node of the key, and fails only if there is none |
| TableHash.Table.GetSlot | extern/lua/src/ltable.c:435-491 | the slot of the key: in the array part, in a node, or nowhere |
| TableHash.Table.Get | extern/lua/src/ltable.c:435-491 | luaH_get gives what the finite map gives |
| TableHash.Table.GetFreePos | extern/lua/src/ltable.c:382-388 | the highest free node, or none exactly when there is none |
| TableCount.Log2 | extern/lua/src/lobject.c:54-69 | the largest power of two not above the argument, -1 for 0 |
| TableCount.CeilLog2 | extern/lua/src/lobject.h:367 | the least power of two not below the argument |
| TableCount.ComputeSizes | extern/lua/src/ltable.c:189-208 | the largest power of two n of which more than half of 1..n is in use, 0 if none, and the exact number of keys in 1..n |
| TableCount.BestSizeMeans | extern/lua/src/ltable.c:189-208 | by counting the keys themselves: more than half of 1..n is in use, and at most half of every larger power of two |
| TableCount.NumUseArray | extern/lua/src/ltable.c:222-244 | counts the used array slots, slice by slice |
| TableCount.CountInt | extern/lua/src/ltable.c:211-219 | counts exactly the integer keys in 1..2^26, in the slice of the key |
| TableCount.NumUseHash | extern/lua/src/ltable.c:247-260 | counts the keys with a value in the nodes, and the integers among them by slice |
| TableSet.LiveMeans | extern/lua/src/ltable.c:222-260 | the counted keys are those to which the map gives a value |
| TableSet.SomeFree | extern/lua/src/ltable.c:382-388 | with fewer keys than nodes a node is free |
| TableSet.StoreTab | extern/lua/src/ltable.c:494-505 | an assignment to the slot of a key changes the map at that key only |
| TableSet.FindPrevious | extern/lua/src/ltable.c:411 | the walk ends at the node before the colliding one |
| TableRehash.SetNodeVector | extern/lua/src/ltable.c:272-294 | an empty vector with at least the asked number of nodes and less than twice as many; overflow exactly beyond 67108864 |
| TableRehash.Resize | extern/lua/src/ltable.c:297-324 | the map stays the same, and every counted key has room afterwards |
| TableRehash.CountKeys | extern/lua/src/ltable.c:336-346 | the array size is the best one for the integer keys in use and the extra key; the hash size is exactly the number of keys left |
| TableRehash.Rehash | extern/lua/src/ltable.c:333-349 | the map stays the same, the array has the best size, and the extra key will find a position |
| TableRehash.PlaceKey | extern/lua/src/ltable.c:409-424 | the key gets a node and the map stays the same, in both collision cases |
| TableRehash.NewKey | extern/lua/src/ltable.c:399-429 | a slot for the key with the map unchanged; inside a rehash it always finds a free position |
| TableRehash.Set | extern/lua/src/ltable.c:494-505 | errors exactly for nil and NaN; otherwise a slot for the key with the map unchanged, or overflow with 2^26 keys; a rehash never starts another, so the recursion ends |
| TableTraverse.Put | extern/lua/src/ltable.c:494-505 | storing v under k makes the map give v for k and what it gave for every other key |
| TableTraverse.ReplayMeans | extern/lua/src/ltable.c:494-505 | the map of a history gives the value last stored under a key |
| TableTraverse.ValueMeans | extern/lua/src/ltable.c:435-491 | the map of a table gives the array slot for 1..n, the value of the node that has the key otherwise, and nothing for a key without a node |
| TableTraverse.RunHistory | extern/lua/src/ltable.c:297-505 | after every history of stores the table stands for the last store to each key; it fails only after more than 2^26 stores or for a larger initial hash part |
| TableTraverse.New | extern/lua/src/ltable.c:358-371 | a new table stands for the empty map |
| TableTraverse.ResizeArray | extern/lua/src/ltable.c:327-330 | growing the array part keeps the map |
| TableTraverse.FindIndex | extern/lua/src/ltable.c:137-159 | the traversal index of a key; an error exactly for keys the table does not have |
| TableTraverse.Next | extern/lua/src/ltable.c:162-179 | the next entry with a value after the given key, with nothing of value between |
| TableTraverse.Traverse | extern/lua/src/ltable.c:137-179 | from nil, feeding each key back: every key with a value exactly once, with its value, then the end |
| TableTraverse.UnboundSearch | extern/lua/src/ltable.c:532-553 | a border, by doubling and bisection |
| TableTraverse.LinearSearch | extern/lua/src/ltable.c:541-543 | a border with everything before it present; it ends |
| TableTraverse.GetN | extern/lua/src/ltable.c:560-576 | a border of the table |
| CodeVm.Execute | extern/lua/src/lvm.c:373-581 | the interpreter loop does what the run of the code is defined to be |
| CodeVm.RunContinues | extern/lua/src/lvm.c:537-581 | a run of extended and patched code goes on from where the run of the code before ended |
| CodeVm.LoadsMean | extern/lua/src/lopcodes.h:154-178 | each instruction that loads a register, register by register: the value loaded, where the run goes on, and nothing else changed |
| CodeVm.TestsMean | extern/lua/src/lopcodes.h:183-194 | each test, jump and return: when the jump is taken, where it leads, and what TESTSET stores |
| CodeLists.LinkedList | extern/lua/src/lcode.c:185-196 | luaK_concat is append, on acyclic disjoint lists |
| CodeLists.ListUnique | extern/lua/src/lcode.c:100-106 | a patch list is determined by its head |
| CodeState.FuncState.NeedValue | extern/lua/src/lcode.c:122-128 | true exactly when some jump of the list brings no value |
| CodeState.FuncState.PatchTestReg | extern/lua/src/lcode.c:131-141 | only the TESTSET that controls the jump changes |
| CodeState.FuncState.PatchListAux | extern/lua/src/lcode.c:150-160 | every jump of the list gets its target by whether it brings a value, the TESTSETs of the list their register, and no other instruction changes |
| CodeState.FuncState.RemoveValues | extern/lua/src/lcode.c:144-147 | exactly the TESTSETs of the list become TESTs |
| CodeState.FuncState.Concat | extern/lua/src/lcode.c:185-196 | the result is the list of both, and one link changes |
| CodeState.FuncState.Code | extern/lua/src/lcode.c:797-809 | pending jumps to here now lead to the new instruction, without values |
| CodeState.FuncState.Jump | extern/lua/src/lcode.c:59-66 | a new jump heads the list of those that led here |
| CodeState.FuncState.PatchToHere | extern/lua/src/lcode.c:179-182 | the list joins the jumps to here |
| CodeVm.PutNilsClears | extern/lua/src/lvm.c:416-421 | exactly the registers from A to B become nil |
| CodeVm.ClearRegisters | extern/lua/src/lvm.c:416-421 | the registers of the range become nil, and no other |
| CodeState.FuncState.LoadNil | extern/lua/src/lcode.c:35-56 | nothing is emitted at the start of a function for a register above the locals, a LOADNIL otherwise, unless the last instruction is one that may be extended |
| CodeState.ExtendedMeans | extern/lua/src/lcode.c:41-47 | an extended LOADNIL does what the LOADNIL before and one for the next register do |
| CodeFlow.EvalMeans | extern/lua/doc/manual.html:1012-1045 | the laws of the operators: and, or and not; negated equality; > and >= as < and <= exchanged; negation through and and or |
| CodeFlow.FlowFits | extern/lua/src/lcode.c:539-626 | the flow through the emitted code leaves by the list of its truth and brings the value of the expression, unless an always-jump made it stale |
| CodeFlow.RightExactly | extern/lua/src/lcode.c:539-591 | with right operands of comparisons, the code gives the value of the manual if and only if the run does not leave through an always-jump with a carried value that differs from the literal |
| CodeFlow.GuardedRight | extern/lua/src/lcode.c:539-591 | if no always-jump is emitted while a jump that brings a value leads to it, the code gives the value of the manual in every environment, for every jump that leads to the start |
| CodeFlow.LiteralFreeGuarded | extern/lua/src/lcode.c:539-591 | an expression without literals always meets that guard |
| CodeFlow.AlwaysJumpCarries | extern/lua/src/lcode.c:547-550 | an always-jump reached with a carried value gives that value, whatever follows, where the manual asks for the literal |
| CodeToReg.DischargeVars | extern/lua/src/lcode.c:304-334 | the descriptor still stands for the expression, in a register or about to be loaded |
| CodeToReg.LoadLiteral | extern/lua/src/lcode.c:345-361 | a literal is in the register: nil, true, false or a constant |
| CodeToReg.Discharge2Reg | extern/lua/src/lcode.c:343-379 | the value is loaded into the register, jumps aside |
| CodePut.Exp2Reg | extern/lua/src/lcode.c:390-411 | whichever way control comes, the register holds what the flow through the code gives, and the registers in use below keep theirs |
| CodePut.Exp2NextReg | extern/lua/src/lcode.c:414-419 | that value is in the first free register |
| CodePut.Exp2AnyReg | extern/lua/src/lcode.c:422-433 | that value is in some register, without jumps left |
| CodePut.Exp2RK | extern/lua/src/lcode.c:436-469 | that value is an operand: a literal without jumps stays a constant, anything else is in a register |
| CodeCond.JumpOnCond | extern/lua/src/lcode.c:524-536 | a new jump is taken exactly when the value is not as wanted, and brings it along unless a NOT was removed |
| CodeCond.AlwaysJump | extern/lua/src/lcode.c:547-550 | all ways leave through the new jump or the jumps that led here, which keep what they bring |
| CodeCond.GoIfTrue | extern/lua/src/lcode.c:539-564 | control goes on exactly when the flow does not leave for false: for values, when they are true; a certain literal needs no jump or always jumps |
| CodeCond.GoIfFalse | extern/lua/src/lcode.c:567-591 | control goes on exactly when the flow does not leave for true |
| CodeNot.Negate | extern/lua/src/lcode.c:594-626 | the descriptor stands for the negation, literals and comparisons in place, with the lists exchanged and without values |
| CodeGen.Posfix | extern/lua/src/lcode.c:747-760 | the descriptor stands for the whole `and` or `or` |
| CodeGen.CompileRel | extern/lua/src/lcode.c:681-694 | the comparison jumps exactly when the relation holds of its operands, `>` and `>=` by exchange |
| CodeGen.Compile | extern/lua/src/lparser.c:828-853 | for every expression over locals, upvalues, literals, comparisons, and, or, not, after any code and for every jump that leads to its start: running the code gives the flow of the expression, and the descriptor stands for what is left |
| CodeGen.CompileReturn | extern/lua/src/lparser.c:1238-1268 | in every environment the code of `return e` returns what the flow gives and leaves the locals unchanged; that is what sections 2.5.2 and 2.5.3 of the manual say e is under the guard, and without it, operands being right, exactly when the run does not end with a stale value |
| CodeGen.CompileAssign | extern/lua/src/lcode.c:472-478 | the same for the local x after `x = e`, compiled after any code and entered at its start or by any jump that leads there; every other register in use is unchanged |
| CodeGen.CompileLocal | extern/lua/src/lcode.c:414-419 | the same for the next register after `local x = e` |
| CodeLiteral.ReturnTwice | extern/lua/src/lcode.c:547-578 | the code of `return ((x and x) or false) and y` and of `return ((x or x) and true) or y` is right exactly when x is as wanted or is the literal itself; otherwise it returns x |
| CodeLiteral.TwiceGuard | extern/lua/src/lcode.c:547-578 | the guard does not hold of these two |
| CodeLiteral.LocalConstantly | extern/lua/src/lcode.c:547-578 | `local z = false and y` and `local z = true or y` are right exactly where no jump arrives that brings another value than the literal; otherwise z becomes what it brings |
| CodeLiteral.ConstantlyGuard | extern/lua/src/lcode.c:547-578 | the guard holds of these two if and only if no jump that brings a value leads to them |
| GraphCopy.Copier.CopyOne | extern/lanes/src/tools.c:924-1132 | the copy of a value; tables that were there are untouched, new ones complete; it ends on cyclic graphs; it fails only on a thread |
| GraphCopy.Copier.CopyTable | extern/lanes/src/tools.c:998-1045 | a new table in the cache, filled with the copies of the entries under basic keys |
| GraphCopy.ImageExact | extern/lanes/src/tools.c:1016-1043 | a copy has exactly the basic keys of the source table, with the copies of their values |
| GraphCopy.CompleteCopies | extern/lanes/src/tools.c:924-957 | each entry under a basic key has a copy under the same key: the same basic value, or the copy of the table; there is no other key |
| GraphCopy.InterCopy | extern/lanes/src/tools.c:1143-1192 | basic values are copied as they are, and the copies of tables are fresh, complete and isomorphic, one per table reachable under basic keys, across all values of the call; it fails exactly when a thread is reachable |
| GraphCopy.SharingKept | extern/lanes/src/tools.c:649-712 | values that are the same table have the same copy, and only those |
| GraphCopy.CacheClosed | extern/lanes/src/tools.c:1170-1190 | the copied tables are closed under reference, and none holds a thread |
| LaneChain.AddedChain | extern/lanes/src/lanes.c:949-960 | adding a lane that is off the chain gives a chain with it at the head |
| LaneChain.UnlinkedChain | extern/lanes/src/lanes.c:976-984 | taking a lane out leaves a chain of the others in order |
| LaneChain.Lanes.Add | extern/lanes/src/lanes.c:949-960 | the lane heads the chain, and the invariant is kept |
| LaneChain.Lanes.Remove | extern/lanes/src/lanes.c:965-991 | the walk always finds the lane and unlinks just it |
| LaneChain.Lanes.SignalAll | extern/lanes/src/lanes.c:996-1010 | every lane on the chain is asked to cancel and nothing else changes |
| LaneChain.ExitMeans | extern/lanes/src/lanes.c:996-1010 | process exit sets the cancel flag of exactly the lanes on the chain and changes nothing else |
| LaneChain.LaneMeans | extern/lanes/src/lanes.c:1320-1358 | the steps of a lane, field by field: what it reads decides where it goes, and it frees itself only after leaving the chain |
| LaneChain.GcMeans | extern/lanes/src/lanes.c:1514-1559 | the steps of a finalizer, field by field: free a lane that is done, add one that is not at the head of the chain |
| LaneChain.RemoveMeans | extern/lanes/src/lanes.c:965-991 | leaving the chain: what led to the lane leads to what came after it, and no other link changes |
| LaneChain.Lanes.Perform | extern/lanes/src/lanes.c:1320-1358 | each step of a lane, a finalizer or process exit has exactly the effect on chain, records and allocation that the code has at the place of its thread, none if the thread is elsewhere, and keeps the invariant |
| LaneChain.Interleave | extern/lanes/src/lanes.c:1514-1559 | every interleaving is a trace in which each state follows from the one before by its step; at every moment the chain is acyclic and ends at SELFDESTRUCT_END, next is not NULL exactly for lanes on it, lanes on it are allocated, no lane is freed twice |
| LaneChain.Touches | extern/lanes/src/lanes.c:1320-1358 | an access hits a freed record exactly in two cases: the assert of thread_gc after the lane freed itself, and the signal and unlock of a lane after thread_gc freed it; every other access hits an allocated one |
| LaneChain.AssertHolds | extern/lanes/src/lanes.c:1522-1523 | the assert after selfdestruct_add holds exactly while the lane is on the chain |
| LaneChain.AssertAfterFree | extern/lanes/src/lanes.c:1522-1523 | an interleaving in which the assert reads a freed record |
| LaneChain.SignalAfterFree | extern/lanes/src/lanes.c:1346-1350 | an interleaving in which a lane signals in a freed record |
| LaneChain.FreedOffChain | extern/lanes/src/lanes.c:1320-1333 | a lane whose thread and handle are both gone has been freed if and only if it is off the chain |
| LaneChain.LeftOnChain | extern/lanes/src/lanes.c:1320-1358 | in every trace such a lane is on the chain, and not freed, if and only if it was added after it had read its link as NULL |
| PatternMatch.MatchBracketClass | extern/lua/src/lstrlib.c:245-265 | membership in the set as written, ranges, classes and negation |
| PatternMatch.SingleMatch | extern/lua/src/lstrlib.c:268-275 | whether the single character item accepts the character |
| PatternMatch.FindClassEnd | extern/lua/src/lstrlib.c:202-223 | where the item ends, or that it does not |
| PatternMatch.MatchBalance | extern/lua/src/lstrlib.c:281-298 | the end of the balanced string, if any |
| PatternMatch.BalanceMeans | extern/lua/src/lstrlib.c:281-298 | that is the shortest balanced string from there, and there is none only if none exists |
| PatternMatch.MatchState.CaptureToClose | extern/lua/src/lstrlib.c:194-199 | the last open capture |
| PatternMatch.MatchState.MatchCapture | extern/lua/src/lstrlib.c:354-362 | an error for a bad index, otherwise whether the captured string stands here again |
| PatternMatch.MatchState.StartCapture | extern/lua/src/lstrlib.c:329-340 | the preferred way with the capture opened; undone on failure |
| PatternMatch.MatchState.EndCapture | extern/lua/src/lstrlib.c:343-351 | the preferred way with the last open capture closed; reopened on failure |
| PatternMatch.MatchState.MaxExpand | extern/lua/src/lstrlib.c:301-313 | the preferred way among all repetition counts, the longest first |
| PatternMatch.MatchState.MinExpand | extern/lua/src/lstrlib.c:316-326 | the preferred way among all repetition counts, the shortest first |
| PatternMatch.MatchState.DoMatch | extern/lua/src/lstrlib.c:365-440 | for every pattern and subject: the first of all ways to match in order of preference, NULL exactly when there is none, an error exactly when the search meets one first; failure leaves level and captures as they were |
| PatternLaws.WaysArePossible | extern/lua/src/lstrlib.c:365-440 | the ordered list has exactly the matches of the unordered definition |
| PatternLaws.LongestFirst | extern/lua/src/lstrlib.c:301-313 | `*` and `+` take the largest count after which the rest matches |
| PatternLaws.ShortestFirst | extern/lua/src/lstrlib.c:316-326 | `-` takes the smallest count after which the rest matches |
| PatternLaws.WaysInside | extern/lua/src/lstrlib.c:329-362 | matches end inside the subject and captures lie before the end, at most 32 of them |
| PatternLaws.NoFault | extern/lua/src/lstrlib.c:186-223 | a well-formed pattern runs into no error |
| PatternFind.Find | extern/lua/src/lstrlib.c:512-531 | the first position that does not fail: the preferred match there, or an error there, which a well-formed pattern never gives; none if the text of the pattern matches at no position |
| PatternChars.ClassMeans | extern/lua/src/lstrlib.c:226-242 | the byte ranges of %a %c %d %l %p %s %u %w %x %z, the complements for capital letters, and the character itself after any other % |
| PatternChars.Complement | extern/lua/src/lstrlib.c:241 | a capital letter accepts exactly what the small one does not |
| PatternChars.ClassLaws | extern/lua/src/lstrlib.c:226-242 | how the classes lie to each other: %a is %l or %u, %w is %a or %d, and so on |
| PatternChars.SetMeans | extern/lua/src/lstrlib.c:245-265 | which bytes a set accepts, from its characters: escapes, ranges and single bytes |
| PatternChars.ItemEndMeans | extern/lua/src/lstrlib.c:202-223 | where an item ends, from its characters: the bracket that closes a set is neither its first character nor escaped |
| PatternText.TextMeans | extern/lua/src/lstrlib.c:365-440 | the items of a pattern have exactly the matches that its text has, read character by character |
| PatternText.Preferred | extern/lua/src/lstrlib.c:414-438 | the preferred match takes the most repetitions before *, + and ?, the fewest before -, after which the text of the rest matches |
| PatternText.DepthCounts | extern/lua/src/lstrlib.c:288-294 | the depth in a balanced string is the number of opening minus that of closing delimiters |
| PatternText.DepthSame | extern/lua/src/lstrlib.c:288-294 | with one delimiter for both ends a balanced string ends at the next one |
| ChunkFormat.StringBack | extern/lua/src/lundump.c:76-88 | a dumped string, or no string, is read back |
| ChunkFormat.ConstantBack | extern/lua/src/lundump.c:100-130 | a dumped constant is read back |
| ChunkFormat.DebugBack | extern/lua/src/lundump.c:137-159 | dumped debug information is read back |
| ChunkTree.FunctionBack | extern/lua/src/lundump.c:161-181 | a dumped function tree is read back with inherited sources restored, under any parent |
| ChunkTree.SameBack | extern/lua/src/ldump.c:131 | without stripping the very same tree comes back if and only if every function has a source |
| ChunkTree.StripsBack | extern/lua/src/ldump.c:111-131 | with stripping the same tree comes back without debug data and with one source |
| ChunkTree.InheritsBack | extern/lua/src/lundump.c:167 | without stripping nothing is lost, and a function without a source gets that of the function around it |
| ChunkTree.ChunkBack | extern/lua/src/lundump.c:195-209 | reading a dumped chunk gives back the tree, within the nesting limit and if the checker accepts it |
| ChunkTree.ChunkTooDeep | extern/lua/src/lundump.c:164 | with every function accepted, a dumped chunk is refused as too deep if and only if it is nested beyond the limit |
| ChunkBytes.IntHolds | extern/lua/src/ldump.c:45-48 | an int is four bytes, the least significant first, in two's complement |
| ChunkBytes.StringHolds | extern/lua/src/ldump.c:61-74 | a string is eight bytes of its length with the final zero, its bytes and the zero; no string is the length 0 |
| ChunkBytes.ConstantHolds | extern/lua/src/ldump.c:80-100 | tag 0 for nil, 1 and a byte for a boolean, 3 and eight bytes for a number, 4 and the string for a string |
| ChunkBytes.FunctionHolds | extern/lua/src/ldump.c:129-141 | each field of a function stands at its place: source, lines, four bytes, code, constants, functions, line numbers, variables, upvalue names |
| ChunkBytes.ChunkHolds | extern/lua/src/ldump.c:153-164 | the twelve header bytes and then the main function, and nothing more |
| ChunkBytes.ReadIntMeans | extern/lua/src/lundump.c:61-67 | the value of the four bytes, or an error from 2147483648 on |
| ChunkBytes.ReadStringMeans | extern/lua/src/lundump.c:76-88 | as many bytes as the size says, without the last; none for the size 0 |
| ChunkBytes.ReadConstantMeans | extern/lua/src/lundump.c:107-128 | what each tag byte leads to; a bad constant exactly for the tags other than 0, 1, 3 and 4 |
| ChunkBytes.ReadChunkMeans | extern/lua/src/lundump.c:195-209 | refused for any other header, and a main function without a source gets the name "=?" |
| ChunkIO.DumpState.DumpString | extern/lua/src/ldump.c:61-74 | appends the string in the chunk format |
| ChunkIO.DumpState.DumpConstants | extern/lua/src/ldump.c:80-106 | appends the constants in the chunk format |
| ChunkIO.DumpState.DumpDebug | extern/lua/src/ldump.c:111-127 | appends the debug data, or none if stripped |
| ChunkIO.DumpState.DumpFunction | extern/lua/src/ldump.c:129-141 | appends the function tree in the chunk format |
| ChunkIO.Dump | extern/lua/src/ldump.c:153-164 | the chunk of the function: the bytes of the format, each at its place |
| ChunkIO.Zio.Fill | extern/lua/src/lzio.c:21-32 | the next chunk, the content unchanged; the end exactly when nothing is left |
| ChunkIO.Zio.Lookahead | extern/lua/src/lzio.c:35-45 | the next byte, the content unchanged |
| ChunkIO.Zio.Read | extern/lua/src/lzio.c:58-71 | the next n bytes, however they are split into chunks; missing bytes exactly when too few are left |
| ChunkIO.LoadState.LoadString | extern/lua/src/lundump.c:76-88 | reads what the format says is there |
| ChunkIO.LoadState.LoadFunction | extern/lua/src/lundump.c:161-181 | reads what the format says is there, or fails with the error it says |
| ChunkIO.Undump | extern/lua/src/lundump.c:195-209 | the outcome depends only on the bytes, not on the chunks; twelve bytes that are not the header are refused |
| ChunkIO.FlatJoins | extern/lua/src/lzio.c:21-32 | chunks one after the other deliver what each delivers, so it does not matter where the bytes are cut |
| ChunkIO.DumpAndLoad | extern/lua/src/lundump.c:195-209 | a dumped prototype comes back from a reader that splits the bytes in any way |
| UpvalueCells.Frame.FindUpval | extern/lua/src/lfunc.c:53-79 | the one upvalue open on the slot; it stands for the cell of the local |
| UpvalueCells.Frame.Close | extern/lua/src/lfunc.c:96-112 | exactly the upvalues from the level on are closed, with their values; the list stays strictly descending |
| UpvalueCells.CloseRefines | extern/lua/src/lvm.c:715-718 | after a close the cells of the dead locals live on in the upvalues |
| UpvalueCells.Perform | extern/lua/src/lvm.c:719-738 | each operation on locals and upvalues does to the machine what it does to shared cells |
| UpvalueCells.RunProgram | extern/lua/src/lfunc.c:53-112 | every program of declarations, captures, reads, writes and scope exits reads the same values as with shared cells, also after slots are reused |
| UpvalueCells.LocalsMean | extern/lua/src/lvm.c:403-405 | a local has the value it was declared with or last set to, and setting one leaves the others alone |
| UpvalueCells.CapturesMean | extern/lua/src/lvm.c:422-426 | what is written to a captured local is read through the upvalue, and the other way round |
| UpvalueCells.CapturedTwice | extern/lua/src/lfunc.c:53-79 | two captures of a local are the same variable |
| UpvalueCells.LeavesMean | extern/lua/src/lfunc.c:96-112 | a captured variable outlives the scope of its local and the reuse of its slot |
| TableSort.OrderMiddle | extern/lua/src/ltablib.c:204-216 | the middle element is between the ends, by swaps |
| TableSort.ScanUp | extern/lua/src/ltablib.c:225-229 | stops inside the range at the first element not below the pivot |
| TableSort.ScanDown | extern/lua/src/ltablib.c:230-234 | stops inside the range at the last element not above the pivot |
| TableSort.Partition | extern/lua/src/ltablib.c:223-243 | a permutation with the pivot between what is not above and what is not below it |
| TableSort.AuxSort | extern/lua/src/ltablib.c:193-254 | for every strict weak order a sorted permutation of the range, nothing outside changed, recursion at most log2 of the length deep |
| TableSort.Sort | extern/lua/src/ltablib.c:256-264 | the elements 1..n sorted, the same elements as before |
| QuotedStrings.AddQuoted | extern/lua/src/lstrlib.c:696-723 | appends the quoted form |
| QuotedStrings.Lexer.ReadString | extern/lua/src/llex.c:276-329 | the string, the rest of the input and the line count, or the error |
| QuotedStrings.Lexer.IncLineNumber | extern/lua/src/llex.c:127-135 | one line break, of one or two bytes, is passed and counted |
| QuotedStrings.ScanBody | extern/lua/src/llex.c:276-329 | reading the quoted form of any string gives the string, stops after the closing quote and counts its line breaks |
| QuotedStrings.QuoteAndRead | extern/lua/src/lstrlib.c:696-723 | for every byte string the lexer recovers what "%q" wrote |
| QuotedStrings.QuoteMeans | extern/lua/src/lstrlib.c:696-723 | byte by byte: quote, backslash and line feed get a backslash, carriage return becomes \r, zero \000, any other byte stays |
| QuotedStrings.PlainMeans | extern/lua/src/llex.c:276-289 | outside of escapes the delimiter ends the string, line breaks and the end of the input are errors, other bytes stand for themselves |
| QuotedStrings.LetterMeans | extern/lua/src/llex.c:290-303 | the seven letters stand for their control characters, any other character for itself |
| QuotedStrings.LineBreakMeans | extern/lua/src/llex.c:298-299 | a line break after a backslash is a line feed, and a pair of two different ones is one |
| QuotedStrings.DecimalMeans | extern/lua/src/llex.c:304-314 | up to three digits are the byte of that number, too large beyond 255 |

## Left out

- Finalizers: `__gc` metamethods, the list of userdata to finalize and their order; full collections are modelled without such userdata.
- Pacing of the collector: thresholds, estimates and debts only decide when steps happen, and here they happen at any time.
- Shrinking of stacks and of the string table during collection, and the clearing of the unused part of a stack.
- In traversetable the removal of empty entries happens after the marking of the others, not interleaved with it.
- GcFull.FullGc: bounds what is left by reachability that also follows weak references to strings, which a weak table keeps; what only weak references reach may otherwise be freed.
- Metamethods, errors raised in the middle of an operation, allocation failure, hooks and coroutine switches.
- Numbers as keys are integers or opaque; the hash is any function into the node vector. Floating-point hashing is not modelled.
- TableTraverse.New: the array part is at most 2^26 slots, as far as numusearray counts; tables created or resized with a longer array part are not covered.
- TableTraverse.ResizeArray: only growing, which is the only use SETLIST makes of it.
- A table that reported overflow: resize may have extended the array part before the error, and nothing is promised afterwards.
- CodeGen.Compile: no globals, table accesses, calls, arithmetic or concatenation; a constant is its value, so the constant table and its limits (constants that no longer fit an operand) are not modelled.
- CodeFlow.GuardedRight: the guard is sufficient for all environments at once; where it fails the value may still be right in all of them, when a `not` takes the value away or no run gets there. Which environments are wrong is exact (CodeFlow.RightExactly), also for comparisons, as long as their own operands came out right.
- CodeGen.CompileAssign and CodeGen.CompileLocal: where the expression contains the literal nil, the code before does not end with a LOADNIL that luaK_nil could extend; a `local x = nil` just before is not merged with the next one.
- The limits of the code generator: running out of registers or of jump range is a syntax error that ends compilation; NO_REG is a value outside the registers, as it is in effect below those limits.
- CodeVm.Execute: only the opcodes that such expressions use, with comparison operators that call no metamethods.
- Character classes are those of the "C" locale; string.gsub, gmatch and plain find are not modelled.
- A writer that fails during a dump, and the bytecode checker, which is an arbitrary predicate on prototypes.
- ChunkIO.LoadState.LoadFunction: vectors are read element by element instead of as one block.
- Copying of functions, userdata and metatables; identity of tables is taken as given instead of through tostring.
- LaneChain.Interleave: critical sections are single steps; forced kills, the wait and the count of lanes after the cancel requests at exit, and platforms without a done signal are not modelled.
- UpvalueCells.Perform: slots are locals in the order of their declaration, without temporaries.
- TableSort.Sort: for functions that are not strict weak orders the error "invalid order function" is not modelled.
- The rest of the lexer and parser, the other libraries, luasec and luasocket, Linda queues, and the agent's own code.
