# TensorStack, verified

TensorStack runs neural networks. A model is a graph of operators; a compiler turns the part of it that
some outputs need into code for a stack machine; a workbench executes that code on tensors. Models are kept in
binary files, plain or encrypted, and several of them can be fused into one. This project models that path from
file to result, with the cipher, the lock and the index arithmetic beside it, and proves what it promises.

`dafny verify dfyconfig.toml` checks everything.

## How it is laid out

| part | files | of |
|---|---|---|
| graphs and their meaning | `Tensors`, `Graphs` | `bubble.h`, `graph.h` |
| scheduling and constant folding | `Schedule`, `Standing`, `Sharing`, `Folding` | `module.cpp`, `compiler.cpp` |
| the compiler | `Machine`, `Simulation`, `InputFixUp`, `Compiler` | `compiler.cpp` |
| the stack machine | `Runtime`, `Workbench` | `stack.cpp`, `instruction.cpp`, `operator.cpp`, `workbench.cpp` |
| from graph to values | `EndToEnd` | `program.cpp`, `workbench.cpp` |
| the cipher | `AesTables`, `AesSbox`, `AesField`, `AesBlocks`, `Aes`, `AesKeys`, `AesVectors` | `aes.cpp` |
| modes of operation | `Counters`, `AesModes` | `aes.cpp` |
| encrypted streams | `AesStreams`, `AesReader`, `AesRoundTrip` | `aes_fstream.cpp` |
| files of models | `Bytes`, `Binio`, `TensorCodec`, `BubbleCodec`, `NodeTable`, `Walking`, `Modules`, `SmallFile` | `stream.h`, `tensor.cpp`, `bubble.cpp`, `menu.cpp`, `module.cpp` |
| joining models | `Fusion`, `Routes` | `module.cpp` |
| the reader-writer lock | `RwMutex` | `mutex.h` |
| small cores | `Shapes`, `Scans`, `Memory`, `Links` | `tensor_iterator.h`, `scan.h`, `memory.cpp`, `graph.h` |
| shared | `Collections` | |

Code that changes state step by step is modelled as classes, arrays and loops, and each such method is proved
against a function or predicate; what the source promises is proved about those.

A **graph** is a sequence of records, a node its index. Only acyclicity is assumed, never that nodes are numbered
in any order. `Graphs.Eval` is the meaning of a node: a parameter has the value the environment gives it, a constant
its own, an operator the result of its kernel. Kernels are arbitrary functions that may leave any scratch on the
stack. The compiler theorem is about names first: the emitted code, reversed, run on a stack of node names,
turns the simulated stack into the outputs (`Simulation.Invariant`), where an operator finds exactly its own inputs
on top. `Machine.RunMaps` carries that to values in one step.

Each node that **folding** makes is traced to the node it was made for (`Sharing.Traced`), which is what ties the
sharing of the code to that of the given graph. **Fusion** is judged by the joined graph (`Fusion.Wired`), in which
each routed input that got its wire copies the output led to it; `Routes.Wires` says which routes get theirs.

The **lock** is a set of steps, each one critical section, taken by any threads in any order; a run is any sequence
of enabled steps. Which thread `notify_one` wakes is part of the step, and threads may wake for no reason.

## Where the code does less than one would expect

These are results: each has an example or an exact condition below.

- A program none of whose outputs depends on a parameter, but that has inputs, cannot be launched: `erase(0, -0)`
  is meant to erase nothing from the top and is read as nothing from the bottom, so the inputs stay below the
  results (`Compiler.LeftoverExample`, `Compiler.Compile`, `EndToEnd.Infer`). For the same reason an operator that
  claims no results leaves everything on the stack (`Runtime.RunOperator`).
- If an input node is listed twice and a fix-up is made, the inputs after it are fetched from the wrong place
  (`InputFixUp.RepeatedInputExample`, `InputFixUp.FixUpExact`). Where the leftovers, which are the parameters on the
  simulated stack in the end, are the inputs as they stand, none is made, and the block is right
  (`Compiler.RepeatedInputKept`). `Compiler.FinishedExact` says when the code is right,
  `Compiler.Compile` and `EndToEnd.Infer` what it answers in any case.
- An output that folding rebuilds, listed twice or needed by a later output, is computed twice: the memo gets the
  new node as its key (`Sharing.ListedTwiceExample`, `Folding.RunConstNodes`, `Compiler.Compile`).
- `launch_online` with no arguments takes the whole frame, not an empty one, since `push_base(-0)` is the bottom
  (`Workbenches.Workbench.LaunchOnline`).
- Fields of the fields of a packed tensor are lost in a file (`TensorCodec.ShallowIsSame`).
- A tensor that a file gives no field at all keeps the further fields of what it is read into, which for a parameter is
  the one read before it (`TensorCodec.StaleFields`).
- `Link` on a node that already has inputs leaves the old inputs with an output that no longer knows them
  (`Links.LinkInconsistent`).
- The constructor of a fusion route stores input slot 0 whatever it is given (`Routes.MakeRouteIsRoute`).
- A route to something its own output depends on is silently not wired (`Routes.LoopIsLost`,
  `Routes.OneRouteWired`), and a route to something an earlier route has cloned is lost, so that the order of the
  routes of a chain matters (`Routes.LateRouteIsLost`, `Fusion.Fuser.AddRoute`).
- The last full block of a broken encrypted file is never handed out (`AesStreams.Readable`, `AesReader.Reader.Read`).
- A file whose last byte does not decrypt to a padding length, as under a wrong key, has no end, and some reads
  leave the block buffer (`AesReader.BadFile`, `AesReader.SafeExactly`, `AesReader.Reader.Read`).
- `memset` with an empty pattern does not end (`Memory.DoublingEnds`).

## Model

| member | source | states |
|---|---|---|
| EndToEnd.Infer | src/runtime/workbench.cpp:511-531 | Compile, then launch, on every acyclic graph, with every kernel. There is an answer if and only if the compiler accepts the graph, every data type asked for can be read, there is an argument for each input, and either there are no inputs or some output depends on a parameter; if no output does, the launch fails its output count. The answer is the denotation of the outputs, in order, each argument cast first: under the environment given, if no input is repeated, no needed one comes after a repetition, or the leftovers are the inputs; in all cases, under the one in which each input has the value of the input at its number. If the operator `_cast` converts to what its parameter `dtype` says, each argument is converted to what the parameter `#dtype` of its node says. The stack and both bases are as before, also on an error. |
| EndToEnd.LaunchIsRun | src/runtime/workbench.cpp:448-473 | A program without filters runs its instructions on the cast arguments. |
| EndToEnd.CompileProgram | src/runtime/program.cpp:54-142 | An error exactly if the compiler rejects the graph or the data type of an input or output cannot be read. How every launch of the program ends is told: with the denotation of the outputs in the environment the block sees, its arguments cast, or by failing the output count. |
| EndToEnd.LaunchByDepth | src/runtime/workbench.cpp:478-496 | How a launch ends depends only on the frame size the code leaves, not on the arguments. |
| EndToEnd.SeenAsGiven | src/compiler/compiler.cpp:332-353 | The values the block sees are those given if no input is repeated, no needed one comes after a repetition, or the leftovers are the inputs. |
| EndToEnd.UntypedValues | src/runtime/program.cpp:128-132 | On a graph whose parameters ask for no data type, the casts change no output. |
| EndToEnd.ReadDtypes | src/runtime/program.cpp:123-137 | The loops over the inputs and the outputs: the data type each node asks for, VOID if none, or an error if one cannot be read. |
| EndToEnd.TypedParamHasDtype | src/module/menu.cpp:52-65 | The type given to `bubble::param` is the type its argument is cast to: `to_int` reads back every 32-bit number that `from<int32_t>` wrote. |
| EndToEnd.CastImage | src/runtime/workbench.cpp:466-468 | Casting the arguments is giving the inputs in the cast environment, repeated inputs included. |
| EndToEnd.CastEnvIsTyped | src/runtime/program.cpp:128-132 | What the graph sees of an argument has the data type its node asks for, if the operator `_cast` gives the type its parameter says; an argument whose node asks for none is seen as it is. |
| EndToEnd.DtypeFits | include/core/tensor_builder.h:17-19 | The tensor a data type is kept in has the memory its type and sizes call for, and survives a file. |
| Compiler.Compile | src/compiler/compiler.cpp:98-364 | A block results if and only if every node an output depends on is acceptable and every needed parameter is an input. Run on the input values it leaves exactly the output values, in an environment that gives each input the value of the input at its number if a fix-up is made, if and only if there are no inputs or some output depends on a parameter. That is the given environment where the leftovers are delivered; for kernels that tell their arguments apart the block is right only there. The final frame size is given in all cases. The code computes every operator of the folded graph that the outputs reach once; these come from exactly the operators of the given graph that the outputs need and that depend on a parameter, and no two of them from one if and only if no output that folding rebuilds in its own right is listed again or lies below a later one. |
| Sharing.ListedTwiceExample | src/compiler/compiler.cpp:439-447 | The smallest such graph: an operator on an input and on something computed, listed twice as an output. |
| Compiler.Exact | src/compiler/compiler.cpp:334-353 | When a finished block is right, from the loop invariant and the leftovers: if they are delivered, whatever the kernels; and only if, for kernels that tell their arguments apart. |
| Compiler.FinishedExact | src/compiler/compiler.cpp:334-361 | On names: the finished code turns the inputs into the outputs if and only if the leftovers are the inputs as they stand, or all of them can be addressed and something is left or no input is given. |
| Compiler.SettledSees | src/compiler/compiler.cpp:334-361 | Whatever is repeated: the block answers for the environment in which each input has the value of the input at its number, and for the given one if no fix-up is made. |
| Compiler.RepeatedInputKept | src/compiler/compiler.cpp:334-343 | A repeated input before a needed one does no harm if the leftovers are the inputs: no fix-up is made. |
| Compiler.LeftoverExample | src/compiler/compiler.cpp:347-347 | The failing family, smallest member: with one unused input and a constant output, `erase(0, -0)` erases nothing and the input stays below the result. |
| Compiler.FinishedOnce | src/compiler/compiler.cpp:344-361 | Input fix-up and reversal add no computation: each reached operator still occurs once. |
| Compiler.ResidualIsNeeded | src/compiler/compiler.cpp:324-330 | What is left on the simulated stack is exactly the set of parameters the outputs depend on. |
| Compiler.SymbolicComputes | src/compiler/compiler.cpp:271-361 | Code that rebuilds the right node names computes the right values, for every environment. |
| Compiler.Compilation.Schedule | src/compiler/compiler.cpp:267-323 | The loop terminates on every acyclic graph (lexicographically: summed tree weights, then whether the top is a parameter, then how high the top ranks), keeps the invariant, and fails only on a node the compiler must reject. |
| Compiler.Compilation.ScheduleTop | src/compiler/compiler.cpp:272-322 | One turn of the loop, all cases: invariant kept and progress made, or the top is rejected. |
| Compiler.LiftsUnsolved | src/compiler/compiler.cpp:299-305 | A case-2 swap makes progress: something other than a parameter comes to the top. |
| Compiler.LiftsDependent | src/compiler/compiler.cpp:308-314 | A case-3 swap makes progress: the new top ranks higher. |
| Compiler.Compilation.SimulatorPush | src/compiler/compiler.cpp:174-187 | Pushing keeps the first-occurrence index and the unsolved counter exact. |
| Compiler.Compilation.SimulatorPop | src/compiler/compiler.cpp:192-205 | Popping keeps them exact. |
| Compiler.Compilation.SimulatorSwap | src/compiler/compiler.cpp:213-232 | Swapping keeps them exact, for the two swaps the loop makes. |
| Compiler.Compilation.FindLastUnsolved | src/compiler/compiler.cpp:239-248 | The last entry that is no parameter, or -1 if all are. |
| Compiler.Compilation.FindLastRef | src/compiler/compiler.cpp:256-265 | The last entry that depends on the node, or -1 if none does. |
| Compiler.Compilation.PushDataSegment | src/compiler/compiler.cpp:153-168 | A constant is stored once; its index leads back to it; a constant without value is an error. |
| Compiler.Compilation.OnlyParametersLeft | src/compiler/compiler.cpp:271-271 | When the counter is zero only parameters are left. |
| Compiler.FetchInputs | src/compiler/compiler.cpp:332-361 | The emitted fix-up, pushed back to front and reversed, is the intended instruction list. |
| Compiler.CheckInputs | src/compiler/compiler.cpp:325-330 | The input check accepts exactly the leftovers that are inputs. |
| Simulation.FirstIndexSwap | src/compiler/compiler.cpp:221-231 | Why the index survives a swap: the top is unique and the other entry is the last of its name. |
| Simulation.FirstIndexPop | src/compiler/compiler.cpp:197-200 | The index after a pop is the index of the shorter stack. |
| Simulation.DuplicateKeeps | src/compiler/compiler.cpp:274-283 | Case 1 keeps the invariant: code emitted so far, reversed, maps the simulated stack to the outputs; every reachable node is pending or done; nothing done is needed again. |
| Simulation.ConstKeeps | src/compiler/compiler.cpp:286-291 | Case 2-0 keeps it. |
| Simulation.SwapKeeps | src/compiler/compiler.cpp:298-314 | Cases 2 and 3 keep it. |
| Simulation.OperatorKeeps | src/compiler/compiler.cpp:317-322 | Case 4 keeps it: an operator emitted once no pending node depends on it is never needed again. |
| Simulation.ExpandLightens | src/compiler/compiler.cpp:321-322 | Replacing an operator by its inputs lowers the summed tree weights. |
| InputFixUp.NumberInputs | src/compiler/compiler.cpp:345-346 | The numbers given to the inputs: a repeated node keeps its first number and uses up none. |
| InputFixUp.SlotIsPosition | src/compiler/compiler.cpp:346-346 | The number of an input is its stack position if and only if nothing is repeated before it. |
| InputFixUp.FixUpExact | src/compiler/compiler.cpp:344-353 | Where a fix-up is made, it fetches exactly the leftovers if and only if each of them can be addressed and something is left or no input is given. |
| InputFixUp.FixUpValues | src/compiler/compiler.cpp:344-353 | On values, the fix-up fetches those of the needed inputs, whatever lies in the other places. |
| InputFixUp.RepeatedInputExample | src/compiler/compiler.cpp:346-349 | A repeated input in front of a needed one makes the fix-up fetch the wrong entry. |
| Machine.RunMaps | src/compiler/compiler.cpp:267-361 | A run on names is a run on the values the names stand for. |
| Machine.RunInjective | src/compiler/compiler.cpp:267-361 | Code that only pushes, swaps, loads constants and computes forgets nothing: on a machine that tells arguments apart, frames of one size with the same result are the same. |
| Machine.RunDepth | src/runtime/instruction.cpp:34-76 | How large the frame is after a run does not depend on its entries. |
| Machine.PlainAdds | src/runtime/instruction/stack_instruction.cpp:11-50 | Code with bottom-up indices runs alike on a larger frame. |
| Schedule.ListReferenceNodes | src/module/module.cpp:197-234 | Terminates on every acyclic graph; lists every reachable node once, deepest first, with depth one plus the longest path from a root, although nodes are walked again when a longer path is found. |
| Schedule.InputsComeFirst | src/module/module.cpp:228-231 | In that order every input of a node comes before the node. |
| Schedule.BuildNodeRefs | src/compiler/compiler.cpp:46-62 | The reference table has exactly the reachable nodes, each with exactly its strict descendants. |
| Folding.RunConstNodes | src/compiler/compiler.cpp:439-447 | Every folded node has the value of its original under every environment, is folded throughout, is a constant if and only if no parameter is reachable, and is shared exactly as the aliased memo key allows. A rebuilt operator is the operator it was; a computed constant has the name of what it replaces. |
| Folding.Folder.RunConstNode | src/compiler/compiler.cpp:372-436 | The same for one node, with both memo maps sound throughout; the answer is true if and only if no parameter is reachable. What lies below the node is remembered afterwards, and so is the node, unless the key has been overwritten. |
| Folding.Folder.FoldInputs | src/compiler/compiler.cpp:402-415 | The loop over the inputs: values, nodes, whether all are constant and whether one changed. |
| Folding.Folder.Rebuild | src/compiler/compiler.cpp:420-424 | A node made anew for one with a changed input stands for it; it is remembered under that node, or under itself where both were one variable. |
| Folding.Folder.Compute | src/compiler/compiler.cpp:428-431 | A computed constant stands for its operator, with the same exception. |
| Sharing.AgainIsTwice | src/compiler/compiler.cpp:439-447 | An output rebuilt in its own right and listed again, or below a later one, is there twice among the folded nodes. |
| Sharing.TwiceIsAgain | src/compiler/compiler.cpp:439-447 | And only then: two folded operators made for one node show such an output. |
| Sharing.ReachesOrigins | src/compiler/compiler.cpp:402-424 | What a folded node depends on was made for what its original depends on. |
| Sharing.ReachedCopy | src/compiler/compiler.cpp:402-424 | What an original depends on, down to the parameters, has a copy below the folded node. |
| Standing.OperatorFolded | src/compiler/compiler.cpp:417-426 | An operator that survives folding reaches a parameter, hence has an argument. |
| Standing.ComputedStands | src/compiler/compiler.cpp:428-431 | An operator on constants and the constant computed from it have the same value. |
| Tensors.Kinds | src/module/bubble.cpp:16-18 | What the operator of a node says of it: a parameter, a constant, a variable, or else an operator to be computed. |
| Runtime.Stack.RelativeIsFrameIndex | src/runtime/stack.cpp:10-10 | A relative index addresses the frame above the base: bottom-up from zero on, top-down below; `-0` is the bottom. |
| Runtime.Stack.Index | src/runtime/stack.cpp:64-64 | An entry, or an exception exactly outside the whole stack. |
| Runtime.Stack.Erase | src/runtime/stack.cpp:87-92 | Any range of the container is cut out of it, also one below the base; one that lies in the frame is cut out of the frame and leaves everything below. |
| Runtime.Stack.PushBase | src/runtime/stack.cpp:101-103 | The base moves to the entry named, up or down; the old one is kept. From an entry of the frame on, the frame starts there; from below the bottom of the container the base wraps around. |
| Runtime.Stack.PopBase | src/runtime/stack.cpp:105-112 | The base before comes back. |
| Runtime.RunOperator | src/runtime/operator.cpp:262-278 | Whatever an operator leaves on its frame and however many results it claims: too few arguments or entries are errors; otherwise its last results replace its arguments, or all it has left does if it claims none, since `erase(0, -0)` erases nothing. Everything below is untouched. |
| Runtime.RunOperatorInstruction | src/runtime/instruction.cpp:34-76 | The same for an operator instruction, which besides fails exactly if the number of results is not the one expected. |
| Runtime.StepInFrame | src/runtime/instruction/stack_instruction.cpp:11-50 | What an instruction that stays in its frame does to the whole stack is what the small-step semantics says of the frame, and nothing below. |
| Runtime.RunInstruction | src/runtime/instruction/stack_instruction.cpp:11-50 | Each instruction, on the whole stack, also below the base: its effect, or an error exactly if it addresses something outside the stack, takes more than the frame has, or a constant there is not. |
| Runtime.RunInFrame | src/runtime/instruction.cpp:34-76 | An instruction that stays in its frame does to it what the small-step semantics says, and nothing to the rest. |
| Workbenches.Workbench.LaunchOnline | src/runtime/workbench.cpp:411-497 | The top `nargs` entries become the outputs, filters and casts (recursively launched) included; below them, the bases and the program environment nothing changes, also on errors: the rest of the frame stays in place. With `nargs` zero the whole frame is replaced, since `push_base(-0)` does not move the base. |
| Workbenches.Workbench.LaunchOffline | src/runtime/workbench.cpp:511-531 | The answer is that of the program as a function, and stack, base, base stack and environment are exactly as found. |
| Workbenches.LaunchSees | src/runtime/workbench.cpp:448-473 | Whatever the program: its instructions run on arguments each of which is filtered first and then cast. A filter is launched on the image of its argument, which has the same memory and four dimensions, one image to the batch and at least one channel; the cast gives the type that the program says, whatever the filter has made of it. |
| Workbenches.LaunchSucceeds | src/runtime/workbench.cpp:448-496 | Conversely, if every filter yields one image and the instructions leave as many results as announced, the launch answers with them. |
| Workbenches.ThroughFilter | src/runtime/workbench.cpp:395-409 | A program that does nothing, behind a filter that does nothing, makes 1 x H x W x 1 of an argument of two dimensions, 1 x H x W x C of one of three, nothing of one of four, and fails on any other. |
| Workbenches.CastConverts | src/runtime/workbench.cpp:341-354 | The cast made is the one asked for: the operator is `_cast`, and its parameter reads back as the type wanted. |
| Workbenches.Workbench.PrepareArguments | src/runtime/workbench.cpp:448-469 | The arguments are filtered and cast one by one on top of the frame, each addressed from the top. |
| Workbenches.Workbench.ApplyFilter | src/runtime/workbench.cpp:459-465 | A filter replaces the image on top by its result. |
| Workbenches.Workbench.Execute | src/runtime/workbench.cpp:478-486 | The instruction loop runs the code as the semantics does. |
| AesTables.InvSboxUndoesSbox | src/encryption/aes.cpp:80-115 | The inverse table undoes the table on all 256 bytes. |
| AesTables.SboxUndoesInvSbox | src/encryption/aes.cpp:80-115 | And the other way round. |
| AesSbox.SboxIsStandard | src/encryption/aes.cpp:80-97 | Every entry of the table is the affine image of the inverse of its place in GF(2^8), as section 5.1.1 of FIPS 197 defines it. |
| AesField.MultiplyIsProduct | src/encryption/aes.cpp:362-376 | The macro multiplies in GF(2^8) by the four coefficients it is used with (section 4.2 of FIPS 197). |
| AesField.ShortcutRows | src/encryption/aes.cpp:350-355 | The `Tmp`/`Tm` shortcut computes the four rows of the matrix of section 5.1.3 of FIPS 197. |
| AesField.MultiplyRows | src/encryption/aes.cpp:395-398 | The four sums compute the rows of the inverse matrix of section 5.3.3. |
| AesField.UnmixedUndoesMixed | src/encryption/aes.cpp:342-400 | The inverse matrix undoes the matrix, for all bytes, by linearity. |
| AesBlocks.DecryptUndoesEncrypt | src/encryption/aes.cpp:447-496 | Decryption undoes encryption for every block and every array of round keys. |
| AesBlocks.RoundsMeet | src/encryption/aes.cpp:457-489 | Going backwards, the inverse rounds meet the states of the forward rounds. |
| AesBlocks.RoundKeyAt | src/encryption/aes.cpp:279-289 | Byte `i` of round key `r` is byte `16 * r + i` of the expanded key. |
| AesBlocks.ShiftMovesRows | src/encryption/aes.cpp:308-334 | Row `r` moves `r` columns to the left. |
| AesBlocks.InvShiftUndoesShift | src/encryption/aes.cpp:308-443 | The inverse row shift undoes the row shift. |
| AesBlocks.UnmixUndoesMix | src/encryption/aes.cpp:342-400 | The inverse column mixing undoes the column mixing, on whole blocks. |
| Aes.AddRoundKey | src/encryption/aes.cpp:279-289 | The state, updated in place, is the old one combined with round key `round`. |
| Aes.SubBytes | src/encryption/aes.cpp:293-303 | Every byte of the state is substituted once. |
| Aes.ShiftRows | src/encryption/aes.cpp:308-334 | The in-place rotations give the shifted block. |
| Aes.InvShiftRows | src/encryption/aes.cpp:417-443 | The in-place rotations give the block shifted back. |
| Aes.MixColumns | src/encryption/aes.cpp:342-356 | The in-place loop gives the mixed block. |
| Aes.InvMixColumns | src/encryption/aes.cpp:384-400 | The in-place loop gives the unmixed block. |
| Aes.Cipher | src/encryption/aes.cpp:447-470 | The rounds, in place, are the cipher of section 5.1 of FIPS 197. |
| Aes.InvCipher | src/encryption/aes.cpp:473-496 | The inverse rounds, in place, are that of section 5.3. |
| AesKeys.KeyExpansion | src/encryption/aes.cpp:152-223 | The loop fills the buffer with the key schedule of section 5.2 of FIPS 197. |
| AesKeys.RconIsPower | src/encryption/aes.cpp:120-121 | The table of round constants holds the powers of x. |
| AesKeys.ScheduleStarts | src/encryption/aes.cpp:157-164 | The schedule begins with the key. |
| AesKeys.WordRecurrence | src/encryption/aes.cpp:167-222 | The recurrence of section 5.2 of FIPS 197, spelled out for the words whose number is a multiple of eight, those four places further, and the rest. |
| AesKeys.RoundKeyIsWords | src/encryption/aes.cpp:279-289 | Round key `r` is words `4 * r` to `4 * r + 3` of the schedule. |
| AesVectors.KnownAnswer | src/encryption/aes.cpp:447-496 | The example of appendix C.3 of FIPS 197: the cipher under the key 00, 01, ... 1f, in both directions. |
| AesKeys.InitContext | src/encryption/aes.cpp:225-239 | A key of any length is cut to 32 bytes or filled up from the default one, then expanded. |
| AesModes.EcbEncrypt | src/encryption/aes.cpp:505-509 | Sixteen bytes of the buffer are encrypted in place, the others kept. |
| AesModes.EcbDecrypt | src/encryption/aes.cpp:511-515 | Sixteen bytes are decrypted in place, the others kept. |
| AesModes.Context.CbcEncryptBuffer | src/encryption/aes.cpp:536-550 | The buffer is chained as section 6.2 of NIST SP 800-38A says; the vector left is the last block of ciphertext. |
| AesModes.Context.CbcDecryptBuffer | src/encryption/aes.cpp:552-565 | The inverse chaining, in place; the same vector is left. |
| AesModes.CbcRoundTrip | src/encryption/aes.cpp:536-565 | CBC decryption undoes CBC encryption, for any number of blocks. |
| AesModes.CbcBlock | src/encryption/aes.cpp:536-550 | Every block of ciphertext is the encryption of its block of data combined with the block of ciphertext before it, the first one with the vector. |
| AesModes.Context.Increment | src/encryption/aes.cpp:591-602 | The byte-carry loop computes the next counter block. |
| AesModes.Context.CtrXcryptBuffer | src/encryption/aes.cpp:574-608 | Byte `i` is combined with byte `i % 16` of the encrypted counter block `i / 16`, for any length; the counter left is the next unused one. |
| AesModes.CtrTwice | src/encryption/aes.cpp:573-608 | Applied twice from the same vector, CTR is the identity. |
| Counters.CounterValue | src/encryption/aes.cpp:591-602 | Counter block `k` is the initial number plus `k`, modulo 256 to the power of its length (appendix B.1 of NIST SP 800-38A). |
| Counters.CounterSteps | src/encryption/aes.cpp:591-602 | The sequence starts at the initial vector, and the carry steps along it. |
| Counters.FirstWeighsMost | src/encryption/aes.cpp:591-602 | A counter block is big-endian: its first byte weighs most. |
| AesStreams.Writer.Write | src/encryption/aes_fstream.cpp:136-158 | Whatever the chunk, it is appended to what has been written, and the block buffer is flushed only when more comes. The loop ends though a round with a full buffer takes no byte. |
| AesStreams.Writer.Close | src/encryption/aes_fstream.cpp:174-197 | The file is then the data with 1 to 16 padding bytes (section 6.3 of RFC 5652), encrypted block by block; closing again changes nothing. |
| AesStreams.BlocksRoundTrip | src/encryption/aes_fstream.cpp:136-197 | Decrypting the encrypted blocks gives the data back. |
| AesStreams.WrittenIsReadable | src/encryption/aes_fstream.cpp:136-197 | In a written file exactly the data is readable, without its padding. |
| AesStreams.Lost | src/encryption/aes_fstream.cpp:67-86 | What of a file is never read: of one that ends inside a block, all from its last full block on; of any other, as many bytes as its last one says. |
| AesStreams.FileBlock | src/encryption/aes_fstream.cpp:136-197 | Every block of the file by itself: a block of the data encrypted, the last one filled up with the number of bytes missing. |
| AesReader.Reader.Read | src/encryption/aes_fstream.cpp:16-107 | For any file and any chunk size: the next bytes of the readable text if there are enough of them; otherwise the rest, then the end error; and the format error exactly when the file ends inside a block and more is asked for than lies before its last full block. If the last byte is no padding length, the padding is handed out, too, there is no end, and a read leaves the block buffer exactly as `Overruns` says: it goes beyond the file, or comes to the last block with too many bytes before it. |
| AesReader.Reader.Refill | src/encryption/aes_fstream.cpp:43-86 | The block ahead takes over, one more is read ahead, and the padding is cut off the last one; the length left may be negative. |
| AesReader.Reader.FillSecond | src/encryption/aes_fstream.cpp:67-82 | One block is read and decrypted, or the end or a partial block is found. |
| AesReader.Reader.Take | src/encryption/aes_fstream.cpp:84-99 | With lengths compared as unsigned sizes, what is needed of the block is copied; the copy leaves the block exactly if the length is negative and more than sixteen bytes are wanted or the sum is not negative. |
| AesReader.SafeExactly | src/encryption/aes_fstream.cpp:84-99 | No read leaves the block buffer if and only if the file is broken, empty or ends in a byte of at most sixteen. |
| AesReader.OverrunBounds | src/encryption/aes_fstream.cpp:84-99 | A read that stops before the last block never does; in a file that ends otherwise every read beyond its end does. |
| AesReader.BadFile | src/encryption/aes_fstream.cpp:84-99 | Under any key, a file of one block that ends in 17, of which 17 bytes are asked for. |
| AesRoundTrip.WriteThenRead | src/encryption/aes_fstream.cpp:16-197 | Any write chunks, then `close`, then any read chunks of no more in all: the reads return consecutive bytes of what was written, each as long as asked. |
| RwMutexes.AlwaysSafe | include/utils/mutex.h:27-63 | After every run of any number of threads: never two writers, never a reader with a writer, no wakeup lost, no counter below zero. |
| RwMutexes.StepKeeps | include/utils/mutex.h:27-63 | Every step, spurious wakeups included, keeps the whole invariant: threads in one place, counters exact, exclusion, and a waker for every sleeper. |
| RwMutexes.WritersFirst | include/utils/mutex.h:27-32 | In any reachable state a reader enters only if no writer is inside or waiting. |
| RwMutexes.WhoEnters | include/utils/mutex.h:27-40 | Who gets in: a reader if and only if no writer is inside or waiting, a writer if and only if nobody is inside; no other step lets anybody in. |
| RwMutexes.WhoIsWoken | include/utils/mutex.h:42-63 | Whom a release wakes: the last reader one writer if one sleeps, a writer another one, or all readers if no writer waits; other readers wake nobody. |
| RwMutexes.SomeoneEnters | include/utils/mutex.h:44-63 | With nobody inside and somebody waiting, a woken thread that looks again gets in. |
| RwMutexes.EveryRunEnds | include/utils/mutex.h:27-63 | No deadlock and no livelock: from every state of the invariant, under every schedule of releases and second looks and whichever threads are notified, the number of steps is bounded, and nothing more can be done exactly when nobody is inside or waiting. |
| RwMutexes.StuckIsDeserted | include/utils/mutex.h:27-63 | In a state of the invariant no release and no second look is possible exactly if nobody is inside or waiting. |
| RwMutexes.FinishingLightens | include/utils/mutex.h:27-63 | Each such step leaves less to do, or as much and one woken thread less. |
| RwMutexes.Drains | include/utils/mutex.h:27-63 | In particular some run empties the lock without a failed look, in as many steps as there is work left. |
| RwMutexes.RwMutex.BeginRead | include/utils/mutex.h:27-32 | The critical section of `lock_read` does one step of the protocol; it enters or sleeps. |
| RwMutexes.RwMutex.ResumeRead | include/utils/mutex.h:30-31 | A woken reader looks again. |
| RwMutexes.RwMutex.BeginWrite | include/utils/mutex.h:34-40 | The writer is counted, then enters or sleeps. |
| RwMutexes.RwMutex.ResumeWrite | include/utils/mutex.h:38-39 | A woken writer looks again. |
| RwMutexes.RwMutex.EndRead | include/utils/mutex.h:42-49 | The last reader wakes one writer, if one waits. |
| RwMutexes.RwMutex.EndWrite | include/utils/mutex.h:51-63 | The last writer wakes all readers, another one a writer. |
| Shapes.HypeShape.constructor | include/core/tensor_iterator.h:124-137 | Weight `i` is the number of coordinates of the dimensions from `i` on. |
| Shapes.HasOrigin | include/core/tensor_iterator.h:124-137 | The shapes considered are those that have an origin. |
| Shapes.HypeShape.ToIndex | include/core/tensor_iterator.h:156-170 | The weighted sum is the row-major index; a shorter coordinate stands for the last dimensions. |
| Shapes.HypeShape.ToCoordinate | include/core/tensor_iterator.h:273-289 | Division by the weights gives a coordinate with that index, which lies in the shape if and only if the index is below the count. |
| Shapes.IndexBounds | include/core/tensor_iterator.h:156-170 | The index of a coordinate lies below the count. |
| Shapes.IndexInjective | include/core/tensor_iterator.h:156-170 | Different coordinates have different indices: with `ToCoordinate`, a bijection. |
| Shapes.ShapeIterator.Increase | include/core/tensor_iterator.h:70-81 | The carry loop, in place, is the recursive step. |
| Shapes.ShapeIterator.Decrease | include/core/tensor_iterator.h:83-94 | The borrow loop, in place, is the recursive step. |
| Shapes.MovesAround | include/core/tensor_iterator.h:70-94 | The moves change the index by plus and minus one, modulo the count. |
| Shapes.MovesUndo | include/core/tensor_iterator.h:70-94 | They undo each other. |
| Shapes.Enumerates | include/core/tensor_iterator.h:62-64 | From the origin, after `k` moves the iterator is at index `k`. |
| Scans.Interpreter.Deploy | include/core/scan.h:345-364 | It terminates for all repeat counts, zero and empty groups included, leaves the steps still to come unchanged, and stops with a step on top or nothing. |
| Scans.Interpreter.Next | include/core/scan.h:367-374 | The head of the steps still to come; at the end the finish value, for ever. |
| Scans.Interpreter.Rewind | include/core/scan.h:337-342 | What is to come is the flattened iteration. |
| Scans.Walk | include/core/scan.h:337-374 | Repeated `next` gives the flattened iteration. |
| Scans.ExpandKeeps | include/core/scan.h:352-361 | Expanding a group on the explicit stack leaves the same steps. |
| Scans.ExpandWorks | include/core/scan.h:352-361 | It uses up work, whatever the counts. |
| Scans.RepeatAt | include/core/scan.h:345-364 | The rounds of an iteration follow each other: entry `r` of round `q` is entry `r` of what is repeated. |
| Scans.NestedExample | include/core/scan.h:345-364 | A group in a group, step by step. |
| Scans.Update | include/core/scan.h:145-169 | The flattened length; the pruned tree has the same steps and no empty part, and there is none exactly if the length is zero. |
| Memory.Memset | src/core/memory.cpp:124-144 | Byte `i` of the destination is byte `i` modulo the pattern length, for every size and every non-empty pattern; nothing beyond is touched. |
| Memory.PatternRepeats | src/core/memory.cpp:137-140 | Why doubling is right: a whole number of patterns further on the pattern is the same. |
| Memory.DoublingEnds | src/core/memory.cpp:134-139 | The loop comes to an end if and only if the pattern is not empty, whatever there is to fill. |
| Links.Link | include/module/graph.h:39-49 | The node has the new inputs, and each of them the node as an output once for each time it is listed. |
| Links.LinkConsistent | include/module/graph.h:39-49 | On a node without inputs, the two ends of every edge agree afterwards, with multiplicity, and no edge leaves the nodes considered. |
| Links.LinkInconsistent | include/module/graph.h:42-42 | On a node that had inputs they do not. |
| Links.ReplaceOutput | include/module/graph.h:51-66 | Every use of the old node becomes a use of the new one, though each round replaces only the first; the outputs move over. |
| Links.RerouteKeeps | include/module/graph.h:51-66 | The two ends of every edge still agree. |
| Links.AllReplaced | include/module/graph.h:58-62 | As many first replacements as there are occurrences replace them all. |
| Binio.U32RoundTrip | include/module/io/stream.h:39-66 | Four bytes give a 32-bit number back. |
| Binio.LittleEndian | include/module/io/stream.h:39-66 | The low byte of a number comes first. |
| Binio.ManyBack | include/module/io/stream.h:39-66 | A list whose elements read back reads back, whatever follows. |
| TensorCodec.ParseTensorBack | src/core/tensor.cpp:367-389 | Reading a tensor that was written gives its type, sizes, memory and fields, whatever the tensor it is read into held before, and leaves the bytes behind it. |
| TensorCodec.ShallowIsSame | src/core/tensor.cpp:367-375 | It is the same tensor if and only if its fields have no fields: those are not written. |
| TensorCodec.StaleFields | src/core/tensor.cpp:242-255 | What the tensor read into held before shows through if and only if it had further fields and the file gives no field at all. |
| TensorCodec.CountAppend | include/core/tensor.h:68-74 | How many entries a tensor has: the dimensions multiply, however they are grouped. |
| TensorCodec.Widths | include/core/dtype.h:49-88 | How wide an entry is: as many bits as the name of its type says; numbers beyond the last type have no width. |
| TensorCodec.ReadFloatMatrix | src/core/tensor.cpp:337-365 | Reading a field that holds a matrix of 32-bit floats takes the type, two sizes and four bytes an entry off the stream, and no more. |
| TensorCodec.Serialize | src/core/tensor.cpp:367-375 | The bytes written are the layout, and their number is answered. |
| TensorCodec.Externalize | src/core/tensor.cpp:377-389 | Exactly what parsing the layout gives, read into a tensor that held something before; reading stops right after it, and fails where bytes run out. |
| TensorCodec.SerializeField | src/core/tensor.cpp:314-335 | One field: type, number of sizes, sizes, memory. |
| TensorCodec.ExternalizeField | src/core/tensor.cpp:337-365 | One field; it fails where bytes run out. |
| BubbleCodec.ParseBubbleBack | src/module/bubble.cpp:140-213 | A bubble reads back with its operator, name and parameters, in whatever order the map gave them, and the bytes behind it are left. |
| BubbleCodec.MapOfEntries | src/module/bubble.cpp:186-189 | Inserting the entries of a map, in any order, makes up the map. |
| BubbleCodec.ToStringBack | src/core/tensor_builder.cpp:22-39 | A string kept as a tensor gives the string back, and its tensor survives the file. |
| BubbleCodec.StringParamBytes | src/module/bubble.cpp:140-152 | The bytes of a parameter that holds a string: the length of its name, its name, one field of one-byte characters, their number, the characters. |
| BubbleCodec.SerializeBubble | src/module/bubble.cpp:171-178 | The bytes written are the layout of the parameters in some order, and their number is answered. |
| BubbleCodec.ExternalizeBubble | src/module/bubble.cpp:180-213 | Exactly what parsing the layout gives, all values read into one tensor, one after the other; without an operator or a name, or where bytes run out, it fails. |
| BubbleCodec.ReadParam | src/module/bubble.cpp:154-169 | Name and value of one parameter, read into the tensor of the one before; it fails where bytes run out. |
| NodeTable.ParseTableBack | src/module/menu.cpp:88-153 | The node table that is read is the one that was written. |
| NodeTable.SerializeNodes | src/module/menu.cpp:88-120 | The table of the listed nodes, inputs as indices, is written; it fails exactly if an input of a listed node is not listed. |
| NodeTable.ExternalizeNodes | src/module/menu.cpp:122-153 | Exactly what parsing the layout gives; it fails where bytes run out or an index is none. |
| Walking.GraphWalker | src/module/module.cpp:89-130 | On any graph, with or without cycles: the parameters met below the outputs, or an error exactly if a node met has nothing to be computed from. |
| Modules.NodesToSave | src/module/module.cpp:238-252 | What is saved: every node the outputs depend on, deepest first, and then every input that is not among them, each once. |
| Modules.SavedIsLinkable | src/module/module.cpp:247-252 | Every saved node finds its inputs in the file if and only if each input of a module input is needed by the outputs or is a module input itself. |
| Modules.Save | src/module/module.cpp:236-271 | Header, input indices, output indices, node table; it fails exactly if some input of a saved node is not saved. |
| Modules.LoadGraph | src/module/module.cpp:38-45 | Loading succeeds exactly if the outputs can be computed from the given inputs. |
| Modules.Load | src/module/module.cpp:292-323 | Exactly what parsing gives, if that can be loaded; it fails where bytes run out. |
| Modules.SaveLoad | src/module/module.cpp:236-323 | What was saved loads again: inputs and outputs in the same order, on the renumbered graph, with the same output values under every environment, if the tensors of the saved nodes survive the file. |
| Modules.SaveThenLoad | src/module/module.cpp:236-323 | Through the streams: the renumbered module comes back, or saving has failed, which it does only if a saved node has an input that is not saved. |
| Modules.SameValue | src/module/module.cpp:236-323 | Node for node, the loaded graph computes what the saved one computed. |
| Modules.SavedIsLoadable | src/module/module.cpp:318-321 | The file passes the checks of loading. |
| SmallFile.SmallModule | src/module/module.cpp:255-270 | The file of an operator on a parameter, byte for byte: header, inputs, outputs, and the two nodes. |
| SmallFile.HeaderIs | src/module/header.cpp:10-16 | The header: four zeros, the code with its low byte first, 120 zeros. |
| SmallFile.RecordLayout | src/module/menu.cpp:88-120 | The bytes of any node without parameters of its own: operator and name under their keys, then the inputs. |
| SmallFile.SmallFits | src/module/menu.cpp:88-120 | Those are records that saving may write. |
| Routes.Fuse | src/module/module.cpp:402-472 | A result is there if and only if the routes are valid, the kept outputs can be computed in the joined graph from the kept inputs, and each of these has been cloned; its inputs and outputs are the clones of the kept ones, in order, on the clones of the joined graph that `Wires` gives in closed form. |
| Routes.AddRoutes | src/module/module.cpp:412-444 | After the loop, the wires are those of the closed form, and exactly the inputs of the routes and what their outputs depend on have clones; it stops exactly at an invalid route. |
| Routes.OneRouteWired | src/module/module.cpp:412-444 | A single route is wired if and only if its output does not depend on its input; otherwise nothing is. |
| Routes.LoopIsLost | src/module/module.cpp:430-443 | A module output led back to the input it depends on: no wire. |
| Routes.LateRouteIsLost | src/module/module.cpp:430-443 | In a chain of three modules, the route into the middle one is lost if it is listed after the route out of it, and the fusion fails; in the other order both are wired. |
| Routes.WiresAreRoutes | src/module/module.cpp:412-444 | Every wire is one of the routes. |
| Routes.FusedTwo | src/module/module.cpp:402-472 | Fusion is composition: for two modules without common nodes and one route, the fused module has the inputs of the first and then those of the second without the routed slot; and the other outputs of the first with their values, and the outputs of the second with the values they have when the routed input is given the value of the routed output. |
| Routes.FusedComposes | src/module/module.cpp:402-472 | Fusion is composition, for any number of modules and routes: the fused outputs have the values of the kept outputs on the given graph when every wired input is given the value of the output led to it. |
| Routes.FedIsUnique | src/module/module.cpp:412-444 | There is exactly one way to give every wired input the value of the output led to it, although these outputs may depend on wired inputs: the values in the joined graph. |
| Routes.InputsInOrder | src/module/module.cpp:446-454 | The kept inputs are in order: of two of them, the one from the earlier module, or from the earlier slot of one module, comes first. |
| Routes.OutputsInOrder | src/module/module.cpp:446-458 | So are the kept outputs. |
| Routes.KeptFrom | src/module/module.cpp:446-458 | Nothing is kept but what stands in some slot and is not routed, each slot once. |
| Fusion.FusedValues | src/module/module.cpp:460-469 | The fused outputs have the values of the kept outputs in the joined graph, in which each routed input copies its output. |
| Fusion.Composes | src/module/module.cpp:402-472 | For one route, the routed output keeps the value it has by itself, so that only the routed input is set. |
| Fusion.JoinedComposes | src/module/module.cpp:412-444 | Whatever the wires: a node of the joined graph has the value it has on the given graph when each wired input is given the value of the output led to it. |
| Fusion.WiredIs | src/module/module.cpp:435-436 | A wired input is a node of its own name with the operator `_copy` on the output led to it; every other node is as it was. |
| Fusion.WiredDag | src/module/module.cpp:411-444 | Whatever the routes, the wires made close no cycle. |
| Fusion.WireClosesCycle | src/module/module.cpp:430-443 | One more wire keeps the joined graph free of cycles if and only if its output does not depend on its input there. |
| Fusion.OnlyKeptAreNeeded | src/module/module.cpp:462-469 | A result needs no routed input that was not wired. |
| Fusion.JoinableLoads | src/module/module.cpp:467-469 | The clone passes the checks of loading if and only if the joined graph does. |
| Fusion.Fuser.CloneGraph | src/module/module.cpp:374-393 | Clones of the nodes and of all they depend on, each made once and linked to clones; earlier clones stay. |
| Fusion.Fuser.CloneNode | src/module/module.cpp:364-372 | One clone for each node. |
| Fusion.Fuser.AddRoute | src/module/module.cpp:430-443 | The copy of the output becomes the clone of the input if and only if the input has no clone yet and its output does not depend on it in what has been joined so far; either way exactly the input and what the output depends on get clones. |
| Fusion.CloneValue | src/module/module.cpp:374-393 | A clone computes what its original computes in the joined graph. |
| Routes.MakeRouteIsRoute | include/module/module.h:75-77 | The constructor builds the route asked for exactly if its input slot is zero: it stores zero. |
| Routes.SlotsMeant | src/module/module.cpp:412-433 | Which routes are valid: each slot is that of a list, or negative where the list has one entry, and then it means that entry. |

## Left out

- Operator kernels, devices, memory controllers and converters: a kernel is any total function from arguments to one result, and a copy between devices is a copy. Kernels that fail are not modelled; operators with any number of results are in `Runtime.RunOperator`, not in compiled code.
- `Translator` and `Zipper` passes and compiler options: the compiler starts from the graph it is handed after them.
- Instruction creators for `pack` and field access: every operator node becomes one operator instruction.
- Memory ownership: weak and shared pointers, deletion, expired nodes. `update_iteration` uses the repeat count of a node after deleting it; the model takes the count it had.
- 32-bit overflow of sizes, indices and counters, except where a precondition bounds what is written to a file.
- Hooks, profiling, logging, CPU detection, the C API and the tools.
- Reads past the end of a plain file: the source does not look at how many bytes it got and goes on with whatever its uninitialised buffers hold; the model's readers fail instead (`Binio.Parsed`). Node indices outside a table, which the source does not check, also make the model's reader fail.
- TensorCodec.Externalize: fails on a file that ends inside a tensor, where the source goes on with unspecified values.
- TensorCodec.ExternalizeField: the same.
- BubbleCodec.ExternalizeBubble: the same.
- BubbleCodec.ReadParam: the same.
- NodeTable.ExternalizeNodes: the same, and for an index outside the table.
- Modules.Load: the same.
- The `#output_count` parameter of old files, and the copy of `#shape` that a bubble keeps beside its parameters.
- Files: a stream is the sequence of its bytes, with an end-of-file flag raised by a read that finds too few. Write errors are not modelled.
- `AES_init_ctx_iv` and `AES_ctx_set_iv`: a context is made from round keys and a vector. The former expands the caller's key, not the one it has filled up.
- EcbEncrypt: the cast of a buffer to a state is modelled as loading sixteen bytes into a state and storing them back.
- AesReader.Reader.Read: after a format error or a copy beyond the block buffer nothing is said about the reader. Sizes are below half the range of `size_t` where the last byte is no padding length.
- AesModes.Context.CbcEncryptBuffer: the length is a number of whole blocks, as the header of the library demands.
- Workbenches.Workbench.LaunchOnline: the program's code has to stay inside its frame (`Workbenches.Fits`), which compiled code does; of code that does not, only single instructions are described (`Runtime.RunInstruction`). Filters take one image and yield one, as binding a filter checks.
- Workbenches.Workbench.LaunchOffline: the same.
- Workbenches.Workbench.Execute: the same.
- Runtime.RunInstruction: a range to erase has to be a range of the container, as the container demands; a base above the top of the stack, which erasing below the base can leave, is not followed further.
- EndToEnd.Infer: arguments that give one node, listed twice, two different values are promised an answer but not which. `tensor::to_int` is modelled on INT32 tensors; on others, which it converts, it is any function that may throw. The data types of outputs are read and not used, as in the source. Filtering of values while the data segment is linked, an option that is off by default, is left out.
- Routes.Fuse: modules share one universe of nodes. A module without inputs or outputs, addressed by a negative slot, is taken as an invalid route; the source does not check for it.
- Routes.FusedComposes: the wired inputs are parameters; what is routed to another kind of node replaces that node.
- Routes.FusedTwo: the same.
- Modules.SaveLoad: one graph per module. The order in which the source's unordered sets list equal-ranking nodes is left open, as is that of a bubble's parameters.
- RwMutexes.EveryRunEnds: a fair scheduler is not modelled. While new threads keep coming, a writer may wait for ever if others keep overtaking it, and readers if writers keep coming.
- Links.Link: expired nodes are not modelled, and the outputs of a node are its edges, not the order in which other code reads them.
- `StackMemoryList`, `edit_distance`, sinks, floating-point emulation, random numbers, 2D graphics: not part of this model.
