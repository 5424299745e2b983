# A verified model of wit-bindgen's ABI code generator and its stateful helpers

wit-bindgen turns WIT types and functions into glue code.  Its core, `Generator` in
`crates/core/src/abi.rs`, compiles a type or a function signature into instructions for a
stack machine with nested blocks; the language backends print those instructions as source
text.  This project models that generator, gives the instructions a meaning, and proves what
the emitted code does, for all types of any depth, all values and both pointer widths.
Around it stand models of the type analysis in `crates/core/src/types.rs` and of the small
stateful parts of the backends.

## How the model is built

**The standard.**  `CoreTypes` has the seven core types, their join and the bitcasts.
`Layout` has types, alignment, size, field and payload offsets and flattening, after the
sections "Alignment", "Element Size" and "Flattening" of the Component Model's Canonical ABI
(`design/mvp/CanonicalABI.md`).  `CanonicalAbi` defines storing, loading, flat lowering and
flat lifting on byte memory with an allocator, after "Storing", "Loading", "Flat Lowering" and
"Flat Lifting".  This is the independent reference: it knows nothing of instructions.
`AbiFrame`, `AbiFlat`, `AbiSafe`, `AbiRoundTrip` and `AbiLift` prove the laws of the reference,
`Ownership` says whose the blocks are that lowering allocates.  `LayoutLeast` proves that layout and
flattening give a type the room it needs and no more, `ValueSpace` that lifting gives values of the
type whatever it is given.

**The instructions.**  `Code` has the instructions with their arities and a machine that runs
statements with nested blocks; it traps on a wrong operand type, a wrong number of operands or
blocks, an unmapped address, or a free that matches no live block.  Memory that cannot be had
is `OutOfMemory`, which is not a trap.  The allocator is an unknown function of the state that
picks an aligned, unmapped range whenever there is one; nothing else is used about its choice.

**The generator.**  `Generator` has the two classes of the source: the generator with its operand
stack, and a backend with its statement, block and payload-name stacks and its return area.
Their methods follow the source branch by branch.  What each method emits is a value of
`Codegen`, `DeallocCodegen` or `CallCodegen`; every method ensures that the shared state
afterwards is exactly the state before with so many operands replaced and that code appended
(`Did` in `Snapshots`), so blocks and payload names opened on the way are consumed on the way.
Flat deallocation, which may leave operands of its type or take others, says how many it leaves and
which it does not touch (`Kept`).

**The meaning of the code.**  `SimLower` and `SimLift` prove that the emitted code, run by the
machine, has exactly the outcome of the reference, failures included.  `SimFree` does this for
the deallocating code: `Freeing` has the handles of a value and the world once everything has been
freed, `Shares` the share that deallocation takes and when that is all, `HandleLeaves` which handles
are dropped, `DeallocStack` the depth of the operand stack.  `CallSim`, `CallRoundTrip` and
`Transparency` treat whole functions, `PostReturn` the clean-up after a call.  `GeneratedCode` states the round trips about the code alone.

**The type analysis.**  `UnionFind`, `TypeGraph`, `TypeShapes`, `TypeUsage` and `Types` model
structural equality and usage analysis.  Types refer to each other by id; a rank witnesses that
definitions are acyclic.

**The rest.**  `RepTable`, `TypeSort`, `Source` and `StackArea` model the C# handle table, the C++
definition order, the indenting printer and the C# stack areas; `SourceLayout` says how blocks of
text are laid out.  `AsyncSupport` models the C# callback with its dictionary of pending operations,
`AsyncBook` what a task sees of it: what waits, what has been recorded, and what code that runs does
to both.

The main results:

- `Transparency.CallIsTransparent`: the caller's glue linked with the callee's glue never traps, succeeds
  unless memory runs out on the way in or out, hands the implementation the caller's arguments and the
  caller the result that the implementation gives to them in the memory in which they arrive, and leaves
  the world in which the callee lowered that result.  The implementation may write and free what it owns.
  What the arguments take in memory stays the caller's for an import and is handed over to an export.
- `GeneratedCode.WriteThenRead` and `GeneratedCode.LowerThenLift`: reading code undoes writing
  code and lifting code undoes lowering code, with a frame.
- `SimFree.FreeSim`, `PostReturn.FreesAllIfVisited` and `PostReturn.ExportThenPostReturn`: deallocating code
  gives back an exact share of what an owning lowering allocated, each block once, and nothing else; the
  share is everything if and only if every fixed-length list in the value owns nothing.
  `HandleLeaves.DropsItsHandles`: the handles dropped are the owned handles, futures and streams among the
  scalars of the value.
- `LayoutLeast.SizeIsLeast`, `ValueSpace.LoadedHasType` and `ValueSpace.LiftedHasType`: layout is tight, and
  what loading and lifting give is typed.
- `Generator.Generator.Call` and the other methods: the stack discipline that the source guards by
  assertions, and the pairing of blocks and payload names.
- `Types.Types.IsStructurallyEqual`, `Types.Types.CollectEqualTypes` and `Types.Types.MergeInfo`: equality of
  unfoldings, classes and merged flags.
- `AsyncSupport.AsyncSupport.Run`: in every run of any tasks, code and events do to the set of their task
  what `AsyncBook` says and nothing to another, and the callback answers Wait exactly if something is left
  to wait for.
- `SourceLayout.BlocksAreIndented` and `TypeSort.SortTypes`: blocks of text at any level are indented, and
  definitions come after what they need.

Six statements that one might expect are false of the code; each has a condition that decides it.

- Flat deallocation does not always consume the words of its type: for a flags type it discards one
  operand, however many words the flags take.  `DeallocStack.LeavesTheExcess` says for every type whether it
  succeeds and how many operands it leaves; it consumes exactly its words if and only if it meets no
  fixed-length list, the words of all flags add up to their number, and what empty flags reach for is there
  (`DeallocStack.ConsumesItsWords`).  `DeallocStack.FlagsThatAreNotOneWord` has inputs.
- For the same reason the instruction that picks the case of a variant does not always get the discriminant.
  It does if and only if the cases together leave no operand and never reach below their own
  (`DeallocStack.LevelArmsStay`); then the freeing code is right.  `DeallocStack.CasesThatAreNotLevel` is an input.
- Deallocation does not visit fixed-length lists.  `PostReturn.FreesAllIfVisited` and
  `PostReturn.DeallocatesAllIfVisited` show for every type and value that it frees everything if and only if
  every fixed-length list in the value owns nothing; `PostReturn.FixedListOfStringsLeaks` is an input.
- Post-return does not always get the pointer that it asserts.  It does if and only if the result takes more
  than one word (`CallCodegen.SignatureIs`), as every result with a string, list or map does
  (`PostReturn.BuffersNeedAPointer`); `PostReturn.BareErrorContextHasNoPointer` is an input.
- The code of a wait answer decodes to its set handle if and only if the handle is below 2^28
  (`AsyncBook.WaitCodeDecodes`); `AsyncBook.FirstLostHandle` is an input.
- An end whose other side is gone is left alone if an event said so (`AsyncSupport.AsyncSupport.Run`), and not if
  the host's answer to a read or a write said so (`AsyncSupport.DroppedAtTheCallIsForgotten`).

A comment at `crates/core/src/types.rs:121-122` says that structural equality relies on the order in
which live types are visited.  The proof does not need the order: equality is right for any classes
that are right so far.

## Model

| member | source | states |
|---|---|---|
| `CoreTypes.JoinIsLub` | crates/core/src/abi.rs:1713-1717 | The join of two core types is their least upper bound in the order that the bitcasts cover. |
| `CoreTypes.JoinLaws` | crates/core/src/abi.rs:1713-1717 | The join is associative, commutative and idempotent. |
| `CoreTypes.CastDefined` | crates/core/src/abi.rs:2659-2713 | A bitcast exists, without meeting an unreachable arm, exactly between comparable types. |
| `CoreTypes.CastRoundTrip` | crates/core/src/abi.rs:2659-2713 | Casting up and back down again, for both pointer widths, gives the same bits and type; going up keeps the bits within range. |
| `CoreTypes.CastKeeps` | crates/core/src/abi.rs:2659-2713 | A defined cast keeps every bit pattern that fits both types, also where it goes by way of a third type. |
| `Layout.ArmBelow` | crates/core/src/abi.rs:1682-1732 | Every case of a variant flattens to no more words than the variant has payload slots, each of a type below its slot. |
| `Layout.FlatFits` | crates/core/src/abi.rs:2722-2732 | A type that flattens to at most 16 words can be flattened wherever lowering and lifting flatten a part of it, so no unwrap panics. |
| `Layout.SizeAligned` | crates/core/src/abi.rs:2135-2156 | The size of every type is a multiple of its alignment. |
| `Layout.PayloadFits` | crates/core/src/abi.rs:2099-2120 | The payload of every case lies after the discriminant, inside the variant, and aligned for its own type. |
| `LayoutLeast.WidthIsLeast` | crates/core/src/abi.rs:1953-1975 | A scalar takes the least number of bytes that tells its values apart; it has a 64-bit core type exactly if that is eight. |
| `LayoutLeast.TagSizeIsLeast` | crates/core/src/abi.rs:2348-2364 | A discriminant takes the least number of bytes that numbers all cases. |
| `LayoutLeast.FlagBytesAreLeast` | crates/core/src/abi.rs:2000-2020 | Flags take as few bytes as hold them all, whole words beyond two bytes. |
| `LayoutLeast.AlignIsLargest` | crates/core/src/abi.rs:2135-2156 | The alignment of a type is the largest that a part of it wants. |
| `LayoutLeast.SizeIsLeast` | crates/core/src/abi.rs:2099-2156 | The size of a type is the least multiple of its alignment with room for its parts, laid one after another, aligned, and for a variant all payloads past the discriminant. |
| `LayoutLeast.ArmsAreLub` | crates/core/src/abi.rs:1713-1717 | The payload slots of a variant are the least that every case fits below. |
| `AbiFlat.WidenRoundTrip` | crates/core/src/abi.rs:1910-1951 | Padding and casting the words of a case up to the shared slots, then casting down, gives the words back; the widened words are typed as the slots. |
| `AbiFlat.LowerTyped` | crates/core/src/abi.rs:1515-1680 | Flat lowering of a typed value gives words typed exactly as flattening announces, whatever case a variant is in. |
| `AbiFlat.VariantWords` | crates/core/src/abi.rs:1682-1732 | A lowered variant begins with its case, the words of the payload follow with their bits, and the slots that the case does not need are zero. |
| `AbiFrame.StoreFrame` | crates/core/src/abi.rs:1953-2088 | Storing changes no byte outside the target and the blocks it allocates, and keeps every live block. |
| `AbiSafe.StoreSafe` | crates/core/src/abi.rs:1953-2088 | Storing a typed value at an aligned, mapped target never traps: every store is aligned with the type and inside the target. |
| `AbiSafe.LowerSafe` | crates/core/src/abi.rs:1515-1680 | Flat lowering of a typed value never traps. |
| `AbiRoundTrip.LoadAfterStore` | crates/core/src/abi.rs:2164-2289 | Loading what was stored, in any memory that kept the target and the new blocks, gives the value back. |
| `AbiLift.LiftAfterLower` | crates/core/src/abi.rs:1743-1890 | Flat lifting of the words left by flat lowering gives the value back. |
| `ValueSpace.ValuesAreWords` | crates/core/src/abi.rs:1743-1800 | The values of a scalar are exactly what its core words stand for. |
| `ValueSpace.LoadedHasType` | crates/core/src/abi.rs:2164-2289 | Whatever bytes memory holds, what is loaded is a value of the type, or loading traps. |
| `ValueSpace.LiftedHasType` | crates/core/src/abi.rs:1743-1890 | Whatever words of the announced types are lifted, the outcome is a value of the type, or a trap. |
| `ValueSpace.FlagIsBit` | crates/core/src/abi.rs:1585-1600 | Flag i is bit i modulo 32 of word i divided by 32. |
| `Ownership.StoreAllots` | crates/core/src/abi.rs:1734-1741 | What storing allocates becomes live if ownership passes, and stays with the storing side otherwise; nothing else appears in memory and nothing goes away. |
| `Ownership.LowerAllots` | crates/core/src/abi.rs:1734-1741 | The same for flat lowering. |
| `Generator.FunctionBindgen.PushBlock` | crates/c/src/lib.rs:3113-3116 | The statements so far are set aside and an empty block begins. |
| `Generator.FunctionBindgen.FinishBlock` | crates/c/src/lib.rs:3118-3122 | The block joins the finished ones with its operands, and the enclosing statements come back. |
| `Generator.FunctionBindgen.Emit` | crates/c/src/lib.rs:3317-3406 | An instruction takes exactly as many blocks and payload names as it has cases, off the ends of their stacks and in case order. |
| `Generator.FunctionBindgen.ReturnPointer` | crates/cpp/src/lib.rs:3721-3735 | Every request is served by one area, whose size and alignment are running maxima. |
| `Generator.Generator.Emit` | crates/core/src/abi.rs:1471-1498 | An instruction replaces its operands on the stack by its results. |
| `Snapshots.EmitTake` | crates/core/src/abi.rs:1471-1498 | An instruction that consumes blocks takes exactly the blocks and payload names that wait for it, and leaves those of the enclosing instructions. |
| `Snapshots.BlockDone` | crates/core/src/abi.rs:1500-1513 | A block opened, filled and closed leaves the stack as it was and one finished block. |
| `Snapshots.ArmDone` | crates/core/src/abi.rs:1682-1732 | A case block opened, named, filled and closed leaves the stack as it was, one finished block and one payload name. |
| `Generator.Generator.Lower` | crates/core/src/abi.rs:1515-1680 | Lowering replaces one operand by as many as the type has words and appends the lowering code; blocks, payload names and enclosing sources are as before. |
| `Generator.Generator.LowerVariantArms` | crates/core/src/abi.rs:1682-1732 | Every case, in order, leaves one block of discriminant, cast payload words and zeros, and one payload name. |
| `Generator.Generator.Lift` | crates/core/src/abi.rs:1743-1890 | Lifting replaces the words of the type by one operand and appends the lifting code; nothing else changes. |
| `Generator.Generator.LiftFields` | crates/core/src/abi.rs:1892-1908 | The words of a record are handed to its fields in order, and all of them are used up. |
| `Generator.Generator.LiftVariantArms` | crates/core/src/abi.rs:1910-1951 | Every case, in order, leaves one block that casts down the slots it needs and lifts them. |
| `Generator.Generator.WriteToMemory` | crates/core/src/abi.rs:1953-2088 | Writing consumes one operand and appends the storing code; nothing else changes. |
| `Generator.Generator.WriteVariantArms` | crates/core/src/abi.rs:2099-2120 | Every case, in order, leaves one block that stores the discriminant and then the payload. |
| `Generator.Generator.WriteListToMemory` | crates/core/src/abi.rs:2122-2133 | The length goes one pointer above the pointer. |
| `Generator.Generator.WriteFieldsToMemory` | crates/core/src/abi.rs:2135-2156 | The fields are stored in order, each at its offset. |
| `Generator.Generator.ReadFromMemory` | crates/core/src/abi.rs:2164-2289 | Reading pushes one operand and appends the loading code; nothing else changes. |
| `Generator.Generator.ReadVariantArms` | crates/core/src/abi.rs:2300-2317 | Every case, in order, leaves one block that loads its payload. |
| `Generator.Generator.ReadFields` | crates/core/src/abi.rs:2331-2340 | The fields are loaded in order, each from its offset. |
| `Generator.Generator.Deallocate` | crates/core/src/abi.rs:2370-2489 | Wherever the source does not panic, flat deallocation leaves the stack exactly as deep as `Depth` says, leaves the operands that it does not need alone and no block or payload name behind; if every variant in the type gets its own discriminant (`DeallocStack.Clean`), it appends the freeing code, also where flags of several words or of none leave or take operands. |
| `Generator.Generator.DeallocateIndirect` | crates/core/src/abi.rs:2491-2621 | Indirect deallocation leaves the stack alone and appends the freeing code; the arms for handles that own nothing here are not reached. |
| `Generator.Generator.DeallocateInTypes` | crates/core/src/abi.rs:1436-1469 | All given operands are used up and the stack is empty in the end, directly and indirectly; directly, each type is only required to leave the stack empty, as the source asserts. |
| `Generator.Generator.Call` | crates/core/src/abi.rs:1022-1415 | From an empty stack to an empty stack: the glue of either side is appended, no operand, block or payload name is missing or left, and the return area serves every request. |
| `Generator.Generator.PostReturn` | crates/core/src/abi.rs:1417-1434 | From an empty stack to an empty stack: the clean-up of the result is appended. |
| `SimLower.LowerSim` | crates/core/src/abi.rs:1515-1732 | Lowering code, run on a typed value, has exactly the outcome of flat lowering: words, memory and failures. |
| `SimLower.WriteSim` | crates/core/src/abi.rs:1953-2162 | Storing code, run on a typed value and a pointer, has exactly the outcome of storing. |
| `SimLift.LiftSim` | crates/core/src/abi.rs:1743-1951 | Lifting code, run on words of the announced types, has exactly the outcome of flat lifting, also for ill-formed words. |
| `SimLift.ReadSim` | crates/core/src/abi.rs:2164-2364 | Loading code, run on any pointer and memory, has exactly the outcome of loading. |
| `GeneratedCode.WriteThenRead` | crates/core/src/abi.rs:1953-2346 | Storing code on an aligned target does not trap and changes nothing else; loading code of any backend gives the value back in every later memory that kept it. |
| `GeneratedCode.LowerThenLift` | crates/core/src/abi.rs:1515-1951 | Lowering code does not trap and leaves words typed as announced; lifting code of any backend turns them into the value again. |
| `GeneratedCode.MapsAreListsOfTuples` | crates/core/src/abi.rs:1953-2289 | A map is stored and loaded exactly as the list of its key-value tuples. |
| `Freeing.OwnsNothing` | crates/core/src/abi.rs:890-935 | Types that deallocation skips allocate nothing in memory and hold no handle to be dropped. |
| `Freeing.FreeAllocated` | crates/core/src/abi.rs:592-597 | Freeing a block with the size and alignment it was allocated with succeeds and undoes the allocation. |
| `DeallocCodegen.NeedsIsExact` | crates/core/src/abi.rs:890-935 | Deallocation of a type does not return early exactly if the type carries, outside lists and maps, a string, list, map or error context or, if handles are to be dropped, an owned handle, future or stream. |
| `SimFree.FreeSim` | crates/core/src/abi.rs:2491-2654 | For every type, indirect deallocation of what an owning lowering stored does not trap, gives back exactly the share it takes, each block once and each owned handle once (in that mode), and changes nothing else. |
| `SimFree.DeallocSim` | crates/core/src/abi.rs:2370-2489 | The freeing code, run on the words that an owning lowering left, does the same, for every type without fixed-length lists outside lists and maps, for which the source has no code. |
| `HandleLeaves.HandlesAreLeaves` | crates/core/src/abi.rs:979-993 | The handles that a value owns are its scalars of the three owned kinds, wherever they are in it, and never a borrowed one. |
| `HandleLeaves.DropsItsHandles` | crates/core/src/abi.rs:2491-2654 | Indirect deallocation, run on any stored value, drops exactly the numbers of the owned handles, futures and streams in it outside fixed-length lists, each once and in order, if handles are to be dropped, and nothing otherwise. |
| `HandleLeaves.FlatDropsItsHandles` | crates/core/src/abi.rs:2370-2489 | The same for the freeing code of flat words. |
| `Shares.OwnsWhatIsLeft` | crates/core/src/abi.rs:1953-2088 | Lowering a value leaves bytes, blocks or handles to be given back if and only if the value holds a non-empty string, a list or map with bytes, or a handle that is dropped. |
| `Shares.TakesAllThatIsVisited` | crates/core/src/abi.rs:2491-2654 | The share that deallocation takes is never more than the value owns, and all of it if and only if every fixed-length list in the value owns nothing. |
| `Shares.TakesNothing` | crates/core/src/abi.rs:890-935 | Of a type that deallocation skips, it would not take anything. |
| `Shares.FreeableIsVisited` | crates/core/src/abi.rs:890-935 | Values of types whose fixed-length lists need no deallocation are always freed completely. |
| `DeallocStack.LeavesTheExcess` | crates/core/src/abi.rs:2370-2489 | Above any number of operands, flat deallocation of a type succeeds if and only if it meets no fixed-length list and finds the operands that empty flags reach for; it then leaves exactly the words of all flags that are more than one each. |
| `DeallocStack.ConsumesItsWords` | crates/core/src/abi.rs:2370-2489 | It consumes the words of the type, no more and no fewer, if and only if it succeeds and that excess is zero. |
| `DeallocStack.OneWordIsClean` | crates/core/src/abi.rs:2370-2489 | With one word for every flags type and no fixed-length list, every variant gets its own discriminant and all words are consumed, on any stack. |
| `DeallocStack.LevelArmsStay` | crates/core/src/abi.rs:2444-2471 | After the cases of a variant its discriminant is on top of the stack, where its instruction takes it, if and only if together they leave no operand and never reach below their own. |
| `DeallocStack.CasesThatAreNotLevel` | crates/core/src/abi.rs:2444-2471 | A case of no flags before a case of 33 flags: all words are consumed, and the instruction gets a word of the flags instead of the discriminant; the other way around it gets the discriminant. |
| `DeallocStack.FlagsThatAreNotOneWord` | crates/core/src/abi.rs:2474-2481 | For 33 flags one of two words stays; for no flags an operand of others is taken; side by side the two add up. |
| `PostReturn.ListsDropNothing` | crates/core/src/abi.rs:979-993 | In the mode for lists, no handle is dropped. |
| `PostReturn.FreesAllIfVisited` | crates/core/src/abi.rs:2491-2654 | For every type and value, indirect deallocation frees everything that lowering allocated, drops every handle and changes nothing else if and only if every fixed-length list in the value owns nothing. |
| `PostReturn.DeallocatesAllIfVisited` | crates/core/src/abi.rs:2370-2489 | The same for the freeing code of flat words, for every type that the source has such code for. |
| `PostReturn.PostReturnFreesTheResult` | crates/core/src/abi.rs:1417-1434 | Post-return gives back the exact share of the result and drops no handle; it frees all that lowering the result allocated if and only if every fixed-length list in the result owns nothing. |
| `PostReturn.BuffersNeedAPointer` | crates/core/src/abi.rs:1420-1424 | A result with a string, list or map is returned through memory, as post-return asserts. |
| `PostReturn.OnlyErrorContexts` | crates/core/src/abi.rs:1420-1424 | A function that needs post-return but returns no pointer has nothing to deallocate but error contexts. |
| `PostReturn.BareErrorContextHasNoPointer` | crates/core/src/abi.rs:1420-1424 | A function that returns a bare error context needs post-return and returns no pointer, so the assertion would fail. |
| `PostReturn.ExportThenPostReturn` | crates/core/src/abi.rs:1272-1342 | Whatever the implementation wrote and freed, an export and its post-return together leave the live blocks and mapped addresses as it left them if and only if every fixed-length list in the answer owns nothing; no handle is dropped. |
| `PostReturn.FixedListOfStringsLeaks` | crates/core/src/abi.rs:2618 | Deallocating a fixed-length list of one non-empty string does nothing, and the block of the string stays. |
| `CallRoundTrip.ParamsRoundTrip` | crates/core/src/abi.rs:1041-1105 | Lowered parameters, direct or through memory, never trap and are lifted to the same values on the other side; memory for them can be freed by an export. |
| `CallRoundTrip.ResultRoundTrip` | crates/core/src/abi.rs:1289-1354 | A lowered result, flat or through memory, never traps and is lifted to the same value on the other side. |
| `CallCodegen.SignatureIs` | crates/core/src/abi.rs:1022-1105 | Up to sixteen words of parameters and one of result travel as they are; otherwise one pointer does, which for the result of an import the caller passes last. |
| `Transparency.ArrivalAllots` | crates/core/src/abi.rs:1028-1037 | The arguments of an import leave the live blocks as they are, and all that appears is in temporary blocks of the caller; those of an export leave its temporary blocks as they are, and all that appears is live. |
| `Transparency.CalleeSim` | crates/core/src/abi.rs:1192-1404 | The glue of the callee hands the lifted parameters to the implementation, frees their memory if it is an export, and lowers the answer given in that memory. |
| `Transparency.CallIsTransparent` | crates/core/src/abi.rs:1022-1415 | For every synchronous function and both variants, a linked call never traps; the implementation gets the arguments of the caller, and the caller gets what it answers in the memory in which they arrive, whatever it writes and whichever blocks it frees except the one that its glue frees; the call succeeds exactly when the arguments and the answer found memory, and ends in the world in which the answer was lowered; memory for the arguments of an import stays with the caller, memory for those of an export and for the answer is handed over. |
| `Transparency.OneAreaIsReady` | crates/cpp/src/lib.rs:3721-3735 | One area with the largest size and alignment that the backend has recorded serves parameters and result. |
| `Transparency.SharedAreaIsInvisible` | crates/cpp/src/lib.rs:2446-2485 | With the result in the same area as the parameters, the same arguments arrive in the same memory and the caller gets the same result; neither run traps, so only memory can run out. |
| `UnionFind.CompressionKeeps` | crates/core/src/types.rs:451-461 | Pointing an id at its root changes no representative and keeps links leading to smaller ids. |
| `UnionFind.LinkMoves` | crates/core/src/types.rs:462-474 | Linking a root below a smaller one moves exactly the class of that root. |
| `UnionFind.RootIsLeast` | crates/core/src/types.rs:462-474 | The representative is the smallest id of its class. |
| `UnionFind.UnionFind.Find` | crates/core/src/types.rs:451-461 | The representative is found, no class changes, and exactly the links on the way to it are shortened to lead there. |
| `UnionFind.UnionFind.Union` | crates/core/src/types.rs:462-474 | Exactly the two classes are merged. |
| `Types.Types.IsStructurallyEqual` | crates/core/src/types.rs:294-387 | Equality of unfoldings is decided, with the classes so far as a shortcut, and no class changes. |
| `Types.Types.TypesEqual` | crates/core/src/types.rs:388-415 | The same for types, with aliases peeled on either side. |
| `Types.Types.CollectEqualTypes` | crates/core/src/types.rs:108-132 | Two live types share a class exactly when they are equal and each may alias another or is the first of its kind; nothing else is merged. |
| `Types.EqualTypesShareAClass` | crates/core/src/types.rs:98-107 | If all types may alias, live types share a class exactly when their unfoldings are equal. |
| `Types.Types.MergeInfo` | crates/core/src/types.rs:134-147 | Every member of a class gets the flags of the whole class, whatever the order of iteration. |
| `TypeUsage.InfoIsTransitive` | crates/core/src/types.rs:204-292 | A flag is set for a type exactly when something stored in its values has it by itself. |
| `TypeUsage.InfoByKind` | crates/core/src/types.rs:204-292 | The same by kind: lists, maps and strings set the list flag, tuples theirs, resources, handles, futures, streams and error contexts the resource flag, and handles the one of their kind, with futures and streams as owned. |
| `TypeUsage.InfoIsNoMark` | crates/core/src/types.rs:204-292 | The contents of a type never say how it is used. |
| `Types.Types.TypeIdInfo` | crates/core/src/types.rs:204-274 | The cache agrees with the plain recursive definition, and an entry is never inserted twice. |
| `Types.Types.TypeInfoFunc` | crates/core/src/types.rs:150-198 | Exactly the named types reachable from parameters or result are marked, and the definition of the error type. |
| `TypeUsage.ReachByTrail` | crates/core/src/types.rs:150-198 | A type is reached exactly if a trail of mentions leads to it, through what types store, handles and the payloads of futures and streams. |
| `Types.Types.Analyze` | crates/core/src/types.rs:70-96 | The flags of every type are what it contains and what some function says about it, nothing more. |
| `TypeSort.SortTypes` | crates/cpp/src/lib.rs:3799-3870 | The sort ends although methods make references cyclic; every input type comes out exactly once, after the non-resource inputs that it contains, for a resource also after those that the types of its methods contain, and after every resource that it mentions itself or in a method unless that leads back to it. |
| `TypeSort.Visitor.VisitTypeId` | crates/cpp/src/lib.rs:3809-3849 | A visit keeps the order found so far, in which a resource comes after the types of its methods, and adds the type, unless it is a resource that is being visited. |
| `TypeSort.ContainedFirst` | crates/cpp/src/lib.rs:3853-3857 | In an ordered sequence, whatever a type contains at any depth comes before it. |
| `TypeSort.MethodsFirst` | crates/cpp/src/lib.rs:3819-3847 | In an ordered sequence, whatever the method types of a resource contain at any depth comes before it. |
| `RepTable.RepTable.Add` | crates/csharp/src/RepTable.cs:20-31 | The id was not live, everything else is unchanged, and the list is never longer than the most entries live at once. |
| `RepTable.RepTable.Get` | crates/csharp/src/RepTable.cs:33-38 | The entry is returned, or an error for ids that are not live. |
| `RepTable.RepTable.Remove` | crates/csharp/src/RepTable.cs:40-45 | Exactly that entry disappears, or nothing changes and an error is given. |
| `RepTable.WalkVisitsTheChain` | crates/csharp/src/RepTable.cs:9-18 | Following the links from the first vacant slot visits the vacant slots, each once, and ends. |
| `RepTable.Counted` | crates/csharp/src/RepTable.cs:9-18 | Live entries and vacant slots together make up the list. |
| `Source.Source.PushStrImpl` | crates/core/src/source.rs:61-105 | The loop over the lines leaves the text, level and line state of the line-by-line definition. |
| `Source.PushConserves` | crates/core/src/source.rs:61-105 | A push appends its content: white space aside, the printed text grows by the text pushed. |
| `Source.LiteralKeepsLevel` | crates/core/src/source.rs:55-59 | A literal push never changes the level. |
| `SourceLayout.BlocksAreIndented` | crates/core/src/source.rs:61-105 | At any level, a pushed tree of blocks is printed with every line two blanks deeper per level, heads and closing lines at the level of the block, and leaves the level as it was; empty lines get no blanks, and comment lines change no level. |
| `SourceLayout.BlocksLineByLine` | crates/core/src/source.rs:61-105 | The same when the lines are pushed one by one. |
| `SourceLayout.LiteralsAreLaid` | crates/core/src/source.rs:55-59 | Lines pushed as literals get the blanks of the level, whatever braces they have. |
| `SourceLayout.PiecesJoin` | crates/core/src/source.rs:61-105 | Pieces pushed on one line are joined as they are. |
| `Source.RunConserves` | crates/core/src/source.rs:51-126 | Over every run, the printed text is the concatenated input, white space aside. |
| `StackArea.WordAligns` | crates/csharp/src/world_generator.rs:639-651 | The mask on 32-bit words gives the same address as rounding up on unbounded numbers if and only if the sum does not overflow. |
| `StackArea.AlignsUp` | crates/csharp/src/world_generator.rs:639-651 | That address is the least aligned one at or above the base, and less than one alignment away. |
| `StackArea.AlignedArray` | crates/csharp/src/world_generator.rs:961-970 | The elements hold the requested bytes, with less than one element to spare. |
| `StackArea.SlackIsNeeded` | crates/csharp/src/function.rs:1037-1072 | Without the one element of slack, a full array holds the request only where it happens to be aligned. |
| `StackArea.ListFits` | crates/csharp/src/function.rs:1037-1072 | The aligned area of all elements lies inside the array, wherever the array is. |
| `StackArea.ImportAreas.ReturnPointer` | crates/csharp/src/function.rs:1957-1990 | Every aligned request lies inside the array declared for it, although size and alignment are running maxima. |
| `AsyncBook.WaitCodeDecodes` | crates/csharp/src/AsyncSupport.cs:184-191 | A wait answer decodes to its set handle exactly for handles below 2^28. |
| `AsyncBook.FirstLostHandle` | crates/csharp/src/AsyncSupport.cs:184-191 | Handle 2^28 has the code of handle zero. |
| `AsyncBook.AnswersDiffer` | crates/csharp/src/AsyncSupport.cs:184-191 | Different answers have different codes. |
| `AsyncBook.CountsAgree` | crates/csharp/src/FutureCommonSupport.cs:5-52 | The count that an event brings, read as signed, is the unsigned count of the same word if and only if that is below 2^27. |
| `AsyncBook.EventsThatEnd` | crates/csharp/src/FutureCommonSupport.cs:7-55 | By code, exactly a returned call and a completed or dropped read or write end an operation. |
| `AsyncBook.CallsAre` | crates/csharp/src/AsyncSupport.cs:523-545 | Running code calls the host for exactly the reads and writes on ends that are neither taken nor marked gone, in order. |
| `AsyncBook.WaitingIs` | crates/csharp/src/AsyncSupport.cs:91-108 | Afterwards exactly the handles of blocked reads, writes and calls are waited for in addition. |
| `AsyncBook.WaitingGrows` | crates/csharp/src/AsyncSupport.cs:91-108 | Whatever waited still does, for the same task, and every new entry belongs to a new task, begun by a blocked action on its handle and end. |
| `AsyncBook.ResultsAre` | crates/csharp/src/AsyncSupport.cs:548-551 | Exactly the operations that the host finishes at once are recorded, in order, with their unsigned counts. |
| `AsyncBook.EndsAre` | crates/csharp/src/AsyncSupport.cs:770-817 | Running code takes no end and marks none gone; one may be dropped exactly if it might before or a write reached the host with nothing waiting for it. |
| `AsyncBook.LeftToWaitFor` | crates/csharp/src/AsyncSupport.cs:176-191 | After an event something is left to wait for exactly if another operation was waiting or an action of the resumed code blocks. |
| `AsyncSupport.AsyncSupport.Join` | crates/csharp/src/AsyncSupport.cs:91-108 | A new task waits in one place, and all others stay where they are. |
| `AsyncSupport.AsyncSupport.ReadInternal` | crates/csharp/src/AsyncSupport.cs:523-554 | A blocked read waits, a completed one is done; an end that an event marked dropped or a taken handle makes no call to the host; any other answer, Dropped included, is not implemented and marks nothing. |
| `AsyncSupport.AsyncSupport.WriteInternal` | crates/csharp/src/AsyncSupport.cs:770-817 | The same for writing, which also allows the end to be dropped. |
| `AsyncSupport.DroppedAtTheCallIsForgotten` | crates/csharp/src/AsyncSupport.cs:531-554 | An operation that the host answers with Dropped fails as not implemented, and the next one on that end calls the host again; after an event that says the same it does not. |
| `AsyncSupport.AsyncSupport.TaskFromStatus` | crates/csharp/src/AsyncSupport.cs:198-225 | A call that has not returned waits as a subtask, one that has is done, any other status is not implemented. |
| `AsyncSupport.AsyncSupport.Settle` | crates/csharp/src/AsyncSupport.cs:140-182 | Exactly the operation of the event leaves its set, its task alone is resolved, and the end is marked if the other side is gone. |
| `AsyncSupport.AsyncSupport.Callback` | crates/csharp/src/AsyncSupport.cs:136-195 | Exactly the task of the event is resolved before code resumes, and the code does exactly what its actions say; earlier results, marks of ends and the record of host calls stay, other tasks keep waiting and the sets of other tasks are untouched; Wait exactly if another operation was waiting or an action of the resumed code began one, and Exit otherwise. |
| `AsyncSupport.ResolvePlaced` | crates/csharp/src/AsyncSupport.cs:148-182 | Resolving a task keeps every task either waiting in one place or resolved, never both. |
| `AsyncSupport.AsyncSupport.Run` | crates/csharp/src/AsyncSupport.cs:136-195 | Over every run of code and events of any tasks: every occasion does what its actions and its event say and is answered accordingly; no call to the host is made on an end after an event reported the other side of it gone, the record of that stays, and every task that waited is resolved once, for good, or still waits in its place. |

## Left out

- `Generator.Generator.Call`: only the two synchronous variants; asynchronous imports and exports, stackful exports and `task.return` with its deferral in the C backend are not modelled.
- The printed text: names, strings, escaping and headers of all backends; instructions have a meaning, not a spelling.
- `Generator.FunctionBindgen`: statements are instructions instead of text, and the area used for exports and imports is the same kind of area; the special treatment of the receiver of exported methods is not modelled.
- `Generator.Generator.Deallocate`: where the instruction of a variant takes another operand than its discriminant (`DeallocStack.LevelArmsStay` says when) it states the depth of the stack and the pairing of blocks, not the code, which is then wrong.  Fixed-length lists are unimplemented in the source.
- `Transparency.CallIsTransparent`: the implementation has to answer with a value of the result type, to leave the block of indirect parameters that its glue frees and the area for a large result; a call may run out of memory, and then nothing is promised.
- Allocators that refuse a request although a range is free, or whose choice depends on more than the request and the state of memory.
- Ownership of error contexts, and resources used as value types.
- Backends that free list buffers while lifting, or that restrict the number of flags; operands of an instruction are evaluated in order, so `Flush` changes nothing.
- Characters, floats and handles are numbers, strings are byte sequences; there is no text encoding and no floating-point arithmetic.
- Records and tuples share a constructor with a kind, as do variants, options and results; options and results have one-byte discriminants like all variants of two cases.
- The parts of `wit-parser` that the code calls: layout, flattening, core signatures and the join are defined after the Canonical ABI; liveness is reachability, and a rank stands for the acyclicity that the parser checks.
- `Types.Types.CollectEqualTypes`: starts from an empty union-find and takes the live types as a sequence without repetitions; the merging that follows it in the same function is `Types.Types.MergeInfo`.
- `Types.Types.Analyze`: worlds are the sequence of their functions; types that are imported or exported by themselves add no mark.
- `is_clone` and `is_copy` of a type's flags: one-line combinations of flags.
- `TypeSort.SortTypes`: returns ids; the names that the index map carries along are not modelled.
- `RepTable.RepTable.Get`: ids are unbounded, exceptions are a missing result.
- `Source.Source.Deindent`: requires enough levels, where the source would overflow.
- `StackArea.ListFits`: addresses, sizes and counts are unbounded (`StackArea.WordAligns` says where words agree), and C# multiplies machine integers; the choice between stack and heap at 1024 bytes is not modelled.
- `AsyncSupport.AsyncSupport.ReadInternal`: a second operation on a handle that is already waiting is refused, which is what the host does; handle transfer, cancellation, finalizers and the lifting completion source are not modelled.
- `AsyncSupport.AsyncSupport.Callback`: the concurrent dictionary is a plain map, and code that is resumed is a sequence of reads, writes and calls; waitable-set and join calls to the host have no effect beyond the map, and the host hands out any set that is not in use.
- C type destructors, symbol names, namespaces, command line, publishing and build files: no hard properties, or input and output only.
