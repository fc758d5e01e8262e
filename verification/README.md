# A model of the component runtime in Dafny

The repository runs WebAssembly components. This project models the parts of it in
which values, handles, calls and bytes have to come out right, and proves what the
code and the Component Model promise of them.

* **Values.** `Shapes` and `Memory` are the reference: despecialised types, their layout,
  and storing, loading, lowering and lifting as functions on values. `Values` gives Go
  descriptors and Go values their meaning in it. The code itself (`Layout`, `Flattening`,
  `Storing`, `Loading`, `Lowering`, `Lifting`, `Plans`, `Params`) is methods with its loops,
  its memory array, its iterators and its 32-bit arithmetic, each proved to have the
  effect of the reference. `MemoryRoundTrip`, `FlatRoundTrip` and `ValueFacts` prove the
  round trips on the reference. A value comes back equal if and only if it is
  `Faithful`, which a caller can check beforehand. `LayoutTable`, `MemoryEncoding` and
  `CoreEncoding` say outright what the reference amounts to: offsets and sizes in
  numbers, each byte in memory and each core value of every type, in plain arithmetic. `TypeTable` is the validator that
  runs before all of this, on type tables that may be cyclic.
* **Between guests.** `Relay` is what a delegated call does to every argument and result:
  lifted from one guest and lowered for the other.
* **Handles.** `Ledger` says on values what the handle table is and what every operation,
  call and drop makes of it; `LedgerFacts`, `LedgerRuns` and `LedgerLoans` prove what
  holds over every run. `Resources` is the table as a class, and `Calls` the wrapper and
  the delegate over it, with callees and destructors that do anything, further calls
  included; both are proved to do what `Ledger` says.
* **Calls in flight.** `PendingCalls` is one outstanding asynchronous call: resolvers post
  completions to a mailbox, one driver drains it, and cancel, finish and lease are
  layered on top; `Pumping` is its driver's loop. `Scheduler` is the run queue. `Baton`
  passes the right to run among goroutines. A method is one critical section, or the
  code between two channel operations; `Run` takes such steps in any order, so an
  invariant of `Run` holds over every interleaving.
* **Bytes and indices.** `Leb128`, `Wasm`, `Rewrite` and `Shim` are the rewriter of import
  sections and the shim encoder, against parsers that follow the grammar of the
  WebAssembly Core Specification (sections 5.2.2, 5.2.4, 5.3.9, 5.5.2 and 5.5.5).
  `IndexSpaces` and `Resolving` are the decoder's index spaces and the resolvers.

How the world outside is represented: an allocator is a tape of replies together with
the log of blocks it handed out, and theorems assume of it only `Separated`, which says
that blocks are apart from each other and from the region in use. The scheduler's
thunks are a tape of outcomes. Guests, hosts and destructors are arbitrary
sequences of operations. Floats are their bits, strings are bytes, memory is an array
of bytes.

A failure is `Rejected` or `InnerCheck`; the second marks the checks of bounds and of
32-bit overflow that the code repeats after its first one. That such a check cannot
fail in a memory shorter than 2^32 bytes is part of the contracts of `StoreTop` and
`LoadTop`.

## What is not as promised

* A non-negative s8 kept in memory is loaded as an unsigned value
  (`ValueFacts.NonNegativeS8Changes`, internal/abi/memory.go:215-222), and lowering that
  value again is refused (`Relay.LoadedS8Refused`, internal/abi/flat.go:163-171).
* An option of an option cannot tell none from some(none)
  (`ValueFacts.NestedOptionAmbiguous`). `Relay.ArrivesIffRelayable` says exactly which
  values one guest can send to another. Equality is that of what the other guest reads,
  since a negative s8 or s16 is sign-extended on the way.
* A `[]byte` given for a `list<u8>` comes back as a list of values, so it is not faithful.
* A spilled parameter list is checked as a tuple, one level deeper than its parameters, and
  one that does not spill is not checked for depth at all: `Params.RefusedForDepthIff`
  says which lists are refused, `Params.DepthOnBothSides` has one for each side.
* A wrapper that fails to lift an argument never releases what it has lent before
  (`LedgerLoans.LendThenTakeSticks`, internal/instance/host_import.go:735-744);
  `LedgerLoans.LeakedIff` says exactly which loans stay, and `LedgerLoans.StuckForever` what
  becomes of the handle.
* A drop with a destructor does not look at the lend count again;
  `LedgerLoans.DropLosesIff` says exactly when that loses a loan, and
  `LedgerLoans.DestructorLosesLoan` has the destructor.
* The unresolved handle of a synchronous call can enter a later asynchronous call
  (`PendingCalls.StaleHandleEnters`); `PendingCalls.HandleStays` and
  `PendingCalls.StrayHandleTaken` say for which handles.
* A pump round does not run exactly the queued thunks, and then each ready task once, when
  one of them drives the queue itself (`Scheduler.NestedDriveOvertakes`,
  internal/instance/sched.go:195-201); `Scheduler.Sched.PumpSnapshot` has the condition.
  The comment there speaks of tasks ready at entry; the code looks after the thunks
  (`Scheduler.MadeReadyByThunk`).
* An alias of an inline instance's type export keeps a resource index of its own
  (`Resolving.InlineAliasKeepsItsIndex`, internal/binary/typespace.go:98-112);
  `Resolving.SameIndexIff` says when two indices of a definition agree.

## Model

| member | source | states |
|---|---|---|
| `ShapeFacts.AlignUpLeast` | internal/abi/layout.go:102-111 | `AlignUp` is the least aligned number not below its argument, for the alignments 1, 2, 4 and 8. |
| `ShapeFacts.AlignShift` | internal/abi/memory.go:389-425 | Aligning an absolute address is the base plus the aligned relative offset, when the base is aligned for the whole value. |
| `ShapeFacts.SizeAligned` | internal/abi/layout.go:452-560 | Every size is a multiple of its alignment. |
| `ShapeFacts.PayloadInside` | internal/abi/layout.go:484-528 | The payload of a sum lies behind the discriminant, inside the size, and is aligned for every case. |
| `ShapeFacts.FieldInside` | internal/abi/layout.go:452-482 | Each field lies behind the ones before it, inside the size of the product, and is aligned. |
| `Layout.CheckedAlignExact` | internal/abi/layout.go:102-111 | `CheckedAlign` gives the least aligned offset, and fails exactly when that does not fit 32 bits. |
| `Layout.CeilLog256Least` | internal/abi/layout.go:221-235 | The discriminant width is the least number of bytes whose range is not smaller than the number of cases. |
| `Layout.DiscriminantHoldsCases` | internal/abi/layout.go:221-235 | The discriminant type exists exactly for 1 to 2^32 - 1 cases, has the fewest bytes of 1, 2 and 4 that do, and holds every case index. |
| `Layout.Alignment` | internal/abi/layout.go:123-128 | The alignment of the despecialised type, or an error exactly when the type is invalid or too deep. |
| `Layout.AlignmentUnchecked` | internal/abi/layout.go:130-169 | The per-type alignment code, tuples, options, results, enums and flags included, equals the reference alignment of the despecialised type. |
| `Layout.AlignmentFields` | internal/abi/layout.go:312-328 | The running maximum over record fields or tuple elements is the alignment of the product. |
| `Layout.MaxCaseAlignment` | internal/abi/layout.go:238-256 | The running maximum over case payloads; fails exactly when some payload is invalid. |
| `Layout.AlignmentVariant` | internal/abi/layout.go:330-344 | Discriminant and payload alignment together are the alignment of the sum. |
| `Layout.SizeOf` | internal/abi/layout.go:173-178 | The size of the despecialised type; an error exactly when the type is invalid, too deep, or not smaller than 2^32 bytes. |
| `Layout.SizeUnchecked` | internal/abi/layout.go:180-217 | The per-type size code equals the reference size, with every 32-bit overflow reported exactly when the size does not fit. |
| `Layout.EndOfFields` | internal/abi/layout.go:452-482 | The running offset of the field loop is the reference end of the fields, and it fails exactly on an invalid field or an overflow. |
| `Layout.SizeFields` | internal/abi/layout.go:530-560 | Records and tuples have the size of the product. |
| `Layout.SizeVariant` | internal/abi/layout.go:484-528 | Variants have the size of the sum. |
| `Layout.SizeOption` | internal/abi/layout.go:605-635 | The hand-written option code computes the size of the two-case sum it despecialises to. |
| `Layout.SizeResult` | internal/abi/layout.go:637-697 | The hand-written result code computes the size of the two-case sum it despecialises to. |
| `LayoutTable.PrimitiveLayout` | internal/abi/layout.go:260-303 | 1, 2, 4 or 8 bytes for each primitive and aligned alike, 8 bytes aligned at 4 for text. |
| `LayoutTable.WordLayout` | internal/abi/layout.go:364-450 | Lists, handles, flags by their number of labels, enums by their number of cases, and which of them are refused. |
| `LayoutTable.ProductLayout` | internal/abi/layout.go:452-560 | The first field is at the start, each other at the next multiple of its alignment behind the one before; the whole has the largest alignment and is filled up to a multiple of it. |
| `LayoutTable.SumLayout` | internal/abi/layout.go:484-528 | 1, 2 or 4 bytes of discriminant, the payload at the next multiple of the largest alignment of a case, room for the largest case, filled up to a multiple of the alignment of the whole. |
| `LayoutTable.ElementLayout` | internal/abi/memory.go:343-387 | Elements stand one behind the other without gaps. |
| `LayoutTable.Despecialised` | internal/abi/layout.go:130-217 | Fields and cases keep their order; none and ok have discriminant 0, some and error 1. |
| `Flat.JoinCovers` | internal/abi/flatten.go:356-380 | Every position of a case is covered by the joined kind at that position, however many cases are joined. |
| `Flattening.JoinCoreTypes` | internal/abi/flatten.go:356-380 | The one-pass join is the kind itself where all are the same, i32 for a mix of i32 and f32 alone, i64 for every other mix, for any number of kinds; that is the pairwise join of the Canonical ABI. |
| `Flattening.JoinByPosition` | internal/abi/flatten.go:195-242 | Joining the candidates of each position is joining the cases one after the other. |
| `Flattening.FlattenType` | internal/abi/flatten.go:18-60 | [f32] for float32, [f64] for float64, [i64] for s64 and u64, [i32, i32] for text and lists, [i32] for every other primitive, handles, flags and enums; records, tuples and sums as the reference says; an error exactly on an invalid type. |
| `Flattening.FlattenVariant` | internal/abi/flatten.go:195-242 | A variant flattens to its discriminant and the joined cases. |
| `Flattening.FlattenResult` | internal/abi/flatten.go:301-347 | The hand-written result code flattens like the two-case sum. |
| `TypeTable.ValidateLayoutType` | internal/abi/layout.go:22-24 | On any type table, cyclic or not, the validator ends and accepts exactly when every chain of non-list references is at most 64 long and every reference on it resolves. |
| `TypeTable.ValidateLayoutDesc` | internal/abi/layout.go:26-88 | With the visiting set, and restoring it, the verdict is that of the walk without any visiting set. |
| `TypeTable.ValidateRef` | internal/abi/layout.go:30-50 | A reference is accepted exactly when it is inline, or resolves to an accepted descriptor one level deeper. |
| `TypeTable.AcceptsExactly` | internal/abi/layout.go:26-88 | The depth-bounded walk is the statement about all chains. |
| `TypeTable.VisitedRefused` | internal/abi/layout.go:37-40 | What the visiting set refuses the depth limit refuses too: an index on the stack cannot be accepted below itself. |
| `TypeTable.CycleRefused` | internal/abi/layout.go:26-88 | A descriptor on a cycle is refused at every depth. |
| `TypeTable.TreeWithin` | internal/abi/layout.go:130-217 | An accepted descriptor unfolds to a finite type within the depth limit, so the unchecked size, alignment and flatten recursions end. |
| `MemoryFacts.StoreChanges` | internal/abi/memory.go:686-734 | A store changes the bytes of its own region and of newly allocated blocks, and no others. |
| `MemoryRoundTrip.StoreLoad` | internal/abi/memory.go:88-132 | Loading from any memory that still holds a stored value gives that value, integers cut to their width, for every nesting of products, sums, lists and text. |
| `MemoryRoundTrip.StoreAtLoadAt` | internal/abi/memory.go:65-86 | The round trip at the entry points, for every shape, value, address and well-behaved allocator. |
| `ValueFacts.StoredValueReturns` | internal/abi/memory.go:665-684 | A host value that was stored is loaded back equal if and only if it is faithful: integers in range, text in UTF-8, no over-long list, no byte slice, nil where a case carries nothing, and no non-negative s8. |
| `ValueFacts.ReturnedIffFaithful` | internal/abi/memory.go:88-132 | The type-directed core of that equivalence, for both encodings. |
| `ValueFacts.NonNegativeS8Changes` | internal/abi/memory.go:207-248 | Every non-negative s8 kept in memory comes back as an unsigned value instead. |
| `ValueFacts.NestedOptionAmbiguous` | internal/abi/memory.go:547-581 | None and some(none) of an option of an option are lifted to the same host value, which lowers to none. |
| `MemoryEncoding.StoredUnsigned` | internal/abi/memory.go:748-864 | The bytes of stored bools, unsigned integers, floats, handles and flags, digit by digit. |
| `MemoryEncoding.StoredSigned` | internal/abi/memory.go:748-864 | The bytes of stored signed integers and chars, in two's complement. |
| `MemoryEncoding.StoredText` | internal/abi/memory.go:868-917 | A block of as many bytes, alignment 1, that holds the text; its address and then the length at the pointer; nothing else changes. |
| `MemoryEncoding.StoredList` | internal/abi/memory.go:919-1038 | A block with the alignment of the elements; element i stored as a value of its own at i times the element size; then the address and the number of elements at the pointer. |
| `MemoryEncoding.StoredBytes` | internal/abi/memory.go:958-982 | Bytes given for a list of u8 are copied to a block, their address and number stored. |
| `MemoryEncoding.StoredFields` | internal/abi/memory.go:1040-1177 | Field i is stored as a value of its own at its offset, in order. |
| `MemoryEncoding.StoredVariant` | internal/abi/memory.go:1083-1134 | The number of the case, lowest digit first; then the payload as a value of its own at the payload offset. |
| `MemoryEncoding.StoredOption` | internal/abi/memory.go:1211-1252 | Nil is the byte 0; any other value is the byte 1 and then itself at the alignment of its type. |
| `MemoryEncoding.StoredResult` | internal/abi/memory.go:1254-1333 | Ok is the byte 0 and an error the byte 1, and then what is carried. |
| `MemoryEncoding.StoredEnum` | internal/abi/memory.go:1193-1209 | The number of the label in its bytes, nothing else. |
| `MemoryEncoding.LoadedByte` | internal/abi/memory.go:134-248 | A byte other than 0 is true; a u8 is the byte; an s8 from 128 on is negative, below it comes back unsigned. |
| `MemoryEncoding.LoadedUnsigned` | internal/abi/memory.go:134-248 | The digits of loaded unsigned integers and floats are the bytes. |
| `MemoryEncoding.LoadedSigned` | internal/abi/memory.go:134-248 | The digits of loaded signed integers and chars are the bytes; a char is a Unicode scalar value. |
| `MemoryEncoding.LoadedText` | internal/abi/memory.go:269-314 | The text from the address on, as long as the length says, in UTF-8. |
| `MemoryEncoding.LoadedList` | internal/abi/memory.go:316-387 | At most 2^20 elements from the address on, each loaded as a value of its own. |
| `MemoryEncoding.LoadedFields` | internal/abi/memory.go:389-512 | Each field loaded as a value of its own from its offset, in order. |
| `MemoryEncoding.LoadedVariant` | internal/abi/memory.go:427-474 | The case that the discriminant bytes number, and its payload from the payload offset, or nil. |
| `MemoryEncoding.LoadedOption` | internal/abi/memory.go:547-581 | 0 is none and 1 is some, loaded at the alignment of its type; no other byte is accepted. |
| `MemoryEncoding.LoadedResult` | internal/abi/memory.go:583-661 | 0 is ok and 1 an error, and then what is carried; no other byte is accepted. |
| `MemoryEncoding.LoadedEnum` | internal/abi/memory.go:528-545 | The label that the bytes number, below the number of labels. |
| `Utf8.ValidIff` | internal/abi/memory.go:300-314 | Bytes are accepted as text if and only if they are the UTF-8 encoding of some sequence of Unicode scalar values. |
| `Relay.LoadReadable` | internal/abi/memory.go:88-132 | Whatever is loaded is a readable value of its shape: integers of their width, scalar chars, UTF-8 text, lists of at most 2^20 elements, known cases. |
| `Relay.LiftReadable` | internal/abi/flat.go:650-702 | Whatever is lifted from core values is readable; flags keep 32 bits there. |
| `Relay.ArrivesIffRelayable` | internal/instance/graph.go:1046-1097 | For every type, readable value and encoding on either side: the host value of what one guest sent is accepted, and the other guest reads what was sent, if and only if nothing in it is a non-negative s8 read from memory, some of a value that becomes nil, such a value as a variant payload kept in memory, or flags with bits beyond their bytes in memory. |
| `Relay.RelayedIff` | internal/instance/graph.go:1046-1097 | The same at the entry points: a parameter list lifted from one guest and lowered for another is read there as it was sent if and only if it is relayable. |
| `Relay.RelayableAccepted` | internal/instance/graph.go:1046-1097 | A relayable value is never refused for its dynamic type. |
| `Relay.LoadedS8Refused` | internal/abi/memory.go:215-222 | The s8 that was loaded from memory is refused when it is lowered again exactly when it is not negative. |
| `Relay.SomeNoneArrivesAsNone` | internal/abi/memory.go:547-581 | Some of none is accepted on the second hop, and arrives as none. |
| `Footprint.FieldReady` | internal/abi/memory.go:389-425 | Once the whole is aligned and in bounds, so is each field, and no later check can fail. |
| `Footprint.FieldReached` | internal/abi/memory.go:1040-1081 | The absolute offset that the field loop reaches is the base plus the relative offset of the field. |
| `Footprint.FieldsApart` | internal/abi/memory.go:1040-1081 | Fields do not overlap. |
| `Footprint.SumPlace` | internal/abi/memory.go:1083-1134 | Discriminant and payload of every case lie inside the sum, apart from each other, and the code reaches the payload. |
| `Storing.PutUint` | internal/abi/memory.go:830-864 | In place, byte i from the start on is digit i of the number to the base 256, the lowest first. |
| `Storing.StoreInt` | internal/abi/memory.go:830-864 | Byte i of the integer is its digit i to the base 256, the lowest digit at the lowest address, and no other byte changes; or its bounds check fails and nothing is written. |
| `Storing.StorePair` | internal/abi/memory.go:868-889 | Four bytes of the address, then four of the length, each with its lowest digit first. |
| `Storing.StorePrimitive` | internal/abi/memory.go:748-827 | Stores a primitive exactly as the reference does, or fails exactly for a value of the wrong type or a char that is not a scalar value. |
| `Storing.StoreString` | internal/abi/memory.go:868-889 | Text goes to a new block, its address and length to the pointer. |
| `Storing.AllocStoreString` | internal/abi/memory.go:898-917 | Places the text in a new block or leaves memory alone. |
| `Storing.AllocStoreAnyList` | internal/abi/memory.go:940-949 | Both list paths have the outcome of the element loop. |
| `Storing.AllocStoreBytes` | internal/abi/memory.go:970-982 | The byte path leaves the same pointer, length, memory and allocator as the generic element loop. |
| `Storing.BytesPlaced` | internal/abi/memory.go:940-1038 | Storing bytes one element at a time is copying them. |
| `Storing.AllocStoreList` | internal/abi/memory.go:992-1038 | Elements are stored one by one in a block of their own, exactly as the reference places the list. |
| `Storing.StoreListValue` | internal/abi/memory.go:919-936 | A list is placed, and its pair of address and length stored. |
| `Storing.StoreProductValue` | internal/abi/memory.go:1040-1177 | Records and tuples are stored as the product. |
| `Storing.StoreVariant` | internal/abi/memory.go:1083-1134 | Discriminant and payload stored as the sum; a nil payload of a carrying case is refused. |
| `Storing.StoreOption` | internal/abi/memory.go:1211-1252 | The hand-written option code stores what the two-case sum stores. |
| `Storing.StoreResult` | internal/abi/memory.go:1254-1333 | The hand-written result code stores what the two-case sum stores. |
| `Storing.StoreEnum` | internal/abi/memory.go:1193-1209 | An enum is stored as the sum of its labels; a case out of range is refused. |
| `Storing.StoreFlags` | internal/abi/memory.go:1179-1191 | Flags are stored in the bytes of their width, the rest of the bits cut off. |
| `Storing.StoreValue` | internal/abi/memory.go:686-734 | The dispatcher: every type has the effect of the reference store. |
| `Storing.StoreTop` | internal/abi/memory.go:665-684 | Store: success has exactly the reference effect on memory and allocator; failure means the reference fails, and below 2^32 bytes never comes from a check after the first one. |
| `Loading.GetUint` | internal/abi/memory.go:207-248 | Digit i to the base 256 of the number is byte i from the start on. |
| `Loading.LoadInt` | internal/abi/memory.go:207-248 | Digit i to the base 256 of the value is the byte at the pointer plus i; wider signed ones and a negative s8 are two's complement, a non-negative s8 and the rest unsigned; a failed bounds check exactly past the end. |
| `Loading.ReadPair` | internal/abi/memory.go:258-298 | The address from the first four bytes, the length from the next four, the lowest digit of each first. |
| `Loading.LoadPrimitive` | internal/abi/memory.go:134-204 | Loads what the reference loads; a char that is not a scalar value is refused. |
| `Loading.LoadStringFromRange` | internal/abi/memory.go:300-314 | The text in range and in UTF-8, or an error exactly when the reference has one. |
| `Loading.LoadListFromRange` | internal/abi/memory.go:343-387 | All elements, or an error exactly when the reference has one; at most 2^20 elements. |
| `Loading.LoadProductValue` | internal/abi/memory.go:389-512 | Records and tuples are loaded as the product. |
| `Loading.LoadVariant` | internal/abi/memory.go:427-474 | Discriminant, range check and payload as the sum. |
| `Loading.LoadOption` | internal/abi/memory.go:547-581 | The hand-written option code loads what the two-case sum holds. |
| `Loading.LoadResult` | internal/abi/memory.go:583-661 | The hand-written result code loads what the two-case sum holds. |
| `Loading.LoadEnum` | internal/abi/memory.go:528-545 | A case below the number of labels, or an error. |
| `Loading.LoadFlags` | internal/abi/memory.go:514-526 | The bits of the flags width. |
| `Loading.LoadValue` | internal/abi/memory.go:88-132 | The dispatcher: every type loads as the reference does. |
| `Loading.LoadTop` | internal/abi/memory.go:67-86 | Load: success is the reference value; failure means the reference fails, and below 2^32 bytes never comes from a check after the first one. |
| `FlatRoundTrip.LowerTyped` | internal/abi/flat.go:66-118 | Lowering emits exactly the kinds of the flattened type, whatever the value and the nesting. |
| `FlatRoundTrip.LowerLift` | internal/abi/flat.go:650-702 | Lifting what was lowered gives the value, through arbitrarily nested sums whose cases are joined to wider kinds. |
| `FlatRoundTrip.LowerTopLiftTop` | internal/abi/flat.go:24-62 | The same on both sides of the spill limit of 16 core values. |
| `Lowering.DeCoerceUndoesCoerce` | internal/abi/flat.go:386-419 | Coercion to a joined kind and back is the identity exactly for the pairs that a join can produce. |
| `Lowering.CoercionKeepsBits` | internal/abi/flat.go:969-997 | Coercion never changes the bits that fit the kind of the case. |
| `Lowering.LowerPrimitiveCore` | internal/abi/flat.go:145-229 | For each primitive the kind and the bits outright: f32 and f64 for floats, i64 for 64-bit integers, i32 for the rest, two's complement for signed ones; an error exactly for a value of the wrong type, or a char that is no Unicode scalar value. |
| `Lowering.LowerFlatString` | internal/abi/flat.go:238-247 | Text is placed in a block; address and length are the two core values. |
| `Lowering.LowerFlatList` | internal/abi/flat.go:256-266 | A list is placed in a block; address and length are the two core values. |
| `Lowering.LowerFlatFields` | internal/abi/flat.go:269-292 | Records and tuples lower field by field to the concatenation. |
| `Lowering.LowerFlatVariant` | internal/abi/flat.go:296-362 | Discriminant, coerced payload and zero padding are the lowered sum. |
| `Lowering.CoerceAndPad` | internal/abi/flat.go:340-362 | The coercion loop widens the values of a case to the joined kinds. |
| `Lowering.LowerFlatOption` | internal/abi/flat.go:475-505 | The hand-written option code lowers like the two-case sum. |
| `Lowering.LowerFlatResult` | internal/abi/flat.go:512-569 | The hand-written result code lowers like the two-case sum. |
| `Lowering.LowerFlatEnum` | internal/abi/flat.go:458-468 | The case index as one core value, in range. |
| `Lowering.LowerFlatFlags` | internal/abi/flat.go:448-455 | The bits as they are. |
| `Lowering.LowerFlatImpl` | internal/abi/flat.go:66-118 | Lowering of every type equals the reference in values, memory and allocator, or fails exactly when that does. |
| `Lifting.ValueIter.Coercing` | internal/abi/flat.go:914-933 | A coercing iterator over joined kinds that cover its own gives values of its own kinds. |
| `Lifting.ValueIter.Next` | internal/abi/flat.go:936-957 | The next value of the view, with every iterator of the chain advanced by one; an error exactly at the end. |
| `Lifting.LiftCut` | internal/abi/flat.go:650-702 | The result depends only on the bits that fit the kinds. |
| `Lifting.LiftFlatPrimitive` | internal/abi/flat.go:707-719 | For each primitive the kind that is read, and the value of its low bits: floats from f32 and f64, 64-bit integers from i64, the rest from i32, narrow integers cut to their width and signed ones sign-extended; any bits are accepted and no accessor can panic. |
| `Lifting.LiftFlatFields` | internal/abi/flat.go:819-833 | Records and tuples lift from consecutive values. |
| `Lifting.LiftCase` | internal/abi/flat.go:836-912 | The active case is lifted through a new coercing iterator, and the joined positions it does not fill are consumed. |
| `Lifting.LiftFlatVariant` | internal/abi/flat.go:836-912 | A variant lifts as the sum and consumes exactly its joined width on every iterator of the chain. |
| `Lifting.LiftFlatResult` | internal/abi/flat.go:1076-1144 | A result lifts as the two-case sum and consumes exactly its joined width. |
| `Lifting.LiftFlatOption` | internal/abi/flat.go:1042-1068 | An option lifts as the two-case sum and consumes its width, for none too. |
| `Lifting.LiftFlatImpl` | internal/abi/flat.go:650-702 | Given the kinds of the flattened type with any bits, lifting has the reference outcome, consumes exactly that many values from the raw iterator and from every coercing one above it, and never reaches a kind panic. |
| `CoreEncoding.LoweredUnsigned` | internal/abi/flat.go:123-229 | Kind and bits of the one core value of bools, unsigned integers, floats, handles and flags. |
| `CoreEncoding.LoweredSigned` | internal/abi/flat.go:123-229 | Kind and bits of the one core value of signed integers and chars. |
| `CoreEncoding.LoweredString` | internal/abi/flat.go:238-247 | Two i32: the address of a block that holds the text, then its length. |
| `CoreEncoding.LoweredList` | internal/abi/flat.go:256-266 | Two i32: the address of a block that holds the elements one behind the other, then their number. |
| `CoreEncoding.LoweredFields` | internal/abi/flat.go:269-292 | The core values of the fields, in order and without gaps. |
| `CoreEncoding.LoweredVariant` | internal/abi/flat.go:296-362 | The number of the case as an i32, the bits of the payload, and zeros up to the width of the type. |
| `CoreEncoding.LoweredOption` | internal/abi/flat.go:475-505 | Nil is 0 and zeros; any other value is 1, its own bits, and zeros. |
| `CoreEncoding.LoweredResult` | internal/abi/flat.go:512-569 | Ok is 0 and an error 1, then the bits of what is carried, and zeros. |
| `CoreEncoding.LoweredOrSpilled` | internal/abi/flat.go:24-62 | Up to 16 core values as they are; more than that in a block of the size and alignment of the value, and its address as one i32. |
| `CoreEncoding.LiftedPrimitive` | internal/abi/flat.go:725-778 | The value of any bits at the kind of each primitive. |
| `CoreEncoding.LiftedString` | internal/abi/flat.go:780-800 | The text at the address in the first core value, as long as the second says, in UTF-8. |
| `CoreEncoding.LiftedList` | internal/abi/flat.go:802-817 | The elements from the address in the first core value on, as many as the second says. |
| `CoreEncoding.LiftedFields` | internal/abi/flat.go:819-833 | Each field from as many core values as its type flattens to, in order and without gaps. |
| `CoreEncoding.LiftedVariant` | internal/abi/flat.go:836-912 | The case that the first core value numbers, lifted from the ones behind it at its own kinds. |
| `CoreEncoding.LiftedOption` | internal/abi/flat.go:1042-1070 | 0 is none and 1 is some, lifted from the core values behind it. |
| `CoreEncoding.LiftedResult` | internal/abi/flat.go:1076-1144 | 0 is ok and 1 an error, lifted from the core values behind it. |
| `CoreEncoding.LiftedEnum` | internal/abi/flat.go:1026-1038 | The label that the core value numbers. |
| `CoreEncoding.LoweredResultIs` | internal/instance/host_import.go:1264-1312 | A result of more than one core value is stored behind the caller's pointer, any other is returned. |
| `CoreEncoding.LiftedResultIs` | internal/abi/plan.go:174-188 | A result of more than one core value is loaded from the returned pointer, any other lifted. |
| `Plans.LoweredValueReturns` | internal/abi/flat.go:24-62 | A lowered host value is lifted back equal if and only if it is faithful, spilled or not, and takes exactly its width in core values. |
| `Plans.SpillValue` | internal/abi/flat.go:582-605 | A wide value is stored in a block of its size and alignment. |
| `Plans.LowerFlatInto` | internal/abi/flat.go:24-62 | The tree walk appends what the reference lowers, spilling above 16 values. |
| `Plans.CompileLower` | internal/abi/plan.go:44-61 | A plan exists exactly for a valid type, and matches it. |
| `Plans.LowerStepLower` | internal/abi/plan.go:68-112 | A compiled plan has the contract of the tree walk: the same values, memory, allocator state and success. |
| `Plans.LiftFlat` | internal/abi/flat.go:616-638 | LiftFlat loads a spilled value from its pointer and lifts any other. |
| `Plans.CompileLift` | internal/abi/plan.go:147-167 | A plan exists exactly for a valid type, and matches it. |
| `Plans.LiftStepLift` | internal/abi/plan.go:174-188 | A compiled plan is load-if-wider-than-one-else-lift. |
| `Params.FlattenFunc` | internal/abi/flatten.go:66-121 | Parameters of up to 16 core values are passed as they are, more behind one i32; a result of one core value is returned as it is, more behind a returned i32 when lifting and behind a last i32 parameter, with nothing returned, when lowering; refused exactly for an invalid type, or a wide result in any other context. |
| `Params.SingleSpills` | internal/instance/instance.go:671-690 | No parameter spills on its own unless the whole list does. |
| `Params.ParamsReturn` | internal/instance/instance.go:1959-2018 | A parameter list lowered by the export side and lifted by the import side comes back equal exactly when it is faithful, on both sides of the limit, and its kinds are the signature, so the count check never fires. |
| `Params.RefusedForDepthIff` | internal/abi/flat.go:582-605 | A list that could be lowered is refused for its depth if and only if it spills and one of its types is a level too deep to be an element of a tuple; one that does not spill never is. |
| `Params.TooDeepRefused` | internal/abi/flat.go:582-605 | Such a spilling list is refused whatever its values are. |
| `Params.DepthOnBothSides` | internal/instance/instance.go:1959-2018 | A list for each side: a type 65 deep lowers alone, and is refused behind 16 more parameters. |
| `Params.LowerHostResult` | internal/instance/host_import.go:1264-1312 | The host writes a wide result through the out-pointer, and returns a narrow one as a core value, as the reference does. |
| `Params.ResultReturns` | internal/instance/host_import.go:1264-1312 | A result written by the host and lifted by the guest side comes back equal if and only if it is faithful, through the out-pointer or not. |
| `Params.ComputeBoundExportABI` | internal/instance/instance.go:626-723 | The spill decision and the plans of an export are those of the tuple of its parameters. |
| `Params.LowerParams` | internal/instance/instance.go:1959-2018 | A parameter list is lowered exactly as the tuple of its parameters. |
| `Params.TaggedBits` | internal/instance/host_import.go:943-984 | The bits on the core stack, read at the kinds of the signature, are the values that were lowered. |
| `Params.LiftHostArgs` | internal/instance/host_import.go:943-984 | Parameter by parameter from a moving stack position gives the lifted tuple; too short a stack is an error. |
| `Params.LiftHostArgsSpilled` | internal/instance/host_import.go:998-1030 | A spilled list is the tuple loaded from the pointer. |
| `Resources.HandleTable.AddEntry` | internal/instance/resource.go:269-285 | The entry goes under the index freed last, else under the next one, which wraps to 0 behind 2^32 - 1; a closed table stays as it is and answers 0. |
| `Resources.HandleTable.NewBorrowScoped` | internal/instance/resource.go:372-378 | A borrow of that type and representation, not lent, under a fresh handle that is not 0; its scope counts one more. |
| `Resources.HandleTable.Rep` | internal/instance/resource.go:413-421 | The representation of the entry, exactly for a live resource handle whose own type is the one asked for. |
| `Resources.HandleTable.IsOwn` | internal/instance/resource.go:487-495 | Whether the entry owns, exactly for a live resource handle whose own type is the one asked for. |
| `Resources.HandleTable.TakeOwn` | internal/instance/resource.go:427-443 | Succeeds exactly for a live resource handle of the very type that owns and is not lent; then its index is free and nothing else changes, and a failure changes nothing. |
| `Resources.HandleTable.Drop` | internal/instance/resource.go:458-480 | Succeeds exactly for a live resource handle of the very type that is not lent and owns or is scoped; then its index is free, and the scope of a borrow counts one less. |
| `Resources.HandleTable.DropOwned` | internal/instance/resource.go:502-522 | Succeeds exactly for a live owning resource handle that is not lent, whatever its type; then its index is free. |
| `Resources.HandleTable.Lend` | internal/instance/resource.go:573-582 | Succeeds exactly for a live resource handle of the very type; its entry is lent once more and no other is. |
| `Resources.HandleTable.Unlend` | internal/instance/resource.go:603-615 | While the table is open a loan that is owed is released: the handle still names the entry that was lent, which is lent once less, and no other is. |
| `Resources.HandleTable.Close` | internal/instance/resource.go:291-316 | The table is emptied, each live owned entry with a host destructor is destroyed exactly once even when some fail, the first failure is reported, and a second close does nothing. |
| `LedgerFacts.AddedSound` | internal/instance/resource.go:269-285 | Minting keeps the invariant: the handle is fresh, live handles and free indices partition [1, next), and each entry has one fate. |
| `LedgerFacts.AddWraps` | internal/instance/resource.go:269-285 | When all 2^32 - 1 indices are live the counter wraps, and the partition is lost. |
| `LedgerFacts.WrongTypeRefused` | internal/instance/resource.go:383-405 | For a handle whose entry is of another type, reading, taking, dropping, lending and releasing all fail, and leave the table as it was. |
| `LedgerFacts.ReleaseReaches` | internal/instance/resource.go:603-615 | While the table is open a loan that is owed still names the entry that was lent. |
| `LedgerFacts.ScopeCounts` | internal/instance/resource.go:372-378 | While the table is open a scope counts something exactly when a live handle carries it. |
| `LedgerRuns.RunKeeps` | internal/instance/resource.go:269-615 | Over any run of operations, calls and drops with destructors the invariant holds, the loans owed at the end are those owed before, and a fate once met is final. |
| `LedgerRuns.CalleeDone` | internal/instance/host_import.go:735-744 | Whatever the callee did, the releases end exactly the loans of the call, each at the entry that was lent. |
| `LedgerLoans.LiftedExact` | internal/instance/host_import.go:943-984 | What the lifting of arguments makes of the table: it succeeds if and only if no argument fails, judged by the arguments and the table before the call, and it has lent the borrows before the first failure. |
| `LedgerLoans.LeakedIff` | internal/instance/host_import.go:735-744 | For every run and every loan: the run leaves the loan behind if and only if some wrapper in it, at whatever depth, made it and then failed to lift a later argument. |
| `LedgerLoans.RestoredIff` | internal/instance/host_import.go:735-744 | A run leaves no loan behind if and only if no lifting in it fails after a lend. |
| `LedgerLoans.LendsChange` | internal/instance/host_import.go:735-744 | The lend count of an entry that outlives a run grows by exactly its loans that the run leaves behind. |
| `LedgerLoans.LendThenTakeSticks` | internal/instance/host_import.go:969-975 | In every table, for every handle that can be taken: passed as a borrow and then as an own, it is lent, the take fails, and it can be neither taken nor dropped any more. |
| `LedgerLoans.StuckForever` | internal/instance/resource.go:427-480 | An entry with a loan left behind stays live, lent, untakeable and undroppable over any run, until the table is closed. |
| `LedgerLoans.DropLosesIff` | internal/instance/resource.go:528-567 | A drop with a destructor loses a loan if and only if the run of the destructor loses one, or leaves behind a loan of the very entry being dropped and comes back without an error with the table open. |
| `LedgerLoans.DestructorLosesLoan` | internal/instance/resource.go:551-566 | In every table, a destructor that passes its own handle as a borrow and then as an own makes the drop lose the loan. |
| `LedgerLoans.TrapsIff` | internal/instance/graph.go:1074-1084 | While the table is open a delegated call traps if and only if it has a borrowed parameter, its callee came back without an error, and a borrow of the call is still live. |
| `LedgerLoans.ScopeIsTheCalls` | internal/instance/graph.go:1056-1073 | The handles that carry the scope of the call are those minted for its parameters: none from before, none that the callee mints. |
| `LedgerLoans.BorrowsMinted` | internal/instance/graph.go:1056-1073 | Each borrowed parameter gets a live borrow of its own representation in the scope of the call. |
| `LedgerLoans.OwnsMinted` | internal/instance/graph.go:1056-1073 | Each owned parameter gets a live own of its own representation, outside of the scope and not lent. |
| `Calls.LiftArgs` | internal/instance/host_import.go:943-984 | The loop lifts exactly as far as the first argument that fails, and remembers exactly what it lent. |
| `Calls.LiftArg` | internal/instance/host_import.go:943-984 | An owned argument is taken out of the table, exactly if it is a live unlent own of the type; a borrowed one is lent once and remembered, exactly if it is live and of the type; nothing else changes. |
| `Calls.Release` | internal/instance/host_import.go:735-744 | Each deferred release reaches the very entry that was lent, whatever happened to the table in between, and only those loans end. |
| `Calls.RunHostCall` | internal/instance/host_import.go:637-818 | Over any callee, however nested, the call makes of the table what the ledger says; it gets past lifting if and only if every argument can be lifted. |
| `Calls.RunDelegated` | internal/instance/graph.go:1046-1097 | The delegate makes of the callee's table what the ledger says, and traps exactly when its callee came back and its scope still counts a borrow. |
| `Calls.Perform` | internal/instance/resource.go:269-615 | Any run of operations, calls and drops with destructors keeps the invariant and every fate, owes at its end exactly the loans it owed before, and leaves a loan behind if and only if some lifting in it fails after a lend. |
| `Calls.DropOwnedWithDtor` | internal/instance/resource.go:528-567 | With a destructor that does anything, the handle is consumed if and only if it was an unlent owning resource, the destructor did not fail, and the handle still names the same entry; the rest is what the ledger says. |
| `PendingCalls.Instance.QueueExternal` | internal/instance/callasync.go:42-57 | A completion is accepted exactly when a call is pending and its handle is open; it goes to the end of the mailbox and wakes the sleeper. |
| `PendingCalls.Instance.NewHandle` | internal/instance/callasync.go:97-105 | A handle made while a call is pending is registered with that call, and one made while none is with no call. |
| `PendingCalls.Instance.Start` | internal/instance/callasync.go:135-184 | A call starts exactly when the lease is free: it is then the pending call, open, with the lease and a driver, with no handle registered and an empty mailbox; otherwise nothing changes. |
| `PendingCalls.Instance.DrainTake` | internal/instance/callasync.go:83-95 | The driver takes the whole mailbox, in order. |
| `PendingCalls.Instance.ApplyNext` | internal/instance/callasync.go:64-79 | The next completion of the batch is applied, once. |
| `PendingCalls.Instance.Finish` | internal/instance/callasync.go:246-266 | The result is fixed once, done is closed once, the mailbox is emptied and every registered handle is applied or closed. |
| `PendingCalls.Instance.ReleaseLease` | internal/instance/callasync.go:268-276 | The execution lease of a finished call is released once. |
| `PendingCalls.Instance.AwaitClaim` | internal/instance/callasync.go:281-339 | Await becomes the driver of an open call exactly when nobody is, and passes by a call that is over. |
| `PendingCalls.Instance.Check` | internal/instance/callasync.go:308-330 | A driver sleeps only on an empty mailbox, and gives up exactly on a done context or a requested cancel. |
| `PendingCalls.Instance.Cancel` | internal/instance/callasync.go:344-373 | For an open call the request is set and every sleeper woken; when nobody drives the call the canceller does, to finish it; a call that is over is left alone. |
| `PendingCalls.Run` | internal/instance/callasync.go:135-373 | Over every interleaving of any number of goroutines the invariant holds, results stay fixed, histories only grow, and handles stay registered as they were. |
| `PendingCalls.Safety` | internal/instance/callasync.go:186-276 | At most one driver; done closed and lease released at most once; accepted completions are applied, in flight and in the mailbox, in order; after the end the mailbox is empty and no registered handle is open. |
| `PendingCalls.AppliedAtMostOnce` | internal/instance/callasync.go:64-79 | Each registered handle is applied at most once, and only by the call that accepted it. |
| `PendingCalls.SleeperWakes` | internal/instance/callasync.go:308-330 | A driver never sleeps with a completion in the mailbox and no wake pending. |
| `PendingCalls.HandleStays` | internal/instance/callasync.go:97-105 | Whatever happens after a handle is made: a call that accepts its completion is the one that was pending then if and only if one was pending then. |
| `PendingCalls.StrayHandleTaken` | internal/instance/callasync.go:42-57 | A handle made for no call and not resolved yet is taken by whatever call starts next. |
| `PendingCalls.StaleHandleEnters` | internal/instance/async_host_import.go:87-104 | A run: a synchronous call makes a handle, leaves it unresolved and returns; the next asynchronous call accepts its completion. |
| `Pumping.PumpPending` | internal/instance/callasync.go:212-243 | The pump leaves a call parked only when the scheduler is quiescent and the task is not done; otherwise the call is over, with its result and its lease given back, whatever other goroutines do meanwhile. |
| `Scheduler.Sched.Step` | internal/instance/sched.go:106-132 | Runs the oldest queued thunk; with an empty queue resumes a parked task that is ready while no task parked before it is; reports no work exactly when the queue is empty and no parked task is ready. |
| `Scheduler.Sched.DriveToQuiescence` | internal/instance/sched.go:157-170 | Parked means: at the last look the queue was empty, no parked task was ready and the call was not done; at every step of the history the oldest thunk ran, or with an empty queue the ready task that parked first; the first failure ends it. |
| `Scheduler.Sched.Drive` | internal/instance/sched.go:138-148 | A deadlock is reported exactly at quiescence with the predicate still false. |
| `Scheduler.Sched.PumpQueued` | internal/instance/sched.go:202-207 | Every step of the first half of a round is the oldest thunk, or with an empty queue the first ready task; the half runs exactly the thunks queued at its beginning, in order, if and only if each of them leaves the next one at the head of the queue and none fails. |
| `Scheduler.AppendingKeepsOrder` | internal/instance/sched.go:202-207 | Thunks that only append keep that order. |
| `Scheduler.Sched.ResumeReady` | internal/instance/sched.go:208-227 | Those resumed stand in the order of the given tasks, each parked and ready when those before it have run; any other of them was not parked or not ready at its turn; the first failure ends it. |
| `Scheduler.ReadyInOrder` | internal/instance/sched.go:208-213 | The tasks to be resumed are exactly the parked tasks that are ready, in the order they parked. |
| `Scheduler.EachResumedOnce` | internal/instance/sched.go:208-227 | No task is resumed twice in the second half of a round. |
| `Scheduler.PassedOver` | internal/instance/sched.go:214-221 | A task is passed over only because it was not parked or not ready when its turn came. |
| `Scheduler.Sched.PumpSnapshot` | internal/instance/sched.go:202-229 | A round is the queued thunks and then each task that is ready after them, once and in order, if and only if no thunk displaces the next and every such task stays parked and ready until its turn; in any case it is a schedule followed by such turns. |
| `Scheduler.MadeReadyByThunk` | internal/instance/sched.go:195-213 | A task that was not ready when the round began is resumed in it when a thunk makes it ready. |
| `Scheduler.NestedDriveOvertakes` | internal/instance/sched.go:195-207 | When a thunk empties the queue itself, the round resumes a parked task in place of a queued thunk, and the same task again in its second half. |
| `Baton.Runtime.ParkAtEntry` | internal/instance/stackful_task.go:92-100 | A task that cannot enter is parked without a goroutine. |
| `Baton.Runtime.Start` | internal/instance/stackful_task.go:102-109 | A task that can enter runs on a goroutine of its own, or here when it is not promoted. |
| `Baton.Runtime.DeliverResume` | internal/instance/stackful_task.go:326-336 | The baton goes to the goroutine of the task, and the sender waits for it. |
| `Baton.Runtime.Block` | internal/instance/stackful_task.go:259-274 | The task is parked with its frames before the baton goes back. |
| `Baton.Runtime.DeliverYield` | internal/instance/stackful_task.go:326-336 | A handoff returns exactly when its goroutine is over or its task is parked again with its frames; the one goroutine that waited for it runs. |
| `Baton.Runtime.Unpark` | internal/instance/sched.go:94-101 | The first place of the task is cut out of the parked list, and all others stay in order. |
| `Baton.Runtime.Resume` | internal/instance/stackful_task.go:296-323 | Blocked tasks get the baton on their own goroutine, others run on a new one or here, and one cancelled before it entered never runs. |
| `Baton.Runtime.ParkFree` | internal/instance/guest_task.go:415-452 | A segment ends with its task parked without a goroutine. |
| `Baton.Runtime.Reap` | internal/instance/stackful_task.go:354-431 | Called by any running goroutine: every goroutine that waits for its task to be resumed is gone, all others are where they were, and of the parked tasks those remain, in order, that held no goroutine and are not stackful; called by the driver it leaves the driver alone. |
| `Baton.Step` | internal/instance/stackful_task.go:259-336 | Every step keeps the invariant, and a handoff returns at no other step than the yield of its own task. |
| `Baton.Run` | internal/instance/stackful_task.go:92-431 | The invariant holds over every run. |
| `Baton.OneRuns` | internal/instance/stackful_task.go:102-125 | In every reachable state at most one goroutine runs, and a task that waits inside a handoff is not parked. |
| `Baton.NeverStuck` | internal/instance/stackful_task.go:326-336 | Some goroutine runs, or a rendezvous is ready on both sides. |
| `Leb128.ParseEncode` | internal/leb128/leb128.go:64-93 | What is encoded is read back and nothing behind it is touched, for every number that fits. |
| `Leb128.EncodeUint32` | internal/leb128/leb128.go:67-93 | The loop writes the shortest encoding. |
| `Leb128.LoadUint32` | internal/leb128/leb128.go:123-142 | The loop reads what the grammar reads, at most five bytes with four bits in the fifth, or fails exactly when the grammar has no reading. |
| `Leb128.EncodeDigits` | internal/leb128/leb128.go:67-93 | Byte i holds digit i to the base 128, the lowest first; all bytes but the last are marked, and there is no digit too many. |
| `Leb128.ParseDigits` | internal/leb128/leb128.go:123-142 | What is read is the number of the digits in front, up to the first byte that is not marked. |
| `Leb128.ParseRefused` | internal/leb128/leb128.go:123-142 | Nothing is read exactly when no unmarked byte comes in time or the fifth byte is unmarked and 16 or more. |
| `Wasm.ModuleRoundTrip` | internal/instance/importrewrite.go:41-83 | A module that is written out is parsed back, import section and other sections alike. |
| `Wasm.DescLenLocal` | internal/instance/importrewrite.go:153-203 | An import descriptor can be cut out and put in front of any bytes. |
| `Wasm.ImportLayout` | internal/instance/importrewrite.go:88-128 | An import is the length and the bytes of its module name, those of its field name, and its descriptor. |
| `Wasm.SectionLayout` | internal/instance/importrewrite.go:48-75 | A section is its number, its length and its body; number 2 holds imports. |
| `Wasm.DescLayout` | internal/instance/importrewrite.go:153-203 | The bytes of a well-formed descriptor, for functions, tables, memories and globals, with both forms of limits. |
| `Rewrite.SkipImportDesc` | internal/instance/importrewrite.go:153-203 | Skips exactly one well-formed descriptor. |
| `Rewrite.ReadCoreWasmName` | internal/instance/importrewrite.go:134-145 | The name and the offset behind it, exactly when there is one. |
| `Rewrite.RewriteImportSectionBody` | internal/instance/importrewrite.go:88-128 | The section parses to as many imports as before; each has its field name and descriptor unchanged, and the new module name exactly where the old one was empty. |
| `Rewrite.RewriteEmptyImportModuleName` | internal/instance/importrewrite.go:41-83 | For every well-formed module with plain limits, as long as the new sizes fit 32 bits: the result parses to as many sections, every section other than imports byte for byte the same, and imports with field names and descriptors unchanged and the new module name exactly where the old one was empty; changed is true exactly when "" was imported. |
| `Rewrite.RewritePreservesMeaning` | internal/instance/importrewrite.go:41-83 | The rewritten bytes parse; section by section and import by import only an empty module name differs from the original, and is the new name; a second rewrite changes no byte. |
| `Shim.BuildPassthroughShim` | internal/instance/shim.go:137-233 | Refused exactly when there is nothing to export or an item is unusable; otherwise the bytes of the module that the items describe. |
| `Shim.ShimParses` | internal/instance/shim.go:137-273 | The bytes parse back to the imports, function types and exports of the items. |
| `Shim.PassthroughIs` | internal/instance/shim.go:137-273 | The preamble; sections 1, 2 and 7; import i under the two names that item i comes from, with the descriptor of its sort; export i under its own name with the number of its sort. |
| `Shim.ExportsNameOwnImports` | internal/instance/shim.go:146-217 | The index of each export, looked up in the index space of its sort, is its own import, and a function import has its own type. |
| `IndexSpaces.DecodeComponent` | internal/binary/decoder.go:190-370 | After any sequence of sections each index space is the one that the definitions in file order have, each definition in the space of its own sort, a lift among the functions and a lower among the core functions; a second start section or an unsupported one is refused. |
| `IndexSpaces.Component.AddAliases` | internal/binary/decoder.go:233-267 | Aliases take slots in the space of their sort, in order. |
| `IndexSpaces.Component.AddExports` | internal/binary/decoder.go:348-370 | Every export adds an alias to the space of its sort. |
| `IndexSpaces.HasSlot` | internal/binary/decoder.go:217-370 | A producing definition has the slot whose number is how many producing definitions precede it in the file, and the slot leads back to it. |
| `IndexSpaces.SlotHas` | internal/binary/decoder.go:217-370 | Every slot belongs to a producing definition. |
| `IndexSpaces.SlotsDiffer` | internal/binary/decoder.go:217-370 | No two slots name the same definition. |
| `IndexSpaces.AllLanded` | internal/binary/decoder.go:217-370 | Which space each definition lands in: types, instances, lifts and lowers, and aliases, imports and exports by the sort they name. |
| `Resolving.ResolvesToFixedPoint` | internal/binary/typespace.go:113-202 | If a type index resolves, its resource index is a fixed point that resolves to the same descriptor. |
| `Resolving.ReducedIffNoInlineAlias` | internal/binary/typespace.go:98-202 | The resource index is the index of the definition if and only if no alias of an instance export lies on the way there. |
| `Resolving.SameIndexIff` | internal/binary/typespace.go:98-202 | Two indices of one definition have one resource index if and only if they have the same first alias of an instance export on the way, or none. |
| `Resolving.DecodedTypeAliases` | internal/binary/decoder.go:233-267 | In every decoded component the aliases in the type space are aliases of types, as those results assume. |
| `Resolving.InlineAliasKeepsItsIndex` | internal/binary/typespace.go:98-138 | A decoded file in which two indices of one definition have two resource indices. |
| `Resolving.ShallowerSame` | internal/binary/typespace.go:140-202 | The depth limit changes no answer that was reached within it. |
| `Resolving.ResolvesAlong` | internal/binary/typespace.go:140-202 | A type index resolves to a descriptor if and only if a chain of at most 32 links leads from it to the definition: imports by their bound, exports, aliases within the component, and the first type of its name that an instance exports. |
| `Resolving.FindTypeIs` | internal/binary/typespace.go:98-138 | The first type of that name among the exports of an instance. |
| `Resolving.ResolveComponentInstance` | internal/binary/componentinstancespace.go:79-101 | Follows at most 64 exports to a definition. |
| `Resolving.InstanceAlong` | internal/binary/componentinstancespace.go:79-101 | An instance index resolves to a definition if and only if a chain of exports, of at most 64 slots, leads from it to the definition. |
| `Resolving.ComponentInstanceSpaceIndices` | internal/instance/graph.go:2245-2263 | The slots of the definitions, which `ComponentInstanceDef` takes back to them, for decoded components and for hand-built ones. |
| `Resolving.DecodedSlots` | internal/binary/decoder.go:217-231 | The instance space of a decoded component has exactly one slot for each definition. |

## Left out

- Storing.Allocator.Grow: the guest's allocator is a tape of replies; what it writes inside or outside its block, and memory that grows during a call, are not modelled.
- Layout.CeilLog256Least: the source takes a floating-point logarithm; the model takes the exact one.
- Layout.Alignment: types are trees here, so a primitive that is reached through a type index counts as inline in the depth check, and a list that contains its own type has no tree; `TypeTable` has the indices.
- TypeTable.TreeWithin: what a list holds is not unfolded, because layout and flattening do not look at it.
- Storing.StoreTop: for a memory of exactly 2^32 bytes a failure may come from an inner check.
- Params.LowerParams: the translation of resource handles inside arguments is in `Ledger` and `Calls`, on abstract arguments, not on values.
- Relay.RelayedIff: a handle is a number here, although the delegate translates it between the two hops.
- Params.LiftHostArgs: a stack shorter than the signature is only said to be refused.
- PendingCalls.Instance.Start: publishing the call and claiming the driver role is one step; between the two the code can be seen by a concurrent close.
- PendingCalls.Instance.SyncAcquire: a synchronous call is its lease only.
- PendingCalls.Instance.Cancel: safety only; that a cancel which waits for another driver ends is not claimed.
- Pumping.PumpPending: handles that the driver makes, and the drain of an import wrapper, while it drives are steps of `PendingCalls.Run`, not of this loop.
- Scheduler.Sched.Step: `pumping` is only said to be false after a step, since a nested step clears it.
- Baton.Runtime.DeliverResume: an aborted goroutine goes straight to its final yield; what a finish callback does while it unwinds is not modelled. Spawned guest threads are not part of this model.
- Calls.RunHostCall: asynchronous lenders and non-resource entries of the table do not occur.
- Calls.RunDelegated: a parameter whose handle cannot be minted because its value is no handle does not occur.
- LedgerRuns.RunKeeps: fewer than 2^32 - 1 handles are minted in all, or the table is closed; `LedgerFacts.AddWraps` has the case after that.
- Rewrite.RewriteEmptyImportModuleName: for malformed modules only that it stops; the code lets trailing bytes of an import section fall away, and a global cut short by the end of its section makes it read on or panic.
- Shim.BuildPassthroughShim: fewer than 2^32 items, as its counters have 32 bits.
- IndexSpaces.DecodeComponent: sections are lists of decoded definitions; the byte-level parsing of each section and nested components are not modelled.
- Names that are checked to be UTF-8 by others, error texts, pools and caches.
- String encodings other than UTF-8, streams, futures, subtasks, waitable sets and their events.
- Graph instantiation, plugin and engine wrappers.
- Liveness and fairness of any kind.
