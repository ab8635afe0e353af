# Merge join, JSON writer and batch triples, in Dafny

This project models three sequential pieces of a knowledge-graph engine and
proves properties of them.

- **The RDF-3X sort-merge join** (`MergeJoin`, `MergeJoinProofs`,
  `MergeJoinTermination`).
  - It joins two child operators whose tuples are sorted by a join key and
    carry a multiplicity. Either side may be optional, which gives an outer
    join.
  - Output comes through the pull protocol `first()`/`next()`. The state
    machine is driven by `scanState`.
  - Each side has one shadow row, used to look one tuple ahead and to put it
    back.
  - A spool buffer holds the right-hand duplicate run of an n:m match.
  - `observedOutputCardinality` counts the tuples returned.
  - A child is a sequence of rows plus a cursor. The registers are the
    `lcur`/`rcur` rows of the state.
  - One iteration of the `while (true)` loop of `next()` is the pure function
    `Step`. `Next` iterates it within a step budget.
- **The JSON writer** (`JsonWriter`). `escape_json` writes quotes, backslashes
  and control characters as `\u00XX`. `JSON::write` prints a value as an
  array of objects, an array of strings or an object, and throws 10 when a
  value mixes these kinds.
- **Batch triples for embedding training** (`BatchCodec`, `Batch`).
  - The batch file is a sequence of 15-byte records. Each record holds the
    subject, predicate and object as 5-byte little-endian values, and readers
    mask them to 40 bits.
  - `loadTriples` reads the file. `_pso` orders records.
  - `populateCoordinates` builds the per-predicate running boundaries.
    `KBBatch::getAt` uses them to map a global position to a table row.
  - The two `getBatch` overloads walk the shuffled index array.

`Base` holds `uint64_t` wrap-around arithmetic (`Mul64`, `Add64`) and the
`Option`/`Result` datatypes.

The code writes the "absent" sentinel as `~0u`, which is 0xFFFF_FFFF stored
into a 64-bit register. The code then recognises a padded register by comparing
it with the same constant (`== ~0u` at rdf3x/src/rts/MergeJoin.cpp:215 and 237,
`!= ~0u` at lines 320, 364, 395, 429, 473 and 498). It also compares a padded
key against the other side's real key at lines 213-253, where the padded side
must compare above. Both uses need a value above every 64-bit key, and only the
all-ones 64-bit value is that. The model keeps the sentinel a configuration
field: `MergeJoin.NarrowSentinel` is the value the code stores, and
`Base.MaxU64` is the corrected one (see Findings).

The join also carries the flag `restoreShadow`. It selects how an optional side
that runs out is handled while a tuple of the other side is still owed. That
tuple is either the next one waiting in its shadow register or, at the end of
a spooled block whose right child ran out, the bound left tuple. With `false`
the model follows the code, which pulls past that tuple and never emits it
(see Findings). With `true` the tuple is emitted unmatched first. The general results about the join (the accounting, the run
invariant and termination) are proved for both settings.

## Model

| member | source | states |
|---|---|---|
| Base.Mul64 | rdf3x/src/rts/MergeJoin.cpp:264 | the `uint64_t` product of two counts is their exact product when that is below 2^64, and 0 when either count is 0 |
| Base.Add64 | rdf3x/src/rts/MergeJoin.cpp:265 | `observedOutputCardinality += count` is the exact sum below 2^64, and adding 0 changes nothing |
| MergeJoin.Drain | rdf3x/src/rts/MergeJoin.cpp:336 | `while (right->next()) ;` reads forward from the cursor, never past the end of the rows and never changing them. Every row it passes before the last one it reads is a real tuple, and it stops at the end of the rows or just past the first zero count. The count register is left as it was |
| MergeJoin.PullLeft | rdf3x/src/rts/MergeJoin.cpp:183 | `left->next()` binds the next left row and advances the cursor by one. On an exhausted child it sets the count to 0 and keeps the key, the tail and the cursor. Only the left child and the left registers change |
| MergeJoin.PullRight | rdf3x/src/rts/MergeJoin.cpp:198 | mirror of PullLeft for `right->next()` |
| MergeJoin.DrainLeft | rdf3x/src/rts/MergeJoin.cpp:378-381 | without `disableSkipping` nothing changes. With it, a left child of real tuples is read to its end, forward only, and only the left child and its registers change |
| MergeJoin.DrainRight | rdf3x/src/rts/MergeJoin.cpp:334-337 | mirror of DrainLeft, for the right child |
| MergeJoin.AdvanceLeft | rdf3x/src/rts/MergeJoin.cpp:179-193 | in scanStepLeft and scanStepBoth, an exhausted non-optional left side makes `next()` return a silent 0, with the state, the counter and the right side unchanged. Otherwise it falls through to stepping right and comparing, with their accounting |
| MergeJoin.AdvanceRight | rdf3x/src/rts/MergeJoin.cpp:194-208 | in scanStepRight and scanStepBoth, an exhausted non-optional right side makes `next()` return a silent 0, with the state, the counter and the left side unchanged. Otherwise it falls through to the comparison, with its accounting |
| MergeJoin.Compare | rdf3x/src/rts/MergeJoin.cpp:209-257 | each unmatched emission returns the bound count of one side with the other side's key at the sentinel, and adds it to the observed cardinality |
| MergeJoin.Match | rdf3x/src/rts/MergeJoin.cpp:258-302 | every emission of the match branch returns `leftCount*rightCount` of the tuples bound after the look-ahead, and the cardinality grows by exactly that |
| MergeJoin.HandleNM | rdf3x/src/rts/MergeJoin.cpp:114-157 | spooling never touches the left child, the counter or the configuration, and never moves the right cursor back |
| MergeJoin.SpoolRight | rdf3x/src/rts/MergeJoin.cpp:126-156 | the spooling loop after its first record keeps the same frame as HandleNM |
| MergeJoin.EmptyLeft | rdf3x/src/rts/MergeJoin.cpp:303-341 | with the left side exhausted, a return is a matched product, an unmatched right count against a left key at the sentinel, or the silent end |
| MergeJoin.EmptyRight | rdf3x/src/rts/MergeJoin.cpp:342-352 | mirror of EmptyLeft, up to the shared comparison |
| MergeJoin.EmptyRightCompare | rdf3x/src/rts/MergeJoin.cpp:353-385 | the comparison of `loopEmptyRight`, with the same accounting as EmptyLeft |
| MergeJoin.EqualLeft | rdf3x/src/rts/MergeJoin.cpp:386-410 | walking a left duplicate run returns only matched products or nothing |
| MergeJoin.EqualLeftBlock | rdf3x/src/rts/MergeJoin.cpp:411-419 | the end-of-block test continues without emitting, or emits the product |
| MergeJoin.EqualRight | rdf3x/src/rts/MergeJoin.cpp:420-444 | mirror of EqualLeft |
| MergeJoin.EqualRightBlock | rdf3x/src/rts/MergeJoin.cpp:445-453 | mirror of EqualLeftBlock |
| MergeJoin.Spooled | rdf3x/src/rts/MergeJoin.cpp:454-488 | the replay returns `leftCount` times the spooled count, or the silent end |
| MergeJoin.SpooledBlock | rdf3x/src/rts/MergeJoin.cpp:489-518 | a next left tuple with the block's key rewinds the replay. Otherwise the n:m case is left: as written this emits nothing but the silent end; corrected, a right-optional join whose right child ran out first returns the bound left tuple unmatched |
| MergeJoin.Step | rdf3x/src/rts/MergeJoin.cpp:163-520 | one loop iteration keeps configuration and child rows; continuing leaves the counter alone; returning adds the count, and the count is what its kind says (product, one side's count, or 0) |
| MergeJoin.Iterate | rdf3x/src/rts/MergeJoin.cpp:163 | running a loop body that keeps that accounting until it returns keeps it for the whole call |
| MergeJoin.Next | rdf3x/src/rts/MergeJoin.cpp:159-521 | every result of `next()` is a return: a matched emission returns `leftCount*rightCount` of the bound tuples, and the counter grows by exactly the count returned |
| MergeJoin.First | rdf3x/src/rts/MergeJoin.cpp:37-76 | the counter restarts at 0 and ends equal to the count returned; an empty non-optional left returns 0 without pulling the right; an empty optional left pads every left register and emits the first right count in `loopEmptyLeft`; the mirror for an empty optional right |
| MergeJoinProofs.ShadowSwapRestores | rdf3x/src/rts/MergeJoin.cpp:78-112 | swapping twice restores registers and shadow; a copy then a swap leaves the registers as they were |
| MergeJoinProofs.SmallerLeftKey | rdf3x/src/rts/MergeJoin.cpp:213-234 | with `l<r`: a non-optional right steps left silently; an optional right emits the left count against padded right registers, shadows the real right tuple, and the next iteration swaps it back and steps left |
| MergeJoinProofs.SmallerRightKey | rdf3x/src/rts/MergeJoin.cpp:235-256 | mirror of SmallerLeftKey for `l>r` |
| MergeJoinProofs.PadIsPadded | rdf3x/src/rts/MergeJoin.cpp:48-51 | padding sets the key and every tail register to the sentinel and keeps the count and the tail width |
| MergeJoinProofs.EmptyIsAbsorbing | rdf3x/src/rts/MergeJoin.cpp:165 | in `empty`, `next()` returns 0 and leaves the state unchanged |
| MergeJoinProofs.RunEnd | rdf3x/src/rts/MergeJoin.cpp:149-155 | the end of a key run: every row before it has the key, the row at it does not |
| MergeJoinProofs.SpoolRightOnRun | rdf3x/src/rts/MergeJoin.cpp:131-147 | a round on a row of the run appends the bound tuple and binds the next row |
| MergeJoinProofs.SpoolRightLast | rdf3x/src/rts/MergeJoin.cpp:142-155 | the last round appends the bound tuple and stops in `loopSpooledRightEmpty` at the child's end, otherwise in `loopSpooledRightHasData` |
| MergeJoinProofs.SpoolRightBuffer | rdf3x/src/rts/MergeJoin.cpp:126-156 | the spooling loop appends the bound tuple and then the rest of its key run |
| MergeJoinProofs.SpoolRightStops | rdf3x/src/rts/MergeJoin.cpp:142-155 | the spooling loop stops at the run's end, rewinds the replay cursor, and keeps the first row after the run in the shadow |
| MergeJoinProofs.SpoolRightCollectsRun | rdf3x/src/rts/MergeJoin.cpp:126-156 | the two lemmas above together |
| MergeJoinProofs.HandleNMSpoolsRun | rdf3x/src/rts/MergeJoin.cpp:114-157 | the buffer is the matched right tuple, the peeked one and the rest of their run, all with the match key; `bufferIter` is 0; the state is `loopSpooledRightEmpty` exactly when the right child ran out |
| MergeJoinProofs.ReplayEmitsProduct | rdf3x/src/rts/MergeJoin.cpp:457-464 | while records remain, each call binds the next record and returns `leftCount` times its count |
| MergeJoinProofs.ReplayRewinds | rdf3x/src/rts/MergeJoin.cpp:466-493 | at the spool's end, a next left tuple with the run's key rewinds the replay cursor |
| MergeJoinProofs.MatchKeepsRun | rdf3x/src/rts/MergeJoin.cpp:258-302 | the match branch keeps the run invariant and emits only on equal keys |
| MergeJoinProofs.CompareKeepsRun | rdf3x/src/rts/MergeJoin.cpp:209-257 | as MatchKeepsRun, for the whole comparison |
| MergeJoinProofs.AdvanceRightKeepsRun | rdf3x/src/rts/MergeJoin.cpp:194-208 | as MatchKeepsRun, after stepping right |
| MergeJoinProofs.AdvanceLeftKeepsRun | rdf3x/src/rts/MergeJoin.cpp:179-193 | as MatchKeepsRun, after stepping left |
| MergeJoinProofs.EmptyLeftKeepsRun | rdf3x/src/rts/MergeJoin.cpp:303-341 | a matched emission with the left side exhausted pairs equal keys |
| MergeJoinProofs.EmptyRightCompareKeepsRun | rdf3x/src/rts/MergeJoin.cpp:353-385 | mirror of EmptyLeftKeepsRun |
| MergeJoinProofs.EmptyRightKeepsRun | rdf3x/src/rts/MergeJoin.cpp:342-385 | mirror of EmptyLeftKeepsRun, with the pull |
| MergeJoinProofs.EqualLeftKeepsRun | rdf3x/src/rts/MergeJoin.cpp:386-419 | inside a left block every emission pairs equal keys |
| MergeJoinProofs.EqualRightKeepsRun | rdf3x/src/rts/MergeJoin.cpp:420-453 | mirror of EqualLeftKeepsRun |
| MergeJoinProofs.SpooledKeepsRun | rdf3x/src/rts/MergeJoin.cpp:454-518 | every replayed record has the key of the left tuple it is paired with |
| MergeJoinProofs.SpooledBlockKeepsRun | rdf3x/src/rts/MergeJoin.cpp:489-518 | rewinding keeps the spool's key, and leaving the n:m case needs nothing |
| MergeJoinProofs.StepKeepsRun | rdf3x/src/rts/MergeJoin.cpp:163-520 | every loop iteration keeps the inputs well formed and the run invariant, and a matched emission binds two tuples with the same key |
| MergeJoinProofs.IterateKeeps | rdf3x/src/rts/MergeJoin.cpp:163 | a loop body that keeps an invariant makes every returned outcome good |
| MergeJoinProofs.NextKeepsRun | rdf3x/src/rts/MergeJoin.cpp:159-521 | every matched emission of `next()` joins equal keys |
| MergeJoinProofs.Drive | rdf3x/src/rts/MergeJoin.cpp:159-521 | after n calls of `next()`: the n counts, their kinds and the registers each one bound. The counter is its start value plus every count returned, modulo 2^64 |
| MergeJoinProofs.Session | rdf3x/src/rts/MergeJoin.cpp:40 | after `first()` and n calls of `next()`: the n+1 returns, and the counter as the sum of every count returned since `first()` |
| MergeJoinProofs.LeftShadowReturned | rdf3x/src/rts/MergeJoin.cpp:393-402 | corrected: in `loopEqualLeft`, a left-optional join whose left child ran out returns the right tuple waiting in the right shadow, unmatched with its own count, against padded left registers, and goes on in scanStepRight |
| MergeJoinProofs.RightShadowReturned | rdf3x/src/rts/MergeJoin.cpp:427-436 | mirror of LeftShadowReturned in `loopEqualRight`, for the left shadow of a right-optional join |
| MergeJoinProofs.SpoolShadowReturned | rdf3x/src/rts/MergeJoin.cpp:471-480 | corrected: at the end of the replay, a left-optional join whose left child ran out returns the right tuple kept after the spooled run, unmatched, and goes on in `loopEmptyLeft` |
| MergeJoinProofs.SpoolEndReturned | rdf3x/src/rts/MergeJoin.cpp:494-505 | corrected: when the right child ran out during spooling and the next left tuple ends the block, a right-optional join returns that left tuple unmatched against padded right registers, and goes on in `loopEmptyRight` |
| MergeJoinExamples.FirstBindsBoth | rdf3x/src/rts/MergeJoin.cpp:37-76 | when both children have a first tuple, `first()` binds them and runs the scan loop from `scanHasBoth` |
| MergeJoinExamples.OneMatch | rdf3x/src/rts/MergeJoin.cpp:37-302 | keys 1, 2 against 2, 3 in an inner join: one match of multiplicity 1, then the end |
| MergeJoinExamples.Multiplied | rdf3x/src/rts/MergeJoin.cpp:258-302 | a key with count 3 on the left and 2 on the right: one match of multiplicity 6 |
| MergeJoinExamples.LeftRun | rdf3x/src/rts/MergeJoin.cpp:258-419 | a left run of two tuples against one right tuple: two matches, each binding the right tuple, then the end |
| MergeJoinExamples.Cross | rdf3x/src/rts/MergeJoin.cpp:114-518 | two runs of two tuples: the right run is spooled and replayed, giving the four pairs in left-major order |
| MergeJoinExamples.NoLeftRows | rdf3x/src/rts/MergeJoin.cpp:37-76 | an empty optional left: the right tuple is returned with its own count against padded left registers, then the end |
| MergeJoinExamples.Disjoint | rdf3x/src/rts/MergeJoin.cpp:209-257 | no common key in an inner join: `first()` returns 0 |
| MergeJoinExamples.LeftShadowLost | rdf3x/src/rts/MergeJoin.cpp:393-402 | as written, left optional, left keys 1, 1 and right keys 1, 2: two matches and then the end, with the right tuple of key 2 never returned |
| MergeJoinExamples.LeftShadowKept | rdf3x/src/rts/MergeJoin.cpp:393-402 | corrected, same input: two matches, the right tuple of key 2 unmatched, then the end |
| MergeJoinExamples.RightShadowLost | rdf3x/src/rts/MergeJoin.cpp:427-436 | as written, right optional, left keys 1, 2 and right keys 1, 1: two matches and then the end, with the left tuple of key 2 never returned |
| MergeJoinExamples.RightShadowKept | rdf3x/src/rts/MergeJoin.cpp:427-436 | corrected, same input: two matches, the left tuple of key 2 unmatched, then the end |
| MergeJoinExamples.SpoolShadowLost | rdf3x/src/rts/MergeJoin.cpp:471-480 | as written, left optional, left keys 1, 1 and right keys 1, 1, 2: four spooled matches and then the end, with the right tuple of key 2 never returned |
| MergeJoinExamples.SpoolShadowKept | rdf3x/src/rts/MergeJoin.cpp:471-480 | corrected, same input: the four matches, the right tuple of key 2 unmatched, then the end |
| MergeJoinExamples.SpoolEndLost | rdf3x/src/rts/MergeJoin.cpp:494-505 | as written, right optional, left keys 1, 1, 2 and right keys 1, 1: four spooled matches and then the end, with the left tuple of key 2 never returned |
| MergeJoinExamples.SpoolEndKept | rdf3x/src/rts/MergeJoin.cpp:494-505 | corrected, same input: the four matches, the left tuple of key 2 unmatched, then the end |
| MergeJoinTermination.DrainReads | rdf3x/src/rts/MergeJoin.cpp:334-337 | draining never increases the unread rows |
| MergeJoinTermination.MatchBound | rdf3x/src/rts/MergeJoin.cpp:258-302 | the match branch continues only after reading a row on each side |
| MergeJoinTermination.MatchStopsAtEnd | rdf3x/src/rts/MergeJoin.cpp:260-277 | the match branch returns when either child is exhausted |
| MergeJoinTermination.CompareBound | rdf3x/src/rts/MergeJoin.cpp:209-257 | a comparison that continues lowers the measure |
| MergeJoinTermination.CompareStopsOnPaddedEnd | rdf3x/src/rts/MergeJoin.cpp:213-253 | with a full-width padded, exhausted optional side the comparison always returns |
| MergeJoinTermination.AdvanceRightBound | rdf3x/src/rts/MergeJoin.cpp:194-208 | stepping right and comparing lowers the measure when it continues |
| MergeJoinTermination.AdvanceLeftBound | rdf3x/src/rts/MergeJoin.cpp:179-193 | stepping left, then right, then comparing lowers the measure when it continues |
| MergeJoinTermination.EmptyRightCompareBound | rdf3x/src/rts/MergeJoin.cpp:353-385 | the comparison of `loopEmptyRight` continues only into a lower state |
| MergeJoinTermination.SpooledBlockBound | rdf3x/src/rts/MergeJoin.cpp:489-518 | leaving or rewinding the replay reads nothing and lands on a lower-ranked state |
| MergeJoinTermination.SpooledBound | rdf3x/src/rts/MergeJoin.cpp:454-518 | a replay iteration that continues lowers the measure |
| MergeJoinTermination.ScanBound | rdf3x/src/rts/MergeJoin.cpp:166-302 | the scanning states lower the measure when they continue |
| MergeJoinTermination.EmptyBound | rdf3x/src/rts/MergeJoin.cpp:303-385 | the empty-side states lower the measure when they continue |
| MergeJoinTermination.EqualLeftBound | rdf3x/src/rts/MergeJoin.cpp:386-419 | a left-block iteration that continues lowers the measure |
| MergeJoinTermination.EqualRightBound | rdf3x/src/rts/MergeJoin.cpp:420-453 | mirror of EqualLeftBound |
| MergeJoinTermination.EqualBound | rdf3x/src/rts/MergeJoin.cpp:386-453 | the block states lower the measure when they continue |
| MergeJoinTermination.StepDecreases | rdf3x/src/rts/MergeJoin.cpp:163-520 | with the full-width sentinel, every loop iteration that does not return lowers six times the unread rows plus the state's rank |
| MergeJoinTermination.IterateMoreFuel | rdf3x/src/rts/MergeJoin.cpp:163 | a larger budget does not change a loop that already returned |
| MergeJoinTermination.NextMoreFuel | rdf3x/src/rts/MergeJoin.cpp:159-521 | the result of `next()` does not depend on the budget once it returns |
| MergeJoinTermination.IterateTerminates | rdf3x/src/rts/MergeJoin.cpp:163 | a loop whose body lowers a measure on each continuing iteration returns within measure + 1 iterations |
| MergeJoinTermination.NextTerminates | rdf3x/src/rts/MergeJoin.cpp:159-521 | with the full-width sentinel, `next()` returns within six iterations per unread row plus six |
| MergeJoinTermination.FirstTerminates | rdf3x/src/rts/MergeJoin.cpp:37-76 | with the full-width sentinel, `first()` returns within a budget fixed by the input sizes |
| MergeJoinTermination.StuckStateLoops | rdf3x/src/rts/MergeJoin.cpp:179-233 | with the narrow sentinel, the state reached after the left side ran out maps to itself, so no budget suffices |
| MergeJoinTermination.NextContinues | rdf3x/src/rts/MergeJoin.cpp:163 | an iteration that continues hands the rest of the budget on |
| MergeJoinTermination.WideKeyStarts | rdf3x/src/rts/MergeJoin.cpp:37-76 | on the example, `first()` binds both rows, and the first comparison steps left |
| MergeJoinTermination.NarrowPadsBelow | rdf3x/src/rts/MergeJoin.cpp:184-186 | as written, stepping left pads the left key to 0xFFFF_FFFF and reaches the stuck state |
| MergeJoinTermination.NoFuelNoReturn | rdf3x/src/rts/MergeJoin.cpp:163 | with no budget, `next()` has not returned |
| MergeJoinTermination.NarrowSentinelDiverges | rdf3x/src/rts/MergeJoin.cpp:184-186 | as written, `first()` on a left-optional join with a right key of 2^32 never returns, whatever the budget |
| MergeJoinTermination.FullPadsAbove | rdf3x/src/rts/MergeJoin.cpp:184-186 | with the full-width sentinel the padded left key is above the right key, and the right tuple is emitted |
| MergeJoinTermination.FullSentinelEmitsWideKey | rdf3x/src/rts/MergeJoin.cpp:235-241 | with the full-width sentinel the same input returns the right tuple once, unmatched |
| JsonWriter.HexDigit | src/trident/utils/json.cpp:10 | a digit is the lower-case character `0123456789abcdef` for its value, as `std::hex` prints it, and reads back as that value |
| JsonWriter.Hex4 | src/trident/utils/json.cpp:10 | the code of a byte as four zero-padded hex digits: two zeros, then the lower-case digits of the high and the low nibble, which read back as their values |
| JsonWriter.EscapeChar | src/trident/utils/json.cpp:8-13 | a quote, backslash or control character becomes `\u` followed by the four zero-padded lower-case hex digits of its code; anything else is copied |
| JsonWriter.EscapeCharQuotable | src/trident/utils/json.cpp:8-13 | the text written for one character holds no raw quote and no control character |
| JsonWriter.Escape | src/trident/utils/json.cpp:5-16 | the output is 5 characters longer per escaped character, and a string with nothing to escape is returned unchanged |
| JsonWriter.EscapeIsQuotable | src/trident/utils/json.cpp:8-13 | the escaped text holds no raw quote and no control character |
| JsonWriter.UnescapeChar | src/trident/utils/json.cpp:8-13 | each escaped character reads back as itself in front of any readable rest |
| JsonWriter.EscapeRoundTrip | src/trident/utils/json.cpp:5-16 | reading the escaped text back gives the input, so every character is copied in order or escaped |
| JsonWriter.EscapeInjective | src/trident/utils/json.cpp:5-16 | distinct strings have distinct escapes |
| JsonWriter.Write | src/trident/utils/json.cpp:18-66 | `write` throws 10 exactly when a value or a nested value mixes list children with anything else, or list values with pairs or named children; otherwise it produces the rendered text |
| JsonWriter.WriteSeparated | src/trident/utils/json.cpp:26-32 | the `first` flag loop puts one comma between neighbouring items and none elsewhere |
| JsonWriter.WriteAll | src/trident/utils/json.cpp:25-33 | the list children are written in order; the first one that throws makes the whole call throw 10 |
| JsonWriter.WriteNamed | src/trident/utils/json.cpp:57-63 | the named children are written as `"key" : <child>` in order; one that throws makes the call throw 10 |
| JsonWriter.EmptyIsObject | src/trident/utils/json.cpp:48-65 | an empty value is written `{}` |
| JsonWriter.PairObject | src/trident/utils/json.cpp:48-56 | a value holding one pair is written `{"key" : "value"}`, key and value escaped and quoted |
| JsonWriter.ListSingle | src/trident/utils/json.cpp:39-47 | a value holding one list string is written `["value"]`, escaped and quoted |
| JsonWriter.ListAppend | src/trident/utils/json.cpp:39-47 | appending a string to a non-empty list inserts `,"value"` before the closing bracket, so every list is a bracketed, comma-separated array of quoted strings |
| JsonWriter.PairForm | src/trident/utils/json.cpp:48-56 | example: the key `a"` and the value `b` are written `{"a\u0022" : "b"}` |
| JsonWriter.ListForm | src/trident/utils/json.cpp:39-47 | example: the list `x`, `y` is written `["x","y"]` |
| BatchCodec.EncodeLE | src/trident/ml/batch.cpp:75-89 | writing the first n bytes of a little-endian word gives exactly n bytes |
| BatchCodec.ReadLEBound | src/trident/ml/batch.cpp:247-252 | an n-byte little-endian value is below 256^n |
| BatchCodec.ReadLEAppend | src/trident/ml/batch.cpp:247-252 | the later bytes of a little-endian read are the higher digits |
| BatchCodec.ReadEncodeLE | src/trident/ml/batch.cpp:75-89 | reading back the low n bytes of a value gives the value modulo 256^n |
| BatchCodec.FieldWidth | src/trident/ml/batch.cpp:79 | five bytes hold exactly the values below 2^40 |
| BatchCodec.WideReadMasked | src/trident/ml/batch.cpp:177-182 | an 8-byte load masked with 0xFFFFFFFFFF equals a 5-byte load |
| BatchCodec.Field | src/trident/ml/batch.cpp:247-252 | every decoded value is below 2^40 |
| BatchCodec.EncodeTriple | src/trident/ml/batch.cpp:87-89 | one record is 15 bytes |
| BatchCodec.EncodeAll | src/trident/ml/batch.cpp:70-91 | the file for n index entries is 15n bytes |
| BatchCodec.FieldOfEncoded | src/trident/ml/batch.cpp:79 | a written field reads back as the value modulo 2^40 |
| BatchCodec.DecodeEncodeTriple | src/trident/ml/batch.cpp:75-89 | decoding a written record gives s, p and o back, each masked to 40 bits |
| BatchCodec.DecodeInSlot | src/trident/ml/batch.cpp:177-182 | decoding record i reads only bytes 15i to 15i+15 |
| BatchCodec.EncodeAllPrefix | src/trident/ml/batch.cpp:70-91 | the file written for a prefix of the scan is the matching prefix of the file |
| BatchCodec.SlotOfEncodeAll | src/trident/ml/batch.cpp:70-91 | record slot i of the file holds the record of scan entry i, written as (value2, key, value1) |
| BatchCodec.DecodeEncodeAll | src/trident/ml/batch.cpp:72-89 | the batch file round trip: record i of the file written for a POS scan decodes to entry i as (s, p, o), masked |
| BatchCodec.Flat | src/trident/ml/batch.cpp:253-255 | three values per triple |
| BatchCodec.FlatAt | src/trident/ml/batch.cpp:253-255 | triple k sits at positions 3k, 3k+1 and 3k+2 as s, p, o |
| BatchCodec.FlatSnoc | src/trident/ml/batch.cpp:253-255 | appending a triple appends its three values |
| BatchCodec.Records | src/trident/ml/batch.cpp:246-257 | one triple per whole record |
| BatchCodec.LoadTriples | src/trident/ml/batch.cpp:242-258 | `loadTriples` appends exactly s, p and o of each record, in file order, after what the output held |
| BatchCodec.MaskedFits | src/trident/ml/batch.cpp:248 | masking keeps a triple whose values are below 2^40 |
| BatchCodec.RecordOfEncoded | src/trident/ml/batch.cpp:72-89 | the loaded file has one record per scan entry, each the entry masked |
| BatchCodec.LoadOfEncoded | src/trident/ml/batch.cpp:72-89 | when every value is below 2^40, loading the written file gives back every scan entry exactly |
| BatchCodec.PsoIsLexicographic | src/trident/ml/batch.cpp:108-131 | `_pso` is the lexicographic order on (p, s, o), as an if-and-only-if |
| BatchCodec.PsoIrreflexive | src/trident/ml/batch.cpp:124-130 | no record is before itself |
| BatchCodec.PsoTransitive | src/trident/ml/batch.cpp:124-130 | the order is transitive |
| BatchCodec.PsoTotal | src/trident/ml/batch.cpp:124-130 | distinct triples are ordered one way or the other |
| Batch.RunningSumStep | src/trident/ml/batch.cpp:280 | one `current + card` step on `uint64_t` keeps `current` at the running sum modulo 2^64 |
| Batch.PopulateCoordinates | src/trident/ml/batch.cpp:266-330 | the call fails with 10 exactly when some predicate's table is unusable; otherwise it records every predicate in term-list order with the running sum of the cardinalities modulo 2^64 as its boundary, and that table's reader |
| Batch.LocateFrom | src/trident/ml/batch.cpp:338-341 | the search finds the first table at or after k whose boundary exceeds `pos`, or reports that none does |
| Batch.GetAt | src/trident/ml/batch.cpp:332-349 | the loop reads the first table whose boundary exceeds `pos`, at `pos` less the boundary skipped last, with `p` set to the table's predicate; with no such table the triple is left as it was |
| Batch.CardSumMono | src/trident/ml/batch.cpp:273-280 | running sums of cardinalities do not decrease |
| Batch.ExactWithoutOverflow | src/trident/ml/batch.cpp:273-280 | without overflow the recorded boundaries are the exact running sums, and they do not decrease |
| Batch.LocateFromFirst | src/trident/ml/batch.cpp:338-341 | the search stops at the first table whose boundary exceeds `pos` |
| Batch.LocatePartition | src/trident/ml/batch.cpp:332-349 | with exact boundaries, `getAt` picks table k exactly when `pos` lies between the cardinality sums of tables before k and up to k |
| Batch.LocatePastEnd | src/trident/ml/batch.cpp:338-343 | with exact boundaries, no table is found exactly when `pos` is at least the total cardinality |
| Batch.LocalRowInTable | src/trident/ml/batch.cpp:342-346 | the local position `getAt` reads is below the found table's cardinality, and adding the tables before gives `pos` back |
| Batch.LookupFromFile | src/trident/ml/batch.cpp:175-182 | from a batch file written by the POS scan, the triple read at a position is the scan entry its index names, as (s, p, o) masked to 40 bits |
| Batch.LookupFromKB | src/trident/ml/batch.cpp:332-349 | from the knowledge base with exact boundaries, the triple read for an index has the predicate of the table whose cardinality range holds the index, read at the index less the rows before that table. An index past every table leaves the caller's registers as they were |
| Batch.Kept | src/trident/ml/batch.cpp:186-191 | at most one triple is kept per examined index |
| Batch.KeptMono | src/trident/ml/batch.cpp:186-192 | examining more indices never keeps fewer triples |
| Batch.StopsUnique | src/trident/ml/batch.cpp:173 | where a call stops is fixed by the state and the acceptance test |
| Batch.Select | src/trident/ml/batch.cpp:173-193 | the loop stops at the end of the indices or as soon as the batch is full; it examines every index up to there, in order, and writes the accepted triples |
| Batch.GetBatch3 | src/trident/ml/batch.cpp:204-240 | three parallel outputs of at most `batchsize` kept triples, the cursor advanced past every examined index, true exactly when a triple was written |
| Batch.GetBatchFlatAsWritten | src/trident/ml/batch.cpp:169-198 | as written: output `3*i` values of the triples that pass `filter && accept`; with filter off it writes nothing, returns false and consumes every remaining index |
| Batch.GetBatchFlat | src/trident/ml/batch.cpp:169-198 | corrected: the flat output holds s, p, o of each kept triple, at most `3*batchsize` values, and is true exactly when a triple was written |
| Batch.FlatAsWrittenKeepsNothing | src/trident/ml/batch.cpp:186 | as written, the flat overload keeps nothing when filtering is off |
| Batch.UnfilteredKeepsAll | src/trident/ml/batch.cpp:226 | with filtering off every examined index is written, in order |
| Batch.UnfilteredBatchSize | src/trident/ml/batch.cpp:213-233 | with filtering off a call takes the next `batchsize` indices, or all that remain |
| Batch.OverloadsDisagree | src/trident/ml/batch.cpp:186 | on one unfiltered record, the three-vector overload keeps it and the flat one as written does not |

## Left out

- `print`, `addMergeHint` and `getAsyncInputCandidates` (rdf3x/src/rts/MergeJoin.cpp:523-550) are diagnostics and calls into a plan printer and scheduler. They are not modelled.
- The destructor (rdf3x/src/rts/MergeJoin.cpp:30-35) only frees the children. It is not modelled.
- rdf3x/include/rts/MergeJoin.hpp is not part of this model.
  - The order of the `scanState` enumeration lives there.
  - The two tests `scanState>scanHasBothSwapped` and `scanState>scanStepLeft` are modelled by the states that reach them: left steps in scanStepLeft and scanStepBoth, right steps in scanStepRight and scanStepBoth.
- A spool record is a flat run of `tail+2` words in the source. The model keeps it as a `Row`, one record per buffer element.
- `Operator::disableSkipping` is a configuration flag whose only effect is draining the other child.
- MergeJoin.Next: `next()` carries a step budget, because with the source's sentinel the loop can run forever (see Findings). `None` means the budget ran out.
- MergeJoin.Next: completeness in general is not proved. That would say every matching pair, and every unmatched tuple of the other side of an optional one, is returned exactly once. Only soundness is proved (MergeJoinProofs.NextKeepsRun: every matched emission joins equal keys), together with the concrete runs of `MergeJoinExamples`.
- Rows are not required to have as many tail values as the registers have tail registers. No contract depends on that width, and padding keeps whatever width a register has.
- The children's own behaviour is modelled by a row sequence and a cursor. A child returns 0 once exhausted and leaves its key and tail registers alone.
- rdf3x/include/rts/operator/GroupBy.hpp, src/client/main_params.cpp and src/trident/ml/tester.cpp are not modelled.
  - GroupBy.hpp is a declaration only.
  - main_params.cpp registers command-line options.
  - tester.cpp loads floating-point embeddings.
- `JSON::read`, `parse_json` and `parse_array` (src/trident/utils/json.cpp:68-134) wrap a foreign JSON parser. They are not modelled.
- JsonWriter.Write produces the whole text or the thrown code. Output already streamed before a nested value throws is not modelled.
- json.h is not part of this model.
  - Values and children are kept in iteration order as sequences.
  - Characters are sequences of `char`, one per byte of `std::string`.
  - Bytes 0x80 and above are copied unchanged, as the signed `char` test does.
- `createInputForBatch` is not modelled as a whole. BatchCodec.EncodeAll models only its training-file writes, for a POS scan given as a sequence.
  - The random validation and test split is left out.
  - `ofstream` and the knowledge-base scan are left out.
- `start` is not modelled: its memory mapping and `std::shuffle` are left out. The index array is a parameter. Every index must name a record of the file (Batch.Valid), but need not be a permutation.
- Batch.PopulateCoordinates takes the term list and each table's reader as given.
  - The reader is an abstract function of the local row.
  - An unusable table covers both throws: a missing `.idx` file and an unsupported storage layout.
  - The header decoding and reader factories are not modelled.
- The 8-byte unaligned loads at offsets 0, 5 and 10 read past the record. BatchCodec.DecodeRecord reads exactly five bytes, and BatchCodec.WideReadMasked shows that the mask makes the two agree.
- BatchCodec.LoadTriples requires a whole number of records. The source's loop steps 15 bytes past a trailing partial record, which would read beyond the mapping.
- Batch.GetAt: when no table covers `pos`, the source leaves `s`, `p`, `o` uninitialised. The model returns the caller's prior values (`unset` in `Batch.Source`).
- Batch.ExactWithoutOverflow: boundaries are `uint64_t` running sums that wrap. The partition lemmas are proved only for totals below 2^64.
- Batch.GetBatchFlat: requires `3*batchsize` below 2^64, so that the initial `resize` is the intended size.
- Batch.GetBatchFlatAsWritten: requires `3*batchsize` below 2^64, as Batch.GetBatchFlat does.
- `shouldBeUsed` asks an external feedback object. The model takes it as the function `accept` of `Batch.Creator`.

## Findings

| source | as written | input that shows it | evidently intended | confidence | as-written member | corrected member |
|---|---|---|---|---|---|---|
| rdf3x/src/rts/MergeJoin.cpp:184-186 | An exhausted optional side is padded with `~0u`, which is 0xFFFF_FFFF in a 64-bit register, and then compared with the other key (lines 213-233). | A left-optional, not right-optional join with left rows [key 5] and right rows [key 2^32]. After the match fails, stepping left pads the left key to 0xFFFF_FFFF, which is below 2^32. The comparison steps left again, and `first()` never returns. | The sentinel is the all-ones 64-bit value. A padded key then compares above every real key, and the unmatched right tuple is emitted. | not executed | MergeJoinTermination.NarrowSentinelDiverges | MergeJoinTermination.NextTerminates |
| rdf3x/src/rts/MergeJoin.cpp:393-402 | When the left side of a left-optional join runs out inside a left duplicate run (`loopEqualLeft`), the code pads the left registers and sets `scanStepRight`. That state pulls the right child first, so the right tuple waiting in `rightShadow` is skipped. The mirror at lines 427-436 loses the left shadow, and the replay at lines 471-480 loses the right tuple read after a spooled run, through `loopEmptyLeft` (lines 303-307). | A left-optional join with left keys [1, 1] and right keys [1, 2]. It returns 1×1 twice and then 0, and the right tuple with key 2 is never returned. | An optional side's outer join returns every tuple of the other side: the shadowed tuple is emitted unmatched before the scan resumes. | not executed | MergeJoinExamples.LeftShadowLost | MergeJoinProofs.LeftShadowReturned |
| rdf3x/src/rts/MergeJoin.cpp:494-505 | At the end of a spooled block whose right child ran out (`loopSpooledRightEmpty`), a next left tuple with a new key is already bound (line 468). A right-optional join pads the right registers and sets `loopEmptyRight`, whose first action (line 346) pulls the left child, so that bound left tuple is skipped. | A right-optional join with left keys [1, 1, 2] and right keys [1, 1]. It returns 1×1 four times and then 0, and the left tuple with key 2 is never returned. | The bound left tuple is emitted unmatched against padded right registers before `loopEmptyRight` pulls the next one. | not executed | MergeJoinExamples.SpoolEndLost | MergeJoinProofs.SpoolEndReturned |
| src/trident/ml/batch.cpp:186 | The flat `getBatch` writes a triple only when `filter && shouldBeUsed(s,p,o)`. | Filtering off, a batch file holding one record (1, 2, 3), and batch size 1. The three-vector overload returns that triple. The flat one writes nothing, returns false and consumes every index. | The same test as the three-vector overload at line 226: `!filter \|\| shouldBeUsed(s,p,o)`. | not executed | Batch.GetBatchFlatAsWritten | Batch.GetBatchFlat |

Each row has a corrected counterpart in the model:

- The merge join is parametrised by its sentinel. Its termination results (MergeJoinTermination.NextTerminates, MergeJoinTermination.FirstTerminates and MergeJoinTermination.FullSentinelEmitsWideKey) are proved for the full-width sentinel `Base.MaxU64`.
- The join is also parametrised by `restoreShadow`. MergeJoinExamples.LeftShadowLost, MergeJoinExamples.RightShadowLost, MergeJoinExamples.SpoolShadowLost and MergeJoinExamples.SpoolEndLost run the code as written. MergeJoinExamples.LeftShadowKept, MergeJoinExamples.RightShadowKept, MergeJoinExamples.SpoolShadowKept and MergeJoinExamples.SpoolEndKept run the same inputs corrected. All eight runs use the full-width sentinel, so the losses do not depend on the first row. MergeJoinProofs.LeftShadowReturned, MergeJoinProofs.RightShadowReturned, MergeJoinProofs.SpoolShadowReturned and MergeJoinProofs.SpoolEndReturned state the corrected step for every input.
- Batch.OverloadsDisagree exhibits the second row on the input given. Batch.GetBatchFlat uses the three-vector test.
