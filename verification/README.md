# A verified model of the MPI binding for Ruby

The extension lets Ruby programs send any object through MPI, which only knows buffers of bytes
whose size both sides must agree on beforehand. Most of it is thin wrapping. This project models
the parts that are algorithms of their own and proves what they promise:

- **The ring allgather** (`RingAllgather.dfy`, `RingCalls.dfy`). All ranks interleaved, step by
  step. The invariant is exact: a string that has come `k` hops ends in `k` zero bytes. The ring
  never blocks, always ends after the same number of steps, and gives every rank the same array. So
  does any sequence of calls, although fast ranks start the next one on the same tag while slow ones
  are still in the last.
- **Two-part framing** (`PointToPoint.dfy`, `Gather.dfy`, on `Transport.dfy` and `Frames.dfy`). An
  object is sent as a length and then its bytes. For any senders and wildcards no receive mixes two
  sends, objects arrive in order and none is lost; that is so exactly because the source is pinned.
  Gathers of different rounds and roots share one tag and do not mix.
- **Reduction by retry** (`Combine.dfy`, `Trees.dfy`, `Retry.dfy`, `Reductions.dfy`, on `Folds.dfy`
  and `Slots.dfy`). Objects sit in byte slots of one size. A combine whose result does not fit
  leaves its slot stale and asks for a bigger size, and the collective is run again. For any
  associative operation, any tree MPI picks in each pass and any order in which the flags are
  written, the loop ends, and every result is the fold of the ranks' arguments. `Minimum.dfy`
  does MIN and MINLOC, which never need a second pass, and says when their result depends on the
  order in which MPI combines the ranks.
- **Receive requests** (`Requests.dfy`, `WatchTable.dfy`). The polling thread and the user's `wait`,
  `waitall`, `test` and `cancel` drive one state machine over a growable table.
- **The table of user operations** (`OpTable.dfy`), **scatter, alltoall and broadcast** over strided
  buffers (`Collectives.dfy`), with who returns and who waits for ever when some ranks raise
  (`Entry.dfy`), and **the parallel computation of pi** (`Pi.dfy`).

`Marshal.dfy` is a small self-delimiting codec that stands in for Ruby's `Marshal`; what everything
else uses of it is that loading ignores what follows an encoding.

Each state machine is a pure `Next` on values, about which runs are proved. Beside it stands a class
or an array method that updates its fields in place, as the C code does, and is proved to take
exactly those steps.

MPI's own guarantees are taken from the standard: the non-overtaking rule (section 3.5 of MPI 1.1),
buffered sends that do not wait for their receiver, and the contracts of the collectives (sections
4.4 to 4.11), which a rank may leave as soon as the ranks it hears from have entered (section 4.1).
Which tree a reduction uses is left open, but for the rank order that section 4.9 promises for
operations that are not commutative.

## Model

| member | source | states |
|---|---|---|
| Marshal.LoadIgnoresPadding | src/mpi_comm.c:675-677 | loading an encoding followed by any bytes gives the object back, which every padded slot and every kept terminator relies on |
| Marshal.LoadExact | src/mpi_comm.c:1220-1221 | loading exactly the encoding gives the object back |
| Marshal.NatRoundTrip | src/mpi_comm.c:631-632 | the codec's variable-length numbers are self-delimiting, whatever follows them |
| Marshal.OneRoundTrip | src/mpi_comm.c:631-677 | every object decodes to itself and leaves exactly the bytes behind it |
| Marshal.ManyRoundTrip | src/mpi_comm.c:631-677 | so does every list of objects, nested to any depth |
| Transport.ReceiveOnTag | src/mpi_comm.c:668-673 | a receive on a tag takes that tag's oldest message and leaves the rest of the tag in order |
| Transport.ReceiveKeepsOthers | src/mpi_comm.c:1227-1263 | and leaves every other tag's messages as they were |
| Transport.NothingOnTag | src/mpi_comm.c:668-669 | a receive on a tag blocks exactly while the channel holds nothing of that tag |
| Frames.FirstMatchInRender | src/mpi_comm.c:668-673 | a receive finds the first part that its oldest matching object has left in the channel |
| Frames.TakeLastPart | src/mpi_comm.c:673-675 | taking the bytes of an object whose length is gone leaves the channel as if the object had never been in it |
| Frames.PostLast | src/mpi_comm.c:636-637 | the second message of a send completes the object last put into the channel |
| Frames.DeliverConserves | src/mpi_comm.c:673-678 | delivering the oldest object of a tag loses, doubles and reorders nothing within any tag |
| PointToPoint.TakeSizeKeepsLink | src/mpi_comm.c:668-670 | a receive that starts finds a length, of the oldest object its pattern can match, and from then on owns that object alone |
| PointToPoint.TakeDataKeepsLink | src/mpi_comm.c:672-677 | a receive that has a length finds the bytes of that same object, they fit, and they load to it |
| PointToPoint.DataBelongsToLength | src/mpi_comm.c:667-677 | in every state of the protocol the bytes a receive takes belong to the one send whose length it took and fill its buffer of length plus one exactly |
| PointToPoint.NextKeepsInv | src/mpi_comm.c:631-675 | every step of every rank keeps each channel a sequence of adjacent pairs, but for one half-sent and one half-received object |
| PointToPoint.FramingIsSafe | src/mpi_comm.c:653-675 | over all runs, any number of senders and any mix of wildcard sources and tags: no receive ever gets bytes for a length or a length for bytes, and the bytes it takes next are always those of the one object whose length it took |
| PointToPoint.ReceiveCanFinish | src/mpi_comm.c:670-674 | over all runs a receive that has a length finds its bytes in the channel, or its pinned sender is about to send them |
| PointToPoint.SendsAreCalls | src/mpi_comm.c:634-637 | over all runs each channel was given exactly the objects that the calls of `send` on its source named for its destination, tag by tag and in order; the right-hand side reads the calls only |
| PointToPoint.DeliveryInOrder | src/mpi_comm.c:610-679 | over all runs: what `recv` returned on a rank from a source on a tag is a prefix of what the calls of `send` on that source named for that rank, in order, and all of it once nothing is in flight |
| PointToPoint.SafeIffPinned | src/mpi_comm.c:670 | the framing is safe in every run of `n` ranks if and only if every receive pins its source or names it, or `n` is at most 1; a self-send and one other sender break it for every larger `n` |
| PointToPoint.Network.SendLength | src/mpi_comm.c:631-635 | the first half of `send` puts the dump's length under the tag at the end of the channel to `dest`, touches no other channel and no other rank, and keeps the protocol's invariant |
| PointToPoint.Network.SendBytes | src/mpi_comm.c:636-637 | the second half puts the terminated dump after it, in the same channel and no other |
| PointToPoint.Network.RecvLength | src/mpi_comm.c:667-670 | the first half of `recv` takes the first matching message, which is a length, out of the matched sender's channel and no other; it leaves the source pinned and the length in hand |
| PointToPoint.Network.RecvBytes | src/mpi_comm.c:672-678 | the second half takes the next matching message of the pinned sender, which is the terminated dump of the object it returns |
| Gather.TakeFinds | src/mpi_comm.c:1252-1267 | whatever the fast ranks have sent meanwhile, the root's next receive finds the part of the round it is in |
| Gather.NextKeepsInv | src/mpi_comm.c:1246-1292 | every step, of the gathers or of the user on other tags, keeps each channel's gather tag equal to what its sender has posted and its receiver not yet taken |
| Gather.RoundsDoNotMix | src/mpi_comm.c:1246-1293 | over all runs of any sequence of gathers with any roots: round `k` yields each rank's object of round `k` at that rank's index at the root, and nothing elsewhere |
| Gather.NeverStuck | src/mpi_comm.c:1252-1290 | until all ranks are through, some rank can take a step |
| Gather.RunsEnd | src/mpi_comm.c:1246-1293 | every run ends after the same number of gather steps in any order, and none is stuck before |
| Gather.Ranks.Send | src/mpi_comm.c:1279-1292 | a sender's step, in place, is the protocol's step |
| Gather.Ranks.Collect | src/mpi_comm.c:1249-1273 | one half turn of the root's loop, in place, is the protocol's step |
| Gather.Ranks.RunToEnd | src/mpi_comm.c:1228-1294 | taking any enabled step until none is left terminates, with all gathers done |
| Gather.GatherAll | src/mpi_comm.c:1228-1294 | every root gets every rank's object in rank order, in every round |
| RingAllgather.NextHop | src/mpi_comm.c:1351-1356 | one hop sends and stores one byte more than the string's length, so it appends exactly one zero byte |
| RingAllgather.LeftOfRight | src/mpi_comm.c:1332-1333 | the rank that `r` sends to receives from `r`, and the other way round |
| RingAllgather.NextKeepsInv | src/mpi_comm.c:1337-1360 | every step of any rank keeps the exact contents of all slots, wires and loop variables |
| RingAllgather.SlotContents | src/mpi_comm.c:1329-1362 | in every reachable state slot `(r - k) mod n` at rank `r` is empty, or holds that rank's dump followed by exactly `k` zero bytes; and every message exactly filled its buffer |
| RingAllgather.AtMostOneAhead | src/mpi_comm.c:1337-1360 | no rank ever completes more than one exchange more than its left neighbour |
| RingAllgather.NeverStuck | src/mpi_comm.c:1344-1354 | in every state that is not final some rank can step |
| RingAllgather.NextDoesWork | src/mpi_comm.c:1337-1360 | every step lowers the measure over the two-part exchanges by exactly one |
| RingAllgather.RunsEnd | src/mpi_comm.c:1337-1360 | every run that ends has exactly six steps for each of the `n(n - 1)` exchanges, and no run is longer or stuck before |
| RingAllgather.EveryRankHasEverything | src/mpi_comm.c:1329-1362 | at the end every rank decodes the same array, with the object of rank `i` at index `i` |
| RingAllgather.TrafficIsKept | src/mpi_comm.c:1306-1354 | over any run, messages under any other tag stay in the channels as they were |
| RingAllgather.Ring.DoSend | src/mpi_comm.c:1340-1354 | the sending half of either exchange, in place, is the protocol's step |
| RingAllgather.Ring.DoReceive | src/mpi_comm.c:1344-1354 | the receiving half, in place, is the protocol's step |
| RingAllgather.Ring.DoAdvance | src/mpi_comm.c:1349-1359 | storing the string and turning to the next slot, in place, is the protocol's step |
| RingAllgather.Ring.RunToEnd | src/mpi_comm.c:1337-1360 | taking any enabled step until none is left terminates with every rank out of its loop |
| RingAllgather.Allgather | src/mpi_comm.c:1307-1363 | all ranks return the array of all objects, whatever traffic there is on other tags |
| RingCalls.FirstPartIsMine | src/mpi_comm.c:1344-1354 | when wires carry messages of several calls at once, a waiting rank finds something exactly when its own call has something for it |
| RingCalls.SameMessage | src/mpi_comm.c:1344-1354 | and what it takes is the message its own call sent it |
| RingCalls.StepMatches | src/mpi_comm.c:1337-1360 | every step of a rank, however far ahead of the others, is a step of the ring of its own call |
| RingCalls.CallsDoNotMix | src/mpi_comm.c:1306-1363 | over all runs of any sequence of allgathers on the one tag, call `k` returns every rank's object of call `k` at that rank's index |
| RingCalls.NothingBreaks | src/mpi_comm.c:1344-1356 | and nothing ever arrives that does not exactly fill its buffer |
| RingCalls.SomebodyMoves | src/mpi_comm.c:1337-1360 | until all ranks have made all calls some rank can step |
| RingCalls.RunsEnd | src/mpi_comm.c:1337-1363 | every run ends after six steps for each exchange of each call and one for each return, and none is longer or stuck before |
| Slots.WriteSlot | src/mpi_comm.c:1407-1408 | an object written into slot `i` changes that slot's front and no byte of another slot: slots are disjoint and in bounds |
| Slots.FilledLoads | src/mpi_comm.c:1488-1489 | a slot with an encoding in front loads to the object, whatever bytes pad it |
| Slots.Longest | src/mpi_comm.c:1397-1403 | the computed slot size is big enough for every encoding and terminator, and needed by one of them |
| Slots.Pack | src/mpi_comm.c:1466-1467 | the strided loop puts every object into its own slot and leaves the rest of each slot alone |
| Slots.Unpack | src/mpi_comm.c:1485-1490 | the decoding loop loads each slot of a buffer |
| Slots.RowOfPart | src/mpi_comm.c:2060-2062 | a block of slots cut out of a buffer has those slots and no others |
| Entry.NextKeepsInv | src/mpi_comm.c:1386-1411 | whatever step a rank takes, nobody gets in who fails the check and nobody leaves even the first collective while a rank it hears from has raised |
| Entry.StuckIsFate | src/mpi_comm.c:1386-1424 | in any order of steps, when nobody can go on: failing ranks have raised; passing ones have returned if all ranks they hear from pass, and sit in the first collective for ever if not |
| Entry.FatesAreMet | src/mpi_comm.c:1386-1424 | over all runs no rank returns that is not meant to, no run goes on for ever, and where it stops all have met the fate the arguments alone decide |
| Entry.NobodyBlocks | src/mpi_comm.c:1386-1389 | nobody is left waiting exactly when all ranks that are heard from pass or no rank passes |
| Entry.Settle | src/mpi_comm.c:1447-1470 | taking any enabled step until none is left terminates with those fates |
| Collectives.Scatter | src/mpi_comm.c:1386-1429 | rank `r` raises if its array has the wrong length; else it never returns if the root's has; else it returns the root's object `r` |
| Collectives.Alltoall | src/mpi_comm.c:1447-1490 | if all arrays have one object for each rank, object `i` at rank `j` is object `j` of rank `i`, through the strided buffers; else the ranks with a wrong array raise and no other returns |
| Collectives.AlltoallTwice | src/mpi_comm.c:1432-1496 | sending back what came in restores every rank's array |
| Collectives.TransposeTwice | src/mpi_comm.c:1485-1490 | the transpose of the transpose is the matrix |
| Collectives.ColumnSlot | src/mpi_comm.c:1478-1488 | slot `i` of what a rank receives is the slot of that rank in the buffer of rank `i` |
| Collectives.Bcast | src/mpi_comm.c:1199-1224 | every rank ends up with the root's object |
| Collectives.ScatterThenGather | src/mpi_comm.c:1365-1430 | gathering at the root what was scattered from it gives back the array |
| Collectives.GatherThenScatter | src/mpi_comm.c:1228-1273 | scattering what was gathered gives every rank its object back |
| Collectives.GatherThenBcast | src/mpi_comm.c:1307-1363 | gather followed by broadcast gives every rank the array `allgather` gives it |
| Combine.CombineSlot | src/ops.rb:31-49 | one turn of the combine: the slot becomes the marshalled result, or stays and the needed size is asked for; an element that does not load stops the call |
| Combine.OpCombine | src/ops.rb:23-51 | the whole combine: every slot before the first that does not load ends up loading to the procedure's result, or unchanged where that with its terminator is longer than the slot; no other slot changes, and `resize` is the last size asked for |
| Combine.MergedLoads | src/ops.rb:37-49 | a combined slot loads to the result, or to the second argument where the result did not fit |
| Combine.LastNeedMeaning | src/ops.rb:45-47 | `resize` is 0 exactly when every result fitted; otherwise it is more than the slots have and some element needs it |
| Combine.CombineObjects | src/ops.rb:31-50 | on slots that load, every slot ends up with the procedure's result, or with the second argument where that does not fit; `resize` is 0 exactly when all fit, and else a size some result needs |
| Folds.FoldConcat | src/mpi_comm.c:1571-1573 | for an associative operation the fold of two halves combined is the fold of the whole |
| Folds.FoldPermutation | src/mpi_op.c:94-97 | for an operation that is also commutative, folding in any order gives the same |
| Folds.LargestBounds | src/ops.rb:45-46 | no fold of a subsequence is longer than the bound |
| Folds.LargestAttained | src/ops.rb:45-46 | some fold of a subsequence is as long as the bound, so it is exact |
| Trees.HeldIsFold | src/ops.rb:31-50 | stale or not, what a slot holds after a pass is the fold of the contributions that were not lost |
| Trees.KeptIsSubseq | src/ops.rb:45-49 | those are a subsequence of the contributions at the tree's leaves |
| Trees.QuietPassFolds | src/mpi_comm.c:1571-1576 | a pass without overflow leaves the fold of all contributions in rank order, whatever ordered tree was used |
| Trees.OverflowIsBounded | src/ops.rb:45-46 | no combine of a pass, with however many overflows before it, needs more than one byte beyond the longest fold of some contributions |
| Retry.NoRaiseFits | src/mpi_comm.c:1575-1576 | if no flag was raised, no combine of the pass overflowed |
| Retry.RaisesAreBounded | src/ops.rb:45-46 | every flag asks for more than the slots had and for no more than the bound |
| Retry.AgreeOnResize | src/mpi_comm.c:1575-1600 | the agreed value is 0 exactly when no flag was raised, else the size some flag asks for |
| Retry.RunTree | src/mpi_comm.c:1571-1573 | running a tree on the packed buffers leaves what the object-level pass says, slot by slot, and raises its flags |
| Retry.Pass | src/mpi_comm.c:1588-1598 | after a pass either every receive buffer holds the folds, or every flag raised lies between the slot size and the bound |
| Retry.Attempt | src/mpi_comm.c:1582-1600 | a requested size is strictly larger than the one that overflowed and at most the bound |
| Retry.ReduceUntilItFits | src/mpi_comm.c:1571-1616 | the retry loop ends, and every decoded element is the fold of the ranks' contributions in rank order, for any associative operation, any trees, any order of flags and any starting size that holds the arguments |
| Reductions.CheckShapes | src/mpi_comm.c:1517-1530 | all ranks take the same branch, the failing one exactly when two arguments differ in shape |
| Reductions.LocalLongest | src/mpi_comm.c:1532-1545 | a rank's longest encoding, attained unless its array is empty |
| Reductions.AgreeOnSlot | src/mpi_comm.c:1547-1551 | every rank's every encoding fits with its terminator, and no smaller size would do |
| Reductions.ReductionStarts | src/mpi_comm.c:1884-1926 | the reduction over one rank is that rank's argument, array or not |
| Reductions.ReductionSteps | src/mpi_comm.c:1884-1926 | the reduction over one more rank is the operation applied to what was there and that rank's argument, element by element for arrays |
| Reductions.ReduceAll | src/mpi_comm.c:1557-1660 | the shared part: each receiver gets the reduction over its ranks, the one ReductionStarts and ReductionSteps determine |
| Reductions.Reduce | src/mpi_comm.c:1498-1664 | the root gets the reduction, the others true; all raise exactly when the shapes differ |
| Reductions.Allreduce | src/mpi_comm.c:1666-1774 | every rank gets the reduction; all raise exactly when the shapes differ |
| Reductions.Scan | src/mpi_comm.c:1818-1968 | rank 0 gets its own argument back; every other rank gets the operation applied to what the rank before it got and its own argument, element by element for arrays; all raise exactly when the shapes differ |
| Reductions.ScanStep | src/mpi_comm.c:1884-1926 | one more rank in the scan combines its item behind the previous rank's result |
| Reductions.CheckCounts | src/mpi_comm.c:2000-2018 | the agreed verdict holds exactly when every rank's argument has as many items as the counts add up to |
| Reductions.ReduceScatter | src/mpi_comm.c:1990-2146 | each rank gets its block of the reduction, or nil for an empty block of a plain object; all raise exactly when the counts do not fit |
| Reductions.MixedShapes | src/mpi_comm.c:2003-2018 | plain objects beside arrays of one element pass the check, and are reduced as if all were arrays |
| Reductions.BlocksAreCut | src/mpi_comm.c:2046-2104 | for arrays element `e` of rank `r`'s block is element `e` behind the sum of the counts before `r` of what allreduce gives |
| Reductions.BlocksCoverArray | src/mpi_comm.c:2046-2102 | the blocks in rank order are the reduced array, cut at the prefix sums of the counts |
| Reductions.ArrayBlocks | src/mpi_comm.c:2046-2104 | for arrays the blocks the ranks return, joined in rank order, are the reduced array |
| Reductions.PlainBlock | src/mpi_comm.c:2105-2145 | of a plain object the one rank that counts it gets the reduction, the others nil |
| Reductions.FourAgree | src/mpi_comm.c:1498-2146 | on any arguments, failing ones included, reduce at the root is allreduce everywhere and the last rank's scan is allreduce; where the counts fit, the blocks of reduce_scatter make up what allreduce gives, for arrays and for plain objects; each call with its own trees |
| Minimum.MinSlot | src/mpi_op.c:142-160 | one turn of the loop: the slot's bytes become the first buffer's exactly when its object is strictly less |
| Minimum.OpMin | src/mpi_op.c:135-161 | every slot ends up carrying the lesser object's encoding, and nothing overflows |
| Minimum.LesserIsAssociative | src/mpi_op.c:152-159 | keeping the lesser, and the second on ties, is associative for any total preorder |
| Minimum.LesserNeverOverflows | src/mpi_op.c:155-159 | slots that hold the arguments hold every intermediate result, whatever the tree |
| Minimum.HeldIsLastLeastLeaf | src/mpi_op.c:135-161 | along any tree over all ranks, in any order, the result is a least contribution, namely the one at the last leaf that has one |
| Minimum.RankOrderTakesHighest | src/mpi_op.c:152-159 | in rank order that is the highest rank with a least contribution |
| Minimum.OrderIrrelevantIffOneLeast | src/mpi_op.c:491 | the op is registered as commutative, and its result is the same for every tree MPI may use if and only if all least contributions are the same object |
| Minimum.RunMinTree | src/mpi_op.c:135-161 | running any tree on the packed buffers leaves the object-level result in every slot, bytes and terminator |
| Minimum.ReduceMin | src/mpi_comm.c:1557-1616 | packing, combining along any tree over all ranks and unpacking gives for every element some rank's contribution that no rank's is less than, the one at the last leaf that has a least one |
| OpTable.NextKeepsInv | src/mpi_op.c:16-40 | creation, release and use keep every live op in a slot of its own that holds its procedure |
| OpTable.LiveCount | src/mpi_op.c:20-31 | there are as many live ops as assigned slots, and a free slot exactly when fewer are live than there are slots |
| OpTable.OpsOwnTheirSlots | src/mpi_op.c:16-100 | over any run no two live ops share a slot, a slot's procedure is its op's, assigned slots are the live ops' slots, and creation fails exactly when the table is full of live ops |
| OpTable.OpsLiveUntilReleased | src/mpi_op.c:16-100 | over any run an op that is created stays live, in the slot it was given and with its procedure, until its own release, whatever other ops come and go |
| OpTable.ReleaseTakesOne | src/mpi_op.c:38-39 | a release takes the op out of the live ones, unassigns its slot, and leaves every other op and slot as it was |
| OpTable.Table.Register | src/mpi_op.c:16-33 | the first free slot is claimed and cleared, or -1 is returned and nothing changes |
| OpTable.Table.CreateOp | src/mpi_op.c:79-100 | creation fails exactly when as many ops are live as there are slots, and then changes nothing; otherwise a free slot gets the procedure with a cleared request, and every other op and slot is as it was |
| OpTable.Table.FreeOp | src/mpi_op.c:35-40 | in place: exactly the op is gone, its slot is free, and every other slot is unchanged |
| OpTable.Table.ClearRequest | src/mpi_op.c:71-77 | the request in the op's own slot is 0, and every other slot is unchanged |
| OpTable.Table.Call | src/ops.rb:56-60 | the function MPI holds for an op leaves in every slot of the buffer the result of the procedure the op was created with, where it fits, and its request in the op's own slot and no other |
| OpTable.Table.CombineOnce | src/mpi_comm.c:1575-1600 | clearing the request, one combine on buffers that load, and looking at the request finds 0 exactly if every result fitted, and else more than the slots had |
| WatchTable.WatchAdds | src/mpi_request.c:26-42 | watching adds the request, once, and loses none, whether or not the table grows |
| WatchTable.UnwatchRemoves | src/mpi_request.c:44-54 | unwatching removes the request and no other |
| WatchTable.CapacityBound | src/mpi_request.c:23-42 | after any run the capacity is 16 times a power of two and at most 16 or `2(p - 1)`, where `p` is the largest number ever watched at once |
| WatchTable.Table.Add | src/mpi_request.c:26-42 | the loop over the table, in place, is the specified insertion |
| WatchTable.Table.Grow | src/mpi_request.c:37-41 | doubling keeps every slot, puts the request into the first new one and leaves the others empty |
| WatchTable.Table.Remove | src/mpi_request.c:44-54 | the loop over the table, in place, is the specified removal |
| Requests.NextKeepsTable | src/mpi_request.c:26-81 | every step, cancelling included, keeps the table exact |
| Requests.TableIsExact | src/mpi_request.c:61-81 | over all runs of starts, polls, waits, tests, cancels and messages the table holds exactly the requests that are started, not cancelled and waiting for a length, each once |
| Requests.PostKeepsInv | src/mpi_request.c:71-77 | whoever finds the length complete, poller or `wait`, posts a request's one receive for bytes |
| Requests.FindsLength | src/mpi_request.c:619-624 | a receive waiting for a length is matched with a length that no other request is after |
| Requests.FindsBytes | src/mpi_request.c:163-171 | a receive waiting for bytes is matched with those of the send whose length it took |
| Requests.PostAllKeepsInv | src/mpi_request.c:293-311 | `waitall` over any list of requests, with repetitions, keeps the protocol |
| Requests.FinishKeepsInv | src/mpi_request.c:174-185 | what `wait` loads is the object that was sent |
| Requests.NextKeepsInv | src/mpi_request.c:56-185 | every careful step keeps the protocol: lengths, bytes, buffers and posted receives belong together |
| Requests.RequestsAreServed | src/mpi_request.c:158-185 | over all careful runs each request posts at most one receive for bytes, into a buffer of the announced length plus one, and `wait` loads the object that was sent |
| Requests.SendsAreCalls | src/mpi_comm.c:634-637 | over all careful runs a sender's channel was given exactly the objects the sender was told to send, tag by tag and in order |
| Requests.DeliveryInOrder | src/mpi_request.c:61-81 | over all careful runs the objects of a tag arrive in the order the sender was told to send them, from the first on, each at exactly one request |
| Requests.CapacityFollowsRequests | src/mpi_request.c:23-54 | over all runs of the requests the table's capacity is 16 times a power of two and at most 16 or `2(p - 1)`, where `p` is the largest number of requests that ever waited for a length at once |
| Requests.PollerSeesIt | src/mpi_request.c:62-77 | a request whose length has come is in some slot of the table, and polling that slot posts its receive for bytes |
| Requests.BytesWillCome | src/mpi_request.c:72-74 | a request that has its length finds its bytes in the channel or their sender about to send them |
| Requests.NeverStuck | src/mpi_request.c:56-81 | over all careful runs an unfinished request with an object on its way always has a step that serves it |
| Requests.ApartIsCareful | src/mpi_request.c:619-624 | if no two of a program's receives for the same source overlap, every run without cancelling is a careful one |
| Requests.SafeIffApart | src/mpi_request.c:619-624 | no run of a program breaks a receive if and only if no two of its receives for the same source have overlapping tags; two that do, and one object, break one |
| Requests.PassIsRun | src/mpi_request.c:61-81 | a pass of the polling thread is a run of single looks, and careful |
| Requests.PassServes | src/mpi_request.c:62-77 | after a pass, a request that was in the table with a completed receive has its receive for the bytes posted, and every other request is as it was |
| Requests.PostAllServes | src/mpi_request.c:293-311 | after the first half of `waitall`, the listed requests that were waiting for lengths have their receives for the bytes posted, once each however often they are listed, and all others are as they were |
| Requests.Engine.StartOne | src/mpi_request.c:619-624 | in place: the request has its receive for the length posted and is in the table; no other request, sender or entry changes |
| Requests.Engine.LookAt | src/mpi_request.c:63-77 | one look: if the slot's request has a completed receive, its receive for the bytes is posted and it leaves the table; nothing else changes |
| Requests.Engine.PollPass | src/mpi_request.c:61-81 | after the loop every occupied slot holds a request that still waits for MPI; every request that was in the table with a completed receive has its receive for the bytes posted and is out of the table; the other requests and all senders are unchanged |
| Requests.Engine.WaitForLength | src/mpi_request.c:158-173 | the first half of `wait` posts the request's receive for the bytes and takes it out of the table; nothing else changes |
| Requests.Engine.WaitForBytes | src/mpi_request.c:174-187 | the second half is the protocol's step and, under the protocol's invariant, leaves the object that was sent |
| Requests.Engine.WaitForLengths | src/mpi_request.c:293-311 | the loop of `waitall` posts the receives for the bytes of the listed requests that were waiting for lengths, and changes no other request |
| Requests.Engine.WaitForAllBytes | src/mpi_request.c:314-325 | the second half leaves the listed requests completed, with their buffers, and changes no other |
| Requests.Engine.TestOne | src/mpi_request.c:385-403 | `test` is true exactly when the bytes are there; only then is the request completed, and nothing else changes |
| Requests.Engine.CancelOne | src/mpi_request.c:530-551 | `cancel` puts the request back to waiting for a length, without buffer and out of the table; nothing else changes |
| Pi.Partial | examples/rpi.rb:10-15 | the stepped loop visits exactly the intervals `i` up to `n` with `(i - 1) mod size` equal to its rank, and sums them up |
| Pi.PartsMakeTheWhole | examples/rpi.rb:12-15 | whatever the number of ranks, the parts of all ranks add up to the one-process sum |
| Pi.AnyTreeSums | examples/rpi.rb:18 | adding the partial results along any tree over all ranks gives their sum |
| Pi.ReducedSum | examples/rpi.rb:16-18 | the reduction of the scaled parts is the scaled one-process sum, for any integrand and any tree |
| Pi.ComputePi | examples/rpi.rb:7-18 | for every number of ranks and intervals the example's value is the sum over `i` of `16 n / (4 n n + (2 i - 1) (2 i - 1))`, the midpoint sum for pi |

## Left out

Parts of the repository:

- Groups, cartesian and graph topologies, communicator constructors, probe, status, `dims_create` and exception mapping: each is one library call.
- The inside of MPI, its failures, and sends that wait for their receiver; the Ruby interpreter, garbage collection, freeing of memory, and `Marshal`'s own format.
- `request_waitany`, `request_waitsome`, `request_testany`, `request_testsome`, `request_startall` and the persistent sends of `request_start`: they index the wrong request or send the wrong address, so no intended run can be read from the text.
- `op_lxor`, and what MAX and MAXLOC do with equal elements: as written they depend on how Ruby tags integers.
- `comm_buffer_for`, `comm_unbuffer` and keyval attributes, which decide little themselves; the other examples.
- A send with a wildcard tag, which MPI refuses.

Where the text cannot mean what it says, the model takes the intent:

- `length` is never set where `StringValueCStr` replaced the call that set it (src/mpi_comm.c:632, and everywhere like it); the model takes the length of the dump, as src/ops.rb:43 still does. A local `longest` starts at 0.
- Retry.AgreeOnResize: `resize` is a variable of each process in the source (src/mpi_comm.c:1575); the model lets all ranks go on with the largest.
- Retry.Pass: the retry of the source keeps the old stride and buffers (src/mpi_comm.c:1589-1594, src/mpi_comm.c:1613); the model packs again at the new size and decodes at it.
- Retry.ReduceUntilItFits: the predefined ops write `op_table[0].resize` (src/mpi_op.c:187) but own no slot, so the retry is modelled for user ops.
- Retry.Attempt: starts every pass with cleared flags: `op_register` clears an op's field, the loop clears it before each further pass, and a loop that ends has just read 0. A combine that raised, and so left its request for a later call, is not followed further.
- Retry.RunTree: one tree per receiving rank and pass; an MPI that cuts one buffer into segments and reduces each along its own tree is not modelled.
- Collectives.Alltoall: the source packs with the local slot size and receives with the global one, and passes block counts of the whole communicator (src/mpi_comm.c:1466-1480); the model uses the global size and one block for each rank.
- Collectives.Scatter: likewise one block for each rank (src/mpi_comm.c:1422).
- Gather.GatherAll: the source receives the bytes as integers (src/mpi_comm.c:1262); the model receives bytes.
- PointToPoint.FramingIsSafe: holds for `comm_sendrecv` with a concrete source only, as that call never pins (src/mpi_comm.c:779-841); PointToPoint.SafeIffPinned says exactly when wildcards are safe.
- Requests.RequestsAreServed: requests name a concrete source, as `request_wait` sets `peer` only after it has posted the second receive (src/mpi_request.c:165-175); a request is started once, as a second start keeps `TX_DATA` (src/mpi_request.c:619-624); nothing is cancelled, as what MPI makes of a cancelled half-received pair is not determined.
- Requests.FinishKeepsInv: the source cuts the payload at its first zero byte (src/mpi_request.c:181); the model keeps it whole.
- WatchTable.Table.Grow: the grown half of the list is not cleared in the source (src/mpi_request.c:39); the model clears it.
- Entry.FatesAreMet: an MPI whose collectives wait for more ranks than they must could leave more ranks waiting; which ranks can never return does not depend on that.
- RingCalls.RunsEnd: sequences of calls are modelled on values only; the in-place class is the one of a single call.
- Minimum.OpMin: the copy takes `length + 1` bytes with `length` unset (src/mpi_op.c:156-158); the model copies the encoding and its terminator. MPI's own MINLOC would prefer the lower index on a tie; the code prefers whichever comes last in the order MPI picks, and so does the model.
- Pi.ComputePi: over exact reals, as rounding depends on the order of additions.
