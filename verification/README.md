# A verified model of the distributed join

The repository joins two tables that are spread over many GPUs. This project models the three layers
of that join, and the tools around it, in Dafny, and proves each layer to be what the next one uses.

**1. The buffered message protocol** (`src/communicator.cpp`). Every rank runs rounds of
`start`, sends, receives, `stop`. A transfer is a count followed by batches through one staging buffer,
driven by callbacks. `Wire` says how a transfer is cut, `Endpoint` what each call and callback does to
the handles, the buffer queue and the user's memory, `Rounds` what the ranks agree to exchange, and
`Network` puts N ranks together as a transition system. UCX is the environment: it chooses whether a
send is done inside the posting call or calls back later, whether a receive calls back before its
posting call returns, which freed request it hands out again, and in which order everything happens.
Assumed of UCX is only that messages of one sender with one tag are matched in order, that a send is
either done at once without a callback or calls back once later, and that a receive calls back once.
Safety holds for all of these choices. Progress does not rely on the generous ones: UCX need not
complete a send before the receive for it is waiting, nor anything inside a posting call, and still no
run gets stuck (`Progress`). A step with which the communicator would throw, run a handler on a handle
that is not its own, or read or write a staging buffer beyond its end has an outcome of its own
(`None`), and `Network.StepKeeps` proves that no reachable step has it. `RankInvariant` holds the
invariant, `HandlerFrames`, `SendProofs`, `RecvProofs`, `WaitProofs` and `Bounds` prove that each step
keeps it, `Runs`, `Progress` and `Termination` draw the conclusions for whole runs, `Handles` those
about handles and staging buffers, and `Allocators` that every handle goes back to the allocator it came
from. `Communicator` is the class itself, with
methods that update its fields; each is proved equal to the function of the same step. `Unbuffered` is
the communicator that posts several messages with one tag in a round; its channels are also those of
the size exchange over MPI, which relies on the order rule of section 3.5 of MPI-3.1. `Tags` shows that
tags tell channels apart.

**2. The all-to-all exchange** (`src/all_to_all_comm.*`, `src/strings_column.cu`,
`src/compression.hpp`). `Groups` is the index arithmetic of communication groups. `AllToAll` is the
specification: rank `b` ends up with the slices for it, in the order of its group, and no row is lost
or doubled. `AllToAllComm` runs it: sizes, sends, receives at the scanned offsets into an array, the own
slice either copied or sent. `Strings` adds string columns, `Compression` the compressed path.
`ExchangeRuns` proves that a round of the buffered protocol, under any schedule, carries the exchange,
and `GroupedRuns` the same for the sizes and for several buffers at once on the unbuffered one.

**3. The join** (`src/distributed_join.cpp`, `src/shuffle_on.cpp`). `Partitioning` is the bucket
partition over an arbitrary hash of the key, `Shuffle` partitions and exchanges, `Join` is the multiset
inner join, and `DistributedJoin` is the whole join, run by all ranks, with two arbitrary hash
functions. `JoinThreads` interleaves the communication thread and the join thread step by step, and
`ThreadedJoin` shows that with an interleaving of its own at every rank the result is still the join.
`EndToEnd` runs the rounds of the join over the protocol: what a rank sends later is made of what reached
it before, and at the end of any run the local results are the join of the global tables.

Beside them, `Lottery` and `InputTables` model the lock-free key lottery of the data generator, and
`DistributeTable` the distribution of a table from the root and its collection. `Arith`, `Sums` and
`Tables` are the mathematics all of them share.

Where the code and its own comments differ, the model follows the code:

- `get_nvl_partition_size` is documented to return the largest divisor of the number of ranks within
  the NVLink domain, but its search starts at the rounded-up square root. `Groups.PromiseKeptIff` says
  exactly when it keeps the promise, and `Groups.PromiseBroken` is 16 ranks with a domain of 8. The join
  only needs a divisor.
- String sizes are stored from the first offset on but indexed by row number.
  `Strings.StringsSurviveIff` says exactly when every string arrives nevertheless, whatever lies in memory
  behind the sizes, and `Strings.LaterBatchGoesWrong` is a case in which one does not. The first shuffle
  and the first batch always start at row 0, so the strings are safe there; later batches of an
  over-decomposed join are not.
- The random numbers of cuRAND are in (0, 1], so a draw of 1 starts behind the lottery.
  `Lottery.StartInRangeIff` says so, and the lottery is proved for draws below 1. For the probe table
  `InputTables.InitProbeTable` says exactly which draws read outside of a table.

## Model

| member | source | states |
|---|---|---|
| Wire.BatchesTile | src/communicator.cpp:407-452 | a transfer of any size is cut into ceil(count / per batch) batches that laid end to end are the data |
| Wire.NextMessage | src/communicator.cpp:575-611 | after k batches elements are left exactly when messages are left, and the next message is batch k: the receiver's arithmetic and the sender's agree |
| Endpoint.RecycledAsFreed | src/communicator.cpp:300-307 | a request is initialised when UCX makes it and keeps its fields when it is handed out again, so the handlers have to clear what they free |
| Endpoint.PutAt | src/communicator.cpp:419-428 | a short batch is copied to the start of the staging buffer and leaves its end as it was |
| Endpoint.PostNextLive | src/communicator.cpp:585-607 | on a recycled request, which is clean, the early-callback test is true exactly when the callback has run; the new request is another handle and gets the info of this batch plus one |
| Endpoint.PostNextReady | src/communicator.cpp:598-608 | the nested call of the receive handler finds its handle in order and less to receive, so the recursion ends |
| Rounds.RoundOfMessage | src/all_to_all_comm.cpp:335-353 | order on the channel alone fixes the round and the position a message belongs to |
| SendProofs.SendHandlerKeeps | src/communicator.cpp:401-472 | a send callback, however many batches UCX completes inside it, finds its handle ready and keeps the invariant of the rank |
| SendProofs.SendKeeps | src/communicator.cpp:474-527 | `send` in a round never finds the pool empty and keeps the invariant, with the count sent at once or later |
| RecvProofs.RecvHandlerKeeps | src/communicator.cpp:529-621 | a receive callback, with any number of early batches nested in it, copies the right elements and keeps the invariant |
| RecvProofs.RecvKeeps | src/communicator.cpp:623-688 | `recv_helper` in a round never finds the pool empty and keeps the invariant, with the count arriving early or late |
| WaitProofs.ReleaseKeeps | src/communicator.cpp:755-771 | giving back buffer and handle of a finished transfer keeps the invariant: each buffer stays in one place and each freed handle is clean |
| WaitProofs.NextRoundKeeps | src/communicator.cpp:42-44 | between rounds all buffers are in the cache, all handles are free, and the invariant holds for the next round |
| Network.InboxContinues | src/communicator.cpp:577-593 | what a rank finds on a channel continues its own round at the message it expects, even if the sender is rounds ahead |
| Bounds.RecvHandlerBounds | src/communicator.cpp:566-593 | the receive callback, with all batches nested in it, writes only within staging buffers that hold one batch, and matches no more messages than have arrived |
| Network.StepKeeps | src/communicator.cpp:401-772 | no step of any rank, under any choice of UCX, throws, runs a handler on a foreign or freed handle, or reads or writes a staging buffer beyond its end; every step keeps the invariant of all ranks, and no rank ever matches more than was sent to it |
| Runs.Reachable | src/communicator.cpp:363-772 | every state of every run of N ranks satisfies the invariant |
| Runs.DeliversEveryRound | src/all_to_all_comm.cpp:335-353 | what a rank received from another in a round it has left is what was sent to it in that round, element by element |
| Runs.CompletedMeansTransferred | src/communicator.cpp:454-461 | once the user's handle is completed, a send has put exactly its transfer on the channel, and a receive has its buffer equal to the sent data |
| Runs.EndsClean | src/communicator.cpp:755-778 | when all rounds are over every buffer is back in the cache, once, so that `finalize` frees what was allocated, and every handle is free |
| Progress.SomeoneMoves | src/communicator.cpp:734-753 | in every reachable unfinished state some rank has a step that UCX cannot put off: a send is only taken up when the receive for it is waiting, and nothing completes inside a posting call |
| Progress.NeverStuck | src/communicator.cpp:734-772 | no deadlock: a run in which nothing is left that has to happen is over at every rank, even if UCX completes no send before its receive is waiting |
| Progress.MovesGoOn | src/communicator.cpp:734-753 | such a step is carried out without a throw or a stray access, so the run goes on |
| Termination.NextTakes | src/communicator.cpp:401-772 | every step lowers a measure of the messages and calls left |
| Termination.RunsEnd | src/communicator.cpp:734-753 | no run has more steps than the measure of its first state, so every run ends |
| Handles.StepAgrees | src/communicator.cpp:401-621 | a step works on one transfer and one staging buffer and leaves all others, their handles and their channels as they are |
| Handles.InFlightUntouched | src/communicator.cpp:419-440 | no step overwrites the staging buffer of a posted send before UCX has read it, or of a landed receive before its callback has copied it |
| Handles.CompletedStays | src/communicator.cpp:737-769 | a completed user handle stays completed and is touched by no step but its own release: it is completed once, and only `waitall` frees it |
| Allocators.ReleaseReturns | src/communicator.cpp:755-771 | a release frees a handle from malloc, which is then neither a handle nor a free request, gives any other back to UCX cleared, puts the staging buffer at the end of the queue, and leaves all other handles alone |
| Allocators.StepMalloced | src/communicator.cpp:488-496 | handles from malloc are made by the sends whose count goes out inside the call, go away with their release, and are neither made nor lost by any other step |
| Allocators.HandlesStay | src/communicator.cpp:401-772 | no step loses a handle but the release of one from malloc |
| Allocators.NeverInThePool | src/communicator.cpp:488-496 | in every state of every run, no handle that an immediate send made, and that has not been given back to `free`, is among the free requests of UCX |
| Allocators.ReturnedToMaker | src/communicator.cpp:767-770 | every release in a run gives its handle back to the allocator that made it |
| Allocators.NothingLeft | src/communicator.cpp:767-770 | at the end of a run `free` has taken back all that malloc made for handles |
| Communicator.UCXBufferCommunicator.SetupCache | src/communicator.cpp:363-376 | the queue holds every buffer once, in order, and each has the length asked for |
| Communicator.UCXBufferCommunicator.SendBatches | src/communicator.cpp:407-452 | the loop does what the specification of the remaining batches says, and ends |
| Communicator.UCXBufferCommunicator.SendHandler | src/communicator.cpp:401-472 | the method updates the object as the step of the protocol does |
| Communicator.UCXBufferCommunicator.Send | src/communicator.cpp:474-527 | the method updates the object as the step of the protocol does, and fails exactly when the queue is empty |
| Communicator.UCXBufferCommunicator.RecvHandler | src/communicator.cpp:529-621 | the recursive method updates the object as the step of the protocol does |
| Communicator.UCXBufferCommunicator.RecvHelper | src/communicator.cpp:623-688 | the method updates the object as the step of the protocol does, and fails exactly when the queue is empty |
| Communicator.UCXBufferCommunicator.PostSend | src/communicator.cpp:46-49 | a send of a round never finds the queue empty and leaves the object in order |
| Communicator.UCXBufferCommunicator.PostRecv | src/communicator.cpp:51-54 | a receive of a round never finds the queue empty and leaves the object in order, whatever has arrived early |
| Communicator.UCXBufferCommunicator.SendCallback | src/communicator.cpp:401-472 | a send callback leaves the object in order |
| Communicator.UCXBufferCommunicator.RecvCallback | src/communicator.cpp:529-621 | a receive callback leaves the object in order, with the messages that follow already there or not |
| Communicator.UCXBufferCommunicator.AllFinished | src/communicator.cpp:738-750 | one scan of the polling loop finds out whether all pending handles are completed |
| Communicator.UCXBufferCommunicator.ReleaseAll | src/communicator.cpp:755-771 | the final loop of `waitall` empties the round and appends the buffers to the cache up to its full size; exactly the handles that are not from malloc are free requests afterwards, and those from malloc are gone |
| Tags.CommTagInjective | src/communicator.cpp:390-399 | tags of different user tags or sources differ, also for the reserved tag -1 |
| Tags.NegativeSourcesCollide | src/communicator.cpp:393-396 | with a negative source all user tags would share one tag |
| Tags.UnbufferedTagInjective | src/communicator.cpp:127-153 | the tags of the unbuffered communicator differ for different user tags or sources |
| Unbuffered.StepKeeps | src/communicator.cpp:122-160 | every step of the unbuffered communicator keeps, for every pair of ranks, the order of messages and receives |
| Unbuffered.RoundsNeverMix | src/all_to_all_comm.cpp:748-757 | with several messages of one tag a round, the receives of round r hold exactly the messages of round r, buffer by buffer |
| Unbuffered.NeverStuck | src/communicator.cpp:42-54 | unless all ranks are through, some rank has a step, even if UCX completes no send before it is matched |
| Unbuffered.RunsEnd | src/communicator.cpp:42-54 | every step takes one of the steps left, so every run ends |
| Groups.GroupsAgree | src/all_to_all_comm.hpp:92-106 | `get_local_idx` and `get_global_rank` are inverse, members are ranks of the program, and all members compute the same member list |
| Groups.GroupsPartition | src/all_to_all_comm.hpp:74-91 | two groups with one member in common have all members in common, at the same positions |
| Groups.LevelsMeet | src/distributed_join.cpp:164-254 | the strided and the contiguous group of a rank meet only in that rank |
| Groups.GetNvlPartitionSize | src/distributed_join.cpp:60-69 | the size is a divisor of the number of ranks: the number itself if the domain allows, else the largest not above the domain and the rounded-up square root |
| Groups.PromiseKeptIff | src/distributed_join.cpp:57-69 | the size is the largest divisor within the domain if and only if the domain holds all ranks, or it holds one and no divisor lies above the rounded-up square root within it |
| Groups.PromiseBroken | src/distributed_join.cpp:57-69 | 16 ranks and a domain of 8 give 4, not 8 |
| AllToAll.RowsConserved | src/all_to_all_comm.cpp:126-189 | all ranks together hold every row as often after the exchange as in the slices sent |
| AllToAll.ColumnsTravelTogether | src/all_to_all_comm.cpp:247-280 | columns are exchanged one by one with the same offsets, and the rows stay together |
| AllToAllComm.SendCounts | src/all_to_all_comm.cpp:62-82 | every member is sent the length of its slice, and no other rank is sent anything |
| AllToAllComm.PartialSum | src/all_to_all_comm.cpp:97-99 | receive offsets are the partial sums of the received counts, from 0 |
| AllToAllComm.CommunicateSizes | src/all_to_all_comm.cpp:54-100 | every rank learns the lengths of exactly the slices it is due, in group order |
| AllToAllComm.SendDataByOffset | src/all_to_all_comm.cpp:126-150 | every member but a skipped own rank is sent its slice, and no other rank is sent anything |
| AllToAllComm.AllToAllCommunicator.AllocateCommunicatedTable | src/all_to_all_comm.cpp:701-729 | the buffer has room for all slices, and if asked for the own slice is in its place |
| AllToAllComm.AllToAllCommunicator.RecvDataByOffset | src/all_to_all_comm.cpp:166-189 | after the loop the buffer is the concatenation of all slices due, the copied own slice included |
| AllToAllComm.AllToAllTables | src/all_to_all_comm.cpp:307-465 | run by all ranks, the exchange gives every rank the table of the specification, whether the own slice is copied or sent |
| ExchangeRuns.SendRound | src/all_to_all_comm.cpp:126-150 | what a rank hands to the communicator is its row of the round that the protocol carries, for every target, with nothing for the ranks that have no transfer from it |
| ExchangeRuns.ReceiveTable | src/all_to_all_comm.cpp:335-353 | what the protocol brought a rank in a round, laid end to end by the receiving loop, is the table the exchange specifies, in every state of every run in which the rank has left the round |
| ExchangeRuns.RoundExchanges | src/all_to_all_comm.cpp:335-353 | once all ranks have left a round, their tables together are the exchange of that round |
| GroupedRuns.GroupedArrive | src/all_to_all_comm.cpp:748-757 | with all buffers of a table sent between one `start` and `stop`, each buffer of each member arrives as the slice due |
| GroupedRuns.SendSizes | src/all_to_all_comm.cpp:74-82 | the sizes a rank sends are its row of the round of sizes: one number a member, nothing to others |
| GroupedRuns.SizesArrive | src/all_to_all_comm.cpp:74-95 | however many size exchanges share a tag, a rank gets the lengths of the slices due in the round at hand |
| Strings.GatherStringOffsets | src/strings_column.cu:61-76 | characters are sent from where the rows of each slice start, and received where the characters due from each member start when laid end to end |
| Strings.SizesFromOffsets | src/strings_column.cu:98-107 | the sizes are the lengths of the rows of the range |
| Strings.OffsetsFromSizes | src/strings_column.cu:119-129 | the offsets are the partial sums of the sizes, from 0 |
| Strings.ExchangeStrings | src/all_to_all_comm.cpp:261-280 | for any slices and any memory behind the sizes, the receivers scan the sizes that were read by row number; if every rank's first slice starts at row 0 or all its slices are empty, the decoded rows are the slices of rows due, string by string |
| Strings.StringsSurviveIff | src/all_to_all_comm.cpp:680-681 | every string arrives at every rank, whatever lies behind the sizes, if and only if at every rank the first slice starts at row 0 or all slices are empty |
| Strings.SizesRightIff | src/strings_column.cu:96-107 | a rank sends every slice with the lengths of its own rows, whatever lies behind the sizes, if and only if its first slice starts at row 0 or all are empty |
| Strings.LaterBatchGoesWrong | src/strings_column.cu:96-107 | with slices from row 1 on, a row of length 2 is announced with length 3 |
| Compression.CompressPartitions | src/compression.hpp:93-135 | a slice that is empty or skipped has no bytes and a size of 0; every other one is what the compressor makes of its rows alone |
| Compression.MergePieces | src/all_to_all_comm.cpp:412-441 | the send buffer is the concatenation of the pieces at the scanned offsets |
| Compression.DecompressPartitions | src/compression.hpp:185-225 | the receive buffer becomes the concatenation of the slices, with slices of no elements and the own slice left alone |
| Compression.ExchangeCompressed | src/all_to_all_comm.cpp:377-464 | for any lossless codec and any pattern of empty or skipped slices the compressed exchange leaves the tables of the direct one, and what travels from a rank to a member is the compressed slice, or no byte if the slice is empty or skipped |
| Partitioning.HashPartition | src/shuffle_on.cpp:59-64 | slice j of the result holds every row of bucket j as often as the table, and no other row; the offsets are monotone from 0 to the number of rows |
| Shuffle.RowLanded | src/distributed_join.cpp:247-266 | a row that reaches a rank in a batch has the bucket of that batch and rank, and comes from a member of its group: the overlapping offset windows send each row to one place |
| Shuffle.BatchesConserve | src/distributed_join.cpp:247-266 | all batches at all ranks together hold every row exactly as often as the tables did |
| Shuffle.ShuffleOn | src/shuffle_on.cpp:37-91 | rows are conserved, and every row is at the member of its group that the hash of its key picks |
| Join.JoinOfPlaces | src/distributed_join.cpp:303-339 | if all rows with one key share a place, the local joins together are the join of the whole tables |
| Join.LocalJoinHelper | src/distributed_join.cpp:71-83 | also with an empty side, every pair of rows with equal keys occurs as often as in the product, and no other pair |
| DistributedJoin.CoLocated | src/distributed_join.cpp:159-266 | after both levels every row, left or right, is in the one batch at the one rank that its key calls home |
| DistributedJoin.ShuffleBetweenDomains | src/distributed_join.cpp:154-184 | the first level puts rows in the domain their first hash picks and conserves them, and a row only moves between ranks of one group; with one domain the tables stay as they are |
| DistributedJoin.JoinBatches | src/distributed_join.cpp:201-339 | the second level gives the join of the tables it starts from, for any over-decomposition, and every rank gets all pairs of the keys that the two hashes give it |
| DistributedJoin.DistributedInnerJoin | src/distributed_join.cpp:134-340 | for every number of ranks, domain size, over-decomposition, pair of hash functions and placement of the rows, the results of all ranks together are the multiset inner join of the global tables, and rank b holds exactly the pairs whose key has domain b / nvl under the first hash and rank b % nvl under the second |
| JoinThreads.OneRowAtATime | src/distributed_join.cpp:303-322 | a step writes at most the one row that arrives, so that tables are half full until their flag is up |
| JoinThreads.JoinedOnlyWhenWhole | src/distributed_join.cpp:116-131 | in every interleaving a batch is read by the join thread only when both its tables hold all their rows |
| JoinThreads.FlagMeansArrived | src/distributed_join.cpp:303-322 | a flag is up exactly when both exchanges of its batch are over |
| JoinThreads.SameAsSequential | src/distributed_join.cpp:286-339 | after the thread join every batch has the join of its two tables |
| JoinThreads.Sequential | src/distributed_join.cpp:303-339 | the reference: one thread that receives the tables of a batch row by row, joins them, and goes on |
| JoinThreads.SequentialOf | src/distributed_join.cpp:286-339 | the reference computes the results of the two threads, whatever their interleaving was |
| JoinThreads.NeverStuck | src/distributed_join.cpp:118 | until both threads are through, one of them can do more than spin |
| JoinThreads.RunsEnd | src/distributed_join.cpp:286-339 | the steps that are not spins are bounded, in every interleaving |
| ThreadedJoin.ThreadsComputeTheJoin | src/distributed_join.cpp:286-339 | with both threads interleaved in any way at every rank, the ranks together compute the join, each rank the pairs of its keys |
| EndToEnd.RunsComputeTheJoin | src/distributed_join.cpp:134-340 | at the end of any run of the protocol on the rounds of the join, with later rounds made of what earlier ones delivered, the local results are the join of the global tables, each rank holding the pairs of its keys |
| Lottery.StartInRangeIff | generate_dataset/generate_dataset.cuh:66-73 | a draw x in (0, 1] starts at the one slot k with k <= x * size < k + 1, which is within the lottery if and only if x is not 1 |
| Lottery.StepKeeps | generate_dataset/generate_dataset.cuh:76-84 | any memory access of any thread keeps slots, claims and rows consistent |
| Lottery.KeyOfDraw | generate_dataset/generate_dataset.cuh:66-84 | the key a draw x gives is the first one unused when it is claimed, from slot floor(x * size) on, upwards and around the end, under any interleaving |
| Lottery.KeysDistinct | generate_dataset/generate_dataset.cuh:65-88 | for any number of threads and any interleaving, keys in the build table are in range and pairwise distinct |
| Lottery.Conserved | generate_dataset/generate_dataset.cuh:76-84 | claimed keys and remaining slots add up to the size of the lottery |
| Lottery.AllRowsDrawn | generate_dataset/generate_dataset.cuh:65-88 | when all threads are through every row has a key, so they only get through if there are enough keys |
| Lottery.DrawsEnd | generate_dataset/generate_dataset.cuh:76-82 | if the build table is no larger than the lottery, a draw ends within as many probes as there are slots |
| Lottery.StepTakes | generate_dataset/generate_dataset.cuh:65-88 | with enough keys every step uses up one of the finitely many its thread has left |
| InputTables.LotterySize | generate_dataset/generate_dataset.cuh:209-211 | the lottery holds the keys up to `rand_max` exactly if that is at least two below the largest key, and otherwise those below it |
| InputTables.ExcludeKeys | generate_dataset/generate_dataset.cuh:235-245 | what is left in the lottery are exactly the keys the build table does not use, each once, in order |
| InputTables.InitProbeTable | generate_dataset/generate_dataset.cuh:110-132 | a row of the probe table has a key of the build table if and only if its first draw is at most the selectivity; it is the key at the whole part of the second draw times the size of its table, or the last of the build table if that draw is 1; it is read outside of a table if and only if that table is empty, or the second draw from the remaining keys is 1 |
| DistributeTable.StartIsPrefixSum | src/distribute_table.cpp:92-94 | the closed form of the start index is the prefix sum of the local sizes, which add up to the whole table and differ by at most one row, the first n % ranks being the larger |
| DistributeTable.SizesBalanced | src/distribute_table.cpp:52-61 | a rank has as many rows as any rank after it, or one more |
| DistributeTable.DistributeCols | src/distribute_table.cpp:73-113 | the parts laid end to end are the column, each has n / ranks rows, and the first n % ranks of them one more |
| DistributeTable.CollectColumn | src/distribute_table.cpp:195-241 | the parts, received at the scan of their sizes, are laid end to end |
| DistributeTable.CollectInvertsDistribute | src/distribute_table.cpp:52-241 | for any number of rows and ranks the parts laid end to end are the original column |
| DistributeTable.RoundTrip | src/distribute_table.cpp:115-248 | collecting a distributed table gives it back, in row order |

## Left out

- CUDA: streams, pinned and device memory, memory pools and leaks. Copies are synchronous assignments.
- UCX, MPI, NCCL and nvcomp inside: endpoint setup, registration, progress, probing for unknown sizes. Errors they report are not modelled, only the throw for an empty buffer queue.
- The NCCL communicator with its staging, and the warm-up exchange.
- A callback runs to its end before the next step of its rank, as it does in the single-threaded UCX worker; a message enters its channel when UCX reads the memory of the send.
- A null receive buffer stands for the receive of unknown size, which allocates the buffer in the callback. That `recv` with a known size and a null buffer keeps the address of its own parameter (`src/communicator.cpp:665-666`, `src/communicator.cpp:693`) is a matter of object lifetimes, which are not modelled.
- `wait` for a single handle: the join only uses `waitall`, which does the same to each handle.
- `pending_requests` is represented by the order of the slots of a round: the sends by destination, then the receives by source. `element_size` is not modelled: buffers are counted in elements, and a staging buffer has room for the elements of one batch of the round at hand.
- The communicator's rounds hold one transfer for each ordered pair of ranks at most, as the exchange posts them when it does not group by batch.
- The exchange and the join are run by one method for all ranks, with the channels between them as maps; that the protocol delivers the same is `ExchangeRuns.ReceiveTable` for a round and `EndToEnd.RunsComputeTheJoin` for the join of single columns. The string and compressed paths are not run over the protocol once more.
- The join is proved for rows of fixed width, whatever their content.
- The polling loop of `waitall` is the interleaving of `Network`; of the class itself one scan and the final loop are modelled.
- Join.LocalJoinHelper: takes cuDF's inner join of two tables that both have rows to be the multiset inner join, computed by nested loops; null keys and the schema of the result are not modelled.
- Partitioning.HashPartition: cuDF's kernel is replaced by a bucket partition; the proofs above it use only its contract.
- Compression.CompressPartitions: the two passes of the functors, which exist for asynchronous launches, are one; the choice of compression options and their broadcast are not modelled.
- Fixed-width integers: offsets and counts are unbounded. Only tags are modelled with their width.
- Lottery: the memory accesses of the threads are interleaved, each atomic; build tables without unique keys and the random number generator are not modelled, and the draws are arbitrary numbers.
- The generation of tables over several ranks, benchmarks, argument parsing, timing output and build files.
