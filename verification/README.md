# Verification model of contentious

This project models the data structures and the protocol of *contentious* in Dafny and proves what they are for.
`dafny verify dfyconfig.toml` checks everything.

* **The bit-partitioned trie** (`Radix`, `Nodes`, `Heap`, `Vector`, `Iterators`, `Assign`, `DiffScan`, `Isolation`, `Edits`).
  Nodes are heap objects tagged with owner ids and shared between any number of handles. A handle is an object with
  `sz`, `shift` and `root`; `bp_vector`, `ps_vector` and `tr_vector` differ only in when a node must be copied before a
  write. `BP_BITS >= 1` is symbolic. The abstract meaning of a handle is a sequence, and every operation is proved
  against it together with its effect on *every other* reader of the shared nodes.
* **Detach, reattach, resolve** (`Partition`, `Reduce`, `Loops`, `Foreach`, `Stencil`, `StencilTasks`, `Resolution`,
  `Pipeline`, `Chain`). Reductions and maps are proved on the tries themselves, over all interleavings of workers and of
  writes to the source. Stencils are proved over sequences of exact numbers first: one resolution as the loops of the
  code, and whole pipelines of overlapping steps as a transition system. `Chain` then runs that system on the tries.
* **Lock-free structures** (`Pool`, `LifoSem`, `HashArray`, `Queue`): transition systems with one atomic access per
  step and any number of threads (two for the queue). `PoolCalls`, `SemCalls` and `HashCalls` say what whole calls do
  and return in every run, in terms of what was asked for and what the thread saw: the semaphore moves exactly the units
  it was asked to and loses no wake-up, the hash table is a set of keys that changes at one moment of each call.
* **Exact arithmetic** (`Spooky`, `Digits`, `Mixers`).

Specifications are functions over a snapshot of the node heap (`Mem`), so that lemmas do not depend on the heap; the
ghost constants `s` and `lo` of a node are its shift and the first index below it. State machines carry history
variables (contents of lists, the place of every slot, what was posted) that no step tests.

## Where the code does not do what it says

* `mut_push_back` of a transient writes the root of an *empty* vector without asking who owns it. `MutPushBack` says
  exactly when nothing foreign is written; `EmptyPushLeaks` and `EmptyTransientShares` build the case.
* `assign(other, a, b)` copies all of [a, b) exactly for the ranges in `Faithful`. For the others `Defined` says when
  the arrays are left, and `Reach` where the copy stops. Copying a whole full vector of three levels or more stops after
  W * W elements (`FullCopyStops`); with a single worker, the default, that is what `foreach` does (`OneWorkerFull`).
* In a reduction of a vector smaller than one leaf, a worker may start behind the end, but inside the leaf. Its loop
  adds the slots behind its start and then the whole sum once more. `ReduceRun` says for all vectors what comes out, and
  that it is right exactly if these additions come to nothing; `StrayRun` gives five ones that add up to ten.
* `stencil_splt` ignores the operators and uses coefficients 0.4, -0.8, 0.4 at three consecutive offsets. For a worker
  that has anything to compute this is right for all data exactly if the operators have the same summed coefficients
  (`BuiltInExact`); `BuiltInDiffers` gives a case. The loop in its comment is the general kernel (`StencilSplt`), and the
  pipeline theorems are about that one.
* A resolution may add to boundary elements, which sweeps leave alone. A boundary element is right for all data exactly
  if no index that may be stale is read with a summed coefficient (`EdgeSafe`, `EdgeExact`), and the whole resolution
  exactly if all boundary elements are safe (`ResolutionExact`). `EdgeBroken` gets there by two resolutions in a row.
* `resolve_monotonic` lets the index one behind the end through its range check (`Readable`, `EmptyPartitionLeaves`).
* A copy of a `cont_vector` gets a new id, but the vector it was copied from keeps its own, so what that one writes
  shows in the copy exactly where some node on the path of the element carries that id (`CopySeesSource`). The result
  of `foreach` is such a copy; `ForeachRun` is right all the same, because every element that is mapped is replaced
  after the first detach.
* The loop of `foreach` multiplies whatever operator was passed, its resolution uses that operator. `ForeachThenResolve`
  says exactly when the whole result is right (`AllFine`): with plus, every element must be unchanged, or the loop must
  multiply by one where the element is contended, and by zero where it is not. `PlusRun` gives 4 instead of 6. With
  times, an element whose snapshot is zero cannot be repaired (`NoZeros`).
* `parse_nonnegative_int` misses products that wrap around to something larger. Its result is right exactly if the value
  fits 32 bits, or wrapping is noticed at some digit, or the low bits are too big (`ParseExact`, `ParseExactTen`);
  `WrapsUnseen` has 5000000000 accepted as 705032704.
* Persistent `push_back` on an empty vector grows a level at once, `mut_push_back` does not; both refine append.

## Model

| member | source | states |
|---|---|---|
| Radix.SlotOf | contentious/bp_vector.h:174-182 | the digit `i >> s & BP_MASK` of an index is the number of the child block that holds it |
| Radix.SlotUnique | contentious/bp_vector.h:174-182 | and it is that digit only for the indices of that block |
| Radix.CapacityIsSpan | contentious/bp_vector.h:210-213 | the capacity computed by `std::pow` is the number of indices below the root |
| Radix.DepthToInsert | contentious/bp_vector_base-impl.h:47-55 | the search for the insertion depth stops at the first level at which the size starts a new block, and not before |
| Radix.UpIs | contentious/util.h:44-48 | `next_multiple` is the least multiple not below its argument |
| Radix.UpUp | contentious/util.h:44-48 | rounding up level by level is rounding up at once |
| Nodes.StoreElsewhere | contentious/bp_vector_base-impl.h:22-29 | a store to a node changes nothing for a reader whose path does not pass it |
| Nodes.StoreThrough | contentious/bp_vector_base-impl.h:22-29 | a reader that passes it sees exactly what the new body shows |
| Heap.RedirectView | contentious/bp_vector_base-impl.h:22-28 | replacing a child by a fresh copy is invisible to every reader of every trie |
| Heap.FollowsTrans | contentious/bp_vector_base-impl.h:18-28 | path copying composes: the trie differs from the old one only in copies made under the writer's id |
| Vector.Descend | contentious/tr_vector-impl.h:9-13 | one level of path copying: a child that is not ours is copied and linked, no reader notices, only own or new nodes are written |
| Vector.Walk | contentious/tr_vector-impl.h:7-14 | the whole walk ends at the node on the index's path, all of it owned if it started at an own root |
| Vector.LeafView | contentious/tr_vector-impl.h:15 | writing one leaf slot changes that one index, in exactly the tries that share the leaf |
| Vector.Vec.Empty | contentious/bp_vector.h:366-368 | a new vector is empty and owns its root |
| Vector.Vec.OwnPath | contentious/bp_vector_base-impl.h:163-182 | the non-const `get_branch`: the path is owned afterwards, nothing shows, and a transient wrote only its own nodes |
| Vector.Vec.MutSet | contentious/tr_vector-impl.h:1-16 | `mut_set` is sequence update at i; every other reader may change at index i only; the trie follows the old one |
| Vector.Vec.MutPushBack | contentious/tr_vector-impl.h:18-77 | `mut_push_back` is append; the trie grows by a level exactly if it was full; only own nodes are written if and only if the vector was not empty, or owned its root, or wrote what was there |
| Vector.Vec.Set | contentious/bp_vector_base-impl.h:11-31 | persistent `set`: the result shows the update, at the same depth |
| Vector.Vec.PushBack | contentious/bp_vector_base-impl.h:33-104 | persistent `push_back`: the result shows the appended element, a level deeper exactly if the vector was full or empty |
| Vector.PushedLeast | contentious/bp_vector_base-impl.h:47-70 | pushes keep the depth the least one that has room for the elements |
| Vector.LeastOnce | contentious/bp_vector.h:210-230 | so the size alone determines depth and capacity |
| Vector.Vec.Get | contentious/bp_vector.h:174-182 | `operator[]` returns the element of the sequence |
| Vector.Vec.At | contentious/bp_vector_base-impl.h:1-9 | `at` returns the element or an error when out of range |
| Vector.Vec.NewId | contentious/bp_vector.h:403-408 | `new_id` shares all nodes and owns none of them |
| Vector.Vec.MakePersistent | contentious/bp_vector.h:399-402 | the persistent copy shows the same and may write nothing |
| Isolation.AvoidsContents | contentious/tr_vector-impl.h:1-77 | a handle that reaches none of a writer's nodes keeps its contents, and stays out of reach |
| Isolation.FollowsAvoids | contentious/tr_vector-impl.h:4-13 | another writer's path copying never brings the first writer's nodes into a trie |
| Isolation.IsolatedRun | contentious/cont_vector-impl.h:13-21 | so do its contents over any sequence of the writer's steps: frozen and detached snapshots stay fixed |
| Edits.RunEdits | contentious/tr_vector-impl.h:1-77 | any run of `mut_set`, `mut_push_back`, writing through the mutable iterator and `assign`, through a transient that owns its root while empty, refines the edits of the sequence, keeps the depth least for the size, and leaves such a snapshot alone |
| Isolation.EmptyPushLeaks | contentious/tr_vector-impl.h:26-29 | without that proviso a push overwrites another vector's first element |
| Isolation.CopySeesSource | contentious/cont_vector.h:181-186 | a copy made with `new_id` shows what its source writes at i if and only if some node on the path of i carries the source's id, or the element was that already |
| Isolation.OnPathSees | contentious/tr_vector-impl.h:4-15 | from its first own node on, the writer's path is what an older reader sees |
| Isolation.EmptyTransientShares | contentious/bp_vector.h:403-408 | such a pair of vectors is two calls away from a new one |
| Iterators.PointersAreEqual | contentious/bp_vector_iterator.h:73-80 | comparing the raw pointers compares positions, including the end |
| Iterators.ConstIterator.Inc | contentious/bp_vector_iterator.h:224-243 | `++` moves one position on, also across leaves and onto the end; behind the end it goes on through the slots, and from the capacity to the front |
| Iterators.ConstIterator.Add | contentious/bp_vector_iterator.h:250-278 | `+=` moves n positions on and stops at the end, unless it stays in its leaf: then it stands behind the end |
| Iterators.PlusIsIncrements | contentious/bp_vector_iterator.h:224-284 | `cbegin() + n` is the pointer that n increments reach |
| Iterators.Traverse | contentious/bp_vector_iterator.h:224-243 | a traversal from begin to end yields the elements once each, in order |
| Iterators.MutIterator.Inc | contentious/bp_vector_iterator.h:86-109 | the mutable `++` does the same, invisibly to every reader, writing own nodes only |
| Iterators.MutIterator.Add | contentious/bp_vector_iterator.h:117-150 | so does the mutable `+` |
| Iterators.MutIterator.Put | contentious/bp_vector_iterator.h:158 | writing through the iterator at n is `mut_set(n, .)` |
| Iterators.MutIterator.constructor | contentious/bp_vector_iterator.h:43-60 | `begin()` owns the path to the first leaf, also of an empty vector, and shows to nobody |
| Assign.SpliceReads | contentious/bp_vector_base-impl.h:243-245 | after a splice of slots, a reader through the node sees the other trie on the spliced indices and no change elsewhere |
| Assign.ConstBranch | contentious/bp_vector_base-impl.h:148-161 | `get_branch` reaches the node on the path its digits lead to |
| Assign.ContainedAtShift | contentious/bp_vector_base-impl.h:128-146 | the paths of a and b share their digits above the returned level and part there; on a single leaf it is 0 |
| Assign.CopyElems | contentious/bp_vector_base-impl.h:208-215 | the element loop copies exactly its range |
| Assign.ClimbOne | contentious/bp_vector_base-impl.h:229-246 | one level up copies the rest of a block |
| Assign.Climb | contentious/bp_vector_base-impl.h:223-247 | phase 2 copies from the first whole leaf to the block boundary at the parting level |
| Assign.Across | contentious/bp_vector_base-impl.h:249-264 | phase 3 copies the branches between the blocks of a and b; it is defined exactly if both ends lie in one array |
| Assign.DescendTo | contentious/bp_vector_base-impl.h:266-289 | phase 4 copies down to the last whole leaf |
| Assign.WrapsBelow | contentious/bp_vector_base-impl.h:128-146 | for a range that ends at the capacity, the paths part at the top exactly if the copy is faithful |
| Assign.Wrapped | contentious/bp_vector_base-impl.h:249-264 | otherwise everything happens inside block 0, which ends before b |
| Assign.SpliceAvoids | contentious/bp_vector_base-impl.h:243-245 | a splice brings into a trie no node that a third writer may write, if neither trie had one |
| Assign.Assign | contentious/bp_vector_base-impl.h:184-304 | `assign` replaces exactly [a, c) by the other vector's elements and changes nothing else, nor the other vector, nor foreign nodes, and exposes the target to no third writer; c is given in closed form, the arrays are left if and only if the range is not `Defined`, and all of [a, b) is copied if and only if the range is faithful |
| Assign.PartingIsPart | contentious/bp_vector_base-impl.h:128-146 | for a range that ends at the capacity the paths part where the start has its highest digit other than 0 |
| Assign.FullCopyStops | contentious/bp_vector_base-impl.h:201-304 | copying a whole full vector is undefined on one leaf, complete on two levels, and stops after W * W elements on more |
| DiffScan.DerivedFollows | contentious/tr_vector-impl.h:1-16 | writes through a newer id keep a trie derived from the frozen one |
| DiffScan.SameIdSameNode | contentious/bp_vector_base-impl.h:113-123 | in derived tries equal ids mean the same node |
| DiffScan.NextEntry | contentious/bp_vector_base-impl.h:117-125 | after a skipped block the scan enters every later shared subtree at its first index |
| DiffScan.NextDiffIds | contentious/bp_vector_base-impl.h:106-126 | the answer is the first index, from the given one on, on whose paths the ids differ at every level, or the size; what is skipped has equal values in both vectors, and the scan may be restarted behind its answer |
| Partition.ChunkIs | contentious/contentious.h:37-43 | a chunk is the least size with which the workers cover all elements |
| Partition.Tiles | contentious/contentious.h:37-43 | each index belongs to exactly one worker's partition |
| Partition.AllNonempty | contentious/contentious.h:37-43 | no partition is empty if and only if the last one is not |
| Reduce.AllShares | contentious/contentious.h:133-154 | the shares of all workers add up to the sum and what stray workers add too much |
| Reduce.SurplusIs | contentious/contentious.h:145-151 | what stray workers add is as many whole sums as there are of them, and the slots behind their starts |
| Reduce.SumPart | contentious/contentious.h:145-151 | the loop over the worker's range adds exactly its share; a stray one adds the slots behind its start and all elements, unless it meets a missing leaf |
| Reduce.ReduceSplt | contentious/contentious.h:133-154 | the splinter is the frozen vector with the share, stray or not, added to element 0, in nodes of its own; it fails exactly if a stray loop meets a missing leaf |
| Reduce.Reattach | contentious/cont_vector-impl.h:114-127 | a non-monotonic reattach adds the splinter's changes to the dependent, element by element |
| Reduce.Scan | contentious/cont_vector-impl.h:188-197 | the scan adds, for every element, what it changed since the freeze |
| Reduce.Resolve | contentious/cont_vector-impl.h:164-203 | the resolution adds the change of the sum since the freeze to element 0 and leaves the rest |
| Reduce.Freeze | contentious/cont_vector-impl.h:13-21 | after the freeze the source goes on under an id that no node carries |
| Reduce.Reduction.Write | contentious/cont_vector.h:250-253 | a write to the source in between keeps everything the protocol relies on |
| Reduce.Reduction.Splint | contentious/contentious.h:133-151 | detaching and computing in any order keeps it, too |
| Reduce.Reduction.Join | contentious/cont_vector-impl.h:87-127 | each reattach adds its share to the dependent, whatever happened before |
| Reduce.ReduceRun | contentious/cont_vector-impl.h:377-389 | for every vector and every interleaving of writes, computations and reattaches, the dependent ends as the sum of the source as it is then plus the surplus of the stray workers, so it is right if and only if that surplus is zero |
| Reduce.StrayRun | contentious/bp_vector_iterator.h:224-260 | four workers reduce five ones to ten |
| Foreach.ScaleRange | contentious/contentious.h:165-171 | the worker's loop over two mutable iterators multiplies exactly its range, in nodes that follow the old ones under the splinter's id |
| Foreach.MakeSplinter | contentious/contentious.h:163-171 | a splinter is computed in nodes of its own: everything that existed stays as it was |
| Foreach.SharesWhen | contentious/contentious.h:37-43 | every share is copied in full if and only if no worker is idle and a single worker does not copy a range that `assign` gets wrong |
| Foreach.OneWorkerFull | contentious/contentious_constants.h:11 | with one worker and a full vector the share is never copied on one leaf, copied in full on two levels, and up to element W * W on more |
| Foreach.MergedOne | contentious/cont_vector-impl.h:101-113 | splicing one worker's range, as far as `assign` gets, extends the merged result by that and nothing else |
| Foreach.Mapping.Detach | contentious/cont_vector-impl.h:51-56 | a detach records the source as it is; from then on neither the source, under its new id, nor the dependent can reach the snapshot |
| Foreach.Mapping.Write | contentious/cont_vector.h:250-253 | a write to the source keeps all snapshots, pending splinters and, after the first detach, the dependent |
| Foreach.Mapping.Splint | contentious/contentious.h:163-171 | computing a splinter keeps them as well |
| Foreach.Mapping.Join | contentious/cont_vector-impl.h:87-113 | each reattach replaces exactly its worker's range of the dependent, as far as `assign` gets, by the mapped snapshot and keeps what is pending |
| Foreach.ForeachRun | contentious/cont_vector-impl.h:391-403 | for every interleaving of writes, detaches and reattaches, element i ends as the source its worker found, mapped, up to where `assign` stops, and as it was behind: the order of merges is not seen; a run fails exactly if a computed share is empty or undefined for `assign` |
| Foreach.SnapIs | contentious/cont_vector-impl.h:51-56 | what a worker found is the source as the steps before its detach left it |
| Foreach.Mapping.Repair | contentious/cont_vector-impl.h:310-346 | the resolution combines in the differences of exactly the contended indices, with the operator that was passed, and marks exactly the changed ones; it is defined exactly if each index is skipped or can be undone |
| Foreach.MapExact | contentious/cont_vector-impl.h:310-346 | after it the vector is the map of the final source if and only if every element is unchanged, or repaired with the operator of the loop, or has its change hidden by the factor |
| Foreach.PatchedFine | contentious/cont_vector-impl.h:327-338 | a single element comes out right exactly in those cases |
| Foreach.ForeachThenResolve | contentious/cont_vector-impl.h:391-403 | the whole run, for both operators: when it is defined, what every element is, exactly when the result is the map of the final source, and that with times it is if the contended indices cover the writes |
| Foreach.PlusRun | contentious/contentious.h:168-171 | with plus, one changed element, one worker and factor 3, the result is 4 instead of 6 |
| Stencil.Repaired | contentious/cont_vector-impl.h:236-348 | what a worker computed from a stale snapshot, plus the due corrections, is the value computed from the final source |
| Stencil.InteriorRepaired | contentious/cont_vector-impl.h:236-348 | for interior elements wherever the contended indices are |
| Stencil.OutsideOverlaps | contentious/cont_vector-impl.h:242-253 | every neighbour outside a worker's partition is among the indices looked at again |
| Stencil.OverlapsExact | contentious/cont_vector-impl.h:242-253 | the indices looked at again are exactly those whose reader has another worker, and the first or last ones of the vector, as many as the offset is wide |
| Stencil.Spreads | contentious/cont_vector-impl.h:291-304 | a correction that changes anything lies at most one radius further out |
| StencilTasks.SafeMapping | contentious/contentious.cc:19-36 | the mapped position is clamped to the range, and the index moves with it |
| StencilTasks.Narrowest | contentious/contentious.h:211-224 | the iterated range is from the largest first to the smallest last index |
| StencilTasks.NarrowestIsInterior | contentious/contentious.h:222-224 | on wide partitions it is exactly the worker's share of the interior |
| StencilTasks.StencilSplt | contentious/contentious.h:202-237 | the worker's task with the commented operator loop adds exactly the terms on its range and stays in the vector exactly as stated; on wide partitions that is the stencil of its snapshot |
| StencilTasks.BuiltInSplt | contentious/contentious.h:226-236 | the task as it is adds the built-in kernel at the first offset on that range, whatever the operators |
| StencilTasks.BuiltInExact | contentious/contentious.h:226-236 | that is the stencil asked for, for all data, if and only if the operators have the summed coefficients of the built-in kernel at every offset, or the worker has no interior element |
| StencilTasks.BuiltInDiffers | contentious/contentious.h:226-236 | with coefficients 1, -2, 1 element 1 gets 0.4 instead of 1 |
| Resolution.Contend | contentious/cont_vector-impl.h:242-253 | `icontended` is exactly the set of indices read beyond a partition's ends |
| Resolution.WorkerOf | contentious/cont_vector-impl.h:280-285 | the search finds the partition that holds the image, or none |
| Resolution.ResolveMonotonic | contentious/cont_vector-impl.h:216-357 | each due correction is made once and no other; it stays inside the vectors exactly if every index looked at is readable; from the workers' results every element gets all corrections due to it, and from the protocol's situation the dependent becomes one sweep over the final source |
| Resolution.ResolutionRepairs | contentious/cont_vector-impl.h:216-357 | one resolution repairs all staleness |
| Resolution.ResolutionExact | contentious/cont_vector-impl.h:216-357 | a resolution leaves a sweep of the final source for all data if and only if all boundary elements are safe |
| Resolution.ChangesAreMarked | contentious/cont_vector-impl.h:291-304 | every element a resolution changed is in the dependent's contended set |
| Stencil.EdgeExact | contentious/cont_vector-impl.h:274-346 | a boundary element is right for all data if and only if no index that is contended or in another partition is read with a summed coefficient other than 0, or 1 for the element itself |
| Resolution.EdgeBroken | contentious/cont_vector-impl.h:274-346 | two resolutions in a row, with two workers on four elements: the second one leaves 0.16 in element 0, where a sweep leaves 0 |
| Resolution.EmptyPartitionLeaves | contentious/cont_vector-impl.h:274-286 | with an empty partition the index behind the end passes the range check |
| Pipeline.InitInv | contentious/cont_vector-impl.h:557-591 | the invariant holds when a chain of stencils is set up |
| Pipeline.ReattachKeeps | contentious/cont_vector-impl.h:87-160 | reattaching keeps it: snapshots of the vector were taken by workers that reattached before |
| Pipeline.CorrectKeeps | contentious/cont_vector-impl.h:287-304 | so does each single correction |
| Pipeline.FinishSwept | contentious/cont_vector-impl.h:216-357 | when a resolution ends, its vector is one sweep over its final source |
| Pipeline.Pipelined | contentious/cont_vector-impl.h:557-591 | in every run, every resolved vector of the chain holds that many sequential sweeps, as long as contended indices are two radii from the ends when a resolution ends |
| Pipeline.DeepPipelined | contentious/cont_vector-impl.h:557-591 | for partitions of (steps + 1) radii that holds in every run |
| Pipeline.ContendedExact | contentious/cont_vector-impl.h:287-304 | in every run the contended set of each vector is exactly the elements that corrections made so far have changed |
| Pipeline.SomeStep | contentious/cont_vector-impl.h:41-160 | until the last vector is resolved some step is enabled |
| Chain.SweepRange | contentious/contentious.h:226-236 | the loop of the stencil on the tries: exactly its range of the splinter changes, as on sequences |
| Chain.Stencils.DoDetach | contentious/cont_vector-impl.h:41-60 | detaching and computing on the tries is the detach step of the transition system, and keeps every other vector, snapshot and splinter |
| Chain.Stencils.DoReattach | contentious/cont_vector-impl.h:101-113 | so is reattaching by `assign` |
| Chain.Stencils.DoCorrect | contentious/cont_vector-impl.h:287-304 | and each correction through the mutable iterator |
| Chain.PipelinedOnTries | contentious/cont_vector-impl.h:557-591 | every run of the pipeline on the tries shows the states of the transition system, so every resolved vector holds that many sequential sweeps |
| Pool.StepKeeps | include/folly/IndexedMemPool.h:342-434 | every step of every thread keeps the invariant |
| Pool.KnowsKept | include/folly/IndexedMemPool.h:267-283 | no thread's step spoils what another read before: tags exclude ABA |
| Pool.Exclusive | include/folly/IndexedMemPool.h:342-434 | in every reachable state each constructed slot is in exactly one place: client, one local list, one global chain, one thread's hands |
| Pool.ListsAreTrue | include/folly/IndexedMemPool.h:340-376 | a local head's size is its list's length, a published chain has LocalListLimit + 1 slots, and the links lead through them; an allocated slot is marked |
| Pool.HandedOutOnce | include/folly/IndexedMemPool.h:390-434 | no slot is given to the client while the client holds it |
| PoolCalls.AllocReturns | include/folly/IndexedMemPool.h:168-178 | an allocation returns a slot that was in its hands and is the client's now; or nothing, having seen its local list empty, then the global list empty, then all slots constructed |
| PoolCalls.RecycleReturns | include/folly/IndexedMemPool.h:191-197 | recycling puts the client's slot back into a local list or a global chain |
| PoolCalls.CapacityIsMet | include/folly/IndexedMemPool.h:156-162 | `capacity()` is a lower bound: an undisturbed allocation fails only if the client holds that many slots |
| PoolCalls.TagsCount | include/folly/IndexedMemPool.h:267-283 | every change of a head counts its tag up by one |
| PoolCalls.SizeCounts | include/folly/IndexedMemPool.h:404-418 | `size_` counts all attempts to construct a slot, and the slots up to the capacity are constructed |
| PoolCalls.NeverStuck | include/folly/IndexedMemPool.h:342-434 | a thread can begin any call, and no call waits for another thread |
| LifoSem.StepKeeps | include/folly/LifoSem.h:534-595 | every step of every thread keeps the invariant |
| LifoSem.Conserved | include/folly/LifoSem.h:330-354 | initial and posted units equal the value, the decremented units and the waiters popped by posts; these have returned or are about to |
| LifoSem.ValueOrWaiters | include/folly/LifoSem.h:192-210 | a positive value excludes queued waiters; the stack is what the links lead through, each node once |
| LifoSem.NoAba | include/folly/LifoSem.h:538-544 | a successful pop installs the popped node's true successor, however nodes were reused |
| LifoSem.WokenKeeps | include/folly/LifoSem.h:426-457 | a waiter gets a unit exactly if a post popped it, an error exactly if shutdown did |
| LifoSem.ShutForGood | include/folly/LifoSem.h:361-376 | after shutdown nobody queues any more |
| LifoSem.ShutdownEmpties | include/folly/LifoSem.h:378-390 | when shutdown returns no waiter is queued |
| SemCalls.TurnCounts | include/folly/LifoSem.h:256-308 | the sequence number counts the pops and the changes of the value, and nothing else |
| SemCalls.PostPuts | include/folly/LifoSem.h:331-354 | post(n) puts in exactly n units, as value or into waiters, and leaves no popped waiter unposted |
| SemCalls.TryTakes | include/folly/LifoSem.h:393-419 | tryWait(n) returns what it took, and less than n only after seeing no value |
| SemCalls.WaitTakes | include/folly/LifoSem.h:426-457 | wait returns having taken exactly one unit, and throws having taken none: shut down and without value when it gave up, or its node popped by shutdown |
| SemCalls.ShutdownStops | include/folly/LifoSem.h:366-390 | shutdown returns with the semaphore shut down and no waiter queued or popped and unposted, and moves no unit |
| SemCalls.NoLostWakeup | include/folly/LifoSem.h:106-118 | when nobody but sleepers is in a call, every sleeper is queued, the value is zero if there are any, and after a shutdown there are none |
| SemCalls.NeverStuck | include/folly/LifoSem.h:534-595 | a thread can begin any call, and a call can make its next access unless it sleeps on a node nobody has posted |
| HashArray.AnchorHits | include/folly/AtomicHashArray.h:426-431 | every cell is the anchor of some hash; the anchor is the hash modulo the rounded-up capacity, or modulo the capacity where that is too big |
| HashArray.PosOnce | include/folly/AtomicHashArray.h:45-55 | a linear probe path meets no cell twice |
| HashArray.PosAll | include/folly/AtomicHashArray.h:45-55 | and it meets every cell |
| HashArray.CellsMoveOnward | include/folly/AtomicHashArray.h:416-424 | a cell only moves from empty to locked to its key to erased |
| HashArray.StepKeeps | include/folly/AtomicHashArray-inl.h:102-213 | every step of every thread keeps the invariant |
| HashArray.OneCellPerKey | include/folly/AtomicHashArray-inl.h:102-213 | a live key occupies one cell, and no cell before it on its path is empty |
| HashArray.FindFinds | include/folly/AtomicHashArray-inl.h:56-79 | a find begun with its key live returns the key's cell unless it was erased meanwhile |
| HashArray.InsertInserts | include/folly/AtomicHashArray-inl.h:139-196 | a successful insert has put its key where it says, a colliding one has seen it there |
| HashArray.InsertThenFind | include/folly/AtomicHashArray-inl.h:56-213 | in every run, a find that begins after an insert of its key has returned, and returns before that entry is erased, returns the cell that the insert named |
| HashCalls.FindReturns | include/folly/AtomicHashArray-inl.h:56-79 | a hit holds its key when it returns; a miss has met an empty cell or every cell of the path, and its key was out of the table at some moment of the call |
| HashCalls.InsertReturns | include/folly/AtomicHashArray-inl.h:102-213 | an insert has locked an empty cell and put in its key, which was not in the table, and written nothing else; or found its key; or its key was not in the table, which was used up, or closed with no insert pending |
| HashCalls.EraseReturns | include/folly/AtomicHashArray-inl.h:229-272 | an erase has taken its key out with its last access; or written nothing, and its key was out of the table at some moment of the call |
| HashCalls.LiveChanges | include/folly/AtomicHashArray-inl.h:139-258 | the set of keys changes at these accesses only |
| HashCalls.FullIsFinal | include/folly/AtomicHashArray-inl.h:117-137 | a key that was refused because the table is full is never in the table again |
| HashCalls.EntriesCount | include/folly/AtomicHashArray-inl.h:173-177 | the entry count is the number of cells used up, but for inserts about to count theirs; the table is closed only at the limit |
| HashCalls.LimitCloses | include/folly/AtomicHashArray-inl.h:174-178 | an insert that reads the limit closes the table for good before it returns |
| HashCalls.NeverStuck | include/folly/AtomicHashArray-inl.h:157-165 | a thread can begin any call, and every call can make its next access, unless its cell is locked; then the thread that locked it can, and unlocks it |
| Queue.ProducerKeeps | include/folly/ProducerConsumerQueue.h:93-108 | the writer's steps keep the invariant |
| Queue.ConsumerKeeps | include/folly/ProducerConsumerQueue.h:110-150 | the reader's steps keep it |
| Queue.Ordered | include/folly/ProducerConsumerQueue.h:93-126 | values leave in the order written, none lost or repeated, at most size - 1 are held |
| Queue.Fifo | include/folly/ProducerConsumerQueue.h:93-150 | what was read or popped is a prefix of the arguments of the writes that returned true, and a read returns the oldest one left |
| Queue.Refusals | include/folly/ProducerConsumerQueue.h:99-115 | a write is refused exactly if size - 1 values are in the queue when it looks, a read finds nothing exactly if none is |
| Queue.WaitFree | include/folly/ProducerConsumerQueue.h:93-150 | each side can always begin a call or make its next access, and each access brings the call nearer to its end |
| Queue.NeverOverwrites | include/folly/ProducerConsumerQueue.h:100-103 | the writer constructs only into an empty slot, never the one being read |
| Queue.ReadsFront | include/folly/ProducerConsumerQueue.h:110-150 | the reader reads the oldest value still in the queue |
| Spooky.Hash128 | include/folly/SpookyHashV2.cpp:148-207 | the one-shot loop computes the hash of the whole message |
| Spooky.PaddedByte | include/folly/SpookyHashV2.cpp:196-201 | the last block byte by byte: the rest of the message, zeros, and in the last byte its length |
| Spooky.TwoBlocks | include/folly/SpookyHashV2.cpp:163-207 | a 192-byte message written out: twelve start words from both seeds and the constant, two blocks, a last block of zeros |
| Spooky.SpookyHashV2.Update | include/folly/SpookyHashV2.cpp:222-322 | the state and buffer stand for all fragments so far |
| Spooky.SpookyHashV2.Final | include/folly/SpookyHashV2.cpp:326-373 | the result is the one-shot hash of all fragments |
| Spooky.Stream | include/folly/SpookyHashV2.h:107-114 | however a message is cut into pieces, streaming gives the one-shot hash |
| Digits.CountIsLength | include/fmt/format.h:853-858 | `count_digits` is the number of decimal digits, for every 64-bit number |
| Digits.CountDigitsFallback | include/fmt/format.h:861-875 | so is the fallback, for every number |
| Digits.FormatDecimal | include/fmt/format.h:915-937 | exactly that many characters are written: the numeral, without leading zeros |
| Digits.FormatInt.Signed | include/fmt/format.h:3208-3216 | signed numbers print right, the least one included |
| Digits.ValueOfNumeral | include/fmt/format.h:915-937 | the numeral stands for the number |
| Digits.ParseNonnegativeInt | include/fmt/format.h:3451-3468 | a run of digits is refused if leaving off some digits shows one more making the 32 low bits smaller, or if these bits are too big, and else read as these bits; up to UINT_MAX that is right, and for ten digits it is right if and only if the value fits, or the low bits are below a tenth of it or above INT_MAX |
| Digits.ParseExact | include/fmt/format.h:3454-3466 | for a value of any length the result is right if and only if it is at most UINT_MAX, or wrapping is noticed, or the low bits are above INT_MAX |
| Digits.RoundTrip | include/fmt/format.h:3451-3468 | what was printed is read back |
| Digits.WrapsUnseen | include/fmt/format.h:3455-3460 | 5000000000 is accepted as 705032704 |
| Mixers.TwangMixUndone | include/folly/Hash.h:116-144 | `twang_unmix64` inverts `twang_mix64` on every key |
| Mixers.JenkinsMixUndone | include/folly/Hash.h:164-207 | `jenkins_rev_unmix32` inverts `jenkins_rev_mix32` on every key |

## Left out

- Integer widths in the trie and the protocol, wrap-around of ids, tags, sequence numbers and sizes, saturation of the semaphore's value, and floating-point rounding: numbers are exact and unbounded; `std::pow` and the partition's `std::ceil` are exact. Depths are given as shifts.
- Reference counting and destruction of nodes, `abandon`, and the thread pool: memory and scheduling only. Each worker's tasks run in order, resolutions run in order.
- `count_down` and `try_wait` of a latch are one step with the reattach, so that a step is resolved once.
- `foreach` over a second vector, and non-monotonic maps other than a reduction: the merges are `Foreach.Mapping.Join` and `Reduce.Reattach`.
- Foreach.ForeachRun: a run ends where a computed share is empty or not `Defined`, since `assign` asserts the first and leaves its arrays in the second case. What the dependent holds behind the point where `assign` stops is its contents at the first detach; they are the initial ones if nothing is written before.
- `reduce_splt` uses `+=` whatever operator was passed; reductions are modelled with plus, over exact numbers. The loop of `foreach` is modelled as it is, and its resolution with plus and with times.
- `stencil_old`, `stencil_oldest`, `refresh`, `insert`, `remove`: superseded, unused or undefined.
- Turning a `bp_vector` into a transient, mutable iterators on `ps_vector`, and `set` or `push_back` on a transient while other handles share its id: ids do not carry ownership there.
- Chain.PipelinedOnTries: the chain of vectors is set up before the first task runs, so that no vector is copied while its source is written; partitions are two radii wide and copied in full by `assign`.
- Chain.TermsAt: reads each neighbour through an iterator of its own instead of moving one along.
- Digits.FormatDecimal: no thousands separators; the rest of fmt is not modelled.
- HashArray.StepKeeps: value constructors do not throw; a thread's cached entry count may lag behind the true one; the count of erases, quadratic probing, growth and iteration are not modelled.
- The lock-free structures are sequentially consistent here: weaker memory orders are not modelled.
- Pool.StepKeeps: construction and destruction of elements, and which stripe a thread picks, are left open.
- LifoSem.StepKeeps: a handoff is a one-shot flag; running out of nodes is not modelled.
- Spooky.Stream: `Mix`, `End` and `Short` are parameters, words are not bounded.
