# Negotiation, tuning and staging: a model with proofs

A training job runs the same program on several ranks.  Before tensors can be reduced, gathered or
broadcast, the ranks have to agree on which tensors are ready everywhere, in which order and in
which groups.  This project models that agreement and what surrounds it in Dafny, and proves what
the code promises about it:

* **Negotiation** (`Negotiation`, `Invariants`, `Runs`, `Agreement` and the proof modules between
  them): any number of ranks with tensor tables, message queues and caches, and a coordinator with
  its message table.  The specification of one cycle is a function on the state of all ranks; the
  collectives are atomic and perfect.  Lookups of absent names, conflicting cache entries and ranks
  in different collectives are faults.  A run of arbitrary steps, which may set the cache capacity at
  any time and use another fusion threshold in every cycle, faults exactly when a stall check looks
  up a watched name that is neither queued nor cached.
* **The program's main loop** (`Watching`, `TunedRuns`): the capacity is set by the startup code and
  by the controller while tuning is active, and the fusion threshold follows from each rank's own
  parameters.  With the autotuner in the loop, or without it, no run faults at all.
* **What a cycle leaves behind** (`FusionExact`, `CachingProofs`, `CachedCycles`, `OrderProofs`,
  `ErrorProofs`, `WatchProofs`, `StallRuns`): exactly what is fused, cached, ordered and reported, so that
  a training step that repeats the one before needs no coordinator, and a tensor that some rank does not
  ask for is reported in time.
* **The controller in place** (`Controller`, `ControllerCycle`, `ConstructLoop`, `FusionLoop`,
  `ResponseCache`, `CacheCoordinator`, `StallInspector`, `TensorQueue`, `FusionBuffer`): classes with
  the program's fields and loops, each method proved against the specification, and a whole cycle on
  the controllers of all ranks.  A list iterator is represented by the node it points to, since a
  linked node never changes.  Words of 64 bits are sequences of booleans.
* **Callbacks** (`Callbacks`): every accepted tensor is told exactly once, and told the truth.
* **Autotuning** (`Tuning`, `TuningRounds`, `ParameterManager`): the chain of parameters as an
  odometer, the best combination, and the parameter broadcast that keeps ranks in step.
* **Half precision** (`Floats`, `Half`, `HalfSum`): conversions and sums as integer arithmetic on
  bit patterns.  Bit fields do not overlap, so they are combined by addition; a shift by 31 in the
  narrowing conversion is taken as two's complement.
* **Training windows and staging** (`Windows`, `Stager`, `StagerProtocol`): the choice of sequences
  without shared frames, and the master and workers that copy a directory.

What the model assumes: no rank joins early; all ranks are started with the same size, settings and
cache capacity; a tensor's bytes follow from its type and shape.  Submissions happen between
cycles, and a rank performs what was agreed before the next cycle.  Scores, proposals of the
optimiser, times, memory and the outcome of an operation are arbitrary.  A run of arbitrary steps has
one fusion threshold per cycle; that the ranks use the same one is proved for the program's own runs
(`TunedRuns.NextTurn`).

Where the code falls short of what one would expect, the model follows the code, and the exact
condition is proved:

* A shutdown request is lost in a cycle that is answered from the cache, because fusing replaces the
  list that carried the flag (`Agreement.ShutdownReported`, `Agreement.ShutdownMissed`).  The state in
  which this happens is reached in four steps (`Agreement.AgainReached`).
* The cache does not compare operations, so a name that changes its operation can get the old one.
  Which requests are honoured can be told before the cycle, from the cache and the queues
  (`Operations.OperationExact`, `Agreement.OperationReplaced`).
* The cache capacity given at startup is not kept once the autotuner is on: the startup code sets it, but
  the controller, in every cycle while tuning is active, sets its own capacity of 1024, which nothing
  assigns (`controller.h:184`).  It is kept exactly if the tuner is off, or no turn has been taken, or the
  capacity given is 0 or 1024 (`TunedRuns.ConfiguredHonoured`, `TunedRuns.FiveReplaced`).  A fusion threshold
  given at startup is kept (`TunedRuns.ThresholdHonoured`).
* The cache capacity is not set to the best value when tuning ends, although the header says that the
  returned values will be the best ones.  Whether it is right all the same follows from the scores
  (`TuningRounds.CapacityAfterTuning`, `TuningRounds.CapacityMismatch`, `TunedRuns.CapacityLeft`).
* Rounding up a threshold does not give the least multiple for most thresholds below the negative unit,
  since the division then rounds towards zero (`FusionBuffers.ThresholdLeast`).
* Staging counts one message too many for each `;` in a file name (`StagerProtocol.NoHang`).  Empty
  names do no harm.

Every lemma switches automatic induction off, so that its proof is what is written.  To verify the
project, run `dafny verify dfyconfig.toml`.

## Model

| member | source | states |
|---|---|---|
| `Agreement.NextCycle` | wfppdl/training/docker/horovod/horovod/common/controller.cc:55-336 | After any run of submissions, cycles with any thresholds, performed responses and changes of the cache capacity that has not faulted, the next cycle faults exactly if a rank's stall check looks up an absent name; otherwise all ranks return one and the same response list and shutdown flag and keep equal caches, and the list names exactly the tensors every rank has asked for, each once. |
| `TunedRuns.NextTurn` | wfppdl/training/docker/horovod/horovod/common/operations.cc:526-581 | The program's own runs, with the autotuner setting the capacity or without it: no turn of the main loop faults, all ranks use the same fusion threshold in it, each computed from its own parameters, and each turn serves all ranks alike exactly the tensors all have asked for. |
| `TunedRuns.PlaySafe` | wfppdl/training/docker/horovod/horovod/common/controller.cc:55-61 | Any run of the program, whatever is submitted, measured and proposed, is free of faults and keeps the invariant; while the cache is tuned nothing is watched before it has been turned on, and then it has the controller's capacity; a fixed cache has the capacity set at startup up to the first tuned turn. |
| `TunedRuns.ConfiguredHonoured` | wfppdl/training/docker/horovod/horovod/common/operations.cc:418-428 | For a cache that is not tuned: after any run all ranks have the capacity set at startup exactly if the autotuner is off, or no turn has been taken, or that capacity is 0 or the controller's 1024; otherwise all have 1024. |
| `TunedRuns.FiveReplaced` | wfppdl/training/docker/horovod/horovod/common/controller.h:184 | A concrete run of one turn in which a capacity of 5 given at startup is replaced by 1024. |
| `TunedRuns.ThresholdHonoured` | wfppdl/training/docker/horovod/horovod/common/operations.cc:403-409 | A fusion threshold given at startup in bytes, kept in megabytes, is the one used in every turn of every run, up to the rounding to the unit. |
| `TunedRuns.TurnFits` | wfppdl/training/docker/horovod/horovod/common/operations.cc:238-258 | In every turn of the program, on every rank, the tensors of a response with two or more fit the buffer that the rank initialises with the threshold of its own parameters. |
| `CycleTheorem.CycleServes` | wfppdl/training/docker/horovod/horovod/common/controller.cc:118-336 | One cycle from any state that satisfies the invariant faults exactly if a rank looks up an absent name: no other lookup fails, no cache entry conflicts, no rank is in another collective. Otherwise the invariant holds again and every rank gets the same list, with its own device and rows in each response and room in its fusion buffer. |
| `Runs.StepExact` | wfppdl/training/docker/horovod/horovod/common/controller.cc:55-336 | Every single step either is a cycle in which a rank looks up an absent name, and faults, or keeps the invariant: queues, message table and pending responses account for the tensor table, caches agree in names, order, bits, responses, types and shapes, filed names are not cached. |
| `Runs.RunExact` | wfppdl/training/docker/horovod/horovod/common/response_cache.cc:93-99 | For every sequence of steps: the run faults exactly if one of its cycles looks up an absent name; the overwrite error, other missing keys and diverging collectives are unreachable. |
| `Watching.RunWatch` | wfppdl/training/docker/horovod/horovod/common/stall_inspector.cc:112-126 | Runs that do not turn the cache on while names are watched never fault; only queued names are watched in them. |
| `Agreement.NextCycleSafe` | wfppdl/training/docker/horovod/horovod/common/stall_inspector.cc:112-126 | In such a run the next stall check finds all its names. |
| `Agreement.EachRequestOnce` | wfppdl/training/docker/horovod/horovod/common/tensor_queue.cc:27-35 | A tensor in a rank's table has exactly one request, in the rank's queue or with the coordinator, until it is agreed on, and none afterwards. |
| `Agreement.ShutdownReported` | wfppdl/training/docker/horovod/horovod/common/controller.cc:149-169 | All ranks report shutdown at once, exactly when some rank asks for it and the cycle is not one that is answered from the cache with something to answer. |
| `Agreement.ShutdownMissed` | wfppdl/training/docker/horovod/horovod/common/controller.cc:184-185 | A concrete cycle answered from the cache in which a shutdown request is not reported, because fusion replaces the list that carried the flag. |
| `Agreement.NextCycleAsPlanned` | wfppdl/training/docker/horovod/horovod/common/response_cache.cc:50-65 | If every name has kept its operation over the whole run, each response of the next cycle performs, or fails, the operation that was asked for. |
| `Operations.CycleAsPlanned` | wfppdl/training/docker/horovod/horovod/common/controller.cc:55-336 | One cycle keeps requests, caches and responses to the plan that assigns an operation to every name. |
| `Operations.OperationExact` | wfppdl/training/docker/horovod/horovod/common/response_cache.cc:50-65 | For every request for a tensor that a response answers: the response performs the operation asked for, or reports an error, exactly if the tensor's entry is not cached, or is given up by some rank in this cycle (stalled, or other attributes queued), or was cached for that operation. |
| `Agreement.OperationReplaced` | wfppdl/training/docker/horovod/horovod/common/response_cache.cc:57-59 | A concrete Adasum request that is answered with the allreduce cached under its name. |
| `Agreement.AgainReached` | wfppdl/training/docker/horovod/horovod/common/controller.cc:187-336 | The states of the two concrete shortfalls are reached from the start: a request, a cycle through the coordinator, the operation performed, another request under the same name. |
| `CycleProofs.LookupFails` | wfppdl/training/docker/horovod/horovod/common/stall_inspector.cc:112-126 | The cache lookup of an overdue name fails on a rank exactly when the name is watched although it is neither queued nor cached. |
| `Agreement.AgreedPerformable` | wfppdl/training/docker/horovod/horovod/common/tensor_queue.cc:87-95 | When its turn comes, every agreed response finds all its tensors in the rank's table, each once, whatever has been submitted in the meantime, even under names just performed. |
| `SlowProofs.FiledAll` | wfppdl/training/docker/horovod/horovod/common/controller.cc:778-801 | With the messages of a cycle in, a name has as many requests as there are ranks exactly when it is not cached and every rank asked for it; never more. |
| `SlowProofs.ReadyNames` | wfppdl/training/docker/horovod/horovod/common/controller.cc:195-243 | The ready names are distinct, and are exactly the uncached names that every rank asked for. |
| `SlowProofs.ReadyComplete` | wfppdl/training/docker/horovod/horovod/common/controller.cc:276-279 | Responses are built from complete sets of requests: one from each rank, all ranks in range. |
| `OrderProofs.MessagesInOrder` | wfppdl/training/docker/horovod/horovod/common/controller.cc:127-146 | Messages kept for the next cycle and messages sent stay in the order in which they were queued. |
| `OrderProofs.ReadyInOrder` | wfppdl/training/docker/horovod/horovod/common/controller.cc:195-243 | Tensors become ready in the order of their last requests. |
| `OrderProofs.ListInOrder` | wfppdl/training/docker/horovod/horovod/common/controller.cc:262-292 | The coordinator's list is the fusion of the cached answers in the order of their bits, followed by the ready tensors in the order in which they became ready. |
| `Invariants.EraseAllLive` | wfppdl/training/docker/horovod/horovod/common/controller.cc:603-608 | Erasing the agreed invalid bits succeeds, and every other name keeps its bit and entry. |
| `RoundProofs.CommonEverywhere` | wfppdl/training/docker/horovod/horovod/common/controller.cc:130-143 | A name still cached after the invalid entries are erased is among the common hits exactly when every rank has a request for it in its queue. |
| `PutProofs.ToCacheFused` | wfppdl/training/docker/horovod/horovod/common/controller.cc:320-330 | What is split up again for the cache are single reductions that went into the fusion. |
| `PutProofs.PutAllSame` | wfppdl/training/docker/horovod/horovod/common/response_cache.cc:144-180 | Caching one list on two ranks whose tensors agree in type and shape keeps their caches equal. |
| `CachingProofs.FinishCaches` | wfppdl/training/docker/horovod/horovod/common/controller.cc:318-335 | After a cycle with communication every reduction that all ranks take part in has been cached, tensor by tensor: the recency list has these tensors in front, the last one first, then what it had, up to the capacity, and each of the last `capacity` of them is cached with its attributes in the table and with its part of the response unless it was cached before. |
| `CachingProofs.AnswersToFront` | wfppdl/training/docker/horovod/horovod/common/controller.cc:175-182 | Answers from the cache move to the front of the recency list one after the other; entries and bits stay. |
| `CachedCycles.CycleHolds` | wfppdl/training/docker/horovod/horovod/common/controller.cc:154-335 | After a cycle on whichever path, the cache of every rank holds the tensors just reduced by all ranks, at least the last `capacity` of them, with the attributes they have on that rank. |
| `CachedCycles.NextStep` | wfppdl/training/docker/horovod/horovod/common/controller.cc:154-186 | One training step after another: after any run, if the ranks queue again only tensors that the last cycle reduced, as they were and not more than the cache holds, and none is stalled, the next cycle is answered from the caches, without the coordinator. |
| `AnswerProofs.GetAllSame` | wfppdl/training/docker/horovod/horovod/common/controller.cc:175-182 | Taking the same hits from two equal caches yields the same responses and equal caches. |
| `Controllers.Controller.BeforeSync` | wfppdl/training/docker/horovod/horovod/common/controller.cc:63-116 | The code up to the combination of bits: the rank's report and stall table are those of the specification, and it fails exactly where that does; whether a check is due, which names are overdue by then and whether the coordinator gives up follow from the stall tables and the time; the time of the last check moves on exactly if a check was due, and the ranks reported are the missing ones. |
| `Controllers.Controller.ClassifyOne` | wfppdl/training/docker/horovod/horovod/common/controller.cc:78-98 | One message is recorded as a hit, an invalid entry or a miss, and watched or not, by its cache state. |
| `Controllers.Controller.EraseInvalid` | wfppdl/training/docker/horovod/horovod/common/controller.cc:603-608 | Entries are erased in the order of their bits, up to the first that is absent. |
| `Controllers.Controller.SplitMessages` | wfppdl/training/docker/horovod/horovod/common/controller.cc:127-146 | The rotating deque keeps the requests for the coordinator in order, puts uncommon hits back into the queue in order, and updates the stall table. |
| `Controllers.Controller.AfterSync` | wfppdl/training/docker/horovod/horovod/common/controller.cc:118-147 | The code between the combination of bits and the coordinator refines the specification step. |
| `Controllers.Controller.TakeHits` | wfppdl/training/docker/horovod/horovod/common/controller.cc:175-182 | The common hits become responses in the order of their bits, and move to the front of the cache. |
| `Controllers.Controller.AnswerFromCache` | wfppdl/training/docker/horovod/horovod/common/controller.cc:154-186 | The path without communication refines the specification step, including the empty list without hits. |
| `Controllers.Controller.CacheResponses` | wfppdl/training/docker/horovod/horovod/common/controller.cc:320-330 | The reductions agreed on by all ranks enter the cache one tensor at a time, or the first conflict is reported; what is in the cache then is CachingProofs.FinishCaches. |
| `Controllers.Controller.Finish` | wfppdl/training/docker/horovod/horovod/common/controller.cc:318-335 | The end of a cycle with communication refines the specification step, after which all reductions are cached (CachingProofs.FinishCaches). |
| `Controllers.Controller.IncrementTensorCount` | wfppdl/training/docker/horovod/horovod/common/controller.cc:778-801 | A request is filed under its name, and the name is ready exactly when it has a request from each rank. |
| `Controllers.Controller.CollectReady` | wfppdl/training/docker/horovod/horovod/common/controller.cc:195-243 | Filing all ranks' requests leaves the tables and the ready list of the specification. |
| `Controllers.Controller.ConstructResponse` | wfppdl/training/docker/horovod/horovod/common/controller.cc:358-597 | The response for a name is the verdict on its requests, with errors that say what ErrorProofs.ErrorReported says; its entries leave the message table and the stall table, and no others. |
| `Controllers.Controller.RespondAll` | wfppdl/training/docker/horovod/horovod/common/controller.cc:276-279 | Responses are built in the order in which names became ready. |
| `Controllers.Controller.PeekHits` | wfppdl/training/docker/horovod/horovod/common/controller.cc:266-274 | Cached answers are looked up in the order of their bits without touching the cache. |
| `Controllers.Controller.CoordinateAll` | wfppdl/training/docker/horovod/horovod/common/controller.cc:187-292 | The coordinator's list and tables are those of the specification: cached answers first, then ready tensors, fused. |
| `ControllerCycles.ComputeResponseLists` | wfppdl/training/docker/horovod/horovod/common/controller.cc:63-336 | One cycle on the controllers of all ranks in place, with the branch between the cached and the coordinated path and the agreement on bits in words: from any state that satisfies the invariant, with the overdue names and the verdict that each rank's stall tables give at this time, it fails exactly when the specification of the cycle does, and otherwise leaves the controllers, and returns the lists, that the specification gives. Each inspector's check time moves on exactly if a check was due, and waiting tensors keep their times. |
| `ValidationProofs.ErrorsIff` | wfppdl/training/docker/horovod/horovod/common/controller.cc:368-553 | For one request from each rank there is an error exactly when two requests disagree in type, operation, shape (or rank and trailing dimensions, all of nonzero rank, for allgather), root or placement. |
| `ErrorProofs.FirstOffender` | wfppdl/training/docker/horovod/horovod/common/controller.cc:366-553 | Which error is reported: the first request to fail the first failed check, in the order type, operation, shape, dimensions, root, placement, with the first request's value and its own; an allgather of scalars is reported besides a mixed type or operation. |
| `ErrorProofs.ErrorsTrue` | wfppdl/training/docker/horovod/horovod/common/controller.cc:366-553 | Every clause of an error message is true of the requests. |
| `ErrorProofs.ErrorReported` | wfppdl/training/docker/horovod/horovod/common/controller.cc:554-560 | The response that all ranks get carries this message. |
| `ValidationProofs.ConstructMeaning` | wfppdl/training/docker/horovod/horovod/common/controller.cc:554-589 | What every rank is told: the operation all asked for or an error, each rank's own device and, for allgather, each rank's own rows. |
| `ValidationProofs.OrderIrrelevant` | wfppdl/training/docker/horovod/horovod/common/controller.cc:358-597 | Verdict, operation, devices and sizes are the same for every order of the requests. |
| `ConstructLoops.Validate` | wfppdl/training/docker/horovod/horovod/common/controller.cc:366-592 | The chain of checking loops with its skipping rules yields the specified response, whose error clauses ErrorProofs.ErrorReported determines. |
| `ConstructLoops.CheckGather` | wfppdl/training/docker/horovod/horovod/common/controller.cc:432-498 | The allgather check stops at the first offender, and files the first dimensions under their ranks if there is none. |
| `ConstructLoops.CollectDevices` | wfppdl/training/docker/horovod/horovod/common/controller.cc:554-557 | Devices are filed under the ranks that sent them. |
| `Fusion.ScanDeals` | wfppdl/training/docker/horovod/horovod/common/controller.cc:642-684 | The look-ahead deals the queue out to the group and the rest: nothing lost, repeated or reordered. |
| `Fusion.FuseNames` | wfppdl/training/docker/horovod/horovod/common/controller.cc:626-750 | Fusion keeps the multiset of tensor names. |
| `Fusion.GroupsLawful` | wfppdl/training/docker/horovod/horovod/common/controller.cc:651-660 | Each group has one type, one device list and one element type, and a group of two or more stays within the threshold. |
| `Fusion.GroupsInOrder` | wfppdl/training/docker/horovod/horovod/common/controller.cc:680-684 | Group heads, and the members of each group, keep the order of the queue. |
| `Fusion.MergeChunks` | wfppdl/training/docker/horovod/horovod/common/message.cc:325-333 | Each allgather finds its own sizes in its place of the fused list. |
| `Fusion.FuseSame` | wfppdl/training/docker/horovod/horovod/common/controller.cc:640-655 | Ranks whose tables agree in element types and shapes fuse alike. |
| `FusionExact.FirstExact` | wfppdl/training/docker/horovod/horovod/common/controller.cc:626-750 | Which tensors share the first response's buffer, exactly: those of its operation, devices and element type that fit in together with all of their like before them, as long as everything else before them, taken together with them, would have fitted in too. |
| `FusionExact.FitsFused` | wfppdl/training/docker/horovod/horovod/common/controller.cc:640-727 | What fits together is fused: a tensor of the first one's operation, devices and element type is in the first response if all tensors up to it need no more bytes than the threshold (output bytes for allgather). |
| `FusionExact.UniformOne` | wfppdl/training/docker/horovod/horovod/common/controller.cc:628-662 | Tensors of one operation, on the same devices and with the same element type, that fit together are answered by a single response with all their names in order. |
| `FusionExact.OthersFused` | wfppdl/training/docker/horovod/horovod/common/controller.cc:679-683 | What is left over is fused like a queue of its own, in its order. |
| `FusionExact.GatheredBytes` | wfppdl/training/docker/horovod/horovod/common/controller.cc:752-774 | The output bytes counted for an allgather are the sum of what the ranks contribute. |
| `FusionLoops.FuseFirst` | wfppdl/training/docker/horovod/horovod/common/controller.cc:630-744 | The inner loop with its skipping and its reinsertion of what was skipped yields the group and the queue that FusionExact characterises. |
| `FusionLoops.FuseResponses` | wfppdl/training/docker/horovod/horovod/common/controller.cc:626-750 | The outer loop ends and yields the specified fusion, whose responses FusionExact.FirstExact and FusionExact.OthersFused determine. |
| `CacheRuns.StepRefines` | wfppdl/training/docker/horovod/horovod/common/response_cache.cc:87-256 | One cache operation acts on the recency order like a plain bounded list, moves no survivor's bit unless bits are renumbered, numbers them by recency then, and fails exactly for a name cached with other attributes. |
| `CacheRuns.RunRefines` | wfppdl/training/docker/horovod/horovod/common/response_cache.cc:28-256 | From an empty cache on, any sequence of operations keeps the size bound, the pairing of names and bits, and the plain recency list. |
| `ResponseCaches.ResponseCache.SetCapacity` | wfppdl/training/docker/horovod/horovod/common/response_cache.cc:35-44 | A changed capacity empties the cache; the same capacity leaves it. |
| `ResponseCaches.ResponseCache.Cached` | wfppdl/training/docker/horovod/horovod/common/response_cache.cc:50-85 | Hit, invalid or miss by name and attributes. |
| `ResponseCaches.ResponseCache.PutSingle` | wfppdl/training/docker/horovod/horovod/common/response_cache.cc:87-142 | List, iterators and name table after adding an entry represent the specified cache; a conflicting name is refused and changes nothing. |
| `ResponseCaches.ResponseCache.Put` | wfppdl/training/docker/horovod/horovod/common/response_cache.cc:144-180 | A fused response is added tensor by tensor, with the attributes in the tensor table. |
| `ResponseCaches.ResponseCache.GetResponse` | wfppdl/training/docker/horovod/horovod/common/response_cache.cc:182-197 | The entry behind a bit moves to the front, its bit follows it, and its response is returned. |
| `ResponseCaches.ResponseCache.PeekResponse` | wfppdl/training/docker/horovod/horovod/common/response_cache.cc:199-202 | The response behind a bit. |
| `ResponseCaches.ResponseCache.PeekCacheBit` | wfppdl/training/docker/horovod/horovod/common/response_cache.cc:204-211 | The bit of a cached name. |
| `ResponseCaches.ResponseCache.EraseResponse` | wfppdl/training/docker/horovod/horovod/common/response_cache.cc:213-230 | An entry goes, its bit stays as a hole. |
| `ResponseCaches.ResponseCache.UpdateCacheBits` | wfppdl/training/docker/horovod/horovod/common/response_cache.cc:232-256 | Bits are renumbered by recency and holes closed. |
| `BitSync.HitsAgree` | wfppdl/training/docker/horovod/horovod/common/response_cache.cc:328-384 | From the AND of all ranks' vectors every rank decodes the hits that are valid on all ranks, and the disjunctions of the three flags. |
| `BitSync.InvalidAgree` | wfppdl/training/docker/horovod/horovod/common/response_cache.cc:386-409 | From the OR every rank decodes the union of the invalid bits. |
| `BitSync.TimelineAgrees` | wfppdl/training/docker/horovod/horovod/common/response_cache.cc:411-431 | From the second half of the AND every rank decodes the bits hit, and valid, on some rank and invalid on none. |
| `BitSync.DecodeWord` | wfppdl/training/docker/horovod/horovod/common/response_cache.cc:365-373 | The find-first-set loop collects exactly the numbers of a word's bits, shifted and wrapped to 32 bits. |
| `CacheCoordinators.CacheCoordinator.RecordHit` | wfppdl/training/docker/horovod/horovod/common/response_cache.cc:262-265 | A hit is added to the rank's report. |
| `CacheCoordinators.CacheCoordinator.RecordInvalidBit` | wfppdl/training/docker/horovod/horovod/common/response_cache.cc:267-271 | An invalid bit is added to the rank's report, with its flag. |
| `CacheCoordinators.CacheCoordinator.PackHits` | wfppdl/training/docker/horovod/horovod/common/response_cache.cc:312-356 | The vector carries inverted flags, the valid hits shifted past them, and the inverted hits for the timeline. |
| `CacheCoordinators.CacheCoordinator.UnpackHits` | wfppdl/training/docker/horovod/horovod/common/response_cache.cc:358-384 | Hits and flags read from the combined vector. |
| `CacheCoordinators.CacheCoordinator.PackInvalid` | wfppdl/training/docker/horovod/horovod/common/response_cache.cc:388-393 | The refilled first half carries the invalid bits, unshifted; the second half stays. |
| `CacheCoordinators.CacheCoordinator.UnpackInvalid` | wfppdl/training/docker/horovod/horovod/common/response_cache.cc:395-409 | Invalid bits read from the combined vector. |
| `CacheCoordinators.CacheCoordinator.UnpackTimeline` | wfppdl/training/docker/horovod/horovod/common/response_cache.cc:411-431 | Started negotiations read from the second half, without invalid bits. |
| `CacheCoordinators.SyncAll` | wfppdl/training/docker/horovod/horovod/common/response_cache.cc:308-434 | Run on all ranks, the steps leave every rank with the combined report and the same started negotiations. |
| `StallInspectors.StallInspector.CheckForStalledTensors` | wfppdl/training/docker/horovod/horovod/common/stall_inspector.cc:26-110 | The reported ranks are exactly those that have not asked for an overdue tensor; giving up is advised exactly if one is later than an admissible shutdown time. |
| `StallInspectors.StallInspector.InvalidateStalledCachedTensors` | wfppdl/training/docker/horovod/horovod/common/stall_inspector.cc:112-126 | The bits of all overdue names are marked invalid, unless one of them is not in the cache. |
| `StallInspectors.StallInspector.RecordUncachedTensorStart` | wfppdl/training/docker/horovod/horovod/common/stall_inspector.cc:128-141 | The rank joins the name's list, and the first one sets its time; all other names stay as they are. |
| `StallInspectors.StallInspector.RecordCachedTensorStart` | wfppdl/training/docker/horovod/horovod/common/stall_inspector.cc:143-148 | A name enters the cached table once, if stalls are checked for. |
| `StallInspectors.StallInspector.RemoveCachedTensor` | wfppdl/training/docker/horovod/horovod/common/stall_inspector.cc:150-154 | A name leaves the cached table, if stalls are checked for. |
| `StallInspectors.MissingHaveNotAsked` | wfppdl/training/docker/horovod/horovod/common/stall_inspector.cc:41-64 | Between any two steps of a run, the ranks reported for a tensor are those whose request the coordinator does not hold. |
| `StallRuns.FirstWarning` | wfppdl/training/docker/horovod/horovod/common/stall_inspector.cc:26-64 | Over successive cycles: a rank that has not asked for a waiting tensor is reported in the first cycle that comes more than the warning time after both the last check and the tensor's start. |
| `StallRuns.WarnedInTime` | wfppdl/training/docker/horovod/horovod/common/controller.cc:105-114 | Whoever does not ask is reported at the latest in the first cycle more than twice the warning time after the first request. |
| `StallRuns.GivenUpInTime` | wfppdl/training/docker/horovod/horovod/common/stall_inspector.cc:66-110 | With an admissible shutdown time the coordinator gives up at the latest in the first cycle more than the shutdown and the warning time after the first request. |
| `StallRuns.OverdueInTime` | wfppdl/training/docker/horovod/horovod/common/stall_inspector.cc:112-126 | A cached tensor that waits for other ranks is found overdue at the latest in the first cycle more than twice the warning time after it was first seen. |
| `WatchProofs.StalledHandedOver` | wfppdl/training/docker/horovod/horovod/common/controller.cc:110-114 | A cached tensor that some rank finds overdue leaves all caches, and the coordinator holds the requests of all ranks that have asked for it. |
| `WatchProofs.WatchIs` | wfppdl/training/docker/horovod/horovod/common/controller.cc:78-98 | Which names a rank watches once its queue is classified: those queued as they are cached, and those watched before that are not queued. |
| `WatchProofs.UnwatchIs` | wfppdl/training/docker/horovod/horovod/common/controller.cc:127-146 | Which names it still watches after the round: of the queued ones, those that wait for other ranks. |
| `Controllers.TimesAre` | wfppdl/training/docker/horovod/horovod/common/stall_inspector.cc:143-154 | A watched name keeps the time at which it was first seen. |
| `FusionBuffers.ThresholdLeast` | wfppdl/training/docker/horovod/horovod/common/controller.cc:338-356 | On homogeneous clusters the threshold is a multiple of the atomic unit, not below the proposed one; it is the least such exactly if the proposed one is above the negative unit or one more than a multiple of the unit. |
| `FusionBuffers.FusionBufferManager.InitializeBuffer` | wfppdl/training/docker/horovod/horovod/common/fusion_buffer_manager.cc:21-46 | The buffer of a key ends up with the threshold's size, or the failure to get memory is reported; other buffers stay. |
| `FusionBuffers.FusedDataFits` | wfppdl/training/docker/horovod/horovod/common/operations.cc:238-258 | After any run with any thresholds, on every rank, the tensors of a response with two or more fit the buffer that is initialised for them with the threshold of the cycle (output bytes for allgather). |
| `Callbacks.StepAccount` | wfppdl/training/docker/horovod/horovod/common/operations.cc:227-304 | Submitting, performing with any outcome, finishing and shutting down keep each accepted ticket in exactly one place: the table, in progress, or called back once. |
| `Callbacks.CalledOnce` | wfppdl/training/docker/horovod/horovod/common/operations.cc:511-517 | In any run a callback is called at most once and only for an accepted tensor, and after shutdown exactly once unless its operation is still in progress. |
| `Callbacks.ToldTruly` | wfppdl/training/docker/horovod/horovod/common/operations.cc:227-304 | In any run each callback is told what happened to its tensor: that its operation ended, that there was no buffer, or that it was still to come at shutdown. |
| `Callbacks.DuplicateRefused` | wfppdl/training/docker/horovod/horovod/common/tensor_queue.cc:27-35 | A second submission under a name in the table changes nothing. |
| `TensorQueues.TensorQueue.AddToTensorQueue` | wfppdl/training/docker/horovod/horovod/common/tensor_queue.cc:27-35 | Entry and request are added together, or neither for a duplicate name. |
| `TensorQueues.TensorQueue.FinalizeTensorQueue` | wfppdl/training/docker/horovod/horovod/common/tensor_queue.cc:38-48 | The callbacks of all tensors, each once; table and queue are empty. |
| `TensorQueues.TensorQueue.GetTensorEntries` | wfppdl/training/docker/horovod/horovod/common/tensor_queue.cc:72-114 | The entries in the order of the names; they leave the table. |
| `TensorQueues.TensorQueue.PopMessages` | wfppdl/training/docker/horovod/horovod/common/tensor_queue.cc:127-135 | All messages in order; the queue is empty. |
| `TensorQueues.TensorQueue.PushMessage` | wfppdl/training/docker/horovod/horovod/common/tensor_queue.cc:138-141 | A message at the end of the queue. |
| `TensorQueues.Worker.EnqueueTensor` | wfppdl/training/docker/horovod/horovod/common/operations.cc:783-830 | The order of refusals: averaging, shutdown, duplicate; otherwise a new ticket. |
| `TensorQueues.Worker.PerformOperation` | wfppdl/training/docker/horovod/horovod/common/operations.cc:227-304 | Entries are removed, then called back on buffer failure or completion, or kept as in progress. |
| `TensorQueues.Worker.Finalize` | wfppdl/training/docker/horovod/horovod/common/operations.cc:508-517 | The shutdown flag is set, and every tensor left is called back. |
| `Tuning.TuneCounts` | wfppdl/training/docker/horovod/horovod/common/parameter_manager.cc:307-323 | A round turns the odometer of the chain by one; tuning is through exactly when it comes round. |
| `Tuning.EveryCombination` | wfppdl/training/docker/horovod/horovod/common/parameter_manager.cc:379-395 | In one cycle of the chain every combination of positions, hence of categorical values, comes up, in the round given by its code. |
| `Tuning.JointSettings` | wfppdl/training/docker/horovod/horovod/common/parameter_manager.cc:454-467 | The joint parameter goes through the test points in their order, then takes the optimiser's proposals, and starts over with its initial setting. |
| `Tuning.TuningEnds` | wfppdl/training/docker/horovod/horovod/common/parameter_manager.cc:176-215 | Tuning ends after exactly (max samples + 1) times the product of the tunable categories' sizes rounds, with the settings in force in the first round that reached the highest score if that is positive, else with those given at the start. |
| `TuningRounds.RootTunes` | wfppdl/training/docker/horovod/horovod/common/parameter_manager.cc:142-215 | Over any run of cycles the root's chain is the chain tuned once per complete round, and it is active exactly until one cycle of the chain is complete. |
| `TuningRounds.SampleEnds` | wfppdl/training/docker/horovod/horovod/common/parameter_manager.cc:146-160 | A sample is complete once a tensor is performed that has been performed `steps` times for each sample so far and once more for this one; until then every tensor is counted. |
| `TuningRounds.WarmupsDropped` | wfppdl/training/docker/horovod/horovod/common/parameter_manager.cc:176-183 | Exactly the warm-up rounds are dropped, every later one is used. |
| `TuningRounds.RootEndsBest` | wfppdl/training/docker/horovod/horovod/common/parameter_manager.cc:217-238 | Once tuning has stopped, the parameters in effect are the jointly best ones. |
| `TuningRounds.AllEndBest` | wfppdl/training/docker/horovod/horovod/common/controller.cc:33-47 | Once tuning has stopped, every rank, not only the root, uses the parameters in force in the first round that reached the highest positive score, or those given as best. |
| `TuningRounds.CacheTurnsOnOnce` | wfppdl/training/docker/horovod/horovod/common/parameter_manager.cc:379-385 | While it is tuned, the cache is off in the first half of the rounds and on in the second. |
| `TuningRounds.StaysInStep` | wfppdl/training/docker/horovod/horovod/common/controller.cc:33-47 | All ranks ask for the parameter broadcast in the same cycle or none does; afterwards all use the root's parameters and count from the beginning. |
| `TuningRounds.TuningCollective` | wfppdl/training/docker/horovod/horovod/common/parameter_manager.cc:142-171 | The same after any run of cycles on ranks that started alike. |
| `TuningRounds.CapacityAfterTuning` | wfppdl/training/docker/horovod/horovod/common/controller.cc:57-61 | The cache keeps the controller's capacity, since the last trial has it on. That is what the best settings ask for exactly if the first round with the highest positive score lies in the second half of the rounds, or no score is positive and the cache was on from the start. |
| `TuningRounds.CapacityMismatch` | wfppdl/training/docker/horovod/horovod/common/parameter_manager.cc:38-58 | On the chain the program builds, for any number of samples and whatever the capacity was: if the first round scores best the best settings have the cache off, and still it keeps the controller's capacity. |
| `TunedRuns.CapacityLeft` | wfppdl/training/docker/horovod/horovod/common/controller.cc:57-61 | The same on all ranks after any run of the program in which tuning has ended: the controller's capacity is left, and it is the one the parameters in effect ask for exactly if the cache wins. |
| `ParameterManagers.TunableParameter.Tune` | wfppdl/training/docker/horovod/horovod/common/parameter_manager.cc:307-331 | One parameter's step: best value first, then the next setting, or back to the initial one when through. |
| `ParameterManagers.TunableParameter.OnTune` | wfppdl/training/docker/horovod/horovod/common/parameter_manager.cc:379-385 | The index advances, and the next setting is a listed value, a test point or a proposal. |
| `ParameterManagers.TunableParameter.SetValue` | wfppdl/training/docker/horovod/horovod/common/parameter_manager.cc:333-340 | The best value is set; a fixed one is also current and no longer tuned. |
| `ParameterManagers.TuneInTurn` | wfppdl/training/docker/horovod/horovod/common/parameter_manager.cc:189-200 | The loop over the chain with its early exit tunes as specified and hands the best score down. |
| `ParameterManagers.ParameterManager.Update` | wfppdl/training/docker/horovod/horovod/common/parameter_manager.cc:142-171 | Counting, sampling, the median (ParameterManagers.MedianMiddle) and tuning, as specified; the result says whether a broadcast is due. |
| `ParameterManagers.MedianMiddle` | wfppdl/training/docker/horovod/horovod/common/parameter_manager.cc:164-168 | The score of a round is one of its five samples, the new one in its slot: three are not above it, and three not below. |
| `ParameterManagers.SortUnique` | wfppdl/training/docker/horovod/horovod/common/parameter_manager.cc:165-166 | The scores of which the median is taken are in increasing order, and there is only one such order, whatever way the library sorts. |
| `ParameterManagers.ParameterManager.Tune` | wfppdl/training/docker/horovod/horovod/common/parameter_manager.cc:176-215 | Warm-up rounds only count down; later rounds tune on the root and ask for the broadcast. |
| `ParameterManagers.ParameterManager.GetParams` | wfppdl/training/docker/horovod/horovod/common/parameter_manager.cc:217-238 | The parameters in effect: current ones while tuning, best ones afterwards. |
| `ParameterManagers.ParameterManager.TensorFusionThresholdBytes` | wfppdl/training/docker/horovod/horovod/common/parameter_manager.cc:118-123 | The threshold in effect, in bytes, rounded towards zero. |
| `ParameterManagers.ParameterManager.SetParams` | wfppdl/training/docker/horovod/horovod/common/parameter_manager.cc:240-247 | Received parameters become fixed, with the active flag. |
| `ParameterManagers.ParameterManager.SynchronizeParameters` | wfppdl/training/docker/horovod/horovod/common/controller.cc:33-47 | All but the root take over the received parameters, and every rank starts measuring afresh. |
| `Half.HalfBits2Float` | wfppdl/training/docker/horovod/horovod/common/half.h:37-71 | Widening is exact: the same sign and value, subnormals through the normalising loop; infinities and NaNs as in the source. |
| `Half.Float2HalfBits` | wfppdl/training/docker/horovod/horovod/common/half.h:73-133 | Narrowing is correctly rounded (roundTiesToEven, section 4.3.1 of IEEE 754-2008) for every finite input, with subnormal results, carry into the exponent and overflow; the sign is kept, NaNs become one NaN. |
| `Floats.RoundedNearest` | wfppdl/training/docker/horovod/horovod/common/half.h:122-128 | What rounded means: no number of the format is nearer, and at equal distance the pattern is even. |
| `Floats.RoundedUnique` | wfppdl/training/docker/horovod/horovod/common/half.h:122-128 | A number has one correctly rounded pattern. |
| `HalfSum.RoundIntRounded` | wfppdl/training/docker/horovod/horovod/common/half.cc:72 | The binary32 addition used is correctly rounded, with overflow to infinity. |
| `HalfSum.DoubleRounding` | wfppdl/training/docker/horovod/horovod/common/half.cc:70-73 | A sum or difference of two binary16 numbers rounded to binary32 and then to binary16 is the exact one rounded once. |
| `HalfSum.SlotSummed` | wfppdl/training/docker/horovod/horovod/common/half.cc:70-73 | Widening, adding and narrowing give the correctly rounded sum with its sign, the infinity, or the NaN. |
| `HalfSum.Float16Sum` | wfppdl/training/docker/horovod/horovod/common/half.cc:67-74 | The loop leaves that sum in each of the first slots, for arrays of any content, and leaves the others. |
| `Windows.PossibleStarts` | wfppdl/training/source/data_utils.py:34-43 | The loop picks the greedy windows. |
| `Windows.GreedyDisjoint` | wfppdl/training/source/data_utils.py:34-43 | They lie in range, start and end in the same source, and share no frame. |
| `Windows.GreedyOptimal` | wfppdl/training/source/data_utils.py:34-43 | No set of such windows without shared frames is larger. |
| `Stager.LoadDistributor` | wfppdl/PyStager/external_function.py:151-187 | Each worker's text is the join of the items dealt to it in turn; workers without items get none. |
| `Stager.ShareItems` | wfppdl/PyStager/external_function.py:166-184 | Round robin: the j-th item of worker w is item w - 1, plus j times the number of workers. |
| `Stager.JobsOfShare` | wfppdl/PyStager/mpi_stager_v2.py:167-170 | Splitting a worker's text gives back its items if no name contains the separator, and one job more per separator otherwise. |
| `Stager.JobsPartition` | wfppdl/PyStager/external_function.py:166-184 | Without separators in names, the workers' jobs are a partition of the items, with loads that differ by at most one. |
| `StagerProtocol.MessagesMatch` | wfppdl/PyStager/mpi_stager_v2.py:133-146 | The workers send as many messages as the master waits for, and one more for each separator in a name. |
| `StagerProtocol.NoHang` | wfppdl/PyStager/mpi_stager_v2.py:128-169 | Every interleaving ends within a bound, stops only when master and workers are done, and leaves over as many messages as there are separators in names. |

## Left out

- Join: handling of ranks that stop early, with its zero tensors and extra checks; `joined_size` is 0 throughout.
- MPI, Gloo, NCCL and CUDA transports: collectives are perfect atomic gathers, broadcasts, ANDs and ORs.
- The wire format of messages: requests and responses are values, and error messages are lists of clauses instead of text.
- Threads: a submission in the middle of a cycle is placed between two cycles, and a check of the shutdown flag that races with finalisation is atomic with the submission.
- Timeline and log files; of the timeline only the set of started negotiations is modelled.
- 64-bit overflow of byte counts and of the threshold, and the rounding of a threshold in megabytes to a double.
- Waiting for the readiness of GPU tensors, and moving their data.
- The clock: times are parameters, and a cycle's sleep is left out.
- The Bayesian optimiser: its proposals are parameters.  Fixed variables are not cut out of its vectors; they override what the vector says.
- Throughput: the measured score is a parameter; bytes and durations are not added up.
- The vectorised branch of the half-precision sum, and the payload of NaNs between the two conversions.
- Negotiation.FuseKnown: reports an unknown tensor before anything is fused, where the program stops at the first lookup; no run gets there.
- Controllers.Controller.CoordinateAll: asks that ready tensors have a request from each rank, all ranks in range, which SlowProofs.ReadyComplete proves and ControllerCycles.ComputeResponseLists uses.
- ControllerCycles.ComputeResponseLists: runs the ranks one after the other between the collectives, with one reading of the clock, and is given each rank's empty record of bits.
- ControllerCycles.AgreeOnBits: runs the agreement on bits also when the cache is off, where the program skips it (`controller.cc:118`) and joins the flags from the lists of requests (`controller.cc:238-241`); the result is the same, the path is not.
- Stager.LoadDistributor: distributes all items of the list; the separate count of items is taken to be its length.
- rsync, checksums and the file system in staging: a job is an opaque action.
- The start mode of the sequence generator that allows shared frames, shuffling, and the images themselves.
- Handle manager, framework adapters, launchers and the preparation of weather data: they would add only easy members.
