# LocDist: a verified model of gradient synchronization

LocDist trains one model on several Workers. Each Worker compresses its gradients and sends them to the Master, which
waits until every Worker of the job has sent the same piece, averages it, and hands the average back. This project
models the path of a gradient from the backward hook to `optimizer.step()` and proves what that path promises, for any
number of Workers, any model, any interleaving and any input.

| files | what they model |
|---|---|
| `KeyedRounds`, `KeyedRuns`, `KeyedOrder`, `KeyedHarmless`, `KeyedDiscipline`, `KeyedBackwards`, `KeyedOvertaken`, `KeyedAgain`, `KeyedRestart`, `KeyedProvenance`, `KeyedWedge`, `KeyedAborts`, `KeyedProgress`, `KeyedDeliveries`, `KeyedService`, `HeldRounds`, `Streaming` | the Master's barrier for chunks and groups: registration, waiting, unary and streaming delivery, abort |
| `DenseRounds`, `DenseOutcomes`, `DenseProvenance`, `DenseService`, `SharedAbort` | the Master's barrier for whole gradients, and what aborts of a keyed job do to it |
| `Gradients`, `Averaging`, `GroupAveraging`, `HalfPrecision`, `Indices` | what is averaged, the three averaging paths, binary16 arithmetic, index packing |
| `Compression`, `Extraction`, `AbsentLayers`, `ErrorFeedback`, `Applying`, `DeliveredAnswers`, `DeliveredFeedback`, `DenseAnswers` | top-k selection and residuals on the Worker, applying the answer, and the way of an answer from all Workers to one |
| `PreparedSpec`, `PreparedRuns`, `PreparedSafety`, `PreparedSizes`, `PreparedProperties`, `PreparedFailures`, `PreparedLateHooks`, `PreparedAnswers`, `PreparedService`, `Grouping`, `Accumulation` | the prepared runtime: hooks, outgoing queue, sender thread, gate in front of `optimizer.step()` |
| `Sharding` | splitting the data set among the Workers |
| `Sums`, `Arithmetic`, `Wrappers` | sums over finite sets, products and remainders, the optional value |

## How the model is built

* A critical section (what happens between taking a mutex and giving it up) is one atomic step. `KeyedRounds`,
  `DenseRounds` and `PreparedSpec` define each section as a function from the old state to the new one;
  `KeyedService`, `DenseService` and `PreparedService` hold the objects with the fields of the original, updated in
  place, and every method is proved to do exactly what its function says. `KeyedRuns`, `DenseRounds` and `PreparedRuns`
  interleave the sections; waiting is a step that is taken only while the loop guard holds, and a broadcast wakes every
  sleeper.
* Logs in the run modules (`averagings`, `deliveries`, `taken`, `answers`, ...) record history for the theorems. No
  step reads them.
* Payloads are the real numbers they decode to. `HalfPrecision` treats bit patterns as integers and counts in steps of
  2^-149, the smallest binary32 number, so that all its arithmetic is exact.
* `torch.topk` promises neither an order nor a rule for ties, and `torch.randint` may draw anything: both are
  parameters, and results hold for every choice. The order in which Go walks a map is arbitrary in the same way.
* A key of the keyed barrier is the pair of its identity and its round. The identity stands for the string that the
  original builds from the job and the layer or group.

## What was found

Seven promises fail in the code as it stands. For each there is the condition under which it holds, and an input.

* A batch that is rejected part-way keeps what it had registered and does not average it. If the rejected batch was the
  last one a round waited for, the round is full and never answered; its other receivers wait until the job is aborted
  (`KeyedWedge.WedgesExactlyWhen`, `KeyedWedge.WedgeExample`, `KeyedWedge.WedgedUntilAbort`).
* The latest completed round of a layer or group is overwritten without a check and can move back, after which an old
  key is accepted and averaged again (`KeyedAgain.AveragedTwice`). It cannot when each Worker has one unfinished call
  per layer or group, does not go back to an earlier round, and puts several rounds of one layer or group only into
  unary batches, oldest first, as a unary call leaves its rounds in the order of its batch and a streaming call in any
  order (`KeyedOrder.OneAnswerPerKey`, `KeyedOrder.RunOrdered`). It cannot either when the batches are only harmless:
  none shares a layer or group with an unfinished call of its Worker, and none leaves an older round last
  (`KeyedHarmless.RunTidy`, `KeyedHarmless.HarmlessOnce`). Less is not enough. In a job of harmless batches without
  abort, rejection and failed averaging, whose other Workers can go on, an accepted batch can be followed by a run
  whose batches all keep the stricter order, and in which an abort lets the calls leave and the record moves back,
  exactly when the batch is not harmless (`KeyedDiscipline.GoesBackExactlyWhen`). It then ends at a round that a call of
  the same Worker held, of a layer or group of the batch (`KeyedDiscipline.UndisciplinedMovesBack`,
  `KeyedDiscipline.MovesBackExample`).
* A job that failed can be started again under the same id. A Worker's first rounds are then accepted exactly when the
  abort found no receiver or none of them was taken before; otherwise the batch is refused at the first one that was,
  as stale or as submitted already, until an abort finds no receiver (`KeyedRestart.RestartExactlyWhen`,
  `KeyedRestart.RefusedUntilDropped`, `KeyedRestart.RestartExample`). If new rounds come before that one, their
  receivers stay counted and no later abort of the keyed barrier finds none: the rounds are refused for ever
  (`KeyedRestart.MixedRefusedForever`).
* An abort with keyed receivers and no dense receiver closes the dense gate for good. In a job that uses only the keyed
  barrier the gate is stuck exactly when the last abort found a keyed receiver (`DenseRounds.AbortSticksExactlyWhen`,
  `DenseRounds.StuckStays`, `SharedAbort.StuckExactlyWhen`, `SharedAbort.StuckExample`).
* The whole-model extractions drop the residual of a layer that has no gradient in a step; the hook path keeps it. Sent
  plus kept is the sum of the local gradients throughout a run exactly when each such step found nothing kept
  (`AbsentLayers.ConservesExactlyWhen`, `AbsentLayers.LossExample`, `Extraction.AbsentConservesExactlyWhen`).
* A hook that fires again in a round, for instance in a second backward pass before `step()`, can put the local gradient
  where the Master's answer was. A gradient that the optimizer steps with is the answer exactly when no hook ended for
  it after its group was stored, or the last one that did brought an equal chunk
  (`PreparedLateHooks.StepsWithAnswersExactlyWhen`, `PreparedLateHooks.LateHookTakesEffect`,
  `PreparedLateHooks.LateHookExample`).
* The dense answer for a parameter without elements is refused by the receiver, and no other answer is
  (`Applying.AnswerAccepted`, `Applying.EmptyDenseExample`).

## Model

| member | source | states |
|---|---|---|
| `KeyedRuns.RunSafe` | master/aggregator/chunk.go:416-657 | In every run of the keyed barrier (any Workers, batches and interleavings, aborts and failed streams included) every call's rounds stay in the map with its submission until it has left them, receivers are counted exactly but for those of rejected batches, a response is the average of one submission from each assigned Worker, and no call sleeps while it could go on |
| `KeyedRuns.NextBusy` | master/aggregator/chunk.go:557-593 | A call that has not returned still has a round to leave, whatever the others do |
| `KeyedRuns.HeldHasReceivers` | master/aggregator/service.go:95-120 | An abort cannot drop the maps while a call still holds a round |
| `KeyedRounds.AcceptedKey` | master/aggregator/chunk.go:457-481 | An accepted key is newer than the latest completed round and not yet submitted by this Worker |
| `KeyedRounds.RejectionLater` | master/aggregator/chunk.go:442-485 | Whether a request of a batch is rejected does not depend on the requests that were registered before it in the same batch |
| `KeyedRounds.ResentRefused` | master/aggregator/chunk.go:475-481 | A key that a Worker sends again right after it was accepted is refused as a duplicate if the group is the same, and as a conflict if it is another one |
| `KeyedOrder.OneAnswerPerKey` | master/aggregator/chunk.go:416-593 | When each Worker has one unfinished call per layer or group, does not go back, and sends several rounds of one layer or group at once only in a unary batch and in increasing order: no key is averaged twice, every averaging uses exactly one submission from each assigned Worker, and all receivers of a key get the same response, that average |
| `KeyedOrder.RunOrdered` | master/aggregator/chunk.go:577-593 | In such runs, between map resets, the latest completed round of a layer or group never decreases |
| `KeyedOrder.LeftGrows` | master/aggregator/chunk.go:318-324 | In such runs, completing a round raises the latest completed round of its layer or group strictly |
| `KeyedOrder.ClosedNotAccepted` | master/aggregator/chunk.go:457-481 | A key that was averaged is not accepted again |
| `KeyedHarmless.RunTidy` | master/aggregator/chunk.go:577-657 | In every run of harmless batches (no shared layer or group with an unfinished call of the Worker, no older round that can be left last), between map resets, the latest completed round of a layer or group never moves back; it was averaged and is gone, and an averaged key stays full or completed |
| `KeyedHarmless.HarmlessOnce` | master/aggregator/chunk.go:416-657 | In such runs no key is averaged twice, all receivers of a key get the same response, and the record has got as far as every averaged key that is gone |
| `KeyedHarmless.DisciplinedHarmless` | master/aggregator/chunk.go:577-657 | A batch that keeps the stricter order is harmless |
| `KeyedProvenance.AveragesWhatWasSent` | master/aggregator/chunk.go:442-498 | In every run, what is averaged under a key for a Worker is a group that this Worker sent under this key and that passed the checks on a single group |
| `KeyedDeliveries.HandedExactlyOnce` | master/aggregator/chunk.go:557-643 | In any part of any run, a call that does not leave with an error was handed exactly one response for each round that it has left, unary or streaming, and none for another key |
| `KeyedDeliveries.EveryKeyHandedOnce` | master/aggregator/chunk.go:557-643 | When Workers that send the same sequence of keys have finished and no call left with an error, every Worker was handed the response of every key exactly once |
| `KeyedAborts.AbortFails` | master/aggregator/service.go:120-130 | Right after an abort every call that holds a round is awake and finds the reason in all its rounds, answered ones included; a unary call can return with that reason |
| `KeyedAborts.AbortedGetNothing` | master/aggregator/service.go:120-130 | Whatever happens after an abort, a call that was waiting then is handed no further response |
| `DeliveredAnswers.DeliveredIsMean` | master/aggregator/chunk.go:503-593 | In every run, behind every delivered response stands one submission from each Worker, sent under that key; every member of the response is accepted by the parameter it names and becomes the mean of the Workers' members; when the batches are harmless, all receivers of the key get this response |
| `PreparedAnswers.SendsPlanShaped` | runtime/locdist/prepare.py:473-491 | In every run in which hooks end with chunks about their own layer and round, every group of a batch is sent with one such chunk for each of its layers, in the order of the plan |
| `PreparedAnswers.SendsSendable` | runtime/locdist/prepare.py:366-420 | If the hooks bring readable chunks of the right size, compressed as the round is, every group that is sent consists of such chunks, layers whose hook did not fire included |
| `PreparedAnswers.CompressedSendable` | runtime/locdist/prepare.py:188-205 | What the hook path makes of a gradient is such a chunk |
| `PreparedAnswers.SendableAnswerable` | master/aggregator/chunk.go:503-545 | The Master can average every full round of such groups |
| `PreparedAnswers.AnswerStored` | runtime/locdist/prepare.py:805-833 | If all Workers' groups have this shape, so has their average, and the receiving side stores it exactly when its round is not over |
| `PreparedAnswers.DeliveredStored` | runtime/locdist/prepare.py:805-833 | In every run of the keyed barrier in which the Workers send such groups, what is delivered under their key is stored by every Worker whose round is not over |
| `DenseAnswers.DeliveredIsMean` | master/aggregator/aggregate.go:129-201 | In runs of the dense barrier, behind every delivered response stands one gradient from each of the expected Workers, brought by its own arrival; every chunk of the response is accepted by the parameter it names and becomes the mean of the Workers' chunks |
| `KeyedDiscipline.UndisciplinedMovesBack` | master/aggregator/chunk.go:416-657 | After any run of harmless batches without abort, rejection and failed averaging: an accepted batch of a Worker that still has an unfinished call on one of its layers or groups, or that can leave an older round of one last, can be continued by a run whose batches all keep the stricter order; a call of this Worker holds the older of two rounds of a layer or group of the batch, both sent by the Worker, and the record ends at it although the newer one was averaged and completed; if nobody has sent anything newer, that one is averaged again, in order |
| `KeyedDiscipline.GoesBackExactlyWhen` | master/aggregator/chunk.go:416-657 | After such a run, an accepted batch, followed only by batches in the stricter order, can lead to a record behind an averaged and completed key only when it is not harmless, and always then if the other Workers can go on |
| `KeyedDiscipline.MovesBackExample` | master/aggregator/chunk.go:577-657 | For any Worker of any job that averages equal groups: rounds 2 and 1 in its first batch, the others in order, and the record ends at round 1 and round 2 is averaged twice |
| `KeyedDiscipline.BreaksOrderWhen` | master/aggregator/chunk.go:577-657 | Without abort and rejection so far, a batch that is not harmless breaks the stricter order, and so does no other accepted batch that is streaming, names one round of each layer or group, or has no round answered when it is registered |
| `KeyedDiscipline.DecreasingLeavesOlder` | master/aggregator/chunk.go:585-590 | A unary batch with several rounds of one layer or group, newest first, leaves an older one last |
| `KeyedOvertaken.OvertakenForgets` | master/aggregator/chunk.go:577-657 | From every safe state in which a call holds an older round, a newer one is open, both can still be averaged, and what the call leaves after the older one can be kept open: the record can be made to end at the older round although the newer key was averaged and completed, by batches in order if the missing Workers can send the two rounds in order; if nothing newer was sent, that key is then averaged again |
| `KeyedBackwards.TwoOpenMovesBack` | master/aggregator/chunk.go:557-593 | From every safe state in which two rounds of one layer or group can still be averaged and left, the newer one can be completed first (the missing Workers submit, an abort lets every call leave, those of the newer round leave first): the record goes from the newer to the older round, and the newer key is accepted and averaged again |
| `KeyedAgain.AveragedTwice` | master/aggregator/chunk.go:242-286 | A run of one Worker, without abort, that opens round 2 before its call for round 1 has returned, and in which the same key is averaged twice |
| `KeyedRestart.RestartExactlyWhen` | master/aggregator/service.go:95-130 | In every run, with any callers: after an abort, a batch of different first rounds is accepted whole exactly when the abort found no receiver or none of the rounds is taken; a first round that the Worker got accepted since the maps were last dropped is taken, and refused as stale or as submitted already |
| `KeyedRestart.RestartAccepts` | master/aggregator/chunk.go:442-501 | After an abort, a batch that mixes new first rounds and taken ones is accepted up to the first taken one, or whole if the abort found no receiver |
| `KeyedRestart.MixedRefusedForever` | master/aggregator/service.go:95-130 | If such a batch was accepted in part, every abort of every run from then on finds a receiver, and the Worker's batches that start with one of its rounds up to the refused one are refused for ever |
| `KeyedRestart.RefusedUntilDropped` | master/aggregator/chunk.go:457-481 | Such a batch stays refused, whatever the callers do, as long as every abort finds a receiver |
| `KeyedRestart.RestartExample` | master/orchestrator/lifecycle.go:127-150 | For any Worker of any job: it opens a first round, the job is aborted, its call returns and nobody is left waiting, and its first round is refused |
| `KeyedWedge.WedgesExactlyWhen` | master/aggregator/chunk.go:442-501 | A registration leaves a round full but unanswered exactly when it is rejected after accepting a key of which the Worker was the last one missing |
| `KeyedWedge.WedgedUntilAbort` | master/aggregator/chunk.go:442-593 | Such a round is answered by no step but an abort |
| `KeyedWedge.WedgeExample` | master/aggregator/chunk.go:442-501 | One Worker, a good group followed by one without a round, leaves the first round wedged |
| `KeyedProgress.NeverBlocked` | runtime/locdist/prepare.py:612-770 | When all Workers send the same sequence of keys, each cut into batches differently with one batch outstanding, every unfinished state allows a delivery or a new batch |
| `KeyedProgress.EveryRunEnds` | master/aggregator/chunk.go:416-593 | No such run is longer than a bound known from the number of Workers and keys, so every run ends with all batches sent and answered |
| `KeyedService.Aggregator.RegisterGroupSubmissions` | master/aggregator/chunk.go:416-501 | The loops over the batch update the maps exactly as one registration step of the protocol, part-way rejection included |
| `KeyedService.Aggregator.CheckRequest` | master/aggregator/chunk.go:442-481 | The checks on one request, in their order, give the rejection of the protocol |
| `KeyedService.Aggregator.AverageRound` | master/aggregator/chunk.go:487-498 | A full round without outcome is averaged, any other round is left alone |
| `KeyedService.Aggregator.CollectResponses` | master/aggregator/chunk.go:569-583 | The responses in the order of registration, or the first error and no response |
| `KeyedService.Aggregator.AwaitGroupRounds` | master/aggregator/chunk.go:557-593 | The unary delivery leaves every round whether it succeeds or fails |
| `KeyedService.Aggregator.LeaveAll` | master/aggregator/chunk.go:647-657 | Rounds are left one by one; the last receiver of a round with a response completes and deletes it |
| `KeyedService.Aggregator.AbortJob` | master/aggregator/service.go:95-130 | An abort fails every open round if some round has receivers, and drops the maps otherwise |
| `HeldRounds.HeldSettles` | master/aggregator/chunk.go:595-643 | In every part of every run, as long as a call holds a round, a response that it could see is never replaced or taken away, and an error stays an error |
| `Streaming.StreamPasses` | master/aggregator/chunk.go:595-643 | After any number of passes and whatever the other calls do: the responses of distinct rounds were delivered, each the one the round had without error when it was read, and by an emit that succeeded; an error comes from a round that showed it or from an emit that failed, after everything that was delivered; a round is left when it is emitted and all are left exactly once on an error; the call never went to sleep while a round that it held had a response or an error, although the lock is given up while emitting |
| `Streaming.StreamRounds` | master/aggregator/chunk.go:595-643 | If every round ends up ready, or one of them with an error, the call ends: on success each response was delivered exactly once, every round is left exactly once, and without a failing round or emit it succeeds |
| `Streaming.OnePass` | master/aggregator/chunk.go:343-368 | A pass that emits nothing never gave up the lock and left no ready round behind; it ends with an error only if a round shows one or an emit fails |
| `DenseRounds.RunSafe` | master/aggregator/aggregate.go:47-95 | In every run of the dense barrier, aborts included: a joined call holds the current round, receivers are counted exactly, submissions never exceed the expected number, a response averages a full round, and an outcome always has a receiver left |
| `DenseRounds.OneAnswerPerRound` | master/aggregator/aggregate.go:66-95 | All successful receivers of a round get the same response, which carries the number of that round and averages one submission per expected Worker |
| `DenseRounds.NumbersCount` | master/aggregator/service.go:76-93 | In every run of the dense barrier without abort the rounds, and the responses handed out for them, are numbered 1, 2, 3, ... |
| `DenseRounds.NumbersRestart` | master/aggregator/service.go:76-130 | In every run of the dense barrier an abort makes the next round number 1, and the rounds and responses after it count on from there |
| `DenseOutcomes.HandedExactlyOnce` | master/aggregator/aggregate.go:81-106 | A call that does not leave a round with an error is handed one response when it leaves, and none before |
| `DenseOutcomes.AbortFails` | master/aggregator/service.go:120-130 | Right after an abort every call inside can leave, with the reason, whether its round was answered or not |
| `DenseOutcomes.AbortedGetNothing` | master/aggregator/aggregate.go:87-101 | Whatever happens after an abort, a call that was inside then is handed nothing |
| `DenseOutcomes.ErrorsCaused` | master/aggregator/aggregate.go:62-79 | In every run, an error that a round shows is the failure of averaging its gradients or the reason of an abort |
| `DenseProvenance.HoldsWhatWasSent` | master/aggregator/service.go:50-55 | In every run, what a round holds for a Worker is a gradient that this Worker arrived with |
| `DenseRounds.GateReopens` | master/aggregator/aggregate.go:47-95 | From every state of such a run with a closed gate, the remaining receivers can leave one after the other and the gate is then open |
| `DenseRounds.AbortSticksExactlyWhen` | master/aggregator/service.go:112-122 | An abort leaves the gate closed with nobody to reopen it exactly when keyed rounds have receivers and the dense round has none |
| `SharedAbort.StuckExactlyWhen` | master/aggregator/service.go:95-130 | A run of a job on the keyed barrier with no dense call inside leaves the dense gate stuck exactly when its last abort found a keyed receiver |
| `SharedAbort.StuckExample` | master/aggregator/service.go:95-130 | One Worker of two waits in a keyed round, the job is aborted, and the dense gate is stuck |
| `DenseRounds.StuckStays` | master/aggregator/aggregate.go:47-51 | Once stuck, no dense call enters or leaves as long as aborts find keyed receivers |
| `DenseService.Aggregator.EnterRound` | master/aggregator/aggregate.go:54-77 | A call that passes the gate is counted and stored, and the one that completes the barrier sets the outcome |
| `DenseService.Aggregator.LeaveRound` | master/aggregator/aggregate.go:84-100 | A receiver takes the outcome of the round it joined; the last one opens the next round |
| `DenseService.Aggregator.ResetRound` | master/aggregator/service.go:76-93 | A new round object, numbered 1 after an abort |
| `DenseService.Aggregator.AbortJob` | master/aggregator/service.go:112-122 | The dense part of an abort |
| `Averaging.AverageChunks` | master/aggregator/aggregate.go:239-300 | Exactly the averageable lists are answered (compressed ones need readable top-k payloads and indices below 2^32): with nothing if no Worker has a gradient, with the dense mean, or with the sparse mean and packed indices, under the metadata of one of the chunks |
| `Averaging.AnswerMeansMean` | master/aggregator/aggregate.go:239-300 | Whichever branch answered, the answer can be read by the receiver, packed indices included, and means the pointwise mean of what the inputs mean, missing gradients and unsent positions as zero and all Workers in the divisor |
| `Averaging.EncodingsAgree` | master/aggregator/aggregate.go:239-300 | What can be averaged has either top-k gradients only or no chunk at all that names an encoding but dense |
| `Averaging.AnswerPermuted` | master/aggregator/aggregate.go:239-300 | What is an answer for the chunks in one order is one in every order |
| `Averaging.PackedFits` | master/aggregator/aggregate.go:273-279 | Indices that the Workers packed themselves never make the answer too large to pack |
| `Averaging.AverageCompressedData` | master/aggregator/aggregate.go:362-385 | The path for typed payloads and missing gradients gives the mean exactly when every payload decodes |
| `Averaging.AveragePlainData` | master/aggregator/aggregate.go:624-658 | The plain dense path gives the same mean, or refuses a size mismatch |
| `Averaging.AverageSparseResponse` | master/aggregator/aggregate.go:387-450 | The sparse answer has strictly increasing indices in bounds, exactly the union of the inputs' indices, with the mean over all Workers at each |
| `Averaging.DecodeSparse` | master/aggregator/aggregate.go:501-541 | A top-k payload, with packed or plain indices, is decoded exactly when it is well formed, to the tensor it stands for; each error names what is wrong |
| `Averaging.SparseIsDenseMean` | master/aggregator/aggregate.go:387-450 | Scattering the sparse answer gives the dense mean of the scattered inputs |
| `Averaging.SparseMeanUnique` | master/aggregator/aggregate.go:387-450 | There is only one such answer |
| `Averaging.MeanPermuted` | master/aggregator/aggregate.go:362-450 | The mean does not depend on the order of the submissions |
| `GroupAveraging.AverageGroup` | master/aggregator/chunk.go:503-555 | A full round is averaged exactly when all submissions carry the same parameters and every member can be averaged; every member of the answer then means the mean over all Workers, in whatever order the submissions are walked |
| `GroupAveraging.AverageMember` | master/aggregator/aggregate.go:160-201 | The same for one parameter: count and metadata of every submission are checked before its chunks are averaged |
| `GroupAveraging.MembersPermuted` | master/aggregator/chunk.go:521-534 | Two walks over the submissions collect the same chunks |
| `Applying.AnswerAccepted` | runtime/locdist/gradients.py:97-197 | An averaged chunk passes the receiver's checks, unpacking included, and rebuilds the mean tensor, unless it is dense and the parameter has no elements; a parameter for which no Worker had a gradient gets none |
| `Applying.EmptyDenseExample` | runtime/locdist/gradients.py:120-134 | One Worker and a parameter without elements: the answer is refused |
| `Applying.MemberAccepted` | master/aggregator/chunk.go:517-541 | The same for every member of an averaged group, in whatever order the submissions are walked |
| `Applying.ApplyGradientChunks` | runtime/locdist/gradients.py:81-144 | All chunks are applied exactly when all are acceptable; otherwise those before the first bad one are applied and everything else is untouched |
| `Applying.Parameter.Apply` | runtime/locdist/gradients.py:97-144 | One chunk is rejected without a trace or becomes the gradient |
| `Applying.Parameter.SparseChunkToTensor` | runtime/locdist/gradients.py:147-197 | The scatter into a cleared or new tensor gives the tensor the chunk stands for; unreadable packing, size, repeated and out-of-bounds indices are refused before anything is written |
| `HalfPrecision.NarrowNearest` | master/aggregator/aggregate.go:827-870 | The conversion to binary16 returns a nearest number, ties away from zero (IEEE 754-2019, section 4.3.1) |
| `HalfPrecision.NarrowOverflows` | master/aggregator/aggregate.go:834-865 | The result is infinite exactly from 65520 on |
| `HalfPrecision.NarrowMonotone` | master/aggregator/aggregate.go:827-870 | The conversion keeps order |
| `HalfPrecision.Widen` | master/aggregator/aggregate.go:791-825 | The conversion to binary32, with its normalising loop, is exact; infinities and NaNs stay what they are |
| `HalfPrecision.WidenSubnormal` | master/aggregator/aggregate.go:802-813 | The shifting loop ends and keeps the value |
| `HalfPrecision.RoundTrip` | master/aggregator/aggregate.go:791-870 | Widening and narrowing gives back every binary16 number that is not a NaN, both zeros and both infinities included |
| `HalfPrecision.SumHalves` | master/aggregator/aggregate.go:705-715 | With fewer than 2^13 Workers the binary64 sum is never rounded |
| `HalfPrecision.AverageHalf` | master/aggregator/aggregate.go:694-728 | With fewer than 2^13 Workers the average of finite halves is finite, and no half lies strictly between it and the exact mean: it is the mean when that is a half, and otherwise one of the two neighbours |
| `Indices.UnpackPacked` | runtime/locdist/indices.py:7-24 | Packing indices and unpacking them gives the indices back |
| `Indices.PackUnpacked` | runtime/locdist/indices.py:7-24 | Unpacking bytes and packing the result gives the bytes back |
| `Indices.PackUint32Indices` | master/aggregator/aggregate.go:555-567 | The Master packs the same bytes as the Worker and refuses the same indices |
| `Indices.UnpackUint32Indices` | master/aggregator/aggregate.go:543-553 | The Master unpacks the same indices as the Worker and refuses the same lengths |
| `Compression.SampledSelectionSound` | runtime/locdist/compression.py:326-390 | For every sample and in all four return paths: indices distinct and in bounds, no unselected magnitude above a selected one, and a count between max(1, target/2) and max(target, min(n, ceil(target * factor))) |
| `Compression.SelectionSound` | runtime/locdist/compression.py:300-323 | Exact or sampled: no unselected magnitude is above a selected one, and the count is the share that the percentage asks for, or within the configured window around it |
| `Compression.ReachingNotEmpty` | runtime/locdist/compression.py:353-365 | The sample always reaches its own threshold: the test for an empty selection never fires |
| `Compression.TopKExists` | runtime/locdist/compression.py:319-323 | The promise that is asked of `topk` can be kept: repeatedly taking the largest value that is left keeps it |
| `Compression.TopKCount` | runtime/locdist/compression.py:313-316 | Between 1 and n for a non-empty vector |
| `Compression.TopKCountIs` | runtime/locdist/compression.py:313-316 | The least count that reaches the percentage, at least one and at most all (`Compression.LeastShareUnique`: there is one such count) |
| `Compression.SamplingSelects` | runtime/locdist/compression.py:326-390 | With sampling, exactly the values that reach the threshold are selected if their number is within the configured window and the sample is smaller than the vector, and otherwise exactly as many of the largest as the percentage asks for |
| `Compression.ThresholdIs` | runtime/locdist/compression.py:353-355 | The threshold is the k-th largest of the sampled magnitudes, where k is the configured share of the sample |
| `Compression.ExactSelection` | runtime/locdist/compression.py:300-310 | Without sampling, as many of the largest values as the percentage asks for are selected |
| `Compression.NothingLost` | runtime/locdist/compression.py:99-112 | What is sent plus what is kept is the effective gradient |
| `Compression.ResidualContracts` | runtime/locdist/compression.py:93-105 | With k of n values sent, n times the squared norm of the residual is at most n - k times that of the effective gradient, for every selection that prefers large magnitudes |
| `Extraction.ReadyConserves` | runtime/locdist/compression.py:68-112 | On the hook path, the chunk plus the new residual is the gradient plus the old residual, and other residuals are untouched; packing raises an error exactly when an index does not fit, never for tensors of at most 2^32 elements |
| `Extraction.ReadyInWarmup` | runtime/locdist/compression.py:85-91 | Without compression, and in every round up to the last warm-up step, the chunk is dense and carries the gradient, and no residual changes |
| `Extraction.ReadyAfterWarmup` | runtime/locdist/compression.py:93-112 | In every later round the chunk carries the selected values of the effective gradient, the largest ones, as many as the percentage allows, and the rest is kept |
| `Extraction.CompressionState.CompressReadyGradient` | runtime/locdist/compression.py:68-112 | The residuals are updated in place as the hook path says |
| `Extraction.CompressionState.ExtractPerLayer` | runtime/locdist/compression.py:140-179 | Every layer sends its own selection and keeps the rest; the first layer whose indices cannot be packed stops the extraction after its residual was stored |
| `Extraction.CompressionState.ExtractGlobal` | runtime/locdist/compression.py:182-247 | Every layer sends its share of the one selection over the concatenation and keeps the rest; stopped in the same way |
| `Extraction.PerLayerConserves` | runtime/locdist/compression.py:158-170 | Per-layer selection: sent plus kept is the effective gradient of every present layer |
| `Extraction.PerLayerSends` | runtime/locdist/compression.py:158-179 | Per-layer selection: every layer with a gradient sends its largest values, as many as the percentage allows, under its name, position and round |
| `Extraction.GlobalLargest` | runtime/locdist/compression.py:199-247 | Global selection: the one selection is that of the largest values of the concatenation, as many as the percentage allows |
| `Extraction.GlobalConserves` | runtime/locdist/compression.py:224-238 | Global selection: the same, for any mix of present and absent layers |
| `Extraction.GlobalSplit` | runtime/locdist/compression.py:213-238 | The layers' index lists, shifted by their offsets, are exactly the globally selected positions, each in one layer only |
| `Extraction.GlobalSends` | runtime/locdist/compression.py:213-238 | One after another, the layers send the globally selected values of the concatenation and keep the others |
| `Extraction.GlobalCount` | runtime/locdist/compression.py:221-238 | The layers' counts sum to the size of the selection |
| `Extraction.AbsentConservesExactlyWhen` | runtime/locdist/compression.py:153-156 | In an extraction, what a layer without gradient sends and keeps is what was kept for it exactly when that was nothing |
| `AbsentLayers.Ledger` | runtime/locdist/compression.py:140-247 | Over any number of whole-model extractions, per layer or global, what was sent, is kept and was dropped adds up to the local gradients |
| `AbsentLayers.ConservesExactlyWhen` | runtime/locdist/compression.py:153-156 | Sent plus kept is the sum of the local gradients throughout a run exactly when every step in which the layer has no gradient finds nothing kept for it |
| `AbsentLayers.LossExample` | runtime/locdist/compression.py:193-196 | A run of two extractions: a value kept in the first is gone after the second |
| `ErrorFeedback.HooksConserve` | runtime/locdist/prepare.py:188-205 | One Worker, one round, hooks in any order and some not firing: sent plus kept is the local gradient plus what was kept before, for every parameter |
| `ErrorFeedback.SentAverageable` | master/aggregator/aggregate.go:239-300 | The Workers agree on when to compress: the Master can average every round of every parameter |
| `ErrorFeedback.SystemConserves` | runtime/locdist/compression.py:85-112 | After any number of rounds, warm-up and missing gradients included, Workers times the sum of the averaged gradients plus all residuals is the sum of all local gradients |
| `ErrorFeedback.WarmupMean` | runtime/locdist/compression.py:85-91 | In every round up to the last warm-up step, or in every round without compression, the averaged gradient is exactly the mean of the local gradients |
| `DeliveredFeedback.DeliveredConserves` | master/aggregator/chunk.go:503-593 | In every run of the keyed barrier in which the Workers send what their hooks produce: Workers times the sum of what was handed out for a position, one delivery per round to any Worker, plus all residuals, is the sum of all local gradients |
| `DeliveredFeedback.DeliveredInWarmup` | master/aggregator/chunk.go:503-593 | So is what is handed out in such a round by the keyed barrier |
| `PreparedSafety.RunInv` | runtime/locdist/prepare.py:114-928 | All invariants of the prepared runtime hold in every run of hooks, step, sender and shutdown |
| `PreparedProperties.QueueConsistent` | runtime/locdist/prepare.py:448-471 | The queue holds exactly what is marked as enqueued, without repeats, and only groups of the active round |
| `PreparedProperties.NothingLost` | runtime/locdist/prepare.py:366-420 | Once the round is finalized and unless it has failed, every group is in exactly one of queue, in flight and returned; the one exception is a group of the batch that the sender is about to fail |
| `PreparedProperties.SentOnce` | runtime/locdist/prepare.py:612-673 | Over a whole run each group of each round is taken to be sent at most once, in the order of the queue |
| `PreparedProperties.BatchWithinLimits` | runtime/locdist/prepare.py:632-673 | A batch has one round, at most the allowed number of groups and, unless it holds one group, payloads that sum to at most the allowed number of bytes |
| `PreparedProperties.SendsLocalChunks` | runtime/locdist/prepare.py:473-491 | What is sent for a layer is the last chunk that was queued for it locally before its group was taken, never an answer that has taken its place |
| `PreparedProperties.StepsAfterAllReturned` | runtime/locdist/prepare.py:1058-1070 | The wrapped optimizer steps only when the answers for every group of the active round have been stored |
| `PreparedProperties.StepsOncePerRound` | runtime/locdist/prepare.py:558-586 | The wrapped optimizer steps at most once per round, in increasing rounds |
| `PreparedFailures.RoundsCount` | runtime/locdist/prepare.py:558-586 | In every run the finished rounds are 1, 2, 3, ..., each once, and the active one is the next |
| `PreparedFailures.FailedSendsNothing` | runtime/locdist/prepare.py:612-673 | Once a round has failed or is over, no group of it is taken to be sent any more |
| `PreparedFailures.ShutdownSendsNothing` | runtime/locdist/prepare.py:588-624 | From a shutdown on no group is taken to be sent any more, whatever rounds are still opened |
| `PreparedFailures.FailuresCaused` | runtime/locdist/prepare.py:499-556 | In every run a round only fails because step() waited too long for a group (never in round 1), found it failed or could not apply its answers, because the sender failed a batch of it, or because of a shutdown |
| `PreparedFailures.RaisesWhen` | runtime/locdist/prepare.py:880-916 | step() raises only when the round has failed or its answers could not be applied |
| `PreparedFailures.CompletesWhen` | runtime/locdist/prepare.py:880-916 | step() goes on from its wait only when exactly the groups of the plan have returned for the round and the round has not failed |
| `PreparedFailures.BatchStoredWhole` | runtime/locdist/prepare.py:740-770 | When the sender is done with a response, the answers of all groups of the batch have been stored and none of them is in flight |
| `PreparedFailures.AppliedExactlyWhen` | runtime/locdist/prepare.py:537-545 | A round is marked as applied from the time its gradients were applied until it is finished, and when it is finished exactly if the optimizer stepped with it |
| `PreparedFailures.FinishedClean` | runtime/locdist/prepare.py:558-586 | When a round is finished nothing is left in the queue, in any of the sets or among the chunks, and the round is no longer marked as failed |
| `PreparedFailures.AppliedIs` | runtime/locdist/prepare.py:537-545 | When a round is marked as applied exactly the groups of the plan count as returned for it, and other rounds are not touched |
| `PreparedFailures.FailedIs` | runtime/locdist/prepare.py:917-928 | When a round has failed none of its groups waits, is marked as enqueued or submitted, or is in flight; what was queued or returned stays, and other rounds are not touched |
| `PreparedLateHooks.StepsWithAnswersExactlyWhen` | runtime/locdist/prepare.py:499-556 | In every run, hooks firing any number of times: a chunk that the optimizer steps with is what the Master returned for this layer and round exactly when no hook ended for it after its group was stored, or the last one that did brought an equal chunk |
| `PreparedLateHooks.StepsWithAnswers` | runtime/locdist/prepare.py:499-556 | When hooks fire at most once per layer and round, every chunk that the optimizer steps with is the one that the Master returned for this layer and this round |
| `PreparedLateHooks.LateHookTakesEffect` | runtime/locdist/prepare.py:198-206 | From every reachable state in which all groups have returned and one hook is still running: with any chunk that it brings there is a run in which the optimizer steps with that chunk |
| `PreparedProperties.AnswersFixed` | runtime/locdist/prepare.py:811-840 | An answer, once stored, is never replaced in the log by which the gate is judged |
| `PreparedLateHooks.LateHookExample` | runtime/locdist/prepare.py:198-206 | A run of one layer in which a second backward pass before step() makes the optimizer step with the local gradient 3 where the Master answered 2 |
| `PreparedService.PreparedRuntimeState.OpenRound` | runtime/locdist/prepare.py:142-143 | A hook belongs to the active round, or opens the next |
| `PreparedService.PreparedRuntimeState.QueueChunk` | runtime/locdist/prepare.py:198-206 | The chunk is queued under its round, and its group joins the queue when complete and new |
| `PreparedService.PreparedRuntimeState.FinalizeRoundChunks` | runtime/locdist/prepare.py:366-420 | Layers whose hook did not fire get a chunk that claims no gradient and counts as zero, the others keep theirs, and every ready group is queued |
| `PreparedService.PreparedRuntimeState.CollectBatch` | runtime/locdist/prepare.py:632-673 | Started at the head of a round that has not failed and not giving up the lock, a batch is what is missing at the head of the queue, within the limits, and nothing more would have fitted; failed heads and the waits between two groups are steps of the runs |
| `PreparedService.PreparedRuntimeState.StoreGroupResponse` | runtime/locdist/prepare.py:811-840 | An answer is stored member by member; a stale one is refused without a trace, one with a bad member is stored up to it and refused |
| `PreparedSpec.StoredIs` | runtime/locdist/prepare.py:811-840 | The members before the first bad one are stored and nothing else is; the group counts as returned exactly when there is no bad one |
| `Gradients.EmptyMeansZero` | runtime/locdist/prepare.py:374-396 | The chunk of a layer without gradient names its layer and round, claims no gradient and no payload, and counts as zero |
| `Gradients.PackedWin` | master/aggregator/aggregate.go:536-540 | When indices are packed, numbers beside them are not read |
| `PreparedService.PreparedRuntimeState.PurgeRoundQueue` | runtime/locdist/prepare.py:1030-1043 | Exactly the groups of the round leave the queue, the others keep their order |
| `PreparedService.PreparedRuntimeState.FailRound` | runtime/locdist/prepare.py:917-928 | The first critical section after an error |
| `PreparedService.PreparedRuntimeState.FailSentBatch` | runtime/locdist/prepare.py:761-770 | The sender's error handler |
| `PreparedService.PreparedRuntimeState.MarkApplied` | runtime/locdist/prepare.py:537-545 | The round is marked after its gradients were applied |
| `PreparedService.PreparedRuntimeState.EndStep` | runtime/locdist/prepare.py:558-586 | Everything of the finished round is dropped and the next round follows it |
| `PreparedService.PreparedRuntimeState.ShutDownRuntime` | runtime/locdist/prepare.py:588-599 | A shutdown fails the active round |
| `Grouping.BuildFusedGroups` | runtime/locdist/prepare.py:1091-1128 | For any limits: every layer is in exactly one group, a group's id is its index, the map agrees, groups are spans of layers, the limits hold unless a group is a single layer, and no group has room for the layer below it |
| `Grouping.BytesCount` | runtime/locdist/prepare.py:1117-1118 | The estimated size of a group is four bytes per element, and four for a layer without elements |
| `Grouping.GroupedPlan` | runtime/locdist/prepare.py:1176-1179 | The result is a plan that the rest of the runtime can rely on |
| `Accumulation.FinalExactlyWhen` | runtime/locdist/prepare.py:322-356 | In every run a backward pass is marked as final exactly when the number of passes since the last optimizer step is a multiple of the accumulation steps, and always when there are fewer than two |
| `Accumulation.BackwardPasses.BeginBackwardPass` | runtime/locdist/prepare.py:322-334 | The counters at the first hook of a pass |
| `Accumulation.BackwardPasses.FinishBackwardPass` | runtime/locdist/prepare.py:336-356 | The counters after a pass |
| `Sharding.ShardImageFolder` | master/sharder/image_folder.go:27-84 | Every Worker gets exactly total/workers images, no image goes to two Workers, every image goes to the first Worker from its position in its class on whose quota is not used up, fewer images than Workers are left over, and the error for an unbalanced result cannot occur |
| `Sharding.AllQuotasUsed` | master/sharder/image_folder.go:57-80 | With enough samples every quota is used up |
| `Sharding.FewDropped` | master/sharder/image_folder.go:52-56 | With distinct ids fewer samples than Workers are dropped |
| `Sharding.NextImageWorker` | master/sharder/image_folder.go:86-94 | The first Worker from the sample's position on with quota left; none exactly when all quotas are used up |
| `Sharding.ComputeAssignments` | master/sharder/jsonl.go:66-87 | The slices tile 1..N contiguously, and what does not divide evenly goes to the first Workers, one sample each |
| `Sharding.ShardJSONL` | master/sharder/jsonl.go:20-64 | The slices put together are the data set, one slice per Worker |

## Left out

- Chunk rounds: they follow the same protocol as group rounds (master/aggregator/chunk.go:218-391) with a chunk in place of a group; the model is stated once, for groups.
- Requests that fail the checks on job id, Worker id or runtime version before the mutex is taken: they do not reach the protocol. The checks on a single group are a parameter of the keyed barrier.
- KeyedDiscipline.UndisciplinedMovesBack, KeyedDiscipline.GoesBackExactlyWhen: the other Workers have to be able to go on. For every open round of the batch's layers and groups that the Worker submitted to, each Worker that is missing has no unfinished call on the layer or group and has sent nothing newer of it, and averaging succeeds with some group from them. Without that a round may never be answered again, and then nothing can move the record back past it.
- KeyedRestart.MixedRefusedForever: is about the keyed barrier alone; a dense round that ends drops the keyed maps as well.
- KeyedRestart.RestartExactlyWhen: the new start itself (master/jobs/manager.go:123-135) touches nothing of the barrier; it appears only as the next batches of the same Workers.
- DeliveredAnswers.DeliveredIsMean, DenseAnswers.DeliveredIsMean, DeliveredFeedback.DeliveredConserves: averaging enters the barriers as a function of the full round; that it gives the mean, as `GroupAveraging.AverageGroup` is proved to, is a hypothesis on that function.
- The coordinator: its membership test (master/coordinator/coordinator.go:183-190) is the condition under which a keyed call may open.
- Runs that mix the dense and the keyed path: a dense reset drops the keyed maps. Keyed runs are scoped between map resets, dense runs to the dense path; the one interaction modelled is an abort with keyed receivers.
- The byte size that the Master copies from an arbitrary submission into its answer (master/aggregator/chunk.go:550-552): it is not read by the runtime.
- Data type names, and the errors for unknown ones: a chunk carries real numbers. The path for missing gradients takes its output type from another chunk than its label (master/aggregator/aggregate.go:293-294); on values there is no difference.
- Applying.Parameter.Apply: does not model tensor shapes; a parameter and a chunk carry their number of elements, and a wrong number stands for a wrong shape.
- ErrorFeedback.SystemConserves: speaks of runs in which no hook raises an error; on a compressed tensor of more than 2^32 elements packing may raise one, after the residual was stored.
- PreparedService.PreparedRuntimeState.CollectBatch: does not model the waits for the flush deadline and heads of failed rounds; they are steps of the runs (`PreparedRuns.PopsFirst`, `PreparedRuns.PopsMore`).
- The cast of a payload to its wire type on the Worker: conservation is stated before the cast, in exact arithmetic.
- bfloat16 conversions and the binary32 and binary64 averages, which are one loop each without further rounding logic.
- HalfPrecision.AverageHalf: binary64 and binary32 rounding enter as functions that keep order and are exact where IEEE 754-2019 says so, because only those two facts are used.
- NaN and infinite gradients on the Worker.
- Clocks, metrics, logs: a timeout is a step that may happen whenever the code could take it (never in round 1, which waits without a limit).
- PreparedRuns.Init: the job and Worker ids are taken as configured; a sender that waits for them would take no step.
- The identity checks on a whole response (version, job, group id, round) before the lock: a response that fails them is the step that fails the batch.
- `note_fallback_sync` and `sync_gradients` on a prepared model: a path with another contract than the gate.
- Hooks that overlap: a layer's hook fires again only after its last call has ended, as backward passes on one model follow each other.
- Liveness of the prepared runtime: whether a round completes depends on the transport.
- Sharding.ShardImageFolder: with repeated Worker ids the first positions differ from the original, which keeps the last one; counts and contents do not. Walking directories, copying and writing files are not modelled.
- gRPC, discovery, pairing, packaging, job management and the editor extension: plumbing around the modelled core.
