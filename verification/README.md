# Verified models of the batcher, the alt-DA state and the pre-image wire protocol

This project models, in Dafny, the parts of the OP Stack services whose correctness spans many
operations, and proves what they keep over whole runs:

* **The batcher's channel manager** (`op-batcher/batcher`): a hash-linked queue of unsafe L2
  blocks with a cursor, a queue of channels that hold stretches of those blocks, the frames of
  each channel with their own cursor, and the L1 transactions that carry them. Loads, publishing,
  receipts, timeouts, switches of the DA type, safe-head syncs and clears come in any order.
* **The alt-DA challenge state and its manager** (`op-alt-da`): commitments and challenges in
  FIFO queues that are scanned with an early exit, a table of challenges, two L1 origins,
  finalization, and the two kinds of reset.
* **The txpool cancel protocol** between the publishing loop and the receipts loop of the batcher.
* **The pre-image and hint wire protocol** (`op-preimage`), down to the pieces that a file poller
  cuts reads and writes into.

`dafny verify dfyconfig.toml` checks everything.

## How it is built

Each state machine exists twice. A *specification* says as functions on values what every
operation does (`ChannelSpec`, `ManagerSpec`, `SyncSpec`, `AltDASpec`), and the theorems are about
those functions. *Objects* (`ChannelObject`, `ChannelManagerObject`, `BatchSubmitterObject`,
`AltDAObject`, and the classes of `Preimage`) update their fields in place, with the loops of the
source, and each method is proved to change the object's value as the specification says. Panics
are a `None` or a flag; so is every error path.

A channel object is found by its ID and a challenge by its place in the list of challenges that
were ever created, which is how two challenges with the same key stay two things. A block's hash
is the block itself, so hashes do not collide. The channel out is a script of answers: it takes a
block, refuses it, or is full; and emits numbered frames until it is drained.
Some values carry history that the code does not keep and no branch looks at: the deadlines a
channel was offered and the blocks of all its confirmations, and what the txpool loops did.

| files | contents |
|---|---|
| `Options`, `Chain`, `Frames`, `Format` | common values: blocks, frames, configuration, number formats |
| `ChannelSpec`, `ManagerSpec`, `SyncSpec` | what the batcher's operations do |
| `ChannelProofs` | channels: frames, transactions, deadlines |
| `ManagerInv`, `ManagerSteps`, `PublishSteps`, `Publishing`, `DroppedBlocks`, `TxDataStep`, `SyncProofs`, `Clearing`, `BatcherRuns`, `PendingBytes`, `BatcherLedger` | the channel manager's invariant, step by step and over runs |
| `Deadlines` | publishing and the channels' deadlines |
| `LostRuns` | what becomes of blocks that are no longer in the run |
| `Scenarios`, `LostBlock`, `PrunedRuns`, `Reconfirmed` | concrete runs: a lost block, a panic, a wrong counter, a transaction confirmed twice |
| `Channel`, `ChannelManager`, `BatchSubmitter` | the batcher's objects |
| `TxId` | the text of transaction IDs |
| `Txpool` | the txpool cancel protocol |
| `Commitments` | commitments and challenge keys |
| `AltDASpec`, `ChallengeProofs`, `ChallengeHistory`, `AltDARuns`, `Reorgs`, `Pruning` | the alt-DA state and manager |
| `FinalizedHead` | the finalized head, and where it can fall |
| `EarlyPrune` | a concrete run that misses a reorg |
| `AltDA` | the alt-DA objects |
| `Wire`, `WireRuns`, `Preimage` | framing, sessions in any schedule, and the two ends of the channels |

## Main results

* `BatcherLedger.EveryRun`: over every run, the blocks loaded since the last clear are released
  ones, all ancestors of a safe head that was reported, followed by the run of queued channels and
  waiting blocks. Channel outs may take, refuse or fail on any block. The only steps left out are
  those that invalidate a channel without blocks in front of channels with blocks, and
  `BatcherLedger.StepKeeps` shows that a step keeps this balance if and only if it is not one of
  them. `BatcherLedger.PanicsExactly` says exactly which steps panic.
* `TxDataStep.TxDataKeeps`: what is handed out comes in strict order, and a switch of the DA type
  rebuilds from the first block of the invalidated channel.
* `LostRuns.LostStaysLost` and `LostRuns.BackExactly`: a block that left the run, lost or released,
  stays out of it over every run until the state is cleared or the cursor is rewound to or before it.
* `ChannelProofs.ClosesExactly` and `Deadlines.PublishedInTime`: the L1 head closes a channel exactly
  when it comes within the safety margin of a sequencing window or channel timeout, or reaches the
  longest duration; after publishing, an open channel is before all of these.
* `ChannelProofs.TimesOutExactly`: a confirmation reports a timeout exactly when two confirmations
  are the channel timeout or more apart.
* `ChannelProofs.FullySubmittedMeansAllConfirmed`: no frame is lost in any interleaving of sends,
  failures and confirmations.
* `BatcherRuns.SyncClearsExactly`: a sync starts afresh exactly when the safe head is not the one
  that the blocks in state lead up to, or did not follow a channel that was confirmed in time.
* `BatcherRuns.SyncIsExact`: a sync leaves exactly the blocks after the safe head.
* `AltDARuns.StatusIsHistory`: in every reachable state the status of a challenge is what the
  history of L1 events says.
* `Reorgs.ReorgExactly` and `Reorgs.ReorgByHistory`: a reorg is asked for exactly when a commitment
  expires whose last challenge in the history of L1 events was lost and is still on record.
* `Reorgs.NoRepeatedReorg` and `Reorgs.NoRepeatedReorgOnChain`: and not twice.
* `Pruning.TableIsQueues`: the table lists exactly the queued challenges if every 32-byte
  commitment is challenged at most once per block.
* `FinalizedHead.HeadFallsExactly` and `FinalizedHead.HeadFallsOnlyAtTakeover`: exactly which steps
  lower the finalized head, and that over whole runs only a change of its source does.
* `Commitments.UniqueIffFarApart`: exactly which lengths of generic commitments have distinct keys.
* `Txpool.CancelProtocol`: at most one cancellation is outstanding, exactly in CancelPending.
* `Txpool.RefusalsAreCancelled`: exactly the refusals read in state Good block the pool, and each is
  answered by one cancellation of the other type.
* `WireRuns.InSync` and `WireRuns.SessionEnds`: any schedule of partial reads and writes ends with
  the right replies and two empty streams.

## Where the code does not do what one would expect

Each of these has a concrete input and the exact condition under which the code is right.

* Invalidating a channel without blocks drops the blocks of newer channels without rewinding over
  them (`ManagerSteps.InvalidateStep`; `LostBlock.ABlockCanBeLost` is a run in which this loses a
  block). Every block is kept if and only if the invalidated channel has blocks or no channel from
  its place on has any (`BatcherLedger.StepKeeps`). A lost block comes back if and only if a channel
  that starts at or before it is invalidated later (`LostRuns.BackExactly`).
* A confirmation that shows a timeout, and a switch of the DA type, panic if and only if the first
  block of the channel has been pruned (`BatcherRuns.ConfirmKeeps`, `BatcherLedger.PanicsExactly`;
  `PrunedRuns.APanicCanHappen` is a run that ends in a panic).
* Pruning more blocks than a positive cursor shifts the counter of pending bytes
  (`PendingBytes.PruneDrift`; `PrunedRuns.TheCounterCanGoWrong` is a run in which it does).
* A deadline of 0 means unset, so a running timeout is the minimum of its deadlines if and only if
  none of them is 0 or the last one is (`ChannelProofs.TimeoutIsMinimum`,
  `ChannelProofs.TimeoutNotMinimum`).
* A transaction that was confirmed can be sent and confirmed again, after an earlier one failed. Then
  the channel times out by confirmations that are no longer on record (`ChannelProofs.TimesOutExactly`,
  `Reconfirmed.TimesOutOffRecord`), and a channel with every frame confirmed does not count as
  submitted (`Reconfirmed.ConfirmedButPending`). As long as no transaction is confirmed twice the
  record decides (`ChannelProofs.TimesOutByRecord`).
* A maximum frame size of exactly the frame overhead passes the configuration check, but frames
  then carry no data. The drain of a closed channel ends if and only if nothing is left or the
  maximum is above the overhead (`ChannelProofs.DrainEndsExactly`, `ChannelProofs.DrainCanStall`).
* Challenge keys have no separator. Two lengths of generic commitments have no key in common if and
  only if they are equal (`Commitments.UniqueIffEqualLengths`, `Commitments.KeyCollision`); with
  64-bit block numbers, if and only if they are equal or at least 10 apart
  (`Commitments.UniqueIffFarApart`).
* A second challenge of the same commitment breaks the agreement of table and queues
  (`ChallengeProofs.CreateAgrees`, `ChallengeProofs.SecondChallengeDisagrees`).
* Commitments wait in order of inclusion, so an expired challenge can wait behind an open one. If
  the L1 chain is finalized that far, the challenge is pruned while its commitment still needs it
  (`Pruning.PruneKeepsNeeded` says exactly when), and the reorg never happens
  (`EarlyPrune.PruneCanLoseReorg`).
* The finalized head of the alt-DA manager can fall. It is set from the last commitment ever pruned
  when something is tracked, and from the L1 finalized head when nothing is; the first is 0 as long
  as nothing was pruned (`FinalizedHead.HeadCanFall`). A step lowers the head exactly when the
  source it sets it from is lower (`FinalizedHead.HeadFallsExactly`).
* A hint of 2^32 bytes or more is cut off and the rest stays on the stream (`Preimage.HintFits`,
  `Wire.CutOff`).
* A poller whose deadline cannot be set reports 0 bytes although earlier polls may have moved some
  (`Preimage.FilePoller.Read`, `Preimage.MovedButNotReported`).

Where a comment and the code differ the code was followed: the comment on `Prune`
(op-alt-da/dastate.go:209) speaks of expiry beyond the given block, the code removes what expires
at or before it.

## Model

| member | source | states |
|---|---|---|
| `ChannelProofs.TimeoutIsMinimum` | op-batcher/batcher/channel_builder.go:247-253 | the running timeout is the minimum of all deadlines ever offered if and only if none is 0 or the last one is; it is always one of them |
| `ChannelProofs.TimeoutNotMinimum` | op-batcher/batcher/channel_builder.go:247-253 | three deadlines with a 0 between leave a timeout that is not the minimum |
| `ChannelProofs.OpenMeansBeforeEveryDeadline` | op-batcher/batcher/channel_builder.go:222-262 | a channel left open after registering the L1 head is before the end of the longest duration, and more than the safety margin before the end of each block's sequencing window and of the channel timeout after each confirmation, where the sums fit into 64 bits |
| `ChannelProofs.ClosesExactly` | op-batcher/batcher/channel_builder.go:222-262 | if no sum wraps around, registering the L1 head closes an open channel if and only if one of these has come |
| `ChannelProofs.NewChanInv` | op-batcher/batcher/channel.go:29-40 | a new channel satisfies the channel invariant, is open and empty, was opened at the given L1 block, and has nothing to send |
| `ChannelProofs.AddBlockInv` | op-batcher/batcher/channel_builder.go:170-211 | a block is appended if and only if it is taken; frames and transactions stay; a refusal marks the channel full, a failure does not, and a taken block does exactly if the compressor says so |
| `ChannelProofs.AddBlocksInv` | op-batcher/batcher/channel_manager.go:400-448 | the blocks taken from a linked run are a prefix of it, in order, all of them unless the channel fails or is full; the channel's blocks stay linked |
| `ChannelProofs.OutputFrameInv` | op-batcher/batcher/channel_builder.go:346-372 | a frame has the next number and a legal size, and no byte is lost between the channel out and the frames |
| `ChannelProofs.OutputReadyFramesInv` | op-batcher/batcher/channel_builder.go:316-327 | frames put out early lose no byte and leave less than a frame's worth behind |
| `ChannelProofs.DrainInv` | op-batcher/batcher/channel_builder.go:329-341 | closing puts every remaining byte into frames, at least one |
| `ChannelProofs.DrainMakesProgress` | op-batcher/batcher/channel_config.go:103-126 | draining makes progress if and only if the maximum frame size is above the overhead, which the check does not ask for |
| `ChannelProofs.DrainEndsExactly` | op-batcher/batcher/channel_builder.go:329-341 | for every configuration that passes the check, the drain loop of a closed channel ends if and only if nothing is left or the maximum frame size is above the overhead |
| `ChannelProofs.DrainStalls` | op-batcher/batcher/channel_builder.go:329-341 | otherwise, after any number of frames every byte is still left, as many frames are queued, and the next is not the last |
| `ChannelProofs.DrainCanStall` | op-batcher/batcher/channel_config.go:103-126 | a configuration that passes the check and under which closing a new channel puts out empty frames without end |
| `ChannelProofs.OutputFramesInv` | op-batcher/batcher/channel_builder.go:300-309 | outputting frames never fails on an open channel; afterwards full means closed and drained, with a frame to send |
| `ChannelProofs.NextTxDataInv` | op-batcher/batcher/channel.go:119-132 | the frames handed out are the next ones at the cursor and are on record as pending under their ID; one for calldata, up to the target number for blobs, fewer only at the end of a full channel |
| `ChannelProofs.NoDataExactly` | op-batcher/batcher/channel.go:134-141 | a channel has no data if and only if all its frames are out, or it is open, uses blobs and has fewer frames left than the target number |
| `ChannelProofs.TxFailedInv` | op-batcher/batcher/channel.go:44-57 | the rewind panic is unreachable; the cursor ends at the first frame of the failed transaction if it was past it and stays otherwise, and no frame is lost |
| `ChannelProofs.TxConfirmedInv` | op-batcher/batcher/channel.go:61-92 | a confirmation moves exactly one transaction to the confirmed ones, with its block, and keeps every frame covered |
| `ChannelProofs.TimesOutExactly` | op-batcher/batcher/channel.go:61-101 | a confirmation reports a timeout if and only if the transaction is pending and two confirmations ever made, this one included, are the channel timeout or more apart |
| `ChannelProofs.TimesOutByRecord` | op-batcher/batcher/channel.go:61-101 | if no transaction was confirmed twice, if and only if two transactions on record as confirmed are |
| `Reconfirmed.TimesOutOffRecord` | op-batcher/batcher/channel.go:44-101 | a run in which a transaction is confirmed again and the channel times out by 51 blocks while its record spans 11 |
| `Reconfirmed.ConfirmedButPending` | op-batcher/batcher/channel.go:105-107 | a run after which every frame is confirmed and the channel is not fully submitted |
| `ChannelProofs.FullySubmittedMeansAllConfirmed` | op-batcher/batcher/channel.go:105-107 | a fully submitted channel is closed and drained, and every frame it produced is in a confirmed transaction |
| `ManagerSteps.TxFailedStep` | op-batcher/batcher/channel_manager.go:100-108 | a failed transaction never panics and keeps order, lookup and run |
| `ManagerSteps.RewindExact` | op-batcher/batcher/channel_manager.go:131-148 | rewinding to the first block of a queued channel panics if and only if that block was pruned; otherwise the cursor ends where the earlier channels end |
| `ManagerSteps.InvalidatePanics` | op-batcher/batcher/channel_manager.go:154-199 | invalidation panics if and only if the channel has blocks and the first one was pruned |
| `ManagerSteps.InvalidateStep` | op-batcher/batcher/channel_manager.go:154-199 | for a queued channel, and for one without blocks wherever it is: the run of blocks is kept if and only if the channel has blocks or none from its place on does, and gets shorter otherwise; if kept, so is the whole invariant |
| `LostBlock.ABlockCanBeLost` | op-batcher/batcher/channel_manager.go:154-199 | a run from a new batcher, with a channel out that refuses the block and one for the other DA type that takes it, after which the block is in no channel and will not be offered again |
| `PrunedRuns.APanicCanHappen` | op-batcher/batcher/channel_manager.go:131-148 | a run from a new batcher (two loads, publish, failure, sync) after which publishing with the other DA type panics |
| `PrunedRuns.TheCounterCanGoWrong` | op-batcher/batcher/channel_manager.go:525-543 | a run from a new batcher after which no block is left and the counter of pending bytes is -20 |
| `PublishSteps.NextTxStep` | op-batcher/batcher/channel_manager.go:203-217 | the transaction handed out is the next stretch of frames of that channel, of the right size; the last L1 origin becomes the latest one of its blocks unless that is earlier; lookup and run agree afterwards and other channels are untouched |
| `PublishSteps.ForceCloseStep` | op-batcher/batcher/channel_manager.go:288-295 | a current channel without frames that is to be published at once is closed and has data, nothing else changes; the run is kept and nothing fails |
| `PublishSteps.EnsureStep` | op-batcher/batcher/channel_manager.go:350-386 | afterwards the current channel is the last one and not full; only a new, empty channel with the default configuration may have been added |
| `PublishSteps.ProcessStep` | op-batcher/batcher/channel_manager.go:400-448 | blocks move from the waiting part into the current channel, all of them unless it fails or is full, and the run stays the same |
| `PublishSteps.RegisterStep` | op-batcher/batcher/channel_manager.go:389-396 | the current channel is full afterwards if and only if it was or the L1 head, unless that is ignored, is at its timeout; a full one has data; every block is kept and all channels are settled |
| `Publishing.FirstWithTxDataIs` | op-batcher/batcher/channel_manager.go:297-303 | the search finds the earliest channel with data, if there is one |
| `Publishing.NoDataNothingBefore` | op-batcher/batcher/channel.go:134-141 | the channels before the earliest one with data have no frame left to send |
| `Publishing.BuildStep` | op-batcher/batcher/channel_manager.go:313-345 | building keeps the invariant and the run; a channel it reports ready has data and nothing before it; if it reports none, every block is in a channel and no channel has anything to send |
| `TxDataStep.GetReadyStep` | op-batcher/batcher/channel_manager.go:288-345 | a ready channel has data and every earlier channel has sent all its frames; nothing is ready only if no block waits and no channel has anything to send; a forced publish finds one ready; the run is kept |
| `DroppedBlocks.ReadySameRun` | op-batcher/batcher/channel_manager.go:288-345 | building a channel keeps the run of blocks also after blocks were dropped, so they do not come back |
| `TxDataStep.SwitchInvalidate` | op-batcher/batcher/channel_manager.go:228-268 | a switch that keeps the blocks keeps the invariant, leaves no channel with data, and the cursor is at the first block of the invalidated channel if it has one |
| `TxDataStep.SwitchReady` | op-batcher/batcher/channel_manager.go:228-268 | what is ready after the switch is a new channel with the new configuration, whose blocks are the waiting ones from the cursor on |
| `TxDataStep.TxDataKeeps` | op-batcher/batcher/channel_manager.go:228-268 | a call panics exactly in the pruned case; the run is kept if and only if it does not switch away from a channel without blocks in front of blocks, and gets shorter otherwise; if kept, so is the invariant, and data comes from the first channel with frames left, after a switch with the new type and from the first block of the old channel |
| `Deadlines.PublishedInTime` | op-batcher/batcher/channel_builder.go:222-262 | after a call that registers the L1 head, also one that switches, a current channel left open is before the deadline of its opening, of each block and of each confirmation |
| `PendingBytes.PruneDrift` | op-batcher/batcher/channel_manager.go:525-543 | a prune beyond the cursor shifts the counter by exactly the size of the waiting blocks pruned less the size of as many first blocks |
| `PendingBytes.PruneDriftHappens` | op-batcher/batcher/channel_manager.go:525-543 | two blocks of different size, one in a channel: pruning both leaves the counter wrong |
| `PendingBytes.AddDrift` | op-batcher/batcher/channel_manager.go:498-509 | loading keeps the counter exact |
| `PendingBytes.InvalidateDrift` | op-batcher/batcher/channel_manager.go:131-148 | rewinding keeps the counter exact |
| `PendingBytes.TxDataDrift` | op-batcher/batcher/channel_manager.go:228-268 | publishing keeps the counter exact, switches included |
| `SyncProofs.SafePrefixIs` | op-batcher/batcher/sync_actions.go:164-173 | the channels counted for pruning are the longest prefix without a block above the safe head |
| `SyncProofs.PruneStep` | op-batcher/batcher/channel_manager.go:525-558 | the two prunes together drop only a front of the run, only the safe head and its ancestors, and leave the blocks right after the safe head |
| `Clearing.StalledExactly` | op-batcher/batcher/sync_actions.go:148-161 | the test for a channel that the safe head did not follow holds if and only if it is closed, every frame was confirmed and none is under way, no two confirmations are the channel timeout apart, all are below the current L1 block, and a block of it is above the safe head |
| `Clearing.NotFollowedByRecord` | op-batcher/batcher/sync_actions.go:148-161 | the same by the record of confirmed transactions, if none was confirmed twice |
| `Clearing.KeepExactly` | op-batcher/batcher/sync_actions.go:100-161 | the state is kept if and only if the safe head is at most one below the oldest block, not above the newest, equal to the block with its number, and followed every such channel |
| `BatcherRuns.AddStep` | op-batcher/batcher/channel_manager.go:498-509 | an accepted block extends the run by one, a refused one changes nothing; with a run, a block is accepted if and only if its parent is the last of it |
| `BatcherRuns.FailKeeps` | op-batcher/batcher/channel_manager.go:100-108 | a failure receipt keeps every block, order and lookup, whatever the ID |
| `BatcherRuns.ConfirmKeeps` | op-batcher/batcher/channel_manager.go:112-125 | a confirmation panics if and only if two confirmations of the channel are then its timeout apart and its first block was pruned; otherwise the run is kept if and only if a channel that timed out has blocks or none from its place on does |
| `BatcherRuns.BehindPanics` | op-batcher/batcher/channel_manager.go:131-148 | a channel that was pruned but still has a transaction under way can only panic when it is rewound to |
| `BatcherRuns.ClearKeeps` | op-batcher/batcher/channel_manager.go:79-92 | clearing leaves an empty run that satisfies the invariant, with no tip, an exact counter and the given L1 origin |
| `BatcherRuns.SyncClearsExactly` | op-batcher/batcher/sync_actions.go:54-187 | a sync clears if and only if the status is complete, the node did not go back, and the state cannot be kept in that sense |
| `BatcherRuns.SyncKeeps` | op-batcher/batcher/driver.go:458-483 | no sync panics; it does nothing, or clears everything exactly when it must, or releases only the safe head and its ancestors and the longest prefix of channels without a block above it; and it returns the range that is missing |
| `BatcherRuns.SyncIsExact` | op-batcher/batcher/sync_actions.go:54-187 | after loading the returned range the block numbers are exactly safe+1 up to the unsafe head, or to the newest kept block if higher |
| `BatcherLedger.StepKeeps` | op-batcher/batcher/channel_manager.go:112-268 | a step keeps the ledger balanced if and only if it does not invalidate a channel without blocks in front of blocks; then it keeps the whole invariant |
| `BatcherLedger.NoBlockIsLost` | op-batcher/batcher/channel_manager.go:131-199 | every run of such steps keeps the ledger balanced: loaded is released plus run |
| `BatcherLedger.EveryRun` | op-batcher/batcher/channel_manager.go:400-558 | from a new batcher, whatever the channel outs answer: the run is the unreleased loaded blocks in order, released blocks are safe, the counter is exact without a straddling prune |
| `LostRuns.BackExactly` | op-batcher/batcher/channel_manager.go:131-199 | after any step but a clear, a block that was out of the run is in it if and only if the step invalidates a channel that starts at or before it; no invariant is assumed beyond linked blocks |
| `LostRuns.StaysOut` | op-batcher/batcher/channel_manager.go:131-199 | over every run without a clear and without such an invalidation the block stays out |
| `LostRuns.LostStaysLost` | op-batcher/batcher/channel_manager.go:154-199 | so a block that any step takes out of the run of a batcher that keeps the invariant stays out until then, also where the invariant is lost with it |
| `BatcherLedger.CancelReceiptsIgnored` | op-batcher/batcher/driver.go:1044-1052 | receipts with an empty ID, which cancellations have, change nothing |
| `BatcherLedger.PanicsExactly` | op-batcher/batcher/channel_manager.go:112-268 | a step panics if and only if it invalidates a channel whose first block was pruned |
| `ChannelObject.Channel.AddBlock` | op-batcher/batcher/channel_builder.go:170-211 | a full channel refuses; a block the channel out takes is appended, with its origin and deadline noted; a channel out that is full marks the channel full; nothing else changes |
| `ChannelObject.Channel.OutputFrames` | op-batcher/batcher/channel_builder.go:300-309 | an open channel emits frames only while a whole one is ready; a full one is closed and drained, once |
| `ChannelObject.Channel.CloseAndOutputAllFrames` | op-batcher/batcher/channel_builder.go:329-341 | the drain loop ends and equals the recursive drain |
| `ChannelObject.Channel.NextTxData` | op-batcher/batcher/channel.go:119-132 | the loop takes as many frames as fit, from the cursor on |
| `ChannelObject.Channel.RewindFrameCursor` | op-batcher/batcher/channel_builder.go:417-426 | the cursor is set back unless the frame does not match |
| `ChannelObject.Channel.TxFailed` | op-batcher/batcher/channel.go:44-57 | the transaction leaves the pending ones and the cursor goes back to its first frame if it was past it; an unknown ID changes nothing |
| `ChannelObject.Channel.TxConfirmed` | op-batcher/batcher/channel.go:61-92 | the transaction moves to the confirmed ones, the inclusion range grows, the timeout is offered the new deadline, and the flag tells whether the range reaches the channel timeout |
| `ChannelManagerObject.ChannelManager.Clear` | op-batcher/batcher/channel_manager.go:79-92 | blocks, cursor, channels, lookup and counter are empty and the L1 origin is the given one |
| `ChannelManagerObject.ChannelManager.AddL2Block` | op-batcher/batcher/channel_manager.go:498-509 | refuses a block that does not extend the tip and appends any other |
| `ChannelManagerObject.ChannelManager.TxFailed` | op-batcher/batcher/channel_manager.go:100-108 | changes only the channel that the lookup names, and the lookup |
| `ChannelManagerObject.ChannelManager.TxConfirmed` | op-batcher/batcher/channel_manager.go:112-125 | only the channel the lookup names changes; if it timed out it is invalidated |
| `ChannelManagerObject.ChannelManager.RewindToBlock` | op-batcher/batcher/channel_manager.go:131-148 | the cursor goes back to the block, and the counter grows by the blocks in between; panics unless the block is in state before the cursor |
| `ChannelManagerObject.ChannelManager.HandleChannelInvalidated` | op-batcher/batcher/channel_manager.go:154-199 | the block cursor is rewound to the channel's first block, and it and all newer channels are dropped with their lookup entries |
| `ChannelManagerObject.ChannelManager.NextTxData` | op-batcher/batcher/channel_manager.go:203-217 | the channel hands out its next frames, and the lookup leads from their ID to the channel |
| `ChannelManagerObject.ChannelManager.EnsureChannelWithSpace` | op-batcher/batcher/channel_manager.go:350-386 | the current channel is kept if it has space; otherwise a new one is queued last, unless the factory fails, which changes nothing |
| `ChannelManagerObject.ChannelManager.ProcessBlocks` | op-batcher/batcher/channel_manager.go:400-448 | cursor and counter move on by exactly the blocks that the current channel takes before it is full or fails |
| `ChannelManagerObject.ChannelManager.RegisterAndOutput` | op-batcher/batcher/channel_manager.go:451-493 | the current channel is checked against the L1 head unless told not to, and emits its frames |
| `ChannelManagerObject.ChannelManager.GetReadyChannel` | op-batcher/batcher/channel_manager.go:288-345 | the earliest channel with data, else the current one after taking the waiting blocks, if it then has data |
| `ChannelManagerObject.ChannelManager.SwitchType` | op-batcher/batcher/channel_manager.go:243-268 | the ready channel is invalidated, the configuration replaced and the next transaction looked for again |
| `ChannelManagerObject.ChannelManager.TxData` | op-batcher/batcher/channel_manager.go:228-268 | the next transaction, after rebuilding under the new configuration if the DA type switches while nothing of the channel is pending or confirmed |
| `ChannelManagerObject.ChannelManager.PruneSafeBlocks` | op-batcher/batcher/channel_manager.go:525-543 | the first blocks go and the cursor with them; the counter loses the first of the pruned blocks, as many as were waiting; panics if there are too few |
| `ChannelManagerObject.ChannelManager.PruneChannels` | op-batcher/batcher/channel_manager.go:546-558 | the first channels leave the queue, the current one too if it is among them; their lookup entries stay; panics if there are too few |
| `BatchSubmitterObject.ComputeActions` | op-batcher/batcher/sync_actions.go:54-187 | the decision procedure with its loops equals the specification |
| `BatchSubmitterObject.BatchSubmitter.SyncAndPrune` | op-batcher/batcher/driver.go:458-483 | nothing if out of sync; otherwise the state is cleared or the computed blocks and channels are pruned, and the range to load is returned |
| `TxIdText.ToString` | op-batcher/batcher/tx_data.go:87-104 | the loop with its current channel writes the specified text |
| `TxIdText.EqualKeysMeanEqualFrames` | op-batcher/batcher/tx_data.go:77-104 | for non-zero channel IDs and any injective rendering without separators, texts are equal if and only if the frame lists are |
| `Txpool.CancelProtocol` | op-batcher/batcher/driver.go:403-417 | in every interleaving at most one cancellation is outstanding, exactly in CancelPending; batches start only right after a check that saw Good, cancellations only right after one that saw Blocked |
| `Txpool.CancelReceiptUnblocks` | op-batcher/batcher/driver.go:567-585 | in every interleaving the unlocked reads of the receipts loop never pass over the receipt of a cancellation, and what it is about to set is still right |
| `Txpool.RefusalsAreCancelled` | op-batcher/batcher/driver.go:567-585 | in every interleaving receipts are read in the order of completion; the pool is blocked by exactly the refusals read in state Good; each of them, in order, is answered by one cancellation of the other type, the last one possibly still to be sent |
| `Txpool.NothingStartedIsLost` | op-batcher/batcher/driver.go:912-980 | every batch and cancellation started is requested, failed there, being sent, or completed, once |
| `Txpool.StepKeeps` | op-batcher/batcher/driver.go:1090-1105 | every step of either loop keeps the number of outstanding cancellations in line with the state |
| `Commitments.DecodeEncode` | op-alt-da/commitment.go:73-115 | decoding undoes encoding if and only if the commitment has a legal length |
| `Commitments.EncodeDecode` | op-alt-da/commitment.go:73-115 | whatever decodes is the encoding of the result; 33 bytes after a 0, or more than one after a 1, decode and nothing else |
| `Commitments.KeyInjective` | op-alt-da/dastate.go:40-46 | equal keys of commitments of equal length mean equal commitment and block, whatever their types |
| `Commitments.KeyCollision` | op-alt-da/dastate.go:40-46 | for every commitment and every longer one made by putting bytes 01 in front, two block numbers that give them the same key |
| `Commitments.UniqueIffEqualLengths` | op-alt-da/dastate.go:40-46 | generic commitments of two lengths have different keys at all block numbers if and only if the lengths are equal |
| `Commitments.UniqueIffFarApart` | op-alt-da/dastate.go:40-46 | with 64-bit block numbers, if and only if the lengths are equal or at least 10 apart |
| `Format.DecimalRoundTrip` | op-alt-da/dastate.go:44-46 | parsing a decimal rendering gives the number back |
| `Format.HexInjective` | op-alt-da/dastate.go:44-46 | different bytes have different hex renderings |
| `ChallengeProofs.StatusByOrigin` | op-alt-da/dastate.go:129-142 | Active if and only if unresolved and ending beyond the origin, Expired if and only if unresolved and not beyond |
| `ChallengeProofs.CreateKeeps` | op-alt-da/dastate.go:97-106 | a new challenge goes behind all earlier ones in the order of resolve ends |
| `ChallengeProofs.ResolveKeeps` | op-alt-da/dastate.go:109-117 | resolving keeps order, phases and table |
| `ChallengeProofs.EarlyExitIsFilter` | op-alt-da/dastate.go:188-207 | the scan with early exit equals a full filter of the queue if and only if no due challenge stands behind an open one |
| `ChallengeProofs.OrderedMeansDueFirst` | op-alt-da/dastate.go:188-207 | which an ordered queue guarantees |
| `ChallengeProofs.ExpireKeeps` | op-alt-da/dastate.go:188-207 | expiry brings all statuses to the new origin, changes nothing else about a challenge and keeps the order |
| `ChallengeProofs.PruneChallengesIs` | op-alt-da/dastate.go:245-258 | a key disappears if and only if an expired challenge with it ends by the pruned block |
| `ChallengeProofs.CreateAgrees` | op-alt-da/dastate.go:95-106 | creating a challenge keeps table and queues in agreement if and only if its key is not in the table |
| `ChallengeProofs.SecondChallengeDisagrees` | op-alt-da/dastate.go:95-106 | any challenge made twice: table and queues agree after the first and not after the second |
| `ChallengeProofs.PruneAgrees` | op-alt-da/dastate.go:245-258 | pruning keeps them in agreement |
| `ChallengeHistory.LoadStep` | op-alt-da/damgr.go:342-406 | after loading a block's events every table entry says what the longer history says |
| `AltDARuns.StepKeeps` | op-alt-da/damgr.go:121-339 | every step of the manager keeps order, phases, table and history in line |
| `AltDARuns.ResetKeeps` | op-alt-da/damgr.go:184-201 | either kind of reset keeps the table in line with the history, forgets the commitments and sets the commitment origin; the one after a reorg keeps challenges and their origin, the other forgets them and the history |
| `AltDARuns.StatusIsHistory` | op-alt-da/damgr.go:275-294 | in every reachable state the status, resolve end and input of a challenge are those of the history's last challenge; it is missing only if it was pruned |
| `AltDARuns.InputByHistory` | op-alt-da/damgr.go:205-272 | each of the seven results if and only if: wrong type, last challenge lost, data stored or in the event that resolved the challenge, storage error, missing past the window or of a generic commitment, pending with or without the next block; whatever is not refused is tracked |
| `Reorgs.ExpireCommitmentsIs` | op-alt-da/dastate.go:153-182 | the longest due prefix moves, in order and loss-free; a reorg is required if and only if one of it has an unresolved challenge |
| `Reorgs.ReorgExactly` | op-alt-da/damgr.go:297-339 | advancing the L1 origin requires a reorg if and only if a commitment that expires has an expired challenge; none has an active one; it fails to read if and only if the block is new and its events are missing |
| `Reorgs.ReorgByHistory` | op-alt-da/damgr.go:297-339 | a reorg is required if and only if a commitment that expires has a key whose last challenge in the history is unresolved and ended, and which is still in the table; it is there unless a challenge of the key was pruned |
| `Reorgs.ReorgHasCulprit` | op-alt-da/damgr.go:297-317 | every reorg is due to some commitment's challenge |
| `Reorgs.BlamedIsSafe` | op-alt-da/dastate.go:81-84 | the reset after a reorg drops the commitments and keeps the challenges, so the challenge that was blamed can cause no reorg |
| `Reorgs.TrackSafe` | op-alt-da/dastate.go:120-127 | tracking a commitment whose challenge has not expired puts no other challenge in a position to cause a reorg |
| `Reorgs.StaysSafe` | op-alt-da/damgr.go:184-219 | a challenge that can cause no reorg cannot after any step but an L1 reset or a new challenge |
| `Reorgs.NoRepeatedReorg` | op-alt-da/damgr.go:184-309 | after a reorg and its reset no later step of any run asks for a reorg because of the same challenge, short of an L1 reset or a new challenge |
| `Reorgs.NoRepeatedReorgOnChain` | op-alt-da/damgr.go:184-317 | the same for every run that reads a fixed L1 chain which challenges the key only up to the challenge origin |
| `Pruning.PruneCommitmentsIs` | op-alt-da/dastate.go:218-241 | the longest due prefix of expired commitments goes, and the last one of it is recorded |
| `Pruning.DeletedIsDue` | op-alt-da/dastate.go:210-258 | the challenge of a commitment is deleted if and only if it ends by the pruned block and the challenge origin |
| `Pruning.PruneKeepsNeeded` | op-alt-da/dastate.go:209-258 | pruning keeps the challenges of all commitments that stay tracked if and only if none of those is due |
| `Pruning.SortedMayPrune` | op-alt-da/dastate.go:209-258 | which holds if expired commitments are in order of expiry and the others expire later |
| `Pruning.TableIsQueues` | op-alt-da/dastate.go:86-117 | if the challenges read are of 32-byte commitments and differ in commitment or block, the table lists exactly the queued challenges in every reachable state |
| `FinalizedHead.FinalizeHead` | op-alt-da/damgr.go:121-134 | with something tracked the head is the block of the last commitment ever pruned, counting the longest due prefix of the expired ones; with nothing tracked it stays |
| `FinalizedHead.AdvanceHead` | op-alt-da/damgr.go:139-150 | advancing sets the head one challenge window below the L1 finalized head if and only if nothing was tracked, no challenge is read and the block is there; it fails if and only if the events, or that block, are missing; it forgets no commitment |
| `FinalizedHead.HeadFallsExactly` | op-alt-da/damgr.go:121-150 | for every state and step, the condition before the step under which it lowers the head |
| `FinalizedHead.HeadFallsOnlyAtTakeover` | op-alt-da/damgr.go:121-150 | in every run with inputs in block order, resets included, a step lowers the head only if it sets it from another source than the last one; if challenges end no earlier than their windows, only a finality signal that takes over from the window does |
| `FinalizedHead.HeadCanFall` | op-alt-da/damgr.go:121-134 | a run block by block after which the head is 3, and 0 after the next finality signal |
| `EarlyPrune.PruneCanLoseReorg` | op-alt-da/damgr.go:121-134 | a reachable state in which finalization before the next block turns a required reorg into none |
| `EarlyPrune.ReorgHappens` | op-alt-da/damgr.go:297-317 | the same run without finalization is a reachable state in which the next block is blamed on a challenge |
| `AltDAObject.ChallengeState.CreateChallenge` | op-alt-da/dastate.go:97-106 | an active challenge that ends one resolve window later is queued last and is where its key leads |
| `AltDAObject.ChallengeState.ResolveChallenge` | op-alt-da/dastate.go:109-117 | the challenge the key leads to gets the input and is resolved, in whichever queue; an error if there is none |
| `AltDAObject.ChallengeState.GetChallengeStatus` | op-alt-da/dastate.go:136-142 | the status of the challenge the key leads to, or Uninitialized |
| `AltDAObject.ChallengeState.ExpireCommitments` | op-alt-da/dastate.go:153-182 | commitments move one by one to the expired ones until one is not due; the error is remembered past later ones |
| `AltDAObject.ChallengeState.ExpireChallenges` | op-alt-da/dastate.go:188-207 | challenges move one by one to the expired ones until one is open; resolved ones stay resolved |
| `AltDAObject.ChallengeState.PruneCommitments` | op-alt-da/dastate.go:218-241 | expired commitments go one by one until one is not due; the block of the last is remembered |
| `AltDAObject.ChallengeState.PruneChallenges` | op-alt-da/dastate.go:245-258 | expired challenges go one by one until one is not due, each with its table entry |
| `AltDAObject.ChallengeState.Prune` | op-alt-da/dastate.go:210-214 | commitments are pruned before challenges |
| `AltDAObject.Manager.LoadChallengeEvents` | op-alt-da/damgr.go:342-406 | the loop over events equals the fold of the specification |
| `AltDAObject.Manager.AdvanceChallengeOrigin` | op-alt-da/damgr.go:275-294 | old blocks are ignored; otherwise the events are applied before challenges expire, and a failed fetch changes nothing |
| `AltDAObject.Manager.AdvanceCommitmentOrigin` | op-alt-da/damgr.go:297-317 | old blocks are ignored; a required reorg leaves the origin and announces the reset, after the commitments have moved |
| `AltDAObject.Manager.AdvanceL1Origin` | op-alt-da/damgr.go:323-339 | challenges come before commitments; with nothing tracked the finalized head follows the L1 finalized head |
| `AltDAObject.Manager.UpdateFinalizedFromL1` | op-alt-da/damgr.go:139-150 | sets the finalized head one challenge window back, if that far and found |
| `AltDAObject.Manager.Finalize` | op-alt-da/damgr.go:121-169 | with nothing tracked only the signal is recorded; otherwise the state is pruned and the finalized head is the block of the last commitment ever pruned |
| `AltDAObject.Manager.Reset` | op-alt-da/damgr.go:184-201 | after a required reorg challenges and their origin stay; otherwise everything goes and both origins are the base |
| `AltDAObject.Manager.GetInput` | op-alt-da/damgr.go:205-272 | all seven results: wrong type, lost challenge, storage error, data found, data from the resolving event, missing for good, or pending after a look ahead |
| `Wire.BigEndianRoundTrip` | op-preimage/oracle.go:28-31 | reading back a number gives it modulo what fits the width |
| `Wire.BigEndianDigit` | op-preimage/oracle.go:28-31 | byte i of a length is its digit to base 256 with that weight, most significant first |
| `Wire.FramedDelimits` | op-preimage/hints.go:21-34 | the length prefix delimits a message if and only if its length fits; then it reads back as it was |
| `Wire.CutOff` | op-preimage/hints.go:21-34 | a message that is too long reads as a shorter one, and the rest stays |
| `WireRuns.StepKeeps` | op-preimage/oracle.go:22-74 | every partial read or write of either end keeps all bytes of the exchange accounted for |
| `WireRuns.StuckIsOver` | op-preimage/oracle.go:22-74 | neither end waits for ever unless all is done or the server failed |
| `WireRuns.SessionEnds` | op-preimage/filepoller.go:26-64 | every schedule is over after at most as many moves as there are bytes to write and read |
| `WireRuns.InSync` | op-preimage/oracle.go:22-74 | under every schedule the client's replies are the server's answers in order, and both streams end empty |
| `Preimage.PreimagesInSync` | op-preimage/oracle.go:22-74 | for every list of keys and values below 2^64 bytes, under every schedule, the client gets the server's value of each key |
| `Preimage.HintsInSync` | op-preimage/hints.go:21-71 | for every list of hints below 2^32 bytes, under every schedule, the reader gets each hint and the writer one acknowledgement for each |
| `Preimage.HintFits` | op-preimage/hints.go:21-71 | a hint is read as written, and what follows is left, if and only if it is below 2^32 bytes |
| `Preimage.ReadFrameDelimited` | op-preimage/oracle.go:28-37 | reading length and payload takes exactly a delimited message off the stream |
| `Preimage.OracleClient.Get` | op-preimage/oracle.go:22-38 | writes the key and reads one frame, or panics |
| `Preimage.OracleServer.NextPreimageRequest` | op-preimage/oracle.go:51-74 | reads one key and writes its framed value; the error cases write nothing |
| `Preimage.HintWriter.Hint` | op-preimage/hints.go:21-34 | writes one frame and takes one byte |
| `Preimage.HintReader.NextHint` | op-preimage/hints.go:48-71 | reads one frame and acknowledges it also if the router fails; nothing, a short length and a short hint are told apart |
| `Preimage.DoneWhenEnough` | op-preimage/filepoller.go:26-64 | an uninterrupted call is done if and only if some poll is not cut off by its deadline once enough bytes were offered |
| `Preimage.EndsExactly` | op-preimage/filepoller.go:26-64 | a call ends with the first poll whose deadline cannot be set, that is cut off with the context done, or that is not cut off with the buffer full, and with that result; it goes on if there is none; the bytes moved are those offered, as far as there are bytes and space |
| `Preimage.MovedButNotReported` | op-preimage/filepoller.go:26-44 | two polls that move one byte and then fail to set the deadline, for which the poller reports 0 bytes |
| `Preimage.FilePoller.Read` | op-preimage/filepoller.go:26-44 | whatever the polls, the buffer gets the next bytes of the stream in order, none lost and none twice; done means full |
| `Preimage.FilePoller.Write` | op-preimage/filepoller.go:46-64 | whatever the polls, the stream gets the next bytes of the buffer in order; done means all |

## Left out

- BatcherLedger.EveryRun: assumes of the channel out factory that IDs are new and not zero, of loaded blocks that their number is one above their parent's, of configurations that frames have room for data, and that no step invalidates a channel without blocks in front of blocks, which loses them (`BatcherLedger.StepKeeps`, `LostBlock`).
- Frame numbers are unbounded: the path for the maximum frame index, at 65535, is not modelled.
- Compression, batch encoding and the span batch format inside the channel out; it is a script of answers and a number of bytes.
- `oldestL1Origin`, `oldestL2` and the output byte count of the channel builder, and the estimate of unsafe DA bytes, which only feed logs, metrics and throttling.
- Alt-DA publishing in the batcher beyond its place in the txpool protocol.
- Wrap-around of 64-bit block numbers in the alt-DA windows; in the batcher, deadlines and block number differences are taken modulo 2^64.
- Decoding of L1 logs into challenge events; events come decoded, and those that cannot be decoded or verified are skipped.
- FinalizedHead.HeadFallsOnlyAtTakeover: assumes that the L1 finalized head does not go back and that inputs are read in block order, after a reset from the last pruned block on.
- ReadFull and blocking: in the objects of `Preimage` the bytes that the peer will send are there from the start; who waits for whom is in `WireRuns`.
- A poller that sees an end of file before the buffer is full polls for ever; `Preimage.Polls` says that it is still polling after any finite number of polls.
- The throttling loops, RPC, retries, contexts, metrics and command lines.
