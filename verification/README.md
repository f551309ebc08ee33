# Fault-tolerant collectives of the PRRTE daemons, and the trackers around them

This project models, in Dafny, the parts of PRRTE whose correctness depends on
every interleaving and every failure, and proves what they promise.

**The fence** (`src/grpcomm`). Daemons form a routing tree. A fence rolls each
participant's contribution up to the master, which broadcasts a release. A
failed daemon changes the tree under the rollup; recovery restarts every fence
in flight at a new, absolute epoch, and each daemon replays what it gave.
Trackers are kept by participant list and round number, so that the next fence
over the same participants is not mistaken for this one.

- `RoutingTree`, `Fence`: the tree of an epoch; what one daemon does in each of
  its callbacks, on values.
- `FenceDaemon`: the daemon as it is written, a list of trackers searched,
  extended and updated in place, each method proved against `Fence`.
- `FenceSystem`: all daemons, all messages (lost, delayed, repeated, reordered),
  the broadcast log; each daemon takes each epoch in its own time.
- `FenceContent`, `FenceSteps`, `FenceInvariant`, `FenceLinks`, `FenceRounds`,
  `FenceTheorems`, `FenceSources`, `FenceWire`, `FenceBlame`, `FenceRelays`: the
  invariants and why every step keeps them.
- `FenceRuns`: what holds of every run. `FenceRefines`: every callback of the
  daemon as written is such a run. `FenceFaults`: what one fault notice makes of
  every tracker.
- `FenceProgress`, `FenceCompletes`: from every reachable state, wherever each
  daemon stands, the round now open over a signature can still complete, at the
  present epoch or any later one with a living participant, unless something has
  gone wrong in it; and any number of rounds can follow one another.
  `FenceAgreed`: nothing goes wrong in a round about which everybody agrees.
- `FenceEmptied`, `FenceShortRun`: exactly when every success is complete, and
  the smallest DVM in which one need not be.
- `Generations`, `RoundNumbers`, `RoundRefines`: the round numbers and their list
  of 64 remembered signatures. `Newcomers`: the daemon that was added later and
  does not know the number of a round yet, with its own list of trackers.
- `Epochs`, `ContextIds` (both over `Words`), `ProcsLost`: the epoch's issue and
  adoption, the context-id pool, and whether a participant list has lost anyone.
- `GroupPending`, `GroupCompletions`, `GroupMemo`, `GroupTrackers`: the
  completions that group operations owe the PMIx server, what is remembered of
  finished operations, and the list of trackers as one automaton per operation.

**The elastic tester** (`examples/slurm/elastic-coordination.c`): the wait object
shared with a callback (`WaitObject`), the table of outstanding requests
(`PendingTable`), the watchers over it (`Watchers`, `WatcherRuns`,
`WatcherStrike`), the allocation snapshot (`Snapshot`).

**Smaller pieces**: the publication list of `examples/server.c` (`Publications`)
and the Markdown converter of the documentation (`Conduct`, `ConductLaws`).

Where the code does not do what its comments say, the model follows the code:

- A relay whose last participant died answers its restart with nothing, and its
  parent counts that answer (`src/grpcomm/grpcomm_fence.c`, lines 555-562 and
  1139-1155), so a release can succeed without a participant that is alive and
  has not entered. `FenceRuns.ReleaseExact` says exactly which releases are
  complete, `FenceEmptied.CompleteIffRelaysKept` exactly for which sequences of
  trees all are, `FenceShortRun.SuccessWithoutParticipant` gives one for which
  they are not.
- A comment at `src/grpcomm/grpcomm_fence.c`, lines 1013-1016, says an unnumbered
  contribution cannot be a straggler. It can, after an abort:
  `RoundNumbers.UnknownLandsRight` and `RoundNumbers.UnknownLandsRightLate` say
  exactly when it is filed rightly.
- A receiver that is itself a newcomer files an unnumbered contribution apart
  from the numbered ones of the same round (`src/grpcomm/grpcomm_fence.c`, lines
  1017-1019 and 1035): `RoundNumbers.LateKeepsApart`. A comment at lines 1521-1525
  says the release then gives the unnumbered tracker its number. It does so only
  if there is no tracker of that number (lines 1528-1538); otherwise it retires
  that one, and the unnumbered one outlives its round, to be answered by a later
  one's release: `Newcomers.UnnumberedAnswered` says exactly when,
  `Newcomers.UnnumberedOutlives` gives the run.
- Besides "aborting" and "restarted" there is a third state after a fault: a
  tracker the master has already answered is left alone too
  (`src/grpcomm/grpcomm_fence.c`, lines 531-533).
- A group release whose final order or leader count differs from the tracker's
  is refused the tracker and then deletes it, with the completions queued on it
  (`src/grpcomm/grpcomm_group.c`, lines 2146 and 2215):
  `GroupCompletions.LostIffClash`. A successful construct's release carries no
  final order (lines 1343-1346), so only its leader count can cost a completion
  (`GroupCompletions.SuccessLosesIffLeadersDiffer`); an aborted or failed
  construct's release carries one (`GroupCompletions.OrderClashLoses`).
- Releasing a group operation that is still remembered does not renew the memory
  (`src/grpcomm/grpcomm_group.c`, lines 1727-1729), so that it may be forgotten
  sooner: `GroupCompletions.StaysOver` is about one that was not.
- A comment at `examples/slurm/elastic-coordination.c`, lines 393-394, says a
  timed-out request stays registered; line 1284 drops it. A cancel frees a slot
  its watcher still counts on (lines 1623-1627): `WatcherRuns.OwnedIffNoStrike`,
  `WatcherStrike.CancelLosesAnothersEvent`. A name the user gives is taken as it
  is (lines 1408-1411), and an event goes to the first slot of its name:
  `WatcherRuns.EventReaches`, `WatcherStrike.NamesakeLosesEvent`.
- A process that cannot be placed counts as departed when it is named, but not
  under a wildcard: `ProcsLost.WildcardOrWrittenOut`.

## Model

| member | source | states |
|---|---|---|
| `FenceRuns.ReleaseExact` | src/grpcomm/grpcomm_fence.c:1177-1294 | in every reachable state a successful release holds calls of its own round only, all naming its operation and all with a good status, by participants living in its epoch; an allgather carries each one's block exactly once, a barrier nothing; each was sent by the participant itself, and on to the master, at the release's own epoch and for its round; and it is complete if and only if no branch was counted that nothing was awaited from |
| `FenceRuns.FailureExplained` | src/grpcomm/grpcomm_fence.c:1104-1113 | a failed release of any run is an abort, which carries nothing and nobody, or has the status some participant gave to the round, or says that two of them named different operations; it stands for those it counted, all the living participants of its epoch exactly if it is not short, so whoever gave that status is among them unless it is short or they are gone |
| `FenceRuns.HopsTraced` | src/grpcomm/grpcomm_fence.c:934-956 | whatever a message on the wire speaks for was sent by that participant itself, and reached the sender, at the message's epoch and for its round |
| `FenceEmptied.CompleteIffRelaysKept` | src/grpcomm/grpcomm_fence.c:555-562 | as long as daemons only fail, every successful release of every run holds every living participant if and only if no relay outlives the last participant below it while participants remain elsewhere |
| `FenceRuns.ReleaseComplete` | src/grpcomm/grpcomm_fence.c:1208-1211 | under that condition each living participant's data is in every successful release exactly once |
| `FenceEmptied.EmptiedRelayFails` | src/grpcomm/grpcomm_fence.c:509-576 | for any trees that break it, a run whose release succeeds without some living participant |
| `FenceShortRun.SuccessWithoutParticipant` | src/grpcomm/grpcomm_fence.c:509-576 | concretely: four daemons, one failure, and a success without a daemon that is alive and takes part |
| `FenceCompletes.FenceCanSucceed` | src/grpcomm/grpcomm_fence.c:1239-1294 | from every reachable state the round now open over a signature has a run that succeeds at epoch `e` with every participant living there in it, each that had not entered giving what it was told to, whatever each daemon has counted or answered of it so far and whatever other rounds, fences and unprocessed releases there are; asked only that no daemon living there is past `e` and that what it holds of the round is of this operation, without a failure and, at `e` itself, without a branch counted that nothing was awaited from |
| `FenceAgreed.AgreedRoundCompletes` | src/grpcomm/grpcomm_fence.c:1239-1294 | after any run in which whoever enters the round now open names the same operation and gives a good status, whatever was lost, delayed, repeated, restarted or aborted and whatever happened in other rounds, that round can complete with every living participant: at any later epoch, and at the present one too as long as daemons only fail and no relay is emptied |
| `FenceAgreed.StepAgreed` | src/grpcomm/grpcomm_fence.c:91-105 | no step makes a tracker or a message of such a round disagree or fail |
| `FenceCompletes.OpenIsUnsettled` | src/grpcomm/grpcomm_fence.c:1177-1206 | in every reachable state no daemon has torn down, and the master has not answered, the round now open |
| `FenceWire.StepWired` | src/grpcomm/grpcomm_fence.c:1177-1206 | every step keeps on the wire what each live tracker has given at its epoch, and for each answered one a rollup that says no worse than the tracker does; whatever the master is done with is in the broadcast log |
| `FenceCompletes.RoundsCanFollow` | src/grpcomm/grpcomm_fence.c:1503-1516 | from such a state any number of rounds over one signature can complete one after another, each with everybody in it and its own data, and the DVM is as ready for the next as before |
| `FenceCompletes.RoundsFromStart` | src/grpcomm/grpcomm_fence.c:1503-1516 | in particular from the start, in any tree at any epoch, for an allgather or a barrier |
| `FenceCompletes.AllDrain` | src/grpcomm/grpcomm_fence.c:1474-1593 | the releases waiting for any set of daemons can all be processed, and cost no tracker of the round now open |
| `FenceProgress.RollsUp` | src/grpcomm/grpcomm_fence.c:1296-1384 | a branch with a living participant can roll up whole, from whatever each daemon in it has counted or answered so far and whatever other rounds and fences are in flight, moving nobody outside it and opening no other tracker |
| `FenceRuns.BucketsSeparate` | src/grpcomm/grpcomm_internal.h:364-385 | no live tracker's bucket ever holds a block of another round, one daemon's block twice, or anything its participant did not itself send at the tracker's own epoch |
| `FenceRuns.StaleIffReleased` | src/grpcomm/grpcomm_fence.c:982-999 | a daemon takes a contribution for stale exactly when it has itself processed that round's release |
| `FenceRuns.SameRounds` | src/grpcomm/grpcomm_internal.h:592-596 | daemons that have processed the same releases stamp the same round for every signature, and no round is released twice |
| `FenceRuns.AnsweredOnce` | src/grpcomm/grpcomm_fence.c:1177-1189 | two rollups of one round by one daemon at one epoch are the same message |
| `FenceRuns.CountIsSlots` | src/grpcomm/grpcomm_fence.c:1149-1155 | in every reachable state a live tracker's count is its set slots plus its own report, against the current tree's expectation, and an unanswered tracker has not reached it unless it awaits nothing |
| `FenceSteps.TakenIffBelow` | src/grpcomm/grpcomm_fence.c:991-1038 | whatever arrives gets a tracker if and only if it is from the receiver's own subtree and its round is not over, and otherwise changes nothing |
| `FenceRuns.ReplayIgnored` | src/grpcomm/grpcomm_fence.c:1057-1068 | a contribution from a slot already counted changes no count, no data, no other tracker and no message; at most the operations are found to disagree |
| `FenceFaults.NoticeHandles` | src/grpcomm/grpcomm.c:389-415 | after a global fault notice each tracker a daemon holds is in exactly one state: ended by the master because its participant list has lost somebody and otherwise untouched, untouched because torn down or answered before, or restarted, and answered at once exactly if the daemon gave nothing to it and nobody is awaited; for each the end, the daemon's own contribution or the empty answer is sent, and nothing else is sent or broadcast |
| `FenceRuns.RunKeeps` | src/grpcomm/grpcomm.c:397-414 | the invariant behind all of these holds in every state of every run |
| `FenceTheorems.StepKeeps` | src/grpcomm/grpcomm_fence.c:906-1163 | every step of every daemon keeps what trackers, messages and releases stand for, who remembers what, and the numbering |
| `FenceSources.StepSources` | src/grpcomm/grpcomm_fence.c:934-956 | no step counts, forwards or releases anything that its participant did not itself send at that epoch and for that round |
| `FenceBlame.StepBlamed` | src/grpcomm/grpcomm_fence.c:1104-1113 | no step makes a tracker, a message or a release fail without a participant that answers for it |
| `FenceBlame.StepSteadfast` | src/grpcomm/grpcomm_fence.c:1110-1113 | whatever happens, a tracker keeps the operation it settled on, the first failure it learned of and the contribution it saved |
| `FenceRelays.StepWhole` | src/grpcomm/grpcomm_fence.c:361-381 | where relays keep a participant, no step lets an incomplete rollup pass for complete |
| `FenceContent.CompleteUnlessShort` | src/grpcomm/grpcomm_fence.c:1208-1211 | a full count stands for everybody living below the daemon exactly when every counted slot was awaited and itself complete |
| `FenceSteps.AbsorbKeeps` | src/grpcomm/grpcomm_fence.c:1131-1155 | counting a contribution from an uncounted slot keeps the count, the data and whom they stand for in step |
| `FenceSteps.CheckKeeps` | src/grpcomm/grpcomm_fence.c:1177-1206 | what a completed tracker sends up, or broadcasts, stands for exactly what it counted |
| `FenceSteps.ResetKeeps` | src/grpcomm/grpcomm_fence.c:534-546 | a restarted tracker stands for nobody and still holds the daemon's own call |
| `FenceRounds.OncePerRound` | src/grpcomm/grpcomm_fence.c:1503-1516 | distinct releases of an ordered log end distinct rounds |
| `FenceRounds.OpenRound` | src/grpcomm/grpcomm_fence.c:1000-1019 | a tracker the master opens is for the round now open, whatever round the contribution came from |
| `RoutingTree.Tree.SlotOf` | src/rml/routed_radix.c:118-122 | the slot of a daemon is the child whose subtree holds it, and there is none exactly when no child's does |
| `RoutingTree.Tree.SiblingsDisjoint` | src/grpcomm/grpcomm_internal.h:434-445 | a contribution has one slot: two children's subtrees share no daemon |
| `FenceDaemon.Prted.Contributors` | src/rml/routed_radix.c:983-1002 | the bitmap built from the participants' slots is the set of children with a living participant below them |
| `FenceDaemon.Prted.NumExpected` | src/grpcomm/grpcomm_fence.c:361-381 | counts those children, plus one if this daemon takes part; for the daemons' own job every child and itself, without a list |
| `FenceDaemon.Prted.Find` | src/grpcomm/grpcomm_fence.c:1612-1627 | finds the tracker of an identity if and only if there is one |
| `FenceDaemon.Prted.GetTracker` | src/grpcomm/grpcomm_fence.c:1612-1668 | the list afterwards holds one tracker of that identity, the old one or a fresh one, and the others as they were; there is none, and nothing changed, exactly when a new one's participants do not resolve |
| `FenceDaemon.Prted.CheckComplete` | src/grpcomm/grpcomm_fence.c:1177-1206 | leaves, sends and broadcasts what the completion step does |
| `FenceDaemon.Prted.Enter` | src/grpcomm/grpcomm_fence.c:677-904 | files the contribution and sends it to itself, as the up-call step does; without a tracker the caller is told so and nothing remains |
| `FenceDaemon.Prted.Take` | src/grpcomm/grpcomm_fence.c:1035-1162 | merges the operation, ignores a counted slot, otherwise absorbs, counts and completes; without a tracker nothing changes |
| `FenceDaemon.Prted.Deliver` | src/grpcomm/grpcomm_fence.c:982-1162 | a contribution of this epoch: stale and foreign ones change nothing, others are taken |
| `FenceDaemon.Prted.Recv` | src/grpcomm/grpcomm_fence.c:906-1163 | an older epoch changes nothing, a newer one restarts first, then the contribution is delivered |
| `FenceDaemon.Prted.RestartOne` | src/grpcomm/grpcomm_fence.c:515-575 | one tracker's turn: untouched, replayed, or tested at once when there is nothing of ours to replay |
| `FenceDaemon.Prted.RestartAll` | src/grpcomm/grpcomm_fence.c:509-576 | the loop in place does what resetting all and then testing each relay's tracker once does |
| `FenceDaemon.Prted.AdvanceTo` | src/grpcomm/grpcomm.c:374-387 | the epoch only moves forward, with one restart |
| `FenceDaemon.Prted.AbortLost` | src/grpcomm/grpcomm_fence.c:619-633 | aborts, in list order, exactly the unanswered fences whose participant list the search over job maps and failed daemons finds lost |
| `FenceDaemon.Prted.AbortOp` | src/grpcomm/grpcomm_fence.c:444-481 | broadcasts a release that names the round and carries no data, and marks the tracker |
| `FenceDaemon.Prted.FaultNotice` | src/grpcomm/grpcomm.c:389-415 | first what cannot be recovered is ended, then everything still in flight restarts |
| `FenceDaemon.Prted.Record` | src/grpcomm/grpcomm_fence.c:215-235 | adopts the released round and never goes back |
| `FenceDaemon.Prted.ReleaseProcess` | src/grpcomm/grpcomm_fence.c:1474-1593 | adopts the number whether or not there is a tracker, and takes the tracker of that round off the list |
| `FenceRefines.RestartRun` | src/grpcomm/grpcomm_fence.c:509-576 | the restart as written is a run of the step system |
| `FenceRefines.FaultNoticeRun` | src/grpcomm/grpcomm.c:389-415 | so is a global fault notice at any daemon, whatever epoch it carries |
| `FenceRefines.RecvRun` | src/grpcomm/grpcomm_fence.c:906-1163 | so is a contribution of this or a newer epoch, also when its participants do not resolve |
| `FenceRefines.CallRun` | src/grpcomm/grpcomm_fence.c:677-904 | so is a local client's entering |
| `FenceRefines.ReleaseRun` | src/grpcomm/grpcomm_fence.c:1474-1593 | so is processing the next release |
| `Generations.Numbering.Next` | src/grpcomm/grpcomm_fence.c:189-197 | the remembered number, or 0 for a founder and UNKNOWN for a newcomer |
| `Generations.Numbering.IsStale` | src/grpcomm/grpcomm_fence.c:199-213 | stale exactly when both numbers are known and the stamp is below the remembered one |
| `Generations.Numbering.Record` | src/grpcomm/grpcomm_fence.c:215-275 | the list afterwards: never backwards, and the oldest entries evicted for a new one |
| `RoundNumbers.NumberIsLargest` | src/grpcomm/grpcomm_fence.c:215-275 | whatever order the releases come in, however often, and however many name no round: over at most 64 signatures a daemon's number for one is one past the largest round released over it, and it never goes back |
| `RoundNumbers.SameReleasesSameNumber` | src/grpcomm/grpcomm_fence.c:215-275 | so it depends only on which releases the daemon has processed |
| `RoundNumbers.FounderNumber` | src/grpcomm/grpcomm_internal.h:592-596 | over at most 64 signatures a founder's number is the number of rounds released, and stale means exactly an earlier round |
| `RoundNumbers.JoinerNumber` | src/grpcomm/grpcomm_fence.c:171-187 | a newcomer says UNKNOWN of a signature until it has processed a release over it, and the founders' number ever after |
| `RoundNumbers.SixtyFour` | src/grpcomm/grpcomm_fence.c:237-253 | the numbers are right on every log over a set of signatures if and only if it has at most 64 |
| `RoundNumbers.UnknownLandsRight` | src/grpcomm/grpcomm_fence.c:1013-1019 | at a founder an unnumbered contribution is filed under its own round if and only if no release over these participants separates sender and receiver |
| `RoundNumbers.UnknownLandsRightLate` | src/grpcomm/grpcomm_fence.c:1518-1538 | at a receiver that joined late it is filed without a number exactly while the receiver has processed no release over these participants, and like at a founder after that; it ends up in its own round if and only if no such release separates sender and receiver and it is not filed without a number beside a tracker that has it |
| `RoundNumbers.LateKeepsApart` | src/grpcomm/grpcomm_fence.c:199-213 | until then such a receiver takes no numbered contribution for stale and keeps all of them apart from the unnumbered |
| `Newcomers.Newcomer.File` | src/grpcomm/grpcomm_fence.c:982-1039 | drops a stale contribution and files another under its number, or the number the daemon takes to be current, on a list that holds each identity once |
| `Newcomers.Newcomer.ReleaseProcess` | src/grpcomm/grpcomm_fence.c:1503-1580 | records the round and retires the tracker of its number, or failing that the one without a number |
| `Newcomers.ComesFiled` | src/grpcomm/grpcomm_fence.c:982-1019 | after any run a contribution leaves a tracker on the list of the number it names, or of the round now open if it names none, and nothing if its round is already released; before the first release over its participants whatever it names; all else on the list stays |
| `Newcomers.StragglersEarly` | src/grpcomm/grpcomm_fence.c:199-213 | a tracker of a round already released is only ever of one released before the newcomer came, opened before it knew any number |
| `Newcomers.HoldsWhatCame` | src/grpcomm/grpcomm_fence.c:1595-1610 | over every run, until its first release over some participants a newcomer holds a tracker of exactly the numbers, UNKNOWN among them, that contributions have named |
| `Newcomers.UnnumberedAnswered` | src/grpcomm/grpcomm_fence.c:1518-1538 | over every run, that release answers the unnumbered tracker if and only if no contribution stamped with its number has come, and it is the tracker's own round's if and only if moreover no release over these participants lies between; otherwise the tracker outlives it |
| `Newcomers.LaterNumber` | src/grpcomm/grpcomm_fence.c:1503-1516 | and every later release over these participants is of a later round |
| `Newcomers.UnnumberedOutlives` | src/grpcomm/grpcomm_fence.c:1528-1538 | a run in which the unnumbered tracker outlives its round's release and is answered by the next |
| `RoundNumbers.UnknownStraggles` | src/grpcomm/grpcomm_fence.c:1013-1019 | a run in which it is filed under the next round |
| `RoundRefines.ListStampsTheRound` | src/grpcomm/grpcomm_fence.c:189-197 | on any run over at most 64 signatures the list gives the round the fence takes the daemon to be at |
| `Epochs.Issuer.Issue` | src/grpcomm/grpcomm.c:369-372 | a number different from the last, and smaller only where 32 bits wrap around |
| `Epochs.Recovery.Advance` | src/grpcomm/grpcomm.c:374-387 | the epoch becomes the larger of the two, with one restart exactly if that is the new one |
| `Epochs.EpochIsLargest` | src/grpcomm/grpcomm.c:403-414 | the epoch is the largest one processed, whatever the order, losses and repeats, and never goes back |
| `Epochs.SameNoticesSameEpoch` | src/grpcomm/grpcomm.c:403-414 | daemons that processed the same notices, in any order and number, are at the same epoch |
| `Epochs.RestartPerNotice` | src/grpcomm/grpcomm.c:374-387 | every notice causes a restart if and only if they come in rising order |
| `Epochs.EpochsAgree` | src/grpcomm/grpcomm.c:359-387 | in every run below 2^32 notices no daemon is past what was issued, and those that processed the newest notice agree |
| `Epochs.IssuedDistinct` | src/grpcomm/grpcomm.h:165-175 | any 2^32 notices in a row carry distinct epochs, however issuing and relayed-back copies interleave |
| `Epochs.OneRestartEach` | src/grpcomm/grpcomm.c:369-387 | delivered in order without loss, each notice causes one restart if and only if there are fewer than 2^32 |
| `Epochs.NaiveCollapses` | src/grpcomm/grpcomm.h:165-175 | the run in which issuing "current + 1" makes one restart of two |
| `ContextIds.Pool.Assign` | src/grpcomm/grpcomm.c:277-291 | serves the master only, refuses a missing place first, and a refusal leaves the pool alone |
| `ContextIds.Pool.AssignAll` | src/grpcomm/grpcomm.c:277-291 | a whole run of calls gets exactly the ids counted down from the top |
| `ContextIds.OneEach` | src/grpcomm/grpcomm.c:277-291 | as many ids as there are calls on the master that give a place for one |
| `ContextIds.IdsDistinct` | src/grpcomm/grpcomm_internal.h:87-91 | two calls get the same id if and only if a multiple of 2^32 assignments lies between them |
| `ContextIds.IdsAbove` | src/grpcomm/grpcomm_internal.h:87-91 | the first n ids keep clear of the bottom k numbers if and only if n is at most 2^32 - k |
| `ContextIds.RefusalsTakeNothing` | src/grpcomm/grpcomm.c:282-287 | a refused call leaves every later id as it would have been |
| `ProcsLost.Departed` | src/grpcomm/grpcomm.c:293-318 | true exactly of a named rank that is placed on a failed daemon or cannot be placed, once any daemon has failed |
| `ProcsLost.Search` | src/grpcomm/grpcomm.c:320-357 | the nested early-exit loops decide whether some listed participant is lost |
| `ProcsLost.LostConcat` | src/grpcomm/grpcomm.c:320-357 | a list is lost exactly when one of its parts is |
| `ProcsLost.LostMonotone` | src/grpcomm/grpcomm.c:320-357 | more failures lose no less, for the same job maps |
| `ProcsLost.WildcardIsPlacedRank` | src/grpcomm/grpcomm.c:337-355 | for a known job a wildcard is lost if and only if some placed rank has departed |
| `ProcsLost.WildcardOrWrittenOut` | src/grpcomm/grpcomm.c:310-355 | writing the namespace out rank by rank says the same unless a rank is not placed |
| `GroupPending.GroupServer.GetTracker` | src/grpcomm/grpcomm_group.c:2221-2477 | the tracker of that name is handed out only to a signature that agrees with its leader count and final order, which it otherwise learns; a new one only if its participants resolve |
| `GroupPending.GroupServer.IsCompleted` | src/grpcomm/grpcomm_group.c:1690-1702 | true exactly of an operation that is remembered as released |
| `GroupPending.GroupServer.ForgetOp` | src/grpcomm/grpcomm_group.c:1704-1719 | takes every record of that operation off the memo and keeps the others in order |
| `GroupPending.GroupServer.Remember` | src/grpcomm/grpcomm_group.c:1721-1746 | appends the operation unless it is remembered, evicting the oldest beyond 64 |
| `GroupPending.GroupServer.Receive` | src/grpcomm/grpcomm_group.c:953-975 | a contribution to a remembered operation changes nothing, another opens or finds its tracker |
| `GroupPending.GroupServer.Cancel` | src/grpcomm/grpcomm_group.c:356-402 | a cancel is answered at once and touches no operation |
| `GroupPending.GroupServer.Enter` | src/grpcomm/grpcomm_group.c:601-870 | the operation is forgotten as released and the completion queued, or on any failure only this call's own is taken off and answered |
| `GroupPending.GroupServer.Drain` | src/grpcomm/grpcomm_group.c:1819-1828 | every queued completion is invoked once, in order, and the queue is empty |
| `GroupPending.GroupServer.Delete` | src/grpcomm/grpcomm_group.c:1748-1767 | the operation is remembered, and its tracker goes, with whatever it holds |
| `GroupPending.GroupServer.Finish` | src/grpcomm/grpcomm_group.c:2117-2218 | a release serves the tracker it agrees with and deletes the one of its name |
| `GroupCompletions.Conserved` | src/grpcomm/grpcomm_internal.h:487-509 | over every run of up-calls, contributions, releases and failures each completion handed in is queued, invoked or lost, as often as it was handed in |
| `GroupCompletions.LostIffClash` | src/grpcomm/grpcomm_group.c:2247-2258 | nothing is lost if and only if no release clashes with a tracker somebody is waiting on |
| `GroupCompletions.QueuedOrInvokedOnce` | src/grpcomm/grpcomm_internal.h:497-509 | without a clash a completion handed in once is queued or invoked, once |
| `GroupCompletions.ReleaseLeavesNone` | src/grpcomm/grpcomm_classes.c:221-227 | a released operation leaves no tracker, and so nothing queued, behind |
| `GroupCompletions.OrderClashLoses` | src/grpcomm/grpcomm_group.c:281-309 | a run in which a completion is lost to the final order a timed-out construct's release carries |
| `GroupCompletions.SuccessLosesIffLeadersDiffer` | src/grpcomm/grpcomm_group.c:1343-1346 | after any run, a successful construct's release loses a completion if and only if somebody waits on that operation and both leader counts are known and differ |
| `GroupCompletions.StaysOver` | src/grpcomm/grpcomm_group.c:1721-1746 | an operation released when it was not remembered stays over, tracker and all, through every run in which nobody here starts it again and fewer than 64 releases follow |
| `GroupCompletions.StragglerIgnored` | src/grpcomm/grpcomm_group.c:953-964 | while it is over, a contribution to it changes nothing |
| `GroupMemo.UnderWay` | src/grpcomm/grpcomm_group.c:651-654 | an operation a local client has started is not remembered as finished until it is released, whatever else happens |
| `GroupMemo.ContributionTaken` | src/grpcomm/grpcomm_group.c:957-975 | and every contribution to it is taken until then |
| `GroupMemo.RememberedFor` | src/grpcomm/grpcomm_group.c:1704-1746 | an operation is remembered only if it was released and no local client has started it since |
| `GroupMemo.AnswersAre` | src/grpcomm/grpcomm_group.c:1819-1828 | after any run a release answers exactly those queued on the tracker it agrees with, in order and with its own status; a failed up-call and a cancel answer their own caller with what went wrong; nobody else is answered |
| `GroupTrackers.ListIsFlights` | src/grpcomm/grpcomm_group.c:2221-2477 | over every run the list of trackers holds, for every operation, exactly what one automaton for that operation does: the first number of leaders and the first final order named, and who waits, oldest first |
| `GroupTrackers.GotPresents` | src/grpcomm/grpcomm_group.c:2240-2382 | a tracker is handed out exactly to a signature that disagrees about neither, and a signature teaches it what it did not know |
| `WaitObject.FreedOnceNeverTouched` | examples/slurm/elastic-coordination.c:79-132 | in every interleaving the object is freed at most once, never used after, freed once both sides are through, and a waiter that did not give up has read what the callback stored |
| `WaitObject.TimedOutIffGaveUp` | examples/slurm/elastic-coordination.c:112-132 | in every run the waiter reports a timeout if and only if it gave up while waiting |
| `WaitObject.WokenReads` | examples/slurm/elastic-coordination.c:118-131 | from every run in which the callback has answered a waiter that still waits, it can read what the callback was given, without a timeout |
| `WaitObject.AnswerIsFirst` | examples/slurm/elastic-coordination.c:173-205 | what the callback was given stays, whatever follows |
| `WaitObject.UsesAreSafe` | examples/slurm/elastic-coordination.c:79-110 | whatever either side may do next, the object is still there |
| `WaitObject.RefusedCleansUp` | examples/slurm/elastic-coordination.c:1378-1390 | a request refused at once is freed by the submitter alone |
| `WaitObject.GivesUp` | examples/slurm/elastic-coordination.c:1293-1299 | a waiter can always give up, and drops its reference, leaving only the freeing if it was the last |
| `WaitObject.DoKeeps` | examples/slurm/elastic-coordination.c:174-205 | the reference count is what the two sides still hold, at every step |
| `PendingTable.Pending.Register` | examples/slurm/elastic-coordination.c:224-250 | claims the first free slot, or none when all eight are taken |
| `PendingTable.Pending.MarkGranted` | examples/slurm/elastic-coordination.c:264-273 | the request can no longer be cancelled, every name is still found where it was, and no other slot changes |
| `PendingTable.Pending.IsCancellable` | examples/slurm/elastic-coordination.c:304-321 | tells an unknown name from one too late to cancel |
| `PendingTable.Pending.SoleCancellable` | examples/slurm/elastic-coordination.c:323-346 | answers a name if and only if exactly one request is cancellable |
| `PendingTable.Pending.Drop` | examples/slurm/elastic-coordination.c:348-358 | the slot can be claimed again, keeps its other fields, and no other slot changes |
| `PendingTable.Pending.Forget` | examples/slurm/elastic-coordination.c:360-371 | frees every slot of that name and no other |
| `PendingTable.Pending.Signal` | examples/slurm/elastic-coordination.c:439-455 | the first slot of that name gets the status |
| `WatcherRuns.EventNeverLost` | examples/slurm/elastic-coordination.c:373-396 | whichever order callback and event came in, a waiting watcher ends with the status of the last event that named it, and with a timeout only if none did, in every run in which no cancel strikes and no event of its name goes to a lower slot |
| `WatcherRuns.HeardDecides` | examples/slurm/elastic-coordination.c:373-396 | in every run in which no cancel strikes it ends with the last event that found its slot first of that name |
| `WatcherRuns.EventReaches` | examples/slurm/elastic-coordination.c:439-455 | an event reaches a watcher's slot exactly if no lower slot carries its name, and otherwise leaves it alone |
| `WatcherRuns.SlotShows` | examples/slurm/elastic-coordination.c:224-273 | in every run without a strike a live request can be cancelled exactly if it was submitted so and is not marked granted, and its slot shows the last allocation an event named to it |
| `WatcherRuns.FreshNamesLoseNothing` | examples/slurm/elastic-coordination.c:1401-1413 | where every request gets a name no live one has, no event is lost to another slot |
| `WatcherRuns.OwnedIffNoStrike` | examples/slurm/elastic-coordination.c:1623-1627 | a live watcher's slot names its own request throughout a run if and only if no cancel forgets the name of a request still being watched |
| `WatcherRuns.DoKeeps` | examples/slurm/elastic-coordination.c:1288-1326 | every other step keeps slots owned, events recorded and used slots accounted for |
| `WatcherStrike.CancelLosesAnothersEvent` | examples/slurm/elastic-coordination.c:1283-1285 | a run in which a cancel costs another request its event |
| `WatcherStrike.NamesakeLosesEvent` | examples/slurm/elastic-coordination.c:441-451 | a run without any cancel in which the second of two requests of one name times out though its event arrived |
| `Snapshot.Snap.Add` | examples/slurm/elastic-coordination.c:503-528 | appends within capacity, growing when full, and keeps what was there |
| `Snapshot.Snap.RemoveLast` | examples/slurm/elastic-coordination.c:530-544 | takes the last one off, and nothing from an empty snapshot |
| `Snapshot.Snap.Query` | examples/slurm/elastic-coordination.c:729-788 | succeeds if and only if no entry fails, and then lists exactly the allocations that still answered |
| `Snapshot.AnsweredFrom` | examples/slurm/elastic-coordination.c:758-783 | each allocation listed is an entry that answered, in the query's order |
| `Snapshot.AnsweredAll` | examples/slurm/elastic-coordination.c:758-783 | every entry that answered is listed |
| `Snapshot.Snap.HasNode` | examples/slurm/elastic-coordination.c:567-578 | true if and only if some allocation holds the node |
| `Snapshot.Snap.UniqueNodes` | examples/slurm/elastic-coordination.c:580-601 | the nodes in order of first appearance, without repeats |
| `Snapshot.UniqueNodesAre` | examples/slurm/elastic-coordination.c:580-601 | repeats nobody, names exactly the nodes of the allocations that answered, and lists them in order of first appearance |
| `Snapshot.NodesInOrder` | examples/slurm/elastic-coordination.c:580-601 | the nodes are those of one allocation after another, each in its own order |
| `Publications.Store.PublishAll` | examples/server.c:576-600 | appends the entries in order, keys cut to 511 characters |
| `Publications.Store.LookupAll` | examples/server.c:602-655 | answers the first match of each requested key, and whether there is any |
| `Publications.Store.UnpublishAll` | examples/server.c:657-678 | unlinks the first match of each requested key, key after key |
| `Publications.ListIsQueues` | examples/server.c:585-595 | over every run of operations the flat list holds, for every key, exactly that key's own first-in first-out queue |
| `Publications.LookupIsOldest` | examples/server.c:615-631 | a lookup answers the oldest live entry of each requested key, in request order |
| `Publications.NotFoundIffEmpty` | examples/server.c:632-646 | it answers nothing exactly when all of those queues are empty |
| `Publications.KeysMeet` | examples/server.c:585-595 | two keys name the same entries if and only if they are the same or agree in their first 511 characters |
| `Conduct.Convert` | docs/generate-code-of-conduct-rst.py:43-85 | the loops as written compute the document |
| `ConductLaws.DocumentKeeps` | docs/generate-code-of-conduct-rst.py:43-85 | for every input the document holds the converted lines in order, each once, with links as the last definition of each name has them; lacks exactly the link definitions, the blanks right after a heading and the empty lines at the end; adds only the preamble, under every title an underline of its length in its level's character, and an empty line exactly where one was missing after an underline, before a title or before a list |

## Left out

- The routing tree is taken as a function of the epoch: a tree repaired locally before the global notice arrives is not modelled.
- How a participant list resolves to daemons (create_dmns): each list stands for a fixed set of daemons, and whether resolving succeeds is an input.
- Timers: an abort by the master may happen at any time a fence is unanswered.
- Failures to pack, send or allocate in the fence: every callback that has its tracker runs to its end.
- FenceDaemon.Prted.CheckComplete: does not model a failed answer, which the master turns into an abort (`src/grpcomm/grpcomm_fence.c`, lines 1196-1205).
- FenceDaemon.Prted.Enter: of the up-call's failure exits it models the missing tracker; not the packing, sending and delaying ones.
- FenceDaemon.Prted.Take: does not model a contribution that cannot be unpacked, nor the guard timer it may start.
- FenceDaemon.Prted.ReleaseProcess: does not model the fallback to a newcomer's unnumbered tracker (`src/grpcomm/grpcomm_fence.c`, lines 1528-1538); `Newcomers.Newcomer.ReleaseProcess` does, for the newcomer's list of identities alone, and newcomers are outside FenceSystem.
- More than one up-call for one round on one daemon: the PMIx server makes one.
- CompleteIffRelaysKept assumes that no daemon joins or returns while the fence is in flight; a daemon that returns makes the master end its fences.
- GroupPending.GroupServer.GetTracker: does not model the merging of member and add-member lists into the tracker it finds, nor the follower flag (`src/grpcomm/grpcomm_group.c`, lines 2443-2453): a follower, which needs no daemon list, is a call whose members always resolve.
- GroupPending.GroupServer.Finish: is the second of a construct release's two callbacks; the registration with the local PMIx server that lies between them is not modelled.
- The group rollup itself (membership, final order, bootstrap assembly): only which tracker a call joins and what is owed to its callers.
- The xcast broadcast's own reliability and the low-radix release tree: releases are one log that every daemon processes in order.
- How the routing tree is repaired: the trees are arbitrary, one for each epoch.
- Epoch wrap-around in the fence: epochs there are unbounded, and Epochs says when 32 bits are enough.
- In the elastic tester: running Slurm commands, the prompt, decoding query results, fixed-size copies of names.
- Value transfer failures in the publication list.
- The regular expressions of the converter: the kind of a line and the conversion of links are inputs.
- Everything else in the repository: launching, mapping, I/O forwarding, configuration and the remaining examples.
