# The node's bookkeeping, modelled and proved

A Dafny model of the parts of the node (a Go IPFS node library) that keep concurrent state: who may use the network, which
peers we download from, which keys have been announced, how a download survives a crash, and the self-contained algorithms
beside them. Every state machine has one value that is its whole state, one function per atomic step, and theorems about
every step and every run. Where the source changes things in place, a class with the source's fields has the source's
branches and loops, and each of its methods is proved equal to its step function.

| module | what it is |
|---|---|
| `Quarantine`, `QuarantineNet` | taking a peer that sits on our wants out of the download rotation (`quarantine.go`) |
| `Provide`, `ProvideNode` | the hand-over of keys to the sweeping provider, across crashes (`provide.go`) |
| `WantPool` | the global want-token pool, its controller and the fetches that share it (`fetch.go`) |
| `LeafSpine`, `PartBits`, `WriteThrough` | a file's leaves, the resume bitmap and sidecar, and the crash-safe transfer (`fetch.go`, `resume.go`) |
| `NetQueue` | the two-class FIFO semaphore (`netq.go`) |
| `GatewayRanges` | the ranges of a leaf resume (`gateway.go`) |
| `Packet4` | IPv4/UDP packets and their checksums (`packet4.go`) |
| `DagWalk` | the visited-set walks of the block store (`query.go`, `fetch.go`) |
| `Snapshots` | coalesced share snapshots between friends (`friend.go`) |
| `TokenBucket` | the dial budget (`netgate.go`) |
| `Bytes`, `Sets`, `Options` | bytes, words and powers of two; members and sizes of sets; a value that may be missing |

What the proofs found where a promise holds only under a condition:

- The round trip of a built packet holds if and only if the payload has at most 65527 bytes, and its IPv4 length field is
  right if and only if it has at most 65507 (`Packet4.RoundTrip`, `Packet4.LengthFieldExact`).
- A saved sidecar loads again if and only if the root string is shorter than 65536 bytes (`PartBits.RoundTrip`).
- The spine walk lists a file's leaves if and only if no interior node below the root occurs twice
  (`LeafSpine.EnumerateExact`).
- An announced record can be written for a key that was never sent, exactly through an unsafe hand-over: one that takes up, as
  if new, a key already filed but neither queued nor sent, with no Offline spell since the flush read its time. A run without
  one announces only what was sent (`Provide.UnsentOnlyThroughUnsafe`), and every unsafe hand-over, left alone, ends in a record
  for an unsent key (`Provide.UnsafeEndsUnsent`). The node can see the danger coming (`Provide.SafeRunIsSent`): it lies in
  restamping an unconfirmed key after an Offline spell (`Provide.RestampedIsNotSent`) and in offering again a key stopped
  before the run's provider was there (`Provide.StoppedUnheardIsNotSent`). Re-offers of unconfirmed keys with no spell in
  between do no harm (`Provide.AnnouncedIsSent`). The comment at provide.go:193-201 does not name either case.
- The code forgets a filed key in five steps and no others (`Provide.ForgottenExactly`): a stop with no provider to tell or a
  closed one, the end of a flush whose key was stopped meanwhile, the filing of a key stopped after the flush began, and the
  two unmarkings of a leftover. It remembers one when a flush marks it or the provider hears of its stop.
- A peer's blocks reach the client before the client is told the peer is back exactly when its cooldown ended and no tick has
  come since (`Quarantine.AnnouncedFirst`), and that happens (`Quarantine.ToldTooLate`).
- A peer put out because another offers a block keeps that alternative exactly when not all who offer the block go out in the
  same check (`Quarantine.CheckOffersExactly`).
- The 64-bit shift that doubles a cooldown does wrap around, to zero or a negative value, and the code's check of the result
  makes it the maximum every time (`Quarantine.CooldownDoubles`).

## Model

| member | source | states |
|---|---|---|
| Quarantine.CooldownDoubles | quarantine.go:245-249 | the cooldown of the nth offence is the base doubled n - 1 times or the maximum, whichever is less, for every n, 64-bit wrap-around included |
| Quarantine.StepKeepsInv | quarantine.go:167-525 | every send, receipt, connect, disconnect and check keeps ledgers, records, offers and the client's view consistent |
| Quarantine.RunKeepsInv | quarantine.go:167-525 | so does every run |
| Quarantine.ReachableIsRight | quarantine.go:262-289 | in every run: a recorded offer is of a linked peer asked for that block, neither out nor on probation; a linked peer not marked out is one the client was last told is connected; a held peer owes something and is held until its last offence plus the cooldown of that many offences |
| Quarantine.AdmitForwards | quarantine.go:357-428 | every block and want entry of a message is forwarded; a held peer's HAVEs only when the message settles all it owed; DONT_HAVEs are withheld only from an out peer that delivers nothing; exactly an out, linked peer that settles or delivers is announced |
| Quarantine.AnnouncedFirst | quarantine.go:481-491 | what a peer tells the client reaches it unannounced if and only if the client was last told the peer is out and its cooldown has ended with no tick since |
| Quarantine.ToldTooLate | quarantine.go:366-369 | a run reaches that: a put-out peer's block, delivered between the end of its cooldown and the tick, is forwarded to a client that thinks it gone |
| Quarantine.WalkOnePeer | quarantine.go:191-260 | what a walk of the ledgers, in any order, does to one peer and its record |
| Quarantine.WalkLeavesAnOffer | quarantine.go:217-257 | a walk that puts peers out leaves some block one of them held offered by somebody |
| Quarantine.CheckNeverEmptiesTheRotation | quarantine.go:163-186 | whenever a check puts peers out, in whatever order, a peer that stays in offers a block one of them held; and each one put out had held, its whole patience long with nothing delivered, a block another peer offered |
| Quarantine.CheckOffersExactly | quarantine.go:256-257 | an offer survives a check exactly when its peer is not put out in it |
| Quarantine.NoneSpared | quarantine.go:217-234 | after a check nobody that was in sits on wants another peer still offers |
| Quarantine.RecordGoesOnlyWhen | quarantine.go:195-199 | a record goes if and only if all owed is settled with no promised block denied, or a check finds it past its time with its peer not held and does not put the peer out |
| Quarantine.DeniedIsHistory | quarantine.go:370-387 | over any run from the check that puts a peer out to the end of its stint, denied is exactly whether some message of the stint denied a promised block |
| Quarantine.SettlingClearsTheRecord | quarantine.go:380-386 | when a peer settles, its record stays exactly if some message of the stint denied a promised block |
| Quarantine.HoldBounds | quarantine.go:138-147 | a peer's patience stays between its two bounds, and is three of its intervals between them |
| Quarantine.DeliverySpares | quarantine.go:344-354 | a peer that delivers is put out by no check within the shortest patience after, in any run |
| Quarantine.DeliveredExactly | quarantine.go:344-354 | a delivery is progress and sets the interval: the first two give it, each later one moves it a quarter of the way, an idle gap does not count |
| Quarantine.PaceFollows | quarantine.go:346-352 | a steady interval stays as it is, any other moves it strictly towards itself |
| Quarantine.ReceivedExactly | quarantine.go:323-402 | exactly which wants, debts and offers a message ends and which offers it makes, pointwise for every block and peer |
| Quarantine.SentExactly | quarantine.go:293-319 | the same of a sent message: want-blocks count from when they were first sent and not against an out peer; cancels and a full list end wants and offers |
| Quarantine.PutOutExactly | quarantine.go:238-257 | a put-out peer owes exactly the want-blocks it held, each marked with whether it had offered it; its wants and offers are over, its strike and time set, the client told |
| Quarantine.BackInTime | quarantine.go:200-216 | after any check nobody is held past its time, no ledger is kept of a peer neither linked nor held, and the client has every linked peer that is in |
| Quarantine.NobodyEarly | quarantine.go:200-216 | a held peer keeps its ledger, time and debt through checks, reconnections and sends; only settling ends its time early |
| Quarantine.FirstConnection | quarantine.go:126-133 | a new peer starts in, with nothing held and its progress counted from now |
| Quarantine.DisconnectExactly | quarantine.go:514-525 | a disconnection voids that peer's wants and all its offers, and nobody else's |
| Quarantine.DropOffers | quarantine.go:273-289 | a peer's offers of the named blocks go, and no other offer |
| Quarantine.AddOffers | quarantine.go:335-343 | a peer's offers of the named blocks are added, and no other |
| QuarantineNet.Quarantined.ForgetHave | quarantine.go:273-281 | in place: one offer goes, and a block nobody offers has no entry |
| QuarantineNet.Quarantined.DropAsked | quarantine.go:283-289 | in place: all offers of what the peer was asked go |
| QuarantineNet.Quarantined.BookEntries | quarantine.go:307-318 | the loop over a message's entries cancels, asks and times what the step says, in any order |
| QuarantineNet.Quarantined.NoteMessage | quarantine.go:293-319 | noteSent is the step of a sent message |
| QuarantineNet.Quarantined.BookAnswers | quarantine.go:325-334 | blocks end wants and everybody's offers, DONT_HAVEs that peer's |
| QuarantineNet.Quarantined.BookHaves | quarantine.go:335-343 | only HAVEs of what is still asked become offers |
| QuarantineNet.Quarantined.NoteAnswers | quarantine.go:323-355 | noteReceived as a whole, the smoothed interval included |
| QuarantineNet.Quarantined.AdmitMessage | quarantine.go:361-402 | admit gives the state, the forwarded message and the announcement of the step |
| QuarantineNet.Quarantined.OfferedByAnother | quarantine.go:262-271 | the walk of a block's offers finds another peer exactly when there is one |
| QuarantineNet.Quarantined.Debt | quarantine.go:250-253 | every held want is owed, marked with whether the peer had promised it |
| QuarantineNet.Quarantined.Sits | quarantine.go:217-233 | the walk of the wants decides whether one held past the patience is offered by another peer |
| QuarantineNet.Quarantined.TakeOut | quarantine.go:238-257 | going out: strike, cooldown, debt with what was promised, wants and offers dropped |
| QuarantineNet.Quarantined.ForgetRecords | quarantine.go:195-199 | the loop over the records drops exactly those past their time |
| QuarantineNet.Quarantined.JudgeAndMove | quarantine.go:200-257 | one ledger's verdict and move |
| QuarantineNet.Quarantined.WalkLedgers | quarantine.go:200-259 | the loop over the ledgers gives the state and the three lists of the walk in that order |
| QuarantineNet.Quarantined.CheckLedgers | quarantine.go:167-186 | a check that would move nobody only forgets; one that would, moves and tells the client |
| QuarantineNet.Quarantined.ReceiveMessage | quarantine.go:481-491 | a received message is one step of the system |
| QuarantineNet.Quarantined.PeerConnected | quarantine.go:495-510 | so is a connection, hidden from the client while the peer is out |
| QuarantineNet.Quarantined.PeerDisconnected | quarantine.go:514-525 | so is a disconnection, which voids wants and offers |
| Provide.StepKeepsInv | provide.go:268-580 | every hand-over, stop, crash and every single call of a flush, a confirmation and a dropping of leftovers keeps memory, disk and provider consistent |
| Provide.RunKeepsInv | provide.go:268-580 | so does every run |
| Provide.NothingForgotten | provide.go:446-547 | in every run with crashes anywhere: a filed key with no announced record has its refile record if and only if no step of the run left it forgotten; with a provider, every refile record's key is pending, unconfirmed or about to lose it; every key the app wants is pending, unconfirmed or announced |
| Provide.ForgottenExactly | provide.go:345-383 | a step leaves a filed key with neither record if and only if it is one of the forgetting steps, or the key was so and the step is not one of the remembering ones |
| Provide.VoidedOnlyByStopping | provide.go:564-580 | records of a key still filed are cleared exactly by a stop with no provider to tell (or a closed one), a stop during the flush that files it, or as a leftover; and never of a key the app still wants, but a leftover's that is then offered again |
| Provide.StepRight | provide.go:446-580 | every step keeps all of this for every key, and, short of an unsafe hand-over: a hand-over no Offline spell followed is queued or sent, and what is settled was sent |
| Provide.HandOverSureExactly | provide.go:474-491 | a step breaks that for a key exactly when it is an unsafe hand-over of it |
| Provide.UnsentOnlyThroughUnsafe | provide.go:502-546 | in every run without an unsafe hand-over of a key, its announced record means it was sent since it was filed |
| Provide.UnsafeEndsUnsent | provide.go:474-546 | from every state about to make an unsafe hand-over, the node's own steps and a provider that sends all it has queued end with the key announced and unsent |
| Provide.SafeRunIsSent | provide.go:472-491 | in every run whose hand-overs restamp no unconfirmed key after a spell and take up none whose records were cleared while filed, announced means sent |
| Provide.CleanRunIsSafe | provide.go:294-303 | if the app offers no key again whose records were cleared while filed, a hand-over is unsafe only by restamping an unconfirmed key after a spell |
| Provide.AnnouncedIsSent | provide.go:502-546 | in runs of such offers with no such restamping, re-offers of unconfirmed keys included, an announced record is of a key sent since it was filed, and a wanted filed key has one of its two records |
| Provide.RestampedIsNotSent | provide.go:488-491 | the run in which an unconfirmed key offered again after an Offline spell is announced unsent |
| Provide.StoppedUnheardIsNotSent | provide.go:573-576 | the run in which a key stopped before the provider was there, then offered again, is announced unsent |
| Provide.StoppedUnheard | provide.go:573-576 | a key stopped before the provider was there stays filed with neither record |
| Provide.RestartOffersAgain | provide.go:385-407 | after a crash at any point, the next provider is offered a filed, unannounced key again, forced, exactly when it is not forgotten |
| Provide.FlushCompletes | provide.go:446-500 | an undisturbed online flush queues all that is new or forced, marks and tracks all but the known announced, and empties pending |
| Provide.ConfirmCompletes | provide.go:505-547 | an undisturbed online confirmation with nothing queued announces exactly what was handed over since the last return from Offline and sends the rest back |
| Provide.CalmSettlesAll | provide.go:549-559 | from any reachable idle state, once online and undisturbed, one confirmation, flush and confirmation leave nothing pending, unconfirmed or marked, every wanted key announced and, after clean offers, sent |
| Provide.ConfirmSendsBack | provide.go:524-544 | an undisturbed confirmation read Offline sends every unconfirmed key back, forced, and announces nothing; with keys still queued otherwise it waits |
| Provide.FlushBeginsExactly | provide.go:216-235 | a flush goes on if and only if something is pending and readiness, read now or last time, says online |
| Provide.NoDropUnseeded | provide.go:348-351 | in no run are leftovers dropped before the app has listed what it holds |
| Provide.DropsExactly | provide.go:345-383 | a whole dropping takes exactly the leftovers not handed over out of memory, disk and provider, and nothing before the list, the provider and its listing are there |
| Provide.DropsWhatNobodyWants | provide.go:317-383 | from the install on, in any run: of what the keystore then held, exactly what the app handed over neither before nor since is no longer provided |
| Provide.OffersAgainExactly | provide.go:370-381 | what was handed over while it was being dropped is offered again, forced |
| Provide.StopsWhole | provide.go:563-580 | a stop takes a key out of memory and both records, and out of the provider that hears of it |
| Provide.StoppedStaysGone | provide.go:563-580 | and it stays out in every run, crashes and restarts included, until the app hands it over again |
| Provide.StoppedInAFlushComesBack | provide.go:481-499 | the run in which a key stopped during a flush is brought back by a crash in that flush |
| ProvideNode.SweepingProvider.StartProviding | provide.go:194-196 | the provider files every key and queues the new or forced ones unless Offline |
| ProvideNode.SweepingProvider.StopProviding | provide.go:367 | and forgets stopped ones |
| ProvideNode.Node.SetMarks | provide.go:410-434 | a batch puts or deletes exactly the keys' records in one namespace |
| ProvideNode.Node.Unannounced | provide.go:466-471 | the loop leaves out what an earlier run announced |
| ProvideNode.Node.HandOverAll | provide.go:474-480 | the two hand-overs, or the early return of a closed provider |
| ProvideNode.Node.Track | provide.go:483-499 | still pending is tracked from the flush's time, stopped meanwhile loses its record again |
| ProvideNode.Node.FlushProvides | provide.go:446-500 | the flush is its steps in order, with readiness cached, read or failed |
| ProvideNode.Node.SettleKeys | provide.go:533-543 | the loop settles or sends back each snapshot key still unconfirmed |
| ProvideNode.Node.SettleAll | provide.go:530-544 | the locked part of a confirmation is its settling step |
| ProvideNode.Node.ConfirmUnconfirmed | provide.go:505-547 | the confirmation is its steps in order |
| ProvideNode.Node.StopProviding | provide.go:564-580 | a stop clears memory and both records, and tells the provider if there is one |
| ProvideNode.Node.OfferProvides | provide.go:296-312 | a force mark sticks; then a flush |
| ProvideNode.Node.StartProviding | provide.go:270-292 | the app's hand-over |
| ProvideNode.Node.DropLeftovers | provide.go:345-383 | leftovers the run has not handed over leave memory, disk and provider |
| ProvideNode.Node.RestoreRefiles | provide.go:386-407 | what the disk remembers is offered again, forced |
| ProvideNode.Node.UseProvider | provide.go:317-339 | listing, restoring, flushing and dropping in order |
| ProvideNode.Node.NoteOnline | provide.go:246-252 | only a return from Offline moves the time before which hand-overs may be lost |
| WantPool.FetchStepKeeps | fetch.go:999-1069 | every step of a producer or a fan keeps its counts, and it owns exactly the tokens it took and did not return |
| WantPool.StepKeepsInv | fetch.go:119-174 | every step of any fetch or controller keeps the whole pool's invariant |
| WantPool.RunKeepsInv | fetch.go:119-174 | so does every run |
| WantPool.ReleaseHasRoom | fetch.go:168-173 | release never finds the pool full |
| WantPool.ControllerNeverBlocks | fetch.go:141-144 | the controller's send under its mutex never blocks |
| WantPool.Conservation | fetch.go:999-1069 | in every interleaving free, parked and held tokens add up to the pool; outstanding wants stay within it (and within the limit when no controller is at work); no fetch holds more than its cap; a closed fetch holds none |
| WantPool.ClosedAskedForAll | fetch.go:1034-1066 | a fetch that closes its output uncancelled has asked for everything it needs |
| WantPool.CapExactly | fetch.go:1039-1047 | a fetch goes for another token exactly while it holds none, or less than 384 and less than half of what circulates |
| WantPool.HalfAtMost | fetch.go:1039-1057 | in every run, no fetch holds more than one token and more than half of what circulates |
| WantPool.SetLimitSettles | fetch.go:137-149 | the interleaved controller, undisturbed, ends where its code does: raised to the wanted circulation at once, lowered as far as tokens are free |
| WantPool.TokenPool.TryAcquire | fetch.go:160-167 | takes a token exactly when one is free |
| WantPool.TokenPool.Release | fetch.go:168-173 | returns one, dropped when full |
| WantPool.TokenPool.SetLimitLocked | fetch.go:137-149 | raising reaches the wanted circulation at once, lowering parks only what is free; no token is made or lost |
| WantPool.TokenPool.Tick | fetch.go:119-127 | the smoothed rate times two seconds sets the limit |
| LeafSpine.EnumerateExact | fetch.go:1105-1133 | the enumeration is the file's leaves in order if and only if no interior node below the root repeats |
| LeafSpine.RefusesExactly | fetch.go:1111-1114 | without a repeat, the walk refuses exactly files with a dag-pb leaf |
| LeafSpine.LinksExact | fetch.go:1115-1127 | the same of one node's links, with what was seen before |
| LeafSpine.LeafTable.AddLeaf | fetch.go:1096-1104 | a leaf is appended with its offset, its indices and its first occurrence |
| LeafSpine.LeafTable.Spine | fetch.go:1110-1129 | the recursive walk in place is the enumeration |
| LeafSpine.LeafTable.Link | fetch.go:1116-1126 | one link of it |
| PartBits.SetLeafFacts | resume.go:34-40 | marking a leaf marks it and no other and keeps the count |
| PartBits.AllSetMeansAll | resume.go:41 | the count equals the leaf count exactly when every leaf is marked |
| PartBits.DecodeExactly | resume.go:60-91 | decoding succeeds exactly on the head of this root, size and count followed by the whole bitmap |
| PartBits.RoundTrip | resume.go:60-102 | an encoded sidecar decodes to the same bitmap and count exactly for roots shorter than 65536 bytes |
| PartBits.HeadLayout | resume.go:95-102 | the head byte by byte: magic, root length in two bytes, root, size and count in eight bytes each, least significant first, in two's complement |
| PartBits.BitmapByte | resume.go:28-34 | which bit of which byte is which leaf's |
| PartBits.PartialFetch.Get | resume.go:34 | reads one bit |
| PartBits.PartialFetch.Set | resume.go:35-40 | sets one bit in place, counted once |
| PartBits.PartialFetch.Save | resume.go:95-102 | the bytes written |
| PartBits.Load | resume.go:62-91 | decoding at a moving offset, marks counted again |
| WriteThrough.StepKeepsInv | fetch.go:1267-1370 | every step of receiver, flusher, kernel and crash keeps: memory marks true of the cache, saved marks true of the disk |
| WriteThrough.AlwaysDurable | fetch.go:1267-1352 | at every point of every run a saved bit's leaf is durable at its offset; with all leaves marked the file is the concatenation of the leaves; the count is the number of marks |
| WriteThrough.MarksExactly | fetch.go:1344-1348 | a step marks exactly the leaves of the block it has written; only a crash unmarks any, back to what the sidecar says |
| WriteThrough.CrashAfterSave | fetch.go:1138-1147 | a crash right after a save resumes from exactly the saved snapshot |
| WriteThrough.ResumesWhatWasSaved | fetch.go:1267-1275 | a leaf marked when a snapshot is taken that is then saved is marked at every point after, through any crashes |
| WriteThrough.NeverFetchedAgain | fetch.go:1174-1183 | a saved leaf is never unmarked again, so never fetched again |
| WriteThrough.FileIsTheDag | fetch.go:1085-1183 | from a DAG without repeated interior nodes to the finished file: all marked means the file is the DAG's bytes |
| WriteThrough.DagIsItsLeaves | fetch.go:1081-1084 | a DAG's bytes are its leaves' bytes left to right |
| WriteThrough.FreshIsTrue | fetch.go:1148-1161 | a fresh partial satisfies the invariant |
| WriteThrough.AllMarkedIsWhole | fetch.go:1468-1475 | true marks on every leaf make the whole file |
| WriteThrough.Transfer.ReceiveBlock | fetch.go:1328-1348 | a block is written at every offset it occupies, then exactly its leaves are marked |
| WriteThrough.Transfer.WriteAt | fetch.go:1329-1340 | one leaf's bytes land and nothing right is spoiled |
| WriteThrough.Transfer.FillFromStore | fetch.go:1438-1459 | after a gateway resume exactly the missing leaves the store has are written and marked |
| WriteThrough.Transfer.Needed | fetch.go:1174-1183 | exactly the blocks with a leaf not marked, each once |
| NetQueue.StepKeepsInv | netq.go:56-190 | every operation, cancellation included, keeps counters, idle signal and no free slot beside a waiter it may go to, and lets in only within slots and the background's share |
| NetQueue.BackgroundShare | netq.go:42-49 | a background job is let in only as the one of its kind while a fetch holds or waits or somebody holds the foreground, else up to all slots but one; and it waits beside a free slot only when that share is used up |
| NetQueue.JobsExactly | netq.go:74-128 | a job waits or holds a slot, in its class, exactly from its acquire to its release or cancellation |
| NetQueue.BackgroundInOrder | netq.go:138-140 | no background job is let in before one that waited ahead of it |
| NetQueue.BackgroundNoFarther | netq.go:89-94 | and a waiting one is never put farther back |
| NetQueue.NewQueueRuns | netq.go:24-40 | from a new queue, in every run, the size is the last one set, the holds those not released, the counters the outstanding grants, no slot is stranded, and idle is exact |
| NetQueue.GrantServesOldest | netq.go:131-146 | granting serves exactly the oldest fetches in order, background only when none is left |
| NetQueue.NoOvertaking | netq.go:74-146 | while a fetch waits no background job and no later fetch is let in |
| NetQueue.StepBringsCloser | netq.go:114-146 | each release brings a waiting fetch one closer and nothing sends it back |
| NetQueue.BoundedBypass | netq.go:74-146 | with slots not shrinking, a fetch behind i others has its slot after at most i + 1 + max(0, active - slots) releases |
| NetQueue.NetworkQueue.Acquire | netq.go:74-95 | the locked part of acquire |
| NetQueue.NetworkQueue.GrantLocked | netq.go:131-146 | the loop is the recursive grant |
| NetQueue.NetworkQueue.RemoveWaiter | netq.go:201-210 | finds and removes exactly the one waiter, order kept |
| NetQueue.NetworkQueue.ReleaseSlot | netq.go:114-128 | a release |
| NetQueue.NetworkQueue.GiveUp | netq.go:99-111 | a cancelled waiter leaves, or hands on the slot it was granted meanwhile |
| NetQueue.NetworkQueue.HoldForeground | netq.go:56-60 | a hold |
| NetQueue.NetworkQueue.ReleaseHold | netq.go:62-70 | its release |
| NetQueue.NetworkQueue.ResizeTo | netq.go:182-190 | a resize lets waiters in at once |
| GatewayRanges.GatewayRanges | gateway.go:300-320 | sorted, disjoint, at most eight ranges, no gap of 1 MiB or less, covering every span on span ends, bridging no wider gap between spans while fewer than eight, and no cover of the runs by eight ranges re-sends fewer bytes |
| GatewayRanges.CollectRuns | gateway.go:301-308 | the first loop joins spans at most 1 MiB apart |
| GatewayRanges.MergeDown | gateway.go:309-318 | the second loop leaves out exactly the widest gaps |
| GatewayRanges.Closest | gateway.go:310-315 | the chosen neighbours are the closest |
| GatewayRanges.RunsFacts | gateway.go:301-308 | runs are sorted, cover the spans, keep to span ends and are more than 1 MiB apart |
| GatewayRanges.OneRunExactly | gateway.go:303-306 | neighbouring spans are one run if and only if at most 1 MiB lies between them |
| GatewayRanges.MergedIsBest | gateway.go:309-318 | the merging is optimal among covers of the runs by as many ranges |
| GatewayRanges.WidestAreBest | gateway.go:309-318 | no choice of as many gaps is wider in sum than those left out |
| Packet4.FoldFacts | packet4.go:75-77 | the fold ends, keeps the value modulo 65535, and makes zero only of zero |
| Packet4.RoundTrip | packet4.go:23-67 | a built packet parses back to the same addresses, ports and payload if and only if the payload has at most 65527 bytes |
| Packet4.ParsesExactly | packet4.go:23-44 | exactly what is accepted, IPv4 with any options, UDP, no later fragment, lengths that fit, and which bytes become which field |
| Packet4.LengthFieldExact | packet4.go:50-53 | the IPv4 length field is right if and only if it has at most 65507 |
| Packet4.HeaderVerifies | packet4.go:69-79 | the header's words with its checksum fold to 0xffff |
| Packet4.DatagramVerifies | packet4.go:81-105 | so do pseudo-header and datagram, with zero sent as 0xffff |
| Packet4.PseudoHeader | packet4.go:92-96 | what is summed is the pseudo-header of RFC 768 and the datagram, word by word |
| Packet4.Rfc1071Example | packet4.go:84-99 | the worked sum of section 3 of RFC 1071, and an odd last byte padded |
| Packet4.NoOverflow | packet4.go:82-96 | the 32-bit accumulator does not overflow |
| Packet4.AddWords | packet4.go:84-91 | the accumulator loop, modulo 2^32 |
| Packet4.FoldLoop | packet4.go:97-99 | the folding loop |
| Packet4.IpChecksum | packet4.go:70-79 | the header checksum |
| Packet4.UdpChecksum | packet4.go:82-105 | the datagram checksum |
| Packet4.BuildUDP4 | packet4.go:47-67 | the buffer filled in place is the packet with both checksums |
| DagWalk.HeldWhole | query.go:164-203 | succeeds if and only if every reachable block is held and every referenced file exists |
| DagWalk.CidMissing | query.go:365-397 | true if and only if some referenced leaf reached through held interiors lost its file |
| DagWalk.ReachExactly | query.go:195-199 | what is reachable: the block itself, and through its links, as far as the view can read |
| DagWalk.WholeIsNotMissing | query.go:164-203 | what the first accepts the second never reports as missing |
| DagWalk.HeldAndNotMissingIsWhole | query.go:365-397 | with every block held the two agree |
| DagWalk.DropRef | fetch.go:1604-1639 | deletes blocks and references of exactly what is reachable through held interiors |
| DagWalk.DroppedIsClean | fetch.go:1598-1604 | a dropped root is neither missing nor held |
| DagWalk.Walker.Held | query.go:168-201 | the recursive walk with its visited set and path memo |
| DagWalk.Walker.Missing | query.go:368-395 | the other one |
| DagWalk.Walker.Gather | fetch.go:1609-1623 | the third |
| DagWalk.Walker.Exists | query.go:179-184 | a path is looked up once, rightly |
| Snapshots.StepServes | friend.go:318-369 | every step keeps: a push is scheduled or about to be, or the last snapshot is the current map |
| Snapshots.NeverCoalescedAway | friend.go:330-331 | so does every run in which the peer stays accepted |
| Snapshots.FriendConverges | friend.go:73-77 | a receiver that keeps the highest stamp and has had the last snapshot holds the current map, whatever was lost, repeated or reordered |
| Snapshots.SharesAreHistory | friend.go:345-369 | the share map is the history of the toggles, one friend and library at a time |
| Snapshots.PushedExactly | friend.go:318-328 | a push is scheduled exactly for a friend with none waiting |
| Snapshots.OnePushWaits | friend.go:313-317 | however many requests come in, a peer has at most one push waiting |
| Snapshots.ReceivesHighest | friend.go:73-77 | any delivery order ends at the highest stamp |
| Snapshots.FriendService.PushSnapshot | friend.go:318-329 | one scheduled push is enough, friends only |
| Snapshots.FriendService.SendLatest | friend.go:332-341 | the goroutine copies and stamps the current map |
| Snapshots.FriendService.SetShareLib | friend.go:346-357 | a share set, then pushed |
| Snapshots.FriendService.RemoveShareLib | friend.go:359-369 | a share removed, then pushed |
| TokenBucket.WindowBound | netgate.go:40-72 | over any window of T seconds of any run at most burst + rate * T dials are granted |
| TokenBucket.FirstBurst | netgate.go:52-54 | of the attempts at the first instant exactly twelve are granted |
| TokenBucket.SteadyRate | netgate.go:55-63 | attempts a quarter of a second apart are all granted |
| TokenBucket.WaitIsExact | netgate.go:65-70 | undisturbed, a refused attempt's wait ends exactly when a token is there |
| TokenBucket.DialBucket.TryTake | netgate.go:51-66 | one attempt under the lock |
| TokenBucket.DialBucket.Take | netgate.go:47-72 | the retry loop among other dialers' attempts: granted at the first attempt that can be, refused only when no token could come by the deadline |

## Left out

Assumptions and atomic steps:

- Quarantine: messages come only from linked peers (scan drops an unlinked ledger without voiding its offers); one receiver call, one noteSent and one check are each atomic, and the clock does not run back; two deliveries inside the shared lock are not interleaved.
- Quarantine: claims about the client's view are made of the stored mark (a time set and no probation), not of the clock: a peer whose time has passed is let in before the next tick tells the client.
- Quarantine: the ledgers are values in a map, so aliasing of a ledger shared with the map is not modelled; the client is set before the first message; the server half of a connection event is left out; a message holds each CID once per kind.
- Quarantine: strikes are unbounded; only the shifted cooldown is kept to 64 bits.
- Provide: a flush, a confirmation and a dropping of leftovers run one at a time, everything else between their calls; a stop is atomic, and useProvider is up to its first offer; a key stopped during a flush is not offered again before that flush ends, nor one stopped while its announced record is being written. These fine interleavings are not proved.
- Provide: datastore writes succeed; the provider's callbacks come with the change itself; one provider a run, whose queue goes with the process and when it goes Offline; a stats reading may fail or be stale, never wrong.
- Provide: the provider's own schedule, its sending and its keystore are a contract (filed, queued, sent); `sent` is since the key was filed.
- WantPool: each batch delivers at most one block per key; the poll while a fetch is at its cap is a step that does nothing; ticks of the controller come as its steps.
- WriteThrough: fsync, rename and the sidecar's own atomic replacement succeed; the claims start once the partial is open with its sidecar saved, so the window of a fresh start between creating the file and saving the empty sidecar is excluded; the links' sizes are truthful and blocks are verified against their CIDs.
- WriteThrough: progress, the stall and cancel watcher, and finalizing (fsync, rename, references, pinning) are left out.
- LeafSpine: fetching a node of the spine never fails here.
- TokenBucket: times and tokens are reals, so the rounding of the wait to nanoseconds and of floating point is not modelled.
- Packet4: addresses are already four bytes; the two arguments of To4 are left out.
- DagWalk: references stand only on raw leaves and the file root is the file system's; two CIDs are one block only if equal; the datastore batch of dropRef commits, and its pin and compaction are left out.
- Snapshots: the receiver follows the rule its message type documents; a friend is accepted throughout (ending a friendship is a step, but the promise is not claimed for it); sending may fail, which is a loss.

Contracts weaker than what the source's comments promise:

- Provide.NothingForgotten: excepts the keys the code forgets (Provide.StoppedUnheard reaches one); Provide.ForgottenExactly says exactly which steps forget and which remember.
- Provide.AnnouncedIsSent: excepts runs in which the claim fails (Provide.RestampedIsNotSent, Provide.StoppedUnheardIsNotSent); Provide.UnsentOnlyThroughUnsafe and Provide.UnsafeEndsUnsent are its exact form.
- Quarantine.AnnouncedFirst: excepts exactly a peer whose cooldown ended since the last tick, which the code lets in before the client hears of it.
- Provide.StoppedStaysGone: a stop while a flush or an announcement of that very key is under way is left out, because the claim is false of it (Provide.StoppedInAFlushComesBack).
- Snapshots.NeverCoalescedAway: only while the friend stays accepted, since ending a friendship drops the map without a push.

Not modelled:

- waitFgIdle: it only waits on the idle channel, whose state NetQueue proves exact.
- The want pool's adapt loop and its environment overrides: a timer around the controller's step.
- wantsOnly and withoutHaves as message builders: their fields are in Admit.
- The gateway race, HTTP, CAR import, libp2p, bitswap, DHT and datastore internals, logging, tracing and the C interface: I/O.
- Friend handshake convergence: accept is sent once and not retried, so the code does not give it.
- Name resolution, overlay links, listen ports, TUN devices: easy members only.
