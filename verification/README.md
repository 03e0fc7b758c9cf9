# A model of the deterministic authoring kernel

The kernel keeps a world of slots, each holding at most one cube, and changes it only by committed
batches of typed operations. On top of it stand a crash-safe store, undo and redo, recorded replay, a
content-addressed asset catalog, a policy for two principals, exactly-once admission over a lossy
channel, a paged read session, the owner thread of the host with its job queue, and a supervisor of
proposal workers. This project models these parts in Dafny and proves what they promise.

## How it is laid out

| modules | what they model |
|---|---|
| Prelude, Texts, Readers, Keyed | machine integers, octets, text order, hexadecimal, byte readers and writers, keyed lists |
| Geometry, Motions, Forest, Worlds, Commands | exact transforms and what they do to points, parent forests, world state, envelopes and their bounds |
| PolicyRules, Batch | what one batch does to a world, as functions on snapshots |
| Hierarchy, Operations, Effects, Lifetimes, Acceptance | the world invariant, that every operation keeps it, what each operation changes, runs of batches, and when each operation is accepted |
| Coordinator | the loops of the Coordinator, proved against those functions |
| Canonical, Layouts, Replay, Recordings | canonical bytes, recording, reconstruction |
| Package, Durable, Frames, Recovery, Storage, Openings, Store, StoreRuns | the store: encodings, frames, opening, calls with faults, which directories open, the object, whole runs |
| Edits, History | undo and redo |
| Policy, GuardObject, Admissions, PolicyEffects | regions and accounting, the guard, leases and the ledger, exactly what is allowed |
| Retry, Exchange, RoundTrips | the receipt window, its clients, the network between them, and how a request gets through |
| Observe, Answers | paging, and what a reader is told |
| Manifests, Bundles, Reorder, Catalogs, Retention, CatalogEffects, Catalog | assets |
| Owner, Advances, Supervisor, Causes, SupervisorObject | the two concurrent state machines, and why each task and request is as it is |
| Lawfulness | a platform that satisfies the assumptions |

Code that changes fields or arrays in place is a class here, and its methods are proved equal to a function
on values; the properties are lemmas about those functions and about runs. Concurrent parts are state
machines whose steps are the critical sections of the source. Failures are values (`Result`), never
preconditions.

What is not looked into is gathered in one datatype, `Commands.Platform`: binary64 encoding, SHA-256, the
canonical text of a command, and the built-in asset manifest. `Commands.Lawful` lists what is assumed of it:
parsing inverts serializing on valid envelopes, the text has a length bound that follows from its format, and
the manifest has its fixed sizes. `Lawfulness.SomePlatformLawful` shows that these can hold together.
Nothing is assumed of SHA-256; where a digest has to differ, the statement says so for that pair of inputs.

## What came out besides

- The package limit, the command limit, the cycle rejection inside `subtree` and the derived-transform
  rejection of `checked` cannot be reached (`Durable.PackageSize`, `Commands.BoundedText`,
  `Coordinator.Subtree`, `Geometry.DerivedProper`).
- `execute_job` cancels expired tasks only at the front of the queue, so a task behind an unexpired one may
  still be claimed after its deadline when its caller has not woken up yet (`Owner.LateClaim`; what a claim
  does exactly is `Owner.ClaimDetermined`). The caller then waits for it, and what `dispatch` promises still
  holds (`Owner.DispatchTruthful`).
- Undo and redo need no check of their own on the recorded operations: `History.NavigateCommits` gives the
  exact condition, and it mentions only the request, the cursor and the revision.
- A directory may keep frames that the selected checkpoint already covers; opening accepts them, and the
  invariant of runs (`Recovery.Holds`) describes exactly which.

## Model

| member | source | states |
|---|---|---|
| Geometry.ProductUnit | src/transactions.cpp:119-124 | the product of two unit quaternions is a unit quaternion, so the renormalisation of the source is the identity |
| Geometry.Orthonormal | src/transactions.cpp:125-130 | the matrix `rotate` applies has orthonormal rows and columns for every unit quaternion |
| Geometry.RotateCancels | src/transactions.cpp:125-130 | rotating by a unit quaternion and then by its conjugate gives back every vector |
| Geometry.ProductCancels | src/transactions.cpp:119-124 | multiplying by a unit quaternion and then by its conjugate gives back every quaternion |
| Geometry.ComposeRelative | src/transactions.cpp:141-164 | `compose` undoes `relative`: hanging a slot under a parent with preserve_world leaves its world transform as it was |
| Geometry.RelativeCompose | src/transactions.cpp:141-164 | `relative` undoes `compose`: the local transform is determined by the two world transforms |
| Geometry.DerivedProper | src/transactions.cpp:131-164 | derived transforms keep unit rotation and nonzero scale, so `checked` never rejects them |
| Motions.ProductAssociates | src/transactions.cpp:119-124 | the product of quaternions is associative |
| Motions.BasisProducts | src/transactions.cpp:119-124 | the multiplication table of the basis quaternions, which fixes their handedness |
| Motions.RotateIsConjugation | src/transactions.cpp:125-130 | rotating a vector by a unit quaternion is conjugation by it |
| Motions.TurnsCounterclockwise | src/transactions.cpp:125-130 | a quaternion along an axis turns counterclockwise about that axis, by twice its angle |
| Motions.RotateProduct | src/transactions.cpp:119-130 | a product rotates by its right factor first and its left factor then |
| Motions.ComposeMovesPoints | src/transactions.cpp:141-151 | a composed transform takes every point where the local transform and then the one of the parent take it |
| Motions.ComposeAssociates | src/transactions.cpp:141-151 | composition is associative under uniformly scaled parents |
| Forest.MoveAcyclic | src/transactions.cpp:180-187 | re-parenting keeps the parent graph a forest if and only if the new parent is not in the subtree of the moved slot |
| Forest.WithinIsAncestry | src/transactions.cpp:182-187 | meeting a slot on the walk upwards is the same as being its descendant |
| Forest.EndsSoon | src/transactions.cpp:182-187 | in a forest every walk upwards ends within the number of slots |
| Forest.GrowAcyclic | src/transactions.cpp:253-267 | a new slot without a parent keeps the forest |
| Texts.WriteHex | src/transactions.cpp:32-40 | the digit loop produces the fixed-width hexadecimal text of the number |
| Texts.HexMonotone | src/transactions.cpp:32-40 | fixed-width hexadecimal is strictly monotone in text order |
| Texts.SortSorted | src/transactions.cpp:293-294 | sorting tags leaves them in text order |
| Texts.SortedStays | src/transactions.cpp:293-294 | sorting sorted tags changes nothing, which is what lets stored tags be sent again by an undo |
| Texts.Contains | src/assets.cpp:291-296 | halving search answers exactly whether a text is in a sorted list |
| Worlds.UuidAscends | src/transactions.cpp:41-43 | slot UUIDs ascend in text order with the slot index |
| Worlds.UuidInjective | src/transactions.cpp:41-43 | no two slots of a world share a UUID |
| Worlds.FindIdentity | src/transactions.cpp:98-105 | finds the first live slot with this identity, or none exactly when no live slot has it |
| Batch.FirstFree | src/transactions.cpp:258-263 | finds the first free slot, or the slot count exactly when none is free |
| Batch.FindUuid | src/transactions.cpp:79-82 | finds the first slot with this UUID, or the slot count exactly when none has it |
| Batch.Resolve | src/transactions.cpp:65-87 | a target that resolves names a live slot |
| Commands.BoundedText | src/replay.cpp:54-97 | no bounded batch reaches the command limit, whatever headers it is given |
| Lawfulness.SomePlatformLawful | src/commands.cpp:262-318 | the assumptions on the command text (parsing inverts serializing, and its length is bounded) can be met together |
| Lawfulness.SomeTransformValid | src/transactions.cpp:48-63 | on that platform placing a cube is a valid command, so the assumptions do not empty the batches |
| Hierarchy.RefreshSound | src/transactions.cpp:165-179 | refreshing the subtree of a changed slot restores the invariant: every cached transform is again composed from its parent |
| Hierarchy.CacheIsComposition | src/transactions.cpp:141-179 | every cached world transform equals the composition of the local transforms along its whole ancestor chain |
| Hierarchy.CacheMovesPoints | src/transactions.cpp:165-178 | a cached world transform takes every point where the local transforms of its whole ancestor chain take it, one after the other |
| Hierarchy.CycleTestExact | src/transactions.cpp:180-187 | the cycle test of `reparent` holds exactly for the new parents in the own subtree, which are exactly those that would break the forest |
| Operations.PlacedSound | src/transactions.cpp:281-290 | setting a transform leaves everything sound but the children that are refreshed next |
| Operations.HungSound | src/transactions.cpp:180-204 | hanging or detaching a slot, in both modes, leaves everything sound but the children that are refreshed next |
| Operations.VacatedSound | src/transactions.cpp:301-312 | deleting a childless slot keeps the world sound |
| Operations.CreatedSound | src/transactions.cpp:253-280 | creating in the first free or a new slot keeps the world sound |
| Operations.TaggedSound | src/transactions.cpp:291-295 | setting tags keeps the world sound, with the tags sorted |
| Operations.StepSound | src/transactions.cpp:249-314 | every operation of a batch keeps the world sound |
| Effects.TransformEffect | src/transactions.cpp:281-290 | the slot gets exactly the given world transform; outside its subtree nothing changes, inside it only world transforms and stamps |
| Effects.TagsEffect | src/transactions.cpp:291-295 | the slot gets exactly the given tags, sorted, and its stamp; nothing else changes |
| Effects.ReparentEffect | src/transactions.cpp:180-204 | the slot gets exactly the requested parent, never from its own subtree; preserve_world changes no world transform at all, preserve_local keeps the own local transform in the new frame; no other parent or local transform changes |
| Acceptance.ResolveExact | src/transactions.cpp:65-87 | a target resolves to a slot if and only if that is live and the target is its handle, or the name a create of this batch gave it |
| Acceptance.ResolveRefuses | src/transactions.cpp:65-87 | any other target is refused, as stale when its UUID is known and as not found otherwise |
| Acceptance.CreateAccepted | src/transactions.cpp:253-280 | a create is accepted if and only if its name is new, the prefab known, there is room, and neither the guard nor a replayed log objects |
| Acceptance.OperationAccepted | src/transactions.cpp:281-312 | moving, tagging, detaching and deleting are accepted if and only if the target means a live slot that admits it (children demand a uniform scale, and forbid deleting) and the guard allows it |
| Acceptance.ReparentAccepted | src/transactions.cpp:180-206 | hanging a slot under another is accepted if and only if that is not in its own subtree and has positive uniform scale |
| Acceptance.NameThroughBatch | src/transactions.cpp:65-75 | through the rest of a batch a name means the slot its create filled, until that is deleted; then it is stale, even when the slot is filled again |
| Acceptance.CreateThenPlace | src/transactions.cpp:253-292 | creating and placing a cube in one batch is accepted if and only if there is room and the guard allows both; the cube then stands exactly there |
| Coordinator.Subtree | src/transactions.cpp:165-179 | the breadth-first refresh computes the refreshed subtree of a sound world, visiting each descendant once; neither its cycle rejection nor its scale rejection can happen |
| Coordinator.ReparentSlot | src/transactions.cpp:180-204 | the walk over the ancestors rejects exactly when the new parent lies in the subtree of the slot; otherwise the slot is hung there |
| Coordinator.Execute | src/transactions.cpp:249-314 | one operation does what the specification of a step says |
| Coordinator.StageBatch | src/transactions.cpp:242-325 | the staging loop returns the staged world, or the first rejection |
| Coordinator.Apply | src/transactions.cpp:207-344 | a batch publishes all of its operations, or leaves the world untouched; the receipt says which; the invariant is kept |
| Lifetimes.StepEvolves | src/transactions.cpp:249-314 | an operation only evolves slots: identities never change while live, generations only rise, every change is stamped with the next revision, and a create binds an identity that was never bound |
| Lifetimes.StageCommits | src/transactions.cpp:214-344 | a committed batch keeps the invariant, raises the revision by exactly one and stamps all it changes |
| Lifetimes.RunForest | src/transactions.cpp:141-204 | at every point of every run of batches the world is a forest of live parents of the same generation with positive uniform scale, and cached transforms are composed along the ancestor chain |
| Lifetimes.StampsDateChanges | src/transactions.cpp:165-179 | stamps never exceed the world revision, and an identity that differs between two points of a run is stamped after the earlier one, descendants moved through an ancestor included |
| Lifetimes.NeverReissued | src/transactions.cpp:253-280 | over any run no identity is bound by two creates |
| Lifetimes.StaleForever | src/transactions.cpp:301-312 | a stale handle is stale at every later point of a run, and a retired slot never changes again |
| Lifetimes.StaleRejected | src/transactions.cpp:65-87 | a stale handle never resolves |
| Canonical.Write | src/world.cpp:53-92 | the writer loops produce the canonical bytes |
| Canonical.CanonicalInjective | src/world.cpp:53-92 | two worlds with equal canonical bytes are equal, although parents, local transforms and tags are left out below certain format versions; cached transforms may hold any rounded values |
| Canonical.CommittedInjective | src/world.cpp:53-92 | so are two committed worlds |
| Layouts.CanonicalHeader | src/world.cpp:53-61 | the fields of the header stand at their offsets |
| Layouts.SlotHead | src/world.cpp:62-68 | so do those of every slot |
| Layouts.TransformFields | src/world.cpp:70-74 | and the ten numbers of a transform |
| Layouts.OctetOf | src/world.cpp:26-29 | every integer is written little-endian |
| Replay.Preflight | src/replay.cpp:76-97 | the loop reports the first complaint about a log |
| Replay.Reconstruct | src/replay.cpp:137-149 | reconstruction returns the replayed world or the first failure, never an applied prefix |
| Replay.RebuiltValid | src/replay.cpp:49-53 | the envelope rebuilt with other headers is valid and within the command limit |
| Replay.StageRepeats | src/replay.cpp:49-53 | what a batch does is independent of transaction, epoch, sequence and expiry: under any valid headers it commits to the same world and consumes exactly its own creation bindings |
| Replay.RecordingTracks | src/replay.cpp:118-131 | recording a batch keeps the log in step with the world |
| Replay.OutsideTracks | src/replay.cpp:132-136 | a commit that bypasses the recorder puts the world one further ahead of the log |
| Replay.TurnsTrack | src/replay.cpp:114-136 | over any run of recorded and other batches the live revision is the number of records plus the number of commits that bypassed the recorder |
| Replay.RunsRebuild | src/replay.cpp:114-151 | the two heads are equal if and only if no commit bypassed the recorder, and then the exported log rebuilds the live world; every world before the first such commit is rebuilt by its records, the last of which has its checkpoint; after it nothing is recorded any more |
| Replay.ExportReconstructs | src/replay.cpp:132-149 | an exported log rebuilds exactly the live world |
| Replay.ReplayedCommitted | src/replay.cpp:141-145 | after every record the rebuilt world has the recorded checkpoint bytes and satisfies the invariant |
| Replay.ReconstructedTracks | src/replay.cpp:137-149 | whatever log is accepted, the world it yields is in step with it |
| Replay.TracksPrefix | src/replay.cpp:137-149 | every prefix of a recorded log rebuilds the world of that point |
| Replay.Recorder.constructor | src/replay.cpp:114-117 | a recorder starts on an empty world at revision zero |
| Replay.Recorder.ApplyAtBoundary | src/replay.cpp:118-131 | records exactly the batches that commit; a rejection changes neither world nor log |
| Replay.Recorder.ExportLog | src/replay.cpp:132-136 | exports only while the live revision equals the number of records |
| Recordings.RecordingExact | src/replay.cpp:118-131 | a batch is recorded if and only if no commit bypassed the recorder, there is room, time does not run backwards, it is well formed and commits, and its checkpoint is not too large |
| Recordings.RecordSays | src/replay.cpp:99-112 | the record says what was sent, when, and what came of it |
| Recordings.ReconstructionExact | src/replay.cpp:76-148 | a log rebuilds a world if and only if header and records are good and there are worlds from the empty one to this which its records lead through, checkpoint by checkpoint |
| Package.Encode | src/persistence.cpp:95-105 | the writer produces the package bytes, or rejects them above the package limit |
| Package.PackageReads | src/persistence.cpp:95-120 | a package within its bounds is read back from its bytes |
| Package.PackageWritten | src/persistence.cpp:107-137 | whatever is read was written byte for byte by the encoder, so a package has one encoding |
| Durable.Decode | src/persistence.cpp:107-140 | decoding reads, checks every entry and receipt against the canonical command, and replays the world |
| Durable.SoundDecodes | src/persistence.cpp:107-140 | a package the store may hold decodes to itself and to its world |
| Durable.DecodedSound | src/persistence.cpp:107-140 | only such packages decode, and only from their own bytes |
| Durable.CutSound | src/persistence.cpp:167-170 | every prefix of the commits is itself a package the store may hold, with the world replayed so far |
| Durable.PackageSize | src/persistence.cpp:104-104 | no package the store may hold exceeds the package limit, so that rejection cannot happen |
| Frames.FrameReads | src/persistence.cpp:141-166 | a complete frame is read back, whatever follows it |
| Frames.PrefixTorn | src/persistence.cpp:149-158 | every strict prefix of a frame is an incomplete tail, never corruption |
| Frames.TamperedHeader | src/persistence.cpp:159-161 | a complete frame with changed magic, length or sequence is corrupt, not incomplete; for a length or a sequence the digest of the header has to differ |
| Recovery.ScanFrames | src/persistence.cpp:253-262 | on complete frames followed by a strict prefix of one more, the loop recovers exactly the complete frames and stops where the tail begins |
| Recovery.OpensTo | src/persistence.cpp:245-272 | whatever state a crash leaves, opening succeeds, finds exactly the durable package and its world, and keeps exactly the complete frames, also when the repair is cut short |
| Recovery.OpensAgain | src/persistence.cpp:267-271 | opening again after the repair finds the same and repairs nothing |
| Openings.OpeningExact | src/persistence.cpp:245-272 | a directory opens if and only if its checkpoint is the frame of some commits of a package and its journal consecutive frames up to the last, with at most the beginning of a frame behind them; what opening finds is that package and its world |
| Openings.SoundHistory | src/persistence.cpp:107-140 | every entry of a sound package is the canonical command of its place, staging it leads from the world before it to the world after it, whose bytes its checkpoint is, and its retained receipt says so |
| Openings.LookupExact | src/persistence.cpp:284-289 | a lookup gives the durable receipt of the command committed under that sequence while it is retained, and the three refusals otherwise |
| Recovery.DamageFound | src/persistence.cpp:252-262 | whatever complete frames come before it, and whatever they say, the journal loop does not get past a corrupt one |
| Recovery.TamperedJournal | src/persistence.cpp:252-262 | a changed magic, length or sequence in any complete frame of the journal makes opening fail |
| Recovery.TamperedCheckpoint | src/persistence.cpp:248-250 | so does one in the checkpoint |
| Recovery.TamperedFrame | src/persistence.cpp:141-148 | so does one in any frame the store has itself appended to the journal |
| Recovery.AppendHolds | src/persistence.cpp:210-217 | after a complete append the directory holds the longer package |
| Recovery.TornHolds | src/persistence.cpp:210-217 | after any partial append it still holds the shorter one |
| Recovery.ScratchHolds | src/persistence.cpp:189-195 | a partial or complete scratch checkpoint changes nothing that is held |
| Recovery.ReplaceHolds | src/persistence.cpp:196-196 | selecting the new checkpoint before the journal is reclaimed changes nothing that is held |
| Recovery.ReclaimHolds | src/persistence.cpp:329-331 | reclaiming the journal after that changes nothing that is held |
| Storage.ExtendedSound | src/persistence.cpp:202-210 | the package prepared for a commit passes every check opening will make, and its log rebuilds the new world |
| Storage.AppliedAgrees | src/persistence.cpp:290-322 | a call, with a failure after any octet or between any steps, leaves a directory that holds the old package or the old one with this commit; an unsealed store shows exactly what is durable |
| Storage.CompactedAgrees | src/persistence.cpp:323-339 | compaction never changes what the directory holds, wherever it fails |
| Storage.CompactedReclaims | src/persistence.cpp:323-339 | a compaction succeeds unless the store is sealed, its frame exceeds the quota or something fails; then the new checkpoint is all the directory has, and it alone opens to the same package and world |
| Storage.ResendReturnsOriginal | src/persistence.cpp:299-304 | resending a retained sequence changes nothing; the same payload gets the original receipt, and exactly then a receipt is returned |
| Storage.CommitOnce | src/persistence.cpp:305-322 | only the next sequence changes the live world, it equals the new revision, and the retained receipts stay those of the last entries |
| Storage.DurableOnce | src/persistence.cpp:305-322 | the same of what the directory holds, with a failure after any octet or between any steps |
| Storage.CommitExact | src/persistence.cpp:290-322 | a command commits if and only if it is well formed, of this epoch, next in sequence and time, within the budgets, stages, and its append is complete; a failure that leaves the outcome open seals the store, and nothing else does |
| Store.MakeFrame | src/persistence.cpp:141-147 | builds the frame of a package |
| Store.Store.LookUp | src/persistence.cpp:284-289 | looks up a retained receipt and changes nothing |
| Store.Store.ApplyAwaitDurable | src/persistence.cpp:290-322 | the call does to memory and directory what the specification says, keeps their agreement, and answers success only once the commit is durable |
| Store.Store.Commit | src/persistence.cpp:202-219 | prepares everything before the two-part append, and publishes only after it |
| Store.Store.Compact | src/persistence.cpp:323-339 | writes, selects and reclaims in that order, keeping the agreement of memory and directory |
| Store.Open | src/persistence.cpp:245-275 | validates the checkpoint and every frame before repairing anything; the opened store agrees with the directory |
| Store.CheckFrame | src/persistence.cpp:255-261 | one turn of the journal loop |
| Store.AppendInParts | src/persistence.cpp:213-216 | appending body and mark in two parts persists a prefix of the whole frame |
| StoreRuns.CreatedKeeps | src/persistence.cpp:228-244 | a created store holds its empty package |
| StoreRuns.NextKeeps | src/persistence.cpp:189-339 | every call, fault, crash, opening and interrupted opening keeps the invariant of runs |
| StoreRuns.RunRecovers | src/persistence.cpp:189-275 | after any run of applies, compactions, faults, crashes and reopenings, opening succeeds and finds exactly the acknowledged commits and at most the one in flight, with its payload; opening again, or after an interrupted repair, finds the same |
| StoreRuns.LiveShowsAcknowledged | src/persistence.cpp:276-289 | an unsealed live store shows exactly the acknowledged commits, in the world they rebuild, and retains exactly the receipts from low- to high-water |
| StoreRuns.AcknowledgedStays | src/persistence.cpp:202-219 | what was acknowledged stays in every later package at its place |
| StoreRuns.OriginalReceipt | src/persistence.cpp:299-304 | a command answered with a committed receipt and sent again at any later point of the run, crashes and reopenings in between, gets that same receipt while it is retained, and changes nothing |
| Edits.LocatedResolves | src/history.cpp:44-51 | looking a handle up by UUID and generation agrees with the resolution of the Coordinator on sound worlds |
| Edits.RefreshAlone | src/history.cpp:52-58 | for a slot without parent and children the subtree refresh touches only that slot |
| Edits.StepsEdit | src/history.cpp:79-98 | a batch of such edits does to the content exactly what the edits say, and without a guard commits exactly when they apply |
| Edits.EditedDiffers | src/history.cpp:79-91 | edits change only the fields they write |
| Edits.Restored | src/history.cpp:79-93 | operations that put back what a content holds restore it from any content that differs only in what they write |
| Edits.InverseUndoes | src/history.cpp:78-93 | the reversed inverse of a batch restores the content before it, however often the batch sets one target |
| History.InverseOf | src/history.cpp:79-91 | an inverse exists exactly for live targets that stand alone when they are moved |
| History.ReadInverses | src/history.cpp:78-92 | the loop collects the inverses last first, or the first refusal |
| History.AmendFaithful | src/history.cpp:66-108 | after a new edit the world has the content of the new position, the entries before the cursor are kept and the redo tail is gone; the revision rises by one |
| History.AmendCommits | src/history.cpp:66-108 | without a guard a new edit succeeds if and only if it is well formed, at the live revision, there is room, and every target stands alone where it is moved and can be put back |
| History.AmendEffect | src/history.cpp:66-108 | the world then has exactly the edited content, and the history exactly this batch and its inverse behind the cursor |
| History.NavigateFaithful | src/history.cpp:109-132 | undo and redo move the world to the content of the neighbouring position, and raise the revision by one |
| History.NavigateCommits | src/history.cpp:112-126 | without a guard an undo or redo succeeds if and only if the request is well formed, within budget, at the live revision, and the cursor can move: the recorded operations never fail |
| History.RunKeeps | src/history.cpp:60-132 | over any interleaving of edits, undos, redos, clears and outside commits the world has the content of the cursor whenever no outside commit intervened |
| History.EditThenUndo | src/history.cpp:98-131 | undoing a new edit restores the content and the entries before it; the revision is two higher |
| History.ThereAndBack | src/history.cpp:109-132 | undo then redo, and redo then undo, restore content and history exactly; the revision is two higher |
| History.OutsideConflicts | src/history.cpp:70-71 | after a commit that bypassed the history, every edit and step is refused until it is cleared |
| History.History.constructor | src/history.cpp:60-60 | a history starts empty at the live revision |
| History.History.ClearAtBoundary | src/history.cpp:61-65 | clearing empties the entries and takes the live revision |
| History.History.ApplyAtBoundary | src/history.cpp:66-108 | does what the specification of an edit says; a rejection changes nothing |
| History.History.NavigateAtBoundary | src/history.cpp:109-132 | does what the specification of a step says; a rejection changes nothing |
| Policy.ScopeExact | src/policy.cpp:132-150 | the axis-aligned test holds if and only if every point of the rotated, scaled cube lies in the region |
| Policy.RegionsApart | src/policy.cpp:12-15 | no cube lies in the regions of both principals |
| Policy.StepGuarded | src/policy.cpp:151-164 | each admitted operation keeps the guard arrays in step with the staged slots, placed cubes in their region, and the foreign cubes untouched |
| Policy.StagedGuarded | src/policy.cpp:165-169 | a finished guard has no unplaced cube left and mirrors the staged world |
| Policy.RequestGoverned | src/policy.cpp:95-175 | whatever a principal asks for, ledger and world stay in step, limits hold, every cube lies in the region of its sponsor, and every cube in the region of the other principal is exactly as it was |
| Policy.CubesInside | src/policy.cpp:132-150 | in a governed world every point of every cube lies in the region of its sponsor |
| PolicyEffects.ChargedExact | src/policy.cpp:122-131 | a principal is charged for every slot it sponsors, and again for every cube in one |
| PolicyEffects.CreateAllowed | src/policy.cpp:151-155 | a create is allowed if and only if the principal can still be charged for the slot and its cube |
| PolicyEffects.TransformAllowed | src/policy.cpp:156-160 | a move is allowed if and only if the cube is sponsored by the principal and all its points end in the region of the principal |
| PolicyEffects.EraseAllowed | src/policy.cpp:161-164 | a delete is allowed if and only if the cube is sponsored by the principal; it never fails for its cost |
| PolicyEffects.BeginExact | src/policy.cpp:95-121 | in a governed world a request is taken up if and only if its lease is unused, its kinds and size are as declared, and the ledger is not bound to another world |
| PolicyEffects.BindsExact | src/policy.cpp:95-121 | the first request taken up binds the ledger to its world, whether it commits or not |
| GuardObject.StagingGuard.Account | src/policy.cpp:122-131 | the accounting loops on the arrays agree with the charges of the slots |
| GuardObject.StagingGuard.Create | src/policy.cpp:151-155 | marks the slot as sponsored, live and unplaced, then accounts |
| GuardObject.StagingGuard.Transform | src/policy.cpp:156-160 | demands the region before, unless unplaced, and after |
| GuardObject.StagingGuard.Erase | src/policy.cpp:161-164 | demands the region, unmarks the slot, then accounts |
| GuardObject.StagingGuard.Finish | src/policy.cpp:165-169 | refuses exactly when some created cube was never placed |
| Admissions.TurnKeeps | src/policy.cpp:75-121 | admissions, requests and refunds in any order keep policy and tally; a request leaves the cubes of the other principal alone |
| Admissions.RunKeeps | src/policy.cpp:67-175 | at every point of every run the policy holds and the ledger charges exactly the live leases; with none left it charges nothing |
| PolicyEffects.AdmitExact | src/policy.cpp:81-91 | a lease is issued if and only if the principal holds none, the ledger has one left, and the declared size is within the bounds |
| Admissions.PolicyLedger.constructor | src/policy.cpp:67-70 | a ledger starts with nothing sponsored, charged or retained |
| Admissions.PolicyLedger.Admit | src/policy.cpp:81-91 | issues a lease and charges it, or refuses without effect |
| Admissions.PolicyLedger.Move | src/policy.cpp:73-74 | moving a lease hands on its refund and spends the old one |
| Admissions.PolicyLedger.Release | src/policy.cpp:75-80 | a live lease is refunded once, a spent one not at all |
| Admissions.PolicyLedger.Execute | src/policy.cpp:95-121 | the first guard made from a lease decides; ledger and world change together or not at all |
| Admissions.PolicyLedger.Apply | src/policy.cpp:176-191 | a whole request leaves usage as it was, keeps the policy and leaves the other principal alone |
| Retry.ExecuteKeeps | src/retry.cpp:28-59 | a sequence runs if and only if it is the next one and the payload is acceptable, and only running consumes; each retained sequence s sits at index (s - 1) mod 4 and is one of the last four consumed |
| Retry.AnswerIsOwn | src/retry.cpp:33-57 | a receipt is answered exactly when this request produced it, or the unexpired entry of this sequence holds it for this very payload |
| Retry.ExecuteExact | src/retry.cpp:30-48 | the run takes its own place, expiry empties others, and all the rest stay as they were |
| Retry.RefusalExact | src/retry.cpp:32-43 | which refusal is told, and when |
| Retry.ReceiptReplayed | src/retry.cpp:33-40 | whatever was sent in between, a request sent again with the same payload before its receipt has expired and before four later ones have run gets that receipt, and does not run again |
| Retry.Window.Run | src/retry.cpp:28-59 | the window answers, refuses or consumes the sequence as the specification says; a callback that throws or whose receipt cannot be kept leaves the sequence consumed |
| Retry.Window.Reset | src/retry.cpp:24-27 | a reset forgets every receipt and starts again at one |
| Retry.Window.ClearExpired | src/retry.cpp:31-31 | exactly the expired entries are cleared |
| Retry.Window.LookUp | src/retry.cpp:34-39 | the lookup loop finds the entry of a sequence |
| Exchange.NextKeeps | src/control.cpp:902-917 | every step of clients, network and server keeps the invariant, with loss, delay, repetition, expiry and renewal |
| Exchange.ExactlyOnce | sdk/python/omniweft_sdk/retry.py:89-110 | a prepared transaction runs at most once; one whose receipt a client accepted ran exactly once with exactly its payload, and that run produced the receipt |
| Exchange.SameReceipt | sdk/python/omniweft_sdk/retry.py:97-107 | two accepted receipts for one key are equal |
| Exchange.NoSilentReplacement | sdk/python/omniweft_sdk/retry.py:65-87 | a client uses a sequence for a second request only after a completed reconciliation |
| Exchange.ServedRuns | src/control.cpp:908-913 | a receipt the server sends belongs to a run of exactly the request it answers |
| RoundTrips.PrepareExact | sdk/python/omniweft_sdk/retry.py:65-87 | a request is prepared if and only if the client is negotiated, certain, free and not exhausted, under its next sequence |
| RoundTrips.SubmitExact | sdk/python/omniweft_sdk/retry.py:89-96 | it goes out if and only if its own client is free and has no other one pending |
| RoundTrips.ReceiveExact | sdk/python/omniweft_sdk/retry.py:97-110 | a receipt is accepted if and only if it answers this submission over its own connection and belongs to it |
| RoundTrips.AskedExact | sdk/python/omniweft_sdk/client.py:218-238 | what a query teaches, and when |
| RoundTrips.ResyncedExact | sdk/python/omniweft_sdk/retry.py:122-127 | a reconciliation abandons the pending request if and only if both of its reads inform the client |
| RoundTrips.GetsThrough | sdk/python/omniweft_sdk/retry.py:65-110 | a request of a client that is in step with the server runs once, its receipt is accepted, and the client is in step for the next one |
| RoundTrips.SentAgain | sdk/python/omniweft_sdk/retry.py:89-110 | sending it again after its answer was lost gets the original receipt and runs nothing |
| Exchange.RetryPolicyClient.Learn | sdk/python/omniweft_sdk/client.py:218-238 | a query is accepted only for this epoch and a sequence that does not fall |
| Exchange.RetryPolicyClient.Prepare | sdk/python/omniweft_sdk/retry.py:65-87 | prepares one request under the next sequence, and none while an earlier outcome is open |
| Exchange.RetryPolicyClient.Submit | sdk/python/omniweft_sdk/retry.py:89-110 | sends only a request of this client, and only the pending one; an answer that is not its own leaves it pending and uncertain |
| Exchange.RetryPolicyClient.ResyncPolicy | sdk/python/omniweft_sdk/retry.py:122-127 | abandons the pending request only after both reads succeeded |
| Observe.RegionExact | src/observe.cpp:52-71 | a granted region shows exactly the cubes all of whose points lie in it |
| Observe.ShownExact | src/observe.cpp:126-147 | exactly the slots that grant and query admit are shown |
| Answers.ShownMeans | src/observe.cpp:126-147 | a slot is shown if and only if it is live, named by the grant, all its points lie in the granted region, it has all the tags asked for, and its box shares a point with the box asked for |
| Observe.ShownAscends | src/observe.cpp:125-127 | they come in strictly ascending UUID order, so the sort changes nothing and none comes twice |
| Observe.RunsGrow | src/observe.cpp:96-101 | a longer run of rows makes a longer text, although the suffix without more rows is the longer one |
| Observe.PageExact | src/observe.cpp:94-113 | a page is refused exactly when not even its first row fits; otherwise it is within both budgets, the longest run that fits, and a continuing page makes progress |
| Answers.CapturedExact | src/observe.cpp:117-146 | a query retains all rows it shows if and only if they fit the retention limit of the grant; its page limit is the smaller of the two, its lifetime ends with the session or after that of a snapshot |
| Answers.AnswersWithin | src/observe.cpp:94-160 | every page a session ever answers is whole rows of the world as it was when the query was asked, within the page size and both byte limits, and as many as these allow |
| Answers.StartExact | src/observe.cpp:114-153 | exactly when a query is answered |
| Observe.FollowedExact | src/observe.cpp:148-160 | following the cursors delivers every retained row in order exactly once, and is cut short if and only if some row alone does not fit, or there is none and not even the empty page fits |
| Observe.WritePage | src/observe.cpp:94-113 | the loops compute exactly the text of the page, whose size was counted beforehand |
| Observe.Capture | src/observe.cpp:119-147 | the rows retained are those of the shown slots, counted exactly against the grant |
| Observe.Shows | src/observe.cpp:126-139 | the tests on one slot, with a halving search over its sorted tags |
| Observe.RereadSame | src/observe.cpp:154-160 | after any calls and writes a cursor gives the page of the world its query captured if and only if no other query was answered since, the session was not closed and the lifetime has not passed; otherwise it demands a new query |
| Observe.ExpiryStays | src/observe.cpp:88-93 | expiry only takes away: checking early changes nothing later |
| Observe.Session.Start | src/observe.cpp:114-153 | a query captures the world once and retains the rows, or leaves the session as it was |
| Observe.Session.Next | src/observe.cpp:154-160 | a cursor is answered from the retained snapshot alone; the world is not read |
| Observe.Session.Expire | src/observe.cpp:88-93 | drops what has expired |
| Manifests.UnhexHex | src/assets.cpp:23-38 | the digest text names the digest |
| Manifests.HexUnhex | src/assets.cpp:23-38 | the digest is named by its text |
| Manifests.ManifestReads | src/assets.cpp:258-270 | a valid manifest is read back from its canonical bytes, which never exceed their limit |
| Manifests.ManifestWritten | src/assets.cpp:98-113 | only canonical bytes are read, so a manifest has one encoding and one identity |
| Bundles.UnpackExact | src/assets.cpp:168-184 | raw and run-length decoding accept exactly the inputs whose expansion has the announced length, with nonzero counts |
| Bundles.EntriesRead | src/assets.cpp:135-189 | entries that fit are read from their bytes in order, and any octet after them is an error |
| Bundles.EntriesWritten | src/assets.cpp:135-189 | whatever is read is the bytes of exactly the entries found |
| Bundles.DecodedExact | src/assets.cpp:135-200 | a bundle is accepted if and only if it is the bytes of sound, distinct entries within the limits with complete references |
| Bundles.PrefixFree | src/assets.cpp:189-189 | no strict prefix and no strict extension of an accepted bundle is accepted |
| Keyed.SortStrict | src/assets.cpp:122-125 | entries with distinct keys sort into strictly ascending order |
| Keyed.SortSame | src/assets.cpp:122-125 | lists with the same entries sort to the same list |
| Reorder.FitIsSound | src/assets.cpp:145-188 | reading entry by entry accepts exactly the lists that are sound as a whole, whatever their order |
| Reorder.CheckExact | src/assets.cpp:190-199 | the reference check passes exactly when every asset has its blob of the announced length and every blob is referred to |
| Reorder.RepackedSame | src/assets.cpp:135-200 | the same assets and blobs in any order and under any codecs are accepted with the same content, unless the bytes no longer fit a bundle |
| Reorder.ReorderedSame | src/assets.cpp:135-200 | any reordering of an accepted bundle is accepted with the same content |
| Catalogs.CheckedRoots | src/assets.cpp:222-232 | accepted roots are exactly those given, sorted, without duplicates, and held |
| Catalogs.ImportKeeps | src/assets.cpp:201-221 | an import keeps the catalog sound: everything held stays, everything incoming and nothing else is added, the roots are untouched |
| Catalogs.CollectedExact | src/assets.cpp:239-247 | exactly the rooted assets remain, and exactly the blobs they refer to |
| Catalogs.AppliedKeeps | src/assets.cpp:321-372 | every command keeps the catalog sound; a rejection changes nothing, a commit moves the revision by one |
| CatalogEffects.SetCurrentExact | src/assets.cpp:222-232 | setting the current roots is accepted if and only if they are few, different and held; afterwards they are exactly the roots, and nothing else has changed |
| CatalogEffects.SetHistoryExact | src/assets.cpp:335-347 | setting the roots of a name leaves exactly these under it, and every other name its own |
| CatalogEffects.RemoveHistoryExact | src/assets.cpp:348-350 | removing a name leaves nothing under it, and every other name its own |
| CatalogEffects.ImportExact | src/assets.cpp:201-221 | an import commits if and only if the bundle decodes, clashes with nothing held, and the union is within every quota; it adds exactly what is new, and reports the assets of the bundle |
| CatalogEffects.CollectExact | src/assets.cpp:239-250 | collecting leaves exactly the rooted assets and the blobs they refer to |
| CatalogEffects.OnlyUnrootedLeave | src/assets.cpp:321-372 | an asset leaves only when it is collected without a root, a blob only with the last asset that needs it, and only an import brings new ones |
| CatalogEffects.RootedStays | src/assets.cpp:239-250 | over any run an asset stays as long as some root names it, and so does its blob |
| CatalogEffects.SetThenCollect | src/assets.cpp:321-372 | accepted roots protect what they name from the next collection |
| Catalogs.RunStocked | src/assets.cpp:321-372 | in every reachable catalog no root is without its asset, no asset without its blob, no blob without an asset, and every list is sorted and duplicate-free |
| Catalogs.ExportFits | src/assets.cpp:373-395 | the exported bundle of a sound catalog never exceeds its limit |
| Catalogs.ExportDecodes | src/assets.cpp:373-395 | the exported bundle decodes to exactly the assets and blobs |
| Catalogs.ExportRoundTrip | src/assets.cpp:201-221 | importing it into an empty catalog gives the same assets and blobs at revision one, and exporting again gives the same bytes |
| Catalogs.DamagedRejected | src/assets.cpp:321-372 | importing any strict prefix or extension of an export is rejected in every state, which stays as it was |
| Catalogs.ReorderedImport | src/assets.cpp:201-221 | importing the same assets and blobs in another order or under other codecs has the same effect and the same receipt |
| Retention.StockedSorted | src/assets.cpp:291-296 | every list of roots is sorted, so the binary searches are sound |
| Retention.InspectPredicts | src/assets.cpp:274-313 | the reported removable assets and blobs are precisely those the collector removes, in order, and as many as its receipt says |
| Retention.ReportMeans | src/assets.cpp:274-313 | what every row of the report says about its asset or blob |
| Retention.CollectOnce | src/assets.cpp:239-250 | collecting again removes nothing |
| Catalog.DecodeManifest | src/assets.cpp:98-113 | the reader reads a manifest or reports the first failure |
| Catalog.Decompress | src/assets.cpp:171-184 | both passes over the run-length pairs compute the expansion or the failure |
| Catalog.DecodeBundle | src/assets.cpp:135-200 | the reader loops decode a bundle or report the first failure |
| Catalog.CheckReferences | src/assets.cpp:190-197 | the loop and the counts decide the reference check |
| Catalog.MergeBundle | src/assets.cpp:201-221 | the merging loops compute the import |
| Catalog.CheckQuota | src/assets.cpp:126-134 | the running total decides the quota without ever exceeding it |
| Catalog.CollectGarbage | src/assets.cpp:239-250 | erases what is not rooted, then what is not referred to |
| Catalog.Catalog.Apply | src/assets.cpp:321-372 | executes on a staged copy and publishes it only when everything succeeded |
| Catalog.Catalog.ExportBundle | src/assets.cpp:373-395 | the writer loops produce the exported bundle, within its limit |
| Catalog.Catalog.InspectRetention | src/assets.cpp:274-320 | the loops produce the report; nothing changes |
| Owner.TimeConserved | src/simulation.cpp:11-30 | executed and dropped ticks and the remainder account for all elapsed time |
| Advances.BatchExact | src/simulation.cpp:11-30 | the due ticks are those of all the time there is; at most four are executed, the rest is dropped and counted |
| Owner.ClaimDetermined | src/policy_main.cpp:216-230 | a claim cancels exactly the expired tasks at the front, starts the first of the others that may run now, and changes no other task |
| Owner.LateClaim | src/policy_main.cpp:221-228 | a reachable queue whose second task is claimed after its own deadline |
| Advances.DispatchExact | src/policy_main.cpp:133-149 | a task is queued if and only if the owner is not stopping, there is room and its time has not passed; otherwise its caller is told at once |
| Advances.JobCaused | src/policy_main.cpp:90-239 | every task and what its caller is told change exactly by their causes: giving up, expiry at the front, a claim, its run, its end, closing, returning |
| Advances.AdvanceBegins | src/policy_main.cpp:90-105 | when the owner begins an advance, and when it stops or fails instead |
| Advances.AdvanceEnds | src/policy_main.cpp:105-119 | an advance that has begun ends, when nothing fails: all its ticks are executed and published, at most one task runs, and the counters move by exactly its batch |
| Owner.NextKeeps | src/policy_main.cpp:90-152 | every step of callers, timeouts and the owner keeps the invariant of the queue |
| Owner.DecidedForGood | src/policy_main.cpp:133-152 | what was decided about a task, and what its caller was told, never changes |
| Owner.DispatchTruthful | src/policy_main.cpp:90-152 | false is told only for a task that has not run and never will, true only for one that ran exactly once to its end and whose effect is published; authoring tasks run only in a due tick of an advance that is not overloaded, and at most one task runs per advance |
| Owner.GoneDecides | src/policy_main.cpp:131-143 | once the owner is gone every task is completed or canceled, every caller can return, and new tasks are refused |
| Owner.Queue.Enqueue | src/policy_main.cpp:136-138 | queues a task or refuses it at once |
| Owner.Queue.GiveUp | src/policy_main.cpp:139-145 | a caller takes back exactly its own task, and only while it is pending |
| Owner.Queue.DropExpired | src/policy_main.cpp:221-223 | cancels exactly the expired tasks at the front |
| Owner.Queue.TakeEligible | src/policy_main.cpp:225-229 | takes the first task that may run now |
| Owner.Queue.Claim | src/policy_main.cpp:218-229 | both, against the same functions of the queue |
| Owner.Queue.Finish | src/policy_main.cpp:234-237 | completes the running task |
| Owner.Queue.CancelPending | src/policy_main.cpp:238-243 | cancels everything still pending |
| Supervisor.NextKeeps | sdk/python/omniweft_sdk/lifecycle.py:193-463 | every call and every critical section of every thread keeps the invariant |
| Supervisor.SupervisorSound | sdk/python/omniweft_sdk/lifecycle.py:193-463 | at most one request is unfinished and it is the active one; the blocked request is that one and is submitting, unknown or reconciling; a receipt is there exactly when committed or rejected; every submission sent the one object prepared for its request |
| Supervisor.TerminalStays | sdk/python/omniweft_sdk/lifecycle.py:159-166 | final states are absorbing, with receipt and error, and the prepared object of a request never changes |
| Supervisor.CancelledNeverSends | sdk/python/omniweft_sdk/lifecycle.py:237-246 | a request whose cancellation was answered in time never sent anything and never will |
| Causes.StateCaused | sdk/python/omniweft_sdk/lifecycle.py:159-463 | whatever happens, state and error code of every request change exactly by their causes: each final state, each refusal and each unknown outcome has its own |
| Causes.AnswerExact | sdk/python/omniweft_sdk/lifecycle.py:426-441 | over any run a request has a receipt if and only if the host answered its submission, and it is that answer; it is committed or rejected as the answer said |
| Causes.WorkerCaused | sdk/python/omniweft_sdk/lifecycle.py:272-375 | a worker moves on only by its own steps, and every proposal that is not taken is counted as late |
| Causes.SenderCaused | sdk/python/omniweft_sdk/lifecycle.py:409-463 | a submission moves on only by its own steps and the calls that start it, and is started in time only |
| Causes.SentCaused | sdk/python/omniweft_sdk/lifecycle.py:409-426 | a submission goes out exactly when the thread of its request sends, and it is the object made for that request |
| Causes.NewRequest | sdk/python/omniweft_sdk/lifecycle.py:193-229 | when a request is made, with which generation and deadline, and what moves the generation and closes the supervisor |
| Causes.PlacesBounded | sdk/python/omniweft_sdk/lifecycle.py:370-375 | the places taken are exactly those of the workers not cleaned up, never more than two |
| Causes.AnswersTell | sdk/python/omniweft_sdk/lifecycle.py:237-452 | what the calls on a request answer says exactly what they did |
| Causes.StartTells | sdk/python/omniweft_sdk/lifecycle.py:193-259 | so does what a start or a restart answers |
| SupervisorObject.WorkerSupervisor.StartRequest | sdk/python/omniweft_sdk/lifecycle.py:193-229 | starts or supersedes as specified, with the refusals in order, those of the arguments first |
| SupervisorObject.WorkerSupervisor.Cancel | sdk/python/omniweft_sdk/lifecycle.py:237-246 | cancels before submission, and says too late after it |
| SupervisorObject.WorkerSupervisor.Restart | sdk/python/omniweft_sdk/lifecycle.py:248-259 | a new generation supersedes what has not been submitted |
| SupervisorObject.WorkerSupervisor.Accept | sdk/python/omniweft_sdk/lifecycle.py:272-279 | a proposal is taken only while its request is current |
| SupervisorObject.WorkerSupervisor.Submit | sdk/python/omniweft_sdk/lifecycle.py:377-394 | submission blocks every other request |
| SupervisorObject.WorkerSupervisor.Retry | sdk/python/omniweft_sdk/lifecycle.py:396-407 | only the blocked, started, unknown request is sent again |
| SupervisorObject.WorkerSupervisor.Reconcile | sdk/python/omniweft_sdk/lifecycle.py:442-452 | only the blocked, unknown request is reconciled |
| SupervisorObject.WorkerSupervisor.RunSender | sdk/python/omniweft_sdk/lifecycle.py:409-463 | the critical sections of submission and reconciliation threads |
| SupervisorObject.WorkerSupervisor.RunWorker | sdk/python/omniweft_sdk/lifecycle.py:281-353 | the critical sections of a worker thread before its end |
| SupervisorObject.WorkerSupervisor.CleanUp | sdk/python/omniweft_sdk/lifecycle.py:370-375 | the end of a worker releases its place once |
| SupervisorObject.WorkerSupervisor.Close | sdk/python/omniweft_sdk/lifecycle.py:465-471 | closing cancels every request that was not submitted |

## Left out

- Geometry.Compose: exact reals with unit quaternions stand for binary64, so rounding, infinities, NaN, negative zero, the tolerance of 1e-12 on the squared norm and the renormalisation it allows are not modelled.
- Canonical.CanonicalInjective: is about worlds whose numbers are representable, which the types of the source make them; the encoding of a number is one uninterpreted function.
- Frames.TamperedHeader: where only the length or the sequence was changed, speaks of headers whose digest differs from the original one; collisions of SHA-256 are not excluded.
- Coordinator.Apply: an error keeps its code and operation index, but not its path and message, and several schema complaints about one envelope are one; instead of calling a commit observer it leaves the staged world to its caller.
- Commands.ValidEnvelope: the closed vocabularies (apply mode, reparent mode, child policy) only hold the accepted spellings.
- Durable.Decode: the checks on an entry follow the reading of all entries; every failure of decoding has the same code.
- Storage.Applied: memory exhaustion and the notification after acknowledgement are left out; a failing read-back of a written checkpoint is a fault before the replacement.
- StoreRuns.Created: creation either fails or yields this state; crashes before the first checkpoint is selected are left out.
- Store.Volume: a directory is three byte sequences; an append persists some prefix, truncation and replacement are atomic, and locks, directory syncs and foreign files are left out.
- PolicyRules.Begin: inside a batch the guard is a value passed from step to step; the mutex of the ledger becomes the atomicity of a request.
- Retry.Retainable: counts the codes of errors but not their paths and messages, which errors here do not carry.
- Retry.Window.Run: what the callback does is a value (a receipt, or that it throws), so one that itself calls the window is not expressed.
- Exchange.Served: HTTP parsing, tokens and leases appear as a refusal that may happen at any time and runs nothing; epochs are counters instead of random secrets, so a renewed epoch is always new.
- Exchange.RetryPolicyClient.Prepare: the JSON body is given by the caller; whether it is well formed is an input.
- Observe.Capture: the text of a row and of the opening of a page are uninterpreted; std::sort is omitted because the rows already ascend.
- Owner.Next: a task is an effect on the world or none; presentation status and the notification of condition variables are left out, and a caller may give up at any moment after its deadline.
- Supervisor.WorkerStep: processes, pipes and proposal parsing are reduced to how they end; whether a goal, a mode and a transaction id are of their types is an input; the client behind a submission is an answer, an error or silence.
- Catalogs.Executed: allocation failures are left out.
- Importing glTF, presentation packets, rendering, command-line parsing, report writing, example runners and tools: they would add only easy members.
- Sockets, private pipes, watchdogs, operating-system randomness and the rounds of SHA-256: foreign calls.
