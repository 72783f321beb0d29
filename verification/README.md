# Trust-anchor verification

A Dafny model of the trust-state machine of the trust-anchor service: how a cycle
turns published trusted lists into a snapshot of trust anchors, how the service
serves, stores and approves snapshots, and what every run of it keeps. The proofs
are about all upstreams, all clocks, all operator inputs and all save outcomes.

## How it is modelled

- `World` is any family of total functions for what the service calls but does not
  define: XML unmarshalling, signature checking, certificate validity and parsing,
  SHA-256, the pivot-URL and Official-Journal matchers. `Upstream` is one cycle's
  network: which requests are allowed, which bytes or failures they return, and
  which digests are published.
- A run is a sequence of steps (refresh, reconcile declared sources, approve,
  restart) from an empty store. Each save in a step may fail. `Manager.After` is
  the state a run ends in.
- Code that changes things step by step is imperative here too: classes for the
  manager, the two list sources and the anchor storage of hold mode, arrays for the
  in-place deduplication and compaction, loops for the accumulators. Each method is
  proved equal to a function of its inputs or of the old state, and the theorems
  are about those functions.
- A snapshot id is the sorted projection itself: JSON and SHA-256 over it are taken
  as injective. Where a proof needs SHA-256 over raw bytes to be injective it says
  so (`World.CollisionFree`).

Module map: `Trust` and `World` hold the data; `Identity`, `Filter` and
`Differences` the content id, bundle queries and diffs; `Extraction`,
`ExtractionSpec` and `Extractor` list extraction as functions, as a declarative
specification and as it runs; `Declared` the operator file; `Lotl` and `LotlSource`
the signer rotation and the list of the lists (LOTL); `National` one territory;
`Hold` and `HoldInPlace` hold mode; `Cycle` one whole cycle; `Manager` the steps.
What those functions mean is written out beside them, field by field, with none of
their helpers: `Vocabulary` the published names, statuses, uses and types,
`ListReading` a list, `TerritoryReading` a territory's turn, `Declarations` the
declared file, `CycleReading` a cycle, `StepReading` a reconcile and an approval; the
same for the LOTL, the id, bundles and diffs is at the end of `Lotl`, `LotlSource`,
`Identity`, `Filter` and `DiffOrder`. Over runs: `Invariant` and `Reachable`, `HoldRuns` and `HoldSafety`, `StoreRuns` and
`Restarts`, `Provenance`, `SkipRefinement`, `Progress`, `Pins`, `Answers`. For claims
that are false of the code, `Boundaries`, `Restarts`, `Answers`, `DiffOrder` and `Pins`
give the exact conditions, and `Witnesses`, `ReportWitnesses`, `AnswerWitnesses` and
`Pins` a run from the empty store, in the concrete worlds of `Scenario`, in which the
claim fails.

A run is settled (`Manager.Settled`) when the last save it attempted succeeded,
whatever became of earlier ones.

## Where the code falls short of its comments or of the obvious claim

- A failed save is said to be retried by the next cycle (ingest/manager.go:260-261).
  It is not, unless that cycle has something of its own to save:
  `Witnesses.FailedSaveNotRetried`, `Boundaries.RefreshCatchesUpIff`,
  `Boundaries.BehindWhileIdle`. Store agreement and the properties of restarts are
  therefore stated for settled runs.
- A restart is not invisible in hold mode. A list republished as other bytes with the
  same content is served and not saved, and the stored digest then decides whether the
  next refresh skips the list, and with it whether a waiting anchor survives:
  `Witnesses.RestartDecides`, with every save successful; exact condition
  `Restarts.RestartFaresIff`. In auto mode restarts are invisible for good:
  `Restarts.RestartUnseen`.
- The id is served as a strong ETag, but it determines neither the order of a bundle
  nor the names beside the certificates: `AnswerWitnesses.RenameReorders`, exact
  conditions `Answers.PemAlikeIff` and `Answers.JsonAlikeIff`.
- An anchor held for approval leaves Pending on a cycle that skips the download of
  its territory or carries it over, while the list still grants it:
  `Witnesses.SkipDropsHeld`, exact condition `HoldSafety.HeldSurvivesIff`.
- A list signed by a certificate the LOTL has dropped stays served, unmarked, as long
  as its digest does not change: `Pins.SkipKeepsDroppedSigner`, exact condition
  `Pins.EntryPinnedIff`, and `Pins.RunsPinned` for runs that drop no signer.
- Merging duplicates narrows an anchor that stood for every use:
  `Witnesses.MergeNarrows`, exact condition `ExtractionSpec.MergeKeepsUsesIff`.
- The order of diff entries depends on map iteration when a territory is coded
  "internal" and a declared anchor fares like one of its anchors:
  `ReportWitnesses.InternalCodeTies`, exact condition `DiffOrder.DiffDeterministicIff`.
- The comparison of skipped services joins the two names with a slash, so a changed
  skip can go unreported: `ReportWitnesses.SlashHidesSkip`, exact condition
  `Boundaries.SkippedEqualIff`.
- A failed territory that leaves the configured set is not a reported change:
  `ReportWitnesses.FailedEntryVanishes`; `Boundaries.QuietCycleKeepsHealth` says that
  this is all the comparison misses.

## Model

| member | source | states |
|---|---|---|
| Provenance.ChainOfTrust | ingest/pipeline.go:302-517 | after any run, every anchor served in a territory or held in Pending is, field by field, what the services of a list of that territory call for; the list is authentic under the certificates of the first XML pointer for the territory in a LOTL; and that LOTL, whose fields and pointers the snapshot carries, is authentic under a set linked to the bootstrap by a chain of verified pivots |
| StoreRuns.StoreSimulation | ingest/manager.go:249-266 | after any settled run the stored snapshot has the served id, LOTL digest and pending keys with the same FirstSeen, and for every served territory an entry with the same carried-over mark, sequence number, failure and skips, although unchanged cycles are not saved |
| StoreRuns.RestartKeeps | ingest/manager.go:76-109 | right after a restart of a settled run the id, the served keys, every territory's carried-over mark, sequence number, failure and skips, and the hold context of the next cycle are those from before |
| Restarts.RestartUnseen | ingest/manager.go:76-293 | in auto mode, with truthful digests, a restart of a settled run is invisible for good: after any continuation, further settled restarts and failed saves included, the served id and LOTL state are those of the run without it |
| Restarts.RestartFaresIff | ingest/manager.go:399-422 | in hold mode a waiting anchor fares in the next refresh as without the restart exactly when the digest check skips its territory with both the stored and the served entry or with neither, or its list would no longer give it |
| Restarts.SameMarksFareAlike | ingest/source_national.go:64-89 | equal digests and next updates of the stored and the served entry are enough for that |
| Restarts.WaitingSurvivesIff | ingest/pipeline.go:453-517 | a waiting key survives a cycle exactly when its list is not skipped and reading it still gives the key |
| Progress.StoreCarriesLotl | ingest/manager.go:420-422 | after any settled run the store also holds the served signer set, pivot progress, pointers and LOTL times |
| HoldSafety.HoldModeSafety | ingest/pipeline.go:524-570 | once something is served, a key newly enters the served set only by an approval of its fingerprint or in a cycle whose auto-release window it has waited out, and never by a restart of a settled run |
| HoldSafety.ServedWithLeave | ingest/pipeline.go:540-565 | in any run, with any save outcomes and restarts, every key served or stored to be served entered in a cycle that started from nothing served, by an approval of its fingerprint, or after its auto-release window |
| HoldSafety.FirstSeenIsStart | ingest/pipeline.go:551-563 | FirstSeen of a pending key is the time of the cycle that began its current unbroken stay in Pending, in every run whose restarts find it settled |
| HoldSafety.HeldSurvivesIff | ingest/pipeline.go:422-425 | a held anchor is pending or served after a successful cycle exactly when its territory was downloaded afresh and still lists it |
| HoldRuns.RunHoldDecides | ingest/pipeline.go:540-569 | a successful cycle serves exactly the incoming keys hold mode keeps, and pends exactly the others, each with its previous FirstSeen or now |
| SkipRefinement.SkipRefinesDownload | ingest/pipeline.go:309-330 | in auto mode, at any point of any run, a cycle that skips by digest and one that downloads give the same verdict and the same snapshot (carry-over text excepted), provided published digests are truthful and the skipped lists would be accepted |
| SkipRefinement.LotlSkipRefines | ingest/source_lotl.go:60-74 | skipping the LOTL gives the same sequence, times, signers, pivot progress, digest and pointers as downloading it |
| SkipRefinement.FetchSilent | ingest/source_lotl.go:60-74 | with truthful digests a fetch is skipped only where the download would have the held digest, and is the plain download otherwise |
| SkipRefinement.TerritorySkipRefines | ingest/source_national.go:64-89 | a reused entry equals the downloaded one, but for the text of an earlier carry-over |
| SkipRefinement.ReachableHeld | ingest/pipeline.go:453-517 | in auto mode every reachable entry with data is the projection of the one signed document that has its digest |
| Reachable.ReachableWellFormed | ingest/manager.go:162-357 | after any run, served and stored snapshots have ascending distinct codes, empty failed entries, coded skips, anchors coded like their entry and marked with the source of their plane, unique keys across served and pending, pending only in present entries with data, a non-empty signer set and an id equal to the recomputed one |
| Reachable.ReachableEtagSound | routes/anchors.go:145-158 | two snapshots served in any two runs under one id answer every bundle query with the same certificates, so a 304 never hides a changed set |
| Reachable.ReachableDiffExact | trust/diff.go:40-79 | between any two snapshots that runs have served, and from nothing to the first, a diff is exact, has one entry per key, tells what happened under each and is in order |
| Reachable.ApprovalMoves | ingest/manager.go:318-346 | an approval moves one key from pending to served, creates no territory and changes nothing else but anchors, id and times |
| Progress.RunsAdvance | ingest/pipeline.go:117-119 | LOTL sequence and pivot progress never decrease along a run whose restarts find it settled, and what is once served stays served |
| Progress.TerritoriesNeverLost | ingest/pipeline.go:397-430 | the entries of a successful cycle are exactly the configured codes, and an entry with data keeps data at a sequence at least as large |
| Progress.CycleWithinValidity | ingest/source_lotl.go:139-141 | a successful cycle never serves a LOTL past its next update, on the skip path either |
| Progress.FailedCycleKeeps | ingest/manager.go:232-239 | a failed cycle leaves everything but the declared anchors, the id, its predecessor and the time |
| Pins.EntryPinnedIff | ingest/pipeline.go:453-517 | an entry of a successful cycle is backed by the current pointer set exactly when it was downloaded in this cycle or the current pointer pins the signer of the document it was read from |
| Pins.RunsPinned | ingest/pipeline.go:397-517 | along any run in which no LOTL drops a signer, every served or stored entry with data is signed by a certificate its pointer pins now |
| Pins.SkipKeepsDroppedSigner | ingest/pipeline.go:453-467 | a run in which an entry stays served, unmarked, after the LOTL dropped the signer of its list |
| Identity.ComputeID | trust/anchor.go:410-455 | the loops and sorts compute the content id; what that id tells apart is Identity.SameIdIffSameFields |
| Identity.SameIdIffSameTrust | trust/anchor.go:370-407 | with unique keys, two snapshots have one id exactly when they have the same order-free trust content: no order, failed entries, health, digests, pointers or times |
| Identity.SameIdIffSameFields | trust/anchor.go:370-455 | with unique keys, two snapshots have one id exactly when they agree on the LOTL sequence, on the non-failed entries (code, sequence, and anchors by fingerprint, status, QSCD, uses, source, type and use cases), on the declared anchors by those fields, and on the pending fingerprints |
| Identity.ReorderedSameId | trust/anchor.go:410-447 | reordering territories, anchors, declared or pending entries and adding or removing failed territories leaves the id alone |
| Filter.Filter | trust/filter.go:44-89 | the nested loops refuse exactly the queries with an unknown use, type or key set, and else return, in listing order, exactly the listed anchors that are asked for and fit |
| Filter.InBundleIff | trust/filter.go:44-106 | an anchor is in the bundle exactly when it is declared or listed by a territory asked for (ASCII case aside, all when none is named), has the type, is in a device if that is asked, is unrestricted or has the use (signature for authentication), and has a key on a NIST curve, without a named curve or not ECDSA unless all keys are asked |
| Filter.BundleMeans | trust/filter.go:44-106 | the same with order and repetition: territories in snapshot order, then the declared anchors |
| Filter.EtagSound | trust/filter.go:44-106 | equal ids give equal verdicts and the same multiset of certificates for every query over territory, use, QSCD, type and keys |
| Answers.PemAlikeIff | routes/anchors.go:117-159 | under one id, in any two runs, all bundles are equal in order too exactly when the snapshots list the same certificates in the same order, territory by territory and type by type |
| Answers.JsonAlikeIff | routes/anchors.go:161-202 | under one id, in any two runs, the JSON bodies are equal for every query exactly when the snapshots were generated at one time and list the same anchors with all metadata in the same order |
| AnswerWitnesses.RenameReorders | trust/anchor.go:370-407 | a run in which two renamed services change the order of a bundle and the JSON body under one id |
| Differences.BuildIndex | trust/diff.go:86-103 | the loops fill the index, later anchors replacing earlier ones under one key |
| Differences.JoinedKeyIff | trust/diff.go:91-100 | the joined key texts tell the keys apart, unless a type name passes for a fingerprint |
| Differences.ComputeDiff | trust/diff.go:40-79 | for any map iteration order, the entries are an ordered list of the changes, one per changed key |
| Differences.DiffExact | trust/diff.go:46-66 | for any territory codes, removing the removed keys and adding the added ones turns the previous key set into the next, with at most one entry per key; an entry's source tells its plane |
| Differences.DiffSwap | trust/diff.go:40-79 | swapping the snapshots swaps additions and removals and keeps the changed keys |
| DiffOrder.DiffDeterministicIff | trust/diff.go:67-77 | the entry list is independent of the map order exactly when no certificate of a territory coded "internal" is added, removed or changed alike with a declared anchor of the same certificate and type |
| DiffOrder.DiffMeans | trust/diff.go:40-132 | the entries are exactly those that tell what happened under some key, one per key: an addition or change shows the new anchor, a removal the old one, and the text names the first of status, QSCD, uses and service name that moved; they are ordered by territory, kind, fingerprint and type |
| Differences.NoSilentTrustChange | trust/diff.go:119-132 | with equal ids a diff holds nothing but renamed services |
| Boundaries.UnreportedCycleOnlyRenames | ingest/manager.go:246-249 | in every run, a cycle that reports no change differs from its base by nothing but renamed services |
| Extractor.ServiceIdentities | trust/extract.go:107-151 | the loop yields the held certificates in order and one coded warning for each it refuses |
| Extractor.CollectStatuses | trust/extract.go:203-219 | the first pass records, per certificate, the statuses of all admitted entries |
| Extractor.CollectCandidates | trust/extract.go:221-281 | the second pass yields a candidate per certificate of each accepted entry, and the warnings; what candidate and warning hold is ListReading.ListRead |
| Extractor.DedupInPlace | trust/extract.go:315-338 | the in-place pass over the array leaves the merged anchors in its front and reports each conflicting certificate once |
| Extractor.ExtractAnchors | trust/extract.go:172-342 | the whole method computes the extraction function, with its error case; what it extracts is ListReading.ListRead |
| ExtractionSpec.ExtractRefinesSpec | trust/extract.go:172-342 | one anchor per certificate, exactly for those with an accepted entry and a single status among admitted entries; uses and qualifiers are the union and QSCD the disjunction over its entries, names, type and status time those of the first of them by name, subject, validity and key those of the certificate |
| ListReading.ListRead | trust/extract.go:107-415 | the anchors and skips of a list, read off its services: which certificates become anchors, every field of each, their order by provider, service and fingerprint, and exactly which skips with which code, text, fingerprint and key names |
| Vocabulary.AcceptedIff | trust/extract.go:172-250 | a service is accepted exactly when its type is configured (the qualified CA type when none is) and a configured status, trimmed and expanded, is its own or, for a type not approved at EU level, has it as national counterpart |
| Vocabulary.ServiceUsesIff | trust/extract.go:377-415 | a service has a use exactly when one of its extensions names it, and has it once |
| ExtractionSpec.ExtractOrderFree | trust/extract.go:298-338 | the map from fingerprint to status, uses and QSCD does not depend on the order of providers or services |
| ExtractionSpec.MergeKeepsUsesIff | trust/extract.go:348-359 | a merged anchor matches exactly the uses of its entries if and only if no entry is unrestricted, or none is restricted, or the restricted ones name every use |
| ExtractionSpec.CertificateAccounted | trust/extract.go:107-151 | every certificate of an accepted service is an anchor or a coded skip |
| ExtractionSpec.ServiceAccounted | trust/extract.go:221-250 | every accepted service leaves an anchor or a coded skip, undecodable and empty identities included |
| ExtractionSpec.NeverBothAnchorAndSkip | trust/extract.go:315-338 | no certificate is both an anchor and a skip |
| Declared.LoadInternal | trust/internal.go:147-175 | the entry loop with its seen-map and final sort computes the load function |
| Declared.CollectRoles | trust/internal.go:236-269 | the role loop accepts exactly the valid role lists and refuses duplicates |
| Declared.LoadExact | trust/internal.go:147-185 | a load succeeds exactly when every entry is valid and no certificate is declared twice; the result is strictly ordered by fingerprint and type, one anchor per declared type, none outliving its certificate |
| Declarations.FileMeans | trust/internal.go:147-377 | a file loads exactly when every entry has known keys only, well-listed types, a two-letter territory and one certificate that has not expired, and no certificate is declared twice; it yields exactly the declared anchors, every field written out (validity capped, status defaulted, territory upper-cased), ordered by fingerprint and type |
| Declared.LoadOrderFree | trust/internal.go:147-185 | permuting the entries changes neither the verdict nor the list |
| Declared.LoadTypeOrderFree | trust/internal.go:236-339 | permuting the types inside entries changes neither the verdict nor the list |
| Lotl.CollectRefs | ingest/pivot.go:25-40 | the loop and sort give the advertised pivots in ascending order |
| Lotl.WalkPivots | ingest/pivot.go:51-118 | the loop computes the walk; it succeeds exactly when each advertised number above the floor has a fetched pivot verified against its predecessor's set, and ends with the newest one's set |
| Lotl.PivotWalk | ingest/pivot.go:51-118 | on success the walk processed one pivot per distinct number above the floor, ascending, each authentic under its predecessor's set at its own issue time, of the LOTL type and that number, and yielding the certificates of its own self pointer, which hold its signer |
| Lotl.CheckPivotIff | ingest/pivot.go:51-118 | a pivot yields a set exactly when it is authentic under the pinned set at the issue time it is read with, keeps that time, has the LOTL type and the number, and the set is the certificates of its first XML pointer of the LOTL type, all parsed and holding its signer |
| Lotl.PivotWalkIff | ingest/pivot.go:51-118 | the walk succeeds exactly when such a chain of fetched pivots exists, and ends where the chain ends |
| Lotl.RefsExact | ingest/pivot.go:25-40 | the advertised pivots are exactly the URIs that name one, in ascending order |
| Lotl.WalkMonotone | ingest/pivot.go:51-118 | the walk never goes back, reaches every advertised number, and changes nothing or rotates to a non-empty set |
| LotlSource.BuildPointerSet | ingest/pointers.go:28-48 | one pointer per territory the LOTL publishes an XML list for, ascending, each with the location and certificates of the first XML pointer for the territory, or marked as failed when they do not decode |
| LotlSource.PointerForIff | ingest/pointers.go:70-81 | the pointer used for a territory is the first one carried under its code, when it is usable |
| LotlSource.EuLotlSource.Authenticate | ingest/source_lotl.go:85-156 | result and pivot progress of the direct and the pivot path; the caches move only on success |
| LotlSource.LotlAcceptance | ingest/source_lotl.go:85-156 | an accepted LOTL's signer is in its own self-pointer set (direct) or in the newest processed pivot's set (walk, with at least one pivot); the set is non-empty and the progress does not go back |
| LotlSource.LotlAcceptedIff | ingest/source_lotl.go:85-156 | a LOTL is accepted exactly when its bytes are readable, the pinned certificates parse, and it is authentic, of the LOTL type and not past its next update under the pinned set with its signer in its own self-pointer set, or, when no pinned certificate signed it, under the set a pivot walk ends with |
| LotlSource.ProgressExact | ingest/source_lotl.go:85-156 | the pivot progress an accepted LOTL leaves behind: the larger of the held one and the newest advertised |
| LotlSource.NoNewPivotsMeansDirect | ingest/source_lotl.go:100-125 | with no pivot newer than the progress only the direct path accepts, and the rotation state stays |
| LotlSource.IngestLOTL | ingest/pipeline.go:302-362 | one cycle's LOTL: carried on a skip, else pinned to the held set or the bootstrap and verified |
| LotlSource.LotlOfCycle | ingest/pipeline.go:302-362 | the LOTL of a cycle is carried over on a digest match while the held one is fresh, else downloaded where allowed, accepted from the held set or the bootstrap, and taken over field by field |
| LotlSource.LotlSucceeds | ingest/pipeline.go:302-362 | whenever it could be carried over or accepted so, it is |
| National.NationalTLSource.Authenticate | ingest/source_national.go:97-118 | signature, territory and sequence-floor checks, caching the list on success |
| National.NationalTLSource.ExtractList | ingest/source_national.go:124-134 | extracts from the cached list and keeps its warnings |
| National.FetchOnce | ingest/pipeline.go:432-517 | a territory is reused on a digest match, else downloaded, verified, extracted and stamped |
| TerritoryReading.TerritoryTurn | ingest/pipeline.go:397-517 | a territory is taken fresh, kept on a digest match, carried over or failed exactly when its circumstances call for it, with every field of the entry and the reason in each case |
| National.TerritoryProgress | ingest/pipeline.go:397-430 | whatever the upstream does, previous data is never lost and its sequence never goes back |
| National.FreshIsVerified | ingest/pipeline.go:469-517 | a fresh entry is the projection of a list signed by a certificate its pointer pins |
| HoldInPlace.Compact | ingest/pipeline.go:542-565 | the in-place loop leaves the kept anchors in order at the front, collects the held ones, and writes only this slot's storage |
| HoldInPlace.ApplyHoldMode | ingest/pipeline.go:524-569 | over all territories every slot ends with its kept anchors and pending is the concatenation of the held ones |
| HoldInPlace.BuildAndHold | ingest/pipeline.go:422-425 | building and holding on the fresh, skip and carry-over paths writes no storage that existed before |
| Hold.HoldSplits | ingest/pipeline.go:542-565 | the incoming anchors split exactly into kept and held |
| Hold.JoinedLookup | ingest/pipeline.go:530-545 | looking a joined key text up among joined key texts is looking the pair up, since fingerprints hold no slash |
| Cycle.ExpandTerritories | ingest/pipeline.go:185-206 | the loop with its seen-map expands the EU group, each code once, sorted |
| Cycle.TraceOrigins | ingest/pipeline.go:453-467 | entries kept on a skip or a carry-over take their anchors from the previous snapshot's storage, the others from their list |
| Cycle.HoldTerritories | ingest/pipeline.go:540-569 | hold mode over those origins yields the kept entries and the held anchors, and leaves the previous storage as it was |
| Invariant.ExpandExact | ingest/pipeline.go:185-206 | a cycle's codes are strictly ascending and exactly the configured set with the EU group expanded |
| Cycle.Refresh | ingest/pipeline.go:109-169 | the whole cycle, filled step by step, with its three refusals; the previous snapshot's anchor storage is copied from and never written |
| CycleReading.CycleExact | ingest/pipeline.go:109-169 | when a cycle ends with a snapshot and with which error it does not, and every field of the snapshot: the LOTL's, the bootstrap's, the turns of the configured territories, the declared anchors loaded or carried over, and what hold mode serves and holds, since when, in which order |
| CycleReading.HoldApplied | ingest/pipeline.go:524-569 | an anchor is served exactly when hold mode is off, nothing was served before, it was, or it has waited out a release window that is set; the others wait since they were first seen |
| Invariant.CycleWellFormed | ingest/pipeline.go:139-168 | a successful cycle from a well-formed snapshot is well formed |
| Manager.ComparePending | ingest/manager.go:383-393 | equal exactly when the keys agree position by position |
| Manager.CompareSkipped | ingest/manager.go:426-445 | counting down a map decides equality of the multisets of keys |
| Manager.CompareHealth | ingest/manager.go:399-409 | changed exactly when some next entry is new or moved in its carried-over mark, sequence number, failure or skips |
| Manager.ChangedIff | ingest/manager.go:246-249 | a cycle is a reported change exactly when the id moved, another anchor is held, or some entry is new or moved in one of those |
| Boundaries.MovesReported | ingest/manager.go:246-266 | the same for every refresh of every run |
| Manager.TrustManager.Initialize | ingest/manager.go:76-109 | the stored snapshot, if any, is served |
| Manager.TrustManager.ReconcileDeclared | ingest/manager.go:162-191 | the new state, and one event per entry of the diff exactly when the id moved |
| Manager.TrustManager.Refresh | ingest/manager.go:211-293 | the new state, the outcome, and in each half one event per entry of the diff exactly when that half changed; an error leaves the reconciled state |
| Manager.TrustManager.ApprovePending | ingest/manager.go:298-357 | the approved snapshot is served only if it was stored, with one event; otherwise nothing changes |
| StepReading.ApprovalExact | ingest/manager.go:298-357 | an approval moves the first pending anchor of the fingerprint into the entry of its territory, in name order, and announces it; nothing else moves, and nothing at all when there is none or the save fails |
| StepReading.AddedEntry | ingest/manager.go:325-346 | an approved anchor whose territory has no entry gets one with no list, mark or skip, in code order |
| StepReading.ReconcileExact | ingest/pipeline.go:217-276 | a reconcile changes the served snapshot exactly when the loaded (or carried-over) declared anchors differ from the served ones in a compared field, and then in nothing but those anchors, the id and the times |
| Boundaries.CycleCatchesUpIff | ingest/manager.go:257-265 | a cycle with a working store makes the store current exactly when it has something to save or the store was current |
| Boundaries.RefreshCatchesUpIff | ingest/manager.go:211-293 | the same for a whole refresh, declared half included |
| Boundaries.BehindWhileIdle | ingest/manager.go:257-265 | a store that is behind stays behind through any number of refreshes none of which saves for a reason of its own |
| Boundaries.QuietCycleKeepsHealth | ingest/manager.go:399-409 | a cycle of a run reported as unchanged kept the carried-over mark, sequence number, failure and skips of every entry still configured; an entry that left had no data |
| Boundaries.SkippedKeyIff | ingest/manager.go:426-445 | the comparison key tells two skips apart exactly when certificate, reason or the joined names differ |
| Boundaries.SkippedEqualIff | ingest/manager.go:426-445 | two skip lists compare equal exactly when they hold the same certificates, reasons and joined names, in any order |
| Boundaries.ReachableSkipsIff | ingest/manager.go:426-445 | the same for any two entries that runs have served, given digests printed without slashes; an entry is unmoved exactly when its marks agree and its skips show the same certificates, reasons and joined names |
| Witnesses.FailedSaveNotRetried | ingest/manager.go:257-265 | a run in which the first save fails, the next refresh, with a working store, does not save, and a restart loses the anchor both served |
| Witnesses.RestartDecides | ingest/manager.go:399-422 | a run with every save successful in which the next refresh drops a waiting anchor without a restart and keeps it with one, under different ids |
| Witnesses.SkipDropsHeld | ingest/pipeline.go:463-466 | a run in which a refresh that matches the digest drops a waiting anchor, and one that reads the same bytes keeps it |
| Witnesses.MergeNarrows | trust/extract.go:315-359 | a list granting a certificate for every use serves seals with it; with a second, signature-only entry it does not |
| ReportWitnesses.FailedEntryVanishes | ingest/manager.go:399-409 | a run in which a failed territory leaves the set and no change is reported |
| ReportWitnesses.SlashHidesSkip | ingest/manager.go:426-445 | a run in which a skip changes provider and service name and no change is reported |
| ReportWitnesses.InternalCodeTies | trust/diff.go:86-103 | a run whose first diff has more than one order |

## Left out

- XML parsing, canonicalisation and XML signatures (tsl/): functions of the `World`; only the pinned-signer rule and the missing-sequence refusal are modelled.
- X.509 and ASN.1 decoding and key naming (trust/certbody.go, trust/keyinfo.go, trust/certs.go): a function from bytes to parsed, structural or refused.
- YAML decoding, file reading and the bootstrap manifest: the model starts from decoded entries and a decoded bootstrap.
- HTTP fetching, the allow-list's matching rules, size caps and timeouts: bytes, failure or refusal per request.
- Store backends and load errors at start-up: one store with saves that may fail; JSON round trips of a snapshot and the deep copy made for an approval are the identity on values.
- HTTP routes, authentication, configuration binding and scheduling: only the rule that an equal id answers 304 is used.
- Logs, gauges, inventory and the refresh-failure, pending-approved and held-for-approval events; the events of diff entries and of approvals are modelled.
- Unicode: case folding and trimming are ASCII only, and strings compare by code point.
- Ties of the unstable sorts: sorting is one fixed function here. The results above that speak of multisets, keys or uses hold for any tie order; the type and status time of an anchor merged from entries with the same two names, and which of two pivot URLs with one number is fetched, depend on it.
- Saturation of time differences: instants and durations are integers.
- Shared slices between anchors of one service: anchors are values, except in the storage of hold mode.
- Concurrency: mutations are serialized by the manager's lock, so a run is a sequence of steps; the configuration and the bootstrap are fixed along a run.
- Differences.BuildIndex: keys are pairs and triples rather than joined texts; Differences.JoinedKeyIff says when that could matter.
- Extractor.CollectCandidates: leaves out the aggregate warnings about service types outside policy, which name no service and reach only the log; so does Extractor.ExtractAnchors.
- Extractor.ExtractAnchors: as for Extractor.CollectCandidates.
- Cycle.Refresh: does not store the diff in the snapshot, because its order may depend on map iteration; Differences.ComputeDiff relates it to the two snapshots instead.
- Manager.TrustManager.Initialize: leaves out seeding the bootstrap from a file and load errors of the store.
- Hold.JoinedLookup: hold mode is modelled with pairs for keys; this lemma says that the joined texts of the source look up alike.
- Filter.EtagSound: certificates as a multiset, because the id does not determine the order of a bundle; Answers.PemAlikeIff has the sequences.
- Answers.JsonAlikeIff: leaves out the stale flag of the body, which depends on the clock and the next updates.
- ExtractionSpec.ExtractOrderFree: covers certificate, status, uses as a set and QSCD, because the type and status time of entries with the same names are not ordered.
