# Browser handoff service: verified model

Three parts of the browser handoff service, modelled in Dafny and proved about all inputs and all runs.

**The cookie-jar store.** `Tombstones` is the revocation log with its MAC chain, the signed copy of the
high-water beside it, and `record`. `CookieScope` is the filter that decides which cookies and storage a jar
may hold and how a refresh may narrow its scope. `JarEnvelope` is sealing and opening, `JarStore` the store
itself: save, refresh, load, invalidate, delete, touch and probe over one directory. `JarRuns` lets any
processes do these in any order, each cut short anywhere, with an environment that puts back old files and
rewrites one revocation copy between them; `JarGuarantees` says what holds over such runs. `JarTears` is about
log appends that are cut short, `JarCounting` about exact generations and scopes, `JarContents` about what a jar
holds, `JarBookkeeping` about what every step makes of a jar's file, against a plain record without seals.

**The session protocol.** `Leases` is the table of transitions. `Sessions` is one browser session with its
worker, its tokens and every operation the registry performs under the session's lock. `SessionRuns` lets
these follow each other in any order. `SessionOutcomes` is the rule book they are proved against: what each
operation needs, and where it leaves lease, deadline, tokens, page and confinement. `KillSwitch` sets a
session's run beside a run of the jar directory. `Autofill` adds the release of a credential into a login
form, `AutofillOutcomes` says which check refuses a call and when the form is filled, `AutofillRuns` is its
ledger over runs, and `AutofillSessions` shows that a run with such calls is a run of the session, so that what
holds of the one holds of the other.

**The ref walker.** `RefWalker` is the script that stamps refs on a page and the script that resolves them,
`RefGuarantees` what one snapshot promises on any page, `RefRuns` what holds over snapshots, edits and
navigations.

Each operation is written twice: once as a function from old to new state, about which the properties are
proved, and once as a method that changes fields step by step and is proved to compute that function. MACs and
sealing are constructors: a tag or a sealed blob exists only if the code made it. Clocks, random ids, the
answers of the credential broker and everything the page does are inputs.

Where the code does not do what its documentation or comments say, the model follows the code:

- `record` promises that a tombstone it returned from is durable. If the log ends inside a line, the next
  append is glued to that line and both are lost, so a tombstone that was in effect can vanish with a wholly
  successful record about another jar (`TornLogLosesATombstone`). `RecordBlocks` says for every id and
  generation what is blocked after a record, from the files before it: what is blocked without the torn line,
  and the new entry unless the log was torn and the anchor write failed. The runs of `JarRuns` contain
  appends cut short at any point. An entry outlasts every later append exactly if it was appended whole on a
  line of its own or followed by the anchor: `DurableEntryBlocks` says so of the files, for every step, id and
  generation, `FilesHoldTheDurable` for whole runs, and `RevocationIsPermanent` that it stays so.
- A handoff token is meant to live only while its handoff is pending, a handover token likewise. A session is
  registered before its worker starts, so both may be out when the start fails; the session then fails with
  its tokens as they are. `TokensFitUnlessStranded` says that this is the only way, over whole runs, and
  `StrandedTokensAreReachable` gives a run for each kind of token.
- Completing into a resumable session does not spend the control token; it authorises again after the next
  claim (`ResumingLeavesTheControlToken`).
- The service promises that a ref names one node and that no number is issued twice to a caller who threads
  the counter. Both fail. Between snapshots the worker's counter is coerced back to 2^53 - 2^32, so two
  ordinary pages with one button each, nothing forged on them, share a ref exactly if the caller's first
  counter has reached that cap (`CappedCounterCollides`). Over every run, whatever the pages do to their stamps,
  fresh numbers stay above all earlier ones if and only if no number from the cap on has been listed
  (`NewUntilTheCap`); over every run whose pages leave the stamps alone, the counter has stayed within the cap
  if and only if no further page makes a number name two nodes (`OneNodeUntilTheCap`). Within one snapshot the
  script's own counter stops at 2^53: for every page with stamps up to that number `ListedRefsAreDistinct` says
  exactly when its refs are distinct and `ResolverAcceptsTheListing` exactly when all of them resolve;
  `StampAtTheLimitCollides` is a page that breaks both.
- A cookie is meant to be kept exactly if it would be sent to a declared origin. Section 5.1.3 of RFC 6265
  allows the match on a suffix of the host only where the host is a name; the code does not ask, and keeps a
  cookie for `.0.0.1` where `10.0.0.1` is declared (`AddressTailIsSent`). `DomainMatchUnlessAddress` says that
  this is the only disagreement.
- A refresh stopped between log append and rename can be made again, unless its tombstone is in effect and the
  generation on disk has reached 2^63 - 1 (`StoppedRefreshIsRecoverable` is an if and only if).

## Model

| member | source | states |
|---|---|---|
| Tombstones.FoldIsAJoin | browser_handoff_service/jars.py:455-460 | folding depends only on the set of entries: any order, any repetition, the same marks |
| Tombstones.ReplayBelievesOnlyTheChain | browser_handoff_service/jars.py:462-492 | whatever lines are put anywhere into the log, copies of written lines included, replay reads exactly the written chain while it is still there |
| Tombstones.RecordFoldsExactly | browser_handoff_service/jars.py:522-578 | recording is one fold of the entry into what the copies hold without a torn last line; on a torn log with a failing anchor write it only drops that line |
| Tombstones.BlockedIsBarred | browser_handoff_service/jars.py:580-609 | blocked, with its reason, deleted and the high-water are read off the same marks; an unreadable log blocks and deletes everything and stands at the terminal marker |
| Tombstones.RecordBlocks | browser_handoff_service/jars.py:537-578 | for every id and generation, from the files before the call: blocked after a record is what was blocked without a torn last line, and what the entry names unless the log was torn and the anchor write failed |
| Tombstones.TornTombstoneStays | browser_handoff_service/jars.py:551-555 | a blocked generation stays blocked through a record about another jar exactly if it is blocked without the torn last line |
| Tombstones.PartialAppend | browser_handoff_service/jars.py:551-555 | an append cut short destroys nothing but an earlier torn line and adds at most a line that the next append destroys |
| Tombstones.TornLogLosesATombstone | browser_handoff_service/jars.py:537-578 | a log holding one valid tombstone complete but for its newline, as a process ending inside the append leaves it: recording it again with a failing anchor write unblocks it, and so does a wholly successful record about another jar |
| Tombstones.OneIntactCopySuffices | browser_handoff_service/jars.py:494-535 | with the log as written or the latest signed anchor intact, the combined high-water is the join of everything recorded, whatever the other copy holds |
| Tombstones.RecordKeepsProvenance | browser_handoff_service/jars.py:537-578 | after recording, every authentic line and every mark of the anchor still comes from a recorded entry |
| Tombstones.RotationKeepsHighWater | browser_handoff_service/jars.py:537-578 | one record with its anchor under a new first key keeps the whole high-water after all older keys are dropped, whatever log and anchor held |
| Tombstones.RotationIsExact | browser_handoff_service/jars.py:537-578 | and where everything recorded was in effect, exactly that and the new entry is in effect after the rotation |
| Tombstones.DroppedKeySilencesTheChain | browser_handoff_service/jars.py:462-492 | after that rotation the chained log alone verifies nothing |
| Tombstones.TombstoneStore.ReplayLog | browser_handoff_service/jars.py:462-492 | the loop over the log computes the replay function, an unreadable log is reported |
| Tombstones.TombstoneStore.ReadSignedAnchor | browser_handoff_service/jars.py:498-520 | the signed copy is believed exactly if its MAC was made over it under a configured key |
| Tombstones.TombstoneStore.ReplayBoth | browser_handoff_service/jars.py:522-526 | both copies are joined |
| Tombstones.TombstoneStore.BlockedReason | browser_handoff_service/jars.py:580-592 | why a generation is blocked, by the combined high-water |
| Tombstones.TombstoneStore.Deletion | browser_handoff_service/jars.py:594-599 | whether the id is deleted; unreadable counts as deleted |
| Tombstones.TombstoneStore.Mark | browser_handoff_service/jars.py:601-609 | the high-water of an id; unreadable counts as the terminal marker |
| Tombstones.TombstoneStore.Record | browser_handoff_service/jars.py:537-578 | append first, anchor second, ending anywhere in between and inside the append; with an unreadable log nothing is written and the call fails |
| CookieScope.DomainMatchIsLabelSuffix | browser_handoff_service/jars.py:296-303 | the textual test on a dotted domain is a suffix match by host labels |
| CookieScope.DomainMatchUnlessAddress | browser_handoff_service/jars.py:296-303 | that test agrees with section 5.1.3 of RFC 6265 if and only if the host is no IP address or the domain no proper suffix of it; there it matches and the section does not |
| CookieScope.AddressTailIsSent | browser_handoff_service/jars.py:287-307 | a cookie for `.0.0.1` counts as sent to `10.0.0.1`, against that section |
| CookieScope.ComparedDomain | browser_handoff_service/jars.py:292-299 | a domain is compared without its leading dots and in lower case, otherwise character by character as it stands |
| CookieScope.KeptCookies | browser_handoff_service/jars.py:287-307 | kept are exactly the cookies a browser sends to some declared origin (domain by that section, host-only by equality, Secure by https) and those for the tail of a declared address |
| CookieScope.SiftMembers | browser_handoff_service/jars.py:340-347 | a cookie is kept if and only if it was there and some declared origin receives it |
| CookieScope.SiftIsPerCookie | browser_handoff_service/jars.py:340-347 | whether a cookie is kept depends on it alone, and kept cookies stay in order |
| CookieScope.KeptStorage | browser_handoff_service/jars.py:361-366 | storage is kept if and only if its origin is exactly a declared one, and none where only cookies are wanted |
| CookieScope.StatisticsMatch | browser_handoff_service/jars.py:350-376 | counts, the two session flags and the earliest expiry are those of the kept state, spelled out by its cookies |
| CookieScope.EarliestIsLeast | browser_handoff_service/jars.py:350-359 | the recorded earliest expiry is that of a kept cookie and none of them expires before it |
| CookieScope.KeepSent | browser_handoff_service/jars.py:340-359 | the loop over the cookies keeps those that are sent and finds their earliest expiry, and whether session or persistent ones are among them |
| CookieScope.FilterStorageState | browser_handoff_service/jars.py:318-376 | the accumulating loops compute the filtered state, and statistics that match the kept list |
| CookieScope.FilteringComposes | browser_handoff_service/jars.py:318-376 | filtering to a wider scope and then a narrower one is filtering to the narrower one |
| CookieScope.RefreshOnlyNarrows | browser_handoff_service/jars.py:1243-1286 | a refresh scope is accepted if and only if every request stays inside the stored scope; it is what was requested, storage mode included, and what is stored where nothing was |
| CookieScope.RefreshListsAreSorted | browser_handoff_service/jars.py:1258-1279 | requested origins come out once each and sorted by their texts, stored ones as they are |
| JarEnvelope.NormalizeIsIdempotent | browser_handoff_service/jars.py:145-155 | normalising a label twice is normalising it once, so bound data can be rebuilt |
| JarEnvelope.NormalizeKeepsTheText | browser_handoff_service/jars.py:145-155 | a normalised label is the printable text but for blanks at either end and what is beyond the maximum length |
| JarEnvelope.PrintableIsPerGlyph | browser_handoff_service/jars.py:151 | whether a character is dropped depends on it alone |
| JarEnvelope.SealThenOpen | browser_handoff_service/jars.py:810-911 | a record the store seals opens again to the metadata and payload that went in |
| JarEnvelope.OpenDetectsTampering | browser_handoff_service/jars.py:688-705 | opening succeeds exactly if every bound field is as sealed, up to the order of the two origin lists and label normalisation |
| JarStore.FourViewsAgree | browser_handoff_service/jars.py:940-983 | for any file contents, load, recheck, listing and single read agree on whether a jar is usable, and an unreadable log makes all four say no |
| JarStore.JarStore.SaveJar | browser_handoff_service/jars.py:1054-1229 | a save as one function of directory and request, with its error cases and the point where it stopped |
| JarStore.JarStore.FindTarget | browser_handoff_service/jars.py:1121-1136 | refusal of deleted ids, of the terminal marker and of a revoked precondition, before the file is read |
| JarStore.JarStore.BuildVersion | browser_handoff_service/jars.py:1137-1208 | the new version: filtered state, generation above the high-water, retention anchor kept by an agent save |
| JarStore.JarStore.PublishVersion | browser_handoff_service/jars.py:1209-1229 | audit, log append, anchor, rename, in this order, stopping anywhere, inside the append too |
| JarStore.JarStore.LoadJar | browser_handoff_service/jars.py:1295-1311 | load with its error cases |
| JarStore.JarStore.InvalidateJar | browser_handoff_service/jars.py:1381-1426 | the generation read is tombstoned, or the terminal marker where the file is missing or does not open; the file is re-sealed or stamped |
| JarStore.JarStore.DeleteJar | browser_handoff_service/jars.py:1436-1456 | the id is marked deleted before its file is removed |
| JarStore.JarStore.TouchLoaded | browser_handoff_service/jars.py:1359-1372 | only the unbound load time changes |
| JarStore.JarStore.Reserve | browser_handoff_service/jars.py:1481-1508 | a probe is reserved only for an unrevoked file of the expected generation, at most every fifteen minutes |
| JarStore.JarStore.StampProbe | browser_handoff_service/jars.py:1510-1540 | a probe result goes only into the generation that was probed |
| JarStore.JarStore.ListMeta | browser_handoff_service/jars.py:940-983 | the loop over the directory shows each id as the listing function says |
| JarRuns.SavedMeta | browser_handoff_service/jars.py:1137-1229 | what a successful save puts on disk, every field of the metadata: label, scope, owner, generation, retention anchor, version, times, saver, statistics; the audit entry; the sealed payload |
| JarRuns.RunKeepsInv | browser_handoff_service/jars.py:1054-1540 | in every reachable state the copies hold at least what is durable and at most what was recorded; every seal that was ever on disk was audited, inside the first scope and no younger than the latest human save, holds only cookies and storage of its own origins, and is flagged exactly if it holds a session cookie |
| JarGuarantees.RevocationIsPermanent | browser_handoff_service/jars.py:580-609 | over any run, torn logs included, the durable high-water never falls and stays in effect; what is blocked or deleted durably is blocked or deleted ever after |
| JarGuarantees.InEffectIsSecured | browser_handoff_service/jars.py:580-609 | as long as no append was lost, blocked, deleted and the high-water are exactly the durable ones |
| JarGuarantees.DurableEntryBlocks | browser_handoff_service/jars.py:551-578 | at every step of every process, for every id and generation: blocked or deleted by the files afterwards, a torn last line aside, is what was so before and what the entry names, if and only if the append was whole and had a line of its own or was followed by the anchor |
| JarGuarantees.FilesHoldTheDurable | browser_handoff_service/jars.py:522-578 | over every run with nothing put back the high-water in the files, a torn last line aside, is the join of the durable entries |
| JarGuarantees.InEffectUpToTheTear | browser_handoff_service/jars.py:580-609 | so there blocked, deleted and the high-water are exactly the durable ones, appends that were cut short or lost among them |
| JarTears.RevocationOutlastsTears | browser_handoff_service/jars.py:551-555 | with nothing put back, what is blocked without a torn last line stays blocked whatever appends are cut short later |
| JarTears.TornRevocationIsLost | browser_handoff_service/jars.py:551-555 | and what is blocked only by a torn last line does not outlast the next record about another jar: an if and only if at every step of a run |
| JarTears.AppendCutShort | browser_handoff_service/jars.py:622-659 | a refresh that ends inside the append on a whole log leaves the old version as loadable as it was, or revoked exactly if the line got through but for its newline |
| JarTears.LoadReadsInTurn | browser_handoff_service/jars.py:462-526 | load reads file, log and anchor one after another; what it accepts was loadable when the file was read, a torn last line aside |
| JarGuarantees.DeleteIsForever | browser_handoff_service/jars.py:1436-1456 | after a delete whose entry is durable no version of the id loads, is listed or is refreshed at any later point, whatever is put back |
| JarGuarantees.InvalidationCoversTheIdsPast | browser_handoff_service/jars.py:1381-1426 | after an invalidation that found the newest version in place and whose entry is durable, no version published before it ever loads |
| JarGuarantees.RefreshPublishesAbove | browser_handoff_service/jars.py:1121-1185 | a refresh publishes strictly above every tombstone, opens to exactly the filtered state, loads unless its retention is over, and blocks what it supersedes exactly if the log was whole, the anchor landed or it was blocked already |
| JarGuarantees.RefreshIsCrashConsistent | browser_handoff_service/jars.py:1209-1229 | wherever a refresh stops, on any log, the file is the old or the new version; the old one is tombstoned when the new one is there exactly under that condition; before the append nothing but the audit changed; audit comes first |
| JarGuarantees.StoppedRefreshBlocks | browser_handoff_service/jars.py:622-659 | what is blocked, for the id and every other one, once a refresh has reached the log, wherever it stopped from there on |
| JarGuarantees.StoppedRefreshIsRecoverable | browser_handoff_service/jars.py:1121-1136 | a refresh stopped inside the append or between it and the rename succeeds when repeated without a precondition if and only if its tombstone is not in effect or the generation is below the terminal marker |
| JarGuarantees.RevokedPreconditionPublishesNothing | browser_handoff_service/jars.py:1129-1136 | a save whose captured generation is blocked under the store's lock changes nothing |
| JarGuarantees.LoadNeedsNoLock | browser_handoff_service/jars.py:1295-1311 | even with files put back meanwhile, what a load accepts was loadable as a whole when the file was read, if nothing recorded until then was lost |
| JarGuarantees.WhatLoadsIsGenuine | browser_handoff_service/jars.py:1295-1372 | whatever loads after any tampering was sealed for this id, audited, inside the first scope; each cookie in it is sent to one of its origins, all storage belongs to one, and if a session cookie is in it, it loads no later than latest human save plus retention |
| JarGuarantees.TerminalMarkerBlocksAll | browser_handoff_service/jars.py:98-100 | with at most 2^63 - 1 saves a durable terminal marker blocks every version ever published and the id is never refreshed again |
| JarCounting.GenerationsCountSaves | browser_handoff_service/jars.py:1163-1208 | with no file put back, the generation on disk is the version and the number of saves and the retention anchor is the latest human save; the high-water does not pass it unless terminal, and is that or one less where no append was lost |
| JarContents.SavedLoads | browser_handoff_service/jars.py:1054-1229 | a successful save leaves a record that opens to its metadata and exactly the filtered state, and loads until its retention runs out |
| JarContents.LoadReturnsWhatWasSaved | browser_handoff_service/jars.py:1295-1372 | until the next save of the id, through any touches, probes, invalidations and saves of other jars, what loads is exactly the filtered state that was saved |
| JarContents.SavedScope | browser_handoff_service/jars.py:1137-1160 | the scope a save leaves: the valid origins asked for in a new jar; in a refresh what was requested and otherwise what was stored, the storage mode included; a refresh that asks for cookies only seals no storage |
| JarBookkeeping.SavedExactly | browser_handoff_service/jars.py:1054-1161 | a save is accepted if and only if sizes, probe, origins, tombstones, precondition, stored file and scope allow it |
| JarBookkeeping.WhyNotSaved | browser_handoff_service/jars.py:1119-1229 | the error a refused save answers with, by the first thing that stands against it |
| JarBookkeeping.WhyNotLoaded | browser_handoff_service/jars.py:1295-1311 | the error a load answers with, each with its exact condition on file, tombstones and clock |
| JarBookkeeping.StepMovesTheRecord | browser_handoff_service/jars.py:1359-1540 | every step that publishes no version of a jar leaves its contents alone and moves its metadata as a plain record says, or removes the file, if and only if it is a delete that gets through |
| JarBookkeeping.FileFollowsTheRecord | browser_handoff_service/jars.py:1359-1540 | over runs, from one version to the next: the file is there if and only if no delete got through, and opens to the saved contents and the metadata of the plain record |
| JarBookkeeping.DeleteRemovesTheFile | browser_handoff_service/jars.py:1436-1470 | an accepted delete takes away the file of its id and no other, or, where removing fails, none |
| JarBookkeeping.DeletedFileStaysGone | browser_handoff_service/jars.py:1436-1456 | with nothing put back, no file of a deleted id ever exists again, whether or not the tombstone lasts |
| JarBookkeeping.InvalidateStampsTheFile | browser_handoff_service/jars.py:1381-1434 | an invalidation is refused only without keys or with an unreadable log; it marks the file as invalidated and touches no other |
| JarBookkeeping.InvalidatedFileStaysShut | browser_handoff_service/jars.py:1381-1434 | after an invalidation that reached the file nothing of the id loads until a version is published again, even where the tombstone is lost with a torn line |
| JarBookkeeping.ReservedExactly | browser_handoff_service/jars.py:1481-1508 | a probe is reserved if and only if the file opens at the expected generation, is unrevoked and was not probed for fifteen minutes |
| JarBookkeeping.ResultLandsExactly | browser_handoff_service/jars.py:1510-1540 | a probe result lands in a file if and only if it opens at the generation that was probed; what is answered, and that nothing else changes |
| JarBookkeeping.ProbesAreApart | browser_handoff_service/jars.py:1481-1508 | over runs, two probes of one version are at least fifteen minutes apart, whoever reserves them |
| JarBookkeeping.ListingTells | browser_handoff_service/jars.py:940-983 | which ids are listed, and with what: the sealed metadata, marked where the jar no longer loads, or a stub where it does not open |
| JarBookkeeping.SingleReadTells | browser_handoff_service/jars.py:925-938 | the annotated read of one jar shows what the listing shows of it |
| JarCounting.ScopeOnlyShrinks | browser_handoff_service/jars.py:1243-1286 | along any such run the scope of an id only shrinks |
| Leases.TransitionsFollowTheLease | browser_handoff_service/transitions.py:20-54 | a transition from the right owner leads to the right owner; terminal states lead nowhere; which refusals depend on the owner |
| Leases.AllowedExactly | browser_handoff_service/transitions.py:20-54 | which transitions are allowed to which owner: an if and only if against the graph of states |
| Leases.ReturnToAgent | browser_handoff_service/transitions.py:20-35 | the agent gets the lease back only from a requested handover or a pending sanitisation |
| Leases.SensitiveIsOneWay | browser_handoff_service/transitions.py:20-54 | every path of transitions from the sensitive state stays there or ends |
| Sessions.Worker.EvictOffScopePage | browser_handoff_service/runtime.py:922-930 | a page outside the guarded set is blanked |
| Sessions.Worker.Command | browser_handoff_service/runtime.py:948-981 | a navigation outside the guarded set leaves the page where it is; closing drops it |
| Sessions.Session.constructor | browser_handoff_service/registry.py:253-334 | the registered session: confinement, denial of exec, lease and deadlines |
| Sessions.Session.FinishStart | browser_handoff_service/registry.py:335-390 | failed start, recheck of the seeded jar, guard dropped for a human, control token |
| Sessions.Session.RequestHandoff | browser_handoff_service/registry.py:398-438 | whole new state and refusals |
| Sessions.Session.ClaimHandoff | browser_handoff_service/registry.py:440-465 | whole new state and refusals |
| Sessions.Session.SanitizeForResume | browser_handoff_service/registry.py:1435-1447 | the page is closed, or the session fails for want of a worker |
| Sessions.Session.ReopenConfinedPage | browser_handoff_service/registry.py:1449-1464 | a page is opened only where there is a confinement set and a live worker |
| Sessions.Session.HumanComplete | browser_handoff_service/registry.py:467-487 | whole new state and refusals, the sanitised way included |
| Sessions.Session.HumanCancel | browser_handoff_service/registry.py:489-499 | whole new state and refusals |
| Sessions.Session.ReadyForHandover | browser_handoff_service/registry.py:523-538 | an authenticated-site session is sanitised and reopened first |
| Sessions.Session.RequestHandover | browser_handoff_service/registry.py:501-552 | whole new state and refusals |
| Sessions.Session.ClaimHandover | browser_handoff_service/registry.py:554-587 | whole new state and refusals, tokens revoked, guard re-asserted |
| Sessions.Session.ExtendIdle | browser_handoff_service/registry.py:589-598 | whole new state and refusals: the idle deadline is raised to the requested one, capped by the fixed end |
| Sessions.Session.Sensitive | browser_handoff_service/registry.py:600-611 | whole new state and refusals |
| Sessions.Session.RemoteInput | browser_handoff_service/main.py:1507-1520 | every message from the human's screen is authorised and checked against revocation first |
| Sessions.Session.AgentCommand | browser_handoff_service/registry.py:636-690 | order of the checks, then the command; failure without a worker |
| Sessions.Session.CloseSession | browser_handoff_service/registry.py:692-701 | whole new state |
| Sessions.Session.EnforceNotRevoked | browser_handoff_service/registry.py:1254-1268 | a revoked session is cancelled and cleaned up, a terminal one is left alone |
| Sessions.Session.CloseForRevokedJar | browser_handoff_service/registry.py:1301-1317 | every live session that loaded or saved the jar is closed, no other |
| Sessions.Session.ReapIfExpired | browser_handoff_service/registry.py:1408-1421 | whole new state |
| Sessions.Session.CleanUp | browser_handoff_service/registry.py:1423-1433 | all tokens spent, worker closed |
| Sessions.Session.RevokeTokens | browser_handoff_service/registry.py:1492-1499 | the loop spends exactly the tokens of the kind |
| Sessions.Session.SaveJar | browser_handoff_service/registry.py:952-1127 | the checks around the export and what an accepted save changes |
| Sessions.Session.AdoptSaved | browser_handoff_service/registry.py:1092-1119 | a session that refreshed its own jar moves to the new generation and scope, its worker and page included |
| SessionRuns.RunKeepsInv | browser_handoff_service/registry.py:398-745 | the invariant over lease, tokens, guard, page and worker log in every reachable state, autofill calls included |
| SessionRuns.LeaseAndTokens | browser_handoff_service/registry.py:692-701 | the owner is a function of the state; terminal only to terminal; an unspent handoff or handover token is unique and its request pending, but for a start that failed while one was out; an active agent leaves the human no token |
| SessionRuns.FailedStartStrands | browser_handoff_service/registry.py:335-341 | a failed start leaves tokens and state out of step if and only if an unspent handoff or handover token was out |
| SessionRuns.TokensFitUnlessStranded | browser_handoff_service/registry.py:335-341 | over runs: tokens are in step with the state at every point if and only if no start failed while such a token was out |
| SessionRuns.StrandedIsUseless | browser_handoff_service/registry.py:1480-1511 | a token left behind by a failed start can claim, cancel and take back nothing |
| SessionRuns.StrandedTokensAreReachable | browser_handoff_service/registry.py:324-341 | a run from creation that strands a handoff token, and one that strands a handover token |
| SessionRuns.TokenSpentOnce | browser_handoff_service/registry.py:1501-1511 | claiming, cancelling and taking back succeed at most once for a token |
| SessionRuns.ResumingLeavesTheControlToken | browser_handoff_service/registry.py:467-487 | a completion leaves the control token unspent if and only if it makes the session resumable; there the old token authorises again after the next claim |
| SessionRuns.ShutDoorsStayShut | browser_handoff_service/registry.py:398-438 | after the sensitive mark, or human control of a jar-loaded session that is not an authenticated-site one, no agent command reaches the worker in any continuation |
| SessionRuns.HumanInputIsHidden | browser_handoff_service/registry.py:501-541 | in the worker's log a closed page lies between any human input and the next agent command of an authenticated-site session; a jar-loaded one has no agent command after human input; a resumable one is clean |
| SessionRuns.ResumableIsSanitized | browser_handoff_service/registry.py:467-487 | the step into the resumable state has just closed the page |
| SessionRuns.AgentIsConfined | browser_handoff_service/registry.py:1104-1119 | whenever the agent holds the lease of a confined session, in and after autofill calls too, the guard is on, guards the session's set and the page is inside it; a jarless authenticated-site session always has a set |
| SessionRuns.NothingAfterTheDeadline | browser_handoff_service/registry.py:1474-1478 | nothing reaches the worker at or after the idle deadline or the fixed end |
| SessionRuns.DeniedNeverReachesTheWorker | browser_handoff_service/registry.py:650-668 | in no run does exec reach the worker of a jar-loaded session that did not opt in, nor exec, extract or a transfer chord that of a credential-protected one |
| SessionOutcomes.CreationFixes | browser_handoff_service/registry.py:253-329 | what creation fixes: confinement set, guard, denial of exec, credentials, lease, deadlines |
| SessionOutcomes.StatedIsGranted | browser_handoff_service/registry.py:300-310 | a caller that states the confinement set of an authenticated-site session gets exactly that set, jar or none |
| SessionOutcomes.ConfinedToTheHeldVersion | browser_handoff_service/registry.py:1092-1119 | in every state of a jar-loaded session: generation and confinement set are those of the version it was created from or published last; while the agent holds the lease the guard is on with that set and the page inside it |
| SessionOutcomes.ConfinedToTheGivenOrigins | browser_handoff_service/registry.py:305-318 | a session without a jar stays confined to the origins it was given |
| SessionOutcomes.StepMovesTheJar | browser_handoff_service/registry.py:1092-1119 | no operation but a save of its own jar changes a session's confinement set or generation |
| SessionOutcomes.AcceptedExactly | browser_handoff_service/registry.py:398-745 | in every reachable state an operation is accepted if and only if the rule book grants it: state, deadlines, the right unspent token, the kill-switch, the site |
| SessionOutcomes.AcceptedMoves | browser_handoff_service/registry.py:398-745 | where an accepted operation leaves state, owner, idle deadline, resume mode, every token, guard and worker |
| SessionOutcomes.AcceptedPage | browser_handoff_service/registry.py:467-541 | where it leaves the page, by what the guard lets through, and what it adds to the worker's log |
| SessionOutcomes.RefusedMoves | browser_handoff_service/registry.py:398-745 | a refused operation changes nothing, or ends the session: cancelled for a revoked jar, failed for a lost worker |
| SessionOutcomes.RefusedForAReason | browser_handoff_service/registry.py:398-745 | which error a refused operation answers with: the first thing that stands against it |
| KillSwitch.HeldIsRevoked | browser_handoff_service/registry.py:1278-1299 | a durable tombstone at any earlier point makes the check fire for every session that holds the jar at that generation or below, whatever was published since |
| KillSwitch.RevocationReachesTheSession | browser_handoff_service/registry.py:636-690 | from then on neither agent nor human reaches the worker, and the first operation that gets to the check, an autofill call too, leaves the session cancelled, its worker closed and its tokens spent |
| KillSwitch.SavingKeepsTheSession | browser_handoff_service/registry.py:1092-1119 | a session's own save never makes the check fire on it |
| KillSwitch.OtherJarsSpareTheSession | browser_handoff_service/registry.py:1278-1299 | nothing done to other jars makes the check fire, and on a whole log nothing done to them stops it from firing |
| KillSwitch.HarmlessStepsSpareTheSession | browser_handoff_service/registry.py:1278-1299 | loading, probing and saves that fail before the log, of the session's own jar too, never make the check fire |
| KillSwitch.RevokedSessionNeverPublishes | browser_handoff_service/registry.py:1042-1061 | a revocation anywhere before the store takes its lock keeps a session with a captured generation from publishing |
| KillSwitch.CreationIsRechecked | browser_handoff_service/registry.py:342-356 | creation hands a jar-loaded session out exactly if, at the recheck, the jar loads and the seeded generation is unrevoked; otherwise it is torn down |
| KillSwitch.CreationLosesTheRace | browser_handoff_service/registry.py:342-356 | a revocation of the seeded generation before the recheck refuses it even where a newer generation loads |
| Autofill.Autofiller.CheckGate | browser_handoff_service/registry.py:747-763 | the refusals before anything is touched |
| Autofill.Autofiller.PinDocument | browser_handoff_service/registry.py:767-809 | a step keeps its first pin; a new one puts a nonce into the document of the page |
| Autofill.Autofiller.AskBroker | browser_handoff_service/registry.py:813-855 | the request repeats the pin's data; pending, denied and expired answers |
| Autofill.Autofiller.InspectGrant | browser_handoff_service/registry.py:857-872 | the grant must be usable and cover the pinned origin |
| Autofill.Autofiller.ReadSecret | browser_handoff_service/registry.py:874-886 | document, deadline and revocation are verified before the single read, which is counted |
| Autofill.Autofiller.PlaceValues | browser_handoff_service/runtime.py:1880-1933 | the loop verifies the document before each value and stops at the first that fails |
| Autofill.Autofiller.Autofill | browser_handoff_service/registry.py:722-745 | the whole call under the lock |
| Autofill.Autofiller.RecordOutcome | browser_handoff_service/registry.py:705-720 | a bad password is latched only by an agent that holds the lease |
| AutofillOutcomes.FirstRefusal | browser_handoff_service/registry.py:747-872 | a call answers with the first check that fails, in the order of the checks, from the deadlines to the granted origin |
| AutofillOutcomes.RefusedReadsNothing | browser_handoff_service/registry.py:813-872 | what a call refused by the broker or the grant leaves: the request and the inspection, no read; a grant for another host ends it as a wrong origin |
| AutofillOutcomes.FilledExactly | browser_handoff_service/registry.py:722-915 | on a page that stays, the form is filled if and only if no check refuses, the document is the pinned one and every target has a value; one request, one inspection, one read, one value for each target |
| AutofillOutcomes.ReportTells | browser_handoff_service/registry.py:705-720 | who may report the outcome, and what a bad password latches |
| AutofillRuns.EveryReadIsChecked | browser_handoff_service/registry.py:813-886 | reads equal the fill count, at most six; each follows a request for its step and origin and an inspection of a grant for autofill, unrevoked, unexpired by the broker's clock, with uses left, that names the lower-cased host and the port of that https origin |
| AutofillRuns.NothingAfterTheLatch | browser_handoff_service/registry.py:754-755 | after a reported bad password there is no request, read or fill |
| AutofillRuns.RequestsRepeatUntilTheRead | browser_handoff_service/registry.py:767-829 | requests for a step with no read in between are identical |
| AutofillRuns.ValuesStayInTheirDocument | browser_handoff_service/runtime.py:1139-1155 | a value is placed only in the document its nonce was put into, and comes from the read of its own step and origin |
| AutofillRuns.RequestsStayInScope | browser_handoff_service/registry.py:748-790 | the broker is asked only for the session's own credential and for an https origin inside the confinement set as it is at the call, whatever an earlier call pinned |
| AutofillRuns.RunAdds | browser_handoff_service/runtime.py:1087-1137 | a nonce stays with its document for good, and the ledger only grows |
| AutofillRuns.RevocationStopsTheRelease | browser_handoff_service/registry.py:722-745 | each of the three checks stops what follows it: requests, the read, the fills |
| AutofillRuns.RevocationReachesTheRelease | browser_handoff_service/registry.py:883-904 | a durable tombstone by any process before a check ends the release at that check |
| AutofillSessions.SubmitIsOneTurn | browser_handoff_service/registry.py:722-745 | an autofill call, with all its waits and checks, does to the session what one operation of it does |
| AutofillSessions.VaultRunIsSessionRun | browser_handoff_service/registry.py:722-745 | every run with autofill calls and reports is a run of the session, operation by operation |
| AutofillSessions.VaultKeepsInv | browser_handoff_service/registry.py:722-915 | the session's invariant holds in every state of such a run |
| AutofillSessions.AgentIsConfinedThroughout | browser_handoff_service/registry.py:722-915 | and so does confinement, whatever the page navigates to while a call waits |
| AutofillSessions.ShutDoorsStayShutThroughout | browser_handoff_service/registry.py:722-735 | behind a shut door no agent command reaches the worker, the broker is asked nothing and no credential is read or placed |
| AutofillSessions.RevocationReachesTheVault | browser_handoff_service/registry.py:722-745 | from a durable tombstone on, no autofill call asks, reads or places anything, and the first one that gets to the check leaves the session torn down |
| RefWalker.RefReadsBack | browser_handoff_service/runtime.py:428 | a fresh ref reads back as its number |
| RefWalker.VisitIsUnder | browser_handoff_service/runtime.py:381-393 | the walk down lists exactly the elements with a role that the resolver's way up to the body reaches |
| RefWalker.VisitsOnce | browser_handoff_service/runtime.py:438-474 | no element is listed twice |
| RefWalker.VisitsInOrder | browser_handoff_service/runtime.py:438-474 | elements are listed in document order: parents before what is under them, earlier siblings and all under them before later ones |
| RefWalker.WalkIsClosedForm | browser_handoff_service/runtime.py:415-435 | every listed element keeps its ref or gets the next number, which sticks at 2^53, decided by the stamps before the walk alone; all other stamps are untouched |
| RefWalker.Walker.CountCarriers | browser_handoff_service/runtime.py:402-412 | the loop counts the carriers of every well-formed stamp and finds the highest number |
| RefWalker.Walker.List | browser_handoff_service/runtime.py:415-435 | one element is stamped or kept |
| RefWalker.Walker.WalkFrom | browser_handoff_service/runtime.py:438-474 | the recursive walk stamps the listed elements in order |
| RefWalker.Walker.TakeSnapshot | browser_handoff_service/runtime.py:398-488 | the whole script |
| RefWalker.Walker.Resolve | browser_handoff_service/runtime.py:493-506 | the resolver with its causes |
| RefGuarantees.ResolvesExactly | browser_handoff_service/runtime.py:381-393 | on any page, with any stamps: a ref resolves if and only if one element alone carries it, everything up to the body is visible, and it has a role and the role and name of its stamp |
| RefGuarantees.WhyRefused | browser_handoff_service/runtime.py:381-393 | why a carried ref does not resolve: hidden, missing and changed, each with its exact condition |
| RefGuarantees.NoSoleCarrierIsMissing | browser_handoff_service/runtime.py:497-501 | a ref that no element carries alone is missing |
| RefGuarantees.ListedRefsAreDistinct | browser_handoff_service/runtime.py:402-435 | on any page with stamps up to 2^53, clones and forgeries included, listed refs are distinct if and only if the numbers last: fresh refs end at 2^53, and with that number already on the page at most one element needs a fresh one and no other listed element keeps it |
| RefGuarantees.ResolverAcceptsTheListing | browser_handoff_service/runtime.py:493-506 | right after a snapshot whatever resolves was listed, and to the node it was listed for; all listed refs resolve if and only if the numbers lasted and no unlisted element carries a number given out |
| RefGuarantees.SnapshotTwice | browser_handoff_service/runtime.py:398-488 | a second snapshot of the unchanged page with the returned counter gives the same refs, stamps and counter, whether or not the numbers lasted |
| RefGuarantees.StampAtTheLimitCollides | browser_handoff_service/runtime.py:402-435 | a forged stamp with number 2^53 makes two elements share a ref |
| RefRuns.PageWorker.SnapshotDocument | browser_handoff_service/runtime.py:1836-1839 | the worker threads its own counter and the caller's |
| RefRuns.CoercedToTheNearest | browser_handoff_service/runtime.py:738-749 | a caller's counter comes to the nearest number from 1 to the cap |
| RefRuns.FreshNumbersAreNew | browser_handoff_service/runtime.py:729-749 | over any run, whatever the page does to its stamps: while no number from the cap on was listed, a fresh number is above every number listed before, and above every stamp in the document if and only if none of those has reached 2^53 |
| RefRuns.NewUntilTheCap | browser_handoff_service/runtime.py:738-749 | at every point of any run: no page to move to gets a number that is not above all earlier ones, if and only if no number from the cap on has been listed |
| RefRuns.CapLeavesUnspent | browser_handoff_service/runtime.py:1836-1839 | which is so as long as the counter stays within the cap |
| RefRuns.NumbersNameOneNode | browser_handoff_service/runtime.py:277-282 | where the pages leave the stamps alone and the counter stayed within the cap, no number names two nodes, and after one more walk, whatever counter it leaves, none does if and only if the numbers last for it |
| RefRuns.OneNodeUntilTheCap | browser_handoff_service/runtime.py:1836-1839 | over any such run: the counter stayed within the cap if and only if no move to a page with room and no snapshot there makes a number name two nodes, and if and only if no number from the cap on was listed |
| RefRuns.PassingTheCap | browser_handoff_service/runtime.py:1836-1839 | a walk whose counter passes the cap has itself given out the cap, from which the next page starts |
| RefRuns.CappedCounterCollides | browser_handoff_service/runtime.py:1836-1839 | two ordinary pages one after the other: both buttons are listed under one ref if and only if the caller's first counter has reached the cap |
| RefRuns.RefsAreKept | browser_handoff_service/runtime.py:415-426 | there a listed element keeps the ref it has exactly while role and name match its stamp |
| RefRuns.ListedRefResolves | browser_handoff_service/runtime.py:491-506 | over runs: after a snapshot and any edits that leave the stamps alone, a listed ref resolves if and only if its node has been there ever since, is visible, and has the role and name it was listed with |

## Left out

- JarRuns.RunKeepsInv: one configured key list for a whole run; what rotation keeps is RotationKeepsHighWater. A staged file that a crash leaves behind is not put in place by the environment.
- JarGuarantees.RefreshIsCrashConsistent: the audit log is a sequence of entries; a line of it that is only partly written is not modelled.
- JarStore.JarStore.SaveJar: the sizes of capture and record and the validation of the probe target are inputs; temporary files and directory syncs are folded into the points where a save can stop.
- JarStore.JarStore.ListMeta: the listing is a map; its order by label and time is not modelled.
- CookieScope.KeptCookies: domains are lower-cased for ASCII letters only; an address is one written as four decimal numbers or with a colon, as browsers write it.
- JarEnvelope.NormalizeIsIdempotent: a character is its Unicode class (white space, printable, not printable), not its code point.
- JarEnvelope.OpenDetectsTampering: the bound origin lists are compared as multisets, which is what sorting them textually comes to.
- Sessions.Session.RequestHandoff: whether the page is at the expected origin is an input, because the origin the registry remembers is not part of this model.
- Sessions.Session.SaveJar: ownership of the target and the dedicated save authorisation are one input; the baseline probe of a selector is not modelled.
- Sessions.Session.SanitizeForResume: closing the page does not raise, as in the reference worker; a worker that raises there would leave the real session at rest in the sanitising state.
- Sessions.Session.FinishStart: it may fall between any two operations of the session but not inside one; the best-effort load stamp is JarStore.JarStore.TouchLoaded.
- Sessions.Worker.Command: the confinement guard of the reference worker, whose two setters only assign; the request interception of the real browser is not part of this model.
- AutofillRuns.ValuesStayInTheirDocument: verifying and filling one target is one step.
- Autofill.Autofiller.PinDocument: which fields are chosen is an input; the kinds of field, frames and reveal buttons are not modelled.
- Autofill.Autofiller.ReadSecret: the released secret arrives as a map from field kind to value; its text form is not parsed.
- RefGuarantees.ListedRefsAreDistinct: stamps with numbers above 2^53, where script arithmetic rounds, are excluded; at 2^53 itself StampAtTheLimitCollides shows what happens.
- RefWalker.Walker.TakeSnapshot: the listing is the sequence of nodes in document order; its nesting and the attributes href, value and type are left out.
- RefRuns.NewUntilTheCap: a run is that of one worker; a caller who carries the counter on to another worker is not modelled.
- RefRuns.NumbersNameOneNode: a page that writes stamps or clones stamped nodes makes look-alikes that nothing can tell apart, as the service's README says.
- Several sessions in one registry: they share only the jar directory, so each is modelled beside a run of that directory.
- Event history, discovery of commerce profiles, form factors, time zones, registrable domains, titles and redacted addresses: they decide nothing here.
- HTTP routes, sign-in, the browser launch, typing cadence and the remote screen: foreign calls and plumbing.
- AES-GCM, HMAC, SHA-256, JSON, base64 and URL parsing: symbolic constructors and already parsed values.
