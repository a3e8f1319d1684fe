# Material delivery pipeline

A Dafny model of how a growing coding-agent transcript on one machine becomes numbered,
deduplicated sources in a library on another, and proofs of what that pipeline keeps.

Four state machines are modelled, each with the steps at which it can stop, and composed:

- **The incremental exporter** (`personal/skill/scripts/agent_sessions.py`). `Turns` has the retained
  turns and their subtraction, `Readers` the two transcript readers and the stable sort, `Splitting`
  the cut of an increment into bounded parts, `Exporter` the cursor, the write-ahead journal and the
  pass. `ExactlyOnce` is its invariant, `ExportRuns` whole runs over a growing transcript,
  `CrashTransparency` and `RepeatedCrashes` the equivalence of interrupted and uninterrupted passes,
  `Shortcut` the byte-identity shortcut, and `LateReset` the inputs on which a reset is not safe.
  `Merge` has the copies of one conversation that other devices deliver, `MergedRuns` local passes and
  deliveries together, and `Overtaken` the inputs on which a delivery is not safe. Four modules say
  outright what these operations answer, over rows, turns and copies: `Transcripts` what the readers
  return, `Decisions` what is exported, held or kept out, `Stages` what an order leaves behind, and
  `Observations` which copies are refused and what is remembered of each device.
- **The cloud registry** (`apps/collector-cloud/src`). `Protocol` is the bounded body reader,
  `Registry` the tables, the requests under way and their segments between awaits, `RegistryRuns`
  what holds over every interleaving, `Enrollment` a collector directory that claims invitations.
  `OwnersWord` says, over the history of requests, who may enrol, under which policy and status a device
  is, and what is accepted from it.
- **The two ends of the feed** (`personal/collector/collector.py`,
  `personal/src/pkc_personal/collection.py`). `Snapshots` is what the decoder accepts, `Publisher` the
  outbox, `HostFeed` the page reader, its cache and acknowledgements; `Delivery`, `EndToEnd` and
  `QueueOrder` run both against the registry. `Unreadable` has the bodies that the cloud accepts and the
  host refuses, and `Refused` those that the device accepts and the cloud refuses. `Scopes` says what may
  leave the device and what the upload loop sends, `Acknowledgements` what is pending on the host.
- **The project inventory** (`personal/src/pkc_personal/collection.py`). `Inventory` is the log, the
  projection and a call, `Projections` what a replay is in terms of the rows, `InventoryRuns` when the
  answer is the replay, `InventoryIdentities` when the replay has the identities.

`Failures` is the resolution and retry of failed compiles (`scaffold/templates/app.py`), and `Resolution`
says what the same work is, instruction by instruction.

## How it is modelled

Each machine has a durable state (`Disk`, `State`, `Cache`, `Outbound`, `Shelf`) and a transition
function over it. The classes (`Session`, `Process`, `Recipient`, `CollectorRegistry`, `HostCache`,
`Collector`, `Directory`, `ObservationLog`) have the source's fields and loops, and each method's
postcondition equates the new state with the transition function; the properties are proved about those
functions and about runs of them. A digest is represented by the material it digests and a canonical encoding by
the value it encodes, so both are injective. Instants are integers, text is a sequence of characters,
sizes are unbounded integers. An ingest can stop after the journal file, after the saved receipt,
after the library took the payload, after the saved cursor, or not at all (`Fate`); a crash, a refused
command and an unreadable reply all stop it there. The library keeps one source per payload.

`ExportRuns.Run` covers one session whose transcript only grows, in the sense that what was read before
is still among what is read now. For a Claude Code transcript every append is such a growth
(`ClaudeAppendGrows`); for Codex exactly those are that displace no event without repeating it
(`CodexAppendGrowsIff`). `Exporter.Sync` is the pass over a file whose uncertain ingest is finished
first and which is then skipped by its path. `MergedRuns.PassOver` and `Merge.Receive` are the main loop
as it meets a receipt that is still pending, which the guard by path lets happen for a delivered copy and
for a local file of a session that was first seen elsewhere.

## What is not true of the code

Each has a concrete input and the exact condition under which the code does meet the property.

- A reset decided late (the bytes are intact, but the subtraction fails and the pass may reingest)
  starts from an empty cursor but keeps the old material as `earlier_reference`. If it is cut into
  several parts and stops after one, the counts no longer add up and the next pass exports the same
  turns again. `LateReset.LateResetHappens` gives the transcripts. `MergedRuns.ResetSafeIff`: the
  account holds under every interruption exactly unless something was exported before, the subtraction
  fails, and the transcript takes several parts.
- An increment of several parts that reaches the main loop while a receipt of its session is pending
  overtakes it. The first part settles the old receipt and is itself dropped, the others follow, and the
  last one restores a receipt whose journal is gone: turns that are in no source count as exported, and
  nothing of the session is exported any more. `Overtaken.OvertakenHappens` gives the two copies.
  `MergedRuns.DeliverySafeIff`: a delivery keeps the account under every interruption exactly when
  nothing is pending or there is only one part. `MergedRuns.PassSafeIff` is the same for a pass in either
  mode, except that a reset, which copies no receipt, may also resume: what the settled receipt leaves is
  then what its own first part would have left (`MergedRuns.ResetResumesIff`, `MergedRuns.OwnReset`).
- `read_codex` is not monotone: the first response item of a role displaces that role's event turns, so
  growth can look like a rewrite. `Readers.CodexLateItemLooksRewritten`; `Readers.CodexGrowthIsNoRewriteIff`.
- The largest copy wins only among comparable copies; of two that diverged the first one stays.
  `Merge.OrderFreeIff`.
- A directory whose first claim went through without an answer, run with a second invitation, reuses its
  saved identity and is told that it is registered. `Enrollment.SecondInvitationRefused`;
  `Enrollment.ClaimAnswers` has the condition of every answer.
- The cloud accepts bodies that the host's decoder refuses, and the host's reader then never passes
  that row. `Unreadable.BlockedHappens` is a run from the beginning, `Unreadable.BlockedForGood` says
  that it stays so, `EndToEnd.PageTaken` when a page is taken. This collector never sends such a body:
  `Unreadable.CollectedIsRead`.
- The cloud also refuses session ids that the decoder accepts (long ones and those with a control
  character) and very many turns. Such a file is refused every time, and the upload loop ends there, so
  nothing that is queued behind it is sent while the policy would have it sent. `Refused.NothingIsSent`
  starts with such a file; `Refused.SentIff`: an undisturbed first attempt is recorded exactly when the
  cloud takes the body.
- An observer whose log could not be touched keeps what it could not write in its memory. Its next
  completed call leaves the replay of the log, whatever it observes, exactly when the lost rows were
  covered by the replay already; otherwise the inventory can show what no row says.
  `InventoryRuns.UnloggedProject`; `InventoryRuns.FailedTouchIff`.
- After failed touches a call that gets rows into the log, whether or not it is completed, can assign
  them so that the replay has one project without a remote at two places, or two at one place.
  `InventoryIdentities.IdentitiesBreak` is a run of five calls. `InventoryIdentities.PerilIff`: whatever a
  call observes and wherever it stops, the identities stay exactly unless the projects it starts from have,
  as first host of a place, one that the replay lacks or has without a remote, and that one is in the
  replay at another place, or is the first host of another place, or the replay has another project without
  a remote at this place.
- An append that stops inside a line, or that follows a line without its line feed, leaves a log that no
  fresh call can read; nothing is recorded from then on. (The exporter calls the observer
  inside each session's error handling and before it ingests, agent_sessions.py:1303-1305 and 1555, so
  every session is then skipped with that error; this half is not part of the model.)
  `InventoryRuns.TornLine`, `InventoryRuns.LostLineFeed`; `InventoryRuns.ReadableIff`,
  `InventoryRuns.JammedForGood`.

`Failures.NumberKeyNeverResolves` is not in this list: it shows what the string keys of
`Failures.StringKeysArePlain` are needed for. Stored jobs have string keys only, because payloads are
stored as JSON.

## Model

| member | source | states |
|---|---|---|
| Turns.PendingTurns | personal/skill/scripts/agent_sessions.py:1222-1241 | the counting loop succeeds exactly when the earlier turns are a sub-multiset of the session's, and then computes their subtraction, numbered after what was exported |
| Turns.SubtractBag | personal/skill/scripts/agent_sessions.py:1222-1241 | conservation: what is kept is the session's multiset minus what was subtracted |
| Turns.SubtractTwice | personal/skill/scripts/agent_sessions.py:1638-1668 | subtracting earlier material and then acknowledged parts is, as a sequence, subtracting both at once |
| Turns.SubtractIsSurvivors | personal/skill/scripts/agent_sessions.py:1222-1241 | the first occurrences go: a turn survives when more copies precede it than were subtracted |
| Readers.SpaceIff | personal/skill/scripts/agent_sessions.py:250-253 | the characters `str.strip` removes, one by one |
| Readers.Session.constructor | personal/skill/scripts/agent_sessions.py:314-320 | a new session has no turns and no clock |
| Readers.Session.ObserveTime | personal/skill/scripts/agent_sessions.py:246-248 | the clock takes the last instant a row stated |
| Readers.Session.Add | personal/skill/scripts/agent_sessions.py:250-257 | blank text adds nothing, text before any instant is refused, other text is appended at the clock |
| Readers.Session.AddAll | personal/skill/scripts/agent_sessions.py:330-362 | the words of one row are added in order or the row is refused |
| Readers.Session.Finish | personal/skill/scripts/agent_sessions.py:259-264 | the turns become their stable sort and the repairs the number of turns that moved |
| Readers.StableSortKeeps | personal/skill/scripts/agent_sessions.py:259-264 | turns of one instant keep their reading order |
| Readers.StableOrderUnique | personal/skill/scripts/agent_sessions.py:259-264 | a time-ordered list with the same turns per instant, in order, is the stable sort |
| Readers.FinishedBag | personal/skill/scripts/agent_sessions.py:259-264 | finishing permutes the turns |
| Readers.NoRepairsIffOrdered | personal/skill/scripts/agent_sessions.py:259-264 | zero repairs exactly for turns already in time order, which then stay as they are |
| Readers.ReadClaude | personal/skill/scripts/agent_sessions.py:314-363 | the row loop reads the turns the scan defines, or refuses at the first undated text (`Transcripts.ClaudeTurnPlaces` says which turns) |
| Readers.ClaudeGrowthIsNoRewrite | personal/skill/scripts/agent_sessions.py:314-363 | the turns of any prefix are a sub-multiset of the turns of all rows, so subtracting them succeeds |
| Readers.ReadCodex | personal/skill/scripts/agent_sessions.py:366-420 | the row loop reads items, and the events of roles no item but an action speaks for (`Transcripts.CodexTurnPlaces` says which turns) |
| Readers.CodexGrowthIsNoRewriteIff | personal/skill/scripts/agent_sessions.py:413-419 | growth is accepted exactly when every displaced event is repeated by an item |
| Readers.CodexLateItemLooksRewritten | personal/skill/scripts/agent_sessions.py:413-419 | two rows for which growth is refused |
| Transcripts.ClaudeReads | personal/skill/scripts/agent_sessions.py:319-363 | a transcript is refused exactly when a row that counts, with no row of its identity before it, says something before any instant is stated; otherwise it reads as those rows' words, each at the instant stated last, stably sorted |
| Transcripts.ClaudeTurnPlaces | personal/skill/scripts/agent_sessions.py:323-362 | each turn is read as often as there are words for it, none from a repeated identity |
| Transcripts.CodexReads | personal/skill/scripts/agent_sessions.py:370-420 | the same for response items, followed by the dated events of the roles that no item answers for |
| Transcripts.CodexTurnPlaces | personal/skill/scripts/agent_sessions.py:415-419 | a role that says something in an item other than a tool action has exactly its items' words; any other role has its actions and every dated event |
| Splitting.ExchangesCut | personal/skill/scripts/agent_sessions.py:519-535 | the exchanges concatenate to the turns and obey the owner-turn rule |
| Splitting.CutIsUnique | personal/skill/scripts/agent_sessions.py:519-535 | no other list of exchanges obeys the rule |
| Splitting.PartsConcatenate | personal/skill/scripts/agent_sessions.py:519-550 | splitting is lossless |
| Splitting.PartsBoundedWithOwner | personal/skill/scripts/agent_sessions.py:519-550 | only one oversized exchange passes the bound; every part has an owner turn if the increment has one |
| Splitting.PartsFewest | personal/skill/scripts/agent_sessions.py:519-550 | no partition into consecutive exchanges under the same rule has fewer parts |
| Splitting.PartsHalfFull | personal/skill/scripts/agent_sessions.py:519-550 | with n parts, floor(n/2)*(max+1) characters were there |
| Splitting.ResplitSuffix | personal/skill/scripts/agent_sessions.py:519-550 | splitting what parts k, k+1, ... hold gives those parts again |
| Splitting.CollectExchanges | personal/skill/scripts/agent_sessions.py:524-535 | the first loop cuts the exchanges |
| Splitting.PackExchanges | personal/skill/scripts/agent_sessions.py:536-549 | the second loop packs them greedily |
| Splitting.SplitParts | personal/skill/scripts/agent_sessions.py:519-550 | the parts of an increment, or a refusal of a bound that is too small |
| Exporter.Accept | personal/skill/scripts/agent_sessions.py:1405-1425 | the library only grows and holds the payload under the returned source |
| Exporter.Process.constructor | personal/skill/scripts/agent_sessions.py:1289-1301 | a process starts without entry, journal or library |
| Exporter.Process.IngestPart | personal/skill/scripts/agent_sessions.py:1382-1431 | journal, receipt, library, cursor, unlink: the state after stopping at any of them |
| Exporter.Process.Finish | personal/skill/scripts/agent_sessions.py:1396-1431 | what a first attempt and a replay do from the saved receipt on |
| Exporter.Process.ExportParts | personal/skill/scripts/agent_sessions.py:1727-1788 | the export loop up to the first part that does not complete or has no owner turn |
| Exporter.Process.CutIncrement | personal/skill/scripts/agent_sessions.py:1638-1668 | the whole increment and what is owed of it, or the refusal |
| Exporter.Process.Consider | personal/skill/scripts/agent_sessions.py:1498-1726 | what the main loop decides for a local file: keep, observe or export (`Decisions.HeldIff` says when) |
| Exporter.Process.Pass | personal/skill/scripts/agent_sessions.py:1433-1788 | one pass over one session, its uncertain ingest first |
| Decisions.VerdictIs | personal/skill/scripts/agent_sessions.py:553-586 | the verdict counts the owner's turns and characters by place; it asks for compiling exactly when the session is the owner's own work in a project taken, reaches both thresholds and says more than commands and acknowledgements |
| Decisions.HeldIff | personal/skill/scripts/agent_sessions.py:1681-1726 | a judged file is exported exactly when something is owed, nothing keeps the session out, and the owner's turns and characters of the whole increment reach both thresholds or a split is under way; otherwise a rewrite changes nothing, and any other session records the judgement and, if the thresholds failed, both counts, and keeps sources, count and split |
| Decisions.OtherwiseKept | personal/skill/scripts/agent_sessions.py:1500-1680 | nothing is written for a file that was judged before under the same rules, that changed under report mode, that cannot be read, or whose acknowledged turns are missing in report mode |
| Decisions.OrderIs | personal/skill/scripts/agent_sessions.py:1727-1746 | an order is what is owed in bounded parts; it is marked for compiling exactly when the project is taken, the thresholds are met and the owner says more than commands and acknowledgements |
| Stages.OrderLeaves | personal/skill/scripts/agent_sessions.py:1741-1784 | after the first parts of an order the library has them numbered on, each continuing the one before, only the first marked as a replacement, and the cursor has what they account for |
| Stages.PartStops | personal/skill/scripts/agent_sessions.py:1382-1431 | the disk at each point at which the next part can stop: journal, receipt beside the old cursor or a placeholder, payload, cursor |
| Stages.PassOverReceipt | personal/skill/scripts/agent_sessions.py:1433-1463 | a pass settles an uncertain ingest first, whatever the transcript says, and looks at the transcript only if the settled part left others owed |
| ExactlyOnce.SettleKeeps | personal/skill/scripts/agent_sessions.py:1396-1431 | a replay stopped anywhere keeps the account of the library |
| ExactlyOnce.IngestKeeps | personal/skill/scripts/agent_sessions.py:1382-1431 | a first attempt stopped anywhere keeps the account |
| ExactlyOnce.IncrementBag | personal/skill/scripts/agent_sessions.py:1638-1668 | the increment is exactly what the session has and the exported lineage has not, numbered where that stops |
| ExactlyOnce.ExportKeeps | personal/skill/scripts/agent_sessions.py:1727-1788 | the export loop keeps the account wherever it stops |
| ExactlyOnce.ObserveKeeps | personal/skill/scripts/agent_sessions.py:1786-1790 | an observation changes neither library nor exported turns |
| ExactlyOnce.MainKeeps | personal/skill/scripts/agent_sessions.py:1498-1790 | the main loop keeps the account for every order with a sound baseline |
| ExactlyOnce.SyncKeeps | personal/skill/scripts/agent_sessions.py:1433-1790 | in report mode every pass keeps the account, interrupted anywhere |
| ExportRuns.ClaudeAppendGrows | personal/skill/scripts/agent_sessions.py:314-363 | every append to a Claude Code transcript only adds turns |
| ExportRuns.CodexAppendGrowsIff | personal/skill/scripts/agent_sessions.py:366-420 | an append to a Codex transcript only adds turns exactly when nothing displaced is lost |
| ExportRuns.IncrementSucceeds | personal/skill/scripts/agent_sessions.py:1638-1668 | over a grown transcript the subtraction of what was exported succeeds, also inside a split |
| ExportRuns.OwedHasOwner | personal/skill/scripts/agent_sessions.py:266-270 | every part still owed, cut from today's transcript, has an owner turn |
| ExportRuns.PassKeeps | personal/skill/scripts/agent_sessions.py:1433-1790 | a pass in any run keeps account and cursor fitted to the transcript |
| ExportRuns.ExactlyOnceRuns | personal/skill/scripts/agent_sessions.py:1382-1463 | in every run of growth, passes and crashes the library holds the cursor's sources and at most the journalled payload, ids t1..tN once each, no turn twice |
| ExportRuns.NeverRefused | personal/skill/scripts/agent_sessions.py:1619-1668 | a transcript that only grew is never called rewritten |
| ExportRuns.NothingSkipped | personal/skill/scripts/agent_sessions.py:1727-1788 | an uninterrupted export puts every turn of the transcript into the lineage and leaves nothing owed |
| ExportRuns.HeldComesBack | personal/skill/scripts/agent_sessions.py:1704-1726 | held material is in every later increment, under the same first number |
| CrashTransparency.ReplaysAlike | personal/skill/scripts/agent_sessions.py:1382-1431 | replaying an ingest stopped at any action ends where the uninterrupted one did |
| CrashTransparency.PartsInheritVerdict | personal/skill/scripts/agent_sessions.py:1741-1760 | a part is compiled exactly when the whole increment is; only the first part of a reset is marked rewritten |
| CrashTransparency.RestAfterParts | personal/skill/scripts/agent_sessions.py:1638-1668 | after the first parts are acknowledged, exactly the turns of the later parts are left |
| CrashTransparency.ResumedPlan | personal/skill/scripts/agent_sessions.py:1638-1760 | a pass that finds a split between two parts makes exactly the parts that were left, with the same verdict |
| CrashTransparency.ObservedAgain | personal/skill/scripts/agent_sessions.py:1686-1726 | an observation repeated on the same bytes is the same observation |
| CrashTransparency.CrashTransparent | personal/skill/scripts/agent_sessions.py:1382-1463 | one pass after one interruption gives the cursor, receipt and library of the uninterrupted pass |
| RepeatedCrashes.OneMore | personal/skill/scripts/agent_sessions.py:1382-1463 | one more interrupted pass before the one that completes makes no difference, also from a state with a receipt |
| RepeatedCrashes.CrashesTransparent | personal/skill/scripts/agent_sessions.py:1382-1463 | after any number of interrupted passes, one that completes gives the cursor, receipt and library of the pass that never was |
| RepeatedCrashes.ReadyInReport | personal/skill/scripts/agent_sessions.py:1433-1463 | in report mode every accounted state without a receipt is such a start, whatever the transcript |
| CrashTransparency.LateResetMiscounts | personal/skill/scripts/agent_sessions.py:1632-1680 | a late reset cut into parts over old material breaks the account after its first part |
| CrashTransparency.SafeIff | personal/skill/scripts/agent_sessions.py:1632-1680 | a pass keeps the account under every interruption exactly when its order was not such a reset |
| LateReset.LateResetRepeats | personal/skill/scripts/agent_sessions.py:1632-1680 | after such an interruption the next pass puts the same turns in a second source |
| LateReset.LateResetHappens | personal/skill/scripts/agent_sessions.py:1632-1680 | two Codex transcripts on which it happens |
| Shortcut.ShortcutRefines | personal/skill/scripts/agent_sessions.py:1509-1524 | whenever a file is reported unchanged unread, reading and judging it would ingest nothing, after any run |
| Merge.Recipient.constructor | personal/skill/scripts/agent_sessions.py:1350-1355 | a host that remembers no revision |
| Merge.Recipient.Begin | personal/skill/scripts/agent_sessions.py:1382-1431 | a first attempt whose step carries a receipt along, stopped at any action |
| Merge.Recipient.ExportParts | personal/skill/scripts/agent_sessions.py:1727-1788 | the export loop over whatever receipt the entry holds: its first ingest settles that one, its last step restores what the entry carried |
| Merge.Recipient.Deliver | personal/skill/scripts/agent_sessions.py:1357-1380 | a delivered copy extends, falls behind or diverges, and what each does to cursor, origins, memory and a pending receipt |
| Merge.OverIsPlain | personal/skill/scripts/agent_sessions.py:1727-1788 | without a receipt the loop is that of a local file |
| Merge.LargestWins | personal/skill/scripts/agent_sessions.py:1357-1380 | after comparable copies in any order the host has seen the largest, and each device's observation is part of it |
| Merge.OrderFree | personal/skill/scripts/agent_sessions.py:1357-1380 | two histories showing the same comparable copies end with the same bag of turns |
| Merge.DivergedChangesNothing | personal/skill/scripts/agent_sessions.py:1366-1380 | a copy incomparable with what was seen changes nothing |
| Merge.OrderFreeIff | personal/skill/scripts/agent_sessions.py:1366-1380 | the order of two copies does not matter exactly when they are comparable |
| Observations.RelationIff | personal/skill/scripts/agent_sessions.py:1357-1380 | for any host: a copy is refused exactly when it takes back turns its device showed and is no remembered revision, or neither contains the other; else it extends or falls behind |
| Observations.OwnLargest | personal/skill/scripts/agent_sessions.py:1583-1600 | over histories of comparable copies the record of each device is the largest copy it showed |
| Observations.RefusedIff | personal/skill/scripts/agent_sessions.py:1364-1371 | after such a history a comparable copy is refused exactly when its device showed turns it lacks and it was never that device's largest |
| Observations.CopyIff | personal/skill/scripts/agent_sessions.py:1613-1726 | an extending copy is exported under the thresholds of a local file, else noted; seen before under the same rules it only refreshes its device's record |
| MergedRuns.GuardedIsSync | personal/skill/scripts/agent_sessions.py:1433-1480 | a pass whose file the entry names is the pass over a local file |
| MergedRuns.OnePartSettles | personal/skill/scripts/agent_sessions.py:1382-1431 | a single part over a pending receipt keeps the account |
| MergedRuns.OverSettles | personal/skill/scripts/agent_sessions.py:1382-1431 | of several parts over a receipt the first only settles it, and the rest carry it along |
| MergedRuns.OverEnds | personal/skill/scripts/agent_sessions.py:1741-1788 | such an export ends on the carried receipt without a journal, with the whole session counted |
| MergedRuns.DeliverySafeIff | personal/skill/scripts/agent_sessions.py:1583-1788 | a delivery keeps the account under every interruption exactly when nothing is pending or its increment is one part |
| MergedRuns.ResetSettles | personal/skill/scripts/agent_sessions.py:1670-1680 | a reset of several parts over a receipt settles it with its first part and exports the others as without one |
| MergedRuns.ResetResumesIff | personal/skill/scripts/agent_sessions.py:1670-1788 | it keeps the account under every interruption exactly when the settled lineage is, as a bag, its first part, and with more than two parts the baselines match |
| MergedRuns.OwnReset | personal/skill/scripts/agent_sessions.py:1382-1431 | a reset whose own first ingest stopped at the saved receipt is such a one |
| MergedRuns.PassSafeIff | personal/skill/scripts/agent_sessions.py:1433-1790 | a pass in either mode, guarded or not, keeps the account under every interruption exactly unless it overtakes a receipt without resuming it or splits a late reset |
| MergedRuns.ResetSafeIff | personal/skill/scripts/agent_sessions.py:1632-1680 | a pass keeps the account under every interruption exactly unless something was exported, the subtraction fails and there are several parts |
| MergedRuns.ArriveKeeps | personal/skill/scripts/agent_sessions.py:1433-1790 | a pass in either mode, a delivery, a replay or a foreign export keeps the account under those conditions, which are exact |
| MergedRuns.ExactlyOnceMerged | personal/skill/scripts/agent_sessions.py:1433-1790 | they interleave in any order, each stopped anywhere, and the account holds while each meets its condition |
| Overtaken.TurnsLost | personal/skill/scripts/agent_sessions.py:1382-1431 | what only the first part said is in no source, and the cursor counts it as exported |
| Overtaken.StuckForGood | personal/skill/scripts/agent_sessions.py:1393-1400 | with a receipt and no journal, nothing that happens later puts anything of the session into the library |
| Overtaken.OvertakenHappens | personal/skill/scripts/agent_sessions.py:1433-1479 | two copies of one conversation on which both happen |
| Protocol.BlankIn | apps/collector-cloud/src/protocol.ts:48 | what `trim` and `str.strip` each remove alone: the cloud and the host call different session ids blank |
| Protocol.UnitsIs | apps/collector-cloud/src/protocol.ts:48 | a text's length is its characters and once more those beyond the basic plane |
| Protocol.BoundedBody | apps/collector-cloud/src/protocol.ts:143-174 | an accepted body is the stream's bytes; each refusal by header, and the refusal at the first chunk over the limit |
| Protocol.SetAt | apps/collector-cloud/src/protocol.ts:169-172 | one chunk is copied behind the bytes before it |
| Registry.Known | apps/collector-cloud/src/index.ts:116-122 | only a registered, unrevoked and (unless allowed) unpaused device is found by its secret |
| Registry.Committed | apps/collector-cloud/src/index.ts:371-375 | finds a row of the key, or there is none |
| Registry.NextKeeps | apps/collector-cloud/src/index.ts:224-375 | every segment of every request keeps the table and object invariant |
| Registry.SoundRuns | apps/collector-cloud/src/index.ts:309-369 | under every interleaving each snapshots row has its uploads row and both matching objects, at most one row per key, rising sequences, at most two uploads |
| Registry.CollectorRegistry.constructor | apps/collector-cloud/src/index.ts:62-97 | the empty tables satisfy the invariant |
| Registry.CollectorRegistry.Enter | apps/collector-cloud/src/index.ts:140-149 | an upload is admitted to a slot or refused before its body is read |
| Registry.CollectorRegistry.Accept | apps/collector-cloud/src/index.ts:297-330 | from the body to the uploads transaction and the duplicate reply |
| Registry.CollectorRegistry.Advance | apps/collector-cloud/src/index.ts:333-352 | each answer of the object store and the arm it leads to |
| Registry.CollectorRegistry.Record | apps/collector-cloud/src/index.ts:355-368 | the commit transaction: admission again, the duplicate, or the new row |
| Registry.CollectorRegistry.Issue | apps/collector-cloud/src/index.ts:209-222 | an invitation is stored under a new token and id |
| Registry.CollectorRegistry.Claim | apps/collector-cloud/src/index.ts:224-261 | the enrolment transaction with each of its refusals |
| Registry.CollectorRegistry.Update | apps/collector-cloud/src/index.ts:263-274 | status and policy change unless the device is revoked or not the library's |
| OwnersWord.KnownIff | apps/collector-cloud/src/index.ts:116-122 | which secret opens which device, and which refusal each other one gets |
| OwnersWord.ArriveIff | apps/collector-cloud/src/index.ts:140-149 | a slot is given exactly if one is free, the device is active and a digest is stated |
| OwnersWord.AcceptedIff | apps/collector-cloud/src/index.ts:297-330 | an upload is accepted exactly if it is the body announced, parses, is of an active device, names no other, keeps to the policy in force and conflicts with none |
| OwnersWord.EnrolsIff | apps/collector-cloud/src/index.ts:224-261 | over any history: a claim is answered with a device exactly when its token was issued, not withdrawn since, and is either unused, less than ten minutes old and for a new device and secret, or the repeat of an answered claim whose device was not revoked |
| OwnersWord.WithdrawnIff | apps/collector-cloud/src/index.ts:169-176 | a withdrawal is answered exactly if the library has the invitation |
| OwnersWord.LastStatus | apps/collector-cloud/src/index.ts:263-274 | a device's status is what the last change said, or active |
| OwnersWord.LastPolicy | apps/collector-cloud/src/index.ts:263-274 | a device's policy is what the last change that gave one said, or its invitation's |
| OwnersWord.AdmittedByLastWord | apps/collector-cloud/src/index.ts:355-367 | in every history a row is added only under the last status and the last policy given, and for a body that names no other device |
| RegistryRuns.NoConflictAfterAcceptance | apps/collector-cloud/src/index.ts:333-352 | once accepted, an upload never takes the body or manifest conflict arm |
| RegistryRuns.ConflictIff | apps/collector-cloud/src/index.ts:309-317 | an upload conflicts exactly when the cloud takes its body and its device used the id for other bytes |
| RegistryRuns.CommittedForGood | apps/collector-cloud/src/index.ts:333-369 | a row and both its objects stay as they are in every continuation |
| RegistryRuns.CommitTimeAdmission | apps/collector-cloud/src/index.ts:355-367 | a row is added only while its device is active and the policy then in force admits the bytes |
| RegistryRuns.RevokedForGood | apps/collector-cloud/src/index.ts:263-274 | a revoked device stays revoked and gains no row in any continuation |
| RegistryRuns.ClaimedOnce | apps/collector-cloud/src/index.ts:231-259 | an invitation's device never changes after the first claim |
| RegistryRuns.ClaimedForOthers | apps/collector-cloud/src/index.ts:237-246 | a claimed invitation answers nobody else |
| RegistryRuns.PageContinues | apps/collector-cloud/src/index.ts:187-205 | a page is exactly the next rows of the library; has_more means a full page and an advanced cursor |
| RegistryRuns.NothingBehind | apps/collector-cloud/src/index.ts:353-367 | rows committed later never appear at or below a cursor that was reached, and stand behind the others above it |
| Enrollment.Directory.constructor | personal/collector/collector.py:128-131 | a directory without an identity |
| Enrollment.Directory.ClaimInvitation | personal/collector/collector.py:128-145 | the identity is drawn or read, saved, used for the claim, and completed by the answer; the state after stopping at any of these |
| Enrollment.AttemptIsSteps | personal/collector/collector.py:128-145 | one run of it, stopped anywhere, is those steps in order |
| Enrollment.OneIdentity | personal/collector/collector.py:128-145 | every claim a directory ever made carries the identity it has on disk, across crashes and lost answers |
| Enrollment.ClaimAnswers | apps/collector-cloud/src/index.ts:224-261 | the exact condition of each answer to a directory's claim: already claimed, already registered, enrolled |
| Enrollment.EnrollmentRetries | personal/collector/collector.py:128-145 | after any run a further claim is answered by those rules; repeating a claim that went through gives the same device and changes nothing |
| Enrollment.SecondInvitationRefused | personal/collector/collector.py:128-145 | a run in which a second invitation is refused as registered |
| Enrollment.ForgottenIdentity | apps/collector-cloud/src/index.ts:237-246 | without the saved identity a repeated claim is refused |
| Snapshots.CapturedDecodes | personal/skill/scripts/agent_sessions.py:1037-1090 | the turns of a finished session pass the decoder |
| Snapshots.DecodesIff | personal/skill/scripts/agent_sessions.py:1037-1090 | a body decodes exactly if it hashes to what it says, names its session and project, and has the turns of some finished session, numbered apart |
| HostFeed.Fetch | personal/src/pkc_personal/collection.py:362-374 | a download counts exactly if digest, decoder and identity agree, and is then the row's body under the row's device |
| HostFeed.HostCache.constructor | personal/src/pkc_personal/collection.py:349-355 | an empty index |
| HostFeed.HostCache.Take | personal/src/pkc_personal/collection.py:358-392 | objects first, then the index; an interruption keeps the old index |
| HostFeed.HostCache.Release | personal/src/pkc_personal/collection.py:411-426 | acknowledged keys leave the queue, in order, and nothing else changes (`Acknowledgements.ReleaseIff` says which keys) |
| HostFeed.ThroughIff | personal/src/pkc_personal/collection.py:362-382 | the items of a page are all taken exactly when all decode and the connection lasts |
| HostFeed.TakenIff | personal/src/pkc_personal/collection.py:358-392 | any page is taken exactly if the connection outlasts it, every object on it is sound, and it does not claim more without moving on; the index changes only then |
| HostFeed.AcknowledgeHolds | personal/src/pkc_personal/collection.py:411-426 | the queue is exactly the rows taken and not acknowledged, in feed order |
| Acknowledgements.ReleaseIff | personal/src/pkc_personal/collection.py:411-426 | after an acknowledgement the queue has exactly the keys that no row of the report names without failing, as often and in the order they stood |
| Acknowledgements.PendingIff | personal/src/pkc_personal/collection.py:395-426 | in every run a key is pending exactly when its row is at or below the cursor and no report named it, without failing, while it was |
| HostFeed.LatestIsLast | personal/src/pkc_personal/collection.py:379-380 | materials maps each stream to the one row of it that no row of the stream follows |
| Publisher.Collector.constructor | personal/collector/collector.py:208-212 | nothing sent, nothing queued |
| Publisher.Collector.Collect | personal/collector/collector.py:219-231 | the queueing loop |
| Publisher.Collector.Upload | personal/collector/collector.py:234-259 | the upload loop: held files are passed over; a file that does not decode, a failed request or a wrong receipt ends it (`Scopes.PublishIff` says what is recorded) |
| Publisher.ScopesAgree | personal/collector/collector.py:160-175 | what the device sends decodes and passes the cloud's scope check; without exclusions it sends exactly that |
| Scopes.ScopeIff | apps/collector-cloud/src/index.ts:276-295 | the cloud takes a body exactly if it names no other device, its harness and project are allowed and it does not end before the bound; each refusal has its condition |
| Scopes.HeldIff | personal/collector/collector.py:160-175 | a file is held exactly when it decodes and its harness, its listing, the exclusions or the bound forbid it |
| Scopes.CollectIs | personal/collector/collector.py:219-231 | a collection appends exactly, in order and under the device's name, the snapshots that fit, were neither accepted nor queued, and are the first of their id in the batch |
| Scopes.PublishIff | personal/collector/collector.py:234-259 | the upload loop records and unlinks exactly the allowed files whose receipts match, up to the first that does not decode or is not answered |
| Scopes.InTurnIff | personal/collector/collector.py:234-242 | a file is asked for exactly when it may be sent and every file before it decodes and is held or accepted |
| Scopes.OnlyAllowedLeaves | personal/collector/collector.py:234-259 | in every run whatever the cloud accepted from this device, and whatever the device recorded as sent, was asked for under terms that allow it |
| Delivery.ReceiptIsTrue | apps/collector-cloud/src/index.ts:329-368 | a success reply names a committed row with the bytes its request carried |
| Delivery.ReceiptsMatch | personal/collector/collector.py:247-252 | every success reply passes the device's receipt check |
| Delivery.NeverConflicts | personal/collector/collector.py:234-259 | across lost replies and crashes the device's uploads never conflict |
| Delivery.StepKeeps | personal/collector/collector.py:219-259 | one payload per id; what was queued is in the outbox or sent; what was sent is committed with that hash |
| EndToEnd.PageTaken | personal/src/pkc_personal/collection.py:358-392 | a page is taken exactly when all its bodies decode and nothing interrupts; "did not advance" never fires |
| EndToEnd.Download | personal/src/pkc_personal/collection.py:358-392 | the page loop against a registry that moves before every page: it ends, and with the whole feed unless a body does not decode |
| EndToEnd.CloudAhead | apps/collector-cloud/src/index.ts:353-367 | commits between pages leave the reader with exactly the rows at or below its cursor |
| EndToEnd.RowOnHost | personal/src/pkc_personal/collection.py:358-395 | every row at or below the cursor is on disk, and pending or acknowledged |
| EndToEnd.WholeRuns | personal/collector/collector.py:219-259 | device, cloud and host keep their invariants in every run together |
| EndToEnd.SentArrives | personal/src/pkc_personal/collection.py:358-395 | what the device recorded as sent is committed with those bytes, and on the host once its cursor passed the row |
| Unreadable.BlockedForGood | personal/src/pkc_personal/collection.py:370-389 | past a row whose body does not decode no step moves the cursor |
| Unreadable.OwnRowDecodes | personal/collector/collector.py:160-163 | every row of this collector's device decodes |
| Unreadable.CollectedIsRead | personal/src/pkc_personal/collection.py:358-392 | a library of collected bodies never blocks: every page is taken unless interrupted, with the whole feed at the end |
| Unreadable.UploadCommits | apps/collector-cloud/src/protocol.ts:103-123 | an undisturbed upload of an active device is committed if the policy admits it, whatever its turns are |
| Unreadable.UnreadableBlocks | personal/src/pkc_personal/collection.py:370-374 | whenever the reader has caught up, one such upload of a body that does not decode blocks it |
| Unreadable.BlockedHappens | personal/src/pkc_personal/collection.py:370-374 | a run from the beginning that ends blocked |
| Refused.TakenRuns | apps/collector-cloud/src/protocol.ts:103-123 | in every run the cloud has only bodies that it takes |
| Refused.RefusedForGood | personal/collector/collector.py:234-259 | a queued body that the cloud does not take stays queued in every run |
| Refused.NothingPast | personal/collector/collector.py:234-259 | and while the policy would have it sent, nothing queued behind it is sent |
| Refused.SentIff | personal/collector/collector.py:234-259 | a first attempt that nothing disturbs ends in a recorded receipt exactly when the cloud takes the body |
| Refused.NothingIsSent | apps/collector-cloud/src/protocol.ts:44-49 | a device whose first file has a line feed in its session id never gets anything sent |
| QueueOrder.OrderlyRuns | personal/collector/collector.py:234-259 | in every run, revisions never held reach the feed in queue order |
| QueueOrder.LatestIsLastQueued | personal/src/pkc_personal/collection.py:379-380 | of two such revisions of a stream the earlier is not what the host takes for its material |
| Inventory.Match | personal/src/pkc_personal/collection.py:458-465 | the first project with the remote, else the first at the place that may have it; none exactly when there is neither |
| Inventory.ObservationLog.constructor | personal/src/pkc_personal/collection.py:302-322 | an empty log and no projection |
| Inventory.ObservationLog.Tally | personal/src/pkc_personal/collection.py:449-481 | the loop over one batch |
| Inventory.ObservationLog.Record | personal/src/pkc_personal/collection.py:435-496 | append, then projection, with every point at which a call can stop, inside a line too; a log that cannot be read refuses the call |
| Inventory.NoteIdentities | personal/src/pkc_personal/collection.py:458-469 | one project per remote, one remote per project, one place for a project without remote, one such project per place |
| Projections.ReplayIs | personal/src/pkc_personal/collection.py:315-335 | a replay has one project per id mentioned, in the order of first mention, named by its first path, with exactly the remotes, places and sources of its rows |
| Projections.OpenedIff | personal/src/pkc_personal/collection.py:303-312 | a call starts from the observer's memory exactly if it fits the file, else from log and projection, or a replay where that is not of the log's length |
| Projections.AppendingIff | personal/src/pkc_personal/collection.py:482-489 | what an append that stops anywhere leaves: the file's length, the rows it then has, whether it ends with a line feed and whether it can be read |
| InventoryRuns.NoteIsAbsorb | personal/src/pkc_personal/collection.py:458-477 | updating the matched project is replaying the row made for it |
| InventoryRuns.ReplayCovers | personal/src/pkc_personal/collection.py:315-335 | a row of the log is covered by its replay |
| InventoryRuns.CoveredIff | personal/src/pkc_personal/collection.py:315-335 | replaying more rows changes nothing exactly when all are covered already |
| InventoryRuns.NoteAllReplays | personal/src/pkc_personal/collection.py:449-477 | what a batch makes of a replay is the replay of what it appends |
| InventoryRuns.ObserveKeeps | personal/src/pkc_personal/collection.py:435-496 | a call that stops anywhere leaves projection and memory such that a matching length means the replay |
| InventoryRuns.InventoryIsReplay | personal/src/pkc_personal/collection.py:302-335 | in any run of observers and others, with failed touches, crashes at any byte, rebuilds and losses, the answer is the replay of the log, if no call on a spoilt memory is completed |
| InventoryIdentities.RowIdentities | personal/src/pkc_personal/collection.py:458-477 | one more row keeps the identities of the replay unless the memory is in peril |
| InventoryIdentities.RowNoPeril | personal/src/pkc_personal/collection.py:458-477 | nor does it bring a peril |
| InventoryIdentities.CallKeeps | personal/src/pkc_personal/collection.py:435-496 | any call, stopped anywhere, keeps the identities of the replay, the memory and the projection unless it starts in peril |
| InventoryIdentities.PerilIff | personal/src/pkc_personal/collection.py:458-481 | whatever a call observes and wherever it stops, the replay keeps its identities exactly unless the call starts in peril |
| InventoryIdentities.IdentitiesHold | personal/src/pkc_personal/collection.py:458-469 | in any run without calls in peril, completed calls on a spoilt memory included, replay and answer have the identities |
| InventoryIdentities.HarmlessIsHeedful | personal/src/pkc_personal/collection.py:442-496 | runs whose failed touches lose only covered rows are among them |
| InventoryIdentities.IdentitiesBreak | personal/src/pkc_personal/collection.py:442-496 | five calls after which the answer, the replay of a readable log, has a project without a remote at two places and two at one |
| InventoryRuns.HarmlessIsSure | personal/src/pkc_personal/collection.py:442-496 | runs whose failed touches lose only covered rows are among them |
| InventoryRuns.CompletedCall | personal/src/pkc_personal/collection.py:482-496 | a completed call appends to the log, and its answer covers every observation of its batch |
| InventoryRuns.NextCallIff | personal/src/pkc_personal/collection.py:442-496 | the observer's next completed call leaves the replay, whatever it observes, exactly when its memory is the replay |
| InventoryRuns.TrustIff | personal/src/pkc_personal/collection.py:442-496 | a call makes the memory stray from the log exactly by a failed touch that loses an uncovered row |
| InventoryRuns.FailedTouchIff | personal/src/pkc_personal/collection.py:482-496 | after a failed touch the next completed call leaves the replay, whatever it observes, exactly when the lost rows change nothing in it |
| InventoryRuns.NextCallAfter | personal/src/pkc_personal/collection.py:482-496 | what that call answers: the replay with the lost rows in the log |
| InventoryRuns.RecordedIff | personal/src/pkc_personal/collection.py:478-481 | the memory takes exactly the rows of the log for recorded unless a failed touch lost some |
| InventoryRuns.ReadableIff | personal/src/pkc_personal/collection.py:482-488 | the log stops being readable exactly by a call that stops inside a line or appends behind a missing line feed |
| InventoryRuns.JammedForGood | personal/src/pkc_personal/collection.py:446-448 | from then on, without a memory, nothing is recorded, and an inventory without an answer gets none |
| InventoryRuns.TornLine | personal/src/pkc_personal/collection.py:482-488 | the first append stops inside its line: nothing is ever recorded or answered |
| InventoryRuns.LostLineFeed | personal/src/pkc_personal/collection.py:482-488 | a line without its line feed is read, until something is appended behind it |
| InventoryRuns.UnloggedProject | personal/src/pkc_personal/collection.py:442-496 | three calls after which the inventory has a project no row assigns |
| Failures.UnresolvedFailures | scaffold/templates/app.py:1128-1159 | the two loops compute the failures for which some source's work was not done again later (`Resolution.StaysOpenIff` says which failures) |
| Failures.Tally | scaffold/templates/app.py:1135-1144 | the dictionary holds, per work key, the latest success |
| Failures.OpenIsOrderFree | scaffold/templates/app.py:1128-1134 | the same jobs in any order leave the same failures open |
| Failures.CompileRetryPayloads | scaffold/templates/app.py:1162-1184 | the retry payloads, each work key taken the first time it is met |
| Failures.SameWorkIff | scaffold/templates/app.py:1177-1182 | a retry has the failed job's work key exactly when no key spelled like the source overrides its treatment |
| Failures.StringKeysArePlain | scaffold/templates/app.py:1177-1182 | with string keys none does |
| Failures.NumberKeyNeverResolves | scaffold/templates/app.py:1177-1182 | what string keys are needed for: with a number as a key, which no stored job has, the retry succeeds and the failure stays open |
| Failures.RetriesAskOnce | scaffold/templates/app.py:1162-1184 | the retries ask for every failed work key exactly once |
| Failures.RetriesClear | scaffold/templates/app.py:1311-1318 | when all retries succeed later, no compile failure with sources and a known completion time is open |
| Resolution.SameKeyIff | scaffold/templates/app.py:1105-1112 | two work keys are equal exactly when the source, the treatment found under it, the compensation flag and the guidance are |
| Resolution.StaysOpenIff | scaffold/templates/app.py:1128-1159 | a failure is in the result, as often as recorded, exactly unless it is a compile of known completion each of whose sources was compiled again later under the same instructions |
| Resolution.OtherInstructions | scaffold/templates/app.py:1130-1133 | a later success under another treatment, compensation or guidance leaves the failure open |
| Resolution.RetryKeeps | scaffold/templates/app.py:1174-1183 | a retry keeps its sources, the treatments spelled like them, and every other field |
| Resolution.EachRetried | scaffold/templates/app.py:1162-1184 | every source of every job is retried under its instructions, by the first job that asked for the same work |
| Resolution.BothRetried | scaffold/templates/app.py:1162-1184 | two jobs on one source with different instructions are retried apart |
| Resolution.RetriedOnce | scaffold/templates/app.py:1162-1173 | with string keys no work is asked for twice |

## Left out

- Parsing: raw transcript rows, wrapper stripping and speaker detection become rows with their words.
- Snapshots.CapturedDecodes: of the decoder's checks those on turns, identities and project; the types of the other envelope fields and the exact round trip of a canonical session are not modelled.
- Payload fields that do not affect deduplication order (owner, project, digests of metadata): a payload is its session, turns, part number, continuation, rewrite mark and verdict.
- Several sessions in one state file: one key is modelled, with foreign payloads in the same library; looking a session up by identity, changed session ids, `session_ids` filters and dry runs are not.
- One-off compatibility: `legacy_prefix` migration, cursors from before materials, splits without acknowledged references.
- `reingest` for delivered copies: `Merge` is report mode; for local files both modes are modelled.
- Exporter.Process.Pass: the sync lock, the transcript roots and the order of files in a pass.
- Merge.LargestWins: a delivered copy is its turns and two marks; revisions that differ only in other envelope fields are one revision here.
- Merge.OrderFree: local passes in between are excluded, because a shorter local transcript replaces what was seen when nothing of the longer copy was exported yet.
- HTTP, R2, SQL, file locks and subprocesses: only success, failure, lost answer, atomic write and put-if-absent are modelled; refusals are named, not numbered.
- Registry: requests that `Protocol.BoundedBody` refuses end before the model's first segment; labels, last-seen times, the invitation and device listings, downloads of other rows, the request validators for policies and secrets, and deletion (there is none).
- Registry.CollectorRegistry.Issue: random tokens and ids are inputs; a collision is the failed insert.
- Policy fetch of the collector: a device whose status is not active does not run the loop, which the model covers by not taking steps.
- Publisher.Collector.Upload: two files queued at the same instant are in creation order here; the source then orders them by name.
- HostFeed.HostCache.Take: changing the cloud installation resets the index, and reads that do not persist; not modelled. A page's bodies are taken as of the page's state, which no later step changes.
- Inventory.ObservationLog.Record: normalisation of remotes, which is an input here; digests of rows and random project ids are represented by the row and by a counter; one observer at a time beside any number of calls without one.
- Failures: job kinds beyond compile and index, payload fields no key depends on, and the time zone arithmetic of completion times; an unknown or malformed time is None.
- Everything else in `scaffold/templates/app.py`, the console, the desktop client, service installation and the operations scripts.
