# Anvil: full backups, sealed identities and the desktop's asynchronous views

This project models, in Dafny 4.11, the parts of Ferrum Anvil whose guarantees
span a whole store or a whole run:

- **Full backups** (`crates/anvil-app/src/backup.rs`): taking a snapshot of a
  profile, framing and sealing it as a file, decoding it, planning a restore,
  refusing what is not allowed, and writing it under Merge or Replace in one
  transaction.
- **Device identity seals** (`crates/anvil-app/src/device_identity.rs`): what a
  restored workspace's requests may present until the user allows it.
- **The desktop's protocols** (`Workbench.tsx`, `RunnerView.tsx`,
  `LoadView.tsx`, `LockScreen.tsx`): sends and sessions, opening and saving
  requests, the one run slot, many live load tests, lists read in overlap, and
  the lock screen, each as a state machine over every interleaving of its
  steps. In `Saves` a call is its sending, its work in the backend and its
  reply; elsewhere the backend may answer anything at any time.
- **Contract drift** (`crates/anvil-app/src/drift.rs`): the folder closure and
  the bounded choice of history.

`dafny verify dfyconfig.toml` checks everything.

## How it is laid out

| files | what they hold |
|---|---|
| `Prelude`, `Guards`, `Store` | shared types; the protections a payload can switch off and what an import makes of them; the store as tables updated in place, with the owner and integrity checks every write meets |
| `BackupContents`, `BackupDecode`, `FolderCycles` | a backup's contents, the decoding loops, and the linear cycle search among folder parents |
| `DecodeAccepts`, `DecodeDecision` | exactly which rows and which contents decode, which refusal the first row at fault gives, and what each row is read as |
| `DecodeSound`, `DecodeItems` | accepted contents are well formed: owned, linked, numbered and listed once within the backup |
| `BackupWrite`, `BackupRestore`, `Rulesets` | the write loops, the plan, the checks, the transaction, ruleset order and limits |
| `BackupEffects`, `BackupOutcome` | the store after a restore, key by key, and exactly when its writes go through |
| `BackupGuarantees`, `RestoreKeeps`, `RestoreAgain`, `RulesetOrder`, `SpecNamespaces`, `PlanEffect`, `LinkedFiles` | the guarantees of one restore |
| `Counterexamples` | stores and backups on which a statement that reads as if it always held does not |
| `DeviceIdentity`, `RestoreRuns` | seals, and what holds over whole runs of restores, edits, deletions and choices |
| `BackupSnapshot`, `RoundTrip`, `SnapshotDecodes`, `BackupFile`, `BackupExport` | the snapshot, which stores have one that can be read back, the file, and the way from one profile to another |
| `Sessions`, `Saves`, `Baselines`, `LatestReads`, `Runner`, `LoadRuns`, `LockScreen`, `Drift` | the desktop's protocols and drift |

A code path that updates something step by step is a method with the source's
loops or a class with the source's fields. Each is proved equal to a function
(`PutRows`, `Interpret`, `Next`, ...), and the theorems are lemmas about those
functions: for all stores, all backups, all approvals, all event sequences.
What such a function decides is stated again without it: in fields, constants,
rows of the file or events of the run.

The hypotheses are met by concrete stores and backups: the witness lemmas named
below, `SnapshotDecodes.OneFolderExports` and `BackupExport.OneFolderFile`
apply the main results to them, and `BackupFile.FaithfulCodec` gives a codec the
file theorems hold for.

A store is `Valid` when every row has the metadata its payload seals, which the
store checks on every read. A decoded backup is `WellFormed` when decoding
accepted it; `DecodeItems.DecodedIsWellFormed` proves that it is. A store is
`Tidy` when a restore would normalise nothing in it, and `Restorable` when its
snapshot decodes, which `SnapshotDecodes.DecodesExactly` proves.

## What the model found

Several statements in the documentation or at call sites hold only under a
condition. Each has a concrete witness and the exact condition:

1. The plan checks do not decide a restore. Replace also fails when a stored
   history record names another request than the backup's, or a stored
   revision another parent; Merge also fails when a new revision's request is
   kept here under another owner (`docs/storage-and-recovery.md:548-551` reads
   as if Merge kept everything it finds stored). Witnesses, each ending in the
   store's refusal: `Counterexamples.RecordConflictRefuses`,
   `Counterexamples.RevisionConflictRefuses`, `Counterexamples.KeptRequestRefuses`;
   exact condition: `BackupOutcome.AppliedOutcome` and
   `BackupGuarantees.RestoreAcceptedExactly`.
2. The plan's numbers are exact except under Merge with app settings in the
   backup and none stored: they count as created and are never written.
   Witness: `PlanEffect.MergePlanCanOvercount`; exact numbers:
   `PlanEffect.PlanMatchesEffect`.
3. Linked-file bindings are matched by id alone, so writing a dataset drops the
   binding of an untouched request with the same id. Witness:
   `LinkedFiles.UntouchedRequestCanLoseBinding`; exact condition:
   `LinkedFiles.BindingDroppedExactly`.
4. "Nothing else in the profile is deleted"
   (`docs/storage-and-recovery.md:523-526`) leaves out rulesets. Witness:
   `Counterexamples.ReplaceDeletesRuleset`; exactly which rows go:
   `RestoreKeeps.RestoreDeletesExactly`.
5. Under Replace, spec-import namespaces stay unique only if the written
   sources are consistent and clear of the stored ones that stay. Witness:
   `Counterexamples.ReplaceCanShareNamespace`; exact condition:
   `SpecNamespaces.NamespacesStayOwnedExactly`. Under both policies no
   workspace outside the backup ever shares its namespaces.
6. A tab can open on a baseline that is no longer stored: its read is answered
   before a pending save of the request is written and arrives after that
   save's reply, so the tab shows the old value as saved. Witness:
   `Baselines.ReopenedTabIsLate`; exact condition: `Baselines.LateExactly`.
7. A send's reply ends the wait of every tab of its request
   (`apps/desktop/src/Workbench.tsx:486,498`), also of one reopened since that
   waits for a newer send. Witness: `Sessions.LateReplyEndsWait`; exactly which
   tabs: `Sessions.WaitsEndExactly`.

## Model

| member | source | states |
|---|---|---|
| Store.Tables.Put | crates/anvil-storage/src/store.rs:2475-2525 | a row replaces only one it can read, of the same owner (and parent, for a revision), under a stored workspace; otherwise nothing changes, and the refusal names the first of these that fails |
| Store.Tables.AddHistory | crates/anvil-storage/src/store.rs:2845-2890 | a history record never replaces one of another workspace or request; an empty body is no body |
| Store.Tables.PutReport | crates/anvil-storage/src/store.rs:2974-2995 | a load report never replaces one of another workspace |
| Store.Tables.PutFile | crates/anvil-app/src/workspace.rs:1148-1163 | attaching content keeps a user's mark and date |
| BackupWrite.PutEntries | crates/anvil-app/src/backup.rs:1373-1426 | rows are written in order, kept ones skipped, and the first refusal ends the loop |
| BackupWrite.TopSort | crates/anvil-app/src/backup.rs:1436-1438 | the largest stored ruleset sort key, or -1 |
| BackupWrite.PutRulesetsInPlace | crates/anvil-app/src/backup.rs:1436-1443 | each ruleset goes to its stored sort key, or after everything placed so far |
| BackupWrite.DropBindings | crates/anvil-app/src/backup.rs:1455-1463 | exactly the bindings naming a written id go |
| BackupWrite.WriteFiles | crates/anvil-app/src/backup.rs:1469-1474 | every carried attachment is stored and indexed, whatever the order |
| BackupWrite.WriteRecords | crates/anvil-app/src/backup.rs:1475-1485 | records are written under their ids, never dated after the restore |
| BackupWrite.WriteReports | crates/anvil-app/src/backup.rs:1486-1491 | load reports are written under their ids, those of another workspace refused |
| BackupWrite.Write | crates/anvil-app/src/backup.rs:1390-1492 | the whole write computes `WriteAll`, or names the refusal it stopped at |
| Rulesets.SortPlaced | crates/anvil-app/src/backup.rs:923-924 | the given rulesets, each once, by sort key and equal ones by id |
| Rulesets.OrderIsUnique | crates/anvil-app/src/backup.rs:923-924 | there is one such order |
| Rulesets.WithinLimitsMeans | crates/anvil-app/src/standards.rs:343-357 | a set of rulesets passes exactly when it has at most 32 of them and 8 MiB, or no more than the one before |
| Rulesets.SizeIsSum | crates/anvil-app/src/standards.rs:344-350 | sizes add up over the rulesets |
| BackupRestore.ForeignMeans | crates/anvil-app/src/backup.rs:1231-1265 | the plan names nothing foreign exactly when every carried item stored here has the backup's owner |
| BackupRestore.SealAll | crates/anvil-app/src/device_identity.rs:60-68 | one seal for every workspace of the backup |
| BackupRestore.RestoreApprovedIf | crates/anvil-app/src/backup.rs:603-691 | a restore ends as its transaction says, with the plan and withheld lock of the store it started from; every refusal leaves the store as it was |
| BackupRestore.RestorePreview | crates/anvil-app/src/backup.rs:536-545 | the dry run answers the plan, or the refusal that needs no approval; the plan lists what is stored here in the order of the items, up to 50 and the number of the others, counts it, and names what is stored under other owners; nothing changes |
| BackupRestore.PlanSays | crates/anvil-app/src/backup.rs:1202-1229 | what a plan lists, counts and names, for every backup, store and policy |
| BackupOutcome.AppliedOutcome | crates/anvil-app/src/backup.rs:664-687 | once the plan checks pass, the writes go through exactly when no stored revision or record conflicts, and leave exactly `RowAfter`, `SecretAfter`, `RecordAfter`, `ReportAfter` and `FileAfter` under every key |
| BackupGuarantees.RestoreAcceptedExactly | crates/anvil-app/src/backup.rs:619-691 | the transaction is accepted exactly when no namespace clashes, no uncarried attachment is stored here, every claimed stored workspace is approved, Replace meets nothing foreign, the combined rulesets fit, and nothing stored conflicts |
| BackupGuarantees.RestoreSucceedsExactly | crates/anvil-app/src/backup.rs:603-691 | the same for the whole call: approval for this file, file opened and decoded, caller went on |
| BackupGuarantees.AdmittedExactly | crates/anvil-app/src/backup.rs:603-616 | before the transaction: an approval for another file, one for none, the Duplicate policy, a file that does not decode and a canceled restore, each with its own refusal, in this order |
| BackupGuarantees.FirstRefusal | crates/anvil-app/src/backup.rs:619-658 | the transaction answers each refusal exactly when its check is the first to fail |
| BackupGuarantees.NamespacesClashExactly | crates/anvil-app/src/backup.rs:1277-1292 | namespaces clash exactly when a source of the backup uses the namespace of a stored one of another workspace that Replace does not claim |
| BackupGuarantees.ConflictIsRefused | crates/anvil-app/src/backup.rs:664-691 | what passes every check but conflicts is refused by the store, not by a check |
| BackupGuarantees.RestoreFollowsPreview | crates/anvil-app/src/backup.rs:536-545 | an accepted restore reports the plan its preview gave on the same store, and what the preview refuses the restore refuses |
| Counterexamples.RecordConflictRefuses | crates/anvil-app/src/backup.rs:1235-1256 | Replace with every plan check passing, refused by the store for a record of another request |
| Counterexamples.RevisionConflictRefuses | crates/anvil-app/src/backup.rs:1235-1256 | the same for a revision of another request |
| Counterexamples.KeptRequestRefuses | crates/anvil-app/src/backup.rs:1369-1387 | Merge refused by the store for a new revision whose request is kept in another workspace |
| Counterexamples.ReplaceDeletesRuleset | crates/anvil-app/src/backup.rs:664-668 | an accepted Replace that deletes a stored ruleset |
| Counterexamples.ReplaceCanShareNamespace | crates/anvil-app/src/backup.rs:1277-1292 | an accepted Replace after which two workspaces share a namespace that was one's |
| BackupGuarantees.OutsideWorkspaceUntouched | crates/anvil-app/src/backup.rs:555-586 | a stored workspace the backup does not claim keeps every row, secret, record and report, gains none, and keeps the app settings its requests use |
| BackupGuarantees.OwnersNeverChange | crates/anvil-app/src/backup.rs:570-577 | no stored row, secret, record or report changes owner under either policy |
| RulesetOrder.LoopListing | crates/anvil-app/src/backup.rs:1436-1443 | after the loop the stored order is the stored rulesets in their places, replaced or not, then the new ones in backup order |
| RulesetOrder.ArrivalsOrder | crates/anvil-app/src/backup.rs:1438-1442 | new rulesets get strictly increasing sort keys above every stored one |
| RulesetOrder.RestoredRulesetOrder | crates/anvil-app/src/standards.rs:46-73 | the order left is the one predicted and checked before anything was written |
| RulesetOrder.ListingIsOrdered | crates/anvil-app/src/backup.rs:1124-1128 | stored rulesets are listed by sort key, equal ones by id |
| RestoreKeeps.RestoredRulesets | crates/anvil-app/src/standards.rs:46-73 | a restore that writes the app settings leaves the backup's rulesets; any other leaves the stored ones in place, replaced under Replace, then the new ones in backup order; never more than the limits or than before |
| RestoreKeeps.RestoreKeepsValid | crates/anvil-app/src/backup.rs:1389-1492 | a restore leaves a store as sound as it found it |
| RestoreKeeps.RestoredSortKeys | crates/anvil-app/src/backup.rs:1390-1452 | every folder, request and run report written is placed by its own sort key, every other row but rulesets by none |
| RestoreKeeps.MergeKeepsStored | crates/anvil-app/src/backup.rs:1369-1387 | Merge leaves every stored item a backup could carry as it was, sort keys included |
| RestoreKeeps.RestoreDeletesExactly | crates/anvil-app/src/backup.rs:664-668 | exactly the bindings of rewritten objects and, when Replace restores the settings, the rulesets the backup does not carry are deleted; no secret, record or report is |
| RestoreKeeps.RestoreNeverWeakensLock | crates/anvil-app/src/backup.rs:669-683 | after a restore the idle lock is no later, and the lock with the system and the clearing of the clipboard are on where they were; the settings are the backup's exactly when Replace claims every stored workspace, with the lock kept, and reported so, exactly where the backup's protects less |
| RestoreAgain.RestoreTwiceIsOnce | crates/anvil-app/src/backup.rs:603-691 | restoring the same backup again leaves the same store |
| RestoreAgain.RestoreAgainAccepted | crates/anvil-app/src/backup.rs:603-691 | it is accepted again exactly when its workspaces are approved and no namespace clashes, which under Replace always holds |
| SpecNamespaces.OutsideNamespacesOwned | crates/anvil-app/src/backup.rs:1277-1292 | no workspace outside the backup comes to share a namespace |
| SpecNamespaces.NamespacesStayOwnedExactly | crates/anvil-app/src/backup.rs:1277-1292 | namespaces stay each one workspace's exactly when the written sources are consistent and, under Replace, clear of those that stay |
| PlanEffect.PlanMatchesEffect | crates/anvil-app/src/backup.rs:1203-1229 | the plan lists the items stored here in order, each once, up to 50 and the number of the others, and names what is stored under other owners; its numbers add up to its items and count those created, replaced and left alone, unwritten app settings under Merge aside |
| PlanEffect.PlanItemsMatchEffect | crates/anvil-app/src/backup.rs:1203-1229 | each listed item ends as its count says: unchanged, or the backup's |
| PlanEffect.MergePlanCanOvercount | crates/anvil-app/src/backup.rs:1212-1217 | a merge planned as one item to create that creates none |
| LinkedFiles.BindingDroppedExactly | crates/anvil-app/src/backup.rs:1455-1463 | a binding goes exactly when its request or dataset is written, or one of the other kind with its id |
| LinkedFiles.BindingsLeftUnwritten | crates/anvil-app/src/backup.rs:1455-1463 | every binding left belongs to an object the restore did not touch |
| LinkedFiles.UntouchedRequestCanLoseBinding | crates/anvil-app/src/backup.rs:1455-1463 | a merge that leaves a request untouched and drops its binding |
| FolderCycles.WalkUp | crates/anvil-portability/src/validate.rs:79-95 | a walk either meets itself, which is a cycle, or reaches a root all along |
| FolderCycles.FindCycle | crates/anvil-portability/src/validate.rs:72-95 | the linear search answers exactly whether every folder reaches a root |
| FolderCycles.NoCycleMeans | crates/anvil-portability/src/validate.rs:72-95 | that is: no set of folders holds its own parents |
| BackupDecode.ReadObjects | crates/anvil-app/src/backup.rs:874-922 | rows are read in order into lists by kind; they are accepted exactly when each is the first of its key, of a supported schema and holds its own object; a newer schema is refused as such exactly when it is all that is wrong with the first row at fault |
| BackupDecode.ReadSecrets | crates/anvil-app/src/backup.rs:960-972 | secrets are accepted exactly when ids are unique and owners are workspaces of the backup, and are read row by row |
| BackupDecode.ReadAttachments | crates/anvil-app/src/backup.rs:973-986 | attachments are accepted exactly when each is its own hash's content, once, and are read under their hashes |
| BackupDecode.ReadHistory | crates/anvil-app/src/backup.rs:987-1009 | records are accepted exactly when each is of a supported schema, under its own id, once, with a body that can be read unless its workspace is outside the backup; those are left out; a newer schema of the first row at fault is refused as such |
| BackupDecode.ReadReports | crates/anvil-app/src/backup.rs:1010-1025 | load reports are accepted exactly when each is of a supported schema and its id occurs once; a newer schema of the first row at fault is refused as such |
| DecodeAccepts.ObjectsDecided | crates/anvil-app/src/backup.rs:874-922 | which object rows are accepted, and that only a newer schema is refused as newer, over every file |
| DecodeAccepts.HistoryDecided | crates/anvil-app/src/backup.rs:987-1009 | the same for history records |
| DecodeAccepts.ReportsDecided | crates/anvil-app/src/backup.rs:1010-1025 | the same for load reports |
| DecodeAccepts.HistoryReadAs | crates/anvil-app/src/backup.rs:987-1009 | the records read are those of no workspace or of one of the backup, with their bodies |
| DecodeAccepts.ReportsReadAs | crates/anvil-app/src/backup.rs:1010-1025 | the reports read are those of the backup's workspaces |
| BackupDecode.CheckGraph | crates/anvil-portability/src/validate.rs:37-209 | ruleset names and limits, owners, links, cycles, unique ids and revision rows, together exactly the graph check |
| BackupDecode.AllDistinct | crates/anvil-portability/src/validate.rs:201-209 | whether no two objects share an id |
| BackupDecode.Decode | crates/anvil-app/src/backup.rs:874-1076 | contents decode to `Interpret`, or are refused for the first reason in the order of the checks, ruleset names and sizes included |
| DecodeDecision.DecodesContentsExactly | crates/anvil-app/src/backup.rs:872-1076 | contents decode exactly when every row can be read for itself, objects are in workspaces of the file and linked within them, revision rows agree with their requests, folders form no circle, no id is used twice and the rulesets fit a profile |
| DecodeDecision.NewerIsRefused | crates/anvil-app/src/backup.rs:363-373 | contents are refused as newer only for a record of a newer schema with nothing at fault before it in its list, and always when that is an object row |
| DecodeDecision.NewerRecordIsRefused | crates/anvil-app/src/backup.rs:987-1025 | the same of history records once objects, secrets and attachments are in order, and of load reports once records are too |
| DecodeDecision.RowsReadAs | crates/anvil-app/src/backup.rs:874-1058 | each decoded object has the owner, folder, data and sort key its row's payload has; a revision is read exactly where its request is in the file, in that request's workspace |
| DecodeDecision.RowIsRead | crates/anvil-app/src/backup.rs:874-922 | every row but rulesets, app settings and revisions is read |
| DecodeDecision.RulesetsReadAs | crates/anvil-app/src/backup.rs:899-924 | the rulesets are those the rows bring, by the sort key of their row or by their position in older app settings, equal ones by id |
| DecodeDecision.UncarriedAre | crates/anvil-app/src/backup.rs:1060 | an attachment is missing exactly when an object of the graph names it and its bytes are not carried |
| DecodeItems.ItemsAreOk | crates/anvil-app/src/backup.rs:874-1076 | the listed items are exactly what the restore writes, each once |
| DecodeItems.DecodedIsWellFormed | crates/anvil-app/src/backup.rs:872-1076 | what accepted contents are read as (`ReadFrom`) is a backup whose rows are owned by its workspaces, keyed once, with every revision's request present and every item listed |
| DecodeItems.InterpretReads | crates/anvil-app/src/backup.rs:872-1076 | the decoded backup is what its contents are read as |
| DecodeItems.DecodedIsSafe | crates/anvil-portability/src/validate.rs:153-345 | no decoded object but a revision has a protection off, an opt-in at any depth of its auth, or trust; folders name only environments of their workspace and requests only revisions of their own that come with them; app settings are as safe and bring no rulesets |
| DecodeDecision.ProtectionsOn | crates/anvil-portability/src/validate.rs:221-345 | every decoded TLS profile verifies, every gateway requires verified TLS, no scenario or load plan is trusted and no folder uses the workspace scope |
| DecodeItems.SafeIsReadAsWritten | crates/anvil-portability/src/validate.rs:153-345 | nothing else changes: an object is read as written exactly when it was safe and linked as written, a revision always |
| Guards.ImportedAuthAt | crates/anvil-portability/src/validate.rs:518-543 | the two passes over auth leave the same profiles at the same places, however deep, each only without its opt-in |
| Guards.ImportedIsSafe | crates/anvil-portability/src/validate.rs:221-345 | an import leaves every payload safe and linked, and changes exactly those that were not |
| Guards.ImportedIs | crates/anvil-portability/src/validate.rs:221-345 | field by field: the opt-ins of settings and auth go and nothing else of them, environments outside the workspace and revisions of other requests are dropped, the protections are on |
| BackupSnapshot.ReadKind | crates/anvil-app/src/backup.rs:697-722 | the carried rows of one kind in id order, orphan revisions left out, an unreadable row an error |
| BackupSnapshot.ReadFiles | crates/anvil-app/src/backup.rs:727-769 | every attachment whose content is here, each checked against its hash |
| BackupSnapshot.Snapshot | crates/anvil-app/src/backup.rs:693-773 | a snapshot is taken exactly when everything in it can be read, and carries exactly that |
| RoundTrip.DecodedSnapshotRestores | crates/anvil-app/src/backup.rs:516-534 | a snapshot that decodes restores into an empty profile and gives back every row with its owner, parent and sort key, the secrets, records, reports, attachments, ruleset order and settings, every workspace sealed |
| SnapshotDecodes.DecodesExactly | crates/anvil-app/src/backup.rs:522-534 | where the app settings keep no rulesets of an older version, a snapshot decodes exactly when the store's owners, links and import roots are stored, folders reach a root, ids of graph objects and rulesets differ, and rulesets are within their limits |
| SnapshotDecodes.ExportThenRestore | crates/anvil-app/src/backup.rs:516-534 | so every tidy, restorable profile that can be read is given back by restoring its backup into an empty one |
| SnapshotDecodes.OneFolderExports | crates/anvil-app/src/backup.rs:516-534 | a profile with a workspace and a folder at sort key 2.0 meets every hypothesis of the round trip |
| SnapshotDecodes.OneFolderComesBack | crates/anvil-app/src/backup.rs:516-534 | restored into an empty profile, that folder is back at 2.0 |
| BackupFile.Seal | crates/anvil-app/src/backup.rs:375-404 | a file is signature, length, header and an envelope whose associated data is all before it; each refusal is returned exactly when its limit is broken and no earlier one is |
| BackupFile.SealedOpens | crates/anvil-app/src/backup.rs:375-435 | a sealed file opens to exactly what was sealed under its passphrase, and under no other, given that its header and payload read back |
| BackupFile.FaithfulCodec | crates/anvil-app/src/backup.rs:375-404 | for every payload there is a codec that reads back it and every header an export writes |
| BackupFile.OnlySealedOpens | crates/anvil-app/src/backup.rs:408-435 | a file that opens is byte for byte a sealed one |
| BackupFile.HeaderDecided | crates/anvil-app/src/backup.rs:316-348 | a file's header opens, or is refused as newer or for its costs or salt, exactly by its fields |
| BackupFile.NoHeaderIsNoBackup | crates/anvil-app/src/backup.rs:316-348 | anything without a readable header is no backup |
| BackupFile.OpenDecided | crates/anvil-app/src/backup.rs:408-435 | a file with a sound header needs its passphrase, fails to authenticate exactly when nothing is sealed so, and opens exactly when its manifest is of a full backup in a schema this version reads; a newer object or database schema is refused as such |
| BackupFile.MostSignificantFirst | crates/anvil-app/src/backup.rs:324-331 | the length field is big-endian |
| BackupFile.FrameSplitsOnce | crates/anvil-app/src/backup.rs:320-348 | the length field fixes where the associated data ends |
| BackupFile.BigEndianRoundTrip | crates/anvil-app/src/backup.rs:324-331 | the length read back is the length written |
| BackupFile.PrefixIsEnough | crates/anvil-app/src/backup.rs:294-320 | the first 4108 bytes say everything the header says |
| BackupFile.LimitAgreesWithOpen | crates/anvil-app/src/backup.rs:298-315 | a backup is refused from its first bytes with the error opening it whole gives, or may be read whole |
| BackupFile.OtherFilesLimit | crates/anvil-app/src/backup.rs:298-315 | any other file is read up to 320 MiB |
| BackupExport.ExportBackup | crates/anvil-app/src/backup.rs:522-534 | an export succeeds exactly when passphrase and costs are accepted, the store can be read, its snapshot decodes and the file fits; the file holds that snapshot and opens only with its passphrase |
| BackupExport.OpenForRestore | crates/anvil-app/src/backup.rs:833-844 | a file opens for a restore as its contents decode, or is refused as opening or decoding says |
| BackupExport.ExportedFileGivesBack | crates/anvil-app/src/backup.rs:516-691 | exporting, opening and restoring into an empty profile gives the profile back |
| BackupExport.OneFolderFile | crates/anvil-app/src/backup.rs:516-691 | the file of that profile meets the hypotheses of this |
| DeviceIdentity.UsesIsSomeToken | crates/anvil-app/src/device_identity.rs:82-90 | auth uses this device's identity exactly when some JWT-SVID in it, at any depth, is not a stored value |
| DeviceIdentity.EffectiveAuthIs | crates/anvil-engine/src/context.rs:211-218 | the auth in force is that of the last layer that does not inherit, and none where all do |
| DeviceIdentity.SelectedTlsIdsAre | crates/anvil-app/src/device_identity.rs:99-107 | a request selects the TLS profile the last layer that names one names, and the one of the proxy the last layer that decides on a proxy selects |
| DeviceIdentity.SealedSendsExactly | crates/anvil-app/src/device_identity.rs:92-118 | a sealed workspace's request is sent exactly when neither the auth of the last layer that does not inherit nor a TLS profile it or its proxy selects presents this device's identity, with lookups paused and nothing else changed; any other workspace's as it is |
| DeviceIdentity.AllowDeviceIdentity | crates/anvil-app/src/device_identity.rs:51-57 | allowing lifts this workspace's seal and nothing else |
| RestoreRuns.ClaimedStaysSealed | crates/anvil-app/src/device_identity.rs:3-24 | a workspace some restore claimed is sealed ever after, until the user allows or deletes it |
| RestoreRuns.ClaimedPresentsNothing | crates/anvil-app/src/exec.rs:544-559 | until then no request of it presents anything of this device |
| RestoreRuns.LockNeverWeakens | crates/anvil-app/src/backup.rs:669-683 | over any run each of the three lock protections is weakened only by the user's own settings |
| RestoreRuns.UnclaimedStaysUntouched | crates/anvil-app/src/backup.rs:555-586 | any number of restores that do not claim a workspace, and deletions and allowings of others, leave everything it owns as it was |
| RestoreRuns.DeleteLeavesOthers | crates/anvil-app/src/workspace.rs:114-138 | deleting a workspace leaves what others own, and of its own only revisions that cannot be read |
| RestoreRuns.RunIsValid | crates/anvil-app/src/backup.rs:603-691 | every state of a run is sound |
| Sessions.Workbench.Connect | apps/desktop/src/Workbench.tsx:504-512 | only a tab that runs nothing connects; owner, tabs and pending open are recorded before the open is sent |
| Sessions.Workbench.OnOpened | apps/desktop/src/Workbench.tsx:536-537 | an early abort is repeated once the open succeeded |
| Sessions.Workbench.OnOpenFailed | apps/desktop/src/Workbench.tsx:524-535 | a failed open clears its own traces, and is shown unless it was stopped |
| Sessions.Workbench.SendCancel | apps/desktop/src/Workbench.tsx:555-561 | an abort marks the attempt and remembers whether it was opening |
| Sessions.Workbench.AbortTab | apps/desktop/src/Workbench.tsx:573-580 | the console aborts the session its tab shows |
| Sessions.Workbench.OnCancelReply | apps/desktop/src/Workbench.tsx:562-571 | a failed cancel takes the stop back and keeps the tab; one that found nothing takes it back, records it as early or is sent again once; a closing tab then closes |
| Sessions.Workbench.CloseTab | apps/desktop/src/Workbench.tsx:582-626 | closing first cancels the session or the send the tab runs; with neither the tabs of the request go at once |
| Sessions.Workbench.SendTab | apps/desktop/src/Workbench.tsx:478-485 | only a tab that runs nothing sends, and then waits for its reply |
| Sessions.Workbench.OnSendReply | apps/desktop/src/Workbench.tsx:485-500 | a send's reply ends the wait of the tabs of its request |
| Sessions.Workbench.OnStopReply | apps/desktop/src/Workbench.tsx:584-626 | a closing tab closes once its send is canceled, and stays when that fails |
| Sessions.Workbench.OnEnded | apps/desktop/src/Workbench.tsx:249-268 | an end event of a detached attempt is forgotten, of an owned one clears its tab, of any other does nothing |
| Sessions.RunKeeps | apps/desktop/src/Workbench.tsx:134-146 | in every state early aborts are pending opens, owners are attached or detached but not both, every session shown has its owner, an attempt is shown by tabs of one request only, and no tab has a session and waits for a send |
| Sessions.EndTouchesOneRequest | apps/desktop/src/Workbench.tsx:249-268 | an end event changes exactly the tabs that show its execution and attempt, all of one request |
| Sessions.LiveTabStays | apps/desktop/src/Workbench.tsx:582-626 | a request's tab goes only when nothing runs for it, or once the cancel its closing sent is answered without an error |
| Sessions.WaitsEndExactly | apps/desktop/src/Workbench.tsx:478-503 | a tab waits only for a pending send of its own request, never with a session; a reply ends the wait of exactly its request's tabs |
| Sessions.LateReplyEndsWait | apps/desktop/src/Workbench.tsx:478-503 | a run in which a canceled send's late reply ends the wait for a newer send that is still pending |
| Sessions.RetriesOnce | apps/desktop/src/Workbench.tsx:555-571 | a retried cancel is never retried again |
| Sessions.NoLostAbort | apps/desktop/src/Workbench.tsx:550-571 | an abort asked for while its open was pending ends in an answered cancel, a failed open, or a cancel sent after the open succeeded |
| Sessions.AbandonedOpenIsQuiet | apps/desktop/src/Workbench.tsx:524-535 | an open stopped while pending is no error to show when it fails, unless a cancel of it failed or its end event came first |
| Sessions.StoppedExactly | apps/desktop/src/Workbench.tsx:534-571 | over any run an attempt is marked as stopped exactly when a cancel of it was asked for and since then none of it failed or found an open session over, its open did not fail and its end did not arrive |
| Sessions.TakenBackIsShown | apps/desktop/src/Workbench.tsx:524-566 | so an open is reported when it fails, if every cancel of it was taken back before |
| Sessions.FailedAbortIsShown | apps/desktop/src/Workbench.tsx:524-566 | a run in which the only abort of a pending open fails, and the open is no longer marked as stopped |
| Saves.Editor.OpenRequest | apps/desktop/src/Workbench.tsx:325-332 | a request is read unless a tab shows it |
| Saves.Editor.ShowRead | apps/desktop/src/Workbench.tsx:325-332 | the answer gets a tab of its own, whatever happened since it was asked for |
| Saves.Editor.SaveTab | apps/desktop/src/Workbench.tsx:355-360 | a save chains on the pending one of its request |
| Saves.Editor.EditDraft | apps/desktop/src/Workbench.tsx:302 | an edit gives every tab of the request one new draft and leaves the baselines |
| Saves.Editor.OnReply | apps/desktop/src/Workbench.tsx:361-366 | a delivered reply rebases every tab of its request |
| Saves.Editor.OnDone | apps/desktop/src/Workbench.tsx:367-371 | a finished save frees the chain if it is the last asked for |
| Saves.BackendSteps | apps/desktop/src/Workbench.tsx:325-372 | the backend answers a read with the newest value stored, and a save whose turn has come adds one or fails |
| Saves.SavesAreSerial | apps/desktop/src/Workbench.tsx:350-372 | saves of one request are called one at a time in the order asked, failures or not |
| Saves.LastSaveWins | apps/desktop/src/Workbench.tsx:350-372 | all the backend ever stored of a request is what was there first and every successful save, in the order asked |
| Saves.EditsSurviveSaves | apps/desktop/src/Workbench.tsx:350-372 | edits made while a save was pending stay, unsaved unless they equal what was written |
| Baselines.BaselineIsStored | apps/desktop/src/Workbench.tsx:325-372 | a tab's baseline is always some stored value, and the newest exactly when the tab is not late and no undelivered save is newer |
| Baselines.LateExactly | apps/desktop/src/Workbench.tsx:325-372 | a tab opens late exactly when a save was written and delivered between its read's answer and its opening |
| Baselines.OnlyShownLate | apps/desktop/src/Workbench.tsx:361-366 | no open tab becomes late, and a delivered save leaves no tab of its request late |
| Baselines.ReopenedTabIsLate | apps/desktop/src/Workbench.tsx:325-372 | a run that saves, closes and reopens a request, and ends with a clean tab on the old value and nothing pending |
| LatestReads.Lists.OnAnswer | apps/desktop/src/Workbench.tsx:166-180 | an answer or error counts only for the latest read of the selected workspace's list |
| LatestReads.NeverOlder | apps/desktop/src/Workbench.tsx:166-180 | a list is never replaced by an older read of it |
| LatestReads.LatestReadShown | apps/desktop/src/Workbench.tsx:166-180 | once the latest read of a list succeeded it stays shown, whatever earlier reads answer later |
| Runner.RunnerView.Start | apps/desktop/src/RunnerView.tsx:124-131 | a second start while the slot is taken does nothing |
| Runner.RunnerView.OnStarted | apps/desktop/src/RunnerView.tsx:139-148 | the id's run is shown with what was recorded for it, or not at all once finished |
| Runner.RunnerView.OnEvent | apps/desktop/src/RunnerView.tsx:102-106 | an event is recorded while starting, shown for the running run, else dropped |
| Runner.RunnerView.OnFinished | apps/desktop/src/RunnerView.tsx:107-118 | a finish frees the slot of its run, or is recorded while starting |
| Runner.RunnerView.Stop | apps/desktop/src/RunnerView.tsx:169-175 | a stop cancels the run, or is kept until its id is known |
| Runner.RunnerView.OnCancelReply | apps/desktop/src/RunnerView.tsx:151-167 | a run no longer found frees the slot, a failed cancel can be tried again |
| Runner.OneRunAtATime | apps/desktop/src/RunnerView.tsx:14-26 | slot and screen always agree, at most one run is ever going, and none while a start is pending or the slot is idle |
| Runner.ShownRunIsCurrent | apps/desktop/src/RunnerView.tsx:101-118 | a run is never shown once its finish came, and what is shown are the last 500 of its notes, in order |
| Runner.CancelAnswered | apps/desktop/src/RunnerView.tsx:151-167 | over any run a cancel that finds its run gone frees the slot, a failed one clears the stopping mark, and one that works changes nothing on screen |
| Runner.CancelsSent | apps/desktop/src/RunnerView.tsx:124-175 | a cancel is sent exactly by a stop of the running run, or when the id comes of a run stopped before it and not finished |
| Runner.Tracked | apps/desktop/src/RunnerView.tsx:101-118 | the runs begun, ended and finished are those of the events so far |
| Runner.NotesKept | apps/desktop/src/RunnerView.tsx:101-106 | the notes kept of a run are those of its events so far, in order |
| Runner.StopBeforeIdCancels | apps/desktop/src/RunnerView.tsx:124-175 | a Stop pressed before the id is known cancels the run when it arrives, unless it finished |
| LoadRuns.LoadView.OnStarted | apps/desktop/src/LoadView.tsx:432-436 | a run that finished early is never shown |
| LoadRuns.LoadView.OnFinished | apps/desktop/src/LoadView.tsx:259-266 | a finish ends a shown run, or is remembered for its reply |
| LoadRuns.ShownWhileLive | apps/desktop/src/LoadView.tsx:187-195 | each run is shown once, exactly from the event of its start reply to that of its finish |
| LoadRuns.NothingLeaks | apps/desktop/src/LoadView.tsx:187-195 | once every run has replied and finished nothing is kept |
| LockScreen.RecoveryKeyStays | apps/desktop/src/LockScreen.tsx:71-131 | a recovery key on display stays until it is stored or a newer one is created |
| LockScreen.CreatedKeyIsShown | apps/desktop/src/LockScreen.tsx:71-131 | a created key is shown on whatever screen, and stays so |
| LockScreen.RunsConsistent | apps/desktop/src/LockScreen.tsx:56-131 | enrollment after a reset is always enrollment with the recovery key |
| LockScreen.LockedStaysLocked | apps/desktop/src/LockScreen.tsx:115-131 | after a lock no screen needs an unlocked backend, until something that follows an unlock says so |
| LockScreen.BackReturns | apps/desktop/src/LockScreen.tsx:56-131 | Back from enrollment returns to the screen it came from exactly unless a lock came between on the way from the new-passphrase step |
| LockScreen.FormLeads | apps/desktop/src/LockScreen.tsx:71-131 | where each action leads from a form, with the message left |
| LockScreen.StepLeads | apps/desktop/src/LockScreen.tsx:71-131 | the same while a profile opens by itself or a new passphrase is chosen, a lock before it was saved included |
| LockScreen.EnrollLeads | apps/desktop/src/LockScreen.tsx:71-131 | the same during enrollment and while a recovery key is on display |
| LockScreen.ScreenCameFrom | apps/desktop/src/LockScreen.tsx:56-131 | each screen is reached only by the action that asks for it |
| LockScreen.ErrorCameFrom | apps/desktop/src/LockScreen.tsx:107-114 | only a failure of the step on screen, a changed passphrase or an enrolled policy leaves a message |
| Drift.UnderRoot | crates/anvil-app/src/drift.rs:45-64 | the fixed point ends for every folder list and is exactly the root and the folders whose parents lead to it |
| Drift.DriftRequests | crates/anvil-app/src/drift.rs:40-73 | exactly the requests from the import under its current or an earlier id, in its folder, or all of them where it made a workspace; each with the operation it was imported from |
| Drift.DriftObservations | crates/anvil-app/src/drift.rs:75-101 | the first min(limit, 1000) covered entries with a stored record among the newest 20 times as many, in order, and how many were scanned |

## Left out

- Cryptography, Argon2id, base64, JSON and SHA-256: ideal keys, envelopes and hashes, and a codec given as functions.
- SQLite, the record catalogue, checkpoints on disk and blob garbage collection: the store is a set of tables and a rollback puts them back.
- A row's update time: rulesets with equal sort keys are listed by id.
- Labels, notes, warnings and the list of missing secrets in a restore's report.
- The loading of API standards; limits count rulesets and their bytes, names are their lengths.
- Of auth and request settings only what an import changes is told apart; the rest is one number, and reading it for the files it names never fails.
- Stored payloads carry the current schema version, so an export never meets one it cannot read for that reason.
- Ids are numbers: the text form of an id and of a hash is parsed or not, with no casing.
- Times are integers given by the caller; sort keys are reals.
- `Seal` and `ExportBackup` take their randomness (salt, nonce and so the envelope) as arguments.
- A lock while sessions, runs or load tests are live, deleting requests whose tabs run something, and entries of stopped sessions whose end event never arrives.
- Saved requests change in the model only by saves from their tabs: renames, moves, deletions, imports under open tabs and relocated linked files are not modelled.
- A tab's `version` in `Saves` is bookkeeping for the statements about baselines; the window keeps no such number.
- Tab and list state is read as React has applied it; rendering, selection, drafts of scenarios and plans, and load progress are left out.
- Redaction of drift observations and the comparison with the description.
- RestoreRuns.DeleteLeavesOthers: attachments nothing names any more stay; the source drops those of the deleted workspace.
- RestoreRuns.RunIsValid: edits in the app are any change that keeps the store sound, seals and workspaces; their own operations are not modelled.
