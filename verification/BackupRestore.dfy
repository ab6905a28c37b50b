/**
 * Restoring a full backup: what the profile holds already, the plan shown
 * before writing, every check that refuses a restore, and the transaction.
 */
module BackupRestore {
  import opened Prelude
  import opened Store
  import opened Rulesets
  import opened BackupWrite

  const MAX_LISTED_CONFLICTS: nat := 50

  /** The items stored here already, up to a limit, and how many more there are. */
  datatype Conflicts = Conflicts(listed: seq<Item>, more: nat)

  datatype Plan = Plan(policy: Policy, toCreate: nat, toReplace: nat, skipped: nat, conflicts: Conflicts,
                       foreignSecrets: set<Id>, foreignObjects: set<Item>, existingWorkspaces: set<Id>)

  /** What the user confirmed after a preview: workspaces, for the file with this digest. */
  datatype Approval = Approval(workspaces: set<Id>, digest: Option<Hash>)

  datatype BackupError =
    | NotABackup | FutureFormat | FutureSchema | UnsupportedKdf | TooLarge | WeakPassphrase
    | PassphraseRequired | Authentication | DuplicateUnsupported | Invalid

  datatype RestoreError =
    | FileChanged | UnboundApproval | BadFile(cause: BackupError) | Canceled
    | NamespaceClash | UncarriedStored | Unapproved | ForeignObjects | ForeignSecrets
    | StandardsLimit | StoreRefused(store: StoreError)

  datatype Restored = Restored(plan: Plan, withheld: Option<LockPolicy>)

  const SETTINGS_ITEM := ObjectItem(Key(AppSettings, SETTINGS_ID))

  function StoredWorkspaces(db: Db): set<Id> {
    set k | k in db.objects && k.kind == Workspace :: k.id
  }

  /** The backup brings app settings, and those stored here stay in force. */
  predicate KeepsSettings(d: Decoded, db: Db, policy: Policy) {
    d.settings.Some? && (policy == Merge || StoredWorkspaces(db) - Workspaces(d) != {})
  }

  predicate KeepsRulesets(d: Decoded, db: Db, policy: Policy) {
    d.settings.None? || KeepsSettings(d, db, policy)
  }

  /** Backup objects and records stored here in another workspace than the backup gives them. */
  function ForeignItems(d: Decoded, db: Db): set<Item> {
    (set e | e in d.graph + d.trailing && e.key in db.objects && db.objects[e.key].owner != e.row.owner :: ObjectItem(e.key))
    + (set r | r in d.rulesets && RulesetKey(r) in db.objects && db.objects[RulesetKey(r)].owner != None :: ObjectItem(RulesetKey(r)))
    + (set h | h in d.history && h.id in db.history && db.history[h.id].workspace != h.record.workspace :: HistoryItem(h.id))
    + (set r | r in d.reports && r.id in db.reports && db.reports[r.id].workspace != r.report.workspace :: ReportItem(r.id))
  }

  /** The backup's secrets whose stored namesakes have a different owner. */
  function ForeignSecretIds(d: Decoded, db: Db): set<Id> {
    set s | s in d.secrets && s.id in db.secrets && db.secrets[s.id].owner != s.secret.owner :: s.id
  }

  /** No backup object or record is stored here in another workspace. */
  ghost predicate ItemsAtHome(d: Decoded, db: Db) {
    && (forall e :: e in d.graph + d.trailing && e.key in db.objects ==> db.objects[e.key].owner == e.row.owner)
    && (forall r :: r in d.rulesets && RulesetKey(r) in db.objects ==> db.objects[RulesetKey(r)].owner == None)
    && (forall h :: h in d.history && h.id in db.history ==> db.history[h.id].workspace == h.record.workspace)
    && (forall r :: r in d.reports && r.id in db.reports ==> db.reports[r.id].workspace == r.report.workspace)
  }

  ghost predicate SecretsAtHome(d: Decoded, db: Db) {
    forall s :: s in d.secrets && s.id in db.secrets ==> db.secrets[s.id].owner == s.secret.owner
  }

  /** The plan names nothing foreign exactly when everything is at home. */
  lemma ForeignMeans(d: Decoded, db: Db)
    ensures ForeignItems(d, db) == {} <==> ItemsAtHome(d, db)
    ensures ForeignSecretIds(d, db) == {} <==> SecretsAtHome(d, db)
  {
    forall e | e in d.graph + d.trailing && e.key in db.objects && db.objects[e.key].owner != e.row.owner
      ensures ObjectItem(e.key) in ForeignItems(d, db) {}
    forall r | r in d.rulesets && RulesetKey(r) in db.objects && db.objects[RulesetKey(r)].owner != None
      ensures ObjectItem(RulesetKey(r)) in ForeignItems(d, db) {}
    forall h | h in d.history && h.id in db.history && db.history[h.id].workspace != h.record.workspace
      ensures HistoryItem(h.id) in ForeignItems(d, db) {}
    forall r | r in d.reports && r.id in db.reports && db.reports[r.id].workspace != r.report.workspace
      ensures ReportItem(r.id) in ForeignItems(d, db) {}
    forall s | s in d.secrets && s.id in db.secrets && db.secrets[s.id].owner != s.secret.owner
      ensures s.id in ForeignSecretIds(d, db) {}
  }

  /** The items of `items` that are stored here, in order. */
  function Clashing(items: seq<Item>, db: Db): seq<Item> {
    if items == [] then []
    else var n := |items| - 1; Clashing(items[..n], db) + if Held(db, items[n]) then [items[n]] else []
  }

  lemma {:induction false} ClashingCount(items: seq<Item>, db: Db)
    ensures |Clashing(items, db)| <= |items|
    ensures Elements(Clashing(items, db)) == set i | i in items && Held(db, i)
    ensures NoDup(items) ==> NoDup(Clashing(items, db))
  {
    if items == [] {
    } else {
      var n := |items| - 1;
      var c := Clashing(items[..n], db);
      ClashingCount(items[..n], db);
      assert items == items[..n] + [items[n]];
      forall i ensures i in Clashing(items, db) <==> i in items && Held(db, i) {
        assert i in c <==> i in Elements(c);
      }
      if NoDup(items) && Held(db, items[n]) {
        forall x | x in c ensures x != items[n] {
          assert x in Elements(c);
        }
        NoDupConcat(c, [items[n]]);
      }
    }
  }

  /** Decoding lists the app settings among the items whenever the backup has them. */
  predicate ListsSettings(d: Decoded) {
    d.settings.Some? <==> SETTINGS_ITEM in d.items
  }

  /** What the restore reports it will create, replace and leave alone. */
  function RestorePlan(d: Decoded, db: Db, policy: Policy): Plan
    requires ListsSettings(d)
  {
    var clashes := Clashing(d.items, db);
    ClashingCount(d.items, db);
    var n, c := |d.items|, |clashes|;
    var kept := policy == Replace && KeepsSettings(d, db, policy);
    assert kept && Held(db, SETTINGS_ITEM) ==> SETTINGS_ITEM in Elements(clashes);
    assert kept && !Held(db, SETTINGS_ITEM) ==> c < n by {
      if kept && !Held(db, SETTINGS_ITEM) {
        FewerClashes(d.items, db, SETTINGS_ITEM);
      }
    }
    var counts :=
      if policy == Merge then (n - c, 0, c)
      else if kept && Held(db, SETTINGS_ITEM) then (n - c, c - 1, 1)
      else if kept then (n - c - 1, c, 1)
      else (n - c, c, 0);
    var conflicts :=
      if c > MAX_LISTED_CONFLICTS then Conflicts(clashes[..MAX_LISTED_CONFLICTS], c - MAX_LISTED_CONFLICTS) else Conflicts(clashes, 0);
    Plan(policy, counts.0, counts.1, counts.2, conflicts,
         ForeignSecretIds(d, db), ForeignItems(d, db), Workspaces(d) * StoredWorkspaces(db))
  }

  lemma {:induction false} FewerClashes(items: seq<Item>, db: Db, x: Item)
    requires x in items && !Held(db, x)
    ensures |Clashing(items, db)| < |items|
  {
    var n := |items| - 1;
    ClashingCount(items[..n], db);
    if items[n] != x {
      assert x in items[..n];
      FewerClashes(items[..n], db, x);
    }
  }

  ghost predicate Increasing(at: seq<nat>) {
    forall i, j :: 0 <= i < j < |at| ==> at[i] < at[j]
  }

  /** `at` are the positions in `items` of what is stored here, in order. */
  ghost predicate HeldAt(db: Db, items: seq<Item>, at: seq<nat>) {
    && Increasing(at)
    && forall p: nat {:trigger p in at} :: p in at <==> p < |items| && Held(db, items[p])
  }

  lemma IncreasingMore(at: seq<nat>, n: nat)
    requires Increasing(at) && forall p: nat {:trigger p in at} :: p in at ==> p < n
    ensures Increasing(at + [n])
  {
    assert forall i :: 0 <= i < |at| ==> at[i] in at;
  }

  lemma HeldAtMore(db: Db, items: seq<Item>, n: nat, before: seq<nat>)
    requires n + 1 == |items| && HeldAt(db, items[..n], before)
    ensures HeldAt(db, items, if Held(db, items[n]) then before + [n] else before)
  {
    var at := if Held(db, items[n]) then before + [n] else before;
    forall p: nat ensures p in at <==> p < |items| && Held(db, items[p]) {
      assert p in before <==> p < n && Held(db, items[..n][p]);
      assert p in at <==> p in before || (p == n && Held(db, items[n]));
    }
    IncreasingMore(before, n);
  }

  /** `c` are the items at these positions. */
  ghost predicate ItemsAt(items: seq<Item>, at: seq<nat>, c: seq<Item>) {
    |at| == |c| && forall j :: 0 <= j < |at| ==> at[j] < |items| && c[j] == items[at[j]]
  }

  lemma ItemsAtMore(items: seq<Item>, n: nat, before: seq<nat>, c: seq<Item>)
    requires n + 1 == |items| && ItemsAt(items[..n], before, c)
    ensures ItemsAt(items, before, c) && ItemsAt(items, before + [n], c + [items[n]])
  {
    forall j | 0 <= j < |before| ensures before[j] < |items| && c[j] == items[before[j]] {
      assert c[j] == items[..n][before[j]];
    }
  }

  lemma {:induction false} ClashingPositions(items: seq<Item>, db: Db) returns (at: seq<nat>)
    ensures HeldAt(db, items, at) && ItemsAt(items, at, Clashing(items, db))
  {
    if items == [] {
      at := [];
    } else {
      var n := |items| - 1;
      var before := ClashingPositions(items[..n], db);
      HeldAtMore(db, items, n, before);
      ItemsAtMore(items, n, before, Clashing(items[..n], db));
      at := if Held(db, items[n]) then before + [n] else before;
      assert Clashing(items, db) == Clashing(items[..n], db) + if Held(db, items[n]) then [items[n]] else [];
    }
  }

  /**
   * A plan lists what is stored here in the order of `items`: all of it, or the
   * first 50 and the number of the others.
   */
  ghost predicate ListsConflicts(db: Db, items: seq<Item>, c: Conflicts) {
    && |c.listed| <= 50 && (c.more > 0 ==> |c.listed| == 50)
    && exists at: seq<nat> :: HeldAt(db, items, at) && |at| == |c.listed| + c.more && ItemsAt(items, at[..|c.listed|], c.listed)
  }

  /** Some workspace stored here is not one of the backup's. */
  ghost predicate HasOtherWorkspace(d: Decoded, db: Db) {
    exists ws: Id :: Key(Workspace, ws) in db.objects && forall e :: e in d.graph ==> e.key != Key(Workspace, ws)
  }

  /** The counts follow from how many items are stored here and from what becomes of the app settings. */
  ghost predicate CountsConflicts(d: Decoded, db: Db, policy: Policy, p: Plan) {
    var stored := |p.conflicts.listed| + p.conflicts.more;
    var kept := d.settings.Some? && policy == Replace && HasOtherWorkspace(d, db);
    var both := kept && Key(AppSettings, SETTINGS_ID) in db.objects;
    && p.policy == policy
    && (policy == Merge ==> p.toCreate == |d.items| - stored && p.toReplace == 0 && p.skipped == stored)
    && (policy != Merge ==>
          && p.toCreate == |d.items| - stored - (if kept && !both then 1 else 0)
          && p.toReplace == stored - (if both then 1 else 0)
          && p.skipped == (if kept then 1 else 0))
  }

  /** The item is the backup's, and is stored here under another owner. */
  ghost predicate StoredElsewhere(d: Decoded, db: Db, i: Item) {
    match i
    case ObjectItem(k) =>
      && k in db.objects
      && ((exists e :: e in d.graph + d.trailing && e.key == k && db.objects[k].owner != e.row.owner)
          || (exists r :: r in d.rulesets && k == Key(ApiRuleset, r.id) && db.objects[k].owner.Some?))
    case SecretItem(id) => id in db.secrets && exists s :: s in d.secrets && s.id == id && db.secrets[id].owner != s.secret.owner
    case HistoryItem(id) => id in db.history && exists h :: h in d.history && h.id == id && db.history[id].workspace != h.record.workspace
    case ReportItem(id) => id in db.reports && exists r :: r in d.reports && r.id == id && db.reports[id].workspace != r.report.workspace
  }

  /** The plan names exactly what is stored here under other owners, and the backup's workspaces stored here. */
  ghost predicate NamesForeign(d: Decoded, db: Db, p: Plan) {
    && (forall id :: id in p.foreignSecrets <==> StoredElsewhere(d, db, SecretItem(id)))
    && (forall i :: i in p.foreignObjects <==> !i.SecretItem? && StoredElsewhere(d, db, i))
    && (forall ws: Id :: ws in p.existingWorkspaces <==> Key(Workspace, ws) in db.objects && exists e :: e in d.graph && e.key == Key(Workspace, ws))
  }

  lemma ForeignNamed(d: Decoded, db: Db, i: Item)
    ensures i in ForeignItems(d, db) <==> !i.SecretItem? && StoredElsewhere(d, db, i)
    ensures i.SecretItem? ==> (i.id in ForeignSecretIds(d, db) <==> StoredElsewhere(d, db, i))
  {
  }

  lemma OtherWorkspaceMeans(d: Decoded, db: Db)
    ensures StoredWorkspaces(db) - Workspaces(d) != {} <==> HasOtherWorkspace(d, db)
  {
    if ws: Id :| Key(Workspace, ws) in db.objects && forall e :: e in d.graph ==> e.key != Key(Workspace, ws) {
      assert ws in StoredWorkspaces(db) - Workspaces(d);
    }
    if StoredWorkspaces(db) - Workspaces(d) != {} {
      var ws :| ws in StoredWorkspaces(db) - Workspaces(d);
      forall e | e in d.graph ensures e.key != Key(Workspace, ws) {
        assert e.key == Key(Workspace, ws) ==> e.key.id in Workspaces(d);
      }
    }
  }

  lemma PlanLists(d: Decoded, db: Db, policy: Policy)
    requires ListsSettings(d)
    ensures ListsConflicts(db, d.items, RestorePlan(d, db, policy).conflicts)
    ensures NoDup(d.items) ==> NoDup(RestorePlan(d, db, policy).conflicts.listed)
  {
    var at := ClashingPositions(d.items, db);
    ClashingCount(d.items, db);
  }

  lemma PlanCounts(d: Decoded, db: Db, policy: Policy)
    requires ListsSettings(d)
    ensures CountsConflicts(d, db, policy, RestorePlan(d, db, policy))
  {
    OtherWorkspaceMeans(d, db);
  }

  lemma PlanNames(d: Decoded, db: Db, policy: Policy)
    requires ListsSettings(d)
    ensures NamesForeign(d, db, RestorePlan(d, db, policy))
  {
    var p := RestorePlan(d, db, policy);
    forall i ensures i in p.foreignObjects <==> !i.SecretItem? && StoredElsewhere(d, db, i) {
      ForeignNamed(d, db, i);
    }
    forall id ensures id in p.foreignSecrets <==> StoredElsewhere(d, db, SecretItem(id)) {
      ForeignNamed(d, db, SecretItem(id));
    }
  }

  /** What a plan says: its list, its counts and what it names, each in terms of the backup and the store. */
  lemma PlanSays(d: Decoded, db: Db, policy: Policy)
    requires ListsSettings(d)
    ensures ListsConflicts(db, d.items, RestorePlan(d, db, policy).conflicts)
    ensures CountsConflicts(d, db, policy, RestorePlan(d, db, policy)) && NamesForeign(d, db, RestorePlan(d, db, policy))
    ensures NoDup(d.items) ==> NoDup(RestorePlan(d, db, policy).conflicts.listed)
  {
    PlanLists(d, db, policy);
    PlanCounts(d, db, policy);
    PlanNames(d, db, policy);
  }

  function SpaceOf(row: Row): Option<int> {
    if row.value.data.SpecData? then Some(row.value.data.space) else None
  }

  /** An incoming spec source uses an id namespace of a source stored in another workspace that stays. */
  predicate ClashesWith(e: Entry, k: Key, row: Row, replaced: set<Id>) {
    && e.key.kind == SpecSource && k.kind == SpecSource
    && SpaceOf(row) == SpaceOf(e.row)
    && row.owner != e.row.owner
    && (row.owner.Some? ==> row.owner.value !in replaced)
  }

  predicate NamespacesClash(d: Decoded, db: Db, policy: Policy) {
    var replaced := if policy == Replace then Workspaces(d) else {};
    exists e, k :: e in d.trailing && k in db.objects && ClashesWith(e, k, db.objects[k], replaced)
  }

  /** The hashes named without their bytes whose content is stored here. */
  function UncarriedHere(d: Decoded, db: Db): set<Hash> {
    set h | h in d.uncarried && h in db.files && db.files[h].content.Some?
  }

  /** Every check on the plan, in the order a restore makes them. */
  function PlanRefusal(d: Decoded, db: Db, policy: Policy, approval: Approval): Option<RestoreError>
    requires ListsSettings(d)
  {
    var plan := RestorePlan(d, db, policy);
    if NamespacesClash(d, db, policy) then Some(NamespaceClash)
    else if UncarriedHere(d, db) != {} then Some(UncarriedStored)
    else if !(plan.existingWorkspaces <= approval.workspaces) then Some(Unapproved)
    else if policy == Replace && plan.foreignObjects != {} then Some(ForeignObjects)
    else if policy == Replace && plan.foreignSecrets != {} then Some(ForeignSecrets)
    else None
  }

  /** The rulesets Merge leaves as they are stored. */
  function SkippedIds(d: Decoded, db: Db, policy: Policy): set<Id> {
    if policy == Merge then (set r | r in d.rulesets && Held(db, ObjectItem(RulesetKey(r))) :: r.id) else {}
  }

  /** The rulesets this profile will hold, predicted before anything is written. */
  function CombinedRulesets(d: Decoded, db: Db, policy: Policy, local: seq<Ruleset>): seq<Ruleset> {
    var keep := KeepsRulesets(d, db, policy);
    var replacing := if policy == Replace && keep then Ids(d.rulesets) else {};
    Combine(local, d.rulesets, replacing, policy != Replace || keep, SkippedIds(d, db, policy))
  }

  /** How `next` protects the profile less than `was` does. */
  predicate Weakens(was: LockPolicy, next: LockPolicy) {
    || (was.idleMinutes != 0 && (next.idleMinutes == 0 || next.idleMinutes > was.idleMinutes))
    || (was.lockOnOsLock && !next.lockOnOsLock)
    || (was.clearClipboard && !next.clearClipboard)
  }

  /** The backup's lock policy, when this profile's is kept over it. */
  function Withheld(d: Decoded, db: Db, policy: Policy): Option<LockPolicy> {
    if d.settings.Some? && !KeepsSettings(d, db, policy) && Weakens(SettingsOf(db.objects).lock, d.settings.value.lock)
    then Some(d.settings.value.lock) else None
  }

  function WriterFor(d: Decoded, db: Db, policy: Policy): Writer {
    Writer(db, policy == Merge, KeepsSettings(d, db, policy),
           if Withheld(d, db, policy).Some? then Some(SettingsOf(db.objects).lock) else None)
  }

  /** The rulesets Replace deletes before it writes. */
  function Dropped(d: Decoded, db: Db, policy: Policy): set<Key> {
    if policy == Replace && !KeepsRulesets(d, db, policy) then set k | k in db.objects && k.kind == ApiRuleset else {}
  }

  /** One seal row for every workspace the backup writes. */
  function SealEntries(graph: seq<Entry>): seq<Entry> {
    if graph == [] then []
    else (if graph[0].key.kind == Workspace then [Entry(Key(DeviceSeal, graph[0].key.id), SealRow(graph[0].key.id))] else [])
         + SealEntries(graph[1..])
  }

  const SEALER := Writer(EMPTY, false, false, None)

  /** The store and report of a restore that passed its checks. */
  ghost function Applied(db: Db, d: Decoded, policy: Policy, now: int): Result<Db, StoreError> {
    var dropped := db.(objects := db.objects - Dropped(d, db, policy));
    var written := WriteAll(dropped, d, WriterFor(d, db, policy), now);
    if written.Err? then written else
    var sealed := PutRows(written.value.objects, SealEntries(d.graph), SEALER);
    if sealed.Err? then Err(sealed.error) else Ok(written.value.(objects := sealed.value))
  }

  /** What a restore of `d` does to `db`: the new store and the report, or the refusal. */
  ghost function Transaction(db: Db, d: Decoded, policy: Policy, approval: Approval, now: int): Result<(Db, Restored), RestoreError>
    requires ListsSettings(d)
  {
    var refusal := PlanRefusal(d, db, policy, approval);
    if refusal.Some? then Err(refusal.value) else
    var local := Listing(db.objects);
    if !WithinLimits(CombinedRulesets(d, db, policy, local), local) then Err(StandardsLimit) else
    var applied := Applied(db, d, policy, now);
    if applied.Err? then Err(StoreRefused(applied.error))
    else Ok((applied.value, Restored(RestorePlan(d, db, policy), Withheld(d, db, policy))))
  }

  /** The refusal an approval given for another file, or for none, meets. */
  function FileRefusal(approval: Approval, file: Hash): Option<RestoreError> {
    if approval.digest.Some? && approval.digest.value != file then Some(FileChanged)
    else if approval.digest.None? && approval.workspaces != {} then Some(UnboundApproval)
    else None
  }

  /** Everything a restore decides before its transaction: the decoded backup, or why it ends there. */
  function Admitted(file: Hash, backup: Result<Decoded, BackupError>, policy: Policy, approval: Approval, proceed: bool)
    : Result<Decoded, RestoreError>
  {
    if FileRefusal(approval, file).Some? then Err(FileRefusal(approval, file).value)
    else if policy == Duplicate then Err(BadFile(DuplicateUnsupported))
    else if backup.Err? then Err(BadFile(backup.error))
    else if !proceed then Err(Canceled)
    else Ok(backup.value)
  }

  // -------------------------------------------------------- the transaction

  method DropRulesets(t: Tables, keys: set<Key>)
    modifies t`objects
    ensures t.objects == old(t.objects) - keys
  {
    var rest := keys;
    while rest != {}
      invariant rest <= keys
      invariant t.objects == old(t.objects) - (keys - rest)
      decreases rest
    {
      var k :| k in rest;
      var _ := t.Delete(k);
      rest := rest - {k};
    }
  }

  method SealAll(t: Tables, graph: seq<Entry>) returns (refused: Option<StoreError>)
    modifies t`objects
    ensures refused.None? ==> PutRows(old(t.objects), SealEntries(graph), SEALER) == Ok(t.objects)
    ensures refused.Some? ==> PutRows(old(t.objects), SealEntries(graph), SEALER) == Err(refused.value)
  {
    for i := 0 to |graph|
      invariant PutRows(old(t.objects), SealEntries(graph), SEALER) == PutRows(t.objects, SealEntries(graph[i..]), SEALER)
    {
      assert graph[i..][1..] == graph[i + 1..];
      if graph[i].key.kind == Workspace {
        var ws := graph[i].key.id;
        var seal := Entry(Key(DeviceSeal, ws), SealRow(ws));
        assert SealEntries(graph[i..]) == [seal] + SealEntries(graph[i + 1..]);
        assert SealEntries(graph[i..])[1..] == SealEntries(graph[i + 1..]);
        refused := t.Put(seal.key, seal.row);
        if refused.Some? {
          return;
        }
      } else {
        assert SealEntries(graph[i..]) == SealEntries(graph[i + 1..]);
      }
    }
    refused := None;
  }

  /** The part of the transaction that writes; the caller rolls back when it is refused. */
  method Apply(t: Tables, d: Decoded, policy: Policy, now: int) returns (refused: Option<StoreError>)
    modifies t
    ensures refused.None? ==> Applied(old(t.View()), d, policy, now) == Ok(t.View())
    ensures refused.Some? ==> Applied(old(t.View()), d, policy, now) == Err(refused.value)
  {
    var db := t.View();
    DropRulesets(t, Dropped(d, db, policy));
    refused := Write(t, d, WriterFor(d, db, policy), now);
    if refused.Some? {
      return;
    }
    refused := SealAll(t, d.graph);
  }

  /**
   * Restore a backup that `backup` holds, once authenticated and decoded.
   * `proceed` is asked once it is open and before anything is written.
   */
  method RestoreApprovedIf(t: Tables, file: Hash, backup: Result<Decoded, BackupError>, policy: Policy,
                           approval: Approval, proceed: bool, now: int) returns (r: Result<Restored, RestoreError>)
    requires backup.Ok? ==> ListsSettings(backup.value)
    modifies t
    ensures Admitted(file, backup, policy, approval, proceed).Err? ==>
      r == Err(Admitted(file, backup, policy, approval, proceed).error)
    ensures Admitted(file, backup, policy, approval, proceed).Ok? ==>
      var outcome := Transaction(old(t.View()), backup.value, policy, approval, now);
      && (r.Ok? <==> outcome.Ok?)
      && (r.Ok? ==> t.View() == outcome.value.0 && r.value == outcome.value.1)
      && (r.Err? ==> r.error == outcome.error)
    ensures r.Err? ==> t.View() == old(t.View())
  {
    var admitted := Admitted(file, backup, policy, approval, proceed);
    if admitted.Err? {
      return Err(admitted.error);
    }
    var d := admitted.value;
    var db := t.View();
    var refusal := PlanRefusal(d, db, policy, approval);
    if refusal.Some? {
      return Err(refusal.value);
    }
    var local := List(t);
    if !WithinLimits(CombinedRulesets(d, db, policy, local), local) {
      return Err(StandardsLimit);
    }
    var refused := Apply(t, d, policy, now);
    if refused.Some? {
      t.Rollback(db);
      return Err(StoreRefused(refused.value));
    }
    r := Ok(Restored(RestorePlan(d, db, policy), Withheld(d, db, policy)));
  }

  /** What the dry run answers. */
  function Preview(db: Db, backup: Result<Decoded, BackupError>, policy: Policy): Result<Plan, RestoreError>
    requires backup.Ok? ==> ListsSettings(backup.value)
  {
    if policy == Duplicate then Err(BadFile(DuplicateUnsupported))
    else if backup.Err? then Err(BadFile(backup.error))
    else if NamespacesClash(backup.value, db, policy) then Err(NamespaceClash)
    else if UncarriedHere(backup.value, db) != {} then Err(UncarriedStored)
    else Ok(RestorePlan(backup.value, db, policy))
  }

  /** The dry run: the plan, or the refusal that needs no approval to be known. */
  method RestorePreview(t: Tables, backup: Result<Decoded, BackupError>, policy: Policy) returns (r: Result<Plan, RestoreError>)
    requires backup.Ok? ==> ListsSettings(backup.value)
    ensures r.Ok? <==> policy != Duplicate && backup.Ok? && !NamespacesClash(backup.value, t.View(), policy) && UncarriedHere(backup.value, t.View()) == {}
    ensures r.Ok? ==>
      && ListsConflicts(t.View(), backup.value.items, r.value.conflicts) && CountsConflicts(backup.value, t.View(), policy, r.value)
      && NamesForeign(backup.value, t.View(), r.value)
    ensures policy == Duplicate ==> r == Err(BadFile(DuplicateUnsupported))
    ensures policy != Duplicate && backup.Err? ==> r == Err(BadFile(backup.error))
    ensures policy != Duplicate && backup.Ok? && NamespacesClash(backup.value, t.View(), policy) ==> r == Err(NamespaceClash)
    ensures r.Err? && policy != Duplicate && backup.Ok? && !NamespacesClash(backup.value, t.View(), policy) ==> r == Err(UncarriedStored)
    ensures r == Preview(t.View(), backup, policy)
  {
    if policy == Duplicate {
      return Err(BadFile(DuplicateUnsupported));
    }
    if backup.Err? {
      return Err(BadFile(backup.error));
    }
    if NamespacesClash(backup.value, t.View(), policy) {
      return Err(NamespaceClash);
    }
    if UncarriedHere(backup.value, t.View()) != {} {
      return Err(UncarriedStored);
    }
    PlanSays(backup.value, t.View(), policy);
    r := Ok(RestorePlan(backup.value, t.View(), policy));
  }
}
