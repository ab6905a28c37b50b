/**
 * A backup of a profile, restored into an empty one, gives that profile back.
 */
module RoundTrip {
  import opened Prelude
  import opened Guards
  import opened Store
  import opened Rulesets
  import opened BackupWrite
  import opened BackupRestore
  import opened BackupEffects
  import opened BackupOutcome
  import opened BackupGuarantees
  import opened RulesetOrder
  import opened RestoreKeeps
  import opened BackupContents
  import opened DecodeAccepts
  import opened BackupDecode
  import opened DecodeSound
  import opened DecodeItems
  import opened DecodeDecision
  import opened BackupSnapshot

  /** Kinds whose rows come back exactly as they were. */
  predicate RowKind(k: Kind) {
    GraphKind(k) || TrailingKind(k)
  }

  /** A stored history record has no empty body. */
  ghost predicate BodiesStored(db: Db) {
    forall id :: id in db.history ==> db.history[id].body != Some([])
  }

  /** The stored environments of workspace `ws`. */
  function StoredEnvironments(o: Objects, ws: Option<Id>): set<Id> {
    set k | k in o && k.kind == Environment && o[k].owner == ws :: k.id
  }

  /** The stored revisions of request `id`. */
  function StoredRevisions(o: Objects, id: Id): set<Id> {
    set k | k in o && k.kind == Revision && o[k].parent == Some(id) :: k.id
  }

  /** A stored object has every protection on and links only to what is stored for it. */
  ghost predicate SafeStored(o: Objects, k: Key)
    requires k in o
  {
    && SafeGuard(o[k].value.guard)
    && LinkedGuard(o[k].value.guard, StoredEnvironments(o, o[k].owner), StoredRevisions(o, k.id))
  }

  /** Nothing here that a restore would normalise, and no record of a deleted workspace. */
  ghost predicate Tidy(db: Db) {
    && (forall k :: k in db.objects && RowKind(k.kind) ==> SortedAsItself(k.kind, db.objects[k]))
    && (forall k :: k in db.objects && k.kind != Revision ==> SafeStored(db.objects, k))
    && SettingsTidy(SettingsOf(db.objects))
    && BodiesStored(db)
    && (forall id :: id in db.history && db.history[id].workspace.Some? ==> db.history[id].workspace.value in StoredWorkspaces(db))
    && (forall id :: id in db.reports ==> db.reports[id].workspace in StoredWorkspaces(db))
  }

  // ------------------------------------------------------- rows come back

  lemma RowInFile(db: Db, c: Contents, k: Key)
    requires Valid(db) && ObjectsOf(db.objects, c.objects)
    ensures Exported(db.objects, k) ==> RowOf(k, db.objects[k]) in c.objects
    ensures forall r :: r in c.objects && Key(r.kind, r.id) == k ==> Exported(db.objects, k) && r == RowOf(k, db.objects[k])
  {
    forall r | r in c.objects && Key(r.kind, r.id) == k ensures Exported(db.objects, k) && r == RowOf(k, db.objects[k]) {
      assert RowHolds(db.objects, r);
    }
  }

  lemma RevisionComesBack(db: Db, c: Contents, k: Key)
    requires Valid(db) && ObjectsOf(db.objects, c.objects) && Exported(db.objects, k) && k.kind == Revision
    requires Readable(db.objects, k) && k.kind != ApiRuleset && SortedAsItself(k.kind, db.objects[k])
    ensures From(c.objects, Entry(k, db.objects[k]), RowOf(k, db.objects[k]))
  {
    var r := RowOf(k, db.objects[k]);
    RowInFile(db, c, k);
    var qk := Key(Request, db.objects[k].parent.value);
    var qs := OfKind(c.objects, Request);
    RowInFile(db, c, qk);
    FindEntryIs(qs, qk);
    OfKindMembers(c.objects, Request, EntryOf(RowOf(qk, db.objects[qk])));
    assert EntryOf(RowOf(qk, db.objects[qk])).key == qk;
    var q := FindEntry(qs, qk).value;
    OfKindMembers(c.objects, Request, q);
    var o :| o in c.objects && o.kind == Request && EntryOf(o) == q;
    assert Key(o.kind, o.id) == qk;
    assert EntryOf(r).row.(owner := q.row.owner) == db.objects[k];
  }

  lemma EnvironmentInFile(db: Db, c: Contents, ws: Option<Id>, id: Id)
    requires Valid(db) && ObjectsOf(db.objects, c.objects) && id in StoredEnvironments(db.objects, ws)
    ensures id in EnvironmentsOf(OfKind(c.objects, Environment), ws)
  {
    var k := Key(Environment, id);
    RowInFile(db, c, k);
    OfKindMembers(c.objects, Environment, EntryOf(RowOf(k, db.objects[k])));
  }

  lemma RevisionInFile(db: Db, c: Contents, request: Id, id: Id)
    requires Valid(db) && ObjectsOf(db.objects, c.objects) && Key(Request, request) in db.objects
    requires id in StoredRevisions(db.objects, request)
    ensures id in RevisionsOf(KeptIn(c.objects), request)
  {
    var k, q := Key(Revision, id), Key(Request, request);
    var qs := OfKind(c.objects, Request);
    RowInFile(db, c, k);
    RowInFile(db, c, q);
    var r, e := EntryOf(RowOf(k, db.objects[k])), EntryOf(RowOf(q, db.objects[q]));
    OfKindMembers(c.objects, Revision, r);
    OfKindMembers(c.objects, Request, e);
    FindEntryIs(qs, q);
    assert RequestOf(qs, r).Some?;
    var kept := r.(row := r.row.(owner := RequestOf(qs, r).value.row.owner));
    assert PlacedRevision(kept, r, qs);
    KeptMembers(OfKind(c.objects, Revision), qs, kept);
  }

  lemma StoredIsReadAsWritten(db: Db, c: Contents, k: Key)
    requires Valid(db) && ObjectsOf(db.objects, c.objects) && Exported(db.objects, k) && k.kind != Revision
    requires k.kind != ApiRuleset && SortedAsItself(k.kind, db.objects[k]) && SafeStored(db.objects, k)
    ensures ReadEntry(c.objects, RowOf(k, db.objects[k])) == Entry(k, db.objects[k])
  {
    var own := EntryOf(RowOf(k, db.objects[k]));
    var environments, revisions := EnvironmentsOf(OfKind(c.objects, Environment), own.row.owner), RevisionsOf(KeptIn(c.objects), own.key.id);
    forall id | id in StoredEnvironments(db.objects, own.row.owner) ensures id in environments {
      EnvironmentInFile(db, c, own.row.owner, id);
    }
    if k.kind == Request {
      forall id | id in StoredRevisions(db.objects, k.id) ensures id in revisions {
        RevisionInFile(db, c, k.id, id);
      }
    }
    ImportedIsSafe(own.row.value.guard, environments, revisions);
  }

  lemma RowComesBack(db: Db, c: Contents, k: Key)
    requires Valid(db) && Tidy(db) && ObjectsOf(db.objects, c.objects) && Exported(db.objects, k) && RowKind(k.kind)
    requires Readable(db.objects, k)
    ensures exists o :: From(c.objects, Entry(k, db.objects[k]), o)
  {
    RowInFile(db, c, k);
    if k.kind == Revision {
      RevisionComesBack(db, c, k);
    } else {
      StoredIsReadAsWritten(db, c, k);
      assert From(c.objects, Entry(k, db.objects[k]), RowOf(k, db.objects[k]));
    }
  }

  lemma CarriedOnlyStored(db: Db, c: Contents, e: Entry)
    requires Valid(db) && ObjectsOf(db.objects, c.objects)
    requires e in Grouped(c.objects, GRAPH_KINDS) || e in Grouped(c.objects, TRAILING_KINDS)
    ensures Exported(db.objects, e.key)
  {
    GraphMembers(c.objects, e);
    var o :| From(c.objects, e, o);
    RowInFile(db, c, e.key);
  }

  /** What the decoded backup carries under a key is the row stored there. */
  lemma CarriedIsStored(db: Db, c: Contents, d: Decoded, k: Key)
    requires Valid(db) && Tidy(db) && ObjectsOf(db.objects, c.objects) && RowKind(k.kind)
    requires forall q :: Exported(db.objects, q) ==> Readable(db.objects, q)
    requires d.graph == Grouped(c.objects, GRAPH_KINDS) && d.trailing == Grouped(c.objects, TRAILING_KINDS)
    requires DistinctKeys(d.graph + d.trailing)
    ensures CarriedRow(d, k) == if Exported(db.objects, k) then Some(db.objects[k]) else None
  {
    if Exported(db.objects, k) {
      RowComesBack(db, c, k);
      GraphMembers(c.objects, Entry(k, db.objects[k]));
      assert Entry(k, db.objects[k]) in d.graph + d.trailing;
      CarriedRowIs(d, Entry(k, db.objects[k]));
    } else if CarriedRow(d, k).Some? {
      var e :| e in d.graph + d.trailing && e.key == k;
      CarriedOnlyStored(db, c, e);
    }
  }

  // ---------------------------------------------- settings and rulesets

  lemma {:induction false} SettingsRead(objects: seq<ObjectRow>, s: Settings)
    requires forall o :: o in objects && o.kind == AppSettings ==> SettingsIn(o) == s
    ensures CarriedSettings(objects).Some? ==> CarriedSettings(objects).value == BroughtSettings(s)
    decreases |objects|
  {
    if objects != [] {
      var n := |objects| - 1;
      assert objects == objects[..n] + [objects[n]];
      SettingsRead(objects[..n], s);
    }
  }

  /** App settings a restore changes nothing of. */
  predicate SettingsTidy(s: Settings) {
    s.legacy == [] && SafeSettings(s.defaults)
  }

  lemma SettingsComeBack(db: Db, c: Contents)
    requires Valid(db) && ObjectsOf(db.objects, c.objects) && SettingsTidy(SettingsOf(db.objects))
    ensures CarriedSettings(c.objects) == if SETTINGS_KEY in db.objects then Some(SettingsOf(db.objects)) else None
  {
    RowInFile(db, c, SETTINGS_KEY);
    SettingsMembers(c.objects);
    forall o | o in c.objects && o.kind == AppSettings ensures SettingsIn(o) == SettingsOf(db.objects) && SETTINGS_KEY in db.objects {
      RowInFile(db, c, Key(o.kind, o.id));
      assert o.id == SETTINGS_ID;
      assert Shaped(AppSettings, db.objects[SETTINGS_KEY]);
    }
    SettingsRead(c.objects, SettingsOf(db.objects));
    assert BroughtSettings(SettingsOf(db.objects)) == SettingsOf(db.objects);
    if SETTINGS_KEY in db.objects {
      assert RowOf(SETTINGS_KEY, db.objects[SETTINGS_KEY]).kind == AppSettings;
    }
  }

  lemma OrderOfRow(db: Db, k: Key)
    requires Valid(db) && k in db.objects && (k.kind == AppSettings ==> SettingsOf(db.objects).legacy == [])
    ensures OrderIn(RowOf(k, db.objects[k])) == if k.kind == ApiRuleset then {PlaceOf(db.objects, k)} else {}
  {
    var r := RowOf(k, db.objects[k]);
    if k.kind == ApiRuleset {
      assert RulesetsIn(r) == [RulesetOf(k, db.objects[k])];
      assert Placed(r.sort, RulesetsIn(r)[0]) in OrderIn(r);
    } else if k.kind == AppSettings {
      assert k == SETTINGS_KEY && Shaped(AppSettings, db.objects[k]);
      assert SettingsIn(r) == SettingsOf(db.objects);
    }
  }

  /** The rulesets are carried with the places they are stored at. */
  lemma OrderComesBack(db: Db, c: Contents)
    requires Valid(db) && ObjectsOf(db.objects, c.objects) && SettingsOf(db.objects).legacy == []
    ensures CarriedOrder(c.objects) == PlacedIn(db.objects)
  {
    forall p ensures p in CarriedOrder(c.objects) <==> p in PlacedIn(db.objects) {
      OrderRead(c.objects, p);
      if o :| o in c.objects && p in OrderIn(o) {
        CarriedPlace(db, c, o, p);
      }
      if p in PlacedIn(db.objects) {
        StoredPlaceCarried(db, c, p);
      }
    }
  }

  lemma CarriedPlace(db: Db, c: Contents, o: ObjectRow, p: Placed)
    requires Valid(db) && ObjectsOf(db.objects, c.objects) && SettingsOf(db.objects).legacy == []
    requires o in c.objects && p in OrderIn(o)
    ensures p in PlacedIn(db.objects)
  {
    RowInFile(db, c, Key(o.kind, o.id));
    OrderOfRow(db, Key(o.kind, o.id));
  }

  lemma StoredPlaceCarried(db: Db, c: Contents, p: Placed)
    requires Valid(db) && ObjectsOf(db.objects, c.objects) && SettingsOf(db.objects).legacy == []
    requires p in PlacedIn(db.objects)
    ensures exists o :: o in c.objects && p in OrderIn(o)
  {
    StoredPlace(db.objects, p);
    var k := RulesetKey(p.ruleset);
    RowInFile(db, c, k);
    OrderOfRow(db, k);
    assert p == PlaceOf(db.objects, k);
  }

  /** Into an empty profile, the rulesets predicted are the backup's. */
  lemma CombinedIntoEmpty(d: Decoded)
    ensures CombinedRulesets(d, EMPTY, Replace, []) == d.rulesets
    ensures Listing(EMPTY.objects) == []
  {
    PlacedDistinct(EMPTY.objects);
    assert PlacedIn(EMPTY.objects) == {};
    EmptyElements(Sorted(PlacedIn(EMPTY.objects)));
    AllArrive(d.rulesets);
    var replacing := if KeepsRulesets(d, EMPTY, Replace) then Ids(d.rulesets) else {};
    assert Ids([]) * replacing * Ids(d.rulesets) == {};
  }

  // --------------------------------------------------------- the limits

  lemma {:induction false} SizeWithout(rs: seq<Ruleset>, j: nat)
    requires j < |rs|
    ensures Size(rs) == rs[j].size + Size(rs[..j] + rs[j + 1..])
  {
    if j > 0 {
      SizeWithout(rs[1..], j - 1);
      assert (rs[..j] + rs[j + 1..])[1..] == rs[1..][..j - 1] + rs[1..][j..];
    } else {
      assert rs[..0] + rs[1..] == rs[1..];
    }
  }

  lemma SameRest(a: seq<Ruleset>, b: seq<Ruleset>, j: nat)
    requires a != [] && NoDup(a) && NoDup(b) && j < |b| && b[j] == a[0] && forall r :: r in a <==> r in b
    ensures var rest := b[..j] + b[j + 1..]; NoDup(rest) && forall r :: r in a[1..] <==> r in rest
  {
    var rest := b[..j] + b[j + 1..];
    forall r ensures r in a[1..] <==> r in rest {
      OnceOnly(a, 0, r);
      OnceOnly(b, j, r);
      assert a[..0] + a[1..] == a[1..];
    }
  }

  /** The size of a set of rulesets does not depend on their order. */
  lemma {:induction false} SameSize(a: seq<Ruleset>, b: seq<Ruleset>)
    requires NoDup(a) && NoDup(b) && forall r :: r in a <==> r in b
    ensures |a| == |b| && Size(a) == Size(b)
    decreases |a|
  {
    if a == [] {
      assert Elements(b) == {};
      EmptyElements(b);
    } else {
      assert a[0] in b;
      var j :| 0 <= j < |b| && b[j] == a[0];
      var rest := b[..j] + b[j + 1..];
      SizeWithout(b, j);
      SameRest(a, b, j);
      SameSize(a[1..], rest);
    }
  }

  lemma OnceOnly(s: seq<Ruleset>, j: nat, r: Ruleset)
    requires NoDup(s) && j < |s|
    ensures r in s[..j] + s[j + 1..] <==> r in s && r != s[j]
  {
    assert s == s[..j] + [s[j]] + s[j + 1..];
    var rest := s[..j] + s[j + 1..];
    if r in rest {
      var i :| 0 <= i < |rest| && rest[i] == r;
      assert s[if i < j then i else i + 1] == r;
    }
  }

  lemma DistinctIsNoDup(rs: seq<Ruleset>)
    requires DistinctRulesets(rs)
    ensures NoDup(rs)
  {
  }

  /** The rulesets of an accepted backup fit an empty profile. */
  lemma RulesetsFit(c: Contents, d: Decoded)
    requires DistinctRulesets(CarriedRulesets(c.objects)) && RulesetLimits(CarriedRulesets(c.objects))
    requires DistinctIds(CarriedOrder(c.objects)) && d.rulesets == Unplaced(Sorted(CarriedOrder(c.objects)))
    ensures WithinLimits(CombinedRulesets(d, EMPTY, Replace, Listing(EMPTY.objects)), Listing(EMPTY.objects))
  {
    SortedRulesets(c.objects);
    DistinctIsNoDup(d.rulesets);
    DistinctIsNoDup(CarriedRulesets(c.objects));
    SameSize(d.rulesets, CarriedRulesets(c.objects));
    CombinedIntoEmpty(d);
  }

  lemma EmptyChecks(d: Decoded, approval: Approval)
    ensures ChecksHold(EMPTY, d, Replace, approval) && !WritesConflict(EMPTY, d, Replace)
  {
  }

  /** An empty profile accepts a backup whose rulesets fit it. */
  lemma EmptyAccepts(d: Decoded, approval: Approval, now: int)
    requires WellFormed(d)
    requires WithinLimits(CombinedRulesets(d, EMPTY, Replace, Listing(EMPTY.objects)), Listing(EMPTY.objects))
    ensures Transaction(EMPTY, d, Replace, approval, now).Ok?
  {
    EmptyChecks(d, approval);
    RestoreAcceptedExactly(EMPTY, d, Replace, approval, now);
  }

  // ------------------------------------------------------ records come back

  lemma {:induction false} SecretsRead(ss: seq<SecretRow>, e: SecretEntry)
    ensures e in CarriedSecrets(ss) <==> exists r :: r in ss && SecretEntryOf(r) == e
    decreases |ss|
  {
    if ss != [] {
      var n := |ss| - 1;
      assert ss == ss[..n] + [ss[n]];
      assert forall r :: r in ss <==> r in ss[..n] || r == ss[n];
      SecretsRead(ss[..n], e);
    }
  }

  lemma SecretsComeBack(db: Db, c: Contents, d: Decoded, id: Id)
    requires SecretsOf(db.secrets, c.secrets) && d.secrets == CarriedSecrets(c.secrets)
    ensures CarriedSecret(d, id) == Lookup(db.secrets, id)
  {
    forall e | e in d.secrets && e.id == id ensures id in db.secrets && e.secret == db.secrets[id] {
      SecretsRead(c.secrets, e);
    }
    if id in db.secrets {
      SecretsRead(c.secrets, SecretEntry(id, db.secrets[id]));
      assert SecretEntryOf(SecretRowOf(id, db.secrets[id])) == SecretEntry(id, db.secrets[id]);
    }
  }

  lemma {:induction false} HistoryRead(rows: seq<HistoryRow>, ws: set<Id>, e: RecordEntry)
    ensures e in CarriedHistory(rows, ws) <==> exists r :: r in rows && e in RecordsIn(r, ws)
    decreases |rows|
  {
    if rows != [] {
      var n := |rows| - 1;
      assert rows == rows[..n] + [rows[n]];
      assert forall r :: r in rows <==> r in rows[..n] || r == rows[n];
      HistoryRead(rows[..n], ws, e);
    }
  }

  lemma CarriedRecordStored(db: Db, c: Contents, ws: set<Id>, e: RecordEntry)
    requires HistoryOf(db.history, c.history) && e in CarriedHistory(c.history, ws)
    ensures e.id in db.history && e.record == db.history[e.id]
  {
    HistoryRead(c.history, ws, e);
    var r :| r in c.history && e in RecordsIn(r, ws);
    assert r == HistoryRowOf(r.id, db.history[r.id]);
  }

  lemma StoredRecordCarried(db: Db, c: Contents, ws: set<Id>, id: Id)
    requires HistoryOf(db.history, c.history) && id in db.history
    requires db.history[id].workspace.Some? ==> db.history[id].workspace.value in ws
    ensures RecordEntry(id, db.history[id]) in CarriedHistory(c.history, ws)
  {
    var r := HistoryRowOf(id, db.history[id]);
    HistoryRead(c.history, ws, RecordEntry(id, db.history[id]));
    assert RecordsIn(r, ws) == [RecordEntry(id, db.history[id])];
  }

  lemma HistoryComesBack(db: Db, c: Contents, d: Decoded, ws: set<Id>, id: Id)
    requires HistoryOf(db.history, c.history) && d.history == CarriedHistory(c.history, ws)
    requires id in db.history && db.history[id].workspace.Some? ==> db.history[id].workspace.value in ws
    ensures CarriedRecord(d, id) == Lookup(db.history, id)
  {
    forall e | e in d.history && e.id == id ensures id in db.history && e.record == db.history[id] {
      CarriedRecordStored(db, c, ws, e);
    }
    if id in db.history {
      StoredRecordCarried(db, c, ws, id);
    }
  }

  lemma {:induction false} ReportsRead(rows: seq<ReportRow>, ws: set<Id>, e: ReportEntry)
    ensures e in CarriedReports(rows, ws) <==> exists r :: r in rows && e in ReportsIn(r, ws)
    decreases |rows|
  {
    if rows != [] {
      var n := |rows| - 1;
      assert rows == rows[..n] + [rows[n]];
      assert forall r :: r in rows <==> r in rows[..n] || r == rows[n];
      ReportsRead(rows[..n], ws, e);
    }
  }

  lemma ReportsComeBack(db: Db, c: Contents, d: Decoded, ws: set<Id>, id: Id)
    requires ReportsOf(db.reports, c.reports) && d.reports == CarriedReports(c.reports, ws)
    requires id in db.reports ==> db.reports[id].workspace in ws
    ensures CarriedReport(d, id) == Lookup(db.reports, id)
  {
    forall e | e in d.reports && e.id == id ensures id in db.reports && e.report == db.reports[id] {
      ReportsRead(c.reports, ws, e);
      var r :| r in c.reports && e in ReportsIn(r, ws);
      assert ReportHolds(db.reports, r);
    }
    if id in db.reports {
      var r := ReportRowOf(id, db.reports[id]);
      ReportsRead(c.reports, ws, ReportEntry(id, db.reports[id]));
      assert ReportsIn(r, ws) == [ReportEntry(id, db.reports[id])];
    }
  }

  function FileLeft(db: Db, h: Hash): Option<StoredFile> {
    if h in db.files && db.files[h].content.Some? then Some(StoredFile(db.files[h].content, false, None)) else None
  }

  lemma FilesComeBack(db: Db, c: Contents, d: Decoded, h: Hash)
    requires FilesOf(db.files, c.attachments) && d.files == CarriedFiles(c.attachments)
    requires forall g :: g in db.files && db.files[g].content.Some? ==> g == Digest(db.files[g].content.value)
    ensures FileAfter(EMPTY, d, h) == FileLeft(db, h)
  {
    FilesAre(c.attachments, h);
    if r :| r in c.attachments && r.content.Some? && Digest(r.content.value) == h {
      assert FileHolds(db.files, r);
    }
    if h in db.files && db.files[h].content.Some? {
      assert AttachmentRow(Some(h), db.files[h].content) in c.attachments;
    }
  }

  // ---------------------------------------------------------- round trip

  /** A stored row; a revision's request, where it names one, is stored too. */
  predicate StoredWithRequest(o: Objects, k: Key) {
    k in o && (k.kind == Revision && o[k].parent.Some? ==> Key(Request, o[k].parent.value) in o)
  }

  /** `after` is the profile `db`, orphans and lost contents left out, as a restore brings it to a new device. */
  ghost predicate SameProfile(db: Db, after: Db, now: int) {
    && (forall k: Key :: RowKind(k.kind) ==>
          Lookup(after.objects, k) == if StoredWithRequest(db.objects, k) then Some(db.objects[k]) else None)
    && (forall k: Key :: k.kind in {TokenFile, LinkedFile} ==> k !in after.objects)
    && (forall ws :: Sealed(after.objects, ws) <==> ws in StoredWorkspaces(db))
    && Listing(after.objects) == Listing(db.objects)
    && (SETTINGS_KEY in after.objects <==> SETTINGS_KEY in db.objects)
    && SettingsOf(after.objects) == SettingsBack(SettingsOf(db.objects))
    && after.secrets == db.secrets && after.reports == db.reports
    && (forall id :: Lookup(after.history, id) == RecordBack(db, now, id))
    && (forall h :: Lookup(after.files, h) == FileLeft(db, h))
  }

  /** The app settings, with a new profile's lock policy where that is stronger. */
  function SettingsBack(s: Settings): Settings {
    if s.lock.idleMinutes == 0 || s.lock.idleMinutes > 15 || !s.lock.lockOnOsLock || !s.lock.clearClipboard
    then s.(lock := LockPolicy(15, true, true)) else s
  }

  /** A record, not dated after the restore. */
  function RecordBack(db: Db, now: int, id: Id): Option<Record> {
    if id !in db.history then None
    else if db.history[id].startedAt > now then Some(db.history[id].(startedAt := now))
    else Some(db.history[id])
  }

  /** The pieces of the snapshot's decoding the round trip rests on. */
  ghost predicate Carries(db: Db, d: Decoded) {
    && (forall k: Key :: RowKind(k.kind) ==> CarriedRow(d, k) == if Exported(db.objects, k) then Some(db.objects[k]) else None)
    && d.settings == (if SETTINGS_KEY in db.objects then Some(SettingsOf(db.objects)) else None)
    && d.rulesets == Listing(db.objects)
    && Workspaces(d) == StoredWorkspaces(db)
    && (forall id :: CarriedSecret(d, id) == Lookup(db.secrets, id))
    && (forall id :: CarriedRecord(d, id) == Lookup(db.history, id))
    && (forall id :: CarriedReport(d, id) == Lookup(db.reports, id))
    && (forall h :: FileAfter(EMPTY, d, h) == FileLeft(db, h))
  }

  lemma WorkspacesComeBack(db: Db, d: Decoded)
    requires KeysOk(d)
    requires forall k: Key :: RowKind(k.kind) ==> CarriedRow(d, k) == if Exported(db.objects, k) then Some(db.objects[k]) else None
    ensures Workspaces(d) == StoredWorkspaces(db)
  {
    forall ws ensures ws in Workspaces(d) <==> ws in StoredWorkspaces(db) {
      var k := Key(Workspace, ws);
      assert RowKind(k.kind);
      if ws in Workspaces(d) {
        var e :| e in d.graph && e.key.kind == Workspace && e.key.id == ws;
        assert e in d.graph + d.trailing && e.key == k;
        assert CarriedRow(d, k).Some?;
      }
      if ws in StoredWorkspaces(db) {
        assert k in db.objects && Exported(db.objects, k);
        var e :| e in d.graph + d.trailing && e.key == k;
        assert e in d.graph;
      }
    }
  }

  lemma SnapshotRows(db: Db, c: Contents, d: Decoded)
    requires Valid(db) && Tidy(db) && ObjectsOf(db.objects, c.objects) && KeysOk(d)
    requires forall q :: Exported(db.objects, q) ==> Readable(db.objects, q)
    requires d.graph == Grouped(c.objects, GRAPH_KINDS) && d.trailing == Grouped(c.objects, TRAILING_KINDS)
    ensures forall k: Key :: RowKind(k.kind) ==> CarriedRow(d, k) == if Exported(db.objects, k) then Some(db.objects[k]) else None
    ensures Workspaces(d) == StoredWorkspaces(db)
  {
    forall k: Key | RowKind(k.kind)
      ensures CarriedRow(d, k) == if Exported(db.objects, k) then Some(db.objects[k]) else None
    {
      CarriedIsStored(db, c, d, k);
    }
    WorkspacesComeBack(db, d);
  }

  lemma SnapshotRecords(db: Db, c: Contents, d: Decoded)
    requires Tidy(db) && SecretsOf(db.secrets, c.secrets) && HistoryOf(db.history, c.history) && ReportsOf(db.reports, c.reports)
    requires d.secrets == CarriedSecrets(c.secrets) && d.history == CarriedHistory(c.history, StoredWorkspaces(db))
    requires d.reports == CarriedReports(c.reports, StoredWorkspaces(db))
    ensures forall id :: CarriedSecret(d, id) == Lookup(db.secrets, id)
    ensures forall id :: CarriedRecord(d, id) == Lookup(db.history, id)
    ensures forall id :: CarriedReport(d, id) == Lookup(db.reports, id)
  {
    forall id
      ensures CarriedSecret(d, id) == Lookup(db.secrets, id) && CarriedRecord(d, id) == Lookup(db.history, id)
      ensures CarriedReport(d, id) == Lookup(db.reports, id)
    {
      SecretsComeBack(db, c, d, id);
      HistoryComesBack(db, c, d, StoredWorkspaces(db), id);
      ReportsComeBack(db, c, d, StoredWorkspaces(db), id);
    }
  }

  lemma SnapshotFiles(db: Db, c: Contents, d: Decoded)
    requires Exportable(db) && FilesOf(db.files, c.attachments) && d.files == CarriedFiles(c.attachments)
    ensures forall h :: FileAfter(EMPTY, d, h) == FileLeft(db, h)
  {
    forall h ensures FileAfter(EMPTY, d, h) == FileLeft(db, h) {
      FilesComeBack(db, c, d, h);
    }
  }

  lemma SnapshotWorkspaces(db: Db, c: Contents, d: Decoded)
    requires Workspaces(d) == StoredWorkspaces(db) && d.graph == Grouped(c.objects, GRAPH_KINDS)
    ensures WorkspaceIds(c.objects) == StoredWorkspaces(db)
  {
    WorkspacesAre(c.objects, d.graph);
  }

  lemma SnapshotCarries(db: Db, c: Contents, d: Decoded)
    requires Valid(db) && Tidy(db) && Exportable(db) && SnapshotOf(db, c) && KeysOk(d) && ReadFrom(c, d)
    ensures Carries(db, d)
  {
    SnapshotRows(db, c, d);
    SnapshotWorkspaces(db, c, d);
    SnapshotRecords(db, c, d);
    SnapshotProfile(db, c, d);
    SnapshotFiles(db, c, d);
  }

  lemma SnapshotProfile(db: Db, c: Contents, d: Decoded)
    requires Valid(db) && ObjectsOf(db.objects, c.objects) && SettingsTidy(SettingsOf(db.objects)) && ReadFrom(c, d)
    ensures d.settings == (if SETTINGS_KEY in db.objects then Some(SettingsOf(db.objects)) else None)
    ensures d.rulesets == Listing(db.objects)
  {
    SettingsComeBack(db, c);
    OrderComesBack(db, c);
  }

  lemma RowsAreSame(db: Db, d: Decoded, now: int, after: Db)
    requires KeysOk(d) && Carries(db, d) && Leaves(EMPTY, d, Replace, now, after)
    ensures forall k: Key :: RowKind(k.kind) ==>
      Lookup(after.objects, k) == if Exported(db.objects, k) then Some(db.objects[k]) else None
    ensures forall k: Key :: k.kind in {TokenFile, LinkedFile} ==> k !in after.objects
    ensures forall ws :: Sealed(after.objects, ws) <==> ws in StoredWorkspaces(db)
  {
    forall k: Key | RowKind(k.kind)
      ensures Lookup(after.objects, k) == if Exported(db.objects, k) then Some(db.objects[k]) else None
    {
      assert Lookup(after.objects, k) == RowAfter(EMPTY, d, Replace, k);
      CarriedBack(d, k);
    }
    forall k: Key | k.kind in {TokenFile, LinkedFile} ensures k !in after.objects {
      assert Lookup(after.objects, k) == RowAfter(EMPTY, d, Replace, k);
      NeverCarried(d, after, k);
    }
    forall ws ensures Sealed(after.objects, ws) <==> ws in StoredWorkspaces(db) {
      assert Lookup(after.objects, Key(DeviceSeal, ws)) == RowAfter(EMPTY, d, Replace, Key(DeviceSeal, ws));
      SealBack(d, ws);
    }
  }

  lemma CarriedBack(d: Decoded, k: Key)
    requires RowKind(k.kind)
    ensures RowAfter(EMPTY, d, Replace, k) == CarriedRow(d, k)
  {
  }

  lemma SealBack(d: Decoded, ws: Id)
    ensures RowAfter(EMPTY, d, Replace, Key(DeviceSeal, ws)).Some? <==> ws in Workspaces(d)
  {
  }

  lemma NeverCarried(d: Decoded, after: Db, k: Key)
    requires k.kind in {TokenFile, LinkedFile} && KeysOk(d)
    requires Lookup(after.objects, k) == RowAfter(EMPTY, d, Replace, k)
    ensures k !in after.objects
  {
    if CarriedRow(d, k).Some? {
      CarriedKinds(d, k);
    }
  }

  lemma SettingsAreSame(db: Db, d: Decoded, now: int, after: Db)
    requires Leaves(EMPTY, d, Replace, now, after)
    requires d.settings == (if SETTINGS_KEY in db.objects then Some(SettingsOf(db.objects)) else None)
    ensures SETTINGS_KEY in after.objects <==> SETTINGS_KEY in db.objects
    ensures SettingsOf(after.objects) == SettingsBack(SettingsOf(db.objects))
  {
    assert StoredWorkspaces(EMPTY) == {};
    SettingsLeft(EMPTY, d, Replace, now, after);
    assert Lookup(after.objects, SETTINGS_KEY) == RowAfter(EMPTY, d, Replace, SETTINGS_KEY);
    OnlySettingsUnderKey(d);
  }

  lemma OnlySettingsUnderKey(d: Decoded)
    ensures RowAfter(EMPTY, d, Replace, SETTINGS_KEY).Some? <==> WritesSettings(d, EMPTY, Replace)
  {
  }

  lemma RecordsAreSame(db: Db, d: Decoded, now: int, after: Db)
    requires Carries(db, d) && Leaves(EMPTY, d, Replace, now, after)
    requires BodiesStored(db)
    ensures after.secrets == db.secrets && after.reports == db.reports
    ensures forall id :: Lookup(after.history, id) == RecordBack(db, now, id)
    ensures forall h :: Lookup(after.files, h) == FileLeft(db, h)
  {
    forall id ensures Lookup(after.secrets, id) == Lookup(db.secrets, id) {
      assert Lookup(after.secrets, id) == SecretAfter(EMPTY, d, Replace, id);
    }
    SameMap(after.secrets, db.secrets);
    forall id ensures Lookup(after.reports, id) == Lookup(db.reports, id) {
      assert Lookup(after.reports, id) == ReportAfter(EMPTY, d, Replace, id);
    }
    SameMap(after.reports, db.reports);
    forall id ensures Lookup(after.history, id) == RecordBack(db, now, id) {
      assert Lookup(after.history, id) == RecordAfter(EMPTY, d, Replace, now, id);
    }
    forall h ensures Lookup(after.files, h) == FileLeft(db, h) {
      assert Lookup(after.files, h) == FileAfter(EMPTY, d, h);
    }
  }

  lemma RestoreIntoEmpty(d: Decoded, approval: Approval, now: int, after: Db, report: Restored)
    requires Restores(EMPTY, d, Replace, approval, now, after, report)
    ensures KeysOk(d) && Leaves(EMPTY, d, Replace, now, after)
    ensures Listing(after.objects) == d.rulesets
    ensures report.plan.existingWorkspaces == {}
  {
    RestoreLeaves(EMPTY, d, Replace, approval, now, after, report);
    RestoredRulesetOrder(EMPTY, d, Replace, approval, now, after, report);
    CombinedIntoEmpty(d);
    NoWorkspaceThere(EMPTY, d, Replace, approval, now, after, report);
  }

  lemma NoWorkspaceThere(db: Db, d: Decoded, policy: Policy, approval: Approval, now: int, after: Db, report: Restored)
    requires Restores(db, d, policy, approval, now, after, report) && db.objects == map[]
    ensures report.plan.existingWorkspaces == {}
  {
    assert StoredWorkspaces(db) == {};
  }

  lemma CarriedIsSame(db: Db, d: Decoded, now: int, after: Db)
    requires KeysOk(d) && Carries(db, d) && BodiesStored(db) && Leaves(EMPTY, d, Replace, now, after)
    requires Listing(after.objects) == d.rulesets
    ensures SameProfile(db, after, now)
  {
    RowsAreSame(db, d, now, after);
    SettingsAreSame(db, d, now, after);
    RecordsAreSame(db, d, now, after);
  }

  /** Restored into an empty profile with nothing approved beforehand, `d` gives the profile `db` back. */
  ghost predicate GivesBack(db: Db, d: Decoded, approval: Approval, now: int) {
    && ListsSettings(d)
    && var r := Transaction(EMPTY, d, Replace, approval, now);
      r.Ok? && SameProfile(db, r.value.0, now) && r.value.1.plan.existingWorkspaces == {}
  }

  lemma RestoreSnapshot(db: Db, d: Decoded, approval: Approval, now: int)
    requires Carries(db, d) && WellFormed(d) && BodiesStored(db)
    requires WithinLimits(CombinedRulesets(d, EMPTY, Replace, Listing(EMPTY.objects)), Listing(EMPTY.objects))
    ensures GivesBack(db, d, approval, now)
  {
    EmptyAccepts(d, approval, now);
    var r := Transaction(EMPTY, d, Replace, approval, now).value;
    RestoreIntoEmpty(d, approval, now, r.0, r.1);
    CarriedIsSame(db, d, now, r.0);
  }

  /** A snapshot that decodes restores into an empty profile and gives the profile back. */
  lemma DecodedSnapshotRestores(db: Db, c: Contents, approval: Approval, now: int)
    requires Valid(db) && Tidy(db) && Exportable(db) && SnapshotOf(db, c) && Refusal(c).None?
    ensures DistinctIds(CarriedOrder(c.objects)) && GivesBack(db, Interpret(c), approval, now)
  {
    AcceptedParts(c);
    GraphOrder(c.objects);
    InterpretReads(c);
    DecodedIsWellFormed(c, Interpret(c));
    RulesetsFit(c, Interpret(c));
    SnapshotCarries(db, c, Interpret(c));
    RestoreSnapshot(db, Interpret(c), approval, now);
  }
}
