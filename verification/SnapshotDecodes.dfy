/**
 * Which stores have a backup this version can read back: the condition on the
 * store that decoding its snapshot comes down to, and the round trip under it.
 */
module SnapshotDecodes {
  import opened Prelude
  import opened Guards
  import opened Store
  import opened Rulesets
  import opened BackupWrite
  import opened BackupRestore
  import opened BackupEffects
  import opened BackupOutcome
  import opened RulesetOrder
  import opened RestoreKeeps
  import opened BackupContents
  import opened BackupDecode
  import opened DecodeSound
  import opened DecodeItems
  import opened DecodeDecision
  import opened BackupSnapshot
  import opened RoundTrip

  /** Object `k` is stored, in workspace `ws`, and is no revision. */
  predicate StoredIn(o: Objects, k: Key, ws: Option<Id>) {
    k.kind != Revision && Exported(o, k) && o[k].owner == ws
  }

  /** A stored object's workspace is stored. */
  predicate OwnerStored(db: Db, k: Key)
    requires k in db.objects
  {
    k.kind in PROFILE_KINDS + TREE_KINDS && db.objects[k].owner.Some? ==> db.objects[k].owner.value in StoredWorkspaces(db)
  }

  /** A stored spec import's root is a stored import root of its workspace. */
  predicate RootStored(o: Objects, k: Key)
    requires k in o
  {
    var data := o[k].value.data;
    k.kind == SpecSource && data.SpecData? && data.root.Some? ==>
      StoredIn(o, Key(Folder, data.root.value), o[k].owner) && ImportRoot(o[Key(Folder, data.root.value)].value.data)
  }

  /** A stored object's folder, and what it runs with, are stored in its workspace. */
  predicate LinksStored(o: Objects, k: Key)
    requires k in o
  {
    && (k.kind in {Folder, Request} && o[k].parent.Some? ==> StoredIn(o, Key(Folder, o[k].parent.value), o[k].owner))
    && (o[k].value.data.RefsData? ==> forall r :: r in o[k].value.data.refs ==> StoredIn(o, r, o[k].owner))
  }

  ghost predicate OwnersStored(db: Db) {
    forall k :: Exported(db.objects, k) ==> OwnerStored(db, k)
  }

  ghost predicate RootsStored(o: Objects) {
    forall k :: Exported(o, k) ==> RootStored(o, k)
  }

  ghost predicate AllLinksStored(o: Objects) {
    forall k :: Exported(o, k) ==> LinksStored(o, k)
  }

  function StoredFolders(o: Objects): set<Id> {
    set k | k in o && k.kind == Folder :: k.id
  }

  function FolderParents(o: Objects): map<Id, Option<Id>> {
    map id | id in StoredFolders(o) :: o[Key(Folder, id)].parent
  }

  /** Kinds whose ids share one space in a backup. */
  predicate OneSpace(k: Kind) {
    GraphKind(k) || k == ApiRuleset
  }

  ghost predicate IdsApart(o: Objects) {
    forall a, b :: Exported(o, a) && Exported(o, b) && OneSpace(a.kind) && OneSpace(b.kind) && a != b ==> a.id != b.id
  }

  ghost predicate SecretsPlaced(db: Db) {
    forall id :: id in db.secrets && db.secrets[id].owner.Some? ==> db.secrets[id].owner.value in StoredWorkspaces(db)
  }

  /** What a backup of this store must be read back with, besides its rows being readable. */
  ghost predicate Restorable(db: Db) {
    && OwnersStored(db) && RootsStored(db.objects) && AllLinksStored(db.objects)
    && SecretsPlaced(db)
    && NoCycle(FolderParents(db.objects))
    && IdsApart(db.objects)
    && FitsProfile(Listing(db.objects))
  }

  // ------------------------------------------------- rows are always read

  lemma RowAccepted(db: Db, r: ObjectRow)
    requires Valid(db) && RowHolds(db.objects, r)
    ensures RowParsed(r) && SchemaRefusal(r.schema).None?
  {
    var k := Key(r.kind, r.id);
    assert Shaped(k.kind, db.objects[k]);
  }

  lemma {:induction false} RowsAccepted(db: Db, rows: seq<ObjectRow>)
    requires Valid(db)
    requires forall i, j :: 0 <= i < j < |rows| ==> RowBefore(rows[i], rows[j])
    requires forall r :: r in rows ==> RowHolds(db.objects, r)
    ensures RowsRefusal(rows) == None
    decreases |rows|
  {
    if rows == [] {
    } else {
      var n := |rows| - 1;
      RowsAccepted(db, rows[..n]);
      RowAccepted(db, rows[n]);
      forall o | o in rows[..n] ensures Key(o.kind, o.id) != Key(rows[n].kind, rows[n].id) {
        var i :| 0 <= i < n && rows[i] == o;
        assert RowBefore(rows[i], rows[n]);
      }
    }
  }

  lemma {:induction false} AttachmentsRead(files: map<Hash, StoredFile>, rows: seq<AttachmentRow>)
    requires forall i, j :: 0 <= i < j < |rows| ==> rows[i].sha != rows[j].sha
    requires forall r :: r in rows ==> FileHolds(files, r) && r.sha.value == Digest(r.content.value)
    ensures AttachmentsAccepted(rows)
    ensures forall h :: h in CarriedFiles(rows) ==> exists i :: 0 <= i < |rows| && rows[i].sha == Some(h)
    decreases |rows|
  {
    if rows == [] {
    } else {
      var n := |rows| - 1;
      AttachmentsRead(files, rows[..n]);
      assert FileHolds(files, rows[n]);
      assert rows[n].sha.value !in CarriedFiles(rows[..n]);
      forall h | h in CarriedFiles(rows) ensures exists i :: 0 <= i < |rows| && rows[i].sha == Some(h) {
        if h in CarriedFiles(rows[..n]) {
          var i :| 0 <= i < n && rows[..n][i].sha == Some(h);
          assert rows[i].sha == Some(h);
        } else {
          assert rows[n].sha == Some(h);
        }
      }
    }
  }

  lemma {:induction false} RecordsRead(m: map<Id, Record>, rows: seq<HistoryRow>, ws: set<Id>)
    requires forall i, j :: 0 <= i < j < |rows| ==> rows[i].id < rows[j].id
    requires forall r :: r in rows ==> r.id in m && r == HistoryRowOf(r.id, m[r.id])
    ensures HistoryRefusal(rows, ws) == None
    decreases |rows|
  {
    if rows == [] {
    } else {
      var n := |rows| - 1;
      RecordsRead(m, rows[..n], ws);
      assert rows[n] == HistoryRowOf(rows[n].id, m[rows[n].id]);
      forall h | h in rows[..n] ensures h.record.Some? && h.record.value.id != rows[n].id {
        var i :| 0 <= i < n && rows[i] == h;
        assert rows[i] in rows;
      }
    }
  }

  lemma {:induction false} LoadReportsRead(m: map<Id, Report>, rows: seq<ReportRow>)
    requires forall i, j :: 0 <= i < j < |rows| ==> ReportId(rows[i]) < ReportId(rows[j])
    requires forall r :: r in rows ==> ReportHolds(m, r)
    ensures ReportsRefusal(rows) == None
    decreases |rows|
  {
    if rows == [] {
    } else {
      var n := |rows| - 1;
      LoadReportsRead(m, rows[..n]);
      assert ReportHolds(m, rows[n]);
      forall r | r in rows[..n] ensures r.report.Some? && r.report.value.id != ReportId(rows[n]) {
        var i :| 0 <= i < n && rows[i] == r;
        assert rows[i] in rows;
      }
    }
  }

  // ------------------------------------------------- owners and secrets

  lemma WorkspacesInFile(db: Db, c: Contents)
    requires Valid(db) && ObjectsOf(db.objects, c.objects)
    ensures WorkspaceIds(c.objects) == StoredWorkspaces(db)
  {
    forall id ensures id in WorkspaceIds(c.objects) <==> id in StoredWorkspaces(db) {
      var k := Key(Workspace, id);
      RowInFile(db, c, k);
      if id in WorkspaceIds(c.objects) {
        var e :| e in OfKind(c.objects, Workspace) && e.key.id == id;
        OfKindMembers(c.objects, Workspace, e);
      }
      if id in StoredWorkspaces(db) {
        OfKindMembers(c.objects, Workspace, EntryOf(RowOf(k, db.objects[k])));
      }
    }
  }

  /** What the file's rows say of `kinds`, and what the store says. */
  lemma OwnersDecode(db: Db, c: Contents, kinds: set<Kind>, ws: set<Id>)
    requires Valid(db) && ObjectsOf(db.objects, c.objects) && Revision !in kinds
    ensures OwnersIn(c.objects, kinds, ws) <==>
      (forall k :: Exported(db.objects, k) && k.kind in kinds && db.objects[k].owner.Some? ==> db.objects[k].owner.value in ws)
  {
    forall k ensures Exported(db.objects, k) ==> RowOf(k, db.objects[k]) in c.objects {
      RowInFile(db, c, k);
    }
    forall o | o in c.objects ensures RowHolds(db.objects, o) {
    }
    if OwnersIn(c.objects, kinds, ws) {
      forall k | Exported(db.objects, k) && k.kind in kinds && db.objects[k].owner.Some? ensures db.objects[k].owner.value in ws {
        assert EntryOf(RowOf(k, db.objects[k])).row.owner == db.objects[k].owner;
      }
    }
  }

  lemma {:induction false} CarriedSecretIds(rows: seq<SecretRow>, s: SecretEntry)
    requires s in CarriedSecrets(rows) && forall r :: r in rows ==> r.id.IdText?
    ensures exists i :: 0 <= i < |rows| && rows[i].id == IdText(s.id)
    decreases |rows|
  {
    var n := |rows| - 1;
    if s in CarriedSecrets(rows[..n]) {
      CarriedSecretIds(rows[..n], s);
      var i :| 0 <= i < n && rows[..n][i].id == IdText(s.id);
      assert rows[i].id == IdText(s.id);
    } else {
      assert rows[n] in rows && rows[n].id == IdText(s.id);
    }
  }

  lemma {:induction false} SecretsDecode(rows: seq<SecretRow>, ws: set<Id>)
    requires forall i, j :: 0 <= i < j < |rows| ==> rows[i].id != rows[j].id
    requires forall r :: r in rows ==> r.id.IdText? && (r.owner.Some? ==> r.owner.value.IdText?)
    ensures SecretsAccepted(rows, ws) <==> forall r :: r in rows && r.owner.Some? ==> r.owner.value.id in ws
    decreases |rows|
  {
    if rows == [] {
    } else {
      var n := |rows| - 1;
      var earlier, last := rows[..n], rows[n];
      SecretsDecode(earlier, ws);
      assert rows == earlier + [last] && last in rows;
      forall s | s in CarriedSecrets(earlier) ensures s.id != last.id.id {
        CarriedSecretIds(earlier, s);
        var i :| 0 <= i < n && earlier[i].id == IdText(s.id);
        assert rows[i].id != last.id;
      }
      assert last.id.id !in SecretIds(CarriedSecrets(earlier));
      assert SecretsAccepted(rows, ws) <==> SecretsAccepted(earlier, ws) && (last.owner.Some? ==> last.owner.value.id in ws);
    }
  }

  lemma SecretsOwned(db: Db, c: Contents)
    requires SecretsOf(db.secrets, c.secrets)
    ensures SecretsAccepted(c.secrets, StoredWorkspaces(db)) <==> SecretsPlaced(db)
  {
    SecretsDecode(c.secrets, StoredWorkspaces(db));
    if SecretsAccepted(c.secrets, StoredWorkspaces(db)) {
      forall id | id in db.secrets && db.secrets[id].owner.Some? ensures db.secrets[id].owner.value in StoredWorkspaces(db) {
        assert SecretRowOf(id, db.secrets[id]) in c.secrets;
      }
    }
  }

  // ------------------------------------------------------ links and roots

  lemma FoundIsStored(db: Db, c: Contents, k: Key)
    requires Valid(db) && ObjectsOf(db.objects, c.objects)
    ensures FindRow(c.objects, k) == if Exported(db.objects, k) then Some(RowOf(k, db.objects[k])) else None
  {
    FindRowIs(c.objects, k);
    RowInFile(db, c, k);
    if Exported(db.objects, k) {
      assert Key(RowOf(k, db.objects[k]).kind, RowOf(k, db.objects[k]).id) == k;
    }
  }

  lemma MemberIsStored(db: Db, c: Contents, k: Key, ws: Option<Id>)
    requires Valid(db) && ObjectsOf(db.objects, c.objects) && ws.Some?
    ensures Member(c.objects, k, ws) <==> StoredIn(db.objects, k, ws)
  {
    FoundIsStored(db, c, k);
  }

  lemma RootDecodes(db: Db, c: Contents, k: Key)
    requires Valid(db) && ObjectsOf(db.objects, c.objects) && Exported(db.objects, k)
    ensures SpecRootOk(c.objects, RowOf(k, db.objects[k])) <==> RootStored(db.objects, k)
  {
    var row := db.objects[k];
    assert Shaped(k.kind, row);
    if k.kind == SpecSource && row.value.data.SpecData? && row.value.data.root.Some? {
      var f := Key(Folder, row.value.data.root.value);
      MemberIsStored(db, c, f, row.owner);
      FoundIsStored(db, c, f);
    }
  }

  lemma LinksDecode(db: Db, c: Contents, k: Key)
    requires Valid(db) && ObjectsOf(db.objects, c.objects) && Exported(db.objects, k)
    ensures LinksOk(c.objects, RowOf(k, db.objects[k])) <==> LinksStored(db.objects, k)
  {
    var row := db.objects[k];
    assert Shaped(k.kind, row);
    if row.owner.Some? {
      forall r: Key ensures Member(c.objects, r, row.owner) <==> StoredIn(db.objects, r, row.owner) {
        MemberIsStored(db, c, r, row.owner);
      }
    }
  }

  /** A check of every row of the file is a check of every exported row of the store. */
  lemma RootsAndLinks(db: Db, c: Contents)
    requires Valid(db) && ObjectsOf(db.objects, c.objects)
    ensures RootsOk(c.objects) <==> RootsStored(db.objects)
    ensures AllLinked(c.objects) <==> AllLinksStored(db.objects)
  {
    forall k | Exported(db.objects, k)
      ensures RowOf(k, db.objects[k]) in c.objects
      ensures SpecRootOk(c.objects, RowOf(k, db.objects[k])) <==> RootStored(db.objects, k)
      ensures LinksOk(c.objects, RowOf(k, db.objects[k])) <==> LinksStored(db.objects, k)
    {
      RowInFile(db, c, k);
      RootDecodes(db, c, k);
      LinksDecode(db, c, k);
    }
    assert forall o :: o in c.objects ==> RowHolds(db.objects, o);
  }

  lemma RevisionRowPlaced(db: Db, c: Contents, o: ObjectRow)
    requires Valid(db) && ObjectsOf(db.objects, c.objects) && o in c.objects
    requires o.kind == Revision ==> Readable(db.objects, Key(o.kind, o.id))
    ensures RevisionPlaced(OfKind(c.objects, Request), o)
  {
    var k := Key(o.kind, o.id);
    RowInFile(db, c, k);
    var qs := OfKind(c.objects, Request);
    if o.kind == Revision && RequestOf(qs, EntryOf(o)).Some? {
      var qk := Key(Request, db.objects[k].parent.value);
      FindEntryIs(qs, qk);
      var q := RequestOf(qs, EntryOf(o)).value;
      OfKindMembers(c.objects, Request, q);
      var qo :| qo in c.objects && qo.kind == Request && EntryOf(qo) == q;
      RowInFile(db, c, qk);
    }
  }

  // ------------------------------------------------------------- folders

  lemma {:induction false} ParentMapIs(es: seq<Entry>, id: Id)
    ensures id in ParentMap(es) <==> exists e :: e in es && e.key.id == id
    ensures id in ParentMap(es) ==> exists e :: e in es && e.key.id == id && ParentMap(es)[id] == e.row.parent
    decreases |es|
  {
    if es == [] {
    } else {
      var n := |es| - 1;
      assert es == es[..n] + [es[n]];
      ParentMapIs(es[..n], id);
      if id in ParentMap(es) && id != es[n].key.id {
        var e :| e in es[..n] && e.key.id == id && ParentMap(es[..n])[id] == e.row.parent;
        assert e in es;
      }
    }
  }

  lemma FoldersDecode(db: Db, c: Contents)
    requires Valid(db) && ObjectsOf(db.objects, c.objects)
    ensures ParentMap(OfKind(c.objects, Folder)) == FolderParents(db.objects)
  {
    var es, now := OfKind(c.objects, Folder), FolderParents(db.objects);
    forall id ensures Lookup(ParentMap(es), id) == Lookup(now, id) {
      var k := Key(Folder, id);
      ParentMapIs(es, id);
      RowInFile(db, c, k);
      if k in db.objects {
        OfKindMembers(c.objects, Folder, EntryOf(RowOf(k, db.objects[k])));
        assert k in db.objects && k.kind == Folder;
      }
      if id in ParentMap(es) {
        var e :| e in es && e.key.id == id && ParentMap(es)[id] == e.row.parent;
        OfKindMembers(c.objects, Folder, e);
      }
    }
    SameMap(ParentMap(es), now);
  }

  // ------------------------------------------------------------ rulesets

  lemma {:induction false} RulesetsRead(objects: seq<ObjectRow>, r: Ruleset)
    ensures r in CarriedRulesets(objects) <==> exists o :: o in objects && r in RulesetsIn(o)
    decreases |objects|
  {
    if objects != [] {
      var n := |objects| - 1;
      assert objects == objects[..n] + [objects[n]];
      assert forall o :: o in objects <==> o in objects[..n] || o == objects[n];
      RulesetsRead(objects[..n], r);
    }
  }

  /** A row that brings at most its own ruleset. */
  predicate BringsOwn(o: ObjectRow) {
    forall r :: r in RulesetsIn(o) ==> RulesetsIn(o) == [r] && RulesetKey(r) == Key(o.kind, o.id)
  }

  lemma {:induction false} RulesetsDistinct(objects: seq<ObjectRow>)
    requires forall i, j :: 0 <= i < j < |objects| ==> RowBefore(objects[i], objects[j])
    requires forall o :: o in objects ==> BringsOwn(o)
    ensures DistinctRulesets(CarriedRulesets(objects))
    decreases |objects|
  {
    if objects != [] {
      var n := |objects| - 1;
      var last := RulesetsIn(objects[n]);
      RulesetsDistinct(objects[..n]);
      forall a, b | a in CarriedRulesets(objects[..n]) && b in last ensures a.id != b.id {
        RulesetsRead(objects[..n], a);
        var o :| o in objects[..n] && a in RulesetsIn(o);
        var i :| 0 <= i < n && objects[i] == o;
        assert RowBefore(objects[i], objects[n]) && BringsOwn(objects[i]) && BringsOwn(objects[n]);
      }
      assert BringsOwn(objects[n]) && (last != [] ==> last[0] in last);
      OneMore(CarriedRulesets(objects[..n]), last);
    }
  }

  lemma OneMore(rs: seq<Ruleset>, last: seq<Ruleset>)
    requires DistinctRulesets(rs) && |last| <= 1 && forall a, b :: a in rs && b in last ==> a.id != b.id
    ensures DistinctRulesets(rs + last)
  {
  }

  lemma StoredBringsOwn(db: Db, c: Contents, o: ObjectRow)
    requires Valid(db) && ObjectsOf(db.objects, c.objects) && SettingsOf(db.objects).legacy == [] && o in c.objects
    ensures BringsOwn(o)
  {
    RowInFile(db, c, Key(o.kind, o.id));
    if o.kind == AppSettings {
      assert Key(o.kind, o.id) == SETTINGS_KEY && Shaped(AppSettings, db.objects[SETTINGS_KEY]);
      assert SettingsIn(o) == SettingsOf(db.objects);
    }
  }

  lemma RulesetsDecode(db: Db, c: Contents)
    requires Valid(db) && ObjectsOf(db.objects, c.objects) && SettingsOf(db.objects).legacy == []
    ensures DistinctRulesets(CarriedRulesets(c.objects))
    ensures RulesetLimits(CarriedRulesets(c.objects)) <==> RulesetLimits(Listing(db.objects))
  {
    forall o | o in c.objects ensures BringsOwn(o) {
      StoredBringsOwn(db, c, o);
    }
    RulesetsDistinct(c.objects);
    OrderIsDistinct(c.objects);
    OrderComesBack(db, c);
    SortedRulesets(c.objects);
    SameLimits(CarriedRulesets(c.objects), Listing(db.objects));
  }

  lemma SameLimits(a: seq<Ruleset>, b: seq<Ruleset>)
    requires DistinctRulesets(a) && DistinctRulesets(b) && forall r :: r in a <==> r in b
    ensures RulesetLimits(a) <==> RulesetLimits(b)
  {
    DistinctIsNoDup(a);
    DistinctIsNoDup(b);
    SameSize(a, b);
  }

  // ----------------------------------------------------------------- ids

  /** The keys of entries and rulesets, in order. */
  function KeysListed(es: seq<Entry>, rs: seq<Ruleset>): (r: seq<Key>)
    ensures |r| == |es| + |rs|
    ensures forall i :: 0 <= i < |es| ==> r[i] == es[i].key
    ensures forall i :: 0 <= i < |rs| ==> r[|es| + i] == RulesetKey(rs[i])
  {
    seq(|es|, i requires 0 <= i < |es| => es[i].key) + seq(|rs|, i requires 0 <= i < |rs| => RulesetKey(rs[i]))
  }

  lemma KeysDistinct(es: seq<Entry>, rs: seq<Ruleset>)
    requires DistinctKeys(es) && DistinctRulesets(rs) && forall e :: e in es ==> e.key.kind != ApiRuleset
    ensures NoDup(KeysListed(es, rs))
  {
    var ks := KeysListed(es, rs);
    forall i, j | 0 <= i < j < |ks| ensures ks[i] != ks[j] {
      if i < |es| <= j {
        assert es[i] in es && ks[j] == RulesetKey(rs[j - |es|]);
      } else if |es| <= i {
        assert ks[i] == RulesetKey(rs[i - |es|]) && ks[j] == RulesetKey(rs[j - |es|]);
      }
    }
  }

  lemma IdsOfKeys(ks: seq<Key>, ids: seq<Id>)
    requires |ids| == |ks| && NoDup(ks) && forall i :: 0 <= i < |ks| ==> ids[i] == ks[i].id
    ensures NoDup(ids) <==> forall a, b :: a in ks && b in ks && a != b ==> a.id != b.id
  {
    if NoDup(ids) {
      forall a, b | a in ks && b in ks && a != b ensures a.id != b.id {
        var i :| 0 <= i < |ks| && ks[i] == a;
        var j :| 0 <= j < |ks| && ks[j] == b;
        assert ids[i] != ids[j];
      }
    }
    if forall a, b :: a in ks && b in ks && a != b ==> a.id != b.id {
      forall i, j | 0 <= i < j < |ids| ensures ids[i] != ids[j] {
        assert ks[i] in ks && ks[j] in ks && ks[i] != ks[j];
      }
    }
  }

  /** A stored object of the graph is read as some entry. */
  lemma StoredIsRead(db: Db, c: Contents, k: Key) returns (e: Entry)
    requires Valid(db) && ObjectsOf(db.objects, c.objects) && Exported(db.objects, k) && GraphKind(k.kind)
    requires Readable(db.objects, k)
    ensures e in Grouped(c.objects, GRAPH_KINDS) && e.key == k
  {
    var o := RowOf(k, db.objects[k]);
    RowInFile(db, c, k);
    if k.kind == Revision {
      var qs, q := OfKind(c.objects, Request), Key(Request, db.objects[k].parent.value);
      RowInFile(db, c, q);
      OfKindMembers(c.objects, Request, EntryOf(RowOf(q, db.objects[q])));
      FindEntryIs(qs, q);
      e := EntryOf(o).(row := EntryOf(o).row.(owner := RequestOf(qs, EntryOf(o)).value.row.owner));
    } else {
      e := ReadEntry(c.objects, o);
    }
    assert From(c.objects, e, o);
    GraphMembers(c.objects, e);
  }

  lemma RulesetIsRead(db: Db, c: Contents, k: Key)
    requires Valid(db) && ObjectsOf(db.objects, c.objects) && SettingsOf(db.objects).legacy == [] && k.kind == ApiRuleset
    ensures Exported(db.objects, k) <==> exists r :: r in CarriedRulesets(c.objects) && RulesetKey(r) == k
  {
    RowInFile(db, c, k);
    if Exported(db.objects, k) {
      var r := RulesetOf(k, db.objects[k]);
      RulesetsRead(c.objects, r);
      assert r in RulesetsIn(RowOf(k, db.objects[k]));
    }
    if r :| r in CarriedRulesets(c.objects) && RulesetKey(r) == k {
      RulesetsRead(c.objects, r);
      var o :| o in c.objects && r in RulesetsIn(o);
      StoredBringsOwn(db, c, o);
    }
  }

  lemma ListedIsStored(db: Db, c: Contents, es: seq<Entry>, k: Key)
    requires Valid(db) && ObjectsOf(db.objects, c.objects) && SettingsOf(db.objects).legacy == []
    requires es == Grouped(c.objects, GRAPH_KINDS) && k in KeysListed(es, CarriedRulesets(c.objects))
    ensures Exported(db.objects, k) && OneSpace(k.kind)
  {
    var rs := CarriedRulesets(c.objects);
    var i :| 0 <= i < |es| + |rs| && KeysListed(es, rs)[i] == k;
    if i < |es| {
      assert es[i] in es && es[i].key == k;
      EntryIsStored(db, c, es[i]);
    } else {
      assert rs[i - |es|] in rs && RulesetKey(rs[i - |es|]) == k;
      RulesetIsRead(db, c, k);
    }
  }

  lemma EntryIsStored(db: Db, c: Contents, e: Entry)
    requires Valid(db) && ObjectsOf(db.objects, c.objects) && e in Grouped(c.objects, GRAPH_KINDS)
    ensures Exported(db.objects, e.key) && GraphKind(e.key.kind)
  {
    GraphMembers(c.objects, e);
    RowInFile(db, c, e.key);
  }

  lemma EntryListed(es: seq<Entry>, rs: seq<Ruleset>, e: Entry)
    requires e in es
    ensures e.key in KeysListed(es, rs)
  {
    var i :| 0 <= i < |es| && es[i] == e;
    assert KeysListed(es, rs)[i] == e.key;
  }

  lemma RulesetListed(es: seq<Entry>, rs: seq<Ruleset>, r: Ruleset)
    requires r in rs
    ensures RulesetKey(r) in KeysListed(es, rs)
  {
    var i :| 0 <= i < |rs| && rs[i] == r;
    assert KeysListed(es, rs)[|es| + i] == RulesetKey(r);
  }

  lemma StoredIsListed(db: Db, c: Contents, es: seq<Entry>, k: Key)
    requires Valid(db) && ObjectsOf(db.objects, c.objects) && SettingsOf(db.objects).legacy == []
    requires es == Grouped(c.objects, GRAPH_KINDS) && Exported(db.objects, k) && OneSpace(k.kind)
    requires Readable(db.objects, k)
    ensures k in KeysListed(es, CarriedRulesets(c.objects))
  {
    if k.kind == ApiRuleset {
      RulesetIsRead(db, c, k);
      var r :| r in CarriedRulesets(c.objects) && RulesetKey(r) == k;
      RulesetListed(es, CarriedRulesets(c.objects), r);
    } else {
      var e := StoredIsRead(db, c, k);
      EntryListed(es, CarriedRulesets(c.objects), e);
    }
  }

  lemma IdsDecode(db: Db, c: Contents)
    requires Valid(db) && ObjectsOf(db.objects, c.objects) && SettingsOf(db.objects).legacy == []
    requires Parsed(c.objects) && DistinctRulesets(CarriedRulesets(c.objects))
    requires forall k :: Exported(db.objects, k) ==> Readable(db.objects, k)
    ensures IdsUnique(c.objects) <==> IdsApart(db.objects)
  {
    var es, rs := Grouped(c.objects, GRAPH_KINDS), CarriedRulesets(c.objects);
    GraphKindsOrder();
    GroupedDistinct(c.objects, GRAPH_KINDS);
    GroupedKinds(c.objects, GRAPH_KINDS);
    KeysDistinct(es, rs);
    IdsOfKeys(KeysListed(es, rs), GraphIds(es) + RulesetIds(rs));
    forall k | k in KeysListed(es, rs) ensures Exported(db.objects, k) && OneSpace(k.kind) {
      ListedIsStored(db, c, es, k);
    }
    forall k | Exported(db.objects, k) && OneSpace(k.kind) ensures k in KeysListed(es, rs) {
      StoredIsListed(db, c, es, k);
    }
  }

  // ------------------------------------------------------- exactly when

  lemma GraphDecodes(db: Db, c: Contents)
    requires Valid(db) && ObjectsOf(db.objects, c.objects) && SettingsOf(db.objects).legacy == [] && Parsed(c.objects)
    requires forall k :: Exported(db.objects, k) ==> Readable(db.objects, k)
    ensures GraphRefusal(c.objects) == None <==>
      && RulesetLimits(Listing(db.objects)) && OwnersIn(c.objects, TREE_KINDS, StoredWorkspaces(db))
      && AllLinked(c.objects)
      && NoCycle(FolderParents(db.objects)) && IdsApart(db.objects)
  {
    WorkspacesInFile(db, c);
    RulesetsDecode(db, c);
    FoldersDecode(db, c);
    IdsDecode(db, c);
    forall o | o in c.objects ensures RevisionPlaced(OfKind(c.objects, Request), o) {
      assert RowHolds(db.objects, o);
      RevisionRowPlaced(db, c, o);
    }
  }

  lemma RecordsDecode(db: Db, c: Contents, ws: set<Id>)
    requires Exportable(db) && FilesOf(db.files, c.attachments) && HistoryOf(db.history, c.history) && ReportsOf(db.reports, c.reports)
    ensures AttachmentsAccepted(c.attachments) && HistoryRefusal(c.history, ws) == None && ReportsRefusal(c.reports) == None
  {
    assert forall r :: r in c.attachments ==> FileHolds(db.files, r);
    AttachmentsRead(db.files, c.attachments);
    RecordsRead(db.history, c.history, ws);
    LoadReportsRead(db.reports, c.reports);
  }

  lemma PlacesDecode(db: Db, c: Contents)
    requires Valid(db) && ObjectsOf(db.objects, c.objects)
    ensures OwnersStored(db) <==>
      OwnersIn(c.objects, PROFILE_KINDS, StoredWorkspaces(db)) && OwnersIn(c.objects, TREE_KINDS, StoredWorkspaces(db))
  {
    OwnersDecode(db, c, PROFILE_KINDS, StoredWorkspaces(db));
    OwnersDecode(db, c, TREE_KINDS, StoredWorkspaces(db));
  }

  /** With rows, attachments and records in order, what is left to refuse. */
  lemma RefusalComesTo(c: Contents, ws: set<Id>)
    requires ws == WorkspaceIds(c.objects) && RowsRefusal(c.objects) == None && AttachmentsAccepted(c.attachments)
    requires HistoryRefusal(c.history, ws) == None && ReportsRefusal(c.reports) == None
    ensures Refusal(c) == None <==>
      && OwnersIn(c.objects, PROFILE_KINDS, ws) && RootsOk(c.objects)
      && SecretsAccepted(c.secrets, ws) && GraphRefusal(c.objects) == None
  {
  }

  lemma RowsDecode(db: Db, c: Contents)
    requires Valid(db) && ObjectsOf(db.objects, c.objects)
    ensures RowsRefusal(c.objects) == None && Parsed(c.objects)
  {
    RowsAccepted(db, c.objects);
    RowsParsed(c.objects);
  }

  /** Of a snapshot, only owners, roots, secrets and the graph are left to refuse. */
  lemma SnapshotComesTo(db: Db, c: Contents)
    requires Valid(db) && Exportable(db) && SnapshotOf(db, c)
    ensures Refusal(c) == None <==>
      && OwnersIn(c.objects, PROFILE_KINDS, StoredWorkspaces(db)) && RootsOk(c.objects)
      && SecretsAccepted(c.secrets, StoredWorkspaces(db)) && GraphRefusal(c.objects) == None
  {
    RowsDecode(db, c);
    WorkspacesInFile(db, c);
    RecordsDecode(db, c, StoredWorkspaces(db));
    RefusalComesTo(c, StoredWorkspaces(db));
  }

  /** The snapshot of a store decodes exactly when the store is restorable. */
  lemma DecodesExactly(db: Db, c: Contents)
    requires Valid(db) && Exportable(db) && SnapshotOf(db, c) && SettingsOf(db.objects).legacy == []
    ensures Refusal(c) == None <==> Restorable(db)
  {
    SnapshotComesTo(db, c);
    RowsDecode(db, c);
    SecretsOwned(db, c);
    PlacesDecode(db, c);
    RootsAndLinks(db, c);
    GraphDecodes(db, c);
  }

  /** A full backup of a tidy, restorable profile restores into an empty one, and gives the profile back. */
  lemma ExportThenRestore(db: Db, c: Contents, approval: Approval, now: int)
    requires Valid(db) && Tidy(db) && Exportable(db) && Restorable(db) && SnapshotOf(db, c)
    ensures Refusal(c) == None && DistinctIds(CarriedOrder(c.objects)) && GivesBack(db, Interpret(c), approval, now)
  {
    DecodesExactly(db, c);
    DecodedSnapshotRestores(db, c, approval, now);
  }

  // A profile with one workspace and a folder in it, to which all of this applies.

  const WORKSPACE_ROW := Row(None, None, 0.0, Value(0.0, LayerGuard(NO_OVERRIDES, Inherit), Plain(0)))
  const FOLDER_ROW := Row(Some(2), None, 2.0, Value(2.0, FolderGuard(NO_OVERRIDES, Inherit, false, []), FolderData(false, 0)))
  const ONE_FOLDER := EMPTY.(objects := map[Key(Workspace, 2) := WORKSPACE_ROW, Key(Folder, 3) := FOLDER_ROW])
  const FOLDER_CONTENTS := Contents([RowOf(Key(Workspace, 2), WORKSPACE_ROW), RowOf(Key(Folder, 3), FOLDER_ROW)], [], [], [], [])

  lemma OneFolderIsValid(db: Db)
    requires db == ONE_FOLDER
    ensures Valid(db) && Exportable(db)
  {
  }

  lemma OneFolderIsTidy(db: Db)
    requires db == ONE_FOLDER
    ensures Tidy(db)
  {
    forall path ensures At(Inherit, path).Some? ==> !Armed(At(Inherit, path).value) {
    }
  }

  lemma OneFolderSnapshot(db: Db, c: Contents)
    requires db == ONE_FOLDER && c == FOLDER_CONTENTS
    ensures SnapshotOf(db, c)
  {
    assert c.objects[0] == RowOf(Key(Workspace, 2), WORKSPACE_ROW) && c.objects[1] == RowOf(Key(Folder, 3), FOLDER_ROW);
  }

  lemma OneFolderIsRestorable(db: Db)
    requires db == ONE_FOLDER
    ensures Restorable(db)
  {
    assert Key(Workspace, 2) in db.objects;
    assert StoredFolders(db.objects) == {3};
    assert RootWithin(FolderParents(db.objects), 3, 0);
    assert PlacedIn(db.objects) == {};
    EmptyElements(Sorted(PlacedIn(db.objects)));
  }

  /** The hypotheses of the round trip hold of a profile with a folder that has a sort key of its own. */
  lemma OneFolderExports(db: Db, c: Contents)
    requires db == ONE_FOLDER && c == FOLDER_CONTENTS
    ensures Valid(db) && Tidy(db) && Exportable(db) && Restorable(db) && SnapshotOf(db, c)
  {
    OneFolderIsValid(db);
    OneFolderIsTidy(db);
    OneFolderSnapshot(db, c);
    OneFolderIsRestorable(db);
  }

  /** So its backup, restored into an empty profile, brings the folder back in its place. */
  lemma OneFolderComesBack(db: Db, c: Contents, approval: Approval, now: int)
    requires db == ONE_FOLDER && c == FOLDER_CONTENTS
    ensures DistinctIds(CarriedOrder(c.objects)) && ListsSettings(Interpret(c))
    ensures var r := Transaction(EMPTY, Interpret(c), Replace, approval, now);
      r.Ok? && Lookup(r.value.0.objects, Key(Folder, 3)) == Some(FOLDER_ROW) && FOLDER_ROW.sort == 2.0
  {
    OneFolderExports(db, c);
    ExportThenRestore(db, c, approval, now);
    FolderIsStored(db);
  }

  lemma FolderIsStored(db: Db)
    requires db == ONE_FOLDER
    ensures Exported(db.objects, Key(Folder, 3)) && db.objects[Key(Folder, 3)] == FOLDER_ROW
  {
  }
}
