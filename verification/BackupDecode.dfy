/**
 * Decoding a full backup: the loops that read its records and check them, in
 * the order the source makes its checks.
 */
module BackupDecode {
  import opened Prelude
  import opened Store
  import opened Rulesets
  import opened BackupWrite
  import opened BackupRestore
  import opened BackupContents
  import opened DecodeAccepts
  import opened FolderCycles

  /** A refusal of an earlier row is the refusal of them all. */
  lemma {:induction false} RowsRefusalStands(objects: seq<ObjectRow>, i: nat)
    requires i <= |objects| && RowsRefusal(objects[..i]).Some?
    ensures RowsRefusal(objects) == RowsRefusal(objects[..i])
    decreases |objects|
  {
    if i == |objects| {
      assert objects[..i] == objects;
    } else {
      var n := |objects| - 1;
      assert objects[..n][..i] == objects[..i];
      RowsRefusalStands(objects[..n], i);
    }
  }

  lemma {:induction false} HistoryRefusalStands(rows: seq<HistoryRow>, ws: set<Id>, i: nat)
    requires i <= |rows| && HistoryRefusal(rows[..i], ws).Some?
    ensures HistoryRefusal(rows, ws) == HistoryRefusal(rows[..i], ws)
    decreases |rows|
  {
    if i == |rows| {
      assert rows[..i] == rows;
    } else {
      var n := |rows| - 1;
      assert rows[..n][..i] == rows[..i];
      HistoryRefusalStands(rows[..n], ws, i);
    }
  }

  lemma {:induction false} ReportsRefusalStands(rows: seq<ReportRow>, i: nat)
    requires i <= |rows| && ReportsRefusal(rows[..i]).Some?
    ensures ReportsRefusal(rows) == ReportsRefusal(rows[..i])
    decreases |rows|
  {
    if i == |rows| {
      assert rows[..i] == rows;
    } else {
      var n := |rows| - 1;
      assert rows[..n][..i] == rows[..i];
      ReportsRefusalStands(rows[..n], i);
    }
  }

  lemma {:induction false} SecretsRefusedEarlier(ss: seq<SecretRow>, ws: set<Id>, i: nat)
    requires i <= |ss| && !SecretsAccepted(ss[..i], ws)
    ensures !SecretsAccepted(ss, ws)
    decreases |ss|
  {
    if i == |ss| {
      assert ss[..i] == ss;
    } else {
      var n := |ss| - 1;
      assert ss[..n][..i] == ss[..i];
      SecretsRefusedEarlier(ss[..n], ws, i);
    }
  }

  lemma {:induction false} AttachmentsRefusedEarlier(rows: seq<AttachmentRow>, i: nat)
    requires i <= |rows| && !AttachmentsAccepted(rows[..i])
    ensures !AttachmentsAccepted(rows)
    decreases |rows|
  {
    if i == |rows| {
      assert rows[..i] == rows;
    } else {
      var n := |rows| - 1;
      assert rows[..n][..i] == rows[..i];
      AttachmentsRefusedEarlier(rows[..n], i);
    }
  }

  type Lists = map<Kind, seq<Entry>>

  function Listed(g: Lists, k: Kind): seq<Entry> {
    if k in g then g[k] else []
  }

  /** Everything read off the object rows. */
  datatype Read = Read(lists: Lists, rulesets: seq<Ruleset>, order: set<Placed>, settings: Option<Settings>, items: seq<Item>)

  ghost predicate Reads(r: Read, objects: seq<ObjectRow>) {
    && (forall k: Kind :: Listed(r.lists, k) == OfKind(objects, k))
    && r.rulesets == CarriedRulesets(objects)
    && r.order == CarriedOrder(objects)
    && r.settings == CarriedSettings(objects)
    && r.items == ObjectItems(objects)
  }

  lemma KeysSoFar(objects: seq<ObjectRow>, i: nat)
    requires i < |objects|
    ensures objects[..i + 1][..i] == objects[..i] && objects[..i + 1][i] == objects[i]
    ensures KeysOf(objects[..i + 1]) == KeysOf(objects[..i]) + {Key(objects[i].kind, objects[i].id)}
  {
    assert objects[..i + 1] == objects[..i] + [objects[i]];
  }

  /** What has been read, once one more row is. */
  function ReadNext(read: Read, o: ObjectRow): Read {
    Read(read.lists[o.kind := Listed(read.lists, o.kind) + [EntryOf(o)]],
         read.rulesets + RulesetsIn(o), read.order + OrderIn(o),
         if o.kind == AppSettings then Some(BroughtSettings(SettingsIn(o))) else read.settings,
         read.items + ItemsIn(o))
  }

  lemma ReadsNext(read: Read, objects: seq<ObjectRow>, i: nat)
    requires i < |objects| && Reads(read, objects[..i])
    ensures Reads(ReadNext(read, objects[i]), objects[..i + 1])
  {
    KeysSoFar(objects, i);
    var now, next := objects[..i + 1], ReadNext(read, objects[i]);
    assert |now| - 1 == i;
    forall k: Kind ensures Listed(next.lists, k) == OfKind(now, k) {
      assert Listed(read.lists, k) == OfKind(objects[..i], k);
      assert Listed(read.lists, objects[i].kind) == OfKind(objects[..i], objects[i].kind);
    }
  }

  method ReadObjects(objects: seq<ObjectRow>) returns (r: Result<Read, BackupError>)
    ensures r.Ok? <==> forall i :: 0 <= i < |objects| ==> ObjectFine(objects, i)
    ensures r == Err(FutureSchema) <==> exists i :: 0 <= i < |objects| && ObjectNewer(objects, i)
    ensures r.Err? ==> r.error in {FutureSchema, Invalid}
    ensures r.Err? ==> RowsRefusal(objects) == Some(r.error)
    ensures r.Ok? ==> RowsRefusal(objects).None? && Reads(r.value, objects)
  {
    var seen: set<Key> := {};
    var read := Read(map[], [], {}, None, []);
    for i := 0 to |objects|
      invariant seen == KeysOf(objects[..i])
      invariant RowsRefusal(objects[..i]).None? && Reads(read, objects[..i])
    {
      var o := objects[i];
      KeysSoFar(objects, i);
      var refused := RowRefusal(seen, o);
      if refused.Some? {
        RowsRefusalStands(objects, i + 1);
        ObjectsDecided(objects);
        return Err(refused.value);
      }
      seen := seen + {Key(o.kind, o.id)};
      ReadsNext(read, objects, i);
      read := ReadNext(read, o);
    }
    assert objects[..|objects|] == objects;
    ObjectsDecided(objects);
    r := Ok(read);
  }

  method ReadSecrets(rows: seq<SecretRow>, ws: set<Id>) returns (ok: bool, secrets: seq<SecretEntry>)
    ensures ok <==> SecretsAccepted(rows, ws)
    ensures ok <==> forall i :: 0 <= i < |rows| ==> SecretFine(rows, ws, i)
    ensures ok ==> secrets == CarriedSecrets(rows) && SecretsReadAs(rows, secrets)
  {
    secrets := [];
    for i := 0 to |rows|
      invariant SecretsAccepted(rows[..i], ws) && secrets == CarriedSecrets(rows[..i])
    {
      assert rows[..i + 1][..i] == rows[..i];
      if !SecretAccepted(SecretIds(secrets), ws, rows[i]) {
        SecretsRefusedEarlier(rows, ws, i + 1);
        SecretsDecided(rows, ws);
        return false, secrets;
      }
      secrets := secrets + [SecretEntryOf(rows[i])];
    }
    assert rows[..|rows|] == rows;
    SecretsDecided(rows, ws);
    SecretsAreRead(rows, ws);
    ok := true;
  }

  method ReadAttachments(rows: seq<AttachmentRow>) returns (ok: bool, files: map<Hash, Bytes>)
    ensures ok <==> AttachmentsAccepted(rows)
    ensures ok <==> forall i :: 0 <= i < |rows| ==> AttachmentFine(rows, i)
    ensures ok ==> files == CarriedFiles(rows)
    ensures ok ==> forall h :: h in files <==> exists r :: r in rows && r.sha == Some(h)
    ensures ok ==> forall h :: h in files ==> h == Digest(files[h])
  {
    files := map[];
    for i := 0 to |rows|
      invariant AttachmentsAccepted(rows[..i]) && files == CarriedFiles(rows[..i])
    {
      assert rows[..i + 1][..i] == rows[..i];
      if !AttachmentAccepted(files, rows[i]) {
        AttachmentsRefusedEarlier(rows, i + 1);
        AttachmentsDecided(rows);
        return false, files;
      }
      files := files[rows[i].sha.value := rows[i].content.value];
    }
    assert rows[..|rows|] == rows;
    AttachmentsDecided(rows);
    FilesAsCarried(rows);
    ok := true;
  }

  lemma FilesAsCarried(rows: seq<AttachmentRow>)
    requires forall i :: 0 <= i < |rows| ==> AttachmentFine(rows, i)
    ensures forall h :: h in CarriedFiles(rows) <==> exists r :: r in rows && r.sha == Some(h)
    ensures forall h :: h in CarriedFiles(rows) ==> h == Digest(CarriedFiles(rows)[h])
  {
    forall r | r in rows ensures r.content.Some? && r.sha == Some(Digest(r.content.value)) {
      var i :| 0 <= i < |rows| && rows[i] == r;
      assert AttachmentFine(rows, i);
    }
    forall h
      ensures h in CarriedFiles(rows) <==> exists r :: r in rows && r.sha == Some(h)
      ensures h in CarriedFiles(rows) ==> h == Digest(CarriedFiles(rows)[h])
    {
      FilesAre(rows, h);
    }
  }

  lemma HistorySoFar(rows: seq<HistoryRow>, i: nat)
    requires i < |rows| && rows[i].record.Some?
    ensures HistoryIds(rows[..i + 1]) == HistoryIds(rows[..i]) + {rows[i].record.value.id}
  {
    assert rows[..i + 1] == rows[..i] + [rows[i]];
  }

  lemma ReportsSoFar(rows: seq<ReportRow>, i: nat)
    requires i < |rows| && rows[i].report.Some?
    ensures ReportIds(rows[..i + 1]) == ReportIds(rows[..i]) + {rows[i].report.value.id}
  {
    assert rows[..i + 1] == rows[..i] + [rows[i]];
  }

  method ReadHistory(rows: seq<HistoryRow>, ws: set<Id>) returns (r: Result<seq<RecordEntry>, BackupError>)
    ensures r.Ok? <==> forall i :: 0 <= i < |rows| ==> RecordFine(rows, ws, i)
    ensures r == Err(FutureSchema) <==> exists i :: 0 <= i < |rows| && RecordNewer(rows, ws, i)
    ensures r.Err? ==> r.error in {FutureSchema, Invalid}
    ensures r.Err? ==> HistoryRefusal(rows, ws) == Some(r.error)
    ensures r.Ok? ==> HistoryRefusal(rows, ws).None? && r.value == CarriedHistory(rows, ws)
  {
    var seen: set<Id> := {};
    var records: seq<RecordEntry> := [];
    for i := 0 to |rows|
      invariant seen == HistoryIds(rows[..i])
      invariant HistoryRefusal(rows[..i], ws).None? && records == CarriedHistory(rows[..i], ws)
    {
      assert rows[..i + 1][..i] == rows[..i];
      var refused := HistoryRowRefusal(seen, ws, rows[i]);
      if refused.Some? {
        HistoryRefusalStands(rows, ws, i + 1);
        HistoryDecided(rows, ws);
        return Err(refused.value);
      }
      HistorySoFar(rows, i);
      seen := seen + {rows[i].id};
      records := records + RecordsIn(rows[i], ws);
    }
    assert rows[..|rows|] == rows;
    HistoryDecided(rows, ws);
    r := Ok(records);
  }

  method ReadReports(rows: seq<ReportRow>, ws: set<Id>) returns (r: Result<seq<ReportEntry>, BackupError>)
    ensures r.Ok? <==> forall i :: 0 <= i < |rows| ==> ReportFine(rows, i)
    ensures r == Err(FutureSchema) <==> exists i :: 0 <= i < |rows| && ReportNewer(rows, i)
    ensures r.Err? ==> r.error in {FutureSchema, Invalid}
    ensures r.Err? ==> ReportsRefusal(rows) == Some(r.error)
    ensures r.Ok? ==> ReportsRefusal(rows).None? && r.value == CarriedReports(rows, ws)
  {
    var seen: set<Id> := {};
    var reports: seq<ReportEntry> := [];
    for i := 0 to |rows|
      invariant seen == ReportIds(rows[..i])
      invariant ReportsRefusal(rows[..i]).None? && reports == CarriedReports(rows[..i], ws)
    {
      assert rows[..i + 1][..i] == rows[..i];
      var refused := ReportRowRefusal(seen, rows[i]);
      if refused.Some? {
        ReportsRefusalStands(rows, i + 1);
        ReportsDecided(rows);
        return Err(refused.value);
      }
      ReportsSoFar(rows, i);
      seen := seen + {rows[i].report.value.id};
      reports := reports + ReportsIn(rows[i], ws);
    }
    assert rows[..|rows|] == rows;
    ReportsDecided(rows);
    r := Ok(reports);
  }

  /** Whether no id occurs twice. */
  method AllDistinct(ids: seq<Id>) returns (ok: bool)
    ensures ok <==> NoDup(ids)
  {
    var unique: set<Id> := {};
    for i := 0 to |ids|
      invariant unique == Elements(ids[..i]) && NoDup(ids[..i])
    {
      assert ids[..i + 1] == ids[..i] + [ids[i]];
      assert Elements(ids[..i + 1]) == Elements(ids[..i]) + {ids[i]};
      if ids[i] in unique {
        var j :| 0 <= j < i && ids[j] == ids[i];
        return false;
      }
      unique := unique + {ids[i]};
    }
    assert ids[..|ids|] == ids;
    ok := true;
  }

  function EntriesIn(g: Lists, k: Kind): seq<Entry> {
    var revisions := KeptRevisions(Listed(g, Revision), Listed(g, Request));
    if k == Revision then revisions else NormalisedAll(Listed(g, k), Listed(g, Environment), revisions)
  }

  function GroupedIn(g: Lists, kinds: seq<Kind>): seq<Entry> {
    if kinds == [] then [] else EntriesIn(g, kinds[0]) + GroupedIn(g, kinds[1..])
  }

  lemma {:induction false} GroupedInIs(g: Lists, objects: seq<ObjectRow>, kinds: seq<Kind>)
    requires forall k: Kind :: Listed(g, k) == OfKind(objects, k)
    ensures GroupedIn(g, kinds) == Grouped(objects, kinds)
    decreases |kinds|
  {
    if kinds != [] {
      GroupedInIs(g, objects, kinds[1..]);
    }
  }

  /** The checks made once every record is read. */
  method CheckGraph(objects: seq<ObjectRow>, read: Read, ws: set<Id>) returns (ok: bool)
    requires Reads(read, objects) && ws == WorkspaceIds(objects)
    ensures ok <==> GraphAccepted(objects)
  {
    if !RulesetLimits(read.rulesets) || !OwnersIn(objects, TREE_KINDS, ws) || !AllLinked(objects) {
      return false;
    }
    ok := FindCycle(ParentMap(Listed(read.lists, Folder)));
    if !ok {
      return;
    }
    GroupedInIs(read.lists, objects, GRAPH_KINDS);
    ok := AllDistinct(GraphIds(GroupedIn(read.lists, GRAPH_KINDS)) + RulesetIds(read.rulesets));
    if !ok {
      return;
    }
    ok := RevisionsPlaced(objects, Listed(read.lists, Request));
  }

  // ------------------------------------------------------- ruleset order

  lemma {:induction false} OrderMembers(objects: seq<ObjectRow>)
    ensures forall p :: p in CarriedOrder(objects) ==> p.ruleset in CarriedRulesets(objects)
    ensures forall r :: r in CarriedRulesets(objects) ==> exists p :: p in CarriedOrder(objects) && p.ruleset == r
    decreases |objects|
  {
    if objects == [] {
    } else {
      var n := |objects| - 1;
      OrderMembers(objects[..n]);
      forall r | r in RulesetsIn(objects[n]) ensures exists p :: p in OrderIn(objects[n]) && p.ruleset == r {
        var i :| 0 <= i < |RulesetsIn(objects[n])| && RulesetsIn(objects[n])[i] == r;
        var p := Placed(if objects[n].kind == AppSettings then i as real else objects[n].sort, RulesetsIn(objects[n])[i]);
        assert p in OrderIn(objects[n]);
      }
      forall r | r in CarriedRulesets(objects) ensures exists p :: p in CarriedOrder(objects) && p.ruleset == r {
        if r in CarriedRulesets(objects[..n]) {
          var p :| p in CarriedOrder(objects[..n]) && p.ruleset == r;
          assert p in CarriedOrder(objects);
        } else {
          var p :| p in OrderIn(objects[n]) && p.ruleset == r;
          assert p in CarriedOrder(objects);
        }
      }
    }
  }

  lemma DistinctParts(a: seq<Ruleset>, b: seq<Ruleset>)
    requires DistinctRulesets(a + b)
    ensures DistinctRulesets(a) && DistinctRulesets(b)
    ensures forall x, y :: x in a && y in b ==> x.id != y.id
  {
    var all := a + b;
    forall i, j | 0 <= i < j < |a| ensures a[i].id != a[j].id {
      assert all[i].id != all[j].id;
    }
    forall i, j | 0 <= i < j < |b| ensures b[i].id != b[j].id {
      assert all[|a| + i].id != all[|a| + j].id;
    }
    forall x, y | x in a && y in b ensures x.id != y.id {
      var i :| 0 <= i < |a| && a[i] == x;
      var j :| 0 <= j < |b| && b[j] == y;
      assert all[i].id != all[|a| + j].id;
    }
  }

  lemma OwnOrderDistinct(o: ObjectRow)
    requires DistinctRulesets(RulesetsIn(o))
    ensures DistinctIds(OrderIn(o)) && forall p :: p in OrderIn(o) ==> p.ruleset in RulesetsIn(o)
  {
  }

  /** Rulesets with distinct ids have one place each. */
  lemma {:induction false} OrderIsDistinct(objects: seq<ObjectRow>)
    requires DistinctRulesets(CarriedRulesets(objects))
    ensures DistinctIds(CarriedOrder(objects))
    decreases |objects|
  {
    if objects == [] {
    } else {
      var n := |objects| - 1;
      DistinctParts(CarriedRulesets(objects[..n]), RulesetsIn(objects[n]));
      OrderIsDistinct(objects[..n]);
      OrderMembers(objects[..n]);
      OwnOrderDistinct(objects[n]);
    }
  }

  lemma DistinctTail(ids: seq<Id>, rs: seq<Ruleset>)
    requires NoDup(ids + RulesetIds(rs))
    ensures DistinctRulesets(rs)
  {
    var all := ids + RulesetIds(rs);
    forall i, j | 0 <= i < j < |rs| ensures rs[i].id != rs[j].id {
      assert all[|ids| + i] != all[|ids| + j];
    }
  }

  lemma AcceptedOrder(objects: seq<ObjectRow>)
    requires IdsUnique(objects)
    ensures DistinctRulesets(CarriedRulesets(objects)) && DistinctIds(CarriedOrder(objects))
  {
    DistinctTail(GraphIds(Grouped(objects, GRAPH_KINDS)), CarriedRulesets(objects));
    OrderIsDistinct(objects);
  }

  /** The backup the contents hold, or why they are refused. */
  method Decode(c: Contents) returns (r: Result<Decoded, BackupError>)
    ensures r.Err? ==> Refusal(c) == Some(r.error)
    ensures r.Ok? ==> Refusal(c).None? && DistinctIds(CarriedOrder(c.objects)) && r.value == Interpret(c)
  {
    var rows := ReadObjects(c.objects);
    if rows.Err? {
      return Err(rows.error);
    }
    var read := rows.value;
    assert Listed(read.lists, Workspace) == OfKind(c.objects, Workspace);
    var ws := IdsOf(Listed(read.lists, Workspace));
    if !OwnersIn(c.objects, PROFILE_KINDS, ws) || !RootsOk(c.objects) {
      return Err(Invalid);
    }
    var secretsOk, secrets := ReadSecrets(c.secrets, ws);
    if !secretsOk {
      return Err(Invalid);
    }
    var filesOk, files := ReadAttachments(c.attachments);
    if !filesOk {
      return Err(Invalid);
    }
    var history := ReadHistory(c.history, ws);
    if history.Err? {
      return Err(history.error);
    }
    var reports := ReadReports(c.reports, ws);
    if reports.Err? {
      return Err(reports.error);
    }
    var graphOk := CheckGraph(c.objects, read, ws);
    if !graphOk {
      return Err(Invalid);
    }
    AcceptedOrder(c.objects);
    var d := Assemble(c, read, secrets, files, history.value, reports.value);
    r := Ok(d);
  }

  method Assemble(c: Contents, read: Read, secrets: seq<SecretEntry>, files: map<Hash, Bytes>, history: seq<RecordEntry>,
                  reports: seq<ReportEntry>) returns (d: Decoded)
    requires Reads(read, c.objects) && DistinctIds(CarriedOrder(c.objects))
    requires secrets == CarriedSecrets(c.secrets) && files == CarriedFiles(c.attachments)
    requires history == CarriedHistory(c.history, WorkspaceIds(c.objects))
    requires reports == CarriedReports(c.reports, WorkspaceIds(c.objects))
    ensures d == Interpret(c)
  {
    GroupedInIs(read.lists, c.objects, GRAPH_KINDS);
    GroupedInIs(read.lists, c.objects, TRAILING_KINDS);
    var graph := GroupedIn(read.lists, GRAPH_KINDS);
    var rulesets := SortPlaced(read.order);
    var kept := IdsOf(EntriesIn(read.lists, Revision));
    d := Decoded(graph, read.settings, Unplaced(rulesets), GroupedIn(read.lists, TRAILING_KINDS),
                 secrets, files, history, reports,
                 Retained(read.items, kept) + SecretItems(secrets) + HistoryItems(history) + ReportItems(reports),
                 NamedFiles(graph) - files.Keys);
  }
}
