/**
 * The snapshot an export takes: every carried row, secret, attachment, record
 * and report of one state of the store, orphan revisions and lost attachment
 * contents left out.
 */
module BackupSnapshot {
  import opened Prelude
  import opened Store
  import opened BackupWrite
  import opened BackupRestore
  import opened BackupContents

  datatype ExportError = UnreadableRow(key: Key) | DamagedAttachment(sha: Hash)

  const OBJECT_KINDS := [Workspace, Folder, Request, Revision, Environment, TlsProfile, ProxyProfile, Integration, Dataset,
                         Scenario, LoadPlan, AppSettings, UserProfile, SpecSource, RunReport, ApiRuleset]

  /** A revision whose request is gone: no owner can be established for it. */
  predicate Orphan(o: Objects, k: Key)
    requires k in o
  {
    k.kind == Revision && o[k].parent.Some? && Key(Request, o[k].parent.value) !in o
  }

  predicate Exported(o: Objects, k: Key) {
    k in o && Carried(k.kind) && !Orphan(o, k)
  }

  /** How a stored row is carried. */
  function RowOf(k: Key, row: Row): ObjectRow {
    ObjectRow(k.kind, k.id, row.owner, row.parent, row.sort, Version(SCHEMA_VERSION),
              Some(Payload(k.id, if k.kind == Revision then None else row.owner, row.parent, row.value)))
  }

  function SecretRowOf(id: Id, s: Secret): SecretRow {
    SecretRow(IdText(id), if s.owner.Some? then Some(IdText(s.owner.value)) else None, s.name, s.value)
  }

  function HistoryRowOf(id: Id, rec: Record): HistoryRow {
    HistoryRow(id, Version(SCHEMA_VERSION), Some(RecordEntry(id, rec.(body := None))),
               if rec.body.Some? then Encoded(rec.body.value) else NoBody)
  }

  function ReportRowOf(id: Id, r: Report): ReportRow {
    ReportRow(Version(SCHEMA_VERSION), Some(ReportEntry(id, r)))
  }

  /** `r` is how some carried row is carried. */
  predicate RowHolds(o: Objects, r: ObjectRow) {
    Exported(o, Key(r.kind, r.id)) && r == RowOf(Key(r.kind, r.id), o[Key(r.kind, r.id)])
  }

  predicate FileHolds(files: map<Hash, StoredFile>, r: AttachmentRow) {
    r.sha.Some? && r.sha.value in files && r.content.Some? && r.content == files[r.sha.value].content
  }

  function ReportId(r: ReportRow): Id {
    if r.report.Some? then r.report.value.id else 0
  }

  predicate ReportHolds(m: map<Id, Report>, r: ReportRow) {
    r.report.Some? && r.report.value.id in m && r == ReportRowOf(r.report.value.id, m[r.report.value.id])
  }

  predicate RowBefore(a: ObjectRow, b: ObjectRow) {
    Position(a.kind) < Position(b.kind) || (a.kind == b.kind && a.id < b.id)
  }

  ghost predicate ObjectsOf(o: Objects, rows: seq<ObjectRow>) {
    && (forall i, j :: 0 <= i < j < |rows| ==> RowBefore(rows[i], rows[j]))
    && (forall r :: r in rows ==> RowHolds(o, r))
    && (forall k :: Exported(o, k) ==> RowOf(k, o[k]) in rows)
  }

  ghost predicate SecretsOf(m: map<Id, Secret>, rows: seq<SecretRow>) {
    && (forall i, j :: 0 <= i < j < |rows| ==> rows[i].id != rows[j].id)
    && (forall r :: r in rows ==> r.id.IdText? && r.id.id in m && r == SecretRowOf(r.id.id, m[r.id.id]))
    && (forall id :: id in m ==> SecretRowOf(id, m[id]) in rows)
  }

  ghost predicate FilesOf(files: map<Hash, StoredFile>, rows: seq<AttachmentRow>) {
    && (forall i, j :: 0 <= i < j < |rows| ==> rows[i].sha != rows[j].sha)
    && (forall r :: r in rows ==> FileHolds(files, r))
    && (forall h :: h in files && files[h].content.Some? ==> AttachmentRow(Some(h), files[h].content) in rows)
  }

  ghost predicate HistoryOf(m: map<Id, Record>, rows: seq<HistoryRow>) {
    && (forall i, j :: 0 <= i < j < |rows| ==> rows[i].id < rows[j].id)
    && (forall r :: r in rows ==> r.id in m && r == HistoryRowOf(r.id, m[r.id]))
    && (forall id :: id in m ==> HistoryRowOf(id, m[id]) in rows)
  }

  ghost predicate ReportsOf(m: map<Id, Report>, rows: seq<ReportRow>) {
    && (forall r :: r in rows ==> ReportHolds(m, r))
    && (forall i, j :: 0 <= i < j < |rows| ==> ReportId(rows[i]) < ReportId(rows[j]))
    && (forall id :: id in m ==> ReportRowOf(id, m[id]) in rows)
  }

  /** `c` is everything a full backup of `db` carries. */
  ghost predicate SnapshotOf(db: Db, c: Contents) {
    && ObjectsOf(db.objects, c.objects) && SecretsOf(db.secrets, c.secrets) && FilesOf(db.files, c.attachments)
    && HistoryOf(db.history, c.history) && ReportsOf(db.reports, c.reports)
  }

  /** Every row an export reads can be read, and every attachment is what its hash says. */
  ghost predicate Exportable(db: Db) {
    && (forall k :: Exported(db.objects, k) ==> Readable(db.objects, k))
    && (forall h :: h in db.files && db.files[h].content.Some? ==> h == Digest(db.files[h].content.value))
  }

  lemma {:induction false} HasMinimum(s: set<Id>)
    requires s != {}
    ensures exists m :: m in s && forall x :: x in s ==> m <= x
  {
    var x :| x in s;
    if s - {x} == {} {
      assert s == {x};
    } else {
      HasMinimum(s - {x});
      var m :| m in s - {x} && forall y :: y in s - {x} ==> m <= y;
      var low := if m <= x then m else x;
      assert s == (s - {x}) + {x};
      assert low in s && forall y :: y in s ==> low <= y;
    }
  }

  /** The carried rows of one kind outside `rest`, in id order, all before `rest`. */
  ghost predicate KindRows(o: Objects, k: Kind, rows: seq<ObjectRow>, rest: set<Id>) {
    && (forall i, j :: 0 <= i < j < |rows| ==> rows[i].id < rows[j].id)
    && (forall r :: r in rows ==> r.kind == k && RowHolds(o, r))
    && (forall r, id :: r in rows && id in rest ==> r.id < id)
    && (forall id :: Exported(o, Key(k, id)) && id !in rest ==> Readable(o, Key(k, id)) && RowOf(Key(k, id), o[Key(k, id)]) in rows)
  }

  lemma RowAppended(o: Objects, k: Kind, rows: seq<ObjectRow>, rest: set<Id>, id: Id)
    requires KindRows(o, k, rows, rest) && id in rest && forall x :: x in rest ==> id <= x
    requires Exported(o, Key(k, id)) && Readable(o, Key(k, id))
    ensures KindRows(o, k, rows + [RowOf(Key(k, id), o[Key(k, id)])], rest - {id})
  {
    var row := RowOf(Key(k, id), o[Key(k, id)]);
    assert forall r :: r in rows + [row] <==> r in rows || r == row;
  }

  method ReadKind(o: Objects, k: Kind) returns (r: Result<seq<ObjectRow>, ExportError>)
    requires Carried(k)
    ensures r.Ok? ==> KindRows(o, k, r.value, {})
    ensures r.Err? ==> exists q :: Exported(o, q) && !Readable(o, q)
  {
    var rest := set q | q in o && q.kind == k :: q.id;
    var rows: seq<ObjectRow> := [];
    while rest != {}
      invariant KindRows(o, k, rows, rest)
      invariant forall id :: id in rest ==> Key(k, id) in o
      decreases rest
    {
      HasMinimum(rest);
      var id :| id in rest && forall x :: x in rest ==> id <= x;
      var q := Key(k, id);
      if !Orphan(o, q) {
        if !Readable(o, q) {
          assert Exported(o, q);
          return Err(UnreadableRow(q));
        }
        RowAppended(o, k, rows, rest, id);
        rows := rows + [RowOf(q, o[q])];
      }
      rest := rest - {id};
    }
    r := Ok(rows);
  }

  lemma KindsInOrder()
    ensures forall i :: 0 <= i < |OBJECT_KINDS| ==> Position(OBJECT_KINDS[i]) == i && Carried(OBJECT_KINDS[i])
    ensures forall k :: Carried(k) ==> k in OBJECT_KINDS
  {
    assert OBJECT_KINDS[0] == Workspace && OBJECT_KINDS[1] == Folder && OBJECT_KINDS[2] == Request && OBJECT_KINDS[3] == Revision;
    assert OBJECT_KINDS[4] == Environment && OBJECT_KINDS[5] == TlsProfile && OBJECT_KINDS[6] == ProxyProfile && OBJECT_KINDS[7] == Integration;
    assert OBJECT_KINDS[8] == Dataset && OBJECT_KINDS[9] == Scenario && OBJECT_KINDS[10] == LoadPlan && OBJECT_KINDS[11] == AppSettings;
    assert OBJECT_KINDS[12] == UserProfile && OBJECT_KINDS[13] == SpecSource && OBJECT_KINDS[14] == RunReport && OBJECT_KINDS[15] == ApiRuleset;
    forall k | Carried(k) ensures k in OBJECT_KINDS {
      assert OBJECT_KINDS[Position(k)] == k;
    }
  }

  method ReadRows(o: Objects) returns (r: Result<seq<ObjectRow>, ExportError>)
    ensures r.Ok? ==> ObjectsOf(o, r.value) && forall k :: Exported(o, k) ==> Readable(o, k)
    ensures r.Err? ==> exists k :: Exported(o, k) && !Readable(o, k)
  {
    KindsInOrder();
    var rows: seq<ObjectRow> := [];
    for n := 0 to |OBJECT_KINDS|
      invariant forall i, j :: 0 <= i < j < |rows| ==> RowBefore(rows[i], rows[j])
      invariant forall r :: r in rows ==> r.kind in OBJECT_KINDS[..n] && RowHolds(o, r)
      invariant forall k :: Exported(o, k) && k.kind in OBJECT_KINDS[..n] ==> Readable(o, k) && RowOf(k, o[k]) in rows
    {
      var more := ReadKind(o, OBJECT_KINDS[n]);
      if more.Err? {
        return Err(more.error);
      }
      KindAppended(o, rows, more.value, n);
      rows := rows + more.value;
    }
    assert OBJECT_KINDS[..|OBJECT_KINDS|] == OBJECT_KINDS;
    r := Ok(rows);
  }

  lemma KindAppended(o: Objects, rows: seq<ObjectRow>, more: seq<ObjectRow>, n: nat)
    requires n < |OBJECT_KINDS|
    requires forall i :: 0 <= i < |OBJECT_KINDS| ==> Position(OBJECT_KINDS[i]) == i
    requires forall i, j :: 0 <= i < j < |rows| ==> RowBefore(rows[i], rows[j])
    requires forall r :: r in rows ==> r.kind in OBJECT_KINDS[..n]
    requires KindRows(o, OBJECT_KINDS[n], more, {})
    ensures forall i, j :: 0 <= i < j < |rows + more| ==> RowBefore((rows + more)[i], (rows + more)[j])
    ensures OBJECT_KINDS[..n + 1] == OBJECT_KINDS[..n] + [OBJECT_KINDS[n]]
    ensures forall k :: k in OBJECT_KINDS[..n + 1] <==> k in OBJECT_KINDS[..n] || k == OBJECT_KINDS[n]
  {
    forall i, j | 0 <= i < j < |rows + more| ensures RowBefore((rows + more)[i], (rows + more)[j]) {
      if j >= |rows| {
        assert more[j - |rows|] in more;
        if i < |rows| {
          assert rows[i] in rows;
          var p :| 0 <= p < n && OBJECT_KINDS[p] == rows[i].kind;
          assert Position(OBJECT_KINDS[p]) == p;
        } else {
          assert more[i - |rows|] in more;
        }
      }
    }
    assert OBJECT_KINDS[..n + 1] == OBJECT_KINDS[..n] + [OBJECT_KINDS[n]];
  }

  method ReadSecretRows(m: map<Id, Secret>) returns (rows: seq<SecretRow>)
    ensures SecretsOf(m, rows)
  {
    rows := [];
    var rest := m.Keys;
    while rest != {}
      invariant rest <= m.Keys
      invariant forall i, j :: 0 <= i < j < |rows| ==> rows[i].id != rows[j].id
      invariant forall r :: r in rows ==> r.id.IdText? && r.id.id in m.Keys - rest && r == SecretRowOf(r.id.id, m[r.id.id])
      invariant forall id :: id in m.Keys - rest ==> SecretRowOf(id, m[id]) in rows
      decreases rest
    {
      var id :| id in rest;
      rows := rows + [SecretRowOf(id, m[id])];
      rest := rest - {id};
    }
  }

  method ReadFiles(files: map<Hash, StoredFile>) returns (r: Result<seq<AttachmentRow>, ExportError>)
    ensures r.Ok? ==> FilesOf(files, r.value) && forall h :: h in files && files[h].content.Some? ==> h == Digest(files[h].content.value)
    ensures r.Err? ==> exists h :: h in files && files[h].content.Some? && h != Digest(files[h].content.value)
  {
    var rows: seq<AttachmentRow> := [];
    var rest := files.Keys;
    while rest != {}
      invariant rest <= files.Keys
      invariant forall i, j :: 0 <= i < j < |rows| ==> rows[i].sha != rows[j].sha
      invariant forall r :: r in rows ==> FileHolds(files, r) && r.sha.value !in rest
      invariant forall h :: h in files.Keys - rest && files[h].content.Some? ==>
        h == Digest(files[h].content.value) && AttachmentRow(Some(h), files[h].content) in rows
      decreases rest
    {
      var h :| h in rest;
      if files[h].content.Some? {
        if h != Digest(files[h].content.value) {
          return Err(DamagedAttachment(h));
        }
        rows := rows + [AttachmentRow(Some(h), files[h].content)];
      }
      rest := rest - {h};
    }
    r := Ok(rows);
  }

  /** The records outside `rest`, in id order, all before `rest`. */
  ghost predicate HistoryUpTo(m: map<Id, Record>, rows: seq<HistoryRow>, rest: set<Id>) {
    && (forall i, j :: 0 <= i < j < |rows| ==> rows[i].id < rows[j].id)
    && (forall r :: r in rows ==> r.id in m && r == HistoryRowOf(r.id, m[r.id]))
    && (forall r, id :: r in rows && id in rest ==> r.id < id)
    && (forall id :: id in m && id !in rest ==> HistoryRowOf(id, m[id]) in rows)
  }

  lemma HistoryAppended(m: map<Id, Record>, rows: seq<HistoryRow>, rest: set<Id>, id: Id)
    requires HistoryUpTo(m, rows, rest) && id in m && id in rest && forall x :: x in rest ==> id <= x
    ensures HistoryUpTo(m, rows + [HistoryRowOf(id, m[id])], rest - {id})
  {
    var row := HistoryRowOf(id, m[id]);
    assert forall r :: r in rows + [row] <==> r in rows || r == row;
  }

  /** Records in id order, each body beside its record. */
  method ReadHistoryRows(m: map<Id, Record>) returns (rows: seq<HistoryRow>)
    ensures HistoryOf(m, rows)
    ensures forall r :: r in rows ==> r.record.Some? && r.record.value.record.body.None?
  {
    rows := [];
    var rest := m.Keys;
    while rest != {}
      invariant rest <= m.Keys && HistoryUpTo(m, rows, rest)
      decreases rest
    {
      HasMinimum(rest);
      var id :| id in rest && forall x :: x in rest ==> id <= x;
      HistoryAppended(m, rows, rest, id);
      rows := rows + [HistoryRowOf(id, m[id])];
      rest := rest - {id};
    }
  }

  /** The reports outside `rest`, in id order, all before `rest`. */
  ghost predicate ReportsUpTo(m: map<Id, Report>, rows: seq<ReportRow>, rest: set<Id>) {
    && (forall i, j :: 0 <= i < j < |rows| ==> ReportId(rows[i]) < ReportId(rows[j]))
    && (forall r :: r in rows ==> ReportHolds(m, r))
    && (forall r, id :: r in rows && id in rest ==> ReportId(r) < id)
    && (forall id :: id in m && id !in rest ==> ReportRowOf(id, m[id]) in rows)
  }

  lemma ReportAppended(m: map<Id, Report>, rows: seq<ReportRow>, rest: set<Id>, id: Id)
    requires ReportsUpTo(m, rows, rest) && id in m && id in rest && forall x :: x in rest ==> id <= x
    ensures ReportsUpTo(m, rows + [ReportRowOf(id, m[id])], rest - {id})
  {
    var row := ReportRowOf(id, m[id]);
    assert forall r :: r in rows + [row] <==> r in rows || r == row;
  }

  method ReadReportRows(m: map<Id, Report>) returns (rows: seq<ReportRow>)
    ensures ReportsOf(m, rows)
  {
    rows := [];
    var rest := m.Keys;
    while rest != {}
      invariant rest <= m.Keys && ReportsUpTo(m, rows, rest)
      decreases rest
    {
      HasMinimum(rest);
      var id :| id in rest && forall x :: x in rest ==> id <= x;
      ReportAppended(m, rows, rest, id);
      rows := rows + [ReportRowOf(id, m[id])];
      rest := rest - {id};
    }
  }

  /** Everything a full backup carries, read from one state of the store. */
  method Snapshot(t: Tables) returns (r: Result<Contents, ExportError>)
    ensures r.Ok? <==> Exportable(t.View())
    ensures r.Ok? ==> SnapshotOf(t.View(), r.value)
  {
    var rows := ReadRows(t.objects);
    if rows.Err? {
      return Err(rows.error);
    }
    var files := ReadFiles(t.files);
    if files.Err? {
      return Err(files.error);
    }
    var secrets := ReadSecretRows(t.secrets);
    var history := ReadHistoryRows(t.history);
    var reports := ReadReportRows(t.reports);
    r := Ok(Contents(rows.value, secrets, files.value, history, reports));
  }
}
