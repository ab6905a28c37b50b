/**
 * What decoding guarantees of the backup it accepts: everything in it is
 * owned, linked and numbered within the backup.
 */
module DecodeSound {
  import opened Prelude
  import opened Store
  import opened Rulesets
  import opened BackupWrite
  import opened BackupRestore
  import opened BackupEffects
  import opened BackupContents
  import opened BackupDecode

  lemma {:induction false} RowsParsed(objects: seq<ObjectRow>)
    requires RowsRefusal(objects).None?
    ensures Parsed(objects)
    decreases |objects|
  {
    if objects == [] {
    } else {
      var n := |objects| - 1;
      RowsParsed(objects[..n]);
      assert objects == objects[..n] + [objects[n]];
      assert RowRefusal(KeysOf(objects[..n]), objects[n]).None?;
      forall i | 0 <= i < n ensures Key(objects[i].kind, objects[i].id) != Key(objects[n].kind, objects[n].id) {
        assert objects[..n][i] in objects[..n];
      }
    }
  }

  // --------------------------------------------------- entries by kind

  lemma {:induction false} OfKindMembers(objects: seq<ObjectRow>, k: Kind, e: Entry)
    ensures e in OfKind(objects, k) <==> exists o :: o in objects && o.kind == k && EntryOf(o) == e
    decreases |objects|
  {
    if objects == [] {
    } else {
      var n := |objects| - 1;
      OfKindMembers(objects[..n], k, e);
      assert objects == objects[..n] + [objects[n]];
      assert forall o :: o in objects <==> o in objects[..n] || o == objects[n];
    }
  }

  lemma {:induction false} OfKindDistinct(objects: seq<ObjectRow>, k: Kind)
    requires Parsed(objects)
    ensures DistinctKeys(OfKind(objects, k))
    decreases |objects|
  {
    if objects == [] {
    } else {
      var n := |objects| - 1;
      assert Parsed(objects[..n]);
      OfKindDistinct(objects[..n], k);
      var es := OfKind(objects[..n], k);
      forall i | 0 <= i < |es| && objects[n].kind == k ensures es[i].key != EntryOf(objects[n]).key {
        OfKindMembers(objects[..n], k, es[i]);
        var o :| o in objects[..n] && o.kind == k && EntryOf(o) == es[i];
        var j :| 0 <= j < n && objects[j] == o;
        assert Key(objects[j].kind, objects[j].id) != Key(objects[n].kind, objects[n].id);
      }
    }
  }

  lemma {:induction false} FindEntryIs(es: seq<Entry>, k: Key)
    ensures FindEntry(es, k).Some? ==> FindEntry(es, k).value in es && FindEntry(es, k).value.key == k
    ensures FindEntry(es, k).None? ==> forall e :: e in es ==> e.key != k
  {
    if es == [] {
    } else {
      assert es == [es[0]] + es[1..];
      FindEntryIs(es[1..], k);
    }
  }

  /** `e` is revision `r` in the workspace of its request. */
  ghost predicate PlacedRevision(e: Entry, r: Entry, requests: seq<Entry>) {
    var q := RequestOf(requests, r);
    q.Some? && e == r.(row := r.row.(owner := q.value.row.owner))
  }

  lemma {:induction false} KeptMembers(rs: seq<Entry>, requests: seq<Entry>, e: Entry)
    ensures e in KeptRevisions(rs, requests) <==> exists r :: r in rs && PlacedRevision(e, r, requests)
    decreases |rs|
  {
    if rs == [] {
    } else {
      var n := |rs| - 1;
      KeptMembers(rs[..n], requests, e);
      assert rs == rs[..n] + [rs[n]];
      assert forall r :: r in rs <==> r in rs[..n] || r == rs[n];
      var q := RequestOf(requests, rs[n]);
      var last := if q.Some? then [rs[n].(row := rs[n].row.(owner := q.value.row.owner))] else [];
      assert KeptRevisions(rs, requests) == KeptRevisions(rs[..n], requests) + last;
      assert e in last <==> PlacedRevision(e, rs[n], requests);
    }
  }

  lemma {:induction false} KeptDistinct(rs: seq<Entry>, requests: seq<Entry>)
    requires DistinctKeys(rs)
    ensures DistinctKeys(KeptRevisions(rs, requests))
    decreases |rs|
  {
    if rs == [] {
    } else {
      var n := |rs| - 1;
      KeptDistinct(rs[..n], requests);
      var es := KeptRevisions(rs[..n], requests);
      forall i | 0 <= i < |es| ensures es[i].key != rs[n].key {
        KeptMembers(rs[..n], requests, es[i]);
        var r :| r in rs[..n] && PlacedRevision(es[i], r, requests);
        var j :| 0 <= j < n && rs[j] == r;
      }
    }
  }

  /** Where an entry of the decoded backup comes from. */
  ghost predicate From(objects: seq<ObjectRow>, e: Entry, o: ObjectRow) {
    && o in objects && e.key == Key(o.kind, o.id)
    && if o.kind == Revision then PlacedRevision(e, EntryOf(o), OfKind(objects, Request)) else e == ReadEntry(objects, o)
  }

  lemma EntriesMembers(objects: seq<ObjectRow>, k: Kind, e: Entry)
    ensures e in EntriesOf(objects, k) <==> e.key.kind == k && exists o :: From(objects, e, o)
  {
    if k == Revision {
      KeptMembers(OfKind(objects, Revision), OfKind(objects, Request), e);
      if e in EntriesOf(objects, k) {
        var r :| r in OfKind(objects, Revision) && PlacedRevision(e, r, OfKind(objects, Request));
        OfKindMembers(objects, Revision, r);
        var o :| o in objects && o.kind == Revision && EntryOf(o) == r;
        assert From(objects, e, o);
      }
      if o :| From(objects, e, o) && e.key.kind == Revision {
        OfKindMembers(objects, Revision, EntryOf(o));
      }
    } else {
      PlainMembers(objects, k, e);
    }
  }

  lemma PlainMembers(objects: seq<ObjectRow>, k: Kind, e: Entry)
    requires k != Revision
    ensures e in PlainEntries(objects, k) <==> e.key.kind == k && exists o :: From(objects, e, o)
  {
    var es := OfKind(objects, k);
    if e in PlainEntries(objects, k) {
      var i :| 0 <= i < |es| && PlainEntries(objects, k)[i] == e;
      OfKindMembers(objects, k, es[i]);
      var o :| o in objects && o.kind == k && EntryOf(o) == es[i];
      assert From(objects, e, o);
    }
    if o :| From(objects, e, o) && e.key.kind == k {
      OfKindMembers(objects, k, EntryOf(o));
      var i :| 0 <= i < |es| && es[i] == EntryOf(o);
      assert PlainEntries(objects, k)[i] == e;
    }
  }

  lemma EntriesDistinct(objects: seq<ObjectRow>, k: Kind)
    requires Parsed(objects)
    ensures DistinctKeys(EntriesOf(objects, k))
  {
    OfKindDistinct(objects, k);
    if k == Revision {
      KeptDistinct(OfKind(objects, Revision), OfKind(objects, Request));
    }
  }

  // ---------------------------------------------------------- grouping

  lemma {:induction false} GroupedMembers(objects: seq<ObjectRow>, kinds: seq<Kind>, e: Entry)
    ensures e in Grouped(objects, kinds) <==> e.key.kind in kinds && e in EntriesOf(objects, e.key.kind)
    decreases |kinds|
  {
    if kinds == [] {
    } else {
      assert kinds == [kinds[0]] + kinds[1..];
      GroupedMembers(objects, kinds[1..], e);
      EntriesMembers(objects, kinds[0], e);
    }
  }

  lemma {:induction false} GroupedDistinct(objects: seq<ObjectRow>, kinds: seq<Kind>)
    requires Parsed(objects) && NoDup(kinds)
    ensures DistinctKeys(Grouped(objects, kinds))
    decreases |kinds|
  {
    if kinds == [] {
    } else {
      EntriesDistinct(objects, kinds[0]);
      GroupedDistinct(objects, kinds[1..]);
      var a, b := EntriesOf(objects, kinds[0]), Grouped(objects, kinds[1..]);
      forall i, j | 0 <= i < |a| && 0 <= j < |b| ensures a[i].key != b[j].key {
        assert a[i] in a && b[j] in b;
        EntriesMembers(objects, kinds[0], a[i]);
        GroupedMembers(objects, kinds[1..], b[j]);
        assert forall x :: x in kinds[1..] ==> x != kinds[0];
      }
    }
  }

  ghost predicate RanksUp(kinds: seq<Kind>) {
    forall i, j :: 0 <= i < j < |kinds| ==> Rank(kinds[i]) <= Rank(kinds[j])
  }

  lemma {:induction false} GroupedRanks(objects: seq<ObjectRow>, kinds: seq<Kind>)
    requires RanksUp(kinds)
    ensures var es := Grouped(objects, kinds); forall i, j :: 0 <= i < j < |es| ==> Rank(es[i].key.kind) <= Rank(es[j].key.kind)
    decreases |kinds|
  {
    if kinds == [] {
    } else {
      GroupedRanks(objects, kinds[1..]);
      var a, b := EntriesOf(objects, kinds[0]), Grouped(objects, kinds[1..]);
      forall i | 0 <= i < |a| ensures a[i].key.kind == kinds[0] {
        assert a[i] in a;
        EntriesMembers(objects, kinds[0], a[i]);
      }
      forall j | 0 <= j < |b| ensures Rank(kinds[0]) <= Rank(b[j].key.kind) {
        assert b[j] in b;
        GroupedMembers(objects, kinds[1..], b[j]);
        var p :| 0 <= p < |kinds[1..]| && kinds[1..][p] == b[j].key.kind;
        assert kinds[p + 1] == b[j].key.kind;
      }
      RanksJoin(a, b, Rank(kinds[0]));
    }
  }

  lemma RanksJoin(a: seq<Entry>, b: seq<Entry>, r: nat)
    requires forall i :: 0 <= i < |a| ==> Rank(a[i].key.kind) == r
    requires forall j :: 0 <= j < |b| ==> r <= Rank(b[j].key.kind)
    requires forall i, j :: 0 <= i < j < |b| ==> Rank(b[i].key.kind) <= Rank(b[j].key.kind)
    ensures forall i, j :: 0 <= i < j < |a + b| ==> Rank((a + b)[i].key.kind) <= Rank((a + b)[j].key.kind)
  {
  }

  lemma GraphKindPlaces()
    ensures |GRAPH_KINDS| == 11 && forall i :: 0 <= i < 11 ==> Position(GRAPH_KINDS[i]) == i
  {
    assert GRAPH_KINDS[0] == Workspace && GRAPH_KINDS[1] == Folder && GRAPH_KINDS[2] == Request && GRAPH_KINDS[3] == Revision;
    assert GRAPH_KINDS[4] == Environment && GRAPH_KINDS[5] == TlsProfile && GRAPH_KINDS[6] == ProxyProfile && GRAPH_KINDS[7] == Integration;
    assert GRAPH_KINDS[8] == Dataset && GRAPH_KINDS[9] == Scenario && GRAPH_KINDS[10] == LoadPlan;
  }

  lemma GraphKindsOrder()
    ensures NoDup(GRAPH_KINDS) && RanksUp(GRAPH_KINDS)
    ensures forall k :: k in GRAPH_KINDS <==> GraphKind(k)
  {
    GraphKindPlaces();
    forall k ensures k in GRAPH_KINDS <==> GraphKind(k) {
      if GraphKind(k) {
        assert Position(GRAPH_KINDS[Position(k)]) == Position(k);
      }
    }
    forall i, j | 0 <= i < j < 11 ensures Rank(GRAPH_KINDS[i]) <= Rank(GRAPH_KINDS[j]) && GRAPH_KINDS[i] != GRAPH_KINDS[j] {
      assert Position(GRAPH_KINDS[i]) == i && Position(GRAPH_KINDS[j]) == j;
      PlaceRanks(GRAPH_KINDS[i], GRAPH_KINDS[j]);
    }
  }

  lemma PlaceRanks(a: Kind, b: Kind)
    requires Position(a) < Position(b) < 11
    ensures Rank(a) <= Rank(b) && a != b
  {
  }

  lemma TrailingKindsOrder()
    ensures NoDup(TRAILING_KINDS) && forall k :: k in TRAILING_KINDS <==> TrailingKind(k)
  {
    assert TRAILING_KINDS[0] == UserProfile && TRAILING_KINDS[1] == SpecSource && TRAILING_KINDS[2] == RunReport;
  }

  /** Which entries the decoded graph and its trailing rows hold. */
  lemma GraphMembers(objects: seq<ObjectRow>, e: Entry)
    ensures e in Grouped(objects, GRAPH_KINDS) <==> GraphKind(e.key.kind) && exists o :: From(objects, e, o)
    ensures e in Grouped(objects, TRAILING_KINDS) <==> TrailingKind(e.key.kind) && exists o :: From(objects, e, o)
  {
    GraphKindsOrder();
    TrailingKindsOrder();
    GroupedMembers(objects, GRAPH_KINDS, e);
    GroupedMembers(objects, TRAILING_KINDS, e);
    EntriesMembers(objects, e.key.kind, e);
  }

  lemma GraphKeysDistinct(objects: seq<ObjectRow>)
    requires Parsed(objects)
    ensures DistinctKeys(Grouped(objects, GRAPH_KINDS) + Grouped(objects, TRAILING_KINDS))
  {
    GraphKindsOrder();
    TrailingKindsOrder();
    GroupedDistinct(objects, GRAPH_KINDS);
    GroupedDistinct(objects, TRAILING_KINDS);
    var a, b := Grouped(objects, GRAPH_KINDS), Grouped(objects, TRAILING_KINDS);
    forall e | e in a ensures GraphKind(e.key.kind) {
      GroupedMembers(objects, GRAPH_KINDS, e);
    }
    forall e | e in b ensures TrailingKind(e.key.kind) {
      GroupedMembers(objects, TRAILING_KINDS, e);
    }
    KindsApart(a, b);
  }

  lemma KindsApart(a: seq<Entry>, b: seq<Entry>)
    requires DistinctKeys(a) && DistinctKeys(b)
    requires (forall e :: e in a ==> GraphKind(e.key.kind)) && (forall e :: e in b ==> TrailingKind(e.key.kind))
    ensures DistinctKeys(a + b)
  {
    forall i, j | 0 <= i < |a| && 0 <= j < |b| ensures a[i].key != b[j].key {
      assert a[i] in a && b[j] in b;
    }
  }

  // ------------------------------------------------- owners and links

  /** The workspace checks of both passes, over every row. */
  ghost predicate AllOwnersIn(objects: seq<ObjectRow>) {
    && OwnersIn(objects, PROFILE_KINDS, WorkspaceIds(objects))
    && OwnersIn(objects, TREE_KINDS, WorkspaceIds(objects))
  }

  lemma RowOwned(objects: seq<ObjectRow>, o: ObjectRow)
    requires Parsed(objects) && AllOwnersIn(objects) && o in objects
    ensures EntryOf(o).row.owner.Some? ==> EntryOf(o).row.owner.value in WorkspaceIds(objects)
  {
    assert RowParsed(o);
    assert Owned(o.kind) && o.kind != Revision ==> o.kind in PROFILE_KINDS || o.kind in TREE_KINDS;
  }

  lemma PlainRowShaped(objects: seq<ObjectRow>, o: ObjectRow)
    requires RowParsed(o) && o.kind != Revision
    ensures var e := ReadEntry(objects, o);
      Shaped(o.kind, e.row) && SortedAsItself(o.kind, e.row) && e.row.owner == EntryOf(o).row.owner
  {
  }

  lemma RevisionRowShaped(objects: seq<ObjectRow>, o: ObjectRow, e: Entry)
    requires Parsed(objects) && AllOwnersIn(objects) && o in objects && o.kind == Revision
    requires PlacedRevision(e, EntryOf(o), OfKind(objects, Request))
    ensures Shaped(Revision, e.row) && SortedAsItself(Revision, e.row)
    ensures e.row.owner.Some? && e.row.owner.value in WorkspaceIds(objects)
  {
    var qs := OfKind(objects, Request);
    var q := RequestOf(qs, EntryOf(o)).value;
    assert RowParsed(o);
    FindEntryIs(qs, Key(Request, EntryOf(o).row.parent.value));
    OfKindMembers(objects, Request, q);
    var qo :| qo in objects && qo.kind == Request && EntryOf(qo) == q;
    assert RowParsed(qo);
    RowOwned(objects, qo);
  }

  /** Every decoded row is one the app would store, in a workspace of the backup. */
  lemma DecodedRowOk(objects: seq<ObjectRow>, e: Entry)
    requires Parsed(objects) && AllOwnersIn(objects)
    requires exists o :: From(objects, e, o)
    ensures RowOk(e, WorkspaceIds(objects))
  {
    var o :| From(objects, e, o);
    assert RowParsed(o);
    if o.kind == Revision {
      RevisionRowShaped(objects, o, e);
    } else {
      PlainRowShaped(objects, o);
      RowOwned(objects, o);
    }
  }

  lemma WorkspacesAre(objects: seq<ObjectRow>, graph: seq<Entry>)
    requires graph == Grouped(objects, GRAPH_KINDS)
    ensures (set e | e in graph && e.key.kind == Workspace :: e.key.id) == WorkspaceIds(objects)
  {
    forall id ensures id in WorkspaceIds(objects) <==> exists e :: e in graph && e.key == Key(Workspace, id) {
      if id in WorkspaceIds(objects) {
        var e :| e in OfKind(objects, Workspace) && e.key.id == id;
        OfKindMembers(objects, Workspace, e);
        var o :| o in objects && o.kind == Workspace && EntryOf(o) == e;
        assert From(objects, ReadEntry(objects, o), o);
        GraphMembers(objects, ReadEntry(objects, o));
      }
      if e :| e in graph && e.key == Key(Workspace, id) {
        GraphMembers(objects, e);
        var o :| From(objects, e, o);
        OfKindMembers(objects, Workspace, EntryOf(o));
      }
    }
  }

  /** A kept revision's request is in the graph, in the same workspace. */
  lemma RevisionHasRequest(objects: seq<ObjectRow>, e: Entry)
    requires Parsed(objects) && e in Grouped(objects, GRAPH_KINDS) && e.key.kind == Revision
    ensures HasRequest(Grouped(objects, GRAPH_KINDS), e)
  {
    GraphMembers(objects, e);
    var o :| From(objects, e, o);
    var qs := OfKind(objects, Request);
    var q := RequestOf(qs, EntryOf(o)).value;
    FindEntryIs(qs, Key(Request, EntryOf(o).row.parent.value));
    OfKindMembers(objects, Request, q);
    var qo :| qo in objects && qo.kind == Request && EntryOf(qo) == q;
    assert From(objects, ReadEntry(objects, qo), qo);
    GraphMembers(objects, ReadEntry(objects, qo));
  }

  lemma GraphIsOk(objects: seq<ObjectRow>)
    requires Parsed(objects) && AllOwnersIn(objects)
    ensures GraphOk(Grouped(objects, GRAPH_KINDS), WorkspaceIds(objects))
    ensures forall e :: e in Grouped(objects, TRAILING_KINDS) ==> TrailingKind(e.key.kind) && RowOk(e, WorkspaceIds(objects))
  {
    var graph := Grouped(objects, GRAPH_KINDS);
    GraphKindsOrder();
    GroupedRanks(objects, GRAPH_KINDS);
    forall e | e in graph
      ensures GraphKind(e.key.kind) && RowOk(e, WorkspaceIds(objects)) && (e.key.kind == Revision ==> HasRequest(graph, e))
    {
      GraphMembers(objects, e);
      DecodedRowOk(objects, e);
      if e.key.kind == Revision {
        RevisionHasRequest(objects, e);
      }
    }
    forall e | e in Grouped(objects, TRAILING_KINDS) ensures TrailingKind(e.key.kind) && RowOk(e, WorkspaceIds(objects)) {
      GraphMembers(objects, e);
      DecodedRowOk(objects, e);
    }
  }

  // ------------------------------------------------------------ records

  lemma {:induction false} SecretsOk(ss: seq<SecretRow>, ws: set<Id>)
    requires SecretsAccepted(ss, ws)
    ensures var es := CarriedSecrets(ss);
      && (forall i, j :: 0 <= i < j < |es| ==> es[i].id != es[j].id)
      && (forall s :: s in es && s.secret.owner.Some? ==> s.secret.owner.value in ws)
    decreases |ss|
  {
    if ss == [] {
    } else {
      var n := |ss| - 1;
      SecretsOk(ss[..n], ws);
      assert SecretAccepted(SecretIds(CarriedSecrets(ss[..n])), ws, ss[n]);
      assert forall s :: s in CarriedSecrets(ss[..n]) ==> s.id in SecretIds(CarriedSecrets(ss[..n]));
    }
  }

  lemma {:induction false} HistoryMembers(rows: seq<HistoryRow>, ws: set<Id>, e: RecordEntry)
    requires HistoryRefusal(rows, ws).None? && e in CarriedHistory(rows, ws)
    ensures e.id in HistoryIds(rows)
    decreases |rows|
  {
    if rows != [] {
      var n := |rows| - 1;
      assert rows == rows[..n] + [rows[n]];
      if e in CarriedHistory(rows[..n], ws) {
        HistoryMembers(rows[..n], ws, e);
        var h :| h in rows[..n] && h.record.Some? && h.record.value.id == e.id;
        assert h in rows;
      } else {
        assert rows[n] in rows;
      }
    }
  }

  lemma {:induction false} HistoryOk(rows: seq<HistoryRow>, ws: set<Id>)
    requires HistoryRefusal(rows, ws).None?
    ensures var es := CarriedHistory(rows, ws);
      && (forall i, j :: 0 <= i < j < |es| ==> es[i].id != es[j].id)
      && (forall h :: h in es && h.record.workspace.Some? ==> h.record.workspace.value in ws)
    decreases |rows|
  {
    if rows == [] {
    } else {
      var n := |rows| - 1;
      HistoryOk(rows[..n], ws);
      var es, all := CarriedHistory(rows[..n], ws), CarriedHistory(rows, ws);
      assert all == es + RecordsIn(rows[n], ws);
      forall e | e in es ensures e.id != rows[n].id {
        HistoryMembers(rows[..n], ws, e);
      }
    }
  }

  lemma {:induction false} ReportMembers(rows: seq<ReportRow>, ws: set<Id>, e: ReportEntry)
    requires e in CarriedReports(rows, ws)
    ensures e.id in ReportIds(rows)
    decreases |rows|
  {
    if rows != [] {
      var n := |rows| - 1;
      assert rows == rows[..n] + [rows[n]];
      if e in CarriedReports(rows[..n], ws) {
        ReportMembers(rows[..n], ws, e);
        var h :| h in rows[..n] && h.report.Some? && h.report.value.id == e.id;
        assert h in rows;
      } else {
        assert rows[n] in rows;
      }
    }
  }

  lemma {:induction false} ReportsOk(rows: seq<ReportRow>, ws: set<Id>)
    requires ReportsRefusal(rows).None?
    ensures var es := CarriedReports(rows, ws);
      && (forall i, j :: 0 <= i < j < |es| ==> es[i].id != es[j].id)
      && (forall r :: r in es ==> r.report.workspace in ws)
    decreases |rows|
  {
    if rows == [] {
    } else {
      var n := |rows| - 1;
      ReportsOk(rows[..n], ws);
      var es, all := CarriedReports(rows[..n], ws), CarriedReports(rows, ws);
      assert all == es + ReportsIn(rows[n], ws);
      forall e | e in es ensures e.id != rows[n].report.value.id {
        ReportMembers(rows[..n], ws, e);
      }
    }
  }
}
