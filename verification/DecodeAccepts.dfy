/**
 * Which rows decoding accepts, and which refusal a row at fault gives, row by
 * row of the file.
 */
module DecodeAccepts {
  import opened Prelude
  import opened Guards
  import opened Store
  import opened BackupWrite
  import opened BackupRestore
  import opened BackupContents

  /** A schema version this version reads: none, or one from the oldest it knows to its own. */
  predicate Supported(s: SchemaField) {
    s == Absent || (s.Version? && MIN_SCHEMA_VERSION <= s.v <= SCHEMA_VERSION)
  }

  predicate Newer(s: SchemaField) {
    s.Version? && s.v > SCHEMA_VERSION
  }

  // -------------------------------------------------------------- objects

  /** No earlier row is of the same kind and id. */
  ghost predicate FirstOfKey(objects: seq<ObjectRow>, i: nat)
    requires i < |objects|
  {
    forall j :: 0 <= j < i ==> objects[j].kind != objects[i].kind || objects[j].id != objects[i].id
  }

  /** The row holds an object of its kind, under that object's own id. */
  predicate HoldsItsObject(o: ObjectRow) {
    && o.kind !in {TokenFile, LinkedFile, DeviceSeal} && o.payload.Some?
    && Fits(o.kind, o.payload.value.value)
    && o.id == (if o.kind == AppSettings then SETTINGS_ID else o.payload.value.id)
    && (o.payload.value.owner.Some? <==> o.kind !in {Workspace, Revision, AppSettings, UserProfile, ApiRuleset})
    && (o.payload.value.parent.Some? ==> o.kind in {Folder, Request, Revision})
    && (o.kind == Revision ==> o.payload.value.parent.Some?)
  }

  ghost predicate ObjectFine(objects: seq<ObjectRow>, i: nat)
    requires i < |objects|
  {
    FirstOfKey(objects, i) && Supported(objects[i].schema) && HoldsItsObject(objects[i])
  }

  /** Row `i` is the first at fault, and only for a newer schema version. */
  ghost predicate ObjectNewer(objects: seq<ObjectRow>, i: nat)
    requires i < |objects|
  {
    (forall j :: 0 <= j < i ==> ObjectFine(objects, j)) && FirstOfKey(objects, i) && Newer(objects[i].schema)
  }

  lemma SoFarObject(objects: seq<ObjectRow>, n: nat, i: nat)
    requires i < n <= |objects|
    ensures ObjectFine(objects[..n], i) <==> ObjectFine(objects, i)
    ensures ObjectNewer(objects[..n], i) <==> ObjectNewer(objects, i)
  {
    forall j | 0 <= j <= i ensures ObjectFine(objects[..n], j) <==> ObjectFine(objects, j) {
      assert objects[..n][j] == objects[j];
    }
  }

  lemma RowDecides(objects: seq<ObjectRow>, n: nat)
    requires n + 1 == |objects|
    ensures var r := RowRefusal(KeysOf(objects[..n]), objects[n]);
      && (r.None? <==> ObjectFine(objects, n))
      && (r == Some(FutureSchema) <==> FirstOfKey(objects, n) && Newer(objects[n].schema))
      && (r.Some? ==> r.value in {FutureSchema, Invalid})
  {
    assert Key(objects[n].kind, objects[n].id) in KeysOf(objects[..n]) <==> !FirstOfKey(objects, n) by {
      if !FirstOfKey(objects, n) {
        var j :| 0 <= j < n && objects[j].kind == objects[n].kind && objects[j].id == objects[n].id;
        assert objects[..n][j] == objects[j];
      }
    }
  }

  /** Every row is fine, or the first at fault decides. */
  lemma {:induction false} ObjectsDecided(objects: seq<ObjectRow>)
    ensures RowsRefusal(objects).None? <==> forall i :: 0 <= i < |objects| ==> ObjectFine(objects, i)
    ensures RowsRefusal(objects) == Some(FutureSchema) <==> exists i :: 0 <= i < |objects| && ObjectNewer(objects, i)
    ensures RowsRefusal(objects).Some? ==> RowsRefusal(objects).value in {FutureSchema, Invalid}
    decreases |objects|
  {
    if objects == [] {
    } else {
      var n := |objects| - 1;
      ObjectsDecided(objects[..n]);
      RowDecides(objects, n);
      forall i | 0 <= i < n
        ensures ObjectFine(objects[..n], i) <==> ObjectFine(objects, i)
        ensures ObjectNewer(objects[..n], i) <==> ObjectNewer(objects, i)
      {
        SoFarObject(objects, n, i);
      }
      if RowsRefusal(objects[..n]) == Some(FutureSchema) {
        var i :| 0 <= i < n && ObjectNewer(objects[..n], i);
        assert ObjectNewer(objects, i);
      } else if RowsRefusal(objects) == Some(FutureSchema) {
        assert ObjectNewer(objects, n);
      }
      if i :| 0 <= i < |objects| && ObjectNewer(objects, i) {
        assert i < n ==> ObjectNewer(objects[..n], i);
      }
    }
  }

  // -------------------------------------------------------------- history

  /** A record whose workspace the file does not have. */
  predicate OfOtherWorkspace(h: HistoryRow, ws: set<Id>) {
    h.record.Some? && h.record.value.record.workspace.Some? && h.record.value.record.workspace.value !in ws
  }

  /** A supported row holds the record of its id, no earlier row does, and its body can be read unless it is left out. */
  ghost predicate RecordFine(rows: seq<HistoryRow>, ws: set<Id>, i: nat)
    requires i < |rows|
  {
    var h := rows[i];
    && Supported(h.schema) && h.record.Some? && h.record.value.id == h.id
    && (forall j :: 0 <= j < i && rows[j].record.Some? ==> rows[j].record.value.id != h.id)
    && (h.body.NotBase64? ==> OfOtherWorkspace(h, ws))
  }

  ghost predicate RecordNewer(rows: seq<HistoryRow>, ws: set<Id>, i: nat)
    requires i < |rows|
  {
    (forall j :: 0 <= j < i ==> RecordFine(rows, ws, j)) && Newer(rows[i].schema)
  }

  lemma SoFarRecord(rows: seq<HistoryRow>, ws: set<Id>, n: nat, i: nat)
    requires i < n <= |rows|
    ensures RecordFine(rows[..n], ws, i) <==> RecordFine(rows, ws, i)
    ensures RecordNewer(rows[..n], ws, i) <==> RecordNewer(rows, ws, i)
  {
    forall j | 0 <= j <= i ensures RecordFine(rows[..n], ws, j) <==> RecordFine(rows, ws, j) {
      assert rows[..n][j] == rows[j];
    }
  }

  lemma RecordDecides(rows: seq<HistoryRow>, ws: set<Id>, n: nat)
    requires n + 1 == |rows|
    ensures var r := HistoryRowRefusal(HistoryIds(rows[..n]), ws, rows[n]);
      && (r.None? <==> RecordFine(rows, ws, n))
      && (r == Some(FutureSchema) <==> Newer(rows[n].schema))
      && (r.Some? ==> r.value in {FutureSchema, Invalid})
  {
    assert rows[n].id in HistoryIds(rows[..n]) <==> exists j :: 0 <= j < n && rows[j].record.Some? && rows[j].record.value.id == rows[n].id by {
      if j :| 0 <= j < n && rows[j].record.Some? && rows[j].record.value.id == rows[n].id {
        assert rows[..n][j] == rows[j];
      }
    }
  }

  lemma {:induction false} HistoryDecided(rows: seq<HistoryRow>, ws: set<Id>)
    ensures HistoryRefusal(rows, ws).None? <==> forall i :: 0 <= i < |rows| ==> RecordFine(rows, ws, i)
    ensures HistoryRefusal(rows, ws) == Some(FutureSchema) <==> exists i :: 0 <= i < |rows| && RecordNewer(rows, ws, i)
    ensures HistoryRefusal(rows, ws).Some? ==> HistoryRefusal(rows, ws).value in {FutureSchema, Invalid}
    decreases |rows|
  {
    if rows == [] {
    } else {
      var n := |rows| - 1;
      HistoryDecided(rows[..n], ws);
      RecordDecides(rows, ws, n);
      forall i | 0 <= i < n
        ensures RecordFine(rows[..n], ws, i) <==> RecordFine(rows, ws, i)
        ensures RecordNewer(rows[..n], ws, i) <==> RecordNewer(rows, ws, i)
      {
        SoFarRecord(rows, ws, n, i);
      }
      if HistoryRefusal(rows[..n], ws) == Some(FutureSchema) {
        var i :| 0 <= i < n && RecordNewer(rows[..n], ws, i);
        assert RecordNewer(rows, ws, i);
      } else if HistoryRefusal(rows, ws) == Some(FutureSchema) {
        assert RecordNewer(rows, ws, n);
      }
      if i :| 0 <= i < |rows| && RecordNewer(rows, ws, i) {
        assert i < n ==> RecordNewer(rows[..n], ws, i);
      }
    }
  }

  /** The records read: those of no workspace or of one in the backup, each with its body. */
  lemma {:induction false} HistoryReadAs(rows: seq<HistoryRow>, ws: set<Id>, e: RecordEntry)
    ensures e in CarriedHistory(rows, ws) <==>
      exists h :: h in rows && h.record.Some? && !OfOtherWorkspace(h, ws) && e.id == h.id
        && e.record == h.record.value.record.(body := if h.body.Encoded? then Some(h.body.bytes) else None)
    decreases |rows|
  {
    if rows == [] {
    } else {
      var n := |rows| - 1;
      HistoryReadAs(rows[..n], ws, e);
      assert rows == rows[..n] + [rows[n]];
      assert forall h :: h in rows <==> h in rows[..n] || h == rows[n];
    }
  }

  // -------------------------------------------------------------- reports

  ghost predicate ReportFine(rows: seq<ReportRow>, i: nat)
    requires i < |rows|
  {
    && Supported(rows[i].schema) && rows[i].report.Some?
    && forall j :: 0 <= j < i && rows[j].report.Some? ==> rows[j].report.value.id != rows[i].report.value.id
  }

  ghost predicate ReportNewer(rows: seq<ReportRow>, i: nat)
    requires i < |rows|
  {
    (forall j :: 0 <= j < i ==> ReportFine(rows, j)) && Newer(rows[i].schema)
  }

  lemma SoFarReport(rows: seq<ReportRow>, n: nat, i: nat)
    requires i < n <= |rows|
    ensures ReportFine(rows[..n], i) <==> ReportFine(rows, i)
    ensures ReportNewer(rows[..n], i) <==> ReportNewer(rows, i)
  {
    forall j | 0 <= j <= i ensures ReportFine(rows[..n], j) <==> ReportFine(rows, j) {
      assert rows[..n][j] == rows[j];
    }
  }

  lemma ReportDecides(rows: seq<ReportRow>, n: nat)
    requires n + 1 == |rows|
    ensures var r := ReportRowRefusal(ReportIds(rows[..n]), rows[n]);
      && (r.None? <==> ReportFine(rows, n))
      && (r == Some(FutureSchema) <==> Newer(rows[n].schema))
      && (r.Some? ==> r.value in {FutureSchema, Invalid})
  {
    forall j | 0 <= j < n && rows[j].report.Some? ensures rows[j].report.value.id in ReportIds(rows[..n]) {
      assert rows[..n][j] == rows[j];
    }
  }

  lemma {:induction false} ReportsDecided(rows: seq<ReportRow>)
    ensures ReportsRefusal(rows).None? <==> forall i :: 0 <= i < |rows| ==> ReportFine(rows, i)
    ensures ReportsRefusal(rows) == Some(FutureSchema) <==> exists i :: 0 <= i < |rows| && ReportNewer(rows, i)
    ensures ReportsRefusal(rows).Some? ==> ReportsRefusal(rows).value in {FutureSchema, Invalid}
    decreases |rows|
  {
    if rows == [] {
    } else {
      var n := |rows| - 1;
      ReportsDecided(rows[..n]);
      ReportDecides(rows, n);
      forall i | 0 <= i < n
        ensures ReportFine(rows[..n], i) <==> ReportFine(rows, i)
        ensures ReportNewer(rows[..n], i) <==> ReportNewer(rows, i)
      {
        SoFarReport(rows, n, i);
      }
      if ReportsRefusal(rows[..n]) == Some(FutureSchema) {
        var i :| 0 <= i < n && ReportNewer(rows[..n], i);
        assert ReportNewer(rows, i);
      } else if ReportsRefusal(rows) == Some(FutureSchema) {
        assert ReportNewer(rows, n);
      }
      if i :| 0 <= i < |rows| && ReportNewer(rows, i) {
        assert i < n ==> ReportNewer(rows[..n], i);
      }
    }
  }

  /** The reports read: those of the backup's workspaces. */
  lemma {:induction false} ReportsReadAs(rows: seq<ReportRow>, ws: set<Id>, e: ReportEntry)
    ensures e in CarriedReports(rows, ws) <==> exists r :: r in rows && r.report == Some(e) && e.report.workspace in ws
    decreases |rows|
  {
    if rows == [] {
    } else {
      var n := |rows| - 1;
      ReportsReadAs(rows[..n], ws, e);
      assert rows == rows[..n] + [rows[n]];
      assert forall r :: r in rows <==> r in rows[..n] || r == rows[n];
    }
  }

  // ---------------------------------------------- secrets and attachments

  /** Its id is one no earlier row has, and its owner, if it has one, a workspace of the backup. */
  ghost predicate SecretFine(rows: seq<SecretRow>, ws: set<Id>, i: nat)
    requires i < |rows|
  {
    && rows[i].id.IdText? && (forall j :: 0 <= j < i ==> rows[j].id != rows[i].id)
    && (rows[i].owner.Some? ==> rows[i].owner.value.IdText? && rows[i].owner.value.id in ws)
  }

  lemma {:induction false} SecretIdsAre(rows: seq<SecretRow>, id: Id)
    requires forall r :: r in rows ==> r.id.IdText?
    ensures id in SecretIds(CarriedSecrets(rows)) <==> exists r :: r in rows && r.id == IdText(id)
    decreases |rows|
  {
    if rows == [] {
    } else {
      var n := |rows| - 1;
      SecretIdsAre(rows[..n], id);
      assert rows == rows[..n] + [rows[n]];
      assert SecretIds(CarriedSecrets(rows)) == SecretIds(CarriedSecrets(rows[..n])) + {rows[n].id.id};
    }
  }

  lemma {:induction false} SecretsDecided(rows: seq<SecretRow>, ws: set<Id>)
    ensures SecretsAccepted(rows, ws) <==> forall i :: 0 <= i < |rows| ==> SecretFine(rows, ws, i)
    decreases |rows|
  {
    if rows == [] {
    } else {
      var n := |rows| - 1;
      SecretsDecided(rows[..n], ws);
      forall i | 0 <= i < n ensures SecretFine(rows[..n], ws, i) <==> SecretFine(rows, ws, i) {
        assert rows[..n][i] == rows[i];
      }
      if forall i :: 0 <= i < n ==> SecretFine(rows, ws, i) {
        forall r | r in rows[..n] ensures r.id.IdText? {
          var i :| 0 <= i < n && rows[i] == r;
          assert SecretFine(rows, ws, i);
        }
        if rows[n].id.IdText? {
          SecretIdsAre(rows[..n], rows[n].id.id);
        }
        assert SecretAccepted(SecretIds(CarriedSecrets(rows[..n])), ws, rows[n]) <==> SecretFine(rows, ws, n);
      }
    }
  }

  /** Secrets are read row by row, as they are written. */
  ghost predicate SecretsReadAs(rows: seq<SecretRow>, es: seq<SecretEntry>) {
    && |es| == |rows|
    && forall i :: 0 <= i < |rows| ==>
         && rows[i].id == IdText(es[i].id) && es[i].secret.name == rows[i].name && es[i].secret.value == rows[i].value
         && rows[i].owner == (if es[i].secret.owner.Some? then Some(IdText(es[i].secret.owner.value)) else None)
  }

  lemma {:induction false} SecretsAreRead(rows: seq<SecretRow>, ws: set<Id>)
    requires SecretsAccepted(rows, ws)
    ensures SecretsReadAs(rows, CarriedSecrets(rows))
    decreases |rows|
  {
    if rows == [] {
    } else {
      var n := |rows| - 1;
      SecretsAreRead(rows[..n], ws);
      assert forall i :: 0 <= i < n ==> rows[..n][i] == rows[i];
    }
  }

  /** Its hash is that of its content, and no earlier row's. */
  ghost predicate AttachmentFine(rows: seq<AttachmentRow>, i: nat)
    requires i < |rows|
  {
    && rows[i].content.Some? && rows[i].sha == Some(Digest(rows[i].content.value))
    && forall j :: 0 <= j < i ==> rows[j].sha != rows[i].sha
  }

  lemma {:induction false} FilesAre(rows: seq<AttachmentRow>, h: Hash)
    ensures h in CarriedFiles(rows) <==> exists r :: r in rows && r.content.Some? && Digest(r.content.value) == h
    ensures h in CarriedFiles(rows) ==> h.Digest? && CarriedFiles(rows)[h] == h.content
    decreases |rows|
  {
    if rows == [] {
    } else {
      var n := |rows| - 1;
      FilesAre(rows[..n], h);
      assert rows == rows[..n] + [rows[n]];
      assert forall r :: r in rows <==> r in rows[..n] || r == rows[n];
    }
  }

  lemma {:induction false} AttachmentsDecided(rows: seq<AttachmentRow>)
    ensures AttachmentsAccepted(rows) <==> forall i :: 0 <= i < |rows| ==> AttachmentFine(rows, i)
    decreases |rows|
  {
    if rows == [] {
    } else {
      var n := |rows| - 1;
      AttachmentsDecided(rows[..n]);
      forall i | 0 <= i < n ensures AttachmentFine(rows[..n], i) <==> AttachmentFine(rows, i) {
        assert rows[..n][i] == rows[i];
      }
      assert AttachmentFine(rows, n) ==> rows[n].sha.Some?;
      if rows[n].sha.Some? && forall i :: 0 <= i < n ==> AttachmentFine(rows, i) {
        FilesAre(rows[..n], rows[n].sha.value);
        NewHash(rows, n);
        assert AttachmentAccepted(CarriedFiles(rows[..n]), rows[n]) <==> AttachmentFine(rows, n) by {
          assert rows[n].sha.value in CarriedFiles(rows[..n]) <==> exists j :: 0 <= j < n && rows[j].sha == rows[n].sha;
        }
      }
    }
  }

  lemma NewHash(rows: seq<AttachmentRow>, n: nat)
    requires n < |rows| && rows[n].sha.Some? && forall i :: 0 <= i < n ==> AttachmentFine(rows, i)
    ensures (exists r :: r in rows[..n] && r.content.Some? && Digest(r.content.value) == rows[n].sha.value)
      <==> exists j :: 0 <= j < n && rows[j].sha == rows[n].sha
  {
    if r :| r in rows[..n] && r.content.Some? && Digest(r.content.value) == rows[n].sha.value {
      var j :| 0 <= j < n && rows[..n][j] == r;
      assert AttachmentFine(rows, j);
    }
    if j :| 0 <= j < n && rows[j].sha == rows[n].sha {
      assert AttachmentFine(rows, j) && rows[..n][j] == rows[j];
    }
  }
}
