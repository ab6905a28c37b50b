/**
 * Exactly which contents decode: every check decoding makes, in terms of the
 * rows of the file.
 */
module DecodeDecision {
  import opened Prelude
  import opened Guards
  import opened Store
  import opened Rulesets
  import opened BackupWrite
  import opened BackupRestore
  import opened BackupEffects
  import opened BackupContents
  import opened DecodeAccepts
  import opened BackupDecode
  import opened DecodeSound
  import opened DecodeItems
  import opened FolderCycles

  lemma {:induction false} FindRowIs(objects: seq<ObjectRow>, k: Key)
    ensures FindRow(objects, k).Some? ==> FindRow(objects, k).value in objects
    ensures FindRow(objects, k).Some? ==> Key(FindRow(objects, k).value.kind, FindRow(objects, k).value.id) == k
    ensures FindRow(objects, k).None? ==> forall o :: o in objects ==> Key(o.kind, o.id) != k
  {
    if objects == [] {
    } else {
      assert objects == [objects[0]] + objects[1..];
      FindRowIs(objects[1..], k);
    }
  }

  /** At most 32 rulesets and 8 MiB of them, none over 1 MiB, with names of 1 to 255 bytes. */
  predicate FitsProfile(rs: seq<Ruleset>) {
    && |rs| <= 32 && Size(rs) <= 8388608
    && forall r :: r in rs ==> r.size <= 1048576 && 1 <= r.names.name <= 255 && 1 <= r.names.file <= 255
  }

  /** The workspaces of the file. */
  function WorkspacesIn(objects: seq<ObjectRow>): set<Id> {
    set o | o in objects && o.kind == Workspace :: o.id
  }

  /** Row `q` holds object `k`, in workspace `ws`. */
  predicate Holds(q: ObjectRow, k: Key, ws: Option<Id>) {
    q.kind == k.kind && q.id == k.id && q.payload.Some? && q.payload.value.owner == ws
  }

  ghost predicate Has(objects: seq<ObjectRow>, k: Key, ws: Option<Id>) {
    exists q :: q in objects && Holds(q, k, ws)
  }

  /** A folder or request is in a folder of its workspace, and a scenario or load plan runs with objects of its own. */
  ghost predicate LinkFine(objects: seq<ObjectRow>, o: ObjectRow) {
    o.payload.Some? ==>
      var p := o.payload.value;
      && (o.kind in {Folder, Request} && p.parent.Some? ==> Has(objects, Key(Folder, p.parent.value), p.owner))
      && (p.value.data.RefsData? ==> forall k :: k in p.value.data.refs ==> Has(objects, k, p.owner))
  }

  /** A spec import's root is an import root of its workspace. */
  ghost predicate RootFine(objects: seq<ObjectRow>, o: ObjectRow) {
    o.kind == SpecSource && o.payload.Some? && o.payload.value.value.data.SpecData? && o.payload.value.value.data.root.Some? ==>
      exists q :: q in objects && Holds(q, Key(Folder, o.payload.value.value.data.root.value), o.payload.value.owner)
        && q.payload.value.value.data.FolderData? && q.payload.value.value.data.importRoot
  }

  /** A revision's row names the workspace and id of the request the file has for it, or none. */
  ghost predicate PlaceFine(objects: seq<ObjectRow>, o: ObjectRow) {
    o.kind == Revision && o.payload.Some? ==>
      forall q :: q in objects && q.kind == Request && q.payload.Some? && o.payload.value.parent == Some(q.id) ==>
        (o.workspace.Some? ==> o.workspace == q.payload.value.owner) && (o.parent.Some? ==> o.parent == o.payload.value.parent)
  }

  /** The file's folder `id` has its parent in `s`. */
  ghost predicate ParentAmong(objects: seq<ObjectRow>, id: Id, s: set<Id>) {
    exists q :: q in objects && q.kind == Folder && q.id == id && q.payload.Some? && ParentIn(q.payload.value, s)
  }

  predicate ParentIn(p: Payload, s: set<Id>) {
    p.parent.Some? && p.parent.value in s
  }

  /** These folders each have their parent among them. */
  ghost predicate Circle(objects: seq<ObjectRow>, s: set<Id>) {
    s != {} && forall id {:trigger ParentAmong(objects, id, s)} :: id in s ==> ParentAmong(objects, id, s)
  }

  // ------------------------------------------------------- rows and rows

  lemma FineIsParsed(objects: seq<ObjectRow>)
    requires forall i :: 0 <= i < |objects| ==> ObjectFine(objects, i)
    ensures Parsed(objects) && forall o :: o in objects ==> HoldsItsObject(o)
  {
    ObjectsDecided(objects);
    RowsParsed(objects);
    forall o | o in objects ensures HoldsItsObject(o) {
      var i :| 0 <= i < |objects| && objects[i] == o;
      assert ObjectFine(objects, i);
    }
  }

  lemma WorkspacesInAre(objects: seq<ObjectRow>)
    ensures WorkspaceIds(objects) == WorkspacesIn(objects)
  {
    forall id ensures id in WorkspaceIds(objects) <==> id in WorkspacesIn(objects) {
      if id in WorkspaceIds(objects) {
        var e :| e in OfKind(objects, Workspace) && e.key.id == id;
        OfKindMembers(objects, Workspace, e);
      }
      if id in WorkspacesIn(objects) {
        var o :| o in objects && o.kind == Workspace && o.id == id;
        OfKindMembers(objects, Workspace, EntryOf(o));
      }
    }
  }

  /** In a file whose keys differ, a key names one row. */
  lemma OneRow(objects: seq<ObjectRow>, a: ObjectRow, b: ObjectRow)
    requires Parsed(objects) && a in objects && b in objects && a.kind == b.kind && a.id == b.id
    ensures a == b
  {
    var i :| 0 <= i < |objects| && objects[i] == a;
    var j :| 0 <= j < |objects| && objects[j] == b;
    assert i == j;
  }

  lemma MemberMeans(objects: seq<ObjectRow>, k: Key, ws: Option<Id>)
    requires Parsed(objects)
    ensures Member(objects, k, ws) <==> Has(objects, k, ws)
  {
    FindRowIs(objects, k);
    if Member(objects, k, ws) {
      var q := FindRow(objects, k).value;
      assert RowParsed(q) && Holds(q, k, ws);
    }
    if q :| q in objects && Holds(q, k, ws) {
      OneRow(objects, q, FindRow(objects, k).value);
    }
  }

  lemma LinkMeans(objects: seq<ObjectRow>, o: ObjectRow)
    requires Parsed(objects) && o in objects
    ensures LinksOk(objects, o) <==> LinkFine(objects, o)
  {
    assert RowParsed(o);
    var p := o.payload.value;
    if p.parent.Some? {
      MemberMeans(objects, Key(Folder, p.parent.value), p.owner);
    }
    if p.value.data.RefsData? {
      forall k | k in p.value.data.refs ensures Member(objects, k, p.owner) <==> Has(objects, k, p.owner) {
        MemberMeans(objects, k, p.owner);
      }
    }
  }

  lemma RootMeans(objects: seq<ObjectRow>, o: ObjectRow)
    requires Parsed(objects) && o in objects
    ensures SpecRootOk(objects, o) <==> RootFine(objects, o)
  {
    assert RowParsed(o);
    var p := o.payload.value;
    if o.kind == SpecSource && p.value.data.SpecData? && p.value.data.root.Some? {
      var k := Key(Folder, p.value.data.root.value);
      FindRowIs(objects, k);
      MemberMeans(objects, k, p.owner);
      forall q | q in objects && Holds(q, k, p.owner) ensures FindRow(objects, k) == Some(q) {
        OneRow(objects, q, FindRow(objects, k).value);
      }
      if FindRow(objects, k).Some? {
        assert RowParsed(FindRow(objects, k).value);
      }
    }
  }

  lemma PlaceMeans(objects: seq<ObjectRow>, o: ObjectRow)
    requires Parsed(objects) && o in objects
    ensures RevisionPlaced(OfKind(objects, Request), o) <==> PlaceFine(objects, o)
  {
    assert RowParsed(o);
    if o.kind == Revision {
      var qs, k := OfKind(objects, Request), Key(Request, o.payload.value.parent.value);
      FindEntryIs(qs, k);
      if FindEntry(qs, k).Some? {
        var e := FindEntry(qs, k).value;
        OfKindMembers(objects, Request, e);
        var q :| q in objects && q.kind == Request && EntryOf(q) == e;
        assert RowParsed(q);
        forall r | r in objects && r.kind == Request && r.id == q.id ensures r == q {
          OneRow(objects, q, r);
        }
      } else {
        forall q | q in objects && q.kind == Request && q.id == k.id ensures false {
          OfKindMembers(objects, Request, EntryOf(q));
        }
      }
    }
  }

  lemma {:induction false} ParentMapMembers(es: seq<Entry>, id: Id)
    requires forall i, j :: 0 <= i < j < |es| ==> es[i].key.id != es[j].key.id
    ensures id in ParentMap(es) <==> exists e :: e in es && e.key.id == id
    ensures forall e :: e in es && e.key.id == id ==> ParentMap(es)[id] == e.row.parent
    decreases |es|
  {
    if es == [] {
    } else {
      var n := |es| - 1;
      ParentMapMembers(es[..n], id);
      assert es == es[..n] + [es[n]];
      assert forall e :: e in es <==> e in es[..n] || e == es[n];
    }
  }

  lemma FolderIdsDiffer(objects: seq<ObjectRow>)
    requires Parsed(objects)
    ensures var es := OfKind(objects, Folder);
      && (forall i, j :: 0 <= i < j < |es| ==> es[i].key.id != es[j].key.id)
      && forall e :: e in es ==> e.key.kind == Folder
  {
    var es := OfKind(objects, Folder);
    OfKindDistinct(objects, Folder);
    forall e | e in es ensures e.key.kind == Folder {
      OfKindMembers(objects, Folder, e);
    }
    assert forall i :: 0 <= i < |es| ==> es[i] in es;
  }

  lemma FolderRow(objects: seq<ObjectRow>, q: ObjectRow)
    requires Parsed(objects) && q in objects && q.kind == Folder
    ensures var parents := ParentMap(OfKind(objects, Folder)); q.id in parents && parents[q.id] == q.payload.value.parent
  {
    FolderIdsDiffer(objects);
    OfKindMembers(objects, Folder, EntryOf(q));
    ParentMapMembers(OfKind(objects, Folder), q.id);
    assert RowParsed(q);
  }

  lemma FolderOf(objects: seq<ObjectRow>, id: Id) returns (q: ObjectRow)
    requires Parsed(objects) && id in ParentMap(OfKind(objects, Folder))
    ensures q in objects && q.kind == Folder && q.id == id
  {
    var es := OfKind(objects, Folder);
    FolderIdsDiffer(objects);
    ParentMapMembers(es, id);
    var e :| e in es && e.key.id == id;
    OfKindMembers(objects, Folder, e);
    q :| q in objects && q.kind == Folder && EntryOf(q) == e;
  }

  /** Folder parents lead to a root exactly when no folders form a circle. */
  lemma CirclesMean(objects: seq<ObjectRow>)
    requires Parsed(objects)
    ensures NoCycle(ParentMap(OfKind(objects, Folder))) <==> forall s :: !Circle(objects, s)
  {
    var parents := ParentMap(OfKind(objects, Folder));
    NoCycleMeans(parents);
    forall s: set<Id> ensures Circle(objects, s) <==> s != {} && s <= parents.Keys && Closed(parents, s) {
      CircleMeans(objects, s);
    }
  }

  lemma ParentMeans(objects: seq<ObjectRow>, id: Id, s: set<Id>)
    requires Parsed(objects)
    ensures var p := ParentMap(OfKind(objects, Folder));
      ParentAmong(objects, id, s) <==> id in p && p[id].Some? && p[id].value in s
  {
    if q :| q in objects && q.kind == Folder && q.id == id && q.payload.Some? && ParentIn(q.payload.value, s) {
      FolderRow(objects, q);
    }
    if id in ParentMap(OfKind(objects, Folder)) {
      var q := FolderOf(objects, id);
      FolderRow(objects, q);
      assert RowParsed(q);
    }
  }

  lemma CircleIsClosed(objects: seq<ObjectRow>, p: map<Id, Option<Id>>, s: set<Id>)
    requires Parsed(objects) && p == ParentMap(OfKind(objects, Folder)) && Circle(objects, s)
    ensures s <= p.Keys && Closed(p, s)
  {
    forall id | id in s ensures id in p && p[id].Some? && p[id].value in s {
      assert ParentAmong(objects, id, s);
      ParentMeans(objects, id, s);
    }
  }

  lemma ClosedIsCircle(objects: seq<ObjectRow>, p: map<Id, Option<Id>>, s: set<Id>)
    requires Parsed(objects) && p == ParentMap(OfKind(objects, Folder)) && s != {} && s <= p.Keys && Closed(p, s)
    ensures Circle(objects, s)
  {
    forall id | id in s ensures ParentAmong(objects, id, s) {
      assert ParentOf(p, id).Some? && ParentOf(p, id).value in s;
      ParentMeans(objects, id, s);
    }
  }

  lemma CircleMeans(objects: seq<ObjectRow>, s: set<Id>)
    requires Parsed(objects)
    ensures var p := ParentMap(OfKind(objects, Folder)); Circle(objects, s) <==> s != {} && s <= p.Keys && Closed(p, s)
  {
    var p := ParentMap(OfKind(objects, Folder));
    if Circle(objects, s) {
      CircleIsClosed(objects, p, s);
    } else if s != {} && s <= p.Keys && Closed(p, s) {
      ClosedIsCircle(objects, p, s);
    }
  }

  lemma OwnersMean(objects: seq<ObjectRow>)
    requires Parsed(objects) && forall o :: o in objects ==> HoldsItsObject(o)
    ensures OwnersIn(objects, PROFILE_KINDS, WorkspaceIds(objects)) && OwnersIn(objects, TREE_KINDS, WorkspaceIds(objects))
      <==> forall o :: o in objects && o.payload.Some? && o.payload.value.owner.Some? ==> o.payload.value.owner.value in WorkspacesIn(objects)
  {
    WorkspacesInAre(objects);
  }

  // ------------------------------------------------------------ the whole

  ghost predicate RecordsFine(c: Contents) {
    forall i :: 0 <= i < |c.history| ==> RecordFine(c.history, WorkspacesIn(c.objects), i)
  }

  /** Every row can be read for itself. */
  ghost predicate RowsFine(c: Contents) {
    var ws := WorkspacesIn(c.objects);
    && (forall i :: 0 <= i < |c.objects| ==> ObjectFine(c.objects, i))
    && (forall i :: 0 <= i < |c.secrets| ==> SecretFine(c.secrets, ws, i))
    && (forall i :: 0 <= i < |c.attachments| ==> AttachmentFine(c.attachments, i))
    && RecordsFine(c)
    && (forall i :: 0 <= i < |c.reports| ==> ReportFine(c.reports, i))
  }

  /** Every object is in a workspace of the file and links only within it. */
  ghost predicate LinkedFine(objects: seq<ObjectRow>) {
    && (forall o :: o in objects && o.payload.Some? && o.payload.value.owner.Some? ==>
          o.payload.value.owner.value in WorkspacesIn(objects))
    && (forall o :: o in objects ==> LinkFine(objects, o))
    && (forall o :: o in objects ==> RootFine(objects, o))
    && (forall o :: o in objects ==> PlaceFine(objects, o))
    && (forall s :: !Circle(objects, s))
  }

  lemma LinkedMeans(objects: seq<ObjectRow>)
    requires Parsed(objects) && forall o :: o in objects ==> HoldsItsObject(o)
    ensures LinkedFine(objects) <==>
      && OwnersIn(objects, PROFILE_KINDS, WorkspaceIds(objects)) && OwnersIn(objects, TREE_KINDS, WorkspaceIds(objects))
      && AllLinked(objects) && RootsOk(objects) && RevisionsPlaced(objects, OfKind(objects, Request))
      && NoCycle(ParentMap(OfKind(objects, Folder)))
  {
    OwnersMean(objects);
    CirclesMean(objects);
    forall o | o in objects
      ensures LinksOk(objects, o) <==> LinkFine(objects, o)
      ensures SpecRootOk(objects, o) <==> RootFine(objects, o)
      ensures RevisionPlaced(OfKind(objects, Request), o) <==> PlaceFine(objects, o)
    {
      LinkMeans(objects, o);
      RootMeans(objects, o);
      PlaceMeans(objects, o);
    }
  }

  lemma RowsMean(c: Contents)
    ensures RowsFine(c) <==>
      && RowsRefusal(c.objects).None? && SecretsAccepted(c.secrets, WorkspaceIds(c.objects)) && AttachmentsAccepted(c.attachments)
      && HistoryRefusal(c.history, WorkspaceIds(c.objects)).None? && ReportsRefusal(c.reports).None?
  {
    WorkspacesInAre(c.objects);
    ObjectsDecided(c.objects);
    SecretsDecided(c.secrets, WorkspaceIds(c.objects));
    AttachmentsDecided(c.attachments);
    HistoryDecided(c.history, WorkspaceIds(c.objects));
    ReportsDecided(c.reports);
  }

  /** Decoding refuses nothing exactly when each of its passes does not. */
  lemma PassesDecide(c: Contents, ws: set<Id>)
    requires ws == WorkspaceIds(c.objects)
    ensures Refusal(c).None? <==>
      && RowsRefusal(c.objects).None? && SecretsAccepted(c.secrets, ws) && AttachmentsAccepted(c.attachments)
      && HistoryRefusal(c.history, ws).None? && ReportsRefusal(c.reports).None?
      && OwnersIn(c.objects, PROFILE_KINDS, ws) && RootsOk(c.objects) && GraphAccepted(c.objects)
  {
  }

  lemma LimitsMean(rs: seq<Ruleset>)
    ensures RulesetLimits(rs) <==> FitsProfile(rs)
  {
  }

  lemma GraphMeans(objects: seq<ObjectRow>)
    ensures GraphAccepted(objects) <==>
      && FitsProfile(CarriedRulesets(objects)) && OwnersIn(objects, TREE_KINDS, WorkspaceIds(objects)) && AllLinked(objects)
      && NoCycle(ParentMap(OfKind(objects, Folder))) && IdsUnique(objects) && RevisionsPlaced(objects, OfKind(objects, Request))
  {
    LimitsMean(CarriedRulesets(objects));
  }

  /**
   * Contents decode exactly when every row can be read for itself, every
   * object is placed and linked within its workspace, folders form no circle,
   * no id is used twice, and the rulesets fit a profile.
   */
  lemma DecodesContentsExactly(c: Contents)
    ensures Refusal(c) == None <==>
      RowsFine(c) && LinkedFine(c.objects) && IdsUnique(c.objects) && FitsProfile(CarriedRulesets(c.objects))
  {
    PassesDecide(c, WorkspaceIds(c.objects));
    GraphMeans(c.objects);
    RowsMean(c);
    if RowsFine(c) {
      FineObjects(c);
      LinkedMeans(c.objects);
    }
  }

  lemma FineObjects(c: Contents)
    requires RowsFine(c)
    ensures Parsed(c.objects) && forall o :: o in c.objects ==> HoldsItsObject(o)
  {
    FineIsParsed(c.objects);
  }

  /** The rows of accepted contents hold their objects. */
  lemma AcceptedRows(c: Contents)
    requires Refusal(c) == None
    ensures Parsed(c.objects) && forall o :: o in c.objects ==> HoldsItsObject(o)
  {
    DecodesContentsExactly(c);
    FineObjects(c);
  }

  /** Only a newer schema version is refused as such, and only where every row read before it is fine. */
  lemma NewerIsRefused(c: Contents)
    ensures (exists i :: 0 <= i < |c.objects| && ObjectNewer(c.objects, i)) ==> Refusal(c) == Some(FutureSchema)
    ensures Refusal(c) == Some(FutureSchema) ==>
      var ws := WorkspacesIn(c.objects);
      || (exists i :: 0 <= i < |c.objects| && ObjectNewer(c.objects, i))
      || (exists i :: 0 <= i < |c.history| && RecordNewer(c.history, ws, i))
      || (exists i :: 0 <= i < |c.reports| && ReportNewer(c.reports, i))
    ensures Refusal(c).Some? ==> Refusal(c).value in {FutureSchema, Invalid}
  {
    WorkspacesInAre(c.objects);
    ObjectsDecided(c.objects);
    HistoryDecided(c.history, WorkspaceIds(c.objects));
    ReportsDecided(c.reports);
  }

  /**
   * Where objects, secrets and attachments are in order, the first record at
   * fault decides, and where records are too, the first report.
   */
  lemma NewerRecordIsRefused(c: Contents)
    requires forall i :: 0 <= i < |c.objects| ==> ObjectFine(c.objects, i)
    requires forall o :: o in c.objects ==> RootFine(c.objects, o)
    requires OwnersIn(c.objects, PROFILE_KINDS, WorkspacesIn(c.objects))
    requires forall i :: 0 <= i < |c.secrets| ==> SecretFine(c.secrets, WorkspacesIn(c.objects), i)
    requires forall i :: 0 <= i < |c.attachments| ==> AttachmentFine(c.attachments, i)
    ensures (exists i :: 0 <= i < |c.history| && RecordNewer(c.history, WorkspacesIn(c.objects), i)) ==> Refusal(c) == Some(FutureSchema)
    ensures RecordsFine(c) && (exists i :: 0 <= i < |c.reports| && ReportNewer(c.reports, i)) ==> Refusal(c) == Some(FutureSchema)
  {
    WorkspacesInAre(c.objects);
    FineIsParsed(c.objects);
    ObjectsDecided(c.objects);
    SecretsDecided(c.secrets, WorkspaceIds(c.objects));
    AttachmentsDecided(c.attachments);
    HistoryDecided(c.history, WorkspaceIds(c.objects));
    ReportsDecided(c.reports);
    forall o | o in c.objects ensures SpecRootOk(c.objects, o) {
      RootMeans(c.objects, o);
    }
    assert RootsOk(c.objects);
  }

  // ------------------------------------------------------- what is read

  /** `e` is the object of row `o`, with what an import may change set aside. */
  predicate ReadAs(o: ObjectRow, e: Entry) {
    && e.key == Key(o.kind, o.id) && o.payload.Some?
    && e.row.owner == o.payload.value.owner && e.row.parent == o.payload.value.parent
    && e.row.value.sort == o.payload.value.value.sort && e.row.value.data == o.payload.value.value.data
    && SortedAsItself(o.kind, e.row)
  }

  /** `e` is the revision of row `o`, in the workspace of its request `q`. */
  predicate ReadAsRevision(o: ObjectRow, q: ObjectRow, e: Entry) {
    && e.key == Key(Revision, o.id) && o.kind == Revision && o.payload.Some?
    && q.kind == Request && q.payload.Some? && o.payload.value.parent == Some(q.id)
    && e.row == Row(q.payload.value.owner, o.payload.value.parent, 0.0, o.payload.value.value)
  }

  lemma RevisionReadAs(objects: seq<ObjectRow>, e: Entry)
    requires Parsed(objects) && e.key.kind == Revision
    ensures (exists o :: From(objects, e, o)) <==> exists o, q :: o in objects && q in objects && ReadAsRevision(o, q, e)
  {
    var qs := OfKind(objects, Request);
    if o :| From(objects, e, o) {
      assert RowParsed(o);
      FindEntryIs(qs, Key(Request, o.payload.value.parent.value));
      var r := RequestOf(qs, EntryOf(o)).value;
      OfKindMembers(objects, Request, r);
      var q :| q in objects && q.kind == Request && EntryOf(q) == r;
      assert RowParsed(q) && ReadAsRevision(o, q, e);
    }
    if o, q :| o in objects && q in objects && ReadAsRevision(o, q, e) {
      OfKindMembers(objects, Request, EntryOf(q));
      FindEntryIs(qs, Key(Request, q.id));
      var r := FindEntry(qs, Key(Request, q.id)).value;
      OfKindMembers(objects, Request, r);
      var q' :| q' in objects && q'.kind == Request && EntryOf(q') == r;
      OneRow(objects, q, q');
      assert From(objects, e, o);
    }
  }

  lemma PlainReadAs(objects: seq<ObjectRow>, e: Entry, o: ObjectRow)
    requires From(objects, e, o) && HoldsItsObject(o) && o.kind != Revision
    ensures ReadAs(o, e)
  {
  }

  /**
   * What the decoded rows say: each is some row's object, in its place; a
   * revision is read exactly where its request is in the file, in that
   * request's workspace.
   */
  lemma RowsReadAs(c: Contents, d: Decoded, e: Entry)
    requires Refusal(c) == None && ReadFrom(c, d)
    ensures e in d.graph + d.trailing && e.key.kind != Revision ==> exists o :: o in c.objects && ReadAs(o, e)
    ensures e.key.kind == Revision ==>
      (e in d.graph + d.trailing <==> exists o, q :: o in c.objects && q in c.objects && ReadAsRevision(o, q, e))
  {
    AcceptedRows(c);
    ReadMembers(c, d, e);
    if e.key.kind == Revision {
      RevisionReadAs(c.objects, e);
    } else if e in d.graph + d.trailing {
      var o :| From(c.objects, e, o);
      PlainReadAs(c.objects, e, o);
    }
  }

  lemma ReadMembers(c: Contents, d: Decoded, e: Entry)
    requires ReadFrom(c, d)
    ensures e in d.graph + d.trailing <==> (GraphKind(e.key.kind) || TrailingKind(e.key.kind)) && exists o :: From(c.objects, e, o)
  {
    GraphMembers(c.objects, e);
  }

  /** A guard of the kind's own, with its protection on. */
  predicate Guarded(k: Kind, g: Guard) {
    && (k == TlsProfile ==> g == TlsGuard(true))
    && (k == Integration ==> g == GatewayGuard(true))
    && (k in {Scenario, LoadPlan} ==> g == TrustGuard(false))
    && (k == Workspace ==> g.LayerGuard?)
    && (k == Folder ==> g.FolderGuard? && !g.useWorkspaceScope)
    && (k == Request ==> g.RequestGuard?)
  }

  lemma ImportIsGuarded(k: Kind, g: Guard, environments: set<Id>, revisions: set<Id>)
    requires GuardFits(k, g)
    ensures Guarded(k, Imported(g, environments, revisions))
  {
  }

  /** Every profile, plan and folder of a decoded backup has its own protection on. */
  lemma ProtectionsOn(c: Contents, d: Decoded, e: Entry)
    requires Refusal(c) == None && ReadFrom(c, d) && e in d.graph && e.key.kind != Revision
    ensures Guarded(e.key.kind, e.row.value.guard)
  {
    AcceptedRows(c);
    ReadMembers(c, d, e);
    var o :| From(c.objects, e, o);
    var own := EntryOf(o);
    assert RowParsed(o);
    ImportIsGuarded(o.kind, own.row.value.guard, EnvironmentsOf(OfKind(c.objects, Environment), own.row.owner), RevisionsOf(KeptIn(c.objects), own.key.id));
  }

  /** Every row but rulesets, app settings and revisions is read. */
  lemma RowIsRead(c: Contents, d: Decoded, o: ObjectRow)
    requires Refusal(c) == None && ReadFrom(c, d) && o in c.objects && o.kind !in {Revision, AppSettings, ApiRuleset}
    ensures exists e :: e in d.graph + d.trailing && ReadAs(o, e)
  {
    AcceptedRows(c);
    var e := ReadEntry(c.objects, o);
    assert From(c.objects, e, o);
    ReadMembers(c, d, e);
    PlainReadAs(c.objects, e, o);
  }

  /** An attachment is missing when an object of the graph names it and its bytes are not carried. */
  lemma UncarriedAre(c: Contents, d: Decoded, h: Hash)
    requires ReadFrom(c, d)
    ensures h in d.uncarried <==>
      h !in d.files && exists e :: e in d.graph && e.row.value.data.FilesData? && h in e.row.value.data.files
  {
  }

  // ------------------------------------------------------- ruleset order

  lemma {:induction false} OrderRead(objects: seq<ObjectRow>, p: Placed)
    ensures p in CarriedOrder(objects) <==> exists o :: o in objects && p in OrderIn(o)
    decreases |objects|
  {
    if objects != [] {
      var n := |objects| - 1;
      assert objects == objects[..n] + [objects[n]];
      assert forall o :: o in objects <==> o in objects[..n] || o == objects[n];
      OrderRead(objects[..n], p);
    }
  }

  /** The rulesets row `o` brings, each with its place: a sort key, or its position in older app settings. */
  predicate Brings(o: ObjectRow, p: Placed) {
    && o.payload.Some?
    && var data := o.payload.value.value.data;
      || (o.kind == ApiRuleset && data.RulesetData? && p == Placed(o.sort, Ruleset(o.id, data.names, data.size, data.content)))
      || (o.kind == AppSettings && data.SettingsData?
          && exists i :: 0 <= i < |data.settings.legacy| && p == Placed(i as real, data.settings.legacy[i]))
  }

  lemma BringsMeans(o: ObjectRow, p: Placed)
    requires RowParsed(o)
    ensures p in OrderIn(o) <==> Brings(o, p)
  {
    var rs := RulesetsIn(o);
    if o.kind == ApiRuleset {
      assert rs == [RulesetOf(Key(o.kind, o.id), EntryOf(o).row)];
      assert p in OrderIn(o) <==> p == Placed(o.sort, rs[0]);
    } else if o.kind == AppSettings {
      assert rs == o.payload.value.value.data.settings.legacy;
      assert p in OrderIn(o) <==> exists i :: 0 <= i < |rs| && p == Placed(i as real, rs[i]);
    } else {
      assert rs == [];
    }
  }

  /** `ps` are these rulesets with their places, in order. */
  ghost predicate InTheirPlaces(ps: seq<Placed>, rs: seq<Ruleset>) {
    && |ps| == |rs| && (forall i :: 0 <= i < |rs| ==> ps[i].ruleset == rs[i])
    && forall i, j :: 0 <= i < j < |ps| ==>
         ps[i].sort < ps[j].sort || (ps[i].sort == ps[j].sort && ps[i].ruleset.id < ps[j].ruleset.id)
  }

  lemma PlacesBrought(objects: seq<ObjectRow>, p: Placed)
    requires Parsed(objects)
    ensures p in CarriedOrder(objects) <==> exists o :: o in objects && Brings(o, p)
  {
    OrderRead(objects, p);
    forall o | o in objects ensures p in OrderIn(o) <==> Brings(o, p) {
      assert RowParsed(o);
      BringsMeans(o, p);
    }
  }

  lemma SortedInPlace(s: set<Placed>)
    requires DistinctIds(s)
    ensures InTheirPlaces(Sorted(s), Unplaced(Sorted(s)))
  {
    var ps := Sorted(s);
    forall i, j | 0 <= i < j < |ps| ensures Before(ps[i], ps[j]) {
      assert InOrder(ps);
    }
  }

  /** The backup's rulesets are those its rows bring, in the order of the places they bring them with. */
  lemma RulesetsReadAs(c: Contents, d: Decoded) returns (ps: seq<Placed>)
    requires Refusal(c) == None && ReadFrom(c, d)
    ensures InTheirPlaces(ps, d.rulesets)
    ensures forall p :: p in ps <==> exists o :: o in c.objects && Brings(o, p)
  {
    AcceptedRows(c);
    ps := Sorted(CarriedOrder(c.objects));
    SortedInPlace(CarriedOrder(c.objects));
    forall p ensures p in ps <==> exists o :: o in c.objects && Brings(o, p) {
      assert p in ps <==> p in Elements(ps);
      PlacesBrought(c.objects, p);
    }
  }
}
