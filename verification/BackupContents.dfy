/**
 * The contents of a full backup as its file carries them, why decoding
 * refuses them, and what it reads them as.
 */
module BackupContents {
  import opened Prelude
  import opened Guards
  import opened Store
  import opened Rulesets
  import opened BackupWrite
  import opened BackupRestore

  const SCHEMA_VERSION: nat := 1
  const MIN_SCHEMA_VERSION: nat := 1
  const MAX_STORED_RULESET_BYTES: nat := 1024 * 1024

  /** The object a row's JSON deserializes to. */
  datatype Payload = Payload(id: Id, owner: Option<Id>, parent: Option<Id>, value: Value)

  /** A record's own schema version: absent, not a number, or a number. */
  datatype SchemaField = Absent | Malformed | Version(v: nat)

  /** A row of the object table. `payload` is absent when its JSON is not an object of its kind. */
  datatype ObjectRow = ObjectRow(kind: Kind, id: Id, workspace: Option<Id>, parent: Option<Id>, sort: real,
                                 schema: SchemaField, payload: Option<Payload>)

  /** A text field that holds an id, or does not. */
  datatype IdText = IdText(id: Id) | NotAnId

  datatype SecretRow = SecretRow(id: IdText, owner: Option<IdText>, name: int, value: int)

  /** `sha` is absent when it is no SHA-256 in hex, `content` when it is not base64. */
  datatype AttachmentRow = AttachmentRow(sha: Option<Hash>, content: Option<Bytes>)

  datatype BodyText = NoBody | Encoded(bytes: Bytes) | NotBase64

  datatype HistoryRow = HistoryRow(id: Id, schema: SchemaField, record: Option<RecordEntry>, body: BodyText)

  datatype ReportRow = ReportRow(schema: SchemaField, report: Option<ReportEntry>)

  datatype Contents = Contents(objects: seq<ObjectRow>, secrets: seq<SecretRow>, attachments: seq<AttachmentRow>,
                               history: seq<HistoryRow>, reports: seq<ReportRow>)

  function SchemaRefusal(s: SchemaField): Option<BackupError> {
    match s
    case Absent => None
    case Malformed => Some(Invalid)
    case Version(v) => if v > SCHEMA_VERSION then Some(FutureSchema) else if v < MIN_SCHEMA_VERSION then Some(Invalid) else None
  }

  // -------------------------------------------------------------- objects

  /** A payload has the fields objects of its kind have. */
  predicate ParsesAs(k: Kind, p: Payload) {
    && Fits(k, p.value)
    && (p.owner.Some? <==> Owned(k) && k != Revision)
    && (p.parent.Some? ==> k in {Folder, Request, Revision})
    && (k == Revision ==> p.parent.Some?)
  }

  /** The id the object of a row has: app settings all share one. */
  function PayloadId(o: ObjectRow): Id
    requires o.payload.Some?
  {
    if o.kind == AppSettings then SETTINGS_ID else o.payload.value.id
  }

  function RowRefusal(seen: set<Key>, o: ObjectRow): Option<BackupError> {
    if Key(o.kind, o.id) in seen then Some(Invalid)
    else if SchemaRefusal(o.schema).Some? then SchemaRefusal(o.schema)
    else if !Carried(o.kind) || o.payload.None? || !ParsesAs(o.kind, o.payload.value) || PayloadId(o) != o.id then Some(Invalid)
    else None
  }

  function KeysOf(objects: seq<ObjectRow>): set<Key> {
    set o | o in objects :: Key(o.kind, o.id)
  }

  /** The first refusal of a row, in order. */
  function RowsRefusal(objects: seq<ObjectRow>): Option<BackupError> {
    if objects == [] then None
    else
      var n := |objects| - 1;
      var earlier := RowsRefusal(objects[..n]);
      if earlier.Some? then earlier else RowRefusal(KeysOf(objects[..n]), objects[n])
  }

  predicate RowParsed(o: ObjectRow) {
    o.payload.Some? && Carried(o.kind) && ParsesAs(o.kind, o.payload.value) && PayloadId(o) == o.id
  }

  ghost predicate Parsed(objects: seq<ObjectRow>) {
    && (forall o :: o in objects ==> RowParsed(o))
    && forall i, j :: 0 <= i < j < |objects| ==> Key(objects[i].kind, objects[i].id) != Key(objects[j].kind, objects[j].id)
  }

  /** The entry a row is read as: its metadata comes from the payload, not from the file's row. */
  function EntryOf(o: ObjectRow): Entry {
    var p := if o.payload.Some? then o.payload.value else Payload(o.id, None, None, Value(0.0, Unguarded, Plain(0)));
    Entry(Key(o.kind, o.id), Row(p.owner, p.parent, AppSort(o.kind, p.value), p.value))
  }

  /** The entries of one kind, in file order. */
  function OfKind(objects: seq<ObjectRow>, k: Kind): seq<Entry> {
    if objects == [] then []
    else
      var n := |objects| - 1;
      OfKind(objects[..n], k) + (if objects[n].kind == k then [EntryOf(objects[n])] else [])
  }

  function SettingsIn(o: ObjectRow): Settings {
    if o.payload.Some? && o.payload.value.value.data.SettingsData? then o.payload.value.value.data.settings else DEFAULT_SETTINGS
  }

  /** The rulesets a row brings: its own, or those an older version kept in the app settings. */
  function RulesetsIn(o: ObjectRow): seq<Ruleset> {
    if o.kind == AppSettings then SettingsIn(o).legacy
    else if o.kind == ApiRuleset then [RulesetOf(Key(o.kind, o.id), EntryOf(o).row)]
    else []
  }

  /** The order a row gives its rulesets: its sort key, or their position in the settings. */
  function OrderIn(o: ObjectRow): set<Placed> {
    set i | 0 <= i < |RulesetsIn(o)| :: Placed(if o.kind == AppSettings then i as real else o.sort, RulesetsIn(o)[i])
  }

  function CarriedRulesets(objects: seq<ObjectRow>): seq<Ruleset> {
    if objects == [] then [] else var n := |objects| - 1; CarriedRulesets(objects[..n]) + RulesetsIn(objects[n])
  }

  function CarriedOrder(objects: seq<ObjectRow>): set<Placed> {
    if objects == [] then {} else var n := |objects| - 1; CarriedOrder(objects[..n]) + OrderIn(objects[n])
  }

  /** App settings as a backup brings them: their rulesets moved out, their request settings normalised. */
  function BroughtSettings(s: Settings): Settings {
    s.(legacy := [], defaults := ImportedSettings(s.defaults))
  }

  function CarriedSettings(objects: seq<ObjectRow>): Option<Settings> {
    if objects == [] then None
    else
      var n := |objects| - 1;
      if objects[n].kind == AppSettings then Some(BroughtSettings(SettingsIn(objects[n]))) else CarriedSettings(objects[..n])
  }

  function RulesetItems(rs: seq<Ruleset>): seq<Item> {
    if rs == [] then [] else [ObjectItem(RulesetKey(rs[0]))] + RulesetItems(rs[1..])
  }

  /** The items a row adds to the plan. */
  function ItemsIn(o: ObjectRow): seq<Item> {
    (if o.kind == AppSettings then RulesetItems(SettingsIn(o).legacy) else []) + [ObjectItem(Key(o.kind, o.id))]
  }

  function ObjectItems(objects: seq<ObjectRow>): seq<Item> {
    if objects == [] then [] else var n := |objects| - 1; ObjectItems(objects[..n]) + ItemsIn(objects[n])
  }

  function IdsOf(es: seq<Entry>): set<Id> {
    set e | e in es :: e.key.id
  }

  // ------------------------------------------------- secrets and the rest

  function SecretEntryOf(s: SecretRow): SecretEntry {
    SecretEntry(if s.id.IdText? then s.id.id else 0,
                Secret(if s.owner.Some? && s.owner.value.IdText? then Some(s.owner.value.id) else None, s.name, s.value))
  }

  predicate SecretAccepted(seen: set<Id>, ws: set<Id>, s: SecretRow) {
    s.id.IdText? && s.id.id !in seen && (s.owner.Some? ==> s.owner.value.IdText? && s.owner.value.id in ws)
  }

  function CarriedSecrets(ss: seq<SecretRow>): seq<SecretEntry> {
    if ss == [] then [] else var n := |ss| - 1; CarriedSecrets(ss[..n]) + [SecretEntryOf(ss[n])]
  }

  function SecretIds(ss: seq<SecretEntry>): set<Id> {
    set s | s in ss :: s.id
  }

  predicate SecretsAccepted(ss: seq<SecretRow>, ws: set<Id>) {
    ss == [] || (var n := |ss| - 1; SecretsAccepted(ss[..n], ws) && SecretAccepted(SecretIds(CarriedSecrets(ss[..n])), ws, ss[n]))
  }

  predicate AttachmentAccepted(files: map<Hash, Bytes>, a: AttachmentRow) {
    a.sha.Some? && a.sha.value !in files && a.content.Some? && a.sha.value == Digest(a.content.value)
  }

  function CarriedFiles(attachments: seq<AttachmentRow>): map<Hash, Bytes> {
    if attachments == [] then map[]
    else
      var n := |attachments| - 1;
      var a := attachments[n];
      if a.content.Some? then CarriedFiles(attachments[..n])[Digest(a.content.value) := a.content.value] else CarriedFiles(attachments[..n])
  }

  predicate AttachmentsAccepted(attachments: seq<AttachmentRow>) {
    attachments == []
    || (var n := |attachments| - 1;
        AttachmentsAccepted(attachments[..n]) && AttachmentAccepted(CarriedFiles(attachments[..n]), attachments[n]))
  }

  /** A record whose workspace the backup does not have. */
  predicate OutsideRecord(h: HistoryRow, ws: set<Id>) {
    h.record.Some? && h.record.value.record.workspace.Some? && h.record.value.record.workspace.value !in ws
  }

  function BodyOf(b: BodyText): Option<Bytes> {
    if b.Encoded? then Some(b.bytes) else None
  }

  function HistoryIds(rows: seq<HistoryRow>): set<Id> {
    set h | h in rows && h.record.Some? :: h.record.value.id
  }

  function HistoryRowRefusal(seen: set<Id>, ws: set<Id>, h: HistoryRow): Option<BackupError> {
    if SchemaRefusal(h.schema).Some? then SchemaRefusal(h.schema)
    else if h.record.None? || h.record.value.id != h.id || h.id in seen then Some(Invalid)
    else if !OutsideRecord(h, ws) && h.body.NotBase64? then Some(Invalid)
    else None
  }

  function HistoryRefusal(rows: seq<HistoryRow>, ws: set<Id>): Option<BackupError> {
    if rows == [] then None
    else
      var n := |rows| - 1;
      var earlier := HistoryRefusal(rows[..n], ws);
      if earlier.Some? then earlier else HistoryRowRefusal(HistoryIds(rows[..n]), ws, rows[n])
  }

  function RecordsIn(h: HistoryRow, ws: set<Id>): seq<RecordEntry> {
    if h.record.None? || OutsideRecord(h, ws) then []
    else [RecordEntry(h.id, h.record.value.record.(body := BodyOf(h.body)))]
  }

  function CarriedHistory(rows: seq<HistoryRow>, ws: set<Id>): seq<RecordEntry> {
    if rows == [] then [] else var n := |rows| - 1; CarriedHistory(rows[..n], ws) + RecordsIn(rows[n], ws)
  }

  function ReportIds(rows: seq<ReportRow>): set<Id> {
    set r | r in rows && r.report.Some? :: r.report.value.id
  }

  function ReportRowRefusal(seen: set<Id>, r: ReportRow): Option<BackupError> {
    if SchemaRefusal(r.schema).Some? then SchemaRefusal(r.schema)
    else if r.report.None? || r.report.value.id in seen then Some(Invalid)
    else None
  }

  function ReportsRefusal(rows: seq<ReportRow>): Option<BackupError> {
    if rows == [] then None
    else
      var n := |rows| - 1;
      var earlier := ReportsRefusal(rows[..n]);
      if earlier.Some? then earlier else ReportRowRefusal(ReportIds(rows[..n]), rows[n])
  }

  function ReportsIn(r: ReportRow, ws: set<Id>): seq<ReportEntry> {
    if r.report.Some? && r.report.value.report.workspace in ws then [r.report.value] else []
  }

  function CarriedReports(rows: seq<ReportRow>, ws: set<Id>): seq<ReportEntry> {
    if rows == [] then [] else var n := |rows| - 1; CarriedReports(rows[..n], ws) + ReportsIn(rows[n], ws)
  }

  // ------------------------------------------------------ the whole graph

  const GRAPH_KINDS := [Workspace, Folder, Request, Revision, Environment, TlsProfile, ProxyProfile, Integration, Dataset, Scenario, LoadPlan]
  const TRAILING_KINDS := [UserProfile, SpecSource, RunReport]

  /** Where a kind comes in a backup. */
  function Position(k: Kind): nat {
    match k
    case Workspace => 0 case Folder => 1 case Request => 2 case Revision => 3 case Environment => 4
    case TlsProfile => 5 case ProxyProfile => 6 case Integration => 7 case Dataset => 8 case Scenario => 9
    case LoadPlan => 10 case AppSettings => 11 case UserProfile => 12 case SpecSource => 13 case RunReport => 14
    case ApiRuleset => 15 case _ => 16
  }

  predicate OwnersIn(objects: seq<ObjectRow>, kinds: set<Kind>, ws: set<Id>) {
    forall o :: o in objects && o.kind in kinds && EntryOf(o).row.owner.Some? ==> EntryOf(o).row.owner.value in ws
  }

  const PROFILE_KINDS := {TlsProfile, ProxyProfile, Integration, Dataset, Scenario, LoadPlan, SpecSource, RunReport}
  const TREE_KINDS := {Folder, Request, Environment}

  /** The row of object `k`. */
  function FindRow(objects: seq<ObjectRow>, k: Key): Option<ObjectRow> {
    if objects == [] then None else if Key(objects[0].kind, objects[0].id) == k then Some(objects[0]) else FindRow(objects[1..], k)
  }

  /** `k` is an object of the backup, in workspace `ws`. */
  predicate Member(objects: seq<ObjectRow>, k: Key, ws: Option<Id>) {
    FindRow(objects, k).Some? && EntryOf(FindRow(objects, k).value).row.owner == ws
  }

  predicate ImportRoot(data: Data) {
    data.FolderData? && data.importRoot
  }

  /** A spec import's root folder is an import root of its workspace. */
  predicate SpecRootOk(objects: seq<ObjectRow>, o: ObjectRow) {
    var row := EntryOf(o).row;
    o.kind == SpecSource && row.value.data.SpecData? && row.value.data.root.Some? ==>
      var k := Key(Folder, row.value.data.root.value);
      Member(objects, k, row.owner) && ImportRoot(EntryOf(FindRow(objects, k).value).row.value.data)
  }

  /** A folder's or request's folder, and what a scenario or load plan runs with, are in the same workspace of the backup. */
  predicate LinksOk(objects: seq<ObjectRow>, o: ObjectRow) {
    var row := EntryOf(o).row;
    && (o.kind in {Folder, Request} && row.parent.Some? ==> Member(objects, Key(Folder, row.parent.value), row.owner))
    && (row.value.data.RefsData? ==> forall k :: k in row.value.data.refs ==> Member(objects, k, row.owner))
  }

  function ParentMap(folders: seq<Entry>): map<Id, Option<Id>> {
    if folders == [] then map[]
    else var n := |folders| - 1; ParentMap(folders[..n])[folders[n].key.id := folders[n].row.parent]
  }

  /** Following parents from `id` leaves the map within `steps` steps. */
  ghost predicate RootWithin(parents: map<Id, Option<Id>>, id: Id, steps: nat)
    decreases steps
  {
    id in parents && parents[id].Some? ==> steps > 0 && RootWithin(parents, parents[id].value, steps - 1)
  }

  ghost predicate Rooted(parents: map<Id, Option<Id>>, id: Id) {
    exists steps: nat :: RootWithin(parents, id, steps)
  }

  ghost predicate NoCycle(parents: map<Id, Option<Id>>) {
    forall id :: id in parents ==> Rooted(parents, id)
  }

  /** A name and a file name of 1 to 255 bytes, and no text over the limit. */
  predicate RulesetNamed(r: Ruleset) {
    1 <= r.names.name <= 255 && 1 <= r.names.file <= 255 && r.size <= MAX_STORED_RULESET_BYTES
  }

  predicate RulesetLimits(rs: seq<Ruleset>) {
    |rs| <= MAX_STORED_RULESETS && (forall r :: r in rs ==> RulesetNamed(r)) && Size(rs) <= MAX_STORED_RULESETS_BYTES
  }

  function FindEntry(es: seq<Entry>, k: Key): Option<Entry> {
    if es == [] then None else if es[0].key == k then Some(es[0]) else FindEntry(es[1..], k)
  }

  /** The request a revision belongs to, if it is in the backup. */
  function RequestOf(requests: seq<Entry>, revision: Entry): Option<Entry> {
    if revision.row.parent.Some? then FindEntry(requests, Key(Request, revision.row.parent.value)) else None
  }

  /** The revisions whose request is in the backup, in that request's workspace. */
  function KeptRevisions(revisions: seq<Entry>, requests: seq<Entry>): seq<Entry> {
    if revisions == [] then []
    else
      var n := |revisions| - 1;
      var q := RequestOf(requests, revisions[n]);
      KeptRevisions(revisions[..n], requests)
      + if q.Some? then [revisions[n].(row := revisions[n].row.(owner := q.value.row.owner))] else []
  }

  /** A revision row names no other workspace or request than its own. */
  predicate RevisionPlaced(requests: seq<Entry>, o: ObjectRow) {
    var q := RequestOf(requests, EntryOf(o));
    o.kind == Revision && q.Some? ==>
      && (o.workspace.Some? ==> o.workspace == q.value.row.owner)
      && (o.parent.Some? ==> o.parent == EntryOf(o).row.parent)
  }

  /** The environments of workspace `ws`. */
  function EnvironmentsOf(environments: seq<Entry>, ws: Option<Id>): set<Id> {
    set e | e in environments && e.row.owner == ws :: e.key.id
  }

  /** The revisions of request `id`. */
  function RevisionsOf(revisions: seq<Entry>, id: Id): set<Id> {
    set e | e in revisions && e.row.parent == Some(id) :: e.key.id
  }

  /** Import safety: what an entry may bring along, with the environments and kept revisions it comes with. */
  function Normalised(e: Entry, environments: seq<Entry>, revisions: seq<Entry>): Entry {
    e.(row := e.row.(value := e.row.value.(guard :=
      Imported(e.row.value.guard, EnvironmentsOf(environments, e.row.owner), RevisionsOf(revisions, e.key.id)))))
  }

  function NormalisedAll(es: seq<Entry>, environments: seq<Entry>, revisions: seq<Entry>): (r: seq<Entry>)
    ensures |r| == |es| && forall i :: 0 <= i < |es| ==> r[i] == Normalised(es[i], environments, revisions)
  {
    seq(|es|, i requires 0 <= i < |es| => Normalised(es[i], environments, revisions))
  }

  /** The revisions that are kept. */
  function KeptIn(objects: seq<ObjectRow>): seq<Entry> {
    KeptRevisions(OfKind(objects, Revision), OfKind(objects, Request))
  }

  /** What the row of an object that is no revision is read as. */
  function ReadEntry(objects: seq<ObjectRow>, o: ObjectRow): Entry {
    Normalised(EntryOf(o), OfKind(objects, Environment), KeptIn(objects))
  }

  function PlainEntries(objects: seq<ObjectRow>, k: Kind): seq<Entry> {
    NormalisedAll(OfKind(objects, k), OfKind(objects, Environment), KeptIn(objects))
  }

  function EntriesOf(objects: seq<ObjectRow>, k: Kind): seq<Entry> {
    if k == Revision then KeptIn(objects) else PlainEntries(objects, k)
  }

  /** The entries of `kinds`, kind by kind. */
  function Grouped(objects: seq<ObjectRow>, kinds: seq<Kind>): seq<Entry> {
    if kinds == [] then [] else EntriesOf(objects, kinds[0]) + Grouped(objects, kinds[1..])
  }

  function GraphIds(es: seq<Entry>): (r: seq<Id>)
    ensures |r| == |es| && forall i :: 0 <= i < |es| ==> r[i] == es[i].key.id
  {
    seq(|es|, i requires 0 <= i < |es| => es[i].key.id)
  }

  function RulesetIds(rs: seq<Ruleset>): (r: seq<Id>)
    ensures |r| == |rs| && forall i :: 0 <= i < |rs| ==> r[i] == rs[i].id
  {
    seq(|rs|, i requires 0 <= i < |rs| => rs[i].id)
  }

  /** No two objects share an id, whatever their kinds. */
  ghost predicate IdsUnique(objects: seq<ObjectRow>) {
    NoDup(GraphIds(Grouped(objects, GRAPH_KINDS)) + RulesetIds(CarriedRulesets(objects)))
  }

  function NamedFiles(es: seq<Entry>): set<Hash> {
    set e, h | e in es && e.row.value.data.FilesData? && h in e.row.value.data.files :: h
  }

  /** Items the plan counts: revisions that were left out are not. */
  function Retained(items: seq<Item>, kept: set<Id>): seq<Item> {
    if items == [] then []
    else
      var n := |items| - 1;
      Retained(items[..n], kept)
      + if items[n].ObjectItem? && items[n].key.kind == Revision && items[n].key.id !in kept then [] else [items[n]]
  }

  function SecretItems(ss: seq<SecretEntry>): (r: seq<Item>)
    ensures |r| == |ss| && forall i :: 0 <= i < |ss| ==> r[i] == SecretItem(ss[i].id)
  {
    seq(|ss|, i requires 0 <= i < |ss| => SecretItem(ss[i].id))
  }

  function HistoryItems(rs: seq<RecordEntry>): (r: seq<Item>)
    ensures |r| == |rs| && forall i :: 0 <= i < |rs| ==> r[i] == HistoryItem(rs[i].id)
  {
    seq(|rs|, i requires 0 <= i < |rs| => HistoryItem(rs[i].id))
  }

  function ReportItems(rs: seq<ReportEntry>): (r: seq<Item>)
    ensures |r| == |rs| && forall i :: 0 <= i < |rs| ==> r[i] == ReportItem(rs[i].id)
  {
    seq(|rs|, i requires 0 <= i < |rs| => ReportItem(rs[i].id))
  }

  function WorkspaceIds(objects: seq<ObjectRow>): set<Id> {
    IdsOf(OfKind(objects, Workspace))
  }

  predicate AllLinked(objects: seq<ObjectRow>) {
    forall o :: o in objects ==> LinksOk(objects, o)
  }

  predicate RevisionsPlaced(objects: seq<ObjectRow>, requests: seq<Entry>) {
    forall o :: o in objects ==> RevisionPlaced(requests, o)
  }

  predicate RootsOk(objects: seq<ObjectRow>) {
    forall o :: o in objects ==> SpecRootOk(objects, o)
  }

  /** The checks after every record is read. */
  ghost predicate GraphAccepted(objects: seq<ObjectRow>) {
    && RulesetLimits(CarriedRulesets(objects))
    && OwnersIn(objects, TREE_KINDS, WorkspaceIds(objects))
    && AllLinked(objects)
    && NoCycle(ParentMap(OfKind(objects, Folder)))
    && IdsUnique(objects)
    && RevisionsPlaced(objects, OfKind(objects, Request))
  }

  ghost function GraphRefusal(objects: seq<ObjectRow>): Option<BackupError> {
    if GraphAccepted(objects) then None else Some(Invalid)
  }

  /** Why decoding refuses the contents, if it does. */
  ghost function Refusal(c: Contents): Option<BackupError> {
    var ws := WorkspaceIds(c.objects);
    if RowsRefusal(c.objects).Some? then RowsRefusal(c.objects)
    else if !OwnersIn(c.objects, PROFILE_KINDS, ws) || !RootsOk(c.objects)
            || !SecretsAccepted(c.secrets, ws) || !AttachmentsAccepted(c.attachments) then Some(Invalid)
    else if HistoryRefusal(c.history, ws).Some? then HistoryRefusal(c.history, ws)
    else if ReportsRefusal(c.reports).Some? then ReportsRefusal(c.reports)
    else GraphRefusal(c.objects)
  }

  /** The backup the contents are read as, once accepted. */
  ghost function Interpret(c: Contents): Decoded
    requires DistinctIds(CarriedOrder(c.objects))
  {
    var ws := WorkspaceIds(c.objects);
    var graph := Grouped(c.objects, GRAPH_KINDS);
    var kept := IdsOf(EntriesOf(c.objects, Revision));
    var secrets, files := CarriedSecrets(c.secrets), CarriedFiles(c.attachments);
    var history, reports := CarriedHistory(c.history, ws), CarriedReports(c.reports, ws);
    Decoded(graph, CarriedSettings(c.objects), Unplaced(Sorted(CarriedOrder(c.objects))), Grouped(c.objects, TRAILING_KINDS),
            secrets, files, history, reports,
            Retained(ObjectItems(c.objects), kept) + SecretItems(secrets) + HistoryItems(history) + ReportItems(reports),
            NamedFiles(graph) - files.Keys)
  }
}
