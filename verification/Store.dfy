/**
 * The profile store as a restore sees it: object rows by kind and id, vault
 * secrets, attachments by content hash, history records and load reports.
 * Sealing, the record catalogue and the row's update time are not modelled;
 * a stored row's sealed identity is its row metadata.
 */
module Store {
  import opened Prelude
  import opened Guards

  type Bytes = seq<int>

  /** The one id every profile's app settings are stored under. */
  const SETTINGS_ID: Id := 1

  /** An ideal content hash: it names its content, or content nobody has. */
  datatype Hash = Digest(content: Bytes) | Dangling(name: nat)

  datatype Kind =
    | Workspace | Folder | Request | Revision | Environment | TlsProfile | ProxyProfile
    | Integration | Dataset | Scenario | LoadPlan | AppSettings | UserProfile
    | SpecSource | RunReport | ApiRuleset
    | TokenFile | LinkedFile | DeviceSeal

  datatype Key = Key(kind: Kind, id: Id)

  datatype LockPolicy = LockPolicy(idleMinutes: nat, lockOnOsLock: bool, clearClipboard: bool)

  /** How many bytes a ruleset's name and file name have. */
  datatype Names = Names(name: nat, file: nat)

  datatype Ruleset = Ruleset(id: Id, names: Names, size: nat, content: int)

  datatype Settings = Settings(lock: LockPolicy, defaults: Overrides, includeRecommended: bool, legacy: seq<Ruleset>, rest: int)

  const DEFAULT_LOCK := LockPolicy(15, true, true)
  const DEFAULT_SETTINGS := Settings(DEFAULT_LOCK, NO_OVERRIDES, true, [], 0)

  /** What is left of an object once its identity is taken out. */
  datatype Data =
    | Plain(content: int)
    | FolderData(importRoot: bool, content: int)
    | FilesData(files: set<Hash>, content: int)        // a request or dataset, and the stored files it names
    | RefsData(refs: set<Key>, content: int)           // a scenario or load plan, and the objects it runs with
    | SettingsData(settings: Settings)
    | SpecData(space: int, root: Option<Id>, content: int)
    | RulesetData(names: Names, size: nat, content: int)
    | BindingData(referrer: Key)                        // a linked-file binding
    | SealData

  /** `guard` is what an import may change of it, `data` the rest. */
  datatype Value = Value(sort: real, guard: Guard, data: Data)

  datatype Row = Row(owner: Option<Id>, parent: Option<Id>, sort: real, value: Value)

  datatype Secret = Secret(owner: Option<Id>, name: int, value: int)

  datatype Record = Record(workspace: Option<Id>, request: Option<Id>, startedAt: int, content: int, body: Option<Bytes>)

  datatype Report = Report(workspace: Id, startedAt: int, content: int)

  /** An attachment index entry; `content` is absent once its blob is gone. */
  datatype StoredFile = StoredFile(content: Option<Bytes>, user: bool, attachedAt: Option<int>)

  type Objects = map<Key, Row>

  datatype Db = Db(objects: Objects, secrets: map<Id, Secret>, files: map<Hash, StoredFile>,
                   history: map<Id, Record>, reports: map<Id, Report>)

  const EMPTY := Db(map[], map[], map[], map[], map[])

  datatype StoreError = Ownership | NoWorkspace | Integrity

  /** Kinds whose rows belong to a workspace. */
  predicate Owned(k: Kind) {
    k in {Folder, Request, Revision, Environment, TlsProfile, ProxyProfile, Integration,
          Dataset, Scenario, LoadPlan, SpecSource, RunReport, DeviceSeal}
  }

  /** What an import may change of a payload of kind `k`. */
  predicate GuardFits(k: Kind, guard: Guard) {
    match k
    case Workspace => guard.LayerGuard?
    case Revision => guard.LayerGuard?
    case Folder => guard.FolderGuard?
    case Request => guard.RequestGuard?
    case TlsProfile => guard.TlsGuard?
    case Integration => guard.GatewayGuard?
    case Scenario => guard.TrustGuard?
    case LoadPlan => guard.TrustGuard?
    case _ => guard.Unguarded?
  }

  /** The data constructor a kind's payload deserializes to. */
  predicate DataFits(k: Kind, data: Data) {
    match k
    case Folder => data.FolderData?
    case Request => data.FilesData?
    case Dataset => data.FilesData?
    case Scenario => data.RefsData?
    case LoadPlan => data.RefsData?
    case AppSettings => data.SettingsData?
    case SpecSource => data.SpecData?
    case ApiRuleset => data.RulesetData?
    case LinkedFile => data.BindingData?
    case DeviceSeal => data.SealData?
    case _ => data.Plain?
  }

  predicate Fits(k: Kind, value: Value) {
    GuardFits(k, value.guard) && DataFits(k, value.data)
  }

  /** The identity check every stored row passes: it has the metadata its payload seals. */
  predicate Shaped(k: Kind, row: Row) {
    && (Owned(k) <==> row.owner.Some?)
    && (row.parent.Some? ==> k in {Folder, Request, Revision})
    && (k == Revision ==> row.parent.Some?)
    && Fits(k, row.value)
  }

  /** The sort key the app itself gives a row of kind `k` (rulesets are placed on their own). */
  function AppSort(k: Kind, value: Value): real {
    if k in {Folder, Request, RunReport} then value.sort else 0.0
  }

  /** A store no one tampered with. */
  ghost predicate Valid(db: Db) {
    && (forall k :: k in db.objects ==> Shaped(k.kind, db.objects[k]))
    && (forall k :: k in db.objects && k.kind == AppSettings ==> k.id == SETTINGS_ID)
    && (forall k :: k in db.objects && k.kind == DeviceSeal ==> db.objects[k].owner == Some(k.id))
  }

  /** A revision's owner is the workspace of the request it belongs to. */
  predicate RevisionOwned(o: Objects, row: Row) {
    && row.parent.Some?
    && Key(Request, row.parent.value) in o
    && o[Key(Request, row.parent.value)].owner == row.owner
  }

  /** Whether a stored row can be read back. */
  predicate Readable(o: Objects, k: Key)
    requires k in o
  {
    k.kind == Revision ==> RevisionOwned(o, o[k])
  }

  /** Why writing `row` under `k` is refused, if it is. */
  function PutRefusal(o: Objects, k: Key, row: Row): Option<StoreError> {
    if k in o && !Readable(o, k) then Some(Integrity)
    else if k in o && (o[k].owner != row.owner || (k.kind == Revision && o[k].parent != row.parent)) then Some(Ownership)
    else if row.owner.Some? && Key(Workspace, row.owner.value) !in o then Some(NoWorkspace)
    else if k.kind == Revision && !RevisionOwned(o, row) then Some(Integrity)
    else None
  }

  /** Why a history record is refused: it never replaces one of another workspace or request. */
  predicate RecordRefused(h: map<Id, Record>, id: Id, rec: Record) {
    id in h && (h[id].workspace != rec.workspace || h[id].request != rec.request)
  }

  predicate ReportRefused(r: map<Id, Report>, id: Id, report: Report) {
    id in r && r[id].workspace != report.workspace
  }

  /** A record as stored: an empty body is no body. */
  function StoredRecord(rec: Record): Record {
    if rec.body == Some([]) then rec.(body := None) else rec
  }

  /** The attachment index entry after `bytes` arrive with a restore: a user's mark stays. */
  function Indexed(files: map<Hash, StoredFile>, sha: Hash, bytes: Bytes): StoredFile {
    if sha in files && files[sha].user then StoredFile(Some(bytes), true, files[sha].attachedAt)
    else StoredFile(Some(bytes), false, None)
  }

  /** Stored app settings, or the defaults while none are stored. */
  function SettingsOf(o: Objects): Settings {
    var k := Key(AppSettings, SETTINGS_ID);
    if k in o && o[k].value.data.SettingsData? then o[k].value.data.settings else DEFAULT_SETTINGS
  }

  predicate Sealed(o: Objects, ws: Id) {
    Key(DeviceSeal, ws) in o
  }

  function SealRow(ws: Id): Row {
    Row(Some(ws), None, 0.0, Value(0.0, Unguarded, SealData))
  }

  /** The tables, updated in place. */
  class Tables {
    var objects: Objects
    var secrets: map<Id, Secret>
    var files: map<Hash, StoredFile>
    var history: map<Id, Record>
    var reports: map<Id, Report>

    function View(): Db
      reads this
    {
      Db(objects, secrets, files, history, reports)
    }

    constructor (db: Db)
      ensures View() == db
    {
      objects, secrets, files, history, reports := db.objects, db.secrets, db.files, db.history, db.reports;
    }

    /** Put the tables back as `db` had them, as a rollback does. */
    method Rollback(db: Db)
      modifies this
      ensures View() == db
    {
      objects, secrets, files, history, reports := db.objects, db.secrets, db.files, db.history, db.reports;
    }

    method Put(k: Key, row: Row) returns (refused: Option<StoreError>)
      modifies this`objects
      ensures refused == PutRefusal(old(objects), k, row)
      ensures refused.None? <==>
        && (k in old(objects) ==> Readable(old(objects), k) && old(objects)[k].owner == row.owner)
        && (k in old(objects) && k.kind == Revision ==> old(objects)[k].parent == row.parent)
        && (row.owner.Some? ==> Key(Workspace, row.owner.value) in old(objects))
        && (k.kind == Revision ==> RevisionOwned(old(objects), row))
      ensures refused == Some(Ownership) <==>
        && k in old(objects) && Readable(old(objects), k)
        && (old(objects)[k].owner != row.owner || (k.kind == Revision && old(objects)[k].parent != row.parent))
      ensures refused == Some(NoWorkspace) <==>
        && (k in old(objects) ==> Readable(old(objects), k) && old(objects)[k].owner == row.owner)
        && (k in old(objects) && k.kind == Revision ==> old(objects)[k].parent == row.parent)
        && row.owner.Some? && Key(Workspace, row.owner.value) !in old(objects)
      ensures objects == if refused.None? then old(objects)[k := row] else old(objects)
    {
      refused := PutRefusal(objects, k, row);
      if refused.None? {
        objects := objects[k := row];
      }
    }

    method Delete(k: Key) returns (removed: bool)
      modifies this`objects
      ensures removed <==> k in old(objects)
      ensures objects == old(objects) - {k}
    {
      removed := k in objects;
      objects := objects - {k};
    }

    method PutSecret(id: Id, secret: Secret)
      modifies this`secrets
      ensures secrets == old(secrets)[id := secret]
    {
      secrets := secrets[id := secret];
    }

    method PutFile(sha: Hash, bytes: Bytes)
      modifies this`files
      ensures files == old(files)[sha := Indexed(old(files), sha, bytes)]
      ensures files[sha].content == Some(bytes) && (files[sha].user <==> sha in old(files) && old(files)[sha].user)
      ensures files[sha].attachedAt == if files[sha].user then old(files)[sha].attachedAt else None
    {
      files := files[sha := Indexed(files, sha, bytes)];
    }

    method AddHistory(id: Id, rec: Record) returns (ok: bool)
      modifies this`history
      ensures ok <==>
        (id in old(history) ==> old(history)[id].workspace == rec.workspace && old(history)[id].request == rec.request)
      ensures ok <==> !RecordRefused(old(history), id, rec)
      ensures ok ==> id in history && history[id] == rec.(body := if rec.body == Some([]) then None else rec.body)
      ensures history == if ok then old(history)[id := StoredRecord(rec)] else old(history)
    {
      ok := !RecordRefused(history, id, rec);
      if ok {
        history := history[id := StoredRecord(rec)];
      }
    }

    method PutReport(id: Id, report: Report) returns (ok: bool)
      modifies this`reports
      ensures ok <==> (id in old(reports) ==> old(reports)[id].workspace == report.workspace)
      ensures ok <==> !ReportRefused(old(reports), id, report)
      ensures reports == if ok then old(reports)[id := report] else old(reports)
    {
      ok := !ReportRefused(reports, id, report);
      if ok {
        reports := reports[id := report];
      }
    }
  }
}
