/**
 * Writing a decoded backup into the store: the write loops of a restore, the
 * fold each of them computes, and the closed form of the whole write.
 */
module BackupWrite {
  import opened Prelude
  import opened Guards
  import opened Store

  datatype Entry = Entry(key: Key, row: Row)
  datatype SecretEntry = SecretEntry(id: Id, secret: Secret)
  datatype RecordEntry = RecordEntry(id: Id, record: Record)
  datatype ReportEntry = ReportEntry(id: Id, report: Report)

  /** What a plan counts: one object, secret, history record or load report. */
  datatype Item = ObjectItem(key: Key) | SecretItem(id: Id) | HistoryItem(id: Id) | ReportItem(id: Id)

  datatype Policy = Merge | Replace | Duplicate

  /** Validated, typed and normalised backup contents, in the order they are written. */
  datatype Decoded = Decoded(
    graph: seq<Entry>,               // workspaces, folders, requests, revisions, ..., load plans
    settings: Option<Settings>,
    rulesets: seq<Ruleset>,
    trailing: seq<Entry>,            // user profiles, spec sources, run reports
    secrets: seq<SecretEntry>,
    files: map<Hash, Bytes>,
    history: seq<RecordEntry>,
    reports: seq<ReportEntry>,
    items: seq<Item>,                // everything the plan counts
    uncarried: set<Hash>             // stored files named without their bytes
  )

  /** How a restore writes: what was stored before it, what it leaves alone and which lock policy it keeps. */
  datatype Writer = Writer(stored: Db, merge: bool, keepSettings: bool, keepLock: Option<LockPolicy>)

  /** Kinds a full backup carries as rows. */
  predicate Carried(k: Kind) {
    k !in {TokenFile, LinkedFile, DeviceSeal}
  }

  /** Whether `db` has something a backup item collides with. */
  predicate Held(db: Db, i: Item) {
    match i
    case ObjectItem(k) => k in db.objects && Carried(k.kind)
    case SecretItem(id) => id in db.secrets
    case HistoryItem(id) => id in db.history
    case ReportItem(id) => id in db.reports
  }

  predicate Keeps(w: Writer, item: Item) {
    w.merge && Held(w.stored, item)
  }

  function Workspaces(d: Decoded): set<Id> {
    set e | e in d.graph && e.key.kind == Workspace :: e.key.id
  }

  function SettingsRow(s: Settings): Row {
    Row(None, None, 0.0, Value(0.0, Unguarded, SettingsData(s)))
  }

  function RulesetRow(r: Ruleset, sort: real): Row {
    Row(None, None, sort, Value(0.0, Unguarded, RulesetData(r.names, r.size, r.content)))
  }

  function RulesetKey(r: Ruleset): Key {
    Key(ApiRuleset, r.id)
  }

  function MaxOf(a: real, b: real): real {
    if a < b then b else a
  }

  // ------------------------------------------------------------- the folds

  function PutRows(o: Objects, es: seq<Entry>, w: Writer): Result<Objects, StoreError>
    decreases |es|
  {
    if es == [] then Ok(o)
    else if Keeps(w, ObjectItem(es[0].key)) then PutRows(o, es[1..], w)
    else
      match PutRefusal(o, es[0].key, es[0].row)
      case Some(e) => Err(e)
      case None => PutRows(o[es[0].key := es[0].row], es[1..], w)
  }

  /** The settings a restore writes: the backup's, with this profile's lock policy when that is kept. */
  function RestoredSettings(s: Settings, w: Writer): Settings {
    if w.keepLock.Some? then s.(lock := w.keepLock.value) else s
  }

  function PutSettings(o: Objects, s: Option<Settings>, w: Writer): Result<Objects, StoreError> {
    if s.None? || w.keepSettings then Ok(o)
    else PutRows(o, [Entry(Key(AppSettings, SETTINGS_ID), SettingsRow(RestoredSettings(s.value, w)))], w)
  }

  /** The sort keys of the stored rulesets. */
  function RulesetSorts(o: Objects): set<real> {
    set k | k in o && k.kind == ApiRuleset :: o[k].sort
  }

  /** `m` is the largest of `s` and -1. */
  ghost predicate IsTop(m: real, s: set<real>) {
    (m == -1.0 || m in s) && -1.0 <= m && forall x :: x in s ==> x <= m
  }

  /** The largest sort key of the stored rulesets, or -1. */
  ghost function TopOf(s: set<real>): (m: real)
    ensures IsTop(m, s)
  {
    if !exists x :: x in s then -1.0
    else
      var x :| x in s;
      var m := MaxOf(TopOf(s - {x}), x);
      assert s == (s - {x}) + {x};
      m
  }

  lemma TopIsUnique(a: real, b: real, s: set<real>)
    requires IsTop(a, s) && IsTop(b, s)
    ensures a == b
  {
    assert a == -1.0 || a <= b;
    assert b == -1.0 || b <= a;
  }

  /** Where each ruleset goes: at its stored sort key, or after everything placed so far. */
  function PutRulesets(o: Objects, stored: Objects, next: real, rs: seq<Ruleset>, w: Writer): Result<Objects, StoreError>
    decreases |rs|
  {
    if rs == [] then Ok(o)
    else
      var k := RulesetKey(rs[0]);
      var sort := if k in stored then stored[k].sort else next;
      var later := MaxOf(next, sort + 1.0);
      if Keeps(w, ObjectItem(k)) then PutRulesets(o, stored, later, rs[1..], w)
      else
        match PutRefusal(o, k, RulesetRow(rs[0], sort))
        case Some(e) => Err(e)
        case None => PutRulesets(o[k := RulesetRow(rs[0], sort)], stored, later, rs[1..], w)
  }

  /** Ids of the requests and datasets the restore writes. */
  function WrittenReferrers(es: seq<Entry>, w: Writer): set<Id> {
    set e | e in es && e.key.kind in {Request, Dataset} && !Keeps(w, ObjectItem(e.key)) :: e.key.id
  }

  /** Linked-file bindings chosen for an object of one of `ids`, whatever its kind. */
  function BindingsOf(o: Objects, ids: set<Id>): set<Key> {
    set k | k in o && k.kind == LinkedFile && o[k].value.data.BindingData? && o[k].value.data.referrer.id in ids
  }

  function PutSecrets(m: map<Id, Secret>, ss: seq<SecretEntry>, w: Writer): map<Id, Secret>
    decreases |ss|
  {
    if ss == [] then m
    else PutSecrets(if Keeps(w, SecretItem(ss[0].id)) then m else m[ss[0].id := ss[0].secret], ss[1..], w)
  }

  function PutFiles(files: map<Hash, StoredFile>, carried: map<Hash, Bytes>): map<Hash, StoredFile> {
    map h | h in files.Keys + carried.Keys :: if h in carried then Indexed(files, h, carried[h]) else files[h]
  }

  /** A restored record is never dated after its restore. */
  function Clamped(rec: Record, now: int): Record {
    if rec.startedAt <= now then rec else rec.(startedAt := now)
  }

  function AddRecords(h: map<Id, Record>, rs: seq<RecordEntry>, w: Writer, now: int): Result<map<Id, Record>, StoreError>
    decreases |rs|
  {
    if rs == [] then Ok(h)
    else if Keeps(w, HistoryItem(rs[0].id)) then AddRecords(h, rs[1..], w, now)
    else if RecordRefused(h, rs[0].id, rs[0].record) then Err(Ownership)
    else AddRecords(h[rs[0].id := StoredRecord(Clamped(rs[0].record, now))], rs[1..], w, now)
  }

  function PutReports(m: map<Id, Report>, rs: seq<ReportEntry>, w: Writer): Result<map<Id, Report>, StoreError>
    decreases |rs|
  {
    if rs == [] then Ok(m)
    else if Keeps(w, ReportItem(rs[0].id)) then PutReports(m, rs[1..], w)
    else if ReportRefused(m, rs[0].id, rs[0].report) then Err(Ownership)
    else PutReports(m[rs[0].id := rs[0].report], rs[1..], w)
  }

  /** Every object row a restore writes, seals aside. */
  ghost function WriteObjects(o: Objects, d: Decoded, w: Writer): Result<Objects, StoreError> {
    var o1 := PutRows(o, d.graph, w);
    if o1.Err? then o1 else
    var o2 := PutSettings(o1.value, d.settings, w);
    if o2.Err? then o2 else
    var o3 := PutRulesets(o2.value, o2.value, TopOf(RulesetSorts(o2.value)) + 1.0, d.rulesets, w);
    if o3.Err? then o3 else
    PutRows(o3.value, d.trailing, w)
  }

  ghost function WriteAll(db: Db, d: Decoded, w: Writer, now: int): Result<Db, StoreError> {
    var o := WriteObjects(db.objects, d, w);
    if o.Err? then Err(o.error) else
    var h := AddRecords(db.history, d.history, w, now);
    if h.Err? then Err(h.error) else
    var r := PutReports(db.reports, d.reports, w);
    if r.Err? then Err(r.error) else
    Ok(Db(o.value - BindingsOf(o.value, WrittenReferrers(d.graph, w)), PutSecrets(db.secrets, d.secrets, w),
          PutFiles(db.files, d.files), h.value, r.value))
  }

  // ------------------------------------------------------------- the loops

  method PutEntries(t: Tables, es: seq<Entry>, w: Writer) returns (refused: Option<StoreError>)
    modifies t`objects
    ensures refused.None? ==> PutRows(old(t.objects), es, w) == Ok(t.objects)
    ensures refused.Some? ==> PutRows(old(t.objects), es, w) == Err(refused.value)
  {
    for i := 0 to |es|
      invariant PutRows(old(t.objects), es, w) == PutRows(t.objects, es[i..], w)
    {
      assert es[i..][1..] == es[i + 1..];
      if !Keeps(w, ObjectItem(es[i].key)) {
        refused := t.Put(es[i].key, es[i].row);
        if refused.Some? {
          return;
        }
      }
    }
    refused := None;
  }

  method TopSort(o: Objects) returns (top: real)
    ensures top == TopOf(RulesetSorts(o))
  {
    top := -1.0;
    var rest := RulesetSorts(o);
    while rest != {}
      invariant rest <= RulesetSorts(o)
      invariant IsTop(top, RulesetSorts(o) - rest)
      decreases rest
    {
      var x :| x in rest;
      assert RulesetSorts(o) - (rest - {x}) == (RulesetSorts(o) - rest) + {x};
      top := MaxOf(top, x);
      rest := rest - {x};
    }
    assert RulesetSorts(o) - rest == RulesetSorts(o);
    TopIsUnique(top, TopOf(RulesetSorts(o)), RulesetSorts(o));
  }

  method PutRulesetsInPlace(t: Tables, rs: seq<Ruleset>, w: Writer, top: real) returns (refused: Option<StoreError>)
    modifies t`objects
    ensures refused.None? ==> PutRulesets(old(t.objects), old(t.objects), top + 1.0, rs, w) == Ok(t.objects)
    ensures refused.Some? ==> PutRulesets(old(t.objects), old(t.objects), top + 1.0, rs, w) == Err(refused.value)
  {
    var stored := t.objects;
    var next := top + 1.0;
    for i := 0 to |rs|
      invariant PutRulesets(stored, stored, top + 1.0, rs, w) == PutRulesets(t.objects, stored, next, rs[i..], w)
    {
      assert rs[i..][1..] == rs[i + 1..];
      var k := RulesetKey(rs[i]);
      var sort := if k in stored then stored[k].sort else next;
      if !Keeps(w, ObjectItem(k)) {
        refused := t.Put(k, RulesetRow(rs[i], sort));
        if refused.Some? {
          return;
        }
      }
      next := MaxOf(next, sort + 1.0);
    }
    refused := None;
  }

  method DropBindings(t: Tables, ids: set<Id>)
    modifies t`objects
    ensures t.objects == old(t.objects) - BindingsOf(old(t.objects), ids)
  {
    var rest := BindingsOf(t.objects, ids);
    while rest != {}
      invariant rest <= BindingsOf(old(t.objects), ids)
      invariant t.objects == old(t.objects) - (BindingsOf(old(t.objects), ids) - rest)
      decreases rest
    {
      var k :| k in rest;
      var _ := t.Delete(k);
      rest := rest - {k};
    }
  }

  method WriteSecrets(t: Tables, ss: seq<SecretEntry>, w: Writer)
    modifies t`secrets
    ensures t.secrets == PutSecrets(old(t.secrets), ss, w)
  {
    for i := 0 to |ss|
      invariant PutSecrets(old(t.secrets), ss, w) == PutSecrets(t.secrets, ss[i..], w)
    {
      assert ss[i..][1..] == ss[i + 1..];
      if !Keeps(w, SecretItem(ss[i].id)) {
        t.PutSecret(ss[i].id, ss[i].secret);
      }
    }
  }

  method WriteFiles(t: Tables, carried: map<Hash, Bytes>)
    modifies t`files
    ensures t.files == PutFiles(old(t.files), carried)
  {
    var rest := carried.Keys;
    while rest != {}
      invariant rest <= carried.Keys
      invariant t.files == PutFiles(old(t.files), carried - rest)
      decreases rest
    {
      var h :| h in rest;
      t.PutFile(h, carried[h]);
      rest := rest - {h};
    }
    assert carried - rest == carried;
  }

  method WriteRecords(t: Tables, rs: seq<RecordEntry>, w: Writer, now: int) returns (refused: Option<StoreError>)
    modifies t`history
    ensures refused.None? ==> AddRecords(old(t.history), rs, w, now) == Ok(t.history)
    ensures refused.Some? ==> AddRecords(old(t.history), rs, w, now) == Err(refused.value)
  {
    for i := 0 to |rs|
      invariant AddRecords(old(t.history), rs, w, now) == AddRecords(t.history, rs[i..], w, now)
    {
      assert rs[i..][1..] == rs[i + 1..];
      if !Keeps(w, HistoryItem(rs[i].id)) {
        var ok := t.AddHistory(rs[i].id, Clamped(rs[i].record, now));
        if !ok {
          return Some(Ownership);
        }
      }
    }
    refused := None;
  }

  method WriteReports(t: Tables, rs: seq<ReportEntry>, w: Writer) returns (refused: Option<StoreError>)
    modifies t`reports
    ensures refused.None? ==> PutReports(old(t.reports), rs, w) == Ok(t.reports)
    ensures refused.Some? ==> PutReports(old(t.reports), rs, w) == Err(refused.value)
  {
    for i := 0 to |rs|
      invariant PutReports(old(t.reports), rs, w) == PutReports(t.reports, rs[i..], w)
    {
      assert rs[i..][1..] == rs[i + 1..];
      if !Keeps(w, ReportItem(rs[i].id)) {
        var ok := t.PutReport(rs[i].id, rs[i].report);
        if !ok {
          return Some(Ownership);
        }
      }
    }
    refused := None;
  }

  method WriteObjectRows(t: Tables, d: Decoded, w: Writer) returns (refused: Option<StoreError>)
    modifies t`objects
    ensures refused.None? ==> WriteObjects(old(t.objects), d, w) == Ok(t.objects)
    ensures refused.Some? ==> WriteObjects(old(t.objects), d, w) == Err(refused.value)
  {
    refused := PutEntries(t, d.graph, w);
    if refused.Some? {
      return;
    }
    if d.settings.Some? && !w.keepSettings {
      refused := PutEntries(t, [Entry(Key(AppSettings, SETTINGS_ID), SettingsRow(RestoredSettings(d.settings.value, w)))], w);
      if refused.Some? {
        return;
      }
    }
    var top := TopSort(t.objects);
    refused := PutRulesetsInPlace(t, d.rulesets, w, top);
    if refused.Some? {
      return;
    }
    refused := PutEntries(t, d.trailing, w);
  }

  /** Write every item. A refusal stops at once; the caller rolls the tables back. */
  method Write(t: Tables, d: Decoded, w: Writer, now: int) returns (refused: Option<StoreError>)
    modifies t
    ensures refused.None? ==> WriteAll(old(t.View()), d, w, now) == Ok(t.View())
    ensures refused.Some? ==> WriteAll(old(t.View()), d, w, now) == Err(refused.value)
  {
    refused := WriteObjectRows(t, d, w);
    if refused.Some? {
      return;
    }
    DropBindings(t, WrittenReferrers(d.graph, w));
    WriteSecrets(t, d.secrets, w);
    WriteFiles(t, d.files);
    refused := WriteRecords(t, d.history, w, now);
    if refused.Some? {
      return;
    }
    refused := WriteReports(t, d.reports, w);
  }
}
