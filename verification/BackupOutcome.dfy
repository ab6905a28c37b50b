/**
 * Exactly when a restore goes through, and the store it leaves, key by key.
 */
module BackupOutcome {
  import opened Prelude
  import opened Store
  import opened Rulesets
  import opened BackupWrite
  import opened BackupRestore
  import opened BackupEffects

  /** A decoded backup and a store on which the plan checks found nothing foreign. */
  ghost predicate Ready(db: Db, d: Decoded, policy: Policy) {
    && Valid(db) && WellFormed(d)
    && policy in {Merge, Replace}
    && (policy == Replace ==> ItemsAtHome(d, db))
  }

  /** The object rows the writes start from. */
  function Base(db: Db, d: Decoded, policy: Policy): Objects {
    db.objects - Dropped(d, db, policy)
  }

  /**
   * Why the store refuses row `e` although the plan checks pass: under Replace
   * a revision stored here belongs to another request; under Merge a new
   * revision's request is kept here in another workspace.
   */
  ghost predicate RevisionConflict(db: Db, policy: Policy, e: Entry) {
    && e.key.kind == Revision && e.row.parent.Some?
    && if policy == Replace then e.key in db.objects && db.objects[e.key].parent != e.row.parent
       else
         var q := Key(Request, e.row.parent.value);
         e.key !in db.objects && q in db.objects && db.objects[q].owner != e.row.owner
  }

  /** Under Replace, a history record stored here names another request than the backup's. */
  ghost predicate RecordConflict(db: Db, policy: Policy, h: RecordEntry) {
    policy == Replace && h.id in db.history && db.history[h.id].request != h.record.request
  }

  ghost predicate WritesConflict(db: Db, d: Decoded, policy: Policy) {
    || (exists e :: e in d.graph && RevisionConflict(db, policy, e))
    || (exists h :: h in d.history && RecordConflict(db, policy, h))
  }

  lemma KeepsObject(db: Db, d: Decoded, policy: Policy, k: Key)
    requires Carried(k.kind)
    ensures Keeps(WriterFor(d, db, policy), ObjectItem(k)) <==> policy == Merge && k in db.objects
  {
  }

  lemma DistinctPrefix(es: seq<Entry>, more: seq<Entry>, i: nat)
    requires DistinctKeys(es + more) && i <= |es|
    ensures DistinctKeys(es) && DistinctKeys(es[..i]) && DistinctKeys(more)
  {
    var all := es + more;
    forall a, b | 0 <= a < b < |es| ensures es[a].key != es[b].key {
      assert all[a].key != all[b].key;
    }
    forall a, b | 0 <= a < b < |more| ensures more[a].key != more[b].key {
      assert all[|es| + a].key != all[|es| + b].key;
    }
  }

  /** A row before `i` is in place when row `i` is written: as written, or as kept. */
  lemma EarlierRow(o: Objects, es: seq<Entry>, w: Writer, i: nat, j: nat)
    requires DistinctKeys(es) && j < i <= |es|
    requires Keeps(w, ObjectItem(es[j].key)) ==> es[j].key in o
    ensures var s := o + WrittenBy(es[..i], w);
            es[j].key in s && s[es[j].key] == if Keeps(w, ObjectItem(es[j].key)) then o[es[j].key] else es[j].row
  {
    assert es[..i][j] in es[..i];
    WrittenLookup(es[..i], w, es[j].key);
  }

  lemma OwnKeyUnwritten(es: seq<Entry>, w: Writer, i: nat)
    requires DistinctKeys(es) && i < |es|
    ensures es[i].key !in WrittenBy(es[..i], w)
  {
    WrittenLookup(es[..i], w, es[i].key);
    forall e | e in es[..i] ensures e.key != es[i].key {
      var j :| 0 <= j < i && es[j] == e;
    }
  }

  /** The workspace row `i` belongs to comes before it. */
  lemma WorkspaceBefore(graph: seq<Entry>, ws: set<Id>, i: nat) returns (j: nat)
    requires GraphOk(graph, ws) && i < |graph| && graph[i].row.owner.Some?
    requires ws == set e | e in graph && e.key.kind == Workspace :: e.key.id
    ensures j < i && graph[j].key == Key(Workspace, graph[i].row.owner.value)
  {
    assert graph[i] in graph;
    assert RowOk(graph[i], ws);
    var we :| we in graph && we.key.kind == Workspace && we.key.id == graph[i].row.owner.value;
    j :| 0 <= j < |graph| && graph[j] == we;
    assert Rank(graph[j].key.kind) < Rank(graph[i].key.kind);
  }

  /** The request revision `i` belongs to comes before it. */
  lemma RequestBefore(graph: seq<Entry>, ws: set<Id>, i: nat) returns (j: nat)
    requires GraphOk(graph, ws) && i < |graph| && graph[i].key.kind == Revision
    ensures j < i && graph[j].key.kind == Request
    ensures graph[i].row.parent == Some(graph[j].key.id) && graph[j].row.owner == graph[i].row.owner
  {
    var e := graph[i];
    assert e in graph && HasRequest(graph, e);
    var qe :| qe in graph && qe.key.kind == Request && e.row.parent == Some(qe.key.id) && qe.row.owner == e.row.owner;
    j :| 0 <= j < |graph| && graph[j] == qe;
    assert Rank(graph[j].key.kind) < Rank(e.key.kind);
  }

  /** Row `j` of the graph when row `i` is written: kept under Merge, written otherwise. */
  lemma EarlierGraphRow(db: Db, d: Decoded, policy: Policy, i: nat, j: nat)
    requires DistinctKeys(d.graph) && j < i <= |d.graph|
    requires d.graph[j].key.kind in {Workspace, Request}
    ensures var s := Base(db, d, policy) + WrittenBy(d.graph[..i], WriterFor(d, db, policy));
            var e := d.graph[j];
            e.key in s && s[e.key] == if policy == Merge && e.key in db.objects then db.objects[e.key] else e.row
  {
    KeepsObject(db, d, policy, d.graph[j].key);
    EarlierRow(Base(db, d, policy), d.graph, WriterFor(d, db, policy), i, j);
  }

  lemma NotForeign(db: Db, d: Decoded, e: Entry)
    requires ItemsAtHome(d, db) && e in d.graph + d.trailing && e.key in db.objects
    ensures db.objects[e.key].owner == e.row.owner
  {
  }

  /** What the store holds around row `i` of the graph when it is written. */
  ghost predicate Surroundings(db: Db, policy: Policy, s: Objects, e: Entry) {
    && (e.key in s <==> e.key in db.objects)
    && (e.key in s ==> s[e.key] == db.objects[e.key])
    && (e.row.owner.Some? ==> Key(Workspace, e.row.owner.value) in s)
    && (e.key.kind == Revision ==>
          && e.row.parent.Some?
          && var q := Key(Request, e.row.parent.value);
             q in s && s[q].owner == if policy == Merge && q in db.objects then db.objects[q].owner else e.row.owner)
  }

  lemma GraphSurroundings(db: Db, d: Decoded, policy: Policy, i: nat)
    requires DistinctKeys(d.graph) && GraphOk(d.graph, Workspaces(d)) && i < |d.graph|
    ensures Surroundings(db, policy, Base(db, d, policy) + WrittenBy(d.graph[..i], WriterFor(d, db, policy)), d.graph[i])
  {
    var e := d.graph[i];
    assert e in d.graph;
    assert GraphKind(e.key.kind) && RowOk(e, Workspaces(d));
    OwnKeyUnwritten(d.graph, WriterFor(d, db, policy), i);
    if e.row.owner.Some? {
      var j := WorkspaceBefore(d.graph, Workspaces(d), i);
      EarlierGraphRow(db, d, policy, i, j);
    }
    if e.key.kind == Revision {
      var j := RequestBefore(d.graph, Workspaces(d), i);
      EarlierGraphRow(db, d, policy, i, j);
    }
  }

  /** With those surroundings, a row is refused exactly when it conflicts. */
  lemma RowDecision(db: Db, policy: Policy, s: Objects, e: Entry)
    requires Surroundings(db, policy, s, e) && policy in {Merge, Replace}
    requires e.key in db.objects ==> policy == Replace && db.objects[e.key].owner == e.row.owner
    requires e.key in db.objects && e.key.kind == Revision ==> db.objects[e.key].parent.Some?
    ensures PutRefusal(s, e.key, e.row).None? <==> !RevisionConflict(db, policy, e)
  {
  }

  lemma GraphRowAccepted(db: Db, d: Decoded, policy: Policy, i: nat)
    requires Ready(db, d, policy) && DistinctKeys(d.graph) && i < |d.graph|
    ensures Accepted(Base(db, d, policy), d.graph, WriterFor(d, db, policy), i) <==> !RevisionConflict(db, policy, d.graph[i])
  {
    var e := d.graph[i];
    assert e in d.graph && GraphKind(e.key.kind);
    GraphSurroundings(db, d, policy, i);
    KeepsObject(db, d, policy, e.key);
    if !(policy == Merge && e.key in db.objects) {
      if e.key in db.objects {
        NotForeign(db, d, e);
        assert Shaped(e.key.kind, db.objects[e.key]);
      }
      RowDecision(db, policy, Base(db, d, policy) + WrittenBy(d.graph[..i], WriterFor(d, db, policy)), e);
    }
  }

  /** The rows of the graph, once written over what was stored. */
  lemma GraphStage(db: Db, d: Decoded, policy: Policy)
    requires Ready(db, d, policy)
    ensures var r := PutRows(Base(db, d, policy), d.graph, WriterFor(d, db, policy));
      && (r.Ok? <==> forall e :: e in d.graph ==> !RevisionConflict(db, policy, e))
      && (r.Ok? ==> r.value == Base(db, d, policy) + WrittenBy(d.graph, WriterFor(d, db, policy)))
  {
    var o, w := Base(db, d, policy), WriterFor(d, db, policy);
    PutRowsClosed(o, d.graph, w);
    DistinctPrefix(d.graph, d.trailing, 0);
    forall i | 0 <= i < |d.graph| ensures Accepted(o, d.graph, w, i) <==> !RevisionConflict(db, policy, d.graph[i]) {
      GraphRowAccepted(db, d, policy, i);
    }
  }

  /** The part of well-formedness that says which keys the backup writes. */
  ghost predicate KeysOk(d: Decoded) {
    && DistinctKeys(d.graph + d.trailing)
    && (forall e :: e in d.graph ==> GraphKind(e.key.kind))
    && (forall e :: e in d.trailing ==> TrailingKind(e.key.kind))
  }

  // ------------------------------------------------ settings and rulesets

  const SETTINGS_KEY := Key(AppSettings, SETTINGS_ID)

  ghost function AfterGraph(db: Db, d: Decoded, policy: Policy): Objects {
    Base(db, d, policy) + WrittenBy(d.graph, WriterFor(d, db, policy))
  }

  predicate WritesSettings(d: Decoded, db: Db, policy: Policy) {
    d.settings.Some? && !KeepsSettings(d, db, policy)
  }

  ghost function AfterSettings(db: Db, d: Decoded, policy: Policy): Objects {
    var o := AfterGraph(db, d, policy);
    if WritesSettings(d, db, policy)
    then o[SETTINGS_KEY := SettingsRow(RestoredSettings(d.settings.value, WriterFor(d, db, policy)))]
    else o
  }

  /** The graph writes only kinds of its own. */
  lemma GraphWritesGraphKinds(d: Decoded, w: Writer, k: Key)
    requires KeysOk(d)
    ensures k in WrittenBy(d.graph, w) ==> GraphKind(k.kind)
  {
    DistinctPrefix(d.graph, d.trailing, 0);
    WrittenLookup(d.graph, w, k);
  }

  lemma PutSettingsPlain(o: Objects, s: Option<Settings>, w: Writer)
    requires SETTINGS_KEY in o ==> o[SETTINGS_KEY].owner == None
    requires s.Some? && !w.keepSettings ==> !w.merge
    ensures PutSettings(o, s, w) ==
      Ok(if s.Some? && !w.keepSettings then o[SETTINGS_KEY := SettingsRow(RestoredSettings(s.value, w))] else o)
  {
    if s.Some? && !w.keepSettings {
      var e := Entry(SETTINGS_KEY, SettingsRow(RestoredSettings(s.value, w)));
      assert [e][1..] == [];
      assert PutRefusal(o, e.key, e.row).None?;
      assert PutRows(o, [e], w) == PutRows(o[e.key := e.row], [], w);
    }
  }

  lemma SettingsOwner(db: Db, d: Decoded, policy: Policy)
    requires Valid(db) && KeysOk(d)
    ensures SETTINGS_KEY in AfterGraph(db, d, policy) ==> AfterGraph(db, d, policy)[SETTINGS_KEY].owner == None
  {
    GraphWritesGraphKinds(d, WriterFor(d, db, policy), SETTINGS_KEY);
    if SETTINGS_KEY in db.objects {
      assert Shaped(AppSettings, db.objects[SETTINGS_KEY]);
    }
  }

  lemma SettingsStage(db: Db, d: Decoded, policy: Policy)
    requires Valid(db) && KeysOk(d) && policy in {Merge, Replace}
    ensures PutSettings(AfterGraph(db, d, policy), d.settings, WriterFor(d, db, policy)) == Ok(AfterSettings(db, d, policy))
  {
    SettingsOwner(db, d, policy);
    PutSettingsPlain(AfterGraph(db, d, policy), d.settings, WriterFor(d, db, policy));
  }

  ghost function AfterRulesets(db: Db, d: Decoded, policy: Policy): Result<Objects, StoreError> {
    var o := AfterSettings(db, d, policy);
    PutRulesets(o, o, TopOf(RulesetSorts(o)) + 1.0, d.rulesets, WriterFor(d, db, policy))
  }

  /** The ruleset loop is never refused, and touches nothing but rulesets. */
  ghost predicate RulesetsFramed(db: Db, d: Decoded, policy: Policy) {
    && AfterRulesets(db, d, policy).Ok?
    && forall k: Key :: k.kind != ApiRuleset ==> Lookup(AfterRulesets(db, d, policy).value, k) == Lookup(AfterSettings(db, d, policy), k)
  }

  /** Rulesets belong to no workspace. */
  lemma RulesetsUnowned(db: Db, d: Decoded, policy: Policy)
    requires Valid(db) && KeysOk(d)
    ensures forall k :: k in AfterSettings(db, d, policy) && k.kind == ApiRuleset ==> AfterSettings(db, d, policy)[k].owner == None
  {
    var o := AfterSettings(db, d, policy);
    forall k | k in o && k.kind == ApiRuleset ensures o[k].owner == None {
      GraphWritesGraphKinds(d, WriterFor(d, db, policy), k);
      assert Shaped(ApiRuleset, db.objects[k]);
    }
  }

  lemma RulesetStage(db: Db, d: Decoded, policy: Policy)
    requires Valid(db) && KeysOk(d)
    ensures RulesetsFramed(db, d, policy)
  {
    var o := AfterSettings(db, d, policy);
    RulesetsUnowned(db, d, policy);
    OthersKept(o, o, TopOf(RulesetSorts(o)) + 1.0, d.rulesets, WriterFor(d, db, policy));
  }

  // ------------------------------------------------------------ the rest

  /** A row that is no revision is refused only over an owner or a missing workspace. */
  lemma PlainRowAccepted(s: Objects, e: Entry)
    requires e.key.kind != Revision
    requires e.key in s ==> s[e.key].owner == e.row.owner
    requires e.row.owner.Some? ==> Key(Workspace, e.row.owner.value) in s
    ensures PutRefusal(s, e.key, e.row).None?
  {
  }

  /** A trailing row meets what was stored, under the same owner. */
  lemma TrailingStored(db: Db, d: Decoded, policy: Policy, e: Entry)
    requires KeysOk(d) && e in d.trailing && RowOk(e, Workspaces(d))
    requires RulesetsFramed(db, d, policy) && (policy == Replace ==> ItemsAtHome(d, db))
    ensures var o := AfterRulesets(db, d, policy).value;
      && (e.key in o <==> e.key in db.objects)
      && (e.key in o ==> o[e.key] == db.objects[e.key])
      && (e.key in o && policy == Replace ==> o[e.key].owner == e.row.owner)
      && (e.row.owner.Some? ==> Key(Workspace, e.row.owner.value) in o)
  {
    GraphWritesGraphKinds(d, WriterFor(d, db, policy), e.key);
    if e.key in db.objects && policy == Replace {
      NotForeign(db, d, e);
    }
    if e.row.owner.Some? {
      WorkspaceWritten(db, d, policy, e.row.owner.value);
    }
  }

  lemma TrailingRowAccepted(db: Db, d: Decoded, policy: Policy, i: nat)
    requires Ready(db, d, policy) && KeysOk(d)
    requires RulesetsFramed(db, d, policy) && i < |d.trailing|
    ensures Accepted(AfterRulesets(db, d, policy).value, d.trailing, WriterFor(d, db, policy), i)
  {
    var e := d.trailing[i];
    assert TrailingKind(e.key.kind) && RowOk(e, Workspaces(d));
    TrailingStored(db, d, policy, e);
    DistinctPrefix(d.graph, d.trailing, 0);
    OwnKeyUnwritten(d.trailing, WriterFor(d, db, policy), i);
    KeepsObject(db, d, policy, e.key);
    if !(policy == Merge && e.key in db.objects) {
      PlainRowAccepted(AfterRulesets(db, d, policy).value + WrittenBy(d.trailing[..i], WriterFor(d, db, policy)), e);
    }
  }

  /** Every workspace of the backup is stored once the graph is written. */
  lemma WorkspaceWritten(db: Db, d: Decoded, policy: Policy, ws: Id)
    requires KeysOk(d) && ws in Workspaces(d)
    ensures Key(Workspace, ws) in AfterGraph(db, d, policy)
  {
    DistinctPrefix(d.graph, d.trailing, 0);
    var k := Key(Workspace, ws);
    WrittenLookup(d.graph, WriterFor(d, db, policy), k);
    KeepsObject(db, d, policy, k);
  }

  ghost function AfterTrailing(db: Db, d: Decoded, policy: Policy): Objects
    requires AfterRulesets(db, d, policy).Ok?
  {
    AfterRulesets(db, d, policy).value + WrittenBy(d.trailing, WriterFor(d, db, policy))
  }

  lemma TrailingStage(db: Db, d: Decoded, policy: Policy)
    requires Ready(db, d, policy) && KeysOk(d)
    requires RulesetsFramed(db, d, policy)
    ensures PutRows(AfterRulesets(db, d, policy).value, d.trailing, WriterFor(d, db, policy)) == Ok(AfterTrailing(db, d, policy))
  {
    var o, w := AfterRulesets(db, d, policy).value, WriterFor(d, db, policy);
    PutRowsClosed(o, d.trailing, w);
    forall i | 0 <= i < |d.trailing| ensures Accepted(o, d.trailing, w, i) {
      TrailingRowAccepted(db, d, policy, i);
    }
  }

  lemma ChainStages(db: Db, d: Decoded, policy: Policy, r: Result<Objects, StoreError>)
    requires r == PutRows(Base(db, d, policy), d.graph, WriterFor(d, db, policy))
    requires r.Ok? ==> r.value == AfterGraph(db, d, policy)
    requires PutSettings(AfterGraph(db, d, policy), d.settings, WriterFor(d, db, policy)) == Ok(AfterSettings(db, d, policy))
    requires AfterRulesets(db, d, policy).Ok?
    requires PutRows(AfterRulesets(db, d, policy).value, d.trailing, WriterFor(d, db, policy)) == Ok(AfterTrailing(db, d, policy))
    ensures WriteObjects(Base(db, d, policy), d, WriterFor(d, db, policy)).Ok? <==> r.Ok?
    ensures r.Ok? ==> WriteObjects(Base(db, d, policy), d, WriterFor(d, db, policy)) == Ok(AfterTrailing(db, d, policy))
  {
  }

  /** The object writes go through exactly when no revision conflicts. */
  lemma ObjectStages(db: Db, d: Decoded, policy: Policy)
    requires Ready(db, d, policy)
    ensures KeysOk(d) && RulesetsFramed(db, d, policy)
    ensures var r := WriteObjects(Base(db, d, policy), d, WriterFor(d, db, policy));
      && (r.Ok? <==> forall e :: e in d.graph ==> !RevisionConflict(db, policy, e))
      && (r.Ok? ==> r.value == AfterTrailing(db, d, policy))
  {
    DistinctPrefix(d.graph, d.trailing, 0);
    GraphStage(db, d, policy);
    SettingsStage(db, d, policy);
    RulesetStage(db, d, policy);
    TrailingStage(db, d, policy);
    ChainStages(db, d, policy, PutRows(Base(db, d, policy), d.graph, WriterFor(d, db, policy)));
  }

  // ---------------------------------------------------- the store, by key

  /** The row the backup carries under `k`. */
  ghost function CarriedRow(d: Decoded, k: Key): Option<Row> {
    if exists e :: e in d.graph + d.trailing && e.key == k
    then var e :| e in d.graph + d.trailing && e.key == k; Some(e.row)
    else None
  }

  lemma CarriedRowIs(d: Decoded, e: Entry)
    requires DistinctKeys(d.graph + d.trailing) && e in d.graph + d.trailing
    ensures CarriedRow(d, e.key) == Some(e.row)
  {
  }

  /** Whether the restore writes the carried row `k`. */
  ghost predicate WritesRow(db: Db, d: Decoded, policy: Policy, k: Key) {
    CarriedRow(d, k).Some? && !(policy == Merge && k in db.objects)
  }

  /** The settings a restore leaves when it writes any. */
  function NewSettings(db: Db, d: Decoded, policy: Policy): Settings
    requires d.settings.Some?
  {
    if Withheld(d, db, policy).Some? then d.settings.value.(lock := SettingsOf(db.objects).lock) else d.settings.value
  }

  /** Requests and datasets the restore writes, by id alone. */
  ghost predicate RewritesReferrer(db: Db, d: Decoded, policy: Policy, id: Id) {
    WritesRow(db, d, policy, Key(Request, id)) || WritesRow(db, d, policy, Key(Dataset, id))
  }

  /** The row stored under `k` after the restore (rulesets are placed by order instead). */
  ghost function RowAfter(db: Db, d: Decoded, policy: Policy, k: Key): Option<Row> {
    var stored := Lookup(db.objects, k);
    if k.kind == DeviceSeal then (if k.id in Workspaces(d) then Some(SealRow(k.id)) else stored)
    else if k.kind == LinkedFile then
      (if stored.Some? && stored.value.value.data.BindingData? && RewritesReferrer(db, d, policy, stored.value.value.data.referrer.id)
       then None else stored)
    else if k == SETTINGS_KEY then (if WritesSettings(d, db, policy) then Some(SettingsRow(NewSettings(db, d, policy))) else stored)
    else if WritesRow(db, d, policy, k) then CarriedRow(d, k)
    else stored
  }

  lemma CarriedRowSplit(d: Decoded, w: Writer, k: Key)
    requires DistinctKeys(d.graph + d.trailing)
    ensures k in WrittenBy(d.graph, w) ==> CarriedRow(d, k) == Some(WrittenBy(d.graph, w)[k])
    ensures k in WrittenBy(d.trailing, w) ==> CarriedRow(d, k) == Some(WrittenBy(d.trailing, w)[k])
    ensures k in WrittenBy(d.graph, w) || k in WrittenBy(d.trailing, w) <==> CarriedRow(d, k).Some? && !Keeps(w, ObjectItem(k))
  {
    DistinctPrefix(d.graph, d.trailing, 0);
    WrittenLookup(d.graph, w, k);
    WrittenLookup(d.trailing, w, k);
    forall e | e in d.graph + d.trailing && e.key == k ensures CarriedRow(d, k) == Some(e.row) {
      CarriedRowIs(d, e);
    }
    if k in WrittenBy(d.graph, w) {
      var e :| e in d.graph && e.key == k;
      assert e in d.graph + d.trailing;
    }
    if k in WrittenBy(d.trailing, w) {
      var e :| e in d.trailing && e.key == k;
      assert e in d.graph + d.trailing;
    }
  }

  lemma CarriedKinds(d: Decoded, k: Key)
    requires KeysOk(d) && CarriedRow(d, k).Some?
    ensures GraphKind(k.kind) || TrailingKind(k.kind)
  {
  }

  lemma AfterSettingsAt(db: Db, d: Decoded, policy: Policy, k: Key)
    requires k.kind != ApiRuleset
    ensures Lookup(AfterSettings(db, d, policy), k) ==
      if k == SETTINGS_KEY && WritesSettings(d, db, policy) then Some(SettingsRow(NewSettings(db, d, policy)))
      else if k in WrittenBy(d.graph, WriterFor(d, db, policy)) then Some(WrittenBy(d.graph, WriterFor(d, db, policy))[k])
      else Lookup(db.objects, k)
  {
    if d.settings.Some? {
      assert RestoredSettings(d.settings.value, WriterFor(d, db, policy)) == NewSettings(db, d, policy);
    }
  }

  lemma WritesRowMeans(db: Db, d: Decoded, policy: Policy, k: Key)
    requires KeysOk(d)
    ensures WritesRow(db, d, policy, k) <==> CarriedRow(d, k).Some? && !Keeps(WriterFor(d, db, policy), ObjectItem(k))
    ensures WritesRow(db, d, policy, k) ==> k != SETTINGS_KEY
  {
    if CarriedRow(d, k).Some? {
      CarriedKinds(d, k);
      KeepsObject(db, d, policy, k);
    }
  }

  /** Object rows before the bindings are dropped and the seals set. */
  lemma AfterTrailingAt(db: Db, d: Decoded, policy: Policy, k: Key)
    requires KeysOk(d) && RulesetsFramed(db, d, policy) && k.kind != ApiRuleset
    ensures Lookup(AfterTrailing(db, d, policy), k) ==
      if k == SETTINGS_KEY && WritesSettings(d, db, policy) then Some(SettingsRow(NewSettings(db, d, policy)))
      else if WritesRow(db, d, policy, k) then CarriedRow(d, k)
      else Lookup(db.objects, k)
  {
    var w := WriterFor(d, db, policy);
    AfterSettingsAt(db, d, policy, k);
    CarriedRowSplit(d, w, k);
    WritesRowMeans(db, d, policy, k);
    OverlayAt(AfterRulesets(db, d, policy).value, AfterSettings(db, d, policy), WrittenBy(d.trailing, w), k);
  }

  lemma OverlayAt(v: Objects, o: Objects, written: Objects, k: Key)
    requires Lookup(v, k) == Lookup(o, k)
    ensures Lookup(v + written, k) == if k in written then Some(written[k]) else Lookup(o, k)
  {
  }

  lemma {:induction false} SealStage(o: Objects, graph: seq<Entry>)
    requires forall e :: e in graph && e.key.kind == Workspace ==> Key(Workspace, e.key.id) in o
    requires forall k :: k in o && k.kind == DeviceSeal ==> o[k].owner == Some(k.id)
    ensures PutRows(o, SealEntries(graph), SEALER).Ok?
    ensures var v := PutRows(o, SealEntries(graph), SEALER).value;
      forall k: Key :: Lookup(v, k) ==
        if k.kind == DeviceSeal && exists e :: e in graph && e.key == Key(Workspace, k.id) then Some(SealRow(k.id)) else Lookup(o, k)
    decreases |graph|
  {
    if graph == [] {
    } else {
      assert graph == [graph[0]] + graph[1..];
      assert forall e :: e in graph <==> e == graph[0] || e in graph[1..];
      if graph[0].key.kind == Workspace {
        var seal := Entry(Key(DeviceSeal, graph[0].key.id), SealRow(graph[0].key.id));
        assert SealEntries(graph)[1..] == SealEntries(graph[1..]);
        assert PutRefusal(o, seal.key, seal.row).None?;
        SealStage(o[seal.key := seal.row], graph[1..]);
      } else {
        assert SealEntries(graph) == SealEntries(graph[1..]);
        SealStage(o, graph[1..]);
      }
    }
  }

  // ----------------------------------------------- secrets and records

  ghost function CarriedSecret(d: Decoded, id: Id): Option<Secret> {
    if exists s :: s in d.secrets && s.id == id then var s :| s in d.secrets && s.id == id; Some(s.secret) else None
  }

  ghost function CarriedRecord(d: Decoded, id: Id): Option<Record> {
    if exists h :: h in d.history && h.id == id then var h :| h in d.history && h.id == id; Some(h.record) else None
  }

  ghost function CarriedReport(d: Decoded, id: Id): Option<Report> {
    if exists r :: r in d.reports && r.id == id then var r :| r in d.reports && r.id == id; Some(r.report) else None
  }

  ghost function SecretAfter(db: Db, d: Decoded, policy: Policy, id: Id): Option<Secret> {
    if CarriedSecret(d, id).Some? && !(policy == Merge && id in db.secrets) then CarriedSecret(d, id) else Lookup(db.secrets, id)
  }

  ghost function RecordAfter(db: Db, d: Decoded, policy: Policy, now: int, id: Id): Option<Record> {
    if CarriedRecord(d, id).Some? && !(policy == Merge && id in db.history)
    then Some(StoredRecord(Clamped(CarriedRecord(d, id).value, now)))
    else Lookup(db.history, id)
  }

  ghost function ReportAfter(db: Db, d: Decoded, policy: Policy, id: Id): Option<Report> {
    if CarriedReport(d, id).Some? && !(policy == Merge && id in db.reports) then CarriedReport(d, id) else Lookup(db.reports, id)
  }

  function FileAfter(db: Db, d: Decoded, h: Hash): Option<StoredFile> {
    if h in d.files then Some(Indexed(db.files, h, d.files[h])) else Lookup(db.files, h)
  }

  lemma SecretsStage(db: Db, d: Decoded, policy: Policy, id: Id)
    requires RecordsOk(d)
    ensures Lookup(PutSecrets(db.secrets, d.secrets, WriterFor(d, db, policy)), id) == SecretAfter(db, d, policy, id)
  {
    var w := WriterFor(d, db, policy);
    assert Keeps(w, SecretItem(id)) <==> policy == Merge && id in db.secrets;
    PutSecretsAt(db.secrets, d.secrets, w, id);
  }

  lemma RecordsStage(db: Db, d: Decoded, policy: Policy, now: int)
    requires RecordsOk(d) && policy in {Merge, Replace} && (policy == Replace ==> ItemsAtHome(d, db))
    ensures var r := AddRecords(db.history, d.history, WriterFor(d, db, policy), now);
      && (r.Ok? <==> forall h :: h in d.history ==> !RecordConflict(db, policy, h))
      && (r.Ok? ==> forall id :: Lookup(r.value, id) == RecordAfter(db, d, policy, now, id))
  {
    var w := WriterFor(d, db, policy);
    AddRecordsAccepted(db.history, d.history, w, now);
    forall h | h in d.history
      ensures (Keeps(w, HistoryItem(h.id)) || !RecordRefused(db.history, h.id, h.record)) <==> !RecordConflict(db, policy, h)
    {
      assert Keeps(w, HistoryItem(h.id)) <==> policy == Merge && h.id in db.history;
    }
    if AddRecords(db.history, d.history, w, now).Ok? {
      forall id ensures Lookup(AddRecords(db.history, d.history, w, now).value, id) == RecordAfter(db, d, policy, now, id) {
        assert Keeps(w, HistoryItem(id)) <==> policy == Merge && id in db.history;
        AddRecordsAt(db.history, d.history, w, now, id);
      }
    }
  }

  lemma ReportsStage(db: Db, d: Decoded, policy: Policy)
    requires RecordsOk(d) && policy in {Merge, Replace} && (policy == Replace ==> ItemsAtHome(d, db))
    ensures var r := PutReports(db.reports, d.reports, WriterFor(d, db, policy));
      r.Ok? && forall id :: Lookup(r.value, id) == ReportAfter(db, d, policy, id)
  {
    var w := WriterFor(d, db, policy);
    PutReportsAccepted(db.reports, d.reports, w);
    forall h | h in d.reports ensures Keeps(w, ReportItem(h.id)) || !ReportRefused(db.reports, h.id, h.report) {
      assert Keeps(w, ReportItem(h.id)) <==> policy == Merge && h.id in db.reports;
    }
    forall id ensures Lookup(PutReports(db.reports, d.reports, w).value, id) == ReportAfter(db, d, policy, id) {
      assert Keeps(w, ReportItem(id)) <==> policy == Merge && id in db.reports;
      PutReportsAt(db.reports, d.reports, w, id);
    }
  }

  // -------------------------------------------------------- the whole write

  lemma ReferrersMean(db: Db, d: Decoded, policy: Policy, id: Id)
    requires KeysOk(d)
    ensures id in WrittenReferrers(d.graph, WriterFor(d, db, policy)) <==> RewritesReferrer(db, d, policy, id)
  {
    var w := WriterFor(d, db, policy);
    forall k | k in {Key(Request, id), Key(Dataset, id)}
      ensures WritesRow(db, d, policy, k) <==> !Keeps(w, ObjectItem(k)) && exists e :: e in d.graph && e.key == k
    {
      WritesRowMeans(db, d, policy, k);
      if CarriedRow(d, k).Some? {
        var e :| e in d.graph + d.trailing && e.key == k;
        assert e !in d.trailing;
      }
      forall e | e in d.graph && e.key == k ensures CarriedRow(d, k).Some? {
        assert e in d.graph + d.trailing;
      }
    }
    assert Key(Request, id) in {Key(Request, id), Key(Dataset, id)};
    assert Key(Dataset, id) in {Key(Request, id), Key(Dataset, id)};
  }

  /** The object rows once the bindings of rewritten requests and datasets are dropped. */
  ghost function AfterBindings(db: Db, d: Decoded, policy: Policy): Objects
    requires AfterRulesets(db, d, policy).Ok?
  {
    var o := AfterTrailing(db, d, policy);
    o - BindingsOf(o, WrittenReferrers(d.graph, WriterFor(d, db, policy)))
  }

  lemma BindingsGone(o: Objects, ids: set<Id>, k: Key)
    ensures Lookup(o - BindingsOf(o, ids), k) ==
      if k in o && k.kind == LinkedFile && o[k].value.data.BindingData? && o[k].value.data.referrer.id in ids then None
      else Lookup(o, k)
  {
  }

  lemma DeviceRowsAt(db: Db, d: Decoded, policy: Policy, k: Key)
    requires KeysOk(d) && RulesetsFramed(db, d, policy) && k.kind in {DeviceSeal, LinkedFile}
    ensures Lookup(AfterTrailing(db, d, policy), k) == Lookup(db.objects, k)
  {
    AfterTrailingAt(db, d, policy, k);
    if CarriedRow(d, k).Some? {
      CarriedKinds(d, k);
    }
  }

  lemma BindingRowAt(db: Db, d: Decoded, policy: Policy, k: Key)
    requires KeysOk(d) && RulesetsFramed(db, d, policy) && k.kind == LinkedFile
    ensures Lookup(AfterBindings(db, d, policy), k) == RowAfter(db, d, policy, k)
  {
    DeviceRowsAt(db, d, policy, k);
    BindingsGone(AfterTrailing(db, d, policy), WrittenReferrers(d.graph, WriterFor(d, db, policy)), k);
    if k in db.objects && db.objects[k].value.data.BindingData? {
      ReferrersMean(db, d, policy, db.objects[k].value.data.referrer.id);
    }
  }

  lemma AfterBindingsAt(db: Db, d: Decoded, policy: Policy, k: Key)
    requires KeysOk(d) && RulesetsFramed(db, d, policy) && k.kind != ApiRuleset
    ensures Lookup(AfterBindings(db, d, policy), k) == if k.kind == DeviceSeal then Lookup(db.objects, k) else RowAfter(db, d, policy, k)
  {
    if k.kind == LinkedFile {
      BindingRowAt(db, d, policy, k);
    } else {
      BindingsGone(AfterTrailing(db, d, policy), WrittenReferrers(d.graph, WriterFor(d, db, policy)), k);
      if k.kind == DeviceSeal {
        DeviceRowsAt(db, d, policy, k);
      } else {
        PlainRowAt(db, d, policy, k);
      }
    }
  }

  lemma PlainRowIs(db: Db, d: Decoded, policy: Policy, k: Key)
    requires KeysOk(d) && k.kind !in {ApiRuleset, DeviceSeal, LinkedFile}
    ensures RowAfter(db, d, policy, k) ==
      if k == SETTINGS_KEY && WritesSettings(d, db, policy) then Some(SettingsRow(NewSettings(db, d, policy)))
      else if WritesRow(db, d, policy, k) then CarriedRow(d, k)
      else Lookup(db.objects, k)
  {
    if k == SETTINGS_KEY && CarriedRow(d, k).Some? {
      CarriedKinds(d, k);
    }
  }

  lemma PlainRowAt(db: Db, d: Decoded, policy: Policy, k: Key)
    requires KeysOk(d) && RulesetsFramed(db, d, policy) && k.kind !in {ApiRuleset, DeviceSeal, LinkedFile}
    ensures Lookup(AfterTrailing(db, d, policy), k) == RowAfter(db, d, policy, k)
  {
    AfterTrailingAt(db, d, policy, k);
    PlainRowIs(db, d, policy, k);
  }

  lemma CarriedWorkspaceLeft(db: Db, d: Decoded, policy: Policy, k: Key)
    requires k.kind == Workspace && CarriedRow(d, k).Some?
    ensures RowAfter(db, d, policy, k).Some?
  {
  }

  lemma WorkspacesStay(db: Db, d: Decoded, policy: Policy, e: Entry)
    requires KeysOk(d) && RulesetsFramed(db, d, policy) && e in d.graph && e.key.kind == Workspace
    ensures e.key in AfterBindings(db, d, policy)
  {
    AfterBindingsAt(db, d, policy, e.key);
    assert e in d.graph + d.trailing;
    CarriedRowIs(d, e);
    CarriedWorkspaceLeft(db, d, policy, e.key);
  }

  lemma RulesetRowsAt(db: Db, d: Decoded, policy: Policy, k: Key)
    requires KeysOk(d) && RulesetsFramed(db, d, policy) && k.kind == ApiRuleset
    ensures Lookup(AfterBindings(db, d, policy), k) == Lookup(AfterRulesets(db, d, policy).value, k)
  {
    DistinctPrefix(d.graph, d.trailing, 0);
    WrittenLookup(d.trailing, WriterFor(d, db, policy), k);
    OverlayAt(AfterRulesets(db, d, policy).value, AfterRulesets(db, d, policy).value, WrittenBy(d.trailing, WriterFor(d, db, policy)), k);
    BindingsGone(AfterTrailing(db, d, policy), WrittenReferrers(d.graph, WriterFor(d, db, policy)), k);
  }

  lemma SealsAccepted(db: Db, d: Decoded, policy: Policy)
    requires Valid(db) && KeysOk(d) && RulesetsFramed(db, d, policy)
    ensures var o := AfterBindings(db, d, policy);
      && (forall e :: e in d.graph && e.key.kind == Workspace ==> Key(Workspace, e.key.id) in o)
      && (forall k :: k in o && k.kind == DeviceSeal ==> o[k].owner == Some(k.id))
  {
    var o := AfterBindings(db, d, policy);
    forall e | e in d.graph && e.key.kind == Workspace ensures Key(Workspace, e.key.id) in o {
      WorkspacesStay(db, d, policy, e);
    }
    forall k | k in o && k.kind == DeviceSeal ensures o[k].owner == Some(k.id) {
      AfterBindingsAt(db, d, policy, k);
    }
  }

  lemma SealsStage(db: Db, d: Decoded, policy: Policy, k: Key)
    requires Valid(db) && KeysOk(d) && RulesetsFramed(db, d, policy)
    ensures PutRows(AfterBindings(db, d, policy), SealEntries(d.graph), SEALER).Ok?
    ensures var v := PutRows(AfterBindings(db, d, policy), SealEntries(d.graph), SEALER).value;
      Lookup(v, k) == if k.kind == ApiRuleset then Lookup(AfterRulesets(db, d, policy).value, k) else RowAfter(db, d, policy, k)
  {
    SealsAccepted(db, d, policy);
    SealStage(AfterBindings(db, d, policy), d.graph);
    if k.kind == ApiRuleset {
      RulesetRowsAt(db, d, policy, k);
    } else {
      AfterBindingsAt(db, d, policy, k);
    }
  }

  /** What a restore leaves: every table, by key. */
  ghost predicate Leaves(db: Db, d: Decoded, policy: Policy, now: int, after: Db) {
    && (forall k: Key :: k.kind != ApiRuleset ==> Lookup(after.objects, k) == RowAfter(db, d, policy, k))
    && (forall id :: Lookup(after.secrets, id) == SecretAfter(db, d, policy, id))
    && (forall id :: Lookup(after.history, id) == RecordAfter(db, d, policy, now, id))
    && (forall id :: Lookup(after.reports, id) == ReportAfter(db, d, policy, id))
    && (forall h :: Lookup(after.files, h) == FileAfter(db, d, h))
  }

  /** The rulesets a restore leaves are those its ruleset loop placed. */
  ghost predicate LeavesRulesets(db: Db, d: Decoded, policy: Policy, after: Db) {
    && AfterRulesets(db, d, policy).Ok?
    && forall k: Key :: k.kind == ApiRuleset ==> Lookup(after.objects, k) == Lookup(AfterRulesets(db, d, policy).value, k)
  }

  lemma FinalRows(db: Db, d: Decoded, policy: Policy)
    requires Valid(db) && KeysOk(d) && RulesetsFramed(db, d, policy)
    ensures PutRows(AfterBindings(db, d, policy), SealEntries(d.graph), SEALER).Ok?
    ensures var v := PutRows(AfterBindings(db, d, policy), SealEntries(d.graph), SEALER).value;
      && (forall k: Key :: k.kind != ApiRuleset ==> Lookup(v, k) == RowAfter(db, d, policy, k))
      && (forall k: Key :: k.kind == ApiRuleset ==> Lookup(v, k) == Lookup(AfterRulesets(db, d, policy).value, k))
  {
    SealsStage(db, d, policy, SETTINGS_KEY);
    var v := PutRows(AfterBindings(db, d, policy), SealEntries(d.graph), SEALER).value;
    forall k: Key
      ensures Lookup(v, k) == if k.kind == ApiRuleset then Lookup(AfterRulesets(db, d, policy).value, k) else RowAfter(db, d, policy, k)
    {
      SealsStage(db, d, policy, k);
    }
  }

  /** The pieces `Applied` is made of, once each is known. */
  lemma AppliedParts(db: Db, d: Decoded, policy: Policy, now: int)
    requires AfterRulesets(db, d, policy).Ok?
    requires var o := WriteObjects(Base(db, d, policy), d, WriterFor(d, db, policy));
      o.Ok? ==> o.value == AfterTrailing(db, d, policy)
    requires PutReports(db.reports, d.reports, WriterFor(d, db, policy)).Ok?
    requires PutRows(AfterBindings(db, d, policy), SealEntries(d.graph), SEALER).Ok?
    ensures Applied(db, d, policy, now).Ok? <==>
      && WriteObjects(Base(db, d, policy), d, WriterFor(d, db, policy)).Ok?
      && AddRecords(db.history, d.history, WriterFor(d, db, policy), now).Ok?
    ensures Applied(db, d, policy, now).Ok? ==>
      var w := WriterFor(d, db, policy);
      Applied(db, d, policy, now).value ==
        Db(PutRows(AfterBindings(db, d, policy), SealEntries(d.graph), SEALER).value, PutSecrets(db.secrets, d.secrets, w),
           PutFiles(db.files, d.files), AddRecords(db.history, d.history, w, now).value, PutReports(db.reports, d.reports, w).value)
  {
  }

  lemma TablesAfter(db: Db, d: Decoded, policy: Policy, now: int)
    requires Valid(db) && KeysOk(d) && RulesetsFramed(db, d, policy) && RecordsOk(d)
    requires policy in {Merge, Replace} && (policy == Replace ==> ItemsAtHome(d, db))
    requires var o := WriteObjects(Base(db, d, policy), d, WriterFor(d, db, policy));
      o.Ok? ==> o.value == AfterTrailing(db, d, policy)
    ensures Applied(db, d, policy, now).Ok? <==>
      && WriteObjects(Base(db, d, policy), d, WriterFor(d, db, policy)).Ok?
      && (forall h :: h in d.history ==> !RecordConflict(db, policy, h))
    ensures Applied(db, d, policy, now).Ok? ==> Leaves(db, d, policy, now, Applied(db, d, policy, now).value)
    ensures Applied(db, d, policy, now).Ok? ==> LeavesRulesets(db, d, policy, Applied(db, d, policy, now).value)
  {
    RecordsStage(db, d, policy, now);
    ReportsStage(db, d, policy);
    FinalRows(db, d, policy);
    AppliedParts(db, d, policy, now);
    if Applied(db, d, policy, now).Ok? {
      TablesLeft(db, d, policy, now, Applied(db, d, policy, now).value);
    }
  }

  /** A store made of the stages' results is the one described key by key. */
  lemma TablesLeft(db: Db, d: Decoded, policy: Policy, now: int, after: Db)
    requires RecordsOk(d) && AfterRulesets(db, d, policy).Ok?
    requires forall k: Key :: k.kind != ApiRuleset ==> Lookup(after.objects, k) == RowAfter(db, d, policy, k)
    requires forall k: Key :: k.kind == ApiRuleset ==> Lookup(after.objects, k) == Lookup(AfterRulesets(db, d, policy).value, k)
    requires after.secrets == PutSecrets(db.secrets, d.secrets, WriterFor(d, db, policy))
    requires forall id :: Lookup(after.history, id) == RecordAfter(db, d, policy, now, id)
    requires forall id :: Lookup(after.reports, id) == ReportAfter(db, d, policy, id)
    requires after.files == PutFiles(db.files, d.files)
    ensures Leaves(db, d, policy, now, after) && LeavesRulesets(db, d, policy, after)
  {
    forall id ensures Lookup(after.secrets, id) == SecretAfter(db, d, policy, id) {
      SecretsStage(db, d, policy, id);
    }
    forall h ensures Lookup(after.files, h) == FileAfter(db, d, h) {
      FilesStage(db, d, h);
    }
  }

  lemma FilesStage(db: Db, d: Decoded, h: Hash)
    ensures Lookup(PutFiles(db.files, d.files), h) == FileAfter(db, d, h)
  {
  }

  /** Once the plan checks pass, the writes go through exactly when nothing conflicts, and leave exactly this. */
  lemma AppliedOutcome(db: Db, d: Decoded, policy: Policy, now: int)
    requires Ready(db, d, policy)
    ensures Applied(db, d, policy, now).Ok? <==> !WritesConflict(db, d, policy)
    ensures Applied(db, d, policy, now).Ok? ==> Leaves(db, d, policy, now, Applied(db, d, policy, now).value)
    ensures Applied(db, d, policy, now).Ok? ==> LeavesRulesets(db, d, policy, Applied(db, d, policy, now).value)
  {
    ObjectStages(db, d, policy);
    TablesAfter(db, d, policy, now);
    ConflictIs(db, d, policy);
  }

  lemma ConflictIs(db: Db, d: Decoded, policy: Policy)
    ensures !WritesConflict(db, d, policy) <==>
      (forall e :: e in d.graph ==> !RevisionConflict(db, policy, e)) && (forall h :: h in d.history ==> !RecordConflict(db, policy, h))
  {
  }
}
