/**
 * The plan against the effect: the three counts shown before a restore, and
 * the items it really creates, replaces and leaves alone.
 */
module PlanEffect {
  import opened Prelude
  import opened Store
  import opened Rulesets
  import opened BackupWrite
  import opened BackupRestore
  import opened BackupEffects
  import opened BackupOutcome
  import opened BackupGuarantees
  import opened RulesetOrder
  import opened RestoreKeeps

  predicate Unchanged(db: Db, after: Db, i: Item) {
    match i
    case ObjectItem(k) => Lookup(after.objects, k) == Lookup(db.objects, k)
    case SecretItem(id) => Lookup(after.secrets, id) == Lookup(db.secrets, id)
    case HistoryItem(id) => Lookup(after.history, id) == Lookup(db.history, id)
    case ReportItem(id) => Lookup(after.reports, id) == Lookup(db.reports, id)
  }

  /** `stored` is `rec`, dated no later than `now`, an empty body left out. */
  predicate AsRecorded(rec: Record, stored: Record, now: int) {
    && stored.workspace == rec.workspace && stored.request == rec.request && stored.content == rec.content
    && stored.body == (if rec.body == Some([]) then None else rec.body)
    && stored.startedAt <= now && stored.startedAt <= rec.startedAt && stored.startedAt in {now, rec.startedAt}
  }

  /** `after` holds the backup's version of the item. */
  ghost predicate HoldsBackups(db: Db, d: Decoded, policy: Policy, now: int, after: Db, i: Item) {
    match i
    case ObjectItem(k) =>
      && k in after.objects
      && (if k.kind == ApiRuleset then exists r :: r in d.rulesets && RulesetKey(r) == k && after.objects[k] == RulesetRow(r, after.objects[k].sort)
          else if k == SETTINGS_KEY then d.settings.Some? && after.objects[k] == SettingsRow(NewSettings(db, d, policy))
          else CarriedRow(d, k) == Some(after.objects[k]))
    case SecretItem(id) => CarriedSecret(d, id).Some? && Lookup(after.secrets, id) == CarriedSecret(d, id)
    case HistoryItem(id) =>
      CarriedRecord(d, id).Some? && id in after.history && AsRecorded(CarriedRecord(d, id).value, after.history[id], now)
    case ReportItem(id) => CarriedReport(d, id).Some? && Lookup(after.reports, id) == CarriedReport(d, id)
  }

  /** The items a restore leaves alone. */
  ghost predicate LeftAlone(db: Db, d: Decoded, policy: Policy, i: Item) {
    (policy == Merge && Held(db, i)) || (i == SETTINGS_ITEM && KeepsSettings(d, db, policy))
  }

  ghost function LeftAloneItems(db: Db, d: Decoded, policy: Policy): set<Item> {
    set i | i in d.items && LeftAlone(db, d, policy, i)
  }

  /** The items that were not here and are after the restore. */
  ghost function CreatedItems(db: Db, d: Decoded, after: Db): set<Item> {
    set i | i in d.items && !Held(db, i) && Held(after, i)
  }

  ghost function ReplacedItems(db: Db, d: Decoded, policy: Policy): set<Item> {
    set i | i in d.items && Held(db, i) && !LeftAlone(db, d, policy, i)
  }

  lemma CarriedItem(d: Decoded, i: Item)
    requires KeysOk(d) && i in Writes(d)
    ensures i.ObjectItem? ==> Carried(i.key.kind)
    ensures i.ObjectItem? && i.key.kind != ApiRuleset && i != SETTINGS_ITEM ==> CarriedRow(d, i.key).Some?
    ensures i.ObjectItem? && i.key.kind == ApiRuleset ==> exists r :: r in d.rulesets && RulesetKey(r) == i.key
    ensures i == SETTINGS_ITEM ==> d.settings.Some?
    ensures i.SecretItem? ==> CarriedSecret(d, i.id).Some?
    ensures i.HistoryItem? ==> CarriedRecord(d, i.id).Some?
    ensures i.ReportItem? ==> CarriedReport(d, i.id).Some?
  {
    if i.ObjectItem? {
      if e :| e in d.graph + d.trailing && ObjectItem(e.key) == i {
        assert e.key == i.key;
        CarriedKinds(d, i.key);
      }
    }
  }

  lemma RulesetItemOutcome(db: Db, d: Decoded, policy: Policy, now: int, after: Db, k: Key)
    requires KeysOk(d) && DistinctRulesets(d.rulesets) && policy in {Merge, Replace}
    requires LeavesRulesets(db, d, policy, after) && k.kind == ApiRuleset
    requires exists r :: r in d.rulesets && RulesetKey(r) == k
    ensures policy == Merge && k in db.objects ==> Lookup(after.objects, k) == Lookup(db.objects, k)
    ensures !(policy == Merge && k in db.objects) ==> HoldsBackups(db, d, policy, now, after, ObjectItem(k))
  {
    RulesetRowLeft(db, d, policy, after, k);
    var r :| r in d.rulesets && RulesetKey(r) == k;
  }

  lemma RowItemOutcome(db: Db, d: Decoded, policy: Policy, now: int, after: Db, k: Key)
    requires Carried(k.kind) && k.kind != ApiRuleset && policy in {Merge, Replace}
    requires Lookup(after.objects, k) == RowAfter(db, d, policy, k)
    requires if k == SETTINGS_KEY then d.settings.Some? else CarriedRow(d, k).Some?
    ensures (policy == Merge && k in db.objects) || (k == SETTINGS_KEY && KeepsSettings(d, db, policy)) ==>
      Lookup(after.objects, k) == Lookup(db.objects, k)
    ensures !(policy == Merge && k in db.objects) && !(k == SETTINGS_KEY && KeepsSettings(d, db, policy)) ==>
      HoldsBackups(db, d, policy, now, after, ObjectItem(k))
  {
  }

  lemma StoredObject(db: Db, d: Decoded, k: Key)
    requires KeysOk(d) && ObjectItem(k) in Writes(d)
    ensures Carried(k.kind) && (Held(db, ObjectItem(k)) <==> k in db.objects)
  {
    CarriedItem(d, ObjectItem(k));
  }

  /** What happens to one listed object row. */
  lemma ObjectItemOutcome(db: Db, d: Decoded, policy: Policy, now: int, after: Db, k: Key)
    requires KeysOk(d) && DistinctRulesets(d.rulesets) && policy in {Merge, Replace}
    requires k.kind != ApiRuleset ==> Lookup(after.objects, k) == RowAfter(db, d, policy, k)
    requires LeavesRulesets(db, d, policy, after)
    requires ObjectItem(k) in Writes(d)
    ensures LeftAlone(db, d, policy, ObjectItem(k)) ==> Lookup(after.objects, k) == Lookup(db.objects, k)
    ensures !LeftAlone(db, d, policy, ObjectItem(k)) ==> HoldsBackups(db, d, policy, now, after, ObjectItem(k))
  {
    CarriedItem(d, ObjectItem(k));
    StoredObject(db, d, k);
    if k.kind == ApiRuleset {
      RulesetItemOutcome(db, d, policy, now, after, k);
    } else {
      RowItemOutcome(db, d, policy, now, after, k);
    }
  }

  /** What happens to one listed secret, record or report. */
  lemma RecordItemOutcome(db: Db, d: Decoded, policy: Policy, now: int, after: Db, i: Item)
    requires Leaves(db, d, policy, now, after) && KeysOk(d)
    requires !i.ObjectItem? && i in Writes(d)
    ensures LeftAlone(db, d, policy, i) ==> Unchanged(db, after, i)
    ensures !LeftAlone(db, d, policy, i) ==> HoldsBackups(db, d, policy, now, after, i)
  {
    CarriedItem(d, i);
    match i
    case SecretItem(id) => assert Lookup(after.secrets, id) == SecretAfter(db, d, policy, id);
    case HistoryItem(id) => assert Lookup(after.history, id) == RecordAfter(db, d, policy, now, id);
    case ReportItem(id) => assert Lookup(after.reports, id) == ReportAfter(db, d, policy, id);
  }

  /** What happens to one listed item: it is left alone, or becomes the backup's. */
  lemma ItemOutcome(db: Db, d: Decoded, policy: Policy, now: int, after: Db, i: Item)
    requires KeysOk(d) && DistinctRulesets(d.rulesets) && policy in {Merge, Replace}
    requires Leaves(db, d, policy, now, after) && LeavesRulesets(db, d, policy, after)
    requires i in Writes(d)
    ensures LeftAlone(db, d, policy, i) ==> Unchanged(db, after, i)
    ensures !LeftAlone(db, d, policy, i) ==> HoldsBackups(db, d, policy, now, after, i)
  {
    if i.ObjectItem? {
      assert i.key.kind != ApiRuleset ==> Lookup(after.objects, i.key) == RowAfter(db, d, policy, i.key);
      ObjectItemOutcome(db, d, policy, now, after, i.key);
    } else {
      RecordItemOutcome(db, d, policy, now, after, i);
    }
  }

  /** Merge counts app settings it never writes as created, while none are stored. */
  ghost predicate CountsUnwrittenSettings(db: Db, d: Decoded, policy: Policy) {
    policy == Merge && d.settings.Some? && SETTINGS_KEY !in db.objects
  }

  /** Which of the three kinds an item is. */
  lemma PartOf(db: Db, d: Decoded, policy: Policy, now: int, after: Db, i: Item)
    requires KeysOk(d) && DistinctRulesets(d.rulesets) && policy in {Merge, Replace}
    requires Leaves(db, d, policy, now, after) && LeavesRulesets(db, d, policy, after)
    requires i in Writes(d)
    ensures !Held(db, i) ==> (Held(after, i) <==> !LeftAlone(db, d, policy, i))
  {
    CarriedItem(d, i);
    ItemOutcome(db, d, policy, now, after, i);
    HeldOutcome(db, d, policy, now, after, i);
  }

  lemma HeldOutcome(db: Db, d: Decoded, policy: Policy, now: int, after: Db, i: Item)
    requires i.ObjectItem? ==> Carried(i.key.kind)
    ensures HoldsBackups(db, d, policy, now, after, i) ==> Held(after, i)
    ensures Unchanged(db, after, i) ==> (Held(after, i) <==> Held(db, i))
  {
  }

  /** The items of `w` that are stored. */
  ghost function HeldAmong(w: set<Item>, db: Db): set<Item> {
    set i | i in w && Held(db, i)
  }

  /** The items of `w` a restore leaves alone. */
  ghost function AloneAmong(w: set<Item>, db: Db, d: Decoded, policy: Policy): set<Item> {
    (if policy == Merge then HeldAmong(w, db) else {}) + (if KeepsSettings(d, db, policy) then {SETTINGS_ITEM} else {})
  }

  /** The three kinds of item, as sets. */
  lemma PartsAre(db: Db, d: Decoded, policy: Policy, now: int, after: Db, w: set<Item>)
    requires KeysOk(d) && DistinctRulesets(d.rulesets) && policy in {Merge, Replace}
    requires Leaves(db, d, policy, now, after) && LeavesRulesets(db, d, policy, after)
    requires w == Writes(d) && (forall i :: i in d.items <==> i in w) && (KeepsSettings(d, db, policy) ==> SETTINGS_ITEM in w)
    ensures var s, alone := HeldAmong(w, db), AloneAmong(w, db, d, policy);
      && CreatedItems(db, d, after) == w - s - alone
      && ReplacedItems(db, d, policy) == s - alone
      && LeftAloneItems(db, d, policy) == alone
  {
    forall i | i in w ensures !Held(db, i) ==> (Held(after, i) <==> !LeftAlone(db, d, policy, i)) {
      PartOf(db, d, policy, now, after, i);
    }
    PartSets(db, d, policy, after, w);
  }

  lemma PartSets(db: Db, d: Decoded, policy: Policy, after: Db, w: set<Item>)
    requires (forall i :: i in d.items <==> i in w) && (KeepsSettings(d, db, policy) ==> SETTINGS_ITEM in w)
    requires forall i :: i in w && !Held(db, i) ==> (Held(after, i) <==> !LeftAlone(db, d, policy, i))
    ensures var s, alone := HeldAmong(w, db), AloneAmong(w, db, d, policy);
      && CreatedItems(db, d, after) == w - s - alone
      && ReplacedItems(db, d, policy) == s - alone
      && LeftAloneItems(db, d, policy) == alone
  {
    forall i | i in w ensures LeftAlone(db, d, policy, i) <==> i in AloneAmong(w, db, d, policy) {}
  }

  /** The counts of a plan, as sizes of sets. */
  lemma CountsAre(db: Db, d: Decoded, policy: Policy, w: set<Item>)
    requires NoDup(d.items) && Elements(d.items) == w && ListsSettings(d) && policy in {Merge, Replace}
    ensures var p := RestorePlan(d, db, policy);
      var n, c := |w|, |HeldAmong(w, db)|;
      var kept := policy == Replace && KeepsSettings(d, db, policy);
      && p.toCreate + p.toReplace + p.skipped == |d.items|
      && p.toCreate == n - c - (if kept && !Held(db, SETTINGS_ITEM) then 1 else 0)
      && p.toReplace == (if policy == Merge then 0 else if kept && Held(db, SETTINGS_ITEM) then c - 1 else c)
      && p.skipped == (if policy == Merge then c else if kept then 1 else 0)
  {
    ClashingCount(d.items, db);
    NoDupCardinality(d.items);
    NoDupCardinality(Clashing(d.items, db));
    assert Elements(Clashing(d.items, db)) == HeldAmong(w, db);
  }

  lemma Difference<T>(a: set<T>, b: set<T>)
    requires b <= a
    ensures |a - b| == |a| - |b|
  {
    assert a == (a - b) + b;
  }

  lemma MergeSizes<T>(w: set<T>, s: set<T>, x: T, kept: bool)
    requires s <= w && (kept ==> x in w)
    ensures var alone := s + (if kept then {x} else {});
      var extra := if kept && x !in s then 1 else 0;
      |w - s - alone| == |w| - |s| - extra && |s - alone| == 0 && |alone| == |s| + extra
  {
    var alone := s + (if kept then {x} else {});
    var extra := if kept && x !in s then {x} else {};
    assert alone == s + extra;
    assert w - s - alone == w - alone;
    Difference(w, alone);
    assert s - alone == {};
  }

  lemma ReplaceSizes<T>(w: set<T>, s: set<T>, x: T, kept: bool)
    requires s <= w && (kept ==> x in w)
    ensures var alone := if kept then {x} else {};
      && |w - s - alone| == |w| - |s| - (if kept && x !in s then 1 else 0)
      && |s - alone| == |s| - (if kept && x in s then 1 else 0)
      && |alone| == (if kept then 1 else 0)
  {
    Difference(w, s);
    if !kept {
      assert w - s - {} == w - s && s - {} == s;
    } else if x in s {
      assert w - s - {x} == w - s;
      Difference(s, {x});
    } else {
      assert s - {x} == s;
      Difference(w - s, {x});
    }
  }

  /** The sizes of the three sets. */
  lemma PartSizes(db: Db, d: Decoded, policy: Policy, now: int, after: Db, w: set<Item>)
    requires KeysOk(d) && DistinctRulesets(d.rulesets) && policy in {Merge, Replace}
    requires Leaves(db, d, policy, now, after) && LeavesRulesets(db, d, policy, after)
    requires w == Writes(d) && (forall i :: i in d.items <==> i in w) && (KeepsSettings(d, db, policy) ==> SETTINGS_ITEM in w)
    ensures var n, c := |w|, |HeldAmong(w, db)|;
      var kept, merge := KeepsSettings(d, db, policy), policy == Merge;
      var extra := kept && !Held(db, SETTINGS_ITEM);
      && |CreatedItems(db, d, after)| == n - c - (if extra then 1 else 0)
      && |ReplacedItems(db, d, policy)| == (if merge then 0 else if kept && !extra then c - 1 else c)
      && |LeftAloneItems(db, d, policy)| == (if merge then c + (if extra then 1 else 0) else if kept then 1 else 0)
  {
    PartsAre(db, d, policy, now, after, w);
    AloneSizes(db, d, policy, w);
  }

  lemma AloneSizes(db: Db, d: Decoded, policy: Policy, w: set<Item>)
    requires policy in {Merge, Replace} && (KeepsSettings(d, db, policy) ==> SETTINGS_ITEM in w)
    ensures var s, alone := HeldAmong(w, db), AloneAmong(w, db, d, policy);
      var n, c, kept, merge := |w|, |s|, KeepsSettings(d, db, policy), policy == Merge;
      var extra := kept && !Held(db, SETTINGS_ITEM);
      && |w - s - alone| == n - c - (if extra then 1 else 0)
      && |s - alone| == (if merge then 0 else if kept && !extra then c - 1 else c)
      && |alone| == (if merge then c + (if extra then 1 else 0) else if kept then 1 else 0)
  {
    if policy == Merge {
      MergeSizes(w, HeldAmong(w, db), SETTINGS_ITEM, KeepsSettings(d, db, policy));
    } else {
      ReplaceSizes(w, HeldAmong(w, db), SETTINGS_ITEM, KeepsSettings(d, db, policy));
      assert AloneAmong(w, db, d, policy) == if KeepsSettings(d, db, policy) then {SETTINGS_ITEM} else {};
    }
  }

  lemma PlanSizes(db: Db, d: Decoded, policy: Policy, now: int, after: Db)
    requires KeysOk(d) && DistinctRulesets(d.rulesets) && policy in {Merge, Replace}
    requires Leaves(db, d, policy, now, after) && LeavesRulesets(db, d, policy, after)
    requires NoDup(d.items) && Elements(d.items) == Writes(d) && ListsSettings(d)
    ensures var p := RestorePlan(d, db, policy);
      var extra := if CountsUnwrittenSettings(db, d, policy) then 1 else 0;
      && p.toCreate + p.toReplace + p.skipped == |d.items|
      && p.toReplace == |ReplacedItems(db, d, policy)|
      && p.toCreate == |CreatedItems(db, d, after)| + extra
      && p.skipped == |LeftAloneItems(db, d, policy)| - extra
  {
    var w := Elements(d.items);
    assert forall i :: i in d.items <==> i in w;
    PartSizes(db, d, policy, now, after, w);
    CountsAre(db, d, policy, w);
    SettingsKept(db, d, policy);
  }

  lemma SettingsKept(db: Db, d: Decoded, policy: Policy)
    requires policy in {Merge, Replace}
    ensures Held(db, SETTINGS_ITEM) <==> SETTINGS_KEY in db.objects
    ensures policy == Merge ==> (KeepsSettings(d, db, policy) <==> d.settings.Some?)
  {
  }

  /**
   * The plan lists what is stored here in the order of the backup's items,
   * each once, and names what is stored under other owners. It adds up, and its
   * numbers are exactly the numbers of items the restore creates, replaces and
   * leaves alone, app settings that Merge counts as created without writing
   * them aside.
   */
  lemma PlanMatchesEffect(db: Db, d: Decoded, policy: Policy, approval: Approval, now: int, after: Db, report: Restored)
    requires Restores(db, d, policy, approval, now, after, report)
    ensures ListsConflicts(db, d.items, report.plan.conflicts) && NoDup(report.plan.conflicts.listed)
    ensures report.plan.policy == policy && NamesForeign(d, db, report.plan)
    ensures report.plan.toCreate + report.plan.toReplace + report.plan.skipped == |d.items|
    ensures report.plan.toReplace == |ReplacedItems(db, d, policy)|
    ensures var extra := if CountsUnwrittenSettings(db, d, policy) then 1 else 0;
      && report.plan.toCreate == |CreatedItems(db, d, after)| + extra
      && report.plan.skipped == |LeftAloneItems(db, d, policy)| - extra
  {
    RestoreLeaves(db, d, policy, approval, now, after, report);
    ReportedPlan(db, d, policy, approval, now, after, report);
    PlanSizes(db, d, policy, now, after);
    ReportedSays(db, d, policy, report.plan);
  }

  lemma ReportedPlan(db: Db, d: Decoded, policy: Policy, approval: Approval, now: int, after: Db, report: Restored)
    requires Restores(db, d, policy, approval, now, after, report)
    ensures ListsSettings(d) && NoDup(d.items) && report.plan == RestorePlan(d, db, policy)
  {
  }

  lemma ReportedSays(db: Db, d: Decoded, policy: Policy, p: Plan)
    requires ListsSettings(d) && NoDup(d.items) && p == RestorePlan(d, db, policy)
    ensures ListsConflicts(db, d.items, p.conflicts) && NoDup(p.conflicts.listed)
    ensures p.policy == policy && NamesForeign(d, db, p)
  {
    PlanSays(d, db, policy);
  }

  /** Each listed item ends up as the count it is in says. */
  lemma PlanItemsMatchEffect(db: Db, d: Decoded, policy: Policy, approval: Approval, now: int, after: Db, report: Restored, i: Item)
    requires Restores(db, d, policy, approval, now, after, report) && i in d.items
    ensures i in LeftAloneItems(db, d, policy) ==> Unchanged(db, after, i)
    ensures i in CreatedItems(db, d, after) + ReplacedItems(db, d, policy) ==> HoldsBackups(db, d, policy, now, after, i)
    ensures i in CreatedItems(db, d, after) + ReplacedItems(db, d, policy) + LeftAloneItems(db, d, policy)
  {
    RestoreLeaves(db, d, policy, approval, now, after, report);
    assert i in Elements(d.items);
    ListedItemOutcome(db, d, policy, now, after, i);
  }

  lemma ListedItemOutcome(db: Db, d: Decoded, policy: Policy, now: int, after: Db, i: Item)
    requires KeysOk(d) && DistinctRulesets(d.rulesets) && policy in {Merge, Replace}
    requires Leaves(db, d, policy, now, after) && LeavesRulesets(db, d, policy, after)
    requires i in d.items && i in Writes(d)
    ensures i in LeftAloneItems(db, d, policy) ==> Unchanged(db, after, i)
    ensures i in CreatedItems(db, d, after) + ReplacedItems(db, d, policy) ==> HoldsBackups(db, d, policy, now, after, i)
    ensures i in CreatedItems(db, d, after) + ReplacedItems(db, d, policy) + LeftAloneItems(db, d, policy)
  {
    ItemOutcome(db, d, policy, now, after, i);
    PartOf(db, d, policy, now, after, i);
    ItemPart(db, d, policy, after, i);
  }

  /** Which part of the plan a listed item is in. */
  lemma ItemPart(db: Db, d: Decoded, policy: Policy, after: Db, i: Item)
    requires i in d.items
    ensures i in LeftAloneItems(db, d, policy) <==> LeftAlone(db, d, policy, i)
    ensures i in CreatedItems(db, d, after) <==> !Held(db, i) && Held(after, i)
    ensures i in ReplacedItems(db, d, policy) <==> Held(db, i) && !LeftAlone(db, d, policy, i)
  {
  }

  /** A backup of nothing but app settings. */
  const ONLY_SETTINGS := Decoded([], Some(DEFAULT_SETTINGS), [], [], [], map[], [], [], [SETTINGS_ITEM], {})

  const NOBODY := Approval({}, None)

  lemma OnlySettingsFits()
    ensures WellFormed(ONLY_SETTINGS) && Valid(EMPTY)
  {
    assert Writes(ONLY_SETTINGS) == {SETTINGS_ITEM};
    assert Elements(ONLY_SETTINGS.items) == {SETTINGS_ITEM};
  }

  /** Without incoming rulesets a restore adds none, so no limit is met. */
  lemma NoRulesetsWithinLimits(db: Db, d: Decoded, policy: Policy)
    requires d.rulesets == []
    ensures WithinLimits(CombinedRulesets(d, db, policy, Listing(db.objects)), Listing(db.objects))
  {
    var local, retain := Listing(db.objects), policy != Replace || KeepsRulesets(d, db, policy);
    assert Ids([]) == {};
    SurvivingAll(local, retain);
    assert Arriving([], Ids(local) * {} * Ids([]), SkippedIds(d, db, policy)) == [];
    assert CombinedRulesets(d, db, policy, local) == if retain then local else [];
  }

  lemma OnlySettingsAccepted()
    ensures Acceptable(EMPTY, ONLY_SETTINGS, Merge, NOBODY)
  {
    NoRulesetsWithinLimits(EMPTY, ONLY_SETTINGS, Merge);
    assert Workspaces(ONLY_SETTINGS) == {};
  }

  lemma OnlySettingsRow(k: Key)
    ensures k.kind != ApiRuleset ==> RowAfter(EMPTY, ONLY_SETTINGS, Merge, k).None?
  {
    assert CarriedRow(ONLY_SETTINGS, k).None?;
    assert Workspaces(ONLY_SETTINGS) == {};
  }

  /** Merged into an empty profile, it is planned as one item to create, and nothing is created. */
  lemma MergePlanCanOvercount(now: int)
    ensures var r := Transaction(EMPTY, ONLY_SETTINGS, Merge, NOBODY, now);
      r.Ok? && r.value.0.objects == map[] && r.value.1.plan.toCreate == 1
  {
    OnlySettingsFits();
    OnlySettingsAccepted();
    RestoreAcceptedExactly(EMPTY, ONLY_SETTINGS, Merge, NOBODY, now);
    var r := Transaction(EMPTY, ONLY_SETTINGS, Merge, NOBODY, now).value;
    RestoreLeaves(EMPTY, ONLY_SETTINGS, Merge, NOBODY, now, r.0, r.1);
    NothingCreated(now, r.0);
  }

  lemma NothingCreated(now: int, after: Db)
    requires KeysOk(ONLY_SETTINGS) && Leaves(EMPTY, ONLY_SETTINGS, Merge, now, after)
    requires LeavesRulesets(EMPTY, ONLY_SETTINGS, Merge, after)
    ensures after.objects == map[] && RestorePlan(ONLY_SETTINGS, EMPTY, Merge).toCreate == 1
  {
    forall k: Key ensures Lookup(after.objects, k) == Lookup(EMPTY.objects, k) {
      if k.kind == ApiRuleset {
        RulesetRowLeft(EMPTY, ONLY_SETTINGS, Merge, after, k);
      } else {
        OnlySettingsRow(k);
        assert Lookup(after.objects, k) == RowAfter(EMPTY, ONLY_SETTINGS, Merge, k);
      }
    }
    SameMap(after.objects, EMPTY.objects);
    assert Clashing([SETTINGS_ITEM], EMPTY) == [] + Clashing([], EMPTY);
  }

  lemma {:induction false} SurvivingAll(local: seq<Ruleset>, retain: bool)
    ensures Surviving(local, [], {}, retain) == if retain then local else []
  {
    if local == [] {
    } else {
      SurvivingAll(local[1..], retain);
    }
  }
}
