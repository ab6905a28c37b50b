/**
 * What an accepted restore keeps: a sound store, everything Merge finds
 * stored, and a lock policy no weaker than before.
 */
module RestoreKeeps {
  import opened Prelude
  import opened Store
  import opened Rulesets
  import opened BackupWrite
  import opened BackupRestore
  import opened BackupEffects
  import opened BackupOutcome
  import opened BackupGuarantees
  import opened RulesetOrder

  lemma SameMap<K, V>(a: map<K, V>, b: map<K, V>)
    requires forall k: K :: Lookup(a, k) == Lookup(b, k)
    ensures a == b
  {
    forall k ensures k in a <==> k in b {
      assert Lookup(a, k) == Lookup(b, k);
    }
    forall k | k in a ensures a[k] == b[k] {
      assert Lookup(a, k) == Lookup(b, k);
    }
  }

  /** The loop leaves a ruleset as it was, or makes it the backup's. */
  lemma LoopLeaves(o: Objects, next: real, rs: seq<Ruleset>, w: Writer, k: Key)
    requires DistinctRulesets(rs) && Below(o, next, w, rs) && k.kind == ApiRuleset && PutRulesets(o, o, next, rs, w).Ok?
    ensures var v := PutRulesets(o, o, next, rs, w).value;
      && (Keeps(w, ObjectItem(k)) || (forall r :: r in rs ==> RulesetKey(r) != k) ==> Lookup(v, k) == Lookup(o, k))
      && forall r :: r in rs && RulesetKey(r) == k && !Keeps(w, ObjectItem(k)) ==> k in v && v[k] == RulesetRow(r, v[k].sort)
  {
    var v := PutRulesets(o, o, next, rs, w).value;
    PutRulesetsAt(o, o, next, rs, w, k);
    ArrivalsOrder(rs, o, next);
    forall r | r in rs && RulesetKey(r) == k && !Keeps(w, ObjectItem(k)) ensures k in v && v[k] == RulesetRow(r, v[k].sort) {
      if k !in o {
        var p :| p in Arrivals(rs, o, next) && p.ruleset == r;
        assert Lookup(v, k) == Some(RulesetRow(p.ruleset, p.sort));
      } else {
        assert Lookup(v, k) == Some(RulesetRow(r, o[k].sort));
      }
    }
  }

  /** A ruleset row left by a restore was stored here, or is one of the backup's. */
  lemma RulesetRowLeft(db: Db, d: Decoded, policy: Policy, after: Db, k: Key)
    requires KeysOk(d) && DistinctRulesets(d.rulesets) && policy in {Merge, Replace}
    requires LeavesRulesets(db, d, policy, after) && k.kind == ApiRuleset
    ensures (policy == Merge && k in db.objects) || (forall r :: r in d.rulesets ==> RulesetKey(r) != k) ==>
      Lookup(after.objects, k) == Lookup(Base(db, d, policy), k)
    ensures forall r :: r in d.rulesets && RulesetKey(r) == k && !(policy == Merge && k in db.objects) ==>
      k in after.objects && after.objects[k] == RulesetRow(r, after.objects[k].sort)
  {
    var o, w := AfterSettings(db, d, policy), WriterFor(d, db, policy);
    StartsAbove(db, d, policy);
    SettingsLeaveRulesets(db, d, policy);
    assert Lookup(o, k) == Lookup(Base(db, d, policy), k);
    assert Lookup(after.objects, k) == Lookup(AfterRulesets(db, d, policy).value, k);
    KeepsObject(db, d, policy, k);
    LoopLeaves(o, TopOf(RulesetSorts(o)) + 1.0, d.rulesets, w, k);
  }

  lemma OwnRowsShaped(ws: Id, settings: Settings)
    ensures Shaped(DeviceSeal, SealRow(ws)) && SealRow(ws).owner == Some(ws)
    ensures Shaped(AppSettings, SettingsRow(settings))
  {
  }

  lemma StoredShaped(db: Db, k: Key)
    requires Valid(db) && k in db.objects
    ensures Shaped(k.kind, db.objects[k]) && (k.kind == AppSettings ==> k.id == SETTINGS_ID)
    ensures k.kind == DeviceSeal ==> db.objects[k].owner == Some(k.id)
  {
  }

  lemma RowShaped(db: Db, d: Decoded, policy: Policy, k: Key)
    requires Ready(db, d, policy) && k.kind != ApiRuleset && RowAfter(db, d, policy, k).Some?
    ensures Shaped(k.kind, RowAfter(db, d, policy, k).value)
    ensures k.kind == AppSettings ==> k.id == SETTINGS_ID
    ensures k.kind == DeviceSeal ==> RowAfter(db, d, policy, k).value.owner == Some(k.id)
  {
    var row := RowAfter(db, d, policy, k).value;
    if Lookup(db.objects, k) == Some(row) {
      StoredShaped(db, k);
    } else if k.kind == DeviceSeal {
      OwnRowsShaped(k.id, DEFAULT_SETTINGS);
    } else if k == SETTINGS_KEY {
      OwnRowsShaped(0, NewSettings(db, d, policy));
    } else {
      CarriedOwner(d, k);
    }
  }

  lemma RulesetShaped(db: Db, d: Decoded, policy: Policy, after: Db, k: Key)
    requires Valid(db) && KeysOk(d) && DistinctRulesets(d.rulesets) && policy in {Merge, Replace}
    requires LeavesRulesets(db, d, policy, after) && k.kind == ApiRuleset && k in after.objects
    ensures Shaped(ApiRuleset, after.objects[k])
  {
    RulesetRowLeft(db, d, policy, after, k);
    if k in db.objects {
      assert Shaped(ApiRuleset, db.objects[k]);
    }
    if r :| r in d.rulesets && RulesetKey(r) == k && !(policy == Merge && k in db.objects) {
      assert Shaped(ApiRuleset, RulesetRow(r, after.objects[k].sort));
    } else {
      assert Lookup(after.objects, k) == Lookup(Base(db, d, policy), k);
    }
  }

  /** A restore leaves a store as sound as it found it. */
  lemma RestoreKeepsValid(db: Db, d: Decoded, policy: Policy, approval: Approval, now: int, after: Db, report: Restored)
    requires Restores(db, d, policy, approval, now, after, report)
    ensures Valid(after)
  {
    RestoreLeaves(db, d, policy, approval, now, after, report);
    forall k | k in after.objects
      ensures Shaped(k.kind, after.objects[k])
      ensures k.kind == AppSettings ==> k.id == SETTINGS_ID
      ensures k.kind == DeviceSeal ==> after.objects[k].owner == Some(k.id)
    {
      if k.kind == ApiRuleset {
        RulesetShaped(db, d, policy, after, k);
      } else {
        assert Lookup(after.objects, k) == RowAfter(db, d, policy, k);
        RowShaped(db, d, policy, k);
      }
    }
  }

  /** A carried row is placed as itself, and is no seal, binding or app settings. */
  ghost predicate PlacedAsItself(d: Decoded, k: Key) {
    CarriedRow(d, k).Some? ==> SortedAsItself(k.kind, CarriedRow(d, k).value) && k.kind !in {DeviceSeal, LinkedFile, AppSettings}
  }

  lemma CarriedSorted(d: Decoded, k: Key)
    requires WellFormed(d)
    ensures PlacedAsItself(d, k)
  {
    if CarriedRow(d, k).Some? {
      CarriedOwner(d, k);
    }
  }

  lemma RowSorted(db: Db, d: Decoded, policy: Policy, k: Key)
    requires k.kind != ApiRuleset && RowAfter(db, d, policy, k).Some? && PlacedAsItself(d, k)
    requires WritesRow(db, d, policy, k) || RowAfter(db, d, policy, k) != Lookup(db.objects, k)
    ensures SortedAsItself(k.kind, RowAfter(db, d, policy, k).value)
  {
  }

  lemma LeftSorted(db: Db, d: Decoded, policy: Policy, now: int, after: Db, k: Key)
    requires Leaves(db, d, policy, now, after) && PlacedAsItself(d, k) && k in after.objects && k.kind != ApiRuleset
    requires WritesRow(db, d, policy, k) || Lookup(db.objects, k) != Some(after.objects[k])
    ensures SortedAsItself(k.kind, after.objects[k])
  {
    assert Lookup(after.objects, k) == RowAfter(db, d, policy, k);
    RowSorted(db, d, policy, k);
  }

  /**
   * Every folder, request and run report a restore writes is placed by the
   * sort key it carries itself; every other row it writes, rulesets aside, has
   * none of its own.
   */
  lemma RestoredSortKeys(db: Db, d: Decoded, policy: Policy, approval: Approval, now: int, after: Db, report: Restored, k: Key)
    requires Restores(db, d, policy, approval, now, after, report) && k in after.objects && k.kind != ApiRuleset
    requires WritesRow(db, d, policy, k) || Lookup(db.objects, k) != Some(after.objects[k])
    ensures k.kind in {Folder, Request, RunReport} ==> after.objects[k].sort == after.objects[k].value.sort
    ensures k.kind !in {Folder, Request, RunReport} ==> after.objects[k].sort == 0.0
  {
    RestoreLeaves(db, d, policy, approval, now, after, report);
    CarriedSorted(d, k);
    LeftSorted(db, d, policy, now, after, k);
  }

  /** Merge leaves every stored item a backup could carry exactly as it was. */
  lemma MergeKeepsStored(db: Db, d: Decoded, approval: Approval, now: int, after: Db, report: Restored)
    requires Restores(db, d, Merge, approval, now, after, report)
    ensures forall k :: k in db.objects && Carried(k.kind) ==> Lookup(after.objects, k) == Some(db.objects[k])
    ensures forall id :: id in db.secrets ==> Lookup(after.secrets, id) == Some(db.secrets[id])
    ensures forall id :: id in db.history ==> Lookup(after.history, id) == Some(db.history[id])
    ensures forall id :: id in db.reports ==> Lookup(after.reports, id) == Some(db.reports[id])
  {
    RestoreLeaves(db, d, Merge, approval, now, after, report);
    MergeKeepsRows(db, d, now, after);
    MergeKeepsTables(db, d, now, after);
  }

  lemma MergeKeepsRows(db: Db, d: Decoded, now: int, after: Db)
    requires KeysOk(d) && DistinctRulesets(d.rulesets) && Leaves(db, d, Merge, now, after) && LeavesRulesets(db, d, Merge, after)
    ensures forall k :: k in db.objects && Carried(k.kind) ==> Lookup(after.objects, k) == Some(db.objects[k])
  {
    forall k | k in db.objects && Carried(k.kind) ensures Lookup(after.objects, k) == Some(db.objects[k]) {
      if k.kind == ApiRuleset {
        RulesetRowLeft(db, d, Merge, after, k);
      } else {
        assert Lookup(after.objects, k) == RowAfter(db, d, Merge, k);
      }
    }
  }

  lemma MergeKeepsTables(db: Db, d: Decoded, now: int, after: Db)
    requires Leaves(db, d, Merge, now, after)
    ensures forall id :: id in db.secrets ==> Lookup(after.secrets, id) == Some(db.secrets[id])
    ensures forall id :: id in db.history ==> Lookup(after.history, id) == Some(db.history[id])
    ensures forall id :: id in db.reports ==> Lookup(after.reports, id) == Some(db.reports[id])
  {
    forall id | id in db.secrets ensures Lookup(after.secrets, id) == Some(db.secrets[id]) {
      assert Lookup(after.secrets, id) == SecretAfter(db, d, Merge, id);
    }
    forall id | id in db.history ensures Lookup(after.history, id) == Some(db.history[id]) {
      assert Lookup(after.history, id) == RecordAfter(db, d, Merge, now, id);
    }
    forall id | id in db.reports ensures Lookup(after.reports, id) == Some(db.reports[id]) {
      assert Lookup(after.reports, id) == ReportAfter(db, d, Merge, id);
    }
  }

  // ---------------------------------------------------- what is deleted

  /** The backup brings app settings, Replace writes them, and every workspace stored here is one of the backup's. */
  predicate BringsSettings(d: Decoded, db: Db, policy: Policy) {
    d.settings.Some? && policy != Merge && forall ws :: ws in StoredWorkspaces(db) ==> ws in Workspaces(d)
  }

  lemma WritesSettingsMeans(d: Decoded, db: Db, policy: Policy)
    ensures WritesSettings(d, db, policy) <==> BringsSettings(d, db, policy)
  {
    var outside := StoredWorkspaces(db) - Workspaces(d);
    forall ws | outside == {} && ws in StoredWorkspaces(db) ensures ws in Workspaces(d) {
      assert ws !in outside;
    }
  }

  /** A stored row a restore deletes: a binding of something it writes, or a ruleset it replaces them all without. */
  ghost predicate DeletesRow(db: Db, d: Decoded, policy: Policy, k: Key)
    requires k in db.objects
  {
    || (k.kind == LinkedFile && db.objects[k].value.data.BindingData?
        && RewritesReferrer(db, d, policy, db.objects[k].value.data.referrer.id))
    || (k.kind == ApiRuleset && BringsSettings(d, db, policy) && forall r :: r in d.rulesets ==> RulesetKey(r) != k)
  }

  /** A restore deletes exactly those rows, and no secret, record or report at all. */
  lemma RestoreDeletesExactly(db: Db, d: Decoded, policy: Policy, approval: Approval, now: int, after: Db, report: Restored)
    requires Restores(db, d, policy, approval, now, after, report)
    ensures forall k :: k in db.objects ==> (k !in after.objects <==> DeletesRow(db, d, policy, k))
    ensures db.secrets.Keys <= after.secrets.Keys && db.history.Keys <= after.history.Keys && db.reports.Keys <= after.reports.Keys
  {
    RestoreLeaves(db, d, policy, approval, now, after, report);
    RowsDeleted(db, d, policy, now, after);
    TablesKept(db, d, policy, now, after);
  }

  lemma RowsDeleted(db: Db, d: Decoded, policy: Policy, now: int, after: Db)
    requires KeysOk(d) && DistinctRulesets(d.rulesets) && policy in {Merge, Replace}
    requires Leaves(db, d, policy, now, after) && LeavesRulesets(db, d, policy, after)
    ensures forall k :: k in db.objects ==> (k !in after.objects <==> DeletesRow(db, d, policy, k))
  {
    WritesSettingsMeans(d, db, policy);
    forall k | k in db.objects ensures k !in after.objects <==> DeletesRow(db, d, policy, k) {
      if k.kind == ApiRuleset {
        RulesetRowLeft(db, d, policy, after, k);
      } else {
        assert Lookup(after.objects, k) == RowAfter(db, d, policy, k);
        RowDeleted(db, d, policy, k);
      }
    }
  }

  lemma RowDeleted(db: Db, d: Decoded, policy: Policy, k: Key)
    requires k in db.objects && k.kind != ApiRuleset
    ensures RowAfter(db, d, policy, k).None? <==> DeletesRow(db, d, policy, k)
  {
  }

  lemma TablesKept(db: Db, d: Decoded, policy: Policy, now: int, after: Db)
    requires Leaves(db, d, policy, now, after)
    ensures db.secrets.Keys <= after.secrets.Keys && db.history.Keys <= after.history.Keys && db.reports.Keys <= after.reports.Keys
  {
    forall id | id in db.secrets ensures id in after.secrets {
      assert Lookup(after.secrets, id) == SecretAfter(db, d, policy, id);
    }
    forall id | id in db.history ensures id in after.history {
      assert Lookup(after.history, id) == RecordAfter(db, d, policy, now, id);
    }
    forall id | id in db.reports ensures id in after.reports {
      assert Lookup(after.reports, id) == ReportAfter(db, d, policy, id);
    }
  }

  // ------------------------------------------------------------- rulesets

  /** The rulesets of `rs` that are not stored, in order. */
  function NotStored(rs: seq<Ruleset>, o: Objects): seq<Ruleset> {
    if rs == [] then []
    else (if Key(ApiRuleset, rs[0].id) in o then [] else [rs[0]]) + NotStored(rs[1..], o)
  }

  lemma {:induction false} ArrivingIsNotStored(rs: seq<Ruleset>, placed: set<Id>, skipped: set<Id>, o: Objects)
    requires forall r :: r in rs ==> (r.id in placed || r.id in skipped <==> Key(ApiRuleset, r.id) in o)
    ensures Arriving(rs, placed, skipped) == NotStored(rs, o)
  {
    if rs == [] {
    } else {
      assert rs[0] in rs;
      ArrivingIsNotStored(rs[1..], placed, skipped, o);
    }
  }

  lemma {:induction false} SurvivingAt(local: seq<Ruleset>, incoming: seq<Ruleset>, replacements: set<Id>)
    ensures var s := Surviving(local, incoming, replacements, true);
      && |s| == |local|
      && forall i :: 0 <= i < |s| ==>
           s[i] == if local[i].id in replacements && Find(incoming, local[i].id).Some? then Find(incoming, local[i].id).value else local[i]
  {
    if local == [] {
    } else {
      SurvivingAt(local[1..], incoming, replacements);
      SurvivingHead(local, incoming, replacements,
                    if local[0].id in replacements && Find(incoming, local[0].id).Some? then Find(incoming, local[0].id).value else local[0]);
    }
  }

  /** `now` is `was` with the rulesets of `rs` put over those of their ids. */
  ghost predicate ReplacedInPlace(was: seq<Ruleset>, now: seq<Ruleset>, rs: seq<Ruleset>) {
    && |now| == |was|
    && forall i :: 0 <= i < |was| ==> now[i].id == was[i].id && (now[i] in rs || (now[i] == was[i] && forall r :: r in rs ==> r.id != was[i].id))
  }

  /**
   * The rulesets an accepted restore leaves, in stored order. A restore that
   * writes the app settings leaves the backup's; any other leaves the stored
   * ones where they were, replaced under Replace, then the new ones.
   */
  lemma RestoredRulesets(db: Db, d: Decoded, policy: Policy, approval: Approval, now: int, after: Db, report: Restored)
    requires Restores(db, d, policy, approval, now, after, report)
    ensures BringsSettings(d, db, policy) ==> Listing(after.objects) == d.rulesets
    ensures !BringsSettings(d, db, policy) ==>
      var was, left := Listing(db.objects), Listing(after.objects);
      && |was| <= |left| && left[|was|..] == NotStored(d.rulesets, db.objects)
      && (if policy == Merge then left[..|was|] == was else ReplacedInPlace(was, left[..|was|], d.rulesets))
    ensures |Listing(after.objects)| <= 32 || |Listing(after.objects)| <= |Listing(db.objects)|
    ensures Size(Listing(after.objects)) <= 8388608 || Size(Listing(after.objects)) <= Size(Listing(db.objects))
  {
    RestoreLeaves(db, d, policy, approval, now, after, report);
    RestoredRulesetOrder(db, d, policy, approval, now, after, report);
    WithinLimitsMeans(Listing(after.objects), Listing(db.objects));
    CombinedMeans(db, d, policy);
  }

  lemma CombinedMeans(db: Db, d: Decoded, policy: Policy)
    requires DistinctRulesets(d.rulesets) && policy in {Merge, Replace}
    ensures BringsSettings(d, db, policy) ==> CombinedRulesets(d, db, policy, Listing(db.objects)) == d.rulesets
    ensures !BringsSettings(d, db, policy) ==>
      var was, left := Listing(db.objects), CombinedRulesets(d, db, policy, Listing(db.objects));
      && |was| <= |left| && left[|was|..] == NotStored(d.rulesets, db.objects)
      && (if policy == Merge then left[..|was|] == was else ReplacedInPlace(was, left[..|was|], d.rulesets))
  {
    WritesSettingsMeans(d, db, policy);
    var was := Listing(db.objects);
    if BringsSettings(d, db, policy) {
      SurvivingNone(was, d.rulesets);
      AllArrive(d.rulesets);
      assert Ids(was) * {} * Ids(d.rulesets) == {};
    } else {
      KeptCombined(db, d, policy, was);
    }
  }

  lemma {:induction false} AllArrive(rs: seq<Ruleset>)
    ensures Arriving(rs, {}, {}) == rs
  {
    if rs == [] {
    } else {
      AllArrive(rs[1..]);
    }
  }

  lemma KeptCombined(db: Db, d: Decoded, policy: Policy, was: seq<Ruleset>)
    requires DistinctRulesets(d.rulesets) && policy in {Merge, Replace} && !BringsSettings(d, db, policy)
    requires was == Listing(db.objects)
    ensures var left := CombinedRulesets(d, db, policy, was);
      && |was| <= |left| && left[|was|..] == NotStored(d.rulesets, db.objects)
      && (if policy == Merge then left[..|was|] == was else ReplacedInPlace(was, left[..|was|], d.rulesets))
  {
    WritesSettingsMeans(d, db, policy);
    var replacing := if policy == Replace then Ids(d.rulesets) else {};
    var skipped := SkippedIds(d, db, policy);
    forall r | r in d.rulesets ensures r.id in Ids(was) * replacing * Ids(d.rulesets) || r.id in skipped <==> Key(ApiRuleset, r.id) in db.objects {
      ListedIds(db.objects, r.id);
      assert r.id in Ids(d.rulesets);
      if policy == Merge && Key(ApiRuleset, r.id) in db.objects {
        assert Held(db, ObjectItem(RulesetKey(r)));
      }
      SkippedAre(db, d, policy, r);
    }
    ArrivingIsNotStored(d.rulesets, Ids(was) * replacing * Ids(d.rulesets), skipped, db.objects);
    SurvivingAt(was, d.rulesets, replacing);
    ReplacedMeans(was, d.rulesets, replacing);
  }

  lemma SkippedAre(db: Db, d: Decoded, policy: Policy, r: Ruleset)
    requires DistinctRulesets(d.rulesets) && r in d.rulesets
    ensures r.id in SkippedIds(d, db, policy) <==> policy == Merge && Key(ApiRuleset, r.id) in db.objects
  {
    assert RulesetKey(r) == Key(ApiRuleset, r.id);
  }

  lemma ReplacedMeans(was: seq<Ruleset>, rs: seq<Ruleset>, replacing: set<Id>)
    requires DistinctRulesets(rs) && (replacing == {} || replacing == Ids(rs))
    requires var s := Surviving(was, rs, replacing, true);
      && |s| == |was|
      && forall i :: 0 <= i < |s| ==>
           s[i] == if was[i].id in replacing && Find(rs, was[i].id).Some? then Find(rs, was[i].id).value else was[i]
    ensures replacing == {} ==> Surviving(was, rs, replacing, true) == was
    ensures replacing == Ids(rs) ==> ReplacedInPlace(was, Surviving(was, rs, replacing, true), rs)
  {
    forall i | 0 <= i < |was| ensures var f := Find(rs, was[i].id);
      (f.Some? ==> f.value in rs && f.value.id == was[i].id) && (f.None? ==> forall r :: r in rs ==> r.id != was[i].id)
    {
      FindIs(rs, was[i].id);
    }
  }

  // ------------------------------------------------- settings and the lock

  lemma SettingsLeft(db: Db, d: Decoded, policy: Policy, now: int, after: Db)
    requires Leaves(db, d, policy, now, after)
    ensures SettingsOf(after.objects) ==
      if WritesSettings(d, db, policy) then NewSettings(db, d, policy) else SettingsOf(db.objects)
  {
    assert Lookup(after.objects, SETTINGS_KEY) == RowAfter(db, d, policy, SETTINGS_KEY);
  }

  /** `next` locks no later than `was`, and wherever `was` does. */
  predicate ProtectsAsMuch(was: LockPolicy, next: LockPolicy) {
    && (was.idleMinutes != 0 ==> 0 < next.idleMinutes <= was.idleMinutes)
    && (was.lockOnOsLock ==> next.lockOnOsLock)
    && (was.clearClipboard ==> next.clearClipboard)
  }

  /**
   * A restore never weakens any protection of the lock policy in force. The
   * app settings it leaves are the backup's or the profile's own, and the
   * lock policy is withheld, and reported so, exactly where the backup's would
   * protect less.
   */
  lemma RestoreNeverWeakensLock(db: Db, d: Decoded, policy: Policy, approval: Approval, now: int, after: Db, report: Restored)
    requires Restores(db, d, policy, approval, now, after, report)
    ensures var was, next := SettingsOf(db.objects).lock, SettingsOf(after.objects).lock;
      && (was.idleMinutes != 0 ==> 0 < next.idleMinutes <= was.idleMinutes)
      && (was.lockOnOsLock ==> next.lockOnOsLock)
      && (was.clearClipboard ==> next.clearClipboard)
    ensures !BringsSettings(d, db, policy) ==> SettingsOf(after.objects) == SettingsOf(db.objects) && report.withheld.None?
    ensures BringsSettings(d, db, policy) && ProtectsAsMuch(SettingsOf(db.objects).lock, d.settings.value.lock) ==>
      SettingsOf(after.objects) == d.settings.value && report.withheld.None?
    ensures BringsSettings(d, db, policy) && !ProtectsAsMuch(SettingsOf(db.objects).lock, d.settings.value.lock) ==>
      SettingsOf(after.objects) == d.settings.value.(lock := SettingsOf(db.objects).lock) && report.withheld == Some(d.settings.value.lock)
  {
    RestoreLeaves(db, d, policy, approval, now, after, report);
    LockLeft(db, d, policy, now, after);
  }

  lemma LockLeft(db: Db, d: Decoded, policy: Policy, now: int, after: Db)
    requires Leaves(db, d, policy, now, after)
    ensures ProtectsAsMuch(SettingsOf(db.objects).lock, SettingsOf(after.objects).lock)
    ensures !BringsSettings(d, db, policy) ==> SettingsOf(after.objects) == SettingsOf(db.objects) && Withheld(d, db, policy).None?
    ensures BringsSettings(d, db, policy) && ProtectsAsMuch(SettingsOf(db.objects).lock, d.settings.value.lock) ==>
      SettingsOf(after.objects) == d.settings.value && Withheld(d, db, policy).None?
    ensures BringsSettings(d, db, policy) && !ProtectsAsMuch(SettingsOf(db.objects).lock, d.settings.value.lock) ==>
      && SettingsOf(after.objects) == d.settings.value.(lock := SettingsOf(db.objects).lock)
      && Withheld(d, db, policy) == Some(d.settings.value.lock)
  {
    SettingsLeft(db, d, policy, now, after);
    WritesSettingsMeans(d, db, policy);
  }
}
