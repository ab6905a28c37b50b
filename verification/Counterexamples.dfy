/**
 * Statements that read as if they always held, and stores and backups on
 * which they do not.
 */
module Counterexamples {
  import opened Prelude
  import opened Guards
  import opened Store
  import opened Rulesets
  import opened BackupWrite
  import opened BackupRestore
  import opened BackupEffects
  import opened BackupOutcome
  import opened BackupGuarantees
  import opened RestoreKeeps
  import opened PlanEffect
  import opened SpecNamespaces

  const LAYER := Value(0.0, LayerGuard(NO_OVERRIDES, Inherit), Plain(0))
  const ASKED := Value(0.0, RequestGuard(NO_OVERRIDES, Inherit, None), FilesData({}, 0))

  function WorkspaceEntry(id: Id): Entry {
    Entry(Key(Workspace, id), Row(None, None, 0.0, LAYER))
  }

  function RequestEntry(id: Id, ws: Id): Entry {
    Entry(Key(Request, id), Row(Some(ws), None, 0.0, ASKED))
  }

  function RevisionEntry(id: Id, request: Id, ws: Id): Entry {
    Entry(Key(Revision, id), Row(Some(ws), Some(request), 0.0, LAYER))
  }

  // A backup of workspace 2 with request 4, its revision 6 and its record 7.

  const WORKSPACE_2 := WorkspaceEntry(2)
  const REQUEST_4 := RequestEntry(4, 2)
  const REVISION_6 := RevisionEntry(6, 4, 2)
  const RECORD_7 := RecordEntry(7, Record(Some(2), Some(4), 0, 0, None))
  const ONE_REQUEST := Decoded([WORKSPACE_2, REQUEST_4, REVISION_6], None, [], [], [], map[], [RECORD_7], [],
                               [ObjectItem(WORKSPACE_2.key), ObjectItem(REQUEST_4.key), ObjectItem(REVISION_6.key), HistoryItem(7)], {})

  const APPROVED := Approval({2}, Some(Dangling(0)))

  lemma OneRequestEntries(d: Decoded)
    requires d == ONE_REQUEST
    ensures forall e :: e in d.graph <==> e == WORKSPACE_2 || e == REQUEST_4 || e == REVISION_6
    ensures d.trailing == [] && d.graph + d.trailing == d.graph && Workspaces(d) == {2}
    ensures forall h :: h in d.history <==> h == RECORD_7
  {
    assert d.graph[0] == WORKSPACE_2 && d.graph[1] == REQUEST_4 && d.graph[2] == REVISION_6;
    assert d.history[0] == RECORD_7;
    assert d.graph == [WORKSPACE_2, REQUEST_4, REVISION_6];
    assert WORKSPACE_2 in d.graph;
  }

  lemma OneRequestRow(e: Entry)
    requires e == WORKSPACE_2 || e == REQUEST_4 || e == REVISION_6
    ensures GraphKind(e.key.kind) && RowOk(e, {2})
  {
  }

  lemma OneRequestGraph(d: Decoded)
    requires d == ONE_REQUEST
    ensures GraphOk(d.graph, {2}) && DistinctKeys(d.graph)
  {
    OneRequestEntries(d);
    forall e | e in d.graph ensures GraphKind(e.key.kind) && RowOk(e, {2}) {
      OneRequestRow(e);
    }
    assert REQUEST_4 in d.graph;
    assert HasRequest(d.graph, REVISION_6);
  }

  lemma OneRequestItems(d: Decoded)
    requires d == ONE_REQUEST
    ensures NoDup(d.items) && Elements(d.items) == Writes(d) && ListsSettings(d)
  {
    OneRequestEntries(d);
    var a, b, c, h := ObjectItem(WORKSPACE_2.key), ObjectItem(REQUEST_4.key), ObjectItem(REVISION_6.key), HistoryItem(7);
    assert Writes(d) == {a, b, c, h};
    assert Elements(d.items) == {a, b, c, h};
  }

  lemma OneRequestIsWellFormed(d: Decoded)
    requires d == ONE_REQUEST
    ensures WellFormed(d)
  {
    OneRequestEntries(d);
    OneRequestGraph(d);
    OneRequestItems(d);
  }

  /** Workspace 2 as the backup has it, and request 5 beside request 4. */
  const TWO_REQUESTS: Objects := map[
    WORKSPACE_2.key := WORKSPACE_2.row, REQUEST_4.key := REQUEST_4.row, Key(Request, 5) := REQUEST_4.row]
  const RECORD_ELSEWHERE := EMPTY.(objects := TWO_REQUESTS, history := map[7 := RECORD_7.record.(request := Some(5))])
  const REVISION_ELSEWHERE := EMPTY.(objects := TWO_REQUESTS[REVISION_6.key := REVISION_6.row.(parent := Some(5))])

  /** Request 4 in another workspace than the backup's, which is not stored. */
  const REQUEST_ELSEWHERE := EMPTY.(objects := map[
    Key(Workspace, 3) := WORKSPACE_2.row, REQUEST_4.key := REQUEST_4.row.(owner := Some(3))])

  lemma StoreIsValid(db: Db)
    requires db == RECORD_ELSEWHERE || db == REVISION_ELSEWHERE || db == REQUEST_ELSEWHERE
    ensures Valid(db)
  {
    forall k | k in db.objects ensures Shaped(k.kind, db.objects[k]) && k.kind !in {AppSettings, DeviceSeal} {
    }
  }

  lemma ReplaceAtHome(db: Db, d: Decoded)
    requires d == ONE_REQUEST && (db == RECORD_ELSEWHERE || db == REVISION_ELSEWHERE)
    ensures ItemsAtHome(d, db) && SecretsAtHome(d, db)
  {
    OneRequestEntries(d);
  }

  lemma ReplaceChecks(db: Db, d: Decoded)
    requires d == ONE_REQUEST && (db == RECORD_ELSEWHERE || db == REVISION_ELSEWHERE)
    ensures ChecksHold(db, d, Replace, APPROVED)
  {
    OneRequestEntries(d);
    ReplaceAtHome(db, d);
  }

  lemma MergeChecks(db: Db, d: Decoded)
    requires d == ONE_REQUEST && db == REQUEST_ELSEWHERE
    ensures ChecksHold(db, d, Merge, NOBODY)
  {
    OneRequestEntries(d);
    assert 2 !in StoredWorkspaces(db);
  }

  /** Replace: every check on the plan passes, and a stored record of another request stops the write. */
  lemma RecordConflictRefuses(db: Db, d: Decoded, now: int)
    requires db == RECORD_ELSEWHERE && d == ONE_REQUEST
    ensures Valid(db) && WellFormed(d) && PlanRefusal(d, db, Replace, APPROVED).None?
    ensures Transaction(db, d, Replace, APPROVED, now).Err? && Transaction(db, d, Replace, APPROVED, now).error.StoreRefused?
  {
    OneRequestIsWellFormed(d);
    OneRequestEntries(d);
    StoreIsValid(db);
    ReplaceChecks(db, d);
    ChecksPass(db, d, Replace, APPROVED);
    assert RecordConflict(db, Replace, RECORD_7);
    NoRulesetsWithinLimits(db, d, Replace);
    ConflictIsRefused(db, d, Replace, APPROVED, now);
  }

  /** Replace: the same of a stored revision of another request. */
  lemma RevisionConflictRefuses(db: Db, d: Decoded, now: int)
    requires db == REVISION_ELSEWHERE && d == ONE_REQUEST
    ensures Valid(db) && WellFormed(d) && PlanRefusal(d, db, Replace, APPROVED).None?
    ensures Transaction(db, d, Replace, APPROVED, now).Err? && Transaction(db, d, Replace, APPROVED, now).error.StoreRefused?
  {
    OneRequestIsWellFormed(d);
    OneRequestEntries(d);
    StoreIsValid(db);
    ReplaceChecks(db, d);
    ChecksPass(db, d, Replace, APPROVED);
    assert RevisionConflict(db, Replace, REVISION_6);
    NoRulesetsWithinLimits(db, d, Replace);
    ConflictIsRefused(db, d, Replace, APPROVED, now);
  }

  /** Merge: a new revision, whose request is kept here in another workspace, stops the write. */
  lemma KeptRequestRefuses(db: Db, d: Decoded, now: int)
    requires db == REQUEST_ELSEWHERE && d == ONE_REQUEST
    ensures Valid(db) && WellFormed(d) && PlanRefusal(d, db, Merge, NOBODY).None?
    ensures Transaction(db, d, Merge, NOBODY, now).Err? && Transaction(db, d, Merge, NOBODY, now).error.StoreRefused?
  {
    OneRequestIsWellFormed(d);
    OneRequestEntries(d);
    StoreIsValid(db);
    MergeChecks(db, d);
    ChecksPass(db, d, Merge, NOBODY);
    assert RevisionConflict(db, Merge, REVISION_6);
    NoRulesetsWithinLimits(db, d, Merge);
    ConflictIsRefused(db, d, Merge, NOBODY, now);
  }

  // Replace restores only settings into a profile with one ruleset and no workspace.

  const ONE_RULESET := EMPTY.(objects := map[Key(ApiRuleset, 5) := RulesetRow(Ruleset(5, Names(1, 1), 0, 0), 0.0)])

  lemma OneRulesetIsValid(db: Db)
    requires db == ONE_RULESET
    ensures Valid(db)
  {
  }

  lemma SettingsReplaceChecks(db: Db, d: Decoded)
    requires d == ONLY_SETTINGS
    ensures ChecksHold(db, d, Replace, NOBODY) && !WritesConflict(db, d, Replace)
  {
    assert d.graph == [] && d.trailing == [] && d.rulesets == [] && d.history == [] && d.reports == [] && d.secrets == [];
    assert d.graph + d.trailing == [] && Workspaces(d) == {};
  }

  lemma SettingsReplaceAccepted(db: Db, d: Decoded)
    requires d == ONLY_SETTINGS
    ensures Acceptable(db, d, Replace, NOBODY)
  {
    SettingsReplaceChecks(db, d);
    NoRulesetsWithinLimits(db, d, Replace);
  }

  lemma AcceptedDeletes(db: Db, d: Decoded, policy: Policy, approval: Approval, now: int, k: Key)
    requires Valid(db) && WellFormed(d) && policy in {Merge, Replace} && Acceptable(db, d, policy, approval)
    requires k in db.objects && DeletesRow(db, d, policy, k)
    ensures var r := Transaction(db, d, policy, approval, now); r.Ok? && k !in r.value.0.objects
  {
    RestoreAcceptedExactly(db, d, policy, approval, now);
    var r := Transaction(db, d, policy, approval, now).value;
    RestoreDeletesExactly(db, d, policy, approval, now, r.0, r.1);
  }

  lemma SettingsReplaceDeletes(db: Db, d: Decoded)
    requires db == ONE_RULESET && d == ONLY_SETTINGS
    ensures Key(ApiRuleset, 5) in db.objects && DeletesRow(db, d, Replace, Key(ApiRuleset, 5))
  {
    assert StoredWorkspaces(db) == {};
  }

  /** It goes through and deletes the ruleset. */
  lemma ReplaceDeletesRuleset(db: Db, d: Decoded, now: int)
    requires db == ONE_RULESET && d == ONLY_SETTINGS
    ensures Valid(db) && WellFormed(d) && Key(ApiRuleset, 5) in db.objects
    ensures var r := Transaction(db, d, Replace, NOBODY, now); r.Ok? && Key(ApiRuleset, 5) !in r.value.0.objects
  {
    OnlySettingsFits();
    OneRulesetIsValid(db);
    SettingsReplaceAccepted(db, d);
    SettingsReplaceDeletes(db, d);
    AcceptedDeletes(db, d, Replace, NOBODY, now, Key(ApiRuleset, 5));
  }

  // A backup of workspaces 2 and 3 with spec source 8 of workspace 2; source 9 of workspace 3 is stored.

  const SOURCE := Value(0.0, Unguarded, SpecData(1, None, 0))
  const SOURCE_8 := Entry(Key(SpecSource, 8), Row(Some(2), None, 0.0, SOURCE))
  const WORKSPACE_3 := WorkspaceEntry(3)
  const TWO_WORKSPACES := Decoded([WORKSPACE_2, WORKSPACE_3], None, [], [SOURCE_8], [], map[], [], [],
                                  [ObjectItem(WORKSPACE_2.key), ObjectItem(WORKSPACE_3.key), ObjectItem(SOURCE_8.key)], {})
  const ONE_SOURCE := EMPTY.(objects := map[
    WORKSPACE_3.key := WORKSPACE_3.row, Key(SpecSource, 9) := Row(Some(3), None, 0.0, SOURCE)])
  const APPROVED_3 := Approval({3}, Some(Dangling(0)))

  lemma TwoWorkspacesEntries(d: Decoded)
    requires d == TWO_WORKSPACES
    ensures forall e :: e in d.graph <==> e == WORKSPACE_2 || e == WORKSPACE_3
    ensures forall e :: e in d.trailing <==> e == SOURCE_8
    ensures d.graph + d.trailing == [WORKSPACE_2, WORKSPACE_3, SOURCE_8] && Workspaces(d) == {2, 3}
  {
    assert d.graph[0] == WORKSPACE_2 && d.graph[1] == WORKSPACE_3 && d.trailing[0] == SOURCE_8;
    assert WORKSPACE_2 in d.graph && WORKSPACE_3 in d.graph;
  }

  lemma TwoWorkspacesGraph(d: Decoded)
    requires d == TWO_WORKSPACES
    ensures GraphOk(d.graph, {2, 3}) && DistinctKeys(d.graph + d.trailing)
    ensures forall e :: e in d.trailing ==> TrailingKind(e.key.kind) && RowOk(e, {2, 3})
  {
    TwoWorkspacesEntries(d);
    assert |d.graph| == 2;
  }

  lemma TwoWorkspacesIsWellFormed(d: Decoded)
    requires d == TWO_WORKSPACES
    ensures WellFormed(d)
  {
    TwoWorkspacesEntries(d);
    TwoWorkspacesGraph(d);
    TwoWorkspacesItems(d);
  }

  lemma TwoWorkspacesItems(d: Decoded)
    requires d == TWO_WORKSPACES
    ensures NoDup(d.items) && Elements(d.items) == Writes(d) && ListsSettings(d)
  {
    TwoWorkspacesEntries(d);
    var a, b, c := ObjectItem(WORKSPACE_2.key), ObjectItem(WORKSPACE_3.key), ObjectItem(SOURCE_8.key);
    var all := d.graph + d.trailing;
    assert all[0] == WORKSPACE_2 && all[1] == WORKSPACE_3 && all[2] == SOURCE_8;
    assert WORKSPACE_2 in all && WORKSPACE_3 in all && SOURCE_8 in all;
    assert Writes(d) == {a, b, c};
    assert Elements(d.items) == {a, b, c};
  }

  lemma OneSourceStored(db: Db)
    requires db == ONE_SOURCE
    ensures forall k :: k in db.objects <==> k == WORKSPACE_3.key || k == Key(SpecSource, 9)
    ensures Valid(db) && NamespacesOwned(db.objects)
  {
    forall k ensures k in db.objects <==> k == WORKSPACE_3.key || k == Key(SpecSource, 9) {
    }
  }

  lemma TwoWorkspacesHome(db: Db, d: Decoded)
    requires db == ONE_SOURCE && d == TWO_WORKSPACES
    ensures ItemsAtHome(d, db) && SecretsAtHome(d, db) && !WritesConflict(db, d, Replace)
  {
    TwoWorkspacesEntries(d);
    var all := d.graph + d.trailing;
    assert forall e :: e in all ==> e == WORKSPACE_2 || e == WORKSPACE_3 || e == SOURCE_8;
  }

  lemma TwoWorkspacesAccepted(db: Db, d: Decoded)
    requires db == ONE_SOURCE && d == TWO_WORKSPACES
    ensures Acceptable(db, d, Replace, APPROVED_3)
  {
    TwoWorkspacesEntries(d);
    TwoWorkspacesHome(db, d);
    OneSourceStored(db);
    NoRulesetsWithinLimits(db, d, Replace);
    assert 2 !in StoredWorkspaces(db);
    assert !NamespacesClash(d, db, Replace);
  }

  lemma AcceptedShares(db: Db, d: Decoded, approval: Approval, now: int)
    requires Valid(db) && WellFormed(d) && Acceptable(db, d, Replace, approval)
    requires NamespacesOwned(db.objects) && !StaysClear(db, d)
    ensures var r := Transaction(db, d, Replace, approval, now); r.Ok? && !NamespacesOwned(r.value.0.objects)
  {
    RestoreAcceptedExactly(db, d, Replace, approval, now);
    var r := Transaction(db, d, Replace, approval, now).value;
    NamespacesStayOwnedExactly(db, d, Replace, approval, now, r.0, r.1);
  }

  /** It goes through, and two workspaces share a namespace that was one's. */
  lemma ReplaceCanShareNamespace(db: Db, d: Decoded, now: int)
    requires db == ONE_SOURCE && d == TWO_WORKSPACES
    ensures WellFormed(d) && NamespacesOwned(db.objects)
    ensures var r := Transaction(db, d, Replace, APPROVED_3, now); r.Ok? && !NamespacesOwned(r.value.0.objects)
  {
    TwoWorkspacesIsWellFormed(d);
    TwoWorkspacesAccepted(db, d);
    OneSourceStored(db);
    SourceStays(db, d);
    AcceptedShares(db, d, APPROVED_3, now);
  }

  lemma SourceStays(db: Db, d: Decoded)
    requires db == ONE_SOURCE && d == TWO_WORKSPACES
    ensures !StaysClear(db, d)
  {
    TwoWorkspacesEntries(d);
    var k := Key(SpecSource, 9);
    assert CarriedRow(d, k).None?;
    assert SourceAt(db.objects, k) && SOURCE_8 in d.trailing;
  }
}
