/**
 * Linked-file bindings across a restore: which ones it drops, and how far
 * that is from "those of the requests and datasets it overwrites".
 */
module LinkedFiles {
  import opened Prelude
  import opened Guards
  import opened Store
  import opened Rulesets
  import opened BackupWrite
  import opened BackupRestore
  import opened BackupEffects
  import opened BackupOutcome
  import opened BackupGuarantees
  import opened PlanEffect

  predicate BindingFor(o: Objects, k: Key, referrer: Key) {
    k in o && k.kind == LinkedFile && o[k].value.data == BindingData(referrer)
  }

  /** The request or dataset with the same id and the other kind. */
  function Namesake(referrer: Key): Key {
    Key(if referrer.kind == Request then Dataset else Request, referrer.id)
  }

  /** A binding goes when its request or dataset is written, or one of the other kind with its id. */
  lemma BindingDroppedExactly(db: Db, d: Decoded, policy: Policy, approval: Approval, now: int, after: Db, report: Restored,
                              k: Key, referrer: Key)
    requires Restores(db, d, policy, approval, now, after, report)
    requires BindingFor(db.objects, k, referrer) && referrer.kind in {Request, Dataset}
    ensures k !in after.objects <==> WritesRow(db, d, policy, referrer) || WritesRow(db, d, policy, Namesake(referrer))
    ensures k in after.objects ==> after.objects[k] == db.objects[k]
  {
    RestoreLeaves(db, d, policy, approval, now, after, report);
    assert Lookup(after.objects, k) == RowAfter(db, d, policy, k);
    BindingAfter(db, d, policy, after, k, referrer);
  }

  lemma BindingAfter(db: Db, d: Decoded, policy: Policy, after: Db, k: Key, referrer: Key)
    requires Lookup(after.objects, k) == RowAfter(db, d, policy, k)
    requires BindingFor(db.objects, k, referrer) && referrer.kind in {Request, Dataset}
    ensures k !in after.objects <==> WritesRow(db, d, policy, referrer) || WritesRow(db, d, policy, Namesake(referrer))
    ensures k in after.objects ==> after.objects[k] == db.objects[k]
  {
  }

  /** Every binding left belongs to a request or dataset the restore did not write. */
  lemma BindingsLeftUnwritten(db: Db, d: Decoded, policy: Policy, approval: Approval, now: int, after: Db, report: Restored,
                              k: Key, referrer: Key)
    requires Restores(db, d, policy, approval, now, after, report)
    requires BindingFor(after.objects, k, referrer) && referrer.kind in {Request, Dataset}
    ensures BindingFor(db.objects, k, referrer) && !WritesRow(db, d, policy, referrer)
    ensures Lookup(after.objects, referrer) == Lookup(db.objects, referrer)
  {
    RestoreLeaves(db, d, policy, approval, now, after, report);
    BindingLeft(db, d, policy, after, k, referrer);
  }

  lemma BindingLeft(db: Db, d: Decoded, policy: Policy, after: Db, k: Key, referrer: Key)
    requires Lookup(after.objects, k) == RowAfter(db, d, policy, k)
    requires Lookup(after.objects, referrer) == RowAfter(db, d, policy, referrer)
    requires BindingFor(after.objects, k, referrer) && referrer.kind in {Request, Dataset}
    ensures BindingFor(db.objects, k, referrer) && !WritesRow(db, d, policy, referrer)
    ensures Lookup(after.objects, referrer) == Lookup(db.objects, referrer)
  {
  }

  // A profile with request 5 and a linked file for it; a backup with dataset 5.

  const WORKSPACE_VALUE := Value(0.0, LayerGuard(NO_OVERRIDES, Inherit), Plain(0))
  const REQUEST_VALUE := Value(0.0, RequestGuard(NO_OVERRIDES, Inherit, None), FilesData({}, 0))
  const DATASET_VALUE := Value(0.0, Unguarded, FilesData({}, 0))
  const BOUND := EMPTY.(objects := map[
    Key(Workspace, 1) := Row(None, None, 0.0, WORKSPACE_VALUE),
    Key(Request, 5) := Row(Some(1), None, 0.0, REQUEST_VALUE),
    Key(LinkedFile, 9) := Row(None, None, 0.0, Value(0.0, Unguarded, BindingData(Key(Request, 5))))])
  const NEW_WORKSPACE := Entry(Key(Workspace, 2), Row(None, None, 0.0, WORKSPACE_VALUE))
  const NEW_DATASET := Entry(Key(Dataset, 5), Row(Some(2), None, 0.0, DATASET_VALUE))
  const OTHER_KIND := Decoded([NEW_WORKSPACE, NEW_DATASET], None, [], [], [], map[], [], [],
                              [ObjectItem(NEW_WORKSPACE.key), ObjectItem(NEW_DATASET.key)], {})

  lemma OtherKindEntries()
    ensures OTHER_KIND.graph == [NEW_WORKSPACE, NEW_DATASET]
    ensures forall e :: e in OTHER_KIND.graph + OTHER_KIND.trailing <==> e == NEW_WORKSPACE || e == NEW_DATASET
    ensures Workspaces(OTHER_KIND) == {2}
  {
    assert OTHER_KIND.graph + OTHER_KIND.trailing == [NEW_WORKSPACE, NEW_DATASET];
    assert NEW_WORKSPACE in OTHER_KIND.graph;
  }

  lemma OtherKindWrites()
    ensures Writes(OTHER_KIND) == Elements(OTHER_KIND.items) && NoDup(OTHER_KIND.items) && ListsSettings(OTHER_KIND)
  {
    OtherKindEntries();
    var a, b := ObjectItem(NEW_WORKSPACE.key), ObjectItem(NEW_DATASET.key);
    assert Writes(OTHER_KIND) == {a, b};
    assert Elements(OTHER_KIND.items) == {a, b};
  }

  lemma OtherKindGraph()
    ensures GraphOk(OTHER_KIND.graph, Workspaces(OTHER_KIND)) && DistinctKeys(OTHER_KIND.graph + OTHER_KIND.trailing)
  {
    OtherKindEntries();
    assert OTHER_KIND.graph + OTHER_KIND.trailing == [NEW_WORKSPACE, NEW_DATASET];
  }

  lemma OtherKindFits()
    ensures WellFormed(OTHER_KIND)
  {
    OtherKindWrites();
    OtherKindGraph();
  }

  lemma BoundIsValid()
    ensures Valid(BOUND)
  {
    forall k | k in BOUND.objects ensures Shaped(k.kind, BOUND.objects[k]) && k.kind !in {AppSettings, DeviceSeal} {
    }
  }

  lemma OtherKindChecks()
    ensures ChecksHold(BOUND, OTHER_KIND, Merge, NOBODY) && !WritesConflict(BOUND, OTHER_KIND, Merge)
  {
    OtherKindEntries();
    assert 2 !in StoredWorkspaces(BOUND);
    assert OTHER_KIND.trailing == [];
  }

  lemma OtherKindAccepted()
    ensures Acceptable(BOUND, OTHER_KIND, Merge, NOBODY)
  {
    OtherKindChecks();
    NoRulesetsWithinLimits(BOUND, OTHER_KIND, Merge);
  }

  /** Merging adds the dataset and drops the binding of a request it leaves untouched. */
  lemma UntouchedRequestCanLoseBinding(now: int)
    ensures BindingFor(BOUND.objects, Key(LinkedFile, 9), Key(Request, 5))
    ensures var r := Transaction(BOUND, OTHER_KIND, Merge, NOBODY, now);
      && r.Ok? && Key(LinkedFile, 9) !in r.value.0.objects
      && Lookup(r.value.0.objects, Key(Request, 5)) == Lookup(BOUND.objects, Key(Request, 5))
  {
    OtherKindFits();
    BoundIsValid();
    OtherKindAccepted();
    RestoreAcceptedExactly(BOUND, OTHER_KIND, Merge, NOBODY, now);
    var r := Transaction(BOUND, OTHER_KIND, Merge, NOBODY, now).value;
    RestoreLeaves(BOUND, OTHER_KIND, Merge, NOBODY, now, r.0, r.1);
    LostBinding(now, r.0);
  }

  lemma LostBinding(now: int, after: Db)
    requires Leaves(BOUND, OTHER_KIND, Merge, now, after)
    ensures Key(LinkedFile, 9) !in after.objects
    ensures Lookup(after.objects, Key(Request, 5)) == Lookup(BOUND.objects, Key(Request, 5))
  {
    DatasetWritten();
    assert Lookup(after.objects, Key(LinkedFile, 9)) == RowAfter(BOUND, OTHER_KIND, Merge, Key(LinkedFile, 9));
    assert Lookup(after.objects, Key(Request, 5)) == RowAfter(BOUND, OTHER_KIND, Merge, Key(Request, 5));
  }

  lemma DatasetWritten()
    ensures WritesRow(BOUND, OTHER_KIND, Merge, Key(Dataset, 5))
  {
    OtherKindEntries();
    assert NEW_DATASET in OTHER_KIND.graph + OTHER_KIND.trailing;
  }
}
