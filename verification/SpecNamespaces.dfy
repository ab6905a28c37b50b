/**
 * Who uses which spec-import id namespace after a restore.
 */
module SpecNamespaces {
  import opened Prelude
  import opened Store
  import opened BackupWrite
  import opened BackupRestore
  import opened BackupEffects
  import opened BackupOutcome
  import opened BackupGuarantees

  predicate SourceAt(o: Objects, k: Key) {
    k in o && k.kind == SpecSource
  }

  /** No two workspaces share a namespace. */
  ghost predicate NamespacesOwned(o: Objects) {
    forall a, b :: SourceAt(o, a) && SourceAt(o, b) && SpaceOf(o[a]) == SpaceOf(o[b]) ==> o[a].owner == o[b].owner
  }

  /** Two sources the restore writes share a namespace only within one workspace. */
  ghost predicate WritesConsistently(db: Db, d: Decoded, policy: Policy) {
    forall e, f :: e in d.trailing && f in d.trailing && e.key.kind == SpecSource && f.key.kind == SpecSource
      && WritesRow(db, d, policy, e.key) && WritesRow(db, d, policy, f.key) && SpaceOf(e.row) == SpaceOf(f.row)
      ==> e.row.owner == f.row.owner
  }

  /** No stored source that stays shares a namespace of one written into another workspace. */
  ghost predicate StaysClear(db: Db, d: Decoded) {
    forall e, k :: e in d.trailing && e.key.kind == SpecSource && SourceAt(db.objects, k) && CarriedRow(d, k).None?
      && SpaceOf(e.row) == SpaceOf(db.objects[k])
      ==> e.row.owner == db.objects[k].owner
  }

  /** A source left by a restore was stored and stays, or is one of the backup's. */
  lemma SourceLeft(db: Db, d: Decoded, policy: Policy, now: int, after: Db, k: Key) returns (e: Option<Entry>)
    requires KeysOk(d) && Leaves(db, d, policy, now, after) && SourceAt(after.objects, k)
    ensures e.Some? <==> WritesRow(db, d, policy, k)
    ensures e.Some? ==> e.value in d.trailing && e.value.key == k && e.value.row == after.objects[k]
    ensures e.None? ==> Lookup(db.objects, k) == Some(after.objects[k])
  {
    assert Lookup(after.objects, k) == RowAfter(db, d, policy, k);
    if WritesRow(db, d, policy, k) {
      var q :| q in d.graph + d.trailing && q.key == k && CarriedRow(d, k) == Some(q.row);
      assert q in d.trailing;
      e := Some(q);
    } else {
      e := None;
    }
  }

  lemma WrittenSource(db: Db, d: Decoded, policy: Policy, now: int, after: Db, e: Entry)
    requires KeysOk(d) && Leaves(db, d, policy, now, after)
    requires e in d.trailing && e.key.kind == SpecSource && WritesRow(db, d, policy, e.key)
    ensures Lookup(after.objects, e.key) == Some(e.row)
  {
    assert e in d.graph + d.trailing;
    CarriedRowIs(d, e);
    assert Lookup(after.objects, e.key) == RowAfter(db, d, policy, e.key);
  }

  ghost predicate SourcesOk(d: Decoded) {
    forall e :: e in d.trailing && e.key.kind == SpecSource ==> e.row.owner.Some? && e.row.owner.value in Workspaces(d)
  }

  lemma SourcesAreOk(d: Decoded)
    requires WellFormed(d)
    ensures SourcesOk(d)
  {
    forall e | e in d.trailing && e.key.kind == SpecSource ensures e.row.owner.Some? && e.row.owner.value in Workspaces(d) {
      assert RowOk(e, Workspaces(d));
    }
  }

  lemma OutsidePair(db: Db, d: Decoded, policy: Policy, now: int, after: Db, a: Key, b: Key)
    requires KeysOk(d) && SourcesOk(d) && Leaves(db, d, policy, now, after)
    requires !NamespacesClash(d, db, policy) && NamespacesOwned(db.objects)
    requires SourceAt(after.objects, a) && SourceAt(after.objects, b) && SpaceOf(after.objects[a]) == SpaceOf(after.objects[b])
    requires after.objects[a].owner.Some? && after.objects[a].owner.value !in Workspaces(d)
    ensures after.objects[a].owner == after.objects[b].owner
  {
    var ea := SourceLeft(db, d, policy, now, after, a);
    var eb := SourceLeft(db, d, policy, now, after, b);
    if eb.Some? {
      assert !ClashesWith(eb.value, a, db.objects[a], if policy == Replace then Workspaces(d) else {});
    } else {
      assert SourceAt(db.objects, a) && SourceAt(db.objects, b);
    }
  }

  /** A restore never lets another workspace use a namespace of a workspace outside the backup. */
  lemma OutsideNamespacesOwned(db: Db, d: Decoded, policy: Policy, approval: Approval, now: int, after: Db, report: Restored,
                               a: Key, b: Key)
    requires Restores(db, d, policy, approval, now, after, report) && NamespacesOwned(db.objects)
    requires SourceAt(after.objects, a) && SourceAt(after.objects, b) && SpaceOf(after.objects[a]) == SpaceOf(after.objects[b])
    requires after.objects[a].owner.Some? && after.objects[a].owner.value !in Workspaces(d)
    ensures after.objects[a].owner == after.objects[b].owner
  {
    RestoreLeaves(db, d, policy, approval, now, after, report);
    ChecksPass(db, d, policy, approval);
    SourcesAreOk(d);
    OutsidePair(db, d, policy, now, after, a, b);
  }

  lemma PairOwned(db: Db, d: Decoded, policy: Policy, now: int, after: Db, a: Key, b: Key)
    requires KeysOk(d) && Leaves(db, d, policy, now, after) && policy in {Merge, Replace}
    requires !NamespacesClash(d, db, policy) && NamespacesOwned(db.objects)
    requires WritesConsistently(db, d, policy) && (policy == Replace ==> StaysClear(db, d))
    requires SourceAt(after.objects, a) && SourceAt(after.objects, b) && SpaceOf(after.objects[a]) == SpaceOf(after.objects[b])
    ensures after.objects[a].owner == after.objects[b].owner
  {
    var ea := SourceLeft(db, d, policy, now, after, a);
    var eb := SourceLeft(db, d, policy, now, after, b);
    if ea.None? && eb.None? {
      assert SourceAt(db.objects, a) && SourceAt(db.objects, b);
    } else if ea.Some? && eb.None? {
      assert !ClashesWith(ea.value, b, db.objects[b], if policy == Replace then Workspaces(d) else {});
      assert SourceAt(db.objects, b);
    } else if ea.None? && eb.Some? {
      assert !ClashesWith(eb.value, a, db.objects[a], if policy == Replace then Workspaces(d) else {});
      assert SourceAt(db.objects, a);
    }
  }

  lemma OwnedNeeds(db: Db, d: Decoded, policy: Policy, now: int, after: Db)
    requires KeysOk(d) && Leaves(db, d, policy, now, after) && policy in {Merge, Replace}
    requires NamespacesOwned(after.objects)
    ensures WritesConsistently(db, d, policy) && (policy == Replace ==> StaysClear(db, d))
  {
    forall e, f | e in d.trailing && f in d.trailing && e.key.kind == SpecSource && f.key.kind == SpecSource
        && WritesRow(db, d, policy, e.key) && WritesRow(db, d, policy, f.key) && SpaceOf(e.row) == SpaceOf(f.row)
      ensures e.row.owner == f.row.owner
    {
      WrittenSource(db, d, policy, now, after, e);
      WrittenSource(db, d, policy, now, after, f);
      assert SourceAt(after.objects, e.key) && SourceAt(after.objects, f.key);
    }
    if policy == Replace {
      forall e, k | e in d.trailing && e.key.kind == SpecSource && SourceAt(db.objects, k) && CarriedRow(d, k).None?
          && SpaceOf(e.row) == SpaceOf(db.objects[k])
        ensures e.row.owner == db.objects[k].owner
      {
        assert e in d.graph + d.trailing;
        WrittenSource(db, d, policy, now, after, e);
        assert Lookup(after.objects, k) == RowAfter(db, d, policy, k);
        assert SourceAt(after.objects, e.key) && SourceAt(after.objects, k);
      }
    }
  }

  /**
   * Namespaces that were each one workspace's stay so exactly when what the
   * restore writes is consistent, and under Replace clear of what stays.
   */
  lemma NamespacesStayOwnedExactly(db: Db, d: Decoded, policy: Policy, approval: Approval, now: int, after: Db, report: Restored)
    requires Restores(db, d, policy, approval, now, after, report) && NamespacesOwned(db.objects)
    ensures NamespacesOwned(after.objects) <==>
      WritesConsistently(db, d, policy) && (policy == Replace ==> StaysClear(db, d))
  {
    RestoreLeaves(db, d, policy, approval, now, after, report);
    ChecksPass(db, d, policy, approval);
    if NamespacesOwned(after.objects) {
      OwnedNeeds(db, d, policy, now, after);
    }
    if WritesConsistently(db, d, policy) && (policy == Replace ==> StaysClear(db, d)) {
      forall a, b | SourceAt(after.objects, a) && SourceAt(after.objects, b) && SpaceOf(after.objects[a]) == SpaceOf(after.objects[b])
        ensures after.objects[a].owner == after.objects[b].owner
      {
        PairOwned(db, d, policy, now, after, a, b);
      }
    }
  }
}
