/**
 * The ruleset loop of a restore leaves, in stored order, exactly the rulesets
 * that were predicted and checked before anything was written.
 */
module RulesetOrder {
  import opened Prelude
  import opened Store
  import opened Rulesets
  import opened BackupWrite
  import opened BackupRestore
  import opened BackupEffects
  import opened BackupOutcome
  import opened BackupGuarantees

  /** The rulesets that are new here, one sort key apart from `next` on. */
  ghost function Arrivals(rs: seq<Ruleset>, stored: Objects, next: real): seq<Placed> {
    if rs == [] then []
    else if RulesetKey(rs[0]) in stored then Arrivals(rs[1..], stored, next)
    else [Placed(next, rs[0])] + Arrivals(rs[1..], stored, next + 1.0)
  }

  /** Every stored ruleset lies below `next`, and only stored ones are kept. */
  ghost predicate Below(stored: Objects, next: real, w: Writer, rs: seq<Ruleset>) {
    && (forall k :: k in stored && k.kind == ApiRuleset ==> stored[k].sort + 1.0 <= next)
    && (forall r :: r in rs && Keeps(w, ObjectItem(RulesetKey(r))) ==> RulesetKey(r) in stored)
  }

  lemma {:induction false} ArrivalsOrder(rs: seq<Ruleset>, stored: Objects, next: real)
    requires DistinctRulesets(rs)
    ensures InOrder(Arrivals(rs, stored, next))
    ensures forall p :: p in Arrivals(rs, stored, next) ==> next <= p.sort && p.ruleset in rs && RulesetKey(p.ruleset) !in stored
    ensures forall r :: r in rs && RulesetKey(r) !in stored ==> exists p :: p in Arrivals(rs, stored, next) && p.ruleset == r
    decreases |rs|
  {
    if rs == [] {
    } else {
      assert rs == [rs[0]] + rs[1..];
      assert forall r :: r in rs <==> r == rs[0] || r in rs[1..];
      if RulesetKey(rs[0]) in stored {
        ArrivalsOrder(rs[1..], stored, next);
      } else {
        ArrivalsOrder(rs[1..], stored, next + 1.0);
        var head, tail := Placed(next, rs[0]), Arrivals(rs[1..], stored, next + 1.0);
        forall i, j | 0 <= i < j < |[head] + tail| ensures Before(([head] + tail)[i], ([head] + tail)[j]) {
          assert tail[j - 1] in tail;
        }
        assert forall p :: p in [head] + tail <==> p == head || p in tail;
        forall r | r in rs && RulesetKey(r) !in stored ensures exists p :: p in [head] + tail && p.ruleset == r {
          if r == rs[0] {
            assert head in [head] + tail && head.ruleset == r;
          } else {
            var p :| p in tail && p.ruleset == r;
            assert p in [head] + tail;
          }
        }
      }
    }
  }

  /** The row left under ruleset key `k`, case by case. */
  lemma {:induction false} PutRulesetsAt(o: Objects, stored: Objects, next: real, rs: seq<Ruleset>, w: Writer, k: Key)
    requires DistinctRulesets(rs) && Below(stored, next, w, rs) && k.kind == ApiRuleset
    requires PutRulesets(o, stored, next, rs, w).Ok?
    ensures var v := PutRulesets(o, stored, next, rs, w).value;
      && ((Keeps(w, ObjectItem(k)) || forall r :: r in rs ==> RulesetKey(r) != k) ==> Lookup(v, k) == Lookup(o, k))
      && (forall r :: r in rs && RulesetKey(r) == k && !Keeps(w, ObjectItem(k)) && k in stored ==> Lookup(v, k) == Some(RulesetRow(r, stored[k].sort)))
      && (forall p :: p in Arrivals(rs, stored, next) && RulesetKey(p.ruleset) == k ==> Lookup(v, k) == Some(RulesetRow(p.ruleset, p.sort)))
    decreases |rs|
  {
    if rs == [] {
    } else {
      var q := RulesetKey(rs[0]);
      var sort := if q in stored then stored[q].sort else next;
      var later := if q in stored then next else next + 1.0;
      assert MaxOf(next, sort + 1.0) == later;
      var o' := if Keeps(w, ObjectItem(q)) then o else o[q := RulesetRow(rs[0], sort)];
      assert rs == [rs[0]] + rs[1..];
      assert forall r :: r in rs <==> r == rs[0] || r in rs[1..];
      PutRulesetsAt(o', stored, later, rs[1..], w, k);
      if q == k {
        assert forall r :: r in rs[1..] ==> RulesetKey(r) != k;
        ArrivalsOrder(rs[1..], stored, later);
      }
    }
  }

  /** A stored ruleset once the loop is through: replaced in place, or as it was. */
  ghost function Overwrite(p: Placed, rs: seq<Ruleset>, w: Writer): Placed {
    if !Keeps(w, ObjectItem(RulesetKey(p.ruleset))) && Find(rs, p.ruleset.id).Some?
    then Placed(p.sort, Find(rs, p.ruleset.id).value) else p
  }

  lemma {:induction false} FindIs(rs: seq<Ruleset>, id: Id)
    requires DistinctRulesets(rs)
    ensures Find(rs, id).None? <==> forall r :: r in rs ==> r.id != id
    ensures Find(rs, id).Some? ==> Find(rs, id).value in rs && Find(rs, id).value.id == id
    ensures forall r :: r in rs && r.id == id ==> Find(rs, id) == Some(r)
  {
    if rs == [] {
    } else {
      assert rs == [rs[0]] + rs[1..];
      assert forall r :: r in rs <==> r == rs[0] || r in rs[1..];
      FindIs(rs[1..], id);
    }
  }

  ghost function OverwriteAll(ps: seq<Placed>, rs: seq<Ruleset>, w: Writer): (r: seq<Placed>)
    requires DistinctRulesets(rs)
    ensures |r| == |ps| && forall i :: 0 <= i < |ps| ==> r[i] == Overwrite(ps[i], rs, w)
  {
    seq(|ps|, i requires 0 <= i < |ps| => Overwrite(ps[i], rs, w))
  }

  lemma OverwriteKeepsOrder(ps: seq<Placed>, rs: seq<Ruleset>, w: Writer)
    requires DistinctRulesets(rs) && InOrder(ps)
    ensures InOrder(OverwriteAll(ps, rs, w))
  {
    forall i | 0 <= i < |ps| ensures Overwrite(ps[i], rs, w).sort == ps[i].sort && Overwrite(ps[i], rs, w).ruleset.id == ps[i].ruleset.id {
      FindIs(rs, ps[i].ruleset.id);
    }
  }

  /** The rulesets the loop leaves, listed: the stored ones in their order, then the new ones. */
  ghost function Result(o: Objects, next: real, rs: seq<Ruleset>, w: Writer): seq<Placed>
    requires DistinctRulesets(rs)
  {
    PlacedDistinct(o);
    OverwriteAll(Sorted(PlacedIn(o)), rs, w) + Arrivals(rs, o, next)
  }

  lemma ResultInOrder(o: Objects, next: real, rs: seq<Ruleset>, w: Writer)
    requires DistinctRulesets(rs) && Below(o, next, w, rs)
    ensures InOrder(Result(o, next, rs, w))
  {
    PlacedDistinct(o);
    var local := Sorted(PlacedIn(o));
    OverwriteKeepsOrder(local, rs, w);
    ArrivalsOrder(rs, o, next);
    var a, b := OverwriteAll(local, rs, w), Arrivals(rs, o, next);
    forall i, j | 0 <= i < |a| && 0 <= j < |b| ensures Before(a[i], b[j]) {
      assert local[i] in Elements(local);
      assert b[j] in b;
    }
  }

  /** A stored ruleset's place, and the row it comes from. */
  lemma StoredPlace(o: Objects, p: Placed)
    requires p in PlacedIn(o)
    ensures RulesetKey(p.ruleset) in o && o[RulesetKey(p.ruleset)].sort == p.sort
    ensures RulesetOf(RulesetKey(p.ruleset), o[RulesetKey(p.ruleset)]) == p.ruleset
  {
  }

  function PlaceOf(o: Objects, k: Key): Placed
    requires k in o
  {
    Placed(o[k].sort, RulesetOf(k, o[k]))
  }

  /** What the loop leaves under a stored key is that key's place, overwritten or not. */
  lemma StoredKeyAfter(o: Objects, next: real, rs: seq<Ruleset>, w: Writer, k: Key)
    requires DistinctRulesets(rs) && Below(o, next, w, rs) && k.kind == ApiRuleset && k in o
    requires PutRulesets(o, o, next, rs, w).Ok?
    ensures var v := PutRulesets(o, o, next, rs, w).value; k in v && PlaceOf(v, k) == Overwrite(PlaceOf(o, k), rs, w)
  {
    PutRulesetsAt(o, o, next, rs, w, k);
    FindIs(rs, k.id);
    if !Keeps(w, ObjectItem(k)) && Find(rs, k.id).Some? {
      assert RulesetKey(Find(rs, k.id).value) == k;
    } else {
      assert Lookup(PutRulesets(o, o, next, rs, w).value, k) == Lookup(o, k);
    }
  }

  lemma NewKeyAfter(o: Objects, next: real, rs: seq<Ruleset>, w: Writer, k: Key)
    requires DistinctRulesets(rs) && Below(o, next, w, rs) && k.kind == ApiRuleset && k !in o
    requires PutRulesets(o, o, next, rs, w).Ok?
    ensures var v := PutRulesets(o, o, next, rs, w).value;
      && (k in v ==> PlaceOf(v, k) in Arrivals(rs, o, next))
      && (forall p :: p in Arrivals(rs, o, next) && RulesetKey(p.ruleset) == k ==> k in v && PlaceOf(v, k) == p)
  {
    PutRulesetsAt(o, o, next, rs, w, k);
    ArrivalsOrder(rs, o, next);
    if exists r :: r in rs && RulesetKey(r) == k {
      var r :| r in rs && RulesetKey(r) == k;
      var p :| p in Arrivals(rs, o, next) && p.ruleset == r;
      assert Lookup(PutRulesets(o, o, next, rs, w).value, k) == Some(RulesetRow(p.ruleset, p.sort));
    }
  }

  lemma ResultElements(o: Objects, next: real, rs: seq<Ruleset>, w: Writer)
    requires DistinctRulesets(rs) && Below(o, next, w, rs)
    requires PutRulesets(o, o, next, rs, w).Ok?
    ensures Elements(Result(o, next, rs, w)) == PlacedIn(PutRulesets(o, o, next, rs, w).value)
  {
    PlacedDistinct(o);
    var v := PutRulesets(o, o, next, rs, w).value;
    var local, b := Sorted(PlacedIn(o)), Arrivals(rs, o, next);
    var a := OverwriteAll(local, rs, w);
    ArrivalsOrder(rs, o, next);
    forall p | p in a + b ensures p in PlacedIn(v) {
      if p in a {
        var i :| 0 <= i < |a| && a[i] == p;
        assert local[i] in Elements(local);
        StoredPlace(o, local[i]);
        StoredKeyAfter(o, next, rs, w, RulesetKey(local[i].ruleset));
      } else {
        NewKeyAfter(o, next, rs, w, RulesetKey(p.ruleset));
      }
    }
    forall p | p in PlacedIn(v) ensures p in a + b {
      StoredPlace(v, p);
      var k := RulesetKey(p.ruleset);
      assert p == PlaceOf(v, k);
      if k in o {
        StoredKeyAfter(o, next, rs, w, k);
        assert PlaceOf(o, k) in Elements(local);
        var i :| 0 <= i < |local| && local[i] == PlaceOf(o, k);
        assert a[i] == p;
      } else {
        NewKeyAfter(o, next, rs, w, k);
      }
    }
  }

  /** The loop's result, in stored order. */
  lemma LoopListing(o: Objects, next: real, rs: seq<Ruleset>, w: Writer)
    requires DistinctRulesets(rs) && Below(o, next, w, rs)
    requires PutRulesets(o, o, next, rs, w).Ok?
    ensures Listing(PutRulesets(o, o, next, rs, w).value) == Unplaced(Result(o, next, rs, w))
  {
    var v := PutRulesets(o, o, next, rs, w).value;
    PlacedDistinct(v);
    ResultInOrder(o, next, rs, w);
    ResultElements(o, next, rs, w);
    OrderIsUnique(Sorted(PlacedIn(v)), Result(o, next, rs, w));
  }

  // ---------------------------------------------- the prediction agrees

  /** Replacing in the listing is replacing in place. */
  lemma {:induction false} SurvivingIs(ps: seq<Placed>, rs: seq<Ruleset>, w: Writer, replacements: set<Id>)
    requires DistinctRulesets(rs)
    requires forall p :: p in ps ==>
      (p.ruleset.id in replacements <==> !Keeps(w, ObjectItem(RulesetKey(p.ruleset))) && Find(rs, p.ruleset.id).Some?)
    ensures Surviving(Unplaced(ps), rs, replacements, true) == Unplaced(OverwriteAll(ps, rs, w))
    decreases |ps|
  {
    if ps == [] {
    } else {
      assert ps == [ps[0]] + ps[1..];
      SurvivingIs(ps[1..], rs, w, replacements);
      var local, over := Unplaced(ps), Overwrite(ps[0], rs, w);
      assert local[0] == ps[0].ruleset && local[1..] == Unplaced(ps[1..]);
      OverwriteHead(ps, rs, w);
      SurvivingHead(local, rs, replacements, over.ruleset);
    }
  }

  lemma SurvivingHead(local: seq<Ruleset>, rs: seq<Ruleset>, replacements: set<Id>, head: Ruleset)
    requires local != []
    requires head == if local[0].id in replacements && Find(rs, local[0].id).Some? then Find(rs, local[0].id).value else local[0]
    ensures Surviving(local, rs, replacements, true) == [head] + Surviving(local[1..], rs, replacements, true)
  {
  }

  lemma OverwriteHead(ps: seq<Placed>, rs: seq<Ruleset>, w: Writer)
    requires DistinctRulesets(rs) && ps != []
    ensures Unplaced(OverwriteAll(ps, rs, w)) == [Overwrite(ps[0], rs, w).ruleset] + Unplaced(OverwriteAll(ps[1..], rs, w))
  {
  }

  lemma {:induction false} SurvivingNone(local: seq<Ruleset>, rs: seq<Ruleset>)
    ensures Surviving(local, rs, {}, false) == []
  {
    if local == [] {
    } else {
      SurvivingNone(local[1..], rs);
    }
  }

  lemma {:induction false} ArrivingIs(rs: seq<Ruleset>, o: Objects, next: real, placed: set<Id>, skipped: set<Id>)
    requires forall r :: r in rs ==> (r.id in placed || r.id in skipped <==> RulesetKey(r) in o)
    ensures Arriving(rs, placed, skipped) == Unplaced(Arrivals(rs, o, next))
    decreases |rs|
  {
    if rs == [] {
    } else {
      assert rs == [rs[0]] + rs[1..];
      if RulesetKey(rs[0]) in o {
        ArrivingIs(rs[1..], o, next, placed, skipped);
      } else {
        ArrivingIs(rs[1..], o, next + 1.0, placed, skipped);
        var tail := Arrivals(rs[1..], o, next + 1.0);
        assert Unplaced([Placed(next, rs[0])] + tail) == [rs[0]] + Unplaced(tail);
      }
    }
  }

  lemma UnplacedConcat(a: seq<Placed>, b: seq<Placed>)
    ensures Unplaced(a + b) == Unplaced(a) + Unplaced(b)
  {
  }

  lemma ListedIds(o: Objects, id: Id)
    ensures id in Ids(Listing(o)) <==> Key(ApiRuleset, id) in o
  {
    PlacedDistinct(o);
    var ps := Sorted(PlacedIn(o));
    if Key(ApiRuleset, id) in o {
      var p := PlaceOf(o, Key(ApiRuleset, id));
      assert p in Elements(ps);
      var i :| 0 <= i < |ps| && ps[i] == p;
      assert Listing(o)[i] in Listing(o);
    }
    if id in Ids(Listing(o)) {
      var r :| r in Listing(o) && r.id == id;
      var i :| 0 <= i < |ps| && Listing(o)[i] == r;
      assert ps[i] in Elements(ps);
    }
  }

  /** Rulesets are listed by sort key, equal ones by id, and each as it is stored. */
  lemma ListingIsOrdered(o: Objects, i: nat, j: nat)
    requires i < j < |Listing(o)|
    ensures var a, b := Key(ApiRuleset, Listing(o)[i].id), Key(ApiRuleset, Listing(o)[j].id);
      && a in o && b in o && RulesetOf(a, o[a]) == Listing(o)[i]
      && (o[a].sort < o[b].sort || (o[a].sort == o[b].sort && a.id < b.id))
  {
    PlacedDistinct(o);
    var ps := Sorted(PlacedIn(o));
    assert ps[i] in Elements(ps) && ps[j] in Elements(ps);
    StoredPlace(o, ps[i]);
    StoredPlace(o, ps[j]);
    assert Before(ps[i], ps[j]);
  }

  // -------------------------------------------------- a restore's rulesets

  /** The ruleset rows of two stores are the same. */
  ghost predicate SameRulesets(a: Objects, b: Objects) {
    forall k: Key :: k.kind == ApiRuleset ==> Lookup(a, k) == Lookup(b, k)
  }

  lemma SameListing(a: Objects, b: Objects)
    requires SameRulesets(a, b)
    ensures PlacedIn(a) == PlacedIn(b) && Listing(a) == Listing(b)
  {
    forall k: Key | k.kind == ApiRuleset ensures k in a <==> k in b {
      assert Lookup(a, k) == Lookup(b, k);
    }
    forall k: Key | k.kind == ApiRuleset && k in a ensures a[k] == b[k] {
      assert Lookup(a, k) == Lookup(b, k);
    }
    assert PlacedIn(a) == PlacedIn(b);
  }

  lemma SettingsLeaveRulesets(db: Db, d: Decoded, policy: Policy)
    requires KeysOk(d)
    ensures SameRulesets(AfterSettings(db, d, policy), Base(db, d, policy))
  {
    forall k: Key | k.kind == ApiRuleset ensures Lookup(AfterSettings(db, d, policy), k) == Lookup(Base(db, d, policy), k) {
      GraphWritesGraphKinds(d, WriterFor(d, db, policy), k);
    }
  }

  /** The loop starts above every stored ruleset. */
  lemma StartsAbove(db: Db, d: Decoded, policy: Policy)
    requires KeysOk(d)
    ensures var o := AfterSettings(db, d, policy);
      Below(o, TopOf(RulesetSorts(o)) + 1.0, WriterFor(d, db, policy), d.rulesets)
  {
    var o, w := AfterSettings(db, d, policy), WriterFor(d, db, policy);
    SettingsLeaveRulesets(db, d, policy);
    forall k | k in o && k.kind == ApiRuleset ensures o[k].sort + 1.0 <= TopOf(RulesetSorts(o)) + 1.0 {
      assert o[k].sort in RulesetSorts(o);
    }
    forall r | r in d.rulesets && Keeps(w, ObjectItem(RulesetKey(r))) ensures RulesetKey(r) in o {
      KeepsObject(db, d, policy, RulesetKey(r));
      assert Lookup(o, RulesetKey(r)) == Lookup(Base(db, d, policy), RulesetKey(r));
    }
  }

  /** Which rulesets the loop overwrites, once the stored ones stay. */
  lemma ReplacedIds(db: Db, d: Decoded, policy: Policy, id: Id)
    requires DistinctRulesets(d.rulesets) && policy in {Merge, Replace}
    requires Key(ApiRuleset, id) in db.objects
    ensures var replacing := if policy == Replace then Ids(d.rulesets) else {};
      id in replacing <==> !Keeps(WriterFor(d, db, policy), ObjectItem(Key(ApiRuleset, id))) && Find(d.rulesets, id).Some?
  {
    FindIs(d.rulesets, id);
    KeepsObject(db, d, policy, Key(ApiRuleset, id));
  }

  lemma KeptSurvivors(db: Db, d: Decoded, policy: Policy, o: Objects)
    requires DistinctRulesets(d.rulesets) && policy in {Merge, Replace}
    requires SameRulesets(o, db.objects)
    ensures DistinctIds(PlacedIn(o))
    ensures Surviving(Listing(db.objects), d.rulesets, if policy == Replace then Ids(d.rulesets) else {}, true)
         == Unplaced(OverwriteAll(Sorted(PlacedIn(o)), d.rulesets, WriterFor(d, db, policy)))
  {
    var w := WriterFor(d, db, policy);
    var replacing := if policy == Replace then Ids(d.rulesets) else {};
    SameListing(o, db.objects);
    PlacedDistinct(o);
    var ps := Sorted(PlacedIn(o));
    forall p | p in ps
      ensures p.ruleset.id in replacing <==> !Keeps(w, ObjectItem(RulesetKey(p.ruleset))) && Find(d.rulesets, p.ruleset.id).Some?
    {
      assert p in Elements(ps);
      StoredPlace(o, p);
      assert Lookup(o, RulesetKey(p.ruleset)) == Lookup(db.objects, RulesetKey(p.ruleset));
      ReplacedIds(db, d, policy, p.ruleset.id);
    }
    SurvivingIs(ps, d.rulesets, w, replacing);
  }

  lemma KeptArrivals(db: Db, d: Decoded, policy: Policy, o: Objects, next: real)
    requires policy in {Merge, Replace} && SameRulesets(o, db.objects)
    ensures var replacing := if policy == Replace then Ids(d.rulesets) else {};
      Arriving(d.rulesets, Ids(Listing(db.objects)) * replacing * Ids(d.rulesets), SkippedIds(d, db, policy))
      == Unplaced(Arrivals(d.rulesets, o, next))
  {
    var placed := Ids(Listing(db.objects)) * (if policy == Replace then Ids(d.rulesets) else {}) * Ids(d.rulesets);
    forall r | r in d.rulesets ensures r.id in placed || r.id in SkippedIds(d, db, policy) <==> RulesetKey(r) in o {
      ListedIds(db.objects, r.id);
      assert Lookup(o, RulesetKey(r)) == Lookup(db.objects, RulesetKey(r));
    }
    ArrivingIs(d.rulesets, o, next, placed, SkippedIds(d, db, policy));
  }

  lemma KeptListing(db: Db, d: Decoded, policy: Policy, o: Objects, next: real)
    requires DistinctRulesets(d.rulesets) && policy in {Merge, Replace}
    requires policy == Replace ==> KeepsRulesets(d, db, policy)
    requires SameRulesets(o, db.objects)
    ensures Unplaced(Result(o, next, d.rulesets, WriterFor(d, db, policy)))
         == CombinedRulesets(d, db, policy, Listing(db.objects))
  {
    KeptSurvivors(db, d, policy, o);
    KeptArrivals(db, d, policy, o, next);
    UnplacedConcat(OverwriteAll(Sorted(PlacedIn(o)), d.rulesets, WriterFor(d, db, policy)), Arrivals(d.rulesets, o, next));
  }

  lemma DroppedListing(db: Db, d: Decoded, o: Objects, next: real)
    requires DistinctRulesets(d.rulesets) && !KeepsRulesets(d, db, Replace)
    requires forall k: Key :: k.kind == ApiRuleset ==> k !in o
    ensures Unplaced(Result(o, next, d.rulesets, WriterFor(d, db, Replace)))
         == CombinedRulesets(d, db, Replace, Listing(db.objects))
  {
    var w := WriterFor(d, db, Replace);
    PlacedDistinct(o);
    assert PlacedIn(o) == {};
    var ps := Sorted(PlacedIn(o));
    EmptyElements(ps);
    SurvivingNone(Listing(db.objects), d.rulesets);
    var placed: set<Id> := Ids(Listing(db.objects)) * {} * Ids(d.rulesets);
    assert placed == {};
    ArrivingIs(d.rulesets, o, next, placed, {});
    assert Result(o, next, d.rulesets, w) == Arrivals(d.rulesets, o, next);
  }

  /**
   * The rulesets an accepted restore leaves, in stored order, are exactly the
   * ones it predicted and checked: surviving local ones in their old order,
   * same-id ones replaced in place, then the new ones in backup order.
   */
  lemma RestoredRulesetOrder(db: Db, d: Decoded, policy: Policy, approval: Approval, now: int, after: Db, report: Restored)
    requires Restores(db, d, policy, approval, now, after, report)
    ensures Listing(after.objects) == CombinedRulesets(d, db, policy, Listing(db.objects))
  {
    RestoreLeaves(db, d, policy, approval, now, after, report);
    PlacedRulesets(db, d, policy, after);
  }

  lemma LeftByLoop(db: Db, d: Decoded, policy: Policy, after: Db, o: Objects, next: real)
    requires KeysOk(d) && DistinctRulesets(d.rulesets) && LeavesRulesets(db, d, policy, after)
    requires o == AfterSettings(db, d, policy) && next == TopOf(RulesetSorts(o)) + 1.0
    ensures Listing(after.objects) == Unplaced(Result(o, next, d.rulesets, WriterFor(d, db, policy)))
  {
    StartsAbove(db, d, policy);
    LoopListing(o, next, d.rulesets, WriterFor(d, db, policy));
    SameListing(after.objects, AfterRulesets(db, d, policy).value);
  }

  lemma PlacedRulesets(db: Db, d: Decoded, policy: Policy, after: Db)
    requires KeysOk(d) && DistinctRulesets(d.rulesets) && policy in {Merge, Replace}
    requires LeavesRulesets(db, d, policy, after)
    ensures Listing(after.objects) == CombinedRulesets(d, db, policy, Listing(db.objects))
  {
    var o, w := AfterSettings(db, d, policy), WriterFor(d, db, policy);
    var next := TopOf(RulesetSorts(o)) + 1.0;
    LeftByLoop(db, d, policy, after, o, next);
    SettingsLeaveRulesets(db, d, policy);
    BaseRulesets(db, d, policy, o);
    if policy == Replace && !KeepsRulesets(d, db, policy) {
      DroppedListing(db, d, o, next);
    } else {
      KeptListing(db, d, policy, o, next);
    }
  }

  /** The rulesets the loop starts from: none, or the stored ones. */
  lemma BaseRulesets(db: Db, d: Decoded, policy: Policy, o: Objects)
    requires SameRulesets(o, Base(db, d, policy))
    ensures if policy == Replace && !KeepsRulesets(d, db, policy) then forall k: Key :: k.kind == ApiRuleset ==> k !in o
            else SameRulesets(o, db.objects)
  {
    if policy == Replace && !KeepsRulesets(d, db, policy) {
      forall k: Key | k.kind == ApiRuleset ensures k !in o {
        assert Lookup(o, k) == Lookup(Base(db, d, policy), k);
      }
    }
  }
}
