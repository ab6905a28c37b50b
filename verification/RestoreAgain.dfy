/**
 * Restoring a backup a second time: exactly when it is accepted again, and
 * that it changes nothing.
 */
module RestoreAgain {
  import opened Prelude
  import opened Store
  import opened Rulesets
  import opened BackupWrite
  import opened BackupRestore
  import opened BackupEffects
  import opened BackupOutcome
  import opened BackupGuarantees
  import opened RulesetOrder
  import opened RestoreKeeps

  /** After a restore everything the backup carries is stored. */
  lemma CarriedStored(db: Db, d: Decoded, policy: Policy, now: int, after: Db, k: Key)
    requires Leaves(db, d, policy, now, after) && KeysOk(d)
    requires CarriedRow(d, k).Some?
    ensures k in after.objects
    ensures policy == Replace ==> after.objects[k] == CarriedRow(d, k).value
  {
    CarriedKinds(d, k);
    assert Lookup(after.objects, k) == RowAfter(db, d, policy, k);
  }

  /** A second restore decides about the app settings as the first did. */
  lemma SameSettingsDecision(db: Db, d: Decoded, policy: Policy, now: int, after: Db)
    requires Leaves(db, d, policy, now, after) && KeysOk(d)
    ensures StoredWorkspaces(after) == StoredWorkspaces(db) + Workspaces(d)
    ensures KeepsSettings(d, after, policy) <==> KeepsSettings(d, db, policy)
  {
    forall ws ensures ws in StoredWorkspaces(after) <==> ws in StoredWorkspaces(db) + Workspaces(d) {
      var k := Key(Workspace, ws);
      assert ws in StoredWorkspaces(db) <==> k in db.objects;
      assert ws in StoredWorkspaces(after) <==> k in after.objects;
      assert Lookup(after.objects, k) == RowAfter(db, d, policy, k);
      WorkspaceCarried(d, ws);
    }
    assert StoredWorkspaces(after) - Workspaces(d) == StoredWorkspaces(db) - Workspaces(d);
  }

  lemma WorkspaceCarried(d: Decoded, ws: Id)
    requires KeysOk(d)
    ensures ws in Workspaces(d) <==> CarriedRow(d, Key(Workspace, ws)).Some?
  {
    if ws in Workspaces(d) {
      var e :| e in d.graph && e.key.kind == Workspace && e.key.id == ws;
      assert e in d.graph + d.trailing && e.key == Key(Workspace, ws);
    }
    if CarriedRow(d, Key(Workspace, ws)).Some? {
      var e :| e in d.graph + d.trailing && e.key == Key(Workspace, ws);
      assert e in d.graph;
    }
  }

  lemma SameNewSettings(db: Db, d: Decoded, policy: Policy, now: int, after: Db)
    requires Leaves(db, d, policy, now, after) && KeysOk(d)
    ensures WritesSettings(d, after, policy) <==> WritesSettings(d, db, policy)
    ensures WritesSettings(d, db, policy) ==> NewSettings(after, d, policy) == NewSettings(db, d, policy)
  {
    SameSettingsDecision(db, d, policy, now, after);
    SettingsLeft(db, d, policy, now, after);
  }

  /** No row but a ruleset changes when the same backup is restored again. */
  lemma RowStays(db: Db, d: Decoded, policy: Policy, now: int, after: Db, k: Key)
    requires Leaves(db, d, policy, now, after) && KeysOk(d) && policy in {Merge, Replace}
    requires k.kind != ApiRuleset
    ensures RowAfter(after, d, policy, k) == RowAfter(db, d, policy, k)
  {
    assert Lookup(after.objects, k) == RowAfter(db, d, policy, k);
    SameNewSettings(db, d, policy, now, after);
    if CarriedRow(d, k).Some? {
      CarriedStored(db, d, policy, now, after, k);
      CarriedKinds(d, k);
    }
    if k.kind == LinkedFile && k in after.objects && after.objects[k].value.data.BindingData? {
      BindingStays(db, d, policy, now, after, after.objects[k].value.data.referrer.id);
    }
  }

  /** What the second restore rewrites, the first rewrote too. */
  lemma BindingStays(db: Db, d: Decoded, policy: Policy, now: int, after: Db, id: Id)
    requires Leaves(db, d, policy, now, after) && KeysOk(d) && policy in {Merge, Replace}
    ensures RewritesReferrer(after, d, policy, id) ==> RewritesReferrer(db, d, policy, id)
  {
    forall k | k in {Key(Request, id), Key(Dataset, id)} ensures WritesRow(after, d, policy, k) ==> WritesRow(db, d, policy, k) {
      if CarriedRow(d, k).Some? {
        CarriedStored(db, d, policy, now, after, k);
      }
    }
    assert Key(Request, id) in {Key(Request, id), Key(Dataset, id)};
    assert Key(Dataset, id) in {Key(Request, id), Key(Dataset, id)};
  }

  lemma TablesStay(db: Db, d: Decoded, policy: Policy, now: int, after: Db)
    requires Leaves(db, d, policy, now, after)
    ensures forall id :: SecretAfter(after, d, policy, id) == SecretAfter(db, d, policy, id)
    ensures forall id :: RecordAfter(after, d, policy, now, id) == RecordAfter(db, d, policy, now, id)
    ensures forall id :: ReportAfter(after, d, policy, id) == ReportAfter(db, d, policy, id)
    ensures forall h :: FileAfter(after, d, h) == FileAfter(db, d, h)
  {
    forall id ensures SecretAfter(after, d, policy, id) == SecretAfter(db, d, policy, id) {
      assert Lookup(after.secrets, id) == SecretAfter(db, d, policy, id);
    }
    forall id ensures RecordAfter(after, d, policy, now, id) == RecordAfter(db, d, policy, now, id) {
      assert Lookup(after.history, id) == RecordAfter(db, d, policy, now, id);
    }
    forall id ensures ReportAfter(after, d, policy, id) == ReportAfter(db, d, policy, id) {
      assert Lookup(after.reports, id) == ReportAfter(db, d, policy, id);
    }
    forall h ensures FileAfter(after, d, h) == FileAfter(db, d, h) {
      assert Lookup(after.files, h) == FileAfter(db, d, h);
    }
  }

  // -------------------------------------------------------------- rulesets

  lemma {:induction false} SameArrivals(rs: seq<Ruleset>, a: Objects, b: Objects, next: real)
    requires forall r :: r in rs ==> (RulesetKey(r) in a <==> RulesetKey(r) in b)
    ensures Arrivals(rs, a, next) == Arrivals(rs, b, next)
    decreases |rs|
  {
    if rs == [] {
    } else {
      assert rs == [rs[0]] + rs[1..];
      SameArrivals(rs[1..], a, b, next);
      SameArrivals(rs[1..], a, b, next + 1.0);
    }
  }

  /** Replacing all rulesets places them alike whatever was stored before. */
  lemma FreshRulesetAt(db: Db, d: Decoded, after: Db, k: Key)
    requires KeysOk(d) && DistinctRulesets(d.rulesets) && !KeepsRulesets(d, db, Replace)
    requires LeavesRulesets(db, d, Replace, after) && k.kind == ApiRuleset
    ensures Lookup(after.objects, k).None? <==> forall r :: r in d.rulesets ==> RulesetKey(r) != k
    ensures forall p :: p in Arrivals(d.rulesets, map[], 0.0) && RulesetKey(p.ruleset) == k ==>
      Lookup(after.objects, k) == Some(RulesetRow(p.ruleset, p.sort))
  {
    var o, w := AfterSettings(db, d, Replace), WriterFor(d, db, Replace);
    SettingsLeaveRulesets(db, d, Replace);
    forall q: Key | q.kind == ApiRuleset ensures q !in o {
      assert Lookup(o, q) == Lookup(Base(db, d, Replace), q);
    }
    assert RulesetSorts(o) == {};
    var next := TopOf(RulesetSorts(o)) + 1.0;
    TopIsUnique(TopOf(RulesetSorts(o)), -1.0, RulesetSorts(o));
    StartsAbove(db, d, Replace);
    PutRulesetsAt(o, o, next, d.rulesets, w, k);
    SameArrivals(d.rulesets, o, map[], 0.0);
    RulesetRowLeft(db, d, Replace, after, k);
    assert Lookup(after.objects, k) == Lookup(AfterRulesets(db, d, Replace).value, k);
  }

  lemma FreshRulesetsAgree(db: Db, d: Decoded, after: Db, again: Db, k: Key)
    requires KeysOk(d) && DistinctRulesets(d.rulesets)
    requires !KeepsRulesets(d, db, Replace) && !KeepsRulesets(d, after, Replace)
    requires LeavesRulesets(db, d, Replace, after) && LeavesRulesets(after, d, Replace, again)
    requires k.kind == ApiRuleset
    ensures Lookup(again.objects, k) == Lookup(after.objects, k)
  {
    FreshRulesetAt(db, d, after, k);
    FreshRulesetAt(after, d, again, k);
    ArrivalsOrder(d.rulesets, map[], 0.0);
    if r :| r in d.rulesets && RulesetKey(r) == k {
      var p :| p in Arrivals(d.rulesets, map[], 0.0) && p.ruleset == r;
      assert Lookup(after.objects, k) == Some(RulesetRow(p.ruleset, p.sort));
    }
  }

  /** A ruleset that is stored is rewritten under the sort key it has. */
  /** The rulesets a restore does not replace as a whole are still there when it writes its own. */
  lemma StoredInPlace(db: Db, d: Decoded, policy: Policy, k: Key)
    requires policy in {Merge, Replace} && (policy == Replace ==> KeepsRulesets(d, db, policy))
    requires k.kind == ApiRuleset && k in db.objects && KeysOk(d)
    ensures Lookup(AfterSettings(db, d, policy), k) == Some(db.objects[k])
  {
    SettingsLeaveRulesets(db, d, policy);
    assert Lookup(AfterSettings(db, d, policy), k) == Lookup(Base(db, d, policy), k);
  }

  lemma StoredRulesetAt(db: Db, d: Decoded, policy: Policy, after: Db, k: Key)
    requires KeysOk(d) && DistinctRulesets(d.rulesets) && policy in {Merge, Replace}
    requires policy == Replace ==> KeepsRulesets(d, db, policy)
    requires LeavesRulesets(db, d, policy, after) && k.kind == ApiRuleset && k in db.objects
    ensures k in after.objects && after.objects[k].sort == db.objects[k].sort
  {
    var o, w := AfterSettings(db, d, policy), WriterFor(d, db, policy);
    StartsAbove(db, d, policy);
    StoredInPlace(db, d, policy, k);
    assert Lookup(after.objects, k) == Lookup(AfterRulesets(db, d, policy).value, k);
    StoredKeyAfter(o, TopOf(RulesetSorts(o)) + 1.0, d.rulesets, w, k);
  }


  lemma KeptRulesetsAgree(db: Db, d: Decoded, policy: Policy, after: Db, again: Db, k: Key)
    requires KeysOk(d) && DistinctRulesets(d.rulesets) && policy in {Merge, Replace}
    requires policy == Replace ==> KeepsRulesets(d, db, policy) && KeepsRulesets(d, after, policy)
    requires LeavesRulesets(db, d, policy, after) && LeavesRulesets(after, d, policy, again)
    requires k.kind == ApiRuleset
    ensures Lookup(again.objects, k) == Lookup(after.objects, k)
  {
    RulesetRowLeft(db, d, policy, after, k);
    RulesetRowLeft(after, d, policy, again, k);
    if k in after.objects {
      StoredRulesetAt(after, d, policy, again, k);
      if r :| r in d.rulesets && RulesetKey(r) == k && policy == Replace {
        assert after.objects[k] == RulesetRow(r, after.objects[k].sort);
        assert again.objects[k] == RulesetRow(r, again.objects[k].sort);
      }
    }
  }

  lemma RulesetsStay(db: Db, d: Decoded, policy: Policy, after: Db, again: Db)
    requires KeysOk(d) && DistinctRulesets(d.rulesets) && policy in {Merge, Replace}
    requires LeavesRulesets(db, d, policy, after) && LeavesRulesets(after, d, policy, again)
    requires KeepsSettings(d, after, policy) <==> KeepsSettings(d, db, policy)
    ensures SameRulesets(again.objects, after.objects)
  {
    forall k: Key | k.kind == ApiRuleset ensures Lookup(again.objects, k) == Lookup(after.objects, k) {
      if policy == Replace && !KeepsRulesets(d, db, policy) {
        FreshRulesetsAgree(db, d, after, again, k);
      } else {
        KeptRulesetsAgree(db, d, policy, after, again, k);
      }
    }
  }

  /** Restoring the same backup twice leaves what restoring it once left. */
  lemma RestoreTwiceIsOnce(db: Db, d: Decoded, policy: Policy, approval: Approval, now: int, after: Db, report: Restored,
                           approval': Approval, again: Db, report': Restored)
    requires Restores(db, d, policy, approval, now, after, report)
    requires Restores(after, d, policy, approval', now, again, report')
    ensures again == after
  {
    RestoreLeaves(db, d, policy, approval, now, after, report);
    RestoreLeaves(after, d, policy, approval', now, again, report');
    SecondLeavesSame(db, d, policy, now, after, again);
  }

  lemma SecondLeavesSame(db: Db, d: Decoded, policy: Policy, now: int, after: Db, again: Db)
    requires KeysOk(d) && DistinctRulesets(d.rulesets) && policy in {Merge, Replace}
    requires Leaves(db, d, policy, now, after) && LeavesRulesets(db, d, policy, after)
    requires Leaves(after, d, policy, now, again) && LeavesRulesets(after, d, policy, again)
    ensures again == after
  {
    SameSettingsDecision(db, d, policy, now, after);
    RulesetsStay(db, d, policy, after, again);
    forall k: Key ensures Lookup(again.objects, k) == Lookup(after.objects, k) {
      if k.kind != ApiRuleset {
        assert Lookup(again.objects, k) == RowAfter(after, d, policy, k);
        assert Lookup(after.objects, k) == RowAfter(db, d, policy, k);
        RowStays(db, d, policy, now, after, k);
      }
    }
    SameMap(again.objects, after.objects);
    TablesStay(db, d, policy, now, after);
    SecondTablesSame(db, d, policy, now, after, again);
  }

  lemma SecondTablesSame(db: Db, d: Decoded, policy: Policy, now: int, after: Db, again: Db)
    requires Leaves(db, d, policy, now, after) && Leaves(after, d, policy, now, again)
    ensures again.secrets == after.secrets && again.history == after.history
    ensures again.reports == after.reports && again.files == after.files
  {
    TablesStay(db, d, policy, now, after);
    forall id ensures Lookup(again.secrets, id) == Lookup(after.secrets, id) {
      assert Lookup(again.secrets, id) == SecretAfter(after, d, policy, id);
    }
    forall id ensures Lookup(again.history, id) == Lookup(after.history, id) {
      assert Lookup(again.history, id) == RecordAfter(after, d, policy, now, id);
    }
    forall id ensures Lookup(again.reports, id) == Lookup(after.reports, id) {
      assert Lookup(again.reports, id) == ReportAfter(after, d, policy, id);
    }
    forall h ensures Lookup(again.files, h) == Lookup(after.files, h) {
      assert Lookup(again.files, h) == FileAfter(after, d, h);
    }
    SameMap(again.secrets, after.secrets);
    SameMap(again.history, after.history);
    SameMap(again.reports, after.reports);
    SameMap(again.files, after.files);
  }

  // ------------------------------------------- accepted a second time

  lemma CarriedEntry(db: Db, d: Decoded, policy: Policy, now: int, after: Db, e: Entry)
    requires Leaves(db, d, policy, now, after) && KeysOk(d) && e in d.graph + d.trailing
    ensures e.key in after.objects
    ensures policy == Replace ==> after.objects[e.key] == e.row
  {
    CarriedRowIs(d, e);
    CarriedStored(db, d, policy, now, after, e.key);
  }

  lemma RecordStored(db: Db, d: Decoded, now: int, after: Db, h: RecordEntry)
    requires RecordsOk(d) && Leaves(db, d, Replace, now, after) && h in d.history
    ensures Lookup(after.history, h.id) == Some(StoredRecord(Clamped(h.record, now)))
  {
    assert CarriedRecord(d, h.id) == Some(h.record);
    assert Lookup(after.history, h.id) == RecordAfter(db, d, Replace, now, h.id);
  }

  lemma CarriedReportIs(d: Decoded, r: ReportEntry)
    requires r in d.reports && forall i, j :: 0 <= i < j < |d.reports| ==> d.reports[i].id != d.reports[j].id
    ensures CarriedReport(d, r.id) == Some(r.report)
  {
    var q :| q in d.reports && q.id == r.id && CarriedReport(d, r.id) == Some(q.report);
    var i :| 0 <= i < |d.reports| && d.reports[i] == r;
    var j :| 0 <= j < |d.reports| && d.reports[j] == q;
  }

  lemma ReportStored(db: Db, d: Decoded, now: int, after: Db, r: ReportEntry)
    requires RecordsOk(d) && Leaves(db, d, Replace, now, after) && r in d.reports
    ensures Lookup(after.reports, r.id) == Some(r.report)
  {
    CarriedReportIs(d, r);
    assert Lookup(after.reports, r.id) == ReportAfter(db, d, Replace, r.id);
  }

  lemma SecretStored(db: Db, d: Decoded, now: int, after: Db, s: SecretEntry)
    requires RecordsOk(d) && Leaves(db, d, Replace, now, after) && s in d.secrets
    ensures Lookup(after.secrets, s.id) == Some(s.secret)
  {
    assert CarriedSecret(d, s.id) == Some(s.secret);
    assert Lookup(after.secrets, s.id) == SecretAfter(db, d, Replace, s.id);
  }

  lemma NothingForeignAfter(db: Db, d: Decoded, now: int, after: Db)
    requires KeysOk(d) && RecordsOk(d) && Leaves(db, d, Replace, now, after)
    requires forall k :: k in after.objects && k.kind == ApiRuleset ==> after.objects[k].owner == None
    ensures ItemsAtHome(d, after) && SecretsAtHome(d, after)
  {
    forall e | e in d.graph + d.trailing ensures e.key in after.objects && after.objects[e.key].owner == e.row.owner {
      CarriedEntry(db, d, Replace, now, after, e);
    }
    forall h | h in d.history ensures h.id in after.history && after.history[h.id].workspace == h.record.workspace {
      RecordStored(db, d, now, after, h);
    }
    forall r | r in d.reports ensures r.id in after.reports && after.reports[r.id].workspace == r.report.workspace {
      ReportStored(db, d, now, after, r);
    }
    forall s | s in d.secrets ensures s.id in after.secrets && after.secrets[s.id].owner == s.secret.owner {
      SecretStored(db, d, now, after, s);
    }
  }

  lemma NothingConflictsAfter(db: Db, d: Decoded, policy: Policy, now: int, after: Db)
    requires KeysOk(d) && RecordsOk(d) && Leaves(db, d, policy, now, after) && policy in {Merge, Replace}
    ensures !WritesConflict(after, d, policy)
  {
    forall e | e in d.graph ensures !RevisionConflict(after, policy, e) {
      assert e in d.graph + d.trailing;
      CarriedEntry(db, d, policy, now, after, e);
    }
    forall h | h in d.history ensures !RecordConflict(after, policy, h) {
      if policy == Replace {
        RecordStored(db, d, now, after, h);
      }
    }
  }

  /** Under Replace no spec source of the backup clashes with what the first restore left. */
  lemma NoClashAfterReplace(db: Db, d: Decoded, now: int, after: Db)
    requires KeysOk(d) && Leaves(db, d, Replace, now, after) && !NamespacesClash(d, db, Replace)
    requires forall e :: e in d.trailing && e.row.owner.Some? ==> e.row.owner.value in Workspaces(d)
    requires forall e :: e in d.trailing && e.key.kind == SpecSource ==> e.row.owner.Some?
    ensures !NamespacesClash(d, after, Replace)
  {
    forall e, k | e in d.trailing && k in after.objects ensures !ClashesWith(e, k, after.objects[k], Workspaces(d)) {
      if k.kind == SpecSource {
        assert Lookup(after.objects, k) == RowAfter(db, d, Replace, k);
        if WritesRow(db, d, Replace, k) {
          var q :| q in d.graph + d.trailing && q.key == k && CarriedRow(d, k) == Some(q.row);
          assert q in d.trailing;
        } else {
          assert !ClashesWith(e, k, db.objects[k], Workspaces(d));
        }
      }
    }
  }

  /** The rulesets a second restore predicts are the ones already stored. */
  lemma SecondPrediction(db: Db, d: Decoded, policy: Policy, now: int, after: Db)
    requires Ready(after, d, policy) && !WritesConflict(after, d, policy)
    requires Leaves(db, d, policy, now, after) && LeavesRulesets(db, d, policy, after)
    ensures CombinedRulesets(d, after, policy, Listing(after.objects)) == Listing(after.objects)
  {
    AppliedOutcome(after, d, policy, now);
    var again := Applied(after, d, policy, now).value;
    SecondLeavesSame(db, d, policy, now, after, again);
    PlacedRulesets(after, d, policy, again);
  }

  /** What the first restore established for a second one. */
  lemma SecondReady(db: Db, d: Decoded, policy: Policy, approval: Approval, now: int, after: Db, report: Restored)
    requires Restores(db, d, policy, approval, now, after, report)
    ensures Ready(after, d, policy) && !WritesConflict(after, d, policy)
    ensures policy == Replace ==> ItemsAtHome(d, after) && SecretsAtHome(d, after)
    ensures Leaves(db, d, policy, now, after) && LeavesRulesets(db, d, policy, after)
    ensures ChecksHold(db, d, policy, approval)
  {
    RestoreLeaves(db, d, policy, approval, now, after, report);
    ChecksPass(db, d, policy, approval);
    RestoreKeepsValid(db, d, policy, approval, now, after, report);
    NothingConflictsAfter(db, d, policy, now, after);
    if policy == Replace {
      forall k | k in after.objects && k.kind == ApiRuleset ensures after.objects[k].owner == None {
        RulesetOwner(db, d, policy, after, k);
      }
      NothingForeignAfter(db, d, now, after);
    }
  }

  /**
   * A backup just restored is accepted again whenever its workspaces are
   * approved and no namespace it uses is shared; under Replace the latter
   * always holds.
   */
  lemma RestoreAgainAccepted(db: Db, d: Decoded, policy: Policy, approval: Approval, now: int, after: Db, report: Restored,
                             approval': Approval, now': int)
    requires Restores(db, d, policy, approval, now, after, report)
    ensures Transaction(after, d, policy, approval', now').Ok? <==>
      Workspaces(d) <= approval'.workspaces && !NamespacesClash(d, after, policy)
    ensures policy == Replace ==> !NamespacesClash(d, after, policy)
  {
    SecondReady(db, d, policy, approval, now, after, report);
    SecondPrediction(db, d, policy, now, after);
    RestoreAcceptedExactly(after, d, policy, approval', now');
    ChecksAgain(db, d, policy, approval, now, after, approval');
    if policy == Replace {
      SourcesOwned(d);
      NoClashAfterReplace(db, d, now, after);
    }
  }

  lemma ChecksAgain(db: Db, d: Decoded, policy: Policy, approval: Approval, now: int, after: Db, approval': Approval)
    requires KeysOk(d) && Leaves(db, d, policy, now, after) && ChecksHold(db, d, policy, approval)
    requires policy == Replace ==> ItemsAtHome(d, after) && SecretsAtHome(d, after)
    requires forall h :: h in d.uncarried ==> h !in d.files
    ensures ChecksHold(after, d, policy, approval') <==> Workspaces(d) <= approval'.workspaces && !NamespacesClash(d, after, policy)
  {
    SameSettingsDecision(db, d, policy, now, after);
    forall h | h in d.uncarried && h in after.files ensures after.files[h].content.None? {
      assert Lookup(after.files, h) == FileAfter(db, d, h);
    }
  }

  lemma SourcesOwned(d: Decoded)
    requires WellFormed(d)
    ensures forall e :: e in d.trailing && e.row.owner.Some? ==> e.row.owner.value in Workspaces(d)
    ensures forall e :: e in d.trailing && e.key.kind == SpecSource ==> e.row.owner.Some?
  {
    forall e | e in d.trailing ensures RowOk(e, Workspaces(d)) {}
  }
}
