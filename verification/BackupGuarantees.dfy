/**
 * What every accepted restore guarantees: exactly when it is accepted, what
 * it never touches, and what doing it again changes.
 */
module BackupGuarantees {
  import opened Prelude
  import opened Store
  import opened Rulesets
  import opened BackupWrite
  import opened BackupRestore
  import opened BackupEffects
  import opened BackupOutcome

  /** A restore of a decoded backup into a valid store that was accepted and left `after`. */
  ghost predicate Restores(db: Db, d: Decoded, policy: Policy, approval: Approval, now: int, after: Db, report: Restored) {
    && Valid(db) && WellFormed(d) && policy in {Merge, Replace}
    && Transaction(db, d, policy, approval, now) == Ok((after, report))
  }

  // -------------------------------------------------- when it is accepted

  /** The checks on the plan, each in terms a caller can look up beforehand. */
  ghost predicate ChecksHold(db: Db, d: Decoded, policy: Policy, approval: Approval) {
    && !NamespacesClash(d, db, policy)
    && (forall h :: h in d.uncarried && h in db.files ==> db.files[h].content.None?)
    && (forall ws :: ws in Workspaces(d) && ws in StoredWorkspaces(db) ==> ws in approval.workspaces)
    && (policy == Replace ==> ItemsAtHome(d, db) && SecretsAtHome(d, db))
  }

  /** What an accepted restore needs. */
  ghost predicate Acceptable(db: Db, d: Decoded, policy: Policy, approval: Approval) {
    && ChecksHold(db, d, policy, approval)
    && WithinLimits(CombinedRulesets(d, db, policy, Listing(db.objects)), Listing(db.objects))
    && !WritesConflict(db, d, policy)
  }

  lemma ChecksPass(db: Db, d: Decoded, policy: Policy, approval: Approval)
    requires ListsSettings(d)
    ensures PlanRefusal(d, db, policy, approval).None? <==> ChecksHold(db, d, policy, approval)
  {
    ForeignMeans(d, db);
    assert UncarriedHere(d, db) == {} <==> forall h :: h in d.uncarried && h in db.files ==> db.files[h].content.None? by {
      if UncarriedHere(d, db) == {} {
        forall h | h in d.uncarried && h in db.files ensures db.files[h].content.None? {
          assert h !in UncarriedHere(d, db);
        }
      }
    }
  }

  /** A restore goes through exactly when every check passes and no stored row or record conflicts. */
  lemma RestoreAcceptedExactly(db: Db, d: Decoded, policy: Policy, approval: Approval, now: int)
    requires Valid(db) && WellFormed(d) && policy in {Merge, Replace}
    ensures Transaction(db, d, policy, approval, now).Ok? <==> Acceptable(db, d, policy, approval)
  {
    ChecksPass(db, d, policy, approval);
    if PlanRefusal(d, db, policy, approval).None? {
      AppliedOutcome(db, d, policy, now);
    }
  }

  /** The approval is for this file, or approves nothing. */
  predicate ApprovesFile(approval: Approval, file: Hash) {
    approval.digest == Some(file) || (approval.digest.None? && approval.workspaces == {})
  }

  /**
   * The whole decision of a restore: it writes exactly when the approval fits
   * the file, the file opened and decoded, the caller went on, and every check
   * on what is stored passes.
   */
  lemma RestoreSucceedsExactly(db: Db, file: Hash, backup: Result<Decoded, BackupError>, policy: Policy, approval: Approval,
                               proceed: bool, now: int)
    requires Valid(db) && (backup.Ok? ==> WellFormed(backup.value))
    ensures var admitted := Admitted(file, backup, policy, approval, proceed);
      (admitted.Ok? && Transaction(db, admitted.value, policy, approval, now).Ok?)
      <==> (ApprovesFile(approval, file) && policy != Duplicate && backup.Ok? && proceed && Acceptable(db, backup.value, policy, approval))
  {
    AdmittedExactly(file, backup, policy, approval, proceed);
    if Admitted(file, backup, policy, approval, proceed).Ok? {
      RestoreAcceptedExactly(db, backup.value, policy, approval, now);
    }
  }

  /** What ends a restore before its transaction, in the order it is found. */
  lemma AdmittedExactly(file: Hash, backup: Result<Decoded, BackupError>, policy: Policy, approval: Approval, proceed: bool)
    ensures Admitted(file, backup, policy, approval, proceed).Ok? <==>
      ApprovesFile(approval, file) && policy != Duplicate && backup.Ok? && proceed
    ensures Admitted(file, backup, policy, approval, proceed).Ok? ==> Admitted(file, backup, policy, approval, proceed).value == backup.value
    ensures approval.digest.Some? && approval.digest != Some(file) ==> Admitted(file, backup, policy, approval, proceed) == Err(FileChanged)
    ensures approval.digest.None? && approval.workspaces != {} ==> Admitted(file, backup, policy, approval, proceed) == Err(UnboundApproval)
    ensures ApprovesFile(approval, file) && policy == Duplicate ==>
      Admitted(file, backup, policy, approval, proceed) == Err(BadFile(DuplicateUnsupported))
    ensures ApprovesFile(approval, file) && policy != Duplicate && backup.Err? ==>
      Admitted(file, backup, policy, approval, proceed) == Err(BadFile(backup.error))
    ensures ApprovesFile(approval, file) && policy != Duplicate && backup.Ok? && !proceed ==>
      Admitted(file, backup, policy, approval, proceed) == Err(Canceled)
  {
  }

  /** A source the backup brings uses the namespace of a stored one of another workspace, which stays. */
  ghost predicate TakesNamespace(db: Db, d: Decoded, policy: Policy, e: Entry, k: Key) {
    && e in d.trailing && e.key.kind == SpecSource && e.row.value.data.SpecData?
    && k in db.objects && k.kind == SpecSource && db.objects[k].value.data.SpecData?
    && db.objects[k].value.data.space == e.row.value.data.space
    && db.objects[k].owner.Some? && db.objects[k].owner != e.row.owner
    && (policy == Replace ==> db.objects[k].owner.value !in Workspaces(d))
  }

  lemma ClashMeans(db: Db, d: Decoded, policy: Policy, e: Entry, k: Key)
    requires Valid(db) && WellFormed(d) && e in d.trailing && k in db.objects
    ensures ClashesWith(e, k, db.objects[k], if policy == Replace then Workspaces(d) else {}) <==> TakesNamespace(db, d, policy, e, k)
  {
    assert Shaped(k.kind, db.objects[k]) && RowOk(e, Workspaces(d));
  }

  /** Namespaces clash exactly when some source takes one. */
  lemma NamespacesClashExactly(db: Db, d: Decoded, policy: Policy)
    requires Valid(db) && WellFormed(d)
    ensures NamespacesClash(d, db, policy) <==> exists e, k :: TakesNamespace(db, d, policy, e, k)
  {
    var replaced := if policy == Replace then Workspaces(d) else {};
    forall e, k | e in d.trailing && k in db.objects ensures ClashesWith(e, k, db.objects[k], replaced) <==> TakesNamespace(db, d, policy, e, k) {
      ClashMeans(db, d, policy, e, k);
    }
    if e, k :| TakesNamespace(db, d, policy, e, k) {
      assert ClashesWith(e, k, db.objects[k], replaced);
    }
    if e, k :| e in d.trailing && k in db.objects && ClashesWith(e, k, db.objects[k], replaced) {
      assert TakesNamespace(db, d, policy, e, k);
    }
  }

  ghost predicate NamesStoredFile(db: Db, d: Decoded) {
    exists h :: h in d.uncarried && h in db.files && db.files[h].content.Some?
  }

  ghost predicate LacksApproval(db: Db, d: Decoded, approval: Approval) {
    exists ws: Id :: ws in Workspaces(d) && Key(Workspace, ws) in db.objects && ws !in approval.workspaces
  }

  /** Which check of the plan is the first to fail. */
  lemma FirstPlanRefusal(db: Db, d: Decoded, policy: Policy, approval: Approval)
    requires ListsSettings(d)
    ensures var r, clash := PlanRefusal(d, db, policy, approval), NamespacesClash(d, db, policy);
      && (r == Some(NamespaceClash) <==> clash)
      && (r == Some(UncarriedStored) <==> !clash && UncarriedHere(d, db) != {})
      && (r == Some(Unapproved) <==>
            !clash && UncarriedHere(d, db) == {} && !(Workspaces(d) * StoredWorkspaces(db) <= approval.workspaces))
      && (r == Some(ForeignObjects) <==>
            && !clash && UncarriedHere(d, db) == {} && Workspaces(d) * StoredWorkspaces(db) <= approval.workspaces
            && policy == Replace && ForeignItems(d, db) != {})
      && (r == Some(ForeignSecrets) <==>
            && !clash && UncarriedHere(d, db) == {} && Workspaces(d) * StoredWorkspaces(db) <= approval.workspaces
            && policy == Replace && ForeignItems(d, db) == {} && ForeignSecretIds(d, db) != {})
      && (r.Some? ==> r.value in {NamespaceClash, UncarriedStored, Unapproved, ForeignObjects, ForeignSecrets})
  {
  }

  lemma PlanTerms(db: Db, d: Decoded, approval: Approval)
    ensures UncarriedHere(d, db) != {} <==> NamesStoredFile(db, d)
    ensures !(Workspaces(d) * StoredWorkspaces(db) <= approval.workspaces) <==> LacksApproval(db, d, approval)
  {
    if h :| h in d.uncarried && h in db.files && db.files[h].content.Some? {
      assert h in UncarriedHere(d, db);
    }
    if ws: Id :| ws in Workspaces(d) && Key(Workspace, ws) in db.objects && ws !in approval.workspaces {
      assert ws in StoredWorkspaces(db);
    }
  }

  /** A transaction answers its plan's refusal, or that of the limits, or goes on to write. */
  lemma TransactionRefusal(db: Db, d: Decoded, policy: Policy, approval: Approval, now: int)
    requires ListsSettings(d)
    ensures var r, first := Transaction(db, d, policy, approval, now), PlanRefusal(d, db, policy, approval);
      && (first.Some? ==> r == Err(first.value))
      && (first.None? ==>
            (r == Err(StandardsLimit) <==> !WithinLimits(CombinedRulesets(d, db, policy, Listing(db.objects)), Listing(db.objects))))
      && (first.None? && r.Err? ==> r.error == StandardsLimit || r.error.StoreRefused?)
  {
  }

  /** Which refusal a transaction answers: that of the first check that fails. */
  lemma FirstRefusal(db: Db, d: Decoded, policy: Policy, approval: Approval, now: int)
    requires ListsSettings(d)
    ensures var r, clash := Transaction(db, d, policy, approval, now), NamespacesClash(d, db, policy);
      && (r == Err(NamespaceClash) <==> clash)
      && (r == Err(UncarriedStored) <==> !clash && NamesStoredFile(db, d))
      && (r == Err(Unapproved) <==> !clash && !NamesStoredFile(db, d) && LacksApproval(db, d, approval))
      && (r == Err(ForeignObjects) <==>
            !clash && !NamesStoredFile(db, d) && !LacksApproval(db, d, approval) && policy == Replace && !ItemsAtHome(d, db))
      && (r == Err(ForeignSecrets) <==>
            && !clash && !NamesStoredFile(db, d) && !LacksApproval(db, d, approval)
            && policy == Replace && ItemsAtHome(d, db) && !SecretsAtHome(d, db))
      && (r == Err(StandardsLimit) <==>
            && ChecksHold(db, d, policy, approval)
            && !WithinLimits(CombinedRulesets(d, db, policy, Listing(db.objects)), Listing(db.objects)))
  {
    ChecksPass(db, d, policy, approval);
    ForeignMeans(d, db);
    FirstPlanRefusal(db, d, policy, approval);
    PlanTerms(db, d, approval);
    TransactionRefusal(db, d, policy, approval, now);
  }

  /** Everything known of the store an accepted restore leaves. */
  lemma RestoreLeaves(db: Db, d: Decoded, policy: Policy, approval: Approval, now: int, after: Db, report: Restored)
    requires Restores(db, d, policy, approval, now, after, report)
    ensures Ready(db, d, policy) && !WritesConflict(db, d, policy)
    ensures policy == Replace ==> SecretsAtHome(d, db)
    ensures Leaves(db, d, policy, now, after) && LeavesRulesets(db, d, policy, after)
  {
    ChecksPass(db, d, policy, approval);
    AppliedOutcome(db, d, policy, now);
  }

  /** Whatever passes every check but conflicts is refused by the store, and by nothing before it. */
  lemma ConflictIsRefused(db: Db, d: Decoded, policy: Policy, approval: Approval, now: int)
    requires Valid(db) && WellFormed(d) && policy in {Merge, Replace}
    requires ChecksHold(db, d, policy, approval) && WritesConflict(db, d, policy)
    requires WithinLimits(CombinedRulesets(d, db, policy, Listing(db.objects)), Listing(db.objects))
    ensures Transaction(db, d, policy, approval, now).Err? && Transaction(db, d, policy, approval, now).error.StoreRefused?
  {
    ChecksPass(db, d, policy, approval);
    AppliedOutcome(db, d, policy, now);
  }

  // --------------------------------------------------------- the preview

  /** A restore that goes through reports the plan its dry run gave; where the dry run refused, so does the restore. */
  lemma RestoreFollowsPreview(db: Db, file: Hash, backup: Result<Decoded, BackupError>, policy: Policy, approval: Approval,
                              proceed: bool, now: int)
    requires backup.Ok? ==> ListsSettings(backup.value)
    ensures var admitted, preview := Admitted(file, backup, policy, approval, proceed), Preview(db, backup, policy);
      && (admitted.Ok? && Transaction(db, admitted.value, policy, approval, now).Ok? ==>
            preview == Ok(Transaction(db, admitted.value, policy, approval, now).value.1.plan))
      && (admitted.Ok? && preview.Err? ==> Transaction(db, admitted.value, policy, approval, now) == Err(preview.error))
  {
  }

  // ------------------------------------------------------------ isolation

  predicate Belongs(o: Objects, k: Key, ws: Id) {
    k in o && (o[k].owner == Some(ws) || k == Key(Workspace, ws))
  }

  predicate SecretOf(m: map<Id, Secret>, id: Id, ws: Id) {
    id in m && m[id].owner == Some(ws)
  }

  predicate RecordOf(m: map<Id, Record>, id: Id, ws: Id) {
    id in m && m[id].workspace == Some(ws)
  }

  predicate ReportOf(m: map<Id, Report>, id: Id, ws: Id) {
    id in m && m[id].workspace == ws
  }

  /** Everything `ws` owned is as it was, and it owns nothing new. */
  ghost predicate RowsUntouched(db: Db, after: Db, ws: Id) {
    forall k :: Belongs(db.objects, k, ws) || Belongs(after.objects, k, ws) ==> Lookup(after.objects, k) == Lookup(db.objects, k)
  }

  ghost predicate TablesUntouched(db: Db, after: Db, ws: Id) {
    && (forall id :: SecretOf(db.secrets, id, ws) || SecretOf(after.secrets, id, ws) ==> Lookup(after.secrets, id) == Lookup(db.secrets, id))
    && (forall id :: RecordOf(db.history, id, ws) || RecordOf(after.history, id, ws) ==> Lookup(after.history, id) == Lookup(db.history, id))
    && (forall id :: ReportOf(db.reports, id, ws) || ReportOf(after.reports, id, ws) ==> Lookup(after.reports, id) == Lookup(db.reports, id))
  }

  /** The carried row of a well-formed backup belongs to one of its workspaces. */
  lemma CarriedOwner(d: Decoded, k: Key)
    requires WellFormed(d) && CarriedRow(d, k).Some?
    ensures GraphKind(k.kind) || TrailingKind(k.kind)
    ensures RowOk(Entry(k, CarriedRow(d, k).value), Workspaces(d))
    ensures k.kind == Workspace ==> k.id in Workspaces(d)
  {
    var e :| e in d.graph + d.trailing && e.key == k;
    CarriedRowIs(d, e);
    assert e in d.graph || e in d.trailing;
    assert Entry(k, e.row) == e;
  }

  /** Under Replace a carried row has the owner stored here. */
  lemma CarriedMatches(db: Db, d: Decoded, k: Key)
    requires DistinctKeys(d.graph + d.trailing) && ItemsAtHome(d, db)
    requires CarriedRow(d, k).Some? && k in db.objects
    ensures db.objects[k].owner == CarriedRow(d, k).value.owner
  {
    var e :| e in d.graph + d.trailing && e.key == k;
    CarriedRowIs(d, e);
    NotForeign(db, d, e);
  }

  /** No row changes owner, whatever is written. */
  lemma RowOwnerStays(db: Db, d: Decoded, policy: Policy, k: Key)
    requires Ready(db, d, policy) && k.kind != ApiRuleset
    requires k in db.objects && RowAfter(db, d, policy, k).Some?
    ensures RowAfter(db, d, policy, k).value.owner == db.objects[k].owner
  {
    assert Shaped(k.kind, db.objects[k]);
    if WritesRow(db, d, policy, k) {
      CarriedMatches(db, d, k);
    }
  }

  lemma RulesetOwner(db: Db, d: Decoded, policy: Policy, after: Db, k: Key)
    requires Valid(db) && KeysOk(d) && LeavesRulesets(db, d, policy, after)
    requires k.kind == ApiRuleset && k in after.objects
    ensures after.objects[k].owner == None
  {
    var o, w := AfterSettings(db, d, policy), WriterFor(d, db, policy);
    RulesetsUnowned(db, d, policy);
    PutRulesetsFrame(o, o, TopOf(RulesetSorts(o)) + 1.0, d.rulesets, w);
    assert Lookup(after.objects, k) == Lookup(AfterRulesets(db, d, policy).value, k);
  }

  /** What a restore writes is not of a workspace outside the backup. */
  lemma WrittenElsewhere(db: Db, d: Decoded, policy: Policy, k: Key, ws: Id)
    requires Ready(db, d, policy) && WritesRow(db, d, policy, k) && ws !in Workspaces(d)
    ensures CarriedRow(d, k).value.owner != Some(ws) && k != Key(Workspace, ws)
    ensures k in db.objects ==> db.objects[k].owner != Some(ws)
    ensures k.kind !in {DeviceSeal, LinkedFile, AppSettings, ApiRuleset}
  {
    CarriedOwner(d, k);
    if k in db.objects {
      CarriedMatches(db, d, k);
    }
  }

  lemma RowIsolated(db: Db, d: Decoded, policy: Policy, k: Key, ws: Id)
    requires Ready(db, d, policy) && k.kind != ApiRuleset && ws !in Workspaces(d)
    requires Belongs(db.objects, k, ws)
          || (RowAfter(db, d, policy, k).Some? && (RowAfter(db, d, policy, k).value.owner == Some(ws) || k == Key(Workspace, ws)))
    ensures RowAfter(db, d, policy, k) == Lookup(db.objects, k)
  {
    if k in db.objects {
      assert Shaped(k.kind, db.objects[k]);
    }
    if WritesRow(db, d, policy, k) {
      WrittenElsewhere(db, d, policy, k, ws);
    }
  }

  /**
   * After an accepted restore, everything a stored workspace outside the
   * backup owned is exactly as it was, nothing new is owned by it, and the
   * app settings that reach its requests are unchanged.
   */
  lemma OutsideWorkspaceUntouched(db: Db, d: Decoded, policy: Policy, approval: Approval, now: int,
                                  after: Db, report: Restored, ws: Id)
    requires Restores(db, d, policy, approval, now, after, report)
    requires ws in StoredWorkspaces(db) && ws !in Workspaces(d)
    ensures RowsUntouched(db, after, ws) && TablesUntouched(db, after, ws)
    ensures SettingsOf(after.objects) == SettingsOf(db.objects)
  {
    RestoreLeaves(db, d, policy, approval, now, after, report);
    OutsideRows(db, d, policy, now, after, ws);
    OutsideTables(db, d, policy, now, after, ws);
    OutsideSettings(db, d, policy, now, after, ws);
  }

  lemma OutsideSettings(db: Db, d: Decoded, policy: Policy, now: int, after: Db, ws: Id)
    requires Leaves(db, d, policy, now, after)
    requires ws in StoredWorkspaces(db) && ws !in Workspaces(d)
    ensures SettingsOf(after.objects) == SettingsOf(db.objects)
  {
    assert ws in StoredWorkspaces(db) - Workspaces(d);
    assert !WritesSettings(d, db, policy);
    assert Lookup(after.objects, SETTINGS_KEY) == RowAfter(db, d, policy, SETTINGS_KEY);
  }

  lemma OutsideRows(db: Db, d: Decoded, policy: Policy, now: int, after: Db, ws: Id)
    requires Ready(db, d, policy) && ws !in Workspaces(d)
    requires Leaves(db, d, policy, now, after) && LeavesRulesets(db, d, policy, after)
    ensures RowsUntouched(db, after, ws)
  {
    forall k | Belongs(db.objects, k, ws) || Belongs(after.objects, k, ws) ensures Lookup(after.objects, k) == Lookup(db.objects, k) {
      OutsideRow(db, d, policy, after, k, ws);
    }
  }

  lemma OutsideRow(db: Db, d: Decoded, policy: Policy, after: Db, k: Key, ws: Id)
    requires Ready(db, d, policy) && ws !in Workspaces(d)
    requires LeavesRulesets(db, d, policy, after)
    requires k.kind != ApiRuleset ==> Lookup(after.objects, k) == RowAfter(db, d, policy, k)
    requires Belongs(db.objects, k, ws) || Belongs(after.objects, k, ws)
    ensures Lookup(after.objects, k) == Lookup(db.objects, k)
  {
    if k.kind == ApiRuleset {
      if k in db.objects {
        assert Shaped(ApiRuleset, db.objects[k]);
      }
      if k in after.objects {
        RulesetOwner(db, d, policy, after, k);
      }
      assert false;
    } else {
      RowIsolated(db, d, policy, k, ws);
    }
  }

  lemma OutsideTables(db: Db, d: Decoded, policy: Policy, now: int, after: Db, ws: Id)
    requires RecordsOk(d) && Leaves(db, d, policy, now, after) && ws !in Workspaces(d)
    requires policy in {Merge, Replace}
    requires policy == Replace ==> ItemsAtHome(d, db) && SecretsAtHome(d, db)
    ensures TablesUntouched(db, after, ws)
  {
    forall id | SecretOf(db.secrets, id, ws) || SecretOf(after.secrets, id, ws) ensures Lookup(after.secrets, id) == Lookup(db.secrets, id) {
      assert Lookup(after.secrets, id) == SecretAfter(db, d, policy, id);
      SecretMatches(db, d, policy, id);
    }
    forall id | RecordOf(db.history, id, ws) || RecordOf(after.history, id, ws) ensures Lookup(after.history, id) == Lookup(db.history, id) {
      assert Lookup(after.history, id) == RecordAfter(db, d, policy, now, id);
      RecordMatches(db, d, policy, id);
    }
    forall id | ReportOf(db.reports, id, ws) || ReportOf(after.reports, id, ws) ensures Lookup(after.reports, id) == Lookup(db.reports, id) {
      assert Lookup(after.reports, id) == ReportAfter(db, d, policy, id);
      ReportMatches(db, d, policy, id);
    }
  }

  lemma SecretMatches(db: Db, d: Decoded, policy: Policy, id: Id)
    requires policy == Replace ==> SecretsAtHome(d, db)
    ensures RecordsOk(d) && CarriedSecret(d, id).Some? && CarriedSecret(d, id).value.owner.Some? ==>
      CarriedSecret(d, id).value.owner.value in Workspaces(d)
    ensures policy == Replace && CarriedSecret(d, id).Some? && id in db.secrets ==> CarriedSecret(d, id).value.owner == db.secrets[id].owner
  {
    if CarriedSecret(d, id).Some? {
      var s :| s in d.secrets && s.id == id && CarriedSecret(d, id) == Some(s.secret);
    }
  }

  lemma RecordMatches(db: Db, d: Decoded, policy: Policy, id: Id)
    requires policy == Replace ==> ItemsAtHome(d, db)
    ensures RecordsOk(d) && CarriedRecord(d, id).Some? && CarriedRecord(d, id).value.workspace.Some? ==>
      CarriedRecord(d, id).value.workspace.value in Workspaces(d)
    ensures policy == Replace && CarriedRecord(d, id).Some? && id in db.history ==>
      CarriedRecord(d, id).value.workspace == db.history[id].workspace
  {
    if CarriedRecord(d, id).Some? {
      var h :| h in d.history && h.id == id && CarriedRecord(d, id) == Some(h.record);
    }
  }

  lemma ReportMatches(db: Db, d: Decoded, policy: Policy, id: Id)
    requires policy == Replace ==> ItemsAtHome(d, db)
    ensures RecordsOk(d) && CarriedReport(d, id).Some? ==> CarriedReport(d, id).value.workspace in Workspaces(d)
    ensures policy == Replace && CarriedReport(d, id).Some? && id in db.reports ==>
      CarriedReport(d, id).value.workspace == db.reports[id].workspace
  {
    if CarriedReport(d, id).Some? {
      var r :| r in d.reports && r.id == id && CarriedReport(d, id) == Some(r.report);
    }
  }

  predicate SameOwner(a: Record, b: Record) {
    a.workspace == b.workspace && a.request == b.request
  }

  /** No stored object, secret, record or report ever changes owner. */
  lemma OwnersNeverChange(db: Db, d: Decoded, policy: Policy, approval: Approval, now: int, after: Db, report: Restored)
    requires Restores(db, d, policy, approval, now, after, report)
    ensures forall k :: k in db.objects && k in after.objects ==> after.objects[k].owner == db.objects[k].owner
    ensures forall id :: id in db.secrets ==> id in after.secrets && after.secrets[id].owner == db.secrets[id].owner
    ensures forall id :: id in db.history ==> id in after.history && SameOwner(after.history[id], db.history[id])
    ensures forall id :: id in db.reports ==> id in after.reports && after.reports[id].workspace == db.reports[id].workspace
  {
    RestoreLeaves(db, d, policy, approval, now, after, report);
    RowOwnersStay(db, d, policy, now, after);
    RecordOwnersStay(db, d, policy, now, after);
  }

  lemma RowOwnersStay(db: Db, d: Decoded, policy: Policy, now: int, after: Db)
    requires Ready(db, d, policy) && KeysOk(d) && Leaves(db, d, policy, now, after) && LeavesRulesets(db, d, policy, after)
    ensures forall k :: k in db.objects && k in after.objects ==> after.objects[k].owner == db.objects[k].owner
  {
    forall k | k in db.objects && k in after.objects ensures after.objects[k].owner == db.objects[k].owner {
      if k.kind == ApiRuleset {
        RulesetOwner(db, d, policy, after, k);
        assert Shaped(ApiRuleset, db.objects[k]);
      } else {
        assert Lookup(after.objects, k) == RowAfter(db, d, policy, k);
        RowOwnerStays(db, d, policy, k);
      }
    }
  }

  lemma RecordOwnersStay(db: Db, d: Decoded, policy: Policy, now: int, after: Db)
    requires Leaves(db, d, policy, now, after)
    requires policy in {Merge, Replace}
    requires policy == Replace ==> ItemsAtHome(d, db) && SecretsAtHome(d, db)
    requires forall h :: h in d.history ==> !RecordConflict(db, policy, h)
    ensures forall id :: id in db.secrets ==> id in after.secrets && after.secrets[id].owner == db.secrets[id].owner
    ensures forall id :: id in db.history ==> id in after.history && SameOwner(after.history[id], db.history[id])
    ensures forall id :: id in db.reports ==> id in after.reports && after.reports[id].workspace == db.reports[id].workspace
  {
    forall id | id in db.secrets ensures id in after.secrets && after.secrets[id].owner == db.secrets[id].owner {
      assert Lookup(after.secrets, id) == SecretAfter(db, d, policy, id);
      SecretMatches(db, d, policy, id);
    }
    forall id | id in db.history ensures id in after.history && SameOwner(after.history[id], db.history[id]) {
      assert Lookup(after.history, id) == RecordAfter(db, d, policy, now, id);
      RecordMatches(db, d, policy, id);
      if CarriedRecord(d, id).Some? {
        var h :| h in d.history && h.id == id && CarriedRecord(d, id) == Some(h.record);
        assert !RecordConflict(db, policy, h);
      }
    }
    forall id | id in db.reports ensures id in after.reports && after.reports[id].workspace == db.reports[id].workspace {
      assert Lookup(after.reports, id) == ReportAfter(db, d, policy, id);
      ReportMatches(db, d, policy, id);
    }
  }
}
