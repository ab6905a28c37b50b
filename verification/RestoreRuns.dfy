/**
 * Whole runs of a profile: restores, edits, deletions and the user's choices
 * in any order, and what holds after all of them.
 */
module RestoreRuns {
  import opened Prelude
  import opened Store
  import opened BackupWrite
  import opened BackupRestore
  import opened BackupEffects
  import opened BackupOutcome
  import opened BackupGuarantees
  import opened RestoreKeeps
  import opened DeviceIdentity

  datatype Event =
    | RestoreOf(d: Decoded, policy: Policy, approval: Approval, now: int)
    | Allow(ws: Id)
    | Delete(ws: Id)
    | Edit
    | ChangeSettings

  /** Deleting a workspace deletes everything it owns, its seal included; unreadable revisions stay. */
  function Deleted(db: Db, ws: Id): Db {
    Db(map k | k in db.objects && k != Key(Workspace, ws)
               && !(db.objects[k].owner == Some(ws) && (k.kind == Revision ==> RevisionOwned(db.objects, db.objects[k]))) :: db.objects[k],
       map id | id in db.secrets && db.secrets[id].owner != Some(ws) :: db.secrets[id],
       db.files,
       map id | id in db.history && db.history[id].workspace != Some(ws) :: db.history[id],
       map id | id in db.reports && db.reports[id].workspace != ws :: db.reports[id])
  }

  function Allowed(db: Db, ws: Id): Db {
    if Key(Workspace, ws) in db.objects then db.(objects := db.objects - {Key(DeviceSeal, ws)}) else db
  }

  /** Work in the app leaves seals and stored workspaces alone. */
  ghost predicate Edits(db: Db, next: Db) {
    && Valid(next)
    && forall k: Key :: k.kind in {DeviceSeal, Workspace} && k in db.objects ==> k in next.objects
  }

  ghost predicate Step(db: Db, e: Event, next: Db) {
    match e
    case RestoreOf(d, policy, approval, now) =>
      && WellFormed(d) && policy in {Merge, Replace}
      && (var r := Transaction(db, d, policy, approval, now); next == if r.Ok? then r.value.0 else db)
    case Allow(ws) => next == Allowed(db, ws)
    case Delete(ws) => next == Deleted(db, ws)
    case Edit => Edits(db, next) && SettingsOf(next.objects) == SettingsOf(db.objects)
    case ChangeSettings => Edits(db, next)
  }

  ghost predicate Run(states: seq<Db>, events: seq<Event>) {
    && |states| == |events| + 1 && Valid(states[0])
    && forall i :: 0 <= i < |events| ==> Step(states[i], events[i], states[i + 1])
  }

  /** An accepted restore of a backup that claims `ws`. */
  ghost predicate Claims(db: Db, e: Event, ws: Id) {
    && e.RestoreOf? && WellFormed(e.d)
    && Transaction(db, e.d, e.policy, e.approval, e.now).Ok? && ws in Workspaces(e.d)
  }

  lemma StepKeepsValid(db: Db, e: Event, next: Db)
    requires Valid(db) && Step(db, e, next)
    ensures Valid(next)
  {
    if e.RestoreOf? {
      var r := Transaction(db, e.d, e.policy, e.approval, e.now);
      if r.Ok? {
        RestoreKeepsValid(db, e.d, e.policy, e.approval, e.now, r.value.0, r.value.1);
      }
    }
  }

  lemma {:induction false} RunIsValid(states: seq<Db>, events: seq<Event>, i: nat)
    requires Run(states, events) && i < |states|
    ensures Valid(states[i])
  {
    if i > 0 {
      RunIsValid(states, events, i - 1);
      StepKeepsValid(states[i - 1], events[i - 1], states[i]);
    }
  }

  lemma StepOf(states: seq<Db>, events: seq<Event>, i: nat)
    requires Run(states, events) && i < |events|
    ensures Valid(states[i]) && Step(states[i], events[i], states[i + 1])
  {
    RunIsValid(states, events, i);
  }

  // ---------------------------------------------------------------- seals

  lemma SealLeft(db: Db, d: Decoded, policy: Policy, now: int, after: Db, ws: Id)
    requires Leaves(db, d, policy, now, after) && (Sealed(db.objects, ws) || ws in Workspaces(d))
    ensures Sealed(after.objects, ws)
  {
    assert Lookup(after.objects, Key(DeviceSeal, ws)) == RowAfter(db, d, policy, Key(DeviceSeal, ws));
  }

  lemma ClaimSeals(db: Db, e: Event, next: Db, ws: Id)
    requires Valid(db) && Step(db, e, next) && Claims(db, e, ws)
    ensures Sealed(next.objects, ws)
  {
    var r := Transaction(db, e.d, e.policy, e.approval, e.now);
    RestoreLeaves(db, e.d, e.policy, e.approval, e.now, r.value.0, r.value.1);
    SealLeft(db, e.d, e.policy, e.now, r.value.0, ws);
  }

  lemma RestoreKeepsSeal(db: Db, e: Event, next: Db, ws: Id)
    requires Valid(db) && e.RestoreOf? && Step(db, e, next) && Sealed(db.objects, ws)
    ensures Sealed(next.objects, ws)
  {
    var r := Transaction(db, e.d, e.policy, e.approval, e.now);
    if r.Ok? {
      RestoreLeaves(db, e.d, e.policy, e.approval, e.now, r.value.0, r.value.1);
      SealLeft(db, e.d, e.policy, e.now, r.value.0, ws);
    }
  }

  lemma StepKeepsSeal(db: Db, e: Event, next: Db, ws: Id)
    requires Valid(db) && Step(db, e, next) && Sealed(db.objects, ws)
    requires e != Allow(ws) && e != Delete(ws)
    ensures Sealed(next.objects, ws)
  {
    if e.RestoreOf? {
      RestoreKeepsSeal(db, e, next, ws);
    }
  }

  lemma {:induction false} SealStays(states: seq<Db>, events: seq<Event>, from: nat, i: nat, ws: Id)
    requires Run(states, events) && from <= i < |states| && Sealed(states[from].objects, ws)
    requires forall m :: from <= m < i ==> events[m] != Allow(ws) && events[m] != Delete(ws)
    ensures Sealed(states[i].objects, ws)
    decreases i
  {
    if from < i {
      SealStays(states, events, from, i - 1, ws);
      StepOf(states, events, i - 1);
      StepKeepsSeal(states[i - 1], events[i - 1], states[i], ws);
    }
  }

  /**
   * A workspace some restore claimed is sealed ever after, until the user
   * allows it or deletes it.
   */
  lemma ClaimedStaysSealed(states: seq<Db>, events: seq<Event>, claimed: nat, i: nat, ws: Id)
    requires Run(states, events) && claimed < i < |states| && Claims(states[claimed], events[claimed], ws)
    requires forall m :: claimed < m < i ==> events[m] != Allow(ws) && events[m] != Delete(ws)
    ensures Sealed(states[i].objects, ws)
  {
    StepOf(states, events, claimed);
    ClaimSeals(states[claimed], events[claimed], states[claimed + 1], ws);
    SealStays(states, events, claimed + 1, i, ws);
  }

  /** Until then no request of it presents anything of this device, and none of its lookups run. */
  lemma ClaimedPresentsNothing(states: seq<Db>, events: seq<Event>, claimed: nat, i: nat, ws: Id, ctx: Context)
    requires Run(states, events) && claimed < i < |states| && Claims(states[claimed], events[claimed], ws)
    requires forall m :: claimed < m < i ==> events[m] != Allow(ws) && events[m] != Delete(ws)
    ensures BuildContext(states[i].objects, ws, ctx).Ok? <==> PresentsNothing(ctx)
    ensures BuildContext(states[i].objects, ws, ctx).Ok? ==> LookupsPaused(ctx, BuildContext(states[i].objects, ws, ctx).value)
  {
    ClaimedStaysSealed(states, events, claimed, i, ws);
    SealedSendsExactly(states[i].objects, ws, ctx);
  }

  // ----------------------------------------------------------------- lock

  lemma RestoreKeepsLock(db: Db, d: Decoded, policy: Policy, approval: Approval, now: int)
    requires Valid(db) && WellFormed(d) && policy in {Merge, Replace}
    ensures var r := Transaction(db, d, policy, approval, now);
      r.Ok? ==> ProtectsAsMuch(SettingsOf(db.objects).lock, SettingsOf(r.value.0.objects).lock)
  {
    var r := Transaction(db, d, policy, approval, now);
    if r.Ok? {
      RestoreNeverWeakensLock(db, d, policy, approval, now, r.value.0, r.value.1);
    }
  }

  lemma DeleteKeepsSettings(db: Db, ws: Id)
    requires Valid(db)
    ensures SettingsOf(Deleted(db, ws).objects) == SettingsOf(db.objects)
  {
    var k := Key(AppSettings, SETTINGS_ID);
    if k in db.objects {
      assert Shaped(AppSettings, db.objects[k]);
    }
  }

  lemma AllowKeepsSettings(db: Db, ws: Id)
    ensures SettingsOf(Allowed(db, ws).objects) == SettingsOf(db.objects)
  {
  }

  lemma StepKeepsLock(db: Db, e: Event, next: Db)
    requires Valid(db) && Step(db, e, next) && !e.ChangeSettings?
    ensures ProtectsAsMuch(SettingsOf(db.objects).lock, SettingsOf(next.objects).lock)
  {
    match e
    case RestoreOf(d, policy, approval, now) => RestoreKeepsLock(db, d, policy, approval, now);
    case Allow(ws) => AllowKeepsSettings(db, ws);
    case Delete(ws) => DeleteKeepsSettings(db, ws);
    case Edit =>
  }

  /** However many restores come in between, the lock policy is only ever weakened by the user. */
  lemma {:induction false} LockNeverWeakens(states: seq<Db>, events: seq<Event>, from: nat, i: nat)
    requires Run(states, events) && from <= i < |states|
    requires forall m :: from <= m < i ==> !events[m].ChangeSettings?
    ensures var was, next := SettingsOf(states[from].objects).lock, SettingsOf(states[i].objects).lock;
      && (was.idleMinutes != 0 ==> 0 < next.idleMinutes <= was.idleMinutes)
      && (was.lockOnOsLock ==> next.lockOnOsLock)
      && (was.clearClipboard ==> next.clearClipboard)
    decreases i
  {
    if from < i {
      LockNeverWeakens(states, events, from, i - 1);
      StepOf(states, events, i - 1);
      StepKeepsLock(states[i - 1], events[i - 1], states[i]);
    }
  }

  // ------------------------------------------------------------ isolation

  ghost predicate Untouched(db: Db, after: Db, ws: Id) {
    && RowsUntouched(db, after, ws) && TablesUntouched(db, after, ws)
    && SettingsOf(after.objects) == SettingsOf(db.objects)
    && (ws in StoredWorkspaces(db) ==> ws in StoredWorkspaces(after))
  }

  lemma UntouchedChains(a: Db, b: Db, c: Db, ws: Id)
    requires Untouched(a, b, ws) && Untouched(b, c, ws)
    ensures Untouched(a, c, ws)
  {
    forall k | Belongs(a.objects, k, ws) || Belongs(c.objects, k, ws) ensures Lookup(c.objects, k) == Lookup(a.objects, k) {
      if Belongs(a.objects, k, ws) {
        assert Lookup(b.objects, k) == Lookup(a.objects, k);
      } else {
        assert Lookup(c.objects, k) == Lookup(b.objects, k);
      }
    }
  }

  lemma RestoreLeavesOutside(db: Db, e: Event, next: Db, ws: Id)
    requires Valid(db) && e.RestoreOf? && Step(db, e, next) && !Claims(db, e, ws) && ws in StoredWorkspaces(db)
    ensures Untouched(db, next, ws)
  {
    var r := Transaction(db, e.d, e.policy, e.approval, e.now);
    if r.Ok? {
      OutsideWorkspaceUntouched(db, e.d, e.policy, e.approval, e.now, r.value.0, r.value.1, ws);
      assert Belongs(db.objects, Key(Workspace, ws), ws);
      assert Lookup(next.objects, Key(Workspace, ws)) == Lookup(db.objects, Key(Workspace, ws));
    }
  }

  /** The step after state `i` leaves `ws` as it is, if it is stored. */
  ghost predicate PassesBy(states: seq<Db>, i: nat, ws: Id)
    requires i + 1 < |states|
  {
    ws in StoredWorkspaces(states[i]) ==> Untouched(states[i], states[i + 1], ws)
  }

  lemma RestorePassesBy(states: seq<Db>, events: seq<Event>, i: nat, ws: Id)
    requires Run(states, events) && i < |events| && events[i].RestoreOf? && !Claims(states[i], events[i], ws)
    ensures PassesBy(states, i, ws)
  {
    StepOf(states, events, i);
    if ws in StoredWorkspaces(states[i]) {
      RestoreLeavesOutside(states[i], events[i], states[i + 1], ws);
    }
  }

  /** Deleting another workspace leaves everything `ws` owns, and of its own leaves only revisions that cannot be read. */
  lemma DeleteLeavesOthers(db: Db, gone: Id, ws: Id)
    requires Valid(db) && gone != ws
    ensures Untouched(db, Deleted(db, gone), ws)
    ensures var next := Deleted(db, gone);
      && (forall k :: Belongs(next.objects, k, gone) <==> Belongs(db.objects, k, gone) && k.kind == Revision && !Readable(db.objects, k))
      && (forall id :: !SecretOf(next.secrets, id, gone) && !RecordOf(next.history, id, gone) && !ReportOf(next.reports, id, gone))
  {
    DeleteKeepsSettings(db, gone);
    assert Key(Workspace, ws) in db.objects ==> Shaped(Workspace, db.objects[Key(Workspace, ws)]);
  }

  /** Lifting one workspace's seal takes away that row, if the workspace is stored, and nothing else. */
  lemma AllowedIs(db: Db, allowed: Id)
    ensures allowed in StoredWorkspaces(db) ==>
      Allowed(db, allowed) == db.(objects := db.objects - {Key(DeviceSeal, allowed)}) && !Sealed(Allowed(db, allowed).objects, allowed)
    ensures allowed !in StoredWorkspaces(db) ==> Allowed(db, allowed) == db
  {
  }

  lemma AllowLeavesOthers(db: Db, allowed: Id, ws: Id)
    requires Valid(db) && allowed != ws
    ensures Untouched(db, Allowed(db, allowed), ws)
  {
    AllowKeepsSettings(db, allowed);
    AllowedIs(db, allowed);
    var seal := Key(DeviceSeal, allowed);
    assert seal in db.objects ==> db.objects[seal].owner == Some(allowed);
  }

  /** A restore that does not claim `ws`, or the deletion or allowing of another workspace. */
  ghost predicate Elsewhere(db: Db, e: Event, ws: Id) {
    (e.RestoreOf? && !Claims(db, e, ws)) || (e.Delete? && e.ws != ws) || (e.Allow? && e.ws != ws)
  }

  lemma StepPassesBy(states: seq<Db>, events: seq<Event>, i: nat, ws: Id)
    requires Run(states, events) && i < |events| && Elsewhere(states[i], events[i], ws)
    ensures PassesBy(states, i, ws)
  {
    StepOf(states, events, i);
    match events[i]
    case RestoreOf(_, _, _, _) => RestorePassesBy(states, events, i, ws);
    case Delete(other) => DeleteLeavesOthers(states[i], other, ws);
    case Allow(other) => AllowLeavesOthers(states[i], other, ws);
  }

  lemma {:induction false} PassedBy(states: seq<Db>, from: nat, i: nat, ws: Id)
    requires from <= i < |states| && ws in StoredWorkspaces(states[from])
    requires forall m :: from <= m < i ==> PassesBy(states, m, ws)
    ensures Untouched(states[from], states[i], ws)
    decreases i
  {
    if from < i {
      PassedBy(states, from, i - 1, ws);
      assert PassesBy(states, i - 1, ws);
      UntouchedChains(states[from], states[i - 1], states[i], ws);
    }
  }

  /** Any number of restores that do not claim `ws`, and deletions of other workspaces, leave everything it owns as it was. */
  lemma UnclaimedStaysUntouched(states: seq<Db>, events: seq<Event>, from: nat, i: nat, ws: Id)
    requires Run(states, events) && from <= i < |states| && ws in StoredWorkspaces(states[from])
    requires forall m :: from <= m < i ==> Elsewhere(states[m], events[m], ws)
    ensures Untouched(states[from], states[i], ws)
  {
    forall m | from <= m < i ensures PassesBy(states, m, ws) {
      StepPassesBy(states, events, m, ws);
    }
    PassedBy(states, from, i, ws);
  }
}
