/**
 * The protections a payload can switch off, the trust it can bring along and
 * the links an import checks, and what an import leaves of them.
 */
module Guards {
  import opened Prelude

  datatype SvidSource = WorkloadApi | FromFile | FromValue

  datatype Auth =
    | Inherit
    | NoAuth
    | Hmac(allowUnsafeLegacy: bool, content: int)
    | JwtSvid(source: SvidSource, sendDespiteFailedChecks: bool)
    | Multi(profiles: seq<Auth>)
    | OtherAuth(content: int)

  datatype Redirects = Redirects(forwardCrossOrigin: bool, content: int)

  datatype EarlyData = EarlyData(enabled: bool, content: int)

  /** One layer of request settings: what is absent is inherited. */
  datatype Overrides = Overrides(redirects: Option<Redirects>, earlyData: Option<EarlyData>, content: int)

  const NO_OVERRIDES := Overrides(None, None, 0)

  datatype Guard =
    | Unguarded
    | LayerGuard(settings: Overrides, auth: Auth)
    | FolderGuard(settings: Overrides, auth: Auth, useWorkspaceScope: bool, environments: seq<Id>)
    | RequestGuard(settings: Overrides, auth: Auth, revision: Option<Id>)
    | TlsGuard(verify: bool)
    | GatewayGuard(requireVerifiedTls: bool)
    | TrustGuard(trusted: bool)

  // ------------------------------------------------ what an import leaves

  function DisableLegacy(auth: Auth): Auth {
    match auth
    case Hmac(legacy, content) => if legacy then Hmac(false, content) else auth
    case Multi(profiles) => Multi(seq(|profiles|, i requires 0 <= i < |profiles| => DisableLegacy(profiles[i])))
    case _ => auth
  }

  function CheckSvid(auth: Auth): Auth {
    match auth
    case JwtSvid(source, anyway) => if anyway then JwtSvid(source, false) else auth
    case Multi(profiles) => Multi(seq(|profiles|, i requires 0 <= i < |profiles| => CheckSvid(profiles[i])))
    case _ => auth
  }

  /** Auth as an import leaves it: both passes, in their order. */
  function ImportedAuth(auth: Auth): Auth {
    CheckSvid(DisableLegacy(auth))
  }

  function ImportedSettings(s: Overrides): Overrides {
    s.(redirects := if s.redirects.Some? && s.redirects.value.forwardCrossOrigin
                    then Some(s.redirects.value.(forwardCrossOrigin := false)) else s.redirects,
       earlyData := if s.earlyData.Some? && s.earlyData.value.enabled
                    then Some(s.earlyData.value.(enabled := false)) else s.earlyData)
  }

  function KeepIn(ids: seq<Id>, kept: set<Id>): seq<Id> {
    if ids == [] then [] else (if ids[0] in kept then [ids[0]] else []) + KeepIn(ids[1..], kept)
  }

  /**
   * A payload's guard as an import leaves it: `environments` are those of its
   * workspace in the file, `revisions` its own there.
   */
  function Imported(g: Guard, environments: set<Id>, revisions: set<Id>): Guard {
    match g
    case Unguarded => g
    case LayerGuard(settings, auth) => LayerGuard(ImportedSettings(settings), ImportedAuth(auth))
    case FolderGuard(settings, auth, scope, named) =>
      FolderGuard(ImportedSettings(settings), ImportedAuth(auth), false, KeepIn(named, environments))
    case RequestGuard(settings, auth, revision) =>
      RequestGuard(ImportedSettings(settings), ImportedAuth(auth),
                   if revision.Some? && revision.value !in revisions then None else revision)
    case TlsGuard(verify) => TlsGuard(true)
    case GatewayGuard(required) => GatewayGuard(true)
    case TrustGuard(trusted) => TrustGuard(false)
  }

  // --------------------------------------------------------- what is safe

  /** The auth at one path of profile positions, if there is one. */
  function At(auth: Auth, path: seq<nat>): Option<Auth>
    decreases |path|
  {
    if path == [] then Some(auth)
    else if auth.Multi? && path[0] < |auth.profiles| then At(auth.profiles[path[0]], path[1..])
    else None
  }

  /** Auth that opted into replayable signatures, or sends tokens that failed their checks. */
  predicate Armed(auth: Auth) {
    (auth.Hmac? && auth.allowUnsafeLegacy) || (auth.JwtSvid? && auth.sendDespiteFailedChecks)
  }

  /** Nothing in `auth`, however deep, is armed. */
  ghost predicate SafeAuth(auth: Auth) {
    forall path :: At(auth, path).Some? ==> !Armed(At(auth, path).value)
  }

  predicate SafeSettings(s: Overrides) {
    (s.redirects.Some? ==> !s.redirects.value.forwardCrossOrigin) && (s.earlyData.Some? ==> !s.earlyData.value.enabled)
  }

  ghost predicate SafeGuard(g: Guard) {
    match g
    case Unguarded => true
    case LayerGuard(settings, auth) => SafeSettings(settings) && SafeAuth(auth)
    case FolderGuard(settings, auth, scope, named) => SafeSettings(settings) && SafeAuth(auth) && !scope
    case RequestGuard(settings, auth, revision) => SafeSettings(settings) && SafeAuth(auth)
    case TlsGuard(verify) => verify
    case GatewayGuard(required) => required
    case TrustGuard(trusted) => !trusted
  }

  /** The environments a folder names and the revision a request names are among these. */
  predicate LinkedGuard(g: Guard, environments: set<Id>, revisions: set<Id>) {
    && (g.FolderGuard? ==> forall id :: id in g.environments ==> id in environments)
    && (g.RequestGuard? && g.revision.Some? ==> g.revision.value in revisions)
  }

  // ------------------------------------------------------- import is safe

  /** Only the two opt-ins of one profile change. */
  function Disarmed(auth: Auth): Auth {
    match auth
    case Hmac(legacy, content) => Hmac(false, content)
    case JwtSvid(source, anyway) => JwtSvid(source, false)
    case _ => auth
  }

  /** Both passes leave the same profiles in the same places, each without its opt-ins. */
  lemma {:induction false} ImportedAuthAt(auth: Auth, path: seq<nat>)
    ensures At(ImportedAuth(auth), path).Some? <==> At(auth, path).Some?
    ensures At(auth, path).Some? ==>
      At(ImportedAuth(auth), path).value == ImportedAuth(At(auth, path).value)
    ensures At(auth, path).Some? && !At(auth, path).value.Multi? ==>
      At(ImportedAuth(auth), path) == Some(Disarmed(At(auth, path).value))
    decreases |path|
  {
    if path == [] {
    } else if auth.Multi? && path[0] < |auth.profiles| {
      assert ImportedAuth(auth).profiles[path[0]] == ImportedAuth(auth.profiles[path[0]]);
      ImportedAuthAt(auth.profiles[path[0]], path[1..]);
    }
  }

  lemma ImportedAuthIsSafe(auth: Auth)
    ensures SafeAuth(ImportedAuth(auth))
  {
    forall path | At(ImportedAuth(auth), path).Some? ensures !Armed(At(ImportedAuth(auth), path).value) {
      ImportedAuthAt(auth, path);
    }
  }

  /** Safe auth passes through an import as it is. */
  lemma {:induction false} SafeAuthStays(auth: Auth)
    requires SafeAuth(auth)
    ensures ImportedAuth(auth) == auth
    decreases auth
  {
    assert At(auth, []) == Some(auth);
    if auth.Multi? {
      var now := ImportedAuth(auth);
      forall i | 0 <= i < |auth.profiles| ensures now.profiles[i] == auth.profiles[i] {
        PartIsSafe(auth, i);
        SafeAuthStays(auth.profiles[i]);
      }
      assert now.profiles == auth.profiles;
    }
  }

  lemma PartIsSafe(auth: Auth, i: nat)
    requires SafeAuth(auth) && auth.Multi? && i < |auth.profiles|
    ensures SafeAuth(auth.profiles[i])
  {
    forall path | At(auth.profiles[i], path).Some? ensures !Armed(At(auth.profiles[i], path).value) {
      assert ([i] + path)[1..] == path;
      assert At(auth, [i] + path) == At(auth.profiles[i], path);
    }
  }

  lemma {:induction false} KeepInMembers(ids: seq<Id>, kept: set<Id>)
    ensures forall id :: id in KeepIn(ids, kept) <==> id in ids && id in kept
    ensures (forall id :: id in ids ==> id in kept) <==> KeepIn(ids, kept) == ids
  {
    if ids == [] {
    } else {
      KeepInMembers(ids[1..], kept);
      assert ids == [ids[0]] + ids[1..];
    }
  }

  /** An import leaves every guard safe and linked, and only changes those that were not. */
  lemma ImportedIsSafe(g: Guard, environments: set<Id>, revisions: set<Id>)
    ensures var now := Imported(g, environments, revisions); SafeGuard(now) && LinkedGuard(now, environments, revisions)
    ensures Imported(g, environments, revisions) == g <==> SafeGuard(g) && LinkedGuard(g, environments, revisions)
  {
    if g.LayerGuard? || g.FolderGuard? || g.RequestGuard? {
      ImportedAuthIsSafe(g.auth);
      if SafeAuth(g.auth) {
        SafeAuthStays(g.auth);
      }
    }
    if g.FolderGuard? {
      KeepInMembers(g.environments, environments);
    }
  }

  /** `now` are the settings `s` with the two opt-ins off, set or inherited as before. */
  predicate OptedOut(s: Overrides, now: Overrides) {
    && now.content == s.content
    && (now.redirects.Some? <==> s.redirects.Some?) && (now.earlyData.Some? <==> s.earlyData.Some?)
    && (now.redirects.Some? ==> now.redirects.value == Redirects(false, s.redirects.value.content))
    && (now.earlyData.Some? ==> now.earlyData.value == EarlyData(false, s.earlyData.value.content))
  }

  /** What an import makes of each kind of guard, field by field. */
  lemma ImportedIs(g: Guard, environments: set<Id>, revisions: set<Id>)
    ensures var now := Imported(g, environments, revisions);
      && (g.Unguarded? ==> now == g)
      && (g.LayerGuard? ==> now.LayerGuard? && OptedOut(g.settings, now.settings) && now.auth == ImportedAuth(g.auth))
      && (g.FolderGuard? ==>
            && now.FolderGuard? && OptedOut(g.settings, now.settings) && now.auth == ImportedAuth(g.auth)
            && !now.useWorkspaceScope && now.environments == KeepIn(g.environments, environments))
      && (g.RequestGuard? ==>
            && now.RequestGuard? && OptedOut(g.settings, now.settings) && now.auth == ImportedAuth(g.auth)
            && now.revision == (if g.revision.Some? && g.revision.value in revisions then g.revision else None))
      && (g.TlsGuard? ==> now == TlsGuard(true))
      && (g.GatewayGuard? ==> now == GatewayGuard(true))
      && (g.TrustGuard? ==> now == TrustGuard(false))
  {
  }

  /** Names are kept one by one, in their order. */
  lemma {:induction false} KeepInSplits(a: seq<Id>, b: seq<Id>, kept: set<Id>)
    ensures KeepIn(a + b, kept) == KeepIn(a, kept) + KeepIn(b, kept)
  {
    if a == [] {
      assert a + b == b;
    } else {
      KeepInSplits(a[1..], b, kept);
      var head := if a[0] in kept then [a[0]] else [];
      var x, y := KeepIn(a[1..], kept), KeepIn(b, kept);
      assert (a + b)[0] == a[0] && (a + b)[1..] == a[1..] + b;
      assert KeepIn(a + b, kept) == head + (x + y);
      assert head + (x + y) == (head + x) + y;
    }
  }
}
