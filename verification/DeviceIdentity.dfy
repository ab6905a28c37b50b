/**
 * Workspaces sealed from this device's workload identity: what a sealed
 * workspace's requests are refused, and how the user lifts a seal.
 */
module DeviceIdentity {
  import opened Prelude
  import opened Guards
  import opened Store

  datatype ClientIdentity = NoIdentity | OwnKeys | WorkloadApiSvid

  datatype TlsProfile = TlsProfile(id: Id, identity: ClientIdentity)

  datatype ProxyProfile = ProxyProfile(id: Id, tls: Option<Id>)

  datatype ProxySelection = NoProxy | Selected(id: Id)

  /** One layer of request settings, as far as it selects profiles. */
  datatype Layer = Layer(proxy: Option<ProxySelection>, tls: Option<Id>)

  /** A gateway profile, with its diagnostic reference lookup if it has one. */
  datatype Gateway = Gateway(id: Id, lookup: Option<int>)

  datatype Context = Context(auth: seq<Auth>, layers: seq<Layer>, tls: seq<TlsProfile>, proxies: seq<ProxyProfile>, gateways: seq<Gateway>)

  datatype ContextError = SealedIdentity

  /** The nearest layer that does not inherit. */
  function EffectiveAuth(layers: seq<Auth>): Auth {
    if layers == [] then NoAuth
    else
      var last := layers[|layers| - 1];
      if last.Inherit? then EffectiveAuth(layers[..|layers| - 1]) else last
  }

  function SelectedTls(layers: seq<Layer>): Option<Id> {
    if layers == [] then None
    else
      var last := layers[|layers| - 1];
      if last.tls.Some? then last.tls else SelectedTls(layers[..|layers| - 1])
  }

  function SelectedProxy(layers: seq<Layer>): Option<Id> {
    if layers == [] then None
    else
      var last := layers[|layers| - 1];
      match last.proxy
      case None => SelectedProxy(layers[..|layers| - 1])
      case Some(NoProxy) => None
      case Some(Selected(id)) => Some(id)
  }

  /** Some profile of `auth` takes its token from this device rather than from a stored value. */
  predicate UsesDeviceIdentity(auth: Auth) {
    match auth
    case JwtSvid(source, anyway) => !source.FromValue?
    case Multi(profiles) => exists p :: p in profiles && UsesDeviceIdentity(p)
    case _ => false
  }

  function FindProxy(ps: seq<ProxyProfile>, id: Id): Option<ProxyProfile> {
    if ps == [] then None else if ps[0].id == id then Some(ps[0]) else FindProxy(ps[1..], id)
  }

  /** The ids of the TLS profiles a context selects: the request's own and its proxy's. */
  function SelectedTlsIds(ctx: Context): set<Id> {
    var proxy := if SelectedProxy(ctx.layers).Some? then FindProxy(ctx.proxies, SelectedProxy(ctx.layers).value) else None;
    (if SelectedTls(ctx.layers).Some? then {SelectedTls(ctx.layers).value} else {})
    + (if proxy.Some? && proxy.value.tls.Some? then {proxy.value.tls.value} else {})
  }

  predicate PresentsDeviceSvid(ctx: Context) {
    exists p :: p in ctx.tls && p.id in SelectedTlsIds(ctx) && p.identity.WorkloadApiSvid?
  }

  /** A sealed workspace's lookups are paused. */
  function Paused(gateways: seq<Gateway>): (r: seq<Gateway>)
    ensures |r| == |gateways| && forall i :: 0 <= i < |r| ==> r[i] == gateways[i].(lookup := None)
  {
    seq(|gateways|, i requires 0 <= i < |gateways| => gateways[i].(lookup := None))
  }

  /** The context a request of `ws` is sent with, or the refusal of a sealed workspace. */
  function BuildContext(o: Objects, ws: Id, ctx: Context): Result<Context, ContextError> {
    var sealed := Sealed(o, ws);
    if sealed && (UsesDeviceIdentity(EffectiveAuth(ctx.auth)) || PresentsDeviceSvid(ctx)) then Err(SealedIdentity)
    else Ok(if sealed then ctx.(gateways := Paused(ctx.gateways)) else ctx)
  }

  // ------------------------------------------- what a context can present

  /** At `path`, auth holds a JWT-SVID that is not a stored value. */
  predicate DeviceTokenAt(auth: Auth, path: seq<nat>) {
    At(auth, path).Some? && At(auth, path).value.JwtSvid? && !At(auth, path).value.source.FromValue?
  }

  /** Auth uses this device's identity exactly when some JWT-SVID in it, however deep, is not a stored value. */
  lemma UsesIsSomeToken(auth: Auth)
    ensures UsesDeviceIdentity(auth) <==> exists path :: DeviceTokenAt(auth, path)
  {
    if UsesDeviceIdentity(auth) {
      var path := UseHasToken(auth);
    }
    if path :| DeviceTokenAt(auth, path) {
      TokenIsUse(auth, path);
    }
  }

  lemma {:induction false} UseHasToken(auth: Auth) returns (path: seq<nat>)
    requires UsesDeviceIdentity(auth)
    ensures DeviceTokenAt(auth, path)
  {
    if auth.JwtSvid? {
      path := [];
    } else {
      var p :| p in auth.profiles && UsesDeviceIdentity(p);
      var i :| 0 <= i < |auth.profiles| && auth.profiles[i] == p;
      var rest := UseHasToken(p);
      path := [i] + rest;
      assert path[1..] == rest;
    }
  }

  lemma {:induction false} TokenIsUse(auth: Auth, path: seq<nat>)
    requires DeviceTokenAt(auth, path)
    ensures UsesDeviceIdentity(auth)
    decreases |path|
  {
    if path != [] {
      TokenIsUse(auth.profiles[path[0]], path[1..]);
      assert auth.profiles[path[0]] in auth.profiles;
    }
  }

  /** Layer `i` is the last that does not inherit. */
  ghost predicate AuthInForce(layers: seq<Auth>, i: nat) {
    i < |layers| && !layers[i].Inherit? && forall j :: i < j < |layers| ==> layers[j].Inherit?
  }

  /** The nearest layer that does not inherit decides; where all inherit there is no auth. */
  lemma {:induction false} EffectiveAuthIs(layers: seq<Auth>)
    ensures forall i: nat :: AuthInForce(layers, i) ==> EffectiveAuth(layers) == layers[i]
    ensures (forall i :: 0 <= i < |layers| ==> layers[i].Inherit?) ==> EffectiveAuth(layers) == NoAuth
    ensures (exists i :: 0 <= i < |layers| && !layers[i].Inherit?) ==> exists i: nat :: AuthInForce(layers, i)
  {
    if layers == [] {
    } else {
      var n := |layers| - 1;
      if layers[n].Inherit? {
        EffectiveAuthIs(layers[..n]);
        forall i: nat ensures AuthInForce(layers, i) <==> AuthInForce(layers[..n], i) {
          assert AuthInForce(layers, i) ==> i != n;
        }
        if i :| 0 <= i < |layers| && !layers[i].Inherit? {
          assert !layers[..n][i].Inherit?;
        }
      } else {
        assert AuthInForce(layers, n);
      }
    }
  }

  /** Layer `i` is the last that names a TLS profile. */
  ghost predicate TlsInForce(layers: seq<Layer>, i: nat) {
    i < |layers| && layers[i].tls.Some? && forall j :: i < j < |layers| ==> layers[j].tls.None?
  }

  lemma {:induction false} SelectedTlsIs(layers: seq<Layer>)
    ensures forall id: Id :: SelectedTls(layers) == Some(id) <==> exists i: nat :: TlsInForce(layers, i) && layers[i].tls == Some(id)
  {
    if layers == [] {
    } else {
      var n := |layers| - 1;
      if layers[n].tls.None? {
        SelectedTlsIs(layers[..n]);
        forall i: nat ensures TlsInForce(layers, i) <==> TlsInForce(layers[..n], i) {
          assert TlsInForce(layers, i) ==> i != n;
        }
      } else {
        assert TlsInForce(layers, n);
      }
    }
  }

  /** Layer `i` is the last that selects a proxy, or none at all. */
  ghost predicate ProxyInForce(layers: seq<Layer>, i: nat) {
    i < |layers| && layers[i].proxy.Some? && forall j :: i < j < |layers| ==> layers[j].proxy.None?
  }

  lemma {:induction false} SelectedProxyIs(layers: seq<Layer>)
    ensures forall id: Id :: SelectedProxy(layers) == Some(id) <==> exists i: nat :: ProxyInForce(layers, i) && layers[i].proxy == Some(Selected(id))
  {
    if layers == [] {
    } else {
      var n := |layers| - 1;
      if layers[n].proxy.None? {
        SelectedProxyIs(layers[..n]);
        forall i: nat ensures ProxyInForce(layers, i) <==> ProxyInForce(layers[..n], i) {
          assert ProxyInForce(layers, i) ==> i != n;
        }
      } else {
        assert ProxyInForce(layers, n);
      }
    }
  }

  /** Proxy profile `j` is the first of its id. */
  ghost predicate FirstOfItsId(ps: seq<ProxyProfile>, j: nat) {
    j < |ps| && forall i :: 0 <= i < j ==> ps[i].id != ps[j].id
  }

  /** `p` is the first profile of id `id`. */
  ghost predicate FirstIs(ps: seq<ProxyProfile>, id: Id, p: ProxyProfile) {
    exists j: nat :: FirstOfItsId(ps, j) && ps[j] == p && p.id == id
  }

  lemma {:induction false} FindProxyIs(ps: seq<ProxyProfile>, id: Id)
    ensures forall p :: FindProxy(ps, id) == Some(p) <==> FirstIs(ps, id, p)
  {
    if ps == [] {
    } else if ps[0].id == id {
      assert FirstOfItsId(ps, 0);
    } else {
      FindProxyIs(ps[1..], id);
      forall p ensures FirstIs(ps, id, p) <==> FirstIs(ps[1..], id, p) {
        FirstShifts(ps, id, p);
      }
    }
  }

  lemma FirstShifts(ps: seq<ProxyProfile>, id: Id, p: ProxyProfile)
    requires ps != [] && ps[0].id != id
    ensures FirstIs(ps, id, p) <==> FirstIs(ps[1..], id, p)
  {
    var rest := ps[1..];
    if j: nat :| FirstOfItsId(ps, j) && ps[j] == p && p.id == id {
      assert forall i :: 0 <= i < |rest| ==> rest[i] == ps[i + 1];
      assert FirstOfItsId(rest, j - 1) && rest[j - 1] == p;
    }
    if j: nat :| FirstOfItsId(rest, j) && rest[j] == p && p.id == id {
      assert forall i :: 1 <= i < |ps| ==> ps[i] == rest[i - 1];
      assert FirstOfItsId(ps, j + 1) && ps[j + 1] == p;
    }
  }

  /** A request selects TLS profile `id` for itself: the nearest layer that names one names it. */
  ghost predicate SelectsItself(ctx: Context, id: Id) {
    exists i: nat :: TlsInForce(ctx.layers, i) && ctx.layers[i].tls == Some(id)
  }

  /** Its proxy does: the nearest layer that decides on a proxy selects one whose profile names it. */
  ghost predicate SelectsForProxy(ctx: Context, id: Id) {
    exists i: nat, j: nat :: ProxyInForce(ctx.layers, i) && FirstOfItsId(ctx.proxies, j)
      && ctx.layers[i].proxy == Some(Selected(ctx.proxies[j].id)) && ctx.proxies[j].tls == Some(id)
  }

  lemma SelectedTlsIdsAre(ctx: Context, id: Id)
    ensures id in SelectedTlsIds(ctx) <==> SelectsItself(ctx, id) || SelectsForProxy(ctx, id)
  {
    SelectedTlsIs(ctx.layers);
    SelectedProxyIs(ctx.layers);
    var selected := SelectedProxy(ctx.layers);
    if selected.Some? {
      FindProxyIs(ctx.proxies, selected.value);
      var found := FindProxy(ctx.proxies, selected.value);
      if found.Some? && found.value.tls == Some(id) {
        assert FirstIs(ctx.proxies, selected.value, found.value);
        var i: nat :| ProxyInForce(ctx.layers, i) && ctx.layers[i].proxy == Some(Selected(selected.value));
        var j: nat :| FirstOfItsId(ctx.proxies, j) && ctx.proxies[j] == found.value;
        assert SelectsForProxy(ctx, id);
      }
    }
    if SelectsForProxy(ctx, id) {
      var i: nat, j: nat :| ProxyInForce(ctx.layers, i) && FirstOfItsId(ctx.proxies, j)
        && ctx.layers[i].proxy == Some(Selected(ctx.proxies[j].id)) && ctx.proxies[j].tls == Some(id);
      assert SelectedProxy(ctx.layers) == Some(ctx.proxies[j].id);
      FindProxyIs(ctx.proxies, ctx.proxies[j].id);
      assert FirstIs(ctx.proxies, ctx.proxies[j].id, ctx.proxies[j]);
    }
  }

  /** The auth in force holds no token of this device, and no TLS profile the request or its proxy selects presents one. */
  ghost predicate PresentsNothing(ctx: Context) {
    && (forall i: nat, path :: AuthInForce(ctx.auth, i) ==> !DeviceTokenAt(ctx.auth[i], path))
    && (forall p :: p in ctx.tls && (SelectsItself(ctx, p.id) || SelectsForProxy(ctx, p.id)) ==> !p.identity.WorkloadApiSvid?)
  }

  /** `sent` is `ctx` with every gateway's lookup paused. */
  predicate LookupsPaused(ctx: Context, sent: Context) {
    && sent.auth == ctx.auth && sent.layers == ctx.layers && sent.tls == ctx.tls && sent.proxies == ctx.proxies
    && |sent.gateways| == |ctx.gateways|
    && forall i :: 0 <= i < |sent.gateways| ==> sent.gateways[i].id == ctx.gateways[i].id && sent.gateways[i].lookup.None?
  }

  /**
   * A sealed workspace's request is sent exactly when it presents nothing of
   * this device, with every lookup paused and nothing else changed; one of any
   * other workspace is sent as it is.
   */
  lemma SealedSendsExactly(o: Objects, ws: Id, ctx: Context)
    ensures Key(DeviceSeal, ws) in o ==> (BuildContext(o, ws, ctx).Ok? <==> PresentsNothing(ctx))
    ensures Key(DeviceSeal, ws) in o && BuildContext(o, ws, ctx).Ok? ==> LookupsPaused(ctx, BuildContext(o, ws, ctx).value)
    ensures Key(DeviceSeal, ws) !in o ==> BuildContext(o, ws, ctx) == Ok(ctx)
  {
    var auth := EffectiveAuth(ctx.auth);
    EffectiveAuthIs(ctx.auth);
    UsesIsSomeToken(auth);
    assert (forall path :: !DeviceTokenAt(auth, path)) <==> forall i: nat, path :: AuthInForce(ctx.auth, i) ==> !DeviceTokenAt(ctx.auth[i], path) by {
      TokensOfForce(ctx.auth);
    }
    forall p | p in ctx.tls ensures p.id in SelectedTlsIds(ctx) <==> SelectsItself(ctx, p.id) || SelectsForProxy(ctx, p.id) {
      SelectedTlsIdsAre(ctx, p.id);
    }
  }

  lemma TokensOfForce(layers: seq<Auth>)
    ensures (forall path :: !DeviceTokenAt(EffectiveAuth(layers), path))
      <==> forall i: nat, path :: AuthInForce(layers, i) ==> !DeviceTokenAt(layers[i], path)
  {
    EffectiveAuthIs(layers);
    if exists i :: 0 <= i < |layers| && !layers[i].Inherit? {
      var i: nat :| AuthInForce(layers, i);
    } else {
      forall path ensures !DeviceTokenAt(NoAuth, path) {}
    }
  }

  // ------------------------------------------------------- lifting a seal

  /** The user's choice on this device. Whether the workspace was sealed, or that it is not stored. */
  method AllowDeviceIdentity(t: Tables, ws: Id) returns (r: Option<bool>)
    modifies t`objects
    ensures r.None? <==> Key(Workspace, ws) !in old(t.objects)
    ensures r.Some? ==> r.value == Sealed(old(t.objects), ws) && t.objects == old(t.objects) - {Key(DeviceSeal, ws)}
    ensures r.None? ==> t.objects == old(t.objects)
  {
    if Key(Workspace, ws) !in t.objects {
      return None;
    }
    var removed := t.Delete(Key(DeviceSeal, ws));
    r := Some(removed);
  }
}
