/** The router: VibedApps turned into routes of the Caddy admin API
    (internal/router/reconciler.go, internal/router/caddy.go). */
module RouteTable {
  import opened Wrappers
  import Text

  // ---- the route table ----

  datatype Route = Route(id: string, host: string, upstream: string)

  /** At most one route per id. */
  ghost predicate Unique(t: seq<Route>) { forall i, j :: 0 <= i < j < |t| ==> t[i].id != t[j].id }

  predicate Has(t: seq<Route>, id: string) { exists i :: 0 <= i < |t| && t[i].id == id }

  /** The route of an id. */
  function RouteOf(t: seq<Route>, id: string): (r: Option<Route>)
    ensures r.Some? <==> Has(t, id)
    ensures r.Some? ==> r.value.id == id
  {
    if t == [] then None else if t[0].id == id then Some(t[0]) else RouteOf(t[1..], id)
  }

  /** All routes but those of an id, in order. */
  function Others(t: seq<Route>, id: string): seq<Route> {
    if t == [] then [] else (if t[0].id == id then [] else [t[0]]) + Others(t[1..], id)
  }

  /** PATCH /id/<id>: replaces the route in place. */
  function Patched(t: seq<Route>, r: Route): seq<Route> {
    if t == [] then [] else if t[0].id == r.id then [r] + t[1..] else [t[0]] + Patched(t[1..], r)
  }

  /** DELETE /id/<id>. */
  function Deleted(t: seq<Route>, id: string): seq<Route> {
    if t == [] then [] else if t[0].id == id then t[1..] else [t[0]] + Deleted(t[1..], id)
  }

  /** EnsureRoute with every request answered: PATCH, and POST if the id was not there. */
  function Ensured(t: seq<Route>, r: Route): seq<Route> { if Has(t, r.id) then Patched(t, r) else t + [r] }

  lemma {:induction false} PatchedIs(t: seq<Route>, r: Route, id: string)
    ensures |Patched(t, r)| == |t|
    ensures forall i :: 0 <= i < |t| ==> Patched(t, r)[i].id == t[i].id
    ensures RouteOf(Patched(t, r), id) == if id == r.id && Has(t, id) then Some(r) else RouteOf(t, id)
    ensures Others(Patched(t, r), r.id) == Others(t, r.id)
  {
    if t != [] && t[0].id != r.id {
      PatchedIs(t[1..], r, id);
      assert Patched(t, r)[1..] == Patched(t[1..], r);
      assert Has(t, r.id) <==> Has(t[1..], r.id);
    } else if t != [] {
      assert Patched(t, r)[1..] == t[1..];
    }
  }

  lemma {:induction false} AppendedIs(t: seq<Route>, r: Route, id: string)
    requires !Has(t, r.id)
    ensures RouteOf(t + [r], id) == if id == r.id then Some(r) else RouteOf(t, id)
    ensures Others(t + [r], r.id) == Others(t, r.id)
  {
    if t != [] {
      assert (t + [r])[1..] == t[1..] + [r];
      assert t[0].id != r.id;
      AppendedIs(t[1..], r, id);
    }
  }

  /** After EnsureRoute the id has exactly the given route; every other route is where it was. */
  lemma EnsuredIs(t: seq<Route>, r: Route, id: string)
    ensures RouteOf(Ensured(t, r), id) == if id == r.id then Some(r) else RouteOf(t, id)
    ensures Others(Ensured(t, r), r.id) == Others(t, r.id)
    ensures Unique(t) ==> Unique(Ensured(t, r))
  {
    if Has(t, r.id) {
      PatchedIs(t, r, id);
    } else {
      AppendedIs(t, r, id);
    }
  }

  lemma {:induction false} AbsentIsOthers(t: seq<Route>, id: string)
    requires !Has(t, id)
    ensures Others(t, id) == t && Deleted(t, id) == t
  {
    if t != [] {
      assert t[0].id != id;
      AbsentIsOthers(t[1..], id);
    }
  }

  /** A delete never touches the routes of other ids, not even in a table with duplicates. */
  lemma {:induction false} DeletedSpares(t: seq<Route>, id: string, other: string)
    requires other != id
    ensures RouteOf(Deleted(t, id), other) == RouteOf(t, other)
  {
    if t != [] && t[0].id != id {
      DeletedSpares(t[1..], id, other);
      assert Deleted(t, id)[1..] == Deleted(t[1..], id);
    }
  }

  lemma {:induction false} AppendSpares(t: seq<Route>, r: Route, other: string)
    requires other != r.id
    ensures RouteOf(t + [r], other) == RouteOf(t, other)
  {
    if t != [] {
      assert (t + [r])[1..] == t[1..] + [r];
      AppendSpares(t[1..], r, other);
    }
  }

  /** After DeleteRoute the id has no route; every other route is where it was. */
  lemma {:induction false} DeletedIs(t: seq<Route>, id: string, other: string)
    requires Unique(t)
    ensures Unique(Deleted(t, id)) && Deleted(t, id) == Others(t, id) == Others(Deleted(t, id), id)
    ensures RouteOf(Deleted(t, id), other) == if other == id then None else RouteOf(t, other)
    ensures forall r :: r in Deleted(t, id) ==> r in t
  {
    if t != [] {
      assert Unique(t[1..]);
      if t[0].id == id {
        assert !Has(t[1..], id);
        AbsentIsOthers(t[1..], id);
      } else {
        DeletedIs(t[1..], id, other);
        var d := Deleted(t, id);
        assert d[1..] == Deleted(t[1..], id);
        forall i, j | 0 <= i < j < |d| ensures d[i].id != d[j].id {
          if i == 0 {
            assert d[j] in t[1..];
          }
        }
      }
    }
  }

  lemma {:induction false} EnsuredAgain(t: seq<Route>, r: Route)
    requires RouteOf(t, r.id) == Some(r)
    ensures Ensured(t, r) == t
  {
    if t[0].id != r.id {
      EnsuredAgain(t[1..], r);
      assert Has(t[1..], r.id);
    }
  }

  // ---- from an app to its route ----

  /** The fields of a VibedApp; `rest` stands for everything else that can change. */
  datatype App = App(phase: string, url: string, routeTarget: string, podIP: string, deleting: bool, suspended: bool, rest: int)

  predicate RoutingFieldsChanged(o: App, n: App) {
    || o.phase != n.phase
    || o.url != n.url
    || o.routeTarget != n.routeTarget
    || o.podIP != n.podIP
    || o.deleting != n.deleting
    || o.suspended != n.suspended
  }

  function TrimPrefix(s: string, prefix: string): string {
    if prefix <= s then s[|prefix|..] else s
  }

  /** The text before the first c, or all of it. */
  function Before(s: string, c: char): (r: string)
    ensures c !in r && r <= s && (r == s <==> c !in s)
    ensures r != s ==> s[|r|] == c
  {
    if s == "" || s[0] == c then "" else [s[0]] + Before(s[1..], c)
  }

  function Host(url: string): string {
    Before(Before(TrimPrefix(TrimPrefix(url, "https://"), "http://"), '/'), ':')
  }

  lemma BeforeCut(s: string, c: char, tail: string)
    requires c !in s && (tail == "" || tail[0] == c)
    ensures Before(s + tail, c) == s
  {
    var r := Before(s + tail, c);
    if tail == "" {
      assert s + tail == s;
    } else {
      assert (s + tail)[|s|] == c;
      assert c in s + tail;
      assert forall i :: 0 <= i < |s| ==> (s + tail)[i] == s[i];
      assert |r| == |s|;
    }
  }

  /** A published URL is taken apart to the host it was built from, whatever port and path follow. */
  lemma HostOfPublishedUrl(host: string, port: string, path: string)
    requires '/' !in host && ':' !in host && '/' !in port && !("http://" <= host + port + path)
    requires port == "" || port[0] == ':'
    requires path == "" || path[0] == '/'
    ensures Host("https://" + host + port + path) == host
  {
    var all := host + port + path;
    assert "https://" + host + port + path == "https://" + all;
    assert TrimPrefix("https://" + all, "https://") == all;
    BeforeCut(host + port, '/', path);
    BeforeCut(host, ':', port);
  }

  function Upstream(a: App, appPort: int): string {
    if a.routeTarget != "" then a.routeTarget
    else if a.podIP == "" then ""
    else if ':' in a.podIP then a.podIP
    else a.podIP + ":" + Text.Decimal(appPort)
  }

  /** Ready, with a URL and an upstream. */
  predicate Routable(a: App, appPort: int) { a.phase == "Ready" && a.url != "" && Upstream(a, appPort) != "" }

  /** The route an app should have; none when the app is gone or not routable. */
  function Wanted(id: string, a: Option<App>, appPort: int): (r: Option<Route>)
    ensures r.Some? ==> r.value.id == id && r.value.upstream != ""
  {
    if a.Some? && Routable(a.value, appPort) then Some(Route(id, Host(a.value.url), Upstream(a.value, appPort))) else None
  }

  /** Which route an app should have: one exactly if it is Ready, has a URL and a target or a pod. The published target
      is preferred; a bare pod address gets the app port. */
  lemma WantedIs(id: string, a: App, appPort: int)
    ensures Wanted(id, None, appPort) == None
    ensures Wanted(id, Some(a), appPort).Some? <==> a.phase == "Ready" && a.url != "" && (a.routeTarget != "" || a.podIP != "")
    ensures Wanted(id, Some(a), appPort).Some? ==>
              Wanted(id, Some(a), appPort).value ==
                Route(id, Host(a.url),
                      if a.routeTarget != "" then a.routeTarget
                      else if ':' in a.podIP then a.podIP
                      else a.podIP + ":" + Text.Decimal(appPort))
  {
    if a.routeTarget == "" && a.podIP != "" && ':' !in a.podIP {
      assert (a.podIP + ":" + Text.Decimal(appPort))[0] == a.podIP[0];
    }
  }

  /** The filter passes an update exactly if it changed more than what the router never looks at. */
  lemma FilterPassesIff(o: App, n: App)
    ensures RoutingFieldsChanged(o, n) <==> n != o.(rest := n.rest)
  {
  }

  /** How the admin API answers a reconcile: as it should; not at all; refusing the POST; refusing the PATCH for
      another reason than a missing id; refusing both. */
  datatype Fault = Fine | Unreachable | PostFails | PatchRefused | BothRefused

  /** Route.validate. */
  predicate Complete(r: Route) { r.id != "" && r.host != "" && r.upstream != "" }

  /** EnsureRoute: the new table, and whether it returned without error. Any answer to the PATCH outside 2xx leads on
      to the POST. */
  function EnsureOutcome(t: seq<Route>, r: Route, fault: Fault): (seq<Route>, bool) {
    if !Complete(r) || fault == Unreachable then (t, false)
    else if Has(t, r.id) && (fault == Fine || fault == PostFails) then (Patched(t, r), true)
    else if fault == PostFails || fault == BothRefused then (t, false)
    else (t + [r], true)
  }

  /** DeleteRoute. */
  function DeleteOutcome(t: seq<Route>, id: string, fault: Fault): (seq<Route>, bool) {
    if id == "" || fault == Unreachable then (t, false) else (Deleted(t, id), true)
  }

  /** Bringing the table to a wanted route of an id, or to none: the new table, and whether there was no error. */
  function Pushed(t: seq<Route>, id: string, wanted: Option<Route>, fault: Fault): (seq<Route>, bool) {
    if wanted.None? then DeleteOutcome(t, id, fault) else EnsureOutcome(t, wanted.value, fault)
  }

  /** Reconcile. */
  function Reconciled(t: seq<Route>, id: string, a: Option<App>, appPort: int, fault: Fault): (seq<Route>, bool) {
    Pushed(t, id, Wanted(id, a, appPort), fault)
  }

  class Caddy {
    var routes: seq<Route>

    constructor (initial: seq<Route>)
      ensures routes == initial
    {
      routes := initial;
    }

    /** PATCH /id/<id>: whether it was answered with a 2xx status. */
    method Patch(r: Route, fault: Fault) returns (ok: bool)
      modifies this
      ensures ok <==> Has(old(routes), r.id) && (fault == Fine || fault == PostFails)
      ensures routes == if ok then Patched(old(routes), r) else old(routes)
    {
      ok := Has(routes, r.id) && fault != PatchRefused && fault != BothRefused && fault != Unreachable;
      if ok {
        routes := Patched(routes, r);
      }
    }

    method EnsureRoute(r: Route, fault: Fault) returns (ok: bool)
      modifies this
      ensures (routes, ok) == EnsureOutcome(old(routes), r, fault)
    {
      if r.id == "" || r.host == "" || r.upstream == "" {
        return false;
      }
      var patched := Patch(r, fault);
      if patched {
        return true;
      }
      if fault == Unreachable {
        return false;
      }
      if fault == PostFails || fault == BothRefused {
        return false;
      }
      routes := routes + [r];
      return true;
    }

    method DeleteRoute(id: string, fault: Fault) returns (ok: bool)
      modifies this
      ensures (routes, ok) == DeleteOutcome(old(routes), id, fault)
    {
      if id == "" {
        return false;
      }
      if fault == Unreachable {
        return false;
      }
      routes := Deleted(routes, id);
      return true;
    }

    method Reconcile(id: string, app: Option<App>, appPort: int, fault: Fault) returns (ok: bool)
      modifies this
      ensures (routes, ok) == Reconciled(old(routes), id, app, appPort, fault)
    {
      if app.None? {
        ok := DeleteRoute(id, fault);
        return;
      }
      var a := app.value;
      var upstream := Upstream(a, appPort);
      if a.phase != "Ready" || a.url == "" || upstream == "" {
        ok := DeleteRoute(id, fault);
        return;
      }
      var host := TrimPrefix(a.url, "https://");
      host := TrimPrefix(host, "http://");
      host := Before(host, '/');
      host := Before(host, ':');
      ok := EnsureRoute(Route(id, host, upstream), fault);
    }
  }

  /** A second route of an id is appended: the PATCH of a present id is refused and the POST is not. */
  predicate Duplicates(t: seq<Route>, wanted: Option<Route>, fault: Fault) {
    fault == PatchRefused && wanted.Some? && Complete(wanted.value) && Has(t, wanted.value.id)
  }

  lemma AppendUniqueIff(t: seq<Route>, r: Route)
    requires Unique(t)
    ensures Unique(t + [r]) <==> !Has(t, r.id)
  {
    var u := t + [r];
    if Has(t, r.id) {
      var i :| 0 <= i < |t| && t[i].id == r.id;
      assert u[i].id == u[|t|].id;
    }
  }

  lemma EnsureCases(t: seq<Route>, r: Route, fault: Fault)
    ensures var o := EnsureOutcome(t, r, fault);
            if Duplicates(t, Some(r), fault) then o == (t + [r], true) else o == (t, false) || o == (Ensured(t, r), true)
  {
  }

  /** A push that duplicates nothing: if it succeeds the id has exactly the wanted route, if it fails nothing changed,
      ids stay unique and all other routes keep their place either way. */
  lemma PushedIs(t: seq<Route>, id: string, wanted: Option<Route>, fault: Fault)
    requires Unique(t) && (wanted.Some? ==> wanted.value.id == id) && !Duplicates(t, wanted, fault)
    ensures var (u, ok) := Pushed(t, id, wanted, fault);
            && Unique(u) && Others(u, id) == Others(t, id)
            && (if ok then RouteOf(u, id) == wanted else u == t)
  {
    if wanted.Some? {
      EnsureCases(t, wanted.value, fault);
      EnsuredIs(t, wanted.value, id);
    } else {
      DeletedIs(t, id, id);
    }
  }

  /** Exactly when a push does its work: ids stay unique and, if it succeeds, the id has the wanted route. */
  lemma PushWorksIff(t: seq<Route>, id: string, wanted: Option<Route>, fault: Fault)
    requires Unique(t) && (wanted.Some? ==> wanted.value.id == id)
    ensures var (u, ok) := Pushed(t, id, wanted, fault);
            (Unique(u) && (ok ==> RouteOf(u, id) == wanted)) <==> !Duplicates(t, wanted, fault)
  {
    if Duplicates(t, wanted, fault) {
      AppendUniqueIff(t, wanted.value);
    } else {
      PushedIs(t, id, wanted, fault);
    }
  }

  /** Whatever the answers, only the id's own routes are touched. */
  lemma PushedSpares(t: seq<Route>, id: string, wanted: Option<Route>, fault: Fault, other: string)
    requires other != id && (wanted.Some? ==> wanted.value.id == id)
    ensures RouteOf(Pushed(t, id, wanted, fault).0, other) == RouteOf(t, other)
  {
    if wanted.Some? {
      EnsureCases(t, wanted.value, fault);
      EnsuredIs(t, wanted.value, other);
      AppendSpares(t, wanted.value, other);
    } else {
      DeletedSpares(t, id, other);
    }
  }

  /** Exactly when a reconcile does its work, for every answer of the admin API. */
  lemma ReconcileWorksIff(t: seq<Route>, id: string, a: Option<App>, appPort: int, fault: Fault)
    requires Unique(t)
    ensures var (u, ok) := Reconciled(t, id, a, appPort, fault);
            (Unique(u) && (ok ==> RouteOf(u, id) == Wanted(id, a, appPort))) <==> !Duplicates(t, Wanted(id, a, appPort), fault)
  {
    PushWorksIff(t, id, Wanted(id, a, appPort), fault);
  }

  // ---- dropping irrelevant updates, one reconcile per update ----

  /** Reconciling the app after every one of its versions. */
  function EveryUpdate(t: seq<Route>, id: string, versions: seq<App>, appPort: int): seq<Route> {
    if versions == [] then t
    else
      var n := |versions| - 1;
      Reconciled(EveryUpdate(t, id, versions[..n], appPort), id, Some(versions[n]), appPort, Fine).0
  }

  /** Reconciling it only after its creation and after the updates the predicate admits. */
  function AdmittedUpdates(t: seq<Route>, id: string, versions: seq<App>, appPort: int): seq<Route> {
    if versions == [] then t
    else
      var n := |versions| - 1;
      var before := AdmittedUpdates(t, id, versions[..n], appPort);
      if n > 0 && !RoutingFieldsChanged(versions[n - 1], versions[n]) then before
      else Reconciled(before, id, Some(versions[n]), appPort, Fine).0
  }

  /** The routing fields determine the wanted route. */
  lemma SameFieldsSameRoute(id: string, a: App, b: App, appPort: int)
    requires !RoutingFieldsChanged(a, b)
    ensures Wanted(id, Some(a), appPort) == Wanted(id, Some(b), appPort)
  {
  }

  /** Exactly when a push reports success: the API can be reached, and the id is set; for a wanted route, it is complete,
      and the PATCH of a present one or else the POST is accepted. */
  lemma PushSucceedsIff(t: seq<Route>, id: string, wanted: Option<Route>, fault: Fault)
    ensures Pushed(t, id, wanted, fault).1 <==>
              && fault != Unreachable
              && if wanted.None? then id != ""
                 else
                   && wanted.value.id != "" && wanted.value.host != "" && wanted.value.upstream != ""
                   && (fault == Fine || fault == PatchRefused || (fault == PostFails && Has(t, wanted.value.id)))
  {
  }

  /** Pushing the same route again changes nothing. */
  lemma PushedAgain(t: seq<Route>, id: string, wanted: Option<Route>)
    requires Unique(t) && (wanted.Some? ==> wanted.value.id == id)
    ensures var u := Pushed(t, id, wanted, Fine).0; Pushed(u, id, wanted, Fine).0 == u
  {
    PushedIs(t, id, wanted, Fine);
    var (u, ok) := Pushed(t, id, wanted, Fine);
    if ok && wanted.Some? {
      EnsuredAgain(u, wanted.value);
    } else if ok {
      AbsentIsOthers(u, id);
    }
  }

  /** The filter changes nothing: the same table, route for route and in the same order. */
  lemma {:induction false} FilterIsLossless(t: seq<Route>, id: string, versions: seq<App>, appPort: int)
    requires Unique(t)
    ensures AdmittedUpdates(t, id, versions, appPort) == EveryUpdate(t, id, versions, appPort)
    ensures Unique(EveryUpdate(t, id, versions, appPort))
  {
    if versions != [] {
      var n := |versions| - 1;
      var front := versions[..n];
      FilterIsLossless(t, id, front, appPort);
      var before := EveryUpdate(t, id, front, appPort);
      PushedIs(before, id, Wanted(id, Some(versions[n]), appPort), Fine);
      if n > 0 && !RoutingFieldsChanged(versions[n - 1], versions[n]) {
        FilterIsLossless(t, id, front[..n - 1], appPort);
        assert front[n - 1] == versions[n - 1];
        SameFieldsSameRoute(id, versions[n - 1], versions[n], appPort);
        PushedAgain(EveryUpdate(t, id, front[..n - 1], appPort), id, Wanted(id, Some(versions[n]), appPort));
      }
    }
  }

  // ---- where the table can go wrong ----

  /** A routable app whose URL has no host: the reconcile fails and a route it had before stays. */
  lemma StaleWithoutHostIff(t: seq<Route>, id: string, a: App, appPort: int)
    requires Unique(t) && id != ""
    ensures RouteOf(Reconciled(t, id, Some(a), appPort, Fine).0, id) == Wanted(id, Some(a), appPort) <==>
              !(Routable(a, appPort) && Host(a.url) == "" && RouteOf(t, id) != Wanted(id, Some(a), appPort))
  {
    PushedIs(t, id, Wanted(id, Some(a), appPort), Fine);
  }

  /** Such a URL, and the route that stays although the app has moved. */
  lemma HostlessUrlLeavesStaleRoute()
    ensures var moved := App("Ready", "https:///x", "new:80", "", false, false, 0);
            var t := [Route("vibed-app-a", "a.example", "old:80")];
            && Routable(moved, 8080) && Host(moved.url) == ""
            && Reconciled(t, "vibed-app-a", Some(moved), 8080, Fine) == (t, false)
  {
    var url := "https:///x";
    assert TrimPrefix(url, "https://") == "/x";
    assert Before("/x", '/') == "";
  }

  /** The URLs the controller publishes always have one: scheme, label, domain, and perhaps a port. */
  lemma PublishedUrlHasHost(secure: bool, app: string, rest: string)
    requires app != "" && ':' !in app && '/' !in app
    ensures Host((if secure then "https://" else "http://") + (app + "." + rest)) != ""
  {
    var all := app + "." + rest;
    assert all[0] == app[0] && all[|app|] == '.';
    NotASchemeFirst(app, rest);
    if secure {
      assert TrimPrefix("https://" + all, "https://") == all;
      assert TrimPrefix(all, "http://") == all;
    } else {
      assert ("http://" + all)[4] == ':' && "https://"[4] == 's';
      assert !("https://" <= "http://" + all);
      assert TrimPrefix("http://" + all, "http://") == all;
    }
    assert Before(all, '/') != "";
    assert Before(all, '/')[0] == all[0];
  }

  lemma NotASchemeFirst(app: string, rest: string)
    requires ':' !in app && '/' !in app
    ensures !("http://" <= app + "." + rest)
  {
    var all := app + "." + rest;
    assert all[|app|] == '.';
    assert |app| > 4 ==> all[4] in app;
    assert forall i :: 0 <= i < 4 ==> "http://"[i] != '.';
  }
}
