/** The router's work queue, with the update filter, failures and restarts (internal/router/reconciler.go).

    The system is stated for any function `want` from an app to its route that depends on the routing fields only;
    the router's own is one (RouterWantIsProper). */
module RouterQueue {
  import opened Wrappers
  import opened RouteTable

  type Want = (string, Option<App>) -> Option<Route>

  /** A route under its own id, none for a missing app, the same for apps with the same routing fields. */
  ghost predicate Proper(want: Want) {
    && (forall id, a :: want(id, a).Some? ==> want(id, a).value.id == id)
    && (forall id :: want(id, None) == None)
    && (forall id, a, b :: !RoutingFieldsChanged(a, b) ==> want(id, Some(a)) == want(id, Some(b)))
  }

  /** What the router wants. */
  function RouterWant(appPort: int): Want { (id: string, a: Option<App>) => Wanted(id, a, appPort) }

  lemma RouterWantIsProper(appPort: int)
    ensures Proper(RouterWant(appPort))
  {
    forall id, a, b | !RoutingFieldsChanged(a, b) ensures RouterWant(appPort)(id, Some(a)) == RouterWant(appPort)(id, Some(b)) {
      SameFieldsSameRoute(id, a, b, appPort);
    }
  }

  /** The @id namespace the router owns. */
  predicate IsAppRoute(id: string) { "vibed-app-" <= id }

  /** orphans: ids whose app was deleted, whose route was still there, and whose deletion was still to be worked off
      when the router restarted; until the id is created again. */
  datatype World = World(apps: map<string, App>, queue: set<string>, routes: seq<Route>, orphans: set<string>)

  datatype Step =
    | Create(id: string, app: App)
    | Modify(id: string, app: App)
    | Remove(id: string)
    | Work(id: string, fault: Fault)
    | Restart

  function Lookup(apps: map<string, App>, id: string): Option<App> { if id in apps then Some(apps[id]) else None }

  function WantedIn(want: Want, w: World, id: string): Option<Route> { want(id, Lookup(w.apps, id)) }

  /** What a restart forgets: queued deletions of apps that have a route. */
  function Stranded(w: World): set<string> { set id | id in w.queue && id !in w.apps && Has(w.routes, id) }

  function Apply(want: Want, w: World, s: Step): World {
    match s
    case Create(id, app) =>
      if id in w.apps || !IsAppRoute(id) then w
      else w.(apps := w.apps[id := app], queue := w.queue + {id}, orphans := w.orphans - {id})
    case Modify(id, app) =>
      if id !in w.apps then w
      else w.(apps := w.apps[id := app], queue := if RoutingFieldsChanged(w.apps[id], app) then w.queue + {id} else w.queue)
    case Remove(id) => if id !in w.apps then w else w.(apps := w.apps - {id}, queue := w.queue + {id})
    case Work(id, fault) =>
      if id !in w.queue then w
      else
        var (t, ok) := Pushed(w.routes, id, WantedIn(want, w, id), fault);
        w.(routes := t, queue := if ok then w.queue - {id} else w.queue)
    case Restart => w.(queue := w.apps.Keys, orphans := w.orphans + Stranded(w))
  }

  function Run(want: Want, initial: seq<Route>, steps: seq<Step>): World {
    if steps == [] then World(map[], {}, initial, {})
    else Apply(want, Run(want, initial, steps[..|steps| - 1]), steps[|steps| - 1])
  }

  lemma RunSnoc(want: Want, initial: seq<Route>, steps: seq<Step>, s: Step)
    ensures Run(want, initial, steps + [s]) == Apply(want, Run(want, initial, steps), s)
  {
    assert (steps + [s])[..|steps|] == steps;
  }

  /** Other people's routes, each id once. */
  ghost predicate Foreign(initial: seq<Route>) { Unique(initial) && forall r :: r in initial ==> !IsAppRoute(r.id) }

  /** An app's id with nothing queued has the wanted route exactly if it is no orphan; an orphan's app is gone and its
      route is not; a foreign id is as it was. */
  ghost predicate IdOk(want: Want, initial: seq<Route>, w: World, id: string) {
    && (id in w.orphans ==> id !in w.apps && id !in w.queue && RouteOf(w.routes, id).Some?)
    && (if IsAppRoute(id) then
          id !in w.queue ==> (RouteOf(w.routes, id) == WantedIn(want, w, id) <==> id !in w.orphans)
        else
          id !in w.apps && id !in w.queue && id !in w.orphans && RouteOf(w.routes, id) == RouteOf(initial, id))
  }

  ghost predicate Inv(want: Want, initial: seq<Route>, w: World) {
    Unique(w.routes) && forall id :: IdOk(want, initial, w, id)
  }

  /** The step does not make a reconcile duplicate a route. */
  predicate Clean(want: Want, w: World, s: Step) {
    s.Work? && s.id in w.queue ==> !Duplicates(w.routes, WantedIn(want, w, s.id), s.fault)
  }

  /** No step of the run does. */
  ghost predicate CleanRun(want: Want, initial: seq<Route>, steps: seq<Step>) {
    forall i :: 0 <= i < |steps| ==> Clean(want, Run(want, initial, steps[..i]), steps[i])
  }

  lemma WorkKeeps(want: Want, initial: seq<Route>, w: World, id: string, fault: Fault, other: string)
    requires Proper(want) && Inv(want, initial, w) && id in w.queue && Clean(want, w, Work(id, fault))
    ensures IdOk(want, initial, Apply(want, w, Work(id, fault)), other)
  {
    assert IdOk(want, initial, w, other) && IdOk(want, initial, w, id);
    PushedIs(w.routes, id, WantedIn(want, w, id), fault);
    if other != id {
      PushedSpares(w.routes, id, WantedIn(want, w, id), fault, other);
    }
  }

  lemma EventKeeps(want: Want, initial: seq<Route>, w: World, s: Step, id: string)
    requires Proper(want) && IdOk(want, initial, w, id) && !s.Work? && !s.Restart?
    ensures IdOk(want, initial, Apply(want, w, s), id)
  {
    var v := Apply(want, w, s);
    assert v.routes == w.routes;
    if Lookup(v.apps, id) != Lookup(w.apps, id) && id !in v.queue {
      assert s.Modify? && s.id == id && !RoutingFieldsChanged(w.apps[id], v.apps[id]);
    }
  }

  lemma RestartKeeps(want: Want, initial: seq<Route>, w: World, id: string)
    requires Proper(want) && IdOk(want, initial, w, id)
    ensures IdOk(want, initial, Apply(want, w, Restart), id)
  {
    if id !in w.apps {
      assert WantedIn(want, w, id) == None;
    }
  }

  lemma StepKeepsInv(want: Want, initial: seq<Route>, w: World, s: Step)
    requires Proper(want) && Inv(want, initial, w) && Clean(want, w, s)
    ensures Inv(want, initial, Apply(want, w, s))
  {
    var v := Apply(want, w, s);
    if s.Work? && s.id in w.queue {
      PushedIs(w.routes, s.id, WantedIn(want, w, s.id), s.fault);
      forall id ensures IdOk(want, initial, v, id) {
        WorkKeeps(want, initial, w, s.id, s.fault, id);
      }
    } else if s.Restart? {
      forall id ensures IdOk(want, initial, v, id) {
        RestartKeeps(want, initial, w, id);
      }
    } else if !s.Work? {
      forall id ensures IdOk(want, initial, v, id) {
        EventKeeps(want, initial, w, s, id);
      }
    }
  }

  lemma PrefixIsClean(want: Want, initial: seq<Route>, steps: seq<Step>, n: nat)
    requires CleanRun(want, initial, steps) && n <= |steps|
    ensures CleanRun(want, initial, steps[..n])
  {
    forall i | 0 <= i < n ensures Clean(want, Run(want, initial, steps[..n][..i]), steps[..n][i]) {
      assert steps[..n][..i] == steps[..i];
      assert Clean(want, Run(want, initial, steps[..i]), steps[i]);
    }
  }

  lemma StartIsSafe(want: Want, initial: seq<Route>)
    requires Proper(want) && Foreign(initial)
    ensures Inv(want, initial, Run(want, initial, []))
  {
    forall id ensures IdOk(want, initial, Run(want, initial, []), id) {
      if Has(initial, id) {
        var i :| 0 <= i < |initial| && initial[i].id == id;
        assert initial[i] in initial;
      }
    }
  }

  lemma {:induction false} EveryRunIsSafe(want: Want, initial: seq<Route>, steps: seq<Step>)
    requires Proper(want) && Foreign(initial) && CleanRun(want, initial, steps)
    ensures Inv(want, initial, Run(want, initial, steps))
  {
    if steps == [] {
      StartIsSafe(want, initial);
    } else {
      var n := |steps| - 1;
      PrefixIsClean(want, initial, steps, n);
      EveryRunIsSafe(want, initial, steps[..n]);
      assert Clean(want, Run(want, initial, steps[..n]), steps[n]);
      StepKeepsInv(want, initial, Run(want, initial, steps[..n]), steps[n]);
    }
  }

  /** Whatever was filtered, failed or delayed: an app's id with nothing left to work off has exactly the wanted route
      if and only if it is no orphan, ids occur once, and foreign routes are as they were found. */
  lemma SettledRoutesAreRightIff(want: Want, initial: seq<Route>, steps: seq<Step>, id: string)
    requires Proper(want) && Foreign(initial) && CleanRun(want, initial, steps)
    ensures var w := Run(want, initial, steps);
            && Unique(w.routes)
            && (IsAppRoute(id) && id !in w.queue ==> (RouteOf(w.routes, id) == WantedIn(want, w, id) <==> id !in w.orphans))
            && (!IsAppRoute(id) ==> RouteOf(w.routes, id) == RouteOf(initial, id))
  {
    EveryRunIsSafe(want, initial, steps);
    assert IdOk(want, initial, Run(want, initial, steps), id);
  }

  /** For the router itself: a settled id that is no orphan has a route exactly if its app is Ready with a URL and an
      upstream, and then with its host and upstream. */
  lemma RoutedIffReady(appPort: int, initial: seq<Route>, steps: seq<Step>, id: string)
    requires Foreign(initial) && CleanRun(RouterWant(appPort), initial, steps) && IsAppRoute(id)
    requires id !in Run(RouterWant(appPort), initial, steps).queue && id !in Run(RouterWant(appPort), initial, steps).orphans
    ensures var w := Run(RouterWant(appPort), initial, steps);
            && RouteOf(w.routes, id) == Wanted(id, Lookup(w.apps, id), appPort)
            && (Has(w.routes, id) <==> id in w.apps && Routable(w.apps[id], appPort))
  {
    RouterWantIsProper(appPort);
    SettledRoutesAreRightIff(RouterWant(appPort), initial, steps, id);
  }

  // ---- a refused PATCH ----

  lemma DuplicatingStep(want: Want, w: World, s: Step)
    requires Proper(want) && Unique(w.routes) && !Clean(want, w, s)
    ensures !Unique(Apply(want, w, s).routes) && s.id !in Apply(want, w, s).queue
  {
    var wanted := WantedIn(want, w, s.id);
    EnsureCases(w.routes, wanted.value, s.fault);
    AppendUniqueIff(w.routes, wanted.value);
  }

  lemma CleanPrefixIsUnique(want: Want, initial: seq<Route>, steps: seq<Step>, n: nat)
    requires Proper(want) && Foreign(initial) && CleanRun(want, initial, steps) && n <= |steps|
    ensures Unique(Run(want, initial, steps[..n]).routes)
  {
    PrefixIsClean(want, initial, steps, n);
    EveryRunIsSafe(want, initial, steps[..n]);
  }

  lemma UncleanStepBreaks(want: Want, initial: seq<Route>, steps: seq<Step>, i: nat)
    requires Proper(want) && i < |steps| && !Clean(want, Run(want, initial, steps[..i]), steps[i])
    requires Unique(Run(want, initial, steps[..i]).routes)
    ensures !Unique(Run(want, initial, steps[..i + 1]).routes)
  {
    assert steps[..i + 1] == steps[..i] + [steps[i]];
    RunSnoc(want, initial, steps[..i], steps[i]);
    DuplicatingStep(want, Run(want, initial, steps[..i]), steps[i]);
  }

  ghost predicate UniqueAfter(want: Want, initial: seq<Route>, steps: seq<Step>, n: nat)
    requires n <= |steps|
  {
    Unique(Run(want, initial, steps[..n]).routes)
  }

  /** Ids stay unique all along a run exactly if none of its steps duplicates one. */
  lemma IdsStayUniqueIff(want: Want, initial: seq<Route>, steps: seq<Step>)
    requires Proper(want) && Foreign(initial)
    ensures (forall n :: 0 <= n <= |steps| ==> UniqueAfter(want, initial, steps, n)) <==> CleanRun(want, initial, steps)
  {
    if CleanRun(want, initial, steps) {
      forall n | 0 <= n <= |steps| ensures UniqueAfter(want, initial, steps, n) {
        CleanPrefixIsUnique(want, initial, steps, n);
      }
    } else {
      var i :| 0 <= i < |steps| && !Clean(want, Run(want, initial, steps[..i]), steps[i]);
      if UniqueAfter(want, initial, steps, i) {
        UncleanStepBreaks(want, initial, steps, i);
        assert !UniqueAfter(want, initial, steps, i + 1);
      }
    }
  }

  /** Working off an id with the admin API answering as it should settles it, unless its route is incomplete. */
  lemma FineWorkSettles(want: Want, w: World, id: string)
    requires Proper(want) && Unique(w.routes) && id in w.queue && id != ""
    requires WantedIn(want, w, id).Some? ==> Complete(WantedIn(want, w, id).value)
    ensures var v := Apply(want, w, Work(id, Fine)); id !in v.queue && RouteOf(v.routes, id) == WantedIn(want, v, id)
  {
    PushSucceedsIff(w.routes, id, WantedIn(want, w, id), Fine);
    PushedIs(w.routes, id, WantedIn(want, w, id), Fine);
  }

  /** What is queued: every created or removed app, and a modified one exactly if the filter passes the change. */
  lemma EventsAreQueued(want: Want, w: World, id: string, app: App)
    ensures IsAppRoute(id) && id !in w.apps ==> id in Apply(want, w, Create(id, app)).queue
    ensures id in w.apps ==> id in Apply(want, w, Remove(id)).queue
    ensures id in w.apps ==> (id in Apply(want, w, Modify(id, app)).queue <==> id in w.queue || app != w.apps[id].(rest := app.rest))
    ensures Apply(want, w, Restart).queue == w.apps.Keys
  {
  }

  // ---- deletions lost at a restart ----

  /** What a restart loses, at one state. */
  lemma RestartLoses(want: Want, initial: seq<Route>, w: World, id: string)
    requires Proper(want) && IdOk(want, initial, w, id) && IsAppRoute(id) && id !in w.orphans
    ensures var v := Apply(want, w, Restart);
            (id in v.queue || RouteOf(v.routes, id) == WantedIn(want, v, id)) <==> id !in Stranded(w)
  {
    RestartKeeps(want, initial, w, id);
  }

  /** Exactly what a restart loses: after it, an id that was no orphan before is queued or has the wanted route, unless
      its deletion was queued and its route was still there. */
  lemma RestartLosesIff(want: Want, initial: seq<Route>, steps: seq<Step>, id: string)
    requires Proper(want) && Foreign(initial) && CleanRun(want, initial, steps) && IsAppRoute(id)
    requires id !in Run(want, initial, steps).orphans
    ensures var w := Run(want, initial, steps);
            var v := Apply(want, w, Restart);
            (id in v.queue || RouteOf(v.routes, id) == WantedIn(want, v, id)) <==>
            !(id in w.queue && id !in w.apps && Has(w.routes, id))
  {
    EveryRunIsSafe(want, initial, steps);
    RestartLoses(want, initial, Run(want, initial, steps), id);
  }

  /** No step from i on creates the id. */
  predicate NotCreatedFrom(steps: seq<Step>, i: nat, id: string) {
    forall j :: i <= j < |steps| ==> !(steps[j].Create? && steps[j].id == id)
  }

  lemma StepSpares(want: Want, w: World, s: Step, id: string)
    requires Proper(want) && id !in w.apps && id !in w.queue && !(s.Create? && s.id == id)
    ensures var v := Apply(want, w, s); id !in v.apps && id !in v.queue && RouteOf(v.routes, id) == RouteOf(w.routes, id)
  {
    if s.Work? && s.id in w.queue {
      PushedSpares(w.routes, s.id, WantedIn(want, w, s.id), s.fault, id);
    }
  }

  /** The app is gone and nothing is queued: whatever follows, the route (or its absence) stays as it is until the id
      is created again. */
  lemma {:induction false} UnqueuedStays(want: Want, initial: seq<Route>, before: seq<Step>, after: seq<Step>, id: string)
    requires Proper(want) && NotCreatedFrom(after, 0, id)
    requires var w := Run(want, initial, before); id !in w.apps && id !in w.queue
    ensures var w, v := Run(want, initial, before), Run(want, initial, before + after);
            id !in v.apps && id !in v.queue && RouteOf(v.routes, id) == RouteOf(w.routes, id)
    decreases |after|
  {
    if after == [] {
      assert before + after == before;
    } else {
      var front, s := after[..|after| - 1], after[|after| - 1];
      assert NotCreatedFrom(front, 0, id) && !(s.Create? && s.id == id);
      UnqueuedStays(want, initial, before, front, id);
      var u := Run(want, initial, before + front);
      StepSpares(want, u, s, id);
      assert before + after == (before + front) + [s];
      RunSnoc(want, initial, before + front, s);
    }
  }

  lemma OrphanStep(want: Want, w: World, s: Step, id: string)
    requires IsAppRoute(id) && (id in w.orphans ==> id !in w.apps)
    ensures id in Apply(want, w, s).orphans <==>
              (s.Restart? && id in Stranded(w)) || (id in w.orphans && !(s.Create? && s.id == id))
  {
  }

  /** A flag that is set at some steps, cleared by creations and kept otherwise. */
  lemma {:induction false} FlagHistory(steps: seq<Step>, sets: seq<bool>, flag: seq<bool>, id: string, n: nat)
    requires |sets| == |steps| && |flag| == |steps| + 1 && n <= |steps| && !flag[0]
    requires forall i :: 0 <= i < |steps| && sets[i] ==> steps[i].Restart?
    requires forall i :: 0 <= i < |steps| ==> (flag[i + 1] <==> sets[i] || (flag[i] && !(steps[i].Create? && steps[i].id == id)))
    ensures flag[n] <==> exists i :: 0 <= i < n && sets[i] && NotCreatedFrom(steps[..n], i, id)
  {
    if n > 0 {
      FlagHistory(steps, sets, flag, id, n - 1);
      if i :| 0 <= i < n - 1 && sets[i] && NotCreatedFrom(steps[..n - 1], i, id) && !(steps[n - 1].Create? && steps[n - 1].id == id) {
        assert NotCreatedFrom(steps[..n], i, id);
      }
      if i :| 0 <= i < n && sets[i] && NotCreatedFrom(steps[..n], i, id) {
        assert steps[..n][n - 1] == steps[n - 1];
        var front := steps[..n - 1];
        assert forall j :: i <= j < n - 1 ==> front[j] == steps[..n][j];
        assert NotCreatedFrom(front, i, id);
      }
      if sets[n - 1] {
        assert NotCreatedFrom(steps[..n], n - 1, id);
      }
    }
  }

  /** Step i is a restart that loses the deletion of the id. */
  ghost predicate LosesAt(want: Want, initial: seq<Route>, steps: seq<Step>, id: string, i: nat)
    requires i < |steps|
  {
    steps[i].Restart? && id in Stranded(Run(want, initial, steps[..i]))
  }

  ghost function Losses(want: Want, initial: seq<Route>, steps: seq<Step>, id: string): (r: seq<bool>)
    ensures |r| == |steps| && forall i :: 0 <= i < |steps| ==> r[i] == LosesAt(want, initial, steps, id, i)
  {
    seq(|steps|, i requires 0 <= i < |steps| => LosesAt(want, initial, steps, id, i))
  }

  ghost predicate OrphanAfter(want: Want, initial: seq<Route>, steps: seq<Step>, id: string, i: nat)
    requires i <= |steps|
  {
    id in Run(want, initial, steps[..i]).orphans
  }

  ghost function Orphaned(want: Want, initial: seq<Route>, steps: seq<Step>, id: string): (r: seq<bool>)
    ensures |r| == |steps| + 1 && forall i :: 0 <= i <= |steps| ==> r[i] == OrphanAfter(want, initial, steps, id, i)
  {
    seq(|steps| + 1, i requires 0 <= i < |steps| + 1 => OrphanAfter(want, initial, steps, id, i))
  }

  lemma OrphanAt(want: Want, initial: seq<Route>, steps: seq<Step>, id: string, i: nat)
    requires Proper(want) && Foreign(initial) && CleanRun(want, initial, steps) && IsAppRoute(id) && i < |steps|
    ensures OrphanAfter(want, initial, steps, id, i + 1) <==>
              || LosesAt(want, initial, steps, id, i)
              || (OrphanAfter(want, initial, steps, id, i) && !(steps[i].Create? && steps[i].id == id))
  {
    PrefixIsClean(want, initial, steps, i);
    EveryRunIsSafe(want, initial, steps[..i]);
    assert IdOk(want, initial, Run(want, initial, steps[..i]), id);
    assert steps[..i + 1] == steps[..i] + [steps[i]];
    RunSnoc(want, initial, steps[..i], steps[i]);
    OrphanStep(want, Run(want, initial, steps[..i]), steps[i], id);
  }

  /** Who the orphans are, in terms of the run alone: the ids whose deletion some restart lost and that were not
      created again since. */
  lemma OrphansExactly(want: Want, initial: seq<Route>, steps: seq<Step>, id: string)
    requires Proper(want) && Foreign(initial) && CleanRun(want, initial, steps) && IsAppRoute(id)
    ensures OrphanAfter(want, initial, steps, id, |steps|) <==>
            exists i :: 0 <= i < |steps| && LosesAt(want, initial, steps, id, i) && NotCreatedFrom(steps, i, id)
  {
    var n := |steps|;
    var sets, flag := Losses(want, initial, steps, id), Orphaned(want, initial, steps, id);
    forall i | 0 <= i < n ensures flag[i + 1] <==> sets[i] || (flag[i] && !(steps[i].Create? && steps[i].id == id)) {
      OrphanAt(want, initial, steps, id, i);
    }
    FlagHistory(steps, sets, flag, id, n);
    assert steps[..n] == steps;
    if i :| 0 <= i < n && LosesAt(want, initial, steps, id, i) && NotCreatedFrom(steps, i, id) {
      assert sets[i];
    }
    if i :| 0 <= i < n && sets[i] && NotCreatedFrom(steps, i, id) {
      assert LosesAt(want, initial, steps, id, i);
    }
  }

  // ---- runs in which the table goes wrong ----

  /** A new routable app gets its route. */
  lemma FirstRoute(want: Want, id: string, app: App)
    requires Proper(want) && IsAppRoute(id) && want(id, Some(app)).Some? && Complete(want(id, Some(app)).value)
    ensures var w := Run(want, [], [Create(id, app)] + [Work(id, Fine)]);
            Lookup(w.apps, id) == Some(app) && Unique(w.routes) && RouteOf(w.routes, id) == want(id, Some(app))
  {
    RunSnoc(want, [], [], Create(id, app));
    assert [] + [Create(id, app)] == [Create(id, app)];
    RunSnoc(want, [], [Create(id, app)], Work(id, Fine));
    var w := Run(want, [], [Create(id, app)]);
    assert id in w.queue && Lookup(w.apps, id) == Some(app);
    PushedIs([], id, want(id, Some(app)), Fine);
  }

  /** A deletion not yet worked off is forgotten by a restart; the route stays, with nothing queued to remove it. */
  lemma DeletionLostAtRestart(want: Want, id: string, app: App)
    requires Proper(want) && IsAppRoute(id) && want(id, Some(app)).Some? && Complete(want(id, Some(app)).value)
    ensures var w := Run(want, [], [Create(id, app)] + [Work(id, Fine)] + [Remove(id)] + [Restart]);
            id !in w.apps && id !in w.queue && Has(w.routes, id)
  {
    FirstRoute(want, id, app);
    var steps := [Create(id, app)] + [Work(id, Fine)];
    RunSnoc(want, [], steps, Remove(id));
    RunSnoc(want, [], steps + [Remove(id)], Restart);
  }

  /** A run that ends with two routes of one id, with every reconcile successful and the id not queued. */
  lemma RefusedPatchDuplicates(want: Want, id: string, app: App)
    requires Proper(want) && IsAppRoute(id) && want(id, Some(app)).Some? && Complete(want(id, Some(app)).value)
    ensures var w := Run(want, [], [Create(id, app)] + [Work(id, Fine)] + [Restart] + [Work(id, PatchRefused)]);
            id !in w.queue && !Unique(w.routes)
  {
    FirstRoute(want, id, app);
    var steps := [Create(id, app)] + [Work(id, Fine)];
    RunSnoc(want, [], steps, Restart);
    RunSnoc(want, [], steps + [Restart], Work(id, PatchRefused));
    DuplicatingStep(want, Run(want, [], steps + [Restart]), Work(id, PatchRefused));
  }
}
