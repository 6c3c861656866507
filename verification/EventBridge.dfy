/** The dashboard event bridge (pkg/server/eventbridge.go): it watches VibedApps by uid and publishes
    events that a dashboard folds into a mirror keyed by app name. */
module EventBridge {
  import opened Wrappers

  type Uid = nat
  type Name = string

  /** bridgeState: what was last published about an app. */
  datatype Shown = Shown(name: Name, owner: string, phase: string, url: string)

  /** A published event. The uid is not part of the event; it says which app it was about. */
  datatype Event = StatusChanged(uid: Uid, shown: Shown) | Deleted(uid: Uid, name: Name, owner: string)

  datatype Bridge = Bridge(last: map<Uid, Shown>, published: seq<Event>)

  /** One entry of a list of live apps. */
  datatype App = App(uid: Uid, shown: Shown)

  function PublishStatus(b: Bridge, uid: Uid, cur: Shown): Bridge {
    if uid in b.last && b.last[uid] == cur then b
    else Bridge(b.last[uid := cur], b.published + [StatusChanged(uid, cur)])
  }

  function PublishDelete(b: Bridge, uid: Uid, name: Name, owner: string): Bridge {
    Bridge(b.last - {uid}, b.published + [Deleted(uid, name, owner)])
  }

  /** Reap vanished apps in the given order. */
  function ReapAll(b: Bridge, order: seq<Uid>): Bridge {
    if order == [] then b
    else
      var b1 := ReapAll(b, order[..|order| - 1]);
      var uid := order[|order| - 1];
      if uid in b1.last then PublishDelete(b1, uid, b1.last[uid].name, b1.last[uid].owner) else b1
  }

  function PublishAll(b: Bridge, items: seq<App>): Bridge {
    if items == [] then b
    else
      var b1 := PublishAll(b, items[..|items| - 1]);
      PublishStatus(b1, items[|items| - 1].uid, items[|items| - 1].shown)
  }

  function Uids(items: seq<App>): set<Uid> { set i | 0 <= i < |items| :: items[i].uid }

  /** `order` enumerates the apps that are remembered but no longer listed. */
  ghost predicate ReapOrder(last: map<Uid, Shown>, items: seq<App>, order: seq<Uid>) {
    && (forall i, j :: 0 <= i < j < |order| ==> order[i] != order[j])
    && (forall u :: u in order <==> u in last && u !in Uids(items))
  }

  /** sync: reap in some order (the source ranges over a map), then publish what is listed. */
  function Sync(b: Bridge, items: seq<App>, order: seq<Uid>): Bridge {
    PublishAll(ReapAll(b, order), items)
  }

  /** What a dashboard keeps: phase and URL by name. */
  function Mirror(events: seq<Event>): map<Name, (string, string)> {
    if events == [] then map[] else Fold(Mirror(events[..|events| - 1]), events[|events| - 1])
  }

  function Fold(m: map<Name, (string, string)>, e: Event): map<Name, (string, string)> {
    if e.StatusChanged? then m[e.shown.name := (e.shown.phase, e.shown.url)] else m - {e.name}
  }

  /** What the last event about an app said: its state, or None after a delete or before any event. */
  function Latest(events: seq<Event>, uid: Uid): Option<Shown> {
    if events == [] then None
    else
      var e := events[|events| - 1];
      if e.uid != uid then Latest(events[..|events| - 1], uid)
      else if e.StatusChanged? then Some(e.shown) else None
  }

  /** No app gets two equal status events in a row without a delete between them. */
  ghost predicate NoRepeats(events: seq<Event>) {
    forall i :: 0 <= i < |events| && events[i].StatusChanged? ==> Latest(events[..i], events[i].uid) != Some(events[i].shown)
  }

  function Names(last: map<Uid, Shown>): set<Name> { set u | u in last :: last[u].name }

  ghost predicate UniqueNames(last: map<Uid, Shown>) {
    forall u, v :: u in last && v in last && u != v ==> last[u].name != last[v].name
  }

  /** The mirror shows exactly these apps. */
  ghost predicate Shows(m: map<Name, (string, string)>, last: map<Uid, Shown>) {
    && m.Keys == Names(last)
    && forall u :: u in last ==> last[u].name in m && m[last[u].name] == (last[u].phase, last[u].url)
  }

  ghost predicate Ok(b: Bridge) {
    && UniqueNames(b.last)
    && Shows(Mirror(b.published), b.last)
    && NoRepeats(b.published)
    && forall u :: Latest(b.published, u) == if u in b.last then Some(b.last[u]) else None
  }

  lemma Extend(events: seq<Event>, e: Event)
    ensures (events + [e])[..|events|] == events
    ensures Mirror(events + [e]) == Fold(Mirror(events), e)
    ensures forall u :: Latest(events + [e], u) == if e.uid != u then Latest(events, u) else if e.StatusChanged? then Some(e.shown) else None
    ensures NoRepeats(events) && (e.StatusChanged? ==> Latest(events, e.uid) != Some(e.shown)) ==> NoRepeats(events + [e])
  {
    var more := events + [e];
    assert more[..|events|] == events;
    forall i | 0 <= i < |events| ensures more[..i] == events[..i] && more[i] == events[i] {
    }
  }

  lemma StatusShows(m: map<Name, (string, string)>, last: map<Uid, Shown>, uid: Uid, cur: Shown)
    requires Shows(m, last) && UniqueNames(last)
    requires uid in last ==> last[uid].name == cur.name
    requires forall v :: v in last && v != uid ==> last[v].name != cur.name
    ensures Shows(m[cur.name := (cur.phase, cur.url)], last[uid := cur]) && UniqueNames(last[uid := cur])
  {
    var last' := last[uid := cur];
    forall n ensures n in Names(last') <==> n in Names(last) || n == cur.name {
      if n == cur.name {
        assert last'[uid].name == n;
      } else if n in Names(last) {
        var v :| v in last && last[v].name == n;
        assert last'[v].name == n;
      }
    }
  }

  lemma DeleteShows(m: map<Name, (string, string)>, last: map<Uid, Shown>, uid: Uid)
    requires Shows(m, last) && UniqueNames(last) && uid in last
    ensures Shows(m - {last[uid].name}, last - {uid}) && UniqueNames(last - {uid})
  {
    var last' := last - {uid};
    forall n ensures n in Names(last') <==> n in Names(last) && n != last[uid].name {
      if n in Names(last) && n != last[uid].name {
        var v :| v in last && last[v].name == n;
        assert v in last' && last'[v].name == n;
      }
    }
  }

  /** Publishing a status, as long as the name is not another remembered app's. */
  lemma StatusKeeps(b: Bridge, uid: Uid, cur: Shown)
    requires Ok(b)
    requires uid in b.last ==> b.last[uid].name == cur.name
    requires forall v :: v in b.last && v != uid ==> b.last[v].name != cur.name
    ensures Ok(PublishStatus(b, uid, cur)) && PublishStatus(b, uid, cur).last == b.last[uid := cur]
  {
    if !(uid in b.last && b.last[uid] == cur) {
      Extend(b.published, StatusChanged(uid, cur));
      StatusShows(Mirror(b.published), b.last, uid, cur);
    }
  }

  lemma DeleteKeeps(b: Bridge, uid: Uid, owner: string)
    requires Ok(b) && uid in b.last
    ensures Ok(PublishDelete(b, uid, b.last[uid].name, owner))
  {
    Extend(b.published, Deleted(uid, b.last[uid].name, owner));
    DeleteShows(Mirror(b.published), b.last, uid);
  }

  lemma {:induction false} ReapAllKeeps(b: Bridge, order: seq<Uid>)
    requires Ok(b)
    ensures Ok(ReapAll(b, order))
    ensures forall u :: u in ReapAll(b, order).last <==> u in b.last && u !in order
    ensures forall u :: u in ReapAll(b, order).last ==> ReapAll(b, order).last[u] == b.last[u]
  {
    if order != [] {
      var front, uid := order[..|order| - 1], order[|order| - 1];
      ReapAllKeeps(b, front);
      assert order == front + [uid];
      var b1 := ReapAll(b, front);
      if uid in b1.last {
        DeleteKeeps(b1, uid, b1.last[uid].owner);
      }
    }
  }

  /** A list as a map. */
  function AsMap(items: seq<App>): map<Uid, Shown> {
    if items == [] then map[] else AsMap(items[..|items| - 1])[items[|items| - 1].uid := items[|items| - 1].shown]
  }

  lemma {:induction false} AsMapAt(items: seq<App>)
    requires forall i, j :: 0 <= i < j < |items| ==> items[i].uid != items[j].uid
    ensures forall u :: u in AsMap(items) <==> u in Uids(items)
    ensures forall i :: 0 <= i < |items| ==> items[i].uid in AsMap(items) && AsMap(items)[items[i].uid] == items[i].shown
  {
    if items != [] {
      var n := |items| - 1;
      AsMapAt(items[..n]);
      UidsGrow(items, n);
      assert items[..n + 1] == items;
      assert forall i | 0 <= i < n :: items[..n][i] == items[i];
    }
  }

  /** A list of live apps: one entry per uid, unique names. */
  ghost predicate Listing(items: seq<App>) {
    forall i, j :: 0 <= i < j < |items| ==> items[i].uid != items[j].uid && items[i].shown.name != items[j].shown.name
  }

  lemma {:induction false} PublishAllLast(b: Bridge, items: seq<App>)
    ensures PublishAll(b, items).last == b.last + AsMap(items)
  {
    if items == [] {
      assert b.last + map[] == b.last;
    } else {
      var front, a := items[..|items| - 1], items[|items| - 1];
      PublishAllLast(b, front);
      assert (b.last + AsMap(front))[a.uid := a.shown] == b.last + AsMap(items);
      assert PublishAll(b, items).last == PublishAll(b, front).last[a.uid := a.shown];
    }
  }

  /** Every remembered app is in the listing t, under the same name. */
  ghost predicate Within(last: map<Uid, Shown>, t: map<Uid, Shown>) {
    forall u :: u in last ==> u in t && t[u].name == last[u].name
  }

  lemma {:induction false} AsMapWithin(items: seq<App>, t: map<Uid, Shown>)
    requires forall i :: 0 <= i < |items| ==> items[i].uid in t && t[items[i].uid] == items[i].shown
    ensures Within(AsMap(items), t)
  {
    if items != [] {
      AsMapWithin(items[..|items| - 1], t);
    }
  }

  /** Publishing statuses that all come from one listing t, on top of remembered apps that are in it. */
  lemma {:induction false} PublishAllKeeps(b: Bridge, items: seq<App>, t: map<Uid, Shown>)
    requires Ok(b) && UniqueNames(t) && Within(b.last, t)
    requires forall i :: 0 <= i < |items| ==> items[i].uid in t && t[items[i].uid] == items[i].shown
    ensures Ok(PublishAll(b, items))
  {
    if items != [] {
      var front, a := items[..|items| - 1], items[|items| - 1];
      PublishAllKeeps(b, front, t);
      PublishAllLast(b, front);
      AsMapWithin(front, t);
      assert Within(PublishAll(b, front).last, t);
      StatusKeeps(PublishAll(b, front), a.uid, a.shown);
    }
  }

  lemma ListingNames(items: seq<App>)
    requires Listing(items)
    ensures UniqueNames(AsMap(items))
  {
    AsMapAt(items);
    forall u, v | u in AsMap(items) && v in AsMap(items) && u != v ensures AsMap(items)[u].name != AsMap(items)[v].name {
      assert u in Uids(items) && v in Uids(items);
      var i :| 0 <= i < |items| && items[i].uid == u;
      var j :| 0 <= j < |items| && items[j].uid == v;
    }
  }

  /** After reaping, only listed apps are remembered. */
  lemma ReapedWithin(b: Bridge, items: seq<App>, order: seq<Uid>)
    requires Ok(b) && Listing(items) && ReapOrder(b.last, items, order)
    requires forall u :: u in b.last && u in AsMap(items) ==> b.last[u].name == AsMap(items)[u].name
    ensures Ok(ReapAll(b, order)) && Within(ReapAll(b, order).last, AsMap(items))
  {
    AsMapAt(items);
    ReapAllKeeps(b, order);
    forall u | u in ReapAll(b, order).last ensures u in AsMap(items) && AsMap(items)[u].name == ReapAll(b, order).last[u].name {
      assert u in b.last && u !in order;
      assert u in Uids(items);
    }
  }

  lemma Overlay(last: map<Uid, Shown>, t: map<Uid, Shown>)
    requires Within(last, t)
    ensures last + t == t
  {
  }

  /** Whatever was missed while disconnected: after a sync the bridge remembers exactly the listed
      apps, and the mirror shows exactly them. */
  lemma SyncCatchesUp(b: Bridge, items: seq<App>, order: seq<Uid>)
    requires Ok(b) && Listing(items) && ReapOrder(b.last, items, order)
    // an app keeps its name for life
    requires forall u :: u in b.last && u in AsMap(items) ==> b.last[u].name == AsMap(items)[u].name
    ensures Ok(Sync(b, items, order)) && Sync(b, items, order).last == AsMap(items)
  {
    ReapedWithin(b, items, order);
    ListingNames(items);
    AsMapAt(items);
    var b1 := ReapAll(b, order);
    PublishAllKeeps(b1, items, AsMap(items));
    PublishAllLast(b1, items);
    Overlay(b1.last, AsMap(items));
  }

  /** A deletion under the remembered name and owner for each reaped app. */
  function Deletions(last: map<Uid, Shown>, order: seq<Uid>): seq<Event>
    requires forall u :: u in order ==> u in last
  {
    seq(|order|, i requires 0 <= i < |order| => Deleted(order[i], last[order[i]].name, last[order[i]].owner))
  }

  /** A status for each listed app that was not remembered just like that. */
  function Changes(last: map<Uid, Shown>, items: seq<App>): seq<Event> {
    if items == [] then []
    else
      var a := items[|items| - 1];
      Changes(last, items[..|items| - 1]) + Changed(last, a)
  }

  lemma {:induction false} ReapAllPublishes(b: Bridge, order: seq<Uid>)
    requires forall i, j :: 0 <= i < j < |order| ==> order[i] != order[j]
    requires forall u :: u in order ==> u in b.last
    ensures ReapAll(b, order).published == b.published + Deletions(b.last, order)
    ensures forall u :: u in ReapAll(b, order).last <==> u in b.last && u !in order
    ensures forall u :: u in ReapAll(b, order).last ==> ReapAll(b, order).last[u] == b.last[u]
  {
    if order == [] {
      assert b.published + [] == b.published;
    } else {
      var front, uid := order[..|order| - 1], order[|order| - 1];
      assert order == front + [uid];
      ReapAllPublishes(b, front);
      assert uid !in front;
      DeletionsSnoc(b.last, front, uid);
    }
  }

  lemma DeletionsSnoc(last: map<Uid, Shown>, order: seq<Uid>, uid: Uid)
    requires (forall u :: u in order ==> u in last) && uid in last
    ensures forall u :: u in order + [uid] ==> u in last
    ensures Deletions(last, order + [uid]) == Deletions(last, order) + [Deleted(uid, last[uid].name, last[uid].owner)]
  {
  }

  /** Both remember the same about an app. */
  predicate Agree(a: map<Uid, Shown>, b: map<Uid, Shown>, u: Uid) {
    (u in a <==> u in b) && (u in a ==> a[u] == b[u])
  }

  /** Publishing a list with one entry per app: what is compared is what was remembered before. */
  lemma {:induction false} PublishAllPublishes(b: Bridge, items: seq<App>, last: map<Uid, Shown>)
    requires forall i, j :: 0 <= i < j < |items| ==> items[i].uid != items[j].uid
    requires forall i :: 0 <= i < |items| ==> Agree(last, b.last, items[i].uid)
    ensures PublishAll(b, items).published == b.published + Changes(last, items)
    ensures forall u :: u !in Uids(items) ==> Agree(PublishAll(b, items).last, b.last, u)
  {
    if items == [] {
      assert b.published + [] == b.published;
    } else {
      var n := |items| - 1;
      var front, a := items[..n], items[n];
      PublishAllPublishes(b, front, last);
      assert items[..n + 1] == items;
      UidsGrow(items, n);
      LastIsNew(items);
      PublishedSnoc(PublishAll(b, front), a, last);
      assert b.published + (Changes(last, front) + Changed(last, a)) == (b.published + Changes(last, front)) + Changed(last, a);
    }
  }

  /** The status one app calls for. */
  function Changed(last: map<Uid, Shown>, a: App): seq<Event> {
    if a.uid in last && last[a.uid] == a.shown then [] else [StatusChanged(a.uid, a.shown)]
  }

  lemma PublishedSnoc(b: Bridge, a: App, last: map<Uid, Shown>)
    requires Agree(b.last, last, a.uid)
    ensures PublishStatus(b, a.uid, a.shown).published == b.published + Changed(last, a)
    ensures forall u :: u != a.uid ==> Agree(PublishStatus(b, a.uid, a.shown).last, b.last, u)
  {
  }

  lemma LastIsNew(items: seq<App>)
    requires items != [] && forall i, j :: 0 <= i < j < |items| ==> items[i].uid != items[j].uid
    ensures items[|items| - 1].uid !in Uids(items[..|items| - 1])
  {
    var front := items[..|items| - 1];
    assert forall i :: 0 <= i < |front| ==> front[i].uid == items[i].uid;
  }

  /** Exactly what a sync publishes: the deletions of vanished apps, each under its own name and owner, then the changed
      statuses of the listed ones. */
  lemma SyncPublishes(b: Bridge, items: seq<App>, order: seq<Uid>)
    requires Listing(items) && ReapOrder(b.last, items, order)
    ensures Sync(b, items, order).published == b.published + Deletions(b.last, order) + Changes(b.last, items)
  {
    ReapAllPublishes(b, order);
    var b1 := ReapAll(b, order);
    forall i | 0 <= i < |items| ensures Agree(b.last, b1.last, items[i].uid) {
      assert items[i].uid in Uids(items);
    }
    PublishAllPublishes(b1, items, b.last);
  }

  // ---- cluster, disconnects and the bridge together ----

  /** What happens to VibedApps: a create or update of an app, or its removal. */
  datatype Change = Upsert(uid: Uid, shown: Shown) | Gone(uid: Uid)

  /** The live apps after a prefix of the cluster's history. */
  function Replay(log: seq<Change>): map<Uid, Shown> {
    if log == [] then map[]
    else
      var m := Replay(log[..|log| - 1]);
      match log[|log| - 1]
      case Upsert(u, s) => m[u := s]
      case Gone(u) => m - {u}
  }

  /** `listed` is a snapshot at some resource version, `pos` the version the bridge has consumed. */
  datatype World = World(log: seq<Change>, pos: nat, connected: bool, bridge: Bridge)

  datatype Step =
    | ClusterChange(c: Change)
    | Disconnect
    | Relist(rv: nat, items: seq<App>, order: seq<Uid>)
    | Deliver

  const START := World([], 0, false, Bridge(map[], []))

  /** Names are unique among live apps and fixed per uid; uids are never reused. */
  ghost predicate Possible(log: seq<Change>, c: Change) {
    var live := Replay(log);
    match c
    case Gone(u) => u in live
    case Upsert(u, s) =>
      && (if u in live then live[u].name == s.name else forall i :: 0 <= i < |log| ==> log[i].uid != u)
      && (forall v :: v in live && v != u ==> live[v].name != s.name)
  }

  /** handle: a watch event for the change at `pos`. */
  function Handle(b: Bridge, c: Change, before: map<Uid, Shown>): Bridge {
    match c
    case Upsert(u, s) => PublishStatus(b, u, s)
    case Gone(u) => if u in before then PublishDelete(b, u, before[u].name, before[u].owner) else b
  }

  ghost predicate Enabled(w: World, s: Step) {
    match s
    case ClusterChange(c) => Possible(w.log, c)
    case Disconnect => w.connected
    // the list may be served at any resource version; the watch is anchored there
    case Relist(rv, items, order) =>
      !w.connected && rv <= |w.log| && Listing(items) && AsMap(items) == Replay(w.log[..rv]) && ReapOrder(w.bridge.last, items, order)
    case Deliver => w.connected && w.pos < |w.log|
  }

  ghost function Apply(w: World, s: Step): World {
    if !Enabled(w, s) then w
    else match s
      case ClusterChange(c) => w.(log := w.log + [c])
      case Disconnect => w.(connected := false)
      case Relist(rv, items, order) => w.(pos := rv, connected := true, bridge := Sync(w.bridge, items, order))
      case Deliver => w.(pos := w.pos + 1, bridge := Handle(w.bridge, w.log[w.pos], Replay(w.log[..w.pos])))
  }

  ghost function Run(steps: seq<Step>): World {
    if steps == [] then START else Apply(Run(steps[..|steps| - 1]), steps[|steps| - 1])
  }

  ghost predicate LogOk(log: seq<Change>) {
    forall i :: 0 <= i < |log| ==> Possible(log[..i], log[i])
  }

  ghost predicate Inv(w: World) {
    && LogOk(w.log) && w.pos <= |w.log|
    && w.bridge.last == Replay(w.log[..w.pos])
    && Ok(w.bridge)
  }

  lemma {:induction false} ReplayKnown(log: seq<Change>, u: Uid)
    requires u in Replay(log)
    ensures exists i :: 0 <= i < |log| && log[i] == Upsert(u, Replay(log)[u])
  {
    var front, c := log[..|log| - 1], log[|log| - 1];
    if c == Upsert(u, Replay(log)[u]) {
      assert log[|log| - 1] == c;
    } else {
      ReplayKnown(front, u);
      var i :| 0 <= i < |front| && front[i] == Upsert(u, Replay(front)[u]);
      assert log[i] == front[i];
    }
  }

  /** A uid has one name over the whole history, across deletes and recreations of that name. */
  lemma {:induction false} OneNamePerUid(log: seq<Change>, i: nat, j: nat)
    requires LogOk(log) && i < j < |log| && log[i].Upsert? && log[j].Upsert? && log[i].uid == log[j].uid
    ensures log[i].shown.name == log[j].shown.name
    decreases j
  {
    var u := log[j].uid;
    var before := log[..j];
    assert Possible(before, log[j]);
    assert before[i].uid == u;
    assert u in Replay(before);
    ReplayKnown(before, u);
    var k :| 0 <= k < |before| && before[k] == Upsert(u, Replay(before)[u]);
    if k < i {
      OneNamePerUid(log, k, i);
    } else if i < k {
      OneNamePerUid(log, i, k);
    }
  }

  /** The entry that gave a live app its state. */
  lemma KnownAt(log: seq<Change>, m: nat, u: Uid) returns (i: nat)
    requires LogOk(log) && m <= |log| && u in Replay(log[..m])
    ensures i < m && log[i] == Upsert(u, Replay(log[..m])[u])
  {
    ReplayKnown(log[..m], u);
    i :| 0 <= i < m && log[..m][i] == Upsert(u, Replay(log[..m])[u]);
  }

  lemma NamesAgree(log: seq<Change>, m: nat, n: nat, u: Uid)
    requires LogOk(log) && m <= |log| && n <= |log| && u in Replay(log[..m]) && u in Replay(log[..n])
    ensures Replay(log[..m])[u].name == Replay(log[..n])[u].name
  {
    var i := KnownAt(log, m, u);
    var j := KnownAt(log, n, u);
    if i < j {
      OneNamePerUid(log, i, j);
    } else if j < i {
      OneNamePerUid(log, j, i);
    }
  }

  lemma RelistKeeps(w: World, rv: nat, items: seq<App>, order: seq<Uid>)
    requires Inv(w) && Enabled(w, Relist(rv, items, order))
    ensures Inv(Apply(w, Relist(rv, items, order)))
  {
    forall u | u in w.bridge.last && u in AsMap(items) ensures w.bridge.last[u].name == AsMap(items)[u].name {
      NamesAgree(w.log, w.pos, rv, u);
    }
    SyncCatchesUp(w.bridge, items, order);
  }

  lemma DeliverKeeps(w: World)
    requires Inv(w) && Enabled(w, Deliver)
    ensures Inv(Apply(w, Deliver))
  {
    var before, c := w.log[..w.pos], w.log[w.pos];
    assert Possible(before, c);
    var after := w.log[..w.pos + 1];
    assert after[..|after| - 1] == before && after[|after| - 1] == c;
    match c
    case Upsert(u, s) => StatusKeeps(w.bridge, u, s);
    case Gone(u) => DeleteKeeps(w.bridge, u, w.bridge.last[u].owner);
  }

  lemma ApplyKeeps(w: World, s: Step)
    requires Inv(w)
    ensures Inv(Apply(w, s))
  {
    if Enabled(w, s) {
      match s
      case ClusterChange(c) =>
        var log := w.log + [c];
        forall i | 0 <= i < |log| ensures Possible(log[..i], log[i]) {
          assert i < |w.log| ==> log[..i] == w.log[..i] && Possible(w.log[..i], w.log[i]);
          assert i == |w.log| ==> log[..i] == w.log;
        }
        assert log[..w.pos] == w.log[..w.pos];
      case Disconnect =>
      case Relist(rv, items, order) => RelistKeeps(w, rv, items, order);
      case Deliver => DeliverKeeps(w);
    }
  }

  lemma {:induction false} EveryRunIsSafe(steps: seq<Step>)
    ensures Inv(Run(steps))
  {
    if steps == [] {
      assert Names(map[]) == {};
      assert Mirror([]) == map[];
    } else {
      EveryRunIsSafe(steps[..|steps| - 1]);
      ApplyKeeps(Run(steps[..|steps| - 1]), steps[|steps| - 1]);
    }
  }

  /** In every run, at every moment, folding all published events by name gives exactly the phase and
      URL of the apps that were live at the resource version the bridge has consumed, and no app was
      told the same status twice in a row. */
  lemma MirrorFollowsCluster(steps: seq<Step>)
    ensures var w := Run(steps);
            && w.pos <= |w.log|
            && Shows(Mirror(w.bridge.published), Replay(w.log[..w.pos]))
            && w.bridge.last == Replay(w.log[..w.pos])
            && NoRepeats(w.bridge.published)
  {
    EveryRunIsSafe(steps);
  }

  /** The bridge as the source writes it. */
  class Watcher {
    var last: map<Uid, Shown>
    var published: seq<Event>

    ghost function View(): Bridge
      reads this
    {
      Bridge(last, published)
    }

    constructor ()
      ensures View() == Bridge(map[], [])
    {
      last, published := map[], [];
    }

    method Status(uid: Uid, cur: Shown)
      modifies this
      ensures View() == PublishStatus(old(View()), uid, cur)
      ensures last == old(last)[uid := cur]
      ensures published == old(published) + (if uid in old(last) && old(last)[uid] == cur then [] else [StatusChanged(uid, cur)])
    {
      if uid in last {
        var prev := last[uid];
        if prev == cur {
          return;
        }
      }
      last := last[uid := cur];
      published := published + [StatusChanged(uid, cur)];
    }

    /** handle for a Deleted watch event. */
    method Removed(uid: Uid, name: Name, owner: string)
      modifies this
      ensures View() == PublishDelete(old(View()), uid, name, owner)
      ensures last == old(last) - {uid} && published == old(published) + [Deleted(uid, name, owner)]
    {
      last := last - {uid};
      published := published + [Deleted(uid, name, owner)];
    }

    /** sync: the vanished apps in some order, then the listed ones. */
    method SyncList(items: seq<App>) returns (ghost order: seq<Uid>)
      modifies this
      ensures ReapOrder(old(last), items, order)
      ensures View() == Sync(old(View()), items, order)
      ensures Listing(items) ==> published == old(published) + Deletions(old(last), order) + Changes(old(last), items)
    {
      var present := Present(items);
      order := Reap(present);
      PublishListed(items);
      if Listing(items) {
        SyncPublishes(old(View()), items, order);
      }
    }

    method Present(items: seq<App>) returns (present: set<Uid>)
      ensures present == Uids(items)
    {
      present := {};
      for i := 0 to |items|
        invariant present == Uids(items[..i])
      {
        UidsGrow(items, i);
        present := present + {items[i].uid};
      }
      assert items[..|items|] == items;
    }

    /** Drops every remembered app that is not present, in any order. */
    method Reap(present: set<Uid>) returns (ghost order: seq<Uid>)
      modifies this
      ensures forall i, j :: 0 <= i < j < |order| ==> order[i] != order[j]
      ensures forall u :: u in order <==> u in old(last) && u !in present
      ensures View() == ReapAll(old(View()), order)
    {
      order := [];
      var todo := last.Keys;
      while todo != {}
        invariant todo <= last.Keys <= old(last).Keys
        invariant View() == ReapAll(old(View()), order)
        invariant forall i, j :: 0 <= i < j < |order| ==> order[i] != order[j]
        invariant forall u :: u in order ==> u in old(last) && u !in last && u !in present
        invariant forall u :: u in old(last) && u !in last ==> u in order
        invariant forall u :: u in last && u !in todo ==> u in present
        decreases todo
      {
        var uid :| uid in todo;
        todo := todo - {uid};
        if uid !in present {
          var prev := last[uid];
          assert (order + [uid])[..|order|] == order;
          last := last - {uid};
          published := published + [Deleted(uid, prev.name, prev.owner)];
          order := order + [uid];
        }
      }
    }

    method PublishListed(items: seq<App>)
      modifies this
      ensures View() == PublishAll(old(View()), items)
    {
      for i := 0 to |items|
        invariant View() == PublishAll(old(View()), items[..i])
      {
        assert items[..i + 1][..i] == items[..i];
        Status(items[i].uid, items[i].shown);
      }
      assert items[..|items|] == items;
    }
  }

  lemma UidsGrow(items: seq<App>, i: nat)
    requires i < |items|
    ensures Uids(items[..i + 1]) == Uids(items[..i]) + {items[i].uid}
  {
    forall u ensures u in Uids(items[..i + 1]) <==> u in Uids(items[..i]) || u == items[i].uid {
      if u in Uids(items[..i]) {
        var j :| 0 <= j < i && items[..i][j].uid == u;
        assert items[..i + 1][j].uid == u;
      }
      if u in Uids(items[..i + 1]) {
        var j :| 0 <= j < i + 1 && items[..i + 1][j].uid == u;
        assert j < i ==> items[..i][j].uid == u;
      }
      assert items[..i + 1][i] == items[i];
    }
  }
}
