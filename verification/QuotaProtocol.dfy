/** Deploys racing for quota (internal/quota/enforcer.go with internal/deploy/service.go): each one
    counts remotely, reserves under the lock, creates its app, and releases. Counting and reserving
    are separate steps, so anything may happen in between. */
module QuotaProtocol {
  import opened Wrappers
  import opened Quota

  type Pid = nat
  type AppId = nat

  /** Gating: being authorized, or authorized and not yet created. */
  datatype Pc = Gating | Created | Failed

  /** A deploy of a new app: the ceilings it must pass, the ids reserved so far (one per passed
      ceiling), and, between a count and the reserve that uses it, the apps that count listed. */
  datatype Deploy = Deploy(keys: seq<ResKey>, held: seq<nat>, counted: Option<set<AppId>>, pc: Pc)
  {
    predicate Done() { |held| == |keys| }
  }

  /** A live app: the ceilings it counts against and the deploy that created it. */
  datatype App = App(keys: set<ResKey>, creator: Pid)

  /** Who took a reservation id, and for what: the deploy, the key, and its position among the deploy's keys. */
  datatype Ticket = Ticket(p: Pid, key: ResKey, slot: nat)

  /** `owner` records who took each reservation id. */
  datatype World = World(
    ceiling: map<ResKey, nat>, live: map<AppId, App>, nextApp: nat,
    table: Table, nextId: nat, owner: map<nat, Ticket>, deploys: map<Pid, Deploy>)

  datatype Step =
    | Start(p: Pid, keys: seq<ResKey>)
    | Count(p: Pid)
    | CountFails(p: Pid)
    | TryReserve(p: Pid, now: int)
    | Create(p: Pid)
    | CreateFails(p: Pid)
    | Release(p: Pid, i: nat)
    | DeleteApp(a: AppId)

  function KeySet(keys: seq<ResKey>): set<ResKey> { set k | k in keys }

  function LiveApps(w: World, k: ResKey): set<AppId> {
    set a | a in w.live && k in w.live[a].keys
  }

  /** Reservations of deploys that have not created their app yet. */
  function Pending(w: World, k: ResKey): set<nat> {
    set id | id in w.owner && w.owner[id].key == k && w.owner[id].p in w.deploys && w.deploys[w.owner[id].p].pc.Gating?
  }

  function Unexpired(w: World, k: ResKey, now: int): set<nat> {
    Quota.Unexpired(At(w.table, k), now).Keys
  }

  ghost predicate Distinct(keys: seq<ResKey>) {
    forall i, j :: 0 <= i < j < |keys| ==> keys[i] != keys[j]
  }

  predicate Counting(w: World, p: Pid) {
    p in w.deploys && w.deploys[p].pc.Gating? && |w.deploys[p].held| < |w.deploys[p].keys|
  }

  /** The ceiling deploy p is at. */
  function NextKey(w: World, p: Pid): ResKey
    requires Counting(w, p)
  {
    w.deploys[p].keys[|w.deploys[p].held|]
  }

  ghost predicate Enabled(w: World, s: Step) {
    match s
    case Start(p, keys) => p !in w.deploys && Distinct(keys) && forall i :: 0 <= i < |keys| ==> keys[i] in w.ceiling
    case Count(p) => Counting(w, p)
    case CountFails(p) => Counting(w, p)
    case TryReserve(p, _) => Counting(w, p) && w.deploys[p].counted.Some? && NextKey(w, p) in w.ceiling
    case Create(p) => p in w.deploys && w.deploys[p].pc.Gating? && w.deploys[p].Done()
    case CreateFails(p) => p in w.deploys && w.deploys[p].pc.Gating? && w.deploys[p].Done()
    case Release(p, i) => p in w.deploys && !w.deploys[p].pc.Gating? && i < |w.deploys[p].held| <= |w.deploys[p].keys|
    case DeleteApp(a) => a in w.live
  }

  function SetPc(w: World, p: Pid, pc: Pc): World
    requires p in w.deploys
  {
    w.(deploys := w.deploys[p := w.deploys[p].(pc := pc, counted := None)])
  }

  /** The count the gate compares with the ceiling. */
  function Gate(w: World, p: Pid, now: int): nat
    requires Counting(w, p) && w.deploys[p].counted.Some?
  {
    |w.deploys[p].counted.value| + |Unexpired(w, NextKey(w, p), now)|
  }

  /** The table once p's reservation at its current ceiling is recorded. */
  function Granted(w: World, p: Pid, now: int): Table
    requires Counting(w, p)
  {
    var k := NextKey(w, p);
    Insert(Prune(w.table, k, now), k, w.nextId + 1, now + RESERVATION_TTL)
  }

  /** Deploy p passes the ceiling it is at, leaving the reservation table as t. */
  function Passed(w: World, p: Pid, t: Table): World
    requires Counting(w, p)
  {
    var d := w.deploys[p];
    var id := w.nextId + 1;
    w.(table := t, nextId := id, owner := w.owner[id := Ticket(p, NextKey(w, p), |d.held|)],
       deploys := w.deploys[p := d.(held := d.held + [id], counted := None)])
  }

  ghost function Apply(w: World, s: Step): World {
    if !Enabled(w, s) then w
    else match s
      case Start(p, keys) => w.(deploys := w.deploys[p := Deploy(keys, [], None, Gating)])
      case Count(p) => w.(deploys := w.deploys[p := w.deploys[p].(counted := Some(LiveApps(w, NextKey(w, p))))])
      case CountFails(p) => SetPc(w, p, Failed)
      case TryReserve(p, now) =>
        if Gate(w, p, now) >= w.ceiling[NextKey(w, p)]
        then SetPc(w.(table := Prune(w.table, NextKey(w, p), now)), p, Failed)
        else Passed(w, p, Granted(w, p, now))
      case Create(p) =>
        SetPc(w.(live := w.live[w.nextApp := App(KeySet(w.deploys[p].keys), p)], nextApp := w.nextApp + 1), p, Created)
      case CreateFails(p) => SetPc(w, p, Failed)
      case Release(p, i) => w.(table := Drop(w.table, w.deploys[p].keys[i], w.deploys[p].held[i]))
      case DeleteApp(a) => w.(live := w.live - {a})
  }

  function Start0(ceiling: map<ResKey, nat>): World {
    World(ceiling, map[], 0, map[], 0, map[], map[])
  }

  ghost function Run(ceiling: map<ResKey, nat>, steps: seq<Step>): World {
    if steps == [] then Start0(ceiling) else Apply(Run(ceiling, steps[..|steps| - 1]), steps[|steps| - 1])
  }

  // ---- bookkeeping ----

  ghost predicate DeployOk(w: World, p: Pid)
    requires p in w.deploys
  {
    var d := w.deploys[p];
    && |d.held| <= |d.keys| && Distinct(d.keys)
    && (forall i :: 0 <= i < |d.keys| ==> d.keys[i] in w.ceiling)
    && (forall i :: 0 <= i < |d.held| ==> d.held[i] in w.owner && w.owner[d.held[i]] == Ticket(p, d.keys[i], i))
    && (d.counted.Some? ==> Counting(w, p))
    && (d.pc.Created? ==> d.Done())
  }

  /** Every reservation id is held by its owner, for the key it was taken for. */
  ghost predicate HeldBy(w: World, id: nat)
    requires id in w.owner
  {
    var c := w.owner[id];
    && c.p in w.deploys && c.slot < |w.deploys[c.p].held| <= |w.deploys[c.p].keys|
    && w.deploys[c.p].held[c.slot] == id && w.deploys[c.p].keys[c.slot] == c.key
  }

  ghost predicate AppOk(w: World, a: AppId)
    requires a in w.live
  {
    && a < w.nextApp && w.live[a].creator in w.deploys && w.deploys[w.live[a].creator].pc.Created?
    && w.live[a].keys == KeySet(w.deploys[w.live[a].creator].keys)
  }

  ghost predicate Books(w: World) {
    && (forall p :: p in w.deploys ==> DeployOk(w, p))
    && (forall id :: id in w.owner ==> id <= w.nextId && HeldBy(w, id))
    && (forall a :: a in w.live ==> AppOk(w, a))
    && (forall a, b :: a in w.live && b in w.live && a != b ==> w.live[a].creator != w.live[b].creator)
  }

  /** Live apps plus reserved-but-uncreated deploys. */
  function Load(w: World, k: ResKey): nat { |LiveApps(w, k)| + |Pending(w, k)| }

  ghost predicate WithinCeiling(w: World) {
    forall k :: k in w.ceiling ==> Load(w, k) <= w.ceiling[k]
  }

  lemma DeployMoves(w: World, p: Pid, d: Deploy)
    requires Books(w) && p in w.deploys && d.keys == w.deploys[p].keys && d.held == w.deploys[p].held
    requires d.pc.Created? ==> w.deploys[p].pc.Created?
    requires w.deploys[p].pc.Created? ==> d.pc.Created?
    requires d.counted.Some? ==> d.pc.Gating? && |d.held| < |d.keys|
    ensures Books(w.(deploys := w.deploys[p := d]))
  {
    var w' := w.(deploys := w.deploys[p := d]);
    forall q | q in w'.deploys ensures DeployOk(w', q) {
      assert DeployOk(w, q);
    }
    forall id | id in w'.owner ensures HeldBy(w', id) {
      assert HeldBy(w, id);
    }
    forall a | a in w'.live ensures AppOk(w', a) {
      assert AppOk(w, a);
    }
  }

  lemma CreateKeepsBooks(w: World, p: Pid)
    requires Books(w) && Enabled(w, Create(p))
    ensures Books(Apply(w, Create(p)))
  {
    var w' := Apply(w, Create(p));
    assert DeployOk(w, p);
    forall q | q in w'.deploys ensures DeployOk(w', q) {
      assert DeployOk(w, q);
    }
    forall id | id in w'.owner ensures HeldBy(w', id) {
      assert HeldBy(w, id);
    }
    forall a | a in w'.live ensures AppOk(w', a) {
      if a != w.nextApp {
        assert AppOk(w, a);
      }
    }
    forall a, b | a in w'.live && b in w'.live && a != b ensures w'.live[a].creator != w'.live[b].creator {
      if a in w.live {
        assert AppOk(w, a);
      }
      if b in w.live {
        assert AppOk(w, b);
      }
    }
  }

  lemma PassedKeepsDeploy(w: World, p: Pid, t: Table, q: Pid)
    requires Books(w) && Counting(w, p) && q in w.deploys
    ensures DeployOk(Passed(w, p, t), q)
  {
    assert DeployOk(w, q);
    if q == p {
      var d, id := w.deploys[p], w.nextId + 1;
      var d' := d.(held := d.held + [id], counted := None);
      var owner := w.owner[id := Ticket(p, NextKey(w, p), |d.held|)];
      forall i | 0 <= i < |d'.held| ensures d'.held[i] in owner && owner[d'.held[i]] == Ticket(p, d.keys[i], i) {
        if i < |d.held| {
          assert d.held[i] in w.owner;
        }
      }
    }
  }

  lemma PassedKeepsBooks(w: World, p: Pid, t: Table)
    requires Books(w) && Counting(w, p)
    ensures Books(Passed(w, p, t))
  {
    var w' := Passed(w, p, t);
    forall q | q in w'.deploys ensures DeployOk(w', q) {
      PassedKeepsDeploy(w, p, t, q);
    }
    forall j | j in w'.owner ensures HeldBy(w', j) {
      if j in w.owner {
        assert HeldBy(w, j);
      }
    }
    forall a | a in w'.live ensures AppOk(w', a) {
      assert AppOk(w, a);
    }
  }

  lemma TableIsIrrelevant(w: World, t: Table)
    requires Books(w)
    ensures Books(w.(table := t))
  {
    var w' := w.(table := t);
    forall q | q in w'.deploys ensures DeployOk(w', q) {
      assert DeployOk(w, q);
    }
    forall id | id in w'.owner ensures HeldBy(w', id) {
      assert HeldBy(w, id);
    }
    forall a | a in w'.live ensures AppOk(w', a) {
      assert AppOk(w, a);
    }
  }

  lemma RefusedKeepsBooks(w: World, p: Pid, t: Table)
    requires Books(w) && p in w.deploys && w.deploys[p].pc.Gating?
    ensures Books(SetPc(w.(table := t), p, Failed))
  {
    TableIsIrrelevant(w, t);
    DeployMoves(w.(table := t), p, w.deploys[p].(pc := Failed, counted := None));
  }

  lemma StartKeepsBooks(w: World, p: Pid, keys: seq<ResKey>)
    requires Books(w) && Enabled(w, Start(p, keys))
    ensures Books(Apply(w, Start(p, keys)))
  {
    var w' := Apply(w, Start(p, keys));
    forall q | q in w'.deploys ensures DeployOk(w', q) {
      if q != p {
        assert DeployOk(w, q);
      }
    }
    forall id | id in w'.owner ensures HeldBy(w', id) {
      assert HeldBy(w, id);
    }
    forall a | a in w'.live ensures AppOk(w', a) {
      assert AppOk(w, a);
    }
  }

  lemma DeleteKeepsBooks(w: World, a: AppId)
    requires Books(w)
    ensures Books(w.(live := w.live - {a}))
  {
    var w' := w.(live := w.live - {a});
    forall q | q in w'.deploys ensures DeployOk(w', q) {
      assert DeployOk(w, q);
    }
    forall id | id in w'.owner ensures HeldBy(w', id) {
      assert HeldBy(w, id);
    }
    forall b | b in w'.live ensures AppOk(w', b) {
      assert AppOk(w, b);
    }
  }

  lemma TryReserveKeepsBooks(w: World, p: Pid, now: int)
    requires Books(w) && Enabled(w, TryReserve(p, now))
    ensures Books(Apply(w, TryReserve(p, now)))
  {
    RefusedKeepsBooks(w, p, Prune(w.table, NextKey(w, p), now));
    PassedKeepsBooks(w, p, Granted(w, p, now));
  }

  lemma ApplyKeepsBooks(w: World, s: Step)
    requires Books(w)
    ensures Books(Apply(w, s))
  {
    if Enabled(w, s) {
      match s
      case Start(p, keys) => StartKeepsBooks(w, p, keys);
      case Count(p) => DeployMoves(w, p, w.deploys[p].(counted := Some(LiveApps(w, NextKey(w, p)))));
      case CountFails(p) => DeployMoves(w, p, w.deploys[p].(pc := Failed, counted := None));
      case TryReserve(p, now) => TryReserveKeepsBooks(w, p, now);
      case Create(p) => CreateKeepsBooks(w, p);
      case CreateFails(p) => DeployMoves(w, p, w.deploys[p].(pc := Failed, counted := None));
      case Release(p, i) => TableIsIrrelevant(w, Drop(w.table, w.deploys[p].keys[i], w.deploys[p].held[i]));
      case DeleteApp(a) => DeleteKeepsBooks(w, a);
    }
  }

  lemma CeilingIsFixed(w: World, s: Step)
    ensures Apply(w, s).ceiling == w.ceiling
  {
  }

  lemma {:induction false} EveryRunKeepsBooks(ceiling: map<ResKey, nat>, steps: seq<Step>)
    ensures Books(Run(ceiling, steps)) && Run(ceiling, steps).ceiling == ceiling
  {
    if steps != [] {
      EveryRunKeepsBooks(ceiling, steps[..|steps| - 1]);
      ApplyKeepsBooks(Run(ceiling, steps[..|steps| - 1]), steps[|steps| - 1]);
      CeilingIsFixed(Run(ceiling, steps[..|steps| - 1]), steps[|steps| - 1]);
    }
  }

  // ---- what the table holds ----

  /** Every table entry is owned, for its key; no inner map is empty. */
  ghost predicate TableOk(t: Table, owner: map<nat, Ticket>) {
    NoEmptyInner(t) && forall k, id :: InTable(t, k, id) ==> id in owner && owner[id].key == k
  }

  lemma GrantedKeepsTable(t: Table, owner: map<nat, Ticket>, k: ResKey, id: nat, ticket: Ticket, now: int)
    requires TableOk(t, owner) && id !in owner && ticket.key == k
    ensures TableOk(Prune(t, k, now), owner)
    ensures TableOk(Insert(Prune(t, k, now), k, id, now + RESERVATION_TTL), owner[id := ticket])
  {
    PruneShrinks(t, k, now);
    InsertAdds(Prune(t, k, now), k, id, now + RESERVATION_TTL);
  }

  lemma DroppedKeepsTable(t: Table, owner: map<nat, Ticket>, k: ResKey, id: nat)
    requires TableOk(t, owner)
    ensures TableOk(Drop(t, k, id), owner)
  {
    DropRemoves(t, k, id);
  }

  lemma NextIdIsNew(w: World)
    requires Books(w)
    ensures w.nextId + 1 !in w.owner
  {
  }

  lemma PassedKeepsTable(w: World, p: Pid, now: int)
    requires Counting(w, p) && TableOk(w.table, w.owner) && w.nextId + 1 !in w.owner
    ensures TableOk(Prune(w.table, NextKey(w, p), now), w.owner)
    ensures TableOk(Passed(w, p, Granted(w, p, now)).table, Passed(w, p, Granted(w, p, now)).owner)
  {
    var k := NextKey(w, p);
    GrantedKeepsTable(w.table, w.owner, k, w.nextId + 1, Ticket(p, k, |w.deploys[p].held|), now);
  }

  /** A reserve prunes the key, and records the reservation if there is room. */
  lemma TryReserveCases(w: World, p: Pid, now: int)
    requires Enabled(w, TryReserve(p, now))
    ensures var v := Apply(w, TryReserve(p, now));
            v == SetPc(w.(table := Prune(w.table, NextKey(w, p), now)), p, Failed) || v == Passed(w, p, Granted(w, p, now))
  {
    if Gate(w, p, now) >= w.ceiling[NextKey(w, p)] {
      assert Apply(w, TryReserve(p, now)) == SetPc(w.(table := Prune(w.table, NextKey(w, p), now)), p, Failed);
    } else {
      assert Apply(w, TryReserve(p, now)) == Passed(w, p, Granted(w, p, now));
    }
  }

  lemma TryReserveKeepsTable(w: World, p: Pid, now: int, v: World)
    requires Counting(w, p) && TableOk(w.table, w.owner) && w.nextId + 1 !in w.owner
    requires v == SetPc(w.(table := Prune(w.table, NextKey(w, p), now)), p, Failed) || v == Passed(w, p, Granted(w, p, now))
    ensures TableOk(v.table, v.owner)
  {
    PassedKeepsTable(w, p, now);
    if v != Passed(w, p, Granted(w, p, now)) {
      assert v.table == Prune(w.table, NextKey(w, p), now) && v.owner == w.owner;
    }
  }

  lemma ApplyKeepsTable(w: World, s: Step)
    requires w.nextId + 1 !in w.owner && TableOk(w.table, w.owner)
    ensures TableOk(Apply(w, s).table, Apply(w, s).owner)
  {
    if Enabled(w, s) {
      if s.TryReserve? {
        TryReserveCases(w, s.p, s.now);
        TryReserveKeepsTable(w, s.p, s.now, Apply(w, s));
      } else if s.Release? {
        DroppedKeepsTable(w.table, w.owner, w.deploys[s.p].keys[s.i], w.deploys[s.p].held[s.i]);
      }
    }
  }

  /** In every interleaving, with callers gating, failing and releasing in any order: each reservation in the table
      belongs to the deploy that took it, for the key it was taken for, and no empty inner map remains. */
  lemma {:induction false} EveryRunKeepsTable(ceiling: map<ResKey, nat>, steps: seq<Step>)
    ensures var w := Run(ceiling, steps); TableOk(w.table, w.owner)
  {
    if steps != [] {
      EveryRunKeepsTable(ceiling, steps[..|steps| - 1]);
      EveryRunKeepsBooks(ceiling, steps[..|steps| - 1]);
      NextIdIsNew(Run(ceiling, steps[..|steps| - 1]));
      ApplyKeepsTable(Run(ceiling, steps[..|steps| - 1]), steps[|steps| - 1]);
    }
  }

  /** Reservation id of key k was taken, and is not in the table any more. */
  predicate Freed(w: World, k: ResKey, id: nat) { id <= w.nextId && !InTable(w.table, k, id) }

  lemma TryReserveKeepsFreed(w: World, p: Pid, now: int, v: World, k: ResKey, id: nat)
    requires Counting(w, p) && Freed(w, k, id)
    requires v == SetPc(w.(table := Prune(w.table, NextKey(w, p), now)), p, Failed) || v == Passed(w, p, Granted(w, p, now))
    ensures Freed(v, k, id)
  {
    var j := NextKey(w, p);
    PruneShrinks(w.table, j, now);
    InsertAdds(Prune(w.table, j, now), j, w.nextId + 1, now + RESERVATION_TTL);
    if v != Passed(w, p, Granted(w, p, now)) {
      assert v.table == Prune(w.table, j, now) && v.nextId == w.nextId;
    }
  }

  lemma ApplyKeepsFreed(w: World, s: Step, k: ResKey, id: nat)
    requires Freed(w, k, id)
    ensures Freed(Apply(w, s), k, id)
  {
    if Enabled(w, s) {
      if s.TryReserve? {
        TryReserveCases(w, s.p, s.now);
        TryReserveKeepsFreed(w, s.p, s.now, Apply(w, s), k, id);
      } else if s.Release? {
        DropRemoves(w.table, w.deploys[s.p].keys[s.i], w.deploys[s.p].held[s.i]);
      }
    }
  }

  /** A released (or expired and pruned) reservation never comes back. */
  lemma {:induction false} FreedForGood(ceiling: map<ResKey, nat>, before: seq<Step>, after: seq<Step>, k: ResKey, id: nat)
    requires Freed(Run(ceiling, before), k, id)
    ensures Freed(Run(ceiling, before + after), k, id)
    decreases |after|
  {
    if after == [] {
      assert before + after == before;
    } else {
      var front := after[..|after| - 1];
      FreedForGood(ceiling, before, front, k, id);
      assert before + after == (before + front) + [after[|after| - 1]];
      RunMore(ceiling, before + front, after[|after| - 1]);
      ApplyKeepsFreed(Run(ceiling, before + front), after[|after| - 1], k, id);
    }
  }

  /** A release frees its reservation. */
  lemma ReleaseFrees(w: World, p: Pid, i: nat)
    requires Books(w) && Enabled(w, Release(p, i))
    ensures Freed(Apply(w, Release(p, i)), w.deploys[p].keys[i], w.deploys[p].held[i])
  {
    assert DeployOk(w, p);
    DropRemoves(w.table, w.deploys[p].keys[i], w.deploys[p].held[i]);
  }

  lemma ApplyKeepsHeld(w: World, s: Step, p: Pid)
    requires p in w.deploys && !w.deploys[p].pc.Gating?
    ensures var v := Apply(w, s);
            p in v.deploys && !v.deploys[p].pc.Gating? && v.deploys[p].held == w.deploys[p].held && v.deploys[p].keys == w.deploys[p].keys
  {
  }

  /** A deploy past its gate takes no further reservation. */
  lemma {:induction false} HeldIsFixed(ceiling: map<ResKey, nat>, before: seq<Step>, after: seq<Step>, p: Pid)
    requires p in Run(ceiling, before).deploys && !Run(ceiling, before).deploys[p].pc.Gating?
    ensures var w, v := Run(ceiling, before), Run(ceiling, before + after);
            p in v.deploys && !v.deploys[p].pc.Gating? && v.deploys[p].held == w.deploys[p].held && v.deploys[p].keys == w.deploys[p].keys
    decreases |after|
  {
    if after == [] {
      assert before + after == before;
    } else {
      var front := after[..|after| - 1];
      HeldIsFixed(ceiling, before, front, p);
      assert before + after == (before + front) + [after[|after| - 1]];
      RunMore(ceiling, before + front, after[|after| - 1]);
      ApplyKeepsHeld(Run(ceiling, before + front), after[|after| - 1], p);
    }
  }

  /** Each reservation deploy p took is out of the table. */
  ghost predicate AllFreed(w: World, p: Pid) {
    && p in w.deploys && |w.deploys[p].held| <= |w.deploys[p].keys|
    && forall i :: 0 <= i < |w.deploys[p].held| ==> Freed(w, w.deploys[p].keys[i], w.deploys[p].held[i])
  }

  /** Deploy p has no reservation in the table. */
  ghost predicate HoldsNothing(w: World, p: Pid) {
    forall k, id :: InTable(w.table, k, id) && id in w.owner ==> w.owner[id].p != p
  }

  lemma AllFreedHoldsNothing(w: World, p: Pid)
    requires Books(w) && TableOk(w.table, w.owner) && AllFreed(w, p)
    ensures HoldsNothing(w, p)
  {
    forall id | id in w.owner && w.owner[id].p == p ensures !InTable(w.table, w.owner[id].key, id) {
      assert HeldBy(w, id);
    }
  }

  /** A deploy that has failed or created its app, once each of its releases has run, holds nothing, and never again,
      whatever the other callers do. */
  lemma ReleasedHoldsNothing(ceiling: map<ResKey, nat>, before: seq<Step>, after: seq<Step>, p: Pid)
    requires AllFreed(Run(ceiling, before), p) && !Run(ceiling, before).deploys[p].pc.Gating?
    ensures HoldsNothing(Run(ceiling, before + after), p)
  {
    EveryRunKeepsBooks(ceiling, before + after);
    EveryRunKeepsTable(ceiling, before + after);
    HeldIsFixed(ceiling, before, after, p);
    var w, v := Run(ceiling, before), Run(ceiling, before + after);
    forall i | 0 <= i < |v.deploys[p].held| ensures Freed(v, v.deploys[p].keys[i], v.deploys[p].held[i]) {
      FreedForGood(ceiling, before, after, w.deploys[p].keys[i], w.deploys[p].held[i]);
    }
    AllFreedHoldsNothing(v, p);
  }

  // ---- the gate ----

  lemma SubsetCard<T>(a: set<T>, b: set<T>)
    requires a <= b
    ensures |a| <= |b|
  {
    assert b == a + (b - a);
  }

  lemma CardPlusOne<T>(a: set<T>, b: set<T>, x: T)
    requires x !in a && x in b && forall y :: y != x ==> (y in a <==> y in b)
    ensures |b| == |a| + 1
  {
    assert b == a + {x};
  }

  lemma CardSame<T>(a: set<T>, b: set<T>)
    requires forall y :: y in a <==> y in b
    ensures |a| == |b|
  {
    assert a == b;
  }

  /** |a| - |b| in terms of the two differences. */
  lemma CardDifference<T>(a: set<T>, b: set<T>)
    ensures |a| - |b| == |a - b| - |b - a|
  {
    assert a == (a - b) + (a * b);
    assert b == (b - a) + (a * b);
  }

  /** Apps that appeared since p's count, plus reservations that expired before their create, are
      matched by apps that vanished since the count and reservations still held past their create. */
  ghost predicate GateSound(w: World, p: Pid, now: int)
    requires Counting(w, p) && w.deploys[p].counted.Some?
  {
    var k := NextKey(w, p);
    var listed := w.deploys[p].counted.value;
    |LiveApps(w, k) - listed| + |Pending(w, k) - Unexpired(w, k, now)| <= |listed - LiveApps(w, k)| + |Unexpired(w, k, now) - Pending(w, k)|
  }

  /** A gate reading `seen` may let one more deploy past a ceiling that the load respects. */
  predicate Safe(load: nat, seen: nat, max: nat) {
    load <= max && seen < max ==> load + 1 <= max
  }

  /** Exactly when the gate is safe: it may admit one more deploy under every ceiling that the load
      respects so far if and only if GateSound holds. */
  lemma GateExact(w: World, p: Pid, now: int)
    requires Counting(w, p) && w.deploys[p].counted.Some?
    ensures GateSound(w, p, now) <==>
            forall max: nat :: Safe(Load(w, NextKey(w, p)), Gate(w, p, now), max)
  {
    var k := NextKey(w, p);
    CardDifference(LiveApps(w, k), w.deploys[p].counted.value);
    CardDifference(Pending(w, k), Unexpired(w, k, now));
    assert GateSound(w, p, now) <==> Load(w, k) <= Gate(w, p, now);
    if Load(w, k) > Gate(w, p, now) {
      assert !Safe(Load(w, k), Gate(w, p, now), Load(w, k));
    }
  }

  /** Each app that p's count missed still has its creator's reservation for the key in the table. */
  ghost predicate HandoffsCovered(w: World, p: Pid, now: int)
    requires Counting(w, p) && w.deploys[p].counted.Some?
  {
    var k := NextKey(w, p);
    forall id :: id in w.owner && w.owner[id].key == k && CreatedSince(w, p, w.owner[id].p) ==> id in Unexpired(w, k, now)
  }

  /** Deploy q created a still-live app that p's count did not list. */
  ghost predicate CreatedSince(w: World, p: Pid, q: Pid)
    requires Counting(w, p) && w.deploys[p].counted.Some?
  {
    exists a :: a in LiveApps(w, NextKey(w, p)) - w.deploys[p].counted.value && w.live[a].creator == q
  }

  /** No deploy's reservation expires before it creates its app. */
  ghost predicate NoEarlyExpiry(w: World, p: Pid, now: int)
    requires Counting(w, p)
  {
    Pending(w, NextKey(w, p)) <= Unexpired(w, NextKey(w, p), now)
  }

  lemma {:induction false} InjectionCard<A, B>(f: map<A, B>, bs: set<B>)
    requires forall a :: a in f ==> f[a] in bs
    requires forall a, b :: a in f && b in f && a != b ==> f[a] != f[b]
    ensures |f| <= |bs|
    decreases f.Keys
  {
    if f.Keys != {} {
      var a :| a in f;
      var g := f - {a};
      assert g.Keys == f.Keys - {a};
      assert |g| == |f| - 1;
      InjectionCard(g, bs - {f[a]});
    }
  }

  /** The reservation under which app a was created, for key k. */
  lemma Handoff(w: World, k: ResKey, a: AppId) returns (id: nat)
    requires Books(w) && a in LiveApps(w, k)
    ensures id in w.owner && w.owner[id].key == k && w.owner[id].p == w.live[a].creator
  {
    assert AppOk(w, a);
    var d := w.deploys[w.live[a].creator];
    assert k in d.keys;
    var i :| 0 <= i < |d.keys| && d.keys[i] == k;
    assert DeployOk(w, w.live[a].creator);
    id := d.held[i];
  }

  lemma GainedAreMatched(w: World, p: Pid, now: int)
    requires Books(w) && Counting(w, p) && w.deploys[p].counted.Some? && HandoffsCovered(w, p, now)
    ensures var k := NextKey(w, p);
            forall a :: a in LiveApps(w, k) - w.deploys[p].counted.value ==>
              exists id :: id in Unexpired(w, k, now) - Pending(w, k) && id in w.owner && w.owner[id].p == w.live[a].creator
  {
    var k := NextKey(w, p);
    var passed := Unexpired(w, k, now) - Pending(w, k);
    forall a | a in LiveApps(w, k) - w.deploys[p].counted.value
      ensures exists id :: id in passed && id in w.owner && w.owner[id].p == w.live[a].creator
    {
      var id := Handoff(w, k, a);
      assert CreatedSince(w, p, w.owner[id].p);
      assert AppOk(w, a);
      assert id in passed;
    }
  }

  /** When no handoff is lost and nothing expires early, the gate is sound. */
  lemma CoveredGateIsSound(w: World, p: Pid, now: int)
    requires Books(w) && Counting(w, p) && w.deploys[p].counted.Some?
    requires HandoffsCovered(w, p, now) && NoEarlyExpiry(w, p, now)
    ensures GateSound(w, p, now)
  {
    var k := NextKey(w, p);
    var gained := LiveApps(w, k) - w.deploys[p].counted.value;
    var passed := Unexpired(w, k, now) - Pending(w, k);
    GainedAreMatched(w, p, now);
    MatchedCard(w, gained, passed);
    assert Pending(w, k) - Unexpired(w, k, now) == {};
  }

  /** Apps with distinct creators, each matched by one of its creator's reservations. */
  lemma MatchedCard(w: World, apps: set<AppId>, ids: set<nat>)
    requires forall a :: a in apps ==> a in w.live && exists id :: id in ids && id in w.owner && w.owner[id].p == w.live[a].creator
    requires forall a, b :: a in w.live && b in w.live && a != b ==> w.live[a].creator != w.live[b].creator
    ensures |apps| <= |ids|
  {
    var f := map a | a in apps :: Witness(w, ids, a);
    forall a, b | a in f && b in f && a != b ensures f[a] != f[b] {
      assert w.owner[f[a]].p == w.live[a].creator && w.owner[f[b]].p == w.live[b].creator;
    }
    InjectionCard(f, ids);
    assert f.Keys == apps;
  }

  ghost function Witness(w: World, ids: set<nat>, a: AppId): (id: nat)
    requires a in w.live && exists id :: id in ids && id in w.owner && w.owner[id].p == w.live[a].creator
    ensures id in ids && id in w.owner && w.owner[id].p == w.live[a].creator
  {
    var id :| id in ids && id in w.owner && w.owner[id].p == w.live[a].creator;
    id
  }

  // ---- the ceiling over whole runs ----

  lemma LoadShrinks(w: World, w': World)
    requires w'.ceiling == w.ceiling && WithinCeiling(w)
    requires forall k :: k in w.ceiling ==> LiveApps(w', k) <= LiveApps(w, k) && Pending(w', k) <= Pending(w, k)
    ensures WithinCeiling(w')
  {
    forall k | k in w'.ceiling ensures Load(w', k) <= w'.ceiling[k] {
      SubsetCard(LiveApps(w', k), LiveApps(w, k));
      SubsetCard(Pending(w', k), Pending(w, k));
    }
  }

  /** Creating hands the deploy over from the reservations to the live apps. */
  lemma CreateConserves(w: World, p: Pid, k: ResKey)
    requires Books(w) && Enabled(w, Create(p))
    ensures Load(Apply(w, Create(p)), k) == Load(w, k)
  {
    var w' := Apply(w, Create(p));
    assert DeployOk(w, p);
    CreatedPending(w, w', p, k);
    assert forall a :: a in w.live ==> AppOk(w, a);
    CreatedLive(w, w', p, k);
  }

  lemma CreatedLive(w: World, w': World, p: Pid, k: ResKey)
    requires p in w.deploys && w.nextApp !in w.live
    requires w'.live == w.live[w.nextApp := App(KeySet(w.deploys[p].keys), p)]
    ensures |LiveApps(w', k)| == |LiveApps(w, k)| + (if k in w.deploys[p].keys then 1 else 0)
  {
    if k in w.deploys[p].keys {
      CardPlusOne(LiveApps(w, k), LiveApps(w', k), w.nextApp);
    } else {
      CardSame(LiveApps(w, k), LiveApps(w', k));
    }
  }

  lemma CreatedPending(w: World, w': World, p: Pid, k: ResKey)
    requires p in w.deploys && DeployOk(w, p) && w.deploys[p].pc.Gating? && w.deploys[p].Done()
    requires forall j :: j in w.owner ==> HeldBy(w, j)
    requires w'.owner == w.owner && w'.deploys == w.deploys[p := w.deploys[p].(pc := Created, counted := None)]
    ensures |Pending(w, k)| == |Pending(w', k)| + (if k in w.deploys[p].keys then 1 else 0)
  {
    var d := w.deploys[p];
    forall j ensures j in Pending(w', k) <==> j in Pending(w, k) && w.owner[j].p != p {
    }
    if k in d.keys {
      var i :| 0 <= i < |d.keys| && d.keys[i] == k;
      var id := d.held[i];
      assert id in Pending(w, k) && w.owner[id].p == p;
      forall j | j in Pending(w, k) && w.owner[j].p == p ensures j == id {
        assert HeldBy(w, j);
        assert d.keys[w.owner[j].slot] == d.keys[i];
      }
      CardPlusOne(Pending(w', k), Pending(w, k), id);
    } else {
      forall j | j in Pending(w, k) ensures w.owner[j].p != p {
        assert HeldBy(w, j);
      }
      CardSame(Pending(w', k), Pending(w, k));
    }
  }

  lemma PassedAddsOne(w: World, p: Pid, t: Table, k: ResKey)
    requires Counting(w, p) && forall j :: j in w.owner ==> j <= w.nextId
    ensures Load(Passed(w, p, t), k) == Load(w, k) + (if k == NextKey(w, p) then 1 else 0)
  {
    var w' := Passed(w, p, t);
    var id := w.nextId + 1;
    CardSame(LiveApps(w, k), LiveApps(w', k));
    assert id !in Pending(w, k);
    forall j | j != id ensures j in Pending(w', k) <==> j in Pending(w, k) {
    }
    if k == NextKey(w, p) {
      CardPlusOne(Pending(w, k), Pending(w', k), id);
    } else {
      CardSame(Pending(w, k), Pending(w', k));
    }
  }

  ghost predicate SoundStep(w: World, s: Step) {
    s.TryReserve? && Enabled(w, s) ==> GateSound(w, s.p, s.now)
  }

  lemma PassedKeepsCeiling(w: World, p: Pid, t: Table)
    requires WithinCeiling(w) && Counting(w, p) && forall j :: j in w.owner ==> j <= w.nextId
    requires NextKey(w, p) in w.ceiling ==> Load(w, NextKey(w, p)) + 1 <= w.ceiling[NextKey(w, p)]
    ensures WithinCeiling(Passed(w, p, t))
  {
    forall j | j in w.ceiling ensures Load(Passed(w, p, t), j) <= w.ceiling[j] {
      PassedAddsOne(w, p, t, j);
    }
  }

  lemma TryReserveKeepsCeiling(w: World, p: Pid, now: int)
    requires Books(w) && WithinCeiling(w) && Enabled(w, TryReserve(p, now)) && GateSound(w, p, now)
    ensures WithinCeiling(Apply(w, TryReserve(p, now)))
  {
    var k := NextKey(w, p);
    GateExact(w, p, now);
    assert Safe(Load(w, k), Gate(w, p, now), w.ceiling[k]);
    if Gate(w, p, now) >= w.ceiling[k] {
      FailShrinks(w, SetPc(w.(table := Prune(w.table, k, now)), p, Failed), p);
    } else {
      PassedKeepsCeiling(w, p, Granted(w, p, now));
    }
  }

  /** A deploy that gives up only takes load away. */
  lemma FailShrinks(w: World, w': World, p: Pid)
    requires WithinCeiling(w) && p in w.deploys && w'.ceiling == w.ceiling && w'.live == w.live && w'.owner == w.owner
    requires w'.deploys == w.deploys[p := w.deploys[p].(pc := Failed, counted := None)]
    ensures WithinCeiling(w')
  {
    LoadShrinks(w, w');
  }

  lemma StartShrinks(w: World, p: Pid, keys: seq<ResKey>)
    requires Books(w) && WithinCeiling(w) && Enabled(w, Start(p, keys))
    ensures WithinCeiling(Apply(w, Start(p, keys)))
  {
    var w' := Apply(w, Start(p, keys));
    forall k | k in w.ceiling ensures Pending(w', k) <= Pending(w, k) {
      forall j | j in Pending(w', k) ensures j in Pending(w, k) {
        assert HeldBy(w, j);
      }
    }
    LoadShrinks(w, w');
  }

  lemma ApplyKeepsCeiling(w: World, s: Step)
    requires Books(w) && WithinCeiling(w) && SoundStep(w, s)
    ensures WithinCeiling(Apply(w, s))
  {
    var w' := Apply(w, s);
    if Enabled(w, s) {
      match s
      case TryReserve(p, now) => TryReserveKeepsCeiling(w, p, now);
      case Create(p) =>
        forall k | k in w'.ceiling ensures Load(w', k) <= w'.ceiling[k] {
          CreateConserves(w, p, k);
        }
      case Start(p, keys) => StartShrinks(w, p, keys);
      case CountFails(p) => FailShrinks(w, w', p);
      case CreateFails(p) => FailShrinks(w, w', p);
      case Count(p) => LoadShrinks(w, w');
      case Release(p, i) => LoadShrinks(w, w');
      case DeleteApp(a) => LoadShrinks(w, w');
    }
  }

  /** In every run whose reserves pass a sound gate, no ceiling is ever exceeded. */
  lemma {:induction false} CeilingHolds(ceiling: map<ResKey, nat>, steps: seq<Step>)
    requires forall i :: 0 <= i < |steps| ==> SoundStep(Run(ceiling, steps[..i]), steps[i])
    ensures WithinCeiling(Run(ceiling, steps))
  {
    if steps == [] {
      forall k | k in ceiling ensures Load(Start0(ceiling), k) == 0 {
        assert LiveApps(Start0(ceiling), k) == {} && Pending(Start0(ceiling), k) == {};
      }
    } else {
      var n := |steps| - 1;
      var front := steps[..n];
      forall i | 0 <= i < |front| ensures SoundStep(Run(ceiling, front[..i]), front[i]) {
        assert front[..i] == steps[..i];
        assert SoundStep(Run(ceiling, steps[..i]), steps[i]);
      }
      CeilingHolds(ceiling, front);
      EveryRunKeepsBooks(ceiling, front);
      assert SoundStep(Run(ceiling, steps[..n]), steps[n]);
      ApplyKeepsCeiling(Run(ceiling, front), steps[n]);
    }
  }

  /** The hypothesis in the operator's terms: at every reserve, no app created since that deploy's
      count has lost its reservation already, and no reservation expired before its create. */
  ghost predicate CoveredStep(w: World, s: Step) {
    s.TryReserve? && Enabled(w, s) ==> HandoffsCovered(w, s.p, s.now) && NoEarlyExpiry(w, s.p, s.now)
  }

  lemma CeilingHoldsWhenCovered(ceiling: map<ResKey, nat>, steps: seq<Step>)
    requires forall i :: 0 <= i < |steps| ==> CoveredStep(Run(ceiling, steps[..i]), steps[i])
    ensures WithinCeiling(Run(ceiling, steps))
  {
    forall i | 0 <= i < |steps| ensures SoundStep(Run(ceiling, steps[..i]), steps[i]) {
      assert CoveredStep(Run(ceiling, steps[..i]), steps[i]);
      EveryRunKeepsBooks(ceiling, steps[..i]);
      if steps[i].TryReserve? && Enabled(Run(ceiling, steps[..i]), steps[i]) {
        CoveredGateIsSound(Run(ceiling, steps[..i]), steps[i].p, steps[i].now);
      }
    }
    CeilingHolds(ceiling, steps);
  }

  // ---- without the hypotheses the ceiling can be passed ----

  lemma RunMore(ceiling: map<ResKey, nat>, steps: seq<Step>, s: Step)
    ensures Run(ceiling, steps + [s]) == Apply(Run(ceiling, steps), s)
  {
    assert (steps + [s])[..|steps|] == steps;
  }

  const SCOPE := ResKey("apps", "owner", "ann")

  const NEW := Deploy([SCOPE], [], None, Gating)
  const LISTED := Deploy([SCOPE], [], Some({}), Gating)

  /** One ceiling of one app for SCOPE, and the given deploys; nothing live, nothing reserved. */
  function Fresh(deploys: map<Pid, Deploy>): World {
    World(map[SCOPE := 1], map[], 0, map[], 0, map[], deploys)
  }

  /** The state in which deploy 0 has counted nothing and deploy 1 has reserved at time 0. */
  function Contended(): World {
    World(map[SCOPE := 1], map[], 0, map[SCOPE := map[1 := RESERVATION_TTL]], 1, map[1 := Ticket(1, SCOPE, 0)],
          map[0 := LISTED, 1 := Deploy([SCOPE], [1], None, Gating)])
  }

  lemma StartCount(deploys: map<Pid, Deploy>, p: Pid)
    requires p !in deploys
    ensures Apply(Apply(Fresh(deploys), Start(p, [SCOPE])), Count(p)) == Fresh(deploys[p := LISTED])
  {
    var w := Fresh(deploys[p := NEW]);
    assert Apply(Fresh(deploys), Start(p, [SCOPE])) == w;
    assert LiveApps(w, SCOPE) == {};
    assert deploys[p := NEW][p := LISTED] == deploys[p := LISTED];
  }

  lemma FirstReserves()
    ensures Apply(Fresh(map[0 := LISTED, 1 := LISTED]), TryReserve(1, 0)) == Contended()
  {
    var w := Fresh(map[0 := LISTED, 1 := LISTED]);
    assert Quota.Unexpired(map[], 0) == map[];
    assert Unexpired(w, SCOPE, 0) == {};
    var none: Table := map[];
    assert Prune(none, SCOPE, 0) == none;
    var one: map<nat, int> := map[][1 := RESERVATION_TTL];
    assert 1 in one && one == map[1 := RESERVATION_TTL];
    assert Granted(w, 1, 0) == map[SCOPE := map[1 := RESERVATION_TTL]];
    assert Gate(w, 1, 0) == 0;
    var w' := Passed(w, 1, Granted(w, 1, 0));
    assert w'.owner == Contended().owner;
    assert w'.deploys[1] == Deploy([SCOPE], [1], None, Gating);
    assert w'.deploys == Contended().deploys;
  }

  lemma ContendedIsReachable() returns (steps: seq<Step>)
    ensures Run(map[SCOPE := 1], steps) == Contended()
  {
    var c := map[SCOPE := 1];
    StartCount(map[], 0);
    StartCount(map[0 := LISTED], 1);
    FirstReserves();
    var s1 := [] + [Start(0, [SCOPE])];
    var s2 := s1 + [Count(0)];
    var s3 := s2 + [Start(1, [SCOPE])];
    var s4 := s3 + [Count(1)];
    steps := s4 + [TryReserve(1, 0)];
    RunMore(c, [], Start(0, [SCOPE]));
    RunMore(c, s1, Count(0));
    RunMore(c, s2, Start(1, [SCOPE]));
    RunMore(c, s3, Count(1));
    RunMore(c, s4, TryReserve(1, 0));
    assert Fresh(map[])  == Start0(c);
    assert map[][0 := LISTED] == map[0 := LISTED];
    assert map[0 := LISTED][1 := LISTED] == map[0 := LISTED, 1 := LISTED];
  }

  /** Deploy 1 has created its app and released. */
  function HandedOver(): World {
    World(map[SCOPE := 1], map[0 := App(KeySet([SCOPE]), 1)], 1, map[], 1, map[1 := Ticket(1, SCOPE, 0)],
          map[0 := LISTED, 1 := Deploy([SCOPE], [1], None, Created)])
  }

  lemma CreateAndRelease()
    ensures Apply(Apply(Contended(), Create(1)), Release(1, 0)) == HandedOver()
  {
    var w := Apply(Contended(), Create(1));
    assert w.deploys == map[0 := LISTED, 1 := Deploy([SCOPE], [1], None, Created)];
    assert w.live == map[0 := App(KeySet([SCOPE]), 1)];
    assert map[1 := RESERVATION_TTL] - {1} == map[];
    assert Drop(w.table, SCOPE, 1) == map[];
  }

  lemma HandedOverIsReachable() returns (steps: seq<Step>)
    ensures Run(map[SCOPE := 1], steps) == HandedOver()
  {
    var before := ContendedIsReachable();
    CreateAndRelease();
    RunMore(map[SCOPE := 1], before, Create(1));
    RunMore(map[SCOPE := 1], before + [Create(1)], Release(1, 0));
    steps := before + [Create(1)] + [Release(1, 0)];
  }

  /** Deploy 0 is let through on an empty table. */
  lemma SecondIsAdmitted(w: World, now: int)
    requires 0 in w.deploys && w.deploys[0] == LISTED && SCOPE in w.ceiling && w.ceiling[SCOPE] == 1
    requires Quota.Unexpired(At(w.table, SCOPE), now) == map[] && w.nextId == 1
    ensures var w' := Apply(w, TryReserve(0, now)); w'.live == w.live && w'.ceiling == w.ceiling && 2 in Pending(w', SCOPE)
    ensures forall id :: id in Pending(w, SCOPE) && id != 2 ==> id in Pending(Apply(w, TryReserve(0, now)), SCOPE)
  {
    EmptyGateAdmits(w, now);
    PassedIsPending(w, Granted(w, 0, now));
  }

  lemma EmptyGateAdmits(w: World, now: int)
    requires 0 in w.deploys && w.deploys[0] == LISTED && SCOPE in w.ceiling && w.ceiling[SCOPE] == 1
    requires Quota.Unexpired(At(w.table, SCOPE), now) == map[]
    ensures Apply(w, TryReserve(0, now)) == Passed(w, 0, Granted(w, 0, now))
  {
    assert Unexpired(w, SCOPE, now) == {};
    assert Gate(w, 0, now) == 0;
  }

  lemma PassedIsPending(w: World, t: Table)
    requires 0 in w.deploys && w.deploys[0] == LISTED && w.nextId == 1
    ensures 2 in Pending(Passed(w, 0, t), SCOPE)
    ensures forall id :: id in Pending(w, SCOPE) && id != 2 ==> id in Pending(Passed(w, 0, t), SCOPE)
  {
  }

  lemma OneLiveOneAdmitted(w: World)
    requires w.live == map[0 := App(KeySet([SCOPE]), 1)] && w.table == map[] && w.nextId == 1
    requires 0 in w.deploys && w.deploys[0] == LISTED && w.ceiling == map[SCOPE := 1]
    ensures !WithinCeiling(Apply(w, TryReserve(0, 1)))
  {
    assert Quota.Unexpired(At(w.table, SCOPE), 1) == map[];
    SecondIsAdmitted(w, 1);
    var w' := Apply(w, TryReserve(0, 1));
    assert SCOPE in KeySet([SCOPE]);
    assert 0 in LiveApps(w', SCOPE);
    SubsetCard({0}, LiveApps(w', SCOPE));
    SubsetCard({2}, Pending(w', SCOPE));
    assert Load(w', SCOPE) > w'.ceiling[SCOPE];
  }

  /** Deploy p's reserve at `now` takes the load past a ceiling it respected so far. */
  ghost predicate Overshoots(w: World, p: Pid, now: int) {
    Enabled(w, TryReserve(p, now)) && WithinCeiling(w) && !WithinCeiling(Apply(w, TryReserve(p, now)))
  }

  /** A deploy that creates and releases between another's count and reserve slips out of sight: the
      other is admitted although nothing expired early, and a ceiling of one ends with two. */
  lemma LostHandoffExceeds()
    ensures exists steps :: Overshoots(Run(map[SCOPE := 1], steps), 0, 1) && NoEarlyExpiry(Run(map[SCOPE := 1], steps), 0, 1)
  {
    var steps := HandedOverIsReachable();
    var w := HandedOver();
    OneLiveOneAdmitted(w);
    assert LiveApps(w, SCOPE) == {0};
    assert Pending(w, SCOPE) == {};
    assert Load(w, SCOPE) == 1;
    assert Overshoots(w, 0, 1) && NoEarlyExpiry(w, 0, 1);
    assert Overshoots(Run(map[SCOPE := 1], steps), 0, 1);
  }

  /** A reservation that expires before its create is pruned by the next reserve, with the same end,
      although every handoff is covered. */
  lemma EarlyExpiryExceeds()
    ensures exists steps :: Overshoots(Run(map[SCOPE := 1], steps), 0, RESERVATION_TTL)
                            && HandoffsCovered(Run(map[SCOPE := 1], steps), 0, RESERVATION_TTL)
  {
    var steps := ContendedIsReachable();
    var w := Contended();
    assert Quota.Unexpired(At(w.table, SCOPE), RESERVATION_TTL) == map[];
    SecondIsAdmitted(w, RESERVATION_TTL);
    var w' := Apply(w, TryReserve(0, RESERVATION_TTL));
    assert LiveApps(w, SCOPE) == {};
    assert Pending(w, SCOPE) == {1};
    assert Load(w, SCOPE) == 1;
    assert {1, 2} <= Pending(w', SCOPE);
    SubsetCard({1, 2}, Pending(w', SCOPE));
    assert Load(w', SCOPE) > w'.ceiling[SCOPE];
    assert Overshoots(w, 0, RESERVATION_TTL) && HandoffsCovered(w, 0, RESERVATION_TTL);
    assert Overshoots(Run(map[SCOPE := 1], steps), 0, RESERVATION_TTL);
  }

  // ---- what each step does ----

  /** A count lists exactly the live apps of the key at that moment. */
  lemma CountListsLive(w: World, p: Pid, a: AppId)
    requires Counting(w, p)
    ensures var v := Apply(w, Count(p));
            v.deploys[p].counted.Some? && (a in v.deploys[p].counted.value <==> a in w.live && NextKey(w, p) in w.live[a].keys)
  {
  }

  /** A reserve is granted exactly if the apps listed and the unexpired reservations of the key are below the ceiling. */
  lemma ReserveGrantedIff(w: World, p: Pid, now: int)
    requires Enabled(w, TryReserve(p, now))
    ensures var v, k := Apply(w, TryReserve(p, now)), NextKey(w, p);
            var d, e := w.deploys[p], v.deploys[p];
            if |d.counted.value| + |HeldIds(w.table, k, now)| < w.ceiling[k]
            then e.held == d.held + [w.nextId + 1] && e.pc == Gating && InTable(v.table, k, w.nextId + 1)
            else e.held == d.held && e.pc == Failed
  {
    var k := NextKey(w, p);
    assert HeldIds(w.table, k, now) == Unexpired(w, k, now);
    if Gate(w, p, now) < w.ceiling[k] {
      InsertAdds(Prune(w.table, k, now), k, w.nextId + 1, now + RESERVATION_TTL);
      assert Apply(w, TryReserve(p, now)) == Passed(w, p, Granted(w, p, now));
    }
  }

  /** A create makes exactly one live app, counting against the deploy's keys. */
  lemma CreateMakesApp(w: World, p: Pid)
    requires Enabled(w, Create(p))
    ensures var v := Apply(w, Create(p));
            && v.live == w.live[w.nextApp := App(KeySet(w.deploys[p].keys), p)] && v.table == w.table
            && v.deploys[p].pc == Created && v.deploys[p].held == w.deploys[p].held
  {
  }
}
