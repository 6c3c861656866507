/** The quota enforcer's reservation table (internal/quota/enforcer.go). */
module Quota {
  import opened Wrappers

  /** Reservations are scoped like the ceilings: namespace, scope and identity. */
  datatype ResKey = ResKey(ns: string, scope: string, id: string)

  /** scope -> reservation id -> expiry in nanoseconds. */
  type Table = map<ResKey, map<nat, int>>

  /** Two minutes, in nanoseconds. */
  const RESERVATION_TTL := 120_000_000_000

  /** The reservations that have not expired. */
  function Unexpired(m: map<nat, int>, now: int): map<nat, int> {
    map id | id in m && m[id] > now :: m[id]
  }

  function At(t: Table, key: ResKey): map<nat, int> {
    if key in t then t[key] else map[]
  }

  /** Replace the reservations of one key; a key never stays with an empty inner map. */
  function With(t: Table, key: ResKey, m: map<nat, int>): Table {
    if m == map[] then t - {key} else t[key := m]
  }

  /** reservedCountLocked: prune the expired reservations of key. */
  function Prune(t: Table, key: ResKey, now: int): Table {
    With(t, key, Unexpired(At(t, key), now))
  }

  function Insert(t: Table, key: ResKey, id: nat, expiry: int): Table {
    With(t, key, At(t, key)[id := expiry])
  }

  /** A release: drop one reservation. */
  function Drop(t: Table, key: ResKey, id: nat): Table {
    if key in t then With(t, key, t[key] - {id}) else t
  }

  ghost predicate NoEmptyInner(t: Table) {
    forall k :: k in t ==> t[k] != map[]
  }

  /** Whether reservation id of key counts at `now`. */
  predicate Holds(t: Table, key: ResKey, id: nat, now: int) {
    key in t && id in t[key] && t[key][id] > now
  }

  /** The unexpired reservations of both tables agree, except for the listed ids. */
  ghost predicate SameHoldings(t: Table, t': Table, now: int, added: map<ResKey, nat>) {
    forall k, id :: Holds(t', k, id, now) <==> Holds(t, k, id, now) || (k in added && added[k] == id)
  }

  /** Reservation id of key is in the table, expired or not. */
  predicate InTable(t: Table, key: ResKey, id: nat) { key in t && id in t[key] }

  lemma PruneShrinks(t: Table, key: ResKey, now: int)
    ensures forall k, id :: InTable(Prune(t, key, now), k, id) ==> InTable(t, k, id)
    ensures NoEmptyInner(t) ==> NoEmptyInner(Prune(t, key, now))
  {
  }

  lemma InsertAdds(t: Table, key: ResKey, id: nat, expiry: int)
    ensures forall k, i: nat :: InTable(Insert(t, key, id, expiry), k, i) <==> InTable(t, k, i) || (k, i) == (key, id)
    ensures NoEmptyInner(t) ==> NoEmptyInner(Insert(t, key, id, expiry))
  {
    assert id in At(t, key)[id := expiry];
  }

  lemma DropRemoves(t: Table, key: ResKey, id: nat)
    ensures forall k, i: nat :: InTable(Drop(t, key, id), k, i) <==> InTable(t, k, i) && (k, i) != (key, id)
    ensures NoEmptyInner(t) ==> NoEmptyInner(Drop(t, key, id))
  {
    if key in t {
      var m := t[key] - {id};
      assert forall i :: i in t[key] && i != id ==> i in m;
    }
  }

  lemma PruneKeepsHoldings(t: Table, key: ResKey, now: int)
    ensures SameHoldings(t, Prune(t, key, now), now, map[])
  {
    var t' := Prune(t, key, now);
    forall k, id ensures Holds(t', k, id, now) <==> Holds(t, k, id, now) {
      if k == key {
        assert id in Unexpired(At(t, key), now) <==> Holds(t, k, id, now);
      }
    }
  }

  lemma InsertHolds(t: Table, key: ResKey, id: nat, expiry: int, now: int)
    requires id !in At(t, key) && expiry > now
    ensures SameHoldings(t, Insert(t, key, id, expiry), now, map[key := id])
  {
    assert id in At(t, key)[id := expiry];
  }

  lemma DropHolds(t: Table, key: ResKey, id: nat, now: int)
    ensures forall k, i: nat :: Holds(Drop(t, key, id), k, i, now) <==> Holds(t, k, i, now) && (k, i) != (key, id)
    ensures NoEmptyInner(t) ==> NoEmptyInner(Drop(t, key, id))
  {
    if key in t {
      var m := t[key] - {id};
      assert forall i :: i in t[key] && i != id ==> i in m;
    }
  }

  /** A repeated or late release changes nothing more. */
  lemma DropTwice(t: Table, key: ResKey, id: nat)
    requires NoEmptyInner(t)
    ensures Drop(Drop(t, key, id), key, id) == Drop(t, key, id)
  {
    if key in t {
      assert (t[key] - {id}) - {id} == t[key] - {id};
    }
  }

  /** Adding one more reservation on top of the ones a call already took. */
  lemma HoldingsCompose(t: Table, t1: Table, t2: Table, now: int, taken: map<ResKey, nat>, key: ResKey, id: nat)
    requires SameHoldings(t, t1, now, taken) && SameHoldings(t1, t2, now, map[key := id]) && key !in taken
    ensures SameHoldings(t, t2, now, taken[key := id])
  {
  }

  lemma HoldingsChain(t: Table, t1: Table, t2: Table, now: int, taken: map<ResKey, nat>)
    requires SameHoldings(t, t1, now, taken) && SameHoldings(t1, t2, now, map[])
    ensures SameHoldings(t, t2, now, taken)
  {
  }

  /** One ceiling consulted by Authorize: off when max is not positive; `listed` is the remote count. */
  datatype Ceiling = Ceiling(key: ResKey, max: int, listed: Result<nat>)

  /** A new deploy asking for admission, with the configured maxima and the remote counts. */
  datatype Request = Request(
    namespace: string,
    tenant: string, tenantMax: int, tenantCount: Result<nat>,
    owner: string, ownerMax: int, ownerCount: Result<nat>,
    dept: string, deptOverrides: map<string, int>, deptGlobal: int, deptCount: Result<nat>)

  /** deptCeiling: the per-department override if set, else the global cap. */
  function DeptCeiling(overrides: map<string, int>, global: int, dept: string): int {
    if dept in overrides then overrides[dept] else global
  }

  /** The ceilings consulted, in order: tenant, owner and, for a known department, department. */
  function Ceilings(q: Request): (cs: seq<Ceiling>)
    ensures DistinctKeys(cs)
  {
    var tenant := Ceiling(ResKey(q.namespace, "tenant", q.tenant), q.tenantMax, q.tenantCount);
    var owner := Ceiling(ResKey(q.namespace, "owner", q.owner), q.ownerMax, q.ownerCount);
    var department := Ceiling(ResKey(q.namespace, "department", q.dept), DeptCeiling(q.deptOverrides, q.deptGlobal, q.dept), q.deptCount);
    assert |"tenant"| == 6 && |"owner"| == 5 && |"department"| == 10;
    if q.dept == "" then [tenant, owner] else [tenant, owner, department]
  }

  datatype Verdict = Authorized | CountFailed(message: string) | Exceeded(scope: string, limit: int, current: int)

  /** The unexpired reservations of a key. */
  ghost function HeldIds(t: Table, key: ResKey, now: int): set<nat> {
    set id | key in t && id in t[key] && t[key][id] > now
  }

  /** A ceiling that is on keeps a deploy out: its count failed, or live apps and reservations have filled it. */
  predicate Blocks(max: int, count: Result<nat>, held: nat) {
    max > 0 && (count.Err? || count.value + held >= max)
  }

  /** What a deploy kept out by a ceiling is told. */
  function Refusal(scope: string, max: int, count: Result<nat>, held: nat): Verdict {
    if count.Err? then CountFailed(count.message) else Exceeded(scope, max, count.value + held)
  }

  ghost predicate CeilingBlocks(t: Table, c: Ceiling, now: int) { Blocks(c.max, c.listed, |HeldIds(t, c.key, now)|) }

  ghost function CeilingRefusal(t: Table, c: Ceiling, now: int): Verdict {
    Refusal(c.key.scope, c.max, c.listed, |HeldIds(t, c.key, now)|)
  }

  /** What is held for a key depends on the unexpired reservations only; what one call took for other keys is not. */
  lemma HeldIdsSame(t: Table, t': Table, key: ResKey, now: int, added: map<ResKey, nat>)
    requires SameHoldings(t, t', now, added) && key !in added
    ensures HeldIds(t', key, now) == HeldIds(t, key, now)
  {
    forall id ensures id in HeldIds(t', key, now) <==> id in HeldIds(t, key, now) {
      assert Holds(t', key, id, now) <==> Holds(t, key, id, now);
    }
  }

  lemma HeldIdsAreUnexpired(t: Table, key: ResKey, now: int)
    ensures |HeldIds(t, key, now)| == |Unexpired(At(t, key), now)|
  {
    assert HeldIds(t, key, now) == Unexpired(At(t, key), now).Keys;
  }

  class Enforcer {
    var nextResID: nat
    var reservations: Table

    ghost predicate Valid()
      reads this
    {
      && NoEmptyInner(reservations)
      && forall k, id :: k in reservations && id in reservations[k] ==> id <= nextResID
    }

    constructor ()
      ensures Valid() && reservations == map[]
    {
      nextResID := 0;
      reservations := map[];
    }

    /** The count of unexpired reservations; expired ones are pruned on the way. */
    method ReservedCountLocked(key: ResKey, now: int) returns (n: nat)
      requires Valid()
      modifies this`reservations
      ensures Valid()
      ensures reservations == Prune(old(reservations), key, now)
      ensures n == |Unexpired(At(old(reservations), key), now)|
    {
      if key !in reservations {
        assert Unexpired(At(reservations, key), now) == map[];
        return 0;
      }
      var m := reservations[key];
      var todo := m.Keys;
      while todo != {}
        invariant todo <= m.Keys <= old(reservations)[key].Keys
        invariant forall id :: id in m ==> m[id] == old(reservations)[key][id]
        invariant forall id :: id in old(reservations)[key] && id !in m ==> old(reservations)[key][id] <= now
        invariant forall id :: id in m && id !in todo ==> m[id] > now
        decreases todo
      {
        var id :| id in todo;
        todo := todo - {id};
        if m[id] <= now {
          m := m - {id};
        }
      }
      assert m == Unexpired(At(old(reservations), key), now);
      if m == map[] {
        reservations := reservations - {key};
        return 0;
      }
      reservations := reservations[key := m];
      n := |m|;
    }

    /** Check listed + reserved < max and, when there is room, reserve. */
    method TryReserve(key: ResKey, listed: nat, max: int, now: int) returns (id: nat, total: int, ok: bool)
      requires Valid()
      modifies this
      ensures Valid() && nextResID >= old(nextResID)
      ensures ok <==> listed + |Unexpired(At(old(reservations), key), now)| < max
      ensures total == listed + |Unexpired(At(old(reservations), key), now)| + (if ok then 1 else 0)
      ensures ok ==> id == old(nextResID) + 1 == nextResID
      ensures reservations == if ok then Insert(Prune(old(reservations), key, now), key, id, now + RESERVATION_TTL)
                              else Prune(old(reservations), key, now)
      ensures ok ==> key in reservations && id in reservations[key] && reservations[key][id] == now + 120_000_000_000
      ensures SameHoldings(old(reservations), reservations, now, if ok then map[key := id] else map[])
    {
      var n := ReservedCountLocked(key, now);
      PruneKeepsHoldings(old(reservations), key, now);
      total := listed + n;
      id, ok := 0, false;
      if total >= max {
        return;
      }
      InsertHolds(reservations, key, nextResID + 1, now + RESERVATION_TTL, now);
      id := ReserveLocked(key, now);
      total, ok := total + 1, true;
    }

    /** Records a reservation under the next id. */
    method ReserveLocked(key: ResKey, now: int) returns (id: nat)
      requires Valid()
      modifies this
      ensures Valid() && id == old(nextResID) + 1 == nextResID
      ensures reservations == Insert(old(reservations), key, id, now + RESERVATION_TTL)
    {
      nextResID := nextResID + 1;
      id := nextResID;
      var m := map[];
      if key in reservations {
        m := reservations[key];
      }
      assert id in m[id := now + RESERVATION_TTL];
      reservations := reservations[key := m[id := now + RESERVATION_TTL]];
    }

    /** The release closure of one reservation. */
    method Release(key: ResKey, id: nat)
      requires Valid()
      modifies this`reservations
      ensures Valid() && reservations == Drop(old(reservations), key, id)
    {
      if key in reservations {
        var m := reservations[key] - {id};
        if |m| == 0 {
          reservations := reservations - {key};
        } else {
          reservations := reservations[key := m];
        }
      }
    }

    /** releaseAll: newest first. */
    method ReleaseAll(releases: seq<(ResKey, nat)>, ghost before: Table, now: int)
      requires Valid() && Took(before, reservations, releases, now)
      modifies this`reservations
      ensures Valid() && SameHoldings(before, reservations, now, map[])
    {
      var i := |releases|;
      assert releases[..i] == releases;
      while i > 0
        invariant 0 <= i <= |releases|
        invariant Valid() && SameHoldings(before, reservations, now, AsMap(releases[..i]))
      {
        i := i - 1;
        ghost var t := reservations;
        Release(releases[i].0, releases[i].1);
        ReleaseUndoes(before, t, releases, i, now);
      }
      assert AsMap(releases[..0]) == map[];
    }

    /** One ceiling of Authorize: count, reserve, or undo what the call has taken so far. */
    method Consult(c: Ceiling, taken: seq<(ResKey, nat)>, ghost before: Table, ghost floor: nat, now: int)
      returns (v: Verdict, releases: seq<(ResKey, nat)>)
      requires Valid() && c.max > 0 && c.key !in AsMap(taken) && Took(before, reservations, taken, now)
      requires IdsUpTo(before, floor, now) && floor <= nextResID
      modifies this
      ensures Valid() && nextResID >= old(nextResID)
      ensures v == Authorized ==> releases == taken + [(c.key, nextResID)] && nextResID == old(nextResID) + 1
                                  && Took(before, reservations, releases, now)
      ensures v != Authorized ==> releases == [] && SameHoldings(before, reservations, now, map[])
      ensures v == Authorized <==> !CeilingBlocks(before, c, now)
      ensures v != Authorized ==> v == CeilingRefusal(before, c, now)
    {
      HeldIdsSame(before, reservations, c.key, now, AsMap(taken));
      HeldIdsAreUnexpired(reservations, c.key, now);
      releases := [];
      if c.listed.Err? {
        ReleaseAll(taken, before, now);
        return CountFailed(c.listed.message), [];
      }
      var id, total, ok := TryReserve(c.key, c.listed.value, c.max, now);
      if !ok {
        HoldingsChain(before, old(reservations), reservations, now, AsMap(taken));
        ReleaseAll(taken, before, now);
        return Exceeded(c.key.scope, c.max, total), [];
      }
      TookOneMore(before, old(reservations), reservations, taken, c.key, id, now);
      return Authorized, taken + [(c.key, id)];
    }

    /** The admission decision: a redeploy passes; a new deploy is authorized exactly if none of its tenant's, its
        owner's and (for a known department) its department's ceiling keeps it out, and otherwise is told about the
        first that does. All or nothing: on any failure the unexpired reservations are as before; on success each
        ceiling that is on has exactly one new reservation, under a fresh id. */
    method Authorize(q: Request, isNew: bool, now: int) returns (v: Verdict, releases: seq<(ResKey, nat)>)
      requires Valid()
      modifies this
      ensures Valid() && nextResID >= old(nextResID)
      ensures !isNew ==> v == Authorized && releases == [] && reservations == old(reservations)
      ensures isNew ==>
                var tenant := |HeldIds(old(reservations), ResKey(q.namespace, "tenant", q.tenant), now)|;
                var owner := |HeldIds(old(reservations), ResKey(q.namespace, "owner", q.owner), now)|;
                var dept := |HeldIds(old(reservations), ResKey(q.namespace, "department", q.dept), now)|;
                var deptMax := if q.dept in q.deptOverrides then q.deptOverrides[q.dept] else q.deptGlobal;
                if Blocks(q.tenantMax, q.tenantCount, tenant) then v == Refusal("tenant", q.tenantMax, q.tenantCount, tenant)
                else if Blocks(q.ownerMax, q.ownerCount, owner) then v == Refusal("owner", q.ownerMax, q.ownerCount, owner)
                else if q.dept != "" && Blocks(deptMax, q.deptCount, dept) then v == Refusal("department", deptMax, q.deptCount, dept)
                else v == Authorized
      ensures v != Authorized ==> releases == [] && SameHoldings(old(reservations), reservations, now, map[])
      ensures isNew && v == Authorized ==>
                var deptMax := if q.dept in q.deptOverrides then q.deptOverrides[q.dept] else q.deptGlobal;
                && SameHoldings(old(reservations), reservations, now, AsMap(releases))
                && KeysOf(releases) ==
                     (if q.tenantMax > 0 then [ResKey(q.namespace, "tenant", q.tenant)] else [])
                     + (if q.ownerMax > 0 then [ResKey(q.namespace, "owner", q.owner)] else [])
                     + (if q.dept != "" && deptMax > 0 then [ResKey(q.namespace, "department", q.dept)] else [])
                && forall i :: 0 <= i < |releases| ==> old(nextResID) < releases[i].1 <= nextResID
    {
      if !isNew {
        return Authorized, [];
      }
      ghost var at;
      v, releases, at := Admit(Ceilings(q), now);
      CeilingsOf(q);
    }

    /** The ceilings one after another, undoing everything on the first that refuses; `at` is its place. */
    method Admit(ceilings: seq<Ceiling>, now: int) returns (v: Verdict, releases: seq<(ResKey, nat)>, ghost at: nat)
      requires Valid() && DistinctKeys(ceilings)
      modifies this
      ensures Valid() && nextResID >= old(nextResID)
      ensures at <= |ceilings| && forall j :: 0 <= j < at ==> !CeilingBlocks(old(reservations), ceilings[j], now)
      ensures v == Authorized <==> at == |ceilings|
      ensures at < |ceilings| ==> CeilingBlocks(old(reservations), ceilings[at], now) && v == CeilingRefusal(old(reservations), ceilings[at], now)
      ensures v != Authorized ==> releases == [] && SameHoldings(old(reservations), reservations, now, map[])
      ensures v == Authorized ==>
                && SameHoldings(old(reservations), reservations, now, AsMap(releases))
                && KeysOf(releases) == Enabled(ceilings)
                && forall i :: 0 <= i < |releases| ==> old(nextResID) < releases[i].1 <= nextResID
    {
      ghost var before, floor := reservations, nextResID;
      assert IdsUpTo(before, floor, now);
      releases := [];
      var i := 0;
      while i < |ceilings|
        invariant 0 <= i <= |ceilings| && Valid() && nextResID >= floor
        invariant Took(before, reservations, releases, now)
        invariant forall a :: 0 <= a < |releases| ==> floor < releases[a].1 <= nextResID
        invariant KeysOf(releases) == EnabledUpTo(ceilings, i)
        invariant forall j :: 0 <= j < i ==> !CeilingBlocks(before, ceilings[j], now)
      {
        var c := ceilings[i];
        if c.max > 0 {
          EnabledAreListed(ceilings, i, c.key);
          KeyNotTaken(releases, c.key);
          KeysOfGrows(releases, c.key, nextResID + 1);
          v, releases := Consult(c, releases, before, floor, now);
          if v != Authorized {
            at := i;
            return;
          }
        }
        i := i + 1;
      }
      v, at := Authorized, i;
    }
  }

  /** The ceilings of a request, field by field. */
  lemma CeilingsOf(q: Request)
    ensures var cs := Ceilings(q);
            var deptMax := if q.dept in q.deptOverrides then q.deptOverrides[q.dept] else q.deptGlobal;
            && |cs| == (if q.dept == "" then 2 else 3)
            && cs[0] == Ceiling(ResKey(q.namespace, "tenant", q.tenant), q.tenantMax, q.tenantCount)
            && cs[1] == Ceiling(ResKey(q.namespace, "owner", q.owner), q.ownerMax, q.ownerCount)
            && (q.dept != "" ==> cs[2] == Ceiling(ResKey(q.namespace, "department", q.dept), deptMax, q.deptCount))
    ensures var deptMax := if q.dept in q.deptOverrides then q.deptOverrides[q.dept] else q.deptGlobal;
            Enabled(Ceilings(q)) ==
              (if q.tenantMax > 0 then [ResKey(q.namespace, "tenant", q.tenant)] else [])
              + (if q.ownerMax > 0 then [ResKey(q.namespace, "owner", q.owner)] else [])
              + (if q.dept != "" && deptMax > 0 then [ResKey(q.namespace, "department", q.dept)] else [])
  {
    var cs := Ceilings(q);
    assert EnabledUpTo(cs, 0) == [];
    assert EnabledUpTo(cs, 2) == EnabledUpTo(cs, 1) + (if cs[1].max > 0 then [cs[1].key] else []);
    if q.dept != "" {
      assert EnabledUpTo(cs, 3) == EnabledUpTo(cs, 2) + (if cs[2].max > 0 then [cs[2].key] else []);
    }
  }

  /** No unexpired reservation has an id above n. */
  ghost predicate IdsUpTo(t: Table, n: nat, now: int) {
    forall k, id: nat :: Holds(t, k, id, now) ==> id <= n
  }

  /** `releases` lists exactly what a call added to the reservations it found in `before`. */
  ghost predicate Took(before: Table, t: Table, releases: seq<(ResKey, nat)>, now: int) {
    && SameHoldings(before, t, now, AsMap(releases))
    && (forall a, b :: 0 <= a < b < |releases| ==> releases[a].0 != releases[b].0)
    && (forall a :: 0 <= a < |releases| ==> !Holds(before, releases[a].0, releases[a].1, now))
  }

  lemma KeysOfGrows(releases: seq<(ResKey, nat)>, key: ResKey, id: nat)
    ensures KeysOf(releases + [(key, id)]) == KeysOf(releases) + [key]
  {
  }

  lemma TookOneMore(before: Table, t: Table, t': Table, releases: seq<(ResKey, nat)>, key: ResKey, id: nat, now: int)
    requires Took(before, t, releases, now) && SameHoldings(t, t', now, map[key := id])
    requires key !in AsMap(releases) && !Holds(before, key, id, now)
    ensures Took(before, t', releases + [(key, id)], now)
    ensures AsMap(releases + [(key, id)]) == AsMap(releases)[key := id]
  {
    AsMapSnoc(releases, key, id);
    HoldingsCompose(before, t, t', now, AsMap(releases), key, id);
    forall a | 0 <= a < |releases| ensures releases[a].0 != key {
      AsMapKeys(releases, releases[a].0);
    }
  }

  lemma ReleaseUndoes(before: Table, t: Table, releases: seq<(ResKey, nat)>, i: nat, now: int)
    requires i < |releases| && SameHoldings(before, t, now, AsMap(releases[..i + 1]))
    requires forall a, b :: 0 <= a < b < |releases| ==> releases[a].0 != releases[b].0
    requires !Holds(before, releases[i].0, releases[i].1, now)
    ensures SameHoldings(before, Drop(t, releases[i].0, releases[i].1), now, AsMap(releases[..i]))
  {
    AsMapPrefix(releases, i);
    DropHolds(t, releases[i].0, releases[i].1, now);
  }

  ghost predicate DistinctKeys(ceilings: seq<Ceiling>) {
    forall i, j :: 0 <= i < j < |ceilings| ==> ceilings[i].key != ceilings[j].key
  }

  function AsMap(releases: seq<(ResKey, nat)>): map<ResKey, nat> {
    if releases == [] then map[]
    else
      var last := releases[|releases| - 1];
      AsMap(releases[..|releases| - 1])[last.0 := last.1]
  }

  lemma AsMapSnoc(releases: seq<(ResKey, nat)>, key: ResKey, id: nat)
    ensures AsMap(releases + [(key, id)]) == AsMap(releases)[key := id]
  {
    assert (releases + [(key, id)])[..|releases|] == releases;
  }

  lemma {:induction false} AsMapKeys(releases: seq<(ResKey, nat)>, k: ResKey)
    ensures k in AsMap(releases) <==> exists i :: 0 <= i < |releases| && releases[i].0 == k
  {
    if releases != [] {
      var front := releases[..|releases| - 1];
      AsMapKeys(front, k);
      if k in AsMap(front) {
        var i :| 0 <= i < |front| && front[i].0 == k;
        assert releases[i].0 == k;
      }
    }
  }

  lemma AsMapPrefix(releases: seq<(ResKey, nat)>, i: nat)
    requires i < |releases|
    requires forall a, b :: 0 <= a < b < |releases| ==> releases[a].0 != releases[b].0
    ensures AsMap(releases[..i + 1]) == AsMap(releases[..i])[releases[i].0 := releases[i].1]
    ensures releases[i].0 !in AsMap(releases[..i])
  {
    assert releases[..i + 1][..i] == releases[..i];
    AsMapKeys(releases[..i], releases[i].0);
  }

  function KeysOf(releases: seq<(ResKey, nat)>): seq<ResKey> {
    seq(|releases|, i requires 0 <= i < |releases| => releases[i].0)
  }

  lemma KeyNotTaken(releases: seq<(ResKey, nat)>, key: ResKey)
    requires key !in KeysOf(releases)
    ensures key !in AsMap(releases)
  {
    AsMapKeys(releases, key);
    assert forall i | 0 <= i < |releases| :: KeysOf(releases)[i] == releases[i].0;
  }

  /** The keys of the ceilings that are switched on, among the first n, in order. */
  function EnabledUpTo(ceilings: seq<Ceiling>, n: nat): seq<ResKey>
    requires n <= |ceilings|
  {
    if n == 0 then []
    else EnabledUpTo(ceilings, n - 1) + (if ceilings[n - 1].max > 0 then [ceilings[n - 1].key] else [])
  }

  function Enabled(ceilings: seq<Ceiling>): seq<ResKey> { EnabledUpTo(ceilings, |ceilings|) }

  lemma {:induction false} EnabledAreListed(ceilings: seq<Ceiling>, n: nat, k: ResKey)
    requires n <= |ceilings| && forall j :: 0 <= j < n ==> ceilings[j].key != k
    ensures k !in EnabledUpTo(ceilings, n)
  {
    if n > 0 {
      EnabledAreListed(ceilings, n - 1, k);
    }
  }
}
