/** Identity resolution behind the TTL cache (internal/auth/identity.go). */
module IdentityCache {
  import opened Wrappers
  import T = TtlCache

  const MAX_ENTRIES := 50000

  datatype User = User(id: string, name: string, email: string, role: string, status: string, provider: string, department: string)

  /** The request-scoped view of a user. */
  datatype Identity = Identity(id: string, name: string, email: string, role: string, status: string, provider: string, department: string)

  function IdentityOf(u: User): Identity {
    Identity(u.id, u.name, u.email, u.role, u.status, u.provider, u.department)
  }

  // ---- resolving an identity ----

  class Resolver {
    const hasStore: bool
    const cache: T.Cache<Identity>

    constructor (hasStore: bool, ttl: int)
      ensures this.hasStore == hasStore && fresh(cache) && cache.ttl == ttl && cache.max == MAX_ENTRIES && cache.entries == map[]
    {
      this.hasStore := hasStore;
      cache := new T.Cache(ttl, MAX_ENTRIES);
    }

    /** record: what the store answers, if asked; None for an error or a missing user. */
    method Resolve(userId: string, record: Option<User>, getAt: int, putAt: int) returns (r: Option<Identity>, asked: bool, victim: Option<string>)
      modifies cache
      ensures !hasStore || userId == "" ==> r.None? && !asked && cache.entries == old(cache.entries)
      ensures hasStore && userId != "" ==>
                var hit := T.Lookup(old(cache.entries), cache.ttl, userId, getAt);
                && asked == hit.None?
                && r == (if hit.Some? then hit else if record.Some? then Some(IdentityOf(record.value)) else None)
                && cache.entries == (if hit.Some? || record.None? then old(cache.entries)
                                     else T.Stored(old(cache.entries), cache.ttl, userId, IdentityOf(record.value), putAt, victim))
      ensures asked && r.Some? ==>
                var u := record.value;
                && record.Some? && r.value.id == u.id && r.value.name == u.name && r.value.email == u.email && r.value.role == u.role
                && r.value.status == u.status && r.value.provider == u.provider && r.value.department == u.department
      ensures asked && r.Some? ==> T.VictimOk(old(cache.entries), cache.ttl, cache.max, userId, victim)
    {
      asked, victim := false, None;
      if !hasStore || userId == "" {
        return None, asked, victim;
      }
      r := cache.Get(userId, getAt);
      if r.Some? {
        return;
      }
      asked := true;
      if record.None? {
        return;
      }
      var u := record.value;
      var ident := Identity(u.id, u.name, u.email, u.role, u.status, u.provider, u.department);
      victim := cache.Put(userId, ident, putAt);
      r := Some(ident);
    }
  }

  /** In every interleaving of Resolve calls: a cached identity is served within one TTL of its read, in every
      continuation, if and only if the call that read it stored it at that time. */
  lemma IdentityAgesOneTtlIff(ttl: int, steps: seq<T.Step<Identity>>, userId: string, from: nat)
    requires T.Served(T.Config(ttl, MAX_ENTRIES), T.Run(T.Config(ttl, MAX_ENTRIES), steps), userId, from)
    ensures var c := T.Config(ttl, MAX_ENTRIES);
            (forall more: seq<T.Step<Identity>>, k: nat :: T.Recent(c, T.Run(c, steps + more).calls, from, k)) <==>
            T.Run(c, steps).calls[from].phase.putAt == T.Run(c, steps).calls[from].phase.readAt
  {
    var c := T.Config(ttl, MAX_ENTRIES);
    if T.Run(c, steps).calls[from].phase.putAt == T.Run(c, steps).calls[from].phase.readAt {
      forall more: seq<T.Step<Identity>>, k: nat ensures T.Recent(c, T.Run(c, steps + more).calls, from, k) {
        T.PromptIsRecent(c, steps, more, from, k);
      }
    } else {
      var more, k := T.LateIsNotRecent(c, steps, userId, from);
      assert !T.Recent(c, T.Run(c, steps + more).calls, from, k);
    }
  }

  /** A cached answer was read for that user by the call it came from; if that call stored it at the time it read
      it, whatever the other calls did, the answer is at most one TTL old. */
  lemma PromptReadsAgeOneTtl(ttl: int, steps: seq<T.Step<Identity>>, k: nat)
    requires var calls := T.Run(T.Config(ttl, MAX_ENTRIES), steps).calls; k < |calls| && calls[k].phase.Hit?
    ensures var calls := T.Run(T.Config(ttl, MAX_ENTRIES), steps).calls;
            var hit := calls[k].phase;
            && T.Produced(calls, calls[k].key, hit.val, hit.from)
            && var source := calls[hit.from].phase;
               source.putAt == source.readAt ==> 0 <= hit.at - source.readAt <= ttl
  {
    T.HitsAreFresh(T.Config(ttl, MAX_ENTRIES), steps, k);
  }

  /** The expiry counts from the store, not from the read: a slow read is served for longer than one TTL. */
  lemma SlowReadOutlivesTtl(ident: Identity)
    ensures exists steps: seq<T.Step<Identity>> ::
              var calls := T.Run(T.Config(10, MAX_ENTRIES), steps).calls;
              && |calls| == 2 && calls[1].phase.Hit? && calls[0].phase.Computed? && calls[1].phase.from == 0
              && calls[1].phase.at - calls[0].phase.readAt > 10
  {
    var c := T.Config(10, MAX_ENTRIES);
    var w0: T.World<Identity> := T.World(0, map[], map[], []);
    var w1 := T.World(0, map[], map[], [T.Call("u", None, T.Start)]);
    var w2 := T.World(0, map[], map[], [T.Call("u", None, T.Missed)]);
    var w3 := T.World(0, map[], map[], [T.Call("u", None, T.Fetched(ident, 0))]);
    var w4 := T.World(5, map[], map[], [T.Call("u", None, T.Fetched(ident, 0))]);
    var done := T.Call("u", None, T.Computed(ident, 0, 5));
    var w5 := T.World(5, map["u" := T.Entry(ident, 15)], map["u" := 0], [done]);
    var w6 := w5.(now := 15);
    var w7 := w6.(calls := [done, T.Call("u", None, T.Start)]);
    var s1 := [T.Begin("u", None)];
    var s2 := s1 + [T.Get(0)];
    var s3 := s2 + [T.Fetch(0, Some(ident))];
    var s4 := s3 + [T.Tick(5)];
    var s5 := s4 + [T.Put(0, None)];
    var s6 := s5 + [T.Tick(10)];
    var s7 := s6 + [T.Begin("u", None)];
    var s8 := s7 + [T.Get(1)];
    RunTo(c, [], s1, w0, w1);
    RunTo(c, s1, s2, w1, w2);
    RunTo(c, s2, s3, w2, w3);
    RunTo(c, s3, s4, w3, w4);
    assert T.Apply(c, w4, T.Put(0, None)) == w5;
    RunTo(c, s4, s5, w4, w5);
    RunTo(c, s5, s6, w5, w6);
    RunTo(c, s6, s7, w6, w7);
    RunTo(c, s7, s8, w7, w7.(calls := [done, T.Call("u", None, T.Hit(ident, 15, 0))]));
  }

  /** One more step of a run. */
  lemma RunTo<V>(c: T.Config, before: seq<T.Step<V>>, after: seq<T.Step<V>>, w: T.World<V>, v: T.World<V>)
    requires |after| == |before| + 1 && after[..|before|] == before
    requires T.Run(c, before) == w && T.Apply(c, w, after[|before|]) == v
    ensures T.Run(c, after) == v
  {
  }
}
