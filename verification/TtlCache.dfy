/** The bounded map with per-entry expiry that fronts the user store (internal/auth/identity.go). */
module TtlCache {
  import opened Wrappers

  const EVICT_SAMPLE := 16

  datatype Entry<V> = Entry(val: V, expiresAt: int)

  /** get: present and not expired, unless caching is off. */
  function Lookup<V>(entries: map<string, Entry<V>>, ttl: int, key: string, now: int): Option<V> {
    if ttl <= 0 || key !in entries || now > entries[key].expiresAt then None else Some(entries[key].val)
  }

  /** put, with the entry it evicted. */
  function Stored<V>(entries: map<string, Entry<V>>, ttl: int, key: string, val: V, now: int, victim: Option<string>): map<string, Entry<V>> {
    if ttl <= 0 then entries
    else (if victim.Some? then entries - {victim.value} else entries)[key := Entry(val, now + ttl)]
  }

  /** A put evicts one entry exactly when it adds a key to a full cache that is not empty. */
  predicate VictimOk<V>(entries: map<string, Entry<V>>, ttl: int, max: int, key: string, victim: Option<string>) {
    && (victim.Some? <==> ttl > 0 && key !in entries && |entries| >= max && |entries| > 0)
    && (victim.Some? ==> victim.value in entries)
  }

  /** The bound the cache keeps: a maximum below one still leaves room for one entry. */
  function Bound(max: int): nat { if max < 1 then 1 else max }

  lemma StoredIsBounded<V>(entries: map<string, Entry<V>>, ttl: int, max: int, key: string, val: V, now: int, victim: Option<string>)
    requires |entries| <= Bound(max) && VictimOk(entries, ttl, max, key, victim)
    ensures |Stored(entries, ttl, key, val, now, victim)| <= Bound(max)
  {
    var rest := if victim.Some? then entries - {victim.value} else entries;
    if victim.Some? {
      assert rest.Keys == entries.Keys - {victim.value};
      assert |rest.Keys| == |entries.Keys| - 1;
    }
    var s := rest[key := Entry(val, now + ttl)];
    assert s.Keys == rest.Keys + {key};
    assert |s| <= |rest| + 1;
    if key in entries {
      assert s.Keys == entries.Keys;
      assert |s| == |s.Keys| == |entries.Keys| == |entries|;
    }
  }

  /** Nothing in the sample expires before k, which is in it. */
  ghost predicate SoonestOf<V(!new)>(entries: map<string, Entry<V>>, sample: set<string>, k: string) {
    k in sample && k in entries && forall j :: j in sample && j in entries ==> entries[k].expiresAt <= entries[j].expiresAt
  }

  /** The set of a sample and one more key. */
  lemma OneMore(sample: set<string>, rest: set<string>, k: string)
    requires sample !! rest && k in rest
    ensures sample + {k} !! rest - {k} && (sample + {k}) + (rest - {k}) == sample + rest
    ensures |sample + {k}| == |sample| + 1 && |rest - {k}| == |rest| - 1
  {
  }

  class Cache<V(!new)> {
    const ttl: int
    const max: int
    var entries: map<string, Entry<V>>

    constructor (ttl: int, max: int)
      ensures this.ttl == ttl && this.max == max && entries == map[]
    {
      this.ttl, this.max := ttl, max;
      entries := map[];
    }

    method Get(key: string, now: int) returns (r: Option<V>)
      ensures r == Lookup(entries, ttl, key, now)
    {
      if ttl <= 0 {
        return None;
      }
      if key !in entries || now > entries[key].expiresAt {
        return None;
      }
      return Some(entries[key].val);
    }

    /** Drops the soonest to expire of up to sixteen entries, met in any order. */
    method EvictSoonestSampled() returns (victim: Option<string>, sample: set<string>)
      modifies this
      ensures sample <= old(entries).Keys && |sample| == if |old(entries)| < EVICT_SAMPLE then |old(entries)| else EVICT_SAMPLE
      ensures victim.Some? <==> |old(entries)| > 0
      ensures victim.Some? ==> SoonestOf(old(entries), sample, victim.value) && entries == old(entries) - {victim.value}
      ensures victim.None? ==> entries == old(entries)
    {
      victim := None;
      sample := {};
      var rest, seen := entries.Keys, 0;
      while rest != {} && seen < EVICT_SAMPLE
        invariant sample !! rest && sample + rest == entries.Keys && |sample| + |rest| == |entries|
        invariant entries == old(entries) && |sample| == seen <= EVICT_SAMPLE
        invariant if seen == 0 then victim.None? else victim.Some? && SoonestOf(entries, sample, victim.value)
        decreases |rest|
      {
        var k :| k in rest;
        if victim.None? || entries[k].expiresAt < entries[victim.value].expiresAt {
          victim := Some(k);
        }
        OneMore(sample, rest, k);
        sample, rest, seen := sample + {k}, rest - {k}, seen + 1;
      }
      if victim.Some? {
        entries := entries - {victim.value};
      }
    }

    method Put(key: string, val: V, now: int) returns (victim: Option<string>)
      modifies this
      ensures VictimOk(old(entries), ttl, max, key, victim)
      ensures entries == Stored(old(entries), ttl, key, val, now, victim)
    {
      victim := None;
      if ttl <= 0 {
        return;
      }
      if key !in entries && |entries| >= max {
        var sample;
        victim, sample := EvictSoonestSampled();
      }
      entries := entries[key := Entry(val, now + ttl)];
    }
  }

  /** A lookup answers exactly while the entry is there and not past its expiry, with caching on. */
  lemma LookupIff<V>(entries: map<string, Entry<V>>, ttl: int, key: string, now: int, val: V)
    ensures Lookup(entries, ttl, key, now) == Some(val) <==>
              ttl > 0 && key in entries && now <= entries[key].expiresAt && entries[key].val == val
  {
  }

  /** A put with caching on makes the key read the value for one TTL, drops the victim and keeps every other entry. */
  lemma StoredReads<V>(entries: map<string, Entry<V>>, ttl: int, key: string, val: V, now: int, victim: Option<string>, other: string, at: int)
    requires ttl > 0 && victim != Some(key)
    ensures var after := Stored(entries, ttl, key, val, now, victim);
            && (now <= at <= now + ttl ==> Lookup(after, ttl, key, at) == Some(val))
            && (at > now + ttl ==> Lookup(after, ttl, key, at) == None)
            && (other != key ==> Lookup(after, ttl, other, at) == if victim == Some(other) then None else Lookup(entries, ttl, other, at))
  {
  }

  // ---- any number of concurrent calls that look up, fetch and store ----

  /** A call: before the lookup; after a miss; with a value fetched from the backing store; answered from the
      cache by what call `from` had fetched; answered by its own fetch and stored; answered with nothing. */
  datatype Phase<V> =
    | Start
    | Missed
    | Fetched(val: V, readAt: int)
    | Hit(val: V, at: int, from: nat)
    | Computed(val: V, readAt: int, putAt: int)
    | Nothing

  /** want: the cached value a call insists on; any, when absent. */
  datatype Call<V> = Call(key: string, want: Option<V>, phase: Phase<V>)

  /** origin: the call that stored the entry of a key. */
  datatype World<V> = World(now: int, entries: map<string, Entry<V>>, origin: map<string, nat>, calls: seq<Call<V>>)

  datatype Step<V> =
    | Tick(later: nat)
    | Begin(key: string, want: Option<V>)
    | Get(call: nat)
    | Fetch(call: nat, reply: Option<V>)
    | Put(call: nat, victim: Option<string>)

  datatype Config = Config(ttl: int, max: int)

  predicate Enabled<V(==)>(c: Config, w: World<V>, s: Step<V>) {
    match s
    case Tick(_) => true
    case Begin(_, _) => true
    case Get(k) => k < |w.calls| && w.calls[k].phase.Start?
    case Fetch(k, reply) =>
      && k < |w.calls| && w.calls[k].phase.Missed?
      && (w.calls[k].want.Some? && reply.Some? ==> reply == w.calls[k].want)
    case Put(k, victim) => k < |w.calls| && w.calls[k].phase.Fetched? && VictimOk(w.entries, c.ttl, c.max, w.calls[k].key, victim)
  }

  function In<V>(w: World<V>, k: nat, phase: Phase<V>): World<V>
    requires k < |w.calls|
  {
    w.(calls := w.calls[k := w.calls[k].(phase := phase)])
  }

  function AfterGet<V(==)>(c: Config, w: World<V>, k: nat): Phase<V>
    requires k < |w.calls|
  {
    var call := w.calls[k];
    var found := Lookup(w.entries, c.ttl, call.key, w.now);
    if found.Some? && (call.want.None? || call.want == found) then
      Hit(found.value, w.now, if call.key in w.origin then w.origin[call.key] else 0)
    else Missed
  }

  function Apply<V(==)>(c: Config, w: World<V>, s: Step<V>): World<V> {
    if !Enabled(c, w, s) then w else
    match s
    case Tick(later) => w.(now := w.now + later)
    case Begin(key, want) => w.(calls := w.calls + [Call(key, want, Start)])
    case Get(k) => In(w, k, AfterGet(c, w, k))
    case Fetch(k, reply) => In(w, k, if reply.Some? then Fetched(reply.value, w.now) else Nothing)
    case Put(k, victim) =>
      var call := w.calls[k];
      var v := In(w, k, Computed(call.phase.val, call.phase.readAt, w.now));
      if c.ttl <= 0 then v
      else v.(entries := Stored(w.entries, c.ttl, call.key, call.phase.val, w.now, victim), origin := w.origin[call.key := k])
  }

  function Run<V(==)>(c: Config, steps: seq<Step<V>>): World<V> {
    if steps == [] then World(0, map[], map[], []) else Apply(c, Run(c, steps[..|steps| - 1]), steps[|steps| - 1])
  }

  /** Call `from` fetched val for key and stored it at putAt. */
  predicate Produced<V(==)>(calls: seq<Call<V>>, key: string, val: V, from: nat) {
    from < |calls| && calls[from].key == key && calls[from].phase.Computed? && calls[from].phase.val == val
  }

  ghost predicate CallOk<V>(c: Config, calls: seq<Call<V>>, now: int, call: Call<V>) {
    && (call.phase.Fetched? ==> call.phase.readAt <= now && (call.want.Some? ==> call.want.value == call.phase.val))
    && (call.phase.Computed? ==> call.phase.readAt <= call.phase.putAt <= now && (call.want.Some? ==> call.want.value == call.phase.val))
    && (call.phase.Hit? ==>
          && c.ttl > 0 && (call.want.Some? ==> call.want.value == call.phase.val)
          && Produced(calls, call.key, call.phase.val, call.phase.from)
          && calls[call.phase.from].phase.putAt <= call.phase.at <= calls[call.phase.from].phase.putAt + c.ttl)
  }

  ghost predicate EntryOk<V>(c: Config, w: World<V>, key: string)
    requires key in w.entries
  {
    && key in w.origin && Produced(w.calls, key, w.entries[key].val, w.origin[key])
    && w.entries[key].expiresAt == w.calls[w.origin[key]].phase.putAt + c.ttl
  }

  ghost predicate Inv<V>(c: Config, w: World<V>) {
    && |w.entries| <= Bound(c.max)
    && (forall key :: key in w.entries ==> EntryOk(c, w, key))
    && (forall k :: 0 <= k < |w.calls| ==> CallOk(c, w.calls, w.now, w.calls[k]))
  }

  /** A call that has not stored anything moves on; the cache stays. */
  lemma CallStepKeeps<V>(c: Config, w: World<V>, k: nat, phase: Phase<V>)
    requires Inv(c, w) && k < |w.calls| && !w.calls[k].phase.Computed?
    requires CallOk(c, w.calls, w.now, w.calls[k].(phase := phase))
    ensures Inv(c, In(w, k, phase))
  {
    var v := In(w, k, phase);
    forall j | 0 <= j < |v.calls| ensures CallOk(c, v.calls, v.now, v.calls[j]) {
      assert CallOk(c, w.calls, w.now, w.calls[j]);
    }
    forall key | key in v.entries ensures EntryOk(c, v, key) {
      assert EntryOk(c, w, key);
    }
  }

  lemma PutKeeps<V>(c: Config, w: World<V>, k: nat, victim: Option<string>)
    requires Inv(c, w) && Enabled(c, w, Put(k, victim))
    ensures Inv(c, Apply(c, w, Put(k, victim)))
  {
    var call := w.calls[k];
    assert CallOk(c, w.calls, w.now, call);
    var phase := Computed(call.phase.val, call.phase.readAt, w.now);
    CallStepKeeps(c, w, k, phase);
    var u, v := In(w, k, phase), Apply(c, w, Put(k, victim));
    StoredIsBounded(w.entries, c.ttl, c.max, call.key, call.phase.val, w.now, victim);
    assert v.calls == u.calls;
    forall key | key in v.entries ensures EntryOk(c, v, key) {
      assert key != call.key || c.ttl <= 0 ==> key in u.entries && EntryOk(c, u, key);
    }
  }

  lemma GetKeeps<V>(c: Config, w: World<V>, k: nat)
    requires Inv(c, w) && Enabled(c, w, Get(k))
    ensures Inv(c, Apply(c, w, Get(k)))
  {
    var call := w.calls[k];
    var phase := AfterGet(c, w, k);
    if phase.Hit? {
      assert EntryOk(c, w, call.key);
      assert CallOk(c, w.calls, w.now, w.calls[w.origin[call.key]]);
    }
    CallStepKeeps(c, w, k, phase);
  }

  lemma StepKeepsInv<V>(c: Config, w: World<V>, s: Step<V>)
    requires Inv(c, w)
    ensures Inv(c, Apply(c, w, s))
  {
    if Enabled(c, w, s) {
      match s
      case Tick(later) =>
        forall k | 0 <= k < |w.calls| ensures CallOk(c, w.calls, w.now + later, w.calls[k]) {
          assert CallOk(c, w.calls, w.now, w.calls[k]);
        }
        forall key | key in w.entries ensures EntryOk(c, Apply(c, w, s), key) {
          assert EntryOk(c, w, key);
        }
      case Begin(_, _) =>
        var v := Apply(c, w, s);
        forall k | 0 <= k < |v.calls| ensures CallOk(c, v.calls, v.now, v.calls[k]) {
          assert k < |w.calls| ==> CallOk(c, w.calls, w.now, v.calls[k]);
        }
        forall key | key in v.entries ensures EntryOk(c, v, key) {
          assert EntryOk(c, w, key);
        }
      case Get(k) => GetKeeps(c, w, k);
      case Fetch(k, reply) => CallStepKeeps(c, w, k, if reply.Some? then Fetched(reply.value, w.now) else Nothing);
      case Put(k, victim) => PutKeeps(c, w, k, victim);
    }
  }

  lemma {:induction false} EveryRunIsSafe<V>(c: Config, steps: seq<Step<V>>)
    ensures Inv(c, Run(c, steps))
  {
    if steps != [] {
      EveryRunIsSafe(c, steps[..|steps| - 1]);
      StepKeepsInv(c, Run(c, steps[..|steps| - 1]), steps[|steps| - 1]);
    }
  }

  /** The cache never exceeds its maximum (or one entry, if that is less), however the calls interleave. */
  lemma NeverTooLarge<V>(c: Config, steps: seq<Step<V>>)
    ensures |Run(c, steps).entries| <= Bound(c.max)
  {
    EveryRunIsSafe(c, steps);
  }

  /** A cached answer was fetched by a call for the same key, and is given at most one TTL after it was stored. */
  lemma HitsAreFresh<V>(c: Config, steps: seq<Step<V>>, k: nat)
    requires k < |Run(c, steps).calls| && Run(c, steps).calls[k].phase.Hit?
    ensures var calls := Run(c, steps).calls;
            var hit := calls[k].phase;
            && c.ttl > 0 && (calls[k].want.Some? ==> calls[k].want.value == hit.val)
            && Produced(calls, calls[k].key, hit.val, hit.from)
            && calls[hit.from].phase.putAt <= hit.at <= calls[hit.from].phase.putAt + c.ttl
            && calls[hit.from].phase.readAt <= calls[hit.from].phase.putAt
  {
    EveryRunIsSafe(c, steps);
    var w := Run(c, steps);
    assert CallOk(c, w.calls, w.now, w.calls[k]);
    assert CallOk(c, w.calls, w.now, w.calls[w.calls[k].phase.from]);
  }

  /** What a call has fetched and stored is never revised. */
  lemma {:induction false} ComputedIsFinal<V>(c: Config, before: seq<Step<V>>, after: seq<Step<V>>, k: nat)
    requires k < |Run(c, before).calls| && Run(c, before).calls[k].phase.Computed?
    ensures k < |Run(c, before + after).calls| && Run(c, before + after).calls[k] == Run(c, before).calls[k]
    decreases |after|
  {
    if after == [] {
      assert before + after == before;
    } else {
      var front := after[..|after| - 1];
      ComputedIsFinal(c, before, front, k);
      assert (before + after)[..|before + after| - 1] == before + front;
    }
  }

  /** Call k, if call `from` answers it through the cache, is answered at most one TTL after the value was read. */
  predicate Recent<V>(c: Config, calls: seq<Call<V>>, from: nat, k: nat) {
    k < |calls| && calls[k].phase.Hit? && calls[k].phase.from == from && from < |calls| && calls[from].phase.Computed? ==>
      calls[k].phase.at - calls[from].phase.readAt <= c.ttl
  }

  /** An entry that can still be served, with the call it came from. */
  predicate Served<V(==)>(c: Config, w: World<V>, key: string, from: nat) {
    && c.ttl > 0 && key in w.entries && w.now <= w.entries[key].expiresAt
    && key in w.origin && w.origin[key] == from && Produced(w.calls, key, w.entries[key].val, from)
  }

  /** Every reachable unexpired entry has an origin. */
  lemma EntriesHaveOrigins<V>(c: Config, steps: seq<Step<V>>, key: string)
    requires var w := Run(c, steps); c.ttl > 0 && key in w.entries && w.now <= w.entries[key].expiresAt
    ensures var w := Run(c, steps); key in w.origin && Served(c, w, key, w.origin[key])
  {
    EveryRunIsSafe(c, steps);
    assert EntryOk(c, Run(c, steps), key);
  }

  lemma RunSnoc<V>(c: Config, steps: seq<Step<V>>, s: Step<V>)
    ensures Run(c, steps + [s]) == Apply(c, Run(c, steps), s)
  {
    assert (steps + [s])[..|steps|] == steps;
  }

  /** Waiting for the last moment and asking then: the oldest an entry is ever served. */
  lemma LastMomentHit<V>(c: Config, steps: seq<Step<V>>, key: string, from: nat) returns (more: seq<Step<V>>, k: nat)
    requires Served(c, Run(c, steps), key, from)
    ensures var calls := Run(c, steps + more).calls;
            && k < |calls| && calls[k].phase.Hit? && calls[k].phase.from == from
            && calls[k].phase.at == Run(c, steps).entries[key].expiresAt
  {
    var w := Run(c, steps);
    k := |w.calls|;
    var s1, s2, s3 := Tick(w.entries[key].expiresAt - w.now), Begin(key, None), Get(k);
    more := [s1, s2, s3];
    RunSnoc(c, steps, s1);
    RunSnoc(c, steps + [s1], s2);
    RunSnoc(c, steps + [s1] + [s2], s3);
    assert steps + more == steps + [s1] + [s2] + [s3];
  }

  /** What was stored when it was read is served within one TTL of the read in every continuation. */
  lemma PromptIsRecent<V>(c: Config, steps: seq<Step<V>>, more: seq<Step<V>>, from: nat, k: nat)
    requires from < |Run(c, steps).calls| && Run(c, steps).calls[from].phase.Computed?
    requires Run(c, steps).calls[from].phase.putAt == Run(c, steps).calls[from].phase.readAt
    ensures Recent(c, Run(c, steps + more).calls, from, k)
  {
    ComputedIsFinal(c, steps, more, from);
    var calls := Run(c, steps + more).calls;
    if k < |calls| && calls[k].phase.Hit? {
      HitsAreFresh(c, steps + more, k);
    }
  }

  /** What was stored after it was read is served later than that in some continuation. */
  lemma LateIsNotRecent<V>(c: Config, steps: seq<Step<V>>, key: string, from: nat) returns (more: seq<Step<V>>, k: nat)
    requires Served(c, Run(c, steps), key, from)
    requires Run(c, steps).calls[from].phase.putAt != Run(c, steps).calls[from].phase.readAt
    ensures !Recent(c, Run(c, steps + more).calls, from, k)
  {
    EveryRunIsSafe(c, steps);
    assert EntryOk(c, Run(c, steps), key);
    assert CallOk(c, Run(c, steps).calls, Run(c, steps).now, Run(c, steps).calls[from]);
    more, k := LastMomentHit(c, steps, key, from);
    ComputedIsFinal(c, steps, more, from);
  }

  /** Exactly when an entry is served within one TTL of its read in every continuation: when the call it came from
      stored it at the time of the read. */
  lemma OneTtlIff<V>(c: Config, steps: seq<Step<V>>, key: string, from: nat)
    requires Served(c, Run(c, steps), key, from)
    ensures (forall more: seq<Step<V>>, k: nat :: Recent(c, Run(c, steps + more).calls, from, k)) <==>
            Run(c, steps).calls[from].phase.putAt == Run(c, steps).calls[from].phase.readAt
  {
    if Run(c, steps).calls[from].phase.putAt == Run(c, steps).calls[from].phase.readAt {
      forall more: seq<Step<V>>, k: nat ensures Recent(c, Run(c, steps + more).calls, from, k) {
        PromptIsRecent(c, steps, more, from, k);
      }
    } else {
      var more, k := LateIsNotRecent(c, steps, key, from);
    }
  }

  /** Exactly when a call is answered from the cache: its key has a live entry, whose value is the one it wants, if it
      wants one. Otherwise it goes on to its own fetch. */
  lemma GetHitsIff<V>(c: Config, steps: seq<Step<V>>, k: nat)
    requires k < |Run(c, steps).calls| && Run(c, steps).calls[k].phase.Start?
    ensures var w := Run(c, steps);
            var call := w.calls[k];
            var after := Apply(c, w, Get(k)).calls[k].phase;
            if c.ttl > 0 && call.key in w.entries && w.now <= w.entries[call.key].expiresAt
               && (call.want.Some? ==> call.want.value == w.entries[call.key].val)
            then after.Hit? && after.val == w.entries[call.key].val && after.at == w.now
            else after == Missed
  {
  }
}
