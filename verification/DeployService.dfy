/** The deploy service run one operation at a time (internal/deploy/service.go, versions.go and
    query.go): when every call succeeds, the stored version blobs of an app are exactly the ones its
    history refers to, so nothing leaks and nothing is missing. */
module DeployService {
  import opened Wrappers
  import opened DeployHistory
  import opened DeployProtocol

  /** What a delete of these keys leaves. */
  function Without(blobs: set<Key>, keys: seq<Key>): set<Key> {
    set k | k in blobs && k !in keys
  }

  /** The version is retained and has a source. */
  predicate CanRollBack(h: seq<Rec>, version: int) {
    FindVersion(h, version) >= 0 && h[FindVersion(h, version)].source.ref != ""
  }

  /** The object's history is h with one more record, short of the oldest if that makes more than twenty; the spec runs
      the new record. */
  ghost predicate AppendedTo(h: seq<Rec>, cr: Cr, rec: Rec) {
    && cr.history == (if |h| < 20 then h + [rec] else (h + [rec])[|h| - 19..])
    && cr.ref == rec.source.ref && cr.template == rec.source.template && cr.lane == rec.source.lane
  }

  lemma AppendedIs(crs: map<Name, Cr>, minted: map<Key, Name>, nextRv: nat, name: Name, rec: Rec)
    requires AllOk(crs, minted, nextRv) && rec.version == NextVersion(HistoryOf(if name in crs then Some(crs[name]) else None))
    ensures var base := if name in crs then Some(crs[name]) else None;
            var h := HistoryOf(base);
            AppendedTo(h, Recorded(base, rec, nextRv), rec) && rec.version == (if h == [] then 1 else Newest(h).version + 1)
  {
    var base := if name in crs then Some(crs[name]) else None;
    KeptIsNewest(HistoryOf(base), rec, MAX_VERSIONS);
    if base.Some? {
      assert CrOk(base.value, name, minted, nextRv);
      NewestIsHighest(base.value.history);
    }
  }

  class Service {
    var crs: map<Name, Cr>
    var blobs: set<Key>
    var minted: map<Key, Name>
    var nextRv: nat

    function StoredFor(n: Name): set<Key>
      reads this
    {
      set k | k in blobs && k in minted && minted[k] == n
    }

    function Referenced(n: Name): set<Key>
      reads this
    {
      if n in crs then Keys(crs[n].history) else {}
    }

    /** Objects are sound, and a version blob is stored exactly when its app's history refers to it. */
    ghost predicate Valid()
      reads this
    {
      && AllOk(crs, minted, nextRv)
      && StoredOnlyIn(crs, blobs, minted)
    }

    /** App by app: the stored version blobs are exactly the retained ones. */
    lemma StoredAreReferenced(n: Name)
      requires Valid()
      ensures StoredFor(n) == Referenced(n)
    {
      if n in crs {
        assert CrOk(crs[n], n, minted, nextRv);
      }
    }

    constructor ()
      ensures Valid() && crs == map[] && blobs == {}
    {
      crs, blobs, minted, nextRv := map[], {}, map[], 0;
    }

    method DeleteBlobs(keys: seq<Key>)
      modifies this`blobs
      ensures blobs == Without(old(blobs), keys)
    {
      for i := 0 to |keys|
        invariant blobs == Without(old(blobs), keys[..i])
      {
        assert keys[..i + 1] == keys[..i] + [keys[i]];
        blobs := blobs - {keys[i]};
      }
      assert keys[..|keys|] == keys;
    }

    /** Write a version onto the object. */
    method WriteRecord(name: Name, rec: Rec) returns (evicted: seq<Key>)
      modifies this`crs, this`nextRv
      ensures crs == old(crs)[name := Recorded(old(Get(name)), rec, old(nextRv))] && nextRv == old(nextRv) + 1
      ensures evicted == Evicted(HistoryOf(old(Get(name))), rec, MAX_VERSIONS)
    {
      var base := Get(name);
      var kept;
      kept, evicted := AppendCapped(HistoryOf(base), rec, MAX_VERSIONS);
      var issued := if base.Some? then base.value.issued else [];
      crs := crs[name := Cr(nextRv, rec.source.template, rec.source.lane, rec.source.ref, kept, issued + [rec])];
      nextRv := nextRv + 1;
    }

    /** Record a version on the object and prune the blobs that fall out of its history. The record's
        blob is stored already, and is new or one the history refers to. */
    method Record(name: Name, rec: Rec)
      requires AllOk(crs, minted, nextRv)
      requires '.' !in name && '.' in rec.source.key && rec.source.key in minted && minted[rec.source.key] == name
      requires rec.source.key in blobs && AllStored(crs, blobs) && OnlyStored(crs, blobs, minted, rec.source.key)
      requires rec.version == NextVersion(HistoryOf(Get(name)))
      modifies this`crs, this`blobs, this`nextRv
      ensures Valid() && crs == old(crs)[name := Recorded(old(Get(name)), rec, old(nextRv))]
    {
      ghost var base := Get(name);
      var evicted := WriteRecord(name, rec);
      DeleteBlobs(evicted);
      RecordingIsExact(old(crs), old(blobs), minted, old(nextRv), name, base, rec, crs, blobs);
    }

    /** Deploy or redeploy: store the source, record the version, prune what fell out. */
    method Deploy(name: Name, source: Source)
      requires Valid() && '.' !in name && '.' in source.key && source.key !in minted
      modifies this
      ensures Valid() && minted == old(minted)[source.key := name]
      ensures crs == old(crs)[name := Recorded(old(Get(name)), Rec(NextVersion(HistoryOf(old(Get(name)))), source, 0), old(nextRv))]
      ensures var h := if name in old(crs) then old(crs)[name].history else [];
              AppendedTo(h, crs[name], Rec(if h == [] then 1 else Newest(h).version + 1, source, 0))
    {
      ghost var h := HistoryOf(Get(name));
      AppendedIs(crs, minted, nextRv, name, Rec(NextVersion(h), source, 0));
      var version := ComputeNextVersion(HistoryOf(Get(name)));
      blobs := blobs + {source.key};
      minted := minted[source.key := name];
      MintedFits(crs, old(blobs), old(minted), nextRv, source.key, name);
      Record(name, Rec(version, source, 0));
    }

    /** Re-deploy the source of a retained version as a new version; refused if it is not retained. */
    method Rollback(name: Name, version: int) returns (ok: bool)
      requires Valid()
      modifies this
      ensures Valid()
      ensures ok <==> name in old(crs) && CanRollBack(old(crs)[name].history, version)
      ensures !ok ==> crs == old(crs) && blobs == old(blobs)
      ensures ok ==> var h := old(crs)[name].history;
                     crs == old(crs)[name := Recorded(Some(old(crs)[name]), RollbackRec(h, FindVersion(h, version)), old(nextRv))]
      ensures ok ==> var h := old(crs)[name].history;
                     AppendedTo(h, crs[name], Rec(Newest(h).version + 1, h[FindVersion(h, version)].source, version))
    {
      if name !in crs {
        return false;
      }
      var history := crs[name].history;
      assert CrOk(crs[name], name, minted, nextRv);
      var i := FindForRollback(history, version);
      if i < 0 || history[i].source.ref == "" {
        return false;
      }
      NewestIsHighest(history);
      Redeploy(name, i);
      ok := true;
    }

    /** Record the source of retained record i as a new version. */
    method Redeploy(name: Name, i: nat)
      requires Valid() && name in crs && i < |crs[name].history|
      modifies this
      ensures Valid() && var h := old(crs)[name].history;
              && crs == old(crs)[name := Recorded(Some(old(crs)[name]), RollbackRec(h, i), old(nextRv))]
              && AppendedTo(h, crs[name], RollbackRec(h, i))
    {
      var history := crs[name].history;
      assert CrOk(crs[name], name, minted, nextRv);
      KeyAt(history, i);
      var next := ComputeNextVersion(history);
      AppendedIs(crs, minted, nextRv, name, Rec(next, history[i].source, history[i].version));
      Record(name, Rec(next, history[i].source, history[i].version));
    }

    /** Delete the object and every retained source, then the legacy per-name blob. */
    method Delete(name: Name) returns (ok: bool)
      requires Valid()
      modifies this
      ensures Valid() && (ok <==> name in old(crs))
      ensures crs == old(crs) - {name} && StoredFor(name) == {}
      ensures !ok ==> blobs == old(blobs)
    {
      ok := name in crs;
      if !ok {
        StoredAreReferenced(name);
        assert crs - {name} == crs;
        return;
      }
      var read := crs[name];
      assert CrOk(read, name, minted, nextRv);
      crs := crs - {name};
      var keys := KeysToDelete(name, read);
      DeleteBlobs(keys);
      forall k ensures k in keys <==> k == name || (k in Keys(read.history) && k != "") {
        UnreferencedExactly(read.history, {}, k);
      }
      forall n, k | n in crs && k in Keys(crs[n].history) ensures k in blobs {
        assert CrOk(crs[n], n, minted, nextRv);
      }
      StoredAreReferenced(name);
    }

    function Get(name: Name): Option<Cr>
      reads this
    {
      if name in crs then Some(crs[name]) else None
    }
  }

  /** Minted blobs are stored exactly when their app's history refers to them. */
  ghost predicate StoredOnlyIn(crs: map<Name, Cr>, blobs: set<Key>, minted: map<Key, Name>) {
    && (forall k :: k in blobs && k in minted ==> minted[k] in crs && k in Keys(crs[minted[k]].history))
    && AllStored(crs, blobs)
  }

  ghost predicate AllStored(crs: map<Name, Cr>, blobs: set<Key>) {
    forall n, k :: n in crs && k in Keys(crs[n].history) ==> k in blobs
  }

  /** As far as keys other than `extra` are concerned, stored blobs are referred to. */
  ghost predicate OnlyStored(crs: map<Name, Cr>, blobs: set<Key>, minted: map<Key, Name>, extra: Key) {
    forall k :: k in blobs && k in minted && k != extra ==> minted[k] in crs && k in Keys(crs[minted[k]].history)
  }

  ghost predicate AllOk(crs: map<Name, Cr>, minted: map<Key, Name>, nextRv: nat) {
    forall n :: n in crs ==> CrOk(crs[n], n, minted, nextRv)
  }

  lemma MintedFits(crs: map<Name, Cr>, blobs: set<Key>, minted: map<Key, Name>, nextRv: nat, key: Key, name: Name)
    requires AllOk(crs, minted, nextRv)
    requires StoredOnlyIn(crs, blobs, minted) && key !in minted
    ensures AllOk(crs, minted[key := name], nextRv)
    ensures AllStored(crs, blobs + {key}) && OnlyStored(crs, blobs + {key}, minted[key := name], key)
  {
    forall n | n in crs ensures CrOk(crs[n], n, minted[key := name], nextRv) {
      assert CrOk(crs[n], n, minted, nextRv);
    }
  }

  /** Recording a version of `name` and deleting what it evicts keeps blobs and histories matched. The
      new record's key is stored, and either brand new or already in the history. */
  lemma RecordingIsExact(crs: map<Name, Cr>, blobs: set<Key>, minted: map<Key, Name>, nextRv: nat, name: Name, base: Option<Cr>, rec: Rec,
      crs': map<Name, Cr>, left: set<Key>)
    requires AllOk(crs, minted, nextRv) && base == (if name in crs then Some(crs[name]) else None)
    requires '.' !in name && '.' in rec.source.key && rec.source.key in minted && minted[rec.source.key] == name
    requires rec.source.key in blobs && AllStored(crs, blobs) && OnlyStored(crs, blobs, minted, rec.source.key)
    requires rec.version == NextVersion(HistoryOf(base))
    requires crs' == crs[name := Recorded(base, rec, nextRv)]
    requires left == Without(blobs, Evicted(HistoryOf(base), rec, MAX_VERSIONS))
    ensures AllOk(crs', minted, nextRv + 1) && StoredOnlyIn(crs', left, minted)
  {
    var recorded := Recorded(base, rec, nextRv);
    RecordedIsOk(base, rec, name, minted, nextRv);
    RecordedFits(crs, minted, nextRv, name, recorded);
    EvictedAreTheLost(base, rec, name, minted, nextRv);
    forall k | k in HistoryKeys(crs, name) ensures k in minted && minted[k] == name {
      assert CrOk(crs[name], name, minted, nextRv);
    }
    assert HistoryKeys(crs, name) == Keys(HistoryOf(base)) || base.None?;
    PruningIsExact(crs, recorded, blobs, minted, nextRv, name, Evicted(HistoryOf(base), rec, MAX_VERSIONS), rec.source.key);
  }

  lemma RecordedFits(crs: map<Name, Cr>, minted: map<Key, Name>, nextRv: nat, name: Name, recorded: Cr)
    requires AllOk(crs, minted, nextRv) && CrOk(recorded, name, minted, nextRv + 1)
    ensures AllOk(crs[name := recorded], minted, nextRv + 1)
  {
    forall n | n in crs && n != name ensures CrOk(crs[n], n, minted, nextRv + 1) {
      assert CrOk(crs[n], n, minted, nextRv);
    }
  }

  function HistoryKeys(crs: map<Name, Cr>, name: Name): set<Key> { if name in crs then Keys(crs[name].history) else {} }

  lemma EvictedAreTheLost(base: Option<Cr>, rec: Rec, name: Name, minted: map<Key, Name>, nextRv: nat)
    requires base.Some? ==> CrOk(base.value, name, minted, nextRv)
    requires rec.source.key != ""
    ensures forall k :: k in Evicted(HistoryOf(base), rec, MAX_VERSIONS) ==>
              k in minted && minted[k] == name && k !in Keys(Recorded(base, rec, nextRv).history)
    ensures forall k :: k in Keys(HistoryOf(base)) + {rec.source.key} && k !in Keys(Recorded(base, rec, nextRv).history) ==>
              k in Evicted(HistoryOf(base), rec, MAX_VERSIONS)
  {
    var h := HistoryOf(base);
    forall k | k in Evicted(h, rec, MAX_VERSIONS) ensures k in minted && minted[k] == name && k !in Keys(Recorded(base, rec, nextRv).history) {
      EvictedAreOut(base, rec, nextRv, k);
    }
    forall k | k in Keys(h) + {rec.source.key} && k !in Keys(Kept(h, rec, MAX_VERSIONS)) ensures k in Evicted(h, rec, MAX_VERSIONS) {
      KeysConcat(h, [rec]);
      KeysOfOne(rec);
      EvictionIsExact(h, rec, MAX_VERSIONS, k);
    }
  }

  /** Replacing one history and deleting exactly the keys it lost. */
  lemma PruningIsExact(crs: map<Name, Cr>, recorded: Cr, blobs: set<Key>, minted: map<Key, Name>, nextRv: nat, name: Name, evicted: seq<Key>, key: Key)
    requires AllOk(crs, minted, nextRv) && AllStored(crs, blobs) && OnlyStored(crs, blobs, minted, key)
    requires key in blobs && key in minted && minted[key] == name
    requires Keys(recorded.history) <= HistoryKeys(crs, name) + {key}
    requires forall k :: k in evicted ==> k in minted && minted[k] == name && k !in Keys(recorded.history)
    requires forall k :: k in HistoryKeys(crs, name) + {key} && k !in Keys(recorded.history) ==> k in evicted
    ensures StoredOnlyIn(crs[name := recorded], Without(blobs, evicted), minted)
  {
    var crs', left := crs[name := recorded], Without(blobs, evicted);
    forall n, k | n in crs' && k in Keys(crs'[n].history) ensures k in left {
      if n != name {
        assert CrOk(crs[n], n, minted, nextRv);
      }
    }
    forall k | k in left && k in minted ensures minted[k] in crs' && k in Keys(crs'[minted[k]].history) {
      if minted[k] == name {
        assert k in HistoryKeys(crs, name) + {key};
      }
    }
  }
}
