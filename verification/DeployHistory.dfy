/** Deploy history records (internal/deploy/versions.go): version numbering, the capped history, and
    which source blobs fall out of it. */
module DeployHistory {
  import opened Text

  /** What a version runs, and the blob its source is retained in. */
  datatype Source = Source(template: string, lane: string, hash: string, key: string, ref: string)

  /** VersionRecord; rolledBackFrom is 0 unless the version re-deploys an older one. */
  datatype Rec = Rec(version: int, source: Source, rolledBackFrom: int)

  const MAX_VERSIONS := 20

  function Highest(h: seq<Rec>): (n: int)
    ensures n >= 0
    ensures forall i :: 0 <= i < |h| ==> h[i].version <= n
    ensures n > 0 ==> exists i :: 0 <= i < |h| && h[i].version == n
  {
    if h == [] then 0
    else
      var m := Highest(h[..|h| - 1]);
      var last := h[|h| - 1].version;
      assert h[..|h| - 1] + [h[|h| - 1]] == h;
      if last > m then last else m
  }

  /** One past the highest version in history; 1 when empty. */
  function NextVersion(h: seq<Rec>): int { Highest(h) + 1 }

  method ComputeNextVersion(h: seq<Rec>) returns (n: int)
    ensures n == NextVersion(h)
    ensures forall i :: 0 <= i < |h| ==> h[i].version < n
  {
    n := 0;
    for i := 0 to |h|
      invariant n == Highest(h[..i])
    {
      assert h[..i + 1][..i] == h[..i];
      if h[i].version > n {
        n := h[i].version;
      }
    }
    assert h[..|h|] == h;
    n := n + 1;
  }

  function Keys(h: seq<Rec>): set<string> {
    set i | 0 <= i < |h| :: h[i].source.key
  }

  lemma KeyAt(h: seq<Rec>, i: nat)
    requires i < |h|
    ensures h[i].source.key in Keys(h)
  {
  }

  lemma KeysConcat(a: seq<Rec>, b: seq<Rec>)
    ensures Keys(a + b) == Keys(a) + Keys(b)
  {
    var ab := a + b;
    assert forall i | 0 <= i < |a| :: ab[i] == a[i];
    assert forall i | 0 <= i < |b| :: ab[|a| + i] == b[i];
    forall k ensures k in Keys(ab) <==> k in Keys(a) || k in Keys(b) {
      if k in Keys(ab) {
        var i :| 0 <= i < |ab| && ab[i].source.key == k;
        assert if i < |a| then a[i].source.key == k else b[i - |a|].source.key == k;
      }
    }
  }

  lemma KeysOfOne(rec: Rec)
    ensures Keys([rec]) == {rec.source.key}
  {
    KeyAt([rec], 0);
  }

  /** The newest max records of history plus rec. */
  function Kept(h: seq<Rec>, rec: Rec, max: nat): seq<Rec> {
    var all := h + [rec];
    if |all| <= max then all else all[|all| - max..]
  }

  function Dropped(h: seq<Rec>, rec: Rec, max: nat): seq<Rec> {
    var all := h + [rec];
    if |all| <= max then [] else all[..|all| - max]
  }

  /** The keys of `dropped` that are set and not in `kept`, in order. */
  function Unreferenced(dropped: seq<Rec>, kept: set<string>): seq<string> {
    if dropped == [] then []
    else
      var last := dropped[|dropped| - 1].source.key;
      Unreferenced(dropped[..|dropped| - 1], kept) + (if last != "" && last !in kept then [last] else [])
  }

  function Evicted(h: seq<Rec>, rec: Rec, max: nat): seq<string> {
    Unreferenced(Dropped(h, rec, max), Keys(Kept(h, rec, max)))
  }

  lemma {:induction false} UnreferencedExactly(dropped: seq<Rec>, kept: set<string>, k: string)
    ensures k in Unreferenced(dropped, kept) <==> k in Keys(dropped) && k != "" && k !in kept
  {
    if dropped != [] {
      var front := dropped[..|dropped| - 1];
      UnreferencedExactly(front, kept, k);
      if k in Keys(front) {
        var i :| 0 <= i < |front| && front[i].source.key == k;
        assert dropped[i].source.key == k;
      }
      if k in Keys(dropped) {
        var i :| 0 <= i < |dropped| && dropped[i].source.key == k;
        assert i < |front| ==> front[i].source.key == k;
      }
    }
  }

  /** Appending trims to the newest records and evicts exactly the blobs nobody retained refers to. */
  lemma EvictionIsExact(h: seq<Rec>, rec: Rec, max: nat, k: string)
    ensures k in Evicted(h, rec, max) <==> k in Keys(h + [rec]) && k != "" && k !in Keys(Kept(h, rec, max))
  {
    var kept, dropped := Kept(h, rec, max), Dropped(h, rec, max);
    UnreferencedExactly(dropped, Keys(kept), k);
    assert h + [rec] == dropped + kept;
    KeysConcat(dropped, kept);
  }

  /** Nothing is forgotten early: what is kept is the newest min(|h| + 1, max) of h and rec, in order, so a record is
      dropped exactly when at least max records are newer. */
  lemma KeptIsNewest(h: seq<Rec>, rec: Rec, max: nat)
    ensures |Kept(h, rec, max)| == if |h| + 1 < max then |h| + 1 else max
    ensures Kept(h, rec, max) == (h + [rec])[|h| + 1 - |Kept(h, rec, max)|..]
    ensures Dropped(h, rec, max) + Kept(h, rec, max) == h + [rec]
    ensures forall r :: r in h + [rec] ==> r in Dropped(h, rec, max) || r in Kept(h, rec, max)
    ensures |Dropped(h, rec, max)| > 0 ==> |Kept(h, rec, max)| == max
  {
  }

  /** appendCapped with its copy, its lookup table and its eviction loop: the newest min(|history| + 1, max) records
      in order, and the set keys of the others that no kept record refers to. */
  method AppendCapped(history: seq<Rec>, rec: Rec, max: nat) returns (kept: seq<Rec>, evictedKeys: seq<string>)
    ensures kept == Kept(history, rec, max)
    ensures evictedKeys == Evicted(history, rec, max)
    ensures |kept| == if |history| + 1 < max then |history| + 1 else max
    ensures kept == (history + [rec])[|history| + 1 - |kept|..]
    ensures forall k :: k in evictedKeys <==>
              k != "" && (exists i :: 0 <= i < |history| + 1 - |kept| && (history + [rec])[i].source.key == k)
              && !(exists i :: 0 <= i < |kept| && kept[i].source.key == k)
  {
    forall k ensures k in Evicted(history, rec, max) <==>
                       k != "" && (exists i :: 0 <= i < |history| + 1 - |Kept(history, rec, max)| && (history + [rec])[i].source.key == k)
                       && !(exists i :: 0 <= i < |Kept(history, rec, max)| && Kept(history, rec, max)[i].source.key == k)
    {
      EvictedFrom(history, rec, max, k);
    }
    var all := history + [rec];
    if |all| <= max {
      return all, [];
    }
    var dropped := all[..|all| - max];
    kept := all[|all| - max..];
    var keptKeys: set<string> := {};
    for i := 0 to |kept|
      invariant keptKeys == Keys(kept[..i])
    {
      KeysGrow(kept, i);
      keptKeys := keptKeys + {kept[i].source.key};
    }
    assert kept[..|kept|] == kept;
    evictedKeys := [];
    for i := 0 to |dropped|
      invariant evictedKeys == Unreferenced(dropped[..i], keptKeys)
    {
      assert dropped[..i + 1][..i] == dropped[..i];
      var k := dropped[i].source.key;
      if k != "" && k !in keptKeys {
        evictedKeys := evictedKeys + [k];
      }
    }
    assert dropped[..|dropped|] == dropped;
  }

  lemma EvictedFrom(h: seq<Rec>, rec: Rec, max: nat, k: string)
    ensures k in Evicted(h, rec, max) <==>
              k != "" && (exists i :: 0 <= i < |h| + 1 - |Kept(h, rec, max)| && (h + [rec])[i].source.key == k)
              && !(exists i :: 0 <= i < |Kept(h, rec, max)| && Kept(h, rec, max)[i].source.key == k)
  {
    var dropped := Dropped(h, rec, max);
    UnreferencedExactly(dropped, Keys(Kept(h, rec, max)), k);
    KeptIsNewest(h, rec, max);
    assert forall i :: 0 <= i < |dropped| ==> dropped[i] == (h + [rec])[i];
    if k in Keys(dropped) {
      var i :| 0 <= i < |dropped| && dropped[i].source.key == k;
      assert (h + [rec])[i].source.key == k;
    }
    if i :| 0 <= i < |h| + 1 - |Kept(h, rec, max)| && (h + [rec])[i].source.key == k {
      assert dropped[i].source.key == k;
    }
  }

  lemma KeysGrow(h: seq<Rec>, i: nat)
    requires i < |h|
    ensures Keys(h[..i + 1]) == Keys(h[..i]) + {h[i].source.key}
  {
    forall k ensures k in Keys(h[..i + 1]) <==> k in Keys(h[..i]) || k == h[i].source.key {
      if k in Keys(h[..i + 1]) {
        var j :| 0 <= j < i + 1 && h[..i + 1][j].source.key == k;
        assert j < i ==> h[..i][j].source.key == k;
      }
      if k in Keys(h[..i]) {
        var j :| 0 <= j < i && h[..i][j].source.key == k;
        assert h[..i + 1][j].source.key == k;
      }
      assert h[..i + 1][i] == h[i];
    }
  }

  ghost predicate Increasing(h: seq<Rec>) {
    forall i, j :: 0 <= i < j < |h| ==> h[i].version < h[j].version
  }

  /** A stored history: non-empty, capped, and strictly increasing from 1 on. */
  ghost predicate HistoryOk(h: seq<Rec>) {
    1 <= |h| <= MAX_VERSIONS && Increasing(h) && h[0].version >= 1
  }

  function Newest(h: seq<Rec>): Rec
    requires h != []
  {
    h[|h| - 1]
  }

  /** The highest version is the newest one, so the counter never goes back, whatever was evicted. */
  lemma NewestIsHighest(h: seq<Rec>)
    requires HistoryOk(h)
    ensures NextVersion(h) == Newest(h).version + 1
  {
  }

  lemma KeptKeys(h: seq<Rec>, rec: Rec, max: nat)
    ensures Keys(Kept(h, rec, max)) <= Keys(h) + {rec.source.key}
  {
    KeysConcat(h, [rec]);
    KeysOfOne(rec);
    KeysConcat(Dropped(h, rec, max), Kept(h, rec, max));
    assert h + [rec] == Dropped(h, rec, max) + Kept(h, rec, max);
  }

  /** Recording the next version keeps a history sound, with the new record newest. */
  lemma KeptIsOk(h: seq<Rec>, rec: Rec)
    requires h == [] || HistoryOk(h)
    requires rec.version == NextVersion(h)
    ensures HistoryOk(Kept(h, rec, MAX_VERSIONS)) && Newest(Kept(h, rec, MAX_VERSIONS)) == rec
  {
    var all := h + [rec];
    assert forall i | 0 <= i < |h| :: h[i].version < rec.version;
    assert Increasing(all);
    var kept := Kept(h, rec, MAX_VERSIONS);
    var skip := |all| - |kept|;
    assert forall i | 0 <= i < |kept| :: kept[i] == all[skip + i];
  }

  /** Rollback's search: the last record of the wanted version. */
  function FindVersion(h: seq<Rec>, version: int): (i: int)
    ensures -1 <= i < |h|
    ensures i >= 0 ==> h[i].version == version
    ensures forall j: nat :: i < j < |h| ==> h[j].version != version
  {
    if h == [] then -1
    else if h[|h| - 1].version == version then |h| - 1
    else FindVersion(h[..|h| - 1], version)
  }

  /** The record a rollback to h[i] appends: a new version of the same source. */
  function RollbackRec(h: seq<Rec>, i: nat): Rec
    requires i < |h|
  {
    Rec(NextVersion(h), h[i].source, h[i].version)
  }

  /** Rolling back re-deploys exactly the retained source, as a version above all others; the source
      stays retained even when the record it came from is the one that falls out. */
  lemma RollbackRedeploys(h: seq<Rec>, i: nat)
    requires HistoryOk(h) && i < |h|
    ensures var kept := Kept(h, RollbackRec(h, i), MAX_VERSIONS);
            && HistoryOk(kept) && Newest(kept).source == h[i].source && Newest(kept).version > Newest(h).version
            && h[i].source.key !in Evicted(h, RollbackRec(h, i), MAX_VERSIONS)
  {
    var rec := RollbackRec(h, i);
    KeptIsOk(h, rec);
    NewestIsHighest(h);
    var kept := Kept(h, rec, MAX_VERSIONS);
    KeyAt(kept, |kept| - 1);
    EvictionIsExact(h, rec, MAX_VERSIONS, h[i].source.key);
  }

  method FindForRollback(h: seq<Rec>, version: int) returns (found: int)
    ensures found == FindVersion(h, version)
    ensures Increasing(h) ==> (found >= 0 <==> exists i :: 0 <= i < |h| && h[i].version == version)
  {
    found := -1;
    for i := 0 to |h|
      invariant found == FindVersion(h[..i], version)
      invariant found < 0 ==> forall j :: 0 <= j < i ==> h[j].version != version
    {
      assert h[..i + 1][..i] == h[..i];
      if h[i].version == version {
        found := i;
      }
    }
    assert h[..|h|] == h;
  }

  /** newVersionKey: "<name>.v<version>.<nonce>". */
  function VersionKey(name: string, version: int, nonce: string): string {
    name + "." + ("v" + Decimal(version)) + "." + nonce
  }

  /** App names carry no dot, so a version key is never an app's legacy key, and keys of different
      apps or versions never collide. */
  lemma VersionKeysAreSeparate(name: string, v: int, nonce: string, name': string, v': int, nonce': string)
    requires '.' !in name && '.' !in name'
    ensures VersionKey(name, v, nonce) != name'
    ensures VersionKey(name, v, nonce) == VersionKey(name', v', nonce') ==> name == name' && v == v' && nonce == nonce'
  {
    assert VersionKey(name, v, nonce)[|name|] == '.';
    if VersionKey(name, v, nonce) == VersionKey(name', v', nonce') {
      var a, b := "v" + Decimal(v), "v" + Decimal(v');
      SplitKey(name, a, nonce);
      SplitKey(name', b, nonce');
      SplitAtFirst('.', name, a + ['.'] + nonce, name', b + ['.'] + nonce');
      NoDotInVersion(v);
      NoDotInVersion(v');
      SplitAtFirst('.', a, nonce, b, nonce');
      assert a[1..] == Decimal(v) && b[1..] == Decimal(v');
      DecimalInjective(v, v');
    }
  }

  lemma NoDotInVersion(v: int)
    ensures '.' !in "v" + Decimal(v)
  {
    var a := "v" + Decimal(v);
    assert forall i :: 0 <= i < |Decimal(v)| ==> a[i + 1] == Decimal(v)[i];
    forall i | 0 <= i < |a| ensures a[i] != '.' {
      assert i > 0 ==> IsDigit(a[i]) || a[i] == '-';
    }
  }

  lemma SplitKey(name: string, a: string, nonce: string)
    ensures name + "." + a + "." + nonce == name + ['.'] + (a + ['.'] + nonce)
  {
  }
}
