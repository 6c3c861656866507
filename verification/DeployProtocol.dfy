/** Deploys, redeploys, rollbacks and deletes racing over one custom-resource store and one blob store
    (internal/deploy/service.go, versions.go and query.go).

    A process reads the object, writes blobs, writes the object under optimistic concurrency, and then
    deletes blobs one by one. Any step of any process may come next, any call may fail, an object write may take
    effect and still be answered with an error, and a process may stop anywhere. */
module DeployProtocol {
  import opened Wrappers
  import opened DeployHistory

  type Name = string
  type Key = string
  type Pid = nat

  /** The stored VibedApp, as far as deploys are concerned. `issued` lists every record ever written to
      this object, including the evicted ones. */
  datatype Cr = Cr(rv: nat, template: string, lane: string, ref: string, history: seq<Rec>, issued: seq<Rec>)

  datatype Proc =
    | Deploying(name: Name, base: Option<Cr>)                // the object was read (None: not found)
    | Uploaded(name: Name, base: Option<Cr>, rec: Rec)       // the source blob is stored
    | RollingBack(name: Name, read: Cr)
    | Deleting(name: Name, read: Cr)
    | Cleaning(keys: seq<Key>)                               // blobs left to delete, best effort

  datatype World = World(crs: map<Name, Cr>, blobs: set<Key>, minted: map<Key, Name>, nextRv: nat, procs: map<Pid, Proc>)

  const EMPTY := World(map[], {}, map[], 0, map[])

  /** How an object write ended: done, refused without effect, or done and answered with an error. */
  datatype Answer = Done | Refused | Lost

  datatype Step =
    | ReadForDeploy(p: Pid, name: Name)
    | PutBlob(p: Pid, source: Source)
    | WriteDeploy(p: Pid, answer: Answer)
    | ReadForRollback(p: Pid, name: Name)
    | WriteRollback(p: Pid, version: int, answer: Answer)
    | ReadForDelete(p: Pid, name: Name)
    | DeleteCr(p: Pid, answer: Answer)
    | CleanOne(p: Pid, ok: bool)
    | Stop(p: Pid)

  function Current(w: World, name: Name): Option<Cr> { if name in w.crs then Some(w.crs[name]) else None }

  function HistoryOf(base: Option<Cr>): seq<Rec> { if base.Some? then base.value.history else [] }

  /** The object after recording rec on top of base. */
  function Recorded(base: Option<Cr>, rec: Rec, rv: nat): Cr {
    var issued := if base.Some? then base.value.issued else [];
    Cr(rv, rec.source.template, rec.source.lane, rec.source.ref,
       Kept(HistoryOf(base), rec, MAX_VERSIONS), issued + [rec])
  }

  function Move(w: World, p: Pid, q: Proc): World { w.(procs := w.procs[p := q]) }

  function Quit(w: World, p: Pid): World { w.(procs := w.procs - {p}) }

  /** Write rec onto the object read as base, then turn to the blobs that fell out of the history. */
  function CommitRec(w: World, p: Pid, name: Name, base: Option<Cr>, rec: Rec): World {
    w.(crs := w.crs[name := Recorded(base, rec, w.nextRv)], nextRv := w.nextRv + 1,
       procs := w.procs[p := Cleaning(Evicted(HistoryOf(base), rec, MAX_VERSIONS))])
  }

  /** Client.Create takes effect only while no such object exists. On any error the new blob is deleted. */
  function WriteNew(w: World, p: Pid, name: Name, rec: Rec, answer: Answer): World {
    if answer.Refused? || name in w.crs then Move(w, p, Cleaning([rec.source.key]))
    else if answer.Lost? then Move(CommitRec(w, p, name, None, rec), p, Cleaning([rec.source.key]))
    else CommitRec(w, p, name, None, rec)
  }

  /** Client.Update takes effect only while the version read is still current. On any error nothing is cleaned up. */
  function WriteOver(w: World, p: Pid, name: Name, read: Cr, rec: Rec, answer: Answer): World {
    if answer.Refused? || name !in w.crs || w.crs[name].rv != read.rv then Quit(w, p)
    else if answer.Lost? then Quit(CommitRec(w, p, name, Some(read), rec), p)
    else CommitRec(w, p, name, Some(read), rec)
  }

  /** Client.Delete; only when it is answered without error are the blobs cleaned up. */
  function DeleteObject(w: World, p: Pid, name: Name, read: Cr, answer: Answer): World {
    if answer.Refused? then Quit(w, p)
    else if answer.Lost? then Quit(w.(crs := w.crs - {name}), p)
    else Move(w.(crs := w.crs - {name}), p, Cleaning(KeysToDelete(name, read)))
  }

  /** The blobs a delete cleans up: every retained version's, then the legacy per-name one. */
  function KeysToDelete(name: Name, read: Cr): seq<Key> {
    Unreferenced(read.history, {}) + [name]
  }

  ghost predicate Enabled(w: World, s: Step) {
    match s
    case ReadForDeploy(p, name) => p !in w.procs && '.' !in name
    // newVersionKey: never issued before; a version key has a dot, an app name has none
    case PutBlob(p, source) => p in w.procs && w.procs[p].Deploying? && source.key !in w.minted && '.' in source.key
    case WriteDeploy(p, _) => p in w.procs && w.procs[p].Uploaded?
    case ReadForRollback(p, name) => p !in w.procs && name in w.crs
    case WriteRollback(p, version, _) =>
      && p in w.procs && w.procs[p].RollingBack?
      && var i := FindVersion(w.procs[p].read.history, version); i >= 0 && w.procs[p].read.history[i].source.ref != ""
    case ReadForDelete(p, name) => p !in w.procs && name in w.crs
    case DeleteCr(p, _) => p in w.procs && w.procs[p].Deleting?
    case CleanOne(p, _) => p in w.procs && w.procs[p].Cleaning? && w.procs[p].keys != []
    case Stop(p) => p in w.procs
  }

  ghost function Apply(w: World, s: Step): World {
    if !Enabled(w, s) then w
    else match s
      case ReadForDeploy(p, name) => Move(w, p, Deploying(name, Current(w, name)))
      case PutBlob(p, source) =>
        var d := w.procs[p];
        var rec := Rec(NextVersion(HistoryOf(d.base)), source, 0);
        Move(w.(blobs := w.blobs + {source.key}, minted := w.minted[source.key := d.name]), p, Uploaded(d.name, d.base, rec))
      case WriteDeploy(p, answer) =>
        var d := w.procs[p];
        if d.base.None? then WriteNew(w, p, d.name, d.rec, answer) else WriteOver(w, p, d.name, d.base.value, d.rec, answer)
      case ReadForRollback(p, name) => Move(w, p, RollingBack(name, w.crs[name]))
      case WriteRollback(p, version, answer) =>
        var d := w.procs[p];
        WriteOver(w, p, d.name, d.read, RollbackRec(d.read.history, FindVersion(d.read.history, version)), answer)
      case ReadForDelete(p, name) => Move(w, p, Deleting(name, w.crs[name]))
      case DeleteCr(p, answer) => DeleteObject(w, p, w.procs[p].name, w.procs[p].read, answer)
      case CleanOne(p, ok) =>
        var keys := w.procs[p].keys;
        Move(w.(blobs := if ok then w.blobs - {keys[0]} else w.blobs), p, Cleaning(keys[1..]))
      case Stop(p) => Quit(w, p)
  }

  ghost function Run(steps: seq<Step>): World {
    if steps == [] then EMPTY else Apply(Run(steps[..|steps| - 1]), steps[|steps| - 1])
  }

  // ---- invariants ----

  /** The newest twenty. */
  function Tail(s: seq<Rec>): (t: seq<Rec>)
    ensures t == if |s| <= 20 then s else s[|s| - 20..]
  {
    if |s| <= 20 then s else s[|s| - 20..]
  }

  /** The history is the newest twenty of the records ever written, and their versions only went up. */
  ghost predicate Rising(issued: seq<Rec>, history: seq<Rec>) { Increasing(issued) && history == Tail(issued) }

  lemma TailSnoc(s: seq<Rec>, x: Rec)
    ensures Tail(s + [x]) == Tail(Tail(s) + [x])
  {
  }

  lemma IncreasingGrows(issued: seq<Rec>, rec: Rec)
    requires Increasing(issued) && (issued != [] ==> issued[|issued| - 1].version < rec.version)
    ensures Increasing(issued + [rec])
  {
  }

  lemma RisingGrows(issued: seq<Rec>, history: seq<Rec>, rec: Rec)
    requires Rising(issued, history) && (history == [] || HistoryOk(history)) && rec.version == NextVersion(history)
    ensures Rising(issued + [rec], Kept(history, rec, MAX_VERSIONS))
  {
    TailSnoc(issued, rec);
    assert Kept(history, rec, MAX_VERSIONS) == Tail(history + [rec]);
    if issued != [] {
      assert issued[|issued| - 1] == Newest(history);
      NewestIsHighest(history);
    }
    IncreasingGrows(issued, rec);
  }

  /** A version of the object named n: sound history, spec pointing at the newest record, and
      keys that were minted for this app. */
  ghost predicate CrOk(cr: Cr, n: Name, minted: map<Key, Name>, nextRv: nat) {
    && HistoryOk(cr.history) && '.' !in n && cr.rv < nextRv
    && cr.ref == Newest(cr.history).source.ref
    && cr.template == Newest(cr.history).source.template && cr.lane == Newest(cr.history).source.lane
    && forall k :: k in Keys(cr.history) ==> '.' in k && k in minted && minted[k] == n
  }

  /** The object a process read: if its resource version is still current, so is everything else. */
  ghost predicate ReadOk(w: World, name: Name, read: Cr) {
    CrOk(read, name, w.minted, w.nextRv) && (name in w.crs && w.crs[name].rv == read.rv ==> w.crs[name] == read)
  }

  function Base(q: Proc): Option<Cr> {
    match q
    case Deploying(_, b) => b
    case Uploaded(_, b, _) => b
    case RollingBack(_, r) => Some(r)
    case Deleting(_, r) => Some(r)
    case Cleaning(_) => None
  }

  /** Keys a process has uploaded but not yet committed. */
  function Uncommitted(q: Proc): set<Key> { if q.Uploaded? then {q.rec.source.key} else {} }

  /** Keys a process is going to delete. */
  function Doomed(q: Proc): set<Key> { if q.Cleaning? then (set k | k in q.keys) else {} }

  ghost predicate ProcOk(w: World, q: Proc) {
    && (!q.Cleaning? ==> '.' !in q.name)
    && (Base(q).Some? ==> ReadOk(w, q.name, Base(q).value))
    && (q.Uploaded? ==>
          && q.rec.version == NextVersion(HistoryOf(q.base))
          && '.' in q.rec.source.key && q.rec.source.key in w.minted && w.minted[q.rec.source.key] == q.name
          && q.rec.source.key in w.blobs)
    && (forall k :: k in Doomed(q) ==> k in w.minted || '.' !in k)
    // neither uncommitted nor doomed keys are referenced by a stored object
    && (forall n, k :: n in w.crs && k in Keys(w.crs[n].history) ==> k !in Uncommitted(q) && k !in Doomed(q))
  }

  /** An uncommitted key is private to its process: nobody deletes it, holds it, or has read it. */
  ghost predicate Apart(q: Proc, r: Proc) {
    && Uncommitted(q) !! Doomed(r)
    && (Base(r).Some? ==> Uncommitted(q) !! Keys(Base(r).value.history))
  }

  ghost predicate Inv(w: World) {
    && (forall n :: n in w.crs ==> CrOk(w.crs[n], n, w.minted, w.nextRv) && Keys(w.crs[n].history) <= w.blobs)
    && (forall p :: p in w.procs ==> ProcOk(w, w.procs[p]))
    && AllApart(w.procs)
  }

  ghost predicate AllApart(procs: map<Pid, Proc>) {
    && (forall p, q :: p in procs && q in procs ==> Apart(procs[p], procs[q]))
    && (forall p, q :: p in procs && q in procs && p != q ==> Uncommitted(procs[p]) !! Uncommitted(procs[q]))
  }

  // ---- steps ----

  /** What a process may rely on does not depend on the other processes. */
  lemma ProcsDoNotMatter(w: World, procs: map<Pid, Proc>, q: Proc)
    requires ProcOk(w, q)
    ensures ProcOk(w.(procs := procs), q)
  {
  }

  lemma ApartMoves(procs: map<Pid, Proc>, p: Pid, r: Proc)
    requires AllApart(procs) && Uncommitted(r) == {}
    requires forall q :: q in procs && q != p ==> Apart(procs[q], r)
    ensures AllApart(procs[p := r])
  {
  }

  lemma QuitKeeps(w: World, p: Pid)
    requires Inv(w)
    ensures Inv(Quit(w, p))
  {
    forall q | q in w.procs ensures ProcOk(Quit(w, p), w.procs[q]) {
      ProcsDoNotMatter(w, w.procs - {p}, w.procs[q]);
    }
    assert AllApart(w.procs - {p});
  }

  /** A process moves on without an uncommitted key of its own. */
  lemma MoveKeeps(w: World, p: Pid, r: Proc)
    requires Inv(w) && ProcOk(w, r) && Uncommitted(r) == {}
    requires forall q :: q in w.procs && q != p ==> Apart(w.procs[q], r)
    ensures Inv(Move(w, p, r))
  {
    ProcsDoNotMatter(w, w.procs[p := r], r);
    forall q | q in w.procs ensures ProcOk(Move(w, p, r), w.procs[q]) {
      ProcsDoNotMatter(w, w.procs[p := r], w.procs[q]);
    }
    ApartMoves(w.procs, p, r);
  }

  lemma ReadKeeps(w: World, p: Pid, name: Name, r: Proc)
    requires Inv(w) && '.' !in name && !r.Cleaning? && !r.Uploaded? && r.name == name
    requires Base(r) == Current(w, name)
    ensures Inv(Move(w, p, r))
  {
    forall q | q in w.procs ensures Apart(w.procs[q], r) {
      assert ProcOk(w, w.procs[q]);
      if name in w.crs {
        forall k | k in Uncommitted(w.procs[q]) ensures k !in Keys(w.crs[name].history) {
        }
      }
    }
    MoveKeeps(w, p, r);
  }

  /** Deleting a blob that no object refers to and no process is about to commit. */
  lemma BlobGoneKeeps(w: World, k: Key)
    requires Inv(w)
    requires forall n :: n in w.crs ==> k !in Keys(w.crs[n].history)
    requires forall q :: q in w.procs ==> k !in Uncommitted(w.procs[q])
    ensures Inv(w.(blobs := w.blobs - {k}))
  {
    var w' := w.(blobs := w.blobs - {k});
    forall q | q in w'.procs ensures ProcOk(w', w'.procs[q]) {
      assert ProcOk(w, w.procs[q]);
    }
  }

  lemma CleanKeeps(w: World, p: Pid, ok: bool)
    requires Inv(w) && Enabled(w, CleanOne(p, ok))
    ensures Inv(Apply(w, CleanOne(p, ok)))
  {
    var keys := w.procs[p].keys;
    var r, k := Cleaning(keys[1..]), keys[0];
    assert ProcOk(w, w.procs[p]) && k in Doomed(w.procs[p]);
    assert Doomed(r) <= Doomed(w.procs[p]);
    forall q | q in w.procs ensures Apart(w.procs[q], r) && k !in Uncommitted(w.procs[q]) {
      assert Apart(w.procs[q], w.procs[p]);
    }
    MoveKeeps(w, p, r);
    if ok {
      BlobGoneKeeps(Move(w, p, r), k);
    }
  }

  /** A new key is minted and its blob stored: nothing anybody has refers to it. */
  lemma MintKeeps(w: World, k: Key, name: Name)
    requires Inv(w) && k !in w.minted && '.' in k
    ensures Inv(w.(blobs := w.blobs + {k}, minted := w.minted[k := name]))
    ensures forall n :: n in w.crs ==> k !in Keys(w.crs[n].history)
    ensures forall p :: p in w.procs ==> Unknown(w.procs[p], k)
  {
    var w' := w.(blobs := w.blobs + {k}, minted := w.minted[k := name]);
    forall n | n in w.crs ensures CrOk(w'.crs[n], n, w'.minted, w'.nextRv) && k !in Keys(w.crs[n].history) {
      assert CrOk(w.crs[n], n, w.minted, w.nextRv);
    }
    forall p | p in w.procs
      ensures ProcOk(w', w.procs[p])
      ensures Unknown(w.procs[p], k)
    {
      assert ProcOk(w, w.procs[p]);
    }
  }

  /** Nothing the process has refers to the key. */
  ghost predicate Unknown(q: Proc, k: Key) {
    k !in Uncommitted(q) && k !in Doomed(q) && (Base(q).Some? ==> k !in Keys(Base(q).value.history))
  }

  lemma ApartUploads(procs: map<Pid, Proc>, p: Pid, r: Proc, k: Key)
    requires AllApart(procs) && p in procs && r.Uploaded? && Uncommitted(r) == {k} && Base(r) == Base(procs[p])
    requires forall q :: q in procs ==> Unknown(procs[q], k)
    ensures AllApart(procs[p := r])
  {
    var procs' := procs[p := r];
    forall q, s | q in procs' && s in procs' ensures Apart(procs'[q], procs'[s]) {
      assert Apart(procs[q], procs[s]) && Unknown(procs[s], k);
    }
    forall q, s | q in procs' && s in procs' && q != s ensures Uncommitted(procs'[q]) !! Uncommitted(procs'[s]) {
      assert Unknown(procs[q], k) && Unknown(procs[s], k);
    }
  }

  /** A process takes hold of an uncommitted key nobody else knows. */
  lemma UploadKeeps(w: World, p: Pid, r: Proc, k: Key)
    requires Inv(w) && p in w.procs && ProcOk(w, r) && r.Uploaded? && Uncommitted(r) == {k} && Base(r) == Base(w.procs[p])
    requires forall q :: q in w.procs ==> Unknown(w.procs[q], k)
    ensures Inv(Move(w, p, r))
  {
    ProcsDoNotMatter(w, w.procs[p := r], r);
    forall q | q in w.procs ensures ProcOk(Move(w, p, r), w.procs[q]) {
      ProcsDoNotMatter(w, w.procs[p := r], w.procs[q]);
    }
    ApartUploads(w.procs, p, r, k);
  }

  lemma PutKeeps(w: World, p: Pid, source: Source)
    requires Inv(w) && Enabled(w, PutBlob(p, source))
    ensures Inv(Apply(w, PutBlob(p, source)))
  {
    var d := w.procs[p];
    MintKeeps(w, source.key, d.name);
    var w1 := w.(blobs := w.blobs + {source.key}, minted := w.minted[source.key := d.name]);
    assert ProcOk(w1, w1.procs[p]);
    UploadKeeps(w1, p, Uploaded(d.name, d.base, Rec(NextVersion(HistoryOf(d.base)), source, 0)), source.key);
  }

  lemma RecordedIsOk(base: Option<Cr>, rec: Rec, name: Name, minted: map<Key, Name>, nextRv: nat)
    requires '.' !in name && (base.Some? ==> CrOk(base.value, name, minted, nextRv))
    requires rec.version == NextVersion(HistoryOf(base))
    requires '.' in rec.source.key && rec.source.key in minted && minted[rec.source.key] == name
    ensures CrOk(Recorded(base, rec, nextRv), name, minted, nextRv + 1)
    ensures Keys(Recorded(base, rec, nextRv).history) <= Keys(HistoryOf(base)) + {rec.source.key}
  {
    KeptIsOk(HistoryOf(base), rec);
    KeptKeys(HistoryOf(base), rec, MAX_VERSIONS);
    if base.Some? {
      NewestIsHighest(base.value.history);
    }
  }

  /** The blobs an append evicts belonged to the old history or are the new record's own, and the new
      history refers to none of them. */
  lemma EvictedAreOut(base: Option<Cr>, rec: Rec, nextRv: nat, k: Key)
    requires k in Evicted(HistoryOf(base), rec, MAX_VERSIONS)
    requires base.Some? ==> HistoryOk(base.value.history)
    ensures k in Keys(HistoryOf(base)) && k !in Keys(Recorded(base, rec, nextRv).history)
  {
    var h := HistoryOf(base);
    EvictionIsExact(h, rec, MAX_VERSIONS, k);
    KeysConcat(h, [rec]);
    KeysOfOne(rec);
    KeyAt(Kept(h, rec, MAX_VERSIONS), |Kept(h, rec, MAX_VERSIONS)| - 1);
  }

  /** A version-checked (or first) write of a record whose key is the process's own or one it read. */
  lemma CommitKeeps(w: World, p: Pid, name: Name, base: Option<Cr>, rec: Rec)
    requires Inv(w) && p in w.procs && !w.procs[p].Cleaning? && w.procs[p].name == name && Base(w.procs[p]) == base
    requires base == Current(w, name)
    requires rec.version == NextVersion(HistoryOf(base))
    requires Uncommitted(w.procs[p]) == {rec.source.key} || (base.Some? && rec.source.key in Keys(base.value.history) && Uncommitted(w.procs[p]) == {})
    ensures Inv(CommitRec(w, p, name, base, rec))
  {
    var me := w.procs[p];
    var w' := CommitRec(w, p, name, base, rec);
    assert ProcOk(w, me);
    RecordedIsOk(base, rec, name, w.minted, w.nextRv);
    CommitCrs(w, p, name, base, rec);
    NewDoomedAreOut(w, p, name, base, rec);
    forall q | q in w.procs && q != p ensures ProcOk(w', w.procs[q]) && Apart(w.procs[q], w'.procs[p]) {
      CommitSparesOthers(w, p, name, base, rec, q);
      NewDoomedApart(w, p, name, base, rec, q);
    }
    Assemble(w, p, w');
  }

  lemma CommitCrs(w: World, p: Pid, name: Name, base: Option<Cr>, rec: Rec)
    requires Inv(w) && base == Current(w, name) && rec.source.key in w.blobs
    requires CrOk(Recorded(base, rec, w.nextRv), name, w.minted, w.nextRv + 1)
    requires Keys(Recorded(base, rec, w.nextRv).history) <= Keys(HistoryOf(base)) + {rec.source.key}
    ensures var w' := CommitRec(w, p, name, base, rec);
            forall n :: n in w'.crs ==> CrOk(w'.crs[n], n, w'.minted, w'.nextRv) && Keys(w'.crs[n].history) <= w'.blobs
  {
    var w' := CommitRec(w, p, name, base, rec);
    assert Keys(HistoryOf(base)) <= w.blobs;
    forall n | n in w'.crs ensures CrOk(w'.crs[n], n, w'.minted, w'.nextRv) && Keys(w'.crs[n].history) <= w'.blobs {
      if n != name {
        assert CrOk(w.crs[n], n, w.minted, w.nextRv);
      }
    }
  }

  lemma NewDoomedApart(w: World, p: Pid, name: Name, base: Option<Cr>, rec: Rec, q: Pid)
    requires Inv(w) && p in w.procs && q in w.procs && Base(w.procs[p]) == base && (base.Some? ==> HistoryOk(base.value.history))
    ensures Apart(w.procs[q], Cleaning(Evicted(HistoryOf(base), rec, MAX_VERSIONS)))
  {
    var r := Cleaning(Evicted(HistoryOf(base), rec, MAX_VERSIONS));
    forall k | k in Doomed(r) ensures k !in Uncommitted(w.procs[q]) {
      EvictedAreOut(base, rec, w.nextRv, k);
      assert Apart(w.procs[q], w.procs[p]);
    }
  }

  /** Putting the parts together: only process p moved, to one with nothing uncommitted. */
  lemma Assemble(w: World, p: Pid, w': World)
    requires Inv(w) && p in w.procs && w'.procs.Keys == w.procs.Keys
    requires forall q :: q in w.procs && q != p ==> w'.procs[q] == w.procs[q] && ProcOk(w', w.procs[q]) && Apart(w.procs[q], w'.procs[p])
    requires ProcOk(w', w'.procs[p]) && w'.procs[p].Cleaning?
    requires forall n :: n in w'.crs ==> CrOk(w'.crs[n], n, w'.minted, w'.nextRv) && Keys(w'.crs[n].history) <= w'.blobs
    ensures Inv(w')
  {
    forall q, r | q in w'.procs && r in w'.procs ensures Apart(w'.procs[q], w'.procs[r]) {
      if q != p && r != p {
        assert Apart(w.procs[q], w.procs[r]);
      }
    }
  }

  /** An evicted key was minted for this app and is not in its new history. */
  lemma NewDoomedIsOwn(base: Option<Cr>, rec: Rec, name: Name, minted: map<Key, Name>, nextRv: nat, k: Key)
    requires base.Some? ==> CrOk(base.value, name, minted, nextRv)
    requires k in Evicted(HistoryOf(base), rec, MAX_VERSIONS)
    ensures k in minted && minted[k] == name && k !in Keys(Recorded(base, rec, nextRv).history)
  {
    EvictedAreOut(base, rec, nextRv, k);
  }

  /** No stored object refers to keys that belong to `name` and are not in its history. */
  lemma OthersDoNotRefer(crs: map<Name, Cr>, name: Name, minted: map<Key, Name>, nextRv: nat, doomed: set<Key>)
    requires forall n :: n in crs && n != name ==> CrOk(crs[n], n, minted, nextRv)
    requires forall k :: k in doomed ==> k in minted && minted[k] == name && (name in crs ==> k !in Keys(crs[name].history))
    ensures forall n, k :: n in crs && k in Keys(crs[n].history) ==> k !in doomed
  {
    forall n, k | n in crs && k in Keys(crs[n].history) ensures k !in doomed {
      if n != name {
        assert CrOk(crs[n], n, minted, nextRv);
      }
    }
  }

  lemma NewDoomedAreOut(w: World, p: Pid, name: Name, base: Option<Cr>, rec: Rec)
    requires Inv(w) && p in w.procs && base == Current(w, name)
    ensures ProcOk(CommitRec(w, p, name, base, rec), Cleaning(Evicted(HistoryOf(base), rec, MAX_VERSIONS)))
  {
    var w' := CommitRec(w, p, name, base, rec);
    var r := Cleaning(Evicted(HistoryOf(base), rec, MAX_VERSIONS));
    forall k | k in Doomed(r) ensures k in w.minted && w.minted[k] == name && k !in Keys(w'.crs[name].history) {
      NewDoomedIsOwn(base, rec, name, w.minted, w.nextRv, k);
    }
    OthersDoNotRefer(w'.crs, name, w.minted, w.nextRv, Doomed(r));
  }

  /** The keys another process holds or deletes stay out of every history. */
  lemma CommitSparesKeys(w: World, p: Pid, name: Name, base: Option<Cr>, rec: Rec, other: Proc)
    requires p in w.procs && base == Current(w, name) && ProcOk(w, other) && Apart(w.procs[p], other)
    requires Uncommitted(w.procs[p]) !! Uncommitted(other)
    requires Uncommitted(w.procs[p]) == {rec.source.key} || (base.Some? && rec.source.key in Keys(base.value.history))
    requires Keys(Recorded(base, rec, w.nextRv).history) <= Keys(HistoryOf(base)) + {rec.source.key}
    ensures var crs := CommitRec(w, p, name, base, rec).crs;
            forall n, k :: n in crs && k in Keys(crs[n].history) ==> k !in Uncommitted(other) && k !in Doomed(other)
  {
    var crs := CommitRec(w, p, name, base, rec).crs;
    forall n, k | n in crs && k in Keys(crs[n].history) ensures k !in Uncommitted(other) && k !in Doomed(other) {
      if n == name && k == rec.source.key && Uncommitted(w.procs[p]) == {k} {
        assert k in Uncommitted(w.procs[p]);
      } else if n == name {
        assert base.Some? && k in Keys(w.crs[name].history);
      }
    }
  }

  lemma CommitSparesOthers(w: World, p: Pid, name: Name, base: Option<Cr>, rec: Rec, q: Pid)
    requires Inv(w) && p in w.procs && q in w.procs && q != p && base == Current(w, name)
    requires Uncommitted(w.procs[p]) == {rec.source.key} || (base.Some? && rec.source.key in Keys(base.value.history))
    requires Keys(Recorded(base, rec, w.nextRv).history) <= Keys(HistoryOf(base)) + {rec.source.key}
    ensures ProcOk(CommitRec(w, p, name, base, rec), w.procs[q])
  {
    CommitSparesKeys(w, p, name, base, rec, w.procs[q]);
    assert ProcOk(w, w.procs[q]);
  }

  /** The create of a new object took effect and was answered with an error: its blob will be deleted. */
  ghost predicate LosesCreate(w: World, s: Step) {
    s.WriteDeploy? && Enabled(w, s) && s.answer.Lost? && w.procs[s.p].base.None? && w.procs[s.p].name !in w.crs
  }

  lemma WriteOverKeeps(w: World, p: Pid, read: Cr, rec: Rec, answer: Answer)
    requires Inv(w) && p in w.procs && !w.procs[p].Cleaning? && Base(w.procs[p]) == Some(read)
    requires rec.version == NextVersion(read.history)
    requires Uncommitted(w.procs[p]) == {rec.source.key} || (rec.source.key in Keys(read.history) && Uncommitted(w.procs[p]) == {})
    ensures Inv(WriteOver(w, p, w.procs[p].name, read, rec, answer))
  {
    var name := w.procs[p].name;
    if name !in w.crs || w.crs[name].rv != read.rv || answer.Refused? {
      QuitKeeps(w, p);
    } else {
      assert Some(read) == Current(w, name) by {
        assert ProcOk(w, w.procs[p]);
      }
      CommitKeeps(w, p, name, Some(read), rec);
      if answer.Lost? {
        QuitKeeps(CommitRec(w, p, name, Some(read), rec), p);
      }
    }
  }

  lemma WriteDeployKeeps(w: World, p: Pid, answer: Answer)
    requires Inv(w) && Enabled(w, WriteDeploy(p, answer)) && !LosesCreate(w, WriteDeploy(p, answer))
    ensures Inv(Apply(w, WriteDeploy(p, answer)))
  {
    var d := w.procs[p];
    assert ProcOk(w, d);
    if d.base.Some? {
      WriteOverKeeps(w, p, d.base.value, d.rec, answer);
    } else if answer.Done? && d.name !in w.crs {
      CommitKeeps(w, p, d.name, None, d.rec);
    } else {
      var r := Cleaning([d.rec.source.key]);
      assert Doomed(r) == Uncommitted(d);
      MoveKeeps(w, p, r);
    }
  }

  lemma WriteRollbackKeeps(w: World, p: Pid, version: int, answer: Answer)
    requires Inv(w) && Enabled(w, WriteRollback(p, version, answer))
    ensures Inv(Apply(w, WriteRollback(p, version, answer)))
  {
    var d := w.procs[p];
    assert ProcOk(w, d);
    var i := FindVersion(d.read.history, version);
    KeyAt(d.read.history, i);
    WriteOverKeeps(w, p, d.read, RollbackRec(d.read.history, i), answer);
  }

  lemma RemoveKeeps(w: World, name: Name)
    requires Inv(w)
    ensures Inv(w.(crs := w.crs - {name}))
  {
    var w' := w.(crs := w.crs - {name});
    forall q | q in w'.procs ensures ProcOk(w', w'.procs[q]) {
      assert ProcOk(w, w.procs[q]);
    }
  }

  /** Once the object is gone, nothing stored or uncommitted refers to the keys of any version of it. */
  lemma DeletedKeysAreOut(w: World, name: Name, read: Cr)
    requires Inv(w) && name !in w.crs && '.' !in name && CrOk(read, name, w.minted, w.nextRv)
    ensures ProcOk(w, Cleaning(KeysToDelete(name, read)))
    ensures forall k :: k in Doomed(Cleaning(KeysToDelete(name, read))) ==> k == name || k in Keys(read.history)
  {
    var r := Cleaning(KeysToDelete(name, read));
    forall k | k in Doomed(r) ensures k == name || k in Keys(read.history) {
      UnreferencedExactly(read.history, {}, k);
    }
    forall n, k | n in w.crs && k in Keys(w.crs[n].history) ensures k !in Doomed(r) {
      assert CrOk(w.crs[n], n, w.minted, w.nextRv);
    }
  }

  lemma DeletedKeeps(w: World, p: Pid)
    requires Inv(w) && p in w.procs && w.procs[p].Deleting?
    ensures var d := w.procs[p]; Inv(Move(w.(crs := w.crs - {d.name}), p, Cleaning(KeysToDelete(d.name, d.read))))
  {
    var d := w.procs[p];
    assert ProcOk(w, d);
    var w1 := w.(crs := w.crs - {d.name});
    RemoveKeeps(w, d.name);
    DeletedKeysAreOut(w1, d.name, d.read);
    var r := Cleaning(KeysToDelete(d.name, d.read));
    forall q | q in w1.procs && q != p ensures Apart(w1.procs[q], r) {
      assert Apart(w.procs[q], d) && ProcOk(w, w.procs[q]);
    }
    MoveKeeps(w1, p, r);
  }

  lemma DeleteKeeps(w: World, p: Pid, answer: Answer)
    requires Inv(w) && Enabled(w, DeleteCr(p, answer))
    ensures Inv(Apply(w, DeleteCr(p, answer)))
  {
    match answer
    case Refused => QuitKeeps(w, p);
    case Lost =>
      RemoveKeeps(w, w.procs[p].name);
      QuitKeeps(w.(crs := w.crs - {w.procs[p].name}), p);
    case Done => DeletedKeeps(w, p);
  }

  lemma ApplyKeeps(w: World, s: Step)
    requires Inv(w) && !LosesCreate(w, s)
    ensures Inv(Apply(w, s))
  {
    if Enabled(w, s) {
      match s
      case ReadForDeploy(p, name) => ReadKeeps(w, p, name, Deploying(name, Current(w, name)));
      case PutBlob(p, source) => PutKeeps(w, p, source);
      case WriteDeploy(p, answer) => WriteDeployKeeps(w, p, answer);
      case ReadForRollback(p, name) => ReadKeeps(w, p, name, RollingBack(name, w.crs[name]));
      case WriteRollback(p, version, answer) => WriteRollbackKeeps(w, p, version, answer);
      case ReadForDelete(p, name) => ReadKeeps(w, p, name, Deleting(name, w.crs[name]));
      case DeleteCr(p, answer) => DeleteKeeps(w, p, answer);
      case CleanOne(p, ok) => CleanKeeps(w, p, ok);
      case Stop(p) => QuitKeeps(w, p);
    }
  }

  /** No step of the run loses a create. */
  ghost predicate NoLostCreate(steps: seq<Step>) {
    forall i :: 0 <= i < |steps| ==> !LosesCreate(Run(steps[..i]), steps[i])
  }

  lemma PrefixHasNoLostCreate(steps: seq<Step>, n: nat)
    requires NoLostCreate(steps) && n <= |steps|
    ensures NoLostCreate(steps[..n])
  {
    forall i | 0 <= i < n ensures !LosesCreate(Run(steps[..n][..i]), steps[..n][i]) {
      assert steps[..n][..i] == steps[..i];
    }
  }

  lemma {:induction false} EveryRunIsSafe(steps: seq<Step>)
    requires NoLostCreate(steps)
    ensures Inv(Run(steps))
  {
    if steps != [] {
      var n := |steps| - 1;
      PrefixHasNoLostCreate(steps, n);
      EveryRunIsSafe(steps[..n]);
      assert !LosesCreate(Run(steps[..n]), steps[n]);
      ApplyKeeps(Run(steps[..n]), steps[n]);
    }
  }

  /** Histories of stored and of read objects are the newest records ever written to them. */
  ghost predicate Tails(w: World) {
    && (forall n :: n in w.crs ==> Rising(w.crs[n].issued, w.crs[n].history))
    && (forall p :: p in w.procs && Base(w.procs[p]).Some? ==> Rising(Base(w.procs[p]).value.issued, Base(w.procs[p]).value.history))
  }

  lemma RecordedTail(base: Option<Cr>, rec: Rec, rv: nat)
    requires base.Some? ==> Rising(base.value.issued, base.value.history) && HistoryOk(base.value.history)
    requires rec.version == NextVersion(HistoryOf(base))
    ensures var cr := Recorded(base, rec, rv); Rising(cr.issued, cr.history)
  {
    RisingGrows(if base.Some? then base.value.issued else [], HistoryOf(base), rec);
  }

  /** A step that changes no object and keeps or forgets what processes have read. */
  lemma TailsKept(w: World, v: World)
    requires Tails(w) && forall n :: n in v.crs ==> n in w.crs && v.crs[n] == w.crs[n]
    requires forall p :: p in v.procs && Base(v.procs[p]).Some? ==>
               || (p in w.procs && Base(v.procs[p]) == Base(w.procs[p]))
               || (v.procs[p].name in w.crs && Base(v.procs[p]) == Some(w.crs[v.procs[p].name]))
    ensures Tails(v)
  {
  }

  lemma CommitKeepsTails(w: World, p: Pid, name: Name, base: Option<Cr>, rec: Rec)
    requires Tails(w) && (base.Some? ==> HistoryOk(base.value.history) && Rising(base.value.issued, base.value.history))
    requires rec.version == NextVersion(HistoryOf(base))
    ensures Tails(CommitRec(w, p, name, base, rec))
  {
    RecordedTail(base, rec, w.nextRv);
  }

  lemma WriteDeployKeepsTails(w: World, p: Pid, answer: Answer)
    requires Inv(w) && Tails(w) && Enabled(w, WriteDeploy(p, answer))
    ensures Tails(Apply(w, WriteDeploy(p, answer)))
  {
    var d := w.procs[p];
    assert ProcOk(w, d);
    if d.base.Some? {
      WriteOverKeepsTails(w, p, d.name, d.base.value, d.rec, answer);
    } else {
      CommitKeepsTails(w, p, d.name, None, d.rec);
      var u := CommitRec(w, p, d.name, None, d.rec);
      TailsKept(u, Move(u, p, Cleaning([d.rec.source.key])));
      TailsKept(w, Move(w, p, Cleaning([d.rec.source.key])));
    }
  }

  lemma WriteOverKeepsTails(w: World, p: Pid, name: Name, read: Cr, rec: Rec, answer: Answer)
    requires Tails(w) && HistoryOk(read.history) && Rising(read.issued, read.history) && rec.version == NextVersion(read.history)
    ensures Tails(WriteOver(w, p, name, read, rec, answer))
  {
    CommitKeepsTails(w, p, name, Some(read), rec);
    var u := CommitRec(w, p, name, Some(read), rec);
    TailsKept(u, Quit(u, p));
    TailsKept(w, Quit(w, p));
  }

  lemma WriteRollbackKeepsTails(w: World, p: Pid, version: int, answer: Answer)
    requires Inv(w) && Tails(w) && Enabled(w, WriteRollback(p, version, answer))
    ensures Tails(Apply(w, WriteRollback(p, version, answer)))
  {
    var d := w.procs[p];
    assert ProcOk(w, d);
    WriteOverKeepsTails(w, p, d.name, d.read, RollbackRec(d.read.history, FindVersion(d.read.history, version)), answer);
  }

  lemma ReadKeepsTails(w: World, s: Step)
    requires Tails(w) && (s.ReadForDeploy? || s.ReadForRollback? || s.ReadForDelete?)
    ensures Tails(Apply(w, s))
  {
    TailsKept(w, Apply(w, s));
  }

  lemma CleanUpKeepsTails(w: World, s: Step)
    requires Tails(w) && (s.PutBlob? || s.DeleteCr? || s.CleanOne? || s.Stop?)
    ensures Tails(Apply(w, s))
  {
    TailsKept(w, Apply(w, s));
  }

  lemma ApplyKeepsTails(w: World, s: Step)
    requires Inv(w) && Tails(w)
    ensures Tails(Apply(w, s))
  {
    if s.WriteDeploy? && Enabled(w, s) {
      WriteDeployKeepsTails(w, s.p, s.answer);
    } else if s.WriteRollback? && Enabled(w, s) {
      WriteRollbackKeepsTails(w, s.p, s.version, s.answer);
    } else if s.ReadForDeploy? || s.ReadForRollback? || s.ReadForDelete? {
      ReadKeepsTails(w, s);
    } else if s.PutBlob? || s.DeleteCr? || s.CleanOne? || s.Stop? {
      CleanUpKeepsTails(w, s);
    }
  }

  lemma {:induction false} EveryRunKeepsTails(steps: seq<Step>)
    requires NoLostCreate(steps)
    ensures Tails(Run(steps))
  {
    if steps != [] {
      var n := |steps| - 1;
      PrefixHasNoLostCreate(steps, n);
      EveryRunIsSafe(steps[..n]);
      EveryRunKeepsTails(steps[..n]);
      ApplyKeepsTails(Run(steps[..n]), steps[n]);
    }
  }

  /** Every retained version of the app can be rolled back to, the spec runs the newest record's source, the history
      is capped, and versions only ever went up. */
  ghost predicate Sound(w: World, name: Name)
    requires name in w.crs
  {
    var cr := w.crs[name];
    && |cr.issued| >= 1 && cr.history == Tail(cr.issued)
    && (forall i :: 0 <= i < |cr.history| ==> cr.history[i].source.key in w.blobs)
    && cr.ref == Newest(cr.history).source.ref
    && cr.template == Newest(cr.history).source.template && cr.lane == Newest(cr.history).source.lane
    && Increasing(cr.issued) && Increasing(cr.history)
  }

  /** Whatever interleaved, as long as no create is lost: every object is sound. */
  lemma HistoryIsSound(steps: seq<Step>, name: Name)
    requires NoLostCreate(steps) && name in Run(steps).crs
    ensures Sound(Run(steps), name)
  {
    EveryRunIsSafe(steps);
    EveryRunKeepsTails(steps);
    InvIsSound(Run(steps), name);
  }

  lemma RunMore(steps: seq<Step>, s: Step)
    ensures Run(steps + [s]) == Apply(Run(steps), s)
  {
    assert (steps + [s])[..|steps|] == steps;
  }

  /** A lost create dooms the blob of the record it has just written: the next clean-up step deletes it. */
  lemma LostCreateLosesBlob(w: World, s: Step)
    requires LosesCreate(w, s)
    ensures var v := Apply(Apply(w, s), CleanOne(s.p, true)); w.procs[s.p].name in v.crs && !Sound(v, w.procs[s.p].name)
  {
    var d := w.procs[s.p];
    var u := Apply(w, s);
    var v := Apply(u, CleanOne(s.p, true));
    assert u.procs[s.p] == Cleaning([d.rec.source.key]);
    assert v.crs[d.name].history == [d.rec] && d.rec.source.key !in v.blobs;
    assert v.crs[d.name].history[0].source.key !in v.blobs;
  }

  /** All objects are sound, and stay so whichever clean-up goes next. */
  ghost predicate SoundSoon(w: World) {
    && (forall name :: name in w.crs ==> Sound(w, name))
    && (forall p, name :: name in Apply(w, CleanOne(p, true)).crs ==> Sound(Apply(w, CleanOne(p, true)), name))
  }

  lemma InvIsSound(w: World, name: Name)
    requires Inv(w) && Tails(w) && name in w.crs
    ensures Sound(w, name)
  {
    var cr := w.crs[name];
    assert CrOk(cr, name, w.minted, w.nextRv);
    forall i | 0 <= i < |cr.history| ensures cr.history[i].source.key in w.blobs {
      KeyAt(cr.history, i);
    }
  }

  lemma InvIsSoundSoon(w: World)
    requires Inv(w) && Tails(w)
    ensures SoundSoon(w)
  {
    forall name | name in w.crs ensures Sound(w, name) {
      InvIsSound(w, name);
    }
    forall p, name | name in Apply(w, CleanOne(p, true)).crs ensures Sound(Apply(w, CleanOne(p, true)), name) {
      ApplyKeeps(w, CleanOne(p, true));
      ApplyKeepsTails(w, CleanOne(p, true));
      InvIsSound(Apply(w, CleanOne(p, true)), name);
    }
  }

  /** Exactly when every retained version of every app stays available all along a run, clean-ups included: no create
      was lost. */
  lemma SoundRunIff(steps: seq<Step>)
    ensures (forall n :: 0 <= n <= |steps| ==> SoundSoon(Run(steps[..n]))) <==> NoLostCreate(steps)
  {
    if NoLostCreate(steps) {
      forall n | 0 <= n <= |steps| ensures SoundSoon(Run(steps[..n])) {
        PrefixHasNoLostCreate(steps, n);
        EveryRunIsSafe(steps[..n]);
        EveryRunKeepsTails(steps[..n]);
        InvIsSoundSoon(Run(steps[..n]));
      }
    } else {
      var i :| 0 <= i < |steps| && LosesCreate(Run(steps[..i]), steps[i]);
      assert steps[..i + 1] == steps[..i] + [steps[i]];
      RunMore(steps[..i], steps[i]);
      LostCreateLosesBlob(Run(steps[..i]), steps[i]);
      assert !SoundSoon(Run(steps[..i + 1]));
    }
  }

  /** A first deploy whose create is lost, step by step: the app is there, its only version's blob is not. */
  lemma LostCreateRun(name: Name, source: Source)
    requires '.' !in name && '.' in source.key
    ensures var w := Run([ReadForDeploy(0, name)] + [PutBlob(0, source)] + [WriteDeploy(0, Lost)] + [CleanOne(0, true)]);
            name in w.crs && !Sound(w, name)
  {
    var s1 := [ReadForDeploy(0, name)];
    assert [] + s1 == s1;
    RunMore([], ReadForDeploy(0, name));
    RunMore(s1, PutBlob(0, source));
    RunMore(s1 + [PutBlob(0, source)], WriteDeploy(0, Lost));
    RunMore(s1 + [PutBlob(0, source)] + [WriteDeploy(0, Lost)], CleanOne(0, true));
    LostCreateLosesBlob(Run(s1 + [PutBlob(0, source)]), WriteDeploy(0, Lost));
  }

  // ---- what each step does ----

  /** An upload takes the version after the newest one read (1 for a new app), stores the source under its fresh key
      and writes nothing else. */
  lemma PutBlobLaw(w: World, p: Pid, source: Source)
    requires Inv(w) && Enabled(w, PutBlob(p, source))
    ensures var v, d := Apply(w, PutBlob(p, source)), w.procs[p];
            && v.crs == w.crs && v.blobs == w.blobs + {source.key}
            && v.procs == w.procs[p := Uploaded(d.name, d.base,
                                                Rec(if d.base.Some? then Newest(d.base.value.history).version + 1 else 1, source, 0))]
  {
    assert ProcOk(w, w.procs[p]);
    if w.procs[p].base.Some? {
      NewestIsHighest(w.procs[p].base.value.history);
    }
  }

  /** The object v.crs[name] is what was there (or nothing) with one more record, under a fresh resource version; the
      spec runs that record; no other object and no blob changed. */
  ghost predicate Adds(w: World, v: World, name: Name, before: seq<Rec>, rec: Rec) {
    && name in v.crs && v.crs[name].issued == before + [rec] && v.crs[name].rv == w.nextRv
    && v.crs[name].ref == rec.source.ref && v.crs[name].template == rec.source.template && v.crs[name].lane == rec.source.lane
    && v.crs.Keys == w.crs.Keys + {name} && (forall n :: n in w.crs && n != name ==> v.crs[n] == w.crs[n])
    && v.blobs == w.blobs
  }

  lemma CommitAdds(w: World, p: Pid, name: Name, base: Option<Cr>, rec: Rec)
    ensures Adds(w, CommitRec(w, p, name, base, rec), name, if base.Some? then base.value.issued else [], rec)
  {
  }

  lemma WriteOverLaw(w: World, p: Pid, read: Cr, name: Name, rec: Rec, answer: Answer)
    requires name in w.crs && w.crs[name].rv == read.rv ==> w.crs[name] == read
    ensures var v := WriteOver(w, p, name, read, rec, answer);
            if !answer.Refused? && Some(read) == Current(w, name) then Adds(w, v, name, read.issued, rec) else v.crs == w.crs && v.blobs == w.blobs
  {
    CommitAdds(w, p, name, Some(read), rec);
  }

  /** A create or update takes effect exactly if it is not refused and the object is as it was read; then it adds the
      uploaded record, and otherwise it changes no object. */
  lemma WriteDeployLaw(w: World, p: Pid, answer: Answer)
    requires Inv(w) && Enabled(w, WriteDeploy(p, answer))
    ensures var v, d := Apply(w, WriteDeploy(p, answer)), w.procs[p];
            if !answer.Refused? && d.base == Current(w, d.name)
            then Adds(w, v, d.name, if d.base.Some? then d.base.value.issued else [], d.rec)
            else v.crs == w.crs && v.blobs == w.blobs
  {
    var d := w.procs[p];
    assert ProcOk(w, d);
    if d.base.Some? {
      WriteOverLaw(w, p, d.base.value, d.name, d.rec, answer);
    } else {
      CommitAdds(w, p, d.name, None, d.rec);
    }
  }

  lemma ReadIsCurrent(w: World, p: Pid)
    requires Inv(w) && p in w.procs && w.procs[p].RollingBack?
    ensures var d := w.procs[p];
            && (d.name in w.crs && w.crs[d.name].rv == d.read.rv ==> w.crs[d.name] == d.read)
            && NextVersion(d.read.history) == Newest(d.read.history).version + 1
  {
    assert ProcOk(w, w.procs[p]);
    NewestIsHighest(w.procs[p].read.history);
  }

  /** The same for a rollback, which adds a record with the source of the last retained one of that version. */
  lemma WriteRollbackLaw(w: World, p: Pid, version: int, answer: Answer)
    requires Inv(w) && Enabled(w, WriteRollback(p, version, answer))
    ensures var v, d := Apply(w, WriteRollback(p, version, answer)), w.procs[p];
            var i := FindVersion(d.read.history, version);
            if !answer.Refused? && Some(d.read) == Current(w, d.name)
            then Adds(w, v, d.name, d.read.issued, Rec(Newest(d.read.history).version + 1, d.read.history[i].source, version))
            else v.crs == w.crs && v.blobs == w.blobs
  {
    var d := w.procs[p];
    ReadIsCurrent(w, p);
    WriteOverLaw(w, p, d.read, d.name, RollbackRec(d.read.history, FindVersion(d.read.history, version)), answer);
  }

  /** A delete removes the object unless it is refused; answered without error it goes on to delete the blobs of all
      retained versions and the legacy one, and nothing else. */
  lemma DeleteLaw(w: World, p: Pid, answer: Answer)
    requires Enabled(w, DeleteCr(p, answer))
    ensures var v, d := Apply(w, DeleteCr(p, answer)), w.procs[p];
            && v.crs == (if answer.Refused? then w.crs else w.crs - {d.name}) && v.blobs == w.blobs
            && (p in v.procs <==> answer.Done?)
            && (answer.Done? ==> forall k :: k in Doomed(v.procs[p]) <==>
                                   k == d.name || (k != "" && exists i :: 0 <= i < |d.read.history| && d.read.history[i].source.key == k))
  {
    var v, d := Apply(w, DeleteCr(p, answer)), w.procs[p];
    if answer.Done? {
      forall k ensures k in Doomed(v.procs[p]) <==> k == d.name || (k != "" && k in Keys(d.read.history)) {
        UnreferencedExactly(d.read.history, {}, k);
      }
    }
  }

  /** After a write the process deletes exactly the set keys of dropped records that no kept record refers to; after a
      refused create exactly its own blob; after any other error nothing. */
  lemma CleanUpLaw(w: World, p: Pid, answer: Answer)
    requires Enabled(w, WriteDeploy(p, answer))
    ensures var v, d := Apply(w, WriteDeploy(p, answer)), w.procs[p];
            var took := if d.base.None? then d.name !in w.crs else d.name in w.crs && w.crs[d.name].rv == d.base.value.rv;
            if answer.Done? && took then
              p in v.procs && forall k :: k in Doomed(v.procs[p]) <==>
                k != "" && k in Keys(HistoryOf(d.base) + [d.rec]) && k !in Keys(v.crs[d.name].history)
            else if d.base.None? then p in v.procs && Doomed(v.procs[p]) == {d.rec.source.key}
            else p !in v.procs
  {
    var v, d := Apply(w, WriteDeploy(p, answer)), w.procs[p];
    var took := if d.base.None? then d.name !in w.crs else d.name in w.crs && w.crs[d.name].rv == d.base.value.rv;
    if answer.Done? && took {
      forall k ensures k in Evicted(HistoryOf(d.base), d.rec, MAX_VERSIONS) <==>
                         k != "" && k in Keys(HistoryOf(d.base) + [d.rec]) && k !in Keys(Kept(HistoryOf(d.base), d.rec, MAX_VERSIONS)) {
        EvictionIsExact(HistoryOf(d.base), d.rec, MAX_VERSIONS, k);
      }
    }
  }
}
