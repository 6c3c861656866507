/** The VibedApp control plane as one step system: users change objects, reconcile workers read a
    possibly stale object, drive the inject tracker and try to persist a status, inject goroutines
    run in between, and the controller process may restart.

    Each step is one atomic action of one party. A step whose guard fails leaves the world as it is,
    so every sequence of steps is a run, and every run of the parties is such a sequence. */
module ControlPlane {
  import opened Wrappers
  import opened AppStatus
  import opened ReconcilePass
  import T = InjectTracker
  import opened InjectToken

  type Name = string

  /** A stored VibedApp version. */
  datatype Obj = Obj(uid: nat, generation: int, rv: nat, spec: Spec, status: Status, deleting: bool)

  /** Where a worker stands: in the three stages of asyncInjector.step, or about to decide. */
  datatype Stage = Peeking | Launching | Waiting(id: nat) | Deciding(inj: Injection, attempt: Option<nat>)

  datatype Worker = Worker(obj: Obj, env: Env, stage: Stage)

  /** A persisted status change, and the attempt whose result the pass consumed, if any. */
  datatype Commit = Commit(name: Name, before: Obj, after: Obj, attempt: Option<nat>)

  datatype Usage = AppReady(uid: nat) | AppStopped(uid: nat)

  datatype World = World(
    objs: map<Name, Obj>, past: set<(Name, Obj)>, nextRv: nat, nextUid: nat,
    tracker: T.Tracker, workers: map<Name, Worker>,
    commits: seq<Commit>, usage: seq<Usage>)

  const START: World := World(map[], {}, 0, 0, T.EMPTY, map[], [], [])

  /** vibed-agent's control port inside the bound pod. */
  function PayloadOf(obj: Obj): T.Payload {
    T.Payload(obj.status.podIP + ":9000", obj.generation, obj.spec.tarballRef)
  }

  function KeyOf(p: T.Payload): string { Token(p.target, p.generation, p.tarballRef) }

  datatype Step =
    | CreateApp(name: Name, spec: Spec)
    | UserWrite(name: Name, spec: Spec, generation: int, deleting: bool)
    | RemoveApp(name: Name)
    | Begin(name: Name, obj: Obj, env: Env)
    | PeekOnce(name: Name, now: int)
    | LaunchOnce(name: Name, now: int)
    | GraceDone(name: Name, now: int)
    | GraceTimeout(name: Name)
    | Finish(name: Name, accepted: bool)
    | Goroutine(step: T.Step)
    | Restart

  /** Store a version of the object under a new resource version. */
  function Put(w: World, name: Name, obj: Obj): World {
    var stored := obj.(rv := w.nextRv);
    w.(objs := w.objs[name := stored], past := w.past + {(name, stored)}, nextRv := w.nextRv + 1)
  }

  /** A worker picks up the app. The read may come from a stale cache: any version ever stored. */
  function BeginPass(w: World, name: Name, obj: Obj, env: Env): World {
    if obj.deleting then w.(tracker := T.Forget(w.tracker, obj.uid))
    else
      var tracker := if Pass(obj.spec, obj.status, env, StillInjecting).forget then T.Forget(w.tracker, obj.uid) else w.tracker;
      var stage := if Injects(obj.spec, obj.status, env) then Peeking else Deciding(StillInjecting, None);
      w.(tracker := tracker, workers := w.workers[name := Worker(obj, env, stage)])
  }

  function Decided(r: T.PeekResult): Stage {
    if r.Finished? then Deciding(Injected(r.result.running, r.result.err), Some(r.id)) else Deciding(StillInjecting, None)
  }

  /** peek at the start of step: nothing tracked means launching comes next. */
  function FirstPeek(w: World, name: Name, now: int): World
    requires name in w.workers
  {
    var k := w.workers[name];
    var (t, r) := T.Peek(w.tracker, k.obj.uid, KeyOf(PayloadOf(k.obj)), now);
    w.(tracker := t, workers := w.workers[name := k.(stage := if r.Nothing? then Launching else Decided(r))])
  }

  /** peek once the launched attempt's done channel is closed. */
  function SecondPeek(w: World, name: Name, now: int): World
    requires name in w.workers
  {
    var k := w.workers[name];
    var (t, r) := T.Peek(w.tracker, k.obj.uid, KeyOf(PayloadOf(k.obj)), now);
    w.(tracker := t, workers := w.workers[name := k.(stage := Decided(r))])
  }

  function LaunchAttempt(w: World, name: Name, now: int): World
    requires name in w.workers
  {
    var k := w.workers[name];
    var (t, id) := T.Launch(w.tracker, k.obj.uid, KeyOf(PayloadOf(k.obj)), PayloadOf(k.obj), now);
    w.(tracker := t, workers := w.workers[name := k.(stage := Waiting(id))])
  }

  /** emitLifecycle: usage is recorded when a persisted change crosses the Ready boundary. */
  function Emitted(uid: nat, old': Phase, current: Phase): seq<Usage> {
    if old' == current then []
    else if current.Ready? then [AppReady(uid)]
    else if old'.Ready? then [AppStopped(uid)]
    else []
  }

  /** patchStatusIfChanged: one status update, taken only while the read version is still current. */
  function FinishPass(w: World, name: Name, accepted: bool): World
    requires name in w.workers && w.workers[name].stage.Deciding?
  {
    var k := w.workers[name];
    var o := Pass(k.obj.spec, k.obj.status, k.env, k.stage.inj);
    var idle := w.(workers := w.workers - {name});
    if o.patch && !StatusEqual(k.obj.status, o.status) && accepted && name in w.objs && w.objs[name].rv == k.obj.rv then
      var before := w.objs[name];
      var stored := Put(idle, name, before.(status := o.status));
      stored.(commits := w.commits + [Commit(name, before, stored.objs[name], k.stage.attempt)],
              usage := w.usage + Emitted(before.uid, k.obj.status.phase, o.status.phase))
    else idle
  }

  /** Tracker steps taken by inject goroutines and the manager, not by workers. */
  predicate ByGoroutine(step: T.Step) {
    step.DoAcquire? || step.DoGiveUp? || step.DoReturn? || step.DoReleaseSlot? || step.DoRun? || step.DoShutdown?
  }

  predicate AtStage(w: World, name: Name, stage: Stage) { name in w.workers && w.workers[name].stage == stage }

  ghost predicate Enabled(w: World, step: Step) {
    match step
    case CreateApp(name, _) => name !in w.objs
    // any write to spec or metadata; changing the spec bumps the generation
    case UserWrite(name, spec, generation, _) =>
      && name in w.objs && generation >= w.objs[name].generation
      && (spec != w.objs[name].spec ==> generation > w.objs[name].generation)
    case RemoveApp(name) => name in w.objs
    case Begin(name, obj, env) => name !in w.workers && (name, obj) in w.past && GoodEnv(env)
    case PeekOnce(name, _) => AtStage(w, name, Peeking)
    case LaunchOnce(name, _) => AtStage(w, name, Launching)
    case GraceDone(name, _) =>
      && name in w.workers && w.workers[name].stage.Waiting?
      && w.workers[name].stage.id < |w.tracker.heap| && w.tracker.heap[w.workers[name].stage.id].doneCloses > 0
    case GraceTimeout(name) => name in w.workers && w.workers[name].stage.Waiting?
    case Finish(name, _) => name in w.workers && w.workers[name].stage.Deciding?
    case Goroutine(ts) => ByGoroutine(ts)
    case Restart => true
  }

  ghost function Apply(w: World, step: Step): World {
    if !Enabled(w, step) then w
    else match step
      case CreateApp(name, spec) => Put(w, name, Obj(w.nextUid, 1, 0, spec, EMPTY_STATUS, false)).(nextUid := w.nextUid + 1)
      case UserWrite(name, spec, generation, deleting) =>
        Put(w, name, w.objs[name].(spec := spec, generation := generation, deleting := deleting))
      case RemoveApp(name) => w.(objs := w.objs - {name})
      case Begin(name, obj, env) => BeginPass(w, name, obj, env)
      case PeekOnce(name, now) => FirstPeek(w, name, now)
      case LaunchOnce(name, now) => LaunchAttempt(w, name, now)
      case GraceDone(name, now) => SecondPeek(w, name, now)
      case GraceTimeout(name) => w.(workers := w.workers[name := w.workers[name].(stage := Deciding(StillInjecting, None))])
      case Finish(name, accepted) => FinishPass(w, name, accepted)
      case Goroutine(ts) => w.(tracker := T.Apply(w.tracker, ts))
      case Restart => w.(tracker := T.Restart(w.tracker), workers := map[])
  }

  ghost function Run(steps: seq<Step>): World {
    if steps == [] then START else Apply(Run(steps[..|steps| - 1]), steps[|steps| - 1])
  }

  // ---- invariants, one per concern, over the parts of the world they read ----

  /** Resource versions identify stored versions, and uids identify apps. */
  ghost predicate VersionsOk(objs: map<Name, Obj>, past: set<(Name, Obj)>, nextRv: nat, nextUid: nat) {
    && (forall p :: p in past ==> p.1.rv < nextRv && p.1.uid < nextUid && StatusOk(p.1.status))
    && (forall p, q :: p in past && q in past && p.1.rv == q.1.rv ==> p == q)
    && (forall p, q :: p in past && q in past && p.1.uid == q.1.uid ==> p.0 == q.0)
    && (forall n :: n in objs ==> (n, objs[n]) in past)
  }

  /** Attempts are tracked under the token of what they deliver. */
  ghost predicate KeysOk(heap: seq<T.Entry>) {
    forall i :: 0 <= i < |heap| ==> heap[i].token == KeyOf(heap[i].payload) && '|' !in heap[i].payload.target
  }

  /** Attempt `id` finished with the given outcome, for exactly this object version, and was consumed. */
  ghost predicate Backs(heap: seq<T.Entry>, id: nat, obj: Obj, running: bool, err: Option<string>) {
    && id < |heap| && heap[id].uid == obj.uid && heap[id].payload == PayloadOf(obj)
    && heap[id].result.Some? && heap[id].result.value.running == running && heap[id].result.value.err == err
    && heap[id].consumers != []
  }

  ghost predicate WorkerOk(k: Worker, name: Name, past: set<(Name, Obj)>, heap: seq<T.Entry>) {
    && (name, k.obj) in past && GoodEnv(k.env)
    && (k.stage.Deciding? ==>
          if k.stage.inj.Injected?
          then k.stage.attempt.Some? && Backs(heap, k.stage.attempt.value, k.obj, k.stage.inj.running, k.stage.inj.err)
          else k.stage.attempt.None?)
  }

  ghost predicate WorkersOk(workers: map<Name, Worker>, past: set<(Name, Obj)>, heap: seq<T.Entry>) {
    forall n :: n in workers ==> WorkerOk(workers[n], n, past, heap)
  }

  /** The commit moved a general-lane app into Ready. */
  ghost predicate IntoReady(c: Commit) {
    !c.before.status.phase.Ready? && c.after.status.phase.Ready? && !FastLaneApp(c.after.spec)
  }

  ghost predicate CommitOk(c: Commit, heap: seq<T.Entry>) {
    && (c.attempt.Some? ==> c.attempt.value < |heap| && heap[c.attempt.value].consumers != [])
    && (IntoReady(c) ==> c.before.status.phase.Starting? && c.attempt.Some? && Backs(heap, c.attempt.value, c.after, true, None))
  }

  ghost predicate CommitsOk(commits: seq<Commit>, heap: seq<T.Entry>) {
    forall i :: 0 <= i < |commits| ==> CommitOk(commits[i], heap)
  }

  function Uses(k: Worker): Option<nat> { if k.stage.Deciding? then k.stage.attempt else None }

  /** No attempt's result serves two passes. */
  ghost predicate UsedOnce(workers: map<Name, Worker>, commits: seq<Commit>) {
    && (forall i, j :: 0 <= i < j < |commits| && commits[i].attempt.Some? ==> commits[i].attempt != commits[j].attempt)
    && (forall n, m :: n in workers && m in workers && n != m && Uses(workers[n]).Some? ==> Uses(workers[n]) != Uses(workers[m]))
    && (forall n, i :: n in workers && 0 <= i < |commits| && Uses(workers[n]).Some? ==> Uses(workers[n]) != commits[i].attempt)
  }

  /** The usage events of one app, oldest first: true for app.ready. */
  function Kinds(usage: seq<Usage>, uid: nat): seq<bool> {
    if usage == [] then []
    else
      var e := usage[|usage| - 1];
      Kinds(usage[..|usage| - 1], uid) + (if e.uid == uid then [e.AppReady?] else [])
  }

  /** ready, stopped, ready, stopped, ... */
  ghost predicate Alternates(kinds: seq<bool>) {
    && (kinds != [] ==> kinds[0])
    && forall i, j :: 0 <= i && j == i + 1 && j < |kinds| ==> kinds[i] != kinds[j]
  }

  /** A billable interval is open: the last event is app.ready. */
  predicate Open(kinds: seq<bool>) { kinds != [] && kinds[|kinds| - 1] }

  /** #ready - #stopped. */
  function Balance(kinds: seq<bool>): int {
    if kinds == [] then 0 else Balance(kinds[..|kinds| - 1]) + (if kinds[|kinds| - 1] then 1 else -1)
  }

  ghost predicate UsageOk(objs: map<Name, Obj>, usage: seq<Usage>, nextUid: nat) {
    && (forall u: nat :: Alternates(Kinds(usage, u)))
    && (forall u: nat :: u >= nextUid ==> Kinds(usage, u) == [])
    && (forall n :: n in objs ==> (objs[n].status.phase.Ready? <==> Open(Kinds(usage, objs[n].uid))))
  }

  ghost predicate Inv(w: World) {
    && VersionsOk(w.objs, w.past, w.nextRv, w.nextUid)
    && T.Inv(w.tracker) && KeysOk(w.tracker.heap)
    && WorkersOk(w.workers, w.past, w.tracker.heap)
    && CommitsOk(w.commits, w.tracker.heap)
    && UsedOnce(w.workers, w.commits)
    && UsageOk(w.objs, w.usage, w.nextUid)
  }

  // ---- framing: growth of the heap and of the set of stored versions ----

  lemma HeapGrows(workers: map<Name, Worker>, past: set<(Name, Obj)>, commits: seq<Commit>, heap: seq<T.Entry>, heap': seq<T.Entry>)
    requires T.Persists(heap, heap')
    requires WorkersOk(workers, past, heap) && CommitsOk(commits, heap)
    ensures WorkersOk(workers, past, heap') && CommitsOk(commits, heap')
  {
    forall n | n in workers ensures WorkerOk(workers[n], n, past, heap') {
      assert WorkerOk(workers[n], n, past, heap);
    }
    forall i | 0 <= i < |commits| ensures CommitOk(commits[i], heap') {
      assert CommitOk(commits[i], heap);
    }
  }

  lemma PastGrows(workers: map<Name, Worker>, past: set<(Name, Obj)>, past': set<(Name, Obj)>, heap: seq<T.Entry>)
    requires past <= past' && WorkersOk(workers, past, heap)
    ensures WorkersOk(workers, past', heap)
  {
    forall n | n in workers ensures WorkerOk(workers[n], n, past', heap) {
      assert WorkerOk(workers[n], n, past, heap);
    }
  }

  /** Storing a new version of an app: fresh resource version, sound status, the app's own uid. */
  lemma PutKeepsVersions(w: World, name: Name, obj: Obj, nextUid: nat)
    requires VersionsOk(w.objs, w.past, w.nextRv, w.nextUid)
    requires StatusOk(obj.status) && obj.uid < nextUid && w.nextUid <= nextUid
    requires forall p :: p in w.past && p.1.uid == obj.uid ==> p.0 == name
    ensures var w' := Put(w, name, obj); VersionsOk(w'.objs, w'.past, w'.nextRv, nextUid)
  {
  }

  lemma OwnVersions(w: World, name: Name)
    requires VersionsOk(w.objs, w.past, w.nextRv, w.nextUid) && name in w.objs
    ensures StatusOk(w.objs[name].status) && w.objs[name].uid < w.nextUid
    ensures forall p :: p in w.past && p.1.uid == w.objs[name].uid ==> p.0 == name
  {
    assert (name, w.objs[name]) in w.past;
  }

  /** A user-side write: the status is untouched, so usage accounting is too. */
  lemma UserPutKeeps(w: World, name: Name, obj: Obj)
    requires Inv(w) && name in w.objs && obj.status == w.objs[name].status && obj.uid == w.objs[name].uid
    ensures Inv(Put(w, name, obj))
  {
    OwnVersions(w, name);
    PutKeepsVersions(w, name, obj, w.nextUid);
    PastGrows(w.workers, w.past, Put(w, name, obj).past, w.tracker.heap);
  }

  lemma UsageOfNewApp(objs: map<Name, Obj>, usage: seq<Usage>, nextUid: nat, name: Name, obj: Obj)
    requires UsageOk(objs, usage, nextUid) && obj.uid == nextUid && !obj.status.phase.Ready?
    ensures UsageOk(objs[name := obj], usage, nextUid + 1)
  {
    assert Kinds(usage, obj.uid) == [];
  }

  lemma CreateKeeps(w: World, name: Name, spec: Spec)
    requires Inv(w) && name !in w.objs
    ensures Inv(Put(w, name, Obj(w.nextUid, 1, 0, spec, EMPTY_STATUS, false)).(nextUid := w.nextUid + 1))
  {
    var obj := Obj(w.nextUid, 1, 0, spec, EMPTY_STATUS, false);
    assert StatusOk(EMPTY_STATUS);
    PutKeepsVersions(w, name, obj, w.nextUid + 1);
    PastGrows(w.workers, w.past, Put(w, name, obj).past, w.tracker.heap);
    UsageOfNewApp(w.objs, w.usage, w.nextUid, name, obj.(rv := w.nextRv));
  }

  /** Replacing the tracker by one with a persisting heap and well-keyed new entries. */
  lemma TrackerMoves(w: World, t: T.Tracker)
    requires Inv(w) && T.Inv(t) && T.Persists(w.tracker.heap, t.heap) && KeysOk(t.heap)
    ensures Inv(w.(tracker := t))
  {
    HeapGrows(w.workers, w.past, w.commits, w.tracker.heap, t.heap);
  }

  lemma ForgetMoves(w: World, uid: nat)
    requires Inv(w)
    ensures Inv(w.(tracker := T.Forget(w.tracker, uid)))
  {
    T.ForgetKeeps(w.tracker, uid);
    T.ForgetPersists(w.tracker, uid);
    TrackerMoves(w, T.Forget(w.tracker, uid));
  }

  /** A worker moves to a stage that uses no attempt. */
  lemma WorkerMoves(w: World, name: Name, k: Worker)
    requires Inv(w) && WorkerOk(k, name, w.past, w.tracker.heap) && Uses(k).None?
    ensures Inv(w.(workers := w.workers[name := k]))
  {
  }

  lemma BeginKeeps(w: World, name: Name, obj: Obj, env: Env)
    requires Inv(w) && Enabled(w, Begin(name, obj, env))
    ensures Inv(BeginPass(w, name, obj, env))
  {
    ForgetMoves(w, obj.uid);
    if !obj.deleting {
      var tracker := if Pass(obj.spec, obj.status, env, StillInjecting).forget then T.Forget(w.tracker, obj.uid) else w.tracker;
      var stage := if Injects(obj.spec, obj.status, env) then Peeking else Deciding(StillInjecting, None);
      WorkerMoves(w.(tracker := tracker), name, Worker(obj, env, stage));
    }
  }

  /** The decision a peek leads to is backed by an attempt for the very object the worker read. */
  lemma PeekBacks(w: World, name: Name, now: int)
    requires Inv(w) && name in w.workers
    ensures var k := w.workers[name];
            var (t, r) := T.Peek(w.tracker, k.obj.uid, KeyOf(PayloadOf(k.obj)), now);
            r.Finished? ==>
              && Backs(t.heap, r.id, k.obj, r.result.running, r.result.err)
              && r.id < |w.tracker.heap| && w.tracker.heap[r.id].consumers == []
  {
    var k := w.workers[name];
    var (t, r) := T.Peek(w.tracker, k.obj.uid, KeyOf(PayloadOf(k.obj)), now);
    if r.Finished? {
      T.PeekHandsOutOwnResult(w.tracker, k.obj.uid, KeyOf(PayloadOf(k.obj)), now);
      var p, q := w.tracker.heap[r.id].payload, PayloadOf(k.obj);
      assert (name, k.obj) in w.past by { assert WorkerOk(k, name, w.past, w.tracker.heap); }
      TokenInjective(p.target, p.generation, p.tarballRef, q.target, q.generation, q.tarballRef);
      T.PeekPersists(w.tracker, k.obj.uid, KeyOf(PayloadOf(k.obj)), now);
    }
  }

  /** An unconsumed attempt is used by nobody. */
  lemma NobodyUses(workers: map<Name, Worker>, past: set<(Name, Obj)>, commits: seq<Commit>, heap: seq<T.Entry>, id: nat)
    requires WorkersOk(workers, past, heap) && CommitsOk(commits, heap) && id < |heap| && heap[id].consumers == []
    ensures forall n :: n in workers ==> Uses(workers[n]) != Some(id)
    ensures forall i :: 0 <= i < |commits| ==> commits[i].attempt != Some(id)
  {
    forall n | n in workers ensures Uses(workers[n]) != Some(id) {
      assert WorkerOk(workers[n], n, past, heap);
    }
    forall i | 0 <= i < |commits| ensures commits[i].attempt != Some(id) {
      assert CommitOk(commits[i], heap);
    }
  }

  lemma UsedOnceTakes(workers: map<Name, Worker>, commits: seq<Commit>, name: Name, k: Worker, id: nat)
    requires UsedOnce(workers, commits) && Uses(k) == Some(id)
    requires forall n :: n in workers ==> Uses(workers[n]) != Some(id)
    requires forall i :: 0 <= i < |commits| ==> commits[i].attempt != Some(id)
    ensures UsedOnce(workers[name := k], commits)
  {
  }

  lemma WorkersTake(workers: map<Name, Worker>, past: set<(Name, Obj)>, heap: seq<T.Entry>, name: Name, k: Worker)
    requires WorkersOk(workers, past, heap) && WorkerOk(k, name, past, heap)
    ensures WorkersOk(workers[name := k], past, heap)
  {
    forall n | n in workers && n != name ensures WorkerOk(workers[n], n, past, heap) {
      assert WorkerOk(workers[n], n, past, heap);
    }
  }

  /** A worker starts using an attempt that nobody used before. */
  lemma WorkerTakes(w: World, name: Name, k: Worker, id: nat, unused: seq<T.Entry>)
    requires Inv(w) && WorkerOk(k, name, w.past, w.tracker.heap) && Uses(k) == Some(id)
    requires WorkersOk(w.workers, w.past, unused) && CommitsOk(w.commits, unused)
    requires id < |unused| && unused[id].consumers == []
    ensures Inv(w.(workers := w.workers[name := k]))
  {
    NobodyUses(w.workers, w.past, w.commits, unused, id);
    UsedOnceTakes(w.workers, w.commits, name, k, id);
    WorkersTake(w.workers, w.past, w.tracker.heap, name, k);
  }

  lemma PeekMoves(w: World, uid: nat, token: string, now: int)
    requires Inv(w)
    ensures Inv(w.(tracker := T.Peek(w.tracker, uid, token, now).0))
  {
    T.PeekKeeps(w.tracker, uid, token, now);
    T.PeekPersists(w.tracker, uid, token, now);
    TrackerMoves(w, T.Peek(w.tracker, uid, token, now).0);
  }

  lemma DecideKeeps(w: World, name: Name, now: int)
    requires Inv(w) && name in w.workers
    ensures Inv(SecondPeek(w, name, now))
  {
    var k := w.workers[name];
    var (t, r) := T.Peek(w.tracker, k.obj.uid, KeyOf(PayloadOf(k.obj)), now);
    var k' := k.(stage := Decided(r));
    PeekMoves(w, k.obj.uid, KeyOf(PayloadOf(k.obj)), now);
    PeekBacks(w, name, now);
    assert WorkerOk(k, name, w.past, w.tracker.heap);
    if r.Finished? {
      WorkerTakes(w.(tracker := t), name, k', r.id, w.tracker.heap);
    } else {
      WorkerMoves(w.(tracker := t), name, k');
    }
  }

  lemma FirstPeekKeeps(w: World, name: Name, now: int)
    requires Inv(w) && name in w.workers
    ensures Inv(FirstPeek(w, name, now))
  {
    var k := w.workers[name];
    var (t, r) := T.Peek(w.tracker, k.obj.uid, KeyOf(PayloadOf(k.obj)), now);
    if r.Nothing? {
      PeekMoves(w, k.obj.uid, KeyOf(PayloadOf(k.obj)), now);
      assert WorkerOk(k, name, w.past, w.tracker.heap);
      WorkerMoves(w.(tracker := t), name, k.(stage := Launching));
    } else {
      DecideKeeps(w, name, now);
    }
  }

  lemma LaunchKeepsKeys(t: T.Tracker, uid: nat, p: T.Payload, now: int)
    requires KeysOk(t.heap) && '|' !in p.target
    ensures KeysOk(T.Launch(t, uid, KeyOf(p), p, now).0.heap)
  {
  }

  lemma LaunchKeeps(w: World, name: Name, now: int)
    requires Inv(w) && name in w.workers
    ensures Inv(LaunchAttempt(w, name, now))
  {
    var k := w.workers[name];
    var p := PayloadOf(k.obj);
    var (t, id) := T.Launch(w.tracker, k.obj.uid, KeyOf(p), p, now);
    assert WorkerOk(k, name, w.past, w.tracker.heap);
    assert (name, k.obj) in w.past;
    T.LaunchKeeps(w.tracker, k.obj.uid, KeyOf(p), p, now);
    T.LaunchPersists(w.tracker, k.obj.uid, KeyOf(p), p, now);
    LaunchKeepsKeys(w.tracker, k.obj.uid, p, now);
    TrackerMoves(w, t);
    WorkerMoves(w.(tracker := t), name, k.(stage := Waiting(id)));
  }

  lemma GoroutineKeeps(w: World, ts: T.Step)
    requires Inv(w) && ByGoroutine(ts)
    ensures Inv(w.(tracker := T.Apply(w.tracker, ts)))
  {
    T.ApplyKeeps(w.tracker, ts);
    T.ApplyPersists(w.tracker, ts);
    assert |T.Apply(w.tracker, ts).heap| == |w.tracker.heap|;
    TrackerMoves(w, T.Apply(w.tracker, ts));
  }

  lemma RestartKeeps(w: World)
    requires Inv(w)
    ensures Inv(w.(tracker := T.Restart(w.tracker), workers := map[]))
  {
    T.RestartKeeps(w.tracker);
    T.RestartPersists(w.tracker);
    RestartKeepsKeys(w.tracker);
    CommitsSurvive(w.commits, w.tracker.heap, T.Restart(w.tracker).heap);
    NoWorkers(w.workers, w.commits);
  }

  lemma CommitsSurvive(commits: seq<Commit>, heap: seq<T.Entry>, heap': seq<T.Entry>)
    requires T.Persists(heap, heap') && CommitsOk(commits, heap)
    ensures CommitsOk(commits, heap')
  {
    HeapGrows(map[], {}, commits, heap, heap');
  }

  lemma NoWorkers(workers: map<Name, Worker>, commits: seq<Commit>)
    requires UsedOnce(workers, commits)
    ensures UsedOnce(map[], commits)
  {
  }

  lemma RestartKeepsKeys(t: T.Tracker)
    requires KeysOk(t.heap)
    ensures KeysOk(T.Restart(t).heap)
  {
  }

  // ---- committing a pass ----

  lemma AlternatesExtend(kinds: seq<bool>, ready: bool)
    requires Alternates(kinds) && ready == !Open(kinds)
    ensures Alternates(kinds + [ready]) && Open(kinds + [ready]) == ready
  {
  }

  lemma {:induction false} AlternatesBalance(kinds: seq<bool>)
    requires Alternates(kinds)
    ensures Balance(kinds) == if Open(kinds) then 1 else 0
  {
    if kinds != [] {
      var front := kinds[..|kinds| - 1];
      assert Alternates(front);
      AlternatesBalance(front);
      assert front != [] ==> front[|front| - 1] == kinds[|kinds| - 2];
    }
  }

  lemma KindsExtend(usage: seq<Usage>, e: Usage, u: nat)
    ensures Kinds(usage + [e], u) == Kinds(usage, u) + (if e.uid == u then [e.AppReady?] else [])
  {
    assert (usage + [e])[..|usage|] == usage;
  }

  /** Crossing the Ready boundary emits the event that keeps the app's alternation going, and no other app's. */
  lemma EmittedKeeps(usage: seq<Usage>, uid: nat, old': Phase, current: Phase)
    requires Alternates(Kinds(usage, uid)) && (old'.Ready? <==> Open(Kinds(usage, uid)))
    ensures var after := Kinds(usage + Emitted(uid, old', current), uid); Alternates(after) && (current.Ready? <==> Open(after))
    ensures forall u: nat :: u != uid ==> Kinds(usage + Emitted(uid, old', current), u) == Kinds(usage, u)
  {
    var emitted := Emitted(uid, old', current);
    if emitted == [] {
      assert usage + emitted == usage;
    } else {
      var e := emitted[0];
      assert emitted == [e];
      KindsExtend(usage, e, uid);
      AlternatesExtend(Kinds(usage, uid), e.AppReady?);
      forall u: nat | u != uid ensures Kinds(usage + emitted, u) == Kinds(usage, u) {
        KindsExtend(usage, e, u);
      }
    }
  }

  lemma UsageExtends(objs: map<Name, Obj>, usage: seq<Usage>, nextUid: nat, name: Name, after: Obj)
    requires UsageOk(objs, usage, nextUid) && name in objs && after.uid == objs[name].uid < nextUid
    requires forall n :: n in objs && n != name ==> objs[n].uid != after.uid
    ensures UsageOk(objs[name := after], usage + Emitted(after.uid, objs[name].status.phase, after.status.phase), nextUid)
  {
    EmittedKeeps(usage, after.uid, objs[name].status.phase, after.status.phase);
  }

  /** What a successful status write adds to the commit log is justified. */
  lemma CommitJustified(w: World, name: Name)
    requires Inv(w) && name in w.workers && w.workers[name].stage.Deciding?
    requires name in w.objs && w.objs[name].rv == w.workers[name].obj.rv
    ensures w.objs[name] == w.workers[name].obj
    ensures var k := w.workers[name];
            var after := w.objs[name].(status := Pass(k.obj.spec, k.obj.status, k.env, k.stage.inj).status, rv := w.nextRv);
            CommitOk(Commit(name, w.objs[name], after, k.stage.attempt), w.tracker.heap) && StatusOk(after.status)
  {
    var k := w.workers[name];
    assert WorkerOk(k, name, w.past, w.tracker.heap);
    assert (name, w.objs[name]) in w.past && (name, k.obj) in w.past;
    PassKeepsStatusOk(k.obj.spec, k.obj.status, k.env, k.stage.inj);
    var after := k.obj.(status := Pass(k.obj.spec, k.obj.status, k.env, k.stage.inj).status, rv := w.nextRv);
    if IntoReady(Commit(name, k.obj, after, k.stage.attempt)) {
      WaysIntoReady(k.obj.spec, k.obj.status, k.env, k.stage.inj);
    }
  }

  lemma DropWorker(w: World, name: Name)
    requires Inv(w)
    ensures Inv(w.(workers := w.workers - {name}))
  {
  }

  /** The log grows by the change of a worker that is done with its attempt. */
  lemma LogGrows(workers: map<Name, Worker>, commits: seq<Commit>, heap: seq<T.Entry>, name: Name, c: Commit)
    requires UsedOnce(workers, commits) && CommitsOk(commits, heap) && CommitOk(c, heap)
    requires name in workers && Uses(workers[name]) == c.attempt
    ensures UsedOnce(workers - {name}, commits + [c]) && CommitsOk(commits + [c], heap)
  {
  }

  /** Storing `status` for the object a deciding worker read, with its log and usage entries. */
  function Stored(w: World, name: Name, status: Status): World
    requires name in w.workers && w.workers[name].stage.Deciding? && name in w.objs
  {
    var k := w.workers[name];
    var before := w.objs[name];
    var put := Put(w.(workers := w.workers - {name}), name, before.(status := status));
    put.(commits := w.commits + [Commit(name, before, put.objs[name], k.stage.attempt)],
         usage := w.usage + Emitted(before.uid, before.status.phase, status.phase))
  }

  lemma StoredKeeps(w: World, name: Name, status: Status)
    requires Inv(w) && name in w.workers && w.workers[name].stage.Deciding? && name in w.objs
    requires StatusOk(status)
    requires CommitOk(Commit(name, w.objs[name], w.objs[name].(status := status, rv := w.nextRv), w.workers[name].stage.attempt), w.tracker.heap)
    ensures Inv(Stored(w, name, status))
  {
    var before := w.objs[name];
    var after := before.(status := status, rv := w.nextRv);
    var w' := Stored(w, name, status);
    OwnVersions(w, name);
    DropWorker(w, name);
    var idle := w.(workers := w.workers - {name});
    PutKeepsVersions(idle, name, before.(status := status), w.nextUid);
    PastGrows(idle.workers, w.past, w'.past, w.tracker.heap);
    forall n | n in w.objs && n != name ensures w.objs[n].uid != before.uid {
      assert (n, w.objs[n]) in w.past && (name, before) in w.past;
    }
    UsageExtends(w.objs, w.usage, w.nextUid, name, after);
    LogGrows(w.workers, w.commits, w.tracker.heap, name, Commit(name, before, after, w.workers[name].stage.attempt));
  }

  lemma FinishKeeps(w: World, name: Name, accepted: bool)
    requires Inv(w) && name in w.workers && w.workers[name].stage.Deciding?
    ensures Inv(FinishPass(w, name, accepted))
  {
    var k := w.workers[name];
    var status := Pass(k.obj.spec, k.obj.status, k.env, k.stage.inj).status;
    DropWorker(w, name);
    if name in w.objs && w.objs[name].rv == k.obj.rv {
      CommitJustified(w, name);
      StoredKeeps(w, name, status);
    }
    assert FinishPass(w, name, accepted) == w.(workers := w.workers - {name})
        || (name in w.objs && w.objs[name].rv == k.obj.rv && FinishPass(w, name, accepted) == Stored(w, name, status));
  }

  lemma RemoveKeeps(w: World, name: Name)
    requires Inv(w)
    ensures Inv(w.(objs := w.objs - {name}))
  {
    var objs := w.objs - {name};
    assert forall n :: n in objs ==> n in w.objs && objs[n] == w.objs[n];
  }

  /** The steps a pass takes on the inject tracker. */
  lemma InjectStepKeeps(w: World, step: Step)
    requires Inv(w) && Enabled(w, step) && (step.PeekOnce? || step.LaunchOnce? || step.GraceDone? || step.GraceTimeout?)
    ensures Inv(Apply(w, step))
  {
    match step
    case PeekOnce(name, now) => FirstPeekKeeps(w, name, now);
    case LaunchOnce(name, now) => LaunchKeeps(w, name, now);
    case GraceDone(name, now) => DecideKeeps(w, name, now);
    case GraceTimeout(name) =>
      assert WorkerOk(w.workers[name], name, w.past, w.tracker.heap);
      WorkerMoves(w, name, w.workers[name].(stage := Deciding(StillInjecting, None)));
  }

  lemma ApplyKeeps(w: World, step: Step)
    requires Inv(w)
    ensures Inv(Apply(w, step))
  {
    if Enabled(w, step) {
      match step
      case CreateApp(name, spec) => CreateKeeps(w, name, spec);
      case UserWrite(name, spec, generation, deleting) =>
        UserPutKeeps(w, name, w.objs[name].(spec := spec, generation := generation, deleting := deleting));
      case RemoveApp(name) => RemoveKeeps(w, name);
      case Begin(name, obj, env) => BeginKeeps(w, name, obj, env);
      case Finish(name, accepted) => FinishKeeps(w, name, accepted);
      case Goroutine(ts) => GoroutineKeeps(w, ts);
      case Restart => RestartKeeps(w);
      case _ => InjectStepKeeps(w, step);
    }
  }

  lemma {:induction false} EveryRunIsSafe(steps: seq<Step>)
    ensures Inv(Run(steps))
  {
    if steps == [] {
      T.EveryRunIsSafe([]);
    } else {
      EveryRunIsSafe(steps[..|steps| - 1]);
      ApplyKeeps(Run(steps[..|steps| - 1]), steps[|steps| - 1]);
    }
  }

  // ---- what follows for every run ----

  /** Every persisted general-lane step into Ready starts from Starting and consumed the result of an
      attempt that completed with running=true for the same uid, pod target, generation and source as
      the object that was stored. */
  lemma ReadyIsJustified(steps: seq<Step>, i: nat)
    requires i < |Run(steps).commits| && IntoReady(Run(steps).commits[i])
    ensures var c := Run(steps).commits[i];
            var heap := Run(steps).tracker.heap;
            && c.before.status.phase.Starting? && c.attempt.Some? && c.attempt.value < |heap|
            && var e := heap[c.attempt.value];
               && e.uid == c.after.uid
               && e.payload.target == c.after.status.podIP + ":9000"
               && e.payload.generation == c.after.generation
               && e.payload.tarballRef == c.after.spec.tarballRef
               && e.result.Some? && e.result.value.running && e.result.value.err.None?
  {
    EveryRunIsSafe(steps);
    assert CommitOk(Run(steps).commits[i], Run(steps).tracker.heap);
  }

  /** One completed attempt never justifies two persisted changes. */
  lemma AttemptsJustifyOnce(steps: seq<Step>, i: nat, j: nat)
    requires i < j < |Run(steps).commits| && Run(steps).commits[i].attempt.Some?
    ensures Run(steps).commits[i].attempt != Run(steps).commits[j].attempt
  {
    EveryRunIsSafe(steps);
  }

  /** Every reachable persisted status is sound. */
  lemma PersistedStatusIsSound(steps: seq<Step>, name: Name)
    requires name in Run(steps).objs
    ensures StatusOk(Run(steps).objs[name].status)
  {
    EveryRunIsSafe(steps);
    OwnVersions(Run(steps), name);
  }

  /** Usage events of an app alternate ready, stopped from the first on, and an interval is open
      exactly while the persisted phase of the live app is Ready. */
  lemma MeteringAlternates(steps: seq<Step>, name: Name)
    requires name in Run(steps).objs
    ensures var w := Run(steps);
            && Alternates(Kinds(w.usage, w.objs[name].uid))
            && Balance(Kinds(w.usage, w.objs[name].uid)) == (if w.objs[name].status.phase.Ready? then 1 else 0)
  {
    EveryRunIsSafe(steps);
    var kinds := Kinds(Run(steps).usage, Run(steps).objs[name].uid);
    assert Alternates(kinds);
    AlternatesBalance(kinds);
  }

  /** Exactly when a pass's status is stored, and what is stored: the pass asked for it, something changed, the write was
      accepted and the version read is still the current one. Then the object gets that status and a fresh resource
      version, and a usage event is recorded if and only if the phase enters or leaves Ready. */
  lemma FinishStoresIff(w: World, name: Name, accepted: bool)
    requires name in w.workers && w.workers[name].stage.Deciding?
    ensures var v, k := Apply(w, Finish(name, accepted)), w.workers[name];
            var o := Pass(k.obj.spec, k.obj.status, k.env, k.stage.inj);
            && v.workers == w.workers - {name} && v.tracker == w.tracker
            && if o.patch && !StatusEqual(k.obj.status, o.status) && accepted && name in w.objs && w.objs[name].rv == k.obj.rv then
                 && v.objs == w.objs[name := w.objs[name].(status := o.status, rv := w.nextRv)] && v.nextRv == w.nextRv + 1
                 && v.usage == w.usage + (if k.obj.status.phase != Ready && o.status.phase == Ready then [AppReady(w.objs[name].uid)]
                                          else if k.obj.status.phase == Ready && o.status.phase != Ready then [AppStopped(w.objs[name].uid)]
                                          else [])
                 && v.commits == w.commits + [Commit(name, w.objs[name], v.objs[name], k.stage.attempt)]
               else v.objs == w.objs && v.usage == w.usage && v.commits == w.commits
  {
  }

  /** What a peek makes of a worker: with nothing tracked for its delivery it launches one; with one in flight it decides
      without a result; with a finished one it decides on that result and notes whose it is. */
  lemma PeekDecides(w: World, name: Name, now: int)
    requires AtStage(w, name, Peeking)
    ensures var v, k := Apply(w, PeekOnce(name, now)), w.workers[name];
            var r := T.Peek(w.tracker, k.obj.uid, Token(k.obj.status.podIP + ":9000", k.obj.generation, k.obj.spec.tarballRef), now).1;
            && v.objs == w.objs && v.commits == w.commits && name in v.workers
            && v.workers[name] == k.(stage := match r
                                             case Nothing => Launching
                                             case InFlight => Deciding(StillInjecting, None)
                                             case Finished(id, result) => Deciding(Injected(result.running, result.err), Some(id)))
  {
  }

  /** When a pass consults the tracker, and when it drops what is tracked: a deleted app's pass only drops. */
  lemma BeginConsultsIff(w: World, name: Name, obj: Obj, env: Env)
    requires Enabled(w, Begin(name, obj, env))
    ensures var v := Apply(w, Begin(name, obj, env));
            if obj.deleting then v.workers == w.workers && v.tracker == T.Forget(w.tracker, obj.uid)
            else
              && name in v.workers && v.workers[name].obj == obj && v.workers[name].env == env
              && (v.workers[name].stage == Peeking <==>
                    && (obj.spec.tarballRef != "") != (obj.spec.gitRef != "") && obj.spec.lane != "" && !obj.spec.suspended
                    && !(obj.spec.lane == "fast" && obj.spec.template == "workerd")
                    && obj.status.phase == Starting && obj.status.podIP != "" && env.probe == Ok(true))
              && (v.workers[name].stage != Peeking ==> v.workers[name].stage == Deciding(StillInjecting, None))
  {
  }

  /** What a worker launches, and what it makes of the attempt afterwards: the delivery is the pod's agent, the generation
      and the source of the object it read; once the attempt is done it decides on its own result, if it is still there,
      and after the grace period without one. */
  lemma LaunchDecides(w: World, name: Name, now: int)
    ensures AtStage(w, name, Launching) ==>
              var v, k := Apply(w, LaunchOnce(name, now)), w.workers[name];
              var p := T.Payload(k.obj.status.podIP + ":9000", k.obj.generation, k.obj.spec.tarballRef);
              var launched := T.Launch(w.tracker, k.obj.uid, Token(p.target, p.generation, p.tarballRef), p, now);
              v.tracker == launched.0 && v.workers == w.workers[name := k.(stage := Waiting(launched.1))] && v.objs == w.objs
    ensures Enabled(w, GraceDone(name, now)) ==>
              var v, k := Apply(w, GraceDone(name, now)), w.workers[name];
              var peeked := T.Peek(w.tracker, k.obj.uid, Token(k.obj.status.podIP + ":9000", k.obj.generation, k.obj.spec.tarballRef), now);
              && v.tracker == peeked.0 && v.objs == w.objs
              && v.workers == w.workers[name := k.(stage := if peeked.1.Finished?
                                                            then Deciding(Injected(peeked.1.result.running, peeked.1.result.err), Some(peeked.1.id))
                                                            else Deciding(StillInjecting, None))]
    ensures Enabled(w, GraceTimeout(name)) ==>
              Apply(w, GraceTimeout(name)) == w.(workers := w.workers[name := w.workers[name].(stage := Deciding(StillInjecting, None))])
  {
  }
}
