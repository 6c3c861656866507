/** The asynchronous inject tracker (internal/controller/asyncinject.go).

    Injects run in goroutines keyed by (uid, token). A goroutine keeps a pointer to its entry for
    as long as it lives, while the map forgets, overwrites or evicts entries underneath it. Entry
    pointers are indices into `heap`, which keeps every attempt ever launched. */
module InjectTracker {
  import opened Wrappers

  type Uid = nat

  const MAX_CONCURRENT_INJECTS := 8
  /** Five minutes, in nanoseconds. */
  const INJECT_RESULT_TTL := 300_000_000_000

  /** The deep-copied app and target a goroutine delivers. */
  datatype Payload = Payload(target: string, generation: int, tarballRef: string)

  datatype InjectResult = InjectResult(running: bool, err: Option<string>, completedAt: int)

  /** Where an attempt's goroutine stands: waiting for a slot, inside Inject, finished but with its
      deferred slot release still to run, or gone. */
  datatype Stage = Queued | Injecting | Recorded | Exited

  /** One attempt. `result` is Some once state is injectDone; `consumers` lists the (uid, token)
      pairs its result was handed out under. */
  datatype Entry = Entry(
    uid: Uid, token: string, payload: Payload, result: Option<InjectResult>,
    doneCloses: nat, cancelled: bool, managed: bool, stage: Stage, consumers: seq<(Uid, string)>)
  {
    predicate Done() { result.Some? }

    predicate HoldsSlot() { stage.Injecting? || stage.Recorded? }

    predicate Expired(now: int) { result.Some? && now - result.value.completedAt > INJECT_RESULT_TTL }
  }

  /** The context attempts derive from: the background one, or the manager's once run has started. */
  datatype Base = Background | Managed(cancelled: bool)

  datatype TrackerData = Tracker(entries: map<Uid, nat>, heap: seq<Entry>, slots: nat, base: Base)

  /** Tracked pointers point at allocated entries. */
  type Tracker = t: TrackerData | forall u :: u in t.entries ==> t.entries[u] < |t.heap|
    witness Tracker(map[], [], 0, Background)

  const EMPTY: Tracker := Tracker(map[], [], 0, Background)

  datatype PeekResult = Nothing | InFlight | Finished(id: nat, result: InjectResult)

  function Evicted(entries: map<Uid, nat>, heap: seq<Entry>, now: int): (r: map<Uid, nat>)
    requires forall u :: u in entries ==> entries[u] < |heap|
  {
    map u | u in entries && !heap[entries[u]].Expired(now) :: entries[u]
  }

  function Peek(t: Tracker, uid: Uid, token: string, now: int): (r: (Tracker, PeekResult)) {
    var es := Evicted(t.entries, t.heap, now);
    if uid !in es || t.heap[es[uid]].token != token then (t.(entries := es), Nothing)
    else
      var id := es[uid];
      var e := t.heap[id];
      if e.result.None? then (t.(entries := es), InFlight)
      else
        var e' := e.(consumers := e.consumers + [(uid, token)]);
        (t.(entries := es - {uid}, heap := t.heap[id := e']), Finished(id, e.result.value))
  }

  /** The launched (or already tracked) attempt's index comes second. */
  function Launch(t: Tracker, uid: Uid, token: string, payload: Payload, now: int): (r: (Tracker, nat))
    ensures r.1 < |r.0.heap|
  {
    var es := Evicted(t.entries, t.heap, now);
    if uid in es && t.heap[es[uid]].token == token then (t.(entries := es), es[uid])
    else
      var heap := if uid in es then t.heap[es[uid] := t.heap[es[uid]].(cancelled := true)] else t.heap;
      var launched := Entry(uid, token, payload, None, 0, t.base == Managed(true), t.base.Managed?, Queued, []);
      (t.(entries := es[uid := |heap|], heap := heap + [launched]), |heap|)
  }

  function Forget(t: Tracker, uid: Uid): Tracker {
    if uid !in t.entries then t
    else
      var id := t.entries[uid];
      t.(entries := t.entries - {uid}, heap := t.heap[id := t.heap[id].(cancelled := true)])
  }

  /** The goroutine of attempt `id` wins a semaphore slot. */
  function Acquire(t: Tracker, id: nat): Tracker {
    if id < |t.heap| && t.heap[id].stage.Queued? && t.slots < MAX_CONCURRENT_INJECTS
    then t.(heap := t.heap[id := t.heap[id].(stage := Injecting)], slots := t.slots + 1)
    else t
  }

  function WithRecord(e: Entry, r: InjectResult, next: Stage): Entry {
    e.(result := Some(r), cancelled := true, doneCloses := e.doneCloses + 1, stage := next)
  }

  /** The goroutine is cancelled while queued: it records the context error and returns. */
  function GiveUp(t: Tracker, id: nat, now: int): Tracker {
    if id < |t.heap| && t.heap[id].stage.Queued? && t.heap[id].cancelled
    then t.(heap := t.heap[id := WithRecord(t.heap[id], InjectResult(false, Some("context canceled"), now), Exited)])
    else t
  }

  /** The Inject call of attempt `id` returns and its result is recorded. */
  function Return(t: Tracker, id: nat, running: bool, err: Option<string>, now: int): Tracker {
    if id < |t.heap| && t.heap[id].stage.Injecting?
    then t.(heap := t.heap[id := WithRecord(t.heap[id], InjectResult(running, err, now), Recorded)])
    else t
  }

  /** The deferred slot release. */
  function ReleaseSlot(t: Tracker, id: nat): Tracker {
    if id < |t.heap| && t.heap[id].stage.Recorded? && t.slots > 0
    then t.(heap := t.heap[id := t.heap[id].(stage := Exited)], slots := t.slots - 1)
    else t
  }

  function MapHeap(heap: seq<Entry>, f: Entry -> Entry): (r: seq<Entry>)
    ensures |r| == |heap| && forall i :: 0 <= i < |heap| ==> r[i] == f(heap[i])
  {
    seq(|heap|, i requires 0 <= i < |heap| => f(heap[i]))
  }

  /** The manager context is done: every attempt derived from it is cancelled. */
  function Shutdown(t: Tracker): Tracker {
    if !t.base.Managed? then t
    else t.(base := Managed(true), heap := MapHeap(t.heap, (e: Entry) => e.(cancelled := e.cancelled || e.managed)))
  }

  /** The process dies and a new one starts: no goroutine and no tracked entry survives. */
  function Restart(t: Tracker): Tracker {
    Tracker(map[], MapHeap(t.heap, (e: Entry) => e.(cancelled := true, stage := Exited)), 0, Background)
  }

  datatype Step =
    | DoPeek(uid: Uid, token: string, now: int)
    | DoLaunch(uid: Uid, token: string, payload: Payload, now: int)
    | DoForget(uid: Uid)
    | DoAcquire(id: nat)
    | DoGiveUp(id: nat, now: int)
    | DoReturn(id: nat, running: bool, err: Option<string>, now: int)
    | DoReleaseSlot(id: nat)
    | DoRun
    | DoShutdown
    | DoRestart

  function Apply(t: Tracker, step: Step): Tracker {
    match step
    case DoPeek(uid, token, now) => Peek(t, uid, token, now).0
    case DoLaunch(uid, token, payload, now) => Launch(t, uid, token, payload, now).0
    case DoForget(uid) => Forget(t, uid)
    case DoAcquire(id) => Acquire(t, id)
    case DoGiveUp(id, now) => GiveUp(t, id, now)
    case DoReturn(id, running, err, now) => Return(t, id, running, err, now)
    case DoReleaseSlot(id) => ReleaseSlot(t, id)
    case DoRun => t.(base := Managed(false))
    case DoShutdown => Shutdown(t)
    case DoRestart => Restart(t)
  }

  function Run(steps: seq<Step>): Tracker {
    if steps == [] then EMPTY else Apply(Run(steps[..|steps| - 1]), steps[|steps| - 1])
  }

  /** The attempts that sit in the semaphore. */
  function Holders(heap: seq<Entry>): set<nat> {
    set i | 0 <= i < |heap| && heap[i].HoldsSlot()
  }

  /** What one attempt must satisfy, given what the map tracks. */
  ghost predicate EntryOk(t: Tracker, id: nat)
    requires id < |t.heap|
  {
    var e := t.heap[id];
    // an unfinished attempt is the tracked one of its app, or it is already cancelled
    && (!e.Done() ==> e.cancelled || (e.uid in t.entries && t.entries[e.uid] == id))
    // the done channel is closed exactly when the result is recorded, and once
    && e.doneCloses == (if e.Done() then 1 else 0)
    && (e.Done() ==> e.cancelled && (e.stage.Recorded? || e.stage.Exited?))
    && (e.stage.Recorded? ==> e.Done())
    // a result is handed out at most once, and only under the attempt's own key
    && |e.consumers| <= 1
    && (e.consumers != [] ==> e.Done() && e.consumers[0] == (e.uid, e.token)
                              && !(e.uid in t.entries && t.entries[e.uid] == id))
  }

  ghost predicate Inv(t: Tracker) {
    && (forall u :: u in t.entries ==> t.heap[t.entries[u]].uid == u)
    && (forall id :: 0 <= id < |t.heap| ==> EntryOk(t, id))
    && t.slots == |Holders(t.heap)|
    && t.slots <= MAX_CONCURRENT_INJECTS
  }

  lemma HoldersSame(heap: seq<Entry>, heap': seq<Entry>)
    requires |heap| <= |heap'|
    requires forall i :: 0 <= i < |heap| ==> heap'[i].HoldsSlot() == heap[i].HoldsSlot()
    requires forall i :: |heap| <= i < |heap'| ==> !heap'[i].HoldsSlot()
    ensures Holders(heap') == Holders(heap)
  {
  }

  lemma EvictKeeps(t: Tracker, now: int)
    requires Inv(t)
    ensures Inv(t.(entries := Evicted(t.entries, t.heap, now)))
  {
    var t' := t.(entries := Evicted(t.entries, t.heap, now));
    forall id | 0 <= id < |t'.heap| ensures EntryOk(t', id) {
      assert EntryOk(t, id);
    }
  }

  /** Consuming the tracked result of `uid`: what Peek does once expired results are gone. */
  lemma ConsumeKeeps(t: Tracker, uid: Uid)
    requires Inv(t) && uid in t.entries && t.heap[t.entries[uid]].Done()
    ensures var id := t.entries[uid];
            var e := t.heap[id];
            Inv(t.(entries := t.entries - {uid}, heap := t.heap[id := e.(consumers := e.consumers + [(uid, e.token)])]))
  {
    var id := t.entries[uid];
    var e := t.heap[id];
    var t' := t.(entries := t.entries - {uid}, heap := t.heap[id := e.(consumers := e.consumers + [(uid, e.token)])]);
    HoldersSame(t.heap, t'.heap);
    forall i | 0 <= i < |t'.heap| ensures EntryOk(t', i) {
      assert EntryOk(t, i);
    }
  }

  lemma PeekKeeps(t: Tracker, uid: Uid, token: string, now: int)
    requires Inv(t)
    ensures Inv(Peek(t, uid, token, now).0)
  {
    EvictKeeps(t, now);
    var t1 := t.(entries := Evicted(t.entries, t.heap, now));
    if uid in t1.entries && t1.heap[t1.entries[uid]].token == token && t1.heap[t1.entries[uid]].Done() {
      ConsumeKeeps(t1, uid);
    }
  }

  /** Overwriting the entry of `uid` with a new attempt, cancelling the one it replaces. */
  lemma ReplaceKeeps(t: Tracker, uid: Uid, e: Entry)
    requires Inv(t) && e.uid == uid
    requires !e.Done() && e.doneCloses == 0 && e.stage.Queued? && e.consumers == []
    ensures var heap := if uid in t.entries then t.heap[t.entries[uid] := t.heap[t.entries[uid]].(cancelled := true)] else t.heap;
            Inv(t.(entries := t.entries[uid := |heap|], heap := heap + [e]))
  {
    var heap := if uid in t.entries then t.heap[t.entries[uid] := t.heap[t.entries[uid]].(cancelled := true)] else t.heap;
    var t' := t.(entries := t.entries[uid := |heap|], heap := heap + [e]);
    HoldersSame(t.heap, t'.heap);
    forall i | 0 <= i < |t'.heap| ensures EntryOk(t', i) {
      if i < |t.heap| {
        assert EntryOk(t, i);
      }
    }
  }

  lemma LaunchKeeps(t: Tracker, uid: Uid, token: string, payload: Payload, now: int)
    requires Inv(t)
    ensures Inv(Launch(t, uid, token, payload, now).0)
  {
    EvictKeeps(t, now);
    var t1 := t.(entries := Evicted(t.entries, t.heap, now));
    if !(uid in t1.entries && t1.heap[t1.entries[uid]].token == token) {
      ReplaceKeeps(t1, uid, Entry(uid, token, payload, None, 0, t.base == Managed(true), t.base.Managed?, Queued, []));
    }
  }

  lemma ForgetKeepsEntry(t: Tracker, uid: Uid, id: nat)
    requires uid in t.entries && t.heap[t.entries[uid]].uid == uid && id < |t.heap| && EntryOk(t, id)
    ensures EntryOk(Forget(t, uid), id)
  {
  }

  lemma ForgetKeeps(t: Tracker, uid: Uid)
    requires Inv(t)
    ensures Inv(Forget(t, uid))
  {
    if uid in t.entries {
      var t' := Forget(t, uid);
      HoldersSame(t.heap, t'.heap);
      forall id | 0 <= id < |t'.heap| ensures EntryOk(t', id) {
        ForgetKeepsEntry(t, uid, id);
      }
    }
  }

  lemma HoldersGain(heap: seq<Entry>, id: nat, e: Entry)
    requires id < |heap| && !heap[id].HoldsSlot() && e.HoldsSlot()
    ensures |Holders(heap[id := e])| == |Holders(heap)| + 1
  {
    assert Holders(heap[id := e]) == Holders(heap) + {id};
  }

  lemma AcquireKeeps(t: Tracker, id: nat)
    requires Inv(t)
    ensures Inv(Acquire(t, id))
  {
    if id < |t.heap| && t.heap[id].stage.Queued? && t.slots < MAX_CONCURRENT_INJECTS {
      var t' := Acquire(t, id);
      HoldersGain(t.heap, id, t.heap[id].(stage := Injecting));
      forall i | 0 <= i < |t'.heap| ensures EntryOk(t', i) {
        assert EntryOk(t, i);
      }
    }
  }

  lemma GiveUpKeeps(t: Tracker, id: nat, now: int)
    requires Inv(t)
    ensures Inv(GiveUp(t, id, now))
  {
    var t' := GiveUp(t, id, now);
    HoldersSame(t.heap, t'.heap);
    forall i | 0 <= i < |t'.heap| ensures EntryOk(t', i) {
      assert EntryOk(t, i);
    }
  }

  lemma ReturnKeeps(t: Tracker, id: nat, running: bool, err: Option<string>, now: int)
    requires Inv(t)
    ensures Inv(Return(t, id, running, err, now))
  {
    var t' := Return(t, id, running, err, now);
    HoldersSame(t.heap, t'.heap);
    forall i | 0 <= i < |t'.heap| ensures EntryOk(t', i) {
      assert EntryOk(t, i);
    }
  }

  lemma HoldersLose(heap: seq<Entry>, id: nat, e: Entry)
    requires id < |heap| && heap[id].HoldsSlot() && !e.HoldsSlot()
    ensures |Holders(heap[id := e])| + 1 == |Holders(heap)|
  {
    assert Holders(heap) == Holders(heap[id := e]) + {id};
  }

  lemma ReleaseSlotKeeps(t: Tracker, id: nat)
    requires Inv(t)
    ensures Inv(ReleaseSlot(t, id))
  {
    if id < |t.heap| && t.heap[id].stage.Recorded? && t.slots > 0 {
      var t' := ReleaseSlot(t, id);
      HoldersLose(t.heap, id, t.heap[id].(stage := Exited));
      forall i | 0 <= i < |t'.heap| ensures EntryOk(t', i) {
        assert EntryOk(t, i);
      }
    }
  }

  lemma ShutdownKeeps(t: Tracker)
    requires Inv(t)
    ensures Inv(Shutdown(t))
  {
    var t' := Shutdown(t);
    HoldersSame(t.heap, t'.heap);
    forall i | 0 <= i < |t'.heap| ensures EntryOk(t', i) {
      assert EntryOk(t, i);
    }
  }

  lemma RestartKeeps(t: Tracker)
    requires Inv(t)
    ensures Inv(Restart(t))
  {
    var t' := Restart(t);
    assert Holders(t'.heap) == {};
    forall i | 0 <= i < |t'.heap| ensures EntryOk(t', i) {
      assert EntryOk(t, i);
    }
  }

  /** The steps of the reconcilers. */
  lemma CallerStepKeeps(t: Tracker, step: Step)
    requires Inv(t) && (step.DoPeek? || step.DoLaunch? || step.DoForget?)
    ensures Inv(Apply(t, step))
  {
    match step
    case DoPeek(uid, token, now) => PeekKeeps(t, uid, token, now);
    case DoLaunch(uid, token, payload, now) => LaunchKeeps(t, uid, token, payload, now);
    case DoForget(uid) => ForgetKeeps(t, uid);
  }

  /** The steps of the goroutines around the semaphore. */
  lemma SlotStepKeeps(t: Tracker, step: Step)
    requires Inv(t) && (step.DoAcquire? || step.DoReleaseSlot?)
    ensures Inv(Apply(t, step))
  {
    if step.DoAcquire? {
      AcquireKeeps(t, step.id);
    } else {
      ReleaseSlotKeeps(t, step.id);
    }
  }

  /** The steps in which a goroutine finishes its attempt. */
  lemma FinishStepKeeps(t: Tracker, step: Step)
    requires Inv(t) && (step.DoGiveUp? || step.DoReturn?)
    ensures Inv(Apply(t, step))
  {
    match step
    case DoGiveUp(id, now) => GiveUpKeeps(t, id, now);
    case DoReturn(id, running, err, now) => ReturnKeeps(t, id, running, err, now);
  }

  lemma StartRunKeeps(t: Tracker)
    requires Inv(t)
    ensures Inv(Apply(t, DoRun))
  {
    var t' := Apply(t, DoRun);
    forall i | 0 <= i < |t'.heap| ensures EntryOk(t', i) {
      assert EntryOk(t, i);
    }
  }

  lemma ApplyKeeps(t: Tracker, step: Step)
    requires Inv(t)
    ensures Inv(Apply(t, step))
  {
    if step.DoPeek? || step.DoLaunch? || step.DoForget? {
      CallerStepKeeps(t, step);
    } else if step.DoRun? {
      StartRunKeeps(t);
    } else if step.DoShutdown? {
      ShutdownKeeps(t);
    } else if step.DoRestart? {
      RestartKeeps(t);
    } else if step.DoAcquire? || step.DoReleaseSlot? {
      SlotStepKeeps(t, step);
    } else {
      FinishStepKeeps(t, step);
    }
  }

  /** Every run of the tracker, whatever the interleaving, keeps the invariant. */
  lemma {:induction false} EveryRunIsSafe(steps: seq<Step>)
    ensures Inv(Run(steps))
  {
    if steps == [] {
      assert Holders(EMPTY.heap) == {};
    } else {
      EveryRunIsSafe(steps[..|steps| - 1]);
      ApplyKeeps(Run(steps[..|steps| - 1]), steps[|steps| - 1]);
    }
  }

  /** At most one attempt per app is both unfinished and uncancelled. */
  lemma OneLiveAttemptPerApp(steps: seq<Step>, i: nat, j: nat)
    requires i < |Run(steps).heap| && j < |Run(steps).heap|
    requires Run(steps).heap[i].uid == Run(steps).heap[j].uid
    requires !Run(steps).heap[i].Done() && !Run(steps).heap[i].cancelled
    requires !Run(steps).heap[j].Done() && !Run(steps).heap[j].cancelled
    ensures i == j
  {
    EveryRunIsSafe(steps);
    assert EntryOk(Run(steps), i) && EntryOk(Run(steps), j);
  }

  /** No slot is leaked: the semaphore drains exactly when no goroutine is inside it. */
  lemma NoSlotLeaked(steps: seq<Step>)
    ensures Run(steps).slots == 0 <==>
            forall i :: 0 <= i < |Run(steps).heap| ==> !Run(steps).heap[i].HoldsSlot()
  {
    EveryRunIsSafe(steps);
    var t := Run(steps);
    if t.slots == 0 {
      forall i | 0 <= i < |t.heap| ensures !t.heap[i].HoldsSlot() {
        assert i !in Holders(t.heap);
      }
    } else {
      var i :| i in Holders(t.heap);
      assert t.heap[i].HoldsSlot();
    }
  }

  /** What a recorded result can still undergo: nothing. Attempts keep their identity and, once
      recorded, their result; consumption only ever grows. */
  ghost predicate Persists(heap: seq<Entry>, heap': seq<Entry>) {
    && |heap| <= |heap'|
    && forall i :: 0 <= i < |heap| ==>
         && heap'[i].uid == heap[i].uid && heap'[i].token == heap[i].token && heap'[i].payload == heap[i].payload
         && (heap[i].Done() ==> heap'[i].result == heap[i].result)
         && heap[i].consumers <= heap'[i].consumers
  }

  lemma PeekPersists(t: Tracker, uid: Uid, token: string, now: int)
    ensures Persists(t.heap, Peek(t, uid, token, now).0.heap)
  {
  }

  lemma LaunchPersists(t: Tracker, uid: Uid, token: string, payload: Payload, now: int)
    ensures Persists(t.heap, Launch(t, uid, token, payload, now).0.heap)
  {
  }

  lemma ForgetPersists(t: Tracker, uid: Uid)
    ensures Persists(t.heap, Forget(t, uid).heap)
  {
  }

  lemma RestartPersists(t: Tracker)
    ensures Persists(t.heap, Restart(t).heap)
  {
  }

  lemma RecordPersists(t: Tracker, id: nat, r: InjectResult, next: Stage)
    requires id < |t.heap| && !t.heap[id].Done()
    ensures Persists(t.heap, t.heap[id := WithRecord(t.heap[id], r, next)])
  {
  }

  /** A recorded result survives every step of every goroutine unchanged. */
  lemma ApplyPersists(t: Tracker, step: Step)
    requires Inv(t)
    ensures Persists(t.heap, Apply(t, step).heap)
  {
    match step
    case DoPeek(uid, token, now) => PeekPersists(t, uid, token, now);
    case DoLaunch(uid, token, payload, now) => LaunchPersists(t, uid, token, payload, now);
    case DoForget(uid) => ForgetPersists(t, uid);
    case DoAcquire(id) =>
    case DoGiveUp(id, now) =>
      if Apply(t, step) != t {
        assert EntryOk(t, id);
        RecordPersists(t, id, InjectResult(false, Some("context canceled"), now), Exited);
      }
    case DoReturn(id, running, err, now) =>
      if Apply(t, step) != t {
        assert EntryOk(t, id);
        RecordPersists(t, id, InjectResult(running, err, now), Recorded);
      }
    case DoReleaseSlot(id) =>
    case DoRun =>
    case DoShutdown =>
    case DoRestart =>
  }

  /** A result is only ever handed to the caller that asks under the attempt's own (uid, token),
      while that attempt is tracked, finished and unconsumed. */
  lemma PeekHandsOutOwnResult(t: Tracker, uid: Uid, token: string, now: int)
    requires Inv(t) && Peek(t, uid, token, now).1.Finished?
    ensures var (t', r) := Peek(t, uid, token, now);
            && r.id < |t.heap| && t.heap[r.id].result == Some(r.result)
            && t.heap[r.id].uid == uid && t.heap[r.id].token == token
            && t.heap[r.id].consumers == [] && t'.heap[r.id].consumers == [(uid, token)]
  {
    var id := Peek(t, uid, token, now).1.id;
    assert EntryOk(t, id);
  }

  // ---- what each operation does, without its code ----

  /** The app has a tracked attempt, and it has no result older than five minutes. */
  ghost predicate LiveFor(t: Tracker, uid: Uid, now: int) {
    && uid in t.entries
    && var r := t.heap[t.entries[uid]].result;
       r.Some? ==> now - r.value.completedAt <= 300_000_000_000
  }

  /** Eviction drops a tracked attempt exactly if it has a result older than five minutes. */
  lemma EvictionIsByAge(t: Tracker, now: int, uid: Uid)
    ensures var es := Evicted(t.entries, t.heap, now);
            && (uid in es <==> LiveFor(t, uid, now))
            && (uid in es ==> es[uid] == t.entries[uid])
  {
  }

  /** The exact answer of a peek. Finished: an attempt of this app is tracked under this token with a result at most five
      minutes old; the result is consumed and the attempt no longer tracked. In flight: one is tracked under this token
      without a result. Nothing: otherwise. */
  lemma PeekAnswers(t: Tracker, uid: Uid, token: string, now: int)
    ensures var (t', r) := Peek(t, uid, token, now);
            if LiveFor(t, uid, now) && t.heap[t.entries[uid]].token == token then
              var e := t.heap[t.entries[uid]];
              if e.result.Some? then r == Finished(t.entries[uid], e.result.value) && uid !in t'.entries
              else r == InFlight && uid in t'.entries && t'.entries[uid] == t.entries[uid]
            else r == Nothing
    ensures var (t', r) := Peek(t, uid, token, now);
            && (forall u :: u != uid ==> (u in t'.entries <==> LiveFor(t, u, now)))
            && t'.slots == t.slots && t'.base == t.base && |t'.heap| == |t.heap|
            && (forall i :: 0 <= i < |t.heap| ==>
                  t'.heap[i] == if r.Finished? && i == r.id then t.heap[i].(consumers := t.heap[i].consumers + [(uid, token)]) else t.heap[i])
  {
    EvictionIsByAge(t, now, uid);
  }

  /** The exact effect of a launch. If an attempt of this app is tracked under this token with no result older than five
      minutes, it is returned and nothing is started. Otherwise a new attempt with this payload is queued and tracked, and
      the one tracked before, unless it was evicted, is cancelled. */
  lemma LaunchStarts(t: Tracker, uid: Uid, token: string, payload: Payload, now: int)
    ensures var (t', id) := Launch(t, uid, token, payload, now);
            && uid in t'.entries && t'.entries[uid] == id && t'.slots == t.slots && t'.base == t.base
            && (forall u :: u != uid ==> (u in t'.entries <==> LiveFor(t, u, now)))
            && if LiveFor(t, uid, now) && t.heap[t.entries[uid]].token == token then id == t.entries[uid] && t'.heap == t.heap
               else
                 && id == |t.heap| && |t'.heap| == |t.heap| + 1
                 && t'.heap[id] == Entry(uid, token, payload, None, 0, t.base == Managed(true), t.base.Managed?, Queued, [])
                 && forall i :: 0 <= i < |t.heap| ==>
                      t'.heap[i] == if LiveFor(t, uid, now) && i == t.entries[uid] then t.heap[i].(cancelled := true) else t.heap[i]
  {
    EvictionIsByAge(t, now, uid);
  }

  /** A forgotten app is no longer tracked and its attempt is cancelled; nothing else changes. */
  lemma ForgetDrops(t: Tracker, uid: Uid)
    ensures var t' := Forget(t, uid);
            && t'.entries == t.entries - {uid} && t'.slots == t.slots && t'.base == t.base && |t'.heap| == |t.heap|
            && forall i :: 0 <= i < |t.heap| ==>
                 t'.heap[i] == if uid in t.entries && i == t.entries[uid] then t.heap[i].(cancelled := true) else t.heap[i]
  {
  }

  /** A queued attempt gets a slot exactly if fewer than eight are in use. */
  lemma AcquireIff(t: Tracker, id: nat)
    requires id < |t.heap| && t.heap[id].stage.Queued?
    ensures var t' := Acquire(t, id);
            if t.slots < 8 then t'.heap == t.heap[id := t.heap[id].(stage := Injecting)] && t'.slots == t.slots + 1 else t' == t
  {
  }

  /** What a goroutine records: the outcome of its Inject call, or, if it was cancelled while it waited, the context's
      error as a failure; either way once, under its own entry, with the done channel closed. */
  lemma ResultsAreRecorded(t: Tracker, id: nat, running: bool, err: Option<string>, now: int)
    requires id < |t.heap|
    ensures t.heap[id].stage.Injecting? ==>
              var e := Return(t, id, running, err, now).heap[id];
              e.result == Some(InjectResult(running, err, now)) && e.stage == Recorded && e.doneCloses == t.heap[id].doneCloses + 1
    ensures t.heap[id].stage.Queued? && t.heap[id].cancelled ==>
              var e := GiveUp(t, id, now).heap[id];
              e.result == Some(InjectResult(false, Some("context canceled"), now)) && e.stage == Exited && e.doneCloses == t.heap[id].doneCloses + 1
    ensures !t.heap[id].stage.Injecting? ==> Return(t, id, running, err, now) == t
    ensures !(t.heap[id].stage.Queued? && t.heap[id].cancelled) ==> GiveUp(t, id, now) == t
  {
  }

  /** A goroutine that has recorded its result gives its slot back. */
  lemma SlotIsReleased(t: Tracker, id: nat)
    requires Inv(t) && id < |t.heap| && t.heap[id].stage.Recorded?
    ensures ReleaseSlot(t, id).slots == t.slots - 1 && ReleaseSlot(t, id).heap[id].stage == Exited
  {
    assert id in Holders(t.heap);
    assert |Holders(t.heap)| > 0;
  }

  /** The tracker as the source builds it: a mutable map, entries, and a counting semaphore. */
  class AsyncInjector {
    var entries: map<Uid, nat>
    var heap: seq<Entry>
    var slots: nat
    var base: Base

    ghost predicate Valid()
      reads this
    {
      forall u :: u in entries ==> entries[u] < |heap|
    }

    ghost function View(): Tracker
      requires Valid()
      reads this
    {
      Tracker(entries, heap, slots, base)
    }

    constructor ()
      ensures Valid() && View() == EMPTY
    {
      entries, heap, slots, base := map[], [], 0, Background;
    }

    method EvictExpiredLocked(now: int)
      requires Valid()
      modifies this`entries
      ensures Valid() && entries == Evicted(old(entries), heap, now)
    {
      var todo := entries.Keys;
      while todo != {}
        invariant todo <= entries.Keys
        invariant Valid()
        invariant entries.Keys <= old(entries).Keys
        invariant forall u :: u in old(entries) && u !in entries ==> heap[old(entries)[u]].Expired(now)
        invariant forall u :: u in entries ==> entries[u] == old(entries)[u]
        invariant forall u :: u in entries && u !in todo ==> !heap[entries[u]].Expired(now)
        decreases todo
      {
        var u :| u in todo;
        todo := todo - {u};
        if heap[entries[u]].Expired(now) {
          entries := entries - {u};
        }
      }
    }

    method PeekLocked(uid: Uid, token: string, now: int) returns (r: PeekResult)
      requires Valid()
      modifies this
      ensures Valid() && (View(), r) == Peek(old(View()), uid, token, now)
    {
      EvictExpiredLocked(now);
      if uid !in entries || heap[entries[uid]].token != token {
        return Nothing;
      }
      var id := entries[uid];
      if heap[id].result.None? {
        return InFlight;
      }
      r := Finished(id, heap[id].result.value);
      heap := heap[id := heap[id].(consumers := heap[id].consumers + [(uid, token)])];
      entries := entries - {uid};
    }

    /** Cancels the tracked attempt of uid, if any, and tracks a new one in its place. */
    method TrackLocked(uid: Uid, launched: Entry) returns (id: nat)
      requires Valid()
      modifies this`entries, this`heap
      ensures Valid() && id == |old(heap)| && entries == old(entries)[uid := id]
      ensures heap == (if uid in old(entries)
                       then old(heap)[old(entries)[uid] := old(heap)[old(entries)[uid]].(cancelled := true)] else old(heap)) + [launched]
    {
      if uid in entries {
        var prev := entries[uid];
        heap := heap[prev := heap[prev].(cancelled := true)];
      }
      id := |heap|;
      heap := heap + [launched];
      entries := entries[uid := id];
    }

    method LaunchLocked(uid: Uid, token: string, payload: Payload, now: int) returns (id: nat)
      requires Valid()
      modifies this
      ensures Valid() && (View(), id) == Launch(old(View()), uid, token, payload, now)
    {
      EvictExpiredLocked(now);
      if uid in entries && heap[entries[uid]].token == token {
        return entries[uid];
      }
      id := TrackLocked(uid, Entry(uid, token, payload, None, 0, base == Managed(true), base.Managed?, Queued, []));
    }

    method ForgetLocked(uid: Uid)
      requires Valid()
      modifies this
      ensures Valid() && View() == Forget(old(View()), uid)
    {
      if uid in entries {
        var id := entries[uid];
        heap := heap[id := heap[id].(cancelled := true)];
        entries := entries - {uid};
      }
    }

    /** record, called once by the goroutine of an attempt: with its result while it holds a slot, or with the
        context's error when it was cancelled while it still waited for one. */
    method RecordLocked(id: nat, running: bool, err: Option<string>, now: int)
      requires Valid() && id < |heap|
      requires heap[id].stage.Injecting? || (heap[id].stage.Queued? && heap[id].cancelled && !running && err == Some("context canceled"))
      modifies this`heap
      ensures Valid()
      ensures View() == if old(heap[id].stage).Queued? then GiveUp(old(View()), id, now) else Return(old(View()), id, running, err, now)
    {
      var e := heap[id];
      e := e.(result := Some(InjectResult(running, err, now)), stage := if e.stage.Queued? then Exited else Recorded);
      e := e.(cancelled := true);
      e := e.(doneCloses := e.doneCloses + 1);
      heap := heap[id := e];
    }
  }
}
