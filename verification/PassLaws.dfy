/** What one reconcile pass does, arm by arm, in terms of its outcome alone: the fields it leaves, the Ready condition,
    whether it writes, whether and with which delay it runs again, and whether it forgets the tracked inject
    (internal/controller/vibedapp_controller.go). */
module PassLaws {
  import opened Wrappers
  import opened AppStatus
  import opened ReconcilePass

  /** How a pass runs again: not at all; with the delay of the status it leaves; with the delay of the one it found. */
  datatype Again = Not | OfNew | OfOld

  /** The write to the Ready condition: its status, reason and message; None when it is left alone. */
  datatype Write = Write(status: ConditionStatus, reason: string, message: string)

  /** A condition after a write: its time moves only if its status does. */
  function Turned(before: Option<Condition>, ctype: string, w: Write, now: int): Option<Condition> {
    Some(Condition(ctype, w.status, w.reason, w.message, if before.Some? && before.value.status == w.status then before.value.since else now))
  }

  /** The pass left the fields of `fields`, made the given write to Ready and the given one to SourceValid, and no other
      write; `delay` says whether it runs again. */
  ghost predicate Leaves(st: Status, o: Outcome, now: int, fields: Status, source: Write, ready: Option<Write>, delay: Again) {
    && o.status.(conditions := []) == fields.(conditions := [])
    && Find(o.status.conditions, "SourceValid") == Turned(Find(st.conditions, "SourceValid"), "SourceValid", source, now)
    && Find(o.status.conditions, "Ready") ==
         (if ready.Some? then Turned(Find(st.conditions, "Ready"), "Ready", ready.value, now) else Find(st.conditions, "Ready"))
    && (forall t :: t != "Ready" && t != "SourceValid" ==> Find(o.status.conditions, t) == Find(st.conditions, t))
    && match delay
       case Not => o.requeue.None?
       case OfNew => o.requeue == Some(o.status)
       case OfOld => o.requeue.Some? && Find(o.requeue.value.conditions, "Ready") == Find(st.conditions, "Ready")
  }

  /** The usual pass: it writes its status, the source is valid, and the tracked inject is kept. */
  ghost predicate Does(st: Status, o: Outcome, now: int, fields: Status, ready: Option<Write>, delay: Again) {
    o.patch && !o.forget && Leaves(st, o, now, fields, Write(CondTrue, "Valid", ""), ready, delay)
  }

  /** A pass with nothing to do: nothing is written and nothing requeued. */
  predicate Rests(o: Outcome) { !o.patch && !o.forget && o.requeue.None? }

  function NotReady(reason: string, message: string): Option<Write> { Some(Write(CondFalse, reason, message)) }

  predicate ValidSpec(spec: Spec) { (spec.tarballRef != "") != (spec.gitRef != "") && spec.lane != "" }

  predicate Workerd(spec: Spec) { spec.lane == "fast" && spec.template == "workerd" }

  /** The pass gets past the validity and suspension checks. */
  predicate Runs(spec: Spec, st: Status) { ValidSpec(spec) && !spec.suspended && st.phase != Suspended }

  // ---- reading conditions after the writes of a pass ----

  ghost predicate WriteReads(cs: seq<Condition>, cs': seq<Condition>, ctype: string, w: Write, now: int) {
    && Find(cs', ctype) == Turned(Find(cs, ctype), ctype, w, now)
    && forall t :: t != ctype ==> Find(cs', t) == Find(cs, t)
  }

  /** Every single write to a list of conditions. */
  lemma WritesRead(cs: seq<Condition>, ctype: string, now: int)
    ensures forall status, reason, message ::
              WriteReads(cs, SetCondition(cs, ctype, status, reason, message, now), ctype, Write(status, reason, message), now)
  {
    forall status, reason, message
      ensures WriteReads(cs, SetCondition(cs, ctype, status, reason, message, now), ctype, Write(status, reason, message), now)
    {
      SetConditionReads(cs, ctype, status, reason, message, now);
    }
  }

  /** The writes a valid pass can make: SourceValid, then Ready. */
  lemma PassWritesRead(st: Status, now: int)
    ensures var sourced := SetCondition(st.conditions, "SourceValid", CondTrue, "Valid", "", now);
            && WriteReads(st.conditions, sourced, "SourceValid", Write(CondTrue, "Valid", ""), now)
            && forall status, reason, message ::
                 WriteReads(sourced, SetCondition(sourced, "Ready", status, reason, message, now), "Ready", Write(status, reason, message), now)
  {
    WritesRead(st.conditions, "SourceValid", now);
    WritesRead(SetCondition(st.conditions, "SourceValid", CondTrue, "Valid", "", now), "Ready", now);
  }

  // ---- the arms ----

  /** An invalid spec fails the app, with both conditions saying why, and is not retried. */
  lemma InvalidSpecFails(spec: Spec, st: Status, env: Env, inj: Injection)
    requires !ValidSpec(spec)
    ensures var o := Pass(spec, st, env, inj);
            var why :=
              if spec.tarballRef == "" && spec.gitRef == "" then ("SourceMissing", "spec.source must set tarballRef or gitRef")
              else if spec.tarballRef != "" && spec.gitRef != "" then ("SourceAmbiguous", "spec.source must set exactly one of tarballRef or gitRef")
              else ("SourceMissing", "spec.runtime.lane is required");
            && o.patch && !o.forget
            && Leaves(st, o, env.now, st.(phase := Failed), Write(CondFalse, why.0, why.1), NotReady(why.0, "spec is invalid"), Not)
  {
    var e := SpecError(spec).value;
    WritesRead(st.conditions, "SourceValid", env.now);
    WritesRead(SetCondition(st.conditions, "SourceValid", CondFalse, e.0, e.1, env.now), "Ready", env.now);
  }

  /** Suspending: nothing once parked; a failed release is retried; a release clears pod, sandbox and target, parks the
      app and forgets its inject. */
  lemma SuspendLaw(spec: Spec, st: Status, env: Env, inj: Injection)
    requires ValidSpec(spec) && spec.suspended
    ensures var o := Pass(spec, st, env, inj);
            if st.phase == Suspended then Rests(o)
            else if env.releaseError.Some? then
              Does(st, o, env.now, st, NotReady("Suspended", "releasing compute: " + env.releaseError.value), OfOld)
            else
              && o.patch && o.forget
              && Leaves(st, o, env.now, st.(phase := Suspended, podIP := "", sandboxRef := "", routeTarget := ""),
                        Write(CondTrue, "Valid", ""), NotReady("Suspended", "app suspended; compute released"), Not)
  {
    PassWritesRead(st, env.now);
  }

  /** Restoring goes back to claiming, in either lane. */
  lemma RestoreLaw(spec: Spec, st: Status, env: Env, inj: Injection)
    requires ValidSpec(spec) && !spec.suspended && st.phase == Suspended
    ensures Does(st, Pass(spec, st, env, inj), env.now, st.(phase := Claiming), NotReady("Claiming", "restoring; re-claiming warm pool"), OfNew)
  {
    PassWritesRead(st, env.now);
  }

  /** The workerd lane: at rest once Ready; a failed deploy or publication is retried; otherwise the app is Ready at the
      deployed target and the published URL. */
  lemma FastLaneLaw(spec: Spec, st: Status, env: Env, inj: Injection)
    requires Runs(spec, st) && Workerd(spec)
    ensures var o := Pass(spec, st, env, inj);
            if st.phase == Ready then Rests(o)
            else if env.deploy.Err? then Does(st, o, env.now, st.(phase := Claiming), NotReady("ClaimFailed", env.deploy.message), OfOld)
            else if env.publish.Err? then Does(st, o, env.now, st, NotReady("RouterFailed", env.publish.message), OfOld)
            else Does(st, o, env.now,
                      st.(phase := Ready, routeTarget := env.deploy.value, url := env.publish.value, lastDeployedAt := Some(env.now)),
                      Some(Write(CondTrue, "Running", "worker deployed")), Not)
  {
    PassWritesRead(st, env.now);
  }

  /** A new app starts claiming. */
  lemma NewAppLaw(spec: Spec, st: Status, env: Env, inj: Injection)
    requires Runs(spec, st) && !Workerd(spec) && (st.phase == Unset || st.phase == Pending)
    ensures Does(st, Pass(spec, st, env, inj), env.now, st.(phase := Claiming), NotReady("Claiming", "waiting on warm pool"), OfNew)
  {
    PassWritesRead(st, env.now);
  }

  /** Claiming: a refused template or a missing pool fails the app; a failed or pending claim is retried; a bound one
      gives it its pod and sandbox and starts it. */
  lemma ClaimingLaw(spec: Spec, st: Status, env: Env, inj: Injection)
    requires Runs(spec, st) && !Workerd(spec) && st.phase == Claiming
    ensures var o := Pass(spec, st, env, inj);
            if env.gate.Some? then
              Does(st, o, env.now, st.(phase := Failed),
                   NotReady("TemplateInvalid", "template \"" + spec.template + "\" image failed validation: " + env.gate.value), Not)
            else match env.claim
              case NoTemplate(m) => Does(st, o, env.now, st.(phase := Failed), NotReady("TemplateMissing", m), Not)
              case ClaimError(m) => Does(st, o, env.now, st, NotReady("ClaimFailed", m), OfOld)
              case Unbound => Does(st, o, env.now, st, NotReady("Claiming", "waiting on warm pool"), OfOld)
              case Bound(ref, ip) =>
                Does(st, o, env.now, st.(phase := Starting, sandboxRef := ref, podIP := ip), NotReady("Starting", "waiting for agent"), OfNew)
  {
    PassWritesRead(st, env.now);
  }

  /** Starting before the inject: without a pod back to claiming, forgetting the inject; an unreachable agent is retried;
      one that is not ready is only waited for. */
  lemma StartingLaw(spec: Spec, st: Status, env: Env, inj: Injection)
    requires Runs(spec, st) && !Workerd(spec) && st.phase == Starting && !(st.podIP != "" && env.probe == Ok(true))
    ensures var o := Pass(spec, st, env, inj);
            if st.podIP == "" then
              o.patch && o.forget && Leaves(st, o, env.now, st.(phase := Claiming), Write(CondTrue, "Valid", ""), None, OfNew)
            else if env.probe.Err? then Does(st, o, env.now, st, NotReady("AgentUnreachable", env.probe.message), OfOld)
            else !o.patch && !o.forget && o.requeue.Some? && Find(o.requeue.value.conditions, "Ready") == Find(st.conditions, "Ready")
  {
    PassWritesRead(st, env.now);
  }

  /** Starting with a ready agent: an unfinished, failed or not yet running inject is retried. */
  lemma InjectedLaw(spec: Spec, st: Status, env: Env, inj: Injection)
    requires Runs(spec, st) && !Workerd(spec) && st.phase == Starting && st.podIP != "" && env.probe == Ok(true)
    requires inj != Injected(true, None)
    ensures var o := Pass(spec, st, env, inj);
            if inj == StillInjecting then Does(st, o, env.now, st, NotReady("Injecting", "injecting source into sandbox"), OfOld)
            else if inj.err.Some? then Does(st, o, env.now, st, NotReady("InjectFailed", inj.err.value), OfOld)
            else Does(st, o, env.now, st, NotReady("Starting", "user process starting"), OfOld)
  {
    PassWritesRead(st, env.now);
  }

  /** The same with a running process: a failed service or publication is retried; otherwise the app is Ready at the
      service's target and the published URL. */
  lemma RunningLaw(spec: Spec, st: Status, env: Env, inj: Injection)
    requires Runs(spec, st) && !Workerd(spec) && st.phase == Starting && st.podIP != "" && env.probe == Ok(true)
    requires inj == Injected(true, None)
    ensures var o := Pass(spec, st, env, inj);
            if env.service.Err? then Does(st, o, env.now, st, NotReady("ServiceFailed", env.service.message), OfOld)
            else if env.publish.Err? then
              Does(st, o, env.now, st.(routeTarget := env.service.value), NotReady("RouterFailed", env.publish.message), OfOld)
            else Does(st, o, env.now,
                      st.(phase := Ready, routeTarget := env.service.value, url := env.publish.value, lastDeployedAt := Some(env.now)),
                      Some(Write(CondTrue, "Running", "user process listening")), Not)
  {
    PassWritesRead(st, env.now);
  }

  /** Ready: a replaced pod sends the app back to Starting there; otherwise it rests. */
  lemma ReadyLaw(spec: Spec, st: Status, env: Env, inj: Injection)
    requires Runs(spec, st) && !Workerd(spec) && st.phase == Ready
    ensures var o := Pass(spec, st, env, inj);
            if env.claim.Bound? && env.claim.ip != "" && env.claim.ip != st.podIP then
              Does(st, o, env.now, st.(phase := Starting, podIP := env.claim.ip, sandboxRef := env.claim.sandboxRef),
                   NotReady("Starting", "sandbox pod replaced; re-injecting source"), OfNew)
            else Rests(o)
  {
    PassWritesRead(st, env.now);
  }

  /** A failed app rests; a phase nobody knows is treated as Pending. */
  lemma OtherPhasesLaw(spec: Spec, st: Status, env: Env, inj: Injection)
    requires Runs(spec, st) && !Workerd(spec) && (st.phase == Failed || st.phase.Unknown?)
    ensures var o := Pass(spec, st, env, inj);
            if st.phase == Failed then Rests(o) else Does(st, o, env.now, st.(phase := Pending), None, OfNew)
  {
    PassWritesRead(st, env.now);
  }

  /** Exactly when a pass takes a general-lane app into Ready, and with what. */
  lemma ReadyReachedIff(spec: Spec, st: Status, env: Env, inj: Injection)
    requires st.phase != Ready && !Workerd(spec)
    ensures var o := Pass(spec, st, env, inj);
            o.status.phase == Ready <==>
              && ValidSpec(spec) && !spec.suspended && st.phase == Starting && st.podIP != "" && env.probe == Ok(true)
              && inj == Injected(true, None) && env.service.Ok? && env.publish.Ok?
    ensures var o := Pass(spec, st, env, inj);
            o.status.phase == Ready ==>
              && o.patch && o.requeue.None? && !o.forget
              && o.status.url == env.publish.value && o.status.routeTarget == env.service.value && o.status.lastDeployedAt == Some(env.now)
              && o.status.podIP == st.podIP && o.status.sandboxRef == st.sandboxRef && o.status.snapshotRef == st.snapshotRef
              && Find(o.status.conditions, "Ready").Some? && Find(o.status.conditions, "Ready").value.status == CondTrue
  {
    if Runs(spec, st) && st.phase == Starting && st.podIP != "" && env.probe == Ok(true) && inj == Injected(true, None) {
      RunningLaw(spec, st, env, inj);
    }
  }
}
