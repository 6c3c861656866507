/** One reconcile pass over a VibedApp (internal/controller/vibedapp_controller.go, Reconcile).

    Calls into the claimer, agent, router, loader and service manager become outcomes in `Env`; all
    clock readings of one pass are one instant. `Pass` is the pass as a function of the object it
    read; VibedApp.WorkingCopy is the same pass updating the object in place. */
module ReconcilePass {
  import opened Wrappers
  import opened AppStatus
  import opened Backoff

  datatype Spec = Spec(tarballRef: string, gitRef: string, lane: string, template: string, suspended: bool)

  /** EnsureClaim: bound to a pod, not bound yet, no such template, or any other error. */
  datatype Claim = Bound(sandboxRef: string, ip: string) | Unbound | NoTemplate(message: string) | ClaimError(message: string)

  datatype Env = Env(
    now: int, requeueDelay: int,
    releaseError: Option<string>,   // FastLane.Remove or Claimer.ReleaseClaim
    deploy: Result<string>,         // FastLane.Deploy
    gate: Option<string>,           // Gate.Allowed: the reason of a refusal
    claim: Claim,                   // Claimer.EnsureClaim
    probe: Result<bool>,            // Probe.IsReady
    service: Result<string>,        // Services.EnsureService
    publish: Result<string>)        // Router.Publish

  /** What the inject tracker told the pass. */
  datatype Injection = StillInjecting | Injected(running: bool, err: Option<string>)

  /** The status the pass computed, whether it asked for it to be persisted, the status its requeue
      delay was computed on (if it wants to run again), and whether it dropped the tracked inject. */
  datatype Outcome = Outcome(status: Status, patch: bool, requeue: Option<Status>, forget: bool)

  predicate FastLaneApp(spec: Spec) { spec.lane == "fast" && spec.template == "workerd" }

  /** validateSpec with reasonFromErr: (reason, message) of the first violated rule. */
  function SpecError(spec: Spec): Option<(string, string)> {
    if spec.tarballRef == "" && spec.gitRef == "" then
      Some(("SourceMissing", "spec.source must set tarballRef or gitRef"))
    else if spec.tarballRef != "" && spec.gitRef != "" then
      Some(("SourceAmbiguous", "spec.source must set exactly one of tarballRef or gitRef"))
    else if spec.lane == "" then Some(("SourceMissing", "spec.runtime.lane is required"))
    else None
  }

  function Source(st: Status, ok: ConditionStatus, reason: string, message: string, now: int): Status {
    st.(conditions := SetCondition(st.conditions, CONDITION_SOURCE_VALID, ok, reason, message, now))
  }

  function Mark(st: Status, ready: ConditionStatus, reason: string, message: string, now: int): Status {
    st.(conditions := SetCondition(st.conditions, CONDITION_READY, ready, reason, message, now))
  }

  /** transitionalRequeueAfter on a status. */
  function RequeueDelay(st: Status, env: Env): int {
    Delay(BaseDelay(env.requeueDelay), NotReadyFor(st.conditions, env.now))
  }

  /** finish(requeue): the delay is computed on the updated object. */
  function Finish(st: Status, requeue: bool): Outcome {
    Outcome(st, true, if requeue then Some(st) else None, false)
  }

  /** Report a setback and retry: the delay was computed before the status was touched. */
  function Retry(before: Status, st: Status): Outcome {
    Outcome(st, true, Some(before), false)
  }

  function Idle(st: Status): Outcome { Outcome(st, false, None, false) }

  function Suspension(spec: Spec, st: Status, env: Env): Option<Outcome> {
    if spec.suspended then
      if st.phase.Suspended? then Some(Idle(st))
      else if env.releaseError.Some? then
        Some(Retry(st, Mark(st, CondFalse, "Suspended", "releasing compute: " + env.releaseError.value, env.now)))
      else
        var parked := st.(podIP := "", sandboxRef := "", routeTarget := "", phase := Suspended);
        Some(Finish(Mark(parked, CondFalse, "Suspended", "app suspended; compute released", env.now), false).(forget := true))
    else if st.phase.Suspended? then
      Some(Finish(Mark(st.(phase := Claiming), CondFalse, "Claiming", "restoring; re-claiming warm pool", env.now), true))
    else None
  }

  function FastLane(st: Status, env: Env): Outcome {
    if st.phase.Ready? then Idle(st)
    else match env.deploy
      case Err(m) => Retry(st, Mark(st.(phase := Claiming), CondFalse, "ClaimFailed", m, env.now))
      case Ok(target) =>
        match env.publish
        case Err(m) => Retry(st, Mark(st, CondFalse, "RouterFailed", m, env.now))
        case Ok(url) =>
          var up := st.(routeTarget := target, url := url, phase := Ready, lastDeployedAt := Some(env.now));
          Finish(Mark(up, CondTrue, "Running", "worker deployed", env.now), false)
  }

  function ClaimingPass(spec: Spec, st: Status, env: Env): Outcome {
    if env.gate.Some? then
      Finish(Mark(st.(phase := Failed), CondFalse, "TemplateInvalid",
                  "template \"" + spec.template + "\" image failed validation: " + env.gate.value, env.now), false)
    else match env.claim
      case NoTemplate(m) => Finish(Mark(st.(phase := Failed), CondFalse, "TemplateMissing", m, env.now), false)
      case ClaimError(m) => Retry(st, Mark(st, CondFalse, "ClaimFailed", m, env.now))
      case Unbound => Retry(st, Mark(st, CondFalse, "Claiming", "waiting on warm pool", env.now))
      case Bound(ref, ip) =>
        Finish(Mark(st.(sandboxRef := ref, podIP := ip, phase := Starting), CondFalse, "Starting", "waiting for agent", env.now), true)
  }

  function Publish(st: Status, env: Env): Outcome {
    match env.service
    case Err(m) => Retry(st, Mark(st, CondFalse, "ServiceFailed", m, env.now))
    case Ok(target) =>
      var routed := st.(routeTarget := target);
      match env.publish
      case Err(m) => Retry(st, Mark(routed, CondFalse, "RouterFailed", m, env.now))
      case Ok(url) =>
        var up := routed.(url := url, phase := Ready, lastDeployedAt := Some(env.now));
        Finish(Mark(up, CondTrue, "Running", "user process listening", env.now), false)
  }

  function StartingPass(st: Status, env: Env, inj: Injection): Outcome {
    if st.podIP == "" then Finish(st.(phase := Claiming), true).(forget := true)
    else match env.probe
      case Err(m) => Retry(st, Mark(st, CondFalse, "AgentUnreachable", m, env.now))
      case Ok(false) => Outcome(st, false, Some(st), false)
      case Ok(true) =>
        match inj
        case StillInjecting => Retry(st, Mark(st, CondFalse, "Injecting", "injecting source into sandbox", env.now))
        case Injected(running, err) =>
          if err.Some? then Retry(st, Mark(st, CondFalse, "InjectFailed", err.value, env.now))
          else if !running then Retry(st, Mark(st, CondFalse, "Starting", "user process starting", env.now))
          else Publish(st, env)
  }

  function ReadyPass(st: Status, env: Env): Outcome {
    if env.claim.Bound? && env.claim.ip != "" && env.claim.ip != st.podIP then
      var moved := st.(podIP := env.claim.ip, sandboxRef := env.claim.sandboxRef, phase := Starting);
      Finish(Mark(moved, CondFalse, "Starting", "sandbox pod replaced; re-injecting source", env.now), true)
    else Idle(st)
  }

  function GeneralLane(spec: Spec, st: Status, env: Env, inj: Injection): Outcome {
    match st.phase
    case Unset =>
      Finish(Mark(st.(phase := Claiming), CondFalse, "Claiming", "waiting on warm pool", env.now), true)
    case Pending =>
      Finish(Mark(st.(phase := Claiming), CondFalse, "Claiming", "waiting on warm pool", env.now), true)
    case Claiming => ClaimingPass(spec, st, env)
    case Starting => StartingPass(st, env, inj)
    case Ready => ReadyPass(st, env)
    case Suspended => Idle(st)
    case Failed => Idle(st)
    case Unknown(_) => Finish(st.(phase := Pending), true)
  }

  function Pass(spec: Spec, st0: Status, env: Env, inj: Injection): Outcome {
    var bad := SpecError(spec);
    if bad.Some? then
      var marked := Mark(Source(st0, CondFalse, bad.value.0, bad.value.1, env.now), CondFalse, bad.value.0, "spec is invalid", env.now);
      Outcome(marked.(phase := Failed), true, None, false)
    else
      var st := Source(st0, CondTrue, "Valid", "", env.now);
      var parked := Suspension(spec, st, env);
      if parked.Some? then parked.value
      else if FastLaneApp(spec) then FastLane(st, env)
      else GeneralLane(spec, st, env, inj)
  }

  /** The pass consults the inject tracker exactly in these states. */
  predicate Injects(spec: Spec, st: Status, env: Env) {
    && SpecError(spec).None? && !spec.suspended && !FastLaneApp(spec)
    && st.phase.Starting? && st.podIP != "" && env.probe == Ok(true)
  }

  /** The tracker is irrelevant to every other pass. */
  lemma InjectionOnlyMattersWhenAsked(spec: Spec, st: Status, env: Env, inj: Injection, inj': Injection)
    requires !Injects(spec, st, env)
    ensures Pass(spec, st, env, inj) == Pass(spec, st, env, inj')
  {
  }

  ghost predicate ReadyTrue(st: Status) {
    Find(st.conditions, CONDITION_READY).Some? && Find(st.conditions, CONDITION_READY).value.status == CondTrue
  }

  /** What every persisted status satisfies, conditions aside. */
  ghost predicate FieldsOk(st: Status) {
    && (st.phase.Ready? ==> st.url != "" && (st.routeTarget != "" || st.podIP != ""))
    && (st.phase.Starting? ==> st.podIP != "")
    && (st.phase.Suspended? ==> st.podIP == "" && st.sandboxRef == "" && st.routeTarget == "")
    && !st.phase.Unknown?
    && '|' !in st.podIP
  }

  /** What every persisted status satisfies. */
  ghost predicate StatusOk(st: Status) {
    DistinctTypes(st.conditions) && (ReadyTrue(st) ==> st.phase.Ready?) && FieldsOk(st)
  }

  /** Bound claims carry a pod IP, published URLs and fast-lane targets are not empty. */
  ghost predicate GoodEnv(env: Env) {
    && (env.claim.Bound? ==> env.claim.ip != "" && '|' !in env.claim.ip)
    && (env.publish.Ok? ==> env.publish.value != "")
    && (env.deploy.Ok? ==> env.deploy.value != "")
  }

  /** Once SourceValid is settled, the rest of a pass writes the Ready condition at most once, as True
      only together with phase Ready, and leaves phase Ready only together with a write of False. */
  ghost predicate MarksOnce(st: Status, st': Status, now: int) {
    || (st'.conditions == st.conditions && (st.phase.Ready? ==> st'.phase.Ready?))
    || exists ready, reason, message ::
         && st'.conditions == SetCondition(st.conditions, CONDITION_READY, ready, reason, message, now)
         && (if st'.phase.Ready? && !st.phase.Ready? then ready == CondTrue else ready == CondFalse)
  }

  lemma SuspensionMarksOnce(spec: Spec, st: Status, env: Env)
    requires Suspension(spec, st, env).Some?
    ensures MarksOnce(st, Suspension(spec, st, env).value.status, env.now)
    ensures FieldsOk(st) ==> FieldsOk(Suspension(spec, st, env).value.status)
  {
  }

  lemma FastLaneMarksOnce(st: Status, env: Env)
    ensures MarksOnce(st, FastLane(st, env).status, env.now)
    ensures FieldsOk(st) && GoodEnv(env) && !st.phase.Suspended? ==> FieldsOk(FastLane(st, env).status)
  {
  }

  lemma PublishMarksOnce(st: Status, env: Env)
    requires st.phase.Starting?
    ensures MarksOnce(st, Publish(st, env).status, env.now)
    ensures FieldsOk(st) && GoodEnv(env) ==> FieldsOk(Publish(st, env).status)
  {
  }

  lemma StartingMarksOnce(st: Status, env: Env, inj: Injection)
    requires st.phase.Starting?
    ensures MarksOnce(st, StartingPass(st, env, inj).status, env.now)
    ensures FieldsOk(st) && GoodEnv(env) ==> FieldsOk(StartingPass(st, env, inj).status)
  {
    if st.podIP != "" && env.probe == Ok(true) && inj == Injected(true, None) {
      PublishMarksOnce(st, env);
    }
  }

  lemma ClaimingMarksOnce(spec: Spec, st: Status, env: Env)
    requires st.phase.Claiming?
    ensures MarksOnce(st, ClaimingPass(spec, st, env).status, env.now)
    ensures FieldsOk(st) && GoodEnv(env) ==> FieldsOk(ClaimingPass(spec, st, env).status)
  {
  }

  lemma ReadyMarksOnce(st: Status, env: Env)
    requires st.phase.Ready?
    ensures MarksOnce(st, ReadyPass(st, env).status, env.now)
    ensures FieldsOk(st) && GoodEnv(env) ==> FieldsOk(ReadyPass(st, env).status)
  {
    if env.claim.Bound? && env.claim.ip != "" && env.claim.ip != st.podIP {
      var st' := ReadyPass(st, env).status;
      assert st'.phase == Starting;
      assert st'.conditions == SetCondition(st.conditions, CONDITION_READY, CondFalse, "Starting",
                                            "sandbox pod replaced; re-injecting source", env.now);
    }
  }

  lemma GeneralLaneMarksOnce(spec: Spec, st: Status, env: Env, inj: Injection)
    ensures MarksOnce(st, GeneralLane(spec, st, env, inj).status, env.now)
    ensures FieldsOk(st) && GoodEnv(env) ==> FieldsOk(GeneralLane(spec, st, env, inj).status)
  {
    if st.phase.Starting? {
      StartingMarksOnce(st, env, inj);
    } else if st.phase.Claiming? {
      ClaimingMarksOnce(spec, st, env);
    } else if st.phase.Ready? {
      ReadyMarksOnce(st, env);
    } else if st.phase.Unset? || st.phase.Pending? {
      assert GeneralLane(spec, st, env, inj).status.conditions
          == SetCondition(st.conditions, CONDITION_READY, CondFalse, "Claiming", "waiting on warm pool", env.now);
    }
  }

  /** The status after the pass has settled SourceValid. */
  function Sourced(spec: Spec, st0: Status, env: Env): Status {
    match SpecError(spec)
    case Some(e) => Source(st0, CondFalse, e.0, e.1, env.now)
    case None => Source(st0, CondTrue, "Valid", "", env.now)
  }

  lemma PassMarksOnce(spec: Spec, st0: Status, env: Env, inj: Injection)
    ensures MarksOnce(Sourced(spec, st0, env), Pass(spec, st0, env, inj).status, env.now)
    ensures FieldsOk(st0) && GoodEnv(env) ==> FieldsOk(Pass(spec, st0, env, inj).status)
  {
    var st := Sourced(spec, st0, env);
    if SpecError(spec).None? {
      if Suspension(spec, st, env).Some? {
        SuspensionMarksOnce(spec, st, env);
      } else if FastLaneApp(spec) {
        FastLaneMarksOnce(st, env);
      } else {
        GeneralLaneMarksOnce(spec, st, env, inj);
      }
    }
  }

  lemma SourcedReads(spec: Spec, st0: Status, env: Env)
    requires DistinctTypes(st0.conditions)
    ensures var st := Sourced(spec, st0, env);
            && DistinctTypes(st.conditions)
            && Find(st.conditions, CONDITION_READY) == Find(st0.conditions, CONDITION_READY)
  {
    match SpecError(spec)
    case Some(e) => SetConditionMerges(st0.conditions, CONDITION_SOURCE_VALID, CondFalse, e.0, e.1, env.now);
    case None => SetConditionMerges(st0.conditions, CONDITION_SOURCE_VALID, CondTrue, "Valid", "", env.now);
  }

  /** Every pass keeps the status invariant. */
  lemma PassKeepsStatusOk(spec: Spec, st0: Status, env: Env, inj: Injection)
    requires StatusOk(st0) && GoodEnv(env)
    ensures StatusOk(Pass(spec, st0, env, inj).status)
  {
    var st := Sourced(spec, st0, env);
    var st' := Pass(spec, st0, env, inj).status;
    PassMarksOnce(spec, st0, env, inj);
    SourcedReads(spec, st0, env);
    if st'.conditions != st.conditions {
      var ready, reason, message :|
        && st'.conditions == SetCondition(st.conditions, CONDITION_READY, ready, reason, message, env.now)
        && (if st'.phase.Ready? && !st.phase.Ready? then ready == CondTrue else ready == CondFalse);
      SetConditionMerges(st.conditions, CONDITION_READY, ready, reason, message, env.now);
    }
  }

  /** The first condition write of a pass is to SourceValid, the only other one is to Ready. */
  lemma PassSetsEachTypeOnce(spec: Spec, st0: Status, env: Env, inj: Injection)
    ensures SetAtMostOnce(st0.conditions, Pass(spec, st0, env, inj).status.conditions)
  {
    var st := Sourced(spec, st0, env);
    var st' := Pass(spec, st0, env, inj).status;
    PassMarksOnce(spec, st0, env, inj);
    if st'.conditions != st.conditions {
      var ready, reason, message :|
        st'.conditions == SetCondition(st.conditions, CONDITION_READY, ready, reason, message, env.now);
      SetOnceMore(st0.conditions, st.conditions, CONDITION_READY, ready, reason, message, env.now);
    }
  }

  /** A pass whose write is suppressed changed nothing at all. */
  lemma SuppressedPassChangedNothing(spec: Spec, st0: Status, env: Env, inj: Injection)
    requires StatusEqual(st0, Pass(spec, st0, env, inj).status)
    ensures Pass(spec, st0, env, inj).status == st0
  {
    PassSetsEachTypeOnce(spec, st0, env, inj);
    SuppressionIsLossless(st0, Pass(spec, st0, env, inj).status);
  }

  /** The only ways into Ready: a fast-lane deploy, or a Starting pass whose inject came back running. */
  lemma WaysIntoReady(spec: Spec, st0: Status, env: Env, inj: Injection)
    requires !st0.phase.Ready? && Pass(spec, st0, env, inj).status.phase.Ready?
    ensures Pass(spec, st0, env, inj).patch
    ensures FastLaneApp(spec) || (Injects(spec, st0, env) && inj == Injected(true, None))
    ensures Injects(spec, st0, env) ==> Pass(spec, st0, env, inj).status.podIP == st0.podIP
  {
  }

  /** One not-Ready episode: the Ready condition is False and stays the same continuous interval. */
  ghost predicate NotReadySince(st: Status, since: int) {
    && DistinctTypes(st.conditions)
    && Find(st.conditions, CONDITION_READY).Some?
    && Find(st.conditions, CONDITION_READY).value.status == CondFalse
    && Find(st.conditions, CONDITION_READY).value.since == since
  }

  lemma GeneralLaneDelay(spec: Spec, st: Status, env: Env, inj: Injection)
    requires GeneralLane(spec, st, env, inj).requeue.Some?
    ensures var o := GeneralLane(spec, st, env, inj); o.requeue.value == st || o.requeue.value == o.status
  {
  }

  /** The delay a pass asks for is the backoff it started with, or the one of the status it leaves. */
  lemma PassDelay(spec: Spec, st0: Status, env: Env, inj: Injection)
    requires Pass(spec, st0, env, inj).requeue.Some?
    ensures var o := Pass(spec, st0, env, inj);
            o.requeue.value == Sourced(spec, st0, env) || o.requeue.value == o.status
  {
    var st := Sourced(spec, st0, env);
    if Suspension(spec, st, env).None? && !FastLaneApp(spec) {
      GeneralLaneDelay(spec, st, env, inj);
    }
  }

  /** A pass inside a not-Ready episode either ends it by turning Ready, or stays in it; and the
      delay it asks for is the backoff of the whole time spent not Ready. */
  lemma PassWithinEpisode(spec: Spec, st0: Status, env: Env, inj: Injection, since: int)
    requires NotReadySince(st0, since)
    ensures var o := Pass(spec, st0, env, inj);
            && (NotReadySince(o.status, since) || ReadyTrue(o.status))
            && (o.requeue.Some? && !ReadyTrue(o.status) ==> NotReadySince(o.requeue.value, since))
  {
    var st := Sourced(spec, st0, env);
    var o := Pass(spec, st0, env, inj);
    PassMarksOnce(spec, st0, env, inj);
    SourcedReads(spec, st0, env);
    if o.status.conditions != st.conditions {
      var ready, reason, message :|
        && o.status.conditions == SetCondition(st.conditions, CONDITION_READY, ready, reason, message, env.now)
        && (ready == CondTrue || ready == CondFalse);
      SetConditionMerges(st.conditions, CONDITION_READY, ready, reason, message, env.now);
    }
    if o.requeue.Some? {
      PassDelay(spec, st0, env, inj);
    }
  }

  lemma BackoffGrows(st: Status, st': Status, since: int, env: Env, env': Env)
    requires NotReadySince(st, since) && NotReadySince(st', since)
    requires env.now <= env'.now && env.requeueDelay == env'.requeueDelay
    ensures RequeueDelay(st, env) <= RequeueDelay(st', env')
  {
    DelayMonotone(BaseDelay(env.requeueDelay), NotReadyFor(st.conditions, env.now), NotReadyFor(st'.conditions, env'.now));
  }
}
