/** The reconciler's working copy of a VibedApp, updated in place as the source does, and proved to
    follow ReconcilePass.Pass. Reading the object and persisting it are ControlPlane's steps. */
module VibedApp {
  import opened Wrappers
  import opened AppStatus
  import opened Backoff
  import opened ReconcilePass

  class WorkingCopy {
    const spec: Spec
    var phase: Phase
    var url: string
    var sandboxRef: string
    var podIP: string
    var routeTarget: string
    var snapshotRef: string
    var lastDeployedAt: Option<int>
    var conditions: seq<Condition>

    function View(): Status
      reads this
    {
      Status(phase, url, sandboxRef, podIP, routeTarget, snapshotRef, lastDeployedAt, conditions)
    }

    constructor (spec: Spec, st: Status)
      ensures this.spec == spec && View() == st
    {
      this.spec := spec;
      phase, url, sandboxRef, podIP := st.phase, st.url, st.sandboxRef, st.podIP;
      routeTarget, snapshotRef := st.routeTarget, st.snapshotRef;
      lastDeployedAt, conditions := st.lastDeployedAt, st.conditions;
    }

    method SetConditionByType(ctype: string, status: ConditionStatus, reason: string, message: string, now: int)
      modifies this`conditions
      ensures conditions == SetCondition(old(conditions), ctype, status, reason, message, now)
    {
      var i := 0;
      while i < |conditions|
        invariant 0 <= i <= |conditions| && conditions == old(conditions)
        invariant forall j :: 0 <= j < i ==> conditions[j].ctype != ctype
      {
        var c := conditions[i];
        if c.ctype == ctype {
          IndexOfUnique(conditions, ctype, i);
          var since := c.since;
          if c.status != status {
            since := now;
          }
          conditions := conditions[i := Condition(ctype, status, reason, message, since)];
          return;
        }
        i := i + 1;
      }
      IndexOfUnique(conditions, ctype, |conditions|);
      conditions := conditions + [Condition(ctype, status, reason, message, now)];
    }

    method ReconcileSuspension(env: Env) returns (handled: bool, patch: bool, requeue: Option<Status>, forget: bool)
      modifies this
      ensures handled == Suspension(spec, old(View()), env).Some?
      ensures handled ==> Outcome(View(), patch, requeue, forget) == Suspension(spec, old(View()), env).value
      ensures !handled ==> View() == old(View())
    {
      handled, patch, requeue, forget := true, true, None, false;
      if spec.suspended {
        if phase == Suspended {
          patch := false;
          return;
        }
        if env.releaseError.Some? {
          requeue := Some(View());
          SetConditionByType(CONDITION_READY, CondFalse, "Suspended", "releasing compute: " + env.releaseError.value, env.now);
          return;
        }
        forget := true;
        podIP := "";
        sandboxRef := "";
        routeTarget := "";
        phase := Suspended;
        SetConditionByType(CONDITION_READY, CondFalse, "Suspended", "app suspended; compute released", env.now);
        return;
      }
      if phase == Suspended {
        phase := Claiming;
        SetConditionByType(CONDITION_READY, CondFalse, "Claiming", "restoring; re-claiming warm pool", env.now);
        requeue := Some(View());
        return;
      }
      handled := false;
    }

    method ReconcileFastLane(env: Env) returns (patch: bool, requeue: Option<Status>)
      modifies this
      ensures Outcome(View(), patch, requeue, false) == FastLane(old(View()), env)
    {
      patch, requeue := true, None;
      if phase == Ready {
        patch := false;
        return;
      }
      if env.deploy.Err? {
        requeue := Some(View());
        phase := Claiming;
        SetConditionByType(CONDITION_READY, CondFalse, "ClaimFailed", env.deploy.message, env.now);
        return;
      }
      if env.publish.Err? {
        requeue := Some(View());
        SetConditionByType(CONDITION_READY, CondFalse, "RouterFailed", env.publish.message, env.now);
        return;
      }
      routeTarget := env.deploy.value;
      url := env.publish.value;
      phase := Ready;
      lastDeployedAt := Some(env.now);
      SetConditionByType(CONDITION_READY, CondTrue, "Running", "worker deployed", env.now);
    }

    method ReconcileClaiming(env: Env) returns (requeue: Option<Status>)
      modifies this
      ensures Outcome(View(), true, requeue, false) == ClaimingPass(spec, old(View()), env)
    {
      requeue := None;
      if env.gate.Some? {
        SetConditionByType(CONDITION_READY, CondFalse, "TemplateInvalid",
                           "template \"" + spec.template + "\" image failed validation: " + env.gate.value, env.now);
        phase := Failed;
        return;
      }
      match env.claim
      case NoTemplate(m) =>
        SetConditionByType(CONDITION_READY, CondFalse, "TemplateMissing", m, env.now);
        phase := Failed;
      case ClaimError(m) =>
        requeue := Some(View());
        SetConditionByType(CONDITION_READY, CondFalse, "ClaimFailed", m, env.now);
      case Unbound =>
        requeue := Some(View());
        SetConditionByType(CONDITION_READY, CondFalse, "Claiming", "waiting on warm pool", env.now);
      case Bound(ref, ip) =>
        sandboxRef := ref;
        podIP := ip;
        phase := Starting;
        SetConditionByType(CONDITION_READY, CondFalse, "Starting", "waiting for agent", env.now);
        requeue := Some(View());
    }

    method PublishRoute(env: Env) returns (requeue: Option<Status>)
      modifies this
      ensures Outcome(View(), true, requeue, false) == Publish(old(View()), env)
    {
      requeue := Some(View());
      if env.service.Err? {
        SetConditionByType(CONDITION_READY, CondFalse, "ServiceFailed", env.service.message, env.now);
        return;
      }
      routeTarget := env.service.value;
      if env.publish.Err? {
        SetConditionByType(CONDITION_READY, CondFalse, "RouterFailed", env.publish.message, env.now);
        return;
      }
      url := env.publish.value;
      phase := Ready;
      lastDeployedAt := Some(env.now);
      SetConditionByType(CONDITION_READY, CondTrue, "Running", "user process listening", env.now);
      requeue := None;
    }

    method ReconcileStarting(env: Env, inj: Injection) returns (patch: bool, requeue: Option<Status>, forget: bool)
      modifies this
      ensures Outcome(View(), patch, requeue, forget) == StartingPass(old(View()), env, inj)
    {
      patch, requeue, forget := true, None, false;
      if podIP == "" {
        forget := true;
        phase := Claiming;
        requeue := Some(View());
        return;
      }
      requeue := Some(View());
      if env.probe.Err? {
        SetConditionByType(CONDITION_READY, CondFalse, "AgentUnreachable", env.probe.message, env.now);
        return;
      }
      if !env.probe.value {
        patch := false;
        return;
      }
      match inj
      case StillInjecting =>
        SetConditionByType(CONDITION_READY, CondFalse, "Injecting", "injecting source into sandbox", env.now);
      case Injected(running, err) =>
        if err.Some? {
          SetConditionByType(CONDITION_READY, CondFalse, "InjectFailed", err.value, env.now);
        } else if !running {
          SetConditionByType(CONDITION_READY, CondFalse, "Starting", "user process starting", env.now);
        } else {
          requeue := PublishRoute(env);
        }
    }

    /** One whole pass over the working copy. */
    method Reconcile(env: Env, inj: Injection) returns (patch: bool, requeue: Option<Status>, forget: bool)
      modifies this
      ensures Outcome(View(), patch, requeue, forget) == Pass(spec, old(View()), env, inj)
      ensures StatusOk(old(View())) && GoodEnv(env) ==> StatusOk(View())
      ensures SetAtMostOnce(old(conditions), conditions)
      ensures StatusEqual(old(View()), View()) ==> View() == old(View())
    {
      if StatusOk(View()) && GoodEnv(env) {
        PassKeepsStatusOk(spec, View(), env, inj);
      }
      PassSetsEachTypeOnce(spec, View(), env, inj);
      if StatusEqual(View(), Pass(spec, View(), env, inj).status) {
        SuppressedPassChangedNothing(spec, View(), env, inj);
      }
      patch, requeue, forget := DoReconcile(env, inj);
    }

    method DoReconcile(env: Env, inj: Injection) returns (patch: bool, requeue: Option<Status>, forget: bool)
      modifies this
      ensures Outcome(View(), patch, requeue, forget) == Pass(spec, old(View()), env, inj)
    {
      patch, requeue, forget := true, None, false;
      var bad := SpecError(spec);
      if bad.Some? {
        SetConditionByType(CONDITION_SOURCE_VALID, CondFalse, bad.value.0, bad.value.1, env.now);
        SetConditionByType(CONDITION_READY, CondFalse, bad.value.0, "spec is invalid", env.now);
        phase := Failed;
        return;
      }
      SetConditionByType(CONDITION_SOURCE_VALID, CondTrue, "Valid", "", env.now);
      var handled;
      handled, patch, requeue, forget := ReconcileSuspension(env);
      if handled {
        return;
      }
      patch, requeue, forget := true, None, false;
      if FastLaneApp(spec) {
        patch, requeue := ReconcileFastLane(env);
        return;
      }
      match phase
      case Unset =>
        phase := Claiming;
        SetConditionByType(CONDITION_READY, CondFalse, "Claiming", "waiting on warm pool", env.now);
        requeue := Some(View());
      case Pending =>
        phase := Claiming;
        SetConditionByType(CONDITION_READY, CondFalse, "Claiming", "waiting on warm pool", env.now);
        requeue := Some(View());
      case Claiming =>
        requeue := ReconcileClaiming(env);
      case Starting =>
        patch, requeue, forget := ReconcileStarting(env, inj);
      case Ready =>
        if env.claim.Bound? && env.claim.ip != "" && env.claim.ip != podIP {
          podIP := env.claim.ip;
          sandboxRef := env.claim.sandboxRef;
          phase := Starting;
          SetConditionByType(CONDITION_READY, CondFalse, "Starting", "sandbox pod replaced; re-injecting source", env.now);
          requeue := Some(View());
        } else {
          patch := false;
        }
      case Suspended =>
        patch := false;
      case Failed =>
        patch := false;
      case Unknown(_) =>
        phase := Pending;
        requeue := Some(View());
    }
  }
}
