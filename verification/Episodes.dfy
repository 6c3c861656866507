/** The requeue delays of a run of reconcile passes over one app (internal/controller/vibedapp_controller.go,
    transitionalRequeueAfter and setCondition).

    The runs are stated for any function that decides a pass and respects not-Ready episodes; the reconcile pass is
    one (PassRespectsEpisodes). */
module Episodes {
  import opened Wrappers
  import opened AppStatus
  import opened ReconcilePass

  /** A pass as it happened: the spec, which version of the status it read (a cache may be behind; a number past the
      end means the latest), what its environment and the tracker answered, and whether its write was let through. */
  datatype Attempt = Attempt(spec: Spec, read: nat, env: Env, inj: Injection, stored: bool)

  type Decide = (Status, Attempt) -> Outcome

  /** A pass inside an episode ends it by turning Ready or stays in it, and asks for a delay computed on its start. */
  ghost predicate Respects(decide: Decide) {
    forall st, a, since :: NotReadySince(st, since) ==> StaysIn(decide(st, a), since)
  }

  ghost predicate StaysIn(o: Outcome, since: int) {
    && (NotReadySince(o.status, since) || ReadyTrue(o.status))
    && (o.requeue.Some? && !ReadyTrue(o.status) ==> NotReadySince(o.requeue.value, since))
  }

  /** The reconcile pass. */
  function PassDecides(): Decide { (st: Status, a: Attempt) => Pass(a.spec, st, a.env, a.inj) }

  lemma PassRespectsEpisodes()
    ensures Respects(PassDecides())
  {
    forall st, a, since | NotReadySince(st, since) ensures StaysIn(PassDecides()(st, a), since) {
      PassWithinEpisode(a.spec, st, a.env, a.inj, since);
    }
  }

  function ReadBy(versions: seq<Status>, a: Attempt): (st: Status)
    requires versions != []
    ensures st in versions
  {
    if a.read < |versions| then versions[a.read] else versions[|versions| - 1]
  }

  /** The persisted versions after the first n passes, oldest first. A write over a version that is not the latest is
      refused. */
  function Versions(decide: Decide, st: Status, passes: seq<Attempt>, n: nat): (vs: seq<Status>)
    requires n <= |passes|
    ensures vs != []
  {
    if n == 0 then [st]
    else
      var vs, a := Versions(decide, st, passes, n - 1), passes[n - 1];
      var o := decide(ReadBy(vs, a), a);
      if o.patch && a.stored && a.read >= |vs| - 1 then vs + [o.status] else vs
  }

  lemma {:induction false} VersionsGrow(decide: Decide, st: Status, passes: seq<Attempt>, m: nat, n: nat)
    requires m <= n <= |passes|
    ensures Versions(decide, st, passes, m) <= Versions(decide, st, passes, n)
  {
    if m < n {
      VersionsGrow(decide, st, passes, m, n - 1);
    }
  }

  /** While no version turns Ready, all of them belong to the same episode. */
  lemma {:induction false} EpisodeContinues(decide: Decide, st: Status, passes: seq<Attempt>, since: int, n: nat)
    requires Respects(decide) && NotReadySince(st, since) && n <= |passes|
    requires forall v :: v in Versions(decide, st, passes, n) ==> !ReadyTrue(v)
    ensures forall v :: v in Versions(decide, st, passes, n) ==> NotReadySince(v, since)
  {
    if n > 0 {
      VersionsGrow(decide, st, passes, n - 1, n);
      EpisodeContinues(decide, st, passes, since, n - 1);
      var vs, a := Versions(decide, st, passes, n - 1), passes[n - 1];
      assert StaysIn(decide(ReadBy(vs, a), a), since);
    }
  }

  /** What pass i decided. */
  function Decision(decide: Decide, st: Status, passes: seq<Attempt>, i: nat): Outcome
    requires i < |passes|
  {
    decide(ReadBy(Versions(decide, st, passes, i), passes[i]), passes[i])
  }

  /** Pass i wants to run again and does not end the episode. */
  ghost predicate Requeues(decide: Decide, st: Status, passes: seq<Attempt>, i: nat)
    requires i < |passes|
  {
    Decision(decide, st, passes, i).requeue.Some? && !ReadyTrue(Decision(decide, st, passes, i).status)
  }

  /** The requeue delay pass i asks for. */
  function DelayOf(decide: Decide, st: Status, passes: seq<Attempt>, i: nat): int
    requires i < |passes|
  {
    var o := Decision(decide, st, passes, i);
    if o.requeue.Some? then RequeueDelay(o.requeue.value, passes[i].env) else 0
  }

  lemma DecisionInEpisode(decide: Decide, st: Status, passes: seq<Attempt>, since: int, i: nat)
    requires Respects(decide) && NotReadySince(st, since) && i < |passes| && Requeues(decide, st, passes, i)
    requires forall v :: v in Versions(decide, st, passes, i) ==> !ReadyTrue(v)
    ensures NotReadySince(Decision(decide, st, passes, i).requeue.value, since)
  {
    EpisodeContinues(decide, st, passes, since, i);
    var vs, a := Versions(decide, st, passes, i), passes[i];
    assert StaysIn(decide(ReadBy(vs, a), a), since);
  }

  lemma DelaysNeverDecrease(decide: Decide, st: Status, passes: seq<Attempt>, since: int, i: nat, j: nat)
    requires Respects(decide) && NotReadySince(st, since) && i <= j < |passes|
    requires forall v :: v in Versions(decide, st, passes, j) ==> !ReadyTrue(v)
    requires passes[i].env.now <= passes[j].env.now && passes[i].env.requeueDelay == passes[j].env.requeueDelay
    requires Requeues(decide, st, passes, i) && Requeues(decide, st, passes, j)
    ensures DelayOf(decide, st, passes, i) <= DelayOf(decide, st, passes, j)
  {
    VersionsGrow(decide, st, passes, i, j);
    DecisionInEpisode(decide, st, passes, since, i);
    DecisionInEpisode(decide, st, passes, since, j);
    BackoffGrows(Decision(decide, st, passes, i).requeue.value, Decision(decide, st, passes, j).requeue.value, since,
                 passes[i].env, passes[j].env);
  }

  /** Within one continuous not-Ready episode, requeue delays never shrink, whatever the reconcile passes do, however
      stale the versions of the episode they read, and whichever of their writes are lost. */
  lemma EpisodeDelaysNeverDecrease(st: Status, passes: seq<Attempt>, since: int, i: nat, j: nat)
    requires NotReadySince(st, since) && i <= j < |passes|
    requires forall v :: v in Versions(PassDecides(), st, passes, j) ==> !ReadyTrue(v)
    requires passes[i].env.now <= passes[j].env.now && passes[i].env.requeueDelay == passes[j].env.requeueDelay
    requires Requeues(PassDecides(), st, passes, i) && Requeues(PassDecides(), st, passes, j)
    ensures DelayOf(PassDecides(), st, passes, i) <= DelayOf(PassDecides(), st, passes, j)
  {
    PassRespectsEpisodes();
    DelaysNeverDecrease(PassDecides(), st, passes, since, i, j);
  }
}
