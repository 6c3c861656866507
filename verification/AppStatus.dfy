/** VibedApp status: phases, conditions, and the "did anything change?" comparison
    (internal/controller/vibedapp_controller.go). */
module AppStatus {
  import opened Wrappers

  datatype Phase = Unset | Pending | Claiming | Starting | Ready | Suspended | Failed | Unknown(name: string)

  datatype ConditionStatus = CondTrue | CondFalse | CondUnknown

  /** `since` is LastTransitionTime in nanoseconds; 0 is the zero time. */
  datatype Condition = Condition(ctype: string, status: ConditionStatus, reason: string, message: string, since: int)

  datatype Status = Status(
    phase: Phase, url: string, sandboxRef: string, podIP: string, routeTarget: string,
    snapshotRef: string, lastDeployedAt: Option<int>, conditions: seq<Condition>)

  const EMPTY_STATUS := Status(Unset, "", "", "", "", "", None, [])

  const CONDITION_READY := "Ready"
  const CONDITION_SOURCE_VALID := "SourceValid"

  /** The first condition of the given type, or |cs|. */
  function IndexOf(cs: seq<Condition>, ctype: string): (i: nat)
    ensures i <= |cs|
    ensures i < |cs| ==> cs[i].ctype == ctype
    ensures forall j :: 0 <= j < i ==> cs[j].ctype != ctype
  {
    if cs == [] then 0 else if cs[0].ctype == ctype then 0 else 1 + IndexOf(cs[1..], ctype)
  }

  function SetCondition(cs: seq<Condition>, ctype: string, status: ConditionStatus, reason: string, message: string, now: int): seq<Condition> {
    var i := IndexOf(cs, ctype);
    if i < |cs| then
      cs[i := Condition(ctype, status, reason, message, if cs[i].status != status then now else cs[i].since)]
    else
      cs + [Condition(ctype, status, reason, message, now)]
  }

  function Find(cs: seq<Condition>, ctype: string): Option<Condition> {
    var i := IndexOf(cs, ctype);
    if i < |cs| then Some(cs[i]) else None
  }

  ghost predicate DistinctTypes(cs: seq<Condition>) {
    forall i, j :: 0 <= i < j < |cs| ==> cs[i].ctype != cs[j].ctype
  }

  /** IndexOf is the only index that satisfies its contract. */
  lemma IndexOfUnique(cs: seq<Condition>, ctype: string, i: nat)
    requires i <= |cs|
    requires i < |cs| ==> cs[i].ctype == ctype
    requires forall j :: 0 <= j < i ==> cs[j].ctype != ctype
    ensures IndexOf(cs, ctype) == i
  {
    var k := IndexOf(cs, ctype);
    assert k < |cs| ==> cs[k].ctype == ctype;
  }

  /** What a merge does: the set type reads back as written, its transition time moves only on a
      flip (or on first appearance), every other type reads as before, and types stay distinct. */
  lemma SetConditionMerges(cs: seq<Condition>, ctype: string, status: ConditionStatus, reason: string, message: string, now: int)
    requires DistinctTypes(cs)
    ensures var cs' := SetCondition(cs, ctype, status, reason, message, now);
            && DistinctTypes(cs')
            && Find(cs', ctype).Some?
            && Find(cs', ctype).value.status == status
            && Find(cs', ctype).value.reason == reason && Find(cs', ctype).value.message == message
            && Find(cs', ctype).value.since ==
                 (if Find(cs, ctype).Some? && Find(cs, ctype).value.status == status then Find(cs, ctype).value.since else now)
            && forall other :: other != ctype ==> Find(cs', other) == Find(cs, other)
  {
    var cs' := SetCondition(cs, ctype, status, reason, message, now);
    var i := IndexOf(cs, ctype);
    IndexOfUnique(cs', ctype, i);
    forall other | other != ctype ensures Find(cs', other) == Find(cs, other) {
      var k := IndexOf(cs, other);
      if k < |cs| {
        IndexOfUnique(cs', other, k);
      } else {
        IndexOfUnique(cs', other, |cs'|);
      }
    }
  }

  /** The same reading, for any list: the set type reads back, other types read as before. */
  lemma SetConditionReads(cs: seq<Condition>, ctype: string, status: ConditionStatus, reason: string, message: string, now: int)
    ensures var cs' := SetCondition(cs, ctype, status, reason, message, now);
            && Find(cs', ctype) == Some(Condition(ctype, status, reason, message,
                 if Find(cs, ctype).Some? && Find(cs, ctype).value.status == status then Find(cs, ctype).value.since else now))
            && forall other :: other != ctype ==> Find(cs', other) == Find(cs, other)
  {
    var cs' := SetCondition(cs, ctype, status, reason, message, now);
    IndexOfUnique(cs', ctype, IndexOf(cs, ctype));
    forall other | other != ctype ensures Find(cs', other) == Find(cs, other) {
      var k := IndexOf(cs, other);
      IndexOfUnique(cs', other, if k < |cs| then k else |cs'|);
    }
  }

  predicate SameCondition(a: Condition, b: Condition) {
    a.ctype == b.ctype && a.status == b.status && a.reason == b.reason && a.message == b.message
  }

  /** statusEqual: every load-bearing field, and conditions up to their transition times. */
  predicate StatusEqual(a: Status, b: Status) {
    && a.phase == b.phase && a.url == b.url && a.sandboxRef == b.sandboxRef
    && a.podIP == b.podIP && a.routeTarget == b.routeTarget
    && a.snapshotRef == b.snapshotRef && a.lastDeployedAt == b.lastDeployedAt
    && |a.conditions| == |b.conditions|
    && forall i :: 0 <= i < |a.conditions| ==> SameCondition(a.conditions[i], b.conditions[i])
  }

  /** The comparison sees every field; only the times of conditions escape it. */
  lemma StatusEqualIff(a: Status, b: Status)
    ensures StatusEqual(a, b) <==>
              && b == a.(conditions := b.conditions) && |a.conditions| == |b.conditions|
              && forall i :: 0 <= i < |a.conditions| ==> b.conditions[i] == a.conditions[i].(since := b.conditions[i].since)
  {
    if StatusEqual(a, b) {
      forall i | 0 <= i < |a.conditions| ensures b.conditions[i] == a.conditions[i].(since := b.conditions[i].since) {
        assert SameCondition(a.conditions[i], b.conditions[i]);
      }
    }
  }

  /** cs' came from cs by setting each condition type at most once: types stay in place, and a
      transition time can only have moved together with its status. */
  ghost predicate SetAtMostOnce(cs: seq<Condition>, cs': seq<Condition>) {
    && |cs| <= |cs'|
    && forall i :: 0 <= i < |cs| ==>
         && cs'[i].ctype == cs[i].ctype
         && (cs'[i].status == cs[i].status ==> cs'[i].since == cs[i].since)
  }

  /** Setting a type that the pass has not touched yet extends the set-at-most-once relation. */
  lemma SetOnceMore(cs: seq<Condition>, cs1: seq<Condition>, ctype: string, status: ConditionStatus, reason: string, message: string, now: int)
    requires SetAtMostOnce(cs, cs1)
    requires forall i :: 0 <= i < |cs| && cs[i].ctype == ctype ==> cs1[i] == cs[i]
    ensures SetAtMostOnce(cs, SetCondition(cs1, ctype, status, reason, message, now))
  {
  }

  /** Dropping a write that StatusEqual calls unchanged loses nothing. */
  lemma SuppressionIsLossless(a: Status, b: Status)
    requires SetAtMostOnce(a.conditions, b.conditions)
    requires StatusEqual(a, b)
    ensures a == b
  {
    forall i | 0 <= i < |a.conditions| ensures a.conditions[i] == b.conditions[i] {
      assert SameCondition(a.conditions[i], b.conditions[i]);
    }
    assert a.conditions == b.conditions;
  }

  /** Without the once-per-type discipline the comparison would be lossy: flipping a condition there
      and back leaves an equal status with a later transition time. */
  lemma SettingTwiceCanBeLost()
    ensures exists a: Status, b: Status :: StatusEqual(a, b) && a != b && DistinctTypes(a.conditions)
              && b.conditions == SetCondition(SetCondition(a.conditions, CONDITION_READY, CondTrue, "R", "", 2),
                                              CONDITION_READY, CondFalse, "S", "m", 3)
  {
    var a := EMPTY_STATUS.(conditions := [Condition(CONDITION_READY, CondFalse, "S", "m", 1)]);
    var mid := SetCondition(a.conditions, CONDITION_READY, CondTrue, "R", "", 2);
    assert mid == [Condition(CONDITION_READY, CondTrue, "R", "", 2)];
    var b := a.(conditions := SetCondition(mid, CONDITION_READY, CondFalse, "S", "m", 3));
    assert b.conditions == [Condition(CONDITION_READY, CondFalse, "S", "m", 3)];
    assert StatusEqual(a, b) && a != b;
  }
}
