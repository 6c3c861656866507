/** The ConfigMap-backed artifact store: read-modify-write with retry on conflict (internal/store/configmap.go). */
module ConfigMapStore {
  import opened Wrappers

  const MAX_BYTES: nat := 900 * 1024

  /** Attempts of retry.RetryOnConflict with retry.DefaultRetry. */
  const MAX_TRIES: nat := 5

  /** A stored JSON text and the artifact name it unmarshals to, if it does. */
  datatype Value = Value(text: string, name: Option<string>)

  type Data = map<string, Value>

  datatype Op =
    | Create(id: string, name: string, text: string)
    | Update(id: string, name: string, text: string)
    | Delete(id: string)

  datatype Refusal = AlreadyExists | NotFound | TooLarge

  datatype Verdict = Commit(data: Data) | Refuse(why: Refusal)

  predicate NameTaken(d: Data, name: string) { exists k :: k in d && d[k].name == Some(name) }

  ghost function Size(d: Data): nat
    decreases |d|
  {
    if d == map[] then 0
    else
      var k :| k in d;
      assert |d.Keys - {k}| < |d.Keys|;
      assert (d - {k}).Keys == d.Keys - {k};
      |k| + |d[k].text| + Size(d - {k})
  }

  lemma {:induction false} SizeWithout(d: Data, k: string)
    requires k in d
    ensures Size(d) == |k| + |d[k].text| + Size(d - {k})
    decreases |d|
  {
    var j :| j in d && Size(d) == |j| + |d[j].text| + Size(d - {j});
    if j != k {
      assert (d - {j}).Keys == d.Keys - {j} && (d - {k}).Keys == d.Keys - {k};
      SizeWithout(d - {j}, k);
      SizeWithout(d - {k}, j);
      assert d - {j} - {k} == d - {k} - {j};
    }
  }

  ghost function Guarded(d: Data): Verdict { if Size(d) > MAX_BYTES then Refuse(TooLarge) else Commit(d) }

  /** One attempt's closure, on the data it read. */
  ghost function Eval(op: Op, d: Data): Verdict {
    match op
    case Create(id, name, text) =>
      if NameTaken(d, name) then Refuse(AlreadyExists) else Guarded(d[id := Value(text, Some(name))])
    case Update(id, name, text) =>
      if id !in d then Refuse(NotFound) else Guarded(d[id := Value(text, Some(name))])
    case Delete(id) =>
      if id !in d then Refuse(NotFound) else Guarded(d - {id})
  }

  // ---- the closures' loops ----

  /** The total of updateConfigMap, whatever order the map is walked in. */
  method Total(d: Data) returns (total: nat)
    ensures total == Size(d)
  {
    total := 0;
    var rest := d;
    while rest != map[]
      invariant total + Size(rest) == Size(d)
      decreases |rest|
    {
      var k :| k in rest;
      SizeWithout(rest, k);
      total := total + |k| + |rest[k].text|;
      assert (rest - {k}).Keys == rest.Keys - {k};
      rest := rest - {k};
    }
  }

  method UpdateConfigMap(d: Data) returns (v: Verdict)
    ensures v == Guarded(d)
  {
    var total := Total(d);
    if total > MAX_BYTES {
      return Refuse(TooLarge);
    }
    return Commit(d);
  }

  method HasName(d: Data, name: string) returns (taken: bool)
    ensures taken == NameTaken(d, name)
  {
    var rest := d.Keys;
    while rest != {}
      invariant rest <= d.Keys
      invariant forall k :: k in d && k !in rest ==> d[k].name != Some(name)
      decreases |rest|
    {
      var k :| k in rest;
      if d[k].name == Some(name) {
        return true;
      }
      rest := rest - {k};
    }
    return false;
  }

  method Attempt(op: Op, read: Data) returns (v: Verdict)
    ensures v == Eval(op, read)
  {
    match op
    case Create(id, name, text) =>
      var taken := HasName(read, name);
      if taken {
        return Refuse(AlreadyExists);
      }
      v := UpdateConfigMap(read[id := Value(text, Some(name))]);
    case Update(id, name, text) =>
      if id !in read {
        return Refuse(NotFound);
      }
      v := UpdateConfigMap(read[id := Value(text, Some(name))]);
    case Delete(id) =>
      if id !in read {
        return Refuse(NotFound);
      }
      v := UpdateConfigMap(read - {id});
  }

  // ---- any number of replicas against one API server ----

  datatype Object = Object(version: nat, data: Data)

  /** Where a call is. A refused or finished call remembers the point of the commit order it belongs to. */
  datatype Phase =
    | Reading
    | Creating
    | Writing(version: nat, data: Data)
    | Refused(why: Refusal, at: nat)
    | Done(at: nat)
    | Exhausted
    | Failed

  /** A call of Create, Update or Delete; `from` is the number of commits when it was made. */
  datatype Call = Call(op: Op, from: nat, conflicts: nat, phase: Phase)

  /** log: the calls that committed, in commit order. */
  datatype World = World(stored: Option<Object>, calls: seq<Call>, log: seq<nat>)

  datatype Step =
    | Invoke(op: Op)
    | Get(call: nat, ok: bool)
    | PostEmpty(call: nat, ok: bool)
    | Put(call: nat, ok: bool)

  predicate Enabled(w: World, s: Step) {
    match s
    case Invoke(_) => true
    case Get(c, _) => c < |w.calls| && w.calls[c].phase == Reading
    case PostEmpty(c, _) => c < |w.calls| && w.calls[c].phase == Creating
    case Put(c, _) => c < |w.calls| && w.calls[c].phase.Writing?
  }

  ghost function AfterRead(op: Op, o: Object, commits: nat): Phase {
    match Eval(op, o.data)
    case Refuse(why) => Refused(why, commits)
    case Commit(data) => Writing(o.version, data)
  }

  function In(w: World, c: nat, phase: Phase): World
    requires c < |w.calls|
  {
    w.(calls := w.calls[c := w.calls[c].(phase := phase)])
  }

  ghost function Apply(w: World, s: Step): World {
    if !Enabled(w, s) then w else
    match s
    case Invoke(op) => w.(calls := w.calls + [Call(op, |w.log|, 0, Reading)])
    case Get(c, ok) =>
      if !ok then In(w, c, Failed)
      else if w.stored.Some? then In(w, c, AfterRead(w.calls[c].op, w.stored.value, |w.log|))
      else if w.calls[c].op.Create? then In(w, c, Creating)
      else In(w, c, Failed)
    case PostEmpty(c, ok) =>
      if !ok || w.stored.Some? then In(w, c, Failed)
      else In(w, c, AfterRead(w.calls[c].op, Object(0, map[]), |w.log|)).(stored := Some(Object(0, map[])))
    case Put(c, ok) => AfterPut(w, c, ok)
  }

  ghost function AfterPut(w: World, c: nat, ok: bool): World
    requires c < |w.calls| && w.calls[c].phase.Writing?
  {
    var call := w.calls[c];
    if !ok || w.stored.None? then In(w, c, Failed)
    else if w.stored.value.version == call.phase.version then
      World(Some(Object(w.stored.value.version + 1, call.phase.data)), w.calls[c := call.(phase := Done(|w.log|))], w.log + [c])
    else w.(calls := w.calls[c := call.(conflicts := call.conflicts + 1,
                                       phase := if call.conflicts + 1 == MAX_TRIES then Exhausted else Reading)])
  }

  ghost function Run(steps: seq<Step>): World {
    if steps == [] then World(None, [], []) else Apply(Run(steps[..|steps| - 1]), steps[|steps| - 1])
  }

  /** The operations of a log, one after another, on an empty store. */
  ghost function Replay(ops: seq<Op>): (d: Data)
    decreases |ops|
  {
    if ops == [] then map[]
    else
      var before := Replay(ops[..|ops| - 1]);
      match Eval(ops[|ops| - 1], before)
      case Commit(data) => data
      case Refuse(_) => before
  }

  predicate LogOk(w: World) { forall i :: 0 <= i < |w.log| ==> w.log[i] < |w.calls| }

  ghost function Ops(w: World): (r: seq<Op>)
    requires LogOk(w)
    ensures |r| == |w.log|
  {
    seq(|w.log|, i requires 0 <= i < |w.log| => w.calls[w.log[i]].op)
  }

  /** A call's reply is what its operation gives at a point of the commit order within the call. */
  ghost predicate CallOk(ops: seq<Op>, log: seq<nat>, c: nat, call: Call) {
    && call.from <= |ops| == |log|
    && call.from + call.conflicts <= |ops|
    && (if call.phase.Exhausted? then call.conflicts == MAX_TRIES else call.conflicts < MAX_TRIES)
    && (call.phase.Refused? ==>
          call.from <= call.phase.at <= |ops| && Eval(call.op, Replay(ops[..call.phase.at])) == Refuse(call.phase.why))
    && (call.phase.Done? ==>
          call.from <= call.phase.at < |ops| && log[call.phase.at] == c && ops[call.phase.at] == call.op)
    && (call.phase.Writing? ==>
          call.from + call.conflicts <= call.phase.version <= |ops| && Eval(call.op, Replay(ops[..call.phase.version])) == Commit(call.phase.data))
  }

  /** Entry i of the log committed, and its call says so. */
  ghost predicate EntryOk(w: World, ops: seq<Op>, i: nat)
    requires |w.log| == |ops| && i < |ops|
  {
    && w.log[i] < |w.calls| && w.calls[w.log[i]].phase == Done(i)
    && Eval(ops[i], Replay(ops[..i])).Commit?
  }

  ghost predicate Inv(w: World) {
    && LogOk(w)
    && var ops := Ops(w);
    && (w.stored.None? ==> w.log == [])
    && (w.stored.Some? ==> w.stored.value == Object(|w.log|, Replay(ops)))
    && (forall c :: 0 <= c < |w.calls| ==> CallOk(ops, w.log, c, w.calls[c]))
    && (forall i :: 0 <= i < |ops| ==> EntryOk(w, ops, i))
    && (w.stored.None? ==> forall c :: 0 <= c < |w.calls| ==> !w.calls[c].phase.Writing?)
  }

  /** A step of one call that commits nothing: the others, the log and the data stay. */
  lemma CallStepKeeps(w: World, v: World, c: nat)
    requires Inv(w) && c < |w.calls| == |v.calls| && !w.calls[c].phase.Done? && !v.calls[c].phase.Done?
    requires v.log == w.log && v.calls == w.calls[c := v.calls[c]] && v.calls[c].op == w.calls[c].op
    requires v.stored == w.stored || (w.stored.None? && v.stored == Some(Object(0, map[])))
    requires CallOk(Ops(w), w.log, c, v.calls[c])
    requires v.calls[c].phase.Writing? ==> v.stored.Some?
    ensures Inv(v) && Ops(v) == Ops(w)
  {
    assert Ops(v) == Ops(w);
    forall i | 0 <= i < |Ops(w)| ensures EntryOk(v, Ops(v), i) {
      assert EntryOk(w, Ops(w), i);
    }
  }

  lemma ReadIsOk(w: World, c: nat, o: Object)
    requires Inv(w) && c < |w.calls| && !w.calls[c].phase.Exhausted? && o == Object(|w.log|, Replay(Ops(w)))
    ensures CallOk(Ops(w), w.log, c, w.calls[c].(phase := AfterRead(w.calls[c].op, o, |w.log|)))
  {
    assert CallOk(Ops(w), w.log, c, w.calls[c]);
    assert Ops(w)[..|Ops(w)|] == Ops(w);
  }

  lemma CommitKeeps(w: World, c: nat)
    requires Inv(w) && Enabled(w, Put(c, true)) && w.stored.Some? && w.stored.value.version == w.calls[c].phase.version
    ensures Inv(AfterPut(w, c, true)) && Ops(AfterPut(w, c, true)) == Ops(w) + [w.calls[c].op]
  {
    var v := AfterPut(w, c, true);
    var ops := Ops(w);
    assert LogOk(v);
    var ops' := Ops(v);
    assert ops' == ops + [w.calls[c].op];
    assert CallOk(ops, w.log, c, w.calls[c]);
    assert ops'[..|ops|] == ops == ops[..|ops|];
    forall d | 0 <= d < |v.calls| ensures CallOk(ops', v.log, d, v.calls[d]) {
      assert CallOk(ops, w.log, d, w.calls[d]);
      assert forall at :: 0 <= at <= |ops| ==> ops'[..at] == ops[..at];
    }
    forall i | 0 <= i < |ops'| ensures EntryOk(v, ops', i) {
      assert i < |ops| ==> EntryOk(w, ops, i);
      assert ops'[..i] == ops[..i];
    }
  }

  lemma InvokeKeeps(w: World, op: Op)
    requires Inv(w)
    ensures Inv(Apply(w, Invoke(op))) && Ops(Apply(w, Invoke(op))) == Ops(w)
  {
    var v := Apply(w, Invoke(op));
    assert LogOk(v);
    assert Ops(v) == Ops(w);
    forall i | 0 <= i < |Ops(w)| ensures EntryOk(v, Ops(v), i) {
      assert EntryOk(w, Ops(w), i);
    }
    forall c | 0 <= c < |v.calls| ensures CallOk(Ops(v), v.log, c, v.calls[c]) {
      if c < |w.calls| {
        assert CallOk(Ops(w), w.log, c, w.calls[c]);
      }
    }
  }

  ghost predicate Commits(w: World, s: Step) {
    s.Put? && Enabled(w, s) && s.ok && w.stored.Some? && w.stored.value.version == w.calls[s.call].phase.version
  }

  lemma OtherStepKeeps(w: World, s: Step)
    requires Inv(w) && Enabled(w, s) && !s.Invoke? && !Commits(w, s)
    ensures Inv(Apply(w, s)) && Apply(w, s).log == w.log
  {
    var c := s.call;
    assert CallOk(Ops(w), w.log, c, w.calls[c]);
    if s.Get? && s.ok && w.stored.Some? {
      ReadIsOk(w, c, w.stored.value);
    } else if s.PostEmpty? && s.ok && w.stored.None? {
      ReadIsOk(w, c, Object(0, map[]));
    }
    CallStepKeeps(w, Apply(w, s), c);
  }

  lemma StepKeepsInv(w: World, s: Step)
    requires Inv(w)
    ensures Inv(Apply(w, s))
  {
    if Enabled(w, s) {
      if s.Invoke? {
        InvokeKeeps(w, s.op);
      } else if Commits(w, s) {
        CommitKeeps(w, s.call);
      } else {
        OtherStepKeeps(w, s);
      }
    }
  }

  lemma {:induction false} EveryRunIsSafe(steps: seq<Step>)
    ensures Inv(Run(steps))
  {
    if steps != [] {
      EveryRunIsSafe(steps[..|steps| - 1]);
      StepKeepsInv(Run(steps[..|steps| - 1]), steps[|steps| - 1]);
    }
  }

  // ---- what the runs guarantee ----

  function Contents(w: World): Data { if w.stored.Some? then w.stored.value.data else map[] }

  /** The store behaves as if the committed calls ran one after another in commit order: the contents are their
      replay, every entry really committed, a call committed exactly when it returned success, and then once. */
  lemma CommitsAreSerial(steps: seq<Step>)
    ensures var w := Run(steps); LogOk(w) && Contents(w) == Replay(Ops(w))
    ensures var w := Run(steps);
            forall c, i :: 0 <= c < |w.calls| && 0 <= i < |w.log| ==> (w.log[i] == c <==> w.calls[c].phase == Done(i))
    ensures var w := Run(steps);
            forall i :: 0 <= i < |w.log| && LogOk(w) ==> Eval(Ops(w)[i], Replay(Ops(w)[..i])) == Commit(Replay(Ops(w)[..i + 1]))
  {
    EveryRunIsSafe(steps);
    var w := Run(steps);
    forall c, i | 0 <= c < |w.calls| && 0 <= i < |w.log|
      ensures w.log[i] == c <==> w.calls[c].phase == Done(i)
    {
      assert CallOk(Ops(w), w.log, c, w.calls[c]) && EntryOk(w, Ops(w), i);
    }
    forall i | 0 <= i < |w.log| ensures Eval(Ops(w)[i], Replay(Ops(w)[..i])) == Commit(Replay(Ops(w)[..i + 1])) {
      assert EntryOk(w, Ops(w), i);
      assert Ops(w)[..i + 1][..i] == Ops(w)[..i];
    }
  }

  /** Every refusal is the answer of the serial store at a moment between the call and its return. */
  lemma RefusalsAreJustified(steps: seq<Step>, c: nat)
    requires c < |Run(steps).calls| && Run(steps).calls[c].phase.Refused?
    ensures var w := Run(steps);
            var call := w.calls[c];
            && LogOk(w) && call.from <= call.phase.at <= |w.log|
            && Eval(call.op, Replay(Ops(w)[..call.phase.at])) == Refuse(call.phase.why)
  {
    EveryRunIsSafe(steps);
    assert CallOk(Ops(Run(steps)), Run(steps).log, c, Run(steps).calls[c]);
  }

  /** Retries run out only if five other calls committed meanwhile: some replica always makes progress. */
  lemma ExhaustionMeansOthersCommitted(steps: seq<Step>, c: nat)
    requires c < |Run(steps).calls| && Run(steps).calls[c].phase.Exhausted?
    ensures var w := Run(steps);
            && |w.log| >= w.calls[c].from + 5
            && forall i :: 0 <= i < |w.log| ==> w.log[i] != c
  {
    EveryRunIsSafe(steps);
    var w := Run(steps);
    assert CallOk(Ops(w), w.log, c, w.calls[c]);
    forall i | 0 <= i < |w.log| ensures w.log[i] != c {
      assert EntryOk(w, Ops(w), i);
    }
  }

  /** Only a matching write changes the contents: refusals, server errors, conflicts and exhausted retries do not. */
  lemma OnlyCommitsChangeContents(steps: seq<Step>, s: Step)
    ensures var w := Run(steps);
            !Commits(w, s) ==> Contents(Apply(w, s)) == Contents(w) && Apply(w, s).log == w.log
    ensures var w := Run(steps);
            Commits(w, s) ==> Eval(w.calls[s.call].op, Contents(w)) == Commit(Contents(Apply(w, s)))
  {
    EveryRunIsSafe(steps);
    var w := Run(steps);
    if Commits(w, s) {
      assert CallOk(Ops(w), w.log, s.call, w.calls[s.call]);
      assert Ops(w)[..|Ops(w)|] == Ops(w);
    }
  }

  lemma {:induction false} ReplayWithinLimit(ops: seq<Op>)
    ensures Size(Replay(ops)) <= MAX_BYTES
    decreases |ops|
  {
    if ops != [] {
      ReplayWithinLimit(ops[..|ops| - 1]);
    }
  }

  lemma ContentsWithinLimit(steps: seq<Step>)
    ensures Size(Contents(Run(steps))) <= 900 * 1024
  {
    CommitsAreSerial(steps);
    ReplayWithinLimit(Ops(Run(steps)));
  }

  ghost predicate NamesUnique(d: Data) {
    forall j, k :: j in d && k in d && j != k && d[j].name.Some? ==> d[j].name != d[k].name
  }

  /** Create and Delete keep names unique; an Update does exactly when no other artifact has the name it brings. */
  lemma NamesStayUniqueIff(op: Op, d: Data)
    requires NamesUnique(d) && Eval(op, d).Commit?
    ensures NamesUnique(Eval(op, d).data) <==>
              (op.Update? ==> forall k :: k in d && k != op.id ==> d[k].name != Some(op.name))
  {
    if op.Update? {
      var e := Eval(op, d).data;
      assert e[op.id].name == Some(op.name);
      assert forall k :: k in d && k != op.id ==> k in e && e[k] == d[k];
    }
  }

  /** Update i of the log, if it is one, brings the name its artifact already has. */
  ghost predicate KeepsName(ops: seq<Op>, i: nat)
    requires i < |ops|
  {
    ops[i].Update? && ops[i].id in Replay(ops[..i]) ==> Replay(ops[..i])[ops[i].id].name == Some(ops[i].name)
  }

  lemma {:induction false} ReplayNamesUnique(ops: seq<Op>)
    requires forall i :: 0 <= i < |ops| ==> KeepsName(ops, i)
    ensures NamesUnique(Replay(ops))
    decreases |ops|
  {
    if ops != [] {
      var n := |ops| - 1;
      var front := ops[..n];
      forall i | 0 <= i < n ensures KeepsName(front, i) {
        assert front[..i] == ops[..i] && KeepsName(ops, i);
      }
      ReplayNamesUnique(front);
      assert KeepsName(ops, n);
      if Eval(ops[n], Replay(front)).Commit? {
        NamesStayUniqueIff(ops[n], Replay(front));
      }
    }
  }

  /** However the calls interleave, names are unique as long as committed updates keep their artifact's name. */
  lemma NamesUniqueInEveryRun(steps: seq<Step>)
    requires var w := Run(steps); LogOk(w) && forall i :: 0 <= i < |w.log| ==> KeepsName(Ops(w), i)
    ensures NamesUnique(Contents(Run(steps)))
  {
    CommitsAreSerial(steps);
    ReplayNamesUnique(Ops(Run(steps)));
  }

  /** A renaming Update is not checked against the other artifacts. */
  lemma RenamingUpdateClashes()
    ensures var d := map["1" := Value("x", Some("a")), "2" := Value("y", Some("b"))];
            NamesUnique(d) && Eval(Update("2", "a", ""), d).Commit? && !NamesUnique(Eval(Update("2", "a", ""), d).data)
  {
    var d := map["1" := Value("x", Some("a")), "2" := Value("y", Some("b"))];
    var e := d["2" := Value("", Some("a"))];
    SizeWithout(e, "1");
    SizeWithout(e - {"1"}, "2");
    assert e - {"1"} - {"2"} == map[];
    assert e["1"].name == e["2"].name;
  }

  // ---- what each operation does, without its code ----

  /** What an operation says an id should read. */
  function Written(op: Op): Option<Value> { if op.Delete? then None else Some(Value(op.text, Some(op.name))) }

  function Read(d: Data, id: string): Option<Value> { if id in d then Some(d[id]) else None }

  /** What would be stored: the operation's id reads what it says, every other id reads as before. */
  function Result(op: Op, d: Data): Data {
    if op.Delete? then d - {op.id} else d[op.id := Value(op.text, Some(op.name))]
  }

  lemma ResultReads(op: Op, d: Data, id: string)
    ensures Read(Result(op, d), id) == if id == op.id then Written(op) else Read(d, id)
  {
  }

  /** Exactly when an operation is refused and why, and that a committed one stores its result: a create is refused if
      some artifact has its name, an update or delete if the id is absent, and each if the result is too large. */
  lemma EvalIs(op: Op, d: Data)
    ensures Eval(op, d) ==
              if op.Create? && (exists k :: k in d && d[k].name == Some(op.name)) then Refuse(AlreadyExists)
              else if !op.Create? && op.id !in d then Refuse(NotFound)
              else if Size(Result(op, d)) > 900 * 1024 then Refuse(TooLarge)
              else Commit(Result(op, d))
  {
  }

  /** The bytes of a result: those of the old entry go, those of the new one come. */
  lemma ResultSize(op: Op, d: Data)
    ensures Size(Result(op, d)) ==
              Size(d) - (if op.id in d then |op.id| + |d[op.id].text| else 0) + (if op.Delete? then 0 else |op.id| + |op.text|)
  {
    var r := Result(op, d);
    assert r - {op.id} == d - {op.id};
    if op.id in r {
      SizeWithout(r, op.id);
    } else {
      assert r == r - {op.id};
    }
    if op.id in d {
      SizeWithout(d, op.id);
    } else {
      assert d == d - {op.id};
    }
  }

  /** What the last operation about an id says: its text and name, or nothing if it is a delete or there is none. */
  function LastWritten(ops: seq<Op>, id: string): Option<Value> {
    if ops == [] then None
    else if ops[|ops| - 1].id == id then Written(ops[|ops| - 1])
    else LastWritten(ops[..|ops| - 1], id)
  }

  /** Entry i is about the id, and none after it is. */
  predicate LastAbout(ops: seq<Op>, i: nat, id: string) {
    i < |ops| && ops[i].id == id && forall j :: i < j < |ops| ==> ops[j].id != id
  }

  lemma {:induction false} LastWrittenIs(ops: seq<Op>, i: nat, id: string)
    requires LastAbout(ops, i, id)
    ensures LastWritten(ops, id) == Written(ops[i])
  {
    if i < |ops| - 1 {
      LastWrittenIs(ops[..|ops| - 1], i, id);
    }
  }

  lemma OneMoreReads(op: Op, d: Data, id: string)
    requires Eval(op, d).Commit?
    ensures Read(Eval(op, d).data, id) == if id == op.id then Written(op) else Read(d, id)
  {
    EvalIs(op, d);
    ResultReads(op, d, id);
  }

  /** Every operation of the log committed when its turn came. */
  ghost predicate AllCommit(ops: seq<Op>)
    decreases |ops|
  {
    ops == [] || (AllCommit(ops[..|ops| - 1]) && Eval(ops[|ops| - 1], Replay(ops[..|ops| - 1])).Commit?)
  }

  lemma {:induction false} ReplayReads(ops: seq<Op>, id: string)
    requires AllCommit(ops)
    ensures Read(Replay(ops), id) == LastWritten(ops, id)
    decreases |ops|
  {
    if ops != [] {
      ReplayReads(ops[..|ops| - 1], id);
      OneMoreReads(ops[|ops| - 1], Replay(ops[..|ops| - 1]), id);
    }
  }

  lemma {:induction false} EntriesCommit(w: World, ops: seq<Op>, n: nat)
    requires |w.log| == |ops| && n <= |ops| && forall i :: 0 <= i < |ops| ==> EntryOk(w, ops, i)
    ensures AllCommit(ops[..n])
  {
    if n > 0 {
      EntriesCommit(w, ops, n - 1);
      assert EntryOk(w, ops, n - 1);
      assert ops[..n][..n - 1] == ops[..n - 1];
    }
  }

  /** What the store holds in every run, in terms of the committed operations alone: an id is there exactly if the last
      committed operation about it is a create or an update, and then it reads that operation's text and name. */
  lemma ContentsAreTheLastWritten(steps: seq<Step>, id: string)
    ensures var w := Run(steps); LogOk(w) && Read(Contents(w), id) == LastWritten(Ops(w), id)
  {
    EveryRunIsSafe(steps);
    CommitsAreSerial(steps);
    var w := Run(steps);
    EntriesCommit(w, Ops(w), |w.log|);
    assert Ops(w)[..|w.log|] == Ops(w);
    ReplayReads(Ops(w), id);
  }

  /** The step that commits a call writes exactly what its operation says, to its id only. */
  lemma CommitWrites(steps: seq<Step>, s: Step, id: string)
    requires Commits(Run(steps), s)
    ensures var w := Run(steps);
            var op := w.calls[s.call].op;
            Read(Contents(Apply(w, s)), id) == if id == op.id then Written(op) else Read(Contents(w), id)
  {
    OnlyCommitsChangeContents(steps, s);
    var w := Run(steps);
    EvalIs(w.calls[s.call].op, Contents(w));
    ResultReads(w.calls[s.call].op, Contents(w), id);
  }

  /** A write over a version that is not current is retried, and given up after the fifth time. */
  lemma ConflictRetries(w: World, c: nat)
    requires Enabled(w, Put(c, true)) && w.stored.Some? && w.stored.value.version != w.calls[c].phase.version
    ensures var v := Apply(w, Put(c, true));
            && v.stored == w.stored && v.log == w.log && v.calls[c].conflicts == w.calls[c].conflicts + 1
            && v.calls[c].phase == if w.calls[c].conflicts + 1 == 5 then Exhausted else Reading
  {
  }

  /** What a successful read leads to: a refusal as of now, or a write of the operation's result over the version read. */
  lemma ReadDecides(w: World, c: nat)
    requires Enabled(w, Get(c, true)) && w.stored.Some?
    ensures var op, d := w.calls[c].op, w.stored.value.data;
            var phase := Apply(w, Get(c, true)).calls[c].phase;
            if Eval(op, d).Refuse? then phase == Refused(Eval(op, d).why, |w.log|)
            else phase == Writing(w.stored.value.version, Result(op, d))
  {
    EvalIs(w.calls[c].op, w.stored.value.data);
  }

  /** Without a ConfigMap only a create goes on, by making an empty one; it fails if another call made one first. */
  lemma MissingMapIsMade(w: World, c: nat)
    requires c < |w.calls|
    ensures Enabled(w, Get(c, true)) && w.stored.None? ==>
              Apply(w, Get(c, true)).calls[c].phase == if w.calls[c].op.Create? then Creating else Failed
    ensures Enabled(w, PostEmpty(c, true)) ==>
              var v := Apply(w, PostEmpty(c, true));
              if w.stored.None? then v.stored == Some(Object(0, map[])) && (v.calls[c].phase.Writing? || v.calls[c].phase.Refused?)
              else v.calls[c].phase == Failed && v.stored == w.stored
  {
  }
}
