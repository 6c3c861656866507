/** The in-pod agent: one supervised user process, replaced by injects (internal/runneragent/agent.go). */
module RunnerAgent {
  import opened Wrappers

  /** How cmd.Wait() ended: no error, an exit error with its code, or any other error. */
  datatype Outcome = Clean | ExitError(code: int) | WaitError(message: string)

  function CodeOf(o: Outcome): int {
    match o
    case Clean => 0
    case ExitError(code) => code
    case WaitError(_) => -1
  }

  datatype State = Idle | Running | Exited | Failed

  /** A directory entry of the workdir: the staging dir of a call, or the source a call put in place. */
  datatype Entry = StageDir(call: nat) | Payload(call: nat)

  /** The fields behind the agent's mutex, the workdir and the log; processes are named by their start order, and a
      log line by the process that wrote it. */
  datatype Core = Core(
    gen: nat, cmd: Option<nat>, state: State, exitCode: Option<int>, command: Option<nat>, lastErr: string,
    stages: set<nat>, workdir: set<Entry>, logs: seq<nat>)

  const INITIAL := Core(0, None, Idle, None, None, "", {}, {}, [])

  /** What the filesystem and the process launcher answer to one inject. */
  datatype InjectResult =
    | ListFailed
    | ResetFailed(left: set<Entry>)
    | WriteFailed(partial: bool)
    | StartFailed(message: string)
    | Started

  /** stopProcessLocked. */
  function Stopped(c: Core): Core {
    if c.cmd.None? then c else c.(gen := c.gen + 1, cmd := None, state := Idle)
  }

  /** resetWorkdirLocked: entries of in-flight stages stay, and so does what could not be removed. */
  function Cleared(c: Core, left: set<Entry>): Core {
    c.(workdir := set e | e in c.workdir && ((e.StageDir? && e.call in c.stages) || e in left))
  }

  /** startProcessLocked, once the process has been started. */
  function Launched(c: Core, call: nat, process: nat): Core {
    c.(gen := c.gen + 1, cmd := Some(process), state := Running, exitCode := None, command := Some(call), lastErr := "")
  }

  /** The locked part of inject. */
  function Injected(c: Core, call: nat, process: nat, r: InjectResult): Core {
    var s := Stopped(c);
    match r
    case ListFailed => s
    case ResetFailed(left) => Cleared(s, left)
    case WriteFailed(partial) =>
      var d := Cleared(s, {});
      if partial then d.(workdir := d.workdir + {Payload(call)}) else d
    case StartFailed(message) =>
      var d := Cleared(s, {});
      d.(workdir := d.workdir + {Payload(call)}, logs := [], state := Failed, lastErr := message)
    case Started =>
      var d := Cleared(s, {});
      Launched(d.(workdir := d.workdir + {Payload(call)}, logs := []), call, process)
  }

  /** The locked part of supervise, for a process started with generation gen. */
  function Observed(c: Core, gen: nat, o: Outcome): Core {
    if c.gen != gen then c
    else c.(cmd := None, exitCode := Some(CodeOf(o)), state := if CodeOf(o) == 0 then Exited else Failed,
            lastErr := if o.WaitError? then o.message else c.lastErr)
  }

  // ---- the class whose fields the mutex guards ----

  /** Every entry of the directory once. */
  ghost predicate Lists(listing: seq<Entry>, workdir: set<Entry>) {
    && (forall e :: e in listing <==> e in workdir)
    && (forall i, j :: 0 <= i < j < |listing| ==> listing[i] != listing[j])
  }

  /** Entry number n exists, is to be removed, and cannot be. */
  predicate FailsAt(listing: seq<Entry>, n: nat, stages: set<nat>) {
    n < |listing| && !(listing[n].StageDir? && listing[n].call in stages)
  }

  class Agent {
    var gen: nat
    var cmd: Option<nat>
    var state: State
    var exitCode: Option<int>
    var command: Option<nat>
    var lastErr: string
    var stages: set<nat>
    var workdir: set<Entry>
    var logs: seq<nat>

    ghost function View(): Core
      reads this
    {
      Core(gen, cmd, state, exitCode, command, lastErr, stages, workdir, logs)
    }

    constructor ()
      ensures View() == INITIAL
    {
      gen, cmd, state, exitCode, command, lastErr := 0, None, Idle, None, None, "";
      stages, workdir, logs := {}, {}, [];
    }

    method StopProcessLocked()
      modifies this
      ensures View() == Stopped(old(View()))
    {
      if cmd.None? {
        return;
      }
      gen := gen + 1;
      cmd := None;
      state := Idle;
    }

    /** Reads the directory, unless that fails, and walks it; the removal of entry number failAt fails, if there is one. */
    method ResetWorkdirLocked(listed: Option<seq<Entry>>, failAt: nat) returns (failure: Option<InjectResult>)
      requires listed.Some? ==> Lists(listed.value, workdir)
      modifies this`workdir
      ensures failure == None ==> View() == Cleared(old(View()), {})
      ensures failure.Some? ==>
                && (failure.value == ListFailed || failure.value.ResetFailed?)
                && View() == (if failure.value.ListFailed? then old(View()) else Cleared(old(View()), failure.value.left))
      ensures failure == Some(ListFailed) <==> listed.None?
      ensures failure.Some? && failure.value.ResetFailed? <==> listed.Some? && FailsAt(listed.value, failAt, stages)
    {
      if listed.None? {
        return Some(ListFailed);
      }
      var listing := listed.value;
      for i := 0 to |listing|
        invariant forall e :: e in workdir <==>
                    e in old(workdir) && (e in listing[i..] || (e.StageDir? && e.call in stages))
        invariant failAt < i ==> !FailsAt(listing, failAt, stages)
      {
        var e := listing[i];
        assert listing[i..] == [e] + listing[i + 1..];
        if e.StageDir? && e.call in stages {
          continue;
        }
        if i == failAt {
          failure := Some(ResetFailed(workdir));
          assert workdir == Cleared(old(View()), workdir).workdir;
          return;
        }
        workdir := workdir - {e};
      }
      failure := None;
      assert workdir == Cleared(old(View()), {}).workdir;
    }

    method StartProcessLocked(call: nat, process: nat)
      modifies this
      ensures View() == Launched(old(View()), call, process)
    {
      gen := gen + 1;
      cmd := Some(process);
      state := Running;
      exitCode := None;
      command := Some(call);
      lastErr := "";
    }

    /** Inject's locked part; the arguments after process are the answers of the operating system. */
    method InjectLocked(call: nat, process: nat, listed: Option<seq<Entry>>, failAt: nat, writeError: Option<bool>, startError: Option<string>)
      returns (r: InjectResult)
      requires listed.Some? ==> Lists(listed.value, workdir)
      modifies this
      ensures View() == Injected(old(View()), call, process, r)
      ensures r.ListFailed? <==> listed.None?
      ensures r.ResetFailed? <==> listed.Some? && FailsAt(listed.value, failAt, old(stages))
      ensures !r.ListFailed? && !r.ResetFailed? ==>
                (r.WriteFailed? <==> writeError.Some?) && (r.Started? <==> writeError.None? && startError.None?)
    {
      StopProcessLocked();
      var failure := ResetWorkdirLocked(listed, failAt);
      if failure.Some? {
        return failure.value;
      }
      if writeError.Some? {
        if writeError.value {
          workdir := workdir + {Payload(call)};
        }
        return WriteFailed(writeError.value);
      }
      workdir := workdir + {Payload(call)};
      logs := [];
      if startError.Some? {
        state := Failed;
        lastErr := startError.value;
        return StartFailed(startError.value);
      }
      StartProcessLocked(call, process);
      return Started;
    }

    method SuperviseLocked(started: nat, o: Outcome)
      modifies this
      ensures View() == Observed(old(View()), started, o)
    {
      if gen != started {
        return;
      }
      cmd := None;
      var code := 0;
      match o {
        case Clean =>
        case ExitError(c) => code := c;
        case WaitError(message) =>
          code := -1;
          lastErr := message;
      }
      exitCode := Some(code);
      state := if code == 0 then Exited else Failed;
    }
  }

  // ---- all interleavings of injects, stops and supervisors ----

  /** A supervisor goroutine: waiting, reaped (done closed, lock not yet taken), or finished. */
  datatype Supervisor = Waiting | Reaped(outcome: Outcome) | Ignored(outcome: Outcome) | Recorded(outcome: Outcome)

  /** A started process: its generation, the inject that started it, its supervisor. */
  datatype Process = Process(gen: nat, call: nat, supervisor: Supervisor)

  /** An inject request on its way: staging dir made, registered, or none needed; then leaving. */
  datatype Call = Made | Registered | Direct | Leaving | Unregistered | Gone

  /** lost: the calls whose staging dir another inject's reset removed. startFailed: the last start failed. */
  datatype World = World(core: Core, processes: seq<Process>, calls: seq<Call>, lost: set<nat>, startFailed: bool)

  datatype Step =
    | Begin(staged: bool)
    | Register(call: nat)
    | FetchFails(call: nat)
    | Inject(call: nat, result: InjectResult)
    | Unregister(call: nat)
    | RemoveStage(call: nat)
    | Stop
    | Reap(process: nat, outcome: Outcome)
    | Supervise(process: nat)
    | Output(process: nat)

  predicate Enabled(w: World, s: Step) {
    match s
    case Begin(_) => true
    case Register(c) => c < |w.calls| && w.calls[c] == Made
    case FetchFails(c) => c < |w.calls| && w.calls[c] == Registered
    case Inject(c, _) => c < |w.calls| && (w.calls[c] == Registered || w.calls[c] == Direct)
    case Unregister(c) => c < |w.calls| && w.calls[c] == Leaving
    case RemoveStage(c) => c < |w.calls| && w.calls[c] == Unregistered
    case Stop => true
    case Reap(p, _) => p < |w.processes| && w.processes[p].supervisor == Waiting
    case Supervise(p) => p < |w.processes| && w.processes[p].supervisor.Reaped?
    case Output(p) => p < |w.processes| && w.processes[p].supervisor == Waiting
  }

  function Apply(w: World, s: Step): World {
    if !Enabled(w, s) then w else
    match s
    case Begin(staged) =>
      var c := |w.calls|;
      if staged then w.(calls := w.calls + [Made], core := w.core.(workdir := w.core.workdir + {StageDir(c)}))
      else w.(calls := w.calls + [Direct])
    case Register(c) => w.(calls := w.calls[c := Registered], core := w.core.(stages := w.core.stages + {c}))
    case FetchFails(c) => w.(calls := w.calls[c := Leaving])
    case Inject(c, r) => AfterInject(w, c, r)
    case Unregister(c) => w.(calls := w.calls[c := Unregistered], core := w.core.(stages := w.core.stages - {c}))
    case RemoveStage(c) => w.(calls := w.calls[c := Gone], core := w.core.(workdir := w.core.workdir - {StageDir(c)}))
    case Stop => w.(core := Stopped(w.core))
    case Reap(p, o) => w.(processes := w.processes[p := w.processes[p].(supervisor := Reaped(o))])
    case Output(p) => w.(core := w.core.(logs := w.core.logs + [p]))
    case Supervise(p) =>
      var proc := w.processes[p];
      var o := proc.supervisor.outcome;
      World(Observed(w.core, proc.gen, o),
            w.processes[p := proc.(supervisor := if w.core.gen == proc.gen then Recorded(o) else Ignored(o))], w.calls, w.lost,
            w.startFailed)
  }

  function AfterInject(w: World, c: nat, r: InjectResult): World
    requires c < |w.calls|
  {
    var core := Injected(w.core, c, |w.processes|, r);
    World(core,
          if r.Started? then w.processes + [Process(core.gen, c, Waiting)] else w.processes,
          w.calls[c := if w.calls[c] == Registered then Leaving else Gone],
          w.lost + (set e | e in w.core.workdir && e.StageDir? && e !in core.workdir :: e.call),
          if r.Started? then false else if r.StartFailed? then true else w.startFailed)
  }

  function Run(steps: seq<Step>): World {
    if steps == [] then World(INITIAL, [], [], {}, false) else Apply(Run(steps[..|steps| - 1]), steps[|steps| - 1])
  }

  /** The recorded exit code of the process started last. */
  function LastRecord(ps: seq<Process>): Option<int> {
    if |ps| == 0 || !ps[|ps| - 1].supervisor.Recorded? then None else Some(CodeOf(ps[|ps| - 1].supervisor.outcome))
  }

  /** One process: it is the current one and unrecorded, or its generation is over, or it has been recorded. */
  predicate ProcessOk(c: Core, p: nat, proc: Process) {
    && proc.gen <= c.gen
    && (c.cmd == Some(p) ==> proc.gen == c.gen && (proc.supervisor.Waiting? || proc.supervisor.Reaped?))
    && (c.cmd != Some(p) && proc.gen == c.gen ==> proc.supervisor.Recorded?)
    && (proc.supervisor.Ignored? ==> proc.gen < c.gen)
  }

  ghost predicate ProcessInv(c: Core, ps: seq<Process>) {
    && (c.state == Running <==> c.cmd.Some?)
    && (c.cmd.Some? ==> c.cmd.value == |ps| - 1 && c.command == Some(ps[|ps| - 1].call))
    && (forall p :: 0 <= p < |ps| ==> ProcessOk(c, p, ps[p]))
    && (forall p, q :: 0 <= p < q < |ps| ==> ps[p].gen < ps[q].gen)
    && c.exitCode == LastRecord(ps)
    && (c.state == Exited ==> c.exitCode == Some(0))
  }

  /** One inject call: a registered stage is protected, and its directory is there unless it was lost before. */
  predicate CallOk(c: Core, lost: set<nat>, k: nat, call: Call) {
    && (k in c.stages <==> call in {Registered, Leaving})
    && (call in {Made, Registered, Leaving} ==> (StageDir(k) in c.workdir <==> k !in lost))
    && (call in {Direct, Gone} ==> StageDir(k) !in c.workdir)
  }

  ghost predicate WorkdirInv(c: Core, calls: seq<Call>, lost: set<nat>) {
    && (forall k :: 0 <= k < |calls| ==> CallOk(c, lost, k, calls[k]))
    && (forall k :: k in c.stages ==> k < |calls|)
    && (forall k :: k in lost ==> k < |calls|)
    && (forall e :: e in c.workdir ==> e.call < |calls|)
    && (c.cmd.Some? ==> forall e :: e in c.workdir && e.Payload? ==> Some(e.call) == c.command)
  }

  ghost predicate Inv(w: World) { ProcessInv(w.core, w.processes) && WorkdirInv(w.core, w.calls, w.lost) }

  lemma StoppedKeeps(c: Core, ps: seq<Process>)
    requires ProcessInv(c, ps)
    ensures ProcessInv(Stopped(c), ps)
  {
    forall p | 0 <= p < |ps| ensures ProcessOk(Stopped(c), p, ps[p]) {
      assert ProcessOk(c, p, ps[p]);
    }
  }

  lemma LaunchedKeeps(c: Core, ps: seq<Process>, call: nat)
    requires ProcessInv(c, ps)
    ensures ProcessInv(Launched(c, call, |ps|), ps + [Process(c.gen + 1, call, Waiting)])
  {
    var d, qs := Launched(c, call, |ps|), ps + [Process(c.gen + 1, call, Waiting)];
    forall p | 0 <= p < |qs| ensures ProcessOk(d, p, qs[p]) {
      assert p < |ps| ==> ProcessOk(c, p, ps[p]) by {
        if p < |ps| {}
      }
    }
  }

  /** The workdir and the error text play no part; a failed start only marks a stopped agent. */
  lemma OtherFieldsKeep(c: Core, d: Core, ps: seq<Process>)
    requires ProcessInv(c, ps)
    requires d.gen == c.gen && d.cmd == c.cmd && d.exitCode == c.exitCode && d.command == c.command
    requires d.state == c.state || (c.cmd.None? && d.state == Failed)
    ensures ProcessInv(d, ps)
  {
    forall p | 0 <= p < |ps| ensures ProcessOk(d, p, ps[p]) {
      assert ProcessOk(c, p, ps[p]);
    }
  }

  lemma InjectKeepsProcesses(w: World, c: nat, r: InjectResult)
    requires ProcessInv(w.core, w.processes) && c < |w.calls|
    ensures var v := AfterInject(w, c, r); ProcessInv(v.core, v.processes)
  {
    var v, s := AfterInject(w, c, r), Stopped(w.core);
    StoppedKeeps(w.core, w.processes);
    if r.Started? {
      var d := s.(workdir := Cleared(s, {}).workdir + {Payload(c)});
      OtherFieldsKeep(s, d, w.processes);
      LaunchedKeeps(d, w.processes, c);
    } else {
      OtherFieldsKeep(s, v.core, w.processes);
    }
  }

  lemma SuperviseKeeps(w: World, p: nat)
    requires ProcessInv(w.core, w.processes) && Enabled(w, Supervise(p))
    ensures var v := Apply(w, Supervise(p)); ProcessInv(v.core, v.processes)
  {
    var v := Apply(w, Supervise(p));
    forall q | 0 <= q < |v.processes| ensures ProcessOk(v.core, q, v.processes[q]) {
      assert ProcessOk(w.core, q, w.processes[q]);
      assert ProcessOk(w.core, p, w.processes[p]);
    }
  }

  lemma ReapKeeps(w: World, p: nat, o: Outcome)
    requires ProcessInv(w.core, w.processes) && Enabled(w, Reap(p, o))
    ensures var v := Apply(w, Reap(p, o)); ProcessInv(v.core, v.processes)
  {
    var v := Apply(w, Reap(p, o));
    forall q | 0 <= q < |v.processes| ensures ProcessOk(v.core, q, v.processes[q]) {
      assert ProcessOk(w.core, q, w.processes[q]);
    }
  }

  lemma InjectKeepsWorkdir(w: World, c: nat, r: InjectResult)
    requires WorkdirInv(w.core, w.calls, w.lost) && Enabled(w, Inject(c, r))
    ensures var v := AfterInject(w, c, r); WorkdirInv(v.core, v.calls, v.lost)
  {
    var v := AfterInject(w, c, r);
    forall k | 0 <= k < |v.calls| ensures CallOk(v.core, v.lost, k, v.calls[k]) {
      assert CallOk(w.core, w.lost, k, w.calls[k]);
      assert StageDir(k) in v.core.workdir ==> StageDir(k) in w.core.workdir;
      assert k in v.lost <==> k in w.lost || (StageDir(k) in w.core.workdir && StageDir(k) !in v.core.workdir);
    }
  }

  /** The steps of a call outside the locked part of inject. */
  lemma CallKeepsWorkdir(w: World, s: Step)
    requires WorkdirInv(w.core, w.calls, w.lost) && Enabled(w, s) && !s.Inject? && !s.Reap? && !s.Supervise? && !s.Stop? && !s.Output?
    ensures var v := Apply(w, s); WorkdirInv(v.core, v.calls, v.lost)
  {
    var v := Apply(w, s);
    forall k | 0 <= k < |v.calls| ensures CallOk(v.core, v.lost, k, v.calls[k]) {
      if k < |w.calls| {
        assert CallOk(w.core, w.lost, k, w.calls[k]);
      }
    }
  }

  /** Stops and supervisors leave the workdir and the calls alone. */
  lemma SameWorkdirKeeps(c: Core, d: Core, calls: seq<Call>, lost: set<nat>)
    requires WorkdirInv(c, calls, lost)
    requires d.stages == c.stages && d.workdir == c.workdir && d.command == c.command && (d.cmd == c.cmd || d.cmd.None?)
    ensures WorkdirInv(d, calls, lost)
  {
    forall k | 0 <= k < |calls| ensures CallOk(d, lost, k, calls[k]) {
      assert CallOk(c, lost, k, calls[k]);
    }
  }

  lemma StepKeepsInv(w: World, s: Step)
    requires Inv(w)
    ensures Inv(Apply(w, s))
  {
    if Enabled(w, s) {
      var v := Apply(w, s);
      match s
      case Inject(c, r) =>
        InjectKeepsProcesses(w, c, r);
        InjectKeepsWorkdir(w, c, r);
      case Reap(p, o) => ReapKeeps(w, p, o);
      case Supervise(p) =>
        SuperviseKeeps(w, p);
        SameWorkdirKeeps(w.core, v.core, w.calls, w.lost);
      case Stop =>
        StoppedKeeps(w.core, w.processes);
        SameWorkdirKeeps(w.core, v.core, w.calls, w.lost);
      case Output(_) =>
        OtherFieldsKeep(w.core, v.core, w.processes);
        SameWorkdirKeeps(w.core, v.core, w.calls, w.lost);
      case _ =>
        OtherFieldsKeep(w.core, v.core, w.processes);
        CallKeepsWorkdir(w, s);
    }
  }

  lemma {:induction false} EveryRunIsSafe(steps: seq<Step>)
    ensures Inv(Run(steps))
  {
    if steps != [] {
      EveryRunIsSafe(steps[..|steps| - 1]);
      StepKeepsInv(Run(steps[..|steps| - 1]), steps[|steps| - 1]);
    }
  }

  // ---- what the runs guarantee ----

  /** Running exactly while there is a current process; that process has the current generation and the
      workdir holds no source but the one it was started on. */
  lemma RunningMeansCurrentProcess(steps: seq<Step>)
    ensures var c := Run(steps).core; c.state == Running <==> c.cmd.Some?
    ensures var w := Run(steps);
            w.core.cmd.Some? ==>
              && w.core.cmd.value < |w.processes|
              && w.processes[w.core.cmd.value].gen == w.core.gen
              && !w.processes[w.core.cmd.value].supervisor.Recorded?
              && forall e :: e in w.core.workdir && e.Payload? ==> e.call == w.processes[w.core.cmd.value].call
  {
    EveryRunIsSafe(steps);
    var w := Run(steps);
    assert w.core.cmd.Some? ==> ProcessOk(w.core, w.core.cmd.value, w.processes[w.core.cmd.value]) by {
      if w.core.cmd.Some? {}
    }
  }

  /** The reported exit code is that of the process started last, once its own supervisor recorded it, and only then. */
  lemma ExitCodeIsTheLastProcess(steps: seq<Step>)
    ensures var w := Run(steps); w.core.exitCode == LastRecord(w.processes)
    ensures Run(steps).core.state == Exited ==> Run(steps).core.exitCode == Some(0)
  {
    EveryRunIsSafe(steps);
  }

  /** The state the agent should report: running while there is a current process; failed after a failed start; else by
      the last process: exited or failed by its recorded code, idle if it was stopped or there is none. */
  function DueState(w: World): State {
    if w.core.cmd.Some? then Running
    else if w.startFailed then Failed
    else if w.processes == [] || !w.processes[|w.processes| - 1].supervisor.Recorded? then Idle
    else if CodeOf(w.processes[|w.processes| - 1].supervisor.outcome) == 0 then Exited
    else Failed
  }

  ghost predicate StateInv(w: World) { w.core.state == DueState(w) && (w.core.cmd.Some? ==> !w.startFailed) }

  lemma SuperviseKeepsState(w: World, p: nat)
    requires ProcessInv(w.core, w.processes) && StateInv(w) && Enabled(w, Supervise(p))
    ensures StateInv(Apply(w, Supervise(p)))
  {
    assert ProcessOk(w.core, p, w.processes[p]);
    assert forall q :: 0 <= q < |w.processes| ==> ProcessOk(w.core, q, w.processes[q]);
  }

  lemma InjectKeepsState(w: World, c: nat, r: InjectResult)
    requires ProcessInv(w.core, w.processes) && StateInv(w) && c < |w.calls|
    ensures StateInv(AfterInject(w, c, r))
  {
    if w.core.cmd.Some? {
      assert ProcessOk(w.core, w.core.cmd.value, w.processes[w.core.cmd.value]);
    }
  }

  lemma StopKeepsState(w: World)
    requires ProcessInv(w.core, w.processes) && StateInv(w)
    ensures StateInv(Apply(w, Stop))
  {
    if w.core.cmd.Some? {
      assert ProcessOk(w.core, w.core.cmd.value, w.processes[w.core.cmd.value]);
    }
  }

  lemma StepKeepsState(w: World, s: Step)
    requires ProcessInv(w.core, w.processes) && StateInv(w)
    ensures StateInv(Apply(w, s))
  {
    if Enabled(w, s) {
      match s
      case Inject(c, r) => InjectKeepsState(w, c, r);
      case Supervise(p) => SuperviseKeepsState(w, p);
      case Stop => StopKeepsState(w);
      case Reap(p, o) => assert ProcessOk(w.core, p, w.processes[p]);
      case _ =>
    }
  }

  /** In every run the agent reports exactly the state that is due. */
  lemma {:induction false} StateIsDue(steps: seq<Step>)
    ensures StateInv(Run(steps))
  {
    if steps != [] {
      StateIsDue(steps[..|steps| - 1]);
      EveryRunIsSafe(steps[..|steps| - 1]);
      StepKeepsState(Run(steps[..|steps| - 1]), steps[|steps| - 1]);
    }
  }

  // ---- what each operation does, field by field ----

  /** The exit of the current process: its code, exited for zero and failed otherwise, and the text of any other error. */
  lemma CurrentExitIsRecorded(c: Core, o: Outcome)
    ensures var code := match o { case Clean => 0 case ExitError(n) => n case WaitError(_) => -1 };
            Observed(c, c.gen, o) ==
              c.(cmd := None, exitCode := Some(code), state := if code == 0 then Exited else Failed,
                 lastErr := if o.WaitError? then o.message else c.lastErr)
    ensures forall gen :: gen != c.gen ==> Observed(c, gen, o) == c
  {
  }

  /** What an inject leaves. A started process: running, current, alone with its source and an empty log, under a later
      generation. A failed start: failed with its text, on the same source. An earlier failure: stopped, if there was a
      process, and otherwise as before. In every case in-flight stages survive. */
  lemma InjectLeaves(c: Core, call: nat, process: nat, r: InjectResult)
    ensures var d := Injected(c, call, process, r);
            && d.stages == c.stages && (forall e :: e in c.workdir && e.StageDir? && e.call in c.stages ==> e in d.workdir)
            && (c.cmd.Some? || r.Started? ==> d.gen > c.gen) && (c.cmd.None? && !r.Started? ==> d.gen == c.gen)
            && (if r.Started? then d.cmd == Some(process) && d.state == Running && d.exitCode == None && d.command == Some(call) && d.lastErr == ""
                else d.cmd == None && d.exitCode == c.exitCode && d.command == c.command
                     && d.state == (if r.StartFailed? then Failed else if c.cmd.Some? then Idle else c.state)
                     && d.lastErr == (if r.StartFailed? then r.message else c.lastErr))
            && (if r.Started? || r.StartFailed?
                then d.logs == [] && forall e :: e in d.workdir <==> e == Payload(call) || (e in c.workdir && e.StageDir? && e.call in c.stages)
                else d.logs == c.logs)
            && (r.ListFailed? ==> d.workdir == c.workdir)
  {
  }

  /** A stop leaves an idle agent without a process, under a later generation, exactly if there was one. */
  lemma StopLeaves(c: Core)
    ensures Stopped(c) == if c.cmd.Some? then c.(gen := c.gen + 1, cmd := None, state := Idle) else c
  {
  }

  /** Process p has been replaced or stopped. */
  predicate Superseded(w: World, p: nat) { p < |w.processes| && w.processes[p].gen < w.core.gen }

  lemma GenerationsGrow(w: World, s: Step)
    ensures Apply(w, s).core.gen >= w.core.gen
    ensures |Apply(w, s).processes| >= |w.processes|
    ensures forall p :: 0 <= p < |w.processes| ==> Apply(w, s).processes[p].gen == w.processes[p].gen
  {
  }

  lemma StepKeepsSuperseded(w: World, s: Step, p: nat)
    requires Superseded(w, p)
    ensures Superseded(Apply(w, s), p)
    ensures Apply(w, s).processes[p].supervisor.Recorded? <==> w.processes[p].supervisor.Recorded?
  {
    GenerationsGrow(w, s);
  }

  /** Once superseded, a process stays superseded and its outcome is never recorded any more. */
  lemma {:induction false} SupersededForGood(before: seq<Step>, after: seq<Step>, p: nat)
    requires Superseded(Run(before), p)
    ensures Superseded(Run(before + after), p)
    ensures Run(before + after).processes[p].supervisor.Recorded? <==> Run(before).processes[p].supervisor.Recorded?
  {
    if after == [] {
      assert before + after == before;
    } else {
      var front := after[..|after| - 1];
      SupersededForGood(before, front, p);
      assert (before + after)[..|before + after| - 1] == before + front;
      StepKeepsSuperseded(Run(before + front), after[|after| - 1], p);
    }
  }

  /** However late it comes, whatever has been injected or stopped in between, the supervisor of a superseded process
      changes nothing the agent reports. */
  lemma LateSupervisorIsIgnored(before: seq<Step>, after: seq<Step>, p: nat)
    requires Superseded(Run(before), p)
    ensures Apply(Run(before + after), Supervise(p)).core == Run(before + after).core
  {
    SupersededForGood(before, after, p);
  }

  /** A finished supervisor is finished for good: each outcome is dealt with once and never revised. */
  lemma {:induction false} OutcomeIsFinal(before: seq<Step>, after: seq<Step>, p: nat)
    requires p < |Run(before).processes|
    requires Run(before).processes[p].supervisor.Recorded? || Run(before).processes[p].supervisor.Ignored?
    ensures p < |Run(before + after).processes|
    ensures Run(before + after).processes[p] == Run(before).processes[p]
    ensures !Enabled(Run(before + after), Supervise(p))
  {
    if after == [] {
      assert before + after == before;
    } else {
      var front := after[..|after| - 1];
      OutcomeIsFinal(before, front, p);
      assert (before + after)[..|before + after| - 1] == before + front;
    }
  }

  /** A staging directory that is there when it is registered stays until its inject unregisters it. */
  lemma RegisteredStageIsKept(steps: seq<Step>, s: Step, k: nat)
    requires var w := Run(steps); k in w.core.stages && StageDir(k) in w.core.workdir
    ensures var v := Apply(Run(steps), s); k in v.core.stages ==> StageDir(k) in v.core.workdir
  {
    EveryRunIsSafe(steps);
    StepKeepsInv(Run(steps), s);
    var w, v := Run(steps), Apply(Run(steps), s);
    assert CallOk(w.core, w.lost, k, w.calls[k]) && CallOk(v.core, v.lost, k, v.calls[k]);
  }

  /** An unregistered one is lost exactly to another inject that gets to clear the workdir. */
  lemma MadeStageIsLostIff(steps: seq<Step>, s: Step, k: nat)
    requires var w := Run(steps); k < |w.calls| && w.calls[k] == Made && StageDir(k) in w.core.workdir
    ensures var w := Run(steps);
            StageDir(k) !in Apply(w, s).core.workdir <==>
              s.Inject? && Enabled(w, s) && !s.result.ListFailed? && !(s.result.ResetFailed? && StageDir(k) in s.result.left)
  {
    EveryRunIsSafe(steps);
    var w := Run(steps);
    assert CallOk(w.core, w.lost, k, w.calls[k]);
  }

  /** The directory is made before it is registered, so another inject's reset in between removes it. */
  lemma UnregisteredStageCanBeLost()
    ensures var w := Run([Begin(true), Begin(false), Inject(1, Started), Register(0)]);
            0 in w.core.stages && StageDir(0) !in w.core.workdir
  {
    var s0, s1, s2, s3 := [Begin(true)], [Begin(true), Begin(false)],
      [Begin(true), Begin(false), Inject(1, Started)], [Begin(true), Begin(false), Inject(1, Started), Register(0)];
    assert s0[..0] == [] && s1[..1] == s0 && s2[..2] == s1 && s3[..3] == s2;
    assert Run(s0).calls == [Made] && Run(s0).core.stages == {};
    assert Run(s1).calls == [Made, Direct] && Run(s1).core.stages == {};
    assert Run(s2).calls == [Made, Gone];
  }
}
