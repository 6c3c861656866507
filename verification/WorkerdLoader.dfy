/** The workerd fast lane's app table and port allocator (internal/workerd/loader.go). */
module WorkerdLoader {
  import opened Wrappers

  /** The two maps of the loader. */
  datatype Table = Table(apps: map<string, int>, ports: map<int, string>)

  const EMPTY := Table(map[], map[])

  /** The maps are inverse to each other. */
  ghost predicate Inverse(t: Table) {
    && (forall id :: id in t.apps ==> t.apps[id] in t.ports && t.ports[t.apps[id]] == id)
    && (forall p :: p in t.ports ==> t.ports[p] in t.apps && t.apps[t.ports[p]] == p)
  }

  // ---- the search for a free slot ----

  ghost predicate TakenBelow(ports: map<int, string>, base: int, slot: nat) {
    forall q :: base <= q < base + slot ==> q in ports
  }

  /** A map with the first `slot` ports has at least that many entries: the search must end. */
  lemma {:induction false} Pigeonhole(ports: map<int, string>, base: int, slot: nat)
    requires TakenBelow(ports, base, slot)
    ensures slot <= |ports|
    decreases slot
  {
    if slot > 0 {
      var rest := ports - {base + (slot - 1)};
      Pigeonhole(rest, base, slot - 1);
      assert rest.Keys == ports.Keys - {base + (slot - 1)};
    }
  }

  /** The least free slot. */
  ghost predicate IsLeastFree(ports: map<int, string>, base: int, slot: nat) {
    TakenBelow(ports, base, slot) && base + slot !in ports
  }

  ghost function LeastFree(ports: map<int, string>, base: int, from: nat): (slot: nat)
    requires TakenBelow(ports, base, from)
    ensures IsLeastFree(ports, base, slot) && slot <= |ports|
    decreases |ports| + 1 - from
  {
    Pigeonhole(ports, base, from);
    if base + from !in ports then from
    else
      assert TakenBelow(ports, base, from + 1);
      Pigeonhole(ports, base, from + 1);
      LeastFree(ports, base, from + 1)
  }

  lemma LeastFreeUnique(ports: map<int, string>, base: int, a: nat, b: nat)
    requires IsLeastFree(ports, base, a) && IsLeastFree(ports, base, b)
    ensures a == b
  {
  }

  // ---- operations ----

  /** No path separator, no "..", not empty. */
  predicate ValidId(id: string) {
    id != "" && '/' !in id && forall i :: 0 <= i < |id| - 1 ==> !(id[i] == '.' && id[i + 1] == '.')
  }

  /** Exactly the non-empty ids without a path separator and without two dots in a row. */
  lemma ValidIdIff(id: string)
    ensures ValidId(id) <==> id != "" && '/' !in id && forall a: string, b: string :: id != a + ".." + b
  {
    if ValidId(id) {
      forall a: string, b: string ensures id != a + ".." + b {
        var i := |a|;
        assert (a + ".." + b)[i] == '.' && (a + ".." + b)[i + 1] == '.';
      }
    } else if id != "" && '/' !in id {
      var i :| 0 <= i < |id| - 1 && id[i] == '.' && id[i + 1] == '.';
      assert id == id[..i] + ".." + id[i + 2..];
    }
  }

  /** An operation and whether its script files, then its config render and reload, succeed. */
  datatype Op =
    | Put(id: string, filesOk: bool, reloadOk: bool)
    | Remove(id: string, filesOk: bool, reloadOk: bool)

  ghost function Assigned(t: Table, base: int, id: string): Table {
    var port := base + LeastFree(t.ports, base, 0);
    Table(t.apps[id := port], t.ports[port := id])
  }

  ghost function AfterPut(t: Table, base: int, id: string, filesOk: bool): Table {
    if !ValidId(id) || !filesOk || id in t.apps then t else Assigned(t, base, id)
  }

  function AfterRemove(t: Table, id: string): Table {
    if ValidId(id) && id in t.apps then Table(t.apps - {id}, t.ports - {t.apps[id]}) else t
  }

  ghost function Apply(t: Table, base: int, op: Op): Table {
    match op
    case Put(id, filesOk, _) => AfterPut(t, base, id, filesOk)
    case Remove(id, _, _) => AfterRemove(t, id)
  }

  class Loader {
    const portBase: int
    var apps: map<string, int>
    var ports: map<int, string>

    ghost function View(): Table
      reads this
    {
      Table(apps, ports)
    }

    constructor (base: int)
      ensures portBase == (if base == 0 then 9100 else base) && View() == EMPTY
    {
      portBase := if base == 0 then 9100 else base;
      apps, ports := map[], map[];
    }

    method AssignPortLocked(id: string) returns (port: int)
      modifies this
      ensures View() == Assigned(old(View()), portBase, id) && port == apps[id]
    {
      var slot: nat := 0;
      while portBase + slot in ports
        invariant TakenBelow(ports, portBase, slot)
        invariant ports == old(ports) && apps == old(apps)
        decreases |ports| + 1 - slot
      {
        Pigeonhole(ports, portBase, slot);
        assert TakenBelow(ports, portBase, slot + 1);
        Pigeonhole(ports, portBase, slot + 1);
        slot := slot + 1;
      }
      LeastFreeUnique(ports, portBase, slot, LeastFree(ports, portBase, 0));
      port := portBase + slot;
      apps := apps[id := port];
      ports := ports[port := id];
    }

    method PutApp(id: string, filesOk: bool, reloadOk: bool) returns (r: Result<int>)
      modifies this
      ensures View() == AfterPut(old(View()), portBase, id, filesOk)
      ensures r.Ok? <==> ValidId(id) && filesOk && reloadOk
      ensures r.Ok? ==> id in apps && r.value == apps[id]
    {
      if id == "" {
        return Err("workerd: app id is empty");
      }
      if !ValidId(id) {
        return Err("workerd: invalid app id");
      }
      if !filesOk {
        return Err("workerd: write script");
      }
      var port: int;
      if id in apps {
        port := apps[id];
      } else {
        port := AssignPortLocked(id);
      }
      if !reloadOk {
        return Err("workerd: reload");
      }
      return Ok(port);
    }

    method RemoveApp(id: string, filesOk: bool, reloadOk: bool) returns (r: Result<()>)
      modifies this
      ensures View() == AfterRemove(old(View()), id)
      ensures r.Ok? <==> ValidId(id) && filesOk && reloadOk
    {
      if !ValidId(id) {
        return Err("workerd: invalid app id");
      }
      if id in apps {
        var port := apps[id];
        apps := apps - {id};
        ports := ports - {port};
      }
      if !filesOk || !reloadOk {
        return Err("workerd: remove script or reload");
      }
      return Ok(());
    }
  }

  // ---- every sequence of operations ----

  ghost function Run(base: int, ops: seq<Op>): Table {
    if ops == [] then EMPTY else Apply(Run(base, ops[..|ops| - 1]), base, ops[|ops| - 1])
  }

  /** The largest number of apps registered at the same time. */
  ghost function Peak(base: int, ops: seq<Op>): nat {
    var now := |Run(base, ops).apps|;
    if ops == [] then now
    else
      var before := Peak(base, ops[..|ops| - 1]);
      if before < now then now else before
  }

  function Without(t: Table, id: string, port: int): Table { Table(t.apps - {id}, t.ports - {port}) }

  /** One pair taken out of inverse maps. */
  lemma OnePairLess(t: Table, id: string)
    requires Inverse(t) && id in t.apps
    ensures var rest := Without(t, id, t.apps[id]);
            Inverse(rest) && |rest.apps| == |t.apps| - 1 && |rest.ports| == |t.ports| - 1
  {
    var rest := Without(t, id, t.apps[id]);
    assert rest.apps.Keys == t.apps.Keys - {id} && rest.ports.Keys == t.ports.Keys - {t.apps[id]};
  }

  lemma PortHasApp(t: Table, p: int)
    requires Inverse(t)
    ensures p in t.ports ==> t.ports[p] in t.apps.Keys
  {
  }

  lemma {:induction false} InverseSameSize(t: Table)
    requires Inverse(t)
    ensures |t.ports| == |t.apps|
    decreases |t.apps|
  {
    if t.apps.Keys == {} {
      forall p: int ensures p !in t.ports.Keys {
        PortHasApp(t, p);
      }
      assert t.ports.Keys == {};
    } else {
      var id :| id in t.apps;
      OnePairLess(t, id);
      InverseSameSize(Without(t, id, t.apps[id]));
    }
  }

  ghost predicate PortsIn(t: Table, base: int, n: nat) {
    forall id :: id in t.apps ==> base <= t.apps[id] < base + n
  }

  /** A new app gets the least free port, which is within the number of apps including it. */
  lemma AssignedIsOk(t: Table, base: int, id: string)
    requires Inverse(t) && id !in t.apps
    ensures var u := Assigned(t, base, id);
            && Inverse(u) && |u.apps| == |t.apps| + 1
            && base <= u.apps[id] < base + |u.apps|
            && u.apps[id] !in t.ports && (forall q :: base <= q < u.apps[id] ==> q in t.ports)
            && forall other :: other in t.apps ==> u.apps[other] == t.apps[other]
  {
    InverseSameSize(t);
  }

  lemma StepIsOk(t: Table, base: int, op: Op, n: nat)
    requires Inverse(t) && PortsIn(t, base, n)
    ensures var u := Apply(t, base, op);
            Inverse(u) && PortsIn(u, base, if n < |u.apps| then |u.apps| else n)
    ensures forall id :: id in t.apps && id in Apply(t, base, op).apps ==> Apply(t, base, op).apps[id] == t.apps[id]
  {
    match op
    case Put(id, filesOk, _) =>
      if ValidId(id) && filesOk && id !in t.apps {
        AssignedIsOk(t, base, id);
      }
    case Remove(_, _, _) =>
  }

  /** After any sequence of operations the maps are inverse, and every port lies within the peak number of apps. */
  lemma {:induction false} EverySequenceIsSafe(base: int, ops: seq<Op>)
    ensures Inverse(Run(base, ops)) && PortsIn(Run(base, ops), base, Peak(base, ops))
  {
    if ops != [] {
      var front := ops[..|ops| - 1];
      EverySequenceIsSafe(base, front);
      StepIsOk(Run(base, front), base, ops[|ops| - 1], Peak(base, front));
    }
  }

  /** A registered app keeps its port until it is removed, and no two apps share one. */
  lemma PortsAreStableAndDistinct(base: int, ops: seq<Op>, op: Op)
    ensures var t, u := Run(base, ops), Run(base, ops + [op]);
            forall id :: id in t.apps && !(op.Remove? && op.id == id) ==> id in u.apps && u.apps[id] == t.apps[id]
    ensures var t := Run(base, ops);
            forall a, b :: a in t.apps && b in t.apps && a != b ==> t.apps[a] != t.apps[b]
  {
    EverySequenceIsSafe(base, ops);
    assert (ops + [op])[..|ops|] == ops;
    StepIsOk(Run(base, ops), base, op, Peak(base, ops));
  }

  /** A valid Remove frees the app's port at once; a Put registers a valid id whose files could be written, and no other
      operation registers anything. */
  lemma OperationsRegister(base: int, ops: seq<Op>, op: Op)
    ensures var t, u := Run(base, ops), Run(base, ops + [op]);
            && (forall a :: a in u.apps <==>
                  || (a in t.apps && !(op.Remove? && ValidId(op.id) && a == op.id))
                  || (op.Put? && a == op.id && ValidId(a) && op.filesOk))
  {
    assert (ops + [op])[..|ops|] == ops;
  }

  /** A first Put gets the smallest port no registered app has. */
  lemma NewAppGetsLeastPort(base: int, ops: seq<Op>, id: string)
    requires ValidId(id) && id !in Run(base, ops).apps
    ensures var t, u := Run(base, ops), Run(base, ops + [Put(id, true, true)]);
            && id in u.apps && base <= u.apps[id]
            && (forall a :: a in t.apps ==> t.apps[a] != u.apps[id])
            && (forall q :: base <= q < u.apps[id] ==> q in t.apps.Values)
  {
    EverySequenceIsSafe(base, ops);
    assert (ops + [Put(id, true, true)])[..|ops|] == ops;
    var t := Run(base, ops);
    AssignedIsOk(t, base, id);
    forall q | base <= q < Assigned(t, base, id).apps[id] ensures q in t.apps.Values {
      assert q in t.ports && t.apps[t.ports[q]] == q;
    }
  }

  // ---- the rendered config ----

  predicate Alnum(c: char) { 'a' <= c <= 'z' || 'A' <= c <= 'Z' || '0' <= c <= '9' }

  function GoIdent(id: string): (r: string)
    ensures |r| == |id|
    ensures forall i :: 0 <= i < |id| ==> r[i] == if Alnum(id[i]) then id[i] else '_'
  {
    if id == "" then "" else [if Alnum(id[0]) then id[0] else '_'] + GoIdent(id[1..])
  }

  /** goIdent's loop. */
  method ComputeGoIdent(id: string) returns (out: string)
    ensures out == GoIdent(id)
  {
    out := "";
    for i := 0 to |id|
      invariant |out| == i
      invariant forall j :: 0 <= j < i ==> out[j] == if Alnum(id[j]) then id[j] else '_'
    {
      out := out + [if Alnum(id[i]) then id[i] else '_'];
    }
    assert out == GoIdent(id);
  }

  /** A service entry, a socket entry and a worker constant of config.capnp. */
  datatype Service = Service(name: string, worker: string)
  datatype Socket = Socket(name: string, port: int, service: string)
  datatype Worker = Worker(name: string, script: string)
  datatype Config = Config(services: seq<Service>, sockets: seq<Socket>, workers: seq<Worker>)

  function Render(ids: seq<string>, apps: map<string, int>): (c: Config)
    requires forall i :: 0 <= i < |ids| ==> ids[i] in apps
    ensures |c.services| == |c.sockets| == |c.workers| == |ids|
  {
    Config(
      seq(|ids|, i requires 0 <= i < |ids| => Service("app_" + GoIdent(ids[i]), "worker_" + GoIdent(ids[i]))),
      seq(|ids|, i requires 0 <= i < |ids| => Socket("sock_" + GoIdent(ids[i]), apps[ids[i]], "app_" + GoIdent(ids[i]))),
      seq(|ids|, i requires 0 <= i < |ids| => Worker("worker_" + GoIdent(ids[i]), "scripts/" + ids[i] + "/worker.js")))
  }

  /** Socket i names service j, which names worker k. */
  predicate Linked(c: Config, i: nat, j: nat, k: nat)
    requires i < |c.sockets| && j < |c.services| && k < |c.workers|
  {
    c.sockets[i].service == c.services[j].name && c.services[j].worker == c.workers[k].name
  }

  /** Two ids get the same identifier exactly when they differ only among characters outside [A-Za-z0-9]. */
  predicate Clash(a: string, b: string) {
    |a| == |b| && forall i :: 0 <= i < |a| ==> a[i] == b[i] || (!Alnum(a[i]) && !Alnum(b[i]))
  }

  lemma IdentsClashIff(a: string, b: string)
    ensures GoIdent(a) == GoIdent(b) <==> Clash(a, b)
  {
    var x, y := GoIdent(a), GoIdent(b);
    if |a| == |b| {
      forall i | 0 <= i < |a| ensures x[i] == y[i] <==> a[i] == b[i] || (!Alnum(a[i]) && !Alnum(b[i])) {
        assert x[i] == (if Alnum(a[i]) then a[i] else '_') && y[i] == (if Alnum(b[i]) then b[i] else '_');
      }
      assert x == y <==> forall i :: 0 <= i < |a| ==> x[i] == y[i];
    }
  }

  lemma PrefixedDiffer(prefix: string, a: string, b: string)
    ensures prefix + a == prefix + b <==> a == b
  {
    assert (prefix + a)[|prefix|..] == a && (prefix + b)[|prefix|..] == b;
  }

  /** No two services, no two sockets and no two workers have one name. */
  ghost predicate NamesDistinct(c: Config) {
    && (forall i, j :: 0 <= i < j < |c.services| ==> c.services[i].name != c.services[j].name)
    && (forall i, j :: 0 <= i < j < |c.sockets| ==> c.sockets[i].name != c.sockets[j].name)
    && (forall i, j :: 0 <= i < j < |c.workers| ==> c.workers[i].name != c.workers[j].name)
  }

  ghost predicate NoClash(ids: seq<string>) { forall i, j :: 0 <= i < j < |ids| ==> !Clash(ids[i], ids[j]) }

  /** Sockets, services and workers are linked app by app. */
  ghost predicate LinkedInOrder(c: Config)
    requires |c.services| == |c.sockets| == |c.workers|
  {
    forall i, j, k :: 0 <= i < |c.sockets| && 0 <= j < |c.services| && 0 <= k < |c.workers| ==> (Linked(c, i, j, k) <==> i == j == k)
  }

  ghost predicate NoRepeats(xs: seq<string>) { forall i, j :: 0 <= i < j < |xs| ==> xs[i] != xs[j] }

  /** The config is rendered from these identifiers, with these prefixes. */
  ghost predicate RenderedFrom(c: Config, idents: seq<string>, app: string, sock: string, worker: string) {
    && |c.services| == |c.sockets| == |c.workers| == |idents|
    && (forall i :: 0 <= i < |idents| ==> c.services[i].name == app + idents[i])
    && (forall i :: 0 <= i < |idents| ==> c.services[i].worker == worker + idents[i])
    && (forall i :: 0 <= i < |idents| ==> c.sockets[i].name == sock + idents[i])
    && (forall i :: 0 <= i < |idents| ==> c.sockets[i].service == app + idents[i])
    && (forall i :: 0 <= i < |idents| ==> c.workers[i].name == worker + idents[i])
  }

  lemma LinkedIff(c: Config, idents: seq<string>, app: string, sock: string, worker: string)
    requires RenderedFrom(c, idents, app, sock, worker)
    ensures LinkedInOrder(c) <==> NoRepeats(idents)
  {
    forall i, j | 0 <= i < |idents| && 0 <= j < |idents|
      ensures c.sockets[i].service == c.services[j].name <==> idents[i] == idents[j]
      ensures c.services[i].worker == c.workers[j].name <==> idents[i] == idents[j]
    {
      PrefixedDiffer(app, idents[i], idents[j]);
      PrefixedDiffer(worker, idents[i], idents[j]);
    }
    if i, j :| 0 <= i < j < |idents| && idents[i] == idents[j] {
      assert Linked(c, i, j, j);
    }
  }

  lemma DistinctIff(c: Config, idents: seq<string>, app: string, sock: string, worker: string)
    requires RenderedFrom(c, idents, app, sock, worker)
    ensures NamesDistinct(c) <==> NoRepeats(idents)
  {
    forall i, j | 0 <= i < |idents| && 0 <= j < |idents|
      ensures c.services[i].name == c.services[j].name <==> idents[i] == idents[j]
      ensures c.sockets[i].name == c.sockets[j].name <==> idents[i] == idents[j]
      ensures c.workers[i].name == c.workers[j].name <==> idents[i] == idents[j]
    {
      PrefixedDiffer(app, idents[i], idents[j]);
      PrefixedDiffer(sock, idents[i], idents[j]);
      PrefixedDiffer(worker, idents[i], idents[j]);
    }
  }

  function Idents(ids: seq<string>): (r: seq<string>)
    ensures |r| == |ids| && forall i :: 0 <= i < |ids| ==> r[i] == GoIdent(ids[i])
  {
    seq(|ids|, i requires 0 <= i < |ids| => GoIdent(ids[i]))
  }

  lemma NoClashIff(ids: seq<string>)
    ensures NoRepeats(Idents(ids)) <==> NoClash(ids)
  {
    forall i, j | 0 <= i < j < |ids| ensures Idents(ids)[i] == Idents(ids)[j] <==> Clash(ids[i], ids[j]) {
      IdentsClashIff(ids[i], ids[j]);
    }
  }

  /** The config sends each app's port to its own script and names nothing twice exactly when no two ids clash. */
  lemma RenderIsUnambiguousIff(ids: seq<string>, apps: map<string, int>)
    requires forall i :: 0 <= i < |ids| ==> ids[i] in apps
    ensures LinkedInOrder(Render(ids, apps)) <==> NoClash(ids)
    ensures NamesDistinct(Render(ids, apps)) <==> NoClash(ids)
  {
    NoClashIff(ids);
    LinkedIff(Render(ids, apps), Idents(ids), "app_", "sock_", "worker_");
    DistinctIff(Render(ids, apps), Idents(ids), "app_", "sock_", "worker_");
  }

  /** The names a deploy accepts: lower-case letters, digits and inner hyphens. */
  predicate DnsName(id: string) {
    && id != "" && id[0] != '-' && id[|id| - 1] != '-'
    && forall i :: 0 <= i < |id| ==> 'a' <= id[i] <= 'z' || '0' <= id[i] <= '9' || id[i] == '-'
  }

  /** For DNS-label ids the rendered services, sockets and workers of any reachable table are distinct, each port
      leads to the script of the app that holds it, and no port is listened on twice. */
  lemma DnsLabelsRenderUnambiguously(base: int, ops: seq<Op>, ids: seq<string>)
    requires forall i :: 0 <= i < |ids| ==> ids[i] in Run(base, ops).apps && DnsName(ids[i])
    requires forall i, j :: 0 <= i < j < |ids| ==> ids[i] != ids[j]
    ensures var c := Render(ids, Run(base, ops).apps);
            && LinkedInOrder(c) && NamesDistinct(c)
            && (forall i, j :: 0 <= i < j < |ids| ==> c.sockets[i].port != c.sockets[j].port)
  {
    var t := Run(base, ops);
    EverySequenceIsSafe(base, ops);
    forall i, j | 0 <= i < j < |ids| ensures !Clash(ids[i], ids[j]) {
      assert ids[i] != ids[j];
    }
    RenderIsUnambiguousIff(ids, t.apps);
    forall i, j | 0 <= i < j < |ids| ensures t.apps[ids[i]] != t.apps[ids[j]] {
      assert t.ports[t.apps[ids[i]]] == ids[i] && t.ports[t.apps[ids[j]]] == ids[j];
    }
  }

  /** Ids the loader accepts but a deploy would not can share all their rendered names. */
  lemma AcceptedIdsCanClash()
    ensures ValidId("a-b") && ValidId("a_b") && "a-b" != "a_b" && GoIdent("a-b") == GoIdent("a_b")
  {
    assert "a-b"[1] != "a_b"[1];
    assert Clash("a-b", "a_b");
    IdentsClashIff("a-b", "a_b");
  }
}
