/** Provisioning and re-syncing OIDC users behind the claim fingerprint cache
    (internal/auth/identity.go, internal/auth/auth.go). */
module OidcSync {
  import opened Wrappers
  import opened ClaimFingerprint
  import opened IdentityCache
  import T = TtlCache

  // ---- the department a claim names ----

  type DeptId = s: string | s != "" witness "dept"

  /** The departments by name. */
  type Depts = map<string, DeptId>

  function LowerCase(c: char): char { if 'A' <= c <= 'Z' then c - 'A' + 'a' else c }

  /** Letters and digits in lower case; every run of other characters becomes one hyphen. */
  function Dashed(s: string, afterDash: bool): string {
    if s == "" then ""
    else
      var c := LowerCase(s[0]);
      if 'a' <= c <= 'z' || '0' <= c <= '9' then [c] + Dashed(s[1..], false)
      else if afterDash then Dashed(s[1..], true)
      else ['-'] + Dashed(s[1..], true)
  }

  function TrimLeft(s: string): string { if s != "" && s[0] == '-' then TrimLeft(s[1..]) else s }

  function TrimRight(s: string): string { if s != "" && s[|s| - 1] == '-' then TrimRight(s[..|s| - 1]) else s }

  function Slug(s: string): string { TrimRight(TrimLeft(Dashed(s, false))) }

  /** A slug holds lower-case letters, digits and single inner hyphens only. */
  ghost predicate IsSlug(s: string) {
    && (forall i :: 0 <= i < |s| ==> 'a' <= s[i] <= 'z' || '0' <= s[i] <= '9' || s[i] == '-')
    && (s != "" ==> s[0] != '-' && s[|s| - 1] != '-')
    && NoDouble(s)
  }

  ghost predicate NoDouble(s: string) { forall i, j :: 0 <= i && j == i + 1 && j < |s| ==> !(s[i] == '-' && s[j] == '-') }

  lemma {:induction false} DashedIs(s: string, afterDash: bool)
    ensures var d := Dashed(s, afterDash);
            && (forall i :: 0 <= i < |d| ==> 'a' <= d[i] <= 'z' || '0' <= d[i] <= '9' || d[i] == '-')
            && NoDouble(d) && (afterDash && d != "" ==> d[0] != '-')
  {
    if s != "" {
      var c := LowerCase(s[0]);
      DashedIs(s[1..], !('a' <= c <= 'z' || '0' <= c <= '9'));
    }
  }

  /** Trimming cuts hyphens off an end. */
  lemma {:induction false} TrimLeftIs(s: string) returns (n: nat)
    ensures n <= |s| && TrimLeft(s) == s[n..] && (TrimLeft(s) == "" || TrimLeft(s)[0] != '-')
    ensures forall i :: 0 <= i < n ==> s[i] == '-'
  {
    n := 0;
    if s != "" && s[0] == '-' {
      var m := TrimLeftIs(s[1..]);
      assert s[1..][m..] == s[m + 1..];
      n := m + 1;
    }
  }

  lemma {:induction false} TrimRightIs(s: string) returns (n: nat)
    ensures n <= |s| && TrimRight(s) == s[..n] && (TrimRight(s) == "" || TrimRight(s)[|TrimRight(s)| - 1] != '-')
    ensures forall i :: n <= i < |s| ==> s[i] == '-'
  {
    n := |s|;
    if s != "" && s[|s| - 1] == '-' {
      n := TrimRightIs(s[..|s| - 1]);
    }
  }

  lemma SliceOf(d: string, m: nat, n: nat)
    requires m <= |d| && n <= |d| - m && NoDouble(d)
    requires forall i :: 0 <= i < |d| ==> 'a' <= d[i] <= 'z' || '0' <= d[i] <= '9' || d[i] == '-'
    ensures var t := d[m..][..n];
            NoDouble(t) && forall i :: 0 <= i < |t| ==> 'a' <= t[i] <= 'z' || '0' <= t[i] <= '9' || t[i] == '-'
  {
    var t := d[m..][..n];
    assert forall i :: 0 <= i < |t| ==> t[i] == d[m + i];
    forall i, j | 0 <= i && j == i + 1 && j < |t| ensures !(t[i] == '-' && t[j] == '-') {
      assert t[i] == d[m + i] && t[j] == d[(m + i) + 1];
    }
  }

  lemma SlugIsSlug(s: string)
    ensures IsSlug(Slug(s))
  {
    var d := Dashed(s, false);
    DashedIs(s, false);
    var m := TrimLeftIs(d);
    var t := TrimLeft(d);
    var n := TrimRightIs(t);
    SliceOf(d, m, n);
    if t[..n] != "" {
      assert t[..n][0] == t[0];
    }
  }

  /** The letters and digits of a text, in lower case and in order. */
  function Alnums(s: string): string {
    if s == "" then "" else Alnum(s[0]) + Alnums(s[1..])
  }

  /** A letter in lower case or a digit; nothing for other characters. */
  function Alnum(c: char): string {
    var l := LowerCase(c);
    if 'a' <= l <= 'z' || '0' <= l <= '9' then [l] else ""
  }

  lemma {:induction false} DashedKeepsLetters(s: string, afterDash: bool)
    ensures Alnums(Dashed(s, afterDash)) == Alnums(s)
  {
    if s != "" {
      var c := LowerCase(s[0]);
      var alnum := 'a' <= c <= 'z' || '0' <= c <= '9';
      DashedKeepsLetters(s[1..], !alnum);
      var rest := Dashed(s[1..], !alnum);
      if alnum {
        assert LowerCase(c) == c;
        assert ([c] + rest)[1..] == rest;
      } else {
        assert (['-'] + rest)[1..] == rest;
      }
    }
  }

  lemma {:induction false} AlnumsConcat(a: string, b: string)
    ensures Alnums(a + b) == Alnums(a) + Alnums(b)
  {
    if a == "" {
      assert a + b == b;
    } else {
      assert (a + b)[1..] == a[1..] + b && (a + b)[0] == a[0];
      AlnumsConcat(a[1..], b);
      ConcatAssociates(Alnum(a[0]), Alnums(a[1..]), Alnums(b));
    }
  }

  lemma ConcatAssociates(x: string, y: string, z: string)
    ensures x + (y + z) == (x + y) + z
  {
  }

  lemma {:induction false} NoAlnums(s: string)
    requires forall i :: 0 <= i < |s| ==> s[i] == '-'
    ensures Alnums(s) == ""
  {
    if s != "" {
      NoAlnums(s[1..]);
    }
  }

  /** A slug keeps every letter and digit, in order. */
  lemma SlugKeepsLetters(s: string)
    ensures Alnums(Slug(s)) == Alnums(s)
  {
    var d := Dashed(s, false);
    DashedKeepsLetters(s, false);
    var m := TrimLeftIs(d);
    var t := TrimLeft(d);
    assert d == d[..m] + t;
    AlnumsConcat(d[..m], t);
    NoAlnums(d[..m]);
    var n := TrimRightIs(t);
    assert t == t[..n] + t[n..];
    AlnumsConcat(t[..n], t[n..]);
    NoAlnums(t[n..]);
  }

  function NewDeptId(name: string): DeptId { "dept-" + Slug(name) }

  /** How the department table answers: the lookup, the insert and the second lookup fail. */
  datatype DeptFault = DeptFault(lookupFails: bool, createFails: bool, retryFails: bool)

  /** resolveOIDCDepartment: the departments afterwards, and the id, "" when there is none. Names and ids are unique. */
  function ResolveDept(depts: Depts, name: string, f: DeptFault): (Depts, string) {
    if name == "" then (depts, "")
    else if name in depts && !f.lookupFails then (depts, depts[name])
    else if !f.createFails && name !in depts && NewDeptId(name) !in depts.Values then
      (depts[name := NewDeptId(name)], NewDeptId(name))
    else if name in depts && !f.retryFails then (depts, depts[name])
    else (depts, "")
  }

  /** The claim names a department that is neither found nor created: both lookups fail, or the new id is refused. */
  predicate Unresolvable(depts: Depts, name: string, f: DeptFault) {
    && name != ""
    && if name in depts then f.lookupFails && f.retryFails else f.createFails || NewDeptId(name) in depts.Values
  }

  /** A claim resolves to the id its department then has, unless there is none or it is unresolvable. */
  lemma ResolveDeptIs(depts: Depts, name: string, f: DeptFault)
    ensures var (after, id) := ResolveDept(depts, name, f);
            && (id == "" <==> name == "" || Unresolvable(depts, name, f))
            && (id != "" ==> name in after && after[name] == id)
            && (id != "" && name !in depts ==> id == "dept-" + Slug(name) && after == depts[name := id])
            && (name in depts ==> after == depts)
            && (id == "" ==> after == depts)
            && (forall other :: other in depts ==> other in after && after[other] == depts[other])
  {
  }

  /** Two names with one slug: the second is unresolvable although nothing fails. */
  lemma SlugCollisionIsUnresolvable()
    ensures Unresolvable(map["R&D" := "dept-r-d"], "r d", DeptFault(false, false, false))
  {
    var name := "r d";
    var d := Dashed(name, false);
    assert name[1..] == " d" && name[1..][1..] == "d" && name[1..][1..][1..] == "";
    assert d == "r-d";
    var depts: Depts := map["R&D" := "dept-r-d"];
    assert depts["R&D"] == "dept-r-d" == NewDeptId(name);
    assert |"R&D"| == 3 && "R&D"[0] != name[0];
  }

  // ---- provisioning and re-syncing a user ----

  type Users = map<string, User>

  datatype Outcome = Refused | Unpersisted | Persisted

  /** How the user store answers: the lookup fails, the write fails. */
  datatype StoreFault = StoreFault(getFails: bool, writeFails: bool)

  function Resynced(u: User, c: Claims, dept: string): User {
    u.(role := c.role, email := if c.email != "" then c.email else u.email,
       department := if dept != "" then dept else u.department)
  }

  function Provisioned(sub: string, c: Claims, dept: string): User {
    User(sub, c.username, c.email, c.role, "active", "oidc", dept)
  }

  /** syncOIDCUser: the users afterwards, and how it ended. */
  function SyncUser(users: Users, sub: string, c: Claims, dept: string, f: StoreFault): (Users, Outcome) {
    if sub in users && !f.getFails then
      var u := Resynced(users[sub], c, dept);
      if users[sub].provider != "oidc" then (users, Refused)
      else if u == users[sub] then (users, Persisted)
      else if f.writeFails then (users, Unpersisted)
      else (users[sub := u], Persisted)
    else if f.writeFails || sub in users then (users, Unpersisted)
    else (users[sub := Provisioned(sub, c, dept)], Persisted)
  }

  datatype Store = Store(users: Users, depts: Depts)

  /** The store part of one sync: resolve the claimed department, then sync the user with it. */
  function Synced(st: Store, sub: string, c: Claims, df: DeptFault, f: StoreFault): (Store, Outcome) {
    var (depts, dept) := ResolveDept(st.depts, c.dept, df);
    var (users, outcome) := SyncUser(st.users, sub, c, dept, f);
    (Store(users, depts), outcome)
  }

  /** The record has the claimed role, and the claimed email if there is one. */
  predicate Matches(u: User, c: Claims) {
    u.provider == "oidc" && u.role == c.role && (c.email != "" ==> u.email == c.email)
  }

  /** The record is in the claimed department, if the claim names one. */
  predicate InDept(u: User, depts: Depts, name: string) {
    name != "" ==> name in depts && u.department == depts[name]
  }

  /** A persisted sync leaves a record with the claimed role and email and touches nobody else; any other sync leaves
      the users as they are; refused is exactly a user of another provider. */
  lemma SyncedIs(st: Store, sub: string, c: Claims, df: DeptFault, f: StoreFault)
    ensures var (after, outcome) := Synced(st, sub, c, df, f);
            && (outcome == Persisted ==> sub in after.users && Matches(after.users[sub], c))
            && (outcome != Persisted ==> after.users == st.users)
            && (forall other :: other != sub ==> (other in after.users <==> other in st.users))
            && (forall other :: other != sub && other in st.users ==> after.users[other] == st.users[other])
            && (outcome == Refused <==> !f.getFails && sub in st.users && st.users[sub].provider != "oidc")
  {
  }

  /** How a sync ends, and what it leaves, field by field. A user the store shows: refused under another provider; else
      its role, and its email and department where there are new ones, are brought up to date, and if that changes
      nothing no write is needed. Any other: created as an active OIDC user, unless there is one or the write fails. */
  lemma SyncUserIs(users: Users, sub: string, c: Claims, dept: string, f: StoreFault)
    ensures var (after, outcome) := SyncUser(users, sub, c, dept, f);
            if sub in users && !f.getFails then
              var u := users[sub];
              var v := User(u.id, u.name, if c.email == "" then u.email else c.email, c.role, u.status, u.provider,
                            if dept == "" then u.department else dept);
              && outcome == (if u.provider != "oidc" then Refused else if f.writeFails && v != u then Unpersisted else Persisted)
              && after == (if outcome == Persisted then users[sub := v] else users)
            else
              && outcome == (if sub in users || f.writeFails then Unpersisted else Persisted)
              && after == (if outcome == Persisted then users[sub := User(sub, c.username, c.email, c.role, "active", "oidc", dept)] else users)
  {
  }

  /** The user was in the claimed department already. */
  predicate WasInDept(st: Store, sub: string, name: string) {
    sub in st.users && InDept(st.users[sub], st.depts, name)
  }

  /** Exactly when a persisted sync has stored the claimed department: the claim is empty, it was resolved, or the
      user was in that department already. */
  lemma DepartmentStoredIff(st: Store, sub: string, c: Claims, df: DeptFault, f: StoreFault)
    requires Synced(st, sub, c, df, f).1 == Persisted
    ensures var after := Synced(st, sub, c, df, f).0;
            InDept(after.users[sub], after.depts, c.dept) <==>
            !Unresolvable(st.depts, c.dept, df) || WasInDept(st, sub, c.dept)
  {
    ResolveDeptIs(st.depts, c.dept, df);
  }

  /** The record says what all four claims say; an empty claim says that there is none. */
  predicate SaysAll(u: User, c: Claims, depts: Depts) {
    && u.name == c.username && u.email == c.email && u.role == c.role
    && (if c.dept == "" then u.department == "" else InDept(u, depts, c.dept))
  }

  /** Exactly when a persisted record says what all four claims say. A new user: the department resolved. An existing
      one: the name is right already, nothing is left over where a claim is empty, and the department resolved or
      was right already. */
  lemma PersistedMatchesAllClaimsIff(st: Store, sub: string, c: Claims, df: DeptFault, f: StoreFault)
    requires Synced(st, sub, c, df, f).1 == Persisted
    ensures var after := Synced(st, sub, c, df, f).0;
            SaysAll(after.users[sub], c, after.depts) <==>
            && (!Unresolvable(st.depts, c.dept, df) || WasInDept(st, sub, c.dept))
            && (sub in st.users ==>
                  && st.users[sub].name == c.username
                  && (c.email == "" ==> st.users[sub].email == "")
                  && (c.dept == "" ==> st.users[sub].department == ""))
  {
    ResolveDeptIs(st.depts, c.dept, df);
    DepartmentStoredIff(st, sub, c, df, f);
  }

  /** Each way a persisted record can differ from the claims, at an input: a renamed user, an email that was dropped,
      a department that was left, and a new user whose department is unresolvable. */
  lemma PersistedCanDifferFromClaims(df: DeptFault, f: StoreFault)
    requires !f.getFails && !f.writeFails && df == DeptFault(true, true, true)
    ensures var ann := User("s", "ann", "a@x", "user", "active", "oidc", "dept-eng");
            var st := Store(map["s" := ann], map["eng" := "dept-eng"]);
            && Synced(st, "s", Claims("anna", "a@x", "user", "eng"), df, f) == (st, Persisted)
            && Synced(st, "s", Claims("ann", "", "user", "eng"), df, f) == (st, Persisted)
            && Synced(st, "s", Claims("ann", "a@x", "user", ""), df, f) == (st, Persisted)
    ensures var (after, outcome) := Synced(Store(map[], map[]), "s", Claims("ann", "a@x", "user", "eng"), df, f);
            outcome == Persisted && "s" in after.users && after.users["s"].department == ""
  {
  }

  class UserStore {
    var users: Users
    var depts: Depts

    ghost function View(): Store
      reads this
    {
      Store(users, depts)
    }

    constructor (users: Users, depts: Depts)
      ensures View() == Store(users, depts)
    {
      this.users, this.depts := users, depts;
    }

    method ResolveOidcDepartment(name: string, f: DeptFault) returns (id: string)
      modifies this`depts
      ensures (depts, id) == ResolveDept(old(depts), name, f)
    {
      if name == "" {
        return "";
      }
      if name in depts && !f.lookupFails {
        return depts[name];
      }
      var created := NewDeptId(name);
      if f.createFails || name in depts || created in depts.Values {
        if name in depts && !f.retryFails {
          return depts[name];
        }
        return "";
      }
      depts := depts[name := created];
      return created;
    }

    method SyncOidcUser(sub: string, c: Claims, dept: string, f: StoreFault) returns (outcome: Outcome)
      modifies this`users
      ensures (users, outcome) == SyncUser(old(users), sub, c, dept, f)
    {
      if sub in users && !f.getFails {
        var existing := users[sub];
        if existing.provider != "oidc" {
          return Refused;
        }
        var changed := false;
        if existing.role != c.role {
          existing := existing.(role := c.role);
          changed := true;
        }
        if c.email != "" && existing.email != c.email {
          existing := existing.(email := c.email);
          changed := true;
        }
        if dept != "" && existing.department != dept {
          existing := existing.(department := dept);
          changed := true;
        }
        if changed {
          if f.writeFails {
            return Unpersisted;
          }
          users := users[sub := existing];
        }
        return Persisted;
      }
      if f.writeFails || sub in users {
        return Unpersisted;
      }
      users := users[sub := User(sub, c.username, c.email, c.role, "active", "oidc", dept)];
      return Persisted;
    }
  }

  class OidcSyncer {
    const store: UserStore
    const cache: T.Cache<string>
    const printable: char -> bool

    constructor (store: UserStore, ttl: int, printable: char -> bool)
      ensures this.store == store && this.printable == printable
      ensures fresh(cache) && cache.ttl == ttl && cache.max == MAX_ENTRIES && cache.entries == map[]
    {
      this.store, this.printable := store, printable;
      cache := new T.Cache(ttl, MAX_ENTRIES);
    }

    method SyncClaims(sub: string, c: Claims, df: DeptFault, f: StoreFault, getAt: int, putAt: int) returns (refused: bool, victim: Option<string>)
      modifies store, cache
      ensures var skip := T.Lookup(old(cache.entries), cache.ttl, sub, getAt) == Some(Fingerprint(printable, c));
              var (after, outcome) := Synced(old(store.View()), sub, c, df, f);
              && refused == (!skip && outcome == Refused)
              && store.View() == (if skip then old(store.View()) else after)
              && (if skip || outcome != Persisted then cache.entries == old(cache.entries)
                  else && T.VictimOk(old(cache.entries), cache.ttl, cache.max, sub, victim)
                       && cache.entries == T.Stored(old(cache.entries), cache.ttl, sub, Fingerprint(printable, c), putAt, victim))
    {
      victim := None;
      var fp := Fingerprint(printable, c);
      var last := cache.Get(sub, getAt);
      if last == Some(fp) {
        return false, victim;
      }
      var dept := store.ResolveOidcDepartment(c.dept, df);
      var outcome := store.SyncOidcUser(sub, c, dept, f);
      if outcome == Refused {
        return true, victim;
      }
      if outcome == Persisted {
        victim := cache.Put(sub, fp, putAt);
      }
      return false, victim;
    }
  }

  // ---- all interleavings of syncs, with the store changing underneath ----

  datatype Config = Config(cache: T.Config, printable: char -> bool)

  /** A call's store part: what it found, what it left, how it ended, and how the department table answered. */
  datatype Done = Done(found: Store, left: Store, outcome: Outcome, df: DeptFault)

  datatype World = World(store: Store, cache: T.World<string>, claims: seq<Claims>, done: map<nat, Done>)

  datatype Step =
    | Admin(store: Store)
    | Tick(later: nat)
    | Begin(sub: string, claims: Claims)
    | Get(call: nat)
    | Sync(call: nat, df: DeptFault, fault: StoreFault)
    | Put(call: nat, victim: Option<string>)

  function Apply(c: Config, w: World, s: Step): World {
    match s
    case Admin(store) => w.(store := store)
    case Tick(later) => w.(cache := T.Apply(c.cache, w.cache, T.Tick(later)))
    case Begin(sub, claims) =>
      w.(cache := T.Apply(c.cache, w.cache, T.Begin(sub, Some(Fingerprint(c.printable, claims)))), claims := w.claims + [claims])
    case Get(k) => w.(cache := T.Apply(c.cache, w.cache, T.Get(k)))
    case Sync(k, df, fault) => AfterSync(c, w, k, df, fault)
    case Put(k, victim) => w.(cache := T.Apply(c.cache, w.cache, T.Put(k, victim)))
  }

  /** What a sync brings to the cache: its fingerprint, if it persisted. */
  function Reply(c: Config, claims: Claims, outcome: Outcome): Option<string> {
    if outcome == Persisted then Some(Fingerprint(c.printable, claims)) else None
  }

  /** Past a miss. */
  function AfterSync(c: Config, w: World, k: nat, df: DeptFault, fault: StoreFault): World {
    if k >= |w.cache.calls| || k >= |w.claims| || !w.cache.calls[k].phase.Missed? then w
    else
      var (after, outcome) := Synced(w.store, w.cache.calls[k].key, w.claims[k], df, fault);
      World(after, T.Apply(c.cache, w.cache, T.Fetch(k, Reply(c, w.claims[k], outcome))), w.claims,
            w.done[k := Done(w.store, after, outcome, df)])
  }

  function Run(c: Config, initial: Store, steps: seq<Step>): World {
    if steps == [] then World(initial, T.World(0, map[], map[], []), [], map[])
    else Apply(c, Run(c, initial, steps[..|steps| - 1]), steps[|steps| - 1])
  }

  /** A sync that persisted: the role and email are on record, and the department exactly under its condition. */
  ghost predicate Kept(d: Done, sub: string, c: Claims) {
    && d.outcome == Persisted && sub in d.left.users && Matches(d.left.users[sub], c)
    && (InDept(d.left.users[sub], d.left.depts, c.dept) <==>
          !Unresolvable(d.found.depts, c.dept, d.df) || WasInDept(d.found, sub, c.dept))
  }

  /** A call that holds or stored a fingerprint has persisted its own claims. */
  ghost predicate SyncOk(c: Config, w: World, k: nat)
    requires k < |w.cache.calls| && k < |w.claims|
  {
    var call := w.cache.calls[k];
    && call.want == Some(Fingerprint(c.printable, w.claims[k]))
    && (call.phase.Fetched? || call.phase.Computed? ==> k in w.done && Kept(w.done[k], call.key, w.claims[k]))
  }

  ghost predicate Inv(c: Config, w: World) {
    && T.Inv(c.cache, w.cache) && |w.claims| == |w.cache.calls|
    && (forall k :: 0 <= k < |w.claims| ==> SyncOk(c, w, k))
  }

  /** Lookups, puts and the clock only move phases: a fingerprint is still held or stored by the call that held it. */
  lemma OnlyPhasesMove(c: T.Config, w: T.World<string>, s: T.Step<string>)
    requires s.Get? || s.Put? || s.Tick?
    ensures var v := T.Apply(c, w, s);
            |v.calls| == |w.calls| &&
            forall k :: 0 <= k < |w.calls| ==>
              && v.calls[k].want == w.calls[k].want && v.calls[k].key == w.calls[k].key
              && (v.calls[k].phase.Fetched? || v.calls[k].phase.Computed? ==> w.calls[k].phase.Fetched? || w.calls[k].phase.Computed?)
  {
  }

  lemma CacheStepKeeps(c: Config, w: World, s: T.Step<string>)
    requires Inv(c, w) && (s.Get? || s.Put? || s.Tick?)
    ensures Inv(c, w.(cache := T.Apply(c.cache, w.cache, s)))
  {
    T.StepKeepsInv(c.cache, w.cache, s);
    OnlyPhasesMove(c.cache, w.cache, s);
    var v := w.(cache := T.Apply(c.cache, w.cache, s));
    forall k | 0 <= k < |v.claims| ensures SyncOk(c, v, k) {
      assert SyncOk(c, w, k);
    }
  }

  lemma BeginKeeps(c: Config, w: World, sub: string, claims: Claims)
    requires Inv(c, w)
    ensures Inv(c, Apply(c, w, Begin(sub, claims)))
  {
    var v := Apply(c, w, Begin(sub, claims));
    T.StepKeepsInv(c.cache, w.cache, T.Begin(sub, Some(Fingerprint(c.printable, claims))));
    forall k | 0 <= k < |v.claims| ensures SyncOk(c, v, k) {
      assert k < |w.claims| ==> SyncOk(c, w, k);
    }
  }

  lemma SyncKeeps(c: Config, w: World, k: nat, df: DeptFault, fault: StoreFault)
    requires Inv(c, w) && k < |w.claims| && w.cache.calls[k].phase.Missed?
    ensures Inv(c, AfterSync(c, w, k, df, fault))
  {
    var v := AfterSync(c, w, k, df, fault);
    var sub, claims := w.cache.calls[k].key, w.claims[k];
    var (after, outcome) := Synced(w.store, sub, claims, df, fault);
    T.StepKeepsInv(c.cache, w.cache, T.Fetch(k, Reply(c, claims, outcome)));
    assert SyncOk(c, w, k);
    SyncedIs(w.store, sub, claims, df, fault);
    if outcome == Persisted {
      DepartmentStoredIff(w.store, sub, claims, df, fault);
      assert Kept(v.done[k], sub, claims);
    }
    forall j | 0 <= j < |v.claims| ensures SyncOk(c, v, j) {
      assert SyncOk(c, w, j);
    }
  }

  lemma StepKeepsInv(c: Config, w: World, s: Step)
    requires Inv(c, w)
    ensures Inv(c, Apply(c, w, s))
  {
    match s
    case Admin(_) =>
      forall k | 0 <= k < |w.claims| ensures SyncOk(c, Apply(c, w, s), k) {
        assert SyncOk(c, w, k);
      }
    case Tick(later) => CacheStepKeeps(c, w, T.Tick(later));
    case Begin(sub, claims) => BeginKeeps(c, w, sub, claims);
    case Get(k) => CacheStepKeeps(c, w, T.Get(k));
    case Put(k, victim) => CacheStepKeeps(c, w, T.Put(k, victim));
    case Sync(k, df, fault) =>
      if k < |w.claims| && w.cache.calls[k].phase.Missed? {
        SyncKeeps(c, w, k, df, fault);
      }
  }

  lemma {:induction false} EveryRunIsSafe(c: Config, initial: Store, steps: seq<Step>)
    ensures Inv(c, Run(c, initial, steps))
  {
    if steps != [] {
      EveryRunIsSafe(c, initial, steps[..|steps| - 1]);
      StepKeepsInv(c, Run(c, initial, steps[..|steps| - 1]), steps[|steps| - 1]);
    }
  }

  /** A sync is skipped only if another call for the same subject brought the same four claims, persisted its user, and
      stored that fact at most one TTL ago: a refused or unpersisted sync never lets a later one be skipped. The
      persisted record has the claimed role and email; it has the claimed department exactly if the claim is empty,
      the department could be resolved, or the user was in it already. */
  lemma SkippedSyncsWerePersisted(c: Config, initial: Store, steps: seq<Step>, k: nat)
    requires k < |Run(c, initial, steps).cache.calls| && Run(c, initial, steps).cache.calls[k].phase.Hit?
    ensures var w := Run(c, initial, steps);
            var hit := w.cache.calls[k].phase;
            && |w.claims| == |w.cache.calls| && hit.from < |w.cache.calls| && w.cache.calls[hit.from].phase.Computed?
            && w.cache.calls[hit.from].key == w.cache.calls[k].key
            && w.claims[hit.from] == w.claims[k]
            && hit.from in w.done && Kept(w.done[hit.from], w.cache.calls[k].key, w.claims[k])
            && hit.at <= w.cache.calls[hit.from].phase.putAt + c.cache.ttl
  {
    EveryRunIsSafe(c, initial, steps);
    var w := Run(c, initial, steps);
    var from := w.cache.calls[k].phase.from;
    assert T.CallOk(c.cache, w.cache.calls, w.cache.now, w.cache.calls[k]);
    assert SyncOk(c, w, k) && SyncOk(c, w, from);
    assert T.CallOk(c.cache, w.cache.calls, w.cache.now, w.cache.calls[from]);
    FingerprintInjective(c.printable, w.claims[from], w.claims[k]);
  }

  // ---- a skipped sync whose department was never stored ----

  lemma RunTo(c: Config, initial: Store, before: seq<Step>, s: Step, w: World, v: World)
    requires Run(c, initial, before) == w && Apply(c, w, s) == v
    ensures Run(c, initial, before + [s]) == v
  {
    assert (before + [s])[..|before|] == before;
  }

  /** Call k was skipped on the strength of a persisted sync that left its user outside the claimed department. */
  ghost predicate SkippedWithoutDept(w: World, k: nat) {
    && k < |w.cache.calls| == |w.claims| && w.cache.calls[k].phase.Hit?
    && var from := w.cache.calls[k].phase.from;
    && from in w.done && w.done[from].outcome == Persisted
    && w.cache.calls[k].key in w.done[from].left.users
    && !InDept(w.done[from].left.users[w.cache.calls[k].key], w.done[from].left.depts, w.claims[k].dept)
  }

  /** After one sync of an unresolvable department: the user without it, the fingerprint in the cache. */
  function AfterFirst(c: Config, initial: Store, sub: string, claims: Claims, df: DeptFault): World {
    var fp := Fingerprint(c.printable, claims);
    var left := initial.(users := initial.users[sub := Provisioned(sub, claims, "")]);
    World(left, T.World(0, map[sub := T.Entry(fp, c.cache.ttl)], map[sub := 0], [T.Call(sub, Some(fp), T.Computed(fp, 0, 0))]),
          [claims], map[0 := Done(initial, left, Persisted, df)])
  }

  lemma FirstMisses(c: Config, initial: Store, sub: string, claims: Claims)
    ensures Run(c, initial, [Begin(sub, claims)] + [Get(0)]) ==
            World(initial, T.World(0, map[], map[], [T.Call(sub, Some(Fingerprint(c.printable, claims)), T.Missed)]), [claims], map[])
  {
    var call := T.Call(sub, Some(Fingerprint(c.printable, claims)), T.Start);
    var w1 := World(initial, T.World(0, map[], map[], [call]), [claims], map[]);
    assert [] + [Begin(sub, claims)] == [Begin(sub, claims)];
    RunTo(c, initial, [], Begin(sub, claims), World(initial, T.World(0, map[], map[], []), [], map[]), w1);
    RunTo(c, initial, [Begin(sub, claims)], Get(0), w1, w1.(cache := w1.cache.(calls := [call.(phase := T.Missed)])));
  }

  /** Between the sync and its put. */
  function BeforePut(c: Config, initial: Store, sub: string, claims: Claims, df: DeptFault): World {
    var fp, end := Fingerprint(c.printable, claims), AfterFirst(c, initial, sub, claims, df);
    end.(cache := T.World(0, map[], map[], [T.Call(sub, Some(fp), T.Fetched(fp, 0))]))
  }

  lemma FirstFetches(c: Config, initial: Store, sub: string, claims: Claims, df: DeptFault) returns (steps: seq<Step>)
    requires sub !in initial.users && claims.dept != "" && Unresolvable(initial.depts, claims.dept, df)
    ensures Run(c, initial, steps) == BeforePut(c, initial, sub, claims, df)
  {
    var ok := StoreFault(false, false);
    var end := BeforePut(c, initial, sub, claims, df);
    ResolveDeptIs(initial.depts, claims.dept, df);
    assert Synced(initial, sub, claims, df, ok) == (end.store, Persisted);
    FirstMisses(c, initial, sub, claims);
    steps := [Begin(sub, claims)] + [Get(0)];
    var w := Run(c, initial, steps);
    assert end.cache == T.In(w.cache, 0, T.Fetched(Fingerprint(c.printable, claims), 0));
    RunTo(c, initial, steps, Sync(0, df, ok), w, end);
    steps := steps + [Sync(0, df, ok)];
  }

  lemma FirstSync(c: Config, initial: Store, sub: string, claims: Claims, df: DeptFault) returns (steps: seq<Step>)
    requires c.cache.ttl > 0 && c.cache.max > 0
    requires sub !in initial.users && claims.dept != "" && Unresolvable(initial.depts, claims.dept, df)
    ensures Run(c, initial, steps) == AfterFirst(c, initial, sub, claims, df)
  {
    steps := FirstFetches(c, initial, sub, claims, df);
    var w, end := BeforePut(c, initial, sub, claims, df), AfterFirst(c, initial, sub, claims, df);
    assert T.Stored(map[], c.cache.ttl, sub, Fingerprint(c.printable, claims), 0, None) == end.cache.entries;
    assert Apply(c, w, Put(0, None)).cache.calls == end.cache.calls;
    RunTo(c, initial, steps, Put(0, None), w, end);
    steps := steps + [Put(0, None)];
  }

  /** Whatever the claims, as long as they name a department: an unresolvable one is left out, the sync counts as
      persisted, and the next one is skipped. */
  lemma UnresolvedDepartmentIsSkipped(c: Config, initial: Store, sub: string, claims: Claims, df: DeptFault)
    requires c.cache.ttl > 0 && c.cache.max > 0
    requires sub !in initial.users && claims.dept != "" && Unresolvable(initial.depts, claims.dept, df)
    ensures exists steps :: SkippedWithoutDept(Run(c, initial, steps), 1)
  {
    var steps := FirstSync(c, initial, sub, claims, df);
    var w := AfterFirst(c, initial, sub, claims, df);
    var v := Apply(c, w, Begin(sub, claims));
    RunTo(c, initial, steps, Begin(sub, claims), w, v);
    RunTo(c, initial, steps + [Begin(sub, claims)], Get(1), v, Apply(c, v, Get(1)));
    SecondIsSkipped(c, initial, sub, claims, df);
  }

  lemma SecondIsSkipped(c: Config, initial: Store, sub: string, claims: Claims, df: DeptFault)
    requires c.cache.ttl > 0 && claims.dept != "" && Unresolvable(initial.depts, claims.dept, df)
    ensures SkippedWithoutDept(Apply(c, Apply(c, AfterFirst(c, initial, sub, claims, df), Begin(sub, claims)), Get(1)), 1)
  {
    var v := Apply(c, AfterFirst(c, initial, sub, claims, df), Begin(sub, claims));
    assert Apply(c, v, Get(1)).cache.calls[1].phase == T.Hit(Fingerprint(c.printable, claims), 0, 0);
  }
}
