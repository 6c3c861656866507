/** The agent's line-oriented circular log buffer (internal/runneragent/ringbuffer.go). */
module RingBuffer {

  const MAX_PARTIAL := 65536

  /** The index of the first newline, or |s|. */
  function FirstNewline(s: string): (i: nat)
    ensures i <= |s|
    ensures i < |s| ==> s[i] == '\n'
    ensures forall j :: 0 <= j < i ==> s[j] != '\n'
  {
    if s == [] || s[0] == '\n' then 0 else 1 + FirstNewline(s[1..])
  }

  /** One more byte: a newline completes the line, anything else extends the rest. */
  function Feed(st: (seq<string>, string), c: char): (seq<string>, string) {
    if c == '\n' then (st.0 + [st.1], "") else (st.0, st.1 + [c])
  }

  /** The newline-terminated lines of s, and what follows the last newline. */
  function Split(s: string): (r: (seq<string>, string))
    ensures '\n' !in r.1
  {
    if s == [] then ([], "") else Feed(Split(s[..|s| - 1]), s[|s| - 1])
  }

  /** Everything captured so far: all committed lines, oldest first, and the pending partial line. */
  datatype Stream = Stream(lines: seq<string>, partial: string)

  const EMPTY := Stream([], "")

  /** One Write: complete lines are committed, and an over-long partial line is committed as it is. */
  function Write(s: Stream, p: string): Stream {
    var (lines, rest) := Split(s.partial + p);
    if |rest| > MAX_PARTIAL then Stream(s.lines + lines + [rest], "") else Stream(s.lines + lines, rest)
  }

  function WriteAll(s: Stream, ps: seq<string>): Stream {
    if ps == [] then s else Write(WriteAll(s, ps[..|ps| - 1]), ps[|ps| - 1])
  }

  function Concat(ps: seq<string>): string {
    if ps == [] then "" else Concat(ps[..|ps| - 1]) + ps[|ps| - 1]
  }

  lemma SplitSnoc(s: string, c: char)
    ensures Split(s + [c]) == Feed(Split(s), c)
  {
    assert (s + [c])[..|s|] == s;
  }

  lemma {:induction false} SplitNoNewline(s: string)
    requires '\n' !in s
    ensures Split(s) == ([], s)
  {
    if s != [] {
      var front, c := s[..|s| - 1], s[|s| - 1];
      assert c in s && s == front + [c];
      SplitNoNewline(front);
      assert Split(s) == Feed(([], front), c);
    }
  }

  /** Lines with their newlines, one after another. */
  function Joined(lines: seq<string>): string {
    if lines == [] then "" else Joined(lines[..|lines| - 1]) + lines[|lines| - 1] + ['\n']
  }

  lemma JoinedSnoc(lines: seq<string>, line: string)
    ensures Joined(lines + [line]) == Joined(lines) + line + ['\n']
  {
    assert (lines + [line])[..|lines|] == lines;
  }

  lemma FeedRejoins(st: (seq<string>, string), c: char)
    ensures Joined(Feed(st, c).0) + Feed(st, c).1 == Joined(st.0) + st.1 + [c]
  {
    if c == '\n' {
      JoinedSnoc(st.0, st.1);
      assert Joined(st.0 + [st.1]) + "" == Joined(st.0 + [st.1]);
    } else {
      assert Joined(st.0) + (st.1 + [c]) == Joined(st.0) + st.1 + [c];
    }
  }

  /** Splitting loses and adds nothing: the lines with their newlines and the rest are the text, and no line holds one. */
  lemma {:induction false} SplitRejoins(s: string)
    ensures Joined(Split(s).0) + Split(s).1 == s
    ensures forall line :: line in Split(s).0 ==> '\n' !in line
  {
    if s != "" {
      var front, c := s[..|s| - 1], s[|s| - 1];
      SplitRejoins(front);
      FeedRejoins(Split(front), c);
      assert s == front + [c];
    }
  }

  /** Splitting in two goes: the remainder of the first part carries over. */
  lemma {:induction false} SplitConcat(a: string, b: string)
    ensures Split(a + b) == (Split(a).0 + Split(Split(a).1 + b).0, Split(Split(a).1 + b).1)
    decreases |b|
  {
    var r := Split(a).1;
    if b == [] {
      assert a + b == a && r + b == r;
      SplitNoNewline(r);
      assert Split(a).0 + [] == Split(a).0;
    } else {
      var front, c := b[..|b| - 1], b[|b| - 1];
      SplitConcat(a, front);
      assert a + b == (a + front) + [c] && r + b == (r + front) + [c];
      SplitSnoc(a + front, c);
      SplitSnoc(r + front, c);
      var t := Split(r + front);
      assert Split(a).0 + (t.0 + [t.1]) == (Split(a).0 + t.0) + [t.1];
    }
  }

  lemma SplitLine(line: string, rest: string)
    requires '\n' !in line
    ensures Split(line + ['\n'] + rest) == ([line] + Split(rest).0, Split(rest).1)
  {
    SplitNoNewline(line);
    SplitSnoc(line, '\n');
    SplitConcat(line + ['\n'], rest);
    assert "" + rest == rest;
    assert [] + [line] == [line];
  }

  /** A newline-free text followed by more: it is the beginning of the first line, if there is one. */
  lemma {:induction false} SplitAfterPartial(r: string, p: string)
    requires '\n' !in r
    ensures var s := Split(r + p);
            if s.0 == [] then s.1 == r + p else r <= s.0[0]
    decreases |p|
  {
    if p == [] {
      assert r + p == r;
      SplitNoNewline(r);
    } else {
      var front, c := p[..|p| - 1], p[|p| - 1];
      SplitAfterPartial(r, front);
      assert r + p == (r + front) + [c];
      SplitSnoc(r + front, c);
    }
  }

  /** No newline-terminated segment exceeds the limit, and the trailing one exceeds it by at most one. */
  ghost predicate Fits(b: string) {
    && (forall i :: 0 <= i < |Split(b).0| ==> |Split(b).0[i]| <= 65536)
    && |Split(b).1| <= 65537
  }

  /** Writing b in one go. */
  function Once(b: string): Stream { Write(EMPTY, b) }

  lemma OnceIs(b: string)
    ensures Once(b) == if |Split(b).1| > MAX_PARTIAL then Stream(Split(b).0 + [Split(b).1], "") else Stream(Split(b).0, Split(b).1)
  {
    assert "" + b == b;
    assert [] + Split(b).0 == Split(b).0;
  }

  /** A proper prefix of a fitting text fits strictly. */
  lemma PrefixFits(a: string, p: string)
    requires Fits(a + p) && p != ""
    ensures Fits(a) && |Split(a).1| <= MAX_PARTIAL
  {
    SplitConcat(a, p);
    var (ls, r) := Split(a);
    var t := Split(r + p);
    SplitAfterPartial(r, p);
    assert Split(a + p).0 == ls + t.0;
    forall i | 0 <= i < |ls| ensures |ls[i]| <= MAX_PARTIAL {
      assert (ls + t.0)[i] == ls[i];
    }
    assert t.0 != [] ==> (ls + t.0)[|ls|] == t.0[0];
  }

  lemma WriteStep(a: string, p: string)
    requires |Split(a).1| <= MAX_PARTIAL
    ensures Write(Once(a), p) == Once(a + p)
  {
    OnceIs(a);
    OnceIs(a + p);
    SplitConcat(a, p);
  }

  /** What a Write does, given how its bytes split. */
  lemma WriteIs(s: Stream, p: string, lines: seq<string>, rest: string)
    requires Split(s.partial + p) == (lines, rest)
    ensures Write(s, p) == if |rest| > MAX_PARTIAL then Stream(s.lines + lines + [rest], "") else Stream(s.lines + lines, rest)
  {
  }

  /** Writing nothing changes nothing. */
  lemma WriteNothing(b: string)
    ensures Write(Once(b), "") == Once(b)
  {
    OnceIs(b);
    var s := Once(b);
    assert '\n' !in s.partial && |s.partial| <= MAX_PARTIAL;
    SplitNoNewline(s.partial);
    assert s.partial + "" == s.partial;
    WriteIs(s, "", [], s.partial);
    assert s.lines + [] == s.lines;
  }

  lemma {:induction false} FittingIsIndependent(ps: seq<string>)
    requires Fits(Concat(ps))
    ensures WriteAll(EMPTY, ps) == Once(Concat(ps))
  {
    if ps == [] {
      SplitNoNewline("");
      OnceIs("");
    } else {
      var front, p := ps[..|ps| - 1], ps[|ps| - 1];
      if p == "" {
        assert Concat(ps) == Concat(front);
        FittingIsIndependent(front);
        WriteNothing(Concat(front));
      } else {
        PrefixFits(Concat(front), p);
        FittingIsIndependent(front);
        WriteStep(Concat(front), p);
      }
    }
  }

  function Last<T>(n: nat, s: seq<T>): seq<T> { if |s| <= n then s else s[|s| - n..] }

  /** What a reader may see: the newest `capacity` lines and the pending partial one. */
  function Visible(s: Stream, capacity: nat): seq<string> {
    Last(capacity, s.lines) + (if s.partial == "" then [] else [s.partial])
  }

  /** snapshot(n): the last n of what is visible, everything when n <= 0. */
  function Snapshot(s: Stream, capacity: nat, n: int): seq<string> {
    if n <= 0 then Visible(s, capacity) else Last(n, Visible(s, capacity))
  }

  /** Every snapshot of every buffer depends on the bytes alone. */
  ghost predicate SplitIndependent(b: string) {
    forall ps: seq<string>, capacity: nat, n: int ::
      Concat(ps) == b ==> Snapshot(WriteAll(EMPTY, ps), capacity, n) == Snapshot(Once(b), capacity, n)
  }

  /** Everything ever captured, as the snapshot of a buffer that is large enough. */
  function All(s: Stream): (r: seq<string>)
    ensures forall capacity: nat :: |s.lines| <= capacity ==> Snapshot(s, capacity, 0) == r
  {
    s.lines + (if s.partial == "" then [] else [s.partial])
  }

  lemma TwoWrites(a: string, p: string)
    ensures Concat([a, p]) == a + p
    ensures WriteAll(EMPTY, [a, p]) == Write(Once(a), p)
  {
    assert [a, p][..1] == [a] && [a][..0] == [];
    assert Concat([a]) == "" + a == a;
    assert WriteAll(EMPTY, [a]) == Once(a);
  }

  lemma CutInside(u: string, r: string, k: nat)
    requires k <= |r|
    ensures (u + r[..k]) + r[k..] == u + r
  {
  }

  /** An over-long trailing segment: writing it in two pieces commits the first piece on its own. */
  lemma LongTailDepends(b: string) returns (a: string, p: string)
    requires |Split(b).1| > MAX_PARTIAL + 1
    ensures a + p == b && All(Write(Once(a), p)) != All(Once(b))
  {
    var (ls, r) := Split(b);
    var u := SplitParts(b);
    var head := r[..MAX_PARTIAL + 1];
    a, p := u + head, r[MAX_PARTIAL + 1..];
    CutInside(u, r, MAX_PARTIAL + 1);
    LineIsRest(u, head);
    OnceIs(a);
    OnceIs(b);
    CommittedStays(Once(a), p);
    LastDiffers(ls, head, r, All(Write(Once(a), p)));
  }

  lemma LastDiffers(ls: seq<string>, head: string, r: string, all: seq<string>)
    requires ls + [head] <= all && |head| < |r|
    ensures all != ls + [r]
  {
    assert (ls + [head])[|ls|] == head == all[|ls|] && (ls + [r])[|ls|] == r;
  }

  /** What is committed stays in front. */
  lemma CommittedStays(s: Stream, p: string)
    ensures s.lines <= All(Write(s, p))
  {
  }

  /** The part of b up to and including its last newline splits into the same lines and no rest. */
  lemma {:induction false} SplitParts(b: string) returns (u: string)
    ensures b == u + Split(b).1 && Split(u) == (Split(b).0, "")
  {
    if b == [] {
      u := "";
    } else if b[|b| - 1] == '\n' {
      u := b;
    } else {
      u := SplitParts(b[..|b| - 1]);
      assert b == b[..|b| - 1] + [b[|b| - 1]];
    }
  }

  /** The texts before and after line j of b. */
  lemma {:induction false} SplitAtLine(b: string, j: nat) returns (u: string, v: string)
    requires j < |Split(b).0|
    ensures b == u + Split(b).0[j] + (['\n'] + v)
    ensures '\n' !in Split(b).0[j]
    ensures Split(u) == (Split(b).0[..j], "")
    ensures Split(v) == (Split(b).0[j + 1..], Split(b).1)
  {
    var front, c := b[..|b| - 1], b[|b| - 1];
    var ls := Split(front).0;
    assert b == front + [c];
    if j < |ls| {
      var v';
      u, v' := SplitAtLine(front, j);
      v := v' + [c];
      SplitSnoc(v', c);
      assert b == u + ls[j] + (['\n'] + v);
      assert Split(b).0[..j] == ls[..j];
      assert c == '\n' ==> Split(b).0[j + 1..] == ls[j + 1..] + [Split(front).1];
    } else {
      u := SplitParts(front);
      v := "";
      assert Split(b).0 == ls + [Split(front).1];
      assert ['\n'] + v == [c];
    }
  }

  /** An over-long terminated segment: writing it without its newline first commits an extra line. */
  lemma LongLineDepends(b: string, j: nat) returns (a: string, p: string)
    requires j < |Split(b).0| && |Split(b).0[j]| > MAX_PARTIAL
    ensures a + p == b && All(Write(Once(a), p)) != All(Once(b))
  {
    var u, v := SplitAtLine(b, j);
    var (ls, r) := Split(b);
    a, p := u + ls[j], ['\n'] + v;
    LineIsRest(u, ls[j]);
    OnceIs(a);
    assert Once(a) == Stream(ls[..j] + [ls[j]], "");
    SplitLine("", v);
    assert "" + ['\n'] + v == p && "" + p == p;
    WriteIs(Once(a), p, [""] + ls[j + 1..], r);
    OnceIs(b);
    assert |All(Write(Once(a), p))| == |All(Once(b))| + 1;
  }

  lemma LineIsRest(u: string, line: string)
    requires '\n' !in line && Split(u).1 == ""
    ensures Split(u + line) == (Split(u).0, line)
  {
    SplitConcat(u, line);
    assert "" + line == line;
    SplitNoNewline(line);
    assert Split(u).0 + [] == Split(u).0;
  }

  /** Exactly when what readers see depends only on the bytes, not on how they were split into writes. */
  lemma SplitIndependentIff(b: string)
    ensures SplitIndependent(b) <==> Fits(b)
  {
    if Fits(b) {
      forall ps: seq<string> | Concat(ps) == b ensures WriteAll(EMPTY, ps) == Once(b) {
        FittingIsIndependent(ps);
      }
    } else {
      var a, p;
      if |Split(b).1| > MAX_PARTIAL + 1 {
        a, p := LongTailDepends(b);
      } else {
        var j :| 0 <= j < |Split(b).0| && |Split(b).0[j]| > MAX_PARTIAL;
        a, p := LongLineDepends(b, j);
      }
      TwoWrites(a, p);
      var s, t := WriteAll(EMPTY, [a, p]), Once(b);
      var capacity := |s.lines| + |t.lines|;
      assert Snapshot(s, capacity, 0) == All(s) && Snapshot(t, capacity, 0) == All(t);
    }
  }

  // ---- the circular buffer ----

  lemma FirstLine(s: string, i: nat)
    requires i < |s| && s[i] == '\n' && forall j :: 0 <= j < i ==> s[j] != '\n'
    ensures Split(s) == ([s[..i]] + Split(s[i + 1..]).0, Split(s[i + 1..]).1)
  {
    var line, rest := s[..i], s[i + 1..];
    assert s[..i + 1] == line + ['\n'] && s == s[..i + 1] + rest;
    SplitLine(line, rest);
  }

  /** The slot of the i-th oldest line. */
  function Slot(start: nat, i: nat, capacity: nat): nat {
    if start + i < capacity then start + i else if start + i < 2 * capacity then start + i - capacity else 0
  }

  /** x modulo the capacity, for an index at most once around. */
  method Wrap(x: nat, capacity: nat) returns (slot: nat)
    requires x < 2 * capacity
    ensures slot == if x < capacity then x else x - capacity
  {
    slot := x % capacity;
  }

  /** What a snapshot is: the newest lines that fit, then the pending partial; the last n of these, or all. */
  lemma SnapshotIs(s: Stream, capacity: nat, n: int)
    ensures var kept := if |s.lines| <= capacity then s.lines else s.lines[|s.lines| - capacity..];
            var all := if s.partial == "" then kept else kept + [s.partial];
            Snapshot(s, capacity, n) == if 0 < n < |all| then all[|all| - n..] else all
  {
    assert Last(capacity, s.lines) + [] == Last(capacity, s.lines);
  }

  /** The newest `take` entries: the partial line, if any, preceded by the newest lines. */
  function Tail(s: Stream, take: nat): seq<string>
    requires take <= |s.lines| + (if s.partial == "" then 0 else 1)
  {
    if s.partial == "" then s.lines[|s.lines| - take..]
    else if take == 0 then []
    else s.lines[|s.lines| - (take - 1)..] + [s.partial]
  }

  lemma SnapshotIsTail(s: Stream, capacity: nat, n: int, take: nat)
    requires var total := (if |s.lines| < capacity then |s.lines| else capacity) + (if s.partial == "" then 0 else 1);
             take == if 0 < n < total then n else total
    ensures Snapshot(s, capacity, n) == Tail(s, take)
  {
    var v := Visible(s, capacity);
    assert Snapshot(s, capacity, n) == v[|v| - take..];
  }

  class LogBuffer {
    const capacity: nat
    const buf: array<string>
    var start: nat
    var count: nat
    var partial: string
    ghost var lines: seq<string>

    ghost predicate Valid()
      reads this, buf
    {
      && capacity >= 1 && buf.Length == capacity && start < capacity && count <= capacity
      && count == (if |lines| < capacity then |lines| else capacity)
      && (forall i: nat :: i < count ==> buf[Slot(start, i, capacity)] == lines[|lines| - count + i])
      && '\n' !in partial
    }

    ghost function View(): Stream
      reads this
    {
      Stream(lines, partial)
    }

    constructor (requested: int)
      ensures Valid() && View() == EMPTY && capacity == (if requested < 1 then 1 else requested)
      ensures fresh(buf)
    {
      var c: nat := if requested < 1 then 1 else requested;
      capacity := c;
      buf := new string[c](_ => "");
      start, count, partial, lines := 0, 0, "", [];
    }

    /** Evicts the oldest line in O(1) when full. */
    method AppendLine(line: string)
      requires Valid()
      modifies this`start, this`count, this`lines, buf
      ensures Valid() && lines == old(lines) + [line]
    {
      var end := Wrap(start + count, capacity);
      buf[end] := line;
      lines := lines + [line];
      if count < capacity {
        count := count + 1;
        return;
      }
      start := Wrap(start + 1, capacity);
      forall i: nat | i < count ensures buf[Slot(start, i, capacity)] == lines[|lines| - count + i] {
        if i < count - 1 {
          assert Slot(start, i, capacity) == Slot(old(start), i + 1, capacity);
        }
      }
    }

    method WriteBytes(p: string)
      requires Valid()
      modifies this, buf
      ensures Valid() && View() == Write(old(View()), p)
    {
      ghost var (all, rest) := Split(partial + p);
      var pending := partial + p;
      partial := "";
      while true
        invariant Valid() && partial == ""
        invariant lines + Split(pending).0 == old(lines) + all
        invariant Split(pending).1 == rest
        decreases |pending|
      {
        var i := FirstNewline(pending);
        if i == |pending| {
          SplitNoNewline(pending);
          break;
        }
        FirstLine(pending, i);
        AppendLine(pending[..i]);
        pending := pending[i + 1..];
      }
      assert lines == old(lines) + all && pending == rest;
      if |pending| > MAX_PARTIAL {
        AppendLine(pending);
        pending := "";
      }
      partial := pending;
    }

    /** Copies the newest k lines out of the circle. */
    method NewestLines(k: nat) returns (out: seq<string>)
      requires Valid() && k <= count
      ensures out == lines[|lines| - k..]
    {
      var skip := count - k;
      out := [];
      for i := 0 to k
        invariant |out| == i
        invariant forall j :: 0 <= j < i ==> out[j] == lines[|lines| - k + j]
      {
        var slot := Wrap(start + skip + i, capacity);
        assert slot == Slot(start, skip + i, capacity);
        out := out + [buf[slot]];
      }
    }

    /** How many entries a snapshot takes. */
    method TakeCount(n: int) returns (take: nat)
      requires Valid()
      ensures var total := count + (if partial == "" then 0 else 1); take == if 0 < n < total then n else total
    {
      take := count;
      if |partial| > 0 {
        take := take + 1;
      }
      if n > 0 && n < take {
        take := n;
      }
    }

    method Collect(take: nat) returns (out: seq<string>)
      requires Valid() && take <= count + (if partial == "" then 0 else 1)
      ensures out == Tail(View(), take)
    {
      if take == 0 {
        return [];
      }
      if |partial| > 0 {
        out := NewestLines(take - 1);
        out := out + [partial];
      } else {
        out := NewestLines(take);
      }
    }

    method TakeSnapshot(n: int) returns (out: seq<string>)
      requires Valid()
      ensures out == Snapshot(View(), capacity, n)
    {
      var take := TakeCount(n);
      SnapshotIsTail(View(), capacity, n, take);
      out := Collect(take);
    }

    method Reset()
      requires Valid()
      modifies this, buf
      ensures Valid() && View() == EMPTY
    {
      for i := 0 to buf.Length
      {
        buf[i] := "";
      }
      start, count, partial, lines := 0, 0, "", [];
    }
  }
}
