/** The per-subject claim fingerprint of the OIDC sync: four fields quoted with %q and joined by a separator
    (internal/auth/identity.go). */
module ClaimFingerprint {
  import opened Wrappers

  function HexDigit(n: nat): (d: char)
    requires n < 16
  {
    "0123456789abcdef"[n]
  }

  /** The last `width` hexadecimal digits of n. */
  function Hex(n: nat, width: nat): (s: string)
    ensures |s| == width
  {
    if width == 0 then "" else Hex(n / 16, width - 1) + [HexDigit(n % 16)]
  }

  function Pow16(n: nat): nat { if n == 0 then 1 else 16 * Pow16(n - 1) }

  lemma {:induction false} HexInjective(a: nat, b: nat, width: nat)
    requires a < Pow16(width) && b < Pow16(width) && Hex(a, width) == Hex(b, width)
    ensures a == b
  {
    if width > 0 {
      var x, y := Hex(a / 16, width - 1), Hex(b / 16, width - 1);
      assert Hex(a, width)[..width - 1] == x && Hex(b, width)[..width - 1] == y;
      assert Hex(a, width)[width - 1] == HexDigit(a % 16) && Hex(b, width)[width - 1] == HexDigit(b % 16);
      HexInjective(a / 16, b / 16, width - 1);
    }
  }

  /** The one-letter escapes of %q. */
  function Letter(c: char): (l: Option<char>)
    ensures l.Some? ==> l.value in {'a', 'b', 'f', 'n', 'r', 't', 'v'}
  {
    if c == '\U{7}' then Some('a') else if c == '\U{8}' then Some('b') else if c == '\U{C}' then Some('f')
    else if c == '\U{A}' then Some('n') else if c == '\U{D}' then Some('r') else if c == '\U{9}' then Some('t')
    else if c == '\U{B}' then Some('v') else None
  }

  /** One character inside a field quoted with %q: `printable` is the Unicode table of printable characters. */
  function Escaped(printable: char -> bool, c: char): string {
    if c == '"' || c == '\\' then ['\\', c]
    else if printable(c) then [c]
    else if Letter(c).Some? then ['\\', Letter(c).value]
    else if c < ' ' || c == '\U{7F}' then ['\\', 'x'] + Hex(c as int, 2)
    else if c as int < 0x10000 then ['\\', 'u'] + Hex(c as int, 4)
    else ['\\', 'U'] + Hex(c as int, 8)
  }

  function Inside(printable: char -> bool, s: string): string {
    if s == "" then "" else Escaped(printable, s[0]) + Inside(printable, s[1..])
  }

  function Quoted(printable: char -> bool, s: string): string { ['"'] + Inside(printable, s) + ['"'] }

  /** A quoted field, the separator, and what follows. */
  function Field(printable: char -> bool, s: string, rest: string): string { Quoted(printable, s) + ("|" + rest) }

  datatype Claims = Claims(username: string, email: string, role: string, dept: string)

  function Fingerprint(printable: char -> bool, c: Claims): string {
    Field(printable, c.username, Field(printable, c.email, Field(printable, c.role, Quoted(printable, c.dept))))
  }

  /** How many digits follow the escape letter. */
  function Digits(c: char): nat {
    if c < ' ' || c == '\U{7F}' then 2 else if c as int < 0x10000 then 4 else 8
  }

  lemma CodePointFits(c: char)
    ensures c as int < Pow16(Digits(c))
  {
    assert Pow16(2) == 256;
    assert Pow16(4) == 256 * Pow16(2);
    assert Pow16(8) == 0x10000 * Pow16(4);
  }

  /** Equal beginnings of the same kind mean equal length. */
  lemma EscapedLength(p: char -> bool, c: char, d: char)
    requires Escaped(p, c)[0] == Escaped(p, d)[0]
    requires |Escaped(p, c)| > 1 && |Escaped(p, d)| > 1 ==> Escaped(p, c)[1] == Escaped(p, d)[1]
    ensures |Escaped(p, c)| == |Escaped(p, d)|
  {
  }

  lemma EscapedInjective(p: char -> bool, c: char, d: char)
    requires Escaped(p, c) == Escaped(p, d)
    ensures c == d
  {
    var e := Escaped(p, c);
    if |e| > 2 {
      CodePointFits(c);
      CodePointFits(d);
      assert e[2..] == Hex(c as int, |e| - 2) && e[2..] == Hex(d as int, |e| - 2);
      HexInjective(c as int, d as int, |e| - 2);
    }
  }

  /** The escapes form a prefix code. */
  lemma EscapedEnds(p: char -> bool, c: char, x: string, d: char, y: string)
    requires Escaped(p, c) + x == Escaped(p, d) + y
    ensures c == d && x == y
  {
    var a, b := Escaped(p, c), Escaped(p, d);
    var l, r := a + x, b + y;
    assert l[0] == a[0] && r[0] == b[0];
    assert |a| > 1 ==> l[1] == a[1];
    assert |b| > 1 ==> r[1] == b[1];
    EscapedLength(p, c, d);
    assert a == l[..|a|] && b == r[..|b|] && x == l[|a|..] && y == r[|b|..];
    EscapedInjective(p, c, d);
  }

  lemma InsideStarts(p: char -> bool, s: string, x: string)
    ensures (Inside(p, s) + ['"'] + x)[0] == '"' <==> s == ""
  {
    if s != "" {
      assert (Inside(p, s) + ['"'] + x)[0] == Escaped(p, s[0])[0];
    }
  }

  lemma Regroup(a: string, b: string, x: string)
    ensures (a + b) + ['"'] + x == a + (b + ['"'] + x)
  {
  }

  /** A quoted field ends where it ends, whatever follows. */
  lemma {:induction false} InsideEnds(p: char -> bool, s: string, x: string, t: string, y: string)
    requires Inside(p, s) + ['"'] + x == Inside(p, t) + ['"'] + y
    ensures s == t && x == y
  {
    var l, r := Inside(p, s) + ['"'] + x, Inside(p, t) + ['"'] + y;
    InsideStarts(p, s, x);
    InsideStarts(p, t, y);
    if s == "" {
      assert l[1..] == x && r[1..] == y;
    } else {
      var m, n := Inside(p, s[1..]) + ['"'] + x, Inside(p, t[1..]) + ['"'] + y;
      Regroup(Escaped(p, s[0]), Inside(p, s[1..]), x);
      Regroup(Escaped(p, t[0]), Inside(p, t[1..]), y);
      EscapedEnds(p, s[0], m, t[0], n);
      InsideEnds(p, s[1..], x, t[1..], y);
      assert s == [s[0]] + s[1..] && t == [t[0]] + t[1..];
    }
  }

  lemma QuotedEnds(p: char -> bool, s: string, x: string, t: string, y: string)
    requires Quoted(p, s) + x == Quoted(p, t) + y
    ensures s == t && x == y
  {
    assert (Quoted(p, s) + x)[1..] == Inside(p, s) + ['"'] + x;
    assert (Quoted(p, t) + y)[1..] == Inside(p, t) + ['"'] + y;
    InsideEnds(p, s, x, t, y);
  }

  lemma FieldEnds(p: char -> bool, s: string, x: string, t: string, y: string)
    requires Field(p, s, x) == Field(p, t, y)
    ensures s == t && x == y
  {
    QuotedEnds(p, s, "|" + x, t, "|" + y);
    assert ("|" + x)[1..] == x && ("|" + y)[1..] == y;
  }

  /** The fingerprint is unambiguous, whatever the claims contain. */
  lemma FingerprintInjective(p: char -> bool, a: Claims, b: Claims)
    requires Fingerprint(p, a) == Fingerprint(p, b)
    ensures a == b
  {
    var a2, b2 := Field(p, a.role, Quoted(p, a.dept)), Field(p, b.role, Quoted(p, b.dept));
    FieldEnds(p, a.username, Field(p, a.email, a2), b.username, Field(p, b.email, b2));
    FieldEnds(p, a.email, a2, b.email, b2);
    FieldEnds(p, a.role, Quoted(p, a.dept), b.role, Quoted(p, b.dept));
    assert Quoted(p, a.dept) + "" == Quoted(p, a.dept) && Quoted(p, b.dept) + "" == Quoted(p, b.dept);
    QuotedEnds(p, a.dept, "", b.dept, "");
  }
}
