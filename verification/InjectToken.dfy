/** The identity of one source injection: what is delivered, and where to. */
module InjectToken {
  import opened Text

  /** internal/controller/asyncinject.go, injectToken: "%s|%d|%s". */
  function Token(target: string, generation: int, tarballRef: string): string {
    target + "|" + Decimal(generation) + "|" + tarballRef
  }

  lemma DecimalHasNoPipe(n: int)
    ensures '|' !in Decimal(n)
  {
    forall i | 0 <= i < |Decimal(n)| ensures Decimal(n)[i] != '|' {
      assert IsDigit(Decimal(n)[i]) || Decimal(n)[i] == '-';
    }
  }

  /** Targets without '|' make the token a faithful key: equal tokens mean the same delivery. */
  lemma TokenInjective(t: string, g: int, r: string, t': string, g': int, r': string)
    requires '|' !in t && '|' !in t'
    requires Token(t, g, r) == Token(t', g', r')
    ensures t == t' && g == g' && r == r'
  {
    var x, y := Decimal(g) + "|" + r, Decimal(g') + "|" + r';
    assert Token(t, g, r) == t + ['|'] + x;
    assert Token(t', g', r') == t' + ['|'] + y;
    SplitAtFirst('|', t, x, t', y);
    DecimalHasNoPipe(g);
    DecimalHasNoPipe(g');
    SplitAtFirst('|', Decimal(g), r, Decimal(g'), r');
    DecimalInjective(g, g');
  }

  /** t' is t followed by a rendered generation and, possibly, more text after another '|'. */
  ghost predicate Extends(t: string, t': string) {
    exists g: int :: t + "|" + Decimal(g) == t' || t + "|" + Decimal(g) + "|" <= t'
  }

  /** Two deliveries that differ but share a token. */
  ghost predicate Clash(t: string, g: int, r: string, t': string, g': int, r': string) {
    Token(t, g, r) == Token(t', g', r') && !(t == t' && g == g' && r == r')
  }

  ghost predicate CanClash(t: string, t': string) {
    exists g, r, g', r' :: Clash(t, g, r, t', g', r')
  }

  /** Exactly which pairs of targets can be confused, for arbitrary target texts. */
  lemma ClashIffExtends(t: string, t': string)
    ensures CanClash(t, t') <==> Extends(t, t') || Extends(t', t)
  {
    if CanClash(t, t') {
      var g, r, g', r' :| Clash(t, g, r, t', g', r');
      if |t| < |t'| {
        ClashExtends(t, g, r, t', g', r');
      } else if |t'| < |t| {
        ClashExtends(t', g', r', t, g, r);
      } else {
        var w := Token(t, g, r);
        assert w[..|t|] == t && w[..|t'|] == t';
        SameTargetNoClash(t, g, r, g', r');
      }
    }
    if Extends(t, t') {
      ExtendsClashes(t, t');
    }
    if Extends(t', t) {
      ExtendsClashes(t', t);
      var g, r, g', r' :| Clash(t', g, r, t, g', r');
      assert Clash(t, g', r', t', g, r);
    }
  }

  lemma SameTargetNoClash(t: string, g: int, r: string, g': int, r': string)
    requires Token(t, g, r) == Token(t, g', r')
    ensures g == g' && r == r'
  {
    var w := Token(t, g, r);
    assert w[|t| + 1..] == Decimal(g) + ['|'] + r;
    assert w[|t| + 1..] == Decimal(g') + ['|'] + r';
    DecimalHasNoPipe(g);
    DecimalHasNoPipe(g');
    SplitAtFirst('|', Decimal(g), r, Decimal(g'), r');
    DecimalInjective(g, g');
  }

  lemma ClashExtends(t: string, g: int, r: string, t': string, g': int, r': string)
    requires |t| < |t'| && Token(t, g, r) == Token(t', g', r')
    ensures Extends(t, t')
  {
    var w := Token(t, g, r);
    var head := t + "|" + Decimal(g);
    assert w == head + "|" + r;
    assert w[..|t'|] == t' && w[|t'|] == '|';
    DecimalHasNoPipe(g);
    assert forall i | |t| + 1 <= i < |head| :: w[i] == Decimal(g)[i - |t| - 1];
    assert |head| <= |t'|;
    if |t'| == |head| {
      assert head == t';
    } else if |t'| > |head| {
      assert w[..|head| + 1] == head + "|";
      assert head + "|" <= t';
    }
  }

  lemma Regroup(head: string, x: string, d: string)
    ensures head + "|" + d + "|" + "" == head + "|" + (d + "|")
    ensures (head + "|" + x) + "|" + d + "|" + "" == head + "|" + (x + "|" + d + "|")
  {
  }

  /** A target that is another one's rendered head. */
  lemma HeadClashes(t: string, g: int, t': string)
    requires t' == t + "|" + Decimal(g)
    ensures CanClash(t, t')
  {
    Regroup(t', "", Decimal(0));
    assert Clash(t, g, Decimal(0) + "|", t', 0, "");
  }

  /** A target that begins with another one's rendered head and a separator. */
  lemma LongerHeadClashes(t: string, g: int, head: string, x: string)
    requires head == t + "|" + Decimal(g)
    ensures CanClash(t, head + "|" + x)
  {
    Regroup(head, x, Decimal(0));
    assert Clash(t, g, x + "|" + Decimal(0) + "|", head + "|" + x, 0, "");
  }

  lemma ExtendsClashes(t: string, t': string)
    requires Extends(t, t')
    ensures CanClash(t, t')
  {
    var g :| t + "|" + Decimal(g) == t' || t + "|" + Decimal(g) + "|" <= t';
    var head := t + "|" + Decimal(g);
    if head == t' {
      HeadClashes(t, g, t');
    } else {
      var x := t'[|head| + 1..];
      LongerHeadClashes(t, g, head, x);
      assert t' == head + "|" + x;
    }
  }

  /** Two different deliveries with one token. */
  lemma TokensCanClash()
    ensures Clash("a", 1, "2|r", "a|1", 2, "r")
  {
    assert Decimal(1) == "1" && Decimal(2) == "2";
    assert Token("a", 1, "2|r") == "a|1|2|r" == Token("a|1", 2, "r");
  }
}
