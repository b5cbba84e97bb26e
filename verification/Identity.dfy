/** Action identity: an action is named by its position in a turn's committed plan.

    The tables of the other modules are keyed by the four-part value `ActionId`.  The program keys them
    by the hash of one string built from the four parts.  The lemmas here show when the string loses
    nothing, so that, with a hash that does not collide, the two keys are interchangeable. */
module Identity {

  datatype Option<+T> = None | Some(value: T)

  datatype ActionId<C> = ActionId(session: string, turn: string, commitId: C, ordinal: int)

  const BAR: char := '|'

  predicate BarFree(s: string) {
    BAR !in s
  }

  function DigitChar(d: nat): (c: char)
    requires d < 10
    ensures c != BAR && c != '-' && c != ','
  {
    '0' + d as char
  }

  /** Decimal rendering, as in Python's `str(int)`. */
  function DecimalNat(n: nat): (s: string)
    ensures s != [] && BarFree(s) && '-' !in s && ',' !in s
  {
    if n < 10 then [DigitChar(n)] else DecimalNat(n / 10) + [DigitChar(n % 10)]
  }

  function Decimal(n: int): (s: string)
    ensures BarFree(s) && ',' !in s
  {
    if n < 0 then "-" + DecimalNat(-n) else DecimalNat(n)
  }

  /** The number that a list of digits stands for. */
  function NatOf(s: string): nat {
    if s == [] then 0
    else
      var c := s[|s| - 1];
      10 * NatOf(s[..|s| - 1]) + if '0' <= c <= '9' then (c - '0') as nat else 0
  }

  function IntOf(s: string): int {
    if s != [] && s[0] == '-' then -(NatOf(s[1..]) as int) else NatOf(s)
  }

  lemma {:induction false} DecimalNatReads(n: nat)
    ensures NatOf(DecimalNat(n)) == n
  {
    var s := DecimalNat(n);
    if n < 10 {
      assert s[..|s| - 1] == [];
    } else {
      DecimalNatReads(n / 10);
      assert s[..|s| - 1] == DecimalNat(n / 10);
    }
  }

  /** The rendering is read back as the number, negative ones included. */
  lemma DecimalReads(n: int)
    ensures IntOf(Decimal(n)) == n
  {
    if n < 0 {
      DecimalNatReads(-n);
      assert Decimal(n)[1..] == DecimalNat(-n);
    } else {
      DecimalNatReads(n);
    }
  }

  lemma DecimalInjective(m: int, n: int)
    ensures Decimal(m) == Decimal(n) <==> m == n
  {
    DecimalReads(m);
    DecimalReads(n);
  }

  /** The hashed text; `commit` is the hex form of the commit id. */
  function Text(session: string, turn: string, commit: string, ordinal: int): string {
    session + [BAR] + turn + [BAR] + commit + [BAR] + Decimal(ordinal)
  }

  /** A first field without the separator is read back from the front. */
  lemma SplitFront(c: char, a: string, x: string, b: string, y: string)
    requires c !in a && c !in b
    ensures a + [c] + x == b + [c] + y <==> a == b && x == y
  {
    var s, t := a + [c] + x, b + [c] + y;
    assert s[..|a|] == a && s[|a|] == c && s[|a| + 1..] == x;
    assert t[..|b|] == b && t[|b|] == c && t[|b| + 1..] == y;
    if |a| < |b| {
      assert t[|a|] == b[|a|];
    } else if |b| < |a| {
      assert s[|b|] == a[|b|];
    }
  }

  /** A bar-free last field is read back from the end. */
  lemma SplitBack(a: string, x: string, b: string, y: string)
    requires BarFree(x) && BarFree(y)
    ensures a + [BAR] + x == b + [BAR] + y <==> a == b && x == y
  {
    var s, t := a + [BAR] + x, b + [BAR] + y;
    assert s[..|a|] == a && s[|a|] == BAR && s[|a| + 1..] == x;
    assert t[..|b|] == b && t[|b|] == BAR && t[|b| + 1..] == y;
    if |s| == |t| && |a| < |b| {
      assert s[|b|] == x[|b| - |a| - 1];
    } else if |s| == |t| && |b| < |a| {
      assert t[|a|] == y[|a| - |b| - 1];
    }
  }

  /** Exactly when two texts are equal, whatever the session and turn contain: the commit id and the
      ordinal are always recovered, and only the session/turn boundary can be confused. */
  lemma TextCollision(s1: string, t1: string, c1: string, o1: int, s2: string, t2: string, c2: string, o2: int)
    requires BarFree(c1) && BarFree(c2)
    ensures Text(s1, t1, c1, o1) == Text(s2, t2, c2, o2)
       <==> s1 + [BAR] + t1 == s2 + [BAR] + t2 && c1 == c2 && o1 == o2
  {
    var p1, p2 := s1 + [BAR] + t1, s2 + [BAR] + t2;
    SplitBack(p1 + [BAR] + c1, Decimal(o1), p2 + [BAR] + c2, Decimal(o2));
    SplitBack(p1, c1, p2, c2);
    DecimalInjective(o1, o2);
  }

  /** With bar-free sessions, and commit ids rendered one-to-one without a bar, the text determines
      the action; the turn may contain bars. */
  lemma TextInjective<C(!new)>(hex: C -> string, a: ActionId<C>, b: ActionId<C>)
    requires forall c :: BarFree(hex(c))
    requires forall c, d :: hex(c) == hex(d) ==> c == d
    requires BarFree(a.session) && BarFree(b.session)
    ensures Text(a.session, a.turn, hex(a.commitId), a.ordinal) == Text(b.session, b.turn, hex(b.commitId), b.ordinal)
       <==> a == b
  {
    TextCollision(a.session, a.turn, hex(a.commitId), a.ordinal, b.session, b.turn, hex(b.commitId), b.ordinal);
    SplitFront(BAR, a.session, a.turn, b.session, b.turn);
  }

  /** The parts in their order, with a bar between any two. */
  lemma TextIs(session: string, turn: string, commit: string, ordinal: int)
    ensures Text(session, turn, commit, ordinal) == session + "|" + turn + "|" + commit + "|" + Decimal(ordinal)
    ensures Text("s", "t", "0af", -12) == "s|t|0af|-12"
  {
    assert DecimalNat(12) == DecimalNat(1) + ['2'] == "12";
    assert Decimal(-12) == "-12";
  }

  /** A bar in a session is enough to make two different actions share a text. */
  lemma SessionBarCollides(commit: string, ordinal: int)
    ensures Text("a|b", "c", commit, ordinal) == Text("a", "b|c", commit, ordinal)
  {
    assert "a|b" + [BAR] + "c" == "a" + [BAR] + "b|c";
  }
}
