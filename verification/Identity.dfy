/**
 Identity strings: fields joined with colons, none of which may contain a colon itself.
 Such a string determines its fields, so route keys and the names hashed into result and
 approval ids never collide.
 */
module Identity {
  function Digit(d: nat): char
    requires d < 10
  {
    "0123456789"[d]
  }

  /** The decimal rendering of a count. */
  function Decimal(n: nat): string {
    if n < 10 then [Digit(n)] else Decimal(n / 10) + [Digit(n % 10)]
  }

  lemma {:induction false} DecimalIsInjective(m: nat, n: nat)
    requires Decimal(m) == Decimal(n)
    ensures m == n
    decreases m
  {
    DecimalIsNonempty(m);
    DecimalIsNonempty(n);
    DecimalGrows(m);
    DecimalGrows(n);
    var a, b := Decimal(m), Decimal(n);
    assert a[|a| - 1] == Digit(m % 10) && b[|b| - 1] == Digit(n % 10);
    if m >= 10 {
      assert a[..|a| - 1] == Decimal(m / 10) && b[..|b| - 1] == Decimal(n / 10);
      DecimalIsInjective(m / 10, n / 10);
    }
  }

  lemma DecimalGrows(n: nat)
    ensures |Decimal(n)| > 1 <==> n >= 10
  {
  }

  lemma {:induction false} DecimalIsNonempty(n: nat)
    ensures Decimal(n) != [] && ':' !in Decimal(n)
    decreases n
  {
    if n >= 10 {
      DecimalIsNonempty(n / 10);
    }
  }

  ghost predicate ColonFree(parts: seq<string>) {
    forall i | 0 <= i < |parts| :: ':' !in parts[i]
  }

  /** The parts joined with colons. */
  function Joined(parts: seq<string>): string
    requires parts != []
  {
    if |parts| == 1 then parts[0] else parts[0] + ":" + Joined(parts[1..])
  }

  lemma JoinedSeven(a: string, b: string, c: string, d: string, e: string, f: string, g: string)
    ensures Joined([a, b, c, d, e, f, g])
      == a + ":" + (b + ":" + (c + ":" + (d + ":" + (e + ":" + (f + ":" + g)))))
  {
    assert [a, b, c, d, e, f, g][1..] == [b, c, d, e, f, g] && [b, c, d, e, f, g][1..] == [c, d, e, f, g];
    assert [c, d, e, f, g][1..] == [d, e, f, g] && [d, e, f, g][1..] == [e, f, g];
    assert [e, f, g][1..] == [f, g] && [f, g][1..] == [g];
    assert Joined([g]) == g;
    assert Joined([f, g]) == f + ":" + g;
    assert Joined([e, f, g]) == e + ":" + (f + ":" + g);
    assert Joined([d, e, f, g]) == d + ":" + (e + ":" + (f + ":" + g));
    assert Joined([c, d, e, f, g]) == c + ":" + (d + ":" + (e + ":" + (f + ":" + g)));
  }

  lemma FirstColonSplits(x: string, u: string, y: string, v: string)
    requires ':' !in x && ':' !in y && x + ":" + u == y + ":" + v
    ensures x == y && u == v
  {
    var a, b := x + ":" + u, y + ":" + v;
    assert a[|x|] == ':' && forall i | 0 <= i < |x| :: a[i] == x[i] && a[i] != ':';
    assert b[|y|] == ':' && forall i | 0 <= i < |y| :: b[i] == y[i] && b[i] != ':';
    assert |x| == |y|;
    assert x == a[..|x|] && y == b[..|y|];
    assert u == a[|x| + 1..] && v == b[|y| + 1..];
  }

  lemma LongJoinHasColon(parts: seq<string>)
    requires parts != [] && ColonFree(parts)
    ensures ':' in Joined(parts) <==> |parts| > 1
  {
  }

  /** Colon-free parts can be read back from the joined string. */
  lemma {:induction false} JoinedIsInjective(a: seq<string>, b: seq<string>)
    requires a != [] && b != [] && ColonFree(a) && ColonFree(b) && Joined(a) == Joined(b)
    ensures a == b
    decreases |a|
  {
    LongJoinHasColon(a);
    LongJoinHasColon(b);
    if |a| == 1 {
      assert a == [a[0]] && b == [b[0]];
    } else {
      FirstColonSplits(a[0], Joined(a[1..]), b[0], Joined(b[1..]));
      JoinedIsInjective(a[1..], b[1..]);
      assert a == [a[0]] + a[1..] && b == [b[0]] + b[1..];
    }
  }
}
