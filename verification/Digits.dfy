/**
 The number formats of `strconv` that reach composed SQL and cache keys, and the
 fact the key encoding rests on: a number followed by anything that cannot extend
 it is read back in exactly one way.
 */
module Digits {

  const DIGITS := "0123456789abcdef"

  newtype Base = b: int | b == 10 || b == 16 witness 10

  /** The digits of a base. */
  predicate IsDigit(base: Base, c: char) {
    '0' <= c <= '9' || (base == 16 && 'a' <= c <= 'f')
  }

  /** `r` cannot continue a number: it is empty or begins with another character. */
  predicate Stops(base: Base, r: string) { r == "" || !IsDigit(base, r[0]) }

  function Digit(base: Base, n: nat): (c: char)
    requires n < base as int
    ensures IsDigit(base, c)
  {
    DIGITS[n]
  }

  /** `strconv.AppendUint`: no leading zeros. */
  function Num(base: Base, n: nat): (s: string)
    ensures s != "" && forall c <- s :: IsDigit(base, c)
  {
    if n < base as int then [Digit(base, n)]
    else Num(base, n / base as int) + [Digit(base, n % base as int)]
  }

  function Dec(n: nat): string { Num(10, n) }

  /** `strconv.AppendInt` in base ten. */
  function Int(n: int): string {
    if n < 0 then "-" + Dec(-n) else Dec(n)
  }

  lemma DigitInjective(base: Base, m: nat, n: nat)
    requires m < base as int && n < base as int && Digit(base, m) == Digit(base, n)
    ensures m == n
  {
  }

  /** One unfolding of `Num`, read from the right. */
  lemma {:induction false} NumStep(base: Base, n: nat)
    ensures n < base as int <==> |Num(base, n)| == 1
    ensures n >= base as int ==> Num(base, n)[..|Num(base, n)| - 1] == Num(base, n / base as int)
    ensures Num(base, n)[|Num(base, n)| - 1] == Digit(base, n % base as int)
  {
  }

  lemma {:induction false} NumInjective(base: Base, m: nat, n: nat)
    requires Num(base, m) == Num(base, n)
    ensures m == n
  {
    hide Num, Digit;
    NumStep(base, m);
    NumStep(base, n);
    DigitInjective(base, m % base as int, n % base as int);
    if m >= base as int {
      NumInjective(base, m / base as int, n / base as int);
    }
  }

  /** Texts that agree after the same beginning agree. */
  lemma Cancel(c: string, d: string, e: string)
    requires c + d == c + e
    ensures d == e
  {
    assert d == (c + d)[|c|..] && e == (c + e)[|c|..];
  }

  /** Two runs of admitted characters, each followed by something that is not
      admitted, are the same run when the whole texts agree. */
  lemma {:induction false} RunsAgree(p: string, r: string, q: string, s: string, base: Base)
    requires p + r == q + s
    requires forall c <- p :: IsDigit(base, c)
    requires forall c <- q :: IsDigit(base, c)
    requires Stops(base, r) && Stops(base, s)
    ensures p == q && r == s
  {
    assert p == "" ==> p + r == r;
    assert q == "" ==> q + s == s;
    assert p != "" ==> (p + r)[0] == p[0];
    assert q != "" ==> (q + s)[0] == q[0];
    if p != "" && q != "" {
      assert (p + r)[1..] == p[1..] + r && (q + s)[1..] == q[1..] + s;
      RunsAgree(p[1..], r, q[1..], s, base);
    }
  }

  /** A number is read back whatever follows it, as long as that is no digit. */
  lemma {:induction false} NumReads(base: Base, m: nat, r: string, n: nat, s: string)
    requires Num(base, m) + r == Num(base, n) + s && Stops(base, r) && Stops(base, s)
    ensures m == n && r == s
  {
    hide Stops;
    RunsAgree(Num(base, m), r, Num(base, n), s, base);
    NumInjective(base, m, n);
  }

  lemma IntReads(m: int, r: string, n: int, s: string)
    requires Int(m) + r == Int(n) + s && Stops(10, r) && Stops(10, s)
    ensures m == n && r == s
  {
    hide Dec, Stops;
    IntHead(m, r);
    IntHead(n, s);
    if m < 0 {
      assert Int(m) + r == "-" + (Dec(-m) + r) && Int(n) + s == "-" + (Dec(-n) + s);
      Cancel("-", Dec(-m) + r, Dec(-n) + s);
      DecReads(-m, r, -n, s);
    } else {
      DecReads(m, r, n, s);
    }
  }

  lemma DecReads(m: nat, r: string, n: nat, s: string)
    requires Dec(m) + r == Dec(n) + s && Stops(10, r) && Stops(10, s)
    ensures m == n && r == s
  {
    NumReads(10, m, r, n, s);
  }

  lemma IntHead(m: int, r: string)
    ensures Int(m) != "" && (Int(m) + r)[0] == Int(m)[0]
    ensures m < 0 <==> Int(m)[0] == '-'
  {
    if m >= 0 {
      assert Dec(m)[0] in Dec(m);
    }
  }
}
