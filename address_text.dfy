/**
 * The textual IPv4 form that `inet_ntop(AF_INET, ...)` produces and
 * `stampReceived` copies into the `received` parameter: the four bytes in
 * memory order, each in decimal without leading zeros, joined by dots.
 */
module AddressText {
  import opened Octets

  /** The character for a decimal digit. */
  function DigitChar(d: nat): (c: char)
    requires d < 10
    ensures '0' <= c <= '9'
  {
    ('0' as int + d) as char
  }

  /** The decimal rendering of a number, most significant digit first. */
  function Decimal(n: nat): string
    decreases n
  {
    if n < 10 then [DigitChar(n)] else Decimal(n / 10) + [DigitChar(n % 10)]
  }

  /** A decimal rendering holds only digits, one of them for numbers below ten. */
  lemma {:induction false} DecimalIsDigits(n: nat)
    ensures |Decimal(n)| >= 1
    ensures |Decimal(n)| == 1 <==> n < 10
    ensures forall i :: 0 <= i < |Decimal(n)| ==> '0' <= Decimal(n)[i] <= '9'
    decreases n
  {
    if n >= 10 {
      DecimalIsDigits(n / 10);
    }
  }

  /** Distinct numbers render distinctly. */
  lemma {:induction false} DecimalInjective(n: nat, m: nat)
    requires Decimal(n) == Decimal(m)
    ensures n == m
    decreases n
  {
    DecimalIsDigits(n);
    DecimalIsDigits(m);
    if n >= 10 {
      var s := Decimal(n);
      assert s[..|s| - 1] == Decimal(n / 10) && s[..|s| - 1] == Decimal(m / 10);
      assert s[|s| - 1] == DigitChar(n % 10) == DigitChar(m % 10);
      DecimalInjective(n / 10, m / 10);
    }
  }

  /** A number below 1000 renders in at most three digits. */
  lemma {:induction false} DecimalLength(n: nat)
    ensures n < 10 ==> |Decimal(n)| == 1
    ensures 10 <= n < 100 ==> |Decimal(n)| == 2
    ensures 100 <= n < 1000 ==> |Decimal(n)| == 3
    decreases n
  {
    if n >= 10 {
      DecimalLength(n / 10);
    }
  }

  /**
   * `inet_ntop(AF_INET, ...)`: dotted-decimal text of an address, between
   * "0.0.0.0" and "255.255.255.255" in length, so it fits the 255-byte buffer.
   */
  function DottedQuad(a: seq<byte>): (r: string)
    requires |a| == 4
    ensures 7 <= |r| <= 15
  {
    DecimalLength(a[0] as nat);
    DecimalLength(a[1] as nat);
    DecimalLength(a[2] as nat);
    DecimalLength(a[3] as nat);
    Decimal(a[0] as nat) + ("." + (Decimal(a[1] as nat) + ("." +
    (Decimal(a[2] as nat) + ("." + Decimal(a[3] as nat))))))
  }

  /** Splitting at the first dot is unique when the heads hold no dot. */
  lemma SplitAtDot(p: string, s: string, q: string, t: string)
    requires '.' !in p && '.' !in q
    requires p + ("." + s) == q + ("." + t)
    ensures p == q && s == t
  {
    var w := p + ("." + s);
    var k := if |p| < |q| then |p| else |q|;
    assert w == q + ("." + t);
    assert w[k] == '.';
    assert p == w[..|p|] == q;
    assert s == w[|p| + 1..] == t;
  }

  /** A decimal rendering holds no dot. */
  lemma NoDotInDecimal(n: nat)
    ensures '.' !in Decimal(n)
  {
  }

  /** Distinct addresses render to distinct `received` strings. */
  lemma DottedQuadInjective(a: seq<byte>, b: seq<byte>)
    requires |a| == 4 && |b| == 4
    requires DottedQuad(a) == DottedQuad(b)
    ensures a == b
  {
    forall i | 0 <= i < 4 ensures '.' !in Decimal(a[i] as nat) && '.' !in Decimal(b[i] as nat) {
      NoDotInDecimal(a[i] as nat);
      NoDotInDecimal(b[i] as nat);
    }
    var ta := Decimal(a[1] as nat) + ("." + (Decimal(a[2] as nat) + ("." + Decimal(a[3] as nat))));
    var tb := Decimal(b[1] as nat) + ("." + (Decimal(b[2] as nat) + ("." + Decimal(b[3] as nat))));
    SplitAtDot(Decimal(a[0] as nat), ta, Decimal(b[0] as nat), tb);
    var ua := Decimal(a[2] as nat) + ("." + Decimal(a[3] as nat));
    var ub := Decimal(b[2] as nat) + ("." + Decimal(b[3] as nat));
    SplitAtDot(Decimal(a[1] as nat), ua, Decimal(b[1] as nat), ub);
    SplitAtDot(Decimal(a[2] as nat), Decimal(a[3] as nat), Decimal(b[2] as nat), Decimal(b[3] as nat));
    forall i | 0 <= i < 4 ensures a[i] == b[i] {
      DecimalInjective(a[i] as nat, b[i] as nat);
    }
  }

  /** Example: the address 198.51.100.7. */
  lemma DottedQuadExample()
    ensures DottedQuad([198, 51, 100, 7]) == "198.51.100.7"
  {
  }
}
