/** The signed time arithmetic of arith.c in 32-bit and 64-bit C integers. */
module PtpTime {

  newtype int32 = x: int | -0x8000_0000 <= x < 0x8000_0000
  newtype int64 = x: int | -0x8000_0000_0000_0000 <= x < 0x8000_0000_0000_0000

  const SECOND: int32 := 1_000_000_000
  const GIGA: nat := 1_000_000_000

  /** Integer division as C defines it: the quotient is truncated toward zero. */
  function Truncate(a: int, b: nat): (q: int)
    requires b > 0
    ensures a >= 0 ==> q >= 0 && q * b <= a < (q + 1) * b
    ensures a <= 0 ==> q <= 0 && (q - 1) * b < a <= q * b
  {
    if a >= 0 then a / b else -((-a) / b)
  }

  function Quotient(a: int32, b: int32): (q: int32)
    requires b > 0
    ensures q as int == Truncate(a as int, b as int)
  {
    Grows(Truncate(a as int, b as int), b as int);
    Truncate(a as int, b as int) as int32
  }

  lemma Grows(q: int, b: nat)
    requires b > 0
    ensures q >= 0 ==> q <= q * b
    ensures q <= 0 ==> q * b <= q
  {
  }

  /** Seconds and nanoseconds of one sign, with less than a second of nanoseconds. */
  predicate Normal(seconds: int, nanoseconds: int) {
    && nanoseconds < GIGA && -nanoseconds < GIGA
    && (seconds > 0 ==> nanoseconds >= 0) && (seconds < 0 ==> nanoseconds <= 0)
  }

  function Total(seconds: int, nanoseconds: int): int {
    seconds * GIGA + nanoseconds
  }

  /** The normal form of a number of nanoseconds. */
  function NormalForm(t: int): (r: (int, int))
    ensures Normal(r.0, r.1) && Total(r.0, r.1) == t
  {
    (Truncate(t, GIGA), t - Truncate(t, GIGA) * GIGA)
  }

  /** There is only one. */
  lemma NormalFormIsUnique(seconds: int, nanoseconds: int)
    requires Normal(seconds, nanoseconds)
    ensures NormalForm(Total(seconds, nanoseconds)) == (seconds, nanoseconds)
  {
  }

  predicate InInt32(x: int) {
    -0x8000_0000 <= x < 0x8000_0000
  }

  /** Both fields fit 32 bits, and so do the seconds when the nanoseconds are carried into them. */
  predicate Fits(seconds: int, nanoseconds: int) {
    InInt32(seconds) && InInt32(nanoseconds) && InInt32(seconds + Truncate(nanoseconds, GIGA))
  }

  /** Normal times of less than 2^30 seconds can always be added and subtracted. */
  lemma ModerateTimesFit(s: int, n: int, t: int, m: int)
    requires Normal(s, n) && Normal(t, m) && -0x4000_0000 < s < 0x4000_0000 && -0x4000_0000 < t < 0x4000_0000
    ensures Fits(s + t, n + m) && Fits(s - t, n - m)
  {
  }

  /** Half the seconds, with the odd one carried into the nanoseconds before they are halved. */
  lemma HalvesTotal(s: int, n: int)
    requires Normal(s, n)
    ensures var (h, c) := (Truncate(s, 2), n + (s - Truncate(s, 2) * 2) * GIGA);
            Total(h, Truncate(c, 2)) == Truncate(Total(s, n), 2)
  {
    var (h, c) := (Truncate(s, 2), n + (s - Truncate(s, 2) * 2) * GIGA);
    assert Total(s, n) == 2 * h * GIGA + c;
    TruncateEven(h * GIGA, c);
  }

  lemma TruncateEven(k: int, c: int)
    requires k == 0 || (k > 0 && c >= 0) || (k < 0 && c <= 0)
    ensures Truncate(2 * k + c, 2) == k + Truncate(c, 2)
  {
  }

  class TimeInternal {
    var seconds: int32
    var nanoseconds: int32

    ghost function Nanos(): int
      reads this
    {
      Total(seconds as int, nanoseconds as int)
    }

    ghost predicate Is(t: int)
      reads this
    {
      (seconds as int, nanoseconds as int) == NormalForm(t)
    }

    /** normalizeTime. */
    method Normalize()
      requires Fits(seconds as int, nanoseconds as int)
      modifies this
      ensures Is(old(Nanos()))
    {
      seconds := seconds + Quotient(nanoseconds, SECOND);
      nanoseconds := nanoseconds - Quotient(nanoseconds, SECOND) * SECOND;
      if seconds > 0 && nanoseconds < 0 {
        seconds := seconds - 1;
        nanoseconds := nanoseconds + SECOND;
      } else if seconds < 0 && nanoseconds > 0 {
        seconds := seconds + 1;
        nanoseconds := nanoseconds - SECOND;
      }
      NormalFormIsUnique(seconds as int, nanoseconds as int);
    }

    /** addTime; the result may be one of the operands. */
    static method Add(r: TimeInternal, x: TimeInternal, y: TimeInternal)
      requires Fits(x.seconds as int + y.seconds as int, x.nanoseconds as int + y.nanoseconds as int)
      modifies r
      ensures r.Is(old(x.Nanos() + y.Nanos()))
    {
      r.seconds := x.seconds + y.seconds;
      r.nanoseconds := x.nanoseconds + y.nanoseconds;
      r.Normalize();
    }

    /** subTime; the result may be one of the operands. */
    static method Subtract(r: TimeInternal, x: TimeInternal, y: TimeInternal)
      requires Fits(x.seconds as int - y.seconds as int, x.nanoseconds as int - y.nanoseconds as int)
      modifies r
      ensures r.Is(old(x.Nanos() - y.Nanos()))
    {
      r.seconds := x.seconds - y.seconds;
      r.nanoseconds := x.nanoseconds - y.nanoseconds;
      r.Normalize();
    }

    /** div2Time. */
    method Halve()
      requires Normal(seconds as int, nanoseconds as int)
      modifies this
      ensures Is(Truncate(old(Nanos()), 2))
    {
      HalveFields();
      Normalize();
    }

    /** The odd second is carried into the nanoseconds before both are halved. */
    method HalveFields()
      requires Normal(seconds as int, nanoseconds as int)
      modifies this
      ensures Nanos() == Truncate(old(Nanos()), 2) && Fits(seconds as int, nanoseconds as int)
    {
      HalvesTotal(seconds as int, nanoseconds as int);
      nanoseconds := nanoseconds + (seconds - Quotient(seconds, 2) * 2) * SECOND;
      seconds := Quotient(seconds, 2);
      nanoseconds := Quotient(nanoseconds, 2);
    }

    /** scaledNanosecondsToInternalTime: 2^-16 nanosecond units, fractions dropped. */
    method FromScaled(scaledNanoseconds: int64)
      requires scaledNanoseconds as int > -0x8000_0000_0000_0000
      modifies this
      ensures Is(Truncate(scaledNanoseconds as int, 65536))
    {
      var n, sign: int64 := scaledNanoseconds, 1;
      if n < 0 {
        n, sign := -n, -1;
      }
      n := n / 65536;
      seconds := (sign * (n / 1_000_000_000)) as int32;
      nanoseconds := (sign * (n % 1_000_000_000)) as int32;
      NormalFormIsUnique(seconds as int, nanoseconds as int);
    }
  }
}
