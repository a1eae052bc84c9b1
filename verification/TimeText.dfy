/** How timer/my_timer.c writes a time, and how to read it back. */
module TimeText {
  /** `struct timespec`. */
  datatype Time = Time(sec: int, nsec: int)

  const NANOS := 1_000_000_000

  function Pow10(k: nat): nat {
    if k == 0 then 1 else 10 * Pow10(k - 1)
  }

  function Digit(d: nat): char
    requires d < 10
  {
    '0' + d as char
  }

  /** `%ld` of a number that is not negative. */
  function Dec(n: nat): string {
    if n < 10 then [Digit(n)] else Dec(n / 10) + [Digit(n % 10)]
  }

  /** `%ld`. */
  function Num(n: int): string {
    if n < 0 then "-" + Dec(-n) else Dec(n)
  }

  /** `%ld.%ld`: the nanoseconds are not padded. */
  function Render(t: Time): string {
    Num(t.sec) + "." + Num(t.nsec)
  }

  // ---------- reading it back ----------

  predicate IsDigit(c: char) {
    '0' <= c <= '9'
  }

  function Value(s: string): int
    requires forall c :: c in s ==> IsDigit(c)
  {
    if s == [] then 0 else 10 * Value(s[..|s| - 1]) + (s[|s| - 1] as int - '0' as int)
  }

  function Signed(s: string): int {
    if s != [] && s[0] == '-' && (forall c :: c in s[1..] ==> IsDigit(c)) then -Value(s[1..])
    else if forall c :: c in s ==> IsDigit(c) then Value(s)
    else 0
  }

  /** The text up to the first `c`, and what follows it. */
  function Before(s: string, c: char): string {
    if s == [] || s[0] == c then [] else [s[0]] + Before(s[1..], c)
  }

  function After(s: string, c: char): string {
    if s == [] then [] else if s[0] == c then s[1..] else After(s[1..], c)
  }

  /** How `%ld` writes a number: no zeros in front, and a sign only if it is negative. */
  predicate Numeral(s: string) {
    if s != [] && s[0] == '-' then Plain(s[1..]) && s[1] != '0' else Plain(s)
  }

  predicate Plain(s: string) {
    s != [] && (forall c :: c in s ==> IsDigit(c)) && (s[0] != '0' || |s| == 1)
  }

  /** `s` consists of two such numbers with a dot between them. */
  predicate IsTime(s: string) {
    '.' in s && Numeral(Before(s, '.')) && Numeral(After(s, '.'))
  }

  /** The time that such a text means. */
  function TimeIn(s: string): Time {
    Time(Signed(Before(s, '.')), Signed(After(s, '.')))
  }

  lemma {:induction false} DecReads(n: nat)
    ensures forall c :: c in Dec(n) ==> IsDigit(c)
    ensures Dec(n) != [] && Value(Dec(n)) == n
    decreases n
  {
    if n >= 10 {
      DecReads(n / 10);
      var s := Dec(n / 10);
      assert (s + [Digit(n % 10)])[..|s|] == s;
    }
  }

  lemma NumReads(n: int)
    ensures Signed(Num(n)) == n
    ensures '.' !in Num(n)
  {
    DecReads(if n < 0 then -n else n);
    if n < 0 {
      assert Num(n)[1..] == Dec(-n);
    } else {
      assert Dec(n)[0] in Dec(n);
    }
  }

  lemma {:induction false} DecPlain(n: nat)
    ensures Plain(Dec(n)) && (Dec(n)[0] == '0' <==> n == 0)
    decreases n
  {
    DecReads(n);
    if n >= 10 {
      DecPlain(n / 10);
    }
  }

  lemma NumNumeral(n: int)
    ensures Numeral(Num(n))
  {
    DecPlain(if n < 0 then -n else n);
    if n < 0 {
      assert Num(n)[1..] == Dec(-n);
    } else {
      assert Dec(n)[0] in Dec(n);
    }
  }

  lemma {:induction false} ValueBounds(s: string)
    requires forall c :: c in s ==> IsDigit(c)
    ensures Value(s) >= 0 && (s != [] && s[0] != '0' ==> Value(s) > 0)
    decreases |s|
  {
    if s != [] {
      assert forall c :: c in s[..|s| - 1] ==> c in s;
      ValueBounds(s[..|s| - 1]);
      assert s[|s| - 1] in s;
    }
  }

  /** A plain numeral of more than one digit without its last one. */
  lemma PlainFront(s: string)
    requires Plain(s) && |s| > 1
    ensures Plain(s[..|s| - 1]) && Value(s[..|s| - 1]) > 0
  {
    assert forall c :: c in s[..|s| - 1] ==> c in s;
    assert s[..|s| - 1][0] == s[0];
    ValueBounds(s[..|s| - 1]);
  }

  lemma DecSteps(m: nat, d: nat)
    requires m > 0 && d < 10
    ensures Dec(10 * m + d) == Dec(m) + [Digit(d)]
  {
    assert (10 * m + d) / 10 == m && (10 * m + d) % 10 == d;
  }

  /** Only one plain numeral has a given value. */
  lemma {:induction false} PlainUnique(s: string)
    requires Plain(s)
    ensures Value(s) >= 0 && s == Dec(Value(s))
    decreases |s|
  {
    var front, last := s[..|s| - 1], s[|s| - 1];
    assert s == front + [last] && last in s;
    var d := last as int - '0' as int;
    assert 0 <= d < 10 && Digit(d) == last;
    if |s| == 1 {
      assert front == [] && Value(s) == d;
    } else {
      hide Plain;
      PlainFront(s);
      PlainUnique(front);
      DecSteps(Value(front), d);
    }
  }

  lemma NumeralUnique(s: string)
    requires Numeral(s)
    ensures s == Num(Signed(s))
  {
    if s[0] == '-' {
      PlainUnique(s[1..]);
      ValueBounds(s[1..]);
      assert s == "-" + s[1..];
    } else {
      PlainUnique(s);
    }
  }

  lemma {:induction false} SplitAt(a: string, c: char, b: string)
    requires c !in a
    ensures Before(a + [c] + b, c) == a && After(a + [c] + b, c) == b
  {
    if a == [] {
      assert (a + [c] + b)[0] == c && (a + [c] + b)[1..] == b;
    } else {
      assert (a + [c] + b)[1..] == a[1..] + [c] + b;
      SplitAt(a[1..], c, b);
    }
  }

  lemma {:induction false} Rejoin(s: string, c: char)
    requires c in s
    ensures s == Before(s, c) + [c] + After(s, c)
  {
    if s[0] != c {
      Rejoin(s[1..], c);
    }
  }

  /** Splitting at the dot recovers both numbers, whatever their signs. */
  lemma RenderReadsBack(t: Time)
    ensures IsTime(Render(t)) && TimeIn(Render(t)) == t
  {
    NumReads(t.sec);
    NumReads(t.nsec);
    NumNumeral(t.sec);
    NumNumeral(t.nsec);
    SplitAt(Num(t.sec), '.', Num(t.nsec));
  }

  /** And it is the only text that means this time: the nanoseconds are not padded. */
  lemma RenderExactly(s: string, t: Time)
    ensures s == Render(t) <==> IsTime(s) && TimeIn(s) == t
  {
    RenderReadsBack(t);
    if IsTime(s) && TimeIn(s) == t {
      Rejoin(s, '.');
      NumeralUnique(Before(s, '.'));
      NumeralUnique(After(s, '.'));
    }
  }

  // ---------- how long it is ----------

  /** `n` takes at most `k` digits exactly when it is below ten to the `k`. */
  lemma {:induction false} DecLength(n: nat, k: nat)
    requires k > 0
    ensures |Dec(n)| <= k <==> n < Pow10(k)
    decreases k
  {
    if k == 1 {
      assert Pow10(1) == 10;
      DecReads(n / 10);
    } else if n >= 10 {
      DecLength(n / 10, k - 1);
      assert Pow10(k) == 10 * Pow10(k - 1);
    } else {
      PowGrows(k);
    }
  }

  lemma {:induction false} PowGrows(k: nat)
    requires k > 0
    ensures Pow10(k) >= 10
    decreases k
  {
    if k > 1 { PowGrows(k - 1); }
  }

  predicate Normalised(t: Time) {
    0 <= t.nsec < NANOS
  }

  /** The text of `t` and its terminator fit `char[21]`. */
  predicate Fits(t: Time) {
    |Render(t)| + 1 <= 21
  }

  lemma Powers()
    ensures Pow10(9) == NANOS && Pow10(10) == 10_000_000_000
  {
    assert Pow10(4) == 10 * Pow10(3) == 100 * Pow10(2) == 1000 * Pow10(1) == 10000;
    assert Pow10(8) == 10 * Pow10(7) == 100 * Pow10(6) == 1000 * Pow10(5) == 10000 * Pow10(4);
    assert Pow10(10) == 10 * Pow10(9) == 100 * Pow10(8);
  }

  /** From the epoch on, every time in second `sec` fits the buffer if and only if `sec` has at most
      ten digits: until the year 2286. */
  lemma FitsExactly(sec: nat)
    ensures (forall nsec :: 0 <= nsec < NANOS ==> Fits(Time(sec, nsec))) <==> sec < 10_000_000_000
  {
    Powers();
    DecLength(sec, 10);
    forall nsec | 0 <= nsec < NANOS
      ensures |Render(Time(sec, nsec))| == |Dec(sec)| + 1 + |Dec(nsec)| && |Dec(nsec)| <= 9
    {
      DecLength(nsec, 9);
    }
    var last := NANOS - 1;
    DecLength(last, 8);
    assert Pow10(9) == 10 * Pow10(8);
    assert |Dec(last)| == 9;
    assert Fits(Time(sec, last)) <==> |Dec(sec)| <= 10;
  }
}
