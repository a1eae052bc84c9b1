/** procfile_read of timer/my_timer.c. */
module MyTimer {
  import opened TimeText

  // ---------- subtraction with borrow ----------

  function Nanos(t: Time): int {
    t.sec * NANOS + t.nsec
  }

  function Sub(b: Time, a: Time): Time {
    if b.nsec < a.nsec then Time(b.sec - a.sec - 1, NANOS + b.nsec - a.nsec)
    else Time(b.sec - a.sec, b.nsec - a.nsec)
  }

  /** The difference is exact, and for clock values it is the one pair that is a clock value again. */
  lemma SubExact(b: Time, a: Time)
    ensures Nanos(Sub(b, a)) == Nanos(b) - Nanos(a)
    ensures Normalised(a) && Normalised(b) ==> Normalised(Sub(b, a))
    ensures forall d :: Normalised(a) && Normalised(b) && Normalised(d) && Nanos(d) == Nanos(b) - Nanos(a)
              ==> d == Sub(b, a)
  {
  }

  // ---------- one read ----------

  /** The static variables. */
  datatype Globals = Globals(t0: Time, t1: Time, diff: Time, bufLen: int)

  /** What a read sees of the world: the clock, `*ppos`, `count`, and whether the copy to user space fails. */
  datatype Request = Request(now: Time, pos: int, count: nat, fault: bool)

  /** What it returns, the new `*ppos`, and the text handed over. */
  datatype Answer = Answer(result: int, pos: int, text: string)

  const EFAULT := 14

  /** A `char` that is assigned `n`. */
  function AsChar(n: int): int {
    (n + 128) % 256 - 128
  }

  /** A `char` compared with a `size_t`. */
  function AsSize(n: int): nat {
    n % 0x1_0000_0000_0000_0000
  }

  function CurrentLine(now: Time): string {
    "current time: " + Render(now) + "\n"
  }

  function ElapsedLine(d: Time): string {
    "elapsed time: " + Render(d) + "\n"
  }

  function Report(t0: Time, now: Time): string {
    if t0.nsec > 0 then CurrentLine(now) + ElapsedLine(Sub(now, t0)) else CurrentLine(now)
  }

  /** Neither of the early returns is taken. */
  predicate Accepts(t0: Time, r: Request) {
    r.pos <= 0 && r.count >= AsSize(AsChar(|Report(t0, r.now)|)) && !r.fault
  }

  /** What the buffers of the program can hold. */
  predicate TextsFit(t0: Time, now: Time) {
    Fits(now) && (t0.nsec > 0 ==> Fits(Sub(now, t0)))
  }

  /** Clock values the buffers are made for, and a clock that does not run backward. */
  predicate InEra(t: Time) {
    Normalised(t) && 0 <= t.sec < 10_000_000_000
  }

  lemma EraFits(t: Time)
    requires InEra(t)
    ensures Fits(t)
  {
    FitsExactly(t.sec);
    assert Fits(Time(t.sec, t.nsec));
  }

  /** With such a clock every buffer suffices, the report has at most 70 characters, and its length
      survives being kept in a `char`. */
  lemma ReportFits(t0: Time, now: Time)
    requires InEra(now) && InEra(t0) && Nanos(t0) <= Nanos(now)
    ensures TextsFit(t0, now)
    ensures |Report(t0, now)| <= 70 && AsSize(AsChar(|Report(t0, now)|)) == |Report(t0, now)|
  {
    EraFits(now);
    EraFits(Sub(now, t0));
  }

  // ---------- C strings ----------

  /** The characters before the terminator. */
  function CString(b: seq<char>): string {
    if b == [] || b[0] == '\0' then [] else [b[0]] + CString(b[1..])
  }

  lemma {:induction false} CStringOf(b: seq<char>, s: string)
    requires |s| < |b| && b[..|s|] == s && b[|s|] == '\0' && '\0' !in s
    ensures CString(b) == s
  {
    if s != [] {
      assert b[0] == s[0] && s[0] in s;
      assert b[1..][..|s| - 1] == s[1..];
      CStringOf(b[1..], s[1..]);
    }
  }

  /** `sprintf` of a finished text, or an initialiser. */
  method Sprintf(buffer: array<char>, text: string)
    requires |text| < buffer.Length && '\0' !in text
    modifies buffer
    ensures buffer[..|text|] == text && buffer[|text|] == '\0' && CString(buffer[..]) == text
  {
    for k := 0 to |text|
      invariant buffer[..k] == text[..k]
    {
      buffer[k] := text[k];
    }
    buffer[|text|] := '\0';
    CStringOf(buffer[..], text);
  }

  /** `strcat` of `text` to the `used` characters in the buffer. */
  method Strcat(buffer: array<char>, used: nat, text: string)
    requires used + |text| < buffer.Length && buffer[used] == '\0'
    requires '\0' !in buffer[..used] && '\0' !in text
    modifies buffer
    ensures buffer[..used + |text|] == old(buffer[..used]) + text && buffer[used + |text|] == '\0'
    ensures '\0' !in buffer[..used + |text|] && CString(buffer[..]) == old(buffer[..used]) + text
  {
    ghost var head := buffer[..used];
    for k := 0 to |text|
      invariant buffer[..used + k] == head + text[..k]
    {
      buffer[used + k] := text[k];
      assert buffer[..used + k + 1] == buffer[..used + k] + [text[k]];
    }
    buffer[used + |text|] := '\0';
    assert buffer[..used + |text|] == head + text;
    CStringOf(buffer[..], head + text);
  }

  lemma {:induction false} DecPrints(n: nat)
    ensures '\0' !in Dec(n)
  {
    DecReads(n);
  }

  lemma RenderPrints(t: Time)
    ensures '\0' !in Render(t)
  {
    DecPrints(if t.sec < 0 then -t.sec else t.sec);
    DecPrints(if t.nsec < 0 then -t.nsec else t.nsec);
  }

  // ---------- procfile_read ----------

  datatype Outcome = Outcome(g: Globals, a: Answer)

  /** A read overwrites `t1`, `diff` and the length in any case, and `t0` only when it hands text over. */
  function ReadOnce(g: Globals, r: Request): Outcome {
    var text := Report(g.t0, r.now);
    var g' := Globals(g.t0, r.now, if g.t0.nsec > 0 then Sub(r.now, g.t0) else g.diff, AsChar(|text|));
    if r.pos > 0 || r.count < AsSize(g'.bufLen) then Outcome(g', Answer(0, r.pos, ""))
    else if r.fault then Outcome(g', Answer(-EFAULT, r.pos, ""))
    else Outcome(g'.(t0 := r.now), Answer(g'.bufLen, g'.bufLen, text))
  }

  class Module {
    var t0: Time
    var t1: Time
    var diff: Time
    var bufLen: int

    ghost function State(): Globals
      reads this
    {
      Globals(t0, t1, diff, bufLen)
    }

    constructor ()
      ensures State() == Globals(Time(0, 0), Time(0, 0), Time(0, 0), 0)
    {
      t0, t1, diff, bufLen := Time(0, 0), Time(0, 0), Time(0, 0), 0;
    }

    /** `prefix`, a time and a newline, put together in `buffer` by way of a `char[21]`. */
    method Line(buffer: array<char>, prefix: string, t: Time)
      requires Fits(t) && |prefix| == 14 && '\0' !in prefix && buffer.Length >= 100
      modifies buffer
      ensures var line := prefix + Render(t) + "\n";
              |line| <= 35 && '\0' !in line && buffer[..|line|] == line && buffer[|line|] == '\0'
    {
      RenderPrints(t);
      var text := Render(t);
      var time := new char[21];
      Sprintf(time, text);
      Sprintf(buffer, prefix);
      Strcat(buffer, 14, time[..|text|]);
      Strcat(buffer, 14 + |text|, "\n");
    }

    method Subtract()
      modifies this`diff
      ensures diff == Sub(t1, t0)
    {
      if t1.nsec < t0.nsec {
        diff := Time(t1.sec - t0.sec - 1, 1000000000 + t1.nsec - t0.nsec);
      } else {
        diff := Time(t1.sec - t0.sec, t1.nsec - t0.nsec);
      }
    }

    /** Lines 30-55: both lines of the report. */
    method BothLines() returns (text: string)
      requires Fits(t1) && Fits(Sub(t1, t0))
      modifies this`diff
      ensures diff == Sub(t1, t0) && text == CurrentLine(t1) + ElapsedLine(diff)
    {
      hide CString, Dec, Num, Sub;
      var current := new char[200];
      Line(current, "current time: ", t1);
      Subtract();
      var elapsed := new char[100];
      Line(elapsed, "elapsed time: ", diff);
      var n, m := 15 + |Render(t1)|, 15 + |Render(diff)|;
      assert current[..n] == CurrentLine(t1);
      assert elapsed[..m] == ElapsedLine(diff);
      Strcat(current, n, elapsed[..m]);
      text := current[..n + m];
    }

    /** Lines 66-74: there is no earlier time. */
    method OneLine() returns (text: string)
      requires Fits(t1)
      ensures text == CurrentLine(t1)
    {
      var current := new char[1000];
      Line(current, "current time: ", t1);
      var n := 15 + |Render(t1)|;
      assert |CurrentLine(t1)| == n;
      text := current[..n];
    }

    /** Needs no more than the buffers do: that either time fits its `char[21]`. */
    method Read(r: Request) returns (a: Answer)
      requires TextsFit(t0, r.now)
      modifies this
      ensures Outcome(State(), a) == ReadOnce(old(State()), r)
    {
      t1 := r.now;
      var text;
      if t0.nsec > 0 {
        text := BothLines();
      } else {
        text := OneLine();
      }
      bufLen := AsChar(|text|);
      if r.pos > 0 || r.count < AsSize(bufLen) {
        return Answer(0, r.pos, "");
      }
      if r.fault {
        return Answer(-EFAULT, r.pos, "");
      }
      t0 := t1;
      return Answer(bufLen, bufLen, text);
    }
  }
}
