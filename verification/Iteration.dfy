/** Repeating a step, and the measure argument for a step that makes progress once every `period` times. */
module Iteration {
  function Iterate<T>(f: T -> T, x: T, n: nat): T
    decreases n
  {
    if n == 0 then x else Iterate(f, f(x), n - 1)
  }

  lemma {:induction false} Compose<T>(f: T -> T, x: T, m: nat, n: nat)
    ensures Iterate(f, x, m + n) == Iterate(f, Iterate(f, x, m), n)
    decreases m
  {
    if m > 0 {
      Compose(f, f(x), m - 1, n);
    }
  }

  lemma {:induction false} Keeps<T(!new)>(f: T -> T, p: T -> bool, x: T, n: nat)
    requires p(x) && forall y {:trigger f(y)} :: p(y) ==> p(f(y))
    ensures p(Iterate(f, x, n))
    decreases n
  {
    if n > 0 {
      Keeps(f, p, f(x), n - 1);
    }
  }

  lemma {:induction false} Counts<T(!new)>(f: T -> T, count: T -> int, x: T, n: nat)
    requires forall y {:trigger f(y)} :: count(f(y)) == count(y) + 1
    ensures count(Iterate(f, x, n)) == count(x) + n
    decreases n
  {
    if n > 0 {
      Counts(f, count, f(x), n - 1);
    }
  }

  /** What the `i`-th step does for every `i`. */
  lemma {:induction false} Marches<T(!new)>(f: T -> T, p: (T, nat) -> bool, x: T, i: nat, n: nat)
    requires i <= n && p(x, i)
    requires forall y, j: nat {:trigger p(y, j)} :: j < n && p(y, j) ==> p(f(y), j + 1)
    ensures p(Iterate(f, x, n - i), n)
    decreases n - i
  {
    if i < n {
      Marches(f, p, f(x), i + 1, n);
    }
  }

  /** `work` never grows. */
  lemma Descends<T(!new)>(f: T -> T, inv: T -> bool, work: T -> nat, x: T, n: nat)
    requires inv(x) && forall y {:trigger f(y)} :: inv(y) ==> inv(f(y)) && work(f(y)) <= work(y)
    ensures inv(Iterate(f, x, n)) && work(Iterate(f, x, n)) <= work(x)
  {
    Keeps(f, (y: T) => inv(y) && work(y) <= work(x), x, n);
  }

  /** If the step after `j` others does some work, or one of those did, then `n > j` steps do some. */
  lemma Dips<T(!new)>(f: T -> T, inv: T -> bool, work: T -> nat, x: T, j: nat, n: nat)
    requires inv(x) && forall y {:trigger f(y)} :: inv(y) ==> inv(f(y)) && work(f(y)) <= work(y)
    requires j < n
    requires work(Iterate(f, x, j)) == work(x) ==> work(f(Iterate(f, x, j))) < work(x)
    ensures work(Iterate(f, x, n)) < work(x)
  {
    var y := Iterate(f, x, j);
    Descends(f, inv, work, x, j);
    Compose(f, x, j, n - j);
    assert Iterate(f, y, n - j) == Iterate(f, f(y), n - j - 1);
    Descends(f, inv, work, f(y), n - j - 1);
  }

  /** If `period` steps always do some work unless the state is settled, `period` steps for every unit
      of work settle it, and more steps leave it settled. */
  lemma {:induction false} Settles<T(!new)>(f: T -> T, inv: T -> bool, settled: T -> bool, work: T -> nat,
                                            period: nat, x: T, m: nat)
    requires inv(x) && forall y {:trigger f(y)} :: inv(y) ==> inv(f(y)) && work(f(y)) <= work(y)
    requires forall y {:trigger f(y)} :: inv(y) && settled(y) ==> settled(f(y))
    requires forall y {:trigger Iterate(f, y, period)} ::
               inv(y) && !settled(y) ==> work(Iterate(f, y, period)) < work(y)
    requires m >= period * work(x)
    ensures settled(Iterate(f, x, m))
    decreases work(x)
  {
    if settled(x) {
      Keeps(f, (y: T) => inv(y) && settled(y), x, m);
    } else {
      var y := Iterate(f, x, period);
      assert work(y) < work(x);
      Multiply(period, work(y), work(x));
      Descends(f, inv, work, x, period);
      Compose(f, x, period, m - period);
      Settles(f, inv, settled, work, period, y, m - period);
    }
  }

  lemma Multiply(period: nat, a: nat, b: nat)
    requires a < b
    ensures period * a + period <= period * b
  {
    var d := b - a - 1;
    assert b == a + 1 + d;
    assert period * (a + 1 + d) == period * (a + 1) + period * d;
    assert period * (a + 1) == period * a + period;
    assert period * d >= 0;
  }
}
