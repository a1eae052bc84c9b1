/** Passengers, the limits of the building, and facts about lists of passengers. */
module Passengers {
  const FLOORS := 10
  const CAPACITY := 10

  /** One node of a kernel list. `id` is its identity: the number of requests accepted before it. */
  datatype Passenger = Passenger(id: nat, kind: int, start: int, dest: int)

  predicate Human(p: Passenger) {
    p.kind == 0
  }

  predicate Zombie(p: Passenger) {
    p.kind == 1
  }

  /** What `issue_request` checks about its arguments. */
  predicate Acceptable(start: int, dest: int, kind: int) {
    && 0 <= kind <= 1
    && 1 <= start <= FLOORS
    && 1 <= dest <= FLOORS
  }

  /** All the lists of `qs`, one after the other. */
  function Flat(qs: seq<seq<Passenger>>): seq<Passenger> {
    if qs == [] then [] else qs[0] + Flat(qs[1..])
  }

  /** Replacing one list exchanges exactly its elements. */
  lemma {:induction false} FlatUpdate(qs: seq<seq<Passenger>>, i: nat, q: seq<Passenger>)
    requires i < |qs|
    ensures multiset(Flat(qs[i := q])) + multiset(qs[i]) == multiset(Flat(qs)) + multiset(q)
    ensures |Flat(qs[i := q])| + |qs[i]| == |Flat(qs)| + |q|
  {
    if i == 0 {
      assert qs[0 := q][1..] == qs[1..];
    } else {
      assert qs[i := q][1..] == qs[1..][i - 1 := q];
      var tail := qs[1..];
      FlatUpdate(tail, i - 1, q);
      assert Flat(qs) == qs[0] + Flat(tail);
      assert Flat(qs[i := q]) == qs[0] + Flat(tail[i - 1 := q]);
      var m, h := multiset(Flat(tail[i - 1 := q])), multiset(qs[0]);
      assert (h + m) + multiset(qs[i]) == h + (m + multiset(tail[i - 1]));
      assert h + (multiset(Flat(tail)) + multiset(q)) == (h + multiset(Flat(tail))) + multiset(q);
    }
  }

  lemma Cancel(a: multiset<Passenger>, b: multiset<Passenger>, c: multiset<Passenger>)
    requires a + c == b + c
    ensures a == b
  {
    assert (a + c) - c == a && (b + c) - c == b;
  }

  /** Taking `out` away from one list, and adding `extra` to it, as multisets. */
  lemma FlatExchange(qs: seq<seq<Passenger>>, i: nat, q: seq<Passenger>,
                     out: multiset<Passenger>, extra: multiset<Passenger>)
    requires i < |qs| && multiset(q) + out == multiset(qs[i]) + extra
    ensures multiset(Flat(qs[i := q])) + out == multiset(Flat(qs)) + extra
  {
    FlatUpdate(qs, i, q);
    var m, m', a, b := multiset(Flat(qs)), multiset(Flat(qs[i := q])), multiset(qs[i]), multiset(q);
    assert (m' + out) + (a + b) == (m' + a) + (b + out);
    assert (m + extra) + (a + b) == (m + b) + (a + extra);
    Cancel(m' + out, m + extra, a + b);
  }

  lemma {:induction false} FlatMember(qs: seq<seq<Passenger>>, p: Passenger)
    ensures p in Flat(qs) <==> exists i :: 0 <= i < |qs| && p in qs[i]
  {
    if qs != [] {
      FlatMember(qs[1..], p);
      if p in Flat(qs[1..]) {
        var j :| 0 <= j < |qs[1..]| && p in qs[1..][j];
        assert p in qs[j + 1];
      }
      if i :| 0 <= i < |qs| && p in qs[i] && i > 0 {
        assert qs[1..][i - 1] == qs[i];
      }
    }
  }

  lemma {:induction false} FlatAppend(qs: seq<seq<Passenger>>, q: seq<Passenger>)
    ensures Flat(qs + [q]) == Flat(qs) + q
  {
    if qs == [] {
      assert [] + [q] == [q] && Flat([q]) == q + Flat([]);
    } else {
      assert (qs + [q])[1..] == qs[1..] + [q];
      FlatAppend(qs[1..], q);
    }
  }

  lemma {:induction false} FlatEmpty(qs: seq<seq<Passenger>>)
    ensures Flat(qs) == [] <==> forall i :: 0 <= i < |qs| ==> qs[i] == []
  {
    if qs != [] {
      FlatEmpty(qs[1..]);
      assert forall i :: 0 < i < |qs| ==> qs[i] == qs[1..][i - 1];
      assert Flat(qs[1..]) == [] ==> forall i :: 0 < i < |qs| ==> qs[i] == [];
    }
  }

  /** Node `i` names the passenger accepted after `i` others, so no two nodes are the same. */
  ghost predicate Numbered(s: seq<Passenger>) {
    forall i :: 0 <= i < |s| ==> s[i].id == i
  }

  lemma NumberedOnce(s: seq<Passenger>, p: Passenger)
    requires Numbered(s)
    ensures multiset(s)[p] <= 1
    ensures p in s ==> p.id < |s| && s[p.id] == p
  {
    if p in s {
      var i :| 0 <= i < |s| && s[i] == p;
      assert s == s[..i] + [p] + s[i + 1..];
      assert p !in s[..i] && p !in s[i + 1..];
    }
  }

  /** In arrival order. */
  ghost predicate Ordered(s: seq<Passenger>) {
    forall i, j :: 0 <= i < j < |s| ==> s[i].id < s[j].id
  }
}
