/** What the reads of the timer tell their readers: each text, and what a run of them adds up to. */
module Readings {
  import opened TimeText
  import opened MyTimer

  // ---------- what a text says ----------

  datatype Said = Nothing | Current(now: Time) | Both(now: Time, elapsed: Time)

  /** A line that consists of a label and a time. */
  predicate Labelled(line: string, name: string) {
    name <= line && IsTime(line[|name|..])
  }

  /** What a reader takes from a text: a line with the current time, and perhaps one with the time elapsed. */
  function Says(text: string): Said {
    var first, rest := Before(text, '\n'), After(text, '\n');
    var second := Before(rest, '\n');
    if '\n' !in text || !Labelled(first, "current time: ") then Nothing
    else if rest == "" then Current(TimeIn(first[14..]))
    else if '\n' in rest && After(rest, '\n') == "" && Labelled(second, "elapsed time: ") then
      Both(TimeIn(first[14..]), TimeIn(second[14..]))
    else Nothing
  }

  lemma {:induction false} DecOneLine(n: nat)
    ensures '\n' !in Dec(n)
  {
    DecReads(n);
  }

  lemma LineSplits(name: string, t: Time, rest: string)
    requires '\n' !in name
    ensures var line, text := name + Render(t), name + Render(t) + "\n" + rest;
      && Before(text, '\n') == line && After(text, '\n') == rest && '\n' in text
      && Labelled(line, name) && line[|name|..] == Render(t) && TimeIn(line[|name|..]) == t
  {
    DecOneLine(if t.sec < 0 then -t.sec else t.sec);
    DecOneLine(if t.nsec < 0 then -t.nsec else t.nsec);
    var line := name + Render(t);
    assert line[|name|..] == Render(t);
    RenderReadsBack(t);
    SplitAt(line, '\n', rest);
  }

  /** A report says the current time, and with an earlier time also the difference. */
  lemma ReportSays(t0: Time, now: Time)
    ensures Says(Report(t0, now)) == if t0.nsec > 0 then Both(now, Sub(now, t0)) else Current(now)
  {
    var d := Sub(now, t0);
    LineSplits("elapsed time: ", d, "");
    assert ElapsedLine(d) + "" == ElapsedLine(d);
    if t0.nsec > 0 {
      LineSplits("current time: ", now, ElapsedLine(d));
    } else {
      LineSplits("current time: ", now, "");
      assert CurrentLine(now) + "" == CurrentLine(now);
    }
  }

  // ---------- one read ----------

  /** How many characters there are to hand over: two lines if there is an earlier time. */
  function Size(t0: Time, now: Time): nat {
    15 + |Render(now)| + if t0.nsec > 0 then 15 + |Render(Sub(now, t0))| else 0
  }

  /** The text tells the clock and, with an earlier time, how far it is from there; the count is exact. */
  ghost predicate Tells(g: Globals, now: Time, a: Answer) {
    && a.result == a.pos == |a.text| == Size(g.t0, now)
    && var said := Says(a.text);
       if g.t0.nsec > 0 then
         && said.Both? && said.now == now && Nanos(said.elapsed) == Nanos(now) - Nanos(g.t0)
         && (Normalised(g.t0) && Normalised(now) ==> 0 <= said.elapsed.nsec < 1_000_000_000)
       else said == Current(now)
  }

  /** Nothing is handed over, and 0 or -14 says why. */
  ghost predicate Refuses(g: Globals, r: Request, a: Answer) {
    && a.text == "" && a.pos == r.pos
    && a.result == if r.pos > 0 || r.count < Size(g.t0, r.now) then 0 else -14
  }

  ghost predicate Answers(g: Globals, r: Request, o: Outcome) {
    if r.pos <= 0 && r.count >= Size(g.t0, r.now) && !r.fault
    then Tells(g, r.now, o.a) && o.g.t0 == r.now
    else Refuses(g, r, o.a) && o.g.t0 == g.t0
  }

  /** A read at the start of the file with room for the report, whose copy succeeds, hands over a text
      that tells the time and the time elapsed since the last such read; any other hands over nothing. */
  lemma AnswerExactly(g: Globals, r: Request)
    requires TextsFit(g.t0, r.now)
    ensures Answers(g, r, ReadOnce(g, r))
  {
    hide Says, Render, Fits;
    ReportSays(g.t0, r.now);
    SubExact(r.now, g.t0);
    SizeFits(g.t0, r.now);
  }

  lemma SizeFits(t0: Time, now: Time)
    requires TextsFit(t0, now)
    ensures |Report(t0, now)| == Size(t0, now) <= 70
    ensures AsChar(Size(t0, now)) == Size(t0, now) && AsSize(Size(t0, now)) == Size(t0, now)
  {
  }

  // ---------- runs of reads ----------

  /** The elapsed times that the texts of a run of reads tell. */
  function Reported(g: Globals, rs: seq<Request>): seq<Time>
    decreases rs
  {
    if rs == [] then []
    else
      var o := ReadOnce(g, rs[0]);
      var said := Says(o.a.text);
      (if said.Both? then [said.elapsed] else []) + Reported(o.g, rs[1..])
  }

  /** The current times that they tell. */
  function Shown(g: Globals, rs: seq<Request>): seq<Time>
    decreases rs
  {
    if rs == [] then []
    else
      var o := ReadOnce(g, rs[0]);
      var said := Says(o.a.text);
      (if said.Nothing? then [] else [said.now]) + Shown(o.g, rs[1..])
  }

  /** The clock values of the reads that handed text over. */
  function Accepted(t0: Time, rs: seq<Request>): seq<Time>
    decreases rs
  {
    if rs == [] then []
    else if Accepts(t0, rs[0]) then [rs[0].now] + Accepted(rs[0].now, rs[1..])
    else Accepted(t0, rs[1..])
  }

  /** The steps from each time to the next, starting at `t`, but for those that start on a full second. */
  function Gaps(t: Time, ts: seq<Time>): seq<Time>
    decreases ts
  {
    if ts == [] then [] else (if t.nsec > 0 then [Sub(ts[0], t)] else []) + Gaps(ts[0], ts[1..])
  }

  lemma OneReadSays(g: Globals, r: Request)
    ensures Says(ReadOnce(g, r).a.text) ==
            if !Accepts(g.t0, r) then Nothing
            else if g.t0.nsec > 0 then Both(r.now, Sub(r.now, g.t0))
            else Current(r.now)
    ensures ReadOnce(g, r).g.t0 == if Accepts(g.t0, r) then r.now else g.t0
  {
    hide Report;
    ReportSays(g.t0, r.now);
  }

  /** Rejected reads leave no trace in what later reads tell: the current times are the clock at the
      answered reads, and the elapsed times the steps from each of them to the next. */
  lemma {:induction false} RejectedReadsLeaveNoTrace(g: Globals, rs: seq<Request>)
    ensures Shown(g, rs) == Accepted(g.t0, rs)
    ensures Reported(g, rs) == Gaps(g.t0, Shown(g, rs))
    decreases rs
  {
    hide Says, ReadOnce;
    if rs != [] {
      OneReadSays(g, rs[0]);
      RejectedReadsLeaveNoTrace(ReadOnce(g, rs[0]).g, rs[1..]);
      if Accepts(g.t0, rs[0]) {
        var ts := Accepted(rs[0].now, rs[1..]);
        assert ([rs[0].now] + ts)[1..] == ts;
      }
    }
  }

  function Total(ts: seq<Time>): int {
    if ts == [] then 0 else Nanos(ts[0]) + Total(ts[1..])
  }

  /** The time that passes between answered reads without being reported. */
  function Unreported(t: Time, ts: seq<Time>): int
    decreases ts
  {
    if ts == [] then 0
    else (if t.nsec > 0 then 0 else Nanos(ts[0]) - Nanos(t)) + Unreported(ts[0], ts[1..])
  }

  function Last(t: Time, ts: seq<Time>): Time {
    if ts == [] then t else ts[|ts| - 1]
  }

  lemma {:induction false} GapsTelescope(t: Time, ts: seq<Time>)
    ensures Total(Gaps(t, ts)) + Unreported(t, ts) == Nanos(Last(t, ts)) - Nanos(t)
    decreases ts
  {
    if ts != [] {
      GapsTelescope(ts[0], ts[1..]);
      SubExact(ts[0], t);
      var rest := Gaps(ts[0], ts[1..]);
      if t.nsec > 0 {
        assert Gaps(t, ts)[1..] == rest;
      } else {
        assert Gaps(t, ts) == rest;
      }
    }
  }

  /** Whenever a time is on a full second, the clock does not show less in the next one. */
  ghost predicate Steady(ts: seq<Time>) {
    forall i :: 0 <= i < |ts| - 1 ==> ts[i].nsec > 0 || Nanos(ts[i]) <= Nanos(ts[i + 1])
  }

  /** No time passes between a full second and the time after it. */
  ghost predicate NothingMissed(ts: seq<Time>) {
    forall i :: 0 <= i < |ts| - 1 ==> ts[i].nsec > 0 || Nanos(ts[i]) == Nanos(ts[i + 1])
  }

  /** Both predicates, from the second time on. */
  lemma FromSecond(ts: seq<Time>)
    requires |ts| > 1
    ensures Steady(ts) <==> (ts[0].nsec > 0 || Nanos(ts[0]) <= Nanos(ts[1])) && Steady(ts[1..])
    ensures NothingMissed(ts) <==> (ts[0].nsec > 0 || Nanos(ts[0]) == Nanos(ts[1])) && NothingMissed(ts[1..])
  {
    assert forall i :: 0 <= i < |ts| - 1 ==> ts[1..][i] == ts[i + 1];
    if (ts[0].nsec > 0 || Nanos(ts[0]) <= Nanos(ts[1])) && Steady(ts[1..]) {
      forall i | 0 <= i < |ts| - 1
        ensures ts[i].nsec > 0 || Nanos(ts[i]) <= Nanos(ts[i + 1])
      {
        assert i > 0 ==> ts[1..][i - 1] == ts[i] && ts[1..][i] == ts[i + 1];
      }
    }
    if (ts[0].nsec > 0 || Nanos(ts[0]) == Nanos(ts[1])) && NothingMissed(ts[1..]) {
      forall i | 0 <= i < |ts| - 1
        ensures ts[i].nsec > 0 || Nanos(ts[i]) == Nanos(ts[i + 1])
      {
        assert i > 0 ==> ts[1..][i - 1] == ts[i] && ts[1..][i] == ts[i + 1];
      }
    }
  }

  lemma {:induction false} UnreportedExactly(t: Time, ts: seq<Time>)
    requires Steady([t] + ts)
    ensures Unreported(t, ts) >= 0
    ensures Unreported(t, ts) == 0 <==> NothingMissed([t] + ts)
    decreases ts
  {
    if ts != [] {
      assert [ts[0]] + ts[1..] == ts == ([t] + ts)[1..];
      FromSecond([t] + ts);
      UnreportedExactly(ts[0], ts[1..]);
    }
  }

  /** From a fresh module, whatever was rejected in between, the elapsed times add up to the time from
      the first answered read to the last one, less what the program misses after a read on a full second. */
  lemma Telescoping(g: Globals, rs: seq<Request>)
    requires g.t0.nsec == 0 && Shown(g, rs) != []
    ensures var ts := Shown(g, rs);
            Total(Reported(g, rs)) == Nanos(ts[|ts| - 1]) - Nanos(ts[0]) - Unreported(ts[0], ts[1..])
  {
    hide Reported, Shown, Sub, Nanos;
    var ts := Shown(g, rs);
    RejectedReadsLeaveNoTrace(g, rs);
    GapsTelescope(ts[0], ts[1..]);
    assert Gaps(g.t0, ts) == Gaps(ts[0], ts[1..]);
    assert Last(ts[0], ts[1..]) == ts[|ts| - 1];
  }

  /** With a clock that does not run backward after a full second, nothing is missed if and only if
      whenever an answered read was on a full second, the clock still stood at it in the next one. Line
      27 takes a full second for no earlier time; the clock stands still between two ticks. */
  lemma TelescopesExactlyWhen(g: Globals, rs: seq<Request>)
    requires g.t0.nsec == 0 && Shown(g, rs) != []
    requires var ts := Shown(g, rs);
      forall i :: 0 <= i < |ts| - 1 ==> ts[i].nsec > 0 || Nanos(ts[i]) <= Nanos(ts[i + 1])
    ensures var ts := Shown(g, rs);
            Total(Reported(g, rs)) == Nanos(ts[|ts| - 1]) - Nanos(ts[0])
            <==> forall i :: 0 <= i < |ts| - 1 ==> ts[i].nsec > 0 || Nanos(ts[i]) == Nanos(ts[i + 1])
  {
    var ts := Shown(g, rs);
    Telescoping(g, rs);
    assert [ts[0]] + ts[1..] == ts;
    assert Steady(ts);
    UnreportedExactly(ts[0], ts[1..]);
  }

  /** Whatever the clock does, the sum is exact if no answered read but the last is on a full second. */
  lemma TelescopesWithAnyClock(g: Globals, rs: seq<Request>)
    requires g.t0.nsec == 0 && Shown(g, rs) != []
    requires forall i :: 0 <= i < |Shown(g, rs)| - 1 ==> Shown(g, rs)[i].nsec > 0
    ensures var ts := Shown(g, rs);
            Total(Reported(g, rs)) == Nanos(ts[|ts| - 1]) - Nanos(ts[0])
  {
    TelescopesExactlyWhen(g, rs);
  }

  /** Two answered reads, the first of them on a full second: the second tells no elapsed time. */
  lemma FullSecondIsMissed(g: Globals)
    requires g.t0 == Time(0, 0)
    ensures var rs := [Request(Time(1, 0), 0, 4096, false), Request(Time(2, 5), 0, 4096, false)];
            Reported(g, rs) == [] && Shown(g, rs) == [Time(1, 0), Time(2, 5)]
  {
    hide Says, ReadOnce, Report, AsSize, AsChar, Render, Fits;
    var a, b := Request(Time(1, 0), 0, 4096, false), Request(Time(2, 5), 0, 4096, false);
    assert [a, b][1..] == [b] && [b][1..] == [];
    ReportFits(Time(0, 0), Time(1, 0));
    ReportFits(Time(1, 0), Time(2, 5));
    assert Accepts(g.t0, a) && Accepts(a.now, b);
    assert Accepted(a.now, [b]) == [b.now] + Accepted(b.now, []) == [b.now];
    assert Accepted(g.t0, [a, b]) == [a.now] + Accepted(a.now, [b]) == [a.now, b.now];
    RejectedReadsLeaveNoTrace(g, [a, b]);
    assert [a.now, b.now][1..] == [b.now] && [b.now][1..] == [];
    assert Gaps(a.now, [b.now]) == Gaps(b.now, []) == [];
  }

  /** Every elapsed time told has its nanoseconds in range. */
  lemma {:induction false} ReportedNormalised(g: Globals, rs: seq<Request>)
    requires Normalised(g.t0) && forall i :: 0 <= i < |rs| ==> Normalised(rs[i].now)
    ensures forall i :: 0 <= i < |Reported(g, rs)| ==> Normalised(Reported(g, rs)[i])
    decreases rs
  {
    hide Says, ReadOnce, Accepts;
    if rs != [] {
      SubExact(rs[0].now, g.t0);
      OneReadSays(g, rs[0]);
      assert forall i :: 0 <= i < |rs[1..]| ==> rs[1..][i] == rs[i + 1];
      ReportedNormalised(ReadOnce(g, rs[0]).g, rs[1..]);
    }
  }

  /** All reads of a run find room in the buffers and are answered as AnswerExactly says. */
  ghost predicate RunAnswered(g: Globals, rs: seq<Request>)
    decreases rs
  {
    rs == [] || (&& TextsFit(g.t0, rs[0].now) && Size(g.t0, rs[0].now) <= 70
                 && Answers(g, rs[0], ReadOnce(g, rs[0]))
                 && RunAnswered(ReadOnce(g, rs[0]).g, rs[1..]))
  }

  /** With a clock in range that never runs backward, no run of reads overruns a buffer, and every
      text tells the truth. */
  lemma {:induction false} EveryReadFits(g: Globals, rs: seq<Request>)
    requires InEra(g.t0) && forall i :: 0 <= i < |rs| ==> InEra(rs[i].now) && Nanos(g.t0) <= Nanos(rs[i].now)
    requires forall i, j :: 0 <= i < j < |rs| ==> Nanos(rs[i].now) <= Nanos(rs[j].now)
    ensures RunAnswered(g, rs)
    decreases rs
  {
    hide Answers, ReadOnce, TextsFit, Size;
    if rs != [] {
      ReportFits(g.t0, rs[0].now);
      SizeFits(g.t0, rs[0].now);
      AnswerExactly(g, rs[0]);
      OneReadSays(g, rs[0]);
      assert forall i :: 0 <= i < |rs[1..]| ==> rs[1..][i] == rs[i + 1];
      EveryReadFits(ReadOnce(g, rs[0]).g, rs[1..]);
    }
  }
}
