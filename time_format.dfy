/**
 * getTimeLeft: a positive number of seconds shown as at most `n` of its
 * non-zero days, hours, minutes and seconds, largest first, joined by ", ".
 * The unit names always carry the plural "s" ("1 Days").
 */
module TimeFormat {
  import opened Text

  datatype Duration = Duration(days: nat, hours: nat, mins: nat, secs: nat)

  /** The days/hours/minutes/seconds decomposition of a number of seconds. */
  function Decompose(total: nat): (d: Duration)
    ensures d.days * 86400 + d.hours * 3600 + d.mins * 60 + d.secs == total
    ensures d.hours < 24 && d.mins < 60 && d.secs < 60
  {
    var r1 := total % 86400;
    var r2 := r1 % 3600;
    Duration(total / 86400, r1 / 3600, r2 / 60, r2 % 60)
  }

  /** The decomposition is the only one with hours, minutes and seconds in range. */
  lemma DecomposeUnique(total: nat, d: Duration)
    requires d.days * 86400 + d.hours * 3600 + d.mins * 60 + d.secs == total
    requires d.hours < 24 && d.mins < 60 && d.secs < 60
    ensures d == Decompose(total)
  {
    var e := Decompose(total);
    var rd := d.hours * 3600 + d.mins * 60 + d.secs;
    var re := e.hours * 3600 + e.mins * 60 + e.secs;
    assert rd < 86400 && re < 86400;
    assert d.days == e.days;
    assert rd == re;
    assert d.mins * 60 + d.secs < 3600 && e.mins * 60 + e.secs < 3600;
    assert d.hours == e.hours;
    assert d.mins == e.mins;
  }

  /** fmt::format("{} Day{}", v, "s") and its siblings: the count, a space and the plural unit. */
  function Label(v: nat, unit: string): string
  {
    NatToString(v) + " " + unit
  }

  /** One part of the text, or nothing for a zero component. */
  function Part(v: nat, unit: string): (r: seq<string>)
    ensures v > 0 ==> |r| == 1 && r[0] != ""
    ensures v == 0 ==> r == []
  {
    if v > 0 then [Label(v, unit)] else []
  }

  function Parts(d: Duration): (r: seq<string>)
    ensures forall i :: 0 <= i < |r| ==> r[i] != ""
  {
    Part(d.days, "Days") + Part(d.hours, "Hrs") + Part(d.mins, "Mins") + Part(d.secs, "Secs")
  }

  /** The first `n` elements, or all of them when there are fewer. */
  function Take(xs: seq<string>, n: int): (r: seq<string>)
    requires n > 0
    ensures r == xs[..if n < |xs| then n else |xs|]
  {
    if n < |xs| then xs[..n] else xs
  }

  /** What getTimeLeft(secs, n) returns. */
  function TimeLeft(secs: int, n: int): (r: string)
    ensures r == "" <==> secs <= 0 || n <= 0
  {
    if secs <= 0 || n <= 0 then ""
    else
      var ps := Parts(Decompose(secs));
      assert ps != [] by {
        var d := Decompose(secs);
        assert d.days > 0 || d.hours > 0 || d.mins > 0 || d.secs > 0;
      }
      JoinFirstNonEmpty(", ", Take(ps, n));
      Join(", ", Take(ps, n))
  }

  lemma {:induction false} JoinFirstNonEmpty(sep: string, xs: seq<string>)
    requires |xs| > 0 && xs[0] != ""
    ensures Join(sep, xs) != ""
    decreases |xs|
  {
    if |xs| > 1 {
      JoinFirstNonEmpty(sep, xs[..|xs| - 1]);
    }
  }

  /** One guarded step of getTimeLeft: a non-zero component is shown while fewer than `n` are. */
  function ShowPart(acc: seq<string>, v: int, unit: string, n: int): seq<string>
  {
    if v > 0 && n > |acc| then acc + [Label(v, unit)] else acc
  }

  lemma TakeStep(ps: seq<string>, v: nat, unit: string, n: int)
    requires n > 0
    ensures ShowPart(Take(ps, n), v, unit, n) == Take(ps + Part(v, unit), n)
  {
    if v > 0 && n > |ps| {
      assert Take(ps, n) == ps;
    }
  }

  lemma Peel(x: int, size: int)
    requires x >= 0 && size > 0
    ensures x - (x / size) * size == x % size
    ensures x / size == 0 ==> x == x % size
  {
  }

  /** The guarded steps of getTimeLeft, applied to a decomposition, show its first `n` parts. */
  lemma ShowAll(d: Duration, n: int)
    requires n > 0
    ensures ShowPart(ShowPart(ShowPart(ShowPart([], d.days, "Days", n), d.hours, "Hrs", n), d.mins, "Mins", n), d.secs, "Secs", n)
            == Take(Parts(d), n)
  {
    var a := Part(d.days, "Days");
    var b := Part(d.hours, "Hrs");
    var c := Part(d.mins, "Mins");
    assert Take([], n) == [];
    TakeStep([], d.days, "Days", n);
    assert [] + a == a;
    TakeStep(a, d.hours, "Hrs", n);
    TakeStep(a + b, d.mins, "Mins", n);
    TakeStep(a + b + c, d.secs, "Secs", n);
  }

  /**
   * One component step of getTimeLeft: when the component is non-zero and fewer
   * than `n` parts are shown, its label is appended after ", " and `v * size`
   * seconds are taken off (the seconds step passes a size of 0: it takes nothing off).
   */
  method ShowComponent(timeLeft: string, secsLeft: int, shown: int, v: int, size: int, unit: string, n: int, ghost parts: seq<string>)
    returns (timeLeft': string, secsLeft': int, shown': int, ghost parts': seq<string>)
    requires forall i :: 0 <= i < |parts| ==> parts[i] != ""
    requires timeLeft == Join(", ", parts) && shown == |parts|
    ensures forall i :: 0 <= i < |parts'| ==> parts'[i] != ""
    ensures parts' == ShowPart(parts, v, unit, n)
    ensures timeLeft' == Join(", ", parts') && shown' == |parts'|
    ensures secsLeft' == if v > 0 && n > shown then secsLeft - v * size else secsLeft
  {
    timeLeft', secsLeft', shown', parts' := timeLeft, secsLeft, shown, parts;
    if v > 0 && n > shown {
      JoinSnoc(", ", parts, Label(v, unit));
      timeLeft' := AppendSep(timeLeft, ", ", Label(v, unit));
      parts' := parts + [Label(v, unit)];
      secsLeft' := secsLeft - v * size;
      shown' := shown + 1;
    }
  }

  /** getTimeLeft: days, hours, minutes and seconds in turn, each taken off the remaining seconds once shown. */
  method GetTimeLeft(secs: int, intervalsToShow: int) returns (timeLeft: string)
    ensures timeLeft == TimeLeft(secs, intervalsToShow)
  {
    timeLeft := "";
    var secsLeft := secs;
    var shown := 0;
    ghost var parts: seq<string> := [];
    if secsLeft > 0 {
      ghost var d := Decompose(secs);
      ghost var n := intervalsToShow;
      Peel(secsLeft, 86400);
      var days := secsLeft / 86400;
      timeLeft, secsLeft, shown, parts := ShowComponent(timeLeft, secsLeft, shown, days, 86400, "Days", intervalsToShow, parts);
      ghost var daysShown := parts;
      assert daysShown == ShowPart([], d.days, "Days", n);
      assert n > shown ==> secsLeft == secs % 86400;
      Peel(secsLeft, 3600);
      var hours := secsLeft / 3600;
      timeLeft, secsLeft, shown, parts := ShowComponent(timeLeft, secsLeft, shown, hours, 3600, "Hrs", intervalsToShow, parts);
      ghost var hoursShown := parts;
      assert hoursShown == ShowPart(daysShown, d.hours, "Hrs", n);
      assert n > shown ==> secsLeft == secs % 86400 % 3600;
      Peel(secsLeft, 60);
      var mins := secsLeft / 60;
      timeLeft, secsLeft, shown, parts := ShowComponent(timeLeft, secsLeft, shown, mins, 60, "Mins", intervalsToShow, parts);
      ghost var minsShown := parts;
      assert minsShown == ShowPart(hoursShown, d.mins, "Mins", n);
      assert n > shown ==> secsLeft == d.secs;
      timeLeft, secsLeft, shown, parts := ShowComponent(timeLeft, secsLeft, shown, secsLeft, 0, "Secs", intervalsToShow, parts);
      assert parts == ShowPart(minsShown, d.secs, "Secs", n);
      if n > 0 {
        ShowAll(d, n);
        assert parts == Take(Parts(d), n);
        TimeLeftPositive(secs, n);
      } else {
        assert parts == [];
      }
    }
  }

  lemma TimeLeftPositive(secs: int, n: int)
    requires secs > 0 && n > 0
    ensures TimeLeft(secs, n) == Join(", ", Take(Parts(Decompose(secs)), n))
  {
  }

  /** An example on one input: a whole day shows one part only. */
  lemma OneDay()
    ensures TimeLeft(86400, 2) == "1 Days"
  {
    assert Decompose(86400) == Duration(1, 0, 0, 0);
    assert NatToString(1) == "1";
    assert Label(1, "Days") == "1 Days";
    assert Parts(Duration(1, 0, 0, 0)) == ["1 Days"];
  }

  /** An example on one input: of four non-zero parts, only the first two are shown. */
  lemma TwoPartsShown()
    ensures TimeLeft(90061, 2) == "1 Days, 1 Hrs"
  {
    TimeLeftPositive(90061, 2);
    var d := Decompose(90061);
    assert d == Duration(1, 1, 1, 1);
    var days, hrs := Label(1, "Days"), Label(1, "Hrs");
    assert Parts(d) == [days, hrs, Label(1, "Mins"), Label(1, "Secs")];
    assert Take(Parts(d), 2) == [days, hrs];
    assert Join(", ", [days, hrs]) == days + ", " + hrs;
    assert NatToString(1) == "1";
  }

  /** An example on one input: zero days and minutes are skipped before counting the parts shown. */
  lemma ZeroComponentsSkipped()
    ensures TimeLeft(3605, 2) == "1 Hrs, 5 Secs"
  {
    TimeLeftPositive(3605, 2);
    var d := Decompose(3605);
    assert d == Duration(0, 1, 0, 5);
    var hrs, secs := Label(1, "Hrs"), Label(5, "Secs");
    assert Parts(d) == [hrs, secs];
    assert Take(Parts(d), 2) == [hrs, secs];
    assert Join(", ", [hrs, secs]) == hrs + ", " + secs;
    assert NatToString(5) == "5" && NatToString(1) == "1";
  }
}
