/** The older schedule editor: frequency, time and weekdays are state set from
    the buttons, and an effect turns them into a cron string passed to
    `onChange`. It never parses the cron it is given. */
module LegacySchedule {
  import opened Text
  import opened Order
  import opened JsNumber
  import ES = EnvironmentSchedule

  datatype Frequency = Manual | Hourly | Daily | Weekly | Custom

  // ---------------------------------------------------------------------------
  // The cron string
  // ---------------------------------------------------------------------------

  /** The hour of `time.split(':')`. */
  function HourText(time: string): string {
    Split(time, ':')[0]
  }

  /** The minute of `time.split(':')` as a template literal renders it:
      `undefined` when the time has no ':'. */
  function MinuteText(time: string): string {
    var p := Split(time, ':');
    if |p| > 1 then p[1] else "undefined"
  }

  function DayStrings(days: seq<int>): (r: seq<string>)
    ensures |r| == |days|
    ensures forall k :: 0 <= k < |days| ==> r[k] == IntToString(days[k])
  {
    seq(|days|, k requires 0 <= k < |days| => IntToString(days[k]))
  }

  /** The day-of-week field: the days joined by commas, or `*` without any. */
  function DayList(days: seq<int>): string {
    if |days| > 0 then Join(DayStrings(days), ",") else "*"
  }

  /** The if-chain building the cron string; it stays empty for the manual and
      custom frequencies, and is never empty otherwise. */
  function CronOf(f: Frequency, time: string, days: seq<int>): (r: string)
    ensures r == "" <==> f == Manual || f == Custom
  {
    match f
    case Hourly => ES.Fields(MinuteText(time), "*", "*", "*", "*")
    case Daily => ES.Fields(MinuteText(time), HourText(time), "*", "*", "*")
    case Weekly => ES.Fields(MinuteText(time), HourText(time), "*", "*", DayList(days))
    case _ => ""
  }

  /** What one run of the encoding effect passes to `onChange` when the current
      value is `value`: the manual frequency always passes the empty string, the
      custom one nothing, and the others their cron exactly when it differs from
      the value. */
  function Emitted(f: Frequency, time: string, days: seq<int>, value: string): (r: seq<string>)
    ensures |r| <= 1
    ensures f == Manual ==> r == [""]
    ensures f == Custom ==> r == []
    ensures f != Manual && f != Custom ==> (r == [] <==> CronOf(f, time, days) == value)
    ensures r != [] && f != Manual ==> r == [CronOf(f, time, days)] && r[0] != value
  {
    if f == Manual then [""]
    else
      var c := CronOf(f, time, days);
      if c != "" && c != value then [c] else []
  }

  function EsFrequency(f: Frequency): ES.Freq {
    match f
    case Manual => ES.Manual
    case Hourly => ES.Hourly
    case Daily => ES.Daily
    case Weekly => ES.Weekly
    case Custom => ES.Manual
  }

  function Nums(days: seq<int>): (r: seq<JsNum>)
    ensures |r| == |days|
    ensures forall k :: 0 <= k < |days| ==> r[k] == Num(days[k])
  {
    seq(|days|, k requires 0 <= k < |days| => Num(days[k]))
  }

  /** For a time of the form `HH:MM` this editor and the environment editor
      produce the same cron string for the hourly, daily and weekly frequencies. */
  lemma EncodersAgree(f: Frequency, t: string, days: seq<int>, monthDay: JsNum, month: JsNum)
    requires f == Hourly || f == Daily || f == Weekly
    requires ES.WellFormedTime(t)
    ensures CronOf(f, t, days) == ES.EncodeCron(ES.Sched(EsFrequency(f), t, Nums(days), monthDay, month))
  {
    ES.TimeParts(t);
    if f == Weekly {
      assert ES.Strings(Nums(days)) == DayStrings(days);
    }
  }

  /** Without a ':' the minute is missing: this editor writes `undefined` where
      the environment editor writes `00`. */
  lemma MissingMinute()
    ensures CronOf(Hourly, "9", []) == ES.Fields("undefined", "*", "*", "*", "*")
    ensures ES.EncodeCron(ES.Sched(ES.Hourly, "9", [], Num(1), Num(1))) == ES.Fields("00", "*", "*", "*", "*")
  {
    SplitNoSep("9", ':');
  }

  // ---------------------------------------------------------------------------
  // The weekday list
  // ---------------------------------------------------------------------------

  /** The key `Array.prototype.sort` compares numbers by: their decimal text. */
  function Key(d: int): string {
    IntToString(d)
  }

  lemma KeysDiffer(a: int, b: int)
    requires a != b
    ensures Key(a) != Key(b)
  {
    NumberOfToString(Num(a));
    NumberOfToString(Num(b));
  }

  /** Non-decreasing in text order. */
  predicate KeyOrdered(xs: seq<int>) {
    forall i, j :: 0 <= i < j < |xs| ==> !LexLess(Key(xs[j]), Key(xs[i]))
  }

  /** Strictly increasing in text order, hence free of duplicates. */
  predicate KeySorted(xs: seq<int>) {
    forall i, j :: 0 <= i < j < |xs| ==> LexLess(Key(xs[i]), Key(xs[j]))
  }

  /** Places `d` before the first element whose text is greater. */
  function InsertByKey(xs: seq<int>, d: int): (r: seq<int>)
    ensures multiset(r) == multiset(xs) + multiset{d}
  {
    if |xs| == 0 || LexLess(Key(d), Key(xs[0])) then [d] + xs
    else
      assert xs == [xs[0]] + xs[1..];
      [xs[0]] + InsertByKey(xs[1..], d)
  }

  /** `xs.sort()` on numbers: an insertion sort by decimal text. */
  function StringSort(xs: seq<int>): seq<int> {
    if |xs| == 0 then [] else InsertByKey(StringSort(xs[..|xs| - 1]), xs[|xs| - 1])
  }

  /** An element no greater than any of an ordered list may go in front of it. */
  lemma PrependOrdered(x: int, rest: seq<int>)
    requires KeyOrdered(rest)
    requires forall k :: 0 <= k < |rest| ==> !LexLess(Key(rest[k]), Key(x))
    ensures KeyOrdered([x] + rest)
  {
    var r := [x] + rest;
    forall i, j | 0 <= i < j < |r| ensures !LexLess(Key(r[j]), Key(r[i])) {
      assert r[j] == rest[j - 1];
      if i > 0 {
        assert r[i] == rest[i - 1];
      }
    }
  }

  lemma {:induction false} InsertByKeyOrdered(xs: seq<int>, d: int)
    requires KeyOrdered(xs)
    ensures KeyOrdered(InsertByKey(xs, d))
    decreases |xs|
  {
    if |xs| > 0 && !LexLess(Key(d), Key(xs[0])) {
      var tail := xs[1..];
      var rest := InsertByKey(tail, d);
      assert KeyOrdered(tail) by {
        forall i, j | 0 <= i < j < |tail| ensures !LexLess(Key(tail[j]), Key(tail[i])) {
          assert tail[i] == xs[i + 1] && tail[j] == xs[j + 1];
        }
      }
      InsertByKeyOrdered(tail, d);
      forall k | 0 <= k < |rest| ensures !LexLess(Key(rest[k]), Key(xs[0])) {
        var y := rest[k];
        assert y in multiset(rest);
        if y != d {
          assert y in multiset(tail);
          var m :| 0 <= m < |tail| && tail[m] == y;
          assert xs[m + 1] == y;
        }
      }
      PrependOrdered(xs[0], rest);
    } else if |xs| > 0 {
      forall k | 0 <= k < |xs| ensures !LexLess(Key(xs[k]), Key(d)) {
        LexLessAsymmetric(Key(d), Key(xs[0]));
        if k > 0 && LexLess(Key(xs[k]), Key(d)) {
          LexLessTransitive(Key(xs[k]), Key(d), Key(xs[0]));
        }
      }
      PrependOrdered(d, xs);
    }
  }

  /** The sort returns a permutation of its input in text order. */
  lemma {:induction false} StringSortSpec(xs: seq<int>)
    ensures KeyOrdered(StringSort(xs))
    ensures multiset(StringSort(xs)) == multiset(xs)
    decreases |xs|
  {
    if |xs| > 0 {
      var init := xs[..|xs| - 1];
      StringSortSpec(init);
      InsertByKeyOrdered(StringSort(init), xs[|xs| - 1]);
      assert xs == init + [xs[|xs| - 1]];
    }
  }

  /** An element below every element of a strictly ordered list may go in front
      of it. */
  lemma PrependStrict(x: int, rest: seq<int>)
    requires KeySorted(rest)
    requires forall k :: 0 <= k < |rest| ==> LexLess(Key(x), Key(rest[k]))
    ensures KeySorted([x] + rest)
  {
    var r := [x] + rest;
    forall i, j | 0 <= i < j < |r| ensures LexLess(Key(r[i]), Key(r[j])) {
      assert r[j] == rest[j - 1];
      if i > 0 {
        assert r[i] == rest[i - 1];
      }
    }
  }

  lemma {:induction false} InsertByKeyStrict(xs: seq<int>, d: int)
    requires KeySorted(xs) && d !in xs
    ensures KeySorted(InsertByKey(xs, d))
    decreases |xs|
  {
    if |xs| > 0 && LexLess(Key(d), Key(xs[0])) {
      forall k | 0 <= k < |xs| ensures LexLess(Key(d), Key(xs[k])) {
        if k > 0 {
          LexLessTransitive(Key(d), Key(xs[0]), Key(xs[k]));
        }
      }
      PrependStrict(d, xs);
    } else if |xs| > 0 {
      KeysDiffer(d, xs[0]);
      LexLessTotal(Key(d), Key(xs[0]));
      var tail := xs[1..];
      assert KeySorted(tail) by {
        forall i, j | 0 <= i < j < |tail| ensures LexLess(Key(tail[i]), Key(tail[j])) {
          assert tail[i] == xs[i + 1] && tail[j] == xs[j + 1];
        }
      }
      assert d !in tail;
      InsertByKeyStrict(tail, d);
      var rest := InsertByKey(tail, d);
      forall k | 0 <= k < |rest| ensures LexLess(Key(xs[0]), Key(rest[k])) {
        var y := rest[k];
        assert y in multiset(rest);
        if y != d {
          assert y in multiset(tail);
          var m :| 0 <= m < |tail| && tail[m] == y;
          assert xs[m + 1] == y;
        }
      }
      PrependStrict(xs[0], rest);
    }
  }

  lemma {:induction false} InsertAtEnd(xs: seq<int>, d: int)
    requires forall k :: 0 <= k < |xs| ==> LexLess(Key(xs[k]), Key(d))
    ensures InsertByKey(xs, d) == xs + [d]
    decreases |xs|
  {
    if |xs| > 0 {
      LexLessAsymmetric(Key(xs[0]), Key(d));
      InsertAtEnd(xs[1..], d);
      assert xs == [xs[0]] + xs[1..];
    }
  }

  /** Sorting a list that is already in text order changes nothing. */
  lemma {:induction false} StringSortSorted(xs: seq<int>)
    requires KeySorted(xs)
    ensures StringSort(xs) == xs
    decreases |xs|
  {
    if |xs| > 0 {
      var init := xs[..|xs| - 1];
      assert KeySorted(init);
      StringSortSorted(init);
      InsertAtEnd(init, xs[|xs| - 1]);
    }
  }

  lemma {:induction false} WithoutSorted(xs: seq<int>, d: int)
    requires KeySorted(xs)
    ensures KeySorted(Without(xs, d))
    decreases |xs|
  {
    if |xs| > 0 {
      var init, last := xs[..|xs| - 1], xs[|xs| - 1];
      assert KeySorted(init);
      WithoutSorted(init, d);
      var w := Without(init, d);
      var r := w + (if last == d then [] else [last]);
      forall i, j | 0 <= i < j < |r| ensures LexLess(Key(r[i]), Key(r[j])) {
        if j == |w| {
          assert r[i] == w[i] && w[i] in w;
          var k :| 0 <= k < |init| && init[k] == w[i];
          assert xs[k] == w[i];
        } else {
          assert r[i] == w[i] && r[j] == w[j];
        }
      }
    }
  }

  /** The weekday toggle: a present day is filtered out, an absent one is added
      and the list is sorted. */
  function Toggle(days: seq<int>, d: int): seq<int> {
    if d in days then Without(days, d) else StringSort(days + [d])
  }

  /** The day flips between present and absent, every other value stays as it
      was, and a list in strict text order stays in strict text order. */
  lemma ToggleSpec(days: seq<int>, d: int)
    requires KeySorted(days)
    ensures d in Toggle(days, d) <==> d !in days
    ensures forall y :: y != d ==> (y in Toggle(days, d) <==> y in days)
    ensures KeySorted(Toggle(days, d))
  {
    if d in days {
      WithoutSorted(days, d);
    } else {
      var ext := days + [d];
      assert ext[..|ext| - 1] == days;
      StringSortSorted(days);
      InsertByKeyStrict(days, d);
      assert StringSort(ext) == InsertByKey(days, d);
      forall y ensures y in Toggle(days, d) <==> y in days || y == d {
        assert y in Toggle(days, d) <==> y in multiset(InsertByKey(days, d));
      }
    }
  }

  /** For the weekday values, text order is numeric order. */
  lemma DigitKeys(a: int, b: int)
    requires 0 <= a <= 9 && 0 <= b <= 9
    ensures LexLess(Key(a), Key(b)) <==> a < b
  {
    assert Key(a) == [DigitChar(a)] && Key(b) == [DigitChar(b)];
    assert [DigitChar(a)][1..] == [] && [DigitChar(b)][1..] == [];
  }

  /** A list of weekdays in strict text order is in strict numeric order. */
  lemma WeekdaysAscending(days: seq<int>)
    requires KeySorted(days)
    requires forall k :: 0 <= k < |days| ==> 0 <= days[k] <= 6
    ensures forall i, j :: 0 <= i < j < |days| ==> days[i] < days[j]
  {
    forall i, j | 0 <= i < j < |days| ensures days[i] < days[j] {
      DigitKeys(days[i], days[j]);
    }
  }

  // ---------------------------------------------------------------------------
  // The editor
  // ---------------------------------------------------------------------------

  /** The editor's state, with the `value` prop as the parent stores each
      `onChange`. */
  class ScheduleBuilder {
    var frequency: Frequency
    var time: string
    var days: seq<int>
    var value: string
    /** Every string passed to `onChange`, in order. */
    var calls: seq<string>

    /** The weekday list has no repeats and is in the order the sort leaves. */
    predicate Valid()
      reads this
    {
      KeySorted(days)
    }

    /** The first render: the mount effect finds the frequency already manual,
        and the encoding effect then passes the empty string whatever the value. */
    constructor Mount(value0: string)
      ensures frequency == Manual && time == "09:00" && days == []
      ensures calls == [""] && value == ""
      ensures Valid()
    {
      frequency, time, days := Manual, "09:00", [];
      value := value0;
      calls := [];
      new;
      EncodeEffect();
    }

    method Call(c: string)
      modifies this
      ensures frequency == old(frequency) && time == old(time) && days == old(days)
      ensures value == c && calls == old(calls) + [c]
    {
      value := c;
      calls := calls + [c];
    }

    /** The encoding effect. Afterwards the value is the empty string for the
        manual frequency and the cron string for hourly, daily and weekly. */
    method EncodeEffect()
      modifies this
      ensures frequency == old(frequency) && time == old(time) && days == old(days)
      ensures calls == old(calls) + Emitted(frequency, time, days, old(value))
      ensures frequency == Manual ==> value == ""
      ensures frequency == Custom ==> value == old(value)
      ensures frequency != Manual && frequency != Custom ==> value == CronOf(frequency, time, days)
    {
      if frequency == Manual {
        Call("");
        return;
      }
      var parts := Split(time, ':');
      var hour := parts[0];
      var minute := if |parts| > 1 then parts[1] else "undefined";
      var cron := "";
      if frequency == Hourly {
        cron := ES.Fields(minute, "*", "*", "*", "*");
      } else if frequency == Daily {
        cron := ES.Fields(minute, hour, "*", "*", "*");
      } else if frequency == Weekly {
        var dow := if |days| > 0 then Join(DayStrings(days), ",") else "*";
        cron := ES.Fields(minute, hour, "*", "*", dow);
      } else {
        return;
      }
      if cron != "" && cron != value {
        Call(cron);
      }
    }

    /** A frequency button (Manual, Hourly, Daily or Weekly: no button offers
        Custom); React skips the effect when the value is the same. */
    method SelectFrequency(f: Frequency)
      requires f != Custom
      modifies this
      ensures frequency == f && time == old(time) && days == old(days)
      ensures f != old(frequency) ==> calls == old(calls) + Emitted(f, time, days, old(value))
      ensures f == old(frequency) ==> calls == old(calls) && value == old(value)
    {
      if f != frequency {
        frequency := f;
        EncodeEffect();
      }
    }

    /** The time input; React skips the effect when the value is the same. */
    method SetTime(t: string)
      modifies this
      ensures time == t && frequency == old(frequency) && days == old(days)
      ensures t != old(time) ==> calls == old(calls) + Emitted(frequency, t, days, old(value))
      ensures t == old(time) ==> calls == old(calls) && value == old(value)
    {
      if t != time {
        time := t;
        EncodeEffect();
      }
    }

    /** A weekday button: the list is always a new array, so the effect runs. */
    method ToggleDay(d: int)
      requires Valid()
      modifies this
      ensures Valid()
      ensures days == Toggle(old(days), d) && frequency == old(frequency) && time == old(time)
      ensures calls == old(calls) + Emitted(frequency, time, days, old(value))
    {
      ToggleSpec(days, d);
      if d in days {
        days := Without(days, d);
      } else {
        days := StringSort(days + [d]);
      }
      EncodeEffect();
    }
  }
}
