/** The schedule editor of the environment section: decodes the project's
    five-field cron string (minute, hour, day of month, month, day of week, as in
    the POSIX crontab format of IEEE Std 1003.1) into a frequency and its
    parameters, and encodes them back into the cron string. */
module EnvironmentSchedule {
  import opened Text
  import opened JsNumber

  datatype Freq = Manual | Hourly | Daily | Weekly | Monthly | Yearly

  /** The editor's five state values: frequency, `HH:MM` time, weekdays (0 is
      Sunday), day of month and month. */
  datatype Sched = Sched(freq: Freq, time: string, days: seq<JsNum>, monthDay: JsNum, month: JsNum)

  const Initial: Sched := Sched(Manual, "09:00", [], Num(1), Num(1))

  // ---------------------------------------------------------------------------
  // Fields of a cron string
  // ---------------------------------------------------------------------------

  /** Five fields separated by single spaces. */
  function Fields(a: string, b: string, c: string, d: string, e: string): string {
    a + " " + (b + " " + (c + " " + (d + " " + e)))
  }

  lemma FieldsSplit(a: string, b: string, c: string, d: string, e: string)
    requires ' ' !in a && ' ' !in b && ' ' !in c && ' ' !in d && ' ' !in e
    ensures Split(Fields(a, b, c, d, e), ' ') == [a, b, c, d, e]
  {
    var parts := [a, b, c, d, e];
    assert Join([e], " ") == e;
    assert Join([d, e], " ") == d + " " + e by { assert [d, e][1..] == [e]; }
    assert Join([c, d, e], " ") == c + " " + (d + " " + e) by { assert [c, d, e][1..] == [d, e]; }
    assert Join([b, c, d, e], " ") == b + " " + (c + " " + (d + " " + e)) by { assert [b, c, d, e][1..] == [c, d, e]; }
    assert Join(parts, " ") == Fields(a, b, c, d, e) by { assert parts[1..] == [b, c, d, e]; }
    SplitJoin(parts, ' ');
  }

  /** `s.padStart(2, '0')`. The length it pads to is counted in UTF-16 code
      units, so a single character outside the Basic Multilingual Plane is
      already long enough. */
  function Pad2(s: string): (r: string)
    ensures Utf16Length(r) == if Utf16Length(s) < 2 then 2 else Utf16Length(s)
    ensures Utf16Length(s) >= 2 ==> r == s
  {
    if s == [] then "00"
    else if |s| == 1 && IsBmp(s[0]) then
      assert ("0" + s)[1..] == s;
      "0" + s
    else s
  }

  /** The padding only puts zeros in front of the text. */
  lemma Pad2Pads(s: string)
    ensures |Pad2(s)| >= |s| && Pad2(s)[|Pad2(s)| - |s|..] == s
    ensures forall i :: 0 <= i < |Pad2(s)| - |s| ==> Pad2(s)[i] == '0'
  {
  }

  function TimeOf(h: string, m: string): string {
    Pad2(h) + ":" + Pad2(m)
  }

  /** On text of single-unit characters the padding is the one of the length. */
  lemma Pad2Bmp(s: string)
    requires AllBmp(s)
    ensures Pad2(s) == if |s| == 0 then "00" else if |s| == 1 then "0" + s else s
  {
  }

  lemma TimeOfNineThirty()
    ensures TimeOf("9", "30") == "09:30"
  {
    Pad2Bmp("9");
    Pad2Bmp("30");
  }

  function Numbers(parts: seq<string>): (r: seq<JsNum>)
    ensures |r| == |parts|
    ensures forall k :: 0 <= k < |parts| ==> r[k] == Number(parts[k])
  {
    seq(|parts|, k requires 0 <= k < |parts| => Number(parts[k]))
  }

  function Strings(xs: seq<JsNum>): (r: seq<string>)
    ensures |r| == |xs|
    ensures forall k :: 0 <= k < |xs| ==> r[k] == ToString(xs[k])
  {
    seq(|xs|, k requires 0 <= k < |xs| => ToString(xs[k]))
  }

  // ---------------------------------------------------------------------------
  // Decoding
  // ---------------------------------------------------------------------------

  /** The mount-time decoding, applied to the state `s` it starts from. The first
      two tests are the same test, so every `m h * * *` is taken as hourly. */
  function DecodeCron(cron: string, s: Sched): Sched {
    if cron == "" then s.(freq := Manual)
    else
      var parts := Split(cron, ' ');
      if |parts| != 5 then s.(freq := Manual)
      else
        var m, h, dom, mon, dow := parts[0], parts[1], parts[2], parts[3], parts[4];
        if dom == "*" && mon == "*" && dow == "*" then s.(freq := Hourly)
        else if dom == "*" && mon == "*" && dow == "*" then s.(freq := Hourly)
        else if dom == "*" && mon == "*" && dow != "*" then
          s.(freq := Weekly, days := Numbers(Split(dow, ',')), time := TimeOf(h, m))
        else if dom != "*" && mon == "*" && dow == "*" then
          s.(freq := Monthly, monthDay := ParseInt(dom), time := TimeOf(h, m))
        else if dom != "*" && mon != "*" && dow == "*" then
          s.(freq := Yearly, month := ParseInt(mon), monthDay := ParseInt(dom), time := TimeOf(h, m))
        else s.(freq := Daily, time := TimeOf(h, m))
  }

  /** The decoding the two hourly branches evidently mean: hourly only when the
      hour field is `*` as well, so that `m h * * *` falls through to daily. */
  function DecodeIntended(cron: string, s: Sched): Sched {
    if cron == "" then s.(freq := Manual)
    else
      var parts := Split(cron, ' ');
      if |parts| != 5 then s.(freq := Manual)
      else
        var m, h, dom, mon, dow := parts[0], parts[1], parts[2], parts[3], parts[4];
        if h == "*" && dom == "*" && mon == "*" && dow == "*" then s.(freq := Hourly)
        else if dom == "*" && mon == "*" && dow != "*" then
          s.(freq := Weekly, days := Numbers(Split(dow, ',')), time := TimeOf(h, m))
        else if dom != "*" && mon == "*" && dow == "*" then
          s.(freq := Monthly, monthDay := ParseInt(dom), time := TimeOf(h, m))
        else if dom != "*" && mon != "*" && dow == "*" then
          s.(freq := Yearly, month := ParseInt(mon), monthDay := ParseInt(dom), time := TimeOf(h, m))
        else s.(freq := Daily, time := TimeOf(h, m))
  }

  /** An empty cron, or one without exactly five space-separated fields, only
      switches the frequency to manual. */
  lemma DecodeMalformed(cron: string, s: Sched)
    requires cron == "" || |Split(cron, ' ')| != 5
    ensures DecodeCron(cron, s) == s.(freq := Manual)
    ensures DecodeCron(cron, s).time == s.time && DecodeCron(cron, s).days == s.days
  {
  }

  /** With day of month, month and day of week all `*` the decoding is hourly and
      touches nothing else: neither the minute nor the hour is kept. */
  lemma DecodeStarsIsHourly(m: string, h: string, s: Sched)
    requires ' ' !in m && ' ' !in h
    ensures DecodeCron(Fields(m, h, "*", "*", "*"), s) == s.(freq := Hourly)
  {
    FieldsSplit(m, h, "*", "*", "*");
  }

  /** A cron with a weekday field and `*` for day of month and month opens
      as weekly, at the time of its hour and minute. */
  lemma DecodeWeekly(m: string, h: string, dow: string, s: Sched)
    requires ' ' !in m && ' ' !in h && ' ' !in dow && dow != "*"
    ensures DecodeCron(Fields(m, h, "*", "*", dow), s)
         == s.(freq := Weekly, days := Numbers(Split(dow, ',')), time := TimeOf(h, m))
  {
    FieldsSplit(m, h, "*", "*", dow);
    DecodeWeeklyParts(Fields(m, h, "*", "*", dow), m, h, dow, s);
  }

  /** Decoding leaves the frequency manual only when it changes nothing else. */
  lemma DecodeManualKeeps(cron: string, s: Sched)
    ensures DecodeCron(cron, s).freq == Manual ==> DecodeCron(cron, s) == s.(freq := Manual)
  {
  }

  /** A day of the month with no month and no weekday decodes as monthly. */
  lemma DecodeMonthly(m: string, h: string, dom: string, s: Sched)
    requires ' ' !in m && ' ' !in h && ' ' !in dom && dom != "*"
    ensures DecodeCron(Fields(m, h, dom, "*", "*"), s)
         == s.(freq := Monthly, monthDay := ParseInt(dom), time := TimeOf(h, m))
  {
    FieldsSplit(m, h, dom, "*", "*");
  }

  /** A day of the month and a month with no weekday decode as yearly. */
  lemma DecodeYearly(m: string, h: string, dom: string, mon: string, s: Sched)
    requires ' ' !in m && ' ' !in h && ' ' !in dom && ' ' !in mon && dom != "*" && mon != "*"
    ensures DecodeCron(Fields(m, h, dom, mon, "*"), s)
         == s.(freq := Yearly, month := ParseInt(mon), monthDay := ParseInt(dom), time := TimeOf(h, m))
  {
    FieldsSplit(m, h, dom, mon, "*");
  }

  /** Under the intended decoding, a concrete hour with every other field `*`
      is daily at that time. */
  lemma DecodeIntendedDaily(m: string, h: string, s: Sched)
    requires ' ' !in m && ' ' !in h && h != "*"
    ensures DecodeIntended(Fields(m, h, "*", "*", "*"), s) == s.(freq := Daily, time := TimeOf(h, m))
  {
    FieldsSplit(m, h, "*", "*", "*");
  }

  lemma DecodeWeeklyParts(cron: string, m: string, h: string, dow: string, s: Sched)
    requires Split(cron, ' ') == [m, h, "*", "*", dow] && dow != "*"
    ensures DecodeCron(cron, s) == s.(freq := Weekly, days := Numbers(Split(dow, ',')), time := TimeOf(h, m))
  {
    assert Split("", ' ') == [""];
  }

  /** The two decodings differ only on five-field crons whose last three fields
      are `*` and whose hour is not. */
  lemma DecodingsDiffer(cron: string, s: Sched)
    requires DecodeIntended(cron, s) != DecodeCron(cron, s)
    ensures cron != "" && |Split(cron, ' ')| == 5
    ensures var p := Split(cron, ' '); p[1] != "*" && p[2] == "*" && p[3] == "*" && p[4] == "*"
  {
  }

  // ---------------------------------------------------------------------------
  // Encoding
  // ---------------------------------------------------------------------------

  /** The hour before the ':', or `00` when it is empty. */
  function HourPart(time: string): string {
    var p := Split(time, ':');
    if p[0] != "" then p[0] else "00"
  }

  /** The minute after the ':', or `00` when it is missing or empty. */
  function MinutePart(time: string): string {
    var p := Split(time, ':');
    if |p| > 1 && p[1] != "" then p[1] else "00"
  }

  /** The weekdays joined by commas, or `*` without any. */
  function DaysField(days: seq<JsNum>): string {
    if |days| > 0 then Join(Strings(days), ",") else "*"
  }

  /** The encoding switch: the cron string for a state. */
  function EncodeCron(s: Sched): (r: string)
    ensures r == "" <==> s.freq == Manual
  {
    var m, h := MinutePart(s.time), HourPart(s.time);
    match s.freq
    case Manual => ""
    case Hourly => Fields(m, "*", "*", "*", "*")
    case Daily => Fields(m, h, "*", "*", "*")
    case Weekly => Fields(m, h, "*", "*", DaysField(s.days))
    case Monthly => Fields(m, h, ToString(s.monthDay), "*", "*")
    case Yearly => Fields(m, h, ToString(s.monthDay), ToString(s.month), "*")
  }

  /** A time as the time input gives it: two digits, ':', two digits. */
  predicate WellFormedTime(t: string) {
    |t| == 5 && IsDigit(t[0]) && IsDigit(t[1]) && t[2] == ':' && IsDigit(t[3]) && IsDigit(t[4])
  }

  lemma TimeParts(t: string)
    requires WellFormedTime(t)
    ensures Split(t, ':') == [t[..2], t[3..]]
    ensures HourPart(t) == t[..2] && MinutePart(t) == t[3..]
    ensures ' ' !in t[..2] && ' ' !in t[3..] && t[..2] != "*"
    ensures TimeOf(t[..2], t[3..]) == t
  {
    assert t == t[..2] + [':'] + t[3..];
    SplitAround(t[..2], t[3..], ':');
    SplitNoSep(t[..2], ':');
    SplitNoSep(t[3..], ':');
  }

  /** Weekly at 09:00 on Monday and Friday. */
  lemma EncodeWeeklyExample()
    ensures EncodeCron(Sched(Weekly, "09:00", [Num(1), Num(5)], Num(1), Num(1))) == Fields("00", "09", "*", "*", "1,5")
  {
    TimeParts("09:00");
    assert "09:00"[..2] == "09" && "09:00"[3..] == "00";
    MondayFridayField();
  }

  lemma MondayFridayField()
    ensures DaysField([Num(1), Num(5)]) == "1,5"
  {
    var ds := Strings([Num(1), Num(5)]);
    assert ds == ["1", "5"];
    assert ds[1..] == ["5"];
  }

  // ---------------------------------------------------------------------------
  // Round trips
  // ---------------------------------------------------------------------------

  lemma {:induction false} JoinAvoids(parts: seq<string>, sep: string, c: char)
    requires forall k :: 0 <= k < |parts| ==> c !in parts[k]
    requires c !in sep
    ensures c !in Join(parts, sep)
    decreases |parts|
  {
    if |parts| > 1 {
      JoinAvoids(parts[1..], sep, c);
    }
  }

  lemma NumeralAvoids(x: JsNum)
    ensures ' ' !in ToString(x) && ',' !in ToString(x) && '*' !in ToString(x)
  {
    ToStringChars(x);
  }

  lemma DaysFieldParts(days: seq<JsNum>)
    requires |days| > 0
    ensures ' ' !in DaysField(days) && DaysField(days) != "*"
    ensures Numbers(Split(DaysField(days), ',')) == days
  {
    var ss := Strings(days);
    forall k | 0 <= k < |ss| ensures ' ' !in ss[k] && ',' !in ss[k] && '*' !in ss[k] {
      NumeralAvoids(days[k]);
    }
    JoinAvoids(ss, ",", ' ');
    JoinAvoids(ss, ",", '*');
    assert DaysField(days) != "*" by {
      assert '*' in "*";
    }
    assert "," == [','];
    SplitJoin(ss, ',');
    forall k | 0 <= k < |days| ensures Number(ss[k]) == days[k] {
      NumberOfToString(days[k]);
    }
  }

  /** A weekly schedule with days comes back with the same days and time. */
  lemma WeeklyRoundTrip(s: Sched, base: Sched)
    requires s.freq == Weekly && |s.days| > 0 && WellFormedTime(s.time)
    ensures DecodeCron(EncodeCron(s), base) == base.(freq := Weekly, days := s.days, time := s.time)
  {
    TimeParts(s.time);
    DaysFieldParts(s.days);
    assert EncodeCron(s) == Fields(s.time[3..], s.time[..2], "*", "*", DaysField(s.days));
    DecodeWeekly(s.time[3..], s.time[..2], DaysField(s.days), base);
  }

  /** A monthly schedule comes back with the same day of month and time. */
  lemma MonthlyRoundTrip(s: Sched, base: Sched)
    requires s.freq == Monthly && WellFormedTime(s.time)
    ensures DecodeCron(EncodeCron(s), base) == base.(freq := Monthly, monthDay := s.monthDay, time := s.time)
  {
    TimeParts(s.time);
    NumeralAvoids(s.monthDay);
    assert ToString(s.monthDay) != "*" by { assert '*' in "*"; }
    DecodeMonthly(s.time[3..], s.time[..2], ToString(s.monthDay), base);
    ParseIntOfToString(s.monthDay);
  }

  /** A yearly schedule comes back with the same day, month and time. */
  lemma YearlyRoundTrip(s: Sched, base: Sched)
    requires s.freq == Yearly && WellFormedTime(s.time)
    ensures DecodeCron(EncodeCron(s), base)
         == base.(freq := Yearly, monthDay := s.monthDay, month := s.month, time := s.time)
  {
    TimeParts(s.time);
    NumeralAvoids(s.monthDay);
    NumeralAvoids(s.month);
    assert ToString(s.monthDay) != "*" && ToString(s.month) != "*" by { assert '*' in "*"; }
    DecodeYearly(s.time[3..], s.time[..2], ToString(s.monthDay), ToString(s.month), base);
    ParseIntOfToString(s.monthDay);
    ParseIntOfToString(s.month);
  }

  /** A daily schedule, and a weekly one without days, come back hourly, with the
      time of the state decoded into. */
  lemma DailyComesBackHourly(s: Sched, base: Sched)
    requires (s.freq == Daily || (s.freq == Weekly && |s.days| == 0)) && WellFormedTime(s.time)
    ensures DecodeCron(EncodeCron(s), base) == base.(freq := Hourly)
  {
    TimeParts(s.time);
    DecodeStarsIsHourly(s.time[3..], s.time[..2], base);
  }

  /** An hourly schedule comes back hourly, but its minute is not read back. */
  lemma HourlyLosesMinute(s: Sched, base: Sched)
    requires s.freq == Hourly && WellFormedTime(s.time)
    ensures DecodeCron(EncodeCron(s), base) == base.(freq := Hourly)
  {
    TimeParts(s.time);
    DecodeStarsIsHourly(s.time[3..], "*", base);
  }

  lemma ManualRoundTrip(s: Sched, base: Sched)
    requires s.freq == Manual
    ensures DecodeCron(EncodeCron(s), base) == base.(freq := Manual)
  {
  }

  /** Under the intended decoding a daily schedule comes back daily, at its time. */
  lemma DailyRoundTripIntended(s: Sched, base: Sched)
    requires s.freq == Daily && WellFormedTime(s.time)
    ensures DecodeIntended(EncodeCron(s), base) == base.(freq := Daily, time := s.time)
  {
    TimeParts(s.time);
    DecodeIntendedDaily(s.time[3..], s.time[..2], base);
  }

  /** A project saved with a daily cron at 09:30 is opened as hourly; the encoding
      that follows then stores `00 * * * *`. The intended decoding keeps it daily. */
  lemma DailyCronOpenedAsHourly()
    ensures DecodeCron(Fields("30", "9", "*", "*", "*"), Initial) == Initial.(freq := Hourly)
    ensures EncodeCron(Initial.(freq := Hourly)) == Fields("00", "*", "*", "*", "*")
    ensures DecodeIntended(Fields("30", "9", "*", "*", "*"), Initial) == Initial.(freq := Daily, time := "09:30")
  {
    DecodeStarsIsHourly("30", "9", Initial);
    InitialHourlyEncoding();
    DailyExampleIntended();
  }

  lemma InitialHourlyEncoding()
    ensures EncodeCron(Initial.(freq := Hourly)) == Fields("00", "*", "*", "*", "*")
  {
    TimeParts("09:00");
    assert "09:00"[3..] == "00";
  }

  lemma DailyExampleIntended()
    ensures DecodeIntended(Fields("30", "9", "*", "*", "*"), Initial) == Initial.(freq := Daily, time := "09:30")
  {
    DecodeIntendedDaily("30", "9", Initial);
    TimeOfNineThirty();
  }

  /** The two crons of the example, written out. */
  lemma DailyCronExampleText()
    ensures Fields("30", "9", "*", "*", "*") == "30 9 * * *"
    ensures Fields("00", "*", "*", "*", "*") == "00 * * * *"
    ensures Fields("00", "09", "*", "*", "1,5") == "00 09 * * 1,5"
  {
  }

  // ---------------------------------------------------------------------------
  // Weekday toggle
  // ---------------------------------------------------------------------------

  /** Removes the day when present, otherwise appends it. */
  function Toggle(days: seq<JsNum>, d: int): seq<JsNum> {
    if Num(d) in days then Without(days, Num(d)) else days + [Num(d)]
  }

  predicate Distinct(xs: seq<JsNum>) {
    forall i, j :: 0 <= i < j < |xs| ==> xs[i] != xs[j]
  }

  lemma {:induction false} RemoveDistinct(xs: seq<JsNum>, x: JsNum)
    requires Distinct(xs)
    ensures Distinct(Without(xs, x))
    decreases |xs|
  {
    if |xs| > 0 {
      var init, last := xs[..|xs| - 1], xs[|xs| - 1];
      assert Distinct(init);
      RemoveDistinct(init, x);
      var r := Without(init, x);
      assert last !in init by {
        forall i | 0 <= i < |init| ensures init[i] != last {
          assert init[i] == xs[i];
        }
      }
      forall i | 0 <= i < |r| ensures r[i] != last {
        assert r[i] in r;
      }
    }
  }

  lemma {:induction false} RemoveAbsent(xs: seq<JsNum>, x: JsNum)
    requires x !in xs
    ensures Without(xs, x) == xs
    decreases |xs|
  {
    if |xs| > 0 {
      var init, last := xs[..|xs| - 1], xs[|xs| - 1];
      assert xs == init + [last];
      assert last != x && x !in init;
      RemoveAbsent(init, x);
      assert Without(xs, x) == Without(init, x) + [last];
    }
  }

  /** The day flips between present and absent, every other value stays as it
      was, and a list without repeats keeps none. */
  lemma ToggleSpec(days: seq<JsNum>, d: int)
    ensures Num(d) in Toggle(days, d) <==> Num(d) !in days
    ensures forall y :: y != Num(d) ==> (y in Toggle(days, d) <==> y in days)
    ensures Distinct(days) ==> Distinct(Toggle(days, d))
  {
    if Num(d) in days && Distinct(days) {
      RemoveDistinct(days, Num(d));
    }
  }

  /** Toggling an absent day twice gives the list back. */
  lemma ToggleTwice(days: seq<JsNum>, d: int)
    requires Num(d) !in days
    ensures Toggle(Toggle(days, d), d) == days
  {
    var t := days + [Num(d)];
    assert t[..|t| - 1] == days;
    RemoveAbsent(days, Num(d));
  }

  /** The encoding effect's computation for a scheduled state: the time split at
      ':' with "00" for a missing part, then the fields of the frequency. */
  method ComputeCron(s: Sched) returns (c: string)
    requires s.freq != Manual
    ensures c == EncodeCron(s)
  {
    var parts := Split(s.time, ':');
    var h := parts[0];
    var m := if |parts| > 1 then parts[1] else "";
    var safeH := if h != "" then h else "00";
    var safeM := if m != "" then m else "00";
    match s.freq {
      case Hourly => c := Fields(safeM, "*", "*", "*", "*");
      case Daily => c := Fields(safeM, safeH, "*", "*", "*");
      case Weekly =>
        var d := if |s.days| > 0 then Join(Strings(s.days), ",") else "*";
        c := Fields(safeM, safeH, "*", "*", d);
      case Monthly => c := Fields(safeM, safeH, ToString(s.monthDay), "*", "*");
      case Yearly => c := Fields(safeM, safeH, ToString(s.monthDay), ToString(s.month), "*");
    }
  }

  // ---------------------------------------------------------------------------
  // The editor
  // ---------------------------------------------------------------------------

  /** The schedule editor's state, together with the project's cron as the parent
      stores each `onChange('cron', ...)`. */
  class EnvironmentBuilder {
    var freq: Freq
    var time: string
    var days: seq<JsNum>
    var monthDay: JsNum
    var month: JsNum
    var cron: string
    /** Every cron passed to `onChange`, in order. */
    var writes: seq<string>

    function State(): Sched
      reads this
    {
      Sched(freq, time, days, monthDay, month)
    }

    /** The stored cron is the encoding of the editor's state. */
    predicate InSync()
      reads this
    {
      cron == EncodeCron(State())
    }

    /** The first render: the decoding effect schedules its state updates, the
        encoding effect of that render still sees the initial manual state and
        clears a non-empty cron, then the re-render encodes the decoded state. */
    constructor Mount(cron0: string)
      ensures State() == DecodeCron(cron0, Initial)
      ensures InSync()
      ensures writes == (if cron0 != "" then [""] else [])
                      + (if State() != Initial then [EncodeCron(State())] else [])
    {
      freq, time, days, monthDay, month := Manual, "09:00", [], Num(1), Num(1);
      cron := cron0;
      writes := [];
      new;
      var decoded := DecodeCron(cron, State());
      DecodeManualKeeps(cron0, Initial);
      EncodeEffect();
      Update(decoded);
    }

    method Write(c: string)
      modifies this
      ensures State() == old(State())
      ensures cron == c && writes == old(writes) + [c]
    {
      cron := c;
      writes := writes + [c];
    }

    /** The encoding effect: computes the cron of the current state and writes it
        when it differs from the stored one. */
    method EncodeEffect()
      modifies this
      ensures State() == old(State())
      ensures InSync()
      ensures writes == old(writes) + (if EncodeCron(State()) != old(cron) then [EncodeCron(State())] else [])
      ensures old(InSync()) ==> writes == old(writes)
    {
      if freq == Manual {
        if cron != "" {
          Write("");
        }
        return;
      }
      var c := ComputeCron(State());
      if c != cron {
        Write(c);
      }
    }

    /** A state update: when some value changes, the component re-renders and the
        encoding effect runs again. */
    method Update(s: Sched)
      modifies this
      ensures State() == s
      ensures s != old(State()) ==> InSync()
      ensures s != old(State()) ==> writes == old(writes) + (if EncodeCron(s) != old(cron) then [EncodeCron(s)] else [])
      ensures s == old(State()) ==> cron == old(cron) && writes == old(writes)
    {
      if s != State() {
        freq, time, days, monthDay, month := s.freq, s.time, s.days, s.monthDay, s.month;
        EncodeEffect();
      }
    }

    method SelectFrequency(f: Freq)
      modifies this
      ensures State() == old(State()).(freq := f)
      ensures f != old(freq) ==> InSync()
      ensures f == old(freq) ==> cron == old(cron) && writes == old(writes)
    {
      Update(State().(freq := f));
    }

    method SetTime(t: string)
      modifies this
      ensures State() == old(State()).(time := t)
      ensures t != old(time) ==> InSync()
      ensures t == old(time) ==> cron == old(cron) && writes == old(writes)
    {
      Update(State().(time := t));
    }

    /** Clicking a weekday button. */
    method ToggleDay(d: int)
      modifies this
      ensures State() == old(State()).(days := Toggle(old(days), d))
      ensures InSync()
    {
      var next := if Num(d) in days then Without(days, Num(d)) else days + [Num(d)];
      ToggleSpec(days, d);
      assert next != days by {
        assert Num(d) in next <==> Num(d) !in days;
      }
      Update(State().(days := next));
    }

    /** Clicking the day-of-month button at index `i` (day `i + 1`). */
    method SelectMonthDay(i: int)
      modifies this
      ensures State() == old(State()).(monthDay := Num(i + 1))
      ensures Num(i + 1) != old(monthDay) ==> InSync()
      ensures Num(i + 1) == old(monthDay) ==> cron == old(cron) && writes == old(writes)
    {
      Update(State().(monthDay := Num(i + 1)));
    }

    /** Clicking the month button at index `i` (month `i + 1`). */
    method SelectMonth(i: int)
      modifies this
      ensures State() == old(State()).(month := Num(i + 1))
      ensures Num(i + 1) != old(month) ==> InSync()
      ensures Num(i + 1) == old(month) ==> cron == old(cron) && writes == old(writes)
    {
      Update(State().(month := Num(i + 1)));
    }
  }
}
