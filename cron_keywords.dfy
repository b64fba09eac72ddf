/** The offline keyword table that turns a description of a schedule into a
    cron string: the text is lower-cased and trimmed, then eight keyword rules
    are tried in order and the first that matches gives the result. */
module CronKeywords {
  import opened Text
  import ES = EnvironmentSchedule
  import JsNumber

  /** The rule chain on the prepared text. */
  function Classify(lower: string): (r: string)
    ensures r in {"0 0 * * *", "0 9 * * *", "0 * * * *", "0 9 * * 1", "0 9 * * 5", "0 0 * * 0", "0 0 1 * *", ""}
  {
    if Contains(lower, "midnight") then "0 0 * * *"
    else if Contains(lower, "daily") && Contains(lower, "9") then "0 9 * * *"
    else if Contains(lower, "daily") then "0 0 * * *"
    else if Contains(lower, "hourly") then "0 * * * *"
    else if Contains(lower, "every monday") then "0 9 * * 1"
    else if Contains(lower, "every friday") then "0 9 * * 5"
    else if Contains(lower, "week") then "0 0 * * 0"
    else if Contains(lower, "month") then "0 0 1 * *"
    else ""
  }

  /** `generateCronFromText` */
  function CronFromText(text: string): string {
    Classify(Trim(Lower(text), IsJsSpace))
  }

  // ---------------------------------------------------------------------------
  // Trimming never hides a keyword
  // ---------------------------------------------------------------------------

  lemma {:induction false} TrimStartKeeps(s: string, p: string)
    requires |p| > 0 && !IsJsSpace(p[0])
    ensures Contains(TrimStart(s, IsJsSpace), p) <==> Contains(s, p)
    decreases |s|
  {
    if |s| > 0 && IsJsSpace(s[0]) {
      TrimStartKeeps(s[1..], p);
      assert !StartsWith(s, p);
    }
  }

  lemma DropLastKeeps(s: string, p: string)
    requires |s| > 0 && IsJsSpace(s[|s| - 1])
    requires |p| > 0 && !IsJsSpace(p[|p| - 1])
    ensures Contains(s[..|s| - 1], p) <==> Contains(s, p)
  {
    var u := s[..|s| - 1];
    if Contains(s, p) {
      var k := ContainsWitness(s, p);
      assert s[k + |p| - 1] == p[|p| - 1] by {
        assert s[k..k + |p|][|p| - 1] == s[k + |p| - 1];
      }
      assert u[k..k + |p|] == s[k..k + |p|];
      ContainsAt(u, p, k);
    }
    if Contains(u, p) {
      var k := ContainsWitness(u, p);
      assert s[k..k + |p|] == u[k..k + |p|];
      ContainsAt(s, p, k);
    }
  }

  lemma {:induction false} TrimEndKeeps(s: string, p: string)
    requires |p| > 0 && !IsJsSpace(p[|p| - 1])
    ensures Contains(TrimEnd(s, IsJsSpace), p) <==> Contains(s, p)
    decreases |s|
  {
    if |s| > 0 && IsJsSpace(s[|s| - 1]) {
      TrimEndKeeps(s[..|s| - 1], p);
      DropLastKeeps(s, p);
    }
  }

  /** A keyword that neither starts nor ends with whitespace occurs in the
      trimmed text exactly when it occurs in the text. */
  lemma TrimKeeps(s: string, p: string)
    requires |p| > 0 && !IsJsSpace(p[0]) && !IsJsSpace(p[|p| - 1])
    ensures Contains(Trim(s, IsJsSpace), p) <==> Contains(s, p)
  {
    TrimEndKeeps(TrimStart(s, IsJsSpace), p);
    TrimStartKeeps(s, p);
  }

  /** The trim changes no result: the rules may as well be tested on the
      lower-cased text itself. */
  lemma TrimIrrelevant(text: string)
    ensures CronFromText(text) == Classify(Lower(text))
  {
    var s := Lower(text);
    TrimKeeps(s, "midnight");
    TrimKeeps(s, "daily");
    TrimKeeps(s, "9");
    TrimKeeps(s, "hourly");
    TrimKeeps(s, "every monday");
    TrimKeeps(s, "every friday");
    TrimKeeps(s, "week");
    TrimKeeps(s, "month");
  }

  // ---------------------------------------------------------------------------
  // Properties of the table
  // ---------------------------------------------------------------------------

  /** Upper-casing the description changes nothing. */
  lemma CaseInsensitive(text: string)
    ensures CronFromText(Upper(text)) == CronFromText(text)
  {
    LowerOfUpper(text);
  }

  /** "midnight" wins over every other keyword, "daily" and "9" included. */
  lemma MidnightFirst(text: string)
    requires Contains(Lower(text), "midnight")
    ensures CronFromText(text) == "0 0 * * *"
  {
    TrimIrrelevant(text);
  }

  /** "every monday" is tested before "week". */
  lemma MondayBeforeWeek(text: string)
    requires Contains(Lower(text), "every monday") && Contains(Lower(text), "week")
    requires !Contains(Lower(text), "midnight") && !Contains(Lower(text), "daily") && !Contains(Lower(text), "hourly")
    ensures CronFromText(text) == "0 9 * * 1"
  {
    TrimIrrelevant(text);
  }

  /** Without any keyword the result is empty. */
  lemma NoKeywordEmpty(text: string)
    requires !Contains(Lower(text), "midnight") && !Contains(Lower(text), "daily")
    requires !Contains(Lower(text), "hourly") && !Contains(Lower(text), "every monday")
    requires !Contains(Lower(text), "every friday") && !Contains(Lower(text), "week")
    requires !Contains(Lower(text), "month")
    ensures CronFromText(text) == ""
  {
    TrimIrrelevant(text);
  }

  /** A field of a cron string produced here: `*` or a decimal number. */
  predicate SimpleField(f: string) {
    f == "*" || (|f| > 0 && AllDigits(f))
  }

  lemma FieldsOfResults()
    ensures "0 0 * * *" == ES.Fields("0", "0", "*", "*", "*")
    ensures "0 9 * * *" == ES.Fields("0", "9", "*", "*", "*")
    ensures "0 * * * *" == ES.Fields("0", "*", "*", "*", "*")
    ensures "0 9 * * 1" == ES.Fields("0", "9", "*", "*", "1")
    ensures "0 9 * * 5" == ES.Fields("0", "9", "*", "*", "5")
    ensures "0 0 * * 0" == ES.Fields("0", "0", "*", "*", "0")
    ensures "0 0 1 * *" == ES.Fields("0", "0", "1", "*", "*")
  {
  }

  lemma SimpleFields(a: string, b: string, c: string, d: string, e: string)
    requires SimpleField(a) && SimpleField(b) && SimpleField(c) && SimpleField(d) && SimpleField(e)
    requires |a| == 1 && |b| == 1 && |c| == 1 && |d| == 1 && |e| == 1
    ensures var p := Split(ES.Fields(a, b, c, d, e), ' ');
      |p| == 5 && forall k :: 0 <= k < 5 ==> SimpleField(p[k])
  {
    assert a[0] != ' ' && b[0] != ' ' && c[0] != ' ' && d[0] != ' ' && e[0] != ' ';
    ES.FieldsSplit(a, b, c, d, e);
  }

  /** Every non-empty result has exactly five space-separated fields, each `*`
      or a decimal number. */
  lemma FiveFields(text: string)
    ensures var r := CronFromText(text);
      r != "" ==> |Split(r, ' ')| == 5 && forall k :: 0 <= k < 5 ==> SimpleField(Split(r, ' ')[k])
  {
    FieldsOfResults();
    var r := CronFromText(text);
    assert AllDigits("0") && AllDigits("1") && AllDigits("5") && AllDigits("9");
    if r == "0 0 * * *" {
      SimpleFields("0", "0", "*", "*", "*");
    } else if r == "0 9 * * *" {
      SimpleFields("0", "9", "*", "*", "*");
    } else if r == "0 * * * *" {
      SimpleFields("0", "*", "*", "*", "*");
    } else if r == "0 9 * * 1" {
      SimpleFields("0", "9", "*", "*", "1");
    } else if r == "0 9 * * 5" {
      SimpleFields("0", "9", "*", "*", "5");
    } else if r == "0 0 * * 0" {
      SimpleFields("0", "0", "*", "*", "0");
    } else if r == "0 0 1 * *" {
      SimpleFields("0", "0", "1", "*", "*");
    }
  }

  /** "daily at 9" gives `0 9 * * *`, which the environment editor then opens
      as hourly. */
  lemma DailyAtNineOpensAsHourly(text: string, s: ES.Sched)
    requires CronFromText(text) == "0 9 * * *"
    ensures ES.DecodeCron(CronFromText(text), s) == s.(freq := ES.Hourly)
  {
    FieldsOfResults();
    ES.DecodeStarsIsHourly("0", "9", s);
  }

  lemma MondayField()
    ensures ES.Numbers(Split("1", ',')) == [JsNumber.Num(1)]
  {
    SplitNoSep("1", ',');
    JsNumber.NumberOfToString(JsNumber.Num(1));
    assert JsNumber.ToString(JsNumber.Num(1)) == "1";
  }

  /** "every monday" gives a cron the environment editor opens as weekly on
      Monday at 09:00. */
  lemma EveryMondayOpensAsWeekly(text: string, s: ES.Sched)
    requires CronFromText(text) == "0 9 * * 1"
    ensures ES.DecodeCron(CronFromText(text), s)
         == s.(freq := ES.Weekly, days := [JsNumber.Num(1)], time := "09:00")
  {
    MondayCronWeekly(s);
  }

  lemma MondayCronWeekly(s: ES.Sched)
    ensures ES.DecodeCron("0 9 * * 1", s)
         == s.(freq := ES.Weekly, days := [JsNumber.Num(1)], time := "09:00")
  {
    assert "0 9 * * 1" == ES.Fields("0", "9", "*", "*", "1");
    ES.DecodeWeekly("0", "9", "1", s);
    MondayField();
    assert ES.TimeOf("9", "0") == "09:00";
  }
}
