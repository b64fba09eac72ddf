/** The JavaScript number conversions the schedule editor relies on, for integer
    numerals: `Number(s)`, `parseInt(s)` and `String(x)`. */
module JsNumber {
  import opened Text

  /** A JavaScript number that is an integer, or `NaN`. */
  datatype JsNum = Num(value: int) | NaN

  /** An optional sign followed by at least one decimal digit. */
  predicate IsIntLiteral(s: string) {
    |s| >= 1 && (if s[0] == '-' || s[0] == '+' then |s| >= 2 && AllDigits(s[1..]) else AllDigits(s))
  }

  function IntLiteralValue(s: string): int
    requires IsIntLiteral(s)
  {
    if s[0] == '-' then 0 - DigitsValue(s[1..])
    else if s[0] == '+' then DigitsValue(s[1..])
    else DigitsValue(s)
  }

  /** `Number(s)`: surrounding whitespace is ignored and the empty string is 0. */
  function Number(s: string): (r: JsNum)
    ensures AllSpace(s, IsJsSpace) ==> r == Num(0)
  {
    var t := Trim(s, IsJsSpace);
    TrimEmpty(s, IsJsSpace);
    if t == "" then Num(0) else if IsIntLiteral(t) then Num(IntLiteralValue(t)) else NaN
  }

  /** The run of decimal digits `s` starts with. */
  function LeadingDigits(s: string): (r: string)
    ensures AllDigits(r) && |r| <= |s| && r == s[..|r|]
    ensures |r| < |s| ==> !IsDigit(s[|r|])
  {
    if |s| > 0 && IsDigit(s[0]) then [s[0]] + LeadingDigits(s[1..]) else ""
  }

  /** `parseInt(s)`: leading whitespace is skipped, then an optional sign and the
      longest run of digits; without a digit the result is `NaN`. */
  function ParseInt(s: string): (r: JsNum)
    ensures r.NaN? <==> LeadingDigits(SignStripped(TrimStart(s, IsJsSpace))) == ""
  {
    var t := TrimStart(s, IsJsSpace);
    var d := LeadingDigits(SignStripped(t));
    if d == "" then NaN
    else Num(if |t| > 0 && t[0] == '-' then 0 - DigitsValue(d) else DigitsValue(d))
  }

  function SignStripped(t: string): string {
    if |t| > 0 && (t[0] == '-' || t[0] == '+') then t[1..] else t
  }

  /** `String(x)` */
  function ToString(x: JsNum): (r: string)
    ensures |r| >= 1
  {
    match x
    case Num(i) => IntToString(i)
    case NaN => "NaN"
  }

  /** The characters `String(x)` can produce: a minus sign, digits and the letters
      of `NaN`. */
  predicate NumeralChar(c: char) {
    c == '-' || IsDigit(c) || c == 'N' || c == 'a'
  }

  lemma ToStringChars(x: JsNum)
    ensures forall i :: 0 <= i < |ToString(x)| ==> NumeralChar(ToString(x)[i])
  {
    if x.Num? && x.value < 0 {
      var s := "-" + NatToString(-x.value);
      assert forall i :: 1 <= i < |s| ==> s[i] == NatToString(-x.value)[i - 1];
    }
  }

  lemma TrimNoSpace(s: string, isSpace: char -> bool)
    requires forall i :: 0 <= i < |s| ==> !isSpace(s[i])
    ensures TrimStart(s, isSpace) == s && Trim(s, isSpace) == s
  {
  }

  lemma {:induction false} LeadingDigitsAll(s: string)
    requires AllDigits(s)
    ensures LeadingDigits(s) == s
    decreases |s|
  {
    if |s| > 0 {
      LeadingDigitsAll(s[1..]);
      assert s == [s[0]] + s[1..];
    }
  }

  /** `Number(String(x)) == x` for every integer and for `NaN`. */
  lemma NumberOfToString(x: JsNum)
    ensures Number(ToString(x)) == x
  {
    match x
    case NaN =>
      NumberOfNaN();
    case Num(i) =>
      if i < 0 {
        NumberOfNegativeNum(i);
      } else {
        NumberOfNat(NatToString(i));
        DigitsValueOfNatToString(i);
      }
  }

  lemma NumberOfNegativeNum(i: int)
    requires i < 0
    ensures Number(ToString(Num(i))) == Num(i)
  {
    var s := NatToString(-i);
    assert ToString(Num(i)) == "-" + s;
    NumberOfNegative(s);
    DigitsValueOfNatToString(-i);
  }

  lemma NumberOfNaN()
    ensures Number("NaN") == NaN
  {
    TrimNoSpace("NaN", IsJsSpace);
    assert !IsDigit("NaN"[0]);
  }

  lemma NumberOfNegative(s: string)
    requires |s| >= 1 && AllDigits(s)
    ensures Number("-" + s) == Num(0 - DigitsValue(s))
  {
    var t := "-" + s;
    NegativeTrimmed(s);
    assert IsIntLiteral(t) && IntLiteralValue(t) == 0 - DigitsValue(s);
  }

  lemma NegativeTrimmed(s: string)
    requires |s| >= 1 && AllDigits(s)
    ensures Trim("-" + s, IsJsSpace) == "-" + s
    ensures ("-" + s)[0] == '-' && ("-" + s)[1..] == s
  {
    var t := "-" + s;
    assert t[0] == '-' && t[1..] == s;
    assert forall i :: 0 <= i < |t| ==> !IsJsSpace(t[i]) by {
      assert forall i :: 1 <= i < |t| ==> t[i] == s[i - 1];
    }
    TrimNoSpace(t, IsJsSpace);
  }

  lemma NumberOfNat(s: string)
    requires |s| >= 1 && AllDigits(s)
    ensures Number(s) == Num(DigitsValue(s))
  {
    TrimNoSpace(s, IsJsSpace);
    assert IsIntLiteral(s) && IntLiteralValue(s) == DigitsValue(s);
  }

  lemma ParseIntOfNat(s: string)
    requires |s| >= 1 && AllDigits(s)
    ensures ParseInt(s) == Num(DigitsValue(s))
  {
    TrimNoSpace(s, IsJsSpace);
    assert SignStripped(s) == s;
    LeadingDigitsAll(s);
  }

  lemma ParseIntOfNegative(s: string)
    requires |s| >= 1 && AllDigits(s)
    ensures ParseInt("-" + s) == Num(0 - DigitsValue(s))
  {
    var t := "-" + s;
    NegativeShape(s);
    LeadingDigitsAll(s);
    assert LeadingDigits(SignStripped(TrimStart(t, IsJsSpace))) == s;
  }

  /** A minus sign followed by digits has no whitespace to skip, and its sign
      strips off to the digits. */
  lemma NegativeShape(s: string)
    requires |s| >= 1 && AllDigits(s)
    ensures |"-" + s| > 0 && ("-" + s)[0] == '-'
    ensures TrimStart("-" + s, IsJsSpace) == "-" + s
    ensures SignStripped("-" + s) == s
  {
    var t := "-" + s;
    assert t[0] == '-' && t[1..] == s;
    assert forall i :: 0 <= i < |t| ==> !IsJsSpace(t[i]) by {
      assert forall i :: 1 <= i < |t| ==> t[i] == s[i - 1];
    }
    TrimNoSpace(t, IsJsSpace);
  }

  /** `parseInt(String(x)) == x` for every integer and for `NaN`. */
  lemma ParseIntOfToString(x: JsNum)
    ensures ParseInt(ToString(x)) == x
  {
    match x
    case NaN =>
      TrimNoSpace("NaN", IsJsSpace);
      assert SignStripped("NaN") == "NaN";
    case Num(i) =>
      if i < 0 {
        ParseIntOfNegative(NatToString(-i));
        DigitsValueOfNatToString(-i);
      } else {
        ParseIntOfNat(NatToString(i));
        DigitsValueOfNatToString(i);
      }
  }

  /** `parseInt` reads a leading number and ignores what follows it, where
      `Number` refuses the whole string. */
  lemma ParseIntStopsAtNonDigit()
    ensures ParseInt("15th") == Num(15)
    ensures Number("15th") == NaN
  {
    assert LeadingDigits("15th") == "15" by {
      assert "15th"[1..] == "5th" && "5th"[1..] == "th";
    }
    assert DigitsValue("15") == 15 by {
      assert "15"[..1] == "1";
      assert "1"[..0] == "";
    }
    TrimNoSpace("15th", IsJsSpace);
    assert !AllDigits("15th") by { assert !IsDigit("15th"[2]); }
  }
}
