/** String helpers shared by every part of the model: the JavaScript and Python
    string operations the studio relies on (split, join, trim, case mapping,
    includes, startsWith) and decimal rendering of integers. */
module Text {

  datatype Option<T> = None | Some(value: T)

  /** The character class `[A-Za-z0-9_]`. */
  predicate IsWordChar(c: char) {
    ('a' <= c <= 'z') || ('A' <= c <= 'Z') || ('0' <= c <= '9') || c == '_'
  }

  predicate IsDigit(c: char) { '0' <= c <= '9' }

  predicate AllDigits(s: string) { forall i :: 0 <= i < |s| ==> IsDigit(s[i]) }

  /** `xs.filter(y => y !== d)`: every element other than `d`, in order. */
  function Without<T(==, !new)>(xs: seq<T>, d: T): (r: seq<T>)
    ensures forall y :: y in r <==> y in xs && y != d
    decreases |xs|
  {
    if |xs| == 0 then []
    else Without(xs[..|xs| - 1], d) + (if xs[|xs| - 1] == d then [] else [xs[|xs| - 1]])
  }

  // ---------------------------------------------------------------------------
  // UTF-16 lengths, as JavaScript counts them
  // ---------------------------------------------------------------------------

  /** A character JavaScript stores as one UTF-16 code unit. */
  predicate IsBmp(c: char) { c as int < 0x1_0000 }

  predicate AllBmp(s: string) { forall i :: 0 <= i < |s| ==> IsBmp(s[i]) }

  /** `s.length` in JavaScript: a character outside the Basic Multilingual
      Plane is a surrogate pair and counts twice. */
  function Utf16Length(s: string): (n: nat)
    ensures n >= |s|
    ensures n == |s| <==> AllBmp(s)
  {
    if s == [] then 0 else (if IsBmp(s[0]) then 1 else 2) + Utf16Length(s[1..])
  }

  // ---------------------------------------------------------------------------
  // Case mapping (ASCII letters only)
  // ---------------------------------------------------------------------------

  function LowerChar(c: char): char {
    if 'A' <= c <= 'Z' then (c as int + 32) as char else c
  }

  function UpperChar(c: char): char {
    if 'a' <= c <= 'z' then (c as int - 32) as char else c
  }

  /** `s.toLowerCase()` / `s.lower()` on ASCII letters. */
  function Lower(s: string): (r: string)
    ensures |r| == |s|
    ensures forall i :: 0 <= i < |s| ==> r[i] == LowerChar(s[i])
  {
    if s == [] then [] else [LowerChar(s[0])] + Lower(s[1..])
  }

  /** `s.toUpperCase()` / `s.upper()` on ASCII letters. */
  function Upper(s: string): (r: string)
    ensures |r| == |s|
    ensures forall i :: 0 <= i < |s| ==> r[i] == UpperChar(s[i])
  {
    if s == [] then [] else [UpperChar(s[0])] + Upper(s[1..])
  }

  lemma LowerIdempotent(s: string)
    ensures Lower(Lower(s)) == Lower(s)
  {
  }

  lemma LowerOfUpper(s: string)
    ensures Lower(Upper(s)) == Lower(s)
  {
  }

  /** Lower-casing commutes with taking a prefix: `s.substring(0, n).toLowerCase()`
      and `s.toLowerCase().slice(0, n)` agree. */
  lemma LowerPrefix(s: string, n: nat)
    requires n <= |s|
    ensures Lower(s[..n]) == Lower(s)[..n]
  {
  }

  // ---------------------------------------------------------------------------
  // Prefix, containment
  // ---------------------------------------------------------------------------

  /** `s.startsWith(p)` */
  predicate StartsWith(s: string, p: string) {
    |p| <= |s| && s[..|p|] == p
  }

  lemma PrefixOfConcat(a: string, b: string)
    ensures StartsWith(a + b, a)
  {
    assert (a + b)[..|a|] == a;
  }

  lemma StartsWithExtend(s: string, p: string, x: string)
    requires StartsWith(s, p)
    ensures StartsWith(s + x, p)
  {
    assert (s + x)[..|p|] == s[..|p|];
  }

  /** `s.includes(p)` / `p in s` */
  predicate Contains(s: string, p: string)
    decreases |s|
  {
    StartsWith(s, p) || (|s| > 0 && Contains(s[1..], p))
  }

  lemma {:induction false} ContainsAt(s: string, p: string, k: nat)
    requires k + |p| <= |s| && s[k..k + |p|] == p
    ensures Contains(s, p)
    decreases k
  {
    if k == 0 {
      assert s[..|p|] == p;
    } else {
      assert s[1..][k - 1..k - 1 + |p|] == s[k..k + |p|];
      ContainsAt(s[1..], p, k - 1);
    }
  }

  lemma {:induction false} ContainsWitness(s: string, p: string) returns (k: nat)
    requires Contains(s, p)
    ensures k + |p| <= |s| && s[k..k + |p|] == p
    decreases |s|
  {
    if StartsWith(s, p) {
      k := 0;
    } else {
      var k' := ContainsWitness(s[1..], p);
      k := k' + 1;
      assert s[k..k + |p|] == s[1..][k'..k' + |p|];
    }
  }

  /** Containment is a property of the substring occurrences: a pattern occurs in
      `a + b` when it occurs in either part. */
  lemma ContainsInParts(a: string, b: string, p: string)
    ensures Contains(a, p) ==> Contains(a + b, p)
    ensures Contains(b, p) ==> Contains(a + b, p)
  {
    if Contains(a, p) {
      var k := ContainsWitness(a, p);
      assert (a + b)[k..k + |p|] == a[k..k + |p|];
      ContainsAt(a + b, p, k);
    }
    if Contains(b, p) {
      var k := ContainsWitness(b, p);
      assert (a + b)[|a| + k..|a| + k + |p|] == b[k..k + |p|];
      ContainsAt(a + b, p, |a| + k);
    }
  }

  // ---------------------------------------------------------------------------
  // Split and join
  // ---------------------------------------------------------------------------

  /** `s.split(sep)` for a one-character separator (JavaScript and Python agree):
      always at least one part, and no part contains the separator. */
  function Split(s: string, sep: char): (r: seq<string>)
    ensures |r| >= 1
    ensures forall k :: 0 <= k < |r| ==> sep !in r[k]
    decreases |s|
  {
    if |s| == 0 then [""]
    else
      var rest := Split(s[1..], sep);
      if s[0] == sep then [""] + rest else [[s[0]] + rest[0]] + rest[1..]
  }

  /** Splitting introduces no character: every part is made of characters of
      the string. */
  lemma {:induction false} SplitChars(s: string, sep: char, c: char)
    requires c !in s
    ensures forall k :: 0 <= k < |Split(s, sep)| ==> c !in Split(s, sep)[k]
    decreases |s|
  {
    if |s| > 0 {
      assert c !in s[1..];
      SplitChars(s[1..], sep, c);
    }
  }

  /** `parts.join(sep)` */
  function Join(parts: seq<string>, sep: string): string
    decreases |parts|
  {
    if |parts| == 0 then ""
    else if |parts| == 1 then parts[0]
    else parts[0] + sep + Join(parts[1..], sep)
  }

  lemma {:induction false} JoinSnoc(parts: seq<string>, x: string, sep: string)
    requires |parts| >= 1
    ensures Join(parts + [x], sep) == Join(parts, sep) + sep + x
    decreases |parts|
  {
    if |parts| == 1 {
      assert (parts + [x])[1..] == [x];
    } else {
      assert (parts + [x])[1..] == parts[1..] + [x];
      JoinSnoc(parts[1..], x, sep);
    }
  }

  /** Joining what was split restores the string. */
  lemma {:induction false} JoinSplit(s: string, sep: char)
    ensures Join(Split(s, sep), [sep]) == s
    decreases |s|
  {
    if |s| > 0 {
      JoinSplit(s[1..], sep);
      var rest := Split(s[1..], sep);
      if s[0] != sep {
        if |rest| > 1 {
          assert ([[s[0]] + rest[0]] + rest[1..])[1..] == rest[1..];
          assert Join(rest, [sep]) == rest[0] + [sep] + Join(rest[1..], [sep]);
        }
      } else {
        assert ([""] + rest)[1..] == rest;
      }
      assert s == [s[0]] + s[1..];
    }
  }

  /** A string free of the separator splits into itself. */
  lemma SplitNoSep(s: string, sep: char)
    requires sep !in s
    ensures Split(s, sep) == [s]
    decreases |s|
  {
    if |s| > 0 {
      assert sep !in s[1..];
      SplitNoSep(s[1..], sep);
      assert s == [s[0]] + s[1..];
    }
  }

  /** Splitting distributes over a separator occurrence. */
  /** One step of the split: a leading separator starts a new part, any other
      character joins the first part. */
  lemma SplitCons(c: char, t: string, sep: char)
    ensures Split([c] + t, sep) ==
      if c == sep then [""] + Split(t, sep)
      else [[c] + Split(t, sep)[0]] + Split(t, sep)[1..]
  {
    assert ([c] + t)[0] == c && ([c] + t)[1..] == t;
  }

  lemma {:induction false} SplitAround(a: string, b: string, sep: char)
    ensures Split(a + [sep] + b, sep) == Split(a, sep) + Split(b, sep)
    decreases |a|
  {
    if |a| == 0 {
      assert a + [sep] + b == [sep] + b;
      SplitCons(sep, b, sep);
    } else {
      var s := a + [sep] + b;
      assert s[0] == a[0] && s[1..] == a[1..] + [sep] + b;
      SplitAround(a[1..], b, sep);
      var ra, rb := Split(a[1..], sep), Split(b, sep);
      if a[0] == sep {
        AppendAssoc([""], ra, rb);
      } else {
        assert (ra + rb)[0] == ra[0] && (ra + rb)[1..] == ra[1..] + rb;
        AppendAssoc([[a[0]] + ra[0]], ra[1..], rb);
      }
    }
  }

  /** Splitting a join of separator-free parts gives the parts back. */
  lemma {:induction false} SplitJoin(parts: seq<string>, sep: char)
    requires |parts| >= 1
    requires forall k :: 0 <= k < |parts| ==> sep !in parts[k]
    ensures Split(Join(parts, [sep]), sep) == parts
    decreases |parts|
  {
    if |parts| == 1 {
      SplitNoSep(parts[0], sep);
    } else {
      SplitJoin(parts[1..], sep);
      SplitNoSep(parts[0], sep);
      SplitAround(parts[0], Join(parts[1..], [sep]), sep);
      assert parts == [parts[0]] + parts[1..];
    }
  }

  // ---------------------------------------------------------------------------
  // The replacement text of a JavaScript string `replace`
  // ---------------------------------------------------------------------------

  /** The characters that, after a `$`, make a replacement pattern. */
  predicate IsPatternCode(c: char) {
    c == '$' || c == '&' || c == '`' || c == '\''
  }

  /** What the pattern `$` followed by `code` stands for. */
  function Expansion(code: char, matched: string, before: string, after: string): string {
    if code == '$' then "$"
    else if code == '&' then matched
    else if code == '`' then before
    else after
  }

  /** What `replace` inserts for a replacement string `repl`, when the pattern has
      no capture groups (GetSubstitution, section 22.1.3.19.1 of ECMAScript 2024):
      `$$` is one `$`, `$&` the matched text, `` $` `` the text before the match
      and `$'` the text after it. Every other `$` is kept as it is. */
  function Substitution(repl: string, matched: string, before: string, after: string): (r: string)
    ensures '$' !in repl ==> r == repl
    decreases |repl|
  {
    if repl == [] then []
    else if repl[0] == '$' && |repl| >= 2 && IsPatternCode(repl[1]) then
      Expansion(repl[1], matched, before, after) + Substitution(repl[2..], matched, before, after)
    else [repl[0]] + Substitution(repl[1..], matched, before, after)
  }

  /** A replacement that starts with `$&` starts with the match. */
  lemma SubstituteMatchFirst(q: string, matched: string, before: string, after: string)
    requires '$' !in q
    ensures Substitution("$&" + q, matched, before, after) == matched + q
  {
    var r := "$&" + q;
    assert r[0] == '$' && r[1] == '&' && r[2..] == q;
    calc {
      Substitution(r, matched, before, after);
      Expansion('&', matched, before, after) + Substitution(q, matched, before, after);
      matched + q;
    }
  }

  /** A character other than `$` is copied. */
  lemma SubstituteOther(c: char, rest: string, matched: string, before: string, after: string)
    requires c != '$'
    ensures Substitution([c] + rest, matched, before, after) == [c] + Substitution(rest, matched, before, after)
  {
    assert ([c] + rest)[1..] == rest;
  }

  /** A `$&` between `$`-free text is replaced by the match. */
  lemma {:induction false} SubstituteMatch(p: string, q: string, matched: string, before: string, after: string)
    requires '$' !in p && '$' !in q
    ensures Substitution(p + "$&" + q, matched, before, after) == p + matched + q
    decreases |p|
  {
    if p == [] {
      assert p + "$&" + q == "$&" + q;
      SubstituteMatchFirst(q, matched, before, after);
    } else {
      var c, t := p[0], p[1..];
      assert p == [c] + t;
      AppendAssoc([c], t, "$&");
      AppendAssoc([c], t + "$&", q);
      SubstituteOther(c, t + "$&" + q, matched, before, after);
      SubstituteMatch(t, q, matched, before, after);
      AppendAssoc([c], t, matched);
      AppendAssoc([c], t + matched, q);
    }
  }

  /** The parts written one after the other. */
  function Concat(parts: seq<string>): string
    decreases |parts|
  {
    if |parts| == 0 then "" else Concat(parts[..|parts| - 1]) + parts[|parts| - 1]
  }

  lemma {:induction false} ConcatAppend(a: seq<string>, b: seq<string>)
    ensures Concat(a + b) == Concat(a) + Concat(b)
    decreases |b|
  {
    if |b| == 0 {
      assert a + b == a;
    } else {
      var n, ab := |b| - 1, a + b;
      assert ab[..|ab| - 1] == a + b[..n] && ab[|ab| - 1] == b[n];
      ConcatAppend(a, b[..n]);
      AppendAssoc(Concat(a), Concat(b[..n]), b[n]);
    }
  }

  /** Regrouping an append; stated once so that callers do not have to prove it
      by extensionality over long string terms. */
  lemma AppendAssoc<T>(a: seq<T>, b: seq<T>, c: seq<T>)
    ensures (a + b) + c == a + (b + c)
  {
  }

  /** An element-wise image of `a + b` is the image of `a` followed by that of
      `b`; stated over a function value so that callers' elements are never
      unfolded. */
  lemma MapSplit<T, U>(f: T -> U, a: seq<T>, b: seq<T>, l: seq<U>, la: seq<U>, lb: seq<U>)
    requires |l| == |a| + |b| && |la| == |a| && |lb| == |b|
    requires forall k :: 0 <= k < |a + b| ==> l[k] == f((a + b)[k])
    requires forall k :: 0 <= k < |a| ==> la[k] == f(a[k])
    requires forall k :: 0 <= k < |b| ==> lb[k] == f(b[k])
    ensures l == la + lb
  {
    forall k | 0 <= k < |l| ensures l[k] == (la + lb)[k] {
      if k < |a| {
        assert (a + b)[k] == a[k];
      } else {
        assert (a + b)[k] == b[k - |a|];
      }
    }
  }

  lemma AppendEmpty<T>(x: seq<T>)
    ensures [] + x == x && x + [] == x
  {
  }

  lemma ConcatSingle(x: string)
    ensures Concat([x]) == x
  {
    assert [x][..0] == [];
    assert "" + x == x;
  }

  lemma ConcatSnoc(parts: seq<string>, x: string)
    ensures Concat(parts + [x]) == Concat(parts) + x
  {
    assert (parts + [x])[..|parts|] == parts;
  }

  /** The last element of `s.split(sep)`, i.e. `s.split(sep).pop()`. */
  function LastSegment(s: string, sep: char): string {
    var parts := Split(s, sep);
    parts[|parts| - 1]
  }

  // ---------------------------------------------------------------------------
  // Whitespace trimming
  // ---------------------------------------------------------------------------

  /** JavaScript's WhiteSpace and LineTerminator characters, which `trim()` strips. */
  predicate IsJsSpace(c: char) {
    var n := c as int;
    (9 <= n <= 13) || n == 32 || n == 0xA0 || n == 0x1680 || (0x2000 <= n <= 0x200A)
    || n == 0x2028 || n == 0x2029 || n == 0x202F || n == 0x205F || n == 0x3000 || n == 0xFEFF
  }

  /** The characters Python's `str.isspace()` accepts, which `strip()` removes. */
  predicate IsPySpace(c: char) {
    var n := c as int;
    (9 <= n <= 13) || (0x1C <= n <= 32) || n == 0x85 || n == 0xA0 || n == 0x1680
    || (0x2000 <= n <= 0x200A) || n == 0x2028 || n == 0x2029 || n == 0x202F || n == 0x205F
    || n == 0x3000
  }

  function TrimStart(s: string, isSpace: char -> bool): string
    decreases |s|
  {
    if |s| > 0 && isSpace(s[0]) then TrimStart(s[1..], isSpace) else s
  }

  function TrimEnd(s: string, isSpace: char -> bool): string
    decreases |s|
  {
    if |s| > 0 && isSpace(s[|s| - 1]) then TrimEnd(s[..|s| - 1], isSpace) else s
  }

  /** Removes the leading and trailing characters of the given class. */
  function Trim(s: string, isSpace: char -> bool): string {
    TrimEnd(TrimStart(s, isSpace), isSpace)
  }

  predicate AllSpace(s: string, isSpace: char -> bool) {
    forall i :: 0 <= i < |s| ==> isSpace(s[i])
  }

  lemma {:induction false} TrimStartEmpty(s: string, isSpace: char -> bool)
    ensures TrimStart(s, isSpace) == "" <==> AllSpace(s, isSpace)
    decreases |s|
  {
    if |s| > 0 && isSpace(s[0]) {
      TrimStartEmpty(s[1..], isSpace);
      assert AllSpace(s, isSpace) <==> AllSpace(s[1..], isSpace) by {
        if AllSpace(s[1..], isSpace) {
          forall i | 0 <= i < |s| ensures isSpace(s[i]) {
            if i > 0 { assert s[i] == s[1..][i - 1]; }
          }
        }
      }
    }
  }

  /** A string trims to nothing exactly when every character is whitespace. */
  lemma TrimEmpty(s: string, isSpace: char -> bool)
    ensures Trim(s, isSpace) == "" <==> AllSpace(s, isSpace)
  {
    TrimStartEmpty(s, isSpace);
    TrimStartNonSpace(s, isSpace);
    TrimEndEmptyWhenStartNonSpace(TrimStart(s, isSpace), isSpace);
  }

  lemma {:induction false} TrimStartNonSpace(s: string, isSpace: char -> bool)
    ensures var t := TrimStart(s, isSpace); |t| == 0 || !isSpace(t[0])
    decreases |s|
  {
    if |s| > 0 && isSpace(s[0]) { TrimStartNonSpace(s[1..], isSpace); }
  }

  lemma {:induction false} TrimEndEmptyWhenStartNonSpace(t: string, isSpace: char -> bool)
    ensures (|t| == 0 || !isSpace(t[0])) ==> (TrimEnd(t, isSpace) == "" <==> t == "")
    decreases |t|
  {
    if |t| > 0 && !isSpace(t[0]) && isSpace(t[|t| - 1]) {
      var u := t[..|t| - 1];
      assert |u| > 0 && u[0] == t[0];
      TrimEndEmptyWhenStartNonSpace(u, isSpace);
    }
  }

  // ---------------------------------------------------------------------------
  // Character replacement
  // ---------------------------------------------------------------------------

  /** `s.replace(/x/g, y)` / Python `s.replace(x, y)` for single characters. */
  function ReplaceChar(s: string, x: char, y: char): (r: string)
    ensures |r| == |s|
    ensures forall i :: 0 <= i < |s| ==> r[i] == (if s[i] == x then y else s[i])
  {
    if s == [] then [] else [if s[0] == x then y else s[0]] + ReplaceChar(s[1..], x, y)
  }

  // ---------------------------------------------------------------------------
  // Decimal rendering and parsing of integers
  // ---------------------------------------------------------------------------

  function DigitChar(d: nat): char
    requires d < 10
  {
    ('0' as int + d) as char
  }

  function DigitValue(c: char): nat
    requires IsDigit(c)
  {
    c as int - '0' as int
  }

  /** Decimal rendering of a natural number without leading zeros. */
  function NatToString(n: nat): (r: string)
    ensures |r| >= 1 && AllDigits(r)
    ensures |r| > 1 ==> r[0] != '0'
  {
    if n < 10 then [DigitChar(n)] else NatToString(n / 10) + [DigitChar(n % 10)]
  }

  /** `String(i)` / `str(i)` for an integer. */
  function IntToString(i: int): (r: string)
    ensures |r| >= 1
  {
    if i < 0 then "-" + NatToString(-i) else NatToString(i)
  }

  /** The value of a non-empty run of decimal digits. */
  function DigitsValue(s: string): nat
    requires AllDigits(s)
  {
    if s == [] then 0 else DigitsValue(s[..|s| - 1]) * 10 + DigitValue(s[|s| - 1])
  }

  lemma {:induction false} DigitsValueOfNatToString(n: nat)
    ensures DigitsValue(NatToString(n)) == n
  {
    if n >= 10 {
      DigitsValueOfNatToString(n / 10);
      var s := NatToString(n / 10) + [DigitChar(n % 10)];
      assert s[..|s| - 1] == NatToString(n / 10);
    }
  }
}
