// Shared vocabulary for the web client model: optional values, the string
// operations the TypeScript code relies on (ASCII case mapping, JavaScript
// whitespace and trim, substring search, join, number formatting), calendar
// dates and the school-type enumeration.

module Wrappers {

  /** An optional value: JavaScript's `undefined`/`null` versus a present value. */
  datatype Option<+T> = None | Some(value: T) {
    function GetOr(default: T): T {
      match this
      case Some(v) => v
      case None => default
    }
  }

  /** A validation outcome: the cleaned value, or the first message that rejects it. */
  datatype Result<+R, +E> = Success(value: R) | Failure(error: E)
}

module Text {
  import opened Wrappers

  predicate IsUpperAscii(c: char) { 'A' <= c <= 'Z' }
  predicate IsLowerAscii(c: char) { 'a' <= c <= 'z' }
  predicate IsDigit(c: char) { '0' <= c <= '9' }
  predicate AllDigits(s: string) { forall i :: 0 <= i < |s| ==> IsDigit(s[i]) }

  /** `toLowerCase` restricted to ASCII. */
  function Lower(c: char): (r: char)
    ensures IsUpperAscii(c) ==> IsLowerAscii(r) && r as int == c as int + 32
    ensures !IsUpperAscii(c) ==> r == c
  {
    if IsUpperAscii(c) then (c as int + 32) as char else c
  }

  /** `toUpperCase` restricted to ASCII. */
  function Upper(c: char): (r: char)
    ensures IsLowerAscii(c) ==> IsUpperAscii(r) && r as int == c as int - 32
    ensures !IsLowerAscii(c) ==> r == c
  {
    if IsLowerAscii(c) then (c as int - 32) as char else c
  }

  function LowerStr(s: string): (r: string)
    ensures |r| == |s|
    ensures forall i :: 0 <= i < |s| ==> r[i] == Lower(s[i])
  {
    seq(|s|, i requires 0 <= i < |s| => Lower(s[i]))
  }

  function UpperStr(s: string): (r: string)
    ensures |r| == |s|
    ensures forall i :: 0 <= i < |s| ==> r[i] == Upper(s[i])
  {
    seq(|s|, i requires 0 <= i < |s| => Upper(s[i]))
  }

  lemma {:induction false} LowerStrIdempotent(s: string)
    ensures LowerStr(LowerStr(s)) == LowerStr(s)
  {
  }

  /** Lower-casing forgets whatever upper-casing did. */
  lemma {:induction false} LowerOfUpper(s: string)
    ensures LowerStr(UpperStr(s)) == LowerStr(s)
  {
    assert forall i :: 0 <= i < |s| ==> Lower(Upper(s[i])) == Lower(s[i]);
  }

  lemma {:induction false} LowerStrConcat(a: string, b: string)
    ensures LowerStr(a + b) == LowerStr(a) + LowerStr(b)
  {
  }

  /** The characters JavaScript's `String.prototype.trim` and the regex class `\s`
      treat as white space: WhiteSpace and LineTerminator of ECMA-262. */
  predicate IsJsSpace(c: char) {
    c == '\t' || c == '\n' || c == '\U{000B}' || c == '\U{000C}' || c == '\r' || c == ' '
    || c == '\U{00A0}' || c == '\U{1680}' || ('\U{2000}' <= c <= '\U{200A}')
    || c == '\U{2028}' || c == '\U{2029}' || c == '\U{202F}' || c == '\U{205F}'
    || c == '\U{3000}' || c == '\U{FEFF}'
  }

  lemma {:induction false} LowerKeepsSpace(c: char)
    ensures IsJsSpace(Lower(c)) <==> IsJsSpace(c)
  {
  }

  predicate AllSpace(s: string) { forall i :: 0 <= i < |s| ==> IsJsSpace(s[i]) }

  lemma {:induction false} AllSpaceCons(c: char, t: string)
    requires IsJsSpace(c) && AllSpace(t)
    ensures AllSpace([c] + t)
  {
    assert forall i :: 0 < i <= |t| ==> ([c] + t)[i] == t[i - 1];
  }

  lemma {:induction false} AllSpaceSnoc(t: string, c: char)
    requires IsJsSpace(c) && AllSpace(t)
    ensures AllSpace(t + [c])
  {
    assert forall i :: 0 <= i < |t| ==> (t + [c])[i] == t[i];
  }

  /** Leading white space removed: the result is a suffix that does not start with white space. */
  function TrimStart(s: string): (r: string)
    ensures |r| <= |s| && r == s[|s| - |r|..]
    ensures r == [] || !IsJsSpace(r[0])
  {
    if |s| > 0 && IsJsSpace(s[0]) then
      var r := TrimStart(s[1..]);
      assert s[1..][|s| - 1 - |r|..] == s[|s| - |r|..];
      r
    else s
  }

  /** What TrimStart cuts is all white space. */
  lemma {:induction false} TrimStartCutsSpace(s: string)
    ensures AllSpace(s[..|s| - |TrimStart(s)|])
  {
    if |s| > 0 && IsJsSpace(s[0]) {
      var r := TrimStart(s[1..]);
      assert TrimStart(s) == r;
      TrimStartCutsSpace(s[1..]);
      AllSpaceCons(s[0], s[1..][..|s| - 1 - |r|]);
      assert s[..|s| - |r|] == [s[0]] + s[1..][..|s| - 1 - |r|];
    }
  }

  /** Trailing white space removed: the result is a prefix that does not end with white space. */
  function TrimEnd(s: string): (r: string)
    ensures |r| <= |s| && r == s[..|r|]
    ensures r == [] || !IsJsSpace(r[|r| - 1])
  {
    if |s| > 0 && IsJsSpace(s[|s| - 1]) then
      var r := TrimEnd(s[..|s| - 1]);
      assert s[..|s| - 1][..|r|] == s[..|r|];
      r
    else s
  }

  /** What TrimEnd cuts is all white space. */
  lemma {:induction false} TrimEndCutsSpace(s: string)
    ensures AllSpace(s[|TrimEnd(s)|..])
  {
    if |s| > 0 && IsJsSpace(s[|s| - 1]) {
      var r := TrimEnd(s[..|s| - 1]);
      assert TrimEnd(s) == r;
      TrimEndCutsSpace(s[..|s| - 1]);
      AllSpaceSnoc(s[..|s| - 1][|r|..], s[|s| - 1]);
      assert s[|r|..] == s[..|s| - 1][|r|..] + [s[|s| - 1]];
    }
  }

  /** `String.prototype.trim`. */
  function Trim(s: string): (r: string)
    ensures |r| <= |s|
    ensures r == [] || (!IsJsSpace(r[0]) && !IsJsSpace(r[|r| - 1]))
  {
    TrimEnd(TrimStart(s))
  }

  lemma {:induction false} TrimStartNoLeading(s: string)
    requires s == [] || !IsJsSpace(s[0])
    ensures TrimStart(s) == s
  {
  }

  lemma {:induction false} TrimEndNoTrailing(s: string)
    requires s == [] || !IsJsSpace(s[|s| - 1])
    ensures TrimEnd(s) == s
  {
  }

  /** Trimming a string that already has no white space at either end changes nothing. */
  lemma {:induction false} TrimOfTrimmed(s: string)
    requires s == [] || (!IsJsSpace(s[0]) && !IsJsSpace(s[|s| - 1]))
    ensures Trim(s) == s
  {
    TrimStartNoLeading(s);
    TrimEndNoTrailing(s);
  }

  lemma {:induction false} TrimIdempotent(s: string)
    ensures Trim(Trim(s)) == Trim(s)
  {
    TrimOfTrimmed(Trim(s));
  }

  /** Trimming leaves nothing exactly when the text is all white space. */
  lemma {:induction false} TrimEmptyIffAllSpace(s: string)
    ensures Trim(s) == [] <==> AllSpace(s)
  {
    var t := TrimStart(s);
    TrimStartCutsSpace(s);
    TrimEndCutsSpace(t);
    if t != [] {
      assert t[0] == s[|s| - |t|];
      assert t[0..] == t;
    }
    assert s[..|s|] == s;
  }

  /** Trim is the slice of `s` between its leading and trailing white space. */
  lemma {:induction false} TrimIsSlice(s: string) returns (lo: nat, hi: nat)
    ensures lo <= hi <= |s| && Trim(s) == s[lo..hi]
  {
    var t := TrimStart(s);
    lo := |s| - |t|;
    hi := lo + |TrimEnd(t)|;
    assert TrimEnd(t) == t[..|TrimEnd(t)|];
    assert t[..|TrimEnd(t)|] == s[lo..hi];
  }

  /** Leading white space in front of a non-space character is exactly what TrimStart removes. */
  lemma {:induction false} TrimStartPadded(w: string, x: string)
    requires AllSpace(w)
    requires x == [] || !IsJsSpace(x[0])
    ensures TrimStart(w + x) == x
  {
    if w == [] {
      assert w + x == x;
      TrimStartNoLeading(x);
    } else {
      assert (w + x)[1..] == w[1..] + x;
      TrimStartPadded(w[1..], x);
    }
  }

  lemma {:induction false} TrimEndPadded(x: string, w: string)
    requires AllSpace(w)
    requires x == [] || !IsJsSpace(x[|x| - 1])
    ensures TrimEnd(x + w) == x
  {
    if w == [] {
      assert x + w == x;
      TrimEndNoTrailing(x);
    } else {
      assert (x + w)[..|x + w| - 1] == x + w[..|w| - 1];
      TrimEndPadded(x, w[..|w| - 1]);
    }
  }

  /** TrimStart only looks at the front: with a non-space character ahead of `y`, `y` survives. */
  lemma {:induction false} TrimStartStopsBefore(x: string, y: string) returns (k: nat)
    requires y != [] && !IsJsSpace(y[0])
    ensures k <= |x| && TrimStart(x + y) == x[k..] + y
  {
    if |x| > 0 && IsJsSpace(x[0]) {
      assert (x + y)[0] == x[0];
      assert (x + y)[1..] == x[1..] + y;
      var j := TrimStartStopsBefore(x[1..], y);
      assert x[1..][j..] == x[j + 1..];
      k := j + 1;
    } else if |x| > 0 {
      k := 0;
      assert (x + y)[0] == x[0];
      assert x[0..] == x;
    } else {
      k := 0;
      assert x + y == y;
      assert x[0..] + y == y;
    }
  }

  /** TrimEnd only looks at the back: with a non-space character behind `x`, `x` survives. */
  lemma {:induction false} TrimEndStopsAfter(x: string, y: string) returns (m: nat)
    requires x != [] && !IsJsSpace(x[|x| - 1])
    ensures m <= |y| && TrimEnd(x + y) == x + y[..m]
  {
    if |y| > 0 && IsJsSpace(y[|y| - 1]) {
      assert (x + y)[|x + y| - 1] == y[|y| - 1];
      assert (x + y)[..|x + y| - 1] == x + y[..|y| - 1];
      m := TrimEndStopsAfter(x, y[..|y| - 1]);
      assert y[..|y| - 1][..m] == y[..m];
    } else if |y| > 0 {
      m := |y|;
      assert (x + y)[|x + y| - 1] == y[|y| - 1];
      assert y[..|y|] == y;
    } else {
      m := 0;
      assert x + y == x;
      assert x + y[..0] == x;
    }
  }

  /** Leading white space is skipped whatever follows it. */
  lemma {:induction false} TrimStartSkipsSpace(w: string, x: string)
    requires AllSpace(w)
    ensures TrimStart(w + x) == TrimStart(x)
  {
    if w == [] {
      assert w + x == x;
    } else {
      assert (w + x)[0] == w[0];
      assert (w + x)[1..] == w[1..] + x;
      TrimStartSkipsSpace(w[1..], x);
    }
  }

  /** Trailing white space is skipped whatever precedes it. */
  lemma {:induction false} TrimEndSkipsSpace(x: string, w: string)
    requires AllSpace(w)
    ensures TrimEnd(x + w) == TrimEnd(x)
  {
    if w == [] {
      assert x + w == x;
    } else {
      assert (x + w)[|x + w| - 1] == w[|w| - 1];
      assert (x + w)[..|x + w| - 1] == x + w[..|w| - 1];
      TrimEndSkipsSpace(x, w[..|w| - 1]);
    }
  }

  /** TrimStart of a concatenation: the tail survives once a non-space character is met. */
  lemma {:induction false} TrimStartAppend(y: string, w: string)
    ensures TrimStart(y) != [] ==> TrimStart(y + w) == TrimStart(y) + w
    ensures TrimStart(y) == [] ==> TrimStart(y + w) == TrimStart(w)
  {
    if y == [] {
      assert y + w == w;
    } else if IsJsSpace(y[0]) {
      assert (y + w)[0] == y[0];
      assert (y + w)[1..] == y[1..] + w;
      TrimStartAppend(y[1..], w);
    } else {
      assert (y + w)[0] == y[0];
    }
  }

  /** White space around a string does not change what trim keeps. */
  lemma {:induction false} TrimPadded(w1: string, y: string, w2: string)
    requires AllSpace(w1) && AllSpace(w2)
    ensures Trim(w1 + y + w2) == Trim(y)
  {
    assert w1 + y + w2 == w1 + (y + w2);
    TrimStartSkipsSpace(w1, y + w2);
    TrimStartAppend(y, w2);
    if TrimStart(y) != [] {
      TrimEndSkipsSpace(TrimStart(y), w2);
    } else {
      TrimStartSkipsSpace(w2, []);
      assert w2 + [] == w2;
    }
  }

  /** `s.includes(sub)`. */
  predicate Contains(s: string, sub: string)
    decreases |s|
  {
    sub <= s || (|s| > 0 && Contains(s[1..], sub))
  }

  /** `sub` occurs in `s` starting at offset `i`. */
  predicate OccursAt(s: string, sub: string, i: int) {
    0 <= i <= |s| - |sub| && s[i..i + |sub|] == sub
  }

  /** Contains means `sub` occurs at some offset. */
  lemma {:induction false} ContainsAt(s: string, sub: string)
    ensures Contains(s, sub) <==> exists i :: OccursAt(s, sub, i)
  {
    if sub <= s {
      assert OccursAt(s, sub, 0);
    } else if |s| > 0 {
      ContainsAt(s[1..], sub);
      if Contains(s[1..], sub) {
        var i :| OccursAt(s[1..], sub, i);
        assert s[i + 1..i + 1 + |sub|] == s[1..][i..i + |sub|];
        assert OccursAt(s, sub, i + 1);
      }
      if exists i :: OccursAt(s, sub, i) {
        var i :| OccursAt(s, sub, i);
        assert i != 0;
        assert s[1..][i - 1..i - 1 + |sub|] == s[i..i + |sub|];
        assert OccursAt(s[1..], sub, i - 1);
      }
    }
  }

  /** A string only contains pieces no longer than itself. */
  lemma {:induction false} ContainsLength(s: string, sub: string)
    requires Contains(s, sub)
    ensures |sub| <= |s|
    decreases |s|
  {
    if !(sub <= s) {
      ContainsLength(s[1..], sub);
    }
  }

  /** Every character of a contained piece occurs in the containing string. */
  lemma {:induction false} ContainsChars(s: string, sub: string, c: char)
    requires Contains(s, sub) && c in sub
    ensures c in s
    decreases |s|
  {
    if sub <= s {
      var i :| 0 <= i < |sub| && sub[i] == c;
      assert s[i] == c;
    } else {
      ContainsChars(s[1..], sub, c);
      assert forall d :: d in s[1..] ==> d in s;
    }
  }

  /** A string contains whatever sits in it between two other pieces. */
  lemma {:induction false} ContainsMiddle(a: string, sub: string, b: string)
    ensures Contains(a + sub + b, sub)
  {
    var s := a + sub + b;
    assert s[|a|..|a| + |sub|] == sub;
    assert OccursAt(s, sub, |a|);
    ContainsAt(s, sub);
  }

  /** Trimming cannot cut into a piece that starts and ends with a non-space character. */
  lemma {:induction false} TrimKeepsCore(x: string, p: string, y: string)
    requires p != [] && !IsJsSpace(p[0]) && !IsJsSpace(p[|p| - 1])
    ensures Contains(Trim(x + (p + y)), p)
  {
    var k := TrimStartStopsBefore(x, p + y);
    var front := x[k..] + p;
    assert x[k..] + (p + y) == front + y;
    var m := TrimEndStopsAfter(front, y);
    ContainsMiddle(x[k..], p, y[..m]);
  }

  /** `xs.join(sep)`. */
  function Join(xs: seq<string>, sep: string): string
    decreases |xs|
  {
    if |xs| == 0 then "" else if |xs| == 1 then xs[0] else xs[0] + sep + Join(xs[1..], sep)
  }

  /** JavaScript's `a || d` on an optional string: absent and "" are both falsy. */
  predicate Truthy(o: Option<string>) { o.Some? && o.value != "" }

  function OrElse(o: Option<string>, d: string): (r: string)
    ensures Truthy(o) ==> r == o.value
    ensures !Truthy(o) ==> r == d
  {
    if Truthy(o) then o.value else d
  }

  function DigitChar(d: int): (c: char)
    requires 0 <= d < 10
    ensures IsDigit(c)
  {
    ('0' as int + d) as char
  }

  function DigitValue(c: char): int
    requires IsDigit(c)
  {
    c as int - '0' as int
  }

  /** Decimal text of a non-negative integer, as `Number.prototype.toString` writes it. */
  function NatToString(n: nat): (r: string)
    ensures |r| > 0 && AllDigits(r)
    ensures |r| > 1 ==> r[0] != '0'
  {
    if n < 10 then [DigitChar(n)] else NatToString(n / 10) + [DigitChar(n % 10)]
  }

  function ParseDigits(s: string): nat
    requires AllDigits(s)
  {
    if s == [] then 0 else ParseDigits(s[..|s| - 1]) * 10 + DigitValue(s[|s| - 1])
  }

  /** Reading the decimal text back gives the number. */
  lemma {:induction false} NatToStringRoundTrip(n: nat)
    ensures ParseDigits(NatToString(n)) == n
  {
    var s := NatToString(n);
    if n >= 10 {
      NatToStringRoundTrip(n / 10);
      assert s[..|s| - 1] == NatToString(n / 10);
    }
  }

  /** Decimal text of an integer, with a leading '-' when negative. */
  function IntToString(n: int): (r: string)
    ensures |r| > 0
    ensures n < 0 <==> r[0] == '-'
  {
    if n < 0 then "-" + NatToString(-n) else NatToString(n)
  }
}

module Calendar {

  /** A calendar day as JavaScript's Date getters report it (month 1-12 here; the
      source compares 0-11 months with each other, which orders them the same). */
  datatype CalendarDate = CalendarDate(year: int, month: int, day: int)

  /** Earlier in (year, month, day) order. */
  predicate Before(a: CalendarDate, b: CalendarDate) {
    a.year < b.year || (a.year == b.year && (a.month < b.month || (a.month == b.month && a.day < b.day)))
  }

  /** The k-th birthday after `birth`. */
  function Anniversary(birth: CalendarDate, k: int): CalendarDate {
    CalendarDate(birth.year + k, birth.month, birth.day)
  }

  /** Age in whole years: the year difference, less one while this year's
      birthday is still ahead (month earlier, or same month and day earlier). */
  function AgeOn(birth: CalendarDate, today: CalendarDate): (age: int)
    ensures !Before(today, Anniversary(birth, age))
    ensures Before(today, Anniversary(birth, age + 1))
  {
    var years := today.year - birth.year;
    if today.month < birth.month || (today.month == birth.month && today.day < birth.day) then years - 1 else years
  }

  /** Those two facts pin the age down: it is the number of birthdays passed. */
  lemma {:induction false} AgeUnique(birth: CalendarDate, today: CalendarDate, k: int)
    requires !Before(today, Anniversary(birth, k)) && Before(today, Anniversary(birth, k + 1))
    ensures k == AgeOn(birth, today)
  {
  }
}

module SchoolKinds {
  import opened Wrappers

  /** The three school levels an institution can run. */
  datatype SchoolType = Primary | Secondary | Tertiary {
    function Name(): string {
      match this
      case Primary => "PRIMARY"
      case Secondary => "SECONDARY"
      case Tertiary => "TERTIARY"
    }
  }

  function ParseSchoolType(s: string): (r: Option<SchoolType>)
    ensures r.Some? ==> r.value.Name() == s
  {
    if s == "PRIMARY" then Some(Primary)
    else if s == "SECONDARY" then Some(Secondary)
    else if s == "TERTIARY" then Some(Tertiary)
    else None
  }

  lemma {:induction false} ParseName(t: SchoolType)
    ensures ParseSchoolType(t.Name()) == Some(t)
  {
  }
}
