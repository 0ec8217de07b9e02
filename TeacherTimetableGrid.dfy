// The period bucketing of apps/web/src/components/timetable/TeacherTimetableGrid.tsx:
// the sorted, de-duplicated `startTime-endTime` keys, the day-by-slot grid of
// periods, the per-school-type display text, the colour fallback and the
// per-day list ordered by start time. Strings are ordered code unit by code
// unit, as `Array.prototype.sort` does without a comparator.

module TeacherTimetableGrid {
  import opened Wrappers
  import opened Text
  import opened SchoolKinds

  const Days: seq<string> := ["MONDAY", "TUESDAY", "WEDNESDAY", "THURSDAY", "FRIDAY", "SATURDAY", "SUNDAY"]

  datatype Period = Period(
    id: string,
    dayOfWeek: string,
    startTime: string,
    endTime: string,
    kind: string,
    subjectName: Option<string>,
    courseName: Option<string>,
    classArmName: Option<string>,
    className: Option<string>,
    roomName: Option<string>)

  /** `${period.startTime}-${period.endTime}`. */
  function SlotKey(p: Period): string { p.startTime + "-" + p.endTime }

  // ---- string order ----

  /** Lexicographic order on characters; a proper prefix comes first. */
  predicate StrLess(a: string, b: string)
    decreases |a|
  {
    if a == [] then b != []
    else if b == [] then false
    else if a[0] != b[0] then a[0] < b[0]
    else StrLess(a[1..], b[1..])
  }

  lemma {:induction false} StrLessIrreflexive(a: string)
    ensures !StrLess(a, a)
  {
    if a != [] { StrLessIrreflexive(a[1..]); }
  }

  lemma {:induction false} StrLessTotal(a: string, b: string)
    requires a != b
    ensures StrLess(a, b) || StrLess(b, a)
  {
    if a != [] && b != [] && a[0] == b[0] {
      assert a == [a[0]] + a[1..] && b == [b[0]] + b[1..];
      StrLessTotal(a[1..], b[1..]);
    }
  }

  lemma {:induction false} StrLessTransitive(a: string, b: string, c: string)
    requires StrLess(a, b) && StrLess(b, c)
    ensures StrLess(a, c)
    decreases |a|
  {
    if a != [] && b != [] && c != [] && a[0] == b[0] && b[0] == c[0] {
      StrLessTransitive(a[1..], b[1..], c[1..]);
    }
  }

  lemma {:induction false} StrLessAsymmetric(a: string, b: string)
    requires StrLess(a, b)
    ensures !StrLess(b, a)
  {
    if StrLess(b, a) {
      StrLessTransitive(a, b, a);
      StrLessIrreflexive(a);
    }
  }

  /** Strictly increasing, hence sorted with no key twice. */
  predicate StrictlySorted(s: seq<string>) {
    forall i, j :: 0 <= i < j < |s| ==> StrLess(s[i], s[j])
  }

  predicate Distinct(s: seq<string>) {
    forall i, j :: 0 <= i < j < |s| ==> s[i] != s[j]
  }

  lemma {:induction false} StrictlySortedIsDistinct(s: seq<string>)
    requires StrictlySorted(s)
    ensures Distinct(s)
  {
    forall i, j | 0 <= i < j < |s| ensures s[i] != s[j] {
      StrLessIrreflexive(s[i]);
    }
  }

  /** Adds `x` to a strictly increasing list, keeping it strictly increasing. */
  function InsertKey(x: string, s: seq<string>): (r: seq<string>)
    requires StrictlySorted(s)
    ensures StrictlySorted(r)
    ensures forall y :: y in r <==> y in s || y == x
    decreases |s|
  {
    if s == [] then [x]
    else if x == s[0] then s
    else if StrLess(x, s[0]) then
      assert forall j :: 0 <= j < |s| ==> StrLess(x, s[j]) by {
        forall j | 0 <= j < |s| ensures StrLess(x, s[j]) {
          if j > 0 { StrLessTransitive(x, s[0], s[j]); }
        }
      }
      [x] + s
    else
      StrLessTotal(x, s[0]);
      var rest := InsertKey(x, s[1..]);
      assert forall y :: y in s[1..] ==> StrLess(s[0], y) by {
        forall y | y in s[1..] ensures StrLess(s[0], y) {
          var j :| 0 <= j < |s[1..]| && s[1..][j] == y;
          assert s[j + 1] == y;
        }
      }
      assert forall y :: y in s ==> y == s[0] || y in s[1..];
      [s[0]] + rest
  }

  /** The keys of a list in increasing order, without repeats. */
  function SortKeys(s: seq<string>): (r: seq<string>)
    ensures StrictlySorted(r)
    ensures forall y :: y in r <==> y in s
  {
    if s == [] then []
    else
      assert forall y :: y in s ==> y == s[0] || y in s[1..];
      InsertKey(s[0], SortKeys(s[1..]))
  }

  /** Two strictly increasing lists with the same members are equal, so any
      sort of the distinct keys gives the same list. */
  lemma {:induction false} StrictlySortedUnique(a: seq<string>, b: seq<string>)
    requires StrictlySorted(a) && StrictlySorted(b)
    requires forall y :: y in a <==> y in b
    ensures a == b
    decreases |a|
  {
    if a != [] { assert a[0] in a; }
    if b != [] { assert b[0] in b; }
    if a != [] && b != [] {
      if a[0] != b[0] {
        assert b[0] in b && a[0] in a;
        var k :| 0 <= k < |a| && a[k] == b[0];
        var m :| 0 <= m < |b| && b[m] == a[0];
        StrLessAsymmetric(a[0], a[k]);
      }
      StrictlySortedIsDistinct(a);
      StrictlySortedIsDistinct(b);
      forall y ensures y in a[1..] <==> y in b[1..] {
        if y in a[1..] {
          var i :| 0 <= i < |a[1..]| && a[1..][i] == y;
          assert a[i + 1] == y && y != a[0];
          assert y in b;
          var j :| 0 <= j < |b| && b[j] == y;
          assert j != 0;
          assert b[1..][j - 1] == y;
        }
        if y in b[1..] {
          var i :| 0 <= i < |b[1..]| && b[1..][i] == y;
          assert b[i + 1] == y && y != b[0];
          assert y in a;
          var j :| 0 <= j < |a| && a[j] == y;
          assert j != 0;
          assert a[1..][j - 1] == y;
        }
      }
      StrictlySortedUnique(a[1..], b[1..]);
      assert a == [a[0]] + a[1..] && b == [b[0]] + b[1..];
    }
  }

  // ---- allTimeSlots ----

  predicate HasKey(t: seq<Period>, k: string) {
    exists j :: 0 <= j < |t| && SlotKey(t[j]) == k
  }

  /** `allTimeSlots`: every period's key added to a set, then sorted. */
  method AllTimeSlots(timetable: seq<Period>) returns (slots: seq<string>)
    ensures StrictlySorted(slots)
    ensures forall k :: k in slots <==> HasKey(timetable, k)
  {
    var seen: seq<string> := [];
    for i := 0 to |timetable|
      invariant Distinct(seen)
      invariant forall k :: k in seen <==> HasKey(timetable[..i], k)
    {
      var k := SlotKey(timetable[i]);
      forall key ensures HasKey(timetable[..i + 1], key) <==> HasKey(timetable[..i], key) || key == k {
        if HasKey(timetable[..i + 1], key) {
          var j :| 0 <= j < i + 1 && SlotKey(timetable[..i + 1][j]) == key;
          if j < i { assert timetable[..i][j] == timetable[..i + 1][j]; }
        }
        if HasKey(timetable[..i], key) {
          var j :| 0 <= j < i && SlotKey(timetable[..i][j]) == key;
          assert timetable[..i + 1][j] == timetable[..i][j];
        }
        if key == k {
          assert timetable[..i + 1][i] == timetable[i];
        }
      }
      if k !in seen {
        seen := seen + [k];
      }
    }
    assert timetable[..|timetable|] == timetable;
    slots := SortKeys(seen);
  }

  // ---- timetableByDay ----

  /** The periods of `t` on day `d` in slot `s`, in input order. */
  function Bucket(t: seq<Period>, d: string, s: string): (b: seq<Period>)
    ensures |b| <= |t|
    ensures forall q :: q in b ==> q in t && q.dayOfWeek == d && SlotKey(q) == s
    ensures forall q :: q in t && q.dayOfWeek == d && SlotKey(q) == s ==> q in b
  {
    if t == [] then []
    else
      var last := t[|t| - 1];
      assert t == t[..|t| - 1] + [last];
      Bucket(t[..|t| - 1], d, s) + (if last.dayOfWeek == d && SlotKey(last) == s then [last] else [])
  }

  /** Pushing one more period only ever extends its own bucket, at the end. */
  lemma {:induction false} BucketAppend(t: seq<Period>, p: Period, d: string, s: string)
    ensures Bucket(t + [p], d, s) == Bucket(t, d, s) + (if p.dayOfWeek == d && SlotKey(p) == s then [p] else [])
  {
    assert (t + [p])[..|t + [p]| - 1] == t;
  }

  type Grid = map<string, map<string, seq<Period>>>

  /** `timetableByDay`: a row per day with an empty list per slot, then each
      period pushed onto its day's slot when both exist. */
  method TimetableByDay(timetable: seq<Period>, slots: seq<string>) returns (grouped: Grid)
    ensures forall d :: d in grouped <==> d in Days
    ensures forall d :: d in grouped ==> (forall s :: s in grouped[d] <==> s in slots)
    ensures forall d, s :: d in grouped && s in grouped[d] ==> grouped[d][s] == Bucket(timetable, d, s)
  {
    grouped := EmptyGrid(slots);
    for i := 0 to |timetable|
      invariant forall d :: d in grouped <==> d in Days
      invariant forall d :: d in grouped ==> (forall s :: s in grouped[d] <==> s in slots)
      invariant forall d, s :: d in grouped && s in grouped[d] ==> grouped[d][s] == Bucket(timetable[..i], d, s)
    {
      var p := timetable[i];
      assert timetable[..i + 1][..i] == timetable[..i];
      assert forall d, s ::
        Bucket(timetable[..i + 1], d, s) == Bucket(timetable[..i], d, s) + (if p.dayOfWeek == d && SlotKey(p) == s then [p] else []);
      grouped := Push(grouped, p);
    }
    assert timetable[..|timetable|] == timetable;
  }

  /** `grouped[period.dayOfWeek][slot].push(period)` when that day and slot exist. */
  method Push(grouped: Grid, p: Period) returns (r: Grid)
    ensures forall d :: d in r <==> d in grouped
    ensures forall d :: d in r ==> (forall s :: s in r[d] <==> s in grouped[d])
    ensures forall d, s :: d in r && s in r[d] ==>
      r[d][s] == grouped[d][s] + (if p.dayOfWeek == d && SlotKey(p) == s then [p] else [])
  {
    var slot := SlotKey(p);
    r := grouped;
    if p.dayOfWeek in grouped && slot in grouped[p.dayOfWeek] {
      var row := grouped[p.dayOfWeek];
      r := grouped[p.dayOfWeek := row[slot := row[slot] + [p]]];
    }
  }

  /** `grouped[day] = {}` and `grouped[day][slot] = []` for each slot. */
  method EmptyRow(slots: seq<string>) returns (row: map<string, seq<Period>>)
    ensures forall s :: s in row <==> s in slots
    ensures forall s :: s in row ==> row[s] == []
  {
    row := map[];
    for si := 0 to |slots|
      invariant forall s :: s in row <==> s in slots[..si]
      invariant forall s :: s in row ==> row[s] == []
    {
      assert slots[..si + 1] == slots[..si] + [slots[si]];
      row := row[slots[si] := []];
    }
    assert slots[..|slots|] == slots;
  }

  /** The grid before any period is placed: every day, every slot, no periods. */
  method EmptyGrid(slots: seq<string>) returns (grouped: Grid)
    ensures forall d :: d in grouped <==> d in Days
    ensures forall d :: d in grouped ==> (forall s :: s in grouped[d] <==> s in slots)
    ensures forall d, s :: d in grouped && s in grouped[d] ==> grouped[d][s] == []
  {
    grouped := map[];
    for di := 0 to |Days|
      invariant forall d :: d in grouped <==> d in Days[..di]
      invariant forall d :: d in grouped ==> (forall s :: s in grouped[d] <==> s in slots)
      invariant forall d, s :: d in grouped && s in grouped[d] ==> grouped[d][s] == []
    {
      var row := EmptyRow(slots);
      assert Days[..di + 1] == Days[..di] + [Days[di]];
      grouped := grouped[Days[di] := row];
    }
    assert Days[..|Days|] == Days;
  }

  // ---- counting what the grid holds ----

  /** How often `x` occurs in `s`. */
  function Occurrences(x: string, s: seq<string>): nat
  {
    if s == [] then 0 else (if s[0] == x then 1 else 0) + Occurrences(x, s[1..])
  }

  lemma {:induction false} OccurrencesDistinct(x: string, s: seq<string>)
    requires Distinct(s)
    ensures Occurrences(x, s) == if x in s then 1 else 0
  {
    if s != [] {
      assert Distinct(s[1..]) by {
        forall i, j | 0 <= i < j < |s[1..]| ensures s[1..][i] != s[1..][j] {
          assert s[1..][i] == s[i + 1] && s[1..][j] == s[j + 1];
        }
      }
      OccurrencesDistinct(x, s[1..]);
      assert forall y :: y in s <==> y == s[0] || y in s[1..];
    }
  }

  /** The number of periods in one day's row of the grid. */
  function RowTotal(t: seq<Period>, d: string, slots: seq<string>): nat
  {
    if slots == [] then 0 else |Bucket(t, d, slots[0])| + RowTotal(t, d, slots[1..])
  }

  /** The number of periods in the rows of the given days. */
  function GridTotal(t: seq<Period>, days: seq<string>, slots: seq<string>): nat
  {
    if days == [] then 0 else RowTotal(t, days[0], slots) + GridTotal(t, days[1..], slots)
  }

  /** The number of periods whose day is one of `days`. */
  function CountOnDays(t: seq<Period>, days: seq<string>): nat
  {
    if t == [] then 0
    else CountOnDays(t[..|t| - 1], days) + (if t[|t| - 1].dayOfWeek in days then 1 else 0)
  }

  lemma {:induction false} RowTotalStep(t: seq<Period>, p: Period, d: string, slots: seq<string>)
    ensures RowTotal(t + [p], d, slots)
      == RowTotal(t, d, slots) + (if p.dayOfWeek == d then Occurrences(SlotKey(p), slots) else 0)
  {
    assert (t + [p])[..|t + [p]| - 1] == t;
    if slots != [] {
      RowTotalStep(t, p, d, slots[1..]);
    }
  }

  lemma {:induction false} GridTotalStep(t: seq<Period>, p: Period, days: seq<string>, slots: seq<string>)
    requires Distinct(slots) && SlotKey(p) in slots
    ensures GridTotal(t + [p], days, slots) == GridTotal(t, days, slots) + Occurrences(p.dayOfWeek, days)
  {
    if days != [] {
      RowTotalStep(t, p, days[0], slots);
      OccurrencesDistinct(SlotKey(p), slots);
      GridTotalStep(t, p, days[1..], slots);
    }
  }

  /** When the slots are the distinct keys of the periods, the grid holds every
      period whose day is listed, once, and nothing else. */
  lemma {:induction false} GridHoldsEveryListedPeriod(t: seq<Period>, days: seq<string>, slots: seq<string>)
    requires Distinct(days) && Distinct(slots)
    requires forall i :: 0 <= i < |t| ==> SlotKey(t[i]) in slots
    ensures GridTotal(t, days, slots) == CountOnDays(t, days)
  {
    if t == [] {
      GridTotalEmpty(days, slots);
    } else {
      var init, p := t[..|t| - 1], t[|t| - 1];
      assert init + [p] == t;
      assert forall i :: 0 <= i < |init| ==> init[i] == t[i];
      GridHoldsEveryListedPeriod(init, days, slots);
      GridTotalStep(init, p, days, slots);
      OccurrencesDistinct(p.dayOfWeek, days);
    }
  }

  lemma {:induction false} GridTotalEmpty(days: seq<string>, slots: seq<string>)
    ensures GridTotal([], days, slots) == 0
  {
    if days != [] {
      RowTotalEmpty(days[0], slots);
      GridTotalEmpty(days[1..], slots);
    }
  }

  lemma {:induction false} RowTotalEmpty(d: string, slots: seq<string>)
    ensures RowTotal([], d, slots) == 0
  {
    if slots != [] { RowTotalEmpty(d, slots[1..]); }
  }

  lemma {:induction false} DaysDistinct()
    ensures Distinct(Days)
  {
  }

  // ---- display ----

  datatype Display = Display(title: string, subtitle: string, classInfo: string)

  /** `getPeriodDisplay`: a non-lesson shows its type alone; a lesson shows the
      course (tertiary), or the subject with the arm or class (secondary and
      primary, where the fallbacks differ), and the room. */
  function PeriodDisplay(schoolType: Option<SchoolType>, p: Period): (r: Display)
    ensures p.kind != "LESSON" ==> r == Display(p.kind, "", "")
    ensures p.kind == "LESSON" ==> r.title != ""
    ensures p.kind == "LESSON" && schoolType == Some(Tertiary) ==>
      r == Display(OrElse(p.courseName, "Course"), OrElse(p.roomName, ""), "")
    ensures p.kind == "LESSON" && schoolType == Some(Secondary) ==>
      r.title == OrElse(p.subjectName, "Subject")
    ensures p.kind == "LESSON" && schoolType != Some(Tertiary) && schoolType != Some(Secondary) ==>
      r.title == OrElse(p.subjectName, "Free Period")
    ensures p.kind == "LESSON" && schoolType != Some(Tertiary) ==>
      r.subtitle == OrElse(p.classArmName, OrElse(p.className, "")) && r.classInfo == OrElse(p.roomName, "")
  {
    if p.kind != "LESSON" then Display(p.kind, "", "")
    else if schoolType == Some(Tertiary) then
      Display(OrElse(p.courseName, "Course"), OrElse(p.roomName, ""), "")
    else
      var fallback := if schoolType == Some(Secondary) then "Subject" else "Free Period";
      Display(OrElse(p.subjectName, fallback), OrElse(p.classArmName, OrElse(p.className, "")), OrElse(p.roomName, ""))
  }

  datatype Palette = Palette(bg: string, text: string, border: string)

  const PeriodColors: map<string, Palette> := map[
    "LESSON" := Palette("bg-blue-50 dark:bg-blue-900/20", "text-blue-700 dark:text-blue-300", "border-blue-200 dark:border-blue-800"),
    "BREAK" := Palette("bg-gray-50 dark:bg-gray-800/50", "text-gray-600 dark:text-gray-400", "border-gray-200 dark:border-gray-700"),
    "LUNCH" := Palette("bg-amber-50 dark:bg-amber-900/20", "text-amber-700 dark:text-amber-300", "border-amber-200 dark:border-amber-800"),
    "ASSEMBLY" := Palette("bg-purple-50 dark:bg-purple-900/20", "text-purple-700 dark:text-purple-300", "border-purple-200 dark:border-purple-800")]

  /** `PERIOD_TYPE_COLORS[period.type] || PERIOD_TYPE_COLORS.LESSON`. */
  function ColorsFor(kind: string): (c: Palette)
    ensures kind in PeriodColors ==> c == PeriodColors[kind]
    ensures kind !in PeriodColors ==> c == PeriodColors["LESSON"]
  {
    if kind in PeriodColors then PeriodColors[kind] else PeriodColors["LESSON"]
  }

  lemma {:induction false} UnknownKindLooksLikeLesson()
    ensures ColorsFor("EXAM") == ColorsFor("LESSON")
  {
    assert "EXAM" !in PeriodColors;
  }

  // ---- the day-by-day list ----

  /** `timetable.filter(p => p.dayOfWeek === day)`. */
  function DayPeriods(t: seq<Period>, d: string): (r: seq<Period>)
    ensures |r| <= |t|
    ensures forall q :: q in r ==> q in t && q.dayOfWeek == d
    ensures forall q :: q in t && q.dayOfWeek == d ==> q in r
  {
    if t == [] then []
    else
      assert t == [t[0]] + t[1..];
      (if t[0].dayOfWeek == d then [t[0]] else []) + DayPeriods(t[1..], d)
  }

  /** The filter keeps input order: the day's periods of a concatenation are those of
      each part, in turn. */
  lemma {:induction false} DayPeriodsAppend(a: seq<Period>, b: seq<Period>, d: string)
    ensures DayPeriods(a + b, d) == DayPeriods(a, d) + DayPeriods(b, d)
  {
    if a == [] {
      assert a + b == b;
    } else {
      assert (a + b)[0] == a[0] && (a + b)[1..] == a[1..] + b;
      DayPeriodsAppend(a[1..], b, d);
    }
  }

  predicate StartOrdered(s: seq<Period>) {
    forall i :: 0 <= i < |s| - 1 ==> !StrLess(s[i + 1].startTime, s[i].startTime)
  }

  /** Places `p` before the first period that does not start earlier. */
  function InsertByStart(p: Period, s: seq<Period>): (r: seq<Period>)
    requires StartOrdered(s)
    ensures StartOrdered(r) && multiset(r) == multiset(s) + multiset{p}
    ensures r[0] == p || (s != [] && r[0] == s[0])
  {
    if s == [] || !StrLess(s[0].startTime, p.startTime) then [p] + s
    else
      StrLessAsymmetric(s[0].startTime, p.startTime);
      var rest := InsertByStart(p, s[1..]);
      assert s == [s[0]] + s[1..];
      [s[0]] + rest
  }

  /** The day's periods ordered by start time (`sort` with `localeCompare`). */
  function SortByStart(s: seq<Period>): (r: seq<Period>)
    ensures StartOrdered(r) && multiset(r) == multiset(s)
  {
    if s == [] then []
    else
      assert s == [s[0]] + s[1..];
      InsertByStart(s[0], SortByStart(s[1..]))
  }

  function DaySchedule(t: seq<Period>, d: string): (r: seq<Period>)
    ensures StartOrdered(r) && multiset(r) == multiset(DayPeriods(t, d))
    ensures forall q :: q in r ==> q in t && q.dayOfWeek == d
  {
    var r := SortByStart(DayPeriods(t, d));
    assert forall q :: q in r ==> q in DayPeriods(t, d) by {
      forall q | q in r ensures q in DayPeriods(t, d) {
        assert q in multiset(r);
      }
    }
    r
  }
}
