// The admission helpers of apps/web/src/components/modals/StudentAdmissionModal.tsx:
// word capitalisation of names, the displayed age, the required-fields check,
// the arm-by-level grouping and the arm/level pickers, the payload rule, the
// mapping of server validation issues to messages and the error summary, and
// the form state those handlers update.

module StudentAdmission {
  import opened Wrappers
  import opened Text
  import opened Calendar
  import SchoolForms

  // ---------------------------------------------------------------------------
  // capitalizeWords: `str.replace(/\b\w/g, c => c.toUpperCase())`
  // ---------------------------------------------------------------------------

  /** The regex class `\w` (without the `u` flag): ASCII letters, digits and '_'. */
  predicate IsWordChar(c: char) { IsUpperAscii(c) || IsLowerAscii(c) || IsDigit(c) || c == '_' }

  /** `\b\w` matches at `i`: a word character with no word character before it. */
  predicate WordStart(s: string, i: int)
    requires 0 <= i < |s|
  {
    IsWordChar(s[i]) && (i == 0 || !IsWordChar(s[i - 1]))
  }

  /** Upper-cases the first character of every word; "" is returned as is. */
  function CapitalizeWords(s: string): (r: string)
    ensures |r| == |s|
  {
    if s == "" then s
    else seq(|s|, i requires 0 <= i < |s| => if WordStart(s, i) then Upper(s[i]) else s[i])
  }

  /** Only lower-case letters that start a word change, every word start ends up not
      lower-case, and the text is the same apart from case. */
  lemma {:induction false} CapitalizeWordsChanges(s: string)
    ensures var r := CapitalizeWords(s);
      forall i :: 0 <= i < |s| && r[i] != s[i] ==> WordStart(s, i) && IsLowerAscii(s[i])
    ensures var r := CapitalizeWords(s);
      forall i :: 0 <= i < |s| && WordStart(s, i) ==> !IsLowerAscii(r[i])
    ensures LowerStr(CapitalizeWords(s)) == LowerStr(s)
  {
    var r := CapitalizeWords(s);
    forall i | 0 <= i < |s| ensures Lower(r[i]) == Lower(s[i]) {
      CapitalizeAt(s, i);
    }
    assert LowerStr(r) == LowerStr(s);
  }

  /** Case mapping keeps a character a word character or not. */
  lemma {:induction false} WordStartsKept(s: string)
    ensures forall i :: 0 <= i < |s| ==> (WordStart(CapitalizeWords(s), i) <==> WordStart(s, i))
  {
    var r := CapitalizeWords(s);
    CapitalizeWordsChanges(s);
    forall i | 0 <= i < |s| ensures IsWordChar(r[i]) <==> IsWordChar(s[i]) {
      if r[i] != s[i] {
        assert IsLowerAscii(s[i]);
      }
    }
  }

  /** Capitalising already capitalised text changes nothing. */
  lemma {:induction false} CapitalizeWordsIdempotent(s: string)
    ensures CapitalizeWords(CapitalizeWords(s)) == CapitalizeWords(s)
  {
    var r := CapitalizeWords(s);
    var rr := CapitalizeWords(r);
    WordStartsKept(s);
    CapitalizeWordsChanges(s);
    CapitalizeWordsChanges(r);
    forall i | 0 <= i < |s| ensures rr[i] == r[i] {
      if WordStart(r, i) {
        assert WordStart(s, i);
      }
    }
  }

  /** White space is not a word character, so capitalising never changes whether a
      field is blank. */
  lemma {:induction false} CapitalizeKeepsBlank(s: string)
    ensures Trim(CapitalizeWords(s)) == "" <==> Trim(s) == ""
  {
    var r := CapitalizeWords(s);
    CapitalizeWordsChanges(s);
    forall i | 0 <= i < |s| ensures IsJsSpace(r[i]) <==> IsJsSpace(s[i]) {
      if r[i] != s[i] {
        assert IsLowerAscii(s[i]) && IsUpperAscii(r[i]);
      }
    }
    assert AllSpace(r) <==> AllSpace(s);
    TrimEmptyIffAllSpace(s);
    TrimEmptyIffAllSpace(r);
  }

  /** Position `i` of the result: upper-cased where a word starts, unchanged elsewhere. */
  lemma {:induction false} CapitalizeAt(s: string, i: int)
    requires 0 <= i < |s|
    ensures CapitalizeWords(s)[i] == if WordStart(s, i) then Upper(s[i]) else s[i]
  {
  }

  lemma {:induction false} CapitalizeExample()
    ensures CapitalizeWords("mary-jane o'neil") == "Mary-Jane O'Neil"
  {
  }

  // ---------------------------------------------------------------------------
  // calculateAge
  // ---------------------------------------------------------------------------

  /** The age field shown next to the date of birth. `birth` is the date the text
      parses to (None for JavaScript's Invalid Date, whose age prints as "NaN") and
      `today` is the current day. */
  method CalculateAge(dateOfBirth: string, birth: Option<CalendarDate>, today: CalendarDate)
    returns (age: string)
    ensures dateOfBirth == "" ==> age == ""
    ensures dateOfBirth != "" && birth.None? ==> age == "NaN"
    ensures dateOfBirth != "" && birth.Some? ==> age == IntToString(AgeOn(birth.value, today))
  {
    if dateOfBirth == "" {
      return "";
    }
    if birth.None? {
      return "NaN";
    }
    var b := birth.value;
    var years := today.year - b.year;
    var monthDiff := today.month - b.month;
    if monthDiff < 0 || (monthDiff == 0 && today.day < b.day) {
      years := years - 1;
    }
    assert !Before(today, Anniversary(b, years)) && Before(today, Anniversary(b, years + 1));
    AgeUnique(b, today, years);
    age := IntToString(years);
  }

  // ---------------------------------------------------------------------------
  // Form data and isFormValid
  // ---------------------------------------------------------------------------

  /** The modal's `formData`: every input is kept as text, '' when untouched. */
  datatype FormData = FormData(
    firstName: string, middleName: string, lastName: string, dateOfBirth: string,
    age: string, gender: string, email: string, phone: string, address: string,
    classLevel: string, classArmId: string,
    parentName: string, parentPhone: string, parentEmail: string, parentRelationship: string,
    bloodGroup: string, allergies: string, medications: string,
    emergencyContact: string, emergencyContactPhone: string, medicalNotes: string)

  const EmptyForm := FormData("", "", "", "", "", "", "", "", "", "", "", "", "", "", "", "", "", "", "", "", "")

  /** `!!(s?.trim())`: present once white space is removed. */
  predicate Filled(s: string) { Trim(s) != "" }

  /** The submit button's check: six text fields must be non-blank after trimming,
      the date of birth, the gender and the class level only non-empty. */
  function IsFormValid(f: FormData): (b: bool)
    ensures b ==> Filled(f.firstName) && Filled(f.lastName) && Filled(f.phone)
    ensures b ==> Filled(f.parentName) && Filled(f.parentPhone) && Filled(f.parentRelationship)
    ensures b ==> f.dateOfBirth != "" && f.gender != "" && f.classLevel != ""
    ensures !b ==> !Filled(f.firstName) || !Filled(f.lastName) || !Filled(f.phone)
                   || !Filled(f.parentName) || !Filled(f.parentPhone) || !Filled(f.parentRelationship)
                   || f.dateOfBirth == "" || f.gender == "" || f.classLevel == ""
  {
    Filled(f.firstName) && Filled(f.lastName) && f.dateOfBirth != "" && f.gender != ""
    && Filled(f.phone) && f.classLevel != "" && Filled(f.parentName) && Filled(f.parentPhone)
    && Filled(f.parentRelationship)
  }

  /** A field that is all white space does not count as filled. */
  lemma {:induction false} BlankNameIsInvalid(f: FormData)
    requires AllSpace(f.firstName)
    ensures !IsFormValid(f)
  {
    TrimEmptyIffAllSpace(f.firstName);
  }

  /** The four name inputs that go through handleNameChange. */
  datatype NameField = FirstName | MiddleName | LastName | ParentName {
    function Key(): string {
      match this
      case FirstName => "firstName"
      case MiddleName => "middleName"
      case LastName => "lastName"
      case ParentName => "parentName"
    }
  }

  function SetName(f: FormData, field: NameField, v: string): FormData {
    match field
    case FirstName => f.(firstName := v)
    case MiddleName => f.(middleName := v)
    case LastName => f.(lastName := v)
    case ParentName => f.(parentName := v)
  }

  /** Capitalising a name as it is typed never changes whether the form may be submitted. */
  lemma {:induction false} NameChangeKeepsValidity(f: FormData, field: NameField, v: string)
    ensures IsFormValid(SetName(f, field, CapitalizeWords(v))) == IsFormValid(SetName(f, field, v))
  {
    CapitalizeKeepsBlank(v);
  }

  // ---------------------------------------------------------------------------
  // Class arms and levels
  // ---------------------------------------------------------------------------

  datatype ClassArm = ClassArm(id: string, name: string, classLevelId: string, classLevelName: string)
  datatype ClassLevel = ClassLevel(id: string, name: string)

  /** `classArms.filter(arm => arm.classLevelId === levelId)`. */
  function ArmsOfLevel(arms: seq<ClassArm>, levelId: string): (r: seq<ClassArm>)
    ensures |r| <= |arms|
    ensures forall a :: a in r <==> a in arms && a.classLevelId == levelId
    decreases |arms|
  {
    if arms == [] then []
    else
      var rest := ArmsOfLevel(arms[1..], levelId);
      assert forall a :: a in arms <==> a == arms[0] || a in arms[1..];
      if arms[0].classLevelId == levelId then [arms[0]] + rest else rest
  }

  /** The filter keeps the input order: filtering a concatenation concatenates the filters. */
  lemma {:induction false} ArmsOfLevelAppend(a: seq<ClassArm>, b: seq<ClassArm>, levelId: string)
    ensures ArmsOfLevel(a + b, levelId) == ArmsOfLevel(a, levelId) + ArmsOfLevel(b, levelId)
    decreases |a|
  {
    if a == [] {
      assert a + b == b;
    } else {
      assert (a + b)[1..] == a[1..] + b;
      ArmsOfLevelAppend(a[1..], b, levelId);
    }
  }

  /** The `reduce` over the class levels: each level id keyed to its arms. */
  function ClassArmsByLevel(levels: seq<ClassLevel>, arms: seq<ClassArm>): (m: map<string, seq<ClassArm>>)
    ensures forall id :: id in m <==> exists l :: l in levels && l.id == id
    ensures forall id :: id in m ==> m[id] == ArmsOfLevel(arms, id)
    decreases |levels|
  {
    if levels == [] then map[]
    else
      var last := levels[|levels| - 1];
      var m := ClassArmsByLevel(levels[..|levels| - 1], arms);
      assert forall l :: l in levels <==> l == last || l in levels[..|levels| - 1];
      m[last.id := ArmsOfLevel(arms, last.id)]
  }

  /** `classArms.find(arm => arm.id === id)`: the first arm with that id. */
  function FindArm(arms: seq<ClassArm>, id: string): (r: Option<ClassArm>)
    ensures r.None? <==> forall a :: a in arms ==> a.id != id
    ensures r.Some? ==> r.value in arms && r.value.id == id
    decreases |arms|
  {
    if arms == [] then None
    else if arms[0].id == id then Some(arms[0])
    else
      var r := FindArm(arms[1..], id);
      assert forall a :: a in arms <==> a == arms[0] || a in arms[1..];
      r
  }

  /** Arm `k` is the first with that id. */
  predicate IsFirstArm(arms: seq<ClassArm>, k: int, id: string) {
    0 <= k < |arms| && arms[k].id == id && forall j :: 0 <= j < k ==> arms[j].id != id
  }

  /** The arm found is the first one with that id. */
  lemma {:induction false} FindArmIsFirst(arms: seq<ClassArm>, id: string)
    ensures FindArm(arms, id).Some? ==> exists k :: IsFirstArm(arms, k, id) && arms[k] == FindArm(arms, id).value
    decreases |arms|
  {
    if arms != [] && arms[0].id == id {
      assert IsFirstArm(arms, 0, id);
    } else if arms != [] && FindArm(arms[1..], id).Some? {
      var r := FindArm(arms[1..], id);
      FindArmIsFirst(arms[1..], id);
      var k :| IsFirstArm(arms[1..], k, id) && arms[1..][k] == r.value;
      assert forall j :: 1 <= j < k + 1 ==> arms[j] == arms[1..][j - 1];
      assert IsFirstArm(arms, k + 1, id);
    }
  }

  /** The class level the arm picker writes: the arm's level name, or '' when no arm has that id. */
  function LevelOfArm(arms: seq<ClassArm>, id: string): (level: string)
    ensures (exists a :: a in arms && a.id == id) ==> level == FindArm(arms, id).value.classLevelName
    ensures (forall a :: a in arms ==> a.id != id) ==> level == ""
  {
    var found := FindArm(arms, id);
    if found.Some? then found.value.classLevelName else ""
  }

  // ---------------------------------------------------------------------------
  // The submitted payload
  // ---------------------------------------------------------------------------

  /** The sanitised admission record the schema returns, which is also the shape of
      the request's student. Required text fields are plain strings; the optional ones
      are absent when the form left them empty. */
  datatype Admission = Admission(
    firstName: string, middleName: Option<string>, lastName: string, dateOfBirth: string,
    email: Option<string>, phone: string, address: Option<string>,
    classLevel: Option<string>, classArmId: Option<string>, academicYear: Option<string>,
    parentName: string, parentPhone: string, parentEmail: Option<string>, parentRelationship: string,
    bloodGroup: Option<string>, allergies: Option<string>, medications: Option<string>,
    emergencyContact: Option<string>, emergencyContactPhone: Option<string>, medicalNotes: Option<string>)

  /** `studentData`: the sanitised record with classLevel dropped whenever an arm is chosen. */
  function PayloadOf(s: Admission): (p: Admission)
    ensures Truthy(s.classArmId) ==> p.classLevel.None?
    ensures !Truthy(s.classArmId) ==> p.classLevel == s.classLevel
    ensures p.(classLevel := s.classLevel) == s
  {
    s.(classLevel := if Truthy(s.classArmId) then None else s.classLevel)
  }

  /** Once the schema's arm-or-level rule accepts the raw inputs, the payload names
      exactly one of the two: the trimmed arm, or else the sanitised level. */
  lemma {:induction false} PayloadNamesOneClass(s: Admission, rawArm: Option<string>, rawLevel: Option<string>)
    requires s.classArmId == SchoolForms.ArmField(rawArm)
    requires s.classLevel == SchoolForms.OptionalText(rawLevel, 100)
    requires SchoolForms.ArmOrLevel(rawArm, rawLevel).None?
    ensures Truthy(PayloadOf(s).classArmId) != Truthy(PayloadOf(s).classLevel)
  {
  }

  // ---------------------------------------------------------------------------
  // Field errors and the summary toast
  // ---------------------------------------------------------------------------

  /** One reported problem: the field it belongs to and the message shown. */
  datatype Entry = Entry(field: string, message: string)

  function Messages(es: seq<Entry>): (ms: seq<string>)
    ensures |ms| == |es|
    ensures forall i :: 0 <= i < |es| ==> ms[i] == es[i].message
  {
    seq(|es|, i requires 0 <= i < |es| => es[i].message)
  }

  /** The message `fieldErrors[field]` ends with: that of the last entry for the field. */
  function LastFor(es: seq<Entry>, field: string): Option<string>
    decreases |es|
  {
    if es == [] then None
    else if es[|es| - 1].field == field then Some(es[|es| - 1].message)
    else LastFor(es[..|es| - 1], field)
  }

  /** A field has a message exactly when some entry names it. */
  lemma {:induction false} LastForPresent(es: seq<Entry>, field: string)
    ensures LastFor(es, field).Some? <==> exists i :: 0 <= i < |es| && es[i].field == field
    decreases |es|
  {
    if es != [] {
      var n := |es| - 1;
      if es[n].field != field {
        LastForPresent(es[..n], field);
        if exists i :: 0 <= i < |es| && es[i].field == field {
          var i :| 0 <= i < |es| && es[i].field == field;
          assert i < n && es[..n][i].field == field;
        }
        if LastFor(es[..n], field).Some? {
          var i :| 0 <= i < n && es[..n][i].field == field;
          assert es[i].field == field;
        }
      }
    }
  }

  /** The entry `i` is the last one naming `field`. */
  predicate IsLastEntry(es: seq<Entry>, i: int, field: string) {
    0 <= i < |es| && es[i].field == field && forall j :: i < j < |es| ==> es[j].field != field
  }

  /** The message a field ends with is that of the last entry naming it. */
  lemma {:induction false} LastForIsLast(es: seq<Entry>, field: string)
    ensures LastFor(es, field).Some? ==> exists i :: IsLastEntry(es, i, field) && es[i].message == LastFor(es, field).value
    decreases |es|
  {
    if es != [] {
      var n := |es| - 1;
      if es[n].field == field {
        assert IsLastEntry(es, n, field);
      } else if LastFor(es[..n], field).Some? {
        LastForIsLast(es[..n], field);
        var i :| IsLastEntry(es[..n], i, field) && es[..n][i].message == LastFor(es[..n], field).value;
        assert forall j :: i < j < n ==> es[j] == es[..n][j];
        assert IsLastEntry(es, i, field);
      }
    }
  }

  /** The field errors a batch of entries leaves: each entry in turn writes its
      message under its field. */
  function FieldErrorsOf(es: seq<Entry>): map<string, string>
    decreases |es|
  {
    if es == [] then map[]
    else FieldErrorsOf(es[..|es| - 1])[es[|es| - 1].field := es[|es| - 1].message]
  }

  /** A field has an error exactly when some entry names it, and the error is the
      message of the last entry that does. */
  lemma {:induction false} FieldErrorsOfMeaning(es: seq<Entry>)
    ensures forall f :: f in FieldErrorsOf(es) <==> LastFor(es, f).Some?
    ensures forall f :: f in FieldErrorsOf(es) ==> FieldErrorsOf(es)[f] == LastFor(es, f).value
    decreases |es|
  {
    if es != [] {
      FieldErrorsOfMeaning(es[..|es| - 1]);
    }
  }

  /** The `forEach` that fills `fieldErrors` and `errorMessages`: every entry's message
      is listed in order, and a later entry for a field overwrites an earlier one. */
  method CollectErrors(es: seq<Entry>) returns (fieldErrors: map<string, string>, messages: seq<string>)
    ensures messages == Messages(es)
    ensures fieldErrors == FieldErrorsOf(es)
    ensures forall f :: f in fieldErrors <==> LastFor(es, f).Some?
    ensures forall f :: f in fieldErrors ==> fieldErrors[f] == LastFor(es, f).value
  {
    fieldErrors := map[];
    messages := [];
    var i := 0;
    while i < |es|
      invariant 0 <= i <= |es|
      invariant messages == Messages(es[..i])
      invariant fieldErrors == FieldErrorsOf(es[..i])
    {
      assert es[..i + 1][..i] == es[..i];
      fieldErrors := fieldErrors[es[i].field := es[i].message];
      messages := messages + [es[i].message];
      i := i + 1;
    }
    assert es[..i] == es;
    FieldErrorsOfMeaning(es);
  }

  datatype Summary = Summary(toast: string, submitError: Option<string>)

  const GenericFormError := "Please check the form for errors"

  /** The toast after collecting the messages, and the banner text (`submitError`). */
  function Summarize(messages: seq<string>): (r: Summary)
    ensures |messages| == 1 ==> r.toast == messages[0]
    ensures |messages| > 1 ==> r.toast == "Please fix " + IntToString(|messages|) + " errors in the form"
    ensures messages == [] ==> r.toast == GenericFormError
    ensures r.submitError.Some? <==> |messages| > 1
    ensures r.submitError.Some? ==> r.submitError.value == messages[0]
  {
    if |messages| == 1 then Summary(messages[0], None)
    else if |messages| > 1 then
      Summary("Please fix " + IntToString(|messages|) + " errors in the form", Some(messages[0]))
    else Summary(GenericFormError, None)
  }

  /** Two issues on one field: the field shows the second message, while the count
      says two errors and the banner shows the first. */
  lemma {:induction false} RepeatedFieldShowsLast(f: string, m1: string, m2: string)
    ensures LastFor([Entry(f, m1), Entry(f, m2)], f) == Some(m2)
  {
    var es := [Entry(f, m1), Entry(f, m2)];
    assert es[|es| - 1] == Entry(f, m2);
  }

  lemma {:induction false} RepeatedFieldCountsTwice(f: string, m1: string, m2: string)
    ensures Summarize(Messages([Entry(f, m1), Entry(f, m2)])) == Summary("Please fix " + "2" + " errors in the form", Some(m1))
  {
    var ms := Messages([Entry(f, m1), Entry(f, m2)]);
    assert |ms| == 2 && ms[0] == m1;
    TwoAsText();
  }

  lemma {:induction false} TwoAsText()
    ensures IntToString(2) == "2"
  {
    assert NatToString(2) == [DigitChar(2)];
  }

  /** A client-side schema issue: the first element of its path, when that is a name. */
  datatype ClientIssue = ClientIssue(path0: Option<string>, message: string)

  /** validateForm keeps only the issues whose path starts with a non-empty name. */
  function ClientEntries(issues: seq<ClientIssue>): (es: seq<Entry>)
    ensures |es| <= |issues|
    ensures forall e :: e in es ==> e.field != ""
    ensures forall e :: e in es <==> exists i :: 0 <= i < |issues| && Truthy(issues[i].path0)
                                                 && e == Entry(issues[i].path0.value, issues[i].message)
    decreases |issues|
  {
    if issues == [] then []
    else
      var rest := ClientEntries(issues[1..]);
      assert forall i :: 1 <= i < |issues| ==> issues[i] == issues[1..][i - 1];
      if Truthy(issues[0].path0) then
        [Entry(issues[0].path0.value, issues[0].message)] + rest
      else rest
  }

  /** The issues are read in order: the entries of a concatenation are those of each
      part, in turn. */
  lemma {:induction false} ClientEntriesAppend(a: seq<ClientIssue>, b: seq<ClientIssue>)
    ensures ClientEntries(a + b) == ClientEntries(a) + ClientEntries(b)
    decreases |a|
  {
    if a == [] {
      assert a + b == b;
    } else {
      assert (a + b)[0] == a[0] && (a + b)[1..] == a[1..] + b;
      ClientEntriesAppend(a[1..], b);
    }
  }

  /** One issue gives one entry exactly when its path starts with a name, so the count
      of messages is the count of such issues. */
  lemma {:induction false} ClientEntriesOne(i: ClientIssue)
    ensures ClientEntries([i]) == if Truthy(i.path0) then [Entry(i.path0.value, i.message)] else []
  {
    assert [i][1..] == [];
  }

  // ---------------------------------------------------------------------------
  // Server validation issues
  // ---------------------------------------------------------------------------

  /** One element of a 400 reply's array: path head, zod code, minimum and message. */
  datatype ServerIssue = ServerIssue(path0: Option<string>, code: string, minimum: Option<int>, message: Option<string>)

  const FieldLabels: map<string, string> := map[
    "parentPhone" := "Parent/Guardian Phone",
    "parentEmail" := "Parent/Guardian Email",
    "phone" := "Phone Number",
    "email" := "Email Address",
    "firstName" := "First Name",
    "lastName" := "Last Name",
    "dateOfBirth" := "Date of Birth",
    "classLevel" := "Class Level",
    "parentName" := "Parent/Guardian Name",
    "parentRelationship" := "Relationship",
    "emergencyContact" := "Emergency Contact",
    "emergencyContactPhone" := "Emergency Contact Phone"
  ]

  /** `err.path?.[0] || 'unknown'`. */
  function FieldName(e: ServerIssue): (name: string)
    ensures name != ""
  {
    OrElse(e.path0, "unknown")
  }

  /** `fieldLabels[name] || name`: the label when there is one, else the name itself. */
  function FieldLabel(name: string): (shown: string)
    ensures name in FieldLabels ==> shown == FieldLabels[name]
    ensures name !in FieldLabels ==> shown == name
    ensures name != "" ==> shown != ""
  {
    if name in FieldLabels && FieldLabels[name] != "" then FieldLabels[name] else name
  }

  /** `if (err.minimum)`: absent and 0 are both falsy. */
  predicate HasMinimum(e: ServerIssue) { e.minimum.Some? && e.minimum.value != 0 }

  /** The message shown for one server issue. */
  function UserMessage(e: ServerIssue): (m: string)
    ensures e.code == "too_small" && HasMinimum(e) ==>
      m == FieldLabel(FieldName(e)) + " must be at least " + IntToString(e.minimum.value) + " characters"
    ensures e.code == "too_small" && !HasMinimum(e) ==> m == FieldLabel(FieldName(e)) + " is too short"
    ensures e.code in {"invalid_format", "invalid_string"} ==> m == FormatMessage(FieldName(e))
    ensures e.code == "too_big" ==> m == FieldLabel(FieldName(e)) + " is too long"
    ensures e.code == "invalid_type" ==> m == FieldLabel(FieldName(e)) + " has an invalid value"
    ensures e.code !in KnownCodes ==> m == OrElse(e.message, "Invalid value")
  {
    var name := FieldName(e);
    var lbl := FieldLabel(name);
    if e.code == "too_small" then
      if HasMinimum(e) then lbl + " must be at least " + IntToString(e.minimum.value) + " characters"
      else lbl + " is too short"
    else if e.code == "invalid_format" || e.code == "invalid_string" then FormatMessage(name)
    else if e.code == "too_big" then lbl + " is too long"
    else if e.code == "invalid_type" then lbl + " has an invalid value"
    else OrElse(e.message, "Invalid value")
  }

  const KnownCodes: set<string> := {"too_small", "invalid_format", "invalid_string", "too_big", "invalid_type"}

  /** The format message: chosen by a case-sensitive search of the field name. */
  function FormatMessage(name: string): (m: string)
    ensures Contains(name, "email") ==> m == FieldLabel(name) + " must be a valid email address"
    ensures !Contains(name, "email") && Contains(name, "phone") ==> m == FieldLabel(name) + " must be a valid phone number"
    ensures !Contains(name, "email") && !Contains(name, "phone") ==> m == FieldLabel(name) + " format is invalid"
  {
    var lbl := FieldLabel(name);
    if Contains(name, "email") then lbl + " must be a valid email address"
    else if Contains(name, "phone") then lbl + " must be a valid phone number"
    else lbl + " format is invalid"
  }

  /** The lower-case search misses camel-cased names: parentEmail and parentPhone get
      the generic message (`name` stands for the literal, which keeps the search from
      being unfolded eagerly). */
  lemma {:induction false} ParentEmailGetsGenericMessage(name: string)
    requires name == "parentEmail"
    ensures FormatMessage(name) == FieldLabel(name) + " format is invalid"
  {
    ParentEmailIsCamelCase(name);
    GenericFormatMessage(name);
  }

  lemma {:induction false} ParentPhoneGetsGenericMessage(name: string)
    requires name == "parentPhone"
    ensures FormatMessage(name) == FieldLabel(name) + " format is invalid"
  {
    ParentPhoneIsCamelCase(name);
    GenericFormatMessage(name);
  }

  /** The labels the four contact fields show. */
  lemma {:induction false} ContactLabels(name: string)
    ensures name == "parentEmail" ==> FieldLabel(name) == "Parent/Guardian Email"
    ensures name == "parentPhone" ==> FieldLabel(name) == "Parent/Guardian Phone"
    ensures name == "email" ==> FieldLabel(name) == "Email Address"
    ensures name == "phone" ==> FieldLabel(name) == "Phone Number"
  {
  }

  lemma {:induction false} ParentEmailIsCamelCase(name: string)
    requires name == "parentEmail"
    ensures !Contains(name, "email") && !Contains(name, "phone")
  {
    NoOccurrence(name, "email");
    NoOccurrence(name, "phone");
  }

  lemma {:induction false} ParentPhoneIsCamelCase(name: string)
    requires name == "parentPhone"
    ensures !Contains(name, "email") && !Contains(name, "phone")
  {
    NoOccurrence(name, "email");
    NoOccurrence(name, "phone");
  }

  lemma {:induction false} GenericFormatMessage(name: string)
    requires !Contains(name, "email") && !Contains(name, "phone")
    ensures FormatMessage(name) == FieldLabel(name) + " format is invalid"
  {
  }

  /** The lower-case names get the specific messages. */
  lemma {:induction false} EmailGetsEmailMessage(name: string)
    requires name == "email"
    ensures FormatMessage(name) == FieldLabel(name) + " must be a valid email address"
  {
    ContainsMiddle("", name, "");
    assert "" + name + "" == name;
  }

  lemma {:induction false} PhoneGetsPhoneMessage(name: string)
    requires name == "phone"
    ensures FormatMessage(name) == FieldLabel(name) + " must be a valid phone number"
  {
    PhoneIsNoEmail(name);
    PhoneFormatMessage(name);
  }

  lemma {:induction false} PhoneIsNoEmail(name: string)
    requires name == "phone"
    ensures Contains(name, "phone") && !Contains(name, "email")
  {
    ContainsMiddle("", name, "");
    assert "" + name + "" == name;
    NoOccurrence(name, "email");
  }

  lemma {:induction false} PhoneFormatMessage(name: string)
    requires Contains(name, "phone") && !Contains(name, "email")
    ensures FormatMessage(name) == FieldLabel(name) + " must be a valid phone number"
  {
  }

  /** `sub` occurs nowhere in `s` when no offset matches its first two characters. */
  lemma {:induction false} NoOccurrence(s: string, sub: string)
    requires |sub| >= 2
    requires forall i :: 0 <= i < |s| - 1 ==> !(s[i] == sub[0] && s[i + 1] == sub[1])
    ensures !Contains(s, sub)
  {
    forall i | 0 <= i <= |s| - |sub| ensures !OccursAt(s, sub, i) {
      assert s[i..i + |sub|][0] == s[i] && s[i..i + |sub|][1] == s[i + 1];
    }
    ContainsAt(s, sub);
  }

  function ServerEntries(issues: seq<ServerIssue>): (es: seq<Entry>)
    ensures |es| == |issues|
    ensures forall i :: 0 <= i < |issues| ==> es[i] == Entry(FieldName(issues[i]), UserMessage(issues[i]))
  {
    seq(|issues|, i requires 0 <= i < |issues| => Entry(FieldName(issues[i]), UserMessage(issues[i])))
  }

  // ---------------------------------------------------------------------------
  // Other admission failures
  // ---------------------------------------------------------------------------

  const DefaultAdmitFailure := "Failed to admit student. Please try again."
  const NoSchoolMessage := "Unable to determine school. Please try refreshing the page."

  /** What the thrown error's `data` was: absent, an array of issues, or an object. */
  datatype ErrorData = NoData | IssueList(issues: seq<ServerIssue>) | DataObject(message: Option<string>)
  datatype AdmitError = AdmitError(status: Option<int>, data: ErrorData, message: Option<string>)

  /** `error?.data?.message || error?.message || 'Failed to admit student. Please try again.'`. */
  function FailureMessage(e: AdmitError): (m: string)
    requires !e.data.IssueList?
    ensures m != ""
    ensures e.data.DataObject? && Truthy(e.data.message) ==> m == e.data.message.value
    ensures !(e.data.DataObject? && Truthy(e.data.message)) && Truthy(e.message) ==> m == e.message.value
    ensures !(e.data.DataObject? && Truthy(e.data.message)) && !Truthy(e.message) ==> m == DefaultAdmitFailure
  {
    var fromData := if e.data.DataObject? then e.data.message else None;
    OrElse(fromData, OrElse(e.message, DefaultAdmitFailure))
  }

  /** Conflicts and transfer problems are toasted for six seconds instead of the default. */
  predicate LongToast(status: Option<int>, m: string) {
    status == Some(409) || Contains(m, "already exists") || Contains(m, "transfer")
  }

  lemma {:induction false} ConflictIsLong(m: string)
    ensures LongToast(Some(409), m)
    ensures LongToast(None, "Student already exists")
  {
    ContainsMiddle("Student ", "already exists", "");
    assert "Student " + "already exists" + "" == "Student already exists";
  }

  // ---------------------------------------------------------------------------
  // The modal's state
  // ---------------------------------------------------------------------------

  datatype Toast = ErrorToast(text: string, long: bool) | SuccessToast(text: string)

  /** One admission request: the school, the payload and the optional image data URL. */
  datatype AdmitRequest = AdmitRequest(schoolId: string, student: Admission, profileImage: Option<string>)

  /** What the admit request answers: the created record's message, or a thrown error. */
  datatype AdmitReply = Admitted(message: Option<string>) | Rejected(error: AdmitError)

  class AdmissionForm {
    var formData: FormData
    var errors: map<string, string>
    var submitError: Option<string>
    var isLoading: bool
    /** Toasts raised, requests sent and whether `onClose` was called: recorded outputs. */
    var toasts: seq<Toast>
    var requests: seq<AdmitRequest>
    var closed: bool

    constructor()
      ensures formData == EmptyForm && errors == map[] && submitError == None && !isLoading
      ensures toasts == [] && requests == [] && !closed
    {
      formData := EmptyForm;
      errors := map[];
      submitError := None;
      isLoading := false;
      toasts := [];
      requests := [];
      closed := false;
    }

    /** The effect run when the modal is closed: every input and error is cleared. */
    method Reset()
      modifies this
      ensures formData == EmptyForm && errors == map[] && submitError == None
      ensures isLoading == old(isLoading) && toasts == old(toasts) && requests == old(requests)
      ensures closed == old(closed)
    {
      formData := EmptyForm;
      errors := map[];
      submitError := None;
    }

    /** handleNameChange: the capitalised value is stored and the field's error cleared. */
    method NameChange(field: NameField, value: string)
      modifies this
      ensures formData == SetName(old(formData), field, CapitalizeWords(value))
      ensures errors == old(errors) - {field.Key()}
      ensures submitError == old(submitError) && isLoading == old(isLoading)
      ensures toasts == old(toasts) && requests == old(requests) && closed == old(closed)
    {
      formData := SetName(formData, field, CapitalizeWords(value));
      if field.Key() in errors {
        errors := errors - {field.Key()};
      }
    }

    /** handleDateOfBirthChange: the date and its computed age are stored together. */
    method DateOfBirthChange(value: string, birth: Option<CalendarDate>, today: CalendarDate)
      modifies this
      ensures formData.dateOfBirth == value
      ensures value == "" ==> formData.age == ""
      ensures value != "" && birth.None? ==> formData.age == "NaN"
      ensures value != "" && birth.Some? ==> formData.age == IntToString(AgeOn(birth.value, today))
      ensures formData.(dateOfBirth := old(formData).dateOfBirth, age := old(formData).age) == old(formData)
      ensures errors == old(errors) - {"dateOfBirth"}
      ensures submitError == old(submitError) && isLoading == old(isLoading)
      ensures toasts == old(toasts) && requests == old(requests) && closed == old(closed)
    {
      var age := CalculateAge(value, birth, today);
      formData := formData.(dateOfBirth := value, age := age);
      if "dateOfBirth" in errors {
        errors := errors - {"dateOfBirth"};
      }
    }

    /** The arm picker: the arm id and that arm's level name, with both errors cleared. */
    method SelectArm(arms: seq<ClassArm>, id: string)
      modifies this
      ensures formData == old(formData).(classArmId := id, classLevel := LevelOfArm(arms, id))
      ensures errors == old(errors) - {"classArmId", "classLevel"}
      ensures submitError == old(submitError) && isLoading == old(isLoading)
      ensures toasts == old(toasts) && requests == old(requests) && closed == old(closed)
    {
      formData := formData.(classArmId := id, classLevel := LevelOfArm(arms, id));
      if "classArmId" in errors || "classLevel" in errors {
        errors := errors - {"classArmId", "classLevel"};
      }
    }

    /** The level picker: the level is stored and any chosen arm is forgotten. */
    method SelectLevel(value: string)
      modifies this
      ensures formData == old(formData).(classArmId := "", classLevel := value)
      ensures errors == old(errors) - {"classLevel"}
      ensures submitError == old(submitError) && isLoading == old(isLoading)
      ensures toasts == old(toasts) && requests == old(requests) && closed == old(closed)
    {
      formData := formData.(classArmId := "", classLevel := value);
      if "classLevel" in errors {
        errors := errors - {"classLevel"};
      }
    }

    /** Shows a batch of problems: the field errors, the summary toast and, for several
        problems, the banner. With one problem or none the banner is left as it was;
        `Submit` clears it before it validates. */
    method Report(es: seq<Entry>)
      modifies this
      ensures errors == FieldErrorsOf(es)
      ensures toasts == old(toasts) + [ErrorToast(Summarize(Messages(es)).toast, false)]
      ensures submitError == if |es| > 1 then Some(es[0].message) else old(submitError)
      ensures formData == old(formData) && isLoading == old(isLoading)
      ensures requests == old(requests) && closed == old(closed)
    {
      var fieldErrors, messages := CollectErrors(es);
      errors := fieldErrors;
      var summary := Summarize(messages);
      toasts := toasts + [ErrorToast(summary.toast, false)];
      if summary.submitError.Some? {
        submitError := summary.submitError;
      }
    }

    /** handleSubmitApplication. `validation` is the schema's verdict on the form (the
        sanitised record, or its issues), `schoolId` the current school and `reply` what
        the admit request answers. */
    method Submit(validation: Result<Admission, seq<ClientIssue>>, schoolId: Option<string>,
                  profileImage: Option<string>, reply: AdmitReply)
      modifies this
      ensures formData == old(formData)
      ensures validation.Failure? ==>
        requests == old(requests) && isLoading == old(isLoading)
        && toasts == old(toasts) + [ErrorToast(Summarize(Messages(ClientEntries(validation.error))).toast, false)]
        && errors == FieldErrorsOf(ClientEntries(validation.error))
        && submitError == Summarize(Messages(ClientEntries(validation.error))).submitError
      ensures validation.Success? && !Truthy(schoolId) ==>
        requests == old(requests) && toasts == old(toasts) && !isLoading
        && submitError == Some(NoSchoolMessage) && errors == map[]
      ensures validation.Success? && Truthy(schoolId) ==>
        requests == old(requests) + [AdmitRequest(schoolId.value, PayloadOf(validation.value), if Truthy(profileImage) then profileImage else None)]
      ensures validation.Success? && Truthy(schoolId) && reply.Admitted? ==>
        closed && isLoading && toasts == old(toasts) + [SuccessToast(OrElse(reply.message, "Student admitted successfully!"))]
        && errors == map[] && submitError == None
      ensures validation.Success? && Truthy(schoolId) && reply.Rejected? ==> !isLoading
      ensures validation.Success? && Truthy(schoolId) && reply.Rejected? && !reply.error.data.IssueList? ==>
        submitError == Some(FailureMessage(reply.error)) && errors == map[]
        && toasts == old(toasts) + [ErrorToast(FailureMessage(reply.error), LongToast(reply.error.status, FailureMessage(reply.error)))]
      ensures validation.Success? && Truthy(schoolId) && reply.Rejected? && reply.error.data.IssueList? ==>
        toasts == old(toasts) + [ErrorToast(Summarize(Messages(ServerEntries(reply.error.data.issues))).toast, false)]
        && submitError == Summarize(Messages(ServerEntries(reply.error.data.issues))).submitError
        && errors == FieldErrorsOf(ServerEntries(reply.error.data.issues))
      ensures !(validation.Success? && Truthy(schoolId) && reply.Admitted?) ==> closed == old(closed)
    {
      submitError := None;
      errors := map[];
      if validation.Failure? {
        Report(ClientEntries(validation.error));
        return;
      }
      if !Truthy(schoolId) {
        submitError := Some(NoSchoolMessage);
        isLoading := false;
        return;
      }
      Admit(AdmitRequest(schoolId.value, PayloadOf(validation.value), if Truthy(profileImage) then profileImage else None), reply);
    }

    /** The try block of handleSubmitApplication once the form is valid and a school
        is known: the request goes out, and the reply closes the form or is shown. */
    method Admit(request: AdmitRequest, reply: AdmitReply)
      modifies this
      ensures formData == old(formData)
      ensures requests == old(requests) + [request]
      ensures reply.Admitted? ==>
        closed && isLoading && errors == old(errors) && submitError == old(submitError)
        && toasts == old(toasts) + [SuccessToast(OrElse(reply.message, "Student admitted successfully!"))]
      ensures reply.Rejected? ==> !isLoading && closed == old(closed)
      ensures reply.Rejected? && !reply.error.data.IssueList? ==>
        submitError == Some(FailureMessage(reply.error)) && errors == old(errors)
        && toasts == old(toasts) + [ErrorToast(FailureMessage(reply.error), LongToast(reply.error.status, FailureMessage(reply.error)))]
      ensures reply.Rejected? && reply.error.data.IssueList? ==>
        toasts == old(toasts) + [ErrorToast(Summarize(Messages(ServerEntries(reply.error.data.issues))).toast, false)]
        && submitError == (if |reply.error.data.issues| > 1 then Some(UserMessage(reply.error.data.issues[0])) else old(submitError))
        && errors == FieldErrorsOf(ServerEntries(reply.error.data.issues))
    {
      isLoading := true;
      requests := requests + [request];
      match reply
      case Admitted(message) =>
        toasts := toasts + [SuccessToast(OrElse(message, "Student admitted successfully!"))];
        closed := true;
      case Rejected(e) =>
        isLoading := false;
        ShowRejection(e);
    }

    /** The catch block of handleSubmitApplication: the server's issue list is shown
        like the client's, any other failure as one message. */
    method ShowRejection(e: AdmitError)
      modifies this
      ensures !e.data.IssueList? ==>
        submitError == Some(FailureMessage(e)) && errors == old(errors)
        && toasts == old(toasts) + [ErrorToast(FailureMessage(e), LongToast(e.status, FailureMessage(e)))]
      ensures e.data.IssueList? ==>
        toasts == old(toasts) + [ErrorToast(Summarize(Messages(ServerEntries(e.data.issues))).toast, false)]
        && submitError == (if |e.data.issues| > 1 then Some(UserMessage(e.data.issues[0])) else old(submitError))
        && errors == FieldErrorsOf(ServerEntries(e.data.issues))
      ensures formData == old(formData) && isLoading == old(isLoading)
      ensures requests == old(requests) && closed == old(closed)
    {
      if e.data.IssueList? {
        Report(ServerEntries(e.data.issues));
      } else {
        ShowFailure(FailureMessage(e), LongToast(e.status, FailureMessage(e)));
      }
    }

    /** A rejection without an issue list: its message goes to the banner and to a
        toast of the given length. */
    method ShowFailure(m: string, long: bool)
      modifies this
      ensures submitError == Some(m) && toasts == old(toasts) + [ErrorToast(m, long)]
      ensures errors == old(errors) && formData == old(formData) && isLoading == old(isLoading)
      ensures requests == old(requests) && closed == old(closed)
    {
      submitError := Some(m);
      toasts := toasts + [ErrorToast(m, long)];
    }
  }
}
