// The sanitising transforms and acceptance rules of the school and
// student-admission form schemas (apps/web/src/lib/validations/school-forms.ts).
// Each schema field becomes a function from the raw input to either the
// cleaned value or the message of the first check that rejects it.

module SchoolForms {
  import opened Wrappers
  import opened Text
  import opened Calendar

  // ---------------------------------------------------------------------------
  // sanitizeString: strip control characters, strip tags, trim, truncate
  // ---------------------------------------------------------------------------

  /** The class `[\x00-\x08\x0B-\x0C\x0E-\x1F\x7F]`: every C0 control except tab,
      line feed and carriage return, plus DEL. */
  predicate IsStrippedControl(c: char) {
    c <= '\U{0008}' || c == '\U{000B}' || c == '\U{000C}' || ('\U{000E}' <= c <= '\U{001F}') || c == '\U{007F}'
  }

  function StripControls(s: string): (r: string)
    ensures |r| <= |s|
    ensures forall c :: c in r <==> c in s && !IsStrippedControl(c)
  {
    if s == [] then []
    else
      var rest := StripControls(s[1..]);
      assert forall c :: c in s <==> c == s[0] || c in s[1..];
      if IsStrippedControl(s[0]) then rest else [s[0]] + rest
  }

  /** No '<' is followed, anywhere later, by a '>'. */
  predicate NoTagPair(s: string) {
    forall i, j :: 0 <= i < j < |s| && s[i] == '<' ==> s[j] != '>'
  }

  function IndexOf(s: string, c: char): (i: nat)
    requires c in s
    ensures i < |s| && s[i] == c && c !in s[..i]
  {
    if s[0] == c then 0 else 1 + IndexOf(s[1..], c)
  }

  /** The global replace of `<[^>]*>` by "": a '<' that has some '>' after it is
      removed together with everything up to and including the first such '>'. */
  function StripTags(s: string): (r: string)
    ensures |r| <= |s|
    ensures forall c :: c in r ==> c in s
    ensures NoTagPair(r)
    decreases |s|
  {
    if s == [] then []
    else if s[0] == '<' && '>' in s[1..] then
      var rest := StripTags(s[IndexOf(s[1..], '>') + 2..]);
      assert forall c :: c in s[IndexOf(s[1..], '>') + 2..] ==> c in s;
      rest
    else
      var rest := StripTags(s[1..]);
      assert forall c :: c in s[1..] ==> c in s;
      assert s[0] == '<' ==> '>' !in rest;
      var r := [s[0]] + rest;
      assert forall j :: 0 < j < |r| ==> r[j] == rest[j - 1];
      r
  }

  lemma {:induction false} IndexOfFirst(a: string, c: char, b: string)
    requires c !in a
    ensures IndexOf(a + [c] + b, c) == |a|
  {
    var s := a + [c] + b;
    var i := IndexOf(s, c);
    assert s[|a|] == c;
  }

  /** One tag, `<` + text without '>' + `>`, is removed whole. */
  lemma {:induction false} StripTagsDropsTag(a: string, b: string)
    requires '>' !in a
    ensures StripTags(['<'] + a + ['>'] + b) == StripTags(b)
  {
    var s := ['<'] + a + ['>'] + b;
    assert s[1..] == a + ['>'] + b;
    IndexOfFirst(a, '>', b);
    assert s[|a| + 2..] == b;
  }

  /** Text without '<' is kept as it is in front of whatever follows. */
  lemma {:induction false} StripTagsKeepsPlainPrefix(a: string, b: string)
    requires '<' !in a
    ensures StripTags(a + b) == a + StripTags(b)
  {
    if a != [] {
      assert (a + b)[0] == a[0] && a[0] != '<';
      assert (a + b)[1..] == a[1..] + b;
      assert '<' !in a[1..];
      StripTagsKeepsPlainPrefix(a[1..], b);
      calc {
        StripTags(a + b);
        [a[0]] + StripTags(a[1..] + b);
        [a[0]] + (a[1..] + StripTags(b));
        { assert a == [a[0]] + a[1..]; }
        a + StripTags(b);
      }
    } else {
      assert a + b == b;
    }
  }

  /** A word between an opening and a closing tag is all that remains. */
  lemma {:induction false} StripTagsAroundWord(t: string, w: string, c: string)
    requires '>' !in t && '<' !in w && '>' !in c
    ensures StripTags(['<'] + t + ['>'] + w + ['<'] + c + ['>']) == w
  {
    var closing := ['<'] + c + ['>'];
    assert ['<'] + t + ['>'] + w + ['<'] + c + ['>'] == ['<'] + t + ['>'] + (w + closing);
    StripTagsDropsTag(t, w + closing);
    StripTagsKeepsPlainPrefix(w, closing);
    assert closing == ['<'] + c + ['>'] + [];
    StripTagsDropsTag(c, []);
    assert w + [] == w;
  }

  lemma {:induction false} StripTagsExample()
    ensures StripTags("<i>Ada</i>") == "Ada"
  {
    assert "<i>Ada</i>" == ['<'] + "i" + ['>'] + "Ada" + ['<'] + "/i" + ['>'];
    StripTagsAroundWord("i", "Ada", "/i");
  }

  function Truncate(s: string, n: nat): (r: string)
    ensures |r| <= n && r <= s
    ensures |s| <= n ==> r == s
  {
    if |s| <= n then s else s[..n]
  }

  lemma {:induction false} SliceKeepsNoTagPair(s: string, lo: nat, hi: nat)
    requires lo <= hi <= |s| && NoTagPair(s)
    ensures NoTagPair(s[lo..hi])
  {
    var t := s[lo..hi];
    forall i, j | 0 <= i < j < |t| && t[i] == '<' ensures t[j] != '>' {
      assert t[i] == s[lo + i] && t[j] == s[lo + j];
    }
  }

  lemma {:induction false} TrimKeepsNoTagPair(s: string)
    ensures NoTagPair(s) ==> NoTagPair(Trim(s))
    ensures forall c :: c in Trim(s) ==> c in s
  {
    var lo, hi := TrimIsSlice(s);
    if NoTagPair(s) {
      SliceKeepsNoTagPair(s, lo, hi);
    }
    assert forall c :: c in s[lo..hi] ==> c in s;
  }

  /** `sanitizeString(str, maxLength)`. */
  function SanitizeString(s: string, maxLength: nat): (r: string)
    ensures |r| <= maxLength
    ensures forall c :: c in r ==> c in s && !IsStrippedControl(c)
    ensures r == [] || !IsJsSpace(r[0])
    ensures NoTagPair(r)
  {
    var tagless := StripTags(StripControls(s));
    var trimmed := Trim(tagless);
    TrimKeepsNoTagPair(tagless);
    var r := Truncate(trimmed, maxLength);
    assert r == trimmed[..|r|];
    SliceKeepsNoTagPair(trimmed, 0, |r|);
    r
  }

  /** Text that is already clean and short enough passes through sanitizeString unchanged. */
  lemma {:induction false} SanitizeStringKeepsClean(s: string, maxLength: nat)
    requires |s| <= maxLength
    requires forall c :: c in s ==> !IsStrippedControl(c) && c != '<'
    requires s == [] || (!IsJsSpace(s[0]) && !IsJsSpace(s[|s| - 1]))
    ensures SanitizeString(s, maxLength) == s
  {
    StripControlsKeepsClean(s);
    StripTagsKeepsClean(s);
    TrimOfTrimmed(s);
  }

  lemma {:induction false} StripControlsKeepsClean(s: string)
    requires forall c :: c in s ==> !IsStrippedControl(c)
    ensures StripControls(s) == s
  {
    if s != [] {
      assert forall c :: c in s[1..] ==> c in s;
      StripControlsKeepsClean(s[1..]);
    }
  }

  lemma {:induction false} StripTagsKeepsClean(s: string)
    requires '<' !in s
    ensures StripTags(s) == s
  {
    if s != [] {
      assert '<' !in s[1..];
      StripTagsKeepsClean(s[1..]);
    }
  }

  // ---------------------------------------------------------------------------
  // sanitizeEmail and sanitizePhone
  // ---------------------------------------------------------------------------

  /** `sanitizeEmail`: trim, then lower-case. */
  function SanitizeEmail(s: string): (r: string)
    ensures |r| <= |s|
  {
    LowerStr(Trim(s))
  }

  /** A sanitised email has no white space at either end. */
  lemma {:induction false} SanitizeEmailTrimmed(s: string)
    ensures var r := SanitizeEmail(s); r == [] || (!IsJsSpace(r[0]) && !IsJsSpace(r[|r| - 1]))
  {
    var t := Trim(s);
    var r := LowerStr(t);
    if t != [] {
      assert !IsJsSpace(t[0]) && !IsJsSpace(t[|t| - 1]);
      assert |r| == |t| && r[0] == Lower(t[0]) && r[|r| - 1] == Lower(t[|t| - 1]);
      LowerKeepsSpace(t[0]);
      LowerKeepsSpace(t[|t| - 1]);
    }
  }

  lemma {:induction false} LowerStrHasNoUpper(t: string)
    ensures forall i :: 0 <= i < |LowerStr(t)| ==> !IsUpperAscii(LowerStr(t)[i])
  {
    forall i | 0 <= i < |t| ensures !IsUpperAscii(LowerStr(t)[i]) {
      assert LowerStr(t)[i] == Lower(t[i]);
    }
  }

  /** A sanitised email has no upper-case ASCII letter. */
  lemma {:induction false} SanitizeEmailLower(s: string)
    ensures forall i :: 0 <= i < |SanitizeEmail(s)| ==> !IsUpperAscii(SanitizeEmail(s)[i])
  {
    LowerStrHasNoUpper(Trim(s));
  }

  lemma {:induction false} LowerStrOfLower(s: string)
    requires forall i :: 0 <= i < |s| ==> !IsUpperAscii(s[i])
    ensures LowerStr(s) == s
  {
    assert forall i :: 0 <= i < |s| ==> LowerStr(s)[i] == s[i];
  }

  lemma {:induction false} SanitizeEmailIdempotent(s: string)
    ensures SanitizeEmail(SanitizeEmail(s)) == SanitizeEmail(s)
  {
    var e := SanitizeEmail(s);
    SanitizeEmailTrimmed(s);
    SanitizeEmailLower(s);
    TrimOfTrimmed(e);
    LowerStrOfLower(e);
  }

  predicate IsPhoneChar(c: char) { IsDigit(c) || c == '+' }

  /** `sanitizePhone`: the replace of `[^\d+]` by "" keeps ASCII digits and '+', in order. */
  function SanitizePhone(s: string): (r: string)
    ensures |r| <= |s|
    ensures forall i :: 0 <= i < |r| ==> IsPhoneChar(r[i])
    ensures forall c :: c in s && IsPhoneChar(c) ==> c in r
  {
    if s == [] then []
    else
      var rest := SanitizePhone(s[1..]);
      assert forall c :: c in s ==> c == s[0] || c in s[1..];
      if IsPhoneChar(s[0]) then [s[0]] + rest else rest
  }

  lemma {:induction false} SanitizePhoneKeepsPhoneText(s: string)
    requires forall i :: 0 <= i < |s| ==> IsPhoneChar(s[i])
    ensures SanitizePhone(s) == s
  {
    if s != [] {
      SanitizePhoneKeepsPhoneText(s[1..]);
    }
  }

  lemma {:induction false} SanitizePhoneIdempotent(s: string)
    ensures SanitizePhone(SanitizePhone(s)) == SanitizePhone(s)
  {
    SanitizePhoneKeepsPhoneText(SanitizePhone(s));
  }

  /** `/^\+?[1-9]\d{1,14}$/`: an optional '+', then 2 to 15 digits, the first of them 1-9
      (the E.164 shape). */
  predicate PhoneShaped(p: string) {
    var d := if |p| > 0 && p[0] == '+' then p[1..] else p;
    2 <= |d| <= 15 && '1' <= d[0] <= '9' && AllDigits(d)
  }

  // ---------------------------------------------------------------------------
  // sanitizeSubdomain
  // ---------------------------------------------------------------------------

  predicate IsSlugChar(c: char) { IsLowerAscii(c) || IsDigit(c) || c == '-' }

  ghost predicate NoDoubleDash(s: string) {
    forall i, j :: 0 <= i < j < |s| && j == i + 1 ==> !(s[i] == '-' && s[j] == '-')
  }

  predicate AllSlugChars(s: string) { forall i :: 0 <= i < |s| ==> IsSlugChar(s[i]) }

  /** What sanitizeSubdomain promises: only [a-z0-9-], no "--", no '-' at either end. */
  ghost predicate IsSlug(s: string) {
    AllSlugChars(s) && NoDoubleDash(s) && (s == [] || (s[0] != '-' && s[|s| - 1] != '-'))
  }

  /** The replace of `[^a-z0-9-]` by '-'. */
  function DashForeign(s: string): (r: string)
    ensures |r| == |s| && AllSlugChars(r)
    ensures forall i :: 0 <= i < |s| && IsSlugChar(s[i]) ==> r[i] == s[i]
    ensures forall i :: 0 <= i < |s| && !IsSlugChar(s[i]) ==> r[i] == '-'
  {
    seq(|s|, i requires 0 <= i < |s| => if IsSlugChar(s[i]) then s[i] else '-')
  }

  /** The replace of `-+` by '-': every run of dashes becomes one dash. */
  function CollapseDashes(s: string): (r: string)
    ensures |r| <= |s| && NoDoubleDash(r)
    ensures AllSlugChars(s) ==> AllSlugChars(r)
    ensures s != [] ==> r != [] && r[0] == s[0] && r[|r| - 1] == s[|s| - 1]
    decreases |s|
  {
    if |s| < 2 then s
    else if s[0] == '-' && s[1] == '-' then CollapseDashes(s[1..])
    else
      var rest := CollapseDashes(s[1..]);
      [s[0]] + rest
  }

  /** The characters of a text other than '-', in order. */
  function NonDashes(s: string): (r: string)
    ensures |r| <= |s| && '-' !in r
    decreases |s|
  {
    if s == [] then [] else (if s[0] == '-' then [] else [s[0]]) + NonDashes(s[1..])
  }

  /** Collapsing touches only dashes: every other character is kept, in order. */
  lemma {:induction false} CollapseKeepsNonDashes(s: string)
    ensures NonDashes(CollapseDashes(s)) == NonDashes(s)
    decreases |s|
  {
    if |s| >= 2 {
      CollapseKeepsNonDashes(s[1..]);
      if !(s[0] == '-' && s[1] == '-') {
        var r := [s[0]] + CollapseDashes(s[1..]);
        assert r[1..] == CollapseDashes(s[1..]);
      }
    }
  }

  /** A doubled dash collapses like a single one; with `CollapseKeepsSingleDashes` this
      pins the result down: a run of dashes of any length leaves exactly one dash. */
  lemma {:induction false} CollapseAbsorbsDash(a: string, b: string)
    ensures CollapseDashes(a + "--" + b) == CollapseDashes(a + "-" + b)
    decreases |a|
  {
    var s1, s2 := a + "--" + b, a + "-" + b;
    if a == [] {
      assert s1[1..] == s2;
    } else {
      assert s1[1..] == a[1..] + "--" + b;
      assert s2[1..] == a[1..] + "-" + b;
      assert s1[0] == s2[0] && s1[1] == s2[1];
      CollapseAbsorbsDash(a[1..], b);
    }
  }

  lemma {:induction false} CollapseKeepsSingleDashes(s: string)
    requires NoDoubleDash(s)
    ensures CollapseDashes(s) == s
    decreases |s|
  {
    if |s| >= 2 {
      CollapseKeepsSingleDashes(s[1..]);
    }
  }

  function TrimDashStart(s: string): (r: string)
    ensures |r| <= |s| && r == s[|s| - |r|..]
    ensures r == [] || r[0] != '-'
  {
    if |s| > 0 && s[0] == '-' then TrimDashStart(s[1..]) else s
  }

  function TrimDashEnd(s: string): (r: string)
    ensures |r| <= |s| && r == s[..|r|]
    ensures r == [] || r[|r| - 1] != '-'
  {
    if |s| > 0 && s[|s| - 1] == '-' then TrimDashEnd(s[..|s| - 1]) else s
  }

  /** A contiguous piece of a string keeps both character-level slug properties. */
  lemma {:induction false} SliceKeepsSlugChars(s: string, lo: nat, t: string)
    requires lo + |t| <= |s| && forall i :: 0 <= i < |t| ==> t[i] == s[lo + i]
    ensures AllSlugChars(s) ==> AllSlugChars(t)
    ensures NoDoubleDash(s) ==> NoDoubleDash(t)
  {
  }

  /** The replaces of `^-+` and `-+$` by "". */
  function TrimDashes(s: string): (r: string)
    ensures |r| <= |s|
    ensures AllSlugChars(s) && NoDoubleDash(s) ==> IsSlug(r)
  {
    var front := TrimDashStart(s);
    var r := TrimDashEnd(front);
    TrimDashesKeepsSlug(s, front, r);
    r
  }

  lemma {:induction false} TrimDashStartKeeps(s: string)
    requires AllSlugChars(s) && NoDoubleDash(s)
    ensures AllSlugChars(TrimDashStart(s)) && NoDoubleDash(TrimDashStart(s))
  {
    var f := TrimDashStart(s);
    var lo := |s| - |f|;
    forall i | 0 <= i < |f| ensures f[i] == s[lo + i] {
      assert f == s[lo..];
    }
    SliceKeepsSlugChars(s, lo, f);
  }

  lemma {:induction false} TrimDashEndKeeps(s: string)
    requires AllSlugChars(s) && NoDoubleDash(s)
    ensures AllSlugChars(TrimDashEnd(s)) && NoDoubleDash(TrimDashEnd(s))
  {
    var r := TrimDashEnd(s);
    forall i | 0 <= i < |r| ensures r[i] == s[0 + i] {
      assert r == s[..|r|];
    }
    SliceKeepsSlugChars(s, 0, r);
  }

  lemma {:induction false} TrimDashesKeepsSlug(s: string, front: string, r: string)
    requires front == TrimDashStart(s) && r == TrimDashEnd(front)
    ensures AllSlugChars(s) && NoDoubleDash(s) ==> IsSlug(r)
  {
    if AllSlugChars(s) && NoDoubleDash(s) {
      TrimDashStartKeeps(s);
      TrimDashEndKeeps(front);
      assert r == [] || r[0] == front[..|r|][0];
    }
  }

  /** `sanitizeSubdomain`: lower-case, trim, turn foreign characters into '-',
      collapse dash runs, drop dashes at both ends. */
  function SanitizeSubdomain(s: string): (r: string)
    ensures IsSlug(r)
    ensures |r| <= |s|
  {
    TrimDashes(CollapseDashes(DashForeign(Trim(LowerStr(s)))))
  }

  /** A slug is a fixed point of sanitizeSubdomain. */
  lemma {:induction false} SlugIsFixedPoint(s: string)
    requires IsSlug(s)
    ensures SanitizeSubdomain(s) == s
  {
    LowerStrOfLower(s);
    if s != [] {
      assert !IsJsSpace(s[0]) && !IsJsSpace(s[|s| - 1]);
    }
    TrimOfTrimmed(s);
    assert forall i :: 0 <= i < |s| ==> DashForeign(s)[i] == s[i];
    assert DashForeign(s) == s;
    CollapseKeepsSingleDashes(s);
    assert TrimDashStart(s) == s;
    assert TrimDashEnd(s) == s;
  }

  lemma {:induction false} SanitizeSubdomainIdempotent(s: string)
    ensures SanitizeSubdomain(SanitizeSubdomain(s)) == SanitizeSubdomain(s)
  {
    SlugIsFixedPoint(SanitizeSubdomain(s));
  }

  // ---------------------------------------------------------------------------
  // Field rules of studentAdmissionFormSchema and createSchoolFormSchema
  // ---------------------------------------------------------------------------

  /** A required (or length-bounded) text field: zod's `min`/`max` checks on the RAW
      string, then `sanitizeString(val, keep)`. `required` is the `.min(1, '<name> is
      required')` check; `minLen` >= 2 adds `.min(minLen, ...)`. */
  datatype TextRule = TextRule(name: string, required: bool, minLen: nat, maxLen: Option<nat>, keep: nat)

  function TextField(rule: TextRule, raw: string): (r: Result<string, string>)
    ensures r.Success? <==> (!rule.required || raw != "") && |raw| >= rule.minLen
                            && (rule.maxLen.None? || |raw| <= rule.maxLen.value)
    ensures r.Success? ==> r.value == SanitizeString(raw, rule.keep)
  {
    if rule.required && raw == "" then Failure(rule.name + " is required")
    else if |raw| < rule.minLen then
      Failure(rule.name + " must be at least " + IntToString(rule.minLen) + " characters")
    else if rule.maxLen.Some? && |raw| > rule.maxLen.value then
      Failure(rule.name + " must be at most " + IntToString(rule.maxLen.value) + " characters")
    else Success(SanitizeString(raw, rule.keep))
  }

  const FirstNameRule := TextRule("First name", true, 2, Some(50), 50)
  const LastNameRule := TextRule("Last name", true, 2, Some(50), 50)
  const ParentNameRule := TextRule("Parent/Guardian name", true, 2, Some(100), 100)
  const RelationshipRule := TextRule("Relationship", true, 0, None, 50)
  const SchoolNameRule := TextRule("School name", true, 2, Some(200), 200)
  const AddressRule := TextRule("Address", true, 0, Some(500), 500)
  const CityRule := TextRule("City", true, 0, Some(100), 100)
  const StateRule := TextRule("State", true, 0, Some(100), 100)
  const StaffFirstNameRule := TextRule("First name", false, 2, Some(50), 50)
  const StaffLastNameRule := TextRule("Last name", false, 2, Some(50), 50)
  const StaffRoleRule := TextRule("Role", false, 2, Some(50), 50)

  /** The length bounds read the raw text: two characters of markup pass the
      two-character minimum and are then sanitised away to nothing. */
  predicate IsAlnumAscii(c: char) { IsLowerAscii(c) || IsUpperAscii(c) || IsDigit(c) }

  /** Letters and digits are left alone by sanitizeString. */
  lemma {:induction false} SanitizeStringKeepsWord(s: string, maxLength: nat)
    requires |s| <= maxLength
    requires forall i :: 0 <= i < |s| ==> IsAlnumAscii(s[i])
    ensures SanitizeString(s, maxLength) == s
  {
    SanitizeStringKeepsClean(s, maxLength);
  }

  /** A bare tag sanitises to nothing. */
  lemma {:induction false} SanitizeStringBareTag(t: string, maxLength: nat)
    requires '>' !in t && forall c :: c in t ==> !IsStrippedControl(c)
    ensures SanitizeString(['<'] + t + ['>'], maxLength) == ""
  {
    var s := ['<'] + t + ['>'];
    assert forall c :: c in s ==> c == '<' || c == '>' || c in t;
    StripControlsKeepsClean(s);
    assert s == ['<'] + t + ['>'] + [];
    StripTagsDropsTag(t, []);
    assert StripTags([]) == [];
    assert Trim([]) == [];
  }

  /** The length bounds read the raw text: "<>" passes the two-character minimum
      and sanitises to nothing. */
  lemma {:induction false} NameBoundsReadRawText()
    ensures TextField(FirstNameRule, "<>") == Success("")
  {
    assert "<>" == ['<'] + [] + ['>'];
    SanitizeStringBareTag([], 50);
  }

  lemma {:induction false} TwoLetterNameAccepted()
    ensures TextField(FirstNameRule, "Al") == Success("Al")
  {
    SanitizeStringKeepsWord("Al", 50);
  }

  lemma {:induction false} OneLetterNameRejected()
    ensures TextField(FirstNameRule, "A").Failure?
  {
  }

  /** An optional text field: `val ? sanitizeString(val, keep) : undefined`. */
  function OptionalText(raw: Option<string>, keep: nat): (r: Option<string>)
    ensures r.Some? <==> Truthy(raw)
    ensures r.Some? ==> r.value == SanitizeString(raw.value, keep) && |r.value| <= keep
  {
    if Truthy(raw) then Some(SanitizeString(raw.value, keep)) else None
  }

  /** The school form's country: the default 'Nigeria' for an empty or absent value. */
  function CountryField(raw: Option<string>): (r: string)
    ensures !Truthy(raw) ==> r == "Nigeria"
    ensures Truthy(raw) ==> r == SanitizeString(raw.value, 100)
  {
    SanitizeStringKeepsWord("Nigeria", 100);
    SanitizeString(OrElse(raw, "Nigeria"), 100)
  }

  /** classArmId: `val && val.trim() ? val.trim() : undefined`. */
  function ArmField(raw: Option<string>): (r: Option<string>)
    ensures r.Some? <==> Truthy(raw) && Trim(raw.value) != ""
    ensures r.Some? ==> r.value == Trim(raw.value) && r.value != ""
  {
    if Truthy(raw) && Trim(raw.value) != "" then Some(Trim(raw.value)) else None
  }

  /** Student and parent phone: required, sanitised, at least 10 characters, E.164 shape. */
  function RequiredPhone(field: string, raw: string): (r: Result<string, string>)
    ensures r.Success? <==> |SanitizePhone(raw)| >= 10 && PhoneShaped(SanitizePhone(raw))
    ensures r.Success? ==> r.value == SanitizePhone(raw)
  {
    if raw == "" then Failure(field + " is required")
    else
      var p := SanitizePhone(raw);
      if |p| < 10 then Failure(field + " must be at least 10 characters")
      else if !PhoneShaped(p) then Failure("Invalid phone format")
      else Success(p)
  }

  /** An accepted phone has 10 to 16 characters: 10 or more by the length check, and
      at most a '+' and 15 digits by the shape. */
  lemma {:induction false} RequiredPhoneLength(field: string, raw: string)
    requires RequiredPhone(field, raw).Success?
    ensures 10 <= |RequiredPhone(field, raw).value| <= 16
  {
  }

  const StudentPhoneLabel := "Phone number"
  const ParentPhoneLabel := "Parent/Guardian phone"

  /** emergencyContactPhone: blank, or fewer than 10 characters after sanitising, is
      dropped (undefined) instead of rejected; otherwise the E.164 shape is required. */
  function EmergencyPhone(raw: Option<string>): (r: Result<Option<string>, string>)
    ensures (!Truthy(raw) || Trim(raw.value) == "" || |SanitizePhone(raw.value)| < 10) ==> r == Success(None)
    ensures Truthy(raw) && Trim(raw.value) != "" && |SanitizePhone(raw.value)| >= 10 ==>
              (r.Success? <==> PhoneShaped(SanitizePhone(raw.value)))
              && (r.Success? ==> r.value == Some(SanitizePhone(raw.value)))
  {
    var cleaned :=
      if !Truthy(raw) || Trim(raw.value) == "" then None
      else if |SanitizePhone(raw.value)| >= 10 then Some(SanitizePhone(raw.value))
      else None;
    if cleaned.None? || PhoneShaped(cleaned.value) then Success(cleaned)
    else Failure("Emergency contact phone must be at least 10 characters if provided")
  }

  lemma {:induction false} EmergencyPhoneShortIsDropped()
    ensures EmergencyPhone(Some("  ")) == Success(None)
    ensures EmergencyPhone(Some("0803-12")) == Success(None)
  {
    assert TrimStart("  ") == "";
  }

  /** Principal and admin phone in the school form: the 10-character minimum is on the
      RAW text, the shape on the sanitised one. */
  function StaffPhone(raw: string): (r: Result<string, string>)
    ensures r.Success? <==> |raw| >= 10 && PhoneShaped(SanitizePhone(raw))
    ensures r.Success? ==> r.value == SanitizePhone(raw)
  {
    if |raw| < 10 then Failure("Phone number must be at least 10 characters")
    else if PhoneShaped(SanitizePhone(raw)) then Success(SanitizePhone(raw))
    else Failure("Invalid phone format")
  }

  /** Because the minimum reads the raw text, punctuation can carry a nine-digit
      number past it, which the admission form's phone rule would refuse. */
  lemma {:induction false} SanitizePhoneConcat(a: string, b: string)
    ensures SanitizePhone(a + b) == SanitizePhone(a) + SanitizePhone(b)
  {
    if a == [] {
      assert a + b == b;
    } else {
      assert (a + b)[0] == a[0];
      assert (a + b)[1..] == a[1..] + b;
      SanitizePhoneConcat(a[1..], b);
    }
  }

  /** A separator between two runs of phone characters is dropped. */
  lemma {:induction false} SanitizePhoneDropsSeparator(x: string, y: string)
    requires forall i :: 0 <= i < |x| ==> IsPhoneChar(x[i])
    requires forall i :: 0 <= i < |y| ==> IsPhoneChar(y[i])
    ensures SanitizePhone(x + "-" + y) == x + y
  {
    assert x + "-" + y == x + ("-" + y);
    SanitizePhoneConcat(x, "-" + y);
    SanitizePhoneConcat("-", y);
    SanitizePhoneKeepsPhoneText(x);
    SanitizePhoneKeepsPhoneText(y);
    assert SanitizePhone("-") == "";
  }

  lemma {:induction false} StaffPhoneCountsPunctuation(d: string)
    requires |d| == 9 && AllDigits(d) && d[0] != '0'
    ensures StaffPhone(d[..5] + "-" + d[5..]) == Success(d)
    ensures RequiredPhone(StudentPhoneLabel, d[..5] + "-" + d[5..]).Failure?
  {
    var raw := d[..5] + "-" + d[5..];
    SanitizePhoneDropsSeparator(d[..5], d[5..]);
    assert d[..5] + d[5..] == d;
    assert PhoneShaped(d);
    assert |raw| == 10;
  }

  /** The school's own optional phone: `val ? sanitizePhone(val) : undefined`, then the
      shape unless the sanitised value is empty. */
  function SchoolPhone(raw: Option<string>): (r: Result<Option<string>, string>)
    ensures !Truthy(raw) ==> r == Success(None)
    ensures Truthy(raw) ==> (r.Success? <==> SanitizePhone(raw.value) == "" || PhoneShaped(SanitizePhone(raw.value)))
    ensures Truthy(raw) && r.Success? ==> r.value == Some(SanitizePhone(raw.value))
  {
    if !Truthy(raw) then Success(None)
    else
      var p := SanitizePhone(raw.value);
      if p == "" || PhoneShaped(p) then Success(Some(p)) else Failure("Invalid phone format")
  }

  predicate NoSpaceOrAt(s: string) {
    forall i :: 0 <= i < |s| ==> !IsJsSpace(s[i]) && s[i] != '@'
  }

  /** `/^[^\s@]+@[^\s@]+\.[^\s@]+$/`: one '@' with a non-empty local part before it, and
      after it a domain with a '.' that has text on both sides; no white space. */
  predicate EmailShaped(s: string) {
    exists a :: 0 < a < |s| && s[a] == '@' && NoSpaceOrAt(s[..a]) && NoSpaceOrAt(s[a + 1..])
      && exists k :: a + 1 < k < |s| - 1 && s[k] == '.'
  }

  lemma {:induction false} EmailShapeExample()
    ensures EmailShaped("ada@school.ng")
  {
    var s := "ada@school.ng";
    assert s[3] == '@' && s[10] == '.';
    assert NoSpaceOrAt(s[..3]) && NoSpaceOrAt(s[4..]);
  }

  /** An address of the e-mail shape has exactly one '@'. */
  lemma {:induction false} EmailHasOneAt(s: string, i: nat, j: nat)
    requires EmailShaped(s)
    requires i < |s| && j < |s| && s[i] == '@' && s[j] == '@'
    ensures i == j
  {
    var a :| 0 < a < |s| && s[a] == '@' && NoSpaceOrAt(s[..a]) && NoSpaceOrAt(s[a + 1..])
             && exists k :: a + 1 < k < |s| - 1 && s[k] == '.';
    assert forall k :: 0 <= k < a ==> s[..a][k] == s[k];
    assert forall k :: a < k < |s| ==> s[a + 1..][k - a - 1] == s[k];
  }

  /** The admission form's optional e-mails: blank becomes undefined, otherwise the
      sanitised address must have the e-mail shape. */
  function AdmissionEmail(raw: Option<string>): (r: Result<Option<string>, string>)
    ensures (!Truthy(raw) || Trim(raw.value) == "") ==> r == Success(None)
    ensures Truthy(raw) && Trim(raw.value) != "" ==>
              (r.Success? <==> EmailShaped(SanitizeEmail(raw.value)))
              && (r.Success? ==> r.value == Some(SanitizeEmail(raw.value)))
  {
    if !Truthy(raw) || Trim(raw.value) == "" then Success(None)
    else
      var e := SanitizeEmail(raw.value);
      if EmailShaped(e) then Success(Some(e)) else Failure("Invalid email address")
  }

  /** The school form's optional e-mail: no blank test, so white space sanitises to ""
      and passes as an empty address. */
  function SchoolEmail(raw: Option<string>): (r: Result<Option<string>, string>)
    ensures !Truthy(raw) ==> r == Success(None)
    ensures Truthy(raw) ==> (r.Success? <==> SanitizeEmail(raw.value) == "" || EmailShaped(SanitizeEmail(raw.value)))
    ensures Truthy(raw) && r.Success? ==> r.value == Some(SanitizeEmail(raw.value))
    ensures r.Failure? ==> r.error == "Invalid email format"
  {
    if !Truthy(raw) then Success(None)
    else
      var e := SanitizeEmail(raw.value);
      if e == "" || EmailShaped(e) then Success(Some(e)) else Failure("Invalid email format")
  }

  const AgeMessage := "Student age must be between 3 and 25 years"

  /** dateOfBirth: required, then the age on `today` must lie in [3, 25]. `birth` is the
      parsed date, None when the text does not parse (JavaScript's Invalid Date, whose
      NaN age fails every comparison). */
  function DateOfBirth(raw: string, birth: Option<CalendarDate>, today: CalendarDate): (r: Result<string, string>)
    ensures r.Success? <==> raw != "" && birth.Some? && 3 <= AgeOn(birth.value, today) <= 25
    ensures r.Success? ==> r.value == raw
    ensures raw != "" && r.Failure? ==> r.error == AgeMessage
  {
    if raw == "" then Failure("Date of birth is required")
    else if birth.Some? && 3 <= AgeOn(birth.value, today) <= 25 then Success(raw)
    else Failure(AgeMessage)
  }

  /** A three-year-old is admitted on the third birthday, and not the day before. */
  lemma {:induction false} AgeWindowEdges()
    ensures DateOfBirth("2020-03-14", Some(CalendarDate(2020, 3, 14)), CalendarDate(2023, 3, 14)).Success?
    ensures DateOfBirth("2020-03-14", Some(CalendarDate(2020, 3, 14)), CalendarDate(2023, 3, 13)).Failure?
  {
  }

  datatype Issue = Issue(path: string, message: string)

  /** The object-level refine: a class arm or a class level must survive the field
      transforms; the issue is reported on classLevel. */
  function ArmOrLevel(classArmId: Option<string>, classLevel: Option<string>): (r: Option<Issue>)
    ensures r.None? <==> ArmField(classArmId).Some? || Truthy(OptionalText(classLevel, 100))
    ensures r.Some? ==> r.value.path == "classLevel"
  {
    var arm := ArmField(classArmId);
    var level := OptionalText(classLevel, 100);
    if arm.Some? || Truthy(level) then None
    else Some(Issue("classLevel", "Either Class Level or ClassArm must be selected"))
  }

  /** subdomain: `val ? sanitizeSubdomain(val) : undefined`, then absent, empty, or
      3 to 50 characters. */
  function Subdomain(raw: Option<string>): (r: Result<Option<string>, string>)
    ensures r.Success? <==> !Truthy(raw) || SanitizeSubdomain(raw.value) == ""
                            || 3 <= |SanitizeSubdomain(raw.value)| <= 50
    ensures r.Success? && Truthy(raw) ==> r.value == Some(SanitizeSubdomain(raw.value)) && IsSlug(r.value.value)
  {
    if !Truthy(raw) then Success(None)
    else
      var slug := SanitizeSubdomain(raw.value);
      if slug == "" || 3 <= |slug| <= 50 then Success(Some(slug))
      else Failure("Subdomain must be between 3 and 50 characters")
  }

  datatype SchoolLevels = SchoolLevels(primary: bool, secondary: bool, tertiary: bool)

  /** levels: at least one school level flag (each defaults to false). */
  function Levels(levels: SchoolLevels): (r: Result<SchoolLevels, string>)
    ensures r.Success? <==> levels.primary || levels.secondary || levels.tertiary
    ensures r.Success? ==> r.value == levels
  {
    if levels.primary || levels.secondary || levels.tertiary then Success(levels)
    else Failure("At least one school level must be selected")
  }
}
