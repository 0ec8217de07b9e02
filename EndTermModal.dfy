// The end-of-term confirmation of apps/web/src/components/modals/EndTermModal.tsx:
// the name of the period being ended, whether it ends before its scheduled date,
// and the title, button text, variant and message built from those. The clock is
// a parameter: `now` and the parsed end date are milliseconds since the epoch,
// and the locale rendering of the end date is passed in as text.

module EndTermModal {
  import opened Wrappers
  import opened Text

  /** `termLabel = 'Term'`: the default applies only when no label is passed. */
  function TermLabel(termLabel: Option<string>): (lbl: string)
    ensures termLabel.None? ==> lbl == "Term"
    ensures termLabel.Some? ==> lbl == termLabel.value
  {
    termLabel.GetOr("Term")
  }

  /** "session - term" with both names, else whichever is set, else "the current term". */
  function DisplayName(termName: Option<string>, sessionName: Option<string>, termLabel: string): (n: string)
    ensures Truthy(termName) && Truthy(sessionName) ==> n == sessionName.value + " - " + termName.value
    ensures Truthy(termName) && !Truthy(sessionName) ==> n == termName.value
    ensures !Truthy(termName) && Truthy(sessionName) ==> n == sessionName.value
    ensures !Truthy(termName) && !Truthy(sessionName) ==> n == "the current " + LowerStr(termLabel)
  {
    if Truthy(termName) && Truthy(sessionName) then sessionName.value + " - " + termName.value
    else OrElse(termName, OrElse(sessionName, "the current " + LowerStr(termLabel)))
  }

  const MillisPerDay := 1000 * 60 * 60 * 24

  /** `Math.ceil(a / d)` for a positive divisor. */
  function CeilDiv(a: int, d: int): (q: int)
    requires d > 0
    ensures (q - 1) * d < a <= q * d
  {
    (a + d - 1) / d
  }

  /** The scheduled end, as the text prop and the instant it parses to (`None` for a
      date that does not parse). */
  datatype EndDate = EndDate(text: Option<string>, instant: Option<int>)

  /** `termEndDate ? new Date(termEndDate) > new Date() : false`. An unparseable date
      compares false. */
  predicate IsEndingEarly(end: EndDate, now: int) {
    Truthy(end.text) && end.instant.Some? && end.instant.value > now
  }

  /** `daysRemaining`: 0 without a date, `None` (NaN) for one that does not parse, else
      the days left rounded up. */
  function DaysRemaining(end: EndDate, now: int): (d: Option<int>)
    ensures !Truthy(end.text) ==> d == Some(0)
    ensures Truthy(end.text) && end.instant.None? ==> d.None?
    ensures IsEndingEarly(end, now) ==> d.Some? && d.value >= 1
    ensures d.Some? && Truthy(end.text) ==> (d.value - 1) * MillisPerDay < end.instant.value - now <= d.value * MillisPerDay
  {
    if !Truthy(end.text) then Some(0)
    else if end.instant.None? then None
    else Some(CeilDiv(end.instant.value - now, MillisPerDay))
  }

  datatype Variant = Danger | Warning

  datatype Confirmation = Confirmation(title: string, message: string, confirmText: string, cancelText: string, variant: Variant)

  function BaseMessage(displayName: string): string {
    "Are you sure you want to end " + displayName + "?"
  }

  function StandardMessage(termLabel: string): string {
    "\n\nThis action will mark the " + LowerStr(termLabel) + " as completed. You will need to start a new "
      + LowerStr(termLabel) + " to continue operations."
  }

  const WarningOpening := "\n\n⚠️ WARNING: You are ending this "
  const WarningDays := " days before its scheduled end date ("
  const WarningClosing := "). If you end it now, you can continue it later from the session wizard as long as the end date hasn't passed."

  /** `${daysRemaining}`: the day count as JavaScript prints it, NaN included. */
  function DaysText(days: Option<int>): (t: string)
    ensures days.Some? ==> t == IntToString(days.value)
    ensures days.None? ==> t == "NaN"
  {
    if days.Some? then IntToString(days.value) else "NaN"
  }

  /** The early-ending warning: empty unless the term ends early; otherwise it opens
      with the warning sign and closes with the advice about the session wizard. */
  function EarlyWarning(early: bool, termLabel: string, days: Option<int>, endText: string): (w: string)
    ensures w == "" <==> !early
    ensures early ==> |WarningOpening| <= |w| && w[..|WarningOpening|] == WarningOpening
    ensures early ==> |WarningClosing| <= |w| && w[|w| - |WarningClosing|..] == WarningClosing
  {
    if !early then "" else
      var middle := LowerStr(termLabel) + " " + DaysText(days) + WarningDays + endText;
      var w := WarningOpening + middle + WarningClosing;
      assert w[..|WarningOpening|] == WarningOpening;
      assert w[|w| - |WarningClosing|..] == WarningClosing;
      w
  }

  /** A text holds the first of the pieces it wraps. */
  lemma {:induction false} WrapsFirstPiece(a: string, x: string, y: string, z: string, b: string)
    ensures Contains(a + (x + y + z) + b, x)
  {
    assert a + (x + y + z) + b == a + x + (y + z + b);
    ContainsMiddle(a, x, y + z + b);
  }

  /** A text holds everything from the second of the pieces it wraps to its own end. */
  lemma {:induction false} WrapsTail(a: string, p: string, d: string, y: string, z: string, b: string)
    ensures Contains(a + (p + d + y + z) + b, d + y + z + b)
  {
    assert a + (p + d + y + z) + b == (a + p) + (d + y + z + b) + "";
    ContainsMiddle(a + p, d + y + z + b, "");
  }

  /** An early warning names the lower-cased label followed by the days left. */
  lemma {:induction false} WarningNamesLabelAndDays(termLabel: string, days: Option<int>, endText: string)
    ensures Contains(EarlyWarning(true, termLabel, days, endText), LowerStr(termLabel) + " " + DaysText(days))
  {
    WrapsFirstPiece(WarningOpening, LowerStr(termLabel) + " " + DaysText(days), WarningDays, endText, WarningClosing);
  }

  /** An early warning puts the days left and the scheduled end date side by side,
      right before its closing advice. */
  lemma {:induction false} WarningNamesDaysAndDate(termLabel: string, days: Option<int>, endText: string)
    ensures Contains(EarlyWarning(true, termLabel, days, endText), DaysText(days) + WarningDays + endText + WarningClosing)
  {
    WrapsTail(WarningOpening, LowerStr(termLabel) + " ", DaysText(days), WarningDays, endText, WarningClosing);
  }

  /** The confirm dialog. Title, button and variant depend only on whether the term is
      ending early; the message is always base, then warning, then standard text. */
  function Confirm(termName: Option<string>, sessionName: Option<string>, termLabel: Option<string>,
                   end: EndDate, now: int, endText: string): (c: Confirmation)
    ensures IsEndingEarly(end, now) ==> (c.title == "End " + TermLabel(termLabel) + " Early?"
      && c.confirmText == "End " + TermLabel(termLabel) + " Early" && c.variant == Danger)
    ensures !IsEndingEarly(end, now) ==> (c.title == "End " + TermLabel(termLabel)
      && c.confirmText == "End " + TermLabel(termLabel) && c.variant == Warning)
    ensures c.cancelText == "Cancel"
    ensures c.message == BaseMessage(DisplayName(termName, sessionName, TermLabel(termLabel)))
      + EarlyWarning(IsEndingEarly(end, now), TermLabel(termLabel), DaysRemaining(end, now), endText)
      + StandardMessage(TermLabel(termLabel))
  {
    var lbl := TermLabel(termLabel);
    var early := IsEndingEarly(end, now);
    var message := BaseMessage(DisplayName(termName, sessionName, lbl))
      + EarlyWarning(early, lbl, DaysRemaining(end, now), endText) + StandardMessage(lbl);
    if early then Confirmation("End " + lbl + " Early?", message, "End " + lbl + " Early", "Cancel", Danger)
    else Confirmation("End " + lbl, message, "End " + lbl, "Cancel", Warning)
  }

  /** A term with no scheduled end, or one already past, gets the plain message: just
      the question and the standard text. */
  lemma {:induction false} OnTimeMessage(termName: Option<string>, sessionName: Option<string>, termLabel: Option<string>,
                                         end: EndDate, now: int, endText: string)
    requires !Truthy(end.text) || (end.instant.Some? && end.instant.value <= now)
    ensures Confirm(termName, sessionName, termLabel, end, now, endText).message ==
      BaseMessage(DisplayName(termName, sessionName, TermLabel(termLabel))) + StandardMessage(TermLabel(termLabel))
    ensures Confirm(termName, sessionName, termLabel, end, now, endText).variant == Warning
  {
    var c := Confirm(termName, sessionName, termLabel, end, now, endText);
    var b, s := BaseMessage(DisplayName(termName, sessionName, TermLabel(termLabel))), StandardMessage(TermLabel(termLabel));
    assert c.message == b + "" + s;
    assert b + "" == b;
  }

  /** The message always opens with the question and closes with the standard text. */
  lemma {:induction false} MessageFraming(termName: Option<string>, sessionName: Option<string>, termLabel: Option<string>,
                                          end: EndDate, now: int, endText: string)
    ensures BaseMessage(DisplayName(termName, sessionName, TermLabel(termLabel)))
      <= Confirm(termName, sessionName, termLabel, end, now, endText).message
    ensures var m := Confirm(termName, sessionName, termLabel, end, now, endText).message;
      var s := StandardMessage(TermLabel(termLabel));
      |s| <= |m| && m[|m| - |s|..] == s
  {
    var lbl := TermLabel(termLabel);
    ThreeParts(BaseMessage(DisplayName(termName, sessionName, lbl)),
               EarlyWarning(IsEndingEarly(end, now), lbl, DaysRemaining(end, now), endText), StandardMessage(lbl));
  }

  lemma {:induction false} ThreeParts(b: string, w: string, s: string)
    ensures b <= b + w + s
    ensures |s| <= |b + w + s| && (b + w + s)[|b + w + s| - |s|..] == s
  {
    var m := b + w + s;
    assert m[..|b|] == b;
    assert m[|m| - |s|..] == s;
  }
}
