// The six-slot one-time-code collector of
// apps/web/src/components/auth/OtpVerification.tsx: digit-only entry, focus
// movement, auto-submit, paste-fill and the resend cooldown. A call of
// `onVerify(code)` is returned as `Some(code)`; the awaited `onResend()` is
// split into BeginResend and FinishResend(succeeded), and the one-second timer
// is an explicit Tick.

module OtpVerification {
  import opened Wrappers
  import opened Text

  const SlotCount: nat := 6
  const ResendCooldownSeconds: int := 60

  /** `/^\d$/`: exactly one ASCII digit. */
  predicate IsSingleDigit(v: string) { |v| == 1 && IsDigit(v[0]) }

  /** The values a slot can hold: empty or one digit. */
  predicate SlotsValid(slots: seq<string>) {
    forall i :: 0 <= i < |slots| ==> slots[i] == "" || IsSingleDigit(slots[i])
  }

  predicate AllFilled(slots: seq<string>) { forall i :: 0 <= i < |slots| ==> slots[i] != "" }

  /** `otp.join('')`. */
  function Code(slots: seq<string>): string { Join(slots, "") }

  /** `code.split('')`: one slot per character. */
  function SplitCode(code: string): (slots: seq<string>)
    ensures |slots| == |code|
    ensures forall i :: 0 <= i < |code| ==> slots[i] == [code[i]]
  {
    seq(|code|, i requires 0 <= i < |code| => [code[i]])
  }

  function EmptySlots(): (slots: seq<string>)
    ensures |slots| == SlotCount && SlotsValid(slots) && !AllFilled(slots)
  {
    var slots := ["", "", "", "", "", ""];
    assert slots[0] == "";
    slots
  }

  lemma {:induction false} AllDigitsConcat(a: string, b: string)
    requires AllDigits(a) && AllDigits(b)
    ensures AllDigits(a + b)
  {
    forall i | 0 <= i < |a + b| ensures IsDigit((a + b)[i]) {
      if i >= |a| { assert (a + b)[i] == b[i - |a|]; }
    }
  }

  /** Joining valid slots gives digits only, one per filled slot, so the code
      is as long as the slot list exactly when every slot is filled. */
  lemma {:induction false} CodeOfSlots(slots: seq<string>)
    requires SlotsValid(slots)
    ensures |Code(slots)| <= |slots| && AllDigits(Code(slots))
    ensures |Code(slots)| == |slots| <==> AllFilled(slots)
  {
    if |slots| == 1 {
      assert Code(slots) == slots[0];
    } else if |slots| > 1 {
      var rest := slots[1..];
      assert SlotsValid(rest) by {
        forall i | 0 <= i < |rest| ensures rest[i] == "" || IsSingleDigit(rest[i]) {
          assert rest[i] == slots[i + 1];
        }
      }
      CodeOfSlots(rest);
      assert Code(slots) == slots[0] + Code(rest);
      assert AllDigits(slots[0]);
      AllDigitsConcat(slots[0], Code(rest));
      assert AllFilled(slots) <==> slots[0] != "" && AllFilled(rest) by {
        if slots[0] != "" && AllFilled(rest) {
          forall i | 0 <= i < |slots| ensures slots[i] != "" {
            if i > 0 { assert slots[i] == rest[i - 1]; }
          }
        }
        if AllFilled(slots) {
          forall i | 0 <= i < |rest| ensures rest[i] != "" {
            assert rest[i] == slots[i + 1];
          }
        }
      }
    }
  }

  /** Splitting a code into slots and joining them back gives the code. */
  lemma {:induction false} CodeOfSplit(code: string)
    ensures Code(SplitCode(code)) == code
  {
    if |code| > 1 {
      CodeOfSplit(code[1..]);
      assert SplitCode(code)[1..] == SplitCode(code[1..]);
    }
  }

  /** `text.replace(/\D/g, '')`. */
  function DigitsOf(text: string): (r: string)
    ensures AllDigits(r) && |r| <= |text|
    ensures forall c :: c in r <==> c in text && IsDigit(c)
  {
    if text == [] then []
    else if IsDigit(text[0]) then [text[0]] + DigitsOf(text[1..])
    else DigitsOf(text[1..])
  }

  lemma {:induction false} DigitsOfConcat(a: string, b: string)
    ensures DigitsOf(a + b) == DigitsOf(a) + DigitsOf(b)
  {
    if a != [] {
      var h := if IsDigit(a[0]) then [a[0]] else [];
      assert (a + b)[0] == a[0] && (a + b)[1..] == a[1..] + b;
      assert DigitsOf(a + b) == h + DigitsOf(a[1..] + b);
      DigitsOfConcat(a[1..], b);
      assert DigitsOf(a) == h + DigitsOf(a[1..]);
    } else {
      assert a + b == b;
    }
  }

  lemma {:induction false} DigitsOfDigits(d: string)
    requires AllDigits(d)
    ensures DigitsOf(d) == d
  {
    if d != [] {
      DigitsOfDigits(d[1..]);
    }
  }

  /** `replace(/\D/g, '').slice(0, 6)` when that gives six digits, else nothing. */
  function PastedCode(text: string): (p: Option<string>)
    ensures p.Some? <==> |DigitsOf(text)| >= SlotCount
    ensures p.Some? ==> |p.value| == SlotCount && AllDigits(p.value)
    ensures p.Some? ==> DigitsOf(text) == p.value + DigitsOf(text)[SlotCount..]
  {
    var d := DigitsOf(text);
    if |d| >= SlotCount then Some(d[..SlotCount]) else None
  }

  /** Separators between the digits do not change what a paste delivers. */
  lemma {:induction false} PasteIgnoresSeparators(x: string, sep: string, y: string)
    requires forall i :: 0 <= i < |sep| ==> !IsDigit(sep[i])
    ensures PastedCode(x + sep + y) == PastedCode(x + y)
  {
    DigitsOfConcat(x + sep, y);
    DigitsOfConcat(x, sep);
    DigitsOfConcat(x, y);
    DigitsOfNone(sep);
    assert DigitsOf(x) + [] == DigitsOf(x);
  }

  lemma {:induction false} DigitsOfNone(s: string)
    requires forall i :: 0 <= i < |s| ==> !IsDigit(s[i])
    ensures DigitsOf(s) == []
  {
    if s != [] {
      DigitsOfNone(s[1..]);
    }
  }

  /** Six digits or more: the first six are pasted. */
  lemma {:induction false} PasteOfDigits(d: string)
    requires AllDigits(d) && |d| >= SlotCount
    ensures PastedCode(d) == Some(d[..SlotCount])
  {
    DigitsOfDigits(d);
  }

  /** `handleSubmit(code)`: the code given, or failing that the joined slots,
      is sent to `onVerify` only when it has exactly six characters. */
  function SubmitOutcome(code: Option<string>, slots: seq<string>): (sent: Option<string>)
    ensures sent.Some? ==> |sent.value| == SlotCount
    ensures Truthy(code) ==> (sent.Some? <==> |code.value| == SlotCount) && (sent.Some? ==> sent == code)
    ensures !Truthy(code) ==> (sent.Some? <==> |Code(slots)| == SlotCount) && (sent.Some? ==> sent.value == Code(slots))
  {
    var otpCode := OrElse(code, Code(slots));
    if |otpCode| == SlotCount then Some(otpCode) else None
  }

  /** Submitting the form (no code argument) verifies exactly when every slot
      is filled, and then sends the joined slots. */
  lemma {:induction false} FormSubmitSendsIffFilled(slots: seq<string>)
    requires |slots| == SlotCount && SlotsValid(slots)
    ensures SubmitOutcome(None, slots).Some? <==> AllFilled(slots)
    ensures SubmitOutcome(Some(""), slots) == SubmitOutcome(None, slots)
  {
    CodeOfSlots(slots);
  }

  /** The verify button: `otp.some(d => !d) || isLoading`. */
  predicate VerifyDisabled(slots: seq<string>, isLoading: bool) {
    (exists i :: 0 <= i < |slots| && slots[i] == "") || isLoading
  }

  /** The button is enabled exactly when submitting the form would verify. */
  lemma {:induction false} VerifyButtonMatchesSubmit(slots: seq<string>)
    requires |slots| == SlotCount && SlotsValid(slots)
    ensures !VerifyDisabled(slots, false) <==> SubmitOutcome(None, slots).Some?
  {
    FormSubmitSendsIffFilled(slots);
  }

  /** The resend link: `resendCooldown > 0 || isResending || isLoading`. */
  predicate ResendDisabled(cooldown: int, isResending: bool, isLoading: bool) {
    cooldown > 0 || isResending || isLoading
  }

  /** Outside a verification, the link is enabled exactly when `BeginResend` would start
      a resend, so a click on an enabled link is never ignored. */
  lemma {:induction false} ResendLinkMatchesGuard(cooldown: int, isResending: bool)
    ensures !ResendDisabled(cooldown, isResending, false) <==> cooldown <= 0 && !isResending
    ensures ResendDisabled(cooldown, isResending, true)
  {
  }

  class OtpCollector {
    const otp: array<string>
    var resendCooldown: int
    var isResending: bool
    /** The index of the input that holds the focus. */
    var focused: int

    ghost predicate Valid()
      reads this, otp
    {
      otp.Length == SlotCount && SlotsValid(otp[..]) && 0 <= focused < SlotCount && resendCooldown >= 0
    }

    /** Six empty slots, a 60-second cooldown, not resending, first input focused. */
    constructor ()
      ensures Valid() && fresh(otp)
      ensures otp[..] == EmptySlots() && resendCooldown == ResendCooldownSeconds
      ensures !isResending && focused == 0
    {
      otp := new string[SlotCount](_ => "");
      resendCooldown := ResendCooldownSeconds;
      isResending := false;
      focused := 0;
      new;
      assert otp[..] == EmptySlots();
    }

    /** `handleSubmit(code)`. */
    method Submit(code: Option<string>) returns (sent: Option<string>)
      requires Valid()
      ensures sent == SubmitOutcome(code, otp[..])
    {
      var otpCode := OrElse(code, Join(otp[..], ""));
      sent := if |otpCode| == SlotCount then Some(otpCode) else None;
    }

    /** `handleChange(index, value)`: a value that is neither empty nor one digit
        is ignored; otherwise slot `index` alone takes it, focus moves on after a
        digit, and a digit typed into the last slot submits once all are filled. */
    method Change(index: int, value: string) returns (sent: Option<string>)
      requires Valid() && 0 <= index < SlotCount
      modifies otp, this`focused
      ensures Valid()
      ensures value != "" && !IsSingleDigit(value) ==>
        otp[..] == old(otp[..]) && focused == old(focused) && sent == None
      ensures value == "" || IsSingleDigit(value) ==>
        otp[..] == old(otp[..])[index := value]
        && focused == (if value != "" && index < SlotCount - 1 then index + 1 else old(focused))
        && sent == (if value != "" && index == SlotCount - 1 && AllFilled(otp[..]) then Some(Code(otp[..])) else None)
      ensures sent.Some? ==> |sent.value| == SlotCount && AllDigits(sent.value)
    {
      if value != "" && !IsSingleDigit(value) {
        sent := None;
        return;
      }
      otp[index] := value;
      assert SlotsValid(otp[..]);
      if value != "" && index < SlotCount - 1 {
        focused := index + 1;
      }
      sent := None;
      if value != "" && index == SlotCount - 1 && AllFilled(otp[..]) {
        CodeOfSlots(otp[..]);
        sent := Submit(Some(Code(otp[..])));
      }
    }

    /** Writes a six-digit code into the slots, one digit each (the `forEach`). */
    method Fill(code: string)
      requires Valid() && |code| == SlotCount && AllDigits(code)
      modifies otp
      ensures Valid() && otp[..] == SplitCode(code)
    {
      var i := 0;
      while i < |code|
        invariant 0 <= i <= |code|
        invariant forall k :: 0 <= k < i ==> otp[k] == [code[k]]
        invariant forall k :: i <= k < otp.Length ==> otp[k] == old(otp[k])
      {
        otp[i] := [code[i]];
        i := i + 1;
      }
      assert otp[..] == SplitCode(code);
    }

    /** `handlePaste` (and the clipboard branch of `handleKeyDown`): six digits
        from the text fill every slot and are submitted; fewer change nothing. */
    method Paste(text: string) returns (sent: Option<string>)
      requires Valid()
      modifies otp
      ensures Valid()
      ensures PastedCode(text).None? ==> otp[..] == old(otp[..]) && sent == None
      ensures PastedCode(text).Some? ==>
        otp[..] == SplitCode(PastedCode(text).value) && sent == PastedCode(text)
    {
      var p := PastedCode(text);
      if p.None? {
        sent := None;
        return;
      }
      Fill(p.value);
      CodeOfSplit(p.value);
      sent := Submit(Some(Code(otp[..])));
    }

    /** `handleKeyDown(index, e)`: Backspace on an empty slot moves the focus
        back; Ctrl or Cmd with 'v' pastes the clipboard text. */
    method KeyDown(index: int, key: string, ctrlOrMeta: bool, clipboard: string) returns (sent: Option<string>)
      requires Valid() && 0 <= index < SlotCount
      modifies otp, this`focused
      ensures Valid()
      ensures focused == (if key == "Backspace" && old(otp[index]) == "" && index > 0 then index - 1 else old(focused))
      ensures !(key == "v" && ctrlOrMeta) ==> otp[..] == old(otp[..]) && sent == None
      ensures key == "v" && ctrlOrMeta && PastedCode(clipboard).None? ==> otp[..] == old(otp[..]) && sent == None
      ensures key == "v" && ctrlOrMeta && PastedCode(clipboard).Some? ==>
        otp[..] == SplitCode(PastedCode(clipboard).value) && sent == PastedCode(clipboard)
    {
      if key == "Backspace" && otp[index] == "" && index > 0 {
        focused := index - 1;
      }
      sent := None;
      if key == "v" && ctrlOrMeta {
        sent := Paste(clipboard);
      }
    }

    /** The first half of `handleResend`: refused while cooling down or already
        resending; otherwise marks the resend as in flight. */
    method BeginResend() returns (started: bool)
      requires Valid()
      modifies this`isResending
      ensures Valid()
      ensures started <==> old(resendCooldown) <= 0 && !old(isResending)
      ensures isResending == (started || old(isResending))
    {
      if resendCooldown > 0 || isResending {
        started := false;
        return;
      }
      isResending := true;
      started := true;
    }

    /** The rest of `handleResend`, once `onResend()` settles: success restarts
        the cooldown, clears every slot and focuses the first; failure keeps the
        slots and the cooldown. Either way the in-flight flag is cleared. */
    method FinishResend(succeeded: bool)
      requires Valid() && isResending
      modifies otp, this`resendCooldown, this`isResending, this`focused
      ensures Valid() && !isResending
      ensures succeeded ==> resendCooldown == ResendCooldownSeconds && otp[..] == EmptySlots() && focused == 0
      ensures !succeeded ==>
        resendCooldown == old(resendCooldown) && otp[..] == old(otp[..]) && focused == old(focused)
    {
      if succeeded {
        for i := 0 to SlotCount
          invariant forall k :: 0 <= k < i ==> otp[k] == ""
          invariant forall k :: i <= k < SlotCount ==> otp[k] == old(otp[k])
        {
          otp[i] := "";
        }
        assert otp[..] == EmptySlots();
        resendCooldown := ResendCooldownSeconds;
        focused := 0;
      }
      isResending := false;
    }

    /** One second of the countdown: decrements only while positive. */
    method Tick()
      requires Valid()
      modifies this`resendCooldown
      ensures Valid()
      ensures old(resendCooldown) > 0 ==> resendCooldown == old(resendCooldown) - 1
      ensures old(resendCooldown) == 0 ==> resendCooldown == 0
    {
      if resendCooldown > 0 {
        resendCooldown := resendCooldown - 1;
      }
    }
  }
}
