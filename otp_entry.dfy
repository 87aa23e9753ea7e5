/**
 * The email verification form: six one-digit slots edited by keystrokes and
 * by paste, the slot that has focus, the submit gate and the resend
 * countdown.
 */
module OtpEntry {
  import opened Common
  import AuthStore

  const CodeLength: nat := 6
  /** Seconds before another code can be requested. */
  const ResendCooldown: nat := 60

  /** `\d`: an ASCII decimal digit. */
  predicate IsDigit(c: char) { '0' <= c <= '9' }

  /** `/^\d*$/` */
  predicate AllDigits(s: string) { forall i :: 0 <= i < |s| ==> IsDigit(s[i]) }

  /** What a slot may hold: nothing, or one digit. */
  predicate SlotValue(s: string) { s == "" || (|s| == 1 && IsDigit(s[0])) }

  predicate SlotsValid(slots: seq<string>) {
    |slots| == CodeLength && forall i :: 0 <= i < |slots| ==> SlotValue(slots[i])
  }

  // ---------------------------------------------------------------------------
  // Paste

  /** `value.slice(0, 6)` */
  function Pasted(value: string): (p: string)
    ensures |p| <= CodeLength && |p| <= |value| && p == value[..|p|]
    ensures |value| <= CodeLength ==> p == value
  {
    if |value| < CodeLength then value else value[..CodeLength]
  }

  /** Pasted character `i` goes to slot `index + i` when that slot exists and
      the character is a digit; every other slot keeps its value. */
  function PasteInto(otp: seq<string>, index: nat, value: string): (r: seq<string>)
    requires |otp| == CodeLength
    ensures |r| == CodeLength
  {
    var p := Pasted(value);
    seq(CodeLength, j requires 0 <= j < CodeLength =>
      if index <= j < index + |p| && IsDigit(p[j - index]) then [p[j - index]] else otp[j])
  }

  /** Paste keeps the slots before `index` and after the pasted text, skips
      non-digits (their offset still counts) and keeps every slot valid. */
  lemma PasteKeepsSlotsValid(otp: seq<string>, index: nat, value: string)
    requires SlotsValid(otp)
    ensures SlotsValid(PasteInto(otp, index, value))
    ensures forall j :: 0 <= j < CodeLength && (j < index || j >= index + |Pasted(value)|) ==>
      PasteInto(otp, index, value)[j] == otp[j]
    ensures forall i :: 0 <= i < |Pasted(value)| && index + i < CodeLength ==>
      PasteInto(otp, index, value)[index + i] == (if IsDigit(value[i]) then [value[i]] else otp[index + i])
  {
  }

  /** The slots once the first `i` characters of `p` have been pasted from `index` on. */
  ghost function PastedUpTo(otp: seq<string>, index: nat, p: string, i: nat): seq<string>
    requires |otp| == CodeLength && i <= |p|
  {
    seq(CodeLength, j requires 0 <= j < CodeLength =>
      if index <= j < index + i && IsDigit(p[j - index]) then [p[j - index]] else otp[j])
  }

  lemma PasteStep(otp: seq<string>, index: nat, p: string, i: nat)
    requires |otp| == CodeLength && i < |p|
    ensures index + i < CodeLength && IsDigit(p[i]) ==>
      PastedUpTo(otp, index, p, i + 1) == PastedUpTo(otp, index, p, i)[index + i := [p[i]]]
    ensures !(index + i < CodeLength && IsDigit(p[i])) ==>
      PastedUpTo(otp, index, p, i + 1) == PastedUpTo(otp, index, p, i)
  {
  }

  /** `Math.min(index + pastedValue.length, 5)` */
  function PasteFocus(index: nat, value: string): (f: nat)
    ensures f < CodeLength
    ensures f <= index + |Pasted(value)|
    ensures f == index + |Pasted(value)| || f == CodeLength - 1
  {
    if index + |Pasted(value)| < CodeLength - 1 then index + |Pasted(value)| else CodeLength - 1
  }

  // ---------------------------------------------------------------------------
  // The code

  /** `otp.join("")` */
  function Join(slots: seq<string>): string {
    if slots == [] then "" else slots[0] + Join(slots[1..])
  }

  function FilledCount(slots: seq<string>): (n: nat)
    ensures n <= |slots|
    ensures n == |slots| <==> forall i :: 0 <= i < |slots| ==> slots[i] != ""
  {
    if slots == [] then 0
    else
      var rest := FilledCount(slots[1..]);
      assert forall i :: 1 <= i < |slots| ==> slots[i] == slots[1..][i - 1];
      (if slots[0] != "" then 1 else 0) + rest
  }

  /** With valid slots the joined code is all digits and as long as the
      number of filled slots. */
  lemma {:induction false} JoinCountsFilled(slots: seq<string>)
    requires forall i :: 0 <= i < |slots| ==> SlotValue(slots[i])
    ensures |Join(slots)| == FilledCount(slots)
    ensures AllDigits(Join(slots))
  {
    if slots != [] {
      JoinCountsFilled(slots[1..]);
      var r := Join(slots[1..]);
      assert forall i :: 0 <= i < |slots[0] + r| ==> (slots[0] + r)[i] == if i < |slots[0]| then slots[0][i] else r[i - |slots[0]|];
    }
  }

  /** The submit gate `otp.join("").length === 6` holds exactly when every slot is filled. */
  lemma CodeCompleteIffFilled(slots: seq<string>)
    requires SlotsValid(slots)
    ensures |Join(slots)| == CodeLength <==> forall i :: 0 <= i < CodeLength ==> slots[i] != ""
  {
    JoinCountsFilled(slots);
  }

  // ---------------------------------------------------------------------------
  // The form

  class OtpForm {
    const slots: array<string>
    var focus: Option<nat>
    var countdown: nat
    var isLoading: bool
    var isResending: bool

    ghost predicate Valid()
      reads this, slots
    {
      SlotsValid(slots[..]) && countdown <= ResendCooldown
    }

    /** Six empty slots, nothing focused, no countdown. */
    constructor()
      ensures Valid() && fresh(slots)
      ensures slots[..] == ["", "", "", "", "", ""]
      ensures focus == None && countdown == 0 && !isLoading && !isResending
    {
      slots := new string[CodeLength](_ => "");
      focus, countdown, isLoading, isResending := None, 0, false, false;
      new;
      assert slots[..] == ["", "", "", "", "", ""];
    }

    /** The paste branch of `handleOtpChange`: the first six characters
        fill the slots from `index` on, digits only, and focus follows. */
    method Paste(index: nat, value: string)
      requires Valid() && index < CodeLength
      modifies slots, this`focus
      ensures Valid()
      ensures slots[..] == PasteInto(old(slots[..]), index, value) && focus == Some(PasteFocus(index, value))
    {
      var pastedValue := if |value| < CodeLength then value else value[..CodeLength];
      ghost var before := slots[..];
      assert pastedValue == Pasted(value);
      assert slots[..] == PastedUpTo(before, index, pastedValue, 0);
      for i := 0 to |pastedValue|
        invariant slots[..] == PastedUpTo(before, index, pastedValue, i)
      {
        PasteStep(before, index, pastedValue, i);
        if i + index < CodeLength && IsDigit(pastedValue[i]) {
          slots[i + index] := [pastedValue[i]];
        }
      }
      assert slots[..] == PasteInto(before, index, value);
      PasteKeepsSlotsValid(before, index, value);
      focus := Some(if index + |pastedValue| < CodeLength - 1 then index + |pastedValue| else CodeLength - 1);
    }

    /** `handleOtpChange(index, value)`: longer values are pastes; a single
        edit is taken only when it is empty or a digit. */
    method Change(index: nat, value: string)
      requires Valid() && index < CodeLength
      modifies slots, this`focus
      ensures Valid()
      ensures |value| > 1 ==> slots[..] == PasteInto(old(slots[..]), index, value) && focus == Some(PasteFocus(index, value))
      ensures |value| <= 1 && !AllDigits(value) ==> slots[..] == old(slots[..]) && focus == old(focus)
      ensures |value| <= 1 && AllDigits(value) ==> slots[..] == old(slots[..])[index := value]
      ensures |value| <= 1 && AllDigits(value) ==>
        focus == (if value != "" && index < CodeLength - 1 then Some(index + 1) else old(focus))
    {
      if |value| > 1 {
        Paste(index, value);
        return;
      }
      if !(forall i :: 0 <= i < |value| ==> IsDigit(value[i])) {
        return;
      }
      slots[index] := value;
      if value != "" && index < CodeLength - 1 {
        focus := Some(index + 1);
      }
    }

    /** Backspace on an empty slot moves focus to the slot before it. */
    method KeyDown(index: nat, key: string)
      requires Valid() && index < CodeLength
      modifies this`focus
      ensures focus == if key == "Backspace" && slots[index] == "" && index > 0 then Some(index - 1) else old(focus)
    {
      if key == "Backspace" && slots[index] == "" && index > 0 {
        focus := Some(index - 1);
      }
    }

    predicate SubmitDisabled()
      reads this, slots
    {
      isLoading || |Join(slots[..])| != CodeLength
    }

    /** The code is sent only when it has six digits. */
    method BeginSubmit() returns (code: Option<string>)
      requires Valid()
      modifies this`isLoading
      ensures |Join(slots[..])| == CodeLength ==> code == Some(Join(slots[..])) && isLoading
      ensures |Join(slots[..])| != CodeLength ==> code == None && isLoading == old(isLoading)
      ensures code.Some? ==> AllDigits(code.value) && forall i :: 0 <= i < CodeLength ==> slots[i] != ""
      ensures !old(SubmitDisabled()) ==> code.Some?
    {
      var otpString := Join(slots[..]);
      if |otpString| != CodeLength {
        return None;
      }
      JoinCountsFilled(slots[..]);
      CodeCompleteIffFilled(slots[..]);
      isLoading := true;
      code := Some(otpString);
    }

    /** A verified code stores both tokens and signs the user in; a rejected
        one empties all six slots and focuses the first. */
    method FinishSubmit(response: Result<AuthStore.AuthResponse>, auth: AuthStore.Session)
      requires Valid()
      modifies slots, this`isLoading, this`focus, auth
      ensures Valid() && !isLoading && countdown == old(countdown) && isResending == old(isResending)
      ensures response.Ok? ==> slots[..] == old(slots[..]) && focus == old(focus)
      ensures response.Ok? ==> auth.storage == AuthStore.SignedIn(old(auth.storage), response.value.accessToken, response.value.refreshToken)
      ensures response.Ok? ==> auth.user == Some(response.value.user) && auth.isAuthenticated && !auth.isLoading
      ensures response.Err? ==> slots[..] == ["", "", "", "", "", ""] && focus == Some(0) && unchanged(auth)
    {
      match response {
        case Ok(r) =>
          auth.storage := auth.storage["accessToken" := r.accessToken];
          auth.storage := auth.storage["refreshToken" := r.refreshToken];
          auth.SetAuth(r.user, r.accessToken);
          assert auth.storage == AuthStore.SignedIn(old(auth.storage), r.accessToken, r.refreshToken);
        case Err(_) =>
          forall j | 0 <= j < CodeLength {
            slots[j] := "";
          }
          focus := Some(0);
          assert slots[..] == ["", "", "", "", "", ""];
      }
      isLoading := false;
    }

    predicate ResendDisabled()
      reads this
    {
      countdown > 0 || isResending
    }

    /** Nothing happens while the countdown runs. */
    method BeginResend() returns (sent: bool)
      requires Valid()
      modifies this`isResending
      ensures sent <==> old(countdown) == 0
      ensures sent ==> isResending
      ensures !sent ==> isResending == old(isResending)
      ensures !old(ResendDisabled()) ==> sent
    {
      if countdown > 0 {
        return false;
      }
      isResending := true;
      sent := true;
    }

    /** A sent code starts the 60-second countdown. */
    method FinishResend(ok: bool)
      requires Valid()
      modifies this`isResending, this`countdown
      ensures Valid() && !isResending
      ensures countdown == if ok then ResendCooldown else old(countdown)
    {
      if ok {
        countdown := ResendCooldown;
      }
      isResending := false;
    }

    /** One second of the countdown, which stops at zero. */
    method Tick()
      requires Valid()
      modifies this`countdown
      ensures Valid()
      ensures countdown == if old(countdown) > 0 then old(countdown) - 1 else 0
    {
      if countdown > 0 {
        countdown := countdown - 1;
      }
    }
  }
}
