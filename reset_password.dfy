/**
 * The password reset form: the length and composition rules for the new
 * password, the confirmation check, the guards before a reset request, and
 * the clearing of one field's error when that field is edited.
 */
module ResetPassword {
  import opened Common

  const MinLength: nat := 8
  const TooShort := "Password must be at least 8 characters"
  const WeakComposition := "Password must contain uppercase, lowercase, and number"
  const Mismatch := "Passwords do not match"

  /** The errors shown under the two fields; absent means none. */
  datatype FormErrors = FormErrors(password: Option<string>, confirmPassword: Option<string>)

  const NoErrors := FormErrors(None, None)

  datatype Form = Form(password: string, confirmPassword: string, errors: FormErrors)

  // ---------------------------------------------------------------------------
  // The composition rule

  datatype CharClass = LowerCase | UpperCase | Digit

  predicate InClass(c: char, k: CharClass) {
    match k
    case LowerCase => 'a' <= c <= 'z'
    case UpperCase => 'A' <= c <= 'Z'
    case Digit => '0' <= c <= '9'
  }

  /** The characters `.` does not match. */
  predicate IsLineTerminator(c: char) {
    c == '\n' || c == '\r' || c == '\U{2028}' || c == '\U{2029}'
  }

  /** `.*` can run from `p` to `i`: no line terminator in between. */
  predicate Reachable(s: string, p: int, i: int) {
    0 <= p <= i < |s| && forall k :: p <= k < i ==> !IsLineTerminator(s[k])
  }

  /** The lookahead `(?=.*[class])` succeeds at position `p`. */
  predicate LookaheadAt(s: string, p: int, k: CharClass) {
    exists i :: p <= i < |s| && Reachable(s, p, i) && InClass(s[i], k)
  }

  /** `/(?=.*[a-z])(?=.*[A-Z])(?=.*\d)/.test(s)`: at some position all three
      lookaheads succeed. */
  predicate CompositionRule(s: string) {
    exists p :: 0 <= p <= |s| && LookaheadAt(s, p, LowerCase) && LookaheadAt(s, p, UpperCase) && LookaheadAt(s, p, Digit)
  }

  predicate Has(s: string, k: CharClass) {
    exists i :: 0 <= i < |s| && InClass(s[i], k)
  }

  predicate SingleLine(s: string) {
    forall i :: 0 <= i < |s| ==> !IsLineTerminator(s[i])
  }

  /** A password passing the rule has a lower-case letter, an upper-case
      letter and a digit; on a single line the converse holds too. */
  lemma CompositionMeansAllClasses(s: string)
    ensures CompositionRule(s) ==> Has(s, LowerCase) && Has(s, UpperCase) && Has(s, Digit)
    ensures SingleLine(s) ==> (CompositionRule(s) <==> Has(s, LowerCase) && Has(s, UpperCase) && Has(s, Digit))
  {
    if SingleLine(s) && Has(s, LowerCase) && Has(s, UpperCase) && Has(s, Digit) {
      forall k: CharClass | Has(s, k) ensures LookaheadAt(s, 0, k) {
        var i :| 0 <= i < |s| && InClass(s[i], k);
        assert Reachable(s, 0, i);
      }
      assert LookaheadAt(s, 0, LowerCase) && LookaheadAt(s, 0, UpperCase) && LookaheadAt(s, 0, Digit);
    }
  }

  /** On several lines the three classes must share one line: "aB\n1" has
      all three classes but fails the rule. */
  lemma ClassesOnSeparateLines()
    ensures Has("aB\n1", LowerCase) && Has("aB\n1", UpperCase) && Has("aB\n1", Digit)
    ensures !CompositionRule("aB\n1")
  {
    var s := "aB\n1";
    assert InClass(s[0], LowerCase) && InClass(s[1], UpperCase) && InClass(s[3], Digit);
    forall p | 0 <= p <= |s| ensures !(LookaheadAt(s, p, LowerCase) && LookaheadAt(s, p, Digit)) {
      if p == 0 {
        assert IsLineTerminator(s[2]);
        forall j | p <= j < |s| && Reachable(s, p, j) ensures !InClass(s[j], Digit) {
          assert j < 3;
        }
      } else {
        forall i | p <= i < |s| ensures !InClass(s[i], LowerCase) {
        }
      }
    }
  }

  // ---------------------------------------------------------------------------
  // Validation and submission

  /** `validateForm`: the length error takes precedence over the composition
      error; the confirmation is checked independently. */
  function Validate(password: string, confirmPassword: string): (e: FormErrors)
    ensures |password| < MinLength ==> e.password == Some(TooShort)
    ensures |password| >= MinLength && !CompositionRule(password) ==> e.password == Some(WeakComposition)
    ensures |password| >= MinLength && CompositionRule(password) ==> e.password == None
    ensures e.confirmPassword == (if password != confirmPassword then Some(Mismatch) else None)
  {
    FormErrors(
      if |password| < MinLength then Some(TooShort)
      else if !CompositionRule(password) then Some(WeakComposition)
      else None,
      if password != confirmPassword then Some(Mismatch) else None)
  }

  /** The form is valid exactly when the password is long enough, passes the
      composition rule and matches its confirmation. */
  lemma ValidMeans(password: string, confirmPassword: string)
    ensures Validate(password, confirmPassword) == NoErrors <==>
      |password| >= MinLength && CompositionRule(password) && password == confirmPassword
    ensures Validate(password, confirmPassword) == NoErrors ==>
      Has(password, LowerCase) && Has(password, UpperCase) && Has(password, Digit)
  {
    CompositionMeansAllClasses(password);
  }

  datatype Outcome = Invalid | MissingToken | ResetRequest(token: string, password: string)

  /** `handleSubmit`: the form's new errors and what happens next. An
      invalid form or an empty token stops before any request. */
  function Submit(f: Form, token: string): (r: (Form, Outcome))
    ensures r.0 == f.(errors := Validate(f.password, f.confirmPassword))
    ensures r.1.ResetRequest? <==> Validate(f.password, f.confirmPassword) == NoErrors && token != ""
    ensures r.1 == MissingToken <==> Validate(f.password, f.confirmPassword) == NoErrors && token == ""
    ensures r.1.ResetRequest? ==> r.1.token == token && r.1.password == f.password
  {
    var errors := Validate(f.password, f.confirmPassword);
    var f' := f.(errors := errors);
    if errors != NoErrors then (f', Invalid)
    else if token == "" then (f', MissingToken)
    else (f', ResetRequest(token, f.password))
  }

  /** A request is only ever made with a password meeting every rule. */
  lemma RequestOnlyWhenValid(f: Form, token: string)
    ensures Submit(f, token).1.ResetRequest? ==>
      token != "" && |f.password| >= MinLength && f.password == f.confirmPassword
      && Has(f.password, LowerCase) && Has(f.password, UpperCase) && Has(f.password, Digit)
  {
    ValidMeans(f.password, f.confirmPassword);
  }

  // ---------------------------------------------------------------------------
  // Editing

  function EditPassword(f: Form, value: string): (r: Form)
    ensures r.password == value && r.confirmPassword == f.confirmPassword
    ensures r.errors == f.errors.(password := None)
  {
    Form(value, f.confirmPassword, if f.errors.password.Some? then f.errors.(password := None) else f.errors)
  }

  function EditConfirmPassword(f: Form, value: string): (r: Form)
    ensures r.password == f.password && r.confirmPassword == value
    ensures r.errors == f.errors.(confirmPassword := None)
  {
    Form(f.password, value, if f.errors.confirmPassword.Some? then f.errors.(confirmPassword := None) else f.errors)
  }
}
