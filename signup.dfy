/** `SignupComponent`: the declared field rules, the password-match validator, the
    `isSubmitting` guard of `onSubmit`, the mapping of registration errors to messages and
    the template helpers `isFieldInvalid` and `getFieldError`. Angular's form machinery is
    reduced to one record per control (value, error keys, touched); the `email` validator's
    verdict is an input, every other error key is computed from the declared rules. */
module Signup {
  import opened Wrappers
  import opened Text
  import opened Toastr
  import opened Routes

  const FieldNames := ["firstName", "lastName", "email", "phoneNumber", "password", "confirmPassword"]

  /** The error keys a control can carry; `minlength` and `maxlength` hold `requiredLength`. */
  datatype FieldErrors = FieldErrors(required: bool, email: bool, minlength: Option<nat>, maxlength: Option<nat>, pattern: bool) {
    /** `control.errors` is not `null`. */
    predicate Any() {
      required || email || minlength.Some? || maxlength.Some? || pattern
    }
  }

  const NoErrors := FieldErrors(false, false, None, None, false)

  datatype Control = Control(value: string, errors: FieldErrors, touched: bool)

  type Controls = map<string, Control>

  /** The phone rule `^\+?[1-9]\d{1,14}$`: an optional plus sign, a digit from 1 to 9, then
      one to fourteen digits, so two to fifteen digits in all. */
  predicate PhonePattern(s: string)
    ensures PhonePattern(s) ==> 2 <= |s| <= 16 && s[|s| - 1] != '+'
    ensures PhonePattern(s) ==> forall i :: 0 < i < |s| ==> IsDigit(s[i])
  {
    var digits := if |s| > 0 && s[0] == '+' then s[1..] else s;
    2 <= |digits| <= 15 && '1' <= digits[0] <= '9' && AllDigits(digits[1..])
  }

  /** The characters `.` does not match in a JavaScript regular expression without the `s` flag. */
  predicate IsLineTerminator(c: char) {
    c == '\n' || c == '\r' || c == '\U{2028}' || c == '\U{2029}'
  }

  /** The characters `\w` matches. */
  predicate IsWordChar(c: char) {
    'A' <= c <= 'Z' || 'a' <= c <= 'z' || '0' <= c <= '9' || c == '_'
  }

  /** The password rule `^(?=.*[A-Z])(?=.*[a-z])(?=.*\d)(?=.*\W).*$`: no line terminator
      (`.*` must span the whole text), an upper-case letter, a lower-case letter, a digit and a
      character outside `\w`. */
  predicate PasswordPattern(s: string)
    ensures PasswordPattern(s) ==> |s| >= 4
  {
    && (forall i :: 0 <= i < |s| ==> !IsLineTerminator(s[i]))
    && (exists i :: 0 <= i < |s| && 'A' <= s[i] <= 'Z')
    && (exists i :: 0 <= i < |s| && 'a' <= s[i] <= 'z')
    && (exists i :: 0 <= i < |s| && IsDigit(s[i]))
    && (exists i :: 0 <= i < |s| && !IsWordChar(s[i]))
  }

  /** Numbers the phone rule accepts and rejects: the plus sign is optional, the first digit
      is not zero, and the digit count is two to fifteen. */
  lemma PhonePatternExamples()
    ensures PhonePattern("+14155552671") && PhonePattern("12") && PhonePattern("123456789012345")
    ensures !PhonePattern("") && !PhonePattern("+") && !PhonePattern("7") && !PhonePattern("+0123")
    ensures !PhonePattern("1234567890123456") && !PhonePattern("+1-415") && !PhonePattern("++14")
  {
    assert !IsDigit('-');
    assert "+1-415"[1..][1..][0] == '-';
  }

  /** Passwords the password rule accepts: one of each of the four classes is enough, and a
      space counts as a special character. */
  lemma PasswordPatternAccepts()
    ensures PasswordPattern("Passw0rd!") && PasswordPattern("aB3 ")
  {
    assert "Passw0rd!"[0] == 'P' && "Passw0rd!"[1] == 'a' && "Passw0rd!"[5] == '0' && !IsWordChar("Passw0rd!"[8]);
    assert "aB3 "[1] == 'B' && "aB3 "[0] == 'a' && IsDigit("aB3 "[2]) && !IsWordChar("aB3 "[3]);
  }

  /** Passwords the password rule rejects: a missing class, an underscore as the only
      non-alphanumeric character, or a line break anywhere. */
  lemma PasswordPatternRejects()
    ensures !PasswordPattern("pa0!") && !PasswordPattern("PA0!") && !PasswordPattern("Pa!!")
    ensures !PasswordPattern("Pa0_") && !PasswordPattern("Pa0!\n")
  {
    assert IsLineTerminator("Pa0!\n"[4]);
  }

  /** `Validators.minLength(n)`: an empty value is left to `required`. */
  function MinLengthError(value: string, n: nat): (e: Option<nat>)
    ensures value == "" ==> e.None?
    ensures value != "" && 2 * |value| < n ==> e == Some(n)
    ensures value != "" && |value| >= n ==> e.None?
    ensures e.None? || e == Some(n)
  {
    if value != "" && Utf16Length(value) < n then Some(n) else None
  }

  /** `Validators.maxLength(n)`. */
  function MaxLengthError(value: string, n: nat): (e: Option<nat>)
    ensures |value| > n ==> e == Some(n)
    ensures 2 * |value| <= n ==> e.None?
    ensures e.None? || e == Some(n)
  {
    if Utf16Length(value) > n then Some(n) else None
  }

  /** `Validators.pattern`: an empty value is left to `required`. */
  function PatternError(value: string, matches: bool): (e: bool)
    ensures value == "" ==> !e
    ensures matches ==> !e
  {
    value != "" && !matches
  }

  /** The errors the validators declared for field `name` put on `value`; `emailRejected` is
      the verdict of `Validators.email`. */
  function DeclaredErrors(name: string, value: string, emailRejected: bool): (e: FieldErrors)
    ensures name !in FieldNames ==> e == NoErrors
    ensures name in FieldNames ==> (e.required <==> value == "")
    ensures value == "" ==> e == NoErrors.(required := name in FieldNames)
    ensures e.email ==> name == "email" && emailRejected
    ensures e.pattern ==> name == "phoneNumber" || name == "password"
  {
    var required := value == "";
    if name == "firstName" || name == "lastName" then
      FieldErrors(required, false, MinLengthError(value, 1), MaxLengthError(value, 50), false)
    else if name == "email" then
      FieldErrors(required, emailRejected && value != "", None, None, false)
    else if name == "phoneNumber" then
      FieldErrors(required, false, None, None, PatternError(value, PhonePattern(value)))
    else if name == "password" then
      FieldErrors(required, false, MinLengthError(value, 8), MaxLengthError(value, 72), PatternError(value, PasswordPattern(value)))
    else if name == "confirmPassword" then
      FieldErrors(required, false, MinLengthError(value, 8), MaxLengthError(value, 72), false)
    else
      NoErrors
  }

  /** The six controls of the form, each carrying the errors its declared validators give. */
  predicate FollowsDeclaredRules(controls: Controls) {
    && (forall name :: name in FieldNames ==> name in controls)
    && (forall name :: name in controls ==> name in FieldNames)
    && (forall name :: name in controls ==> ControlFollowsRules(name, controls[name]))
  }

  /** A control's error keys are those its declared validators give its value. */
  predicate ControlFollowsRules(name: string, c: Control) {
    c.errors == DeclaredErrors(name, c.value, c.errors.email)
  }

  /** `passwordMatchValidator`: a mismatch iff both controls exist and their values differ. */
  function PasswordMatchValidator(controls: Controls): (mismatch: bool)
    ensures mismatch <==> "password" in controls && "confirmPassword" in controls
                          && controls["password"].value != controls["confirmPassword"].value
  {
    "password" in controls && "confirmPassword" in controls
    && controls["password"].value != controls["confirmPassword"].value
  }

  /** `signupForm.valid`: no control has errors and the form validator reports none. */
  predicate FormValid(controls: Controls)
    ensures FormValid(controls) && "password" in controls && "confirmPassword" in controls ==>
              controls["password"].value == controls["confirmPassword"].value
    ensures FormValid(controls) ==> forall name :: name in controls ==> !controls[name].errors.Any()
  {
    (forall name :: name in controls ==> !controls[name].errors.Any()) && !PasswordMatchValidator(controls)
  }

  predicate NameRule(s: string) {
    1 <= Utf16Length(s) <= 50
  }

  predicate PasswordRule(s: string) {
    8 <= Utf16Length(s) <= 72 && PasswordPattern(s)
  }

  /** A valid form holds names of 1 to 50 characters, a non-empty e-mail address, a phone
      number of the E.164 shape, a password of 8 to 72 characters with the four character
      classes, and a matching confirmation. */
  lemma ValidFormMeetsDeclaredRules(controls: Controls)
    requires FollowsDeclaredRules(controls) && FormValid(controls)
    ensures "firstName" in controls && NameRule(controls["firstName"].value)
    ensures "lastName" in controls && NameRule(controls["lastName"].value)
    ensures "email" in controls && controls["email"].value != ""
    ensures "phoneNumber" in controls && PhonePattern(controls["phoneNumber"].value)
    ensures "password" in controls && PasswordRule(controls["password"].value)
    ensures "confirmPassword" in controls && controls["confirmPassword"].value == controls["password"].value
  {
    assert "firstName" in FieldNames && "lastName" in FieldNames && "email" in FieldNames;
    assert "phoneNumber" in FieldNames && "password" in FieldNames && "confirmPassword" in FieldNames;
    var first, last, pass := controls["firstName"], controls["lastName"], controls["password"];
    assert !first.errors.Any() && !last.errors.Any() && !pass.errors.Any();
  }

  /** The rule the declared validators enforce on field `name`; the e-mail rule takes the
      `email` validator's verdict as it is recorded on the control. */
  predicate ValueMeetsRule(name: string, c: Control) {
    if name == "firstName" || name == "lastName" then NameRule(c.value)
    else if name == "email" then c.value != "" && !c.errors.email
    else if name == "phoneNumber" then PhonePattern(c.value)
    else if name == "password" then PasswordRule(c.value)
    else if name == "confirmPassword" then 8 <= Utf16Length(c.value) <= 72
    else true
  }

  /** A control following the declared rules has no error key iff its value meets its rule. */
  lemma ControlValidIffRuleMet(name: string, c: Control)
    requires ControlFollowsRules(name, c)
    ensures !c.errors.Any() <==> ValueMeetsRule(name, c)
  {
  }

  /** The form is valid iff every control's value meets its field's rule and the
      confirmation equals the password. */
  lemma FormValidIffRulesMet(controls: Controls)
    requires FollowsDeclaredRules(controls)
    ensures FormValid(controls) <==>
              (forall name :: name in controls ==> ValueMeetsRule(name, controls[name]))
              && !PasswordMatchValidator(controls)
  {
    forall name | name in controls
      ensures !controls[name].errors.Any() <==> ValueMeetsRule(name, controls[name])
    {
      ControlValidIffRuleMet(name, controls[name]);
    }
  }

  /** `isFieldInvalid`: invalid and touched; false for an unknown field. */
  predicate IsFieldInvalid(controls: Controls, name: string)
    ensures name !in controls ==> !IsFieldInvalid(controls, name)
    ensures IsFieldInvalid(controls, name) ==> !FormValid(controls)
  {
    name in controls && controls[name].errors.Any() && controls[name].touched
  }

  const EmailMessage := "Please enter a valid email address"
  const PhoneMessage := "Please enter a valid phone number"
  const PasswordMessage := "Password must contain at least one uppercase letter, one lowercase letter, one number, and one special character"
  const MismatchMessage := "Passwords do not match"

  /** The message for a touched control with errors, in the order required, email,
      minlength, maxlength, pattern; a pattern error has a message only on the phone number
      and the password. */
  function OwnErrorMessage(name: string, errors: FieldErrors): Option<string> {
    if errors.required then Some(name + " is required")
    else if errors.email then Some(EmailMessage)
    else if errors.minlength.Some? then Some(name + " must be at least " + NatToDecimal(errors.minlength.value) + " characters")
    else if errors.maxlength.Some? then Some(name + " must not exceed " + NatToDecimal(errors.maxlength.value) + " characters")
    else if errors.pattern && name == "phoneNumber" then Some(PhoneMessage)
    else if errors.pattern && name == "password" then Some(PasswordMessage)
    else None
  }

  /** `getFieldError`. A field's own errors are reported only once it is touched, the first
      applicable key winning; the mismatch is reported for `confirmPassword` only when its own
      errors gave no message; otherwise the result is empty. */
  function GetFieldError(controls: Controls, name: string): (message: string)
    ensures name in controls && controls[name].touched && controls[name].errors.required ==>
              message == name + " is required"
    ensures name in controls && controls[name].touched && !controls[name].errors.required && controls[name].errors.email ==>
              message == EmailMessage
    ensures name in controls && controls[name].touched && OwnErrorMessage(name, controls[name].errors).Some? ==>
              message == OwnErrorMessage(name, controls[name].errors).value
    ensures !(name in controls && controls[name].touched && OwnErrorMessage(name, controls[name].errors).Some?) ==>
              (name == "confirmPassword" && PasswordMatchValidator(controls) ==> message == MismatchMessage)
              && (!(name == "confirmPassword" && PasswordMatchValidator(controls)) ==> message == "")
  {
    var own := if name in controls && controls[name].errors.Any() && controls[name].touched
               then OwnErrorMessage(name, controls[name].errors) else None;
    if own.Some? then own.value
    else if name == "confirmPassword" && PasswordMatchValidator(controls) then MismatchMessage
    else ""
  }

  /** Whenever a field other than `confirmPassword` shows a message, `isFieldInvalid` holds
      for it; for `confirmPassword` a message is either its own or the mismatch. */
  lemma ShownErrorMeansInvalid(controls: Controls, name: string)
    ensures GetFieldError(controls, name) != "" && name != "confirmPassword" ==> IsFieldInvalid(controls, name)
    ensures GetFieldError(controls, name) != "" && name == "confirmPassword" ==>
              IsFieldInvalid(controls, name) || PasswordMatchValidator(controls)
  {
  }

  const DuplicateEmailMessage := "Email already exists. Please use a different email."
  const GenericFailureMessage := "Registration failed. Please try again."
  const SuccessToastShown := Toast(SuccessToast, "Registration successful! Please check your email to verify your account.", "Success", None)
  const ValidationWarning := Toast(WarningToast, "Please fill in all required fields correctly.", "Validation Error", None)

  /** The error handler of `onSubmit`: a 400 with a server message shows that message, a
      409 the duplicate-email message, anything else (a 400 without a message included) the
      generic one. */
  function RegistrationErrorToast(status: int, serverMessage: Option<string>): (t: Toast)
    ensures t.kind == ErrorToast
    ensures status == 400 && Truthy(serverMessage) ==> t == Toast(ErrorToast, serverMessage.value, "Registration Failed", None)
    ensures status == 409 ==> t == Toast(ErrorToast, DuplicateEmailMessage, "Registration Failed", None)
    ensures !(status == 400 && Truthy(serverMessage)) && status != 409 ==> t == Toast(ErrorToast, GenericFailureMessage, "Error", None)
  {
    if status == 400 && Truthy(serverMessage) then Toast(ErrorToast, serverMessage.value, "Registration Failed", None)
    else if status == 409 then Toast(ErrorToast, DuplicateEmailMessage, "Registration Failed", None)
    else Toast(ErrorToast, GenericFailureMessage, "Error", None)
  }

  /** `signupForm.value`: every control's value by name. */
  function FormValue(controls: Controls): map<string, string> {
    map name | name in controls :: controls[name].value
  }

  /** The form as the constructor builds it: six empty, untouched controls. */
  function InitialControls(): (controls: Controls)
    ensures FollowsDeclaredRules(controls)
    ensures !FormValid(controls)
  {
    var controls := map name | name in FieldNames :: Control("", DeclaredErrors(name, "", false), false);
    assert "firstName" in controls && controls["firstName"].errors.required;
    controls
  }

  datatype Effect = RegisterRequested(data: map<string, string>) | Toasted(toast: Toast) | Navigated(route: string)

  class SignupComponent {
    var controls: Controls
    var isSubmitting: bool
    var effects: seq<Effect>

    ghost predicate Valid()
      reads this
    {
      FollowsDeclaredRules(controls)
    }

    constructor ()
      ensures Valid() && controls == InitialControls()
      ensures !isSubmitting && effects == []
    {
      controls := InitialControls();
      isSubmitting := false;
      effects := [];
    }

    /** A value typed into a control: Angular re-runs its validators. */
    method InputValue(name: string, value: string, emailRejected: bool)
      requires Valid()
      modifies this`controls
      ensures Valid()
      ensures name in old(controls) ==>
        controls == old(controls)[name := old(controls)[name].(value := value, errors := DeclaredErrors(name, value, emailRejected))]
      ensures name !in old(controls) ==> controls == old(controls)
    {
      if name in controls {
        var errors := DeclaredErrors(name, value, emailRejected);
        assert errors == DeclaredErrors(name, value, errors.email);
        controls := controls[name := controls[name].(value := value, errors := errors)];
      }
    }

    /** `onSubmit`: a request only for a valid form while nothing is being submitted, with
        `isSubmitting` set first; otherwise every control is marked touched and a warning shown. */
    method OnSubmit()
      requires Valid()
      modifies this`controls, this`isSubmitting, this`effects
      ensures Valid()
      ensures old(FormValid(controls)) && !old(isSubmitting) ==>
        && isSubmitting
        && controls == old(controls)
        && effects == old(effects) + [RegisterRequested(FormValue(old(controls)))]
      ensures !(old(FormValid(controls)) && !old(isSubmitting)) ==>
        && isSubmitting == old(isSubmitting)
        && controls.Keys == old(controls).Keys
        && (forall name :: name in controls ==>
              controls[name] == old(controls)[name].(touched := true))
        && effects == old(effects) + [Toasted(ValidationWarning)]
    {
      if FormValid(controls) && !isSubmitting {
        isSubmitting := true;
        effects := effects + [RegisterRequested(FormValue(controls))];
      } else {
        MarkAllAsTouched();
        assert forall name :: name in controls ==> ControlFollowsRules(name, old(controls)[name]);
        effects := effects + [Toasted(ValidationWarning)];
      }
    }

    /** The loop of `onSubmit` over the form's controls, marking each touched; the keys of
        the form are the six declared names, in declaration order. */
    method MarkAllAsTouched()
      requires forall name :: name in controls ==> name in FieldNames
      modifies this`controls
      ensures controls.Keys == old(controls).Keys
      ensures forall name :: name in controls ==> controls[name] == old(controls)[name].(touched := true)
    {
      var i := 0;
      while i < |FieldNames|
        invariant 0 <= i <= |FieldNames|
        invariant controls.Keys == old(controls).Keys
        invariant forall name :: name in controls ==>
                    controls[name] == old(controls)[name].(touched := old(controls)[name].touched || name in FieldNames[..i])
      {
        var key := FieldNames[i];
        if key in controls {
          controls := controls[key := controls[key].(touched := true)];
        }
        i := i + 1;
      }
      assert FieldNames[..i] == FieldNames;
    }

    /** The request succeeded: a success toast, the navigation, then `complete` clears the flag. */
    method OnRegisterSuccess()
      modifies this`isSubmitting, this`effects
      ensures !isSubmitting
      ensures effects == old(effects) + [Toasted(SuccessToastShown), Navigated(SigninRoute)]
    {
      effects := effects + [Toasted(SuccessToastShown), Navigated(SigninRoute)];
      isSubmitting := false;
    }

    /** The request failed: an error toast; `complete` does not run, so `isSubmitting` keeps
        its value and every later `onSubmit` only shows the validation warning. */
    method OnRegisterError(status: int, serverMessage: Option<string>)
      modifies this`effects
      ensures effects == old(effects) + [Toasted(RegistrationErrorToast(status, serverMessage))]
    {
      effects := effects + [Toasted(RegistrationErrorToast(status, serverMessage))];
    }
  }
}
