/**
 * The sign-up form of src/pages/SignupPage.tsx: the password-strength score
 * and its two tier displays, the edit handler that recomputes the score,
 * and the submit handler's password-mismatch guard.
 */
module SignupPage {
  import opened Validation

  const FIRST_NAME := "firstName"
  const LAST_NAME := "lastName"
  const EMAIL := "email"
  const PASSWORD := "password"
  const CONFIRM_PASSWORD := "confirmPassword"

  const WEAK := "Weak"
  const FAIR := "Fair"
  const GOOD := "Good"
  const STRONG := "Strong"

  const RED := "bg-red-500"
  const ORANGE := "bg-orange-500"
  const YELLOW := "bg-yellow-500"
  const GREEN := "bg-green-500"

  /** How many of the first `n` flags are set. */
  function CountTrue(flags: seq<bool>, n: nat): (count: nat)
    requires n <= |flags|
    ensures count <= n
    ensures count == 0 <==> forall i | 0 <= i < n :: !flags[i]
    ensures count == n <==> forall i | 0 <= i < n :: flags[i]
  {
    if n == 0 then 0
    else if flags[n - 1] then CountTrue(flags, n - 1) + 1
    else CountTrue(flags, n - 1)
  }

  /** The five conditions the score counts, in the order they are tested. */
  function PasswordCriteria(password: string): (met: seq<bool>)
    ensures |met| == 5
    ensures forall i | 0 <= i < 5 :: met[i] == !PasswordFailures(password)[i]
  {
    [|password| >= 8, HasUppercase(password), HasLowercase(password), HasDigit(password), HasSpecial(password)]
  }

  /** `calculatePasswordStrength`: one point per condition met. */
  method CalculatePasswordStrength(password: string) returns (strength: nat)
    ensures strength == CountTrue(PasswordCriteria(password), 5)
    ensures strength <= 5
  {
    ghost var met := PasswordCriteria(password);
    strength := 0;
    if |password| >= 8 { strength := strength + 1; }
    assert strength == CountTrue(met, 1);
    if HasUppercase(password) { strength := strength + 1; }
    assert strength == CountTrue(met, 2);
    if HasLowercase(password) { strength := strength + 1; }
    assert strength == CountTrue(met, 3);
    if HasDigit(password) { strength := strength + 1; }
    assert strength == CountTrue(met, 4);
    if HasSpecial(password) { strength := strength + 1; }
  }

  /** Flags and their negations together count every position once. */
  lemma {:induction false} CountComplement(a: seq<bool>, b: seq<bool>, n: nat)
    requires n <= |a| == |b|
    requires forall i | 0 <= i < n :: a[i] == !b[i]
    ensures CountTrue(a, n) + CountTrue(b, n) == n
  {
    if n > 0 {
      CountComplement(a, b, n - 1);
    }
  }

  /** `Selected` picks one message per set flag. */
  lemma {:induction false} SelectedCount(flags: seq<bool>, messages: seq<string>, n: nat)
    requires n <= |flags| == |messages|
    ensures |Selected(flags, messages, n)| == CountTrue(flags, n)
  {
    if n > 0 {
      SelectedCount(flags, messages, n - 1);
    }
  }

  /** The score and the number of `validatePassword` messages add up to five: each condition either scores or is reported. */
  lemma StrengthPlusErrors(password: string)
    ensures CountTrue(PasswordCriteria(password), 5) + |ValidatePassword(password).errors| == 5
  {
    SelectedCount(PasswordFailures(password), PASSWORD_MESSAGES, 5);
    CountComplement(PasswordCriteria(password), PasswordFailures(password), 5);
  }

  /** A full score of five is exactly a password `validatePassword` accepts. */
  lemma StrengthFiveIffValid(password: string)
    ensures CountTrue(PasswordCriteria(password), 5) == 5 <==> ValidatePassword(password).isValid
  {
    StrengthPlusErrors(password);
  }

  /** The empty password meets none of the five conditions, so its score is 0. */
  lemma EmptyPasswordStrength()
    ensures CountTrue(PasswordCriteria(""), 5) == 0
  {
  }

  /** `getStrengthText`. */
  function StrengthText(strength: int): (text: string)
    ensures text in {WEAK, FAIR, GOOD, STRONG}
    ensures text == WEAK <==> strength <= 2
    ensures text == FAIR <==> strength == 3
    ensures text == GOOD <==> strength == 4
    ensures text == STRONG <==> strength >= 5
  {
    if strength <= 2 then WEAK
    else if strength <= 3 then FAIR
    else if strength <= 4 then GOOD
    else STRONG
  }

  /** `getStrengthColor`. */
  function StrengthColor(strength: int): (color: string)
    ensures color in {RED, ORANGE, YELLOW, GREEN}
    ensures color == RED <==> strength <= 2
    ensures color == ORANGE <==> strength == 3
    ensures color == YELLOW <==> strength == 4
    ensures color == GREEN <==> strength >= 5
  {
    if strength <= 2 then RED
    else if strength <= 3 then ORANGE
    else if strength <= 4 then YELLOW
    else GREEN
  }

  /** The label and the bar colour always name the same tier. */
  lemma TiersAgree(strength: int)
    ensures StrengthText(strength) == WEAK <==> StrengthColor(strength) == RED
    ensures StrengthText(strength) == FAIR <==> StrengthColor(strength) == ORANGE
    ensures StrengthText(strength) == GOOD <==> StrengthColor(strength) == YELLOW
    ensures StrengthText(strength) == STRONG <==> StrengthColor(strength) == GREEN
  {
  }

  /** A password `validatePassword` accepts is shown as "Strong" on a green bar. */
  lemma ValidPasswordIsStrong(password: string)
    requires ValidatePassword(password).isValid
    ensures StrengthText(CountTrue(PasswordCriteria(password), 5)) == STRONG
    ensures StrengthColor(CountTrue(PasswordCriteria(password), 5)) == GREEN
  {
    StrengthFiveIffValid(password);
  }

  /** The five fields, all empty. */
  function EmptySignup(): (form: map<string, string>)
    ensures form.Keys == {FIRST_NAME, LAST_NAME, EMAIL, PASSWORD, CONFIRM_PASSWORD}
    ensures forall k | k in form :: form[k] == ""
  {
    map[FIRST_NAME := "", LAST_NAME := "", EMAIL := "", PASSWORD := "", CONFIRM_PASSWORD := ""]
  }

  /** `disabled={isLoading || formData.password !== formData.confirmPassword}`. */
  function SubmitDisabled(isLoading: bool, password: string, confirmPassword: string): (disabled: bool)
    ensures !disabled <==> !isLoading && password == confirmPassword
  {
    isLoading || password != confirmPassword
  }

  /** The page's state: the form values, the loading flag and the strength score shown. */
  class SignupForm {
    var formData: map<string, string>
    var isLoading: bool
    var passwordStrength: nat

    /** Both password fields are present and the score is that of the current password. */
    predicate Valid()
      reads this
    {
      && PASSWORD in formData && CONFIRM_PASSWORD in formData
      && passwordStrength == CountTrue(PasswordCriteria(formData[PASSWORD]), 5)
    }

    constructor()
      ensures Valid()
      ensures formData == EmptySignup() && !isLoading && passwordStrength == 0
    {
      formData := EmptySignup();
      isLoading := false;
      passwordStrength := 0;
      EmptyPasswordStrength();
    }

    /** `handleChange`: store the value; the score is recomputed only when the password changes. */
    method HandleChange(name: string, value: string)
      requires Valid()
      modifies this
      ensures Valid()
      ensures formData == old(formData)[name := value]
      ensures name == PASSWORD ==> passwordStrength == CountTrue(PasswordCriteria(value), 5)
      ensures name != PASSWORD ==> passwordStrength == old(passwordStrength)
      ensures isLoading == old(isLoading)
    {
      formData := formData[name := value];
      if name == PASSWORD {
        passwordStrength := CalculatePasswordStrength(value);
      }
    }

    /**
     * `handleSubmit`: differing passwords raise an alert (`mismatch`) and
     * nothing else changes; otherwise loading starts.
     */
    method HandleSubmit() returns (mismatch: bool)
      requires Valid()
      modifies this
      ensures Valid()
      ensures mismatch <==> old(formData[PASSWORD] != formData[CONFIRM_PASSWORD])
      ensures mismatch ==> isLoading == old(isLoading)
      ensures !mismatch ==> isLoading
      ensures formData == old(formData) && passwordStrength == old(passwordStrength)
    {
      if formData[PASSWORD] != formData[CONFIRM_PASSWORD] {
        mismatch := true;
        return;
      }
      mismatch := false;
      isLoading := true;
    }

    /** The timer callback `handleSubmit` schedules: loading ends. */
    method FinishSignup()
      requires Valid()
      modifies this
      ensures Valid()
      ensures !isLoading
      ensures formData == old(formData) && passwordStrength == old(passwordStrength)
    {
      isLoading := false;
    }
  }
}
