/**
 * The form-validation engine of src/utils/validation.ts: the format
 * predicates for e-mail addresses, phone numbers and names, the password
 * requirements, and `validateForm`, which walks a rule set and records at most
 * one message per field, the one of the last check that failed.
 */
module Validation {
  import opened Wrappers
  import opened Strings
  import Seqs

  // ---------------------------------------------------------------- e-mail

  /** A character of `[^\s@]`. */
  predicate IsEmailPartChar(c: char) {
    !IsWhitespace(c) && c != '@'
  }

  /** `[^\s@]+`. */
  predicate IsEmailPart(s: string) {
    |s| > 0 && forall i | 0 <= i < |s| :: IsEmailPartChar(s[i])
  }

  /** `email` read as `[^\s@]+` '@' `[^\s@]+` '.' `[^\s@]+`, with the '@' at `at` and the '.' at `dot`. */
  predicate IsEmailSplit(email: string, at: int, dot: int)
    requires 0 <= at < dot < |email|
  {
    email[at] == '@' && email[dot] == '.' &&
    IsEmailPart(email[..at]) && IsEmailPart(email[at + 1..dot]) && IsEmailPart(email[dot + 1..])
  }

  /** `isValidEmail`: the whole string matches `/^[^\s@]+@[^\s@]+\.[^\s@]+$/`. */
  function IsValidEmail(email: string): (ok: bool)
    ensures ok ==> |email| >= 5 && '@' in email && '.' in email
  {
    exists at, dot | 0 <= at < dot < |email| :: IsEmailSplit(email, at, dot)
  }

  /** A '.' that is neither the first nor the last character. */
  predicate HasInnerDot(domain: string) {
    exists k | 0 < k < |domain| - 1 :: domain[k] == '.'
  }

  /**
   * The accepted addresses described character by character: no white space
   * anywhere, exactly one '@', not in first position, and a domain after it
   * holding a '.' that is neither its first nor its last character.
   */
  ghost predicate IsEmailShape(email: string) {
    && (forall i | 0 <= i < |email| :: !IsWhitespace(email[i]))
    && exists at | 0 < at < |email| ::
         && email[at] == '@'
         && (forall j | 0 <= j < |email| && j != at :: email[j] != '@')
         && HasInnerDot(email[at + 1..])
  }

  /** A block of an address with no white space and a single '@' is a `[^\s@]+` run when it avoids the '@'. */
  lemma EmailPartOfShape(email: string, at: int, lo: int, hi: int)
    requires 0 <= lo < hi <= |email| && 0 <= at < |email| && !(lo <= at < hi)
    requires forall i | 0 <= i < |email| :: !IsWhitespace(email[i])
    requires forall j | 0 <= j < |email| && j != at :: email[j] != '@'
    ensures IsEmailPart(email[lo..hi])
  {
    forall i | 0 <= i < hi - lo ensures IsEmailPartChar(email[lo..hi][i]) {
      assert email[lo..hi][i] == email[lo + i];
    }
  }

  /** `isValidEmail` accepts exactly the addresses of the shape described above. */
  lemma EmailCharacterisation(email: string)
    ensures IsValidEmail(email) <==> IsEmailShape(email)
  {
    if IsValidEmail(email) {
      ValidEmailHasShape(email);
    }
    if IsEmailShape(email) {
      EmailShapeIsValid(email);
    }
  }

  lemma ValidEmailHasShape(email: string)
    requires IsValidEmail(email)
    ensures IsEmailShape(email)
  {
    var at, dot :| 0 <= at < dot < |email| && IsEmailSplit(email, at, dot);
    var local, middle, tail := email[..at], email[at + 1..dot], email[dot + 1..];
    forall i | 0 <= i < |email| ensures !IsWhitespace(email[i]) && (i != at ==> email[i] != '@') {
      if i < at {
        assert email[i] == local[i];
      } else if at < i < dot {
        assert email[i] == middle[i - at - 1];
      } else if dot < i {
        assert email[i] == tail[i - dot - 1];
      }
    }
    var domain := email[at + 1..];
    assert domain[dot - at - 1] == '.';
    assert HasInnerDot(domain);
    assert 0 < at;
  }

  lemma EmailShapeIsValid(email: string)
    requires IsEmailShape(email)
    ensures IsValidEmail(email)
  {
    var at :| 0 < at < |email| && email[at] == '@'
              && (forall j | 0 <= j < |email| && j != at :: email[j] != '@')
              && HasInnerDot(email[at + 1..]);
    var domain := email[at + 1..];
    var k :| 0 < k < |domain| - 1 && domain[k] == '.';
    var dot := at + 1 + k;
    assert email[dot] == '.';
    EmailPartOfShape(email, at, 0, at);
    EmailPartOfShape(email, at, at + 1, dot);
    EmailPartOfShape(email, at, dot + 1, |email|);
    assert email[..at] == email[0..at];
    assert IsEmailSplit(email, at, dot);
  }

  // ---------------------------------------------------------------- phone

  /** The characters `phone.replace(/[\s\-\(\)]/g, '')` removes. */
  predicate IsPhoneSeparator(c: char) {
    IsWhitespace(c) || c == '-' || c == '(' || c == ')'
  }

  predicate IsPhoneKept(c: char) {
    !IsPhoneSeparator(c)
  }

  /** `phone.replace(/[\s\-\(\)]/g, '')`: the other characters, in their order. */
  function StripPhoneSeparators(phone: string): (kept: string)
    ensures forall i | 0 <= i < |kept| :: !IsPhoneSeparator(kept[i])
    ensures forall i | 0 <= i < |phone| :: !IsPhoneSeparator(phone[i]) ==> phone[i] in kept
    ensures Seqs.IsSubsequence(kept, phone)
    ensures forall c {:trigger multiset(kept)[c]} :: multiset(kept)[c] == if IsPhoneSeparator(c) then 0 else multiset(phone)[c]
  {
    Seqs.FilterIsSubsequence(phone, IsPhoneKept);
    Seqs.FilterCount(phone, IsPhoneKept);
    Seqs.Filter(phone, IsPhoneKept)
  }

  /** `/^[\+]?[1-9][\d]{0,15}$/`: an optional '+', a digit 1-9, then at most fifteen digits. */
  function MatchesPhonePattern(t: string): (ok: bool)
    ensures ok ==> 1 <= |t| <= 17
    ensures ok ==> forall i | 0 <= i < |t| :: IsDigit(t[i]) || (i == 0 && t[i] == '+')
  {
    var digits := if |t| > 0 && t[0] == '+' then t[1..] else t;
    1 <= |digits| <= 16 && '1' <= digits[0] <= '9' &&
    forall i | 1 <= i < |digits| :: IsDigit(digits[i])
  }

  /** `isValidPhone`. */
  function IsValidPhone(phone: string): (ok: bool)
    ensures ok ==> forall i | 0 <= i < |phone| :: IsPhoneSeparator(phone[i]) || IsDigit(phone[i]) || phone[i] == '+'
  {
    MatchesPhonePattern(StripPhoneSeparators(phone))
  }

  /** Inserting a space, '-', '(' or ')' anywhere never changes whether a phone number is accepted. */
  lemma PhoneIgnoresSeparator(before: string, sep: char, after: string)
    requires IsPhoneSeparator(sep)
    ensures IsValidPhone(before + [sep] + after) == IsValidPhone(before + after)
  {
    var kept := Seqs.Filter(before, IsPhoneKept) + Seqs.Filter(after, IsPhoneKept);
    assert Seqs.Filter(before + [sep] + after, IsPhoneKept) == kept by {
      Seqs.FilterConcat(before + [sep], after, IsPhoneKept);
      Seqs.FilterConcat(before, [sep], IsPhoneKept);
      assert [sep][1..] == [];
    }
    assert Seqs.Filter(before + after, IsPhoneKept) == kept by {
      Seqs.FilterConcat(before, after, IsPhoneKept);
    }
  }

  // ---------------------------------------------------------------- name

  /** A character of `[a-zA-Z\s\-']`. */
  predicate IsNameChar(c: char) {
    'a' <= c <= 'z' || 'A' <= c <= 'Z' || IsWhitespace(c) || c == '-' || c == '\''
  }

  /** `/^[a-zA-Z\s\-']+$/`. */
  predicate MatchesNamePattern(name: string) {
    |name| > 0 && forall i | 0 <= i < |name| :: IsNameChar(name[i])
  }

  /** `isValidName`: the trimmed name is at least two characters long and the raw name matches the pattern. */
  function IsValidName(name: string): (ok: bool)
    ensures ok ==> |name| >= 2 && forall i | 0 <= i < |name| :: IsNameChar(name[i])
  {
    |Trim(name)| >= 2 && MatchesNamePattern(name)
  }

  /** A name is accepted exactly when it is made of letters, white space, '-' and '\'' and has two characters that are not white space. */
  lemma NameCharacterisation(name: string)
    ensures IsValidName(name) <==>
            && (forall i | 0 <= i < |name| :: IsNameChar(name[i]))
            && exists i, j | 0 <= i < j < |name| :: !IsWhitespace(name[i]) && !IsWhitespace(name[j])
  {
    TrimLengthAtLeastTwo(name);
  }

  // ---------------------------------------------------------------- password

  const PASSWORD_TOO_SHORT := "Password must be at least 8 characters long"
  const PASSWORD_NO_UPPERCASE := "Password must contain at least one uppercase letter"
  const PASSWORD_NO_LOWERCASE := "Password must contain at least one lowercase letter"
  const PASSWORD_NO_NUMBER := "Password must contain at least one number"
  const PASSWORD_NO_SPECIAL := "Password must contain at least one special character"

  /** The five password messages, in the order the requirements are checked. */
  const PASSWORD_MESSAGES: seq<string> :=
    [PASSWORD_TOO_SHORT, PASSWORD_NO_UPPERCASE, PASSWORD_NO_LOWERCASE, PASSWORD_NO_NUMBER, PASSWORD_NO_SPECIAL]

  predicate IsAsciiUpper(c: char) { 'A' <= c <= 'Z' }
  predicate IsAsciiLower(c: char) { 'a' <= c <= 'z' }

  /** `/[A-Z]/.test(p)`. */
  predicate HasUppercase(p: string) { exists i | 0 <= i < |p| :: IsAsciiUpper(p[i]) }
  /** `/[a-z]/.test(p)`. */
  predicate HasLowercase(p: string) { exists i | 0 <= i < |p| :: IsAsciiLower(p[i]) }
  /** `/[0-9]/.test(p)`. */
  predicate HasDigit(p: string) { exists i | 0 <= i < |p| :: IsDigit(p[i]) }
  /** `/[^A-Za-z0-9]/.test(p)`. */
  predicate HasSpecial(p: string) {
    exists i | 0 <= i < |p| :: !IsAsciiUpper(p[i]) && !IsAsciiLower(p[i]) && !IsDigit(p[i])
  }

  /** For each requirement, in checking order, whether `p` fails it. */
  function PasswordFailures(p: string): (fails: seq<bool>)
    ensures |fails| == 5
  {
    [|p| < 8, !HasUppercase(p), !HasLowercase(p), !HasDigit(p), !HasSpecial(p)]
  }

  /** The messages whose flag is set among the first `n`, in order. */
  function Selected(flags: seq<bool>, messages: seq<string>, n: nat): (r: seq<string>)
    requires |flags| == |messages| && n <= |flags|
    ensures |r| <= n
    ensures forall i | 0 <= i < |r| :: r[i] in messages
    ensures r == [] <==> forall i | 0 <= i < n :: !flags[i]
  {
    if n == 0 then []
    else if flags[n - 1] then Selected(flags, messages, n - 1) + [messages[n - 1]]
    else Selected(flags, messages, n - 1)
  }

  datatype PasswordCheck = PasswordCheck(isValid: bool, errors: seq<string>)

  /** `validatePassword`: one message pushed per failed requirement, in checking order. */
  function ValidatePassword(password: string): (r: PasswordCheck)
    ensures r.errors == Selected(PasswordFailures(password), PASSWORD_MESSAGES, 5)
    ensures r.isValid <==> r.errors == []
    ensures r.isValid <==>
            |password| >= 8 && HasUppercase(password) && HasLowercase(password) &&
            HasDigit(password) && HasSpecial(password)
  {
    var fails, messages := PasswordFailures(password), PASSWORD_MESSAGES;
    var errors: seq<string> := [];
    assert errors == Selected(fails, messages, 0);
    var errors := if |password| < 8 then errors + [PASSWORD_TOO_SHORT] else errors;
    assert errors == Selected(fails, messages, 1);
    var errors := if !HasUppercase(password) then errors + [PASSWORD_NO_UPPERCASE] else errors;
    assert errors == Selected(fails, messages, 2);
    var errors := if !HasLowercase(password) then errors + [PASSWORD_NO_LOWERCASE] else errors;
    assert errors == Selected(fails, messages, 3);
    var errors := if !HasDigit(password) then errors + [PASSWORD_NO_NUMBER] else errors;
    assert errors == Selected(fails, messages, 4);
    var errors := if !HasSpecial(password) then errors + [PASSWORD_NO_SPECIAL] else errors;
    assert errors == Selected(fails, messages, 5);
    PasswordCheck(|errors| == 0, errors)
  }

  predicate IsSet(b: bool) { b }

  /** The first message is that of the first requirement, in checking order, that is failed. */
  lemma {:induction false} SelectedFirst(flags: seq<bool>, messages: seq<string>, n: nat)
    requires |flags| == |messages| && n <= |flags|
    requires Selected(flags, messages, n) != []
    ensures Seqs.FindIndex(flags, IsSet) < n
    ensures Selected(flags, messages, n)[0] == messages[Seqs.FindIndex(flags, IsSet)]
  {
    if Selected(flags, messages, n - 1) != [] {
      SelectedFirst(flags, messages, n - 1);
    } else {
      assert flags[n - 1];
    }
  }

  /** `validateForm` reports the message of the first requirement, in checking order, that `password` fails. */
  lemma PasswordFirstError(password: string)
    requires !ValidatePassword(password).isValid
    ensures var first := Seqs.FindIndex(PasswordFailures(password), IsSet);
            first < 5 && ValidatePassword(password).errors[0] == PASSWORD_MESSAGES[first]
  {
    SelectedFirst(PasswordFailures(password), PASSWORD_MESSAGES, 5);
  }

  // ---------------------------------------------------------------- validateForm

  const EMAIL_MESSAGE := "Please enter a valid email address"
  const PHONE_MESSAGE := "Please enter a valid phone number"
  const NAME_MESSAGE := "Please enter a valid name"
  const URL_MESSAGE := "Please enter a valid URL"

  /** A rule's `type`; any other type string behaves as `Untyped`. */
  datatype FieldType = Untyped | EmailField | PasswordField | PhoneField | NameField | UrlField

  /**
   * One field's rule. An absent or zero `minLength`/`maxLength` is not
   * checked; `custom` returns a message, or nothing when the value passes.
   */
  datatype Rule = Rule(
    required: bool,
    fieldType: FieldType,
    minLength: Option<int>,
    maxLength: Option<int>,
    fieldLabel: Option<string>,
    custom: Option<string -> Option<string>>)

  /** `rule.fieldLabel || field`. */
  function Label(field: string, rule: Rule): (r: string)
    ensures IsTruthy(rule.fieldLabel) ==> r == rule.fieldLabel.value
    ensures !IsTruthy(rule.fieldLabel) ==> r == field
  {
    if IsTruthy(rule.fieldLabel) then rule.fieldLabel.value else field
  }

  /** `!value || value.toString().trim() === ''`. */
  predicate IsBlank(value: Option<string>) {
    value.None? || Trim(value.value) == ""
  }

  /**
   * The type-specific check. The source tests the five types one after the
   * other; a rule has a single type, so at most one of them applies.
   */
  function FormatError(value: string, fieldType: FieldType, isValidUrl: string -> bool): (r: Option<string>)
    ensures fieldType == Untyped ==> r == None
    ensures r.Some? ==> r.value != ""
  {
    match fieldType
    case Untyped => None
    case EmailField => if IsValidEmail(value) then None else Some(EMAIL_MESSAGE)
    case PasswordField =>
      var password := ValidatePassword(value);
      assert !password.isValid ==> password.errors[0] in PASSWORD_MESSAGES;
      if password.isValid then None else Some(password.errors[0])
    case PhoneField => if IsValidPhone(value) then None else Some(PHONE_MESSAGE)
    case NameField => if IsValidName(value) then None else Some(NAME_MESSAGE)
    case UrlField => if isValidUrl(value) then None else Some(URL_MESSAGE)
  }

  /** Each typed field fails its format check exactly when its predicate rejects the value. */
  lemma FormatErrorMeaning(value: string, fieldType: FieldType, isValidUrl: string -> bool)
    ensures var r := FormatError(value, fieldType, isValidUrl);
            && (fieldType == EmailField ==> (r.None? <==> IsValidEmail(value)))
            && (fieldType == PasswordField ==> (r.None? <==> ValidatePassword(value).isValid))
            && (fieldType == PasswordField && r.Some? ==> r.value == ValidatePassword(value).errors[0])
            && (fieldType == PhoneField ==> (r.None? <==> IsValidPhone(value)))
            && (fieldType == NameField ==> (r.None? <==> IsValidName(value)))
            && (fieldType == UrlField ==> (r.None? <==> isValidUrl(value)))
  {
  }

  /** `minLength`, when set and not zero, bounds the raw value's length from below. */
  function MinLengthError(value: string, field: string, rule: Rule): (r: Option<string>)
    ensures r.None? <==> rule.minLength.None? || rule.minLength.value == 0 || |value| >= rule.minLength.value
  {
    if rule.minLength.Some? && rule.minLength.value != 0 && |value| < rule.minLength.value
    then Some(Label(field, rule) + " must be at least " + IntToString(rule.minLength.value) + " characters")
    else None
  }

  /** `maxLength`, when set and not zero, bounds the raw value's length from above. */
  function MaxLengthError(value: string, field: string, rule: Rule): (r: Option<string>)
    ensures r.None? <==> rule.maxLength.None? || rule.maxLength.value == 0 || |value| <= rule.maxLength.value
  {
    if rule.maxLength.Some? && rule.maxLength.value != 0 && |value| > rule.maxLength.value
    then Some(Label(field, rule) + " must be no more than " + IntToString(rule.maxLength.value) + " characters")
    else None
  }

  /** The custom check's message, when it returns a non-empty one. */
  function CustomError(value: string, rule: Rule): (r: Option<string>)
    ensures r.None? <==> rule.custom.None? || !IsTruthy(rule.custom.value(value))
    ensures r.Some? ==> r == rule.custom.value(value) && r.value != ""
  {
    if rule.custom.Some? && IsTruthy(rule.custom.value(value)) then rule.custom.value(value) else None
  }

  /** The checks run, in order, on a non-blank value; each is a message when it fails. */
  function FieldChecks(value: string, field: string, rule: Rule, isValidUrl: string -> bool): (checks: seq<Option<string>>)
    ensures |checks| == 4
    ensures forall i | 0 <= i < 4 :: checks[i].Some? ==> checks[i].value != ""
  {
    [ FormatError(value, rule.fieldType, isValidUrl),
      MinLengthError(value, field, rule),
      MaxLengthError(value, field, rule),
      CustomError(value, rule) ]
  }

  const CUSTOM_CHECK := 3

  /**
   * The message left after running `checks` in order, each failing one
   * overwriting what was recorded before it: the last failing check's message,
   * or `recorded` when none fails.
   */
  function Overwrite(recorded: Option<string>, checks: seq<Option<string>>): (r: Option<string>)
    decreases |checks|
    ensures (forall i | 0 <= i < |checks| :: checks[i].None?) ==> r == recorded
    ensures forall i | 0 <= i < |checks| ::
              checks[i].Some? && (forall j | i < j < |checks| :: checks[j].None?) ==> r == checks[i]
    ensures r == recorded || r in checks
  {
    if checks == [] then recorded
    else Overwrite(if checks[0].Some? then checks[0] else recorded, checks[1..])
  }

  /** The message `validateForm` records for one field, if any. */
  function FieldError(value: Option<string>, field: string, rule: Rule, isValidUrl: string -> bool): (r: Option<string>)
    ensures rule.required && IsBlank(value) ==> r == Some(Label(field, rule) + " is required")
    ensures !rule.required && IsBlank(value) ==> r == None
    ensures r.Some? ==> r.value != ""
  {
    if rule.required && IsBlank(value) then Some(Label(field, rule) + " is required")
    else if IsBlank(value) then None
    else
      var checks := FieldChecks(value.value, field, rule, isValidUrl);
      Overwrite(None, checks)
  }

  /** On a non-blank value the field has a message exactly when some check fails. */
  lemma FieldErrorOfValue(value: string, field: string, rule: Rule, isValidUrl: string -> bool)
    requires Trim(value) != ""
    ensures FieldError(Some(value), field, rule, isValidUrl).None? <==>
            forall i | 0 <= i < 4 :: FieldChecks(value, field, rule, isValidUrl)[i].None?
  {
    var checks := FieldChecks(value, field, rule, isValidUrl);
    assert FieldError(Some(value), field, rule, isValidUrl) == Overwrite(None, checks);
    OverwriteNone(None, checks);
  }

  /** On a non-blank value the field's message is that of the last check to fail. */
  lemma LastFailureWins(value: string, field: string, rule: Rule, isValidUrl: string -> bool, i: int)
    requires Trim(value) != ""
    requires 0 <= i < 4
    requires FieldChecks(value, field, rule, isValidUrl)[i].Some?
    requires forall j | i < j < 4 :: FieldChecks(value, field, rule, isValidUrl)[j].None?
    ensures FieldError(Some(value), field, rule, isValidUrl) == FieldChecks(value, field, rule, isValidUrl)[i]
  {
    var checks := FieldChecks(value, field, rule, isValidUrl);
    assert FieldError(Some(value), field, rule, isValidUrl) == Overwrite(None, checks);
  }

  /** No message is left exactly when none was recorded before and no check fails. */
  lemma {:induction false} OverwriteNone(recorded: Option<string>, checks: seq<Option<string>>)
    ensures Overwrite(recorded, checks).None? <==>
            recorded.None? && forall i | 0 <= i < |checks| :: checks[i].None?
    decreases |checks|
  {
    if checks != [] {
      OverwriteNone(if checks[0].Some? then checks[0] else recorded, checks[1..]);
      assert forall i | 1 <= i < |checks| :: checks[i] == checks[1..][i - 1];
    }
  }

  /** A custom check that returns a message always decides the field's message. */
  lemma CustomCheckWins(value: string, field: string, rule: Rule, isValidUrl: string -> bool)
    requires Trim(value) != ""
    requires rule.custom.Some? && IsTruthy(rule.custom.value(value))
    ensures FieldError(Some(value), field, rule, isValidUrl) == rule.custom.value(value)
  {
    var checks := FieldChecks(value, field, rule, isValidUrl);
    assert checks[CUSTOM_CHECK] == rule.custom.value(value);
  }

  /** `data[field]`: absent keys read as undefined. */
  function Lookup(data: map<string, string>, field: string): Option<string> {
    if field in data then Some(data[field]) else None
  }

  /** The errors `validateForm` collects: for each rule key whose field fails, that field's message. */
  function FormErrors(data: map<string, string>, rules: map<string, Rule>, isValidUrl: string -> bool): (errors: map<string, string>)
    ensures errors.Keys <= rules.Keys
    ensures forall field | field in errors :: errors[field] != ""
  {
    map field | field in rules && FieldError(Lookup(data, field), field, rules[field], isValidUrl).Some? ::
      FieldError(Lookup(data, field), field, rules[field], isValidUrl).value
  }

  /** A ruled field is reported exactly when its own checks give an error, and with that error. */
  lemma FormErrorsAt(data: map<string, string>, rules: map<string, Rule>, isValidUrl: string -> bool, field: string)
    requires field in rules
    ensures var error := FieldError(Lookup(data, field), field, rules[field], isValidUrl);
            && (field in FormErrors(data, rules, isValidUrl) <==> error.Some?)
            && (error.Some? ==> FormErrors(data, rules, isValidUrl)[field] == error.value)
  {
  }

  /** A required field with no error holds a non-blank value that passes every one of its checks. */
  lemma RequiredFieldPassed(data: map<string, string>, rules: map<string, Rule>, isValidUrl: string -> bool, field: string)
    requires field in rules && rules[field].required
    requires field !in FormErrors(data, rules, isValidUrl)
    ensures field in data && Trim(data[field]) != ""
    ensures forall i | 0 <= i < 4 :: FieldChecks(data[field], field, rules[field], isValidUrl)[i].None?
  {
    assert FieldError(Lookup(data, field), field, rules[field], isValidUrl).None?;
    FieldErrorOfValue(data[field], field, rules[field], isValidUrl);
  }

  /** A required field that is missing or blank is reported as required under its label. */
  lemma RequiredFieldBlank(data: map<string, string>, rules: map<string, Rule>, isValidUrl: string -> bool, field: string)
    requires field in rules && rules[field].required
    requires IsBlank(Lookup(data, field))
    ensures field in FormErrors(data, rules, isValidUrl)
    ensures FormErrors(data, rules, isValidUrl)[field] == Label(field, rules[field]) + " is required"
  {
  }

  datatype ValidationResult = ValidationResult(isValid: bool, errors: map<string, string>)

  /**
   * `validateForm`: walks the rule keys, recording each failing field's
   * message in `errors`; the form is valid exactly when nothing was recorded.
   */
  method ValidateForm(data: map<string, string>, rules: map<string, Rule>, isValidUrl: string -> bool)
    returns (result: ValidationResult)
    ensures result.errors == FormErrors(data, rules, isValidUrl)
    ensures result.isValid <==> result.errors == map[]
  {
    var errors: map<string, string> := map[];
    var remaining := rules.Keys;
    while remaining != {}
      invariant remaining <= rules.Keys
      invariant errors.Keys <= rules.Keys - remaining
      invariant forall field | field in rules.Keys - remaining ::
                  FieldError(Lookup(data, field), field, rules[field], isValidUrl) ==
                  (if field in errors then Some(errors[field]) else None)
      decreases remaining
    {
      var field :| field in remaining;
      var error := FieldError(Lookup(data, field), field, rules[field], isValidUrl);
      if error.Some? {
        errors := errors[field := error.value];
      }
      remaining := remaining - {field};
    }
    assert errors == FormErrors(data, rules, isValidUrl);
    result := ValidationResult(|errors| == 0, errors);
  }

  /** Keys of `data` that no rule names play no part: forms that agree on the rule keys get the same errors. */
  lemma FormIgnoresUnruledFields(data1: map<string, string>, data2: map<string, string>,
                                 rules: map<string, Rule>, isValidUrl: string -> bool)
    requires forall field | field in rules :: Lookup(data1, field) == Lookup(data2, field)
    ensures FormErrors(data1, rules, isValidUrl) == FormErrors(data2, rules, isValidUrl)
  {
  }
}
