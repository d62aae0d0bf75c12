/**
 * Worked cases of the validation engine: individual format checks, the
 * password priority order, the overwrite rule, and a whole form.
 */
module ValidationExamples {
  import opened Wrappers
  import opened Strings
  import opened Validation

  lemma EmailExamples()
    ensures IsValidEmail("user@example.com")
    ensures !IsValidEmail("not-an-email")
    ensures !IsValidEmail(" user@example.com")
  {
    assert IsEmailSplit("user@example.com", 4, 12) by {
      assert "user@example.com"[..4] == "user";
      assert "user@example.com"[5..12] == "example";
      assert "user@example.com"[13..] == "com";
    }
    assert forall i | 0 <= i < |"not-an-email"| :: "not-an-email"[i] != '@';
    EmailCharacterisation(" user@example.com");
    assert IsWhitespace(" user@example.com"[0]);
  }

  /** A string of one to sixteen digits not starting with 0 is accepted, with or without a leading '+'. */
  lemma PlainDigitsAccepted(t: string)
    requires 1 <= |t| <= 16 && '1' <= t[0] <= '9'
    requires forall i | 0 <= i < |t| :: IsDigit(t[i])
    ensures IsValidPhone(t) && IsValidPhone("+" + t)
  {
    Seqs.FilterKeepsAll(t, IsPhoneKept);
    Seqs.FilterKeepsAll("+" + t, IsPhoneKept);
    assert ("+" + t)[1..] == t;
  }

  /** Digits only, but a leading 0 or more than sixteen of them, is refused. */
  lemma PlainDigitsRefused(t: string)
    requires forall i | 0 <= i < |t| :: IsDigit(t[i])
    requires t == "" || t[0] == '0' || |t| > 16
    ensures !IsValidPhone(t)
  {
    Seqs.FilterKeepsAll(t, IsPhoneKept);
  }

  lemma PhoneRefused(leadingZero: string, tooLong: string)
    requires leadingZero == "0123" && tooLong == "12345678901234567"
    ensures !IsValidPhone(leadingZero) && !IsValidPhone(tooLong)
  {
    PlainDigitsRefused(leadingZero);
    PlainDigitsRefused(tooLong);
  }

  /** Two or more letters make a valid name. */
  lemma LettersAccepted(name: string)
    requires |name| >= 2
    requires forall i | 0 <= i < |name| :: IsAsciiUpper(name[i]) || IsAsciiLower(name[i])
    ensures IsValidName(name)
  {
    NameCharacterisation(name);
    assert !IsWhitespace(name[0]) && !IsWhitespace(name[1]);
  }

  lemma TwoLetterNameAccepted(name: string)
    requires name == "Jo"
    ensures IsValidName(name)
  {
    LettersAccepted(name);
  }

  lemma OneLetterNameRefused(name: string)
    requires name == "J"
    ensures !IsValidName(name)
  {
    NameCharacterisation(name);
  }

  lemma NameWithDigitsRefused(name: string)
    requires name == "John123"
    ensures !IsValidName(name)
  {
    assert !IsNameChar(name[4]);
  }

  /** White space around a single letter does not make the name long enough. */
  lemma PaddedLetterRefused(name: string)
    requires name == " J "
    ensures !IsValidName(name)
  {
    NameCharacterisation(name);
    assert IsWhitespace(name[0]) && IsWhitespace(name[2]);
  }

  /** Only the first unmet requirement is reported, in the order length, upper case, lower case, digit, special. */
  lemma PasswordPriorityExamples()
    ensures ValidatePassword("abc").errors[0] == PASSWORD_TOO_SHORT
    ensures ValidatePassword("abcdefgh").errors[0] == PASSWORD_NO_UPPERCASE
    ensures ValidatePassword("Abcdefg1!").isValid
  {
    assert !HasUppercase("abc") && !HasUppercase("abcdefgh");
    assert HasUppercase("Abcdefg1!") by { assert IsAsciiUpper("Abcdefg1!"[0]); }
    assert HasLowercase("Abcdefg1!") by { assert IsAsciiLower("Abcdefg1!"[1]); }
    assert HasDigit("Abcdefg1!") by { assert IsDigit("Abcdefg1!"[7]); }
    assert HasSpecial("Abcdefg1!") by { assert !IsAsciiUpper("Abcdefg1!"[8]) && !IsAsciiLower("Abcdefg1!"[8]) && !IsDigit("Abcdefg1!"[8]); }
  }

  /** A custom check that always fails overrides a length violation on the same field. */
  lemma CustomOverridesLength(value: string, isValidUrl: string -> bool)
    requires value == "short"
    ensures var rule := Rule(false, Untyped, Some(20), None, None, Some(v => Some("custom failed")));
            FieldError(Some(value), "code", rule, isValidUrl) == Some("custom failed")
  {
    var rule := Rule(false, Untyped, Some(20), None, None, Some(v => Some("custom failed")));
    assert Trim(value) != "" by { TrimUnchanged(value); }
    CustomCheckWins(value, "code", rule, isValidUrl);
  }

  /** Length limits are checked on the raw value, white space included. */
  lemma RawLengthExample(value: string, isValidUrl: string -> bool)
    requires value == "  a"
    ensures Trim(value) == "a"
    ensures FieldError(Some(value), "code", Rule(false, Untyped, Some(3), None, None, None), isValidUrl) == None
  {
    var rule := Rule(false, Untyped, Some(3), None, None, None);
    var a := TrimIsSlice(value);
    assert IsWhitespace(value[0]) && IsWhitespace(value[1]) && !IsWhitespace(value[2]);
    assert Trim(value) == "a";
    assert FieldChecks(value, "code", rule, isValidUrl) == [None, None, None, None];
    FieldErrorOfValue(value, "code", rule, isValidUrl);
  }

  /** A zero limit is not checked at all. */
  lemma ZeroLimitsIgnored(value: string, field: string, rule: Rule, isValidUrl: string -> bool)
    requires Trim(value) != ""
    requires rule.fieldType == Untyped && rule.custom.None?
    requires rule.minLength == Some(0) && rule.maxLength == Some(0)
    ensures FieldError(Some(value), field, rule, isValidUrl) == None
  {
    assert FieldChecks(value, field, rule, isValidUrl) == [None, None, None, None];
    FieldErrorOfValue(value, field, rule, isValidUrl);
  }

  /** A value over `maxLength` of an untyped field gets the too-long message under the field's label. */
  lemma MaxLengthMessage(value: string, field: string, rule: Rule, isValidUrl: string -> bool)
    requires Trim(value) != ""
    requires rule.fieldType == Untyped && rule.custom.None?
    requires rule.maxLength.Some? && 0 < rule.maxLength.value < |value|
    ensures FieldError(Some(value), field, rule, isValidUrl) ==
            Some(Label(field, rule) + " must be no more than " + IntToString(rule.maxLength.value) + " characters")
  {
    var checks := FieldChecks(value, field, rule, isValidUrl);
    assert checks[2] == Some(Label(field, rule) + " must be no more than " + IntToString(rule.maxLength.value) + " characters");
    assert checks[3] == None;
    LastFailureWins(value, field, rule, isValidUrl, 2);
  }

  /** A required field left blank, or holding only white space, is reported as required under its label. */
  lemma RequiredExamples(isValidUrl: string -> bool)
    ensures FieldError(None, "name", Rule(true, NameField, None, None, Some("Full Name"), None), isValidUrl)
            == Some("Full Name is required")
    ensures FieldError(Some("  "), "subject", Rule(true, Untyped, None, None, None, None), isValidUrl)
            == Some("subject is required")
  {
    var name := Rule(true, NameField, None, None, Some("Full Name"), None);
    assert FieldError(None, "name", name, isValidUrl) == Some(Label("name", name) + " is required");
    assert Label("name", name) == "Full Name";
    assert "Full Name" + " is required" == "Full Name is required";
    var subject := Rule(true, Untyped, None, None, None, None);
    assert IsBlank(Some("  ")) by { assert AllWhitespace("  "); }
    assert FieldError(Some("  "), "subject", subject, isValidUrl) == Some(Label("subject", subject) + " is required");
    assert "subject" + " is required" == "subject is required";
  }

  /** An optional field left empty passes whatever its other limits. */
  lemma OptionalEmptyExample(isValidUrl: string -> bool)
    ensures FieldError(Some(""), "message", Rule(false, Untyped, Some(10), None, None, None), isValidUrl) == None
  {
    assert AllWhitespace("");
  }

  /** A name field with no limits passes any name of two or more letters. */
  lemma LetterNamePasses(name: string, field: string, rule: Rule, isValidUrl: string -> bool)
    requires |name| >= 2
    requires forall i | 0 <= i < |name| :: IsAsciiUpper(name[i]) || IsAsciiLower(name[i])
    requires rule.fieldType == NameField && rule.minLength.None? && rule.maxLength.None? && rule.custom.None?
    ensures FieldError(Some(name), field, rule, isValidUrl) == None
  {
    LettersAccepted(name);
    assert Trim(name) != "" by { assert !IsWhitespace(name[0]); }
    FormatErrorMeaning(name, rule.fieldType, isValidUrl);
    assert forall i | 0 <= i < 4 :: FieldChecks(name, field, rule, isValidUrl)[i].None?;
    FieldErrorOfValue(name, field, rule, isValidUrl);
  }

  /** An e-mail field with no limits rejects any non-blank value without an '@'. */
  lemma EmailWithoutAtFails(email: string, field: string, rule: Rule, isValidUrl: string -> bool)
    requires Trim(email) != ""
    requires forall i | 0 <= i < |email| :: email[i] != '@'
    requires rule.fieldType == EmailField && rule.minLength.None? && rule.maxLength.None? && rule.custom.None?
    ensures FieldError(Some(email), field, rule, isValidUrl) == Some(EMAIL_MESSAGE)
  {
    var checks := FieldChecks(email, field, rule, isValidUrl);
    assert checks[0] == Some(EMAIL_MESSAGE);
    assert checks[1] == None && checks[2] == None && checks[3] == None;
    LastFailureWins(email, field, rule, isValidUrl, 0);
  }

  /** An untyped field with only a minimum length reports a value below it under the field's label. */
  lemma MinLengthMessage(value: string, field: string, rule: Rule, isValidUrl: string -> bool)
    requires Trim(value) != ""
    requires rule.fieldType == Untyped && rule.custom.None? && rule.maxLength.None?
    requires rule.minLength.Some? && |value| < rule.minLength.value
    ensures FieldError(Some(value), field, rule, isValidUrl) ==
            Some(Label(field, rule) + " must be at least " + IntToString(rule.minLength.value) + " characters")
  {
    var checks := FieldChecks(value, field, rule, isValidUrl);
    assert checks[2] == None && checks[3] == None;
    LastFailureWins(value, field, rule, isValidUrl, 1);
  }

  /** The too-short message renders the limit in decimal. */
  lemma TooShortMessageText()
    ensures "message" + " must be at least " + IntToString(10) + " characters" == "message must be at least 10 characters"
  {
    assert IntToString(10) == "10";
  }

  /** The rules of the worked form: a labelled name, an e-mail, and a message of ten or more characters. */
  function ExampleRules(): (rules: map<string, Rule>)
    ensures rules.Keys == {"name", "email", "message"}
  {
    map[
      "name" := Rule(true, NameField, None, None, Some("Full Name"), None),
      "email" := Rule(true, EmailField, None, None, None, None),
      "message" := Rule(true, Untyped, Some(10), None, None, None)]
  }

  /** The three keys of the worked form are different. */
  lemma ExampleKeysDistinct()
    ensures "name" != "email" && "name" != "message" && "email" != "message"
  {
    assert "name"[0] != "email"[0] && "name"[0] != "message"[0] && "email"[0] != "message"[0];
  }

  /** In the worked form, a name of two or more letters raises no error. */
  lemma ExampleNamePasses(data: map<string, string>, isValidUrl: string -> bool)
    requires "name" in data && |data["name"]| >= 2
    requires forall i | 0 <= i < |data["name"]| :: IsAsciiUpper(data["name"][i]) || IsAsciiLower(data["name"][i])
    ensures "name" !in FormErrors(data, ExampleRules(), isValidUrl)
  {
    ExampleKeysDistinct();
    LetterNamePasses(data["name"], "name", ExampleRules()["name"], isValidUrl);
    FormErrorsAt(data, ExampleRules(), isValidUrl, "name");
  }

  /** In the worked form, a non-blank e-mail without '@' gets the e-mail message. */
  lemma ExampleEmailFails(data: map<string, string>, isValidUrl: string -> bool)
    requires "email" in data && Trim(data["email"]) != ""
    requires forall i | 0 <= i < |data["email"]| :: data["email"][i] != '@'
    ensures "email" in FormErrors(data, ExampleRules(), isValidUrl)
    ensures FormErrors(data, ExampleRules(), isValidUrl)["email"] == EMAIL_MESSAGE
  {
    ExampleKeysDistinct();
    EmailWithoutAtFails(data["email"], "email", ExampleRules()["email"], isValidUrl);
    FormErrorsAt(data, ExampleRules(), isValidUrl, "email");
  }

  /** In the worked form, a non-blank message under ten characters is too short, named by its key. */
  lemma ExampleMessageTooShort(data: map<string, string>, isValidUrl: string -> bool)
    requires "message" in data && Trim(data["message"]) != "" && |data["message"]| < 10
    ensures "message" in FormErrors(data, ExampleRules(), isValidUrl)
    ensures FormErrors(data, ExampleRules(), isValidUrl)["message"] == "message must be at least 10 characters"
  {
    ExampleKeysDistinct();
    MinLengthMessage(data["message"], "message", ExampleRules()["message"], isValidUrl);
    TooShortMessageText();
    FormErrorsAt(data, ExampleRules(), isValidUrl, "message");
  }

  /**
   * A contact-style form: a name of letters passes, an e-mail without '@'
   * fails its format check and a message under ten characters is too short;
   * without a label the message names the field key.
   */
  lemma FormExample(data: map<string, string>, isValidUrl: string -> bool)
    requires "name" in data && "email" in data && "message" in data
    requires |data["name"]| >= 2
    requires forall i | 0 <= i < |data["name"]| :: IsAsciiUpper(data["name"][i]) || IsAsciiLower(data["name"][i])
    requires Trim(data["email"]) != "" && forall i | 0 <= i < |data["email"]| :: data["email"][i] != '@'
    requires Trim(data["message"]) != "" && |data["message"]| < 10
    ensures var errors := FormErrors(data, ExampleRules(), isValidUrl);
            && errors.Keys == {"email", "message"}
            && errors["email"] == EMAIL_MESSAGE
            && errors["message"] == "message must be at least 10 characters"
  {
    ExampleNamePasses(data, isValidUrl);
    ExampleEmailFails(data, isValidUrl);
    ExampleMessageTooShort(data, isValidUrl);
  }

  /** The values of the worked example meet the shape `FormExample` asks for. */
  lemma FormExampleValues(data: map<string, string>)
    requires data == map["name" := "Al", "email" := "bad", "message" := "hi"]
    ensures Trim(data["email"]) != "" && forall i | 0 <= i < |data["email"]| :: data["email"][i] != '@'
    ensures Trim(data["message"]) != "" && |data["message"]| < 10
    ensures forall i | 0 <= i < |data["name"]| :: IsAsciiUpper(data["name"][i]) || IsAsciiLower(data["name"][i])
  {
    assert Trim(data["email"]) != "" by { TrimUnchanged(data["email"]); }
    assert Trim(data["message"]) != "" by { TrimUnchanged(data["message"]); }
  }
}
