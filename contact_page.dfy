/**
 * The contact form of src/pages/ContactPage.tsx: its validation rules, the
 * submit handler that gates on the validator, the edit handler with its
 * per-field error clearing, and the "Send Another Message" reset.
 *
 * `handleSubmit` awaits the submission call. It is modelled as two steps:
 * `Submit` runs up to the call, and `Settle` runs once the call has
 * answered or thrown.
 */
module ContactPage {
  import opened Wrappers
  import opened Strings
  import opened Validation
  import Api

  const NAME := "name"
  const EMAIL := "email"
  const COMPANY := "company"
  const SUBJECT := "subject"
  const MESSAGE := "message"

  const FIX_ERRORS_TITLE := "Please fix the errors below"
  const SENT_TITLE := "Message sent successfully!"
  const SENT_DETAIL := "We'll get back to you within 24 hours."
  const FAILED_TITLE := "Failed to send message"

  /** The five fields, all empty. */
  function EmptyForm(): (form: map<string, string>)
    ensures form.Keys == {NAME, EMAIL, COMPANY, SUBJECT, MESSAGE}
    ensures forall k | k in form :: form[k] == ""
  {
    map[NAME := "", EMAIL := "", COMPANY := "", SUBJECT := "", MESSAGE := ""]
  }

  /** `validationRules`: four required fields; the company is not checked. */
  function ContactRules(): (rules: map<string, Rule>)
    ensures rules.Keys == {NAME, EMAIL, SUBJECT, MESSAGE}
    ensures forall k | k in rules :: rules[k].required && rules[k].custom.None? && rules[k].maxLength.None?
  {
    map[
      NAME := Rule(true, NameField, None, None, Some("Full Name"), None),
      EMAIL := Rule(true, EmailField, None, None, Some("Email Address"), None),
      SUBJECT := Rule(true, Untyped, None, None, Some("Subject"), None),
      MESSAGE := Rule(true, Untyped, Some(10), None, Some("Message"), None)]
  }

  /** A toast shown to the user. */
  datatype Notice =
    | NoNotice
    | SuccessNotice(title: string, message: string)
    | ErrorNotice(title: string, detail: Option<string>)

  /** How the submission call ended: an answer, or a thrown value. */
  datatype Outcome =
    | Answered(success: bool, error: Option<string>)
    | Threw(thrown: Api.ErrorValue)

  /** The message `handleApiError` produces for an outcome that is not a success. */
  function FailureDetail(outcome: Outcome): (detail: string)
    requires !(outcome.Answered? && outcome.success)
    ensures outcome.Answered? && IsTruthy(outcome.error) ==> detail == outcome.error.value
    ensures outcome.Answered? && !IsTruthy(outcome.error) ==> detail == FAILED_TITLE
    ensures outcome.Threw? ==> detail == Api.HandleApiError(outcome.thrown)
  {
    match outcome
    case Answered(_, error) =>
      var thrown := Api.ThrownError(if IsTruthy(error) then error.value else FAILED_TITLE);
      Api.HandleApiError(thrown)
    case Threw(thrown) => Api.HandleApiError(thrown)
  }

  /** The page's state: form values, the loading and submitted flags, and the per-field errors shown. */
  class ContactForm {
    var formData: map<string, string>
    var isLoading: bool
    var isSubmitted: bool
    var errors: map<string, string>

    constructor()
      ensures formData == EmptyForm()
      ensures !isLoading && !isSubmitted && errors == map[]
    {
      formData := EmptyForm();
      isLoading := false;
      isSubmitted := false;
      errors := map[];
    }

    /**
     * `handleSubmit` up to the submission call. An invalid form shows the
     * validator's errors and is not sent; a valid one clears the errors and
     * starts loading, and `sent` says the call is made.
     */
    method Submit(isValidUrl: string -> bool) returns (sent: bool, notice: Notice)
      modifies this
      ensures var found := FormErrors(old(formData), ContactRules(), isValidUrl);
              && (sent <==> found == map[])
              && (!sent ==> errors == found && isLoading == old(isLoading)
                            && notice == ErrorNotice(FIX_ERRORS_TITLE, None))
              && (sent ==> errors == map[] && isLoading && notice == NoNotice)
      ensures formData == old(formData) && isSubmitted == old(isSubmitted)
    {
      var validation := ValidateForm(formData, ContactRules(), isValidUrl);
      if !validation.isValid {
        errors := validation.errors;
        notice := ErrorNotice(FIX_ERRORS_TITLE, None);
        sent := false;
        return;
      }
      errors := map[];
      isLoading := true;
      sent := true;
      notice := NoNotice;
    }

    /** The rest of `handleSubmit`, once the call has answered or thrown: loading always ends. */
    method Settle(outcome: Outcome) returns (notice: Notice)
      modifies this
      ensures !isLoading
      ensures outcome.Answered? && outcome.success ==> isSubmitted && notice == SuccessNotice(SENT_TITLE, SENT_DETAIL)
      ensures !(outcome.Answered? && outcome.success) ==>
                isSubmitted == old(isSubmitted) && notice == ErrorNotice(FAILED_TITLE, Some(FailureDetail(outcome)))
      ensures formData == old(formData) && errors == old(errors)
    {
      if outcome.Answered? && outcome.success {
        isSubmitted := true;
        notice := SuccessNotice(SENT_TITLE, SENT_DETAIL);
      } else {
        notice := ErrorNotice(FAILED_TITLE, Some(FailureDetail(outcome)));
      }
      isLoading := false;
    }

    /** `handleChange`: store the value; an error showing for that field is blanked, others stay. */
    method HandleChange(field: string, value: string)
      modifies this
      ensures formData == old(formData)[field := value]
      ensures field in old(errors) && old(errors)[field] != "" ==> errors == old(errors)[field := ""]
      ensures !(field in old(errors) && old(errors)[field] != "") ==> errors == old(errors)
      ensures isLoading == old(isLoading) && isSubmitted == old(isSubmitted)
    {
      formData := formData[field := value];
      if field in errors && errors[field] != "" {
        errors := errors[field := ""];
      }
    }

    /** "Send Another Message": back to an empty, unsubmitted form. */
    method SendAnother()
      modifies this
      ensures formData == EmptyForm() && !isSubmitted
      ensures isLoading == old(isLoading) && errors == old(errors)
    {
      isSubmitted := false;
      formData := EmptyForm();
    }
  }

  /** The company field never carries an error, whatever the form holds. */
  lemma CompanyNeverValidated(data: map<string, string>, isValidUrl: string -> bool)
    ensures COMPANY !in FormErrors(data, ContactRules(), isValidUrl)
  {
  }

  /** The field keys are pairwise different. */
  lemma FieldKeysDistinct()
    ensures NAME != EMAIL && NAME != SUBJECT && NAME != MESSAGE && NAME != COMPANY
    ensures EMAIL != SUBJECT && EMAIL != MESSAGE && EMAIL != COMPANY
    ensures SUBJECT != MESSAGE && SUBJECT != COMPANY && MESSAGE != COMPANY
  {
    assert SUBJECT[0] != MESSAGE[0] && COMPANY[0] != MESSAGE[0];
  }

  /** Submission goes ahead only with every required field filled, a valid name and e-mail, and a message of ten or more characters. */
  lemma AcceptedFormIsComplete(data: map<string, string>, isValidUrl: string -> bool)
    requires FormErrors(data, ContactRules(), isValidUrl) == map[]
    ensures forall k | k in ContactRules() :: k in data && Trim(data[k]) != ""
    ensures IsValidName(data[NAME]) && IsValidEmail(data[EMAIL]) && |data[MESSAGE]| >= 10
  {
    forall k | k in ContactRules() ensures k in data && Trim(data[k]) != "" {
      RequiredFieldPassed(data, ContactRules(), isValidUrl, k);
    }
    AcceptedName(data, isValidUrl);
    AcceptedEmail(data, isValidUrl);
    AcceptedMessage(data, isValidUrl);
  }

  lemma AcceptedName(data: map<string, string>, isValidUrl: string -> bool)
    requires NAME !in FormErrors(data, ContactRules(), isValidUrl)
    ensures NAME in data && IsValidName(data[NAME])
  {
    var rule := ContactRules()[NAME];
    assert rule.fieldType == NameField by { FieldKeysDistinct(); }
    RequiredFieldPassed(data, ContactRules(), isValidUrl, NAME);
    FormatErrorMeaning(data[NAME], rule.fieldType, isValidUrl);
  }

  lemma AcceptedEmail(data: map<string, string>, isValidUrl: string -> bool)
    requires EMAIL !in FormErrors(data, ContactRules(), isValidUrl)
    ensures EMAIL in data && IsValidEmail(data[EMAIL])
  {
    var rule := ContactRules()[EMAIL];
    assert rule.fieldType == EmailField by { FieldKeysDistinct(); }
    RequiredFieldPassed(data, ContactRules(), isValidUrl, EMAIL);
    FormatErrorMeaning(data[EMAIL], rule.fieldType, isValidUrl);
  }

  lemma AcceptedMessage(data: map<string, string>, isValidUrl: string -> bool)
    requires MESSAGE !in FormErrors(data, ContactRules(), isValidUrl)
    ensures MESSAGE in data && |data[MESSAGE]| >= 10
  {
    var rule := ContactRules()[MESSAGE];
    assert rule.minLength == Some(10) by { FieldKeysDistinct(); }
    RequiredFieldPassed(data, ContactRules(), isValidUrl, MESSAGE);
    assert FieldChecks(data[MESSAGE], MESSAGE, rule, isValidUrl)[1].None?;
  }

  /** A blank required field of the contact rules is reported under the label its rule gives. */
  lemma BlankFieldError(isValidUrl: string -> bool, field: string, text: string)
    requires field in ContactRules() && Label(field, ContactRules()[field]) == text
    ensures field in FormErrors(EmptyForm(), ContactRules(), isValidUrl)
    ensures FormErrors(EmptyForm(), ContactRules(), isValidUrl)[field] == text + " is required"
  {
    assert IsBlank(Lookup(EmptyForm(), field)) by { assert AllWhitespace(""); }
    RequiredFieldBlank(EmptyForm(), ContactRules(), isValidUrl, field);
  }

  /** The labels of the contact rules. */
  lemma ContactLabels()
    ensures Label(NAME, ContactRules()[NAME]) == "Full Name"
    ensures Label(EMAIL, ContactRules()[EMAIL]) == "Email Address"
    ensures Label(SUBJECT, ContactRules()[SUBJECT]) == "Subject"
    ensures Label(MESSAGE, ContactRules()[MESSAGE]) == "Message"
  {
    FieldKeysDistinct();
  }

  /** The untouched form has four "is required" errors, under the rules' labels. */
  lemma EmptyFormErrors(isValidUrl: string -> bool)
    ensures var errors := FormErrors(EmptyForm(), ContactRules(), isValidUrl);
            && errors.Keys == {NAME, EMAIL, SUBJECT, MESSAGE}
            && errors[NAME] == "Full Name is required"
            && errors[EMAIL] == "Email Address is required"
            && errors[SUBJECT] == "Subject is required"
            && errors[MESSAGE] == "Message is required"
  {
    ContactLabels();
    BlankFieldError(isValidUrl, NAME, "Full Name");
    BlankFieldError(isValidUrl, EMAIL, "Email Address");
    BlankFieldError(isValidUrl, SUBJECT, "Subject");
    BlankFieldError(isValidUrl, MESSAGE, "Message");
  }
}
