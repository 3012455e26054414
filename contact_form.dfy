/** The contact form script, js/contact-form.js: six field validators, the
    submit handler that flags failing fields and starts a simulated send, the
    send's outcome, the message character counter and the `filled` marker. */
module ContactForm {
  import opened Text
  import PhoneNumber

  /** The six validated controls. */
  datatype Field = Name | Email | Phone | Subject | Message | Consent

  /** The text inputs and the select: the `.form-control` elements. */
  const Controls: set<Field> := {Name, Email, Phone, Subject, Message}

  /** The counter turns to a warning above this many characters. */
  const WarningLength := 450

  // The validators (contact-form.js:44-69).

  predicate ValidateName(name: string) {
    |Trim(name)| >= 2
  }

  /** The address test: the script lower-cases the value and hands it to a
      long address pattern, which this model takes as the parameter
      `emailPattern`. */
  predicate ValidateEmail(email: string, emailPattern: string -> bool) {
    emailPattern(ToLower(email))
  }

  /** The phone is optional: a blank value passes, anything else must match
      the phone pattern once trimmed. */
  predicate ValidatePhone(phone: string) {
    IsBlank(phone) || PhoneNumber.IsValidPhone(Trim(phone))
  }

  /** The subject is not trimmed: only the empty value fails. A select's
      value is never null, so the script's null test never fires. */
  predicate ValidateSubject(subject: string) {
    subject != []
  }

  predicate ValidateMessage(message: string) {
    |Trim(message)| >= 10
  }

  predicate ValidateConsent(consent: bool) {
    consent
  }

  /** A name passes exactly when it holds two characters that are not white
      space: its trimmed length is at least 2. */
  lemma ValidateNameIff(name: string)
    ensures ValidateName(name) <==>
      exists i, j :: 0 <= i < j < |name| && !IsSpace(name[i]) && !IsSpace(name[j])
  {
    TrimLengthAtLeast(name, 2);
  }

  /** A message passes exactly when its first and last characters that are
      not white space are at least ten positions apart, counting both. */
  lemma ValidateMessageIff(message: string)
    ensures ValidateMessage(message) <==>
      exists i, j :: 0 <= i && i + 9 <= j < |message| && !IsSpace(message[i]) && !IsSpace(message[j])
  {
    TrimLengthAtLeast(message, 10);
  }

  /** A phone passes exactly when it is all white space or, trimmed, is the
      text of a well-formed number; a non-blank one then has 10 to 12 digits. */
  lemma ValidatePhoneIff(phone: string)
    ensures ValidatePhone(phone) <==>
      (forall k :: 0 <= k < |phone| ==> IsSpace(phone[k]))
      || exists p :: PhoneNumber.WellFormed(p) && PhoneNumber.Render(p) == Trim(phone)
    ensures ValidatePhone(phone) && !IsBlank(phone) ==>
      10 <= PhoneNumber.DigitCount(Trim(phone)) <= 12
  {
    PhoneNumber.IsValidPhoneIffWellFormed(Trim(phone));
    if ValidatePhone(phone) && !IsBlank(phone) {
      PhoneNumber.ValidPhoneDigits(Trim(phone));
    }
  }

  /** A subject of spaces only passes, where a name or message of spaces
      only fails. */
  lemma BlankSubjectPasses(s: string)
    requires s != [] && IsBlank(s)
    ensures ValidateSubject(s) && !ValidateName(s) && !ValidateMessage(s)
  {
    TrimEmptyIffBlank(s);
  }

  /** The values of the form's controls when it is submitted. */
  datatype Entries = Entries(name: string, email: string, phone: string,
                             subject: string, message: string, consent: bool)

  /** One if-block of the submit handler: the field `f` is flagged exactly
      when its validator's verdict `ok` is false. */
  function Flagged(ok: bool, f: Field): set<Field> {
    if ok then {} else {f}
  }

  /** The form controls whose validator fails. */
  function ControlFailures(v: Entries, emailPattern: string -> bool): set<Field> {
    Flagged(ValidateName(v.name), Name) + Flagged(ValidateEmail(v.email, emailPattern), Email)
    + Flagged(ValidatePhone(v.phone), Phone) + Flagged(ValidateSubject(v.subject), Subject)
    + Flagged(ValidateMessage(v.message), Message)
  }

  /** The fields whose validator fails, the consent box included: each field
      is in it exactly when its own validator fails, and its controls are
      the failing form controls. */
  function Failing(v: Entries, emailPattern: string -> bool): (bad: set<Field>)
    ensures Name in bad <==> !ValidateName(v.name)
    ensures Email in bad <==> !ValidateEmail(v.email, emailPattern)
    ensures Phone in bad <==> !ValidatePhone(v.phone)
    ensures Subject in bad <==> !ValidateSubject(v.subject)
    ensures Message in bad <==> !ValidateMessage(v.message)
    ensures Consent in bad <==> !ValidateConsent(v.consent)
    ensures bad * Controls == ControlFailures(v, emailPattern)
  {
    ControlFailures(v, emailPattern) + Flagged(ValidateConsent(v.consent), Consent)
  }

  /** No field fails exactly when all six validators pass. */
  lemma FailingEmpty(v: Entries, emailPattern: string -> bool)
    ensures Failing(v, emailPattern) == {} <==>
      && ValidateName(v.name) && ValidateEmail(v.email, emailPattern) && ValidatePhone(v.phone)
      && ValidateSubject(v.subject) && ValidateMessage(v.message) && ValidateConsent(v.consent)
  {
    var bad := Failing(v, emailPattern);
    if bad != {} {
      var f :| f in bad;
      assert f == Name || f == Email || f == Phone || f == Subject || f == Message || f == Consent;
    }
  }

  /** What `form.reset()` leaves in the controls: empty text, the select's
      empty placeholder option and an unticked box. */
  const Cleared := Entries([], [], [], [], [], false)

  /** The status line under the form: empty, the success text or the
      failure text. */
  datatype Notice = Blank | Sent | Failed

  /** The form, its hints, its counter, its submit button and its status line. */
  class Form {
    const emailPattern: string -> bool

    /** Values of the controls. */
    var values: Entries

    /** Controls carrying the `error` class. */
    var errorControls: set<Field>
    /** The consent group's `error` class. */
    var consentGroupError: bool
    /** Fields whose error hint carries `visible`. */
    var visibleHints: set<Field>
    /** Controls carrying the `filled` class. */
    var filled: set<Field>

    /** The counter's text, a number, and its `warning` class. */
    var charCount: nat
    var counterWarning: bool

    var loading: bool
    var disabled: bool
    var notice: Notice
    /** A simulated send is scheduled and has not completed. */
    var sending: bool

    /** The form as the page loads it, holding `initial`; the controls that
      already hold text that is not blank are marked `filled`
      (contact-form.js:37-40). */
    constructor (emailPattern: string -> bool, initial: Entries)
      ensures Valid() && this.emailPattern == emailPattern && values == initial
      ensures forall f :: f in filled <==> f in Controls && !IsBlank(Value(f))
      ensures errorControls == visibleHints == {} && !consentGroupError
      ensures charCount == 0 && !counterWarning
      ensures !loading && !disabled && notice == Blank && !sending
    {
      this.emailPattern := emailPattern;
      values := initial;
      errorControls, visibleHints, consentGroupError := {}, {}, false;
      charCount, counterWarning := 0, false;
      loading, disabled, notice, sending := false, false, Blank, false;
      new;
      filled := set f | f in Controls && !IsBlank(Value(f));
    }

    /** Every scheduled send finds the button disabled and loading. */
    ghost predicate Valid()
      reads this
    {
      sending ==> disabled && loading
    }

    function Value(f: Field): string
      requires f in Controls
      reads this
    {
      match f
      case Name => values.name
      case Email => values.email
      case Phone => values.phone
      case Subject => values.subject
      case Message => values.message
    }

    /** Typing in the message: the counter shows the length and warns above
      450 characters (contact-form.js:17-24). */
    method InputMessage(value: string)
      requires Valid()
      modifies this
      ensures Valid()
      ensures values == old(values).(message := value)
      ensures charCount == |value|
      ensures counterWarning <==> |value| > WarningLength
      ensures errorControls == old(errorControls) && visibleHints == old(visibleHints)
      ensures filled == old(filled) && consentGroupError == old(consentGroupError)
      ensures loading == old(loading) && disabled == old(disabled)
      ensures notice == old(notice) && sending == old(sending)
    {
      values := values.(message := value);
      charCount := |value|;
      if |value| > WarningLength {
        counterWarning := true;
      } else {
        counterWarning := false;
      }
    }

    /** Leaving a control: it is `filled` exactly when its trimmed value is
      not empty (contact-form.js:29-35). */
    method Blur(f: Field)
      requires f in Controls
      modifies this`filled
      ensures f in filled <==> !IsBlank(Value(f))
      ensures filled - {f} == old(filled) - {f}
    {
      if !IsBlank(Value(f)) {
        filled := filled + {f};
      } else {
        filled := filled - {f};
      }
    }

    /** The validation pass of the submit handler (contact-form.js:84-126):
      the `error` classes of the controls and every hint are cleared, then
      each failing field, and only it, is flagged. The consent group's
      `error` class is set on failure but never cleared, because the
      clearing loop only visits the `.form-control` elements. */
    method Validate() returns (isValid: bool)
      modifies this`errorControls, this`visibleHints, this`consentGroupError
      ensures errorControls == Failing(values, emailPattern) * Controls
      ensures visibleHints == Failing(values, emailPattern)
      ensures consentGroupError == (old(consentGroupError) || !values.consent)
      ensures isValid <==> Failing(values, emailPattern) == {}
    {
      var v := values;
      isValid := true;
      var errors: set<Field> := {};
      var hints: set<Field> := {};
      // One step per if-block: a failing field is flagged and spoils `isValid`.
      var ok := ValidateName(v.name);
      errors, hints, isValid := errors + Flagged(ok, Name), hints + Flagged(ok, Name), isValid && ok;
      ok := ValidateEmail(v.email, emailPattern);
      errors, hints, isValid := errors + Flagged(ok, Email), hints + Flagged(ok, Email), isValid && ok;
      ok := ValidatePhone(v.phone);
      errors, hints, isValid := errors + Flagged(ok, Phone), hints + Flagged(ok, Phone), isValid && ok;
      ok := ValidateSubject(v.subject);
      errors, hints, isValid := errors + Flagged(ok, Subject), hints + Flagged(ok, Subject), isValid && ok;
      ok := ValidateMessage(v.message);
      errors, hints, isValid := errors + Flagged(ok, Message), hints + Flagged(ok, Message), isValid && ok;
      ok := ValidateConsent(v.consent);
      hints, isValid := hints + Flagged(ok, Consent), isValid && ok;
      assert errors == ControlFailures(v, emailPattern);
      assert hints == Failing(v, emailPattern);
      errorControls, visibleHints := errors, hints;
      consentGroupError := consentGroupError || !ok;
      FailingEmpty(v, emailPattern);
    }

    /** The submit handler (contact-form.js:72-135): after the validation
      pass the loading state starts exactly when all six validators pass,
      and nothing else about the form changes. */
    method Submit()
      requires Valid()
      modifies this
      ensures Valid()
      ensures values == old(values)
      ensures errorControls == Failing(values, emailPattern) * Controls
      ensures visibleHints == Failing(values, emailPattern)
      ensures consentGroupError == (old(consentGroupError) || !values.consent)
      ensures Failing(values, emailPattern) == {} ==>
        loading && disabled && notice == Blank && sending
      ensures Failing(values, emailPattern) != {} ==>
        && loading == old(loading) && disabled == old(disabled)
        && notice == old(notice) && sending == old(sending)
      ensures filled == old(filled) && charCount == old(charCount)
      ensures counterWarning == old(counterWarning)
    {
      var isValid := Validate();
      if isValid {
        loading := true;
        disabled := true;
        notice := Blank;
        sending := true;
      }
    }

    /** The simulated send completing (contact-form.js:137-159); `success`
      stands for the random draw. On success the status shows the sent text,
      the form and its `filled` marks are reset, the counter reads 0 and the
      button stays disabled; on failure the button is enabled again and the
      values are kept. */
    method CompleteSend(success: bool)
      requires Valid() && sending
      modifies this
      ensures Valid()
      ensures !loading && !sending
      ensures success ==> && notice == Sent && disabled && values == Cleared
                          && filled == {} && charCount == 0
      ensures !success ==> && notice == Failed && !disabled && values == old(values)
                           && filled == old(filled) && charCount == old(charCount)
      ensures errorControls == old(errorControls) && visibleHints == old(visibleHints)
      ensures consentGroupError == old(consentGroupError)
      ensures counterWarning == old(counterWarning)
    {
      loading := false;
      sending := false;
      if success {
        notice := Sent;
        values := Cleared;
        filled := {};
        charCount := 0;
      } else {
        notice := Failed;
        disabled := false;
      }
    }
  }
}
