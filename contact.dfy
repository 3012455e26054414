/** The contact page script, js/contact.js: the submit validation with its
    per-field messages, `showError` and `removeAllErrors`, the simulated
    send, the mobile menu toggle and the scroll reveal. */
module Contact {
  import opened Text
  import opened Wrappers
  import PhoneNumber

  /** The six validated inputs. */
  datatype Field = Name | Email | Phone | Subject | Message | Privacy

  /** The inputs in the order the submit handler checks them. */
  const Fields: seq<Field> := [Name, Email, Phone, Subject, Message, Privacy]

  /** The error messages the submit handler shows. */
  datatype ErrorMessage =
    | EnterName | EnterEmail | InvalidEmail | InvalidPhone
    | EnterSubject | EnterMessage | ShortMessage | AgreePrivacy

  /** The text of each message (contact.js:122-159). */
  function MessageText(m: ErrorMessage): string {
    match m
    case EnterName => "Please enter your full name"
    case EnterEmail => "Please enter your email address"
    case InvalidEmail => "Please enter a valid email address"
    case InvalidPhone => "Please enter a valid phone number"
    case EnterSubject => "Please enter a subject"
    case EnterMessage => "Please enter your message"
    case ShortMessage => "Your message should be at least 10 characters"
    case AgreePrivacy => "Please agree to the Privacy Policy and Terms of Service"
  }

  /** The values of the inputs when the form is submitted. */
  datatype Entries = Entries(name: string, email: string, phone: string,
                             subject: string, message: string, privacy: bool)

  /** `isValidEmail` (contact.js:271-274): the lower-cased text is handed to
      a long address pattern, which this model takes as `emailPattern`. */
  predicate IsValidEmail(email: string, emailPattern: string -> bool) {
    emailPattern(ToLower(email))
  }

  /** `isValidPhone` (contact.js:279-282) tests its argument untrimmed; the
      submit handler passes it the trimmed value. */
  predicate IsValidPhone(phone: string) {
    PhoneNumber.IsValidPhone(phone)
  }

  // The message each if-block of the submit handler passes to `showError`,
  // if any (contact.js:121-160).

  function NameError(name: string): Option<ErrorMessage> {
    if Trim(name) == [] then Some(EnterName) else None
  }

  function EmailError(email: string, emailPattern: string -> bool): Option<ErrorMessage> {
    if Trim(email) == [] then Some(EnterEmail)
    else if !IsValidEmail(Trim(email), emailPattern) then Some(InvalidEmail)
    else None
  }

  function PhoneError(phone: string): Option<ErrorMessage> {
    if Trim(phone) != [] && !IsValidPhone(Trim(phone)) then Some(InvalidPhone) else None
  }

  function SubjectError(subject: string): Option<ErrorMessage> {
    if Trim(subject) == [] then Some(EnterSubject) else None
  }

  function MessageError(message: string): Option<ErrorMessage> {
    if Trim(message) == [] then Some(EnterMessage)
    else if |Trim(message)| < 10 then Some(ShortMessage)
    else None
  }

  function PrivacyError(privacy: bool): Option<ErrorMessage> {
    if !privacy then Some(AgreePrivacy) else None
  }

  /** The phone is optional: a blank phone never has an error, and any other
      phone has one exactly when its trimmed text is not the text of a
      well-formed phone number. */
  lemma PhoneErrorIff(phone: string)
    ensures IsBlank(phone) ==> PhoneError(phone) == None
    ensures !IsBlank(phone) ==>
      (PhoneError(phone) == Some(InvalidPhone) <==>
       !exists p :: PhoneNumber.WellFormed(p) && PhoneNumber.Render(p) == Trim(phone))
  {
    TrimEmptyIffBlank(phone);
    PhoneNumber.IsValidPhoneIffWellFormed(Trim(phone));
  }

  /** The message gets one message at most: "enter" exactly when it holds
      only white space, "at least 10" exactly when its trimmed length is 1
      to 9. */
  lemma MessageErrorCases(message: string)
    ensures MessageError(message) == Some(EnterMessage) <==> IsBlank(message)
    ensures MessageError(message) == Some(ShortMessage) <==> 1 <= |Trim(message)| <= 9
    ensures MessageError(message) == None <==> |Trim(message)| >= 10
  {
    TrimEmptyIffBlank(message);
  }

  /** The outcome of the six if-blocks: each field's message, if any. */
  datatype Verdict = Verdict(
    name: Option<ErrorMessage>, email: Option<ErrorMessage>, phone: Option<ErrorMessage>,
    subject: Option<ErrorMessage>, message: Option<ErrorMessage>, privacy: Option<ErrorMessage>)

  /** The message for field `f` in verdict `d`. */
  function Of(d: Verdict, f: Field): Option<ErrorMessage> {
    match f
    case Name => d.name
    case Email => d.email
    case Phone => d.phone
    case Subject => d.subject
    case Message => d.message
    case Privacy => d.privacy
  }

  /** The verdict of the submit handler on the values `v`. */
  function Judge(v: Entries, emailPattern: string -> bool): Verdict {
    Verdict(NameError(v.name), EmailError(v.email, emailPattern), PhoneError(v.phone),
            SubjectError(v.subject), MessageError(v.message), PrivacyError(v.privacy))
  }

  /** The message for field `f`, if any. */
  function FieldError(v: Entries, f: Field, emailPattern: string -> bool): Option<ErrorMessage> {
    Of(Judge(v, emailPattern), f)
  }

  /** Each field's message is its entry in the verdict. */
  lemma FieldErrorOfJudge(v: Entries, emailPattern: string -> bool, d: Verdict)
    requires d == Judge(v, emailPattern)
    ensures FieldError(v, Name, emailPattern) == d.name && FieldError(v, Email, emailPattern) == d.email
    ensures FieldError(v, Phone, emailPattern) == d.phone && FieldError(v, Subject, emailPattern) == d.subject
    ensures FieldError(v, Message, emailPattern) == d.message && FieldError(v, Privacy, emailPattern) == d.privacy
  {
  }

  /** `{f}` when `e` is an error, `{}` otherwise. */
  function Flagged(e: Option<ErrorMessage>, f: Field): set<Field> {
    if e.Some? then {f} else {}
  }

  /** The fields with a message in verdict `d`. */
  function Errant(d: Verdict): (bad: set<Field>)
    ensures forall f :: f in bad <==> Of(d, f).Some?
  {
    Flagged(d.name, Name) + Flagged(d.email, Email) + Flagged(d.phone, Phone)
    + Flagged(d.subject, Subject) + Flagged(d.message, Message) + Flagged(d.privacy, Privacy)
  }

  /** The fields the submit handler reports an error for. */
  function Failing(v: Entries, emailPattern: string -> bool): (bad: set<Field>)
    ensures forall f :: f in bad <==> FieldError(v, f, emailPattern).Some?
  {
    Errant(Judge(v, emailPattern))
  }

  /** The form is sent exactly when no field has an error: name, subject and
      message are not blank, the email is valid, the phone is blank or
      valid, the message has at least 10 characters once trimmed and the
      privacy box is ticked. */
  lemma FailingEmptyIff(v: Entries, emailPattern: string -> bool)
    ensures Failing(v, emailPattern) == {} <==>
      && !IsBlank(v.name) && !IsBlank(v.subject) && !IsBlank(v.message)
      && !IsBlank(v.email) && IsValidEmail(Trim(v.email), emailPattern)
      && (IsBlank(v.phone) || IsValidPhone(Trim(v.phone)))
      && |Trim(v.message)| >= 10 && v.privacy
  {
    TrimEmptyIffBlank(v.name);
    TrimEmptyIffBlank(v.email);
    TrimEmptyIffBlank(v.phone);
    TrimEmptyIffBlank(v.subject);
    TrimEmptyIffBlank(v.message);
  }

  /** Field `f` as marked by its if-block: when it has message `e` and its
      input sits in a group. */
  function Mark(e: Option<ErrorMessage>, f: Field, grouped: set<Field>): set<Field> {
    if e.Some? && f in grouped then {f} else {}
  }

  /** The marks of the six if-blocks together are the grouped fields with a
      message. */
  lemma MarksAreErrant(d: Verdict, grouped: set<Field>)
    ensures Mark(d.name, Name, grouped) + Mark(d.email, Email, grouped)
      + Mark(d.phone, Phone, grouped) + Mark(d.subject, Subject, grouped)
      + Mark(d.message, Message, grouped) + Mark(d.privacy, Privacy, grouped)
      == Errant(d) * grouped
  {
  }

  /** The group message elements after field `f`'s if-block: a grouped
      field with message `e` has an element holding it. */
  function WithMessage(m: map<Field, ErrorMessage>, e: Option<ErrorMessage>, f: Field,
                       grouped: set<Field>): map<Field, ErrorMessage> {
    if e.Some? && f in grouped then m[f := e.value] else m
  }

  /** The group message elements after all six if-blocks. */
  function WithMessages(m: map<Field, ErrorMessage>, d: Verdict, grouped: set<Field>): map<Field, ErrorMessage> {
    var m1 := WithMessage(m, d.name, Name, grouped);
    var m2 := WithMessage(m1, d.email, Email, grouped);
    var m3 := WithMessage(m2, d.phone, Phone, grouped);
    var m4 := WithMessage(m3, d.subject, Subject, grouped);
    var m5 := WithMessage(m4, d.message, Message, grouped);
    WithMessage(m5, d.privacy, Privacy, grouped)
  }

  /** After the six if-blocks each grouped field with a message has an
      element holding that field's own message, the other elements are as
      they were, and an element is created only for such a field. */
  lemma WithMessagesSpec(m: map<Field, ErrorMessage>, d: Verdict, grouped: set<Field>)
    ensures forall f :: f in WithMessages(m, d, grouped) <==> f in m || f in Errant(d) * grouped
    ensures forall f :: f in Errant(d) * grouped ==> Some(WithMessages(m, d, grouped)[f]) == Of(d, f)
    ensures forall f :: f in m && f !in Errant(d) * grouped ==> WithMessages(m, d, grouped)[f] == m[f]
  {
    var r := WithMessages(m, d, grouped);
    forall f
      ensures f in r <==> f in m || f in Errant(d) * grouped
      ensures f in Errant(d) * grouped ==> Some(r[f]) == Of(d, f)
      ensures f in m && f !in Errant(d) * grouped ==> r[f] == m[f]
    {
      match f
      case Name =>
      case Email =>
      case Phone =>
      case Subject =>
      case Message =>
      case Privacy =>
    }
  }

  /** The submit button's content: the original one, or the spinner. */
  datatype ButtonLabel = Original | Sending

  /** What `form.reset()` leaves in the inputs. */
  const Cleared := Entries([], [], [], [], [], false)

  /** The contact form: the inputs, their groups' error messages and
      `has-error` marks, the submit button and the response banner. */
  class ContactForm {
    const emailPattern: string -> bool
    /** The fields whose input sits inside a `.form-group`. */
    const grouped: set<Field>
    /** Whether the page has the `#formResponse` banner. */
    const hasResponse: bool

    var values: Entries
    /** Inputs whose parent carries `has-error`. */
    var hasError: set<Field>
    /** The `.error-message` element of each field's group, by the message
      it holds; a group has one exactly when it is a key, so never two.
      Keying by field assumes one input per `.form-group`, as on the page:
      two inputs in one group would share, and overwrite, one element. */
    var errorText: map<Field, ErrorMessage>
    /** Error messages displayed. */
    var errorShown: set<Field>

    var disabled: bool
    var buttonLabel: ButtonLabel
    /** The label to restore when the send completes. */
    var savedLabel: ButtonLabel
    /** A send is scheduled and has not completed. */
    var sending: bool
    var responseShown: bool

    /** The page as loaded: no message element exists yet. */
    constructor (emailPattern: string -> bool, grouped: set<Field>, hasResponse: bool, initial: Entries)
      ensures Valid()
      ensures this.emailPattern == emailPattern && this.grouped == grouped
      ensures this.hasResponse == hasResponse && values == initial
      ensures hasError == {} && errorText == map[] && errorShown == {}
      ensures !disabled && buttonLabel == Original && !sending && !responseShown
    {
      this.emailPattern := emailPattern;
      this.grouped := grouped;
      this.hasResponse := hasResponse;
      values := initial;
      hasError, errorText, errorShown := {}, map[], {};
      disabled, buttonLabel, savedLabel, sending, responseShown := false, Original, Original, false, false;
    }

    /** Only grouped inputs ever carry error state, and a scheduled send
      finds the button disabled. */
    ghost predicate Valid()
      reads this
    {
      && hasError <= grouped && errorText.Keys <= grouped && errorShown <= errorText.Keys
      && (sending ==> disabled) && (responseShown ==> hasResponse)
    }

    /** `showError` (contact.js:224-249): nothing happens outside a group;
      otherwise the group's message element is created only when it has
      none, so a group never holds two, and it shows `msg`. */
    method ShowError(f: Field, msg: ErrorMessage)
      requires Valid()
      modifies this`hasError, this`errorText, this`errorShown
      ensures Valid()
      ensures f !in grouped ==>
        hasError == old(hasError) && errorText == old(errorText) && errorShown == old(errorShown)
      ensures f in grouped ==>
        && hasError == old(hasError) + {f}
        && errorText == old(errorText)[f := msg]
        && errorShown == old(errorShown) + {f}
      ensures errorText.Keys == old(errorText.Keys) + ({f} * grouped)
    {
      if f !in grouped {
        return;
      }
      hasError := hasError + {f};
      // Updating the group's entry reuses its element when it has one and
      // creates it otherwise.
      errorText := errorText[f := msg];
      errorShown := errorShown + {f};
    }

    /** `removeAllErrors` (contact.js:254-266): every message element is
      hidden, keeping its text, and no input's parent keeps `has-error`. */
    method RemoveAllErrors()
      requires Valid()
      modifies this`hasError, this`errorShown
      ensures Valid()
      ensures hasError == {} && errorShown == {}
    {
      var i := 0;
      while i < |Fields|
        invariant 0 <= i <= |Fields|
        invariant Valid()
        invariant forall j :: 0 <= j < i ==> Fields[j] !in errorShown && Fields[j] !in hasError
      {
        errorShown := errorShown - {Fields[i]};
        hasError := hasError - {Fields[i]};
        i := i + 1;
      }
      forall f: Field ensures f !in errorShown && f !in hasError {
        assert Fields[FieldIndex(f)] == f;
      }
    }

    /** The if-block of field `f` in the submit handler (contact.js:121-160):
      `showError` is called with the field's message when it has one. */
    method Report(f: Field)
      requires Valid()
      modifies this`hasError, this`errorText, this`errorShown
      ensures Valid()
      ensures hasError == old(hasError) + Mark(FieldError(values, f, emailPattern), f, grouped)
      ensures errorShown == old(errorShown) + Mark(FieldError(values, f, emailPattern), f, grouped)
      ensures errorText == WithMessage(old(errorText), FieldError(values, f, emailPattern), f, grouped)
    {
      var e := FieldError(values, f, emailPattern);
      if e.Some? {
        ShowError(f, e.value);
      }
    }

    /** The six if-blocks of the submit handler, in order (contact.js:121-160),
      run after `removeAllErrors`: exactly the grouped fields with an error
      are marked and show their own message, and a group gets a message
      element only when one of its fields fails. */
    method ReportAll()
      requires Valid() && hasError == {} && errorShown == {}
      modifies this`hasError, this`errorText, this`errorShown
      ensures Valid()
      ensures hasError == Failing(values, emailPattern) * grouped
      ensures errorShown == Failing(values, emailPattern) * grouped
      ensures forall f :: f in grouped && f in Failing(values, emailPattern) ==>
        f in errorText && Some(errorText[f]) == FieldError(values, f, emailPattern)
      ensures forall f :: f in errorText <==> f in old(errorText) || f in Failing(values, emailPattern) * grouped
    {
      ghost var before := errorText;
      ghost var d := Judge(values, emailPattern);
      FieldErrorOfJudge(values, emailPattern, d);
      Report(Name);
      assert hasError == errorShown == Mark(d.name, Name, grouped);
      Report(Email);
      Report(Phone);
      Report(Subject);
      Report(Message);
      Report(Privacy);
      assert hasError == errorShown == Mark(d.name, Name, grouped) + Mark(d.email, Email, grouped)
        + Mark(d.phone, Phone, grouped) + Mark(d.subject, Subject, grouped)
        + Mark(d.message, Message, grouped) + Mark(d.privacy, Privacy, grouped);
      MarksAreErrant(d, grouped);
      assert errorText == WithMessages(before, d, grouped);
      WithMessagesSpec(before, d, grouped);
    }

    /** The submit handler (contact.js:101-169): the old errors are removed,
      the six fields are checked, and the send starts exactly when no field
      has an error. A disabled submit button cannot submit the form, so the
      handler runs only while it is enabled. */
    method Submit()
      requires Valid() && !disabled
      modifies this
      ensures Valid()
      ensures values == old(values)
      ensures hasError == Failing(values, emailPattern) * grouped
      ensures errorShown == Failing(values, emailPattern) * grouped
      ensures forall f :: f in grouped && f in Failing(values, emailPattern) ==>
        f in errorText && Some(errorText[f]) == FieldError(values, f, emailPattern)
      ensures forall f :: f in errorText <==> f in old(errorText) || f in Failing(values, emailPattern) * grouped
      ensures Failing(values, emailPattern) == {} ==> disabled && buttonLabel == Sending && sending
      ensures Failing(values, emailPattern) != {} ==> !disabled && buttonLabel == old(buttonLabel) && !sending
      ensures savedLabel == if Failing(values, emailPattern) == {} then old(buttonLabel) else old(savedLabel)
      ensures responseShown == old(responseShown)
    {
      RemoveAllErrors();
      ReportAll();
      if Failing(values, emailPattern) == {} {
        savedLabel := buttonLabel;
        disabled := true;
        buttonLabel := Sending;
        sending := true;
      }
    }

    /** The send completing after 1.5 seconds (contact.js:171-185): the
      banner shows success when the page has one, the form is reset and the
      button is enabled with its label restored. */
    method CompleteSend()
      requires Valid() && sending
      modifies this
      ensures Valid()
      ensures responseShown == (old(responseShown) || hasResponse)
      ensures values == Cleared && !disabled && buttonLabel == old(savedLabel) && !sending
      ensures hasError == old(hasError) && errorText == old(errorText) && errorShown == old(errorShown)
    {
      if hasResponse {
        responseShown := true;
      }
      values := Cleared;
      disabled := false;
      buttonLabel := savedLabel;
      sending := false;
    }

    /** Five seconds later the banner is hidden again (contact.js:187-191). */
    method HideResponse()
      requires Valid()
      modifies this`responseShown
      ensures Valid() && !responseShown
    {
      if hasResponse {
        responseShown := false;
      }
    }
  }

  /** Position of `f` in `Fields`. */
  function FieldIndex(f: Field): (i: nat)
    ensures i < |Fields| && Fields[i] == f
  {
    match f
    case Name => 0
    case Email => 1
    case Phone => 2
    case Subject => 3
    case Message => 4
    case Privacy => 5
  }

  /** The mobile menu: the toggle button's and the menu's `active` flags
      (contact.js:64-92). */
  class MobileMenu {
    var toggleActive: bool
    var menuActive: bool

    constructor ()
      ensures Valid() && !menuActive
    {
      toggleActive, menuActive := false, false;
    }

    /** The two flags agree. */
    predicate Valid()
      reads this
    {
      toggleActive == menuActive
    }

    /** A click on the toggle flips both flags (contact.js:71-74). */
    method ToggleClick()
      requires Valid()
      modifies this
      ensures Valid() && menuActive == !old(menuActive)
    {
      toggleActive := !toggleActive;
      menuActive := !menuActive;
    }

    /** A click on a navigation link closes the menu (contact.js:79-82). */
    method LinkClick()
      requires Valid()
      modifies this
      ensures Valid() && !menuActive
    {
      toggleActive := false;
      menuActive := false;
    }

    /** A click anywhere else on the page: the menu closes when the click is
      outside both the toggle and the menu while the menu is open
      (contact.js:86-91). */
    method DocumentClick(inToggle: bool, inMenu: bool)
      requires Valid()
      modifies this
      ensures Valid()
      ensures menuActive == (old(menuActive) && (inToggle || inMenu))
    {
      if !inToggle && !inMenu && menuActive {
        toggleActive := false;
        menuActive := false;
      }
    }
  }

  /** How far above the bottom of the viewport an element's top must be for
      it to be revealed. */
  const RevealMargin := 150

  /** The `.reveal` elements and their `reveal-active` class (contact.js:338-368). */
  class Reveal {
    var active: seq<bool>

    constructor (n: nat)
      ensures active == seq(n, i => false)
    {
      active := seq(n, i => false);
    }

    /** `checkReveal`: every element whose top lies above
      `innerHeight - 150` gains `reveal-active`; none loses it. `tops` are the
      elements' current distances from the top of the viewport. */
    method CheckReveal(tops: seq<int>, innerHeight: int)
      requires |tops| == |active|
      modifies this
      ensures |active| == |old(active)|
      ensures forall i :: 0 <= i < |active| ==>
        active[i] == (old(active[i]) || tops[i] < innerHeight - RevealMargin)
    {
      var i := 0;
      while i < |active|
        invariant 0 <= i <= |active| == |old(active)|
        invariant forall j :: 0 <= j < i ==>
          active[j] == (old(active[j]) || tops[j] < innerHeight - RevealMargin)
        invariant forall j :: i <= j < |active| ==> active[j] == old(active[j])
      {
        if tops[i] < innerHeight - RevealMargin {
          active := active[i := true];
        }
        i := i + 1;
      }
    }
  }
}
