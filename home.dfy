/** The home page script, js/script.js: the scroll animations, the floating
    labels, the contact form check with `showError`, and the testimonial
    slider of `setupTestimonialsSlider`. */
module Home {
  import opened Text
  import opened Wrappers
  import opened Selection
  import SimpleEmail

  // ---------------------------------------------------------------------
  // Scroll animations (script.js:1-27)
  // ---------------------------------------------------------------------

  /** `isInViewport`: the element's top is at most 80% of the window height
      down and its bottom is not above the window. */
  predicate InViewport(top: int, bottom: int, innerHeight: int) {
    5 * top <= 4 * innerHeight && bottom >= 0
  }

  /** The animated elements, by whether they carry `animated` and by how
      many times their animation was restarted. */
  class ScrollAnimations {
    var animated: seq<bool>
    var restarts: seq<nat>

    /** Each element is animated exactly when its animation ran once. */
    ghost predicate Valid()
      reads this
    {
      && |restarts| == |animated|
      && forall i :: 0 <= i < |animated| ==> restarts[i] <= 1 && (animated[i] <==> restarts[i] == 1)
    }

    constructor (n: nat)
      ensures Valid() && animated == seq(n, i => false) && restarts == seq(n, i => 0)
    {
      animated := seq(n, i => false);
      restarts := seq(n, i => 0);
    }

    /** `handleScrollAnimations` (script.js:11-27), element `i` being at
      `tops[i]` to `bottoms[i]`: an element in view gains `animated`, and
      its animation restarts, only if it does not have it yet; no element
      loses it. */
    method Handle(tops: seq<int>, bottoms: seq<int>, innerHeight: int)
      requires Valid() && |tops| == |bottoms| == |animated|
      modifies this
      ensures Valid() && |animated| == old(|animated|)
      ensures forall i :: 0 <= i < |animated| ==>
        animated[i] == (old(animated[i]) || InViewport(tops[i], bottoms[i], innerHeight))
      ensures forall i :: 0 <= i < |animated| && old(animated[i]) ==> restarts[i] == old(restarts[i])
    {
      var i := 0;
      while i < |animated|
        invariant 0 <= i <= |animated| == old(|animated|)
        invariant Valid()
        invariant forall j :: 0 <= j < i ==>
          animated[j] == (old(animated[j]) || InViewport(tops[j], bottoms[j], innerHeight))
        invariant forall j :: 0 <= j < i && old(animated[j]) ==> restarts[j] == old(restarts[j])
        invariant forall j :: i <= j < |animated| ==> animated[j] == old(animated[j]) && restarts[j] == old(restarts[j])
      {
        if InViewport(tops[i], bottoms[i], innerHeight) {
          if !animated[i] {
            animated := animated[i := true];
            restarts := restarts[i := restarts[i] + 1];
          }
        }
        i := i + 1;
      }
    }
  }

  // ---------------------------------------------------------------------
  // Floating labels (script.js:96-118)
  // ---------------------------------------------------------------------

  /** The form's inputs and textareas: their values and whether they carry
      `has-value`. */
  class FloatingLabels {
    var values: seq<string>
    var hasValue: seq<bool>

    /** Every input carries `has-value` exactly when its value is not the
      empty string; a value of spaces counts as a value. */
    ghost predicate Valid()
      reads this
    {
      |hasValue| == |values| && forall i :: 0 <= i < |values| ==> (hasValue[i] <==> values[i] != [])
    }

    /** The page as loaded: no input carries `has-value`. */
    constructor (values: seq<string>)
      ensures this.values == values && hasValue == seq(|values|, i => false)
    {
      this.values := values;
      hasValue := seq(|values|, i => false);
    }

    /** `setupFloatingLabels` (script.js:97-107): an input with a value on
      load gains `has-value`. */
    method Setup()
      requires |hasValue| == |values|
      modifies this`hasValue
      ensures |hasValue| == |values|
      ensures forall i :: 0 <= i < |values| ==> hasValue[i] == (old(hasValue[i]) || values[i] != [])
      ensures old(hasValue) == seq(|values|, i => false) ==> Valid()
    {
      var i := 0;
      while i < |values|
        invariant 0 <= i <= |values| == |hasValue|
        invariant forall j :: 0 <= j < i ==> hasValue[j] == (old(hasValue[j]) || values[j] != [])
        invariant forall j :: i <= j < |values| ==> hasValue[j] == old(hasValue[j])
      {
        if values[i] != [] {
          hasValue := hasValue[i := true];
        }
        i := i + 1;
      }
    }

    /** The `input` handler of input `k` (script.js:110-116). */
    method Input(k: nat, value: string)
      requires Valid() && k < |values|
      modifies this
      ensures Valid()
      ensures values == old(values)[k := value]
      ensures hasValue[k] == (value != [])
    {
      values := values[k := value];
      if value != [] {
        hasValue := hasValue[k := true];
      } else {
        hasValue := hasValue[k := false];
      }
    }
  }

  // ---------------------------------------------------------------------
  // Contact form (script.js:120-215)
  // ---------------------------------------------------------------------

  datatype Field = FullName | Email | Subject | Message

  /** The messages `showError` is given. */
  datatype Hint = EnterName | EnterEmail | InvalidEmail | EnterSubject | EnterMessage

  datatype Entries = Entries(fullName: string, email: string, subject: string, message: string)

  /** What `contactForm.reset()` leaves in the inputs. */
  const Cleared := Entries([], [], [], [])

  function NameHint(fullName: string): Option<Hint> {
    if Trim(fullName) == [] then Some(EnterName) else None
  }

  /** The email is matched untrimmed, by `isValidEmail`. */
  function EmailHint(email: string): Option<Hint> {
    if Trim(email) == [] then Some(EnterEmail)
    else if !SimpleEmail.IsValidEmail(email) then Some(InvalidEmail)
    else None
  }

  function SubjectHint(subject: string): Option<Hint> {
    if Trim(subject) == [] then Some(EnterSubject) else None
  }

  function MessageHint(message: string): Option<Hint> {
    if Trim(message) == [] then Some(EnterMessage) else None
  }

  /** The outcome of the four checks: each field's message, if any. */
  datatype Verdict = Verdict(fullName: Option<Hint>, email: Option<Hint>, subject: Option<Hint>, message: Option<Hint>)

  /** The message for field `f` in verdict `d`. */
  function Of(d: Verdict, f: Field): Option<Hint> {
    match f
    case FullName => d.fullName
    case Email => d.email
    case Subject => d.subject
    case Message => d.message
  }

  /** The verdict of the submit handler on the values `v`. */
  function Judge(v: Entries): Verdict {
    Verdict(NameHint(v.fullName), EmailHint(v.email), SubjectHint(v.subject), MessageHint(v.message))
  }

  /** The message of field `f`, if it has one. */
  function HintOf(v: Entries, f: Field): Option<Hint> {
    Of(Judge(v), f)
  }

  /** Each field's message is its entry in the verdict. */
  lemma HintOfJudge(v: Entries, d: Verdict)
    requires d == Judge(v)
    ensures HintOf(v, FullName) == d.fullName && HintOf(v, Email) == d.email
    ensures HintOf(v, Subject) == d.subject && HintOf(v, Message) == d.message
  {
  }

  /** `{f}` when `h` is a message, `{}` otherwise. */
  function Flagged(h: Option<Hint>, f: Field): set<Field> {
    if h.Some? then {f} else {}
  }

  /** The fields with a message in verdict `d`. */
  function Errant(d: Verdict): (bad: set<Field>)
    ensures forall f :: f in bad <==> Of(d, f).Some?
  {
    Flagged(d.fullName, FullName) + Flagged(d.email, Email) + Flagged(d.subject, Subject) + Flagged(d.message, Message)
  }

  /** The fields `showError` is called for. */
  function Failing(v: Entries): (bad: set<Field>)
    ensures forall f :: f in bad <==> HintOf(v, f).Some?
  {
    Errant(Judge(v))
  }

  /** The message elements after `showError` is called for field `f` when
      it has message `h`. */
  function Put(m: map<Field, Hint>, h: Option<Hint>, f: Field): map<Field, Hint> {
    if h.Some? then m[f := h.value] else m
  }

  /** The message elements after the four checks. */
  function PutAll(m: map<Field, Hint>, d: Verdict): map<Field, Hint> {
    Put(Put(Put(Put(m, d.fullName, FullName), d.email, Email), d.subject, Subject), d.message, Message)
  }

  /** After the four checks each failing field's group has an element
      holding its own message, the others are as they were, and an element
      is created only for a failing field. */
  lemma PutAllSpec(m: map<Field, Hint>, d: Verdict)
    ensures forall f :: f in PutAll(m, d) <==> f in m || f in Errant(d)
    ensures forall f :: f in Errant(d) ==> Some(PutAll(m, d)[f]) == Of(d, f)
    ensures forall f :: f in m && f !in Errant(d) ==> PutAll(m, d)[f] == m[f]
  {
    var r := PutAll(m, d);
    forall f
      ensures f in r <==> f in m || f in Errant(d)
      ensures f in Errant(d) ==> Some(r[f]) == Of(d, f)
      ensures f in m && f !in Errant(d) ==> r[f] == m[f]
    {
      match f
      case FullName =>
      case Email =>
      case Subject =>
      case Message =>
    }
  }

  /** The form is sent exactly when name, subject and message are not blank
      and the email matches the address pattern. */
  lemma FailingEmptyIff(v: Entries)
    ensures Failing(v) == {} <==>
      !IsBlank(v.fullName) && !IsBlank(v.subject) && !IsBlank(v.message) && SimpleEmail.IsValidEmail(v.email)
  {
    TrimEmptyIffBlank(v.fullName);
    TrimEmptyIffBlank(v.email);
    TrimEmptyIffBlank(v.subject);
    TrimEmptyIffBlank(v.message);
    if SimpleEmail.IsValidEmail(v.email) {
      assert !IsSpace(v.email[0]);
    }
  }

  /** The email gets one message at most: a blank email is only asked for,
      never called invalid, and a non-blank one is called invalid exactly
      when it fails the pattern. */
  lemma EmailHintCases(email: string)
    ensures EmailHint(email) == Some(EnterEmail) <==> IsBlank(email)
    ensures EmailHint(email) == Some(InvalidEmail) <==> !IsBlank(email) && !SimpleEmail.IsValidEmail(email)
  {
    TrimEmptyIffBlank(email);
  }

  /** The submit button's content. */
  datatype ButtonLabel = Original | Sending | Sent

  /** The home page contact form: the inputs, their groups' `error` class
      and message elements, and the submit button. */
  class ContactForm {
    var values: Entries
    /** Form groups carrying `error`. */
    var errorGroups: set<Field>
    /** The `.error-message` element of each field's group, by its text;
      a group has one exactly when it is a key, so never two. */
    var errorText: map<Field, Hint>
    var buttonLabel: ButtonLabel
    var disabled: bool
    var success: bool

    constructor (initial: Entries)
      ensures values == initial && errorGroups == {} && errorText == map[]
      ensures buttonLabel == Original && !disabled && !success
    {
      values := initial;
      errorGroups := {};
      errorText := map[];
      buttonLabel := Original;
      disabled := false;
      success := false;
    }

    /** `showError` (script.js:196-209): the group gains `error` and its
      message element, created when missing, shows `msg`. */
    method ShowError(f: Field, msg: Hint)
      modifies this`errorGroups, this`errorText
      ensures errorGroups == old(errorGroups) + {f}
      ensures errorText == old(errorText)[f := msg]
    {
      errorGroups := errorGroups + {f};
      errorText := errorText[f := msg];
    }

    /** The if-block of field `f` in the submit handler (script.js:142-167):
      `showError` is called with the field's message when it has one. */
    method Report(f: Field) returns (failed: bool)
      modifies this`errorGroups, this`errorText
      ensures failed <==> HintOf(values, f).Some?
      ensures errorGroups == old(errorGroups) + Flagged(HintOf(values, f), f)
      ensures errorText == Put(old(errorText), HintOf(values, f), f)
    {
      var h := HintOf(values, f);
      failed := h.Some?;
      if failed {
        ShowError(f, h.value);
      }
    }

    /** The submit handler (script.js:126-191): the `error` classes are
      cleared, each failing field's group is marked and shows the field's
      message, and the button starts sending exactly when no field fails.
      A disabled submit button cannot submit the form. */
    method Submit()
      requires !disabled
      modifies this
      ensures values == old(values)
      ensures errorGroups == Failing(values)
      ensures forall f :: f in errorText <==> f in old(errorText) || f in Failing(values)
      ensures forall f :: f in Failing(values) ==> Some(errorText[f]) == HintOf(values, f)
      ensures forall f :: f in old(errorText) && f !in Failing(values) ==> errorText[f] == old(errorText)[f]
      ensures Failing(values) == {} ==> buttonLabel == Sending && disabled
      ensures Failing(values) != {} ==> buttonLabel == old(buttonLabel) && !disabled
      ensures success == old(success)
    {
      ghost var d := Judge(values);
      ghost var before := errorText;
      HintOfJudge(values, d);
      errorGroups := {};
      var nameFailed := Report(FullName);
      assert errorGroups == Flagged(d.fullName, FullName);
      var emailFailed := Report(Email);
      var subjectFailed := Report(Subject);
      var messageFailed := Report(Message);
      var isValid := !(nameFailed || emailFailed || subjectFailed || messageFailed);
      assert errorGroups == Errant(d) && errorText == PutAll(before, d);
      assert isValid <==> Errant(d) == {};
      PutAllSpec(before, d);
      if isValid {
        buttonLabel := Sending;
        disabled := true;
      }
    }

    /** The first timer, 1.5 seconds after a valid submit
      (script.js:179-181). */
    method MarkSent()
      modifies this`buttonLabel, this`success
      ensures buttonLabel == Sent && success
    {
      buttonLabel := Sent;
      success := true;
    }

    /** The second timer, 3 seconds later (script.js:184-189): the form is
      reset and the button restored. */
    method Restore()
      modifies this`values, this`buttonLabel, this`disabled, this`success
      ensures values == Cleared && buttonLabel == Original && !disabled && !success
    {
      values := Cleared;
      buttonLabel := Original;
      disabled := false;
      success := false;
    }
  }

  // ---------------------------------------------------------------------
  // Testimonials slider (script.js:254-379)
  // ---------------------------------------------------------------------

  /** `calculateSlidesPerView`: 3 cards from 1024 pixels up, 2 from 768, 1
      below. */
  function SlidesPerView(innerWidth: int): (n: int)
    ensures 1 <= n <= 3
    ensures n == 3 <==> innerWidth >= 1024
    ensures n == 2 <==> 768 <= innerWidth < 1024
    ensures n == 1 <==> innerWidth < 768
  {
    if innerWidth >= 1024 then 3 else if innerWidth >= 768 then 2 else 1
  }

  /** `goToSlide`'s bounds check: a negative index becomes 0, and an index
      past the last start position `cardCount - perView` becomes it, which
      is negative when fewer cards than `perView` exist. */
  function Clamp(index: int, cardCount: int, perView: int): int {
    if index < 0 then 0 else if index > cardCount - perView then cardCount - perView else index
  }

  /** With at least `perView` cards the index stays a start position; with
      fewer, any non-negative request lands on the negative index
      `cardCount - perView`. */
  lemma ClampRange(index: int, cardCount: int, perView: int)
    ensures cardCount >= perView ==> 0 <= Clamp(index, cardCount, perView) <= cardCount - perView
    ensures cardCount >= perView && 0 <= index <= cardCount - perView ==> Clamp(index, cardCount, perView) == index
    ensures cardCount < perView && index >= 0 ==> Clamp(index, cardCount, perView) == cardCount - perView < 0
  {
  }

  /** The slider's closure state: the current start card, the window width
      it was laid out for, and the `.dot` elements by whether they carry
      `active`. */
  class TestimonialsSlider {
    const cardCount: nat
    var innerWidth: int
    var currentIndex: int
    var dots: seq<bool>

    /** The index is a start position whenever there are enough cards, and
      0 or `cardCount - perView` otherwise. */
    ghost predicate Valid()
      reads this
    {
      var perView := SlidesPerView(innerWidth);
      && (cardCount >= perView ==> 0 <= currentIndex <= cardCount - perView)
      && (cardCount < perView ==> currentIndex == 0 || currentIndex == cardCount - perView)
    }

    /** `initSlider` on load (script.js:262-267, 342). */
    constructor (cardCount: nat, innerWidth: int, dots: seq<bool>)
      requires cardCount > 0
      ensures Valid() && this.cardCount == cardCount && this.innerWidth == innerWidth
      ensures currentIndex == Clamp(0, cardCount, SlidesPerView(innerWidth))
      ensures this.dots == OneHot(|dots|, currentIndex)
    {
      this.cardCount := cardCount;
      this.innerWidth := innerWidth;
      currentIndex := 0;
      this.dots := dots;
      new;
      GoToSlide(0);
    }

    /** `goToSlide(index)` (script.js:296-310), also a dot click
      (script.js:368-374): the index is clamped and only the dot at it is
      active. */
    method GoToSlide(index: int)
      modifies this`currentIndex, this`dots
      ensures Valid()
      ensures currentIndex == Clamp(index, cardCount, SlidesPerView(innerWidth))
      ensures dots == OneHot(old(|dots|), currentIndex)
    {
      var i := index;
      if i < 0 {
        i := 0;
      } else if i > cardCount - SlidesPerView(innerWidth) {
        i := cardCount - SlidesPerView(innerWidth);
      }
      currentIndex := i;
      ClampRange(index, cardCount, SlidesPerView(innerWidth));
      dots := MarkOnly(dots, currentIndex);
    }

    /** The next arrow (script.js:313-315, 359-365). */
    method NextSlide()
      modifies this`currentIndex, this`dots
      ensures Valid()
      ensures currentIndex == Clamp(old(currentIndex) + 1, cardCount, SlidesPerView(innerWidth))
      ensures dots == OneHot(old(|dots|), currentIndex)
    {
      GoToSlide(currentIndex + 1);
    }

    /** The prev arrow (script.js:318-320, 351-357). */
    method PrevSlide()
      modifies this`currentIndex, this`dots
      ensures Valid()
      ensures currentIndex == Clamp(old(currentIndex) - 1, cardCount, SlidesPerView(innerWidth))
      ensures dots == OneHot(old(|dots|), currentIndex)
    {
      GoToSlide(currentIndex - 1);
    }

    /** The five-second auto-slide (script.js:325-331): one card on until
      the last start position, then back to the first. */
    method AutoSlide()
      requires Valid()
      modifies this`currentIndex, this`dots
      ensures Valid()
      ensures dots == OneHot(old(|dots|), currentIndex)
      ensures currentIndex == AutoStep(old(currentIndex), cardCount, SlidesPerView(innerWidth))
      ensures cardCount >= SlidesPerView(innerWidth) ==>
        currentIndex == if old(currentIndex) < cardCount - SlidesPerView(innerWidth) then old(currentIndex) + 1 else 0
      ensures cardCount < SlidesPerView(innerWidth) ==> currentIndex == cardCount - SlidesPerView(innerWidth)
    {
      if currentIndex < cardCount - SlidesPerView(innerWidth) {
        NextSlide();
      } else {
        GoToSlide(0);
      }
    }

    /** A window resize (script.js:346-348): the layout is redone for the
      new width and the current index clamped again. */
    method Resize(width: int)
      modifies this
      ensures Valid() && innerWidth == width
      ensures currentIndex == Clamp(old(currentIndex), cardCount, SlidesPerView(width))
      ensures dots == OneHot(old(|dots|), currentIndex)
    {
      innerWidth := width;
      GoToSlide(currentIndex);
    }
  }

  /** The index after one auto-slide, as `AutoSlide` moves it. */
  function AutoStep(i: int, cardCount: int, perView: int): int {
    if i < cardCount - perView then Clamp(i + 1, cardCount, perView) else Clamp(0, cardCount, perView)
  }

  /** `n` auto-slides from index `i`. */
  function Iterate(i: int, n: nat, cardCount: int, perView: int): int {
    if n == 0 then i else AutoStep(Iterate(i, n - 1, cardCount, perView), cardCount, perView)
  }

  /** From the first card, `k` auto-slides reach card `k`, up to the last
      start position. */
  lemma {:induction false} IterateFromFirst(k: nat, cardCount: int, perView: int)
    requires k <= cardCount - perView
    ensures Iterate(0, k, cardCount, perView) == k
  {
    if k > 0 {
      IterateFromFirst(k - 1, cardCount, perView);
    }
  }

  /** With enough cards, the auto-slide visits every start position in
      order and then returns to the first: it cycles with period
      `cardCount - perView + 1`. */
  lemma AutoSlideCycle(cardCount: int, perView: int)
    requires perView <= cardCount
    ensures forall k: nat :: k <= cardCount - perView ==> Iterate(0, k, cardCount, perView) == k
    ensures Iterate(0, cardCount - perView + 1, cardCount, perView) == 0
  {
    forall k: nat | k <= cardCount - perView
      ensures Iterate(0, k, cardCount, perView) == k
    {
      IterateFromFirst(k, cardCount, perView);
    }
  }
}
