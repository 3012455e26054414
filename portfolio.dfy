/** The portfolio page script, js/portfolio.js: the typing animation, the
    testimonial slider, the project filter, the contact form check and the
    hamburger menu. */
module Portfolio {
  import opened Text
  import opened Selection
  import SimpleEmail
  import Cyclic

  // ---------------------------------------------------------------------
  // Typing animation (portfolio.js:53-87)
  // ---------------------------------------------------------------------

  /** The words the animation types and erases, in turn. */
  const Words: seq<string> := ["Web Developer", "UI/UX Designer", "Freelancer"]

  /** The closure's state: the current word, how many of its characters are
      shown, and whether they are being erased. */
  datatype Typing = Typing(wordIndex: int, charIndex: int, isDeleting: bool)

  /** The states the closure can be in after any number of steps: typing
      stops short of the full word, erasing starts from at least one
      character. */
  predicate Reachable(t: Typing) {
    && 0 <= t.wordIndex < |Words|
    && (if t.isDeleting then 0 < t.charIndex <= |Words[t.wordIndex]|
        else 0 <= t.charIndex < |Words[t.wordIndex]|)
  }

  /** The state the page starts in. */
  const Start := Typing(0, 0, false)

  /** One call of `type()`: a character is added or removed; a full word
      turns to erasing, an erased word moves on to the next word. */
  function Step(t: Typing): Typing
    requires 0 <= t.wordIndex < |Words|
  {
    var c := if t.isDeleting then t.charIndex - 1 else t.charIndex + 1;
    if !t.isDeleting && c == |Words[t.wordIndex]| then Typing(t.wordIndex, c, true)
    else if t.isDeleting && c == 0 then Typing((t.wordIndex + 1) % |Words|, 0, false)
    else Typing(t.wordIndex, c, t.isDeleting)
  }

  /** The delay before the next call: 150 ms after a typed character, 50 ms
      after an erased one, 1500 ms at a full word and 500 ms before a new
      word. */
  function Delay(t: Typing): nat
    requires 0 <= t.wordIndex < |Words|
  {
    var c := if t.isDeleting then t.charIndex - 1 else t.charIndex + 1;
    if !t.isDeleting && c == |Words[t.wordIndex]| then 1500
    else if t.isDeleting && c == 0 then 500
    else if t.isDeleting then 50
    else 150
  }

  /** The text `type()` writes: `substring(0, charIndex ± 1)` of the word
      it started on. */
  function Shown(t: Typing): string
    requires Reachable(t)
  {
    var w := Words[t.wordIndex];
    if t.isDeleting then w[..t.charIndex - 1] else w[..t.charIndex + 1]
  }

  /** Every step keeps the word index in `[0, 3)` and the character index
      within the current word. */
  lemma StepReachable(t: Typing)
    requires Reachable(t)
    ensures Reachable(Step(t))
  {
  }

  /** After every step the text shown is the first `charIndex` characters of
      the current word. */
  lemma ShownIsPrefix(t: Typing)
    requires Reachable(t)
    ensures Shown(t) == Words[Step(t).wordIndex][..Step(t).charIndex]
  {
  }

  /** Each call shows one character more or one fewer. The pause is long
      exactly when the direction turns: 1500 ms on turning to erase, 500 ms
      on turning to type, and the word moves on, modulo three, only at the
      500 ms pause; a step that keeps its direction waits 150 ms when typing
      and 50 ms when erasing. */
  lemma StepTurns(t: Typing)
    requires Reachable(t)
    ensures Step(t).charIndex == if t.isDeleting then t.charIndex - 1 else t.charIndex + 1
    ensures Delay(t) == 1500 <==> !t.isDeleting && Step(t).isDeleting
    ensures Delay(t) == 500 <==> t.isDeleting && !Step(t).isDeleting
    ensures Delay(t) == 150 <==> !t.isDeleting && !Step(t).isDeleting
    ensures Delay(t) == 50 <==> t.isDeleting && Step(t).isDeleting
    ensures Step(t).wordIndex == if Delay(t) == 500 then (t.wordIndex + 1) % 3 else t.wordIndex
  {
  }

  /** `n` calls of `type()` in a row. */
  function Run(t: Typing, n: nat): (r: Typing)
    requires Reachable(t)
    ensures Reachable(r)
    decreases n
  {
    if n == 0 then t else Run(Step(t), n - 1)
  }

  /** Typing from `c` characters reaches the full word, erasing. */
  lemma {:induction false} RunTypes(w: int, c: int)
    requires 0 <= w < |Words| && 0 <= c < |Words[w]|
    ensures Run(Typing(w, c, false), |Words[w]| - c) == Typing(w, |Words[w]|, true)
    decreases |Words[w]| - c
  {
    if c + 1 < |Words[w]| {
      RunTypes(w, c + 1);
    }
  }

  /** Erasing from `c` characters reaches the empty text of the next word. */
  lemma {:induction false} RunErases(w: int, c: int)
    requires 0 <= w < |Words| && 0 < c <= |Words[w]|
    ensures Run(Typing(w, c, true), c) == Typing((w + 1) % |Words|, 0, false)
    decreases c
  {
    if c > 1 {
      RunErases(w, c - 1);
    }
  }

  /** Running `a` steps and then `b` more is running `a + b` steps. */
  lemma {:induction false} RunAdd(t: Typing, a: nat, b: nat)
    requires Reachable(t)
    ensures Run(Run(t, a), b) == Run(t, a + b)
    decreases a
  {
    if a > 0 {
      RunAdd(Step(t), a - 1, b);
    }
  }

  /** Each word is typed out and erased in twice its length of steps, after
      which the next word starts from nothing: the animation cycles through
      the three words forever. */
  lemma WordCycle(w: int)
    requires 0 <= w < |Words|
    ensures Run(Typing(w, 0, false), 2 * |Words[w]|) == Typing((w + 1) % |Words|, 0, false)
  {
    var n := |Words[w]|;
    RunTypes(w, 0);
    RunErases(w, n);
    RunAdd(Typing(w, 0, false), n, n);
  }

  /** The typing closure over the `.typing` element. */
  class Typer {
    var wordIndex: int
    var charIndex: int
    var isDeleting: bool
    var typeSpeed: nat
    /** The element's `textContent`. */
    var text: string
    /** Whether `type()` has run at least once. */
    ghost var typed: bool

    function State(): Typing
      reads this
    {
      Typing(wordIndex, charIndex, isDeleting)
    }

    ghost predicate Valid()
      reads this
    {
      && Reachable(State())
      && (typed ==> text == Words[wordIndex][..charIndex])
    }

    /** The closure as created (portfolio.js:55-59); the element keeps the
      text the page gave it until the first call. */
    constructor (initialText: string)
      ensures Valid() && State() == Start && typeSpeed == 100 && text == initialText && !typed
    {
      wordIndex, charIndex, isDeleting := 0, 0, false;
      typeSpeed := 100;
      text := initialText;
      typed := false;
    }

    /** `type()` (portfolio.js:61-84): one step, its delay and its text. */
    method Type()
      requires Valid()
      modifies this
      ensures Valid() && typed
      ensures State() == Step(old(State()))
      ensures typeSpeed == Delay(old(State()))
      ensures text == Shown(old(State()))
    {
      ghost var t := State();
      var currentWord := Words[wordIndex];
      if isDeleting {
        text := currentWord[..charIndex - 1];
        charIndex := charIndex - 1;
        typeSpeed := 50;
      } else {
        text := currentWord[..charIndex + 1];
        charIndex := charIndex + 1;
        typeSpeed := 150;
      }
      if !isDeleting && charIndex == |currentWord| {
        isDeleting := true;
        typeSpeed := 1500;
      } else if isDeleting && charIndex == 0 {
        isDeleting := false;
        wordIndex := (wordIndex + 1) % |Words|;
        typeSpeed := 500;
      }
      typed := true;
      ShownIsPrefix(t);
    }
  }

  // ---------------------------------------------------------------------
  // Testimonial slider (portfolio.js:193-239)
  // ---------------------------------------------------------------------

  /** The `.testimonial-item` elements, by whether they are displayed. */
  class Slider {
    var displayed: seq<bool>
    var currentSlide: int

    ghost predicate Valid()
      reads this
    {
      0 <= currentSlide < |displayed| && displayed == OneHot(|displayed|, currentSlide)
    }

    /** Page load with `n` testimonials: the first one is shown. */
    constructor (initial: seq<bool>)
      requires |initial| > 0
      ensures Valid() && currentSlide == 0 && |displayed| == |initial|
    {
      currentSlide := 0;
      displayed := initial;
      new;
      ShowSlide(0);
    }

    /** `showSlide(index)` (portfolio.js:199-205): every item is hidden and
      then the one at `index` is displayed. */
    method ShowSlide(index: int)
      requires 0 <= index < |displayed|
      modifies this`displayed
      ensures displayed == OneHot(old(|displayed|), index)
    {
      var i := 0;
      while i < |displayed|
        invariant 0 <= i <= |displayed| == old(|displayed|)
        invariant forall j :: 0 <= j < i ==> !displayed[j]
        invariant forall j :: i <= j < |displayed| ==> displayed[j] == old(displayed[j])
      {
        displayed := displayed[i := false];
        i := i + 1;
      }
      displayed := displayed[index := true];
    }

    /** The next button and the five-second automatic advance
      (portfolio.js:216-219, 223-226, 234-237). */
    method Next()
      requires Valid()
      modifies this
      ensures Valid() && |displayed| == old(|displayed|)
      ensures currentSlide == Cyclic.Next(old(currentSlide), |displayed|)
    {
      currentSlide := (currentSlide + 1) % |displayed|;
      ShowSlide(currentSlide);
    }

    /** The prev button (portfolio.js:211-214). */
    method Prev()
      requires Valid()
      modifies this
      ensures Valid() && |displayed| == old(|displayed|)
      ensures currentSlide == Cyclic.Prev(old(currentSlide), |displayed|)
    {
      currentSlide := (currentSlide - 1 + |displayed|) % |displayed|;
      ShowSlide(currentSlide);
    }
  }

  // ---------------------------------------------------------------------
  // Project filter (portfolio.js:121-153)
  // ---------------------------------------------------------------------

  /** A project card is displayed under `filter` when the filter is `all` or
      names one of the card's classes. */
  predicate Visible(filter: string, classes: set<string>) {
    filter == "all" || filter in classes
  }

  /** The filter buttons and the project cards. */
  class Filter {
    /** Each button's `data-filter`. */
    const filters: seq<string>
    /** Each card's class list. */
    const classes: seq<set<string>>
    /** Buttons carrying `filter-active`. */
    var active: seq<bool>
    /** Cards displayed, once the fade-out delay has passed. */
    var displayed: seq<bool>

    ghost predicate Valid()
      reads this
    {
      |active| == |filters| && |displayed| == |classes|
    }

    constructor (filters: seq<string>, classes: seq<set<string>>, active: seq<bool>, displayed: seq<bool>)
      requires |active| == |filters| && |displayed| == |classes|
      ensures Valid() && this.filters == filters && this.classes == classes
      ensures this.active == active && this.displayed == displayed
    {
      this.filters := filters;
      this.classes := classes;
      this.active := active;
      this.displayed := displayed;
    }

    /** A click on button `b` (portfolio.js:126-152): only it carries
      `filter-active`, and a card is displayed exactly when it passes the
      button's filter. */
    method Click(b: nat)
      requires Valid() && b < |filters|
      modifies this`active, this`displayed
      ensures Valid()
      ensures active == OneHot(|filters|, b)
      ensures forall i :: 0 <= i < |classes| ==> (displayed[i] <==> Visible(filters[b], classes[i]))
    {
      active := MarkOnly(active, b);
      var filterValue := filters[b];
      var i := 0;
      while i < |displayed|
        invariant 0 <= i <= |displayed| == |classes|
        invariant active == OneHot(|filters|, b)
        invariant forall j :: 0 <= j < i ==> (displayed[j] <==> Visible(filterValue, classes[j]))
      {
        displayed := displayed[i := filterValue == "all" || filterValue in classes[i]];
        i := i + 1;
      }
    }
  }

  // ---------------------------------------------------------------------
  // Contact form (portfolio.js:241-314)
  // ---------------------------------------------------------------------

  /** The text each error element holds. */
  datatype Hint = NoHint | EnterName | EnterEmail | InvalidEmail | EnterSubject | EnterMessage

  datatype Entries = Entries(name: string, email: string, subject: string, message: string)

  /** What `contactForm.reset()` leaves in the inputs. */
  const Cleared := Entries([], [], [], [])

  function NameHint(name: string): Hint {
    if Trim(name) == [] then EnterName else NoHint
  }

  /** The email is matched against the pattern untrimmed. */
  function EmailHint(email: string): Hint {
    if Trim(email) == [] then EnterEmail
    else if !SimpleEmail.IsValidEmail(email) then InvalidEmail
    else NoHint
  }

  function SubjectHint(subject: string): Hint {
    if Trim(subject) == [] then EnterSubject else NoHint
  }

  function MessageHint(message: string): Hint {
    if Trim(message) == [] then EnterMessage else NoHint
  }

  /** No error element holds a message. */
  predicate AllClear(v: Entries) {
    && NameHint(v.name) == NoHint && EmailHint(v.email) == NoHint
    && SubjectHint(v.subject) == NoHint && MessageHint(v.message) == NoHint
  }

  /** The form is accepted exactly when name, subject and message are not
      blank and the untrimmed email matches the address pattern. */
  lemma AllClearIff(v: Entries)
    ensures AllClear(v) <==>
      !IsBlank(v.name) && !IsBlank(v.subject) && !IsBlank(v.message) && SimpleEmail.IsValidEmail(v.email)
  {
    TrimEmptyIffBlank(v.name);
    TrimEmptyIffBlank(v.email);
    TrimEmptyIffBlank(v.subject);
    TrimEmptyIffBlank(v.message);
    if SimpleEmail.IsValidEmail(v.email) {
      assert !IsSpace(v.email[0]);
    }
  }

  /** An otherwise valid address with a space in front or behind is
      rejected: the pattern sees the untrimmed value. */
  lemma PaddedEmailRejected(email: string)
    requires SimpleEmail.IsValidEmail(email)
    ensures EmailHint(" " + email) == InvalidEmail
    ensures EmailHint(email + " ") == InvalidEmail
  {
    var front, back := " " + email, email + " ";
    SimpleEmail.SpaceRejected(front, 0);
    SimpleEmail.SpaceRejected(back, |email|);
    TrimEmptyIffBlank(front);
    TrimEmptyIffBlank(back);
    assert !IsSpace(front[1]) && !IsSpace(back[0]);
  }

  /** The portfolio contact form: its inputs, the error element after each
      input and the shared `.form-message` element. */
  class ContactCheck {
    var values: Entries
    var nameHint: Hint
    var emailHint: Hint
    var subjectHint: Hint
    var messageHint: Hint
    /** The `.form-message` element is displayed, with the `success` class. */
    var messageShown: bool
    var success: bool

    constructor (initial: Entries)
      ensures values == initial && !messageShown && !success
      ensures nameHint == NoHint && emailHint == NoHint && subjectHint == NoHint && messageHint == NoHint
    {
      values := initial;
      nameHint, emailHint, subjectHint, messageHint := NoHint, NoHint, NoHint, NoHint;
      messageShown, success := false, false;
    }

    /** The submit handler (portfolio.js:245-313): each error element is set
      or emptied, and the success message is shown and the form reset
      exactly when no error element holds a message. */
    method Submit()
      modifies this
      ensures nameHint == NameHint(old(values).name) && emailHint == EmailHint(old(values).email)
      ensures subjectHint == SubjectHint(old(values).subject) && messageHint == MessageHint(old(values).message)
      ensures AllClear(old(values)) ==> messageShown && success && values == Cleared
      ensures !AllClear(old(values)) ==>
        values == old(values) && messageShown == old(messageShown) && success == old(success)
    {
      var isValid := true;
      if Trim(values.name) == [] {
        nameHint := EnterName;
        isValid := false;
      } else {
        nameHint := NoHint;
      }
      if Trim(values.email) == [] {
        emailHint := EnterEmail;
        isValid := false;
      } else if !SimpleEmail.IsValidEmail(values.email) {
        emailHint := InvalidEmail;
        isValid := false;
      } else {
        emailHint := NoHint;
      }
      if Trim(values.subject) == [] {
        subjectHint := EnterSubject;
        isValid := false;
      } else {
        subjectHint := NoHint;
      }
      if Trim(values.message) == [] {
        messageHint := EnterMessage;
        isValid := false;
      } else {
        messageHint := NoHint;
      }
      if isValid {
        messageShown := true;
        success := true;
        values := Cleared;
      }
    }

    /** The success message hidden again five seconds later
      (portfolio.js:309-311). */
    method HideMessage()
      modifies this`messageShown
      ensures !messageShown
    {
      messageShown := false;
    }
  }

  // ---------------------------------------------------------------------
  // Mobile navigation (portfolio.js:29-50)
  // ---------------------------------------------------------------------

  /** The `#menu-toggle` checkbox that opens the navigation. */
  class Hamburger {
    var checked: bool

    constructor (checked: bool)
      ensures this.checked == checked
    {
      this.checked := checked;
    }

    /** A click on the hamburger label flips the checkbox
      (portfolio.js:35-40). */
    method Click()
      modifies this
      ensures checked == !old(checked)
    {
      checked := !checked;
    }

    /** A click on a navigation link closes the menu (portfolio.js:44-50). */
    method LinkClick()
      modifies this
      ensures !checked
    {
      checked := false;
    }
  }
}
