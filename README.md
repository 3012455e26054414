# NovaTech page scripts in Dafny

The NovaTech website has one script per page: `js/contact-form.js`, `js/contact.js`,
`js/portfolio.js`, `js/services.js`, `js/script.js` (the home page), `js/about.js` and
`js/blog.js`. This project models the logic inside their event handlers and proves
properties about it. The DOM is modelled as plain data:
- a row of sibling elements sharing a class (dots, FAQ items, filter buttons, category
  links, milestones) is a `seq<bool>`;
- a form's values are a datatype;
- the error marks of a form are a set of fields, and its message elements are a map from
  field to message;
- a widget whose handlers update state in place is a `class` whose methods change its
  fields.

Timers only delay a change, so each timer callback is a method of its own. It runs after
the event that schedules it, and the model describes the settled state.

Modules:

- `Text`: the JavaScript string primitives the scripts use. `trim()` and the `\s` class,
  ASCII `toLowerCase()`, `includes()`, and `split()` for a one-character separator, which is
  proved against `join()`.
- `SimpleEmail`: the pattern `/^[^\s@]+@[^\s@]+\.[^\s@]+$/`, decided by one scan. The scan
  is proved equal to the pattern's three-runs reading.
- `PhoneNumber`: the phone pattern `/^[+]?[(]?[0-9]{3}[)]?[-\s.]?[0-9]{3}[-\s.]?[0-9]{4,6}$/`.
  It is modelled as a left-to-right parser with a renderer, and the two are proved inverse.
  An accepted phone number has 10 to 12 digits.
- `Selection`: rows of class flags. `OneHot(n, k)` is the row in which only element `k`
  is flagged; `CountActive` counts the flagged elements; `MarkOnly` is the
  "remove from all, add to one" loop.
- `Cyclic`: indices that wrap modulo a slide count.
- `ContactForm`: `js/contact-form.js`.
- `Contact`: `js/contact.js`.
- `Portfolio`: `js/portfolio.js`.
- `Services`: `js/services.js`.
- `Home`: `js/script.js`.
- `About`: `js/about.js`.
- `Blog`: `js/blog.js`.

## Model

| member | source | states |
|---|---|---|
| Text.TrimEmptyIffBlank | js/contact.js:121 | `!x.trim()` holds exactly when every character of `x` is white space |
| Text.TrimLengthAtLeast | js/contact-form.js:45 | a trimmed length of at least `n` means two non-space characters at least `n - 1` apart |
| Text.JoinSplit | js/blog.js:111 | joining the pieces of `split(',')` gives back the string |
| Text.SplitJoin | js/blog.js:111 | splitting a join of comma-free pieces gives back the pieces, so `split` is the unique decomposition |
| SimpleEmail.IsValidEmailIffMatches | js/script.js:212-215 | the one-pass scan accepts exactly the strings matching `^[^\s@]+@[^\s@]+\.[^\s@]+$` |
| SimpleEmail.RunsMakeValidEmail | js/script.js:212-215 | three runs free of white space and `@`, joined by `@` and `.`, are accepted |
| SimpleEmail.SpaceRejected | js/portfolio.js:264 | any string containing white space is rejected |
| PhoneNumber.ParseSound | js/contact-form.js:53-57 | whatever the pattern accepts is a well-formed number written exactly as the input |
| PhoneNumber.ParseComplete | js/contact-form.js:53-57 | every well-formed number is accepted and read back as itself |
| PhoneNumber.IsValidPhoneIffWellFormed | js/contact.js:279-282 | the pattern accepts exactly the texts of well-formed numbers |
| PhoneNumber.ValidPhoneDigits | js/contact-form.js:53-57 | an accepted phone has between 10 and 12 digits |
| Selection.MarkOnly | js/services.js:555-557 | after the remove-all/add-one loop only the element at `k` is flagged |
| Selection.CountOneHot | js/blog.js:96-99 | a one-hot row has exactly one flagged element, or none when `k` is out of range |
| Selection.SingleActiveIsOneHot | js/services.js:555-557 | a row with exactly one flagged element is that element's one-hot row |
| Cyclic.NextPrevInverse | js/services.js:561-568 | next and prev stay in `[0, n)` and undo each other |
| ContactForm.ValidateNameIff | js/contact-form.js:44-46 | a name passes iff it has two non-space characters, i.e. its trimmed length is at least 2 |
| ContactForm.ValidateMessageIff | js/contact-form.js:63-65 | a message passes iff its trimmed length is at least 10 |
| ContactForm.ValidatePhoneIff | js/contact-form.js:53-57 | a phone passes iff it is blank or, trimmed, the text of a well-formed number; a non-blank accepted phone has 10 to 12 digits |
| ContactForm.BlankSubjectPasses | js/contact-form.js:59-61 | a whitespace-only subject passes although a whitespace-only name or message fails |
| ContactForm.Failing | js/contact-form.js:86-126 | each field is failing iff its own validator fails; the failing controls are the controls' failures |
| ContactForm.FailingEmpty | js/contact-form.js:128-135 | no field fails iff all six validators pass |
| ContactForm.Form.constructor | js/contact-form.js:37-40 | controls holding non-blank text on load are marked `filled` |
| ContactForm.Form.InputMessage | js/contact-form.js:17-24 | the counter shows the message length and warns above 450 characters; nothing else changes |
| ContactForm.Form.Blur | js/contact-form.js:29-35 | the control is `filled` iff its trimmed value is non-empty; other marks unchanged |
| ContactForm.Form.Validate | js/contact-form.js:84-126 | the error classes and hints are exactly the failing fields; the consent group's error is set but never cleared; the result is true iff nothing fails |
| ContactForm.Form.Submit | js/contact-form.js:72-135 | after validation the loading state and the send start iff all validators pass; otherwise nothing else changes |
| ContactForm.Form.CompleteSend | js/contact-form.js:137-159 | success shows the sent notice and resets form, marks and counter, leaving the button disabled; failure re-enables the button and keeps the values |
| Contact.PhoneErrorIff | js/contact.js:136-139 | a blank phone never errs; a non-blank one errs iff its trimmed text is not a well-formed number |
| Contact.MessageErrorCases | js/contact.js:148-154 | "enter your message" iff blank, "at least 10" iff the trimmed length is 1–9, no message iff at least 10 |
| Contact.Errant | js/contact.js:121-160 | a field is in the set iff the verdict gives it a message |
| Contact.Failing | js/contact.js:121-160 | the reported fields are exactly those with an error message |
| Contact.FailingEmptyIff | js/contact.js:121-163 | the form is sent iff name, email, subject and message are non-blank, the email is valid, the phone is blank or valid, the message has at least 10 characters trimmed, and the privacy box is ticked |
| Contact.MarksAreErrant | js/contact.js:121-160 | the six if-blocks together mark the grouped fields that have a message |
| Contact.WithMessagesSpec | js/contact.js:224-249 | after the six if-blocks each failing grouped field has one element holding its own message; other elements are unchanged; none is created for a passing field |
| Contact.ContactForm.ShowError | js/contact.js:224-249 | outside a group nothing changes; otherwise the group is marked and shows `msg`, and the element is created only if missing |
| Contact.ContactForm.RemoveAllErrors | js/contact.js:254-266 | no `has-error` mark and no shown message remain; message texts are kept |
| Contact.ContactForm.Report | js/contact.js:121-160 | one if-block marks field `f` and shows its message exactly when it has one and is grouped |
| Contact.ContactForm.ReportAll | js/contact.js:121-160 | the marks and shown messages are exactly the failing grouped fields, each holding its own message |
| Contact.ContactForm.Submit | js/contact.js:101-169 | errors are re-derived from the values; the send starts iff no field fails, saving the label the button had so that the completed send restores it; otherwise the button stays enabled and the saved label is untouched |
| Contact.ContactForm.CompleteSend | js/contact.js:171-185 | the banner shows when present, the form is reset, and the button is re-enabled with its label restored |
| Contact.ContactForm.HideResponse | js/contact.js:187-191 | the banner is hidden |
| Contact.FieldIndex | js/contact.js:121-160 | every field has its position in the check order |
| Contact.MobileMenu.ToggleClick | js/contact.js:71-74 | toggle and menu flip together |
| Contact.MobileMenu.LinkClick | js/contact.js:79-82 | a link click closes the menu |
| Contact.MobileMenu.DocumentClick | js/contact.js:86-91 | the menu closes iff it was open and the click is outside toggle and menu |
| Contact.Reveal.CheckReveal | js/contact.js:338-368 | an element gains `reveal-active` iff its top is above `innerHeight - 150`; none loses it |
| Portfolio.StepReachable | js/portfolio.js:53-87 | each `type()` step keeps the word index in range and the character index within the current word |
| Portfolio.ShownIsPrefix | js/portfolio.js:61-84 | the text shown is always the first `charIndex` characters of the current word |
| Portfolio.StepTurns | js/portfolio.js:61-84 | every call shows one character more or fewer; the 1500 ms and 500 ms pauses happen exactly when the direction turns (to erasing, to typing), the word advances mod 3 only at the 500 ms pause, and a step that keeps its direction waits 150 ms typing or 50 ms erasing |
| Portfolio.Run | js/portfolio.js:53-87 | any number of steps stays reachable |
| Portfolio.RunTypes | js/portfolio.js:61-84 | typing from `c` characters reaches the full word, now erasing |
| Portfolio.RunErases | js/portfolio.js:61-84 | erasing from `c` characters reaches the next word, empty |
| Portfolio.RunAdd | js/portfolio.js:86 | `a` steps then `b` steps equal `a + b` steps |
| Portfolio.WordCycle | js/portfolio.js:53-87 | each word is typed and erased in twice its length in steps, then the next word starts: the animation cycles |
| Portfolio.Typer.constructor | js/portfolio.js:55-59 | the closure starts at word 0, character 0, typing, speed 100 |
| Portfolio.Typer.Type | js/portfolio.js:61-84 | one call performs the abstract step, sets its delay and writes its text |
| Portfolio.Slider.ShowSlide | js/portfolio.js:199-205 | only the item at `index` is displayed |
| Portfolio.Slider.Next | js/portfolio.js:216-219 | the slide index moves forward cyclically |
| Portfolio.Slider.Prev | js/portfolio.js:211-214 | the slide index moves back cyclically |
| Portfolio.Filter.Click | js/portfolio.js:126-152 | only the clicked button is active, and a card is displayed iff the filter is `all` or names one of its classes |
| Portfolio.AllClearIff | js/portfolio.js:245-300 | the form is accepted iff name, subject and message are non-blank and the untrimmed email matches the pattern |
| Portfolio.PaddedEmailRejected | js/portfolio.js:264-276 | a valid address with a leading or trailing space is called invalid |
| Portfolio.ContactCheck.Submit | js/portfolio.js:245-313 | each error element shows its field's hint; the success message shows and the form resets iff no hint is set |
| Portfolio.ContactCheck.HideMessage | js/portfolio.js:309-311 | the success message is hidden |
| Portfolio.Hamburger.Click | js/portfolio.js:35-40 | the checkbox flips |
| Portfolio.Hamburger.LinkClick | js/portfolio.js:44-50 | a link click closes the menu |
| Services.Clamp | js/services.js:538-542 | the index is clamped into `[0, cardCount)`, kept when in range |
| Services.TestimonialSlider.GoToSlide | js/services.js:538-558 | the index becomes the clamped request and only its dot is active |
| Services.TestimonialSlider.NextSlide | js/services.js:561-563 | the index moves forward modulo the card count; the dots are the one-hot row of the new index, so no dot is active when the index has no dot |
| Services.TestimonialSlider.PrevSlide | js/services.js:566-568 | the index moves back modulo the card count; the dots are the one-hot row of the new index, so no dot is active when the index has no dot |
| Services.TestimonialSlider.TouchEnd | js/services.js:617-632 | a swipe of more than 50 px left goes next, more than 50 px right goes prev; shorter changes nothing |
| Services.StripDots.UpdateActiveDot | js/services.js:152-161 | only the dot at `activeIndex` is active; none when it is out of range |
| Services.StripDots.AfterNext | js/services.js:124-127 | the dot of the scrolled-to card, capped at the last, is active |
| Services.StripDots.AfterPrev | js/services.js:136-139 | the dot of the scrolled-to card, floored at the first, is active |
| Services.Faq.Click | js/services.js:256-276 | an open item closes all; a closed one opens alone; at most one is open |
| Services.Pricing.Change | js/services.js:284-296 | the page's plan and the labels follow the switch |
| Services.Pricing.MonthlyClick | js/services.js:299-302 | monthly is selected and shown |
| Services.Pricing.YearlyClick | js/services.js:304-307 | yearly is selected and shown |
| Services.Stats.CheckStatsInView | js/services.js:233-250 | the counters start at most once, when the section is above 80% of the window |
| Home.ScrollAnimations.Handle | js/script.js:11-27 | an in-view element gains `animated`; its animation restarts only the first time; none loses it |
| Home.FloatingLabels.Setup | js/script.js:97-107 | an input with a non-empty value on load gains `has-value` |
| Home.FloatingLabels.Input | js/script.js:110-116 | `has-value` follows the input's emptiness, spaces counting as a value |
| Home.Errant | js/script.js:142-167 | a field is in the set iff the verdict gives it a message |
| Home.Failing | js/script.js:142-167 | the fields `showError` is called for are those with a message |
| Home.PutAllSpec | js/script.js:196-209 | each failing field has one element holding its own message; others are unchanged; none is created for passing fields |
| Home.FailingEmptyIff | js/script.js:142-170 | the form is sent iff name, subject and message are non-blank and the untrimmed email matches the pattern |
| Home.EmailHintCases | js/script.js:149-156 | a blank email is only asked for; a non-blank one is called invalid iff it fails the pattern |
| Home.ContactForm.ShowError | js/script.js:196-209 | the group gains `error` and its single message element shows `msg` |
| Home.ContactForm.Report | js/script.js:142-167 | one check reports field `f` iff it has a message |
| Home.ContactForm.Submit | js/script.js:126-191 | error groups are exactly the failing fields, each with its own message; sending starts iff none fails |
| Home.ContactForm.MarkSent | js/script.js:179-181 | the button shows the sent label and gains the `success` class |
| Home.ContactForm.Restore | js/script.js:184-189 | the form is reset and the button restored |
| Home.SlidesPerView | js/script.js:270-278 | 3 slides from 1024 px, 2 from 768 px, 1 below |
| Home.ClampRange | js/script.js:296-310 | with enough cards the index stays a start position; with fewer, any non-negative index becomes negative |
| Home.TestimonialsSlider.constructor | js/script.js:262-267 | the slider starts at the clamped first index and the dots are its one-hot row, so no dot is active when that index is negative (fewer cards than slides per view) or has no dot |
| Home.TestimonialsSlider.GoToSlide | js/script.js:296-310 | the index is clamped to the last start position and only its dot is active |
| Home.TestimonialsSlider.NextSlide | js/script.js:313-315 | the next arrow clamps index + 1 |
| Home.TestimonialsSlider.PrevSlide | js/script.js:318-320 | the prev arrow clamps index − 1 |
| Home.TestimonialsSlider.AutoSlide | js/script.js:325-331 | the slider advances one card until the last start position, then wraps to the first |
| Home.TestimonialsSlider.Resize | js/script.js:346-348 | the index is re-clamped for the new slides-per-view |
| Home.IterateFromFirst | js/script.js:325-331 | from the first card, `k` auto-slides reach card `k` |
| Home.AutoSlideCycle | js/script.js:325-331 | the auto-slide visits every start position in order and returns to the first |
| About.Story.constructor | js/about.js:29-32 | the first milestone is active on load |
| About.Story.Click | js/about.js:36-58 | the bar is set when present and stays within 100 percent exactly for the first four milestones; only the clicked milestone is active; cards of that year are turned over and no other card changes |
| About.Story.Unflip | js/about.js:53-55 | the card is turned back |
| About.Story.Rotate | js/about.js:62-67 | the index moves on modulo the card count; when a milestone is at the new index, the bar, the active milestone and the turned-over cards are those of clicking it; with no milestone there, only the index moves |
| About.RotationVisitsAll | js/about.js:62-67 | the rotation visits the cards in order and is back on the first after one round |
| About.VisibleSlides | js/about.js:409-419 | 1 slide below 768 px, 2 below 992 px, else 3 |
| About.Slider.constructor | js/about.js:422-445 | one dot per card, the first active, offset 0 |
| About.Slider.UpdateSlider | js/about.js:367-382 | the offset is `currentIndex * slideWidth` and only the current dot is active; without a dots container the dots are untouched |
| About.Slider.GoToPrev | js/about.js:385-390 | the slider goes back one card unless on the first |
| About.Slider.GoToNext | js/about.js:393-398 | the slider advances while the visible cards do not yet reach the last |
| About.Slider.GoToSlide | js/about.js:401-406 | an index outside the cards is ignored |
| About.Slider.Resize | js/about.js:448-451 | the width is re-measured and the slider redrawn at the same index |
| Blog.InCategoryIff | js/blog.js:111-113 | for comma-free names an article is in a category other than `all` iff the category is one of its names |
| Blog.UntrimmedPieceMissed | js/blog.js:111-113 | pieces are not trimmed: `"a, c"` is not in category `c` |
| Blog.BlankSearchShowsAll | js/blog.js:140-146 | a blank search term shows every article |
| Blog.SearchIgnoresCase | js/blog.js:140 | lower-casing the typed text does not change the result |
| Blog.TitlePieceFound | js/blog.js:143-146 | typing any piece of an article's lower-cased title finds it |
| Blog.Articles.CategoryClick | js/blog.js:92-126 | only the clicked link is active; an article is shown iff it is in the link's category |
| Blog.Articles.SearchInput | js/blog.js:139-158 | an article is shown iff its lower-cased title or description includes the term |
| Blog.MessageKind | js/blog.js:224-233 | the message is `success` iff subscribed, else `error` |
| Blog.Submission | js/blog.js:224-233 | blank → "enter", non-blank and failing the pattern once trimmed → "valid email", otherwise success |
| Blog.Newsletter.Submit | js/blog.js:215-240 | the outcome is the submission's; the input is emptied only on success; the first message element is reused or one appended, so a form never gains a second |

## Left out

- Timers: `setTimeout`, `setInterval` and `requestAnimationFrame` become separate methods for the callbacks (for example `CompleteSend`, `Unflip`, `Rotate`, `AutoSlide`); their scheduling is not modelled.
- `Math.random()` in the contact-form send becomes the parameter `success` of `ContactForm.Form.CompleteSend`.
- Geometry (`getBoundingClientRect`, `offsetWidth`, `innerHeight`, touch `screenX`) arrives as integer parameters; floating-point pixels, `Math.round` and the counter easing are not modelled.
- The long address patterns of js/contact-form.js:49 and js/contact.js:272 are the parameter `emailPattern`; their grammar is not modelled.
- `toLowerCase` is modelled on ASCII letters only; string lengths count characters, not UTF-16 units.
- `scrollIntoView`, the shake animation, the button spinner markup and the injected `<style>` text are not modelled.
- The preloader, sticky header, back-to-top button and smooth scroll are not modelled, nor the blog mobile menu (js/blog.js:53-81).
- The portfolio project modal and skill bars, the services card observers, cursor shadow and counter animation, and the about page counters are not modelled.
- Elements the scripts look up are assumed present. A missing `.article-title`, `data-categories` or error element, which would make the handler throw, is not modelled.
- `Contact.ContactForm.Submit`: requires an enabled button, because a disabled submit button cannot submit a form.
- `Home.ContactForm.Submit`: requires an enabled button, for the same reason.
- `Contact.ContactForm.ReportAll`: the fields whose input sits in a `.form-group` are a constant set `grouped`; the page markup is not modelled.
- `ContactForm.Form.Validate`: the consent group's `error` class is never cleared, as in the script; the model keeps that and does not correct it.
- `Services.TestimonialSlider`: `initTestimonialSlider` in js/services.js (js/services.js:521) is not called by the page's `DOMContentLoaded` handler (js/services.js:7-309), nor anywhere else in the file; it is modelled as written.
- `About.Slider`: `initTestimonialSlider` in js/about.js is not called by the page (its call is commented out at js/about.js:16); it is modelled as written.
- `About.Story.Click`: a card without `data-year` is modelled as having some string year; the null attribute is not modelled.
- `Home.FloatingLabels.Setup`: `form.reset()` does not fire `input`, so `has-value` can outlive a reset; the model leaves that to the caller.
- `About.Story.Click`: from the fifth milestone on the bar is set above 100 percent, as the script does; the model states this and does not cap it.
- `Portfolio.Filter.Click`: the settled state holds only when clicks are more than 300 ms apart. A click within 300 ms of an earlier one can leave a card hidden that the new filter shows, because the earlier click's `display = 'none'` timer fires after the new `display = 'block'` (js/portfolio.js:136-150). `Blog.Articles.CategoryClick` and `Blog.Articles.SearchInput` have the same race (js/blog.js:107-123, 148-155).
- `Portfolio.Slider.Next`: the slide index is stated; which item is displayed afterwards follows from `ShowSlide`.
