/** The blog page script, js/blog.js: the category filter, the search box
    and the newsletter form. */
module Blog {
  import opened Text
  import opened Selection
  import SimpleEmail

  // ---------------------------------------------------------------------
  // Category filter (blog.js:86-129)
  // ---------------------------------------------------------------------

  /** An article with comma-separated `data-categories` belongs to
      `category`: every article belongs to `all`, and otherwise the
      category must equal one of the pieces exactly, spaces included. */
  predicate InCategory(category: string, dataCategories: string) {
    category == "all" || category in Split(dataCategories, ',')
  }

  /** For categories written without stray separators, an article is in a
      category other than `all` exactly when the category is among its own. */
  lemma InCategoryIff(category: string, names: seq<string>)
    requires |names| > 0
    requires forall k :: 0 <= k < |names| ==> ',' !in names[k]
    requires category != "all"
    ensures InCategory(category, Join(names, ',')) <==> category in names
  {
    SplitJoin(names, ',');
  }

  /** The pieces are not trimmed: an article tagged `"a, c"` is not in
      category `c` (unless `c` is `a` or `all`), since its second piece is
      `" c"`. */
  lemma UntrimmedPieceMissed(first: string, category: string)
    requires ',' !in first && ',' !in category
    requires category != "all" && category != first
    ensures !InCategory(category, first + ", " + category)
  {
    var second := [' '] + category;
    SplitNoSeparator(second, ',');
    SplitFront(first, second, ',');
    assert first + ", " + category == first + [','] + second;
    assert |category| != |second|;
  }

  /** The search term: the input lower-cased, then trimmed. */
  function Term(value: string): string {
    Trim(ToLower(value))
  }

  /** An article matches the search when its lower-cased title or
      description includes the term. */
  predicate SearchMatch(value: string, title: string, description: string) {
    var term := Term(value);
    Contains(ToLower(title), term) || Contains(ToLower(description), term)
  }

  /** Lower-casing neither makes nor removes white space. */
  lemma ToLowerBlank(s: string)
    ensures IsBlank(ToLower(s)) <==> IsBlank(s)
  {
    forall k | 0 <= k < |s|
      ensures IsSpace(ToLower(s)[k]) <==> IsSpace(s[k])
    {
      assert ToLower(s)[k] == LowerChar(s[k]);
    }
  }

  /** A blank search box shows every article. */
  lemma BlankSearchShowsAll(value: string, title: string, description: string)
    requires IsBlank(value)
    ensures SearchMatch(value, title, description)
  {
    ToLowerBlank(value);
    TrimEmptyIffBlank(ToLower(value));
    ContainsEmpty(ToLower(title));
  }

  /** The search ignores the case of what is typed. */
  lemma SearchIgnoresCase(value: string, title: string, description: string)
    ensures SearchMatch(ToLower(value), title, description) <==> SearchMatch(value, title, description)
  {
    ToLowerIdempotent(value);
  }

  /** A slice of a lower-cased string is already lower case. */
  lemma LowerSliceIsLower(t: string, i: nat, j: nat)
    requires i <= j <= |t|
    ensures ToLower(ToLower(t)[i..j]) == ToLower(t)[i..j]
  {
    var l := ToLower(t);
    var piece := l[i..j];
    forall k | 0 <= k < |piece|
      ensures ToLower(piece)[k] == piece[k]
    {
      assert piece[k] == LowerChar(t[i + k]);
    }
  }

  /** A string includes the trimmed form of each of its slices. */
  lemma ContainsTrimmedSlice(h: string, i: nat, j: nat)
    requires i <= j <= |h|
    ensures Contains(h, Trim(h[i..j]))
  {
    var piece := h[i..j];
    var a, b := TrimWindow(piece);
    forall k | 0 <= k < b - a
      ensures piece[a..b][k] == h[i + a..i + b][k]
    {
      assert piece[a + k] == h[i + a + k];
    }
    assert Trim(piece) == h[i + a..i + b];
    ContainsSlice(h, i + a, i + b);
  }

  /** Typing a piece of an article's lower-cased title finds it. */
  lemma TitlePieceFound(title: string, i: nat, j: nat, description: string)
    requires i <= j <= |title|
    ensures SearchMatch(ToLower(title)[i..j], title, description)
  {
    LowerSliceIsLower(title, i, j);
    ContainsTrimmedSlice(ToLower(title), i, j);
  }

  /** The article cards and the category links. An article is `shown` once
      its fade-in or fade-out has settled: `display: block` without
      `hidden`, as opposed to `hidden` with `display: none`. */
  class Articles {
    /** Each card's `data-categories`. */
    const categories: seq<string>
    const titles: seq<string>
    const descriptions: seq<string>
    /** Each category link's `data-category`. */
    const linkCategories: seq<string>
    var linkActive: seq<bool>
    var shown: seq<bool>

    ghost predicate Valid()
      reads this
    {
      && |titles| == |categories| && |descriptions| == |categories|
      && |shown| == |categories| && |linkActive| == |linkCategories|
    }

    constructor (categories: seq<string>, titles: seq<string>, descriptions: seq<string>,
                 linkCategories: seq<string>, linkActive: seq<bool>, shown: seq<bool>)
      requires |titles| == |categories| && |descriptions| == |categories|
      requires |shown| == |categories| && |linkActive| == |linkCategories|
      ensures Valid()
      ensures this.categories == categories && this.titles == titles && this.descriptions == descriptions
      ensures this.linkCategories == linkCategories && this.linkActive == linkActive && this.shown == shown
    {
      this.categories := categories;
      this.titles := titles;
      this.descriptions := descriptions;
      this.linkCategories := linkCategories;
      this.linkActive := linkActive;
      this.shown := shown;
    }

    /** A click on category link `k` (blog.js:92-126): only that link is
      active, and an article is shown exactly when it is in the link's
      category. */
    method CategoryClick(k: nat)
      requires Valid() && k < |linkCategories|
      modifies this`linkActive, this`shown
      ensures Valid()
      ensures linkActive == OneHot(|linkCategories|, k) && CountActive(linkActive) == 1
      ensures forall i :: 0 <= i < |categories| ==> (shown[i] <==> InCategory(linkCategories[k], categories[i]))
    {
      linkActive := MarkOnly(linkActive, k);
      CountOneHot(|linkCategories|, k);
      var category := linkCategories[k];
      var i := 0;
      while i < |shown|
        invariant 0 <= i <= |shown| == |categories|
        invariant linkActive == OneHot(|linkCategories|, k)
        invariant forall j :: 0 <= j < i ==> (shown[j] <==> InCategory(category, categories[j]))
      {
        if category == "all" {
          shown := shown[i := true];
        } else {
          var pieces := Split(categories[i], ',');
          shown := shown[i := category in pieces];
        }
        i := i + 1;
      }
    }

    /** Typing in the search box (blog.js:139-158): an article is shown
      exactly when it matches the term; the category links are untouched. */
    method SearchInput(value: string)
      requires Valid()
      modifies this`shown
      ensures Valid()
      ensures forall i :: 0 <= i < |categories| ==> (shown[i] <==> SearchMatch(value, titles[i], descriptions[i]))
    {
      var searchTerm := Trim(ToLower(value));
      var i := 0;
      while i < |shown|
        invariant 0 <= i <= |shown| == |categories|
        invariant forall j :: 0 <= j < i ==> (shown[j] <==> SearchMatch(value, titles[j], descriptions[j]))
      {
        var title := ToLower(titles[i]);
        var description := ToLower(descriptions[i]);
        shown := shown[i := Contains(title, searchTerm) || Contains(description, searchTerm)];
        i := i + 1;
      }
    }
  }

  // ---------------------------------------------------------------------
  // Newsletter (blog.js:211-242)
  // ---------------------------------------------------------------------

  /** The three ways a newsletter submission ends. */
  datatype Outcome = EnterEmail | InvalidEmail | Subscribed

  /** The text the `.form-message` element shows. */
  function MessageText(o: Outcome): string {
    match o
    case EnterEmail => "Please enter your email address."
    case InvalidEmail => "Please enter a valid email address."
    case Subscribed => "Thank you for subscribing!"
  }

  /** The class the message element carries beside `form-message`. */
  function MessageKind(o: Outcome): (kind: string)
    ensures kind == "success" <==> o == Subscribed
    ensures kind == "error" <==> o != Subscribed
  {
    if o == Subscribed then "success" else "error"
  }

  /** The outcome for the typed email: blank, failing the pattern once
      trimmed, or accepted. */
  function Submission(email: string): (o: Outcome)
    ensures o == EnterEmail <==> IsBlank(email)
    ensures o == InvalidEmail <==> !IsBlank(email) && !SimpleEmail.Matches(Trim(email))
    ensures o == Subscribed <==> !IsBlank(email) && SimpleEmail.Matches(Trim(email))
  {
    TrimEmptyIffBlank(email);
    SimpleEmail.IsValidEmailIffMatches(Trim(email));
    var emailValue := Trim(email);
    if emailValue == [] then EnterEmail
    else if !SimpleEmail.IsValidEmail(emailValue) then InvalidEmail
    else Subscribed
  }

  /** A message element: its text and its kind class. */
  datatype Message = Message(text: string, kind: string)

  function MessageOf(o: Outcome): Message {
    Message(MessageText(o), MessageKind(o))
  }

  /** The newsletter form: its email input and its `.form-message`
      elements, in document order. */
  class Newsletter {
    var email: string
    var messages: seq<Message>

    constructor (email: string, messages: seq<Message>)
      ensures this.email == email && this.messages == messages
    {
      this.email := email;
      this.messages := messages;
    }

    /** Typing in the email input. */
    method Input(value: string)
      modifies this`email
      ensures email == value
    {
      email := value;
    }

    /** The submit handler (blog.js:215-240): the first message element,
      or a new one appended when the form has none, shows the outcome; the
      input is emptied only on success. A form holds at most one message
      from then on unless its page came with more. */
    method Submit() returns (o: Outcome)
      modifies this
      ensures o == Submission(old(email))
      ensures email == if o == Subscribed then [] else old(email)
      ensures |messages| == if |old(messages)| == 0 then 1 else |old(messages)|
      ensures messages[0] == MessageOf(o)
      ensures |old(messages)| > 0 ==> messages[1..] == old(messages)[1..]
      ensures |old(messages)| <= 1 ==> messages == [MessageOf(o)]
    {
      var emailValue := Trim(email);
      var text: string;
      var kind: string;
      if emailValue == [] {
        text, kind := "Please enter your email address.", "error";
        o := EnterEmail;
      } else if !SimpleEmail.IsValidEmail(emailValue) {
        text, kind := "Please enter a valid email address.", "error";
        o := InvalidEmail;
      } else {
        text, kind := "Thank you for subscribing!", "success";
        o := Subscribed;
        email := [];
      }
      var message := Message(text, kind);
      if |messages| == 0 {
        messages := messages + [message];
      } else {
        messages := messages[0 := message];
      }
    }
  }
}
