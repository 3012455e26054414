/** The services page script, js/services.js: the testimonial slider of
    `initTestimonialSlider`, the dots of the scrolling testimonial strip,
    the FAQ accordion, the pricing toggle and the stats counter latch. */
module Services {
  import opened Selection
  import Cyclic

  // ---------------------------------------------------------------------
  // initTestimonialSlider (services.js:521-636)
  // ---------------------------------------------------------------------

  /** `goToSlide`'s bounds check: a negative index becomes 0 and an index
      past the last card becomes the last card. */
  function Clamp(index: int, cardCount: nat): (r: int)
    requires cardCount > 0
    ensures 0 <= r < cardCount
    ensures 0 <= index < cardCount ==> r == index
    ensures index < 0 ==> r == 0
    ensures index >= cardCount ==> r == cardCount - 1
  {
    var i := if index < 0 then 0 else index;
    if i >= cardCount then cardCount - 1 else i
  }

  /** Minimum horizontal travel of a touch that counts as a swipe. */
  const SwipeThreshold := 50

  /** The slider's closure state: the current card, the `.dot` elements
      by whether they carry `active`, and the last touch positions. */
  class TestimonialSlider {
    const cardCount: nat
    var currentIndex: int
    var dots: seq<bool>
    var touchStartX: int
    var touchEndX: int

    ghost predicate Valid()
      reads this
    {
      cardCount > 0 && 0 <= currentIndex < cardCount
    }

    /** The slider set up on a page with `cardCount` cards: it starts on the
      first card (services.js:528-531, 635). */
    constructor (cardCount: nat, dots: seq<bool>)
      requires cardCount > 0
      ensures Valid() && this.cardCount == cardCount
      ensures currentIndex == 0 && this.dots == OneHot(|dots|, 0)
      ensures touchStartX == 0 && touchEndX == 0
    {
      this.cardCount := cardCount;
      currentIndex := 0;
      this.dots := dots;
      touchStartX, touchEndX := 0, 0;
      new;
      GoToSlide(0);
    }

    /** `goToSlide(index)` (services.js:538-558), also the dot click
      (services.js:597-603): the index is clamped into the cards and
      only the dot at it is active. */
    method GoToSlide(index: int)
      requires cardCount > 0
      modifies this`currentIndex, this`dots
      ensures Valid()
      ensures currentIndex == Clamp(index, cardCount)
      ensures dots == OneHot(old(|dots|), currentIndex)
    {
      var i := index;
      if i < 0 {
        i := 0;
      }
      if i >= cardCount {
        i := cardCount - 1;
      }
      currentIndex := i;
      dots := MarkOnly(dots, i);
    }

    /** `nextSlide` (services.js:561-563): the next button and the
      five-second autoplay. */
    method NextSlide()
      requires Valid()
      modifies this`currentIndex, this`dots
      ensures Valid()
      ensures currentIndex == Cyclic.Next(old(currentIndex), cardCount)
      ensures dots == OneHot(old(|dots|), currentIndex)
    {
      Cyclic.NextPrevInverse(currentIndex, cardCount);
      GoToSlide((currentIndex + 1) % cardCount);
    }

    /** `prevSlide` (services.js:566-568): the prev button. */
    method PrevSlide()
      requires Valid()
      modifies this`currentIndex, this`dots
      ensures Valid()
      ensures currentIndex == Cyclic.Prev(old(currentIndex), cardCount)
      ensures dots == OneHot(old(|dots|), currentIndex)
    {
      Cyclic.NextPrevInverse(currentIndex, cardCount);
      GoToSlide((currentIndex - 1 + cardCount) % cardCount);
    }

    /** `touchstart` (services.js:613-615). */
    method TouchStart(screenX: int)
      modifies this`touchStartX
      ensures touchStartX == screenX
    {
      touchStartX := screenX;
    }

    /** `touchend` and `handleSwipe` (services.js:617-632): a move of more
      than 50 pixels to the left goes to the next card, more than 50 to the
      right to the previous one, and anything shorter changes nothing. */
    method TouchEnd(screenX: int)
      requires Valid()
      modifies this`touchEndX, this`currentIndex, this`dots
      ensures Valid() && touchEndX == screenX
      ensures screenX < touchStartX - SwipeThreshold ==>
        currentIndex == Cyclic.Next(old(currentIndex), cardCount) && dots == OneHot(old(|dots|), currentIndex)
      ensures screenX > touchStartX + SwipeThreshold ==>
        currentIndex == Cyclic.Prev(old(currentIndex), cardCount) && dots == OneHot(old(|dots|), currentIndex)
      ensures touchStartX - SwipeThreshold <= screenX <= touchStartX + SwipeThreshold ==>
        currentIndex == old(currentIndex) && dots == old(dots)
    {
      touchEndX := screenX;
      if touchEndX < touchStartX - SwipeThreshold {
        NextSlide();
      } else if touchEndX > touchStartX + SwipeThreshold {
        PrevSlide();
      }
    }
  }

  // ---------------------------------------------------------------------
  // The scrolling testimonial strip's dots (services.js:100-171)
  // ---------------------------------------------------------------------

  /** The `.services-dot` elements, one per card, by whether they carry
      `active`. */
  class StripDots {
    var active: seq<bool>

    /** The dots as created: the first one is active (services.js:103-115). */
    constructor (cardCount: nat)
      ensures active == OneHot(cardCount, 0)
    {
      active := OneHot(cardCount, 0);
    }

    /** `updateActiveDot(activeIndex)` (services.js:152-161), called by a
      dot click with the dot's own position: only the dot at `activeIndex`
      is active, and none is when `activeIndex` is not a position. */
    method UpdateActiveDot(activeIndex: int)
      modifies this
      ensures active == OneHot(old(|active|), activeIndex)
      ensures CountActive(active) == if 0 <= activeIndex < |active| then 1 else 0
    {
      var i := 0;
      while i < |active|
        invariant 0 <= i <= |active| == old(|active|)
        invariant forall j :: 0 <= j < i ==> (active[j] <==> j == activeIndex)
      {
        if i == activeIndex {
          active := active[i := true];
        } else {
          active := active[i := false];
        }
        i := i + 1;
      }
      CountOneHot(|active|, activeIndex);
    }

    /** Half a second after the next button scrolls the strip
      (services.js:124-127): the dot of the card the strip was scrolled to,
      rounded from its position, capped at the last card. */
    method AfterNext(scrolledIndex: int)
      modifies this
      ensures active == OneHot(old(|active|), if scrolledIndex < old(|active|) - 1 then scrolledIndex else old(|active|) - 1)
    {
      UpdateActiveDot(if scrolledIndex < |active| - 1 then scrolledIndex else |active| - 1);
    }

    /** Half a second after the prev button scrolls the strip
      (services.js:136-139): the dot of that card, floored at the first. */
    method AfterPrev(scrolledIndex: int)
      modifies this
      ensures active == OneHot(old(|active|), if scrolledIndex > 0 then scrolledIndex else 0)
    {
      UpdateActiveDot(if scrolledIndex > 0 then scrolledIndex else 0);
    }
  }

  // ---------------------------------------------------------------------
  // FAQ accordion (services.js:256-276)
  // ---------------------------------------------------------------------

  /** The `.services-faq-item` elements by whether they carry `active`. */
  class Faq {
    var active: seq<bool>

    constructor (active: seq<bool>)
      ensures this.active == active
    {
      this.active := active;
    }

    /** A click on the question of item `k`: every item is closed, and item
      `k` is opened again exactly when it was closed before the click, so
      at most one item is ever open afterwards. */
    method Click(k: nat)
      requires k < |active|
      modifies this
      ensures |active| == old(|active|)
      ensures old(active[k]) ==> active == OneHot(|active|, -1)
      ensures !old(active[k]) ==> active == OneHot(|active|, k)
      ensures CountActive(active) <= 1
    {
      var isActive := active[k];
      var i := 0;
      while i < |active|
        invariant 0 <= i <= |active| == old(|active|)
        invariant forall j :: 0 <= j < i ==> !active[j]
      {
        active := active[i := false];
        i := i + 1;
      }
      if !isActive {
        active := active[k := true];
        assert active == OneHot(|active|, k);
        CountOneHot(|active|, k);
      } else {
        assert active == OneHot(|active|, -1);
        CountOneHot(|active|, -1);
      }
    }
  }

  // ---------------------------------------------------------------------
  // Pricing toggle (services.js:278-308)
  // ---------------------------------------------------------------------

  /** The monthly/yearly switch, the body's `yearly-pricing` class and the
      two labels' `active` classes. */
  class Pricing {
    var checked: bool
    var yearlyPricing: bool
    var monthlyActive: bool
    var yearlyActive: bool

    /** The page shows the plan the switch selects, and exactly one label
      is active. */
    ghost predicate Synced()
      reads this
    {
      && yearlyPricing == checked && yearlyActive == checked && monthlyActive == !checked
    }

    constructor (checked: bool, yearlyPricing: bool, monthlyActive: bool, yearlyActive: bool)
      ensures this.checked == checked && this.yearlyPricing == yearlyPricing
      ensures this.monthlyActive == monthlyActive && this.yearlyActive == yearlyActive
    {
      this.checked := checked;
      this.yearlyPricing := yearlyPricing;
      this.monthlyActive := monthlyActive;
      this.yearlyActive := yearlyActive;
    }

    /** The `change` handler (services.js:284-296). */
    method Change()
      modifies this`yearlyPricing, this`monthlyActive, this`yearlyActive
      ensures Synced()
    {
      if checked {
        yearlyPricing := true;
        monthlyActive := false;
        yearlyActive := true;
      } else {
        yearlyPricing := false;
        yearlyActive := false;
        monthlyActive := true;
      }
    }

    /** A click on the monthly label (services.js:299-302). */
    method MonthlyClick()
      modifies this
      ensures Synced() && !checked && !yearlyPricing && monthlyActive && !yearlyActive
    {
      checked := false;
      Change();
    }

    /** A click on the yearly label (services.js:304-307). */
    method YearlyClick()
      modifies this
      ensures Synced() && checked && yearlyPricing && !monthlyActive && yearlyActive
    {
      checked := true;
      Change();
    }
  }

  // ---------------------------------------------------------------------
  // Stats counters (services.js:210-254)
  // ---------------------------------------------------------------------

  /** The `statsAnimated` latch around the counter animation. */
  class Stats {
    /** Number of `.services-stat-number` elements. */
    const statCount: nat
    /** Whether the page has the `.services-hero-stats` section. */
    const hasSection: bool
    var statsAnimated: bool
    /** How many times the counters have been started. */
    var starts: nat

    ghost predicate Valid()
      reads this
    {
      starts <= 1 && (statsAnimated <==> starts == 1)
    }

    constructor (statCount: nat, hasSection: bool)
      ensures Valid() && this.statCount == statCount && this.hasSection == hasSection
      ensures !statsAnimated && starts == 0
    {
      this.statCount := statCount;
      this.hasSection := hasSection;
      statsAnimated := false;
      starts := 0;
    }

    /** `checkStatsInView` (services.js:233-250), run on load and on every
      scroll: the counters start when the section's top is above 80% of
      the window height, and only the first time. */
    method CheckStatsInView(sectionTop: int, windowHeight: int)
      requires Valid()
      modifies this
      ensures Valid()
      ensures starts == old(starts) +
        if !old(statsAnimated) && statCount > 0 && hasSection && 5 * sectionTop < 4 * windowHeight then 1 else 0
    {
      if statsAnimated || statCount == 0 {
        return;
      }
      if !hasSection {
        return;
      }
      if 5 * sectionTop < 4 * windowHeight {
        statsAnimated := true;
        starts := starts + 1;
      }
    }
  }
}
