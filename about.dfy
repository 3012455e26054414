/** The about page script, js/about.js: the "our story" milestones with
    their automatic rotation, and the testimonial slider of
    `initTestimonialSlider`. */
module About {
  import opened Selection
  import Cyclic

  // ---------------------------------------------------------------------
  // Our story (about.js:24-68)
  // ---------------------------------------------------------------------

  /** The progress bar width, in percent, for the milestone at `position`. */
  function Progress(position: nat): nat {
    (position + 1) * 25
  }

  /** The story section: the milestones by whether they carry `active` and
      by their `data-year`, the story cards by `data-year` and by whether
      they are turned over, the progress bar and the rotation index. */
  class Story {
    const milestoneYears: seq<string>
    const cardYears: seq<string>
    /** Whether the page has the `.about-progress-indicator` bar. */
    const hasProgress: bool
    var active: seq<bool>
    var flipped: seq<bool>
    /** The bar's width in percent. */
    var progress: nat
    /** The auto-rotation's `currentIndex`. */
    var currentIndex: int

    ghost predicate Valid()
      reads this
    {
      && |active| == |milestoneYears| && |flipped| == |cardYears|
      && (|cardYears| > 0 ==> 0 <= currentIndex < |cardYears|)
    }

    /** Page load (about.js:25-32, 63): the first milestone gains `active`,
      the others keep what the page gave them. */
    constructor (milestoneYears: seq<string>, cardYears: seq<string>, hasProgress: bool,
                 active: seq<bool>, progress: nat)
      requires |active| == |milestoneYears|
      ensures Valid()
      ensures this.milestoneYears == milestoneYears && this.cardYears == cardYears && this.hasProgress == hasProgress
      ensures this.active == if |active| > 0 then active[0 := true] else active
      ensures flipped == seq(|cardYears|, i => false) && this.progress == progress && currentIndex == 0
    {
      this.milestoneYears := milestoneYears;
      this.cardYears := cardYears;
      this.hasProgress := hasProgress;
      this.active := if |active| > 0 then active[0 := true] else active;
      flipped := seq(|cardYears|, i => false);
      this.progress := progress;
      currentIndex := 0;
    }

    /** A click on the milestone at `position` (about.js:36-58): the bar
      grows to `(position + 1) * 25` percent, only this milestone is active,
      and every card of the same year is turned over. The bar stays within
      100 percent for the first four milestones only; from the fifth on it
      overflows its track. */
    method Click(position: nat)
      requires Valid() && position < |milestoneYears|
      modifies this`progress, this`active, this`flipped
      ensures Valid()
      ensures progress == if hasProgress then Progress(position) else old(progress)
      ensures hasProgress ==> (progress <= 100 <==> position < 4)
      ensures active == OneHot(|milestoneYears|, position)
      ensures CountActive(active) == 1
      ensures forall i :: 0 <= i < |cardYears| ==>
        flipped[i] == (old(flipped[i]) || cardYears[i] == milestoneYears[position])
    {
      var year := milestoneYears[position];
      if hasProgress {
        progress := (position + 1) * 25;
      }
      active := MarkOnly(active, position);
      CountOneHot(|milestoneYears|, position);
      var i := 0;
      while i < |flipped|
        invariant 0 <= i <= |flipped| == |cardYears|
        invariant active == OneHot(|milestoneYears|, position)
        invariant progress == if hasProgress then Progress(position) else old(progress)
        invariant forall j :: 0 <= j < i ==> flipped[j] == (old(flipped[j]) || cardYears[j] == year)
        invariant forall j :: i <= j < |flipped| ==> flipped[j] == old(flipped[j])
      {
        if cardYears[i] == year {
          flipped := flipped[i := true];
        }
        i := i + 1;
      }
    }

    /** A card turned back two seconds after its milestone was clicked
      (about.js:53-55). */
    method Unflip(i: nat)
      requires Valid() && i < |cardYears|
      modifies this`flipped
      ensures Valid() && flipped == old(flipped)[i := false]
    {
      flipped := flipped[i := false];
    }

    /** The five-second rotation (about.js:62-67), set up only when there are
      cards and milestones: the index moves on modulo the number of cards
      and the milestone at it is clicked. With more cards than milestones
      there is no milestone at the index, and the callback stops there with
      only the index moved. */
    method Rotate()
      requires Valid() && |cardYears| > 0 && |milestoneYears| > 0
      modifies this`currentIndex, this`progress, this`active, this`flipped
      ensures Valid()
      ensures currentIndex == Cyclic.Next(old(currentIndex), |cardYears|)
      ensures currentIndex < |milestoneYears| ==> active == OneHot(|milestoneYears|, currentIndex)
      ensures currentIndex < |milestoneYears| ==>
        progress == if hasProgress then Progress(currentIndex) else old(progress)
      ensures currentIndex < |milestoneYears| ==> forall i :: 0 <= i < |cardYears| ==>
        flipped[i] == (old(flipped[i]) || cardYears[i] == milestoneYears[currentIndex])
      ensures currentIndex >= |milestoneYears| ==>
        active == old(active) && progress == old(progress) && flipped == old(flipped)
    {
      Cyclic.NextPrevInverse(currentIndex, |cardYears|);
      currentIndex := (currentIndex + 1) % |cardYears|;
      if currentIndex < |milestoneYears| {
        Click(currentIndex);
      }
    }
  }

  /** The card the rotation is on after `k` ticks from the first one. */
  function Rotated(k: nat, n: nat): int
    requires n > 0
  {
    if k == 0 then 0 else Cyclic.Next(Rotated(k - 1, n), n)
  }

  /** The rotation shows the cards in order, one per tick, and is back on
      the first card after as many ticks as there are cards. */
  lemma {:induction false} RotationVisitsAll(k: nat, n: nat)
    requires n > 0 && k <= n
    ensures k < n ==> Rotated(k, n) == k
    ensures k == n ==> Rotated(k, n) == 0
  {
    if k > 0 {
      RotationVisitsAll(k - 1, n);
      if k < n {
        Cyclic.ModBy(k, n, 0);
      } else {
        Cyclic.ModBy(k, n, 1);
      }
    }
  }

  // ---------------------------------------------------------------------
  // Testimonial slider (about.js:338-461)
  // ---------------------------------------------------------------------

  /** `getVisibleSlides`: 1 card below 768 pixels, 2 below 992, 3 from there
      on. */
  function VisibleSlides(innerWidth: int): (n: int)
    ensures 1 <= n <= 3
    ensures n == 1 <==> innerWidth < 768
    ensures n == 2 <==> 768 <= innerWidth < 992
    ensures n == 3 <==> innerWidth >= 992
  {
    if innerWidth < 768 then 1 else if innerWidth < 992 then 2 else 3
  }

  /** The slider's closure state: the current card, the card width, the
      container's offset and the `.about-dot` elements by whether they carry
      `about-active`. */
  class Slider {
    const cardCount: nat
    /** Whether the slider has its `.about-slider-dots` container. */
    const hasDots: bool
    var innerWidth: int
    var currentIndex: int
    var slideWidth: int
    /** The container is shifted left by `offset` pixels. */
    var offset: int
    var dots: seq<bool>

    /** The index is a card, the container shows it, and only its dot is
      active. */
    ghost predicate Valid()
      reads this
    {
      && 0 <= currentIndex < cardCount
      && offset == currentIndex * slideWidth
      && (hasDots ==> dots == OneHot(cardCount, currentIndex))
    }

    /** The slider set up on a page with `cardCount` cards (about.js:349-352,
      422-445): one dot per card, the first active. */
    constructor (cardCount: nat, hasDots: bool, innerWidth: int, slideWidth: int)
      requires cardCount > 0
      ensures Valid() && this.cardCount == cardCount && this.hasDots == hasDots
      ensures this.innerWidth == innerWidth && this.slideWidth == slideWidth
      ensures currentIndex == 0 && offset == 0
    {
      this.cardCount := cardCount;
      this.hasDots := hasDots;
      this.innerWidth := innerWidth;
      currentIndex := 0;
      this.slideWidth := slideWidth;
      offset := 0;
      dots := if hasDots then OneHot(cardCount, 0) else [];
    }

    /** `updateSlider` (about.js:367-382): the offset is the current index
      times the card width and only the dot at the index is active. */
    method UpdateSlider()
      requires 0 <= currentIndex < cardCount && (hasDots ==> |dots| == cardCount)
      modifies this`offset, this`dots
      ensures Valid()
      ensures !hasDots ==> dots == old(dots)
    {
      offset := currentIndex * slideWidth;
      if hasDots {
        var i := 0;
        while i < |dots|
          invariant 0 <= i <= |dots| == cardCount
          invariant offset == currentIndex * slideWidth
          invariant forall j :: 0 <= j < i ==> (dots[j] <==> j == currentIndex)
        {
          if i == currentIndex {
            dots := dots[i := true];
          } else {
            dots := dots[i := false];
          }
          i := i + 1;
        }
      }
    }

    /** `goToPrev` (about.js:385-390): back one card unless on the first. */
    method GoToPrev()
      requires Valid()
      modifies this`currentIndex, this`offset, this`dots
      ensures Valid()
      ensures currentIndex == if old(currentIndex) > 0 then old(currentIndex) - 1 else old(currentIndex)
    {
      if currentIndex > 0 {
        currentIndex := currentIndex - 1;
        UpdateSlider();
      }
    }

    /** `goToNext` (about.js:393-398): on one card while the visible cards
      do not yet reach the last one. */
    method GoToNext()
      requires Valid()
      modifies this`currentIndex, this`offset, this`dots
      ensures Valid()
      ensures currentIndex == if old(currentIndex) < cardCount - VisibleSlides(innerWidth)
        then old(currentIndex) + 1 else old(currentIndex)
      ensures currentIndex <= old(currentIndex) || currentIndex + VisibleSlides(innerWidth) <= cardCount
    {
      if currentIndex < cardCount - VisibleSlides(innerWidth) {
        currentIndex := currentIndex + 1;
        UpdateSlider();
      }
    }

    /** `goToSlide(index)`, the dot click (about.js:401-406, 429): an index
      outside the cards is ignored. */
    method GoToSlide(index: int)
      requires Valid()
      modifies this`currentIndex, this`offset, this`dots
      ensures Valid()
      ensures currentIndex == if 0 <= index < cardCount then index else old(currentIndex)
    {
      if index >= 0 && index < cardCount {
        currentIndex := index;
        UpdateSlider();
      }
    }

    /** A window resize (about.js:448-451): the card width is measured
      again and the slider redrawn. */
    method Resize(width: int, newSlideWidth: int)
      requires Valid()
      modifies this
      ensures Valid() && innerWidth == width && slideWidth == newSlideWidth
      ensures currentIndex == old(currentIndex) && offset == currentIndex * newSlideWidth
    {
      innerWidth := width;
      slideWidth := newSlideWidth;
      UpdateSlider();
    }
  }
}
