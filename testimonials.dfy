/**
 * The testimonial carousel (src/sections/Testimonials.jsx): one index into a
 * fixed list, moved by the arrow buttons, the dots and a 5-second
 * auto-advance interval that runs only while the pointer is off the cards.
 */
module Testimonials {
  import opened JsMath
  import opened Wrappers

  /** A quote; the third entry has its name, role, avatar and rating left out. */
  datatype Testimonial = Testimonial(
    name: Option<string>, role: Option<string>, avatar: Option<string>,
    rating: Option<nat>, text: string, project: string)

  const AllTestimonials: seq<Testimonial> := [
    Testimonial(Some("Shitij Agarwal"), Some("UI/UX Designer at JP Morgan"), Some("SA"), Some(5),
      "You delivered our full-stack MVP in record time. The architecture decisions you made saved us months of refactoring. Highly recommended!",
      "Mock Web App"),
    Testimonial(Some("Shubham Verma"), Some("CTO at Skillmigle"), Some("SV"), Some(5),
      "You delivered our full-stack Hackathon hosting platform in record time. The code quality and architecture decisions you made saved us months of refactoring. Highly recommended!",
      "SaaS Platform"),
    Testimonial(None, None, None, None,
      "Good things come to those who hustle. Let's build something great together!",
      "I would love to see your name here!")
  ]

  /** `testimonials.length`. */
  const Count: nat := |AllTestimonials|

  /** The star row: `Array.from({ length: rating })`, empty when the rating is missing. */
  function Stars(t: Testimonial): (n: nat)
    ensures t.rating.Some? ==> n == t.rating.value
    ensures t.rating.None? ==> n == 0
  {
    match t.rating
    case Some(n) => n
    case None => 0
  }

  /** The two rated quotes show five stars, the third none. */
  lemma StarsShown()
    ensures Stars(AllTestimonials[0]) == 5 && Stars(AllTestimonials[1]) == 5
    ensures Stars(AllTestimonials[2]) == 0
  {
  }

  /** The updater of `nextTestimonial` and of the auto-advance tick: `(prev + 1) % length`. */
  function Next(i: int): (r: int)
    requires 0 <= i < Count
    ensures 0 <= r < Count
    ensures r == if i == Count - 1 then 0 else i + 1
  {
    JsRem(i + 1, Count)
  }

  /** The updater of `prevTestimonial`: `(prev - 1 + length) % length`. */
  function Prev(i: int): (r: int)
    requires 0 <= i < Count
    ensures 0 <= r < Count
    ensures r == if i == 0 then Count - 1 else i - 1
  {
    JsRem(i - 1 + Count, Count)
  }

  /** Next and Prev undo each other. */
  lemma NextPrevInverse(i: int)
    requires 0 <= i < Count
    ensures Prev(Next(i)) == i
    ensures Next(Prev(i)) == i
  {
  }

  /** The index after k presses of the right arrow (or k ticks). */
  function Advance(i: int, k: nat): (r: int)
    requires 0 <= i < Count
    ensures 0 <= r < Count
  {
    if k == 0 then i else Next(Advance(i, k - 1))
  }

  /** k presses move the index by k places around the ring. */
  lemma {:induction false} AdvanceIsRotation(i: int, k: nat)
    requires 0 <= i < Count
    ensures Advance(i, k) == (i + k) % Count
  {
    if k > 0 {
      AdvanceIsRotation(i, k - 1);
      var j := (i + k - 1) % Count;
      assert (j + 1) % Count == (i + k) % Count by {
        assert i + k - 1 == ((i + k - 1) / Count) * Count + j;
        assert i + k == ((i + k - 1) / Count) * Count + (j + 1);
        ModShift((i + k - 1) / Count, j + 1);
      }
    }
  }

  /** Adding whole turns does not change the remainder. */
  lemma {:induction false} ModShift(q: int, m: int)
    requires q >= 0 && m >= 0
    ensures (q * Count + m) % Count == m % Count
  {
    if q > 0 {
      ModShift(q - 1, m);
      assert q * Count + m == ((q - 1) * Count + m) + Count;
    }
  }

  /** Going round the whole list brings the carousel back to where it started. */
  lemma FullTurn(i: int)
    requires 0 <= i < Count
    ensures Advance(i, Count) == i
  {
    AdvanceIsRotation(i, Count);
    ModShift(1, i);
  }

  class Carousel {
    var currentIndex: int
    var isHovered: bool
    /** Whether the auto-advance interval of the hover effect is currently scheduled. */
    var timerScheduled: bool

    /** The index stays in range and the interval exists exactly while not hovered. */
    ghost predicate Valid()
      reads this
    {
      0 <= currentIndex < Count && timerScheduled == !isHovered
    }

    /** The quote that is shown at full opacity; all others are hidden. */
    function Shown(): (t: Testimonial)
      reads this
      requires Valid()
      ensures t in AllTestimonials
    {
      AllTestimonials[currentIndex]
    }

    /** Mount: the first quote, not hovered, so the effect schedules the interval. */
    constructor ()
      ensures Valid()
      ensures currentIndex == 0 && !isHovered && timerScheduled
    {
      currentIndex := 0;
      isHovered := false;
      timerScheduled := true;
    }

    method NextTestimonial()
      requires Valid()
      modifies this`currentIndex
      ensures Valid()
      ensures currentIndex == Next(old(currentIndex))
    {
      currentIndex := JsRem(currentIndex + 1, Count);
    }

    method PrevTestimonial()
      requires Valid()
      modifies this`currentIndex
      ensures Valid()
      ensures currentIndex == Prev(old(currentIndex))
    {
      currentIndex := JsRem(currentIndex - 1 + Count, Count);
    }

    /** Dot k, one per quote. */
    method SelectDot(k: int)
      requires Valid()
      requires 0 <= k < Count
      modifies this`currentIndex
      ensures Valid()
      ensures currentIndex == k
    {
      currentIndex := k;
    }

    /** One tick of the interval; ticks arrive only while it is scheduled. It is the Next transition. */
    method Tick()
      requires Valid()
      requires timerScheduled
      modifies this`currentIndex
      ensures Valid()
      ensures currentIndex == Next(old(currentIndex))
    {
      currentIndex := JsRem(currentIndex + 1, Count);
    }

    /** Entering the cards sets the hover, and the effect's cleanup clears the interval. */
    method MouseEnter()
      requires Valid()
      modifies this`isHovered, this`timerScheduled
      ensures Valid()
      ensures isHovered && !timerScheduled
      ensures currentIndex == old(currentIndex)
    {
      isHovered := true;
      timerScheduled := false;
    }

    /** Leaving the cards clears the hover, and the effect schedules a fresh interval. */
    method MouseLeave()
      requires Valid()
      modifies this`isHovered, this`timerScheduled
      ensures Valid()
      ensures !isHovered && timerScheduled
      ensures currentIndex == old(currentIndex)
    {
      isHovered := false;
      timerScheduled := true;
    }
  }
}
