/** The home page's image carousel: the next and previous buttons and the
    five-second auto-advance move one index around a ring of six images.
    The timer and the click sound are not modelled. */
module Carousel {

  /** The number of entries of `carouselImages`. */
  const ImageCount := 6

  /** Both updates add to a non-negative number before taking `%`, so the
      JavaScript remainder and Dafny's agree here. */
  function Next(i: int): int
    requires 0 <= i
  {
    (i + 1) % ImageCount
  }

  function Prev(i: int): int
    requires 0 <= i
  {
    (i - 1 + ImageCount) % ImageCount
  }

  /** Both moves land inside the ring, and each undoes the other. */
  lemma NextPrevInverse(i: int)
    requires 0 <= i < ImageCount
    ensures 0 <= Next(i) < ImageCount && 0 <= Prev(i) < ImageCount
    ensures Prev(Next(i)) == i && Next(Prev(i)) == i
  {
  }

  /** `n` auto-advances from `i`. */
  function Advance(i: int, n: nat): (r: int)
    requires 0 <= i < ImageCount
    ensures 0 <= r < ImageCount
  {
    if n == 0 then i else Next(Advance(i, n - 1))
  }

  /** `n` advances move `n` places around the ring. */
  lemma {:induction false} AdvanceIsShift(i: int, n: nat)
    requires 0 <= i < ImageCount
    ensures Advance(i, n) == (i + n) % ImageCount
  {
    if n > 0 {
      AdvanceIsShift(i, n - 1);
    }
  }

  /** Six advances bring the carousel back to the image it started on. */
  lemma FullCycle(i: int)
    requires 0 <= i < ImageCount
    ensures Advance(i, ImageCount) == i
  {
    AdvanceIsShift(i, ImageCount);
  }

  class ImageCarousel {
    var currentImage: int

    ghost predicate Valid()
      reads this
    {
      0 <= currentImage < ImageCount
    }

    constructor ()
      ensures Valid() && currentImage == 0
    {
      currentImage := 0;
    }

    /** `nextImage`, and one tick of the auto-advance timer. */
    method NextImage()
      requires Valid()
      modifies this
      ensures Valid() && currentImage == Next(old(currentImage))
    {
      currentImage := (currentImage + 1) % ImageCount;
    }

    /** `prevImage`. */
    method PrevImage()
      requires Valid()
      modifies this
      ensures Valid() && currentImage == Prev(old(currentImage))
    {
      currentImage := (currentImage - 1 + ImageCount) % ImageCount;
    }
  }
}
