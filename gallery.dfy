/**
 * The image carousel of src/components/property/PropertyGallery.tsx: a
 * current index that wraps around at both ends, and two flags recording
 * whether the current image has loaded or failed.
 */
module Gallery {

  /** The index after `goToNext` among `count` images. */
  function NextIndex(index: int, count: int): int {
    if index == count - 1 then 0 else index + 1
  }

  /** The index after `goToPrevious` among `count` images. */
  function PrevIndex(index: int, count: int): int {
    if index == 0 then count - 1 else index - 1
  }

  /** On a valid index, moving forward is adding one modulo the image count. */
  lemma NextIsModular(index: int, count: int)
    requires 0 <= index < count
    ensures NextIndex(index, count) == (index + 1) % count
    ensures 0 <= NextIndex(index, count) < count
  {
    if index < count - 1 {
      assert (index + 1) % count == index + 1;
    } else {
      assert (index + 1) % count == count % count == 0;
    }
  }

  /** On a valid index, moving back is subtracting one modulo the image count. */
  lemma PrevIsModular(index: int, count: int)
    requires 0 <= index < count
    ensures PrevIndex(index, count) == (index - 1 + count) % count
    ensures 0 <= PrevIndex(index, count) < count
  {
    if index > 0 {
      assert (index - 1 + count) % count == index - 1;
    }
  }

  /** Forward then back, or back then forward, returns to the same image. */
  lemma NextPrevInverse(index: int, count: int)
    requires 0 <= index < count
    ensures PrevIndex(NextIndex(index, count), count) == index
    ensures NextIndex(PrevIndex(index, count), count) == index
  {
  }

  /** The index after `steps` presses of the next button. */
  function Advance(index: int, count: int, steps: nat): int {
    if steps == 0 then index else NextIndex(Advance(index, count, steps - 1), count)
  }

  /** Until the last image is reached, each press moves one image forward. */
  lemma {:induction false} AdvanceForward(index: int, count: int, steps: nat)
    requires 0 <= index && index + steps < count
    ensures Advance(index, count, steps) == index + steps
  {
    if steps > 0 {
      AdvanceForward(index, count, steps - 1);
    }
  }

  /** Presses add up: `a` presses followed by `b` presses are `a + b` presses. */
  lemma {:induction false} AdvanceAdd(index: int, count: int, a: nat, b: nat)
    ensures Advance(index, count, a + b) == Advance(Advance(index, count, a), count, b)
  {
    if b > 0 {
      AdvanceAdd(index, count, a, b - 1);
    }
  }

  /** A full round of next presses comes back to the starting image. */
  lemma FullCircle(index: int, count: int)
    requires 0 <= index < count
    ensures Advance(index, count, count) == index
  {
    var toLast := count - 1 - index;
    AdvanceForward(index, count, toLast);
    AdvanceAdd(index, count, toLast, 1);
    assert Advance(index, count, toLast + 1) == 0;
    AdvanceAdd(index, count, toLast + 1, index);
    if index > 0 {
      AdvanceForward(0, count, index);
    }
  }

  class PropertyGallery {
    const images: seq<string>
    var currentIndex: int
    var imageLoaded: bool
    var imageError: bool

    ghost predicate Valid()
      reads this
    {
      |images| == 0 || 0 <= currentIndex < |images|
    }

    /** The initial state: first image, not yet loaded, no error. */
    constructor (images: seq<string>)
      ensures this.images == images
      ensures currentIndex == 0 && !imageLoaded && !imageError
      ensures Valid()
    {
      this.images := images;
      currentIndex := 0;
      imageLoaded := false;
      imageError := false;
    }

    /** With no images the placeholder is shown and there are no controls. */
    predicate ShowsPlaceholder()
      reads this
    {
      |images| == 0
    }

    /** The arrows appear for several images once the current one has loaded or failed. */
    predicate NavigationVisible()
      reads this
    {
      |images| > 1 && (imageLoaded || imageError)
    }

    predicate ThumbnailsVisible()
      reads this
    {
      |images| > 1
    }

    method GoToPrevious()
      requires Valid() && !ShowsPlaceholder()
      modifies this
      ensures Valid()
      ensures currentIndex == PrevIndex(old(currentIndex), |images|)
      ensures currentIndex == (old(currentIndex) - 1 + |images|) % |images|
      ensures !imageLoaded && !imageError
    {
      PrevIsModular(currentIndex, |images|);
      currentIndex := if currentIndex == 0 then |images| - 1 else currentIndex - 1;
      imageLoaded := false;
      imageError := false;
    }

    method GoToNext()
      requires Valid() && !ShowsPlaceholder()
      modifies this
      ensures Valid()
      ensures currentIndex == NextIndex(old(currentIndex), |images|)
      ensures currentIndex == (old(currentIndex) + 1) % |images|
      ensures !imageLoaded && !imageError
    {
      NextIsModular(currentIndex, |images|);
      currentIndex := if currentIndex == |images| - 1 then 0 else currentIndex + 1;
      imageLoaded := false;
      imageError := false;
    }

    /** A thumbnail sets the index to its own position. */
    method HandleThumbnailClick(index: int)
      requires Valid() && !ShowsPlaceholder()
      modifies this
      ensures currentIndex == index
      ensures 0 <= index < |images| ==> Valid()
      ensures !imageLoaded && !imageError
    {
      currentIndex := index;
      imageLoaded := false;
      imageError := false;
    }

    /** The image's `onLoad`. */
    method OnLoad()
      modifies this
      ensures imageLoaded && imageError == old(imageError) && currentIndex == old(currentIndex)
      ensures |images| > 1 ==> NavigationVisible()
    {
      imageLoaded := true;
    }

    /** The image's `onError`. */
    method OnError()
      modifies this
      ensures imageError && imageLoaded == old(imageLoaded) && currentIndex == old(currentIndex)
      ensures |images| > 1 ==> NavigationVisible()
    {
      imageError := true;
    }
  }
}
