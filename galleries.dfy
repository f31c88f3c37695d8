/**
 * The fixed table of project image galleries and the index arithmetic of the
 * two ways of browsing them: the in-card carousel, which wraps around, and the
 * full-screen modal, which stops at either end.
 */
module Galleries {

  /** `imageGalleries`: project name to the paths of its images, in display order. */
  function ImageGalleries(): (t: map<string, seq<string>>)
    ensures t.Keys == {"gptsites", "paperstrike", "simpson", "beatnhit", "drowned", "dust2"}
    ensures forall name :: name in t ==> |t[name]| > 0
  {
    map[
      "gptsites" := ["resources/gpt1.png", "resources/gpt2.png", "resources/gpt3.png", "resources/gpt4.png"],
      "paperstrike" := ["resources/paper1.jpg", "resources/paper2.jpg", "resources/paper3.jpg"],
      "simpson" := ["resources/simpson1.jpg", "resources/simpson2.jpg"],
      "beatnhit" := ["resources/beat1.jpg", "resources/beat2.jpg", "resources/beat3.jpg"],
      "drowned" := ["resources/logoDrowned.png", "resources/drowned1.png", "resources/drowned2.png"],
      "dust2" := ["resources/dust2_1.png", "resources/dust2_2.png"]
    ]
  }

  /**
   * `gallery[i]` as JavaScript evaluates it when the result is assigned to an
   * image's `src`: an index outside the array yields `undefined`, which the
   * assignment turns into the text "undefined".
   */
  function ImageAt(gallery: seq<string>, i: int): (src: string)
    ensures 0 <= i < |gallery| ==> src == gallery[i]
  {
    if 0 <= i < |gallery| then gallery[i] else "undefined"
  }

  // ---------------------------------------------------------------------------
  // The carousel of a project card

  /** The new carousel index after a step by `direction` from `index` in a gallery of `count` images. */
  function CarouselStep(index: int, direction: int, count: nat): (r: int)
    requires count > 0
    ensures 0 <= r < count
    ensures 0 <= index + direction < count ==> r == index + direction
    ensures index + direction < 0 ==> r == count - 1
    ensures index + direction >= count ==> r == 0
  {
    var moved := index + direction;
    if moved < 0 then count - 1 else if moved >= count then 0 else moved
  }

  /** Stepping forward from the last image shows the first one. */
  lemma CarouselWrapsForward(count: nat)
    requires count > 0
    ensures CarouselStep(count - 1, 1, count) == 0
  {
  }

  /** Stepping back from the first image shows the last one. */
  lemma CarouselWrapsBackward(count: nat)
    requires count > 0
    ensures CarouselStep(0, -1, count) == count - 1
  {
  }

  /** A step forward and a step back undo each other, in either order. */
  lemma CarouselStepsUndo(index: int, count: nat)
    requires 0 <= index < count
    ensures CarouselStep(CarouselStep(index, 1, count), -1, count) == index
    ensures CarouselStep(CarouselStep(index, -1, count), 1, count) == index
  {
  }

  /** The index reached by k steps forward. */
  function CarouselForward(index: int, k: nat, count: nat): (r: int)
    requires count > 0
    ensures k > 0 ==> 0 <= r < count
  {
    if k == 0 then index else CarouselStep(CarouselForward(index, k - 1, count), 1, count)
  }

  lemma ModOfDecomposition(a: int, n: int, q: int, r: int)
    requires n > 0 && 0 <= r < n && a == q * n + r
    ensures a % n == r
  {
    var q', r' := a / n, a % n;
    assert q * n + r == q' * n + r';
    if q > q' {
      MulAtLeast(q - q', n);
    } else if q < q' {
      MulAtLeast(q' - q, n);
    }
  }

  lemma {:induction false} MulAtLeast(d: int, n: nat)
    requires d >= 1
    ensures d * n >= n
  {
    if d > 1 {
      MulAtLeast(d - 1, n);
      assert d * n == (d - 1) * n + n;
    }
  }

  /** The remainder of a + 1 is one more than that of a, or 0 after count - 1. */
  lemma ModSuccessor(a: int, count: nat)
    requires count > 0
    ensures (a + 1) % count == if a % count + 1 < count then a % count + 1 else 0
  {
    var q, r := a / count, a % count;
    assert a == q * count + r;
    if r + 1 < count {
      ModOfDecomposition(a + 1, count, q, r + 1);
    } else {
      assert a + 1 == (q + 1) * count;
      ModOfDecomposition(a + 1, count, q + 1, 0);
    }
  }

  /** The carousel is a ring: k steps forward from image `index` show image (index + k) mod count. */
  lemma {:induction false} CarouselForwardIsModular(index: int, k: nat, count: nat)
    requires 0 <= index < count
    ensures CarouselForward(index, k, count) == (index + k) % count
  {
    if k == 0 {
      ModOfDecomposition(index, count, 0, index);
    } else {
      CarouselForwardIsModular(index, k - 1, count);
      ModSuccessor(index + k - 1, count);
    }
  }

  // ---------------------------------------------------------------------------
  // The modal viewer

  /** The index after `nextImage`: one further, unless already at the last image. */
  function NextIndex(index: int, count: nat): (r: int)
    ensures 0 <= index < count ==> 0 <= r < count && index <= r <= index + 1
  {
    if index < count - 1 then index + 1 else index
  }

  /** The index after `previousImage`: one back, unless already at the first image. */
  function PreviousIndex(index: int): (r: int)
    ensures index - 1 <= r <= index && (index >= 0 ==> r >= 0)
  {
    if index > 0 then index - 1 else index
  }

  /** `prevBtn.disabled` */
  predicate PrevDisabled(index: int) {
    index == 0
  }

  /** `nextBtn.disabled` */
  predicate NextDisabled(index: int, count: nat) {
    index == count - 1
  }

  /** Whether the modal's previous/next buttons are displayed at all. */
  predicate NavVisible(count: nat) {
    count > 1
  }

  /**
   * Within a gallery, each button is disabled exactly when pressing it would
   * change nothing.
   */
  lemma DisabledIffNoMove(index: int, count: nat)
    requires 0 <= index < count
    ensures PrevDisabled(index) <==> PreviousIndex(index) == index
    ensures NextDisabled(index, count) <==> NextIndex(index, count) == index
  {
  }

  /** With a single image both buttons are disabled; with more, never both. */
  lemma NavButtonsFollowCount(index: int, count: nat)
    requires 0 <= index < count
    ensures !NavVisible(count) ==> PrevDisabled(index) && NextDisabled(index, count)
    ensures NavVisible(count) ==> !(PrevDisabled(index) && NextDisabled(index, count))
  {
  }

  /** Away from the last image, next then previous returns to where it started. */
  lemma NextThenPrevious(index: int, count: nat)
    requires 0 <= index < count - 1
    ensures PreviousIndex(NextIndex(index, count)) == index
  {
  }

  /** The index reached by pressing next k times. */
  function NextTimes(index: int, k: nat, count: nat): int {
    if k == 0 then index else NextIndex(NextTimes(index, k - 1, count), count)
  }

  /** The modal clamps: k presses of next from `index` reach min(index + k, count - 1). */
  lemma {:induction false} NextTimesClamps(index: int, k: nat, count: nat)
    requires 0 <= index < count
    ensures NextTimes(index, k, count) == if index + k < count then index + k else count - 1
  {
    if k > 0 {
      NextTimesClamps(index, k - 1, count);
    }
  }
}
