/**
 * The image carousel of the advertisement details page: an index into the
 * advertisement's `n` images, stepped forward and back with wrap-around, and
 * a row of `n` indicator dots of which the current one is highlighted.
 */
module AdDetails {

  /** The `nextImage` updater: the last index wraps to 0, any other index moves up by one. */
  function NextImage(i: int, n: int): (r: int)
    ensures 0 <= i < n ==> 0 <= r < n && r == (i + 1) % n
  {
    if i == n - 1 then 0 else i + 1
  }

  /** The `prevImage` updater: index 0 wraps to the last index, any other index moves down by one. */
  function PrevImage(i: int, n: int): (r: int)
    ensures 0 <= i < n ==> 0 <= r < n && r == (i - 1 + n) % n
  {
    if i == 0 then n - 1 else i - 1
  }

  lemma PrevUndoesNext(i: int, n: int)
    requires 0 <= i < n
    ensures PrevImage(NextImage(i, n), n) == i
  {
  }

  lemma NextUndoesPrev(i: int, n: int)
    requires 0 <= i < n
    ensures NextImage(PrevImage(i, n), n) == i
  {
  }

  /** With a single image both controls keep the index at 0. */
  lemma SingleImageStays()
    ensures NextImage(0, 1) == 0 && PrevImage(0, 1) == 0
  {
  }

  /** The index after `k` clicks on the next control. */
  function NextTimes(k: nat, i: int, n: int): int
  {
    if k == 0 then i else NextImage(NextTimes(k - 1, i, n), n)
  }

  /** Up to `n` clicks forward move the index by `k`, wrapping past the last image once. */
  lemma {:induction false} NextTimesShifts(k: nat, i: int, n: int)
    requires 0 <= i < n && k <= n
    ensures NextTimes(k, i, n) == if i + k < n then i + k else i + k - n
  {
    if k > 0 {
      NextTimesShifts(k - 1, i, n);
    }
  }

  /** Clicking next `n` times returns to the starting image. */
  lemma NextPeriod(i: int, n: int)
    requires 0 <= i < n
    ensures NextTimes(n, i, n) == i
  {
    NextTimesShifts(n, i, n);
  }

  /** The click sequence repeats with period `n`: `k + n` clicks land where `k` clicks do. */
  lemma {:induction false} NextTimesPeriodic(k: nat, i: int, n: int)
    requires 0 <= i < n
    ensures NextTimes(k + n, i, n) == NextTimes(k, i, n)
  {
    if k == 0 {
      NextPeriod(i, n);
    } else {
      NextTimesPeriodic(k - 1, i, n);
    }
  }

  /** The indicator row: dot `k` is highlighted exactly when `k` is the current index. */
  function Indicators(n: nat, current: int): (r: seq<bool>)
    ensures |r| == n
    ensures forall k :: 0 <= k < n ==> (r[k] <==> k == current)
  {
    seq(n, k => k == current)
  }

  /** The number of highlighted dots. */
  function Highlighted(s: seq<bool>): nat
  {
    if s == [] then 0 else Highlighted(s[..|s| - 1]) + (if s[|s| - 1] then 1 else 0)
  }

  lemma {:induction false} HighlightedCount(n: nat, current: int)
    ensures Highlighted(Indicators(n, current)) == if 0 <= current < n then 1 else 0
  {
    if n > 0 {
      assert Indicators(n, current)[..n - 1] == Indicators(n - 1, current);
      HighlightedCount(n - 1, current);
    }
  }

  /** Exactly one dot is highlighted while the index is in range. */
  lemma ExactlyOneHighlighted(n: nat, current: int)
    requires 0 <= current < n
    ensures Highlighted(Indicators(n, current)) == 1
  {
    HighlightedCount(n, current);
  }

  /** `currentImageIndex`, the page state the two controls update. */
  class Carousel {
    var currentImageIndex: int

    /** `useState(0)`. */
    constructor ()
      ensures currentImageIndex == 0
    {
      currentImageIndex := 0;
    }

    /** The next control, which exists only when the advertisement has `n > 0` images. */
    method Next(n: int)
      requires 0 < n
      modifies this
      ensures currentImageIndex == NextImage(old(currentImageIndex), n)
      ensures 0 <= old(currentImageIndex) < n ==> 0 <= currentImageIndex < n
    {
      currentImageIndex := NextImage(currentImageIndex, n);
    }

    /** The previous control, under the same condition. */
    method Prev(n: int)
      requires 0 < n
      modifies this
      ensures currentImageIndex == PrevImage(old(currentImageIndex), n)
      ensures 0 <= old(currentImageIndex) < n ==> 0 <= currentImageIndex < n
    {
      currentImageIndex := PrevImage(currentImageIndex, n);
    }
  }
}
