/** The summary-card carousels of the dashboards: a position moved by ±1 and kept
    inside the range of first-visible-card positions. */
module Carousel {

  function Max(a: int, b: int): int {
    if a >= b then a else b
  }

  function Min(a: int, b: int): int {
    if a <= b then a else b
  }

  /** The last position at which a full view of cards is shown:
      `Math.max(0, count - perView)`. */
  function MaxPosition(count: nat, perView: int): nat {
    Max(0, count - perView)
  }

  /** `Math.max(0, Math.min(pos + dir, maxPosition))` */
  function Clamp(pos: int, dir: int, count: nat, perView: int): (r: int)
    ensures 0 <= r <= MaxPosition(count, perView)
    ensures 0 <= pos + dir <= MaxPosition(count, perView) ==> r == pos + dir
    ensures pos + dir < 0 ==> r == 0
    ensures pos + dir > MaxPosition(count, perView) ==> r == MaxPosition(count, perView)
  {
    Max(0, Min(pos + dir, MaxPosition(count, perView)))
  }

  /** The handler of the pages that measure the track: nothing happens when there
      are no cards. */
  function Move(pos: int, dir: int, count: nat, perView: int): (r: int)
    ensures count == 0 ==> r == pos
    ensures count > 0 ==> 0 <= r <= MaxPosition(count, perView)
  {
    if count == 0 then pos else Clamp(pos, dir, count, perView)
  }

  /** The item-purchase dashboard writes `Math.max(0, Math.min(pos + dir, n - 4))`
      without the inner `Math.max`; the outer one makes it the same clamp with four
      cards per view. */
  function MoveFourPerView(pos: int, dir: int, count: nat): (r: int)
    ensures r == Clamp(pos, dir, count, 4)
    ensures 0 <= r <= MaxPosition(count, 4)
  {
    Max(0, Min(pos + dir, count - 4))
  }

  /** Moving forward then back returns to an interior position. */
  lemma ForwardBack(pos: int, count: nat, perView: int)
    requires 0 <= pos && pos + 1 <= MaxPosition(count, perView)
    ensures Clamp(Clamp(pos, 1, count, perView), -1, count, perView) == pos
  {
  }
}
