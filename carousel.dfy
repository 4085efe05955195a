/** The image carousel index arithmetic shared by the property card, the detail page
    and the detail modal: a step forward or back that wraps at either end. */
module Carousel {

  /** The next-image button: the last image wraps to the first. */
  function Next(i: int, n: int): int
  {
    if i == n - 1 then 0 else i + 1
  }

  /** The previous-image button: the first image wraps to the last. */
  function Prev(i: int, n: int): int
  {
    if i == 0 then n - 1 else i - 1
  }

  /** k presses of the next button starting at i. */
  function NextTimes(i: int, n: int, k: nat): int
  {
    if k == 0 then i else Next(NextTimes(i, n, k - 1), n)
  }

  /** Both steps keep an in-range index in range. */
  lemma StepsInRange(i: int, n: int)
    requires 0 <= i < n
    ensures 0 <= Next(i, n) < n && 0 <= Prev(i, n) < n
  {
  }

  /** The wrap at both ends, and a plain step elsewhere. */
  lemma StepsWrap(i: int, n: int)
    requires 0 <= i < n
    ensures Next(n - 1, n) == 0 && Prev(0, n) == n - 1
    ensures i < n - 1 ==> Next(i, n) == i + 1
    ensures i > 0 ==> Prev(i, n) == i - 1
  {
  }

  /** Back undoes forward and forward undoes back. */
  lemma StepsInverse(i: int, n: int)
    requires 0 <= i < n
    ensures Prev(Next(i, n), n) == i && Next(Prev(i, n), n) == i
  {
  }

  /** Before the wrap, k forward presses move the index k places. */
  lemma {:induction false} NextTimesAdvance(i: int, n: int, k: nat)
    requires 0 <= i && i + k < n
    ensures NextTimes(i, n, k) == i + k
  {
    if k > 0 {
      NextTimesAdvance(i, n, k - 1);
    }
  }

  /** a presses and then b more are a + b presses. */
  lemma {:induction false} NextTimesCompose(i: int, n: int, a: nat, b: nat)
    ensures NextTimes(i, n, a + b) == NextTimes(NextTimes(i, n, a), n, b)
  {
    if b > 0 {
      NextTimesCompose(i, n, a, b - 1);
    }
  }

  /** From an index at or past the end, as a record with fewer images leaves it, the
      next button never wraps: k presses move the index k places further out. */
  lemma {:induction false} NextTimesPastEnd(i: int, n: int, k: nat)
    requires i >= n
    ensures NextTimes(i, n, k) == i + k
  {
    if k > 0 {
      NextTimesPastEnd(i, n, k - 1);
    }
  }

  /** Both steps keep the index non-negative, in range or not; from past the end the
      previous button moves back by one. */
  lemma StepsNonNegative(i: int, n: int)
    requires 0 <= i && n > 1
    ensures 0 <= Next(i, n) && 0 <= Prev(i, n)
    ensures i >= n ==> Next(i, n) == i + 1 && Prev(i, n) == i - 1
  {
  }

  /** n forward presses return to the starting image. */
  lemma FullCycle(i: int, n: int)
    requires 0 <= i < n
    ensures NextTimes(i, n, n) == i
  {
    NextTimesAdvance(i, n, n - 1 - i);
    NextTimesCompose(i, n, n - 1 - i, 1);
    NextTimesCompose(i, n, n - i, i);
    if i > 0 {
      NextTimesAdvance(0, n, i);
    }
  }
}
