/**
 * The meal-plan carousel of the home page: the index of the recipe shown, moved by the
 * arrows and the dots.
 */
module MealPlanHero {

  /** JavaScript's `%`: the remainder takes the sign of the dividend. */
  function JsRem(a: int, n: int): (r: int)
    requires n != 0
    ensures a >= 0 ==> r == a % n
    ensures a < 0 ==> r == -((-a) % n)
  {
    if a >= 0 then a % n else -((-a) % n)
  }

  /** `nextSlide`: `(prev + 1) % length`. */
  function NextSlide(i: int, n: int): (r: int)
    requires n > 0
    ensures 0 <= i < n ==> 0 <= r < n
    ensures 0 <= i < n - 1 ==> r == i + 1
    ensures i == n - 1 ==> r == 0
  {
    JsRem(i + 1, n)
  }

  /** `prevSlide`: `(prev - 1 + length) % length`. */
  function PrevSlide(i: int, n: int): (r: int)
    requires n > 0
    ensures 0 <= i < n ==> 0 <= r < n
    ensures 0 < i < n ==> r == i - 1
    ensures i == 0 ==> r == n - 1
  {
    JsRem(i - 1 + n, n)
  }

  /** The two arrows undo each other on every valid index. */
  lemma ArrowsInverse(i: int, n: int)
    requires 0 <= i < n
    ensures PrevSlide(NextSlide(i, n), n) == i
    ensures NextSlide(PrevSlide(i, n), n) == i
  {
  }

  /** The index after `k` presses of the right arrow. */
  function Forward(i: int, n: int, k: nat): int
    requires n > 0
  {
    if k == 0 then i else NextSlide(Forward(i, n, k - 1), n)
  }

  /** Pressing `a` times and then `b` times is pressing `a + b` times. */
  lemma {:induction false} ForwardAdd(i: int, n: int, a: nat, b: nat)
    requires n > 0
    ensures Forward(i, n, a + b) == Forward(Forward(i, n, a), n, b)
  {
    if b > 0 {
      ForwardAdd(i, n, a, b - 1);
      assert a + b - 1 == a + (b - 1);
    }
  }

  /** Short of the last recipe, `k` presses move `k` places to the right. */
  lemma {:induction false} ForwardNoWrap(i: int, n: int, k: nat)
    requires 0 <= i && i + k < n
    ensures Forward(i, n, k) == i + k
  {
    if k > 0 {
      ForwardNoWrap(i, n, k - 1);
    }
  }

  /** Going all the way round returns to the recipe one started from. */
  lemma FullTurn(i: int, n: int)
    requires 0 <= i < n
    ensures Forward(i, n, n) == i
  {
    var a: nat := n - 1 - i;
    ForwardNoWrap(i, n, a);
    ForwardAdd(i, n, a, 1);
    assert Forward(n - 1, n, 1) == NextSlide(n - 1, n) == 0;
    assert a + 1 == n - i;
    ForwardNoWrap(0, n, i);
    ForwardAdd(i, n, n - i, i);
    assert n - i + i == n;
  }

  /** Arrows and dots are rendered only for a plan of more than one recipe. */
  function ControlsShown(n: int): (s: bool)
    ensures s <==> n > 1
  {
    n > 1
  }

  /** Wherever the arrows are rendered, the slide functions are defined (no `% 0`), and
      each arrow moves to a different valid recipe. */
  lemma ShownArrowsMove(n: int, i: int)
    requires ControlsShown(n) && 0 <= i < n
    ensures n > 0
    ensures 0 <= NextSlide(i, n) < n && NextSlide(i, n) != i
    ensures 0 <= PrevSlide(i, n) < n && PrevSlide(i, n) != i
  {
  }

  /** The dot of the index shown is the highlighted one, and only that one. */
  function DotActive(index: int, current: int): bool {
    index == current
  }

  lemma OneActiveDot(n: int, current: int)
    requires 0 <= current < n
    ensures DotActive(current, current)
    ensures forall k :: 0 <= k < n && k != current ==> !DotActive(k, current)
  {
  }

  /** The carousel's own state. */
  class Carousel {
    var currentIndex: int

    constructor()
      ensures currentIndex == 0
    {
      currentIndex := 0;
    }

    /** The right arrow, for a plan of `n` recipes. */
    method Next(n: int)
      requires n > 0
      modifies this
      ensures currentIndex == NextSlide(old(currentIndex), n)
      ensures 0 <= old(currentIndex) < n ==> 0 <= currentIndex < n
    {
      currentIndex := NextSlide(currentIndex, n);
    }

    /** The left arrow. */
    method Prev(n: int)
      requires n > 0
      modifies this
      ensures currentIndex == PrevSlide(old(currentIndex), n)
      ensures 0 <= old(currentIndex) < n ==> 0 <= currentIndex < n
    {
      currentIndex := PrevSlide(currentIndex, n);
    }

    /** A click on dot `k` shows recipe `k`. */
    method DotClick(k: int)
      modifies this
      ensures currentIndex == k
    {
      currentIndex := k;
    }
  }
}
