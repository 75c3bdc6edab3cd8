/** The index arithmetic behind card and question navigation. */
module Navigation {

  /** `nextCard`: `(i + 1) % n`, the next position, wrapping from the last
      card to the first. */
  function Next(i: int, n: int): (r: int)
    requires 0 <= i < n
    ensures 0 <= r < n
    ensures r == if i == n - 1 then 0 else i + 1
  {
    (i + 1) % n
  }

  /** `previousCard`: the previous position, wrapping from the first card to
      the last. */
  function Previous(i: int, n: int): (r: int)
    requires 0 <= i < n
    ensures 0 <= r < n
    ensures r == (i - 1) % n
  {
    if i > 0 then i - 1 else n - 1
  }

  /** Stepping back undoes stepping forward, and the other way round. */
  lemma NextPreviousInverse(i: int, n: int)
    requires 0 <= i < n
    ensures Previous(Next(i, n), n) == i
    ensures Next(Previous(i, n), n) == i
  {
  }

  /** The position `showCard` settles on for a requested `index`: -1 (or any
      negative index) becomes the last card, `n` (or anything beyond) the
      first, and an index in range stays as it is. */
  function ShowIndex(index: int, n: int): (r: int)
    requires n > 0
    ensures 0 <= r < n
    ensures 0 <= index < n ==> r == index
    ensures index < 0 ==> r == n - 1
    ensures index >= n ==> r == 0
  {
    var i := if index < 0 then n - 1 else index;
    if i >= n then 0 else i
  }

  /** Asking `showCard` for one past either end lands where `nextCard` and
      `previousCard` land: the display's own wrap-around agrees with theirs. */
  lemma ShowIndexWrapsLikeNavigation(i: int, n: int)
    requires 0 <= i < n
    ensures ShowIndex(i + 1, n) == Next(i, n)
    ensures ShowIndex(i - 1, n) == Previous(i, n)
  {
  }

  /** `nextCard` applied `k` times. */
  function Advance(i: int, n: int, k: nat): (r: int)
    requires 0 <= i < n
    ensures 0 <= r < n
    decreases k
  {
    if k == 0 then i else Next(Advance(i, n, k - 1), n)
  }

  /** `previousCard` applied `k` times. */
  function Retreat(i: int, n: int, k: nat): (r: int)
    requires 0 <= i < n
    ensures 0 <= r < n
    decreases k
  {
    if k == 0 then i else Previous(Retreat(i, n, k - 1), n)
  }

  /** Forward steps that do not reach past the last card just add up. */
  lemma {:induction false} AdvanceWithinRange(i: int, n: int, k: nat)
    requires 0 <= i && i + k < n
    ensures Advance(i, n, k) == i + k
    decreases k
  {
    if k > 0 {
      AdvanceWithinRange(i, n, k - 1);
    }
  }

  /** Backward steps that do not reach past the first card just subtract. */
  lemma {:induction false} RetreatWithinRange(i: int, n: int, k: nat)
    requires k <= i < n
    ensures Retreat(i, n, k) == i - k
    decreases k
  {
    if k > 0 {
      RetreatWithinRange(i, n, k - 1);
    }
  }

  /** `a + b` forward steps are `a` steps followed by `b` steps. */
  lemma {:induction false} AdvanceCompose(i: int, n: int, a: nat, b: nat)
    requires 0 <= i < n
    ensures Advance(i, n, a + b) == Advance(Advance(i, n, a), n, b)
    decreases b
  {
    if b > 0 {
      AdvanceCompose(i, n, a, b - 1);
    }
  }

  /** `a + b` backward steps are `a` steps followed by `b` steps. */
  lemma {:induction false} RetreatCompose(i: int, n: int, a: nat, b: nat)
    requires 0 <= i < n
    ensures Retreat(i, n, a + b) == Retreat(Retreat(i, n, a), n, b)
    decreases b
  {
    if b > 0 {
      RetreatCompose(i, n, a, b - 1);
    }
  }

  /** `nextCard` called once per card returns to the starting card: it
      walks to the last card, wraps to the first and walks back up to `i`. */
  lemma FullCycleForward(i: int, n: int)
    requires 0 <= i < n
    ensures Advance(i, n, n) == i
  {
    AdvanceWithinRange(i, n, n - 1 - i);
    assert Advance(i, n, n - i) == 0;
    AdvanceCompose(i, n, n - i, i);
    AdvanceWithinRange(0, n, i);
  }

  /** `previousCard` called once per card returns to the starting card. */
  lemma FullCycleBackward(i: int, n: int)
    requires 0 <= i < n
    ensures Retreat(i, n, n) == i
  {
    RetreatWithinRange(i, n, i);
    assert Retreat(i, n, i + 1) == n - 1;
    RetreatCompose(i, n, i + 1, n - 1 - i);
    RetreatWithinRange(n - 1, n, n - 1 - i);
  }

  /** `showQuestion`: `Math.max(0, Math.min(index, n - 1))`. Unlike
      `ShowIndex` it clamps instead of wrapping: an index below the range
      gives the first question, one above it the last. */
  function ClampIndex(index: int, n: int): (r: int)
    requires n > 0
    ensures 0 <= r < n
    ensures 0 <= index < n ==> r == index
    ensures index < 0 ==> r == 0
    ensures index >= n ==> r == n - 1
  {
    var upper := if index < n - 1 then index else n - 1;
    if 0 > upper then 0 else upper
  }
}
