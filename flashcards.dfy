/**
 * The formula flashcards: a deck of `n` cards, the index of the card shown,
 * whether it is turned over, and the set of card indices marked as mastered.
 */
module Flashcards {

  /** `(i + 1) % n`. */
  function NextIndex(i: nat, n: nat): (r: nat)
    requires i < n
    ensures r < n
    ensures r == if i == n - 1 then 0 else i + 1
  {
    (i + 1) % n
  }

  /** `(i - 1 + n) % n`. */
  function PreviousIndex(i: nat, n: nat): (r: nat)
    requires i < n
    ensures r < n
    ensures r == if i == 0 then n - 1 else i - 1
  {
    (i - 1 + n) % n
  }

  /** Going forward then back, or back then forward, returns to the same card. */
  lemma NextPreviousInverse(i: nat, n: nat)
    requires i < n
    ensures PreviousIndex(NextIndex(i, n), n) == i
    ensures NextIndex(PreviousIndex(i, n), n) == i
  {
  }

  /** The card reached from `i` by `k` presses of "next". */
  function Advance(i: nat, n: nat, k: nat): (r: nat)
    requires i < n
    ensures r < n
  {
    if k == 0 then i else NextIndex(Advance(i, n, k - 1), n)
  }

  /** Before the end of the deck, `k` presses of "next" move `k` cards on. */
  lemma {:induction false} AdvanceBelowEnd(i: nat, n: nat, k: nat)
    requires i + k < n
    ensures Advance(i, n, k) == i + k
  {
    if k > 0 {
      AdvanceBelowEnd(i, n, k - 1);
    }
  }

  /** Pressing "next" `a + b` times is pressing it `a` times, then `b` times. */
  lemma {:induction false} AdvanceSplit(i: nat, n: nat, a: nat, b: nat)
    requires i < n
    ensures Advance(i, n, a + b) == Advance(Advance(i, n, a), n, b)
  {
    if b > 0 {
      AdvanceSplit(i, n, a, b - 1);
    }
  }

  /** `n` presses of "next" go once round the deck and back to the start. */
  lemma FullRound(i: nat, n: nat)
    requires i < n
    ensures Advance(i, n, n) == i
  {
    AdvanceBelowEnd(i, n, n - 1 - i);
    AdvanceSplit(i, n, n - 1 - i, 1);
    assert Advance(i, n, n - i) == 0;
    AdvanceSplit(i, n, n - i, i);
    AdvanceBelowEnd(0, n, i);
  }

  /** `FormulaFlashcards`'s state over a deck of `n` cards. */
  class FlashcardDeck {
    const n: nat
    var currentIndex: nat
    var isFlipped: bool
    var mastered: set<nat>

    /** The index names a card and only cards can be mastered. */
    predicate Valid()
      reads this
    {
      currentIndex < n && forall k :: k in mastered ==> k < n
    }

    /** The first card, face up, nothing mastered; with no formulas no deck is shown. */
    constructor (n: nat)
      requires n > 0
      ensures Valid() && this.n == n && currentIndex == 0 && !isFlipped && mastered == {}
    {
      this.n := n;
      currentIndex := 0;
      isFlipped := false;
      mastered := {};
    }

    /** `handleNext`. */
    method Next()
      requires Valid()
      modifies this
      ensures Valid() && currentIndex == NextIndex(old(currentIndex), n) && !isFlipped && mastered == old(mastered)
    {
      isFlipped := false;
      currentIndex := (currentIndex + 1) % n;
    }

    /** `handlePrevious`. */
    method Previous()
      requires Valid()
      modifies this
      ensures Valid() && currentIndex == PreviousIndex(old(currentIndex), n) && !isFlipped && mastered == old(mastered)
    {
      isFlipped := false;
      currentIndex := (currentIndex - 1 + n) % n;
    }

    /** `toggleMastered`: the current card joins the set if it is absent and leaves it if present. */
    method ToggleMastered()
      requires Valid()
      modifies this
      ensures Valid()
      ensures mastered == Toggled(old(mastered), currentIndex)
      ensures currentIndex == old(currentIndex) && isFlipped == old(isFlipped)
    {
      if currentIndex in mastered {
        mastered := mastered - {currentIndex};
      } else {
        mastered := mastered + {currentIndex};
      }
    }

    /** A click on the card turns it over. */
    method Flip()
      modifies this
      ensures isFlipped == !old(isFlipped)
      ensures currentIndex == old(currentIndex) && mastered == old(mastered)
    {
      isFlipped := !isFlipped;
    }

    /** The "mastered" count never exceeds the number of cards. */
    function MasteredCount(): (c: nat)
      requires Valid()
      reads this
      ensures c <= n
    {
      MasteredBound(mastered, n);
      |mastered|
    }
  }

  /** Toggling the same card twice gives the set back. */
  lemma ToggleTwice(s: set<nat>, k: nat)
    ensures Toggled(Toggled(s, k), k) == s
  {
  }

  /** The set after one toggle of `k`. */
  function Toggled(s: set<nat>, k: nat): (r: set<nat>)
    ensures k in r <==> k !in s
    ensures forall j :: j != k ==> (j in r <==> j in s)
  {
    if k in s then s - {k} else s + {k}
  }

  /** A set of indices below `n` has at most `n` members. */
  lemma {:induction false} MasteredBound(s: set<nat>, n: nat)
    requires forall k :: k in s ==> k < n
    ensures |s| <= n
    decreases n
  {
    if n > 0 {
      var rest := s - {n - 1};
      MasteredBound(rest, n - 1);
      assert s <= rest + {n - 1};
    } else {
      assert s == {};
    }
  }
}
