/**
 * The study view: a category selection, a "hide mastered" switch and the
 * index of the focused card within the filtered list. Previous and Next
 * stop at the ends instead of wrapping, choosing a category goes back to
 * the first card, and Shuffle jumps to a random position.
 */
module Study {
  import opened Wrappers
  import opened FlashcardsContext
  import opened Projection

  /** The Previous handler: step back unless already at the first card. */
  function PreviousIndex(index: nat): (r: nat)
    ensures r <= index && index - r <= 1
    ensures r == index <==> index == 0
  {
    if index > 0 then index - 1 else index
  }

  /** The Next handler: step forward unless already at the last card of a list of `length`. */
  function NextIndex(index: nat, length: nat): (r: nat)
    ensures index <= r <= index + 1
    ensures r == index + 1 <==> index + 1 < length
    ensures index < length ==> r < length
  {
    if index < length - 1 then index + 1 else index
  }

  datatype Move = Previous | Next

  /** The index after pressing the buttons in `moves`, in order, over a list of `length`. */
  function Navigate(index: nat, length: nat, moves: seq<Move>): nat
    decreases |moves|
  {
    if moves == [] then index
    else
      var next := if moves[0] == Previous then PreviousIndex(index) else NextIndex(index, length);
      Navigate(next, length, moves[1..])
  }

  /** An index inside [0, length - 1] stays inside whatever buttons are pressed. */
  lemma {:induction false} NavigationStaysInRange(index: nat, length: nat, moves: seq<Move>)
    requires index < length
    ensures Navigate(index, length, moves) < length
    decreases |moves|
  {
    if moves != [] {
      var next := if moves[0] == Previous then PreviousIndex(index) else NextIndex(index, length);
      NavigationStaysInRange(next, length, moves[1..]);
    }
  }

  /** From any card of the list, `k` presses of Next advance `k` cards, or stop at the last card without wrapping. */
  lemma {:induction false} NextWalksToEnd(index: nat, length: nat, k: nat)
    requires index < length
    ensures Navigate(index, length, seq(k, _ => Next)) == if index + k < length then index + k else length - 1
    decreases k
  {
    if k > 0 {
      var moves := seq(k, _ => Next);
      assert moves[0] == Next && moves[1..] == seq(k - 1, _ => Next);
      NextWalksToEnd(NextIndex(index, length), length, k - 1);
    }
  }

  lemma ProductBounds(r: real, n: real)
    requires 0.0 <= r < 1.0 && 0.0 <= n
    ensures 0.0 <= r * n
    ensures n > 0.0 ==> r * n < n
  {
    assert n - r * n == (1.0 - r) * n;
  }

  /** `Math.floor(r * length)` for a random `r` in [0, 1). */
  function ShuffleIndex(r: real, length: nat): (k: nat)
    requires 0.0 <= r < 1.0
    ensures length == 0 ==> k == 0
    ensures length > 0 ==> k < length
  {
    var n := length as real;
    ProductBounds(r, n);
    (r * n).Floor
  }

  /** Every position of a non-empty list is a possible outcome of Shuffle. */
  lemma ShuffleReachesEveryIndex(length: nat, k: nat)
    requires k < length
    ensures 0.0 <= k as real / length as real < 1.0
    ensures ShuffleIndex(k as real / length as real, length) == k
  {
  }

  class StudyView {
    var cardIndex: nat
    var cardCategory: string
    var hideMastered: bool

    constructor ()
      ensures cardIndex == 0 && cardCategory == AllCategories && !hideMastered
    {
      cardIndex := 0;
      cardCategory := AllCategories;
      hideMastered := false;
    }

    /** The `filtered` list for the current selections. */
    function Filtered(flashcards: Option<seq<Card>>): seq<Card>
      reads this
    {
      StudyFiltered(flashcards, cardCategory, hideMastered)
    }

    /** `filtered?.[cardIndex]`: absent when the index is past the end of the filtered list. */
    function Focused(flashcards: Option<seq<Card>>): (r: Option<Card>)
      reads this
      ensures r.Some? <==> cardIndex < |Filtered(flashcards)|
      ensures r.Some? ==> r.value in OrEmpty(flashcards)
      ensures r.Some? && cardCategory != AllCategories ==> r.value.category == cardCategory
      ensures r.Some? && hideMastered ==> Unmastered(r.value)
    {
      var filtered := Filtered(flashcards);
      if cardIndex < |filtered| then Some(filtered[cardIndex]) else None
    }

    /** `if (card?.id)`: the id the "I Know This" and "Reset" buttons act on, if any; id 0 is falsy and skipped. */
    function ActionTarget(flashcards: seq<Card>): (r: Option<int>)
      reads this
      ensures r.Some? <==> Focused(Some(flashcards)).Some? && Focused(Some(flashcards)).value.id != 0
      ensures r.Some? ==> r.value == Focused(Some(flashcards)).value.id
      ensures r.Some? ==> exists i :: 0 <= i < |flashcards| && flashcards[i].id == r.value
    {
      match Focused(Some(flashcards))
      case Some(card) => if card.id != 0 then Some(card.id) else None
      case None => None
    }

    /** Choosing a category also goes back to the first card. */
    method SelectCategory(category: string)
      modifies this
      ensures cardCategory == category && cardIndex == 0 && hideMastered == old(hideMastered)
    {
      cardCategory := category;
      cardIndex := 0;
    }

    /** Toggling "hide mastered" keeps the index, which may then lie past the end of the shorter list. */
    method SetHideMastered(checked: bool)
      modifies this
      ensures hideMastered == checked && cardIndex == old(cardIndex) && cardCategory == old(cardCategory)
    {
      hideMastered := checked;
    }

    method PreviousCard()
      modifies this
      ensures cardIndex == PreviousIndex(old(cardIndex))
      ensures cardCategory == old(cardCategory) && hideMastered == old(hideMastered)
    {
      if cardIndex > 0 {
        cardIndex := cardIndex - 1;
      }
    }

    method NextCard(flashcards: Option<seq<Card>>)
      modifies this
      ensures cardIndex == NextIndex(old(cardIndex), |Filtered(flashcards)|)
      ensures cardCategory == old(cardCategory) && hideMastered == old(hideMastered)
      ensures old(Focused(flashcards)).Some? ==> Focused(flashcards).Some?
    {
      if cardIndex < |Filtered(flashcards)| - 1 {
        cardIndex := cardIndex + 1;
      }
    }

    /** `random` stands for the value `Math.random()` returned. */
    method Shuffle(flashcards: Option<seq<Card>>, random: real)
      requires 0.0 <= random < 1.0
      modifies this
      ensures cardIndex == ShuffleIndex(random, |Filtered(flashcards)|)
      ensures cardCategory == old(cardCategory) && hideMastered == old(hideMastered)
      ensures Filtered(flashcards) != [] ==> Focused(flashcards).Some?
    {
      cardIndex := ShuffleIndex(random, |Filtered(flashcards)|);
    }

    /** "I Know This": increments the focused card's count when it has a truthy id. */
    method KnowThis(provider: Provider, writeFails: bool)
      requires provider.Valid()
      modifies provider
      ensures provider.Valid()
      ensures var target := ActionTarget(old(provider.cards));
        if target.Some? then
          provider.cards == IncrementKnown(old(provider.cards), target.value) &&
          provider.stored == (if writeFails then old(provider.stored) else Some(Save(provider.cards)))
        else
          provider.cards == old(provider.cards) && provider.stored == old(provider.stored)
    {
      var target := ActionTarget(provider.cards);
      if target.Some? {
        provider.UpdateKnownCount(target.value, writeFails);
      }
    }

    /** "Reset Cardprogress": resets the focused card's count when it has a truthy id. */
    method ResetThis(provider: Provider, writeFails: bool)
      requires provider.Valid()
      modifies provider
      ensures provider.Valid()
      ensures var target := ActionTarget(old(provider.cards));
        if target.Some? then
          provider.cards == ResetKnown(old(provider.cards), target.value) &&
          provider.stored == (if writeFails then old(provider.stored) else Some(Save(provider.cards)))
        else
          provider.cards == old(provider.cards) && provider.stored == old(provider.stored)
    {
      var target := ActionTarget(provider.cards);
      if target.Some? {
        provider.ResetKnownCount(target.value, writeFails);
      }
    }
  }
}
