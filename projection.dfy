/**
 * The filtered views of the card list. The category filter is written out
 * twice in the app, in the study view and in the all-cards grid; both are
 * `ByCategory` here. The study view may additionally hide mastered cards.
 */
module Projection {
  import opened Wrappers
  import opened Sequences
  import opened FlashcardsContext

  /** The category-selector value meaning "no category filter". */
  const AllCategories := "All Categorys"

  /** `flashcards || []`: a missing list reads as empty. */
  function OrEmpty(flashcards: Option<seq<Card>>): seq<Card> {
    flashcards.GetOr([])
  }

  /** `(filter) => filter.category === cardCategory`. */
  function CategoryIs(category: string): Card -> bool {
    (c: Card) => c.category == category
  }

  /** `(filter) => (filter.knownCount ?? 0) < 5`: the cards "hide mastered" keeps. */
  predicate Unmastered(c: Card) {
    KnownOrZero(c.knownCount) < MasteredCount
  }

  /** Whether the category selection lets a card through. */
  function Selected(category: string): Card -> bool {
    (c: Card) => category == AllCategories || c.category == category
  }

  /** The study view's shown cards: selected by category and, when hiding mastered ones, unmastered. */
  function Shown(category: string, hideMastered: bool): Card -> bool {
    (c: Card) => Selected(category)(c) && (hideMastered ==> Unmastered(c))
  }

  /** The category filter of both views. */
  function ByCategory(flashcards: Option<seq<Card>>, category: string): (r: seq<Card>)
    ensures category == AllCategories ==> r == OrEmpty(flashcards)
    ensures category != AllCategories ==> forall i :: 0 <= i < |r| ==> r[i].category == category
    ensures forall i :: 0 <= i < |r| ==> r[i] in OrEmpty(flashcards)
    ensures forall i :: 0 <= i < |OrEmpty(flashcards)| && OrEmpty(flashcards)[i].category == category ==>
      OrEmpty(flashcards)[i] in r
    ensures |r| <= |OrEmpty(flashcards)|
    ensures flashcards.None? ==> r == []
  {
    if category == AllCategories then OrEmpty(flashcards)
    else Filter(OrEmpty(flashcards), CategoryIs(category))
  }

  /** The study view's `filtered` list. With hide-mastered off it is the all-cards grid's list. */
  function StudyFiltered(flashcards: Option<seq<Card>>, category: string, hideMastered: bool): (r: seq<Card>)
    ensures !hideMastered ==> r == ByCategory(flashcards, category)
    ensures forall i :: 0 <= i < |r| ==> r[i] in ByCategory(flashcards, category) && (hideMastered ==> Unmastered(r[i]))
    ensures forall i :: 0 <= i < |ByCategory(flashcards, category)| && Unmastered(ByCategory(flashcards, category)[i]) ==>
      ByCategory(flashcards, category)[i] in r
    ensures |r| <= |OrEmpty(flashcards)|
  {
    var base := ByCategory(flashcards, category);
    if hideMastered then Filter(base, Unmastered) else base
  }

  /**
   * The category view holds exactly the selected cards of the list, each as
   * often as in the list, in the list's order.
   */
  lemma ByCategoryExact(flashcards: Option<seq<Card>>, category: string, c: Card)
    ensures IsSubsequence(ByCategory(flashcards, category), OrEmpty(flashcards))
    ensures multiset(ByCategory(flashcards, category))[c] ==
      if Selected(category)(c) then multiset(OrEmpty(flashcards))[c] else 0
  {
    ByCategoryAsFilter(flashcards, category);
    FilterIsSubsequence(OrEmpty(flashcards), Selected(category));
    FilterMultiplicity(OrEmpty(flashcards), Selected(category), c);
  }

  /** Both branches of the category conditional are one filter by `Selected`. */
  lemma ByCategoryAsFilter(flashcards: Option<seq<Card>>, category: string)
    ensures ByCategory(flashcards, category) == Filter(OrEmpty(flashcards), Selected(category))
  {
    var base := OrEmpty(flashcards);
    if category == AllCategories {
      FilterAll(base, Selected(category));
    } else {
      FilterExtensional(base, CategoryIs(category), Selected(category));
    }
  }

  /**
   * The study view's list is the order-preserving intersection of the two
   * filters: one pass over the list keeping the cards that pass both.
   */
  lemma StudyFilteredIsIntersection(flashcards: Option<seq<Card>>, category: string, hideMastered: bool)
    ensures StudyFiltered(flashcards, category, hideMastered) == Filter(OrEmpty(flashcards), Shown(category, hideMastered))
  {
    var base := OrEmpty(flashcards);
    ByCategoryAsFilter(flashcards, category);
    if hideMastered {
      FilterConjunction(base, Selected(category), Unmastered, Shown(category, hideMastered));
    } else {
      FilterExtensional(base, Selected(category), Shown(category, hideMastered));
    }
  }

  /** Hiding mastered cards before or after choosing the category gives the same list. */
  lemma MasteredFilterCommutes(flashcards: Option<seq<Card>>, category: string)
    ensures StudyFiltered(flashcards, category, true) ==
      ByCategory(Some(Filter(OrEmpty(flashcards), Unmastered)), category)
  {
    if category != AllCategories {
      FilterCommutes(OrEmpty(flashcards), CategoryIs(category), Unmastered);
    }
  }
}
