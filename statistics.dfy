/**
 * The statistics panel: four counts over the card list. The comparisons
 * are JavaScript's strict ones, so a card without a `knownCount` is in no
 * bucket (`undefined < 5` is false), and "in progress" includes the
 * cards that are "not started".
 */
module Statistics {
  import opened Wrappers
  import opened Sequences
  import opened FlashcardsContext

  datatype Stats = Stats(total: nat, mastered: nat, inProgress: nat, notStarted: nat)

  /** `knownCount === 5`. */
  predicate IsMastered(c: Card) {
    c.knownCount == Some(MasteredCount)
  }

  /** `knownCount < 5`, false when the count is absent. */
  predicate IsInProgress(c: Card) {
    c.knownCount.Some? && c.knownCount.value < MasteredCount
  }

  /** `knownCount === 0`. */
  predicate IsNotStarted(c: Card) {
    c.knownCount == Some(0)
  }

  /** In the mastered or the in-progress bucket. */
  predicate IsBucketed(c: Card) {
    IsMastered(c) || IsInProgress(c)
  }

  /** In neither: no count, or a count above 5. */
  predicate IsUnbucketed(c: Card) {
    !IsBucketed(c)
  }

  /** The four figures, each `flashcards.filter(...).length` except the total. */
  function Statistics(cards: seq<Card>): (s: Stats)
    ensures s.total == |cards|
    ensures s.mastered + s.inProgress <= s.total
    ensures s.notStarted <= s.inProgress
  {
    FilterDisjointUnion(cards, IsMastered, IsInProgress, IsBucketed);
    FilterLengthMonotone(cards, IsBucketed, (c: Card) => true);
    FilterLengthMonotone(cards, IsNotStarted, IsInProgress);
    Stats(|cards|,
          |Filter(cards, IsMastered)|,
          |Filter(cards, IsInProgress)|,
          |Filter(cards, IsNotStarted)|)
  }

  /** Mastered, in progress and the cards in neither bucket add up to the total. */
  lemma BucketsPartition(cards: seq<Card>)
    ensures Statistics(cards).mastered + Statistics(cards).inProgress + |Filter(cards, IsUnbucketed)| == |cards|
  {
    FilterDisjointUnion(cards, IsMastered, IsInProgress, IsBucketed);
    FilterComplement(cards, IsBucketed, IsUnbucketed);
  }

  /** When every card carries a count in [0, 5], mastered and in progress split the total exactly. */
  lemma InRangeCountsSplitTotal(cards: seq<Card>)
    requires CountsInRange(cards)
    requires forall i :: 0 <= i < |cards| ==> cards[i].knownCount.Some?
    ensures Statistics(cards).mastered + Statistics(cards).inProgress == |cards|
  {
    BucketsPartition(cards);
    FilterNone(cards, IsUnbucketed);
  }

  /** Cards that never had a count recorded (such as freshly seeded sample cards) count only towards the total. */
  lemma AbsentCountsInNoBucket(cards: seq<Card>)
    requires forall i :: 0 <= i < |cards| ==> cards[i].knownCount.None?
    ensures Statistics(cards) == Stats(|cards|, 0, 0, 0)
  {
    FilterNone(cards, IsMastered);
    FilterNone(cards, IsInProgress);
    FilterNone(cards, IsNotStarted);
  }

  /** After "Reset All" nothing is mastered and every card is both in progress and not started. */
  lemma StatisticsAfterResetAll(cards: seq<Card>)
    ensures Statistics(ResetAllKnown(cards)) == Stats(|cards|, 0, |cards|, |cards|)
  {
    var reset := ResetAllKnown(cards);
    FilterNone(reset, IsMastered);
    FilterAll(reset, IsInProgress);
    FilterAll(reset, IsNotStarted);
  }
}
