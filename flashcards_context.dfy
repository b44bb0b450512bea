/**
 * The flashcard collection state: one list of cards, hydrated from local
 * storage when the provider is created, seeded from the bundled sample
 * dataset while storage is still empty, and updated by three progress
 * operations that rebuild the list card by card and write it through to
 * storage.
 */
module FlashcardsContext {
  import opened Wrappers

  /** The count at which a card is mastered and stops increasing. */
  const MasteredCount := 5

  /** One flashcard. `knownCount` is absent on cards that never had progress recorded. */
  datatype Card = Card(id: int, category: string, question: string, answer: string, knownCount: Option<int>)

  /** `knownCount || 0` and `knownCount ?? 0`: an absent count reads as 0. */
  function KnownOrZero(knownCount: Option<int>): int {
    knownCount.GetOr(0)
  }

  /** Every recorded count lies in [0, 5]; absent counts are allowed. */
  predicate CountsInRange(cards: seq<Card>) {
    forall i :: 0 <= i < |cards| ==> cards[i].knownCount.None? || 0 <= cards[i].knownCount.value <= MasteredCount
  }

  /** Two cards agree on everything except their progress counter. */
  predicate SameExceptCount(a: Card, b: Card) {
    a.id == b.id && a.category == b.category && a.question == b.question && a.answer == b.answer
  }

  // ---------------------------------------------------------------------
  // Storage. Serialisation is the identity: a present value either parses
  // back to the list that was written, or is malformed.

  datatype Raw = Json(cards: seq<Card>) | Malformed

  /** The lazy initial state: the stored list when present and parseable, otherwise []. */
  function Load(saved: Option<Raw>): (r: seq<Card>)
    ensures r != [] ==> saved == Some(Json(r))
    ensures saved.Some? && saved.value.Json? ==> Some(Json(r)) == saved
  {
    match saved
    case Some(Json(cards)) => cards
    case _ => []
  }

  /** The value written by `localStorage.setItem("flashcards_data", JSON.stringify(cards))`. */
  function Save(cards: seq<Card>): (r: Raw)
    ensures Load(Some(r)) == cards
  {
    Json(cards)
  }

  /** What the bootstrap fetch of the sample dataset yields. */
  datatype FetchOutcome =
    | FetchFailed                              // network error, or the body is not JSON
    | Fetched(flashcards: Option<seq<Card>>)   // the document's `flashcards` member, if any

  /** `data.flashcards || []`. */
  function SampleCards(flashcards: Option<seq<Card>>): seq<Card> {
    flashcards.GetOr([])
  }

  // ---------------------------------------------------------------------
  // The per-card transitions, each one `prevFlashcards.map(...)`.

  function Increment(card: Card, id: int): Card {
    if card.id == id && card.knownCount != Some(MasteredCount)
    then card.(knownCount := Some(KnownOrZero(card.knownCount) + 1))
    else card
  }

  /** `updateKnownCount(id)`: the matching cards gain one known answer, except those already at 5. */
  function IncrementKnown(cards: seq<Card>, id: int): (r: seq<Card>)
    ensures |r| == |cards|
    ensures forall i :: 0 <= i < |cards| ==> SameExceptCount(r[i], cards[i])
    ensures forall i :: 0 <= i < |cards| && cards[i].id != id ==> r[i] == cards[i]
    ensures forall i :: 0 <= i < |cards| && cards[i].knownCount == Some(MasteredCount) ==> r[i] == cards[i]
    ensures forall i :: 0 <= i < |cards| && cards[i].id == id && cards[i].knownCount != Some(MasteredCount) ==>
      r[i].knownCount == Some(KnownOrZero(cards[i].knownCount) + 1)
    ensures (forall i :: 0 <= i < |cards| ==> cards[i].id != id) ==> r == cards
    ensures CountsInRange(cards) ==> CountsInRange(r)
  {
    seq(|cards|, i requires 0 <= i < |cards| => Increment(cards[i], id))
  }

  /** `resetKnownCount(id)`: the matching cards go back to 0, everything else is kept. */
  function ResetKnown(cards: seq<Card>, id: int): (r: seq<Card>)
    ensures |r| == |cards|
    ensures forall i :: 0 <= i < |cards| ==> SameExceptCount(r[i], cards[i])
    ensures forall i :: 0 <= i < |cards| && cards[i].id != id ==> r[i] == cards[i]
    ensures forall i :: 0 <= i < |cards| && cards[i].id == id ==> r[i].knownCount == Some(0)
    ensures (forall i :: 0 <= i < |cards| ==> cards[i].id != id) ==> r == cards
    ensures CountsInRange(cards) ==> CountsInRange(r)
  {
    seq(|cards|, i requires 0 <= i < |cards| => if cards[i].id == id then cards[i].(knownCount := Some(0)) else cards[i])
  }

  /** `resetAllKnownCount()`: every card goes back to 0, in the same order. */
  function ResetAllKnown(cards: seq<Card>): (r: seq<Card>)
    ensures |r| == |cards|
    ensures forall i :: 0 <= i < |cards| ==> SameExceptCount(r[i], cards[i]) && r[i].knownCount == Some(0)
    ensures CountsInRange(r)
  {
    seq(|cards|, i requires 0 <= i < |cards| => cards[i].(knownCount := Some(0)))
  }

  /** Incrementing a card that is already mastered changes nothing, however often it is repeated. */
  lemma IncrementAtFiveIsIdempotent(cards: seq<Card>, id: int)
    requires forall i :: 0 <= i < |cards| && cards[i].id == id ==> cards[i].knownCount == Some(MasteredCount)
    ensures IncrementKnown(cards, id) == cards
  {
  }

  /** `updateKnownCount(id)` applied `n` times in a row. */
  function IncrementTimes(cards: seq<Card>, id: int, n: nat): (r: seq<Card>)
    ensures |r| == |cards|
  {
    if n == 0 then cards else IncrementKnown(IncrementTimes(cards, id, n - 1), id)
  }

  /**
   * Repeated increments of a card whose count starts at k in [0, 5] (absent
   * read as 0) give min(k + n, 5): the counter climbs to mastery and then
   * stays there.
   */
  lemma {:induction false} IncrementSaturates(cards: seq<Card>, id: int, n: nat)
    requires CountsInRange(cards)
    ensures CountsInRange(IncrementTimes(cards, id, n))
    ensures forall i :: 0 <= i < |cards| && cards[i].id == id && n > 0 ==>
      IncrementTimes(cards, id, n)[i].knownCount ==
        Some(if KnownOrZero(cards[i].knownCount) + n <= MasteredCount then KnownOrZero(cards[i].knownCount) + n else MasteredCount)
  {
    if n > 1 {
      IncrementSaturates(cards, id, n - 1);
      forall i | 0 <= i < |cards| && cards[i].id == id
        ensures IncrementTimes(cards, id, n)[i].knownCount ==
          Some(if KnownOrZero(cards[i].knownCount) + n <= MasteredCount then KnownOrZero(cards[i].knownCount) + n else MasteredCount)
      {
        IncrementTimesKeepsCards(cards, id, n - 1, i);
      }
    }
  }

  lemma {:induction false} IncrementTimesKeepsCards(cards: seq<Card>, id: int, n: nat, i: nat)
    requires i < |cards|
    ensures SameExceptCount(IncrementTimes(cards, id, n)[i], cards[i])
  {
    if n > 0 {
      IncrementTimesKeepsCards(cards, id, n - 1, i);
    }
  }

  // ---------------------------------------------------------------------

  /**
   * The provider's state: the in-memory list and the value under the
   * "flashcards_data" key (`None` when `getItem` gives `null` or `""`).
   * Each update derives the next list from the current one, attempts the
   * storage write, and keeps the new list whether or not the write
   * succeeded (`writeFails` stands for `setItem` throwing).
   */
  class Provider {
    var cards: seq<Card>
    var stored: Option<Raw>

    /** While storage holds no value the list is empty: every non-empty list came from, or was written to, storage. */
    predicate Valid()
      reads this
    {
      stored.None? ==> cards == []
    }

    /** Lazy initialisation from storage; never fails. */
    constructor (saved: Option<Raw>)
      ensures Valid()
      ensures stored == saved
      ensures cards == Load(saved)
      ensures saved.None? ==> cards == []
    {
      stored := saved;
      cards := Load(saved);
    }

    /** The bootstrap effect starts a fetch of the sample dataset exactly when the list is empty; empty storage always leads to one. */
    predicate SeedingDue(): (due: bool)
      reads this
      ensures Valid() && stored.None? ==> due
    {
      |cards| == 0
    }

    /**
     * A bootstrap fetch completes. The sample is written to storage and
     * memory only when storage holds no value at that moment; a failed
     * fetch, a present value (even a malformed one) or a failed write
     * leaves everything as it was.
     */
    method CompleteSeeding(outcome: FetchOutcome, writeFails: bool)
      requires Valid()
      modifies this
      ensures Valid()
      ensures old(cards) != [] ==> cards == old(cards) && stored == old(stored)
      ensures old(stored).Some? || outcome.FetchFailed? || writeFails ==>
        cards == old(cards) && stored == old(stored)
      ensures old(stored).None? && outcome.Fetched? && !writeFails ==>
        cards == SampleCards(outcome.flashcards) && stored == Some(Save(cards))
    {
      if outcome.Fetched? && stored.None? && !writeFails {
        var initial := SampleCards(outcome.flashcards);
        stored := Some(Save(initial));
        cards := initial;
      }
    }

    method UpdateKnownCount(id: int, writeFails: bool)
      requires Valid()
      modifies this
      ensures Valid()
      ensures cards == IncrementKnown(old(cards), id)
      ensures stored == if writeFails then old(stored) else Some(Save(cards))
      ensures !writeFails ==> Load(stored) == cards
    {
      var updated := IncrementKnown(cards, id);
      if !writeFails {
        stored := Some(Save(updated));
      }
      cards := updated;
    }

    method ResetKnownCount(id: int, writeFails: bool)
      requires Valid()
      modifies this
      ensures Valid()
      ensures cards == ResetKnown(old(cards), id)
      ensures stored == if writeFails then old(stored) else Some(Save(cards))
      ensures !writeFails ==> Load(stored) == cards
    {
      var updated := ResetKnown(cards, id);
      if !writeFails {
        stored := Some(Save(updated));
      }
      cards := updated;
    }

    method ResetAllKnownCount(writeFails: bool)
      requires Valid()
      modifies this
      ensures Valid()
      ensures cards == ResetAllKnown(old(cards))
      ensures stored == if writeFails then old(stored) else Some(Save(cards))
      ensures !writeFails ==> Load(stored) == cards
    {
      var updated := ResetAllKnown(cards);
      if !writeFails {
        stored := Some(Save(updated));
      }
      cards := updated;
    }
  }

  /** First run: empty storage, the sample arrives, and a reload finds exactly the sample. */
  method FirstRunScenario(sample: seq<Card>)
  {
    var p := new Provider(None);
    assert p.SeedingDue();
    p.CompleteSeeding(Fetched(Some(sample)), false);
    assert p.cards == sample && Load(p.stored) == sample;
    p.CompleteSeeding(Fetched(Some([])), false);
    assert p.cards == sample;
  }
}
