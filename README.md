# Flashcard progress state, in Dafny

A model of the logic of a browser flashcard app (React, persisted in
`localStorage`). It covers four parts:

- **The card collection** (`FlashcardsContext`). It holds one list of cards `{id, category, question, answer, knownCount?}`.
  - At start the list is read lazily from storage. A missing or malformed value reads as the empty list.
  - While the list is empty, a sample dataset is fetched. The sample is stored only if storage still holds no value when the fetch completes.
  - Three progress operations (`updateKnownCount`, `resetKnownCount`, `resetAllKnownCount`) rebuild the list card by card and write it through to storage. A failed write is swallowed and the in-memory update stands.
- **The filtered views** (`Projection`). These are a category filter with the "All Categorys" sentinel, shared by the study view and the all-cards grid, and the study view's "hide mastered" filter.
- **The study view's navigation** (`Study`). It covers the focused-card index, bounded Previous/Next moves, going back to the first card on a category change, Shuffle, and the guards on the "I Know This" and "Reset" buttons.
- **The statistics panel** (`Statistics`): total, mastered, in progress and not started.
- **The card-creation form** (`CardModal`). Its submit guard rejects a blank question or answer and an empty category, and the form clears after an accepted submission or a Reset.

Foreign calls are replaced by values:
- Storage is a field `stored: Option<Raw>` with `Raw = Json(cards) | Malformed`. Serialisation is the identity. `None` stands for `getItem` returning `null` or `""`: both are falsy, so both load as the empty list and neither blocks seeding.
- A storage write that throws is a `writeFails` flag.
- The outcome of the sample fetch is a `FetchOutcome`.
- `Math.random()` is a real parameter in [0, 1).
- Each event handler is one method call. The completion of the asynchronous seeding fetch is its own method, `Provider.CompleteSeeding`.

Behaviour of the code that is easy to miss:
- A card with no `knownCount`, such as a freshly seeded sample card, is counted in the total only. The "not started" count tests `knownCount === 0`, so it does not include that card (`Statistics.AbsentCountsInNoBucket`).
- The increment's guard is `knownCount !== 5`. A count above 5 read from storage therefore keeps growing. The bound [0, 5] is preserved only when every count starts in it (`CountsInRange`).
- Seeding is blocked by any non-empty stored string, including a stored empty list or a malformed value. Such a value also reads as an empty list at start, so the app then stays empty.
- In the seeding continuation, a failing `setItem` jumps to the `catch`. The in-memory list is then not set either.
- The form's guard only rejects an empty category. Its initial value, the "All Categorys" sentinel, is not among the dialog's options, yet it passes the guard (`CardModal.AcceptsExactly`). A card can therefore be submitted with the sentinel as its category.

## Model

| member | source | states |
|---|---|---|
| `Sequences.Filter` | src/sections/AllCards.jsx:31 | the result keeps only elements of the list that pass the test, keeps every element that passes it, and is no longer than the list |
| `FlashcardsContext.Load` | src/context/FlashcardsContext.jsx:27-36 | a non-empty initial list only comes from a stored, parseable list, which is returned as stored; missing or malformed storage yields the empty list, and loading never fails |
| `FlashcardsContext.Save` | src/context/FlashcardsContext.jsx:80-85 | loading what was written gives back exactly the list that was written |
| `FlashcardsContext.IncrementKnown` | src/context/FlashcardsContext.jsx:73-79 | length and order are kept; only `knownCount` can change; cards with another id, and cards already at 5, are unchanged; a matching card below 5 gets (its count, absent read as 0) + 1; no match leaves the list as it was; counts in [0, 5] stay in [0, 5] |
| `FlashcardsContext.ResetKnown` | src/context/FlashcardsContext.jsx:94-98 | length and order are kept; matching cards get count 0 and keep their other fields; other cards are unchanged; no match leaves the list as it was |
| `FlashcardsContext.ResetAllKnown` | src/context/FlashcardsContext.jsx:108-111 | every card gets count 0 and keeps id, category, question and answer, in the same order |
| `FlashcardsContext.IncrementAtFiveIsIdempotent` | src/context/FlashcardsContext.jsx:76 | incrementing a card that is already at 5 leaves the whole list unchanged |
| `FlashcardsContext.IncrementSaturates` | src/context/FlashcardsContext.jsx:73-79 | n increments of a card starting at k in [0, 5] give min(k + n, 5), and every count stays in [0, 5] |
| `FlashcardsContext.Provider.constructor` | src/context/FlashcardsContext.jsx:27-36 | the initial list is what the stored value loads to, and is empty when storage is empty, so the invariant "no stored value means an empty list" holds from the start |
| `FlashcardsContext.Provider.SeedingDue` | src/context/FlashcardsContext.jsx:45 | the seeding fetch is started when the list is empty; under the invariant, empty storage always leads to a fetch |
| `FlashcardsContext.Provider.CompleteSeeding` | src/context/FlashcardsContext.jsx:38-63 | seeding never replaces a non-empty list; a present stored value (even a malformed one), a failed fetch or a failed write changes nothing; otherwise storage and memory both become `data.flashcards`, or [] when that member is missing |
| `FlashcardsContext.Provider.UpdateKnownCount` | src/context/FlashcardsContext.jsx:73-87 | the new list is the increment of the current one; after a successful write, storage loads to exactly the new list; after a failed write, storage is unchanged and the new list still stands; the invariant is kept |
| `FlashcardsContext.Provider.ResetKnownCount` | src/context/FlashcardsContext.jsx:94-106 | the same write-through behaviour for resetting one card; the invariant is kept |
| `FlashcardsContext.Provider.ResetAllKnownCount` | src/context/FlashcardsContext.jsx:108-119 | the same write-through behaviour for resetting every card; the invariant is kept |
| `Projection.ByCategory` | src/sections/AllCards.jsx:28-32 | with "All Categorys" the result is the whole list; otherwise every returned card has the selected category and every such card of the list is returned; the result is never longer than the list; a missing list gives the empty result |
| `Projection.StudyFiltered` | src/sections/LeftSection.jsx:22-34 | with hide-mastered off the result is exactly the all-cards grid's list; with it on, the result holds just the cards of that list whose count (absent read as 0) is below 5 |
| `Projection.ByCategoryExact` | src/sections/LeftSection.jsx:23-28 | the category view is an order-preserving subsequence of the list, and holds each selected card as often as the list does and no other card |
| `Projection.ByCategoryAsFilter` | src/sections/AllCards.jsx:29-31 | both branches of the category conditional amount to one filter that lets everything through for the sentinel and matches the category otherwise |
| `Projection.StudyFilteredIsIntersection` | src/sections/LeftSection.jsx:30-34 | the study list is a single order-preserving filter by "category selected and, if hiding, unmastered" |
| `Projection.MasteredFilterCommutes` | src/sections/LeftSection.jsx:23-34 | hiding mastered cards before choosing the category gives the same list as after |
| `Statistics.Statistics` | src/sections/RightSection.jsx:24-53 | total is the list length; mastered + in progress never exceeds the total; not started never exceeds in progress |
| `Statistics.BucketsPartition` | src/sections/RightSection.jsx:34-42 | mastered, in progress and the cards in neither bucket (no count, or a count above 5) add up to the total |
| `Statistics.InRangeCountsSplitTotal` | src/sections/RightSection.jsx:34-42 | when every card has a count in [0, 5], mastered + in progress equals the total |
| `Statistics.AbsentCountsInNoBucket` | src/sections/RightSection.jsx:34-50 | cards with no count are in no bucket: the figures are (n, 0, 0, 0) |
| `Statistics.StatisticsAfterResetAll` | src/sections/RightSection.jsx:17-50 | after Reset All, mastered is 0 and in progress and not started both equal the total |
| `Study.PreviousIndex` | src/sections/LeftSection.jsx:173 | moves back by at most one, and stays put exactly at the first card |
| `Study.NextIndex` | src/sections/LeftSection.jsx:185-188 | moves forward by at most one, and does so exactly when a later card exists; an index inside the list stays inside |
| `Study.NavigationStaysInRange` | src/sections/LeftSection.jsx:171-188 | from an index in [0, length - 1], any sequence of Previous/Next presses stays in [0, length - 1] |
| `Study.NextWalksToEnd` | src/sections/LeftSection.jsx:185-188 | from any card, k presses of Next advance k cards, or stop at the last card without wrapping |
| `Study.ShuffleIndex` | src/sections/LeftSection.jsx:87-89 | `floor(r * length)` lies in [0, length - 1] for a non-empty list and is 0 for an empty one |
| `Study.ShuffleReachesEveryIndex` | src/sections/LeftSection.jsx:87-89 | every index of a non-empty list is the outcome of some r in [0, 1) |
| `Study.StudyView.constructor` | src/sections/LeftSection.jsx:14-18 | the view starts at the first card of all categories with mastered cards shown |
| `Study.StudyView.Focused` | src/sections/LeftSection.jsx:37 | the focused card exists exactly when the index is inside the filtered list; it is then a card of the list that passes the active filters |
| `Study.StudyView.ActionTarget` | src/sections/LeftSection.jsx:146-159 | the buttons act exactly when a focused card exists and its id is truthy (not 0), on that card's id, which belongs to a card of the list |
| `Study.StudyView.SelectCategory` | src/sections/LeftSection.jsx:49-53 | changing the category sets the index to 0 |
| `Study.StudyView.SetHideMastered` | src/sections/LeftSection.jsx:75 | toggling hide-mastered keeps the index and the category |
| `Study.StudyView.PreviousCard` | src/sections/LeftSection.jsx:173 | the index becomes its Previous move; the filters are unchanged |
| `Study.StudyView.NextCard` | src/sections/LeftSection.jsx:185-188 | the index becomes its Next move over the current filtered list; a focused card stays focused |
| `Study.StudyView.Shuffle` | src/sections/LeftSection.jsx:87-89 | the index becomes `floor(r * length)` of the filtered list, so a non-empty list always has a focused card afterwards |
| `Study.StudyView.KnowThis` | src/sections/LeftSection.jsx:146-149 | with an action target, the provider increments that id and writes through; without one, nothing changes |
| `Study.StudyView.ResetThis` | src/sections/LeftSection.jsx:156-159 | with an action target, the provider resets that id and writes through; without one, nothing changes |
| `CardModal.Trim` | src/components/CardModal.jsx:52 | `s.trim()` is empty exactly when every character of `s` is ECMAScript whitespace, and otherwise starts and ends with a visible character; the result is a slice of `s` with only whitespace outside it |
| `CardModal.TrimIsSlice` | src/components/CardModal.jsx:52 | removing a whitespace prefix and then a whitespace suffix leaves a slice of the input with only whitespace outside it |
| `CardModal.Accepts` | src/components/CardModal.jsx:52 | an accepted submission has a non-empty question, answer and category; with the default "All Categorys" category the outcome depends on the trimmed question and answer alone |
| `CardModal.AcceptsExactly` | src/components/CardModal.jsx:52 | a submission is accepted exactly when question and answer each contain a non-whitespace character and the category is non-empty; the default "All Categorys" category passes |
| `CardModal.CardForm.constructor` | src/components/CardModal.jsx:19-21 | the form starts with category "All Categorys" and an empty question and answer |
| `CardModal.CardForm.SelectCategory` | src/components/CardModal.jsx:87-89 | sets the category only |
| `CardModal.CardForm.EditQuestion` | src/components/CardModal.jsx:110 | sets the question only |
| `CardModal.CardForm.EditAnswer` | src/components/CardModal.jsx:122 | sets the answer only |
| `CardModal.CardForm.Submit` | src/components/CardModal.jsx:48-64 | a rejected submission creates nothing and changes no field; an accepted one hands the selected category and the untrimmed question and answer to `createCard`, then clears question and answer and restores "All Categorys" |
| `CardModal.CardForm.Reset` | src/components/CardModal.jsx:135-139 | clears question and answer and restores "All Categorys" |

## Left out

- Rendering, layout, styling, animations, portals, the Escape-key listener and the question/answer flip (`click`, src/sections/LeftSection.jsx:108) are presentation only.
- `fetch`, `localStorage` and `JSON.parse`/`JSON.stringify` are foreign calls. They are replaced by the stored `Option<Raw>` value, the `FetchOutcome` value and the `writeFails` flag. A stored JSON value that parses but is not an array (such as `null`) is not modelled; it is treated like a malformed value.
- React scheduling (`useState`, `useEffect`, `useMemo`, functional updates) is not modelled. Each handler is one sequential method call. The seeding effect's guard is `Provider.SeedingDue`. Each outstanding fetch completes through its own `CompleteSeeding` call.
- `Provider.CompleteSeeding` does not record that a fetch was started. It may be called in any state that keeps the invariant "no stored value means an empty list", and it behaves as the `.then` continuation does.
- `createCard`, `deleteCard`, `setToggleToast`, `setToastMessage`, `toggleToast`, `toastMessage` and `currentDeck` are used by the views, but the context value (src/context/FlashcardsContext.jsx:140) does not provide them.
  - No id assignment or deletion semantics are modelled for them.
  - `CardForm.Submit` returns the draft that would be passed to `createCard`. It treats that call, and the toast setters `setToggleToast(true)` and `setToastMessage("Card created")` (src/components/CardModal.jsx:61-62), as uninterpreted calls that return normally.
  - In the shipped wiring `createCard` is undefined, so that call would throw before the form is cleared. Even with `createCard` supplied, `setToggleToast` is undefined too, so line 61 would throw after the question and answer are cleared and before the category is restored to "All Categorys".
- The raw `setFlashcards` in the context value is not used by the views modelled here and is not modelled.
- The `categoryColor` table is static configuration.
- Card ids are modelled as integers, and an id is truthy when it is not 0. String ids are not modelled.
- `Study.ShuffleIndex`: `Math.random()` is an exact real in [0, 1) and the product is exact, so floating-point rounding is not modelled.
- `DeckModal`, `Header`, `Footer`, `Toast`, `StatisticCard`, `App` and `main` are wiring or presentation only.
