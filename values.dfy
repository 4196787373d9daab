/** The values one poll of the game client's local API hands to the tracker,
    and the two tests the tracker applies to them. */
module Values {

  datatype Option<T> = None | Some(value: T)

  /** The outcome of one call to an endpoint: the parsed body, or the
      `undefined` that the fetch wrapper returns once it has caught an error. */
  datatype Fetched<T> = Failure | Got(value: T)

  /** The fields of a JavaScript `Date` that the recorder reads.
      `month` is zero-based, as `getMonth()` returns it. */
  datatype Clock = Clock(year: nat, month: nat, day: nat, hours: nat, minutes: nat, seconds: nat)

  /** The `positional-rectangles` body as far as the phase test reads it.
      An absent `GameState` field is any string other than "InProgress". */
  datatype Board = Board(gameState: string)

  /** The `static-decklist` body.
      `code` is `DeckCode` (None for both null and undefined, which `!= null` lumps together);
      `cards` is `JSON.stringify(CardsInDeck)` (None when that yields undefined);
      `text` is the serialised deck, the content of the `deck` artifact. */
  datatype Deck = Deck(code: Option<string>, cards: Option<string>, text: string)

  /** Everything one poll cycle may read from the outside world: the phase
      poll, the deck, the serialised board sample (the second fetch of
      `positional-rectangles` in a match cycle), the serialised game result,
      and the wall clock. Each step reads only the fields its phase uses. */
  datatype Observation = Observation(
    board: Fetched<Board>,
    deck: Fetched<Deck>,
    sample: Fetched<string>,
    result: Fetched<string>,
    clock: Clock)

  const InProgress := "InProgress"

  /** The test of `isPlayerInGame` on a fetched body. */
  predicate IsInProgress(b: Board) {
    b.gameState == InProgress
  }

  /** The active-deck test of `trackGame`: a deck code is present and the
      card map does not serialise to the empty object. */
  predicate IsValidDeck(d: Deck) {
    d.code.Some? && d.cards != Some("{}")
  }
}
