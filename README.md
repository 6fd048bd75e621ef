# Set deck model

This project models the deck model of a "Set" card game written in Swift
(`Set_game/SetGame.swift`). It covers:

- the four three-valued card attributes, which are colour, shape, shading and number of shapes;
- the `CardContent` value that combines them, and the `Card` record;
- the game object, whose initialiser builds all 81 contents with four nested loops, numbers them as cards and shuffles them.

Two modules:

- `CardContents` (`card_content.dfy`) holds the value types:
  - the enums as datatypes, with their `allCases` in declaration order;
  - `CardContent` and `Card` as datatypes;
  - the closed-form position of a content in the generated deck;
  - `numOfShapes` and `debugDescription` as pure functions.
- `SetGameDeck` (`set_game.dfy`) holds the game:
  - `SetGame` is a class with the fields `cards` and `content`;
  - its constructor models `init()`, and `CreateCardsContent` keeps the nested loops;
  - the specification function `AllContents` gives the generated order;
  - `Shuffle` stands in for `cards.shuffle()`;
  - lemmas state what holds of every shuffled deck: 81 cards, ids exactly 0..80 each used once, each id paired with `content[id]`, both flags false, and every combination on exactly one card.

`cards.shuffle()` is modelled as an arbitrary permutation. `Shuffle` picks
some sequence with the same multiset of cards. It says nothing about randomness or uniformity.

## Model

| member | source | states |
|---|---|---|
| `CardContents.ColorIndex` | Set_game/SetGame.swift:62 | every colour sits at its declaration-order position in `allCases` (red, green, purple) |
| `CardContents.ShapeIndex` | Set_game/SetGame.swift:66 | every shape sits at its declaration-order position in `allCases` (diamond, squiggle, oval) |
| `CardContents.ShadingIndex` | Set_game/SetGame.swift:70 | every shading sits at its declaration-order position in `allCases` (solid, striped, open) |
| `CardContents.NumberIndex` | Set_game/SetGame.swift:85 | every number sits at its declaration-order position in `allCases` (one, two, three) |
| `CardContents.NewCard` | Set_game/SetGame.swift:39-46 | a card built from an id and a content carries exactly that id and content, with `isChosen` and `isMatched` at their default `false` |
| `CardContents.ContentAt` | Set_game/SetGame.swift:27-31 | the deck order as a base-3 decoding: the content at position `i` has colour index `i / 27`, shape index `(i / 9) % 3`, shading index `(i / 3) % 3` and number index `i % 3` (colour outermost, number innermost) |
| `CardContents.ContentAtDigits` | Set_game/SetGame.swift:27-31 | index 27·c + 9·s + 3·h + n stays below 81 and decodes to the combination (colour c, shape s, shading h, number n) |
| `CardContents.ContentIndex` | Set_game/SetGame.swift:27-31 | the closed-form index of a content is below 81 and decodes back to that content |
| `CardContents.ContentIndexOfContentAt` | Set_game/SetGame.swift:27-31 | decoding an index below 81 and re-encoding it gives the same index, so the index map is a bijection onto 0..80 |
| `CardContents.NumOfShapes` | Set_game/SetGame.swift:74-83 | `numOfShapes` is 1, 2 or 3: one more than the case's declaration-order position |
| `CardContents.DebugDescription` | Set_game/SetGame.swift:100-139 | the description starts with `"shape: "` and ends with the decimal digit equal to `numOfShapes`; the glyph and name switches it uses (`ColorGlyph`, `ShapeGlyph`, `ShadingName`) are the source's own characters and strings |
| `CardContents.DebugDescriptionInjective` | Set_game/SetGame.swift:100-139 | two contents with the same description are equal |
| `SetGameDeck.AllContents` | Set_game/SetGame.swift:26-36 | the generated content list has exactly 3·3·3·3 = 81 entries |
| `SetGameDeck.AllContentsAt` | Set_game/SetGame.swift:27-31 | the entry for (colour c, shape s, shading h, number n) is at index 27·c + 9·s + 3·h + n |
| `SetGameDeck.AllContentsStep` | Set_game/SetGame.swift:30-31 | one innermost iteration extends the generated prefix by exactly the next entry |
| `SetGameDeck.AllContentsComplete` | Set_game/SetGame.swift:27-31 | every combination of the four attributes occurs in the list, at its closed-form index |
| `SetGameDeck.AllContentsDistinct` | Set_game/SetGame.swift:27-31 | no two entries of the list are equal |
| `SetGameDeck.NumberedCards` | Set_game/SetGame.swift:20-22 | the cards before the shuffle: as many cards as contents, card `i` has id `i` and content `content[i]`, and both flags are false; the constructor's loop invariant proves the loop builds exactly this list |
| `SetGameDeck.NumberedCardsSnoc` | Set_game/SetGame.swift:20-22 | numbering one more content appends exactly the card with that index as id and that content |
| `SetGameDeck.PermutationDistinct` | Set_game/SetGame.swift:23 | reordering a sequence without repetitions cannot create a repetition |
| `SetGameDeck.Shuffle` | Set_game/SetGame.swift:23 | the shuffled cards are a permutation of the input (same multiset) |
| `SetGameDeck.ShuffledCardsNumbered` | Set_game/SetGame.swift:20-23 | after shuffling numbered cards, the length is unchanged and every card is the numbered card its id names |
| `SetGameDeck.ShuffledIdsCovered` | Set_game/SetGame.swift:20-23 | after shuffling numbered cards, every original id still occurs |
| `SetGameDeck.DealtDeck` | Set_game/SetGame.swift:16-24 | any shuffle of the numbered full deck has 81 cards; their ids are exactly 0..80 with no duplicate; each id is paired with `content[id]`; both flags are false; no content repeats and every combination occurs |
| `SetGameDeck.SetGame.CreateCardsContent` | Set_game/SetGame.swift:26-36 | the four nested loops append exactly `AllContents()` to `content` and change nothing else |
| `SetGameDeck.SetGame.constructor` | Set_game/SetGame.swift:16-24 | `content` is the full list. `cards` is a permutation of the cards numbered 0..80 over it, so there are 81 cards with distinct ids. Each card carries `content[id]`, and both flags are false |

## Left out

- `ShapeColor.shapeColor` (Set_game/SetGame.swift:51-60) returns a SwiftUI `Color`, which is a UI type. It is not modelled.
- `cards.shuffle()`: its randomness and uniformity are not modelled. The only promise kept is that the result is a permutation.
- The emoji and the shading names inside `debugDescription` are modelled literally. Swift `String` counts grapheme clusters, but here a string is a sequence of Unicode scalar values. Every glyph used is a single scalar, so the positions agree.
- `Card` conforms to `Equatable` and `Identifiable` (Set_game/SetGame.swift:39). This is modelled by datatype equality and the `id` field. The source never mutates the flags `isChosen` and `isMatched`, so `Card` is a value, not a class.
- `SetGameDeck.SetGame`: access control and value semantics are not modelled. In the source `SetGame` is a `struct` with `private(set) var cards`, `private var content` and a `private mutating func CreateCardsContent` (Set_game/SetGame.swift:11-14, 26). In the model both fields are writable and `CreateCardsContent` is public, so a client could call it a second time, which the source forbids. The model also has reference semantics where Swift copies the struct.
- The view-model calls engine operations that `Set_game/SetGame.swift` does not define: `startNewGame`, `shuffle`, `addThreeMoreCards`, `addAndReplaceThreeMoreCards`, `choose` and the `isShown` flag. They are not modelled.
- The following are not in the model: Set validity, dealing and replacement, the SwiftUI views (`ContentView.swift`, `Squiggle.swift`), the app entry point (`Set_gameApp.swift`) and the view-model wrapper (`SetGameVM.swift`).
