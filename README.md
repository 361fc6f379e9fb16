# UNO rules engine in Dafny

This project models the rules engine of a browser UNO game and proves properties of it. The engine lives in two JavaScript files:

- `web-app/uno-logic.js` holds the rule functions.
  - The card shape and the random card generator, dealing and drawing.
  - Play legality (`isValidPlay`) and circular turn arithmetic (`nextTurn`).
  - UNO declaration (`declareUno`) and call-out (`callUno`).
  - The card face and the turn summary shown to the players.
  - The AI's move (`performAITurn`).
- `web-app/uno.js` holds the game state (`GameState`) and its transitions.
  - The initial state and the turn advance (`advanceTurn`).
  - Drawing, and the effect table of a played card.
  - Completing a Wild +4 with a chosen colour, and the win check.
  - The AI turn, the draw button and the UNO button.
  - Its module variables (`state`, `turnFinished`, `numPlayers`, `aiPlayerIndex`) become the fields of the class `UnoGame.Game`. The event handlers' state logic becomes its methods.

Files:

- `wrappers.dfy`: `Option`.
- `js_numbers.dfy`: JavaScript's truncating `%`, with the small Euclidean-division facts the turn arithmetic needs.
- `uno_logic.dfy`: module `UnoLogic`, for `web-app/uno-logic.js`.
- `uno_game.dfy`: module `UnoGame`, for `web-app/uno.js`.

Modelling choices:

- **Randomness.** Each call of the card generator is represented by the outcome it drew: a `Chance` made of a colour and the branch the second random number selected. Operations that draw cards take these outcomes as a parameter, in drawing order.
- **The card colour field.** A card's `color` field is modelled as `CardColor`. It can be absent (the Wild +4), one of the four colour names, or the text "undefined". That last value is real in the code. The AI writes its most frequent colour key onto a +4, and `R.countBy` counts colourless cards under the key "undefined".
- **The AI's choices.** `commonColor` is the head of a stable sort of the count pairs. So it is the most frequent key, with ties going to the key seen first in the hand (`Leader`). The AI plays the head of a stable sort of the valid cards by priority: the first valid card of minimal priority (`BestPlay`). Priorities are doubled so that the half-point colour bonus stays an integer.
- **The end of a turn.** `finalisePlayAndAdvance` is split at its timer:
  - `Game.FinalisePlay` stores the state, marks the turn finished and runs the win check.
  - `Game.EndTurn` is the delayed `advanceTurn`.
  - The UNO button can be pressed between the two, as in the program.
- **In-place updates.** `declareUno` adds to the protected set in place; here it returns the new set, which the class stores back. The UNO button's `forEach` over the caught players, which grows `state.hands[i]` for each of them, is a loop over that list (`DrawPenalties`) whose result is stored into the state.

Behaviour of the code that the model keeps as written:

- The starting card can be any card, a Wild +4 included, although the doc comment of `createInitialState` (`web-app/uno.js:45`) speaks of a valid starting card. Its generate-again loop tests a `type` field that generated cards never have (`StartingCardMayBeSpecial`).
- `lastSkipped` is documented as the index of the last player skipped (`web-app/uno.js:23`). The card play records the skipped player there (`web-app/uno.js:241`), but after a skip `advanceTurn` overwrites it with the player the turn lands on (`web-app/uno.js:79`).
- `callUno` only reports who is caught; it draws no cards and has no false-call field. The UNO button applies the penalties: two cards to each caught player, or two to the caller when nobody is caught.
- The AI's turn has no win check. An AI that plays its last card does not end the game there.

## Model

| member | source | states |
|---|---|---|
| JsNumbers.JsRemainder | web-app/uno-logic.js:97 | JavaScript `%`: for a non-negative dividend it is the mathematical remainder, at least 0 and below the divisor's magnitude; for a negative dividend it is at most 0 and above minus that magnitude |
| UnoLogic.RandomCard | web-app/uno-logic.js:35-44 | every generated card is well-formed: the +4 has no colour, every other card carries the colour drawn; the card is a +4 exactly when that branch was drawn |
| UnoLogic.EveryWellFormedCardIsGenerated | web-app/uno-logic.js:35-44 | conversely, every well-formed card is produced by some generator outcome |
| UnoLogic.GenerateHand | web-app/uno-logic.js:54 | a hand of `n` generated cards has `n` well-formed cards |
| UnoLogic.GenerateHandAppend | web-app/uno-logic.js:54 | generating one more card appends that card to the hand |
| UnoLogic.DealHands | web-app/uno-logic.js:63 | `numPlayers` hands of exactly 7 well-formed cards, card `j` of hand `i` being generator outcome `7i+j` |
| UnoLogic.DrawCard | web-app/uno-logic.js:72 | the old hand is a prefix of the new one, which is exactly one generated card longer; well-formedness is kept |
| UnoLogic.DrawAll | web-app/uno-logic.js:219-221 | folding `drawCard` over `k` outcomes appends exactly the `k` generated cards in order |
| UnoLogic.IsValidPlay | web-app/uno-logic.js:82-85 | a +4 is always playable, and so is a card whose colour field or value equals the pile card's |
| UnoLogic.IsValidPlayMeansMatch | web-app/uno-logic.js:82-85 | for a well-formed card in hand and any pile card (a coloured +4 included): playable exactly when it is a +4, shares the pile card's colour, has the same number, or is the same kind of special card |
| UnoLogic.RedFiveOnGreenTwo | web-app/tests/uno.test.js:50-54 | a red 5 cannot go on a green 2 |
| UnoLogic.NextTurn | web-app/uno-logic.js:96-97 | for a seat at the table and a direction of ±1, the next seat is at the table |
| UnoLogic.NextTurnStep | web-app/uno-logic.js:96-97 | the next seat is one step along the direction, wrapping from the last seat to 0 and from 0 to the last seat |
| UnoLogic.NextTurnRoundTrip | web-app/uno-logic.js:96-97 | a step forwards then backwards, or backwards then forwards, returns to the same seat |
| UnoLogic.NextTurnExamples | web-app/tests/uno.test.js:57-64 | with the default direction 1, `nextTurn(0,4)=1`, `nextTurn(2,4)=3` and `nextTurn(3,4)=0`; one step backwards from seat 0 of 4 is seat 3 |
| UnoLogic.DeclareUno | web-app/uno-logic.js:108-114 | the declaration succeeds exactly when the player holds one card; it then adds the player to the protected set, which otherwise stays as it was |
| UnoLogic.CatchableFrom | web-app/uno-logic.js:126-129 | the players from an index on that the caller catches, strictly ascending, containing exactly the catchable ones |
| UnoLogic.CallUno | web-app/uno-logic.js:125-135 | `punishedPlayers` is the ascending list of exactly the other players with one card who are not protected, all seats at the table; `caught` holds exactly when it is non-empty |
| UnoLogic.CallUnoCatchesSingleCard | web-app/uno-logic.js:125-135 | with two players, the caller catches the unprotected opponent holding one card and nobody else |
| UnoLogic.GetCardStyle | web-app/uno-logic.js:144-156 | the background is "wild" exactly for a card without colour, the lower-cased colour name for a coloured card, and "undefined" for the colour text "undefined"; a number card is labelled with its value |
| UnoLogic.ColorBackgrounds | web-app/uno-logic.js:145 | lower-casing gives "red", "green", "blue" and "yellow" for the four colours and leaves "wild" and "undefined" as they are |
| UnoLogic.CardStyleDeterminesCard | web-app/uno-logic.js:144-156 | two cards with the same style are the same card |
| UnoLogic.GenerateTurnSummary | web-app/uno-logic.js:169-180 | the summary starts with "Player {turn+1} played {value}", and is exactly that for a number card and longer for a special card |
| UnoLogic.TurnSummaryText | web-app/uno-logic.js:170-178 | with `next` the seat after the player: a +2 adds " - Player {next+1} drew 2 cards"; a +4 adds " - Player {next+1} drew 4 cards, new color: " and the colour text; a Reverse adds " - Direction reversed"; a Skip adds " - Player {next+1} skipped - Player {after+1}'s Turn", `after` being the seat after `next` |
| UnoLogic.Leader | web-app/uno-logic.js:195-196 | the leading key among the first `n` cards is counted in the whole hand at least as often as the key of card `n-1`, the last one scanned |
| UnoLogic.LeaderOccurs | web-app/uno-logic.js:195-196 | the leading colour key among the first `n` cards is the key of one of them |
| UnoLogic.LeaderIsMostFrequent | web-app/uno-logic.js:195-196 | no key among the first `n` cards is counted more often than the leader |
| UnoLogic.LeaderIsEarliest | web-app/uno-logic.js:195-196 | a key counted as often as the leader appears no earlier than the leader does |
| UnoLogic.CommonColor | web-app/uno-logic.js:195-196 | "Red" (`COLORS[0]`) for an empty hand; otherwise a key counted at least as often as the last card's |
| UnoLogic.CommonColorIsEarliestMostFrequent | web-app/uno-logic.js:195-196 | `commonColor` is the hand's most frequent colour key, the earliest one on a tie, and "Red" only for an empty hand |
| UnoLogic.BasePriority | web-app/uno-logic.js:202-203 | the value priority is 0 for a +4, 1 for a +2, 2 for a Reverse, 3 for a Skip and 4 for a number card, so the AI prefers them in that order |
| UnoLogic.Priority | web-app/uno-logic.js:202-203 | the doubled priority is exactly twice `sortPriority` (value priority, half a point less for the common colour) and lies between -1 and 8 |
| UnoLogic.PriorityOrdersLikeSortPriority | web-app/uno-logic.js:202-203 | doubled priorities compare exactly as `sortPriority` does, and the colour bonus never lifts a card above one whose value has a lower priority |
| UnoLogic.BestPlay | web-app/uno-logic.js:198-204 | a chosen card is among the cards looked at and is a valid play |
| UnoLogic.BestPlayIsFirstMinimal | web-app/uno-logic.js:198-204 | nothing is chosen exactly when no card is valid; otherwise no valid card has lower priority, and every valid card before the chosen one has strictly higher priority |
| UnoLogic.RemoveAt | web-app/uno-logic.js:214 | removing the card at `i` keeps every other card in order, is one shorter, removes exactly that card (as a multiset) and keeps well-formedness |
| UnoLogic.AiOutcome | web-app/uno-logic.js:193-237 | the AI move keeps one hand per player |
| UnoLogic.AiDrawsWhenNoPlay | web-app/uno-logic.js:227-228 | with no valid card the AI draws one card; the pile card, the direction, the other hands are unchanged and no skip is set |
| UnoLogic.AiPlaysBestCard | web-app/uno-logic.js:211-226 | with a valid card the AI plays `BestPlay`'s card: when the next player is not the AI itself (any table of two or more seats), the card leaves the AI's hand and the next player draws 4 (+4) or 2 (+2); a +4 takes the common colour, Reverse negates the direction, Skip sets the skip flag, no other hand changes |
| UnoLogic.AiOutcomeKeepsHands | web-app/uno-logic.js:206-236 | the AI move keeps one hand per player, a direction of ±1 and well-formed hands |
| UnoLogic.PerformAITurn | web-app/uno-logic.js:193-237 | the imperative AI turn computes exactly `AiOutcome` |
| UnoGame.CreateInitialState | web-app/uno.js:48-63 | `numPlayers` hands of 7 cards, turn 0, direction 1, no skip, nobody protected or skipped, the first generated card on the pile, and a consistent state |
| UnoGame.StartingCardMayBeSpecial | web-app/uno.js:50-52 | the starting card can be a Wild +4 |
| UnoGame.AdvanceTurn | web-app/uno.js:71-83 | the new turn is at the table; the skip and pending-colour flags are cleared; `lastSkipped` is the new turn after a skip and none otherwise; only the new turn loses its protection; every other field is copied; consistency is kept |
| UnoGame.AdvanceTurnComposesNextTurn | web-app/uno.js:72-73 | the advance is `nextTurn` applied once, or twice when a skip is pending |
| UnoGame.DrawCardForPlayer | web-app/uno.js:87-88 | only the given player's hand grows, by exactly one generated card |
| UnoGame.WithDraws | web-app/uno.js:248-256 | only the given player's hand changes, by exactly the given cards appended |
| UnoGame.ApplyDraws | web-app/uno.js:248-256 | the drawing loop gives the player exactly `count` generated cards and changes no other hand |
| UnoGame.PlayCard | web-app/uno.js:212-246 | a play is refused exactly when the card is not a valid play; it awaits a colour exactly when it is a valid +4; the resulting state is consistent |
| UnoGame.PlayCardEffects | web-app/uno.js:213-243 | a valid play removes exactly the chosen card and tops the pile with it; the next player draws 2 or 4 cards; no other hand, the turn or the protection changes; Reverse negates the direction; Skip sets the flag and records the next player |
| UnoGame.CompleteWildPlay | web-app/uno.js:258-267 | the pile shows the played card in the chosen colour, the pending flag is cleared, and nothing else changes |
| UnoGame.ResolvePlay | web-app/uno.js:212-246 | the imperative card play computes exactly the state `PlayCard` yields, with the chosen colour written onto a +4 by `CompleteWildPlay`, and that state is consistent |
| UnoGame.WildPlayResolvesColor | web-app/uno.js:232-235 | after a +4 and the colour choice, the pile is a +4 of the chosen colour, the next player holds 4 more cards (3 if that player played it) and the state is consistent |
| UnoGame.Penalise | web-app/uno.js:376-379 | the penalty pass keeps one hand per player |
| UnoGame.PenaliseDrawsTwo | web-app/uno.js:376-379 | each caught player ends with exactly two more cards, the ones generated for its place in the list |
| UnoGame.PenaliseLeavesOthers | web-app/uno.js:376-379 | players who were not caught keep their hands |
| UnoGame.PenaliseKeepsWellFormed | web-app/uno.js:376-379 | penalty cards keep every hand well-formed |
| UnoGame.DrawPenalties | web-app/uno.js:376-379 | the penalty loop computes exactly `Penalise` over the whole list |
| UnoGame.Game.constructor | web-app/uno.js:338-349 | an empty or unparsable count means 2 players; the AI sits in seat 1 when chosen; the state is the initial state; the game is valid |
| UnoGame.Game.RotateIndex | web-app/uno.js:85 | the relative seat is at the table, is 0 exactly for the player to move, and adding the turn back gives the original seat |
| UnoGame.Game.FinalisePlay | web-app/uno.js:274-281 | the new state is stored and the turn is finished; the mover with an empty hand becomes the winner |
| UnoGame.Game.HandleCardPlay | web-app/uno.js:212-246 | called only for the player to move before the turn is finished, as the card click handlers are wired (`web-app/uno.js:187-199`); an invalid card changes nothing; otherwise the state is the play's outcome, with the chosen colour applied to a +4, the turn is finished and the win check is applied; validity is kept |
| UnoGame.Game.EndTurn | web-app/uno.js:288-290 | the delayed step stores `advanceTurn` of the state and clears `turnFinished` |
| UnoGame.Game.AiPlayTurn | web-app/uno.js:300-333 | the state takes the AI move's hands, pile card, direction and skip flag; an AI left with one card is protected when it declares; the turn is finished; there is no win check |
| UnoGame.Game.DrawButton | web-app/uno.js:357-365 | the player to move draws one card, only when the turn is not finished; nothing else changes |
| UnoGame.Game.UnoButton | web-app/uno.js:367-385 | a player with one card declares and only becomes protected; otherwise the caught players draw two cards each, or the caller draws two when nobody is caught; nothing else changes |

## Left out

- The DOM is not modelled: rendering, CSS classes, modals, `alert`, the turn pop-up, the direction arrows and the turn-summary overlay are display only.
- `setTimeout` sequencing and the wait before the turn ends (2 seconds when a human has one card) are not modelled. `Game.EndTurn` is the delayed step, and its caller decides when it runs.
- The colour picker is not modelled. It is a Promise resolved by a button; the chosen colour is a parameter of `Game.HandleCardPlay`.
- The picked colour is taken from the button's `data-color` attribute, whose markup is not part of this model. The model assumes the buttons carry the four `COLORS` names; if they did not, a +4 completed by a human would afterwards never match a card by colour.
- The generator's probability thresholds are not modelled, because they are floating-point comparisons on `Math.random`. The model keeps which branch was taken and the colour drawn.
- The AI's 80% self-declaration coin is the boolean parameter `declares` of `Game.AiPlayTurn`.
- `parseInt` on the entered player count is not modelled. The constructor receives the parsed count, with 0 standing for an empty or unparsable entry. A negative entry would make `R.times` throw; the model's count is a natural number, so that path is not modelled.
- Ramda's internals are not modelled. Only the list meaning of `R.times`, `R.append`, `R.countBy`, `R.sortBy`, `R.remove` and `R.clone` is modelled.
- Sharing of the `protectedPlayers` Set between successive state objects is not modelled: states are values here, and no old state object is read after it is replaced.
- JavaScript numbers are doubles; player and card indices are modelled as unbounded integers, which they match for any realistic table.
- `web-app/main.js`, `web-app/Archive/old-main.js` and most of `web-app/tests/uno.test.js` are not part of this model. The tests check a card shape and a `createHands` export the logic file does not have.
- The `nextTurn` cases of the tests are stated in `NextTurnExamples`. Of the `isValidPlay` cases only the third is stated, in `RedFiveOnGreenTwo`, and on cards with a `value` field. The tests build their cards with a `number` field instead, so under the code every one of their cards has an undefined `value`, all values compare equal, and `isValidPlay` returns true even for that third case.
- GetCardStyle: the contract states every background and the number captions. The captions of the four special cards (the symbols for Skip and Reverse) are fixed only by its body.
- NextTurn: its own contract states only the range. The exact step is stated by `NextTurnStep`.
- BestPlay: its own contract states only that the pick is valid. Its minimality is `BestPlayIsFirstMinimal`.
- AiOutcome: its own contract states only the number of hands. Its meaning is given by `AiDrawsWhenNoPlay`, `AiPlaysBestCard` and `AiOutcomeKeepsHands`.
