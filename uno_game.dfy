/**
 * The game-state engine of web-app/uno.js: the `GameState` record and its copy-returning
 * transitions (start of game, turn advance, drawing, the effect of a played card, completing a
 * Wild +4 with a chosen colour, the UNO-button penalties), and the module's mutable state
 * (`state`, `turnFinished`, the player count, the AI seat, the end of the game) as the class
 * `Game`, whose methods are the event handlers' state logic.
 */
module UnoGame {
  import opened Wrappers
  import opened JsNumbers
  import opened UnoLogic

  datatype GameState = GameState(
    currentCard: Card,
    hands: seq<Hand>,
    turn: int,
    direction: int,
    skipNext: bool,
    protectedPlayers: set<int>,
    lastSkipped: Option<int>,
    pendingColorChange: bool)

  /** What holds of every state of a game of `numPlayers` players. */
  predicate Consistent(s: GameState, numPlayers: int) {
    && numPlayers >= 1
    && |s.hands| == numPlayers
    && 0 <= s.turn < numPlayers
    && (s.direction == 1 || s.direction == -1)
    && AllHandsWellFormed(s.hands)
    && (forall p :: p in s.protectedPlayers ==> 0 <= p < numPlayers)
    && (s.lastSkipped.Some? ==> 0 <= s.lastSkipped.value < numPlayers)
  }

  // ---------------------------------------------------------------------------------------
  // Copy-returning transitions
  // ---------------------------------------------------------------------------------------

  /**
   * `createInitialState`: the first generated card on the pile (the generate-again loop tests a
   * `type` field that cards never have, so it always stops after one card), seven cards for
   * every player, player 0 to move clockwise, nobody protected or skipped.
   */
  function CreateInitialState(numPlayers: nat, start: Chance, deal: seq<Chance>): (s: GameState)
    requires |deal| == 7 * numPlayers
    ensures |s.hands| == numPlayers && forall p :: 0 <= p < numPlayers ==> |s.hands[p]| == 7
    ensures s.turn == 0 && s.direction == 1 && !s.skipNext
    ensures s.protectedPlayers == {} && s.lastSkipped == None && !s.pendingColorChange
    ensures s.currentCard == RandomCard(start)
    ensures numPlayers >= 1 ==> Consistent(s, numPlayers)
  {
    GameState(RandomCard(start), DealHands(numPlayers, deal), 0, 1, false, {}, None, false)
  }

  /** The starting card is not guaranteed to be a number card: it can be a Wild +4. */
  lemma StartingCardMayBeSpecial(numPlayers: nat, deal: seq<Chance>)
    requires |deal| == 7 * numPlayers
    ensures exists start :: CreateInitialState(numPlayers, start, deal).currentCard.value == PlusFour
  {
    assert CreateInitialState(numPlayers, Chance(Red, RollPlusFour), deal).currentCard.value == PlusFour;
  }

  /**
   * `advanceTurn`: one step (two when a skip is pending) in the current direction; the skip and
   * pending-colour flags are cleared, `lastSkipped` becomes the player the turn lands on after a
   * skip (and none otherwise), and that player's UNO protection expires. Nothing else changes.
   */
  function AdvanceTurn(s: GameState): (r: GameState)
    requires |s.hands| > 0
    ensures 0 <= s.turn < |s.hands| && (s.direction == 1 || s.direction == -1) ==> 0 <= r.turn < |s.hands|
    ensures !r.skipNext && !r.pendingColorChange
    ensures r.lastSkipped == (if s.skipNext then Some(r.turn) else None)
    ensures r.protectedPlayers == s.protectedPlayers - {r.turn}
    ensures r.currentCard == s.currentCard && r.hands == s.hands && r.direction == s.direction
    ensures Consistent(s, |s.hands|) ==> Consistent(r, |s.hands|)
  {
    var skip := if s.skipNext then 2 else 1;
    var next := JsRemainder(s.turn + skip * s.direction + |s.hands|, |s.hands|);
    s.(turn := next,
       skipNext := false,
       lastSkipped := if skip == 2 then Some(next) else None,
       protectedPlayers := (set p | p in s.protectedPlayers && p != next),
       pendingColorChange := false)
  }

  /** The advance is `nextTurn` applied once, or twice when a skip is pending. */
  lemma {:induction false} AdvanceTurnComposesNextTurn(s: GameState)
    requires Consistent(s, |s.hands|)
    ensures AdvanceTurn(s).turn ==
      if s.skipNext then NextTurn(NextTurn(s.turn, |s.hands|, s.direction), |s.hands|, s.direction)
      else NextTurn(s.turn, |s.hands|, s.direction)
  {
    var n, t, d := |s.hands|, s.turn, s.direction;
    var k := if s.skipNext then 2 else 1;
    var a := t + k * d + n;
    NextTurnStep(t, n, d);
    var once := NextTurn(t, n, d);
    NextTurnStep(once, n, d);
    if n == 1 {
      assert AdvanceTurn(s).turn == 0;
    } else {
      assert 0 <= a < 3 * n;
      SmallRemainder(a, n);
      assert AdvanceTurn(s).turn == a % n;
    }
  }

  /** `drawCardForPlayer`: player `playerIndex` draws one card; every other hand is the same. */
  function DrawCardForPlayer(playerIndex: int, hands: seq<Hand>, ch: Chance): (r: seq<Hand>)
    ensures |r| == |hands|
    ensures forall i :: 0 <= i < |hands| && i != playerIndex ==> r[i] == hands[i]
    ensures 0 <= playerIndex < |hands| ==> r[playerIndex] == hands[playerIndex] + [RandomCard(ch)]
    ensures AllHandsWellFormed(hands) ==> AllHandsWellFormed(r)
  {
    seq(|hands|, i requires 0 <= i < |hands| => if i == playerIndex then DrawCard(hands[i], ch) else hands[i])
  }

  /** Player `player` receives the cards `cards` at the end of the hand; the specification of `applyDraws`. */
  function WithDraws(hands: seq<Hand>, player: int, cards: Hand): (r: seq<Hand>)
    requires 0 <= player < |hands|
    ensures |r| == |hands| && r[player] == hands[player] + cards
    ensures forall i :: 0 <= i < |hands| && i != player ==> r[i] == hands[i]
    ensures AllHandsWellFormed(hands) && AllWellFormed(cards) ==> AllHandsWellFormed(r)
  {
    hands[player := hands[player] + cards]
  }

  /** `applyDraws`: player `player` draws `count` cards, one generator outcome each, in a loop. */
  method ApplyDraws(hands: seq<Hand>, player: int, count: nat, chances: seq<Chance>) returns (newHands: seq<Hand>)
    requires 0 <= player < |hands| && count <= |chances|
    ensures newHands == WithDraws(hands, player, GenerateHand(chances[..count]))
  {
    newHands := hands;
    var hand := hands[player];
    for i := 0 to count
      invariant hand == hands[player] + GenerateHand(chances[..i])
    {
      GenerateHandAppend(chances[..i], chances[i]);
      assert chances[..i + 1] == chances[..i] + [chances[i]];
      hand := DrawCard(hand, chances[i]);
    }
    newHands := newHands[player := hand];
  }

  // ---------------------------------------------------------------------------------------
  // Playing a card
  // ---------------------------------------------------------------------------------------

  /** A card play is either refused, complete, or (a Wild +4) waiting for the colour choice. */
  datatype PlayOutcome = Rejected | Played(next: GameState) | AwaitingColor(pending: GameState)

  predicate PlayInputs(s: GameState, playerIndex: int, cardIndex: int, numPlayers: int, chances: seq<Chance>) {
    && Consistent(s, numPlayers)
    && 0 <= playerIndex < |s.hands|
    && 0 <= cardIndex < |s.hands[playerIndex]|
    && |chances| >= 4
  }

  /**
   * The state-building part of `handleCardPlay`: an invalid card changes nothing; a valid one
   * leaves the hand and tops the pile, and then the player after the current one (in the current
   * direction) draws 2 for a +2 or 4 for a +4 (which also awaits a colour), a Reverse negates the
   * direction, and a Skip sets the skip flag and records that player as skipped.
   */
  function PlayCard(s: GameState, playerIndex: int, cardIndex: int, numPlayers: int, chances: seq<Chance>): (r: PlayOutcome)
    requires PlayInputs(s, playerIndex, cardIndex, numPlayers, chances)
    ensures r.Rejected? <==> !IsValidPlay(s.hands[playerIndex][cardIndex], s.currentCard)
    ensures r.AwaitingColor? <==> r != Rejected && s.hands[playerIndex][cardIndex].value == PlusFour
    ensures r.Played? ==> Consistent(r.next, numPlayers)
    ensures r.AwaitingColor? ==> Consistent(r.pending, numPlayers)
  {
    var card := s.hands[playerIndex][cardIndex];
    if !IsValidPlay(card, s.currentCard) then Rejected
    else
      var afterPlay := s.(hands := s.hands[playerIndex := RemoveAt(s.hands[playerIndex], cardIndex)], currentCard := card);
      var next := NextTurn(s.turn, numPlayers, s.direction);
      match card.value
      case PlusTwo => Played(afterPlay.(hands := WithDraws(afterPlay.hands, next, GenerateHand(chances[..2]))))
      case PlusFour =>
        AwaitingColor(afterPlay.(hands := WithDraws(afterPlay.hands, next, GenerateHand(chances[..4])), pendingColorChange := true))
      case Reverse => Played(afterPlay.(direction := afterPlay.direction * -1))
      case Skip => Played(afterPlay.(skipNext := true, lastSkipped := Some(next)))
      case Num(_) => Played(afterPlay)
  }

  /** The state a play leads to, before any colour choice. */
  function PlayedState(r: PlayOutcome): GameState
    requires !r.Rejected?
  {
    if r.Played? then r.next else r.pending
  }

  /**
   * A valid play removes exactly the chosen card from the player's hand (order kept) and puts it on
   * the pile; the next player draws `DrawCount` cards; no other hand changes; the turn and the
   * protected players are untouched; the direction, the skip flag and `lastSkipped` change only
   * for a Reverse, resp. a Skip.
   */
  lemma PlayCardEffects(s: GameState, playerIndex: int, cardIndex: int, numPlayers: int, chances: seq<Chance>)
    requires PlayInputs(s, playerIndex, cardIndex, numPlayers, chances)
    requires IsValidPlay(s.hands[playerIndex][cardIndex], s.currentCard)
    ensures var card := s.hands[playerIndex][cardIndex];
      var t := PlayedState(PlayCard(s, playerIndex, cardIndex, numPlayers, chances));
      var next := NextTurn(s.turn, numPlayers, s.direction);
      var drawn := GenerateHand(chances[..DrawCount(card.value)]);
      && t.currentCard == card
      && (playerIndex != next ==> t.hands[playerIndex] == RemoveAt(s.hands[playerIndex], cardIndex))
      && (playerIndex != next ==> t.hands[next] == s.hands[next] + drawn)
      && (playerIndex == next ==> t.hands[next] == RemoveAt(s.hands[playerIndex], cardIndex) + drawn)
      && (forall p :: 0 <= p < |s.hands| && p != playerIndex && p != next ==> t.hands[p] == s.hands[p])
      && t.turn == s.turn && t.protectedPlayers == s.protectedPlayers
      && t.direction == (if card.value == Reverse then -s.direction else s.direction)
      && t.skipNext == (card.value == Skip || s.skipNext)
      && t.lastSkipped == (if card.value == Skip then Some(next) else s.lastSkipped)
      && t.pendingColorChange == (card.value == PlusFour || s.pendingColorChange)
  {
    var card := s.hands[playerIndex][cardIndex];
    if DrawCount(card.value) == 0 {
      assert GenerateHand(chances[..0]) == [];
    }
  }

  /**
   * `handleColorSelection`: the chosen colour is written onto the played Wild +4, which becomes
   * the card on the pile, and the pending flag is cleared; everything else is the pending state.
   */
  function CompleteWildPlay(card: Card, pending: GameState, chosen: Color): (r: GameState)
    ensures r.currentCard.value == card.value && r.currentCard.color == Colored(chosen)
    ensures !r.pendingColorChange
    ensures r.(currentCard := pending.currentCard, pendingColorChange := pending.pendingColorChange) == pending
  {
    pending.(currentCard := card.(color := Colored(chosen)), pendingColorChange := false)
  }

  /** After a player's Wild +4 is completed, the pile shows a +4 of the chosen colour and nobody else's hand changed but the next player's. */
  lemma {:induction false} WildPlayResolvesColor(s: GameState, playerIndex: int, cardIndex: int, numPlayers: int,
                                                chances: seq<Chance>, chosen: Color)
    requires PlayInputs(s, playerIndex, cardIndex, numPlayers, chances)
    requires s.hands[playerIndex][cardIndex].value == PlusFour
    ensures var r := PlayCard(s, playerIndex, cardIndex, numPlayers, chances);
      && r.AwaitingColor?
      && var t := CompleteWildPlay(s.hands[playerIndex][cardIndex], r.pending, chosen);
      && t.currentCard == Card(PlusFour, Colored(chosen))
      && !t.pendingColorChange
      && |t.hands[NextTurn(s.turn, numPlayers, s.direction)]| ==
           |s.hands[NextTurn(s.turn, numPlayers, s.direction)]| + 4 - (if playerIndex == NextTurn(s.turn, numPlayers, s.direction) then 1 else 0)
      && Consistent(t, numPlayers)
  {
    PlayCardEffects(s, playerIndex, cardIndex, numPlayers, chances);
  }

  /**
   * The state a valid play leads to once any colour choice is made: the steps of `handleCardPlay`
   * and, for a Wild +4, `handleColorSelection` with the chosen colour.
   */
  method ResolvePlay(s: GameState, playerIndex: int, cardIndex: int, numPlayers: int, chosen: Color, chances: seq<Chance>)
    returns (nextState: GameState)
    requires PlayInputs(s, playerIndex, cardIndex, numPlayers, chances)
    requires IsValidPlay(s.hands[playerIndex][cardIndex], s.currentCard)
    ensures var r := PlayCard(s, playerIndex, cardIndex, numPlayers, chances);
      nextState == if r.AwaitingColor? then CompleteWildPlay(s.hands[playerIndex][cardIndex], r.pending, chosen) else r.next
    ensures Consistent(nextState, numPlayers)
  {
    var card := s.hands[playerIndex][cardIndex];
    ghost var outcome := PlayCard(s, playerIndex, cardIndex, numPlayers, chances);
    var newHands := s.hands[playerIndex := RemoveAt(s.hands[playerIndex], cardIndex)];
    nextState := s.(hands := newHands, currentCard := card);
    var next := NextTurn(s.turn, numPlayers, s.direction);

    match card.value {
      case PlusTwo =>
        var drawn := ApplyDraws(nextState.hands, next, 2, chances);
        nextState := nextState.(hands := drawn);
        assert outcome == Played(nextState);
      case PlusFour =>
        var drawn := ApplyDraws(nextState.hands, next, 4, chances);
        nextState := nextState.(hands := drawn, pendingColorChange := true);
        assert outcome == AwaitingColor(nextState);
        nextState := CompleteWildPlay(card, nextState, chosen);
      case Reverse =>
        nextState := nextState.(direction := nextState.direction * -1);
        assert outcome == Played(nextState);
      case Skip =>
        nextState := nextState.(skipNext := true, lastSkipped := Some(next));
        assert outcome == Played(nextState);
      case Num(_) =>
        assert outcome == Played(nextState);
    }
  }

  // ---------------------------------------------------------------------------------------
  // UNO-button penalties
  // ---------------------------------------------------------------------------------------

  /** The hands after the first `k` punished players each drew their two penalty cards. */
  function Penalise(hands: seq<Hand>, punished: seq<int>, chances: seq<Chance>, k: nat): (r: seq<Hand>)
    requires k <= |punished| && 2 * |punished| <= |chances| && IndicesWithin(punished, |hands|)
    ensures |r| == |hands|
  {
    if k == 0 then hands
    else
      var prev := Penalise(hands, punished, chances, k - 1);
      var p := punished[k - 1];
      prev[p := DrawCard(DrawCard(prev[p], chances[2 * (k - 1)]), chances[2 * (k - 1) + 1])]
  }

  /**
   * Every punished player (listed once each) ends up with exactly two more cards, the ones drawn
   * for its position in the list.
   */
  lemma {:induction false} PenaliseDrawsTwo(hands: seq<Hand>, punished: seq<int>, chances: seq<Chance>, k: nat)
    requires k <= |punished| && 2 * |punished| <= |chances| && IndicesWithin(punished, |hands|)
    requires Ascending(punished)
    ensures forall j :: 0 <= j < k ==>
      Penalise(hands, punished, chances, k)[punished[j]] ==
        hands[punished[j]] + [RandomCard(chances[2 * j]), RandomCard(chances[2 * j + 1])]
  {
    forall j | 0 <= j < k
      ensures Penalise(hands, punished, chances, k)[punished[j]] ==
        hands[punished[j]] + [RandomCard(chances[2 * j]), RandomCard(chances[2 * j + 1])]
    {
      PenaliseDrawsTwoAt(hands, punished, chances, k, j);
    }
  }

  /** `PenaliseDrawsTwo` for the `j`-th punished player, by induction on the players punished so far. */
  lemma {:induction false} PenaliseDrawsTwoAt(hands: seq<Hand>, punished: seq<int>, chances: seq<Chance>, k: nat, j: nat)
    requires k <= |punished| && 2 * |punished| <= |chances| && IndicesWithin(punished, |hands|)
    requires Ascending(punished) && j < k
    ensures Penalise(hands, punished, chances, k)[punished[j]] ==
      hands[punished[j]] + [RandomCard(chances[2 * j]), RandomCard(chances[2 * j + 1])]
  {
    var q := punished[k - 1];
    if j == k - 1 {
      // The last player punished so far was not punished before, so starts from the old hand.
      PenaliseLeavesOthers(hands, punished, chances, k - 1);
      assert q !in punished[..k - 1];
    } else {
      PenaliseDrawsTwoAt(hands, punished, chances, k - 1, j);
      assert punished[j] < q;
    }
  }

  /** A player not among the first `k` punished keeps its hand. */
  lemma {:induction false} PenaliseLeavesOthers(hands: seq<Hand>, punished: seq<int>, chances: seq<Chance>, k: nat)
    requires k <= |punished| && 2 * |punished| <= |chances| && IndicesWithin(punished, |hands|)
    ensures forall p :: 0 <= p < |hands| && p !in punished[..k] ==> Penalise(hands, punished, chances, k)[p] == hands[p]
  {
    if k > 0 {
      PenaliseLeavesOthers(hands, punished, chances, k - 1);
      forall p | 0 <= p < |hands| && p !in punished[..k]
        ensures Penalise(hands, punished, chances, k)[p] == hands[p]
      {
        assert punished[..k] == punished[..k - 1] + [punished[k - 1]];
      }
    }
  }

  /** Penalty cards are generated cards, so the hands stay well-formed. */
  lemma {:induction false} PenaliseKeepsWellFormed(hands: seq<Hand>, punished: seq<int>, chances: seq<Chance>, k: nat)
    requires k <= |punished| && 2 * |punished| <= |chances| && IndicesWithin(punished, |hands|)
    requires AllHandsWellFormed(hands)
    ensures AllHandsWellFormed(Penalise(hands, punished, chances, k))
  {
    if k > 0 {
      PenaliseKeepsWellFormed(hands, punished, chances, k - 1);
    }
  }

  /**
   * The call-out's `forEach`: each caught player, in list order, draws two penalty cards;
   * the result is `Penalise` over the whole list.
   */
  method DrawPenalties(hands: seq<Hand>, punished: seq<int>, chances: seq<Chance>) returns (newHands: seq<Hand>)
    requires 2 * |punished| <= |chances| && IndicesWithin(punished, |hands|)
    ensures newHands == Penalise(hands, punished, chances, |punished|)
  {
    newHands := hands;
    for k := 0 to |punished|
      invariant newHands == Penalise(hands, punished, chances, k)
    {
      var i := punished[k];
      newHands := newHands[i := DrawCard(DrawCard(newHands[i], chances[2 * k]), chances[2 * k + 1])];
    }
  }

  // ---------------------------------------------------------------------------------------
  // The module state and its event handlers
  // ---------------------------------------------------------------------------------------

  class Game {
    /** Number of players chosen at set-up. */
    var numPlayers: int
    /** The AI's seat (player 1 when playing against the AI), or none. */
    var aiPlayerIndex: Option<int>
    var state: GameState
    /** Set once the current player has moved; cleared when the turn advances. */
    var turnFinished: bool
    /** The player for whom the end-of-game dialog was shown. */
    var winner: Option<int>

    ghost predicate Valid()
      reads this
    {
      Consistent(state, numPlayers) && (winner.Some? ==> 0 <= winner.value < numPlayers)
    }

    /**
     * The set-up dialog's start button: `enteredPlayers` is the parsed player count, 0 standing
     * for an empty or unparsable entry, which means two players.
     */
    constructor (enteredPlayers: nat, vsAI: bool, start: Chance, deal: seq<Chance>)
      requires |deal| == 7 * (if enteredPlayers == 0 then 2 else enteredPlayers)
      ensures Valid()
      ensures numPlayers == (if enteredPlayers == 0 then 2 else enteredPlayers)
      ensures aiPlayerIndex == (if vsAI then Some(1) else None)
      ensures state == CreateInitialState(numPlayers, start, deal)
      ensures !turnFinished && winner == None
    {
      numPlayers := if enteredPlayers == 0 then 2 else enteredPlayers;
      aiPlayerIndex := if vsAI then Some(1) else None;
      state := CreateInitialState(if enteredPlayers == 0 then 2 else enteredPlayers, start, deal);
      turnFinished := false;
      winner := None;
    }

    /** `rotateIndex`: a player's seat relative to the player to move (the mover sits at 0). */
    function RotateIndex(i: int): (r: int)
      reads this
      requires |state.hands| > 0
      ensures Consistent(state, numPlayers) && 0 <= i < numPlayers ==>
        && 0 <= r < numPlayers
        && (r == 0 <==> i == state.turn)
        && JsRemainder(r + state.turn, numPlayers) == i
    {
      var n := |state.hands|;
      var r := JsRemainder(i - state.turn + n, n);
      if Consistent(state, numPlayers) && 0 <= i < numPlayers then
        SmallRemainder(i - state.turn + n, n);
        SmallRemainder(r + state.turn, n);
        r
      else r
    }

    /**
     * The immediate part of `finalisePlayAndAdvance`: the new state is stored and the turn is
     * marked finished; if the player who just moved has no cards left the game ends with that
     * player as the winner. The turn itself advances later, in `EndTurn`.
     */
    method FinalisePlay(newState: GameState)
      requires Valid() && Consistent(newState, numPlayers)
      modifies this
      ensures Valid()
      ensures state == newState && turnFinished
      ensures winner == (if |newState.hands[newState.turn]| == 0 then Some(newState.turn) else old(winner))
      ensures numPlayers == old(numPlayers) && aiPlayerIndex == old(aiPlayerIndex)
    {
      turnFinished := true;
      state := newState;
      if |state.hands[state.turn]| == 0 {
        winner := Some(state.turn);
      }
    }

    /**
     * `handleCardPlay` followed by `handleColorSelection` (with the colour the player picks) and the
     * immediate part of `finalisePlayAndAdvance`. An invalid card changes nothing. Cards are
     * clickable only in the hand of the player whose turn it is, and only before that player
     * has finished the turn.
     */
    method HandleCardPlay(playerIndex: int, cardIndex: int, chosen: Color, chances: seq<Chance>)
      requires Valid() && PlayInputs(state, playerIndex, cardIndex, numPlayers, chances)
      requires !turnFinished && playerIndex == state.turn
      modifies this
      ensures Valid()
      ensures numPlayers == old(numPlayers) && aiPlayerIndex == old(aiPlayerIndex)
      ensures var r := PlayCard(old(state), playerIndex, cardIndex, numPlayers, chances);
        match r
        case Rejected =>
          state == old(state) && turnFinished == old(turnFinished) && winner == old(winner)
        case Played(t) =>
          && state == t && turnFinished
          && winner == (if |t.hands[t.turn]| == 0 then Some(t.turn) else old(winner))
        case AwaitingColor(t) =>
          && state == CompleteWildPlay(old(state).hands[playerIndex][cardIndex], t, chosen) && turnFinished
          && winner == (if |t.hands[t.turn]| == 0 then Some(t.turn) else old(winner))
    {
      var card := state.hands[playerIndex][cardIndex];
      if !IsValidPlay(card, state.currentCard) {
        return;
      }
      var nextState := ResolvePlay(state, playerIndex, cardIndex, numPlayers, chosen, chances);
      FinalisePlay(nextState);
    }

    /** The timer that ends a finished turn (after a player's move or the AI's): `advanceTurn`. */
    method EndTurn()
      requires Valid() && winner.None?
      modifies this
      ensures Valid()
      ensures state == AdvanceTurn(old(state)) && !turnFinished
      ensures numPlayers == old(numPlayers) && aiPlayerIndex == old(aiPlayerIndex) && winner == old(winner)
    {
      state := AdvanceTurn(state);
      turnFinished := false;
    }

    /**
     * `aiPlayTurn`'s state update: the AI's move is applied, and an AI left with one card declares
     * UNO when `declares` (the source's 80% coin) is true. There is no win check here.
     */
    method AiPlayTurn(declares: bool, chances: seq<Chance>)
      requires Valid() && aiPlayerIndex == Some(state.turn) && |chances| >= 4
      modifies this
      ensures numPlayers == old(numPlayers) && aiPlayerIndex == old(aiPlayerIndex) && winner == old(winner)
      ensures Valid()
      ensures var ai := old(state.turn);
        var m := AiOutcome(ai, old(state.hands), old(state.currentCard), old(state.direction), numPlayers, chances);
        state == old(state).(
          hands := m.updatedHands, currentCard := m.newCard, direction := m.direction, skipNext := m.skipNext,
          protectedPlayers := if |m.updatedHands[ai]| == 1 && declares then old(state.protectedPlayers) + {ai}
                              else old(state.protectedPlayers))
      ensures turnFinished
    {
      var ai := state.turn;
      var result := PerformAITurn(ai, state.hands, state.currentCard, state.direction, numPlayers, chances);
      AiOutcomeKeepsHands(ai, state.hands, state.currentCard, state.direction, numPlayers, chances);
      state := state.(hands := result.updatedHands, currentCard := result.newCard,
                      direction := result.direction, skipNext := result.skipNext);
      if |state.hands[ai]| == 1 && declares {
        state := state.(protectedPlayers := state.protectedPlayers + {ai});
      }
      turnFinished := true;
    }

    /** The draw button: the player to move draws one card, unless the turn is already finished. */
    method DrawButton(ch: Chance)
      requires Valid()
      modifies this
      ensures Valid()
      ensures !old(turnFinished) ==> state == old(state).(hands := DrawCardForPlayer(old(state.turn), old(state.hands), ch))
      ensures old(turnFinished) ==> state == old(state)
      ensures turnFinished == old(turnFinished) && winner == old(winner)
      ensures numPlayers == old(numPlayers) && aiPlayerIndex == old(aiPlayerIndex)
    {
      if !turnFinished {
        state := state.(hands := DrawCardForPlayer(state.turn, state.hands, ch));
      }
    }

    /**
     * The UNO button: the player to move declares UNO if holding one card (protection only);
     * otherwise it is a call-out, and each caught player draws two penalty cards, or, when nobody
     * is caught, the caller draws two.
     */
    method UnoButton(chances: seq<Chance>)
      requires Valid() && |chances| >= 2 * |state.hands|
      modifies this
      ensures Valid()
      ensures var turn := old(state.turn);
        var hands := old(state.hands);
        var call := CallUno(turn, hands, old(state.protectedPlayers));
        if |hands[turn]| == 1 then
          state == old(state).(protectedPlayers := old(state.protectedPlayers) + {turn})
        else if call.caught then
          state == old(state).(hands := Penalise(hands, call.punishedPlayers, chances, |call.punishedPlayers|))
        else
          state == old(state).(hands := WithDraws(hands, turn, GenerateHand(chances[..2])))
      ensures turnFinished == old(turnFinished) && winner == old(winner)
      ensures numPlayers == old(numPlayers) && aiPlayerIndex == old(aiPlayerIndex)
    {
      var currentHand := state.hands[state.turn];
      var declared, protectedAfter := DeclareUno(state.turn, state.hands, state.protectedPlayers);
      if declared {
        state := state.(protectedPlayers := protectedAfter);
        return;
      }

      var result := CallUno(state.turn, state.hands, state.protectedPlayers);
      if result.caught {
        var punished := result.punishedPlayers;
        PenaliseKeepsWellFormed(state.hands, punished, chances, |punished|);
        var penalised := DrawPenalties(state.hands, punished, chances);
        state := state.(hands := penalised);
      } else {
        assert GenerateHand(chances[..2]) == [RandomCard(chances[0]), RandomCard(chances[1])];
        assert DrawCard(DrawCard(currentHand, chances[0]), chances[1]) == currentHand + GenerateHand(chances[..2]);
        state := state.(hands := state.hands[state.turn := DrawCard(DrawCard(currentHand, chances[0]), chances[1])]);
      }
    }
  }
}
