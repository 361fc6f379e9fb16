/**
 * The rule functions of the UNO game (web-app/uno-logic.js): the card shape and its random
 * generation, dealing and drawing, play legality, circular turn arithmetic, the UNO
 * declaration and call-out, display derivations and the AI's move chooser.
 *
 * Randomness: every call of the card generator is represented by the `Chance` it drew,
 * supplied by the caller. Lists of such outcomes stand for the next results of the generator.
 */
module UnoLogic {
  import opened Wrappers
  import opened JsNumbers

  // ---------------------------------------------------------------------------------------
  // Cards
  // ---------------------------------------------------------------------------------------

  datatype Color = Red | Green | Blue | Yellow

  /** The four card colours, in the order of the source's `COLORS`. */
  const Colors: seq<Color> := [Red, Green, Blue, Yellow]

  /**
   * The `color` field of a card as JavaScript holds it: absent (`undefined`), one of the four
   * colour names, or the text "undefined". The last one arises only when the AI plays a Wild +4
   * while the most frequent colour key of its hand is the key under which colourless cards
   * are counted.
   */
  datatype CardColor = NoColor | Colored(color: Color) | UndefinedText

  type Digit = d: int | 1 <= d <= 9 witness 1

  /** The `value` field: "1".."9", "+2", "+4", "Skip" or "Reverse". */
  datatype Value = Num(n: Digit) | PlusTwo | PlusFour | Skip | Reverse

  datatype Card = Card(value: Value, color: CardColor)

  type Hand = seq<Card>

  /** The shape every generated card has: a Wild +4 has no colour, every other card has one. */
  predicate WellFormed(c: Card) {
    if c.value == PlusFour then c.color == NoColor else c.color.Colored?
  }

  predicate AllWellFormed(hand: Hand) {
    forall j :: 0 <= j < |hand| ==> WellFormed(hand[j])
  }

  predicate AllHandsWellFormed(hands: seq<Hand>) {
    forall p :: 0 <= p < |hands| ==> AllWellFormed(hands[p])
  }

  /** Which branch the generator's second random number selected (the thresholds are not modelled). */
  datatype Roll = RollPlusTwo | RollPlusFour | RollReverse | RollSkip | RollNumber(digit: Digit)

  /** The outcome of one call of the card generator: the colour drawn first, then the branch. */
  datatype Chance = Chance(color: Color, roll: Roll)

  /** `getRandomCard`: the card built from one outcome of the random draws. */
  function RandomCard(ch: Chance): (c: Card)
    ensures WellFormed(c)
    ensures c.value == PlusFour <==> ch.roll == RollPlusFour
    ensures c.value != PlusFour ==> c.color == Colored(ch.color)
  {
    match ch.roll
    case RollPlusTwo => Card(PlusTwo, Colored(ch.color))
    case RollPlusFour => Card(PlusFour, NoColor)
    case RollReverse => Card(Reverse, Colored(ch.color))
    case RollSkip => Card(Skip, Colored(ch.color))
    case RollNumber(d) => Card(Num(d), Colored(ch.color))
  }

  /** Conversely, every well-formed card can come out of the generator. */
  lemma EveryWellFormedCardIsGenerated(c: Card)
    requires WellFormed(c)
    ensures exists ch :: RandomCard(ch) == c
  {
    match c.value
    case PlusFour => assert RandomCard(Chance(Red, RollPlusFour)) == c;
    case PlusTwo => assert RandomCard(Chance(c.color.color, RollPlusTwo)) == c;
    case Reverse => assert RandomCard(Chance(c.color.color, RollReverse)) == c;
    case Skip => assert RandomCard(Chance(c.color.color, RollSkip)) == c;
    case Num(d) => assert RandomCard(Chance(c.color.color, RollNumber(d))) == c;
  }

  /** `generateHand`: one card per outcome, in generation order. */
  function GenerateHand(chances: seq<Chance>): (hand: Hand)
    ensures |hand| == |chances|
    ensures AllWellFormed(hand)
  {
    seq(|chances|, j requires 0 <= j < |chances| => RandomCard(chances[j]))
  }

  lemma GenerateHandAppend(chances: seq<Chance>, ch: Chance)
    ensures GenerateHand(chances + [ch]) == GenerateHand(chances) + [RandomCard(ch)]
  {
    assert forall j :: 0 <= j < |chances| ==> (chances + [ch])[j] == chances[j];
  }

  /** `dealHands`: `numPlayers` hands of seven cards; hand `i` is made from outcomes `7i .. 7i+6`. */
  function DealHands(numPlayers: nat, chances: seq<Chance>): (hands: seq<Hand>)
    requires |chances| == 7 * numPlayers
    ensures |hands| == numPlayers
    ensures forall i :: 0 <= i < numPlayers ==> |hands[i]| == 7 && AllWellFormed(hands[i])
    ensures forall i, j :: 0 <= i < numPlayers && 0 <= j < 7 ==> hands[i][j] == RandomCard(chances[7 * i + j])
  {
    seq(numPlayers, i requires 0 <= i < numPlayers => GenerateHand(chances[7 * i .. 7 * i + 7]))
  }

  /** `drawCard`: a new hand with one freshly generated card at the end. */
  function DrawCard(hand: Hand, ch: Chance): (r: Hand)
    ensures |r| == |hand| + 1 && r[..|hand|] == hand
    ensures r[|hand|] == RandomCard(ch)
    ensures AllWellFormed(hand) ==> AllWellFormed(r)
  {
    hand + [RandomCard(ch)]
  }

  /** `R.reduce(drawCard, hand, R.range(0, k))`: draw one card per outcome, left to right. */
  function DrawAll(hand: Hand, chances: seq<Chance>): (r: Hand)
    ensures r == hand + GenerateHand(chances)
    decreases |chances|
  {
    if chances == [] then hand
    else
      assert chances == [chances[0]] + chances[1..];
      assert GenerateHand(chances) == [RandomCard(chances[0])] + GenerateHand(chances[1..]);
      DrawAll(DrawCard(hand, chances[0]), chances[1..])
  }

  // ---------------------------------------------------------------------------------------
  // Legality and turn order
  // ---------------------------------------------------------------------------------------

  /**
   * `isValidPlay`: a Wild +4 is always playable; otherwise the colour fields or the value
   * fields must be equal. Values are compared as a whole, so a "+2" matches any "+2" and a
   * "Skip" any "Skip", while a "+2" never matches a "2".
   */
  predicate IsValidPlay(card: Card, currentCard: Card): (valid: bool)
    ensures card.value == PlusFour ==> valid
    ensures card.color == currentCard.color ==> valid
    ensures card.value == currentCard.value ==> valid
  {
    card.value == PlusFour || card.color == currentCard.color || card.value == currentCard.value
  }

  /**
   * The rule as a player states it, for a well-formed card in hand: wild, same colour, same
   * number, or same kind of special. The card on the pile may be anything, including a
   * Wild +4 that has been given a colour.
   */
  lemma IsValidPlayMeansMatch(card: Card, currentCard: Card)
    requires WellFormed(card)
    ensures IsValidPlay(card, currentCard) <==>
      || card.value == PlusFour
      || (card.color.Colored? && currentCard.color.Colored? && card.color.color == currentCard.color.color)
      || (card.value.Num? && currentCard.value.Num? && card.value.n == currentCard.value.n)
      || (!card.value.Num? && card.value == currentCard.value)
  {
  }

  /** A red 5 does not go on a green 2. */
  lemma RedFiveOnGreenTwo()
    ensures !IsValidPlay(Card(Num(5), Colored(Red)), Card(Num(2), Colored(Green)))
  {
  }

  /** `nextTurn`: the index one step from `current` in direction `dir`, wrapping around. */
  function NextTurn(current: int, total: int, dir: int): (r: int)
    requires total > 0
    ensures 0 <= current < total && (dir == 1 || dir == -1) ==> 0 <= r < total
  {
    JsRemainder(current + dir + total, total)
  }

  /** Within the table, one step along the direction. */
  lemma NextTurnStep(current: int, total: int, dir: int)
    requires 0 <= current < total && (dir == 1 || dir == -1)
    ensures NextTurn(current, total, dir) ==
      if current + dir == total then 0 else if current + dir < 0 then total - 1 else current + dir
  {
    SmallRemainder(current + dir + total, total);
  }

  /** A step forwards followed by a step backwards (and the other way round) returns to the same player. */
  lemma {:induction false} NextTurnRoundTrip(current: int, total: int)
    requires 0 <= current < total
    ensures NextTurn(NextTurn(current, total, 1), total, -1) == current
    ensures NextTurn(NextTurn(current, total, -1), total, 1) == current
  {
    NextTurnStep(current, total, 1);
    NextTurnStep(NextTurn(current, total, 1), total, -1);
    NextTurnStep(current, total, -1);
    NextTurnStep(NextTurn(current, total, -1), total, 1);
  }

  lemma NextTurnExamples()
    ensures NextTurn(0, 4, 1) == 1 && NextTurn(2, 4, 1) == 3 && NextTurn(3, 4, 1) == 0
    ensures NextTurn(0, 4, -1) == 3
  {
  }

  // ---------------------------------------------------------------------------------------
  // UNO declaration and call-out
  // ---------------------------------------------------------------------------------------

  /**
   * `declareUno`: valid exactly when the player holds one card; a valid declaration adds the
   * player to the protected set (which the source mutates in place; here the set after the
   * call is returned). The hands are not touched.
   */
  method DeclareUno(index: int, hands: seq<Hand>, protectedSet: set<int>) returns (declared: bool, protectedAfter: set<int>)
    requires 0 <= index < |hands|
    ensures declared <==> |hands[index]| == 1
    ensures declared ==> protectedAfter == protectedSet + {index}
    ensures !declared ==> protectedAfter == protectedSet
  {
    protectedAfter := protectedSet;
    if |hands[index]| == 1 {
      protectedAfter := protectedAfter + {index};
      return true, protectedAfter;
    }
    return false, protectedAfter;
  }

  /** A player the caller catches: someone else, holding one card, not protected. */
  predicate Catchable(i: int, caller: int, hands: seq<Hand>, protectedSet: set<int>) {
    0 <= i < |hands| && i != caller && |hands[i]| == 1 && i !in protectedSet
  }

  predicate Ascending(s: seq<int>) {
    forall j, k :: 0 <= j < k < |s| ==> s[j] < s[k]
  }

  /** The catchable players with index `from` or more, in index order. */
  function CatchableFrom(caller: int, hands: seq<Hand>, protectedSet: set<int>, from: nat): (r: seq<int>)
    requires from <= |hands|
    ensures Ascending(r)
    ensures forall k :: 0 <= k < |r| ==> from <= r[k]
    ensures forall i :: i in r <==> from <= i && Catchable(i, caller, hands, protectedSet)
    decreases |hands| - from
  {
    if from == |hands| then []
    else if Catchable(from, caller, hands, protectedSet) then [from] + CatchableFrom(caller, hands, protectedSet, from + 1)
    else CatchableFrom(caller, hands, protectedSet, from + 1)
  }

  predicate IndicesWithin(ps: seq<int>, n: int) {
    forall j :: 0 <= j < |ps| ==> 0 <= ps[j] < n
  }

  /** An ascending list of indices below `n` has at most `n` entries. */
  lemma {:induction false} AscendingWithinBound(ps: seq<int>, n: int)
    requires n >= 0 && Ascending(ps) && IndicesWithin(ps, n)
    ensures |ps| <= n
    decreases |ps|
  {
    if ps != [] {
      var last := ps[|ps| - 1];
      var init := ps[..|ps| - 1];
      assert IndicesWithin(init, last);
      AscendingWithinBound(init, last);
    }
  }

  datatype CallResult = CallResult(caught: bool, punishedPlayers: seq<int>)

  /**
   * `callUno`: the players the caller catches, in ascending order, and whether there is any.
   * It draws no penalty cards and changes neither the hands nor the protected set.
   */
  function CallUno(caller: int, hands: seq<Hand>, protectedSet: set<int>): (r: CallResult)
    ensures r.caught <==> |r.punishedPlayers| > 0
    ensures Ascending(r.punishedPlayers)
    ensures forall i :: i in r.punishedPlayers <==> Catchable(i, caller, hands, protectedSet)
    ensures IndicesWithin(r.punishedPlayers, |hands|) && |r.punishedPlayers| <= |hands|
  {
    var punished := CatchableFrom(caller, hands, protectedSet, 0);
    assert IndicesWithin(punished, |hands|) by {
      forall j | 0 <= j < |punished| ensures 0 <= punished[j] < |hands| {
        assert punished[j] in punished;
      }
    }
    AscendingWithinBound(punished, |hands|);
    CallResult(|punished| > 0, punished)
  }

  /** Player 1 calls while player 0 holds a single unprotected card: player 0 alone is caught. */
  lemma CallUnoCatchesSingleCard(c: Card, d: Card)
    ensures CallUno(1, [[c], [c, d]], {}) == CallResult(true, [0])
  {
    var hands := [[c], [c, d]];
    assert CatchableFrom(1, hands, {}, 2) == [];
    assert CatchableFrom(1, hands, {}, 1) == [];
    assert CatchableFrom(1, hands, {}, 0) == [0];
  }

  // ---------------------------------------------------------------------------------------
  // Display derivations
  // ---------------------------------------------------------------------------------------

  function ColorName(c: Color): string {
    match c
    case Red => "Red"
    case Green => "Green"
    case Blue => "Blue"
    case Yellow => "Yellow"
  }

  /** The colour field as a template string shows it (`${undefined}` is "undefined"). */
  function ColorText(c: CardColor): string {
    match c
    case NoColor => "undefined"
    case Colored(x) => ColorName(x)
    case UndefinedText => "undefined"
  }

  function DigitChar(d: nat): char
    requires d < 10
  {
    "0123456789"[d]
  }

  /** Decimal text of a natural number, as `String(n)` writes it. */
  function NatText(n: nat): (s: string)
    ensures |s| >= 1
    decreases n
  {
    if n < 10 then [DigitChar(n)] else NatText(n / 10) + [DigitChar(n % 10)]
  }

  function IntText(i: int): string {
    if i < 0 then "-" + NatText(-i) else NatText(i)
  }

  /** The text of a card's `value` field. */
  function ValueText(v: Value): string {
    match v
    case Num(d) => NatText(d)
    case PlusTwo => "+2"
    case PlusFour => "+4"
    case Skip => "Skip"
    case Reverse => "Reverse"
  }

  /** JavaScript's `toLowerCase` on one character, for the ASCII letters the colour names use. */
  function LowerChar(c: char): char {
    if 'A' <= c <= 'Z' then (c as int - 'A' as int + 'a' as int) as char else c
  }

  /** `toLowerCase` on a text whose letters are ASCII: character by character. */
  function Lower(t: string): (l: string)
    ensures |l| == |t|
  {
    seq(|t|, i requires 0 <= i < |t| => LowerChar(t[i]))
  }

  datatype Style = Style(bgColor: string, caption: string)

  /**
   * `getCardStyle`: the colour field lower-cased, "wild" standing in for a missing colour, and
   * the face label, a symbol for the four special values and the value text otherwise.
   */
  function GetCardStyle(card: Card): (s: Style)
    ensures s.bgColor == "wild" <==> card.color == NoColor
    ensures card.color.Colored? ==> s.bgColor == Lower(ColorName(card.color.color))
    ensures card.color == UndefinedText ==> s.bgColor == "undefined"
    ensures card.value.Num? ==> s.caption == ValueText(card.value)
  {
    ColorBackgrounds();
    var bg := Lower(match card.color
      case NoColor => "wild"
      case Colored(x) => ColorName(x)
      case UndefinedText => "undefined");
    var caption := match card.value
      case PlusFour => "+4"
      case PlusTwo => "+2"
      case Skip => "\U{23E9}"
      case Reverse => "\U{1F504}"
      case Num(d) => ValueText(card.value);
    Style(bg, caption)
  }

  /** The backgrounds: the four lower-case colour names, "wild" and "undefined" unchanged. */
  lemma ColorBackgrounds()
    ensures Lower(ColorName(Red)) == "red" && Lower(ColorName(Green)) == "green"
    ensures Lower(ColorName(Blue)) == "blue" && Lower(ColorName(Yellow)) == "yellow"
    ensures Lower("wild") == "wild" && Lower("undefined") == "undefined"
  {
  }

  /** Different cards never look the same: the style determines the card. */
  lemma {:induction false} CardStyleDeterminesCard(a: Card, b: Card)
    requires GetCardStyle(a) == GetCardStyle(b)
    ensures a == b
  {
    var sa, sb := GetCardStyle(a), GetCardStyle(b);
    assert sa.caption[0] == sb.caption[0];
    assert sa.bgColor[0] == sb.bgColor[0];
    assert |sa.bgColor| == |sb.bgColor|;
  }

  /** The opening of every turn summary: "Player {turn+1} played {value}". */
  function SummaryBase(turn: int, card: Card): string {
    "Player " + IntText(turn + 1) + " played " + ValueText(card.value)
  }

  /**
   * `generateTurnSummary`: "Player {turn+1} played {value}", followed for the special cards by
   * their consequence for the next player in the given direction.
   */
  function GenerateTurnSummary(turn: int, num: int, dir: int, card: Card, currentColor: CardColor): (s: string)
    requires num > 0
    ensures var base := SummaryBase(turn, card);
      |s| >= |base| && s[..|base|] == base && (s == base <==> card.value.Num?)
  {
    var base := SummaryBase(turn, card);
    var consequence := TurnConsequence(NextTurn(turn, num, dir), num, dir, card, currentColor);
    assert (base + consequence)[..|base|] == base;
    base + consequence
  }

  /** The part of the summary after its opening; `next` is the player after the one who played. */
  function TurnConsequence(next: int, num: int, dir: int, card: Card, currentColor: CardColor): string
    requires num > 0
  {
    match card.value
    case PlusTwo => " - Player " + IntText(next + 1) + " drew 2 cards"
    case PlusFour => " - Player " + IntText(next + 1) + " drew 4 cards, new color: " + ColorText(currentColor)
    case Reverse => " - Direction reversed"
    case Skip => " - Player " + IntText(next + 1) + " skipped - Player " + IntText(NextTurn(next, num, dir) + 1) + "'s Turn"
    case Num(_) => ""
  }

  /**
   * What the summary says after "Player {turn+1} played {value}": a +2 names the next player as
   * having drawn two cards; a +4 names the next player as having drawn four and ends with the
   * new colour; a Reverse announces the reversal; a Skip names the next player as skipped and
   * ends by giving the turn to the player after that one.
   */
  lemma TurnSummaryText(turn: int, num: int, dir: int, card: Card, currentColor: CardColor)
    requires num > 0
    ensures var s := GenerateTurnSummary(turn, num, dir, card, currentColor);
      var base := SummaryBase(turn, card);
      var next := NextTurn(turn, num, dir);
      && (card.value == PlusTwo ==> s == base + (" - Player " + IntText(next + 1) + " drew 2 cards"))
      && (card.value == PlusFour ==>
            s == base + (" - Player " + IntText(next + 1) + " drew 4 cards, new color: " + ColorText(currentColor)))
      && (card.value == Reverse ==> s == base + " - Direction reversed")
      && (card.value == Skip ==>
            s == base + (" - Player " + IntText(next + 1) + " skipped - Player " + IntText(NextTurn(next, num, dir) + 1) + "'s Turn"))
  {
    SummaryJoin(turn, num, dir, card, currentColor, TurnConsequence(NextTurn(turn, num, dir), num, dir, card, currentColor));
  }

  /** The summary is its opening followed by the consequence text. */
  lemma SummaryJoin(turn: int, num: int, dir: int, card: Card, currentColor: CardColor, consequence: string)
    requires num > 0 && consequence == TurnConsequence(NextTurn(turn, num, dir), num, dir, card, currentColor)
    ensures GenerateTurnSummary(turn, num, dir, card, currentColor) == SummaryBase(turn, card) + consequence
  {
  }

  // ---------------------------------------------------------------------------------------
  // The AI move
  // ---------------------------------------------------------------------------------------

  /**
   * The key under which `R.countBy(R.prop("color"))` counts a card: its colour name, or
   * "undefined" for a card without a colour (and for one whose colour is that text).
   */
  datatype ColorKey = NameKey(color: Color) | UndefinedKey

  function KeyOf(c: CardColor): ColorKey {
    match c
    case Colored(x) => NameKey(x)
    case NoColor => UndefinedKey
    case UndefinedText => UndefinedKey
  }

  /** `card.color === commonColor`: a missing colour never equals a key, which is a string. */
  predicate MatchesKey(c: CardColor, k: ColorKey) {
    match c
    case Colored(x) => k == NameKey(x)
    case NoColor => false
    case UndefinedText => k == UndefinedKey
  }

  /** The colour a played Wild +4 receives when `commonColor` is the key `k`. */
  function KeyColor(k: ColorKey): CardColor {
    match k
    case NameKey(x) => Colored(x)
    case UndefinedKey => UndefinedText
  }

  /** How many cards of the hand are counted under key `k`. */
  function Count(hand: Hand, k: ColorKey): nat {
    if hand == [] then 0
    else (if KeyOf(hand[0].color) == k then 1 else 0) + Count(hand[1..], k)
  }

  /**
   * The key of the most frequent colour among the first `n` cards' keys, keeping the earlier
   * one on a tie: what sorting the count pairs (which are in order of first appearance) by
   * descending count with a stable sort puts first.
   */
  function Leader(hand: Hand, n: nat): (k: ColorKey)
    requires 1 <= n <= |hand|
    ensures Count(hand, KeyOf(hand[n - 1].color)) <= Count(hand, k)
  {
    if n == 1 then KeyOf(hand[0].color)
    else
      var prev := Leader(hand, n - 1);
      var k := KeyOf(hand[n - 1].color);
      if Count(hand, k) > Count(hand, prev) then k else prev
  }

  /** The leader is the key of one of the first `n` cards. */
  lemma {:induction false} LeaderOccurs(hand: Hand, n: nat)
    requires 1 <= n <= |hand|
    ensures exists i :: 0 <= i < n && KeyOf(hand[i].color) == Leader(hand, n)
  {
    if n == 1 {
      assert KeyOf(hand[0].color) == Leader(hand, n);
    } else {
      LeaderOccurs(hand, n - 1);
      var i :| 0 <= i < n - 1 && KeyOf(hand[i].color) == Leader(hand, n - 1);
      if Leader(hand, n) != Leader(hand, n - 1) {
        assert KeyOf(hand[n - 1].color) == Leader(hand, n);
      }
    }
  }

  /** No key among the first `n` cards is counted more often than the leader. */
  lemma {:induction false} LeaderIsMostFrequent(hand: Hand, n: nat)
    requires 1 <= n <= |hand|
    ensures forall j :: 0 <= j < n ==> Count(hand, KeyOf(hand[j].color)) <= Count(hand, Leader(hand, n))
  {
    if n > 1 {
      LeaderIsMostFrequent(hand, n - 1);
    }
  }

  /** A key as frequent as the leader appears no earlier than the leader's first occurrence. */
  lemma {:induction false} LeaderIsEarliest(hand: Hand, n: nat)
    requires 1 <= n <= |hand|
    ensures forall j :: 0 <= j < n && Count(hand, KeyOf(hand[j].color)) == Count(hand, Leader(hand, n)) ==>
      exists i :: 0 <= i <= j && KeyOf(hand[i].color) == Leader(hand, n)
  {
    forall j | 0 <= j < n && Count(hand, KeyOf(hand[j].color)) == Count(hand, Leader(hand, n))
      ensures exists i :: 0 <= i <= j && KeyOf(hand[i].color) == Leader(hand, n)
    {
      LeaderIsEarliestAt(hand, n, j);
    }
  }

  /** `LeaderIsEarliest` for one card `j`, by induction on the number of cards scanned. */
  lemma {:induction false} LeaderIsEarliestAt(hand: Hand, n: nat, j: nat)
    requires 1 <= n <= |hand| && j < n
    requires Count(hand, KeyOf(hand[j].color)) == Count(hand, Leader(hand, n))
    ensures exists i :: 0 <= i <= j && KeyOf(hand[i].color) == Leader(hand, n)
  {
    var lead := Leader(hand, n);
    if n == 1 {
      assert KeyOf(hand[0].color) == lead;
    } else if lead != Leader(hand, n - 1) {
      // The leader changed at the last card, so every earlier key is counted less often.
      LeaderIsMostFrequent(hand, n - 1);
      if j < n - 1 {
        assert false;
      }
      assert KeyOf(hand[j].color) == lead;
    } else if j < n - 1 {
      LeaderIsEarliestAt(hand, n - 1, j);
    } else {
      LeaderOccurs(hand, n - 1);
      var i :| 0 <= i < n - 1 && KeyOf(hand[i].color) == lead;
      assert 0 <= i <= j;
    }
  }

  /**
   * `commonColor`: the most frequent colour key of the hand, ties going to the key that appears
   * first in the hand; "Red" (`COLORS[0]`) only for an empty hand.
   */
  function CommonColor(hand: Hand): (k: ColorKey)
    ensures hand == [] ==> k == NameKey(Red)
    ensures hand != [] ==> Count(hand, KeyOf(hand[|hand| - 1].color)) <= Count(hand, k)
  {
    if hand == [] then NameKey(Colors[0]) else Leader(hand, |hand|)
  }

  /** The common colour is the hand's most frequent key, the earliest one on a tie; "Red" for an empty hand. */
  lemma CommonColorIsEarliestMostFrequent(hand: Hand)
    ensures var k := CommonColor(hand);
      && (hand == [] ==> k == NameKey(Colors[0]))
      && (hand != [] ==> exists i :: 0 <= i < |hand| && KeyOf(hand[i].color) == k)
      && (forall j :: 0 <= j < |hand| ==> Count(hand, KeyOf(hand[j].color)) <= Count(hand, k))
      && (forall j :: 0 <= j < |hand| && Count(hand, KeyOf(hand[j].color)) == Count(hand, k) ==>
            exists i :: 0 <= i <= j && KeyOf(hand[i].color) == k)
  {
    if hand != [] {
      LeaderOccurs(hand, |hand|);
      LeaderIsMostFrequent(hand, |hand|);
      LeaderIsEarliest(hand, |hand|);
    }
  }

  /** `priorities[card.value] ?? 4`: a Wild +4 first, then +2, Reverse, Skip, and the numbers last. */
  function BasePriority(v: Value): (p: int)
    ensures 0 <= p <= 4
    ensures p == 0 <==> v == PlusFour
    ensures p == 1 <==> v == PlusTwo
    ensures p == 2 <==> v == Reverse
    ensures p == 3 <==> v == Skip
    ensures p == 4 <==> v.Num?
  {
    match v
    case PlusFour => 0
    case PlusTwo => 1
    case Reverse => 2
    case Skip => 3
    case Num(_) => 4
  }

  /** `sortPriority`: the value's priority, half a point less for a card of the common colour. */
  function SortPriority(card: Card, common: ColorKey): real {
    BasePriority(card.value) as real + (if MatchesKey(card.color, common) then -0.5 else 0.0)
  }

  /** `sortPriority`, doubled so that the half-point bonus for the common colour is an integer. */
  function Priority(card: Card, common: ColorKey): (p: int)
    ensures p as real == 2.0 * SortPriority(card, common)
    ensures -1 <= p <= 8
  {
    2 * BasePriority(card.value) - (if MatchesKey(card.color, common) then 1 else 0)
  }

  /**
   * Comparing doubled priorities orders cards exactly as comparing `sortPriority` does, and the
   * common-colour bonus only breaks ties between equal values: it never lifts a card above one
   * whose value has a lower priority.
   */
  lemma PriorityOrdersLikeSortPriority(a: Card, b: Card, common: ColorKey)
    ensures Priority(a, common) < Priority(b, common) <==> SortPriority(a, common) < SortPriority(b, common)
    ensures Priority(a, common) == Priority(b, common) <==> SortPriority(a, common) == SortPriority(b, common)
    ensures BasePriority(a.value) < BasePriority(b.value) ==> Priority(a, common) < Priority(b, common)
  {
  }

  /**
   * The index of the card the AI plays among the first `n` cards: the first (in hand order)
   * valid card of minimal priority, i.e. the head of the stable sort of the valid cards.
   */
  function BestPlay(hand: Hand, currentCard: Card, common: ColorKey, n: nat): (r: Option<nat>)
    requires n <= |hand|
    ensures r.Some? ==> r.value < n && IsValidPlay(hand[r.value], currentCard)
  {
    if n == 0 then None
    else
      var prev := BestPlay(hand, currentCard, common, n - 1);
      if IsValidPlay(hand[n - 1], currentCard) && (prev.None? || Priority(hand[n - 1], common) < Priority(hand[prev.value], common))
      then Some(n - 1)
      else prev
  }

  /**
   * The pick is absent exactly when no card is valid; otherwise no valid card has a lower
   * priority, and every valid card before it has a strictly higher one.
   */
  lemma {:induction false} BestPlayIsFirstMinimal(hand: Hand, currentCard: Card, common: ColorKey, n: nat)
    requires n <= |hand|
    ensures var r := BestPlay(hand, currentCard, common, n);
      && (r.None? <==> forall j :: 0 <= j < n ==> !IsValidPlay(hand[j], currentCard))
      && (r.Some? ==> forall j :: 0 <= j < n && IsValidPlay(hand[j], currentCard) ==>
            Priority(hand[r.value], common) <= Priority(hand[j], common))
      && (r.Some? ==> forall j :: 0 <= j < r.value && IsValidPlay(hand[j], currentCard) ==>
            Priority(hand[r.value], common) < Priority(hand[j], common))
  {
    if n > 0 {
      BestPlayIsFirstMinimal(hand, currentCard, common, n - 1);
    }
  }

  /** `R.remove(i, 1, hand)`: the hand without its card at `i`, the rest in order. */
  function RemoveAt(hand: Hand, i: nat): (r: Hand)
    requires i < |hand|
    ensures |r| == |hand| - 1
    ensures forall j :: 0 <= j < i ==> r[j] == hand[j]
    ensures forall j :: i <= j < |r| ==> r[j] == hand[j + 1]
    ensures multiset(r) + multiset{hand[i]} == multiset(hand)
    ensures AllWellFormed(hand) ==> AllWellFormed(r)
  {
    assert hand == hand[..i] + [hand[i]] + hand[i + 1..];
    hand[..i] + hand[i + 1..]
  }

  /** How many cards the card makes the next player draw. */
  function DrawCount(v: Value): nat {
    match v
    case PlusFour => 4
    case PlusTwo => 2
    case _ => 0
  }

  datatype AiMove = AiMove(updatedHands: seq<Hand>, newCard: Card, direction: int, skipNext: bool)

  /** What `performAITurn` may be called with: a player at the table, one hand per player, a direction. */
  predicate AiInputs(aiIndex: int, hands: seq<Hand>, dir: int, numPlayers: int, chances: seq<Chance>) {
    0 <= aiIndex < |hands| && numPlayers == |hands| && (dir == 1 || dir == -1) && |chances| >= 4
  }

  /** The result of `performAITurn`, as a function of its inputs. */
  function AiOutcome(aiIndex: int, hands: seq<Hand>, currentCard: Card, dir: int, numPlayers: int, chances: seq<Chance>): (m: AiMove)
    requires AiInputs(aiIndex, hands, dir, numPlayers, chances)
    ensures |m.updatedHands| == |hands|
  {
    var hand := hands[aiIndex];
    var common := CommonColor(hand);
    match BestPlay(hand, currentCard, common, |hand|)
    case None => AiMove(hands[aiIndex := DrawCard(hand, chances[0])], currentCard, dir, false)
    case Some(i) =>
      var card := hand[i];
      var afterPlay := hands[aiIndex := RemoveAt(hand, i)];
      var target := NextTurn(aiIndex, numPlayers, dir);
      var drawn := afterPlay[target := DrawAll(afterPlay[target], chances[..DrawCount(card.value)])];
      match card.value
      case PlusFour => AiMove(drawn, card.(color := KeyColor(common)), dir, false)
      case PlusTwo => AiMove(drawn, card, dir, false)
      case Reverse => AiMove(afterPlay, card, -dir, false)
      case Skip => AiMove(afterPlay, card, dir, true)
      case Num(_) => AiMove(afterPlay, card, dir, false)
  }

  /** With no playable card the AI draws one card and nothing else changes. */
  lemma AiDrawsWhenNoPlay(aiIndex: int, hands: seq<Hand>, currentCard: Card, dir: int, numPlayers: int, chances: seq<Chance>)
    requires AiInputs(aiIndex, hands, dir, numPlayers, chances)
    requires forall j :: 0 <= j < |hands[aiIndex]| ==> !IsValidPlay(hands[aiIndex][j], currentCard)
    ensures var m := AiOutcome(aiIndex, hands, currentCard, dir, numPlayers, chances);
      && |m.updatedHands| == |hands|
      && m.updatedHands[aiIndex] == hands[aiIndex] + [RandomCard(chances[0])]
      && (forall p :: 0 <= p < |hands| && p != aiIndex ==> m.updatedHands[p] == hands[p])
      && m.newCard == currentCard && m.direction == dir && !m.skipNext
  {
  }

  /**
   * With a playable card the AI plays the card `BestPlay` picks: it leaves the AI's hand at its
   * index, the next player in the current direction draws 4 (+4) or 2 (+2) cards, a +4 takes the
   * common colour, a Reverse negates the direction and a Skip sets the skip flag. No other hand changes.
   */
  lemma AiPlaysBestCard(aiIndex: int, hands: seq<Hand>, currentCard: Card, dir: int, numPlayers: int, chances: seq<Chance>)
    requires AiInputs(aiIndex, hands, dir, numPlayers, chances)
    requires exists j :: 0 <= j < |hands[aiIndex]| && IsValidPlay(hands[aiIndex][j], currentCard)
    ensures var hand := hands[aiIndex];
      var common := CommonColor(hand);
      var pick := BestPlay(hand, currentCard, common, |hand|);
      var m := AiOutcome(aiIndex, hands, currentCard, dir, numPlayers, chances);
      var target := NextTurn(aiIndex, numPlayers, dir);
      && pick.Some? && IsValidPlay(hand[pick.value], currentCard)
      && |m.updatedHands| == |hands|
      && m.newCard.value == hand[pick.value].value
      && m.newCard.color == (if hand[pick.value].value == PlusFour then KeyColor(common) else hand[pick.value].color)
      && m.direction == (if hand[pick.value].value == Reverse then -dir else dir)
      && (m.skipNext <==> hand[pick.value].value == Skip)
      && (target != aiIndex ==>
            && m.updatedHands[aiIndex] == RemoveAt(hand, pick.value)
            && m.updatedHands[target] == hands[target] + GenerateHand(chances[..DrawCount(hand[pick.value].value)]))
      && (forall p :: 0 <= p < |hands| && p != aiIndex && p != target ==> m.updatedHands[p] == hands[p])
  {
    var hand := hands[aiIndex];
    var common := CommonColor(hand);
    BestPlayIsFirstMinimal(hand, currentCard, common, |hand|);
    var pick := BestPlay(hand, currentCard, common, |hand|);
    var i := pick.value;
    var card := hand[i];
    var afterPlay := hands[aiIndex := RemoveAt(hand, i)];
    var target := NextTurn(aiIndex, numPlayers, dir);
    var drawn := afterPlay[target := DrawAll(afterPlay[target], chances[..DrawCount(card.value)])];
    var m := AiOutcome(aiIndex, hands, currentCard, dir, numPlayers, chances);
    assert m.updatedHands == if card.value == PlusFour || card.value == PlusTwo then drawn else afterPlay;
    if target != aiIndex && DrawCount(card.value) == 0 {
      assert GenerateHand(chances[..0]) == [];
    }
  }

  /** The AI's move keeps one hand per player, a direction of 1 or -1, and well-formed hands. */
  lemma AiOutcomeKeepsHands(aiIndex: int, hands: seq<Hand>, currentCard: Card, dir: int, numPlayers: int, chances: seq<Chance>)
    requires AiInputs(aiIndex, hands, dir, numPlayers, chances)
    ensures var m := AiOutcome(aiIndex, hands, currentCard, dir, numPlayers, chances);
      && |m.updatedHands| == |hands|
      && (m.direction == 1 || m.direction == -1)
      && (AllHandsWellFormed(hands) ==> AllHandsWellFormed(m.updatedHands))
  {
    var hand := hands[aiIndex];
    var common := CommonColor(hand);
    var m := AiOutcome(aiIndex, hands, currentCard, dir, numPlayers, chances);
    match BestPlay(hand, currentCard, common, |hand|)
    case None =>
    case Some(i) =>
      var card := hand[i];
      var afterPlay := hands[aiIndex := RemoveAt(hand, i)];
      var target := NextTurn(aiIndex, numPlayers, dir);
      var extra := chances[..DrawCount(card.value)];
      var drawn := afterPlay[target := DrawAll(afterPlay[target], extra)];
      assert m.updatedHands == if card.value == PlusFour || card.value == PlusTwo then drawn else afterPlay;
      if AllHandsWellFormed(hands) {
        assert AllHandsWellFormed(afterPlay);
        assert AllWellFormed(afterPlay[target] + GenerateHand(extra));
      }
  }

  /**
   * `performAITurn`: works on a copy of the hands and on local variables for the direction, the
   * skip flag and the played card, exactly as the source does; the result is `AiOutcome`.
   */
  method PerformAITurn(aiIndex: int, hands: seq<Hand>, currentCard: Card, dir: int, numPlayers: int, chances: seq<Chance>)
    returns (move: AiMove)
    requires AiInputs(aiIndex, hands, dir, numPlayers, chances)
    ensures move == AiOutcome(aiIndex, hands, currentCard, dir, numPlayers, chances)
    ensures |move.updatedHands| == |hands|
  {
    var hand := hands[aiIndex];
    var commonColor := CommonColor(hand);
    var sorted := BestPlay(hand, currentCard, commonColor, |hand|);

    var handsCopy := hands;
    var newDirection := dir;
    var skipNext := false;
    var playedCard: Option<Card> := None;

    if sorted.Some? {
      var i := sorted.value;
      var card := hand[i];
      playedCard := Some(card);
      handsCopy := handsCopy[aiIndex := RemoveAt(hand, i)];

      var target := NextTurn(aiIndex, numPlayers, dir);
      if card.value == PlusFour {
        playedCard := Some(card.(color := KeyColor(commonColor)));
        handsCopy := handsCopy[target := DrawAll(handsCopy[target], chances[..4])];
      } else if card.value == PlusTwo {
        handsCopy := handsCopy[target := DrawAll(handsCopy[target], chances[..2])];
      } else if card.value == Reverse {
        newDirection := newDirection * -1;
      } else if card.value == Skip {
        skipNext := true;
      }
    } else {
      handsCopy := handsCopy[aiIndex := DrawCard(hand, chances[0])];
    }

    move := AiMove(handsCopy, if playedCard.Some? then playedCard.value else currentCard, newDirection, skipNext);
  }
}
