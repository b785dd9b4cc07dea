/**
 * What the two copies of the game page share: the action record, the round
 * order (`determineNextRound`), the showdown comparison, and the choice that
 * `simulateAIAction` makes once its random draws are given.
 */
module GameTypes {
  import opened Options
  import opened Cards
  import opened PokerLogic

  /** `GameAction.type`. */
  datatype ActionKind = Fold | Check | Call | Raise | AllIn | Blind

  /** `TurnAction.type` and the AI's actions: every kind but the blind. */
  type Move = k: ActionKind | k != Blind witness Fold

  /** `player` of an action, `winner`, and a non-empty `currentPlayer`. */
  datatype Seat = Player1 | Ai

  /** An action; `id`-free and without its `timestamp`. */
  datatype GameAction = GameAction(kind: ActionKind, amount: Option<int>, player: Seat)

  datatype Round = Preflop | Flop | Turn | River | Showdown

  /** The two evaluations a showdown records. */
  datatype Evaluations = Evaluations(player: PokerHand, ai: PokerHand)

  /** Position of a round in the order of play. */
  function RoundIndex(r: Round): (i: nat)
    ensures i <= 4
  {
    match r
    case Preflop => 0
    case Flop => 1
    case Turn => 2
    case River => 3
    case Showdown => 4
  }

  /** determineNextRound */
  function NextRound(r: Round): Round
  {
    match r
    case Preflop => Flop
    case Flop => Turn
    case Turn => River
    case River => Showdown
    case Showdown => Showdown
  }

  /** determineNextRound moves exactly one step forward; showdown is its only fixed point. */
  lemma NextRoundForward(r: Round)
    ensures r != Showdown ==> RoundIndex(NextRound(r)) == RoundIndex(r) + 1
    ensures NextRound(r) == r <==> r == Showdown
    ensures RoundIndex(NextRound(r)) >= RoundIndex(r)
  {
  }

  /** `Math.min` and `Math.max` on two numbers. */
  function Min(a: int, b: int): int { if a < b then a else b }
  function Max(a: int, b: int): int { if a > b then a else b }

  /** JavaScript truthiness of an optional number (NaN is not modelled). */
  predicate Truthy(a: Option<int>)
  {
    a.Some? && a.value != 0
  }

  /** `a || d` on an optional number. */
  function OrDefault(a: Option<int>, d: int): (r: int)
    ensures Truthy(a) ==> r == a.value
    ensures !Truthy(a) ==> r == d
  {
    if Truthy(a) then a.value else d
  }

  /** The player's last action, blinds included (`filter(...).pop()`, `reverse().find(...)`). */
  function LastBy(actions: seq<GameAction>, p: Seat): Option<GameAction>
  {
    if actions == [] then None
    else if actions[|actions| - 1].player == p then Some(actions[|actions| - 1])
    else LastBy(actions[..|actions| - 1], p)
  }

  /** LastBy finds nothing exactly when p never acted, and otherwise p's action that no later one of p follows. */
  lemma {:induction false} LastByFacts(actions: seq<GameAction>, p: Seat) returns (i: nat)
    ensures LastBy(actions, p).None? <==> forall j :: 0 <= j < |actions| ==> actions[j].player != p
    ensures LastBy(actions, p).Some? ==>
              i < |actions| && actions[i] == LastBy(actions, p).value && actions[i].player == p &&
              forall j :: i < j < |actions| ==> actions[j].player != p
  {
    if actions == [] {
      i := 0;
    } else if actions[|actions| - 1].player == p {
      i := |actions| - 1;
    } else {
      var init := actions[..|actions| - 1];
      i := LastByFacts(init, p);
      assert forall j :: 0 <= j < |init| ==> init[j] == actions[j];
    }
  }

  /** The last action of p that is not a blind. */
  function LastNonBlindBy(actions: seq<GameAction>, p: Seat): Option<GameAction>
  {
    if actions == [] then None
    else if actions[|actions| - 1].player == p && actions[|actions| - 1].kind != Blind then Some(actions[|actions| - 1])
    else LastNonBlindBy(actions[..|actions| - 1], p)
  }

  /** LastNonBlindBy finds nothing exactly when p only posted blinds, and otherwise p's last non-blind action. */
  lemma {:induction false} LastNonBlindByFacts(actions: seq<GameAction>, p: Seat) returns (i: nat)
    ensures LastNonBlindBy(actions, p).None? <==>
              forall j :: 0 <= j < |actions| ==> actions[j].player != p || actions[j].kind == Blind
    ensures LastNonBlindBy(actions, p).Some? ==>
              i < |actions| && actions[i] == LastNonBlindBy(actions, p).value &&
              actions[i].player == p && actions[i].kind != Blind &&
              forall j :: i < j < |actions| ==> actions[j].player != p || actions[j].kind == Blind
  {
    if actions == [] {
      i := 0;
    } else if actions[|actions| - 1].player == p && actions[|actions| - 1].kind != Blind {
      i := |actions| - 1;
    } else {
      var init := actions[..|actions| - 1];
      i := LastNonBlindByFacts(init, p);
      assert forall j :: 0 <= j < |init| ==> init[j] == actions[j];
    }
  }

  /** The last raise or call by either side. */
  function LastBet(actions: seq<GameAction>): Option<GameAction>
  {
    if actions == [] then None
    else if actions[|actions| - 1].kind == Raise || actions[|actions| - 1].kind == Call then Some(actions[|actions| - 1])
    else LastBet(actions[..|actions| - 1])
  }

  /** LastBet finds nothing exactly when nobody raised or called, and otherwise the latest raise or call. */
  lemma {:induction false} LastBetFacts(actions: seq<GameAction>) returns (i: nat)
    ensures LastBet(actions).None? <==> forall j :: 0 <= j < |actions| ==> actions[j].kind != Raise && actions[j].kind != Call
    ensures LastBet(actions).Some? ==>
              i < |actions| && actions[i] == LastBet(actions).value &&
              (actions[i].kind == Raise || actions[i].kind == Call) &&
              forall j :: i < j < |actions| ==> actions[j].kind != Raise && actions[j].kind != Call
  {
    if actions == [] {
      i := 0;
    } else if actions[|actions| - 1].kind == Raise || actions[|actions| - 1].kind == Call {
      i := |actions| - 1;
    } else {
      var init := actions[..|actions| - 1];
      i := LastBetFacts(init);
      assert forall j :: 0 <= j < |init| ==> init[j] == actions[j];
    }
  }

  /** `actions.filter(a => a.type !== "blind").length` */
  function NonBlindCount(actions: seq<GameAction>): (n: nat)
    ensures n <= |actions|
  {
    if actions == [] then 0
    else NonBlindCount(actions[..|actions| - 1]) + (if actions[|actions| - 1].kind != Blind then 1 else 0)
  }

  /** Appending one action adds one to the count exactly when it is not a blind. */
  lemma NonBlindCountAppend(actions: seq<GameAction>, a: GameAction)
    ensures NonBlindCount(actions + [a]) == NonBlindCount(actions) + (if a.kind != Blind then 1 else 0)
  {
    assert (actions + [a])[..|actions|] == actions;
  }

  // ------------------------------------------------------------ the deal

  /** How many community cards are out in each round. */
  function CommunitySize(r: Round): (n: nat)
    ensures n <= 5
  {
    match r
    case Preflop => 0
    case Flop => 3
    case Turn => 4
    case River => 5
    case Showdown => 5
  }

  /** The flop taken off the end of a deck, with what is left, are the deck's cards. */
  lemma FlopMovesCards(d: seq<Card>)
    requires |d| >= 3
    ensures multiset([d[|d| - 1], d[|d| - 2], d[|d| - 3]]) + multiset(d[..|d| - 3]) == multiset([]) + multiset(d)
  {
    assert d == d[..|d| - 3] + [d[|d| - 3], d[|d| - 2], d[|d| - 1]];
  }

  /** Moving the last card of the deck onto the board moves no card anywhere else. */
  lemma PopMovesCard(c: seq<Card>, d: seq<Card>)
    requires |d| >= 1
    ensures multiset(c + [d[|d| - 1]]) + multiset(d[..|d| - 1]) == multiset(c) + multiset(d)
  {
    assert d == d[..|d| - 1] + [d[|d| - 1]];
  }

  /** Popping two hole cards for each seat off the deck moves no card anywhere else. */
  lemma HoleCardsMoveCards(d: seq<Card>)
    requires |d| >= 4
    ensures multiset([d[|d| - 1], d[|d| - 2]] + [d[|d| - 3], d[|d| - 4]] + d[..|d| - 4]) == multiset(d)
  {
    var n := |d|;
    var rest := d[..n - 2];
    PopTwoMovesCards(d);
    PopTwoMovesCards(rest);
    assert rest[..n - 4] == d[..n - 4] && rest[n - 3] == d[n - 3] && rest[n - 4] == d[n - 4];
  }

  /** The two cards popped last, with the rest of the deck, are the deck's cards. */
  lemma PopTwoMovesCards(d: seq<Card>)
    requires |d| >= 2
    ensures multiset([d[|d| - 1], d[|d| - 2]]) + multiset(d[..|d| - 2]) == multiset(d)
  {
    assert d == d[..|d| - 2] + [d[|d| - 2], d[|d| - 1]];
  }

  // ------------------------------------------------------------ showdown

  /** JavaScript `<` on two strings: by UTF-16 code unit, a proper prefix first. */
  predicate JsLess(a: string, b: string)
  {
    if a == [] then b != []
    else if b == [] then false
    else if a[0] != b[0] then a[0] < b[0]
    else JsLess(a[1..], b[1..])
  }

  /**
   * The order of the rank names as strings:
   * "10" < "2" < "3" < ... < "9" < "A" < "J" < "K" < "Q".
   */
  function NameOrder(r: Rank): (i: nat)
  {
    match r
    case Ten => 0
    case Two => 1
    case Three => 2
    case Four => 3
    case Five => 4
    case Six => 5
    case Seven => 6
    case Eight => 7
    case Nine => 8
    case Ace => 9
    case Jack => 10
    case King => 11
    case Queen => 12
  }

  /** Comparing `highCard` strings is comparing ranks in NameOrder, not by value. */
  lemma JsLessOnNames(a: Rank, b: Rank)
    ensures JsLess(RankName(a), RankName(b)) <==> NameOrder(a) < NameOrder(b)
  {
    match a
    case Two => {} case Three => {} case Four => {} case Five => {} case Six => {}
    case Seven => {} case Eight => {} case Nine => {} case Jack => {}
    case Ten => { assert !JsLess("0", "0"); }
    case Queen => {} case King => {} case Ace => {}
  }

  /**
   * The winner of a showdown: higher category, then the greater `highCard`
   * string; None (a split pot) when both are equal.
   */
  function ShowdownWinner(ph: PokerHand, ah: PokerHand): Option<Seat>
  {
    if ph.rank > ah.rank then Some(Player1)
    else if ah.rank > ph.rank then Some(Ai)
    else if JsLess(RankName(ah.highCard), RankName(ph.highCard)) then Some(Player1)
    else if JsLess(RankName(ph.highCard), RankName(ah.highCard)) then Some(Ai)
    else None
  }

  /**
   * The showdown picks the higher category, and within a category the
   * highCard later in NameOrder; it splits exactly when category and
   * highCard are equal.
   */
  lemma ShowdownWinnerSpec(ph: PokerHand, ah: PokerHand)
    ensures ShowdownWinner(ph, ah) == Some(Player1) <==>
              ph.rank > ah.rank || (ph.rank == ah.rank && NameOrder(ph.highCard) > NameOrder(ah.highCard))
    ensures ShowdownWinner(ph, ah) == Some(Ai) <==>
              ah.rank > ph.rank || (ph.rank == ah.rank && NameOrder(ah.highCard) > NameOrder(ph.highCard))
    ensures ShowdownWinner(ph, ah).None? <==> ph.rank == ah.rank && ph.highCard == ah.highCard
  {
    JsLessOnNames(ph.highCard, ah.highCard);
    JsLessOnNames(ah.highCard, ph.highCard);
    NameOrderInjective(ph.highCard, ah.highCard);
  }

  lemma NameOrderInjective(a: Rank, b: Rank)
    ensures NameOrder(a) == NameOrder(b) ==> a == b
  {
  }

  /**
   * Because the comparison is on strings, a pair of kings loses to a pair
   * of queens, and a pair of tens loses to a pair of nines.
   */
  lemma ShowdownStringOrder()
    ensures ShowdownWinner(Hand(1, King), Hand(1, Queen)) == Some(Ai)
    ensures ShowdownWinner(Hand(1, Ten), Hand(1, Nine)) == Some(Ai)
    ensures Beats(Hand(1, King), Hand(1, Queen)) && Beats(Hand(1, Ten), Hand(1, Nine))
  {
    JsLessOnNames(King, Queen);
    JsLessOnNames(Queen, King);
    JsLessOnNames(Ten, Nine);
    JsLessOnNames(Nine, Ten);
  }

  /** Pot settlement: the winner takes it; a split gives the player `Math.floor(pot / 2)`. */
  function Settle(w: Option<Seat>, playerChips: int, aiChips: int, pot: int): (r: (int, int))
    ensures r.0 + r.1 == playerChips + aiChips + pot
    ensures w == Some(Player1) ==> r == (playerChips + pot, aiChips)
    ensures w == Some(Ai) ==> r == (playerChips, aiChips + pot)
    ensures w.None? ==> 2 * (r.0 - playerChips) <= pot <= 2 * (r.0 - playerChips) + 1
  {
    if w == Some(Player1) then (playerChips + pot, aiChips)
    else if w == Some(Ai) then (playerChips, aiChips + pot)
    else (playerChips + pot / 2, aiChips + (pot - pot / 2))
  }

  // ----------------------------------------------------- simulated choice

  /** The order of `actions` in simulateAIAction; the weighted pick is an index into it. */
  function PickedMove(pick: nat): Move
    requires pick < 5
  {
    if pick == 0 then Fold
    else if pick == 1 then Check
    else if pick == 2 then Call
    else if pick == 3 then Raise
    else AllIn
  }

  /** What simulateAIAction passes to processAIAction, given the pick and `Math.floor(Math.random() * 3)`. */
  function SimulatedChoice(actions: seq<GameAction>, aiChips: int, pick: nat, step: nat): (r: (Move, int))
    requires pick < 5 && step < 3
    ensures var last := LastBy(actions, Player1);
      r.0 == (if PickedMove(pick) == Check && last.Some? && (last.value.kind == Raise || last.value.kind == AllIn)
              then Call else PickedMove(pick))
    ensures r.0 == Raise ==> r.1 == 40 || r.1 == 60 || r.1 == 80
    ensures r.0 == Call ==> r.1 == (if LastBet(actions).Some? then OrDefault(LastBet(actions).value.amount, 20) else 20)
    ensures r.0 == AllIn ==> r.1 == aiChips
    ensures r.0 == Fold || r.0 == Check ==> r.1 == 0
  {
    var last := LastBy(actions, Player1);
    var move: Move := if PickedMove(pick) == Check && last.Some? && (last.value.kind == Raise || last.value.kind == AllIn)
                      then Call else PickedMove(pick);
    if move == Call then
      var bet := LastBet(actions);
      (move, if bet.Some? then OrDefault(bet.value.amount, 20) else 20)
    else if move == Raise then (move, 20 * (2 + step))
    else if move == AllIn then (move, aiChips)
    else (move, 0)
  }
}
