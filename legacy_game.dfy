/**
 * The older copy of the game page (`src/pages/Game.tsx`), a demo against a
 * fixed AI. It shares the deck, the round order and the showdown rule with
 * the client page but not its betting: there is no current bet, a round
 * closes on the parity of the number of non-blind actions, and the AI's
 * turn is always a call of 10.
 */
module LegacyGame {
  import opened Options
  import opened Cards
  import opened Deck
  import opened PokerLogic
  import opened GameTypes

  /** `GameState` of the legacy page, flattened as in the client, with `aiAgent.lastAction`. */
  datatype LegacyState = LegacyState(
    playerChips: int, playerCards: seq<Card>,
    aiChips: int, aiCards: seq<Card>,
    communityCards: seq<Card>, pot: int,
    currentPlayer: Option<Seat>, round: Round,
    actions: seq<GameAction>, started: bool, ended: bool,
    winner: Option<Seat>, evaluations: Option<Evaluations>,
    deck: seq<Card>, aiLastAction: Option<GameAction>)

  const DemoChips := 1000
  const SmallBlind := 10
  const BigBlind := 20
  /** What handleAITurn always has the AI do: call 10. */
  const AiCall := 10

  /** All the chips on the table. */
  function Total(s: LegacyState): int
  {
    s.playerChips + s.aiChips + s.pot
  }

  /** initializeGame: the demo state, 1000 chips each. */
  function InitializeGame(): (s: LegacyState)
    ensures Total(s) == 2 * DemoChips
    ensures s.playerChips == DemoChips && s.aiChips == DemoChips && s.pot == 0
    ensures s.playerCards == [] && s.aiCards == [] && s.communityCards == [] && s.actions == []
    ensures !s.started && !s.ended && s.round == Preflop && s.currentPlayer.None?
  {
    LegacyState(DemoChips, [], DemoChips, [], [], 0, None, Preflop, [], false, false, None, None, [], None)
  }

  // ---------------------------------------------------------------- startGame

  /** The state startGame sets from a shuffled deck; the same deal and blinds as the client. */
  function PostBlinds(prev: LegacyState, shuffled: seq<Card>): (s: LegacyState)
    requires |shuffled| >= 4
    ensures multiset(s.playerCards + s.aiCards + s.deck) == multiset(shuffled)
    ensures |s.playerCards| == 2 && |s.aiCards| == 2 && |s.deck| == |shuffled| - 4
    ensures s.playerCards == [shuffled[|shuffled| - 1], shuffled[|shuffled| - 2]] &&
            s.aiCards == [shuffled[|shuffled| - 3], shuffled[|shuffled| - 4]] &&
            s.deck == shuffled[..|shuffled| - 4]
    ensures Total(s) == prev.playerChips + prev.aiChips
    ensures s.playerChips == prev.playerChips - BigBlind && s.aiChips == prev.aiChips - SmallBlind
    ensures s.currentPlayer == Some(Player1) && s.round == Preflop && s.started
    ensures NonBlindCount(s.actions) == 0
  {
    var n := |shuffled|;
    HoleCardsMoveCards(shuffled);
    prev.(playerCards := [shuffled[n - 1], shuffled[n - 2]],
          playerChips := prev.playerChips - BigBlind,
          aiCards := [shuffled[n - 3], shuffled[n - 4]],
          aiChips := prev.aiChips - SmallBlind,
          pot := SmallBlind + BigBlind,
          currentPlayer := Some(Player1),
          started := true,
          actions := [GameAction(Blind, Some(SmallBlind), Ai), GameAction(Blind, Some(BigBlind), Player1)],
          deck := shuffled[..n - 4],
          round := Preflop)
  }

  /** startGame: generate, shuffle with the given draws, deal and post the blinds. */
  method StartGame(prev: LegacyState, picks: seq<nat>) returns (s: LegacyState)
    requires ValidPicks(52, picks)
    ensures s == PostBlinds(prev, Shuffled(FullDeck(), picks))
  {
    var deck := GenerateDeck();
    var shuffled := ShuffleDeck(deck, picks);
    s := DealAndPostBlinds(prev, shuffled);
  }

  /** The rest of startGame: pop two cards for the player, two for the AI, post the blinds. */
  method DealAndPostBlinds(prev: LegacyState, shuffledDeck: seq<Card>) returns (s: LegacyState)
    requires |shuffledDeck| >= 4
    ensures s == PostBlinds(prev, shuffledDeck)
  {
    var shuffled := shuffledDeck;
    var p1 := shuffled[|shuffled| - 1];
    shuffled := shuffled[..|shuffled| - 1];
    var p2 := shuffled[|shuffled| - 1];
    shuffled := shuffled[..|shuffled| - 1];
    var a1 := shuffled[|shuffled| - 1];
    shuffled := shuffled[..|shuffled| - 1];
    var a2 := shuffled[|shuffled| - 1];
    shuffled := shuffled[..|shuffled| - 1];
    assert shuffled == shuffledDeck[..|shuffledDeck| - 4];
    s := prev.(playerCards := [p1, p2],
               playerChips := prev.playerChips - BigBlind,
               aiCards := [a1, a2],
               aiChips := prev.aiChips - SmallBlind,
               pot := SmallBlind + BigBlind,
               currentPlayer := Some(Player1),
               started := true,
               actions := [GameAction(Blind, Some(SmallBlind), Ai), GameAction(Blind, Some(BigBlind), Player1)],
               deck := shuffled,
               round := Preflop);
  }

  // ------------------------------------------------------------ the deal

  /** One full deck between the two hands, the board of the round and the deck. */
  predicate LegacyValid(s: LegacyState)
  {
    |s.playerCards| == 2 && |s.aiCards| == 2 &&
    |s.communityCards| == CommunitySize(s.round) &&
    |s.deck| == 48 - CommunitySize(s.round) &&
    multiset(s.playerCards + s.aiCards + s.communityCards + s.deck) == multiset(FullDeck())
  }

  /** A freshly started demo hand holds one full deck, whatever the shuffle draws. */
  lemma StartedGameValid(picks: seq<nat>)
    requires ValidPicks(52, picks)
    ensures LegacyValid(PostBlinds(InitializeGame(), Shuffled(FullDeck(), picks)))
  {
    ShuffleFromIsPermutation(FullDeck(), 51, picks);
    assert |Shuffled(FullDeck(), picks)| == |multiset(FullDeck())| == 52;
    DealtDeckValid(InitializeGame(), Shuffled(FullDeck(), picks));
  }

  /** Dealing from any arrangement of the full deck, onto an empty board, gives a valid hand. */
  lemma DealtDeckValid(prev: LegacyState, shuffled: seq<Card>)
    requires |shuffled| == 52 && multiset(shuffled) == multiset(FullDeck()) && prev.communityCards == []
    ensures LegacyValid(PostBlinds(prev, shuffled))
  {
    var s := PostBlinds(prev, shuffled);
    assert s.playerCards + s.aiCards + s.communityCards + s.deck == s.playerCards + s.aiCards + s.deck;
  }

  /**
   * `totalNonBlindActions % 2 == 0` with the new action counted, and the
   * new action a check or a call.
   */
  predicate Advances(actions: seq<GameAction>, kind: ActionKind)
  {
    (NonBlindCount(actions) + 1) % 2 == 0 && (kind == Check || kind == Call)
  }

  /**
   * The switch on the next round when it differs from the current one and
   * the deck is not empty: the flop is three pops, the turn and the river
   * one each; nothing is dealt otherwise.
   */
  function DealStreet(round: Round, community: seq<Card>, deck: seq<Card>): (r: (seq<Card>, seq<Card>))
    requires NextRound(round) == Flop && |deck| > 0 ==> |deck| >= 3
    ensures NextRound(round) == round || |deck| == 0 || NextRound(round) == Showdown ==> r == (community, deck)
    ensures NextRound(round) == Flop && |deck| > 0 ==>
              r == ([deck[|deck| - 1], deck[|deck| - 2], deck[|deck| - 3]], deck[..|deck| - 3])
    ensures (NextRound(round) == Turn || NextRound(round) == River) && |deck| > 0 ==>
              r == (community + [deck[|deck| - 1]], deck[..|deck| - 1])
  {
    var next := NextRound(round);
    var n := |deck|;
    if next == round || n == 0 then (community, deck)
    else if next == Flop then ([deck[n - 1], deck[n - 2], deck[n - 3]], deck[..n - 3])
    else if next == Turn || next == River then (community + [deck[n - 1]], deck[..n - 1])
    else (community, deck)
  }

  /** The round and the cards after an action, from whether it closes the round. */
  function NextStreet(s: LegacyState, advance: bool): (r: (Round, seq<Card>, seq<Card>))
    requires advance && s.round == Preflop && |s.deck| > 0 ==> |s.deck| >= 3
    ensures r.0 == (if advance then NextRound(s.round) else s.round)
    ensures (r.1, r.2) == (if advance then DealStreet(s.round, s.communityCards, s.deck)
                           else (s.communityCards, s.deck))
  {
    if advance then
      var (c, d) := DealStreet(s.round, s.communityCards, s.deck);
      (NextRound(s.round), c, d)
    else (s.round, s.communityCards, s.deck)
  }

  /**
   * In a hand that holds one full deck, the street dealt moves cards from
   * the deck to the board and leaves the board the size of the new round.
   */
  lemma NextStreetMovesCards(s: LegacyState, advance: bool)
    requires LegacyValid(s)
    ensures var r := NextStreet(s, advance);
      multiset(r.1) + multiset(r.2) == multiset(s.communityCards) + multiset(s.deck) &&
      |r.1| == CommunitySize(r.0) && |r.2| == 48 - CommunitySize(r.0)
  {
    if advance {
      DealStreetMovesCards(s.round, s.communityCards, s.deck);
    }
  }

  /** From a board and deck of the sizes of their round, the deal gives those of the next round. */
  lemma DealStreetMovesCards(round: Round, community: seq<Card>, deck: seq<Card>)
    requires |community| == CommunitySize(round) && |deck| == 48 - CommunitySize(round)
    ensures var r := DealStreet(round, community, deck);
      multiset(r.0) + multiset(r.1) == multiset(community) + multiset(deck) &&
      |r.0| == CommunitySize(NextRound(round)) && |r.1| == 48 - CommunitySize(NextRound(round))
  {
    if round == Preflop {
      FlopMovesCards(deck);
    } else if round == Flop || round == Turn {
      PopMovesCard(community, deck);
    }
  }

  // ------------------------------------------------------- handlePlayerAction

  /** What handlePlayerAction needs: three cards to pop when it deals the flop. */
  predicate PlayerPre(s: LegacyState, kind: Move)
  {
    Advances(s.actions, kind) && s.round == Preflop && |s.deck| > 0 ==> |s.deck| >= 3
  }

  /**
   * handlePlayerAction (its state update). There is no turn or end check.
   * A fold only ends the hand: no chips move and no action is recorded. A
   * call or a raise moves its amount when it is truthy, an all-in the
   * whole stack; the action is recorded with the amount as given.
   */
  function HandlePlayerAction(s: LegacyState, kind: Move, amount: Option<int>): (r: LegacyState)
    requires PlayerPre(s, kind)
    ensures kind == Fold ==> r == s.(ended := true, winner := Some(Ai))
    ensures kind != Fold ==> Total(r) == Total(s) && r.aiChips == s.aiChips &&
                             r.actions == s.actions + [GameAction(kind, amount, Player1)] &&
                             r.currentPlayer == Some(Ai) &&
                             r.round == (if Advances(s.actions, kind) then NextRound(s.round) else s.round)
    ensures kind == AllIn ==> r.playerChips == 0
    ensures kind == Check || ((kind == Call || kind == Raise) && !Truthy(amount)) ==>
              r.playerChips == s.playerChips && r.pot == s.pot
    ensures kind != Fold ==>
              (r.communityCards, r.deck) ==
              (if Advances(s.actions, kind) then DealStreet(s.round, s.communityCards, s.deck)
               else (s.communityCards, s.deck))
    ensures r.playerCards == s.playerCards && r.aiCards == s.aiCards && r.ended == (s.ended || kind == Fold)
  {
    if kind == Fold then s.(ended := true, winner := Some(Ai))
    else
      var moved := if (kind == Call || kind == Raise) && Truthy(amount) then amount.value
                   else if kind == AllIn then s.playerChips else 0;
      var (round, community, deck) := NextStreet(s, Advances(s.actions, kind));
      s.(playerChips := s.playerChips - moved, pot := s.pot + moved,
         communityCards := community, currentPlayer := Some(Ai), round := round,
         actions := s.actions + [GameAction(kind, amount, Player1)], deck := deck)
  }

  /** A call or raise moves exactly its (truthy) amount, whatever the stack: it can overdraw. */
  lemma PlayerBetUnchecked(s: LegacyState, kind: Move, a: int)
    requires (kind == Call || kind == Raise) && a != 0 && PlayerPre(s, kind)
    ensures var r := HandlePlayerAction(s, kind, Some(a));
      r.playerChips == s.playerChips - a && r.pot == s.pot + a
    ensures a > s.playerChips ==> HandlePlayerAction(s, kind, Some(a)).playerChips < 0
  {
  }

  /**
   * The player can close the river: the round becomes the showdown but
   * nothing is evaluated, the hand does not end and the pot stays.
   */
  lemma PlayerShowdownUnsettled(s: LegacyState, kind: Move, amount: Option<int>)
    requires s.round == River && !s.ended && Advances(s.actions, kind)
    ensures var r := HandlePlayerAction(s, kind, amount);
      r.round == Showdown && !r.ended && r.evaluations == s.evaluations &&
      r.communityCards == s.communityCards && r.deck == s.deck && r.pot + r.playerChips == s.pot + s.playerChips
  {
  }

  /** A player action keeps every card in play. */
  lemma PlayerKeepsValid(s: LegacyState, kind: Move, amount: Option<int>)
    requires LegacyValid(s)
    ensures PlayerPre(s, kind)
    ensures LegacyValid(HandlePlayerAction(s, kind, amount))
  {
    if kind != Fold {
      NextStreetMovesCards(s, Advances(s.actions, kind));
      CardsMovedKeepValid(s, HandlePlayerAction(s, kind, amount));
    }
  }

  /** A state whose cards are those of a valid one, moved between board and deck, is valid. */
  lemma CardsMovedKeepValid(s: LegacyState, r: LegacyState)
    requires LegacyValid(s)
    requires r.playerCards == s.playerCards && r.aiCards == s.aiCards
    requires multiset(r.communityCards) + multiset(r.deck) == multiset(s.communityCards) + multiset(s.deck)
    requires |r.communityCards| == CommunitySize(r.round) && |r.deck| == 48 - CommunitySize(r.round)
    ensures LegacyValid(r)
  {
    var h := s.playerCards + s.aiCards;
    calc {
      multiset(r.playerCards + r.aiCards + r.communityCards + r.deck);
      multiset(h + r.communityCards) + multiset(r.deck);
      multiset(h) + multiset(r.communityCards) + multiset(r.deck);
      multiset(h) + (multiset(r.communityCards) + multiset(r.deck));
      multiset(h) + (multiset(s.communityCards) + multiset(s.deck));
      multiset(h) + multiset(s.communityCards) + multiset(s.deck);
      multiset(h + s.communityCards) + multiset(s.deck);
      multiset(s.playerCards + s.aiCards + s.communityCards + s.deck);
    }
  }

  // ---------------------------------------------------------- processAIAction

  /**
   * What processAIAction needs: three cards for a flop it deals, and
   * five cards per hand for a showdown it holds (only with a non-empty deck).
   */
  predicate AiPre(s: LegacyState, act: Move)
  {
    Advances(s.actions, act) && |s.deck| > 0 ==>
      (s.round == Preflop ==> |s.deck| >= 3) &&
      (s.round == River ==> |s.playerCards + s.communityCards| >= 5 && |s.aiCards + s.communityCards| >= 5)
  }

  /** The AI's stack, the pot and the amount recorded, after an action other than a fold. */
  function AiMoves(s: LegacyState, act: Move, amount: int): (m: (int, int, int))
    ensures m.0 + m.1 == s.aiChips + s.pot
    ensures act == Call || act == Raise ==> m.0 == s.aiChips - amount
    ensures act == AllIn ==> m.0 == 0 && m.2 == s.aiChips
    ensures act == Check ==> m.0 == s.aiChips
  {
    if act == Call || act == Raise then (s.aiChips - amount, s.pot + amount, amount)
    else if act == AllIn then (0, s.pot + s.aiChips, s.aiChips)
    else (s.aiChips, s.pot, amount)
  }

  /** The AI's action closes the river with cards left, so processAIAction holds the showdown. */
  predicate ClosesRiver(s: LegacyState, act: Move)
  {
    act != Fold && Advances(s.actions, act) && s.round == River && |s.deck| > 0
  }

  /**
   * processAIAction (its state update). A fold pays the pot to the player;
   * a call or a raise moves the amount it is given without a check against
   * the stack or any bet; the round closes on the parity rule, and the
   * showdown is held when the river closes with cards left in the deck.
   */
  function ProcessAIAction(s: LegacyState, act: Move, amount: int): (r: LegacyState)
    requires AiPre(s, act)
    ensures |r.actions| == |s.actions| + 1 && r.actions[..|s.actions|] == s.actions &&
            r.actions[|s.actions|].player == Ai && r.actions[|s.actions|].kind == act
    ensures r.aiLastAction == Some(r.actions[|s.actions|])
    ensures act == Fold ==> r.playerChips == s.playerChips + s.pot && r.aiChips == s.aiChips &&
                            r.pot == 0 && r.ended && r.winner == Some(Player1)
    ensures act != Fold ==> r.round == (if Advances(s.actions, act) then NextRound(s.round) else s.round)
    ensures r.ended <==> s.ended || act == Fold || ClosesRiver(s, act)
    ensures r.playerCards == s.playerCards && r.aiCards == s.aiCards
  {
    if act == Fold then
      var a := GameAction(Fold, None, Ai);
      s.(aiLastAction := Some(a), ended := true, winner := Some(Player1),
         playerChips := s.playerChips + s.pot, pot := 0, actions := s.actions + [a])
    else
      var (chips, pot, moved) := AiMoves(s, act, amount);
      var a := GameAction(act, if moved > 0 then Some(moved) else None, Ai);
      if ClosesRiver(s, act) then
        HoldShowdown(s, a, chips, pot)
      else
        var (round, community, deck) := NextStreet(s, Advances(s.actions, act));
        s.(aiChips := chips, aiLastAction := Some(a), pot := pot, communityCards := community,
           currentPlayer := Some(Player1), round := round, actions := s.actions + [a], deck := deck)
  }

  /** The showdown inside processAIAction: the pot including the AI's last chips goes to the winner. */
  function HoldShowdown(prev: LegacyState, a: GameAction, aiChips: int, pot: int): (r: LegacyState)
    requires |prev.playerCards + prev.communityCards| >= 5 && |prev.aiCards + prev.communityCards| >= 5
    ensures r.evaluations.Some? &&
            r.evaluations.value.player == EvaluateHand(prev.playerCards + prev.communityCards) &&
            r.evaluations.value.ai == EvaluateHand(prev.aiCards + prev.communityCards)
    ensures r.winner == ShowdownWinner(r.evaluations.value.player, r.evaluations.value.ai)
    ensures r.playerChips + r.aiChips == prev.playerChips + aiChips + pot && r.pot == 0
    ensures r.winner == Some(Player1) ==> r.playerChips == prev.playerChips + pot && r.aiChips == aiChips
    ensures r.winner == Some(Ai) ==> r.playerChips == prev.playerChips && r.aiChips == aiChips + pot
    ensures r.winner.None? ==> r.playerChips == prev.playerChips + pot / 2 && r.aiChips == aiChips + (pot - pot / 2)
    ensures r.ended && r.round == Showdown && r.currentPlayer.None?
    ensures r.actions == prev.actions + [a] && r.aiLastAction == Some(a)
    ensures r.playerCards == prev.playerCards && r.aiCards == prev.aiCards &&
            r.communityCards == prev.communityCards && r.deck == prev.deck
  {
    var ph := EvaluateHand(prev.playerCards + prev.communityCards);
    var ah := EvaluateHand(prev.aiCards + prev.communityCards);
    var w := ShowdownWinner(ph, ah);
    var chips := Settle(w, prev.playerChips, aiChips, pot);
    prev.(playerChips := chips.0, aiChips := chips.1, aiLastAction := Some(a), pot := 0,
          actions := prev.actions + [a], round := Showdown, ended := true, winner := w,
          currentPlayer := None, evaluations := Some(Evaluations(ph, ah)))
  }

  /** Unlike the client, every AI action keeps the chips on the table, the showdown included. */
  lemma AiConservesChips(s: LegacyState, act: Move, amount: int)
    requires AiPre(s, act)
    ensures Total(ProcessAIAction(s, act, amount)) == Total(s)
  {
  }

  /** A call or a raise moves exactly the amount given, whatever the stack: it can overdraw. */
  lemma AiBetUnchecked(s: LegacyState, act: Move, amount: int)
    requires (act == Call || act == Raise) && AiPre(s, act) && !ClosesRiver(s, act)
    ensures var r := ProcessAIAction(s, act, amount);
      r.aiChips == s.aiChips - amount && r.pot == s.pot + amount
    ensures amount > s.aiChips ==> ProcessAIAction(s, act, amount).aiChips < 0
  {
  }

  /** An AI action keeps every card in play. */
  lemma AiKeepsValid(s: LegacyState, act: Move, amount: int)
    requires LegacyValid(s)
    ensures AiPre(s, act)
    ensures LegacyValid(ProcessAIAction(s, act, amount))
  {
    if act != Fold {
      NextStreetMovesCards(s, Advances(s.actions, act));
      CardsMovedKeepValid(s, ProcessAIAction(s, act, amount));
    }
  }

  // ------------------------------------------------------------ the AI's turn

  /** handleAITurn: the agent call is disabled, so the AI always calls 10. */
  function HandleAITurn(s: LegacyState): (r: LegacyState)
    requires AiPre(s, Call)
    ensures Total(r) == Total(s)
  {
    ProcessAIAction(s, Call, AiCall)
  }

  /** The player's action followed by the AI's turn it triggers, on the state the first leaves. */
  function PlayerTurn(s: LegacyState, kind: Move, amount: Option<int>): (r: LegacyState)
    requires PlayerPre(s, kind) && AiPre(HandlePlayerAction(s, kind, amount), Call)
    ensures kind != Fold ==> Total(r) == Total(s)
  {
    HandleAITurn(HandlePlayerAction(s, kind, amount))
  }

  /**
   * In a hand with an even number of non-blind actions, whatever the
   * player does short of a fold, the exchange moves exactly one street on:
   * the player's action never closes the round and the AI's call always
   * does. The count stays even.
   */
  lemma {:induction false} ExchangeAdvancesOneStreet(s: LegacyState, kind: Move, amount: Option<int>)
    requires LegacyValid(s) && kind != Fold && NonBlindCount(s.actions) % 2 == 0
    ensures PlayerPre(s, kind) && AiPre(HandlePlayerAction(s, kind, amount), Call)
    ensures var r := PlayerTurn(s, kind, amount);
      r.round == NextRound(s.round) && NonBlindCount(r.actions) % 2 == 0
  {
    PlayerHoldsRound(s, kind, amount);
    var m := HandlePlayerAction(s, kind, amount);
    SameCardsAiPre(s, m, Call);
    AiCallAdvances(m);
  }

  /** From an even count, a player action other than a fold never closes the round and makes the count odd. */
  lemma PlayerHoldsRound(s: LegacyState, kind: Move, amount: Option<int>)
    requires LegacyValid(s) && kind != Fold && NonBlindCount(s.actions) % 2 == 0
    ensures PlayerPre(s, kind)
    ensures var m := HandlePlayerAction(s, kind, amount);
      m.round == s.round && m.communityCards == s.communityCards && m.deck == s.deck &&
      m.playerCards == s.playerCards && m.aiCards == s.aiCards && NonBlindCount(m.actions) % 2 == 1
  {
    var c := NonBlindCount(s.actions);
    NonBlindCountAppend(s.actions, GameAction(kind, amount, Player1));
    assert (c + 1) % 2 == 1 && (c + 2) % 2 == 0;
    assert !Advances(s.actions, kind);
  }

  /** From an odd count, the AI's call of 10 closes the round and makes the count even. */
  lemma AiCallAdvances(m: LegacyState)
    requires NonBlindCount(m.actions) % 2 == 1 && AiPre(m, Call)
    ensures var r := ProcessAIAction(m, Call, AiCall);
      r.round == NextRound(m.round) && NonBlindCount(r.actions) % 2 == 0
  {
    var c := NonBlindCount(m.actions);
    assert (c + 1) % 2 == 0;
    assert Advances(m.actions, Call);
    var r := ProcessAIAction(m, Call, AiCall);
    var last := r.actions[|m.actions|];
    assert r.actions == m.actions + [last];
    NonBlindCountAppend(m.actions, last);
  }

  /** A state with the cards of a valid one can deal whatever the AI does. */
  lemma SameCardsAiPre(s: LegacyState, m: LegacyState, act: Move)
    requires LegacyValid(s)
    requires m.playerCards == s.playerCards && m.aiCards == s.aiCards && m.round == s.round
    requires m.communityCards == s.communityCards && m.deck == s.deck
    ensures AiPre(m, act)
  {
  }

  /**
   * A fold does not stop the hand: unless the AI's call closes the river,
   * the AI's turn still runs, puts 10 more in the pot and hands the turn
   * back to the player of an ended hand.
   */
  lemma FoldIsNotFinal(s: LegacyState, amount: Option<int>)
    requires !s.ended && !ClosesRiver(s, Call) && AiPre(s, Call)
    ensures var r := PlayerTurn(s, Fold, amount);
      r.ended && r.winner == Some(Ai) && r.currentPlayer == Some(Player1) &&
      r.playerChips == s.playerChips && r.aiChips == s.aiChips - AiCall && r.pot == s.pot + AiCall
  {
  }

  /**
   * When the AI's call after a fold closes the river, the folded hand goes
   * to the showdown: the winner is decided again from the cards and the
   * pot, with the AI's 10, is paid out as for any showdown.
   */
  lemma FoldAtRiverRedecided(s: LegacyState, amount: Option<int>)
    requires !s.ended && ClosesRiver(s, Call) && AiPre(s, Call)
    ensures var r := PlayerTurn(s, Fold, amount);
      r.ended && r.round == Showdown && r.currentPlayer.None? &&
      r.winner == ShowdownWinner(EvaluateHand(s.playerCards + s.communityCards),
                                 EvaluateHand(s.aiCards + s.communityCards)) &&
      Total(r) == Total(s)
  {
    var f := HandlePlayerAction(s, Fold, amount);
    assert f == s.(ended := true, winner := Some(Ai));
    assert ClosesRiver(f, Call);
  }

  /** simulateAIAction once its draws are given: the choice of GameTypes, then processAIAction. */
  function SimulateAIAction(s: LegacyState, pick: nat, step: nat): (r: LegacyState)
    requires pick < 5 && step < 3
    requires AiPre(s, SimulatedChoice(s.actions, s.aiChips, pick, step).0)
    ensures |r.actions| == |s.actions| + 1
    ensures var lp := LastBy(s.actions, Player1);
      lp.Some? && (lp.value.kind == Raise || lp.value.kind == AllIn) ==> r.actions[|s.actions|].kind != Check
  {
    var c := SimulatedChoice(s.actions, s.aiChips, pick, step);
    ProcessAIAction(s, c.0, c.1)
  }
}
