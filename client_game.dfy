/**
 * The game page of the client (`client/src/pages/Game.tsx`): one hand of
 * heads-up hold'em between the player and the AI. Each handler is a state
 * transition `prev -> next`, as the `setGameState(prev => ...)` updaters
 * are. The fields kept here are the ones the handlers read or write;
 * `hidden`, `thinking`, ids and timestamps are dropped.
 */
module ClientGame {
  import opened Options
  import opened Cards
  import opened Deck
  import opened PokerLogic
  import opened GameTypes

  /**
   * `GameState` of the client, flattened: `players[0]` becomes the player
   * fields, `aiAgent` the AI fields. An empty `currentPlayer` is None; an
   * undefined `deck`, `currentBet` or `lastRaise` is [] or 0, which is what
   * the handlers read them as.
   */
  datatype ClientState = ClientState(
    playerChips: int, playerCards: seq<Card>,
    aiChips: int, aiCards: seq<Card>,
    communityCards: seq<Card>, pot: int,
    currentPlayer: Option<Seat>, round: Round,
    actions: seq<GameAction>, started: bool, ended: bool,
    winner: Option<Seat>, evaluations: Option<Evaluations>,
    deck: seq<Card>, currentBet: int, lastRaise: int)

  const SmallBlind := 10
  const BigBlind := 20

  /** All the chips on the table. */
  function Total(s: ClientState): int
  {
    s.playerChips + s.aiChips + s.pot
  }

  /** The fresh table initializeGame sets: both stacks hold maxChips, nothing is dealt. */
  function InitialState(maxChips: int): ClientState
  {
    ClientState(maxChips, [], maxChips, [], [], 0, None, Preflop, [], false, false, None, None, [], 0, 0)
  }

  /**
   * initializeGame: refused (None, the state is left alone) without a
   * wallet, or when the balance, in chips, caps at fewer than 100;
   * otherwise both stacks get the balance capped at 2000.
   */
  function InitializeGame(connected: bool, balanceChips: int): (r: Option<ClientState>)
    ensures r.Some? <==> connected && balanceChips >= 100
    ensures r.Some? ==> r.value.playerChips == r.value.aiChips == Min(balanceChips, 2000)
    ensures r.Some? ==> 100 <= r.value.playerChips <= 2000 && r.value.pot == 0
    ensures r.Some? ==> !r.value.started && !r.value.ended && r.value.communityCards == [] && r.value.actions == []
  {
    if !connected then None
    else
      var maxChips := Min(balanceChips, 2000);
      if maxChips < 100 then None else Some(InitialState(maxChips))
  }

  // ---------------------------------------------------------------- startGame

  /**
   * The state startGame sets from a shuffled deck: the player is dealt the
   * two cards popped first, the AI the next two, the blinds are posted and
   * the player is to act facing the big blind.
   */
  function PostBlinds(prev: ClientState, shuffled: seq<Card>): (s: ClientState)
    requires |shuffled| >= 4
    ensures multiset(s.playerCards + s.aiCards + s.deck) == multiset(shuffled)
    ensures |s.playerCards| == 2 && |s.aiCards| == 2 && |s.deck| == |shuffled| - 4
    ensures s.playerCards == [shuffled[|shuffled| - 1], shuffled[|shuffled| - 2]] &&
            s.aiCards == [shuffled[|shuffled| - 3], shuffled[|shuffled| - 4]] &&
            s.deck == shuffled[..|shuffled| - 4]
    ensures Total(s) == prev.playerChips + prev.aiChips
    ensures s.playerChips == prev.playerChips - BigBlind && s.aiChips == prev.aiChips - SmallBlind
    ensures s.currentPlayer == Some(Player1) && s.round == Preflop && s.started
    ensures s.currentBet == BigBlind && NonBlindCount(s.actions) == 0
  {
    var n := |shuffled|;
    HoleCardsMoveCards(shuffled);
    prev.(playerCards := [shuffled[n - 1], shuffled[n - 2]],
          playerChips := prev.playerChips - BigBlind,
          aiCards := [shuffled[n - 3], shuffled[n - 4]],
          aiChips := prev.aiChips - SmallBlind,
          pot := SmallBlind + BigBlind,
          currentPlayer := Some(Player1),
          started := true,
          actions := [GameAction(Blind, Some(SmallBlind), Ai), GameAction(Blind, Some(BigBlind), Player1)],
          deck := shuffled[..n - 4],
          round := Preflop,
          currentBet := BigBlind,
          lastRaise := BigBlind)
  }

  /** startGame: generate, shuffle with the given draws, deal and post the blinds. */
  method StartGame(prev: ClientState, picks: seq<nat>) returns (s: ClientState)
    requires ValidPicks(52, picks)
    ensures s == PostBlinds(prev, Shuffled(FullDeck(), picks))
  {
    var deck := GenerateDeck();
    var shuffled := ShuffleDeck(deck, picks);
    s := DealAndPostBlinds(prev, shuffled);
  }

  /** The rest of startGame: pop two cards for the player, two for the AI, post the blinds. */
  method DealAndPostBlinds(prev: ClientState, shuffledDeck: seq<Card>) returns (s: ClientState)
    requires |shuffledDeck| >= 4
    ensures s == PostBlinds(prev, shuffledDeck)
  {
    var shuffled := shuffledDeck;
    var p1 := shuffled[|shuffled| - 1];
    shuffled := shuffled[..|shuffled| - 1];
    var p2 := shuffled[|shuffled| - 1];
    shuffled := shuffled[..|shuffled| - 1];
    var a1 := shuffled[|shuffled| - 1];
    shuffled := shuffled[..|shuffled| - 1];
    var a2 := shuffled[|shuffled| - 1];
    shuffled := shuffled[..|shuffled| - 1];
    assert shuffled == shuffledDeck[..|shuffledDeck| - 4];
    s := prev.(playerCards := [p1, p2],
               playerChips := prev.playerChips - BigBlind,
               aiCards := [a1, a2],
               aiChips := prev.aiChips - SmallBlind,
               pot := SmallBlind + BigBlind,
               currentPlayer := Some(Player1),
               started := true,
               actions := [GameAction(Blind, Some(SmallBlind), Ai), GameAction(Blind, Some(BigBlind), Player1)],
               deck := shuffled,
               round := Preflop,
               currentBet := BigBlind,
               lastRaise := BigBlind);
  }

  // --------------------------------------------------------- the deal invariant

  /**
   * The cards of a started hand: two hole cards each, the community cards
   * of the round, and the rest of the deck, together exactly one full deck.
   */
  predicate ClientValid(s: ClientState)
  {
    |s.playerCards| == 2 && |s.aiCards| == 2 &&
    |s.communityCards| == CommunitySize(s.round) &&
    |s.deck| == 48 - CommunitySize(s.round) &&
    multiset(s.playerCards + s.aiCards + s.communityCards + s.deck) == multiset(FullDeck())
  }

  /** A freshly started hand holds one full deck, whatever the shuffle draws. */
  lemma StartedGameValid(maxChips: int, picks: seq<nat>)
    requires ValidPicks(52, picks)
    ensures ClientValid(PostBlinds(InitialState(maxChips), Shuffled(FullDeck(), picks)))
  {
    ShuffleFromIsPermutation(FullDeck(), 51, picks);
    assert |Shuffled(FullDeck(), picks)| == |multiset(FullDeck())| == 52;
    DealtDeckValid(InitialState(maxChips), Shuffled(FullDeck(), picks));
  }

  /** Dealing from any arrangement of the full deck, onto an empty board, gives a valid hand. */
  lemma DealtDeckValid(prev: ClientState, shuffled: seq<Card>)
    requires |shuffled| == 52 && multiset(shuffled) == multiset(FullDeck()) && prev.communityCards == []
    ensures ClientValid(PostBlinds(prev, shuffled))
  {
    var s := PostBlinds(prev, shuffled);
    assert s.playerCards + s.aiCards + s.communityCards + s.deck == s.playerCards + s.aiCards + s.deck;
  }

  // ------------------------------------------------------- handlePlayerAction

  /** Pot, stack, current bet and last raise after a bet. */
  datatype Stake = Stake(pot: int, chips: int, currentBet: int, lastRaise: int)

  /**
   * The chips the player's action moves, or None when the handler returns
   * the state unchanged: a check facing a bet, or a raise below twice the
   * current bet that is also below the stack.
   */
  function PlayerStake(s: ClientState, kind: Move, amount: Option<int>): (st: Option<Stake>)
    requires kind != Fold
    ensures st.Some? ==> st.value.pot + st.value.chips == s.pot + s.playerChips
    ensures st.None? <==> (kind == Check && s.currentBet > 0) ||
                          (kind == Raise && Truthy(amount) &&
                           amount.value < 2 * s.currentBet && amount.value < s.playerChips)
    ensures kind == Call ==>
              st == Some(Stake(s.pot + Min(s.currentBet, s.playerChips), s.playerChips - Min(s.currentBet, s.playerChips),
                               s.currentBet, s.lastRaise))
    ensures (kind == Check || (kind == Raise && !Truthy(amount))) && st.Some? ==>
              st == Some(Stake(s.pot, s.playerChips, s.currentBet, s.lastRaise))
    ensures kind == Raise && Truthy(amount) && st.Some? ==>
              st == Some(Stake(s.pot + amount.value, s.playerChips - amount.value, amount.value, amount.value - s.currentBet))
    ensures kind == AllIn ==>
              st == Some(Stake(s.pot + s.playerChips, 0, Max(s.currentBet, s.playerChips), s.lastRaise))
  {
    var cb := s.currentBet;
    var chips := s.playerChips;
    if kind == Check then
      if cb > 0 then None else Some(Stake(s.pot, chips, cb, s.lastRaise))
    else if kind == Call then
      var c := Min(cb, chips);
      Some(Stake(s.pot + c, chips - c, cb, s.lastRaise))
    else if kind == Raise then
      if Truthy(amount) then
        var a := amount.value;
        if a < cb * 2 && a < chips then None
        else Some(Stake(s.pot + a, chips - a, a, a - cb))
      else Some(Stake(s.pot, chips, cb, s.lastRaise))
    else
      Some(Stake(s.pot + chips, 0, Max(cb, chips), s.lastRaise))
  }

  /** `amount || (type === "all-in" ? playerChips : undefined)`, read after the stack went to 0. */
  function RecordedAmount(kind: Move, amount: Option<int>): (r: Option<int>)
    ensures Truthy(amount) ==> r == amount
    ensures !Truthy(amount) ==> r == (if kind == AllIn then Some(0) else None)
  {
    if Truthy(amount) then amount else if kind == AllIn then Some(0) else None
  }

  /** handlePlayerAction (its state update). */
  function HandlePlayerAction(s: ClientState, kind: Move, amount: Option<int>): (r: ClientState)
    ensures s.currentPlayer != Some(Player1) || s.ended ==> r == s
    ensures kind == Check && s.currentBet > 0 ==> r == s
    ensures r.round == s.round && r.communityCards == s.communityCards && r.deck == s.deck
    ensures r.playerCards == s.playerCards && r.aiCards == s.aiCards
    ensures kind != Fold ==> r.playerChips + r.pot == s.playerChips + s.pot && r.aiChips == s.aiChips
    ensures s.currentPlayer == Some(Player1) && !s.ended && kind == Call ==>
              r.playerChips == s.playerChips - Min(s.currentBet, s.playerChips) &&
              r.pot == s.pot + Min(s.currentBet, s.playerChips) && r.currentBet == s.currentBet
    ensures r == s || (|r.actions| == |s.actions| + 1 && r.actions[..|s.actions|] == s.actions &&
                       r.actions[|s.actions|].player == Player1 && r.actions[|s.actions|].kind == kind &&
                       r.currentPlayer == (if kind == Fold then None else Some(Ai)))
  {
    if s.currentPlayer != Some(Player1) || s.ended then s
    else if kind == Fold then
      s.(ended := true, winner := Some(Ai), currentPlayer := None,
         aiChips := s.aiChips + s.pot,
         actions := s.actions + [GameAction(Fold, None, Player1)])
    else
      match PlayerStake(s, kind, amount)
      case None => s
      case Some(st) =>
        s.(playerChips := st.chips, pot := st.pot, currentPlayer := Some(Ai),
           currentBet := st.currentBet, lastRaise := st.lastRaise,
           actions := s.actions + [GameAction(kind, RecordedAmount(kind, amount), Player1)])
  }

  /** A fold by the player credits the pot to the AI without emptying it: the table gains the pot. */
  lemma PlayerFoldCreatesChips(s: ClientState, amount: Option<int>)
    requires s.currentPlayer == Some(Player1) && !s.ended
    ensures var r := HandlePlayerAction(s, Fold, amount);
      r.ended && r.winner == Some(Ai) && r.aiChips == s.aiChips + s.pot &&
      r.pot == s.pot && Total(r) == Total(s) + s.pot
  {
  }

  /**
   * A raise is taken exactly when it is at least twice the current bet or
   * at least the stack; a raise above the stack is therefore always taken
   * and leaves the stack negative.
   */
  lemma PlayerRaiseRule(s: ClientState, a: int)
    requires s.currentPlayer == Some(Player1) && !s.ended && a != 0
    ensures var r := HandlePlayerAction(s, Raise, Some(a));
      (r != s <==> a >= 2 * s.currentBet || a >= s.playerChips) &&
      (r != s ==> r.playerChips == s.playerChips - a && r.currentBet == a &&
                  r.lastRaise == a - s.currentBet && r.pot == s.pot + a)
    ensures a > s.playerChips ==> HandlePlayerAction(s, Raise, Some(a)).playerChips < 0
  {
    var r := HandlePlayerAction(s, Raise, Some(a));
    if a >= 2 * s.currentBet || a >= s.playerChips {
      assert r.actions != s.actions;
    }
  }

  /** With a non-negative stack and bet, a call or an all-in never overdraws the stack. */
  lemma PlayerCallAllInBounded(s: ClientState, kind: Move, amount: Option<int>)
    requires s.playerChips >= 0 && s.currentBet >= 0
    requires kind == Call || kind == AllIn
    ensures 0 <= HandlePlayerAction(s, kind, amount).playerChips <= s.playerChips
    ensures kind == AllIn && s.currentPlayer == Some(Player1) && !s.ended ==>
              HandlePlayerAction(s, kind, amount).playerChips == 0 &&
              HandlePlayerAction(s, kind, amount).currentBet == Max(s.currentBet, s.playerChips)
  {
  }

  /** The big blind cannot check before the flop: the handler refuses it. */
  lemma BigBlindCannotCheck(prev: ClientState, shuffled: seq<Card>, amount: Option<int>)
    requires |shuffled| >= 4
    ensures var s := PostBlinds(prev, shuffled);
      HandlePlayerAction(s, Check, amount) == s
  {
  }

  /** A player action keeps every card where it was. */
  lemma PlayerKeepsValid(s: ClientState, kind: Move, amount: Option<int>)
    requires ClientValid(s)
    ensures ClientValid(HandlePlayerAction(s, kind, amount))
  {
  }

  // ---------------------------------------------------------- processAIAction

  /** The AI's action after the check and raise corrections, with what it moves. */
  datatype Bet = Bet(kind: Move, amount: int, pot: int, chips: int, currentBet: int, lastRaise: int)

  /**
   * The betting part of processAIAction for an action other than a fold:
   * a check facing a bet becomes a call of the bet; a raise is lifted to
   * twice the bet when it is below that and below the stack, and a raise
   * above the stack becomes an all-in.
   */
  function AiBet(s: ClientState, act: Move, amount: int): (b: Bet)
    requires act != Fold
    ensures b.kind != Fold && b.pot + b.chips == s.pot + s.aiChips
    ensures b.kind == Check <==> act == Check && s.currentBet <= 0
    ensures b.kind == Check ==> b.chips == s.aiChips && b.currentBet == s.currentBet
    ensures b.kind == Call ==> (act == Call || act == Check) &&
                               b.chips == s.aiChips - Min(s.currentBet, s.aiChips)
    ensures b.kind == Raise ==> act == Raise && b.currentBet == b.amount &&
                                (b.amount >= 2 * s.currentBet || b.amount >= s.aiChips) &&
                                b.amount <= s.aiChips
    ensures b.kind == AllIn ==> b.chips == 0 && b.amount == s.aiChips
    ensures s.aiChips >= 0 && s.currentBet >= 0 ==> 0 <= b.chips <= s.aiChips
    ensures act == Call || (act == Check && s.currentBet > 0) ==>
              b.kind == Call && b.amount == (if act == Check then s.currentBet else amount) &&
              b.pot == s.pot + Min(s.currentBet, s.aiChips) && b.currentBet == s.currentBet
    ensures act == Raise ==>
              var a1 := if amount < 2 * s.currentBet && amount < s.aiChips then 2 * s.currentBet else amount;
              (a1 <= s.aiChips ==> b == Bet(Raise, a1, s.pot + a1, s.aiChips - a1, a1, a1 - s.currentBet)) &&
              (a1 > s.aiChips ==> b == Bet(AllIn, s.aiChips, s.pot + s.aiChips, 0, s.aiChips, s.aiChips - s.currentBet))
    ensures act == AllIn ==>
              b.currentBet == Max(s.currentBet, s.aiChips) &&
              b.lastRaise == (if s.aiChips > s.currentBet then s.aiChips - s.currentBet else s.lastRaise)
  {
    var cb := s.currentBet;
    var k: Move := if act == Check && cb > 0 then Call else act;
    var a := if act == Check && cb > 0 then cb else amount;
    if k == Call then
      var c := Min(cb, s.aiChips);
      Bet(Call, a, s.pot + c, s.aiChips - c, cb, s.lastRaise)
    else if k == Raise then
      var a1 := if a < cb * 2 && a < s.aiChips then cb * 2 else a;
      if a1 > s.aiChips then Bet(AllIn, s.aiChips, s.pot + s.aiChips, 0, s.aiChips, s.aiChips - cb)
      else Bet(Raise, a1, s.pot + a1, s.aiChips - a1, a1, a1 - cb)
    else if k == AllIn then
      var all := s.aiChips;
      Bet(AllIn, all, s.pot + all, 0, if all > cb then all else cb, if all > cb then all - cb else s.lastRaise)
    else
      Bet(k, a, s.pot, s.aiChips, cb, s.lastRaise)
  }

  /**
   * `bothPlayersActed && roundComplete`, on the actions before the AI's one
   * and the AI's corrected action kind.
   */
  predicate RoundComplete(actions: seq<GameAction>, kind: ActionKind)
  {
    var lp := LastBy(actions, Player1);
    var la := LastNonBlindBy(actions, Ai);
    var bothActed := lp.Some? && (la.Some? || kind == Check || kind == Call);
    var playerChecked := lp.Some? && lp.value.kind == Check;
    var playerCalled := lp.Some? && lp.value.kind == Call;
    var complete := (playerChecked && kind == Check) ||
                    (playerCalled && (kind == Check || kind == Call)) ||
                    (kind == Call && playerChecked);
    bothActed && complete
  }

  /**
   * The round closes exactly when the player's last action (blinds
   * included) was a check or a call and the AI checks or calls: the
   * `bothPlayersActed` test adds nothing.
   */
  lemma RoundCompleteIff(actions: seq<GameAction>, kind: ActionKind)
    ensures RoundComplete(actions, kind) <==>
              LastBy(actions, Player1).Some? &&
              (LastBy(actions, Player1).value.kind == Check || LastBy(actions, Player1).value.kind == Call) &&
              (kind == Check || kind == Call)
  {
  }

  /** What the deal of the next round needs of the deck and the hands (`pop()!`, `bestHand!`). */
  predicate CanDeal(s: ClientState)
  {
    match NextRound(s.round)
    case Preflop => true
    case Flop => true
    case Turn => |s.deck| >= 1
    case River => |s.deck| >= 1
    case Showdown =>
      s.round == Showdown ||
      (|s.playerCards + s.communityCards| >= 5 && |s.aiCards + s.communityCards| >= 5)
  }

  /** processAIAction needs a deal to be possible only when its action closes the round. */
  predicate AiPre(s: ClientState, act: Move, amount: int)
  {
    act != Fold && RoundComplete(s.actions, AiBet(s, act, amount).kind) ==> CanDeal(s)
  }

  /** A hand that holds one full deck can always deal its next round. */
  lemma ValidCanDeal(s: ClientState, act: Move, amount: int)
    requires ClientValid(s)
    ensures CanDeal(s) && AiPre(s, act, amount)
  {
  }

  /** The state after a non-final AI action: the turn goes back to the player. */
  function Continue(s: ClientState, b: Bet, a: GameAction, round: Round,
                    community: seq<Card>, deck: seq<Card>, currentBet: int): ClientState
  {
    s.(aiChips := b.chips, pot := b.pot, communityCards := community,
       currentPlayer := Some(Player1), currentBet := currentBet,
       lastRaise := b.lastRaise, round := round,
       actions := s.actions + [a], deck := deck)
  }

  /** `remainingDeck.splice(-3).reverse()`: the (up to) three last cards, last first. */
  function SpliceFlop(deck: seq<Card>): (r: (seq<Card>, seq<Card>))
    ensures |deck| >= 3 ==> r.0 == [deck[|deck| - 1], deck[|deck| - 2], deck[|deck| - 3]] &&
                            r.1 == deck[..|deck| - 3]
    ensures |deck| < 3 ==> r.1 == [] && |r.0| == |deck|
  {
    var k := if |deck| >= 3 then |deck| - 3 else 0;
    (Reverse(deck[k..]), deck[..k])
  }

  /** The AI's action as recorded: its amount only when positive. */
  function AiRecord(b: Bet): GameAction
  {
    GameAction(b.kind, if b.amount > 0 then Some(b.amount) else None, Ai)
  }

  /**
   * The board and deck once a betting round closes and NextRound(round) is
   * dealt: the flop by SpliceFlop, the turn and the river by `pop()!` onto
   * the board; nothing when the round does not change (or for the
   * showdown, which the caller holds instead).
   */
  function DealNext(round: Round, community: seq<Card>, deck: seq<Card>): (r: (seq<Card>, seq<Card>))
    requires NextRound(round) == Turn || NextRound(round) == River ==> |deck| >= 1
  {
    var next := NextRound(round);
    if next == round then (community, deck)
    else if next == Flop then SpliceFlop(deck)
    else if next == Turn || next == River then (community + [deck[|deck| - 1]], deck[..|deck| - 1])
    else (community, deck)
  }

  /**
   * From a board and deck of the sizes of their round, the deal moves cards
   * from the deck to the board and no card anywhere else, and leaves board
   * and deck of the sizes of the next round.
   */
  lemma DealNextMovesCards(round: Round, community: seq<Card>, deck: seq<Card>)
    requires round != River
    requires |community| == CommunitySize(round) && |deck| == 48 - CommunitySize(round)
    ensures var d := DealNext(round, community, deck);
      multiset(d.0) + multiset(d.1) == multiset(community) + multiset(deck) &&
      |d.0| == CommunitySize(NextRound(round)) && |d.1| == 48 - CommunitySize(NextRound(round))
  {
    if round == Preflop {
      FlopMovesCards(deck);
    } else if round != Showdown {
      PopMovesCard(community, deck);
    }
  }

  /**
   * The rest of processAIAction once the bet is made: when the round is
   * complete, the current bet is reset and the next street dealt (or the
   * showdown held); otherwise the turn goes back to the player.
   */
  function AiBets(s: ClientState, b: Bet): (r: ClientState)
    requires RoundComplete(s.actions, b.kind) ==> CanDeal(s)
    ensures r.actions == s.actions + [AiRecord(b)]
    ensures r.round == (if RoundComplete(s.actions, b.kind) then NextRound(s.round) else s.round)
    ensures r.playerCards == s.playerCards && r.aiCards == s.aiCards
  {
    if RoundComplete(s.actions, b.kind) then
      if s.round == River then
        HandleShowdown(s, AiRecord(b), b.chips)
      else
        var (community, deck) := DealNext(s.round, s.communityCards, s.deck);
        Continue(s, b, AiRecord(b), NextRound(s.round), community, deck, 0)
    else
      Continue(s, b, AiRecord(b), s.round, s.communityCards, s.deck, b.currentBet)
  }

  /** processAIAction (its state update). */
  function ProcessAIAction(s: ClientState, act: Move, amount: int): (r: ClientState)
    requires AiPre(s, act, amount)
    ensures |r.actions| == |s.actions| + 1 && r.actions[..|s.actions|] == s.actions &&
            r.actions[|s.actions|].player == Ai &&
            r.actions[|s.actions|].kind == (if act == Fold then Fold else AiBet(s, act, amount).kind)
    ensures act == Fold ==> r.playerChips == s.playerChips + s.pot && r.aiChips == s.aiChips &&
                            r.pot == 0 && r.ended && r.winner == Some(Player1) && r.currentPlayer.None?
    ensures act != Fold ==> r.round == (if RoundComplete(s.actions, AiBet(s, act, amount).kind)
                                        then NextRound(s.round) else s.round)
    ensures r.playerCards == s.playerCards && r.aiCards == s.aiCards
  {
    if act == Fold then
      s.(ended := true, winner := Some(Player1), pot := 0, currentPlayer := None,
         playerChips := s.playerChips + s.pot,
         actions := s.actions + [GameAction(Fold, None, Ai)])
    else
      AiBets(s, AiBet(s, act, amount))
  }

  /** handleShowdown: evaluate both hands, pay the pot the state held before the AI's last action. */
  function HandleShowdown(prev: ClientState, last: GameAction, finalAiChips: int): (r: ClientState)
    requires |prev.playerCards + prev.communityCards| >= 5 && |prev.aiCards + prev.communityCards| >= 5
    ensures r.evaluations.Some? &&
            r.evaluations.value.player == EvaluateHand(prev.playerCards + prev.communityCards) &&
            r.evaluations.value.ai == EvaluateHand(prev.aiCards + prev.communityCards)
    ensures r.winner == ShowdownWinner(r.evaluations.value.player, r.evaluations.value.ai)
    ensures Total(r) == prev.playerChips + finalAiChips + prev.pot && r.pot == 0
    ensures r.winner == Some(Player1) ==> r.playerChips == prev.playerChips + prev.pot && r.aiChips == finalAiChips
    ensures r.winner == Some(Ai) ==> r.playerChips == prev.playerChips && r.aiChips == finalAiChips + prev.pot
    ensures r.ended && r.round == Showdown && r.currentPlayer.None? && r.actions == prev.actions + [last]
    ensures r.playerCards == prev.playerCards && r.aiCards == prev.aiCards &&
            r.communityCards == prev.communityCards && r.deck == prev.deck
  {
    var ph := EvaluateHand(prev.playerCards + prev.communityCards);
    var ah := EvaluateHand(prev.aiCards + prev.communityCards);
    var w := ShowdownWinner(ph, ah);
    var chips := Settle(w, prev.playerChips, finalAiChips, prev.pot);
    prev.(playerChips := chips.0, aiChips := chips.1, pot := 0,
          actions := prev.actions + [last], round := Showdown, ended := true,
          winner := w, currentPlayer := None, evaluations := Some(Evaluations(ph, ah)))
  }

  /**
   * The showdown's winner holds the better evaluation of its seven cards:
   * the higher category, then the highCard later in NameOrder; on equal
   * category and highCard the pot is split, the odd chip to the AI.
   */
  lemma ShowdownOutcome(prev: ClientState, last: GameAction, finalAiChips: int)
    requires |prev.playerCards + prev.communityCards| >= 5 && |prev.aiCards + prev.communityCards| >= 5
    ensures var r := HandleShowdown(prev, last, finalAiChips);
      var ph := EvaluateHand(prev.playerCards + prev.communityCards);
      var ah := EvaluateHand(prev.aiCards + prev.communityCards);
      (r.winner == Some(Player1) <==>
         ph.rank > ah.rank || (ph.rank == ah.rank && NameOrder(ph.highCard) > NameOrder(ah.highCard))) &&
      (r.winner == Some(Ai) <==>
         ah.rank > ph.rank || (ph.rank == ah.rank && NameOrder(ah.highCard) > NameOrder(ph.highCard))) &&
      (r.winner.None? <==> ph.rank == ah.rank && ph.highCard == ah.highCard) &&
      (r.winner.None? ==> r.playerChips == prev.playerChips + prev.pot / 2 &&
                          r.aiChips == finalAiChips + (prev.pot - prev.pot / 2))
  {
    var ph := EvaluateHand(prev.playerCards + prev.communityCards);
    var ah := EvaluateHand(prev.aiCards + prev.communityCards);
    ShowdownWinnerSpec(ph, ah);
  }

  /** An AI fold pays the pot to the player and empties it: the table keeps its chips. */
  lemma AiFoldPaysPot(s: ClientState, amount: int)
    ensures var r := ProcessAIAction(s, Fold, amount);
      Total(r) == Total(s) && r.playerChips == s.playerChips + s.pot && r.pot == 0
  {
  }

  /** The AI's action closes the river, so the hand goes to the showdown. */
  predicate ClosesRiver(s: ClientState, act: Move, amount: int)
  {
    act != Fold && s.round == River && RoundComplete(s.actions, AiBet(s, act, amount).kind)
  }

  /**
   * After the bet, the chips the state ends with: the bet's pot and stack,
   * except at the showdown, which pays the pot of the state before the bet.
   */
  lemma AiBetsChips(s: ClientState, b: Bet)
    requires RoundComplete(s.actions, b.kind) ==> CanDeal(s)
    ensures var r := AiBets(s, b);
      if s.round == River && RoundComplete(s.actions, b.kind)
      then Total(r) == s.playerChips + b.chips + s.pot && r.pot == 0 &&
           (s.pot >= 0 ==> r.aiChips >= b.chips)
      else r.playerChips == s.playerChips && r.aiChips == b.chips && r.pot == b.pot
  {
    if s.round == River && RoundComplete(s.actions, b.kind) {
      assert AiBets(s, b) == HandleShowdown(s, AiRecord(b), b.chips);
    }
  }

  /**
   * Every AI action keeps the chips on the table, except the one that
   * closes the river: the showdown pays the pot as it was before that
   * action, so what the AI put in with it is lost.
   */
  lemma AiChipAccounting(s: ClientState, act: Move, amount: int)
    requires AiPre(s, act, amount)
    ensures !ClosesRiver(s, act, amount) ==> Total(ProcessAIAction(s, act, amount)) == Total(s)
    ensures ClosesRiver(s, act, amount) ==>
              Total(ProcessAIAction(s, act, amount)) == Total(s) - (s.aiChips - AiBet(s, act, amount).chips)
  {
    if act != Fold {
      AiBetsChips(s, AiBet(s, act, amount));
    }
  }

  /**
   * The loss is real: an AI call that closes the river with a bet standing
   * removes the called chips from the table.
   */
  lemma ShowdownLosesCall(s: ClientState, amount: int)
    requires s.round == River && s.currentBet > 0 && s.aiChips > 0
    requires LastBy(s.actions, Player1).Some? && LastBy(s.actions, Player1).value.kind == Call
    requires |s.playerCards + s.communityCards| >= 5 && |s.aiCards + s.communityCards| >= 5
    ensures Total(ProcessAIAction(s, Call, amount)) == Total(s) - Min(s.currentBet, s.aiChips) < Total(s)
  {
    assert ClosesRiver(s, Call, amount);
    AiChipAccounting(s, Call, amount);
  }

  /** From a non-negative stack, bet and pot, the AI's stack stays non-negative. */
  lemma AiStackNonNegative(s: ClientState, act: Move, amount: int)
    requires AiPre(s, act, amount)
    requires s.aiChips >= 0 && s.currentBet >= 0 && s.pot >= 0
    ensures ProcessAIAction(s, act, amount).aiChips >= 0
  {
    if act != Fold {
      AiBetsChips(s, AiBet(s, act, amount));
    }
  }

  /**
   * Closing a betting round deals the next street from the end of the
   * deck: three cards, last first, for the flop; one card for the turn and
   * the river. The current bet is reset.
   */
  lemma AiDeals(s: ClientState, b: Bet)
    requires CanDeal(s) && RoundComplete(s.actions, b.kind)
    ensures var r := AiBets(s, b); var d := s.deck; var n := |d|;
      (s.round != River ==> (r.communityCards, r.deck) == DealNext(s.round, s.communityCards, d) && r.currentBet == 0) &&
      (s.round == Preflop && n >= 3 ==> r.communityCards == [d[n - 1], d[n - 2], d[n - 3]] && r.deck == d[..n - 3]) &&
      ((s.round == Flop || s.round == Turn) ==>
         n >= 1 && r.communityCards == s.communityCards + [d[n - 1]] && r.deck == d[..n - 1]) &&
      (s.round == Showdown ==> r.communityCards == s.communityCards && r.deck == d)
  {
  }

  /** A state whose cards are those of a valid one, moved between board and deck, is valid. */
  lemma CardsMovedKeepValid(s: ClientState, r: ClientState)
    requires ClientValid(s)
    requires r.playerCards == s.playerCards && r.aiCards == s.aiCards
    requires multiset(r.communityCards) + multiset(r.deck) == multiset(s.communityCards) + multiset(s.deck)
    requires |r.communityCards| == CommunitySize(r.round) && |r.deck| == 48 - CommunitySize(r.round)
    ensures ClientValid(r)
  {
    var h := s.playerCards + s.aiCards;
    calc {
      multiset(r.playerCards + r.aiCards + r.communityCards + r.deck);
      multiset(h + r.communityCards) + multiset(r.deck);
      multiset(h) + multiset(r.communityCards) + multiset(r.deck);
      multiset(h) + (multiset(r.communityCards) + multiset(r.deck));
      multiset(h) + (multiset(s.communityCards) + multiset(s.deck));
      multiset(h) + multiset(s.communityCards) + multiset(s.deck);
      multiset(h + s.communityCards) + multiset(s.deck);
      multiset(s.playerCards + s.aiCards + s.communityCards + s.deck);
    }
  }

  /** An AI action keeps every card in play: one full deck between hands, board and deck. */
  lemma AiKeepsValid(s: ClientState, act: Move, amount: int)
    requires ClientValid(s)
    ensures AiPre(s, act, amount)
    ensures ClientValid(ProcessAIAction(s, act, amount))
  {
    ValidCanDeal(s, act, amount);
    if act == Fold {
      CardsMovedKeepValid(s, ProcessAIAction(s, act, amount));
    } else {
      var b := AiBet(s, act, amount);
      if RoundComplete(s.actions, b.kind) && s.round != Showdown && s.round != River {
        AiDealKeepsValid(s, b);
      } else {
        AiKeepsBoard(s, b);
        CardsMovedKeepValid(s, AiBets(s, b));
      }
    }
  }

  /** Without a street to deal, the board and the deck stay as they are. */
  lemma AiKeepsBoard(s: ClientState, b: Bet)
    requires RoundComplete(s.actions, b.kind) ==> CanDeal(s)
    requires !(RoundComplete(s.actions, b.kind) && s.round != Showdown && s.round != River)
    ensures AiBets(s, b).communityCards == s.communityCards && AiBets(s, b).deck == s.deck
    ensures AiBets(s, b).round == s.round || AiBets(s, b).round == Showdown
  {
  }

  /** Dealing the next street keeps every card in play. */
  lemma AiDealKeepsValid(s: ClientState, b: Bet)
    requires ClientValid(s) && CanDeal(s)
    requires RoundComplete(s.actions, b.kind) && s.round != Showdown && s.round != River
    ensures ClientValid(AiBets(s, b))
  {
    AiDeals(s, b);
    DealNextMovesCards(s.round, s.communityCards, s.deck);
    CardsMovedKeepValid(s, AiBets(s, b));
  }

  /**
   * The opening of a hand: the big blind calls and pays the 20 of the bet
   * again, the small blind calls 20 as well, and the flop is dealt with a
   * pot of 70 of which the player put in 40 and the AI 30.
   */
  lemma OpeningCalls(maxChips: int, shuffled: seq<Card>, amount: Option<int>, aiAmount: int)
    requires |shuffled| == 52 && maxChips >= 40
    ensures var s0 := PostBlinds(InitialState(maxChips), shuffled);
      var s1 := HandlePlayerAction(s0, Call, amount);
      var s2 := ProcessAIAction(s1, Call, aiAmount);
      s1.playerChips == maxChips - 40 && s1.pot == 50 && s1.currentPlayer == Some(Ai) &&
      s2.aiChips == maxChips - 30 && s2.pot == 70 && s2.round == Flop &&
      s2.communityCards == [shuffled[47], shuffled[46], shuffled[45]] && s2.currentPlayer == Some(Player1)
  {
    OpeningPlayerCall(maxChips, shuffled, amount);
    PreflopCallDealsFlop(HandlePlayerAction(PostBlinds(InitialState(maxChips), shuffled), Call, amount), aiAmount);
  }

  /** The big blind's call preflop: it pays the 20 of the current bet again, and the turn passes to the AI. */
  lemma OpeningPlayerCall(maxChips: int, shuffled: seq<Card>, amount: Option<int>)
    requires |shuffled| == 52 && maxChips >= 40
    ensures var s1 := HandlePlayerAction(PostBlinds(InitialState(maxChips), shuffled), Call, amount);
      s1.playerChips == maxChips - 40 && s1.aiChips == maxChips - 10 && s1.pot == 50 &&
      s1.currentPlayer == Some(Ai) && s1.currentBet == 20 && s1.round == Preflop && s1.deck == shuffled[..48] &&
      LastBy(s1.actions, Player1).Some? && LastBy(s1.actions, Player1).value.kind == Call
  {
    var s0 := PostBlinds(InitialState(maxChips), shuffled);
    var s1 := HandlePlayerAction(s0, Call, amount);
    assert s1 == s0.(playerChips := maxChips - 40, pot := 50, currentPlayer := Some(Ai),
                     actions := s0.actions + [GameAction(Call, RecordedAmount(Call, amount), Player1)]);
    assert LastBy(s1.actions, Player1) == Some(GameAction(Call, RecordedAmount(Call, amount), Player1));
  }

  /**
   * An AI call after the player's call preflop closes the round: the AI
   * pays the current bet, the flop is dealt from the end of the deck and
   * the turn goes back to the player.
   */
  lemma PreflopCallDealsFlop(s: ClientState, aiAmount: int)
    requires s.round == Preflop && |s.deck| >= 3 && 0 <= s.currentBet <= s.aiChips
    requires LastBy(s.actions, Player1).Some? && LastBy(s.actions, Player1).value.kind == Call
    ensures var r := ProcessAIAction(s, Call, aiAmount); var d := s.deck; var n := |d|;
      r.aiChips == s.aiChips - s.currentBet && r.pot == s.pot + s.currentBet && r.round == Flop &&
      r.communityCards == [d[n - 1], d[n - 2], d[n - 3]] && r.deck == d[..n - 3] && r.currentPlayer == Some(Player1)
  {
    var b := AiBet(s, Call, aiAmount);
    assert b.kind == Call && b.chips == s.aiChips - s.currentBet;
    AiDeals(s, b);
  }

  /** simulateAIAction once its draws are given: the choice of GameTypes, then processAIAction. */
  function SimulateAIAction(s: ClientState, pick: nat, step: nat): (r: ClientState)
    requires pick < 5 && step < 3
    requires AiPre(s, SimulatedChoice(s.actions, s.aiChips, pick, step).0,
                   SimulatedChoice(s.actions, s.aiChips, pick, step).1)
    ensures |r.actions| == |s.actions| + 1
    ensures var lp := LastBy(s.actions, Player1);
      lp.Some? && (lp.value.kind == Raise || lp.value.kind == AllIn) ==> r.actions[|s.actions|].kind != Check
  {
    var c := SimulatedChoice(s.actions, s.aiChips, pick, step);
    ProcessAIAction(s, c.0, c.1)
  }
}
