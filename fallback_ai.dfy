/**
 * `createFallbackDecision`: the decision table the AI hook uses when the
 * agent service does not answer. Its `Math.random()` draws are the
 * parameters r1 (the draw inside a branch) and r2 (the draw for the river
 * all-in override).
 */
module FallbackAi {
  import opened Options
  import opened GameTypes

  /** `AiDecision` without its constant `reasoning` text. */
  datatype Decision = Decision(action: Move, amount: Option<int>, confidence: real)

  /** `Math.floor(pot * 0.3)` for an integer pot, with 0.3 taken exactly. */
  function ThirtyPercent(pot: int): (r: int)
    ensures 10 * r <= 3 * pot < 10 * r + 10
  {
    (3 * pot) / 10
  }

  /** The three locals before the all-in override: action, amount (0 for none), confidence. */
  function BaseDecision(round: Round, pot: int, aiChips: int, actions: seq<GameAction>, r1: real): (d: (Move, int, real))
  {
    var last := LastBy(actions, Player1);
    if last.Some? && (last.value.kind == Raise || last.value.kind == AllIn) then
      if r1 < 0.2 then (Fold, 0, 0.7)
      else if r1 < 0.7 then (Call, OrDefault(last.value.amount, 20), 0.6)
      else (Raise, Min(OrDefault(last.value.amount, 20) * 2, aiChips), 0.8)
    else if round == Turn || round == River then
      if r1 < 0.6 then (Check, 0, 0.5)
      else (Raise, Min(Max(20, ThirtyPercent(pot)), aiChips), 0.6)
    else (Check, 0, 0.5)
  }

  /** createFallbackDecision */
  function FallbackDecision(round: Round, pot: int, aiChips: int, actions: seq<GameAction>, r1: real, r2: real): (d: Decision)
    ensures d.amount.Some? ==> d.amount.value > 0
    ensures d.action != Call && d.amount.Some? ==> d.amount.value <= aiChips
    ensures aiChips <= 50 ==> d.action == AllIn
  {
    var (action, amount, confidence) :=
      if aiChips <= 50 || (round == River && r2 < 0.1) then (AllIn, aiChips, 0.9)
      else BaseDecision(round, pot, aiChips, actions, r1);
    Decision(action, if amount > 0 then Some(amount) else None, confidence)
  }

  /** After a raise or all-in by the player: fold, call its amount (or 20), or raise double, capped by the stack. */
  lemma FacingRaise(round: Round, pot: int, aiChips: int, actions: seq<GameAction>, r1: real, r2: real)
    requires LastBy(actions, Player1).Some?
    requires LastBy(actions, Player1).value.kind == Raise || LastBy(actions, Player1).value.kind == AllIn
    requires aiChips > 50 && (round != River || r2 >= 0.1)
    ensures var d := FallbackDecision(round, pot, aiChips, actions, r1, r2);
      var bet := OrDefault(LastBy(actions, Player1).value.amount, 20);
      (r1 < 0.2 ==> d == Decision(Fold, None, 0.7)) &&
      (0.2 <= r1 < 0.7 ==> d.action == Call && d.confidence == 0.6 &&
                           d.amount == (if bet > 0 then Some(bet) else None)) &&
      (0.7 <= r1 ==> d.action == Raise && d.confidence == 0.8 &&
                     (2 * bet <= aiChips ==> d.amount == (if bet > 0 then Some(2 * bet) else None)) &&
                     (2 * bet > aiChips ==> d.amount == Some(aiChips)))
  {
  }

  /** Otherwise, on the turn and the river: check, or raise 30% of the pot (at least 20), capped by the stack. */
  lemma LateStreet(round: Round, pot: int, aiChips: int, actions: seq<GameAction>, r1: real, r2: real)
    requires LastBy(actions, Player1).None? ||
             (LastBy(actions, Player1).value.kind != Raise && LastBy(actions, Player1).value.kind != AllIn)
    requires round == Turn || round == River
    requires aiChips > 50 && (round != River || r2 >= 0.1)
    ensures var d := FallbackDecision(round, pot, aiChips, actions, r1, r2);
      (r1 < 0.6 ==> d == Decision(Check, None, 0.5)) &&
      (0.6 <= r1 ==> d.action == Raise && d.confidence == 0.6 && d.amount.Some? &&
                     20 <= d.amount.value <= aiChips &&
                     d.amount.value == Min(Max(20, ThirtyPercent(pot)), aiChips))
  {
  }

  /** In every other case: check with no amount and confidence 0.5. */
  lemma DefaultCheck(round: Round, pot: int, aiChips: int, actions: seq<GameAction>, r1: real, r2: real)
    requires LastBy(actions, Player1).None? ||
             (LastBy(actions, Player1).value.kind != Raise && LastBy(actions, Player1).value.kind != AllIn)
    requires round != Turn && round != River
    requires aiChips > 50
    ensures FallbackDecision(round, pot, aiChips, actions, r1, r2) == Decision(Check, None, 0.5)
  {
  }

  /** A short stack, or the river with r2 < 0.1, goes all-in for the whole stack whatever else holds. */
  lemma AllInOverride(round: Round, pot: int, aiChips: int, actions: seq<GameAction>, r1: real, r2: real)
    requires aiChips <= 50 || (round == River && r2 < 0.1)
    ensures FallbackDecision(round, pot, aiChips, actions, r1, r2) ==
              Decision(AllIn, if aiChips > 0 then Some(aiChips) else None, 0.9)
  {
  }

  /**
   * The call amount is not capped by the stack: facing a raise of 500
   * with 100 chips, the fallback calls 500.
   */
  lemma CallExceedsStack()
    ensures var actions := [GameAction(Raise, Some(500), Player1)];
      FallbackDecision(Flop, 600, 100, actions, 0.5, 0.5) == Decision(Call, Some(500), 0.6)
  {
  }
}
