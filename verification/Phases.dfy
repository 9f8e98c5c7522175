/** The overlay phase machines of the three protocol variants, as end_overlay_round_impl drives them. */
module Phases {

  /** Crash-tolerant, high-failure-tolerant and Byzantine-tolerant. */
  datatype Variant = CT | HFT | BFT

  /** `f` is FAILURES_TOLERATED and `l` is log2n. */
  datatype Config = Config(variant: Variant, f: nat, l: nat)

  /** First is SHUFFLE (CT, BFT) or SCATTER (HFT); Second is ECHO, GATHER or AGREEMENT. */
  datatype Phase = First | Second | Aggregate

  /** `mark` is echo_start_round, gather_start_round or agreement_start_round. */
  datatype PhaseState = PhaseState(phase: Phase, mark: int, phase1Done: bool)

  const INITIAL: PhaseState := PhaseState(First, 0, false)

  predicate InOverlay(ps: PhaseState) { ps.phase != Aggregate }

  /** The phase change made at the end of `round`. */
  function EndRoundPhase(c: Config, ps: PhaseState, round: int): PhaseState {
    match c.variant
    case CT =>
      if ps.phase == First && round >= c.f + 2 * c.l + 1 then PhaseState(Second, round, false)
      else if ps.phase == Second && round >= ps.mark + c.f + 2 * c.l + 1 then ps.(phase := Aggregate)
      else ps
    case HFT =>
      if ps.phase == First && round >= c.l + c.f then PhaseState(Second, round, false)
      else if ps.phase == Second && round >= ps.mark + c.l + c.f then ps.(phase := Aggregate)
      else ps
    case BFT =>
      if ps.phase == First && round >= 2 * c.f + c.l * c.l + 1 then PhaseState(Second, round, false)
      else if ps.phase == Second && round >= ps.mark + 4 * c.f + 2 * (c.l * c.l) + 2 && ps.phase1Done then
        ps.(phase := Aggregate)
      else if ps.phase == Second && round >= ps.mark + 2 * c.f + c.l * c.l + 1 && !ps.phase1Done then
        ps.(phase1Done := true)
      else ps
  }

  /** The length of one overlay phase, counted from its starting mark. */
  function PhaseLength(c: Config): nat {
    match c.variant
    case CT => c.f + 2 * c.l + 1
    case HFT => c.l + c.f
    case BFT => 2 * c.f + c.l * c.l + 1
  }

  /** The overlay part of the number of rounds the utility budgets for a query. */
  function OverlayBudget(c: Config): nat {
    match c.variant
    case CT => 2 * c.f + 4 * c.l + 2
    case HFT => 2 * c.l + 2 * c.f
    case BFT => 6 * c.f + 3 * (c.l * c.l) + 3
  }

  /** The phase state after the end of rounds -1, 0, ..., k. */
  function PhaseAt(c: Config, k: int): PhaseState
    decreases k + 2
  {
    if k < -1 then INITIAL else EndRoundPhase(c, PhaseAt(c, k - 1), k)
  }

  /** The round at whose end aggregation starts. */
  function LastRound(c: Config): nat {
    if PhaseLength(c) == 0 then 1 else OverlayBudget(c)
  }

  /**
   * When every round is ended exactly once, the first phase ends with round PhaseLength, Crusader
   * phase 1 one phase length later, and aggregation starts at the end of the budgeted round.
   */
  lemma {:induction false} PhaseSchedule(c: Config, k: int)
    ensures PhaseAt(c, k).phase ==
            if k < PhaseLength(c) then First else if k < LastRound(c) then Second else Aggregate
    ensures k >= PhaseLength(c) ==> PhaseAt(c, k).mark == PhaseLength(c)
    ensures PhaseAt(c, k).phase1Done <==> c.variant == BFT && k >= 2 * PhaseLength(c)
    decreases k + 2
  {
    if k >= -1 {
      PhaseSchedule(c, k - 1);
    }
  }

  /**
   * The utility's budget is the round at whose end aggregation starts. The one exception, an HFT system that
   * tolerates no failure and has one node, cannot run: its two groups would be smaller than pick_proxies demands.
   */
  lemma BudgetIsExact(c: Config)
    ensures PhaseAt(c, OverlayBudget(c)).phase == Aggregate <==> !(c.variant == HFT && c.f == 0 && c.l == 0)
    ensures PhaseAt(c, OverlayBudget(c) - 1).phase != Aggregate
  {
    PhaseSchedule(c, OverlayBudget(c));
    PhaseSchedule(c, OverlayBudget(c) - 1);
  }
}
