/** src/simulator/simulation.py: the exponential-growth projection and the
    Baseline Harvest Engine, whose phase flag picks the vault share of each
    withdrawal and is cleared whenever the pot falls below the cap. */
module Simulator {
  import opened Ledger
  import opened Growth

  /** The closed-form projection: `periods + 1` amounts, the `k`-th being
      `P * (1 + r)^k` recomputed from `P`. */
  method SimulateExponentialGrowth(P: real, r: real, periods: int) returns (amounts: seq<real>)
    ensures |amounts| == RangeCount(periods) + 1
    ensures amounts[0] == P
    ensures IsGrowthSeries(amounts, P, r)
    ensures amounts == Compounded(P, r, RangeCount(periods))
  {
    amounts := [P];
    var n := 1;
    while n <= periods
      invariant 1 <= n <= RangeCount(periods) + 1
      invariant |amounts| == n
      invariant IsGrowthSeries(amounts, P, r)
    {
      var A := P * Pow(1.0 + r, n);
      assert A == Amount(P, r, n);
      amounts := amounts + [A];
      n := n + 1;
    }
    ClosedFormIsCompounded(amounts, P, r, RangeCount(periods));
  }

  /** The engine's fixed parameters: weekly return rate, cap, and the vault
      percentages of the growth and harvest phases. */
  datatype Engine = Engine(
    weeklyReturnRate: real,
    engineCap: real,
    growthVaultPct: real,
    harvestVaultPct: real)

  /** The share of `amount` that a fraction selects: `pct / 100` for the
      vault, `1 - pct / 100` for spend. */
  function Portion(amount: real, fraction: real): real
  {
    amount * fraction
  }

  /** The running variables of the loop. */
  datatype EngineState = EngineState(pot: real, vault: real, spend: real, inHarvestPhase: bool)

  /** The state before week 1: `spend` starts at zero and the flag is clear. */
  function Start(initialPot: real, initialVault: real): EngineState
  {
    EngineState(initialPot, initialVault, 0.0, false)
  }

  /** One week's transition: the new state and the week's profit and withdrawal. */
  datatype StepResult = StepResult(next: EngineState, profit: real, withdrawal: real)

  /** The vault percentage applying to a withdrawal made with the given flag. */
  function VaultPct(e: Engine, inHarvestPhase: bool): (pct: real)
    ensures pct == e.growthVaultPct || pct == e.harvestVaultPct
    ensures 0.0 <= e.growthVaultPct <= 100.0 && 0.0 <= e.harvestVaultPct <= 100.0 ==> 0.0 <= pct <= 100.0
  {
    if inHarvestPhase then e.harvestVaultPct else e.growthVaultPct
  }

  /** One week of the loop body. */
  function Step(e: Engine, s: EngineState): (r: StepResult)
    ensures r.profit == Profit(s.pot, e.weeklyReturnRate)
    ensures r.withdrawal == Excess(s.pot + r.profit - e.engineCap)
    ensures r.next.pot <= e.engineCap
    ensures r.withdrawal > 0.0 ==> r.next.inHarvestPhase
  {
    var profit := Profit(s.pot, e.weeklyReturnRate);
    var pot := s.pot + profit;
    if pot < e.engineCap then
      StepResult(s.(pot := pot, inHarvestPhase := false), profit, 0.0)
    else
      var excess := pot - e.engineCap;
      if excess > 0.0 then
        var vaultAllocation := VaultPct(e, s.inHarvestPhase) / 100.0;
        StepResult(
          EngineState(e.engineCap,
                      s.vault + Portion(excess, vaultAllocation),
                      s.spend + Portion(excess, 1.0 - vaultAllocation),
                      true),
          profit, excess)
      else
        StepResult(s.(pot := pot), profit, 0.0)
  }

  /** The state after `k` weeks starting from `s`, stepping forward. */
  function Run(e: Engine, s: EngineState, k: nat): (r: EngineState)
    ensures k > 0 ==> r.pot <= e.engineCap
    decreases k
  {
    if k == 0 then s else Run(e, Step(e, s).next, k - 1)
  }

  /** The record the loop appends for week `week` after a step. */
  function RecordOf(week: int, st: StepResult): WeekRecord
  {
    WeekRecord(week, st.next.pot, st.next.vault, st.next.spend, st.profit, st.withdrawal)
  }

  /** The history of the first `n` weeks, built as the loop builds it. */
  function History(e: Engine, s0: EngineState, n: nat): (h: seq<WeekRecord>)
    ensures |h| == n
    decreases n
  {
    if n == 0 then []
    else History(e, s0, n - 1) + [RecordOf(n, Step(e, Run(e, s0, n - 1)))]
  }

  /** Read off a history: before week `k + 1` the engine is in its harvest
      phase iff some earlier week withdrew and no week since then ended with
      the pot below the cap. */
  predicate InHarvestPhase(h: seq<WeekRecord>, k: nat, cap: real)
    requires k <= |h|
  {
    exists j :: 0 <= j < k && h[j].withdrawal > 0.0 && forall i :: j < i < k ==> h[i].pot >= cap
  }

  // ---------------------------------------------------------------------
  // The loop, proved equal to History.
  // ---------------------------------------------------------------------

  method SimulateBaselineHarvestEngine(
    initialPot: real, weeklyReturnRate: real, engineCap: real, totalWeeks: int,
    initialVault: real, growthVaultPct: real, harvestVaultPct: real)
    returns (history: seq<WeekRecord>)
    ensures history == History(Engine(weeklyReturnRate, engineCap, growthVaultPct, harvestVaultPct),
                               Start(initialPot, initialVault), RangeCount(totalWeeks))
    ensures |history| == RangeCount(totalWeeks)
    ensures forall k :: 0 <= k < |history| ==> history[k].week == k + 1 && history[k].pot <= engineCap
  {
    ghost var e := Engine(weeklyReturnRate, engineCap, growthVaultPct, harvestVaultPct);
    ghost var s0 := Start(initialPot, initialVault);
    var pot := initialPot;
    var vault := initialVault;
    var spend := 0.0;
    history := [];
    var inHarvestPhase := false;

    var week := 1;
    while week <= totalWeeks
      invariant 1 <= week <= RangeCount(totalWeeks) + 1
      invariant history == History(e, s0, week - 1)
      invariant EngineState(pot, vault, spend, inHarvestPhase) == Run(e, s0, week - 1)
    {
      ghost var st := Step(e, EngineState(pot, vault, spend, inHarvestPhase));
      var profit := Profit(pot, weeklyReturnRate);
      pot := pot + profit;
      var withdrawal := 0.0;
      if pot < engineCap {
        inHarvestPhase := false;
        assert st.next == EngineState(pot, vault, spend, inHarvestPhase) && st.withdrawal == withdrawal;
      } else {
        var excess := pot - engineCap;
        if excess > 0.0 {
          withdrawal := excess;
          var vaultAllocation;
          if !inHarvestPhase {
            vaultAllocation := growthVaultPct / 100.0;
            inHarvestPhase := true;
          } else {
            vaultAllocation := harvestVaultPct / 100.0;
          }
          vault := vault + Portion(withdrawal, vaultAllocation);
          spend := spend + Portion(withdrawal, 1.0 - vaultAllocation);
          pot := engineCap;
          assert st.next == EngineState(pot, vault, spend, inHarvestPhase) && st.withdrawal == withdrawal;
        } else {
          assert st.next == EngineState(pot, vault, spend, inHarvestPhase) && st.withdrawal == withdrawal;
        }
      }
      RunStep(e, s0, week - 1);
      history := history + [WeekRecord(week, pot, vault, spend, profit, withdrawal)];
      week := week + 1;
    }
    HistoryWeeks(e, s0, |history|);
    PotBelowCap(e, s0, |history|);
  }

  /** What one step does, case by case. */
  lemma StepCases(e: Engine, s: EngineState)
    ensures var st := Step(e, s);
      var grown := s.pot + st.profit;
      var a := VaultPct(e, s.inHarvestPhase) / 100.0;
      && st.profit == Profit(s.pot, e.weeklyReturnRate)
      && st.withdrawal == Excess(grown - e.engineCap)
      && st.next.pot <= e.engineCap
      && (st.withdrawal == 0.0 ==> st.next.pot == grown && st.next.vault == s.vault && st.next.spend == s.spend)
      && (st.withdrawal > 0.0 ==>
            && st.next.pot == e.engineCap
            && st.next.vault == s.vault + Portion(st.withdrawal, a)
            && st.next.spend == s.spend + Portion(st.withdrawal, 1.0 - a)
            && st.next.inHarvestPhase)
      && (grown < e.engineCap ==> !st.next.inHarvestPhase)
      && (grown == e.engineCap ==> st.next.inHarvestPhase == s.inHarvestPhase)
  {
  }

  // ---------------------------------------------------------------------
  // Properties of History.
  // ---------------------------------------------------------------------

  /** Running `k + 1` weeks is running `k` weeks and then one more. */
  lemma {:induction false} RunStep(e: Engine, s: EngineState, k: nat)
    ensures Run(e, s, k + 1) == Step(e, Run(e, s, k)).next
    decreases k
  {
    if k > 0 {
      RunStep(e, Step(e, s).next, k - 1);
    }
  }

  /** Week `k + 1` of any history is the step taken from the state after `k` weeks. */
  lemma {:induction false} HistoryAt(e: Engine, s0: EngineState, n: nat, k: nat)
    requires k < n
    ensures History(e, s0, n)[k] == RecordOf(k + 1, Step(e, Run(e, s0, k)))
    decreases n
  {
    if k < n - 1 {
      HistoryAt(e, s0, n - 1, k);
    }
  }

  /** The balances of record `k` are those of the state after `k + 1` weeks. */
  lemma RecordIsState(e: Engine, s0: EngineState, n: nat, k: nat)
    requires k < n
    ensures History(e, s0, n)[k].pot == Run(e, s0, k + 1).pot
    ensures History(e, s0, n)[k].vault == Run(e, s0, k + 1).vault
    ensures History(e, s0, n)[k].spend == Run(e, s0, k + 1).spend
  {
    HistoryAt(e, s0, n, k);
    RunStep(e, s0, k);
  }

  /** Hence the opening balances of week `k + 1` are those after `k` weeks. */
  lemma OpeningIsState(e: Engine, s0: EngineState, n: nat, k: nat)
    requires k <= n
    ensures OpeningPot(s0.pot, History(e, s0, n), k) == Run(e, s0, k).pot
    ensures OpeningVault(s0.vault, History(e, s0, n), k) == Run(e, s0, k).vault
    ensures OpeningSpend(s0.spend, History(e, s0, n), k) == Run(e, s0, k).spend
  {
    if k > 0 {
      RecordIsState(e, s0, n, k - 1);
    }
  }

  /** The history holds weeks 1 to n in order. */
  lemma HistoryWeeks(e: Engine, s0: EngineState, n: nat)
    ensures |History(e, s0, n)| == n
    ensures forall k :: 0 <= k < n ==> History(e, s0, n)[k].week == k + 1
  {
    forall k | 0 <= k < n
      ensures History(e, s0, n)[k].week == k + 1
    {
      HistoryAt(e, s0, n, k);
    }
  }

  /** After every week the pot is at most the cap. */
  lemma PotBelowCap(e: Engine, s0: EngineState, n: nat)
    ensures forall k :: 0 <= k < n ==> History(e, s0, n)[k].pot <= e.engineCap
  {
    forall k | 0 <= k < n
      ensures History(e, s0, n)[k].pot <= e.engineCap
    {
      HistoryAt(e, s0, n, k);
    }
  }

  /** A week's profit is its opening pot times the weekly rate; its withdrawal
      is the excess of the grown pot over the cap, or zero. A week without a
      withdrawal keeps the grown pot and leaves vault and spend as they were. */
  lemma WithdrawalIsExcess(e: Engine, s0: EngineState, n: nat, k: nat)
    requires k < n
    ensures var h := History(e, s0, n);
      && h[k].profit == Profit(OpeningPot(s0.pot, h, k), e.weeklyReturnRate)
      && h[k].withdrawal == Excess(OpeningPot(s0.pot, h, k) + h[k].profit - e.engineCap)
      && (h[k].withdrawal == 0.0 ==>
            && h[k].pot == OpeningPot(s0.pot, h, k) + h[k].profit
            && h[k].vault == OpeningVault(s0.vault, h, k)
            && h[k].spend == OpeningSpend(s0.spend, h, k))
  {
    HistoryAt(e, s0, n, k);
    OpeningIsState(e, s0, n, k);
    StepCases(e, Run(e, s0, k));
  }

  /** The flag after a step: set by a withdrawal, kept while the pot sits
      exactly at the cap, cleared otherwise. */
  lemma FlagStep(e: Engine, s: EngineState, week: int)
    ensures var r := RecordOf(week, Step(e, s));
      Step(e, s).next.inHarvestPhase == (r.withdrawal > 0.0 || (r.pot >= e.engineCap && s.inHarvestPhase))
  {
    StepCases(e, s);
  }

  /** The same rule read off the history: the flag after `k` weeks from the
      flag after `k - 1` weeks and record `k - 1`. */
  lemma FlagAfterWeek(e: Engine, s0: EngineState, n: nat, k: nat)
    requires 0 < k <= n
    ensures var r := History(e, s0, n)[k - 1];
      Run(e, s0, k).inHarvestPhase == (r.withdrawal > 0.0 || (r.pot >= e.engineCap && Run(e, s0, k - 1).inHarvestPhase))
  {
    HistoryAt(e, s0, n, k - 1);
    RunStep(e, s0, k - 1);
    FlagStep(e, Run(e, s0, k - 1), k);
  }

  /** The history-side counterpart: the phase shown by the first `k` records
      follows the same rule from the first `k - 1`. */
  lemma PhaseStep(h: seq<WeekRecord>, k: nat, cap: real)
    requires 0 < k <= |h|
    ensures InHarvestPhase(h, k, cap) == (h[k - 1].withdrawal > 0.0 || (h[k - 1].pot >= cap && InHarvestPhase(h, k - 1, cap)))
  {
    if h[k - 1].withdrawal > 0.0 {
      assert InHarvestPhase(h, k, cap);
    } else if h[k - 1].pot < cap {
      forall j | 0 <= j < k && h[j].withdrawal > 0.0
        ensures exists i :: j < i < k && h[i].pot < cap
      {
        assert j < k - 1 && h[k - 1].pot < cap;
      }
    } else {
      if InHarvestPhase(h, k - 1, cap) {
        var j :| 0 <= j < k - 1 && h[j].withdrawal > 0.0 && forall i :: j < i < k - 1 ==> h[i].pot >= cap;
        assert forall i :: j < i < k ==> h[i].pot >= cap;
      }
      if InHarvestPhase(h, k, cap) {
        var j :| 0 <= j < k && h[j].withdrawal > 0.0 && forall i :: j < i < k ==> h[i].pot >= cap;
        assert j < k - 1;
        assert forall i :: j < i < k - 1 ==> h[i].pot >= cap;
      }
    }
  }

  /** The phase flag after `k` weeks is exactly what the history shows:
      some withdrawal happened and the pot has not dropped below the cap since. */
  lemma {:induction false} FlagFromHistory(e: Engine, s0: EngineState, n: nat, k: nat)
    requires !s0.inHarvestPhase
    requires k <= n
    ensures Run(e, s0, k).inHarvestPhase == InHarvestPhase(History(e, s0, n), k, e.engineCap)
    decreases k
  {
    if k > 0 {
      FlagFromHistory(e, s0, n, k - 1);
      FlagAfterWeek(e, s0, n, k);
      PhaseStep(History(e, s0, n), k, e.engineCap);
    }
  }

  /** On a withdrawal week the pot is clamped to the cap and the withdrawal
      is split: `a` percent to the vault, the rest to spend, where `a` is the
      growth percentage unless the history shows the engine already in its
      harvest phase. The two shares add up to the withdrawal. */
  lemma WithdrawalSplit(e: Engine, initialPot: real, initialVault: real, n: nat, k: nat)
    requires k < n
    ensures var s0 := Start(initialPot, initialVault);
      var h := History(e, s0, n);
      var a := VaultPct(e, InHarvestPhase(h, k, e.engineCap)) / 100.0;
      h[k].withdrawal > 0.0 ==>
        && h[k].pot == e.engineCap
        && h[k].vault == OpeningVault(s0.vault, h, k) + Portion(h[k].withdrawal, a)
        && h[k].spend == OpeningSpend(s0.spend, h, k) + Portion(h[k].withdrawal, 1.0 - a)
        && (h[k].vault - OpeningVault(s0.vault, h, k)) + (h[k].spend - OpeningSpend(s0.spend, h, k)) == h[k].withdrawal
  {
    var s0 := Start(initialPot, initialVault);
    HistoryAt(e, s0, n, k);
    OpeningIsState(e, s0, n, k);
    FlagFromHistory(e, s0, n, k);
    StepCases(e, Run(e, s0, k));
    PortionsSum(History(e, s0, n)[k].withdrawal, VaultPct(e, Run(e, s0, k).inHarvestPhase) / 100.0);
  }

  /** The vault and spend shares of a withdrawal add up to all of it. */
  lemma PortionsSum(amount: real, fraction: real)
    ensures Portion(amount, fraction) + Portion(amount, 1.0 - fraction) == amount
  {
  }

  /** With both percentages in [0, 100], vault and spend never decrease. */
  lemma BalancesNonDecreasing(e: Engine, s0: EngineState, n: nat, k: nat)
    requires 0.0 <= e.growthVaultPct <= 100.0 && 0.0 <= e.harvestVaultPct <= 100.0
    requires k < n
    ensures var h := History(e, s0, n);
      h[k].vault >= OpeningVault(s0.vault, h, k) && h[k].spend >= OpeningSpend(s0.spend, h, k)
  {
    HistoryAt(e, s0, n, k);
    OpeningIsState(e, s0, n, k);
    var s := Run(e, s0, k);
    var st := Step(e, s);
    if st.withdrawal > 0.0 {
      var a := VaultPct(e, s.inHarvestPhase) / 100.0;
      PortionNonNegative(st.withdrawal, a);
      PortionNonNegative(st.withdrawal, 1.0 - a);
    }
  }

  lemma PortionNonNegative(amount: real, fraction: real)
    requires amount >= 0.0 && 0.0 <= fraction
    ensures Portion(amount, fraction) >= 0.0
  {
  }

  /** Hence every record keeps at least the initial vault and a non-negative spend. */
  lemma {:induction false} BalancesAtLeastInitial(e: Engine, initialPot: real, initialVault: real, n: nat, k: nat)
    requires 0.0 <= e.growthVaultPct <= 100.0 && 0.0 <= e.harvestVaultPct <= 100.0
    requires k < n
    ensures var h := History(e, Start(initialPot, initialVault), n);
      h[k].vault >= initialVault && h[k].spend >= 0.0
    decreases k
  {
    var s0 := Start(initialPot, initialVault);
    BalancesNonDecreasing(e, s0, n, k);
    if k > 0 {
      BalancesAtLeastInitial(e, initialPot, initialVault, n, k - 1);
    }
  }
}
