/** src/options_simulator/simulation.py: the same exponential-growth
    projection and the older "10K" Baseline Harvest Engine, which has no phase
    flag and always splits a withdrawal evenly between vault and spend. */
module OptionsSimulator {
  import opened Ledger
  import opened Growth
  import Simulator

  /** This file's own copy of the closed-form projection. */
  method SimulateExponentialGrowth(P: real, r: real, periods: int) returns (amounts: seq<real>)
    ensures |amounts| == RangeCount(periods) + 1
    ensures amounts[0] == P
    ensures IsGrowthSeries(amounts, P, r)
    ensures amounts == Compounded(P, r, RangeCount(periods))
  {
    amounts := [P];
    var n := 1;
    while n <= periods
      invariant 1 <= n <= RangeCount(periods) + 1
      invariant |amounts| == n
      invariant IsGrowthSeries(amounts, P, r)
    {
      var A := P * Pow(1.0 + r, n);
      assert A == Amount(P, r, n);
      amounts := amounts + [A];
      n := n + 1;
    }
    ClosedFormIsCompounded(amounts, P, r, RangeCount(periods));
  }

  /** The running variables of the 10K loop. */
  datatype Account = Account(pot: real, vault: real, spend: real)

  /** The state before week 1: `spend` starts at zero. */
  function Start(initialPot: real, initialVault: real): Account
  {
    Account(initialPot, initialVault, 0.0)
  }

  /** One week's transition: the new state and the week's profit and withdrawal. */
  datatype StepResult = StepResult(next: Account, profit: real, withdrawal: real)

  /** One week of the loop body. */
  function Step(rate: real, cap: real, s: Account): (r: StepResult)
    ensures r.profit == Profit(s.pot, rate)
    ensures r.withdrawal == Excess(s.pot + r.profit - cap)
    ensures r.next.pot <= cap
    ensures r.next.vault - s.vault == r.next.spend - s.spend
  {
    var profit := Profit(s.pot, rate);
    var pot := s.pot + profit;
    if pot < cap then
      StepResult(s.(pot := pot), profit, 0.0)
    else
      var excess := pot - cap;
      if excess > 0.0 then
        StepResult(Account(cap, s.vault + excess * 0.5, s.spend + excess * 0.5), profit, excess)
      else
        StepResult(s.(pot := pot), profit, 0.0)
  }

  /** The state after `k` weeks starting from `s`, stepping forward. */
  function Run(rate: real, cap: real, s: Account, k: nat): (r: Account)
    ensures k > 0 ==> r.pot <= cap
    decreases k
  {
    if k == 0 then s else Run(rate, cap, Step(rate, cap, s).next, k - 1)
  }

  function RecordOf(week: int, st: StepResult): WeekRecord
  {
    WeekRecord(week, st.next.pot, st.next.vault, st.next.spend, st.profit, st.withdrawal)
  }

  /** The history of the first `n` weeks, built as the loop builds it. */
  function History(rate: real, cap: real, s0: Account, n: nat): (h: seq<WeekRecord>)
    ensures |h| == n
    decreases n
  {
    if n == 0 then []
    else History(rate, cap, s0, n - 1) + [RecordOf(n, Step(rate, cap, Run(rate, cap, s0, n - 1)))]
  }

  // ---------------------------------------------------------------------
  // The loop, proved equal to History.
  // ---------------------------------------------------------------------

  method Simulate10KBaselineHarvestEngine(
    initialPot: real, weeklyReturnRate: real, engineCap: real, totalWeeks: int, initialVault: real)
    returns (history: seq<WeekRecord>)
    ensures history == History(weeklyReturnRate, engineCap, Start(initialPot, initialVault), RangeCount(totalWeeks))
    ensures |history| == RangeCount(totalWeeks)
    ensures forall k :: 0 <= k < |history| ==>
      && history[k].week == k + 1
      && history[k].pot <= engineCap
      && history[k].vault - initialVault == history[k].spend
  {
    ghost var s0 := Start(initialPot, initialVault);
    var pot := initialPot;
    var vault := initialVault;
    var spend := 0.0;
    history := [];

    var week := 1;
    while week <= totalWeeks
      invariant 1 <= week <= RangeCount(totalWeeks) + 1
      invariant history == History(weeklyReturnRate, engineCap, s0, week - 1)
      invariant Account(pot, vault, spend) == Run(weeklyReturnRate, engineCap, s0, week - 1)
    {
      ghost var st := Step(weeklyReturnRate, engineCap, Account(pot, vault, spend));
      var profit := Profit(pot, weeklyReturnRate);
      pot := pot + profit;
      var withdrawal := 0.0;
      if pot < engineCap {
        // accumulation: keep everything
      } else {
        var excess := pot - engineCap;
        if excess > 0.0 {
          withdrawal := excess;
          vault := vault + withdrawal * 0.5;
          spend := spend + withdrawal * 0.5;
          pot := engineCap;
        }
      }
      assert st.next == Account(pot, vault, spend) && st.withdrawal == withdrawal;
      RunStep(weeklyReturnRate, engineCap, s0, week - 1);
      history := history + [WeekRecord(week, pot, vault, spend, profit, withdrawal)];
      week := week + 1;
    }
    HistoryWeeks(weeklyReturnRate, engineCap, s0, |history|);
    forall k | 0 <= k < |history|
      ensures history[k].pot <= engineCap && history[k].vault - initialVault == history[k].spend
    {
      PotBelowCap(weeklyReturnRate, engineCap, s0, |history|, k);
      HalfSplit(weeklyReturnRate, engineCap, initialPot, initialVault, |history|, k);
    }
  }

  // ---------------------------------------------------------------------
  // Properties of History.
  // ---------------------------------------------------------------------

  /** What one step does, case by case. */
  lemma StepCases(rate: real, cap: real, s: Account)
    ensures var st := Step(rate, cap, s);
      var grown := s.pot + st.profit;
      && st.profit == Profit(s.pot, rate)
      && st.withdrawal == Excess(grown - cap)
      && st.next.pot <= cap
      && (st.withdrawal == 0.0 ==> st.next.pot == grown && st.next.vault == s.vault && st.next.spend == s.spend)
      && (st.withdrawal > 0.0 ==>
            && st.next.pot == cap
            && st.next.vault == s.vault + st.withdrawal * 0.5
            && st.next.spend == s.spend + st.withdrawal * 0.5)
  {
  }

  /** Running `k + 1` weeks is running `k` weeks and then one more. */
  lemma {:induction false} RunStep(rate: real, cap: real, s: Account, k: nat)
    ensures Run(rate, cap, s, k + 1) == Step(rate, cap, Run(rate, cap, s, k)).next
    decreases k
  {
    if k > 0 {
      RunStep(rate, cap, Step(rate, cap, s).next, k - 1);
    }
  }

  /** Week `k + 1` of any history is the step taken from the state after `k` weeks. */
  lemma {:induction false} HistoryAt(rate: real, cap: real, s0: Account, n: nat, k: nat)
    requires k < n
    ensures History(rate, cap, s0, n)[k] == RecordOf(k + 1, Step(rate, cap, Run(rate, cap, s0, k)))
    decreases n
  {
    if k < n - 1 {
      HistoryAt(rate, cap, s0, n - 1, k);
    }
  }

  /** The balances of record `k` are those of the state after `k + 1` weeks. */
  lemma RecordIsState(rate: real, cap: real, s0: Account, n: nat, k: nat)
    requires k < n
    ensures History(rate, cap, s0, n)[k].pot == Run(rate, cap, s0, k + 1).pot
    ensures History(rate, cap, s0, n)[k].vault == Run(rate, cap, s0, k + 1).vault
    ensures History(rate, cap, s0, n)[k].spend == Run(rate, cap, s0, k + 1).spend
  {
    HistoryAt(rate, cap, s0, n, k);
    RunStep(rate, cap, s0, k);
  }

  /** Hence the opening balances of week `k + 1` are those after `k` weeks. */
  lemma OpeningIsState(rate: real, cap: real, s0: Account, n: nat, k: nat)
    requires k <= n
    ensures OpeningPot(s0.pot, History(rate, cap, s0, n), k) == Run(rate, cap, s0, k).pot
    ensures OpeningVault(s0.vault, History(rate, cap, s0, n), k) == Run(rate, cap, s0, k).vault
    ensures OpeningSpend(s0.spend, History(rate, cap, s0, n), k) == Run(rate, cap, s0, k).spend
  {
    if k > 0 {
      RecordIsState(rate, cap, s0, n, k - 1);
    }
  }

  /** The history holds weeks 1 to n in order. */
  lemma HistoryWeeks(rate: real, cap: real, s0: Account, n: nat)
    ensures |History(rate, cap, s0, n)| == n
    ensures forall k :: 0 <= k < n ==> History(rate, cap, s0, n)[k].week == k + 1
  {
    forall k | 0 <= k < n
      ensures History(rate, cap, s0, n)[k].week == k + 1
    {
      HistoryAt(rate, cap, s0, n, k);
    }
  }

  /** After every week the pot is at most the cap. */
  lemma PotBelowCap(rate: real, cap: real, s0: Account, n: nat, k: nat)
    requires k < n
    ensures History(rate, cap, s0, n)[k].pot <= cap
  {
    HistoryAt(rate, cap, s0, n, k);
    StepCases(rate, cap, Run(rate, cap, s0, k));
  }

  /** A week's profit is its opening pot times the rate; its withdrawal is the
      excess of the grown pot over the cap, or zero. A week without a
      withdrawal keeps the grown pot and leaves vault and spend unchanged. */
  lemma WithdrawalIsExcess(rate: real, cap: real, s0: Account, n: nat, k: nat)
    requires k < n
    ensures var h := History(rate, cap, s0, n);
      && h[k].profit == Profit(OpeningPot(s0.pot, h, k), rate)
      && h[k].withdrawal == Excess(OpeningPot(s0.pot, h, k) + h[k].profit - cap)
      && (h[k].withdrawal == 0.0 ==>
            && h[k].pot == OpeningPot(s0.pot, h, k) + h[k].profit
            && h[k].vault == OpeningVault(s0.vault, h, k)
            && h[k].spend == OpeningSpend(s0.spend, h, k))
  {
    HistoryAt(rate, cap, s0, n, k);
    OpeningIsState(rate, cap, s0, n, k);
    StepCases(rate, cap, Run(rate, cap, s0, k));
  }

  /** Each withdrawal goes half to the vault and half to spend, and the pot is
      clamped to the cap; so neither balance ever decreases. */
  lemma EvenSplit(rate: real, cap: real, s0: Account, n: nat, k: nat)
    requires k < n
    ensures var h := History(rate, cap, s0, n);
      && h[k].vault - OpeningVault(s0.vault, h, k) == h[k].withdrawal * 0.5
      && h[k].spend - OpeningSpend(s0.spend, h, k) == h[k].withdrawal * 0.5
      && h[k].withdrawal >= 0.0
      && h[k].vault >= OpeningVault(s0.vault, h, k)
      && h[k].spend >= OpeningSpend(s0.spend, h, k)
  {
    HistoryAt(rate, cap, s0, n, k);
    OpeningIsState(rate, cap, s0, n, k);
    StepCases(rate, cap, Run(rate, cap, s0, k));
  }

  /** From a fresh start, what went into the vault always equals the spend. */
  lemma {:induction false} HalfSplit(rate: real, cap: real, initialPot: real, initialVault: real, n: nat, k: nat)
    requires k < n
    ensures var h := History(rate, cap, Start(initialPot, initialVault), n);
      h[k].vault - initialVault == h[k].spend
    decreases k
  {
    EvenSplit(rate, cap, Start(initialPot, initialVault), n, k);
    if k > 0 {
      HalfSplit(rate, cap, initialPot, initialVault, n, k - 1);
    }
  }

  // ---------------------------------------------------------------------
  // The 10K engine is the phase-flag engine with both percentages at 50.
  // ---------------------------------------------------------------------

  /** The flag engine with a 50/50 split in both phases. */
  function EvenEngine(rate: real, cap: real): Simulator.Engine
  {
    Simulator.Engine(rate, cap, 50.0, 50.0)
  }

  function Lift(a: Account, inHarvestPhase: bool): Simulator.EngineState
  {
    Simulator.EngineState(a.pot, a.vault, a.spend, inHarvestPhase)
  }

  /** One flag-engine step at 50/50 matches one 10K step, whatever the flag. */
  lemma StepAgrees(rate: real, cap: real, a: Account, inHarvestPhase: bool)
    ensures var st := Simulator.Step(EvenEngine(rate, cap), Lift(a, inHarvestPhase));
      var st10 := Step(rate, cap, a);
      && st.next == Lift(st10.next, st.next.inHarvestPhase)
      && st.profit == st10.profit
      && st.withdrawal == st10.withdrawal
  {
    Simulator.StepCases(EvenEngine(rate, cap), Lift(a, inHarvestPhase));
    StepCases(rate, cap, a);
  }

  lemma {:induction false} RunAgrees(rate: real, cap: real, a: Account, inHarvestPhase: bool, k: nat)
    ensures var s := Simulator.Run(EvenEngine(rate, cap), Lift(a, inHarvestPhase), k);
      s == Lift(Run(rate, cap, a, k), s.inHarvestPhase)
    decreases k
  {
    if k > 0 {
      var st := Simulator.Step(EvenEngine(rate, cap), Lift(a, inHarvestPhase));
      StepAgrees(rate, cap, a, inHarvestPhase);
      RunAgrees(rate, cap, Step(rate, cap, a).next, st.next.inHarvestPhase, k - 1);
    }
  }

  /** The 10K engine's history is the flag engine's with both percentages at 50. */
  lemma {:induction false} TenKIsEvenBaseline(rate: real, cap: real, initialPot: real, initialVault: real, n: nat)
    ensures History(rate, cap, Start(initialPot, initialVault), n)
         == Simulator.History(EvenEngine(rate, cap), Simulator.Start(initialPot, initialVault), n)
    decreases n
  {
    if n > 0 {
      TenKIsEvenBaseline(rate, cap, initialPot, initialVault, n - 1);
      var a0 := Start(initialPot, initialVault);
      var s := Simulator.Run(EvenEngine(rate, cap), Simulator.Start(initialPot, initialVault), n - 1);
      RunAgrees(rate, cap, a0, false, n - 1);
      StepAgrees(rate, cap, Run(rate, cap, a0, n - 1), s.inHarvestPhase);
    }
  }
}
