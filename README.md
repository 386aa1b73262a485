# Trading simulator: verified model of the weekly engines

This project models the numeric core of a small trading-plan simulator:

- **Exponential growth projection** (`simulate_exponential_growth`, present in
  both `src/simulator/simulation.py` and `src/options_simulator/simulation.py`).
  It returns `P * (1 + r)^n` for `n = 0 .. max(periods, 0)`.
- **Baseline Harvest Engine** (`simulate_baseline_harvest_engine`). Each week
  the pot earns `pot * rate`. Whatever the grown pot holds above `engine_cap` is
  withdrawn and the pot is set to the cap. Each withdrawal is split between a
  vault and a spend balance. The vault share is `growth_vault_pct` until the
  engine is in its harvest phase, and `harvest_vault_pct` after that. The code
  clears the harvest-phase flag whenever a week ends with the grown pot below
  the cap.
- **10K Baseline Harvest Engine** (`simulate_10K_baseline_harvest_engine`).
  This is the same loop without a phase flag. Every withdrawal goes half to the
  vault and half to spend.

Files and modules:

| file | module | contents |
|---|---|---|
| `ledger.dfy` | `Ledger` | The weekly record. The iteration count of `range(1, n + 1)`. The excess, profit and opening-balance helpers shared by both engines. |
| `growth.dfy` | `Growth` | `Pow`, the closed form `Amount`, the compounding reference `Compounded`, and their lemmas. |
| `simulator.dfy` | `Simulator` | The phase-flag engine as a loop (`SimulateBaselineHarvestEngine`) with a pure specification (`Step`, `Run`, `History`). Also lemmas about the history. |
| `options_simulator.dfy` | `OptionsSimulator` | The 10K engine in the same style. It is also proved equal to the phase-flag engine run with both percentages set to 50. |
| `scenarios.dfy` | `Scenarios` | Two concrete runs of the phase-flag engine, computed exactly. |

Each Python loop is a Dafny `method` with a `while` loop. The projection loops
keep the invariant that every amount so far is `P * (1 + r)^n`, and their
postcondition equates the result with the compounding series `Compounded`.
The invariant of each week loop ties the running variables to `Run(…, week - 1)` and the history built so far to
`History(…, week - 1)`. So the method's postcondition says that its result *is*
the specification history. The lemmas then state the properties of that
history in terms of the records alone: each record's opening balances are the
previous record's balances, or the initial values for week 1.

Python's defaults (e.g. `growth_vault_pct=50`, `harvest_vault_pct=25`) become
explicit parameters. A negative `total_weeks` or `periods` gives an empty loop,
as `range` does. This is modelled by `RangeCount`.

The code clears the harvest-phase flag whenever the grown pot is below the cap
(`src/simulator/simulation.py:60-62`), and the model follows the code.
`Simulator.FlagFromHistory` states the resulting rule in terms of the records.
`Scenarios.PhaseResetScenario` shows a later withdrawal split with the growth
percentage again.

`Ledger.RangeCount` is a helper definition: the number of iterations of
`range(1, n + 1)`. The method contracts use it to state how many records or
amounts a call returns.

## Model

| member | source | states |
|---|---|---|
| Ledger.Excess | src/simulator/simulation.py:57-67 | the withdrawal rule's value: non-negative, at least the pot's excess over the cap, and either that excess or zero |
| Ledger.Profit | src/simulator/simulation.py:54 | a week's profit, `pot * weekly_return_rate`; a definition used as the single name for that product, whose role is stated by `Simulator.Step` and `Simulator.WithdrawalIsExcess` |
| Simulator.Portion | src/simulator/simulation.py:78-79 | a withdrawal's share, `withdrawal * vault_allocation` for the vault and `withdrawal * (1 - vault_allocation)` for spend; a definition used as the single name for that product, whose role is stated by `Simulator.StepCases`, `Simulator.WithdrawalSplit`, `Simulator.PortionsSum` and `Simulator.PortionNonNegative` |
| Simulator.RecordOf | src/simulator/simulation.py:82-89 | the six-field record appended for a week, taken from the state after the step and the step's profit and withdrawal; a definition whose use is stated by `Simulator.HistoryAt` and `Simulator.RecordIsState` |
| OptionsSimulator.RecordOf | src/options_simulator/simulation.py:69-76 | the six-field record appended for a week; a definition whose use is stated by `OptionsSimulator.HistoryAt` and `OptionsSimulator.RecordIsState` |
| Growth.Pow | src/simulator/simulation.py:18 | `x ** n` for a natural `n`; a definition whose laws are stated by `Growth.PowOfOne` and `Growth.AmountStep` |
| Growth.Amount | src/simulator/simulation.py:18 | the closed form `P * (1 + r) ** k`; a definition whose properties are stated by `Growth.AmountStep` and `Growth.CompoundedIsClosedForm` |
| Growth.PowOfOne | src/simulator/simulation.py:18 | `1^n == 1`, so a zero rate never changes the principal |
| Growth.Compounded | src/simulator/simulation.py:16-19 | the compounding reference series has `n + 1` entries and starts at `P` |
| Growth.AmountStep | src/simulator/simulation.py:18 | the closed form grows by a factor `1 + r` from each period to the next |
| Growth.GrowthRatio | src/simulator/simulation.py:16-20 | in any closed-form series, `amounts[k + 1] == amounts[k] * (1 + r)` |
| Growth.ZeroRateIsFlat | src/simulator/simulation.py:16-20 | with `r == 0` every entry of a closed-form series equals `P` |
| Growth.CompoundedIsClosedForm | src/simulator/simulation.py:16-20 | multiplying by `1 + r` period after period yields `P * (1 + r)^k` at every index |
| Growth.ClosedFormIsCompounded | src/simulator/simulation.py:16-20 | a closed-form series of length `n + 1` is exactly the compounding series |
| Simulator.SimulateExponentialGrowth | src/simulator/simulation.py:3-20 | returns `periods + 1` amounts (one for negative `periods`), `amounts[0] == P`, `amounts[k] == P * (1 + r)^k`, equal to the compounding series |
| Simulator.Start | src/simulator/simulation.py:46-50 | the state before week 1: pot `initial_pot`, vault `initial_vault`, spend 0, flag cleared; a definition used by the method's and the lemmas' contracts |
| Simulator.VaultPct | src/simulator/simulation.py:70-76 | the vault percentage of a withdrawal is `growth_vault_pct` or `harvest_vault_pct`, and lies in [0, 100] when both do |
| Simulator.Step | src/simulator/simulation.py:54-80 | one week: profit is `pot * rate`, withdrawal is `max(0, grown - cap)`, the pot ends at most at the cap, and a week with a withdrawal sets the phase flag |
| Simulator.Run | src/simulator/simulation.py:52-80 | after at least one week the pot is at most the cap |
| Simulator.History | src/simulator/simulation.py:52-89 | the specification history holds one record per simulated week |
| Simulator.SimulateBaselineHarvestEngine | src/simulator/simulation.py:22-91 | the loop's result equals the specification history from pot `initial_pot`, vault `initial_vault`, spend 0 and a cleared flag; it has `total_weeks` records numbered 1..n (none for `total_weeks <= 0`); every pot is at most the cap |
| Simulator.StepCases | src/simulator/simulation.py:54-80 | one week: profit is `pot * rate`; withdrawal is `max(0, grown - cap)`; the pot ends at most at the cap; without a withdrawal the pot is the grown pot and vault and spend are unchanged; with one the pot is the cap, vault and spend gain the two shares and the flag is set; a grown pot below the cap clears the flag; a grown pot exactly at the cap keeps it |
| Simulator.RunStep | src/simulator/simulation.py:52-55 | simulating `k + 1` weeks is one more week after simulating `k` |
| Simulator.HistoryAt | src/simulator/simulation.py:82-89 | record `k` is the record of week `k + 1`, taken from the state after `k` weeks |
| Simulator.RecordIsState | src/simulator/simulation.py:82-89 | the balances in record `k` are the running balances after `k + 1` weeks |
| Simulator.OpeningIsState | src/simulator/simulation.py:46-48 | the previous record's balances (the initial values for week 1) are the balances a week starts from |
| Simulator.HistoryWeeks | src/simulator/simulation.py:52 | the history has `n` records and record `k` is week `k + 1` |
| Simulator.PotBelowCap | src/simulator/simulation.py:60-80 | after every week the pot is at most `engine_cap` |
| Simulator.WithdrawalIsExcess | src/simulator/simulation.py:54-67 | a week's profit is its opening pot times the rate; its withdrawal is `max(0, opening pot + profit - cap)`; a week without a withdrawal ends with the grown pot and unchanged vault and spend |
| Simulator.FlagStep | src/simulator/simulation.py:60-73 | after a week, the flag is set iff that week withdrew, or it ended at or above the cap with the flag already set |
| Simulator.FlagAfterWeek | src/simulator/simulation.py:60-73 | the same rule, read off record `k - 1` of a history |
| Simulator.PhaseStep | src/simulator/simulation.py:60-73 | the history predicate "some earlier week withdrew and no week since ended below the cap" obeys that same one-week rule |
| Simulator.FlagFromHistory | src/simulator/simulation.py:50-76 | from a cleared flag, the engine is in its harvest phase before week `k + 1` iff some earlier week withdrew and no week since ended with the pot below the cap |
| Simulator.WithdrawalSplit | src/simulator/simulation.py:66-80 | a week with a withdrawal `w` ends at the cap; its vault gain is `w * pct / 100` and its spend gain `w * (1 - pct / 100)`; `pct` is `growth_vault_pct` unless the history shows the harvest phase, when it is `harvest_vault_pct`; the two gains sum to `w` |
| Simulator.PortionsSum | src/simulator/simulation.py:78-79 | the vault and spend shares of a withdrawal sum to the withdrawal |
| Simulator.PortionNonNegative | src/simulator/simulation.py:78-79 | a share of a non-negative amount by a non-negative fraction is non-negative |
| Simulator.BalancesNonDecreasing | src/simulator/simulation.py:66-80 | with both percentages in [0, 100], no week decreases the vault or spend |
| Simulator.BalancesAtLeastInitial | src/simulator/simulation.py:46-80 | with both percentages in [0, 100], every record's vault is at least `initial_vault` and its spend at least 0 |
| Scenarios.HighReturnScenario | tests/test_simulation.py:114-130 | rate 1.0 from 5000 with cap 6000 gives week 1 (pot 6000, vault 2000, spend 2000, withdrawal 4000) and week 2 (pot 6000, vault 3500, spend 6500, withdrawal 6000) |
| Scenarios.PhaseResetScenario | src/simulator/simulation.py:60-76 | a week ending below the cap clears the phase, so a later withdrawal is split with `growth_vault_pct` again |
| OptionsSimulator.SimulateExponentialGrowth | src/options_simulator/simulation.py:3-20 | the same contract as the other copy: `P * (1 + r)^k` at every index, `periods + 1` entries |
| OptionsSimulator.Start | src/options_simulator/simulation.py:43-45 | the state before week 1: pot `initial_pot`, vault `initial_vault`, spend 0; a definition used by the method's and the lemmas' contracts |
| OptionsSimulator.Step | src/options_simulator/simulation.py:50-66 | one week: profit is `pot * rate`, withdrawal is `max(0, grown - cap)`, the pot ends at most at the cap, and vault and spend grow by the same amount |
| OptionsSimulator.Run | src/options_simulator/simulation.py:48-66 | after at least one week the pot is at most the cap |
| OptionsSimulator.History | src/options_simulator/simulation.py:48-76 | the specification history holds one record per simulated week |
| OptionsSimulator.Simulate10KBaselineHarvestEngine | src/options_simulator/simulation.py:22-78 | the loop's result equals the specification history; it has `total_weeks` records numbered 1..n; every pot is at most the cap; in every record `vault - initial_vault == spend` |
| OptionsSimulator.StepCases | src/options_simulator/simulation.py:50-66 | one week: profit is `pot * rate`; withdrawal is `max(0, grown - cap)`; the pot ends at most at the cap; without a withdrawal nothing but the pot changes; with one the pot is the cap and vault and spend each gain half |
| OptionsSimulator.RunStep | src/options_simulator/simulation.py:48-51 | simulating `k + 1` weeks is one more week after simulating `k` |
| OptionsSimulator.HistoryAt | src/options_simulator/simulation.py:69-76 | record `k` is the record of week `k + 1`, taken from the state after `k` weeks |
| OptionsSimulator.RecordIsState | src/options_simulator/simulation.py:69-76 | the balances in record `k` are the running balances after `k + 1` weeks |
| OptionsSimulator.OpeningIsState | src/options_simulator/simulation.py:43-45 | the previous record's balances (the initial values for week 1) are the balances a week starts from |
| OptionsSimulator.HistoryWeeks | src/options_simulator/simulation.py:48 | the history has `n` records and record `k` is week `k + 1` |
| OptionsSimulator.PotBelowCap | src/options_simulator/simulation.py:56-66 | after every week the pot is at most `engine_cap` |
| OptionsSimulator.WithdrawalIsExcess | src/options_simulator/simulation.py:50-63 | a week's profit is its opening pot times the rate; its withdrawal is `max(0, opening pot + profit - cap)`; a week without a withdrawal leaves the grown pot and unchanged vault and spend |
| OptionsSimulator.EvenSplit | src/options_simulator/simulation.py:62-66 | each week the vault and spend each gain exactly half the withdrawal, which is non-negative, so neither balance ever decreases |
| OptionsSimulator.HalfSplit | src/options_simulator/simulation.py:43-66 | from spend 0, every record has `vault - initial_vault == spend` |
| OptionsSimulator.StepAgrees | src/options_simulator/simulation.py:48-66 | a 10K week equals a phase-flag week at 50/50, whatever the flag |
| OptionsSimulator.RunAgrees | src/options_simulator/simulation.py:48-76 | any number of 10K weeks gives the same balances as the phase-flag engine at 50/50 |
| OptionsSimulator.TenKIsEvenBaseline | src/options_simulator/simulation.py:22-78 | the 10K history equals the phase-flag engine's history with `growth_vault_pct = harvest_vault_pct = 50` |

## Left out

- The interactive front ends in `src/simulator/main.py` and `src/options_simulator/main.py` are not part of this model. They do prompts, coloured output, timestamped report files and plotting, with a hard-coded start date (`src/simulator/main.py:127`, `src/options_simulator/main.py:67`). All of it is I/O or clock access.
- `get_start_monday`, imported by `tests/test_simulation.py:9`, is not part of this model.
- `src/simulator/main.py:6` imports a 10K engine from a module that does not define one. That import wiring is not modelled. Both engines are modelled in their own modules.
- `architecture/generate_architecture.py` and `clear_output.py` are tooling, not simulation logic.
- Floating point: every quantity is a Dafny `real`. IEEE rounding, and the floating-point tolerance of the projection's tests, are not modelled. Equalities here are exact.
- Simulator.SimulateExponentialGrowth: returns every amount exactly. In Python, once `(1 + r) ** n` leaves the double range (e.g. `P = 1000`, `r = 0.25`, `periods = 4000`) the call raises `OverflowError`. That error path is not modelled.
- OptionsSimulator.SimulateExponentialGrowth: the same overflow error path is not modelled.
- Simulator.SimulateBaselineHarvestEngine: in Python `pot * weekly_return_rate` can overflow to `inf` or `-inf`, and later sums and shares can then give `nan` (for example `inf * 0` for a share of 0 or 100 percent, or `-inf + inf` for a rate below -1). The model's reals never overflow, so no `inf` or `nan` is modelled.
- OptionsSimulator.Simulate10KBaselineHarvestEngine: the same overflow applies, so no `inf` or `nan` is modelled.
- The unused `numpy` import plays no role.
- The dictionaries appended to the history are the datatype `WeekRecord` with the same six fields. Formatting of amounts is done by the front ends and is not modelled.
- Simulator.BalancesNonDecreasing: assumes both percentages lie in [0, 100], because with other percentages a share can be negative and a balance can decrease.
- Simulator.BalancesAtLeastInitial: assumes both percentages lie in [0, 100], for the same reason.
