/** Concrete runs of the phase-flag engine, computed week by week. */
module Scenarios {
  import opened Ledger
  import opened Simulator

  /** Return rate 1.0 on 5000 with cap 6000: the first withdrawal (4000) uses
      the growth percentage, the second (6000) the harvest percentage. */
  lemma HighReturnScenario()
    ensures History(Engine(1.0, 6000.0, 50.0, 25.0), Start(5000.0, 0.0), 2)
         == [WeekRecord(1, 6000.0, 2000.0, 2000.0, 5000.0, 4000.0),
             WeekRecord(2, 6000.0, 3500.0, 6500.0, 6000.0, 6000.0)]
  {
    var e := Engine(1.0, 6000.0, 50.0, 25.0);
    var s0 := Start(5000.0, 0.0);
    var s1 := EngineState(6000.0, 2000.0, 2000.0, true);
    assert Step(e, s0) == StepResult(s1, 5000.0, 4000.0);
    assert Step(e, s1) == StepResult(EngineState(6000.0, 3500.0, 6500.0, true), 6000.0, 6000.0);
    assert Run(e, s0, 1) == s1;
  }

  /** A week that ends below the cap clears the phase flag: here week 3's
      withdrawal is split with the growth percentage (50) again, although
      week 1 already withdrew. */
  lemma PhaseResetScenario()
    ensures History(Engine(-3.0, 10.0, 50.0, 25.0), Start(-20.0, 0.0), 3)
         == [WeekRecord(1, 10.0, 15.0, 15.0, 60.0, 30.0),
             WeekRecord(2, -20.0, 15.0, 15.0, -30.0, 0.0),
             WeekRecord(3, 10.0, 30.0, 30.0, 60.0, 30.0)]
  {
    var e := Engine(-3.0, 10.0, 50.0, 25.0);
    var s0 := Start(-20.0, 0.0);
    var s1 := EngineState(10.0, 15.0, 15.0, true);
    var s2 := EngineState(-20.0, 15.0, 15.0, false);
    assert Step(e, s0) == StepResult(s1, 60.0, 30.0);
    assert Step(e, s1) == StepResult(s2, -30.0, 0.0);
    assert Step(e, s2) == StepResult(EngineState(10.0, 30.0, 30.0, true), 60.0, 30.0);
    assert Run(e, s0, 1) == s1;
    RunStep(e, s0, 1);
    assert Run(e, s0, 2) == s2;
  }
}
