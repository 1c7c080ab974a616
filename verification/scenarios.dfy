/** Worked sessions of the GrowthSphere form, each run from the first render. */
module Scenarios {
  import opened Optional
  import ProgramRecord
  import StrategyRecord
  import SectorMultiSelect
  import opened GrowthSphere

  /**
   A Program named CalSTRS of type "Public pension" is saved and the backend
   answers with `id` "p1": the Strategy is bound to "p1" and exactly one list
   request, for "p1", follows the POST.
   */
  lemma SaveProgramBindsStrategy(record: Program)
    ensures var t := Run(Mount().state, [
              EditProgram(ProgramRecord.SetOrganizationName("CalSTRS")),
              EditProgram(ProgramRecord.SetOrganizationType("Public pension")),
              SaveProgram,
              ProgramSaved(CreatedProgram(Some("p1"), record))]);
            && t.state.strategy.programId == Some("p1")
            && !t.state.creating
            && t.requests == [
                 PostProgram(ProgramRecord.Initial.(organizationName := "CalSTRS", organizationType := "Public pension")),
                 ListStrategies("p1")]
  {
    var a1 := EditProgram(ProgramRecord.SetOrganizationName("CalSTRS"));
    var a2 := EditProgram(ProgramRecord.SetOrganizationType("Public pension"));
    var a3 := SaveProgram;
    var a4 := ProgramSaved(CreatedProgram(Some("p1"), record));
    var s0 := Mount().state;
    var t1 := Step(s0, a1);
    var t2 := Step(t1.state, a2);
    assert t2.state.program == ProgramRecord.Initial.(organizationName := "CalSTRS", organizationType := "Public pension");
    var t3 := Step(t2.state, a3);
    var t4 := Step(t3.state, a4);
    assert t1.requests == [] && t2.requests == [];
    assert t3.requests == [PostProgram(t2.state.program)];
    assert t4.requests == [ListStrategies("p1")];
    assert [a4][1..] == [];
    assert Run(t3.state, [a4]) == Transition(t4.state, t4.requests);
    assert [a3, a4][1..] == [a4];
    assert Run(t2.state, [a3, a4]) == Transition(t4.state, t3.requests + t4.requests);
    assert [a2, a3, a4][1..] == [a3, a4];
    assert Run(t1.state, [a2, a3, a4]) == Transition(t4.state, t3.requests + t4.requests);
    assert [a1, a2, a3, a4][1..] == [a2, a3, a4];
    assert Run(s0, [a1, a2, a3, a4]) == Transition(t4.state, t3.requests + t4.requests);
  }

  /** Toggling "Software", "Fintech", then "Software" again from no sectors leaves just "Fintech". */
  lemma ToggleSoftwareFintechSoftware()
    ensures SectorMultiSelect.Toggle(SectorMultiSelect.Toggle(SectorMultiSelect.Toggle([], "Software"), "Fintech"), "Software")
            == ["Fintech"]
  {
    var software, fintech := "Software", "Fintech";
    assert software != fintech by {
      assert software[0] != fintech[0];
    }
    SectorMultiSelect.ToggleAppendsToSet([], software);
    var a := SectorMultiSelect.Toggle([], software);
    assert a == [software];
    SectorMultiSelect.ToggleAppendsToSet(a, fintech);
    var b := SectorMultiSelect.Toggle(a, fintech);
    assert b == [software, fintech];
    SectorMultiSelect.ToggleDeletesFromSet(b, 0);
    assert b[..0] + b[1..] == [fintech];
  }

  /** Checking ERISA and then marking the EU not eligible leaves the other regions eligible. */
  lemma ErisaThenEuNotEligible()
    ensures var p := ProgramRecord.Apply(
                       ProgramRecord.Apply(ProgramRecord.Initial, ProgramRecord.SetFlag(ProgramRecord.ERISA, true)),
                       ProgramRecord.SetEligibility(ProgramRecord.EU, ProgramRecord.NotEligible));
            && p.regulatoryFlags.erisa
            && p.marketingEligibility == ProgramRecord.Eligibility("Eligible", "Not eligible", "Eligible", "Eligible")
  {
  }
}
