/**
  The scenario builder: an experiment id picks one ordering of the three
  throttled bitrates, which is played between two unthrottled steps.
 */
module Scenario {
  import opened Permutations

  /** The three throttled bitrates, in bytes per second, in their base order. */
  const BaseValues: seq<int> := [37500, 75000, 125000]

  /** The unthrottled baseline played first and last. */
  const HighestValue: int := 1250000000

  /** Number of steps in every scenario. */
  const ScenarioSteps: nat := 5

  /**
    The scenario for `experimentId`: the baseline, ordering `experimentId % 6`
    of the base bitrates, and the baseline again.
   */
  function BitrateScenario(experimentId: int): (r: seq<int>)
    requires experimentId >= 0
    ensures |r| == ScenarioSteps && r[0] == HighestValue && r[4] == HighestValue
    ensures forall j :: 1 <= j < 4 ==> 0 < r[j] < HighestValue
  {
    var k := experimentId % 6;
    var middle := TableOf(37500, 75000, 125000)[k];
    var r := [HighestValue] + middle + [HighestValue];
    assert r[1..4] == middle;
    r
  }

  /** The three middle steps of every scenario are an ordering of the base bitrates. */
  lemma ScenarioMiddleIsOrdering(experimentId: int)
    requires experimentId >= 0
    ensures multiset(BitrateScenario(experimentId)[1..4]) == multiset(BaseValues)
  {
    RowIsOrdering(37500, 75000, 125000, experimentId % 6);
  }

  /** The middle of every scenario is the generator's entry `experimentId % 6` for the base bitrates. */
  lemma ScenarioFromGenerator(experimentId: int)
    requires experimentId >= 0
    ensures |PermsFrom(BaseValues, 0)| == 6
    ensures BitrateScenario(experimentId)[1..4] == PermsFrom(BaseValues, 0)[experimentId % 6]
  {
    TableOrder(37500, 75000, 125000);
  }

  /**
    Builds the scenario as `getBitrateScenario` does: runs the in-place generator on a
    fresh array of the base bitrates and indexes its table with `experimentId % 6`.
   */
  method GetBitrateScenario(experimentId: int) returns (scenario: seq<int>)
    requires experimentId >= 0
    ensures scenario == BitrateScenario(experimentId)
  {
    var values := new int[3] [37500, 75000, 125000];
    var highestValue := HighestValue;
    assert values[..] == BaseValues;
    var scenarios := GeneratePermutations(values);
    TableOrder(37500, 75000, 125000);
    scenario := [highestValue] + scenarios[experimentId % 6] + [highestValue];
  }

  /** Two ids get the same scenario exactly when they agree modulo 6. */
  lemma ScenarioDeterminedByResidue(id1: int, id2: int)
    requires id1 >= 0 && id2 >= 0
    ensures BitrateScenario(id1) == BitrateScenario(id2) <==> id1 % 6 == id2 % 6
  {
    var t := TableOf(37500, 75000, 125000);
    var s1, s2 := BitrateScenario(id1), BitrateScenario(id2);
    assert s1[1..4] == t[id1 % 6] && s2[1..4] == t[id2 % 6];
    if id1 % 6 != id2 % 6 {
      assert t[id1 % 6] != t[id2 % 6];
    }
  }

  /** The scenario repeats with period 6. */
  lemma ScenarioPeriodic(experimentId: int)
    requires experimentId >= 0
    ensures BitrateScenario(experimentId + 6) == BitrateScenario(experimentId)
  {
    assert (experimentId + 6) % 6 == experimentId % 6;
  }

  /** Every ordering of the base bitrates is the middle of the scenario of some id below 6. */
  lemma EveryOrderingAssigned(p: seq<int>)
    requires |p| == 3 && multiset(p) == multiset(BaseValues)
    ensures exists id :: 0 <= id < 6 && BitrateScenario(id)[1..4] == p
  {
    OrderingEntries(37500, 75000, 125000, p);
    DistinctEntriesInTable(37500, 75000, 125000, p);
    RowAssigned(p);
  }

  /** Row `id` of the base table is the middle of the scenario of id `id`. */
  lemma RowAssigned(p: seq<int>)
    requires p in TableOf(37500, 75000, 125000)
    ensures exists id :: 0 <= id < 6 && BitrateScenario(id)[1..4] == p
  {
    var t := TableOf(37500, 75000, 125000);
    var id :| 0 <= id < 6 && t[id] == p;
    assert id % 6 == id;
    assert BitrateScenario(id)[1..4] == p;
  }

  lemma ScenarioExamples()
    ensures BitrateScenario(0) == [1250000000, 37500, 75000, 125000, 1250000000]
    ensures BitrateScenario(5) == [1250000000, 125000, 37500, 75000, 1250000000]
    ensures BitrateScenario(7) == BitrateScenario(1)
  {
    ScenarioPeriodic(1);
  }
}
