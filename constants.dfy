/** The fixed configuration of the point-buy and manual-entry methods. */
module Constants {
  import opened Types

  datatype PointBuyConfig = PointBuyConfig(
    totalPoints: int,
    costs: map<int, int>,   // total cost of a score, counted from the base score
    minScore: int,
    maxScore: int,
    baseScore: int)

  datatype ManualRollConfig = ManualRollConfig(minScore: int, maxScore: int, defaultScore: int)

  const PointBuy: PointBuyConfig := PointBuyConfig(
    27,
    map[8 := 0, 9 := 1, 10 := 2, 11 := 3, 12 := 4, 13 := 5, 14 := 7, 15 := 9],
    8, 15, 8)

  const ManualRoll: ManualRollConfig := ManualRollConfig(3, 18, 10)

  const DefaultScoresForPointBuy: AbilityScores := Uniform(PointBuy.baseScore)

  const DefaultScoresForManualRoll: AbilityScores := Uniform(ManualRoll.defaultScore)

  /** The cost table is defined exactly on the scores 8 to 15. */
  lemma CostTableDomain()
    ensures forall s :: s in PointBuy.costs <==> PointBuy.minScore <= s <= PointBuy.maxScore
    ensures PointBuy.costs[PointBuy.minScore] == 0 && PointBuy.costs[PointBuy.maxScore] == 9
  {
  }

  /** Costs increase strictly: one point per step up to 13, two for 14 and for 15. */
  lemma CostsStrictlyIncrease()
    ensures forall s :: 9 <= s <= 13 ==> PointBuy.costs[s] - PointBuy.costs[s - 1] == 1
    ensures PointBuy.costs[14] - PointBuy.costs[13] == 2
    ensures PointBuy.costs[15] - PointBuy.costs[14] == 2
    ensures forall s, t :: s in PointBuy.costs && t in PointBuy.costs && s < t ==>
              PointBuy.costs[s] < PointBuy.costs[t]
  {
  }

  lemma ConfigurationFacts()
    ensures PointBuy.minScore == PointBuy.baseScore == 8 < PointBuy.maxScore == 15
    ensures PointBuy.totalPoints == 27
    ensures ManualRoll.minScore == 3 && ManualRoll.maxScore == 18
    ensures ManualRoll.minScore <= ManualRoll.defaultScore <= ManualRoll.maxScore
  {
  }

  /** The point-buy defaults are the base score everywhere, which costs nothing;
      the manual defaults are 10 everywhere; both pass their own range checks. */
  lemma DefaultScoresFacts()
    ensures forall a :: DefaultScoresForPointBuy.Get(a) == 8
    ensures forall a :: PointBuy.costs[DefaultScoresForPointBuy.Get(a)] == 0
    ensures forall a :: DefaultScoresForManualRoll.Get(a) == 10
    ensures forall a :: PointBuy.minScore <= DefaultScoresForPointBuy.Get(a) <= PointBuy.maxScore
    ensures forall a :: ManualRoll.minScore <= DefaultScoresForManualRoll.Get(a) <= ManualRoll.maxScore
  {
  }
}
