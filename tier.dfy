/** The difficulty classification of a solved.ac tier number. */
module Tier {

  /** The three difficulty classes a tier is sorted into. */
  datatype TierClass = Easy | Medium | Hard

  /** Position of a class in the order Easy < Medium < Hard. */
  function Hardness(c: TierClass): nat
  {
    match c
    case Easy => 0
    case Medium => 1
    case Hard => 2
  }

  /** The early-return threshold chain: at most 10 is easy, at most 20 is medium, the rest is hard. */
  function Classify(tier: int): (c: TierClass)
    ensures c == Easy <==> tier <= 10
    ensures c == Medium <==> 10 < tier <= 20
    ensures c == Hard <==> 20 < tier
  {
    if tier <= 10 then Easy
    else if tier <= 20 then Medium
    else Hard
  }

  /** A higher tier is never classified as an easier class. */
  lemma ClassifyMonotone(t1: int, t2: int)
    requires t1 <= t2
    ensures Hardness(Classify(t1)) <= Hardness(Classify(t2))
  {
  }

  /** The six named divisions of the tier table, five sub-ranks each. */
  datatype Division = Bronze | Silver | Gold | Platinum | Diamond | Ruby

  /** The division of a tier as the documentation table lists it:
      0 to 5 Bronze, then blocks of five up to 26 to 30 Ruby. */
  function DivisionOf(tier: int): (d: Division)
    requires 0 <= tier <= 30
    ensures d == Bronze <==> tier <= 5
    ensures d == Silver <==> 6 <= tier <= 10
    ensures d == Gold <==> 11 <= tier <= 15
    ensures d == Platinum <==> 16 <= tier <= 20
    ensures d == Diamond <==> 21 <= tier <= 25
    ensures d == Ruby <==> 26 <= tier
  {
    var block := if tier == 0 then 0 else (tier - 1) / 5;
    if block == 0 then Bronze
    else if block == 1 then Silver
    else if block == 2 then Gold
    else if block == 3 then Platinum
    else if block == 4 then Diamond
    else Ruby
  }

  /** The thresholds of Classify group the table's divisions in pairs:
      Easy is Bronze and Silver, Medium is Gold and Platinum, Hard is Diamond and Ruby. */
  lemma ClassifyGroupsDivisions(tier: int)
    requires 0 <= tier <= 30
    ensures Classify(tier) == Easy <==> DivisionOf(tier) in {Bronze, Silver}
    ensures Classify(tier) == Medium <==> DivisionOf(tier) in {Gold, Platinum}
    ensures Classify(tier) == Hard <==> DivisionOf(tier) in {Diamond, Ruby}
  {
  }
}
