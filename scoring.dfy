/**
 The score a listing earns against the buyer's choices (점수). Points are
 counted in half-points so that every award is a whole number: the source's
 +2, +1.5 and +1 are 4, 3 and 2 here, and its largest score 7.5 is 15.
 */
module Scoring {
  import opened Text
  import opened Listings

  /** The wildcard "doesn't matter" offered among the subway lines and the complex sizes. */
  const AnyChoice: string := "상관없음"

  /** The station flag value that marks a complex near a subway station. */
  const NearStation: string := "Y"

  /** The area group (평형대) the buyer picks. */
  datatype AreaGroup = UpTo10Pyeong | Pyeong20s | Pyeong30s | Pyeong40Plus

  /** The building condition (건물 컨디션) the buyer picks. */
  datatype Condition = New | Existing | Remodeling | Reconstruction

  /** The complex size (단지 규모) the buyer picks; AnySize is the wildcard. */
  datatype Household = LargeComplex | SmallComplex | AnySize

  /** The buyer's choices other than money. `lines` is the multiselect of subway
      lines as chosen, in which the wildcard AnyChoice may appear. */
  datatype Preferences = Preferences(
    areaGroup: AreaGroup,
    condition: Condition,
    lines: seq<string>,
    household: Household
  )

  const BudgetPoints: nat := 4       // +2
  const AreaPoints: nat := 3         // +1.5
  const ConditionPoints: nat := 3    // +1.5
  const LinePoints: nat := 3         // +1.5
  const AnyLinePoints: nat := 2      // +1
  const HouseholdPoints: nat := 2    // +1

  /** 7.5 points, all five awards at their largest. */
  const MaxScore: nat := 15

  /** The text of each condition option, as the select box offers it. It has no
      blank at either end, which is what lets stripping be ignored (see ConditionMatchIgnoresStrip). */
  function ConditionText(c: Condition): (t: string)
    ensures |t| > 0 && !IsSpace(t[0]) && !IsSpace(t[|t| - 1])
  {
    match c
    case New => "신축"
    case Existing => "기축"
    case Remodeling => "리모델링"
    case Reconstruction => "재건축"
  }

  // ---- the five awards: the reference definition of the score ----

  function BudgetAward(price: Option<real>, totalBudget: real): (r: nat)
  {
    if Affordable(price, totalBudget) then BudgetPoints else 0
  }

  /** The area range of each group, in square metres of exclusive-use area. */
  predicate InAreaBand(g: AreaGroup, area: real)
  {
    match g
    case UpTo10Pyeong => area <= 33.0
    case Pyeong20s => 34.0 <= area <= 66.0
    case Pyeong30s => 67.0 <= area <= 99.0
    case Pyeong40Plus => area >= 100.0
  }

  function AreaAward(g: AreaGroup, area: real): (r: nat)
  {
    if InAreaBand(g, area) then AreaPoints else 0
  }

  /** The condition text occurs in the building type once that is stripped. */
  function ConditionAward(c: Condition, buildingType: string): (r: nat)
  {
    if Contains(Strip(buildingType), ConditionText(c)) then ConditionPoints else 0
  }

  /** Some chosen line occurs in the listing's route text. */
  predicate ServesChosenLine(route: string, lines: seq<string>)
  {
    exists j | 0 <= j < |lines| :: Contains(route, lines[j])
  }

  function TransitAward(station: string, route: string, lines: seq<string>): (r: nat)
  {
    if AnyChoice in lines then AnyLinePoints
    else if station == NearStation && ServesChosenLine(route, lines) then LinePoints
    else 0
  }

  function HouseholdAward(h: Household, households: Option<int>): (r: nat)
  {
    match h
    case LargeComplex => if IsLargeComplex(households) then HouseholdPoints else 0
    case SmallComplex => if IsSmallComplex(households) then HouseholdPoints else 0
    case AnySize => HouseholdPoints
  }

  /** The score of a listing: the sum of its five independent awards. */
  function Score(row: Listing, totalBudget: real, prefs: Preferences): (r: nat)
  {
    BudgetAward(row.price, totalBudget)
    + AreaAward(prefs.areaGroup, row.area)
    + ConditionAward(prefs.condition, row.buildingType)
    + TransitAward(row.station, row.route, prefs.lines)
    + HouseholdAward(prefs.household, row.households)
  }

  /** The scoring routine as the source runs it: one accumulator, raised branch
      by branch, the line test a short-circuiting scan over the chosen lines. */
  method ScoreComplex(row: Listing, totalBudget: real, prefs: Preferences) returns (score: nat)
    ensures score == Score(row, totalBudget, prefs)
    ensures score <= MaxScore
  {
    score := 0;

    if Affordable(row.price, totalBudget) {
      score := score + BudgetPoints;
    }

    var area := row.area;
    if (prefs.areaGroup == UpTo10Pyeong && area <= 33.0)
      || (prefs.areaGroup == Pyeong20s && 34.0 <= area <= 66.0)
      || (prefs.areaGroup == Pyeong30s && 67.0 <= area <= 99.0)
      || (prefs.areaGroup == Pyeong40Plus && area >= 100.0)
    {
      score := score + AreaPoints;
    }
    assert score == BudgetAward(row.price, totalBudget) + AreaAward(prefs.areaGroup, row.area);

    var buildingType := Strip(row.buildingType);
    if Contains(buildingType, ConditionText(prefs.condition)) {
      score := score + ConditionPoints;
    }
    ghost var partial := score;
    assert partial == BudgetAward(row.price, totalBudget) + AreaAward(prefs.areaGroup, row.area)
                      + ConditionAward(prefs.condition, row.buildingType);

    if AnyChoice !in prefs.lines {
      if row.station == NearStation {
        var served, i := false, 0;
        while i < |prefs.lines| && !served
          invariant 0 <= i <= |prefs.lines|
          invariant served <==> exists j | 0 <= j < i :: Contains(row.route, prefs.lines[j])
        {
          served := Contains(row.route, prefs.lines[i]);
          i := i + 1;
        }
        if served {
          score := score + LinePoints;
        }
      }
    } else {
      score := score + AnyLinePoints;
    }
    assert score == partial + TransitAward(row.station, row.route, prefs.lines);

    if prefs.household == LargeComplex && IsLargeComplex(row.households) {
      score := score + HouseholdPoints;
    } else if prefs.household == SmallComplex && IsSmallComplex(row.households) {
      score := score + HouseholdPoints;
    } else if prefs.household == AnySize {
      score := score + HouseholdPoints;
    }
  }

  // ---- properties of the score ----

  /** Every score lies between 0 and 7.5 points, whatever the listing and the choices. */
  lemma ScoreWithinRange(row: Listing, totalBudget: real, prefs: Preferences)
    ensures 0 <= Score(row, totalBudget, prefs) <= MaxScore
  {
  }

  /** The budget award is +2 exactly when a price is present and at most the budget
      (the boundary is inclusive); otherwise it is nothing. */
  lemma BudgetAwardExactly(price: Option<real>, totalBudget: real)
    ensures BudgetAward(price, totalBudget) == BudgetPoints <==> (price.Some? && price.value <= totalBudget)
    ensures BudgetAward(price, totalBudget) == 0 <==> !(price.Some? && price.value <= totalBudget)
    ensures price.None? ==> BudgetAward(price, totalBudget) == 0
    ensures BudgetAward(Some(totalBudget), totalBudget) == BudgetPoints
  {
  }

  /** The area group an area falls in, read from the thresholds in increasing order;
      None for the areas between two groups. */
  function AreaBandOf(area: real): (r: Option<AreaGroup>)
  {
    if area <= 33.0 then Some(UpTo10Pyeong)
    else if area < 34.0 then None
    else if area <= 66.0 then Some(Pyeong20s)
    else if area < 67.0 then None
    else if area <= 99.0 then Some(Pyeong30s)
    else if area < 100.0 then None
    else Some(Pyeong40Plus)
  }

  /** The area award is +1.5 exactly when the chosen group is the one the area falls in,
      so at most one group can earn it for a given area. */
  lemma AreaAwardByBand(g: AreaGroup, area: real)
    ensures AreaAward(g, area) == AreaPoints <==> AreaBandOf(area) == Some(g)
    ensures AreaAward(g, area) == 0 <==> AreaBandOf(area) != Some(g)
  {
  }

  /** At most one area group's range contains a given area. */
  lemma AreaBandsDisjoint(g1: AreaGroup, g2: AreaGroup, area: real)
    requires InAreaBand(g1, area) && InAreaBand(g2, area)
    ensures g1 == g2
  {
    AreaAwardByBand(g1, area);
    AreaAwardByBand(g2, area);
  }

  /** The ranges leave gaps: an area strictly between 33 and 34, 66 and 67, or 99 and 100
      square metres earns no area award under any group. */
  lemma AreaBandGaps(area: real)
    requires 33.0 < area < 34.0 || 66.0 < area < 67.0 || 99.0 < area < 100.0
    ensures forall g :: AreaAward(g, area) == 0
  {
  }

  /** The condition award is +1.5 exactly when the condition text occurs in the building
      type as it stands, stripped or not. */
  lemma ConditionMatchIgnoresStrip(c: Condition, buildingType: string)
    ensures ConditionAward(c, buildingType) == ConditionPoints <==> Contains(buildingType, ConditionText(c))
    ensures ConditionAward(c, buildingType) == 0 <==> !Contains(buildingType, ConditionText(c))
  {
    StripKeepsContains(buildingType, ConditionText(c));
  }

  /** With the wildcard among the chosen lines the transit award is +1 for every listing. */
  lemma AnyLineFixesTransitAward(station: string, route: string, lines: seq<string>)
    requires AnyChoice in lines
    ensures TransitAward(station, route, lines) == AnyLinePoints
  {
  }

  /** Without the wildcard the transit award is +1.5 exactly when the complex is near a
      station and some chosen line occurs in its route text, and nothing otherwise. */
  lemma ChosenLinesTransitAward(station: string, route: string, lines: seq<string>)
    requires AnyChoice !in lines
    ensures TransitAward(station, route, lines) == LinePoints
            <==> station == NearStation && exists j | 0 <= j < |lines| :: Contains(route, lines[j])
    ensures TransitAward(station, route, lines) in {0, LinePoints}
  {
  }

  /** Choosing no line at all earns no transit award. */
  lemma NoLinesNoTransitAward(station: string, route: string)
    ensures TransitAward(station, route, []) == 0
  {
  }

  /** The line wildcard is not neutral: a complex near a station on a chosen line earns
      +1.5 for that line but only +1 once the wildcard is chosen, alone or beside it. */
  lemma AnyLineScoresBelowExactLine(route: string, line: string, others: seq<string>)
    requires line != AnyChoice && Contains(route, line)
    ensures TransitAward(NearStation, route, [line]) == LinePoints
    ensures TransitAward(NearStation, route, [AnyChoice]) == AnyLinePoints < LinePoints
    ensures TransitAward(NearStation, route, [line, AnyChoice] + others) == AnyLinePoints
  {
    assert [line][0] == line;
    assert ([line, AnyChoice] + others)[1] == AnyChoice;
  }

  /** The household award case by case: +1 for a large complex with at least 1000
      households, +1 for a small complex with fewer, +1 under the wildcard, nothing
      otherwise, and in particular nothing for a large or small choice when the count is missing. */
  lemma HouseholdAwardCases(h: Household, households: Option<int>)
    ensures HouseholdAward(h, households) in {0, HouseholdPoints}
    ensures HouseholdAward(h, households) == HouseholdPoints
            <==> (h == LargeComplex && households.Some? && households.value >= 1000)
                 || (h == SmallComplex && households.Some? && households.value < 1000)
                 || h == AnySize
    ensures households.None? ==> (HouseholdAward(h, households) == HouseholdPoints <==> h == AnySize)
  {
  }

  /** The size wildcard is neutral: it never earns less than a specific size choice. */
  lemma AnySizeNeverScoresLess(h: Household, households: Option<int>)
    ensures HouseholdAward(AnySize, households) >= HouseholdAward(h, households)
  {
  }
}
