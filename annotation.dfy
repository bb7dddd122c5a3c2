/**
 The explanation attached to each recommendation: a list of tags (near a
 station, large or small complex, building type) and a note on whether the
 listing meets the chosen building condition.
 */
module Annotation {
  import opened Text
  import opened Listings
  import opened Scoring
  import opened Selection

  const StationTag: string := "역세권"
  const LargeTag: string := "대단지"
  const SmallTag: string := "소단지"

  /** Which of the two condition notes a recommendation carries. */
  datatype Note = ConditionMet | Alternative

  /** One recommendation as shown: the complex name, its tags and its condition note. */
  datatype Card = Card(name: string, tags: seq<string>, note: Note)

  /** The shape of a listing's tag list: the station tag first when the complex is near a
      station, then exactly one size tag, large from 1000 households on and small otherwise
      (a missing count included), and the building type last. */
  predicate WellTagged(tags: seq<string>, l: Listing)
  {
    && |tags| == (if l.station == NearStation then 3 else 2)
    && (l.station == NearStation ==> tags[0] == StationTag)
    && tags[|tags| - 2] == (if IsLargeComplex(l.households) then LargeTag else SmallTag)
    && tags[|tags| - 1] == l.buildingType
  }

  /** The tag list of one listing, built by appending as the source does. */
  method TagList(l: Listing) returns (tags: seq<string>)
    ensures WellTagged(tags, l)
  {
    tags := [];
    if l.station == NearStation {
      tags := tags + [StationTag];
    }
    if IsLargeComplex(l.households) {
      tags := tags + [LargeTag];
    } else {
      tags := tags + [SmallTag];
    }
    tags := tags + [l.buildingType];
  }

  /** `card` explains listing `l`: its name, its tag list, and a note that says the condition
      is met exactly when the listing earned the condition award. */
  predicate Explains(card: Card, l: Listing, condition: Condition)
  {
    && card.name == l.name
    && WellTagged(card.tags, l)
    && (card.note == ConditionMet <==> ConditionAward(condition, l.buildingType) == ConditionPoints)
  }

  /** The card of one recommendation. The note tests the building type as it stands while the
      award tests it stripped; the two agree because the condition texts have no blank ends. */
  method CardFor(l: Listing, condition: Condition) returns (card: Card)
    ensures Explains(card, l, condition)
  {
    var tags := TagList(l);
    var matched := Contains(l.buildingType, ConditionText(condition));
    ConditionMatchIgnoresStrip(condition, l.buildingType);
    var note := if matched then ConditionMet else Alternative;
    card := Card(l.name, tags, note);
  }

  /** The cards of the recommendations, one per recommendation, in order. */
  method Annotate(top: seq<Ranked>, condition: Condition) returns (cards: seq<Card>)
    ensures |cards| == |top|
    ensures forall k :: 0 <= k < |top| ==> Explains(cards[k], top[k].listing, condition)
  {
    cards := [];
    for i := 0 to |top|
      invariant |cards| == i
      invariant forall k :: 0 <= k < i ==> Explains(cards[k], top[k].listing, condition)
    {
      var card := CardFor(top[i].listing, condition);
      cards := cards + [card];
    }
  }

  /** The station tag leads the list exactly when the complex is near a station, and every
      tag before the building type is one of the three fixed tags. */
  lemma StationTagLeadsIffNear(tags: seq<string>, l: Listing)
    requires WellTagged(tags, l)
    ensures tags[0] == StationTag <==> l.station == NearStation
    ensures forall k :: 0 <= k < |tags| - 1 ==> tags[k] in {StationTag, LargeTag, SmallTag}
  {
    assert LargeTag != StationTag && SmallTag != StationTag by {
      assert LargeTag[0] != StationTag[0];
      assert SmallTag[0] != StationTag[0];
    }
  }

  /** The size tag and the household award: the large tag appears exactly when choosing a
      large complex earns the award; with a present count the small tag appears exactly when
      choosing a small complex earns it; with a missing count the tag says small although
      choosing a small complex earns nothing. */
  lemma SizeTagVersusHouseholdAward(tags: seq<string>, l: Listing)
    requires WellTagged(tags, l)
    ensures tags[|tags| - 2] == LargeTag <==> HouseholdAward(LargeComplex, l.households) == HouseholdPoints
    ensures l.households.Some? ==>
              (tags[|tags| - 2] == SmallTag <==> HouseholdAward(SmallComplex, l.households) == HouseholdPoints)
    ensures l.households.None? ==>
              tags[|tags| - 2] == SmallTag && HouseholdAward(SmallComplex, l.households) == 0
  {
    assert LargeTag != SmallTag by {
      assert LargeTag[0] != SmallTag[0];
    }
  }
}
