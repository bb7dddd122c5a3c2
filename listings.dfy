/**
 One listing of the apartment catalogue (one unit type in one complex) as the
 recommender sees it after loading: the columns its decisions read, with a
 missing or unparseable number (pandas NaN) written as None.
 */
module Listings {

  datatype Option<T> = None | Some(value: T)

  datatype Listing = Listing(
    name: string,              // 단지명, the complex name
    households: Option<int>,   // 세대수, the number of households in the complex
    area: real,                // 전용면적, exclusive-use area in square metres
    buildingType: string,      // 건축유형, text such as 신축 or 재건축
    station: string,           // 역세권, "Y" when the complex is near a station
    route: string,             // 노선, the subway lines serving the complex, as text
    price: Option<real>        // 현재호가, the asking price in 억 won after numeric coercion
  )

  /** The household count from which a complex is a large complex (대단지). */
  const LargeComplexSize: int := 1000

  /** `price <= budget` in pandas: false when the price is NaN. */
  predicate Affordable(price: Option<real>, budget: real)
  {
    price.Some? && price.value <= budget
  }

  /** `세대수 >= 1000` in pandas: false when the count is NaN. */
  predicate IsLargeComplex(households: Option<int>)
  {
    households.Some? && households.value >= LargeComplexSize
  }

  /** `세대수 < 1000` in pandas: also false when the count is NaN. */
  predicate IsSmallComplex(households: Option<int>)
  {
    households.Some? && households.value < LargeComplexSize
  }

  /** A NaN count is neither large nor small; a present count is exactly one of the two. */
  lemma SizeClassesPartitionPresentCounts(households: Option<int>)
    ensures households.None? ==> !IsLargeComplex(households) && !IsSmallComplex(households)
    ensures households.Some? ==> IsLargeComplex(households) != IsSmallComplex(households)
  {
  }
}
