# Apartment complex recommender (잠원동) — a Dafny model

The application asks a buyer for cash, a loan amount, an area group (평형대),
a building condition (건물 컨디션), subway lines and a complex size (단지 규모).
It scores every listing of its catalogue against these choices, keeps the
listings whose asking price (현재호가) is within the total budget `cash + loan`, sorts them by
score (점수) and then by household count (세대수), both descending, and shows
the first three. Each one is shown with a tag list and a note on the building
condition.

This project models that decision logic and proves properties of it:

- `text.dfy` (module `Text`): Python's substring test `a in b` and `str.strip()`.
  It proves that stripping never changes whether a text with non-blank ends
  occurs in a string.
- `listings.dfy` (module `Listings`): one catalogue row. A missing or
  unparseable number (pandas NaN) is `None`, and every comparison with it is
  false, as in pandas.
- `scoring.dfy` (module `Scoring`): the five awards, their sum `Score` and the
  scoring routine `ScoreComplex`. `ScoreComplex` is written as the source writes
  it: one accumulator raised branch by branch, with the line test a
  short-circuiting scan. It is proved equal to `Score`. Points are counted in
  half-points, so +2, +1.5 and +1 are 4, 3 and 2, and the largest score, 7.5,
  is 15.
- `selection.dfy` (module `Selection`): the 점수 column, the budget filter and
  the top-three selection, all composed in `Recommend`.
- `annotation.dfy` (module `Annotation`): the tag list and the condition note.

Points of `app.py` worth knowing, each proved below:

- The budget filter (app.py:72) tests the coerced asking price alone against
  `total_budget = cash + loan`; a missing price never passes.
- The area bands (app.py:36-41) are in m² of exclusive-use area: up to 33,
  34–66, 67–99 and from 100. Areas strictly between 33 and 34, 66 and 67, or
  99 and 100 fit no band (`AreaBandGaps`).
- The line wildcard 상관없음 gives +1 whatever the listing, less than the +1.5
  a matching line gives (`AnyLineScoresBelowExactLine`). The size wildcard
  gives +1, never less than a specific size choice (`AnySizeNeverScoresLess`).
- An empty line selection earns 0 for every listing (`NoLinesNoTransitAward`).

## Model

| member | source | states |
|---|---|---|
| `Text.Strip` | app.py:45 | the result occurs in `s`, has no whitespace at either end, and is `s` itself when `s` has non-blank ends |
| `Text.StripCutsOnlyBlankEnds` | app.py:45 | `s.strip()` is a slice of `s`, and everything of `s` before and after that slice is whitespace |
| `Text.StripIsTheOnlyBlankFreeTrim` | app.py:45 | any slice of `s` with only whitespace around it and no whitespace at its own ends is `s.strip()`, so the two facts above determine the result |
| `Text.IsSpace` | app.py:45 | the characters `str.strip()` removes: those for which `str.isspace()` holds |
| `Text.Contains` | app.py:46 | Python's `needle in hay` on strings: some slice of `hay` equals `needle` (the same test is used at app.py:50 and 97) |
| `Text.StripKeepsContains` | app.py:45-46 | a text with non-blank ends occurs in `s.strip()` if and only if it occurs in `s` |
| `Scoring.ConditionText` | app.py:21 | each of the four condition options is a non-empty text with no blank at either end |
| `Scoring.BudgetAward` | app.py:33-34 | +2 when the price is present and at most the total budget, else nothing |
| `Scoring.InAreaBand` | app.py:37-41 | the four m² ranges of the area groups: up to 33, 34–66, 67–99 and from 100 |
| `Scoring.AreaAward` | app.py:36-43 | +1.5 when the area lies in the chosen group's m² range, else nothing |
| `Scoring.ConditionAward` | app.py:45-47 | +1.5 when the condition text occurs in the stripped building type, else nothing |
| `Scoring.ServesChosenLine` | app.py:50 | some chosen line occurs in the 노선 text (`any` over the chosen lines, false for none) |
| `Scoring.TransitAward` | app.py:49-53 | +1 under the line wildcard; otherwise +1.5 when 역세권 is "Y" and some chosen line occurs in 노선, else nothing |
| `Scoring.HouseholdAward` | app.py:55-60 | +1 for a large choice and ≥ 1000 households, a small choice and < 1000, or the wildcard, else nothing |
| `Scoring.Score` | app.py:30-62 | the reference definition of the score: the sum of the five awards, each decided independently of the others |
| `Scoring.ScoreComplex` | app.py:30-62 | the accumulated score equals the sum of the five awards and is at most 7.5 points |
| `Scoring.ScoreWithinRange` | app.py:30-62 | every score lies between 0 and 7.5 points (15 half-points), whatever the row and the choices |
| `Scoring.BudgetAwardExactly` | app.py:33-34 | +2 is given exactly when the price is present and at most the budget; the boundary is inclusive; a missing price never earns it |
| `Scoring.AreaAwardByBand` | app.py:36-43 | +1.5 is given exactly when the area falls in the chosen group's range (≤33, 34–66, 67–99, ≥100 m²) |
| `Scoring.AreaBandsDisjoint` | app.py:37-41 | no area lies in the ranges of two different groups |
| `Scoring.AreaBandGaps` | app.py:37-41 | an area strictly between 33 and 34, 66 and 67, or 99 and 100 m² earns no area award under any group |
| `Scoring.ConditionMatchIgnoresStrip` | app.py:45-47 | +1.5 is given exactly when the condition text occurs in the building type, stripped or not |
| `Scoring.AnyLineFixesTransitAward` | app.py:49-53 | with the wildcard among the chosen lines, the transit award is exactly +1 for every row |
| `Scoring.ChosenLinesTransitAward` | app.py:49-51 | without the wildcard the award is +1.5 exactly when 역세권 is "Y" and some chosen line occurs in 노선, and 0 otherwise |
| `Scoring.NoLinesNoTransitAward` | app.py:49-51 | an empty line selection earns no transit award |
| `Scoring.AnyLineScoresBelowExactLine` | app.py:49-53 | a near-station row on a chosen line earns +1.5 for that line but only +1 once the wildcard is chosen, alone or beside the line |
| `Scoring.HouseholdAwardCases` | app.py:55-60 | +1 for 대단지 with ≥ 1000 households, for 소단지 with < 1000, and for 상관없음; 0 otherwise, in particular for a missing count unless the choice is the wildcard |
| `Scoring.AnySizeNeverScoresLess` | app.py:55-60 | the size wildcard never earns less than a specific size choice |
| `Listings.Affordable` | app.py:33 | pandas `현재호가 <= total_budget`: a present price at most the budget; false for NaN (the same test filters at app.py:72) |
| `Listings.IsLargeComplex` | app.py:55 | pandas `세대수 >= 1000`: false for NaN (the same test picks the size tag at app.py:89) |
| `Listings.IsSmallComplex` | app.py:57 | pandas `세대수 < 1000`: also false for NaN |
| `Listings.SizeClassesPartitionPresentCounts` | app.py:55-58 | a present household count is exactly one of large or small; a missing one is neither |
| `Selection.CountRanksAtLeast` | app.py:73 | the 세대수 key of the descending sort: a larger count first, a missing count after every present one |
| `Selection.RanksAtLeast` | app.py:73 | `a` may come before `b` when sorted by 점수 and then 세대수, both descending |
| `Selection.RanksAtLeastIsTotalPreorder` | app.py:73 | the (점수, 세대수) descending order, with a missing count last, is reflexive, total and transitive |
| `Selection.ScoreColumn` | app.py:70 | the 점수 column has one entry per row, each that row's score |
| `Selection.FilterAffordable` | app.py:72 | the filter keeps exactly the rows priced at or under the budget, in catalogue order, each with its score |
| `Selection.Candidates` | app.py:72 | the rows the filter keeps: those with a present price at most the total budget, in catalogue order, each with its score |
| `Selection.CandidatesCount` | app.py:72 | the filter keeps as many rows as there are rows with a present price within budget |
| `Selection.CandidatesSound` | app.py:72 | every kept row is a catalogue row, with its own score, whose price is present and within budget |
| `Selection.CandidatesComplete` | app.py:72 | every row whose price is present and within budget is kept |
| `Selection.CandidatesIncreasing` | app.py:72 | the kept rows appear in strictly increasing catalogue order |
| `Selection.BestPosition` | app.py:73 | the chosen element ranks at least as high as every element of the sequence, and every element before it ranks strictly lower |
| `Selection.TakeBest` | app.py:73 | the result has min(3, n) elements, is a sub-multiset of the input, is sorted by (점수, 세대수) descending, and no input element left out outranks any element of the result |
| `Selection.SelectionOfCandidates` | app.py:72-73 | a selection from the kept rows consists of affordable rows with their scores, no row twice |
| `Selection.UnpickedRowsRankBelow` | app.py:72-73 | no affordable row that was not picked outranks a picked row |
| `Selection.Recommend` | app.py:67-73 | min(3, #affordable) rows with distinct rows; each is a catalogue row with its own score, a present price at most the total budget and the budget award; they are in non-increasing (점수, 세대수) order; no affordable row left out has a higher key than a returned one |
| `Annotation.TagList` | app.py:86-94 | the tags are 역세권 first exactly when 역세권 is "Y", then 대단지 for ≥ 1000 households and 소단지 otherwise, and the building type last: 3 tags near a station and 2 otherwise |
| `Annotation.StationTagLeadsIffNear` | app.py:86-93 | the station tag leads the list exactly when 역세권 is "Y", and every tag before the building type is one of the three fixed tags |
| `Annotation.SizeTagVersusHouseholdAward` | app.py:89-92 | the 대단지 tag appears exactly when a large choice earns the household award; with a present count, 소단지 appears exactly when a small choice earns it; with a missing count the tag says 소단지 although a small choice earns nothing |
| `Annotation.CardFor` | app.py:86-102 | the card carries the complex name, a well-formed tag list, and the "condition met" note exactly when the row earned the condition award |
| `Annotation.Annotate` | app.py:77-102 | one card per recommendation, in order, each explaining its row as `CardFor` does |

## Left out

- The Streamlit form, page configuration and markdown rendering (app.py:2-28, 75-116) are UI. The form's values are parameters: the total budget and `Preferences`.
- Loading the CSV file (app.py:65) is I/O. The catalogue is a parameter.
- The forward fill over 단지명, 준공연도 and 세대수 (app.py:66) is an ingestion step. The model takes its output as the catalogue. A 세대수 left empty by it is `None`.
- Parsing by `pandas.to_numeric(errors='coerce')` (app.py:67) is not modelled. The coerced asking price is given as `Option<real>`, with `None` for a value that does not parse.
- The estimated transaction price (app.py:68, 82) and the completion year (준공연도, app.py:79) are only displayed. They are not fields of the model.
- Display formatting is not modelled: rounding the area, `int()` of counts, and joining the tags with " · " (app.py:79-81, 94).
- A missing 건축유형 cell (NaN) is not modelled. The building type is always text. In the source, NaN would be scored as the text "nan", and joining the tags would fail.
- A missing 노선 or 역세권 cell needs no case of its own. The source reads 노선 through `str()` (app.py:50), so NaN becomes the text "nan", which the model can hold and in which none of the line options occurs. A NaN 역세권 is not equal to "Y" (app.py:50, 87), so the model represents it as any text other than "Y".
- A missing 전용면적 is not modelled. The area is always a number.
- The float addition `total_budget = cash + loan` (app.py:27) is not modelled. `Recommend` takes the total budget as the value that addition produced. The form lets a user type amounts such as 15.1 and 10.2, whose float sum is not their exact sum, so the model does not say which real number `cash + loan` becomes. Given that value, the model's comparisons with it are the source's.
- Prices and areas are the real numbers their floats stand for. The score is a float sum of the awards 2, 1.5 and 1 in the source, which is exact, and an exact sum of half-points here.
- Selection.Recommend: promises no order among rows whose (점수, 세대수) keys are equal. The source's sort gives no such promise either. The model's selection happens to take the earliest such row first.
- Unicode: `Text.IsSpace` is the set of characters `str.isspace()` accepts. Nothing else about Unicode (normalisation, case) is modelled, and the code needs none of it.
