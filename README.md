# Libya natural-resources dashboard: the derived logic, in Dafny

The dashboard is a single-page view of Libya's oil, gas, water, mining and
agricultural resources. Almost all of it is static markup. This project models
the three places where the page computes something:

- **The resource database view** filters a fixed store of resource records.
  It keeps the records of the selected category (or of every category when
  "all" is selected) whose lower-cased name or location contains the
  lower-cased search term. It then sorts that fresh list in place, by
  discovery year (newest first) or by name. Name is also the fallback for
  every other key, including the declared `production` key. The view maps
  statuses and categories to badge labels and colours, and keeps one
  selection slot for the detail panel.
- **The interactive map** shows the points of one category (or all of
  them). It places each marker at `x%` and `y%` of the container, and keeps a
  selection for the details panel that changing the filter does not touch.
- **The crop donut of the agricultural view** turns each crop's percentage
  into an SVG dash and gap along the circle's circumference. An offset taken
  from a running accumulator rotates each dash so that it starts where the
  previous one ended.

Files: `text.dfy` (the string helpers `Lower`, `Contains` and
`NameCompare`), `seqs.dfy` (a generic `Filter` and its laws), `catalog.dfy`
(categories, statuses and their identifiers), `resource_database.dfy`,
`interactive_map.dfy` and `agricultural_resources.dfy`.

Modelling decisions:

- **State that the views update** lives in the classes
  `ResourceDatabase.DatabaseView` and `InteractiveMap.MapView`. Each event
  handler is a method that changes one field and says that the others are
  unchanged. `SelectionScenario` and `HiddenSelectionScenario` are client
  methods that walk through these transitions. The second one shows that the
  map's details panel can stay open on a point that the new filter hides.
- **The sort** is an insertion sort working in place on a fresh array, using
  the source's comparator (`b.discoveryYear - a.discoveryYear`, or
  `localeCompare` on names). The model proves that the result is sorted
  under the comparator and is a permutation of the input. The code does not
  rely on stability, so the model does not claim it.
- **The string helpers** are small definitions, not JavaScript's Unicode and
  locale semantics:
  - `toLowerCase` folds ASCII letters only.
  - `includes` is substring search.
  - `localeCompare` is lexicographic order by code point.
  - The filter and sort proofs depend only on these facts about the
    helpers: `Lower("")` is the empty string, `Contains(s, "")` always
    holds, and `NameLe` is total and transitive. Each holds of the
    JavaScript operations as well.
- **Exact reals**: the donut's circumference `2·π·16` is a parameter `circ`,
  and all its arithmetic is exact.
- **An unknown type filter shows nothing.** In both views it does not fall
  back to "all" (`UnknownTypeYieldsEmpty`, `UnknownFilterYieldsEmpty`).

## Model

| member | source | states |
|---|---|---|
| Text.Lower | src/components/ResourceDatabase.tsx:134-135 | the ASCII stand-in for `toLowerCase` keeps the length and folds each character on its own |
| Text.Contains | src/components/ResourceDatabase.tsx:134-135 | `includes`: t occurs in s as a contiguous run (laws in `ContainsEmpty` and `ContainsIffOccurs`) |
| Text.ContainsEmpty | src/components/ResourceDatabase.tsx:134-135 | every string includes the empty string |
| Text.ContainsIffOccurs | src/components/ResourceDatabase.tsx:134-135 | `Contains(s, t)` holds exactly when some window of s equals t (both directions) |
| Text.NameCompare | src/components/ResourceDatabase.tsx:142 | the code-point stand-in for `localeCompare` returns -1, 0 or 1 |
| Text.NameCompareAntisymmetric | src/components/ResourceDatabase.tsx:142 | swapping the arguments of the code-point stand-in negates its result |
| Text.NameCompareZeroIffEqual | src/components/ResourceDatabase.tsx:142 | the code-point stand-in for `localeCompare` returns 0 exactly for equal names |
| Text.NameLe | src/components/ResourceDatabase.tsx:142-143 | `localeCompare(a, b) <= 0`: a may stand before b (laws in `NameLeTotal`, `NameLeReflexive`, `NameLeTransitive`) |
| Text.NameLeTotal | src/components/ResourceDatabase.tsx:142-143 | any two names are ordered one way or the other |
| Text.NameLeReflexive | src/components/ResourceDatabase.tsx:142-143 | every name may precede itself |
| Text.NameLeTransitive | src/components/ResourceDatabase.tsx:142-143 | the name order is transitive |
| Seqs.Filter | src/components/ResourceDatabase.tsx:132-138 | the filtered list is no longer than the input, and everything in it satisfies the predicate |
| Seqs.FilterMembership | src/components/ResourceDatabase.tsx:132-138 | an element is in the filtered list exactly when it is in the input and satisfies the predicate |
| Seqs.FilterMultiplicity | src/components/ResourceDatabase.tsx:132-138 | a kept element occurs as often as in the input, and a rejected one not at all |
| Seqs.FilterConcat | src/components/InteractiveMap.tsx:52 | filtering a concatenation concatenates the filtered parts, so relative order is kept |
| Seqs.FilterIsSubsequence | src/components/InteractiveMap.tsx:52 | the filtered list is a subsequence of the input |
| Seqs.FilterAll | src/components/InteractiveMap.tsx:50-52 | a predicate true of every element gives back the input unchanged |
| Seqs.FilterNone | src/components/InteractiveMap.tsx:52 | a predicate true of no element gives the empty list |
| Catalog.CategoryId | src/components/ResourceDatabase.tsx:7 | no category is named "all" |
| Catalog.CategoryIdInjective | src/components/ResourceDatabase.tsx:7 | each category has its own known identifier |
| Catalog.StatusId | src/components/ResourceDatabase.tsx:12 | the identifier of each member of the status union (distinct and known by `StatusIdInjective`) |
| Catalog.StatusIdInjective | src/components/ResourceDatabase.tsx:12 | each status has its own known identifier |
| ResourceDatabase.MockResources | src/components/ResourceDatabase.tsx:21-86 | the four records of the store, field for field (ids unique by `StoreIdsUnique`) |
| ResourceDatabase.StoreIdsUnique | src/components/ResourceDatabase.tsx:21-86 | record ids are unique within the store |
| ResourceDatabase.ResourceTypes | src/components/ResourceDatabase.tsx:94-101 | the category selector's options, "all" first and then the five categories with their labels (every category covered by `EveryCategoryHasLabel`) |
| ResourceDatabase.FindLabel | src/components/ResourceDatabase.tsx:206 | `find(...)?.label` is defined exactly when some option has the id, and is then the label of the first such option |
| ResourceDatabase.TypeLabel | src/components/ResourceDatabase.tsx:206 | the category badge's label, looked up among the selector options of lines 94-101 (defined for every category by `EveryCategoryHasLabel`) |
| ResourceDatabase.EveryCategoryHasLabel | src/components/ResourceDatabase.tsx:94-101 | every category has a label in the selector, so a badge is never undefined |
| ResourceDatabase.TypeColor | src/components/ResourceDatabase.tsx:103-112 | `getTypeColor` with its grey default (laws in `TypeColorDefault`, `TypeColorsDistinct`) |
| ResourceDatabase.StatusColor | src/components/ResourceDatabase.tsx:114-121 | `getStatusColor` with its grey default (laws in `StatusColorDefault`, `StatusColorsDistinct`) |
| ResourceDatabase.StatusText | src/components/ResourceDatabase.tsx:123-130 | `getStatusText` with its "undetermined" default (laws in `StatusTextDefault`, `StatusTextsDistinct`) |
| ResourceDatabase.TypeColorDefault | src/components/ResourceDatabase.tsx:103-112 | the colour map is total; exactly mining and unknown types get the grey default |
| ResourceDatabase.TypeColorsDistinct | src/components/ResourceDatabase.tsx:103-112 | the four other categories get pairwise different colours |
| ResourceDatabase.StatusColorDefault | src/components/ResourceDatabase.tsx:114-121 | the status colour is total; exactly unknown statuses get grey |
| ResourceDatabase.StatusColorsDistinct | src/components/ResourceDatabase.tsx:114-121 | the three statuses get pairwise different colours |
| ResourceDatabase.StatusTextDefault | src/components/ResourceDatabase.tsx:123-130 | the status text is total; exactly the non-status strings read "undetermined" |
| ResourceDatabase.StatusTextsDistinct | src/components/ResourceDatabase.tsx:123-130 | active, inactive and planned get three different labels |
| ResourceDatabase.MatchesSearch | src/components/ResourceDatabase.tsx:134-135 | `matchesSearch`: the lower-cased name or location includes the lower-cased term |
| ResourceDatabase.MatchesType | src/components/ResourceDatabase.tsx:136 | `matchesType`: "all" or the record's category id |
| ResourceDatabase.Matches | src/components/ResourceDatabase.tsx:137 | `matchesSearch && matchesType` (used by `FilteredMembership`) |
| ResourceDatabase.Filtered | src/components/ResourceDatabase.tsx:132-138 | the filter step before sorting (soundness and completeness in `FilteredMembership`) |
| ResourceDatabase.FilteredMembership | src/components/ResourceDatabase.tsx:132-138 | soundness and completeness: a record survives the filter exactly when it is in the store and matches both the search and the type |
| ResourceDatabase.EmptyTermMatches | src/components/ResourceDatabase.tsx:134-135 | the empty search term matches every record |
| ResourceDatabase.NoFilterKeepsStore | src/components/ResourceDatabase.tsx:132-138 | no search term and "all" give back the whole store in store order |
| ResourceDatabase.UnknownTypeYieldsEmpty | src/components/ResourceDatabase.tsx:136-137 | a type that is neither "all" nor a category filters out every record |
| ResourceDatabase.Compare | src/components/ResourceDatabase.tsx:139-145 | the sort comparator: year difference for "year", name comparison for every other key (laws in `BeforeTotal`, `BeforeTransitive`) |
| ResourceDatabase.BeforeTotal | src/components/ResourceDatabase.tsx:139-145 | for every key the comparator orders any two records one way or the other |
| ResourceDatabase.BeforeTransitive | src/components/ResourceDatabase.tsx:139-145 | for every key the comparator's order is transitive |
| ResourceDatabase.SortedMeaning | src/components/ResourceDatabase.tsx:139-145 | a list sorted by year has non-increasing discovery years; one sorted by name or by any other key has non-decreasing names |
| ResourceDatabase.SwapAdjacent | src/components/ResourceDatabase.tsx:139 | an exchange of two neighbouring cards moves just those two and keeps the contents as a multiset |
| ResourceDatabase.InsertAt | src/components/ResourceDatabase.tsx:139-145 | one insertion step extends the sorted prefix by one card, leaves the cards after it in place, and keeps the contents as a multiset |
| ResourceDatabase.SortInPlace | src/components/ResourceDatabase.tsx:139-145 | after the in-place sort the array is sorted under the comparator and is a permutation of its old contents |
| ResourceDatabase.Query | src/components/ResourceDatabase.tsx:132-145 | the query result is a permutation of the filtered store, holds only matching records and every matching record, is no longer than the store, and is sorted under the key |
| ResourceDatabase.DatabaseView.constructor | src/components/ResourceDatabase.tsx:89-92 | initial state: empty search, "all", nothing selected, sorted by name |
| ResourceDatabase.DatabaseView.SetSearchTerm | src/components/ResourceDatabase.tsx:160 | typing changes only the search term |
| ResourceDatabase.DatabaseView.SetSelectedType | src/components/ResourceDatabase.tsx:168 | the category selector changes only the selected type |
| ResourceDatabase.DatabaseView.SetSortBy | src/components/ResourceDatabase.tsx:178 | the sort selector changes only the sort key |
| ResourceDatabase.DatabaseView.Select | src/components/ResourceDatabase.tsx:193 | clicking a card selects that record, whatever was selected, and changes nothing else (so a second click leaves it selected) |
| ResourceDatabase.DatabaseView.Dismiss | src/components/ResourceDatabase.tsx:247 | the close button clears the selection whatever it was |
| ResourceDatabase.DatabaseView.Shown | src/components/ResourceDatabase.tsx:328-331 | the cards are the sorted filtered store; the "shown N of M" summary has N equal to the number of cards and N ≤ M = the store's size |
| InteractiveMap.MockResourcePoints | src/components/InteractiveMap.tsx:15-22 | the six map points, field for field (in range by `MockPointsInRange`) |
| InteractiveMap.OfType | src/components/InteractiveMap.tsx:52 | the `resource.type === filterType` test of the filter (used by `FilterPointsOfType`) |
| InteractiveMap.FilterPoints | src/components/InteractiveMap.tsx:50-52 | the `'all'`-or-filter expression (laws in `FilterPointsOfType`, `FilterPointsKeepsOrder`, `UnknownFilterYieldsEmpty`) |
| InteractiveMap.MockPointsInRange | src/components/InteractiveMap.tsx:15-22 | every point's coordinates lie between 0 and 100 |
| InteractiveMap.AllShowsEveryPoint | src/components/InteractiveMap.tsx:50-51 | with the "all" filter the markers are the full point list, unchanged and in order |
| InteractiveMap.FilterPointsOfType | src/components/InteractiveMap.tsx:52 | any other filter keeps exactly the points of that type, with their multiplicity, as a subsequence of the input |
| InteractiveMap.FilterPointsKeepsOrder | src/components/InteractiveMap.tsx:50-52 | filtering distributes over concatenation, so no point overtakes another |
| InteractiveMap.UnknownFilterYieldsEmpty | src/components/InteractiveMap.tsx:52 | a filter that names no category draws no marker |
| InteractiveMap.MarkerPosition | src/components/InteractiveMap.tsx:115 | `left: x%`, `top: y%` as x/100·width and y/100·height (laws in `MarkerInsideContainer`, `MarkerCorners`, `MarkerMonotone`) |
| InteractiveMap.MarkerInsideContainer | src/components/InteractiveMap.tsx:115 | a point with coordinates between 0 and 100 is placed inside the container |
| InteractiveMap.MarkerCorners | src/components/InteractiveMap.tsx:115 | (0, 0) is placed at the top-left corner and (100, 100) at the bottom-right one |
| InteractiveMap.MarkerMonotone | src/components/InteractiveMap.tsx:115 | a point further right or down gets a marker further right or down |
| InteractiveMap.ResourceIcon | src/components/InteractiveMap.tsx:28-37 | `getResourceIcon` with the pin as default (laws in `IconCases`) |
| InteractiveMap.ResourceColor | src/components/InteractiveMap.tsx:39-48 | `getResourceColor` with its grey default (laws in `ColorsDistinct`) |
| InteractiveMap.IconCases | src/components/InteractiveMap.tsx:28-37 | exactly oil and gas share the lightning icon; exactly unknown types get the pin |
| InteractiveMap.ColorsDistinct | src/components/InteractiveMap.tsx:39-48 | each category has its own marker colour; exactly unknown types get the default |
| InteractiveMap.StatusLabel | src/components/InteractiveMap.tsx:133-135 | the details badge's two-way label (laws in `StatusLabelIff`) |
| InteractiveMap.StatusLabelIff | src/components/InteractiveMap.tsx:133-135 | the badge reads "active" exactly for active points; every other status, planned included, reads "inactive" |
| InteractiveMap.MapView.Visible | src/components/InteractiveMap.tsx:50-52 | the markers drawn for the current filter (`AllShowsEveryPoint`, `HiddenSelectionScenario`) |
| InteractiveMap.MapView.constructor | src/components/InteractiveMap.tsx:25-26 | initial state: nothing selected, filter "all" |
| InteractiveMap.MapView.SetFilterType | src/components/InteractiveMap.tsx:73 | a filter button changes only the filter; the selection is untouched |
| InteractiveMap.MapView.Select | src/components/InteractiveMap.tsx:113 | clicking a marker selects that point and leaves the filter alone (selecting it again changes nothing) |
| InteractiveMap.MapView.Close | src/components/InteractiveMap.tsx:140 | the close button clears the selection |
| AgriculturalResources.Crops | src/components/AgriculturalResources.tsx:25-31 | the five crops and their shares (well formed by `CropsWellFormed`) |
| AgriculturalResources.SliceLength | src/components/AgriculturalResources.tsx:91 | `val = circ · percent / 100` (laws in `DashPlusGap`, `SumSlicesScales`) |
| AgriculturalResources.SumSlices | src/components/AgriculturalResources.tsx:87-94 | the value of `acc` after the given crops (laws in `SumSlicesScales`, `SumSlicesMonotone`) |
| AgriculturalResources.ArcAt | src/components/AgriculturalResources.tsx:89-93 | the closed form of arc i that `ComputeArcs` is proved to produce |
| AgriculturalResources.Hue | src/components/AgriculturalResources.tsx:102 | arc i's stroke hue i·60 (equal to the legend's by `ArcHueMatchesLegend`) |
| AgriculturalResources.LegendHue | src/components/AgriculturalResources.tsx:76 | legend dot i's hue i·60 |
| AgriculturalResources.ComputeArcs | src/components/AgriculturalResources.tsx:86-108 | the loop yields one arc per crop, arc i equal to the reference arc whose offset is circ minus the slices before i; the final accumulator is the sum of all slices |
| AgriculturalResources.SumSlicesScales | src/components/AgriculturalResources.tsx:91-94 | the sum of the slice lengths is circ times the total percentage over 100 |
| AgriculturalResources.DashPlusGap | src/components/AgriculturalResources.tsx:91-92 | for every share, each slice's dash plus gap is exactly circ; when circ is positive and the share at most 100 the gap is non-negative |
| AgriculturalResources.FirstOffset | src/components/AgriculturalResources.tsx:87-93 | the first slice's offset is the whole circumference |
| AgriculturalResources.OffsetsContiguous | src/components/AgriculturalResources.tsx:93-94 | each slice starts where the previous one ends |
| AgriculturalResources.SumSlicesMonotone | src/components/AgriculturalResources.tsx:93-94 | with non-negative shares the accumulated length never decreases |
| AgriculturalResources.OffsetsNonIncreasing | src/components/AgriculturalResources.tsx:93-94 | with non-negative shares later slices never have a larger offset |
| AgriculturalResources.CropsWellFormed | src/components/AgriculturalResources.tsx:25-31 | the crop shares lie between 0 and 100 and add up to 100 |
| AgriculturalResources.CropsTileCircle | src/components/AgriculturalResources.tsx:87-94 | over the crop table the slices add up to exactly one circumference |
| AgriculturalResources.ArcHueMatchesLegend | src/components/AgriculturalResources.tsx:76-102 | for any crop list, arc i's stroke hue equals legend dot i's hue |
| AgriculturalResources.HuesDistinct | src/components/AgriculturalResources.tsx:102 | up to six crops, the table's five included, have hues that differ modulo 360 |
| AgriculturalResources.RenderedDonut | src/components/AgriculturalResources.tsx:84-110 | the rendered donut has five slices: the first offset is circ, each dash plus gap is circ with no negative gap, the offsets do not increase, and the accumulator ends at circ, so the last slice ends at the origin |

## Left out

- `toLowerCase`, `includes` and `localeCompare` are not modelled with
  their Unicode or Arabic collation semantics. `Lower` folds only ASCII, and
  `NameCompare` is code-point order. Only totality and transitivity of the
  name order are used.
- The sort algorithm of the JavaScript engine is not modelled. Insertion sort
  stands in for it, and only sortedness and permutation are claimed.
  Stability is not claimed, because the source does not promise it.
- The floating-point rounding of `Math.PI`-based values is not modelled. The
  circumference is an exact positive real parameter, and the dash array
  string `"val gap"` is the pair of numbers it is built from.
- Container sizes are parameters: the CSS layout that decides the map's
  pixel width and height is outside the model.
- JSX rendering, Tailwind class strings other than the colour maps, the
  icons' SVG, the map outline path and React's render lifecycle are left
  out. The handlers become methods, and `filteredResources` is recomputed by
  `Shown` and `Visible`.
- The technical-data fields of a record appear only as data: rendering them
  is markup.
- `src/components/StatisticsCharts.tsx`, `src/components/Overview.tsx`,
  `src/components/Header.tsx` and `src/App.tsx` are not part of this
  model. They hold static content, chart-library calls and navigation
  plumbing without data logic.
