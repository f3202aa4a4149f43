/**
  The resource database view: a fixed store of resource records, narrowed by
  a category filter and a case-insensitive search over name and location,
  then ordered by discovery year (newest first) or by name; a single
  selection slot opens and closes the detail view of one record.
 */
module ResourceDatabase {
  import opened Catalog
  import opened Text
  import opened Seqs

  datatype TechnicalData = TechnicalData(
    depth: Option<string>,
    quality: Option<string>,
    extractionMethod: Option<string>,
    lastUpdate: string)

  datatype Resource = Resource(
    id: string,
    name: string,
    kind: Category,
    location: string,
    discoveryYear: int,
    currentProduction: string,
    reserves: string,
    status: Status,
    technicalData: TechnicalData)

  /** The record store; it is a constant and nothing writes to it. */
  function MockResources(): seq<Resource> {
    [ Resource("1", "حقل السرير", Oil, "حوض سرت", 1961, "400,000 برميل/يوم", "2.8 مليار برميل", Active,
        TechnicalData(Some("2,800 متر"), Some("خفيف حلو (42° API)"), Some("ضخ طبيعي"), "2024-01-15")),
      Resource("2", "حقل الواحة", Oil, "حوض سرت", 1958, "300,000 برميل/يوم", "1.5 مليار برميل", Active,
        TechnicalData(Some("3,200 متر"), Some("متوسط (35° API)"), Some("ضخ صناعي"), "2024-01-12")),
      Resource("3", "حقل البريقة", Gas, "خليج سرت", 1969, "15 مليار قدم³/سنة", "500 مليار قدم³", Active,
        TechnicalData(Some("1,800 متر"), Some("غاز طبيعي جاف"), Some("إنتاج طبيعي"), "2024-01-10")),
      Resource("4", "خزان الحجر الرملي النوبي", Water, "الصحراء الليبية", 1953, "2.5 مليون م³/يوم", "35,000 مليار م³", Active,
        TechnicalData(Some("500-2,000 متر"), Some("مياه عذبة (TDS < 1000 ppm)"), Some("آبار ارتوازية"), "2024-01-08")) ]
  }

  /** Record ids are unique within the store. */
  lemma StoreIdsUnique()
    ensures forall i, j :: 0 <= i < j < |MockResources()| ==> MockResources()[i].id != MockResources()[j].id
  {
  }

  /** The options of the category selector: "all" followed by one entry per category. */
  function ResourceTypes(): seq<(string, string)> {
    [ ("all", "جميع الموارد"), ("oil", "النفط"), ("gas", "الغاز الطبيعي"),
      ("water", "المياه الجوفية"), ("mining", "التعدين"), ("agriculture", "الزراعة") ]
  }

  /** `resourceTypes.find(t => t.id === id)?.label`. */
  function TypeLabel(id: string): Option<string> {
    FindLabel(ResourceTypes(), id)
  }

  function FindLabel(options: seq<(string, string)>, id: string): (r: Option<string>)
    ensures r.Some? <==> exists k :: 0 <= k < |options| && options[k].0 == id
    ensures r.Some? ==> exists k :: (0 <= k < |options| && options[k].0 == id && r.value == options[k].1
                                     && forall m :: 0 <= m < k ==> options[m].0 != id)
  {
    if options == [] then None
    else if options[0].0 == id then Some(options[0].1)
    else FindLabel(options[1..], id)
  }

  /** Every category has a label, so a card's category badge is never empty. */
  lemma EveryCategoryHasLabel(c: Category)
    ensures TypeLabel(CategoryId(c)).Some?
  {
    var k := match c case Oil => 1 case Gas => 2 case Water => 3 case Mining => 4 case Agriculture => 5;
    assert ResourceTypes()[k].0 == CategoryId(c);
  }

  // Badge colours and status labels.

  const GreyBadge := "bg-gray-100 text-gray-800"
  const UndeterminedLabel := "غير محدد"

  function TypeColor(t: string): string {
    match t
    case "oil" => "bg-orange-100 text-orange-800"
    case "gas" => "bg-blue-100 text-blue-800"
    case "water" => "bg-cyan-100 text-cyan-800"
    case "mining" => GreyBadge
    case "agriculture" => "bg-green-100 text-green-800"
    case _ => GreyBadge
  }

  function StatusColor(t: string): string {
    match t
    case "active" => "bg-green-100 text-green-800"
    case "inactive" => "bg-red-100 text-red-800"
    case "planned" => "bg-yellow-100 text-yellow-800"
    case _ => GreyBadge
  }

  function StatusText(t: string): string {
    match t
    case "active" => "نشط"
    case "inactive" => "غير نشط"
    case "planned" => "مخطط"
    case _ => UndeterminedLabel
  }

  /** Mining shares the grey default badge; the other four categories have colours of their own. */
  lemma TypeColorDefault(t: string)
    ensures TypeColor(t) == GreyBadge <==> t == "mining" || !IsCategoryId(t)
  {
  }

  lemma TypeColorsDistinct(c: Category, d: Category)
    requires c != Mining && d != Mining
    ensures TypeColor(CategoryId(c)) == TypeColor(CategoryId(d)) <==> c == d
  {
  }

  /** Every string gets a label; only the three known statuses escape the "undetermined" one. */
  lemma StatusTextDefault(t: string)
    ensures StatusText(t) == UndeterminedLabel <==> !IsStatusId(t)
  {
  }

  lemma StatusTextsDistinct(s: Status, u: Status)
    ensures StatusText(StatusId(s)) == StatusText(StatusId(u)) <==> s == u
  {
  }

  lemma StatusColorDefault(t: string)
    ensures StatusColor(t) == GreyBadge <==> !IsStatusId(t)
  {
  }

  lemma StatusColorsDistinct(s: Status, u: Status)
    ensures StatusColor(StatusId(s)) == StatusColor(StatusId(u)) <==> s == u
  {
  }

  // The filter.

  predicate MatchesSearch(r: Resource, term: string) {
    Contains(Lower(r.name), Lower(term)) || Contains(Lower(r.location), Lower(term))
  }

  predicate MatchesType(r: Resource, selectedType: string) {
    selectedType == "all" || CategoryId(r.kind) == selectedType
  }

  predicate Matches(r: Resource, term: string, selectedType: string) {
    MatchesSearch(r, term) && MatchesType(r, selectedType)
  }

  /** The filter step of the query, before ordering. */
  function Filtered(store: seq<Resource>, term: string, selectedType: string): seq<Resource> {
    Filter(store, (r: Resource) => Matches(r, term, selectedType))
  }

  /** A record is kept exactly when it is in the store and passes both tests. */
  lemma FilteredMembership(store: seq<Resource>, term: string, selectedType: string, r: Resource)
    ensures r in Filtered(store, term, selectedType) <==> r in store && Matches(r, term, selectedType)
  {
    FilterMembership(store, (r: Resource) => Matches(r, term, selectedType), r);
  }

  /** The empty search term matches every record. */
  lemma EmptyTermMatches(r: Resource)
    ensures MatchesSearch(r, "")
  {
    assert Lower("") == "";
    ContainsEmpty(Lower(r.name));
  }

  /** With no search term and "all" selected, the whole store is shown in store order. */
  lemma NoFilterKeepsStore(store: seq<Resource>)
    ensures Filtered(store, "", "all") == store
  {
    forall r | r in store ensures Matches(r, "", "all") {
      EmptyTermMatches(r);
    }
    FilterAll(store, (r: Resource) => Matches(r, "", "all"));
  }

  /** A type that is neither "all" nor a category matches nothing; it does not fall back to all. */
  lemma UnknownTypeYieldsEmpty(store: seq<Resource>, term: string, selectedType: string)
    requires selectedType != "all" && !IsCategoryId(selectedType)
    ensures Filtered(store, term, selectedType) == []
  {
    forall r | r in store ensures !Matches(r, term, selectedType) {
      CategoryIdInjective(r.kind, r.kind);
    }
    FilterNone(store, (r: Resource) => Matches(r, term, selectedType));
  }

  // The ordering.

  /** `sortBy`; "production" is declared but has no case of its own in the comparator. */
  datatype SortKey = ByName | ByYear | ByProduction

  /** The comparator handed to `sort`: negative when a goes first. */
  function Compare(key: SortKey, a: Resource, b: Resource): int {
    match key
    case ByYear => b.discoveryYear - a.discoveryYear
    case ByName => NameCompare(a.name, b.name)
    case ByProduction => NameCompare(a.name, b.name)
  }

  predicate Before(key: SortKey, a: Resource, b: Resource) {
    Compare(key, a, b) <= 0
  }

  predicate SortedBy(key: SortKey, s: seq<Resource>) {
    forall i, j :: 0 <= i < j < |s| ==> Before(key, s[i], s[j])
  }

  lemma BeforeTotal(key: SortKey, a: Resource, b: Resource)
    ensures Before(key, a, b) || Before(key, b, a)
  {
    if key != ByYear {
      NameLeTotal(a.name, b.name);
    }
  }

  lemma BeforeTransitive(key: SortKey, a: Resource, b: Resource, c: Resource)
    requires Before(key, a, b) && Before(key, b, c)
    ensures Before(key, a, c)
  {
    if key != ByYear {
      NameLeTransitive(a.name, b.name, c.name);
    }
  }

  /** What a sorted list means for each key: newest first by year; otherwise by name, production included. */
  lemma SortedMeaning(key: SortKey, s: seq<Resource>)
    requires SortedBy(key, s)
    ensures key == ByYear ==> forall i, j :: 0 <= i < j < |s| ==> s[i].discoveryYear >= s[j].discoveryYear
    ensures key != ByYear ==> forall i, j :: 0 <= i < j < |s| ==> NameLe(s[i].name, s[j].name)
  {
    forall i, j | 0 <= i < j < |s| ensures Before(key, s[i], s[j]) {
    }
  }

  /** Exchanges two neighbouring cards of the array being sorted. */
  method SwapAdjacent(a: array<Resource>, j: int)
    requires 0 < j < a.Length
    modifies a
    ensures a[j - 1] == old(a[j]) && a[j] == old(a[j - 1])
    ensures forall k :: 0 <= k < a.Length && k != j - 1 && k != j ==> a[k] == old(a[k])
    ensures multiset(a[..]) == multiset(old(a[..]))
  {
    a[j - 1], a[j] := a[j], a[j - 1];
  }

  /** Moves a[i] left past every card that must come after it, so that a[..i + 1] is sorted. */
  method InsertAt(a: array<Resource>, key: SortKey, i: int)
    requires 0 <= i < a.Length && SortedBy(key, a[..i])
    modifies a
    ensures SortedBy(key, a[..i + 1])
    ensures multiset(a[..]) == multiset(old(a[..]))
    ensures a[i + 1..] == old(a[i + 1..])
  {
    var j := i;
    while j > 0 && !Before(key, a[j - 1], a[j])
      invariant 0 <= j <= i
      invariant a[i + 1..] == old(a[i + 1..])
      invariant forall p, q :: 0 <= p < q <= i && q != j ==> Before(key, a[p], a[q])
      invariant multiset(a[..]) == multiset(old(a[..]))
    {
      BeforeTotal(key, a[j - 1], a[j]);
      SwapAdjacent(a, j);
      j := j - 1;
    }
    forall p | 0 <= p < j ensures Before(key, a[p], a[j]) {
      if p < j - 1 {
        BeforeTransitive(key, a[p], a[j - 1], a[j]);
      }
    }
  }

  /** `Array.prototype.sort` with the comparator above, as an insertion sort on the array in place. */
  method SortInPlace(a: array<Resource>, key: SortKey)
    modifies a
    ensures SortedBy(key, a[..])
    ensures multiset(a[..]) == multiset(old(a[..]))
  {
    var i := 0;
    while i < a.Length
      invariant 0 <= i <= a.Length
      invariant SortedBy(key, a[..i])
      invariant multiset(a[..]) == multiset(old(a[..]))
    {
      InsertAt(a, key, i);
      i := i + 1;
    }
    assert a[..i] == a[..];
  }

  /**
    `filteredResources`: filter the store into a fresh array, then sort that
    array. The store is a value here, so it cannot be reordered.
   */
  method Query(store: seq<Resource>, term: string, selectedType: string, key: SortKey)
    returns (r: seq<Resource>)
    ensures multiset(r) == multiset(Filtered(store, term, selectedType))
    ensures forall x :: x in r ==> MatchesSearch(x, term) && MatchesType(x, selectedType)
    ensures forall x :: x in store && Matches(x, term, selectedType) ==> x in r
    ensures |r| <= |store|
    ensures SortedBy(key, r)
  {
    var f := Filtered(store, term, selectedType);
    var a := new Resource[|f|](k requires 0 <= k < |f| => f[k]);
    assert a[..] == f;
    SortInPlace(a, key);
    r := a[..];
    assert |r| == |multiset(r)| == |multiset(f)| == |f|;
    forall x | x in store && Matches(x, term, selectedType) ensures x in r {
      FilteredMembership(store, term, selectedType, x);
      assert x in multiset(f);
    }
    forall x | x in r ensures Matches(x, term, selectedType) {
      assert x in multiset(r);
      FilteredMembership(store, term, selectedType, x);
    }
  }

  /**
    The view's state: the search term, the selected category, the record whose
    detail view is open, and the sort key.
   */
  class DatabaseView {
    var searchTerm: string
    var selectedType: string
    var selectedResource: Option<Resource>
    var sortBy: SortKey

    constructor ()
      ensures searchTerm == "" && selectedType == "all" && selectedResource == None && sortBy == ByName
    {
      searchTerm := "";
      selectedType := "all";
      selectedResource := None;
      sortBy := ByName;
    }

    /** Typing in the search box. */
    method SetSearchTerm(t: string)
      modifies this
      ensures searchTerm == t
      ensures selectedType == old(selectedType) && selectedResource == old(selectedResource) && sortBy == old(sortBy)
    {
      searchTerm := t;
    }

    /** Choosing a category in the selector; any string the control sends is accepted. */
    method SetSelectedType(t: string)
      modifies this
      ensures selectedType == t
      ensures searchTerm == old(searchTerm) && selectedResource == old(selectedResource) && sortBy == old(sortBy)
    {
      selectedType := t;
    }

    method SetSortBy(key: SortKey)
      modifies this
      ensures sortBy == key
      ensures searchTerm == old(searchTerm) && selectedType == old(selectedType) && selectedResource == old(selectedResource)
    {
      sortBy := key;
    }

    /** Clicking a card opens its detail view, whatever was open before. */
    method Select(r: Resource)
      modifies this
      ensures selectedResource == Some(r)
      ensures searchTerm == old(searchTerm) && selectedType == old(selectedType) && sortBy == old(sortBy)
    {
      selectedResource := Some(r);
    }

    /** The close button of the detail view. */
    method Dismiss()
      modifies this
      ensures selectedResource == None
      ensures searchTerm == old(searchTerm) && selectedType == old(selectedType) && sortBy == old(sortBy)
    {
      selectedResource := None;
    }

    /** The cards shown, and the "shown N of M" summary under them. */
    method Shown() returns (cards: seq<Resource>, shown: nat, total: nat)
      ensures multiset(cards) == multiset(Filtered(MockResources(), searchTerm, selectedType))
      ensures SortedBy(sortBy, cards)
      ensures shown == |cards| && total == |MockResources()| && shown <= total
    {
      cards := Query(MockResources(), searchTerm, selectedType, sortBy);
      shown, total := |cards|, |MockResources()|;
    }
  }

  /** Selecting the same card twice leaves it selected; dismissing clears it. */
  method SelectionScenario(r: Resource, s: Resource) {
    var v := new DatabaseView();
    v.Select(r);
    v.Select(r);
    assert v.selectedResource == Some(r);
    v.Select(s);
    v.Dismiss();
    assert v.selectedResource == None;
    v.SetSortBy(ByYear);
    var cards, shown, total := v.Shown();
    assert total == 4 && shown <= 4;
  }
}
