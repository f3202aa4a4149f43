/**
  The interactive map view: resource points placed at percentage coordinates
  inside the map container, a category filter whose "all" setting shows every
  point, and a selection slot for the details panel that the filter leaves alone.
 */
module InteractiveMap {
  import opened Catalog
  import opened Seqs

  datatype ResourcePoint = ResourcePoint(
    id: string,
    name: string,
    kind: Category,
    x: real,
    y: real,
    production: string,
    reserves: string,
    status: Status)

  function MockResourcePoints(): seq<ResourcePoint> {
    [ ResourcePoint("1", "حقل السرير", Oil, 65.0, 35.0, "400,000 برميل/يوم", "2.8 مليار برميل", Active),
      ResourcePoint("2", "حقل الواحة", Oil, 55.0, 40.0, "300,000 برميل/يوم", "1.5 مليار برميل", Active),
      ResourcePoint("3", "حقل البريقة", Gas, 70.0, 50.0, "15 مليار قدم³/سنة", "500 مليار قدم³", Active),
      ResourcePoint("4", "خزان الحجر الرملي النوبي", Water, 40.0, 60.0, "2.5 مليون م³/يوم", "35,000 مليار م³", Active),
      ResourcePoint("5", "منطقة الجفارة", Agriculture, 30.0, 45.0, "2 مليون طن/سنة", "500,000 هكتار", Active),
      ResourcePoint("6", "مناجم الحديد", Mining, 45.0, 25.0, "1.5 مليون طن/سنة", "100 مليون طن", Active) ]
  }

  /** The coordinates are percentages of the container. */
  predicate InPercentRange(p: ResourcePoint) {
    0.0 <= p.x <= 100.0 && 0.0 <= p.y <= 100.0
  }

  lemma MockPointsInRange()
    ensures forall p :: p in MockResourcePoints() ==> InPercentRange(p)
  {
  }

  // The type filter.

  predicate OfType(p: ResourcePoint, filterType: string) {
    CategoryId(p.kind) == filterType
  }

  /** `filterType === 'all' ? points : points.filter(p => p.type === filterType)`. */
  function FilterPoints(points: seq<ResourcePoint>, filterType: string): seq<ResourcePoint> {
    if filterType == "all" then points
    else Filter(points, (p: ResourcePoint) => OfType(p, filterType))
  }

  /**
    Any other filter keeps exactly the points of that type, each as often as it
    occurs, as a subsequence of the input (so in their original order).
   */
  lemma FilterPointsOfType(points: seq<ResourcePoint>, filterType: string)
    requires filterType != "all"
    ensures forall p :: p in FilterPoints(points, filterType) <==> p in points && OfType(p, filterType)
    ensures forall p :: OfType(p, filterType) ==> multiset(FilterPoints(points, filterType))[p] == multiset(points)[p]
    ensures IsSubsequence(FilterPoints(points, filterType), points)
  {
    var keep := (p: ResourcePoint) => OfType(p, filterType);
    forall p ensures p in FilterPoints(points, filterType) <==> p in points && OfType(p, filterType) {
      FilterMembership(points, keep, p);
    }
    forall p | OfType(p, filterType)
      ensures multiset(FilterPoints(points, filterType))[p] == multiset(points)[p]
    {
      FilterMultiplicity(points, keep, p);
    }
    FilterIsSubsequence(points, keep);
  }

  /** Filtering a list split in two filters each part, so no point overtakes another. */
  lemma FilterPointsKeepsOrder(a: seq<ResourcePoint>, b: seq<ResourcePoint>, filterType: string)
    ensures FilterPoints(a + b, filterType) == FilterPoints(a, filterType) + FilterPoints(b, filterType)
  {
    if filterType != "all" {
      FilterConcat(a, b, (p: ResourcePoint) => OfType(p, filterType));
    }
  }

  /** A filter that names no category shows no point at all. */
  lemma UnknownFilterYieldsEmpty(points: seq<ResourcePoint>, filterType: string)
    requires filterType != "all" && !IsCategoryId(filterType)
    ensures FilterPoints(points, filterType) == []
  {
    forall p | p in points ensures !OfType(p, filterType) {
      CategoryIdInjective(p.kind, p.kind);
    }
    FilterNone(points, (p: ResourcePoint) => OfType(p, filterType));
  }

  // Marker placement.

  /** `left: x%` and `top: y%` of a container of the given size. */
  function MarkerPosition(p: ResourcePoint, width: real, height: real): (pos: (real, real)) {
    (p.x / 100.0 * width, p.y / 100.0 * height)
  }

  /** A point with percentage coordinates lands inside the container. */
  lemma MarkerInsideContainer(p: ResourcePoint, width: real, height: real)
    requires InPercentRange(p) && width >= 0.0 && height >= 0.0
    ensures 0.0 <= MarkerPosition(p, width, height).0 <= width
    ensures 0.0 <= MarkerPosition(p, width, height).1 <= height
  {
    var fx, fy := p.x / 100.0, p.y / 100.0;
    var (left, top) := MarkerPosition(p, width, height);
    assert left == fx * width && top == fy * height;
    assert 0.0 <= left <= width by {
      assert 0.0 <= fx <= 1.0;
      assert width - left == (1.0 - fx) * width >= 0.0;
    }
    assert 0.0 <= top <= height by {
      assert 0.0 <= fy <= 1.0;
      assert height - top == (1.0 - fy) * height >= 0.0;
    }
  }

  /** (0, 0) sits at the top-left corner and (100, 100) at the bottom-right one. */
  lemma MarkerCorners(p: ResourcePoint, width: real, height: real)
    ensures p.x == 0.0 && p.y == 0.0 ==> MarkerPosition(p, width, height) == (0.0, 0.0)
    ensures p.x == 100.0 && p.y == 100.0 ==> MarkerPosition(p, width, height) == (width, height)
  {
    var pos := MarkerPosition(p, width, height);
    if p.x == 0.0 && p.y == 0.0 {
      assert pos.0 == 0.0 * width == 0.0;
      assert pos.1 == 0.0 * height == 0.0;
    } else if p.x == 100.0 && p.y == 100.0 {
      assert pos.0 == 1.0 * width == width;
      assert pos.1 == 1.0 * height == height;
    }
  }

  /** Placement is linear: moving a point right or down moves its marker right or down. */
  lemma MarkerMonotone(p: ResourcePoint, q: ResourcePoint, width: real, height: real)
    requires p.x <= q.x && p.y <= q.y && width >= 0.0 && height >= 0.0
    ensures MarkerPosition(p, width, height).0 <= MarkerPosition(q, width, height).0
    ensures MarkerPosition(p, width, height).1 <= MarkerPosition(q, width, height).1
  {
    assert (q.x - p.x) / 100.0 * width >= 0.0;
    assert (q.y - p.y) / 100.0 * height >= 0.0;
  }

  // Marker colours, icons and the status badge.

  datatype Icon = Zap | Droplets | Mountain | Wheat | MapPin

  function ResourceIcon(t: string): Icon {
    match t
    case "oil" => Zap
    case "gas" => Zap
    case "water" => Droplets
    case "mining" => Mountain
    case "agriculture" => Wheat
    case _ => MapPin
  }

  const DefaultMarkerColor := "bg-gray-500 hover:bg-gray-600"

  function ResourceColor(t: string): string {
    match t
    case "oil" => "bg-orange-500 hover:bg-orange-600"
    case "gas" => "bg-blue-500 hover:bg-blue-600"
    case "water" => "bg-cyan-500 hover:bg-cyan-600"
    case "mining" => "bg-gray-600 hover:bg-gray-700"
    case "agriculture" => "bg-green-500 hover:bg-green-600"
    case _ => DefaultMarkerColor
  }

  /** Oil and gas share the lightning icon; only unknown types get the pin. */
  lemma IconCases(t: string)
    ensures ResourceIcon(t) == Zap <==> t == "oil" || t == "gas"
    ensures ResourceIcon(t) == MapPin <==> !IsCategoryId(t)
  {
  }

  /** Every category has its own marker colour, and none of them is the default one. */
  lemma ColorsDistinct(c: Category, d: Category, t: string)
    ensures ResourceColor(CategoryId(c)) == ResourceColor(CategoryId(d)) <==> c == d
    ensures ResourceColor(t) == DefaultMarkerColor <==> !IsCategoryId(t)
  {
  }

  const ActiveLabel := "نشط"
  const InactiveLabel := "غير نشط"

  /** The details panel's badge: "active" or, for every other status, "inactive". */
  function StatusLabel(s: Status): string {
    if s == Active then ActiveLabel else InactiveLabel
  }

  lemma StatusLabelIff(s: Status)
    ensures StatusLabel(s) == ActiveLabel <==> s == Active
    ensures StatusLabel(s) == InactiveLabel <==> s != Active
  {
  }

  // The view's state.

  class MapView {
    var selectedResource: Option<ResourcePoint>
    var filterType: string

    constructor ()
      ensures selectedResource == None && filterType == "all"
    {
      selectedResource := None;
      filterType := "all";
    }

    /** The markers currently drawn. */
    function Visible(): seq<ResourcePoint>
      reads this
    {
      FilterPoints(MockResourcePoints(), filterType)
    }

    /** A filter button: only the filter changes; the open details panel stays open. */
    method SetFilterType(t: string)
      modifies this
      ensures filterType == t && selectedResource == old(selectedResource)
    {
      filterType := t;
    }

    /** Clicking a marker. */
    method Select(p: ResourcePoint)
      modifies this
      ensures selectedResource == Some(p) && filterType == old(filterType)
    {
      selectedResource := Some(p);
    }

    /** The close button of the details panel. */
    method Close()
      modifies this
      ensures selectedResource == None && filterType == old(filterType)
    {
      selectedResource := None;
    }
  }

  /** With "all" the markers are the whole point list, unchanged and in order. */
  lemma AllShowsEveryPoint(v: MapView)
    requires v.filterType == "all"
    ensures v.Visible() == MockResourcePoints()
  {
  }

  /**
    Selecting the oil field and then switching the filter to gas keeps the
    panel open on a point whose marker is no longer drawn.
   */
  method HiddenSelectionScenario() {
    var v := new MapView();
    var p := MockResourcePoints()[0];
    v.Select(p);
    v.Select(p);
    assert v.selectedResource == Some(p);
    v.SetFilterType("gas");
    FilterPointsOfType(MockResourcePoints(), "gas");
    assert v.selectedResource == Some(p) && p !in v.Visible();
    v.Close();
    assert v.selectedResource == None;
  }
}
