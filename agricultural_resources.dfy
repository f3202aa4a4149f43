/**
  The crop-distribution donut of the agricultural view. Each crop's
  percentage becomes one SVG circle whose stroke dash covers that share of the
  circumference; a running accumulator shifts each dash so that it starts
  where the previous one ended. The circumference 2·π·16 is kept abstract as
  a positive real `circ`, and the arithmetic is exact.
 */
module AgriculturalResources {

  datatype Crop = Crop(name: string, percent: real)

  function Crops(): seq<Crop> {
    [ Crop("القمح", 35.0), Crop("الشعير", 25.0), Crop("الزيتون", 15.0),
      Crop("التمور", 10.0), Crop("الخضروات", 15.0) ]
  }

  /** One rendered slice: its hue, the two numbers of `strokeDasharray`, and `strokeDashoffset`. */
  datatype Arc = Arc(hue: int, dash: real, gap: real, offset: real)

  /** The hue of arc i, `hsl(i*60, …)` on the circle. */
  function Hue(i: nat): int {
    i * 60
  }

  /** The hue of legend dot i, `hsl(i*60, …)` in the list beside the donut. */
  function LegendHue(i: nat): int {
    i * 60
  }

  /** `val`: the share of the circumference that one crop covers. */
  function SliceLength(circ: real, percent: real): real {
    circ * (percent / 100.0)
  }

  /** The sum of the slice lengths of the given crops. */
  function SumSlices(crops: seq<Crop>, circ: real): real {
    if crops == [] then 0.0
    else SumSlices(crops[..|crops| - 1], circ) + SliceLength(circ, crops[|crops| - 1].percent)
  }

  function TotalPercent(crops: seq<Crop>): real {
    if crops == [] then 0.0
    else TotalPercent(crops[..|crops| - 1]) + crops[|crops| - 1].percent
  }

  /** The arc the view draws for crop i, with `acc` equal to the slices before it. */
  function ArcAt(crops: seq<Crop>, circ: real, i: nat): Arc
    requires i < |crops|
  {
    var val := SliceLength(circ, crops[i].percent);
    Arc(Hue(i), val, circ - val, circ - SumSlices(crops[..i], circ))
  }

  /** The `crops.map` with the accumulator `acc` that it updates after each slice. */
  method ComputeArcs(crops: seq<Crop>, circ: real) returns (arcs: seq<Arc>, acc: real)
    ensures |arcs| == |crops|
    ensures forall i :: 0 <= i < |crops| ==> arcs[i] == ArcAt(crops, circ, i)
    ensures acc == SumSlices(crops, circ)
  {
    arcs, acc := [], 0.0;
    var i := 0;
    while i < |crops|
      invariant 0 <= i <= |crops|
      invariant |arcs| == i
      invariant acc == SumSlices(crops[..i], circ)
      invariant forall k :: 0 <= k < i ==> arcs[k] == ArcAt(crops, circ, k)
    {
      var val := SliceLength(circ, crops[i].percent);
      var dashOffset := circ - acc;
      arcs := arcs + [Arc(Hue(i), val, circ - val, dashOffset)];
      acc := acc + val;
      assert crops[..i + 1][..i] == crops[..i];
      i := i + 1;
    }
    assert crops[..i] == crops;
  }

  /** The slices add up to the same share of the circumference as the percentages add up to of 100. */
  lemma {:induction false} SumSlicesScales(crops: seq<Crop>, circ: real)
    ensures SumSlices(crops, circ) == circ * (TotalPercent(crops) / 100.0)
  {
    if crops != [] {
      var init := crops[..|crops| - 1];
      SumSlicesScales(init, circ);
      var p := crops[|crops| - 1].percent;
      assert circ * (TotalPercent(init) / 100.0) + circ * (p / 100.0)
          == circ * ((TotalPercent(init) + p) / 100.0);
    }
  }

  /** Every slice's dash and gap fill the circumference exactly; for a share of at most 100 the gap is not negative. */
  lemma DashPlusGap(crops: seq<Crop>, circ: real, i: nat)
    requires i < |crops|
    ensures ArcAt(crops, circ, i).dash + ArcAt(crops, circ, i).gap == circ
    ensures circ > 0.0 && crops[i].percent <= 100.0 ==> ArcAt(crops, circ, i).gap >= 0.0
  {
    var p := crops[i].percent;
    assert circ - circ * (p / 100.0) == circ * ((100.0 - p) / 100.0);
  }

  /** The first slice starts at the origin: its offset is the whole circumference. */
  lemma FirstOffset(crops: seq<Crop>, circ: real)
    requires |crops| > 0
    ensures ArcAt(crops, circ, 0).offset == circ
  {
    assert crops[..0] == [];
  }

  /** Each slice starts where the previous one ends. */
  lemma OffsetsContiguous(crops: seq<Crop>, circ: real, i: nat)
    requires 0 < i < |crops|
    ensures ArcAt(crops, circ, i).offset == ArcAt(crops, circ, i - 1).offset - ArcAt(crops, circ, i - 1).dash
  {
    assert crops[..i][..i - 1] == crops[..i - 1];
  }

  predicate NonNegative(crops: seq<Crop>) {
    forall k :: 0 <= k < |crops| ==> crops[k].percent >= 0.0
  }

  lemma {:induction false} SumSlicesMonotone(crops: seq<Crop>, circ: real, i: nat, j: nat)
    requires i <= j <= |crops| && circ >= 0.0 && NonNegative(crops)
    ensures SumSlices(crops[..i], circ) <= SumSlices(crops[..j], circ)
    decreases j
  {
    if i < j {
      SumSlicesMonotone(crops, circ, i, j - 1);
      assert crops[..j][..j - 1] == crops[..j - 1];
      var p := crops[j - 1].percent;
      assert circ * (p / 100.0) >= 0.0;
    }
  }

  /** With no negative percentage, later slices never have a larger offset. */
  lemma OffsetsNonIncreasing(crops: seq<Crop>, circ: real, i: nat, j: nat)
    requires i <= j < |crops| && circ > 0.0 && NonNegative(crops)
    ensures ArcAt(crops, circ, j).offset <= ArcAt(crops, circ, i).offset
  {
    SumSlicesMonotone(crops, circ, i, j);
  }

  /** The crop table is well formed: shares between 0 and 100 that add up to 100. */
  lemma CropsWellFormed()
    ensures NonNegative(Crops())
    ensures forall k :: 0 <= k < |Crops()| ==> Crops()[k].percent <= 100.0
    ensures TotalPercent(Crops()) == 100.0
  {
    var c := Crops();
    assert c[..1][..0] == [];
    assert TotalPercent(c[..1]) == 35.0;
    assert c[..2][..1] == c[..1];
    assert TotalPercent(c[..2]) == 60.0;
    assert c[..3][..2] == c[..2];
    assert TotalPercent(c[..3]) == 75.0;
    assert c[..4][..3] == c[..3];
    assert TotalPercent(c[..4]) == 85.0;
    assert c[..4] == c[..|c| - 1];
  }

  /** After the last crop the accumulator has gone round the circle exactly once. */
  lemma CropsTileCircle(circ: real)
    ensures SumSlices(Crops(), circ) == circ
  {
    CropsWellFormed();
    SumSlicesScales(Crops(), circ);
  }

  /** Arc i and legend dot i share a hue, whatever the number of crops. */
  lemma ArcHueMatchesLegend(crops: seq<Crop>, circ: real, i: nat)
    requires i < |crops|
    ensures ArcAt(crops, circ, i).hue == LegendHue(i)
  {
  }

  /** Up to six crops, in particular the five of the table, have hues that differ even modulo 360. */
  lemma HuesDistinct(crops: seq<Crop>, circ: real, i: nat, j: nat)
    requires i < |crops| && j < |crops| && |crops| <= 6 && i != j
    ensures ArcAt(crops, circ, i).hue % 360 != ArcAt(crops, circ, j).hue % 360
  {
  }

  /** The donut as rendered: five slices that tile the circle from its origin. */
  method RenderedDonut(circ: real) returns (arcs: seq<Arc>, acc: real)
    requires circ > 0.0
    ensures |arcs| == 5 && arcs[0].offset == circ
    ensures forall i :: 0 <= i < 5 ==> arcs[i].dash + arcs[i].gap == circ && arcs[i].gap >= 0.0
    ensures forall i, j :: 0 <= i <= j < 5 ==> arcs[j].offset <= arcs[i].offset
    ensures acc == circ && arcs[4].offset - arcs[4].dash == 0.0
  {
    arcs, acc := ComputeArcs(Crops(), circ);
    CropsWellFormed();
    FirstOffset(Crops(), circ);
    forall i | 0 <= i < 5 ensures arcs[i].dash + arcs[i].gap == circ && arcs[i].gap >= 0.0 {
      DashPlusGap(Crops(), circ, i);
    }
    forall i, j | 0 <= i <= j < 5 ensures arcs[j].offset <= arcs[i].offset {
      OffsetsNonIncreasing(Crops(), circ, i, j);
    }
    CropsTileCircle(circ);
    assert Crops()[..5] == Crops();
    assert Crops()[..4] + [Crops()[4]] == Crops();
  }
}
