/**
 * The body-mass-index (VKİ) results screen: the formula, the eight-row
 * category table with its first-match threshold chain, the progress-bar
 * target, and the screen state that the computation writes.
 */
module VkiResults {
  import opened Wrappers

  /** One row of the category table; `range` is only a display label. */
  datatype VkiCategory = VkiCategory(range: string, category: string, description: string, color: string)

  const VkiCategories: seq<VkiCategory> := [
    VkiCategory("< 16.0", "Aşırı zayıf", "Ciddi sağlık sorunlarına yol açabilecek düzeyde yetersiz kilo", "#E3A2ED"),
    VkiCategory("16.0 – 16.9", "Çok zayıf", "Normalin oldukça altında, dikkat gerektirir", "#C9A1FF"),
    VkiCategory("17.0 – 18.4", "Zayıf", "Kilo almak gerekebilir", "#A1C9FF"),
    VkiCategory("18.5 – 24.9", "Normal kilolu", "Sağlıklı kilo aralığı", "#A1FFDB"),
    VkiCategory("25.0 – 29.9", "Fazla kilolu", "Dikkat edilmeli, egzersiz ve diyet önerilir", "#FFFEA1"),
    VkiCategory("30.0 – 34.9", "1. Derece obez (Hafif)", "Sağlık riskleri başlar", "#FFCFA1"),
    VkiCategory("35.0 – 39.9", "2. Derece obez (Orta)", "Ciddi sağlık riskleri mevcut", "#FFA1A1"),
    VkiCategory("≥ 40.0", "3. Derece obez (Morbid)", "Acil müdahale gerektiren düzeyde obezite", "#FF7373")
  ]

  /** The lower bounds of bands 1..7, as the comparisons of the threshold chain use them. */
  const Thresholds: seq<real> := [16.0, 17.0, 18.5, 25.0, 30.0, 35.0, 40.0]

  /** Colour the screen shows before any index has been computed. */
  const InitialColor: string := "#A1FFDB"

  /** The number of thresholds in `ts` that are at most `v`. */
  function CountAtOrBelow(ts: seq<real>, v: real): (n: nat)
    ensures n <= |ts|
  {
    if ts == [] then 0
    else (if ts[0] <= v then 1 else 0) + CountAtOrBelow(ts[1..], v)
  }

  /** `v` lies in band `k`: at or above its lower threshold, below its upper one. */
  predicate InBand(v: real, k: nat)
    requires k < |VkiCategories|
  {
    (k == 0 || Thresholds[k - 1] <= v) && (k == 7 || v < Thresholds[k])
  }

  /**
   * The index of the table row the threshold chain selects: the first test
   * `v < threshold` that holds wins, and the last row catches everything >= 40.
   */
  function DetermineBand(v: real): (k: nat)
    ensures k < |VkiCategories|
    ensures InBand(v, k)
  {
    if v < 16.0 then 0
    else if v < 17.0 then 1
    else if v < 18.5 then 2
    else if v < 25.0 then 3
    else if v < 30.0 then 4
    else if v < 35.0 then 5
    else if v < 40.0 then 6
    else 7
  }

  /** Exactly one band holds any value: the one `DetermineBand` selects. */
  lemma BandUnique(v: real, k: nat)
    requires k < |VkiCategories|
    requires InBand(v, k)
    ensures k == DetermineBand(v)
  {
  }

  /** Each threshold is at most the next one. */
  ghost predicate Ascending(ts: seq<real>) {
    forall i, j :: 0 <= i < j < |ts| ==> ts[i] <= ts[j]
  }

  /**
   * Against an ascending list, a value lying between the (k-1)-th and the
   * k-th threshold has exactly k thresholds at or below it.
   */
  lemma {:induction false} CountBetweenSorted(ts: seq<real>, v: real, k: nat)
    requires Ascending(ts)
    requires k <= |ts|
    requires (k == 0 || ts[k - 1] <= v) && (k == |ts| || v < ts[k])
    ensures CountAtOrBelow(ts, v) == k
  {
    if ts != [] {
      if k == 0 {
        assert v < ts[0];
        CountBetweenSorted(ts[1..], v, 0);
      } else {
        assert ts[0] <= ts[k - 1];
        CountBetweenSorted(ts[1..], v, k - 1);
      }
    }
  }

  /** The threshold chain selects the row numbered by how many thresholds the value reaches. */
  lemma BandIsThresholdCount(v: real)
    ensures DetermineBand(v) == CountAtOrBelow(Thresholds, v)
  {
    CountBetweenSorted(Thresholds, v, DetermineBand(v));
  }

  /** Counting thresholds is monotone in the value counted against. */
  lemma {:induction false} CountAtOrBelowMonotone(ts: seq<real>, v1: real, v2: real)
    requires v1 <= v2
    ensures CountAtOrBelow(ts, v1) <= CountAtOrBelow(ts, v2)
  {
    if ts != [] {
      CountAtOrBelowMonotone(ts[1..], v1, v2);
    }
  }

  /** A larger index never falls into a lower band. */
  lemma BandMonotone(v1: real, v2: real)
    requires v1 <= v2
    ensures DetermineBand(v1) <= DetermineBand(v2)
  {
    BandIsThresholdCount(v1);
    BandIsThresholdCount(v2);
    CountAtOrBelowMonotone(Thresholds, v1, v2);
  }

  /** The band edges are lower-inclusive: the examples 16.95, 18.5 and 40. */
  lemma BandEdges()
    ensures DetermineBand(15.99) == 0 && DetermineBand(16.0) == 1
    ensures DetermineBand(16.95) == 1 && DetermineBand(17.0) == 2
    ensures DetermineBand(18.49) == 2 && DetermineBand(18.5) == 3
    ensures DetermineBand(24.99) == 3 && DetermineBand(25.0) == 4
    ensures DetermineBand(40.0) == 7
    ensures VkiCategories[DetermineBand(18.5)].category == "Normal kilolu"
  {
  }

  /** No two rows share a category name. */
  lemma CategoriesDistinct(i: nat, j: nat)
    requires i < |VkiCategories| && j < |VkiCategories|
    requires VkiCategories[i].category == VkiCategories[j].category
    ensures i == j
  {
  }

  /** The rows the table highlights: those whose category is the shown one. */
  function HighlightedRows(category: string): (rows: set<nat>)
  {
    set k: nat | k < |VkiCategories| && VkiCategories[k].category == category
  }

  /** At most one row is highlighted, and a row's own name highlights just that row. */
  lemma HighlightAtMostOne(category: string)
    ensures |HighlightedRows(category)| <= 1
    ensures forall k :: 0 <= k < |VkiCategories| ==> HighlightedRows(VkiCategories[k].category) == {k}
  {
    var rows := HighlightedRows(category);
    if rows != {} {
      var k :| k in rows;
      forall j | j in rows ensures j == k {
        CategoriesDistinct(j, k);
      }
      assert rows == {k};
    }
    forall k | 0 <= k < |VkiCategories| ensures HighlightedRows(VkiCategories[k].category) == {k} {
      forall j | j in HighlightedRows(VkiCategories[k].category) ensures j == k {
        CategoriesDistinct(j, k);
      }
    }
  }

  /** The index for a height in centimetres and a weight in kilograms. */
  function Vki(heightCm: real, weightKg: real): (v: real)
    requires heightCm > 0.0
    ensures v * ((heightCm / 100.0) * (heightCm / 100.0)) == weightKg
    ensures weightKg > 0.0 ==> v > 0.0
  {
    var heightInMeters := heightCm / 100.0;
    weightKg / (heightInMeters * heightInMeters)
  }

  /** 170 cm and 70 kg give about 24.22, in the "Normal kilolu" band. */
  lemma VkiExample()
    ensures 24.22 < Vki(170.0, 70.0) < 24.23
    ensures DetermineBand(Vki(170.0, 70.0)) == 3
  {
    var v := Vki(170.0, 70.0);
    assert v * 2.89 == 70.0;
  }

  /** The progress bar's target fraction, with 50 and above filling the bar. */
  function ProgressTarget(vki: real): (t: real)
    ensures vki >= 0.0 ==> 0.0 <= t <= 1.0
    ensures t == 1.0 <==> vki >= 50.0
    ensures vki <= 50.0 ==> t * 50.0 == vki
  {
    if vki > 50.0 then 1.0 else vki / 50.0
  }

  /** The screen's state: the computed index and the row fields it displays. */
  class VkiResultsScreen {
    var vki: real
    var category: string
    var description: string
    var categoryColor: string

    /** Either nothing has been computed yet, or all three fields come from the index's row. */
    ghost predicate Valid()
      reads this
    {
      (vki == 0.0 && category == "" && description == "" && categoryColor == InitialColor)
      || (vki > 0.0 && ShowsRow(DetermineBand(vki)))
    }

    /** Category, description and colour all come from table row `k`. */
    ghost predicate ShowsRow(k: nat)
      reads this
      requires k < |VkiCategories|
    {
      category == VkiCategories[k].category
      && description == VkiCategories[k].description
      && categoryColor == VkiCategories[k].color
    }

    constructor ()
      ensures Valid()
      ensures vki == 0.0 && category == "" && description == "" && categoryColor == InitialColor
    {
      vki := 0.0;
      category := "";
      description := "";
      categoryColor := InitialColor;
    }

    /** Shows the row the threshold chain selects for `vkiValue`. */
    method DetermineCategory(vkiValue: real)
      modifies this`category, this`description, this`categoryColor
      ensures ShowsRow(DetermineBand(vkiValue))
    {
      var row := VkiCategories[DetermineBand(vkiValue)];
      category := row.category;
      description := row.description;
      categoryColor := row.color;
    }

    /**
     * Computes the index when both inputs are present and positive; otherwise
     * the state is left as it was. `None` stands for a missing, empty or
     * unparsable parameter.
     */
    method CalculateVki(height: Option<real>, weight: Option<real>)
      requires Valid()
      modifies this
      ensures Valid()
      ensures ComputesFrom(height, weight) ==>
                vki == Vki(height.value, weight.value) && ShowsRow(DetermineBand(vki))
      ensures !ComputesFrom(height, weight) ==>
                vki == old(vki) && category == old(category)
                && description == old(description) && categoryColor == old(categoryColor)
    {
      if height.Some? && weight.Some? {
        var heightInMeters := height.value / 100.0;
        var weightInKg := weight.value;
        if heightInMeters > 0.0 && weightInKg > 0.0 {
          var vkiValue := Vki(height.value, weightInKg);
          vki := vkiValue;
          DetermineCategory(vkiValue);
        }
      }
    }
  }

  /** The inputs are both present and positive, so an index is computed. */
  predicate ComputesFrom(height: Option<real>, weight: Option<real>) {
    height.Some? && weight.Some? && height.value > 0.0 && weight.value > 0.0
  }

  /**
   * Mounting the screen: a fresh state, then one computation. The shown index
   * is 0 with the initial fields, or positive with the fields of its own row,
   * and the progress target for it lies in [0, 1].
   */
  method ShowResults(height: Option<real>, weight: Option<real>)
    returns (vki: real, category: string, color: string)
    ensures ComputesFrom(height, weight) <==> vki > 0.0
    ensures ComputesFrom(height, weight) ==>
              vki == Vki(height.value, weight.value)
              && category == VkiCategories[DetermineBand(vki)].category
              && color == VkiCategories[DetermineBand(vki)].color
              && HighlightedRows(category) == {DetermineBand(vki)}
    ensures !ComputesFrom(height, weight) ==>
              vki == 0.0 && category == "" && color == InitialColor && HighlightedRows(category) == {}
    ensures 0.0 <= ProgressTarget(vki) <= 1.0
  {
    var screen := new VkiResultsScreen();
    screen.CalculateVki(height, weight);
    vki, category, color := screen.vki, screen.category, screen.categoryColor;
    HighlightAtMostOne(category);
    if ComputesFrom(height, weight) {
      assert HighlightedRows(VkiCategories[DetermineBand(vki)].category) == {DetermineBand(vki)};
    } else {
      assert forall k :: 0 <= k < |VkiCategories| ==> VkiCategories[k].category != "";
    }
  }
}
