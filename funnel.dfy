// The recruiter dashboard's candidate funnel: six stages, each with its
// count, a bar scaled to the largest count, and the conversion into the next
// stage, plus the overall hired-over-sourced conversion. Ratios are exact
// reals; the one-decimal `toFixed` rounding of the printed rates is not
// modelled.

module Funnel {
  import opened Wrappers

  /** The stage counts as the object literal lists them, in insertion order. */
  datatype Entry = Entry(key: string, count: nat)

  datatype Stage = Stage(key: string, title: string, icon: string)

  const Stages: seq<Stage> := [
    Stage("sourced", "Sourced", "Search"),
    Stage("applied", "Applied", "FileText"),
    Stage("screening", "Screening", "Filter"),
    Stage("interview", "Interview", "MessageCircle"),
    Stage("offer", "Offer", "Gift"),
    Stage("hired", "Hired", "CheckCircle")
  ]

  /** `pipelineData[key]`: the entry's count, or nothing when the key is absent. */
  function Lookup(data: seq<Entry>, key: string): (r: Option<nat>)
    ensures r.None? <==> forall i :: 0 <= i < |data| ==> data[i].key != key
    ensures r.Some? ==> exists i :: 0 <= i < |data| && data[i].key == key && data[i].count == r.value
  {
    if data == [] then None
    else if data[0].key == key then Some(data[0].count)
    else
      var r := Lookup(data[1..], key);
      assert r.Some? ==> exists i :: 1 <= i < |data| && data[i].key == key && data[i].count == r.value by {
        if r.Some? {
          var i :| 0 <= i < |data[1..]| && data[1..][i].key == key && data[1..][i].count == r.value;
          assert data[i + 1] == data[1..][i];
        }
      }
      r
  }

  /** `pipelineData[key] || 0`: an absent stage counts as zero. */
  function CountOf(data: seq<Entry>, key: string): nat
  {
    match Lookup(data, key)
    case Some(n) => n
    case None => 0
  }

  /**
   * `Math.max(...Object.values(pipelineData))`; with no entries `Math.max()`
   * is minus infinity, which the model writes as nothing.
   */
  function MaxCount(data: seq<Entry>): (m: Option<nat>)
    ensures m.None? <==> data == []
    ensures m.Some? ==> ((exists i :: 0 <= i < |data| && data[i].count == m.value)
      && forall i :: 0 <= i < |data| ==> data[i].count <= m.value)
  {
    if data == [] then None
    else
      var rest := MaxCount(data[1..]);
      if rest.Some? && rest.value > data[0].count then
        assert forall i :: 1 <= i < |data| ==> data[i] == data[1..][i - 1];
        var i :| 0 <= i < |data[1..]| && data[1..][i].count == rest.value;
        assert data[i + 1].count == rest.value;
        rest
      else
        assert forall i :: 1 <= i < |data| ==> data[i] == data[1..][i - 1];
        Some(data[0].count)
  }

  /** No count, present or absent, exceeds the largest one. */
  lemma CountAtMostMax(data: seq<Entry>, key: string)
    requires data != []
    ensures CountOf(data, key) <= MaxCount(data).value
  {
  }

  /** The bar width: count / max × 100 when the largest count is positive, else 0. */
  function BarPercent(count: nat, maxCount: Option<nat>): (p: real)
    ensures maxCount.Some? && maxCount.value > 0 ==> p * maxCount.value as real == 100.0 * count as real
    ensures !(maxCount.Some? && maxCount.value > 0) ==> p == 0.0
  {
    if maxCount.Some? && maxCount.value > 0 then count as real / maxCount.value as real * 100.0 else 0.0
  }

  /** Every stage's bar lies between empty and full, and the largest stage's is full. */
  lemma BarWithinTrack(data: seq<Entry>, key: string)
    ensures 0.0 <= BarPercent(CountOf(data, key), MaxCount(data)) <= 100.0
    ensures MaxCount(data).Some? && MaxCount(data).value > 0 && CountOf(data, key) == MaxCount(data).value
      ==> BarPercent(CountOf(data, key), MaxCount(data)) == 100.0
  {
    var m := MaxCount(data);
    if m.Some? && m.value > 0 {
      CountAtMostMax(data, key);
      PercentOfWhole(CountOf(data, key), m.value);
    }
  }

  lemma PercentOfWhole(part: nat, whole: nat)
    requires 0 < whole && part <= whole
    ensures 0.0 <= part as real / whole as real * 100.0 <= 100.0
    ensures part == whole ==> part as real / whole as real * 100.0 == 100.0
  {
    var q := part as real / whole as real;
    assert q * whole as real == part as real;
    assert q <= 1.0;
    if part == whole {
      assert q == 1.0;
    }
  }

  /** `count > 0 ? nextCount / count × 100 : 0`. */
  function Conversion(count: nat, nextCount: nat): (c: real)
    ensures count > 0 ==> c * count as real == 100.0 * nextCount as real
    ensures count == 0 ==> c == 0.0
  {
    if count > 0 then nextCount as real / count as real * 100.0 else 0.0
  }

  /** A conversion is at most 100% exactly when the next stage is no larger. */
  lemma ConversionAtMostHundred(count: nat, nextCount: nat)
    requires count > 0
    ensures Conversion(count, nextCount) <= 100.0 <==> nextCount <= count
  {
    var n := count as real;
    if nextCount <= count {
      assert nextCount as real / n <= 1.0;
    } else {
      assert nextCount as real / n > 1.0;
    }
  }

  /** One drawn stage: its count, bar and, except on the last stage, its conversion. */
  datatype Row = Row(stage: Stage, count: nat, percent: real, conversion: Option<real>)

  function RowAt(data: seq<Entry>, index: nat): (r: Row)
    requires index < |Stages|
    ensures r.stage == Stages[index] && r.count == CountOf(data, Stages[index].key)
    ensures r.conversion.None? <==> index == |Stages| - 1
    ensures index < |Stages| - 1 ==> r.conversion == Some(Conversion(r.count, CountOf(data, Stages[index + 1].key)))
  {
    var count := CountOf(data, Stages[index].key);
    var nextCount := if index + 1 < |Stages| then CountOf(data, Stages[index + 1].key) else 0;
    var conversion := Conversion(count, nextCount);
    Row(Stages[index], count, BarPercent(count, MaxCount(data)), if index < |Stages| - 1 then Some(conversion) else None)
  }

  function Rows(data: seq<Entry>): (rows: seq<Row>)
    ensures |rows| == |Stages| && forall i :: 0 <= i < |Stages| ==> rows[i] == RowAt(data, i)
  {
    seq(|Stages|, i requires 0 <= i < |Stages| => RowAt(data, i))
  }

  /** With no data at all every stage shows 0, an empty bar and 0% conversion. */
  lemma EmptyDataDrawsZeros(i: nat)
    requires i < |Stages|
    ensures RowAt([], i).count == 0 && RowAt([], i).percent == 0.0
    ensures i < |Stages| - 1 ==> RowAt([], i).conversion == Some(0.0)
  {
  }

  /** A JavaScript quotient that may be NaN. */
  datatype Ratio = Finite(value: real) | NotANumber

  /**
   * The overall conversion: hired / sourced × 100 when sourced is positive,
   * else 0. Unlike the stage rows it reads `hired` without the `|| 0`
   * default, so an absent hired count gives NaN.
   */
  function OverallConversion(data: seq<Entry>): (r: Ratio)
    ensures r == NotANumber <==> CountOf(data, "sourced") > 0 && Lookup(data, "hired").None?
    ensures r.Finite? && CountOf(data, "sourced") > 0 ==> r.value * CountOf(data, "sourced") as real == 100.0 * CountOf(data, "hired") as real
    ensures CountOf(data, "sourced") == 0 ==> r == Finite(0.0)
  {
    var sourced := CountOf(data, "sourced");
    if sourced > 0 then
      match Lookup(data, "hired")
      case Some(h) => Finite(h as real / sourced as real * 100.0)
      case None => NotANumber
    else Finite(0.0)
  }

  /** The dashboard's two pictures of the last step agree whenever the hired count is there. */
  lemma OverallMatchesStages(data: seq<Entry>)
    requires Lookup(data, "hired").Some? && CountOf(data, "sourced") > 0
    ensures OverallConversion(data) == Finite(Conversion(CountOf(data, "sourced"), CountOf(data, "hired")))
  {
  }
}
