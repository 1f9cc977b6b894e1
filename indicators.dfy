/**
 * The indicator tables of the macro-simulator prototype and the pure
 * computations over them: the delta of a simulated value against its
 * baseline, the decision of how a delta is displayed, and the start gate
 * that asks whether any indicator has changed.
 */
module Indicators {
  import opened Wrappers

  /** The six tracked indicators, in the order their table declares them. */
  datatype Key = ExchangeRate | BaseRate | Cpi | GdpGrowth | Unemployment | OilPrice

  /** The declaration order, which `Object.entries` follows. */
  const Keys: seq<Key> := [ExchangeRate, BaseRate, Cpi, GdpGrowth, Unemployment, OilPrice]

  /** Observed baseline value of each indicator. */
  function Baseline(k: Key): real {
    match k
    case ExchangeRate => 1380.0
    case BaseRate => 3.5
    case Cpi => 3.2
    case GdpGrowth => 2.1
    case Unemployment => 3.7
    case OilPrice => 78.0
  }

  /** A slider range: bounds and step. */
  datatype Range = Range(min: real, max: real, step: real)

  function RangeOf(k: Key): Range {
    match k
    case ExchangeRate => Range(1100.0, 1600.0, 10.0)
    case BaseRate => Range(0.0, 7.0, 0.25)
    case Cpi => Range(-1.0, 10.0, 0.1)
    case GdpGrowth => Range(-5.0, 10.0, 0.1)
    case Unemployment => Range(1.0, 15.0, 0.1)
    case OilPrice => Range(30.0, 150.0, 1.0)
  }

  /** The simulated value of every indicator, as the slider state holds it. */
  type SimValues = map<Key, real>

  ghost predicate Total(sim: SimValues) {
    forall k: Key :: k in sim
  }

  lemma KeysListEveryKey()
    ensures forall k: Key :: k in Keys
  {
    forall k: Key ensures k in Keys {
      assert k == Keys[0] || k == Keys[1] || k == Keys[2] || k == Keys[3] || k == Keys[4] || k == Keys[5];
    }
  }

  lemma KeysAreDistinct()
    ensures forall i, j :: 0 <= i < j < |Keys| ==> Keys[i] != Keys[j]
  {
  }

  /** Every range is non-empty with a positive step and holds its baseline. */
  lemma RangesWellFormed(k: Key)
    ensures RangeOf(k).min < RangeOf(k).max
    ensures RangeOf(k).step > 0.0
    ensures RangeOf(k).min <= Baseline(k) <= RangeOf(k).max
  {
  }

  /** The value a slider takes after `n` steps up from its minimum. */
  function GridPoint(r: Range, n: nat): real {
    r.min + (n as real) * r.step
  }

  /** Every baseline is a position the slider can reach: min plus a whole number of steps. */
  lemma {:induction false} BaselineOnStepGrid(k: Key)
    ensures exists n: nat :: GridPoint(RangeOf(k), n) == Baseline(k)
  {
    var n: nat := match k
      case ExchangeRate => 28
      case BaseRate => 14
      case Cpi => 42
      case GdpGrowth => 71
      case Unemployment => 27
      case OilPrice => 48;
    assert GridPoint(RangeOf(k), n) == Baseline(k);
  }

  /** A map holding every key of the list holds every key. */
  lemma ListedKeysTotal(sim: SimValues)
    requires forall i :: 0 <= i < |Keys| ==> Keys[i] in sim
    ensures Total(sim)
  {
    KeysListEveryKey();
    forall k: Key ensures k in sim {
      assert k in Keys;
      var i :| 0 <= i < |Keys| && Keys[i] == k;
    }
  }

  /** The slider state the simulator starts from, as its own literal table. */
  function InitialSimValues(): (sim: SimValues)
    ensures Total(sim)
    ensures forall k: Key :: sim[k] == Baseline(k)
  {
    var sim := map[ExchangeRate := 1380.0, BaseRate := 3.5, Cpi := 3.2,
                   GdpGrowth := 2.1, Unemployment := 3.7, OilPrice := 78.0];
    ListedKeysTotal(sim);
    sim
  }

  /** `getDelta`: simulated value minus baseline. */
  function GetDelta(sim: SimValues, k: Key): (d: real)
    requires k in sim
    ensures Baseline(k) + d == sim[k]
    ensures d == 0.0 <==> sim[k] == Baseline(k)
    ensures d > 0.0 <==> sim[k] > Baseline(k)
  {
    sim[k] - Baseline(k)
  }

  /** How many decimals the displayed delta of an indicator keeps. */
  function Decimals(k: Key): nat {
    if k == ExchangeRate || k == OilPrice then 0 else 1
  }

  /**
   * The parts of a displayed delta that the model decides: the explicit
   * sign prefix, the value handed to `toFixed`, and the number of decimals.
   * A negative value carries its own minus from `toFixed`.
   */
  datatype DeltaLabel = DeltaLabel(sign: string, delta: real, decimals: nat)

  /** `formatDelta`: nothing for an unchanged indicator, otherwise a label. */
  function FormatDelta(sim: SimValues, k: Key): (r: Option<DeltaLabel>)
    requires k in sim
    ensures r.None? <==> sim[k] == Baseline(k)
    ensures r.Some? ==> r.value.delta + Baseline(k) == sim[k]
    ensures r.Some? ==> (r.value.sign == "+" <==> sim[k] > Baseline(k))
    ensures r.Some? ==> (r.value.sign == "" <==> sim[k] < Baseline(k))
  {
    var d := GetDelta(sim, k);
    if d == 0.0 then None
    else Some(DeltaLabel(if d > 0.0 then "+" else "", d, Decimals(k)))
  }

  /** The whole-number indicators show no decimals; the percentages show one. */
  lemma LabelDecimals(sim: SimValues, k: Key)
    requires k in sim && sim[k] != Baseline(k)
    ensures FormatDelta(sim, k).Some?
    ensures FormatDelta(sim, k).value.decimals == 0 <==> k in {ExchangeRate, OilPrice}
    ensures FormatDelta(sim, k).value.decimals == 1 <==> k in {BaseRate, Cpi, GdpGrowth, Unemployment}
  {
  }

  /** `Object.entries(...).some(([key]) => formatDelta(key))`, short-circuiting left to right. */
  function SomeFormatted(sim: SimValues, ks: seq<Key>): bool
    requires forall i :: 0 <= i < |ks| ==> ks[i] in sim
  {
    if ks == [] then false
    else FormatDelta(sim, ks[0]).Some? || SomeFormatted(sim, ks[1..])
  }

  /** `Object.entries(...).every(([key]) => !formatDelta(key))`. */
  function EveryUnformatted(sim: SimValues, ks: seq<Key>): bool
    requires forall i :: 0 <= i < |ks| ==> ks[i] in sim
  {
    if ks == [] then true
    else FormatDelta(sim, ks[0]).None? && EveryUnformatted(sim, ks[1..])
  }

  /** The opacity test and the `disabled` test of the start button are complements. */
  lemma {:induction false} GateComplement(sim: SimValues, ks: seq<Key>)
    requires forall i :: 0 <= i < |ks| ==> ks[i] in sim
    ensures EveryUnformatted(sim, ks) <==> !SomeFormatted(sim, ks)
  {
    if ks != [] {
      GateComplement(sim, ks[1..]);
    }
  }

  /** `some` over a list of keys holds exactly when one of them moved off its baseline. */
  lemma {:induction false} SomeFormattedIff(sim: SimValues, ks: seq<Key>)
    requires forall i :: 0 <= i < |ks| ==> ks[i] in sim
    ensures SomeFormatted(sim, ks) <==> exists i :: 0 <= i < |ks| && sim[ks[i]] != Baseline(ks[i])
  {
    if ks != [] {
      SomeFormattedIff(sim, ks[1..]);
      if SomeFormatted(sim, ks[1..]) {
        var i :| 0 <= i < |ks[1..]| && sim[ks[1..][i]] != Baseline(ks[1..][i]);
        assert sim[ks[i + 1]] != Baseline(ks[i + 1]);
      }
      if exists i :: 0 <= i < |ks| && sim[ks[i]] != Baseline(ks[i]) {
        var i :| 0 <= i < |ks| && sim[ks[i]] != Baseline(ks[i]);
        if i > 0 {
          assert sim[ks[1..][i - 1]] != Baseline(ks[1..][i - 1]);
        }
      }
    }
  }

  /** Over the full table, `some` holds exactly when some indicator moved off its baseline. */
  lemma AnyChangedIff(sim: SimValues)
    requires Total(sim)
    ensures SomeFormatted(sim, Keys) <==> exists k: Key :: sim[k] != Baseline(k)
  {
    SomeFormattedIff(sim, Keys);
    if exists k: Key :: sim[k] != Baseline(k) {
      var k: Key :| sim[k] != Baseline(k);
      KeysListEveryKey();
      assert k in Keys;
      var i :| 0 <= i < |Keys| && Keys[i] == k;
      assert sim[Keys[i]] != Baseline(Keys[i]);
    }
  }

  /** The start button is enabled exactly when some indicator differs from its baseline. */
  function StartEnabled(sim: SimValues): (enabled: bool)
    requires Total(sim)
    ensures enabled <==> exists k: Key :: sim[k] != Baseline(k)
    ensures enabled <==> !EveryUnformatted(sim, Keys)
  {
    GateComplement(sim, Keys);
    AnyChangedIff(sim);
    SomeFormatted(sim, Keys)
  }
}
