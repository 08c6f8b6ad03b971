/**
 * The hysteresis crossover detector of src/bot/signal.rs.
 *
 * Each update classifies the percentage gap between the short and the long EMA
 * into a zone, counts how many consecutive updates stayed in that zone, and
 * emits Buy (Sell) once the price has stayed Above (Below) the band for
 * `hysteresisPeriods` updates, unless the last emission already was Buy (Sell).
 */
module Crossover {
  import opened Models

  datatype Signal = Buy | Sell | Hold

  /** The signal type the notifier formats (`TradeSignal`). */
  datatype TradeSignal = TradeBuy | TradeSell | TradeHold

  /** `impl From<Signal> for TradeSignal` */
  function ToTradeSignal(s: Signal): (t: TradeSignal)
    ensures s == Buy <==> t == TradeBuy
    ensures s == Sell <==> t == TradeSell
    ensures s == Hold <==> t == TradeHold
  {
    match s
    case Buy => TradeBuy
    case Sell => TradeSell
    case Hold => TradeHold
  }

  datatype State = Above | Below | Between

  /** The gap between the two EMAs in percent of the long EMA. */
  function Percentage(shortEma: real, longEma: real): (p: real)
    requires longEma != 0.0
    // the gap is p percent of the long EMA
    ensures shortEma == longEma + longEma * p / 100.0
    ensures p == 0.0 <==> shortEma == longEma
    ensures longEma > 0.0 ==> (p > 0.0 <==> shortEma > longEma)
  {
    (shortEma - longEma) / longEma * 100.0
  }

  /** The zone a percentage gap falls into for a given band half-width. */
  function Classify(pct: real, threshold: real): (z: State)
    ensures z == Above <==> pct > threshold
    ensures z == Below <==> pct <= threshold && pct < -threshold
    ensures z == Between <==> pct <= threshold && pct >= -threshold
  {
    if pct > threshold then Above
    else if pct < -threshold then Below
    else Between
  }

  /** The mutable part of a detector, as a value. */
  datatype DetectorState = DetectorState(state: State, timeInState: nat, lastSignal: Option<Signal>)

  const Initial := DetectorState(Between, 0, None)

  /** The emission rule applied to the already updated zone and counter. */
  function Emit(d: DetectorState, periods: nat): (DetectorState, Signal)
  {
    match d.state
    case Above =>
      if d.timeInState >= periods && d.lastSignal != Some(Buy) then (d.(lastSignal := Some(Buy)), Buy)
      else (d, Hold)
    case Below =>
      if d.timeInState >= periods && d.lastSignal != Some(Sell) then (d.(lastSignal := Some(Sell)), Sell)
      else (d, Hold)
    case Between => (d, Hold)
  }

  /** One `update(short_ema, long_ema)`: the next detector state and the signal returned. */
  function Step(d: DetectorState, threshold: real, periods: nat, shortEma: real, longEma: real): (r: (DetectorState, Signal))
    // the division guard: Hold, and nothing changes
    ensures longEma == 0.0 ==> r == (d, Hold)
    // the zone is the classification of the gap, the counter restarts at 1 on a zone change
    ensures longEma != 0.0 ==>
      && r.0.state == Classify(Percentage(shortEma, longEma), threshold)
      && r.0.timeInState == (if r.0.state == d.state then d.timeInState + 1 else 1)
      && r.0.timeInState >= 1
    // when Buy and Sell are returned
    ensures r.1 == Buy <==>
      longEma != 0.0 && r.0.state == Above && r.0.timeInState >= periods && d.lastSignal != Some(Buy)
    ensures r.1 == Sell <==>
      longEma != 0.0 && r.0.state == Below && r.0.timeInState >= periods && d.lastSignal != Some(Sell)
    ensures r.0.state == Between ==> r.1 == Hold
    // only an emission writes the last signal, and never repeats it
    ensures r.1 == Hold ==> r.0.lastSignal == d.lastSignal
    ensures r.1 != Hold ==> r.0.lastSignal == Some(r.1) && d.lastSignal != Some(r.1)
  {
    if longEma == 0.0 then (d, Hold)
    else
      var z := Classify(Percentage(shortEma, longEma), threshold);
      var t := if z == d.state then d.timeInState + 1 else 1;
      Emit(DetectorState(z, t, d.lastSignal), periods)
  }

  /** `CrossoverSignal`: the detector object the strategy owns and updates in place. */
  class CrossoverSignal {
    const hysteresisPercentage: real
    const hysteresisPeriods: nat
    var state: State
    var timeInState: nat
    var lastSignal: Option<Signal>

    function Snapshot(): DetectorState
      reads this
    {
      DetectorState(state, timeInState, lastSignal)
    }

    /** `CrossoverSignal::new`: starts Between, with no time in state and no last signal. */
    constructor (hysteresisPercentage: real, hysteresisPeriods: nat)
      ensures this.hysteresisPercentage == hysteresisPercentage
      ensures this.hysteresisPeriods == hysteresisPeriods
      ensures Snapshot() == Initial
    {
      this.hysteresisPercentage := hysteresisPercentage;
      this.hysteresisPeriods := hysteresisPeriods;
      state := Between;
      timeInState := 0;
      lastSignal := None;
    }

    /** `update`: classify the sample, update the counter, then apply the emission rule. */
    method Update(shortEma: real, longEma: real) returns (s: Signal)
      modifies this
      ensures (Snapshot(), s) == Step(old(Snapshot()), hysteresisPercentage, hysteresisPeriods, shortEma, longEma)
    {
      if longEma == 0.0 {
        return Hold;
      }
      var emaDiff := shortEma - longEma;
      var emaPercentage := emaDiff / longEma * 100.0;
      var newState :=
        if emaPercentage > hysteresisPercentage then Above
        else if emaPercentage < -hysteresisPercentage then Below
        else Between;
      if newState == state {
        timeInState := timeInState + 1;
      } else {
        state := newState;
        timeInState := 1;
      }
      match state {
        case Above =>
          if timeInState >= hysteresisPeriods && lastSignal != Some(Buy) {
            lastSignal := Some(Buy);
            s := Buy;
          } else {
            s := Hold;
          }
        case Below =>
          if timeInState >= hysteresisPeriods && lastSignal != Some(Sell) {
            lastSignal := Some(Sell);
            s := Sell;
          } else {
            s := Hold;
          }
        case Between =>
          s := Hold;
      }
    }
  }

  // ---------------------------------------------------------------------------
  // Runs of several updates

  /** Feeding a sequence of (short, long) samples to a detector, in order. */
  function Run(d: DetectorState, threshold: real, periods: nat, samples: seq<(real, real)>): (r: (DetectorState, seq<Signal>))
    ensures |r.1| == |samples|
    decreases |samples|
  {
    if samples == [] then (d, [])
    else
      var (d1, s1) := Step(d, threshold, periods, samples[0].0, samples[0].1);
      var (dn, rest) := Run(d1, threshold, periods, samples[1..]);
      (dn, [s1] + rest)
  }

  /** The non-Hold signals of a sequence, in order. */
  function Emissions(signals: seq<Signal>): (e: seq<Signal>)
    ensures forall i :: 0 <= i < |e| ==> e[i] != Hold
  {
    if signals == [] then []
    else if signals[0] == Hold then Emissions(signals[1..])
    else [signals[0]] + Emissions(signals[1..])
  }

  /** Each emission differs from the one before it, the first from `prev`. */
  predicate Alternates(prev: Option<Signal>, e: seq<Signal>)
  {
    && (|e| > 0 ==> prev != Some(e[0]))
    && forall i :: 0 < i < |e| ==> e[i] != e[i - 1]
  }

  /**
   * Emitted signals strictly alternate: the first differs from the detector's
   * last signal, each next one from its predecessor, and afterwards the
   * detector's last signal is the last emission.
   */
  lemma {:induction false} RunAlternates(d: DetectorState, threshold: real, periods: nat, samples: seq<(real, real)>)
    ensures Alternates(d.lastSignal, Emissions(Run(d, threshold, periods, samples).1))
    ensures var e := Emissions(Run(d, threshold, periods, samples).1);
      Run(d, threshold, periods, samples).0.lastSignal == if e == [] then d.lastSignal else Some(e[|e| - 1])
    decreases |samples|
  {
    if samples != [] {
      var (d1, s1) := Step(d, threshold, periods, samples[0].0, samples[0].1);
      var (dn, rest) := Run(d1, threshold, periods, samples[1..]);
      RunAlternates(d1, threshold, periods, samples[1..]);
      var signals := Run(d, threshold, periods, samples).1;
      assert signals == [s1] + rest;
      assert signals[1..] == rest;
      var er := Emissions(rest);
      if s1 != Hold {
        assert Emissions(signals) == [s1] + er;
        assert d1.lastSignal == Some(s1);
      } else {
        assert Emissions(signals) == er;
      }
    }
  }

  /** Emissions only ever take the two values Buy and Sell, so alternation means Buy, Sell, Buy, ... */
  lemma NoTwoBuysInARow(d: DetectorState, threshold: real, periods: nat, samples: seq<(real, real)>)
    ensures var e := Emissions(Run(d, threshold, periods, samples).1);
      forall i :: 0 < i < |e| ==> (e[i] == Buy <==> e[i - 1] == Sell)
  {
    RunAlternates(d, threshold, periods, samples);
  }

  /** The sample's gap lies above the band. */
  predicate AboveBand(threshold: real, sample: (real, real))
  {
    sample.1 != 0.0 && Percentage(sample.0, sample.1) > threshold
  }

  /** After a Buy, staying Above the band never emits Buy again. */
  lemma {:induction false} NoRepeatWhileAbove(d: DetectorState, threshold: real, periods: nat, samples: seq<(real, real)>)
    requires d.lastSignal == Some(Buy)
    requires forall i :: 0 <= i < |samples| ==> AboveBand(threshold, samples[i])
    ensures forall i :: 0 <= i < |samples| ==> Run(d, threshold, periods, samples).1[i] == Hold
    ensures Run(d, threshold, periods, samples).0.lastSignal == Some(Buy)
    decreases |samples|
  {
    if samples != [] {
      var (d1, s1) := Step(d, threshold, periods, samples[0].0, samples[0].1);
      assert AboveBand(threshold, samples[0]);
      assert s1 == Hold;
      NoRepeatWhileAbove(d1, threshold, periods, samples[1..]);
      var out := Run(d, threshold, periods, samples).1;
      var rest := Run(d1, threshold, periods, samples[1..]).1;
      assert out == [s1] + rest;
      forall i | 0 <= i < |samples| ensures out[i] == Hold {
        if i > 0 {
          assert out[i] == rest[i - 1];
        }
      }
    }
  }

  /**
   * A freshly built detector fed a single sample returns Hold whenever at
   * least two periods of hysteresis are configured.
   */
  lemma FreshDetectorHoldsOnFirstUpdate(threshold: real, periods: nat, shortEma: real, longEma: real)
    requires periods >= 2
    ensures Step(Initial, threshold, periods, shortEma, longEma).1 == Hold
  {
  }

  /** Band 0.5 %, three periods: gaps 0.6, 0.7, 0.8 % give Hold, Hold, Buy; then 0.9 and 0.4 % give Hold, Hold. */
  lemma ScenarioBuy()
    ensures Run(Initial, 0.5, 3, [(100.6, 100.0), (100.7, 100.0), (100.8, 100.0)]).1 == [Hold, Hold, Buy]
    ensures var d := Run(Initial, 0.5, 3, [(100.6, 100.0), (100.7, 100.0), (100.8, 100.0)]).0;
      Run(d, 0.5, 3, [(100.9, 100.0), (100.4, 100.0)]).1 == [Hold, Hold]
  {
    var d1 := Step(Initial, 0.5, 3, 100.6, 100.0).0;
    assert d1 == DetectorState(Above, 1, None);
    var d2 := Step(d1, 0.5, 3, 100.7, 100.0).0;
    assert d2 == DetectorState(Above, 2, None);
    var d3 := Step(d2, 0.5, 3, 100.8, 100.0).0;
    assert d3 == DetectorState(Above, 3, Some(Buy));
    var d4 := Step(d3, 0.5, 3, 100.9, 100.0).0;
    assert d4 == DetectorState(Above, 4, Some(Buy));
  }

  /** Band 0.5 %, three periods: gaps -0.6, -0.7, -0.8 % give Hold, Hold, Sell. */
  lemma ScenarioSell()
    ensures Run(Initial, 0.5, 3, [(99.4, 100.0), (99.3, 100.0), (99.2, 100.0)]).1 == [Hold, Hold, Sell]
  {
    var d1 := Step(Initial, 0.5, 3, 99.4, 100.0).0;
    assert d1 == DetectorState(Below, 1, None);
    var d2 := Step(d1, 0.5, 3, 99.3, 100.0).0;
    assert d2 == DetectorState(Below, 2, None);
  }
}
