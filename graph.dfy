/** A waveform generator that feeds one plot: each update advances a sample
    value (a triangle wave or a sine wave) and appends it to a buffer that is
    pruned to the last ten seconds. Models src/graph.rs. */
module Graphs {

  /** Which waveform a graph produces. */
  datatype GraphType = Triangle | SinWave

  /** A plotted point: (elapsed seconds, sample value). */
  type Sample = (real, real)

  /** Width of the sliding time window, in seconds. */
  const WindowSeconds: real := 10.0

  /** The range `100.0..255.0` from which the triangle ceiling is drawn. */
  const MinCeiling: real := 100.0
  const MaxCeiling: real := 255.0

  /** The range `0.5..2.0` from which the sine frequency is drawn. */
  const MinFrequency: real := 0.5
  const MaxFrequency: real := 2.0

  predicate CeilingInRange(m: real) { MinCeiling <= m < MaxCeiling }

  predicate FrequencyInRange(f: real) { MinFrequency <= f < MaxFrequency }

  // ---------------------------------------------------------------------------
  // The ten-second window (`retain(|&(x, _)| elapsed - x < 10.0)`)
  // ---------------------------------------------------------------------------

  /** A sample survives pruning at time `elapsed` when it is less than ten seconds old. */
  predicate Recent(s: Sample, elapsed: real) { elapsed - s.0 < WindowSeconds }

  /** The samples of `data` that are recent at `elapsed`, in their original order. */
  function Window(data: seq<Sample>, elapsed: real): (r: seq<Sample>)
    ensures |r| <= |data|
  {
    if data == [] then []
    else if Recent(data[0], elapsed) then [data[0]] + Window(data[1..], elapsed)
    else Window(data[1..], elapsed)
  }

  /** What stays and what goes: every survivor is a recent sample of `data`,
      and every recent sample of `data` survives. */
  lemma {:induction false} WindowKeepsExactlyRecent(data: seq<Sample>, elapsed: real)
    ensures forall k :: 0 <= k < |Window(data, elapsed)| ==> Recent(Window(data, elapsed)[k], elapsed)
    ensures forall s :: s in Window(data, elapsed) <==> s in data && Recent(s, elapsed)
  {
    if data != [] {
      WindowKeepsExactlyRecent(data[1..], elapsed);
      assert forall s :: s in data <==> s == data[0] || s in data[1..];
    }
  }

  /** The positions j, j+1, ... of `data` whose samples are recent, ascending. */
  function KeptFrom(data: seq<Sample>, elapsed: real, j: nat): (r: seq<nat>)
    requires j <= |data|
    ensures |r| <= |data| - j
    decreases |data| - j
  {
    if j == |data| then []
    else if Recent(data[j], elapsed) then [j] + KeptFrom(data, elapsed, j + 1)
    else KeptFrom(data, elapsed, j + 1)
  }

  /** The positions of `data` whose samples are recent at `elapsed`, ascending. */
  function KeptIndices(data: seq<Sample>, elapsed: real): (r: seq<nat>)
    ensures |r| <= |data|
  {
    KeptFrom(data, elapsed, 0)
  }

  /** The kept positions from `j` on are strictly increasing positions of
      `data` at or after `j`, and they are exactly those whose samples are recent. */
  lemma {:induction false} KeptFromPositions(data: seq<Sample>, elapsed: real, j: nat)
    requires j <= |data|
    ensures var kept := KeptFrom(data, elapsed, j);
            && (forall k :: 0 <= k < |kept| ==> j <= kept[k] < |data|)
            && (forall a, b :: 0 <= a < b < |kept| ==> kept[a] < kept[b])
            && (forall m :: j <= m < |data| ==> (m in kept <==> Recent(data[m], elapsed)))
    decreases |data| - j
  {
    if j < |data| {
      KeptFromPositions(data, elapsed, j + 1);
    }
  }

  /** The window of a suffix is exactly the suffix's samples at the kept positions. */
  lemma {:induction false} WindowFromIsStableFilter(data: seq<Sample>, elapsed: real, j: nat)
    requires j <= |data|
    ensures var kept := KeptFrom(data, elapsed, j);
            var w := Window(data[j..], elapsed);
            |w| == |kept| && forall k :: 0 <= k < |kept| ==> kept[k] < |data| && w[k] == data[kept[k]]
    decreases |data| - j
  {
    KeptFromPositions(data, elapsed, j);
    if j == |data| {
      assert data[j..] == [];
    } else {
      WindowFromIsStableFilter(data, elapsed, j + 1);
      assert data[j..][0] == data[j];
      assert data[j..][1..] == data[j + 1..];
    }
  }

  /** Pruning is a stable filter: what stays is exactly the recent samples, at
      strictly increasing original positions, and every recent sample stays. */
  lemma WindowIsStableFilter(data: seq<Sample>, elapsed: real)
    ensures var kept := KeptIndices(data, elapsed);
            var w := Window(data, elapsed);
            && |w| == |kept|
            && (forall k :: 0 <= k < |kept| ==> kept[k] < |data| && w[k] == data[kept[k]])
            && (forall a, b :: 0 <= a < b < |kept| ==> kept[a] < kept[b])
            && (forall m :: 0 <= m < |data| ==> (m in kept <==> Recent(data[m], elapsed)))
  {
    KeptFromPositions(data, elapsed, 0);
    WindowFromIsStableFilter(data, elapsed, 0);
    assert data[0..] == data;
  }

  /** Pruning a concatenation prunes each part. */
  lemma {:induction false} WindowAppend(a: seq<Sample>, b: seq<Sample>, elapsed: real)
    ensures Window(a + b, elapsed) == Window(a, elapsed) + Window(b, elapsed)
  {
    if a == [] {
      assert a + b == b;
    } else {
      assert (a + b)[0] == a[0];
      assert (a + b)[1..] == a[1..] + b;
      WindowAppend(a[1..], b, elapsed);
    }
  }

  /** Pruning at an earlier time and then at a later one is pruning at the later one. */
  lemma {:induction false} WindowLater(data: seq<Sample>, earlier: real, later: real)
    requires earlier <= later
    ensures Window(Window(data, earlier), later) == Window(data, later)
  {
    if data != [] {
      WindowLater(data[1..], earlier, later);
      var tail := Window(data[1..], earlier);
      if Recent(data[0], earlier) {
        assert ([data[0]] + tail)[0] == data[0];
        assert ([data[0]] + tail)[1..] == tail;
      }
    }
  }

  /** One push-then-prune step on a buffer that is the window of `history` at an
      earlier time gives the window of the extended history at the new time. */
  lemma PushThenPrune(history: seq<Sample>, data: seq<Sample>, earlier: real, s: Sample)
    requires data == Window(history, earlier)
    requires earlier <= s.0
    ensures Window(data + [s], s.0) == Window(history + [s], s.0)
  {
    WindowAppend(data, [s], s.0);
    WindowAppend(history, [s], s.0);
    WindowLater(history, earlier, s.0);
  }

  /** A pushed sample survives the prune made at its own time, after the older survivors. */
  lemma PushedSampleStays(data: seq<Sample>, s: Sample)
    ensures Window(data + [s], s.0) == Window(data, s.0) + [s]
  {
    WindowAppend(data, [s], s.0);
    assert [s][1..] == [];
  }

  /** While the clock never goes backwards, the buffer stays the window of the
      whole history of pushed samples. */
  lemma HistoryWindowKept(history: seq<Sample>, data: seq<Sample>, last: real, monotone: bool, s: Sample)
    requires history == [] ==> data == [] && monotone
    requires monotone ==> data == Window(history, last)
    ensures monotone && (history == [] || last <= s.0) ==>
              Window(data + [s], s.0) == Window(history + [s], s.0)
  {
    if monotone && history == [] {
      PushThenPrune(history, data, s.0, s);
    } else if monotone && last <= s.0 {
      PushThenPrune(history, data, last, s);
    }
  }

  // ---------------------------------------------------------------------------
  // The triangle wave state machine
  // ---------------------------------------------------------------------------

  /** The generator state `update` advances: the sample value `i`, the
      triangle's direction and its ceiling (also the sine's amplitude). */
  datatype WaveState = WaveState(i: real, increasing: bool, maxValue: real)

  /** A trough: the state a triangle graph starts in, with ceiling `m`. */
  function Trough(m: real): (r: WaveState)
    ensures r.i == 0.0 && r.increasing && r.maxValue == m
  {
    WaveState(0.0, true, m)
  }

  predicate IsWhole(x: real) { x.Floor as real == x }

  /** The triangle invariant: `i` is a whole number in [0, maxValue + 1), below
      the ceiling while rising and at least 1 while falling. */
  predicate TriangleInv(s: WaveState)
  {
    && IsWhole(s.i)
    && CeilingInRange(s.maxValue)
    && 0.0 <= s.i
    && (if s.increasing then s.i < s.maxValue else 1.0 <= s.i < s.maxValue + 1.0)
  }

  /** One triangle step; `redraw` is the ceiling drawn if this step reaches a trough. */
  function TriangleStep(s: WaveState, redraw: real): (r: WaveState)
    ensures r.i == if s.increasing then s.i + 1.0 else s.i - 1.0
    ensures r.increasing != s.increasing <==> if s.increasing then s.maxValue <= r.i else r.i <= 0.0
    ensures r.maxValue == if !s.increasing && r.increasing then redraw else s.maxValue
  {
    if s.increasing then
      var i := s.i + 1.0;
      WaveState(i, !(i >= s.maxValue), s.maxValue)
    else
      var i := s.i - 1.0;
      if i <= 0.0 then WaveState(i, true, redraw) else WaveState(i, false, s.maxValue)
  }

  lemma WholeShift(x: real, d: int)
    requires IsWhole(x)
    ensures IsWhole(x + d as real)
  {
    assert (x + d as real).Floor == x.Floor + d;
  }

  /** Each step keeps the triangle invariant, whatever in-range ceiling is drawn. */
  lemma StepPreservesInv(s: WaveState, redraw: real)
    requires TriangleInv(s)
    requires CeilingInRange(redraw)
    ensures TriangleInv(TriangleStep(s, redraw))
  {
    var r := TriangleStep(s, redraw);
    if s.increasing {
      WholeShift(s.i, 1);
    } else {
      WholeShift(s.i, -1);
      if r.i > 0.0 {
        assert r.i.Floor >= 1;
      }
    }
  }

  /** Triangle steps, one per draw: the k-th step takes `draws[k]` as its
      new ceiling if it reaches a trough. */
  function Steps(s: WaveState, draws: seq<real>): (r: WaveState)
    ensures r.maxValue == s.maxValue || r.maxValue in draws
    decreases |draws|
  {
    if draws == [] then s else Steps(TriangleStep(s, draws[0]), draws[1..])
  }

  /** Every ceiling drawn lies in the range `new` and `update` draw from. */
  predicate AllCeilingsInRange(draws: seq<real>)
  {
    forall k :: 0 <= k < |draws| ==> CeilingInRange(draws[k])
  }

  lemma {:induction false} StepsLast(s: WaveState, draws: seq<real>, d: real)
    ensures Steps(s, draws + [d]) == TriangleStep(Steps(s, draws), d)
    decreases |draws|
  {
    if draws == [] {
      assert [d][1..] == [];
    } else {
      assert (draws + [d])[1..] == draws[1..] + [d];
      StepsLast(TriangleStep(s, draws[0]), draws[1..], d);
    }
  }

  lemma {:induction false} StepsAdd(s: WaveState, a: seq<real>, b: seq<real>)
    ensures Steps(s, a + b) == Steps(Steps(s, a), b)
    decreases |a|
  {
    if a == [] {
      assert a + b == b;
    } else {
      assert (a + b)[1..] == a[1..] + b;
      StepsAdd(TriangleStep(s, a[0]), a[1..], b);
    }
  }

  /** Any run of steps keeps the triangle invariant, whatever fresh in-range
      ceiling is drawn at each trough. */
  lemma {:induction false} StepsPreserveInv(s: WaveState, draws: seq<real>)
    requires TriangleInv(s)
    requires AllCeilingsInRange(draws)
    ensures TriangleInv(Steps(s, draws))
    decreases |draws|
  {
    if draws != [] {
      StepPreservesInv(s, draws[0]);
      StepsPreserveInv(TriangleStep(s, draws[0]), draws[1..]);
    }
  }

  /** The peak of a triangle with ceiling `m`: the least whole number not below `m`. */
  function Peak(m: real): (p: int)
    ensures m <= p as real < m + 1.0
  {
    if m.Floor as real == m then m.Floor else m.Floor + 1
  }

  /** Rising from a trough, the wave counts 0, 1, 2, ... and turns at the
      peak; no ceiling is drawn on the way up. */
  lemma {:induction false} Ascent(m: real, draws: seq<real>)
    requires CeilingInRange(m)
    requires |draws| <= Peak(m)
    ensures Steps(Trough(m), draws) == WaveState(|draws| as real, |draws| < Peak(m), m)
    decreases |draws|
  {
    var k := |draws|;
    if k > 0 {
      Ascent(m, draws[..k - 1]);
      StepsLast(Trough(m), draws[..k - 1], draws[k - 1]);
      assert draws[..k - 1] + [draws[k - 1]] == draws;
      assert (k as real >= m) == (k >= Peak(m));
    }
  }

  /** Falling from the peak, the wave counts down to 0, where it turns and
      takes the ceiling drawn at that step. */
  lemma {:induction false} Descent(m: real, draws: seq<real>)
    requires CeilingInRange(m)
    requires |draws| <= Peak(m)
    ensures Steps(WaveState(Peak(m) as real, false, m), draws)
            == if |draws| < Peak(m) then WaveState((Peak(m) - |draws|) as real, false, m)
               else Trough(draws[|draws| - 1])
    decreases |draws|
  {
    var k := |draws|;
    if k > 0 {
      Descent(m, draws[..k - 1]);
      StepsLast(WaveState(Peak(m) as real, false, m), draws[..k - 1], draws[k - 1]);
      assert draws[..k - 1] + [draws[k - 1]] == draws;
    }
  }

  /** One period of the triangle wave: from a trough with ceiling `m` it takes
      exactly 2 * Peak(m) steps to return to a trough, whose ceiling is the one
      drawn at the last step, and in between the value stays in (0, Peak(m)]. */
  lemma TrianglePeriod(m: real, draws: seq<real>)
    requires CeilingInRange(m)
    requires |draws| == 2 * Peak(m)
    ensures Steps(Trough(m), draws) == Trough(draws[|draws| - 1])
    ensures forall k :: 0 < k < |draws| ==>
              0.0 < Steps(Trough(m), draws[..k]).i <= Peak(m) as real
  {
    var p := Peak(m);
    assert draws == draws[..p] + draws[p..];
    Ascent(m, draws[..p]);
    StepsAdd(Trough(m), draws[..p], draws[p..]);
    Descent(m, draws[p..]);
    forall k | 0 < k < |draws|
      ensures 0.0 < Steps(Trough(m), draws[..k]).i <= p as real
    {
      if k <= p {
        Ascent(m, draws[..k]);
      } else {
        assert draws[..k] == draws[..p] + draws[p..k];
        StepsAdd(Trough(m), draws[..p], draws[p..k]);
        Descent(m, draws[p..k]);
      }
    }
  }

  /** The sine sample `sin(...) * max_value`, given the value `wave` of the sine. */
  function SineSample(wave: real, m: real): (v: real)
    requires -1.0 <= wave <= 1.0
    requires 0.0 <= m
    ensures -m <= v <= m
  {
    wave * m
  }

  /** What a graph of type `t` keeps true of its generator state. */
  predicate WaveInv(t: GraphType, s: WaveState)
  {
    && CeilingInRange(s.maxValue)
    && match t
       case Triangle => TriangleInv(s)
       case SinWave => -s.maxValue <= s.i <= s.maxValue
  }

  /** The generator step of `update` for a graph of type `t`. */
  function Advance(t: GraphType, s: WaveState, redraw: real, wave: real): (r: WaveState)
    requires WaveInv(t, s)
    requires -1.0 <= wave <= 1.0
    ensures r.maxValue == s.maxValue || (t == Triangle && r == Trough(redraw))
    ensures t == SinWave ==> r.increasing == s.increasing && -s.maxValue <= r.i <= s.maxValue
  {
    match t
    case Triangle => TriangleStep(s, redraw)
    case SinWave => s.(i := SineSample(wave, s.maxValue))
  }

  /** Both kinds of generator keep their invariant. */
  lemma AdvancePreservesInv(t: GraphType, s: WaveState, redraw: real, wave: real)
    requires WaveInv(t, s)
    requires CeilingInRange(redraw)
    requires -1.0 <= wave <= 1.0
    ensures WaveInv(t, Advance(t, s, redraw, wave))
  {
    if t == Triangle {
      StepPreservesInv(s, redraw);
    }
  }

  // ---------------------------------------------------------------------------
  // The graph object
  // ---------------------------------------------------------------------------

  /** One plotted waveform (`struct Graph`). The ghost fields record every
      sample ever pushed, the last clock reading, and whether the clock has
      never gone backwards. */
  class Graph {
    var data: seq<Sample>
    const graphType: GraphType
    var increasing: bool
    var i: real
    var maxValue: real
    var frequency: real

    ghost var history: seq<Sample>
    ghost var lastElapsed: real
    ghost var clockMonotone: bool

    function Phase(): (r: WaveState)
      reads this
      ensures r.i == i && r.increasing == increasing && r.maxValue == maxValue
    {
      WaveState(i, increasing, maxValue)
    }

    ghost predicate Valid()
      reads this
    {
      && WaveInv(graphType, Phase())
      && FrequencyInRange(frequency)
      && (history == [] ==> data == [] && clockMonotone)
      && (clockMonotone ==> data == Window(history, lastElapsed))
    }

    /** `Graph::new`: `maxValue` and `frequency` are the two random draws. */
    constructor (graphType: GraphType, maxValue: real, frequency: real)
      requires CeilingInRange(maxValue)
      requires FrequencyInRange(frequency)
      ensures Valid()
      ensures this.graphType == graphType
      ensures data == [] && increasing && i == 0.0
      ensures this.maxValue == maxValue && this.frequency == frequency
      ensures history == [] && clockMonotone
    {
      this.graphType := graphType;
      data := [];
      increasing := true;
      i := 0.0;
      this.maxValue := maxValue;
      this.frequency := frequency;
      history := [];
      lastElapsed := 0.0;
      clockMonotone := true;
    }

    /** The `Triangle` arm of `update`: one step of the triangle state machine. */
    method StepTriangle(redraw: real)
      modifies this`i, this`increasing, this`maxValue
      ensures Phase() == TriangleStep(old(Phase()), redraw)
    {
      if increasing {
        i := i + 1.0;
        if i >= maxValue {
          increasing := false;
        }
      } else {
        i := i - 1.0;
        if i <= 0.0 {
          increasing := true;
          maxValue := redraw;
        }
      }
    }

    /** `Graph::update`. `redraw` is the ceiling drawn if a triangle reaches a
        trough; `wave` is the value of sin(elapsed * frequency * 2 * pi). */
    method Update(elapsed: real, redraw: real, wave: real)
      requires Valid()
      requires CeilingInRange(redraw)
      requires -1.0 <= wave <= 1.0
      modifies this
      ensures Valid()
      ensures frequency == old(frequency)
      // the generator: one triangle step or a new sine sample
      ensures Phase() == Advance(graphType, old(Phase()), redraw, wave)
      ensures graphType == Triangle && old(increasing) ==>
                i == old(i) + 1.0 && maxValue == old(maxValue) && (!increasing <==> i >= maxValue)
      ensures graphType == Triangle && !old(increasing) ==>
                i == old(i) - 1.0 && (increasing <==> i <= 0.0)
                && maxValue == (if increasing then redraw else old(maxValue))
      ensures graphType == SinWave ==>
                i == SineSample(wave, maxValue) && increasing == old(increasing) && maxValue == old(maxValue)
      // the buffer: the new sample is pushed, and everything ten seconds old or older goes
      ensures data == Window(old(data) + [(elapsed, i)], elapsed)
      ensures data == Window(old(data), elapsed) + [(elapsed, i)]
      ensures |data| <= |old(data)| + 1
      ensures forall k :: 0 <= k < |data| ==> Recent(data[k], elapsed)
      ensures forall s :: s in old(data) && Recent(s, elapsed) ==> s in data
      ensures history == old(history) + [(elapsed, i)] && lastElapsed == elapsed
      ensures clockMonotone == (old(clockMonotone) && (old(history) == [] || old(lastElapsed) <= elapsed))
    {
      ghost var before := Phase();
      match graphType {
        case Triangle =>
          StepTriangle(redraw);
        case SinWave =>
          i := SineSample(wave, maxValue);
      }
      AdvancePreservesInv(graphType, before, redraw, wave);

      var sample := (elapsed, i);
      PushedSampleStays(data, sample);
      WindowKeepsExactlyRecent(data + [sample], elapsed);
      HistoryWindowKept(history, data, lastElapsed, clockMonotone, sample);
      data := data + [sample];
      data := Window(data, elapsed);
      history := history + [sample];
      clockMonotone := clockMonotone && (old(history) == [] || lastElapsed <= elapsed);
      lastElapsed := elapsed;
    }
  }
}

/** The application's use of the graphs (src/main.rs): the ten graphs it
    creates and the per-frame update that advances them all with one clock
    reading. */
module App {
  import opened Graphs

  const NumTriangleGraphs: nat := 4
  const NumSinGraphs: nat := 6

  /** The graphs the application starts with: `NumTriangleGraphs` triangle
      graphs, then `NumSinGraphs` sine graphs, each with its own draws. */
  method NewGraphs(ceilings: seq<real>, frequencies: seq<real>) returns (graphs: seq<Graph>)
    requires |ceilings| == |frequencies| == NumTriangleGraphs + NumSinGraphs
    requires AllCeilingsInRange(ceilings)
    requires forall k :: 0 <= k < |frequencies| ==> FrequencyInRange(frequencies[k])
    ensures |graphs| == NumTriangleGraphs + NumSinGraphs
    ensures forall k :: 0 <= k < |graphs| ==>
              fresh(graphs[k]) && graphs[k].Valid() && graphs[k].data == []
              && graphs[k].graphType == (if k < NumTriangleGraphs then Triangle else SinWave)
              && graphs[k].Phase() == Trough(ceilings[k]) && graphs[k].frequency == frequencies[k]
              && graphs[k].history == [] && graphs[k].clockMonotone
    ensures forall j, k :: 0 <= j < k < |graphs| ==> graphs[j] != graphs[k]
  {
    graphs := [];
    for n := 0 to NumTriangleGraphs
      invariant |graphs| == n
      invariant forall k :: 0 <= k < n ==>
                  fresh(graphs[k]) && graphs[k].Valid() && graphs[k].data == [] && graphs[k].graphType == Triangle
                  && graphs[k].Phase() == Trough(ceilings[k]) && graphs[k].frequency == frequencies[k]
                  && graphs[k].history == [] && graphs[k].clockMonotone
      invariant forall j, k :: 0 <= j < k < n ==> graphs[j] != graphs[k]
    {
      var g := new Graph(Triangle, ceilings[n], frequencies[n]);
      graphs := graphs + [g];
    }
    for n := NumTriangleGraphs to NumTriangleGraphs + NumSinGraphs
      invariant |graphs| == n
      invariant forall k :: 0 <= k < n ==>
                  fresh(graphs[k]) && graphs[k].Valid() && graphs[k].data == []
                  && graphs[k].graphType == (if k < NumTriangleGraphs then Triangle else SinWave)
                  && graphs[k].Phase() == Trough(ceilings[k]) && graphs[k].frequency == frequencies[k]
                  && graphs[k].history == [] && graphs[k].clockMonotone
      invariant forall j, k :: 0 <= j < k < n ==> graphs[j] != graphs[k]
    {
      var g := new Graph(SinWave, ceilings[n], frequencies[n]);
      graphs := graphs + [g];
    }
  }

  /** One frame: every graph is updated with the same clock reading; graph k
      takes `redraws[k]` if it reaches a trough and `waves[k]` as its sine. */
  method UpdateAll(graphs: seq<Graph>, elapsed: real, redraws: seq<real>, waves: seq<real>)
    requires |redraws| == |waves| == |graphs|
    requires AllCeilingsInRange(redraws)
    requires forall k :: 0 <= k < |waves| ==> -1.0 <= waves[k] <= 1.0
    requires forall k :: 0 <= k < |graphs| ==> graphs[k].Valid()
    requires forall j, k :: 0 <= j < k < |graphs| ==> graphs[j] != graphs[k]
    modifies set k | 0 <= k < |graphs| :: graphs[k]
    ensures forall k :: 0 <= k < |graphs| ==>
              && old(graphs[k].Valid())
              && graphs[k].Valid()
              && graphs[k].lastElapsed == elapsed
              && graphs[k].Phase() == Advance(graphs[k].graphType, old(graphs[k].Phase()), redraws[k], waves[k])
              && graphs[k].data == Window(old(graphs[k].data), elapsed) + [(elapsed, graphs[k].i)]
              && graphs[k].frequency == old(graphs[k].frequency)
              && graphs[k].history == old(graphs[k].history) + [(elapsed, graphs[k].i)]
              && graphs[k].clockMonotone
                 == (old(graphs[k].clockMonotone) && (old(graphs[k].history) == [] || old(graphs[k].lastElapsed) <= elapsed))
  {
    for n := 0 to |graphs|
      invariant forall k :: 0 <= k < n ==>
                  && old(graphs[k].Valid())
                  && graphs[k].Valid()
                  && graphs[k].lastElapsed == elapsed
                  && graphs[k].Phase() == Advance(graphs[k].graphType, old(graphs[k].Phase()), redraws[k], waves[k])
                  && graphs[k].data == Window(old(graphs[k].data), elapsed) + [(elapsed, graphs[k].i)]
                  && graphs[k].frequency == old(graphs[k].frequency)
                  && graphs[k].history == old(graphs[k].history) + [(elapsed, graphs[k].i)]
                  && graphs[k].clockMonotone
                     == (old(graphs[k].clockMonotone) && (old(graphs[k].history) == [] || old(graphs[k].lastElapsed) <= elapsed))
      invariant forall k :: n <= k < |graphs| ==> graphs[k].Valid() && unchanged(graphs[k])
    {
      graphs[n].Update(elapsed, redraws[n], waves[n]);
    }
  }

  /** The application's first two frames, at 0.5 and 1.0 seconds: after the
      first every triangle graph shows the sample 1 and every sine graph its
      sine sample; after the second each buffer is the ten-second window of
      everything pushed so far. */
  method FirstFrame(ceilings: seq<real>, frequencies: seq<real>, redraws: seq<real>, waves: seq<real>)
    requires |ceilings| == |frequencies| == |redraws| == |waves| == NumTriangleGraphs + NumSinGraphs
    requires AllCeilingsInRange(ceilings) && AllCeilingsInRange(redraws)
    requires forall k :: 0 <= k < |frequencies| ==> FrequencyInRange(frequencies[k])
    requires forall k :: 0 <= k < |waves| ==> -1.0 <= waves[k] <= 1.0
  {
    var graphs := NewGraphs(ceilings, frequencies);
    UpdateAll(graphs, 0.5, redraws, waves);
    assert graphs[0].data == [(0.5, 1.0)];
    assert graphs[0].frequency == frequencies[0];
    assert graphs[NumTriangleGraphs].data == [(0.5, SineSample(waves[NumTriangleGraphs], ceilings[NumTriangleGraphs]))];
    UpdateAll(graphs, 1.0, redraws, waves);
    assert graphs[0].data == Window(graphs[0].history, 1.0);
  }
}
