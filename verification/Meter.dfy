/** The dominant-speaker meter: who holds the stage, sample by sample. */
module Meter {
  import opened Types

  /** A reading above which a peer counts as making noise. */
  const SPEECH_FLOOR: real := 0.02
  const SMOOTHING: real := 0.3
  /** How much louder a challenger must be to take the stage. */
  const SWITCH_RATIO: real := 1.6

  // ---- One reading ---------------------------------------------------------------------------

  newtype Byte = x: int | 0 <= x < 256

  function Square(sample: Byte): (s: int)
    ensures 0 <= s <= 128 * 128
    ensures s == 0 <==> sample == 128
  {
    var offset := sample as int - 128;
    assert -128 <= offset <= 127;
    SquareBound(offset);
    offset * offset
  }

  lemma SquareBound(x: int)
    requires -128 <= x <= 128
    ensures 0 <= x * x <= 128 * 128 && (x * x == 0 <==> x == 0)
  {
  }

  function SumOfSquares(buf: seq<Byte>): int {
    if buf == [] then 0 else SumOfSquares(buf[..|buf| - 1]) + Square(buf[|buf| - 1])
  }

  /** The sum in which a reading's square root is taken. */
  method Energy(buf: array<Byte>) returns (sum: int)
    ensures sum == SumOfSquares(buf[..])
  {
    sum := 0;
    for i := 0 to buf.Length
      invariant sum == SumOfSquares(buf[..i])
    {
      assert buf[..i + 1][..i] == buf[..i];
      sum := sum + Square(buf[i]);
    }
    assert buf[..buf.Length] == buf[..];
  }

  /** `level` is the root mean square of the window around 128, in units of 128. */
  predicate IsRms(buf: seq<Byte>, level: real) {
    level >= 0.0 && IsMean(level * level, |buf|, SumOfSquares(buf))
  }

  /** `square` is the mean of `n` squares that add up to `sum`, in units of 128 * 128. */
  predicate IsMean(square: real, n: nat, sum: int) {
    square * (128.0 * 128.0 * n as real) == sum as real
  }

  lemma {:induction false} SumBound(buf: seq<Byte>)
    ensures 0 <= SumOfSquares(buf) <= 128 * 128 * |buf|
    ensures SumOfSquares(buf) == 0 <==> forall i :: 0 <= i < |buf| ==> buf[i] == 128
  {
    if buf != [] { SumBound(buf[..|buf| - 1]); }
  }

  /** A wave that swings `d` steps to either side of the middle reads as `d` of 128. */
  lemma {:induction false} WaveEnergy(buf: seq<Byte>, d: int, square: int)
    requires 0 <= d < 128 && square == d * d
    requires forall i :: 0 <= i < |buf| ==> buf[i] as int == 128 + d || buf[i] as int == 128 - d
    ensures SumOfSquares(buf) == square * |buf|
  {
    if buf != [] {
      var n := |buf| - 1;
      WaveEnergy(buf[..n], d, square);
      SwingSquare(buf[n], d);
      OneMore(square, n);
    }
  }

  lemma OneMore(square: int, n: nat)
    ensures square * (n + 1) == square * n + square
  {
  }

  lemma SwingSquare(sample: Byte, d: int)
    requires sample as int == 128 + d || sample as int == 128 - d
    ensures Square(sample) == d * d
  {
    var offset := sample as int - 128;
    assert offset == d || offset == -d;
  }

  lemma WaveReads(buf: seq<Byte>, d: int, level: real)
    requires 0 <= d < 128 && level * 128.0 == d as real
    requires forall i :: 0 <= i < |buf| ==> buf[i] as int == 128 + d || buf[i] as int == 128 - d
    ensures IsRms(buf, level)
  {
    assert level >= 0.0;
    var whole, square := SquareOf(d, level);
    WaveEnergy(buf, d, whole);
    Spread(square, |buf|, whole, SumOfSquares(buf));
  }

  lemma SquareOf(d: int, level: real) returns (whole: int, square: real)
    requires level * 128.0 == d as real
    ensures whole == d * d && square == level * level && square * 16384.0 == whole as real
  {
    whole, square := d * d, level * level;
    var x := level * 128.0;
    assert (d * d) as real == x * x;
  }

  lemma Spread(square: real, n: nat, whole: int, sum: int)
    requires square * 16384.0 == whole as real && sum == whole * n
    ensures IsMean(square, n, sum)
  {
    assert sum as real == whole as real * n as real;
  }

  lemma PositiveProduct(x: real, y: real, xy: real)
    requires x > 0.0 && y > 0.0 && xy == x * y
    ensures xy > 0.0
  {
  }

  lemma AboveOne(level: real, square: real, scale: real, sum: real)
    requires level > 1.0 && square == level * level && scale > 0.0 && sum == square * scale
    ensures sum > scale
  {
    assert square > 1.0;
  }

  lemma RootBound(level: real, square: real, scale: real, sum: real)
    requires level >= 0.0 && square == level * level && scale > 0.0
    requires sum == square * scale && 0.0 <= sum <= scale
    ensures level <= 1.0 && (level == 0.0 <==> sum == 0.0)
  {
    if level > 1.0 { AboveOne(level, square, scale, sum); }
    if level > 0.0 {
      PositiveProduct(level, level, square);
      PositiveProduct(square, scale, sum);
    }
  }

  /** A reading lies between 0 and 1, and is 0 for silence only. */
  lemma RmsIsNormalised(buf: seq<Byte>, level: real)
    requires buf != [] && IsRms(buf, level)
    ensures 0.0 <= level <= 1.0
    ensures level == 0.0 <==> forall i :: 0 <= i < |buf| ==> buf[i] == 128
  {
    SumBound(buf);
    var scale, sum := 128.0 * 128.0 * |buf| as real, SumOfSquares(buf) as real;
    assert scale == (128 * 128 * |buf|) as real;
    RootBound(level, level * level, scale, sum);
  }

  // ---- Electing a speaker --------------------------------------------------------------------------

  /** `inputs` are the peers that are listened to. */
  datatype State = State(inputs: set<Id>, levels: map<Id, real>, holder: Option<Id>)

  function Smoothed(level: real, previous: real): real {
    SMOOTHING * level + (1.0 - SMOOTHING) * previous
  }

  function SmoothedAll(levels: map<Id, real>, raw: map<Id, real>): map<Id, real>
    requires levels.Keys <= raw.Keys
  {
    map p | p in levels :: Smoothed(raw[p], levels[p])
  }

  predicate Silent(levels: map<Id, real>) {
    forall p :: p in levels ==> levels[p] <= SPEECH_FLOOR
  }

  /** Somebody above the floor with no one above them; ties go any way. */
  predicate IsLoudest(levels: map<Id, real>, best: Id) {
    best in levels && levels[best] > SPEECH_FLOOR && forall p :: p in levels ==> levels[p] <= levels[best]
  }

  predicate Holds(levels: map<Id, real>, holder: Option<Id>, best: Id)
    requires best in levels
  {
    && holder.Some? && holder.value != best && holder.value in levels
    && levels[best] < levels[holder.value] * SWITCH_RATIO
  }

  /** Whom a sample elects, given who held the stage. */
  ghost predicate Elects(levels: map<Id, real>, holder: Option<Id>, elected: Option<Id>) {
    if Silent(levels) then elected == None
    else exists best :: IsLoudest(levels, best) && elected == if Holds(levels, holder, best) then holder else Some(best)
  }

  class LevelMeter {
    var inputs: set<Id>
    var levels: map<Id, real>
    var holder: Option<Id>

    ghost function View(): State
      reads this
    {
      State(inputs, levels, holder)
    }

    constructor ()
      ensures View() == Start
    {
      inputs, levels, holder := {}, map[], None;
    }

    /** `connected` tells whether the browser gave us the nodes to listen with. */
    method Watch(peer: Id, connected: bool)
      modifies this
      ensures View() == Watched(old(View()), peer, connected)
    {
      if peer in inputs || !connected { return; }
      inputs := inputs + {peer};
      levels := levels[peer := 0.0];
    }

    method Forget(peer: Id)
      modifies this
      ensures View() == Forgotten(old(View()), peer)
    {
      inputs := inputs - {peer};
      levels := levels - {peer};
      if holder == Some(peer) { holder := None; }
    }

    method Loudest() returns (loudest: Option<(Id, real)>)
      ensures loudest == None <==> Silent(levels)
      ensures loudest.Some? ==> IsLoudest(levels, loudest.value.0) && loudest.value.1 == levels[loudest.value.0]
    {
      loudest := None;
      var rest := levels.Keys;
      while rest != {}
        invariant rest <= levels.Keys
        invariant loudest.None? ==> forall p :: p in levels && p !in rest ==> levels[p] <= SPEECH_FLOOR
        invariant loudest.Some? ==>
          && loudest.value.0 in levels && loudest.value.1 == levels[loudest.value.0] > SPEECH_FLOOR
          && forall p :: p in levels && p !in rest ==> levels[p] <= loudest.value.1
      {
        var p :| p in rest;
        if levels[p] > SPEECH_FLOOR && (loudest.None? || levels[p] >= loudest.value.1) {
          loudest := Some((p, levels[p]));
        }
        rest := rest - {p};
      }
    }

    /** Reads every peer once, smooths, and elects. */
    method Sample(raw: map<Id, real>) returns (shown: Option<Id>)
      requires inputs == levels.Keys && inputs <= raw.Keys
      modifies this
      ensures shown == holder && inputs == old(inputs)
      ensures levels == SmoothedAll(old(levels), raw) && Elects(levels, old(holder), shown)
    {
      var rest := inputs;
      while rest != {}
        invariant rest <= inputs == old(inputs) == levels.Keys && holder == old(holder)
        invariant forall p :: p in levels ==>
          levels[p] == if p in rest then old(levels)[p] else Smoothed(raw[p], old(levels)[p])
      {
        var p :| p in rest;
        levels := levels[p := SMOOTHING * raw[p] + (1.0 - SMOOTHING) * levels[p]];
        rest := rest - {p};
      }
      var loudest := Loudest();
      if loudest == None {
        holder := None;
        return None;
      }
      var (best, level) := loudest.value;
      if holder.Some? && holder.value != best && holder.value in levels && level < levels[holder.value] * SWITCH_RATIO {
        return holder;
      }
      holder := Some(best);
      return holder;
    }
  }

  const Start := State({}, map[], None)

  function Watched(m: State, peer: Id, connected: bool): State {
    if peer in m.inputs || !connected then m
    else m.(inputs := m.inputs + {peer}, levels := m.levels[peer := 0.0])
  }

  function Forgotten(m: State, peer: Id): State {
    State(m.inputs - {peer}, m.levels - {peer}, if m.holder == Some(peer) then None else m.holder)
  }

  // ---- Runs --------------------------------------------------------------------------------------------

  datatype Action = Watch(peer: Id, connected: bool) | Forget(peer: Id) | Sample(raw: map<Id, real>)

  predicate Readings(inputs: set<Id>, raw: map<Id, real>) {
    inputs <= raw.Keys && forall p :: p in raw ==> 0.0 <= raw[p] <= 1.0
  }

  /** What sampling leaves in `holder` is what it returns. */
  ghost predicate Step(m: State, a: Action, m': State) {
    match a
    case Watch(peer, connected) => m' == Watched(m, peer, connected)
    case Forget(peer) => m' == Forgotten(m, peer)
    case Sample(raw) =>
      && m.levels.Keys == m.inputs && Readings(m.inputs, raw)
      && m'.inputs == m.inputs && m'.levels == SmoothedAll(m.levels, raw)
      && Elects(m'.levels, m.holder, m'.holder)
  }

  ghost predicate MeterOk(m: State) {
    && m.inputs == m.levels.Keys
    && (m.holder.Some? ==> m.holder.value in m.levels)
    && forall p :: p in m.levels ==> 0.0 <= m.levels[p] <= 1.0
  }

  ghost predicate IsRun(run: seq<State>, steps: seq<Action>) {
    |run| == |steps| + 1 && forall k :: 0 <= k < |steps| ==> Step(run[k], steps[k], run[k + 1])
  }

  /** Levels stay between 0 and 1, and only somebody watched holds the stage. */
  lemma StepKeepsOk(m: State, a: Action, m': State)
    requires MeterOk(m) && Step(m, a, m')
    ensures MeterOk(m')
  {
  }

  lemma {:induction false} RunKeepsOk(run: seq<State>, steps: seq<Action>, k: nat)
    requires IsRun(run, steps) && MeterOk(run[0]) && k < |run|
    ensures MeterOk(run[k])
  {
    if k > 0 {
      RunKeepsOk(run, steps, k - 1);
      StepKeepsOk(run[k - 1], steps[k - 1], run[k]);
    }
  }

  // ---- Who wins ------------------------------------------------------------------------------------------

  /** A sample shows nobody exactly when nobody is above the floor. Whom it shows is
      watched, never far below the floor, and never far below the loudest. */
  lemma WinnerIsLoud(run: seq<State>, steps: seq<Action>, k: nat)
    requires IsRun(run, steps) && MeterOk(run[0]) && k < |steps| && steps[k].Sample?
    ensures var m := run[k + 1];
      && (m.holder == None <==> Silent(m.levels))
      && (m.holder.Some? ==>
            var w := m.holder.value;
            && w in m.inputs && w in m.levels && m.levels[w] > SPEECH_FLOOR / SWITCH_RATIO
            && forall p :: p in m.levels ==> m.levels[p] <= SWITCH_RATIO * m.levels[w])
  {
    RunKeepsOk(run, steps, k + 1);
    assert Step(run[k], steps[k], run[k + 1]);
  }

  /** Whoever gets the stage, free or from another, is the loudest, or one of them. */
  lemma NewHolderIsLoudest(run: seq<State>, steps: seq<Action>, k: nat, w: Id)
    requires IsRun(run, steps) && MeterOk(run[0]) && k < |steps| && steps[k].Sample?
    requires run[k + 1].holder == Some(w) && run[k].holder != Some(w)
    ensures w in run[k + 1].levels && run[k + 1].levels[w] > SPEECH_FLOOR
    ensures var levels := run[k + 1].levels; forall p :: p in levels ==> levels[p] <= levels[w]
  {
    RunKeepsOk(run, steps, k + 1);
    assert Step(run[k], steps[k], run[k + 1]);
  }

  /** The holder loses the stage exactly when all are quiet, or somebody above the floor
      has reached the switching ratio. */
  lemma HolderLosesStage(run: seq<State>, steps: seq<Action>, k: nat, h: Id)
    requires IsRun(run, steps) && MeterOk(run[0]) && k < |steps| && steps[k].Sample?
    requires run[k].holder == Some(h)
    ensures h in run[k + 1].levels
    ensures var levels := run[k + 1].levels;
      run[k + 1].holder != Some(h) <==>
      || Silent(levels)
      || exists q :: q in levels && q != h && levels[q] > SPEECH_FLOOR && levels[q] >= levels[h] * SWITCH_RATIO
  {
    RunKeepsOk(run, steps, k);
    RunKeepsOk(run, steps, k + 1);
    assert Step(run[k], steps[k], run[k + 1]);
  }

  // ---- Silence -------------------------------------------------------------------------------------------

  /** What is left of a level after `k` silent samples. */
  function Decay(k: nat): (d: real)
    ensures 0.0 < d <= 1.0
  {
    if k == 0 then 1.0 else (1.0 - SMOOTHING) * Decay(k - 1)
  }

  lemma {:induction false} DecayFalls(j: nat, k: nat)
    requires j <= k
    ensures Decay(k) <= Decay(j)
  {
    if j < k { DecayFalls(j, k - 1); }
  }

  lemma DecayOfEleven()
    ensures Decay(11) < SPEECH_FLOOR
  {
    assert Decay(5) == 0.16807;
  }

  /** How many of the steps are samples. */
  function Samples(steps: seq<Action>): (n: nat) {
    if steps == [] then 0 else Samples(steps[..|steps| - 1]) + if steps[|steps| - 1].Sample? then 1 else 0
  }

  predicate Quiet(a: Action) {
    a.Sample? ==> forall p :: p in a.raw ==> a.raw[p] == 0.0
  }

  lemma {:induction false} SilenceDecays(run: seq<State>, steps: seq<Action>, k: nat)
    requires IsRun(run, steps) && MeterOk(run[0]) && k <= |steps|
    requires forall i :: 0 <= i < |steps| ==> Quiet(steps[i])
    ensures forall p :: p in run[k].levels ==> 0.0 <= run[k].levels[p] <= Decay(Samples(steps[..k]))
  {
    if k > 0 {
      SilenceDecays(run, steps, k - 1);
      assert steps[..k][..k - 1] == steps[..k - 1];
      assert Step(run[k - 1], steps[k - 1], run[k]);
    }
  }

  /** From any state, eleven silent samples empty the stage, peers coming and going meanwhile. */
  lemma SilenceEmptiesStage(run: seq<State>, steps: seq<Action>)
    requires IsRun(run, steps) && MeterOk(run[0])
    requires forall i :: 0 <= i < |steps| ==> Quiet(steps[i])
    requires Samples(steps) >= 11 && steps[|steps| - 1].Sample?
    ensures run[|steps|].holder == None
  {
    var n := |steps|;
    SilenceDecays(run, steps, n);
    assert steps[..n] == steps;
    DecayFalls(11, Samples(steps));
    DecayOfEleven();
    assert Step(run[n - 1], steps[n - 1], run[n]);
  }

  /** The state `p` alone makes: `loud` full readings, then `quiet` silent ones. */
  function Solo(p: Id, loud: nat, quiet: nat): State {
    State({p}, map[p := (1.0 - Decay(loud)) * Decay(quiet)], if loud == 0 then None else Some(p))
  }

  lemma SoloHears(p: Id, loud: nat)
    ensures Step(Solo(p, loud, 0), Sample(map[p := 1.0]), Solo(p, loud + 1, 0))
  {
    var next := Solo(p, loud + 1, 0);
    assert next.levels == SmoothedAll(Solo(p, loud, 0).levels, map[p := 1.0]);
    DecayFalls(1, loud + 1);
    assert IsLoudest(next.levels, p);
  }

  lemma SoloFades(p: Id, quiet: nat)
    requires quiet < 10
    ensures Step(Solo(p, 4, quiet), Sample(map[p := 0.0]), Solo(p, 4, quiet + 1))
  {
    var next := Solo(p, 4, quiet + 1);
    assert Decay(4) == 0.2401;
    FadingIsLinear(0.7599, Decay(quiet));
    assert next.levels == SmoothedAll(Solo(p, 4, quiet).levels, map[p := 0.0]);
    DecayFalls(quiet + 1, 10);
    assert Decay(5) == 0.16807;
    assert Decay(10) == 0.0282475249;
    assert IsLoudest(next.levels, p);
  }

  lemma FadingIsLinear(level: real, d: real)
    ensures level * ((1.0 - SMOOTHING) * d) == (1.0 - SMOOTHING) * (level * d)
  {
  }

  /** Ten silent samples are not enough: a run from the start in which, after them,
      somebody still holds the stage. */
  lemma TenSilentSamplesDoNot(p: Id) returns (run: seq<State>, steps: seq<Action>)
    ensures IsRun(run, steps) && run[0] == Start && |steps| == 15
    ensures forall i :: 5 <= i < 15 ==> steps[i] == Sample(map[p := 0.0])
    ensures run[15].holder == Some(p)
  {
    steps := [Watch(p, true)] + seq(4, _ => Sample(map[p := 1.0])) + seq(10, _ => Sample(map[p := 0.0]));
    run := [Start] + seq(5, i requires 0 <= i < 5 => Solo(p, i, 0))
      + seq(10, i requires 0 <= i < 10 => Solo(p, 4, i + 1));
    forall k | 0 <= k < 15 ensures Step(run[k], steps[k], run[k + 1]) {
      if 1 <= k <= 4 { SoloHears(p, k - 1); }
      else if 5 <= k { SoloFades(p, k - 5); }
    }
  }

  // ---- Takeover ---------------------------------------------------------------------------------------------

  /** Peer `p` reads at least `c` and everybody else at most `m`; `p` is not forgotten. */
  predicate Favours(a: Action, p: Id, c: real, m: real) {
    match a
    case Watch(_, _) => true
    case Forget(q) => q != p
    case Sample(raw) => forall q :: q in raw ==> if q == p then raw[q] >= c else raw[q] <= m
  }

  /** After `k` favourable samples, from any levels between 0 and 1. */
  function Low(c: real, k: nat): real {
    if k == 0 then 0.0 else Smoothed(c, Low(c, k - 1))
  }

  function High(m: real, k: nat): real {
    if k == 0 then 1.0 else Smoothed(m, High(m, k - 1))
  }

  lemma {:induction false} LowAndHigh(c: real, m: real, k: nat)
    ensures Low(c, k) == c - c * Decay(k)
    ensures High(m, k) == m + (1.0 - m) * Decay(k)
  {
    if k > 0 {
      LowAndHigh(c, m, k - 1);
      FadingIsLinear(c, Decay(k - 1));
      FadingIsLinear(1.0 - m, Decay(k - 1));
    }
  }

  lemma {:induction false} HighIsPositive(m: real, k: nat)
    requires m >= 0.0
    ensures High(m, k) >= 0.0
  {
    if k > 0 { HighIsPositive(m, k - 1); }
  }

  lemma {:induction false} FavouredLevels(run: seq<State>, steps: seq<Action>, k: nat, p: Id, c: real, m: real)
    requires IsRun(run, steps) && MeterOk(run[0]) && k <= |steps| && p in run[0].levels
    requires 0.0 <= m <= 1.0 && forall i :: 0 <= i < |steps| ==> Favours(steps[i], p, c, m)
    ensures MeterOk(run[k]) && p in run[k].levels
    ensures var n := Samples(steps[..k]);
      forall q :: q in run[k].levels ==>
        if q == p then run[k].levels[q] >= Low(c, n) else run[k].levels[q] <= High(m, n)
  {
    if k > 0 {
      FavouredLevels(run, steps, k - 1, p, c, m);
      assert steps[..k][..k - 1] == steps[..k - 1];
      assert Step(run[k - 1], steps[k - 1], run[k]) && Favours(steps[k - 1], p, c, m);
      StepKeepsOk(run[k - 1], steps[k - 1], run[k]);
      HighIsPositive(m, Samples(steps[..k]));
    }
  }

  /** Once the decay is below both margins, the favoured level clears the floor and
      the switching ratio. */
  lemma MarginsCleared(c: real, m: real, n: nat)
    requires 0.0 <= m && c <= 1.0
    requires Decay(n) < (c - SWITCH_RATIO * m) / 2.6 && Decay(n) < c - SPEECH_FLOOR
    ensures Low(c, n) > SPEECH_FLOOR && Low(c, n) > SWITCH_RATIO * High(m, n)
  {
    LowAndHigh(c, m, n);
    Clears(c, m, Decay(n));
  }

  lemma Clears(c: real, m: real, d: real)
    requires 0.0 <= m && c <= 1.0 && d > 0.0
    requires d < (c - SWITCH_RATIO * m) / 2.6 && d < c - SPEECH_FLOOR
    ensures c - c * d > SPEECH_FLOOR && c - c * d > SWITCH_RATIO * (m + (1.0 - m) * d)
  {
    var cd := Part(c, d);
    var md := Part(1.0 - m, d);
    ClearsBy(c, m, d, cd, md);
  }

  lemma ClearsBy(c: real, m: real, d: real, cd: real, md: real)
    requires cd <= d && md <= d
    requires d < (c - SWITCH_RATIO * m) / 2.6 && d < c - SPEECH_FLOOR
    ensures c - cd > SPEECH_FLOOR && c - cd > SWITCH_RATIO * (m + md)
  {
  }

  lemma Part(x: real, d: real) returns (xd: real)
    requires x <= 1.0 && d > 0.0
    ensures xd == x * d <= d
  {
    xd := x * d;
  }

  lemma ClearWinner(s: State, raw: map<Id, real>, s': State, p: Id, low: real, high: real)
    requires Step(s, Sample(raw), s') && p in s'.levels
    requires low > SPEECH_FLOOR && low > SWITCH_RATIO * high
    requires forall q :: q in s'.levels ==>
      s'.levels[q] >= 0.0 && if q == p then s'.levels[q] >= low else s'.levels[q] <= high
    ensures s'.holder == Some(p)
  {
    assert forall q :: q in s'.levels && q != p ==> s'.levels[q] * SWITCH_RATIO < s'.levels[p];
  }

  /** The samples up to step `k` outweigh whatever the levels were before. */
  predicate Outweighed(steps: seq<Action>, k: nat, c: real, m: real)
    requires k < |steps|
  {
    var d := Decay(Samples(steps[..k + 1]));
    steps[k].Sample? && d < (c - SWITCH_RATIO * m) / 2.6 && d < c - SPEECH_FLOOR
  }

  lemma TakesStage(run: seq<State>, steps: seq<Action>, k: nat, p: Id, c: real, m: real)
    requires IsRun(run, steps) && MeterOk(run[0]) && p in run[0].levels
    requires 0.0 <= m && c <= 1.0 && forall i :: 0 <= i < |steps| ==> Favours(steps[i], p, c, m)
    requires k < |steps| && Outweighed(steps, k, c, m)
    ensures run[k + 1].holder == Some(p)
  {
    var n := Samples(steps[..k + 1]);
    FavouredLevels(run, steps, k + 1, p, c, m);
    MarginsCleared(c, m, n);
    ClearWinner(run[k], steps[k].raw, run[k + 1], p, Low(c, n), High(m, n));
  }

  lemma {:induction false} SamplesGrow(steps: seq<Action>, j: nat, k: nat)
    requires j <= k <= |steps|
    ensures Samples(steps[..j]) <= Samples(steps[..k])
  {
    if j < k {
      SamplesGrow(steps, j, k - 1);
      assert steps[..k][..k - 1] == steps[..k - 1];
    }
  }

  /** Takeover: after enough samples that favour `p` by more than the switching ratio,
      `p` holds the stage, whatever the state before, and keeps it for as long as it is
      favoured. */
  lemma {:induction false} TakesAndKeepsStage(
    run: seq<State>, steps: seq<Action>, k: nat, j: nat, p: Id, c: real, m: real)
    requires IsRun(run, steps) && MeterOk(run[0]) && p in run[0].levels
    requires 0.0 <= m && c <= 1.0 && forall i :: 0 <= i < |steps| ==> Favours(steps[i], p, c, m)
    requires k < |steps| && Outweighed(steps, k, c, m) && k < j < |run|
    ensures run[j].holder == Some(p)
  {
    if j == k + 1 {
      TakesStage(run, steps, k, p, c, m);
    } else if steps[j - 1].Sample? {
      SamplesGrow(steps, k + 1, j);
      DecayFalls(Samples(steps[..k + 1]), Samples(steps[..j]));
      TakesStage(run, steps, j - 1, p, c, m);
    } else {
      TakesAndKeepsStage(run, steps, k, j - 1, p, c, m);
      assert Favours(steps[j - 1], p, c, m) && Step(run[j - 1], steps[j - 1], run[j]);
    }
  }

  // ---- No flapping ---------------------------------------------------------------------------------------------

  /** Nobody reaches the switching ratio over `h`. */
  predicate Unrivalled(levels: map<Id, real>, h: Id) {
    h in levels && forall q :: q in levels && q != h ==> levels[q] < SWITCH_RATIO * levels[h]
  }

  predicate LeavesAlone(a: Action, h: Id) {
    match a
    case Watch(_, _) => true
    case Forget(q) => q != h
    case Sample(raw) => Unrivalled(raw, h)
  }

  ghost predicate HoldsUnrivalled(m: State, h: Id) {
    m.holder == Some(h) && Unrivalled(m.levels, h) && m.levels[h] > 0.0
  }

  lemma HolderStays(m: State, a: Action, m': State, h: Id)
    requires MeterOk(m) && Step(m, a, m') && HoldsUnrivalled(m, h)
    requires LeavesAlone(a, h) && (a.Sample? ==> !Silent(m'.levels))
    ensures HoldsUnrivalled(m', h)
  {
  }

  /** No flapping: while nobody reaches the switching ratio over the holder, in level at
      the start or in any reading, and it is never quiet, the holder stays the same. */
  lemma {:induction false} NoFlapping(run: seq<State>, steps: seq<Action>, k: nat, h: Id)
    requires IsRun(run, steps) && MeterOk(run[0]) && HoldsUnrivalled(run[0], h)
    requires forall i :: 0 <= i < |steps| ==>
      LeavesAlone(steps[i], h) && (steps[i].Sample? ==> !Silent(run[i + 1].levels))
    requires k < |run|
    ensures HoldsUnrivalled(run[k], h)
  {
    if k > 0 {
      NoFlapping(run, steps, k - 1, h);
      RunKeepsOk(run, steps, k - 1);
      HolderStays(run[k - 1], steps[k - 1], run[k], h);
    }
  }
}
