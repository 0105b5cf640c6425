/**
The adaptive energy gate against the loudspeaker's own echo, in both its forms: the gate of echo.py and the inline
logic of the suppression processor in pipeline.py. Levels are real numbers; rounding is not modelled.
*/
module EnergyGate {
  import opened Wrappers

  const HISTORY: nat := 50
  const QUIET_FRAMES: nat := 20
  const WARMUP_FRAMES: nat := 8

  /** gain and the number of loud frames that make a barge-in. */
  datatype Config = Config(gain: real, frames: int)

  function Larger(a: real, b: real): real { if a >= b then a else b }

  function Warmup(config: Config): nat { if config.gain <= 1.5 then 2 else WARMUP_FRAMES }

  function Threshold(config: Config, peak: real): real {
    Larger(peak * config.gain, if config.gain <= 1.5 then 350.0 else 1200.0)
  }

  /** A deque that keeps the last fifty levels. */
  function Remembered(levels: seq<real>, rms: real): (r: seq<real>)
    ensures |r| == if |levels| < HISTORY then |levels| + 1 else |levels|
  {
    if |levels| < HISTORY then levels + [rms] else (levels + [rms])[1..]
  }

  // ---------- the gate ----------

  datatype Gate = Gate(levels: seq<real>, peak: real, fast: real, slow: real, hot: nat, quiet: nat, active: bool)

  datatype Decision = Decision(allow: bool, started: bool, relocked: bool)

  const GATE_RESET: Gate := Gate([], 0.0, 0.0, 0.0, 0, 0, false)

  function Follow(peak: real, rms: real): real {
    if rms > peak then rms else 0.96 * peak + 0.04 * rms
  }

  function Smooth(ema: real, rms: real, weight: real): real {
    if ema == 0.0 then rms else weight * rms + (1.0 - weight) * ema
  }

  function ObserveActive(g: Gate, rms: real): (Gate, Decision) {
    if rms <= g.peak * 0.8 then
      if g.quiet + 1 >= QUIET_FRAMES then (g.(active := false, hot := 0, quiet := 0), Decision(false, false, true))
      else (g.(quiet := g.quiet + 1), Decision(true, false, false))
    else (g.(quiet := 0), Decision(true, false, false))
  }

  function Listened(g: Gate, rms: real): Gate {
    g.(levels := Remembered(g.levels, rms), fast := Smooth(g.fast, rms, 0.3), slow := Smooth(g.slow, rms, 0.05))
  }

  function ObserveIdle(config: Config, g: Gate, rms: real): (Gate, Decision) {
    var h := Listened(g, rms);
    if |h.levels| <= Warmup(config) then (h.(peak := Follow(h.peak, rms)), Decision(false, false, false))
    else if rms > Threshold(config, h.peak) then
      if h.hot + 1 >= config.frames then
        (h.(hot := h.hot + 1, active := true, quiet := 0), Decision(true, true, false))
      else (h.(hot := h.hot + 1), Decision(false, false, false))
    else (h.(hot := 0, peak := Follow(h.peak, rms)), Decision(false, false, false))
  }

  function Observe(config: Config, g: Gate, rms: real): (Gate, Decision) {
    if g.active then ObserveActive(g, rms) else ObserveIdle(config, g, rms)
  }

  // ---------- the processor ----------

  datatype Processor = Processor(
    levels: seq<real>, envelope: real, fastEma: real, slowEma: real, hotStreak: nat, quietStreak: nat, bargedIn: bool,
    dropped: nat)

  const PROCESSOR_RESET: Processor := Processor([], 0.0, 0.0, 0.0, 0, 0, false, 0)

  function Tracked(p: Processor, rms: real): Processor {
    var levels := Remembered(p.levels, rms);
    if p.fastEma == 0.0 then p.(levels := levels, fastEma := rms, slowEma := rms)
    else p.(levels := levels, fastEma := 0.3 * rms + 0.7 * p.fastEma, slowEma := 0.05 * rms + 0.95 * p.slowEma)
  }

  /** A tracked level against the envelope: the new state, and whether the frame completes a barge-in. */
  function Judged(config: Config, t: Processor, rms: real): (Processor, bool) {
    var warmup := if config.gain <= 1.5 then 2 else WARMUP_FRAMES;
    if |t.levels| <= warmup then
      if t.envelope <= 0.0 || rms > t.envelope then (t.(envelope := rms), false)
      else (t.(envelope := 0.96 * t.envelope + 0.04 * rms), false)
    else
      var floor := if config.gain <= 1.5 then 350.0 else 1200.0;
      if rms > Larger(t.envelope * config.gain, floor) then
        (t.(hotStreak := t.hotStreak + 1), t.hotStreak + 1 >= config.frames)
      else
        var c := t.(hotStreak := 0);
        if c.bargedIn then (c, false)
        else if rms > c.envelope then (c.(envelope := rms), false)
        else (c.(envelope := 0.96 * c.envelope + 0.04 * rms), false)
  }

  function BargeIn(config: Config, p: Processor, rms: real): (Processor, bool) {
    Judged(config, Tracked(p, rms), rms)
  }

  /** A microphone frame under suppression with barge-in allowed: the new state, and whether the frame passes. */
  function Suppress(config: Config, p: Processor, rms: real): (Processor, bool) {
    if !p.bargedIn then
      var (t, started) := BargeIn(config, p, rms);
      if started then (t.(bargedIn := true, quietStreak := 0), true) else (t.(dropped := t.dropped + 1), false)
    else if rms <= p.envelope * 0.8 then
      if p.quietStreak + 1 >= QUIET_FRAMES then
        (p.(bargedIn := false, hotStreak := 0, quietStreak := 0, dropped := p.dropped + 1), false)
      else (p.(quietStreak := p.quietStreak + 1), true)
    else (p.(quietStreak := 0), true)
  }

  /** A frame outside suppression ends the barge-in and both streaks, and passes. */
  function Unsuppressed(p: Processor): Processor {
    p.(bargedIn := false, hotStreak := 0, quietStreak := 0)
  }

  /** The detector forgets what it learnt; a barge-in goes on. */
  function DetectorReset(p: Processor): Processor {
    PROCESSOR_RESET.(bargedIn := p.bargedIn, dropped := p.dropped)
  }

  // ---------- the two agree ----------

  /** Averages start together and levels are not negative. */
  predicate Sane(g: Gate) {
    g.peak >= 0.0 && g.fast >= 0.0 && g.slow >= 0.0 && (g.fast == 0.0 <==> g.slow == 0.0)
  }

  /** The count of quiet frames is read only during a barge-in. */
  predicate Same(g: Gate, p: Processor) {
    && g.levels == p.levels && g.peak == p.envelope && g.fast == p.fastEma && g.slow == p.slowEma
    && g.hot == p.hotStreak && g.active == p.bargedIn && (g.active ==> g.quiet == p.quietStreak)
  }

  lemma AveragesAgree(g: Gate, p: Processor, rms: real)
    requires Sane(g) && Same(g, p) && rms >= 0.0
    ensures var h, q := Listened(g, rms), Tracked(p, rms); Sane(h) && Same(h, q)
  {
  }

  /** The two ways to follow the peak differ only at a peak of zero, where they agree. */
  lemma PeaksAgree(peak: real, rms: real)
    requires peak >= 0.0 && rms >= 0.0
    ensures Follow(peak, rms) == if peak <= 0.0 || rms > peak then rms else 0.96 * peak + 0.04 * rms
    ensures Follow(peak, rms) >= 0.0
  {
  }

  lemma IdleStepsAgree(config: Config, g: Gate, p: Processor, rms: real)
    requires Sane(g) && Same(g, p) && rms >= 0.0 && !g.active
    ensures var (h, d) := ObserveIdle(config, g, rms);
            var (q, passed) := Suppress(config, p, rms);
            Sane(h) && Same(h, q) && d.allow == passed && (d.allow <==> h.active)
            && q.dropped == p.dropped + (if d.allow then 0 else 1)
  {
    AveragesAgree(g, p, rms);
    PeaksAgree(g.peak, rms);
  }

  lemma ActiveStepsAgree(config: Config, g: Gate, p: Processor, rms: real)
    requires Sane(g) && Same(g, p) && g.active
    ensures var (h, d) := ObserveActive(g, rms);
            var (q, passed) := Suppress(config, p, rms);
            Sane(h) && Same(h, q) && d.allow == passed && (d.allow <==> h.active)
            && q.dropped == p.dropped + (if d.allow then 0 else 1)
  {
  }

  /** One frame under suppression: the same decision, and the same state again. */
  lemma StepsAgree(config: Config, g: Gate, p: Processor, rms: real)
    requires Sane(g) && Same(g, p) && rms >= 0.0
    ensures var (h, d) := Observe(config, g, rms);
            var (q, passed) := Suppress(config, p, rms);
            Sane(h) && Same(h, q) && d.allow == passed && (d.allow <==> h.active)
            && q.dropped == p.dropped + (if d.allow then 0 else 1)
  {
    if g.active {
      ActiveStepsAgree(config, g, p, rms);
    } else {
      IdleStepsAgree(config, g, p, rms);
    }
  }

  datatype Input = Frame(rms: real) | Reset | Reconfigure(config: Config)

  function GateRun(config: Config, g: Gate, inputs: seq<Input>): seq<bool>
    decreases |inputs|
  {
    if inputs == [] then []
    else
      match inputs[0]
      case Frame(rms) => var (h, d) := Observe(config, g, rms); [d.allow] + GateRun(config, h, inputs[1..])
      case Reset => GateRun(config, GATE_RESET, inputs[1..])
      case Reconfigure(c) => GateRun(c, GATE_RESET, inputs[1..])
  }

  function ProcessorRun(config: Config, p: Processor, inputs: seq<Input>): seq<bool>
    decreases |inputs|
  {
    if inputs == [] then []
    else
      match inputs[0]
      case Frame(rms) => var (q, passed) := Suppress(config, p, rms); [passed] + ProcessorRun(config, q, inputs[1..])
      case Reset => ProcessorRun(config, DetectorReset(p.(bargedIn := false)), inputs[1..])
      case Reconfigure(c) => ProcessorRun(c, DetectorReset(p.(bargedIn := false)), inputs[1..])
  }

  lemma {:induction false} RunsAgreeFrom(config: Config, g: Gate, p: Processor, inputs: seq<Input>)
    requires Sane(g) && Same(g, p) && forall i :: 0 <= i < |inputs| && inputs[i].Frame? ==> inputs[i].rms >= 0.0
    ensures GateRun(config, g, inputs) == ProcessorRun(config, p, inputs)
    decreases |inputs|
  {
    if inputs != [] {
      match inputs[0]
      case Frame(rms) =>
        StepsAgree(config, g, p, rms);
        RunsAgreeFrom(config, Observe(config, g, rms).0, Suppress(config, p, rms).0, inputs[1..]);
      case Reset => RunsAgreeFrom(config, GATE_RESET, DetectorReset(p.(bargedIn := false)), inputs[1..]);
      case Reconfigure(c) => RunsAgreeFrom(c, GATE_RESET, DetectorReset(p.(bargedIn := false)), inputs[1..]);
    }
  }

  /** From a fresh start, over any levels, resets and changes of mode, both let the same frames through. */
  lemma GatesAgree(config: Config, inputs: seq<Input>)
    requires forall i :: 0 <= i < |inputs| && inputs[i].Frame? ==> inputs[i].rms >= 0.0
    ensures GateRun(config, GATE_RESET, inputs) == ProcessorRun(config, PROCESSOR_RESET, inputs)
  {
    RunsAgreeFrom(config, GATE_RESET, PROCESSOR_RESET, inputs);
  }

  /** A frame outside suppression, which the gate never hears of, keeps them the same only where nothing was going on. */
  lemma UnsuppressedFrameSeparates(g: Gate, p: Processor)
    requires Same(g, p)
    ensures Same(g, Unsuppressed(p)) <==> !g.active && g.hot == 0
  {
  }

  /**
  And the next frame is then decided differently exactly in two cases: during a barge-in, unless it either relocks the
  gate or makes a barge-in of its own and not both; and while a barge-in gathers, at a frame that completes it for the
  gate but would not on its own.
  */
  lemma UnsuppressedFrameMisleadsIff(config: Config, g: Gate, p: Processor, rms: real)
    requires Sane(g) && Same(g, p) && rms >= 0.0
    ensures var loud := |Remembered(g.levels, rms)| > Warmup(config) && rms > Threshold(config, g.peak);
            Observe(config, g, rms).1.allow != Suppress(config, Unsuppressed(p), rms).1
            <==> if g.active then
                   (rms <= g.peak * 0.8 && g.quiet + 1 >= QUIET_FRAMES) == (loud && config.frames <= 1)
                 else
                   loud && g.hot + 1 >= config.frames > 1
  {
    var q := Tracked(Unsuppressed(p), rms);
    assert q.levels == Remembered(g.levels, rms) && q.envelope == g.peak;
    assert Suppress(config, Unsuppressed(p), rms).1 == Judged(config, q, rms).1;
  }

  function GateAfter(config: Config, g: Gate, levels: seq<real>): Gate
    decreases |levels|
  {
    if levels == [] then g else GateAfter(config, Observe(config, g, levels[0]).0, levels[1..])
  }

  function ProcessorAfter(config: Config, p: Processor, levels: seq<real>): Processor
    decreases |levels|
  {
    if levels == [] then p else ProcessorAfter(config, Suppress(config, p, levels[0]).0, levels[1..])
  }

  lemma {:induction false} StatesAgreeAfter(config: Config, g: Gate, p: Processor, levels: seq<real>)
    requires Sane(g) && Same(g, p) && forall i :: 0 <= i < |levels| ==> levels[i] >= 0.0
    ensures Sane(GateAfter(config, g, levels)) && Same(GateAfter(config, g, levels), ProcessorAfter(config, p, levels))
    decreases |levels|
  {
    if levels != [] {
      StepsAgree(config, g, p, levels[0]);
      StatesAgreeAfter(config, Observe(config, g, levels[0]).0, Suppress(config, p, levels[0]).0, levels[1..]);
    }
  }

  /** Two frames to warm up and two loud ones. */
  const BARGE_IN_LEVELS: seq<real> := [100.0, 100.0, 400.0, 400.0]

  lemma TwoLoudFramesBargeIn(config: Config)
    requires config == Config(1.0, 2)
    ensures var g := GateAfter(config, GATE_RESET, BARGE_IN_LEVELS); g.active && g.peak == 100.0
  {
    var one := Observe(config, GATE_RESET, 100.0).0;
    assert |one.levels| == 1 && one.peak == 100.0 && one.hot == 0 && !one.active;
    var two := Observe(config, one, 100.0).0;
    assert |two.levels| == 2 && two.peak == 100.0 && two.hot == 0 && !two.active;
    var three := Observe(config, two, 400.0).0;
    assert |three.levels| == 3 && three.peak == 100.0 && three.hot == 1 && !three.active;
    var four := Observe(config, three, 400.0).0;
    assert four.active && four.peak == 100.0;
    assert BARGE_IN_LEVELS[1..] == [100.0, 400.0, 400.0] && [100.0, 400.0, 400.0][1..] == [400.0, 400.0];
    assert [400.0, 400.0][1..] == [400.0] && [400.0][1..] == [];
    assert GateAfter(config, four, []) == four;
    assert GateAfter(config, three, [400.0]) == four;
    assert GateAfter(config, two, [400.0, 400.0]) == four;
    assert GateAfter(config, one, [100.0, 400.0, 400.0]) == four;
  }

  /**
  It happens: from a fresh start both are in the barge-in these frames have made, one frame comes outside suppression,
  and the next, as loud, passes the gate and is dropped by the processor.
  */
  lemma GatesCanDisagree()
    ensures var config := Config(1.0, 2);
            var g, p := GateAfter(config, GATE_RESET, BARGE_IN_LEVELS),
                        ProcessorAfter(config, PROCESSOR_RESET, BARGE_IN_LEVELS);
            && Same(g, p)
            && Observe(config, g, 400.0).1.allow
            && !Suppress(config, Unsuppressed(p), 400.0).1
  {
    var config := Config(1.0, 2);
    TwoLoudFramesBargeIn(config);
    StatesAgreeAfter(config, GATE_RESET, PROCESSOR_RESET, BARGE_IN_LEVELS);
    UnsuppressedFrameMisleadsIff(config, GateAfter(config, GATE_RESET, BARGE_IN_LEVELS),
                                 ProcessorAfter(config, PROCESSOR_RESET, BARGE_IN_LEVELS), 400.0);
  }

  // ---------- when a barge-in starts and ends ----------

  /** The states before each frame and after the last. */
  ghost predicate IsRun(config: Config, states: seq<Gate>, levels: seq<real>) {
    && |states| == |levels| + 1 && states[0] == GATE_RESET
    && (forall i :: 0 <= i < |levels| ==> levels[i] >= 0.0)
    && forall i {:trigger IsStep(config, states, levels, i)} :: 0 <= i < |levels| ==> IsStep(config, states, levels, i)
  }

  predicate IsStep(config: Config, states: seq<Gate>, levels: seq<real>, i: nat)
    requires |states| == |levels| + 1 && i < |levels|
  {
    states[i + 1] == Observe(config, states[i], levels[i]).0
  }

  /** A frame that counts towards a barge-in: warmed up, and above the threshold of the moment. */
  predicate Loud(config: Config, g: Gate, rms: real) {
    !g.active && |Remembered(g.levels, rms)| > Warmup(config) && rms > Threshold(config, g.peak)
  }

  predicate Quiet(g: Gate, rms: real) {
    g.active && rms <= g.peak * 0.8
  }

  function Needed(config: Config): nat { if config.frames >= 1 then config.frames else 1 }

  /**
  Loud against both the peak and the floor of the mode, once two levels have been heard, or eight in the less sensitive
  mode.
  */
  lemma LoudIff(config: Config, g: Gate, rms: real)
    ensures Loud(config, g, rms)
            <==> !g.active && rms > g.peak * config.gain
                 && if config.gain <= 1.5 then |g.levels| >= 2 && rms > 350.0 else |g.levels| >= 8 && rms > 1200.0
  {
  }

  /**
  What a frame outside of a barge-in leaves: the last fifty levels, averages that close 30 and 5 per cent of their
  distance to the level, and a peak that rises to it at once but closes only 4 per cent downwards.
  */
  lemma HeardLevels(config: Config, g: Gate, rms: real)
    requires !g.active && |g.levels| <= 50
    ensures var h := Observe(config, g, rms).0;
            && h.levels == (if |g.levels| == 50 then g.levels[1..] else g.levels) + [rms] && |h.levels| <= 50
            && (g.fast != 0.0 ==> h.fast - rms == 0.7 * (g.fast - rms))
            && (g.slow != 0.0 ==> h.slow - rms == 0.95 * (g.slow - rms))
            && (h.peak - rms == (if Loud(config, g, rms) then g.peak - rms
                                 else if rms > g.peak then 0.0 else 0.96 * (g.peak - rms)))
  {
  }

  ghost predicate LoudOver(config: Config, states: seq<Gate>, levels: seq<real>, lo: int, hi: int)
    requires |states| == |levels| + 1 && 0 <= lo <= hi <= |levels|
  {
    forall m :: lo <= m < hi ==> Loud(config, states[m], levels[m])
  }

  /** Loud frames do not raise the peak they are measured against. */
  ghost predicate PeakFrozen(states: seq<Gate>, lo: int, hi: int)
    requires 0 <= lo <= hi < |states|
  {
    forall m :: lo <= m <= hi ==> states[m].peak == states[hi].peak
  }

  ghost predicate QuietOver(states: seq<Gate>, levels: seq<real>, lo: int, hi: int)
    requires |states| == |levels| + 1 && 0 <= lo <= hi <= |levels|
  {
    forall m :: lo <= m < hi ==> Quiet(states[m], levels[m])
  }

  /** The effect of one frame on the two counters and the peak. */
  lemma EffectOfFrame(config: Config, g: Gate, rms: real)
    ensures var (h, d) := Observe(config, g, rms);
            && (g.active ==> h.peak == g.peak && !d.started)
            && (g.active && Quiet(g, rms) ==>
                  (d.relocked <==> g.quiet + 1 >= QUIET_FRAMES)
                  && (if d.relocked then !h.active && h.hot == 0 else h.active && h.quiet == g.quiet + 1))
            && (g.active && !Quiet(g, rms) ==> !d.relocked && h.active && h.quiet == 0)
            && (!g.active ==> !d.relocked && |h.levels| == |Remembered(g.levels, rms)|)
            && (Loud(config, g, rms) ==> h.peak == g.peak && (d.started <==> g.hot + 1 >= config.frames)
                                         && h.active == d.started && h.hot == g.hot + 1 && (d.started ==> h.quiet == 0))
            && (!g.active && !Loud(config, g, rms) ==> !d.started && !h.active
                                                       && (h.hot == 0 || (h.hot == g.hot && |h.levels| <= Warmup(config))))
  {
  }

  lemma {:induction false} HotCountsLoudFrames(config: Config, states: seq<Gate>, levels: seq<real>, i: nat)
    requires IsRun(config, states, levels) && i <= |levels| && !states[i].active
    ensures states[i].hot < Needed(config) && states[i].hot <= i
    ensures states[i].hot > 0 ==> |states[i].levels| > Warmup(config)
    ensures LoudOver(config, states, levels, i - states[i].hot, i) && PeakFrozen(states, i - states[i].hot, i)
  {
    if i > 0 {
      assert IsStep(config, states, levels, i - 1);
      EffectOfFrame(config, states[i - 1], levels[i - 1]);
      if !states[i - 1].active {
        HotCountsLoudFrames(config, states, levels, i - 1);
      }
    }
  }

  lemma {:induction false} LoudFramesAreCounted(config: Config, states: seq<Gate>, levels: seq<real>, lo: nat, i: nat)
    requires IsRun(config, states, levels) && lo <= i < |levels|
    requires LoudOver(config, states, levels, lo, i + 1)
    ensures states[i].hot >= i - lo
    decreases i
  {
    if lo < i {
      LoudFramesAreCounted(config, states, levels, lo, i - 1);
      assert IsStep(config, states, levels, i - 1);
      EffectOfFrame(config, states[i - 1], levels[i - 1]);
      assert Loud(config, states[i - 1], levels[i - 1]) && Loud(config, states[i], levels[i]);
    }
  }

  /**
  A frame starts a barge-in exactly when it completes as many loud frames in a row as are required; they were all
  measured against one peak, which the barge-in then keeps.
  */
  lemma BargeInNeedsLoudFrames(config: Config, states: seq<Gate>, levels: seq<real>, j: nat)
    requires IsRun(config, states, levels) && j < |levels|
    ensures var k := Needed(config);
            && (Observe(config, states[j], levels[j]).1.started
                <==> k <= j + 1 && LoudOver(config, states, levels, j + 1 - k, j + 1))
            && (Observe(config, states[j], levels[j]).1.started ==> PeakFrozen(states, j + 1 - k, j + 1))
  {
    var k := Needed(config);
    assert IsStep(config, states, levels, j);
    EffectOfFrame(config, states[j], levels[j]);
    if !states[j].active {
      HotCountsLoudFrames(config, states, levels, j);
      if k <= j + 1 && LoudOver(config, states, levels, j + 1 - k, j + 1) {
        LoudFramesAreCounted(config, states, levels, j + 1 - k, j);
        assert Loud(config, states[j], levels[j]);
      }
    } else if k <= j + 1 {
      assert !Loud(config, states[j], levels[j]);
    }
  }

  lemma {:induction false} QuietCountsQuietFrames(config: Config, states: seq<Gate>, levels: seq<real>, i: nat)
    requires IsRun(config, states, levels) && i <= |levels| && states[i].active
    ensures states[i].quiet < QUIET_FRAMES && states[i].quiet <= i
    ensures QuietOver(states, levels, i - states[i].quiet, i)
  {
    if i > 0 {
      assert IsStep(config, states, levels, i - 1);
      EffectOfFrame(config, states[i - 1], levels[i - 1]);
      if states[i - 1].active {
        QuietCountsQuietFrames(config, states, levels, i - 1);
      }
    }
  }

  lemma {:induction false} QuietFramesAreCounted(config: Config, states: seq<Gate>, levels: seq<real>, lo: nat, i: nat)
    requires IsRun(config, states, levels) && lo <= i < |levels|
    requires QuietOver(states, levels, lo, i + 1)
    ensures states[i].quiet >= i - lo
    decreases i
  {
    if lo < i {
      QuietFramesAreCounted(config, states, levels, lo, i - 1);
      assert IsStep(config, states, levels, i - 1);
      EffectOfFrame(config, states[i - 1], levels[i - 1]);
      assert Quiet(states[i - 1], levels[i - 1]) && Quiet(states[i], levels[i]);
    }
  }

  /** A barge-in ends exactly when twenty quiet frames in a row are complete. */
  lemma RelockNeedsQuietFrames(config: Config, states: seq<Gate>, levels: seq<real>, j: nat)
    requires IsRun(config, states, levels) && j < |levels|
    ensures Observe(config, states[j], levels[j]).1.relocked
            <==> 20 <= j + 1 && QuietOver(states, levels, j - 19, j + 1)
  {
    EffectOfFrame(config, states[j], levels[j]);
    if states[j].active {
      QuietCountsQuietFrames(config, states, levels, j);
      if QUIET_FRAMES <= j + 1 && QuietOver(states, levels, j + 1 - QUIET_FRAMES, j + 1) {
        QuietFramesAreCounted(config, states, levels, j + 1 - QUIET_FRAMES, j);
        assert Quiet(states[j], levels[j]);
      }
    } else if QUIET_FRAMES <= j + 1 {
      assert !Quiet(states[j], levels[j]);
    }
  }

  // ---------- the objects ----------

  class AdaptiveEnergyGate {
    var config: Config
    var levels: seq<real>
    var peak: real
    var fast: real
    var slow: real
    var hot: nat
    var quiet: nat
    var bargeInActive: bool

    ghost function View(): Gate
      reads this
    {
      Gate(levels, peak, fast, slow, hot, quiet, bargeInActive)
    }

    constructor (config: Config)
      ensures View() == GATE_RESET && this.config == config
    {
      this.config := config;
      levels, peak, fast, slow, hot, quiet, bargeInActive := [], 0.0, 0.0, 0.0, 0, 0, false;
    }

    method Forget()
      modifies this
      ensures View() == GATE_RESET && config == old(config)
    {
      levels, peak, fast, slow, hot, quiet, bargeInActive := [], 0.0, 0.0, 0.0, 0, 0, false;
    }

    method Update(rms: real)
      modifies this`peak
      ensures peak == Follow(old(peak), rms)
    {
      peak := if rms > peak then rms else 0.96 * peak + 0.04 * rms;
    }

    method ObserveLevel(rms: real) returns (d: Decision)
      modifies this
      ensures (View(), d) == Observe(config, old(View()), rms) && config == old(config)
    {
      if bargeInActive {
        if rms <= peak * 0.8 {
          quiet := quiet + 1;
          if quiet >= QUIET_FRAMES {
            bargeInActive, hot, quiet := false, 0, 0;
            return Decision(false, false, true);
          }
        } else {
          quiet := 0;
        }
        return Decision(true, false, false);
      }
      levels := Remembered(levels, rms);
      fast := if fast == 0.0 then rms else 0.3 * rms + 0.7 * fast;
      slow := if slow == 0.0 then rms else 0.05 * rms + 0.95 * slow;
      if |levels| <= Warmup(config) {
        Update(rms);
        return Decision(false, false, false);
      }
      if rms > Threshold(config, peak) {
        hot := hot + 1;
        if hot >= config.frames {
          bargeInActive, quiet := true, 0;
          return Decision(true, true, false);
        }
        return Decision(false, false, false);
      }
      hot := 0;
      Update(rms);
      d := Decision(false, false, false);
    }
  }

  class EchoSuppressionProcessor {
    var config: Config
    var allowBargeIn: bool
    var levels: seq<real>
    var peakEnvelope: real
    var fastEma: real
    var slowEma: real
    var hotStreak: nat
    var quietStreak: nat
    var bargeInActive: bool
    var dropped: nat

    ghost function View(): Processor
      reads this
    {
      Processor(levels, peakEnvelope, fastEma, slowEma, hotStreak, quietStreak, bargeInActive, dropped)
    }

    constructor (config: Config, allowBargeIn: bool)
      ensures View() == PROCESSOR_RESET && this.config == config && this.allowBargeIn == allowBargeIn
    {
      this.config, this.allowBargeIn := config, allowBargeIn;
      levels, peakEnvelope, fastEma, slowEma, hotStreak, quietStreak := [], 0.0, 0.0, 0.0, 0, 0;
      bargeInActive, dropped := false, 0;
    }

    method ResetEnergyDetector()
      modifies this
      ensures View() == DetectorReset(old(View())) && config == old(config) && allowBargeIn == old(allowBargeIn)
      ensures bargeInActive == old(bargeInActive) && dropped == old(dropped)
    {
      levels, peakEnvelope, fastEma, slowEma, hotStreak, quietStreak := [], 0.0, 0.0, 0.0, 0, 0;
    }

    method SetMode(allow: bool, newConfig: Config)
      modifies this
      ensures View() == DetectorReset(old(View()).(bargedIn := false)) && config == newConfig && allowBargeIn == allow
    {
      allowBargeIn, config := allow, newConfig;
      bargeInActive := false;
      ResetEnergyDetector();
    }

    method Track(rms: real)
      modifies this
      ensures View() == Tracked(old(View()), rms) && config == old(config) && allowBargeIn == old(allowBargeIn)
    {
      levels := Remembered(levels, rms);
      if fastEma == 0.0 {
        fastEma, slowEma := rms, rms;
      } else {
        fastEma := 0.3 * rms + 0.7 * fastEma;
        slowEma := 0.05 * rms + 0.95 * slowEma;
      }
    }

    method Judge(rms: real) returns (started: bool)
      modifies this
      ensures (View(), started) == Judged(config, old(View()), rms)
      ensures config == old(config) && allowBargeIn == old(allowBargeIn)
    {
      var warmup := if config.gain <= 1.5 then 2 else WARMUP_FRAMES;
      if |levels| <= warmup {
        if peakEnvelope <= 0.0 || rms > peakEnvelope {
          peakEnvelope := rms;
        } else {
          peakEnvelope := 0.96 * peakEnvelope + 0.04 * rms;
        }
        return false;
      }
      var floor := if config.gain <= 1.5 then 350.0 else 1200.0;
      if rms > Larger(peakEnvelope * config.gain, floor) {
        hotStreak := hotStreak + 1;
        return hotStreak >= config.frames;
      }
      hotStreak := 0;
      if !bargeInActive {
        if rms > peakEnvelope {
          peakEnvelope := rms;
        } else {
          peakEnvelope := 0.96 * peakEnvelope + 0.04 * rms;
        }
      }
      started := false;
    }

    method DetectBargeIn(rms: real) returns (started: bool)
      modifies this
      ensures (View(), started) == BargeIn(config, old(View()), rms)
      ensures config == old(config) && allowBargeIn == old(allowBargeIn)
    {
      Track(rms);
      started := Judge(rms);
    }

    /** A microphone frame: whether it is passed on. rms is None where the level cannot be computed. */
    method ProcessAudio(suppressing: bool, rms: Option<real>) returns (pass: bool)
      modifies this
      ensures !suppressing ==> pass && View() == Unsuppressed(old(View()))
      ensures suppressing && !allowBargeIn ==> !pass && View() == old(View()).(dropped := old(dropped) + 1)
      ensures suppressing && allowBargeIn && rms.None? ==> pass && View() == old(View())
      ensures suppressing && allowBargeIn && rms.Some? ==> (View(), pass) == Suppress(config, old(View()), rms.value)
      ensures config == old(config) && allowBargeIn == old(allowBargeIn)
    {
      if !suppressing {
        bargeInActive, hotStreak, quietStreak := false, 0, 0;
        return true;
      }
      if !allowBargeIn {
        dropped := dropped + 1;
        return false;
      }
      if rms.None? {
        return true;
      }
      if !bargeInActive {
        var started := DetectBargeIn(rms.value);
        if started {
          bargeInActive, quietStreak := true, 0;
          return true;
        }
        dropped := dropped + 1;
        return false;
      }
      if rms.value <= peakEnvelope * 0.8 {
        quietStreak := quietStreak + 1;
        if quietStreak >= QUIET_FRAMES {
          bargeInActive, hotStreak, quietStreak := false, 0, 0;
          dropped := dropped + 1;
          return false;
        }
      } else {
        quietStreak := 0;
      }
      pass := true;
    }
  }
}
