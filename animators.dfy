/**
 * The procedural animators of the Live2D model. Each animator is a class
 * whose fields change on every tick; its Update method returns the
 * parameter writes of that tick (a parameter id, a value and a weight).
 *
 * Date.now()/1000 is the parameter `now`, each Math.random() call is an
 * entry of `draws` (a value in [0, 1)), and Math.sin/cos/sqrt are the
 * functions of a MathLib value.
 */
module Animators {
  import opened AnimationMath
  import opened Wrappers

  /** One parameter write: the weight-1 writes replace a value, others add to it. */
  datatype ParameterUpdate = ParameterUpdate(name: string, value: real, weight: real)

  /** A write with weight 1. */
  function Set(name: string, value: real): ParameterUpdate
  {
    ParameterUpdate(name, value, 1.0)
  }

  // ---------------------------------------------------------------------
  // LipSyncAnimator
  // ---------------------------------------------------------------------

  /** The sum of the squares of the samples. */
  function SumSquares(s: seq<real>): (r: real)
    ensures 0.0 <= r
    ensures s == [] ==> r == 0.0
  {
    if s == [] then 0.0 else SumSquares(s[..|s| - 1]) + s[|s| - 1] * s[|s| - 1]
  }

  /** The mouth opening an RMS level asks for: nothing below the silence threshold,
      otherwise the square of the normalised level, capped at 1, times the mouth scale.
      With a zero maxRmsScale a level above the threshold normalises to Infinity, which
      the cap turns into 1; a level exactly at it would give 0 / 0, NaN, and is excluded. */
  function MouthTarget(rms: real, silenceThreshold: real, maxRmsScale: real, mouthScale: real): (v: real)
    requires maxRmsScale != 0.0 || rms != silenceThreshold
    ensures rms < silenceThreshold ==> v == 0.0
    ensures 0.0 <= mouthScale ==> 0.0 <= v <= mouthScale
    ensures silenceThreshold <= rms && rms - silenceThreshold >= maxRmsScale > 0.0 ==> v == mouthScale
    ensures silenceThreshold < rms && maxRmsScale == 0.0 ==> v == mouthScale
  {
    if rms < silenceThreshold then 0.0
    else if maxRmsScale == 0.0 then mouthScale
    else
      var n := (rms - silenceThreshold) / maxRmsScale;
      var capped := Min(n * n, 1.0);
      LoudCap(n, rms - silenceThreshold, maxRmsScale);
      ScaleUnit(capped, mouthScale);
      capped * mouthScale
  }

  lemma ScaleUnit(c: real, scale: real)
    requires 0.0 <= c <= 1.0
    ensures 0.0 <= scale ==> 0.0 <= c * scale <= scale
  {
    if 0.0 <= scale {
      MulMono(0.0, c, scale);
      MulMono(c, 1.0, scale);
    }
  }

  lemma LoudCap(n: real, excess: real, maxRmsScale: real)
    requires maxRmsScale != 0.0 && n == excess / maxRmsScale
    ensures excess >= maxRmsScale > 0.0 ==> Min(n * n, 1.0) == 1.0
  {
    if excess >= maxRmsScale > 0.0 {
      DivMono(maxRmsScale, excess, maxRmsScale);
      MulMono(1.0, n, n);
    }
  }

  /** Exponential smoothing: alpha of the new target plus (1 - alpha) of the last value.
      With alpha in [0, 1] the result lies between the last value and the target. */
  function Smoothed(alpha: real, target: real, last: real): (r: real)
    ensures 0.0 <= alpha <= 1.0 ==> Min(target, last) <= r <= Max(target, last)
    ensures alpha == 1.0 ==> r == target
    ensures alpha == 0.0 ==> r == last
  {
    var r := alpha * target + (1.0 - alpha) * last;
    assert r == Lerp(alpha, last, target);
    if 0.0 <= alpha <= 1.0 then LerpBetween(alpha, last, target); r else r
  }

  /** The decay of the mouth when no audio plays: 5% per tick, then snapped to 0. */
  function Decay(v: real): (r: real)
    ensures v > 0.001 ==> 0.0 < r < v
    ensures v <= 0.001 ==> r == 0.0
  {
    if v > 0.001 then v * 0.95 else 0.0
  }

  /** Optional new values for the lip-sync tuning parameters. */
  datatype LipSyncParams = LipSyncParams(
    smoothingFactor: Option<real>,
    silenceThreshold: Option<real>,
    maxRmsScale: Option<real>,
    mouthScale: Option<real>)

  function Or(o: Option<real>, current: real): real
  {
    if o.Some? then o.value else current
  }

  /** The fields of a lip-sync animator. */
  datatype LipSyncState = LipSyncState(
    smoothingFactor: real, lastMouthValue: real, silenceThreshold: real, maxRmsScale: real,
    mouthScale: real, currentMouthValue: real, isPlaying: bool)

  /** One tick of the lip-sync animator, its new state and its writes: while audio plays
      the mouth holds its value, otherwise it decays; either way the one write is the
      mouth opening. */
  function LipSyncStep(s: LipSyncState): (LipSyncState, seq<ParameterUpdate>)
  {
    var v := if s.isPlaying then s.currentMouthValue else Decay(s.currentMouthValue);
    (s.(currentMouthValue := v), [Set("ParamMouthOpenY", v)])
  }

  /** A tick writes exactly the mouth opening, with weight 1, and changes nothing but the
      current mouth value: it holds while playing, and otherwise shrinks towards 0 and
      reaches 0 once it is at most 0.001. */
  lemma LipSyncStepDecays(s: LipSyncState)
    ensures var (n, r) := LipSyncStep(s);
            && r == [Set("ParamMouthOpenY", n.currentMouthValue)]
            && n == s.(currentMouthValue := n.currentMouthValue)
            && (s.isPlaying ==> n == s)
            && (!s.isPlaying && 0.0 <= s.currentMouthValue ==> 0.0 <= n.currentMouthValue <= s.currentMouthValue)
            && (!s.isPlaying && s.currentMouthValue <= 0.001 ==> n.currentMouthValue == 0.0)
  {
  }

  class LipSyncAnimator {
    var smoothingFactor: real
    var lastMouthValue: real
    var silenceThreshold: real
    var maxRmsScale: real
    var mouthScale: real
    var currentMouthValue: real
    var isPlaying: bool

    ghost function State(): LipSyncState
      reads this
    {
      LipSyncState(smoothingFactor, lastMouthValue, silenceThreshold, maxRmsScale, mouthScale,
                   currentMouthValue, isPlaying)
    }

    constructor ()
      ensures smoothingFactor == 0.3 && silenceThreshold == 0.001
      ensures maxRmsScale == 0.1 && mouthScale == 1.0
      ensures lastMouthValue == 0.0 && currentMouthValue == 0.0 && !isPlaying
    {
      smoothingFactor := 0.3;
      lastMouthValue := 0.0;
      silenceThreshold := 0.001;
      maxRmsScale := 0.1;
      mouthScale := 1.0;
      currentMouthValue := 0.0;
      isPlaying := false;
    }

    /** updateMouthSync: the RMS of the chunk gives a mouth target, which is smoothed
        against the last value; the result becomes both the current and the last value. */
    method UpdateMouthSync(chunk: seq<real>, m: MathLib)
      requires |chunk| > 0
      requires maxRmsScale != 0.0 || m.sqrt(SumSquares(chunk) / |chunk| as real) != silenceThreshold
      modifies this
      ensures smoothingFactor == old(smoothingFactor) && silenceThreshold == old(silenceThreshold)
      ensures maxRmsScale == old(maxRmsScale) && mouthScale == old(mouthScale)
      ensures isPlaying
      ensures var rms := m.sqrt(SumSquares(chunk) / |chunk| as real);
              currentMouthValue
              == Smoothed(smoothingFactor, MouthTarget(rms, silenceThreshold, maxRmsScale, mouthScale),
                          old(lastMouthValue))
      ensures lastMouthValue == currentMouthValue
    {
      isPlaying := true;
      var sumSquares := 0.0;
      var i := 0;
      while i < |chunk|
        invariant 0 <= i <= |chunk|
        invariant sumSquares == SumSquares(chunk[..i])
      {
        assert chunk[..i + 1][..i] == chunk[..i];
        sumSquares := sumSquares + chunk[i] * chunk[i];
        i := i + 1;
      }
      assert chunk[..|chunk|] == chunk;
      var rms := m.sqrt(sumSquares / |chunk| as real);
      var mouthValue := MouthTarget(rms, silenceThreshold, maxRmsScale, mouthScale);
      currentMouthValue := Smoothed(smoothingFactor, mouthValue, lastMouthValue);
      lastMouthValue := currentMouthValue;
    }

    /** setMouthValue: the value clamped to [0, 1], times the mouth scale. */
    method SetMouthValue(value: real)
      modifies this
      ensures isPlaying && currentMouthValue == Clamp(value, 0.0, 1.0) * mouthScale
      ensures lastMouthValue == old(lastMouthValue)
      ensures smoothingFactor == old(smoothingFactor) && silenceThreshold == old(silenceThreshold)
      ensures maxRmsScale == old(maxRmsScale) && mouthScale == old(mouthScale)
    {
      isPlaying := true;
      currentMouthValue := Clamp(value, 0.0, 1.0) * mouthScale;
    }

    /** stopMouthSync: stops playing and closes the mouth. */
    method StopMouthSync()
      modifies this
      ensures !isPlaying && currentMouthValue == 0.0 && lastMouthValue == 0.0
      ensures smoothingFactor == old(smoothingFactor) && silenceThreshold == old(silenceThreshold)
      ensures maxRmsScale == old(maxRmsScale) && mouthScale == old(mouthScale)
    {
      isPlaying := false;
      currentMouthValue := 0.0;
      lastMouthValue := 0.0;
    }

    /** setParameters: every given tuning value replaces the current one. */
    method SetParameters(params: LipSyncParams)
      modifies this
      ensures smoothingFactor == Or(params.smoothingFactor, old(smoothingFactor))
      ensures silenceThreshold == Or(params.silenceThreshold, old(silenceThreshold))
      ensures maxRmsScale == Or(params.maxRmsScale, old(maxRmsScale))
      ensures mouthScale == Or(params.mouthScale, old(mouthScale))
      ensures currentMouthValue == old(currentMouthValue) && lastMouthValue == old(lastMouthValue)
      ensures isPlaying == old(isPlaying)
    {
      if params.smoothingFactor.Some? { smoothingFactor := params.smoothingFactor.value; }
      if params.silenceThreshold.Some? { silenceThreshold := params.silenceThreshold.value; }
      if params.maxRmsScale.Some? { maxRmsScale := params.maxRmsScale.value; }
      if params.mouthScale.Some? { mouthScale := params.mouthScale.value; }
    }

    /** update: decays the mouth when not playing, and always writes exactly one value,
        the mouth opening, with weight 1. */
    method Update() returns (r: seq<ParameterUpdate>)
      modifies this
      ensures (State(), r) == LipSyncStep(old(State()))
    {
      if !isPlaying {
        if currentMouthValue > 0.001 {
          currentMouthValue := currentMouthValue * 0.95;
        } else {
          currentMouthValue := 0.0;
        }
      }
      r := [Set("ParamMouthOpenY", currentMouthValue)];
    }
  }

  // ---------------------------------------------------------------------
  // BlinkAnimator
  // ---------------------------------------------------------------------

  /** Both eyes set to the same openness. */
  function EyeOpen(v: real): seq<ParameterUpdate>
  {
    [Set("ParamEyeLOpen", v), Set("ParamEyeROpen", v)]
  }

  /** The openness during a blink, t seconds into it: 1 - sin(pi t / interval), scaled
      from [0, 2] to [0, 2.5] and rounded to hundredths. It never leaves [0, 2.5], and
      within the blink interval it never exceeds 1.25. */
  function BlinkOpenness(m: MathLib, t: real, interval: real): (r: real)
    requires interval > 0.0
    ensures m.Valid() ==> 0.0 <= r <= 2.5
    ensures m.Valid() && 0.0 <= t <= interval ==> 0.0 <= r <= 1.25
  {
    var phase := t / interval * PI;
    var openness := LinearScale1(1.0 - m.sin(phase), 0.0, 2.0, 0.0, 2.5);
    BlinkOpennessBounds(m, t, interval);
    Round2(openness)
  }

  lemma BlinkOpennessBounds(m: MathLib, t: real, interval: real)
    requires interval > 0.0
    ensures var o := LinearScale1(1.0 - m.sin(t / interval * PI), 0.0, 2.0, 0.0, 2.5);
            && (m.Valid() ==> 0.0 <= o <= 2.5 && 0.0 <= Round2(o) <= 2.5)
            && (m.Valid() && 0.0 <= t <= interval ==> 0.0 <= o <= 1.25 && 0.0 <= Round2(o) <= 1.25)
  {
    var phase := t / interval * PI;
    var x := 1.0 - m.sin(phase);
    var o := LinearScale1(x, 0.0, 2.0, 0.0, 2.5);
    assert o == x / 2.0 * 2.5;
    if m.Valid() {
      Round2Between(o, 0, 250);
      if 0.0 <= t <= interval {
        DivMono(0.0, t, interval);
        DivMono(t, interval, interval);
        MulMono(0.0, t / interval, PI);
        MulMono(t / interval, 1.0, PI);
        assert 0.0 <= m.sin(phase);
        Round2Between(o, 0, 125);
      }
    }
  }

  /** The openness while half-closed: the chosen value plus a small breathing wave,
      clamped to [0, 2.5] and rounded to hundredths. */
  function HalfCloseOpenness(m: MathLib, t: real, base: real): (r: real)
    ensures 0.0 <= r <= 2.5
    ensures m.Valid() && 0.05 <= base <= 2.45 ==> base - 0.055 < r <= base + 0.055
  {
    var wave := m.sin(t * 2.0) * 0.05;
    var v := Clamp(base + wave, 0.0, 2.5);
    Round2Between(v, 0, 250);
    Round2(v)
  }

  /** How long an idle animator waits before it blinks. */
  const BlinkWait: real := 4.0
  /** The chance that a blink ends half-closed. */
  const HalfCloseProbability: real := 0.4

  /** The fields of a blink animator that change. */
  datatype BlinkState = BlinkState(
    flag: int, interval: real, timer: real, halfCloseDuration: real, halfCloseValue: real)

  /** The state is 0 idle, 1 blinking or 2 half-closed; the durations and the
      half-close value stay in the ranges they are drawn from. */
  ghost predicate BlinkValid(s: BlinkState)
  {
    && (s.flag == 0 || s.flag == 1 || s.flag == 2)
    && 0.2 <= s.interval <= 0.4
    && 0.8 <= s.halfCloseDuration <= 2.0
    && 0.3 <= s.halfCloseValue <= 2.0
  }

  /** One tick of the blink state machine, its new state and its writes. A running
      blink (1) writes equal openness to both eyes, t rounded to hundredths seconds in,
      until its interval is over; then the eyes either half-close (when d[0] is below
      the half-close probability) or go idle, and a new interval is drawn. A half-close
      (2) writes its openness until its duration is over, then goes idle. An idle
      animator (0) writes nothing and starts a blink after the wait. */
  function BlinkStep(s: BlinkState, now: real, m: MathLib, d: seq<real>): (BlinkState, seq<ParameterUpdate>)
    requires s.interval > 0.0 && |d| >= 4
  {
    if s.flag == 1 then
      var t := Round2(now - s.timer);
      if t > s.interval then
        var n := if d[0] < HalfCloseProbability
                 then s.(flag := 2, halfCloseDuration := RandomFloat(d[1], 0.8, 2.0),
                         halfCloseValue := RandomFloat(d[2], 1.0, 2.0))
                 else s.(flag := 0);
        (n.(timer := now, interval := RandomFloat(d[3], 0.2, 0.4)), [])
      else (s, EyeOpen(BlinkOpenness(m, t, s.interval)))
    else if s.flag == 2 then
      var t := now - s.timer;
      if t > s.halfCloseDuration then (s.(flag := 0, timer := now), [])
      else (s, EyeOpen(HalfCloseOpenness(m, t, s.halfCloseValue)))
    else if s.flag == 0 then
      if now - s.timer > BlinkWait then (s.(flag := 1, timer := now), []) else (s, [])
    else (s, [])
  }

  /** A tick keeps the blink invariant, moves only along idle -> blinking -> idle or
      half-closed -> idle, and writes either nothing or the same openness, within
      [0, 2.5], to both eyes. */
  lemma BlinkStepValid(s: BlinkState, now: real, m: MathLib, d: seq<real>)
    requires BlinkValid(s) && m.Valid() && Draws(d, 4)
    ensures var (n, r) := BlinkStep(s, now, m, d);
            && BlinkValid(n)
            && (s.flag == 0 ==> n.flag == 0 || n.flag == 1)
            && (s.flag == 1 ==> n.flag == 1 || n.flag == 0 || n.flag == 2)
            && (s.flag == 2 ==> n.flag == 2 || n.flag == 0)
            && (r == [] || exists v :: 0.0 <= v <= 2.5 && r == EyeOpen(v))
  {
    var (n, r) := BlinkStep(s, now, m, d);
    if s.flag == 1 && Round2(now - s.timer) <= s.interval {
      var v := BlinkOpenness(m, Round2(now - s.timer), s.interval);
      assert r == EyeOpen(v) && 0.0 <= v <= 2.5;
    } else if s.flag == 2 && now - s.timer <= s.halfCloseDuration {
      var v := HalfCloseOpenness(m, now - s.timer, s.halfCloseValue);
      assert r == EyeOpen(v) && 0.0 <= v <= 2.5;
    }
  }

  class BlinkAnimator {
    /** 0 idle, 1 blinking, 2 half-closed. */
    var flag: int
    var interval: real
    const wait: real := BlinkWait
    var timer: real
    const halfCloseProbability: real := HalfCloseProbability
    var halfCloseDuration: real
    var halfCloseValue: real

    ghost function State(): BlinkState
      reads this
    {
      BlinkState(flag, interval, timer, halfCloseDuration, halfCloseValue)
    }

    ghost predicate Valid()
      reads this
    {
      BlinkValid(State())
    }

    constructor (now: real, draws: seq<real>)
      requires Draws(draws, 3)
      ensures Valid() && flag == 0 && timer == now
      ensures interval == RandomFloat(draws[0], 0.2, 0.4)
      ensures halfCloseDuration == RandomFloat(draws[1], 0.8, 2.0)
      ensures halfCloseValue == RandomFloat(draws[2], 0.3, 0.7)
    {
      flag := 0;
      interval := RandomFloat(draws[0], 0.2, 0.4);
      timer := now;
      halfCloseDuration := RandomFloat(draws[1], 0.8, 2.0);
      halfCloseValue := RandomFloat(draws[2], 0.3, 0.7);
    }

    /** triggerBlink: starts a blink now with a fresh interval. */
    method TriggerBlink(now: real, draws: seq<real>)
      requires Valid() && Draws(draws, 1)
      modifies this
      ensures Valid() && flag == 1 && timer == now
      ensures interval == RandomFloat(draws[0], 0.2, 0.4)
      ensures halfCloseDuration == old(halfCloseDuration) && halfCloseValue == old(halfCloseValue)
    {
      flag := 1;
      timer := now;
      interval := RandomFloat(draws[0], 0.2, 0.4);
    }

    /** triggerLongBlink: half-closes the eyes now, for 1 to 2 seconds. */
    method TriggerLongBlink(now: real, draws: seq<real>)
      requires Valid() && Draws(draws, 2)
      modifies this
      ensures Valid() && flag == 2 && timer == now
      ensures halfCloseDuration == RandomFloat(draws[0], 1.0, 2.0)
      ensures halfCloseValue == RandomFloat(draws[1], 1.0, 1.5)
      ensures interval == old(interval)
    {
      flag := 2;
      timer := now;
      halfCloseDuration := RandomFloat(draws[0], 1.0, 2.0);
      halfCloseValue := RandomFloat(draws[1], 1.0, 1.5);
    }

    /** update: one tick of the blink state machine, as BlinkStep describes it. */
    method Update(now: real, m: MathLib, draws: seq<real>) returns (r: seq<ParameterUpdate>)
      requires Valid() && Draws(draws, 4)
      modifies this
      ensures Valid()
      ensures (State(), r) == BlinkStep(old(State()), now, m, draws)
    {
      r := [];
      if flag == 1 {
        var t := Round2(now - timer);
        if t > interval {
          if draws[0] < halfCloseProbability {
            flag := 2;
            halfCloseDuration := RandomFloat(draws[1], 0.8, 2.0);
            halfCloseValue := RandomFloat(draws[2], 1.0, 2.0);
            timer := now;
          } else {
            flag := 0;
            timer := now;
          }
          interval := RandomFloat(draws[3], 0.2, 0.4);
        } else {
          r := EyeOpen(BlinkOpenness(m, t, interval));
        }
      } else if flag == 2 {
        var t := now - timer;
        if t > halfCloseDuration {
          flag := 0;
          timer := now;
        } else {
          r := EyeOpen(HalfCloseOpenness(m, t, halfCloseValue));
        }
      } else if flag == 0 {
        if now - timer > wait {
          flag := 1;
          timer := now;
        }
      }
    }
  }

  // ---------------------------------------------------------------------
  // EyeBallAnimator
  // ---------------------------------------------------------------------

  /** generateNaturalTarget: a point on an ellipse at a random angle, with horizontal
      radius in [0.3, 1] and vertical radius in [0.2, 0.6], jittered and clamped to
      [-1, 1] x [-0.5, 0.5]. */
  function NaturalTarget(m: MathLib, d: seq<real>): (t: (real, real))
    requires |d| >= 5
    ensures -1.0 <= t.0 <= 1.0 && -0.5 <= t.1 <= 0.5
  {
    var angle := RandomFloat(d[0], 0.0, 2.0 * PI);
    var hRange := RandomFloat(d[1], 0.3, 1.0);
    var vRange := RandomFloat(d[2], 0.2, 0.6);
    var x := hRange * m.cos(angle);
    var y := vRange * m.sin(angle);
    (Clamp(x + RandomFloat(d[3], -0.1, 0.1), -1.0, 1.0), Clamp(y + RandomFloat(d[4], -0.05, 0.05), -0.5, 0.5))
  }

  /** One drift step of the micro-movements: a random nudge of at most `spread`, then
      clamped to the micro amplitude 0.05. */
  function DriftStep(drift: real, r: real, spread: real): (d: real)
    ensures -0.05 <= d <= 0.05
    ensures 0.0 <= r < 1.0 && 0.0 <= spread && -0.05 <= drift <= 0.05 ==>
              drift - spread <= d <= drift + spread
  {
    Clamp(drift + RandomFloat(r, -spread, spread), -0.05, 0.05)
  }

  /** The duration of a saccade: 0.1 s plus a tenth of the distance to travel. */
  function MoveDuration(m: MathLib, dx: real, dy: real): (r: real)
    ensures m.Valid() ==> 0.1 <= r
    ensures m.Valid() && dx == 0.0 && dy == 0.0 ==> r == 0.1
  {
    var distance := m.sqrt(dx * dx + dy * dy);
    assert m.Valid() ==> 0.0 <= distance by {
      if m.Valid() {
        assert 0.0 <= dx * dx && 0.0 <= dy * dy;
      }
    }
    0.1 + distance * 0.1
  }

  /** The eye position p of the way through a saccade, eased by `cubic`. It starts at
      the start point, ends at the target and stays between them. */
  function EasedPosition(start: real, target: real, p: real): (r: real)
    ensures p == 0.0 ==> r == start
    ensures p == 1.0 ==> r == target
    ensures 0.0 <= p <= 1.0 ==> Min(start, target) <= r <= Max(start, target)
  {
    var e := Cubic(p);
    assert start + (target - start) * e == Lerp(e, start, target);
    if 0.0 <= p <= 1.0 then LerpBetween(e, start, target); start + (target - start) * e
    else start + (target - start) * e
  }

  function EyeBallOut(x: real, y: real): seq<ParameterUpdate>
  {
    [Set("ParamEyeBallX", Round3(x)), Set("ParamEyeBallY", Round3(y))]
  }

  /** The gaze part of the eye-ball animator's state. */
  datatype Gaze = Gaze(
    flag: int, timer: real, x: real, y: real, startX: real, startY: real,
    targetX: real, targetY: real, moveDuration: real, fixationTime: real)

  ghost predicate GazeValid(g: Gaze)
  {
    && (g.flag == 0 || g.flag == 1 || g.flag == 2)
    && 0.1 <= g.moveDuration
    && -1.0 <= g.targetX <= 1.0 && -0.5 <= g.targetY <= 0.5
  }

  /** One tick of the gaze state machine: fixation 0 -> moving 2 -> fixation 1 -> 0.
      Leaving fixation 0 picks a natural target and a move duration; while moving the
      eyes follow the eased path; a finished move puts them on the target. */
  function NextGaze(g: Gaze, now: real, m: MathLib, d: seq<real>): Gaze
    requires |d| >= 5 && 0.0 < g.moveDuration
  {
    var elapsed := now - g.timer;
    if g.flag == 0 then
      if elapsed > g.fixationTime then
        var t := NaturalTarget(m, d[..5]);
        g.(flag := 2, timer := now, startX := g.x, startY := g.y, targetX := t.0, targetY := t.1,
           moveDuration := MoveDuration(m, t.0 - g.x, t.1 - g.y))
      else g
    else if g.flag == 2 then
      if elapsed <= g.moveDuration then
        var progress := elapsed / g.moveDuration;
        g.(x := EasedPosition(g.startX, g.targetX, progress), y := EasedPosition(g.startY, g.targetY, progress))
      else
        g.(x := g.targetX, y := g.targetY, flag := 1, timer := now, fixationTime := RandomFloat(d[0], 1.0, 3.5))
    else if g.flag == 1 then
      if elapsed > g.fixationTime then
        g.(flag := 0, timer := now, fixationTime := RandomFloat(d[0], 0.5, 1.0))
      else g
    else g
  }

  /** A tick keeps the gaze invariant: the state stays in {0, 1, 2}, targets stay in
      [-1, 1] x [-0.5, 0.5] and moves last at least 0.1 s. */
  lemma NextGazeValid(g: Gaze, now: real, m: MathLib, d: seq<real>)
    requires GazeValid(g) && m.Valid() && |d| >= 5
    ensures GazeValid(NextGaze(g, now, m, d))
  {
    if g.flag == 0 && now - g.timer > g.fixationTime {
      var t := NaturalTarget(m, d[..5]);
      assert 0.1 <= MoveDuration(m, t.0 - g.x, t.1 - g.y);
    }
  }

  /** The states cycle 0 -> 2 -> 1 -> 0: each tick either stays or takes that one step. */
  lemma NextGazeCycle(g: Gaze, now: real, m: MathLib, d: seq<real>)
    requires GazeValid(g) && |d| >= 5
    ensures var f := NextGaze(g, now, m, d).flag;
            && (g.flag == 0 ==> f == 0 || f == 2)
            && (g.flag == 2 ==> f == 2 || f == 1)
            && (g.flag == 1 ==> f == 1 || f == 0)
  {
  }

  /** A move whose time is up lands exactly on its target and starts a fixation of
      1 to 3.5 seconds. */
  lemma MoveEndsOnTarget(g: Gaze, now: real, m: MathLib, d: seq<real>)
    requires GazeValid(g) && Draws(d, 5) && g.flag == 2 && now - g.timer > g.moveDuration
    ensures var n := NextGaze(g, now, m, d);
            n.x == g.targetX && n.y == g.targetY && n.flag == 1 && n.timer == now
            && 1.0 <= n.fixationTime <= 3.5
  {
  }

  /** During a move the eyes stay between the start point and the target. */
  lemma MoveStaysBetween(g: Gaze, now: real, m: MathLib, d: seq<real>)
    requires GazeValid(g) && |d| >= 5 && g.flag == 2 && 0.0 <= now - g.timer <= g.moveDuration
    ensures var n := NextGaze(g, now, m, d);
            && Min(g.startX, g.targetX) <= n.x <= Max(g.startX, g.targetX)
            && Min(g.startY, g.targetY) <= n.y <= Max(g.startY, g.targetY)
  {
    var elapsed := now - g.timer;
    DivMono(0.0, elapsed, g.moveDuration);
    DivMono(elapsed, g.moveDuration, g.moveDuration);
  }

  /** The box the natural targets are clamped to: [-1, 1] x [-0.5, 0.5]. */
  ghost predicate InBox(x: real, y: real)
  {
    -1.0 <= x <= 1.0 && -0.5 <= y <= 0.5
  }

  /** With a clock that does not run backwards, the eyes and the start of the current
      move stay in the target box: a move runs between two points of the box and a
      finished move lands on its target. */
  lemma GazeStaysInBox(g: Gaze, now: real, m: MathLib, d: seq<real>)
    requires GazeValid(g) && m.Valid() && |d| >= 5 && g.timer <= now
    requires InBox(g.x, g.y) && InBox(g.startX, g.startY)
    ensures var n := NextGaze(g, now, m, d);
            InBox(n.x, n.y) && InBox(n.startX, n.startY) && n.timer <= now
  {
    if g.flag == 2 && now - g.timer <= g.moveDuration {
      MoveStaysBetween(g, now, m, d);
    }
  }

  /** The fields of an eye-ball animator that change: the gaze and the micro drift. */
  datatype EyeBallState = EyeBallState(
    gaze: Gaze, microMovementTime: real, microTimer: real, driftX: real, driftY: real)

  /** The gaze invariant, and a drift within the micro amplitude 0.05. */
  ghost predicate EyeBallValid(s: EyeBallState)
  {
    && GazeValid(s.gaze)
    && -0.05 <= s.driftX <= 0.05 && -0.05 <= s.driftY <= 0.05
  }

  /** One tick of the eye-ball animator, its new state and its writes. d[0..5) feed
      the gaze state machine; every microMovementTime seconds the drift takes a random
      step on d[5..8); the writes are the new eye position plus the drift and a small
      sine/cosine tremor, rounded to thousandths. */
  function EyeBallStep(s: EyeBallState, now: real, m: MathLib, d: seq<real>): (EyeBallState, seq<ParameterUpdate>)
    requires |d| >= 8 && 0.0 < s.gaze.moveDuration
  {
    var g := NextGaze(s.gaze, now, m, d);
    var n := if now - s.microTimer > s.microMovementTime
             then EyeBallState(g, RandomFloat(d[5], 0.2, 0.6), now,
                               DriftStep(s.driftX, d[6], 0.02), DriftStep(s.driftY, d[7], 0.01))
             else s.(gaze := g);
    (n, EyeBallOut(g.x + (m.sin(now * 30.0) * 0.005 + n.driftX), g.y + (m.cos(now * 25.0) * 0.003 + n.driftY)))
  }

  /** A tick keeps the eye-ball invariant, and each written coordinate is within 0.056
      of the new gaze position. */
  lemma EyeBallStepValid(s: EyeBallState, now: real, m: MathLib, d: seq<real>)
    requires EyeBallValid(s) && m.Valid() && Draws(d, 8)
    ensures var (n, r) := EyeBallStep(s, now, m, d);
            && EyeBallValid(n)
            && |r| == 2 && r[0].name == "ParamEyeBallX" && r[1].name == "ParamEyeBallY"
            && n.gaze.x - 0.056 < r[0].value < n.gaze.x + 0.056
            && n.gaze.y - 0.054 < r[1].value < n.gaze.y + 0.054
  {
    NextGazeValid(s.gaze, now, m, d);
    var (n, r) := EyeBallStep(s, now, m, d);
    var x := n.gaze.x + (m.sin(now * 30.0) * 0.005 + n.driftX);
    var y := n.gaze.y + (m.cos(now * 25.0) * 0.003 + n.driftY);
    assert n.gaze.x - 0.055 <= x <= n.gaze.x + 0.055;
    assert n.gaze.y - 0.053 <= y <= n.gaze.y + 0.053;
  }

  /** With a clock that does not run backwards, a tick keeps the eyes in the target
      box, and the written ParamEyeBallX and ParamEyeBallY stay within 1.056 and 0.554
      of the centre: the box plus the tremor, the drift and the rounding. */
  lemma EyeBallStaysInBox(s: EyeBallState, now: real, m: MathLib, d: seq<real>)
    requires EyeBallValid(s) && m.Valid() && Draws(d, 8) && s.gaze.timer <= now
    requires InBox(s.gaze.x, s.gaze.y) && InBox(s.gaze.startX, s.gaze.startY)
    ensures var (n, r) := EyeBallStep(s, now, m, d);
            && InBox(n.gaze.x, n.gaze.y) && InBox(n.gaze.startX, n.gaze.startY) && n.gaze.timer <= now
            && |r| == 2 && -1.056 < r[0].value < 1.056 && -0.554 < r[1].value < 0.554
  {
    GazeStaysInBox(s.gaze, now, m, d);
    EyeBallStepValid(s, now, m, d);
  }

  class EyeBallAnimator {
    /** 0 fixation, 2 moving, 1 fixation after a move. */
    var flag: int
    var moveDuration: real
    var fixationTime: real
    var microMovementTime: real
    var X: real
    var Y: real
    var targetX: real
    var targetY: real
    var startX: real
    var startY: real
    var timer: real
    var microTimer: real
    const microAmplitude: real := 0.05
    var driftX: real
    var driftY: real

    ghost function State(): EyeBallState
      reads this
    {
      EyeBallState(Gaze(flag, timer, X, Y, startX, startY, targetX, targetY, moveDuration, fixationTime),
                   microMovementTime, microTimer, driftX, driftY)
    }

    ghost predicate Valid()
      reads this
    {
      EyeBallValid(State())
    }

    constructor (now: real, draws: seq<real>)
      requires Draws(draws, 2)
      ensures Valid() && flag == 0 && moveDuration == 0.15
      ensures fixationTime == RandomFloat(draws[0], 1.5, 4.0)
      ensures microMovementTime == RandomFloat(draws[1], 0.3, 0.8)
      ensures X == 0.0 && Y == 0.0 && targetX == 0.0 && targetY == 0.0 && startX == 0.0 && startY == 0.0
      ensures timer == now && microTimer == now && driftX == 0.0 && driftY == 0.0
    {
      flag := 0;
      moveDuration := 0.15;
      fixationTime := RandomFloat(draws[0], 1.5, 4.0);
      microMovementTime := RandomFloat(draws[1], 0.3, 0.8);
      X, Y := 0.0, 0.0;
      targetX, targetY := 0.0, 0.0;
      startX, startY := 0.0, 0.0;
      timer := now;
      microTimer := now;
      driftX, driftY := 0.0, 0.0;
    }

    /** addMicroMovements: every microMovementTime seconds the drift takes a clamped
        random step; the offset is the drift plus a small sine/cosine tremor. */
    method AddMicroMovements(now: real, m: MathLib, d: seq<real>) returns (mx: real, my: real)
      requires Valid() && Draws(d, 3)
      modifies this
      ensures Valid()
      ensures if now - old(microTimer) > old(microMovementTime) then
                && microMovementTime == RandomFloat(d[0], 0.2, 0.6) && microTimer == now
                && driftX == DriftStep(old(driftX), d[1], 0.02)
                && driftY == DriftStep(old(driftY), d[2], 0.01)
              else
                && microMovementTime == old(microMovementTime) && microTimer == old(microTimer)
                && driftX == old(driftX) && driftY == old(driftY)
      ensures mx == m.sin(now * 30.0) * 0.005 + driftX
      ensures my == m.cos(now * 25.0) * 0.003 + driftY
      ensures m.Valid() ==> -0.055 <= mx <= 0.055 && -0.053 <= my <= 0.053
      ensures flag == old(flag) && timer == old(timer) && moveDuration == old(moveDuration)
      ensures fixationTime == old(fixationTime) && X == old(X) && Y == old(Y)
      ensures targetX == old(targetX) && targetY == old(targetY)
      ensures startX == old(startX) && startY == old(startY)
    {
      if now - microTimer > microMovementTime {
        microMovementTime := RandomFloat(d[0], 0.2, 0.6);
        microTimer := now;
        driftX := DriftStep(driftX, d[1], 0.02);
        driftY := DriftStep(driftY, d[2], 0.01);
      }
      var tremorX := m.sin(now * 30.0) * 0.005;
      var tremorY := m.cos(now * 25.0) * 0.003;
      mx := tremorX + driftX;
      my := tremorY + driftY;
    }

    /** update: one tick of the gaze state machine, then the micro-movements, as
        EyeBallStep describes them. */
    method Update(now: real, m: MathLib, draws: seq<real>) returns (r: seq<ParameterUpdate>)
      requires Valid() && m.Valid() && Draws(draws, 8)
      modifies this
      ensures Valid()
      ensures (State(), r) == EyeBallStep(old(State()), now, m, draws)
    {
      StepGaze(now, m, draws);
      var micro := draws[5..8];
      assert Draws(micro, 3) by {
        forall k | 0 <= k < |micro| ensures 0.0 <= micro[k] < 1.0 {
          assert micro[k] == draws[5 + k];
        }
      }
      var mx, my := AddMicroMovements(now, m, micro);
      r := EyeBallOut(X + mx, Y + my);
    }

    /** The state-machine half of update. */
    method StepGaze(now: real, m: MathLib, draws: seq<real>)
      requires Valid() && m.Valid() && |draws| >= 5
      modifies this
      ensures Valid()
      ensures State().gaze == NextGaze(old(State().gaze), now, m, draws)
      ensures microMovementTime == old(microMovementTime) && microTimer == old(microTimer)
      ensures driftX == old(driftX) && driftY == old(driftY)
    {
      ghost var g := State().gaze;
      NextGazeValid(g, now, m, draws);
      var elapsed := now - timer;
      if flag == 0 {
        if elapsed > fixationTime {
          StartMove(now, m, draws);
        }
      } else if flag == 2 {
        if elapsed <= moveDuration {
          var progress := elapsed / moveDuration;
          X := EasedPosition(startX, targetX, progress);
          Y := EasedPosition(startY, targetY, progress);
        } else {
          X := targetX;
          Y := targetY;
          flag := 1;
          timer := now;
          fixationTime := RandomFloat(draws[0], 1.0, 3.5);
        }
      } else if flag == 1 {
        if elapsed > fixationTime {
          flag := 0;
          timer := now;
          fixationTime := RandomFloat(draws[0], 0.5, 1.0);
        }
      }
      assert State().gaze == NextGaze(g, now, m, draws);
    }

    /** The end of a fixation: a new target and a move towards it, starting now. */
    method StartMove(now: real, m: MathLib, draws: seq<real>)
      requires |draws| >= 5
      modifies this
      ensures var t := NaturalTarget(m, draws[..5]);
              && flag == 2 && timer == now && startX == old(X) && startY == old(Y)
              && (targetX, targetY) == t
              && moveDuration == MoveDuration(m, t.0 - old(X), t.1 - old(Y))
      ensures fixationTime == old(fixationTime) && X == old(X) && Y == old(Y)
      ensures microMovementTime == old(microMovementTime) && microTimer == old(microTimer)
      ensures driftX == old(driftX) && driftY == old(driftY)
    {
      flag := 2;
      timer := now;
      startX := X;
      startY := Y;
      GenerateNaturalTarget(m, draws[..5]);
      moveDuration := MoveDuration(m, targetX - startX, targetY - startY);
    }

    /** generateNaturalTarget: sets the target, nothing else. */
    method GenerateNaturalTarget(m: MathLib, d: seq<real>)
      requires |d| >= 5
      modifies this
      ensures (targetX, targetY) == NaturalTarget(m, d)
      ensures flag == old(flag) && timer == old(timer) && moveDuration == old(moveDuration)
      ensures fixationTime == old(fixationTime) && X == old(X) && Y == old(Y)
      ensures startX == old(startX) && startY == old(startY)
      ensures microMovementTime == old(microMovementTime) && microTimer == old(microTimer)
      ensures driftX == old(driftX) && driftY == old(driftY)
    {
      var t := NaturalTarget(m, d);
      targetX := t.0;
      targetY := t.1;
    }
  }

  // ---------------------------------------------------------------------
  // AngleAnimator
  // ---------------------------------------------------------------------

  /** The easing functions a head turn may use. */
  datatype Easing = CubicEasing | QuartEasing | SineEasing

  /** The chosen easing applied to t. Each maps [0, 1] into [0, 1], 0 to 0 and 1 to 1. */
  function Ease(e: Easing, m: MathLib, t: real): (r: real)
    ensures m.Valid() && 0.0 <= t <= 1.0 ==> 0.0 <= r <= 1.0
    ensures m.Valid() && t == 0.0 ==> r == 0.0
    ensures m.Valid() && t == 1.0 ==> r == 1.0
  {
    match e
    case CubicEasing => Cubic(t)
    case QuartEasing => Quart(t)
    case SineEasing => Sine(m, t)
  }

  /** easingFunctions[Math.floor(r * 3)]: each easing takes a third of the draws. */
  function EasingAt(r: real): (e: Easing)
    requires 0.0 <= r < 1.0
    ensures r < 1.0 / 3.0 ==> e == CubicEasing
    ensures 1.0 / 3.0 <= r < 2.0 / 3.0 ==> e == QuartEasing
    ensures 2.0 / 3.0 <= r ==> e == SineEasing
  {
    var i := (r * 3.0).Floor;
    if i == 0 then CubicEasing else if i == 1 then QuartEasing else SineEasing
  }

  /** The noise-driven offset of the head: pnoise1(now * 0.5 + offset), scaled by the
      micro-movement scale 0.02 and then by 30, so at most 4.8 degrees either way. */
  function Wobble(table: seq<int>, now: real, offset: real): (r: real)
    requires |table| == 512
    ensures -4.8 <= r <= 4.8
  {
    NoiseAt(table, now * 0.5 + offset) * 0.02 * 30.0
  }

  /** A new head angle: 70% of the eye position plus 30% of a random spread, times 20. */
  function HeadTarget(eye: real, r: real, spread: real): (a: real)
    ensures 0.0 <= r < 1.0 && 0.0 <= spread ==>
              (eye * 0.7 - spread * 0.3) * 20.0 <= a <= (eye * 0.7 + spread * 0.3) * 20.0
  {
    (eye * 0.7 + RandomFloat(r, -spread, spread) * 0.3) * 20.0
  }

  function AngleOut(x: real, y: real): seq<ParameterUpdate>
  {
    [Set("ParamAngleX", Round2(x)), Set("ParamAngleY", Round2(y))]
  }

  /** The fields of a head animator, the noise offsets included. */
  datatype AngleState = AngleState(
    flag: int, interval: real, wait: real, X: real, Y: real, preX: real, preY: real, timer: real,
    currentEasing: Easing, noiseOffsetX: real, noiseOffsetY: real)

  /** The state is 0 resting or 1 turning, with a turn of 1.2 to 3 seconds and a rest of
      2 to 8 seconds. */
  ghost predicate AngleValid(s: AngleState)
  {
    && (s.flag == 0 || s.flag == 1)
    && 1.2 <= s.interval <= 3.0
    && 2.0 <= s.wait <= 8.0
  }

  /** Whether the tick at `now` reads the noise table: a turn in progress and a rest that
      is not over write the wobble, the two transitions do not. */
  predicate UsesNoise(s: AngleState, now: real)
    requires s.interval > 0.0
  {
    || (s.flag == 1 && (now - s.timer) / s.interval < 1.0)
    || (s.flag == 0 && now - s.timer <= s.wait)
  }

  /** One tick of the head state machine, its new state and its writes; `eye` is the
      eye-ball animator's position and `table` the noise table. A turn (1) that is over
      rests with a new wait and a small random nudge and writes nothing; a turn in
      progress writes the eased angles plus the wobble. A rest (0) that is over starts a
      turn toward a target that follows the eyes and writes nothing; otherwise the
      resting angles plus the wobble are written. */
  function AngleStep(s: AngleState, now: real, m: MathLib, d: seq<real>, eye: (real, real), table: seq<int>)
    : (AngleState, seq<ParameterUpdate>)
    requires s.interval > 0.0 && Draws(d, 4) && |table| == 512
  {
    if s.flag == 1 then
      var t := (now - s.timer) / s.interval;
      if t >= 1.0 then
        (s.(flag := 0, timer := now, wait := RandomFloat(d[0], 2.0, 6.0),
            X := s.X + RandomFloat(d[1], -0.1, 0.1), Y := s.Y + RandomFloat(d[2], -0.1, 0.1)), [])
      else
        var eased := Ease(s.currentEasing, m, t);
        (s, AngleOut(LinearScale1(eased, 0.0, 1.0, s.preX, s.X) + Wobble(table, now, s.noiseOffsetX),
                     LinearScale1(eased, 0.0, 1.0, s.preY, s.Y) + Wobble(table, now, s.noiseOffsetY)))
    else if s.flag == 0 then
      if now - s.timer > s.wait then
        (s.(flag := 1, timer := now, interval := RandomFloat(d[0], 1.2, 2.8), currentEasing := EasingAt(d[1]),
            preX := s.X, preY := s.Y, X := HeadTarget(eye.0, d[2], 0.3), Y := HeadTarget(eye.1, d[3], 0.2)), [])
      else
        (s, AngleOut(s.X + Wobble(table, now, s.noiseOffsetX), s.Y + Wobble(table, now, s.noiseOffsetY)))
    else (s, [])
  }

  /** A tick keeps the head invariant and alternates rest and turn; a tick that starts
      a turn aims at 70% of the eyes' position, give or take the random spread, and
      a tick that does not read the noise table writes nothing. */
  lemma AngleStepValid(s: AngleState, now: real, m: MathLib, d: seq<real>, eye: (real, real), table: seq<int>)
    requires AngleValid(s) && Draws(d, 4) && |table| == 512
    ensures var (n, r) := AngleStep(s, now, m, d, eye, table);
            && AngleValid(n)
            && (n.flag != s.flag ==> r == [] && n.timer == now)
            && (s.flag == 0 && n.flag == 1 ==>
                  && (eye.0 * 0.7 - 0.09) * 20.0 <= n.X <= (eye.0 * 0.7 + 0.09) * 20.0
                  && (eye.1 * 0.7 - 0.06) * 20.0 <= n.Y <= (eye.1 * 0.7 + 0.06) * 20.0)
            && (!UsesNoise(s, now) ==> r == [])
  {
    if s.flag == 0 && now - s.timer > s.wait {
      assert (eye.0 * 0.7 - 0.3 * 0.3) * 20.0 <= HeadTarget(eye.0, d[2], 0.3);
    }
  }

  /** The noise table matters only to ticks that read it. */
  lemma AngleStepIgnoresTable(s: AngleState, now: real, m: MathLib, d: seq<real>, eye: (real, real),
                              t1: seq<int>, t2: seq<int>)
    requires s.interval > 0.0 && Draws(d, 4) && |t1| == 512 && |t2| == 512 && !UsesNoise(s, now)
    ensures AngleStep(s, now, m, d, eye, t1) == AngleStep(s, now, m, d, eye, t2)
  {
  }

  class AngleAnimator {
    /** 0 resting, 1 turning. */
    var flag: int
    var interval: real
    var wait: real
    var X: real
    var Y: real
    var preX: real
    var preY: real
    var timer: real
    const eyeBallAnimator: EyeBallAnimator
    const noiseOffsetX: real
    const noiseOffsetY: real
    const microMovementScale: real := 0.02
    var currentEasing: Easing

    ghost function State(): AngleState
      reads this
    {
      AngleState(flag, interval, wait, X, Y, preX, preY, timer, currentEasing, noiseOffsetX, noiseOffsetY)
    }

    ghost predicate Valid()
      reads this
    {
      AngleValid(State())
    }

    constructor (eyeBall: EyeBallAnimator, now: real, draws: seq<real>)
      requires Draws(draws, 5)
      ensures Valid() && flag == 0 && eyeBallAnimator == eyeBall && timer == now
      ensures interval == RandomFloat(draws[0], 1.5, 3.0) && wait == RandomFloat(draws[1], 3.0, 8.0)
      ensures noiseOffsetX == RandomFloat(draws[2], 0.0, 1000.0)
      ensures noiseOffsetY == RandomFloat(draws[3], 0.0, 1000.0)
      ensures currentEasing == EasingAt(draws[4])
      ensures X == 0.0 && Y == 0.0 && preX == 0.0 && preY == 0.0
    {
      flag := 0;
      interval := RandomFloat(draws[0], 1.5, 3.0);
      wait := RandomFloat(draws[1], 3.0, 8.0);
      X, Y, preX, preY := 0.0, 0.0, 0.0, 0.0;
      timer := now;
      eyeBallAnimator := eyeBall;
      noiseOffsetX := RandomFloat(draws[2], 0.0, 1000.0);
      noiseOffsetY := RandomFloat(draws[3], 0.0, 1000.0);
      currentEasing := EasingAt(draws[4]);
    }

    /** addMicroMovement: the base angles plus the noise wobble on each axis. The noise
        table is built on first use. */
    method AddMicroMovement(now: real, baseX: real, baseY: real, noise: SimpleNoise, noiseDraws: seq<real>)
      returns (finalX: real, finalY: real)
      requires noise.Valid() && Draws(noiseDraws, 255)
      modifies noise, noise.permutation
      ensures noise.Valid() && noise.initialized
      ensures old(noise.initialized) ==> noise.permutation[..] == old(noise.permutation[..])
      ensures finalX == baseX + Wobble(noise.permutation[..], now, noiseOffsetX)
      ensures finalY == baseY + Wobble(noise.permutation[..], now, noiseOffsetY)
    {
      var noiseX := noise.Noise1d(now * 0.5 + noiseOffsetX, noiseDraws);
      noiseX := noiseX * microMovementScale;
      var noiseY := noise.Noise1d(now * 0.5 + noiseOffsetY, noiseDraws);
      noiseY := noiseY * microMovementScale;
      finalX := baseX + noiseX * 30.0;
      finalY := baseY + noiseY * 30.0;
    }

    /** update: one tick of the head state machine, as AngleStep describes it, with the
        eye-ball animator's position before the tick. The noise table is built on the
        first tick that reads it and never changes after that. */
    method Update(now: real, m: MathLib, draws: seq<real>, noise: SimpleNoise, noiseDraws: seq<real>)
      returns (r: seq<ParameterUpdate>)
      requires Valid() && Draws(draws, 4) && noise.Valid() && Draws(noiseDraws, 255)
      modifies this, noise, noise.permutation
      ensures Valid() && noise.Valid()
      ensures old(noise.initialized) ==> noise.initialized && noise.permutation[..] == old(noise.permutation[..])
      ensures UsesNoise(old(State()), now) ==> noise.initialized
      ensures (State(), r)
              == AngleStep(old(State()), now, m, draws, old((eyeBallAnimator.X, eyeBallAnimator.Y)), noise.permutation[..])
    {
      if flag == 1 {
        r := Turn(now, m, draws, noise, noiseDraws);
      } else if flag == 0 {
        r := Rest(now, m, draws, noise, noiseDraws);
      } else {
        r := [];
      }
    }

    /** The turning half of update: the turn ends once its interval has passed, and
        otherwise the eased angle plus the wobble is written. */
    method Turn(now: real, m: MathLib, draws: seq<real>, noise: SimpleNoise, noiseDraws: seq<real>)
      returns (r: seq<ParameterUpdate>)
      requires Valid() && flag == 1 && Draws(draws, 4) && noise.Valid() && Draws(noiseDraws, 255)
      modifies this, noise, noise.permutation
      ensures Valid() && noise.Valid()
      ensures old(noise.initialized) ==> noise.initialized && noise.permutation[..] == old(noise.permutation[..])
      ensures UsesNoise(old(State()), now) ==> noise.initialized
      ensures (State(), r)
              == AngleStep(old(State()), now, m, draws, old((eyeBallAnimator.X, eyeBallAnimator.Y)), noise.permutation[..])
    {
      r := [];
      var t := (now - timer) / interval;
      if t >= 1.0 {
        flag := 0;
        timer := now;
        wait := RandomFloat(draws[0], 2.0, 6.0);
        X := X + RandomFloat(draws[1], -0.1, 0.1);
        Y := Y + RandomFloat(draws[2], -0.1, 0.1);
      } else {
        var easedT := Ease(currentEasing, m, t);
        var baseX := LinearScale1(easedT, 0.0, 1.0, preX, X);
        var baseY := LinearScale1(easedT, 0.0, 1.0, preY, Y);
        var finalX, finalY := AddMicroMovement(now, baseX, baseY, noise, noiseDraws);
        r := AngleOut(finalX, finalY);
      }
    }

    /** The resting half of update: once the wait is over a turn towards the eyes
        starts, and otherwise the resting angle plus the wobble is written. */
    method Rest(now: real, m: MathLib, draws: seq<real>, noise: SimpleNoise, noiseDraws: seq<real>)
      returns (r: seq<ParameterUpdate>)
      requires Valid() && flag == 0 && Draws(draws, 4) && noise.Valid() && Draws(noiseDraws, 255)
      modifies this, noise, noise.permutation
      ensures Valid() && noise.Valid()
      ensures old(noise.initialized) ==> noise.initialized && noise.permutation[..] == old(noise.permutation[..])
      ensures UsesNoise(old(State()), now) ==> noise.initialized
      ensures (State(), r)
              == AngleStep(old(State()), now, m, draws, old((eyeBallAnimator.X, eyeBallAnimator.Y)), noise.permutation[..])
    {
      r := [];
      if now - timer > wait {
        flag := 1;
        timer := now;
        interval := RandomFloat(draws[0], 1.2, 2.8);
        currentEasing := EasingAt(draws[1]);
        preX := X;
        preY := Y;
        var targetX := HeadTarget(eyeBallAnimator.X, draws[2], 0.3);
        var targetY := HeadTarget(eyeBallAnimator.Y, draws[3], 0.2);
        X := targetX;
        Y := targetY;
      } else {
        var finalX, finalY := AddMicroMovement(now, X, Y, noise, noiseDraws);
        r := AngleOut(finalX, finalY);
      }
    }
  }

  /** During a turn the head angle, before the wobble, stays between the angle the
      turn started from and its target. */
  lemma TurnStaysBetween(e: Easing, m: MathLib, t: real, pre: real, target: real)
    requires m.Valid() && 0.0 <= t <= 1.0
    ensures var a := LinearScale1(Ease(e, m, t), 0.0, 1.0, pre, target);
            Min(pre, target) <= a <= Max(pre, target)
  {
    LinearScale1Between(Ease(e, m, t), 0.0, 1.0, pre, target);
  }

  // ---------------------------------------------------------------------
  // BodyAngleAnimator
  // ---------------------------------------------------------------------

  /** Math.round(clamp(v, -30, 30) * 100) / 100: a body angle within +-30 degrees. */
  function BodyClamp(v: real): (r: real)
    ensures -30.0 <= r <= 30.0
    ensures -30.0 <= v <= 30.0 ==> v - 0.005 < r <= v + 0.005
  {
    var c := Clamp(v, -30.0, 30.0);
    Round2Between(c, -3000, 3000);
    Round2(c)
  }

  /** One smoothing step: 2% of the way from the current angle to the target. */
  function Follow(current: real, target: real): (r: real)
    ensures r - target == 0.98 * (current - target)
    ensures Min(current, target) <= r <= Max(current, target)
  {
    current + (target - current) * 0.02
  }

  /** The amplitude, in degrees, and the period, in seconds, of the breathing sway. */
  const BodyZAmplitude: real := 2.0
  const BodyZPeriod: real := 4.0

  /** The fields of a body animator, the constants drawn at construction included. */
  datatype BodyState = BodyState(
    xCurrentAngle: real, xTargetAngle: real, zStartTime: real, xFollowStrength: real,
    xBaseAmplitude: real, xBaseFrequency: real, xBaseOffset: real)

  /** The X angle the body heads for: the head's X angle times the follow strength,
      plus a base sway of the given amplitude, frequency and phase. */
  function SwayTarget(headX: real, strength: real, amplitude: real, frequency: real, offset: real,
                      now: real, m: MathLib): real
  {
    headX * strength + amplitude * m.sin(now * frequency + offset)
  }

  /** The breathing Z angle: a sine of the breathing amplitude and period, started at
      `start`. */
  function Breath(start: real, now: real, m: MathLib): (z: real)
    ensures m.Valid() ==> -BodyZAmplitude <= z <= BodyZAmplitude
  {
    BodyZAmplitude * m.sin((now - start) / BodyZPeriod * 2.0 * PI)
  }

  /** One tick of the body animator, its new state and its writes; `headX` is the head
      animator's X angle. The Z angle is a slow breathing sine; the X target follows the
      head plus a base sway, and the current X angle moves 2% of the way toward it. Both
      written angles are clamped to [-30, 30] and rounded to hundredths. */
  function BodyStep(s: BodyState, now: real, m: MathLib, headX: real): (BodyState, seq<ParameterUpdate>)
  {
    var target := SwayTarget(headX, s.xFollowStrength, s.xBaseAmplitude, s.xBaseFrequency, s.xBaseOffset, now, m);
    var current := Follow(s.xCurrentAngle, target);
    (s.(xCurrentAngle := current, xTargetAngle := target),
     [Set("ParamBodyAngleX", BodyClamp(current)), Set("ParamBodyAngleZ", BodyClamp(Breath(s.zStartTime, now, m)))])
  }

  /** A tick closes 2% of the gap between the body's X angle and its target, keeps the
      angle between where it was and the target, and writes both angles within
      [-30, 30]; with a valid MathLib the Z angle stays within the breathing amplitude
      of 2 degrees. */
  lemma BodyStepFollows(s: BodyState, now: real, m: MathLib, headX: real)
    ensures var (n, r) := BodyStep(s, now, m, headX);
            && n.xCurrentAngle - n.xTargetAngle == 0.98 * (s.xCurrentAngle - n.xTargetAngle)
            && Min(s.xCurrentAngle, n.xTargetAngle) <= n.xCurrentAngle <= Max(s.xCurrentAngle, n.xTargetAngle)
            && |r| == 2 && r[0].name == "ParamBodyAngleX" && r[1].name == "ParamBodyAngleZ"
            && -30.0 <= r[0].value <= 30.0 && -30.0 <= r[1].value <= 30.0
            && (m.Valid() ==> -2.005 < r[1].value < 2.005)
  {
  }

  class BodyAngleAnimator {
    const angleAnimator: AngleAnimator
    const zStartTime: real
    const xFollowStrength: real
    const xSmoothingFactor: real := 0.02
    var xCurrentAngle: real
    var xTargetAngle: real
    const xBaseAmplitude: real
    const xBaseFrequency: real
    const xBaseOffset: real

    ghost function State(): BodyState
      reads this
    {
      BodyState(xCurrentAngle, xTargetAngle, zStartTime, xFollowStrength, xBaseAmplitude, xBaseFrequency, xBaseOffset)
    }

    constructor (angle: AngleAnimator, now: real, draws: seq<real>)
      requires Draws(draws, 4)
      ensures angleAnimator == angle && zStartTime == now
      ensures xFollowStrength == RandomFloat(draws[0], 0.3, 0.7)
      ensures xBaseAmplitude == RandomFloat(draws[1], 2.0, 5.0)
      ensures xBaseFrequency == RandomFloat(draws[2], 0.1, 0.3)
      ensures xBaseOffset == RandomFloat(draws[3], 0.0, 2.0 * PI)
      ensures xCurrentAngle == 0.0 && xTargetAngle == 0.0
    {
      angleAnimator := angle;
      zStartTime := now;
      xFollowStrength := RandomFloat(draws[0], 0.3, 0.7);
      xBaseAmplitude := RandomFloat(draws[1], 2.0, 5.0);
      xBaseFrequency := RandomFloat(draws[2], 0.1, 0.3);
      xBaseOffset := RandomFloat(draws[3], 0.0, 2.0 * PI);
      xCurrentAngle := 0.0;
      xTargetAngle := 0.0;
    }

    /** update: one tick, as BodyStep describes it, with the head animator's X angle
        before the tick. */
    method Update(now: real, m: MathLib) returns (r: seq<ParameterUpdate>)
      modifies this
      ensures (State(), r) == BodyStep(old(State()), now, m, old(angleAnimator.X))
    {
      var zAngle := Breath(zStartTime, now, m);
      zAngle := BodyClamp(zAngle);
      var headXAngle := angleAnimator.X;
      xTargetAngle := SwayTarget(headXAngle, xFollowStrength, xBaseAmplitude, xBaseFrequency, xBaseOffset, now, m);
      xCurrentAngle := xCurrentAngle + (xTargetAngle - xCurrentAngle) * xSmoothingFactor;
      var xAngle := BodyClamp(xCurrentAngle);
      r := [Set("ParamBodyAngleX", xAngle), Set("ParamBodyAngleZ", zAngle)];
    }
  }

  // ---------------------------------------------------------------------
  // ExpressionAnimator and updateExpression
  // ---------------------------------------------------------------------

  /** The six expression parameters. */
  datatype Face = Face(
    eyeSmile: real, mouthForm: real, browLForm: real, browRForm: real,
    browLAngle: real, browRAngle: real)

  const FaceNames: seq<string> :=
    ["ParamEyeSmile", "ParamMouthForm", "ParamBrowLForm", "ParamBrowRForm",
     "ParamBrowLAngle", "ParamBrowRAngle"]

  function FaceValues(f: Face): (v: seq<real>)
    ensures |v| == 6
  {
    [f.eyeSmile, f.mouthForm, f.browLForm, f.browRForm, f.browLAngle, f.browRAngle]
  }

  /** Eye smile and brow angles in [0, 1]; mouth and brow forms in [-1, 1]. */
  ghost predicate InFaceRange(f: Face)
  {
    && 0.0 <= f.eyeSmile <= 1.0 && -1.0 <= f.mouthForm <= 1.0
    && -1.0 <= f.browLForm <= 1.0 && -1.0 <= f.browRForm <= 1.0
    && 0.0 <= f.browLAngle <= 1.0 && 0.0 <= f.browRAngle <= 1.0
  }

  /** The lower end of each parameter's range, in hundredths. */
  const FaceLow: seq<int> := [0, -100, -100, -100, 0, 0]

  /** The face a happiness level on the 0..10 scale asks for: a sad face at 0, a fully
      happy one at 10, and a face in range for every level between. */
  function FaceFor(happy: real): (f: Face)
    ensures 0.0 <= happy <= 10.0 ==> InFaceRange(f)
    ensures happy == 0.0 ==> f == Face(0.0, -1.0, -1.0, -1.0, 0.0, 0.0)
    ensures happy == 10.0 ==> f == Face(1.0, 1.0, 1.0, 1.0, 1.0, 1.0)
  {
    FaceForRange(happy);
    Face(LinearScale1(happy, 0.0, 10.0, 0.0, 1.0),
         LinearScale1(happy, 0.0, 10.0, -1.0, 1.0),
         LinearScale1(happy, 0.0, 10.0, -1.0, 1.0),
         LinearScale1(happy, 0.0, 10.0, -1.0, 1.0),
         LinearScale1(happy, 0.0, 10.0, 0.0, 1.0),
         LinearScale1(happy, 0.0, 10.0, 0.0, 1.0))
  }

  lemma FaceForRange(happy: real)
    ensures 0.0 <= happy <= 10.0 ==>
              && 0.0 <= LinearScale1(happy, 0.0, 10.0, 0.0, 1.0) <= 1.0
              && -1.0 <= LinearScale1(happy, 0.0, 10.0, -1.0, 1.0) <= 1.0
  {
    if 0.0 <= happy <= 10.0 {
      LinearScale1Between(happy, 0.0, 10.0, 0.0, 1.0);
      LinearScale1Between(happy, 0.0, 10.0, -1.0, 1.0);
    }
  }

  /** The six writes of a transition frame: each parameter at eased fraction e of the
      way from the previous face to the target, rounded to hundredths. */
  function Frame(previous: Face, target: Face, e: real): (r: seq<ParameterUpdate>)
    ensures |r| == 6
    ensures forall k :: 0 <= k < 6 ==> r[k].name == FaceNames[k] && r[k].weight == 1.0
    ensures e == 0.0 ==> forall k :: 0 <= k < 6 ==> r[k].value == Round2(FaceValues(previous)[k])
    ensures e == 1.0 ==> forall k :: 0 <= k < 6 ==> r[k].value == Round2(FaceValues(target)[k])
  {
    var a := FaceValues(previous);
    var b := FaceValues(target);
    seq(6, k requires 0 <= k < 6 => Set(FaceNames[k], Round2(LinearScale1(e, 0.0, 1.0, a[k], b[k]))))
  }

  /** Between two faces in range, every frame of the transition is in range too. */
  lemma FrameInRange(previous: Face, target: Face, e: real)
    requires InFaceRange(previous) && InFaceRange(target) && 0.0 <= e <= 1.0
    ensures var r := Frame(previous, target, e);
            forall k :: 0 <= k < 6 ==> FaceLow[k] as real / 100.0 <= r[k].value <= 1.0
  {
    var a := FaceValues(previous);
    var b := FaceValues(target);
    forall k | 0 <= k < 6
      ensures FaceLow[k] as real / 100.0 <= Round2(LinearScale1(e, 0.0, 1.0, a[k], b[k])) <= 1.0
    {
      LinearScale1Between(e, 0.0, 1.0, a[k], b[k]);
      Round2Between(LinearScale1(e, 0.0, 1.0, a[k], b[k]), FaceLow[k], 100);
    }
  }

  class ExpressionAnimator {
    /** The face the transition starts from (the _Param* fields). */
    var previous: Face
    /** The face the transition ends at (the Param* fields). */
    var target: Face
    const interval: real := ExpressionInterval
    var flag: bool
    var timer: real

    ghost function State(): ExpressionState
      reads this
    {
      ExpressionState(previous, target, flag, timer)
    }

    constructor ()
      ensures previous == Face(0.0, 0.0, 0.0, 0.0, 0.0, 0.0) && target == previous
      ensures !flag && timer == 0.0
    {
      previous := Face(0.0, 0.0, 0.0, 0.0, 0.0, 0.0);
      target := Face(0.0, 0.0, 0.0, 0.0, 0.0, 0.0);
      flag := false;
      timer := 0.0;
    }

    /** update: one tick, as ExpressionStep describes it. */
    method Update(now: real, m: MathLib) returns (r: seq<ParameterUpdate>)
      modifies this
      ensures (State(), r) == ExpressionStep(old(State()), now, m)
    {
      r := [];
      if flag {
        var t := (now - timer) / interval;
        if t > 1.0 {
          flag := false;
        } else {
          var easedT := Sine(m, t);
          r := Frame(previous, target, easedT);
        }
      }
    }

    /** start: the current target becomes the starting face, the face for the
        happiness level becomes the target, and the transition starts now. */
    method Start(happy: real, now: real)
      modifies this
      ensures State() == Started(old(State()), happy, now)
    {
      previous := target;
      target := FaceFor(happy);
      timer := now;
      flag := true;
    }
  }

  /** The first position at or after `from` holding c, or |s| when there is none. */
  function IndexFrom(s: string, c: char, from: nat): (i: nat)
    requires from <= |s|
    ensures from <= i <= |s|
    ensures i < |s| ==> s[i] == c
    decreases |s| - from
  {
    if from == |s| || s[from] == c then from else IndexFrom(s, c, from + 1)
  }

  /** No position before the one IndexFrom finds holds c. */
  lemma {:induction false} IndexFromFirst(s: string, c: char, from: nat)
    requires from <= |s|
    ensures forall k :: from <= k < IndexFrom(s, c, from) ==> s[k] != c
    decreases |s| - from
  {
    if from < |s| && s[from] != c {
      IndexFromFirst(s, c, from + 1);
    }
  }

  /** A '{', then anything but '}', then '}'. */
  ghost predicate IsFragment(f: string)
  {
    2 <= |f| && f[0] == '{' && f[|f| - 1] == '}' && forall k :: 0 <= k < |f| - 1 ==> f[k] != '}'
  }

  /** The matches of /\{[^}]*\}/g, left to right: from each '{' to the first '}' after
      it. Once some '{' has no '}' after it there are no more matches. */
  function Fragments(s: string): (r: seq<string>)
    ensures forall f :: f in r ==> IsFragment(f)
    ensures (forall k :: 0 <= k < |s| ==> s[k] != '{') ==> r == []
  {
    FragmentsFrom(s, 0)
  }

  /** The matches found by a global search resuming at position from. */
  function FragmentsFrom(s: string, from: nat): (r: seq<string>)
    requires from <= |s|
    ensures forall f :: f in r ==> IsFragment(f)
    ensures (forall k :: from <= k < |s| ==> s[k] != '{') ==> r == []
    decreases |s| - from
  {
    var open := IndexFrom(s, '{', from);
    if open == |s| then []
    else
      var close := IndexFrom(s, '}', open + 1);
      if close == |s| then []
      else
        var f := s[open..close + 1];
        IndexFromFirst(s, '}', open + 1);
        assert forall k :: 0 <= k < |f| - 1 ==> f[k] == s[open + k];
        [f] + FragmentsFrom(s, close + 1)
  }

  /** The positions [start, end) of the matches found from position from, by the same
      scan; they lie after from and inside the text. */
  function MatchSpans(s: string, from: nat): (r: seq<(nat, nat)>)
    requires from <= |s|
    ensures forall k :: 0 <= k < |r| ==> from <= r[k].0 < r[k].1 <= |s|
    decreases |s| - from
  {
    var open := IndexFrom(s, '{', from);
    if open == |s| then []
    else
      var close := IndexFrom(s, '}', open + 1);
      if close == |s| then []
      else [(open, close + 1)] + MatchSpans(s, close + 1)
  }

  /** The matches are the text at their spans. */
  lemma {:induction false} FragmentsAtSpans(s: string, from: nat)
    requires from <= |s|
    ensures var r, sp := FragmentsFrom(s, from), MatchSpans(s, from);
            && |r| == |sp|
            && forall k :: 0 <= k < |r| ==> r[k] == s[sp[k].0..sp[k].1]
    decreases |s| - from
  {
    var open := IndexFrom(s, '{', from);
    if open < |s| {
      var close := IndexFrom(s, '}', open + 1);
      if close < |s| {
        FragmentsAtSpans(s, close + 1);
      }
    }
  }

  /** Spans that increase without overlapping. */
  ghost predicate InOrder(spans: seq<(nat, nat)>)
  {
    forall i, j :: 0 <= i < j < |spans| ==> spans[i].1 <= spans[j].0
  }

  /** No '{' from position from up to the first span, nor between two spans. */
  ghost predicate NoOpenSkipped(s: string, from: nat, spans: seq<(nat, nat)>)
  {
    && (|spans| > 0 ==> NoOpenIn(s, from, spans[0].0))
    && (forall i :: 0 <= i < |spans| - 1 ==> NoOpenIn(s, spans[i].1, spans[i + 1].0))
  }

  /** No '{' at a position from lo up to hi. */
  ghost predicate NoOpenIn(s: string, lo: nat, hi: nat)
  {
    forall x :: lo <= x < hi && x < |s| ==> s[x] != '{'
  }

  lemma ConsInOrder(open: nat, close: nat, rest: seq<(nat, nat)>)
    requires open < close
    requires forall k :: 0 <= k < |rest| ==> close <= rest[k].0
    requires InOrder(rest)
    ensures InOrder([(open, close)] + rest)
  {
  }

  lemma ConsNoOpenSkipped(s: string, from: nat, open: nat, close: nat, rest: seq<(nat, nat)>)
    requires from <= open < close
    requires forall x :: from <= x < open && x < |s| ==> s[x] != '{'
    requires forall k :: 0 <= k < |rest| ==> close <= rest[k].0
    requires NoOpenSkipped(s, close, rest)
    ensures NoOpenSkipped(s, from, [(open, close)] + rest)
  {
    var r := [(open, close)] + rest;
    forall i | 0 <= i < |r| - 1 ensures NoOpenIn(s, r[i].1, r[i + 1].0) {
      if i > 0 {
        assert r[i] == rest[i - 1] && r[i + 1] == rest[i];
      }
    }
  }

  /** The spans increase without overlapping. */
  lemma {:induction false} SpansInOrder(s: string, from: nat)
    requires from <= |s|
    ensures InOrder(MatchSpans(s, from))
    decreases |s| - from
  {
    var open := IndexFrom(s, '{', from);
    if open < |s| {
      var close := IndexFrom(s, '}', open + 1);
      if close < |s| {
        assert MatchSpans(s, from) == [(open, close + 1)] + MatchSpans(s, close + 1);
        SpansInOrder(s, close + 1);
        ConsInOrder(open, close + 1, MatchSpans(s, close + 1));
      } else {
        assert MatchSpans(s, from) == [];
      }
    } else {
      assert MatchSpans(s, from) == [];
    }
  }

  /** No '{' lies before the first span or between two of them: the search skips no
      match. */
  lemma {:induction false} SpansSkipNothing(s: string, from: nat)
    requires from <= |s|
    ensures NoOpenSkipped(s, from, MatchSpans(s, from))
    decreases |s| - from
  {
    var open := IndexFrom(s, '{', from);
    if open < |s| {
      var close := IndexFrom(s, '}', open + 1);
      if close < |s| {
        var rest := MatchSpans(s, close + 1);
        assert MatchSpans(s, from) == [(open, close + 1)] + rest;
        SpansSkipNothing(s, close + 1);
        IndexFromFirst(s, '{', from);
        ConsNoOpenSkipped(s, from, open, close + 1, rest);
      } else {
        assert MatchSpans(s, from) == [];
      }
    } else {
      assert MatchSpans(s, from) == [];
    }
  }

  /** A '{' with a '}' somewhere after it, at or after from, gives at least one match. */
  lemma FragmentsFound(s: string, from: nat, i: nat, j: nat)
    requires from <= i < j < |s| && s[i] == '{' && s[j] == '}'
    ensures FragmentsFrom(s, from) != []
  {
    var open := IndexFrom(s, '{', from);
    IndexFromFirst(s, '{', from);
    var close := IndexFrom(s, '}', open + 1);
    IndexFromFirst(s, '}', open + 1);
  }

  /** What JSON.parse makes of a fragment: an error, or an object with or without a
      numeric `happy` member. */
  datatype ParseResult = Malformed | Parsed(happy: Option<real>)

  /** The happiness levels the fragments carry, in order; malformed fragments and
      fragments without `happy` contribute nothing. */
  function HappyLevels(fragments: seq<string>, parse: string -> ParseResult): (r: seq<real>)
    ensures |r| <= |fragments|
    ensures |fragments| == 1 ==>
              var p := parse(fragments[0]);
              r == (if p.Parsed? && p.happy.Some? then [p.happy.value] else [])
    ensures (forall k :: 0 <= k < |fragments| ==> parse(fragments[k]).Parsed? && parse(fragments[k]).happy.Some?)
              ==> |r| == |fragments|
  {
    if fragments == [] then []
    else
      var p := parse(fragments[0]);
      (if p.Parsed? && p.happy.Some? then [p.happy.value] else []) + HappyLevels(fragments[1..], parse)
  }

  lemma {:induction false} HappyLevelsAppend(a: seq<string>, b: seq<string>, parse: string -> ParseResult)
    ensures HappyLevels(a + b, parse) == HappyLevels(a, parse) + HappyLevels(b, parse)
  {
    if a == [] {
      assert a + b == b;
    } else {
      var u := a + b;
      var p := parse(a[0]);
      var head := if p.Parsed? && p.happy.Some? then [p.happy.value] else [];
      assert u[0] == a[0] && u[1..] == a[1..] + b;
      HappyLevelsAppend(a[1..], b, parse);
      assert HappyLevels(u, parse) == head + HappyLevels(a[1..] + b, parse);
      assert HappyLevels(a, parse) == head + HappyLevels(a[1..], parse);
    }
  }

  /** The state of an expression animator that start changes. */
  datatype ExpressionState = ExpressionState(previous: Face, target: Face, flag: bool, timer: real)

  /** The length of a transition, in seconds. */
  const ExpressionInterval: real := 1.0

  /** One tick of the expression animator, its new state and its writes: while a
      transition runs, the frame at the sine-eased time; once the transition is over it
      stops and writes nothing, as when idle. */
  function ExpressionStep(s: ExpressionState, now: real, m: MathLib): (ExpressionState, seq<ParameterUpdate>)
  {
    var t := (now - s.timer) / ExpressionInterval;
    if s.flag && t <= 1.0 then (s, Frame(s.previous, s.target, Sine(m, t)))
    else (s.(flag := false), [])
  }

  /** A transition started at time `now` for a happiness level writes, on a tick at
      that same instant, the old target face (rounded), and on a tick one transition
      later, the face of the level; only the flag ever changes, and an idle animator
      stays idle and writes nothing. */
  lemma TransitionEndsAtTarget(s: ExpressionState, happy: real, now: real, m: MathLib)
    requires m.Valid()
    ensures var st := Started(s, happy, now);
            && (forall k :: 0 <= k < 6 ==>
                  ExpressionStep(st, now, m).1[k].value == Round2(FaceValues(s.target)[k]))
            && (forall k :: 0 <= k < 6 ==>
                  ExpressionStep(st, now + ExpressionInterval, m).1[k].value == Round2(FaceValues(FaceFor(happy))[k]))
            && ExpressionStep(st, now + ExpressionInterval, m).0 == st
    ensures !s.flag ==> ExpressionStep(s, now, m) == (s, [])
  {
    var st := Started(s, happy, now);
    assert (now - st.timer) / ExpressionInterval == 0.0;
    assert (now + ExpressionInterval - st.timer) / ExpressionInterval == 1.0;
  }

  /** The state after start(happy) at time now. */
  function Started(s: ExpressionState, happy: real, now: real): ExpressionState
  {
    ExpressionState(s.target, FaceFor(happy), true, now)
  }

  /** The state after starting once per level, in order. */
  function AfterLevels(s: ExpressionState, levels: seq<real>, now: real): ExpressionState
  {
    if levels == [] then s
    else Started(AfterLevels(s, levels[..|levels| - 1], now), levels[|levels| - 1], now)
  }

  /** Only the last two levels matter: the target is the face of the last level and the
      starting face that of the one before it (or the old target when there is one
      level); with no level nothing changes. */
  lemma {:induction false} AfterLevelsLastTwo(s: ExpressionState, levels: seq<real>, now: real)
    ensures var r := AfterLevels(s, levels, now);
            if levels == [] then r == s
            else
              && r.target == FaceFor(levels[|levels| - 1])
              && r.previous == (if |levels| == 1 then s.target else FaceFor(levels[|levels| - 2]))
              && r.flag && r.timer == now
  {
    if |levels| >= 2 {
      var init := levels[..|levels| - 1];
      AfterLevelsLastTwo(s, init, now);
      assert init[|init| - 1] == levels[|levels| - 2];
    } else if |levels| == 1 {
      assert levels[..0] == [];
    }
  }

  /** One more fragment: its level, if it has one, is one more start. */
  lemma AfterLevelsStep(s: ExpressionState, ms: seq<string>, i: nat, parse: string -> ParseResult, now: real)
    requires i < |ms|
    ensures var p := parse(ms[i]);
            var before := AfterLevels(s, HappyLevels(ms[..i], parse), now);
            AfterLevels(s, HappyLevels(ms[..i + 1], parse), now)
            == if p.Parsed? && p.happy.Some? then Started(before, p.happy.value, now) else before
  {
    var p := parse(ms[i]);
    var prev := HappyLevels(ms[..i], parse);
    assert ms[..i + 1] == ms[..i] + [ms[i]];
    HappyLevelsAppend(ms[..i], [ms[i]], parse);
    var levels := HappyLevels(ms[..i + 1], parse);
    if p.Parsed? && p.happy.Some? {
      assert levels == prev + [p.happy.value];
      assert levels[..|levels| - 1] == prev;
    } else {
      assert levels == prev;
    }
  }

  /** updateExpression: starts the expression animator once for each fragment that
      parses and has `happy`, in text order. */
  method UpdateExpression(text: string, expr: ExpressionAnimator, now: real, parse: string -> ParseResult)
    modifies expr
    ensures expr.State() == AfterLevels(old(expr.State()), HappyLevels(Fragments(text), parse), now)
  {
    var matches := Fragments(text);
    var i := 0;
    while i < |matches|
      invariant 0 <= i <= |matches|
      invariant expr.State() == AfterLevels(old(expr.State()), HappyLevels(matches[..i], parse), now)
    {
      AfterLevelsStep(old(expr.State()), matches, i, parse, now);
      var jsonData := parse(matches[i]);
      if jsonData.Parsed? && jsonData.happy.Some? {
        expr.Start(jsonData.happy.value, now);
      }
      i := i + 1;
    }
    assert matches[..|matches|] == matches;
  }
}
