/** The gate sequencer: the toggle of the feeder gate between its two servo
    positions, the settle guard, the colour latch on the DOWN to UP flip, and
    the counting that follows it. These functions are the specification that
    the methods of RecycleSort are proved against; the lemmas state what the
    sequencing guarantees over one tick and over a run of ticks. */
module GateSequencer {
  import opened Hardware
  import opened ColorClassifier
  import opened BinRouter

  /** The part of the controller's state that the gate logic reads and writes. */
  datatype Control = Control(angle: int, previousColor: ColorName, startTic: int, counters: Counters)

  predicate IsGatePosition(angle: int)
  {
    angle == SERVO_BUCKET_UP || angle == SERVO_BUCKET_DOWN
  }

  /** The other gate position. */
  function Toggled(angle: int): (r: int)
    ensures IsGatePosition(r) && r != angle
  {
    if angle == SERVO_BUCKET_UP then SERVO_BUCKET_DOWN else SERVO_BUCKET_UP
  }

  /** Either trigger of the automatic path: the mode trackbar at 2, or the
      switch reading 1. */
  predicate AutoTriggered(onOff: int, switchLevel: int)
  {
    onOff == 2 || switchLevel == 1
  }

  /** The guard of the manual path: mode 0 or 1 and the switch reading 0. */
  predicate ManualActive(onOff: int, switchLevel: int)
  {
    (onOff == 0 || onOff == 1) && switchLevel == 0
  }

  /** More than one second of clock ticks since the last automatic flip. */
  predicate Settled(s: Control, now: int, freq: int)
  {
    now - s.startTic > freq
  }

  /** One flip of the gate, shared by the automatic path and the Drop button:
      the new position, the latch on the way back up, and the count that
      follows a return to UP. The settle reference is not touched. */
  function Flip(s: Control, current: ColorName): Control
  {
    var angle := Toggled(s.angle);
    var latched := if s.angle == SERVO_BUCKET_DOWN then current else s.previousColor;
    var counters := if angle == SERVO_BUCKET_UP then Tally(s.counters, FirstChar(latched)) else s.counters;
    Control(angle, latched, s.startTic, counters)
  }

  /** The automatic path flips the gate on this tick: triggered and settled. */
  predicate Fires(s: Control, triggered: bool, now: int, freq: int)
  {
    triggered && Settled(s, now, freq)
  }

  /** The automatic path of one tick, given the colour just classified. */
  function AutoStep(s: Control, current: ColorName, triggered: bool, now: int, freq: int): Control
  {
    if Fires(s, triggered, now, freq) then Flip(s, current).(startTic := now) else s
  }

  /** What an automatic flip does to the pins: the gate servo (commanded on pin
      ON_OFF) to the new position, and on a return to UP the bin of the
      latched colour. */
  function FlipOutputs(g: Gpio, s: Control, current: ColorName): Gpio
  {
    var next := Flip(s, current);
    var g := Servo(g, ON_OFF, next.angle);
    if next.angle == SERVO_BUCKET_UP then RouteEffect(g, FirstChar(next.previousColor)) else g
  }

  /** What the automatic path of one tick does to the pins: yellow LED on when
      triggered, then the flip's outputs once the gate has settled. */
  function AutoOutputs(g: Gpio, s: Control, current: ColorName, triggered: bool, now: int, freq: int): Gpio
  {
    if !triggered then g
    else
      var g := Write(g, LED_YELLOW, 1);
      if !Fires(s, triggered, now, freq) then g else FlipOutputs(g, s, current)
  }

  /** Reset Counter: all four counters to zero, nothing else. */
  function ResetCounters(s: Control): (r: Control)
    ensures r.counters == Zero
    ensures r.angle == s.angle && r.previousColor == s.previousColor && r.startTic == s.startTic
  {
    s.(counters := Zero)
  }

  /** The state part of draw(): the optional reset, then in manual mode 1 the
      Drop button's flip. */
  function DrawStep(s: Control, current: ColorName, onOff: int, switchLevel: int, reset: bool, drop: bool): Control
  {
    var s := if reset then ResetCounters(s) else s;
    if ManualActive(onOff, switchLevel) && onOff == 1 && drop then Flip(s, current) else s
  }

  /** The pin part of draw(): in manual mode, yellow LED off; in mode 1, the
      Drop button's gate command on PIN_SERVO1, then the trackbar's bin. */
  function DrawOutputs(g: Gpio, angle: int, onOff: int, binNum: int, switchLevel: int, drop: bool): Gpio
    requires 1 <= binNum <= 4
  {
    if !ManualActive(onOff, switchLevel) then g
    else
      var g := Write(g, LED_YELLOW, 0);
      if onOff != 1 then g
      else
        var g := if drop then Servo(g, PIN_SERVO1, Toggled(angle)) else g;
        SelectBinEffect(g, ManualBin(binNum).angle, ManualBin(binNum).colorBin)
  }

  /** The source computes elapsed_time = (now - start_tic) / freq in floating
      point and tests elapsed_time > 1; over exact reals that test is the
      integer comparison Settled uses. */
  lemma SettledExact(s: Control, now: int, freq: int)
    requires freq > 0
    ensures (now - s.startTic) as real / freq as real > 1.0 <==> Settled(s, now, freq)
  {
    var d, f := (now - s.startTic) as real, freq as real;
    var q := d / f;
    assert q * f == d;
    if q > 1.0 {
      assert (q - 1.0) * f > 0.0;
    }
    if d > f {
      assert (q - 1.0) * f == d - f;
    }
  }

  // ---------------------------------------------------------------- one tick

  /** The settle guard: the automatic path changes the gate state if and only
      if it is triggered and more than a second has passed; otherwise angle,
      latch, settle reference and counters all stay as they were. */
  lemma AutoStepGuard(s: Control, current: ColorName, triggered: bool, now: int, freq: int)
    requires IsGatePosition(s.angle)
    ensures AutoStep(s, current, triggered, now, freq) != s <==> triggered && Settled(s, now, freq)
    ensures IsGatePosition(AutoStep(s, current, triggered, now, freq).angle)
  {
  }

  /** A flip moves the gate exactly once to the other position and restarts
      the settle clock; the latch changes only on the DOWN to UP flip, and
      then takes the colour just classified. */
  lemma FlipAndLatch(s: Control, current: ColorName, now: int, freq: int)
    requires IsGatePosition(s.angle) && Settled(s, now, freq)
    ensures var r := AutoStep(s, current, true, now, freq);
      r.angle != s.angle && IsGatePosition(r.angle) && r.startTic == now &&
      (s.angle == SERVO_BUCKET_DOWN ==> r.angle == SERVO_BUCKET_UP && r.previousColor == current) &&
      (s.angle == SERVO_BUCKET_UP ==> r.angle == SERVO_BUCKET_DOWN && r.previousColor == s.previousColor)
  {
  }

  /** Counting happens only right after a return to UP, and then exactly when
      the colour latched on that flip is White, Green, Pink or Blue: that
      category's counter goes up by one and no other changes. */
  lemma CountOnReturn(s: Control, current: ColorName, triggered: bool, now: int, freq: int)
    requires IsGatePosition(s.angle)
    ensures var r := AutoStep(s, current, triggered, now, freq);
      var routed := triggered && Settled(s, now, freq) && s.angle == SERVO_BUCKET_DOWN &&
                    current in {White, Green, Pink, Blue};
      (routed ==> r.angle == SERVO_BUCKET_UP) &&
      Total(r.counters) == Total(s.counters) + (if routed then 1 else 0) &&
      forall cat :: Count(r.counters, cat) == Count(s.counters, cat) +
        (if routed && CategoryOf(FirstChar(current)) == Some(cat) then 1 else 0)
  {
    RoutedNames(current);
  }

  /** On the tick that completes a cycle with a sortable colour, the bin servo
      goes to that colour's bin and only its LED is lit; on every other tick
      the bin servo and the colour LEDs keep their last command. */
  lemma RouteOnReturn(g: Gpio, s: Control, current: ColorName, triggered: bool, now: int, freq: int)
    requires IsGatePosition(s.angle)
    ensures var o := AutoOutputs(g, s, current, triggered, now, freq);
      var routed := triggered && Settled(s, now, freq) && s.angle == SERVO_BUCKET_DOWN &&
                    CategoryOf(FirstChar(current)).Some?;
      (routed ==>
        var b := BinOf(CategoryOf(FirstChar(current)).value);
        o.pulses[PIN_SERVO2] == b.angle && OnlyLit(o.levels, LedOf(b.colorBin).value)) &&
      (!routed ==>
        (PIN_SERVO2 in g.pulses ==> PIN_SERVO2 in o.pulses && o.pulses[PIN_SERVO2] == g.pulses[PIN_SERVO2]) &&
        forall p :: p in g.levels && IsColorLed(p) ==> p in o.levels && o.levels[p] == g.levels[p])
  {
    var routed := triggered && Settled(s, now, freq) && s.angle == SERVO_BUCKET_DOWN &&
                  CategoryOf(FirstChar(current)).Some?;
    if routed {
      RouteMatchesTally(Servo(Write(g, LED_YELLOW, 1), ON_OFF, SERVO_BUCKET_UP), s.counters, FirstChar(current));
    }
  }

  /** A second trigger inside the settle interval after a flip is ignored. */
  lemma RetriggerIgnored(s: Control, c1: ColorName, c2: ColorName, t1: int, t2: int, freq: int)
    requires IsGatePosition(s.angle) && Settled(s, t1, freq) && t2 - t1 <= freq
    ensures var s1 := AutoStep(s, c1, true, t1, freq);
      s1.angle != s.angle && AutoStep(s1, c2, true, t2, freq) == s1
  {
  }

  /** The Drop button does the automatic path's flip, latch and count, but
      keeps the settle reference where it was. */
  lemma DropMatchesAuto(s: Control, current: ColorName, now: int, freq: int)
    requires IsGatePosition(s.angle) && Settled(s, now, freq)
    ensures DrawStep(s, current, 1, 0, false, true) == AutoStep(s, current, true, now, freq).(startTic := s.startTic)
    ensures DrawStep(s, current, 1, 0, false, true).startTic == s.startTic
  {
  }

  /** The manual block and the automatic path never both act on one tick; with
      the mode in 0..2 and a switch reading of 0 or 1 exactly one of them does. */
  lemma ModesExclusive(onOff: int, switchLevel: int)
    ensures !(AutoTriggered(onOff, switchLevel) && ManualActive(onOff, switchLevel))
    ensures 0 <= onOff <= 2 && (switchLevel == 0 || switchLevel == 1) ==>
      (ManualActive(onOff, switchLevel) <==> !AutoTriggered(onOff, switchLevel))
  {
  }

  /** One frame of run() when update and draw see the same mode and the same
      switch reading: only one path acts. After a triggered automatic step the
      manual block changes neither the gate state (the optional reset aside)
      nor the pins; without a trigger the automatic step changes nothing. */
  lemma OnePathPerFrame(g: Gpio, s: Control, current: ColorName, mode: int, level: int,
                        binNum: int, reset: bool, drop: bool, now: int, freq: int)
    requires 1 <= binNum <= 4
    ensures var auto := AutoStep(s, current, true, now, freq);
      AutoTriggered(mode, level) ==>
        DrawStep(auto, current, mode, level, reset, drop) == (if reset then ResetCounters(auto) else auto) &&
        DrawOutputs(g, auto.angle, mode, binNum, level, drop) == g
    ensures !AutoTriggered(mode, level) ==>
      AutoStep(s, current, false, now, freq) == s && AutoOutputs(g, s, current, false, now, freq) == g
  {
    ModesExclusive(mode, level);
  }

  /** As written, both paths can act in one frame when the mode or the switch
      reading changes between update and draw: with the gate DOWN and settled,
      update's step (mode 2, or a switch reading of 1) flips the gate UP,
      counts the white ball and routes it to the white bin, and draw's manual
      block (mode 1, reading 0, Drop pressed) flips the gate straight back
      DOWN and moves the bin servo to the trackbar's bin. */
  lemma BothPathsInOneFrame(g: Gpio, s: Control, binNum: int, now: int, freq: int)
    requires s.angle == SERVO_BUCKET_DOWN && Settled(s, now, freq) && 1 <= binNum <= 4
    ensures var auto := AutoStep(s, White, AutoTriggered(2, 0), now, freq);
      auto == AutoStep(s, White, AutoTriggered(1, 1), now, freq) &&
      auto.angle == SERVO_BUCKET_UP && auto.counters.white == s.counters.white + 1 &&
      DrawStep(auto, White, 1, 0, false, true).angle == SERVO_BUCKET_DOWN
    ensures var routed := AutoOutputs(g, s, White, true, now, freq);
      routed.pulses[PIN_SERVO2] == ANGLE_BIN_WHITE &&
      DrawOutputs(routed, SERVO_BUCKET_UP, 1, binNum, 0, true).pulses[PIN_SERVO2] == ManualBin(binNum).angle
  {
  }

  /** One whole frame of run() without Reset Counter: update's automatic step
      and then draw's Drop never lower a counter and together raise the total
      by at most one, even when both flip the gate in the same frame (one of
      the two flips goes DOWN and counts nothing). */
  lemma FrameCountsAtMostOne(s: Control, current: ColorName, triggered: bool, now: int, freq: int,
                             mode: int, level: int, drop: bool)
    requires IsGatePosition(s.angle)
    ensures var r := DrawStep(AutoStep(s, current, triggered, now, freq), current, mode, level, false, drop);
      (forall cat :: Count(r.counters, cat) >= Count(s.counters, cat)) &&
      Total(r.counters) <= Total(s.counters) + 1
  {
    var a := AutoStep(s, current, triggered, now, freq);
    CountOnReturn(s, current, triggered, now, freq);
    TallyCounts(a.counters, FirstChar(if a.angle == SERVO_BUCKET_DOWN then current else a.previousColor));
  }

  /** In manual mode 1 the bin follows the trackbar, whatever colour was
      classified and whether or not Drop was pressed. */
  lemma ManualBinFollowsTrackbar(g: Gpio, s: Control, binNum: int, drop: bool)
    requires IsGatePosition(s.angle) && 1 <= binNum <= 4
    ensures var o := DrawOutputs(g, s.angle, 1, binNum, 0, drop);
      o.pulses[PIN_SERVO2] == ManualBin(binNum).angle &&
      OnlyLit(o.levels, LedOf(ManualBin(binNum).colorBin).value) &&
      LED_YELLOW in o.levels && o.levels[LED_YELLOW] == 0
  {
  }

  // ------------------------------------------------------------ runs of ticks

  /** What the automatic path sees on one tick. */
  datatype Tick = Tick(current: ColorName, triggered: bool, now: int)

  function Step(s: Control, t: Tick, freq: int): Control
  {
    AutoStep(s, t.current, t.triggered, t.now, freq)
  }

  predicate Moves(s: Control, t: Tick, freq: int)
  {
    Fires(s, t.triggered, t.now, freq)
  }

  /** The control state after a run of ticks on the automatic path. */
  function Run(s: Control, ticks: seq<Tick>, freq: int): Control
    decreases |ticks|
  {
    if ticks == [] then s else Run(Step(s, ticks[0], freq), ticks[1..], freq)
  }

  /** What the automatic path of one tick does to the pins. */
  function StepOutputs(g: Gpio, s: Control, t: Tick, freq: int): Gpio
  {
    AutoOutputs(g, s, t.current, t.triggered, t.now, freq)
  }

  /** The pins after a run of ticks on the automatic path. */
  function RunOutputs(g: Gpio, s: Control, ticks: seq<Tick>, freq: int): Gpio
    decreases |ticks|
  {
    if ticks == [] then g else RunOutputs(StepOutputs(g, s, ticks[0], freq), Step(s, ticks[0], freq), ticks[1..], freq)
  }

  /** How many ticks of the run flipped the gate. */
  function Transitions(s: Control, ticks: seq<Tick>, freq: int): (n: nat)
    ensures n <= |ticks|
    decreases |ticks|
  {
    if ticks == [] then 0
    else (if Moves(s, ticks[0], freq) then 1 else 0) + Transitions(Step(s, ticks[0], freq), ticks[1..], freq)
  }

  /** The gate strictly alternates: after an even number of flips it is where
      it started, after an odd number at the other position; in particular,
      starting UP it is UP exactly when the number of flips is even. */
  lemma {:induction false} Alternation(s: Control, ticks: seq<Tick>, freq: int)
    requires IsGatePosition(s.angle)
    ensures Run(s, ticks, freq).angle ==
      if Transitions(s, ticks, freq) % 2 == 0 then s.angle else Toggled(s.angle)
    ensures s.angle == SERVO_BUCKET_UP ==>
      (Run(s, ticks, freq).angle == SERVO_BUCKET_UP <==> Transitions(s, ticks, freq) % 2 == 0)
    decreases |ticks|
  {
    if ticks != [] {
      Alternation(Step(s, ticks[0], freq), ticks[1..], freq);
    }
  }

  /** Counters only grow during a run, and at most one ball is counted per
      completed cycle: the total grows by at most half the number of flips
      (rounded up when the run starts with the gate DOWN). */
  lemma {:induction false} OneCountPerCycle(s: Control, ticks: seq<Tick>, freq: int)
    requires IsGatePosition(s.angle)
    ensures var r := Run(s, ticks, freq);
      (forall cat :: Count(r.counters, cat) >= Count(s.counters, cat)) &&
      Total(r.counters) <= Total(s.counters) +
        (Transitions(s, ticks, freq) + (if s.angle == SERVO_BUCKET_DOWN then 1 else 0)) / 2
    decreases |ticks|
  {
    if ticks != [] {
      var s' := Step(s, ticks[0], freq);
      OneCountPerCycle(s', ticks[1..], freq);
      CountOnReturn(s, ticks[0].current, ticks[0].triggered, ticks[0].now, freq);
    }
  }

  /** Without a trigger, any number of ticks, whatever the samples, leaves the
      gate, the latch, the settle reference and the counters unchanged. */
  lemma {:induction false} IdleRunChangesNothing(s: Control, ticks: seq<Tick>, freq: int)
    requires IsGatePosition(s.angle)
    requires forall k :: 0 <= k < |ticks| ==> !ticks[k].triggered
    ensures Run(s, ticks, freq) == s && Transitions(s, ticks, freq) == 0
    decreases |ticks|
  {
    if ticks != [] {
      IdleRunChangesNothing(s, ticks[1..], freq);
    }
  }

  /** A non-empty run is its first step followed by the rest. */
  lemma RunUnfold(g: Gpio, s: Control, ticks: seq<Tick>, freq: int)
    requires ticks != []
    ensures Run(s, ticks, freq) == Run(Step(s, ticks[0], freq), ticks[1..], freq)
    ensures RunOutputs(g, s, ticks, freq) == RunOutputs(StepOutputs(g, s, ticks[0], freq), Step(s, ticks[0], freq), ticks[1..], freq)
    ensures Transitions(s, ticks, freq) ==
      (if Moves(s, ticks[0], freq) then 1 else 0) + Transitions(Step(s, ticks[0], freq), ticks[1..], freq)
  {
  }

  /** A run of four ticks is four steps. */
  lemma RunFour(g: Gpio, s: Control, ticks: seq<Tick>, freq: int)
    requires |ticks| == 4
    ensures var s1 := Step(s, ticks[0], freq);
      var s2 := Step(s1, ticks[1], freq);
      var s3 := Step(s2, ticks[2], freq);
      Run(s, ticks, freq) == Step(s3, ticks[3], freq) &&
      RunOutputs(g, s, ticks, freq) ==
        StepOutputs(StepOutputs(StepOutputs(StepOutputs(g, s, ticks[0], freq), s1, ticks[1], freq), s2, ticks[2], freq), s3, ticks[3], freq) &&
      Transitions(s, ticks, freq) ==
        (if Moves(s, ticks[0], freq) then 1 else 0) + (if Moves(s1, ticks[1], freq) then 1 else 0) +
        (if Moves(s2, ticks[2], freq) then 1 else 0) + (if Moves(s3, ticks[3], freq) then 1 else 0)
  {
    var s1 := Step(s, ticks[0], freq);
    var s2 := Step(s1, ticks[1], freq);
    var s3 := Step(s2, ticks[2], freq);
    var g1 := StepOutputs(g, s, ticks[0], freq);
    var g2 := StepOutputs(g1, s1, ticks[1], freq);
    var g3 := StepOutputs(g2, s2, ticks[2], freq);
    RunUnfold(g, s, ticks, freq);
    RunUnfold(g1, s1, ticks[1..], freq);
    RunUnfold(g2, s2, ticks[2..], freq);
    RunUnfold(g3, s3, ticks[3..], freq);
    assert ticks[1..][1..] == ticks[2..] && ticks[2..][1..] == ticks[3..] && ticks[3..][1..] == [];
  }

  /** A white ball from power-up (value 80 and saturation 20 are "White"
      whatever the hue): triggered once after the settle time, so the gate
      goes DOWN; two idle ticks; triggered again after another settle time, so
      the gate comes back UP and latches "White". Two flips, the white counter
      at 1 and the others at 0, the bin servo at the white bin and, of the
      colour LEDs, only the white one lit. */
  lemma WhiteBallCycle(g: Gpio, hue: int, start: int, freq: int, ticks: seq<Tick>)
    requires freq > 0
    requires |ticks| == 4
    requires ticks[0] == Tick(Classify(hue, 20, 80), true, start + freq + 1)
    requires ticks[1] == Tick(Classify(hue, 20, 80), false, start + freq + 2)
    requires ticks[2] == Tick(Classify(hue, 20, 80), false, start + freq + 3)
    requires ticks[3] == Tick(Classify(hue, 20, 80), true, start + 2 * freq + 2)
    ensures var s := Control(SERVO_BUCKET_UP, Limbo, start, Zero);
      Classify(hue, 20, 80) == White && Transitions(s, ticks, freq) == 2 &&
      Run(s, ticks, freq) == Control(SERVO_BUCKET_UP, White, start + 2 * freq + 2, Counters(1, 0, 0, 0)) &&
      PIN_SERVO2 in RunOutputs(g, s, ticks, freq).pulses &&
      RunOutputs(g, s, ticks, freq).pulses[PIN_SERVO2] == ANGLE_BIN_WHITE &&
      OnlyLit(RunOutputs(g, s, ticks, freq).levels, LED_WHITE)
  {
    var s := Control(SERVO_BUCKET_UP, Limbo, start, Zero);
    var s1 := Control(SERVO_BUCKET_DOWN, Limbo, start + freq + 1, Zero);
    assert Classify(hue, 20, 80) == White;
    assert Step(s, ticks[0], freq) == s1;
    assert Step(s1, ticks[1], freq) == s1;
    assert Step(s1, ticks[2], freq) == s1;
    assert Step(s1, ticks[3], freq) == Control(SERVO_BUCKET_UP, White, start + 2 * freq + 2, Counters(1, 0, 0, 0));
    RunFour(g, s, ticks, freq);
    var g3 := StepOutputs(StepOutputs(StepOutputs(g, s, ticks[0], freq), s1, ticks[1], freq), s1, ticks[2], freq);
    RouteOnReturn(g3, s1, White, true, start + 2 * freq + 2, freq);
  }
}
