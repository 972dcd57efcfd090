/** The controller object: the fields of class CRecycleSort and the methods that
    change them, each proved against the specification functions of
    ColorClassifier, BinRouter and GateSequencer. The pins are held as the two
    maps of a Gpio value; the camera frame arrives already converted to HSV. */
module Controller {
  import opened Hardware
  import opened ColorClassifier
  import opened BinRouter
  import opened GateSequencer

  class RecycleSort {
    var doExit: bool
    /** Clock ticks: the tick of the last automatic flip, ticks per second,
        and the seconds since the last flip as of the last triggered tick. */
    var startTic: int
    var freq: int
    var elapsedTime: real
    /** The gate servo position and the scratch copy used while toggling it. */
    var angle: int
    var tempAngle: int
    /** The mode trackbar (0 switch, 1 manual, 2 auto) and the bin trackbar. */
    var onOff: int
    var binNum: int
    /** The channel accumulators, which also hold the last averages. */
    var pixelHue: int32
    var pixelSat: int32
    var pixelValue: int32
    var white: nat
    var green: nat
    var pink: nat
    var blue: nat
    var colorName: ColorName
    var previousColor: ColorName
    /** What the pigpio calls have left on the pins. */
    var levels: map<int, int>
    var pulses: map<int, int>

    ghost predicate Valid()
      reads this
    {
      freq > 0 && IsGatePosition(angle) &&
      0 <= onOff <= 2 && 1 <= binNum <= 4 &&
      AveragesInRange()
    }

    /** Between ticks each accumulator holds an average of 8-bit channels. */
    ghost predicate AveragesInRange()
      reads this`pixelHue, this`pixelSat, this`pixelValue
    {
      0 <= pixelHue <= 255 && 0 <= pixelSat <= 255 && 0 <= pixelValue <= 255
    }

    function State(): Control
      reads this
    {
      Control(angle, previousColor, startTic, Counts())
    }

    function Counts(): Counters
      reads this
    {
      Counters(white, green, pink, blue)
    }

    function Pins(): Gpio
      reads this
    {
      Gpio(levels, pulses)
    }

    /** The object as the constructor leaves it, with the clock frequency and
        the first settle reference that run() stores before its loop. */
    constructor (tickFrequency: int, startTick: int)
      requires tickFrequency > 0
      ensures Valid()
      ensures State() == Control(SERVO_BUCKET_UP, Limbo, startTick, Zero)
      ensures colorName == Limbo && !doExit && onOff == 0 && binNum == 1
      ensures pixelHue == 0 && pixelSat == 0 && pixelValue == 0
      ensures freq == tickFrequency
      ensures tempAngle == SERVO_BUCKET_UP && elapsedTime == 0.0
      ensures Pins() == Gpio(map[], map[])
    {
      angle := SERVO_BUCKET_UP;
      tempAngle := SERVO_BUCKET_UP;
      colorName := Limbo;
      previousColor := Limbo;
      doExit := false;
      onOff := 0;
      binNum := 1;
      pixelHue, pixelSat, pixelValue := 0, 0, 0;
      blue, green, white, pink := 0, 0, 0, 0;
      freq := tickFrequency;
      startTic := startTick;
      elapsedTime := 0.0;
      levels, pulses := map[], map[];
    }

    /** gpioWrite */
    method GpioWrite(pin: int, level: int)
      modifies this`levels
      ensures Pins() == Write(old(Pins()), pin, level)
    {
      levels := levels[pin := level];
    }

    /** gpioServo */
    method GpioServo(pin: int, width: int)
      modifies this`pulses
      ensures Pins() == Servo(old(Pins()), pin, width)
    {
      pulses := pulses[pin := width];
    }

    /** One row of the averaging loop: the window's pixels of row i are added
        to the accumulators. Each accumulator holds the sum of the rows before
        i on top of the previous tick's average (at most 255). */
    method AccumulateRow(frame: array2<Pixel>, i: int)
      requires ROW_BEGIN <= i < ROW_END <= frame.Length0 && COL_END <= frame.Length1
      requires 0 <= pixelHue as int - WindowSum(frame, Hue, i) <= 255
      requires 0 <= pixelSat as int - WindowSum(frame, Sat, i) <= 255
      requires 0 <= pixelValue as int - WindowSum(frame, Value, i) <= 255
      modifies this`pixelHue, this`pixelSat, this`pixelValue
      ensures pixelHue as int == old(pixelHue) as int + RowSum(frame, Hue, i, COL_END)
      ensures pixelSat as int == old(pixelSat) as int + RowSum(frame, Sat, i, COL_END)
      ensures pixelValue as int == old(pixelValue) as int + RowSum(frame, Value, i, COL_END)
    {
      for j := COL_BEGIN to COL_END
        invariant pixelHue as int == old(pixelHue) as int + RowSum(frame, Hue, i, j)
        invariant pixelSat as int == old(pixelSat) as int + RowSum(frame, Sat, i, j)
        invariant pixelValue as int == old(pixelValue) as int + RowSum(frame, Value, i, j)
      {
        NextPixel(frame, Hue, i, j);
        NextPixel(frame, Sat, i, j);
        NextPixel(frame, Value, i, j);
        pixelHue := pixelHue + frame[i, j].hue as int32;
        pixelSat := pixelSat + frame[i, j].sat as int32;
        pixelValue := pixelValue + frame[i, j].value as int32;
      }
    }

    /** The pixel loops of update(): the window's sums are added on top of
        what the accumulators held. */
    method SumWindow(frame: array2<Pixel>)
      requires ROW_END <= frame.Length0 && COL_END <= frame.Length1
      requires AveragesInRange()
      modifies this`pixelHue, this`pixelSat, this`pixelValue
      ensures pixelHue as int == old(pixelHue) as int + WindowSum(frame, Hue, ROW_END)
      ensures pixelSat as int == old(pixelSat) as int + WindowSum(frame, Sat, ROW_END)
      ensures pixelValue as int == old(pixelValue) as int + WindowSum(frame, Value, ROW_END)
    {
      for i := ROW_BEGIN to ROW_END
        invariant pixelHue as int == old(pixelHue) as int + WindowSum(frame, Hue, i)
        invariant pixelSat as int == old(pixelSat) as int + WindowSum(frame, Sat, i)
        invariant pixelValue as int == old(pixelValue) as int + WindowSum(frame, Value, i)
      {
        AccumulateRow(frame, i);
      }
    }

    /** The averaging of update(): every pixel of the window is added to
        the accumulators, which are not cleared first, and each sum is divided
        by the window's pixel count. No intermediate sum overflows, and each
        new average is the window's own average or one more. */
    method AccumulateWindow(frame: array2<Pixel>)
      requires AveragesInRange()
      requires ROW_END <= frame.Length0 && COL_END <= frame.Length1
      modifies this`pixelHue, this`pixelSat, this`pixelValue
      ensures AveragesInRange()
      ensures pixelHue as int == (old(pixelHue) as int + WindowSum(frame, Hue, ROW_END)) / WINDOW_SIZE
      ensures pixelSat as int == (old(pixelSat) as int + WindowSum(frame, Sat, ROW_END)) / WINDOW_SIZE
      ensures pixelValue as int == (old(pixelValue) as int + WindowSum(frame, Value, ROW_END)) / WINDOW_SIZE
      ensures WindowSum(frame, Hue, ROW_END) / WINDOW_SIZE <= pixelHue as int <= WindowSum(frame, Hue, ROW_END) / WINDOW_SIZE + 1
      ensures WindowSum(frame, Sat, ROW_END) / WINDOW_SIZE <= pixelSat as int <= WindowSum(frame, Sat, ROW_END) / WINDOW_SIZE + 1
      ensures WindowSum(frame, Value, ROW_END) / WINDOW_SIZE <= pixelValue as int <= WindowSum(frame, Value, ROW_END) / WINDOW_SIZE + 1
    {
      SumWindow(frame);
      CarriedAverage(old(pixelHue) as int, WindowSum(frame, Hue, ROW_END));
      CarriedAverage(old(pixelSat) as int, WindowSum(frame, Sat, ROW_END));
      CarriedAverage(old(pixelValue) as int, WindowSum(frame, Value, ROW_END));
      pixelHue := Mean(pixelHue);
      pixelSat := Mean(pixelSat);
      pixelValue := Mean(pixelValue);
    }

    /** The two-step toggle shared by update() and the Drop button: the gate
        servo, commanded on `pin`, goes to the other position, and the colour
        just classified is latched on the way back up. temp_angle is always
        written before it is copied into angle. */
    method ToggleGate(pin: int)
      requires IsGatePosition(angle)
      modifies this`angle, this`tempAngle, this`previousColor, this`pulses
      ensures angle == Toggled(old(angle)) && tempAngle == angle
      ensures previousColor == if old(angle) == SERVO_BUCKET_DOWN then colorName else old(previousColor)
      ensures Pins() == Servo(old(Pins()), pin, angle)
    {
      ghost var written := false;
      if angle == SERVO_BUCKET_UP {
        GpioServo(pin, SERVO_BUCKET_DOWN);
        tempAngle := SERVO_BUCKET_DOWN;
        written := true;
      }
      if angle == SERVO_BUCKET_DOWN {
        GpioServo(pin, SERVO_BUCKET_UP);
        tempAngle := SERVO_BUCKET_UP;
        previousColor := colorName;
        written := true;
      }
      assert written;
      angle := tempAngle;
    }

    /** Select_Bin: the bin servo to `angle`, and the LED of the tag lit alone. */
    method SelectBin(angle: int, colorBin: char)
      modifies this`levels, this`pulses
      ensures Pins() == SelectBinEffect(old(Pins()), angle, colorBin)
    {
      GpioServo(PIN_SERVO2, angle);
      if colorBin == 'B' {
        GpioWrite(LED_BLUE, 1);
        GpioWrite(LED_GREEN, 0);
        GpioWrite(LED_RED, 0);
        GpioWrite(LED_WHITE, 0);
      } else if colorBin == 'G' {
        GpioWrite(LED_BLUE, 0);
        GpioWrite(LED_GREEN, 1);
        GpioWrite(LED_RED, 0);
        GpioWrite(LED_WHITE, 0);
      } else if colorBin == 'R' {
        GpioWrite(LED_BLUE, 0);
        GpioWrite(LED_GREEN, 0);
        GpioWrite(LED_RED, 1);
        GpioWrite(LED_WHITE, 0);
      } else if colorBin == 'W' {
        GpioWrite(LED_BLUE, 0);
        GpioWrite(LED_GREEN, 0);
        GpioWrite(LED_RED, 0);
        GpioWrite(LED_WHITE, 1);
      }
    }

    /** The sorting chain of update(): the latched colour's first character
        picks the bin and the counter. */
    method SortLatched()
      modifies this`levels, this`pulses, this`white, this`green, this`pink, this`blue
      ensures Counts() == Tally(old(Counts()), FirstChar(previousColor))
      ensures Pins() == RouteEffect(old(Pins()), FirstChar(previousColor))
    {
      var first := FirstChar(previousColor);
      if first == 'W' {
        SelectBin(ANGLE_BIN_WHITE, 'W');
        white := white + 1;
      } else if first == 'G' {
        SelectBin(ANGLE_BIN_GREEN, 'G');
        green := green + 1;
      } else if first == 'P' {
        SelectBin(ANGLE_BIN_RED, 'R');
        pink := pink + 1;
      } else if first == 'B' {
        SelectBin(ANGLE_BIN_BLUE, 'B');
        blue := blue + 1;
      }
    }

    /** The counting chain of the Drop button: the same counters as
        SortLatched, without any Select_Bin call. */
    method CountLatched()
      modifies this`white, this`green, this`pink, this`blue
      ensures Counts() == Tally(old(Counts()), FirstChar(previousColor))
    {
      var first := FirstChar(previousColor);
      if first == 'W' {
        white := white + 1;
      } else if first == 'G' {
        green := green + 1;
      } else if first == 'P' {
        pink := pink + 1;
      } else if first == 'B' {
        blue := blue + 1;
      }
    }

    /** update(): average the window, classify, and on the automatic path flip
        the gate once the settle time has passed, routing and counting the
        latched ball on the return to UP. `switchLevel` is what
        gpioRead(ON_OFF) returns and `now` the current clock tick. */
    method Update(frame: array2<Pixel>, switchLevel: int, now: int)
      requires Valid()
      requires ROW_END <= frame.Length0 && COL_END <= frame.Length1
      modifies this`pixelHue, this`pixelSat, this`pixelValue, this`colorName, this`levels, this`pulses,
        this`elapsedTime, this`angle, this`tempAngle, this`previousColor, this`startTic,
        this`white, this`green, this`pink, this`blue
      ensures Valid()
      ensures pixelHue as int == (old(pixelHue) as int + WindowSum(frame, Hue, ROW_END)) / WINDOW_SIZE
      ensures pixelSat as int == (old(pixelSat) as int + WindowSum(frame, Sat, ROW_END)) / WINDOW_SIZE
      ensures pixelValue as int == (old(pixelValue) as int + WindowSum(frame, Value, ROW_END)) / WINDOW_SIZE
      ensures colorName == Classify(pixelHue as int, pixelSat as int, pixelValue as int)
      ensures State() == AutoStep(old(State()), colorName, AutoTriggered(onOff, switchLevel), now, freq)
      ensures Pins() == AutoOutputs(old(Pins()), old(State()), colorName, AutoTriggered(onOff, switchLevel), now, freq)
      ensures elapsedTime == if AutoTriggered(onOff, switchLevel)
        then (now - old(startTic)) as real / freq as real else old(elapsedTime)
    {
      AccumulateWindow(frame);
      colorName := Classify(pixelHue as int, pixelSat as int, pixelValue as int);
      AutoControl(switchLevel, now);
    }

    /** The automatic block of update(): when triggered, the yellow LED goes on
        and the seconds since the last flip are measured; past one second the
        gate flips on pin ON_OFF, the settle clock restarts, and on the return
        to UP the latched ball is sorted. */
    method AutoControl(switchLevel: int, now: int)
      requires freq > 0 && IsGatePosition(angle)
      modifies this`levels, this`pulses, this`elapsedTime, this`angle, this`tempAngle, this`previousColor,
        this`startTic, this`white, this`green, this`pink, this`blue
      ensures IsGatePosition(angle)
      ensures State() == AutoStep(old(State()), colorName, AutoTriggered(onOff, switchLevel), now, freq)
      ensures Pins() == AutoOutputs(old(Pins()), old(State()), colorName, AutoTriggered(onOff, switchLevel), now, freq)
      ensures elapsedTime == if AutoTriggered(onOff, switchLevel)
        then (now - old(startTic)) as real / freq as real else old(elapsedTime)
    {
      if onOff == 2 || switchLevel == 1 {
        GpioWrite(LED_YELLOW, 1);
        elapsedTime := (now - startTic) as real / freq as real;
        SettledExact(State(), now, freq);
        if elapsedTime > 1.0 {
          AutoFlip(now);
        }
      }
    }

    /** The settled branch of update(): flip the gate on pin ON_OFF, restart
        the settle clock at `now`, and sort the latched ball on the return to
        UP. */
    method AutoFlip(now: int)
      requires IsGatePosition(angle)
      modifies this`levels, this`pulses, this`angle, this`tempAngle, this`previousColor,
        this`startTic, this`white, this`green, this`pink, this`blue
      ensures State() == Flip(old(State()), colorName).(startTic := now)
      ensures Pins() == FlipOutputs(old(Pins()), old(State()), colorName)
    {
      ToggleGate(ON_OFF);
      startTic := now;
      if angle == SERVO_BUCKET_UP {
        SortLatched();
      }
    }

    /** The control part of draw(): the trackbars store the mode and the bin,
        Exit asks the loop to stop, Reset Counter zeroes the counters, and in
        manual mode the yellow LED goes off; in mode 1 the Drop button flips
        the gate (on PIN_SERVO1) and counts, and the bin trackbar's bin is
        selected. `switchLevel` is draw's own gpioRead(ON_OFF). */
    method Draw(onOffBar: int, binBar: int, exitPressed: bool, resetPressed: bool, dropPressed: bool, switchLevel: int)
      requires Valid()
      requires 0 <= onOffBar <= 2 && 1 <= binBar <= 4
      modifies this`onOff, this`binNum, this`doExit, this`levels, this`pulses, this`angle, this`tempAngle,
        this`previousColor, this`white, this`green, this`pink, this`blue
      ensures Valid()
      ensures onOff == onOffBar && binNum == binBar
      ensures doExit == (old(doExit) || exitPressed)
      ensures State() == DrawStep(old(State()), colorName, onOffBar, switchLevel, resetPressed, dropPressed)
      ensures Pins() == DrawOutputs(old(Pins()), old(angle), onOffBar, binBar, switchLevel, dropPressed)
    {
      ReadWidgets(onOffBar, binBar, exitPressed, resetPressed);
      ManualControl(switchLevel, dropPressed);
    }

    /** The widgets of draw() ahead of its manual block: the two trackbars
        store the mode and the bin, Exit sets do_exit, and Reset Counter zeroes
        the four counters. */
    method ReadWidgets(onOffBar: int, binBar: int, exitPressed: bool, resetPressed: bool)
      modifies this`onOff, this`binNum, this`doExit, this`white, this`green, this`pink, this`blue
      ensures onOff == onOffBar && binNum == binBar
      ensures doExit == (old(doExit) || exitPressed)
      ensures Counts() == if resetPressed then Zero else old(Counts())
    {
      onOff := onOffBar;
      binNum := binBar;
      if exitPressed {
        doExit := true;
      }
      if resetPressed {
        white, green, pink, blue := 0, 0, 0, 0;
      }
    }

    /** The manual block of draw(): with mode 0 or 1 and the switch reading 0,
        the yellow LED goes off; in mode 1 the Drop button is handled and the
        bin trackbar's bin is selected. */
    method ManualControl(switchLevel: int, dropPressed: bool)
      requires IsGatePosition(angle) && 1 <= binNum <= 4
      modifies this`levels, this`pulses, this`angle, this`tempAngle, this`previousColor,
        this`white, this`green, this`pink, this`blue
      ensures IsGatePosition(angle)
      ensures State() == if ManualActive(onOff, switchLevel) && onOff == 1 && dropPressed
        then Flip(old(State()), colorName) else old(State())
      ensures Pins() == DrawOutputs(old(Pins()), old(angle), onOff, binNum, switchLevel, dropPressed)
    {
      if (onOff == 0 || onOff == 1) && switchLevel == 0 {
        GpioWrite(LED_YELLOW, 0);
        if onOff == 1 {
          if dropPressed {
            DropGate();
          }
          SelectTrackbarBin();
        }
      }
    }

    /** The Drop button: the same flip, latch and count as the automatic path,
        with the gate commanded on PIN_SERVO1, no bin selected and the settle
        clock left alone. */
    method DropGate()
      requires IsGatePosition(angle)
      modifies this`pulses, this`angle, this`tempAngle, this`previousColor,
        this`white, this`green, this`pink, this`blue
      ensures State() == Flip(old(State()), colorName)
      ensures Pins() == Servo(old(Pins()), PIN_SERVO1, Toggled(old(angle)))
    {
      ToggleGate(PIN_SERVO1);
      if angle == SERVO_BUCKET_UP {
        CountLatched();
      }
    }

    /** The bin trackbar chain: bin_num 1..4 selects the white, green, red or
        blue bin. */
    method SelectTrackbarBin()
      requires 1 <= binNum <= 4
      modifies this`levels, this`pulses
      ensures Pins() == SelectBinEffect(old(Pins()), ManualBin(binNum).angle, ManualBin(binNum).colorBin)
    {
      if binNum == 1 {
        SelectBin(ANGLE_BIN_WHITE, 'W');
      } else if binNum == 2 {
        SelectBin(ANGLE_BIN_GREEN, 'G');
      } else if binNum == 3 {
        SelectBin(ANGLE_BIN_RED, 'R');
      } else if binNum == 4 {
        SelectBin(ANGLE_BIN_BLUE, 'B');
      }
    }

    /** One pass of run()'s loop: an empty frame is skipped and changes
        nothing; otherwise update() and then draw(), each on its own switch
        reading and with draw() seeing the mode its trackbar has just stored.
        When both see the same mode and the same reading, only one of the two
        paths acts (OnePathPerFrame); when they differ both can
        (BothPathsInOneFrame). Without Reset Counter a frame never lowers a
        counter and counts at most one ball (FrameCountsAtMostOne). */
    method Cycle(frame: array2<Pixel>, updateSwitch: int, now: int,
                 onOffBar: int, binBar: int, exitPressed: bool, resetPressed: bool, dropPressed: bool, drawSwitch: int)
      requires Valid()
      requires frame.Length0 == 0 || frame.Length1 == 0 || (ROW_END <= frame.Length0 && COL_END <= frame.Length1)
      requires 0 <= onOffBar <= 2 && 1 <= binBar <= 4
      modifies this`pixelHue, this`pixelSat, this`pixelValue, this`colorName, this`levels, this`pulses,
        this`elapsedTime, this`angle, this`tempAngle, this`previousColor, this`startTic,
        this`white, this`green, this`pink, this`blue, this`onOff, this`binNum, this`doExit
      ensures Valid()
      ensures freq == old(freq)
      ensures frame.Length0 == 0 || frame.Length1 == 0 ==> unchanged(this)
      ensures frame.Length0 > 0 && frame.Length1 > 0 ==>
        pixelHue as int == (old(pixelHue) as int + WindowSum(frame, Hue, ROW_END)) / WINDOW_SIZE &&
        pixelSat as int == (old(pixelSat) as int + WindowSum(frame, Sat, ROW_END)) / WINDOW_SIZE &&
        pixelValue as int == (old(pixelValue) as int + WindowSum(frame, Value, ROW_END)) / WINDOW_SIZE &&
        colorName == Classify(pixelHue as int, pixelSat as int, pixelValue as int) &&
        onOff == onOffBar && binNum == binBar && doExit == (old(doExit) || exitPressed) &&
        elapsedTime == (if AutoTriggered(old(onOff), updateSwitch)
          then (now - old(startTic)) as real / freq as real else old(elapsedTime))
      ensures frame.Length0 > 0 && frame.Length1 > 0 ==>
        var auto := AutoStep(old(State()), colorName, AutoTriggered(old(onOff), updateSwitch), now, freq);
        State() == DrawStep(auto, colorName, onOffBar, drawSwitch, resetPressed, dropPressed) &&
        Pins() == DrawOutputs(AutoOutputs(old(Pins()), old(State()), colorName, AutoTriggered(old(onOff), updateSwitch), now, freq),
                              auto.angle, onOffBar, binBar, drawSwitch, dropPressed)
      ensures frame.Length0 > 0 && frame.Length1 > 0 && onOffBar == old(onOff) && drawSwitch == updateSwitch ==>
        if AutoTriggered(onOffBar, drawSwitch) then
          var auto := AutoStep(old(State()), colorName, true, now, freq);
          State() == (if resetPressed then ResetCounters(auto) else auto) &&
          Pins() == AutoOutputs(old(Pins()), old(State()), colorName, true, now, freq)
        else
          State() == DrawStep(old(State()), colorName, onOffBar, drawSwitch, resetPressed, dropPressed) &&
          Pins() == DrawOutputs(old(Pins()), old(angle), onOffBar, binBar, drawSwitch, dropPressed)
      ensures frame.Length0 > 0 && frame.Length1 > 0 && !resetPressed ==>
        (forall cat :: Count(Counts(), cat) >= Count(old(Counts()), cat)) &&
        Total(Counts()) <= Total(old(Counts())) + 1
    {
      if frame.Length0 > 0 && frame.Length1 > 0 {
        ghost var s0, mode0 := State(), onOff;
        Update(frame, updateSwitch, now);
        FrameCountsAtMostOne(s0, colorName, AutoTriggered(mode0, updateSwitch), now, freq, onOffBar, drawSwitch, dropPressed);
        OnePathPerFrame(Pins(), s0, colorName, onOffBar, drawSwitch, binBar, resetPressed, dropPressed, now, freq);
        Draw(onOffBar, binBar, exitPressed, resetPressed, dropPressed, drawSwitch);
      }
    }
  }
}
