# Colour ball sorter (CRecycleSort) in Dafny

The system sorts coloured balls on a Raspberry Pi. On every camera frame,
`CRecycleSort::update` averages hue, saturation and value over a fixed part of
the HSV frame and names a colour. A feeder gate ("bucket") servo moves between
two pulse widths. The automatic path waits more than a second after its own
last flip before flipping again; the manual Drop button has no such wait and
does not restart that clock, so an automatic flip may follow a Drop at once. The colour seen while the
gate is down is latched when the gate comes back up. That latched colour then
picks one of four bins (a second servo plus one LED each) and increments its
counter. `draw` covers the operator side: a mode trackbar (0 switch, 1 manual,
2 automatic), a bin trackbar, and the Exit, Reset Counter and Drop buttons.
In manual mode the Drop button flips the gate by hand and the bin follows the
trackbar.

The project has five modules:

- `Hardware` (hardware.dfy) holds the pin numbers and pulse widths of the
  source's `#define` block. A `Gpio` value records what `gpioWrite` and
  `gpioServo` leave on each pin.
- `ColorClassifier` (classifier.dfy) holds the window sums, the carried-over
  average and its overflow bounds, the colour names, and the threshold chain
  with its first-match reading.
- `BinRouter` (router.dfy) maps a first character to a category and a bin,
  models `Select_Bin` on the pins, and holds the four counters.
- `GateSequencer` (sequencer.dfy) holds the specification functions for one
  tick of the automatic path and of `draw`'s manual block. Its lemmas cover one
  tick and runs of ticks.
- `Controller` (recycle_sort.dfy) holds class `RecycleSort`. Its fields are
  those of the header plus the two pin maps. The averaging methods are proved
  against `ColorClassifier`'s `RowSum`, `WindowSum` and `Mean`; the gate,
  routing and pin methods against the `GateSequencer`, `BinRouter` and
  `Hardware` functions; `ReadWidgets` states its field updates directly.

Modelled as written, including behaviour that looks unintended:

- The accumulators `pixel_hue`, `pixel_sat` and `pixel_value` are never
  cleared. Each tick's sum therefore starts from the previous average, and the
  new average is the window's own average or one more.
- The automatic path commands the gate servo on pin `ON_OFF` (17). That is the
  pin it reads as the mode switch. The Drop button commands the gate on
  `PIN_SERVO1` (12).
- The window sampled by `at<>(i, j)` is rows 255..389 and columns 205..349 of
  the frame. The rectangle that `draw` paints spans x 255..390 and y 205..350,
  the transpose. Only the sampling is modelled.
- `update` and `draw` each call `gpioRead(ON_OFF)`, so each method takes its
  own switch reading. A negative pigpio error code is a possible reading: in modes
  0 and 1 it triggers neither the automatic path nor the manual block (in
  mode 2 the automatic path runs whatever the reading).
- `draw` stores the mode trackbar before its manual block, while `update` ran
  on the mode stored by the previous frame. When the mode or the switch
  reading changes between the two calls, both paths can act in one frame: the
  automatic step flips the gate UP and routes the ball, then Drop flips it
  straight back DOWN and the bin trackbar overrides the routed bin
  (`BothPathsInOneFrame`). With the same mode and reading only one path acts
  (`OnePathPerFrame`).

## Model

| member | source | states |
|---|---|---|
| `Hardware.Write` | CRecycleSort.cpp:146 | gpioWrite leaves the pin at the level written and no servo pulse changes |
| `Hardware.Servo` | CRecycleSort.cpp:152 | gpioServo leaves the pin at the pulse width commanded and no level changes |
| `Hardware.WriteKeepsOtherPins` | CRecycleSort.cpp:275-278 | a gpioWrite keeps the level of every other pin |
| `Hardware.ServoKeepsOtherPins` | CRecycleSort.cpp:272 | a gpioServo keeps the pulse width of every other pin |
| `ColorClassifier.RowSum` | CRecycleSort.cpp:117-121 | a partial row sum of one 8-bit channel lies between 0 and 255 times the columns summed |
| `ColorClassifier.WindowSum` | CRecycleSort.cpp:116-122 | the sum over whole rows lies between 0 and 255 times 145 times the rows summed |
| `ColorClassifier.NextPixel` | CRecycleSort.cpp:118-120 | adding one pixel grows the row sum by that pixel's channel, and the running window total stays at most 255 per window pixel |
| `ColorClassifier.CarriedAverage` | CRecycleSort.cpp:116-127 | 135 x 145 is exactly the divisor 19575; the previous average (at most 255) plus the window sum stays below 2^31; the average is in 0..255 and is the window's own average or one more |
| `ColorClassifier.Mean` | CRecycleSort.cpp:125-127 | the int division by 19575 of an accumulated sum yields a value in 0..255 |
| `ColorClassifier.Text` | CRecycleSort.cpp:130-142 | every colour name, including the constructor's "L", is a non-empty string |
| `ColorClassifier.FirstChar` | CRecycleSort.cpp:165 | the routing character is the first character of the colour name's string |
| `ColorClassifier.Classify` | CRecycleSort.cpp:130-142 | the label chosen is never the initial "L" and its threshold band holds the sample |
| `ColorClassifier.InBand` | CRecycleSort.cpp:130-142 | the threshold table read row by row: each label's band on its own, ignoring the order of the chain |
| `ColorClassifier.Priority` | CRecycleSort.cpp:130-142 | the order in which the chain tries the labels: No ball, White, Green, Pink, Blue, Unknown color |
| `ColorClassifier.FirstMatch` | CRecycleSort.cpp:130-142 | the index found is the first label of the order whose band holds the sample; every label before it fails |
| `ColorClassifier.ClassifyIsFirstMatch` | CRecycleSort.cpp:130-142 | the chain is the first-match reading of No ball, White, Green, Pink, Blue, Unknown color: value <= 70 is "No ball" whatever else; otherwise sat <= 68 is "White"; hue 111..119 falls to "Unknown color" |
| `BinRouter.CategoryOf` | CRecycleSort.cpp:165-177 | a first character routes exactly when it is 'W', 'G', 'P' or 'B', and the category found starts with that character |
| `BinRouter.BinOf` | CRecycleSort.cpp:166-175 | White goes to the white bin, Green to the green, Pink to the red and Blue to the blue bin, each with its Select_Bin servo width and LED tag |
| `BinRouter.ManualBin` | CRecycleSort.cpp:253-261 | bin_num 1, 2, 3, 4 selects the white, green, red, blue bin |
| `BinRouter.LedOf` | CRecycleSort.cpp:274-294 | the tag 'B', 'G', 'R' or 'W' names the blue, green, red or white LED; any other tag names none |
| `BinRouter.RoutedNames` | CRecycleSort.cpp:163-178 | exactly White, Green, Pink and Blue route, each to its own category; "L", "No ball" and "Unknown color" route nowhere; the four bins have distinct servo positions and LED tags |
| `BinRouter.ManualBinMatchesRouting` | CRecycleSort.cpp:253-261 | bin_num 1..4 selects the bin that routing uses for White, Green, Pink and Blue respectively |
| `BinRouter.SelectBinEffect` | CRecycleSort.cpp:271-272 | Select_Bin sets the bin servo to the given width and leaves every other servo command alone |
| `BinRouter.SelectBinOneHot` | CRecycleSort.cpp:274-294 | for a tag in 'B', 'G', 'R', 'W' exactly the matching LED is on and the other three colour LEDs off; for any other tag the LEDs are untouched |
| `BinRouter.SelectBinKeepsOtherPins` | CRecycleSort.cpp:271-295 | Select_Bin writes no pin other than the four colour LEDs |
| `BinRouter.RouteEffect` | CRecycleSort.cpp:165-177 | a latched first character of 'W', 'G', 'P' or 'B' calls Select_Bin with its category's bin; any other leaves the pins alone |
| `BinRouter.Tally` | CRecycleSort.cpp:165-177 | a latched first character of 'W', 'G', 'P' or 'B' increments that category's counter; any other changes nothing |
| `BinRouter.TallyCounts` | CRecycleSort.cpp:165-177 | the counter of the named category goes up by one and every other stays; the total goes up by one exactly when a category is named; nothing changes otherwise |
| `BinRouter.RouteMatchesTally` | CRecycleSort.cpp:163-178 | a bin is selected exactly when a counter goes up, and then it is that category's bin with only its LED lit |
| `GateSequencer.Toggled` | CRecycleSort.cpp:150-160 | a flip always lands on a gate position and never on the one it left |
| `GateSequencer.AutoTriggered` | CRecycleSort.cpp:145 | the automatic path runs when the mode is 2 or the switch reads 1 |
| `GateSequencer.ManualActive` | CRecycleSort.cpp:222 | the manual block runs when the mode is 0 or 1 and the switch reads 0 |
| `GateSequencer.Settled` | CRecycleSort.cpp:147-149 | more than freq clock ticks since start_tic, the integer form of elapsed_time > 1 |
| `GateSequencer.Fires` | CRecycleSort.cpp:145-149 | the automatic path flips on this tick: triggered and more than a second since start_tic |
| `GateSequencer.Flip` | CRecycleSort.cpp:150-160 | the toggle shared by the automatic path and Drop (lines 229-249): the other gate position, the latch of the current colour on the DOWN to UP flip, and the count of the latched colour on a return to UP; start_tic is not touched |
| `GateSequencer.AutoStep` | CRecycleSort.cpp:145-161 | the automatic path's state: a flip with start_tic restarted when triggered and settled, otherwise no change |
| `GateSequencer.FlipOutputs` | CRecycleSort.cpp:150-177 | the pins after an automatic flip: the gate command on pin ON_OFF, then the latched colour's routing on a return to UP |
| `GateSequencer.AutoOutputs` | CRecycleSort.cpp:145-178 | the pins after the automatic path: yellow LED on when triggered, then the flip's outputs once settled |
| `GateSequencer.DrawStep` | CRecycleSort.cpp:214-250 | draw's state: the optional counter reset, then Drop's flip in manual mode 1 |
| `GateSequencer.DrawOutputs` | CRecycleSort.cpp:222-262 | draw's pins: in manual mode yellow LED off; in mode 1 Drop's gate command on PIN_SERVO1 and then the trackbar's bin |
| `GateSequencer.ResetCounters` | CRecycleSort.cpp:214-219 | Reset Counter zeroes the four counters and keeps the gate position, the latch and the settle reference |
| `GateSequencer.SettledExact` | CRecycleSort.cpp:147-149 | over exact reals, (now - start_tic) / freq > 1 holds exactly when more than freq ticks have passed |
| `GateSequencer.AutoStepGuard` | CRecycleSort.cpp:145-149 | the automatic path changes the gate state if and only if it is triggered and settled; otherwise angle, latch, start_tic and counters are unchanged; the angle stays a gate position |
| `GateSequencer.FlipAndLatch` | CRecycleSort.cpp:150-161 | a settled trigger flips the gate exactly once to the other position and restarts start_tic; only the DOWN to UP flip latches the current colour |
| `GateSequencer.CountOnReturn` | CRecycleSort.cpp:163-178 | a counter changes only on a return to UP with White, Green, Pink or Blue just latched: that counter gains one, the total gains one, every other counter is unchanged |
| `GateSequencer.RouteOnReturn` | CRecycleSort.cpp:145-178 | on that tick the bin servo goes to the latched colour's bin with only its LED lit; on every other tick the bin servo and colour LEDs keep their last command |
| `GateSequencer.RetriggerIgnored` | CRecycleSort.cpp:147-161 | a second trigger within a second of a flip changes nothing |
| `GateSequencer.DropMatchesAuto` | CRecycleSort.cpp:227-250 | the Drop button performs the automatic path's flip, latch and count and leaves start_tic where it was |
| `GateSequencer.ModesExclusive` | CRecycleSort.cpp:222 | the manual guard and the automatic trigger never hold together; with the mode in 0..2 and a switch reading of 0 or 1 exactly one holds |
| `GateSequencer.OnePathPerFrame` | CRecycleSort.cpp:145 | with the same mode and switch reading in update and draw, a triggered automatic step leaves draw's manual block nothing to do beyond the optional reset, and an untriggered one changes nothing |
| `GateSequencer.BothPathsInOneFrame` | CRecycleSort.cpp:222 | when the mode moves from 2 to 1, or the reading from 1 to 0, between update and draw, a settled DOWN gate is flipped UP with the white ball counted and routed to the white bin, then flipped back DOWN by Drop in the same frame, and the bin servo moves on to the trackbar's bin |
| `GateSequencer.FrameCountsAtMostOne` | CRecycleSort.cpp:145-250 | a whole frame without Reset Counter, update's automatic step followed by draw's Drop, never lowers a counter and raises the total by at most one, even when both flip the gate |
| `GateSequencer.ManualBinFollowsTrackbar` | CRecycleSort.cpp:222-262 | in manual mode 1 the bin servo and LEDs follow bin_num whatever was classified or dropped, and the yellow LED is off |
| `GateSequencer.Step` | CRecycleSort.cpp:145-161 | one update() call's automatic path on the colour, trigger and clock value of that tick |
| `GateSequencer.Moves` | CRecycleSort.cpp:145-149 | a tick of the run on which the automatic path fires |
| `GateSequencer.Run` | CRecycleSort.cpp:311-320 | the gate state after successive update() calls, one per tick |
| `GateSequencer.StepOutputs` | CRecycleSort.cpp:145-178 | the pins after one update() call's automatic path |
| `GateSequencer.RunOutputs` | CRecycleSort.cpp:311-320 | the pins after successive update() calls, one per tick |
| `GateSequencer.Transitions` | CRecycleSort.cpp:149-161 | a run of ticks flips the gate at most once per tick |
| `GateSequencer.Alternation` | CRecycleSort.cpp:150-161 | after n flips the gate is where it started when n is even and at the other position when n is odd; starting UP it is UP exactly when n is even |
| `GateSequencer.OneCountPerCycle` | CRecycleSort.cpp:163-178 | over a run counters never decrease, and the total grows by at most one per DOWN-UP cycle |
| `GateSequencer.IdleRunChangesNothing` | CRecycleSort.cpp:145 | any run of untriggered ticks leaves the gate state unchanged and flips nothing |
| `GateSequencer.WhiteBallCycle` | CRecycleSort.cpp:130-178 | a white ball from power-up: trigger, two idle ticks, trigger; two flips, gate back UP with "White" latched, the white counter at one and the others at zero, the bin servo at the white bin and only the white LED lit |
| `Controller.RecycleSort.constructor` | CRecycleSort.cpp:72-87 | gate UP, both colour names "L", mode 0, bin 1, accumulators and counters zero, do_exit false; freq and start_tic as run() sets them at lines 308-309; temp_angle at UP and elapsed_time at 0 are also initialised, which the source leaves indeterminate |
| `Controller.RecycleSort.GpioWrite` | CRecycleSort.cpp:146 | the pins become the Write of the old pins |
| `Controller.RecycleSort.GpioServo` | CRecycleSort.cpp:152 | the pins become the Servo of the old pins |
| `Controller.RecycleSort.AccumulateRow` | CRecycleSort.cpp:117-121 | the inner loop adds row i's window sum of each channel to its accumulator without overflow |
| `Controller.RecycleSort.SumWindow` | CRecycleSort.cpp:116-122 | the nested loops add the window sums to the uncleared accumulators |
| `Controller.RecycleSort.AccumulateWindow` | CRecycleSort.cpp:116-127 | each new average is (previous average + window sum) / 19575, lies in 0..255, and is the window's own average or one more |
| `Controller.RecycleSort.ToggleGate` | CRecycleSort.cpp:150-160 | the gate moves to the other position on the given pin and temp_angle equals the new angle; only the DOWN to UP flip latches color_name; that temp_angle is written before angle copies it is checked by a ghost assertion in the body, not stated by the contract |
| `Controller.RecycleSort.SelectBin` | CRecycleSort.cpp:271-295 | the pins become SelectBinEffect of the old pins |
| `Controller.RecycleSort.SortLatched` | CRecycleSort.cpp:165-177 | the counters become the Tally of the latched first character, and the pins its routing effect |
| `Controller.RecycleSort.CountLatched` | CRecycleSort.cpp:239-249 | the counters become the Tally of the latched first character; no pin changes |
| `Controller.RecycleSort.Update` | CRecycleSort.cpp:111-181 | the averages as AccumulateWindow states; color_name is their classification; the gate state and pins are those of AutoStep and AutoOutputs; elapsed_time is measured only when triggered |
| `Controller.RecycleSort.AutoControl` | CRecycleSort.cpp:145-180 | the gate state becomes AutoStep and the pins AutoOutputs of the old ones |
| `Controller.RecycleSort.AutoFlip` | CRecycleSort.cpp:150-178 | the gate state becomes the flip with start_tic restarted, and the pins FlipOutputs |
| `Controller.RecycleSort.Draw` | CRecycleSort.cpp:196-262 | mode and bin are the trackbar values; Exit sets do_exit; the gate state becomes DrawStep and the pins DrawOutputs of the old ones |
| `Controller.RecycleSort.ReadWidgets` | CRecycleSort.cpp:214-219 | the trackbars are stored, Exit sets do_exit, Reset Counter zeroes the counters |
| `Controller.RecycleSort.ManualControl` | CRecycleSort.cpp:222-262 | in mode 1 with the switch at 0 and Drop pressed the gate state is flipped, otherwise it is kept; the pins become DrawOutputs |
| `Controller.RecycleSort.DropGate` | CRecycleSort.cpp:227-250 | the gate state becomes the flip of the old one, with the gate commanded on PIN_SERVO1 |
| `Controller.RecycleSort.SelectTrackbarBin` | CRecycleSort.cpp:253-261 | the pins become SelectBinEffect of bin_num's bin |
| `Controller.RecycleSort.Cycle` | CRecycleSort.cpp:316-320 | an empty frame changes no field; otherwise the averages, color_name, elapsed_time, trackbars and do_exit as Update and Draw state, and the gate state and pins of AutoStep then DrawStep, update reading the previous mode and draw the new one; with the same mode and reading in both, only the path the guards select acts; without Reset Counter no counter goes down and the total rises by at most one; freq is kept |

## Left out

- HSV conversion (`cv::cvtColor`) and `cv::Mat` access are foreign OpenCV calls. The frame arrives as an already converted `array2` of 8-bit (h, s, v) pixels.
- The camera, `waitKey`, the 'q' and `do_exit` loop condition and `gpioTerminate` are I/O. `Cycle` models one pass of the loop body; the loop itself is not modelled.
- `Initialize_gpio` (pin modes and the `gpioInitialise` error message) is hardware setup with no effect on the model's state.
- The raw pigpio calls are replaced by the `Gpio` maps. `gpioRead(ON_OFF)` becomes an integer parameter.
- The GUI (window, labels, rectangle, counter texts, `cvui::update`, `imshow`) is not modelled. Its effects enter as parameters: the two trackbar values, already in 0..2 and 1..4, and the three button presses.
- `cv::getTickCount` returns a 64-bit integer and `getTickFrequency` a double; both are stored in the double fields `start_tic` and `freq`. Ticks are unbounded integers here, `freq` is a positive integer, and `elapsed_time` is an exact real quotient. Double rounding and the 64-bit range are not modelled.
- `update` reads the clock twice, once for `elapsed_time` (line 147) and once for the new `start_tic` (line 161). The model takes one clock value `now` for both, so the ticks between the two reads are not modelled.
- `Update` and `Cycle` require a non-empty frame to cover rows 0..389 and columns 0..349. The source indexes a smaller non-empty frame out of bounds, which is undefined behaviour and is not modelled.
- Run: the run lemmas (`Alternation`, `OneCountPerCycle`, `IdleRunChangesNothing`) step only update()'s automatic path; draw's Drop enters through the one-frame statements `FrameCountsAtMostOne` and `Cycle`, not through a run of frames.
- The counters are unbounded naturals, so the `int` overflow after 2^31 balls is not modelled.
- The empty destructor is not modelled.
- `frame`, `frame_HSV` and `gui_position` are OpenCV and GUI objects and are not fields of the model.
- CRecycleSort.h contains only declarations. It supplies the field list and no behaviour.
