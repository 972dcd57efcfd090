/** The controller's board: the GPIO pin numbers and servo pulse widths it uses
    (the #define block of CRecycleSort.cpp), and an abstract view of what the
    pigpio calls leave behind on the pins. */
module Hardware {

  // GPIO pins
  const ON_OFF := 17
  const PIN_SERVO1 := 12
  const PIN_SERVO2 := 26

  const LED_BLUE := 16
  const LED_GREEN := 20
  const LED_RED := 21
  const LED_WHITE := 24
  const LED_YELLOW := 23

  // Feeder gate ("bucket") servo pulse widths
  const SERVO_BUCKET_UP := 1200
  const SERVO_BUCKET_DOWN := 1600

  // Bin selector servo pulse widths
  const ANGLE_BIN_WHITE := 1000
  const ANGLE_BIN_GREEN := 1250
  const ANGLE_BIN_RED := 1500
  const ANGLE_BIN_BLUE := 1750

  /** The last level written to each output pin (gpioWrite) and the last pulse
      width commanded on each servo pin (gpioServo). The controller reads
      nothing back from the actuators, so this is all that it changes. */
  datatype Gpio = Gpio(levels: map<int, int>, pulses: map<int, int>)

  /** gpioWrite(pin, level) */
  function Write(g: Gpio, pin: int, level: int): (r: Gpio)
    ensures pin in r.levels && r.levels[pin] == level
    ensures r.pulses == g.pulses
  {
    g.(levels := g.levels[pin := level])
  }

  /** gpioServo(pin, width) */
  function Servo(g: Gpio, pin: int, width: int): (r: Gpio)
    ensures pin in r.pulses && r.pulses[pin] == width
    ensures r.levels == g.levels
  {
    g.(pulses := g.pulses[pin := width])
  }

  /** A write touches one pin: every other level is kept. */
  lemma WriteKeepsOtherPins(g: Gpio, pin: int, level: int)
    ensures forall p :: p in g.levels && p != pin ==>
      p in Write(g, pin, level).levels && Write(g, pin, level).levels[p] == g.levels[p]
  {
  }

  /** A servo command touches one pin: every other pulse width is kept. */
  lemma ServoKeepsOtherPins(g: Gpio, pin: int, width: int)
    ensures forall p :: p in g.pulses && p != pin ==>
      p in Servo(g, pin, width).pulses && Servo(g, pin, width).pulses[p] == g.pulses[p]
  {
  }
}
