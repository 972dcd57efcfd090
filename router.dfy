/** Bin routing: which first character of a latched colour name selects which
    bin, what a Select_Bin call does to the bin servo and the four colour LEDs,
    and the four per-colour counters. */
module BinRouter {
  import opened Hardware
  import opened ColorClassifier

  /** The four sortable categories, in the order of the source's if chains. */
  datatype Category = WhiteBall | GreenBall | PinkBall | BlueBall

  /** The first character of the colour name that the router tests for. */
  function Head(cat: Category): char
  {
    match cat
    case WhiteBall => 'W'
    case GreenBall => 'G'
    case PinkBall => 'P'
    case BlueBall => 'B'
  }

  /** The router's test on previous_color[0]: 'W', 'G', 'P', 'B' or nothing. */
  function CategoryOf(first: char): (r: Option<Category>)
    ensures r.Some? <==> first in {'W', 'G', 'P', 'B'}
    ensures r.Some? ==> Head(r.value) == first
  {
    if first == 'W' then Some(WhiteBall)
    else if first == 'G' then Some(GreenBall)
    else if first == 'P' then Some(PinkBall)
    else if first == 'B' then Some(BlueBall)
    else None
  }

  datatype Option<T> = None | Some(value: T)

  /** The arguments of a Select_Bin call: the bin servo's pulse width and the
      LED tag ('W', 'G', 'R', 'B'). */
  datatype Bin = Bin(angle: int, colorBin: char)

  /** The bin each category is routed to; pink balls go to the red bin. */
  function BinOf(cat: Category): Bin
  {
    match cat
    case WhiteBall => Bin(ANGLE_BIN_WHITE, 'W')
    case GreenBall => Bin(ANGLE_BIN_GREEN, 'G')
    case PinkBall => Bin(ANGLE_BIN_RED, 'R')
    case BlueBall => Bin(ANGLE_BIN_BLUE, 'B')
  }

  /** Exactly the colour names "White", "Green", "Pink" and "Blue" are routed,
      each to its own bin with a distinct servo position and LED tag; the
      initial "L", "No ball" and "Unknown color" route nowhere. */
  lemma RoutedNames(c: ColorName)
    ensures CategoryOf(FirstChar(c)).Some? <==> c in {White, Green, Pink, Blue}
    ensures c == White ==> CategoryOf(FirstChar(c)) == Some(WhiteBall)
    ensures c == Green ==> CategoryOf(FirstChar(c)) == Some(GreenBall)
    ensures c == Pink ==> CategoryOf(FirstChar(c)) == Some(PinkBall)
    ensures c == Blue ==> CategoryOf(FirstChar(c)) == Some(BlueBall)
    ensures forall a: Category, b: Category :: a != b ==> BinOf(a).angle != BinOf(b).angle && BinOf(a).colorBin != BinOf(b).colorBin
  {
  }

  /** The manual bin trackbar: bin_num 1..4 picks the white, green, red or blue
      bin (the same bins the router uses for the four categories). */
  function ManualBin(binNum: int): Bin
    requires 1 <= binNum <= 4
  {
    if binNum == 1 then Bin(ANGLE_BIN_WHITE, 'W')
    else if binNum == 2 then Bin(ANGLE_BIN_GREEN, 'G')
    else if binNum == 3 then Bin(ANGLE_BIN_RED, 'R')
    else Bin(ANGLE_BIN_BLUE, 'B')
  }

  /** Trackbar position k selects the bin the router uses for the k-th
      category, in the order White, Green, Pink, Blue. */
  lemma ManualBinMatchesRouting(binNum: int)
    requires 1 <= binNum <= 4
    ensures ManualBin(binNum) == BinOf([WhiteBall, GreenBall, PinkBall, BlueBall][binNum - 1])
  {
  }

  /** The LED that a Select_Bin tag lights. */
  function LedOf(colorBin: char): Option<int>
  {
    if colorBin == 'B' then Some(LED_BLUE)
    else if colorBin == 'G' then Some(LED_GREEN)
    else if colorBin == 'R' then Some(LED_RED)
    else if colorBin == 'W' then Some(LED_WHITE)
    else None
  }

  predicate IsColorLed(pin: int)
  {
    pin == LED_BLUE || pin == LED_GREEN || pin == LED_RED || pin == LED_WHITE
  }

  /** Of the four colour LEDs, `pin` is on and the other three are off. */
  predicate OnlyLit(levels: map<int, int>, pin: int)
  {
    LED_BLUE in levels && LED_GREEN in levels && LED_RED in levels && LED_WHITE in levels &&
    levels[LED_BLUE] == (if pin == LED_BLUE then 1 else 0) &&
    levels[LED_GREEN] == (if pin == LED_GREEN then 1 else 0) &&
    levels[LED_RED] == (if pin == LED_RED then 1 else 0) &&
    levels[LED_WHITE] == (if pin == LED_WHITE then 1 else 0)
  }

  /** What Select_Bin(angle, colorBin) leaves on the pins: the bin servo at
      `angle` whatever the tag, and the four colour LEDs written for the tags
      'B', 'G', 'R' and 'W' (SelectBinOneHot, SelectBinKeepsOtherPins). */
  function SelectBinEffect(g: Gpio, angle: int, colorBin: char): (r: Gpio)
    ensures r.pulses == g.pulses[PIN_SERVO2 := angle]
  {
    var g := Servo(g, PIN_SERVO2, angle);
    if colorBin == 'B' then
      Write(Write(Write(Write(g, LED_BLUE, 1), LED_GREEN, 0), LED_RED, 0), LED_WHITE, 0)
    else if colorBin == 'G' then
      Write(Write(Write(Write(g, LED_BLUE, 0), LED_GREEN, 1), LED_RED, 0), LED_WHITE, 0)
    else if colorBin == 'R' then
      Write(Write(Write(Write(g, LED_BLUE, 0), LED_GREEN, 0), LED_RED, 1), LED_WHITE, 0)
    else if colorBin == 'W' then
      Write(Write(Write(Write(g, LED_BLUE, 0), LED_GREEN, 0), LED_RED, 0), LED_WHITE, 1)
    else g
  }

  /** Select_Bin is one-hot: for a tag in 'B', 'G', 'R', 'W' exactly the
      matching colour LED is on and the other three are off; for any other tag
      the LEDs stay as they were. */
  lemma SelectBinOneHot(g: Gpio, angle: int, colorBin: char)
    ensures colorBin in {'B', 'G', 'R', 'W'} <==> LedOf(colorBin).Some?
    ensures LedOf(colorBin).Some? ==>
      IsColorLed(LedOf(colorBin).value) && OnlyLit(SelectBinEffect(g, angle, colorBin).levels, LedOf(colorBin).value)
    ensures LedOf(colorBin).None? ==> SelectBinEffect(g, angle, colorBin).levels == g.levels
  {
  }

  /** Select_Bin drives only the bin servo and the four colour LEDs: every
      other pin keeps its level. */
  lemma SelectBinKeepsOtherPins(g: Gpio, angle: int, colorBin: char)
    ensures forall p :: p in g.levels && !IsColorLed(p) ==>
      p in SelectBinEffect(g, angle, colorBin).levels &&
      SelectBinEffect(g, angle, colorBin).levels[p] == g.levels[p]
  {
  }

  /** What routing a latched name with this first character does to the pins. */
  function RouteEffect(g: Gpio, first: char): Gpio
  {
    match CategoryOf(first)
    case Some(cat) => SelectBinEffect(g, BinOf(cat).angle, BinOf(cat).colorBin)
    case None => g
  }

  /** The counters White, Green, Pink and Blue. */
  datatype Counters = Counters(white: nat, green: nat, pink: nat, blue: nat)

  const Zero := Counters(0, 0, 0, 0)

  function Count(c: Counters, cat: Category): nat
  {
    match cat
    case WhiteBall => c.white
    case GreenBall => c.green
    case PinkBall => c.pink
    case BlueBall => c.blue
  }

  function Total(c: Counters): nat
  {
    c.white + c.green + c.pink + c.blue
  }

  /** The counter bump that accompanies routing (see TallyCounts). */
  function Tally(c: Counters, first: char): Counters
  {
    if first == 'W' then c.(white := c.white + 1)
    else if first == 'G' then c.(green := c.green + 1)
    else if first == 'P' then c.(pink := c.pink + 1)
    else if first == 'B' then c.(blue := c.blue + 1)
    else c
  }

  /** Tally bumps the counter of the named category by one and keeps the
      others; a first character that names no category changes nothing. */
  lemma TallyCounts(c: Counters, first: char)
    ensures forall cat :: Count(Tally(c, first), cat) == Count(c, cat) + (if CategoryOf(first) == Some(cat) then 1 else 0)
    ensures Tally(c, first) == c <==> CategoryOf(first).None?
    ensures Total(Tally(c, first)) == Total(c) + (if CategoryOf(first).Some? then 1 else 0)
  {
  }

  /** Routing and counting go together: the bin servo is commanded exactly when
      a counter goes up, and then to the bin of that counter's category with
      only that bin's LED lit. */
  lemma RouteMatchesTally(g: Gpio, c: Counters, first: char)
    ensures RouteEffect(g, first) != g || Tally(c, first) != c ==> CategoryOf(first).Some?
    ensures CategoryOf(first).Some? ==>
      var b := BinOf(CategoryOf(first).value);
      Tally(c, first) != c &&
      RouteEffect(g, first).pulses[PIN_SERVO2] == b.angle &&
      OnlyLit(RouteEffect(g, first).levels, LedOf(b.colorBin).value)
  {
  }
}
