/** Colour estimation: the averaged hue, saturation and value over the fixed
    inspection window of an HSV frame, and the threshold table that turns an
    average into one colour name. */
module ColorClassifier {

  /** The C++ `int` of the pixel accumulators. */
  newtype int32 = x: int | -0x8000_0000 <= x < 0x8000_0000

  /** One 8-bit channel of an HSV pixel (cv::Vec3b). */
  type byte = x: int | 0 <= x < 256

  datatype Pixel = Pixel(hue: byte, sat: byte, value: byte)

  datatype Channel = Hue | Sat | Value

  function Component(p: Pixel, k: Channel): byte
  {
    match k
    case Hue => p.hue
    case Sat => p.sat
    case Value => p.value
  }

  // The inspection window: rows 255..389 and columns 205..349 of the frame.
  const ROW_BEGIN := 255
  const ROW_END := 390
  const COL_BEGIN := 205
  const COL_END := 350
  /** The divisor used for the average: the number of pixels in the window. */
  const WINDOW_SIZE := 19575

  /** Sum of channel k over columns COL_BEGIN .. j-1 of row i. */
  function RowSum(f: array2<Pixel>, k: Channel, i: int, j: int): (r: int)
    requires 0 <= i < f.Length0 && COL_BEGIN <= j <= f.Length1
    reads f
    ensures 0 <= r <= 255 * (j - COL_BEGIN)
    decreases j
  {
    if j == COL_BEGIN then 0 else RowSum(f, k, i, j - 1) + Component(f[i, j - 1], k)
  }

  /** Sum of channel k over the window's columns in rows ROW_BEGIN .. i-1. */
  function WindowSum(f: array2<Pixel>, k: Channel, i: int): (r: int)
    requires ROW_BEGIN <= i <= f.Length0 && COL_END <= f.Length1
    reads f
    ensures 0 <= r <= 255 * (COL_END - COL_BEGIN) * (i - ROW_BEGIN)
    decreases i
  {
    if i == ROW_BEGIN then 0 else WindowSum(f, k, i - 1) + RowSum(f, k, i - 1, COL_END)
  }

  /** One more pixel of row i: the partial sum grows by that pixel's channel,
      and the running total of the window stays below 255 per pixel. */
  lemma NextPixel(f: array2<Pixel>, k: Channel, i: int, j: int)
    requires ROW_BEGIN <= i < ROW_END <= f.Length0 && COL_BEGIN <= j < COL_END <= f.Length1
    ensures RowSum(f, k, i, j + 1) == RowSum(f, k, i, j) + Component(f[i, j], k)
    ensures WindowSum(f, k, i) + RowSum(f, k, i, j + 1) <= 255 * WINDOW_SIZE
    ensures i + 1 <= f.Length0
  {
    assert WindowSum(f, k, i) <= 255 * (COL_END - COL_BEGIN) * (ROW_END - 1 - ROW_BEGIN) by {
      assert i - ROW_BEGIN <= ROW_END - 1 - ROW_BEGIN;
    }
  }

  /** The divisor is exactly the window's pixel count, and the accumulator,
      which starts from the previous tick's average instead of zero, neither
      overflows a 32-bit int nor yields an average above 255. Carrying the old
      average over shifts the result by at most one above the window's own
      average. */
  lemma CarriedAverage(previous: int, sum: int)
    requires 0 <= previous <= 255
    requires 0 <= sum <= 255 * WINDOW_SIZE
    ensures (ROW_END - ROW_BEGIN) * (COL_END - COL_BEGIN) == WINDOW_SIZE
    ensures previous + sum <= 255 * (WINDOW_SIZE + 1) < 0x8000_0000
    ensures 0 <= (previous + sum) / WINDOW_SIZE <= 255
    ensures sum / WINDOW_SIZE <= (previous + sum) / WINDOW_SIZE <= sum / WINDOW_SIZE + 1
  {
    var q, m := sum / WINDOW_SIZE, sum % WINDOW_SIZE;
    assert sum == q * WINDOW_SIZE + m && 0 <= m < WINDOW_SIZE;
    assert q <= 255;
    var q', m' := (previous + sum) / WINDOW_SIZE, (previous + sum) % WINDOW_SIZE;
    assert previous + sum == q' * WINDOW_SIZE + m' && 0 <= m' < WINDOW_SIZE;
    assert q <= q' <= q + 1;
  }

  /** The integer division that turns an accumulated sum into the average. */
  function Mean(total: int32): (m: int32)
    requires 0 <= total as int <= 255 * (WINDOW_SIZE + 1)
    ensures m as int == total as int / WINDOW_SIZE
    ensures 0 <= m <= 255
  {
    total / WINDOW_SIZE as int32
  }

  /** The string held by color_name and previous_color. Limbo is the "L" the
      constructor stores before any frame is classified. */
  datatype ColorName = Limbo | NoBall | White | Green | Pink | Blue | UnknownColor

  function Text(c: ColorName): (s: string)
    ensures |s| > 0
  {
    match c
    case Limbo => "L"
    case NoBall => "No ball"
    case White => "White"
    case Green => "Green"
    case Pink => "Pink"
    case Blue => "Blue"
    case UnknownColor => "Unknown color"
  }

  /** previous_color[0], the character the router switches on. */
  function FirstChar(c: ColorName): (ch: char)
    ensures ch == Text(c)[0]
  {
    match c
    case Limbo => 'L'
    case NoBall => 'N'
    case White => 'W'
    case Green => 'G'
    case Pink => 'P'
    case Blue => 'B'
    case UnknownColor => 'U'
  }

  /** The colour decision on an averaged sample, first match wins. */
  function Classify(hue: int, sat: int, value: int): (r: ColorName)
    ensures r != Limbo
    ensures InBand(r, hue, sat, value)
  {
    if 0 <= value <= 70 then NoBall
    else if 0 <= sat <= 68 then White
    else if 45 <= hue <= 74 then Green
    else if 120 <= hue <= 165 then Pink
    else if 75 <= hue <= 110 then Blue
    else UnknownColor
  }

  /** The threshold table, one row per label, without regard to priority. */
  predicate InBand(c: ColorName, hue: int, sat: int, value: int)
  {
    match c
    case Limbo => false
    case NoBall => 0 <= value <= 70
    case White => 0 <= sat <= 68
    case Green => 45 <= hue <= 74
    case Pink => 120 <= hue <= 165
    case Blue => 75 <= hue <= 110
    case UnknownColor => true
  }

  /** The order in which the table's rows are tried. */
  const Priority: seq<ColorName> := [NoBall, White, Green, Pink, Blue, UnknownColor]

  /** Index of the first label of `order` whose band holds the sample, or |order|. */
  function FirstMatch(order: seq<ColorName>, hue: int, sat: int, value: int): (k: nat)
    ensures k <= |order|
    ensures k < |order| ==> InBand(order[k], hue, sat, value)
    ensures forall j :: 0 <= j < k ==> !InBand(order[j], hue, sat, value)
    decreases |order|
  {
    if order == [] then 0
    else if InBand(order[0], hue, sat, value) then 0
    else 1 + FirstMatch(order[1..], hue, sat, value)
  }

  /** Classify is the first-match reading of the table in Priority order: the
      label it returns is in band and every label tried before it is not. So a
      dark sample is "No ball" whatever its hue and saturation, a pale one is
      "White" whatever its hue, and hue 111..119 falls to "Unknown color". */
  lemma ClassifyIsFirstMatch(hue: int, sat: int, value: int)
    ensures FirstMatch(Priority, hue, sat, value) < |Priority|
    ensures Classify(hue, sat, value) == Priority[FirstMatch(Priority, hue, sat, value)]
  {
    var k := FirstMatch(Priority, hue, sat, value);
    assert InBand(Priority[5], hue, sat, value);
    var r := Classify(hue, sat, value);
    var i :| 0 <= i < |Priority| && Priority[i] == r;
    assert k <= i;
  }
}
