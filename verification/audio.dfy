/**
 The per-frame audio readout of a track: the analyser fills a byte buffer
 of frequency bins and `update` folds it into the bins' average, which
 drives bar heights and colour.
 */
module Audio {

  /** One frequency bin as the analyser reports it (an element of a `Uint8Array`). */
  type Byte = x: int | 0 <= x < 256

  /** The default divisor `y` of a bar renderer's vertical scale. */
  const DefaultY: real := 2500.0

  function Sum(bins: seq<Byte>): int {
    if bins == [] then 0 else Sum(bins[..|bins| - 1]) + bins[|bins| - 1]
  }

  /** The arithmetic mean of the bins; an empty buffer averages to 0. */
  function Mean(bins: seq<Byte>): real {
    if |bins| == 0 then 0.0 else Sum(bins) as real / |bins| as real
  }

  lemma {:induction false} SumBounds(bins: seq<Byte>)
    ensures 0 <= Sum(bins) <= 255 * |bins|
  {
    if bins != [] {
      SumBounds(bins[..|bins| - 1]);
    }
  }

  /** Byte bins average to a value in [0, 255]. */
  lemma MeanBounds(bins: seq<Byte>)
    ensures 0.0 <= Mean(bins) <= 255.0
  {
    SumBounds(bins);
    if |bins| > 0 {
      var n := |bins| as real;
      assert Sum(bins) as real <= 255.0 * n;
    }
  }

  /** The bin buffer after a read, carrying the average stored in its `avg` property. */
  datatype Analysis = Analysis(bins: seq<Byte>, avg: real)

  /**
   `update`: `reduce((prev, cur) => prev + cur / length, 0)` over the freshly
   read bins. The returned average is also stored on the buffer.
   */
  method Update(bins: seq<Byte>) returns (a: Analysis)
    ensures a.bins == bins
    ensures a.avg == Mean(bins)
    ensures 0.0 <= a.avg <= 255.0
  {
    var n := |bins| as real;
    var acc: real := 0.0;
    var k := 0;
    while k < |bins|
      invariant 0 <= k <= |bins|
      invariant acc * n == Sum(bins[..k]) as real
      invariant k == 0 ==> acc == 0.0
    {
      assert bins[..k + 1][..k] == bins[..k];
      acc := acc + bins[k] as real / n;
      k := k + 1;
    }
    assert bins[..|bins|] == bins;
    MeanBounds(bins);
    a := Analysis(bins, acc);
  }

  /** A bar's vertical scale `(bin / y) * 10` with the default `y`. */
  function BarScale(bin: Byte): (r: real)
    ensures 0.0 <= r <= 255.0 / 250.0
  {
    (bin as real / DefaultY) * 10.0
  }

  lemma BarScaleMonotone(a: Byte, b: Byte)
    requires a < b
    ensures BarScale(a) < BarScale(b)
  {
  }

  /** The bar variant's hue `avg / 500`. */
  function BarHue(avg: real): real {
    avg / 500.0
  }

  /** A byte average gives a bar hue in [0, 0.51]. */
  lemma BarHueBounds(bins: seq<Byte>)
    ensures 0.0 <= BarHue(Mean(bins)) <= 0.51
  {
    MeanBounds(bins);
  }

  /** JavaScript `x % 1`: the fractional part, truncating toward zero. */
  function FracJs(x: real): (r: real)
    ensures -1.0 < r < 1.0
    ensures x >= 0.0 ==> 0.0 <= r
  {
    if x >= 0.0 then x - x.Floor as real else x + (-x).Floor as real
  }

  /** The line variant's hue `(avg / 500) % 1`. */
  function LineHue(avg: real): real {
    FracJs(avg / 500.0)
  }

  /** For byte averages the wrap-around of the line variant never applies: both variants colour alike. */
  lemma LineHueAgrees(bins: seq<Byte>)
    ensures LineHue(Mean(bins)) == BarHue(Mean(bins))
  {
    MeanBounds(bins);
    var h := Mean(bins) / 500.0;
    assert 0.0 <= h < 1.0;
    assert h.Floor == 0;
  }
}
