/** Dividing the band energies out of an interleaved spectrum (normalise_bands), multiplying
    them back in (denormalise_bands), and renormalise_bands. Both directions visit channel by
    channel, band by band, bin by bin, and write a·src·g at every position of the band, where
    `a` is a constant scaling and `g` the band's gain; the positions above the last coded band
    are then cleared. */
module Scaling {
  import opened Modes
  import opened Energy
  import opened Padding

  /** Bin `j` lies in energy band `i`. */
  predicate InBand(m: Mode, i: int, j: int)
    requires ValidBands(m)
  {
    0 <= i < m.nbEBands && BandStart(m, i) <= j < BandStart(m, i + 1)
  }

  /** The positions of a bin of band `i` and of the band's energy are inside their buffers. */
  lemma InBandIdx(m: Mode, i: int, j: int, c: int)
    requires ValidBands(m) && InBand(m, i, j) && 0 <= c < m.nbChannels
    ensures 0 <= Idx(j, c, m.nbChannels) < SpectrumLength(m)
    ensures 0 <= Idx(i, c, m.nbChannels) < Mul(m.nbEBands, m.nbChannels)
  {
    BandInSpectrum(m, i);
    IdxRange(j, c, m.nbChannels, BandStart(m, i), BandStart(m, i + 1));
    MulMono(0, BandStart(m, i), m.nbChannels);
    IdxRange(i, c, m.nbChannels, 0, m.nbEBands);
  }

  /** A bin lies in at most one band. */
  lemma OtherBand(m: Mode, i: int, i': int, j: int)
    requires ValidBands(m) && InBand(m, i, j) && 0 <= i' < m.nbEBands && i' != i
    ensures !InBand(m, i', j)
  {
    ScaledOrder(m.eBands, m.nbMdctBlocks);
  }

  /** The value written at every position of a band: a·v·g. */
  function Scaled(a: real, v: real, g: real): real {
    a * v * g
  }

  // ---------------------------------------------------------------------------------------
  // One band of one channel: every C-th position, written in increasing order.

  /** `x` with every C-th position from `p` up to `end` replaced by a·s·g. */
  function FillStride(x: seq<real>, s: seq<real>, p: int, end: int, C: int, a: real, g: real): (r: seq<real>)
    requires 0 <= p && 1 <= C && end <= |x| && end <= |s|
    ensures |r| == |x|
    decreases end - p
  {
    if p >= end then x
    else FillStride(x[p := Scaled(a, s[p], g)], s, p + C, end, C, a, g)
  }

  lemma FillStrideStep(x: seq<real>, s: seq<real>, p: int, end: int, C: int, a: real, g: real)
    requires 0 <= p < end && 1 <= C && end <= |x| && end <= |s|
    ensures FillStride(x, s, p, end, C, a, g) == FillStride(x[p := Scaled(a, s[p], g)], s, p + C, end, C, a, g)
  {
  }

  /** Positions before `p` and from `end` on are left alone. */
  lemma {:induction false} FillStrideOutside(x: seq<real>, s: seq<real>, p: int, end: int, C: int, a: real, g: real, k: int)
    requires 0 <= p && 1 <= C && end <= |x| && end <= |s| && 0 <= k < |x| && (k < p || end <= k)
    ensures FillStride(x, s, p, end, C, a, g)[k] == x[k]
    decreases end - p
  {
    if p < end {
      FillStrideOutside(x[p := Scaled(a, s[p], g)], s, p + C, end, C, a, g, k);
    }
  }

  /** Filling channel `c` of bins `[lo, hi)` sets bin `j` of that channel to a·s·g. */
  lemma {:induction false} FillStrideHit(x: seq<real>, s: seq<real>, lo: int, hi: int, c: int, C: int, a: real, g: real, j: int)
    requires 0 <= lo <= j < hi && 0 <= c < C && Mul(hi, C) <= |x| && Mul(hi, C) <= |s|
    ensures (IdxRange(j, c, C, lo, hi); MulNonNegative(lo, C);
      FillStride(x, s, Idx(lo, c, C), Mul(hi, C), C, a, g)[Idx(j, c, C)] == Scaled(a, s[Idx(j, c, C)], g))
    decreases j - lo
  {
    IdxRange(j, c, C, lo, hi);
    MulNonNegative(lo, C);
    IdxRange(lo, c, C, lo, hi);
    var x' := x[Idx(lo, c, C) := Scaled(a, s[Idx(lo, c, C)], g)];
    FillStrideStep(x, s, Idx(lo, c, C), Mul(hi, C), C, a, g);
    IdxNext(lo, c, C);
    if j == lo {
      FillStrideOutside(x', s, Idx(lo + 1, c, C), Mul(hi, C), C, a, g, Idx(j, c, C));
    } else {
      FillStrideHit(x', s, lo + 1, hi, c, C, a, g, j);
    }
  }

  /** Filling channel `c` of bins `[lo, hi)` leaves every other channel and every bin outside
      `[lo, hi)` alone. */
  lemma {:induction false} FillStrideMiss(x: seq<real>, s: seq<real>, lo: int, hi: int, c: int, C: int, a: real, g: real, j: int, c': int)
    requires 0 <= lo && 0 <= c < C && Mul(hi, C) <= |x| && Mul(hi, C) <= |s|
    requires 0 <= c' < C && 0 <= Idx(j, c', C) < |x| && (c' != c || j < lo || hi <= j)
    ensures (MulNonNegative(lo, C);
      FillStride(x, s, Idx(lo, c, C), Mul(hi, C), C, a, g)[Idx(j, c', C)] == x[Idx(j, c', C)])
    decreases hi - lo
  {
    MulNonNegative(lo, C);
    if lo < hi {
      IdxRange(lo, c, C, lo, hi);
      IdxInjective(C);
      IdxNext(lo, c, C);
      FillStrideStep(x, s, Idx(lo, c, C), Mul(hi, C), C, a, g);
      FillStrideMiss(x[Idx(lo, c, C) := Scaled(a, s[Idx(lo, c, C)], g)], s, lo + 1, hi, c, C, a, g, j, c');
    } else {
      MulMono(hi, lo, C);
    }
  }

  /** `s1` and `s2` agree on every C-th position from `p` up to `end`. */
  ghost predicate AgreeStride(s1: seq<real>, s2: seq<real>, p: int, end: int, C: int)
    requires 0 <= p && 1 <= C && end <= |s1| && end <= |s2|
    decreases end - p
  {
    p >= end || (s1[p] == s2[p] && AgreeStride(s1, s2, p + C, end, C))
  }

  /** Only the positions it writes are read from the source. */
  lemma {:induction false} FillStrideSource(x: seq<real>, s1: seq<real>, s2: seq<real>, p: int, end: int, C: int, a: real, g: real)
    requires 0 <= p && 1 <= C && end <= |x| && end <= |s1| && end <= |s2|
    requires AgreeStride(s1, s2, p, end, C)
    ensures FillStride(x, s1, p, end, C, a, g) == FillStride(x, s2, p, end, C, a, g)
    decreases end - p
  {
    if p < end {
      FillStrideSource(x[p := Scaled(a, s1[p], g)], s1, s2, p + C, end, C, a, g);
      FillStrideStep(x, s1, p, end, C, a, g);
      FillStrideStep(x, s2, p, end, C, a, g);
      assert s1[p] == s2[p];
      assert x[p := Scaled(a, s1[p], g)] == x[p := Scaled(a, s2[p], g)];
    }
  }

  /** The inner loop of normalise_bands and denormalise_bands: writes a·src·g into channel `c`
      of bins `[lo, hi)` of dst, visiting the positions j·C + c in increasing order of j. src
      may be dst: each position is read just before it is written. */
  method ScaleBand(src: array<real>, dst: array<real>, lo: int, hi: int, c: int, C: int, a: real, g: real)
    requires 0 <= lo && 0 <= c < C && Mul(hi, C) <= src.Length && Mul(hi, C) <= dst.Length
    modifies dst
    ensures dst[..] == FillStride(old(dst[..]), old(src[..]), Idx(lo, c, C), Mul(hi, C), C, a, g)
  {
    ghost var d0, s0 := dst[..], src[..];
    var p, end := Idx(lo, c, C), Mul(hi, C);
    MulMono(0, lo, C);
    while p < end
      invariant 0 <= p
      invariant FillStride(dst[..], s0, p, end, C, a, g) == FillStride(d0, s0, Idx(lo, c, C), end, C, a, g)
      invariant src == dst || src[..] == s0
      invariant src == dst ==> forall k :: p <= k < dst.Length ==> dst[k] == s0[k]
    {
      assert src[p] == s0[p];
      var v := Scaled(a, src[p], g);
      ghost var before := dst[..];
      dst[p] := v;
      assert dst[..] == before[p := v];
      assert v == Scaled(a, s0[p], g);
      FillStrideStep(before, s0, p, end, C, a, g);
      p := p + C;
    }
  }

  // ---------------------------------------------------------------------------------------
  // Whole channels and the whole spectrum.

  /** A spectrum `x`, a source `s` and per-band gains `gains` that fit the layout of `m`. */
  ghost predicate Fits(m: Mode, x: seq<real>, s: seq<real>, gains: seq<real>) {
    ValidBands(m) && |x| >= SpectrumLength(m) && |s| >= SpectrumLength(m) && |gains| >= Mul(m.nbEBands, m.nbChannels)
  }

  /** Band `i` of channel `c` filled with gain gains[i·C + c]. */
  function FillBand(m: Mode, x: seq<real>, s: seq<real>, a: real, gains: seq<real>, c: int, i: int): (r: seq<real>)
    requires Fits(m, x, s, gains)
    requires 0 <= c < m.nbChannels && 0 <= i < m.nbEBands
    ensures |r| == |x|
  {
    BandInSpectrum(m, i);
    MulNonNegative(BandStart(m, i), m.nbChannels);
    IdxRange(i, c, m.nbChannels, 0, m.nbEBands);
    FillStride(x, s, Idx(BandStart(m, i), c, m.nbChannels), Mul(BandStart(m, i + 1), m.nbChannels),
               m.nbChannels, a, gains[Idx(i, c, m.nbChannels)])
  }

  /** Filling band `i` of channel `c` sets each of its bins to a·s·g. */
  lemma FillBandHit(m: Mode, x: seq<real>, s: seq<real>, a: real, gains: seq<real>, c: int, i: int, j: int)
    requires Fits(m, x, s, gains)
    requires 0 <= c < m.nbChannels && InBand(m, i, j)
    ensures (InBandIdx(m, i, j, c);
      FillBand(m, x, s, a, gains, c, i)[Idx(j, c, m.nbChannels)] ==
        Scaled(a, s[Idx(j, c, m.nbChannels)], gains[Idx(i, c, m.nbChannels)]))
  {
    InBandIdx(m, i, j, c);
    BandInSpectrum(m, i);
    FillStrideHit(x, s, BandStart(m, i), BandStart(m, i + 1), c, m.nbChannels, a, gains[Idx(i, c, m.nbChannels)], j);
  }

  /** Filling band `i` of channel `c` leaves the bins of other bands and other channels alone. */
  lemma FillBandMiss(m: Mode, x: seq<real>, s: seq<real>, a: real, gains: seq<real>, c: int, i: int, i': int, j: int, c': int)
    requires Fits(m, x, s, gains)
    requires 0 <= c < m.nbChannels && 0 <= i < m.nbEBands
    requires InBand(m, i', j) && 0 <= c' < m.nbChannels && (c' != c || i' != i)
    ensures (InBandIdx(m, i', j, c');
      FillBand(m, x, s, a, gains, c, i)[Idx(j, c', m.nbChannels)] == x[Idx(j, c', m.nbChannels)])
  {
    InBandIdx(m, i', j, c');
    BandInSpectrum(m, i);
    if c' == c {
      OtherBand(m, i', i, j);
    }
    IdxRange(i, c, m.nbChannels, 0, m.nbEBands);
    FillStrideMiss(x, s, BandStart(m, i), BandStart(m, i + 1), c, m.nbChannels, a, gains[Idx(i, c, m.nbChannels)], j, c');
  }

  /** Filling a band leaves the positions below the first band and from the end of the last
      band on alone. */
  lemma FillBandOutside(m: Mode, x: seq<real>, s: seq<real>, a: real, gains: seq<real>, c: int, i: int, k: int)
    requires Fits(m, x, s, gains)
    requires 0 <= c < m.nbChannels && 0 <= i < m.nbEBands
    requires 0 <= k < |x| && (k < Mul(BandStart(m, 0), m.nbChannels) || Mul(BandStart(m, m.nbEBands), m.nbChannels) <= k)
    ensures FillBand(m, x, s, a, gains, c, i)[k] == x[k]
  {
    var C := m.nbChannels;
    BandInSpectrum(m, i);
    BandBounds(m, i);
    BandBounds(m, i + 1);
    MulNonNegative(BandStart(m, i), C);
    MulMono(BandStart(m, 0), BandStart(m, i), C);
    MulMono(BandStart(m, i + 1), BandStart(m, m.nbEBands), C);
    IdxRange(i, c, C, 0, m.nbEBands);
    FillStrideOutside(x, s, Idx(BandStart(m, i), c, C), Mul(BandStart(m, i + 1), C), C, a, gains[Idx(i, c, C)], k);
  }

  /** Bands `[0, n)` of channel `c` filled, in increasing order. */
  function FillChannel(m: Mode, x: seq<real>, s: seq<real>, a: real, gains: seq<real>, c: int, n: int): (r: seq<real>)
    requires Fits(m, x, s, gains)
    requires 0 <= c < m.nbChannels && 0 <= n <= m.nbEBands
    ensures |r| == |x|
  {
    if n == 0 then x
    else FillBand(m, FillChannel(m, x, s, a, gains, c, n - 1), s, a, gains, c, n - 1)
  }

  /** Filling band `n` after bands `[0, n)` fills bands `[0, n + 1)`. */
  lemma FillChannelStep(m: Mode, x: seq<real>, s: seq<real>, a: real, gains: seq<real>, c: int, n: int, next: seq<real>)
    requires Fits(m, x, s, gains)
    requires 0 <= c < m.nbChannels && 0 <= n < m.nbEBands
    requires (BandInSpectrum(m, n); MulNonNegative(BandStart(m, n), m.nbChannels); IdxRange(n, c, m.nbChannels, 0, m.nbEBands);
      next == FillStride(FillChannel(m, x, s, a, gains, c, n), s, Idx(BandStart(m, n), c, m.nbChannels),
                         Mul(BandStart(m, n + 1), m.nbChannels), m.nbChannels, a, gains[Idx(n, c, m.nbChannels)]))
    ensures next == FillChannel(m, x, s, a, gains, c, n + 1)
  {
  }

  /** Channels `[0, n)` filled. */
  function FillAll(m: Mode, x: seq<real>, s: seq<real>, a: real, gains: seq<real>, n: int): (r: seq<real>)
    requires Fits(m, x, s, gains)
    requires 0 <= n <= m.nbChannels
    ensures |r| == |x|
  {
    if n == 0 then x
    else FillChannel(m, FillAll(m, x, s, a, gains, n - 1), s, a, gains, n - 1, m.nbEBands)
  }

  /** Bin `j` of band `i < n` of channel `c` holds a·s·g once bands `[0, n)` are filled. */
  lemma {:induction false} FillChannelHit(m: Mode, x: seq<real>, s: seq<real>, a: real, gains: seq<real>, c: int, n: int, i: int, j: int)
    requires Fits(m, x, s, gains)
    requires 0 <= c < m.nbChannels && 0 <= n <= m.nbEBands
    requires InBand(m, i, j) && i < n
    ensures (InBandIdx(m, i, j, c);
      FillChannel(m, x, s, a, gains, c, n)[Idx(j, c, m.nbChannels)] ==
        Scaled(a, s[Idx(j, c, m.nbChannels)], gains[Idx(i, c, m.nbChannels)]))
  {
    var prev := FillChannel(m, x, s, a, gains, c, n - 1);
    if i == n - 1 {
      FillBandHit(m, prev, s, a, gains, c, i, j);
    } else {
      FillBandMiss(m, prev, s, a, gains, c, n - 1, i, j, c);
      FillChannelHit(m, x, s, a, gains, c, n - 1, i, j);
    }
  }

  /** Bins of other channels and of bands from `n` on keep their value. */
  lemma {:induction false} FillChannelMiss(m: Mode, x: seq<real>, s: seq<real>, a: real, gains: seq<real>, c: int, n: int, i: int, j: int, c': int)
    requires Fits(m, x, s, gains)
    requires 0 <= c < m.nbChannels && 0 <= n <= m.nbEBands
    requires InBand(m, i, j) && 0 <= c' < m.nbChannels && (c' != c || n <= i)
    ensures (InBandIdx(m, i, j, c');
      FillChannel(m, x, s, a, gains, c, n)[Idx(j, c', m.nbChannels)] == x[Idx(j, c', m.nbChannels)])
  {
    InBandIdx(m, i, j, c');
    if n > 0 {
      FillBandMiss(m, FillChannel(m, x, s, a, gains, c, n - 1), s, a, gains, c, n - 1, i, j, c');
      FillChannelMiss(m, x, s, a, gains, c, n - 1, i, j, c');
    }
  }

  /** After channels `[0, n)`, bin `j` of band `i` of channel `c'` holds a·s·g if the channel
      was filled and its old value otherwise. */
  lemma {:induction false} FillAllAt(m: Mode, x: seq<real>, s: seq<real>, a: real, gains: seq<real>, n: int, i: int, j: int, c': int)
    requires Fits(m, x, s, gains)
    requires 0 <= n <= m.nbChannels
    requires InBand(m, i, j) && 0 <= c' < m.nbChannels
    ensures (InBandIdx(m, i, j, c');
      FillAll(m, x, s, a, gains, n)[Idx(j, c', m.nbChannels)] ==
        if c' < n then Scaled(a, s[Idx(j, c', m.nbChannels)], gains[Idx(i, c', m.nbChannels)])
        else x[Idx(j, c', m.nbChannels)])
  {
    InBandIdx(m, i, j, c');
    if n > 0 {
      FillAllAt(m, x, s, a, gains, n - 1, i, j, c');
      if c' == n - 1 {
        FillChannelHit(m, FillAll(m, x, s, a, gains, n - 1), s, a, gains, n - 1, m.nbEBands, i, j);
      } else {
        FillChannelMiss(m, FillAll(m, x, s, a, gains, n - 1), s, a, gains, n - 1, m.nbEBands, i, j, c');
      }
    }
  }

  /** Positions below the first band and from the end of the last band on are left alone. */
  lemma {:induction false} FillChannelOutside(m: Mode, x: seq<real>, s: seq<real>, a: real, gains: seq<real>, c: int, n: int, k: int)
    requires Fits(m, x, s, gains)
    requires 0 <= c < m.nbChannels && 0 <= n <= m.nbEBands
    requires 0 <= k < |x| && (k < Mul(BandStart(m, 0), m.nbChannels) || Mul(BandStart(m, m.nbEBands), m.nbChannels) <= k)
    ensures FillChannel(m, x, s, a, gains, c, n)[k] == x[k]
  {
    if n > 0 {
      FillChannelOutside(m, x, s, a, gains, c, n - 1, k);
      FillBandOutside(m, FillChannel(m, x, s, a, gains, c, n - 1), s, a, gains, c, n - 1, k);
    }
  }

  lemma {:induction false} FillAllOutside(m: Mode, x: seq<real>, s: seq<real>, a: real, gains: seq<real>, n: int, k: int)
    requires Fits(m, x, s, gains)
    requires 0 <= n <= m.nbChannels
    requires 0 <= k < |x| && (k < Mul(BandStart(m, 0), m.nbChannels) || Mul(BandStart(m, m.nbEBands), m.nbChannels) <= k)
    ensures FillAll(m, x, s, a, gains, n)[k] == x[k]
  {
    if n > 0 {
      FillAllOutside(m, x, s, a, gains, n - 1, k);
      FillChannelOutside(m, FillAll(m, x, s, a, gains, n - 1), s, a, gains, n - 1, m.nbEBands, k);
    }
  }

  /** When the source is the destination, the band about to be written still holds the
      source's values: channels after `c` and bands from `i` on have not been touched. */
  lemma {:induction false} BandUnwritten(m: Mode, x: seq<real>, a: real, gains: seq<real>, c: int, i: int, j: int)
    requires ValidBands(m) && |x| >= SpectrumLength(m) && |gains| >= Mul(m.nbEBands, m.nbChannels)
    requires 0 <= c < m.nbChannels && 0 <= i < m.nbEBands && BandStart(m, i) <= j <= BandStart(m, i + 1)
    ensures (BandInSpectrum(m, i); MulMono(0, j, m.nbChannels); MulMono(j, BandStart(m, i + 1), m.nbChannels);
      AgreeStride(FillChannel(m, FillAll(m, x, x, a, gains, c), x, a, gains, c, i), x,
                  Idx(j, c, m.nbChannels), Mul(BandStart(m, i + 1), m.nbChannels), m.nbChannels))
    decreases BandStart(m, i + 1) - j
  {
    var C := m.nbChannels;
    BandInSpectrum(m, i);
    MulMono(0, j, C);
    MulMono(j, BandStart(m, i + 1), C);
    if j < BandStart(m, i + 1) {
      BandUnwritten(m, x, a, gains, c, i, j + 1);
      FillChannelMiss(m, FillAll(m, x, x, a, gains, c), x, a, gains, c, i, i, j, c);
      FillAllAt(m, x, x, a, gains, c, i, j, c);
      IdxNext(j, c, C);
    }
  }

  // ---------------------------------------------------------------------------------------
  // normalise_bands and denormalise_bands.

  /** The two routines share one loop structure and differ in the constant scaling and the
      band gain. */
  datatype Direction = Normalise | Denormalise

  /** NORM_SCALING·SIG_SCALING_1 when normalising, NORM_SCALING_1·SIG_SCALING when
      denormalising. */
  function Factor(d: Direction): real {
    match d
    case Normalise => NormScaling * SigScaling1
    case Denormalise => NormScaling1 * SigScaling
  }

  /** The gain of a band of energy `e`, where `r` stands for sqrt(C): 1/(1e-10 + e·r) when
      normalising, e·r when denormalising (both with ENER_SCALING_1). A non-negative energy
      keeps the normalising denominator at least 1e-10. */
  function Gain(d: Direction, e: real, r: real): real
    requires d == Denormalise || (0.0 <= e && 0.0 <= r)
  {
    match d
    case Normalise => ProductNonNegative(EnerScaling1 * e, r); 1.0 / (Floor + EnerScaling1 * e * r)
    case Denormalise => EnerScaling1 * r * e
  }

  lemma ProductNonNegative(x: real, y: real)
    requires 0.0 <= x && 0.0 <= y
    ensures 0.0 <= x * y
  {
  }

  /** The energies the gains are computed from are non-negative when normalising. */
  ghost predicate GainsDefined(d: Direction, bank: seq<real>, n: int, r: real)
    requires 0 <= n <= |bank|
  {
    d == Denormalise || (0.0 <= r && forall k :: 0 <= k < n ==> 0.0 <= bank[k])
  }

  /** The gain of every band and channel, at position i·C + c. */
  function Gains(m: Mode, d: Direction, bank: seq<real>, r: real): (g: seq<real>)
    requires ValidBands(m) && Mul(m.nbEBands, m.nbChannels) <= |bank|
    requires GainsDefined(d, bank, Mul(m.nbEBands, m.nbChannels), r)
    ensures |g| == Mul(m.nbEBands, m.nbChannels)
  {
    MulNonNegative(m.nbEBands, m.nbChannels);
    seq(Mul(m.nbEBands, m.nbChannels), k requires 0 <= k < Mul(m.nbEBands, m.nbChannels) => Gain(d, bank[k], r))
  }

  lemma GainAt(m: Mode, d: Direction, bank: seq<real>, r: real, i: int, c: int)
    requires ValidBands(m) && Mul(m.nbEBands, m.nbChannels) <= |bank|
    requires GainsDefined(d, bank, Mul(m.nbEBands, m.nbChannels), r)
    requires 0 <= i < m.nbEBands && 0 <= c < m.nbChannels
    ensures (IdxRange(i, c, m.nbChannels, 0, m.nbEBands);
      Gains(m, d, bank, r)[Idx(i, c, m.nbChannels)] == Gain(d, bank[Idx(i, c, m.nbChannels)], r))
  {
    IdxRange(i, c, m.nbChannels, 0, m.nbEBands);
  }

  /** One pass of the band loop: band `i` of channel `c` of dst receives
      Factor(d)·src·Gain(d, bank[i·C + c], r), after bands `[0, i)` of channel `c` and all of
      channels `[0, c)`. `bk` is the content of bank; when src is dst, `s0` is the spectrum the
      loops started from. */
  method ScaleBandOf(m: Mode, d: Direction, src: array<real>, dst: array<real>, bank: array<real>, r: real,
                     c: int, i: int, ghost x: seq<real>, ghost s0: seq<real>, ghost bk: seq<real>)
    requires ValidBands(m) && src.Length >= SpectrumLength(m) && dst.Length >= SpectrumLength(m)
    requires Mul(m.nbEBands, m.nbChannels) <= bank.Length && bank[..] == bk
    requires GainsDefined(d, bk, Mul(m.nbEBands, m.nbChannels), r)
    requires 0 <= c < m.nbChannels && 0 <= i < m.nbEBands && |x| == dst.Length && |s0| == src.Length
    requires dst[..] == FillChannel(m, x, s0, Factor(d), Gains(m, d, bk, r), c, i)
    requires src == dst || src[..] == s0
    requires src == dst ==> x == FillAll(m, s0, s0, Factor(d), Gains(m, d, bk, r), c)
    modifies dst
    ensures dst[..] == FillChannel(m, x, s0, Factor(d), Gains(m, d, bk, r), c, i + 1)
  {
    var C := m.nbChannels;
    ghost var gains := Gains(m, d, bk, r);
    var a := Factor(d);
    BandInSpectrum(m, i);
    IdxRange(i, c, C, 0, m.nbEBands);
    var g := Gain(d, bank[Idx(i, c, C)], r);
    ghost var prev := dst[..];
    if src == dst {
      BandUnwritten(m, s0, a, gains, c, i, BandStart(m, i));
    }
    ScaleBand(src, dst, BandStart(m, i), BandStart(m, i + 1), c, C, a, g);
    MulNonNegative(BandStart(m, i), C);
    if src == dst {
      FillStrideSource(prev, prev, s0, Idx(BandStart(m, i), c, C), Mul(BandStart(m, i + 1), C), C, a, g);
    }
    GainAt(m, d, bk, r, i, c);
    FillChannelStep(m, x, s0, a, gains, c, i, dst[..]);
  }

  /** The inner loop: bands `[0, nbEBands)` of channel `c`, in increasing order. */
  method ScaleChannel(m: Mode, d: Direction, src: array<real>, dst: array<real>, bank: array<real>, r: real,
                      c: int, ghost s0: seq<real>, ghost bk: seq<real>)
    requires ValidBands(m) && src.Length >= SpectrumLength(m) && dst.Length >= SpectrumLength(m)
    requires Mul(m.nbEBands, m.nbChannels) <= bank.Length && bank != dst && bank[..] == bk
    requires GainsDefined(d, bk, Mul(m.nbEBands, m.nbChannels), r)
    requires 0 <= c < m.nbChannels && |s0| == src.Length
    requires src == dst || src[..] == s0
    requires src == dst ==> dst[..] == FillAll(m, s0, s0, Factor(d), Gains(m, d, bk, r), c)
    modifies dst
    ensures dst[..] == FillChannel(m, old(dst[..]), s0, Factor(d), Gains(m, d, bk, r), c, m.nbEBands)
    ensures src == dst || src[..] == s0
    ensures bank[..] == bk
  {
    ghost var x := dst[..];
    var i := 0;
    while i < m.nbEBands
      invariant 0 <= i <= m.nbEBands
      invariant dst[..] == FillChannel(m, x, s0, Factor(d), Gains(m, d, bk, r), c, i)
      invariant src == dst || src[..] == s0
      invariant bank[..] == bk
    {
      ScaleBandOf(m, d, src, dst, bank, r, c, i, x, s0, bk);
      i := i + 1;
    }
  }

  /** The band loops of normalise_bands (d = Normalise, src = freq, dst = X) and
      denormalise_bands (d = Denormalise, src = X, dst = freq): every band of every channel of
      dst receives Factor(d)·src·Gain(d, energy, r). src may be dst, as in renormalise_bands. */
  method ScaleBands(m: Mode, d: Direction, src: array<real>, dst: array<real>, bank: array<real>, r: real)
    requires ValidBands(m) && src.Length >= SpectrumLength(m) && dst.Length >= SpectrumLength(m)
    requires Mul(m.nbEBands, m.nbChannels) <= bank.Length && bank != dst
    requires GainsDefined(d, bank[..], Mul(m.nbEBands, m.nbChannels), r)
    modifies dst
    ensures dst[..] == FillAll(m, old(dst[..]), old(src[..]), Factor(d), Gains(m, d, old(bank[..]), r), m.nbChannels)
  {
    hide FillChannel, FillBand, FillStride;
    ghost var d0, s0, bk := dst[..], src[..], bank[..];
    ghost var gains := Gains(m, d, bk, r);
    var c := 0;
    while c < m.nbChannels
      invariant 0 <= c <= m.nbChannels
      invariant dst[..] == FillAll(m, d0, s0, Factor(d), gains, c)
      invariant src == dst || src[..] == s0
      invariant bank[..] == bk
    {
      ScaleChannel(m, d, src, dst, bank, r, c, s0, bk);
      c := c + 1;
    }
  }

  /** What normalise_bands (d = Normalise) and denormalise_bands (d = Denormalise) leave in
      their destination `dst` when reading `src`: every band of every channel scaled, then the
      padding `[B·C·eBands[nbEBands], B·C·eBands[nbEBands+1])` cleared. `r` stands for
      sqrt(C). */
  function Rescaled(m: Mode, d: Direction, src: seq<real>, dst: seq<real>, bank: seq<real>, r: real): (y: seq<real>)
    requires ValidBands(m) && |src| >= SpectrumLength(m) && |dst| >= SpectrumLength(m)
    requires Mul(m.nbEBands, m.nbChannels) <= |bank| && GainsDefined(d, bank, Mul(m.nbEBands, m.nbChannels), r)
    ensures |y| == |dst|
  {
    Zeroed(FillAll(m, dst, src, Factor(d), Gains(m, d, bank, r), m.nbChannels), PadStart(m), SpectrumLength(m))
  }

  /** normalise_bands: every band of X becomes the band of freq divided by its energy (times
      sqrt(C), plus 1e-10); the padding of X is cleared. freq may be X. */
  method NormaliseBands(m: Mode, freq: array<real>, X: array<real>, bank: array<real>, lib: Libm)
    requires ValidBands(m) && freq.Length >= SpectrumLength(m) && X.Length >= SpectrumLength(m)
    requires Mul(m.nbEBands, m.nbChannels) <= bank.Length && bank != X
    requires ValidLibm(lib) && forall k :: 0 <= k < Mul(m.nbEBands, m.nbChannels) ==> 0.0 <= bank[k]
    modifies X
    ensures X[..] == Rescaled(m, Normalise, old(freq[..]), old(X[..]), old(bank[..]), lib.sqrt(m.nbChannels as real))
  {
    var r := lib.sqrt(m.nbChannels as real);
    ScaleBands(m, Normalise, freq, X, bank, r);
    PaddingBounds(m);
    ZeroRange(X, m.nbMdctBlocks * m.nbChannels * m.eBands[m.nbEBands], m.nbMdctBlocks * m.nbChannels * m.eBands[m.nbEBands + 1]);
  }

  /** denormalise_bands: every band of freq becomes the band of X multiplied by its energy
      (times sqrt(C)); the padding of freq is cleared. */
  method DenormaliseBands(m: Mode, X: array<real>, freq: array<real>, bank: array<real>, lib: Libm)
    requires ValidBands(m) && X.Length >= SpectrumLength(m) && freq.Length >= SpectrumLength(m)
    requires Mul(m.nbEBands, m.nbChannels) <= bank.Length && bank != freq
    modifies freq
    ensures freq[..] == Rescaled(m, Denormalise, old(X[..]), old(freq[..]), old(bank[..]), lib.sqrt(m.nbChannels as real))
  {
    var r := lib.sqrt(m.nbChannels as real);
    ScaleBands(m, Denormalise, X, freq, bank, r);
    PaddingBounds(m);
    ZeroRange(freq, m.nbMdctBlocks * m.nbChannels * m.eBands[m.nbEBands], m.nbMdctBlocks * m.nbChannels * m.eBands[m.nbEBands + 1]);
  }

  /** renormalise_bands, as the composition it is: the energies of X, then X normalised in
      place by them. */
  method RenormaliseBands(m: Mode, X: array<real>, lib: Libm)
    requires ValidBands(m) && X.Length >= SpectrumLength(m) && ValidLibm(lib)
    modifies X
    ensures (BandEnergiesPositive(m, old(X[..]), lib);
      X[..] == Rescaled(m, Normalise, old(X[..]), old(X[..]), BandEnergies(m, old(X[..]), lib), lib.sqrt(m.nbChannels as real)))
  {
    MulIsProduct(m.nbEBands, m.nbChannels);
    var tmpE := new real[m.nbEBands * m.nbChannels];
    ComputeBandEnergies(m, X, tmpE, lib);
    assert tmpE[..] == tmpE[..Mul(m.nbEBands, m.nbChannels)];
    BandEnergiesPositive(m, X[..], lib);
    NormaliseBands(m, X, X, tmpE, lib);
  }

  // ---------------------------------------------------------------------------------------
  // What the routines compute, position by position.

  /** Every bin of a coded band lies below the padding. */
  lemma BandBeforePadding(m: Mode, i: int, j: int, c: int)
    requires ValidBands(m) && InBand(m, i, j) && 0 <= c < m.nbChannels
    ensures Mul(BandStart(m, 0), m.nbChannels) <= Idx(j, c, m.nbChannels) < PadStart(m)
  {
    BandInSpectrum(m, i);
    BandBounds(m, i);
    BandBounds(m, i + 1);
    IdxRange(j, c, m.nbChannels, BandStart(m, i), BandStart(m, i + 1));
    MulMono(BandStart(m, 0), BandStart(m, i), m.nbChannels);
    MulMono(BandStart(m, i + 1), BandStart(m, m.nbEBands), m.nbChannels);
  }

  /** Bin `j` of band `i`, channel `c`, of the destination holds Factor(d)·src·gain, the gain
      being that of band `i`, channel `c`. */
  lemma RescaledInBand(m: Mode, d: Direction, src: seq<real>, dst: seq<real>, bank: seq<real>, r: real, i: int, j: int, c: int)
    requires ValidBands(m) && |src| >= SpectrumLength(m) && |dst| >= SpectrumLength(m)
    requires Mul(m.nbEBands, m.nbChannels) <= |bank| && GainsDefined(d, bank, Mul(m.nbEBands, m.nbChannels), r)
    requires InBand(m, i, j) && 0 <= c < m.nbChannels
    ensures (InBandIdx(m, i, j, c);
      Rescaled(m, d, src, dst, bank, r)[Idx(j, c, m.nbChannels)] ==
        Factor(d) * src[Idx(j, c, m.nbChannels)] * Gain(d, bank[Idx(i, c, m.nbChannels)], r))
  {
    hide FillAll, FillChannel, FillBand, FillStride, Gain;
    InBandIdx(m, i, j, c);
    BandBeforePadding(m, i, j, c);
    FillAllAt(m, dst, src, Factor(d), Gains(m, d, bank, r), m.nbChannels, i, j, c);
    GainAt(m, d, bank, r, i, c);
  }

  /** normalise_bands: bin `j` of band `i`, channel `c`, of X is the same bin of freq divided
      by 1e-10 + ENER_SCALING_1·bank[i·C + c]·sqrt(C) (and scaled by NORM_SCALING·SIG_SCALING_1). */
  lemma NormalisedBand(m: Mode, freq: seq<real>, x: seq<real>, bank: seq<real>, r: real, i: int, j: int, c: int)
    requires ValidBands(m) && |freq| >= SpectrumLength(m) && |x| >= SpectrumLength(m)
    requires Mul(m.nbEBands, m.nbChannels) <= |bank| && GainsDefined(Normalise, bank, Mul(m.nbEBands, m.nbChannels), r)
    requires InBand(m, i, j) && 0 <= c < m.nbChannels
    ensures (InBandIdx(m, i, j, c);
      Floor + EnerScaling1 * bank[Idx(i, c, m.nbChannels)] * r > 0.0 &&
      Rescaled(m, Normalise, freq, x, bank, r)[Idx(j, c, m.nbChannels)] ==
        NormScaling * SigScaling1 * freq[Idx(j, c, m.nbChannels)] / (Floor + EnerScaling1 * bank[Idx(i, c, m.nbChannels)] * r))
  {
    hide Rescaled, FillAll, Gains;
    InBandIdx(m, i, j, c);
    RescaledInBand(m, Normalise, freq, x, bank, r, i, j, c);
    ProductNonNegative(EnerScaling1 * bank[Idx(i, c, m.nbChannels)], r);
  }

  /** denormalise_bands: bin `j` of band `i`, channel `c`, of freq is the same bin of X
      multiplied by ENER_SCALING_1·sqrt(C)·bank[i·C + c] (and by NORM_SCALING_1·SIG_SCALING). */
  lemma DenormalisedBand(m: Mode, x: seq<real>, freq: seq<real>, bank: seq<real>, r: real, i: int, j: int, c: int)
    requires ValidBands(m) && |x| >= SpectrumLength(m) && |freq| >= SpectrumLength(m)
    requires Mul(m.nbEBands, m.nbChannels) <= |bank|
    requires InBand(m, i, j) && 0 <= c < m.nbChannels
    ensures (InBandIdx(m, i, j, c);
      Rescaled(m, Denormalise, x, freq, bank, r)[Idx(j, c, m.nbChannels)] ==
        NormScaling1 * SigScaling * x[Idx(j, c, m.nbChannels)] * (EnerScaling1 * r * bank[Idx(i, c, m.nbChannels)]))
  {
    InBandIdx(m, i, j, c);
    RescaledInBand(m, Denormalise, x, freq, bank, r, i, j, c);
  }

  /** The padding of the destination is zero. */
  lemma RescaledPadding(m: Mode, d: Direction, src: seq<real>, dst: seq<real>, bank: seq<real>, r: real, k: int)
    requires ValidBands(m) && |src| >= SpectrumLength(m) && |dst| >= SpectrumLength(m)
    requires Mul(m.nbEBands, m.nbChannels) <= |bank| && GainsDefined(d, bank, Mul(m.nbEBands, m.nbChannels), r)
    requires PadStart(m) <= k < SpectrumLength(m)
    ensures Rescaled(m, d, src, dst, bank, r)[k] == 0.0
  {
  }

  /** Positions below the first band and beyond the spectrum keep the destination's value. */
  lemma RescaledOutside(m: Mode, d: Direction, src: seq<real>, dst: seq<real>, bank: seq<real>, r: real, k: int)
    requires ValidBands(m) && |src| >= SpectrumLength(m) && |dst| >= SpectrumLength(m)
    requires Mul(m.nbEBands, m.nbChannels) <= |bank| && GainsDefined(d, bank, Mul(m.nbEBands, m.nbChannels), r)
    requires 0 <= k < |dst| && (k < Mul(BandStart(m, 0), m.nbChannels) || SpectrumLength(m) <= k)
    ensures Rescaled(m, d, src, dst, bank, r)[k] == dst[k]
  {
    BandBounds(m, m.nbEBands);
    MulMono(BandStart(m, 0), BandStart(m, m.nbEBands), m.nbChannels);
    MulMono(BandStart(m, m.nbEBands), BandStart(m, m.nbEBands + 1), m.nbChannels);
    FillAllOutside(m, dst, src, Factor(d), Gains(m, d, bank, r), m.nbChannels, k);
  }

  /** The bands tile `[B·eBands[0], B·eBands[nbEBands])`: a bin from `BandStart(m, i0)` on lies
      in a band from `i0` on. */
  lemma {:induction false} SomeBand(m: Mode, i0: int, j: int)
    requires ValidBands(m) && 0 <= i0 <= m.nbEBands && BandStart(m, i0) <= j < BandStart(m, m.nbEBands)
    ensures exists i :: i0 <= i && InBand(m, i, j)
    decreases m.nbEBands - i0
  {
    if i0 == m.nbEBands {
      assert false;
    } else if j < BandStart(m, i0 + 1) {
      assert InBand(m, i0, j);
    } else {
      SomeBand(m, i0 + 1, j);
    }
  }

  /** Every position from the first band up to the padding is bin `j` of some band, channel
      `c`, so the three lemmas above determine the whole output. */
  lemma PositionInBand(m: Mode, k: int)
    requires ValidBands(m) && Mul(BandStart(m, 0), m.nbChannels) <= k < PadStart(m)
    ensures exists i, j, c :: InBand(m, i, j) && 0 <= c < m.nbChannels && Idx(j, c, m.nbChannels) == k
  {
    var C := m.nbChannels;
    BandBounds(m, 0);
    MulNonNegative(BandStart(m, 0), C);
    IdxCovers(k, BandStart(m, m.nbEBands), C);
    var j, c := k / C, k % C;
    if j < BandStart(m, 0) {
      IdxRange(j, c, C, j, BandStart(m, 0));
    }
    SomeBand(m, 0, j);
    var i :| 0 <= i && InBand(m, i, j);
    assert InBand(m, i, j) && 0 <= c < C && Idx(j, c, C) == k;
  }

  /** The share of a sample that survives denormalising a normalised band of energy `e`:
      `e / (1e-10 + e)`, in `[0, 1)`. */
  function Retained(e: real): (f: real)
    requires 0.0 <= e
    ensures 0.0 <= f < 1.0
  {
    FractionBelowOne(e, Floor + e);
    e / (Floor + e)
  }

  lemma FractionBelowOne(a: real, b: real)
    requires 0.0 <= a < b
    ensures 0.0 <= a / b < 1.0
  {
    assert a / b * b == a;
  }

  /** denormalise_bands after normalise_bands with the same energies gives back every sample
      of every band scaled by Retained(ENER_SCALING_1·e·sqrt(C)): the 1e-10 floor keeps the
      round trip from being exact. */
  lemma DenormaliseNormalise(m: Mode, f: seq<real>, x: seq<real>, y: seq<real>, bank: seq<real>, r: real, i: int, j: int, c: int)
    requires ValidBands(m) && |f| >= SpectrumLength(m) && |x| >= SpectrumLength(m) && |y| >= SpectrumLength(m)
    requires Mul(m.nbEBands, m.nbChannels) <= |bank| && GainsDefined(Normalise, bank, Mul(m.nbEBands, m.nbChannels), r)
    requires InBand(m, i, j) && 0 <= c < m.nbChannels
    ensures (InBandIdx(m, i, j, c); ProductNonNegative(EnerScaling1 * bank[Idx(i, c, m.nbChannels)], r);
      Rescaled(m, Denormalise, Rescaled(m, Normalise, f, x, bank, r), y, bank, r)[Idx(j, c, m.nbChannels)] ==
        f[Idx(j, c, m.nbChannels)] * Retained(EnerScaling1 * bank[Idx(i, c, m.nbChannels)] * r))
  {
    hide Rescaled, FillAll, Gains, Gain;
    var C := m.nbChannels;
    InBandIdx(m, i, j, c);
    var e := EnerScaling1 * bank[Idx(i, c, C)] * r;
    ProductNonNegative(EnerScaling1 * bank[Idx(i, c, C)], r);
    var n := Rescaled(m, Normalise, f, x, bank, r);
    NormalisedBand(m, f, x, bank, r, i, j, c);
    DenormalisedBand(m, n, y, bank, r, i, j, c);
    RoundTripArithmetic(f[Idx(j, c, C)], n[Idx(j, c, C)], bank[Idx(i, c, C)], r);
  }

  lemma RoundTripArithmetic(v: real, n: real, b: real, r: real)
    requires 0.0 <= b && 0.0 <= r
    requires Floor + EnerScaling1 * b * r > 0.0
    requires n == NormScaling * SigScaling1 * v / (Floor + EnerScaling1 * b * r)
    ensures (ProductNonNegative(EnerScaling1 * b, r);
      NormScaling1 * SigScaling * n * (EnerScaling1 * r * b) == v * Retained(EnerScaling1 * b * r))
  {
    ProductNonNegative(EnerScaling1 * b, r);
    var e := EnerScaling1 * b * r;
    assert EnerScaling1 * r * b == e;
  }
}
