/** stereo_mix: the energy-weighted 2×2 mix of the two channels of every bin of every coded
    band, `(l, r) ↦ (a1·l + a2·r, a1·r − a2·l)`, with `a1` and `a2` taken from the energies of
    the band in the two channels; `dir = +1` mixes and `dir = −1` unmixes. The padding of the
    spectrum is cleared afterwards. */
module Stereo {
  import opened Modes
  import opened Padding
  import Scaling

  /** The mixing weights of one band. */
  datatype Weights = Weights(a1: real, a2: real)

  /** The norm under the weights: 0.01 + left² + right². The 0.01 floor keeps it positive for
      a silent band. */
  function Floored(left: real, right: real): (v: real)
    ensures v > 0.0
  {
    Squares(left, right);
    0.01 + left * left + right * right
  }

  lemma Squares(left: real, right: real)
    ensures left * left >= 0.0 && right * right >= 0.0
  {
  }

  /** a1 = left/sqrt(0.01 + left² + right²) and a2 = dir·right/sqrt(0.01 + left² + right²),
      for the energies `left` and `right` of a band in channels 0 and 1. */
  function WeightsOf(lib: Libm, left: real, right: real, dir: int): Weights
    requires ValidLibm(lib)
  {
    var s := lib.sqrt(Floored(left, right));
    Weights(left / s, (dir as real) * right / s)
  }

  /** The new channel 0 of a bin. */
  function Left(w: Weights, l: real, r: real): real {
    w.a1 * l + w.a2 * r
  }

  /** The new channel 1 of a bin. */
  function Right(w: Weights, l: real, r: real): real {
    w.a1 * r - w.a2 * l
  }

  /** a1² + a2²: the factor by which a mix scales the energy of a pair, and by which mixing
      then unmixing scales the pair itself. */
  function PairGain(w: Weights): real {
    w.a1 * w.a1 + w.a2 * w.a2
  }

  /** The weights that undo a mix: the same a1, the opposite a2. */
  function Unmixing(w: Weights): Weights {
    Weights(w.a1, -w.a2)
  }

  // ---------------------------------------------------------------------------------------
  // One pair, and the weights of a band.

  /** A mix scales the energy of the pair by a1² + a2². */
  lemma PairEnergy(w: Weights, l: real, r: real)
    ensures Left(w, l, r) * Left(w, l, r) + Right(w, l, r) * Right(w, l, r) == PairGain(w) * (l * l + r * r)
  {
    var a1, a2 := w.a1, w.a2;
    calc {
      Left(w, l, r) * Left(w, l, r) + Right(w, l, r) * Right(w, l, r);
      (a1 * l + a2 * r) * (a1 * l + a2 * r) + (a1 * r - a2 * l) * (a1 * r - a2 * l);
      (a1 * a1 + a2 * a2) * (l * l + r * r);
    }
  }

  /** Unmixing a mixed pair gives the pair back multiplied by a1² + a2². */
  lemma PairRoundTrip(w: Weights, l: real, r: real)
    ensures Left(Unmixing(w), Left(w, l, r), Right(w, l, r)) == PairGain(w) * l
    ensures Right(Unmixing(w), Left(w, l, r), Right(w, l, r)) == PairGain(w) * r
  {
    var a1, a2 := w.a1, w.a2;
    calc {
      Left(Unmixing(w), Left(w, l, r), Right(w, l, r));
      a1 * (a1 * l + a2 * r) - a2 * (a1 * r - a2 * l);
      (a1 * a1 + a2 * a2) * l;
    }
    calc {
      Right(Unmixing(w), Left(w, l, r), Right(w, l, r));
      a1 * (a1 * r - a2 * l) + a2 * (a1 * l + a2 * r);
      (a1 * a1 + a2 * a2) * r;
    }
  }

  /** The weights of `dir = −1` are the unmixing weights of `dir = +1`. */
  lemma WeightsOpposite(lib: Libm, left: real, right: real)
    requires ValidLibm(lib)
    ensures WeightsOf(lib, left, right, -1) == Unmixing(WeightsOf(lib, left, right, 1))
  {
    var s := lib.sqrt(Floored(left, right));
    NegatedQuotient(right, s);
  }

  lemma NegatedQuotient(v: real, s: real)
    requires s != 0.0
    ensures (-1 as real) * v / s == -((1 as real) * v / s)
  {
    assert (-1 as real) * v == -v;
  }

  /** With a true square root, the 0.01 floor keeps a1² + a2² strictly below 1: it is
      (left² + right²)/(0.01 + left² + right²). Mixing then unmixing a band is therefore never
      the identity on a band whose pair is not silent. */
  lemma PairGainBelowOne(lib: Libm, left: real, right: real, dir: int)
    requires ValidLibm(lib) && (dir == 1 || dir == -1)
    requires lib.sqrt(Floored(left, right)) * lib.sqrt(Floored(left, right)) == Floored(left, right)
    ensures var g := PairGain(WeightsOf(lib, left, right, dir));
      g * Floored(left, right) == left * left + right * right && 0.0 <= g < 1.0
  {
    var f := Floored(left, right);
    var s := lib.sqrt(f);
    var w := WeightsOf(lib, left, right, dir);
    QuotientTimes(left, s);
    QuotientTimes((dir as real) * right, s);
    SquareSign(right, dir);
    GainTimesNorm(w.a1, w.a2, s, left, (dir as real) * right);
    Squares(left, right);
    Squares(w.a1, w.a2);
    BelowOne(PairGain(w), f, left * left + right * right);
  }

  lemma QuotientTimes(v: real, s: real)
    requires s != 0.0
    ensures (v / s) * s == v
  {
  }

  lemma SquareSign(v: real, dir: int)
    requires dir == 1 || dir == -1
    ensures ((dir as real) * v) * ((dir as real) * v) == v * v
  {
  }

  lemma GainTimesNorm(a1: real, a2: real, s: real, u: real, v: real)
    requires a1 * s == u && a2 * s == v
    ensures (a1 * a1 + a2 * a2) * (s * s) == u * u + v * v
  {
    calc {
      (a1 * a1 + a2 * a2) * (s * s);
      (a1 * s) * (a1 * s) + (a2 * s) * (a2 * s);
    }
  }

  lemma BelowOne(g: real, f: real, t: real)
    requires g * f == t && f == 0.01 + t && 0.0 <= t && 0.0 <= g
    ensures g < 1.0
  {
  }

  // ---------------------------------------------------------------------------------------
  // One band: the bins `[lo, hi)`, in increasing order.

  /** `x` with the pair at positions `p` and `p + 1` mixed. */
  function MixAt(x: seq<real>, p: int, w: Weights): (r: seq<real>)
    requires 0 <= p && p + 1 < |x|
    ensures |r| == |x|
  {
    x[p := Left(w, x[p], x[p + 1])][p + 1 := Right(w, x[p], x[p + 1])]
  }

  /** `x` with the channels 0 and 1 of the bins `[j, hi)` mixed, bin after bin. */
  function MixBins(x: seq<real>, j: int, hi: int, C: int, w: Weights): (r: seq<real>)
    requires 0 <= j && 2 <= C && Mul(hi, C) <= |x|
    ensures |r| == |x|
    decreases hi - j
  {
    if j >= hi then x
    else
      MulNonNegative(j, C);
      IdxRange(j, 1, C, j, hi);
      MixBins(MixAt(x, Idx(j, 0, C), w), j + 1, hi, C, w)
  }

  /** The pair of bin `b` after a mix with weights `w`. */
  function MixedChannel(x: seq<real>, p: int, c: int, w: Weights): real
    requires 0 <= p && p + 1 < |x|
  {
    if c == 0 then Left(w, x[p], x[p + 1]) else Right(w, x[p], x[p + 1])
  }

  /** Mixing bins `[j, hi)` mixes the two channels of each of them. */
  lemma {:induction false} MixBinsHit(x: seq<real>, j: int, hi: int, C: int, w: Weights, b: int, c: int)
    requires 0 <= j <= b < hi && 2 <= C && Mul(hi, C) <= |x| && 0 <= c < 2
    ensures (IdxRange(b, 1, C, b, hi); MulNonNegative(b, C);
      MixBins(x, j, hi, C, w)[Idx(b, c, C)] == MixedChannel(x, Idx(b, 0, C), c, w))
    decreases hi - j
  {
    IdxRange(b, 1, C, b, hi);
    MulNonNegative(b, C);
    if b == j {
      MixBinsFirst(x, j, hi, C, w, c);
    } else {
      MulNonNegative(j, C);
      IdxRange(j, 1, C, j, j + 1);
      IdxRange(b, 0, C, j + 1, hi);
      MixBinsHit(MixAt(x, Idx(j, 0, C), w), j + 1, hi, C, w, b, c);
    }
  }

  /** The first bin mixed keeps its new pair. */
  lemma MixBinsFirst(x: seq<real>, j: int, hi: int, C: int, w: Weights, c: int)
    requires 0 <= j < hi && 2 <= C && Mul(hi, C) <= |x| && 0 <= c < 2
    ensures (IdxRange(j, 1, C, j, hi); MulNonNegative(j, C);
      MixBins(x, j, hi, C, w)[Idx(j, c, C)] == MixedChannel(x, Idx(j, 0, C), c, w))
  {
    MulNonNegative(j, C);
    IdxRange(j, 1, C, j, hi);
    MixBinsMiss(MixAt(x, Idx(j, 0, C), w), j + 1, hi, C, w, j, c);
  }

  /** Mixing bins `[j, hi)` leaves the other bins, and the channels from 2 on, alone. */
  lemma {:induction false} MixBinsMiss(x: seq<real>, j: int, hi: int, C: int, w: Weights, b: int, c: int)
    requires 0 <= j && 2 <= C && Mul(hi, C) <= |x|
    requires 0 <= c < C && 0 <= Idx(b, c, C) < |x| && (2 <= c || b < j || hi <= b)
    ensures MixBins(x, j, hi, C, w)[Idx(b, c, C)] == x[Idx(b, c, C)]
    decreases hi - j
  {
    if j < hi {
      MulNonNegative(j, C);
      IdxRange(j, 1, C, j, hi);
      IdxInjective(C);
      MixBinsMiss(MixAt(x, Idx(j, 0, C), w), j + 1, hi, C, w, b, c);
    }
  }

  /** The body of the inner loop of stereo_mix: the pair (l, r) at positions `p` and `p + 1`
      becomes (a1·l + a2·r, a1·r − a2·l). */
  method MixPair(X: array<real>, p: int, a1: real, a2: real)
    requires 0 <= p && p + 1 < X.Length
    modifies X
    ensures X[..] == MixAt(old(X[..]), p, Weights(a1, a2))
  {
    ghost var x0 := X[..];
    var l := X[p];
    var r := X[p + 1];
    X[p] := a1 * l + a2 * r;
    X[p + 1] := a1 * r - a2 * l;
    assert X[..] == x0[p := a1 * l + a2 * r][p + 1 := a1 * r - a2 * l];
    ghost var w := Weights(a1, a2);
    assert Left(w, l, r) == a1 * l + a2 * r && Right(w, l, r) == a1 * r - a2 * l;
    assert MixAt(x0, p, w) == x0[p := Left(w, l, r)][p + 1 := Right(w, l, r)];
  }

  /** The inner loop of stereo_mix: the bins `[lo, hi)` mixed with weights `a1` and `a2`,
      channel 0 of bin `j` at `j·C` and channel 1 at `j·C + 1`. */
  method MixBand(X: array<real>, lo: int, hi: int, C: int, a1: real, a2: real)
    requires 0 <= lo && 2 <= C && Mul(hi, C) <= X.Length
    modifies X
    ensures X[..] == MixBins(old(X[..]), lo, hi, C, Weights(a1, a2))
  {
    ghost var x0 := X[..];
    ghost var w := Weights(a1, a2);
    var j := lo;
    while j < hi
      invariant lo <= j
      invariant MixBins(X[..], j, hi, C, w) == MixBins(x0, lo, hi, C, w)
    {
      MulIsProduct(j, C);
      MulNonNegative(j, C);
      IdxRange(j, 1, C, j, hi);
      MixPair(X, j * C, a1, a2);
      j := j + 1;
    }
  }

  // ---------------------------------------------------------------------------------------
  // The whole spectrum.

  /** A spectrum `x` and the band energies `bank` (channel `c` of band `i` at `i·C + c`) that
      fit a stereo layout. */
  ghost predicate Fits(m: Mode, lib: Libm, x: seq<real>, bank: seq<real>) {
    ValidBands(m) && 2 <= m.nbChannels && |x| >= SpectrumLength(m) &&
    Mul(m.nbEBands, m.nbChannels) <= |bank| && ValidLibm(lib)
  }

  /** The weights of band `i`, from its energies in channels 0 and 1. */
  function BandWeights(m: Mode, lib: Libm, bank: seq<real>, dir: int, i: int): Weights
    requires ValidBands(m) && 2 <= m.nbChannels && Mul(m.nbEBands, m.nbChannels) <= |bank| && ValidLibm(lib)
    requires 0 <= i < m.nbEBands
  {
    MulNonNegative(i, m.nbChannels);
    IdxRange(i, 1, m.nbChannels, 0, m.nbEBands);
    WeightsOf(lib, bank[Idx(i, 0, m.nbChannels)], bank[Idx(i, 1, m.nbChannels)], dir)
  }

  /** Bands `[0, n)` mixed, in increasing order. */
  function MixBands(m: Mode, lib: Libm, x: seq<real>, bank: seq<real>, dir: int, n: int): (r: seq<real>)
    requires Fits(m, lib, x, bank) && 0 <= n <= m.nbEBands
    ensures |r| == |x|
  {
    if n == 0 then x
    else
      BandInSpectrum(m, n - 1);
      MixBins(MixBands(m, lib, x, bank, dir, n - 1), BandStart(m, n - 1), BandStart(m, n), m.nbChannels,
              BandWeights(m, lib, bank, dir, n - 1))
  }

  /** What stereo_mix leaves in X: every coded band mixed, then the padding
      `[B·C·eBands[nbEBands], B·C·eBands[nbEBands+1])` cleared. */
  function Mixed(m: Mode, lib: Libm, x: seq<real>, bank: seq<real>, dir: int): (r: seq<real>)
    requires Fits(m, lib, x, bank)
    ensures |r| == |x|
  {
    Zeroed(MixBands(m, lib, x, bank, dir, m.nbEBands), PadStart(m), SpectrumLength(m))
  }

  /** One pass of the band loop: band `i` mixed after bands `[0, i)`. `x0` and `bk` are the
      contents of X and bank when stereo_mix was called. */
  method MixBandOf(m: Mode, X: array<real>, bank: array<real>, lib: Libm, dir: int, i: int,
                   ghost x0: seq<real>, ghost bk: seq<real>)
    requires Fits(m, lib, x0, bk) && X.Length == |x0| && bank[..] == bk && X != bank
    requires 0 <= i < m.nbEBands && X[..] == MixBands(m, lib, x0, bk, dir, i)
    modifies X
    ensures X[..] == MixBands(m, lib, x0, bk, dir, i + 1)
  {
    var B, C := m.nbMdctBlocks, m.nbChannels;
    var k, lo, hi := i * C, B * m.eBands[i], B * m.eBands[i + 1];
    StereoLayout(m, i, k, lo, hi);
    var left := bank[k];
    var right := bank[k + 1];
    Squares(left, right);
    var s := lib.sqrt(0.01 + left * left + right * right);
    var a1 := left / s;
    var a2 := (dir as real) * right / s;
    ghost var y := X[..];
    MixBand(X, lo, hi, C, a1, a2);
    MixStepIs(m, lib, x0, bk, dir, i, y, X[..], lo, hi, left, right, s, a1, a2);
  }

  /** The positions the band loop computes: the energies of band `i` at `i·C` and `i·C + 1`,
      its bins from `B·eBands[i]` to `B·eBands[i+1]`. */
  lemma StereoLayout(m: Mode, i: int, k: int, lo: int, hi: int)
    requires ValidBands(m) && 2 <= m.nbChannels && 0 <= i < m.nbEBands
    requires k == i * m.nbChannels && lo == m.nbMdctBlocks * m.eBands[i] && hi == m.nbMdctBlocks * m.eBands[i + 1]
    ensures k == Idx(i, 0, m.nbChannels) && k + 1 == Idx(i, 1, m.nbChannels)
    ensures 0 <= k && k + 1 < Mul(m.nbEBands, m.nbChannels)
    ensures lo == BandStart(m, i) && hi == BandStart(m, i + 1) && 0 <= lo && Mul(hi, m.nbChannels) <= SpectrumLength(m)
  {
    MulIsProduct(i, m.nbChannels);
    MulNonNegative(i, m.nbChannels);
    IdxRange(i, 1, m.nbChannels, 0, m.nbEBands);
    BandInSpectrum(m, i);
    MulIsProduct(m.eBands[i], m.nbMdctBlocks);
    MulIsProduct(m.eBands[i + 1], m.nbMdctBlocks);
  }

  /** The band mixed with the weights the loop computes is the next step of MixBands. */
  lemma MixStepIs(m: Mode, lib: Libm, x0: seq<real>, bk: seq<real>, dir: int, i: int, y: seq<real>, y': seq<real>,
                  lo: int, hi: int, left: real, right: real, s: real, a1: real, a2: real)
    requires Fits(m, lib, x0, bk) && 0 <= i < m.nbEBands
    requires 0 <= Idx(i, 0, m.nbChannels) && Idx(i, 1, m.nbChannels) < |bk|
    requires left == bk[Idx(i, 0, m.nbChannels)] && right == bk[Idx(i, 1, m.nbChannels)]
    requires s == lib.sqrt(0.01 + left * left + right * right) && s != 0.0
    requires a1 == left / s && a2 == (dir as real) * right / s
    requires lo == BandStart(m, i) && hi == BandStart(m, i + 1) && 0 <= lo
    requires y == MixBands(m, lib, x0, bk, dir, i) && Mul(hi, m.nbChannels) <= |y|
    requires y' == MixBins(y, lo, hi, m.nbChannels, Weights(a1, a2))
    ensures y' == MixBands(m, lib, x0, bk, dir, i + 1)
  {
    assert Floored(left, right) == 0.01 + left * left + right * right;
    assert WeightsOf(lib, left, right, dir) == Weights(a1, a2);
    assert BandWeights(m, lib, bk, dir, i) == WeightsOf(lib, left, right, dir);
  }

  /** stereo_mix: mixes (dir = +1) or unmixes (dir = −1) the two channels of every bin of every
      coded band with the weights of the band, then clears the padding of X. */
  method StereoMix(m: Mode, X: array<real>, bank: array<real>, lib: Libm, dir: int)
    requires Fits(m, lib, X[..], bank[..]) && X != bank
    modifies X
    ensures X[..] == Mixed(m, lib, old(X[..]), old(bank[..]), dir)
  {
    ghost var x0, bk := X[..], bank[..];
    var i := 0;
    while i < m.nbEBands
      invariant 0 <= i <= m.nbEBands && bank[..] == bk
      invariant X[..] == MixBands(m, lib, x0, bk, dir, i)
    {
      MixBandOf(m, X, bank, lib, dir, i, x0, bk);
      i := i + 1;
    }
    PaddingBounds(m);
    ZeroRange(X, m.nbMdctBlocks * m.nbChannels * m.eBands[m.nbEBands],
              m.nbMdctBlocks * m.nbChannels * m.eBands[m.nbEBands + 1]);
  }

  // ---------------------------------------------------------------------------------------
  // What stereo_mix computes, position by position. Every position of the spectrum is
  // channel `c` of some bin `b` (Modes.IdxCovers).

  /** After bands `[0, n)`, channel 0 or 1 of a bin of band `i < n` holds its mix with the
      weights of band `i`. */
  lemma {:induction false} MixBandsHit(m: Mode, lib: Libm, x: seq<real>, bank: seq<real>, dir: int, n: int, i: int, b: int, c: int)
    requires Fits(m, lib, x, bank) && n <= m.nbEBands && Scaling.InBand(m, i, b) && i < n && 0 <= c < 2
    ensures (Scaling.BandBeforePadding(m, i, b, 1); MulNonNegative(b, m.nbChannels);
      MixBands(m, lib, x, bank, dir, n)[Idx(b, c, m.nbChannels)] ==
        MixedChannel(x, Idx(b, 0, m.nbChannels), c, BandWeights(m, lib, bank, dir, i)))
  {
    hide MixBins, MixedChannel, BandWeights, WeightsOf;
    var C := m.nbChannels;
    Scaling.BandBeforePadding(m, i, b, 1);
    MulNonNegative(b, C);
    BandInSpectrum(m, n - 1);
    var prev := MixBands(m, lib, x, bank, dir, n - 1);
    if i == n - 1 {
      MixBinsHit(prev, BandStart(m, i), BandStart(m, i + 1), C, BandWeights(m, lib, bank, dir, i), b, c);
      MixBandsMiss(m, lib, x, bank, dir, n - 1, b, 0);
      MixBandsMiss(m, lib, x, bank, dir, n - 1, b, 1);
      SameChannel(prev, x, Idx(b, 0, C), c, BandWeights(m, lib, bank, dir, i));
    } else {
      MulMono(m.eBands[i + 1], m.eBands[n - 1], m.nbMdctBlocks);
      MixBinsMiss(prev, BandStart(m, n - 1), BandStart(m, n), C, BandWeights(m, lib, bank, dir, n - 1), b, c);
      MixBandsHit(m, lib, x, bank, dir, n - 1, i, b, c);
    }
  }

  /** The mix of a pair depends only on the pair. */
  lemma SameChannel(x: seq<real>, y: seq<real>, p: int, c: int, w: Weights)
    requires 0 <= p && p + 1 < |x| && p + 1 < |y| && x[p] == y[p] && x[p + 1] == y[p + 1]
    ensures MixedChannel(x, p, c, w) == MixedChannel(y, p, c, w)
  {
  }

  /** After bands `[0, n)`, the channels from 2 on, the bins below band 0 and the bins from
      band `n` on keep their values. */
  lemma {:induction false} MixBandsMiss(m: Mode, lib: Libm, x: seq<real>, bank: seq<real>, dir: int, n: int, b: int, c: int)
    requires Fits(m, lib, x, bank) && 0 <= n <= m.nbEBands
    requires 0 <= c < m.nbChannels && 0 <= Idx(b, c, m.nbChannels) < |x|
    requires 2 <= c || b < BandStart(m, 0) || BandStart(m, n) <= b
    ensures MixBands(m, lib, x, bank, dir, n)[Idx(b, c, m.nbChannels)] == x[Idx(b, c, m.nbChannels)]
  {
    if n > 0 {
      BandInSpectrum(m, n - 1);
      BandBounds(m, n - 1);
      MixBinsMiss(MixBands(m, lib, x, bank, dir, n - 1), BandStart(m, n - 1), BandStart(m, n), m.nbChannels,
                  BandWeights(m, lib, bank, dir, n - 1), b, c);
      MixBandsMiss(m, lib, x, bank, dir, n - 1, b, c);
    }
  }

  /** stereo_mix sets channel 0 of every bin of band `i` to a1·l + a2·r and channel 1 to
      a1·r − a2·l, where (l, r) is the bin's pair before the call and (a1, a2) the weights of
      band `i`. */
  lemma MixedInBand(m: Mode, lib: Libm, x: seq<real>, bank: seq<real>, dir: int, i: int, b: int, c: int)
    requires Fits(m, lib, x, bank) && Scaling.InBand(m, i, b) && 0 <= c < 2
    ensures (Scaling.BandBeforePadding(m, i, b, 1); MulNonNegative(b, m.nbChannels);
      Mixed(m, lib, x, bank, dir)[Idx(b, c, m.nbChannels)] ==
        MixedChannel(x, Idx(b, 0, m.nbChannels), c, BandWeights(m, lib, bank, dir, i)))
  {
    Scaling.BandBeforePadding(m, i, b, c);
    Scaling.BandBeforePadding(m, i, b, 1);
    MulNonNegative(b, m.nbChannels);
    MixBandsHit(m, lib, x, bank, dir, m.nbEBands, i, b, c);
  }

  /** Every other position keeps its value, except the padding, which is cleared: the
      channels from 2 on, the bins below band 0, and everything from the end of the last band. */
  lemma MixedElsewhere(m: Mode, lib: Libm, x: seq<real>, bank: seq<real>, dir: int, b: int, c: int)
    requires Fits(m, lib, x, bank) && 0 <= c < m.nbChannels && 0 <= Idx(b, c, m.nbChannels) < |x|
    requires 2 <= c || b < BandStart(m, 0) || BandStart(m, m.nbEBands) <= b
    ensures Mixed(m, lib, x, bank, dir)[Idx(b, c, m.nbChannels)] ==
      if PadStart(m) <= Idx(b, c, m.nbChannels) < SpectrumLength(m) then 0.0 else x[Idx(b, c, m.nbChannels)]
  {
    MixBandsMiss(m, lib, x, bank, dir, m.nbEBands, b, c);
  }

  /** Mixing scales the energy l² + r² of every pair of band `i` by a1² + a2². */
  lemma MixedPairEnergy(m: Mode, lib: Libm, x: seq<real>, bank: seq<real>, dir: int, i: int, b: int)
    requires Fits(m, lib, x, bank) && Scaling.InBand(m, i, b)
    ensures (Scaling.BandBeforePadding(m, i, b, 1); MulNonNegative(b, m.nbChannels);
      var y := Mixed(m, lib, x, bank, dir);
      var p := Idx(b, 0, m.nbChannels);
      y[p] * y[p] + y[p + 1] * y[p + 1] == PairGain(BandWeights(m, lib, bank, dir, i)) * (x[p] * x[p] + x[p + 1] * x[p + 1]))
  {
    hide Mixed, MixBands, MixBins, WeightsOf, BandWeights, PairGain;
    Scaling.BandBeforePadding(m, i, b, 1);
    MulNonNegative(b, m.nbChannels);
    var w := BandWeights(m, lib, bank, dir, i);
    var p := Idx(b, 0, m.nbChannels);
    MixedInBand(m, lib, x, bank, dir, i, b, 0);
    MixedInBand(m, lib, x, bank, dir, i, b, 1);
    PairEnergy(w, x[p], x[p + 1]);
  }

  /** stereo_mix with dir = +1 and then with dir = −1, on the same energies, multiplies channel 0
      and channel 1 of every bin of band `i` by a1² + a2² of the band. */
  lemma MixUnmix(m: Mode, lib: Libm, x: seq<real>, bank: seq<real>, i: int, b: int, c: int)
    requires Fits(m, lib, x, bank) && Scaling.InBand(m, i, b) && 0 <= c < 2
    ensures (Scaling.BandBeforePadding(m, i, b, 1); MulNonNegative(b, m.nbChannels);
      Mixed(m, lib, Mixed(m, lib, x, bank, 1), bank, -1)[Idx(b, c, m.nbChannels)] ==
        PairGain(BandWeights(m, lib, bank, 1, i)) * x[Idx(b, c, m.nbChannels)])
  {
    hide Mixed, MixBands, MixBins, WeightsOf, PairGain;
    var C := m.nbChannels;
    Scaling.BandBeforePadding(m, i, b, 1);
    MulNonNegative(b, C);
    var y := Mixed(m, lib, x, bank, 1);
    var p := Idx(b, 0, C);
    MixedInBand(m, lib, x, bank, 1, i, b, 0);
    MixedInBand(m, lib, x, bank, 1, i, b, 1);
    MixedInBand(m, lib, y, bank, -1, i, b, c);
    MulNonNegative(i, C);
    IdxRange(i, 1, C, 0, m.nbEBands);
    WeightsOpposite(lib, bank[Idx(i, 0, C)], bank[Idx(i, 1, C)]);
    UnmixedChannel(BandWeights(m, lib, bank, 1, i), BandWeights(m, lib, bank, -1, i), x[p], x[p + 1], y, p, c,
                   x[Idx(b, c, C)]);
  }

  /** Unmixing a pair that holds the mix of (l, r) gives a1² + a2² times l, and times r. */
  lemma UnmixedChannel(w: Weights, w': Weights, l: real, r: real, y: seq<real>, p: int, c: int, v: real)
    requires 0 <= p && p + 1 < |y| && w' == Unmixing(w)
    requires y[p] == MixedChannel([l, r], 0, 0, w) && y[p + 1] == MixedChannel([l, r], 0, 1, w)
    requires v == if c == 0 then l else r
    ensures MixedChannel(y, p, c, w') == PairGain(w) * v
  {
    PairRoundTrip(w, l, r);
  }
}
