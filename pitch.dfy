/** The pitch predictor's gains: compute_pitch_gain estimates, per pitch band, how much of the
    pitch-predicted spectrum P to keep; pitch_quant_bands applies the (quantised) gains to P.
    Both treat the C channels of a bin as one run of samples: pitch band `i` is the positions
    `[B·C·pBands[i], B·C·pBands[i+1])`. */
module Pitch {
  import opened Modes
  import opened Padding

  /** The pitch partition lies inside the energy bands: pitch band `i` is within the coded
      energy bands and inside the spectrum. */
  lemma PitchBandInside(m: Mode, i: int)
    requires ValidPitchBands(m) && 0 <= i < m.nbPBands
    ensures Span(m, m.eBands[0]) <= Span(m, m.pBands[i]) <= Span(m, m.pBands[i + 1]) <= Span(m, m.eBands[m.nbEBands])
    ensures Span(m, m.eBands[m.nbEBands]) <= SpectrumLength(m)
  {
    SpanMono(m, m.eBands[0], m.pBands[i]);
    SpanMono(m, m.pBands[i], m.pBands[i + 1]);
    SpanMono(m, m.pBands[i + 1], m.pBands[m.nbPBands]);
    SpanMono(m, m.pBands[m.nbPBands], m.eBands[m.nbEBands]);
    SpanMono(m, m.eBands[m.nbEBands], m.eBands[m.nbEBands + 1]);
  }

  /** The padding of P: from the end of the last pitch band to B·C·pBands[nbPBands+1], inside
      the spectrum. */
  lemma PitchPaddingInside(m: Mode)
    requires ValidPitchBands(m)
    ensures 0 <= Span(m, m.pBands[m.nbPBands]) && Span(m, m.pBands[m.nbPBands + 1]) <= SpectrumLength(m)
  {
    SpanNonNegative(m, m.eBands[0]);
    SpanMono(m, m.eBands[0], m.pBands[0]);
    SpanMono(m, m.pBands[0], m.pBands[m.nbPBands]);
    SpanMono(m, m.pBands[m.nbPBands + 1], m.eBands[m.nbEBands + 1]);
  }

  // ---------------------------------------------------------------------------------------
  // compute_pitch_gain

  /** The weight vector w of compute_pitch_gain: every position `j` of energy band `i` carries
      bank[i]·ENER_SCALING_1. The source indexes the energies by band alone (bank[i]), for
      every channel. Positions below the first band are never written by the source and are
      never read; they are 0 here. */
  function Weights(m: Mode, bank: seq<real>): (w: seq<real>)
    requires ValidBands(m) && m.nbEBands <= |bank|
    ensures |w| == Span(m, m.eBands[m.nbEBands])
  {
    SpanNonNegative(m, m.eBands[m.nbEBands]);
    seq(Span(m, m.eBands[m.nbEBands]), j requires 0 <= j < Span(m, m.eBands[m.nbEBands]) =>
      if Span(m, m.eBands[0]) <= j then bank[Locate(m, m.eBands, m.nbEBands, j, 0)] * EnerScaling1 else 0.0)
  }

  /** Every position of energy band `i` has weight bank[i]·ENER_SCALING_1. */
  lemma WeightsInBand(m: Mode, bank: seq<real>, i: int)
    requires ValidBands(m) && m.nbEBands <= |bank| && 0 <= i < m.nbEBands
    ensures 0 <= Span(m, m.eBands[0]) <= Span(m, m.eBands[i]) <= Span(m, m.eBands[i + 1]) <= Span(m, m.eBands[m.nbEBands])
    ensures forall j :: Span(m, m.eBands[i]) <= j < Span(m, m.eBands[i + 1]) ==> Weights(m, bank)[j] == bank[i] * EnerScaling1
  {
    SpanNonNegative(m, m.eBands[0]);
    SpanMono(m, m.eBands[0], m.eBands[i]);
    SpanMono(m, m.eBands[i], m.eBands[i + 1]);
    SpanMono(m, m.eBands[i + 1], m.eBands[m.nbEBands]);
    forall j | Span(m, m.eBands[i]) <= j < Span(m, m.eBands[i + 1])
      ensures Weights(m, bank)[j] == bank[i] * EnerScaling1
    {
      LocateBand(m, m.eBands, m.nbEBands, 0, i, j);
    }
  }

  /** Weights of non-negative energies are non-negative. */
  lemma WeightsNonNegative(m: Mode, bank: seq<real>)
    requires ValidBands(m) && m.nbEBands <= |bank| && (forall k :: 0 <= k < m.nbEBands ==> 0.0 <= bank[k])
    ensures forall j :: 0 <= j < |Weights(m, bank)| ==> 0.0 <= Weights(m, bank)[j]
  {
  }

  /** Σ 1·x[j]·y[j]·w[j] over the positions `[lo, hi)`: Sxy with y = P, Sxx with y = X. */
  function Correlation(x: seq<real>, y: seq<real>, w: seq<real>, lo: int, hi: int): real
    requires 0 <= lo && hi <= |x| && hi <= |y| && hi <= |w|
    decreases hi - lo
  {
    if hi <= lo then 0.0
    else Correlation(x, y, w, lo, hi - 1) + 1.0 * x[hi - 1] * y[hi - 1] * w[hi - 1]
  }

  lemma SquareWeighted(a: real, w: real)
    requires 0.0 <= w
    ensures 0.0 <= 1.0 * a * a * w
  {
    assert 0.0 <= a * a;
  }

  /** With non-negative weights Sxx is never negative, so the gain's denominator is at least
      1e-10·NORM_SCALING². */
  lemma {:induction false} SelfCorrelationNonNegative(x: seq<real>, w: seq<real>, lo: int, hi: int)
    requires 0 <= lo && hi <= |x| && hi <= |w|
    requires forall k :: lo <= k < hi ==> 0.0 <= w[k]
    ensures 0.0 <= Correlation(x, x, w, lo, hi)
    decreases hi - lo
  {
    if hi > lo {
      SelfCorrelationNonNegative(x, w, lo, hi - 1);
      SquareWeighted(x[hi - 1], w[hi - 1]);
    }
  }

  /** The correlation is symmetric in its two signals. */
  lemma {:induction false} CorrelationSymmetric(x: seq<real>, y: seq<real>, w: seq<real>, lo: int, hi: int)
    requires 0 <= lo && hi <= |x| && hi <= |y| && hi <= |w|
    ensures Correlation(x, y, w, lo, hi) == Correlation(y, x, w, lo, hi)
    decreases hi - lo
  {
    if hi > lo {
      CorrelationSymmetric(x, y, w, lo, hi - 1);
    }
  }

  /** The denominator of the gain: 1e-10·NORM_SCALING² + Sxx. */
  function Denominator(sxx: real): real {
    Floor * NormScaling * NormScaling + sxx
  }

  /** Sxy / (1e-10·NORM_SCALING² + Sxx), capped at 1, raised to 0, and scaled by 0.9. */
  function PitchGain(sxy: real, sxx: real): (g: real)
    requires 0.0 <= sxx
    ensures 0.0 <= g <= 0.9
  {
    var gain := sxy / Denominator(sxx);
    var capped := if gain > 1.0 then 1.0 else gain;
    var clamped := if capped < 0.0 then 0.0 else capped;
    clamped * 0.9
  }

  lemma QuotientSign(a: real, d: real)
    requires 0.0 < d
    ensures a / d <= 0.0 <==> a <= 0.0
    ensures a / d >= 1.0 <==> a >= d
  {
    assert a / d * d == a;
  }

  /** The gain is zero exactly when P is not positively correlated with X. */
  lemma PitchGainZero(sxy: real, sxx: real)
    requires 0.0 <= sxx
    ensures PitchGain(sxy, sxx) == 0.0 <==> sxy <= 0.0
  {
    QuotientSign(sxy, Denominator(sxx));
  }

  /** The gain reaches its ceiling 0.9 exactly when Sxy is at least the denominator. */
  lemma PitchGainFull(sxy: real, sxx: real)
    requires 0.0 <= sxx
    ensures PitchGain(sxy, sxx) == 0.9 <==> sxy >= Denominator(sxx)
  {
    QuotientSign(sxy, Denominator(sxx));
  }

  /** When the prediction equals the signal (Sxy = Sxx), the gain is 0.9·Sxx/(1e-10·NORM_SCALING²
      + Sxx): strictly below the 0.9 ceiling. */
  lemma SelfPredictionGain(sxx: real)
    requires 0.0 <= sxx
    ensures PitchGain(sxx, sxx) == 0.9 * (sxx / Denominator(sxx)) < 0.9
  {
    QuotientSign(sxx, Denominator(sxx));
  }

  /** Pitch band `i` lies inside the weight vector, whose weights are non-negative there. */
  lemma PitchBandWeighted(m: Mode, bank: seq<real>, i: int)
    requires ValidPitchBands(m) && m.nbEBands <= |bank| && (forall k :: 0 <= k < m.nbEBands ==> 0.0 <= bank[k])
    requires 0 <= i < m.nbPBands
    ensures 0 <= Span(m, m.pBands[i]) <= Span(m, m.pBands[i + 1]) <= |Weights(m, bank)| <= SpectrumLength(m)
    ensures forall k :: Span(m, m.pBands[i]) <= k < Span(m, m.pBands[i + 1]) ==> 0.0 <= Weights(m, bank)[k]
  {
    PitchBandInside(m, i);
    SpanNonNegative(m, m.eBands[0]);
    WeightsNonNegative(m, bank);
  }

  /** gains[i] as compute_pitch_gain computes it from X, P and the energies. */
  function BandGain(m: Mode, x: seq<real>, p: seq<real>, bank: seq<real>, i: int): (g: real)
    requires ValidPitchBands(m) && |x| >= SpectrumLength(m) && |p| >= SpectrumLength(m)
    requires m.nbEBands <= |bank| && (forall k :: 0 <= k < m.nbEBands ==> 0.0 <= bank[k])
    requires 0 <= i < m.nbPBands
    ensures 0.0 <= g <= 0.9
  {
    PitchBandWeighted(m, bank, i);
    var w, lo, hi := Weights(m, bank), Span(m, m.pBands[i]), Span(m, m.pBands[i + 1]);
    SelfCorrelationNonNegative(x, w, lo, hi);
    PitchGain(Correlation(x, p, w, lo, hi), Correlation(x, x, w, lo, hi))
  }

  /** When P is X itself, every gain is below 0.9. */
  lemma SelfPredictionBelowCeiling(m: Mode, x: seq<real>, bank: seq<real>, i: int)
    requires ValidPitchBands(m) && |x| >= SpectrumLength(m)
    requires m.nbEBands <= |bank| && (forall k :: 0 <= k < m.nbEBands ==> 0.0 <= bank[k])
    requires 0 <= i < m.nbPBands
    ensures BandGain(m, x, x, bank, i) < 0.9
  {
    PitchBandWeighted(m, bank, i);
    SelfCorrelationNonNegative(x, Weights(m, bank), Span(m, m.pBands[i]), Span(m, m.pBands[i + 1]));
    SelfPredictionGain(Correlation(x, x, Weights(m, bank), Span(m, m.pBands[i]), Span(m, m.pBands[i + 1])));
  }

  /** `x` with every position of `[lo, hi)` set to `v`. */
  function Filled(x: seq<real>, lo: int, hi: int, v: real): (r: seq<real>)
    ensures |r| == |x|
    ensures forall k :: 0 <= k < |x| ==> r[k] == (if lo <= k < hi then v else x[k])
  {
    seq(|x|, k requires 0 <= k < |x| => if lo <= k < hi then v else x[k])
  }

  /** The inner loop of the weight fill: w[j] = v for every `j` in `[lo, hi)`. */
  method FillRange(w: array<real>, lo: int, hi: int, v: real)
    requires 0 <= lo && hi <= w.Length
    modifies w
    ensures w[..] == Filled(old(w[..]), lo, hi, v)
  {
    ghost var w0 := w[..];
    var j := lo;
    while j < hi
      invariant lo <= j && (j <= hi || j == lo)
      invariant w[..] == Filled(w0, lo, j, v)
    {
      w[j] := v;
      j := j + 1;
    }
  }

  /** The first loop of compute_pitch_gain: w agrees with Weights on every coded energy band. */
  method FillWeights(m: Mode, bank: array<real>, w: array<real>)
    requires ValidBands(m) && m.nbEBands <= bank.Length && w != bank
    requires w.Length == Span(m, m.eBands[m.nbEBands])
    modifies w
    ensures forall j :: Span(m, m.eBands[0]) <= j < w.Length ==> w[j] == Weights(m, bank[..])[j]
  {
    var B := m.nbMdctBlocks * m.nbChannels;
    ghost var ws := Weights(m, bank[..]);
    var i := 0;
    SpanNonNegative(m, m.eBands[0]);
    SpanMono(m, m.eBands[0], m.eBands[m.nbEBands]);
    while i < m.nbEBands
      invariant 0 <= i <= m.nbEBands && Span(m, m.eBands[0]) <= Span(m, m.eBands[i]) <= w.Length
      invariant forall j :: Span(m, m.eBands[0]) <= j < Span(m, m.eBands[i]) ==> w[j] == ws[j]
    {
      WeightsInBand(m, bank[..], i);
      SpanForm(m, m.eBands[i]);
      SpanForm(m, m.eBands[i + 1]);
      FillRange(w, B * m.eBands[i], B * m.eBands[i + 1], bank[i] * EnerScaling1);
      i := i + 1;
    }
  }

  /** The inner loop of the second part: Sxy and Sxx over the positions `[lo, hi)`. */
  method Correlate(X: array<real>, P: array<real>, w: array<real>, lo: int, hi: int, ghost ws: seq<real>)
      returns (sxy: real, sxx: real)
    requires 0 <= lo <= hi && hi <= X.Length && hi <= P.Length && hi <= w.Length && hi <= |ws|
    requires forall j :: lo <= j < hi ==> w[j] == ws[j]
    ensures sxy == Correlation(X[..], P[..], ws, lo, hi)
    ensures sxx == Correlation(X[..], X[..], ws, lo, hi)
  {
    sxy, sxx := 0.0, 0.0;
    var j := lo;
    while j < hi
      invariant lo <= j <= hi
      invariant sxy == Correlation(X[..], P[..], ws, lo, j)
      invariant sxx == Correlation(X[..], X[..], ws, lo, j)
    {
      sxy := sxy + 1.0 * X[j] * P[j] * w[j];
      sxx := sxx + 1.0 * X[j] * X[j] * w[j];
      j := j + 1;
    }
  }

  /** The clamped gain of one pitch band, as the source computes it in place. */
  method ClampGain(sxy: real, sxx: real) returns (gain: real)
    requires 0.0 <= sxx
    ensures gain == PitchGain(sxy, sxx)
  {
    gain := sxy / (Floor * NormScaling * NormScaling + sxx);
    if gain > 1.0 {
      gain := 1.0;
    }
    if gain < 0.0 {
      gain := 0.0;
    }
    gain := gain * 0.9;
  }

  /** The gains loop: gains[i] = BandGain for every pitch band, nothing else written. */
  method GainsLoop(m: Mode, X: array<real>, P: array<real>, gains: array<real>, w: array<real>, ghost bk: seq<real>)
    requires ValidPitchBands(m) && X.Length >= SpectrumLength(m) && P.Length >= SpectrumLength(m)
    requires m.nbPBands <= gains.Length && m.nbEBands <= |bk| && (forall k :: 0 <= k < m.nbEBands ==> 0.0 <= bk[k])
    requires gains != X && gains != P && gains != w
    requires w.Length == Span(m, m.eBands[m.nbEBands])
    requires forall j :: Span(m, m.eBands[0]) <= j < w.Length ==> w[j] == Weights(m, bk)[j]
    modifies gains
    ensures forall i :: 0 <= i < m.nbPBands ==> gains[i] == BandGain(m, X[..], P[..], bk, i)
    ensures gains[m.nbPBands..] == old(gains[m.nbPBands..])
  {
    var B := m.nbMdctBlocks * m.nbChannels;
    ghost var ws := Weights(m, bk);
    var i := 0;
    while i < m.nbPBands
      invariant 0 <= i <= m.nbPBands
      invariant forall k :: 0 <= k < i ==> gains[k] == BandGain(m, X[..], P[..], bk, k)
      invariant gains[m.nbPBands..] == old(gains[m.nbPBands..])
    {
      PitchBandWeighted(m, bk, i);
      PitchBandInside(m, i);
      SpanForm(m, m.pBands[i]);
      SpanForm(m, m.pBands[i + 1]);
      var sxy, sxx := Correlate(X, P, w, B * m.pBands[i], B * m.pBands[i + 1], ws);
      SelfCorrelationNonNegative(X[..], ws, Span(m, m.pBands[i]), Span(m, m.pBands[i + 1]));
      var gain := ClampGain(sxy, sxx);
      gains[i] := gain;
      i := i + 1;
    }
  }

  /** compute_pitch_gain: gains[i] is BandGain for every pitch band (so within [0, 0.9]), the
      rest of gains is left alone, and the padding of P is cleared. P may be X. */
  method ComputePitchGain(m: Mode, X: array<real>, P: array<real>, gains: array<real>, bank: array<real>)
    requires ValidPitchBands(m) && X.Length >= SpectrumLength(m) && P.Length >= SpectrumLength(m)
    requires m.nbPBands <= gains.Length && m.nbEBands <= bank.Length
    requires forall k :: 0 <= k < m.nbEBands ==> 0.0 <= bank[k]
    requires gains != X && gains != P && gains != bank && P != bank
    modifies P, gains
    ensures forall i :: 0 <= i < m.nbPBands ==> gains[i] == BandGain(m, old(X[..]), old(P[..]), old(bank[..]), i)
    ensures gains[m.nbPBands..] == old(gains[m.nbPBands..])
    ensures (PitchPaddingInside(m);
      P[..] == Zeroed(old(P[..]), Span(m, m.pBands[m.nbPBands]), Span(m, m.pBands[m.nbPBands + 1])))
  {
    var B := m.nbMdctBlocks * m.nbChannels;
    SpanForm(m, m.eBands[m.nbEBands]);
    SpanNonNegative(m, m.eBands[m.nbEBands]);
    var w := new real[B * m.eBands[m.nbEBands]];
    FillWeights(m, bank, w);
    GainsLoop(m, X, P, gains, w, bank[..]);
    PitchPaddingInside(m);
    SpanForm(m, m.pBands[m.nbPBands]);
    SpanForm(m, m.pBands[m.nbPBands + 1]);
    ZeroRange(P, B * m.pBands[m.nbPBands], B * m.pBands[m.nbPBands + 1]);
  }

  // ---------------------------------------------------------------------------------------
  // pitch_quant_bands

  /** `p` with every position of `[lo, hi)` multiplied by `g`. */
  function ScaledRange(p: seq<real>, lo: int, hi: int, g: real): (r: seq<real>)
    ensures |r| == |p|
  {
    seq(|p|, k requires 0 <= k < |p| => if lo <= k < hi then Times(p[k], g) else p[k])
  }

  /** `p` after the first `n` pitch bands have been multiplied by their gains. */
  function PitchScaled(m: Mode, p: seq<real>, gains: seq<real>, n: int): (r: seq<real>)
    requires ValidPitchBands(m) && 0 <= n <= m.nbPBands && m.nbPBands <= |gains|
    ensures |r| == |p|
  {
    if n == 0 then p
    else ScaledRange(PitchScaled(m, p, gains, n - 1), Span(m, m.pBands[n - 1]), Span(m, m.pBands[n]), gains[n - 1])
  }

  /** Each position of pitch band `i < n` holds p·gains[i]. */
  lemma {:induction false} PitchScaledIn(m: Mode, p: seq<real>, gains: seq<real>, n: int, i: int, k: int)
    requires ValidPitchBands(m) && 0 <= i < n <= m.nbPBands && m.nbPBands <= |gains| && 0 <= k < |p|
    requires Span(m, m.pBands[i]) <= k < Span(m, m.pBands[i + 1])
    ensures PitchScaled(m, p, gains, n)[k] == Times(p[k], gains[i])
    decreases n
  {
    if i == n - 1 {
      PitchScaledOut(m, p, gains, n - 1, k);
    } else {
      SpanMono(m, m.pBands[i + 1], m.pBands[n - 1]);
      PitchScaledIn(m, p, gains, n - 1, i, k);
    }
  }

  /** Positions outside the first `n` pitch bands are untouched. */
  lemma {:induction false} PitchScaledOut(m: Mode, p: seq<real>, gains: seq<real>, n: int, k: int)
    requires ValidPitchBands(m) && 0 <= n <= m.nbPBands && m.nbPBands <= |gains| && 0 <= k < |p|
    requires k < Span(m, m.pBands[0]) || Span(m, m.pBands[n]) <= k
    ensures PitchScaled(m, p, gains, n)[k] == p[k]
    decreases n
  {
    if n > 0 {
      SpanMono(m, m.pBands[0], m.pBands[n - 1]);
      SpanMono(m, m.pBands[n - 1], m.pBands[n]);
      PitchScaledOut(m, p, gains, n - 1, k);
    }
  }

  /** What pitch_quant_bands leaves in P: every pitch band scaled by its gain, then the pitch
      padding cleared. */
  function PitchQuantised(m: Mode, p: seq<real>, gains: seq<real>): (r: seq<real>)
    requires ValidPitchBands(m) && m.nbPBands <= |gains|
    ensures |r| == |p|
  {
    Zeroed(PitchScaled(m, p, gains, m.nbPBands), Span(m, m.pBands[m.nbPBands]), Span(m, m.pBands[m.nbPBands + 1]))
  }

  /** In the result of pitch_quant_bands, each position of pitch band `i` holds P[k]·gains[i]. */
  lemma PitchQuantisedAt(m: Mode, p: seq<real>, gains: seq<real>, i: int, k: int)
    requires ValidPitchBands(m) && m.nbPBands <= |gains| && 0 <= i < m.nbPBands && 0 <= k < |p|
    requires Span(m, m.pBands[i]) <= k < Span(m, m.pBands[i + 1])
    ensures PitchQuantised(m, p, gains)[k] == Times(p[k], gains[i])
  {
    PitchScaledIn(m, p, gains, m.nbPBands, i, k);
    SpanMono(m, m.pBands[i + 1], m.pBands[m.nbPBands]);
  }

  /** The pitch padding of the result of pitch_quant_bands holds 0. */
  lemma PitchQuantisedPadding(m: Mode, p: seq<real>, gains: seq<real>, k: int)
    requires ValidPitchBands(m) && m.nbPBands <= |gains| && 0 <= k < |p|
    requires Span(m, m.pBands[m.nbPBands]) <= k < Span(m, m.pBands[m.nbPBands + 1])
    ensures PitchQuantised(m, p, gains)[k] == 0.0
  {
  }

  /** Positions before the first pitch band and after the pitch padding are left alone. */
  lemma PitchQuantisedOutside(m: Mode, p: seq<real>, gains: seq<real>, k: int)
    requires ValidPitchBands(m) && m.nbPBands <= |gains| && 0 <= k < |p|
    requires k < Span(m, m.pBands[0]) || Span(m, m.pBands[m.nbPBands + 1]) <= k
    ensures PitchQuantised(m, p, gains)[k] == p[k]
  {
    SpanMono(m, m.pBands[0], m.pBands[m.nbPBands]);
    SpanMono(m, m.pBands[m.nbPBands], m.pBands[m.nbPBands + 1]);
    PitchScaledOut(m, p, gains, m.nbPBands, k);
  }

  lemma ShrinkArithmetic(v: real, g: real, q: real)
    requires 0.0 <= g <= 0.9 && q == Times(v, g)
    ensures q * q <= 0.81 * (v * v)
  {
    assert q * q == g * g * (v * v);
    assert g * g <= 0.9 * g <= 0.81;
    assert 0.0 <= (0.81 - g * g) * (v * v);
  }

  /** With gains as compute_pitch_gain produces them (in [0, 0.9]), pitch_quant_bands never
      increases the energy of a sample: its square shrinks to at most 0.81 of what it was. */
  lemma PitchQuantisedShrinks(m: Mode, p: seq<real>, gains: seq<real>, k: int)
    requires ValidPitchBands(m) && m.nbPBands <= |gains| && 0 <= k < |p|
    requires forall i :: 0 <= i < m.nbPBands ==> 0.0 <= gains[i] <= 0.9
    requires Span(m, m.pBands[0]) <= k < Span(m, m.pBands[m.nbPBands])
    ensures PitchQuantised(m, p, gains)[k] * PitchQuantised(m, p, gains)[k] <= 0.81 * (p[k] * p[k])
  {
    var i := Locate(m, m.pBands, m.nbPBands, k, 0);
    PitchQuantisedAt(m, p, gains, i, k);
    ShrinkArithmetic(p[k], gains[i], PitchQuantised(m, p, gains)[k]);
  }

  /** pitch_quant_bands: P becomes PitchQuantised (each pitch band scaled by its gain, the pitch
      padding cleared); X and gains are not written. */
  method PitchQuantBands(m: Mode, X: array<real>, P: array<real>, gains: array<real>)
    requires ValidPitchBands(m) && P.Length >= SpectrumLength(m) && m.nbPBands <= gains.Length && P != gains
    modifies P
    ensures P[..] == PitchQuantised(m, old(P[..]), old(gains[..]))
  {
    var B := m.nbMdctBlocks * m.nbChannels;
    ghost var p0, g0 := P[..], gains[..];
    var i := 0;
    while i < m.nbPBands
      invariant 0 <= i <= m.nbPBands && gains[..] == g0
      invariant P[..] == PitchScaled(m, p0, g0, i)
    {
      PitchBandInside(m, i);
      SpanNonNegative(m, m.eBands[0]);
      SpanForm(m, m.pBands[i]);
      SpanForm(m, m.pBands[i + 1]);
      ScaleRange(P, B * m.pBands[i], B * m.pBands[i + 1], gains[i]);
      i := i + 1;
    }
    PitchPaddingInside(m);
    SpanForm(m, m.pBands[m.nbPBands]);
    SpanForm(m, m.pBands[m.nbPBands + 1]);
    ZeroRange(P, B * m.pBands[m.nbPBands], B * m.pBands[m.nbPBands + 1]);
  }

  /** The inner loop of pitch_quant_bands: P[j] *= g for every `j` in `[lo, hi)`. */
  method ScaleRange(P: array<real>, lo: int, hi: int, g: real)
    requires 0 <= lo && hi <= P.Length
    modifies P
    ensures P[..] == ScaledRange(old(P[..]), lo, hi, g)
  {
    ghost var p0 := P[..];
    var j := lo;
    while j < hi
      invariant lo <= j && (j <= hi || j == lo)
      invariant P[..] == ScaledRange(p0, lo, j, g)
    {
      P[j] := Times(P[j], g);
      j := j + 1;
    }
  }
}
