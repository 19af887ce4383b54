/** What the band loop of quant_bands and unquant_bands guarantees: each band step writes only
    its own band, the context of a band is the coded band scaled, the bands are coded in
    ascending order so that the context of every earlier band survives, the padding of X is
    cleared, the spreading rotations keep the energy the vector quantiser produced, and the
    encoder and the decoder stay in step when their collaborators agree. */
module ResidualFacts {
  import opened Modes
  import opened Residual
  import Rotation

  /** `a` and `b` agree outside the positions `[lo, hi)`. */
  predicate AgreeOutside(a: seq<real>, b: seq<real>, lo: int, hi: int) {
    0 <= lo <= hi <= |a| == |b| && a[..lo] == b[..lo] && a[hi..] == b[hi..]
  }

  /** The context `norm` holds, at `[lo, hi)`, the samples of `x` scaled by `n`. */
  predicate ScaledCopy(norm: seq<real>, x: seq<real>, lo: int, hi: int, n: real) {
    0 <= lo <= hi <= |x| && hi <= |norm| && norm[lo..hi] == Scale(x[lo..hi], n)
  }

  /** A splice holds `t` at `lo` and leaves everything else. */
  lemma SpliceView(s: seq<real>, lo: int, t: seq<real>)
    requires 0 <= lo && lo + |t| <= |s|
    ensures Splice(s, lo, t)[lo..lo + |t|] == t
    ensures AgreeOutside(Splice(s, lo, t), s, lo, lo + |t|)
  {
    var r := Splice(s, lo, t);
    assert r == s[..lo] + t + s[lo + |t|..];
    assert r[..lo] == s[..lo];
    assert r[lo..lo + |t|] == t;
    assert r[lo + |t|..] == s[lo + |t|..];
  }

  /** A collaborator's output has the length of the band it was handed. */
  lemma OracleLength(coder: Coder, c: Call)
    requires WellFormed(coder)
    ensures |coder.x(c)| == |c.x| && |coder.p(c)| == |c.p|
  {
  }

  /** The intra stage writes X and P only inside the band. */
  lemma IntraStageFrame(coder: Coder, enc: bool, i: int, d: Decision, lo: int, hi: int, wBand: seq<real>, f: Frame)
    requires Holds(f, lo, hi) && WellFormed(coder)
    ensures var r := IntraStage(coder, enc, i, d, lo, hi, wBand, f);
      AgreeOutside(r.x, f.x, lo, hi) && AgreeOutside(r.p, f.p, lo, hi) && r.norm == f.norm
  {
    if d.intra {
      var call := IntraCall(coder, enc, i, d.q, d.alpha, lo, hi, wBand, f);
      OracleLength(coder, call);
      SpliceView(f.x, lo, coder.x(call));
      SpliceView(f.p, lo, coder.p(call));
    }
  }

  /** The pulse stage writes X and P only inside the band. */
  lemma VqStageFrame(coder: Coder, lib: Libm, enc: bool, i: int, q: int, alpha: real, theta: real, stride: int, iter: int,
                     lo: int, hi: int, wBand: seq<real>, f: Frame)
    requires Holds(f, lo, hi) && WellFormed(coder)
    ensures var r := VqStage(coder, lib, enc, i, q, alpha, theta, stride, iter, lo, hi, wBand, f);
      AgreeOutside(r.x, f.x, lo, hi) && AgreeOutside(r.p, f.p, lo, hi) && r.norm == f.norm
  {
    if q > 0 {
      var call := VqCall(coder, lib, enc, i, q, alpha, theta, stride, iter, lo, hi, wBand, f);
      OracleLength(coder, call);
      var t := Rotation.ExpRotated(coder.x(call), stride, Rotation.TurnOf(lib, theta, 1), iter);
      SpliceView(f.x, lo, t);
      SpliceView(f.p, lo, coder.p(call));
    }
  }

  /** The band step for band `i` changes X, P and the context only inside the band, and leaves
      there a context that is the coded band of X scaled by 0.0625·sqrt(width). */
  lemma BandStepFrame(m: Mode, coder: Coder, lib: Libm, enc: bool, w: seq<real>, pulses: seq<int>, f: Frame, i: int)
    requires ValidBands(m) && 0 <= i < m.nbEBands && i < |pulses| && Fits(m, enc, f, w) && WellFormed(coder)
    ensures var r := BandStep(m, coder, lib, enc, w, pulses, f, i);
      var lo, hi := Span(m, m.eBands[i]), Span(m, m.eBands[i + 1]);
      AgreeOutside(r.x, f.x, lo, hi) && AgreeOutside(r.p, f.p, lo, hi) && AgreeOutside(r.norm, f.norm, lo, hi) &&
      ScaledCopy(r.norm, r.x, lo, hi, NormScale(m, lib, i))
  {
    hide IntraStage, VqStage;
    BandSpan(m, i);
    var lo, hi := Span(m, m.eBands[i]), Span(m, m.eBands[i + 1]);
    var wBand := if enc then w[lo..hi] else [];
    var d := Decide(m.eBands[i], m.pitchEnd, pulses[i]);
    var f1 := IntraStage(coder, enc, i, d, lo, hi, wBand, f);
    IntraStageFrame(coder, enc, i, d, lo, hi, wBand, f);
    var f2 := VqStage(coder, lib, enc, i, d.q, d.alpha, Theta(m, i, pulses[i]), Stride(m), SpreadRounds, lo, hi, wBand, f1);
    VqStageFrame(coder, lib, enc, i, d.q, d.alpha, Theta(m, i, pulses[i]), Stride(m), SpreadRounds, lo, hi, wBand, f1);
    var n := NormScale(m, lib, i);
    SpliceView(f2.norm, lo, Scale(f2.x[lo..hi], n));
  }

  // ---------------------------------------------------------------------------------------
  // The band loop

  /** Boundary `k` of the coded bands lies between the first and the last. */
  lemma Boundary(m: Mode, k: int)
    requires ValidBands(m) && 0 <= k <= m.nbEBands
    ensures 0 <= Span(m, m.eBands[0]) <= Span(m, m.eBands[k]) <= Span(m, m.eBands[m.nbEBands]) <= SpectrumLength(m)
  {
    SpanNonNegative(m, m.eBands[0]);
    SpanMono(m, m.eBands[0], m.eBands[k]);
    SpanMono(m, m.eBands[k], m.eBands[m.nbEBands]);
    SpanMono(m, m.eBands[m.nbEBands], m.eBands[m.nbEBands + 1]);
  }

  /** Agreeing outside `[a, c)` and then outside `[c, b)` is agreeing outside `[a, b)`. */
  lemma AgreeWiden(r: seq<real>, g: seq<real>, f: seq<real>, a: int, c: int, b: int)
    requires AgreeOutside(g, f, a, c) && AgreeOutside(r, g, c, b)
    ensures AgreeOutside(r, f, a, b)
  {
    assert r[..a] == r[..c][..a] && g[..a] == g[..c][..a];
    assert g[b..] == g[c..][b - c..] && f[b..] == f[c..][b - c..];
  }

  /** Sequences with a common prefix agree on every slice inside it. */
  lemma PrefixSlice(a: seq<real>, b: seq<real>, p: int, lo: int, hi: int)
    requires 0 <= lo <= hi <= p <= |a| && p <= |b| && a[..p] == b[..p]
    ensures a[lo..hi] == b[lo..hi]
  {
    assert a[lo..hi] == a[..p][lo..hi] && b[lo..hi] == b[..p][lo..hi];
  }

  /** Two frames agree outside the positions `[a, b)`. */
  predicate FrameAgree(r: Frame, f: Frame, a: int, b: int) {
    AgreeOutside(r.x, f.x, a, b) && AgreeOutside(r.p, f.p, a, b) && AgreeOutside(r.norm, f.norm, a, b)
  }

  /** Band `i` coded after a frame that agrees with `f` outside `[a, start of band i)` agrees
      with `f` outside `[a, end of band i)`. */
  lemma StepWiden(m: Mode, coder: Coder, lib: Libm, enc: bool, w: seq<real>, pulses: seq<int>, f: Frame, g: Frame, i: int)
    requires ValidBands(m) && 0 <= i < m.nbEBands && i < |pulses| && Fits(m, enc, g, w) && WellFormed(coder)
    requires FrameAgree(g, f, Span(m, m.eBands[0]), Span(m, m.eBands[i]))
    ensures FrameAgree(BandStep(m, coder, lib, enc, w, pulses, g, i), f, Span(m, m.eBands[0]), Span(m, m.eBands[i + 1]))
  {
    BandStepFrame(m, coder, lib, enc, w, pulses, g, i);
    var r := BandStep(m, coder, lib, enc, w, pulses, g, i);
    var a, c, b := Span(m, m.eBands[0]), Span(m, m.eBands[i]), Span(m, m.eBands[i + 1]);
    AgreeWiden(r.x, g.x, f.x, a, c, b);
    AgreeWiden(r.p, g.p, f.p, a, c, b);
    AgreeWiden(r.norm, g.norm, f.norm, a, c, b);
  }

  /** The bands are coded in ascending order: after the first `n` bands, X, P and the context
      differ from what they were only between the start of band 0 and the end of band `n-1`. */
  lemma {:induction false} BandsFrame(m: Mode, coder: Coder, lib: Libm, enc: bool, w: seq<real>, pulses: seq<int>, f: Frame, n: int)
    requires ValidBands(m) && 0 <= n <= m.nbEBands && n <= |pulses| && Fits(m, enc, f, w) && WellFormed(coder)
    ensures FrameAgree(Bands(m, coder, lib, enc, w, pulses, f, n), f, Span(m, m.eBands[0]), Span(m, m.eBands[n]))
  {
    Boundary(m, n);
    if n > 0 {
      BandsFrame(m, coder, lib, enc, w, pulses, f, n - 1);
      StepWiden(m, coder, lib, enc, w, pulses, f, Bands(m, coder, lib, enc, w, pulses, f, n - 1), n - 1);
    }
  }

  /** Coding band `i` keeps the context of a band that ends before band `i` starts. */
  lemma StepKeepsContext(m: Mode, coder: Coder, lib: Libm, enc: bool, w: seq<real>, pulses: seq<int>, g: Frame, i: int,
                         lo: int, hi: int, n: real)
    requires ValidBands(m) && 0 <= i < m.nbEBands && i < |pulses| && Fits(m, enc, g, w) && WellFormed(coder)
    requires ScaledCopy(g.norm, g.x, lo, hi, n) && hi <= Span(m, m.eBands[i])
    ensures var r := BandStep(m, coder, lib, enc, w, pulses, g, i);
      ScaledCopy(r.norm, r.x, lo, hi, n)
  {
    BandStepFrame(m, coder, lib, enc, w, pulses, g, i);
    var r := BandStep(m, coder, lib, enc, w, pulses, g, i);
    var c := Span(m, m.eBands[i]);
    PrefixSlice(r.x, g.x, c, lo, hi);
    PrefixSlice(r.norm, g.norm, c, lo, hi);
  }

  /** After the first `n` bands the context of every coded band `k` is X of that band scaled by
      0.0625·sqrt(width): later bands do not overwrite it. */
  lemma {:induction false} BandsContext(m: Mode, coder: Coder, lib: Libm, enc: bool, w: seq<real>, pulses: seq<int>, f: Frame,
                                        n: int, k: int)
    requires ValidBands(m) && 0 <= k < n <= m.nbEBands && n <= |pulses| && Fits(m, enc, f, w) && WellFormed(coder)
    ensures var r := Bands(m, coder, lib, enc, w, pulses, f, n);
      ScaledCopy(r.norm, r.x, Span(m, m.eBands[k]), Span(m, m.eBands[k + 1]), NormScale(m, lib, k))
  {
    hide BandStep;
    var g := Bands(m, coder, lib, enc, w, pulses, f, n - 1);
    if k < n - 1 {
      BandsContext(m, coder, lib, enc, w, pulses, f, n - 1, k);
      SpanMono(m, m.eBands[k + 1], m.eBands[n - 1]);
      StepKeepsContext(m, coder, lib, enc, w, pulses, g, n - 1,
                       Span(m, m.eBands[k]), Span(m, m.eBands[k + 1]), NormScale(m, lib, k));
    } else {
      BandStepFrame(m, coder, lib, enc, w, pulses, g, n - 1);
    }
  }

  // ---------------------------------------------------------------------------------------
  // The whole routine

  /** After quant_bands or unquant_bands the padding of X, from the end of the last coded band
      to the end of the spectrum, is zero. */
  lemma ResidualPadding(m: Mode, coder: Coder, lib: Libm, enc: bool, x: seq<real>, p: seq<real>, w: seq<real>,
                        totalBits: int, tell: int, k: int)
    requires ValidBands(m) && |x| >= SpectrumLength(m) && |p| >= SpectrumLength(m) && WellFormed(coder)
    requires enc ==> |w| >= SpectrumLength(m)
    requires Span(m, m.eBands[m.nbEBands]) <= k < SpectrumLength(m)
    ensures Coded(m, coder, lib, enc, x, p, w, totalBits, tell).x[k] == 0.0
  {
  }

  /** Clearing `[e, n)` of a sequence that agrees with `x` outside `[a, e)` leaves one that
      agrees with `x` outside `[a, n)`. */
  lemma ClearedAgree(y: seq<real>, x: seq<real>, a: int, e: int, n: int)
    requires AgreeOutside(y, x, a, e) && e <= n <= |y|
    ensures AgreeOutside(Padding.Zeroed(y, e, n), x, a, n)
  {
    var z := Padding.Zeroed(y, e, n);
    assert z[..a] == y[..a];
    assert z[n..] == y[n..];
    assert y[n..] == y[e..][n - e..] && x[n..] == x[e..][n - e..];
  }

  /** Clearing positions from `e` on keeps a scaled copy that ends by `e`. */
  lemma ClearedContext(norm: seq<real>, y: seq<real>, lo: int, hi: int, s: real, e: int, n: int)
    requires ScaledCopy(norm, y, lo, hi, s) && hi <= e
    ensures ScaledCopy(norm, Padding.Zeroed(y, e, n), lo, hi, s)
  {
    assert Padding.Zeroed(y, e, n)[lo..hi] == y[lo..hi];
  }

  /** The routine is the band loop from a zero context followed by the clearing of the padding. */
  lemma CodedForm(m: Mode, coder: Coder, lib: Libm, enc: bool, x: seq<real>, p: seq<real>, w: seq<real>,
                  totalBits: int, tell: int)
    requires ValidBands(m) && |x| >= SpectrumLength(m) && |p| >= SpectrumLength(m) && WellFormed(coder)
    requires enc ==> |w| >= SpectrumLength(m)
    ensures var b := Bands(m, coder, lib, enc, w, Allocation(coder, m.nbEBands, totalBits - tell - 1),
                           Frame(x, p, seq(SpectrumLength(m), _ => 0.0)), m.nbEBands);
      var r := Coded(m, coder, lib, enc, x, p, w, totalBits, tell);
      r == Frame(Padding.Zeroed(b.x, Span(m, m.eBands[m.nbEBands]), Span(m, m.eBands[m.nbEBands + 1])), b.p, b.norm)
  {
  }

  /** quant_bands and unquant_bands write X and P only from the start of band 0: X up to the
      end of the spectrum, P up to the end of the last coded band. */
  lemma ResidualFrame(m: Mode, coder: Coder, lib: Libm, enc: bool, x: seq<real>, p: seq<real>, w: seq<real>,
                      totalBits: int, tell: int)
    requires ValidBands(m) && |x| >= SpectrumLength(m) && |p| >= SpectrumLength(m) && WellFormed(coder)
    requires enc ==> |w| >= SpectrumLength(m)
    ensures var r := Coded(m, coder, lib, enc, x, p, w, totalBits, tell);
      AgreeOutside(r.x, x, Span(m, m.eBands[0]), SpectrumLength(m)) &&
      AgreeOutside(r.p, p, Span(m, m.eBands[0]), Span(m, m.eBands[m.nbEBands]))
  {
    var pulses := Allocation(coder, m.nbEBands, totalBits - tell - 1);
    var f := Frame(x, p, seq(SpectrumLength(m), _ => 0.0));
    BandsFrame(m, coder, lib, enc, w, pulses, f, m.nbEBands);
    Boundary(m, m.nbEBands);
    var b := Bands(m, coder, lib, enc, w, pulses, f, m.nbEBands);
    ClearedAgree(b.x, x, Span(m, m.eBands[0]), Span(m, m.eBands[m.nbEBands]), SpectrumLength(m));
  }

  /** After quant_bands or unquant_bands the context of every band is the coded band of X scaled
      by 0.0625·sqrt(width). */
  lemma ResidualContext(m: Mode, coder: Coder, lib: Libm, enc: bool, x: seq<real>, p: seq<real>, w: seq<real>,
                        totalBits: int, tell: int, k: int)
    requires ValidBands(m) && |x| >= SpectrumLength(m) && |p| >= SpectrumLength(m) && WellFormed(coder)
    requires enc ==> |w| >= SpectrumLength(m)
    requires 0 <= k < m.nbEBands
    ensures var r := Coded(m, coder, lib, enc, x, p, w, totalBits, tell);
      ScaledCopy(r.norm, r.x, Span(m, m.eBands[k]), Span(m, m.eBands[k + 1]), NormScale(m, lib, k))
  {
    var pulses := Allocation(coder, m.nbEBands, totalBits - tell - 1);
    var f := Frame(x, p, seq(SpectrumLength(m), _ => 0.0));
    BandsContext(m, coder, lib, enc, w, pulses, f, m.nbEBands, k);
    BandSpan(m, k);
    var b := Bands(m, coder, lib, enc, w, pulses, f, m.nbEBands);
    CodedForm(m, coder, lib, enc, x, p, w, totalBits, tell);
    ClearedContext(b.norm, b.x, Span(m, m.eBands[k]), Span(m, m.eBands[k + 1]), NormScale(m, lib, k),
                   Span(m, m.eBands[m.nbEBands]), Span(m, m.eBands[m.nbEBands + 1]));
  }

  // ---------------------------------------------------------------------------------------
  // The spreading rotations around the vector quantiser

  /** Both directions of a rotation by a unit-circle angle lie on the unit circle. */
  lemma TurnOnCircle(lib: Libm, theta: real, dir: int)
    requires lib.cos(theta) * lib.cos(theta) + lib.sin(theta) * lib.sin(theta) == 1.0
    requires dir == 1 || dir == -1
    ensures Rotation.OnUnitCircle(Rotation.TurnOf(lib, theta, dir))
  {
    var s := lib.sin(theta);
    assert (dir as real * s) * (dir as real * s) == s * s;
  }

  /** When the band has pulses, the rotation by (theta, −1) hands the vector quantiser a
      predictor (and, in the encoder, a target) of the energy of the band, the quantiser's P
      output becomes the band of P, and the rotation back by (theta, +1) leaves in X the energy
      of the quantiser's reconstruction. */
  lemma VqStageEnergy(coder: Coder, lib: Libm, enc: bool, i: int, q: int, alpha: real, theta: real, stride: int, iter: int,
                      lo: int, hi: int, wBand: seq<real>, f: Frame)
    requires Holds(f, lo, hi) && WellFormed(coder) && q > 0 && 1 <= stride
    requires lib.cos(theta) * lib.cos(theta) + lib.sin(theta) * lib.sin(theta) == 1.0
    ensures var c := VqCall(coder, lib, enc, i, q, alpha, theta, stride, iter, lo, hi, wBand, f);
      var r := VqStage(coder, lib, enc, i, q, alpha, theta, stride, iter, lo, hi, wBand, f);
      Rotation.SumSq(c.p) == Rotation.SumSq(f.p[lo..hi]) &&
      (enc ==> Rotation.SumSq(c.x) == Rotation.SumSq(f.x[lo..hi])) &&
      r.p[lo..hi] == coder.p(c) &&
      Rotation.SumSq(r.x[lo..hi]) == Rotation.SumSq(coder.x(c))
  {
    var c := VqCall(coder, lib, enc, i, q, alpha, theta, stride, iter, lo, hi, wBand, f);
    var down, up := Rotation.TurnOf(lib, theta, -1), Rotation.TurnOf(lib, theta, 1);
    TurnOnCircle(lib, theta, -1);
    TurnOnCircle(lib, theta, 1);
    Rotation.ExpRotatedEnergy(f.p[lo..hi], stride, down, iter);
    Rotation.ExpRotatedEnergy(f.x[lo..hi], stride, down, iter);
    Rotation.ExpRotatedEnergy(coder.x(c), stride, up, iter);
    OracleLength(coder, c);
    var t := Rotation.ExpRotated(coder.x(c), stride, up, iter);
    SpliceView(f.x, lo, t);
    SpliceView(f.p, lo, coder.p(c));
  }
}
