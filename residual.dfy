/** The residual quantiser (quant_bands) and dequantiser (unquant_bands). Band by band, in
    ascending order, they decide between pitch prediction and intra-frame prediction, wrap the
    vector quantiser in spreading rotations when the band has pulses, and record the coded
    band, scaled, in the `norm` context that intra prediction of later bands reads. Both treat
    the C channels of a bin as one run: band `i` is the positions `[B·C·eBands[i],
    B·C·eBands[i+1])`.

    The bit allocator, the intra predictors and the vector quantiser live in other files of the
    codec; here each is a stand-in that writes the band slices it may write with the values of
    an oracle (a field of `Coder`) applied to everything it is given. */
module Residual {
  import opened Modes
  import opened Padding
  import Rotation

  // ---------------------------------------------------------------------------------------
  // The per-band mode decision

  /** What the loop body decides for one band: intra-frame prediction or pitch prediction,
      the pulse count `q` handed to the coders, and the prediction blend `alpha`. */
  datatype Decision = Decision(intra: bool, q: int, alpha: real)

  /** The decision for a band starting at bin `start` that was allocated `pulses` pulses. */
  function Decide(start: int, pitchEnd: int, pulses: int): (d: Decision)
    ensures d.intra <==> (start >= pitchEnd || pulses <= 0)
    ensures d.alpha == 0.0 <==> d.intra
    ensures d.alpha == 0.0 || d.alpha == 0.7
    ensures d.q == (if d.intra then pulses - 1 else pulses)
    // the folding predictor is used exactly for the bands with no pulses
    ensures (d.intra && d.q < 0) <==> pulses <= 0
    // the rotations and the vector quantiser run exactly when a pulse is left for them
    ensures d.q > 0 <==> pulses > (if start >= pitchEnd then 1 else 0)
  {
    if start >= pitchEnd || pulses <= 0 then Decision(true, pulses - 1, 0.0)
    else Decision(false, pulses, 0.7)
  }

  // ---------------------------------------------------------------------------------------
  // The collaborators

  /** The collaborator being called. */
  datatype Stage = Fold | IntraPrediction | IntraUnquant | AlgQuant | AlgUnquant

  /** Everything a collaborator is handed for band `band`: the band slices of X, of the
      perceptual weights W (encoder only) and of P, the context buffer `norm` (intra branch
      only), and the codeword the decoder reads from the bit-stream for this call (empty in the
      encoder). */
  datatype Call = Call(stage: Stage, band: int, q: int, alpha: real,
                       x: seq<real>, w: seq<real>, p: seq<real>, context: seq<real>, code: seq<int>)

  /** The external collaborators: the bit allocator (pulses of band `i` for a budget); what a
      call leaves in the band slices of X and of P; the codeword an encoder call writes to the
      range coder; and the codeword the decoder's range decoder yields for stage `s` of band
      `i`. */
  datatype Coder = Coder(allocation: (int, int) -> int,
                         x: Call -> seq<real>,
                         p: Call -> seq<real>,
                         code: Call -> seq<int>,
                         read: (int, Stage) -> seq<int>)

  /** A collaborator writes exactly the band it is given. */
  ghost predicate WellFormed(coder: Coder) {
    forall c: Call :: |coder.x(c)| == |c.x| && |coder.p(c)| == |c.p|
  }

  /** `s` with the positions `[lo, lo+|t|)` replaced by `t`. */
  function Splice(s: seq<real>, lo: int, t: seq<real>): (r: seq<real>)
    requires 0 <= lo && lo + |t| <= |s|
    ensures |r| == |s|
  {
    s[..lo] + t + s[lo + |t|..]
  }

  /** Writing a slice position by position: the stand-in body of a collaborator. */
  method WriteSlice(A: array<real>, lo: int, t: seq<real>)
    requires 0 <= lo && lo + |t| <= A.Length
    modifies A
    ensures A[..] == Splice(old(A[..]), lo, t)
  {
    ghost var a0 := A[..];
    var k := 0;
    while k < |t|
      invariant 0 <= k <= |t|
      invariant A[..] == a0[..lo] + t[..k] + a0[lo + k..]
    {
      A[lo + k] := t[k];
      k := k + 1;
    }
  }

  /** compute_allocation: the pulse count of every band for a budget of `bits`. */
  function Allocation(coder: Coder, n: int, bits: int): (pulses: seq<int>)
    requires 0 <= n
    ensures |pulses| == n && forall i :: 0 <= i < n ==> pulses[i] == coder.allocation(bits, i)
  {
    seq(n, i requires 0 <= i < n => coder.allocation(bits, i))
  }

  method ComputeAllocation(coder: Coder, n: int, bits: int, pulses: array<int>)
    requires 0 <= n <= pulses.Length
    modifies pulses
    ensures pulses[..n] == Allocation(coder, n, bits)
  {
    var i := 0;
    while i < n
      invariant 0 <= i <= n
      invariant forall k :: 0 <= k < i ==> pulses[k] == coder.allocation(bits, k)
    {
      pulses[i] := coder.allocation(bits, i);
      i := i + 1;
    }
  }

  // ---------------------------------------------------------------------------------------
  // The band geometry

  /** `B·C`: the stride of the rotations and the factor of the band boundaries. */
  function Stride(m: Mode): int {
    m.nbMdctBlocks * m.nbChannels
  }

  /** Band `i` lies inside the coded part of the spectrum. */
  lemma BandSpan(m: Mode, i: int)
    requires ValidBands(m) && 0 <= i < m.nbEBands
    ensures 0 <= Span(m, m.eBands[i]) <= Span(m, m.eBands[i + 1]) <= Span(m, m.eBands[m.nbEBands]) <= SpectrumLength(m)
  {
    SpanNonNegative(m, m.eBands[i]);
    SpanMono(m, m.eBands[i], m.eBands[i + 1]);
    SpanMono(m, m.eBands[i + 1], m.eBands[m.nbEBands]);
    SpanMono(m, m.eBands[m.nbEBands], m.eBands[m.nbEBands + 1]);
  }

  /** The source's `B*(eBands[i+1]-eBands[i])` is the width of band `i`, and `B >= 1`. */
  lemma WidthForm(m: Mode, i: int)
    requires ValidBands(m) && 0 <= i < m.nbEBands
    ensures Stride(m) * (m.eBands[i + 1] - m.eBands[i]) == Span(m, m.eBands[i + 1]) - Span(m, m.eBands[i])
    ensures Stride(m) * m.eBands[i] == Span(m, m.eBands[i])
    ensures 1 <= Stride(m)
  {
    SpanForm(m, m.eBands[i]);
    SpanForm(m, m.eBands[i + 1]);
    assert Stride(m) * (m.eBands[i + 1] - m.eBands[i]) == Stride(m) * m.eBands[i + 1] - Stride(m) * m.eBands[i];
    assert 1 <= m.nbMdctBlocks * m.nbChannels;
  }

  /** theta = 0.007·width / (0.1 + pulses), with the pulse count before the intra decrement. */
  function Theta(m: Mode, i: int, pulses: int): real
    requires ValidBands(m) && 0 <= i < m.nbEBands
  {
    0.007 * ((Span(m, m.eBands[i + 1]) - Span(m, m.eBands[i])) as real) / (0.1 + pulses as real)
  }

  /** n = 0.0625·sqrt(width): the scale of the band in the context. */
  function NormScale(m: Mode, lib: Libm, i: int): real
    requires ValidBands(m) && 0 <= i < m.nbEBands
  {
    0.0625 * lib.sqrt((Span(m, m.eBands[i + 1]) - Span(m, m.eBands[i])) as real)
  }

  /** The number of rounds of every spreading rotation of the residual. */
  const SpreadRounds: int := 8

  // ---------------------------------------------------------------------------------------
  // The band step as a function of the buffers

  /** The buffers the loop changes: X, P and the context `norm`. */
  datatype Frame = Frame(x: seq<real>, p: seq<real>, norm: seq<real>)

  /** The buffers are long enough for the whole spectrum (W only matters to the encoder). */
  predicate Fits(m: Mode, enc: bool, f: Frame, w: seq<real>)
    requires ValidBands(m)
  {
    |f.x| >= SpectrumLength(m) && |f.p| >= SpectrumLength(m) && |f.norm| >= SpectrumLength(m) &&
    (enc ==> |w| >= SpectrumLength(m))
  }

  /** The positions `[lo, hi)` lie inside all three buffers. */
  predicate Holds(f: Frame, lo: int, hi: int) {
    0 <= lo <= hi && hi <= |f.x| && hi <= |f.p| && hi <= |f.norm|
  }

  /** The intra branch for band `i` at positions `[lo, hi)`: the folding predictor when no
      pulse is left, intra_prediction (encoder, handed the band of W) or intra_unquant
      (decoder) otherwise; nothing on the pitch branch. */
  function IntraStage(coder: Coder, enc: bool, i: int, d: Decision, lo: int, hi: int, wBand: seq<real>, f: Frame): (r: Frame)
    requires Holds(f, lo, hi) && WellFormed(coder)
    ensures |r.x| == |f.x| && |r.p| == |f.p| && r.norm == f.norm
  {
    if !d.intra then f
    else
      var call := IntraCall(coder, enc, i, d.q, d.alpha, lo, hi, wBand, f);
      Frame(Splice(f.x, lo, coder.x(call)), Splice(f.p, lo, coder.p(call)), f.norm)
  }

  /** What a call of stage `s` for band `i` reads from the bit-stream: nothing in the encoder,
      the range decoder's codeword in the decoder. */
  function Heard(coder: Coder, enc: bool, i: int, s: Stage): seq<int> {
    if enc then [] else coder.read(i, s)
  }

  /** The stage of the intra branch: the folding predictor when no pulse is left. */
  function IntraKind(enc: bool, q: int): Stage {
    if q < 0 then Fold else if enc then IntraPrediction else IntraUnquant
  }

  /** The call of the intra branch: the folding predictor gets no weights; every intra
      collaborator gets the whole context buffer. */
  function IntraCall(coder: Coder, enc: bool, i: int, q: int, alpha: real, lo: int, hi: int, wBand: seq<real>, f: Frame): (c: Call)
    requires Holds(f, lo, hi)
    ensures |c.x| == |c.p| == hi - lo
  {
    Call(IntraKind(enc, q), i, q, alpha, f.x[lo..hi], if q < 0 then [] else wBand, f.p[lo..hi], f.norm,
         Heard(coder, enc, i, IntraKind(enc, q)))
  }

  /** The call of the vector quantiser: P (and, in the encoder, X) rotated by (theta, −1). */
  function VqCall(coder: Coder, lib: Libm, enc: bool, i: int, q: int, alpha: real, theta: real, stride: int, iter: int,
                  lo: int, hi: int, wBand: seq<real>, f: Frame): (c: Call)
    requires Holds(f, lo, hi)
    ensures |c.x| == |c.p| == hi - lo
  {
    var down := Rotation.TurnOf(lib, theta, -1);
    var xr := if enc then Rotation.ExpRotated(f.x[lo..hi], stride, down, iter) else f.x[lo..hi];
    var stage := if enc then AlgQuant else AlgUnquant;
    Call(stage, i, q, alpha, xr, wBand, Rotation.ExpRotated(f.p[lo..hi], stride, down, iter), [],
         Heard(coder, enc, i, stage))
  }

  /** The pulse branch: when `q > 0`, the quantiser's outputs replace the bands of X and P, and
      X is then rotated back by (theta, +1). */
  function VqStage(coder: Coder, lib: Libm, enc: bool, i: int, q: int, alpha: real, theta: real, stride: int, iter: int,
                   lo: int, hi: int, wBand: seq<real>, f: Frame): (r: Frame)
    requires Holds(f, lo, hi) && WellFormed(coder)
    ensures |r.x| == |f.x| && |r.p| == |f.p| && r.norm == f.norm
  {
    if q <= 0 then f
    else
      var call := VqCall(coder, lib, enc, i, q, alpha, theta, stride, iter, lo, hi, wBand, f);
      Frame(Splice(f.x, lo, Rotation.ExpRotated(coder.x(call), stride, Rotation.TurnOf(lib, theta, 1), iter)),
            Splice(f.p, lo, coder.p(call)), f.norm)
  }

  /** `s` with every sample multiplied by `n`. */
  function Scale(s: seq<real>, n: real): (r: seq<real>)
    ensures |r| == |s| && forall k :: 0 <= k < |s| ==> r[k] == Times(s[k], n)
  {
    seq(|s|, k requires 0 <= k < |s| => Times(s[k], n))
  }

  /** The context update: positions `[lo, hi)` of norm become those of X scaled by `n`. */
  function NormStage(lo: int, hi: int, n: real, f: Frame): (r: Frame)
    requires Holds(f, lo, hi)
    ensures r.x == f.x && r.p == f.p && |r.norm| == |f.norm|
  {
    Frame(f.x, f.p, Splice(f.norm, lo, Scale(f.x[lo..hi], n)))
  }

  /** One iteration of the band loop, for band `i`. */
  function BandStep(m: Mode, coder: Coder, lib: Libm, enc: bool, w: seq<real>, pulses: seq<int>, f: Frame, i: int): (r: Frame)
    requires ValidBands(m) && 0 <= i < m.nbEBands && i < |pulses| && Fits(m, enc, f, w) && WellFormed(coder)
    ensures |r.x| == |f.x| && |r.p| == |f.p| && |r.norm| == |f.norm|
  {
    BandSpan(m, i);
    var lo, hi := Span(m, m.eBands[i]), Span(m, m.eBands[i + 1]);
    var wBand := if enc then w[lo..hi] else [];
    var d := Decide(m.eBands[i], m.pitchEnd, pulses[i]);
    var f1 := IntraStage(coder, enc, i, d, lo, hi, wBand, f);
    var f2 := VqStage(coder, lib, enc, i, d.q, d.alpha, Theta(m, i, pulses[i]), Stride(m), SpreadRounds, lo, hi, wBand, f1);
    NormStage(lo, hi, NormScale(m, lib, i), f2)
  }

  /** The buffers after the first `n` bands. */
  function Bands(m: Mode, coder: Coder, lib: Libm, enc: bool, w: seq<real>, pulses: seq<int>, f: Frame, n: int): (r: Frame)
    requires ValidBands(m) && 0 <= n <= m.nbEBands && n <= |pulses| && Fits(m, enc, f, w) && WellFormed(coder)
    ensures |r.x| == |f.x| && |r.p| == |f.p| && |r.norm| == |f.norm|
  {
    if n == 0 then f
    else BandStep(m, coder, lib, enc, w, pulses, Bands(m, coder, lib, enc, w, pulses, f, n - 1), n - 1)
  }

  /** The whole of quant_bands (enc) or unquant_bands (!enc): the budget left after the bits
      already written, minus a one-bit margin, is allocated; every band is coded; the padding of
      X is cleared. `norm` starts as zeros. */
  function Coded(m: Mode, coder: Coder, lib: Libm, enc: bool, x: seq<real>, p: seq<real>, w: seq<real>,
                    totalBits: int, tell: int): Frame
    requires ValidBands(m) && |x| >= SpectrumLength(m) && |p| >= SpectrumLength(m) && WellFormed(coder)
    requires enc ==> |w| >= SpectrumLength(m)
  {
    var pulses := Allocation(coder, m.nbEBands, totalBits - tell - 1);
    var norm := seq(SpectrumLength(m), _ => 0.0);
    var r := Bands(m, coder, lib, enc, w, pulses, Frame(x, p, norm), m.nbEBands);
    BandSpan0(m);
    Frame(Zeroed(r.x, Span(m, m.eBands[m.nbEBands]), Span(m, m.eBands[m.nbEBands + 1])), r.p, r.norm)
  }

  lemma BandSpan0(m: Mode)
    requires ValidBands(m)
    ensures 0 <= Span(m, m.eBands[m.nbEBands]) <= Span(m, m.eBands[m.nbEBands + 1]) == SpectrumLength(m)
  {
    SpanNonNegative(m, m.eBands[m.nbEBands]);
    SpanMono(m, m.eBands[m.nbEBands], m.eBands[m.nbEBands + 1]);
  }

  // ---------------------------------------------------------------------------------------
  // The loops

  /** The intra branch of the loop body: the folding predictor when `q < 0`, otherwise
      intra_prediction (encoder) or intra_unquant (decoder). */
  method IntraPart(coder: Coder, enc: bool, i: int, q: int, alpha: real, lo: int, hi: int, wBand: seq<real>,
                   X: array<real>, P: array<real>, norm: array<real>)
    requires WellFormed(coder) && X != P && X != norm && P != norm
    requires Holds(Frame(X[..], P[..], norm[..]), lo, hi)
    modifies X, P
    ensures var r := IntraStage(coder, enc, i, Decision(true, q, alpha), lo, hi, wBand, Frame(old(X[..]), old(P[..]), norm[..]));
      X[..] == r.x && P[..] == r.p
  {
    ghost var f := Frame(X[..], P[..], norm[..]);
    assert X[lo..hi] == f.x[lo..hi] && P[lo..hi] == f.p[lo..hi];
    var stage := IntraKind(enc, q);
    var call := Call(stage, i, q, alpha, X[lo..hi], if q < 0 then [] else wBand, P[lo..hi], norm[..], Heard(coder, enc, i, stage));
    assert call == IntraCall(coder, enc, i, q, alpha, lo, hi, wBand, f);
    WriteSlice(X, lo, coder.x(call));
    WriteSlice(P, lo, coder.p(call));
  }

  /** The rotations before the vector quantiser: P, and in the encoder X, by (theta, −1). */
  method RotateDown(lib: Libm, enc: bool, theta: real, stride: int, iter: int, lo: int, hi: int,
                    X: array<real>, P: array<real>)
    requires X != P && 1 <= stride && 0 <= lo <= hi && hi <= X.Length && hi <= P.Length
    modifies X, P
    ensures P[..] == Splice(old(P[..]), lo, Rotation.ExpRotated(old(P[lo..hi]), stride, Rotation.TurnOf(lib, theta, -1), iter))
    ensures X[..] == if enc then Splice(old(X[..]), lo, Rotation.ExpRotated(old(X[lo..hi]), stride, Rotation.TurnOf(lib, theta, -1), iter))
                     else old(X[..])
  {
    ghost var p0, x0 := P[..], X[..];
    Rotation.ExpRotation(P, lo, hi - lo, theta, -1, stride, iter, lib);
    SpliceParts(P[..], p0, lo, hi, Rotation.ExpRotated(p0[lo..hi], stride, Rotation.TurnOf(lib, theta, -1), iter));
    if enc {
      Rotation.ExpRotation(X, lo, hi - lo, theta, -1, stride, iter, lib);
      SpliceParts(X[..], x0, lo, hi, Rotation.ExpRotated(x0[lo..hi], stride, Rotation.TurnOf(lib, theta, -1), iter));
    }
  }

  /** The pulse branch of the loop body: the rotations by (theta, −1), the vector quantiser
      writing its outputs into the bands of X and P, and X rotated back by (theta, +1). */
  method VqPart(coder: Coder, lib: Libm, enc: bool, i: int, q: int, alpha: real, theta: real, stride: int, iter: int,
                lo: int, hi: int, wBand: seq<real>, X: array<real>, P: array<real>, ghost norm: seq<real>)
    requires WellFormed(coder) && q > 0 && X != P && 1 <= stride
    requires Holds(Frame(X[..], P[..], norm), lo, hi)
    modifies X, P
    ensures var r := VqStage(coder, lib, enc, i, q, alpha, theta, stride, iter, lo, hi, wBand, Frame(old(X[..]), old(P[..]), norm));
      X[..] == r.x && P[..] == r.p
  {
    ghost var f := Frame(X[..], P[..], norm);
    ghost var expected := VqCall(coder, lib, enc, i, q, alpha, theta, stride, iter, lo, hi, wBand, f);
    RotateDown(lib, enc, theta, stride, iter, lo, hi, X, P);
    assert P[lo..hi] == expected.p && X[lo..hi] == expected.x;
    var stage := if enc then AlgQuant else AlgUnquant;
    var call := Call(stage, i, q, alpha, X[lo..hi], wBand, P[lo..hi], [], Heard(coder, enc, i, stage));
    assert call == expected;
    ghost var x1, p1 := X[..], P[..];
    WriteSlice(P, lo, coder.p(call));
    SpliceTwice(f.p, p1, lo, hi, coder.p(call));
    RotateUp(lib, theta, stride, iter, lo, coder.x(call), X);
    SpliceTwice(f.x, x1, lo, hi, Rotation.ExpRotated(coder.x(call), stride, Rotation.TurnOf(lib, theta, 1), iter));
  }

  /** The quantiser's reconstruction `t` written into the band at `lo` and rotated back by
      (theta, +1). */
  method RotateUp(lib: Libm, theta: real, stride: int, iter: int, lo: int, t: seq<real>, X: array<real>)
    requires 1 <= stride && 0 <= lo && lo + |t| <= X.Length
    modifies X
    ensures X[..] == Splice(old(X[..]), lo, Rotation.ExpRotated(t, stride, Rotation.TurnOf(lib, theta, 1), iter))
  {
    ghost var x0 := X[..];
    WriteSlice(X, lo, t);
    ghost var x1 := X[..];
    Rotation.ExpRotation(X, lo, |t|, theta, 1, stride, iter, lib);
    assert x1[..lo] == x0[..lo] && x1[lo + |t|..] == x0[lo + |t|..];
    SpliceParts(X[..], x0, lo, lo + |t|, Rotation.ExpRotated(t, stride, Rotation.TurnOf(lib, theta, 1), iter));
  }

  /** Splicing over a band that was already spliced over (or only possibly rotated) leaves only
      the second band. */
  lemma SpliceTwice(a: seq<real>, b: seq<real>, lo: int, hi: int, t: seq<real>)
    requires |a| == |b| && 0 <= lo <= hi <= |a| && |t| == hi - lo
    requires a[..lo] == b[..lo] && a[hi..] == b[hi..]
    ensures Splice(b, lo, t) == Splice(a, lo, t)
  {
  }

  /** A sequence that agrees with `b` below `lo` and from `hi` on, and holds `t` in between, is
      `b` with `t` spliced in. */
  lemma SpliceParts(a: seq<real>, b: seq<real>, lo: int, hi: int, t: seq<real>)
    requires |a| == |b| && 0 <= lo <= hi <= |a| && |t| == hi - lo
    requires a[..lo] == b[..lo] && a[lo..hi] == t && a[hi..] == b[hi..]
    ensures a == Splice(b, lo, t)
  {
    assert a == a[..lo] + a[lo..hi] + a[hi..];
  }

  /** The context loop: norm[j] = X[j]·n for every position of the band. */
  method NormBand(X: array<real>, norm: array<real>, lo: int, hi: int, n: real)
    requires 0 <= lo <= hi && hi <= X.Length && hi <= norm.Length && X != norm
    modifies norm
    ensures norm[..] == Splice(old(norm[..]), lo, Scale(X[lo..hi], n))
  {
    ghost var n0 := norm[..];
    var j := lo;
    while j < hi
      invariant lo <= j <= hi
      invariant forall k :: 0 <= k < norm.Length ==> norm[k] == if lo <= k < j then Times(X[k], n) else n0[k]
    {
      norm[j] := Times(X[j], n);
      j := j + 1;
    }
    assert norm[..] == Splice(n0, lo, Scale(X[lo..hi], n));
  }

  /** The mode decision of the band loop and its intra branch: the pulse count is decremented
      and the blend cleared when the band lies past the pitch bands or has no pulse. */
  method IntraBranch(m: Mode, coder: Coder, enc: bool, i: int, pulses: int, lo: int, hi: int, wBand: seq<real>,
                     X: array<real>, P: array<real>, norm: array<real>)
      returns (q: int, alpha: real)
    requires ValidBands(m) && 0 <= i < m.nbEBands
    requires WellFormed(coder) && X != P && X != norm && P != norm
    requires Holds(Frame(X[..], P[..], norm[..]), lo, hi)
    modifies X, P
    ensures var d := Decide(m.eBands[i], m.pitchEnd, pulses);
      q == d.q && alpha == d.alpha &&
      X[..] == IntraStage(coder, enc, i, d, lo, hi, wBand, Frame(old(X[..]), old(P[..]), norm[..])).x &&
      P[..] == IntraStage(coder, enc, i, d, lo, hi, wBand, Frame(old(X[..]), old(P[..]), norm[..])).p
  {
    q := pulses;
    if m.eBands[i] >= m.pitchEnd || q <= 0 {
      q := q - 1;
      alpha := 0.0;
      IntraPart(coder, enc, i, q, alpha, lo, hi, wBand, X, P, norm);
    } else {
      alpha := 0.7;
    }
  }

  /** The band positions and width as the loop computes them, `B·C·e`. */
  lemma BandLayout(m: Mode, i: int, B: int, lo: int, hi: int, width: int)
    requires ValidBands(m) && 0 <= i < m.nbEBands && B == m.nbMdctBlocks * m.nbChannels
    requires lo == B * m.eBands[i] && hi == B * m.eBands[i + 1] && width == B * (m.eBands[i + 1] - m.eBands[i])
    ensures lo == Span(m, m.eBands[i]) && hi == Span(m, m.eBands[i + 1]) && width == hi - lo
    ensures 0 <= lo <= hi <= SpectrumLength(m) && B == Stride(m) && 1 <= B
  {
    BandSpan(m, i);
    WidthForm(m, i);
  }

  /** One iteration of the band loop of quant_bands (enc) or unquant_bands (!enc): the blend it
      leaves is the decision's, whatever the previous band left. */
  method CodeBand(m: Mode, coder: Coder, lib: Libm, enc: bool, X: array<real>, P: array<real>, w: seq<real>,
                  norm: array<real>, pulses: int, i: int, ghost allPulses: seq<int>)
      returns (alpha: real)
    requires ValidBands(m) && 0 <= i < m.nbEBands && i < |allPulses| && allPulses[i] == pulses && WellFormed(coder)
    requires X != P && X != norm && P != norm
    requires Fits(m, enc, Frame(X[..], P[..], norm[..]), w)
    modifies X, P, norm
    ensures Frame(X[..], P[..], norm[..]) == BandStep(m, coder, lib, enc, w, allPulses, Frame(old(X[..]), old(P[..]), old(norm[..])), i)
    ensures alpha == Decide(m.eBands[i], m.pitchEnd, pulses).alpha
  {
    ghost var f := Frame(X[..], P[..], norm[..]);
    var B := m.nbMdctBlocks * m.nbChannels;
    var lo, hi := B * m.eBands[i], B * m.eBands[i + 1];
    var width := B * (m.eBands[i + 1] - m.eBands[i]);
    BandLayout(m, i, B, lo, hi, width);
    var wBand := if enc then w[lo..hi] else [];
    var n := 0.0625 * lib.sqrt(width as real);
    var theta := 0.007 * (width as real) / (0.1 + pulses as real);
    var q;
    q, alpha := IntraBranch(m, coder, enc, i, pulses, lo, hi, wBand, X, P, norm);
    ghost var f1 := Frame(X[..], P[..], norm[..]);
    if q > 0 {
      VqPart(coder, lib, enc, i, q, alpha, theta, B, SpreadRounds, lo, hi, wBand, X, P, norm[..]);
    }
    ghost var f2 := Frame(X[..], P[..], norm[..]);
    NormBand(X, norm, lo, hi, n);
    BandStepIs(m, coder, lib, enc, w, allPulses, f, i, pulses, lo, hi, width, B, q, alpha, theta, n, wBand,
               f1, f2, Frame(X[..], P[..], norm[..]));
  }

  /** The band step assembled from its stages, with the quantities the loop computes. */
  lemma BandStepIs(m: Mode, coder: Coder, lib: Libm, enc: bool, w: seq<real>, pulses: seq<int>, f: Frame, i: int, count: int,
                   lo: int, hi: int, width: int, stride: int, q: int, alpha: real, theta: real, n: real, wBand: seq<real>,
                   f1: Frame, f2: Frame, f3: Frame)
    requires ValidBands(m) && 0 <= i < m.nbEBands && i < |pulses| && pulses[i] == count && Fits(m, enc, f, w) && WellFormed(coder)
    requires lo == Span(m, m.eBands[i]) && hi == Span(m, m.eBands[i + 1]) && width == hi - lo && stride == Stride(m)
    requires 0 <= lo <= hi <= SpectrumLength(m)
    requires wBand == if enc then w[lo..hi] else []
    requires q == Decide(m.eBands[i], m.pitchEnd, pulses[i]).q && alpha == Decide(m.eBands[i], m.pitchEnd, pulses[i]).alpha
    requires theta == 0.007 * (width as real) / (0.1 + count as real) && n == 0.0625 * lib.sqrt(width as real)
    requires f1 == IntraStage(coder, enc, i, Decide(m.eBands[i], m.pitchEnd, pulses[i]), lo, hi, wBand, f)
    requires Holds(f1, lo, hi)
    requires q > 0 ==> f2 == VqStage(coder, lib, enc, i, q, alpha, theta, stride, SpreadRounds, lo, hi, wBand, f1)
    requires q <= 0 ==> f2 == f1
    requires Holds(f2, lo, hi)
    requires f3 == NormStage(lo, hi, n, f2)
    ensures f3 == BandStep(m, coder, lib, enc, w, pulses, f, i)
  {
    var d := Decide(m.eBands[i], m.pitchEnd, pulses[i]);
    assert theta == Theta(m, i, pulses[i]);
    assert n == NormScale(m, lib, i);
    assert f2 == VqStage(coder, lib, enc, i, d.q, d.alpha, Theta(m, i, pulses[i]), Stride(m), SpreadRounds, lo, hi, wBand, f1);
  }

  /** The body shared by quant_bands (enc) and unquant_bands (!enc): allocation, the band loop
      and the clearing of the padding of X. `tell` is the number of bits the entropy coder has
      already used. */
  method CodeBands(m: Mode, coder: Coder, lib: Libm, enc: bool, X: array<real>, P: array<real>, w: seq<real>,
                   totalBits: int, tell: int)
    requires ValidBands(m) && WellFormed(coder) && X != P
    requires X.Length >= SpectrumLength(m) && P.Length >= SpectrumLength(m) && (enc ==> |w| >= SpectrumLength(m))
    modifies X, P
    ensures X[..] == Coded(m, coder, lib, enc, old(X[..]), old(P[..]), w, totalBits, tell).x
    ensures P[..] == Coded(m, coder, lib, enc, old(X[..]), old(P[..]), w, totalBits, tell).p
  {
    hide Bands, BandStep;
    var B := m.nbMdctBlocks * m.nbChannels;
    PaddingBounds(m);
    var norm := new real[B * m.eBands[m.nbEBands + 1]](_ => 0.0);
    var pulses := new int[m.nbEBands];
    var bits := totalBits - tell - 1;
    ComputeAllocation(coder, m.nbEBands, bits, pulses);
    ghost var ps := pulses[..];
    assert ps == pulses[..m.nbEBands];
    assert norm[..] == seq(SpectrumLength(m), _ => 0.0);
    assert ps == Allocation(coder, m.nbEBands, totalBits - tell - 1);
    BandLoop(m, coder, lib, enc, X, P, w, norm, pulses);
    BandSpan0(m);
    ZeroRange(X, B * m.eBands[m.nbEBands], B * m.eBands[m.nbEBands + 1]);
  }

  /** The band loop: every band in increasing order. */
  method BandLoop(m: Mode, coder: Coder, lib: Libm, enc: bool, X: array<real>, P: array<real>, w: seq<real>,
                  norm: array<real>, pulses: array<int>)
    requires ValidBands(m) && WellFormed(coder) && X != P && X != norm && P != norm
    requires pulses.Length == m.nbEBands
    requires Fits(m, enc, Frame(X[..], P[..], norm[..]), w)
    modifies X, P, norm
    ensures Frame(X[..], P[..], norm[..]) == Bands(m, coder, lib, enc, w, pulses[..], Frame(old(X[..]), old(P[..]), old(norm[..])), m.nbEBands)
  {
    hide BandStep;
    ghost var f0 := Frame(X[..], P[..], norm[..]);
    var i := 0;
    while i < m.nbEBands
      invariant 0 <= i <= m.nbEBands
      invariant X[..] == Bands(m, coder, lib, enc, w, pulses[..], f0, i).x
      invariant P[..] == Bands(m, coder, lib, enc, w, pulses[..], f0, i).p
      invariant norm[..] == Bands(m, coder, lib, enc, w, pulses[..], f0, i).norm
    {
      NextBand(m, coder, lib, enc, X, P, w, norm, pulses, i, f0);
      i := i + 1;
    }
  }

  /** The loop body in terms of the bands already coded; the blend of the band is used by its
      own quantiser call only, so it is not carried from one band to the next. */
  method NextBand(m: Mode, coder: Coder, lib: Libm, enc: bool, X: array<real>, P: array<real>, w: seq<real>,
                  norm: array<real>, pulses: array<int>, i: int, ghost f0: Frame)
    requires ValidBands(m) && 0 <= i < m.nbEBands && pulses.Length == m.nbEBands && WellFormed(coder)
    requires X != P && X != norm && P != norm && Fits(m, enc, f0, w)
    requires X[..] == Bands(m, coder, lib, enc, w, pulses[..], f0, i).x
    requires P[..] == Bands(m, coder, lib, enc, w, pulses[..], f0, i).p
    requires norm[..] == Bands(m, coder, lib, enc, w, pulses[..], f0, i).norm
    modifies X, P, norm
    ensures X[..] == Bands(m, coder, lib, enc, w, pulses[..], f0, i + 1).x
    ensures P[..] == Bands(m, coder, lib, enc, w, pulses[..], f0, i + 1).p
    ensures norm[..] == Bands(m, coder, lib, enc, w, pulses[..], f0, i + 1).norm
  {
    ghost var f := Frame(X[..], P[..], norm[..]);
    assert f == Bands(m, coder, lib, enc, w, pulses[..], f0, i);
    var alpha := CodeBand(m, coder, lib, enc, X, P, w, norm, pulses[i], i, pulses[..]);
    BandsNext(m, coder, lib, enc, w, pulses[..], f0, i, f, Frame(X[..], P[..], norm[..]));
  }

  lemma BandsNext(m: Mode, coder: Coder, lib: Libm, enc: bool, w: seq<real>, pulses: seq<int>, f0: Frame, i: int, f: Frame, g: Frame)
    requires ValidBands(m) && 0 <= i < m.nbEBands && i < |pulses| && Fits(m, enc, f0, w) && WellFormed(coder)
    requires f == Bands(m, coder, lib, enc, w, pulses, f0, i)
    requires g == BandStep(m, coder, lib, enc, w, pulses, f, i)
    ensures g == Bands(m, coder, lib, enc, w, pulses, f0, i + 1)
  {
  }

  /** quant_bands: codes the residual X against the prediction P, weighted by W. */
  method QuantBands(m: Mode, coder: Coder, lib: Libm, X: array<real>, P: array<real>, W: array<real>,
                    totalBits: int, tell: int)
    requires ValidBands(m) && WellFormed(coder) && X != P && W != X && W != P
    requires X.Length >= SpectrumLength(m) && P.Length >= SpectrumLength(m) && W.Length >= SpectrumLength(m)
    modifies X, P
    ensures X[..] == Coded(m, coder, lib, true, old(X[..]), old(P[..]), W[..], totalBits, tell).x
    ensures P[..] == Coded(m, coder, lib, true, old(X[..]), old(P[..]), W[..], totalBits, tell).p
  {
    CodeBands(m, coder, lib, true, X, P, W[..], totalBits, tell);
  }

  /** unquant_bands: decodes the residual into X given the prediction P. */
  method UnquantBands(m: Mode, coder: Coder, lib: Libm, X: array<real>, P: array<real>, totalBits: int, tell: int)
    requires ValidBands(m) && WellFormed(coder) && X != P
    requires X.Length >= SpectrumLength(m) && P.Length >= SpectrumLength(m)
    modifies X, P
    ensures X[..] == Coded(m, coder, lib, false, old(X[..]), old(P[..]), [], totalBits, tell).x
    ensures P[..] == Coded(m, coder, lib, false, old(X[..]), old(P[..]), [], totalBits, tell).p
  {
    CodeBands(m, coder, lib, false, X, P, [], totalBits, tell);
  }
}
