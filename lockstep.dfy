/** Why the mode decision must not depend on anything only the encoder knows: the decoder
    (unquant_bands) rebuilds exactly the X, P and context of the encoder (quant_bands) when every
    codeword an encoder collaborator writes reaches the decoder's counterpart, and each encoder
    collaborator's reconstruction is determined by the codeword it writes and by what both sides
    share. Both take the same decision for every band, because the decision reads only the band
    layout and the pulse count. */
module Lockstep {
  import opened Modes
  import opened Residual
  import opened ResidualFacts
  import Rotation

  /** The collaborator the decoder runs where the encoder runs `s`. */
  function DecoderStage(s: Stage): Stage {
    match s
    case IntraPrediction => IntraUnquant
    case AlgQuant => AlgUnquant
    case _ => s
  }

  /** The decoder's call `d` corresponds to the encoder's call `e`: the counterpart stage, for
      the same band, pulse count, blend, band width, predictor and context. Only the encoder
      hands over the samples of X to code and the weights; only the decoder hands over a
      codeword. */
  predicate Counterpart(e: Call, d: Call) {
    d.stage == DecoderStage(e.stage) && d.band == e.band && d.q == e.q && d.alpha == e.alpha &&
    |d.x| == |e.x| && d.p == e.p && d.context == e.context
  }

  /** The decoder's collaborators allocate like the encoder's, and a decoder call handed the
      codeword that the corresponding encoder call wrote leaves in X and P what that encoder call
      left there. */
  ghost predicate InStep(ce: Coder, cd: Coder) {
    (forall bits: int, i: int :: ce.allocation(bits, i) == cd.allocation(bits, i)) &&
    (forall e: Call, d: Call :: Counterpart(e, d) && d.code == ce.code(e) ==> cd.x(d) == ce.x(e) && cd.p(d) == ce.p(e))
  }

  /** The codeword the encoder's call `e` writes is what the decoder reads at the counterpart
      stage of the same band. */
  ghost predicate Delivered(ce: Coder, cd: Coder, e: Call) {
    cd.read(e.band, DecoderStage(e.stage)) == ce.code(e)
  }

  /** The codewords the encoder writes for band `i`, from the buffers `g` it holds before that
      band, reach the decoder. */
  ghost predicate Sent(m: Mode, ce: Coder, cd: Coder, lib: Libm, w: seq<real>, pulses: seq<int>, g: Frame, i: int)
    requires ValidBands(m) && 0 <= i < m.nbEBands && i < |pulses| && Fits(m, true, g, w) && WellFormed(ce)
  {
    BandSpan(m, i);
    var lo, hi := Span(m, m.eBands[i]), Span(m, m.eBands[i + 1]);
    var d := Decide(m.eBands[i], m.pitchEnd, pulses[i]);
    var g1 := IntraStage(ce, true, i, d, lo, hi, w[lo..hi], g);
    (d.intra ==> Delivered(ce, cd, IntraCall(ce, true, i, d.q, d.alpha, lo, hi, w[lo..hi], g))) &&
    (d.q > 0 ==> Delivered(ce, cd, VqCall(ce, lib, true, i, d.q, d.alpha, Theta(m, i, pulses[i]), Stride(m), SpreadRounds,
                                          lo, hi, w[lo..hi], g1)))
  }

  /** The codewords the encoder writes for its first `n` bands, starting from `fe`, reach the
      decoder. */
  ghost predicate Transmitted(m: Mode, ce: Coder, cd: Coder, lib: Libm, w: seq<real>, pulses: seq<int>, fe: Frame, n: int)
    requires ValidBands(m) && 0 <= n <= m.nbEBands && n <= |pulses| && Fits(m, true, fe, w) && WellFormed(ce)
  {
    forall i :: 0 <= i < n ==> Sent(m, ce, cd, lib, w, pulses, Bands(m, ce, lib, true, w, pulses, fe, i), i)
  }

  /** The codeword the decoder reads for stage `s` of band `i` when the bit-stream carries what
      the encoder wrote for its first `n` bands, starting from `fe`; nothing for other stages. */
  ghost function Written(m: Mode, ce: Coder, lib: Libm, w: seq<real>, pulses: seq<int>, fe: Frame, n: int, i: int, s: Stage): seq<int>
    requires ValidBands(m) && 0 <= n <= m.nbEBands && n <= |pulses| && Fits(m, true, fe, w) && WellFormed(ce)
  {
    if 0 <= i < n then
      var g := Bands(m, ce, lib, true, w, pulses, fe, i);
      BandSpan(m, i);
      var lo, hi := Span(m, m.eBands[i]), Span(m, m.eBands[i + 1]);
      var d := Decide(m.eBands[i], m.pitchEnd, pulses[i]);
      if d.intra && s == IntraKind(false, d.q) then
        ce.code(IntraCall(ce, true, i, d.q, d.alpha, lo, hi, w[lo..hi], g))
      else if d.q > 0 && s == AlgUnquant then
        ce.code(VqCall(ce, lib, true, i, d.q, d.alpha, Theta(m, i, pulses[i]), Stride(m), SpreadRounds,
                       lo, hi, w[lo..hi], IntraStage(ce, true, i, d, lo, hi, w[lo..hi], g)))
      else []
    else []
  }

  /** A decoder that reads what the encoder wrote receives every codeword of the first `n`
      bands. */
  lemma WrittenTransmitted(m: Mode, ce: Coder, cd: Coder, lib: Libm, w: seq<real>, pulses: seq<int>, fe: Frame, n: int)
    requires ValidBands(m) && 0 <= n <= m.nbEBands && n <= |pulses| && Fits(m, true, fe, w) && WellFormed(ce)
    requires forall i: int, s: Stage :: cd.read(i, s) == Written(m, ce, lib, w, pulses, fe, n, i, s)
    ensures Transmitted(m, ce, cd, lib, w, pulses, fe, n)
  {
    forall i | 0 <= i < n
      ensures Sent(m, ce, cd, lib, w, pulses, Bands(m, ce, lib, true, w, pulses, fe, i), i)
    {
      WrittenSent(m, ce, cd, lib, w, pulses, fe, n, i);
    }
  }

  /** Band `i` of such a decoder receives both codewords the encoder wrote for it. */
  lemma WrittenSent(m: Mode, ce: Coder, cd: Coder, lib: Libm, w: seq<real>, pulses: seq<int>, fe: Frame, n: int, i: int)
    requires ValidBands(m) && 0 <= i < n <= m.nbEBands && n <= |pulses| && Fits(m, true, fe, w) && WellFormed(ce)
    requires forall j: int, s: Stage :: cd.read(j, s) == Written(m, ce, lib, w, pulses, fe, n, j, s)
    ensures Sent(m, ce, cd, lib, w, pulses, Bands(m, ce, lib, true, w, pulses, fe, i), i)
  {
    hide Bands;
    var d := Decide(m.eBands[i], m.pitchEnd, pulses[i]);
    assert cd.read(i, IntraKind(false, d.q)) == Written(m, ce, lib, w, pulses, fe, n, i, IntraKind(false, d.q));
    assert cd.read(i, AlgUnquant) == Written(m, ce, lib, w, pulses, fe, n, i, AlgUnquant);
  }

  /** The codewords quant_bands writes for every band of the frame reach the decoder. */
  ghost predicate Streamed(m: Mode, ce: Coder, cd: Coder, lib: Libm, x: seq<real>, p: seq<real>, w: seq<real>,
                           totalBits: int, tell: int)
    requires ValidBands(m) && |x| >= SpectrumLength(m) && |p| >= SpectrumLength(m) && |w| >= SpectrumLength(m)
    requires WellFormed(ce)
  {
    Transmitted(m, ce, cd, lib, w, Allocation(ce, m.nbEBands, totalBits - tell - 1),
                Frame(x, p, seq(SpectrumLength(m), _ => 0.0)), m.nbEBands)
  }

  /** `a` and `b` hold the same samples at `[lo, hi)`. */
  predicate SameBand(a: seq<real>, b: seq<real>, lo: int, hi: int) {
    0 <= lo <= hi <= |a| && hi <= |b| && a[lo..hi] == b[lo..hi]
  }

  /** The encoder and the decoder frames agree but for the samples of X. */
  predicate Matched(fe: Frame, fd: Frame) {
    |fe.x| == |fd.x| && fe.p == fd.p && fe.norm == fd.norm
  }

  /** The calls of the encoder and of the decoder correspond. */
  lemma Answered(ce: Coder, cd: Coder, e: Call, d: Call)
    requires InStep(ce, cd) && Counterpart(e, d) && d.code == ce.code(e)
    ensures cd.x(d) == ce.x(e) && cd.p(d) == ce.p(e)
  {
  }

  /** The intra stage of the two sides leaves matched frames, with the same band of X when it
      runs. */
  lemma IntraInStep(ce: Coder, cd: Coder, i: int, d: Decision, lo: int, hi: int, wBand: seq<real>, fe: Frame, fd: Frame)
    requires Holds(fe, lo, hi) && Holds(fd, lo, hi) && WellFormed(ce) && WellFormed(cd) && InStep(ce, cd)
    requires Matched(fe, fd) && (d.intra ==> Delivered(ce, cd, IntraCall(ce, true, i, d.q, d.alpha, lo, hi, wBand, fe)))
    ensures var re := IntraStage(ce, true, i, d, lo, hi, wBand, fe);
      var rd := IntraStage(cd, false, i, d, lo, hi, [], fd);
      Matched(re, rd) && (d.intra ==> SameBand(re.x, rd.x, lo, hi))
  {
    if d.intra {
      var e := IntraCall(ce, true, i, d.q, d.alpha, lo, hi, wBand, fe);
      var c := IntraCall(cd, false, i, d.q, d.alpha, lo, hi, [], fd);
      Answered(ce, cd, e, c);
      OracleLength(ce, e);
      SpliceView(fe.x, lo, ce.x(e));
      SpliceView(fd.x, lo, cd.x(c));
    }
  }

  /** The pulse stage of the two sides leaves matched frames, with the same band of X when it
      runs. */
  lemma VqInStep(ce: Coder, cd: Coder, lib: Libm, i: int, q: int, alpha: real, theta: real, stride: int, iter: int,
                 lo: int, hi: int, wBand: seq<real>, fe: Frame, fd: Frame)
    requires Holds(fe, lo, hi) && Holds(fd, lo, hi) && WellFormed(ce) && WellFormed(cd) && InStep(ce, cd)
    requires Matched(fe, fd) && (q > 0 ==> Delivered(ce, cd, VqCall(ce, lib, true, i, q, alpha, theta, stride, iter, lo, hi, wBand, fe)))
    ensures var re := VqStage(ce, lib, true, i, q, alpha, theta, stride, iter, lo, hi, wBand, fe);
      var rd := VqStage(cd, lib, false, i, q, alpha, theta, stride, iter, lo, hi, [], fd);
      Matched(re, rd) && (q > 0 ==> SameBand(re.x, rd.x, lo, hi)) && (q <= 0 ==> re == fe && rd == fd)
  {
    if q > 0 {
      var e := VqCall(ce, lib, true, i, q, alpha, theta, stride, iter, lo, hi, wBand, fe);
      var c := VqCall(cd, lib, false, i, q, alpha, theta, stride, iter, lo, hi, [], fd);
      Answered(ce, cd, e, c);
      OracleLength(ce, e);
      var up := Rotation.TurnOf(lib, theta, 1);
      SpliceView(fe.x, lo, Rotation.ExpRotated(ce.x(e), stride, up, iter));
      SpliceView(fd.x, lo, Rotation.ExpRotated(cd.x(c), stride, up, iter));
    }
  }

  /** One band coded by the encoder and decoded by the decoder from matched frames leaves matched
      frames, with the same band of X. */
  lemma BandStepInStep(m: Mode, ce: Coder, cd: Coder, lib: Libm, w: seq<real>, pulses: seq<int>, fe: Frame, fd: Frame, i: int)
    requires ValidBands(m) && 0 <= i < m.nbEBands && i < |pulses|
    requires Fits(m, true, fe, w) && Fits(m, false, fd, []) && WellFormed(ce) && WellFormed(cd) && InStep(ce, cd)
    requires Matched(fe, fd) && Sent(m, ce, cd, lib, w, pulses, fe, i)
    ensures var re := BandStep(m, ce, lib, true, w, pulses, fe, i);
      var rd := BandStep(m, cd, lib, false, [], pulses, fd, i);
      Matched(re, rd) && SameBand(re.x, rd.x, Span(m, m.eBands[i]), Span(m, m.eBands[i + 1]))
  {
    BandSpan(m, i);
    var lo, hi := Span(m, m.eBands[i]), Span(m, m.eBands[i + 1]);
    var d := Decide(m.eBands[i], m.pitchEnd, pulses[i]);
    var fe1 := IntraStage(ce, true, i, d, lo, hi, w[lo..hi], fe);
    var fd1 := IntraStage(cd, false, i, d, lo, hi, [], fd);
    IntraInStep(ce, cd, i, d, lo, hi, w[lo..hi], fe, fd);
    var theta := Theta(m, i, pulses[i]);
    var fe2 := VqStage(ce, lib, true, i, d.q, d.alpha, theta, Stride(m), SpreadRounds, lo, hi, w[lo..hi], fe1);
    var fd2 := VqStage(cd, lib, false, i, d.q, d.alpha, theta, Stride(m), SpreadRounds, lo, hi, [], fd1);
    VqInStep(ce, cd, lib, i, d.q, d.alpha, theta, Stride(m), SpreadRounds, lo, hi, w[lo..hi], fe1, fd1);
    assert SameBand(fe2.x, fd2.x, lo, hi);
  }

  /** Joining agreement on `[a, c)`, kept by a step that writes only from `c` on, with agreement
      on `[c, b)`. */
  lemma JoinBands(re: seq<real>, ge: seq<real>, rd: seq<real>, gd: seq<real>, a: int, c: int, b: int)
    requires SameBand(ge, gd, a, c) && SameBand(re, rd, c, b)
    requires c <= |ge| && c <= |gd| && re[..c] == ge[..c] && rd[..c] == gd[..c]
    ensures SameBand(re, rd, a, b)
  {
    PrefixSlice(re, ge, c, a, c);
    PrefixSlice(rd, gd, c, a, c);
    assert re[a..b] == re[a..c] + re[c..b];
    assert rd[a..b] == rd[a..c] + rd[c..b];
  }

  /** A band step from matched frames that agree on `[a, start of band i)` leaves matched frames
      that agree on `[a, end of band i)`. */
  lemma StepInStep(m: Mode, ce: Coder, cd: Coder, lib: Libm, w: seq<real>, pulses: seq<int>, ge: Frame, gd: Frame, i: int, a: int)
    requires ValidBands(m) && 0 <= i < m.nbEBands && i < |pulses|
    requires Fits(m, true, ge, w) && Fits(m, false, gd, []) && WellFormed(ce) && WellFormed(cd) && InStep(ce, cd)
    requires Matched(ge, gd) && SameBand(ge.x, gd.x, a, Span(m, m.eBands[i])) && Sent(m, ce, cd, lib, w, pulses, ge, i)
    ensures var re := BandStep(m, ce, lib, true, w, pulses, ge, i);
      var rd := BandStep(m, cd, lib, false, [], pulses, gd, i);
      Matched(re, rd) && SameBand(re.x, rd.x, a, Span(m, m.eBands[i + 1]))
  {
    BandStepInStep(m, ce, cd, lib, w, pulses, ge, gd, i);
    BandStepFrame(m, ce, lib, true, w, pulses, ge, i);
    BandStepFrame(m, cd, lib, false, [], pulses, gd, i);
    var re := BandStep(m, ce, lib, true, w, pulses, ge, i);
    var rd := BandStep(m, cd, lib, false, [], pulses, gd, i);
    JoinBands(re.x, ge.x, rd.x, gd.x, a, Span(m, m.eBands[i]), Span(m, m.eBands[i + 1]));
  }

  /** After the first `n` bands the encoder and the decoder hold the same P and context, and the
      same X from the start of band 0 to the end of band `n-1`. */
  lemma {:induction false} BandsInStep(m: Mode, ce: Coder, cd: Coder, lib: Libm, w: seq<real>, pulses: seq<int>,
                                       fe: Frame, fd: Frame, n: int)
    requires ValidBands(m) && 0 <= n <= m.nbEBands && n <= |pulses|
    requires Fits(m, true, fe, w) && Fits(m, false, fd, []) && WellFormed(ce) && WellFormed(cd) && InStep(ce, cd)
    requires Matched(fe, fd) && Transmitted(m, ce, cd, lib, w, pulses, fe, n)
    ensures var re := Bands(m, ce, lib, true, w, pulses, fe, n);
      var rd := Bands(m, cd, lib, false, [], pulses, fd, n);
      Matched(re, rd) && SameBand(re.x, rd.x, Span(m, m.eBands[0]), Span(m, m.eBands[n]))
  {
    hide BandStep;
    Boundary(m, n);
    if n > 0 {
      BandsInStep(m, ce, cd, lib, w, pulses, fe, fd, n - 1);
      StepInStep(m, ce, cd, lib, w, pulses, Bands(m, ce, lib, true, w, pulses, fe, n - 1),
                 Bands(m, cd, lib, false, [], pulses, fd, n - 1), n - 1, Span(m, m.eBands[0]));
    }
  }

  /** Collaborators in step allocate the same pulses. */
  lemma SameAllocation(ce: Coder, cd: Coder, n: int, bits: int)
    requires InStep(ce, cd) && 0 <= n
    ensures Allocation(ce, n, bits) == Allocation(cd, n, bits)
  {
  }

  /** The decoder's band loop run on equal allocations. */
  lemma SamePulses(m: Mode, cd: Coder, lib: Libm, pa: seq<int>, pb: seq<int>, fd: Frame)
    requires pa == pb && ValidBands(m) && Fits(m, false, fd, []) && WellFormed(cd) && m.nbEBands <= |pa|
    ensures Bands(m, cd, lib, false, [], pa, fd, m.nbEBands) == Bands(m, cd, lib, false, [], pb, fd, m.nbEBands)
  {
  }

  /** Clearing the same positions of two matched frames that agree on `[a, e)` leaves matched
      frames that agree on `[a, n)`. */
  lemma ClearedSame(be: Frame, bd: Frame, re: Frame, rd: Frame, a: int, e: int, n: int)
    requires Matched(be, bd) && SameBand(be.x, bd.x, a, e) && e <= n <= |be.x|
    requires re == Frame(Padding.Zeroed(be.x, e, n), be.p, be.norm)
    requires rd == Frame(Padding.Zeroed(bd.x, e, n), bd.p, bd.norm)
    ensures re.p == rd.p && re.norm == rd.norm && SameBand(re.x, rd.x, a, n)
  {
    assert re.x[a..n] == re.x[a..e] + re.x[e..n] && rd.x[a..n] == rd.x[a..e] + rd.x[e..n];
    assert re.x[a..e] == be.x[a..e] && rd.x[a..e] == bd.x[a..e];
  }

  /** The decoder in step with the encoder, reading the codewords the encoder wrote, ends
      unquant_bands with the P and the context that quant_bands ends with, and with the same X from the start of band 0 to the end of the
      spectrum, whatever X held before decoding. */
  lemma EncoderDecoderInStep(m: Mode, ce: Coder, cd: Coder, lib: Libm, xe: seq<real>, xd: seq<real>, p: seq<real>, w: seq<real>,
                             totalBits: int, tell: int)
    requires ValidBands(m) && |xe| == |xd| && |xe| >= SpectrumLength(m) && |p| >= SpectrumLength(m) && |w| >= SpectrumLength(m)
    requires WellFormed(ce) && WellFormed(cd) && InStep(ce, cd) && Streamed(m, ce, cd, lib, xe, p, w, totalBits, tell)
    ensures var re := Coded(m, ce, lib, true, xe, p, w, totalBits, tell);
      var rd := Coded(m, cd, lib, false, xd, p, [], totalBits, tell);
      re.p == rd.p && re.norm == rd.norm && SameBand(re.x, rd.x, Span(m, m.eBands[0]), SpectrumLength(m))
  {
    var pulses := Allocation(ce, m.nbEBands, totalBits - tell - 1);
    SameAllocation(ce, cd, m.nbEBands, totalBits - tell - 1);
    var zero := seq(SpectrumLength(m), _ => 0.0);
    var fe, fd := Frame(xe, p, zero), Frame(xd, p, zero);
    BandsInStep(m, ce, cd, lib, w, pulses, fe, fd, m.nbEBands);
    CodedForm(m, ce, lib, true, xe, p, w, totalBits, tell);
    CodedForm(m, cd, lib, false, xd, p, [], totalBits, tell);
    Boundary(m, m.nbEBands);
    BandSpan0(m);
    SamePulses(m, cd, lib, Allocation(cd, m.nbEBands, totalBits - tell - 1), pulses, fd);
    ClearedSame(Bands(m, ce, lib, true, w, pulses, fe, m.nbEBands), Bands(m, cd, lib, false, [], pulses, fd, m.nbEBands),
                Coded(m, ce, lib, true, xe, p, w, totalBits, tell), Coded(m, cd, lib, false, xd, p, [], totalBits, tell),
                Span(m, m.eBands[0]), Span(m, m.eBands[m.nbEBands]), SpectrumLength(m));
  }

  // ---------------------------------------------------------------------------------------
  // A coder pair in step

  /** The samples of `x` rounded down. */
  function Floors(x: seq<real>): (r: seq<int>)
    ensures |r| == |x| && forall k :: 0 <= k < |x| ==> r[k] == x[k].Floor
  {
    seq(|x|, k requires 0 <= k < |x| => x[k].Floor)
  }

  /** The codeword `code` as samples, padded with zeros to `n`. */
  function Samples(code: seq<int>, n: int): (r: seq<real>)
    requires 0 <= n
    ensures |r| == n && forall k :: 0 <= k < n && k < |code| ==> r[k] == code[k] as real
  {
    seq(n, k requires 0 <= k < n => if k < |code| then code[k] as real else 0.0)
  }

  /** An encoder whose collaborators write the band of X rounded down as the codeword, and
      reconstruct X as that rounding; P is left as handed. */
  function RoundingEncoder(allocation: (int, int) -> int): Coder {
    Coder(allocation, (c: Call) => Samples(Floors(c.x), |c.x|), (c: Call) => c.p, (c: Call) => Floors(c.x),
          (i: int, s: Stage) => [])
  }

  /** The matching decoder: it reconstructs X from the codeword `read` yields; P is left as
      handed. */
  function RoundingDecoder(allocation: (int, int) -> int, read: (int, Stage) -> seq<int>): Coder {
    Coder(allocation, (d: Call) => Samples(d.code, |d.x|), (d: Call) => d.p, (d: Call) => [], read)
  }

  /** The rounding pair is well formed, whatever the decoder reads. */
  lemma RoundingWellFormed(allocation: (int, int) -> int)
    ensures WellFormed(RoundingEncoder(allocation))
    ensures forall read :: WellFormed(RoundingDecoder(allocation, read))
  {
  }

  /** The rounding pair is in step, whatever the decoder reads: the premises of the lemmas
      above can be met by collaborators whose output depends on the signal. */
  lemma RoundingInStep(allocation: (int, int) -> int, read: (int, Stage) -> seq<int>)
    ensures InStep(RoundingEncoder(allocation), RoundingDecoder(allocation, read))
  {
  }

  /** The bit-stream quant_bands writes for a frame, as the decoder's range decoder yields it. */
  ghost function Stream(m: Mode, ce: Coder, lib: Libm, x: seq<real>, p: seq<real>, w: seq<real>,
                        totalBits: int, tell: int): (int, Stage) -> seq<int>
    requires ValidBands(m) && |x| >= SpectrumLength(m) && |p| >= SpectrumLength(m) && |w| >= SpectrumLength(m)
    requires WellFormed(ce)
  {
    (i: int, s: Stage) => Written(m, ce, lib, w, Allocation(ce, m.nbEBands, totalBits - tell - 1),
                                  Frame(x, p, seq(SpectrumLength(m), _ => 0.0)), m.nbEBands, i, s)
  }

  /** An instance of the lemma above: the rounding decoder reading what the rounding encoder
      wrote ends unquant_bands with the P and the context quant_bands ends with, and with the
      same X from the start of band 0 on, whatever X held before decoding. */
  lemma RoundingCodecInStep(allocation: (int, int) -> int, m: Mode, lib: Libm, xe: seq<real>, xd: seq<real>,
                            p: seq<real>, w: seq<real>, totalBits: int, tell: int)
    requires ValidBands(m) && |xe| == |xd| && |xe| >= SpectrumLength(m) && |p| >= SpectrumLength(m) && |w| >= SpectrumLength(m)
    ensures (RoundingWellFormed(allocation);
      var ce := RoundingEncoder(allocation);
      var cd := RoundingDecoder(allocation, Stream(m, ce, lib, xe, p, w, totalBits, tell));
      var re := Coded(m, ce, lib, true, xe, p, w, totalBits, tell);
      var rd := Coded(m, cd, lib, false, xd, p, [], totalBits, tell);
      re.p == rd.p && re.norm == rd.norm && SameBand(re.x, rd.x, Span(m, m.eBands[0]), SpectrumLength(m)))
  {
    RoundingWellFormed(allocation);
    var ce := RoundingEncoder(allocation);
    var read := Stream(m, ce, lib, xe, p, w, totalBits, tell);
    var cd := RoundingDecoder(allocation, read);
    RoundingInStep(allocation, read);
    WrittenTransmitted(m, ce, cd, lib, w, Allocation(ce, m.nbEBands, totalBits - tell - 1),
                       Frame(xe, p, seq(SpectrumLength(m), _ => 0.0)), m.nbEBands);
    EncoderDecoderInStep(m, ce, cd, lib, xe, xd, p, w, totalBits, tell);
  }
}
