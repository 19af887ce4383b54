/** The padding discipline: every routine that produces a spectrum clears the positions
    between the end of the last coded band and the end of the buffer. */
module Padding {
  import opened Modes

  /** `x` with the positions `[lo, hi)` set to zero. */
  function Zeroed(x: seq<real>, lo: int, hi: int): (r: seq<real>)
    ensures |r| == |x|
  {
    seq(|x|, k requires 0 <= k < |x| => if lo <= k < hi then 0.0 else x[k])
  }

  /** The clearing loop that ends normalise_bands, denormalise_bands, compute_pitch_gain,
      pitch_quant_bands, quant_bands, unquant_bands and stereo_mix. */
  method ZeroRange(x: array<real>, lo: int, hi: int)
    requires 0 <= lo && hi <= x.Length
    modifies x
    ensures x[..] == Zeroed(old(x[..]), lo, hi)
  {
    ghost var x0 := x[..];
    var k := lo;
    while k < hi
      invariant lo <= k && (k <= hi || k == lo)
      invariant x[..] == Zeroed(x0, lo, k)
    {
      ghost var before := x[..];
      x[k] := 0.0;
      assert x[..] == before[k := 0.0];
      k := k + 1;
    }
  }

  /** The source computes the ends of the padding as `B·C·e`; the model writes them as
      `(e·B)·C`. */
  lemma ProductForm(B: int, C: int, e: int)
    ensures B * C * e == Mul(Mul(e, B), C)
  {
    MulIsProduct(e, B);
    MulIsProduct(Mul(e, B), C);
    Reassociate(B, C, e);
  }

  lemma Reassociate(B: int, C: int, e: int)
    ensures B * C * e == (e * B) * C
  {
  }

  /** The source computes positions of the pitch and residual layouts as `(B·C)·e`. */
  lemma SpanForm(m: Mode, e: int)
    ensures m.nbMdctBlocks * m.nbChannels * e == Span(m, e)
  {
    ProductForm(m.nbMdctBlocks, m.nbChannels, e);
  }

  /** First padding position: the end of the last coded band in every channel. */
  function PadStart(m: Mode): (p: int)
    requires ValidBands(m)
    ensures 0 <= p <= SpectrumLength(m)
  {
    BandBounds(m, m.nbEBands);
    MulMono(0, BandStart(m, m.nbEBands), m.nbChannels);
    MulMono(BandStart(m, m.nbEBands), BandStart(m, m.nbEBands + 1), m.nbChannels);
    Mul(BandStart(m, m.nbEBands), m.nbChannels)
  }

  /** The bounds of the padding loops, as the source computes them. */
  lemma PaddingBounds(m: Mode)
    requires ValidBands(m)
    ensures m.nbMdctBlocks * m.nbChannels * m.eBands[m.nbEBands] == PadStart(m)
    ensures m.nbMdctBlocks * m.nbChannels * m.eBands[m.nbEBands + 1] == SpectrumLength(m)
  {
    ProductForm(m.nbMdctBlocks, m.nbChannels, m.eBands[m.nbEBands]);
    ProductForm(m.nbMdctBlocks, m.nbChannels, m.eBands[m.nbEBands + 1]);
  }
}
