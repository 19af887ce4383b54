/** The read-only band layout (CELTMode), the interleaved spectrum index, the scaling
    constants of the floating-point build, and the mathematical library routines the band
    layer calls. */
module Modes {

  /** One operating configuration. `eBands` holds the energy-band boundaries in MDCT-bin
      units, the last entry being the padded end of the spectrum; `pBands` the coarser
      pitch-band partition; `pitchEnd` the bin from which pitch prediction is disabled. */
  datatype Mode = Mode(
    nbMdctBlocks: int,
    nbChannels: int,
    nbEBands: int,
    eBands: seq<int>,
    nbPBands: int,
    pBands: seq<int>,
    pitchEnd: int)

  ghost predicate NonDecreasing(s: seq<int>) {
    forall a, b :: 0 <= a <= b < |s| ==> s[a] <= s[b]
  }

  /** What every routine of the band layer relies on: at least one block and one channel,
      `nbEBands + 2` ordered, non-negative energy-band boundaries. */
  ghost predicate ValidBands(m: Mode) {
    m.nbMdctBlocks >= 1 && m.nbChannels >= 1 && m.nbEBands >= 0 &&
    |m.eBands| == m.nbEBands + 2 && 0 <= m.eBands[0] && NonDecreasing(m.eBands)
  }

  /** The pitch-band partition lies inside the coded energy bands, so that every weight the
      pitch-gain estimator reads was written from an energy band. */
  ghost predicate ValidPitchBands(m: Mode) {
    ValidBands(m) && m.nbPBands >= 0 && |m.pBands| == m.nbPBands + 2 &&
    NonDecreasing(m.pBands) && m.eBands[0] <= m.pBands[0] &&
    m.pBands[m.nbPBands] <= m.eBands[m.nbEBands] && m.pBands[m.nbPBands + 1] <= m.eBands[m.nbEBands + 1]
  }

  /** `x·k`. Written as a recursion on `x` whose every unfolding is linear, so that the
      position arithmetic of the band loops stays linear for the verifier; MulIsProduct shows
      it is the product. */
  function Mul(x: int, k: int): (r: int)
    ensures 0 <= x && 0 <= k ==> 0 <= r
    decreases if x < 0 then -x else x
  {
    if x == 0 then 0
    else if x > 0 then Mul(x - 1, k) + k
    else Mul(x + 1, k) - k
  }

  lemma {:induction false} MulIsProduct(x: int, k: int)
    ensures Mul(x, k) == x * k
    decreases if x < 0 then -x else x
  {
    if x > 0 {
      MulIsProduct(x - 1, k);
      assert (x - 1) * k + k == x * k;
    } else if x < 0 {
      MulIsProduct(x + 1, k);
      assert (x + 1) * k - k == x * k;
    }
  }

  /** First bin of energy band `i` (the end of band `i-1`): `B·eBands[i]`. */
  function BandStart(m: Mode, i: int): int
    requires ValidBands(m) && 0 <= i < |m.eBands|
  {
    Mul(m.eBands[i], m.nbMdctBlocks)
  }

  /** Number of samples in a spectrum buffer: `B·C·eBands[nbEBands+1]`. */
  function SpectrumLength(m: Mode): int
    requires ValidBands(m)
  {
    Mul(BandStart(m, m.nbEBands + 1), m.nbChannels)
  }

  /** `B·C·e`: the position where a band boundary `e` falls in the routines that treat all
      channels of a bin as one run of samples (pitch gains and the residual quantiser). */
  function Span(m: Mode, e: int): int {
    Mul(Mul(e, m.nbMdctBlocks), m.nbChannels)
  }

  /** Position of channel `c` of bin `j` in a buffer interleaving `C` channels. */
  function Idx(j: int, c: int, C: int): int {
    Mul(j, C) + c
  }

  // Scaling macros of the floating-point build (they differ in the fixed-point build).
  const SigScaling: real := 1.0
  const SigScaling1: real := 1.0
  const NormScaling: real := 1.0
  const NormScaling1: real := 1.0
  const EnerScaling: real := 1.0
  const EnerScaling1: real := 1.0

  /** The 1e-10 floor that keeps energies and gain denominators away from zero. */
  const Floor: real := 1e-10

  /** `v·g`, named so that the verifier treats the product of a sample and a gain as one term
      when it reasons about whole sequences of such products. */
  function Times(v: real, g: real): real {
    v * g
  }

  /** The libm routines the band layer calls, as total functions on the reals. */
  datatype Libm = Libm(sqrt: real -> real, cos: real -> real, sin: real -> real)

  /** The only facts about them the model uses: the square root of a positive number is
      positive, and cosine and sine of one angle lie on the unit circle. */
  ghost predicate ValidLibm(lib: Libm) {
    (forall x :: x > 0.0 ==> lib.sqrt(x) > 0.0) &&
    (forall t :: lib.cos(t) * lib.cos(t) + lib.sin(t) * lib.sin(t) == 1.0)
  }

  lemma MulStep(x: int, k: int)
    ensures Mul(x + 1, k) == Mul(x, k) + k
  {
    MulIsProduct(x, k);
    MulIsProduct(x + 1, k);
  }

  lemma {:induction false} MulMono(x: int, y: int, k: int)
    requires x <= y && 0 <= k
    ensures Mul(x, k) <= Mul(y, k)
    decreases y - x
  {
    if x < y {
      MulMono(x, y - 1, k);
      MulStep(y - 1, k);
    }
  }

  lemma MulNonNegative(x: int, k: int)
    requires 0 <= x && 0 <= k
    ensures 0 <= Mul(x, k)
  {
    MulMono(0, x, k);
  }

  /** Band boundaries scaled by a block count stay ordered. */
  lemma ScaledOrder(s: seq<int>, B: int)
    requires NonDecreasing(s) && 0 <= B
    ensures forall a, b :: 0 <= a <= b < |s| ==> Mul(s[a], B) <= Mul(s[b], B)
  {
    forall a, b | 0 <= a <= b < |s|
      ensures Mul(s[a], B) <= Mul(s[b], B)
    {
      MulMono(s[a], s[b], B);
    }
  }

  /** Band boundaries in bins are ordered, and band `i` lies inside the spectrum. */
  lemma BandBounds(m: Mode, i: int)
    requires ValidBands(m) && 0 <= i <= m.nbEBands
    ensures 0 <= BandStart(m, 0) <= BandStart(m, i) <= BandStart(m, i + 1) <= BandStart(m, m.nbEBands)
            || i == m.nbEBands
    ensures 0 <= BandStart(m, 0) <= BandStart(m, i) <= BandStart(m, m.nbEBands) <= BandStart(m, m.nbEBands + 1)
    ensures Mul(BandStart(m, m.nbEBands + 1), m.nbChannels) == SpectrumLength(m)
  {
    ScaledOrder(m.eBands, m.nbMdctBlocks);
    MulMono(0, m.eBands[0], m.nbMdctBlocks);
  }

  /** Band `i` of every channel lies inside the spectrum. */
  lemma BandInSpectrum(m: Mode, i: int)
    requires ValidBands(m) && 0 <= i < m.nbEBands
    ensures 0 <= BandStart(m, i) <= BandStart(m, i + 1)
    ensures Mul(BandStart(m, i + 1), m.nbChannels) <= SpectrumLength(m)
  {
    BandBounds(m, i + 1);
    BandBounds(m, i);
    MulMono(BandStart(m, i + 1), BandStart(m, m.nbEBands + 1), m.nbChannels);
  }

  /** Channel `c` of a bin in `[lo, hi)` lies in `[lo·C, hi·C)`. */
  lemma IdxRange(j: int, c: int, C: int, lo: int, hi: int)
    requires 0 <= c < C && lo <= j < hi
    ensures Mul(lo, C) <= Idx(j, c, C) < Mul(hi, C)
  {
    MulMono(lo, j, C);
    MulStep(j, C);
    MulMono(j + 1, hi, C);
  }

  /** The next bin of a channel is `C` positions further on. */
  lemma IdxNext(j: int, c: int, C: int)
    ensures Idx(j + 1, c, C) == Idx(j, c, C) + C
  {
    MulStep(j, C);
  }

  /** Distinct (bin, channel) pairs occupy distinct positions. */
  lemma IdxInjective(C: int)
    requires 1 <= C
    ensures forall j1, c1, j2, c2 {:trigger Idx(j1, c1, C), Idx(j2, c2, C)} ::
      0 <= c1 < C && 0 <= c2 < C && Idx(j1, c1, C) == Idx(j2, c2, C) ==> j1 == j2 && c1 == c2
  {
    forall j1, c1, j2, c2 | 0 <= c1 < C && 0 <= c2 < C && Idx(j1, c1, C) == Idx(j2, c2, C)
      ensures j1 == j2 && c1 == c2
    {
      if j1 < j2 {
        IdxRange(j1, c1, C, j1, j1 + 1);
        IdxRange(j2, c2, C, j1 + 1, j2 + 1);
      } else if j2 < j1 {
        IdxRange(j2, c2, C, j2, j2 + 1);
        IdxRange(j1, c1, C, j2 + 1, j1 + 1);
      }
    }
  }

  /** A position `q·C + r` with `0 <= r < C` below `n·C` has `0 <= q < n`. */
  lemma CoverBounds(k: int, n: int, C: int, q: int, r: int)
    requires 1 <= C && 0 <= k < Mul(n, C) && Mul(q, C) + r == k && 0 <= r < C
    ensures 0 <= q < n
  {
    if q >= n {
      MulMono(n, q, C);
    }
    if q < 0 {
      MulMono(q + 1, 0, C);
      MulStep(q, C);
    }
  }

  /** Every position below `n·C` is channel `k % C` of a bin below `n`. */
  lemma IdxCovers(k: int, n: int, C: int)
    requires 1 <= C && 0 <= k < Mul(n, C)
    ensures 0 <= k / C < n && 0 <= k % C < C && Idx(k / C, k % C, C) == k
  {
    var q, r := k / C, k % C;
    MulIsProduct(q, C);
    CoverBounds(k, n, C, q, r);
  }

  lemma SpanMono(m: Mode, a: int, b: int)
    requires ValidBands(m) && a <= b
    ensures Span(m, a) <= Span(m, b)
  {
    MulMono(a, b, m.nbMdctBlocks);
    MulMono(Mul(a, m.nbMdctBlocks), Mul(b, m.nbMdctBlocks), m.nbChannels);
  }

  lemma SpanNonNegative(m: Mode, a: int)
    requires ValidBands(m) && 0 <= a
    ensures 0 <= Span(m, a)
  {
    SpanMono(m, 0, a);
  }

  /** Boundary `i` of a partition lies in the spectrum when the partition's last entry does. */
  lemma SpanInSpectrum(m: Mode, s: seq<int>, i: int)
    requires ValidBands(m) && NonDecreasing(s) && 0 <= i < |s| && s[|s| - 1] <= m.eBands[m.nbEBands + 1]
    ensures Span(m, s[i]) <= SpectrumLength(m)
  {
    SpanMono(m, s[i], m.eBands[m.nbEBands + 1]);
  }

  /** The band of a partition `s` (energy or pitch bands) that holds position `j`, searching
      from band `i0`: band `i` holds the positions `[Span(s[i]), Span(s[i+1]))`. */
  function Locate(m: Mode, s: seq<int>, n: int, j: int, i0: int): (i: int)
    requires ValidBands(m) && 0 <= i0 <= n && n + 1 < |s|
    requires Span(m, s[i0]) <= j < Span(m, s[n])
    ensures i0 <= i < n && Span(m, s[i]) <= j < Span(m, s[i + 1])
    decreases n - i0
  {
    if j < Span(m, s[i0 + 1]) then i0 else Locate(m, s, n, j, i0 + 1)
  }

  /** A position of band `i` is located in band `i`. */
  lemma {:induction false} LocateBand(m: Mode, s: seq<int>, n: int, i0: int, i: int, j: int)
    requires ValidBands(m) && NonDecreasing(s) && 0 <= i0 <= i < n && n + 1 < |s|
    requires Span(m, s[i]) <= j < Span(m, s[i + 1])
    ensures Span(m, s[i0]) <= j < Span(m, s[n])
    ensures Locate(m, s, n, j, i0) == i
    decreases n - i0
  {
    SpanMono(m, s[i0], s[i]);
    SpanMono(m, s[i + 1], s[n]);
    if i0 < i {
      SpanMono(m, s[i0 + 1], s[i]);
      LocateBand(m, s, n, i0 + 1, i, j);
    }
  }
}
