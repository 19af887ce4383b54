/** compute_band_energies: the amplitude of every band of every channel. Band `i` of channel
    `c` is the set of positions `j·C + c` for bins `j` in `[B·eBands[i], B·eBands[i+1])`, with
    `B = nbMdctBlocks`. */
module Energy {
  import opened Modes

  /** Σ SIG_SCALING_1²·x² over channel `c` of bins `[lo, hi)`. */
  function SqSum(x: seq<real>, lo: int, hi: int, c: int, C: int): real
    requires 0 <= lo && 0 <= c < C && Mul(hi, C) <= |x|
    decreases hi - lo
  {
    if hi <= lo then 0.0
    else
      MulMono(hi - 1, hi, C);
      IdxRange(hi - 1, c, C, lo, hi);
      var v := x[Idx(hi - 1, c, C)];
      SqSum(x, lo, hi - 1, c, C) + SigScaling1 * SigScaling1 * v * v
  }

  /** A sum of squares is never negative. */
  lemma {:induction false} SqSumNonNegative(x: seq<real>, lo: int, hi: int, c: int, C: int)
    requires 0 <= lo && 0 <= c < C && Mul(hi, C) <= |x|
    ensures SqSum(x, lo, hi, c, C) >= 0.0
    decreases hi - lo
  {
    if hi > lo {
      MulMono(hi - 1, hi, C);
      SqSumNonNegative(x, lo, hi - 1, c, C);
    }
  }

  /** The accumulator of compute_band_energies for band `i`, channel `c`: 1e-10 plus the
      band's sum of squares. */
  function BandSum(m: Mode, x: seq<real>, i: int, c: int): real
    requires ValidBands(m) && 0 <= i < m.nbEBands && 0 <= c < m.nbChannels
    requires |x| >= SpectrumLength(m)
  {
    BandInSpectrum(m, i);
    Floor + SqSum(x, BandStart(m, i), BandStart(m, i + 1), c, m.nbChannels)
  }

  /** bank[i·C + c]: ENER_SCALING·sqrt of the accumulator. */
  function BandEnergy(m: Mode, x: seq<real>, i: int, c: int, lib: Libm): real
    requires ValidBands(m) && 0 <= i < m.nbEBands && 0 <= c < m.nbChannels
    requires |x| >= SpectrumLength(m)
  {
    EnerScaling * lib.sqrt(BandSum(m, x, i, c))
  }

  /** The accumulator is at least 1e-10, so with a square root that is positive on positive
      numbers every band energy is strictly positive. */
  lemma BandEnergyPositive(m: Mode, x: seq<real>, i: int, c: int, lib: Libm)
    requires ValidBands(m) && 0 <= i < m.nbEBands && 0 <= c < m.nbChannels
    requires |x| >= SpectrumLength(m)
    requires ValidLibm(lib)
    ensures BandSum(m, x, i, c) >= Floor
    ensures BandEnergy(m, x, i, c, lib) > 0.0
  {
    BandInSpectrum(m, i);
    SqSumNonNegative(x, BandStart(m, i), BandStart(m, i + 1), c, m.nbChannels);
  }

  /** Extending the bins by one adds the square of the next sample. */
  lemma SqSumStep(x: seq<real>, lo: int, j: int, hi: int, c: int, C: int)
    requires 0 <= lo <= j < hi && 0 <= c < C && Mul(hi, C) <= |x|
    ensures Mul(j + 1, C) <= |x| && 0 <= Idx(j, c, C) < |x|
    ensures SqSum(x, lo, j + 1, c, C) == SqSum(x, lo, j, c, C) + SigScaling1 * SigScaling1 * x[Idx(j, c, C)] * x[Idx(j, c, C)]
  {
    MulMono(j + 1, hi, C);
    IdxRange(j, c, C, lo, j + 1);
  }

  /** The inner loop of compute_band_energies: accumulates channel `c` of bins `[lo, hi)`
      onto 1e-10. It reads X and writes nothing. */
  method SumBand(X: array<real>, lo: int, hi: int, c: int, C: int) returns (sum: real)
    requires 0 <= lo <= hi && 0 <= c < C && Mul(hi, C) <= X.Length
    ensures sum == Floor + SqSum(X[..], lo, hi, c, C)
  {
    sum := Floor;
    var j := lo;
    MulMono(j, hi, C);
    while j < hi
      invariant lo <= j <= hi && Mul(j, C) <= X.Length
      invariant sum == Floor + SqSum(X[..], lo, j, c, C)
    {
      SqSumStep(X[..], lo, j, hi, c, C);
      var v := X[Idx(j, c, C)];
      sum := sum + SigScaling1 * SigScaling1 * v * v;
      j := j + 1;
    }
  }

  /** bank holds the energy of band `i`, channel `c` at position i·C + c, for every band and
      channel (the guard on the position always holds when |bank| >= nbEBands·C, by IdxRange). */
  ghost predicate EnergiesStored(m: Mode, x: seq<real>, bank: seq<real>, lib: Libm, n: int, c0: int)
    requires ValidBands(m) && |x| >= SpectrumLength(m)
  {
    forall i, c :: 0 <= i < m.nbEBands && 0 <= c < m.nbChannels && 0 <= Idx(i, c, m.nbChannels) < |bank| &&
                   (c < c0 || (c == c0 && i < n)) ==>
      bank[Idx(i, c, m.nbChannels)] == BandEnergy(m, x, i, c, lib)
  }

  /** The whole energy array of a spectrum: entry i·C + c is the energy of band `i`,
      channel `c`. */
  function BandEnergies(m: Mode, x: seq<real>, lib: Libm): (e: seq<real>)
    requires ValidBands(m) && |x| >= SpectrumLength(m)
    ensures |e| == Mul(m.nbEBands, m.nbChannels)
  {
    seq(Mul(m.nbEBands, m.nbChannels), k requires 0 <= k < Mul(m.nbEBands, m.nbChannels) =>
      IdxCovers(k, m.nbEBands, m.nbChannels);
      BandEnergy(m, x, k / m.nbChannels, k % m.nbChannels, lib))
  }

  /** A fully computed array is the energy array. */
  lemma {:induction false} StoredAreEnergies(m: Mode, x: seq<real>, bank: seq<real>, lib: Libm)
    requires ValidBands(m) && |x| >= SpectrumLength(m)
    requires |bank| >= Mul(m.nbEBands, m.nbChannels)
    requires EnergiesStored(m, x, bank, lib, 0, m.nbChannels)
    ensures bank[..Mul(m.nbEBands, m.nbChannels)] == BandEnergies(m, x, lib)
  {
    forall k | 0 <= k < Mul(m.nbEBands, m.nbChannels)
      ensures bank[k] == BandEnergies(m, x, lib)[k]
    {
      IdxCovers(k, m.nbEBands, m.nbChannels);
    }
  }

  /** With a square root positive on positive numbers every band energy is positive. */
  lemma BandEnergiesPositive(m: Mode, x: seq<real>, lib: Libm)
    requires ValidBands(m) && |x| >= SpectrumLength(m) && ValidLibm(lib)
    ensures forall k :: 0 <= k < |BandEnergies(m, x, lib)| ==> BandEnergies(m, x, lib)[k] > 0.0
  {
    forall k | 0 <= k < Mul(m.nbEBands, m.nbChannels)
      ensures BandEnergies(m, x, lib)[k] > 0.0
    {
      IdxCovers(k, m.nbEBands, m.nbChannels);
      BandEnergyPositive(m, x, k / m.nbChannels, k % m.nbChannels, lib);
    }
  }

  /** compute_band_energies: bank[i·C + c] is the energy of band `i` of channel `c` for every
      band and channel, the entries of bank beyond nbEBands·C are left alone, and the
      spectrum is only read. */
  method ComputeBandEnergies(m: Mode, X: array<real>, bank: array<real>, lib: Libm)
    requires ValidBands(m) && X.Length >= SpectrumLength(m)
    requires bank.Length >= Mul(m.nbEBands, m.nbChannels) && X != bank
    modifies bank
    ensures bank[..Mul(m.nbEBands, m.nbChannels)] == BandEnergies(m, X[..], lib)
    ensures bank[Mul(m.nbEBands, m.nbChannels)..] == old(bank[Mul(m.nbEBands, m.nbChannels)..])
  {
    var B, C := m.nbMdctBlocks, m.nbChannels;
    var N := m.nbEBands;
    var c := 0;
    while c < C
      invariant 0 <= c <= C
      invariant EnergiesStored(m, X[..], bank[..], lib, 0, c)
      invariant bank[Mul(N, C)..] == old(bank[Mul(N, C)..])
    {
      var i := 0;
      while i < N
        invariant 0 <= i <= N
        invariant EnergiesStored(m, X[..], bank[..], lib, i, c)
        invariant bank[Mul(N, C)..] == old(bank[Mul(N, C)..])
      {
        BandInSpectrum(m, i);
        var sum := SumBand(X, BandStart(m, i), BandStart(m, i + 1), c, C);
        IdxRange(i, c, C, 0, N);
        ghost var before := bank[..];
        bank[Idx(i, c, C)] := EnerScaling * lib.sqrt(sum);
        StoreEnergy(m, X[..], before, bank[..], lib, i, c);
        i := i + 1;
      }
      c := c + 1;
    }
    StoredAreEnergies(m, X[..], bank[..], lib);
  }

  /** Storing the energy of (i, c) extends what has been stored. */
  lemma StoreEnergy(m: Mode, x: seq<real>, before: seq<real>, after: seq<real>, lib: Libm, i: int, c: int)
    requires ValidBands(m) && |x| >= SpectrumLength(m)
    requires 0 <= i < m.nbEBands && 0 <= c < m.nbChannels && 0 <= Idx(i, c, m.nbChannels) < |before|
    requires EnergiesStored(m, x, before, lib, i, c)
    requires after == before[Idx(i, c, m.nbChannels) := BandEnergy(m, x, i, c, lib)]
    ensures EnergiesStored(m, x, after, lib, i + 1, c)
  {
    IdxInjective(m.nbChannels);
  }
}
