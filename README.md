# CELT band layer, modelled in Dafny

This project models the band-processing layer of the CELT audio codec (`libcelt/bands.c`) and
proves properties of it. That layer works on one spectrum buffer of `B·C·eBands[nbEBands+1]`
samples. `B` is the number of MDCT blocks and `C` the number of channels. Energy band `i` covers
the bins `[B·eBands[i], B·eBands[i+1])`, and channel `c` of bin `j` is stored at `j·C + c`.

The routines are modelled as imperative Dafny methods over arrays, one module per part of the layer:

| module | file | routines |
|---|---|---|
| `Modes` | modes.dfy | the mode (`nbMdctBlocks`, `nbChannels`, `eBands`, `pBands`, `pitchEnd`), the interleaved layout, the scaling constants, the libm stand-in |
| `Padding` | padding.dfy | the clearing loop that ends most routines |
| `Rotation` | rotation.dfy | `exp_rotation` |
| `Energy` | energy.dfy | `compute_band_energies` |
| `Scaling` | scaling.dfy | `normalise_bands`, `denormalise_bands`, `renormalise_bands` |
| `Pitch` | pitch.dfy | `compute_pitch_gain`, `pitch_quant_bands` |
| `Residual` | residual.dfy | `quant_bands`, `unquant_bands` and their per-band mode decision |
| `ResidualFacts` | residual_facts.dfy | frame, padding, context and energy facts about the residual coder |
| `Lockstep` | lockstep.dfy | the encoder and the decoder stay in step |
| `Stereo` | stereo.dfy | `stereo_mix` |

Each method is proved against a specification function of the old array contents, e.g.
`X[..] == Rescaled(m, Normalise, old(freq[..]), old(X[..]), old(bank[..]), sqrt(C))`. Lemmas about
that function then state what the routine promises:
- which positions it writes and which it leaves alone;
- that the padding is zero;
- that gains are clamped and energies positive;
- that the rotation keeps the energy of a band, and that all its rounds can be undone by replaying them backwards;
- that the encoder and the decoder take the same decision for every band, and end up with the same
  spectrum, prediction and context when the decoder reads the codewords the encoder wrote and
  each encoder collaborator's reconstruction is determined by its codeword and the inputs both
  sides share.

Arithmetic is over `real`. `sqrt`, `cos` and `sin` are fields of a `Libm` value. The only facts
used about them are that `sqrt` is positive on positive numbers and that `cos² + sin² = 1`
(`Modes.ValidLibm`). The scaling macros `SIG_SCALING`, `NORM_SCALING`, `ENER_SCALING` and their
inverses are constants equal to 1, as in the floating-point build. They are still written into
every formula where the source uses them.

Products of layout quantities (`j·C`, `B·e`) are written with `Modes.Mul`, a linear recursion.
`Modes.MulIsProduct` proves it equal to `*`. `Padding.ProductForm` and `Residual.BandLayout` tie
the source's `B*C*e` expressions to it.

Where the written description of the codec and the code differ, the model follows the code:
- Layout: the code interleaves channels within bins (`j·C + c`, with `j` ranging over
  `[B·eBands[i], B·eBands[i+1])`). It does not lay out whole blocks per channel.
- Blend: in `quant_bands` and `unquant_bands`, `alpha` is assigned on both branches of the mode
  decision (libcelt/bands.c:253, 259, 312, 318). A value set for one band therefore never reaches the
  next band.

## Model

| member | source | states |
|---|---|---|
| Modes.IdxRange | libcelt/bands.c:85-86 | channel `c < C` of a bin in `[lo, hi)` is stored in `[lo·C, hi·C)` |
| Modes.IdxInjective | libcelt/bands.c:86 | distinct (bin, channel) pairs occupy distinct positions `j·C + c` |
| Modes.IdxCovers | libcelt/bands.c:111-112 | every position below `n·C` is channel `k % C` of a bin below `n` |
| Modes.BandInSpectrum | libcelt/bands.c:85 | the bins of energy band `i` of every channel lie inside the spectrum buffer |
| Padding.ZeroRange | libcelt/bands.c:111-112 | the clearing loop sets `[lo, hi)` to 0 and leaves every other position unchanged |
| Padding.PaddingBounds | libcelt/bands.c:111 | the padding bounds `B·C·eBands[nbEBands]` and `B·C·eBands[nbEBands+1]` are the end of the last band and the end of the spectrum |
| Rotation.RotateInPlace | libcelt/bands.c:55-59 | one elementary step reads `X[i]` and `X[i+stride]` before writing either; it writes the rotated pair inside the slice and nothing outside it |
| Rotation.ForwardPassInPlace | libcelt/bands.c:53-60 | the forward pass is the steps at `i = 0 .. len-stride-1` in ascending order; nothing outside the slice changes |
| Rotation.ReversePassInPlace | libcelt/bands.c:61-68 | the reverse pass is the steps at `i = len-2·stride-1 .. 0` in descending order; nothing outside the slice changes |
| Rotation.ExpRotation | libcelt/bands.c:45-70 | `iter` rounds of forward then reverse pass with `c = cos θ`, `s = dir·sin θ`, with every access inside `[off, off+len)` and the rest of X unchanged |
| Rotation.ApplyKeepsNorm | libcelt/bands.c:58-59 | with `c² + s² = 1` one step keeps `x1² + x2²` |
| Rotation.RotatePairEnergy | libcelt/bands.c:55-59 | with `c² + s² = 1` one step keeps the sum of squares of the slice |
| Rotation.UpEnergy | libcelt/bands.c:53-60 | any ascending run of steps keeps the sum of squares of the slice |
| Rotation.DownEnergy | libcelt/bands.c:61-68 | any descending run of steps keeps the sum of squares of the slice |
| Rotation.ExpRotatedEnergy | libcelt/bands.c:49-68 | with `c² + s² = 1` the whole spreading rotation keeps the sum of squares of the slice |
| Rotation.ApplyUndo | libcelt/bands.c:58-59 | on the unit circle the step with the opposite direction undoes the step |
| Rotation.RotatePairInverse | libcelt/bands.c:55-59 | the opposite step at the same position restores the slice |
| Rotation.UpInverse | libcelt/bands.c:53-60 | ascending steps are undone by the same positions in descending order with the opposite direction |
| Rotation.DownInverse | libcelt/bands.c:61-68 | descending steps are undone by the same positions in ascending order with the opposite direction |
| Rotation.RoundInverse | libcelt/bands.c:51-68 | one round is undone by replaying its steps in reverse order with the opposite direction |
| Rotation.ExpRotatedInverse | libcelt/bands.c:49-68 | the whole spreading rotation, all `iter` rounds, is undone by replaying the rounds backwards, the last first, each with the opposite direction |
| Energy.SqSumNonNegative | libcelt/bands.c:85-86 | the accumulated sum of squares is never negative |
| Energy.SumBand | libcelt/bands.c:84-86 | the inner loop returns `1e-10` plus the sum of squares of channel `c` over the band's bins, and writes nothing |
| Energy.BandEnergyPositive | libcelt/bands.c:84-87 | the accumulator is at least `1e-10`, so the stored energy is strictly positive |
| Energy.StoreEnergy | libcelt/bands.c:87 | storing at `i·C + c` extends the energies already stored and disturbs none of them |
| Energy.StoredAreEnergies | libcelt/bands.c:79-90 | once every band and channel is stored, `bank[..nbEBands·C]` is the energy array of the spectrum |
| Energy.BandEnergiesPositive | libcelt/bands.c:79-87 | every entry of the energy array is strictly positive |
| Energy.ComputeBandEnergies | libcelt/bands.c:73-92 | `bank[i·C + c]` is the energy of band `i`, channel `c` for every band and channel; `bank` beyond `nbEBands·C` is unchanged; X is not written |
| Scaling.InBandIdx | libcelt/bands.c:106-108 | a bin of band `i` and the band's energy `i·C + c` are inside the spectrum and the energy array |
| Scaling.OtherBand | libcelt/bands.c:103-107 | a bin lies in at most one energy band |
| Scaling.ScaleBand | libcelt/bands.c:107-108 | the band loop writes `a·src·g` to every C-th position of one channel of the band, reading each source position just before it is written, so src may be dst |
| Scaling.FillAllAt | libcelt/bands.c:101-110 | after channels `[0, n)`, bin `j` of band `i`, channel `c` holds `a·src·g` of that band and channel if `c < n` and its old value otherwise |
| Scaling.FillAllOutside | libcelt/bands.c:101-110 | positions below the first band and from the end of the last band on are not written by the band loops |
| Scaling.BandUnwritten | libcelt/bands.c:121 | when source and destination are one array, the band about to be written still holds the source's values |
| Scaling.GainAt | libcelt/bands.c:106 | the gain of band `i`, channel `c` is computed from `bank[i·C + c]` |
| Scaling.ScaleBandOf | libcelt/bands.c:105-108 | one band of one channel filled after the earlier bands of that channel |
| Scaling.ScaleChannel | libcelt/bands.c:103-109 | all bands of channel `c` filled in increasing order; the energies are not written |
| Scaling.ScaleBands | libcelt/bands.c:101-110 | every band of every channel filled from the source with its gain; src may be dst |
| Scaling.NormaliseBands | libcelt/bands.c:95-113 | X becomes the bands of freq divided by their energies, then the padding is cleared; freq may be X |
| Scaling.DenormaliseBands | libcelt/bands.c:125-143 | freq becomes the bands of X multiplied by their energies, then the padding is cleared |
| Scaling.RenormaliseBands | libcelt/bands.c:115-122 | X becomes X normalised in place by the energies compute_band_energies computes from X |
| Scaling.NormalisedBand | libcelt/bands.c:106-108 | bin `j` of band `i`, channel `c` of X is `freq / (1e-10 + bank[i·C + c]·sqrt(C))`, with a positive denominator |
| Scaling.DenormalisedBand | libcelt/bands.c:136-138 | bin `j` of band `i`, channel `c` of freq is `X · sqrt(C)·bank[i·C + c]` |
| Scaling.RescaledPadding | libcelt/bands.c:111-112 | after normalise_bands or denormalise_bands every position of `[B·C·eBands[nbEBands], B·C·eBands[nbEBands+1])` is 0 |
| Scaling.RescaledOutside | libcelt/bands.c:95-113 | positions below the first band and beyond the spectrum keep the destination's value |
| Scaling.PositionInBand | libcelt/bands.c:101-112 | every position from the first band to the padding is a bin of some band and channel, so the lemmas above fix the whole output |
| Scaling.DenormaliseNormalise | libcelt/bands.c:95-143 | denormalising a normalised spectrum with the same energies gives each sample times `e / (1e-10 + e)`, a factor in `[0, 1)`: the round trip is not exact |
| Pitch.PitchBandInside | libcelt/bands.c:169 | with the pitch bands inside the coded energy bands, pitch band `i` lies inside the weight array and the spectrum |
| Pitch.PitchPaddingInside | libcelt/bands.c:190-191 | the pitch padding lies inside the spectrum |
| Pitch.WeightsInBand | libcelt/bands.c:155-160 | every position of energy band `i` has weight `bank[i]·ENER_SCALING_1` |
| Pitch.WeightsNonNegative | libcelt/bands.c:159 | weights of non-negative energies are non-negative |
| Pitch.FillRange | libcelt/bands.c:158-159 | the inner weight loop sets `w[j] = v` on `[lo, hi)` and nothing else |
| Pitch.FillWeights | libcelt/bands.c:155-160 | the weight array agrees with the energy of its band on every coded position |
| Pitch.PitchBandWeighted | libcelt/bands.c:169-172 | every read of w in pitch band `i` is in bounds and sees a non-negative weight |
| Pitch.SelfCorrelationNonNegative | libcelt/bands.c:172 | with non-negative weights `Sxx >= 0`, so the gain's denominator is positive |
| Pitch.CorrelationSymmetric | libcelt/bands.c:171-172 | the weighted correlation is symmetric in its two signals |
| Pitch.Correlate | libcelt/bands.c:169-173 | the correlation loop returns `Sxy` and `Sxx` over the pitch band, writing nothing |
| Pitch.PitchGain | libcelt/bands.c:174-180 | the clamped and scaled gain lies in `[0, 0.9]` |
| Pitch.PitchGainZero | libcelt/bands.c:174-180 | the gain is 0 exactly when `Sxy <= 0` |
| Pitch.PitchGainFull | libcelt/bands.c:174-180 | the gain is 0.9 exactly when `Sxy` is at least `1e-10·NORM_SCALING² + Sxx` |
| Pitch.SelfPredictionGain | libcelt/bands.c:174-180 | when `Sxy = Sxx` the gain is `0.9·Sxx / (1e-10 + Sxx)`, strictly below 0.9 |
| Pitch.ClampGain | libcelt/bands.c:174-180 | the in-place clamping computes the clamped and scaled gain |
| Pitch.BandGain | libcelt/bands.c:163-181 | the gain of every pitch band lies in `[0, 0.9]` |
| Pitch.SelfPredictionBelowCeiling | libcelt/bands.c:163-181 | when P is X every pitch gain is below 0.9 |
| Pitch.GainsLoop | libcelt/bands.c:163-183 | `gains[i]` is the band gain for every pitch band; gains beyond `nbPBands` are unchanged |
| Pitch.ComputePitchGain | libcelt/bands.c:147-192 | `gains[i]` is the gain of pitch band `i`, the rest of gains is unchanged, and P is cleared on `[B·pBands[nbPBands], B·pBands[nbPBands+1])` and unchanged elsewhere |
| Pitch.ScaleRange | libcelt/bands.c:203-204 | the inner loop multiplies `P[j]` by the gain on `[lo, hi)` and leaves the rest |
| Pitch.PitchScaledIn | libcelt/bands.c:200-206 | after the first `n` bands, each position of pitch band `i < n` holds `P[j]·gains[i]` |
| Pitch.PitchScaledOut | libcelt/bands.c:200-206 | positions outside the first `n` pitch bands are untouched |
| Pitch.PitchQuantisedAt | libcelt/bands.c:200-208 | after pitch_quant_bands each position `j` of pitch band `i` holds the old `P[j]·gains[i]` |
| Pitch.PitchQuantisedPadding | libcelt/bands.c:207-208 | after pitch_quant_bands the pitch padding `[B·pBands[nbPBands], B·pBands[nbPBands+1])` holds 0 |
| Pitch.PitchQuantisedOutside | libcelt/bands.c:200-208 | positions before the first pitch band and after the pitch padding are unchanged |
| Pitch.PitchQuantisedShrinks | libcelt/bands.c:203-204 | with gains in `[0, 0.9]` no sample of a pitch band grows: its square shrinks to at most 0.81 of what it was |
| Pitch.PitchQuantBands | libcelt/bands.c:195-209 | P becomes each pitch band scaled by its gain with the pitch padding cleared; X and gains are not written |
| Residual.Decide | libcelt/bands.c:250-260 | a band goes intra iff `eBands[i] >= pitchEnd` or `pulses <= 0`; then `q = pulses - 1` and `alpha = 0`, otherwise `q = pulses` and `alpha = 0.7`; the folding predictor runs iff `pulses <= 0`; the rotations and the quantiser run iff a pulse is left |
| Residual.Allocation | libcelt/bands.c:228-232 | the pulse count of every band is the allocator's answer for `bits = total_bits − tell − 1` and that band |
| Residual.ComputeAllocation | libcelt/bands.c:232 | `pulses[..nbEBands]` holds the allocation |
| Residual.WriteSlice | libcelt/bands.c:255 | a collaborator writes its band slice of the array and nothing else |
| Residual.BandSpan | libcelt/bands.c:255 | band `i`, at `[B·eBands[i], B·eBands[i+1])` with `B = nbMdctBlocks·nbChannels`, lies inside the coded part of the spectrum |
| Residual.WidthForm | libcelt/bands.c:246-247 | `B·(eBands[i+1] − eBands[i])` is the width of band `i`, and `B >= 1` |
| Residual.BandLayout | libcelt/bands.c:246-255 | the band positions and width the loop computes are the band's bounds inside the spectrum |
| Residual.IntraPart | libcelt/bands.c:254-257 | the intra branch calls the folding predictor when `q < 0` and intra_prediction (encoder) or intra_unquant (decoder, handed the band's codeword) otherwise, with the whole context buffer; X and P change only in the band, to the collaborator's outputs |
| Residual.RotateDown | libcelt/bands.c:264-265 | P, and in the encoder X, are rotated by `(theta, −1)` over the band; nothing else changes |
| Residual.RotateUp | libcelt/bands.c:267 | the quantiser's reconstruction is rotated back by `(theta, +1)` in the band of X |
| Residual.VqPart | libcelt/bands.c:262-268 | the pulse branch: P, and in the encoder X, rotated by `(theta, −1)`; the quantiser's X and P outputs written into the band; X rotated back by `(theta, +1)`; nothing outside the band changes |
| Residual.NormBand | libcelt/bands.c:269-270 | the context loop sets `norm[j] = X[j]·n` on the band and leaves the rest of norm |
| Residual.IntraBranch | libcelt/bands.c:250-260 | the mode decision returns the decision's `q` and `alpha` and runs the intra stage of the decision |
| Residual.BandStepIs | libcelt/bands.c:241-270 | the stages with the loop's `theta = 0.007·width / (0.1 + pulses)` (pulses before the decrement) and `n = 0.0625·sqrt(width)` make up one band step |
| Residual.CodeBand | libcelt/bands.c:241-270 | one iteration of the band loop is one band step; the blend it leaves is the decision's, whatever the previous band left |
| Residual.BandsNext | libcelt/bands.c:239-271 | a band step after the first `i` bands is the first `i + 1` bands |
| Residual.NextBand | libcelt/bands.c:239-271 | the loop body takes the buffers from the first `i` bands coded to the first `i + 1` |
| Residual.BandLoop | libcelt/bands.c:239-271 | the band loop codes every band in increasing order |
| Residual.CodeBands | libcelt/bands.c:213-274 | X and P end as the coded spectrum and prediction for the allocation, from a zero context |
| Residual.QuantBands | libcelt/bands.c:213-274 | quant_bands leaves in X and P the encoder's coded spectrum and prediction |
| Residual.UnquantBands | libcelt/bands.c:277-332 | unquant_bands leaves in X and P the decoder's coded spectrum and prediction |
| ResidualFacts.IntraStageFrame | libcelt/bands.c:254-257 | the intra stage writes X and P only inside the band and does not write the context |
| ResidualFacts.VqStageFrame | libcelt/bands.c:262-268 | the pulse stage writes X and P only inside the band and does not write the context |
| ResidualFacts.BandStepFrame | libcelt/bands.c:241-270 | band `i` changes X, P and norm only inside the band, and leaves there `norm = X·0.0625·sqrt(width)` |
| ResidualFacts.StepWiden | libcelt/bands.c:239-271 | coding band `i` widens the changed region from the start of band 0 to the end of band `i` |
| ResidualFacts.BandsFrame | libcelt/bands.c:239-271 | bands are coded in ascending order: after `n` bands only `[start of band 0, end of band n-1)` has changed |
| ResidualFacts.StepKeepsContext | libcelt/bands.c:269-270 | coding band `i` keeps the context of every band that ends before band `i` starts |
| ResidualFacts.BandsContext | libcelt/bands.c:239-271 | after `n` bands the context of each coded band `k < n` is X of that band scaled by its `n`; later bands do not overwrite it |
| ResidualFacts.ClearedAgree | libcelt/bands.c:272-273 | clearing the padding extends the changed region to the end of the spectrum and no further |
| ResidualFacts.ClearedContext | libcelt/bands.c:272-273 | clearing the padding keeps the context of the coded bands |
| ResidualFacts.CodedForm | libcelt/bands.c:213-274 | the routine is the band loop with the allocation from a zero context, followed by clearing the padding of X |
| ResidualFacts.ResidualPadding | libcelt/bands.c:272-273 | after quant_bands or unquant_bands X is 0 on `[B·eBands[nbEBands], B·eBands[nbEBands+1])` with `B = nbMdctBlocks·nbChannels` |
| ResidualFacts.ResidualFrame | libcelt/bands.c:213-274 | X changes only from the start of band 0, and P only between the start of band 0 and the end of the last band: its padding is not cleared |
| ResidualFacts.ResidualContext | libcelt/bands.c:213-274 | at the end the context of every band is the coded band of X scaled by `0.0625·sqrt(width)` |
| ResidualFacts.TurnOnCircle | libcelt/bands.c:49-50 | `c = cos θ` and `s = ±sin θ` lie on the unit circle |
| ResidualFacts.VqStageEnergy | libcelt/bands.c:262-268 | the rotations keep the energy of the bands handed to the quantiser, the band of P ends as the quantiser's P output, and the band of X ends with the energy of the quantiser's reconstruction |
| Lockstep.IntraInStep | libcelt/bands.c:250-257 | with collaborators in step and the intra codeword delivered to the decoder, the intra stages of encoder and decoder leave the same P and context, and the same band of X when they run |
| Lockstep.VqInStep | libcelt/bands.c:262-268 | with the quantiser's codeword delivered, the pulse stages of encoder and decoder leave the same P and context and the same band of X when `q > 0`, and change nothing when `q <= 0` |
| Lockstep.BandStepInStep | libcelt/bands.c:241-270 | one band coded and decoded from matched buffers, with the band's codewords delivered, leaves matched buffers with the same band of X |
| Lockstep.StepInStep | libcelt/bands.c:298-329 | when band `i`'s codewords are delivered, agreement on X from the start of band 0 up to band `i` extends to the end of band `i` |
| Lockstep.WrittenTransmitted | libcelt/bands.c:255-266 | a decoder whose range decoder yields, for each band and stage, the codeword the encoder's call wrote there receives every codeword of the first `n` bands |
| Lockstep.BandsInStep | libcelt/bands.c:298-329 | with the codewords of the first `n` bands delivered, after `n` bands encoder and decoder hold the same P and context, and the same X up to the end of band `n-1` |
| Lockstep.SameAllocation | libcelt/bands.c:292-296 | allocators in step give encoder and decoder the same pulses |
| Lockstep.ClearedSame | libcelt/bands.c:330-331 | clearing the same padding on both sides keeps them in step up to the end of the spectrum |
| Lockstep.EncoderDecoderInStep | libcelt/bands.c:277-332 | quant_bands and unquant_bands, with the same prediction, collaborators in step and every codeword of the frame delivered, end with the same P, the same context, and the same X from the start of band 0 to the end of the spectrum, whatever X held before decoding |
| Lockstep.RoundingInStep | libcelt/bands.c:255-266 | a concrete pair of collaborators is in step: the encoder writes the band of X rounded down and reconstructs that rounding, the decoder reconstructs X from the codeword it reads |
| Lockstep.RoundingCodecInStep | libcelt/bands.c:213-332 | with that pair, and the decoder reading the stream the encoder wrote, quant_bands and unquant_bands end with the same P, context and X from band 0 on, so the premises of the encoder–decoder lemmas can all be met |
| Stereo.Floored | libcelt/bands.c:347 | `0.01 + left² + right²` is positive |
| Stereo.PairEnergy | libcelt/bands.c:354-355 | a mix scales `l² + r²` of a pair by `a1² + a2²` |
| Stereo.PairRoundTrip | libcelt/bands.c:354-355 | unmixing a mixed pair gives the pair times `a1² + a2²` |
| Stereo.WeightsOpposite | libcelt/bands.c:347-348 | the weights of `dir = −1` are the unmixing weights of `dir = +1` |
| Stereo.PairGainBelowOne | libcelt/bands.c:347-348 | `(a1² + a2²)·(0.01 + left² + right²) = left² + right²`, so `a1² + a2²` lies in `[0, 1)` |
| Stereo.MixPair | libcelt/bands.c:352-355 | both samples of the pair are read before either is written; the pair becomes `(a1·l + a2·r, a1·r − a2·l)` and nothing else changes |
| Stereo.MixBand | libcelt/bands.c:349-356 | the inner loop mixes channels 0 and 1 of every bin of the band |
| Stereo.MixBinsHit | libcelt/bands.c:349-356 | after the inner loop channel 0 or 1 of a bin of the band holds its mix |
| Stereo.MixBinsMiss | libcelt/bands.c:349-356 | the inner loop leaves the other bins and the channels from 2 on alone |
| Stereo.StereoLayout | libcelt/bands.c:345-349 | the energies read at `i·C` and `i·C + 1` and the bins of band `i` lie inside their buffers |
| Stereo.MixStepIs | libcelt/bands.c:343-356 | the band mixed with the weights the loop computes is the next step of the band loop |
| Stereo.MixBandOf | libcelt/bands.c:340-357 | one pass of the band loop mixes band `i` after bands `[0, i)` |
| Stereo.StereoMix | libcelt/bands.c:334-361 | X becomes every coded band mixed with its weights, then the padding cleared |
| Stereo.MixBandsHit | libcelt/bands.c:340-357 | after bands `[0, n)`, channel 0 or 1 of a bin of band `i < n` holds its mix with band `i`'s weights |
| Stereo.MixBandsMiss | libcelt/bands.c:340-357 | the band loop leaves the channels from 2 on, the bins below band 0 and the bins of later bands alone |
| Stereo.MixedInBand | libcelt/bands.c:340-359 | after stereo_mix each in-band pair holds its mix with the weights of its band |
| Stereo.MixedElsewhere | libcelt/bands.c:340-359 | after stereo_mix the padding `[B·C·eBands[nbEBands], B·C·eBands[nbEBands+1])` is 0 and every other out-of-band position is unchanged |
| Stereo.MixedPairEnergy | libcelt/bands.c:345-356 | stereo_mix scales `l² + r²` of every pair of band `i` by `a1² + a2²` of that band |
| Stereo.MixUnmix | libcelt/bands.c:345-356 | stereo_mix with `dir = +1` then `dir = −1` on the same energies multiplies both channels of every in-band bin by `a1² + a2²`, which is below 1, so the round trip is not the identity |

## Left out

- `alg_quant`, `alg_unquant`, `intra_fold`, `intra_prediction` and `intra_unquant` are defined elsewhere. They are oracle functions in `Residual.Coder`, keyed by the stage and the band index (which stands for the mode constants `B`, `eBands[i]` and `eBands[nbEBands+1]` that intra_fold is also handed). Each is handed the band slices of X, W (encoder) and P; the intra collaborators also get the whole `norm` buffer. Each returns new band slices of X and P of the same length (`Residual.WellFormed`), which `WriteSlice` writes back, so alg_quant and alg_unquant may change P as the source allows. `norm` is handed by value: the model does not let a collaborator write it, and the source's collaborators only read it.
- `compute_allocation` is the oracle `Coder.allocation`. With all offsets 0 it depends only on the bit budget and the band.
- `ec_enc_tell` and `ec_dec_tell`: the number of bits already used is the parameter `tell`.
- The range coder: the bit-stream is one codeword per band and stage. An encoder collaborator writes `Coder.code(call)`. A decoder collaborator is handed `Coder.read(band, stage)`. The sequential state of the range coder, through which a codeword's bits depend on everything written before it, is not modelled.
- Lockstep.EncoderDecoderInStep: holds, like the lemmas it rests on, under `Lockstep.InStep` (each encoder collaborator's reconstruction is determined by the codeword it writes and the inputs both sides share) and `Lockstep.Streamed` (the decoder reads what the encoder wrote). Both are properties of the collaborators and of the range coder, which are defined elsewhere; `Lockstep.WrittenTransmitted` shows the second holds for a decoder reading the encoder's output, and `Lockstep.RoundingCodecInStep` meets both with a concrete pair of collaborators.
- Residual.QuantBands: requires W to be a different array from X and P. The callers pass separate buffers, and the model does not cover a W that aliases them.
- The uninitialised `norm` buffer of quant_bands and unquant_bands starts as zeros in the model.
- Floating-point and fixed-point arithmetic, rounding, and the fixed-point values of the scaling macros: arithmetic is exact over `real`, and the macros are the float build's 1.
- `sqrt`, `cos`, `sin`: abstract total functions, with only the facts in `Modes.ValidLibm`.
- Pitch.ComputePitchGain: requires non-negative energies, as compute_band_energies produces them. With a negative energy the weighted `Sxx` can cancel the `1e-10` floor and make the division undefined, which is not modelled.
- Scaling.NormaliseBands: requires non-negative energies for the same reason. With a negative energy `1e-10 + bank·sqrt(C)` can be zero.
- Stereo.StereoMix: requires at least two channels and energies at `i·C` and `i·C + 1` for every band, as the source reads them.
- `renormalise_bands` is modelled only as the composition of the two calls it makes; no intended behaviour is specified.
- The `VARDECL`/`ALLOC` stack allocation is modelled as fresh arrays, and the commented-out `printf` debugging is left out.
- The spreading rotation with `dir = +1` applied after `dir = −1` is not the exact inverse of it, because both apply the forward pass first. The model proves that replaying the steps in the opposite order undoes a round (`Rotation.RoundInverse`) and all `iter` rounds (`Rotation.ExpRotatedInverse`), and makes no claim about the codec's intended pairing.
