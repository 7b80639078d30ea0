# acoustique — a verified model of the acoustic-level core

The `acoustique` tool estimates the sound pressure level a set of sound
sources produces at a receiver in a room. The core does the following:

- It builds a source's power spectrum, which maps band centre frequencies to
  levels in dB. The band layout is an octave layout, a third-octave layout or
  a single value.
- It converts a spectrum from dB to dBA with the A-weighting table.
- It combines two sources band by band with a logarithmic (energy) sum.
- It computes, at a receiver, three spectra:
  - the direct field: free-field attenuation over the distance, plus the
    directivity gain;
  - the indirect field: the reverberant room term, from the room surface and
    each band's absorption coefficient;
  - the total: the two fields added and floored at 0.

The model has six modules:

| module | file | what it holds |
|---|---|---|
| `Errors` | `errors.dfy` | the exceptions the core raises and the `Result`/`Option` types that carry them |
| `KeyUtils` | `keyutils.dfy` | `common_keys` (a sorted key intersection) and `convert_freq` (restriction of a spectrum to a key list) |
| `Tables` | `tables.dfy` | the A-weighting offsets and the 30-band third-octave registry |
| `Levels` | `levels.dfy` | `distance`, `surface`, `niveau_global`, and Python's `int()` |
| `Sources` | `sources.dfy` | the band layouts, the A-weighting of a spectrum, the band-by-band sum, and the class `Source` |
| `Measures` | `measures.dfy` | the direct, indirect and total spectra as values, and the class `Mesure` |

How the model is built:

- **Logarithm and power of ten.** The base-10 logarithm and `10 ** x` are the
  two fields of a `Math` value that every caller passes in. A lemma that needs
  one of their laws names it in its `requires`, and a function whose contract
  needs some (`Levels.NiveauGlobal`) names them as the premise of that
  `ensures`: `Pow10Positive`, `Log10InvertsPow10`, `Log10OfProduct` or
  `Log10Increasing`.
- **Exceptions.** Each exception the code raises is an `Err` value:
  - `ValueError` from `list.index`;
  - `NotImplementedError` for an unknown layout string;
  - `KeyError` for a missing band;
  - `ZeroDivisionError`, which also stands for Decimal's `DivisionByZero`;
  - `MathDomainError`, standing for the `ValueError` that `math.log` raises on
    a non-positive argument.
- **Map order.** Python iterates a dict in insertion order. The model's loops
  take the bands in any order. Where a failure halfway through a loop leaves a
  partly rewritten spectrum, the contracts say what holds whatever the order
  was.

Three behaviours of the code a reader may not expect:

- `niveau_global_spectral` fails with `KeyError` only when `self` has a band
  that the other source lacks. It ignores the other source's extra bands. It
  does not check that the two key sets are equal.
- `niveau_pression_totale` computes two `convert_freq` restrictions and
  discards both. The total therefore takes the direct spectrum's bands and
  raises `KeyError` when the indirect spectrum lacks one of them. This is what
  happens after `niveau_pression_indirect` has dropped the bands that have no
  absorption coefficient (`Measures.TotalAfterDirectAndIndirect`).
- The total is the plain arithmetic sum of the two levels, floored at 0.

## Model

| member | source | states |
|---|---|---|
| `Tables.ThirdOctaveBandsAscending` | source.py:45-76 | the registry has 30 bands in strictly ascending order |
| `Tables.ThirdOctaveBandsWeighted` | source.py:6-76 | every registry band has an A-weighting offset; the A-weighting table holds exactly the registry bands plus 0.3, 8, 10, 12.5, 16 and 20 Hz |
| `KeyUtils.Sorted` | source.py:220 | `sorted` of a key set is strictly ascending and holds exactly the set's keys |
| `KeyUtils.AscendingUnique` | source.py:220 | two strictly ascending lists with the same elements are equal, so a sorted key list is determined by its key set |
| `KeyUtils.CommonKeys` | source.py:218-220 | `common_keys` is strictly ascending (no duplicates) and holds exactly the keys found in both maps |
| `KeyUtils.CommonKeysSymmetric` | source.py:218-220 | `common_keys(d1, d2) == common_keys(d2, d1)` |
| `KeyUtils.ConvertFreq` | source.py:211-215 | the result holds exactly the entries of `dict1` whose key is allowed, with their values unchanged |
| `KeyUtils.ConvertFreqIdempotent` | source.py:211-215 | restricting twice to the same keys equals restricting once |
| `KeyUtils.AlignedKeys` | source.py:211-220 | restricting either map to the common keys leaves exactly the shared frequencies |
| `Levels.TruncateTowardZero` | source.py:113 | `int(x)` truncates toward zero: for `x >= 0` it is the largest integer `<= x`, for `x < 0` the smallest integer `>= x` |
| `Levels.SquareIsProduct` | source.py:194 | the square used for `r ** 2` equals `r * r` |
| `Levels.SpherePositive` | source.py:194 | for `r != 0` the area `4·π·r²` and its reciprocal are positive, so the logarithm is defined |
| `Levels.Distance` | source.py:190-195 | `distance` fails iff `r = 0`, with `ZeroDivisionError`; otherwise it returns `l_w` plus the free-field term `10·log10(1/(4·π·r²))` |
| `Levels.DistanceDecreasing` | source.py:190-195 | for `0 < r1 < r2` the level at `r2` is strictly below the level at `r1` |
| `Levels.Surface` | source.py:198-200 | the room surface is non-negative for non-negative sides and positive for positive sides |
| `Levels.SurfaceSymmetric` | source.py:198-200 | swapping the first two sides, or the last two, leaves the surface unchanged, so every order of the three sides gives the same surface |
| `Levels.SurfaceOfRoom` | source.py:198-200 | a room has 52 m² of surface in the orders 3 × 2 × 4 and 2 × 4 × 3 |
| `Levels.NiveauGlobalCommutative` | source.py:203-208 | the logarithmic sum does not depend on the order of its two levels |
| `Levels.NiveauGlobalDoubling` | source.py:203-208 | two equal levels sum to that level plus `10·log10(2)` |
| `Levels.NiveauGlobal` | source.py:203-208 | `niveau_global(l1, l2)`: given that powers of ten are positive, `log10` inverts them and `log10` is increasing, the logarithmic sum is strictly above each of its two levels |
| `Levels.NiveauGlobalAtMostDoubling` | source.py:203-208 | the logarithmic sum is at most `10·log10(2)` (about 3 dB) above the louder of its two levels |
| `Sources.Pow2Increasing` | source.py:94 | `2 ** i < 2 ** j` for `i < j` |
| `Sources.OctaveLayout` | source.py:93-94 | the octave layout holds exactly the keys `start·2^i` for `0 <= i < nb`, each at level 0 |
| `Sources.OctaveBandsDistinct` | source.py:94 | above a positive start frequency the octave bands strictly increase with `i` |
| `Sources.OctaveBandCount` | source.py:93-94 | with a positive start frequency the octave layout has exactly `max(nb, 0)` bands |
| `Sources.IndexOf` | source.py:96 | `list.index` returns the first position holding the value |
| `Sources.Slice` | source.py:97 | Python slicing `s[i : i + nb]`: for `nb >= 0` it gives `min(nb, len − i)` elements from `i`; a negative stop counts from the end; the slice keeps strict ascent |
| `Sources.BandsFrom` | source.py:95-97 | fails with `ValueError` iff `start` is not in the list; otherwise it gives the list's elements from `start` onward, `min(nb, len − index)` of them, with overruns cut silently; the first element is `start` |
| `Sources.ThirdOctaveLayoutAscending` | source.py:95-98 | a third-octave layout is strictly ascending and has at most 30 bands |
| `Sources.Silent` | source.py:98 | the spectrum holds exactly the given bands, all at level 0 |
| `Sources.InitialPowers` | source.py:93-102 | octave layout for "Bandes d'octave"; the silent third-octave bands, or `ValueError`, for "Bandes de tiers d'octave"; an empty map for "Valeur unique"; `NotImplementedError` for any other string |
| `Sources.Ponderation` | source.py:107-111 | `ponderation_A` holds exactly the A-weighting offsets of the bands the spectrum shares with the table |
| `Sources.Weighted` | source.py:106-114 | A-weighting keeps the key set, sets every band with an offset to `int(level) + offset`, and leaves every other band untouched |
| `Sources.ConvertedUnit` | source.py:104-115 | the effect of `convert_unit`: the resulting unit is never "dB" and the bands are kept; a "dB" source becomes "dBA", any other unit leaves unit and spectrum as they were |
| `Sources.ConvertUnitIdempotent` | source.py:104-115 | converting a second time changes nothing |
| `Sources.ThirdOctaveWeighted` | source.py:95-115 | a fresh third-octave source, once converted, holds exactly the A-weighting offsets of its bands |
| `Sources.SpectralSum` | source.py:120-127 | the band-by-band sum succeeds iff every band of `self` is in the other spectrum, and otherwise fails with `KeyError`; the result has exactly `self`'s bands |
| `Sources.SpectralSumSymmetric` | source.py:120-127 | on two spectra with the same bands the sum is symmetric |
| `Sources.SpectralSumIgnoresExtra` | source.py:120-127 | extra bands of the other spectrum do not matter: summing with its restriction to the common keys gives the same result |
| `Sources.SpectralSumExceedsEach` | source.py:120-127 | every summed band is strictly louder than both bands it sums |
| `Sources.Source.constructor` | source.py:90-92 | a source holds the unit and spectrum it is given |
| `Sources.Source.Create` | source.py:82-102 | `Source(unit, nb, spec, start)` gives a fresh source with that unit and the layout `InitialPowers` describes, or the same exception |
| `Sources.Source.ConvertUnit` | source.py:104-115 | a "dB" source becomes a "dBA" source with the `Weighted` spectrum; any other unit leaves the source unchanged |
| `Sources.Source.WeightBands` | source.py:107-114 | the loop of `convert_unit` leaves the spectrum equal to `Weighted` of the old one: every band with an A-weighting offset becomes `int(level) + offset`, the others are untouched |
| `Sources.Source.NiveauGlobalSpectral` | source.py:120-127 | returns a fresh source with this source's unit and the `SpectralSum` spectrum, or `KeyError` exactly when that sum fails; this source is not modified |
| `Measures.Log10OfOne` | source.py:154 | with the product law, `log10(1) = 0`, so the default directivity adds nothing |
| `Measures.DirectLevel` | source.py:149-155 | the direct field succeeds iff the spectrum is empty or (`r != 0` and `q > 0`); the error is `ZeroDivisionError` for `r = 0`, else the log domain error; it keeps the key set and adds the free-field term plus `10·log10(q)` to every band |
| `Measures.DirectLevelUniformShift` | source.py:149-155 | every band is shifted by the same offset |
| `Measures.DirectLevelOmnidirectional` | source.py:149-155 | with `q = 1` each band is just its `distance` attenuation |
| `Measures.DirectLevelDecreasing` | source.py:149-155 | moving the receiver farther lowers every band |
| `Measures.RoomTerm` | source.py:162-168 | the room term succeeds iff `a != 1`, `S·a != 0` and `S·a/(1 − a) > 0`; `ZeroDivisionError` when `a = 1` or `S·a = 0`, the log domain error otherwise |
| `Measures.RoomTermDefined` | source.py:162-168 | a room with positive surface and absorption strictly between 0 and 1 always has a room term |
| `Measures.AbsorptionRatioIncreasing` | source.py:165-167 | `S·a/(1 − a)` strictly grows with `a` on `(0, 1)` |
| `Measures.RoomTermDecreasing` | source.py:162-168 | more absorptive walls give a strictly lower room term |
| `Measures.IndirectLevel` | source.py:157-171 | the indirect field exists iff every band shared with `materiau` has a room term; it then holds exactly the shared bands, each raised by its room term |
| `Measures.IndirectLevelFails` | source.py:161-170 | one band whose room term raises makes the indirect field fail |
| `Measures.Floored` | source.py:184-186 | `max(x, 0)`: non-negative, at least `x`, and equal to `x` or 0 |
| `Measures.TotalLevel` | source.py:173-187 | the total succeeds iff every direct band is an indirect band, and otherwise fails with `KeyError`; it has exactly the direct bands; each value is `max(direct + indirect, 0)` (non-negative, at least the sum, and equal to the sum or 0) |
| `Measures.TotalAfterDirectAndIndirect` | source.py:137-187 | after a successful direct and indirect computation from one spectrum, the total exists iff every band of the source has an absorption coefficient |
| `Measures.Mesure.constructor` | source.py:137-147 | both spectra start as copies of the source's spectrum; the total and `materiau` start empty; distance 0, directivity 1, room sides 0 |
| `Measures.Mesure.NiveauPressionDirect` | source.py:149-155 | returns `DirectLevel` of the old direct spectrum and stores it; on an exception the direct spectrum is unchanged |
| `Measures.Mesure.NiveauPressionIndirect` | source.py:157-171 | the indirect spectrum is always restricted to the bands shared with `materiau`; it succeeds iff `IndirectLevel` exists and then stores it; on an exception the error is some band's room-term error and each band is either unchanged or raised by its room term |
| `Measures.Mesure.RaiseByRoomTerm` | source.py:161-170 | the loop raises each band by its room term; it fails with some band's error and leaves each band either unchanged or raised |
| `Measures.Mesure.NiveauPressionTotale` | source.py:173-187 | returns `TotalLevel(direct, indirect)` and stores it; on `KeyError` the total has the direct bands, each either the direct level or the direct-plus-indirect sum; the direct and indirect spectra are not modified |

## Left out

- `gui.py` is not part of this model. It holds PyQt widgets, screen sequencing and text-field parsing.
- The `__main__` driver (source.py:228-297) is not part of this model. It is an example script, and it calls `Source` with arguments that do not match the constructor.
- `convert_puissance` (source.py:129-131) is an empty stub. `__str__` (source.py:117-118) only formats the spectrum as a string.
- Numeric precision is not modelled. Levels are exact reals. The Decimal and float round trips in `distance` and `niveau_global` are not modelled, and neither are float rounding, overflow, underflow or `int()` of an infinity.
- `math.log(x, 10)` is modelled as the exact base-10 logarithm.
- `log10` and `10 ** x` are parameters, not computed functions. Only the laws a lemma names in its `requires` are assumed, and no concrete value such as 60 dB ⊕ 60 dB ≈ 63.01 dB is proved.
- `Levels.Distance` assumes Decimal's default context, where division by zero raises.
- `Sources.Source.ConvertUnit` models the unit as a string. Python's `None` behaves like any other string that is not "dB": nothing changes.
- The `type` attribute (source.py:91) is never read, so it is not modelled.
- Dict insertion order and aliasing are not modelled. `niveau_pression_*` returns the same dict object it stores; the model returns an equal map. The ordering of `puissances` keys is not modelled.
- `Sources.Source.Create` leaves out the half-built object Python discards when the constructor raises. Only the exception is returned.
- `Measures.Mesure.NiveauPressionIndirect` does not say which band's error surfaces, or which bands were already rewritten when an exception stops the loop. That depends on dict order, which is not modelled.
- `Measures.Mesure.NiveauPressionTotale` always fails with `KeyError`, but it does not say which bands already hold the floored sum when that error stops the loop. Only this partial state depends on dict order, which is not modelled.
- `Measures.Mesure.RaiseByRoomTerm`, the loop of `niveau_pression_indirect`, has the same gap: it does not say which band's error surfaces or which bands were already raised, since that depends on dict order.
- `Measures.Mesure.NiveauPressionTotale` does not model the two `convert_freq` results the source computes and discards (source.py:174-179). They have no effect.
