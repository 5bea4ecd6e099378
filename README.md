# KinBin: binned kinematic data

A model of lenstronomy's `KinBin` container. It holds binned kinematic
measurements: for every bin a sky position (RA, Dec), a measured value such
as a velocity dispersion, and a signal-to-noise ratio. It also holds a 2-D
bin mask that gives, for every pixel of the unbinned map, the index of its
bin, and the pixel grid of that map. Two quantities are derived from the
stored data:

- `noise()`: value divided by signal-to-noise, bin by bin. The result is
  cached on the object.
- `binned_image()`: the full-resolution map in which every pixel carries
  the value of its bin.

Files:

- `wrappers.dfy`: the `Option` and `Result` datatypes.
- `kinematic_bin.dfy`: module `KinematicBin`. It holds the grid record, the
  division with numpy's 1-D broadcasting rules, and class `KinBin`.

Modelling choices:

- The inputs stored by the constructor are `const` fields, because no code
  reassigns them. The noise cache is a `var` of type `Option`. `None` stands
  for the attribute that does not exist before the first call.
- The mask is an `array2<int>` shared with the caller, as in the source.
  `BinnedImage` has no `modifies` clause. The verifier therefore guarantees
  that it leaves the mask, the data and the cache unchanged.
- `binned_image` (lines 63-65) uses the bare names `bin_mask` and
  `bin_data`. These are not in scope inside the method, so the code as
  written fails with a `NameError`. The model uses the stored mask and data,
  which is evidently what the method means.
- `binned_image` goes through the bins one at a time. For each bin it
  compares every mask entry with the bin index. It never uses a mask entry
  as an index. So a mask entry outside `[0, n_bins)` (a negative
  "unassigned" marker, say) cannot cause an out-of-range access: that pixel
  simply keeps the fill value 0.
- `/` on two 1-D numpy arrays follows numpy's broadcasting rules. Equal
  lengths divide element by element. An operand of length 1 is stretched to
  the other operand's length. Any other pair of lengths raises `ValueError`,
  which the model returns as `Failure(ShapeMismatch)`.
- Positions, values and ratios are `real`. The pixel grid is an opaque
  record of the five arguments it is built from: `nx`, `ny`, the transform
  and the two origin coordinates.

## Model

| member | source | states |
|---|---|---|
| KinematicBin.KinBin.constructor | lenstronomy/Data/kinematic_bin.py:20-51 | `nx` and `ny` equal the mask's two dimensions. The grid is built with exactly those sizes. With no transform given, the grid gets the 2x2 identity. The grid origin is `(ra_at_xy_0 + ra_shift, dec_at_xy_0 + dec_shift)`, and every default is 0. Positions, data, SNR and mask are stored unchanged. No noise is cached yet. |
| KinematicBin.ElementwiseQuotient | lenstronomy/Data/kinematic_bin.py:57 | For equal-length inputs with nonzero divisors, the result has the same length and element `i` is `num[i] / den[i]`. |
| KinematicBin.Quotient | lenstronomy/Data/kinematic_bin.py:57 | `data / snr` succeeds exactly when the lengths broadcast: equal, or one of them is 1. If the lengths are equal, element `i` is `data[i] / snr[i]`. If one side has length 1, its single element divides, or is divided by, every element of the other side. Otherwise the result is a shape-mismatch error. |
| KinematicBin.NoiseTimesSnrIsData | lenstronomy/Data/kinematic_bin.py:55-57 | For equal-length data and nonzero SNR, the noise exists, and noise times SNR gives back each bin's value. |
| KinematicBin.KinBin.Noise | lenstronomy/Data/kinematic_bin.py:53-58 | Returns `data / snr` under the broadcasting rules. On success the cache holds the returned noise. On a shape mismatch the cache is unchanged. Only the cache may change. |
| KinematicBin.NoiseTwice | lenstronomy/Data/kinematic_bin.py:57-58 | Idempotence: two calls in a row return the same result, and afterwards the cache holds that result. |
| KinematicBin.FillBinsIsLookup | lenstronomy/Data/kinematic_bin.py:63-65 | `FillBins` replays the loop's writes on one pixel: start at 0, then each bin `idx` overwrites the pixel when its mask entry equals `idx`. After bins `0 .. k-1`, the pixel holds its bin's value if that bin is among them, and 0 otherwise. After all bins, this is the direct lookup `BinnedValue`. |
| KinematicBin.FillBinsSettled | lenstronomy/Data/kinematic_bin.py:64-65 | Once a pixel's own bin has been handled, no later bin overwrites it. The pixel keeps that bin's value to the end of the loop. This is a corollary of `FillBinsIsLookup`. |
| KinematicBin.KinBin.BinnedImage | lenstronomy/Data/kinematic_bin.py:59-66 | The image is a newly allocated array with the mask's dimensions. After each bin, every pixel equals `FillBins` of its mask entry (loop invariant). At the end, every pixel whose mask entry `i` lies in `[0, n_bins)` holds `data[i]`, and every other pixel holds 0. Mask, data and cache are not modified. |

## Left out

- The pixel grid's own behaviour is not part of this model. That covers the pixel-to-sky mapping and any error its constructor raises. It is an external class, recorded here only by its constructor arguments.
- `Noise`: requires every SNR entry to be nonzero. IEEE rounding, and the infinity or NaN that numpy returns for a zero SNR, are not modelled; division is exact over `real`.
- `Noise`: assumes `bin_data` and `bin_SNR` are numpy arrays. If both are plain Python lists, as the docstring allows, `/` raises `TypeError`; that path is not modelled.
- `ElementwiseQuotient`: numpy's vectorised division is stated as a recursive function, with no step-by-step order of evaluation.
- `BinnedImage`: `np.zeros_like(bin_mask)` takes the mask's dtype. With an integer mask, numpy would truncate each written value toward zero. The model keeps the image's values `real`, the type of the data.
- `BinnedImage`: the `NameError` that the unqualified names on lines 63-65 would raise is not modelled. The method uses the stored fields instead.
- Construction-time checks: the only failure in KinBin's own construction code is `nx, ny = np.shape(bin_mask)` (line 38). It raises `ValueError` for a mask that is not 2-D, and the model's `array2<int>` type rules that case out. A failure inside the external grid constructor (line 44), for example one caused by the transform matrix, belongs to the pixel grid and is left out with it (see the first line of this list). The source does not compare the lengths of the bin arrays with each other or with the mask, and neither does the model.
- Aliasing of the stored bin arrays is not modelled. The source keeps references to the caller's `bin_data` and `bin_SNR` (lines 48-49), and `noise()` returns the cached array itself (lines 57-58). So a caller's later in-place change to either array, or to the returned noise, would show through in the object. The model stores these arrays as immutable sequences. The mask is the exception: it stays a shared `array2`.
- `bin_pos_ra` and `bin_pos_dec` are stored and nothing else: no operation reads them.
