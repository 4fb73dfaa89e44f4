# Polarimetric SAR algebra and operator logic of the microwave toolbox, in Dafny

This project models the computational core of several SAR operators of the
microwave toolbox (the Sentinel-1 / Radarsat toolbox of SNAP) and proves
properties of that model:

- the dual-pol and compact-pol matrix kernel: the C2 covariance and
  correlation matrices of two-channel scattering vectors, reading a
  pre-formed C2 product, and averaging over a box window clamped to the
  image (`DualPol`);
- the Pauli, Sinclair, Freeman-Durden and Yamaguchi decompositions, their
  per-pixel output routing, the EPS floor before the decibel conversion and
  the no-data handling (`Pauli`, `Sinclair`, `FreemanDurden`, `Yamaguchi`,
  `Channels`);
- the polarimetric-matrix operator's decision table of source kind against
  requested matrix, and the band-name to matrix-element map
  (`PolarimetricMatrices`);
- the polarimetric speckle-filter operator's filter selection, target band
  names and source-rectangle arithmetic (`SpeckleFilter`);
- Radarsat-2 radiometric calibration: the set-up checks and the per-pixel
  conversion of digital numbers to sigma nought (`Radarsat2Calibrator`);
- the forest-area detection ratio over a sliding window (`ForestArea`);
- the arithmetic of the Sentinel-1 azimuth-shift (ESD) operator: complex
  array products, the FFT shift ramp, burst overlap and block geometry,
  windowed coherence and the averaging of the block estimates
  (`AzimuthShift`);
- the band-select filter (`BandSelect`) and the Radarsat-1 reader's file-name
  qualification (`RadarsatReader`).

Supporting modules: `Common` (results, Java's `Math.max`/`Math.min` and
`(int)` cast, facts about square roots and logarithms), `Text` (the ASCII
string operations used), `ComplexAlgebra` (complex numbers, 2x2 and 3x3
complex matrices, power matrices) and `PolarimetricKinds` (source product
kinds and band units).

All floating-point numbers are modelled as mathematical reals. The
transcendental functions (`sqrt`, `log10`, `10^x`, `sin`, `cos`) are
parameters of the members that use them; where a property needs a fact
about one of them, the member requires it as a named predicate (`IsSqrt`,
`MonotoneOnPositive`, `IsPow10Of`, `UnitCircle`). Helpers that live in
files not part of this model (`c3ToT3`, `isNoData`, the polarisation of a
band name, regular-expression matching, `isVolumeFile`, the span
statistics, `Constants.EPS`, the underflow floor) are parameters too.
Where Java would divide by zero, the member requires a non-zero divisor.

## Model

| member | source | states |
|---|---|---|
| DualPol.CovarianceC2 | rstb/rstb-op-polarimetric-tools/src/main/java/org/csa/rstb/polarimetric/gpf/support/DualPolProcessor.java:185-199 | C2 of a scatter vector k is Hermitian, equals the outer product k k^H, and its diagonal holds the two channel powers |k1|^2 and |k2|^2 |
| DualPol.ScatterVector | rstb/rstb-op-polarimetric-tools/src/main/java/org/csa/rstb/polarimetric/gpf/support/DualPolProcessor.java:153-161 | the scatter vector reads bands 0 to 3 of a pixel as the real and imaginary parts of k1 and of k2, in that order |
| DualPol.CorrelationC2 | rstb/rstb-op-polarimetric-tools/src/main/java/org/csa/rstb/polarimetric/gpf/support/DualPolProcessor.java:264-279 | the correlation matrix of master vector a and slave vector b is the outer product a b^H, entry by entry |
| DualPol.CovarianceIsSelfCorrelation | rstb/rstb-op-polarimetric-tools/src/main/java/org/csa/rstb/polarimetric/gpf/support/DualPolProcessor.java:185-199 | the correlation of a vector with itself is its covariance matrix |
| DualPol.CorrelationSwapIsAdjoint | rstb/rstb-op-polarimetric-tools/src/main/java/org/csa/rstb/polarimetric/gpf/support/DualPolProcessor.java:264-279 | swapping master and slave gives the conjugate transpose of the correlation matrix |
| DualPol.CovarianceExample | rstb/rstb-op-polarimetric-tools/src/main/java/org/csa/rstb/polarimetric/gpf/support/DualPolProcessor.java:185-199 | the vector (3 + 4i, 0) has covariance diag(25, 0) |
| DualPol.ReadC2 | rstb/rstb-op-polarimetric-tools/src/main/java/org/csa/rstb/polarimetric/gpf/support/DualPolProcessor.java:101-115 | a C2 pixel read from bands C11, C12 real, C12 imaginary and C22 is Hermitian with exactly those entries |
| DualPol.PixelC2 | rstb/rstb-op-polarimetric-tools/src/main/java/org/csa/rstb/polarimetric/gpf/support/DualPolProcessor.java:125-161 | raw dual-pol and compact-pol pixels give the outer product of their scatter vector, a C2 pixel is read as stored, any other kind leaves the output matrix as it was |
| DualPol.ClampWindow | rstb/rstb-op-polarimetric-tools/src/main/java/org/csa/rstb/polarimetric/gpf/support/DualPolProcessor.java:31-34 | the window lies inside the image, contains the centre pixel, reaches at most the half size from it, and each edge is either the image border or the full half size away |
| DualPol.WindowAreaBounds | rstb/rstb-op-polarimetric-tools/src/main/java/org/csa/rstb/polarimetric/gpf/support/DualPolProcessor.java:31-35 | the pixel count `num` is between 1 and (2 hx + 1)(2 hy + 1), so the division by it is safe |
| DualPol.InteriorWindowIsFull | rstb/rstb-op-polarimetric-tools/src/main/java/org/csa/rstb/polarimetric/gpf/support/DualPolProcessor.java:31-35 | away from the borders the window holds the full (2 hx + 1)(2 hy + 1) pixels |
| DualPol.LeftEdgeWindowExample | rstb/rstb-op-polarimetric-tools/src/main/java/org/csa/rstb/polarimetric/gpf/support/DualPolProcessor.java:31-35 | a 5x5 window centred one pixel from the left edge keeps 4 columns of 5 rows |
| DualPol.RowSumHermitian | rstb/rstb-op-polarimetric-tools/src/main/java/org/csa/rstb/polarimetric/gpf/support/DualPolProcessor.java:49-53 | a row of Hermitian matrices adds up to a Hermitian matrix |
| DualPol.BlockSumHermitian | rstb/rstb-op-polarimetric-tools/src/main/java/org/csa/rstb/polarimetric/gpf/support/DualPolProcessor.java:47-54 | a block of Hermitian matrices adds up to a Hermitian matrix |
| DualPol.WindowMeanHermitian | rstb/rstb-op-polarimetric-tools/src/main/java/org/csa/rstb/polarimetric/gpf/support/DualPolProcessor.java:47-80 | the window mean of Hermitian matrices is Hermitian |
| DualPol.AccumulateWindow | rstb/rstb-op-polarimetric-tools/src/main/java/org/csa/rstb/polarimetric/gpf/support/DualPolProcessor.java:47-54 | the two nested loops add the matrix of every window pixel exactly once: the sum is the window sum and the number of pixels visited is the window area |
| DualPol.CovarianceFieldHermitian | rstb/rstb-op-polarimetric-tools/src/main/java/org/csa/rstb/polarimetric/gpf/support/DualPolProcessor.java:45-73 | every per-pixel matrix the mean covariance adds up is Hermitian |
| DualPol.MeanCovarianceC2 | rstb/rstb-op-polarimetric-tools/src/main/java/org/csa/rstb/polarimetric/gpf/support/DualPolProcessor.java:26-91 | `num` is the clamped window's area, between 1 and the full window; C2, dual-pol and compact-pol sources give the Hermitian window mean of the per-pixel C2 matrices; any other kind is the "not implemented" error |
| DualPol.MeanCorrelationC2 | rstb/rstb-op-polarimetric-tools/src/main/java/org/csa/rstb/polarimetric/gpf/support/DualPolProcessor.java:201-262 | raw dual-pol and compact-pol sources give the window mean of the master/slave correlation matrices over the clamped window (the master's tile index addresses both buffers, so the slave must have the master's width); any other kind is the "raw dual pol expected" error |
| DualPol.SelfCorrelationMeanIsCovarianceMean | rstb/rstb-op-polarimetric-tools/src/main/java/org/csa/rstb/polarimetric/gpf/support/DualPolProcessor.java:201-262 | correlating a raw dual-pol product with itself gives its mean covariance matrix over the same window |
| PolarimetricMatrices.SetMatrixType | rstb/rstb-op-polarimetric-tools/src/main/java/org/csa/rstb/polarimetric/gpf/PolarimetricMatricesOp.java:82-89 | the setter succeeds exactly for C2, C3, C4, T3 and T4 and then stores the name; any other name is the "invalid filter name" error and leaves the setting unchanged |
| PolarimetricMatrices.TargetKind | rstb/rstb-op-polarimetric-tools/src/main/java/org/csa/rstb/polarimetric/gpf/PolarimetricMatricesOp.java:147-181 | a known matrix name selects one of the five target matrix kinds; anything else is the "unknown matrix type" error naming it |
| PolarimetricMatrices.SetMatrixTypeAgreesWithTargetKind | rstb/rstb-op-polarimetric-tools/src/main/java/org/csa/rstb/polarimetric/gpf/PolarimetricMatricesOp.java:82-181 | the setter accepts a name exactly when the band set-up recognises it |
| PolarimetricMatrices.CheckSourceProductType | rstb/rstb-op-polarimetric-tools/src/main/java/org/csa/rstb/polarimetric/gpf/PolarimetricMatricesOp.java:191-241 | a non-polarimetric source is refused first; a full-pol source asked for C2 gets the "use BandSelect" error |
| PolarimetricMatrices.CheckMatchesSupported | rstb/rstb-op-polarimetric-tools/src/main/java/org/csa/rstb/polarimetric/gpf/PolarimetricMatricesOp.java:191-241 | the check passes exactly for the supported conversions: dual-pol or compact-pol to C2, a full-pol scattering matrix to any 3x3 or 4x4 matrix, a 4x4 matrix to a different or smaller one, a 3x3 matrix to the other 3x3 matrix |
| PolarimetricMatrices.NoUpsizing | rstb/rstb-op-polarimetric-tools/src/main/java/org/csa/rstb/polarimetric/gpf/PolarimetricMatricesOp.java:219-234 | a T3 or C3 source is never converted to T4 or C4 ("cannot convert") |
| PolarimetricMatrices.IdentityConversionRejected | rstb/rstb-op-polarimetric-tools/src/main/java/org/csa/rstb/polarimetric/gpf/PolarimetricMatricesOp.java:211-236 | asking for the format the source already has is the "already in format" error |
| PolarimetricMatrices.DualPolOnlyGivesC2 | rstb/rstb-op-polarimetric-tools/src/main/java/org/csa/rstb/polarimetric/gpf/PolarimetricMatricesOp.java:237-239 | a dual-pol or compact-pol source asked for anything but C2 gets the "full-pol expected" error |
| PolarimetricMatrices.MatrixDim | rstb/rstb-op-polarimetric-tools/src/main/java/org/csa/rstb/polarimetric/gpf/PolarimetricMatricesOp.java:319-325 | the working matrix is 2x2 exactly for C2, 3x3 exactly for C3 and T3, 4x4 otherwise |
| PolarimetricMatrices.ElementTableUpperTriangle | rstb/rstb-op-polarimetric-tools/src/main/java/org/csa/rstb/polarimetric/gpf/PolarimetricMatricesOp.java:243-284 | every band suffix names an upper-triangle element, with an imaginary part only off the diagonal |
| PolarimetricMatrices.ElementTableCoversUpperTriangle | rstb/rstb-op-polarimetric-tools/src/main/java/org/csa/rstb/polarimetric/gpf/PolarimetricMatricesOp.java:243-284 | every upper-triangle element of a 4x4 Hermitian matrix has a band suffix |
| PolarimetricMatrices.ElementTableInjective | rstb/rstb-op-polarimetric-tools/src/main/java/org/csa/rstb/polarimetric/gpf/PolarimetricMatricesOp.java:243-284 | no two suffixes name the same element |
| PolarimetricMatrices.FirstMatch | rstb/rstb-op-polarimetric-tools/src/main/java/org/csa/rstb/polarimetric/gpf/PolarimetricMatricesOp.java:248-281 | the suffix found is the first one, in the order tried, that the band name is for; none is found only when no suffix fits |
| PolarimetricMatrices.MapBand | rstb/rstb-op-polarimetric-tools/src/main/java/org/csa/rstb/polarimetric/gpf/PolarimetricMatricesOp.java:243-284 | a band is mapped to the element of the first suffix it is for, an upper-triangle element; it stays unmapped exactly when no suffix fits |
| PolarimetricMatrices.ElementValue | rstb/rstb-op-polarimetric-tools/src/main/java/org/csa/rstb/polarimetric/gpf/PolarimetricMatricesOp.java:377-383 | an element's band receives the imaginary part of matrix entry (i, j) when the element is imaginary, the real part otherwise |
| PolarimetricMatrices.ElementIndex | rstb/rstb-op-polarimetric-tools/src/main/java/org/csa/rstb/polarimetric/gpf/PolarimetricMatricesOp.java:243-284 | every upper-triangle element has a table entry, and this position holds it: the suffix table is invertible |
| PolarimetricMatrices.BandValuesDetermineMatrix | rstb/rstb-op-polarimetric-tools/src/main/java/org/csa/rstb/polarimetric/gpf/PolarimetricMatricesOp.java:319-383 | the values written to a kind's bands (each element of the kind's `matrixDim` x `matrixDim` arrays, real or imaginary part by `ElementValue`) determine the Hermitian matrix they came from: reading them back, with the lower triangle by conjugation, gives the pixel's matrix |
| SpeckleFilter.SetFilter | rstb/rstb-op-polarimetric-tools/src/main/java/org/csa/rstb/polarimetric/gpf/PolarimetricSpeckleFilterOp.java:128-136 | the setter succeeds exactly for the five filter names, Non Local included, and then stores the name; any other name is the "invalid filter name" error and leaves the filter unchanged |
| SpeckleFilter.CheckSourceProductType | rstb/rstb-op-polarimetric-tools/src/main/java/org/csa/rstb/polarimetric/gpf/PolarimetricSpeckleFilterOp.java:177-184 | only a non-polarimetric source is refused, with the "polarimetric product expected" error |
| SpeckleFilter.CreateFilter | rstb/rstb-op-polarimetric-tools/src/main/java/org/csa/rstb/polarimetric/gpf/PolarimetricSpeckleFilterOp.java:186-213 | a filter is built exactly for the five names; Refined Lee and Lee Sigma first replace the filter size by the parsed window size and every other filter leaves the configuration alone; the built filter's window is the one its configuration field names |
| SpeckleFilter.SetFilterAgreesWithCreateFilter | rstb/rstb-op-polarimetric-tools/src/main/java/org/csa/rstb/polarimetric/gpf/PolarimetricSpeckleFilterOp.java:128-213 | every name the setter accepts builds a filter, and every name that builds one is accepted |
| SpeckleFilter.TargetBands | rstb/rstb-op-polarimetric-tools/src/main/java/org/csa/rstb/polarimetric/gpf/PolarimetricSpeckleFilterOp.java:230-254 | one target group per source group; full-pol sources get the T3 names and dual-pol sources the C2 names, both with the group suffix; other sources copy their own band names with no suffix |
| SpeckleFilter.CopiedBandsKeepNames | rstb/rstb-op-polarimetric-tools/src/main/java/org/csa/rstb/polarimetric/gpf/PolarimetricSpeckleFilterOp.java:236-249 | for a source that is neither full-pol nor dual-pol, each target group is its source group's band names with an empty suffix |
| SpeckleFilter.SourceRectangle | rstb/rstb-op-polarimetric-tools/src/main/java/org/csa/rstb/polarimetric/gpf/PolarimetricSpeckleFilterOp.java:294-318 | each side of the tile grows by half the filter size exactly when the grown side stays inside the image, and otherwise keeps the tile's edge; a tile inside the image gets a source rectangle inside the image that contains it |
| SpeckleFilter.ExtendedRectangle | rstb/rstb-op-polarimetric-tools/src/main/java/org/csa/rstb/polarimetric/gpf/PolarimetricSpeckleFilterOp.java:320-335 | the rectangle is the tile grown by the extension on every side and clipped to the image; it contains a tile that lies in the image and never leaves the image |
| SpeckleFilter.ExtendedRectangleCoversNeighbourhood | rstb/rstb-op-polarimetric-tools/src/main/java/org/csa/rstb/polarimetric/gpf/PolarimetricSpeckleFilterOp.java:320-335 | every image pixel within the extension of the tile lies in the source rectangle |
| SpeckleFilter.NonLocalExtent | rstb/rstb-op-polarimetric-tools/src/main/java/org/csa/rstb/polarimetric/gpf/PolarimetricSpeckleFilterOp.java:272-275 | the extension is the search half-window plus the patch half-size plus the scale size: twice it is within 2 of search + patch + 2 scale |
| SpeckleFilter.NonLocalExtentRange | rstb/rstb-op-polarimetric-tools/src/main/java/org/csa/rstb/polarimetric/gpf/PolarimetricSpeckleFilterOp.java:85-94 | over the parameter value sets (search 3 to 25, patch 3 to 11, scale 0 to 2) the extension lies between 2 and 19 |
| SpeckleFilter.SourceTileRectangle | rstb/rstb-op-polarimetric-tools/src/main/java/org/csa/rstb/polarimetric/gpf/PolarimetricSpeckleFilterOp.java:266-279 | the Non Local filter reads the extended rectangle, the others the half-filter rectangle; either way a tile inside the image is read from a rectangle inside the image that contains it |
| Channels.DbFloor | rstb/rstb-op-polarimetric-tools/src/main/java/org/csa/rstb/polarimetric/gpf/decompositions/Pauli.java:140-144 | the decibel value is never below that of EPS; a power at or under EPS is written as EPS in decibels and one at or above it as its own decibel value |
| Channels.WriteOut | rstb/rstb-op-polarimetric-tools/src/main/java/org/csa/rstb/polarimetric/gpf/decompositions/Pauli.java:126-146 | a no-data pixel gets the source no-data value on all three channels; any other pixel gets each channel floored at EPS and converted to decibels, so no channel is below 10 log10(EPS) |
| Pauli.Decompose | rstb/rstb-op-polarimetric-tools/src/main/java/org/csa/rstb/polarimetric/gpf/decompositions/Pauli.java:206-213 | red plus blue is C11 + C33, blue minus red is 2 Re C13, green is C22: the Pauli powers T22, T11 and T33 read from C3 |
| Pauli.DecomposeReadsNoImaginaryPart | rstb/rstb-op-polarimetric-tools/src/main/java/org/csa/rstb/polarimetric/gpf/decompositions/Pauli.java:206-213 | two C3 matrices that agree on C11, C22, C33 and Re C13 decompose alike; no imaginary part is read |
| Pauli.ScatterPowers | rstb/rstb-op-polarimetric-tools/src/main/java/org/csa/rstb/polarimetric/gpf/decompositions/Pauli.java:129-140 | red, green and blue are half the squared moduli of S11 - S22, S12 + S21 and S11 + S22, and are non-negative |
| Pauli.ScatterPowersCoPolarTotal | rstb/rstb-op-polarimetric-tools/src/main/java/org/csa/rstb/polarimetric/gpf/decompositions/Pauli.java:129-140 | red plus blue is the co-polar power abs(S11)^2 + abs(S22)^2 |
| Pauli.CovariancePowers | rstb/rstb-op-polarimetric-tools/src/main/java/org/csa/rstb/polarimetric/gpf/decompositions/Pauli.java:159-165 | the C3 branch of the tile loop writes the same channel values as the static decomposition |
| Pauli.CoherencyPowers | rstb/rstb-op-polarimetric-tools/src/main/java/org/csa/rstb/polarimetric/gpf/decompositions/Pauli.java:185-191 | the T3 branch writes red T22, green T33 and blue T11, which add up to the span of T3 |
| Pauli.ScatterPathMatchesCovariancePath | rstb/rstb-op-polarimetric-tools/src/main/java/org/csa/rstb/polarimetric/gpf/decompositions/Pauli.java:120-173 | a reciprocal scattering matrix and its C3 covariance give the same three channels |
| Pauli.CoherencyPathMatchesCovariancePath | rstb/rstb-op-polarimetric-tools/src/main/java/org/csa/rstb/polarimetric/gpf/decompositions/Pauli.java:149-199 | a C3 matrix and the T3 matrix derived from it give the same three channels |
| Pauli.Pixel | rstb/rstb-op-polarimetric-tools/src/main/java/org/csa/rstb/polarimetric/gpf/decompositions/Pauli.java:120-200 | per pixel, no-data is written on every channel, otherwise the powers of the source kind's branch floored at EPS in decibels, so never below 10 log10(EPS); a C3 pixel gets the floored channels of the Pauli decomposition, a T3 pixel's blue channel is the floored T11 |
| Sinclair.Decompose | rstb/rstb-op-polarimetric-tools/src/main/java/org/csa/rstb/polarimetric/gpf/decompositions/Sinclair.java:209-216 | red is C33, green half C22 and blue C11, so red + 2 green + blue is the span of C3 |
| Sinclair.ScatterPowers | rstb/rstb-op-polarimetric-tools/src/main/java/org/csa/rstb/polarimetric/gpf/decompositions/Sinclair.java:131-142 | red is abs(S22)^2, green abs((S12 + S21) / 2)^2 (a quarter of abs(S12 + S21)^2), blue abs(S11)^2, and all three channels are non-negative |
| Sinclair.CovariancePowers | rstb/rstb-op-polarimetric-tools/src/main/java/org/csa/rstb/polarimetric/gpf/decompositions/Sinclair.java:161-167 | the C3 branch of the tile loop writes the same channel values as the static decomposition |
| Sinclair.CoherencyPowers | rstb/rstb-op-polarimetric-tools/src/main/java/org/csa/rstb/polarimetric/gpf/decompositions/Sinclair.java:187-193 | from T3: red plus blue is T11 + T22, blue minus red is 2 Re T12, and twice green is T33 |
| Sinclair.ScatterPathMatchesCovariancePath | rstb/rstb-op-polarimetric-tools/src/main/java/org/csa/rstb/polarimetric/gpf/decompositions/Sinclair.java:122-175 | a reciprocal scattering matrix and its C3 covariance give the same three channels |
| Sinclair.CoherencyPathMatchesCovariancePath | rstb/rstb-op-polarimetric-tools/src/main/java/org/csa/rstb/polarimetric/gpf/decompositions/Sinclair.java:151-201 | a C3 matrix and the T3 matrix derived from it give the same three channels |
| Sinclair.Pixel | rstb/rstb-op-polarimetric-tools/src/main/java/org/csa/rstb/polarimetric/gpf/decompositions/Sinclair.java:122-202 | per pixel, no-data is written on every channel, otherwise the powers of the source kind's branch floored at EPS in decibels; a C3 pixel gets the floored channels of the Sinclair decomposition, its green channel being half of C22 |
| FreemanDurden.RemoveVolume | rstb/rstb-op-polarimetric-tools/src/main/java/org/csa/rstb/polarimetric/gpf/decompositions/FreemanDurden.java:188-193 | the volume power is 4 C22, and the residual c11 + c33 plus the volume power is the span of C3 |
| FreemanDurden.Rescale | rstb/rstb-op-polarimetric-tools/src/main/java/org/csa/rstb/polarimetric/gpf/decompositions/FreemanDurden.java:206-211 | a cross term above the bound is scaled down to modulus squared exactly c11 c33, keeping the sign of its real part |
| FreemanDurden.ClampC13 | rstb/rstb-op-polarimetric-tools/src/main/java/org/csa/rstb/polarimetric/gpf/decompositions/FreemanDurden.java:206-211 | the cross term used satisfies abs(c13)^2 <= c11 c33, is the original one when that already held, and keeps the sign of its real part (which picks the branch) |
| FreemanDurden.SurfaceFirstSolution | rstb/rstb-op-polarimetric-tools/src/main/java/org/csa/rstb/polarimetric/gpf/decompositions/FreemanDurden.java:214-221 | with Re c13 < 0 the denominator is positive, fs is non-negative, c33 - fs is positive, and fs solves the model's quadratic |
| FreemanDurden.DoubleBounceFirstSolution | rstb/rstb-op-polarimetric-tools/src/main/java/org/csa/rstb/polarimetric/gpf/decompositions/FreemanDurden.java:223-231 | with Re c13 >= 0 the denominator is positive, fd is non-negative, c33 - fd is positive, and fd solves the model's quadratic |
| FreemanDurden.SurfaceFirst | rstb/rstb-op-polarimetric-tools/src/main/java/org/csa/rstb/polarimetric/gpf/decompositions/FreemanDurden.java:214-221 | beta is 1, fs >= 0, fd = c33 - fs > 0 (so the division by fd is safe and the absolute values change nothing), and alpha = (c13 - fs) / fd |
| FreemanDurden.DoubleBounceFirst | rstb/rstb-op-polarimetric-tools/src/main/java/org/csa/rstb/polarimetric/gpf/decompositions/FreemanDurden.java:223-231 | alpha is -1, fd >= 0, fs = c33 - fd > 0 (so the division by fs is safe and the absolute values change nothing), and beta = (c13 + fd) / fs |
| FreemanDurden.FitParams | rstb/rstb-op-polarimetric-tools/src/main/java/org/csa/rstb/polarimetric/gpf/decompositions/FreemanDurden.java:213-231 | both weights are non-negative; a negative Re c13 fixes beta = 1, otherwise alpha = -1 |
| FreemanDurden.SurfaceFirstReproduces | rstb/rstb-op-polarimetric-tools/src/main/java/org/csa/rstb/polarimetric/gpf/decompositions/FreemanDurden.java:214-221 | the surface-first parameters reproduce c11, c13 and c33 of the model exactly |
| FreemanDurden.DoubleBounceFirstReproduces | rstb/rstb-op-polarimetric-tools/src/main/java/org/csa/rstb/polarimetric/gpf/decompositions/FreemanDurden.java:223-231 | the double-bounce-first parameters reproduce c11, c13 and c33 of the model exactly |
| FreemanDurden.FitParamsReproduce | rstb/rstb-op-polarimetric-tools/src/main/java/org/csa/rstb/polarimetric/gpf/decompositions/FreemanDurden.java:204-232 | whenever abs(c13)^2 <= c11 c33 the fitted parameters reproduce the residual covariance |
| FreemanDurden.ReproducingPowers | rstb/rstb-op-polarimetric-tools/src/main/java/org/csa/rstb/polarimetric/gpf/decompositions/FreemanDurden.java:235-237 | parameters that reproduce the residual have pd + ps = c11 + c33 |
| FreemanDurden.Params | rstb/rstb-op-polarimetric-tools/src/main/java/org/csa/rstb/polarimetric/gpf/decompositions/FreemanDurden.java:196-232 | the weights are never negative, degenerate residuals included |
| FreemanDurden.Decompose | rstb/rstb-op-polarimetric-tools/src/main/java/org/csa/rstb/polarimetric/gpf/decompositions/FreemanDurden.java:184-239 | pv = 4 C22, ps and pd are non-negative, and a residual c11 or c33 at or below EPS gives ps = pd = 0 |
| FreemanDurden.SurfaceBranchPower | rstb/rstb-op-polarimetric-tools/src/main/java/org/csa/rstb/polarimetric/gpf/decompositions/FreemanDurden.java:214-235 | in the surface-first branch beta = 1, so ps = 2 fs |
| FreemanDurden.DoubleBounceBranchPower | rstb/rstb-op-polarimetric-tools/src/main/java/org/csa/rstb/polarimetric/gpf/decompositions/FreemanDurden.java:225-236 | in the double-bounce-first branch alpha = -1, so pd = 2 fd |
| FreemanDurden.DecomposeConservesSpan | rstb/rstb-op-polarimetric-tools/src/main/java/org/csa/rstb/polarimetric/gpf/decompositions/FreemanDurden.java:184-239 | outside the degenerate case ps + pd + pv is the span C11 + C22 + C33 |
| FreemanDurden.DegenerateExample | rstb/rstb-op-polarimetric-tools/src/main/java/org/csa/rstb/polarimetric/gpf/decompositions/FreemanDurden.java:196-203 | diag(4, 4, 4) leaves no residual: (pv, pd, ps) = (16, 0, 0) |
| FreemanDurden.EvenSplitExample | rstb/rstb-op-polarimetric-tools/src/main/java/org/csa/rstb/polarimetric/gpf/decompositions/FreemanDurden.java:184-239 | C11 = C33 = 1 with C22 = C13 = 0 splits into pd = ps = 1 and pv = 0 |
| FreemanDurden.EvenSplitWeights | rstb/rstb-op-polarimetric-tools/src/main/java/org/csa/rstb/polarimetric/gpf/decompositions/FreemanDurden.java:196-231 | for that matrix the weights are fs = fd = 1/2 with alpha = -1 and beta = 1 |
| FreemanDurden.SetSpanMinMax | rstb/rstb-op-polarimetric-tools/src/main/java/org/csa/rstb/polarimetric/gpf/decompositions/FreemanDurden.java:70-80 | after the call the span statistics are set; a second call changes nothing; the first stores the computed minimum and maximum |
| FreemanDurden.SetSpanMinMaxOneShot | rstb/rstb-op-polarimetric-tools/src/main/java/org/csa/rstb/polarimetric/gpf/decompositions/FreemanDurden.java:70-80 | calling twice is calling once |
| FreemanDurden.PixelValue | rstb/rstb-op-polarimetric-tools/src/main/java/org/csa/rstb/polarimetric/gpf/decompositions/FreemanDurden.java:142-170 | a no-data pixel writes the no-data value; otherwise red gets pd, green pv = 4 C22 and blue ps, each scaled to decibels against the span statistics |
| FreemanDurden.TargetBandsRoute | rstb/rstb-op-polarimetric-tools/src/main/java/org/csa/rstb/polarimetric/gpf/decompositions/FreemanDurden.java:106-113 | the three target band names route to red, green and blue: each colour's own band name selects exactly that colour |
| FreemanDurden.ColourOf | rstb/rstb-op-polarimetric-tools/src/main/java/org/csa/rstb/polarimetric/gpf/decompositions/FreemanDurden.java:104-113 | a band gets a colour only if its name contains that colour's fragment, and none exactly when it contains none; red is tested before green and green before blue |
| Yamaguchi.CoefficientsFor | rstb/rstb-op-polarimetric-tools/src/main/java/org/csa/rstb/polarimetric/gpf/decompositions/Yamaguchi.java:177-189 | the three asymmetry regimes of the co-polar ratio, split at -2 dB and 2 dB, select their volume coefficients; in every regime k3 > 0 (so the division by k3 is safe) and k2 + k3 = 1/2 |
| Yamaguchi.RatioScaleInvariant | rstb/rstb-op-polarimetric-tools/src/main/java/org/csa/rstb/polarimetric/gpf/decompositions/Yamaguchi.java:175 | the co-polar ratio 10 log10(C33 / C11) depends only on the proportion of C33 to C11: scaling both by a positive factor keeps the ratio and so the regime |
| Yamaguchi.RatioMonotone | rstb/rstb-op-polarimetric-tools/src/main/java/org/csa/rstb/polarimetric/gpf/decompositions/Yamaguchi.java:175 | with a non-decreasing logarithm, a larger C33 / C11 never gives a smaller ratio |
| Yamaguchi.AsymmetricRegimesMirror | rstb/rstb-op-polarimetric-tools/src/main/java/org/csa/rstb/polarimetric/gpf/decompositions/Yamaguchi.java:177-184 | the two asymmetric regimes differ only in the sign of k1 |
| Yamaguchi.Initial | rstb/rstb-op-polarimetric-tools/src/main/java/org/csa/rstb/polarimetric/gpf/decompositions/Yamaguchi.java:173-191 | span is the trace of T3, pc = 2 abs(Im T23) is non-negative, and k3 pv + pc/2 gives back T33 |
| Yamaguchi.Residuals | rstb/rstb-op-polarimetric-tools/src/main/java/org/csa/rstb/polarimetric/gpf/decompositions/Yamaguchi.java:202-209 | the surface and double-bounce residuals s + d, with pv and pc, account for T11 + T22 plus the volume and helix shares outside T33 |
| Yamaguchi.SplitPowers | rstb/rstb-op-polarimetric-tools/src/main/java/org/csa/rstb/polarimetric/gpf/decompositions/Yamaguchi.java:210-216 | the split keeps ps + pd = s + d, and moves the cross-term power from the surface to the double bounce when c0 < 0 and the other way otherwise |
| Yamaguchi.Repair | rstb/rstb-op-polarimetric-tools/src/main/java/org/csa/rstb/polarimetric/gpf/decompositions/Yamaguchi.java:218-228 | surface positive and double-bounce negative: double-bounce becomes 0 and surface span - pv - pc, the volume kept; the mirror case likewise; both negative: both become 0 and the volume span - pc; the total is then the span, and a pair without a negative member is kept unchanged |
| Yamaguchi.FourComponent | rstb/rstb-op-polarimetric-tools/src/main/java/org/csa/rstb/polarimetric/gpf/decompositions/Yamaguchi.java:200-235 | the helix power is kept, and when pv + pc reaches the span all power goes to the volume and helix terms |
| Yamaguchi.Decompose | rstb/rstb-op-polarimetric-tools/src/main/java/org/csa/rstb/polarimetric/gpf/decompositions/Yamaguchi.java:164-238 | the helix power is non-negative: zero exactly on the Freeman-Durden fallback taken when the first volume estimate is not positive, 2 abs(Im T23) on the four-component path |
| Yamaguchi.FallbackIsFreemanDurden | rstb/rstb-op-polarimetric-tools/src/main/java/org/csa/rstb/polarimetric/gpf/decompositions/Yamaguchi.java:193-199 | a non-positive first volume estimate gives the Freeman-Durden powers with no helix power |
| Yamaguchi.FourComponentConservesSpan | rstb/rstb-op-polarimetric-tools/src/main/java/org/csa/rstb/polarimetric/gpf/decompositions/Yamaguchi.java:200-235 | in the four-component branch ps + pd + pv + pc is the span of T3 |
| Yamaguchi.SaturatedBranch | rstb/rstb-op-polarimetric-tools/src/main/java/org/csa/rstb/polarimetric/gpf/decompositions/Yamaguchi.java:230-234 | when pv + pc reaches the span, ps = pd = 0 and pv is the span minus pc |
| Yamaguchi.PixelValue | rstb/rstb-op-polarimetric-tools/src/main/java/org/csa/rstb/polarimetric/gpf/decompositions/Yamaguchi.java:139-157 | red, green, blue and the helix band get pd, pv, ps and pc of the decomposition, each scaled to decibels against the span statistics |
| Yamaguchi.ChannelOf | rstb/rstb-op-polarimetric-tools/src/main/java/org/csa/rstb/polarimetric/gpf/decompositions/Yamaguchi.java:104-113 | a band gets a channel only if its name contains that channel's fragment, and none exactly when it contains none; red, green, blue and helix are tested in that order |
| Yamaguchi.TargetBandsRoute | rstb/rstb-op-polarimetric-tools/src/main/java/org/csa/rstb/polarimetric/gpf/decompositions/Yamaguchi.java:104-113 | each of the four target band names selects exactly its own channel |
| Radarsat2Calibrator.SetExternalAuxFile | rstb/rstb-op-calibration/src/main/java/org/csa/rstb/calibration/Radarsat2Calibrator.java:73-77 | Radarsat-2 calibration accepts no external auxiliary file: it succeeds exactly when none is given |
| Radarsat2Calibrator.CheckMission | rstb/rstb-op-calibration/src/main/java/org/csa/rstb/calibration/Radarsat2Calibrator.java:130-134 | the mission passes exactly when it is RS2; any other mission is rejected with that mission named in the error |
| Radarsat2Calibrator.Initialize | rstb/rstb-op-calibration/src/main/java/org/csa/rstb/calibration/Radarsat2Calibrator.java:89-125 | order of checks: a wrong mission first, then an already calibrated product with complex output, then a missing LUT; success exactly when the mission is RS2, calibrated input is not asked for complex output, and an uncalibrated product has a sigma LUT whose gains cover the width; calibrated input keeps no gains and zero offset, otherwise the LUT's gains and offset are adopted; SLC is detected case-insensitively from the product type |
| Radarsat2Calibrator.GetLut | rstb/rstb-op-calibration/src/main/java/org/csa/rstb/calibration/Radarsat2Calibrator.java:148-166 | a missing lutSigma is "not found"; the LUT is accepted exactly when it has gains at least as long as the scene width, and is then returned unchanged |
| Radarsat2Calibrator.Linearise | rstb/rstb-op-calibration/src/main/java/org/csa/rstb/calibration/Radarsat2Calibrator.java:250-272 | only amplitude, intensity, real and intensity-dB inputs are handled, every other unit is an error; amplitude is squared, intensity passed through, and the I/Q power is non-negative |
| Radarsat2Calibrator.IntensityDbRoundTrip | rstb/rstb-op-calibration/src/main/java/org/csa/rstb/calibration/Radarsat2Calibrator.java:268-269 | converting a positive intensity to dB (10 log10) and back with 10^(dB/10) returns the intensity |
| Radarsat2Calibrator.Power | rstb/rstb-op-calibration/src/main/java/org/csa/rstb/calibration/Radarsat2Calibrator.java:255-257 | the I/Q power bounds each component's square |
| Radarsat2Calibrator.PhaseTerm | rstb/rstb-op-calibration/src/main/java/org/csa/rstb/calibration/Radarsat2Calibrator.java:255-267 | the phase term stays in [-1, 1]; it is 0 for zero power, I/sqrt(power) for a real target, Q/sqrt(power) for an imaginary target, and otherwise keeps the previous pixel's value |
| Radarsat2Calibrator.Normalised | rstb/rstb-op-calibration/src/main/java/org/csa/rstb/calibration/Radarsat2Calibrator.java:259-264 | a component divided by the square root of a power that bounds its square lies in [-1, 1] |
| Radarsat2Calibrator.ComplexOutputKeepsIntensity | rstb/rstb-op-calibration/src/main/java/org/csa/rstb/calibration/Radarsat2Calibrator.java:257-264 | for non-zero power, the complex output sqrt(sigma) times the real and imaginary phase terms has squared magnitude exactly sigma |
| Radarsat2Calibrator.CalibrateLinear | rstb/rstb-op-calibration/src/main/java/org/csa/rstb/calibration/Radarsat2Calibrator.java:274-290 | calibrated input passes through; SLC intensity output times the squared gain gives back the input; detected output times the gain gives back input plus offset; without gains detected output is input plus offset and SLC output keeps the previous value |
| Radarsat2Calibrator.SlcSigma | rstb/rstb-op-calibration/src/main/java/org/csa/rstb/calibration/Radarsat2Calibrator.java:277-283 | SLC calibration divides by the squared gain; complex output multiplies the square root of that by the phase term |
| Radarsat2Calibrator.UnityGainIsIdentity | rstb/rstb-op-calibration/src/main/java/org/csa/rstb/calibration/Radarsat2Calibrator.java:274-290 | with unit gain and zero offset the calibration leaves the pixel unchanged |
| Radarsat2Calibrator.ToDb | rstb/rstb-op-calibration/src/main/java/org/csa/rstb/calibration/Radarsat2Calibrator.java:292-298 | values below the underflow floor become minus the floor, all others 10 log10 of the value |
| Radarsat2Calibrator.ToDbMonotoneAboveFloor | rstb/rstb-op-calibration/src/main/java/org/csa/rstb/calibration/Radarsat2Calibrator.java:292-298 | above a positive floor the dB conversion preserves order |
| Radarsat2Calibrator.CalibratePixel | rstb/rstb-op-calibration/src/main/java/org/csa/rstb/calibration/Radarsat2Calibrator.java:242-302 | one pixel: an unhandled unit is an error exactly for units outside the four handled ones; the phase term changes only for I/Q input; the written value is the calibrated linear value, converted to dB when requested |
| Radarsat2Calibrator.CalibratedInputPassesThrough | rstb/rstb-op-calibration/src/main/java/org/csa/rstb/calibration/Radarsat2Calibrator.java:274-275 | an already calibrated intensity pixel is written unchanged when dB output is off |
| Radarsat2Calibrator.ApplyCalibration | rstb/rstb-op-calibration/src/main/java/org/csa/rstb/calibration/Radarsat2Calibrator.java:305-337 | unknown units are an error exactly outside amplitude, intensity, real, imaginary and intensity dB; the result is the gain-corrected linear value, multiplied by sin of the local incidence angle when the DEM angle is selected |
| Radarsat2Calibrator.GainCorrected | rstb/rstb-op-calibration/src/main/java/org/csa/rstb/calibration/Radarsat2Calibrator.java:321-330 | SLC: result times the squared gain at the truncated range index is the input; detected: result times the gain is input plus offset; no gains: offset added for detected products only |
| Radarsat2Calibrator.ApplyRetroCalibration | rstb/rstb-op-calibration/src/main/java/org/csa/rstb/calibration/Radarsat2Calibrator.java:339-345 | with the DEM incidence angle selected, the result times sin of the angle gives back the input; otherwise the input is returned |
| Radarsat2Calibrator.RetroOfProduct | rstb/rstb-op-calibration/src/main/java/org/csa/rstb/calibration/Radarsat2Calibrator.java:339-345 | retro-calibration divides out exactly the sine factor it is given |
| Radarsat2Calibrator.RetroCalibrationUndoesIncidenceFactor | rstb/rstb-op-calibration/src/main/java/org/csa/rstb/calibration/Radarsat2Calibrator.java:332-345 | retro-calibration after calibration returns the gain-corrected value, i.e. it undoes the incidence-angle factor calibration applied |
| ForestArea.CheckBandUnits | sar-op-feature-extraction/src/main/java/org/esa/s1tbx/fex/gpf/forest/ForestAreaDetectionOp.java:143-153 | both the nominator and the denominator band must be amplitude or intensity bands, linear or dB; the check passes exactly then |
| ForestArea.RowSamples | sar-op-feature-extraction/src/main/java/org/esa/s1tbx/fex/gpf/forest/ForestAreaDetectionOp.java:358-409 | one window row gives at most one sample per pixel (no-data pixels are skipped) |
| ForestArea.Linear | sar-op-feature-extraction/src/main/java/org/esa/s1tbx/fex/gpf/forest/ForestAreaDetectionOp.java:359-411 | amplitude units give non-negative power; a value in dB is first brought back with 10^(v/10) and then treated as the matching linear unit (amplitude squared, intensity kept) |
| ForestArea.BlockSamplesBound | sar-op-feature-extraction/src/main/java/org/esa/s1tbx/fex/gpf/forest/ForestAreaDetectionOp.java:358-409 | a window gives no more samples than it has pixels |
| ForestArea.FullRow | sar-op-feature-extraction/src/main/java/org/esa/s1tbx/fex/gpf/forest/ForestAreaDetectionOp.java:358-409 | a row without no-data pixels gives one sample per pixel |
| ForestArea.FullBlock | sar-op-feature-extraction/src/main/java/org/esa/s1tbx/fex/gpf/forest/ForestAreaDetectionOp.java:358-409 | a window without no-data pixels gives exactly width times height samples |
| ForestArea.CollectRow | sar-op-feature-extraction/src/main/java/org/esa/s1tbx/fex/gpf/forest/ForestAreaDetectionOp.java:361-369 | one pass of the inner sample loop collects, left to right, the converted value of every pixel of the row segment that is not no-data |
| ForestArea.CollectSamples | sar-op-feature-extraction/src/main/java/org/esa/s1tbx/fex/gpf/forest/ForestAreaDetectionOp.java:358-416 | an unknown band unit is an error exactly when the unit is not amplitude/intensity (linear or dB); otherwise the samples are the linearised non-no-data pixels of the block, row by row |
| ForestArea.SampleWindow | sar-op-feature-extraction/src/main/java/org/esa/s1tbx/fex/gpf/forest/ForestAreaDetectionOp.java:348-351 | the sliding window is clipped to the image and still contains its centre pixel |
| ForestArea.WindowSamplesBound | sar-op-feature-extraction/src/main/java/org/esa/s1tbx/fex/gpf/forest/ForestAreaDetectionOp.java:345-418 | the samples of a clipped window are no more than its area |
| ForestArea.SampleWindowArea | sar-op-feature-extraction/src/main/java/org/esa/s1tbx/fex/gpf/forest/ForestAreaDetectionOp.java:306-308 | the clipped window holds at least one and at most windowSize squared pixels, so the samples fit the arrays allocated for them |
| ForestArea.GetSamples | sar-op-feature-extraction/src/main/java/org/esa/s1tbx/fex/gpf/forest/ForestAreaDetectionOp.java:345-418 | corrected sampling: unknown unit is an error exactly for non-power units; otherwise the samples of the whole clipped window, at most windowSize squared of them |
| ForestArea.GetSamplesAsWritten | sar-op-feature-extraction/src/main/java/org/esa/s1tbx/fex/gpf/forest/ForestAreaDetectionOp.java:345-418 | sampling as written: the loops stop one short of the tile's inclusive maximum minus one, so the block sampled is cut at getMaxX() - 1 and getMaxY() - 1 |
| ForestArea.SinglePixelImageAsWritten | sar-op-feature-extraction/src/main/java/org/esa/s1tbx/fex/gpf/forest/ForestAreaDetectionOp.java:356-357 | on a 1x1 image with valid data the as-written sampler finds no sample while the window holds one, so the ratio becomes the nominator's no-data value |
| ForestArea.AsWrittenMissesBorderPixel | sar-op-feature-extraction/src/main/java/org/esa/s1tbx/fex/gpf/forest/ForestAreaDetectionOp.java:356-357 | as written, when the source tile ends at the image border, a valid pixel of the window in one of the last two image columns is not sampled: the as-written sampler returns fewer samples than the window holds |
| ForestArea.GetMeanValue | sar-op-feature-extraction/src/main/java/org/esa/s1tbx/fex/gpf/forest/ForestAreaDetectionOp.java:427-436 | the mean times the sample count is the sum of the first numSamples samples |
| ForestArea.SumBounds | sar-op-feature-extraction/src/main/java/org/esa/s1tbx/fex/gpf/forest/ForestAreaDetectionOp.java:427-436 | a sum of n samples lies between n times a lower and n times an upper bound of the samples |
| ForestArea.MeanBounds | sar-op-feature-extraction/src/main/java/org/esa/s1tbx/fex/gpf/forest/ForestAreaDetectionOp.java:427-436 | the mean lies between any lower and upper bound of the samples |
| ForestArea.Ratio | sar-op-feature-extraction/src/main/java/org/esa/s1tbx/fex/gpf/forest/ForestAreaDetectionOp.java:310-331 | no nominator samples give the nominator's no-data value; no denominator samples or a zero denominator mean give the denominator's no-data value; otherwise the ratio times the denominator mean is the nominator mean |
| ForestArea.ComputeRatio | sar-op-feature-extraction/src/main/java/org/esa/s1tbx/fex/gpf/forest/ForestAreaDetectionOp.java:300-331 | an unknown nominator unit is an error; with both units valid the result is the ratio of the window means, sampled over the whole clamped window (the corrected sampler, see Findings); an unknown denominator unit fails only once the nominator has samples |
| ForestArea.PixelOutput | sar-op-feature-extraction/src/main/java/org/esa/s1tbx/fex/gpf/forest/ForestAreaDetectionOp.java:252-276 | a no-data pixel or a no-data ratio writes 0; otherwise the ratio in dB, floored at 10 log10(EPS) |
| ForestArea.ForestPixel | sar-op-feature-extraction/src/main/java/org/esa/s1tbx/fex/gpf/forest/ForestAreaDetectionOp.java:248-277 | a pixel with no data in either band is 0; otherwise the dB ratio of the window means around it, sampled over the whole clamped window (the corrected sampler, see Findings) |
| AzimuthShift.ComplexArrayMultiplication | sar-op-sentinel1/src/main/java/org/esa/s1tbx/sentinel1/gpf/AzimuthShiftOp.java:796-810 | arrays of different lengths are an error exactly when any of the six lengths differs from the first; otherwise entry i of the output is a[i] times the conjugate of b[i] |
| AzimuthShift.SelfProductIsPower | sar-op-sentinel1/src/main/java/org/esa/s1tbx/sentinel1/gpf/AzimuthShiftOp.java:796-810 | multiplying an array by its own conjugate gives its power, with zero imaginary part |
| AzimuthShift.SwappedProductIsConjugate | sar-op-sentinel1/src/main/java/org/esa/s1tbx/sentinel1/gpf/AzimuthShiftOp.java:796-810 | swapping the operands conjugates every product, and each product's power is the product of the two powers |
| AzimuthShift.HalfLength | sar-op-sentinel1/src/main/java/org/esa/s1tbx/sentinel1/gpf/AzimuthShiftOp.java:829 | half the signal length is rounded up, (n + 1) / 2 |
| AzimuthShift.ShiftFrequencyRange | sar-op-sentinel1/src/main/java/org/esa/s1tbx/sentinel1/gpf/AzimuthShiftOp.java:831-836 | sample k uses frequency k below half the length and k - n above, so the frequencies run from -(n/2) to ceil(n/2) - 1 |
| AzimuthShift.ShiftFrequencyOnto | sar-op-sentinel1/src/main/java/org/esa/s1tbx/sentinel1/gpf/AzimuthShiftOp.java:831-836 | every frequency in that range is used by exactly one sample |
| AzimuthShift.ShiftPhaseArray | sar-op-sentinel1/src/main/java/org/esa/s1tbx/sentinel1/gpf/AzimuthShiftOp.java:824-841 | the phase array interleaves cos and sin of -2 pi shift f / n for each sample's frequency f, two entries per sample |
| AzimuthShift.PhaseEntryIsUnit | sar-op-sentinel1/src/main/java/org/esa/s1tbx/sentinel1/gpf/AzimuthShiftOp.java:837-839 | every phase factor has unit magnitude |
| AzimuthShift.ShiftSpectrum | sar-op-sentinel1/src/main/java/org/esa/s1tbx/sentinel1/gpf/AzimuthShiftOp.java:843-858 | each complex entry of the spectrum is multiplied by the matching phase factor; the length is kept and an odd trailing value is left alone |
| AzimuthShift.ShiftKeepsPower | sar-op-sentinel1/src/main/java/org/esa/s1tbx/sentinel1/gpf/AzimuthShiftOp.java:824-858 | shifting the spectrum keeps the power of every entry |
| AzimuthShift.ZeroShiftIsIdentity | sar-op-sentinel1/src/main/java/org/esa/s1tbx/sentinel1/gpf/AzimuthShiftOp.java:824-858 | a zero shift leaves the spectrum unchanged |
| AzimuthShift.FirstListed | sar-op-sentinel1/src/main/java/org/esa/s1tbx/sentinel1/gpf/AzimuthShiftOp.java:547-555 | the first entry that is not -1, or -1 exactly when every entry is -1 |
| AzimuthShift.BurstFirstValidPixel | sar-op-sentinel1/src/main/java/org/esa/s1tbx/sentinel1/gpf/AzimuthShiftOp.java:547-555 | a burst's first valid pixel is -1 exactly when no line lists one |
| AzimuthShift.BurstLastValidPixel | sar-op-sentinel1/src/main/java/org/esa/s1tbx/sentinel1/gpf/AzimuthShiftOp.java:557-565 | a burst's last valid pixel is -1 exactly when no line lists one |
| AzimuthShift.BurstOverlapSize | sar-op-sentinel1/src/main/java/org/esa/s1tbx/sentinel1/gpf/AzimuthShiftOp.java:655-660 | the overlap in lines is the time gap over the line interval truncated toward zero, never larger in magnitude |
| AzimuthShift.OverlappedRectangles | sar-op-sentinel1/src/main/java/org/esa/s1tbx/sentinel1/gpf/AzimuthShiftOp.java:515-545 | both overlap rectangles start at the larger first valid pixel and end at the smaller last valid pixel; the first ends at burst i's last valid line, the second starts at burst i+1's first valid line, and the height drops the invalid lines of both bursts |
| AzimuthShift.OverlapRectanglesAreOneOverlapApart | sar-op-sentinel1/src/main/java/org/esa/s1tbx/sentinel1/gpf/AzimuthShiftOp.java:515-545 | the two rectangles lie exactly one overlap size apart in lines, in the same columns |
| AzimuthShift.BlockRectangle | sar-op-sentinel1/src/main/java/org/esa/s1tbx/sentinel1/gpf/AzimuthShiftOp.java:432-449 | block j has the overlap's height and row and a width of the overlap width over the block count |
| AzimuthShift.BlocksTileOverlap | sar-op-sentinel1/src/main/java/org/esa/s1tbx/sentinel1/gpf/AzimuthShiftOp.java:432-449 | consecutive blocks abut and every block lies inside the overlap rectangle |
| AzimuthShift.BlockCoherence | sar-op-sentinel1/src/main/java/org/esa/s1tbx/sentinel1/gpf/AzimuthShiftOp.java:567-578 | the block's flat array holds, at row r and column c, the coherence of row r and column blockIndex * width + c |
| AzimuthShift.CellIndex | sar-op-sentinel1/src/main/java/org/esa/s1tbx/sentinel1/gpf/AzimuthShiftOp.java:573-575 | the row and column recovered from a flat index are the ones it was built from |
| AzimuthShift.Coherence | sar-op-sentinel1/src/main/java/org/esa/s1tbx/sentinel1/gpf/AzimuthShiftOp.java:929-936 | no samples or a zero master or slave power give coherence 0 |
| AzimuthShift.CoherenceIsRootOfRatio | sar-op-sentinel1/src/main/java/org/esa/s1tbx/sentinel1/gpf/AzimuthShiftOp.java:929-936 | otherwise the coherence is the square root of the normalised cross power |
| AzimuthShift.MeanRatioIgnoresCount | sar-op-sentinel1/src/main/java/org/esa/s1tbx/sentinel1/gpf/AzimuthShiftOp.java:930-935 | dividing every sum by the count does not change the normalised cross power |
| AzimuthShift.PixelPowerMatrix | sar-op-sentinel1/src/main/java/org/esa/s1tbx/sentinel1/gpf/AzimuthShiftOp.java:900-903 | each pixel's cross and powers form a power matrix |
| AzimuthShift.RowSumPowerMatrix | sar-op-sentinel1/src/main/java/org/esa/s1tbx/sentinel1/gpf/AzimuthShiftOp.java:918-927 | sums of power matrices along a row stay power matrices |
| AzimuthShift.BlockSumPowerMatrix | sar-op-sentinel1/src/main/java/org/esa/s1tbx/sentinel1/gpf/AzimuthShiftOp.java:918-927 | sums over a block of rows stay power matrices |
| AzimuthShift.WindowSumPowerMatrix | sar-op-sentinel1/src/main/java/org/esa/s1tbx/sentinel1/gpf/AzimuthShiftOp.java:918-927 | the window sum of the pixel terms is a power matrix |
| AzimuthShift.PowerRatioInUnitInterval | sar-op-sentinel1/src/main/java/org/esa/s1tbx/sentinel1/gpf/AzimuthShiftOp.java:929-936 | the normalised cross power of a power matrix lies in [0, 1] |
| AzimuthShift.CoherenceBounds | sar-op-sentinel1/src/main/java/org/esa/s1tbx/sentinel1/gpf/AzimuthShiftOp.java:929-936 | the coherence lies in [0, 1] and its square is the normalised cross power |
| AzimuthShift.SinglePixelIsCoherent | sar-op-sentinel1/src/main/java/org/esa/s1tbx/sentinel1/gpf/AzimuthShiftOp.java:900-936 | a window of one pixel with non-zero master and slave has coherence 1 |
| AzimuthShift.CoherenceWindow | sar-op-sentinel1/src/main/java/org/esa/s1tbx/sentinel1/gpf/AzimuthShiftOp.java:912-915 | the coherence window is clipped to the rectangle, contains its centre, and holds between 1 and cohWin squared pixels |
| AzimuthShift.WindowCoherence | sar-op-sentinel1/src/main/java/org/esa/s1tbx/sentinel1/gpf/AzimuthShiftOp.java:907-936 | the coherence of a window is 0 in the degenerate cases and otherwise in [0, 1] and the root of the normalised cross power |
| AzimuthShift.CoherenceAt | sar-op-sentinel1/src/main/java/org/esa/s1tbx/sentinel1/gpf/AzimuthShiftOp.java:907-936 | the coherence written for one pixel satisfies those facts for its clipped window |
| AzimuthShift.SumOverlap | sar-op-sentinel1/src/main/java/org/esa/s1tbx/sentinel1/gpf/AzimuthShiftOp.java:472-477 | the sum over all estimates tagged with overlap i |
| AzimuthShift.OverlapsPartitionShifts | sar-op-sentinel1/src/main/java/org/esa/s1tbx/sentinel1/gpf/AzimuthShiftOp.java:469-482 | when every estimate belongs to some overlap, the per-overlap sums add up to the sum of all shifts |
| AzimuthShift.SumOfAverages | sar-op-sentinel1/src/main/java/org/esa/s1tbx/sentinel1/gpf/AzimuthShiftOp.java:469-482 | the per-overlap averages add up to the total of the per-overlap sums over the block count |
| AzimuthShift.OffsetIsMeanOfAverages | sar-op-sentinel1/src/main/java/org/esa/s1tbx/sentinel1/gpf/AzimuthShiftOp.java:469-484 | minus the total over the number of shifts equals minus the mean of the per-overlap averages |
| AzimuthShift.AverageShifts | sar-op-sentinel1/src/main/java/org/esa/s1tbx/sentinel1/gpf/AzimuthShiftOp.java:469-484 | one average per overlap, each its sum over the block count; the offset is minus the mean of the averages and, when every estimate belongs to an overlap, minus the mean of all shifts |
| AzimuthShift.EstimateOnce | sar-op-sentinel1/src/main/java/org/esa/s1tbx/sentinel1/gpf/AzimuthShiftOp.java:397-401 | once an offset is available nothing is recomputed; otherwise a successful estimate is stored and marks the offset available |
| AzimuthShift.EstimateIsOneShot | sar-op-sentinel1/src/main/java/org/esa/s1tbx/sentinel1/gpf/AzimuthShiftOp.java:397-401 | estimating a second time returns the state of the first estimate |
| BandSelect.AddSelectedBands | sar-op-utilities/src/main/java/org/esa/s1tbx/utilities/gpf/BandSelectOp.java:91-134 | the invalid-pattern error exactly when the pattern is non-empty, the regular-expression compiler refuses it and some source band passes the polarisation filter (the compile is reached for that band); apart from that case, an error ("No valid bands") exactly when no source band passes the polarisation and name filters; otherwise the selected bands, without duplicate names, each one a source band that passes both filters |
| BandSelect.SelectEmptyIffNoneKept | sar-op-utilities/src/main/java/org/esa/s1tbx/utilities/gpf/BandSelectOp.java:94-133 | the selection is empty exactly when no source band passes the filters |
| BandSelect.SelectSound | sar-op-utilities/src/main/java/org/esa/s1tbx/utilities/gpf/BandSelectOp.java:94-128 | every selected band is an unchanged source band (virtual bands stay virtual) that passes both filters |
| BandSelect.SelectComplete | sar-op-utilities/src/main/java/org/esa/s1tbx/utilities/gpf/BandSelectOp.java:94-128 | every source band that passes the filters has its name among the selected bands |
| BandSelect.SelectNoDuplicates | sar-op-utilities/src/main/java/org/esa/s1tbx/utilities/gpf/BandSelectOp.java:120-122 | no two selected bands share a name |
| BandSelect.SelectKeepsOrder | sar-op-utilities/src/main/java/org/esa/s1tbx/utilities/gpf/BandSelectOp.java:94-128 | the selected bands appear in source order |
| BandSelect.NamesAppend | sar-op-utilities/src/main/java/org/esa/s1tbx/utilities/gpf/BandSelectOp.java:120-128 | adding a band adds exactly its name to the target's names |
| RadarsatReader.CheckProductQualification | rstb/rstb-io/src/main/java/org/csa/rstb/io/radarsat1/RadarsatProductReaderPlugIn.java:44-54 | a Radarsat-1 ZIP (R1_ or RS1_ prefix, .ZIP suffix, any case) is INTENDED; otherwise a volume file gets the reader's own answer; anything else is UNABLE |
| RadarsatReader.QualificationIgnoresCase | rstb/rstb-io/src/main/java/org/csa/rstb/io/radarsat1/RadarsatProductReaderPlugIn.java:45 | lower- or upper-casing the file name does not change the answer |
| RadarsatReader.IntendedExactly | rstb/rstb-io/src/main/java/org/csa/rstb/io/radarsat1/RadarsatProductReaderPlugIn.java:44-54 | a name is INTENDED exactly when it is a Radarsat-1 ZIP or a volume file the reader calls INTENDED |
| RadarsatReader.LowerCaseZipExample | rstb/rstb-io/src/main/java/org/csa/rstb/io/radarsat1/RadarsatProductReaderPlugIn.java:45-48 | "rs1_a.zip" is INTENDED |
| RadarsatReader.Radarsat2ZipExample | rstb/rstb-io/src/main/java/org/csa/rstb/io/radarsat1/RadarsatProductReaderPlugIn.java:45-53 | "r2_a.zip", not a volume file, is UNABLE |

## Left out

- Floating-point semantics: IEEE rounding, NaN, infinities and the `(float)` narrowing of the values written to float target bands are not modelled; numbers are reals.
- Tile fetching and writing (`getSourceTile`, `Tile`, `TileIndex`), target product and band creation, metadata reading and writing (`updateTargetMetadata`, the `save*` methods of the azimuth-shift operator) and operator registration are framework I/O; images are modelled as sequences of rows.
- Threads and `synchronized`: the one-shot flags of the span statistics and of the azimuth-offset estimate are modelled sequentially.
- The FFT calls (JTransforms) of the azimuth-shift tile computation, `estimateAzOffsets` (AzimuthShiftOp.java:662-794, FFT and `atan2` of the spectral cross product) and `computeSpectralSeparation` (AzimuthShiftOp.java:500-513, burst metadata) are not modelled; the block estimates enter the averaging as data.
- Helpers in files not part of this model (`c3ToT3`, `getCovarianceMatrixC3`/`T3`, `getComplexScatterMatrix`, `getMeanCovarianceMatrix`, `isNoData`, `scaleDb`, `computeSpanMinMax`, `PolBandUtils`, `OperatorUtils`, `FilterWindow`, `Sentinel1Utils`) are parameters or given matrices; `matrixPlusEquals` and `matrixTimesEquals` are entry-wise `+` and scaling.
- The speckle filters themselves (box car, IDAN, refined Lee, Lee sigma, non-local) are classes not part of this model; only which filter is built, with which window, is modelled.
- `OperatorUtils.catchOperatorException` is taken to rethrow, so every `OperatorException` is an `Err` result.
- The volume-file branch of the Radarsat-1 plug-in reads the file; its answer is a parameter.
- BandSelect.AddSelectedBands: a band whose name yields no polarisation (a null in the source, which would throw) is not modelled; the polarisation of a band name is a total parameter. The target product is taken to start without bands.
- ForestArea.PixelOutput and ForestArea.ForestPixel: the no-data tests use `Double.equals`, which differs from `==` for NaN and signed zeros; with reals they are plain equality.
- AzimuthShift.CoherenceAt: the window sums are accumulated in `float` in the source; the model sums exactly.
- AzimuthShift.BurstOverlapSize: the contract bounds the truncated line count by the exact quotient instead of restating Java's truncation.
- Radarsat2Calibrator.CalibrateLinear: the SLC complex-output value is stated by Radarsat2Calibrator.SlcSigma rather than in this contract.
- FreemanDurden.ColourOf and Yamaguchi.ChannelOf: a target band whose name matches none of the expected names leaves the source's target info null, and the tile computation then throws; the model answers `None` for such a name and writes nothing.
- SpeckleFilter: the declared value set of the `filter` parameter (PolarimetricSpeckleFilterOp.java:57) omits "Non Local Filter" while `SetFilter` accepts it; the model follows `SetFilter`.

## Findings

| source | as written | input that shows it | evidently intended | confidence | as-written member | corrected member |
|---|---|---|---|---|---|---|
| sar-op-feature-extraction/src/main/java/org/esa/s1tbx/fex/gpf/forest/ForestAreaDetectionOp.java:356-357 | the sample loops run while `x < min(x0 + w, tile.getMaxX() - 1)` and `y < min(y0 + h, tile.getMaxY() - 1)`, but `getMaxX()`/`getMaxY()` are inclusive, so the last two columns and rows of a tile are never sampled | a 1x1 image with one valid pixel: the window holds that pixel but no sample is taken, so the ratio is the nominator's no-data value and 0 is written | sample the whole clamped window, `x < x0 + w` and `y < y0 + h` | medium, not executed | ForestArea.GetSamplesAsWritten (with ForestArea.SinglePixelImageAsWritten and ForestArea.AsWrittenMissesBorderPixel) | ForestArea.GetSamples, which ForestArea.ComputeRatio and ForestArea.ForestPixel use |
