# Topography cross-section: a Dafny model of the pipeline core

The application is a small Streamlit page. A user uploads an elevation raster
(a GeoTIFF) and types the easting and northing of two points. The page then shows
the elevation profile along the straight line between the points and offers that
profile as a DXF polyline. `Main.py` and `Topo_Xsection.py` are the same script,
line for line. One model serves both, and every `Main.py:N` citation below holds
for `Topo_Xsection.py:N` too.

This project models the deterministic part of that script:

- **Input gate** (`InputGate`, `Digits`). The page runs only when a file is
  uploaded and all four fields are non-empty. Each field then goes through
  `float()`. Every field that fails is reported on its own, and none is skipped.
  When all four parse, the integer-part digit count `len(str(int(abs(v))))` of each
  value must be the same for all four. Otherwise the run stops before the raster
  is opened. The rule compares eastings with northings, so two points that
  straddle a power of ten are refused (`PowerOfTenBoundaryRejected`).
- **Pixel rounding** (`Pixels`). Python's `round` rounds half to even. It is
  applied to the row and the column separately.
- **Profile sampling** (`Profile.Sample`). This models `dem_data[rr, cc]` along the
  drawn line, using NumPy's indexing rule. An index in `[-n, -1]` counts from the
  end. Any index outside `[-n, n)` raises, which fails the whole run.
- **Export points** (`Profile.ExportPoints`). These are `enumerate` of the profile.
- **Orchestration** (`CrossSection.Run`). This is a `Result`: entry condition,
  parse, digit check, raster read, pixel rounding, line, sample, export. The
  first failure ends the run.

Three foreign collaborators become function-typed parameters:

- `parse` is Python's `float()` on a string.
- `rowcol` comes with the uploaded raster. It is rasterio's geographic-to-pixel map.
  By default rasterio floors inside `rowcol` and hands back integers, so the `round`
  at lines 102-103 is then the identity (`Pixels.ToPixelIntegral`) and the pixel rule
  the program applies in practice is floor. The model lets `rowcol` return any pair of
  reals and rounds each one half to even, as Python's `round` does.
- `line` is `skimage.draw.line`.

The endpoint behaviour of `line` (its path starts at the first pixel and ends at the
second) is not verified. It is the explicit hypothesis `CrossSection.Joins`, and only
`EndpointsSampled` relies on it.

Facts about the program that the model keeps:

- NumPy wraps pixel indices `-1 ... -n`, so a pixel just past the top or left edge
  reads the opposite edge instead of failing (`NegativeIndexWraps`). Only indices at or
  beyond the extent, or below `-n`, make the run fail.
- The program draws the line with scikit-image; the repository contains no rasterizer
  of its own, so the model keeps the line abstract.
- The temporary files are deleted only at the end of the success path (lines 135-136).

## Model

| member | source | states |
|---|---|---|
| InputGate.AllProvided | Main.py:60 | the entry test `all([...])` over the four strings holds exactly when no field is the empty string |
| InputGate.ParseCoordinates | Main.py:27-32 | all four fields are parsed; the result is a value exactly when every `float()` succeeds, carrying each parsed value; otherwise it names exactly the failing fields, each once, in field order |
| Digits.DecimalString | Main.py:70 | `str` of a non-negative int is non-empty, all digits, without a leading zero, and `"0"` for zero |
| Digits.ValueOfDecimalString | Main.py:70 | reading the decimal rendering back gives the number (the rendering is faithful) |
| Digits.DecimalStringLength | Main.py:70 | the length of the rendering of n is the k with 10^(k-1) <= n < 10^k (k = 1 for n < 10) |
| Digits.DigitCountUnique | Main.py:70 | that power-of-ten band determines the digit count uniquely |
| Digits.IntegerPart | Main.py:70 | `int(abs(v))` is the natural number n with n <= abs(v) < n + 1 |
| Digits.IntegerDigits | Main.py:69-70 | the digit count is at least 1 and is the power-of-ten band of floor(abs(v)) |
| Digits.IntegerDigitsIgnoresSign | Main.py:70 | digits(-v) = digits(v) |
| Digits.IntegerDigitsIgnoresFraction | Main.py:70 | digits(v) = digits(floor(abs(v))) |
| Digits.IntegerDigitsBand | Main.py:70 | digits(v) = k exactly when floor(abs(v)) lies in the k-digit band |
| Digits.IntegerDigitsExamples | Main.py:69-70 | 0.7 has 1 digit; 12.9 and 12.0 have 2; -100.1 has 3 |
| InputGate.DigitsAgree | Main.py:72-77 | the chained comparison holds exactly when every pair of the four digit counts is equal |
| InputGate.DigitsAgreeExamples | Main.py:72-77 | (12.5, 7.3, 100.1, 8.9) is refused; (12.5, 34.2, 56.7, 78.9) passes |
| InputGate.PowerOfTenBoundaryRejected | Main.py:77 | 9.5 next to 10.5 is refused because the digit counts differ |
| Pixels.RoundHalfEven | Main.py:102-103 | the result is within 1/2 of x, and even when x is exactly halfway between two integers |
| Pixels.HalfEvenRoundingUnique | Main.py:102-103 | any integer meeting that rule is the result, so the rounding is fully determined |
| Pixels.RoundIntegral | Main.py:102-103 | rounding is the identity on integral values |
| Pixels.RoundHalfEvenExamples | Main.py:102-103 | 2.5 gives 2, 3.5 gives 4, -0.5 gives 0, -1.5 gives -2, 2.4 gives 2, 2.6 gives 3 |
| Pixels.ToPixel | Main.py:102-103 | row and column are each rounded half-to-even, independently |
| Pixels.ToPixelIntegral | Main.py:98-103 | an integral (row, col) from `rowcol` is kept as the pixel unchanged |
| Profile.PyIndex | Main.py:47 | an index is accepted exactly when it lies in [-n, n), and it then selects position i mod n |
| Profile.Cell | Main.py:47 | a pixel reads a value exactly when its row is in range for the height and its column for the width under that rule, and the value is the cell at the wrapped indices |
| Profile.Sample | Main.py:45-47 | the sample succeeds exactly when every path pixel can be indexed; it then has one value per pixel, with profile[i] the cell at path[i], in path order; otherwise it fails at the first pixel that cannot be indexed |
| Profile.NegativeIndexWraps | Main.py:47 | row -k reads row n-k rather than failing |
| Profile.OutOfRangeFails | Main.py:47 | a path pixel whose row is at or beyond the height or below -height, or whose column is at or beyond the width or below -width, fails the sample |
| Profile.FlatGridProfile | Main.py:45-47 | a flat raster sampled along an indexable path gives a flat profile of the path's length |
| Profile.FlatRasterScenario | Main.py:109-117 | a 10x10 raster of 100.0 sampled along row 0 gives ten 100.0 values and the points (0, 100.0) ... (9, 100.0) |
| Profile.EnumerateFrom | Main.py:117 | `enumerate` pairs each value with its running index: r[i] = (start + i, values[i]), same length |
| Profile.ExportPoints | Main.py:117 | points[i] = (i, profile[i]) for every i, with the same length as the profile |
| Profile.ExportPointsRoundTrip | Main.py:117 | the points' y-values are the profile again; the x-values strictly ascend from 0 to n-1 |
| CrossSection.LengthSquared | Main.py:79 | the squared section length is non-negative |
| CrossSection.LengthSquaredSymmetric | Main.py:79 | swapping start and end leaves the section length unchanged |
| CrossSection.LengthSquaredExample | Main.py:79 | from (0, 0) to (3, 4) the squared length is 25 (length 5) |
| CrossSection.Validate | Main.py:60-77 | the gate passes exactly when a file is uploaded, all fields are provided, all parse, and the digit counts agree; the values passed on are the parsed ones |
| CrossSection.Process | Main.py:87-139 | an unreadable raster fails with that error; a success read a raster and has both pixels rounded from `rowcol`, the drawn line, one sample per path pixel, and the enumerated points |
| CrossSection.Run | Main.py:60-146 | a run succeeds only with an upload and all four fields, and then profile, path and points have equal length |
| CrossSection.MissingInputsStopRun | Main.py:142-146 | without an upload or with an empty field, the run stops; "upload" appears exactly when the file is missing, "inputs" exactly when a field is empty, and nothing else appears |
| CrossSection.UnparsableFieldsReported | Main.py:62-67 | every unparsable field is reported by name, in field order, and only those |
| CrossSection.DigitGate | Main.py:72-77 | after a full parse, the run ends with the digit-count error exactly when the counts disagree |
| CrossSection.RefusalIgnoresRaster | Main.py:140-141 | a run refused by the gate has the same outcome for any uploaded raster and carries no processing error |
| CrossSection.SuccessfulRun | Main.py:98-117 | a successful report is the pipeline applied to the parsed values: rounded endpoints, `line` between them, the sample of that path, and its enumeration |
| CrossSection.SampledOrFailed | Main.py:109-139 | past the gate, a readable raster yields a report exactly when every pixel of the drawn line is indexable; otherwise the run fails naming the first pixel that cannot be indexed, with no profile or points |
| CrossSection.EndpointsSampled | Main.py:46-47 | if the line joins its endpoints: a profile starts and ends with the endpoint cells, and an endpoint outside the raster fails the run |

## Left out

- Streamlit UI (titles, widgets, `st.info`/`st.error` text, the download button). It is presentation only. The messages are the constructors of `CrossSection.Message`.
- rasterio (`open`, `read(1)`, `transform`, `rowcol`). This is foreign code. The raster is a `Grid` plus a `rowcol` function. The affine inverse is not modelled, and neither is rasterio's default flooring inside `rowcol` (`Pixels.ToPixelIntegral` covers integral results).
- `skimage.draw.line`. This is foreign code and the repository contains no rasterizer. It is the `line` parameter. Its endpoint behaviour is the unverified hypothesis `CrossSection.Joins`.
- matplotlib plotting (`plot_dem`, `plot_cross_section`) and ezdxf (R2010 document, `cross_section` layer, `saveas`). These are rendering and serialisation through foreign libraries. A failure while writing the DXF would be caught at line 138, but it is not modelled.
- Temporary files and `os.unlink`. This is I/O. Cleanup at lines 135-136 happens only on the success path. A failure in `rasterio.open` or the index error at line 109 happens before the .dxf file exists (lines 121-123), so only the .tif file leaks; a failure after line 121 leaks both.
- CrossSection.LengthSquared: states the square of the section length and not `np.sqrt` of it (line 79), because the square root is floating-point work. The formatting to two decimals is left out too.
- Python `float()` grammar (exponents, underscores, whitespace, `inf`, `nan`). It is the `parse` parameter, which yields finite reals. So the crash where `inf` or `nan` passes line 29 and then `int()` raises at line 70, outside the `try`, is not modelled.
- CrossSection.Run: does not model the `OverflowError` that Python raises at line 79 when a coordinate difference exceeds about 1.34e154 and its square overflows a float. Line 79 is outside the `try`, so the script aborts there, after the gate and before the raster is read; the model works over unbounded reals and goes on. For example, start (-2e154, -2e154) and end (2e154, 2e154) pass the gate with 155 integer digits each.
- CrossSection.Run: the failure value holds only the message that ends the run. Output already shown by then is not part of it: the section length (line 80), the raster plot (line 94) and the two pixels (lines 105-106).
- CrossSection.Process: an index error carries the first path pixel that cannot be indexed. NumPy's message names an index and an axis instead, and its wording is not modelled.
- Non-finite results from `rowcol`, where `round` would raise, are not modelled. The `rowcol` parameter returns reals.
