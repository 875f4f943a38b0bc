# ADM (Additive Detail Measure) of `vf_adm.c`, modelled in Dafny

The `adm` video filter scores a distorted ("main") luma plane against a reference ("ref") plane. It works in
fixed-point arithmetic over `int16_t` buffers and runs over four wavelet scales. Each scale runs these steps in order:

1. A 4-tap Daubechies db2 wavelet transform of both planes.
2. The decoupling of the distorted detail bands into a *restored* part and an *additive impairment*.
3. A contrast-sensitivity multiply (CSF).
4. Contrast masking of the restored detail by a threshold derived from the impairment.
5. Two border-cropped cube-root sums: a numerator over the masked restored bands and a denominator over the reference bands.
6. The approximation bands are copied forward as the next scale's input.

After the fourth scale, both totals pass a noise floor and their ratio is the frame score. The filter state counts the
frames and keeps the running sum of their scores. At teardown it returns the mean.

The model follows the C code step by step:

- `data_buf` is one `array<Int16>`, carved into 35 tiles of `buf_sz` bytes.
- Every view into it is an (offset, stride) pair counted in `int16` elements.
- `temp_lo` and `temp_hi` are two more arrays.
- Each C routine is a method with the same loops.
- Each method is proved equal to a specification function. That function states the routine as the sequence of stores the
  C loops perform, so it stays exact when views overlap. This matters because, at scales 1-3, the transform reads
  `s->height` rows of `s->width` samples at `buf_stride` from `ref_scale`. That region can run into the band it is writing: it
  does for even heights with `buf_stride / 2 < width`, for instance 1920 x 1080 (`RefSourceReadsApprox`).
- Lemmas then give those functions their meaning: which cells are written, with which values, and which are kept.

Modules (one file each):

- `arith.dfy` (`AdmArith`): `int16_t`, the `>> 15` shift, mirror reflection, `ALIGN_CEIL`, an exact `ceil(cbrt(.))`.
- `pixel.dfy` (`AdmPixel`): per-pixel arithmetic, namely the filter taps, the decoupling decision, the CSF factor,
  the masking subtraction, `get_cube` and the border.
- `grid.dfy` (`AdmGrid`): views, and the raster walk shared by `adm_decouple`, `adm_csf`, `adm_cm`, the row clear of
  `adm_cm_thresh` and `adm_buffer_copy`, with its frame and value lemmas.
- `wavelet.dfy` (`AdmWavelet`): `adm_dwt2_8bit/10bit/32bit`.
- `layout.dfy` (`AdmLayout`): `buf_stride`, `buf_sz`, `init_dwt_band` and the carving of the arena.
- `stages.dfy` (`AdmStages`): `adm_decouple`, `adm_csf`, `adm_cm_thresh`, `adm_cm`, `adm_buffer_copy` and `adm_sum_cube`
  on the arena.
- `pipeline.dfy` (`AdmPipeline`): `ff_adm_process`, namely the scale loop, the scores, the noise floor and the ratio.
- `driver.dfy` (`AdmDriver`): `ADMData` with `ff_adm_init`, the scoring part of `do_adm` and `ff_adm_uninit`.

`adm_cm_thresh` forms its weights as `lrint(1.0 / 15.0) * (1 << 15)` and `lrint(1.0 / 30.0) * (1 << 15)`. Both
`lrint` calls round to 0 before the `* (1 << 15)`, so every threshold weight is 0. Every threshold is then 0 and masking
reduces to the magnitude (`CmFilterCoeffIsZero`, `ThreshSumIsZero`, `CmZeroThreshold`).

## Model

| member | source | states |
|---|---|---|
| AdmArith.ToInt16 | libavfilter/vf_adm.c:356-357 | storing an int into an `int16_t` keeps every value in range and otherwise wraps modulo 2^16 |
| AdmArith.Shr15 | libavfilter/vf_adm.c:356-357 | `x >> BIT_SHIFT` is the r with r * 2^15 <= x < (r + 1) * 2^15 (arithmetic shift) |
| AdmArith.Reflect | libavfilter/vf_adm.c:343-348 | the reflected index is in [0, n) for taps one step outside (n >= 1) or two above (n >= 2); in-range indices are unchanged |
| AdmArith.DwtTapsInRange | libavfilter/vf_adm.c:343-348 | every wavelet tap 2k - 1 + t, k < (n + 1) / 2, t < 4, reflects into [0, n) once n >= 2 |
| AdmArith.DwtTapOutOfRangeForOne | libavfilter/vf_adm.c:343-348 | with n = 1 the last tap of output row 0 reflects to -1, outside the buffer |
| AdmArith.ThreshTapsInRange | libavfilter/vf_adm.c:258-267 | every 3 x 3 threshold tap i - 1 + t reflects into [0, n) for n >= 1 |
| AdmArith.AlignCeil | libavfilter/vf_adm.c:101 | `ALIGN_CEIL(x)` is a multiple of 32 in [x, x + 32) |
| AdmArith.Ceil | libavfilter/vf_adm.c:185-191 | `ceil` returns the integer r with r - 1 < x <= r |
| AdmArith.CeilCbrt | libavfilter/vf_adm.c:129 | `ceil(cbrt(num / den))` is the least integer r with den * r^3 >= num |
| AdmArith.CeilCbrtOfCube | libavfilter/vf_adm.c:129 | the cube root of an exact cube m^3 is m |
| AdmArith.CeilCbrtMonotone | libavfilter/vf_adm.c:129 | `ceil(cbrt(.))` never decreases as its argument grows |
| AdmPixel.HighPassIsQuadratureMirror | libavfilter/vf_adm.c:54-61 | the Q15 high-pass filter is the low-pass filter reversed with alternating signs |
| AdmPixel.TapsFitInt32 | libavfilter/vf_adm.c:339-354 | a 4-tap sum of either filter over int16-sized samples stays inside the `int` accumulator |
| AdmPixel.WideTapsFitInt32 | libavfilter/vf_adm.c:339-354 | a 4-tap sum of either filter over `uint16_t` samples up to 42455 stays inside the `int` accumulator |
| AdmPixel.WideTapsOverflow | libavfilter/vf_adm.c:339-354 | on three equal samples x the low-pass sum fits `int` exactly when x <= 42455, so larger `uint16_t` samples overflow it |
| AdmPixel.AngleFlag | libavfilter/vf_adm.c:172-175 | the 1-degree angle test passes when either vector is zero, passing implies a non-negative dot product, and opposite vectors pass only when they are zero |
| AdmPixel.AngleSumsFitInt32 | libavfilter/vf_adm.c:172-174 | the `int` sums of the angle test fit `int32_t` except at one corner: each squared magnitude overflows exactly when both components of its vector are -32768, and the dot product exactly when all four are |
| AdmPixel.Clamp01 | libavfilter/vf_adm.c:164-166 | the clamped gain lies in [0, 1] |
| AdmPixel.CandidateIsInteger | libavfilter/vf_adm.c:160-170 | the clamped-gain product k * o is exactly an integer: 0 when o is 0 or the signs differ, o when the distorted value is larger in magnitude, and the distorted value otherwise, so `ceil` returns it unchanged |
| AdmPixel.Restored | libavfilter/vf_adm.c:179-187 | the restored value equals the distorted one when the angle test passes, and otherwise lies between 0 and the reference value |
| AdmPixel.Impairment | libavfilter/vf_adm.c:189-191 | the impairment is the distorted value minus the restored value |
| AdmPixel.DecouplePixel | libavfilter/vf_adm.c:153-191 | in each of the three orientations the restored value plus the impairment is the distorted value |
| AdmPixel.DecoupleAngleOverride | libavfilter/vf_adm.c:176-183 | when the (h, v) angle test passes, all three orientations are restored to the distorted value and carry no impairment |
| AdmPixel.DecoupleGainBounds | libavfilter/vf_adm.c:160-191 | without the angle override each restored value lies between 0 and the reference; restored + impairment is always the distorted value |
| AdmPixel.DecoupleRestoredCases | libavfilter/vf_adm.c:160-187 | without the override the restored value is exactly the integer case analysis of the clamped gain |
| AdmPixel.DecoupleIdentity | libavfilter/vf_adm.c:172-191 | identical reference and distorted pixels are restored entirely, with zero impairment |
| AdmPixel.RFactorTable | libavfilter/vf_adm.c:209-211 | every visibility factor is a Q15 fraction in [0, 2^15) |
| AdmPixel.RFactor | libavfilter/vf_adm.c:209-211 | orientation theta takes the class-0 factor for h and v and the class-1 factor for d, and is below 2^15 |
| AdmPixel.RFactorSharing | libavfilter/vf_adm.c:209-211 | h and v share one factor per scale, and d has its own |
| AdmPixel.CsfValue | libavfilter/vf_adm.c:221-222 | `(f * x) >> 15` keeps the sign of x, never grows in magnitude, and maps 0 to 0 |
| AdmPixel.Lrint | libavfilter/vf_adm.c:255-256 | `lrint` returns an integer within 0.5 of its argument |
| AdmPixel.CmFilterCoeffIsZero | libavfilter/vf_adm.c:255-256 | rounding 1/15 and 1/30 before scaling by 2^15 makes every threshold weight 0 |
| AdmPixel.CmValue | libavfilter/vf_adm.c:300-310 | masking is \|x\| - thr when that is non-negative and fits, and 0 when it is negative |
| AdmPixel.CmZeroThreshold | libavfilter/vf_adm.c:300-310 | with a zero threshold the masked value is \|x\| >= 0, except that -32768 wraps to itself |
| AdmPixel.GetCube | libavfilter/vf_adm.c:105-108 | `get_cube` is v^3 over the integers: negative exactly when v is, and zero exactly when v is |
| AdmPixel.GetCubeFitsInt32 | libavfilter/vf_adm.c:105-108 | `get_cube` fits `int32_t` for magnitudes up to 1290, and overflows at 1291 |
| AdmPixel.BorderLowTruncates | libavfilter/vf_adm.c:114-115 | the border is the truncation toward zero of the exact n * 0.1 - 0.5: 0 for n < 5, where that value lies in (-1, 0), and its floor from n = 5 on |
| AdmPixel.BorderBounds | libavfilter/vf_adm.c:114-117 | 0 <= left <= right = n - left <= n; nothing is cut below 15 samples; at least one sample survives for n >= 1 |
| AdmGrid.LoadCell | libavfilter/vf_adm.c:293-312 | the loads of one cell: the k-th value read is the sample of source view k at (i, j) |
| AdmGrid.StoreCell | libavfilter/vf_adm.c:293-312 | the stores of one cell, in view order: the arena afterwards is the old one with each destination view's (i, j) cell written |
| AdmGrid.RunStage | libavfilter/vf_adm.c:293-312 | the double loop of a cell-local stage leaves the arena the stage's specification prescribes |
| AdmGrid.RasterFrame | libavfilter/vf_adm.c:293-312 | a stage changes no index outside the rows x cols cells of its destination views |
| AdmGrid.RasterValue | libavfilter/vf_adm.c:293-312 | with distinct destinations apart from the sources, each destination cell holds the value computed from the original sources there |
| AdmLayout.BufStride | libavfilter/vf_adm.c:482 | `buf_stride` is a multiple of 32 bytes holding a half-width row of `int16_t` |
| AdmLayout.PxStride | libavfilter/vf_adm.c:482 | the element stride is half of `buf_stride` and is at least (w + 1) / 2 |
| AdmLayout.ArenaLen | libavfilter/vf_adm.c:672 | the arena in elements is `buf_sz * 35` bytes |
| AdmLayout.TempLen | libavfilter/vf_adm.c:670 | the scratch rows hold at least w elements |
| AdmLayout.InitDwtBand | libavfilter/vf_adm.c:432-443 | `init_dwt_band` places a, h, v, d at consecutive `buf_sz` steps and returns the next free offset |
| AdmLayout.Carve | libavfilter/vf_adm.c:490-508 | the carving places the 35 views on tiles 0 .. 34 in order and ends at 35 * `buf_sz` |
| AdmLayout.ArenaOffsets | libavfilter/vf_adm.c:490-508 | the carved offsets are exactly k * `buf_sz` for k = 0 .. 34, so they are disjoint and fill the allocation |
| AdmLayout.TileCellsDistinct | libavfilter/vf_adm.c:482-483 | distinct cells of tile views are distinct indices, within and across tiles |
| AdmLayout.TiledStageApart | libavfilter/vf_adm.c:536-544 | a stage on tile views with distinct destination tiles apart from the source tiles writes distinct cells and never a source cell |
| AdmWavelet.LoadSample | libavfilter/vf_adm.c:350 | a sample read is the uint8, the little-endian uint16 or the int16 sample at row r and column c of its source |
| AdmWavelet.ColumnSums | libavfilter/vf_adm.c:339-354 | the vertical loop computes both 4-tap filter sums of the reflected column taps |
| AdmWavelet.VerticalPass | libavfilter/vf_adm.c:335-358 | `temp_lo[..w]` and `temp_hi[..w]` hold the shifted vertical sums of row i, and the rest of both arrays is unchanged |
| AdmWavelet.TempPrefixAt | libavfilter/vf_adm.c:335-358 | scratch column j holds the vertical sum of column j |
| AdmWavelet.RowSums | libavfilter/vf_adm.c:365-380 | the horizontal loop computes both 4-tap filter sums of the reflected scratch taps |
| AdmWavelet.HorizontalPass | libavfilter/vf_adm.c:361-384 | one horizontal pass stores each column's lo and hi sums in order |
| AdmWavelet.StoreColumn | libavfilter/vf_adm.c:382-383 | column j stores the lo sum into band lo and then the hi sum into band hi |
| AdmWavelet.BandPrefixAt | libavfilter/vf_adm.c:361-384 | band column j holds the horizontal sum of column j |
| AdmWavelet.PassValue | libavfilter/vf_adm.c:382-383 | with distinct cells, a pass leaves in each band the value computed for its column |
| AdmWavelet.PassFrame | libavfilter/vf_adm.c:382-383 | a pass changes no index outside its two bands' cells of row i |
| AdmWavelet.RowPassesValue | libavfilter/vf_adm.c:360-410 | with distinct band cells, row i leaves the lo-lo, lo-hi, hi-lo and hi-hi sums in bands a, v, h, d |
| AdmWavelet.DwtRowValue | libavfilter/vf_adm.c:333-411 | output row i stores into a, v, h, d the four filter sums over its own scratch rows |
| AdmWavelet.DwtRowFrame | libavfilter/vf_adm.c:333-411 | output row i changes nothing outside its four band cells |
| AdmWavelet.TempRowOfSamples | libavfilter/vf_adm.c:335-358 | the scratch rows depend only on the samples read |
| AdmWavelet.RowStep | libavfilter/vf_adm.c:333-411 | each output row keeps everything outside the bands and, when the source and bands are apart, makes rows 0 .. i hold their sums |
| AdmWavelet.TransformRow | libavfilter/vf_adm.c:333-411 | one output row is the vertical pass and then the two horizontal passes; the scratch rows hold that row's vertical sums |
| AdmWavelet.Transform | libavfilter/vf_adm.c:315-412 | the transform writes only rows < (h + 1) / 2 and columns < (w + 1) / 2 of the four bands; with the source apart, every cell of a, v, h, d holds the lo-lo, lo-hi, hi-lo, hi-hi sums of the original samples |
| AdmStages.Decouple | libavfilter/vf_adm.c:132-194 | the decouple loops leave the arena of the stage reading ref and main and writing r and a |
| AdmStages.DecoupleCell | libavfilter/vf_adm.c:151-191 | each of the six outputs at (i, j) is the decoupled value of the six inputs at (i, j) |
| AdmStages.Csf | libavfilter/vf_adm.c:196-226 | the three orientation loops of `adm_csf` leave the arena of the three stages in order |
| AdmStages.CsfCell | libavfilter/vf_adm.c:215-225 | each destination cell is the sign-preserving Q15 product of its source cell with the orientation's factor |
| AdmStages.NeighbourTerm | libavfilter/vf_adm.c:255-271 | one filter term is the weight times \|src\| at the reflected neighbour |
| AdmStages.NeighbourSum | libavfilter/vf_adm.c:251-273 | the 3 x 3 loop sums the terms in the `filt_i`, `filt_j` order |
| AdmStages.ThreshSumIsZero | libavfilter/vf_adm.c:251-273 | every threshold sum is 0 |
| AdmStages.ThreshAdd | libavfilter/vf_adm.c:250-276 | adding one orientation's shifted sums to the threshold row changes nothing |
| AdmStages.CmThresh | libavfilter/vf_adm.c:228-279 | `adm_cm_thresh` leaves the arena of the row clear alone |
| AdmStages.ClearCell | libavfilter/vf_adm.c:241-245 | every threshold cell of the w x h region is 0 |
| AdmStages.Cm | libavfilter/vf_adm.c:281-313 | the masking loops leave the arena of the stage reading src and the threshold and writing dst |
| AdmStages.CmCell | libavfilter/vf_adm.c:293-312 | each masked cell is max(0, \|x\| - thr) of its source cell and threshold |
| AdmStages.BufferCopy | libavfilter/vf_adm.c:418-430 | the row copies leave the arena of the copy stage |
| AdmStages.CopyCell | libavfilter/vf_adm.c:425-429 | each of the w x h destination cells holds its source cell |
| AdmStages.CopyFrame | libavfilter/vf_adm.c:425-429 | the copy changes nothing outside the w x h destination cells |
| AdmStages.Border | libavfilter/vf_adm.c:114-117 | top <= bottom <= h and left <= right <= w |
| AdmStages.SumCube | libavfilter/vf_adm.c:110-130 | `adm_sum_cube` returns the cube root of the border-cropped cube sum plus the cube root of the cropped area over 32, having visited exactly that area |
| AdmStages.RegionCubeSum | libavfilter/vf_adm.c:123-127 | the outer loop sums the cubes of rows top .. bottom - 1 and visits (bottom - top) * (right - left) samples |
| AdmStages.RowCubeSum | libavfilter/vf_adm.c:124-126 | the inner loop sums the cubes of columns left .. right - 1 |
| AdmStages.BorderCubesNonneg | libavfilter/vf_adm.c:121-127 | without a -32768 sample inside the border, the cube sum is never negative |
| AdmStages.RegionRunningSum | libavfilter/vf_adm.c:123-127 | without a -32768 sample, every running sum of the double loop lies between 0 and the final sum |
| AdmStages.SumCubeRunningSum | libavfilter/vf_adm.c:121-127 | inside the border of a band with no -32768 sample, every running `sum` of `adm_sum_cube` lies in [0, final sum], so a final sum below 2^31 means nothing overflowed |
| AdmStages.MinSampleCube | libavfilter/vf_adm.c:125 | a -32768 sample stays -32768 through `FFABS` and the `int16_t` parameter; its mathematical cube, -2^45, overflows `int` |
| AdmStages.SumCubeInRange | libavfilter/vf_adm.c:129 | while the cube sum fits `int32_t`, `adm_sum_cube` is ceil(cbrt(sum)) + ceil(cbrt(area / 32)) with no `int16_t` wrap, and lies in [1, 1698] |
| AdmPipeline.Dim | libavfilter/vf_adm.c:533-534 | after k ceiling halvings, a size n >= 1 stays in [1, n], and it is at most (n + 1) / 2 once k >= 1 |
| AdmPipeline.ScaleFitsTile | libavfilter/vf_adm.c:533-534 | every scale's band size fits a tile |
| AdmPipeline.LayTiles | libavfilter/vf_adm.c:490-508 | each carved view is the named tile |
| AdmPipeline.DecoupleAtApart | libavfilter/vf_adm.c:536-537 | decouple's reads and writes fit the arena, its outputs are distinct, and it reads none of them |
| AdmPipeline.CsfAtApart | libavfilter/vf_adm.c:539-541 | the same holds for each orientation of each `adm_csf` call |
| AdmPipeline.ClearAtApart | libavfilter/vf_adm.c:543 | the same holds for the clear of `mta` |
| AdmPipeline.CmAtApart | libavfilter/vf_adm.c:544 | the same holds for `adm_cm` |
| AdmPipeline.CopyAtApart | libavfilter/vf_adm.c:557-560 | each hand-off copies tile 2 or 6 (`band_a`) into tile 0 or 1, apart and in range |
| AdmPipeline.SumBandFits | libavfilter/vf_adm.c:546-552 | the six summed bands are tiles 32-34 (`cm_r`) and 19-21 (`csf_o`), in range |
| AdmPipeline.DwtBandsOk | libavfilter/vf_adm.c:497-498 | the four bands of a transform fit the arena and never share a cell |
| AdmPipeline.DwtShapes | libavfilter/vf_adm.c:514-531 | both transforms of every scale read and write in range |
| AdmPipeline.ArenaSourceSpan | libavfilter/vf_adm.c:527-530 | the H x W samples read at `buf_stride` from tile k lie in tiles k .. k + 2 |
| AdmPipeline.MainSourceApart | libavfilter/vf_adm.c:529-530 | the main transform never reads a cell of `main_dwt2`, so its bands hold the sums of main's samples |
| AdmPipeline.RefSourceReadsApprox | libavfilter/vf_adm.c:527-528 | for even H and `buf_stride` below w, the ref transform at scales 1-3 reads cell (0, 0) of `ref_dwt2.band_a`, which it writes |
| AdmPipeline.FullHdReadsApprox | libavfilter/vf_adm.c:482-483 | a 1920 x 1080 frame is such a case |
| AdmPipeline.PairSumStep | libavfilter/vf_adm.c:554-555 | appending a scale's pair adds its `num_scale` and `den_scale` to the running sums |
| AdmPipeline.PairSumBounds | libavfilter/vf_adm.c:554-555 | n scores in [lo, hi] sum to a value in [n * lo, n * hi] |
| AdmPipeline.ScaleSumInRange | libavfilter/vf_adm.c:546-552 | without `int32_t` overflow, `num_scale` and `den_scale` lie in [3, 5094] |
| AdmPipeline.NumdenLimit | libavfilter/vf_adm.c:448 | `numden_limit` is non-negative, 0.01 at 1920 x 1080, and at most 12 for at most 2488320000 pixels |
| AdmPipeline.NoiseFloor | libavfilter/vf_adm.c:571-572 | the floored value is 0 or x, and is x exactly when x is at least the limit or x is 0 |
| AdmPipeline.Final | libavfilter/vf_adm.c:571-580 | a den below the limit gives score 1.0 and den 0; num and den both at or above the limit give (num / den, num, den); a num below the limit with den at or above it gives score 0 and num 0 |
| AdmPipeline.FinalFloor | libavfilter/vf_adm.c:571-572 | num and den each become 0 when below `numden_limit` and are kept otherwise, so each ends as 0 or at least the limit |
| AdmPipeline.FinalRatio | libavfilter/vf_adm.c:574-580 | the score is 1.0 when the floored den is 0, and otherwise score * den = num |
| AdmPipeline.FinalOfScores | libavfilter/vf_adm.c:571-580 | with every scale sum in range and at most 2488320000 pixels, nothing is floored, num and den lie in [12, 20376], and the score is num / den > 0 |
| AdmPipeline.Process | libavfilter/vf_adm.c:445-583 | `scores` holds each scale's (`num_scale`, `den_scale`) in order; the score triple is the floored ratio of their sums; `data_buf` is left as after the four scales and the scratch arrays from column W on are kept |
| AdmPipeline.ScoreFrame | libavfilter/vf_adm.c:613 | the score returned for a pair is the frame's specified score; `data_buf` is left as after the four scales and the scratch arrays from column W on are kept |
| AdmPipeline.RunScales | libavfilter/vf_adm.c:490-569 | carving plus the scale loop leaves the arena after four scales and returns all eight scores |
| AdmPipeline.ScaleLoop | libavfilter/vf_adm.c:510-569 | the loop walks the arena through the four scales and collects their scores in order, with w and h halved each time |
| AdmPipeline.ScaleIteration | libavfilter/vf_adm.c:510-569 | one pass moves from the arena at one scale to the next and appends that scale's pair |
| AdmPipeline.StoreScores | libavfilter/vf_adm.c:554-568 | `scores[2 * scale + 0/1]` hold the pairs, and num and den are their sums |
| AdmPipeline.ScaleStep | libavfilter/vf_adm.c:511-568 | one loop body gives the next arena, the scale's two sums and the halved sizes |
| AdmPipeline.FrontScale | libavfilter/vf_adm.c:514-544 | the transforms and masking leave the arena the sums of cubes read |
| AdmPipeline.BackScale | libavfilter/vf_adm.c:546-565 | the sums of cubes are read before the hand-off, and the hand-off follows |
| AdmPipeline.TransformScale | libavfilter/vf_adm.c:514-531 | both transforms run; the `main_dwt2` bands, and at scale 0 the `ref_dwt2` bands, hold the db2 sums of their samples; the scratch rows hold main's last vertical sums and are unchanged past column W |
| AdmPipeline.MaskScale | libavfilter/vf_adm.c:536-544 | decouple, the three csf calls, the threshold and the masking run in loop order |
| AdmPipeline.SumScale | libavfilter/vf_adm.c:546-552 | `num_scale` sums the three `cm_r` bands and `den_scale` the three `csf_o` bands |
| AdmPipeline.HandOff | libavfilter/vf_adm.c:557-565 | the two approximation bands are copied to `ref_scale` and `main_scale` |
| AdmDriver.SumAppend | libavfilter/vf_adm.c:623 | adding a frame adds its score to the running sum |
| AdmDriver.SumBounds | libavfilter/vf_adm.c:623 | n scores in [lo, hi] sum to a value in [n * lo, n * hi] |
| AdmDriver.MeanBounds | libavfilter/vf_adm.c:715 | the mean of scores that all lie in [lo, hi] lies in [lo, hi] |
| AdmDriver.AdmData.constructor | libavfilter/vf_adm.c:82-88 | the zeroed private context: no buffers, no frames, a zero sum |
| AdmDriver.AdmData.Init | libavfilter/vf_adm.c:653-684 | records w, h and the depth, and allocates the three buffers at their sizes; the first failed allocation stops the rest with AVERROR(ENOMEM); success with w, h >= 2 makes the state ready |
| AdmDriver.AdmData.DoAdm | libavfilter/vf_adm.c:592-626 | without ref nothing is scored and no buffer changes; otherwise the score is the frame's specified score, `nb_frames` and `adm_sum` take it in, and `data_buf` is left as after the four scales |
| AdmDriver.AdmData.ScoreRef | libavfilter/vf_adm.c:613-623 | a ref frame is scored by `ff_adm_process` and counted; `data_buf` is left as after the four scales and the scratch arrays from column w on are kept |
| AdmDriver.AdmData.Score | libavfilter/vf_adm.c:613 | `ff_adm_process` on the state's own buffers returns the frame's specified score; `data_buf` is left as after the four scales and the scratch arrays from column w on are kept |
| AdmDriver.AdmData.Account | libavfilter/vf_adm.c:621-623 | `nb_frames` counts the scores so far and `adm_sum` is their sum |
| AdmDriver.AdmData.Uninit | libavfilter/vf_adm.c:709-716 | returns the mean of the scores so far, or 0.0 before the first frame |

## Left out

- Filter plumbing is not modelled: framesync (including the error return of `ff_framesync_dualinput_get`), `set_meta`, the stats file (with its "vif:" label), `query_formats`,
  `config_*`, `activate`, `init`, `uninit` and the pad tables. All of it is I/O or framework glue, and `ff_filter_frame`
  passes `main` on either way.
- `av_malloc` and `av_free` are not modelled as calls. Each allocation's success is a parameter of `Init`. `Uninit` does
  not model the frees, because Dafny arrays are not freed.
- `av_pix_fmt_desc_get` becomes the `depth` parameter. The model uses only `depth > 8`, which selects the
  10-bit transform. Its uint16 samples are read little-endian.
- `libavfilter/x86/vf_vmafmotion_init.c` is not part of this model. It is CPU dispatch for a different filter.
- `lrint` of the float wavelet coefficients and of the Q table is not recomputed. The resulting integers are constants:
  `FilterLo`/`FilterHi` and `RFactorTable`.
- Float semantics of `adm_decouple` are replaced by reals, and `cos_1deg_sq` is the single-precision value as a rational.
  - The `eps` of `DIVS(th, oh + eps)` is dropped.
  - When `oh` is 0 the candidate is 0. The C code multiplies a clamped infinity by 0, or gets a NaN when `th` is 0 too.
  - Float rounding of the gain product, which can move `ceil` by one, is not modelled.
- `ceil(cbrt(.))` in `adm_sum_cube` is exact over the integers, which also makes it exact for negative sums (`CeilCbrt`).
- The border `int left = w * 0.1 - 0.5` is computed as `w < 5 ? 0 : (w - 5) / 10`. That is the truncation of the double
  expression whenever the rounding error of `w * 0.1` does not cross an integer. It cannot cross one, because at every
  integer point the product is exact.
- `int` accumulators and products are unbounded integers: `sum`, `sum_lo`, `sum_hi`, the cube sum, the cubes of
  `get_cube`, and the `int` sums `oh * th + ov * tv`, `oh * oh + ov * ov` and `th * th + tv * tv` that
  `adm_decouple` assigns to `ot_dp`, `o_mag_sq` and `t_mag_sq`.
  - Those three variables are `float`. Each `int` sum is converted to single precision on assignment, and the
    comparison of the angle test (vf_adm.c:176-177) is a float comparison. Like the rest of `adm_decouple`, the model
    evaluates it over reals.
  - `TapsFitInt32` shows that the 4-tap sums cannot overflow for `int16_t`-sized samples, which covers the 8-bit path
    and scales 1-3. `WideTapsFitInt32` covers `uint16_t` samples up to 42455, so every 10-bit frame (samples at most
    1023) is safe. `WideTapsOverflow` shows that from 42456 on `int sum_lo` can overflow in C; the model does not
    wrap it.
  - `AngleSumsFitInt32` shows that the angle-test sums overflow only when both components of a vector are -32768. At
    that corner the C expression overflows `int` (undefined behaviour), and the model's `AngleFlag` uses the
    mathematical value.
  - `GetCubeFitsInt32` bounds a single cube. `CubesFit` requires no -32768 sample inside the border and final cube sums
    below 2^31. `SumCubeRunningSum` shows that every running sum then lies in [0, final sum], so nothing in
    `adm_sum_cube` overflows.
  - An overflowing cube or cube sum is not wrapped.
- `int16_t` stores wrap modulo 2^16 (`ToInt16`), and `>> 15` is an arithmetic shift (`Shr15`). C leaves both
  implementation-defined.
- `num`, `den`, the score, `numden_limit` and `adm_sum` are reals, not doubles. `num_scale` and `den_scale` are integers.
  The float variables hold them exactly, because each scale sum is a small integer (`ScaleSumInRange`).
- Process: the scores are stored after the loop (`StoreScores`) rather than inside it. Nothing reads them in between, so
  the result is the same.
- AdmPipeline.Process: it does not state `temp_lo[..W]` and `temp_hi[..W]` after the call; `TransformScale` states them for each scale. No later step reads them before a vertical pass rewrites them (`VerticalPass`), and the specification functions of the transform take no scratch input.
- AdmPipeline.ScoreFrame: it does not state `temp_lo[..W]` and `temp_hi[..W]` after the call, for the same reason; a later frame's `FrameScore` depends on `data_buf` alone.
- AdmDriver.AdmData.DoAdm: with a ref frame it does not state `temp_lo[..w]` and `temp_hi[..w]` after the call, for the same reason.
- AdmDriver.AdmData.ScoreRef: it does not state `temp_lo[..w]` and `temp_hi[..w]` after the call, for the same reason.
- AdmDriver.AdmData.Score: it does not state `temp_lo[..w]` and `temp_hi[..w]` after the call, for the same reason.
- FinalRatio: the score equals 1.0 when den is 0, but the converse does not hold, because num / den can be 1.0 too. The
  lemma states the two cases rather than an equivalence.
- AdmData.DoAdm and AdmPipeline.Process require `w, h >= 2`. With a width or height of 1, the wavelet transform reads
  index -1 (`DwtTapOutOfRangeForOne`), which is undefined behaviour in C. `Init` accepts any size and reports readiness
  only for `w, h >= 2`.
- AdmStages.SumCube: the visited-sample count is a ghost out-parameter. The C loop has no such counter.
- Frames: `Frame.linesize` is a `nat`, counted from row 0. FFmpeg also allows a negative `linesize[0]` for a bottom-up
  frame (vf_adm.c:469-470 keep it as a signed `ptrdiff_t`). Such a frame addresses its rows by a signed offset from
  `data[0]`, and the model does not capture it.
- AdmDriver.AdmData.DoAdm: with a ref frame it requires (`FramesFit`) both frames to hold `s->height` rows of `s->width`
  samples at their `linesize`. `config_input_ref` sizes the context from the main input alone (vf_adm.c:700-707, pad
  table at 760-767). Nothing in vf_adm.c compares the reference frame's size with it: neither `config_output`
  (718-736) nor `do_adm` (606-613). A smaller reference is read past its plane in C, which is undefined behaviour
  that the model does not describe.
- AdmDriver.AdmData.ScoreRef: requires `FramesFit`, for the same reason.
- AdmDriver.AdmData.Score: requires `FramesFit`, for the same reason.
- AdmPipeline.Process: requires `FramesFit`, for the same reason.
- AdmPipeline.ScoreFrame: requires `FramesFit`, for the same reason.
- AdmData.Uninit: it leaves `data_buf`, `temp_lo` and `temp_hi` in place rather than freeing them.
