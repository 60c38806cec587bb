# stbimg in Dafny

A model of the core of stbimg, a small C++ wrapper around the stb image
codecs. It covers three parts:

- **The `Image` buffer** (`image.hpp`): a row-major grid of
  `width*height` cells of `channels` bytes. Its ownership tag
  (`NONE`/`LOCAL`/`STB`) decides how the destructor releases the storage.
  - Copy construction and copy assignment deep-copy the bytes.
  - Move construction and move assignment hand the storage over.
  - `at(x, y)` is a bounds-checked offset computation.
- **The pixel and colour value types** (`image.hpp`): `PixelRGB` and `PixelRGBA` use saturating 8-bit
  arithmetic and their own alpha rules. `ColorRGBA` has real channels and
  conversions to and from the pixel formats.
- **The line rasterizer** (`image_edit.hpp`): the helper macros `ipart`,
  `round`, `fpart`, `rfpart` and `swap`, then `plot`, `plot_add`, and the
  thick anti-aliased lines of `draw_line` and `add_line` (a generalisation of
  Xiaolin Wu's algorithm).

Files and modules:

| file | module | contents |
|---|---|---|
| `pixels.dfy` | `Pixels` | `PixelRGB` and `PixelRGBA` as datatypes whose member functions are the value operators. One cell class per struct holds `+=`/`-=`, which update the channels in place. |
| `colors.dfy` | `Colors` | `ColorRGBA` as a datatype with the constructors and conversion operators. A cell class holds `*=`, `+=` and `-=`. |
| `image.dfy` | `Images` | `Image` as a class. Its constructors, destructor and assignments update its fields. A ghost log records every storage release, so "released at most once" and "a moved-from image releases nothing" can be stated. |
| `raster_spec.dfy` | `RasterSpec` | What the rasterizer means, as functions, with the lemmas about them. A line is the sequence of `plot` calls it makes (`LinePlots`). Each call changes exactly one `PixelRGB` cell of the buffer (`Step`, `Apply`). |
| `raster.dfy` | `Raster` | The rasterizer as imperative methods on an `Image`. Each one proves that the buffer ends up as `Apply` of the plot calls the source makes, in the same order. Its loops are the source's loops. |

Floats and doubles are modelled as exact reals. The `sqrt` in
`w = thickness * sqrt(1 + gradient^2)` is supplied by the caller as
`slopeNorm`; `draw_line` and `add_line` require `slopeNorm^2 == 1 + gradient^2`.
The `(ColorT*)` cast of a cell pointer is sound only when the image has 3
channels, so the rasterizer is modelled for `ColorT = PixelRGB` on images
with `channels == 3` (`Raster.RgbCanvas`).

In a few places the code departs from the algorithm it follows or from its
own neighbouring operators. The model follows the code:

- `ipart` is the C cast `(int)x`, which truncates toward zero. Xiaolin Wu's
  algorithm takes `ipart` as floor. `round(x) = ipart(x + 0.5)` is
  therefore round-half-up only for `x >= -0.5`.
- `PixelRGBA` `-` sets alpha to `(a1 - a2) / 2` in C `int` arithmetic:
  truncated toward zero, then narrowed into `uint8_t` modulo 256. So
  `0 - 2` gives 255 (`Pixels.MinusAlphaWraps`). This differs from
  `PixelRGBA` `+` (image.hpp:372) and `ColorRGBA` `-` (image.hpp:476),
  which both average alpha.
- The main loop of `draw_line` weights each column's edge cells with the
  second endpoint's `rfpart(yend) * xgap` and `fpart(yend) * xgap`.
  - These are constants. Xiaolin Wu's algorithm weights each column by
    `rfpart(intery)`/`fpart(intery)`.
  - Example: a horizontal red line of thickness 1 from (0, 10) to
    (19, 10). Every main-loop column gets colour (127, 0, 0) in row 10 and
    black in row 11 (`RasterSpec.HorizontalRedLine`). The row does not
    come out full red.
- The sized constructor checks its dimensions with `assert`, which aborts
  rather than reporting an error. It is modelled as a precondition.

## Model

| member | source | states |
|---|---|---|
| Pixels.HalfTowardZero | image.hpp:387 | C `int / 2`: the quotient is truncated toward zero, with the bounds that characterise it for each sign |
| Pixels.Narrow | image.hpp:387-395 | the int-to-`uint8_t` conversion of alpha keeps the value modulo 256 |
| Pixels.Truncate | image.hpp:267-270 | float-to-`uint8_t` conversion of an in-range value is truncation: `r <= v < r + 1` |
| Pixels.ScaleChannel | image.hpp:267-270 | a channel times k in [0,1] is the truncation of `v*k` and never exceeds `v` |
| Pixels.DivideChannel | image.hpp:277-280 | a channel divided by k >= 1 is the truncation of `v/k` and never exceeds `v` |
| Pixels.PixelRGB.Plus | image.hpp:303-316 | each channel of `p + q` is `min(p.c + q.c, 255)` |
| Pixels.PixelRGB.Minus | image.hpp:317-330 | each channel of `p - q` is `max(p.c - q.c, 0)` |
| Pixels.PixelRGB.Scaled | image.hpp:267-275 | each channel of `p * k` is the truncation of `c*k`, and no channel grows |
| Pixels.PixelRGB.Divided | image.hpp:277-280 | each channel of `p / k` is the truncation of `c/k`, and no channel grows |
| Pixels.PixelRGBA.Plus | image.hpp:368-382 | colour channels as for `PixelRGB` `+`; alpha is the floored mean and lies between the two alphas |
| Pixels.PixelRGBA.Minus | image.hpp:383-397 | colour channels as for `PixelRGB` `-`; alpha is `(a1-a2)/2` when `a1 >= a2` and otherwise the negative half-difference modulo 256 |
| Pixels.PixelRGBA.Scaled | image.hpp:285-294 | colour channels as for `PixelRGB` `*`; alpha is kept |
| Pixels.PixelRGBA.Divided | image.hpp:296-299 | colour channels as for `PixelRGB` `/`; alpha is kept |
| Pixels.PixelRGBCell.constructor | image.hpp:265 | the cell holds the given pixel |
| Pixels.PixelRGBCell.AddAssign | image.hpp:332-347 | after `+=` the cell holds exactly what `+` returns |
| Pixels.PixelRGBCell.SubAssign | image.hpp:349-364 | after `-=` the cell holds exactly what `-` returns |
| Pixels.PixelRGBACell.constructor | image.hpp:283 | the cell holds the given pixel |
| Pixels.PixelRGBACell.AddAssign | image.hpp:399-417 | after `+=` the cell holds exactly what `+` returns, alpha included |
| Pixels.PixelRGBACell.SubAssign | image.hpp:419-436 | after `-=` the cell holds exactly what `-` returns, alpha included |
| Pixels.SaturationAtTheEnds | image.hpp:303-330 | white plus anything is white; black minus anything is black |
| Pixels.PlusExactIff | image.hpp:303-316 | a channel of the sum is the exact sum if and only if that sum fits in 8 bits |
| Pixels.MinusThenPlus | image.hpp:303-330 | subtracting a channel-wise smaller pixel and adding it back restores the pixel |
| Pixels.PlusCommutes | image.hpp:303-316 | `+` is commutative |
| Pixels.ScaledByOneOrZero | image.hpp:267-270 | `p * 1 == p` and `p * 0` is black |
| Pixels.BlendRGB | image_edit.hpp:73 | defines the blend `clr*k + cur*(1-k)` of `plot_add` for `PixelRGB` |
| Pixels.BlendRGBA | image_edit.hpp:73 | defines the same blend for `PixelRGBA` |
| Pixels.BlendRGBEndpoints | image_edit.hpp:73 | for `PixelRGB`, the blend of `plot_add` with k = 1 is the new colour and with k = 0 the current pixel |
| Pixels.BlendRGBAAveragesAlpha | image_edit.hpp:73 | for `PixelRGBA` the blend's colour channels are those of the `PixelRGB` blend, but alpha is always the mean; with k = 1 the new alpha survives only if the current alpha equals it or exceeds it by one |
| Pixels.MinusAlphaWraps | image.hpp:383-397 | alpha of `(0,0,0,0) - (0,0,0,2)` is 255 |
| Colors.Clamp01 | image.hpp:505-512 | values below 0 become 0, values above 1 become 1, and values in [0,1] are unchanged |
| Colors.Quantize | image.hpp:500-515 | a colour channel becomes the truncation of 255 times its clamp |
| Colors.ColorRGBA.Times | image.hpp:460-466 | `c * k` keeps alpha; dividing it by a non-zero k gives back `c`; with k = 0 the colour channels are 0 |
| Colors.ColorRGBA.DividedBy | image.hpp:468-470 | `c / k` keeps alpha, and its colour channels times k are those of `c` |
| Colors.ColorRGBA.Plus | image.hpp:472-474 | alpha of `c + o` is the mean of the two alphas, and subtracting `o` again restores the colour channels |
| Colors.ColorRGBA.Minus | image.hpp:475-477 | each colour channel of `c - o` plus that of `o` gives back `c`; alpha is the mean of the two alphas, not their difference |
| Colors.ColorRGBA.ToPixelRGB | image.hpp:500-515 | each channel is clamped to [0,1], scaled by 255 and truncated |
| Colors.ColorRGBA.ToPixelRGBA | image.hpp:517-536 | the same for all four channels; the colour part agrees with the `PixelRGB` conversion |
| Colors.FromChannels | image.hpp:446 | the colour channels are r, g, b and alpha is the default 1, which converts to pixel alpha 255 |
| Colors.FromPixelRGB | image.hpp:448-452 | each channel is the pixel channel divided by 255, so in [0,1]; alpha is 1 |
| Colors.FromPixelRGBA | image.hpp:453-458 | the same for all four channels |
| Colors.ColorRGBACell.constructor | image.hpp:447 | the cell holds the given colour |
| Colors.ColorRGBACell.MulAssign | image.hpp:479-484 | `*=` leaves what `*` returns, alpha untouched |
| Colors.ColorRGBACell.AddAssign | image.hpp:486-491 | `+=` leaves the colour channels of `+` but keeps the old alpha |
| Colors.ColorRGBACell.SubAssign | image.hpp:493-498 | `-=` leaves the colour channels of `-` but keeps the old alpha |
| Colors.QuantizeExact | image.hpp:500-515 | a byte divided by 255 quantizes back to itself |
| Colors.PixelRGBRoundTrip | image.hpp:448-515 | Pixel -> Color -> Pixel is the identity for `PixelRGB` |
| Colors.PixelRGBARoundTrip | image.hpp:453-536 | Pixel -> Color -> Pixel is the identity for `PixelRGBA`, alpha included |
| Colors.ColorRoundTripError | image.hpp:448-515 | Color -> Pixel -> Color loses less than 1/255 per channel, always downward from the clamped value |
| Colors.PlusMinusAlpha | image.hpp:472-477 | `(c + o) - o` keeps `c`'s alpha if and only if both alphas are equal |
| Colors.CompoundAlphaDiffers | image.hpp:472-498 | `+=`/`-=` and `+`/`-` disagree on alpha exactly when the two alphas differ |
| Images.CellSpanInBounds | image.hpp:258-263 | an in-range cell's `channels` bytes lie within the `width*height*channels` buffer |
| Images.CellIndexesDistinct | image.hpp:262 | distinct cells have distinct row-major indexes |
| Images.CellSpansDisjoint | image.hpp:258-263 | distinct cells have disjoint byte spans |
| Images.CopyBytes | image.hpp:192-193 | the `new` + `memcpy` pair yields fresh storage with the same bytes |
| Images.Image.constructor | image.hpp:150-160 | positive dimensions give fresh `LOCAL` storage of exactly `width*height*channels` bytes and no release |
| Images.Image.FromCodec | image.hpp:136-148 | decoded storage is adopted under the `STB` tag with the channel count the codec delivered, so the image is well formed |
| Images.Image.FromCodecAsWritten | image.hpp:136-148 | the channels field receives the file's count; the image is well formed exactly when no different count was forced |
| Images.ForcedChannelsMismatch | image.hpp:137 | forcing a channel count other than the file's makes the buffer length disagree with `width*height*channels`; forcing fewer puts the last cell past the end of the buffer |
| Images.ForcedRgbOnRgbaFile | image.hpp:137 | a one-pixel RGBA file loaded with 3 forced channels: a 3-byte buffer, but `at(0, 0)` hands out 4 bytes |
| Images.CellOffset | image.hpp:262 | defines the row-major byte offset `(x + width*y)*channels` of a cell |
| Images.Image.Copy | image.hpp:184-195 | a deep copy: same dimensions, same bytes in fresh storage, tag `LOCAL` whatever the source's tag |
| Images.Image.Move | image.hpp:197-209 | the new image takes over the tag and the very same storage; the source is left with tag `NONE`, no storage, its dimensions, and no release |
| Images.Image.Destroy | image.hpp:162-182 | present storage is released once, in the way its tag says (`NONE` releases nothing); afterwards there is no storage and tag `NONE` |
| Images.Image.CopyAssign | image.hpp:211-227 | self-assignment changes nothing; otherwise the old storage is released as `LOCAL` whatever its tag, and the bytes of `other` are deep-copied into fresh `LOCAL` storage |
| Images.Image.MoveAssign | image.hpp:229-242 | self-assignment changes nothing; otherwise tag, storage and dimensions are taken over and `other` is emptied, and the target's old storage is never released |
| Images.Image.At | image.hpp:258-263 | succeeds if and only if `x` and `y` are in range; otherwise the x error takes precedence over the y error; on success returns `(x + width*y)*channels`, with the cell inside the buffer |
| Images.DestroyTwice | image.hpp:162-182 | a second destructor call releases nothing: at most one release in total |
| Images.MoveThenDestroyBoth | image.hpp:197-209 | after a move, destroying the moved-from image releases nothing |
| Images.CopyIsIndependent | image.hpp:184-195 | after a copy, a write into the copy changes only the copy: the original keeps all its bytes |
| Images.OriginalIsIndependent | image.hpp:184-195 | after a copy, a write into the original changes only the original: the copy keeps the original's old bytes |
| RasterSpec.Trunc | image_edit.hpp:39 | `(int)x` truncates toward zero, with the bounds for each sign |
| RasterSpec.Ipart | image_edit.hpp:39 | defines `ipart(x)` as the truncated value converted back to a real |
| RasterSpec.Round | image_edit.hpp:41 | `round(x)` is the nearest integer, halves up, for `x >= -0.5` |
| RasterSpec.Fpart | image_edit.hpp:43 | `fpart(x)` lies in [0,1) for `x >= 0` and in (-1,0] for `x < 0` |
| RasterSpec.Rfpart | image_edit.hpp:45 | `rfpart(x) + fpart(x) == 1`, and `rfpart(x)` lies in (0,1] for `x >= 0` |
| RasterSpec.Normalise | image_edit.hpp:83-93 | the line is steep iff `abs(dy) > abs(dx)`; afterwards `x0 <= x1` and `abs(dy) <= abs(dx)`, and undoing the transpose gives back the two input points |
| RasterSpec.Gradient | image_edit.hpp:95-100 | defines the gradient as `dy/dx`, or 1 when `dx == 0` |
| RasterSpec.GradientSlope | image_edit.hpp:95-100 | when `dx != 0` the gradient carries `dx` to `dy` |
| RasterSpec.GradientBounds | image_edit.hpp:95-100 | the gradient of a normalised line lies in [-1, 1]; `dx == 0` forces a single point with gradient 1 |
| RasterSpec.NormaliseSymmetric | image_edit.hpp:83-93 | swapping the two endpoints gives the same normalised line |
| RasterSpec.SlopeNormBounds | image_edit.hpp:102 | `sqrt(1 + gradient^2)` lies in [1, 2] |
| RasterSpec.SlopeNormSymmetric | image_edit.hpp:83-102 | the slope norm is the same for either direction of the line |
| RasterSpec.FirstEndpoint | image_edit.hpp:104-106 | defines the first endpoint: `xend = round(x0)`, `yend = y0 + (w-1)/2 + gradient*(xend - x0)`, `xgap = rfpart(x0 + 0.5)` |
| RasterSpec.SecondEndpoint | image_edit.hpp:128-130 | defines the second endpoint: `xend = round(x1)`, `yend = y1 + gradient*(xend - x1)`, `xgap = fpart(x1 + 0.5)` |
| RasterSpec.FpartInUnit | image_edit.hpp:43 | `fpart(x)` lies in [0,1] exactly when x is non-negative or whole |
| RasterSpec.RfpartInUnit | image_edit.hpp:45 | `rfpart(x)` lies in [0,1] exactly when x is non-negative or whole |
| RasterSpec.DrawableLineIff | image_edit.hpp:104-146 | every coverage weight of a line lies in [0,1] exactly when both `yend` values and both `x + 0.5` are non-negative or whole |
| RasterSpec.ThinLineAtTopRow | image_edit.hpp:104-116 | a 0.5-wide horizontal line along row 0 has first `yend = -0.25`, so its weights are not all defined |
| RasterSpec.InteriorCount | image_edit.hpp:120 | `for (int i=1; i<w; i++)` runs `n` times, where `n` is 0 or `n < w <= n + 1` |
| RasterSpec.Interior | image_edit.hpp:120-122 | the interior calls are `i = 1..n`, in order, at `base + i` in full colour |
| RasterSpec.InteriorCountStep | image_edit.hpp:120 | while `i < w` holds, `i` has not passed the iteration count |
| RasterSpec.InteriorCountExit | image_edit.hpp:120 | when `i < w` fails, the loop has run exactly the iteration count |
| RasterSpec.Band | image_edit.hpp:119-123 | a band is `InteriorCount(w) + 2` calls: the leading edge at `ipart(y)`, full cells `ipart(y)+t`, the trailing edge at `ipart(y) + ipart(w)` |
| RasterSpec.AdvanceExact | image_edit.hpp:161-168 | after j passes, `intery` is the start plus `j * gradient` |
| RasterSpec.MainLoop | image_edit.hpp:149-170 | defines the calls of the first n main-loop columns: the band of each column in turn |
| RasterSpec.MainLoopLength | image_edit.hpp:161-169 | n columns make `n * (InteriorCount(w) + 2)` calls |
| RasterSpec.MainLoopAt | image_edit.hpp:161-169 | the main loop's calls are the bands of columns `first, first+1, ...` in order, each exactly once, with `intery` advanced once per column |
| RasterSpec.ColumnEdges | image_edit.hpp:161-169 | the first and last call of column j are its edge cells at `ipart(intery)` and `ipart(intery) + ipart(w)` |
| RasterSpec.MainLoopColumns | image_edit.hpp:126-169 | after the two endpoint bands, column j of the line is `xpxl1 + 1 + j`; its `intery` starts at the first endpoint's `yend + gradient`; its edge colours are the second endpoint's, whatever the column |
| RasterSpec.PlotsFrom | image_edit.hpp:104-169 | defines every call of a normalised line: first endpoint band, second endpoint band, then the main loop with the second endpoint's edge colours |
| RasterSpec.LinePlots | image_edit.hpp:83-169 | defines every call of `draw_line` for the given endpoints, through their normalised form |
| RasterSpec.LinePlotsSymmetric | image_edit.hpp:83-93 | drawing from either end makes identical plot calls |
| RasterSpec.HorizontalRedLine | image_edit.hpp:128-166 | the horizontal red line from (0,10) to (19,10) gets main-loop edge colours (127,0,0) and black |
| RasterSpec.ClampIndex | image_edit.hpp:50-56 | the clamp lands in `[0, n-1]`, keeps in-range values, and sends low values to 0 and high ones to `n-1` |
| RasterSpec.PlotOffsetInBounds | image_edit.hpp:49-58 | a plotted cell always lies inside the buffer, so `at` cannot throw |
| RasterSpec.Store | image_edit.hpp:58-59 | writing a `PixelRGB` sets that cell and no other byte |
| RasterSpec.Step | image_edit.hpp:49-74 | defines one `plot` or `plot_add` call on the buffer; it keeps the buffer length |
| RasterSpec.StepEffect | image_edit.hpp:49-74 | one `plot` call changes only the clamped cell, to the colour; one `plot_add` call changes it to `clr*k + cur*(1-k)` |
| RasterSpec.BlendOneIsReplace | image_edit.hpp:174-270 | `plot_add` with k = 1 leaves the same buffer as `plot`, for any call sequence, so `add_line` with k = 1 is `draw_line` |
| RasterSpec.BlendZeroKeeps | image_edit.hpp:62-74 | `plot_add` with k = 0 leaves the buffer unchanged, for any call sequence |
| Raster.ClampedCell | image_edit.hpp:50-58 | the cell `plot` writes is the clamped cell, and `at` succeeds on it |
| Raster.Plot | image_edit.hpp:48-60 | `plot` leaves in the buffer exactly one `Step` of overwriting |
| Raster.PlotAdd | image_edit.hpp:62-74 | `plot_add` leaves in the buffer exactly one `Step` of blending |
| Raster.PlotWith | image_edit.hpp:48-74 | the plot of the line's mode is one `Step` |
| Raster.PlotInterior | image_edit.hpp:120-122 | the band loop plots exactly the interior calls, in order |
| Raster.PlotBand | image_edit.hpp:119-123 | a band plots exactly the calls of `Band` |
| Raster.PlotEndpoint | image_edit.hpp:104-124 | an endpoint plots its band with edge colours `clr * rfpart(yend) * xgap` and `clr * fpart(yend) * xgap` |
| Raster.Orient | image_edit.hpp:83-100 | the in-place swaps compute `Normalise`, and the gradient is `Gradient` |
| Raster.PlotColumn | image_edit.hpp:161-168 | one pass of the main loop appends the band of column j |
| Raster.PlotColumns | image_edit.hpp:149-170 | the main loop plots exactly `MainLoop` |
| Raster.PlotLine | image_edit.hpp:104-170 | both endpoint bands and then the main loop: exactly `PlotsFrom` |
| Raster.RasterLine | image_edit.hpp:76-171 | the whole body leaves `Apply` of `LinePlots` in the buffer |
| Raster.DrawLine | image_edit.hpp:76-171 | `draw_line` overwrites with exactly the plot calls of `LinePlots`, in order |
| Raster.AddLine | image_edit.hpp:174-270 | `add_line` blends with factor k over exactly the same calls |

## Findings

| source | as written | input that shows it | evidently intended | confidence | as-written member | corrected member |
|---|---|---|---|---|---|---|
| image.hpp:136-148 | The file constructors pass `&this->channels` as the codec's channels-in-file out-parameter. That parameter reports the file's own count even when `desired_number_of_channels` forces another, and the buffer then has `width*height*desired` bytes. | A 1x1 RGBA file loaded as `Image(path, 3)`: a 3-byte buffer, `channels == 4`, so `at(0, 0)` hands out 4 bytes. Any forced count other than the file's makes `width*height*channels` disagree with the buffer. | `channels` holds the delivered count: `desired` when it is not 0, else the file's count. | not executed | Images.Image.FromCodecAsWritten | Images.Image.FromCodec |

## Left out

- Codec I/O is a foreign library call and is not modelled:
  - `stbi_load` in the file constructors becomes `Image.FromCodec`, which takes the decoded storage as a parameter;
  - `save_jpg` and `save_png` are not modelled;
  - the `STB` release (`stbi_image_free`) is recorded in the ghost release log as a `Release(_, Stb)` event.
- Images.Image.FromCodec: the codec is not modelled. Its result is a parameter: positive dimensions, the file's channel count, the requested count `desired_number_of_channels`, and storage of `width*height*DecodedChannels(fileChannels, desired)` bytes. The failure path (`runtime_error`) is not modelled. The source's own file constructors are `Images.Image.FromCodecAsWritten`, which is well formed only when the requested count is 0 or equals the file's (see Findings).
- Images.Image.Copy: requires the source to hold storage. `memcpy` from a moved-from image's null pointer is undefined behaviour.
- Images.Image.CopyAssign: same requirement as `Copy`, for the same reason.
- `delete` vs `delete[]` and the `std::cerr` default branch of the destructor are not modelled. Both are C++ memory and diagnostic mechanics. The default branch is unreachable with a three-valued tag.
- `Image::at` returns a pointer into the buffer. It is modelled as the byte offset of the cell.
- `width*height*channels` and `(x + width*y)*channels` are unbounded integers, so `int` overflow is not modelled.
- Floating point is not modelled: `float`/`double` are exact reals, so rounding error, NaN and infinities are out of scope.
- `sqrt` at image_edit.hpp:102 is not computed. It is the `slopeNorm` parameter, constrained by `slopeNorm >= 0 && slopeNorm^2 == 1 + gradient^2`.
- `abs` in the steepness test is taken as the real absolute value.
- Pixels.PixelRGB.Scaled: defined only for k in [0,1]. Outside that range `c*k` may not fit `uint8_t` and the conversion is undefined behaviour.
- Pixels.PixelRGBA.Scaled: the same restriction as `PixelRGB.Scaled`.
- Pixels.PixelRGB.Divided: defined only for k >= 1, for the same reason.
- Pixels.PixelRGBA.Divided: the same restriction as `PixelRGB.Divided`.
- Raster.DrawLine and Raster.AddLine require the four coverage weights to lie in [0,1] (`Drawable`), for the same reason. `RasterSpec.DrawableLineIff` gives the exact condition. After normalisation, both endpoint ordinates `yend` must be non-negative or whole. So must `x0 + 0.5` and `x1 + 0.5` on the major axis. The first `yend` includes the shift `(w-1)/2`, so thin lines near row 0 can fail it (`RasterSpec.ThinLineAtTopRow`).
- The rasterizer is modelled for `ColorT = PixelRGB` only. For `PixelRGBA`, `plot_add` is modelled at the value level only (`Pixels.BlendRGBA`, `Pixels.BlendRGBAAveragesAlpha`); it is not run on a 4-channel buffer.
- `RasterSpec.Step` keeps the buffer unchanged when the cell falls outside it. This only keeps the function total: `RasterSpec.PlotOffsetInBounds` shows that it never happens for a well-formed buffer.
- The float-to-`int` casts of `ipart`, `round` and the loop counters are unbounded, so coordinates beyond the `int` range are not modelled.
- The member `PixelRGBA::operator/` is declared (image.hpp:74) but never defined. The free `operator/(float, PixelRGBA&)` (image.hpp:296-299), which divides the pixel by k, is the one modelled (`Pixels.PixelRGBA.Divided`).
- example.cpp, the demo driver, is not part of this model.
