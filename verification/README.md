# Fractaliser: a Dafny model of the slicing renderer's arithmetic

The Fractaliser takes an uploaded image and redraws it onto a canvas as a row
of vertical "glass shard" bands. Each band shows a slice of the image whose
source is shifted progressively to the left. The canvas is then blurred and
brightened. Three pure computations drive this, and all three are modelled here.

- **The object fit** (`fit.dfy`, module `ObjectFit`) sizes the canvas. Given a
  container and a content size, `getObjectFitSize` scales the content
  uniformly so that it fits inside the container ("contain") or covers it
  ("cover"). It also returns the offsets that centre the result. The model
  works over exact reals with all four dimensions positive.
- **The slice layout** (`slices.dfy`, module `SliceLayout`) is the list of
  rectangles that `render` passes to `drawImage`:
  - one unshifted draw for band 0;
  - then one draw for each `i` in `1..parts` inclusive, `parts + 1` in all;
  - the source x of band `i` is `i*(imgWidth/parts) - i*(1000/parts)`, where
    1000 is the fixed shard-shift constant.
- **The brightness pass** (`brightness.dfy`, module `Brightness`, on top of
  `uint8clamp.dfy`, module `Uint8Clamp`) walks the canvas's RGBA buffer four
  bytes at a time. It replaces red, green and blue with
  `multiplier * channel` and never writes alpha. The buffer is a clamped byte
  array, so every assignment goes through ToUint8Clamp (section 7.1.12 of
  ECMA-262):
  - NaN becomes 0;
  - values are clamped to [0, 255];
  - other values are rounded to the nearest integer, ties to even.

  The model makes that store explicit, which shows that an out-of-range product
  saturates. It does not wrap.

## Behaviour worth noting

- **Out-of-range brightness products saturate.** The store clamps them to 255
  (or 0), deterministically; they do not wrap modulo 256.
  `Brightness.Saturates` shows that every product of 255 or more stores 255,
  and `Brightness.SaturatesAtDoubleBrightness` that 200 at 200% stores 255,
  not 144. `Brightness.SuggestedClampIsRedundant` shows that the
  `Math.max(0, Math.min(255, v))` clamp recommended in the comment inside
  `brightnessAdjustment` would store exactly the same bytes.
- **Zero sizes in the fit are excluded.** The model requires all four sizes
  to be positive. In the code, a zero size makes a ratio 0, Infinity or NaN,
  and the outcome depends on which sizes are zero:
  - some cases give a finite rectangle with a zero side. For example, in
    contain mode a zero container width with everything else positive gives
    a 0 x 0 rectangle;
  - some give NaN: 0 x 0 content (0 / 0), and a zero content height together
    with a zero container height (0 x Infinity);
  - some give Infinity: in cover mode a zero content width with everything
    else positive divides the container width by 0.
- **`parts + 1` rectangles are drawn.** The loop bound is inclusive. Bands
  `0..parts-1` tile the canvas exactly. The last band starts at the canvas's
  right edge and lies wholly off-canvas (`SliceLayout.BandsTileCanvas`,
  `SliceLayout.VisibleBands`).

## Model

| member | source | states |
|---|---|---|
| ObjectFit.ObjectFitSize | src/components/Fractaliser.tsx:4-31 | Both sides are positive. The aspect ratio is the content's. The width or the height is flush with the container. Margins are equal on each axis. In contain mode the result lies inside the container with non-negative offsets. In cover mode it covers the container with non-positive offsets. |
| ObjectFit.WidthFlush | src/components/Fractaliser.tsx:11-15 | The `test` that picks the flush side. It has no contract of its own; FlushSide states its meaning as cross products. |
| ObjectFit.FitIsUniformScale | src/components/Fractaliser.tsx:11-23 | The fitted size is the content scaled by one factor: the smaller per-axis factor for contain, the larger for cover. |
| ObjectFit.ContainIsLargest | src/components/Fractaliser.tsx:11-23 | Any uniform scaling of the content that fits the container is no larger than the contain result. |
| ObjectFit.CoverIsSmallest | src/components/Fractaliser.tsx:11-23 | Any uniform scaling of the content that covers the container is no smaller than the cover result. |
| ObjectFit.FlushSide | src/components/Fractaliser.tsx:15-23 | The width is flush exactly when the content is relatively at least as wide as the container (contain) or at most as wide (cover). The height is flush in the dual case. Both are flush when the shapes agree. |
| SliceLayout.FirstDraw | src/components/Fractaliser.tsx:102-112 | The pre-loop draw. It has no contract of its own; BandGeometry and SourceOffset state its rectangles as band 0. |
| SliceLayout.LoopDraw | src/components/Fractaliser.tsx:114-124 | The draw of loop iteration i. It has no contract of its own; BandGeometry, SourceOffset and SourceStep state its rectangles. |
| SliceLayout.Band | src/components/Fractaliser.tsx:102-124 | Draw i of a render. It has no contract of its own; BandGeometry and SourceOffset state its rectangles. |
| SliceLayout.LoopDraws | src/components/Fractaliser.tsx:113-125 | The loop from i to parts inclusive issues parts - i + 1 draws, the k-th being iteration i + k's. |
| SliceLayout.Layout | src/components/Fractaliser.tsx:99-125 | A render issues exactly parts + 1 draws: the pre-loop draw, then loop iterations 1..parts in order. |
| SliceLayout.BandGeometry | src/components/Fractaliser.tsx:99-124 | Every draw takes a slice one slice wide and the full image high. It paints a band one band wide and the full canvas high, starting i band widths from the left. |
| SliceLayout.SourceOffset | src/components/Fractaliser.tsx:99-119 | Draw i's source starts at i*(imgWidth - 1000)/parts, which is 0 for the pre-loop draw. |
| SliceLayout.SourceStep | src/components/Fractaliser.tsx:113-119 | Adjacent source slices start (imgWidth - 1000)/parts apart. |
| SliceLayout.BandsContiguous | src/components/Fractaliser.tsx:100-124 | Each band starts where the previous one ends. |
| SliceLayout.PrefixWidth | src/components/Fractaliser.tsx:100-124 | The first n bands together are n band widths wide. |
| SliceLayout.BandsTileCanvas | src/components/Fractaliser.tsx:100-124 | Bands 0..parts-1 are together exactly the canvas width, and the last band starts at the canvas's right edge. |
| SliceLayout.VisibleBands | src/components/Fractaliser.tsx:113-124 | On a canvas of positive width, a band starts inside the canvas exactly when its index is below parts. |
| SliceLayout.TenSliceExample | src/components/Fractaliser.tsx:113-119 | With ten slices there are eleven draws, and band 9's source starts at 9*(imgWidth/10) - 900. |
| Uint8Clamp.ToUint8Clamp | src/components/Fractaliser.tsx:59-61 | The clamped-byte store. It has no contract of its own; StoreSpec and StoreIsNearest characterise it completely, one direction each. |
| Uint8Clamp.StoreSpec | src/components/Fractaliser.tsx:59-61 | A store writes 0 for NaN and for values at most 0, and 255 for values at least 255. Otherwise it writes a byte within one half of the value, the even one on a tie. |
| Uint8Clamp.StoreIsNearest | src/components/Fractaliser.tsx:59-61 | For an in-range value, the byte within one half of it (even on a tie) is exactly what is stored. |
| Uint8Clamp.StoreByte | src/components/Fractaliser.tsx:59-61 | Storing a value that is already a byte stores it unchanged. |
| Uint8Clamp.StoreMonotone | src/components/Fractaliser.tsx:59-61 | A larger value never stores a smaller byte. |
| Uint8Clamp.Clamp | src/components/Fractaliser.tsx:50-57 | The clamp the comment recommends: the result lies in [0, 255], equals an in-range value, and is 0 below the range and 255 above it. |
| Uint8Clamp.ClampBeforeStore | src/components/Fractaliser.tsx:50-61 | Clamping to [0, 255] before the store changes nothing that is stored. |
| Brightness.Multiplier | src/components/Fractaliser.tsx:135 | The multiplier for a brightness setting: 100 times it is the percent. |
| Brightness.Read | src/components/Fractaliser.tsx:42-44 | A read is a number exactly when the index is in range, and then it is that byte, between 0 and 255; past the end it is NaN. |
| Brightness.Times | src/components/Fractaliser.tsx:46-48 | The product is NaN exactly when the read was NaN, and multiplier 1 returns the read unchanged. |
| Brightness.Write | src/components/Fractaliser.tsx:59-61 | An assignment stores the clamped byte at an in-range index and ignores an index past the end. No other byte changes and the length is kept. |
| Brightness.AdjustedChannel | src/components/Fractaliser.tsx:46-61 | The byte a channel becomes: multiply, then store. It has no contract of its own; ScaledRead ties it to the read-multiply-store of the loop, and Saturates, MonotoneInMultiplier and UnitMultiplier state its properties. |
| Brightness.ScaledRead | src/components/Fractaliser.tsx:42-48 | Reading an in-range byte, multiplying and storing gives the adjusted channel. |
| Brightness.AdjustPixel | src/components/Fractaliser.tsx:41-61 | One iteration turns the three bytes from i on (those that exist) into their adjusted channels and leaves every other byte alone. |
| Brightness.BrightnessAdjustment | src/components/Fractaliser.tsx:33-65 | The length and every alpha byte (index 3 mod 4) are unchanged. Every other byte becomes the stored multiplier*channel. With multiplier 1 the whole buffer is unchanged. |
| Brightness.PixelStep | src/components/Fractaliser.tsx:41-62 | After the iteration at pixel i, the bytes below i + 4 hold their final values and the rest are still the originals. |
| Brightness.PassComplete | src/components/Fractaliser.tsx:41-64 | Once every byte holds its final value, alpha bytes are the originals and colour bytes are adjusted. With multiplier 1 that is the original buffer. |
| Brightness.UnitMultiplier | src/components/Fractaliser.tsx:46-61 | Multiplier 1 leaves every channel as it was. |
| Brightness.DefaultBrightnessIsIdentity | src/components/Fractaliser.tsx:135 | The default brightness of 100 percent, divided by 100, leaves every channel as it was. |
| Brightness.ZeroBrightness | src/components/Fractaliser.tsx:135 | Brightness 0 turns every colour channel to 0. |
| Brightness.MonotoneInMultiplier | src/components/Fractaliser.tsx:46-61 | A larger multiplier never yields a darker channel. |
| Brightness.DarkenAndBrighten | src/components/Fractaliser.tsx:46-61 | Below multiplier 1 a channel never brightens, and above it a channel never darkens. |
| Brightness.Saturates | src/components/Fractaliser.tsx:46-61 | Every product of 255 or more stores 255; nothing wraps. |
| Brightness.SaturatesAtDoubleBrightness | src/components/Fractaliser.tsx:46-61 | At 200 percent a channel of 200 stores 255, not 144. |
| Brightness.SuggestedClampIsRedundant | src/components/Fractaliser.tsx:50-61 | Applying the clamp that the comment in brightnessAdjustment recommends would store the same byte. |

## Left out

- React state, hooks and effects. Also the reset button, all JSX, and the
  information panel. These are user-interface plumbing with no computation.
- File decoding and download. This covers `FileReader`, the `Image` load
  callback, `toDataURL` and the anchor click. These are browser I/O.
- Canvas rasterisation. This covers the pixels that `drawImage` produces, the
  `devicePixelRatio` resize, `ctx.scale` and the StackBlur pass. These are
  foreign graphics calls. Only the rectangles passed to `drawImage` are
  modelled. The pixel buffer the brightness pass receives is an input.
- The call site at lines 82-88. It passes the canvas's own backing width and
  height as the content size. `ObjectFit.ObjectFitSize` is modelled for
  arbitrary positive sizes, and this wiring is not.
- IEEE-754 rounding. The fit, the layout and `multiplier * channel` are
  computed over exact reals. The brightness multiplier is the exact real
  `percent / 100`. In floating point, a product that lands just beside a
  rounding tie can store a different byte.
- Infinities. Numbers in `Uint8Clamp.Number` are NaN or finite. The pass only
  ever multiplies bytes by a finite multiplier, so Infinity does not arise
  from it.
- ObjectFit.ObjectFitSize: requires all four sizes positive. The code's
  results for zero sizes are not modelled. Depending on which sizes are zero,
  they are a finite rectangle with a zero side, NaN, or Infinity (see
  "Behaviour worth noting").
- SliceLayout.Layout: requires `parts >= 1`. The slider only offers 10 to 100
  slices, and `parts = 0` would divide by zero.
- Brightness.BrightnessAdjustment: works on the copy of the buffer that
  `getImageData` returns and returns the buffer that `putImageData` writes
  back. Writing back is not separately modelled. The copy is a sequence and
  not a mutable array, and a trailing partial pixel is handled by the
  explicit out-of-range read and write rules.
