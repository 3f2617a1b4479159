# Styled QR compositor: a Dafny model

This project models the styled QR code generator component (`QRGenerator`). The component
takes a configuration record and builds the string to encode from the content type and text.
An external encoder turns that string into a module matrix. The component then paints the
matrix onto a canvas: a background, an optional background image, an optional colour
gradient for the marks, one styled mark per dark
module (separate styles for the three corner "eye" blocks), an optional logo on a white
backing, a border and a frame. Around this sit the user actions that edit the configuration
(field updates, branded templates, reset, removing the logo or background) and the
generation step that renders and stores the PNG data URL.

Everything is pure. A render is a `Surface`: its pixel size plus the ordered list of draw
operations, each tagged with its compositing layer. Coordinates are exact `real`s.

Modules, following the component's structure:

- `Basics`: `Option`.
- `Config`: the `QRConfig` record, its defaults, and partial records (`Partial<QRConfig>`).
  Partial records are merged by spread. A key-indexed view (`Get`, `PatchGet`) states
  merge semantics key by key.
- `Templates`: the eight branded presets and template application.
- `Payload`: `generateQRContent` and JavaScript `String.prototype.trim`.
- `Geometry`: boxes, the paths the canvas builds (`drawRoundedRect`, the diamond, the
  leaf), and shapes.
- `Shapes`: `drawDot`.
- `Eyes`: the inline `isEye` classifier and its three corner blocks.
- `Grid`: the module matrix and dark-module counting.
- `Canvas`: draw operations and layers. Also the host rules the code relies on:
  - how an assigned canvas size is stored (WebIDL `unsigned long`, then HTML reflection);
  - `globalAlpha` ignoring out-of-range values;
  - `arc` throwing on a negative radius, and `addColorStop` on a colour that does not parse.
- `Frame`: `drawFrame` and the border stroke.
- `Compositor`: `drawCustomQR` as `Render(config, matrix, hasLogo, hasBackground)`.
- `Controller`: the component state and `generateQR`, `updateConfig`, `applyTemplate`,
  `resetConfig`, `removeLogo` and `removeBackground`. The encoder and `toDataURL` are
  function parameters, and so is the host's colour parser.

Notes on reading the code:

- **Eye blocks.** The `isEye` expression gives a 9×9 top-left block, an 8-wide by 9-tall
  top-right block and a 9-wide by 8-tall bottom-left block, 225 cells in all
  (`Eyes.EyeBlock`, `Eyes.EyeCellCount`).
- **Matrix orientation.** The matrix is read as `m[x][y] = modules.get(x, y)`, with x
  the column drawn. The encoder library's `get` takes (row, column), so the picture is
  the encoder's symbol mirrored about its main diagonal. The eye blocks are symmetric
  under that swap (`Eyes.EyeSymmetric`), so the styling is unaffected.
- **URL check.** It tests for the four letters `http`, not for a scheme, so content such
  as `httpbin.org` is passed through without one (`Payload.UrlPrefixCheck`).
- **Negative mark size.** A mark's side is `cell - 2·dotPadding`. When dotPadding exceeds
  half a cell and the style is circle, `arc` throws. The render stops part-way and
  `generateQR` reports a failure (`Compositor.RenderCompletes`,
  `Controller.FaultKeepsDataUrl`). The sliders allow this: dotPadding reaches 5 while a
  cell can be under 2 px.
- **Gradient colours.** With the gradient on, the foreground and gradient colours become
  colour stops, and `addColorStop` throws on a string the colour parser rejects. Both
  colours also have free-text inputs, so this can happen. The throw comes after the
  background fill and image and before any mark, so the canvas keeps only those two and
  `generateQR` reports a failure (`Compositor.GradientStopsEarly`,
  `Controller.GradientFaultKeepsDataUrl`). The host's colour parser is a parameter
  (`Canvas.ColorParser`).

## Model

All source paths are in `Project/components/QRGenerator.tsx`.

| member | source | states |
|---|---|---|
| Config.KeysDetermineConfig | Project/components/QRGenerator.tsx:35-76 | Two configurations that agree on every `QRConfig` key are equal: the key view covers all fields. |
| Config.MergeAt | Project/components/QRGenerator.tsx:261-263 | After `{...prev, ...updates}`, a key holds the update's value when listed and the previous value otherwise. |
| Config.MergeIdempotent | Project/components/QRGenerator.tsx:261-263 | Applying the same update twice equals applying it once. |
| Config.MergeEmpty | Project/components/QRGenerator.tsx:261-263 | The empty update lists no key and changes nothing. |
| Config.MergeThen | Project/components/QRGenerator.tsx:261-263 | Two successive updates equal one update of the combined record, later keys winning. |
| Config.MergeShadowed | Project/components/QRGenerator.tsx:261-263 | An update listing every key of an earlier one erases the earlier one entirely. |
| Templates.PresetKeys | Project/components/QRGenerator.tsx:122-249 | No branded template lists a key outside the ten style keys. |
| Templates.GradientPresetKeys | Project/components/QRGenerator.tsx:122-249 | Instagram, Premium and Modern list every style key. |
| Templates.TemplatesTouchOnlyStyle | Project/components/QRGenerator.tsx:122-249 | Applying any branded template leaves every non-style key (content, type, level, sizes, images) unchanged. |
| Templates.ApplyIdempotent | Project/components/QRGenerator.tsx:560-563 | Applying a template twice equals applying it once. |
| Templates.InstagramPreset | Project/components/QRGenerator.tsx:123-139 | Instagram sets `#E4405F`, circle dots, rounded eyes and the `#fd5949` gradient, and keeps content, type and level. |
| Templates.GradientSurvivesPlainPreset | Project/components/QRGenerator.tsx:140-214 | Facebook, Twitter, LinkedIn, YouTube and Spotify keep the gradient setting, so Instagram's gradient survives a switch to them. |
| Templates.GradientPresetOverridesAll | Project/components/QRGenerator.tsx:122-249 | A gradient preset applied after any preset leaves no trace of the earlier one. |
| Payload.TrimStart | Project/components/QRGenerator.tsx:504 | The result is a suffix of the input, everything dropped is JavaScript white space, and it does not start with white space. |
| Payload.TrimEnd | Project/components/QRGenerator.tsx:504 | The result is a prefix of the input, everything dropped is white space, and it does not end with white space. |
| Payload.BlankIffAllSpace | Project/components/QRGenerator.tsx:504 | Content counts as empty after trimming exactly when every character is white space. |
| Payload.TrimIsInnerPiece | Project/components/QRGenerator.tsx:504 | The trimmed text is a contiguous piece of the input with no white space at either end. |
| Payload.FormatShape | Project/components/QRGenerator.tsx:265-288 | Every type but url wraps the content in its fixed head and tail. A url keeps content starting with `http` and otherwise gets `https://` in front. |
| Payload.TypeAffixes | Project/components/QRGenerator.tsx:265-288 | The heads and tails are `mailto:`, `tel:`, `sms:`, `geo:`, the WPA network string, and the vCard 3.0 with one FN line. Text and event add nothing. |
| Payload.ParseFormat | Project/components/QRGenerator.tsx:265-288 | For every type but url, the content can be recovered from the payload. |
| Payload.FormatInjective | Project/components/QRGenerator.tsx:265-288 | For every type but url, different contents give different payloads. |
| Payload.UrlPayloadStable | Project/components/QRGenerator.tsx:269-270 | A url payload starts with `http`, and formatting it again does not change it. |
| Payload.UrlPrefixCheck | Project/components/QRGenerator.tsx:269-270 | `httpbin.org` passes through without a scheme. `example.com` and `https://example.com` give the same payload. |
| Geometry.RoundedRectPath | Project/components/QRGenerator.tsx:450-462 | The path is closed and ends where it starts. It stays within its box when the radius fits. With radius 0 its anchors are the box corners. |
| Geometry.RhombusPath | Project/components/QRGenerator.tsx:425-433 | The diamond is closed, has the four edge midpoints as vertices, and stays within its box. |
| Geometry.TeardropPath | Project/components/QRGenerator.tsx:434-441 | The leaf runs bottom-left, top-middle, bottom-right and back, and stays within its box. |
| Geometry.RectPath | Project/components/QRGenerator.tsx:442-444 | The square is the four box corners, closed, within its box. |
| Geometry.OutlineWithinBounds | Project/components/QRGenerator.tsx:411-448 | Every well-formed outlined mark encloses a region and stays within its bounds. |
| Geometry.DiskBounds | Project/components/QRGenerator.tsx:416-420 | A disk's bounds are centred on it and span its diameter. |
| Shapes.DrawDot | Project/components/QRGenerator.tsx:411-448 | Each style gives a distinct shape, readable back from it. Every mark spans exactly its box. The mark is well formed exactly when its side is non-negative. |
| Shapes.DotGeometry | Project/components/QRGenerator.tsx:411-448 | Circle gives the inscribed disk of radius size/2; rounded uses radius 0.3·size; diamond's vertices are the edge midpoints; leaf is the teardrop; anything else is the full square. |
| Shapes.DotWithinBox | Project/components/QRGenerator.tsx:411-448 | A mark with a non-negative side stays within its box, whatever the style. |
| Shapes.StyleFamilies | Project/components/QRGenerator.tsx:32-33 | Only an eye style can produce the leaf, and only a dot style the diamond. |
| Eyes.EyeBlock | Project/components/QRGenerator.tsx:358 | The three corner blocks lie within the symbol. |
| Eyes.EyeIffInBlock | Project/components/QRGenerator.tsx:358 | `isEye` holds exactly on the cells of the top-left, top-right and bottom-left blocks. |
| Eyes.EyeBlocksDisjoint | Project/components/QRGenerator.tsx:358 | The three blocks do not overlap on any symbol of side at least 17. |
| Eyes.EyeSymmetric | Project/components/QRGenerator.tsx:358 | Swapping column and row keeps the classification. |
| Eyes.DataRegion | Project/components/QRGenerator.tsx:358 | Cells with x ≥ 9 and y ≥ 9, and cells in the bands between blocks, are never eye. |
| Eyes.EyeCellCount | Project/components/QRGenerator.tsx:358 | The classifier marks exactly 225 cells (81 + 72 + 72). |
| Grid.ScanDarkIsCellCount | Project/components/QRGenerator.tsx:350-352 | Counting dark modules row by row in scan order gives the matrix's dark-module count. |
| Canvas.ToUint32 | Project/components/QRGenerator.tsx:323-324 | An assigned canvas size is converted to an unsigned 32-bit value. |
| Canvas.CanvasDimension | Project/components/QRGenerator.tsx:323-324 | The stored canvas size is at most 2^31−1, or the attribute's default. |
| Canvas.CanvasDimensionCases | Project/components/QRGenerator.tsx:323-324 | A whole in-range size is stored exactly. A fractional one is truncated. A negative one falls back to the default. |
| Canvas.GlobalAlpha | Project/components/QRGenerator.tsx:333 | The effective opacity lies in [0, 1] and equals the assigned value exactly when that value is in range. |
| Canvas.Run | Project/components/QRGenerator.tsx:309-409 | Executing operations paints a prefix of them. It completes exactly when none throws, whether from a negative arc radius or a colour stop that does not parse. Otherwise the next operation is the one that threw. |
| Canvas.RunStopsAt | Project/components/QRGenerator.tsx:309-409 | After operations that cannot throw comes one that does: the canvas keeps exactly the first part, and the run does not complete. |
| Frame.DrawFrame | Project/components/QRGenerator.tsx:464-501 | Every frame operation sits on the frame layer. |
| Frame.DrawBorder | Project/components/QRGenerator.tsx:387-397 | A border is one stroke in the border colour and width, exactly when the width is positive. It runs around the whole surface and is rounded exactly when the radius is positive. |
| Frame.BandsPaintRing | Project/components/QRGenerator.tsx:469-474 | The four bands paint exactly the pixels within 40 of an edge. |
| Frame.FrameGeometry | Project/components/QRGenerator.tsx:464-491 | Square draws the four bands. Rounded draws the same bands inside a radius-20 clip. Circle draws disks of radius 20 at (w/2, 20) and (w/2, h−20) that touch the edges. |
| Frame.FrameLabel | Project/components/QRGenerator.tsx:495-500 | Text is drawn, last, in white 16px Arial at (w/2, 26), exactly when it is non-empty. |
| Frame.BorderPath | Project/components/QRGenerator.tsx:387-397 | Without a radius the stroked path visits the four surface corners. With corners that fit, it never leaves the surface. |
| Compositor.MarkInCell | Project/components/QRGenerator.tsx:353-355 | The mark box is the cell shrunk evenly by dotPadding: same centre, square, within the cell, strictly inside when 0 < dotPadding < cell/2. |
| Compositor.CellsTileRegion | Project/components/QRGenerator.tsx:321-355 | Every cell lies within the region (padding, padding, size, size), and neighbouring cells share an edge. |
| Compositor.ScanRow | Project/components/QRGenerator.tsx:350-369 | One row emits only marks of dark modules in that row, as many as the row has dark modules. |
| Compositor.ScanRowOrdered | Project/components/QRGenerator.tsx:350-351 | A row's marks come left to right. |
| Compositor.ScanRowHits | Project/components/QRGenerator.tsx:350-352 | A row holds a mark at column x exactly when that module is dark. |
| Compositor.ScanRows | Project/components/QRGenerator.tsx:348-369 | The scan emits only marks of dark modules, as many as the scanned rows hold. |
| Compositor.ScanRowsOrdered | Project/components/QRGenerator.tsx:350-351 | Marks come row by row, left to right within a row. |
| Compositor.ScanRowsHits | Project/components/QRGenerator.tsx:348-369 | The scan holds a mark for (x, y) exactly when that module is dark. |
| Compositor.Render | Project/components/QRGenerator.tsx:309-409 | The surface takes the stored canvas size, and the first operation fills it with the background colour. |
| Compositor.SurfaceSize | Project/components/QRGenerator.tsx:323-324 | For whole in-range sizes the surface is (size + 2·padding) square, independent of the matrix. |
| Compositor.RenderLayersOrdered | Project/components/QRGenerator.tsx:326-403 | Operations never go back to a lower layer: background, image, gradient, marks, logo, border, frame. |
| Compositor.RenderSteps | Project/components/QRGenerator.tsx:331-403 | The background image appears iff loaded, the gradient setup iff enabled, the logo iff loaded, the border iff its width > 0, and the frame iff its style is not none. |
| Compositor.BackgroundImagePlacement | Project/components/QRGenerator.tsx:331-335 | The background image is the second operation, drawn over (padding, padding, size, size) with `backgroundImageOpacity`/100 as its alpha. That region runs from the first cell's corner to the last cell's far corner. |
| Compositor.RenderMarkAt | Project/components/QRGenerator.tsx:348-369 | A dark module gets a mark and a light one gets none. |
| Compositor.RenderMarks | Project/components/QRGenerator.tsx:348-369 | Every mark is the styled shape of a dark module in the module paint, and marks are in scan order. |
| Compositor.RenderMarkCount | Project/components/QRGenerator.tsx:348-369 | The number of marks equals the number of dark modules. |
| Compositor.RenderMarkStyles | Project/components/QRGenerator.tsx:339-369 | A mark uses the eye style inside the eye blocks and the dot style elsewhere, spans its mark box, and is filled with the foreground colour or the (0,0)→(w,h) gradient. |
| Compositor.ThrowingOps | Project/components/QRGenerator.tsx:339-345 | An operation throws exactly when it is a circle mark with dotPadding over half a cell, or the setup of a gradient whose colours do not parse. |
| Compositor.RenderCompletes | Project/components/QRGenerator.tsx:309-409 | A render completes exactly when the gradient is off or its colours parse, and no dark module's mark faults. When the colours do not parse, the canvas keeps only the background fill and image. |
| Compositor.SetupAfterBackdrops | Project/components/QRGenerator.tsx:326-345 | With the gradient on, its setup follows the background fill and image. It goes along the surface diagonal, with the foreground colour at 0 and the gradient colour at 1. |
| Compositor.GradientStopsEarly | Project/components/QRGenerator.tsx:339-345 | A gradient colour that does not parse stops the render right after the background fill and image, before any mark, logo, border or frame. |
| Compositor.PaddingThatFits | Project/components/QRGenerator.tsx:339-355 | With dotPadding at most half a cell no mark faults: the render completes exactly when the gradient is off or its colours parse. |
| Compositor.LogoPlacement | Project/components/QRGenerator.tsx:372-384 | The logo's side is size·logoSize/100 and it is centred on the region. It sits strictly inside a white backing 5 px larger on each side and is drawn with the set opacity. |
| Compositor.LogoInRegion | Project/components/QRGenerator.tsx:373-375 | With logoSize in [0, 100] the logo lies within the symbol's region. |
| Compositor.DefaultSurface | Project/components/QRGenerator.tsx:78-108 | The default configuration gives a 340 px square surface. |
| Compositor.DefaultMarks | Project/components/QRGenerator.tsx:78-108 | Under the defaults every mark is a square filling its whole cell of side 300/n. |
| Compositor.DefaultRender | Project/components/QRGenerator.tsx:309-409 | Defaults without images give a white 340 px fill and then exactly one black cell-sized square per dark module. The render completes whatever the colour parser, since the gradient is off. |
| Controller.GenerateQR | Project/components/QRGenerator.tsx:503-525 | Blank content changes nothing and reports the empty-content toast. Otherwise generation ends not generating. The configuration and images never change. A changed data URL is always the serialised canvas. Only failures are reported. |
| Controller.EncoderFailureKeepsImage | Project/components/QRGenerator.tsx:313-317 | An encoder failure leaves the data URL and the canvas exactly as they were and reports the failure. |
| Controller.SuccessShowsRender | Project/components/QRGenerator.tsx:510-517 | When no mark faults and the gradient is off or its colours parse, generation puts the render of the encoded payload on the canvas and stores its serialisation. |
| Controller.FaultKeepsDataUrl | Project/components/QRGenerator.tsx:518-524 | A render that throws keeps the old data URL, leaves the resized canvas part-painted, and reports the failure. |
| Controller.GradientFaultKeepsDataUrl | Project/components/QRGenerator.tsx:518-524 | With the gradient on and a colour that does not parse, the old data URL stays. The resized canvas holds only the background fill and image, with no marks, and the failure is reported. |
| Controller.NoContextSerializesCanvas | Project/components/QRGenerator.tsx:310-311 | Without a 2D context nothing is drawn, yet the unchanged canvas is serialised into the data URL. |
| Controller.UpdateConfigChanges | Project/components/QRGenerator.tsx:261-263 | An update changes exactly its listed keys, to the listed values, and nothing outside the configuration. |
| Controller.ApplyTemplate | Project/components/QRGenerator.tsx:560-563 | Applying a template changes nothing outside the configuration and announces the template by name. |
| Controller.ApplyTemplateKeeps | Project/components/QRGenerator.tsx:560-563 | A template keeps content, type, level, images and data URL, and applying it again changes nothing. |
| Controller.ResetConfig | Project/components/QRGenerator.tsx:552-558 | After reset the state is the initial one (default configuration, empty data URL, no logo, no background) except for the canvas and the generating flag. |
| Controller.ResetRestoresDefaults | Project/components/QRGenerator.tsx:552-558 | Reset is idempotent, and the next successful generation after it draws the default 340 px symbol with no images and one mark per dark module. |
| Controller.RemoveLogo | Project/components/QRGenerator.tsx:597-601 | removeLogo leaves no logo file, an empty logo URL and no decoded logo, and changes nothing outside the configuration and the logo. |
| Controller.ClearLogoKeys | Project/components/QRGenerator.tsx:599 | The logo update lists exactly `logoFile` and `logoUrl`. |
| Controller.RemoveLogoClearsOnlyLogo | Project/components/QRGenerator.tsx:597-601 | removeLogo clears the logo fields and image and keeps every other key, the background and the data URL. It is idempotent. |
| Controller.RemoveLogoDropsLogoStep | Project/components/QRGenerator.tsx:597-601 | After removeLogo the next render has no logo step. |
| Controller.RemoveBackground | Project/components/QRGenerator.tsx:603-607 | removeBackground leaves no background file, an empty background URL and no decoded image, and changes nothing outside the configuration and the background. |
| Controller.ClearBackgroundKeys | Project/components/QRGenerator.tsx:605 | The background update lists exactly `backgroundImageFile` and `backgroundImageUrl`. |
| Controller.RemoveBackgroundClearsOnlyBackground | Project/components/QRGenerator.tsx:603-607 | removeBackground clears the background fields and image and keeps every other key, the logo and the data URL. It is idempotent. |
| Controller.RemoveBackgroundDropsImageStep | Project/components/QRGenerator.tsx:603-607 | After removeBackground the next render has no background-image step. |

## Left out

- The QR encoder (`QRCode.create`) is a library outside this model. Generation takes it as a parameter that returns a matrix of a valid symbol side, or fails. Symbol contents and error-correction capacity are not modelled.
- Asset loading is not modelled: `fileToDataUrl`, `loadImage`, the upload handlers and the effect that reloads images from stored URLs are browser I/O. The state only records whether a decoded logo or background is held.
- Export is not modelled: `toDataURL` is a parameter, and `downloadQR` and `copyQR` are DOM, clipboard and fetch I/O.
- Reactive re-rendering on configuration changes is not modelled. It is scheduled by the framework, and overlapping asynchronous generations and their ordering are out of scope. Each action is one sequential step.
- Rasterisation is not modelled: pixels, anti-aliasing, gradient interpolation, font metrics, text alignment, clipping and blending. Opacity is recorded as a value on the draw operation.
- Colour strings are opaque, except that whether the host parses one is a parameter (`Canvas.ColorParser`). An invalid `fillStyle` or `strokeStyle` assignment is ignored by the canvas, which keeps the previous style. The model records the configured string there, not the style the canvas falls back to.
- `patternShape`, `cornerStyle`, `isDynamic` and `exportSize` are carried as fields but never read by the renderer.
- Numbers are exact reals rather than IEEE doubles. Rounding in `size / n`, NaN and infinities are not modelled.
- Strings are sequences of characters, not UTF-16 code units. `trim` is modelled over the ECMAScript white-space and line-terminator code points.
- An update is a record of optional fields. A key present with the value `undefined` is not distinguished from an absent key.
- The toasts are recorded as values, not shown. The `console` logging is dropped.
- The JSX form, the slider ranges and the other page components are presentation only.
- Canvas.Throws: only the negative-radius `arc` and `addColorStop` with a colour that does not parse are modelled as throwing. Other canvas failures, such as an undecodable image, are outside the model.
- Compositor.SurfaceSize: stated only for whole, non-negative sizes up to 2^31−1. Other sizes are covered by `Canvas.CanvasDimensionCases`.
