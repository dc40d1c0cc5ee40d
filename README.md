# Gradii wallpaper editor — a Dafny model of its logic

Gradii is a browser wallpaper editor. The user picks a gradient of random
blobs or a photo, filters, grain, a vignette, and a line or two of text, and
exports the picture as a PNG at one of nine resolutions. This project models
the parts of the editor that compute something, and proves what they
promise:

- **Settings store** (`WallpaperStore`). A class holding every field of the
  global state:
  - the initial state and one setter per field;
  - recolouring one circle;
  - the record of properties the user has modified;
  - palette generation, which snapshots the circles, moves them, and redraws
    every text and background setting the user has not modified.
- **Canvas compositor** (`CanvasPreview`). A 2D context is a class with its
  drawing state (`filter`, `fillStyle`) and a log of drawing calls. It covers:
  - the blob path builder;
  - the background layer, with a cover-fitted photo or one blob per circle;
  - the text layer, with line layout and underline or strikethrough strokes;
  - the composite, which draws the background through the CSS filter chain
    and the text without it.
- **Pixel effects** (`Effects`). The in-place grain pass over an RGBA byte
  array, and the vignette's radial gradient.
- **Desktop and mobile views** (`DesktopApp`, `MobileApp`, `Preview`):
  - preview scale-to-fit and preview boxes;
  - the resolutions offered per aspect ratio, and the effect that selects one;
  - the blob-count slider;
  - the blur presets, the weight slider and Remove Image;
  - on mobile, the width-proportional styles, the layer filter string, the
    text-decoration string and the tab pager.
- **Button bar** (`ButtonsChin`). The aspect-ratio cycle, Generate Gradient,
  undo from the one-deep snapshot, and the re-entrancy guard of the upload
  input.
- **Page handlers** (`Page`):
  - the font-weight correction, which finds the nearest available weight;
  - colour-picker dispatch;
  - upload validation;
  - the download file name, with a parser that reads it back.
- **Safari detection** (`SafariCheck`). The user-agent regular expression
  `/^((?!chrome|android).)*safari/i` (section 22.2 of ECMA-262) as a string
  predicate, with the matcher proved equal to it.
- **Constant tables** (`Constants`):
  - the blob and background palettes;
  - the font catalogue;
  - the resolution table;
  - the two blur preset lists.

Helper modules:

- `Wrappers` holds `Option`.
- `Strings` holds the JavaScript string operations the logic uses: `split`,
  `join`, `filter(Boolean)`, `trim` and decimal number text.
- `Css` holds filter-function chains.
- `Draws` holds `Math.random()` draws as parameters in [0, 1).

Nothing non-deterministic happens inside the model. The following are all
parameters:

- random draws;
- simplex-noise samples;
- `Math.cos` and `Math.sin`;
- how a number is written into a template string;
- the measured width of a line of text.

## Model

| member | source | states |
|---|---|---|
| Constants.FindFontIndex | components/core-ui/desktop-app.tsx:492 | the index of the first catalogue entry with that name, or none iff no entry has it |
| Constants.FindFont | app/page.tsx:15 | `find` yields the first entry of the list with that name, or none iff no entry has it |
| Constants.WeightsCheckSound | lib/constants.ts:55-126 | a weight list whose adjacent entries ascend, all multiples of 100 in 100..900, is strictly ascending throughout |
| Constants.FontsWellFormed | lib/constants.ts:55-126 | every font's weight list is non-empty, strictly ascending, and made of multiples of 100 within 100..900 |
| Constants.DefaultFontIsVariable | lib/constants.ts:82-86 | the default family "Onest" is found in the catalogue (entry 5) and is a variable font |
| Constants.BlurOptionsWellFormed | lib/constants.ts:145-157 | both blur preset lists start with ("None", 0) and their values strictly increase |
| Constants.PalettesWellFormed | lib/constants.ts:19-53 | nine blob colours and nine background colours, each "#" and six hex digits; the default background "#0D1319" is the first background colour |
| Constants.ResolutionsWellFormed | lib/constants.ts:128-143 | every resolution has positive dimensions; desktop, mobile and square each hold a block of three entries that starts with its HD entry |
| Draws.Pick | store/wallpaper.ts:192 | `Math.floor(Math.random() * n)` is a valid index of a list of n elements |
| Draws.Percent | store/wallpaper.ts:110-111 | `Math.random() * 100` lies in [0, 100) |
| Strings.Split | components/core-ui/canvas-preview.tsx:172 | `split("\n")` gives one more piece than there are newlines, and no piece holds a newline |
| Strings.JoinSplit | components/core-ui/canvas-preview.tsx:172 | joining the lines of a split with the separator gives back the text, so no character is lost |
| Strings.NonEmpty | components/core-ui/canvas-preview.tsx:229 | `filter(Boolean)` keeps exactly the non-empty strings: a string is in the result iff it is a non-empty member of the list; the list never grows |
| Strings.NonEmptyAppend | components/core-ui/canvas-preview.tsx:229 | filtering keeps order: the filter of two lists laid end to end is their two filters laid end to end |
| Strings.NonEmptyKeepsAll | components/core-ui/canvas-preview.tsx:229 | filtering a list without empty strings keeps it whole |
| Strings.TrimStart | components/core-ui/mobile-app.tsx:376-378 | the result is a suffix, every dropped character is white space or a line terminator, and it does not start with one |
| Strings.TrimEnd | components/core-ui/mobile-app.tsx:376-378 | the result is a prefix, every dropped character is white space or a line terminator, and it does not end with one |
| Strings.NatToString | app/page.tsx:35 | the decimal text of a number is non-empty, all digits, and starts with 0 only for 0 |
| Strings.NatToStringValue | app/page.tsx:35 | reading the decimal text back gives the number |
| Strings.NatToStringInjective | app/page.tsx:35 | different numbers have different decimal texts |
| Css.Render | components/core-ui/canvas-preview.tsx:224-227 | every filter function's text is non-empty, so `filter(Boolean)` never drops it |
| Css.RenderAll | components/core-ui/canvas-preview.tsx:223-228 | one text per filter term, in order |
| Preview.FitScaleFits | components/core-ui/desktop-app.tsx:224-229 | scaling by `min(cw/rw, ch/rh)` keeps the canvas inside the box on both axes and fills it on one |
| Effects.GrainValue | lib/utils/effects.ts:21-24 | the grain offset lies in [-30, 30], is 0 at intensity 0, and is the unclamped noise times intensity times 50 when that lies within range |
| Effects.ClampStaysNear | lib/utils/effects.ts:27-29 | a value within k of a byte is stored into the clamped array within k of that byte |
| Effects.ClampOfByte | lib/utils/effects.ts:27-29 | storing a byte value into the clamped array gives that byte back |
| Effects.PixelCoordinates | lib/utils/effects.ts:17-18 | for pixel p, x = p mod width lies inside the row and y·width + x = p |
| Effects.GrainedPixel | lib/utils/effects.ts:17-29 | the R, G and B bytes of a pixel all receive that pixel's single grain value; its alpha byte is kept |
| Effects.ApplyGrainEffect | lib/utils/effects.ts:3-33 | after the loop, the buffer is the grained copy of the old buffer: every byte is written once, at its own index |
| Effects.GrainPixel | lib/utils/effects.ts:17-29 | one loop step writes the pixel's three colour bytes and touches no other byte |
| Effects.GrainKeepsAlpha | lib/utils/effects.ts:16-29 | the grain pass keeps the buffer length and never changes an alpha byte (index ≡ 3 mod 4) |
| Effects.GrainChangeBounded | lib/utils/effects.ts:24-29 | every byte moves by at most 30; bytes stay in 0..255 by their type |
| Effects.GrainZeroIntensity | lib/utils/effects.ts:21-29 | grain with intensity 0 leaves the buffer unchanged |
| Effects.VignetteStops | lib/utils/effects.ts:57-59 | stops at 0, 0.7 and 1 with opacities 0, intensity/2 and intensity; nondecreasing for intensity ≥ 0, all zero for intensity 0 |
| Effects.VignetteGeometry | lib/utils/effects.ts:48-55 | the gradient starts as a point at the canvas centre, and its outer radius is the larger half-dimension |
| CanvasPreview.Context.constructor | components/core-ui/canvas-preview.tsx:210-213 | a fresh context has filter "none", the default fill style and no drawing calls |
| CanvasPreview.CoverFitCovers | components/core-ui/canvas-preview.tsx:123-129 | cover fit keeps the photo's proportions, covers the canvas on both axes, matches it on one, and is centred with offsets ≤ 0 |
| CanvasPreview.BuildBlobPath | components/core-ui/canvas-preview.tsx:50-69 | the loop builds the blob path: a move to (x + R, y), one Bézier per segment in order, then a close |
| CanvasPreview.BeziersSnoc | components/core-ui/canvas-preview.tsx:52-67 | loop step i appends the Bézier of segment i to the path so far |
| CanvasPreview.BlobBounds | components/core-ui/canvas-preview.tsx:46-69 | vertex radii in [0.8R, 1.2R), control radii in [1.2R, 1.6R), segments a sixth of a turn apart ending at a full turn, path closed after exactly six Béziers |
| CanvasPreview.SegmentBounds | components/core-ui/canvas-preview.tsx:53-59 | one segment's radii and angles obey the blob bounds |
| CanvasPreview.SegmentRadii | components/core-ui/canvas-preview.tsx:54-59 | the radius bounds for a vertex draw and a control draw |
| CanvasPreview.VertexRadiusBounds | components/core-ui/canvas-preview.tsx:54 | `radius * (1 + (draw - 0.5) * 0.4)` lies in [0.8R, 1.2R) |
| CanvasPreview.ControlRadiusBounds | components/core-ui/canvas-preview.tsx:59 | `radius * (1.2 + draw * 0.4)` lies in [1.2R, 1.6R) |
| CanvasPreview.SegmentAngles | components/core-ui/canvas-preview.tsx:53-58 | segment i ends at i sixths of a turn and starts one sixth earlier |
| CanvasPreview.DrawShape | components/core-ui/canvas-preview.tsx:34-72 | one filled blob in the circle's colour is added to the log; the fill style becomes that colour and the filter is kept |
| CanvasPreview.DrawBackgroundLayer | components/core-ui/canvas-preview.tsx:111-139 | the layer's calls are clear, solid fill, then the cover-fitted photo once loaded or one blob per circle in list order; the filter is kept |
| CanvasPreview.BackgroundLayerContent | components/core-ui/canvas-preview.tsx:115-138 | with a photo no blob is drawn; without one exactly one blob per circle follows the solid fill, in order and in the circle's colour |
| CanvasPreview.BaselineLayout | components/core-ui/canvas-preview.tsx:173-179 | consecutive baselines are one line height apart, baselines i and n−1−i add up to h, and a single line sits at h/2 |
| CanvasPreview.DecorationGeometry | components/core-ui/canvas-preview.tsx:183-195 | strokes are horizontal over [x − m/2, x + m/2]; the underline is at yPos + 3, the strikethrough at yPos − fontSize/4, each present only with its flag |
| CanvasPreview.TextOpsFillEachLine | components/core-ui/canvas-preview.tsx:172-181 | the text layer fills one text per line, in line order, centred at x = w/2 on that line's baseline |
| CanvasPreview.LineOpsFill | components/core-ui/canvas-preview.tsx:181-195 | a line's calls contain exactly one text fill, at its baseline |
| CanvasPreview.FillsAppend | components/core-ui/canvas-preview.tsx:176-196 | the text fills of two call lists laid end to end are the fills of each, in order |
| CanvasPreview.DrawText | components/core-ui/canvas-preview.tsx:156-200 | the log gains the calls of every line of the split text in order; the fill style and filter are restored |
| CanvasPreview.DrawLine | components/core-ui/canvas-preview.tsx:177-195 | one line adds its fill, then one stroke of its decorations when either flag is set |
| CanvasPreview.CssFilterChain | components/core-ui/canvas-preview.tsx:223-230 | the filter string holds blur of a quarter of the value iff blur > 0, first; brightness, contrast and saturate always follow in that order; with blur 0 it is just those three |
| CanvasPreview.CompositeCanvas | components/core-ui/canvas-preview.tsx:202-238 | the calls are clear, fill, background through the filter chain, then the text layer with filter "none"; nothing happens while a layer is missing; from a fresh context, text and base fill are never filtered |
| WallpaperStore.InitialCircles | store/wallpaper.ts:108-112 | one circle per initial colour, in order, each at a position in [0, 100)² |
| WallpaperStore.Store.constructor | store/wallpaper.ts:105-147 | the initial state, field by field; numCircles = \|circles\| = 9 and nothing is recorded as modified |
| WallpaperStore.RecoloredReplacesOne | store/wallpaper.ts:153-161 | recolouring keeps the length, gives circle k the new colour at its old position, and leaves every other circle unchanged |
| WallpaperStore.Store.UpdateColor | store/wallpaper.ts:153-161 | the circle list becomes the old list with circle k recoloured |
| WallpaperStore.TrackedGrows | store/wallpaper.ts:174-177 | tracking adds exactly the one name, keeps every earlier name, grows the set by at most one, and is idempotent |
| WallpaperStore.Store.TrackPropertyModification | store/wallpaper.ts:174-177 | the record becomes the old record plus the name |
| WallpaperStore.Store.SetFontSize | store/wallpaper.ts:163-166 | sets the size and records "fontSize"; the record stays within {fontSize, fontFamily} |
| WallpaperStore.Store.SetFontFamily | store/wallpaper.ts:168-171 | sets the family and records "fontFamily"; the record stays within {fontSize, fontFamily} |
| WallpaperStore.Repositioned | store/wallpaper.ts:182-186 | new positions keep the length and the colours in order, with every position in [0, 100)² |
| WallpaperStore.RandomBackgroundColorInPalette | store/wallpaper.ts:189-195 | a random background is one of the background palette's hex colours |
| WallpaperStore.RandomFontFamily | store/wallpaper.ts:197-200 | a random family is the name of a catalogue entry |
| WallpaperStore.RandomFontFamilyFound | store/wallpaper.ts:197-200 | a random family is found again by name in the catalogue |
| WallpaperStore.RandomFontWeight | store/wallpaper.ts:202-211 | a random weight belongs to the weight list of an independently drawn font, a multiple of 100 in 100..900; the drawn index is in range and every entry has a weight list, so the `||` fallback list is unused |
| WallpaperStore.RandomFontSize | store/wallpaper.ts:213-218 | a random size is one of the ten listed sizes, within 24..60 |
| WallpaperStore.RoundHalfUp | store/wallpaper.ts:222 | rounding to the nearest integer, ties upward, moves by at most one half |
| WallpaperStore.Hundredths | store/wallpaper.ts:222 | the hundredths `toFixed(2)` prints are within half a hundredth of x, and non-negative for x ≥ 0 |
| WallpaperStore.ToFixed2 | store/wallpaper.ts:222 | `Number(x.toFixed(2))` is a whole number of hundredths within 0.005 of x |
| WallpaperStore.RandomLetterSpacing | store/wallpaper.ts:220-224 | a random letter spacing is `Math.random() * 0.15 − 0.05` to two decimals and lies in [−0.05, 0.10] |
| WallpaperStore.Store.GenerateNewPalette | store/wallpaper.ts:178-230 | previousCircles becomes the old circles and circles are moved; each of the five settings is kept iff its name is recorded, and redrawn otherwise; isGenerating is raised |
| WallpaperStore.Store.RedrawUnmodified | store/wallpaper.ts:189-224 | each of background colour, family, weight, size and spacing is kept iff its name is recorded, else set to its random value |
| WallpaperStore.PaletteAlwaysRedraws | store/wallpaper.ts:189-211 | no setter records backgroundColor, fontWeight or letterSpacing, so generation always redraws them: a palette background, a catalogue weight, and a spacing in [−0.05, 0.10] |
| WallpaperStore.Store.FinishGenerating | store/wallpaper.ts:227-229 | the timer lowers isGenerating |
| WallpaperStore.Store.SetTextShadow | store/wallpaper.ts:243-246 | a value is stored as given; a function is applied to the current shadow |
| WallpaperStore.Store.SetCircles | store/wallpaper.ts:150 | sets the circles and nothing else |
| WallpaperStore.Store.SetPreviousCircles | store/wallpaper.ts:151 | sets the snapshot and nothing else |
| WallpaperStore.Store.SetActiveColor | store/wallpaper.ts:152 | sets the active circle and nothing else |
| WallpaperStore.Store.SetText | store/wallpaper.ts:162 | sets the text and nothing else |
| WallpaperStore.Store.SetFontWeight | store/wallpaper.ts:167 | sets the weight without recording it |
| WallpaperStore.Store.SetBackgroundColor | store/wallpaper.ts:172 | sets the background colour without recording it |
| WallpaperStore.Store.SetTextColor | store/wallpaper.ts:173 | sets the text colour and nothing else |
| WallpaperStore.Store.SetActiveTab | store/wallpaper.ts:233 | sets the tab and nothing else |
| WallpaperStore.Store.SetLetterSpacing | store/wallpaper.ts:234 | sets the spacing without recording it |
| WallpaperStore.Store.SetOpacity | store/wallpaper.ts:235 | sets the opacity and nothing else |
| WallpaperStore.Store.SetLineHeight | store/wallpaper.ts:236 | sets the line height and nothing else |
| WallpaperStore.Store.SetBlur | store/wallpaper.ts:237 | sets the blur and nothing else |
| WallpaperStore.Store.SetSaturation | store/wallpaper.ts:238 | sets the saturation and nothing else |
| WallpaperStore.Store.SetContrast | store/wallpaper.ts:239 | sets the contrast and nothing else |
| WallpaperStore.Store.SetBrightness | store/wallpaper.ts:240 | sets the brightness and nothing else |
| WallpaperStore.Store.SetGrainIntensity | store/wallpaper.ts:241 | sets the grain intensity and nothing else |
| WallpaperStore.Store.SetVignetteIntensity | store/wallpaper.ts:242 | sets the vignette intensity and nothing else |
| WallpaperStore.Store.SetIsItalic | store/wallpaper.ts:247 | sets the italic flag and nothing else |
| WallpaperStore.Store.SetIsUnderline | store/wallpaper.ts:248 | sets the underline flag and nothing else |
| WallpaperStore.Store.SetIsStrikethrough | store/wallpaper.ts:249 | sets the strikethrough flag and nothing else |
| WallpaperStore.Store.SetResolution | store/wallpaper.ts:250 | sets the resolution and nothing else |
| WallpaperStore.Store.SetBackgroundImage | store/wallpaper.ts:251 | sets or clears the photo and nothing else |
| WallpaperStore.Store.SetIsUploading | store/wallpaper.ts:252 | sets the uploading flag and nothing else |
| WallpaperStore.Store.SetNumCircles | store/wallpaper.ts:253 | sets the blob count and nothing else |
| WallpaperStore.Store.SetActiveColorPicker | store/wallpaper.ts:254 | sets the picker colour and nothing else |
| WallpaperStore.Store.SetActiveColorType | store/wallpaper.ts:255 | sets the picker target and nothing else |
| DesktopApp.PreviewDimensions | components/core-ui/desktop-app.tsx:142-155 | every aspect ratio has a non-degenerate preview box |
| DesktopApp.GetPreviewScale | components/core-ui/desktop-app.tsx:224-229 | the resolution, scaled, fits the ratio's box on both axes and fills it on one |
| DesktopApp.GetDynamicPreviewDimensions | components/core-ui/desktop-app.tsx:277-286 | the box is never larger than the maximum, keeps its proportions, is the maximum for a wide container, and matches a narrower container's width |
| DesktopApp.PreviewBox | components/core-ui/desktop-app.tsx:1085-1090 | a measured axis is used as measured and an unmeasured (0) axis falls back to the ratio's box, so the preview is never degenerate |
| DesktopApp.FilterByRatio | components/core-ui/desktop-app.tsx:235-237 | the filter keeps only entries of the given ratio and never lengthens the list |
| DesktopApp.FilterByRatioMembers | components/core-ui/desktop-app.tsx:235-237 | an entry is kept iff it is in the table and has the ratio |
| DesktopApp.FilterByRatioFirst | components/core-ui/desktop-app.tsx:240-244 | the filter keeps order: its first element is the first table entry of the ratio |
| DesktopApp.FilteredResolutionsStartAtHD | components/core-ui/desktop-app.tsx:296-303 | every ratio has resolutions, and the first one, which the effect selects, is that ratio's HD entry |
| DesktopApp.View.constructor | components/core-ui/desktop-app.tsx:231-233 | the desktop view starts at the desktop ratio, not changing |
| DesktopApp.View.AspectRatioEffect | components/core-ui/desktop-app.tsx:296-309 | the effect selects the ratio's HD resolution and raises the changing flag |
| DesktopApp.View.FinishAspectRatioChange | components/core-ui/desktop-app.tsx:304-306 | the timer lowers the changing flag |
| DesktopApp.View.SetAspectRatio | components/core-ui/desktop-app.tsx:239-246 | a new ratio runs the effect; choosing the current ratio again changes nothing else |
| DesktopApp.BlurOptions | components/core-ui/desktop-app.tsx:787 | Safari gets the Safari presets, others the standard ones; either list is well formed |
| DesktopApp.OnlyNoneBlurDisabled | components/core-ui/desktop-app.tsx:792-794 | without a photo exactly the first preset ("None", 0) is disabled; with a photo none is |
| DesktopApp.View.SelectBlurOption | components/core-ui/desktop-app.tsx:791 | an enabled preset sets the blur to its value; blur can become 0 only while a photo is set |
| DesktopApp.WeightSliderDisabled | components/core-ui/desktop-app.tsx:491-493 | the slider is enabled iff the first catalogue entry with the family's name is variable |
| DesktopApp.ResizeCircles | components/core-ui/desktop-app.tsx:830-843 | the list has exactly `value` circles; the first min(value, \|circles\|) are kept; appended circle i takes colour i mod \|colors\| at a position in [0, 100)² |
| DesktopApp.View.OnBlobCountChange | components/core-ui/desktop-app.tsx:828-845 | the count and the list length both become the slider value; kept circles are unchanged and new ones take the palette colour of their index at a position in [0, 100)² |
| DesktopApp.View.RemoveImage | components/core-ui/desktop-app.tsx:763-768 | the photo is cleared, and blur becomes 600 only if it was 0 |
| ButtonsChin.AspectIndexIn | components/ui/buttonsChin.tsx:72-74 | `findIndex` gives the first index of the ratio, or −1 iff it is absent |
| ButtonsChin.AspectCycle | components/ui/buttonsChin.tsx:72-76 | the cycle is desktop → mobile → square → desktop: each press changes the ratio, two presses do not return, three do |
| ButtonsChin.UndoOnce | components/ui/buttonsChin.tsx:157-163 | undo restores a non-empty snapshot and empties it; with no snapshot, or a second time, it changes nothing |
| ButtonsChin.UndoAfterGenerate | components/ui/buttonsChin.tsx:157-163 | undo right after Generate gives back the circles Generate replaced |
| ButtonsChin.Chin.constructor | components/ui/buttonsChin.tsx:47 | the bar starts with no upload under way |
| ButtonsChin.Chin.OnAspectClick | components/ui/buttonsChin.tsx:71-77 | the view moves to the next ratio of the cycle, whose HD resolution is then selected |
| ButtonsChin.Chin.OnGenerate | components/ui/buttonsChin.tsx:105-112 | while generating, the disabled button changes nothing; otherwise it snapshots and moves the circles, keeps each of background colour, family, weight, size and spacing iff it is recorded as modified and redraws it otherwise, clears the photo, and sets blur to 200 only if it was 0 |
| ButtonsChin.Chin.OnUndo | components/ui/buttonsChin.tsx:157-163 | the photo is always cleared, and circles and snapshot become the undo of the old pair |
| ButtonsChin.Chin.OnUploadChange | components/ui/buttonsChin.tsx:128-137 | ignored while an upload is under way; otherwise the handler runs and the flag is lowered afterwards |
| Page.NearestIndex | app/page.tsx:18-22 | the reduce's running best over the first k weights is as near as any of them and strictly nearer than every earlier weight |
| Page.ClosestWeight | app/page.tsx:18-22 | the chosen weight is in the list and at least as near the target as every weight; on a tie the earliest such weight wins, as the reduce keeps its running best unless a later weight is strictly nearer |
| Page.FontWeightCorrection | app/page.tsx:14-25 | a variable font keeps its weight; an unknown family makes `reduce` throw; otherwise the weight snaps to the closest of the font's weights |
| Page.FontWeightCorrectionSafe | app/page.tsx:15-22 | for every catalogue font the effect never throws, and a snapped weight belongs to the catalogue |
| Page.FontWeightEffect | app/page.tsx:14-25 | the effect sets the store's weight to the snapped weight, and otherwise leaves it |
| Page.HandleColorChange | app/page.tsx:53-67 | only the field the colour type selects changes; "gradient" with no active circle changes nothing |
| Page.ValidateUpload | app/page.tsx:69-83 | no file, then over 10 MiB (exactly 10 MiB passes), then a type not starting with "image/" are rejected in that order; anything else is accepted |
| Page.DownloadFilename | app/page.tsx:35 | the file name starts with "gradii-" and ends with ".png" |
| Page.DownloadFilenameRoundTrip | app/page.tsx:35 | the file name reads back to exactly the resolution's width and height |
| MobileApp.PreviewDimensions | components/core-ui/mobile-app.tsx:91-104 | every aspect ratio has a non-degenerate preview box |
| MobileApp.GetPreviewScale | components/core-ui/mobile-app.tsx:209-214 | the resolution, scaled, fits the ratio's box on both axes and fills it on one |
| MobileApp.ScaleToWidthProperties | components/core-ui/mobile-app.tsx:364-371 | scaling by width/1920 is the identity at 1920, keeps a non-negative value non-negative, and grows with the width |
| MobileApp.ScaleToWidthProportional | components/core-ui/mobile-app.tsx:364-371 | scaled values at two widths stand in the ratio of the widths |
| MobileApp.StyleForWidth | components/core-ui/mobile-app.tsx:327-371 | at 1920 pixels the preview uses the store's blur, size, spacing and line height unchanged; a wider export never shrinks blur, size or line height |
| MobileApp.LayerFilterChain | components/core-ui/mobile-app.tsx:327-329 | the layer's filter template is the four-function chain, blur first even at 0 |
| MobileApp.LayerFilterMatchesCanvas | components/core-ui/mobile-app.tsx:350-352 | the layer chain ends like the canvas chain, but always has blur, scaled by width, where the canvas drops it at 0 and uses a quarter |
| MobileApp.TextDecorationCases | components/core-ui/mobile-app.tsx:376-378 | the decoration is "underline line-through", "underline", "line-through" or "" for the four flag pairs, with no stray space |
| MobileApp.PhotoHidesColors | components/core-ui/mobile-app.tsx:312-314 | a photo makes the colour layer transparent and disables only the Colors tab; without one the layer shows the background colour and no tab is disabled |
| MobileApp.TabIndexIn | components/core-ui/mobile-app.tsx:202 | `indexOf` gives the first index of the tab, or −1 iff it is absent |
| MobileApp.TabIndices | components/core-ui/mobile-app.tsx:202 | text, colors and effects sit at 0, 1 and 2; the background tab gives −1 |
| MobileApp.NextPager | components/core-ui/mobile-app.tsx:204-207 | the page becomes the new index; the direction is 1 iff the index is past the old page, else −1 |
| MobileApp.MobileView.constructor | components/core-ui/mobile-app.tsx:201-218 | the mobile view starts at the mobile ratio, page 0, direction 0 |
| MobileApp.MobileView.TabEffect | components/core-ui/mobile-app.tsx:204-207 | the pager takes its next state for the tab index |
| MobileApp.MobileView.SelectTab | components/core-ui/mobile-app.tsx:393-404 | an enabled tab becomes active; the pager moves only when the tab index changes |
| MobileApp.MobileView.AspectRatioEffect | components/core-ui/mobile-app.tsx:224-231 | the effect selects the ratio's HD resolution |
| SafariCheck.FoldAscii | hooks/use-safari-check.ts:7 | an upper-case ASCII letter becomes its lower case, anything else is kept, and no upper-case letter remains |
| SafariCheck.ToLowerCase | hooks/use-safari-check.ts:7 | lowercasing keeps the length and folds each character |
| SafariCheck.MatchFromCorrect | hooks/use-safari-check.ts:8 | the matcher from q accepts iff "safari" occurs at some p ≥ q with no "chrome", "android" or line terminator starting in [q, p) |
| SafariCheck.IsSafariMeaning | hooks/use-safari-check.ts:7-8 | the check holds iff the lowercased agent has "safari" at a position before which no "chrome", "android" or line terminator starts |
| SafariCheck.NoSafariNoMatch | hooks/use-safari-check.ts:8 | an agent without "safari" is not Safari |
| SafariCheck.MatchSurvivesSuffix | hooks/use-safari-check.ts:8 | a "chrome" or "android" after the matched "safari" cannot undo the match |
| SafariCheck.IgnoresCase | hooks/use-safari-check.ts:7-8 | lowercasing first gives the same answer as the `i` flag alone, and the check is the same for an agent and its lower case |
| SafariCheck.SameFoldSameMatch | hooks/use-safari-check.ts:8 | two agents that agree up to case get the same answer |
| SafariCheck.SafariHook.constructor | hooks/use-safari-check.ts:4 | the hook is false before its effect runs |
| SafariCheck.SafariHook.RunEffect | hooks/use-safari-check.ts:6-9 | after the effect the hook holds the check's answer for the agent |

## Left out

- Rasterisation is not modelled. That covers Path2D filling, `drawImage` pixels, glyph shapes, CSS filter pixel effects and the vignette's multiply blend. Drawing calls are entries of an operation log, and a line's measured width is a parameter.
- `Math.random`, the simplex-noise field, `Math.cos`, `Math.sin` and number-to-text formatting are parameters. Draws are stated to lie in [0, 1).
- Geometry uses exact reals, not IEEE doubles. In particular `toFixed(2)` rounds the exact value half away from zero.
- Timing and asynchrony are not modelled:
  - the 16 ms composite debounce (its source, lib/utils, is not part of this model);
  - the one-second timers are separate methods (`FinishGenerating`, `FinishAspectRatioChange`);
  - `FileReader`, `Image` load events, `toast`, `toDataURL` and the anchor-click download;
  - `ResizeObserver`.
- The photo's load event is a parameter of `CanvasPreview.DrawBackgroundLayer`: the photo's size once loaded, or none. The layer's own canvas initialisation effect and the text effect's `clearRect` are not modelled.
- The font string (`ctx.font`), `globalAlpha` and `textAlign` are recorded only as the fill's colour and opacity. Canvas text ignores `letterSpacing`, and so does the model.
- The vignette's off-screen canvas and its `fillRect` and `drawImage` calls are not modelled. `Effects.VignetteGradient` gives the gradient only.
- lib/utils/shapes.ts (`generateRandomShape`) is not part of this model. A blob's origin is a parameter.
- RESOLUTIONS is imported by the components and the store, but its definition in lib/constants.ts is a comment. The model uses the commented table as the data.
- Only page.tsx's upload validation is modelled. The desktop view passes its own unvalidated handler to the button bar. Reading the file and page.tsx's direct write to `store.backgroundImage` are not modelled.
- The mobile resolution-cycle button refers to an undeclared `currentResolutionIndex` and is left out.
- The overlay pattern, React rendering, animations and JSX layout are not modelled.
- Both layouts are mounted at once, and the order in which React runs effects is not modelled. Each effect is a method called on its own.
- WallpaperStore.Store.UpdateColor: requires index < |circles|. Past the end, JavaScript writes a colour-only record at that index and leaves holes before it. The model's circle list cannot represent either.
- Page.HandleColorChange: requires that an active circle index lies within the circle list, so the stale-index case is not modelled. That case is reachable. Clicking circle i makes it the active circle (components/core-ui/desktop-app.tsx:863-864). The blob slider then shortens the list without resetting the active circle (components/core-ui/desktop-app.tsx:828-845). The next colour change passes the stale index to `updateColor` (app/page.tsx:62-64), which writes past the end of the array.
- SafariCheck.ToLowerCase: folds ASCII letters only. The user agent is ASCII in practice, and Unicode case mapping is not modelled.
- ButtonsChin.Chin.OnUploadChange: models only the guard and the flag. The awaited upload handler and clearing the input's value are not modelled.
- Effects.ApplyGrainEffect and Effects.VignetteGradient: the default intensities of the source functions (0.15 for grain, 0.7 for the vignette) are not modelled. Intensity is always an explicit parameter.
- Page.FontWeightCorrection: for an unknown family, `reduce` on an empty list throws a TypeError. The model returns `ReduceOfEmptyArray` instead of an exception.
