# Ocean scene: picking and terrain, modelled in Dafny

This project models the two deterministic parts of a three.js ocean scene.

**Picking** (`front/app/PickHelper.js`). Once per frame, the pick helper undoes the previous highlight: it restores the saved colour, hides the label and forgets the object. It then keeps the raycaster intersections whose node has a material named `submarine`. The nearest of them gets picked: its label is shown, its colour saved, and the colour replaced by `0xFF0000`. Pointer events are turned into the module-level normalised coordinates `pickPosition`, and leaving the window moves that position to -100000.

**Terrain** (`front/app/index.js`). `generateHeight` replaces `Math.random` by a seeded counter, draws `z`, and accumulates four noise passes (quality 1, 5, 25, 125) into a `Uint8Array`. `init` sets the y component of every plane vertex to five times its cell's height. `generateTexture` shades a base image from the heights. It then dithers the four-times upscaled copy with one draw of the same counter per pixel.

The state lives in classes and arrays, and the methods update it in place:
- `PickHelper`, `Material`, `Object3D` (a node, carrying the material its submarine shares), `PickPosition` and `Canvas` are classes;
- the height field, vertex buffer and image data are `array`s;
- the random counter is the class `SeededRandom`.

Each method is proved against a function that defines its result (`Candidates`, `Normalized`, `HeightField`, `Displaced`, `BaseImage`, `Dithered`). Lemmas then state what the source promises about those functions.

The files are:
- `js_numbers.dfy`: the ECMAScript conversions the code relies on, over exact reals. These are `~~x` (ToInt32), stores into a `Uint8Array` (ToUint8) and into a `Uint8ClampedArray` (ToUint8Clamp, ties to even), and `x - Math.floor(x)`.
- `picking.dfy`: the pick helper, the pointer mapping, and the submarine material built by `addSubmarine`.
- `terrain.dfy`: the random replacement, the height field, the vertex loop and the two pixel loops.
- `wrappers.dfy`: `Option`.

Points of the code the model keeps as they are:
- generateHeight checks no dimensions: they are `nat`, and zero gives an empty height array.
- The dither draws one amount per pixel and adds it to R, G and B alike.
- `material.label.style` is read without a check, and no material is ever given a `label`; see Findings.
- Cells wrap modulo 256 because `data` is a `Uint8Array`. Each cell holds the sum of the whole-number parts of its pass contributions, modulo 256.

## Model

| member | source | states |
|---|---|---|
| JsNumbers.Truncate | front/app/index.js:126 | the integer part is within 1 of x, toward zero, on each side of 0 |
| JsNumbers.ToInt32 | front/app/index.js:126 | `~~x` lies in the signed 32-bit range and differs from the truncation by a multiple of 2^32 |
| JsNumbers.ToInt32OfSmall | front/app/index.js:183 | on a value in [0, 2^31) `~~x` is its floor: no wrap |
| JsNumbers.ToUint8 | front/app/index.js:127 | a Uint8Array store keeps the truncation modulo 256 |
| JsNumbers.AddToByte | front/app/index.js:127 | `data[i] += f` with f >= 0 stores `(data[i] + floor(f)) mod 256` |
| JsNumbers.ToUint8Clamp | front/app/index.js:165-167 | a clamped store gives 0 at or below 0 and 255 at or above 255; otherwise the nearest integer, ties to even |
| JsNumbers.ToUint8ClampMonotonic | front/app/index.js:165-167 | clamped stores preserve the order of the values stored |
| JsNumbers.ToUint8ClampOfInt | front/app/index.js:184-186 | a clamped store of an integer cuts it to 0..255 |
| JsNumbers.Fract | front/app/index.js:113 | `x - Math.floor(x)` is in [0, 1), and x minus it is an integer |
| Picking.IsPickable | front/app/PickHelper.js:44 | the filter's test: the node has a material and its name is "submarine"; Candidates states what it keeps |
| Picking.Material.constructor | front/app/index.js:88 | a new material has the given name and colour and no label |
| Picking.Candidates | front/app/PickHelper.js:43-44 | the filter keeps exactly the intersections whose node has a material named "submarine", and nothing else |
| Picking.FirstCandidate | front/app/PickHelper.js:46-48 | the first candidate is the first pickable intersection of the list |
| Picking.FirstCandidateIsNearest | front/app/PickHelper.js:47-48 | on a distance-ordered list the first candidate is no farther than any pickable hit |
| Picking.PickPosition.constructor | front/app/PickHelper.js:3 | the shared pick position starts at (0, 0) |
| Picking.CanvasRelativePosition | front/app/PickHelper.js:57-63 | getCanvasRelativePosition: the pointer's offset in the bounding box, rescaled to drawing-buffer pixels; CanvasRelativeEdges and PickPositionIgnoresBufferSize state its properties |
| Picking.Normalized | front/app/PickHelper.js:67-68 | the pair setPickPosition stores; NormalizedRange, NormalizedCorners, NormalizedRoundTrip and NormalizedFlipsY state its properties |
| Picking.CanvasRelativeEdges | front/app/PickHelper.js:57-63 | the edges of the bounding box map to 0 and to the buffer size; a pointer inside the box maps inside the buffer |
| Picking.NormalizedRange | front/app/PickHelper.js:67-68 | a canvas point is inside the canvas if and only if its normalised coordinates are in [-1, 1], on each axis |
| Picking.NormalizedCorners | front/app/PickHelper.js:67-68 | x = 0 and x = width go to -1 and 1; y = 0 and y = height go to 1 and -1; the centre goes to (0, 0) |
| Picking.NormalizedRoundTrip | front/app/PickHelper.js:67-68 | normalising and denormalising are inverse to each other, in both orders |
| Picking.NormalizedFlipsY | front/app/PickHelper.js:68 | the y axis is flipped: lower on the canvas means a smaller normalised y |
| Picking.PickPositionIgnoresBufferSize | front/app/PickHelper.js:57-69 | the stored position depends only on the pointer's place in the bounding box; the buffer size cancels |
| Picking.PointerNeverLooksCleared | front/app/PickHelper.js:57-74 | a pointer inside the canvas gives coordinates in [-1, 1], never the cleared -100000 |
| Picking.PickHelper.constructor | front/app/PickHelper.js:6-10 | nothing is picked and the saved colour is 0 |
| Picking.PickHelper.Pick | front/app/PickHelper.js:32-55 | the previous pick's colour is restored and its label hidden first. With a candidate, the first one is picked, its label shown, its pre-highlight colour saved and its colour set to 0xFF0000. Without one, nothing is picked. A missing label throws at line 36 or 49, with the state written up to there; a throw at line 36 comes before the ray test, so no candidate's material is written. Re-picking the same material keeps the first saved colour, never red. The object stays a candidate |
| Picking.PickHelper.SetPickPosition | front/app/PickHelper.js:65-69 | the shared position becomes the normalised canvas-relative pointer position |
| Picking.PickHelper.ClearPickPosition | front/app/PickHelper.js:71-74 | both coordinates become -100000, outside [-1, 1] |
| Picking.LoadSubmarine | front/app/index.js:88-89 | one fresh black material named "submarine", without a label, shared by every node, so every node is pickable |
| Picking.LoadLabelledSubmarine | front/app/index.js:88-89 | the same material with a hidden label |
| Picking.UnlabelledHitThrows | front/app/PickHelper.js:34-49 | as written: the frame that first hits a loaded submarine throws, and every later frame throws at the restore |
| Picking.LabelledHitHighlights | front/app/PickHelper.js:34-53 | with a label: both frames finish normally; afterwards nothing is picked and the submarine is black with its label hidden |
| Terrain.SeededRandom.constructor | front/app/index.js:109-110 | installing the replacement starts its counter at the first seed |
| Terrain.SeededRandom.Next | front/app/index.js:110-115 | each call returns the value of the current seed, in [0, 1), and advances the counter by one |
| Terrain.Draw | front/app/index.js:112-113 | every draw lies in [0, 1) |
| Terrain.Z | front/app/index.js:118 | z is the first draw times 100, in [0, 100) |
| Terrain.Quality | front/app/index.js:120-131 | the quality of each pass is at least 1; QualitySchedule gives the four values |
| Terrain.QualitySchedule | front/app/index.js:120-131 | the four passes use quality 1, 5, 25, 125 |
| Terrain.Row | front/app/index.js:126 | the row `~~(i / width)` of cell i; CellCoordinates states that it is `i / width` inside the grid |
| Terrain.CellCoordinates | front/app/index.js:117-126 | cell i has column `i % width` and row `~~(i / width)`, that is `i / width`, both inside the grid, and i = row · width + column |
| Terrain.PassTerm | front/app/index.js:127 | each pass term is non-negative |
| Terrain.Accumulated | front/app/index.js:127 | the unwrapped sum of the whole-number parts of a cell's first pass terms; AccumulatedGrows and PassStep state its properties |
| Terrain.Cell | front/app/index.js:127 | a cell after some passes: Accumulated modulo 256; PassStep ties it to one store |
| Terrain.AccumulatedGrows | front/app/index.js:127 | before wrapping a later pass never lowers a cell |
| Terrain.PassStep | front/app/index.js:127 | one store turns the wrapped sum of j passes into that of j + 1 |
| Terrain.StoreStep | front/app/index.js:126-127 | the store with the loop's own column, row and quality variables is that step |
| Terrain.HeightField | front/app/index.js:117 | the height field has width · height cells |
| Terrain.GenerateHeight | front/app/index.js:107-137 | the array holds, for each cell, the sum of the whole-number parts of its four pass contributions, modulo 256; exactly one draw is made |
| Terrain.AddPass | front/app/index.js:124-129 | one pass updates every cell exactly once: from the sum of j passes to that of j + 1 |
| Terrain.HeightIsReproducible | front/app/index.js:109-118 | two calls give the same heights, whatever number of draws is made between them |
| Terrain.Displaced | front/app/index.js:44-50 | displacement keeps the vertex buffer's length |
| Terrain.DisplacedVertex | front/app/index.js:46-48 | vertex i gets y = 5 · data[i], and its x and z stay |
| Terrain.DisplaceVerticesAsWritten | front/app/index.js:46-50 | as written: the buffer ends displaced, after 2 · n stray iterations past the data |
| Terrain.DisplaceVertices | front/app/index.js:46-50 | with j < l: the buffer ends displaced |
| Terrain.Interior | front/app/index.js:158-160 | whether all four neighbour reads `data[j ± 2]` and `data[j ± 2·width]` lie inside the array; Shade states what follows |
| Terrain.Shade | front/app/index.js:158-163 | the Lambert term of the neighbours' height differences, NaN where a neighbour read falls outside the array; BorderPixelIsBlack states what that does to the image |
| Terrain.Ambient | front/app/index.js:165 | the height factor is at least 0.5 |
| Terrain.BaseChannel | front/app/index.js:165-167 | one clamped channel store of a base pixel; a NaN shade stores 0; BorderPixelIsBlack, ShadowHasNoBlue and WarmPalette state its properties |
| Terrain.ChannelValue | front/app/index.js:165-167 | the red, green and blue products before the clamped store; ShadowHasNoBlue and WarmPalette state their properties |
| Terrain.ShadowHasNoBlue | front/app/index.js:167 | a shade of at most 0 gives blue 0 |
| Terrain.WarmPalette | front/app/index.js:165-167 | for a shade in [-1, 1], red >= green >= blue |
| Terrain.BaseImage | front/app/index.js:157-168 | the base image has the size of the image it starts from |
| Terrain.BasePrefixPixel | front/app/index.js:157-168 | pixel j of the base image holds the channels of its own shade and height at 4j..4j+2, and the old alpha |
| Terrain.BaseImagePixel | front/app/index.js:157-168 | the same for the whole image |
| Terrain.BorderPixelIsBlack | front/app/index.js:158-167 | a pixel whose neighbour reads fall outside the height array is black in the base image: bytes 4j..4j+2 are 0, alpha stays |
| Terrain.FillBase | front/app/index.js:157-168 | the first pixel loop leaves exactly the base image |
| Terrain.DitherValue | front/app/index.js:183 | every dither amount is in 0..4 |
| Terrain.Dithered | front/app/index.js:182-187 | dithering keeps the image size |
| Terrain.DitherPrefixPixel | front/app/index.js:182-187 | pixel q adds the amount of draw first + q to each of R, G and B, stopping at 255; alpha stays |
| Terrain.DitheredPixel | front/app/index.js:182-187 | the same for the whole image |
| Terrain.DitherIsSlight | front/app/index.js:182-187 | dithering never darkens a channel, brightens it by at most 4, and keeps alpha |
| Terrain.Dither | front/app/index.js:182-187 | the second pixel loop leaves exactly the dithered image and makes one draw per pixel |
| Terrain.DitherAmount | front/app/index.js:183 | one draw gives that draw's amount |
| Terrain.DitherPixel | front/app/index.js:184-186 | one pixel's R, G and B gain v, stopping at 255, and no other byte changes |
| Terrain.GenerateTexture | front/app/index.js:139-191 | the base image is the shaded opaque-black canvas, the copy is width · 4 by height · 4, and the copy is dithered from the counter's current draw |
| Terrain.BuildTerrain | front/app/index.js:36-52 | for the 512 × 512 world: the heights, the plane lifted by the vertex loop as written, the base image, a 2048 × 2048 dithered copy starting at draw 1 + the later draws, all fixed by the inputs |

## Left out

- ImprovedNoise (index.js:5, 118, 127) is a foreign library. It is the input function `Noise`, and only its use in the pass term is modelled.
- The values `Math.sin(seed) * 10000` are the input `hash`. Floating-point sine is not modelled; only `x - Math.floor(x)` of it is.
- The shading float maths (`normalize`, `dot` with the normalised sun, index.js:158-163) is the input function `Lambert` of the two height differences. A border pixel reads `undefined`, so its shade is NaN, and a NaN channel stores 0.
- All arithmetic is over exact reals. Binary rounding of the float products before a store is not modelled.
- The canvas operations `drawImage` and `scale` (index.js:176-179) are not modelled: the upscaled copy is an input sequence of the right size. `fillRect`/`getImageData` are modelled as the opaque black image the fill reads back (`OpaqueBlack`). `putImageData` (index.js:170, 189) is not modelled: the base image is returned as an array, and the upscaled copy is an input that is not derived from it.
- The raycaster geometry (`setFromCamera`, `intersectObjects`) is not modelled. Its result is an input list of intersections, and the link from `pickPosition` to that list is not modelled.
- The DOM event listeners, including the touch handlers (PickHelper.js:12-30), are not modelled.
- `getBoundingClientRect` is a parameter.
- `renderer`, `camera`, `controls`, `Stats`, resizing and the animation loop are not modelled.
- The asynchronous `OBJLoader` callback is not modelled. Only the material part of `addSubmarine` is modelled, as `LoadSubmarine`.
- A colour is the 24-bit `getHex()` value (the type `Color`), not a three.js `Color` object. A label is an optional shown/hidden flag, not a DOM element.
- `this.pickedObject = undefined` (PickHelper.js:37) is modelled as null, since both are falsy at line 34.
- Picking.PickHelper.SetPickPosition requires a non-empty canvas and bounding box. With a zero size the source divides by zero and stores NaN or Infinity, which the real-valued model cannot represent.
- Picking.CanvasRelativePosition requires a non-empty bounding box, for the same reason.
- Picking.Normalized requires a non-empty canvas, for the same reason.
- Terrain.GenerateTexture requires a non-empty grid. With a zero width or height, `getImageData` (index.js:154) throws an IndexSizeError, which the model does not represent.
- Terrain.BuildTerrain leaves the count of the `Math.random` calls three.js makes between generateHeight and generateTexture as the parameter `between`. Those are the ids it creates, starting with the PlaneGeometry at index.js:41.
- ex1.js, a lighting demo of float trigonometry, is not part of this model.
- The root index.js, a static file server, is not part of this model.

## Findings

| source | as written | input that shows it | evidently intended | confidence | as-written member | corrected member |
|---|---|---|---|---|---|---|
| front/app/index.js:46 | the vertex loop runs while `i < vertices.length`, three times the vertex count | a 2 × 2 world: 12 iterations for 4 vertices, 8 of which read `data` past its end and store past the end of the vertex buffer | stop when the vertex offset reaches the end (`j < l`) | high, not executed | Terrain.DisplaceVerticesAsWritten | Terrain.DisplaceVertices |
| front/app/PickHelper.js:36 | `material.label.style` is read, but the material made at index.js:88 never gets a `label` | the ray meeting any loaded submarine: that pick throws at line 49, and every later frame throws at line 36 | each submarine material carries a hidden label element | high, not executed | Picking.UnlabelledHitThrows | Picking.LabelledHitHighlights |
