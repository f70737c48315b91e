# Cube gallery engine

A model of the cube gallery of the portfolio site (`VITE/src/CubicGallery.tsx`).
The component puts 54 images on the six faces of a CSS 3D cube, 3 x 3 per face.
It spins the cube at a rate set by how far the pointer is from the viewport centre.
A mouse-down on a tile shows that tile's image enlarged in a single display.

The project has five modules:

- `Wrappers`: the `Option` datatype.
- `Layout`: the layout constants, the per-face rotation table, the in-face offsets,
  the mapping between input index and (face, row, column), and the resulting tile
  centre in CSS coordinates (x right, y down, z towards the viewer).
  `LocateCentre` reads a point's face, row and column back off the cube's geometry.
  It is the independent reference the layout is checked against.
- `Rotation`: the pointer deltas of `handleMouseMove`, the cube transform, and the
  exact sum that a run of frames adds to the angles.
- `HitTest`: the tile elements and the first-tile search over the elements under the pointer.
- `Gallery`: class `CubicGallery`, the mounted component. The constructor is the mount
  effect. `BuildCube`/`BuildFace` fill the placement array with the source's nested loops
  and shared counter. `Step` is one animation frame. `MouseMove`, `MouseDown` and
  `DisplayClick` are the event handlers. `Teardown` is the effect's cleanup.

The layout loop reads `items[count++]` without a bounds check, and the only guard is
for an empty list. Mounting therefore requires either no images or at least 54.
With more than 54, the tiles from index 54 on keep no transform (`LaidOut` is `None`).

Facts about the code that the model keeps:

- Between 1 and 53 images, the layout loop reads past the end of the tile list and throws, so the constructor excludes that range.
- Tile size, spacing and grid size are fixed constants (240, 40, 3), so nothing is checked. `cellSize` is 280, `cubeSize` is 840 and `origin` is -280.
- The hit test computes no depth. It takes the first element carrying the `cubic-gallery-item` class, in the order the browser lists the elements under the pointer.
- The display receives the chosen element's inline background image, the CSS `url(<image>)` value, and not the image path itself.

## Model

| member | source | states |
|---|---|---|
| `Layout.FaceRotationOf` | VITE/src/CubicGallery.tsx:38-56 | only the front face (0) is unrotated; every other face turns by a non-zero multiple of 90 degrees |
| `Layout.Offset` | VITE/src/CubicGallery.tsx:30-32 | a row or column offset is -280, 0 or 280; it is 0 exactly for the middle cell; cell k and cell 2-k get negated offsets (the grid is centred) |
| `Layout.PlacementAt` | VITE/src/CubicGallery.tsx:39-56 | a tile's transform is its face's rotation, then in-face offsets from the centred grid, then translateZ equal to half the cube edge (420) on every face |
| `Layout.IndexOf` | VITE/src/CubicGallery.tsx:29-37 | the input index consumed at face f, row i, column j is f*9 + i*3 + j, always below 54 |
| `Layout.CellAt` | VITE/src/CubicGallery.tsx:29-37 | every index below 54 names a valid face, row and column |
| `Layout.CellAtIndexOf` | VITE/src/CubicGallery.tsx:35-37 | distinct cells consume distinct indices (the cell is recovered from its index) |
| `Layout.IndexOfCellAt` | VITE/src/CubicGallery.tsx:61 | every index 0..53 is consumed by exactly one cell, so the layout is a bijection |
| `Layout.TileCentreOnItsFace` | VITE/src/CubicGallery.tsx:38-56 | each tile's centre lies on the face its case comment names (front z=420, back z=-420, left x=-420, right x=420, top y=-420, bottom y=420), at its row and column as seen from outside |
| `Layout.CentresDistinct` | VITE/src/CubicGallery.tsx:34-61 | no two of the 54 tiles share a centre point |
| `Rotation.YawDelta` | VITE/src/CubicGallery.tsx:18 | the yaw delta is zero exactly at the horizontal centre; it is positive exactly left of centre; inside the viewport it stays within plus or minus 0.625 |
| `Rotation.PitchDelta` | VITE/src/CubicGallery.tsx:19 | the pitch delta is zero exactly at the vertical centre; it is positive exactly below centre; inside the viewport it stays within plus or minus 0.625 |
| `HitTest.TileElement` | VITE/src/CubicGallery.tsx:132-144 | the element rendered for an image carries the tile class, and its background `url(...)` decodes back to exactly that image |
| `HitTest.FirstGalleryItem` | VITE/src/CubicGallery.tsx:71-72 | the result is none exactly when no listed element is a tile; otherwise it is the index of a tile and every element before it is not a tile |
| `HitTest.SkipsNonTiles` | VITE/src/CubicGallery.tsx:72 | non-tile elements in front of the list only shift the selected index and never change which tile is chosen |
| `Gallery.ClickedImageIsGalleryImage` | VITE/src/CubicGallery.tsx:72-76 | when the tiles under the pointer are this gallery's rendered tiles, the chosen tile's background names one of the gallery's own images |
| `Gallery.LaidOut` | VITE/src/CubicGallery.tsx:37 | a tile gets a transform exactly when its index is below 54 |
| `Gallery.CubicGallery.constructor` | VITE/src/CubicGallery.tsx:22-94 | with no images nothing is placed and nothing listens or animates; otherwise tiles 0..53 carry their layout transforms, the angles and deltas start at 0, the listeners are on and the first frame has written the cube transform for angle 0 |
| `Gallery.CubicGallery.BuildCube` | VITE/src/CubicGallery.tsx:61 | the six face calls, sharing one counter, leave tile k with `PlacementOf(k)` for k < 54 and the rest untouched |
| `Gallery.CubicGallery.BuildFace` | VITE/src/CubicGallery.tsx:34-60 | one face call writes the next nine tiles in row-major order and advances the counter by nine |
| `Gallery.CubicGallery.Step` | VITE/src/CubicGallery.tsx:88-93 | a frame adds the current deltas to the angles, keeps angle = sum of the deltas of all frames so far, writes the cube transform translateZ(-1200) rotateY(angleX) rotateX(angleY), and changes no tile placement; after teardown it changes nothing |
| `Gallery.CubicGallery.MouseMove` | VITE/src/CubicGallery.tsx:17-20 | while mounted, the deltas become the pointer's yaw and pitch deltas and nothing else changes; after teardown nothing changes |
| `Gallery.CubicGallery.MouseDown` | VITE/src/CubicGallery.tsx:68-78 | when the under-point list holds a tile, the display takes the first tile's image and is expanded, replacing any earlier selection; when those tiles are the gallery's own, the display then names one of the gallery's images; without a tile, or after teardown, nothing changes |
| `Gallery.CubicGallery.DisplayClick` | VITE/src/CubicGallery.tsx:147-148 | clicking the display collapses it |
| `Gallery.CubicGallery.Teardown` | VITE/src/CubicGallery.tsx:98-102 | cleanup stops the listeners and the frame loop; later frames, pointer moves and mouse-downs change nothing |
| `Gallery.CentredPointerHolds` | VITE/src/CubicGallery.tsx:88-90 | a pointer move to the exact viewport centre followed by a frame leaves both angles unchanged |

## Left out

- `document.elementsFromPoint`, listener registration and `requestAnimationFrame`: the browser calls are replaced by method calls and a given list of elements under the pointer.
- Depth ordering and occlusion: the browser orders the elements under the pointer, so the model takes that order as input.
- `Rotation.YawDelta`: computed on reals, not IEEE doubles; rounding of `clientX / innerWidth * 1.25` is not modelled. The same holds for `Rotation.PitchDelta` and for the angles summed by `Gallery.CubicGallery.Step`.
- Before mount, and for an empty list, the JavaScript angles and deltas are `undefined`. The model holds 0 there, and nothing reads those values.
- The display starting collapsed comes from the stylesheet, which is not part of this model. The constructor assumes it.
- Re-running the effect when `imageData` changes is the cleanup followed by a fresh mount. It is not modelled as one operation.
- The `img.current` null check: the display element exists whenever the component is mounted.
- The image reference is taken as the literal `url(<image>)` written in the markup. Browsers read `style.backgroundImage` back as `url("<image>")`, with quotes. The display receives that read-back string unchanged, so the model does not capture the quoting.
- JSX markup, CSS, the CV download link and the logout button (`localStorage`, page reload).
- `VITE/src/App.tsx`, the login forms, the server, the hash helper and build configuration are not part of this model. They are authentication, networking and tooling.
