# Virtual photobooth: a Dafny model of the editor and the session controller

The repository is a browser photobooth with two React components:

- **`PhotoMaskEditor`** (`src/edit.jsx`) lets the user pan and zoom a photo inside a 4:5 ("feed") or 9:16 ("story") frame. Input comes from the mouse, the wheel and touch. The download then replays the same pan, zoom and optional mirror onto a 1080-pixel-wide canvas, with the frame graphic drawn on top.
- **`Photobooth`** (`src/components/Photobooth.jsx`) runs the session. Its mode is one of `initial`, `camera`, `frozen` or `edit`. It captures a still from the webcam or takes an upload. It toggles the facing camera and the frame ratio, resets the session, and downloads the photo cover-cropped under the frame.

Files and modules:

- `common.dfy`, module `Common`: `Option`, `Point`, `Size`, and `Present`, the JavaScript truthiness of an image source.
- `crop.dfy`, module `Crop`: the "object-cover" source rectangle that both downloads compute.
- `frames.dfy`, module `Frames`: the two frame variants (size, overlay graphic, file name).
- `canvas.dfy`, module `Canvas`: the part of the 2D context that the downloads rely on. It has a current matrix that `translate` and `scale` post-multiply, and a stack kept by `save` and `restore`. Each draw call is placed through the matrix current at that call. `Run` replays a list of calls and returns what is drawn, in order, with its matrix.
- `editor.dfy`, module `Editor`: the zoom clamp, the pinch and wheel arithmetic, the export transform and its closed form, and the class `PhotoMaskEditor`. Every gesture handler is one method on that class.
- `booth.dfy`, module `Booth`: the toggles, the capture resolution, the download calls, and the class `Photobooth`.

Each handler is one atomic update. It reads the state values its closure sees. Each state-changing method states the complete new state as `Snapshot() == old(Snapshot()).(...)`, so "nothing else changes" is part of every contract. The class invariants:

- `PhotoMaskEditor.Valid`:
  - `scale` and `initialScale` stay in [0.5, 4];
  - a pinch in progress has a positive baseline distance;
  - a finished editor is not editable.
- `Photobooth.Valid`: the facing mode is `"user"` or `"environment"`, and the ratio is `"4-5"` or `"9-16"`.

Arithmetic is exact over `real`.

Inputs taken as parameters instead of being computed:

- `getDistance` (a square root) becomes a "spread" argument of the touch handlers. `TouchStart` requires it positive when two fingers are down; `TouchMove` accepts any value.
- `window.devicePixelRatio` becomes an argument.
- The measured preview width becomes an argument.
- The decoded photo's natural size becomes arguments.
- Whether the webcam is mounted becomes an argument.
- The encoded capture becomes a string argument. For an upload, whether a file was chosen and what the reader finished with (a data URL, or nothing) become arguments.

Behaviour of the code worth noting:

- Reset does not restore the default frame ratio or facing mode. `handleReset` leaves both alone.
- The download paths wire only `onload` on their images, so a photo that fails to decode never reaches the canvas; the camera has no error handler. The upload is different: `onloadend` also fires when the read fails, and then the image source becomes empty while the mode still becomes edit.
- The editor's `facingMode` prop defaults to `"environment"` when it is omitted (src/edit.jsx:6).
- In this revision `Photobooth` sets the mode to `"edit"` after an upload but renders nothing for that mode. The model keeps the transition.
- The editor mirrors the export for the front camera but not the on-screen preview. `MirroredIsReflection` states exactly how the two differ.

Three client methods in editor.dfy exercise the editor's handlers through their contracts, for all inputs:

- `Editor.DragThereAndBack`: press, move away, then move back to the press point, and the offset from before the press returns.
- `Editor.PinchRelease`: after a pinch is released, the editor is neither pinching nor dragging, and a later one-finger move does not drag.
- `Editor.FinishLocks`: after "Selesai", no mouse, wheel or touch gesture moves or zooms the photo.

`Booth.Session` in booth.dfy does the same for the booth. It opens the camera and presses each toggle twice, which gives the choices back. It then captures, which freezes the shot, and downloads, which succeeds for a non-empty shot. After a reset the facing mode and the ratio are kept and a download gives nothing.

## Model

| member | source | states |
|---|---|---|
| `Crop.CoverCrop` | src/edit.jsx:184-199 | For positive sizes the crop lies inside the photo and has the frame's aspect ratio. It is centred on both axes, so the offset is 0 on the uncut axis. A photo wider than the frame keeps its full height; any other photo keeps its full width. |
| `Crop.CoverCropIsLargest` | src/edit.jsx:189-199 | No rectangle of the frame's aspect ratio that fits in the photo is wider or taller than the cover crop. |
| `Crop.CoverCropOfMatchingPhoto` | src/components/Photobooth.jsx:80-94 | A photo that already has the frame's ratio, such as a still captured at the frame's size, is drawn whole: the crop is (0, 0, w, h). |
| `Crop.CoverCropLandscapeIntoFeed` | src/edit.jsx:191-194 | A 2000 x 1000 photo in a 1080 x 1350 frame gives sx = 600, sy = 0, sWidth = 800, sHeight = 1000. |
| `Frames.FrameSpec` | src/edit.jsx:128-131 | "9-16" gives 1080 x 1920, `/frame-story.png` and `photobooth-story.png`. Any other id gives 1080 x 1350, `/frame.png` and `photobooth-post.png`. |
| `Frames.FrameAspect` | src/edit.jsx:227-229 | The story output is 9:16 and the post output 4:5, the same ratios as the preview box's `aspectRatio`. |
| `Canvas.SaveTransformsRestore` | src/edit.jsx:156-208 | A property of the context model behind the export's `save`/`restore` bracket, not of those lines' own content (their bracket also holds a draw, which `ExportTailRun` handles): `save`, then any translations and scalings, then `restore` draw nothing and leave the context exactly as before. |
| `Editor.ClampScale` | src/edit.jsx:51 | The result always lies in [0.5, 4]. It equals the input inside that range and saturates at the nearer bound outside it. |
| `Editor.ClampIdempotent` | src/edit.jsx:51 | Clamping twice is clamping once. |
| `Editor.ClampMonotone` | src/edit.jsx:51 | The clamp preserves order. |
| `Editor.WheelDelta` | src/edit.jsx:74 | A positive deltaY steps the zoom by -0.1; any other deltaY steps it by +0.1. |
| `Editor.NotchesClampOnce` | src/edit.jsx:71-76 | From a scale in range, n wheel notches in one direction, each clamped, equal one clamped jump of 0.1·n. Zoom requests past a bound never move the scale beyond it. |
| `Editor.PinchScale` | src/edit.jsx:100-104 | A pinch result always lies in [0.5, 4]. At the start distance it gives back the baseline scale. Spreading the fingers never zooms out, and closing them never zooms in. |
| `Editor.PhotoOpsMeaning` | src/edit.jsx:158-178 | The export's photo transform calls, listed by `PhotoOps`, map a photo point p to c + scale·(p − c) + k·offset, with c = (W/2, H/2). For the front camera x then becomes W − x. |
| `Editor.PhotoAtRestIsIdentity` | src/edit.jsx:168-178 | Offset (0, 0), scale 1 and no mirror leave every photo point where it is. |
| `Editor.MirroredIsReflection` | src/edit.jsx:158-161 | The mirrored export of any state is the reflection x ↦ W − x of the unmirrored export of the same state. |
| `Editor.PreviewMatchesExport` | src/edit.jsx:249-261 | Take a preview box that is the canvas shrunk by k. The unmirrored export places each photo point at k times the position the preview's CSS (`PreviewPoint`, src/edit.jsx:256) `translate(...) scale(...)` gives it, with the transform origin at the box centre. |
| `Editor.PreviewBoxIsShrunkCanvas` | src/edit.jsx:240-243 | A preview box of measured width `editorW` with the frame's aspect ratio is the canvas shrunk by k = frameWidth / editorW. |
| `Editor.EditorToCanvasScale` | src/edit.jsx:153-154 | The conversion factor times the preview width is the frame width. |
| `Editor.PanConversionExample` | src/edit.jsx:170-172 | A 50-pixel pan in a 400-pixel-wide preview becomes a 135-pixel translation on the canvas. |
| `Editor.CanvasDimension` | src/edit.jsx:134-135 | Assigning to `canvas.width` or `canvas.height` stores a value in 0 .. 2^31 − 1. Below 2^31 it is the whole part of the number assigned, so the fraction is dropped. From 2^31 to 2^32 − 1 the attribute keeps its default: 300 for the width, 150 for the height. |
| `Editor.CanvasDimensionFallsBack` | src/edit.jsx:134 | A width of 1080 × 2000000 is above 2^31 − 1, so the canvas keeps its default width of 300. |
| `Editor.CanvasDimensionTruncates` | src/edit.jsx:134-135 | At a device pixel ratio of 1.25 the post frame gets a 1350 × 1687 canvas, not 1350 × 1687.5. |
| `Editor.EffectiveDpr` | src/edit.jsx:133 | `devicePixelRatio \|\| 1`: the result is positive, and a reported positive ratio is used unchanged. |
| `Editor.ExportDraws` | src/edit.jsx:133-213 | The export's call sequence, `ExportProgram`, draws exactly three things, each over the whole frame: the black backdrop, the cover-cropped photo through the device pixel ratio composed with the photo map, then the overlay through the device pixel ratio alone. This holds because the photo's transform is bracketed by `save` and `restore`. Nothing stays saved. |
| `Editor.PhotoMaskEditor.constructor` | src/edit.jsx:5-37 | The initial state, followed by the image-source effect on mount: the editor is editable exactly when the first source is present. An omitted facing mode becomes `"environment"`. |
| `Editor.PhotoMaskEditor.SetImageSource` | src/edit.jsx:28-37 | A changed, present source resets offset to (0, 0), scale and initialScale to 1, editable to true and finished to false. Anything else only stores the prop. |
| `Editor.PhotoMaskEditor.MouseDown` | src/edit.jsx:54-59 | When editable: dragging starts and startPos = pointer − offset. Otherwise nothing changes. |
| `Editor.PhotoMaskEditor.MouseMove` | src/edit.jsx:61-67 | When dragging and editable: offset = pointer − startPos. Otherwise nothing changes. |
| `Editor.PhotoMaskEditor.MouseUp` | src/edit.jsx:69 | Dragging stops, whatever else the state is. |
| `Editor.PhotoMaskEditor.Wheel` | src/edit.jsx:71-76 | When editable: scale becomes clamp(scale − 0.1) for deltaY > 0 and clamp(scale + 0.1) otherwise. Otherwise nothing changes. |
| `Editor.PhotoMaskEditor.TouchStart` | src/edit.jsx:79-95 | When editable: two fingers start a pinch, clear dragging, and record the spread and the current scale. One finger starts a drag anchored at finger − offset. Other counts, or a locked editor, change nothing. |
| `Editor.PhotoMaskEditor.TouchMove` | src/edit.jsx:97-113 | When editable: a two-finger pinch sets scale from the pinch baseline, not from the previous move. A one-finger drag sets offset = finger − startPos. Otherwise nothing changes. |
| `Editor.PhotoMaskEditor.TouchEnd` | src/edit.jsx:115-119 | Clears dragging and pinching, and stores the current scale as the next pinch baseline. |
| `Editor.PhotoMaskEditor.SelectFrame` | src/edit.jsx:289-298 | Switching the frame changes only the frame id. Offset and scale stay as they are. |
| `Editor.PhotoMaskEditor.Finish` | src/edit.jsx:308-311 | "Selesai" makes the editor not editable and finished. From then on every start, move and wheel handler is a no-op. |
| `Editor.PhotoMaskEditor.Download` | src/edit.jsx:122-221 | Gives nothing exactly when there is no image source. Otherwise: the frame of the current id; a canvas whose width and height are frame size × device pixel ratio, truncated as `CanvasDimension` states; k × preview width = frame width; and the draws `ExportDraws` describes for the current offset, scale, front-camera mirror and cover crop. |
| `Booth.TogglesAreInvolutions` | src/components/Photobooth.jsx:203-221 | On the legal values the facing toggle `NextFacing` (src/components/Photobooth.jsx:204-206) swaps user and environment, and the ratio toggle `NextRatio` (src/components/Photobooth.jsx:220) swaps 4-5 and 9-16. Each changes its value, and applying it twice gives the value back. |
| `Booth.CaptureMatchesDownload` | src/components/Photobooth.jsx:33-39 | For either legal ratio the capture canvas `CaptureSize` (1080 x 1350 for "4-5", else 1080 x 1920) is exactly the download's frame size. |
| `Booth.CaptureAndDownloadDisagreeOffRange` | src/components/Photobooth.jsx:33-39 | For an id that is neither legal ratio, the capture test and the download test pick different heights. This is why `Valid` keeps the ratio legal. |
| `Booth.DownloadDraws` | src/components/Photobooth.jsx:77-108 | The download's call sequence, `DownloadProgram`, draws exactly three things, in order and all untransformed over the whole frame: the white backdrop, the cover-cropped photo, then the overlay. |
| `Booth.Photobooth.constructor` | src/components/Photobooth.jsx:10-15 | Starts with no image in mode initial, photo box 250 x 250 at (0, 0), front camera and ratio 4-5. |
| `Booth.Photobooth.OpenCamera` | src/components/Photobooth.jsx:156 | The mode becomes camera. Nothing else changes. |
| `Booth.Photobooth.Capture` | src/components/Photobooth.jsx:27-49 | Without a webcam nothing changes and nothing is produced. Otherwise the canvas has the frame's output size, the shot is stored as the image source, and the mode becomes frozen. |
| `Booth.Photobooth.HandleFileUpload` | src/components/Photobooth.jsx:122-132 | Once a chosen file's read ends, the image source becomes what the reader holds: the data URL, or nothing after a failed or aborted read. The mode becomes edit either way. Without a file nothing changes. |
| `Booth.Photobooth.OnResize` | src/components/Photobooth.jsx:134-136 | Stores exactly the given size. Nothing else changes. |
| `Booth.Photobooth.OnDragStop` | src/components/Photobooth.jsx:138-140 | Stores exactly the given position. Nothing else changes. |
| `Booth.Photobooth.Reset` | src/components/Photobooth.jsx:142-147 | Clears the image source, sets mode initial, size 250 x 250 and position (0, 0). Facing mode and ratio are kept. |
| `Booth.Photobooth.FlipCamera` | src/components/Photobooth.jsx:203-207 | Facing mode swaps, and only it changes. |
| `Booth.Photobooth.ToggleFrameRatio` | src/components/Photobooth.jsx:219-221 | The frame ratio swaps, and only it changes. |
| `Booth.Photobooth.DownloadPhoto` | src/components/Photobooth.jsx:52-120 | Gives nothing exactly when there is no image source. Otherwise: the frame of the current ratio, a canvas of exactly that size, and the draws `DownloadDraws` describes for the cover crop of the photo. |

## Left out

- Pixels are not modelled. The model covers the numbers handed to the 2D context, to `Image`, to `toDataURL` and to the download link: sizes, crops, matrices, draw order and file names. The browser produces the pixels.
- Image decoding, `Promise.all`, the anchor click and `alert` are browser side effects. The photo's natural size is a parameter. No decode-failure path is modelled for the downloads, because they wire only `onload`; a failed decode leaves the download pending.
- `getDistance` uses `Math.sqrt` on the client coordinates. The finger spread is an input instead: positive at pinch start, any real during a move. Floating-point rounding and NaN are not modelled.
- `window.devicePixelRatio` is an input. Its `|| 1` fallback is modelled for a zero value; a browser never reports a negative ratio.
- `imageSmoothingEnabled` and `imageSmoothingQuality` (src/edit.jsx:163-164), and `globalCompositeOperation = "source-over"` (src/components/Photobooth.jsx:107, the default), change no coordinate.
- The webcam stream comes from react-webcam and is a foreign call. The same holds for `FileReader` and for react-draggable and react-resizable. Whether the webcam ref is set is a parameter of `Capture`. The video constraints (src/components/Photobooth.jsx:17-21) are not modelled. The video frame drawn onto the capture canvas (src/components/Photobooth.jsx:44) is pixel data and is not modelled either.
- JSX rendering, Tailwind classes, cursor styling and CSS transitions are presentation. So is `preventDefault`. The buttons that are only shown in some states are modelled as unguarded methods, as their handlers are. In the editor, Feed, Story and Selesai are shown while editing and Download once finished. In the booth:
  - "Buka Kamera" is shown only in `initial`.
  - Flip, "Ambil Foto", the ratio toggle and "Batal" are shown only in `camera`.
  - Download and "Ulangi" are shown only in `frozen`.
  - `webcamRef` is set only while the mode is `camera`, yet `Booth.Photobooth.Capture` accepts a mounted webcam from any mode.
- React's asynchronous `setState` batching is not modelled: each handler is one atomic step.
- `facingMode` is a prop of the editor. It is fixed when the editor is constructed: no file in this repository renders the editor, so a later change of the prop by a parent is not modelled.
- `Editor.PhotoMaskEditor.Download`: requires a positive measured preview width. The source divides by `offsetWidth` and would produce Infinity for a zero width. The `canvasRef`/`editorRef` guard is always true after mount. The canvas size is modelled as the browser stores it (whole part modulo 2^32, with the attribute default for a result above 2^31 − 1), but the drawing scale uses the untruncated ratio, as the source does, so the last fraction of a pixel row may fall outside the canvas.
- vite.config.js is build configuration and is not part of this model.
