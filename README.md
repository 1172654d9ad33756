# STM32VideoToolkit player core, modelled in Dafny

STM32VideoToolkit plays back "synth videos": sequences of memory snapshots of
a tile-based display controller. Each snapshot holds a 50 x 100 tile map, a
library of 12 tile patterns of 256 bytes each, and an x/y scroll offset. The
macOS app draws one snapshot at a time with two Metal compute passes. The
first pass draws the fixed 800 x 600 canvas texture. The second pass copies
the canvas, shifted by the scroll offset, into the window's drawable.

The project models three parts of the app:

- `renderer.dfy` (module `Renderer`) models `SynthVideoRenderer`. It covers
  the failable initialiser, `loadBuffers`, and `draw`. `draw` selects the
  stored snapshot or a blank one, copies fixed-length buffers, sets the
  tint with alpha 1, and plans both dispatches and the screen uniforms.
  Every early return becomes `None`. Metal itself is abstract: what the
  device answers is an input (`DeviceResponses`, `GpuResponses`), and what
  a committed draw hands to the GPU is a `DrawPlan`.
- `content_view.dfy` (module `ContentView`) models the player state.
  `ViewModel` is a class with one method per event: timer tick, play/stop,
  key press, scrub, colour change, load start, load success and load
  failure. It also records every draw request the change handlers make.
  Its invariant `Valid()` keeps `frameNumber` between 0 and
  `frameCount + 1`. The lower bound is what `Draw` needs of its caller;
  `ViewModel.Render` discharges it. Two pure lemmas describe repeated
  events. Playback loops modulo the frame count. The right arrow stops at
  `frameCount + 1`, which is one frame past the blank frame after the
  last real one.
- `frame_selector.dfy` (module `FrameSelector`) models the scrubber's clamp
  and the guard in front of its progress fill.
- `wrappers.dfy` holds `Option`, the model of Swift's optionals.

## Model

| member | source | states |
|---|---|---|
| `Renderer.Zeros` | STM32VideoToolkit/MetalFrameView/SynthVideoRenderer.swift:102-103 | the blank buffer has exactly the requested length and every byte is 0 |
| `Renderer.BlankState` | STM32VideoToolkit/MetalFrameView/SynthVideoRenderer.swift:100-106 | the blank substitute has a 5000-byte all-zero tile map, a 3072-byte all-zero library and offsets (0, 0), and is uploadable |
| `Renderer.StateAt` | STM32VideoToolkit/MetalFrameView/SynthVideoRenderer.swift:94-106 | a frame below the count yields the stored snapshot unchanged; any other frame, an empty video included, yields a 5000-byte all-zero tile map, a 3072-byte all-zero library and offsets (0, 0); the result is uploadable whenever the stored one is |
| `Renderer.Upload` | STM32VideoToolkit/MetalFrameView/SynthVideoRenderer.swift:108-116 | `makeBuffer(bytes:length:)` yields exactly `length` bytes, equal to the first `length` bytes of the source data, which must hold at least that many |
| `Renderer.PlanFor` | STM32VideoToolkit/MetalFrameView/SynthVideoRenderer.swift:89-175 | uploaded tile map and library are always 5000 and 3072 bytes; a stored frame contributes its own bytes and offsets, and its buffers unchanged when they have exactly those lengths; any other frame gives all-zero buffers and offsets (0, 0); the canvas grid is the 800 x 600 canvas texture's size with 800-thread groups; the screen grid and the uniform width/height equal the drawable's size; the colour is (red, green, blue, 1.0) |
| `Renderer.SynthVideoRenderer.Init` | STM32VideoToolkit/MetalFrameView/SynthVideoRenderer.swift:36-76 | returns null exactly when the command queue, the render texture, either named function of the default library, or either pipeline cannot be made; otherwise a fresh renderer with the 800 x 600 read/write canvas, no snapshots and no view |
| `Renderer.SynthVideoRenderer.AttachView` | STM32VideoToolkit/MetalFrameView/MetalView.swift:18-26 | after the Metal view is created the renderer has a view |
| `Renderer.SynthVideoRenderer.LoadBuffers` | STM32VideoToolkit/MetalFrameView/SynthVideoRenderer.swift:78-81 | the stored snapshots become exactly the given sequence, and nothing else changes; every later `Draw` is stated over the new sequence only |
| `Renderer.SynthVideoRenderer.Draw` | STM32VideoToolkit/MetalFrameView/SynthVideoRenderer.swift:83-182 | commits (returns a plan) exactly when a view is attached, both buffers, the command buffer and both encoders are made and a drawable exists; the committed plan is `PlanFor` of the current snapshots, and its canvas grid is the renderer's canvas texture size; requires a non-negative frame, since a negative one traps at the index |
| `FrameSelector.ClampFrame` | STM32VideoToolkit/FrameSelector.swift:29 | the written frame is never negative; it is at most `frameCount - 1` for a non-empty video and 0 for an empty one; an index inside the video is kept, one past the end becomes the last frame, a negative one becomes 0 |
| `FrameSelector.ClampIdempotent` | STM32VideoToolkit/FrameSelector.swift:53 | clamping an already clamped index changes nothing |
| `FrameSelector.FillDrawn` | STM32VideoToolkit/FrameSelector.swift:40-42 | the fill is never drawn at or past `frameCount`; when it is drawn for a non-negative frame, the divisor `frameCount - 1` is not negative and the frame is at most `frameCount - 1` |
| `FrameSelector.FillDrawnAfterGesture` | STM32VideoToolkit/FrameSelector.swift:25-54 | after a tap or drag on a non-empty video the progress fill is drawn |
| `ContentView.AdvancedFrame` | STM32VideoToolkit/MetalContentView.swift:139-145 | a tick moves to the next frame or back to 0; it moves forward exactly when the frame is before the last one; from a non-negative frame it never goes negative and, on a non-empty video, never reaches `frameCount` |
| `ContentView.PlayStartFrame` | STM32VideoToolkit/MetalContentView.swift:126-129 | a play start at or past the last frame rewinds to exactly 0; an earlier frame is kept; from a non-negative frame, the start frame is never negative and never ahead of the current one |
| `ContentView.StepBack` | STM32VideoToolkit/MetalContentView.swift:359-364 | the left arrow decrements only from frame 1 or later, so the frame never goes negative |
| `ContentView.StepForward` | STM32VideoToolkit/MetalContentView.swift:365-370 | the right arrow moves on by at most one and, from at most `frameCount + 1`, never passes `frameCount + 1` |
| `ContentView.FillHiddenOnlyPastEnd` | STM32VideoToolkit/FrameSelector.swift:40-42 | within the player's bound `0 <= frame <= frameCount + 1` on a non-empty video, the fill is hidden exactly at frames `frameCount` and `frameCount + 1`, the two frames past the end that only the right arrow reaches |
| `ContentView.FillDrawnWhilePlaying` | STM32VideoToolkit/MetalContentView.swift:126-145 | on a non-empty video, every frame a timer firing or a play start lands on passes the scrubber's fill guard |
| `ContentView.AfterAssign` | STM32VideoToolkit/MetalContentView.swift:107-109 | the change handler of `frameNumber` keeps every earlier draw request and adds exactly one, for the new value, only when the value changed |
| `ContentView.ViewModel.FrameCount` | STM32VideoToolkit/MetalContentView.swift:367 | `video?.frames.count ?? 0`: 0 with no video, the video's frame count otherwise |
| `ContentView.TickedLoops` | STM32VideoToolkit/MetalContentView.swift:133-147 | from a frame inside the video, `k` ticks later the frame is `(frame + k) % frameCount`: playback loops and always stays inside the video |
| `ContentView.SteppedForwardStops` | STM32VideoToolkit/MetalContentView.swift:367-369 | `n` presses of the right arrow from at most `frameCount + 1` reach `min(frame + n, frameCount + 1)` |
| `ContentView.ViewModel.constructor` | STM32VideoToolkit/MetalContentView.swift:327-354 | the initial state: frame 0, not playing, no timer, no video, white tint, no error, no draw requests; the invariant holds over any renderer whose stored snapshots are all uploadable |
| `ContentView.ViewModel.SetFrameNumber` | STM32VideoToolkit/MetalContentView.swift:107-109 | assigning a frame number sets it, and its change handler requests a draw of the new frame only when the value changed |
| `ContentView.ViewModel.SetPlaying` | STM32VideoToolkit/MetalContentView.swift:119-152 | handlers run only on a change; starting with a video rewinds from the last frame and creates the timer; starting without one leaves no timer; stopping clears the timer; the invariant (frame in `[0, frameCount + 1]`, timer only while playing) is kept |
| `ContentView.ViewModel.TogglePlaying` | STM32VideoToolkit/MetalContentView.swift:38-40 | the play/pause button flips `isPlaying`, with the effects of `SetPlaying` |
| `ContentView.ViewModel.Tick` | STM32VideoToolkit/MetalContentView.swift:133-147 | with no timer or no video nothing changes; otherwise the frame becomes `AdvancedFrame` of the old one; an advance requests two draws of the new frame (change handler and explicit call), a rewind requests one if the frame changed |
| `ContentView.ViewModel.KeyDown` | STM32VideoToolkit/MetalContentView.swift:356-383 | left and right stop playback and the timer and step by `StepBack` / `StepForward` against `video?.frames.count ?? 0`; space toggles playing, creating the timer only with a video; left, right and space request a draw exactly when the frame changed; escape leaves full screen; exactly these four keys are consumed and any other leaves the state as it was |
| `ContentView.ViewModel.SetTint` | STM32VideoToolkit/MetalContentView.swift:110-118 | the tint becomes (r, g, b) and each channel that changed requests one draw of the current frame |
| `ContentView.ViewModel.ToggleFullscreen` | STM32VideoToolkit/MetalContentView.swift:44-48 | the full-screen button flips `fullscreen` |
| `ContentView.ViewModel.Scrub` | STM32VideoToolkit/FrameSelector.swift:51-54 | a tap or drag writes `ClampFrame(selected, video?.frames.count ?? 0)` into the frame number, with its draw request, and keeps the invariant |
| `ContentView.ViewModel.StartLoad` | STM32VideoToolkit/MetalContentView.swift:168-177 | either loader first stops playback and the timer; once a file is chosen it clears the error and shows the overlay (the same steps appear at :205-214 for scripts) |
| `ContentView.ViewModel.LoadSucceeded` | STM32VideoToolkit/MetalContentView.swift:186-192 | the video becomes the loaded one, the renderer's snapshots become its memory states, the frame becomes 0 and the overlay is hidden |
| `ContentView.ViewModel.LoadFailed` | STM32VideoToolkit/MetalContentView.swift:194-200 | the video is cleared, the frame becomes 0, the error text becomes the error's description and the overlay is hidden; the renderer keeps its previous snapshots |
| `ContentView.ViewModel.Render` | STM32VideoToolkit/MetalContentView.swift:107-118 | the draw call every change handler makes always meets `Draw`'s preconditions, and commits `PlanFor` of the renderer's snapshots at the current frame and tint under the same conditions as `Draw` |

Notes on behaviour the model keeps as written:

- The right arrow increments while `frameNumber <= frameCount`, so it can
  reach `frameCount + 1`, two frames past the last one. Frames at or past
  the end render as the blank frame.
- For a one-frame video the progress fill is drawn at frame 0 with divisor `frameCount - 1 = 0`, so the fill width is the Float `0 / 0`. The fill arithmetic is not modelled.
- After a failed load the renderer still holds the previous video's
  snapshots. The rewind to frame 0 can therefore draw the old video's first
  frame while no video is loaded.
- `Draw` selects on the renderer's snapshot count. The player's limits use
  the video's frame count. The model keeps the two counts separate.

## Left out

- The Metal kernels `fullScreenRender` and `drawScreen` are not part of this model. The tile-to-pixel mapping and the scroll wrap/clamp policy at canvas edges are therefore not modelled.
- Metal objects (device, queue, textures, buffers, encoders, the drawable) are abstract. Their success or failure is an input, and `present`/`commit` is the returned plan.
- Float precision: the tint channels are `real` and are only passed through. The scrubber's position-to-index conversion (`Int(x / width * count)`) and its fill-width arithmetic are floating point, so the truncated index is an input.
- Concurrency and the clock: the 30 Hz timer, `Task.detached` and `DispatchQueue.main.async` are not modelled. One timer firing is one `Tick`, and a loader's completion is one atomic event.
- The model covers one window. All `WindowGroup` windows share the renderer's single snapshot sequence and its single view slot, and this sharing across windows is not modelled. `Valid()` ties the renderer's snapshots to one view model's video, so a second view model loading into the same renderer breaks the first one's invariant.
- Change handlers: SwiftUI runs `onChange(of:)` at the next view update and merges several changes made within one update into one call. The model instead runs each change handler at the assignment. So `drawRequests` can hold more requests than the app issues, for example one per colour channel where the app may issue one. It can also hold them in a different order: in `Tick` the app's explicit draw comes before the handler's, while the model logs the handler's first. Both are for the same frame.
- `Renderer.SynthVideoRenderer.Init`: the initialiser only returns nil, so the model does not say which stage failed. `makeDefaultLibrary()` is an optional set of function names.
- The renderer's own `red`/`green`/`blue` fields (SynthVideoRenderer.swift:32-34) are never read by `draw` and are not modelled.
- `ContentView.ViewModel.LoadFailed`: the error text is the given message. Foundation's `localizedDescription` is outside the model, so the text is not guaranteed to be non-empty.
- `ContentView.ViewModel.LoadSucceeded`: the `SynthVideo` library (file and script parsing, export) is not part of this model. It is assumed to produce snapshots with at least 5000/3072 bytes and 32-bit offsets, which `draw` relies on without checking.
- The `Int32(...)` conversions of `draw` trap outside the 32-bit range. The model requires the offsets and drawable sizes to fit rather than modelling the trap.
- UI and file handling are not modelled: overlay text, the hover-driven `videoUI` flag, `pingVideoUI`, the open/save panels and the export actions (MP4, `.dat`, image sequence).
- The rotary slider widgets use floating-point geometry and are not modelled. Only their effect on the tint is modelled, through `SetTint`.
