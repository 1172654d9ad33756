/**
 * The tile renderer of STM32VideoToolkit (SynthVideoRenderer.swift).
 *
 * The renderer keeps the memory snapshots of the loaded video and, for each
 * draw request, selects one snapshot (or a blank one), uploads its tile map
 * and tile library into fixed-size GPU buffers and encodes two compute
 * passes: one over the fixed 800x600 canvas texture, one over the drawable.
 * The Metal API is modelled abstractly: what it answers (an allocation that
 * succeeded or failed, the drawable's size) is an input, and what `draw`
 * would commit is returned as a `DrawPlan`.
 */
module Renderer {
  import opened Wrappers

  newtype byte = x: int | 0 <= x < 256

  /** The tile map is a 50 x 100 grid of tile indices. */
  const TileMapBufferSize: nat := 50 * 100
  /** The tile library holds 12 tile patterns of 256 bytes each. */
  const TileLibraryBufferSize: nat := 12 * 256

  const CanvasWidth: nat := 800
  const CanvasHeight: nat := 600

  const Int32Min: int := -0x8000_0000
  const Int32Max: int := 0x7FFF_FFFF

  predicate IsInt32(x: int) { Int32Min <= x <= Int32Max }

  /** One frame's snapshot of the emulated display memory (a `SynthVideo.MemoryState`). */
  datatype MemoryState = MemoryState(tileMap: seq<byte>, tileLibrary: seq<byte>, xOffset: int, yOffset: int)

  /**
   * What `draw` relies on without checking: it copies exactly 5000 and 3072
   * bytes out of the snapshot's buffers, and converts the offsets with
   * `Int32(...)`, which traps outside the 32-bit range.
   */
  predicate Uploadable(m: MemoryState) {
    |m.tileMap| >= TileMapBufferSize && |m.tileLibrary| >= TileLibraryBufferSize &&
    IsInt32(m.xOffset) && IsInt32(m.yOffset)
  }

  predicate AllZero(s: seq<byte>) { forall i :: 0 <= i < |s| ==> s[i] == 0 }

  /** `Data(repeating: 0, count: n)` */
  function Zeros(n: nat): (z: seq<byte>)
    ensures |z| == n && AllZero(z)
  {
    seq(n, _ => 0)
  }

  /** The snapshot shown when the requested frame is not stored. */
  function BlankState(): (m: MemoryState)
    ensures |m.tileMap| == TileMapBufferSize && AllZero(m.tileMap)
    ensures |m.tileLibrary| == TileLibraryBufferSize && AllZero(m.tileLibrary)
    ensures m.xOffset == 0 && m.yOffset == 0 && Uploadable(m)
  {
    MemoryState(Zeros(100 * 50), Zeros(12 * 256), 0, 0)
  }

  /** The frame/blank selection of `draw`. A negative frame traps in the source. */
  function StateAt(states: seq<MemoryState>, frame: int): (m: MemoryState)
    requires frame >= 0
    ensures frame < |states| ==> m == states[frame]
    ensures frame >= |states| ==>
      |m.tileMap| == TileMapBufferSize && AllZero(m.tileMap) &&
      |m.tileLibrary| == TileLibraryBufferSize && AllZero(m.tileLibrary) &&
      m.xOffset == 0 && m.yOffset == 0
    ensures frame < |states| && Uploadable(states[frame]) ==> Uploadable(m)
    ensures frame >= |states| ==> Uploadable(m)
  {
    if frame < |states| then states[frame] else BlankState()
  }

  /** `device.makeBuffer(bytes:length:)`: copies the first `length` bytes. */
  function Upload(data: seq<byte>, length: nat): (buffer: seq<byte>)
    requires |data| >= length
    ensures |buffer| == length
    ensures forall i :: 0 <= i < length ==> buffer[i] == data[i]
  {
    data[..length]
  }

  datatype Size = Size(width: nat, height: nat)
  datatype Size3 = Size3(width: nat, height: nat, depth: nat)

  /** `simd_float4`: the tint handed to the canvas pass. Float precision is not modelled. */
  datatype Colour = Colour(red: real, green: real, blue: real, alpha: real)

  /** The `ScreenDrawUniforms` struct of ShaderTypes.h. */
  datatype ScreenDrawUniforms = ScreenDrawUniforms(screenWidth: int, screenHeight: int, xOffset: int, yOffset: int)

  /** One `dispatchThreads(_:threadsPerThreadgroup:)` call. */
  datatype Dispatch = Dispatch(grid: Size3, threadgroup: Size3)

  /** Everything one committed `draw` hands to the GPU. */
  datatype DrawPlan = DrawPlan(
    tileMap: seq<byte>,
    tileLibrary: seq<byte>,
    colour: Colour,
    canvasPass: Dispatch,
    screenPass: Dispatch,
    uniforms: ScreenDrawUniforms)

  /** The texture descriptor of the intermediate canvas. */
  datatype TextureDescriptor = TextureDescriptor(width: nat, height: nat, shaderRead: bool, shaderWrite: bool)

  const CanvasTexture := TextureDescriptor(CanvasWidth, CanvasHeight, true, true)

  /**
   * The plan `draw` builds once every resource it asks for is there:
   * `target` is the drawable texture's size and `maxThreads` the screen
   * pipeline's `maxTotalThreadsPerThreadgroup`.
   */
  function PlanFor(states: seq<MemoryState>, frame: int, red: real, green: real, blue: real,
                   target: Size, maxThreads: nat): (p: DrawPlan)
    requires frame >= 0
    requires frame < |states| ==> Uploadable(states[frame])
    // the uploaded buffers never vary in length, whatever the frame
    ensures |p.tileMap| == TileMapBufferSize && |p.tileLibrary| == TileLibraryBufferSize
    // a stored frame is uploaded from its own buffers and offsets
    ensures frame < |states| ==>
      (forall i :: 0 <= i < TileMapBufferSize ==> p.tileMap[i] == states[frame].tileMap[i]) &&
      (forall i :: 0 <= i < TileLibraryBufferSize ==> p.tileLibrary[i] == states[frame].tileLibrary[i]) &&
      p.uniforms.xOffset == states[frame].xOffset && p.uniforms.yOffset == states[frame].yOffset
    ensures frame < |states| && |states[frame].tileMap| == TileMapBufferSize ==> p.tileMap == states[frame].tileMap
    ensures frame < |states| && |states[frame].tileLibrary| == TileLibraryBufferSize ==> p.tileLibrary == states[frame].tileLibrary
    // any other frame, an empty video included, is the blank screen
    ensures frame >= |states| ==>
      AllZero(p.tileMap) && AllZero(p.tileLibrary) && p.uniforms.xOffset == 0 && p.uniforms.yOffset == 0
    // the canvas pass covers exactly the canvas texture, one thread per pixel, 800 to a group
    ensures p.canvasPass.grid == Size3(CanvasTexture.width, CanvasTexture.height, 1)
    ensures p.canvasPass.threadgroup == Size3(CanvasWidth, 1, 1)
    // the screen pass and its uniforms follow the drawable
    ensures p.screenPass.grid == Size3(target.width, target.height, 1)
    ensures p.screenPass.threadgroup == Size3(maxThreads, 1, 1)
    ensures p.uniforms.screenWidth == target.width && p.uniforms.screenHeight == target.height
    ensures p.colour.alpha == 1.0 && p.colour == Colour(red, green, blue, 1.0)
  {
    var m := StateAt(states, frame);
    DrawPlan(
      Upload(m.tileMap, TileMapBufferSize),
      Upload(m.tileLibrary, TileLibraryBufferSize),
      Colour(red, green, blue, 1.0),
      Dispatch(Size3(800, 600, 1), Size3(800, 1, 1)),
      Dispatch(Size3(target.width, target.height, 1), Size3(maxThreads, 1, 1)),
      ScreenDrawUniforms(target.width, target.height, m.xOffset, m.yOffset))
  }

  /** What the Metal device answers while the renderer is being built. */
  datatype DeviceResponses = DeviceResponses(
    commandQueue: bool,            // makeCommandQueue() is non-nil
    renderTexture: bool,           // makeTexture(descriptor:) is non-nil
    defaultLibrary: Option<set<string>>,  // makeDefaultLibrary() and the function names it holds
    fullScreenPipeline: bool,      // makeComputePipelineState for "fullScreenRender" does not throw
    screenPipeline: bool)          // makeComputePipelineState for "drawScreen" does not throw

  const CanvasFunction := "fullScreenRender"
  const ScreenFunction := "drawScreen"

  predicate HasFunction(library: Option<set<string>>, name: string) {
    library.Some? && name in library.value
  }

  /** What the Metal objects answer during one `draw` call. */
  datatype GpuResponses = GpuResponses(
    tileMapBuffer: bool,           // makeBuffer for the tile map is non-nil
    tileLibraryBuffer: bool,       // makeBuffer for the tile library is non-nil
    commandBuffer: bool,           // makeCommandBuffer() is non-nil
    renderEncoder: bool,           // the first makeComputeCommandEncoder() is non-nil
    drawable: Option<Size>,        // view.currentDrawable, by its texture's size
    screenEncoder: bool,           // the second makeComputeCommandEncoder() is non-nil
    maxThreads: nat)               // screenDrawPipeline.maxTotalThreadsPerThreadgroup

  /** A drawable texture size passes `Int32(...)` without trapping. */
  predicate SensibleResponses(gpu: GpuResponses) {
    gpu.drawable.Some? ==> gpu.drawable.value.width <= Int32Max && gpu.drawable.value.height <= Int32Max
  }

  class SynthVideoRenderer {
    var memoryStates: seq<MemoryState>
    /** `view != nil`: a Metal view has been connected. */
    var viewAttached: bool
    const renderTexture: TextureDescriptor

    ghost predicate Valid()
      reads this
    {
      renderTexture == CanvasTexture
    }

    constructor Ready()
      ensures Valid() && memoryStates == [] && !viewAttached
    {
      memoryStates := [];
      viewAttached := false;
      renderTexture := CanvasTexture;
    }

    /** `init?(device:)`: null exactly when one of the Metal objects cannot be made. */
    static method Init(device: DeviceResponses) returns (r: SynthVideoRenderer?)
      ensures r == null <==>
        !device.commandQueue || !device.renderTexture ||
        !HasFunction(device.defaultLibrary, CanvasFunction) ||
        !HasFunction(device.defaultLibrary, ScreenFunction) ||
        !device.fullScreenPipeline || !device.screenPipeline
      ensures r != null ==> fresh(r) && r.Valid() && r.memoryStates == [] && !r.viewAttached
    {
      if !device.commandQueue {
        return null;
      }
      if !device.renderTexture {
        return null;
      }
      if !HasFunction(device.defaultLibrary, CanvasFunction) || !HasFunction(device.defaultLibrary, ScreenFunction) {
        return null;
      }
      if !device.fullScreenPipeline || !device.screenPipeline {
        return null;
      }
      r := new SynthVideoRenderer.Ready();
    }

    /** `renderer.view = view` when the Metal view is created. */
    method AttachView()
      modifies this`viewAttached
      ensures viewAttached
    {
      viewAttached := true;
    }

    /** Replaces the stored snapshots wholesale. */
    method LoadBuffers(states: seq<MemoryState>)
      modifies this`memoryStates
      ensures memoryStates == states
    {
      memoryStates := states;
    }

    /**
     * One draw request. Nothing is committed (None) when there is no view,
     * a buffer, the command buffer or an encoder cannot be made, or there is
     * no drawable; otherwise the committed plan is the one for the stored
     * snapshots as they are now.
     */
    method Draw(frame: int, red: real, green: real, blue: real, gpu: GpuResponses) returns (plan: Option<DrawPlan>)
      requires Valid()
      requires frame >= 0
      requires frame < |memoryStates| ==> Uploadable(memoryStates[frame])
      requires SensibleResponses(gpu)
      ensures plan.Some? <==>
        viewAttached && gpu.tileMapBuffer && gpu.tileLibraryBuffer && gpu.commandBuffer &&
        gpu.renderEncoder && gpu.drawable.Some? && gpu.screenEncoder
      ensures plan.Some? ==>
        plan.value == PlanFor(memoryStates, frame, red, green, blue, gpu.drawable.value, gpu.maxThreads)
      ensures plan.Some? ==> plan.value.canvasPass.grid == Size3(renderTexture.width, renderTexture.height, 1)
    {
      if !viewAttached {
        return None;
      }
      var selected := StateAt(memoryStates, frame);
      if !gpu.tileMapBuffer || !gpu.tileLibraryBuffer {
        return None;
      }
      var tileMapBuffer := Upload(selected.tileMap, TileMapBufferSize);
      var tileLibraryBuffer := Upload(selected.tileLibrary, TileLibraryBufferSize);
      if !gpu.commandBuffer || !gpu.renderEncoder {
        return None;
      }
      var colour := Colour(red, green, blue, 1.0);
      var canvasPass := Dispatch(Size3(800, 600, 1), Size3(800, 1, 1));
      if gpu.drawable.None? {
        return None;
      }
      if !gpu.screenEncoder {
        return None;
      }
      var target := gpu.drawable.value;
      var uniforms := ScreenDrawUniforms(target.width, target.height, selected.xOffset, selected.yOffset);
      var screenPass := Dispatch(Size3(target.width, target.height, 1), Size3(gpu.maxThreads, 1, 1));
      plan := Some(DrawPlan(tileMapBuffer, tileLibraryBuffer, colour, canvasPass, screenPass, uniforms));
    }
  }
}
