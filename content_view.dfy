/**
 * The player state of MetalContentView.swift: the view model's fields and the
 * handlers that update them in place — the `isPlaying` change handler and its
 * 30 Hz timer, the keyboard monitor, the scrubber binding and the two loaders.
 *
 * SwiftUI runs an `onChange` handler only when the observed value changes;
 * the model does the same. Every change of `frameNumber` makes the view ask
 * the renderer to draw that frame, and the timer asks once more after each
 * advance; those requests are kept, in order, in `drawRequests`. The timer
 * itself is the flag `timerActive`; one firing of it is the event `Tick`.
 */
module ContentView {
  import opened Wrappers
  import opened Renderer
  import FrameSelector

  /** A loaded `SynthVideo`, by the two things the player reads from it. */
  datatype Video = Video(frameCount: nat, memoryStates: seq<MemoryState>)

  const KeyLeft := 123
  const KeyRight := 124
  const KeySpace := 49
  const KeyEscape := 53

  /** The frame the timer moves to: the next one, or back to the first after the last. */
  function AdvancedFrame(frameNumber: int, frameCount: int): (f: int)
    ensures f == frameNumber + 1 || f == 0
    ensures frameNumber >= 0 ==> f >= 0
    ensures frameCount >= 1 && frameNumber >= 0 ==> f < frameCount
    ensures frameNumber >= 0 ==> (f > frameNumber <==> frameNumber < frameCount - 1)
  {
    if frameNumber < frameCount - 1 then frameNumber + 1 else 0
  }

  /** The frame playback starts from: the first one when already at or past the last. */
  function PlayStartFrame(frameNumber: int, frameCount: int): (f: int)
    ensures frameNumber >= 0 ==> 0 <= f <= frameNumber
    ensures frameCount >= 1 && frameNumber >= 0 ==> f < frameCount - 1 || f == 0
    ensures frameNumber >= frameCount - 1 ==> f == 0
    ensures frameNumber < frameCount - 1 ==> f == frameNumber
  {
    if frameNumber >= frameCount - 1 then 0 else frameNumber
  }

  /** The frame after the left arrow: one back, never below 0. */
  function StepBack(frameNumber: int): (f: int)
    ensures frameNumber >= 0 ==> f >= 0
    ensures frameNumber >= 1 ==> f == frameNumber - 1
    ensures frameNumber < 1 ==> f == frameNumber
  {
    if frameNumber >= 1 then frameNumber - 1 else frameNumber
  }

  /** The frame after the right arrow: one on while at most `frameCount`. */
  function StepForward(frameNumber: int, frameCount: int): (f: int)
    ensures frameNumber <= frameCount + 1 ==> f <= frameCount + 1
    ensures f == frameNumber || f == frameNumber + 1
    ensures frameNumber <= frameCount ==> f == frameNumber + 1
    ensures frameNumber > frameCount ==> f == frameNumber
  {
    if frameNumber <= frameCount then frameNumber + 1 else frameNumber
  }

  /** The request log after `frameNumber` is assigned `next`: its change handler asks for a draw. */
  function AfterAssign(log: seq<int>, previous: int, next: int): (r: seq<int>)
    // earlier requests are kept; exactly one request, for the new value, is added on a change
    ensures |r| == |log| + (if next != previous then 1 else 0)
    ensures r[..|log|] == log
    ensures next != previous ==> r[|log|] == next
  {
    if next != previous then log + [next] else log
  }

  /** The frame reached from `frameNumber` after `ticks` timer firings. */
  function Ticked(frameNumber: int, frameCount: int, ticks: nat): int
    decreases ticks
  {
    if ticks == 0 then frameNumber else AdvancedFrame(Ticked(frameNumber, frameCount, ticks - 1), frameCount)
  }

  /** Euclidean remainder is determined by any quotient/remainder split. */
  lemma ModUnique(x: int, n: int, q: int, r: int)
    requires n >= 1 && 0 <= r < n && x == q * n + r
    ensures x % n == r
  {
    var d := q - x / n;
    assert x == (x / n) * n + x % n;
    assert d * n == x % n - r;
    MultipleBound(d, n);
  }

  lemma MultipleBound(d: int, n: int)
    requires n >= 1
    ensures d >= 1 ==> d * n >= n
    ensures d <= -1 ==> d * n <= -n
  {
  }

  lemma ModSuccessor(x: nat, n: nat)
    requires n >= 1
    ensures (x + 1) % n == if x % n < n - 1 then x % n + 1 else 0
  {
    var q, r := x / n, x % n;
    assert x == q * n + r;
    if r < n - 1 {
      ModUnique(x + 1, n, q, r + 1);
    } else {
      ModUnique(x + 1, n, q + 1, 0);
    }
  }

  /**
   * Playback loops: from a frame inside the video, `k` ticks later the player
   * shows frame `(frameNumber + k) % frameCount`, so it never reaches
   * `frameCount` and comes back to where it was every `frameCount` ticks.
   */
  lemma {:induction false} TickedLoops(frameNumber: int, frameCount: int, ticks: nat)
    requires 0 <= frameNumber < frameCount
    ensures Ticked(frameNumber, frameCount, ticks) == (frameNumber + ticks) % frameCount
    ensures 0 <= Ticked(frameNumber, frameCount, ticks) < frameCount
  {
    if ticks > 0 {
      TickedLoops(frameNumber, frameCount, ticks - 1);
      ModSuccessor(frameNumber + ticks - 1, frameCount);
    }
  }

  /** The frame reached after `presses` presses of the right arrow. */
  function SteppedForward(frameNumber: int, frameCount: int, presses: nat): int
    decreases presses
  {
    if presses == 0 then frameNumber else StepForward(SteppedForward(frameNumber, frameCount, presses - 1), frameCount)
  }

  /**
   * The right arrow moves on one frame per press until it reaches
   * `frameCount + 1`, one past the blank frame after the last, and stays there.
   */
  lemma {:induction false} SteppedForwardStops(frameNumber: int, frameCount: int, presses: nat)
    requires frameNumber <= frameCount + 1
    ensures SteppedForward(frameNumber, frameCount, presses) == FrameSelector.Min(frameNumber + presses, frameCount + 1)
  {
    if presses > 0 {
      SteppedForwardStops(frameNumber, frameCount, presses - 1);
    }
  }

  /**
   * With the player's invariant bound on the frame number and a non-empty
   * video, the scrubber hides its progress fill exactly at the two frames
   * past the end that only the right arrow reaches.
   */
  lemma FillHiddenOnlyPastEnd(frameNumber: int, frameCount: int)
    requires frameCount >= 1 && 0 <= frameNumber <= frameCount + 1
    ensures !FrameSelector.FillDrawn(frameNumber, frameCount) <==>
      frameNumber == frameCount || frameNumber == frameCount + 1
  {
  }

  /** Every frame a timer firing or a play start lands on shows the progress fill. */
  lemma FillDrawnWhilePlaying(frameNumber: int, frameCount: int)
    requires frameCount >= 1 && frameNumber >= 0
    ensures FrameSelector.FillDrawn(AdvancedFrame(frameNumber, frameCount), frameCount)
    ensures FrameSelector.FillDrawn(PlayStartFrame(frameNumber, frameCount), frameCount)
  {
  }

  class ViewModel {
    var frameNumber: int
    var red: real
    var green: real
    var blue: real
    var isPlaying: bool
    var video: Option<Video>
    var overlayEnabled: bool
    var fullscreen: bool
    var errorText: string
    /** `playTimer != nil` */
    var timerActive: bool
    /** The frames the renderer has been asked to draw, oldest first. */
    var drawRequests: seq<int>
    /** The renderer the view hands draw requests and loaded videos to. */
    const renderer: SynthVideoRenderer

    /** `video?.frames.count ?? 0` */
    function FrameCount(): (c: nat)
      reads this
      ensures video.None? ==> c == 0
      ensures video.Some? ==> c == video.value.frameCount
    {
      if video.Some? then video.value.frameCount else 0
    }

    ghost predicate Valid()
      reads this, renderer
    {
      renderer.Valid() &&
      // the frame number is never negative, so every draw request is a legal one
      0 <= frameNumber <= FrameCount() + 1 &&
      (forall i :: 0 <= i < |drawRequests| ==> drawRequests[i] >= 0) &&
      // a timer exists only while playing
      (timerActive ==> isPlaying) &&
      // the renderer holds the current video's snapshots, each one uploadable
      (video.Some? ==> renderer.memoryStates == video.value.memoryStates) &&
      (forall k :: 0 <= k < |renderer.memoryStates| ==> Uploadable(renderer.memoryStates[k]))
    }

    constructor (renderer: SynthVideoRenderer)
      requires renderer.Valid()
      requires forall k :: 0 <= k < |renderer.memoryStates| ==> Uploadable(renderer.memoryStates[k])
      ensures Valid() && this.renderer == renderer
      ensures frameNumber == 0 && !isPlaying && !timerActive && video.None? && !fullscreen
      ensures red == 1.0 && green == 1.0 && blue == 1.0 && errorText == "" && !overlayEnabled
      ensures drawRequests == []
    {
      this.renderer := renderer;
      frameNumber := 0;
      red, green, blue := 1.0, 1.0, 1.0;
      isPlaying := false;
      video := None;
      overlayEnabled := false;
      fullscreen := false;
      errorText := "";
      timerActive := false;
      drawRequests := [];
    }

    /** An assignment to `frameNumber` and its change handler. */
    method SetFrameNumber(n: int)
      requires n >= 0
      requires forall i :: 0 <= i < |drawRequests| ==> drawRequests[i] >= 0
      modifies this`frameNumber, this`drawRequests
      ensures frameNumber == n
      ensures drawRequests == AfterAssign(old(drawRequests), old(frameNumber), n)
      ensures forall i :: 0 <= i < |drawRequests| ==> drawRequests[i] >= 0
    {
      if n != frameNumber {
        frameNumber := n;
        drawRequests := drawRequests + [n];
      }
    }

    /**
     * An assignment to `isPlaying` and its change handler: starting needs a
     * video, rewinds from the last frame and creates the timer; stopping
     * drops the timer.
     */
    method SetPlaying(playing: bool)
      requires Valid()
      modifies this`isPlaying, this`timerActive, this`frameNumber, this`drawRequests
      ensures Valid()
      ensures isPlaying == playing
      ensures playing == old(isPlaying) ==>
        timerActive == old(timerActive) && frameNumber == old(frameNumber) && drawRequests == old(drawRequests)
      ensures !playing ==> !timerActive && frameNumber == old(frameNumber) && drawRequests == old(drawRequests)
      ensures playing && !old(isPlaying) && video.None? ==>
        !timerActive && frameNumber == old(frameNumber) && drawRequests == old(drawRequests)
      ensures playing && !old(isPlaying) && video.Some? ==>
        timerActive &&
        frameNumber == PlayStartFrame(old(frameNumber), video.value.frameCount) &&
        drawRequests == AfterAssign(old(drawRequests), old(frameNumber), frameNumber)
    {
      if playing == isPlaying {
        return;
      }
      isPlaying := playing;
      if playing {
        if video.None? {
          return;
        }
        if frameNumber >= video.value.frameCount - 1 {
          SetFrameNumber(0);
        }
        timerActive := true;
      } else {
        timerActive := false;
      }
    }

    /** The play/pause button and the space bar. */
    method TogglePlaying()
      requires Valid()
      modifies this`isPlaying, this`timerActive, this`frameNumber, this`drawRequests
      ensures Valid()
      ensures isPlaying == !old(isPlaying)
      ensures !isPlaying ==> !timerActive && frameNumber == old(frameNumber) && drawRequests == old(drawRequests)
      ensures isPlaying && video.None? ==>
        !timerActive && frameNumber == old(frameNumber) && drawRequests == old(drawRequests)
      ensures isPlaying && video.Some? ==>
        timerActive &&
        frameNumber == PlayStartFrame(old(frameNumber), video.value.frameCount) &&
        drawRequests == AfterAssign(old(drawRequests), old(frameNumber), frameNumber)
    {
      SetPlaying(!isPlaying);
    }

    /** One firing of the 30 Hz timer; with no timer nothing fires. */
    method Tick()
      requires Valid()
      modifies this`frameNumber, this`drawRequests
      ensures Valid()
      ensures !timerActive || video.None? ==>
        frameNumber == old(frameNumber) && drawRequests == old(drawRequests)
      ensures timerActive && video.Some? ==>
        frameNumber == AdvancedFrame(old(frameNumber), video.value.frameCount)
      ensures timerActive && video.Some? && old(frameNumber) < video.value.frameCount - 1 ==>
        drawRequests == old(drawRequests) + [frameNumber, frameNumber]
      ensures timerActive && video.Some? && old(frameNumber) >= video.value.frameCount - 1 ==>
        drawRequests == AfterAssign(old(drawRequests), old(frameNumber), 0)
    {
      if !timerActive || video.None? {
        return;
      }
      var frameCount: int := video.value.frameCount;
      if frameNumber < frameCount - 1 {
        SetFrameNumber(frameNumber + 1);
        drawRequests := drawRequests + [frameNumber];
      } else {
        SetFrameNumber(0);
      }
    }

    /**
     * The keyboard monitor. Returns whether the key was consumed; any other
     * key is passed on untouched.
     */
    method KeyDown(keyCode: int) returns (consumed: bool)
      requires Valid()
      modifies this`isPlaying, this`timerActive, this`frameNumber, this`drawRequests, this`fullscreen
      ensures Valid()
      ensures consumed <==> keyCode == KeyLeft || keyCode == KeyRight || keyCode == KeySpace || keyCode == KeyEscape
      ensures keyCode == KeyLeft || keyCode == KeyRight ==> !isPlaying && !timerActive && fullscreen == old(fullscreen)
      ensures keyCode == KeyLeft ==> frameNumber == StepBack(old(frameNumber))
      ensures keyCode == KeyRight ==> frameNumber == StepForward(old(frameNumber), FrameCount())
      ensures keyCode == KeySpace ==> isPlaying == !old(isPlaying) && fullscreen == old(fullscreen)
      ensures keyCode == KeySpace && !isPlaying ==> !timerActive && frameNumber == old(frameNumber)
      ensures keyCode == KeySpace && isPlaying && video.Some? ==>
        timerActive && frameNumber == PlayStartFrame(old(frameNumber), video.value.frameCount)
      ensures keyCode == KeySpace && isPlaying && video.None? ==> !timerActive && frameNumber == old(frameNumber)
      ensures keyCode == KeyLeft || keyCode == KeyRight || keyCode == KeySpace ==>
        drawRequests == AfterAssign(old(drawRequests), old(frameNumber), frameNumber)
      ensures keyCode == KeyEscape ==>
        !fullscreen && isPlaying == old(isPlaying) && timerActive == old(timerActive) &&
        frameNumber == old(frameNumber) && drawRequests == old(drawRequests)
      ensures !consumed ==>
        fullscreen == old(fullscreen) && isPlaying == old(isPlaying) && timerActive == old(timerActive) &&
        frameNumber == old(frameNumber) && drawRequests == old(drawRequests)
    {
      if keyCode == KeyLeft {
        SetPlaying(false);
        if frameNumber >= 1 {
          SetFrameNumber(frameNumber - 1);
        }
        consumed := true;
      } else if keyCode == KeyRight {
        SetPlaying(false);
        if frameNumber <= FrameCount() {
          SetFrameNumber(frameNumber + 1);
        }
        consumed := true;
      } else if keyCode == KeySpace {
        TogglePlaying();
        consumed := true;
      } else if keyCode == KeyEscape {
        fullscreen := false;
        consumed := true;
      } else {
        consumed := false;
      }
    }

    /**
     * Moving the colour dials to `(r, g, b)`: each channel that changes makes
     * its change handler ask for the current frame again.
     */
    method SetTint(r: real, g: real, b: real)
      requires Valid()
      modifies this`red, this`green, this`blue, this`drawRequests
      ensures Valid()
      ensures red == r && green == g && blue == b
      ensures drawRequests == old(drawRequests) +
        (if r != old(red) then [frameNumber] else []) +
        (if g != old(green) then [frameNumber] else []) +
        (if b != old(blue) then [frameNumber] else [])
    {
      if r != red {
        red := r;
        drawRequests := drawRequests + [frameNumber];
      }
      if g != green {
        green := g;
        drawRequests := drawRequests + [frameNumber];
      }
      if b != blue {
        blue := b;
        drawRequests := drawRequests + [frameNumber];
      }
    }

    /** The full-screen button. */
    method ToggleFullscreen()
      requires Valid()
      modifies this`fullscreen
      ensures Valid()
      ensures fullscreen == !old(fullscreen)
    {
      fullscreen := !fullscreen;
    }

    /** A tap or drag on the scrubber, given the index under the pointer. */
    method Scrub(selectedFrame: int)
      requires Valid()
      modifies this`frameNumber, this`drawRequests
      ensures Valid()
      ensures frameNumber == FrameSelector.ClampFrame(selectedFrame, FrameCount())
      ensures drawRequests == AfterAssign(old(drawRequests), old(frameNumber), frameNumber)
    {
      SetFrameNumber(FrameSelector.ClampFrame(selectedFrame, FrameCount()));
    }

    /**
     * The synchronous part of either loader: playback stops, and once a file
     * has been chosen the error is cleared and the loading overlay shown.
     */
    method StartLoad(fileChosen: bool)
      requires Valid()
      modifies this`isPlaying, this`timerActive, this`frameNumber, this`drawRequests, this`errorText, this`overlayEnabled
      ensures Valid()
      ensures !isPlaying && !timerActive
      ensures frameNumber == old(frameNumber) && drawRequests == old(drawRequests)
      ensures fileChosen ==> errorText == "" && overlayEnabled
      ensures !fileChosen ==> errorText == old(errorText) && overlayEnabled == old(overlayEnabled)
    {
      SetPlaying(false);
      if !fileChosen {
        return;
      }
      errorText := "";
      overlayEnabled := true;
    }

    /**
     * A loader's completion after the video was read: the video replaces the
     * old one in the view and in the renderer, and the player rewinds.
     * Each snapshot the video library produces is taken to be uploadable.
     */
    method LoadSucceeded(v: Video)
      requires Valid()
      requires forall k :: 0 <= k < |v.memoryStates| ==> Uploadable(v.memoryStates[k])
      modifies this`video, this`frameNumber, this`drawRequests, this`overlayEnabled, renderer`memoryStates
      ensures Valid()
      ensures video == Some(v) && renderer.memoryStates == v.memoryStates
      ensures frameNumber == 0 && drawRequests == AfterAssign(old(drawRequests), old(frameNumber), 0)
      ensures !overlayEnabled
    {
      video := Some(v);
      renderer.LoadBuffers(v.memoryStates);
      SetFrameNumber(0);
      overlayEnabled := false;
    }

    /**
     * A loader's completion after reading failed: no video, the player
     * rewinds and the error's description is shown. The renderer keeps
     * whatever snapshots it held.
     */
    method LoadFailed(message: string)
      requires Valid()
      modifies this`video, this`frameNumber, this`drawRequests, this`overlayEnabled, this`errorText
      ensures Valid()
      ensures video.None? && frameNumber == 0 && errorText == message
      ensures drawRequests == AfterAssign(old(drawRequests), old(frameNumber), 0)
      ensures !overlayEnabled
    {
      video := None;
      SetFrameNumber(0);
      overlayEnabled := false;
      errorText := message;
    }

    /**
     * `renderer.draw(frame: vm.frameNumber, red: vm.red, green: vm.green, blue: vm.blue)`,
     * the call every change handler makes: the view model's invariant is
     * exactly what the renderer needs of it.
     */
    method Render(gpu: GpuResponses) returns (plan: Option<DrawPlan>)
      requires Valid()
      requires SensibleResponses(gpu)
      ensures plan.Some? <==>
        renderer.viewAttached && gpu.tileMapBuffer && gpu.tileLibraryBuffer && gpu.commandBuffer &&
        gpu.renderEncoder && gpu.drawable.Some? && gpu.screenEncoder
      ensures plan.Some? ==>
        plan.value == PlanFor(renderer.memoryStates, frameNumber, red, green, blue, gpu.drawable.value, gpu.maxThreads)
    {
      plan := renderer.Draw(frameNumber, red, green, blue, gpu);
    }
  }
}
