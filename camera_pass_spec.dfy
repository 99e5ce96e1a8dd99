/**
 * The camera pass's Render as pure functions, one per stage:
 * camera resolution, target selection, tile application with saved state,
 * the optional clear, delegation and the restore at scope exit.
 */
module CameraPassSpec {
  import opened Wrappers
  import opened GL
  import opened Scene
  import opened RenderPass

  /** Everything one Render call reads but does not change. */
  datatype FrameInputs = FrameInputs(
    frameBuffer: Option<Framebuffer>,
    window: Window,
    tiled: Rect,
    rendererErase: bool,
    picking: bool,
    factoryCamera: Camera,
    delegate: Option<Delegate>)

  /** The state the three scoped guards save. */
  datatype Saved = Saved(viewport: Rect, scissor: Rect, scissorTest: bool)

  /** The outcome of target selection: tile rectangle, camera, context. */
  datatype Target = Target(rect: Rect, camera: Camera, gl: GLState)

  /** The point just before the nested pass runs. */
  datatype Staged = Staged(renderer: RendererState, rect: Rect, saved: Saved, gl: GLState)

  /** What Render leaves behind: renderer, context and the pass's prop count. */
  datatype Outcome = Outcome(renderer: RendererState, gl: GLState, renderedProps: nat)

  /** Camera resolution: make sure the renderer has an active camera. */
  function EnsureActiveCamera(r: RendererState, factory: Camera): (r': RendererState)
    ensures r'.activeCamera.Some?
    ensures r.activeCamera.Some? ==> r' == r
    ensures r'.camerasCreated == r.camerasCreated + (if r.activeCamera.None? then 1 else 0)
    ensures r'.resets == r.resets + (if r.activeCamera.None? then 1 else 0)
  {
    if r.activeCamera.Some? then r
    else RendererState(Some(factory), r.camerasCreated + 1, r.resets + 1)
  }

  /** glDrawBuffer(b) followed by glReadBuffer(b). */
  function DrawAndRead(gl: GLState, b: int): GLState
  {
    gl.(drawBuffer := b, readBuffer := b)
  }

  /** The buffer crystal-eyes stereo uses for the camera's eye. */
  function CrystalEyesBuffer(win: Window, leftEye: bool): int
  {
    if leftEye then
      if win.doubleBuffer then win.backLeftBuffer else win.frontLeftBuffer
    else
      if win.doubleBuffer then win.backRightBuffer else win.frontRightBuffer
  }

  /** The buffer mono rendering uses. */
  function MonoBuffer(win: Window): int
  {
    if win.doubleBuffer then win.backBuffer else win.frontBuffer
  }

  /**
   * Target selection: the offscreen framebuffer's last size at the origin and
   * nothing touched, or the default framebuffer bound (when non-zero), the
   * tiled rectangle, and a draw/read buffer chosen by stereo mode and eye.
   */
  function SelectTarget(fbo: Option<Framebuffer>, win: Window, tiled: Rect, camera: Camera, gl: GLState): (t: Target)
    ensures t.gl.viewport == gl.viewport && t.gl.scissor == gl.scissor
    ensures t.gl.scissorTest == gl.scissorTest && t.gl.clears == gl.clears
    ensures fbo.Some? ==> t == Target(Rect(0, 0, fbo.value.lastWidth, fbo.value.lastHeight), camera, gl)
    ensures fbo.None? ==> t.rect == tiled
    ensures t.gl.drawBuffer == t.gl.readBuffer || (t.gl.drawBuffer == gl.drawBuffer && t.gl.readBuffer == gl.readBuffer)
    ensures t.gl.framebuffer == gl.framebuffer || (fbo.None? && t.gl.framebuffer == win.defaultFramebuffer)
    ensures t.camera != camera ==>
      fbo.None? && win.stereoRender == 1 && (win.stereoType == StereoLeft || win.stereoType == StereoRight)
  {
    match fbo
    case Some(f) => Target(Rect(0, 0, f.lastWidth, f.lastHeight), camera, gl)
    case None =>
      var bound := if win.defaultFramebuffer != 0 then gl.(framebuffer := win.defaultFramebuffer) else gl;
      if win.stereoRender == 1 then
        match win.stereoType
        case CrystalEyes => Target(tiled, camera, DrawAndRead(bound, CrystalEyesBuffer(win, camera.leftEye)))
        case StereoLeft => Target(tiled, camera.(leftEye := true), bound)
        case StereoRight => Target(tiled, camera.(leftEye := false), bound)
        case OtherStereo => Target(tiled, camera, bound)
      else
        Target(tiled, camera, DrawAndRead(bound, MonoBuffer(win)))
  }

  /** What the three guards record on entry: putting it straight back changes nothing. */
  function Save(gl: GLState): (s: Saved)
    ensures Restore(s, gl) == gl
  {
    Saved(gl.viewport, gl.scissor, gl.scissorTest)
  }

  /** What the three guards put back on exit. */
  function Restore(saved: Saved, gl: GLState): (r: GLState)
    ensures r.viewport == saved.viewport && r.scissor == saved.scissor && r.scissorTest == saved.scissorTest
    ensures r.drawBuffer == gl.drawBuffer && r.readBuffer == gl.readBuffer
    ensures r.framebuffer == gl.framebuffer && r.clears == gl.clears
  {
    gl.(viewport := saved.viewport, scissor := saved.scissor, scissorTest := saved.scissorTest)
  }

  /** Viewport, scissor test on, scissor rectangle: all drawing restricted to the tile. */
  function ApplyTile(rect: Rect, gl: GLState): (r: GLState)
    ensures r.viewport == rect && r.scissor == rect && r.scissorTest
    ensures Restore(Save(gl), r) == gl
  {
    gl.(viewport := rect).(scissorTest := true).(scissor := rect)
  }

  /** The clear condition: window and renderer both erase, and not picking. */
  predicate ShouldClear(inp: FrameInputs): (b: bool)
    ensures inp.picking ==> !b
    ensures !inp.window.erase || !inp.rendererErase ==> !b
    ensures inp.window.erase && inp.rendererErase && !inp.picking ==> b
  {
    inp.window.erase && inp.rendererErase && !inp.picking
  }

  /** Every stage up to the call of the nested pass. */
  function Prepare(inp: FrameInputs, r: RendererState, gl: GLState): (st: Staged)
    ensures st.renderer.activeCamera.Some?
    ensures st.renderer.camerasCreated == r.camerasCreated + (if r.activeCamera.None? then 1 else 0)
    ensures st.renderer.resets == r.resets + (if r.activeCamera.None? then 1 else 0)
    ensures st.saved == Save(gl)
    ensures st.rect == match inp.frameBuffer
      case Some(f) => Rect(0, 0, f.lastWidth, f.lastHeight)
      case None => inp.tiled
    ensures var t := SelectTarget(inp.frameBuffer, inp.window, inp.tiled,
                                  EnsureActiveCamera(r, inp.factoryCamera).activeCamera.value, gl);
      && st.rect == t.rect
      && st.renderer.activeCamera == Some(t.camera)
      && st.gl.drawBuffer == t.gl.drawBuffer && st.gl.readBuffer == t.gl.readBuffer
      && st.gl.framebuffer == t.gl.framebuffer
    ensures st.gl.viewport == st.rect && st.gl.scissor == st.rect && st.gl.scissorTest
    ensures st.gl.clears == gl.clears + (if ShouldClear(inp) then [ClearRecord(st.rect, true)] else [])
  {
    var r1 := EnsureActiveCamera(r, inp.factoryCamera);
    var t := SelectTarget(inp.frameBuffer, inp.window, inp.tiled, r1.activeCamera.value, gl);
    var saved := Save(t.gl);
    var tile := ApplyTile(t.rect, t.gl);
    var cleared := if ShouldClear(inp) then tile.(clears := tile.clears + [ClearRecord(tile.scissor, tile.scissorTest)]) else tile;
    Staged(r1.(activeCamera := Some(t.camera)), t.rect, saved, cleared)
  }

  /** The context after the nested pass (if any), and the count it reports. */
  function RunDelegate(d: Option<Delegate>, gl: GLState): (r: (GLState, nat))
    ensures d.None? ==> r == (gl, 0)
    ensures d.Some? ==> r.0 == d.value.render(gl) && r.1 == d.value.count(gl)
  {
    match d
    case None => (gl, 0)
    case Some(p) => (p.render(gl), p.count(gl))
  }

  /** One whole Render call. */
  function RenderFrame(inp: FrameInputs, r: RendererState, gl: GLState): (o: Outcome)
    ensures Save(o.gl) == Save(gl)
    ensures o.renderer.activeCamera.Some?
    ensures o.renderer.camerasCreated == r.camerasCreated + (if r.activeCamera.None? then 1 else 0)
    ensures o.renderer.resets == r.resets + (if r.activeCamera.None? then 1 else 0)
    ensures inp.delegate.None? ==> o.renderedProps == 0
  {
    var st := Prepare(inp, r, gl);
    var (after, count) := RunDelegate(inp.delegate, st.gl);
    Outcome(st.renderer, Restore(st.saved, after), 0 + count)
  }

  /** Render called once per frame, with per-frame inputs. */
  function RenderFrames(frames: seq<FrameInputs>, r: RendererState, gl: GLState, props: nat): (o: Outcome)
    ensures Save(o.gl) == Save(gl)
    ensures frames != [] ==> o.renderer.activeCamera.Some?
    decreases |frames|
  {
    if frames == [] then Outcome(r, gl, props)
    else
      var o1 := RenderFrame(frames[0], r, gl);
      RenderFrames(frames[1..], o1.renderer, o1.gl, o1.renderedProps)
  }

  // ---------------------------------------------------------------------
  // Buffer selection, case by case

  /** Mono on-screen: draw and read both go to the back buffer, or the front one when single-buffered. */
  lemma MonoBuffers(win: Window, tiled: Rect, camera: Camera, gl: GLState)
    requires win.stereoRender != 1
    ensures var t := SelectTarget(None, win, tiled, camera, gl);
      t.gl.drawBuffer == t.gl.readBuffer == (if win.doubleBuffer then win.backBuffer else win.frontBuffer)
      && t.camera == camera
  {
  }

  /** Crystal-eyes: one buffer per eye and buffering mode for both draw and read; the eye flag is only read. */
  lemma CrystalEyesBuffers(win: Window, tiled: Rect, camera: Camera, gl: GLState)
    requires win.stereoRender == 1 && win.stereoType == CrystalEyes
    ensures var t := SelectTarget(None, win, tiled, camera, gl);
      && t.gl.drawBuffer == t.gl.readBuffer
      && (camera.leftEye && win.doubleBuffer ==> t.gl.drawBuffer == win.backLeftBuffer)
      && (camera.leftEye && !win.doubleBuffer ==> t.gl.drawBuffer == win.frontLeftBuffer)
      && (!camera.leftEye && win.doubleBuffer ==> t.gl.drawBuffer == win.backRightBuffer)
      && (!camera.leftEye && !win.doubleBuffer ==> t.gl.drawBuffer == win.frontRightBuffer)
      && t.camera == camera
  {
  }

  /** Forced-eye stereo sets the eye flag and no buffer; any other stereo type changes nothing. */
  lemma ForcedEyeModes(win: Window, tiled: Rect, camera: Camera, gl: GLState)
    requires win.stereoRender == 1 && win.stereoType != CrystalEyes
    ensures var t := SelectTarget(None, win, tiled, camera, gl);
      && t.gl.drawBuffer == gl.drawBuffer && t.gl.readBuffer == gl.readBuffer
      && (win.stereoType == StereoLeft ==> t.camera.leftEye)
      && (win.stereoType == StereoRight ==> !t.camera.leftEye)
      && (win.stereoType == OtherStereo ==> t.camera == camera)
  {
  }

  /** On screen, the default framebuffer is bound exactly when its id is non-zero; the rectangle is the tile's. */
  lemma DefaultFramebufferBinding(win: Window, tiled: Rect, camera: Camera, gl: GLState)
    ensures var t := SelectTarget(None, win, tiled, camera, gl);
      && t.gl.framebuffer == (if win.defaultFramebuffer != 0 then win.defaultFramebuffer else gl.framebuffer)
      && t.rect == tiled
  {
  }

  // ---------------------------------------------------------------------
  // Whole-frame properties

  /** With an offscreen framebuffer the nested pass sees its last size at the origin and untouched buffers and camera. */
  lemma OffscreenBypass(inp: FrameInputs, r: RendererState, gl: GLState)
    requires inp.frameBuffer.Some?
    ensures var st := Prepare(inp, r, gl);
      && st.rect == Rect(0, 0, inp.frameBuffer.value.lastWidth, inp.frameBuffer.value.lastHeight)
      && st.gl.drawBuffer == gl.drawBuffer && st.gl.readBuffer == gl.readBuffer
      && st.gl.framebuffer == gl.framebuffer
      && st.renderer == EnsureActiveCamera(r, inp.factoryCamera)
  {
  }

  /**
   * Viewport, scissor rectangle and scissor test come back to their values before
   * the call for every nested pass; buffer and framebuffer choices, and clears,
   * are whatever the nested pass left.
   */
  lemma OnlyGuardedStateRestored(inp: FrameInputs, r: RendererState, gl: GLState)
    ensures var o := RenderFrame(inp, r, gl);
      var after := RunDelegate(inp.delegate, Prepare(inp, r, gl).gl).0;
      && o.gl.viewport == gl.viewport && o.gl.scissor == gl.scissor && o.gl.scissorTest == gl.scissorTest
      && o.gl.drawBuffer == after.drawBuffer && o.gl.readBuffer == after.readBuffer
      && o.gl.framebuffer == after.framebuffer && o.gl.clears == after.clears
  {
  }

  /** The count Render leaves is the nested pass's report on the state it was handed, or 0 without one. */
  lemma CountAggregation(inp: FrameInputs, r: RendererState, gl: GLState)
    ensures var o := RenderFrame(inp, r, gl);
      match inp.delegate
      case None => o.renderedProps == 0
      case Some(d) => o.renderedProps == d.count(Prepare(inp, r, gl).gl)
  {
  }

  /**
   * Over any run of frames: at most one camera is created and reset, only when
   * the renderer started without one, and the guarded state ends where it began.
   */
  lemma {:induction false} CameraCreatedOnce(frames: seq<FrameInputs>, r: RendererState, gl: GLState, props: nat)
    ensures var o := RenderFrames(frames, r, gl, props);
      && o.renderer.camerasCreated == r.camerasCreated + (if frames != [] && r.activeCamera.None? then 1 else 0)
      && o.renderer.resets == r.resets + (if frames != [] && r.activeCamera.None? then 1 else 0)
      && (frames != [] ==> o.renderer.activeCamera.Some?)
      && Save(o.gl) == Save(gl)
    decreases |frames|
  {
    if frames != [] {
      var o1 := RenderFrame(frames[0], r, gl);
      CameraCreatedOnce(frames[1..], o1.renderer, o1.gl, o1.renderedProps);
    }
  }
}
