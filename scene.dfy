/**
 * What the camera pass sees of the scene: the render window's configuration,
 * the camera's eye flag, the offscreen framebuffer, and the renderer that
 * owns the active camera.
 */
module Scene {
  import opened Wrappers
  import opened GL

  /**
   * The stereo types the pass tells apart: crystal-eyes, forced left,
   * forced right; every other type (red-blue, interlaced, anaglyph, ...) is
   * handled the same way by the pass and is grouped as OtherStereo.
   */
  datatype StereoType = CrystalEyes | StereoLeft | StereoRight | OtherStereo

  /**
   * The OpenGL render window's configuration for one frame. `stereoRender`
   * is the window's integer stereo flag; buffer names are opaque identifiers.
   */
  datatype Window = Window(
    doubleBuffer: bool,
    stereoRender: int,
    stereoType: StereoType,
    defaultFramebuffer: nat,
    erase: bool,
    frontBuffer: int,
    backBuffer: int,
    frontLeftBuffer: int,
    backLeftBuffer: int,
    frontRightBuffer: int,
    backRightBuffer: int)

  /** The camera as far as the pass is concerned: which eye it renders. */
  datatype Camera = Camera(leftEye: bool)

  /** An offscreen framebuffer object, known by its last size. */
  datatype Framebuffer = Framebuffer(lastWidth: int, lastHeight: int)

  /**
   * The renderer state the pass may change: the active-camera slot, and how
   * many cameras were created and how many camera resets were done.
   */
  datatype RendererState = RendererState(activeCamera: Option<Camera>, camerasCreated: nat, resets: nat)

  /**
   * A renderer. The fixed fields are its configuration for the frame; the
   * tiled rectangle is what its tiling query reports, and `factoryCamera` is
   * the camera it makes when asked for an active camera it does not have.
   */
  class Renderer {
    const window: Window
    const erase: bool
    const isPicking: bool
    const tiled: Rect
    const factoryCamera: Camera
    var activeCamera: Option<Camera>
    var camerasCreated: nat
    var resets: nat

    function State(): (s: RendererState)
      reads this
    {
      RendererState(activeCamera, camerasCreated, resets)
    }

    constructor (window: Window, erase: bool, isPicking: bool, tiled: Rect, factoryCamera: Camera, camera: Option<Camera>)
      ensures this.window == window && this.erase == erase && this.isPicking == isPicking
      ensures this.tiled == tiled && this.factoryCamera == factoryCamera
      ensures State() == RendererState(camera, 0, 0)
    {
      this.window, this.erase, this.isPicking := window, erase, isPicking;
      this.tiled, this.factoryCamera := tiled, factoryCamera;
      activeCamera, camerasCreated, resets := camera, 0, 0;
    }

    method IsActiveCameraCreated() returns (created: bool)
      ensures created <==> activeCamera.Some?
    {
      created := activeCamera.Some?;
    }

    /** Returns the active camera, creating one first when there is none. */
    method GetActiveCamera() returns (camera: Camera)
      modifies this
      ensures old(activeCamera).Some? ==> State() == old(State())
      ensures old(activeCamera).None? ==>
        State() == RendererState(Some(factoryCamera), old(camerasCreated) + 1, old(resets))
      ensures activeCamera == Some(camera)
    {
      if activeCamera.None? {
        activeCamera := Some(factoryCamera);
        camerasCreated := camerasCreated + 1;
      }
      camera := activeCamera.value;
    }

    /** Re-frames the active camera on the scene; the framing itself is opaque. */
    method ResetCamera()
      modifies this
      ensures State() == old(State()).(resets := old(resets) + 1)
    {
      resets := resets + 1;
    }

    /** SetLeftEye on the active camera. */
    method SetLeftEye(leftEye: bool)
      requires activeCamera.Some?
      modifies this
      ensures State() == old(State()).(activeCamera := Some(old(activeCamera).value.(leftEye := leftEye)))
    {
      activeCamera := Some(activeCamera.value.(leftEye := leftEye));
    }

    /** The renderer's tiled size and origin, as width, height, x, y. */
    method GetTiledSizeAndOrigin() returns (width: int, height: int, originX: int, originY: int)
      ensures Rect(originX, originY, width, height) == tiled
    {
      width, height, originX, originY := tiled.width, tiled.height, tiled.x, tiled.y;
    }

    /** Clears the current target through the context. */
    method Clear(gl: OpenGLState)
      modifies gl
      ensures gl.Current() == old(gl.Current()).(clears := old(gl.clears) + [ClearRecord(old(gl.scissor), old(gl.scissorTest))])
    {
      gl.Clear();
    }
  }

  /** The per-call render state: the renderer and an optional offscreen framebuffer. */
  datatype RenderState = RenderState(renderer: Renderer, frameBuffer: Option<Framebuffer>)
}
