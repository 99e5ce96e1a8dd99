/**
 * The camera pass: one stage of a render-pass chain that prepares the
 * camera, target buffers, viewport and scissor, optionally clears, and hands
 * the frame to a nested pass, restoring viewport and scissor state after it.
 */
module CameraPass {
  import opened Wrappers
  import opened GL
  import opened Scene
  import opened RenderPass
  import opened CameraPassSpec

  /** The inputs of one Render call as the pure model sees them. */
  function InputsOf(s: RenderState, d: Option<Delegate>): FrameInputs
  {
    FrameInputs(s.frameBuffer, s.renderer.window, s.renderer.tiled, s.renderer.erase,
                s.renderer.isPicking, s.renderer.factoryCamera, d)
  }

  class CameraPass {
    var delegatePass: DelegatePass?
    var numberOfRenderedProps: nat

    /** The nested pass's behaviour, if there is one. */
    function DelegateModel(): Option<Delegate>
      reads this
    {
      if delegatePass == null then None else Some(delegatePass.behaviour)
    }

    constructor ()
      ensures delegatePass == null && numberOfRenderedProps == 0
    {
      delegatePass := null;
      numberOfRenderedProps := 0;
    }

    method SetDelegatePass(d: DelegatePass?)
      modifies this
      ensures delegatePass == d
      ensures numberOfRenderedProps == old(numberOfRenderedProps)
    {
      delegatePass := d;
    }

    /** The tile of the render state's renderer, as width, height, x, y. */
    method GetTiledSizeAndOrigin(s: RenderState) returns (width: int, height: int, originX: int, originY: int)
      ensures Rect(originX, originY, width, height) == s.renderer.tiled
    {
      width, height, originX, originY := s.renderer.GetTiledSizeAndOrigin();
    }

    /** Makes sure the renderer has an active camera, creating and resetting one if needed. */
    method ResolveCamera(ren: Renderer) returns (camera: Camera)
      modifies ren
      ensures ren.State() == EnsureActiveCamera(old(ren.State()), ren.factoryCamera)
      ensures ren.activeCamera == Some(camera)
    {
      var created := ren.IsActiveCameraCreated();
      if !created {
        var made := ren.GetActiveCamera();
        ren.ResetCamera();
      }
      camera := ren.GetActiveCamera();
    }

    /**
     * Binds the target and selects the draw and read buffers as SelectTarget
     * says, updating the camera's eye flag in the forced-eye stereo modes.
     */
    method SelectTargetOf(s: RenderState, gl: OpenGLState, camera: Camera) returns (rect: Rect)
      requires s.renderer.activeCamera == Some(camera)
      modifies s.renderer, gl
      ensures var t := SelectTarget(s.frameBuffer, s.renderer.window, s.renderer.tiled, camera, old(gl.Current()));
        && rect == t.rect && gl.Current() == t.gl
        && s.renderer.State() == old(s.renderer.State()).(activeCamera := Some(t.camera))
    {
      var ren := s.renderer;
      var win := ren.window;
      match s.frameBuffer {
        case None =>
          var dfbo := win.defaultFramebuffer;
          if dfbo != 0 {
            gl.BindFramebuffer(dfbo);
          }
          var stereo := win.stereoRender == 1;
          var usize, vsize, x, y := GetTiledSizeAndOrigin(s);
          rect := Rect(x, y, usize, vsize);
          if stereo {
            match win.stereoType {
              case CrystalEyes =>
                if camera.leftEye {
                  if win.doubleBuffer {
                    gl.DrawBuffer(win.backLeftBuffer);
                    gl.ReadBuffer(win.backLeftBuffer);
                  } else {
                    gl.DrawBuffer(win.frontLeftBuffer);
                    gl.ReadBuffer(win.frontLeftBuffer);
                  }
                } else {
                  if win.doubleBuffer {
                    gl.DrawBuffer(win.backRightBuffer);
                    gl.ReadBuffer(win.backRightBuffer);
                  } else {
                    gl.DrawBuffer(win.frontRightBuffer);
                    gl.ReadBuffer(win.frontRightBuffer);
                  }
                }
              case StereoLeft =>
                ren.SetLeftEye(true);
              case StereoRight =>
                ren.SetLeftEye(false);
              case OtherStereo =>
            }
          } else {
            if win.doubleBuffer {
              gl.DrawBuffer(win.backBuffer);
              gl.ReadBuffer(win.backBuffer);
            } else {
              gl.DrawBuffer(win.frontBuffer);
              gl.ReadBuffer(win.frontBuffer);
            }
          }
        case Some(fbo) =>
          rect := Rect(0, 0, fbo.lastWidth, fbo.lastHeight);
      }
    }

    /**
     * One frame. The new renderer, context and count are those of RenderFrame;
     * in particular viewport, scissor rectangle and scissor test are back to
     * their values on entry, whatever the nested pass did.
     */
    method Render(s: RenderState, gl: OpenGLState)
      modifies this, s.renderer, gl, delegatePass
      ensures delegatePass == old(delegatePass)
      ensures var o := RenderFrame(InputsOf(s, old(DelegateModel())), old(s.renderer.State()), old(gl.Current()));
        && s.renderer.State() == o.renderer
        && gl.Current() == o.gl
        && numberOfRenderedProps == o.renderedProps
      ensures gl.viewport == old(gl.viewport) && gl.scissor == old(gl.scissor)
      ensures gl.scissorTest == old(gl.scissorTest)
      ensures delegatePass != null ==> delegatePass.released == old(delegatePass.released)
      ensures delegatePass != null ==> delegatePass.numberOfRenderedProps == numberOfRenderedProps
    {
      ghost var inp := InputsOf(s, DelegateModel());
      ghost var gl0 := gl.Current();
      ghost var st := Prepare(inp, s.renderer.State(), gl0);

      numberOfRenderedProps := 0;
      var ren := s.renderer;

      var camera := ResolveCamera(ren);
      var win := ren.window;
      var rect := SelectTargetOf(s, gl, camera);

      // the three guards, destroyed in reverse order at the end of the scope
      var vsaver := new ScopedViewport(gl);
      var ssaver := new ScopedScissor(gl);
      var stsaver := new ScopedScissorTest(gl);

      gl.Viewport(rect);
      gl.SetScissorTest(true);
      gl.Scissor(rect);

      if win.erase && ren.erase && !ren.isPicking {
        ren.Clear(gl);
      }
      assert gl.Current() == st.gl && ren.State() == st.renderer;

      if delegatePass != null {
        delegatePass.Render(s, gl);
        numberOfRenderedProps := numberOfRenderedProps + delegatePass.numberOfRenderedProps;
      }

      stsaver.Restore();
      ssaver.Restore();
      vsaver.Restore();
    }

    /** Forwards the release request to the nested pass, once, and does nothing else. */
    method ReleaseGraphicsResources(w: Window)
      modifies delegatePass
      ensures delegatePass != null ==> delegatePass.released == old(delegatePass.released) + [w]
      ensures delegatePass != null ==> delegatePass.numberOfRenderedProps == old(delegatePass.numberOfRenderedProps)
    {
      if delegatePass != null {
        delegatePass.ReleaseGraphicsResources(w);
      }
    }
  }
}
