# Camera pass model

A Dafny model of VTK's OpenGL camera pass (`vtkCameraPass`), one stage of a
render-pass chain. Each `Render` call:

1. makes sure the renderer has an active camera, creating and resetting one if it has none;
2. picks the target: with an offscreen framebuffer object (FBO) it uses that FBO's last size
   at the origin and changes no buffer; on screen it binds the window's default framebuffer
   when that id is non-zero, takes the renderer's tiled rectangle, and selects the draw and
   read buffers: back or front for mono, one per eye for crystal-eyes stereo. The forced-left
   and forced-right stereo types set the camera's eye flag instead, and every other stereo
   type does nothing;
3. saves viewport, scissor rectangle and scissor-test flag in three scoped guards, then points
   the viewport and scissor at the tile and enables the scissor test;
4. clears when the window erases, the renderer erases and the renderer is not picking;
5. runs the nested (delegate) pass, if any, and adds its rendered-prop count to its own,
   which was reset to 0. Then the guards restore the saved state.

`ReleaseGraphicsResources` forwards to the nested pass, if any.

Modules:

- `GL`: the OpenGL context as a class with the seven fields the pass touches (viewport, scissor
  rectangle, scissor-test flag, draw buffer, read buffer, bound framebuffer, and a log of the
  clears issued, each with the scissor rectangle and scissor-test flag in effect at the time).
  Each GL entry point is a method that changes one field. Also the three scoped guards.
- `Scene`: the render window (a record of its configuration: buffering, stereo flag and type,
  default framebuffer id, erase flag, opaque buffer ids), the camera (its eye flag), the FBO
  (its last size), and the renderer. The renderer is a class whose active-camera slot the pass
  changes; it also counts the cameras created and the camera resets. Also the render state.
- `RenderPass`: the nested pass as a capability. Its effect on the context and the count it
  reports are arbitrary total functions of the context it is handed. It logs the release
  requests it receives.
- `CameraPassSpec`: each stage of `Render` as a pure function, and lemmas about them.
- `CameraPass`: the pass itself as a class. Its `Render` issues the same calls as the source,
  in the same order, and is proved to produce exactly the state that `RenderFrame` describes.

The window, the GL context and the nested pass are parameters or fields. Null checks on the
render state and the window are discharged by the types: a `RenderState` and a `Window` are
values and cannot be null.

Two details of the source that the model keeps:

- Stereo counts as on only when the window's integer stereo flag equals 1 (line 126), not for
  any non-zero value.
- `ReleaseGraphicsResources` forwards every call it receives (lines 247-250): the nested pass
  gets one request per call.

## Model

| member | source | states |
|---|---|---|
| CameraPassSpec.EnsureActiveCamera | Rendering/OpenGL2/vtkCameraPass.cxx:89-104 | afterwards a camera exists; an existing camera is left as is; exactly one creation and one reset happen, and only when there was no camera |
| CameraPassSpec.SelectTarget | Rendering/OpenGL2/vtkCameraPass.cxx:115-204 | viewport, scissor, scissor test and clears are untouched; with an FBO the rectangle is (0, 0, last width, last height) and nothing else changes; on screen the rectangle is the tiled one; draw and read are always left equal, or both unchanged; only the default framebuffer can be bound, and only on screen; the camera changes only in forced-left or forced-right stereo on screen |
| CameraPassSpec.Save | Rendering/OpenGL2/vtkCameraPass.cxx:207-209 | what the guards capture on entry; putting it straight back leaves the context unchanged |
| CameraPassSpec.Restore | Rendering/OpenGL2/vtkCameraPass.cxx:207-209 | the guards put back exactly what they saved and touch no buffer, framebuffer or clear log |
| CameraPassSpec.ApplyTile | Rendering/OpenGL2/vtkCameraPass.cxx:211-213 | viewport and scissor equal the tile and the scissor test is on; restoring the state saved before gives back the original context exactly |
| CameraPassSpec.ShouldClear | Rendering/OpenGL2/vtkCameraPass.cxx:215-216 | a clear is due exactly when the window erases, the renderer erases and the renderer is not picking; picking never clears |
| CameraPassSpec.Prepare | Rendering/OpenGL2/vtkCameraPass.cxx:85-219 | when the nested pass is called: a camera exists, created and reset only if there was none; the saved state is the state on entry; the rectangle is the FBO's last size at the origin, or the tile on screen; camera, draw and read buffer and framebuffer are SelectTarget's choice; viewport and scissor equal the rectangle with the scissor test on; exactly one clear was issued when ShouldClear holds, under the tile scissor with the scissor test on, and none otherwise |
| CameraPassSpec.RunDelegate | Rendering/OpenGL2/vtkCameraPass.cxx:224-231 | with a nested pass, the context is what it leaves and the count what it reports, both from the state it is handed; without one the context is untouched and the count is 0 |
| CameraPassSpec.RenderFrame | Rendering/OpenGL2/vtkCameraPass.cxx:79-237 | on exit viewport, scissor and scissor test equal their values on entry, for every nested pass; a camera exists, created and reset at most once; with no nested pass the count is 0 |
| CameraPassSpec.MonoBuffers | Rendering/OpenGL2/vtkCameraPass.cxx:172-192 | no stereo: draw and read both become the back buffer when double-buffered, the front buffer otherwise; the camera is unchanged |
| CameraPassSpec.CrystalEyesBuffers | Rendering/OpenGL2/vtkCameraPass.cxx:134-161 | crystal-eyes: draw equals read, and is back-left, front-left, back-right or front-right by eye and buffering; the eye flag is only read |
| CameraPassSpec.ForcedEyeModes | Rendering/OpenGL2/vtkCameraPass.cxx:162-169 | forced-left sets the eye flag, forced-right clears it, any other non-crystal-eyes type leaves the camera; no draw or read buffer changes |
| CameraPassSpec.DefaultFramebufferBinding | Rendering/OpenGL2/vtkCameraPass.cxx:115-127 | on screen the default framebuffer is bound exactly when its id is non-zero, and the rectangle is the tiled size and origin |
| CameraPassSpec.OffscreenBypass | Rendering/OpenGL2/vtkCameraPass.cxx:194-204 | with an FBO the nested pass gets the FBO's last size at the origin, with draw, read and framebuffer untouched and the camera only resolved |
| CameraPassSpec.OnlyGuardedStateRestored | Rendering/OpenGL2/vtkCameraPass.cxx:206-213 | viewport, scissor and scissor test are restored; draw and read buffer, framebuffer and clear count are whatever the nested pass left |
| CameraPassSpec.CountAggregation | Rendering/OpenGL2/vtkCameraPass.cxx:224-235 | the count is the nested pass's report on the state it was handed, or 0 when there is no nested pass |
| CameraPassSpec.RenderFrames | Rendering/OpenGL2/vtkCameraPass.cxx:79-237 | successive Render calls, one per frame: the guarded state ends where it began, and after at least one frame a camera exists |
| CameraPassSpec.CameraCreatedOnce | Rendering/OpenGL2/vtkCameraPass.cxx:89-104 | over any sequence of frames at most one camera is created and reset, and only if the renderer started without one; the guarded state ends where it started |
| CameraPass.CameraPass.constructor | Rendering/OpenGL2/vtkCameraPass.cxx:33-37 | a new pass has no nested pass and a count of 0 |
| CameraPass.CameraPass.SetDelegatePass | Rendering/OpenGL2/vtkCameraPass.cxx:30 | the nested pass becomes the one given; the count is kept |
| CameraPass.CameraPass.GetTiledSizeAndOrigin | Rendering/OpenGL2/vtkCameraPass.cxx:66-73 | returns the renderer's tiled width, height and origin |
| CameraPass.CameraPass.ResolveCamera | Rendering/OpenGL2/vtkCameraPass.cxx:89-104 | the renderer's state becomes EnsureActiveCamera of its old state, and the returned camera is the active one |
| CameraPass.CameraPass.SelectTargetOf | Rendering/OpenGL2/vtkCameraPass.cxx:109-204 | the call sequence leaves the rectangle, the context and the camera exactly as SelectTarget says |
| CameraPass.CameraPass.Render | Rendering/OpenGL2/vtkCameraPass.cxx:79-237 | the renderer, context and count after the call are those of RenderFrame; viewport, scissor and scissor test are back to their values on entry; the nested pass stays set and receives no release request; the pass's count equals the nested pass's own count |
| CameraPass.CameraPass.ReleaseGraphicsResources | Rendering/OpenGL2/vtkCameraPass.cxx:244-251 | the nested pass, if any, gets exactly one release request for the given window; its count is unchanged and the pass itself is not modified |
| GL.OpenGLState.Viewport | Rendering/OpenGL2/vtkCameraPass.cxx:211 | sets the viewport only |
| GL.OpenGLState.SetScissorTest | Rendering/OpenGL2/vtkCameraPass.cxx:212 | sets the scissor-test flag only |
| GL.OpenGLState.Scissor | Rendering/OpenGL2/vtkCameraPass.cxx:213 | sets the scissor rectangle only |
| GL.OpenGLState.DrawBuffer | Rendering/OpenGL2/vtkCameraPass.cxx:139 | sets the draw buffer only |
| GL.OpenGLState.ReadBuffer | Rendering/OpenGL2/vtkCameraPass.cxx:140 | sets the read buffer only |
| GL.OpenGLState.BindFramebuffer | Rendering/OpenGL2/vtkCameraPass.cxx:122 | sets the bound framebuffer only |
| GL.OpenGLState.Clear | Rendering/OpenGL2/vtkCameraPass.cxx:218 | logs one clear with the scissor rectangle and scissor-test flag in effect, and changes nothing else |
| GL.OpenGLState.Load | Rendering/OpenGL2/vtkCameraPass.cxx:227 | puts the whole context into the given state, as an arbitrary nested pass may |
| GL.ScopedViewport.constructor | Rendering/OpenGL2/vtkCameraPass.cxx:207 | records the current viewport |
| GL.ScopedScissor.constructor | Rendering/OpenGL2/vtkCameraPass.cxx:208 | records the current scissor rectangle |
| GL.ScopedScissorTest.constructor | Rendering/OpenGL2/vtkCameraPass.cxx:209 | records the current scissor-test flag |
| GL.ScopedViewport.Restore | Rendering/OpenGL2/vtkCameraPass.cxx:207 | puts back the viewport saved on construction, nothing else |
| GL.ScopedScissor.Restore | Rendering/OpenGL2/vtkCameraPass.cxx:208 | puts back the scissor rectangle saved on construction, nothing else |
| GL.ScopedScissorTest.Restore | Rendering/OpenGL2/vtkCameraPass.cxx:209 | re-enables or disables the scissor test as saved on construction, nothing else |
| Scene.Renderer.IsActiveCameraCreated | Rendering/OpenGL2/vtkCameraPass.cxx:89 | true exactly when the renderer has an active camera |
| Scene.Renderer.GetActiveCamera | Rendering/OpenGL2/vtkCameraPass.cxx:100-104 | returns the active camera, creating it (and counting the creation) only when there is none |
| Scene.Renderer.GetTiledSizeAndOrigin | Rendering/OpenGL2/vtkCameraPass.cxx:72 | returns the renderer's tile, a fixed input, as width, height, x, y |
| Scene.Renderer.ResetCamera | Rendering/OpenGL2/vtkCameraPass.cxx:101 | counts one camera reset, nothing else |
| Scene.Renderer.SetLeftEye | Rendering/OpenGL2/vtkCameraPass.cxx:163-166 | sets the active camera's eye flag, nothing else |
| Scene.Renderer.Clear | Rendering/OpenGL2/vtkCameraPass.cxx:218 | issues one clear on the context under its current scissor state, nothing else |
| RenderPass.DelegatePass.Render | Rendering/OpenGL2/vtkCameraPass.cxx:227-230 | the nested pass's effect on the context and its reported count, as functions of the context it is handed |
| RenderPass.DelegatePass.ReleaseGraphicsResources | Rendering/OpenGL2/vtkCameraPass.cxx:249 | logs one release request for the window |

## Left out

- AspectRatioOverride: a floating-point setting stored by the constructor (line 36) and read only by PrintSelf (line 53), which is also left out; Render and ReleaseGraphicsResources never use it.
- PrintSelf (lines 49-64): stream output.
- Reference counting: the destructor (lines 40-46) and the set-object macro's reference handling and its Modified() call when the nested pass changes (line 30). The nested pass is a plain optional field.
- GL error macros and debug-event markers (lines 83, 222, 226, 228, 236), the camera-creation debug message (line 91) and the missing-delegate warning (line 234): diagnostics only.
- MakeCurrent (line 112): context management outside the pass. The window's context is passed to Render as a parameter.
- SafeDownCast (lines 109, 111): a render-state framebuffer that is not an OpenGL FBO counts as no FBO, and the render window is taken to be an OpenGL one.
- ResetCamera's framing math and the tiling computation (lines 72, 101): external collaborators. A reset is only counted, and the tiled rectangle is a fixed renderer field.
- The camera a renderer creates when it has none: vtkRenderer.cxx and vtkCamera.cxx are not part of this model. That camera is a renderer input, factoryCamera.
- vtkRenderPass.cxx is not part of this model: the new pass starts with a count of 0.
- RenderPass.DelegatePass.Render: the nested pass acts on the GL context only. Its effects on the renderer or camera are not modelled, and neither is a chain of nested passes.
- CameraPass.CameraPass.Render: the guards restore on normal completion. Exception unwinding through the nested pass is not modelled, because the nested pass here always returns.
- The actual GL draw/read-buffer semantics, pixel contents and what a clear erases: only the identifiers set and, per clear, the scissor state it was issued under are kept.
