/**
 * The part of the OpenGL context that the camera pass reads or writes,
 * kept as explicit state handed to the pass, and the three scoped guards
 * that save one piece of it and put it back at scope exit.
 */
module GL {

  /** A rectangle in window pixels: lower-left origin and size. */
  datatype Rect = Rect(x: int, y: int, width: int, height: int)

  /** The scissor state in effect when a clear was issued. */
  datatype ClearRecord = ClearRecord(scissor: Rect, scissorTest: bool)

  /**
   * A snapshot of the context. Buffer and framebuffer identifiers are opaque;
   * `clears` logs the clears issued so far, oldest first.
   */
  datatype GLState = GLState(
    viewport: Rect,
    scissor: Rect,
    scissorTest: bool,
    drawBuffer: int,
    readBuffer: int,
    framebuffer: nat,
    clears: seq<ClearRecord>)

  /** The mutable context (one per window); every entry point updates one field. */
  class OpenGLState {
    var viewport: Rect
    var scissor: Rect
    var scissorTest: bool
    var drawBuffer: int
    var readBuffer: int
    var framebuffer: nat
    var clears: seq<ClearRecord>

    function Current(): (s: GLState)
      reads this
    {
      GLState(viewport, scissor, scissorTest, drawBuffer, readBuffer, framebuffer, clears)
    }

    constructor (init: GLState)
      ensures Current() == init
    {
      viewport, scissor, scissorTest := init.viewport, init.scissor, init.scissorTest;
      drawBuffer, readBuffer := init.drawBuffer, init.readBuffer;
      framebuffer, clears := init.framebuffer, init.clears;
    }

    /** glViewport */
    method Viewport(r: Rect)
      modifies this
      ensures Current() == old(Current()).(viewport := r)
    {
      viewport := r;
    }

    /** glScissor */
    method Scissor(r: Rect)
      modifies this
      ensures Current() == old(Current()).(scissor := r)
    {
      scissor := r;
    }

    /** glEnable(GL_SCISSOR_TEST) when `enabled`, glDisable(GL_SCISSOR_TEST) otherwise */
    method SetScissorTest(enabled: bool)
      modifies this
      ensures Current() == old(Current()).(scissorTest := enabled)
    {
      scissorTest := enabled;
    }

    /** glDrawBuffer */
    method DrawBuffer(b: int)
      modifies this
      ensures Current() == old(Current()).(drawBuffer := b)
    {
      drawBuffer := b;
    }

    /** glReadBuffer */
    method ReadBuffer(b: int)
      modifies this
      ensures Current() == old(Current()).(readBuffer := b)
    {
      readBuffer := b;
    }

    /** glBindFramebuffer(GL_FRAMEBUFFER, id) */
    method BindFramebuffer(id: nat)
      modifies this
      ensures Current() == old(Current()).(framebuffer := id)
    {
      framebuffer := id;
    }

    /** glClear: logs the scissor rectangle and scissor-test flag it was issued under */
    method Clear()
      modifies this
      ensures Current() == old(Current()).(clears := old(clears) + [ClearRecord(old(scissor), old(scissorTest))])
    {
      clears := clears + [ClearRecord(scissor, scissorTest)];
    }

    /** Puts the whole context into state `s` (what an arbitrary nested pass may leave behind). */
    method Load(s: GLState)
      modifies this
      ensures Current() == s
    {
      viewport, scissor, scissorTest := s.viewport, s.scissor, s.scissorTest;
      drawBuffer, readBuffer := s.drawBuffer, s.readBuffer;
      framebuffer, clears := s.framebuffer, s.clears;
    }
  }

  /** Saves the viewport on construction; Restore is its destructor. */
  class ScopedViewport {
    const state: OpenGLState
    const saved: Rect

    constructor (state: OpenGLState)
      ensures this.state == state && saved == state.viewport
    {
      this.state := state;
      saved := state.viewport;
    }

    method Restore()
      modifies state
      ensures state.Current() == old(state.Current()).(viewport := saved)
    {
      state.Viewport(saved);
    }
  }

  /** Saves the scissor rectangle on construction; Restore is its destructor. */
  class ScopedScissor {
    const state: OpenGLState
    const saved: Rect

    constructor (state: OpenGLState)
      ensures this.state == state && saved == state.scissor
    {
      this.state := state;
      saved := state.scissor;
    }

    method Restore()
      modifies state
      ensures state.Current() == old(state.Current()).(scissor := saved)
    {
      state.Scissor(saved);
    }
  }

  /** Saves the scissor-test flag on construction; Restore re-enables or disables it. */
  class ScopedScissorTest {
    const state: OpenGLState
    const saved: bool

    constructor (state: OpenGLState)
      ensures this.state == state && saved == state.scissorTest
    {
      this.state := state;
      saved := state.scissorTest;
    }

    method Restore()
      modifies state
      ensures state.Current() == old(state.Current()).(scissorTest := saved)
    {
      state.SetScissorTest(saved);
    }
  }
}
