/**
 * The capability the camera pass depends on in its nested pass: render with
 * the same render state and report how many props it rendered, and release
 * graphics resources for a window.
 */
module RenderPass {
  import opened GL
  import opened Scene

  /**
   * An arbitrary nested pass's effect on the context: the state it leaves
   * behind and the count it reports, each a function of the state it starts from.
   */
  datatype Delegate = Delegate(render: GLState -> GLState, count: GLState -> nat)

  /** A nested pass with a fixed behaviour and a log of the release requests it got. */
  class DelegatePass {
    const behaviour: Delegate
    var numberOfRenderedProps: nat
    var released: seq<Window>

    constructor (behaviour: Delegate)
      ensures this.behaviour == behaviour && numberOfRenderedProps == 0 && released == []
    {
      this.behaviour := behaviour;
      numberOfRenderedProps, released := 0, [];
    }

    method Render(s: RenderState, gl: OpenGLState)
      modifies this, gl
      ensures gl.Current() == behaviour.render(old(gl.Current()))
      ensures numberOfRenderedProps == behaviour.count(old(gl.Current()))
      ensures released == old(released)
    {
      var before := gl.Current();
      gl.Load(behaviour.render(before));
      numberOfRenderedProps := behaviour.count(before);
    }

    method ReleaseGraphicsResources(w: Window)
      modifies this
      ensures released == old(released) + [w]
      ensures numberOfRenderedProps == old(numberOfRenderedProps)
    {
      released := released + [w];
    }
  }
}
