/** rendering-context.ts: what one camera's builder chain hands from one builder to the next. */
module Contexts {
  import opened Wrappers

  class RenderingContext {
    /** The colour resource the next builder reads or draws onto. */
    var colorName: Option<string>
    /** The depth-stencil resource the next builder uses. */
    var depthStencilName: Option<string>
    /** The handle of the last pass produced so far. */
    var lastPass: Option<nat>

    predicate IsReset()
      reads this
    {
      colorName == None && depthStencilName == None && lastPass == None
    }

    constructor ()
      ensures IsReset()
    {
      colorName, depthStencilName, lastPass := None, None, None;
    }

    /** Clears all three fields, whatever they held: a fresh and a reset context agree. */
    method Reset()
      modifies this
      ensures IsReset()
    {
      colorName := None;
      depthStencilName := None;
      lastPass := None;
    }
  }
}
