/** The second copy of the drawing element store, which the library store
    wires up. Its reducers do the same list updates, so they are specified by
    the same sequence functions and inherit their properties. */
module LibDrawings {
  import opened Elements
  import Drawings

  /** The store's state: the drawn elements, oldest first. */
  class DrawingsState {
    var drawables: seq<ElementInfo>

    constructor ()
      ensures drawables == []
    {
      drawables := [];
    }

    method AddDrawable(payload: ElementInfo)
      modifies this
      ensures drawables == old(drawables) + [payload]
    {
      drawables := drawables + [payload];
    }

    method UpdateLastDrawable(payload: ElementInfo)
      modifies this
      ensures drawables == Drawings.WithLast(old(drawables), payload)
    {
      if |drawables| > 0 {
        drawables := drawables[|drawables| - 1 := payload];
      }
    }

    method RemoveDrawable(payload: ElementInfo)
      modifies this
      ensures drawables == Drawings.Without(old(drawables), payload)
      ensures |drawables| <= |old(drawables)|
      ensures payload !in drawables
    {
      drawables := Drawings.Without(drawables, payload);
    }
  }
}
