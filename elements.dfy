/** Shared shapes: points of the drawing plane and the line elements both stores hold. */
module Elements {

  /** A point of the world plane. JavaScript numbers are modelled as reals. */
  datatype Point = Point(x: real, y: real)

  /** The sketch object that rough.js produces for a shape. Its contents are
      foreign and never inspected, so it is an opaque object. */
  class Drawable {
    constructor () {
    }
  }

  /** A drawn shape: two endpoints and its precomputed sketch.
      Elements are objects: two elements are the same element only when they
      are the same reference. */
  class ElementInfo {
    const x1: real
    const y1: real
    const x2: real
    const y2: real
    const roughElement: Drawable

    constructor (x1: real, y1: real, x2: real, y2: real, roughElement: Drawable)
      ensures this.x1 == x1 && this.y1 == y1 && this.x2 == x2 && this.y2 == y2
      ensures this.roughElement == roughElement
    {
      this.x1, this.y1, this.x2, this.y2 := x1, y1, x2, y2;
      this.roughElement := roughElement;
    }

    /** True when this element is the segment from `a` to `b`. */
    predicate Joins(a: Point, b: Point) {
      x1 == a.x && y1 == a.y && x2 == b.x && y2 == b.y
    }
  }
}
