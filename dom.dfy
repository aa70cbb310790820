/** The browser objects the directive reads: the bound element (its
    `data-component` attribute, its class list, its tag name), the trigger
    event and the measured box of the rendered panel. */
module Dom {
  import opened MenuTypes

  /** An element as the directive sees it when the event fires. `node` is
      the element's identity; the attribute is `None` when it is not set. */
  datatype Element = Element(
    node: nat,
    dataComponent: Option<string>,
    classList: seq<string>,
    tagName: string)

  /** A `contextmenu` mouse event. Its coordinates and target are fixed when it
      is created; `preventDefault` and `stopPropagation` set the two flags. */
  class MouseEvent {
    const clientX: int
    const clientY: int
    const currentTarget: Element
    var defaultPrevented: bool
    var propagationStopped: bool

    constructor (clientX: int, clientY: int, currentTarget: Element)
      ensures this.clientX == clientX && this.clientY == clientY
      ensures this.currentTarget == currentTarget
      ensures !defaultPrevented && !propagationStopped
    {
      this.clientX := clientX;
      this.clientY := clientY;
      this.currentTarget := currentTarget;
      defaultPrevented := false;
      propagationStopped := false;
    }
  }

  /** The part of `getBoundingClientRect()` the clamp reads, in whole pixels. */
  datatype Rect = Rect(right: int, bottom: int, width: int, height: int)
}
