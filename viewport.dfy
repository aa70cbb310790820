/** The correction applied to the panel's position once it has been rendered
    and measured: a panel whose far edge sticks out of the viewport is moved
    back so that it ends `ClampMargin` pixels short of that edge. Both drafts
    apply the same rule, once per axis, to the right and bottom edges only. */
module Viewport {

  const ClampMargin: int := 5

  /** The new coordinate on one axis: `pos` is the current coordinate, `farEdge`
      and `size` the measured right (bottom) edge and width (height), `limit`
      the viewport width (height). */
  function ClampAxis(pos: int, farEdge: int, size: int, limit: int): (r: int)
    ensures farEdge > limit ==> r + size + ClampMargin == limit
    ensures farEdge <= limit ==> r == pos
  {
    if farEdge > limit then limit - size - ClampMargin else pos
  }

  /** After one correction an overflowing panel ends inside the viewport. */
  lemma ClampedPanelEndsInside(pos: int, farEdge: int, size: int, limit: int)
    requires farEdge > limit
    ensures ClampAxis(pos, farEdge, size, limit) + size < limit
  {
  }

  /** The corrected coordinate does not depend on where the panel was asked to be. */
  lemma ClampIgnoresRequestedPosition(pos1: int, pos2: int, farEdge: int, size: int, limit: int)
    requires farEdge > limit
    ensures ClampAxis(pos1, farEdge, size, limit) == ClampAxis(pos2, farEdge, size, limit)
  {
  }

  /** There is no correction against the near edge: a panel wider (taller)
      than the viewport less the margin is moved to a negative coordinate. */
  lemma ClampCanCrossNearEdge(pos: int, farEdge: int, size: int, limit: int)
    requires farEdge > limit && size > limit - ClampMargin
    ensures ClampAxis(pos, farEdge, size, limit) < 0
  {
  }

  /** Correcting again with the measurements of the corrected panel changes
      nothing: the single pass is enough. */
  lemma ClampSettles(pos: int, farEdge: int, size: int, limit: int)
    requires farEdge == pos + size
    ensures var p := ClampAxis(pos, farEdge, size, limit);
            ClampAxis(p, p + size, size, limit) == p
  {
  }
}
