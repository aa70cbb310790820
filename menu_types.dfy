/** Menu data shared by both drafts of the directive: the item shape, the
    caller-supplied callbacks (opaque references), and the stacking default. */
module MenuTypes {

  datatype Option<+T> = None | Some(value: T)

  /** A menu item identifier may be a string or a number. */
  datatype ItemId = StrId(s: string) | NumId(n: int)

  /** A reference to caller code (an item handler or a selection callback).
      Calling it is outside the model; only the identity of the reference is kept. */
  datatype Callback = Callback(ref: nat)

  /** One selectable entry. Optional flags that are absent read as false. */
  datatype MenuItem = MenuItem(
    id: ItemId,
    text: string,  // the item's `label` (a reserved word here)
    icon: Option<string>,
    disabled: bool,
    divider: bool,
    children: seq<MenuItem>,
    handler: Option<Callback>)

  /** The stacking order used when the directive is bound without an argument. */
  const DefaultZIndex: int := 9999

  /** `binding.arg ? parseInt(binding.arg) : 9999`, with the argument already parsed. */
  function ZIndexFor(arg: Option<int>): (z: int)
    ensures arg.None? ==> z == DefaultZIndex
    ensures arg.Some? ==> z == arg.value
  {
    match arg
    case None => DefaultZIndex
    case Some(n) => n
  }
}
