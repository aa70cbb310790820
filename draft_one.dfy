/** The first draft of the right-click menu directive
    (src/src/directives/contextmenu.ts).

    The menu to show is looked up by the element's `data-component`
    attribute. The bound value is an object whose entries are sniffed by
    shape: the last list or object entry is the menu source, the last
    function entry the selection callback. The module-level singleton keeps
    the presentation state and the trigger context (callback, element,
    event) of the last `show`, and forwards a chosen item to that callback. */
module DraftOne {
  import opened MenuTypes
  import opened Dom
  import opened Viewport

  // ---------------------------------------------------------------------
  // Menu resolver
  // ---------------------------------------------------------------------

  /** Where the items come from: one list for every element, or a list per identity. */
  datatype MenuSource =
    | ListSource(items: seq<MenuItem>)
    | MapSource(byName: map<string, seq<MenuItem>>)

  /** The resolved items, and whether a warning went to the console. */
  datatype Resolution = Resolution(items: seq<MenuItem>, warned: bool)

  /** A list source is returned as it is for every identity. A map source is
      looked up by the identity; a missing key gives no items. An empty
      identity with a map source is warned about, and the lookup still runs. */
  function GetMenusForComponent(componentName: string, source: MenuSource): (r: Resolution)
    ensures source.ListSource? ==> r.items == source.items && !r.warned
    ensures source.MapSource? && componentName in source.byName ==> r.items == source.byName[componentName]
    ensures source.MapSource? && componentName !in source.byName ==> r.items == []
    ensures r.warned <==> source.MapSource? && componentName == ""
  {
    match source
    case ListSource(items) => Resolution(items, false)
    case MapSource(byName) =>
      var items := if componentName in byName then byName[componentName] else [];
      Resolution(items, componentName == "")
  }

  // ---------------------------------------------------------------------
  // Binding configuration
  // ---------------------------------------------------------------------

  /** The value of one entry of the bound object, classified as the loop
      classifies it. */
  datatype EntryValue =
    | ArrayValue(items: seq<MenuItem>)                  // Array.isArray(val)
    | ObjectValue(byName: map<string, seq<MenuItem>>)   // typeof val === "object"
    | NullValue                                         // typeof null === "object" as well
    | FunctionValue(callback: Callback)                 // typeof val === "function"
    | OtherValue                                        // strings, numbers, booleans, undefined

  /** One `[key, val]` pair of `Object.entries(value)`. */
  datatype Entry = Entry(key: string, value: EntryValue)

  /** The bound value: falsy, truthy but not an object, or an object given by
      its entries in enumeration order. */
  datatype BindingValue = Falsy | NotAnObject | Entries(entries: seq<Entry>)

  /** The `menus` variable after the loop: never assigned, assigned `null`,
      or assigned a list or an object. */
  datatype SourceSlot = Undefined | Null | Defined(source: MenuSource)

  /** `{ menus, zIndex, ...binding.modifiers }`. Vue gives each modifier the
      value `true`; the spread comes last, so a modifier named `menus`
      replaces the source by `true`, which has no list under any identity
      and so resolves like an empty map. */
  datatype Options = Options(menus: SourceSlot, zIndex: int, modifiers: set<string>)

  /** What the registered `contextmenu` listener closes over. */
  datatype Listener = Listener(options: Options, onItemClick: Option<Callback>)

  const MenusModifier: string := "menus"

  /** How the value `true` behaves as a source. */
  const TrueAsSource: MenuSource := MapSource(map[])

  predicate IsSourceEntry(e: Entry) {
    e.value.ArrayValue? || e.value.ObjectValue? || e.value.NullValue?
  }

  predicate IsCallbackEntry(e: Entry) {
    e.value.FunctionValue?
  }

  /** The slot a source entry puts into `menus`. */
  function SlotOf(v: EntryValue): SourceSlot {
    match v
    case ArrayValue(items) => Defined(ListSource(items))
    case ObjectValue(byName) => Defined(MapSource(byName))
    case _ => Null
  }

  /** The position of the last element of `s` that satisfies `p`, if any. */
  function LastIndexWhere<T>(s: seq<T>, p: T -> bool): (r: Option<nat>)
    ensures r.Some? ==> r.value < |s| && p(s[r.value])
    ensures r.Some? ==> forall j :: r.value < j < |s| ==> !p(s[j])
    ensures r.None? ==> forall j :: 0 <= j < |s| ==> !p(s[j])
  {
    if |s| == 0 then None
    else if p(s[|s| - 1]) then Some(|s| - 1)
    else LastIndexWhere(s[..|s| - 1], p)
  }

  /** The menu source the entries yield: that of the last source entry. */
  function LastSource(entries: seq<Entry>): SourceSlot {
    match LastIndexWhere(entries, IsSourceEntry)
    case None => Undefined
    case Some(i) => SlotOf(entries[i].value)
  }

  /** The callback the entries yield: that of the last function entry. */
  function LastCallback(entries: seq<Entry>): Option<Callback> {
    match LastIndexWhere(entries, IsCallbackEntry)
    case None => None
    case Some(i) => Some(entries[i].value.callback)
  }

  /** `contextmenuDirective.mounted`: a falsy or non-object value is warned
      about and no listener is registered. Otherwise every entry is visited
      in order, so the last source entry and the last function entry win. */
  method Mounted(value: BindingValue, arg: Option<int>, modifiers: set<string>)
    returns (warned: bool, listener: Option<Listener>)
    ensures warned <==> !value.Entries?
    ensures listener.Some? <==> value.Entries?
    ensures listener.Some? ==>
      && listener.value.options.menus ==
           (if MenusModifier in modifiers then Defined(TrueAsSource) else LastSource(value.entries))
      && listener.value.onItemClick == LastCallback(value.entries)
      && listener.value.options.zIndex == ZIndexFor(arg)
      && listener.value.options.modifiers == modifiers
  {
    if !value.Entries? {
      return true, None;
    }
    var entries := value.entries;
    var menus := Undefined;
    var onItemClick: Option<Callback> := None;
    var i := 0;
    while i < |entries|
      invariant 0 <= i <= |entries|
      invariant menus == LastSource(entries[..i])
      invariant onItemClick == LastCallback(entries[..i])
    {
      var val := entries[i].value;
      if val.ArrayValue? || val.ObjectValue? || val.NullValue? {
        menus := SlotOf(val);
      } else if val.FunctionValue? {
        onItemClick := Some(val.callback);
      }
      assert entries[..i + 1][..i] == entries[..i];
      i := i + 1;
    }
    assert entries[..i] == entries;
    if MenusModifier in modifiers {
      menus := Defined(TrueAsSource);
    }
    var options := Options(menus, ZIndexFor(arg), modifiers);
    return false, Some(Listener(options, onItemClick));
  }

  /** The source the listener resolves against is that of the last source
      entry, whatever follows it. */
  lemma {:induction false} LaterNonSourceEntriesKeepSource(entries: seq<Entry>, rest: seq<Entry>)
    requires forall j :: 0 <= j < |rest| ==> !IsSourceEntry(rest[j])
    ensures LastSource(entries + rest) == LastSource(entries)
    decreases |rest|
  {
    if rest == [] {
      assert entries + rest == entries;
    } else {
      var all := entries + rest;
      var shorter := rest[..|rest| - 1];
      assert !IsSourceEntry(all[|all| - 1]);
      assert all[..|all| - 1] == entries + shorter;
      var last := LastIndexWhere(all, IsSourceEntry);
      assert last == LastIndexWhere(entries + shorter, IsSourceEntry);
      LaterNonSourceEntriesKeepSource(entries, shorter);
      if last.Some? {
        assert all[last.value] == (entries + shorter)[last.value];
      }
    }
  }

  // ---------------------------------------------------------------------
  // Overlay manager
  // ---------------------------------------------------------------------

  /** One call of the recorded selection callback. */
  datatype Dispatch = Dispatch(callback: Callback, item: MenuItem, element: Element, event: MouseEvent)

  /** The module-level singleton: whether the menu app exists, how many
      containers were appended to the document body, the reactive `menuData`
      (`visible`, `x`, `y`, `menus`), the trigger context of the last show,
      and the calls made to selection callbacks. */
  class OverlayManager {
    var hasInstance: bool
    var containers: nat
    var visible: bool
    var x: int
    var y: int
    var menus: seq<MenuItem>
    var currentOnItemClick: Option<Callback>
    var currentElement: Option<Element>
    var mouseEvent: MouseEvent?
    var dispatched: seq<Dispatch>

    /** At most one container exists, and it exists exactly when the app does. */
    ghost predicate Valid()
      reads this
    {
      containers == if hasInstance then 1 else 0
    }

    /** The state when the module is loaded. `menuData` does not exist yet;
        its fields hold placeholders. */
    constructor ()
      ensures Valid() && !hasInstance
      ensures currentOnItemClick.None? && currentElement.None? && mouseEvent == null
      ensures dispatched == []
    {
      hasInstance := false;
      containers := 0;
      visible, x, y, menus := false, 0, 0, [];
      currentOnItemClick, currentElement, mouseEvent := None, None, null;
      dispatched := [];
    }

    /** `createMenuInstance` does not check for an existing app: every call
        appends another container and starts the state afresh. */
    method CreateMenuInstance()
      modifies this`hasInstance, this`containers, this`visible, this`x, this`y, this`menus
      ensures hasInstance && containers == old(containers) + 1
      ensures !visible && x == 0 && y == 0 && menus == []
    {
      containers := containers + 1;
      visible, x, y, menus := false, 0, 0, [];
      hasInstance := true;
    }

    /** `showContextMenu`: creates the app on first use, then overwrites the
        trigger context and the presentation state, and suppresses the
        event. The element defaults to the event's current target. */
    method ShowContextMenu(event: MouseEvent, items: seq<MenuItem>, element: Option<Element>, onItemClick: Option<Callback>)
      requires Valid()
      modifies this, event`defaultPrevented, event`propagationStopped
      ensures Valid() && hasInstance && containers == 1
      ensures visible && menus == items
      ensures x == event.clientX && y == event.clientY
      ensures currentOnItemClick == onItemClick
      ensures currentElement == Some(if element.Some? then element.value else event.currentTarget)
      ensures mouseEvent == event
      ensures dispatched == old(dispatched)
      ensures event.defaultPrevented && event.propagationStopped
    {
      if !hasInstance {
        CreateMenuInstance();
      }
      currentOnItemClick := onItemClick;
      currentElement := Some(if element.Some? then element.value else event.currentTarget);
      mouseEvent := event;
      visible := true;
      menus := items;
      x := event.clientX;
      y := event.clientY;
      event.defaultPrevented := true;
      event.propagationStopped := true;
    }

    /** The tick scheduled by `showContextMenu`, run on its own: with no panel
        found nothing changes; otherwise each overflowing far edge moves its
        coordinate back inside the viewport. Visibility and items stay. */
    method ClampTick(panel: Option<Rect>, viewportWidth: int, viewportHeight: int)
      requires Valid() && hasInstance
      modifies this`x, this`y
      ensures Valid()
      ensures panel.None? ==> x == old(x) && y == old(y)
      ensures panel.Some? ==> x == ClampAxis(old(x), panel.value.right, panel.value.width, viewportWidth)
      ensures panel.Some? ==> y == ClampAxis(old(y), panel.value.bottom, panel.value.height, viewportHeight)
    {
      if panel.None? {
        return;
      }
      var rect := panel.value;
      if rect.right > viewportWidth {
        x := viewportWidth - rect.width - ClampMargin;
      }
      if rect.bottom > viewportHeight {
        y := viewportHeight - rect.height - ClampMargin;
      }
    }

    /** The panel's `update:visible` signal sets the visibility and nothing else. */
    method UpdateVisible(val: bool)
      requires Valid() && hasInstance
      modifies this`visible
      ensures Valid() && visible == val
    {
      visible := val;
    }

    /** The panel's `itemClick` signal: the recorded callback is called once
        with the item, the recorded element and the recorded event, provided
        all three are recorded. Nothing is filtered by the item's flags. */
    method ItemClick(item: MenuItem)
      requires Valid() && hasInstance
      modifies this`dispatched
      ensures Valid()
      ensures currentOnItemClick.Some? && currentElement.Some? && mouseEvent != null ==>
        dispatched == old(dispatched) + [Dispatch(currentOnItemClick.value, item, currentElement.value, mouseEvent)]
      ensures !(currentOnItemClick.Some? && currentElement.Some? && mouseEvent != null) ==>
        dispatched == old(dispatched)
    {
      if currentOnItemClick.Some? && currentElement.Some? && mouseEvent != null {
        dispatched := dispatched + [Dispatch(currentOnItemClick.value, item, currentElement.value, mouseEvent)];
      }
    }
  }

  // ---------------------------------------------------------------------
  // Trigger
  // ---------------------------------------------------------------------

  /** `el.getAttribute("data-component") ?? ""` */
  function AttributeOrEmpty(el: Element): string {
    match el.dataComponent
    case None => ""
    case Some(a) => a
  }

  /** The registered `contextmenu` listener. A source that was never assigned,
      or was assigned `null`, makes the lookup throw, so a defined source is
      required. The menu is shown, and the event suppressed, exactly when the
      resolved list is not empty; otherwise nothing changes. */
  method OnContextMenu(manager: OverlayManager, listener: Listener, el: Element, event: MouseEvent)
    returns (warned: bool, shown: bool)
    requires manager.Valid()
    requires listener.options.menus.Defined?
    modifies manager, event`defaultPrevented, event`propagationStopped
    ensures manager.Valid()
    ensures var r := GetMenusForComponent(AttributeOrEmpty(el), listener.options.menus.source);
      && warned == r.warned
      && (shown <==> r.items != [])
      && (shown ==>
            && manager.hasInstance && manager.visible && manager.menus == r.items
            && manager.x == event.clientX && manager.y == event.clientY
            && manager.currentElement == Some(el)
            && manager.currentOnItemClick == listener.onItemClick
            && manager.mouseEvent == event
            && manager.dispatched == old(manager.dispatched)
            && event.defaultPrevented && event.propagationStopped)
    ensures !shown ==> unchanged(manager) && unchanged(event)
  {
    var menuList := GetMenusForComponent(AttributeOrEmpty(el), listener.options.menus.source);
    warned := menuList.warned;
    shown := |menuList.items| > 0;
    if shown {
      manager.ShowContextMenu(event, menuList.items, Some(el), listener.onItemClick);
    }
  }

  // ---------------------------------------------------------------------
  // Sessions
  // ---------------------------------------------------------------------

  /** An element with identity "A" bound to `{ menus: { A: [item] } }` is
      triggered at (300, 400) on a 1024 x 768 viewport; the panel measures
      200 x 150, so it fits and the position is kept. */
  method FittingSessionExample(item: MenuItem)
    returns (visible: bool, x: int, y: int, menus: seq<MenuItem>, suppressed: bool, containers: nat)
    ensures visible && x == 300 && y == 400 && menus == [item] && suppressed && containers == 1
  {
    var manager := new OverlayManager();
    var el := Element(1, Some("A"), [], "DIV");
    var value := Entries([Entry("menus", ObjectValue(map["A" := [item]]))]);
    var _, listener := Mounted(value, None, {});
    var event := new MouseEvent(300, 400, el);
    var _, _ := OnContextMenu(manager, listener.value, el, event);
    manager.ClampTick(Some(Rect(500, 550, 200, 150)), 1024, 768);
    visible, x, y, menus := manager.visible, manager.x, manager.y, manager.menus;
    suppressed := event.defaultPrevented && event.propagationStopped;
    containers := manager.containers;
  }

  /** `createMenuInstance` itself does not check for an app: only the guard
      in `showContextMenu` keeps the container single. */
  method UnguardedCreateExample() returns (containers: nat)
    ensures containers == 2
  {
    var manager := new OverlayManager();
    manager.CreateMenuInstance();
    manager.CreateMenuInstance();
    containers := manager.containers;
  }

  /** Two sessions in a row: the second show overwrites the first one's
      position, items and context, the app is not created again, and the
      tick clamps the second session's panel, which overflows both edges.
      An item chosen afterwards goes to the second session's callback. */
  method OverwritingSessionExample(first: MenuItem, second: MenuItem)
    returns (x: int, y: int, menus: seq<MenuItem>, containers: nat, dispatched: seq<Dispatch>)
    ensures x == 1024 - 200 - 5 && y == 768 - 150 - 5
    ensures menus == [second] && containers == 1
    ensures |dispatched| == 1 && dispatched[0].callback == Callback(2) && dispatched[0].item == second
    ensures dispatched[0].element.node == 2
  {
    var manager := new OverlayManager();
    var a := Element(1, Some("A"), [], "DIV");
    var b := Element(2, Some("B"), [], "SPAN");
    var value := Entries([
      Entry("menus", ObjectValue(map["A" := [first], "B" := [second]])),
      Entry("onItemClick", FunctionValue(Callback(2)))]);
    var _, listener := Mounted(value, Some(10), {});
    LaterNonSourceEntriesKeepSource(value.entries[..1], value.entries[1..]);
    assert value.entries[..1] + value.entries[1..] == value.entries;
    var e1 := new MouseEvent(10, 10, a);
    var _, _ := OnContextMenu(manager, listener.value, a, e1);
    var e2 := new MouseEvent(950, 700, b);
    var _, _ := OnContextMenu(manager, listener.value, b, e2);
    manager.ClampTick(Some(Rect(1150, 850, 200, 150)), 1024, 768);
    manager.ItemClick(second);
    x, y, menus := manager.x, manager.y, manager.menus;
    containers, dispatched := manager.containers, manager.dispatched;
  }
}
