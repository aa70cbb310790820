/** The second draft of the right-click menu directive
    (src/directives/contextmenu.ts).

    The element's identity comes from its `data-component` attribute, else
    from its first `component-` class, else from its tag name. The bound
    value itself is the menu source, which may also be a function of the
    identity. The singleton app is created at most once and keeps only the
    presentation state; a chosen item is not forwarded anywhere. */
module DraftTwo {
  import opened MenuTypes
  import opened StringBuiltins
  import opened Dom
  import opened Viewport

  // ---------------------------------------------------------------------
  // Identity
  // ---------------------------------------------------------------------

  const ComponentPrefix: string := "component-"

  predicate IsComponentClass(className: string) {
    StartsWith(className, ComponentPrefix)
  }

  /** The position of the first class that starts with the component prefix. */
  function FirstComponentClass(classes: seq<string>): (r: Option<nat>)
    ensures r.Some? ==> r.value < |classes| && IsComponentClass(classes[r.value])
    ensures r.Some? ==> forall j :: 0 <= j < r.value ==> !IsComponentClass(classes[j])
    ensures r.None? ==> forall j :: 0 <= j < |classes| ==> !IsComponentClass(classes[j])
  {
    if |classes| == 0 then None
    else if IsComponentClass(classes[0]) then Some(0)
    else match FirstComponentClass(classes[1..])
      case None => None
      case Some(i) => Some(i + 1)
  }

  /** The identity `getComponentName` derives for an element. */
  function ComponentName(el: Element): string {
    if el.dataComponent.Some? && el.dataComponent.value != "" then el.dataComponent.value
    else match FirstComponentClass(el.classList)
      case Some(i) => ReplaceFirst(el.classList[i], ComponentPrefix, "")
      case None => ToLower(el.tagName)
  }

  /** `getComponentName`: an early return from a scan of the class list. */
  method GetComponentName(el: Element) returns (name: string)
    ensures name == ComponentName(el)
  {
    if el.dataComponent.Some? && el.dataComponent.value != "" {
      return el.dataComponent.value;
    }
    var classList := el.classList;
    var i := 0;
    while i < |classList|
      invariant 0 <= i <= |classList|
      invariant forall j :: 0 <= j < i ==> !IsComponentClass(classList[j])
    {
      var className := classList[i];
      if StartsWith(className, ComponentPrefix) {
        return ReplaceFirst(className, ComponentPrefix, "");
      }
      i := i + 1;
    }
    return ToLower(el.tagName);
  }

  /** A non-empty `data-component` attribute is the identity, as it is. */
  lemma NameFromAttribute(el: Element)
    requires el.dataComponent.Some? && el.dataComponent.value != ""
    ensures ComponentName(el) == el.dataComponent.value
  {
  }

  /** Otherwise the first `component-` class gives the identity, with the
      prefix removed. */
  lemma NameFromFirstComponentClass(el: Element, i: nat)
    requires el.dataComponent.None? || el.dataComponent.value == ""
    requires i < |el.classList| && IsComponentClass(el.classList[i])
    requires forall j :: 0 <= j < i ==> !IsComponentClass(el.classList[j])
    ensures ComponentName(el) == el.classList[i][|ComponentPrefix|..]
  {
    assert FirstComponentClass(el.classList) == Some(i);
    ReplacePrefixByNothing(el.classList[i], ComponentPrefix);
  }

  /** Classes after the first `component-` class play no part. */
  lemma {:induction false} LaterClassesIgnored(el: Element, i: nat, later: seq<string>)
    requires i < |el.classList| && IsComponentClass(el.classList[i])
    ensures ComponentName(el) == ComponentName(el.(classList := el.classList[..i + 1] + later))
  {
    var other := el.(classList := el.classList[..i + 1] + later);
    if !(el.dataComponent.Some? && el.dataComponent.value != "") {
      var first := FirstComponentClass(el.classList);
      var k := first.value;
      assert k <= i;
      assert other.classList[k] == el.classList[k];
      forall j | 0 <= j < k
        ensures !IsComponentClass(other.classList[j])
      {
        assert other.classList[j] == el.classList[j];
      }
      NameFromFirstComponentClass(el, k);
      NameFromFirstComponentClass(other, k);
    }
  }

  /** With neither, the lower-cased tag name is the identity; it is as long
      as the tag name, so never empty for a non-empty tag. */
  lemma NameFromTag(el: Element)
    requires el.dataComponent.None? || el.dataComponent.value == ""
    requires forall j :: 0 <= j < |el.classList| ==> !IsComponentClass(el.classList[j])
    ensures ComponentName(el) == ToLower(el.tagName)
    ensures |ComponentName(el)| == |el.tagName|
  {
  }

  // ---------------------------------------------------------------------
  // Menu resolver and binding
  // ---------------------------------------------------------------------

  /** Where the items come from: a function of the identity, one list for
      every element, or a list per identity. */
  datatype MenuSource =
    | FunctionSource(compute: string -> seq<MenuItem>)
    | ListSource(items: seq<MenuItem>)
    | MapSource(byName: map<string, seq<MenuItem>>)

  /** A function source is applied to the identity, a list source returned
      as it is, a map source looked up by the identity with a missing key
      giving no items. No warning is issued. */
  function GetMenusForComponent(componentName: string, source: MenuSource): (r: seq<MenuItem>)
    ensures source.FunctionSource? ==> r == source.compute(componentName)
    ensures source.ListSource? ==> r == source.items
    ensures source.MapSource? && componentName in source.byName ==> r == source.byName[componentName]
    ensures source.MapSource? && componentName !in source.byName ==> r == []
  {
    match source
    case FunctionSource(compute) => compute(componentName)
    case ListSource(items) => items
    case MapSource(byName) => if componentName in byName then byName[componentName] else []
  }

  /** `{ menus: binding.value, zIndex, ...binding.modifiers }`. Vue gives each
      modifier the value `true`; the spread comes last, so a modifier named
      `menus` replaces the source by `true`, which is neither a function nor
      an array and has no list under any identity: it resolves like an
      empty map. */
  datatype Options = Options(menus: MenuSource, zIndex: int, modifiers: set<string>)

  const MenusModifier: string := "menus"

  /** How the value `true` behaves as a source. */
  const TrueAsSource: MenuSource := MapSource(map[])

  /** `contextmenuDirective.mounted`: the bound value is taken as the source
      without any check, unless a `menus` modifier overrides it, and the
      stacking order is the argument or 9999. */
  function Mounted(value: MenuSource, arg: Option<int>, modifiers: set<string>): (options: Options)
    ensures MenusModifier !in modifiers ==> options.menus == value
    ensures MenusModifier in modifiers ==> forall name :: GetMenusForComponent(name, options.menus) == []
    ensures options.zIndex == ZIndexFor(arg) && options.modifiers == modifiers
  {
    Options(if MenusModifier in modifiers then TrueAsSource else value, ZIndexFor(arg), modifiers)
  }

  // ---------------------------------------------------------------------
  // Overlay manager
  // ---------------------------------------------------------------------

  /** The module-level singleton: whether the menu app exists, how many
      containers were appended to the document body, and the app's data
      (`visible`, `x`, `y`, `menus`). */
  class OverlayManager {
    var hasInstance: bool
    var containers: nat
    var visible: bool
    var x: int
    var y: int
    var menus: seq<MenuItem>

    /** At most one container exists, and it exists exactly when the app does. */
    ghost predicate Valid()
      reads this
    {
      containers == if hasInstance then 1 else 0
    }

    /** The state when the module is loaded. The app's data does not exist
        yet; its fields hold placeholders. */
    constructor ()
      ensures Valid() && !hasInstance
    {
      hasInstance := false;
      containers := 0;
      visible, x, y, menus := false, 0, 0, [];
    }

    /** `createMenuInstance` returns at once when the app exists; otherwise
        it appends one container and mounts the app on its initial data. */
    method CreateMenuInstance()
      requires Valid()
      modifies this
      ensures Valid() && hasInstance && containers == 1
      ensures old(hasInstance) ==> unchanged(this)
      ensures !old(hasInstance) ==> !visible && x == 0 && y == 0 && menus == []
    {
      if hasInstance {
        return;
      }
      containers := containers + 1;
      visible, x, y, menus := false, 0, 0, [];
      hasInstance := true;
    }

    /** `showContextMenu`: creates the app on first use, sets the position
        and the items, shows the panel and suppresses the event. */
    method ShowContextMenu(event: MouseEvent, items: seq<MenuItem>)
      requires Valid()
      modifies this, event`defaultPrevented, event`propagationStopped
      ensures Valid() && hasInstance && containers == 1
      ensures x == event.clientX && y == event.clientY
      ensures menus == items && visible
      ensures event.defaultPrevented && event.propagationStopped
    {
      if !hasInstance {
        CreateMenuInstance();
      }
      x := event.clientX;
      y := event.clientY;
      menus := items;
      visible := true;
      event.defaultPrevented := true;
      event.propagationStopped := true;
    }

    /** The animation-frame callback scheduled by `showContextMenu`, run on
        its own: with no panel found nothing changes; otherwise each
        overflowing far edge moves its coordinate back inside the viewport. */
    method ClampTick(panel: Option<Rect>, viewportWidth: int, viewportHeight: int)
      requires Valid() && hasInstance
      modifies this`x, this`y
      ensures Valid()
      ensures panel.None? ==> x == old(x) && y == old(y)
      ensures panel.Some? ==> x == ClampAxis(old(x), panel.value.right, panel.value.width, viewportWidth)
      ensures panel.Some? ==> y == ClampAxis(old(y), panel.value.bottom, panel.value.height, viewportHeight)
    {
      if panel.Some? {
        var rect := panel.value;
        if rect.right > viewportWidth {
          x := viewportWidth - rect.width - ClampMargin;
        }
        if rect.bottom > viewportHeight {
          y := viewportHeight - rect.height - ClampMargin;
        }
      }
    }

    /** The panel's `update:visible` signal sets the visibility and nothing else. */
    method UpdateVisible(val: bool)
      requires Valid() && hasInstance
      modifies this`visible
      ensures Valid() && visible == val
    {
      visible := val;
    }
  }

  // ---------------------------------------------------------------------
  // Trigger
  // ---------------------------------------------------------------------

  /** The registered `contextmenu` listener: the menu is shown, and the event
      suppressed, exactly when the items resolved for the element's identity
      are not empty; otherwise nothing changes. */
  method OnContextMenu(manager: OverlayManager, options: Options, el: Element, event: MouseEvent)
    returns (shown: bool)
    requires manager.Valid()
    modifies manager, event`defaultPrevented, event`propagationStopped
    ensures manager.Valid()
    ensures var items := GetMenusForComponent(ComponentName(el), options.menus);
      && (shown <==> items != [])
      && (shown ==>
            && manager.hasInstance && manager.visible && manager.menus == items
            && manager.x == event.clientX && manager.y == event.clientY
            && event.defaultPrevented && event.propagationStopped)
    ensures !shown ==> unchanged(manager) && unchanged(event)
  {
    var componentName := GetComponentName(el);
    var menus := GetMenusForComponent(componentName, options.menus);
    shown := |menus| > 0;
    if shown {
      manager.ShowContextMenu(event, menus);
    }
  }

  // ---------------------------------------------------------------------
  // Sessions
  // ---------------------------------------------------------------------

  /** An element without the attribute whose classes are
      `card component-user-card component-extra` is bound to a map with a
      "user-card" list and triggered at (950, 700) on a 1024 x 768 viewport;
      the 200 x 150 panel overflows both edges and is moved back. */
  method ClassNamedSessionExample(item: MenuItem)
    returns (name: string, visible: bool, x: int, y: int, menus: seq<MenuItem>, containers: nat)
    ensures name == "user-card"
    ensures visible && x == 819 && y == 613 && menus == [item] && containers == 1
  {
    var el := Element(7, None, ["card", "component-user-card", "component-extra"], "DIV");
    assert !IsComponentClass(el.classList[0]);
    assert el.classList[1][..|ComponentPrefix|] == ComponentPrefix;
    NameFromFirstComponentClass(el, 1);
    assert el.classList[1][|ComponentPrefix|..] == "user-card";
    var manager := new OverlayManager();
    var options := Mounted(MapSource(map["user-card" := [item]]), None, {});
    var event := new MouseEvent(950, 700, el);
    var _ := OnContextMenu(manager, options, el, event);
    manager.ClampTick(Some(Rect(1150, 850, 200, 150)), 1024, 768);
    name := GetComponentName(el);
    visible, x, y, menus := manager.visible, manager.x, manager.y, manager.menus;
    containers := manager.containers;
  }

  /** Creating the app twice leaves one container and the first app's data. */
  method CreateTwiceExample() returns (containers: nat, visible: bool)
    ensures containers == 1 && !visible
  {
    var manager := new OverlayManager();
    manager.CreateMenuInstance();
    manager.CreateMenuInstance();
    containers, visible := manager.containers, manager.visible;
  }
}
