# Right-click menu directive: menu resolution, overlay state and viewport clamp

A Vue 3 directive (`v-contextmenu`) attaches a right-click menu to an
element. On a `contextmenu` event it works out which items apply to the
element, and shows one shared floating panel at the cursor when there are
any. After the panel is rendered it is moved back inside the viewport.
The repository holds two drafts of the directive module, and they behave
differently. Each draft is modelled as written, in its own Dafny module:

- `DraftOne` models `src/src/directives/contextmenu.ts`. The identity is the
  `data-component` attribute, or `""` without one. The bound value is an
  object whose entries are sniffed by shape: the last list, object or
  `null` entry becomes the menu source, and the last function entry the
  selection callback. The singleton records the trigger context (callback,
  element, event) of the last show and forwards a chosen item to the
  callback.
- `DraftTwo` models `src/directives/contextmenu.ts`. The identity is a
  non-empty `data-component` attribute, else the first class that starts
  with `component-` without that prefix, else the lower-cased tag name. The
  bound value is the source itself and may also be a function of the
  identity. App creation is idempotent, and a chosen item is not forwarded.

Shared modules:

- `MenuTypes`: the item shape, callbacks as opaque references, and the 9999 stacking default.
- `StringBuiltins`: the JavaScript `startsWith`, first-occurrence `replace` and `toLowerCase`.
- `Dom`: the element as a value, the mouse event as an object with its two suppression flags, and the measured panel box.
- `Viewport`: the clamp rule with its 5-pixel margin.

The overlay manager is a module-level singleton in the source, so each
draft has a class `OverlayManager` whose fields are the singleton's
variables. `hasInstance` stands for the mounted app and `containers`
counts the `<div>` containers appended to the body. Its invariant `Valid()`
says that there is one container exactly when the app exists. The
deferred clamp (`nextTick` in the first draft, `requestAnimationFrame` in
the second) is the separate method `ClampTick`. It takes the measured
panel (or `None` when the panel is not found) and the viewport size.
Warnings are a flag. Calls into the caller's callback are recorded in the
`dispatched` log.

Where the design description and the code differ, the model follows the code:

- A map source warns only when the identity is empty, in the first draft,
  and never in the second. A missing key alone is not warned about.
- Nothing checks `disabled` or `divider` before the first draft calls the
  callback.
- The second draft falls back to classes and the tag name instead of
  requiring the attribute.
- No session token guards the deferred clamp. The tick moves whatever
  position is current when it runs, as `DraftOne.OverwritingSessionExample`
  shows.

## Model

| member | source | states |
|---|---|---|
| `MenuTypes.ZIndexFor` | src/src/directives/contextmenu.ts:140 | without an argument the stacking order is 9999, with one it is the parsed argument |
| `StringBuiltins.ReplaceFirstAt` | src/directives/contextmenu.ts:20 | `replace` with a string pattern rewrites the leftmost occurrence only, keeping what precedes and follows it |
| `StringBuiltins.ReplaceFirstAbsent` | src/directives/contextmenu.ts:20 | without an occurrence `replace` returns the string unchanged |
| `StringBuiltins.ReplacePrefixByNothing` | src/directives/contextmenu.ts:19-20 | for a class that starts with the prefix, replacing the prefix by nothing leaves the rest of the class name |
| `StringBuiltins.ToLower` | src/directives/contextmenu.ts:25 | the result has the same length, no upper-case letter, upper-case letters shifted to lower case and everything else kept |
| `Viewport.ClampAxis` | src/src/directives/contextmenu.ts:86-88 | an overflowing far edge puts the coordinate at viewport size less panel size less 5; a fitting one keeps the coordinate |
| `Viewport.ClampedPanelEndsInside` | src/src/directives/contextmenu.ts:86-88 | after the correction the panel ends inside the viewport |
| `Viewport.ClampIgnoresRequestedPosition` | src/src/directives/contextmenu.ts:86-88 | the corrected coordinate does not depend on the requested one |
| `Viewport.ClampCanCrossNearEdge` | src/src/directives/contextmenu.ts:86-88 | there is no left/top correction: a panel larger than the viewport less the margin gets a negative coordinate |
| `Viewport.ClampSettles` | src/src/directives/contextmenu.ts:80-89 | a second pass over the corrected panel would change nothing, so one pass suffices |
| `DraftOne.GetMenusForComponent` | src/src/directives/contextmenu.ts:101-111 | a list source is the result for every identity, including `""`, without a warning; a map source gives the key's list or `[]`; the warning is issued exactly for a map source and an empty identity, and the lookup still happens |
| `DraftOne.LastIndexWhere` | src/src/directives/contextmenu.ts:130-136 | the index found holds an entry of the kind sought and no later entry is of that kind; none is found only when no entry is of that kind |
| `DraftOne.Mounted` | src/src/directives/contextmenu.ts:117-142 | a falsy or non-object value warns and registers no listener; otherwise the source is that of the last list/object/null entry (unless a `menus` modifier overrides it), the callback that of the last function entry, and the stacking order the argument or 9999 |
| `DraftOne.LaterNonSourceEntriesKeepSource` | src/src/directives/contextmenu.ts:130-136 | entries after the last source entry that are not sources leave the chosen source alone |
| `DraftOne.OverlayManager.constructor` | src/src/directives/contextmenu.ts:6-13 | at module load there is no app, no container and no trigger context |
| `DraftOne.OverlayManager.CreateMenuInstance` | src/src/directives/contextmenu.ts:18-49 | each call appends one more container and resets the state to hidden, (0, 0), no items |
| `DraftOne.OverlayManager.ShowContextMenu` | src/src/directives/contextmenu.ts:58-93 | the app is created only when absent, so exactly one container remains; the state becomes visible at the event's coordinates with the given items; callback, element (defaulting to the event's target) and event are overwritten; the event is suppressed |
| `DraftOne.OverlayManager.ClampTick` | src/src/directives/contextmenu.ts:80-89 | no panel means no change; otherwise x and y follow `ClampAxis` independently; only x and y may change |
| `DraftOne.OverlayManager.UpdateVisible` | src/src/directives/contextmenu.ts:37-39 | only `visible` changes, to the signalled value |
| `DraftOne.OverlayManager.ItemClick` | src/src/directives/contextmenu.ts:40-43 | with callback, element and event all recorded, exactly one call with (item, element, event) is added; otherwise none; nothing else changes |
| `DraftOne.OnContextMenu` | src/src/directives/contextmenu.ts:144-150 | the attribute (or `""`) is resolved; the menu is shown and the event suppressed exactly when the list is non-empty, with the bound element and callback recorded; an empty list leaves manager and event untouched |
| `DraftOne.FittingSessionExample` | src/src/directives/contextmenu.ts:144-150 | identity "A" bound to `{A: [item]}`, triggered at (300, 400) with a fitting 200x150 panel on 1024x768, ends visible at (300, 400) with `[item]` and the event suppressed |
| `DraftOne.UnguardedCreateExample` | src/src/directives/contextmenu.ts:18-20 | calling `createMenuInstance` twice directly appends two containers |
| `DraftOne.OverwritingSessionExample` | src/src/directives/contextmenu.ts:58-93 | a second show overwrites the first (last write wins), creates nothing new, is clamped on both edges by the pending tick, and a chosen item reaches the second session's callback |
| `DraftTwo.FirstComponentClass` | src/directives/contextmenu.ts:16-22 | the index found is a `component-` class with none before it; none is found only when no class matches |
| `DraftTwo.GetComponentName` | src/directives/contextmenu.ts:10-26 | the scan returns the identity `ComponentName` defines |
| `DraftTwo.NameFromAttribute` | src/directives/contextmenu.ts:12-13 | a non-empty `data-component` is the identity as it is |
| `DraftTwo.NameFromFirstComponentClass` | src/directives/contextmenu.ts:16-22 | otherwise the first `component-` class minus its prefix is the identity |
| `DraftTwo.LaterClassesIgnored` | src/directives/contextmenu.ts:17-21 | classes after the first matching one do not change the identity |
| `DraftTwo.NameFromTag` | src/directives/contextmenu.ts:25 | with no attribute and no matching class the identity is the lower-cased tag name, as long as the tag name |
| `DraftTwo.GetMenusForComponent` | src/directives/contextmenu.ts:99-110 | a function source is applied to the identity, a list source is returned as it is, a map source gives the key's list or `[]` |
| `DraftTwo.Mounted` | src/directives/contextmenu.ts:114-119 | the bound value is the source unchecked unless a `menus` modifier turns it into one that resolves to nothing; the stacking order is the argument or 9999 |
| `DraftTwo.OverlayManager.constructor` | src/directives/contextmenu.ts:6-7 | at module load there is no app and no container |
| `DraftTwo.OverlayManager.CreateMenuInstance` | src/directives/contextmenu.ts:29-61 | idempotent: with an app nothing changes; without one exactly one container is added and the state is hidden, (0, 0), no items |
| `DraftTwo.OverlayManager.ShowContextMenu` | src/directives/contextmenu.ts:64-96 | one container remains; x, y, items and `visible = true` are set from the event and the list; the event is suppressed |
| `DraftTwo.OverlayManager.ClampTick` | src/directives/contextmenu.ts:78-92 | no panel means no change; otherwise x and y follow `ClampAxis` independently; only x and y may change |
| `DraftTwo.OverlayManager.UpdateVisible` | src/directives/contextmenu.ts:50-52 | only `visible` changes, to the signalled value |
| `DraftTwo.OnContextMenu` | src/directives/contextmenu.ts:121-128 | the derived identity is resolved; the menu is shown and the event suppressed exactly when the list is non-empty; an empty list leaves manager and event untouched |
| `DraftTwo.ClassNamedSessionExample` | src/directives/contextmenu.ts:121-128 | classes `card component-user-card component-extra` give identity "user-card"; a 200x150 panel at (950, 700) on 1024x768 is moved to (819, 613) |
| `DraftTwo.CreateTwiceExample` | src/directives/contextmenu.ts:29-33 | two creations leave one container and the initial hidden state |

## Left out

- DOM and Vue calls are not modelled: creating and appending the container, `createApp`/`mount`/`h`/`reactive`, `querySelector`, `getBoundingClientRect` and `addEventListener`. The app is the flag `hasInstance`, the body's containers a counter, and the measured box a `Rect` argument.
- `nextTick` and `requestAnimationFrame` scheduling: the tick is the method `ClampTick`, called on its own; when it runs relative to other shows is up to its caller.
- Coordinates and sizes are browser doubles; the model uses integers.
- `console.warn` is a returned flag; the message text is not kept.
- `parseInt(binding.arg)`: the argument arrives already parsed as an optional integer; a `NaN` result is not modelled.
- Modifiers are a set of names passed through. The `menus` override is modelled. A `zIndex` modifier would make `zIndex` the value `true`; this is not modelled, because neither draft reads `zIndex` again.
- Caller code is opaque: callbacks and item handlers are references, and a call is a record in `dispatched`. Item `handler` calls and disabled/divider filtering happen in the panel component, which is not part of this model.
- DraftTwo item selection: the panel's `onItemClick` handler has an empty body, so it changes nothing and has no member.
- DraftTwo.ShowContextMenu: the `options` argument is not modelled, because the function never reads it.
- DraftOne.OnContextMenu: requires a defined source. A bound object with no list/object entry, or whose last such entry is `null`, makes the lookup throw a `TypeError`; that throw is not modelled.
- DraftTwo.OnContextMenu: the bound value is typed as one of the three source shapes. A missing value, which would throw in the lookup, is not modelled.
- DraftOne.Mounted: an array bound directly as the value is not modelled. Its entries are the items themselves, which are objects and not lists per identity.
- Object keys are modelled as a map of own keys. An identity that names an inherited property (`toString`, `constructor`) would find a function in the source; this is not modelled. The entries of the bound object arrive in `Object.entries` order, which puts integer-like keys first.
- The function source of DraftTwo is a pure total function of the identity. Side effects or throws in the caller's function are not modelled.
- `toLowerCase` covers the ASCII letters only; other Unicode case mappings are not modelled.
- The type declarations (src/types/index.ts) give the shape of `MenuItem` only. The item's `label` is called `text`, since `label` is a reserved word in Dafny. The plugin install wrapper (src/src/index.ts) and the build configuration are not part of this model.
