# RequestTabPanel: view routing, pane resizing and the global-environment merge

This project models the logic of Bruno's request tab panel, the component that
shows the active tab's request editor next to its response. It covers three
pieces:

- **View router.** A chain of early returns picks exactly one view. The inputs
  are the active tab uid, the focused tab, the tab's collection and the item or
  folder lookup. The views are: welcome, generic error, collection not found,
  one of five administrative screens, folder settings or folder not found,
  request not found, not loaded, loading, or the request/response split view
  with a GraphQL editor, an HTTP editor, or neither.
- **Pane-resize state machine.** The state is `dragging`, `leftPaneWidth`,
  `topPaneHeight` and the drag offset `x`/`y`. It changes on drag-bar
  mouse-down, document mouse-move and mouse-up, and on the re-initialising
  effect. The orientation (horizontal or vertical) is an input. On mouse-up in
  horizontal mode it emits one width-persistence action.
- **Global-environment merge.** A copy-on-write pass over the collections list.
  It attaches `globalEnvironmentVariables` and `globalEnvSecrets` to the focused
  tab's collection.

Modules:

- `Base` holds `Option`, JavaScript truthiness for strings and numbers, and
  lodash's first-match `find`.
- `Entities` holds the store records.
- `GlobalEnvMerge` holds the merge.
- `ViewRouter` holds `Route` and `Panel`, which is the whole render decision.
- `PaneLayout` holds the pure transitions on a `Layout` value. Its class
  `PaneResizer` has the component's fields and one method per handler. Each
  method is proved to perform the matching transition.

Points where the code's behaviour is easy to misread:

- On mouse-up in horizontal mode, the persisted width is `clientX - rect.left`.
  That is not the pane's width: it includes the drag offset and is not checked
  against the bounds (`PaneLayout.PersistedWidthIncludesOffset`).
  `PaneLayout.HorizontalDragScenario` traces a drag in which the pane ends at
  530 but 600 is persisted. The method `PaneLayout.DragOnResizer` runs the same
  drag through the class's handlers and asserts the same values.
- `find` returns the first match. So the merge changes only the first collection
  whose `uid` equals the tab's `collectionUid`, and the second lookup finds that
  merged copy. When the uids are distinct, this means exactly the tab's
  collection (`GlobalEnvMerge.MergeDistinct`).
- A focused tab that is missing gives an absent key (`focusedTab?.collectionUid`),
  and this matches collections that have no `uid`. The router still shows the
  generic error view first, so this only affects the derived list.

Three functions the panel calls have their bodies in `utils/collections`,
outside this model, so they are passed in as function-valued parameters:
`findItemInCollection` (`ItemLookup`), `getGlobalEnvironmentVariables` and
`getGlobalEnvironmentVariablesMasked` (`EnvResolver`). The browser supplies two kinds of inputs, and these are
parameters too:

- the bounding rectangles of the main section and of the drag bar;
- the pointer coordinates.

An absent main section (`mainSectionRef.current` is null) is `None`.

## Model

| member | source | states |
|---|---|---|
| `Base.FindIndex` | packages/bruno-app/src/components/RequestTabPanel/index.js:42 | the index returned is the first one whose element satisfies the predicate; none means no element does |
| `Base.Find` | packages/bruno-app/src/components/RequestTabPanel/index.js:64 | the result is absent exactly when no element matches, else it is the element at the first matching index |
| `ViewRouter.FocusedTab` | packages/bruno-app/src/components/RequestTabPanel/index.js:42 | the focused tab is the first open tab with the active uid; it is absent exactly when no open tab has that uid |
| `GlobalEnvMerge.WithGlobalEnv` | packages/bruno-app/src/components/RequestTabPanel/index.js:54-60 | the copy carries both resolved mappings and keeps the collection's uid and items |
| `GlobalEnvMerge.Merge` | packages/bruno-app/src/components/RequestTabPanel/index.js:49-62 | same length and order; only the first collection whose uid equals the key gains the two fields; every other entry and every uid is unchanged; with no match the list is unchanged |
| `GlobalEnvMerge.MergeDistinct` | packages/bruno-app/src/components/RequestTabPanel/index.js:49-62 | with distinct collection uids, an entry is replaced exactly when its uid equals the key |
| `GlobalEnvMerge.MergedLookup` | packages/bruno-app/src/components/RequestTabPanel/index.js:49-64 | the lookup on the merged list yields the merged copy of the collection the lookup on the store's list yields, or nothing when that yields nothing |
| `GlobalEnvMerge.MergeIdempotent` | packages/bruno-app/src/components/RequestTabPanel/index.js:49-62 | merging the merged list again changes nothing |
| `ViewRouter.ScreenFor` | packages/bruno-app/src/components/RequestTabPanel/index.js:183-210 | a tab type selects a screen only if it is that screen's tag; folder-settings selects none of the five |
| `ViewRouter.ScreenForTypeTag` | packages/bruno-app/src/components/RequestTabPanel/index.js:183-210 | each administrative tag selects exactly its own screen, and distinct screens have distinct tags |
| `ViewRouter.EditorFor` | packages/bruno-app/src/components/RequestTabPanel/index.js:250-262 | the GraphQL editor exactly for graphql-request items, the HTTP editor exactly for http-request items |
| `ViewRouter.Route` | packages/bruno-app/src/components/RequestTabPanel/index.js:171-223 | each view is given by an if-and-only-if in the source's order: welcome for a falsy active uid; error for a missing tab or falsy uid/collectionUid; collection-not-found; the screen of the tab's type with the collection; folder-not-found with the tab's folderUid, or folder settings with the found folder; request-not-found with the active uid; not-loaded before loading; else the split view with the matching editor |
| `ViewRouter.Panel` | packages/bruno-app/src/components/RequestTabPanel/index.js:40-223 | the whole component's view, stated against the store: welcome exactly for a falsy active uid; the generic error exactly when the first tab with that uid is missing or lacks a uid or collection uid; collection-not-found exactly when no collection in the store has the tab's collection uid |
| `ViewRouter.PanelCollectionCarriesGlobalEnv` | packages/bruno-app/src/components/RequestTabPanel/index.js:49-64 | every view that hands a collection to a child hands one carrying both resolved mappings, with the uid and items of a collection in the store |
| `ViewRouter.HttpRequestScenario` | packages/bruno-app/src/components/RequestTabPanel/index.js:212-262 | one request tab over one collection whose item is an HTTP request renders the split view with the HTTP editor |
| `ViewRouter.MissingTabScenario` | packages/bruno-app/src/components/RequestTabPanel/index.js:175-177 | an active uid that no open tab has renders the generic error view |
| `ViewRouter.MissingFolderScenario` | packages/bruno-app/src/components/RequestTabPanel/index.js:199-203 | a folder-settings tab whose folder uid f9 does not resolve renders folder-not-found carrying f9 |
| `PaneLayout.OrientationOf` | packages/bruno-app/src/components/RequestTabPanel/index.js:46 | the layout is vertical exactly when the preference is the string "vertical"; a missing preference is horizontal |
| `PaneLayout.DefaultWidth` | packages/bruno-app/src/components/RequestTabPanel/index.js:69-70 | the default request-pane width times 2.2 is the screen width less the sidebar width |
| `PaneLayout.Initial` | packages/bruno-app/src/components/RequestTabPanel/index.js:68-73 | not dragging, zero offsets; the tab's width if truthy else the default split; the tab's height if truthy else 150 |
| `PaneLayout.Reinitialized` | packages/bruno-app/src/components/RequestTabPanel/index.js:92-106 | without the main section nothing changes; vertical: height is half the container height and width the container width; horizontal: width is the default split and height unchanged; dragging and offsets unchanged |
| `PaneLayout.Pressed` | packages/bruno-app/src/components/RequestTabPanel/index.js:146-159 | dragging is set; only the y offset (vertical) or only the x offset (horizontal) is recorded, relative to the drag bar; sizes unchanged |
| `PaneLayout.Moved` | packages/bruno-app/src/components/RequestTabPanel/index.js:108-128 | not dragging or no main section: no change; horizontal: width becomes clientX - left - offset.x exactly when that lies in [300, width - 350], else it stays, and height never changes; vertical likewise with clientY, top, offset.y and [150, height - 150], and width never changes |
| `PaneLayout.Released` | packages/bruno-app/src/components/RequestTabPanel/index.js:130-144 | while dragging in a mounted section: dragging cleared, one action (active uid, clientX - left) exactly in horizontal mode, none in vertical; otherwise no change and no action |
| `PaneLayout.RenderedSize` | packages/bruno-app/src/components/RequestTabPanel/index.js:242-248 | the rendered size is the larger of the state and the minimum: at least 300 wide (horizontal) or 150 high (vertical) |
| `PaneLayout.HorizontalDragKeepsBounds` | packages/bruno-app/src/components/RequestTabPanel/index.js:121-125 | after any run of horizontal moves, the width is the starting width or leaves both panes their minimum; height and dragging unchanged |
| `PaneLayout.VerticalDragKeepsBounds` | packages/bruno-app/src/components/RequestTabPanel/index.js:113-119 | after any run of vertical moves, the height is the starting height or leaves both panes their minimum; width and dragging unchanged |
| `PaneLayout.IdleMovesChangeNothing` | packages/bruno-app/src/components/RequestTabPanel/index.js:108-109 | any number of moves while not dragging leaves the state unchanged |
| `PaneLayout.PersistedWidthIncludesOffset` | packages/bruno-app/src/components/RequestTabPanel/index.js:121-141 | after a move accepted at clientX, releasing there persists the new width plus the drag offset |
| `PaneLayout.VerticalReinitInBounds` | packages/bruno-app/src/components/RequestTabPanel/index.js:96-100 | a vertical re-init of a container at least 300 high gives a height within both minimums, rendered as half the container |
| `PaneLayout.HorizontalDragScenario` | packages/bruno-app/src/components/RequestTabPanel/index.js:108-159 | press at 500 on a bar at 480 (offset 20), container left 100 and width 900: a move to 650 gives 530, a move to 700 is rejected, and the release persists 600 |
| `PaneLayout.PaneResizer.constructor` | packages/bruno-app/src/components/RequestTabPanel/index.js:68-73 | the fields start as `Initial` gives them |
| `PaneLayout.PaneResizer.Reinit` | packages/bruno-app/src/components/RequestTabPanel/index.js:92-106 | the fields become the `Reinitialized` state of the old fields |
| `PaneLayout.PaneResizer.MouseDown` | packages/bruno-app/src/components/RequestTabPanel/index.js:146-159 | the fields become the `Pressed` state of the old fields |
| `PaneLayout.PaneResizer.MouseMove` | packages/bruno-app/src/components/RequestTabPanel/index.js:108-128 | the fields become the `Moved` state of the old fields |
| `PaneLayout.PaneResizer.MouseUp` | packages/bruno-app/src/components/RequestTabPanel/index.js:130-144 | the fields and the returned action are the `Released` result of the old fields |
| `PaneLayout.PaneResizer.RequestPaneSize` | packages/bruno-app/src/components/RequestTabPanel/index.js:242-248 | the request pane's size is the larger of the current field and the minimum along the axis: at least 300 wide or 150 high |

## Left out

- JSX rendering and the child components are not modelled. These are the
  runner results, the variables and settings screens, the editors, the response
  pane and the documentation explorer. Only the choice of view and its props are
  modelled.
- The `typeof window` guard (line 36) is not modelled. It applies to server-side
  rendering only.
- Adding and removing the document listeners (lines 161-169) is not modelled.
  This is subscription lifecycle. The handlers run with the orientation and the
  active tab uid passed in. The closures captured by the `[dragging]`-keyed
  effect could see stale values, and the model does not capture that.
- React's batching of state updates is not modelled. Each setter takes effect
  before the next event.
- `handleRun`, `sendRequest` and the network-error toast (lines 225-231) are not
  modelled. They are asynchronous dispatch to the store and the network layer.
- The GraphQL schema and docs-toggle state (lines 77-90) is not modelled. It is
  view state with no logic.
- The bodies of `findItemInCollection`, `getGlobalEnvironmentVariables` and
  `getGlobalEnvironmentVariablesMasked` are not modelled. They live in
  `utils/collections`, outside this component, so every property here holds
  for any lookup and any resolvers.
- The difference between `undefined` and `null` is not modelled. Both are
  `None`, although the source compares uids with `===` (lines 42, 50 and 64).
  The routed view cannot show the difference, because a falsy uid already
  gives the welcome or error view. But with no focused tab, a collection whose
  uid is `null` would not match the `undefined` key in the source, yet it
  matches in the model. So the derived collections list can differ.
- Immer's structural sharing and reference identity are not modelled.
  "Unchanged" means equal as values.
- Floating-point arithmetic is not modelled. Pixel values are `real`, so
  `/ 2.2` and `/ 2` are exact. NaN is not modelled in number truthiness.
- `preventDefault` calls are not modelled. The response pane's flexible layout
  is not modelled either.
- The item's `response` payload is not modelled.
- packages/bruno-app/src/ui/HeightBoundContainer/StyledWrapper.js is a style
  declaration with no logic.
