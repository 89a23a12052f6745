# Day-grouped itinerary pipeline: a Dafny model

This project models the logic of an Angular travel-itinerary front end. It covers four parts.

- **Itinerary records and response mapping** (`itinerary_model.dfy`, module `ItineraryModel`). These are the `Point` and `Itinerary` records, the response mappers of `getAllItineraries` and `getItineraryById`, and the body that `saveItinerary` posts. The mappers keep every field and parse only the two dates.
- **The itinerary store** (`itinerary_store.dfy`, module `ItineraryStore`). A `BehaviorSubject` holds one `{itinerary, isFromGPT}` value. It starts as `(null, false)`, `setCurrentItinerary` replaces that value, and each subscriber gets every value in call order. The pure `StoreState` functions specify it. The `Store` class keeps the value and one delivery log per subscriber, and its methods are proved against those functions.
- **Day grouping and the map render manager** (`day_grouping.dfy`, `map_render.dfy`). `groupPointsByDay` is modelled as a pure function. Its output, flattened, is a permutation of the input. It has one non-empty group per distinct day, and the group days strictly increase. Within a group the points are sorted by `order`, and points with equal `order` keep their input order. The Leaflet map is reduced to its list of marker layers (one per day group) plus a log of `fitBounds` requests. `MapComponent` rebuilds those layers with loops over the groups and their points. The loops are proved against the pure `Display` function. `Display` first clears everything, stops if there are no points, then builds one layer per day and requests a fit over all points when every marker could be built.
- **The sidebar's view-model and the chat button** (`sidebar.dfy`, `chat_button.dfy`).
  - The sidebar's `getDays` builds a local `Set` in a loop, and `getPointsForDay` filters and sorts. Both are proved to group exactly as the map does.
  - The sidebar's selection state is driven by `selectItinerary`, `backToList`, `onSidebarHide` and the store callback.
  - The chat button's drag/toggle state machine is a class whose handlers are proved against pure transition functions.

Modelling choices:
- JavaScript numbers (days, orders, coordinates, pointer positions) are unbounded integers.
- Parsing a date string and `toISOString` are functions the caller passes in.
- A JavaScript `Set` is a sequence without duplicates, kept in insertion order.
- `Array.prototype.sort` is modelled as an insertion sort. JavaScript's sort is stable and both comparators here are consistent, so every stable sort gives the same result.
- Whether Leaflet throws while building a given point's marker is a parameter `fails: Point -> bool`. Such a point has coordinates Leaflet rejects. `L.latLngBounds` over the same coordinates then throws outside any `try`, so `displayItinerary` ends with its layers but without a fit. Whether a mousedown hit the chat button is a boolean parameter, and so is the window size.
- A `Date` is a time value or the Invalid Date. `toISOString` throws on the Invalid Date, so no save request is built for an itinerary holding one.
- The map's store subscription (src/app/components/map/map.component.ts:40-43) passes the store's wrapper object to `displayItinerary`. As written it therefore clears the map and draws nothing (see Findings).

## Model

| member | source | states |
|---|---|---|
| ItineraryModel.ParseDates | src/app/services/itinerary.service.ts:75-85 | The single-itinerary mapper keeps id, title, description, days, points, created_at and updated_at. Both dates become date objects: a string date is parsed, and a date object keeps its value. |
| ItineraryModel.ParseDatesIdempotent | src/app/services/itinerary.service.ts:63-85 | Mapping an itinerary that is already mapped changes nothing more. |
| ItineraryModel.MapListResponse | src/app/services/itinerary.service.ts:63-72 | The list mapper keeps the count and order of `results`. Each element goes through the same per-itinerary transform as the single mapper. |
| ItineraryModel.MapListKeepsPoints | src/app/services/itinerary.service.ts:63-72 | The list mapper keeps every itinerary's points and id at their position. |
| ItineraryModel.ToPayload | src/app/components/sidebar/sidebar.component.ts:110-123 | The save payload carries title, description, days and points unchanged. It has no id, created_at or updated_at. A date object is sent as its ISO string, and a string date passes through. No payload exists exactly when one of the dates is the Invalid Date, on which `toISOString` throws. |
| ItineraryModel.SaveLoadRoundTrip | src/app/components/sidebar/sidebar.component.ts:110-125 | Suppose parsing undoes `toISOString` on the two dates and a payload can be built. Saving and then reading back through the response mapper gives the itinerary as the response mapper returns it, with string dates parsed; only the metadata the backend assigns differs. An itinerary whose two dates are date objects, as one loaded from the backend, comes back exactly, apart from that metadata. |
| DayGrouping.Dedupe | src/app/components/map/map.component.ts:107 | `new Set(points.map(p => p.day))` holds each day value exactly once. Its members are exactly the input days. |
| DayGrouping.SortInts | src/app/components/map/map.component.ts:108-109 | The numeric sort returns an ascending permutation of its input. |
| DayGrouping.SortedDaysSpec | src/app/components/map/map.component.ts:107-109 | The sorted days are strictly ascending and contain no duplicates. Their members are exactly the distinct `day` values, so there are as many as distinct days. |
| DayGrouping.FilterDay | src/app/components/map/map.component.ts:111-112 | The filter keeps exactly the points of the given day, each as many times as it occurs in the input. |
| DayGrouping.FilterDayAppend | src/app/components/map/map.component.ts:111-112 | The filter keeps input order: filtering a concatenation gives the concatenation of the filtered parts. |
| DayGrouping.SortByOrder | src/app/components/map/map.component.ts:113 | The order sort returns a permutation sorted by `order`. |
| DayGrouping.SortByOrderStable | src/app/components/map/map.component.ts:113 | The sort is stable: for every `order` value, the points with that value keep their input order. |
| DayGrouping.PointsOfDay | src/app/components/map/map.component.ts:110-114 | A day group holds exactly the points of its day, with their multiplicities. It is sorted by `order`, and points with equal `order` are in input order. |
| DayGrouping.AbsentDayHasNoPoints | src/app/components/sidebar/sidebar.component.ts:103-107 | The points of a day that no point has are the empty sequence. |
| DayGrouping.GroupPointsByDay | src/app/components/map/map.component.ts:106-115 | `groupPointsByDay` returns as many groups as there are distinct `day` values. GroupCount, GroupShape, GroupOrdered and GroupPermutation state the rest. |
| DayGrouping.GroupCount | src/app/components/map/map.component.ts:106-115 | There is one group per distinct `day` value, and no group for empty input. Group `i` is the points of the `i`-th sorted day. |
| DayGrouping.GroupShape | src/app/components/map/map.component.ts:107-112 | Every group is non-empty and all its members have that group's day. Group days strictly increase with the group index. |
| DayGrouping.GroupOrdered | src/app/components/map/map.component.ts:111-113 | Within each group `order` never decreases, and points with equal `order` keep their relative input order. |
| DayGrouping.FlattenGroupsCount | src/app/components/map/map.component.ts:110-114 | For any list of distinct days, the concatenated groups contain each point as often as the input does if the point's day is listed, and not at all otherwise. |
| DayGrouping.GroupPermutation | src/app/components/map/map.component.ts:106-115 | The flattened groups are a permutation of the input points: nothing is dropped or duplicated. |
| ItineraryStore.Subscribed | src/app/services/itinerary.service.ts:58-59 | A new subscriber first receives the value held at that moment. No other subscriber's log changes. |
| ItineraryStore.Unsubscribed | src/app/components/map/map.component.ts:57-61 | After `unsubscribe`, the subscriber is inactive. Every other subscriber's status, every log and the held value are unchanged. |
| ItineraryStore.Next | src/app/services/itinerary.service.ts:99-101 | An emission replaces the held value with exactly the emitted pair, with no merging. Every active subscriber's log gains that value, and inactive logs are unchanged. |
| ItineraryStore.LastWriteWins | src/app/services/itinerary.service.ts:99-101 | After any sequence of `setCurrentItinerary` calls, the held value is the last call's argument. With no call it is unchanged. |
| ItineraryStore.DeliveredInOrder | src/app/services/itinerary.service.ts:99-100 | An active subscriber receives every emitted value in call order. An unsubscribed one receives nothing. |
| ItineraryStore.LateSubscriberLog | src/app/services/itinerary.service.ts:58-59 | A subscriber that joins late receives the value current at subscription, then every later value. |
| ItineraryStore.Store.constructor | src/app/services/itinerary.service.ts:58 | The store starts holding `(null, false)` with no subscribers. |
| ItineraryStore.Store.Subscribe | src/app/services/itinerary.service.ts:59 | Subscribing behaves as `Subscribed` and returns the subscriber's index. |
| ItineraryStore.Store.Unsubscribe | src/app/components/map/map.component.ts:59 | Unsubscribing behaves as `Unsubscribed`. |
| ItineraryStore.Store.SetCurrentItinerary | src/app/services/itinerary.service.ts:99-101 | The loop over subscribers leaves the store in the state `Next` gives for `(itinerary, isFromGPT)`. The flag defaults to `true`. |
| MapRender.IconFor | src/app/components/map/map.component.ts:30-37 | PARK, RESTAURANT, MUSEUM, BEACH and VIEWPOINT map to their own icons. Every other type maps to `map-marker`. |
| MapRender.DayColorWraps | src/app/components/map/map.component.ts:127 | The colour of day index `k` is the `k`-th palette entry for `k < 5`, and the palette wraps, so index 5 reuses index 0's colour. |
| MapRender.DayMarkers | src/app/components/map/map.component.ts:121-133 | A day layer holds one marker per point whose construction does not fail, in group order. A failing point is skipped. Each marker has the day index's colour, its type's icon and its point's coordinates swapped. |
| MapRender.SurvivingCount | src/app/components/map/map.component.ts:126-132 | The `try`/`catch` around `createMarker` keeps every point whose marker can be built, as often as it occurs, and drops every failing one. |
| MapRender.SurvivingAppend | src/app/components/map/map.component.ts:121-133 | Skipping failing points keeps the others in order: the survivors of a concatenation are the concatenated survivors. |
| MapRender.FitOver | src/app/components/map/map.component.ts:207-220 | A fit request covers every point of the itinerary as `[coords[1], coords[0]]`, with padding (50, 50). |
| MapRender.Display | src/app/components/map/map.component.ts:77-104 | `displayItinerary`: without a map nothing changes. With one, it selects the itinerary and builds one layer per day group; zero points give no layer and no fit. A fit over all points is requested exactly when there are points and every marker could be built. |
| MapRender.DisplayWithoutMap | src/app/components/map/map.component.ts:79-82 | Without an initialised map, `displayItinerary` changes nothing. |
| MapRender.DisplayLayerPerDay | src/app/components/map/map.component.ts:84-103 | With a map, the previous layers are gone and there is exactly one layer per distinct day. This holds even when markers fail. With zero points there are no layers and no fit. With points and no failing marker, exactly one fit over all points is requested. When some marker fails, no fit is requested, because `L.latLngBounds` throws on the same coordinates outside any `try`. |
| MapRender.DisplayMarkers | src/app/components/map/map.component.ts:121-136 | Every marker in layer `k` belongs to a point of the itinerary on the `k`-th sorted day. That point did not fail, and the marker has colour `dayColors[k % 5]`, its type's icon and the swapped coordinates. |
| MapRender.DisplayMarksSurvivors | src/app/components/map/map.component.ts:97-136 | Across all layers, the markers' points are, as a multiset, exactly the points whose marker construction does not fail. |
| MapRender.OneMarkerPerPoint | src/app/components/map/map.component.ts:97-136 | When no marker fails, there is exactly one marker per point. |
| MapRender.LastDisplayWins | src/app/components/map/map.component.ts:77-104 | The layers after a display depend only on the last itinerary displayed, so layers never accumulate. Displaying the same itinerary twice gives the same layers as once. |
| MapRender.StoreEmissionAsWrittenClears | src/app/components/map/map.component.ts:40-45 | As written, any store emission with a map present leaves the map without layers and requests no fit. Without a map it changes nothing. |
| MapRender.StoreEmissionAsWrittenLosesItinerary | src/app/components/map/map.component.ts:40-43 | A concrete emission (one point, map ready) for which the subscription as written draws no layer and the intended one draws one. |
| MapRender.StoreEmissionRenders | src/app/components/map/map.component.ts:40-45 | Without a map, the corrected subscription changes nothing. With one, it displays a non-null emitted itinerary with one layer per distinct day. A null emission clears the layers and the selection and requests no fit; its layers and fits equal those of the subscription as written. |
| MapRender.MapComponent.constructor | src/app/components/map/map.component.ts:15-46 | The component starts with no map, no layers and no fits. It subscribes to the store and keeps the store and its subscriber index. |
| MapRender.MapComponent.NgOnDestroy | src/app/components/map/map.component.ts:57-61 | The component's store subscriber becomes inactive as `Unsubscribed` says. The map state is unchanged. |
| MapRender.MapComponent.InitMap | src/app/components/map/map.component.ts:63-75 | The map exists once `L.map` has succeeded. Nothing else changes. |
| MapRender.MapComponent.ClearMap | src/app/components/map/map.component.ts:198-205 | Clearing empties the tracked layers and leaves everything else unchanged. |
| MapRender.MapComponent.CreateDayMarkers | src/app/components/map/map.component.ts:117-138 | The loop over points appends exactly the layer `DayMarkers` gives. |
| MapRender.MapComponent.FitMapToBounds | src/app/components/map/map.component.ts:207-220 | It appends one fit over the selected itinerary's points. |
| MapRender.MapComponent.DisplayItinerary | src/app/components/map/map.component.ts:77-104 | The clear, the loop over day groups and the fit leave the component in the state `Display` gives. |
| MapRender.MapComponent.OnStoreEmissionAsWritten | src/app/components/map/map.component.ts:40-45 | The store callback as written ends in the state `AfterEmissionAsWritten` gives. |
| MapRender.MapComponent.OnStoreEmission | src/app/components/map/map.component.ts:40-45 | The corrected store callback ends in the state `AfterEmission` gives. |
| Sidebar.GetDays | src/app/components/sidebar/sidebar.component.ts:97-101 | The loop into a local set, followed by the sort, returns the distinct days strictly ascending. That is exactly the day sequence the map groups by. |
| Sidebar.GetPointsForDay | src/app/components/sidebar/sidebar.component.ts:103-107 | It returns exactly the points with `day == d`, sorted by `order` with ties in input order. It is empty when `d` is absent. |
| Sidebar.SidebarMatchesMap | src/app/components/sidebar/sidebar.component.ts:97-107 | For every index `i`, the sidebar's points for the `i`-th day equal the map's `i`-th group. |
| Sidebar.ReceiveIsSelect | src/app/components/sidebar/sidebar.component.ts:37-44 | A non-null store emission selects the itinerary with its flag and shows the detail, as `selectItinerary` would. A null emission changes nothing. |
| Sidebar.BackToListStaysOnList | src/app/components/sidebar/sidebar.component.ts:90-94 | After `backToList`, the `(null, false)` it pushes leaves the sidebar on the list with nothing selected. |
| Sidebar.SaveRequest | src/app/components/sidebar/sidebar.component.ts:109-125 | A request is made exactly when an itinerary is selected and neither of its dates is the Invalid Date. Its body is that itinerary's payload and carries its points and title. |
| Sidebar.SidebarComponent.constructor | src/app/components/sidebar/sidebar.component.ts:37-45 | The component subscribes to the store and applies the callback to the value the store hands it at once. |
| Sidebar.SidebarComponent.SelectItinerary | src/app/components/sidebar/sidebar.component.ts:84-88 | It selects the itinerary and shows the detail. `isFromGPT` becomes the flag, which defaults to `false`. |
| Sidebar.SidebarComponent.BackToList | src/app/components/sidebar/sidebar.component.ts:90-94 | It hides the detail, drops the selection and pushes `(null, false)` into the store. |
| Sidebar.SidebarComponent.OnSidebarHide | src/app/components/sidebar/sidebar.component.ts:76-80 | It hides the detail and drops the selection. `isFromGPT` is unchanged. |
| Sidebar.SidebarComponent.OnStoreEmission | src/app/components/sidebar/sidebar.component.ts:37-44 | A non-null emission sets the selection, `isFromGPT` and the detail flag. A null one leaves all three unchanged. |
| Sidebar.SidebarComponent.SaveItinerary | src/app/components/sidebar/sidebar.component.ts:109-125 | The request built from the current selection is the one `SaveRequest` gives. |
| Sidebar.SidebarComponent.NgOnDestroy | src/app/components/sidebar/sidebar.component.ts:52-59 | The component's store subscriber becomes inactive as `Unsubscribed` says. The view state is unchanged. |
| Sidebar.SidebarComponent.OnSaveSucceeded | src/app/components/sidebar/sidebar.component.ts:126-131 | A successful save turns `isFromGPT` off and changes nothing else. |
| ChatButton.Init | src/app/components/chat-button/chat-button.component.ts:21-27 | After `ngOnInit`, the position is `(innerWidth - 100, innerHeight - 100)` and nothing else changes. |
| ChatButton.MouseDownKeepsPosition | src/app/components/chat-button/chat-button.component.ts:30-38 | A mousedown on the button starts dragging with `position + dragOffset == client` and keeps the position. A move to the same point keeps it too. A mousedown elsewhere changes nothing. |
| ChatButton.MouseMoveTracksPointer | src/app/components/chat-button/chat-button.component.ts:42-48 | While dragging, a move makes `position + dragOffset` equal the pointer and changes nothing else. When not dragging, a move changes nothing. |
| ChatButton.DragMovesByDisplacement | src/app/components/chat-button/chat-button.component.ts:30-54 | A full drag (press, any non-empty sequence of moves, release) moves the button by the pointer's displacement from the press point to the last move. It ends not dragging, with the chat visibility unchanged. |
| ChatButton.ChatButtonComponent.NgOnInit | src/app/components/chat-button/chat-button.component.ts:21-27 | The handler ends in the state `Init` gives. |
| ChatButton.ChatButtonComponent.OnMouseUp | src/app/components/chat-button/chat-button.component.ts:52-54 | The handler ends in the state `MouseUp` gives. |
| ChatButton.MouseUpOnlyStopsDragging | src/app/components/chat-button/chat-button.component.ts:51-54 | `onMouseUp` clears `isDragging` and changes nothing else. |
| ChatButton.ToggleTwice | src/app/components/chat-button/chat-button.component.ts:56-60 | When not dragging, a toggle flips `showChat`, so two toggles restore it. While dragging, a toggle has no effect. |
| ChatButton.ChatButtonComponent.constructor | src/app/components/chat-button/chat-button.component.ts:14-17 | The fields start at not dragging, position (20, 20), offset (0, 0) and chat hidden. |
| ChatButton.ChatButtonComponent.OnMouseDown | src/app/components/chat-button/chat-button.component.ts:30-38 | The handler ends in the state `MouseDown` gives. |
| ChatButton.ChatButtonComponent.OnMouseMove | src/app/components/chat-button/chat-button.component.ts:42-48 | The handler ends in the state `MouseMove` gives. |
| ChatButton.ChatButtonComponent.ToggleChat | src/app/components/chat-button/chat-button.component.ts:56-60 | The handler ends in the state `Toggle` gives. |

## Left out

- HTTP transport is left out as I/O. That covers the fetches of `getAllItineraries` and `getItineraryById`, plus `createItinerary`, `updateItinerary`, `deleteItinerary`, `addPoint`, `updatePoint`, `deletePoint`, `reorderPoints` and the sidebar's `loadItineraries` with its `itineraries` and `loadingItineraries` fields. Only the pure response-mapping step and the body of the save request are modelled.
- src/app/services/chat.service.ts, src/app/interceptors/auth.interceptor.ts, src/app/app.component.ts, src/app/components/header/header.component.ts and src/app/components/home/home.component.ts are not part of this model. They hold HTTP calls, token injection or composition. No modelled component subscribes to `ChatService.itineraryPoints$`.
- `SidebarService` (`setSidebarVisible`, `sidebarVisible$`) is an external collaborator and is not modelled; the sidebar's `sidebarVisible` field is left out with it.
- Leaflet internals are left out as a foreign library: the tile layer, `L.divIcon` HTML, popup and tooltip strings, and the zoom computation of `fitBounds`. `clearMap` calls `clearLayers` and `removeLayer` on each tracked layer. Here the map surface is exactly the tracked layer list, so those calls reduce to emptying it.
- The store records what each subscriber receives. It does not itself call the components' callbacks, since the model has no function objects over the heap. Instead, `MapComponent.OnStoreEmission` and `SidebarComponent.OnStoreEmission` are the callbacks, invoked with the delivered value. Each component keeps the store and its subscriber index, and its `NgOnDestroy` cancels that subscription through `Store.Unsubscribe`.
- `Date` parsing and `toISOString` are parameters, because they are foreign. An Invalid Date is one constructor of `Date`, not a `NaN` time value. A date field the backend omits reaches `new Date(undefined)`; the model has no `undefined` and represents it as a string that `parse` maps to the Invalid Date. Numbers are unbounded integers, so floating point, `NaN` and non-numeric `day` values are not modelled.
- A real itinerary always has a `points` sequence in the model, so the `!itinerary.points` guard is reached only through the store wrapper case.
- The `restaurant`, `event` and `user` fields are always `null` in the source types, so they are not modelled.
- Console output, `alert`, `preventDefault` and the DOM `closest` test are left out; the last is a boolean parameter.
- IconFor: does not model that a type naming an inherited `Object` property (such as `constructor`) finds that property in `typeIcons` instead of the default icon.

## Findings

| source | as written | input that shows it | evidently intended | confidence | as-written member | corrected member |
|---|---|---|---|---|---|---|
| src/app/components/map/map.component.ts:40-43 | The callback's argument is the store's `{itinerary, isFromGPT}` wrapper. It is always truthy and is passed to `displayItinerary` as if it were an itinerary. TypeScript rejects that call (TS2345: the wrapper lacks `title`, `points` and the other `Itinerary` fields). In the emitted JavaScript, which the model follows, the wrapper has no `points`, so every emission clears the map and nothing is drawn. | Map initialised; the store emits `{itinerary: <one point on day 1>, isFromGPT: true}`; the map ends with no layer. | Take the wrapper apart and display its `itinerary` when it is non-null; clear the map when it is null, as now. | not executed | MapRender.StoreEmissionAsWrittenLosesItinerary | MapRender.StoreEmissionRenders |
