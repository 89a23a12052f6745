/** The map render manager of src/app/components/map/map.component.ts. The Leaflet map
    is abstracted to the marker layers it shows (one per day group, each a sequence of
    markers) and the log of the viewport fits requested from it. Marker construction
    may throw inside Leaflet; which points it fails for is a parameter. */
module MapRender {
  import opened ItineraryModel
  import opened DayGrouping
  import opened ItineraryStore

  /** `dayColors`: one colour per day index, reused cyclically. */
  const DayColors: seq<string> := ["#FF5733", "#33FF57", "#3357FF", "#FF33F5", "#33FFF5"]

  /** `typeIcons`: point type to icon name, with a `DEFAULT` entry. */
  const TypeIcons: map<string, string> := map[
    "PARK" := "tree",
    "RESTAURANT" := "utensils",
    "MUSEUM" := "landmark",
    "BEACH" := "umbrella-beach",
    "VIEWPOINT" := "mountain",
    "DEFAULT" := "map-marker"]

  /** `fitBounds(bounds, {padding: [50, 50]})` */
  const FitPadding: (int, int) := (50, 50)

  /** A Leaflet `[latitude, longitude]` pair. */
  datatype LatLng = LatLng(lat: int, lng: int)

  /** A marker: where it is drawn, its colour and icon, and the point whose popup and
      tooltip it carries. */
  datatype Marker = Marker(position: LatLng, color: string, icon: string, point: Point)

  /** An `L.LayerGroup` of markers. */
  datatype Layer = Layer(markers: seq<Marker>)

  /** One `fitBounds` call: the points to fit and the padding. */
  datatype FitRequest = FitRequest(bounds: seq<LatLng>, padding: (int, int))

  /** The last value handed to `displayItinerary`, as the `selectedItinerary` field keeps
      it. Through the store subscription this is the store's wrapper object rather than
      an itinerary. */
  datatype Shown = NothingShown | ShownItinerary(itinerary: Itinerary) | ShownWrapper(value: StoreValue)

  datatype MapState = MapState(ready: bool, layers: seq<Layer>, selected: Shown, fits: seq<FitRequest>)

  /** `dayColors[dayIndex % dayColors.length]` */
  function DayColor(dayIndex: nat): string
  {
    DayColors[dayIndex % |DayColors|]
  }

  /** The palette wraps: day index 5 reuses the colour of day index 0. */
  lemma DayColorWraps(dayIndex: nat)
    ensures DayColor(dayIndex + |DayColors|) == DayColor(dayIndex)
    ensures DayColor(dayIndex) in DayColors
    ensures dayIndex < |DayColors| ==> DayColor(dayIndex) == DayColors[dayIndex]
  {
  }

  /** The icon of a point type: the five known types have their own, every other type
      gets the `DEFAULT` one. */
  function IconFor(kind: string): (icon: string)
    ensures kind == "PARK" ==> icon == "tree"
    ensures kind == "RESTAURANT" ==> icon == "utensils"
    ensures kind == "MUSEUM" ==> icon == "landmark"
    ensures kind == "BEACH" ==> icon == "umbrella-beach"
    ensures kind == "VIEWPOINT" ==> icon == "mountain"
    ensures kind !in {"PARK", "RESTAURANT", "MUSEUM", "BEACH", "VIEWPOINT"} ==> icon == "map-marker"
  {
    if kind in TypeIcons then TypeIcons[kind] else TypeIcons["DEFAULT"]
  }

  /** Stored coordinates are `[longitude, latitude]`; Leaflet takes `[latitude, longitude]`. */
  function ToLatLng(coordinates: (int, int)): (ll: LatLng)
  {
    LatLng(coordinates.1, coordinates.0)
  }

  function MarkerFor(p: Point, dayIndex: nat): Marker
  {
    Marker(ToLatLng(p.details.location.coordinates), DayColor(dayIndex), IconFor(p.details.kind), p)
  }

  /** The points whose marker construction does not throw, in order. */
  function Surviving(points: seq<Point>, fails: Point -> bool): seq<Point>
  {
    if points == [] then []
    else (if fails(points[0]) then [] else [points[0]]) + Surviving(points[1..], fails)
  }

  /** Every point that does not fail survives as often as it occurs; a failing one never. */
  lemma {:induction false} SurvivingCount(points: seq<Point>, fails: Point -> bool)
    ensures forall p :: multiset(Surviving(points, fails))[p] == if fails(p) then 0 else multiset(points)[p]
  {
    if points != [] {
      assert points == [points[0]] + points[1..];
      SurvivingCount(points[1..], fails);
    }
  }

  lemma SurvivingCons(h: Point, t: seq<Point>, fails: Point -> bool)
    ensures Surviving([h] + t, fails) == (if fails(h) then [] else [h]) + Surviving(t, fails)
  {
    assert ([h] + t)[1..] == t;
  }

  /** Skipping the failing points keeps the order of the others: the survivors of a
      concatenation are the concatenated survivors. */
  lemma {:induction false} SurvivingAppend(a: seq<Point>, b: seq<Point>, fails: Point -> bool)
    ensures Surviving(a + b, fails) == Surviving(a, fails) + Surviving(b, fails)
  {
    if a == [] {
      assert a + b == b;
    } else {
      var h, t := a[0], a[1..];
      var hs := if fails(h) then [] else [h];
      assert a == [h] + t;
      assert a + b == [h] + (t + b);
      calc {
        Surviving(a + b, fails);
        Surviving([h] + (t + b), fails);
        { SurvivingCons(h, t + b, fails); }
        hs + Surviving(t + b, fails);
        { SurvivingAppend(t, b, fails); }
        hs + (Surviving(t, fails) + Surviving(b, fails));
        (hs + Surviving(t, fails)) + Surviving(b, fails);
        { SurvivingCons(h, t, fails); }
        Surviving([h] + t, fails) + Surviving(b, fails);
        Surviving(a, fails) + Surviving(b, fails);
      }
    }
  }

  function MarkerPoints(markers: seq<Marker>): seq<Point>
  {
    seq(|markers|, i requires 0 <= i < |markers| => markers[i].point)
  }

  /** The markers `createDayMarkers` puts into the layer of day index `dayIndex`: one per
      point whose construction succeeds, in order, each coloured by the day index, with
      the icon of its type and the swapped coordinates of its point. */
  function DayMarkers(points: seq<Point>, dayIndex: nat, fails: Point -> bool): (ms: seq<Marker>)
    ensures MarkerPoints(ms) == Surviving(points, fails)
    ensures forall m :: m in ms ==> m == MarkerFor(m.point, dayIndex)
  {
    if points == [] then []
    else
      var init := points[..|points| - 1];
      var last := points[|points| - 1];
      var head := DayMarkers(init, dayIndex, fails);
      var tail := if fails(last) then [] else [MarkerFor(last, dayIndex)];
      MarkerPointsAppend(head, tail);
      assert MarkerPoints(tail) == if fails(last) then [] else [last];
      assert points == init + [last];
      SurvivingAppend(init, [last], fails);
      SurvivingCons(last, [], fails);
      assert [last] + [] == [last];
      head + tail
  }

  lemma MarkerPointsAppend(a: seq<Marker>, b: seq<Marker>)
    ensures MarkerPoints(a + b) == MarkerPoints(a) + MarkerPoints(b)
  {
  }

  /** One step of the marker loop: a further point adds its marker unless it fails. */
  lemma DayMarkersStep(points: seq<Point>, i: nat, dayIndex: nat, fails: Point -> bool)
    requires i < |points|
    ensures DayMarkers(points[..i + 1], dayIndex, fails)
            == DayMarkers(points[..i], dayIndex, fails) + (if fails(points[i]) then [] else [MarkerFor(points[i], dayIndex)])
  {
    var pre := points[..i + 1];
    assert pre[..|pre| - 1] == points[..i];
    assert pre[|pre| - 1] == points[i];
  }

  /** One layer per day group, the group's index being its day index. */
  function RenderLayers(groups: seq<seq<Point>>, fails: Point -> bool): (layers: seq<Layer>)
    ensures |layers| == |groups|
    ensures forall k :: 0 <= k < |groups| ==> layers[k] == Layer(DayMarkers(groups[k], k, fails))
  {
    seq(|groups|, k requires 0 <= k < |groups| => Layer(DayMarkers(groups[k], k, fails)))
  }

  lemma RenderLayersStep(groups: seq<seq<Point>>, k: nat, fails: Point -> bool)
    requires k < |groups|
    ensures RenderLayers(groups[..k + 1], fails) == RenderLayers(groups[..k], fails) + [Layer(DayMarkers(groups[k], k, fails))]
  {
    var lhs := RenderLayers(groups[..k + 1], fails);
    var rhs := RenderLayers(groups[..k], fails) + [Layer(DayMarkers(groups[k], k, fails))];
    assert |lhs| == |rhs|;
    forall j | 0 <= j < |lhs| ensures lhs[j] == rhs[j] {
      assert lhs[j] == Layer(DayMarkers(groups[j], j, fails));
      if j < k {
        assert rhs[j] == RenderLayers(groups[..k], fails)[j];
      }
    }
  }

  /** `fitMapToBounds`: a fit over every point of the itinerary, coordinates swapped. */
  function FitOver(points: seq<Point>): (f: FitRequest)
    ensures |f.bounds| == |points| && f.padding == FitPadding
    ensures forall i :: 0 <= i < |points| ==>
              f.bounds[i] == LatLng(points[i].details.location.coordinates.1, points[i].details.location.coordinates.0)
  {
    FitRequest(seq(|points|, i requires 0 <= i < |points| => ToLatLng(points[i].details.location.coordinates)), FitPadding)
  }

  function InitialMap(): MapState
  {
    MapState(false, [], NothingShown, [])
  }

  /** Every point's marker can be built. A point whose marker construction throws has
      coordinates Leaflet rejects, and `L.latLngBounds` over the same coordinates throws
      too, outside any `try`. */
  predicate AllMarkable(points: seq<Point>, fails: Point -> bool)
  {
    forall i :: 0 <= i < |points| ==> !fails(points[i])
  }

  /** `displayItinerary`: nothing without a map; otherwise clear every layer, remember the
      itinerary, stop if it has no points, else add one layer per day group and request a
      fit over all points. The fit is requested only when every marker could be built;
      otherwise the bounds computation throws and `displayItinerary` ends with the layers
      but without a fit. */
  function Display(s: MapState, it: Itinerary, fails: Point -> bool): (r: MapState)
    ensures r.ready == s.ready
    ensures !s.ready ==> r == s
    ensures s.ready ==> r.selected == ShownItinerary(it) && |r.layers| == |GroupPointsByDay(it.points)|
    ensures s.ready && it.points == [] ==> r.layers == [] && r.fits == s.fits
    ensures s.ready ==> (r.fits == s.fits + [FitOver(it.points)] <==> it.points != [] && AllMarkable(it.points, fails))
    ensures s.ready && !(it.points != [] && AllMarkable(it.points, fails)) ==> r.fits == s.fits
  {
    if !s.ready then s
    else if |it.points| == 0 then s.(layers := [], selected := ShownItinerary(it))
    else s.(layers := RenderLayers(GroupPointsByDay(it.points), fails),
            selected := ShownItinerary(it),
            fits := if AllMarkable(it.points, fails) then s.fits + [FitOver(it.points)] else s.fits)
  }

  /** The store subscription as written: the callback's argument is the store's
      `{itinerary, isFromGPT}` wrapper, which is always truthy and is passed on to
      `displayItinerary`; the wrapper has no `points`, so the map is cleared and nothing
      is drawn. */
  function AfterEmissionAsWritten(s: MapState, v: StoreValue): MapState
  {
    if !s.ready then s else s.(layers := [], selected := ShownWrapper(v))
  }

  /** The store subscription as evidently intended: a non-null itinerary is displayed, and
      a null one (the store's initial value, or what `backToList` pushes) clears the map
      without requesting a fit, as the wrapper does now. */
  function AfterEmission(s: MapState, v: StoreValue, fails: Point -> bool): MapState
  {
    if !s.ready then s
    else if v.itinerary.Some? then Display(s, v.itinerary.value, fails)
    else s.(layers := [], selected := NothingShown)
  }

  /** Without a map `displayItinerary` changes nothing. */
  lemma DisplayWithoutMap(s: MapState, it: Itinerary, fails: Point -> bool)
    requires !s.ready
    ensures Display(s, it, fails) == s
  {
  }

  /** With a map: exactly one layer per distinct day, the previous layers gone, even when
      markers fail; no points means no layers and no fit; otherwise one fit over all points
      is requested when every marker could be built, and none when one could not. */
  lemma DisplayLayerPerDay(s: MapState, it: Itinerary, fails: Point -> bool)
    requires s.ready
    ensures Display(s, it, fails).ready
    ensures |Display(s, it, fails).layers| == |DaySet(it.points)|
    ensures Display(s, it, fails).selected == ShownItinerary(it)
    ensures it.points == [] ==> Display(s, it, fails).layers == [] && Display(s, it, fails).fits == s.fits
    ensures it.points != [] && (forall p :: p in it.points ==> !fails(p)) ==>
              Display(s, it, fails).fits == s.fits + [FitOver(it.points)]
    ensures (exists p :: p in it.points && fails(p)) ==> Display(s, it, fails).fits == s.fits
  {
    GroupCount(it.points);
  }

  /** Every marker of the layer with day index `k` belongs to the `k`-th day, has colour
      `dayColors[k % 5]`, the icon of its type and its point's coordinates swapped. */
  lemma {:induction false} DisplayMarkers(s: MapState, it: Itinerary, fails: Point -> bool, k: nat, m: Marker)
    requires s.ready
    requires k < |Display(s, it, fails).layers| && m in Display(s, it, fails).layers[k].markers
    ensures m.point.day == SortedDays(it.points)[k]
    ensures m.color == DayColors[k % 5]
    ensures m.icon == IconFor(m.point.details.kind)
    ensures m.position == LatLng(m.point.details.location.coordinates.1, m.point.details.location.coordinates.0)
    ensures m.point in it.points && !fails(m.point)
  {
    var groups: seq<seq<Point>> := GroupPointsByDay(it.points);
    GroupShape(it.points);
    var ms := DayMarkers(groups[k], k, fails);
    assert m in ms;
    assert m == MarkerFor(m.point, k);
    var i :| 0 <= i < |ms| && ms[i] == m;
    assert MarkerPoints(ms)[i] == m.point;
    SurvivingCount(groups[k], fails);
    assert m.point in multiset(Surviving(groups[k], fails));
    assert m.point in multiset(groups[k]);
    assert multiset(groups[k])[m.point] == multiset(it.points)[m.point];
  }

  /** The points carried by the markers of a sequence of layers, layer after layer. */
  function LayerPoints(layers: seq<Layer>): seq<Point>
  {
    if layers == [] then [] else MarkerPoints(layers[0].markers) + LayerPoints(layers[1..])
  }

  lemma {:induction false} LayerPointsCount(layers: seq<Layer>, groups: seq<seq<Point>>, fails: Point -> bool)
    requires |layers| == |groups|
    requires forall k :: 0 <= k < |layers| ==> MarkerPoints(layers[k].markers) == Surviving(groups[k], fails)
    ensures forall p :: multiset(LayerPoints(layers))[p] == if fails(p) then 0 else multiset(Flatten(groups))[p]
  {
    if layers != [] {
      SurvivingCount(groups[0], fails);
      LayerPointsCount(layers[1..], groups[1..], fails);
    }
  }

  lemma RenderedPointsCount(groups: seq<seq<Point>>, fails: Point -> bool)
    ensures forall p :: multiset(LayerPoints(RenderLayers(groups, fails)))[p]
                        == if fails(p) then 0 else multiset(Flatten(groups))[p]
  {
    LayerPointsCount(RenderLayers(groups, fails), groups, fails);
  }

  lemma {:induction false} RenderedSurvivors(points: seq<Point>, fails: Point -> bool)
    ensures multiset(LayerPoints(RenderLayers(GroupPointsByDay(points), fails))) == multiset(Surviving(points, fails))
  {
    GroupPermutation(points);
    RenderedPermutation(GroupPointsByDay(points), points, fails);
  }

  /** Rendering any grouping that is a permutation of the points keeps exactly the
      surviving points. */
  lemma RenderedPermutation(groups: seq<seq<Point>>, points: seq<Point>, fails: Point -> bool)
    requires multiset(Flatten(groups)) == multiset(points)
    ensures multiset(LayerPoints(RenderLayers(groups, fails))) == multiset(Surviving(points, fails))
  {
    var lp := LayerPoints(RenderLayers(groups, fails));
    var sv := Surviving(points, fails);
    RenderedPointsCount(groups, fails);
    SurvivingCount(points, fails);
    forall p ensures multiset(lp)[p] == multiset(sv)[p] {
      assert multiset(lp)[p] == if fails(p) then 0 else multiset(Flatten(groups))[p];
    }
    assert multiset(lp) == multiset(sv);
  }


  /** Rendering keeps one marker for every point whose construction succeeds and none for
      the others: the markers' points are, as a multiset, the surviving points. */
  lemma {:induction false} DisplayMarksSurvivors(s: MapState, it: Itinerary, fails: Point -> bool)
    requires s.ready
    ensures multiset(LayerPoints(Display(s, it, fails).layers)) == multiset(Surviving(it.points, fails))
  {
    if it.points == [] {
      assert Display(s, it, fails).layers == [];
    } else {
      RenderedSurvivors(it.points, fails);
    }
  }

  lemma {:induction false} SurvivingAll(points: seq<Point>, fails: Point -> bool)
    requires forall p :: p in points ==> !fails(p)
    ensures Surviving(points, fails) == points
  {
    if points != [] {
      assert points == [points[0]] + points[1..];
      SurvivingAll(points[1..], fails);
    }
  }

  /** When no marker construction fails there is exactly one marker per point. */
  lemma OneMarkerPerPoint(s: MapState, it: Itinerary, fails: Point -> bool)
    requires s.ready
    requires forall p :: p in it.points ==> !fails(p)
    ensures |LayerPoints(Display(s, it, fails).layers)| == |it.points|
  {
    DisplayMarksSurvivors(s, it, fails);
    SurvivingAll(it.points, fails);
    var ps := LayerPoints(Display(s, it, fails).layers);
    assert |ps| == |multiset(ps)| == |multiset(it.points)|;
  }

  /** Layers never accumulate: the layers after a display depend only on the itinerary
      displayed last, so displaying the same itinerary twice gives the layers of once. */
  lemma LastDisplayWins(s: MapState, a: Itinerary, b: Itinerary, fails: Point -> bool, fails': Point -> bool)
    ensures Display(Display(s, a, fails), b, fails').layers == Display(s, b, fails').layers
    ensures Display(Display(s, a, fails), b, fails').selected == Display(s, b, fails').selected
    ensures Display(Display(s, a, fails), a, fails).layers == Display(s, a, fails).layers
  {
  }

  /** As written, the store subscription never draws anything: whatever the store emits,
      the map ends without layers and no fit is requested. */
  lemma StoreEmissionAsWrittenClears(s: MapState, v: StoreValue)
    ensures AfterEmissionAsWritten(s, v).fits == s.fits
    ensures s.ready ==> AfterEmissionAsWritten(s, v).layers == []
    ensures !s.ready ==> AfterEmissionAsWritten(s, v) == s
  {
  }

  /** A concrete store emission that shows it: one point on one day, the map ready. The
      subscription as written leaves no layer; the intended one draws one layer with one
      marker. */
  lemma StoreEmissionAsWrittenLosesItinerary()
    ensures var p := Point(1, 1, 1, None,
                           PointDetails(1, "Faro", "", "VIEWPOINT", "", "", "", Location("Point", (-17, 28)), "", ""), 1);
            var it := Itinerary(None, "Norte", "", 1, [p], Text(""), Text(""), None, None);
            var v := StoreValue(Some(it), true);
            var s := MapState(true, [], NothingShown, []);
            AfterEmissionAsWritten(s, v).layers == [] &&
            |AfterEmission(s, v, q => false).layers| == 1
  {
    var p := Point(1, 1, 1, None,
                   PointDetails(1, "Faro", "", "VIEWPOINT", "", "", "", Location("Point", (-17, 28)), "", ""), 1);
    var it := Itinerary(None, "Norte", "", 1, [p], Text(""), Text(""), None, None);
    var s := MapState(true, [], NothingShown, []);
    DisplayLayerPerDay(s, it, q => false);
    assert DaySet(it.points) == {1};
  }

  /** The intended subscription displays every non-null itinerary the store emits, one
      layer per distinct day; a null one clears the map and requests no fit, exactly as
      the subscription as written does; without a map nothing changes. */
  lemma StoreEmissionRenders(s: MapState, v: StoreValue, fails: Point -> bool)
    ensures !s.ready ==> AfterEmission(s, v, fails) == s
    ensures s.ready && v.itinerary.None? ==>
              AfterEmission(s, v, fails).layers == [] && AfterEmission(s, v, fails).fits == s.fits &&
              AfterEmission(s, v, fails).selected == NothingShown
    ensures v.itinerary.None? ==>
              AfterEmission(s, v, fails).layers == AfterEmissionAsWritten(s, v).layers &&
              AfterEmission(s, v, fails).fits == AfterEmissionAsWritten(s, v).fits
    ensures s.ready && v.itinerary.Some? ==>
              AfterEmission(s, v, fails) == Display(s, v.itinerary.value, fails) &&
              |AfterEmission(s, v, fails).layers| == |DaySet(v.itinerary.value.points)|
  {
    if s.ready && v.itinerary.Some? {
      DisplayLayerPerDay(s, v.itinerary.value, fails);
    }
  }

  /** The map component. */
  class MapComponent {
    var ready: bool
    var markerLayers: seq<Layer>
    var selectedItinerary: Shown
    var fitRequests: seq<FitRequest>
    const store: Store
    const subscriber: nat

    function State(): MapState
      reads this
    {
      MapState(ready, markerLayers, selectedItinerary, fitRequests)
    }

    /** The constructor subscribes to the store. The store hands the new subscriber its
        current value at once, which finds no map yet and is ignored. */
    constructor (store: Store)
      requires store.Valid()
      modifies store
      ensures State() == InitialMap() && this.store == store
      ensures store.Valid() && store.State() == Subscribed(old(store.State()))
      ensures subscriber == old(|store.logs|)
    {
      var id := store.Subscribe();
      ready := false;
      markerLayers := [];
      selectedItinerary := NothingShown;
      fitRequests := [];
      this.store := store;
      subscriber := id;
    }

    /** `ngOnDestroy`: the subscription (always set by the constructor) is cancelled. */
    method NgOnDestroy()
      requires store.Valid() && subscriber < |store.active|
      modifies store
      ensures store.Valid() && store.State() == Unsubscribed(old(store.State()), subscriber)
      ensures State() == old(State())
    {
      store.Unsubscribe(subscriber);
    }

    /** `initMap`: the map exists once `L.map` has succeeded. */
    method InitMap(created: bool)
      modifies this
      ensures State() == old(State()).(ready := old(ready) || created)
    {
      if created {
        ready := true;
      }
    }

    /** `clearMap`: every tracked layer is removed and the tracked list emptied. */
    method ClearMap()
      modifies this
      ensures State() == old(State()).(layers := [])
    {
      markerLayers := [];
    }

    /** `createDayMarkers`: build the layer of one day group and add it. */
    method CreateDayMarkers(points: seq<Point>, dayIndex: nat, fails: Point -> bool)
      modifies this
      ensures State() == old(State()).(layers := old(markerLayers) + [Layer(DayMarkers(points, dayIndex, fails))])
    {
      var markers: seq<Marker> := [];
      for i := 0 to |points|
        invariant markers == DayMarkers(points[..i], dayIndex, fails)
        invariant State() == old(State())
      {
        DayMarkersStep(points, i, dayIndex, fails);
        if !fails(points[i]) {
          markers := markers + [MarkerFor(points[i], dayIndex)];
        }
      }
      assert points[..|points|] == points;
      markerLayers := markerLayers + [Layer(markers)];
    }

    /** `fitMapToBounds`: request a fit over the selected itinerary's points. It is only
        reached with an itinerary that has points. */
    method FitMapToBounds()
      requires selectedItinerary.ShownItinerary?
      modifies this
      ensures State() == old(State()).(fits := old(fitRequests) + [FitOver(old(selectedItinerary).itinerary.points)])
    {
      fitRequests := fitRequests + [FitOver(selectedItinerary.itinerary.points)];
    }

    method DisplayItinerary(it: Itinerary, fails: Point -> bool)
      modifies this
      ensures State() == Display(old(State()), it, fails)
    {
      if !ready {
        return;
      }
      ClearMap();
      selectedItinerary := ShownItinerary(it);
      if |it.points| == 0 {
        return;
      }
      var groups := GroupPointsByDay(it.points);
      for dayIndex := 0 to |groups|
        invariant ready && selectedItinerary == ShownItinerary(it) && fitRequests == old(fitRequests)
        invariant markerLayers == RenderLayers(groups[..dayIndex], fails)
      {
        RenderLayersStep(groups, dayIndex, fails);
        CreateDayMarkers(groups[dayIndex], dayIndex, fails);
      }
      assert groups[..|groups|] == groups;
      if AllMarkable(it.points, fails) {
        FitMapToBounds();
      }
    }

    /** The store callback as written: the wrapper object reaches `displayItinerary`. */
    method OnStoreEmissionAsWritten(v: StoreValue)
      modifies this
      ensures State() == AfterEmissionAsWritten(old(State()), v)
    {
      if ready {
        ClearMap();
        selectedItinerary := ShownWrapper(v);
      }
    }

    /** The store callback as intended: display the wrapped itinerary when there is one,
        clear the map when there is none. */
    method OnStoreEmission(v: StoreValue, fails: Point -> bool)
      modifies this
      ensures State() == AfterEmission(old(State()), v, fails)
    {
      if ready {
        if v.itinerary.Some? {
          DisplayItinerary(v.itinerary.value, fails);
        } else {
          ClearMap();
          selectedItinerary := NothingShown;
        }
      }
    }
  }
}
