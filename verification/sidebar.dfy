/** The sidebar's view-model (src/app/components/sidebar/sidebar.component.ts): its own
    day grouping for the detail view, the selection state driven by the user and by the
    itinerary store, and the payload of the save request. */
module Sidebar {
  import opened ItineraryModel
  import opened DayGrouping
  import opened ItineraryStore

  /** `getDays`: collect the days into a local `Set` point by point, then sort them. The
      result is the distinct days, strictly ascending, the same sequence the map groups by. */
  method GetDays(it: Itinerary) returns (days: seq<int>)
    ensures StrictlyAscending(days)
    ensures forall d :: d in days <==> d in DaySet(it.points)
    ensures |days| == |DaySet(it.points)|
    ensures days == SortedDays(it.points)
  {
    var seen: seq<int> := [];
    for i := 0 to |it.points|
      invariant seen == Dedupe(DaysOf(it.points)[..i])
    {
      var prefix := DaysOf(it.points)[..i + 1];
      assert prefix[..i] == DaysOf(it.points)[..i];
      assert prefix[i] == it.points[i].day;
      if it.points[i].day !in seen {
        seen := seen + [it.points[i].day];
      }
    }
    assert DaysOf(it.points)[..|it.points|] == DaysOf(it.points);
    days := SortInts(seen);
    SortedDaysSpec(it.points);
  }

  /** `getPointsForDay`: exactly the points of `day`, with their multiplicities, sorted
      by `order`, points of equal `order` in input order; none for an absent day. */
  function GetPointsForDay(it: Itinerary, day: int): (r: seq<Point>)
    ensures OrderSorted(r)
    ensures forall p :: p in r ==> p.day == day
    ensures forall p :: multiset(r)[p] == if p.day == day then multiset(it.points)[p] else 0
    ensures forall k :: WithOrder(r, k) == WithOrder(FilterDay(it.points, day), k)
    ensures day !in DaySet(it.points) ==> r == []
  {
    AbsentDayHasNoPoints(it.points, day);
    PointsOfDay(it.points, day)
  }

  /** The sidebar and the map group identically: the `i`-th day's points in the sidebar
      are the map's `i`-th group. */
  lemma SidebarMatchesMap(it: Itinerary, i: int)
    requires 0 <= i < |SortedDays(it.points)|
    ensures |GroupPointsByDay(it.points)| == |SortedDays(it.points)|
    ensures GetPointsForDay(it, SortedDays(it.points)[i]) == GroupPointsByDay(it.points)[i]
  {
  }

  /** The selection state of the sidebar. */
  datatype View = View(selected: Option<Itinerary>, showDetail: bool, isFromGPT: bool)

  const InitialView: View := View(None, false, false)

  /** `selectItinerary(itinerary, fromGPT = false)` */
  function Select(v: View, it: Itinerary, fromGPT: bool := false): View
  {
    View(Some(it), true, fromGPT)
  }

  /** `backToList` and `onSidebarHide`: back to the list, nothing selected. */
  function ToList(v: View): View
  {
    v.(selected := None, showDetail := false)
  }

  /** The store-subscription callback: a non-null itinerary is selected together with its
      provenance flag; a null one changes nothing. */
  function Receive(v: View, value: StoreValue): View
  {
    if value.itinerary.Some? then View(value.itinerary, true, value.isFromGPT) else v
  }

  /** A store emission of an itinerary selects it exactly as the user selecting it with
      the same flag would; a null emission leaves the view unchanged. */
  lemma ReceiveIsSelect(v: View, value: StoreValue)
    ensures value.itinerary.Some? ==> Receive(v, value) == Select(v, value.itinerary.value, value.isFromGPT)
    ensures value.itinerary.None? ==> Receive(v, value) == v
  {
  }

  /** `backToList` pushes `(null, false)` into the store; that emission reaches the
      sidebar's own callback and leaves it on the list. */
  lemma BackToListStaysOnList(v: View)
    ensures Receive(ToList(v), InitialValue) == ToList(v)
    ensures !ToList(v).showDetail && ToList(v).selected.None?
  {
  }

  /** The save request for the current selection: none without a selection, and none
      when building the body throws on an Invalid Date, so that nothing is posted. */
  function SaveRequest(selected: Option<Itinerary>, toIso: Date -> string): (r: Option<SavePayload>)
    ensures r.Some? <==> selected.Some? && selected.value.startDate != Moment(InvalidDate)
                                        && selected.value.endDate != Moment(InvalidDate)
    ensures r.Some? ==> r.value.points == selected.value.points && r.value.title == selected.value.title
    ensures r.Some? ==> Some(r.value) == ToPayload(selected.value, toIso)
  {
    match selected
    case None => None
    case Some(it) => ToPayload(it, toIso)
  }

  /** The sidebar component. */
  class SidebarComponent {
    var showItineraryDetail: bool
    var selectedItinerary: Option<Itinerary>
    var isFromGPT: bool
    const store: Store
    const subscriber: nat

    function ViewState(): View
      reads this
    {
      View(selectedItinerary, showItineraryDetail, isFromGPT)
    }

    /** The constructor subscribes to the store, which hands it the current value at once. */
    constructor (store: Store)
      requires store.Valid()
      modifies store
      ensures this.store == store && store.Valid()
      ensures store.State() == Subscribed(old(store.State()))
      ensures subscriber == old(|store.logs|)
      ensures ViewState() == Receive(InitialView, store.current)
    {
      var id := store.Subscribe();
      this.store := store;
      subscriber := id;
      var v := Receive(InitialView, store.current);
      selectedItinerary := v.selected;
      showItineraryDetail := v.showDetail;
      isFromGPT := v.isFromGPT;
    }

    method SelectItinerary(it: Itinerary, fromGPT: bool := false)
      modifies this
      ensures ViewState() == Select(old(ViewState()), it, fromGPT)
    {
      selectedItinerary := Some(it);
      showItineraryDetail := true;
      isFromGPT := fromGPT;
    }

    /** `backToList`: back to the list and clear the store with `(null, false)`. Reloading
        the list is a request to the backend and is not modelled. */
    method BackToList()
      requires store.Valid()
      modifies this, store
      ensures ViewState() == ToList(old(ViewState()))
      ensures store.Valid() && store.State() == Next(old(store.State()), StoreValue(None, false))
    {
      showItineraryDetail := false;
      selectedItinerary := None;
      store.SetCurrentItinerary(None, false);
    }

    /** `onSidebarHide`: hide the detail and drop the selection. */
    method OnSidebarHide()
      modifies this
      ensures ViewState() == ToList(old(ViewState()))
    {
      showItineraryDetail := false;
      selectedItinerary := None;
    }

    /** The store-subscription callback. */
    method OnStoreEmission(value: StoreValue)
      modifies this
      ensures ViewState() == Receive(old(ViewState()), value)
    {
      if value.itinerary.Some? {
        selectedItinerary := value.itinerary;
        isFromGPT := value.isFromGPT;
        showItineraryDetail := true;
      }
    }

    /** `saveItinerary`: the body to post, or no request without a selection or when
        printing a date throws. */
    method SaveItinerary(toIso: Date -> string) returns (request: Option<SavePayload>)
      ensures request == SaveRequest(selectedItinerary, toIso)
    {
      match selectedItinerary
      case None =>
        request := None;
      case Some(it) =>
        request := ToPayload(it, toIso);
    }

    /** The success callback of the save request: the itinerary is no longer a suggestion. */
    method OnSaveSucceeded()
      modifies this
      ensures ViewState() == old(ViewState()).(isFromGPT := false)
    {
      isFromGPT := false;
    }

    /** `ngOnDestroy`: the store subscription is cancelled; the sidebar-visibility
        subscription belongs to `SidebarService`, which is not modelled. */
    method NgOnDestroy()
      requires store.Valid() && subscriber < |store.active|
      modifies store
      ensures store.Valid() && store.State() == Unsubscribed(old(store.State()), subscriber)
      ensures ViewState() == old(ViewState())
    {
      store.Unsubscribe(subscriber);
    }
  }
}
