/** The current-itinerary store of src/app/services/itinerary.service.ts: a
    `BehaviorSubject` holding one `{itinerary, isFromGPT}` value. Each subscriber is
    represented by the log of the values delivered to it. */
module ItineraryStore {
  import opened ItineraryModel

  /** The value the subject holds and emits. */
  datatype StoreValue = StoreValue(itinerary: Option<Itinerary>, isFromGPT: bool)

  /** `{itinerary: null, isFromGPT: false}`, the subject's initial value. */
  const InitialValue: StoreValue := StoreValue(None, false)

  /** The held value, and per subscriber what it has received and whether it is still
      subscribed. */
  datatype StoreState = StoreState(current: StoreValue, logs: seq<seq<StoreValue>>, active: seq<bool>)
  {
    ghost predicate Valid() { |logs| == |active| }
  }

  function Initial(): (s: StoreState)
    ensures s.Valid() && s.current == InitialValue && s.logs == []
  {
    StoreState(InitialValue, [], [])
  }

  /** `subscribe`: the new subscriber receives the current value at once. */
  function Subscribed(s: StoreState): (r: StoreState)
    requires s.Valid()
    ensures r.Valid() && r.current == s.current
    ensures r.logs == s.logs + [[s.current]] && r.active == s.active + [true]
  {
    s.(logs := s.logs + [[s.current]], active := s.active + [true])
  }

  /** `unsubscribe` of subscriber `id`: it receives nothing more. */
  function Unsubscribed(s: StoreState, id: nat): (r: StoreState)
    requires s.Valid() && id < |s.active|
    ensures r.Valid() && r.current == s.current && r.logs == s.logs
    ensures !r.active[id] && forall i :: 0 <= i < |s.active| && i != id ==> r.active[i] == s.active[i]
  {
    s.(active := s.active[id := false])
  }

  /** `next(v)`: the held value is replaced by `v`, and `v` is appended to the log of
      every active subscriber. */
  function Next(s: StoreState, v: StoreValue): (r: StoreState)
    requires s.Valid()
    ensures r.Valid() && r.current == v && r.active == s.active && |r.logs| == |s.logs|
    ensures forall i :: 0 <= i < |s.logs| ==>
              r.logs[i] == if s.active[i] then s.logs[i] + [v] else s.logs[i]
  {
    var logs := seq(|s.logs|, i requires 0 <= i < |s.logs| =>
                  if s.active[i] then s.logs[i] + [v] else s.logs[i]);
    StoreState(v, logs, s.active)
  }

  /** A sequence of `next` calls, in call order. */
  function NextAll(s: StoreState, vs: seq<StoreValue>): (r: StoreState)
    requires s.Valid()
    ensures r.Valid() && r.active == s.active && |r.logs| == |s.logs|
    decreases |vs|
  {
    if vs == [] then s else NextAll(Next(s, vs[0]), vs[1..])
  }

  /** Last write wins: after any sequence of replacements the held value is the last
      one, whatever came before; with no replacement it is unchanged. */
  lemma {:induction false} LastWriteWins(s: StoreState, vs: seq<StoreValue>)
    requires s.Valid()
    ensures vs == [] ==> NextAll(s, vs).current == s.current
    ensures vs != [] ==> NextAll(s, vs).current == vs[|vs| - 1]
    decreases |vs|
  {
    if vs != [] {
      LastWriteWins(Next(s, vs[0]), vs[1..]);
    }
  }

  /** Every active subscriber receives every emitted value, in call order; an
      unsubscribed one receives nothing. */
  lemma {:induction false} DeliveredInOrder(s: StoreState, vs: seq<StoreValue>, id: nat)
    requires s.Valid() && id < |s.logs|
    ensures s.active[id] ==> NextAll(s, vs).logs[id] == s.logs[id] + vs
    ensures !s.active[id] ==> NextAll(s, vs).logs[id] == s.logs[id]
    decreases |vs|
  {
    if vs != [] {
      DeliveredInOrder(Next(s, vs[0]), vs[1..], id);
      assert vs == [vs[0]] + vs[1..];
    }
  }

  /** A subscriber that joins and then sees the replacements `vs` has received the value
      held when it subscribed, followed by `vs`. */
  lemma LateSubscriberLog(s: StoreState, vs: seq<StoreValue>)
    requires s.Valid()
    ensures NextAll(Subscribed(s), vs).logs[|s.logs|] == [s.current] + vs
  {
    DeliveredInOrder(Subscribed(s), vs, |s.logs|);
  }

  /** The subject itself. */
  class Store {
    var current: StoreValue
    var logs: seq<seq<StoreValue>>
    var active: seq<bool>

    function State(): StoreState
      reads this
    {
      StoreState(current, logs, active)
    }

    ghost predicate Valid()
      reads this
    {
      State().Valid()
    }

    constructor ()
      ensures Valid() && State() == Initial()
    {
      current := InitialValue;
      logs := [];
      active := [];
    }

    method Subscribe() returns (id: nat)
      requires Valid()
      modifies this
      ensures Valid() && State() == Subscribed(old(State()))
      ensures id == old(|logs|)
    {
      id := |logs|;
      logs := logs + [[current]];
      active := active + [true];
    }

    method Unsubscribe(id: nat)
      requires Valid() && id < |active|
      modifies this
      ensures Valid() && State() == Unsubscribed(old(State()), id)
    {
      active := active[id := false];
    }

    /** `setCurrentItinerary(itinerary, isFromGPT = true)`: replace the held value with
        exactly the argument pair and notify the subscribers one after the other. */
    method SetCurrentItinerary(itinerary: Option<Itinerary>, isFromGPT: bool := true)
      requires Valid()
      modifies this
      ensures Valid() && State() == Next(old(State()), StoreValue(itinerary, isFromGPT))
    {
      var v := StoreValue(itinerary, isFromGPT);
      current := v;
      for i := 0 to |logs|
        invariant |logs| == |active| && active == old(active) && current == v
        invariant forall j :: 0 <= j < |logs| ==>
                    logs[j] == if j < i && active[j] then old(logs)[j] + [v] else old(logs)[j]
      {
        if active[i] {
          logs := logs[i := logs[i] + [v]];
        }
      }
    }
  }
}
