/** The day-grouping engine of the map component (`groupPointsByDay`,
    src/app/components/map/map.component.ts): the distinct `day` values of the points,
    sorted ascending, and for each of them the points of that day sorted by `order`.

    JavaScript's `Array.prototype.sort` is stable, and both comparators used here are
    consistent total preorders, so every stable sort gives the same result; the model
    sorts by insertion. A JavaScript `Set` keeps its elements in insertion order, which
    `Dedupe` models. */
module DayGrouping {
  import opened ItineraryModel

  // ---------------------------------------------------------------- days

  /** `points.map(point => point.day)` */
  function DaysOf(points: seq<Point>): (r: seq<int>)
    ensures |r| == |points|
    ensures forall i :: 0 <= i < |points| ==> r[i] == points[i].day
  {
    seq(|points|, i requires 0 <= i < |points| => points[i].day)
  }

  /** The set of `day` values present among the points. */
  function DaySet(points: seq<Point>): set<int>
  {
    set p | p in points :: p.day
  }

  /** Each value occurs at most once. */
  ghost predicate NoDuplicates(s: seq<int>)
  {
    forall x :: multiset(s)[x] <= 1
  }

  predicate Ascending(s: seq<int>)
  {
    forall i, j :: 0 <= i < j < |s| ==> s[i] <= s[j]
  }

  predicate StrictlyAscending(s: seq<int>)
  {
    forall i, j :: 0 <= i < j < |s| ==> s[i] < s[j]
  }

  /** `new Set(xs)` read back as an array: the first occurrence of every value, in
      insertion order. */
  function Dedupe(xs: seq<int>): (r: seq<int>)
    ensures NoDuplicates(r)
    ensures forall x :: x in r <==> x in xs
  {
    if xs == [] then []
    else
      var init := xs[..|xs| - 1];
      var d := Dedupe(init);
      assert xs == init + [xs[|xs| - 1]];
      if xs[|xs| - 1] in d then d else d + [xs[|xs| - 1]]
  }

  lemma {:induction false} DedupeSize(xs: seq<int>)
    ensures |Dedupe(xs)| == |set x | x in xs|
  {
    if xs != [] {
      var init := xs[..|xs| - 1];
      var last := xs[|xs| - 1];
      assert xs == init + [last];
      DedupeSize(init);
      var before := set x | x in init;
      var after := set x | x in xs;
      if last in Dedupe(init) {
        assert after == before;
      } else {
        assert last !in before;
        assert after == before + {last};
      }
    }
  }

  lemma PrependAscending(h: int, t: seq<int>)
    requires Ascending(t)
    requires forall y :: y in t ==> h <= y
    ensures Ascending([h] + t)
  {
    forall i, j | 0 <= i < j < |[h] + t| ensures ([h] + t)[i] <= ([h] + t)[j] {
      assert ([h] + t)[j] == t[j - 1];
      if i > 0 {
        assert ([h] + t)[i] == t[i - 1];
      } else {
        assert t[j - 1] in t;
      }
    }
  }

  /** Insertion of one value into an ascending sequence. */
  function InsertInt(x: int, s: seq<int>): (r: seq<int>)
    requires Ascending(s)
    ensures Ascending(r)
    ensures multiset(r) == multiset(s) + multiset{x}
  {
    if s == [] || x <= s[0] then
      PrependAscending(x, s);
      [x] + s
    else
      var rest := InsertInt(x, s[1..]);
      assert s == [s[0]] + s[1..];
      assert forall y :: y in rest ==> s[0] <= y by {
        forall y | y in rest ensures s[0] <= y {
          assert y in multiset(rest);
          if y != x {
            assert y in multiset(s[1..]);
          }
        }
      }
      PrependAscending(s[0], rest);
      [s[0]] + rest
  }

  /** `.sort((a, b) => a - b)` on numbers. */
  function SortInts(s: seq<int>): (r: seq<int>)
    ensures Ascending(r)
    ensures multiset(r) == multiset(s)
  {
    if s == [] then []
    else
      assert s == [s[0]] + s[1..];
      InsertInt(s[0], SortInts(s[1..]))
  }

  lemma TwoEqualElements(s: seq<int>, i: int, j: int)
    requires 0 <= i < j < |s|
    ensures s[i] == s[j] ==> multiset(s)[s[i]] >= 2
  {
    assert s == s[..j] + [s[j]] + s[j + 1..];
    assert s[i] in s[..j];
  }

  lemma {:induction false} SortedWithoutDuplicates(s: seq<int>)
    requires Ascending(s) && NoDuplicates(s)
    ensures StrictlyAscending(s)
  {
    forall i, j | 0 <= i < j < |s|
      ensures s[i] < s[j]
    {
      TwoEqualElements(s, i, j);
    }
  }

  /** `Array.from(new Set(points.map(p => p.day))).sort((a, b) => a - b)`. */
  function SortedDays(points: seq<Point>): seq<int>
  {
    SortInts(Dedupe(DaysOf(points)))
  }

  lemma DaysOfSet(points: seq<Point>)
    ensures (set x | x in DaysOf(points)) == DaySet(points)
  {
    var ds := DaysOf(points);
    forall x | x in DaySet(points) ensures x in ds {
      var p :| p in points && p.day == x;
      var i :| 0 <= i < |points| && points[i] == p;
      assert ds[i] == x;
    }
  }

  /** The sorted days are the distinct `day` values, each once, strictly ascending. */
  lemma {:induction false} SortedDaysSpec(points: seq<Point>)
    ensures StrictlyAscending(SortedDays(points))
    ensures NoDuplicates(SortedDays(points))
    ensures forall d :: d in SortedDays(points) <==> d in DaySet(points)
    ensures |SortedDays(points)| == |DaySet(points)|
  {
    var ds := DaysOf(points);
    var u := Dedupe(ds);
    var r := SortInts(u);
    assert NoDuplicates(r) by {
      forall x ensures multiset(r)[x] <= 1 {
        assert multiset(u)[x] <= 1;
      }
    }
    SortedWithoutDuplicates(r);
    forall d ensures d in r <==> d in DaySet(points) {
      assert d in r <==> d in multiset(r);
      assert d in u <==> d in multiset(u);
      assert d in ds <==> d in DaySet(points);
    }
    DedupeSize(ds);
    DaysOfSet(points);
    assert |r| == |multiset(r)| == |multiset(u)| == |u|;
  }

  // ---------------------------------------------------------------- points of one day

  /** `points.filter(point => point.day === day)`: exactly the points of that day, with
      their multiplicities, in input order. */
  function FilterDay(points: seq<Point>, day: int): (r: seq<Point>)
    ensures |r| <= |points|
    ensures forall p :: p in r ==> p.day == day
    ensures forall p :: multiset(r)[p] == if p.day == day then multiset(points)[p] else 0
  {
    if points == [] then []
    else
      assert points == [points[0]] + points[1..];
      (if points[0].day == day then [points[0]] else []) + FilterDay(points[1..], day)
  }

  /** The filter keeps the input order: filtering a concatenation concatenates the
      filtered parts. */
  lemma {:induction false} FilterDayAppend(a: seq<Point>, b: seq<Point>, day: int)
    ensures FilterDay(a + b, day) == FilterDay(a, day) + FilterDay(b, day)
  {
    if a == [] {
      assert a + b == b;
    } else {
      var h, t := a[0], a[1..];
      var hs := if h.day == day then [h] else [];
      SplitFirst(a, b);
      FilterDayCons(h, t + b, day);
      FilterDayCons(h, t, day);
      FilterDayAppend(t, b, day);
      ConcatAssoc(hs, FilterDay(t, day), FilterDay(b, day));
    }
  }

  /** Splitting off the first element of a non-empty sequence. */
  lemma SplitFirst<T>(a: seq<T>, b: seq<T>)
    requires a != []
    ensures a == [a[0]] + a[1..]
    ensures a + b == [a[0]] + (a[1..] + b)
  {
  }

  lemma ConcatAssoc<T>(x: seq<T>, y: seq<T>, z: seq<T>)
    ensures (x + y) + z == x + (y + z)
  {
  }

  lemma FilterDayCons(h: Point, t: seq<Point>, day: int)
    ensures FilterDay([h] + t, day) == (if h.day == day then [h] else []) + FilterDay(t, day)
  {
    assert ([h] + t)[1..] == t;
  }

  /** The points whose `order` equals `k`, in sequence order. */
  function WithOrder(s: seq<Point>, k: int): seq<Point>
  {
    if s == [] then [] else (if s[0].order == k then [s[0]] else []) + WithOrder(s[1..], k)
  }

  predicate OrderSorted(s: seq<Point>)
  {
    forall i, j :: 0 <= i < j < |s| ==> s[i].order <= s[j].order
  }

  lemma PrependOrderSorted(h: Point, t: seq<Point>)
    requires OrderSorted(t)
    requires forall q :: q in t ==> h.order <= q.order
    ensures OrderSorted([h] + t)
  {
    forall i, j | 0 <= i < j < |[h] + t| ensures ([h] + t)[i].order <= ([h] + t)[j].order {
      assert ([h] + t)[j] == t[j - 1];
      if i > 0 {
        assert ([h] + t)[i] == t[i - 1];
      } else {
        assert t[j - 1] in t;
      }
    }
  }

  /** Insertion of a point before the first point whose `order` is not smaller, so that
      it precedes the later points of equal `order`. */
  function InsertByOrder(p: Point, s: seq<Point>): (r: seq<Point>)
    requires OrderSorted(s)
    ensures OrderSorted(r)
    ensures multiset(r) == multiset(s) + multiset{p}
  {
    if s == [] || p.order <= s[0].order then
      PrependOrderSorted(p, s);
      [p] + s
    else
      OrderSortedTail(s);
      var rest := InsertByOrder(p, s[1..]);
      assert s == [s[0]] + s[1..];
      HeadBelowInserted(p, s, rest);
      PrependOrderSorted(s[0], rest);
      [s[0]] + rest
  }

  lemma OrderSortedTail(s: seq<Point>)
    requires OrderSorted(s) && s != []
    ensures OrderSorted(s[1..])
    ensures forall q :: q in s[1..] ==> s[0].order <= q.order
  {
    forall q | q in s[1..] ensures s[0].order <= q.order {
      var j :| 0 <= j < |s[1..]| && s[1..][j] == q;
      assert s[j + 1] == q;
    }
  }

  /** The head of a sorted sequence is not above anything inserted after it. */
  lemma HeadBelowInserted(p: Point, s: seq<Point>, rest: seq<Point>)
    requires OrderSorted(s) && s != [] && s[0].order < p.order
    requires multiset(rest) == multiset(s[1..]) + multiset{p}
    ensures forall q :: q in rest ==> s[0].order <= q.order
  {
    OrderSortedTail(s);
    forall q | q in rest ensures s[0].order <= q.order {
      assert q in multiset(rest);
      if q != p {
        assert q in multiset(s[1..]);
      }
    }
  }

  /** `.sort((a, b) => a.order - b.order)` (a stable sort). */
  function SortByOrder(s: seq<Point>): (r: seq<Point>)
    ensures OrderSorted(r)
    ensures multiset(r) == multiset(s)
  {
    if s == [] then []
    else
      assert s == [s[0]] + s[1..];
      InsertByOrder(s[0], SortByOrder(s[1..]))
  }

  lemma {:induction false} InsertByOrderStable(p: Point, s: seq<Point>, k: int)
    requires OrderSorted(s)
    ensures WithOrder(InsertByOrder(p, s), k)
            == (if p.order == k then [p] else []) + WithOrder(s, k)
  {
    if s == [] || p.order <= s[0].order {
      assert InsertByOrder(p, s) == [p] + s;
      WithOrderCons(p, s, k);
    } else {
      OrderSortedTail(s);
      var rest := InsertByOrder(p, s[1..]);
      assert InsertByOrder(p, s) == [s[0]] + rest;
      WithOrderCons(s[0], rest, k);
      WithOrderCons(s[0], s[1..], k);
      assert [s[0]] + s[1..] == s;
      InsertByOrderStable(p, s[1..], k);
    }
  }

  lemma WithOrderCons(h: Point, t: seq<Point>, k: int)
    ensures WithOrder([h] + t, k) == (if h.order == k then [h] else []) + WithOrder(t, k)
  {
    assert ([h] + t)[1..] == t;
  }

  /** Stability: the points sharing one `order` value keep their relative input order. */
  lemma {:induction false} SortByOrderStable(s: seq<Point>, k: int)
    ensures WithOrder(SortByOrder(s), k) == WithOrder(s, k)
  {
    if s != [] {
      InsertByOrderStable(s[0], SortByOrder(s[1..]), k);
      SortByOrderStable(s[1..], k);
    }
  }

  /** One day group: `points.filter(p => p.day === day).sort((a, b) => a.order - b.order)`. */
  function PointsOfDay(points: seq<Point>, day: int): (r: seq<Point>)
    ensures OrderSorted(r)
    ensures forall p :: p in r ==> p.day == day
    ensures forall p :: multiset(r)[p] == if p.day == day then multiset(points)[p] else 0
    ensures forall k :: WithOrder(r, k) == WithOrder(FilterDay(points, day), k)
  {
    var f := FilterDay(points, day);
    var r := SortByOrder(f);
    forall k ensures WithOrder(r, k) == WithOrder(f, k) {
      SortByOrderStable(f, k);
    }
    forall p | p in r ensures p.day == day {
      assert p in multiset(r);
    }
    r
  }

  lemma AbsentDayHasNoPoints(points: seq<Point>, day: int)
    ensures day !in DaySet(points) ==> PointsOfDay(points, day) == []
  {
    var r := PointsOfDay(points, day);
    if r != [] {
      assert multiset(points)[r[0]] > 0;
      assert r[0] in points;
    }
  }

  // ---------------------------------------------------------------- grouping

  /** `days.map(day => <points of day>)` */
  function GroupsFor(points: seq<Point>, days: seq<int>): (groups: seq<seq<Point>>)
    ensures |groups| == |days|
    ensures forall i :: 0 <= i < |days| ==> groups[i] == PointsOfDay(points, days[i])
  {
    seq(|days|, i requires 0 <= i < |days| => PointsOfDay(points, days[i]))
  }

  /** `groupPointsByDay`: one group per distinct day. */
  function GroupPointsByDay(points: seq<Point>): (groups: seq<seq<Point>>)
    ensures |groups| == |DaySet(points)|
  {
    SortedDaysSpec(points);
    GroupsFor(points, SortedDays(points))
  }

  function Flatten(groups: seq<seq<Point>>): seq<Point>
  {
    if groups == [] then [] else groups[0] + Flatten(groups[1..])
  }

  /** One group per distinct `day` value; the groups are those of the sorted days. */
  lemma GroupCount(points: seq<Point>)
    ensures |GroupPointsByDay(points)| == |DaySet(points)|
    ensures points == [] ==> GroupPointsByDay(points) == []
    ensures forall i :: 0 <= i < |GroupPointsByDay(points)| ==>
              GroupPointsByDay(points)[i] == PointsOfDay(points, SortedDays(points)[i])
  {
    SortedDaysSpec(points);
  }

  lemma DayGroupNonEmpty(points: seq<Point>, day: int)
    requires day in DaySet(points)
    ensures PointsOfDay(points, day) != []
  {
    var p :| p in points && p.day == day;
    assert multiset(points)[p] > 0;
    assert multiset(PointsOfDay(points, day))[p] > 0;
  }

  /** Every group is non-empty, its members share the group's day, and the days strictly
      increase with the group index. */
  lemma {:induction false} GroupShape(points: seq<Point>)
    ensures |GroupPointsByDay(points)| == |SortedDays(points)|
    ensures forall i :: 0 <= i < |GroupPointsByDay(points)| ==> GroupPointsByDay(points)[i] != []
    ensures forall i, p :: 0 <= i < |GroupPointsByDay(points)| && p in GroupPointsByDay(points)[i] ==>
              p.day == SortedDays(points)[i]
    ensures forall i, j :: 0 <= i < j < |GroupPointsByDay(points)| ==>
              GroupPointsByDay(points)[i][0].day < GroupPointsByDay(points)[j][0].day
  {
    var days := SortedDays(points);
    var groups: seq<seq<Point>> := GroupPointsByDay(points);
    SortedDaysSpec(points);
    forall i | 0 <= i < |groups| ensures groups[i] != [] && groups[i][0].day == days[i] {
      assert days[i] in DaySet(points);
      DayGroupNonEmpty(points, days[i]);
      assert groups[i][0] in groups[i];
    }
  }

  /** Within a group `order` never decreases, and points of equal `order` appear in the
      order they have in the input. */
  lemma GroupOrdered(points: seq<Point>)
    ensures forall i :: 0 <= i < |GroupPointsByDay(points)| ==> OrderSorted(GroupPointsByDay(points)[i])
    ensures forall i, k :: 0 <= i < |GroupPointsByDay(points)| ==>
              WithOrder(GroupPointsByDay(points)[i], k) == WithOrder(FilterDay(points, SortedDays(points)[i]), k)
  {
  }

  lemma {:induction false} FlattenGroupsCount(points: seq<Point>, days: seq<int>)
    requires NoDuplicates(days)
    ensures forall p :: multiset(Flatten(GroupsFor(points, days)))[p]
                        == if p.day in days then multiset(points)[p] else 0
  {
    if days != [] {
      var groups := GroupsFor(points, days);
      NoDuplicatesTail(days);
      assert groups[1..] == GroupsFor(points, days[1..]);
      FlattenGroupsCount(points, days[1..]);
      var head := PointsOfDay(points, days[0]);
      var flat := Flatten(groups);
      assert flat == head + Flatten(groups[1..]);
      forall p: Point ensures multiset(flat)[p] == if p.day in days then multiset(points)[p] else 0 {
        assert multiset(flat)[p] == multiset(head)[p] + multiset(Flatten(groups[1..]))[p];
        assert p.day in days <==> p.day == days[0] || p.day in days[1..];
      }
    }
  }

  lemma NoDuplicatesTail(days: seq<int>)
    requires NoDuplicates(days) && days != []
    ensures NoDuplicates(days[1..])
    ensures days[0] !in days[1..]
  {
    var h, t := days[0], days[1..];
    assert multiset(days)[h] <= 1;
    assert days == [h] + t;
    assert multiset(days) == multiset{h} + multiset(t);
    forall x ensures multiset(t)[x] <= 1 {
      assert multiset(days)[x] <= 1;
    }
    assert h in t ==> multiset(t)[h] >= 1;
  }

  lemma OutsideDaySet(points: seq<Point>, p: Point)
    ensures p.day !in DaySet(points) ==> multiset(points)[p] == 0
  {
    if multiset(points)[p] > 0 {
      assert p in points;
    }
  }

  /** Flattening the groups gives a permutation of the input: nothing dropped or
      duplicated. */
  lemma {:induction false} GroupPermutation(points: seq<Point>)
    ensures multiset(Flatten(GroupPointsByDay(points))) == multiset(points)
    ensures |Flatten(GroupPointsByDay(points))| == |points|
  {
    var days := SortedDays(points);
    SortedDaysSpec(points);
    FlattenGroupsCount(points, days);
    var flat := Flatten(GroupsFor(points, days));
    forall p ensures multiset(flat)[p] == multiset(points)[p] {
      OutsideDaySet(points, p);
    }
    assert multiset(flat) == multiset(points);
    assert |flat| == |multiset(flat)| == |multiset(points)| == |points|;
  }
}
