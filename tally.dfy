/** The airport popularity tally shared by every revision of
    `getPopularAirports`: a list of `{id, count}` records that is searched for
    each airport and either incremented or extended, then sorted by count
    (largest first, ties in first-seen order, as the stable
    `Array.prototype.sort` leaves them) and cut to its first ten entries. */
module Tally {
  import opened Wrappers

  datatype AirportCount = AirportCount(id: string, count: nat)

  /** Some record of the list has this id. */
  predicate Listed(list: seq<AirportCount>, id: string)
  {
    exists i :: 0 <= i < |list| && list[i].id == id
  }

  /** Every record with this id counted once more, the others untouched. */
  function Incremented(list: seq<AirportCount>, id: string): (r: seq<AirportCount>)
    ensures |r| == |list|
  {
    seq(|list|, i requires 0 <= i < |list| =>
      if list[i].id == id then AirportCount(id, list[i].count + 1) else list[i])
  }

  /** The list after one airport is tallied: its record incremented when it is
      listed, a new record with count 1 at the end otherwise. */
  function Bumped(list: seq<AirportCount>, id: string): seq<AirportCount>
  {
    if Listed(list, id) then Incremented(list, id) else list + [AirportCount(id, 1)]
  }

  /** One tally step: the `forEach` over the list increments every record
      with this id and clears `newAirport`; a record is pushed when none matched. */
  method Bump(list: seq<AirportCount>, id: string) returns (r: seq<AirportCount>)
    ensures r == Bumped(list, id)
  {
    var newAirport := true;
    r := list;
    var i := 0;
    while i < |r|
      invariant 0 <= i <= |r| == |list|
      invariant forall j :: 0 <= j < |list| ==> r[j] == if j < i then Incremented(list, id)[j] else list[j]
      invariant newAirport <==> forall j :: 0 <= j < i ==> list[j].id != id
    {
      if r[i].id == id {
        r := r[i := AirportCount(r[i].id, r[i].count + 1)];
        newAirport := false;
      }
      i := i + 1;
    }
    if newAirport {
      r := r + [AirportCount(id, 1)];
    } else {
      assert r == Incremented(list, id);
    }
  }

  /** The tally of a sequence of airport ids, in visiting order. */
  function TallyOf(ids: seq<string>): seq<AirportCount>
    decreases |ids|
  {
    if ids == [] then [] else Bumped(TallyOf(ids[..|ids| - 1]), ids[|ids| - 1])
  }

  lemma TallySnoc(ids: seq<string>, id: string)
    ensures TallyOf(ids + [id]) == Bumped(TallyOf(ids), id)
  {
    assert (ids + [id])[..|ids|] == ids;
  }

  /** No two records share an id. */
  predicate DistinctIds(list: seq<AirportCount>)
  {
    forall i, j :: 0 <= i < j < |list| ==> list[i].id != list[j].id
  }

  /** The set of distinct ids of a sequence. */
  function IdSet(ids: seq<string>): set<string>
  {
    set x | x in ids
  }

  /** After a tally step exactly the airports listed before and the new one are listed. */
  lemma BumpedListed(list: seq<AirportCount>, id: string, x: string)
    ensures Listed(Bumped(list, id), x) <==> Listed(list, x) || x == id
  {
    var r := Bumped(list, id);
    if Listed(list, x) {
      var i :| 0 <= i < |list| && list[i].id == x;
      assert r[i].id == x;
    }
    if x == id && !Listed(list, id) {
      assert r[|list|].id == x;
    }
    if Listed(r, x) && x != id {
      var i :| 0 <= i < |r| && r[i].id == x;
      assert list[i].id == x;
    }
  }

  /** A tally step keeps the ids distinct. */
  lemma BumpedDistinct(list: seq<AirportCount>, id: string)
    requires DistinctIds(list)
    ensures DistinctIds(Bumped(list, id))
  {
  }

  /** A tally step counts one more occurrence of its airport and no other. */
  lemma BumpedCounts(list: seq<AirportCount>, id: string, ids: seq<string>)
    requires forall i :: 0 <= i < |list| ==> list[i].count == multiset(ids)[list[i].id]
    requires forall x :: Listed(list, x) <==> x in ids
    ensures var r := Bumped(list, id);
      forall i :: 0 <= i < |r| ==> r[i].count == multiset(ids + [id])[r[i].id]
  {
    var r := Bumped(list, id);
    forall i | 0 <= i < |r| ensures r[i].count == multiset(ids + [id])[r[i].id] {
      if i == |list| {
        assert !Listed(list, id);
        assert id !in ids;
      }
    }
  }

  /** The tally lists exactly the airports visited, each once. */
  lemma {:induction false} TallyListed(ids: seq<string>)
    ensures DistinctIds(TallyOf(ids))
    ensures forall x :: Listed(TallyOf(ids), x) <==> x in ids
    decreases |ids|
  {
    if ids != [] {
      var init, id := ids[..|ids| - 1], ids[|ids| - 1];
      TallyListed(init);
      assert ids == init + [id];
      BumpedDistinct(TallyOf(init), id);
      forall x ensures Listed(TallyOf(ids), x) <==> x in ids {
        BumpedListed(TallyOf(init), id, x);
      }
    }
  }

  /** Each record of the tally counts exactly the occurrences of its airport. */
  lemma {:induction false} TallyCounts(ids: seq<string>)
    ensures forall i :: 0 <= i < |TallyOf(ids)| ==> TallyOf(ids)[i].count == multiset(ids)[TallyOf(ids)[i].id]
    decreases |ids|
  {
    if ids != [] {
      var init, id := ids[..|ids| - 1], ids[|ids| - 1];
      TallyCounts(init);
      TallyListed(init);
      assert ids == init + [id];
      BumpedCounts(TallyOf(init), id, init);
    }
  }

  /** The tally has one record per distinct airport. */
  lemma {:induction false} TallyLength(ids: seq<string>)
    ensures |TallyOf(ids)| == |IdSet(ids)|
    decreases |ids|
  {
    if ids != [] {
      var init, id := ids[..|ids| - 1], ids[|ids| - 1];
      TallyLength(init);
      TallyListed(init);
      assert ids == init + [id];
      if id in init {
        assert IdSet(ids) == IdSet(init);
      } else {
        assert IdSet(ids) == IdSet(init) + {id};
      }
    }
  }

  // ---------------------------------------------------------------------
  // `airportList.sort((a, b) => b.count - a.count)`

  /** Counts never increase along the list. */
  predicate ByCountDesc(list: seq<AirportCount>)
  {
    forall i, j :: 0 <= i < j < |list| ==> list[i].count >= list[j].count
  }

  /** Places `x` after every record whose count is at least its own. */
  function Insert(x: AirportCount, sorted: seq<AirportCount>): seq<AirportCount>
    decreases |sorted|
  {
    if sorted == [] then [x]
    else if sorted[0].count >= x.count then [sorted[0]] + Insert(x, sorted[1..])
    else [x] + sorted
  }

  /** A stable sort by descending count: each record in turn is placed after
      all earlier records with the same or a larger count. */
  function SortByCount(list: seq<AirportCount>): seq<AirportCount>
    decreases |list|
  {
    if list == [] then [] else Insert(list[|list| - 1], SortByCount(list[..|list| - 1]))
  }

  lemma {:induction false} InsertFacts(x: AirportCount, sorted: seq<AirportCount>)
    requires ByCountDesc(sorted)
    ensures multiset(Insert(x, sorted)) == multiset(sorted) + multiset{x}
    ensures ByCountDesc(Insert(x, sorted))
    decreases |sorted|
  {
    if sorted != [] && sorted[0].count >= x.count {
      var rest := sorted[1..];
      InsertFacts(x, rest);
      assert sorted == [sorted[0]] + rest;
      var r := Insert(x, sorted);
      forall j | 0 < j < |r| ensures r[0].count >= r[j].count {
        assert r[j] in multiset(Insert(x, rest));
        assert r[j] in multiset(rest) + multiset{x};
      }
    }
  }

  /** Inserting a record whose id is new keeps the ids distinct. */
  lemma {:induction false} InsertDistinct(x: AirportCount, sorted: seq<AirportCount>)
    requires DistinctIds(sorted)
    requires forall i :: 0 <= i < |sorted| ==> sorted[i].id != x.id
    ensures DistinctIds(Insert(x, sorted))
    ensures forall y :: y in Insert(x, sorted) <==> y in sorted || y == x
    decreases |sorted|
  {
    if sorted != [] && sorted[0].count >= x.count {
      InsertDistinct(x, sorted[1..]);
      var r := Insert(x, sorted);
      forall j | 0 < j < |r| ensures r[0].id != r[j].id {
        assert r[j] in Insert(x, sorted[1..]);
      }
    }
  }

  /** The sort is a permutation whose counts never increase. */
  lemma {:induction false} SortFacts(list: seq<AirportCount>)
    ensures multiset(SortByCount(list)) == multiset(list)
    ensures ByCountDesc(SortByCount(list))
    decreases |list|
  {
    if list != [] {
      var init := list[..|list| - 1];
      SortFacts(init);
      InsertFacts(list[|list| - 1], SortByCount(init));
      assert list == init + [list[|list| - 1]];
    }
  }

  /** Sorting a list with distinct ids keeps them distinct. */
  lemma {:induction false} SortDistinct(list: seq<AirportCount>)
    requires DistinctIds(list)
    ensures DistinctIds(SortByCount(list))
    ensures forall y :: y in SortByCount(list) <==> y in list
    decreases |list|
  {
    if list != [] {
      var init, x := list[..|list| - 1], list[|list| - 1];
      SortDistinct(init);
      var s := SortByCount(init);
      forall i | 0 <= i < |s| ensures s[i].id != x.id {
        assert s[i] in init;
      }
      InsertDistinct(x, s);
      assert list == init + [x];
    }
  }

  /** `slice(0, 10)`. */
  function Top10(list: seq<AirportCount>): (r: seq<AirportCount>)
    ensures |r| == Min(10, |list|)
  {
    list[..Min(10, |list|)]
  }

  /** The result of `getPopularAirports` for the airports visited, in order. */
  function Popular(ids: seq<string>): seq<AirportCount>
  {
    Top10(SortByCount(TallyOf(ids)))
  }

  /** The sorted tally: a permutation of the tally, so one record per airport
      visited, each with its exact count, largest counts first. */
  lemma SortedTallyFacts(ids: seq<string>)
    ensures var s := SortByCount(TallyOf(ids));
      && |s| == |IdSet(ids)|
      && DistinctIds(s)
      && ByCountDesc(s)
      && (forall x :: Listed(s, x) <==> x in ids)
      && (forall e :: e in s ==> e.count == multiset(ids)[e.id])
  {
    var t := TallyOf(ids);
    TallyListed(ids);
    TallyCounts(ids);
    TallyLength(ids);
    SortFacts(t);
    SortDistinct(t);
    var s := SortByCount(t);
    assert |s| == |multiset(s)| == |multiset(t)| == |t|;
    forall x ensures Listed(s, x) <==> x in ids {
      if x in ids {
        var i :| 0 <= i < |t| && t[i].id == x;
        assert t[i] in s;
      }
      if Listed(s, x) {
        var k :| 0 <= k < |s| && s[k].id == x;
        assert s[k] in t;
      }
    }
    forall e | e in s ensures e.count == multiset(ids)[e.id] {
      assert e in t;
    }
  }

  /** The popular airports: at most ten records, one per airport, largest counts first. */
  lemma PopularShape(ids: seq<string>)
    ensures |Popular(ids)| == Min(10, |IdSet(ids)|)
    ensures DistinctIds(Popular(ids))
    ensures ByCountDesc(Popular(ids))
  {
    SortedTallyFacts(ids);
  }

  /** Each popular airport was visited, and its count is its number of visits. */
  lemma PopularCounts(ids: seq<string>)
    ensures forall e :: e in Popular(ids) ==> e.id in ids && e.count == multiset(ids)[e.id]
  {
    SortedTallyFacts(ids);
    var s := SortByCount(TallyOf(ids));
    var r := Popular(ids);
    forall e | e in r ensures e.id in ids && e.count == multiset(ids)[e.id] {
      var k :| 0 <= k < |r| && r[k] == e;
      assert s[k] == e;
      assert Listed(s, e.id);
    }
  }

  /** An airport left out of the popular list was visited no more often than
      the tenth one, and the list is full. */
  lemma PopularTopTen(ids: seq<string>, x: string)
    requires x in ids && !Listed(Popular(ids), x)
    ensures |Popular(ids)| == 10 && multiset(ids)[x] <= Popular(ids)[9].count
  {
    SortedTallyFacts(ids);
    var s := SortByCount(TallyOf(ids));
    PopularLeftOut(s, |Popular(ids)|, x);
  }

  /** In a list sorted by count, a record beyond a prefix counts no more than
      the last record of the prefix. */
  lemma PopularLeftOut(s: seq<AirportCount>, n: nat, x: string)
    requires ByCountDesc(s) && n == Min(10, |s|)
    requires Listed(s, x) && !Listed(s[..n], x)
    ensures n == 10 && exists k :: 0 <= k < |s| && s[k].id == x && s[k].count <= s[9].count
  {
    var k :| 0 <= k < |s| && s[k].id == x;
  }

  // ---------------------------------------------------------------------
  // The loop over the pilots

  /** The ids one optional airport contributes. */
  function Endpoint(a: Option<string>): seq<string>
  {
    if a.Some? then [a.value] else []
  }

  /** The airports visited by the tally loop: for each pilot in turn, its
      departure, then its arrival, when each one counts. */
  function Endpoints<P>(pilots: seq<P>, departure: P -> Option<string>, arrival: P -> Option<string>): seq<string>
    decreases |pilots|
  {
    if pilots == [] then []
    else
      var p := pilots[|pilots| - 1];
      Endpoints(pilots[..|pilots| - 1], departure, arrival) + Endpoint(departure(p)) + Endpoint(arrival(p))
  }

  /** One guarded tally step: an airport that counts is bumped, a missing one skipped. */
  method TallyEndpoint(airportList: seq<AirportCount>, ghost seen: seq<string>, a: Option<string>)
    returns (r: seq<AirportCount>)
    requires airportList == TallyOf(seen)
    ensures r == TallyOf(seen + Endpoint(a))
  {
    if a.Some? {
      r := Bump(airportList, a.value);
      TallySnoc(seen, a.value);
    } else {
      r := airportList;
      assert seen + Endpoint(a) == seen;
    }
  }

  /** The airports of one more pilot follow those of the pilots before it. */
  lemma EndpointsStep<P>(pilots: seq<P>, i: nat, departure: P -> Option<string>, arrival: P -> Option<string>)
    requires i < |pilots|
    ensures Endpoints(pilots[..i + 1], departure, arrival)
         == Endpoints(pilots[..i], departure, arrival) + Endpoint(departure(pilots[i])) + Endpoint(arrival(pilots[i]))
  {
    assert pilots[..i + 1][..i] == pilots[..i];
  }

  /** The tally loop of `getPopularAirports`, then the sort and the cut. */
  method PopularAirports<P>(pilots: seq<P>, departure: P -> Option<string>, arrival: P -> Option<string>)
    returns (r: seq<AirportCount>)
    ensures r == Popular(Endpoints(pilots, departure, arrival))
  {
    var airportList: seq<AirportCount> := [];
    var i := 0;
    while i < |pilots|
      invariant 0 <= i <= |pilots|
      invariant airportList == TallyOf(Endpoints(pilots[..i], departure, arrival))
    {
      ghost var seen := Endpoints(pilots[..i], departure, arrival);
      var d := departure(pilots[i]);
      airportList := TallyEndpoint(airportList, seen, d);
      var a := arrival(pilots[i]);
      airportList := TallyEndpoint(airportList, seen + Endpoint(d), a);
      EndpointsStep(pilots, i, departure, arrival);
      i := i + 1;
    }
    assert pilots[..|pilots|] == pilots;
    r := Top10(SortByCount(airportList));
  }
}
