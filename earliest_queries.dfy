/** The query methods of the earliest `DataHandler` (handler.js), over the
    older feed layout: pilots carry a `plan` with empty strings for missing
    airports and a `member` with the CID; controller frequencies are numbers
    (99998 for observers). */
module EarliestQueries {
  import opened Wrappers
  import opened Strings
  import opened Seqs
  import Tally

  datatype Plan = Plan(departure: string, arrival: string)

  /** A pilot; `memberCid` is `member.cid`. */
  datatype LegacyPilot = LegacyPilot(callsign: string, memberCid: int, plan: Plan)

  datatype LegacyController = LegacyController(callsign: string, frequency: int, rating: int)

  datatype LegacyFeed = LegacyFeed(pilots: seq<LegacyPilot>, controllers: seq<LegacyController>)

  /** An entry of the single list `getAirportInfo` returns. */
  datatype Listing = PilotListing(pilot: LegacyPilot) | ControllerListing(controller: LegacyController)

  /** `getCount(type)`: "all" adds the two list lengths. */
  function GetCount(feed: LegacyFeed, kind: string): (r: Option<int>)
    ensures r.Some? <==> kind in {"all", "pilots", "controllers"}
    ensures kind == "pilots" ==> r == Some(|feed.pilots|)
    ensures kind == "controllers" ==> r == Some(|feed.controllers|)
  {
    match kind
    case "all" => Some(|feed.pilots| + |feed.controllers|)
    case "pilots" => Some(|feed.pilots|)
    case "controllers" => Some(|feed.controllers|)
    case _ => None
  }

  /** The total is the sum of the two other counts. */
  lemma CountAllIsSum(feed: LegacyFeed)
    ensures GetCount(feed, "all").value == GetCount(feed, "pilots").value + GetCount(feed, "controllers").value
  {
  }

  // ---------------------------------------------------------------------
  // getAirportInfo

  const ObserverFrequency: int := 99998

  /** `pilot.plan.departure === airport || pilot.plan.arrival === airport`;
      a `null` airport equals no plan field. */
  predicate UsesAirport(p: LegacyPilot, airport: Option<string>)
  {
    airport.Some? && (p.plan.departure == airport.value || p.plan.arrival == airport.value)
  }

  function PilotsAt(airport: Option<string>): LegacyPilot -> bool
  {
    p => UsesAirport(p, airport)
  }

  /** The text `includes` searches for: a `null` airport is converted to "null". */
  function Needle(airport: Option<string>): string
  {
    if airport.Some? then airport.value else "null"
  }

  /** The callsign contains the airport and the controller is not an observer. */
  predicate ServesAirport(c: LegacyController, airport: Option<string>)
  {
    Includes(c.callsign, Needle(airport)) && c.frequency != ObserverFrequency
  }

  function ControllersAt(airport: Option<string>): LegacyController -> bool
  {
    c => ServesAirport(c, airport)
  }

  function PilotListings(s: seq<LegacyPilot>): (r: seq<Listing>)
    ensures |r| == |s|
    decreases |s|
  {
    if s == [] then [] else PilotListings(s[..|s| - 1]) + [PilotListing(s[|s| - 1])]
  }

  function ControllerListings(s: seq<LegacyController>): (r: seq<Listing>)
    ensures |r| == |s|
    decreases |s|
  {
    if s == [] then [] else ControllerListings(s[..|s| - 1]) + [ControllerListing(s[|s| - 1])]
  }

  /** One more pilot examined: kept at the end when it uses the airport. */
  lemma PilotStep(s: seq<LegacyPilot>, i: int, airport: Option<string>)
    requires 0 <= i < |s|
    ensures Filter(s[..i + 1], PilotsAt(airport))
         == Filter(s[..i], PilotsAt(airport)) + if UsesAirport(s[i], airport) then [s[i]] else []
  {
    assert s[..i + 1][..i] == s[..i];
  }

  /** One more controller examined: kept at the end when it works the airport. */
  lemma ControllerStep(s: seq<LegacyController>, i: int, airport: Option<string>)
    requires 0 <= i < |s|
    ensures Filter(s[..i + 1], ControllersAt(airport))
         == Filter(s[..i], ControllersAt(airport)) + if ServesAirport(s[i], airport) then [s[i]] else []
  {
    assert s[..i + 1][..i] == s[..i];
  }

  /** Listing one more pilot appends its entry. */
  lemma PilotListingsSnoc(kept: seq<LegacyPilot>, p: LegacyPilot)
    ensures PilotListings(kept + [p]) == PilotListings(kept) + [PilotListing(p)]
  {
    assert (kept + [p])[..|kept|] == kept;
  }

  /** Listing one more controller appends its entry. */
  lemma ControllerListingsSnoc(kept: seq<LegacyController>, c: LegacyController)
    ensures ControllerListings(kept + [c]) == ControllerListings(kept) + [ControllerListing(c)]
  {
    assert (kept + [c])[..|kept|] == kept;
  }

  /** `getAirportInfo(airport = null)`: one list, first the pilots using the
      airport, then the controllers working it, each in feed order. */
  method GetAirportInfo(feed: LegacyFeed, airport: Option<string>) returns (r: seq<Listing>)
    ensures r == PilotListings(Filter(feed.pilots, PilotsAt(airport)))
                 + ControllerListings(Filter(feed.controllers, ControllersAt(airport)))
  {
    r := [];
    ghost var pilotsKept: seq<LegacyPilot> := [];
    var i := 0;
    while i < |feed.pilots|
      invariant 0 <= i <= |feed.pilots|
      invariant pilotsKept == Filter(feed.pilots[..i], PilotsAt(airport))
      invariant r == PilotListings(pilotsKept)
    {
      var pilot := feed.pilots[i];
      PilotStep(feed.pilots, i, airport);
      if UsesAirport(pilot, airport) {
        PilotListingsSnoc(pilotsKept, pilot);
        r := r + [PilotListing(pilot)];
        pilotsKept := pilotsKept + [pilot];
      }
      i := i + 1;
    }
    assert feed.pilots[..|feed.pilots|] == feed.pilots;
    var pilots := r;
    ghost var controllersKept: seq<LegacyController> := [];
    i := 0;
    while i < |feed.controllers|
      invariant 0 <= i <= |feed.controllers|
      invariant controllersKept == Filter(feed.controllers[..i], ControllersAt(airport))
      invariant r == pilots + ControllerListings(controllersKept)
    {
      var controller := feed.controllers[i];
      ControllerStep(feed.controllers, i, airport);
      if ServesAirport(controller, airport) {
        ControllerListingsSnoc(controllersKept, controller);
        r := r + [ControllerListing(controller)];
        controllersKept := controllersKept + [controller];
      }
      i := i + 1;
    }
    assert feed.controllers[..|feed.controllers|] == feed.controllers;
  }

  /** With an empty code every pilot with an empty plan field and every
      controller that is not an observer is listed; with no code no pilot is. */
  lemma AirportInfoEdgeCases(feed: LegacyFeed)
    ensures forall c :: c in feed.controllers ==> (ServesAirport(c, Some("")) <==> c.frequency != ObserverFrequency)
    ensures Filter(feed.pilots, PilotsAt(None)) == []
  {
    forall c | c in feed.controllers ensures ServesAirport(c, Some("")) <==> c.frequency != ObserverFrequency {
      IncludesEmpty(c.callsign);
    }
    FilterNone(feed.pilots, PilotsAt(None));
  }

  // ---------------------------------------------------------------------
  // getPopularAirports

  /** A plan airport counts unless it is the empty string. */
  function Counted(a: string): Option<string>
  {
    if a != "" then Some(a) else None
  }

  function Departure(p: LegacyPilot): Option<string>
  {
    Counted(p.plan.departure)
  }

  function Arrival(p: LegacyPilot): Option<string>
  {
    Counted(p.plan.arrival)
  }

  /** `getPopularAirports()`. */
  method GetPopularAirports(feed: LegacyFeed) returns (r: seq<Tally.AirportCount>)
    ensures r == Tally.Popular(Tally.Endpoints(feed.pilots, Departure, Arrival))
  {
    r := Tally.PopularAirports(feed.pilots, Departure, Arrival);
  }

  /** No popular airport of this revision is the empty string. */
  lemma {:induction false} NoEmptyAirport(pilots: seq<LegacyPilot>)
    ensures "" !in Tally.Endpoints(pilots, Departure, Arrival)
    decreases |pilots|
  {
    if pilots != [] {
      NoEmptyAirport(pilots[..|pilots| - 1]);
    }
  }

  // ---------------------------------------------------------------------
  // Lookups and filters

  function WithCid(cid: int): LegacyPilot -> bool
  {
    (p: LegacyPilot) => p.memberCid == cid
  }

  /** `getClientDetails(cid)`: collect the pilots with this member CID, return the first. */
  method GetClientDetails(feed: LegacyFeed, cid: int) returns (r: Option<LegacyPilot>)
    ensures r == First(feed.pilots, WithCid(cid))
    ensures r.None? <==> forall i :: 0 <= i < |feed.pilots| ==> feed.pilots[i].memberCid != cid
    ensures r.Some? ==> r.value.memberCid == cid && r.value in feed.pilots
  {
    var pilotDetails := Collect(feed.pilots, WithCid(cid));
    r := if |pilotDetails| > 0 then Some(pilotDetails[0]) else None;
  }

  predicate IsSupervisor(c: LegacyController)
  {
    c.rating == 11 || c.rating == 12
  }

  /** `getSupervisors()`: the controllers rated 11 or 12, in feed order. */
  method GetSupervisors(feed: LegacyFeed) returns (r: seq<LegacyController>)
    ensures r == Filter(feed.controllers, IsSupervisor)
    ensures forall c :: c in r <==> c in feed.controllers && IsSupervisor(c)
  {
    r := Collect(feed.controllers, IsSupervisor);
    FilterMembers(feed.controllers, IsSupervisor);
  }
}
