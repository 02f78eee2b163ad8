/** The query methods of the current `DataHandler` (src/methods.ts and its
    compiled copy build/esm/methods.js), over a feed already loaded by the
    file handler. Records keep the fields the queries read; the others
    (names, positions, servers, times) are never inspected. */
module Queries {
  import opened Wrappers
  import opened Strings
  import opened Seqs
  import Tally

  /** `flight_plan`; `None` fields are `null`. */
  datatype FlightPlan = FlightPlan(departure: Option<string>, arrival: Option<string>)

  /** A pilot; a missing or `null` flight plan is `None`. */
  datatype Pilot = Pilot(cid: int, callsign: string, altitude: int, flightPlan: Option<FlightPlan>)

  /** A controller; the frequency is the feed's string, such as "118.300". */
  datatype Controller = Controller(cid: int, callsign: string, frequency: string, facility: int, rating: int)

  /** An ATIS station. */
  datatype Atis = Atis(cid: int, callsign: string, frequency: string, atisCode: string)

  /** The parts of the feed file the queries read. */
  datatype Feed = Feed(uniqueUsers: int, pilots: seq<Pilot>, controllers: seq<Controller>, atis: seq<Atis>)

  /** The object `getAirportInfo` resolves with; `atis` is `None` when never set. */
  datatype AirportInfo = AirportInfo(pilots: seq<Pilot>, controllers: seq<Controller>, atis: Option<Atis>)

  /** `getCount(type)`. */
  function GetCount(feed: Feed, kind: string): (r: Option<int>)
    ensures r.Some? <==> kind in {"all", "pilots", "controllers"}
    ensures kind == "all" ==> r == Some(feed.uniqueUsers)
    ensures kind == "pilots" ==> r == Some(|feed.pilots|)
    ensures kind == "controllers" ==> r == Some(|feed.controllers|)
  {
    match kind
    case "all" => Some(feed.uniqueUsers)
    case "pilots" => Some(|feed.pilots|)
    case "controllers" => Some(|feed.controllers|)
    case _ => None
  }

  /** `getClients()`: every connected pilot. */
  function GetClients(feed: Feed): (r: seq<Pilot>)
    ensures GetCount(feed, "pilots") == Some(|r|)
    ensures forall i :: 0 <= i < |r| ==> r[i] == feed.pilots[i]
  {
    feed.pilots
  }

  // ---------------------------------------------------------------------
  // getAirportInfo

  /** The frequency observers connect on; they are never listed at an airport. */
  const ObserverFrequency: string := "199.998"

  /** The pilot files a flight plan leaving from or arriving at the airport. */
  predicate UsesAirport(p: Pilot, airport: string)
  {
    p.flightPlan.Some?
    && (p.flightPlan.value.departure == Some(airport) || p.flightPlan.value.arrival == Some(airport))
  }

  function PilotsAt(airport: string): Pilot -> bool
  {
    p => UsesAirport(p, airport)
  }

  /** The controller works the airport: not an observer, and its callsign
      contains the airport code, or, for a US airport ("K" prefix), the code
      without the "K" followed by "_" (as in "JFK_TWR" for "KJFK"). */
  predicate ServesAirport(c: Controller, airport: string)
  {
    c.frequency != ObserverFrequency
    && (Includes(c.callsign, airport)
        || (StartsWith(airport, "K") && Includes(c.callsign, Substr1(airport) + "_")))
  }

  function ControllersAt(airport: string): Controller -> bool
  {
    c => ServesAirport(c, airport)
  }

  function AtisAt(airport: string): Atis -> bool
  {
    (t: Atis) => Includes(t.callsign, airport)
  }

  /** The same rule stated with explicit positions: the callsign holds the code
      somewhere, or holds the code without its leading "K" and an underscore. */
  lemma ServesAirportIff(c: Controller, airport: string)
    ensures ServesAirport(c, airport) <==>
      c.frequency != ObserverFrequency
      && ((exists i :: OccursAt(c.callsign, airport, i))
          || (|airport| > 0 && airport[0] == 'K' && exists i :: OccursAt(c.callsign, airport[1..] + "_", i)))
  {
    IncludesIffOccurs(c.callsign, airport);
    IncludesIffOccurs(c.callsign, Substr1(airport) + "_");
  }

  /** `getAirportInfo(airport)`: undefined for a missing or empty code; otherwise
      the pilots using the airport, the controllers working it (in feed order),
      and the last ATIS station whose callsign contains the code. */
  method GetAirportInfo(feed: Feed, airport: Option<string>) returns (r: Option<AirportInfo>)
    ensures r.None? <==> airport.None? || airport.value == ""
    ensures r.Some? ==> r.value.pilots == Filter(feed.pilots, PilotsAt(airport.value))
    ensures r.Some? ==> r.value.controllers == Filter(feed.controllers, ControllersAt(airport.value))
    ensures r.Some? ==> r.value.atis == Last(feed.atis, AtisAt(airport.value))
  {
    if airport.None? || airport.value == "" {
      return None;
    }
    var a := airport.value;
    var pilots := Filter(feed.pilots, PilotsAt(a));
    var controllers: seq<Controller> := [];
    var i := 0;
    while i < |feed.controllers|
      invariant 0 <= i <= |feed.controllers|
      invariant controllers == Filter(feed.controllers[..i], ControllersAt(a))
    {
      var client := feed.controllers[i];
      assert feed.controllers[..i + 1][..i] == feed.controllers[..i];
      if Includes(client.callsign, a) && client.frequency != ObserverFrequency {
        controllers := controllers + [client];
      } else if Includes(client.callsign, Substr1(a) + "_") && client.frequency != ObserverFrequency
             && StartsWith(a, "K") {
        controllers := controllers + [client];
      }
      i := i + 1;
    }
    assert feed.controllers[..|feed.controllers|] == feed.controllers;
    var atis := FindLast(feed.atis, AtisAt(a));
    r := Some(AirportInfo(pilots, controllers, atis));
  }

  /** Every pilot and controller listed at an airport uses or works it, and
      every one that does is listed; the ATIS station, if any, names the airport
      and no later station does. */
  lemma AirportInfoMembers(feed: Feed, airport: string)
    ensures forall p :: p in Filter(feed.pilots, PilotsAt(airport)) <==> p in feed.pilots && UsesAirport(p, airport)
    ensures forall c :: c in Filter(feed.controllers, ControllersAt(airport)) <==> c in feed.controllers && ServesAirport(c, airport)
    ensures Last(feed.atis, AtisAt(airport)).Some? ==>
      exists i :: LastMatchAt(feed.atis, AtisAt(airport), i) && Includes(feed.atis[i].callsign, airport)
  {
    FilterMembers(feed.pilots, PilotsAt(airport));
    FilterMembers(feed.controllers, ControllersAt(airport));
  }

  /** "JFK_TWR" works KJFK through the US-prefix rule; an observer never works an airport. */
  lemma AirportRuleExamples(c: Controller)
    ensures ServesAirport(Controller(1, "JFK_TWR", "119.100", 4, 5), "KJFK")
    ensures !ServesAirport(Controller(2, "LL_TWR", "118.500", 4, 5), "EGLL")
    ensures c.frequency == ObserverFrequency ==> !ServesAirport(c, "KJFK")
  {
    var tower := "JFK_TWR";
    assert StartsWith(tower, "JFK_");
    assert Substr1("KJFK") + "_" == "JFK_";
    assert Substr1("EGLL") + "_" == "GLL_";
    var other := "LL_TWR";
    IncludesIffOccurs(other, "EGLL");
    assert !StartsWith("EGLL", "K");
  }

  // ---------------------------------------------------------------------
  // getPopularAirports

  /** The departure counted for a pilot: only with a flight plan and a non-null departure. */
  function Departure(p: Pilot): Option<string>
  {
    if p.flightPlan.Some? then p.flightPlan.value.departure else None
  }

  function Arrival(p: Pilot): Option<string>
  {
    if p.flightPlan.Some? then p.flightPlan.value.arrival else None
  }

  /** `getPopularAirports()`. */
  method GetPopularAirports(feed: Feed) returns (r: seq<Tally.AirportCount>)
    ensures r == Tally.Popular(Tally.Endpoints(feed.pilots, Departure, Arrival))
  {
    r := Tally.PopularAirports(feed.pilots, Departure, Arrival);
  }

  // ---------------------------------------------------------------------
  // Lookups and filters

  function WithCallsign(callsign: string): Pilot -> bool
  {
    (p: Pilot) => p.callsign == callsign
  }

  function WithCid(cid: int): Pilot -> bool
  {
    (p: Pilot) => p.cid == cid
  }

  /** `getFlightInfo(callsign)`: the first pilot with this callsign, or undefined. */
  function GetFlightInfo(feed: Feed, callsign: string): (r: Option<Pilot>)
    ensures r.None? <==> forall i :: 0 <= i < |feed.pilots| ==> feed.pilots[i].callsign != callsign
    ensures r.Some? ==> r.value.callsign == callsign && r.value in feed.pilots
    ensures r.Some? ==> exists i :: FirstMatchAt(feed.pilots, WithCallsign(callsign), i) && feed.pilots[i] == r.value
  {
    First(feed.pilots, WithCallsign(callsign))
  }

  /** `getClientDetails(cid)`: the first pilot with this CID, or undefined. */
  function GetClientDetails(feed: Feed, cid: int): (r: Option<Pilot>)
    ensures r.None? <==> forall i :: 0 <= i < |feed.pilots| ==> feed.pilots[i].cid != cid
    ensures r.Some? ==> r.value.cid == cid && r.value in feed.pilots
    ensures r.Some? ==> exists i :: FirstMatchAt(feed.pilots, WithCid(cid), i) && feed.pilots[i] == r.value
  {
    First(feed.pilots, WithCid(cid))
  }

  /** Ratings 11 and 12 are the supervisor ratings. */
  predicate IsSupervisor(c: Controller)
  {
    c.rating == 11 || c.rating == 12
  }

  /** Facility 0 is an observer connection. */
  predicate IsStaffed(c: Controller)
  {
    c.facility != 0
  }

  /** `getSupervisors()`: the supervisors, in feed order. */
  method GetSupervisors(feed: Feed) returns (r: seq<Controller>)
    ensures r == Filter(feed.controllers, IsSupervisor)
    ensures forall c :: c in r <==> c in feed.controllers && IsSupervisor(c)
  {
    r := Collect(feed.controllers, IsSupervisor);
    FilterMembers(feed.controllers, IsSupervisor);
  }

  /** `getControllers()`: the controllers that are not observers, in feed order. */
  method GetControllers(feed: Feed) returns (r: seq<Controller>)
    ensures r == Filter(feed.controllers, IsStaffed)
    ensures forall c :: c in r <==> c in feed.controllers && IsStaffed(c)
  {
    r := Collect(feed.controllers, IsStaffed);
    FilterMembers(feed.controllers, IsStaffed);
  }
}
