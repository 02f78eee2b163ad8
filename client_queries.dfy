/** The query methods of the `DataHandler` in src/methods.js, a revision that
    reads a combined `clients` list tagged with `clienttype` ("PILOT" or "ATC")
    next to the `pilots` and `controllers` lists of the older feed layout. */
module ClientQueries {
  import opened Wrappers
  import opened Strings
  import opened Seqs
  import Tally
  import EarliestQueries

  /** An entry of `clients`: `planned_depairport` and `planned_destairport`
      are the plan's airports, `frequency` is a number (99998 for observers). */
  datatype FeedClient = FeedClient(
    callsign: string,
    clientType: string,
    frequency: int,
    plannedDeparture: string,
    plannedDestination: string)

  datatype ClientFeed = ClientFeed(
    clients: seq<FeedClient>,
    pilots: seq<EarliestQueries.LegacyPilot>,
    controllers: seq<EarliestQueries.LegacyController>)

  /** The object `getAirportInfo` resolves with. */
  datatype ClientAirportInfo = ClientAirportInfo(pilots: seq<FeedClient>, controllers: seq<FeedClient>)

  /** Why a query rejects instead of resolving. */
  datatype QueryError = ReferenceError

  predicate IsPilot(c: FeedClient)
  {
    c.clientType == "PILOT"
  }

  predicate IsAtc(c: FeedClient)
  {
    c.clientType == "ATC"
  }

  /** `getCount(type)`: despite its name it returns lists, not counts. */
  method GetCount(feed: ClientFeed, kind: string) returns (r: Option<seq<FeedClient>>)
    ensures r.Some? <==> kind in {"all", "pilots", "controllers"}
    ensures kind == "all" ==> r == Some(feed.clients)
    ensures kind == "pilots" ==> r == Some(Filter(feed.clients, IsPilot))
    ensures kind == "controllers" ==> r == Some(Filter(feed.clients, IsAtc))
  {
    match kind
    case "all" =>
      r := Some(feed.clients);
    case "pilots" =>
      var pilots := Collect(feed.clients, IsPilot);
      r := Some(pilots);
    case "controllers" =>
      var controllers := Collect(feed.clients, IsAtc);
      r := Some(controllers);
    case _ =>
      r := None;
  }

  /** No client is both a pilot and a controller, so the two lists together
      are never longer than the whole list. */
  lemma {:induction false} PilotsAndControllersDisjoint(clients: seq<FeedClient>)
    ensures |Filter(clients, IsPilot)| + |Filter(clients, IsAtc)| <= |clients|
    ensures forall c :: c in Filter(clients, IsPilot) ==> c !in Filter(clients, IsAtc)
    decreases |clients|
  {
    FilterMembers(clients, IsPilot);
    FilterMembers(clients, IsAtc);
    if clients != [] {
      PilotsAndControllersDisjoint(clients[..|clients| - 1]);
    }
  }

  // ---------------------------------------------------------------------
  // getAirportInfo

  /** A PILOT client whose planned departure or destination is the airport. */
  predicate UsesAirport(c: FeedClient, airport: string)
  {
    IsPilot(c) && (c.plannedDeparture == airport || c.plannedDestination == airport)
  }

  function PilotsAt(airport: string): FeedClient -> bool
  {
    c => UsesAirport(c, airport)
  }

  /** The callsign contains the code without its first letter, then "_". */
  predicate NamesWithoutPrefix(c: FeedClient, airport: string)
  {
    Includes(c.callsign, Substr1(airport) + "_")
  }

  /** The first ATC rule: the callsign holds the code and the client is no observer. */
  predicate NamesAirport(c: FeedClient, airport: string)
  {
    IsAtc(c) && Includes(c.callsign, airport) && c.frequency != EarliestQueries.ObserverFrequency
  }

  /** The ATC client on which the fallback branch, as written, goes on to read
      `controller`, a name declared nowhere in the method. */
  predicate ReachesUndeclared(c: FeedClient, airport: string)
  {
    IsAtc(c) && !(Includes(c.callsign, airport) && c.frequency != EarliestQueries.ObserverFrequency)
    && NamesWithoutPrefix(c, airport)
  }

  function ListedAsWritten(airport: string): FeedClient -> bool
  {
    c => NamesAirport(c, airport)
  }

  /** What `getAirportInfo` does as written: undefined for a missing or empty
      code; a ReferenceError as soon as a client reaches the fallback read of
      `controller`; otherwise only the first ATC rule ever lists a controller. */
  function AirportInfoAsWritten(clients: seq<FeedClient>, airport: Option<string>)
    : Option<Result<ClientAirportInfo, QueryError>>
  {
    if airport.None? || airport.value == "" then None
    else if exists i :: 0 <= i < |clients| && ReachesUndeclared(clients[i], airport.value) then
      Some(Fail(ReferenceError))
    else
      Some(Ok(ClientAirportInfo(Filter(clients, PilotsAt(airport.value)),
                                Filter(clients, ListedAsWritten(airport.value)))))
  }

  /** The loop of `getAirportInfo` as written, the fallback branch included. */
  method GetAirportInfoAsWritten(feed: ClientFeed, airport: Option<string>)
    returns (r: Option<Result<ClientAirportInfo, QueryError>>)
    ensures r == AirportInfoAsWritten(feed.clients, airport)
  {
    if airport.None? || airport.value == "" {
      return None;
    }
    var a := airport.value;
    var clients := feed.clients;
    var pilots: seq<FeedClient> := [];
    var controllers: seq<FeedClient> := [];
    var i := 0;
    while i < |clients|
      invariant 0 <= i <= |clients|
      invariant pilots == Filter(clients[..i], PilotsAt(a))
      invariant controllers == Filter(clients[..i], ListedAsWritten(a))
      invariant forall j :: 0 <= j < i ==> !ReachesUndeclared(clients[j], a)
    {
      var client := clients[i];
      assert clients[..i + 1][..i] == clients[..i];
      if client.clientType == "PILOT" {
        if client.plannedDeparture == a || client.plannedDestination == a {
          pilots := pilots + [client];
        }
      } else if client.clientType == "ATC" {
        if Includes(client.callsign, a) && client.frequency != EarliestQueries.ObserverFrequency {
          controllers := controllers + [client];
        } else if Includes(client.callsign, Substr1(a) + "_") {
          // the rest of the condition reads the undeclared `controller`
          assert ReachesUndeclared(clients[i], a);
          return Some(Fail(ReferenceError));
        }
      }
      i := i + 1;
    }
    assert clients[..|clients|] == clients;
    r := Some(Ok(ClientAirportInfo(pilots, controllers)));
  }

  /** The rule the fallback branch evidently means: an ATC client that is no
      observer and whose callsign contains the code, or, for a "K" code, the
      code without the "K" followed by "_". */
  predicate ServesAirport(c: FeedClient, airport: string)
  {
    IsAtc(c) && c.frequency != EarliestQueries.ObserverFrequency
    && (Includes(c.callsign, airport) || (StartsWith(airport, "K") && NamesWithoutPrefix(c, airport)))
  }

  function ControllersAt(airport: string): FeedClient -> bool
  {
    c => ServesAirport(c, airport)
  }

  /** `getAirportInfo(airport)` with the fallback branch reading `client` and
      joining its conditions with `&&`. */
  method GetAirportInfo(feed: ClientFeed, airport: Option<string>) returns (r: Option<ClientAirportInfo>)
    ensures r.None? <==> airport.None? || airport.value == ""
    ensures r.Some? ==> r.value.pilots == Filter(feed.clients, PilotsAt(airport.value))
    ensures r.Some? ==> r.value.controllers == Filter(feed.clients, ControllersAt(airport.value))
  {
    if airport.None? || airport.value == "" {
      return None;
    }
    var a := airport.value;
    var clients := feed.clients;
    var pilots: seq<FeedClient> := [];
    var controllers: seq<FeedClient> := [];
    var i := 0;
    while i < |clients|
      invariant 0 <= i <= |clients|
      invariant pilots == Filter(clients[..i], PilotsAt(a))
      invariant controllers == Filter(clients[..i], ControllersAt(a))
    {
      var client := clients[i];
      assert clients[..i + 1][..i] == clients[..i];
      if client.clientType == "PILOT" {
        if client.plannedDeparture == a || client.plannedDestination == a {
          pilots := pilots + [client];
        }
      } else if client.clientType == "ATC" {
        if Includes(client.callsign, a) && client.frequency != EarliestQueries.ObserverFrequency {
          controllers := controllers + [client];
        } else if Includes(client.callsign, Substr1(a) + "_") && client.frequency != EarliestQueries.ObserverFrequency
               && StartsWith(a, "K") {
          controllers := controllers + [client];
        }
      }
      i := i + 1;
    }
    assert clients[..|clients|] == clients;
    r := Some(ClientAirportInfo(pilots, controllers));
  }

  /** Wherever the code as written resolves, it resolves with what the
      corrected rule lists; and every controller it lists, the corrected rule
      lists too. */
  lemma AsWrittenAgreesWhenItResolves(clients: seq<FeedClient>, airport: string)
    requires airport != ""
    requires AirportInfoAsWritten(clients, Some(airport)).value.Ok?
    ensures AirportInfoAsWritten(clients, Some(airport)).value.value
         == ClientAirportInfo(Filter(clients, PilotsAt(airport)), Filter(clients, ControllersAt(airport)))
  {
    forall i | 0 <= i < |clients|
      ensures ListedAsWritten(airport)(clients[i]) == ControllersAt(airport)(clients[i])
    {
      assert !ReachesUndeclared(clients[i], airport);
    }
    FilterSame(clients, ListedAsWritten(airport), ControllersAt(airport));
  }

  /** The first rule alone never lists a controller the corrected rule leaves out. */
  lemma CorrectedListsMore(clients: seq<FeedClient>, airport: string)
    ensures forall c :: c in Filter(clients, ListedAsWritten(airport)) ==> c in Filter(clients, ControllersAt(airport))
  {
    FilterMembers(clients, ListedAsWritten(airport));
    FilterMembers(clients, ControllersAt(airport));
  }

  /** The tower "JFK_TWR" at KJFK: the code as written rejects with a
      ReferenceError, where the corrected rule lists the tower. */
  lemma UsTowerRejected()
    ensures var tower := FeedClient("JFK_TWR", "ATC", 118300, "", "");
      && AirportInfoAsWritten([tower], Some("KJFK")) == Some(Fail(ReferenceError))
      && Filter([tower], ControllersAt("KJFK")) == [tower]
  {
    var tower := FeedClient("JFK_TWR", "ATC", 118300, "", "");
    assert Substr1("KJFK") + "_" == "JFK_";
    assert StartsWith(tower.callsign, "JFK_");
    assert NamesWithoutPrefix(tower, "KJFK");
    IncludesIffOccurs(tower.callsign, "KJFK");
    assert !Includes(tower.callsign, "KJFK");
    assert ReachesUndeclared([tower][0], "KJFK");
    assert StartsWith("KJFK", "K");
    assert ServesAirport(tower, "KJFK");
    assert [tower][..0] == [];
  }

  // ---------------------------------------------------------------------
  // getPopularAirports and the lookups over `pilots` and `controllers`

  /** `getPopularAirports()`: the same tally over `plan` as the earliest revision. */
  method GetPopularAirports(feed: ClientFeed) returns (r: seq<Tally.AirportCount>)
    ensures r == Tally.Popular(Tally.Endpoints(feed.pilots, EarliestQueries.Departure, EarliestQueries.Arrival))
  {
    r := EarliestQueries.GetPopularAirports(EarliestQueries.LegacyFeed(feed.pilots, feed.controllers));
  }

  function WithCallsign(callsign: string): EarliestQueries.LegacyPilot -> bool
  {
    (p: EarliestQueries.LegacyPilot) => p.callsign == callsign
  }

  /** `getFlightInfo(callsign)`: collect the pilots with this callsign, return the first. */
  method GetFlightInfo(feed: ClientFeed, callsign: string) returns (r: Option<EarliestQueries.LegacyPilot>)
    ensures r == First(feed.pilots, WithCallsign(callsign))
    ensures r.None? <==> forall i :: 0 <= i < |feed.pilots| ==> feed.pilots[i].callsign != callsign
    ensures r.Some? ==> r.value.callsign == callsign && r.value in feed.pilots
  {
    var pilotDetails := Collect(feed.pilots, WithCallsign(callsign));
    r := if |pilotDetails| > 0 then Some(pilotDetails[0]) else None;
  }

  /** `getClientDetails(cid)`: collect the pilots with this member CID, return the first. */
  method GetClientDetails(feed: ClientFeed, cid: int) returns (r: Option<EarliestQueries.LegacyPilot>)
    ensures r == First(feed.pilots, EarliestQueries.WithCid(cid))
    ensures r.None? <==> forall i :: 0 <= i < |feed.pilots| ==> feed.pilots[i].memberCid != cid
    ensures r.Some? ==> r.value.memberCid == cid && r.value in feed.pilots
  {
    r := EarliestQueries.GetClientDetails(EarliestQueries.LegacyFeed(feed.pilots, feed.controllers), cid);
  }

  /** `getSupervisors()`: the controllers rated 11 or 12, in feed order. */
  method GetSupervisors(feed: ClientFeed) returns (r: seq<EarliestQueries.LegacyController>)
    ensures r == Filter(feed.controllers, EarliestQueries.IsSupervisor)
    ensures forall c :: c in r <==> c in feed.controllers && EarliestQueries.IsSupervisor(c)
  {
    r := EarliestQueries.GetSupervisors(EarliestQueries.LegacyFeed(feed.pilots, feed.controllers));
  }

  predicate IsStaffed(c: EarliestQueries.LegacyController)
  {
    c.frequency != EarliestQueries.ObserverFrequency
  }

  /** `getControllers()`: the controllers not on the observer frequency, in feed order. */
  method GetControllers(feed: ClientFeed) returns (r: seq<EarliestQueries.LegacyController>)
    ensures r == Filter(feed.controllers, IsStaffed)
    ensures forall c :: c in r <==> c in feed.controllers && IsStaffed(c)
  {
    r := Collect(feed.controllers, IsStaffed);
    FilterMembers(feed.controllers, IsStaffed);
  }
}
