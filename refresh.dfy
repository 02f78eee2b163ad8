/** The refresh cycle of the data handler: the cached feed file, its backup,
    the staleness test, and the comparison of the backup with the fresh
    download that announces newly connected clients.

    Three revisions of the handler live side by side in the repository and
    differ only in constants and in what an update does:
      - `Current` (src/fileHandler.ts, build/cjs/fileHandler.js): refresh after
        one whole minute; an update backs the file up, downloads, stamps,
        writes, diffs `pilots` and `controllers`, splits the created clients
        by altitude and announces controllers, then pilots;
      - `ClientList` (src/fileHandler.js): refresh after two whole minutes;
        the update diffs the single `clients` list and announces every
        created client as a new controller;
      - `Earliest` (handler.js): refresh after more than two whole minutes;
        an update only downloads, stamps and writes.

    The two files on disk (`vatsimData.json` and `oldData.json`) are fields
    of the handler; the download and the clock are parameters; the events
    sent with `process.emit` / `this.emit` are returned in emission order. */
module Refresh {
  import opened Wrappers
  import opened Seqs
  import opened JsonDiff

  datatype Revision = Current | ClientList | Earliest

  /** A parsed feed: a JSON object. */
  type Document = map<string, Json>

  /** What the download resolves with, or that it rejected. */
  datatype Fetch = Fetched(doc: Document) | FetchFailed

  /** Why a refresh rejects.
      - `FetchError`: the download rejected;
      - `OldFileMissing`: reading the backup threw because there is none;
      - `TypeError`: `client.altitude` was read on a created client that is `null`;
      - `Unmodelled`: a compared list is not an array on both sides, a case
        the model does not follow. */
  datatype RefreshError = FetchError | OldFileMissing | TypeError | Unmodelled

  /** An announcement: the `newController` or `newPilot` event with its clients. */
  datatype Event = NewController(clients: seq<Json>) | NewPilot(clients: seq<Json>)

  // ---------------------------------------------------------------------
  // The stamp and the staleness test

  const StampField: string := "updated_date"

  /** `parsedJSON.updated_date = new Date()`: sets the stamp, nothing else changes. */
  function Stamp(doc: Document, now: int): (r: Document)
    ensures r.Keys == doc.Keys + {StampField}
    ensures r[StampField] == Date(now)
    ensures forall k :: k in doc && k != StampField ==> r[k] == doc[k]
  {
    doc[StampField := Date(now)]
  }

  /** `Date.parse(parsed.updated_date)`: the instant of the stamp, or `None`
      (NaN) when the document carries none. */
  function StampOf(doc: Document): (r: Option<int>)
    ensures r.Some? <==> StampField in doc && doc[StampField].Date?
  {
    if StampField in doc && doc[StampField].Date? then Some(doc[StampField].ms) else None
  }

  /** Writing the stamp and reading it back gives the stamped instant. */
  lemma StampRoundTrip(doc: Document, now: int)
    ensures StampOf(Stamp(doc, now)) == Some(now)
  {
  }

  /** `Math.floor(dateDifference / 60000)`: whole minutes, rounded down. */
  function Minutes(elapsed: int): (m: int)
    ensures m * 60000 <= elapsed < m * 60000 + 60000
  {
    elapsed / 60000
  }

  /** The comparison each revision applies to the whole minutes elapsed. */
  predicate Exceeds(rev: Revision, minutes: int)
  {
    match rev
    case Current => minutes >= 1
    case ClientList => minutes >= 2
    case Earliest => minutes > 2
  }

  /** The file is stale when its stamp is far enough in the past; a missing
      stamp gives NaN, and every comparison with NaN is false. */
  predicate IsStale(rev: Revision, stamp: Option<int>, now: int)
  {
    stamp.Some? && Exceeds(rev, Minutes(now - stamp.value))
  }

  /** The age, in milliseconds, from which each revision refreshes. */
  function WaitMs(rev: Revision): nat
  {
    match rev
    case Current => 60000
    case ClientList => 120000
    case Earliest => 180000
  }

  /** Staleness in milliseconds: one, two or three full minutes must have passed. */
  lemma StaleIff(rev: Revision, stamp: int, now: int)
    ensures IsStale(rev, Some(stamp), now) <==> now - stamp >= WaitMs(rev)
  {
    var m := Minutes(now - stamp);
    if now - stamp >= WaitMs(rev) {
      assert m * 60000 + 60000 > WaitMs(rev);
    }
  }

  /** The earliest revision refreshes once more than two whole minutes, that
      is at least three minutes, have passed. */
  lemma EarliestWaitsThreeMinutes(stamp: int, now: int)
    ensures IsStale(Earliest, Some(stamp), now) <==> now - stamp >= 180000
  {
    StaleIff(Earliest, stamp, now);
  }

  /** The client-list revision refreshes once two whole minutes have passed. */
  lemma ClientListWaitsTwoMinutes(stamp: int, now: int)
    ensures IsStale(ClientList, Some(stamp), now) <==> now - stamp >= 120000
  {
    StaleIff(ClientList, stamp, now);
  }

  /** A file stamped at `now` is never stale at `now`. */
  lemma FreshNotStale(rev: Revision, doc: Document, now: int)
    ensures !IsStale(rev, StampOf(Stamp(doc, now)), now)
  {
    StampRoundTrip(doc, now);
    StaleIff(rev, now, now);
  }

  // ---------------------------------------------------------------------
  // The download mirror

  /** `Math.floor(Math.random() * list.length)` for a random number in [0, 1). */
  function MirrorIndex(random: real, n: nat): (i: int)
    requires 0.0 <= random < 1.0
    ensures 0 <= i
    ensures n > 0 ==> i < n
    ensures n == 0 ==> i == 0
  {
    assert n > 0 ==> random * (n as real) < n as real;
    (random * (n as real)).Floor
  }

  /** The mirror picked from a list; `None` (an undefined URL) when the list is empty. */
  function PickMirror(urls: seq<string>, random: real): (r: Option<string>)
    requires 0.0 <= random < 1.0
    ensures r.None? <==> urls == []
    ensures r.Some? ==> r.value in urls
  {
    var i := MirrorIndex(random, |urls|);
    if i < |urls| then Some(urls[i]) else None
  }

  /** The fixed mirror list of the earlier revisions. */
  const Mirrors: seq<string> := [
    "http://us.data.vatsim.net/vatsim-data.json",
    "http://eu.data.vatsim.net/vatsim-data.json",
    "http://apac.data.vatsim.net/vatsim-data.json"
  ]

  /** Every random draw picks one of the three fixed mirrors. */
  lemma FixedMirrorAlwaysPicked(random: real)
    requires 0.0 <= random < 1.0
    ensures PickMirror(Mirrors, random).Some?
  {
  }

  // ---------------------------------------------------------------------
  // Classifying the diff entries into buckets

  /** `result[type]`, an empty list when the bucket was never created. */
  function Bucket(result: map<Tag, seq<Json>>, t: Tag): seq<Json>
  {
    if t in result then result[t] else []
  }

  /** A bucket is created with its first element, so none is ever empty. */
  predicate NonEmptyBuckets(result: map<Tag, seq<Json>>)
  {
    forall t :: t in result ==> result[t] != []
  }

  /** `for (const {type, data} of Object.values(diff))`: pushes the data of
      every leaf entry onto the bucket of its tag, creating the bucket with
      that element the first time. A nested diff has no `type` and does not
      reach a tag's bucket. */
  method Classify(result: map<Tag, seq<Json>>, entries: seq<Diff>) returns (r: map<Tag, seq<Json>>)
    requires NonEmptyBuckets(result)
    ensures NonEmptyBuckets(r)
    ensures forall t :: Bucket(r, t) == Bucket(result, t) + Tagged(entries, t)
  {
    r := result;
    var i := 0;
    while i < |entries|
      invariant 0 <= i <= |entries|
      invariant NonEmptyBuckets(r)
      invariant forall t :: Bucket(r, t) == Bucket(result, t) + Tagged(entries[..i], t)
    {
      var e := entries[i];
      if e.Leaf? {
        if e.tag in r {
          r := r[e.tag := r[e.tag] + [e.data]];
        } else {
          r := r[e.tag := [e.data]];
        }
      }
      forall t ensures Tagged(entries[..i + 1], t) == Tagged(entries[..i], t) + (if e.Leaf? && e.tag == t then [e.data] else []) {
        TaggedPrefix(entries, i + 1, t);
      }
      i := i + 1;
    }
    assert entries[..|entries|] == entries;
  }

  // ---------------------------------------------------------------------
  // Splitting the created clients by altitude

  /** JavaScript truthiness. */
  predicate Truthy(j: Json)
  {
    match j
    case Absent => false
    case Null => false
    case Bool(b) => b
    case Num(n) => n != 0
    case Str(s) => s != ""
    case _ => true
  }

  /** `client.altitude` is truthy: the client is treated as a pilot in flight.
      A pilot on the ground (altitude 0) is treated as a controller. */
  predicate Airborne(c: Json)
  {
    Truthy(Child(c, "altitude"))
  }

  predicate Grounded(c: Json)
  {
    !Airborne(c)
  }

  /** Reading a property of `null` or `undefined` throws. */
  predicate HasNoProperties(c: Json)
  {
    c == Null || c == Absent
  }

  /** The loop over `result.created`: clients with a truthy altitude go to the
      new pilots, the others to the new controllers, each in created order;
      the first client without properties makes the loop throw. */
  method SplitByAltitude(created: seq<Json>) returns (r: Result<(seq<Json>, seq<Json>), RefreshError>)
    ensures r.Fail? <==> exists i :: 0 <= i < |created| && HasNoProperties(created[i])
    ensures r.Fail? ==> r.error == TypeError
    ensures r.Ok? ==> r.value == (Filter(created, Airborne), Filter(created, Grounded))
  {
    var pilots: seq<Json> := [];
    var controllers: seq<Json> := [];
    var i := 0;
    while i < |created|
      invariant 0 <= i <= |created|
      invariant forall j :: 0 <= j < i ==> !HasNoProperties(created[j])
      invariant pilots == Filter(created[..i], Airborne)
      invariant controllers == Filter(created[..i], Grounded)
    {
      var client := created[i];
      if HasNoProperties(client) {
        return Fail(TypeError);
      }
      assert created[..i + 1][..i] == created[..i];
      if Truthy(Child(client, "altitude")) {
        pilots := pilots + [client];
      } else {
        controllers := controllers + [client];
      }
      i := i + 1;
    }
    assert created[..|created|] == created;
    r := Ok((pilots, controllers));
  }

  /** The events of one update: new controllers first, then new pilots, each
      only when its list is non-empty. */
  function Emissions(pilots: seq<Json>, controllers: seq<Json>): (r: seq<Event>)
    ensures |r| == (if controllers != [] then 1 else 0) + (if pilots != [] then 1 else 0)
    ensures r == [] <==> pilots == [] && controllers == []
    ensures NewController(controllers) in r <==> controllers != []
    ensures NewPilot(pilots) in r <==> pilots != []
    ensures forall i :: 0 <= i < |r| ==> r[i] == NewController(controllers) || r[i] == NewPilot(pilots)
    ensures controllers != [] ==> r[0] == NewController(controllers)
  {
    (if controllers != [] then [NewController(controllers)] else [])
      + (if pilots != [] then [NewPilot(pilots)] else [])
  }

  // ---------------------------------------------------------------------
  // What an update announces

  /** The value of a top-level field, `undefined` when absent. */
  function Field(doc: Document, name: string): Json
  {
    if name in doc then doc[name] else Absent
  }

  /** The `created` bucket contributed by diffing one list field: the data of
      the created entries of `Object.values(compareJson.map(old, new))`. */
  function CreatedOf(before: Json, after: Json): (r: Result<seq<Json>, RefreshError>)
    ensures r.Fail? <==> !(before.Arr? && after.Arr?)
    ensures r.Fail? ==> r.error == Unmodelled
  {
    if before.Arr? && after.Arr? then Ok(Tagged(ArrayEntries(before.items, after.items), Created))
    else Fail(Unmodelled)
  }

  /** The `created` bucket of the current revision: the created pilots, then
      the created controllers. */
  function CreatedClients(prev: Document, next: Document): (r: Result<seq<Json>, RefreshError>)
    ensures r.Fail? ==> r.error == Unmodelled
  {
    var pilots := CreatedOf(Field(prev, "pilots"), Field(next, "pilots"));
    var controllers := CreatedOf(Field(prev, "controllers"), Field(next, "controllers"));
    if pilots.Fail? || controllers.Fail? then Fail(Unmodelled)
    else Ok(pilots.value + controllers.value)
  }

  /** What the split of the created clients announces, or the `TypeError` it throws. */
  function Announce(created: seq<Json>): Result<seq<Event>, RefreshError>
  {
    if exists i :: 0 <= i < |created| && HasNoProperties(created[i]) then Fail(TypeError)
    else Ok(Emissions(Filter(created, Airborne), Filter(created, Grounded)))
  }

  /** The current revision's announcements for a backup `prev` and a new file `next`. */
  function CurrentEvents(prev: Document, next: Document): Result<seq<Event>, RefreshError>
  {
    var created := CreatedClients(prev, next);
    if created.Fail? then Fail(created.error) else Announce(created.value)
  }

  /** The client-list revision's announcements: every created client, as new controllers. */
  function ClientListEvents(prev: Document, next: Document): Result<seq<Event>, RefreshError>
  {
    var created := CreatedOf(Field(prev, "clients"), Field(next, "clients"));
    if created.Fail? then Fail(created.error)
    else if created.value == [] then Ok([])
    else Ok([NewController(created.value)])
  }

  /** The outcome of an update once the new file `next` is written, given the backup. */
  function RefreshOutcome(rev: Revision, backup: Option<Document>, next: Document): Result<seq<Event>, RefreshError>
  {
    match rev
    case Earliest => Ok([])
    case Current => if backup.None? then Fail(OldFileMissing) else CurrentEvents(backup.value, next)
    case ClientList => if backup.None? then Fail(OldFileMissing) else ClientListEvents(backup.value, next)
  }

  /** The comparison step of the client-list revision's `update`. */
  method AnnounceClients(prev: Document, next: Document) returns (outcome: Result<seq<Event>, RefreshError>)
    ensures outcome == ClientListEvents(prev, next)
  {
    var before, after := Field(prev, "clients"), Field(next, "clients");
    if !(before.Arr? && after.Arr?) {
      return Fail(Unmodelled);
    }
    var result := Classify(map[], ArrayEntries(before.items, after.items));
    assert Bucket(result, Created) == Tagged(ArrayEntries(before.items, after.items), Created);
    if Created in result {
      outcome := Ok([NewController(result[Created])]);
    } else {
      outcome := Ok([]);
    }
  }

  /** The two classification loops of the current revision: the pilot diff's
      entries, then the controller diff's, into one set of buckets. */
  method ClassifyLists(pilotsBefore: seq<Json>, pilotsAfter: seq<Json>,
                       controllersBefore: seq<Json>, controllersAfter: seq<Json>)
    returns (result: map<Tag, seq<Json>>)
    ensures NonEmptyBuckets(result)
    ensures forall t :: Bucket(result, t)
                     == Tagged(ArrayEntries(pilotsBefore, pilotsAfter), t)
                        + Tagged(ArrayEntries(controllersBefore, controllersAfter), t)
  {
    result := Classify(map[], ArrayEntries(pilotsBefore, pilotsAfter));
    result := Classify(result, ArrayEntries(controllersBefore, controllersAfter));
  }

  /** The comparison step of the current revision's `update`: pilots, then
      controllers, into one set of buckets; the created ones split by altitude. */
  method AnnounceNewClients(prev: Document, next: Document) returns (outcome: Result<seq<Event>, RefreshError>)
    ensures outcome == CurrentEvents(prev, next)
  {
    var pilotsBefore, pilotsAfter := Field(prev, "pilots"), Field(next, "pilots");
    var controllersBefore, controllersAfter := Field(prev, "controllers"), Field(next, "controllers");
    if !(pilotsBefore.Arr? && pilotsAfter.Arr? && controllersBefore.Arr? && controllersAfter.Arr?) {
      return Fail(Unmodelled);
    }
    var result := ClassifyLists(pilotsBefore.items, pilotsAfter.items, controllersBefore.items, controllersAfter.items);
    if Created !in result {
      return Ok([]);
    }
    var split := SplitByAltitude(result[Created]);
    if split.Fail? {
      return Fail(split.error);
    }
    outcome := Ok(Emissions(split.value.0, split.value.1));
  }

  // ---------------------------------------------------------------------
  // What the announcements contain

  /** A list read back from a JSON file never holds `undefined`. */
  predicate ParsedList(j: Json)
  {
    j.Arr? && Absent !in j.items
  }

  /** The created clients of one list are exactly the elements of the new list
      beyond the old list's length, in order: a client that moves to a
      different position is reported as updated, not created. */
  lemma CreatedAreAppended(before: Json, after: Json)
    requires ParsedList(before) && ParsedList(after)
    ensures CreatedOf(before, after) == Ok(Tail(after.items, |before.items|))
  {
    CreatedAreTail(before.items, after.items);
  }

  /** No diff entry carries the tag `t`, so its bucket stays empty. */
  lemma {:induction false} TaggedNone(entries: seq<Diff>, t: Tag)
    requires forall i :: 0 <= i < |entries| ==> !(entries[i].Leaf? && entries[i].tag == t)
    ensures Tagged(entries, t) == []
    decreases |entries|
  {
    if entries != [] {
      TaggedNone(entries[..|entries| - 1], t);
    }
  }

  /** Comparing a list with itself creates nothing. */
  lemma NothingCreatedFromSelf(items: seq<Json>)
    ensures CreatedOf(Arr(items), Arr(items)) == Ok([])
  {
    var entries := ArrayEntries(items, items);
    forall i | 0 <= i < |entries| ensures !(entries[i].Leaf? && entries[i].tag == Created) {
      CompareSelf(At(items, i));
    }
    TaggedNone(entries, Created);
  }

  /** When neither list changed, an update of the current revision announces nothing. */
  lemma UnchangedFeedAnnouncesNothing(prev: Document, next: Document)
    requires Field(prev, "pilots") == Field(next, "pilots") && Field(prev, "pilots").Arr?
    requires Field(prev, "controllers") == Field(next, "controllers") && Field(prev, "controllers").Arr?
    ensures CurrentEvents(prev, next) == Ok([])
  {
    NothingCreatedFromSelf(Field(prev, "pilots").items);
    NothingCreatedFromSelf(Field(prev, "controllers").items);
  }

  /** The split by altitude loses no client and duplicates none. */
  lemma {:induction false} SplitKeepsEveryClient(created: seq<Json>)
    ensures multiset(Filter(created, Airborne)) + multiset(Filter(created, Grounded)) == multiset(created)
  {
    var kept := multiset(Filter(created, Airborne)) + multiset(Filter(created, Grounded));
    forall x ensures kept[x] == multiset(created)[x] {
      FilterCount(created, Airborne, x);
      FilterCount(created, Grounded, x);
    }
  }

  /** Every announced client is a created one, and each created client is
      announced exactly once, in one of the two events. */
  lemma AnnouncedAreCreated(prev: Document, next: Document)
    requires CurrentEvents(prev, next).Ok?
    requires ParsedList(Field(prev, "pilots")) && ParsedList(Field(next, "pilots"))
    requires ParsedList(Field(prev, "controllers")) && ParsedList(Field(next, "controllers"))
    ensures var created := Tail(Field(next, "pilots").items, |Field(prev, "pilots").items|)
                           + Tail(Field(next, "controllers").items, |Field(prev, "controllers").items|);
      CurrentEvents(prev, next) == Ok(Emissions(Filter(created, Airborne), Filter(created, Grounded)))
      && multiset(Filter(created, Airborne)) + multiset(Filter(created, Grounded)) == multiset(created)
  {
    CreatedAreAppended(Field(prev, "pilots"), Field(next, "pilots"));
    CreatedAreAppended(Field(prev, "controllers"), Field(next, "controllers"));
    var created := Tail(Field(next, "pilots").items, |Field(prev, "pilots").items|)
                   + Tail(Field(next, "controllers").items, |Field(prev, "controllers").items|);
    SplitKeepsEveryClient(created);
  }

  /** The client-list revision announces at most one event, holding every
      client appended to the list. */
  lemma ClientListAnnouncesAppended(prev: Document, next: Document)
    requires ParsedList(Field(prev, "clients")) && ParsedList(Field(next, "clients"))
    ensures var appended := Tail(Field(next, "clients").items, |Field(prev, "clients").items|);
      ClientListEvents(prev, next) == Ok(if appended == [] then [] else [NewController(appended)])
  {
    CreatedAreAppended(Field(prev, "clients"), Field(next, "clients"));
  }

  /** The created clients of the current revision, when all four lists parse. */
  lemma CreatedClientsAppended(prev: Document, next: Document)
    requires ParsedList(Field(prev, "pilots")) && ParsedList(Field(next, "pilots"))
    requires ParsedList(Field(prev, "controllers")) && ParsedList(Field(next, "controllers"))
    ensures CreatedClients(prev, next)
         == Ok(Tail(Field(next, "pilots").items, |Field(prev, "pilots").items|)
               + Tail(Field(next, "controllers").items, |Field(prev, "controllers").items|))
  {
    CreatedAreAppended(Field(prev, "pilots"), Field(next, "pilots"));
    CreatedAreAppended(Field(prev, "controllers"), Field(next, "controllers"));
  }

  /** A pilot in flight and a controller created in that order are announced
      controller first. */
  lemma AnnounceControllerThenPilot(p: Json, c: Json)
    requires Airborne(p) && !HasNoProperties(p)
    requires Grounded(c) && !HasNoProperties(c)
    ensures Announce([p, c]) == Ok([NewController([c]), NewPilot([p])])
  {
    var created := [p, c];
    assert created[..1] == [p];
    assert Filter([p], Airborne) == [p];
    assert Filter([p], Grounded) == [];
    assert Filter(created, Airborne) == [p];
    assert Filter(created, Grounded) == [c];
    assert Emissions([p], [c]) == [NewController([c]), NewPilot([p])];
    assert !exists i :: 0 <= i < |created| && HasNoProperties(created[i]);
  }

  /** A controller B joins after A and a pilot P2 in flight joins after P1:
      the update announces `newController` with B, then `newPilot` with P2. */
  lemma NewControllerThenNewPilot(a: Json, b: Json, p1: Json, p2: Json)
    requires a.Obj? && b.Obj? && p1.Obj? && p2.Obj?
    requires "altitude" !in b.fields
    requires "altitude" in p2.fields && p2.fields["altitude"] == Num(35000)
    ensures var prev := map["pilots" := Arr([p1]), "controllers" := Arr([a])];
            var next := map["pilots" := Arr([p1, p2]), "controllers" := Arr([a, b])];
      CurrentEvents(prev, next) == Ok([NewController([b]), NewPilot([p2])])
  {
    var prev := map["pilots" := Arr([p1]), "controllers" := Arr([a])];
    var next := map["pilots" := Arr([p1, p2]), "controllers" := Arr([a, b])];
    assert Field(prev, "pilots") == Arr([p1]) && Field(next, "pilots") == Arr([p1, p2]);
    assert Field(prev, "controllers") == Arr([a]) && Field(next, "controllers") == Arr([a, b]);
    CreatedClientsAppended(prev, next);
    assert Tail([p1, p2], 1) + Tail([a, b], 1) == [p2, b];
    AnnounceControllerThenPilot(p2, b);
  }

  /** A pilot that connects on the ground (altitude 0) is announced as a new controller. */
  lemma ParkedPilotAnnouncedAsController(g: Json)
    requires g.Obj? && "altitude" in g.fields && g.fields["altitude"] == Num(0)
    ensures var prev := map["pilots" := Arr([]), "controllers" := Arr([])];
            var next := map["pilots" := Arr([g]), "controllers" := Arr([])];
      CurrentEvents(prev, next) == Ok([NewController([g])])
  {
    var prev := map["pilots" := Arr([]), "controllers" := Arr([])];
    var next := map["pilots" := Arr([g]), "controllers" := Arr([])];
    assert Field(prev, "pilots") == Arr([]) && Field(next, "pilots") == Arr([g]);
    assert Field(prev, "controllers") == Arr([]) && Field(next, "controllers") == Arr([]);
    CreatedClientsAppended(prev, next);
    assert Tail([g], 0) + Tail([], 0) == [g];
    assert CreatedClients(prev, next) == Ok([g]);
    assert !Airborne(g);
    assert Filter([g], Airborne) == [];
    assert Filter([g], Grounded) == [g];
    assert Emissions([], [g]) == [NewController([g])];
    assert !exists i :: 0 <= i < |[g]| && HasNoProperties([g][i]);
  }

  // ---------------------------------------------------------------------
  // The handler

  class FileHandler {
    const revision: Revision
    /** `vatsimData.json`, when it exists. */
    var data: Option<Document>
    /** `oldData.json`, when it exists. */
    var backup: Option<Document>

    /** A handler over the files already on disk. */
    constructor (revision: Revision, data: Option<Document>, backup: Option<Document>)
      ensures this.revision == revision && this.data == data && this.backup == backup
    {
      this.revision := revision;
      this.data := data;
      this.backup := backup;
    }

    /** `initialUpdate`: download, stamp and write the file. */
    method InitialUpdate(fetched: Fetch, now: int) returns (outcome: Result<seq<Event>, RefreshError>)
      modifies this
      ensures backup == old(backup)
      ensures fetched.FetchFailed? ==> data == old(data) && outcome == Fail(FetchError)
      ensures fetched.Fetched? ==> data == Some(Stamp(fetched.doc, now)) && outcome == Ok([])
    {
      if fetched.FetchFailed? {
        return Fail(FetchError);
      }
      data := Some(Stamp(fetched.doc, now));
      outcome := Ok([]);
    }

    /** `update`: copy the file to the backup (when there is a file to copy;
        the earliest revision keeps no backup), download, stamp and write the
        new file, then compare it with the backup and announce what was created. */
    method Update(fetched: Fetch, now: int) returns (outcome: Result<seq<Event>, RefreshError>)
      modifies this
      ensures backup == if revision != Earliest && old(data).Some? then old(data) else old(backup)
      ensures fetched.FetchFailed? ==> data == old(data) && outcome == Fail(FetchError)
      ensures fetched.Fetched? ==> data == Some(Stamp(fetched.doc, now))
      ensures fetched.Fetched? ==> outcome == RefreshOutcome(revision, backup, data.value)
    {
      if revision != Earliest && data.Some? {
        backup := data;
      }
      if fetched.FetchFailed? {
        return Fail(FetchError);
      }
      var next := Stamp(fetched.doc, now);
      data := Some(next);
      if revision == Earliest {
        return Ok([]);
      }
      if backup.None? {
        return Fail(OldFileMissing);
      }
      if revision == ClientList {
        outcome := AnnounceClients(backup.value, next);
      } else {
        outcome := AnnounceNewClients(backup.value, next);
      }
    }

    /** `shouldUpdate`: create the file when it does not exist yet, then
        refresh it when it is stale. Resolves (with `false`) with the events
        announced along the way. */
    method ShouldUpdate(initial: Fetch, refresh: Fetch, now: int) returns (outcome: Result<seq<Event>, RefreshError>)
      modifies this
      ensures outcome.Ok? ==> data.Some?
      ensures old(data).None? && initial.FetchFailed? ==>
        outcome == Fail(FetchError) && data == None && backup == old(backup)
      ensures old(data).None? && initial.Fetched? ==>
        outcome == Ok([]) && data == Some(Stamp(initial.doc, now)) && backup == old(backup)
      ensures old(data).Some? && !IsStale(revision, StampOf(old(data).value), now) ==>
        outcome == Ok([]) && data == old(data) && backup == old(backup)
      ensures old(data).Some? && IsStale(revision, StampOf(old(data).value), now) ==>
        && backup == (if revision != Earliest then old(data) else old(backup))
        && (refresh.FetchFailed? ==> data == old(data) && outcome == Fail(FetchError))
        && (refresh.Fetched? ==> data == Some(Stamp(refresh.doc, now))
                                 && outcome == RefreshOutcome(revision, backup, data.value))
    {
      if data.None? {
        outcome := InitialUpdate(initial, now);
        if outcome.Fail? {
          return;
        }
        FreshNotStale(revision, initial.doc, now);
      }
      var stamp := StampOf(data.value);
      if IsStale(revision, stamp, now) {
        outcome := Update(refresh, now);
      } else {
        outcome := Ok([]);
      }
    }

    /** `loadFile`: make sure the file is fresh, then read it. */
    method LoadFile(initial: Fetch, refresh: Fetch, now: int) returns (r: Result<Document, RefreshError>)
      modifies this
      ensures r.Ok? ==> data.Some? && r.value == data.value
      ensures old(data).None? && initial.FetchFailed? ==>
        r == Fail(FetchError) && data == None && backup == old(backup)
      ensures old(data).None? && initial.Fetched? ==>
        r == Ok(Stamp(initial.doc, now)) && backup == old(backup)
      ensures old(data).Some? && !IsStale(revision, StampOf(old(data).value), now) ==>
        r == Ok(old(data).value) && data == old(data) && backup == old(backup)
      ensures old(data).Some? && IsStale(revision, StampOf(old(data).value), now) ==>
        && backup == (if revision != Earliest then old(data) else old(backup))
        && (refresh.FetchFailed? ==> r == Fail(FetchError) && data == old(data))
        && (refresh.Fetched? ==>
              && data == Some(Stamp(refresh.doc, now))
              && var outcome := RefreshOutcome(revision, backup, Stamp(refresh.doc, now));
                 r == if outcome.Ok? then Ok(Stamp(refresh.doc, now)) else Fail(outcome.error))
    {
      var outcome := ShouldUpdate(initial, refresh, now);
      if outcome.Fail? {
        return Fail(outcome.error);
      }
      r := Ok(data.value);
    }
  }
}
