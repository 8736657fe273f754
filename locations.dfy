/**
 * The location relay (index.py): `LocationsWorker`, an append-only list of saved locations
 * with a cursor to the last one handed out, and the presence check of `location_send`.
 */
module Locations {

  /** A JSON value as `request.get_json()` decodes it (numbers as reals). */
  datatype Json =
    | Null
    | Bool(b: bool)
    | Number(n: real)
    | Str(s: string)
    | Array(items: seq<Json>)
    | Object(fields: map<string, Json>)

  /** Python truthiness of a decoded JSON value: null, false, 0, "", [] and {} are falsy. */
  predicate Truthy(v: Json) {
    match v
    case Null => false
    case Bool(b) => b
    case Number(n) => n != 0.0
    case Str(s) => s != ""
    case Array(items) => items != []
    case Object(fields) => fields != map[]
  }

  /** `data.get(field, False)`. */
  function GetOrFalse(data: map<string, Json>, field: string): Json {
    if field in data then data[field] else Bool(false)
  }

  /** The request check of `location_send`: both `long` and `lat` present and truthy. */
  function HasCoordinates(data: map<string, Json>): (ok: bool)
    ensures ok <==> "long" in data && "lat" in data && Truthy(data["long"]) && Truthy(data["lat"])
  {
    Truthy(GetOrFalse(data, "long")) && Truthy(GetOrFalse(data, "lat"))
  }

  /** A coordinate of exactly 0 is rejected like a missing one. */
  lemma ZeroCoordinateRejected(data: map<string, Json>)
    requires ("long" in data && data["long"] == Number(0.0)) || ("lat" in data && data["lat"] == Number(0.0))
    ensures !HasCoordinates(data)
  {
  }

  /** The tuple `(datetime.now().isoformat(), long, lat)` that `location_send` saves. */
  datatype Location = Location(savedAt: string, long: Json, lat: Json)

  /**
   * The abstract state of a `LocationsWorker`: everything saved, in save order, and the
   * index of the last location handed out (-1: none yet).
   */
  datatype Feed = Feed(locations: seq<Location>, lastGiven: int) {

    /** The cursor never passes the end of the list. */
    predicate Valid() {
      -1 <= lastGiven <= |locations| - 1
    }

    /** `save_location`. */
    function Save(loc: Location): Feed {
      this.(locations := locations + [loc])
    }

    /** `get_locations`: the batch returned and the state afterwards. */
    function Get(): (seq<Location>, Feed)
      requires Valid()
    {
      (locations[lastGiven + 1..], this.(lastGiven := |locations| - 1))
    }
  }

  /** A freshly constructed worker. */
  const Initial: Feed := Feed([], -1)

  /** `save_location` appends at the end; earlier entries and the cursor stay as they were. */
  lemma SaveAppends(f: Feed, loc: Location)
    requires f.Valid()
    ensures f.Save(loc).Valid()
    ensures |f.Save(loc).locations| == |f.locations| + 1
    ensures f.Save(loc).locations[..|f.locations|] == f.locations
    ensures f.Save(loc).locations[|f.locations|] == loc
    ensures f.Save(loc).lastGiven == f.lastGiven
  {
  }

  /**
   * `get_locations` hands out exactly what follows the cursor, leaves the list alone and
   * moves the cursor to the last entry.
   */
  lemma GetHandsOutUnseen(f: Feed)
    requires f.Valid()
    ensures f.locations == f.locations[..f.lastGiven + 1] + f.Get().0
    ensures f.Get().1.locations == f.locations
    ensures f.Get().1.lastGiven == |f.locations| - 1
    ensures f.Get().1.Valid()
  {
  }

  /** A second `get_locations` with no `save_location` in between returns nothing. */
  lemma SecondGetIsEmpty(f: Feed)
    requires f.Valid()
    ensures f.Get().1.Get().0 == []
  {
  }

  /** One call on the worker. */
  datatype Call = SaveLocation(loc: Location) | GetLocations

  /**
   * The state reached by running `calls` on a fresh worker, and the batches returned by its
   * `get_locations` calls, in order.
   */
  function Replay(calls: seq<Call>): (r: (Feed, seq<seq<Location>>))
    ensures r.0.Valid()
  {
    if calls == [] then (Initial, [])
    else
      var (f, batches) := Replay(calls[..|calls| - 1]);
      match calls[|calls| - 1]
      case SaveLocation(loc) => (f.Save(loc), batches)
      case GetLocations => (f.Get().1, batches + [f.Get().0])
  }

  /** The locations saved by `calls`, in save order. */
  function Saved(calls: seq<Call>): seq<Location> {
    if calls == [] then []
    else
      match calls[|calls| - 1]
      case SaveLocation(loc) => Saved(calls[..|calls| - 1]) + [loc]
      case GetLocations => Saved(calls[..|calls| - 1])
  }

  /** The batches one after the other. */
  function Flatten(batches: seq<seq<Location>>): seq<Location> {
    if batches == [] then [] else Flatten(batches[..|batches| - 1]) + batches[|batches| - 1]
  }

  /**
   * Whatever the calls, the worker holds the saved locations in save order, and the batches
   * handed out so far, one after the other, are exactly the saved locations up to the cursor:
   * each handed out once, in save order.
   */
  lemma {:induction false} HandedOutInSaveOrder(calls: seq<Call>)
    ensures Replay(calls).0.locations == Saved(calls)
    ensures Flatten(Replay(calls).1) == Saved(calls)[..Replay(calls).0.lastGiven + 1]
  {
    if calls != [] {
      var prefix := calls[..|calls| - 1];
      HandedOutInSaveOrder(prefix);
      var f := Replay(prefix).0;
      match calls[|calls| - 1]
      case SaveLocation(loc) =>
        assert Saved(calls)[..f.lastGiven + 1] == Saved(prefix)[..f.lastGiven + 1];
      case GetLocations =>
        GetHandsOutUnseen(f);
    }
  }

  /** After a final `get_locations`, every saved location has been handed out exactly once. */
  lemma DrainHandsOutAll(calls: seq<Call>)
    requires calls != [] && calls[|calls| - 1] == GetLocations
    ensures Flatten(Replay(calls).1) == Saved(calls)
  {
    HandedOutInSaveOrder(calls);
  }

  class LocationsWorker {
    var locations: seq<Location>
    var lastGiven: int

    function Snapshot(): Feed
      reads this
    {
      Feed(locations, lastGiven)
    }

    ghost predicate Valid()
      reads this
    {
      Snapshot().Valid()
    }

    /** `__init__`: nothing saved, nothing handed out. */
    constructor ()
      ensures Valid() && Snapshot() == Initial
    {
      locations := [];
      lastGiven := -1;
    }

    /** `save_location`. */
    method SaveLocation(loc: Location)
      requires Valid()
      modifies this
      ensures Valid()
      ensures Snapshot() == old(Snapshot()).Save(loc)
    {
      locations := locations + [loc];
    }

    /** `get_locations`. */
    method GetLocations() returns (batch: seq<Location>)
      requires Valid()
      modifies this
      ensures Valid()
      ensures (batch, Snapshot()) == old(Snapshot()).Get()
    {
      batch := locations[lastGiven + 1..];
      lastGiven := |locations| - 1;
    }
  }

  /**
   * `location_send`: 400 and nothing saved unless both coordinates are present and truthy;
   * otherwise the location, stamped with `savedAt`, is saved and the answer is 200.
   */
  method LocationSend(worker: LocationsWorker, data: map<string, Json>, savedAt: string)
    returns (status: int)
    requires worker.Valid()
    modifies worker
    ensures worker.Valid()
    ensures !HasCoordinates(data) ==> status == 400 && worker.Snapshot() == old(worker.Snapshot())
    ensures HasCoordinates(data) ==>
              && status == 200
              && worker.Snapshot() == old(worker.Snapshot()).Save(Location(savedAt, data["long"], data["lat"]))
  {
    if !HasCoordinates(data) {
      return 400;
    }
    worker.SaveLocation(Location(savedAt, data["long"], data["lat"]));
    status := 200;
  }
}
