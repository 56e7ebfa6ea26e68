/** The address stage, `getAddressData` (newProcessSubmission.ts:44-66): pick the
    vicinity of the first reverse-geocoding result that is not a transit station. */
module AddressResolver {
  import opened SubmissionTypes

  /** One entry of the geocoder's `results`: its short address and its category labels. */
  datatype Place = Place(vicinity: string, types: seq<string>)

  /** The geocoder's reply as the stage sees it: the request or the reading of its
      payload failed (the `catch` branch), or the ordered `results`. */
  datatype GeocodeReply = FetchFailed | Results(results: seq<Place>)

  /** `{ address }` or `{ error }`, never both. */
  datatype AddressResult = AddressFound(address: string) | AddressError(error: string)

  const TransitStation := "transit_station"
  const NoBusinessesNearby := "No businesses found nearby"
  const FetchFailedMessage := "An error occured while fetching the address"

  predicate IsTransit(p: Place) {
    TransitStation in p.types
  }

  /** The vicinity of the first non-transit entry, if there is one. */
  function FirstVicinity(results: seq<Place>): Option<string> {
    if results == [] then None
    else if !IsTransit(results[0]) then Some(results[0].vicinity)
    else FirstVicinity(results[1..])
  }

  /** What the stage returns for a given geocoder reply. */
  function ResolveAddress(reply: GeocodeReply): AddressResult {
    match reply
    case FetchFailed => AddressError(FetchFailedMessage)
    case Results(results) =>
      match FirstVicinity(results)
      case Some(v) => AddressFound(v)
      case None => AddressError(NoBusinessesNearby)
  }

  /** The entry at `i` is the first non-transit one, so its vicinity is selected. */
  lemma {:induction false} FirstVicinityAt(results: seq<Place>, i: int)
    requires 0 <= i < |results| && !IsTransit(results[i])
    requires forall j | 0 <= j < i :: IsTransit(results[j])
    ensures FirstVicinity(results) == Some(results[i].vicinity)
    decreases i
  {
    if i > 0 {
      assert IsTransit(results[0]);
      FirstVicinityAt(results[1..], i - 1);
    }
  }

  /** Nothing is selected exactly when every entry is a transit station (in particular
      when there are no entries). */
  lemma {:induction false} FirstVicinityNone(results: seq<Place>)
    ensures FirstVicinity(results) == None <==> forall i | 0 <= i < |results| :: IsTransit(results[i])
    decreases |results|
  {
    if results != [] {
      FirstVicinityNone(results[1..]);
      if IsTransit(results[0]) {
        forall i | 1 <= i < |results| ensures IsTransit(results[i]) == IsTransit(results[1..][i - 1]) { }
      }
    }
  }

  /** Whatever is selected is the vicinity of the first non-transit entry. */
  lemma {:induction false} FirstVicinityFound(results: seq<Place>)
    requires FirstVicinity(results).Some?
    ensures exists i | 0 <= i < |results| ::
      !IsTransit(results[i]) && (forall j | 0 <= j < i :: IsTransit(results[j])) &&
      FirstVicinity(results).value == results[i].vicinity
    decreases |results|
  {
    if IsTransit(results[0]) {
      var rest := results[1..];
      FirstVicinityFound(rest);
      var i :| 0 <= i < |rest| && !IsTransit(rest[i]) && (forall j | 0 <= j < i :: IsTransit(rest[j])) &&
        FirstVicinity(rest).value == rest[i].vicinity;
      assert results[i + 1] == rest[i];
      forall j | 0 <= j < i + 1 ensures IsTransit(results[j]) {
        if j > 0 { assert results[j] == rest[j - 1]; }
      }
    }
  }

  /** The stage's answer, case by case: a failed request gives the fetch error; a
      non-transit entry gives the first such entry's vicinity and no error; no such entry
      gives the "no businesses" error. */
  lemma ResolveAddressSpec(reply: GeocodeReply)
    ensures reply.FetchFailed? ==> ResolveAddress(reply) == AddressError(FetchFailedMessage)
    ensures reply.Results? ==>
      (ResolveAddress(reply) == AddressError(NoBusinessesNearby) <==>
       forall i | 0 <= i < |reply.results| :: IsTransit(reply.results[i]))
    ensures reply.Results? ==> forall i | 0 <= i < |reply.results| ::
      !IsTransit(reply.results[i]) && (forall j | 0 <= j < i :: IsTransit(reply.results[j])) ==>
      ResolveAddress(reply) == AddressFound(reply.results[i].vicinity)
  {
    if reply.Results? {
      FirstVicinityNone(reply.results);
      forall i | 0 <= i < |reply.results| &&
        !IsTransit(reply.results[i]) && (forall j | 0 <= j < i :: IsTransit(reply.results[j]))
        ensures ResolveAddress(reply) == AddressFound(reply.results[i].vicinity)
      {
        FirstVicinityAt(reply.results, i);
      }
    }
  }

  /** `getAddressData`: asks the geocoder for the coordinates, then scans the results in
      order and returns at the first entry that is not a transit station. */
  method GetAddressData(latitude: string, longitude: string, geocode: (string, string) -> GeocodeReply)
    returns (r: AddressResult)
    ensures r == ResolveAddress(geocode(latitude, longitude))
  {
    var reply := geocode(latitude, longitude);
    match reply
    case FetchFailed =>
      return AddressError(FetchFailedMessage);
    case Results(results) =>
      if |results| > 0 {
        for i := 0 to |results|
          invariant FirstVicinity(results[i..]) == FirstVicinity(results)
        {
          if !IsTransit(results[i]) {
            return AddressFound(results[i].vicinity);
          }
          assert results[i..][1..] == results[i + 1..];
        }
      }
      assert FirstVicinity(results) == None;
      return AddressError(NoBusinessesNearby);
  }

  /** A transit station followed by a store: the store's address is chosen. */
  lemma SkipsTransitStation()
    ensures ResolveAddress(Results([Place("12 Main St", [TransitStation]), Place("14 Main St", ["store"])]))
         == AddressFound("14 Main St")
  {
    var results := [Place("12 Main St", [TransitStation]), Place("14 Main St", ["store"])];
    assert TransitStation !in ["store"];
    FirstVicinityAt(results, 1);
  }
}
