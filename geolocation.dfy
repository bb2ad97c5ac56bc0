/**
 * The location-watch registry: subscribers share one native position watch,
 * created on the first subscription and cleared when the last one leaves.
 */
module Geolocation {
  import opened Base
  import opened Seqs

  datatype LocationCoords = LocationCoords(latitude: real, longitude: real)

  /** The identity of a subscriber function; the source compares them with `!==`. */
  type Callback = nat

  /** A `watchPosition` handle. */
  type WatchHandle = int

  const NotSupported := "Geolocation is not supported"

  class GeolocationService {
    var watchId: Option<WatchHandle>
    var callbacks: seq<Callback>
    /** The native watches this service has opened and not yet cleared. */
    ghost var liveWatches: set<WatchHandle>

    ghost predicate Valid()
      reads this
    {
      && (watchId.Some? <==> |callbacks| > 0)
      && liveWatches == (if watchId.Some? then {watchId.value} else {})
    }

    constructor ()
      ensures Valid() && callbacks == [] && watchId.None?
    {
      watchId := None;
      callbacks := [];
      liveWatches := {};
    }

    /** However many subscribers there are, at most one native watch is open. */
    lemma AtMostOneWatch()
      requires Valid()
      ensures |liveWatches| <= 1
    {
    }

    /**
     * `startWatching`. `supported` is whether `navigator.geolocation` exists;
     * `newWatch` is the handle `watchPosition` would return.
     */
    method StartWatching(callback: Callback, supported: bool, newWatch: WatchHandle)
      returns (r: Outcome<string>)
      requires Valid()
      modifies this
      ensures Valid()
      ensures !supported ==> r == Fail(NotSupported) && unchanged(this)
      ensures supported ==> r == Pass && callbacks == old(callbacks) + [callback]
      ensures supported && old(watchId).None? ==> watchId == Some(newWatch)
      ensures supported && old(watchId).Some? ==> watchId == old(watchId) && liveWatches == old(liveWatches)
    {
      if !supported {
        return Fail(NotSupported);
      }
      callbacks := callbacks + [callback];
      if watchId.None? {
        watchId := Some(newWatch);
        liveWatches := liveWatches + {newWatch};
      }
      r := Pass;
    }

    /** `stopWatching`: drops every occurrence of `callback`; the watch closes with the last subscriber. */
    method StopWatching(callback: Callback)
      requires Valid()
      modifies this
      ensures Valid()
      ensures callbacks == RemoveAll(old(callbacks), callback)
      ensures callback !in old(callbacks) ==> callbacks == old(callbacks) && watchId == old(watchId)
      ensures |callbacks| > 0 ==> watchId == old(watchId)
      ensures |callbacks| == 0 ==> watchId.None? && liveWatches == {}
    {
      callbacks := RemoveAll(callbacks, callback);
      if |callbacks| == 0 && watchId.Some? {
        liveWatches := liveWatches - {watchId.value};
        watchId := None;
      }
    }

    /** The calls one position update makes: every subscriber, in registration order. */
    function Deliveries(coords: LocationCoords): (calls: seq<(Callback, LocationCoords)>)
      reads this
      ensures |calls| == |callbacks|
      ensures forall i :: 0 <= i < |callbacks| ==> calls[i] == (callbacks[i], coords)
    {
      seq(|callbacks|, i requires 0 <= i < |callbacks| reads this => (callbacks[i], coords))
    }
  }

  /** The fixed fallback position (New York City). */
  function GetMockLocation(): (c: LocationCoords)
    ensures c.latitude == 40.7128 && c.longitude == -74.0060
  {
    LocationCoords(40.7128, -74.0060)
  }

  /** The `GeolocationPositionError` codes. */
  const PermissionDenied := 1
  const PositionUnavailable := 2
  const Timeout := 3

  const PermissionDeniedMessage := "Location permission denied. Please enable location access in your browser settings."
  const PositionUnavailableMessage := "Location information unavailable. Please check your device settings."
  const TimeoutMessage := "Location request timed out. Please try again."
  const UnknownErrorMessage := "An unknown error occurred while getting your location."

  function GetErrorMessage(code: int): (m: string)
    ensures code == PermissionDenied <==> m == PermissionDeniedMessage
    ensures code == PositionUnavailable <==> m == PositionUnavailableMessage
    ensures code == Timeout <==> m == TimeoutMessage
    ensures code !in {PermissionDenied, PositionUnavailable, Timeout} <==> m == UnknownErrorMessage
  {
    if code == PermissionDenied then PermissionDeniedMessage
    else if code == PositionUnavailable then PositionUnavailableMessage
    else if code == Timeout then TimeoutMessage
    else UnknownErrorMessage
  }
}
