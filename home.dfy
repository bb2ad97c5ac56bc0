/**
 * The SOS rate limiter of the home page: an in-progress flag and the start of
 * the 10-second cooldown, shared by the SOS button and the shake gesture;
 * and how the page stops location sharing.
 */
module Home {
  import Geolocation

  const SosCooldownMs: int := 10000

  /** Consecutive times at least one cooldown apart. */
  ghost predicate SpacedApart(times: seq<int>)
  {
    forall i :: 0 < i < |times| ==> times[i] - times[i - 1] >= SosCooldownMs
  }

  lemma {:induction false} SpacedPairwise(times: seq<int>, i: nat, j: nat)
    requires SpacedApart(times) && i < j < |times|
    ensures times[j] - times[i] >= SosCooldownMs * (j - i)
    decreases j - i
  {
    if i + 1 < j {
      SpacedPairwise(times, i, j - 1);
    }
  }

  class SosGuard {
    /** `sosInProgressRef.current`. */
    var sosInProgress: bool
    /** `sosCooldownRef.current`: when the last accepted attempt started, in ms. */
    var sosCooldown: int
    /** The start times of every accepted attempt, oldest first. */
    ghost var acceptedAt: seq<int>

    ghost predicate Valid()
      reads this
    {
      && SpacedApart(acceptedAt)
      && (acceptedAt == [] ==> sosCooldown == 0)
      && (acceptedAt != [] ==> sosCooldown == acceptedAt[|acceptedAt| - 1])
    }

    constructor ()
      ensures Valid() && !sosInProgress && sosCooldown == 0 && acceptedAt == []
    {
      sosInProgress := false;
      sosCooldown := 0;
      acceptedAt := [];
    }

    /** Any two accepted attempts started at least one cooldown apart. */
    lemma AcceptedAttemptsApart(i: nat, j: nat)
      requires Valid() && i < j < |acceptedAt|
      ensures acceptedAt[j] - acceptedAt[i] >= SosCooldownMs
    {
      SpacedPairwise(acceptedAt, i, j);
    }

    /**
     * The guard and the first two assignments of `handleSOS`. `now` is
     * `Date.now()` and `sosLoading` the loading flag the handler sees. An
     * accepted attempt goes on to send the alert; `FinishSos` is its `finally`.
     */
    method HandleSos(now: int, sosLoading: bool) returns (accepted: bool)
      requires Valid()
      modifies this
      ensures Valid()
      ensures accepted <==> !old(sosInProgress) && !sosLoading && now - old(sosCooldown) >= SosCooldownMs
      ensures accepted ==> sosInProgress && sosCooldown == now && acceptedAt == old(acceptedAt) + [now]
      ensures !accepted ==> unchanged(this)
    {
      if sosInProgress || sosLoading {
        return false;
      }
      if now - sosCooldown < SosCooldownMs {
        return false;
      }
      sosInProgress := true;
      sosCooldown := now;
      acceptedAt := acceptedAt + [now];
      accepted := true;
    }

    /** The `finally` of an accepted attempt: the flag is cleared whether or not the alert was stored. */
    method FinishSos(stored: bool) returns (confirmed: bool)
      requires Valid()
      modifies this`sosInProgress
      ensures Valid() && !sosInProgress && confirmed == stored
    {
      sosInProgress := false;
      confirmed := stored;
    }

    /**
     * `handleShakeSOS`: the same two guards at `now`, then `handleSOS`, which
     * reads the clock again as `nowAtSos`.
     */
    method HandleShakeSos(now: int, sosLoading: bool, nowAtSos: int) returns (accepted: bool)
      requires Valid()
      modifies this
      ensures Valid()
      ensures accepted <==>
        && !old(sosInProgress) && !sosLoading
        && now - old(sosCooldown) >= SosCooldownMs && nowAtSos - old(sosCooldown) >= SosCooldownMs
      ensures accepted ==> sosInProgress && sosCooldown == nowAtSos && acceptedAt == old(acceptedAt) + [nowAtSos]
      ensures !accepted ==> unchanged(this)
    {
      if sosInProgress || sosLoading {
        return false;
      }
      if now - sosCooldown < SosCooldownMs {
        return false;
      }
      accepted := HandleSos(nowAtSos, sosLoading);
    }
  }

  /**
   * Stopping location sharing as the page writes it: `stopWatching` is handed
   * a new empty closure, `throwaway`, that was never registered. The
   * subscriber registered when sharing started stays, and so does the native
   * watch.
   */
  method StopSharingAsWritten(geo: Geolocation.GeolocationService, registered: Geolocation.Callback,
                              throwaway: Geolocation.Callback)
    requires geo.Valid() && registered in geo.callbacks && throwaway !in geo.callbacks
    modifies geo
    ensures geo.Valid()
    ensures geo.callbacks == old(geo.callbacks) && geo.watchId == old(geo.watchId)
    ensures registered in geo.callbacks && geo.watchId.Some?
  {
    geo.StopWatching(throwaway);
  }

  /**
   * Stopping location sharing with the callback that was registered when it
   * started: that subscriber is gone, and when it was the only one the native
   * watch is cleared.
   */
  method StopSharing(geo: Geolocation.GeolocationService, registered: Geolocation.Callback)
    requires geo.Valid()
    modifies geo
    ensures geo.Valid()
    ensures registered !in geo.callbacks
    ensures old(geo.callbacks) == [registered] ==> geo.callbacks == [] && geo.watchId.None?
  {
    geo.StopWatching(registered);
  }

  /**
   * Sharing started and then stopped as the page writes it, on a fresh
   * service: the watch is still open afterwards. With the registered callback
   * it is closed.
   */
  method ShareThenStopExample() returns (stillWatchingAsWritten: bool, stillWatchingCorrected: bool)
    ensures stillWatchingAsWritten
    ensures !stillWatchingCorrected
  {
    var sharing: Geolocation.Callback := 1;
    var throwaway: Geolocation.Callback := 2;
    var geo := new Geolocation.GeolocationService();
    var _ := geo.StartWatching(sharing, true, 7);
    StopSharingAsWritten(geo, sharing, throwaway);
    stillWatchingAsWritten := geo.watchId.Some?;

    var geo2 := new Geolocation.GeolocationService();
    var _ := geo2.StartWatching(sharing, true, 7);
    StopSharing(geo2, sharing);
    stillWatchingCorrected := geo2.watchId.Some?;
  }
}
