/**
 * The location module of the client store
 * (`miniprogram/core/store/modules/location.js`): the current fix, the
 * permission flag, the platform watcher and a history of the ten most
 * recent fixes.
 */
module LocationStore {
  import opened Wrappers

  /** A position fix as the platform reports it, stamped with the client clock. */
  datatype Fix = Fix(latitude: real, longitude: real, accuracy: real, timestamp: int)

  /** A registered location-change callback, by identity. */
  type WatcherHandle = nat

  /** What `wx.onLocationChange` returns: nothing, i.e. `undefined`. */
  const ON_LOCATION_CHANGE_RESULT: Option<WatcherHandle> := None

  /** `listeners` without any occurrence of `cb`, in order. */
  function Without(listeners: seq<WatcherHandle>, cb: WatcherHandle): (r: seq<WatcherHandle>)
    ensures |r| <= |listeners|
    ensures forall x :: x in r <==> x in listeners && x != cb
  {
    if listeners == [] then []
    else (if listeners[0] == cb then [] else [listeners[0]]) + Without(listeners[1..], cb)
  }

  /**
   * The platform's location service as the store drives it: whether updates
   * run, and the location-change listeners registered, oldest first.
   */
  class LocationService {
    var updating: bool
    var listeners: seq<WatcherHandle>

    function Status(): (bool, seq<WatcherHandle>)
      reads this
    {
      (updating, listeners)
    }

    constructor ()
      ensures Status() == (false, [])
    {
      updating, listeners := false, [];
    }

    /** `wx.startLocationUpdate`, whose outcome is `started`. */
    method StartLocationUpdate(started: bool)
      modifies this
      ensures Status() == (old(updating) || started, old(listeners))
    {
      if started {
        updating := true;
      }
    }

    /** `wx.onLocationChange(cb)`: one more listener. */
    method OnLocationChange(cb: WatcherHandle)
      modifies this
      ensures Status() == (old(updating), old(listeners) + [cb])
    {
      listeners := listeners + [cb];
    }

    /** `wx.stopLocationUpdate`. */
    method StopLocationUpdate()
      modifies this
      ensures Status() == (false, old(listeners))
    {
      updating := false;
    }

    /** `wx.offLocationChange(cb)`: that listener is no longer called. */
    method OffLocationChange(cb: WatcherHandle)
      modifies this
      ensures Status() == (old(updating), Without(old(listeners), cb))
    {
      listeners := Without(listeners, cb);
    }
  }

  /** The most recent fixes kept in the history. */
  const HISTORY_LIMIT: nat := 10

  /** `unshift` then `pop` beyond ten: the newest fix first, then a prefix of the old history. */
  function PushRecent(history: seq<Fix>, fix: Fix): (r: seq<Fix>)
    ensures 1 <= |r| <= |history| + 1 && r[0] == fix
    ensures r[1..] == history[..|r| - 1]
    ensures |history| <= HISTORY_LIMIT ==> |r| <= HISTORY_LIMIT
    ensures |history| < HISTORY_LIMIT ==> |r| == |history| + 1
  {
    var h := [fix] + history;
    if |h| > HISTORY_LIMIT then h[..|h| - 1] else h
  }

  /** Recording fixes one after another keeps them newest first, at most ten. */
  lemma {:induction false} PushRecentTwice(history: seq<Fix>, a: Fix, b: Fix)
    requires |history| <= HISTORY_LIMIT - 2
    ensures PushRecent(PushRecent(history, a), b) == [b, a] + history
  {
    assert PushRecent(history, a) == [a] + history;
  }

  datatype LocationFields = LocationFields(
    currentLocation: Option<Fix>,
    isLocationEnabled: bool,
    locationWatcher: Option<WatcherHandle>,
    lastUpdateTime: Option<int>,
    locationHistory: seq<Fix>)

  const INITIAL: LocationFields := LocationFields(None, false, None, None, [])

  class LocationState {
    var currentLocation: Option<Fix>
    var isLocationEnabled: bool
    var locationWatcher: Option<WatcherHandle>
    var lastUpdateTime: Option<int>
    var locationHistory: seq<Fix>

    function Fields(): LocationFields
      reads this
    {
      LocationFields(currentLocation, isLocationEnabled, locationWatcher, lastUpdateTime, locationHistory)
    }

    ghost predicate Valid()
      reads this
    {
      |locationHistory| <= HISTORY_LIMIT
    }

    constructor ()
      ensures Fields() == INITIAL && Valid()
    {
      currentLocation, isLocationEnabled, locationWatcher := None, false, None;
      lastUpdateTime, locationHistory := None, [];
    }

    /** `SET_CURRENT_LOCATION`, with `Date.now()` as `now`. */
    method SetCurrentLocation(fix: Fix, now: int)
      requires Valid()
      modifies this
      ensures Valid()
      ensures Fields() == old(Fields()).(
                currentLocation := Some(fix),
                lastUpdateTime := Some(now),
                locationHistory := PushRecent(old(locationHistory), fix))
    {
      currentLocation := Some(fix);
      lastUpdateTime := Some(now);
      locationHistory := [fix] + locationHistory;
      if |locationHistory| > HISTORY_LIMIT {
        locationHistory := locationHistory[..|locationHistory| - 1];
      }
    }

    method SetLocationEnabled(enabled: bool)
      modifies this
      ensures Fields() == old(Fields()).(isLocationEnabled := enabled)
    {
      isLocationEnabled := enabled;
    }

    method SetLocationWatcher(watcher: Option<WatcherHandle>)
      modifies this
      ensures Fields() == old(Fields()).(locationWatcher := watcher)
    {
      locationWatcher := watcher;
    }

    method ClearLocationData()
      modifies this
      ensures Fields() == INITIAL && Valid()
    {
      currentLocation, isLocationEnabled, locationWatcher := None, false, None;
      lastUpdateTime, locationHistory := None, [];
    }

    /**
     * `startLocationWatch`, as written: nothing when a watcher is recorded;
     * otherwise, once the platform starts updates (`started`), `callback` is
     * registered with `wx.onLocationChange` and that call's result, which is
     * `undefined`, is what `SET_LOCATION_WATCHER` records.
     */
    method StartLocationWatch(service: LocationService, started: bool, callback: WatcherHandle)
      modifies this, service
      ensures old(locationWatcher).Some? || !started ==>
                Fields() == old(Fields()) && service.Status() == old(service.Status())
      ensures old(locationWatcher).None? && started ==>
                && Fields() == old(Fields()).(locationWatcher := ON_LOCATION_CHANGE_RESULT)
                && service.Status() == (true, old(service.listeners) + [callback])
    {
      if locationWatcher.Some? {
        return;
      }
      service.StartLocationUpdate(started);
      if started {
        service.OnLocationChange(callback);
        SetLocationWatcher(ON_LOCATION_CHANGE_RESULT);
      }
    }

    /**
     * `startLocationWatch` with the registered callback itself recorded as the
     * watcher, so that the guard sees it and the stop can unregister it.
     */
    method StartLocationWatchKept(service: LocationService, started: bool, callback: WatcherHandle)
      modifies this, service
      ensures old(locationWatcher).Some? || !started ==>
                Fields() == old(Fields()) && service.Status() == old(service.Status())
      ensures old(locationWatcher).None? && started ==>
                && Fields() == old(Fields()).(locationWatcher := Some(callback))
                && service.Status() == (true, old(service.listeners) + [callback])
    {
      if locationWatcher.Some? {
        return;
      }
      service.StartLocationUpdate(started);
      if started {
        service.OnLocationChange(callback);
        SetLocationWatcher(Some(callback));
      }
    }

    /**
     * `stopLocationWatch`: with a watcher recorded, stops the updates,
     * unregisters it and clears it; without one, nothing happens.
     */
    method StopLocationWatch(service: LocationService) returns (stopped: Option<WatcherHandle>)
      modifies this, service
      ensures stopped == old(locationWatcher)
      ensures Fields() == old(Fields()).(locationWatcher := None)
      ensures old(locationWatcher).None? ==> service.Status() == old(service.Status())
      ensures old(locationWatcher).Some? ==>
                service.Status() == (false, Without(old(service.listeners), old(locationWatcher).value))
    {
      stopped := locationWatcher;
      if locationWatcher.Some? {
        service.StopLocationUpdate();
        service.OffLocationChange(locationWatcher.value);
        SetLocationWatcher(None);
      }
    }
  }

  /**
   * As written: a second start passes the guard and registers a second
   * listener, and the stop that follows finds no watcher, so both listeners
   * stay registered and the updates keep running.
   */
  method WatchAsWrittenLeaks(first: WatcherHandle, second: WatcherHandle)
    returns (updating: bool, listeners: seq<WatcherHandle>)
    ensures updating && listeners == [first, second]
  {
    var state := new LocationState();
    var service := new LocationService();
    state.StartLocationWatch(service, true, first);
    state.StartLocationWatch(service, true, second);
    var _ := state.StopLocationWatch(service);
    updating, listeners := service.updating, service.listeners;
  }

  /**
   * With the callback recorded: the second start is refused and the stop
   * unregisters the one listener and ends the updates.
   */
  method WatchKeptStops(first: WatcherHandle, second: WatcherHandle)
    returns (updating: bool, listeners: seq<WatcherHandle>)
    ensures !updating && listeners == []
  {
    var state := new LocationState();
    var service := new LocationService();
    state.StartLocationWatchKept(service, true, first);
    state.StartLocationWatchKept(service, true, second);
    var _ := state.StopLocationWatch(service);
    updating, listeners := service.updating, service.listeners;
  }
}
