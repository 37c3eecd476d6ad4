/** The connectivity guard of the web front end (src/utils/network-guard.ts):
    a cached answer to "is the analytics host reachable?", kept in two
    module variables, and the browser's online/offline listeners that
    overwrite it. The clock and the outcome of the HEAD request are
    parameters; the request timeout, `requestIdleCallback` and the
    scheduling delays are not modelled. */
module NetworkGuard {
  import opened Wrappers

  /** `DEFAULT_API_HOST`. */
  const DefaultApiHost := "https://us.i.posthog.com"
  /** `CACHE_DURATION`, in milliseconds. */
  const CacheDuration := 30000

  /** The two module variables `lastOnlineStatus` and `lastCheckTime`. */
  datatype CacheState = CacheState(lastOnlineStatus: Option<bool>, lastCheckTime: int)

  /** The state at module load and after `clearNetworkCache`. */
  const Cleared := CacheState(None, 0)

  /** The cached status may be answered at time `now`: there is one, and it
      is younger than `CACHE_DURATION`. */
  predicate IsFresh(c: CacheState, now: int) {
    c.lastOnlineStatus.Some? && now - c.lastCheckTime < CacheDuration
  }

  /** What `checkApiConnectivity` answers at `now` when a probe would come
      back `reachable`. */
  function CheckAnswer(c: CacheState, now: int, reachable: bool): (online: bool)
    ensures IsFresh(c, now) ==> online == c.lastOnlineStatus.value
    ensures !IsFresh(c, now) ==> online == reachable
  {
    if IsFresh(c, now) then c.lastOnlineStatus.value else reachable
  }

  /** The cache after that check: unchanged when answered from the cache,
      otherwise the probe's outcome stamped with `now`. */
  function AfterCheck(c: CacheState, now: int, reachable: bool): (d: CacheState)
    ensures d.lastOnlineStatus == Some(CheckAnswer(c, now, reachable))
    ensures IsFresh(c, now) ==> d == c
    ensures !IsFresh(c, now) ==> d.lastCheckTime == now
  {
    if IsFresh(c, now) then c else CacheState(Some(reachable), now)
  }

  /** A check answered inside the window of the previous one repeats its
      answer and leaves the cache alone, whatever the network does
      meanwhile. */
  lemma {:induction false} AnswerHoldsWithinWindow(c: CacheState, now: int, reachable: bool, later: int, reachableLater: bool)
    requires later - AfterCheck(c, now, reachable).lastCheckTime < CacheDuration
    ensures CheckAnswer(AfterCheck(c, now, reachable), later, reachableLater) == CheckAnswer(c, now, reachable)
    ensures AfterCheck(AfterCheck(c, now, reachable), later, reachableLater) == AfterCheck(c, now, reachable)
  {
    var d := AfterCheck(c, now, reachable);
    assert IsFresh(d, later);
  }

  /** Once the window has passed, the next check probes again and reports
      what the probe finds. */
  lemma ProbesAgainAfterWindow(c: CacheState, now: int, reachable: bool, later: int, reachableLater: bool)
    requires later - AfterCheck(c, now, reachable).lastCheckTime >= CacheDuration
    ensures CheckAnswer(AfterCheck(c, now, reachable), later, reachableLater) == reachableLater
    ensures AfterCheck(AfterCheck(c, now, reachable), later, reachableLater)
              == CacheState(Some(reachableLater), later)
  {
  }

  /** After `clearNetworkCache` the next check always probes, at any time. */
  lemma ClearedAlwaysProbes(now: int, reachable: bool)
    ensures !IsFresh(Cleared, now)
    ensures CheckAnswer(Cleared, now, reachable) == reachable
  {
  }

  /** An `online` event stamps the cache with `true`, so for the next
      `CACHE_DURATION` every check reports the host reachable without a
      probe, even when it is not. */
  lemma OnlineEventMasksProbe(now: int, later: int)
    requires later - now < CacheDuration
    ensures CheckAnswer(CacheState(Some(true), now), later, false)
    ensures AfterCheck(CacheState(Some(true), now), later, false) == CacheState(Some(true), now)
  {
  }

  /** The module variables, and a log of every HEAD request sent. */
  class Guard {
    var lastOnlineStatus: Option<bool>
    var lastCheckTime: int
    /** The URL of every probe, in order. */
    var probes: seq<string>

    function State(): CacheState
      reads this
    {
      CacheState(lastOnlineStatus, lastCheckTime)
    }

    /** Module load: nothing cached, nothing probed. */
    constructor ()
      ensures State() == Cleared && probes == []
    {
      lastOnlineStatus := None;
      lastCheckTime := 0;
      probes := [];
    }

    /** `checkApiConnectivity(apiHost)` at time `now`: a fresh cached status
        is returned without a request; otherwise `<apiHost>/health` is
        probed, and the outcome, `true` when the request completes and
        `false` when it fails or times out, is cached and returned. */
    method CheckApiConnectivity(apiHost: string, now: int, reachable: bool) returns (online: bool)
      modifies this
      ensures online == CheckAnswer(old(State()), now, reachable)
      ensures State() == AfterCheck(old(State()), now, reachable)
      ensures probes == if IsFresh(old(State()), now) then old(probes) else old(probes) + [apiHost + "/health"]
    {
      if lastOnlineStatus.Some? && now - lastCheckTime < CacheDuration {
        return lastOnlineStatus.value;
      }
      probes := probes + [apiHost + "/health"];
      if reachable {
        lastOnlineStatus := Some(true);
        lastCheckTime := now;
        return true;
      } else {
        lastOnlineStatus := Some(false);
        lastCheckTime := now;
        return false;
      }
    }

    /** `clearNetworkCache`. */
    method ClearNetworkCache()
      modifies this
      ensures State() == Cleared && probes == old(probes)
    {
      lastOnlineStatus := None;
      lastCheckTime := 0;
    }

    /** The check `scheduleNetworkCheck` performs once its delay has
        passed: a browser that reports being offline gets `false` at once,
        with no request and no change to the cache; otherwise the default
        host is checked (the configured analytics host is not consulted). */
    method ScheduledCheck(navigatorOnline: bool, now: int, reachable: bool) returns (reported: bool)
      modifies this
      ensures !navigatorOnline ==> !reported && State() == old(State()) && probes == old(probes)
      ensures navigatorOnline ==> reported == CheckAnswer(old(State()), now, reachable)
                                  && State() == AfterCheck(old(State()), now, reachable)
      ensures navigatorOnline && !IsFresh(old(State()), now) ==>
                probes == old(probes) + [DefaultApiHost + "/health"]
      ensures navigatorOnline && IsFresh(old(State()), now) ==> probes == old(probes)
    {
      if !navigatorOnline {
        return false;
      }
      reported := CheckApiConnectivity(DefaultApiHost, now, reachable);
    }
  }

  /** One `listenNetworkChange` registration: its two window listeners and
      its debounce timer. `pending` says a debounced `onOnline` is
      scheduled and has not yet run. */
  class Listener {
    const guard: Guard
    var attached: bool
    var pending: bool
    /** How often `onOnline` and `onOffline` ran. */
    var onlineRuns: nat
    var offlineRuns: nat

    /** `listenNetworkChange(onOnline, onOffline)`: both listeners are
        registered, no timer is scheduled. */
    constructor (guard: Guard)
      ensures this.guard == guard && attached && !pending && onlineRuns == 0 && offlineRuns == 0
    {
      this.guard := guard;
      attached := true;
      pending := false;
      onlineRuns := 0;
      offlineRuns := 0;
    }

    /** The window's `online` event: the cache says online as of `now`, and
        `onOnline` is (re)scheduled to run after the debounce delay, so a
        burst of events runs it once. */
    method Online(now: int)
      modifies this, guard
      ensures attached == old(attached) && onlineRuns == old(onlineRuns) && offlineRuns == old(offlineRuns)
      ensures old(attached) ==> guard.State() == CacheState(Some(true), now) && pending
      ensures !old(attached) ==> guard.State() == old(guard.State()) && pending == old(pending)
      ensures guard.probes == old(guard.probes)
    {
      if attached {
        guard.lastOnlineStatus := Some(true);
        guard.lastCheckTime := now;
        pending := true;
      }
    }

    /** The window's `offline` event: a scheduled `onOnline` is cancelled,
        the cache says offline as of `now`, and `onOffline` runs. */
    method Offline(now: int)
      modifies this, guard
      ensures attached == old(attached) && onlineRuns == old(onlineRuns)
      ensures old(attached) ==> guard.State() == CacheState(Some(false), now) && !pending
                                && offlineRuns == old(offlineRuns) + 1
      ensures !old(attached) ==> guard.State() == old(guard.State()) && pending == old(pending)
                                 && offlineRuns == old(offlineRuns)
      ensures guard.probes == old(guard.probes)
    {
      if attached {
        pending := false;
        guard.lastOnlineStatus := Some(false);
        guard.lastCheckTime := now;
        offlineRuns := offlineRuns + 1;
      }
    }

    /** The debounce delay elapses: a scheduled `onOnline` runs once. */
    method DebounceElapsed()
      modifies this
      ensures !pending && attached == old(attached) && offlineRuns == old(offlineRuns)
      ensures onlineRuns == if old(pending) then old(onlineRuns) + 1 else old(onlineRuns)
    {
      if pending {
        pending := false;
        onlineRuns := onlineRuns + 1;
      }
    }

    /** The cleanup function returned by `listenNetworkChange`: both
        listeners are removed and a scheduled `onOnline` is cancelled. */
    method Remove()
      modifies this
      ensures !attached && !pending
      ensures onlineRuns == old(onlineRuns) && offlineRuns == old(offlineRuns)
    {
      attached := false;
      pending := false;
    }
  }

  /** Going offline before the debounce delay elapses means `onOnline`
      never runs for that `online` event. */
  method OfflineCancelsPendingOnline(l: Listener, t1: int, t2: int)
    requires l.attached
    modifies l, l.guard
    ensures l.onlineRuns == old(l.onlineRuns) && l.offlineRuns == old(l.offlineRuns) + 1
    ensures l.guard.State() == CacheState(Some(false), t2)
  {
    l.Online(t1);
    l.Offline(t2);
    l.DebounceElapsed();
  }
}
