/** The usage-analytics manager of the web front end
    (src/utils/analytics.ts): the user's consent record and the offline
    event cache in local storage, the consent callbacks, and the guard
    around starting the PostHog client. Local storage is a map from key to
    the JSON value stored there; the PostHog client is reduced to a log of
    the events it was asked to capture and a count of `posthog.init` calls. */
module Analytics {
  import opened Wrappers
  import opened Text

  const ConsentKey := "analytics_consent"
  const OfflineEventsKey := "analytics_offline_events"
  /** `MAX_OFFLINE_EVENTS`. */
  const MaxOfflineEvents := 100

  /** Event properties, an opaque JSON object. */
  type Properties = map<string, string>

  datatype AnalyticsEvent = AnalyticsEvent(name: string, properties: Option<Properties>)

  /** What `JSON.parse` makes of a stored item. `Blank` is the empty string
      (falsy, never parsed), `Garbled` text that is not JSON, `OtherJson`
      any JSON value that is neither `null`, an array nor an object with a
      `status`. */
  datatype Stored =
    | Blank
    | Garbled
    | JsonNull
    | ConsentRecord(status: string, timestamp: int, version: string)
    | EventList(events: seq<AnalyticsEvent>)
    | OtherJson

  /** What `getConsentStatus` returns: `null`, a status, or `undefined`
      (a parsed value without a `status` property). */
  datatype ConsentReading = NotSet | Status(status: string) | Undefined

  /** `getConsentStatus` on the stored item: nothing, an empty item, text
      that does not parse and JSON `null` (whose property access throws)
      all read as `null`. */
  function ReadConsent(item: Option<Stored>): (r: ConsentReading)
    ensures r == NotSet <==> item in {None, Some(Blank), Some(Garbled), Some(JsonNull)}
    ensures r.Status? <==> item.Some? && item.value.ConsentRecord?
    ensures r.Status? ==> r.status == item.value.status
  {
    match item
    case None => NotSet
    case Some(Blank) => NotSet
    case Some(Garbled) => NotSet
    case Some(JsonNull) => NotSet
    case Some(ConsentRecord(status, _, _)) => Status(status)
    case Some(_) => Undefined
  }

  /** The two statuses the user can choose. */
  datatype Consent = Granted | Declined
  {
    function Text(): string {
      match this
      case Granted => "granted"
      case Declined => "declined"
    }
  }

  /** What the application does with a consent reading when it finds the
      network available: start tracking on "granted", ask the user when
      nothing is recorded, and stay silent otherwise ("declined", or a
      malformed record). */
  datatype ConsentAction = StartTracking | AskUser | StaySilent

  function ActionFor(r: ConsentReading): (a: ConsentAction)
    ensures a == StartTracking <==> r == Status("granted")
    ensures a == AskUser <==> r == NotSet
  {
    if r == Status("granted") then StartTracking
    else if r == NotSet then AskUser
    else StaySilent
  }

  /** `events.push(event)` then `events.slice(-MAX_OFFLINE_EVENTS)` when
      the list grew past the cap: the event goes last and, on a full list,
      the oldest entry is dropped. */
  function Capped(events: seq<AnalyticsEvent>, e: AnalyticsEvent): (r: seq<AnalyticsEvent>)
    ensures |r| <= MaxOfflineEvents && r != [] && r[|r| - 1] == e
    ensures |events| < MaxOfflineEvents ==> r == events + [e]
    ensures |events| >= MaxOfflineEvents ==> |r| == MaxOfflineEvents
  {
    var pushed := events + [e];
    if |pushed| > MaxOfflineEvents then pushed[|pushed| - MaxOfflineEvents..] else pushed
  }

  /** On a full list, caching drops exactly the oldest entries that no
      longer fit and keeps the rest in order. */
  lemma CappedDropsOldest(events: seq<AnalyticsEvent>, e: AnalyticsEvent)
    requires |events| >= MaxOfflineEvents
    ensures Capped(events, e) == events[|events| - MaxOfflineEvents + 1..] + [e]
  {
    var pushed := events + [e];
    assert pushed[|pushed| - MaxOfflineEvents..] == events[|events| - MaxOfflineEvents + 1..] + [e];
  }

  /** The newest `MAX_OFFLINE_EVENTS` entries of `es`, oldest first. */
  function Newest(es: seq<AnalyticsEvent>): seq<AnalyticsEvent> {
    if |es| < MaxOfflineEvents then es else es[|es| - MaxOfflineEvents..]
  }

  /** Caching one more event onto the newest entries of a history gives the
      newest entries of the longer history. */
  lemma NewestStep(history: seq<AnalyticsEvent>, e: AnalyticsEvent)
    ensures Capped(Newest(history), e) == Newest(history + [e])
  {
    var longer := history + [e];
    if |history| >= MaxOfflineEvents {
      var kept := history[|history| - MaxOfflineEvents..];
      assert kept[1..] + [e] == longer[|longer| - MaxOfflineEvents..];
    } else {
      assert Capped(history, e) == longer;
    }
  }

  /** Caching `es` one after another onto the list `cached`. */
  function CacheAll(cached: seq<AnalyticsEvent>, es: seq<AnalyticsEvent>): seq<AnalyticsEvent>
    decreases |es|
  {
    if es == [] then cached else CacheAll(Capped(cached, es[0]), es[1..])
  }

  /** However many events are cached, the list holds exactly the newest
      `MAX_OFFLINE_EVENTS` of everything cached so far, oldest first. */
  lemma {:induction false} CacheAllKeepsNewest(earlier: seq<AnalyticsEvent>, es: seq<AnalyticsEvent>)
    ensures CacheAll(Newest(earlier), es) == Newest(earlier + es)
    decreases |es|
  {
    if es == [] {
      assert earlier + es == earlier;
    } else {
      var e, rest := es[0], es[1..];
      assert CacheAll(Newest(earlier), es) == CacheAll(Capped(Newest(earlier), e), rest);
      NewestStep(earlier, e);
      CacheAllKeepsNewest(earlier + [e], rest);
      SplitFirst(earlier, es);
    }
  }

  /** Moving the first element of `es` onto the end of `earlier`. */
  lemma SplitFirst(earlier: seq<AnalyticsEvent>, es: seq<AnalyticsEvent>)
    requires es != []
    ensures earlier + [es[0]] + es[1..] == earlier + es
  {
    assert es == [es[0]] + es[1..];
  }

  /** The events a flush would send: the stored list, or none when the item
      is absent or not a list. */
  function Pending(storage: map<string, Stored>): seq<AnalyticsEvent> {
    if OfflineEventsKey in storage && storage[OfflineEventsKey].EventList?
    then storage[OfflineEventsKey].events else []
  }

  /** Local storage after `cacheOfflineEvent(e)`: an absent or blank item
      starts a new list, a stored list gets the event appended and is cut to
      the newest `MAX_OFFLINE_EVENTS`; any other item makes the push throw,
      the error is swallowed and nothing is written. Other keys are never
      touched. */
  function WithCached(storage: map<string, Stored>, e: AnalyticsEvent): (r: map<string, Stored>)
    ensures r.Keys == storage.Keys + {OfflineEventsKey}
    ensures forall k :: k in storage && k != OfflineEventsKey ==> r[k] == storage[k]
    ensures r[OfflineEventsKey].EventList? <==>
              OfflineEventsKey !in storage || storage[OfflineEventsKey] == Blank || storage[OfflineEventsKey].EventList?
    ensures r[OfflineEventsKey].EventList? ==> Pending(r) == Capped(Pending(storage), e)
    ensures !r[OfflineEventsKey].EventList? ==> r == storage
  {
    if OfflineEventsKey !in storage || storage[OfflineEventsKey] == Blank then
      storage[OfflineEventsKey := EventList([e])]
    else if storage[OfflineEventsKey].EventList? then
      storage[OfflineEventsKey := EventList(Capped(storage[OfflineEventsKey].events, e))]
    else storage
  }

  /** Caching into a store that holds no list yet, event after event, leaves
      the newest `MAX_OFFLINE_EVENTS` of them in storage. */
  lemma {:induction false} CachingFromEmptyKeepsNewest(storage: map<string, Stored>, es: seq<AnalyticsEvent>)
    requires OfflineEventsKey !in storage || storage[OfflineEventsKey] == Blank
    ensures Pending(CachedEach(storage, es)) == Newest(es)
  {
    CachedEachIsCacheAll(storage, es);
    CacheAllKeepsNewest([], es);
    assert [] + es == es;
  }

  /** `cacheOfflineEvent` applied to each of `es` in turn. */
  function CachedEach(storage: map<string, Stored>, es: seq<AnalyticsEvent>): map<string, Stored>
    decreases |es|
  {
    if es == [] then storage else CachedEach(WithCached(storage, es[0]), es[1..])
  }

  /** On a store whose item is absent, blank or a list, caching each event
      keeps a list, and that list is `CacheAll` of the events. */
  lemma {:induction false} CachedEachIsCacheAll(storage: map<string, Stored>, es: seq<AnalyticsEvent>)
    requires OfflineEventsKey !in storage || storage[OfflineEventsKey] == Blank
             || storage[OfflineEventsKey].EventList?
    ensures Pending(CachedEach(storage, es)) == CacheAll(Pending(storage), es)
    decreases |es|
  {
    if es != [] {
      CachedEachIsCacheAll(WithCached(storage, es[0]), es[1..]);
    }
  }

  /** `consentCallbacks.filter(cb => cb !== callback)`. */
  function RemoveAll(callbacks: seq<nat>, cb: nat): (r: seq<nat>)
    ensures cb !in r
    ensures forall x :: x != cb ==> multiset(r)[x] == multiset(callbacks)[x]
    ensures |r| <= |callbacks|
  {
    if callbacks == [] then []
    else
      assert callbacks == [callbacks[0]] + callbacks[1..];
      var rest := RemoveAll(callbacks[1..], cb);
      if callbacks[0] == cb then rest else [callbacks[0]] + rest
  }

  /** Unsubscribing right after subscribing a callback that was not yet
      registered gives back the old list, order included. */
  lemma {:induction false} UnsubscribeUndoesSubscribe(callbacks: seq<nat>, cb: nat)
    requires cb !in callbacks
    ensures RemoveAll(callbacks + [cb], cb) == callbacks
    decreases |callbacks|
  {
    if callbacks == [] {
      assert callbacks + [cb] == [cb];
    } else {
      assert (callbacks + [cb])[1..] == callbacks[1..] + [cb];
      UnsubscribeUndoesSubscribe(callbacks[1..], cb);
    }
  }

  /** `getPlatformInfo` on a user-agent string. */
  function PlatformInfo(userAgent: string): (p: string)
    ensures p in {"Windows", "macOS", "Linux", "Android", "iOS", "Unknown"}
    ensures p == "Windows" <==> Contains(userAgent, "Win")
    ensures p == "Unknown" <==> !Contains(userAgent, "Win") && !Contains(userAgent, "Mac")
                                && !Contains(userAgent, "Linux") && !Contains(userAgent, "Android")
                                && !Contains(userAgent, "iOS") && !Contains(userAgent, "iPhone")
                                && !Contains(userAgent, "iPad")
    ensures p == "macOS" <==> !Contains(userAgent, "Win") && Contains(userAgent, "Mac")
    ensures p == "Linux" <==> !Contains(userAgent, "Win") && !Contains(userAgent, "Mac")
                              && Contains(userAgent, "Linux")
    ensures p == "Android" <==> !Contains(userAgent, "Win") && !Contains(userAgent, "Mac")
                                && !Contains(userAgent, "Linux") && Contains(userAgent, "Android")
    ensures p == "iOS" <==> !Contains(userAgent, "Win") && !Contains(userAgent, "Mac")
                            && !Contains(userAgent, "Linux") && !Contains(userAgent, "Android")
                            && (Contains(userAgent, "iOS") || Contains(userAgent, "iPhone")
                                || Contains(userAgent, "iPad"))
  {
    if Contains(userAgent, "Win") then "Windows"
    else if Contains(userAgent, "Mac") then "macOS"
    else if Contains(userAgent, "Linux") then "Linux"
    else if Contains(userAgent, "Android") then "Android"
    else if Contains(userAgent, "iOS") || Contains(userAgent, "iPhone") || Contains(userAgent, "iPad") then "iOS"
    else "Unknown"
  }

  /** The checks run in order, so an iPhone, whose user agent says "like
      Mac OS X", is reported as macOS. */
  lemma IPhoneReadsAsMac(ua: string)
    requires ua == "(iPhone; like Mac OS X)"
    ensures PlatformInfo(ua) == "macOS"
  {
    assert !Contains(ua, "Win") by {
      assert 'W' !in ua;
      AbsentChar(ua, "Win", 'W');
    }
    assert Contains(ua, "Mac") by {
      assert ua[14..17] == "Mac";
      ContainsAt(ua, "Mac", 14);
    }
  }

  /** One call of `posthog.capture`. */
  datatype Capture = Capture(name: string, properties: Option<Properties>)

  /** `event.properties || {}`. */
  function FlushedCapture(e: AnalyticsEvent): Capture {
    Capture(e.name, Some(if e.properties.Some? then e.properties.value else map[]))
  }

  /** The captures a flush of `events` makes, one per event in stored order. */
  function FlushedCaptures(events: seq<AnalyticsEvent>): (cs: seq<Capture>)
    ensures |cs| == |events|
    ensures forall i :: 0 <= i < |events| ==> cs[i].name == events[i].name
    ensures forall i :: 0 <= i < |events| ==> cs[i] == FlushedCapture(events[i])
  {
    seq(|events|, i requires 0 <= i < |events| => FlushedCapture(events[i]))
  }

  /** Every registered callback, in registration order, hearing `status`. */
  function Announce(callbacks: seq<nat>, status: string): (heard: seq<(nat, string)>)
    ensures |heard| == |callbacks|
    ensures forall i :: 0 <= i < |callbacks| ==> heard[i] == (callbacks[i], status)
  {
    seq(|callbacks|, i requires 0 <= i < |callbacks| => (callbacks[i], status))
  }

  /** The module state of analytics.ts together with the parts of the
      browser it touches. Callbacks are named by numbers. */
  class AnalyticsManager {
    var projectToken: string
    var apiHost: string
    var isInitialized: bool
    var consentCallbacks: seq<nat>
    /** Whether `cleanupNetworkListener` holds a function. */
    var hasNetworkCleanup: bool
    /** Network listener pairs currently registered on `window`. */
    var networkListeners: nat
    var storage: map<string, Stored>
    /** Every `posthog.capture` call, in order. */
    var captured: seq<Capture>
    /** The number of `posthog.init` calls. */
    var initCalls: nat
    /** Every callback invocation `(callback, status)`, in order. */
    var notifications: seq<(nat, string)>
    /** How often the consent dialog was requested. */
    var consentPrompts: nat

    /** A cleanup function exists only for a registered listener pair, and
        the client counts as initialized only after it was started. */
    ghost predicate Valid()
      reads this
    {
      (hasNetworkCleanup ==> networkListeners >= 1)
      && (isInitialized ==> initCalls >= 1)
    }

    /** The state at module load: the build-time configuration, nothing
        initialized, storage as the browser keeps it. */
    constructor (projectToken: string, apiHost: string, storage: map<string, Stored>)
      ensures this.projectToken == projectToken && this.apiHost == apiHost && this.storage == storage
      ensures !isInitialized && consentCallbacks == [] && !hasNetworkCleanup && networkListeners == 0
      ensures captured == [] && initCalls == 0 && notifications == [] && consentPrompts == 0
      ensures Valid()
    {
      this.projectToken := projectToken;
      this.apiHost := apiHost;
      this.storage := storage;
      isInitialized := false;
      consentCallbacks := [];
      hasNetworkCleanup := false;
      networkListeners := 0;
      captured := [];
      initCalls := 0;
      notifications := [];
      consentPrompts := 0;
    }

    /** `setConfig`: the fields given replace the current ones. */
    method SetConfig(newToken: Option<string>, newHost: Option<string>)
      modifies this
      ensures projectToken == (if newToken.Some? then newToken.value else old(projectToken))
      ensures apiHost == (if newHost.Some? then newHost.value else old(apiHost))
      ensures storage == old(storage) && captured == old(captured) && isInitialized == old(isInitialized)
      ensures initCalls == old(initCalls) && consentPrompts == old(consentPrompts)
      ensures consentCallbacks == old(consentCallbacks) && notifications == old(notifications)
      ensures hasNetworkCleanup == old(hasNetworkCleanup) && networkListeners == old(networkListeners)
    {
      if newToken.Some? {
        projectToken := newToken.value;
      }
      if newHost.Some? {
        apiHost := newHost.value;
      }
    }

    /** `getConsentStatus`. */
    function ConsentStatus(): (r: ConsentReading)
      reads this
      ensures r == ReadConsent(if ConsentKey in storage then Some(storage[ConsentKey]) else None)
    {
      ReadConsent(if ConsentKey in storage then Some(storage[ConsentKey]) else None)
    }

    /** `initPostHog`: nothing when already initialized or when no project
        token is configured; otherwise the client is started. The flag is
        only raised by `OnPostHogLoaded`, so a second call before the client
        has loaded starts it again. */
    method InitPostHog()
      requires Valid()
      modifies this
      ensures Valid()
      ensures initCalls == if old(isInitialized) || old(projectToken) == "" then old(initCalls)
                           else old(initCalls) + 1
      ensures storage == old(storage) && captured == old(captured) && isInitialized == old(isInitialized)
      ensures notifications == old(notifications) && consentCallbacks == old(consentCallbacks)
      ensures consentPrompts == old(consentPrompts) && hasNetworkCleanup == old(hasNetworkCleanup)
      ensures networkListeners == old(networkListeners)
      ensures projectToken == old(projectToken) && apiHost == old(apiHost)
    {
      if isInitialized {
        return;
      }
      if projectToken == "" {
        return;
      }
      initCalls := initCalls + 1;
    }

    /** `setConsentStatus`: the record is stored, every registered callback
        hears the new status in registration order, and "granted" starts
        the client. */
    method SetConsentStatus(status: Consent, now: int)
      requires Valid()
      modifies this
      ensures Valid()
      ensures storage == old(storage)[ConsentKey := ConsentRecord(status.Text(), now, "1.0")]
      ensures ConsentStatus() == Status(status.Text())
      ensures notifications == old(notifications) + Announce(consentCallbacks, status.Text())
      ensures initCalls == if status == Granted && !old(isInitialized) && projectToken != ""
                           then old(initCalls) + 1 else old(initCalls)
      ensures consentCallbacks == old(consentCallbacks) && captured == old(captured)
      ensures isInitialized == old(isInitialized) && projectToken == old(projectToken)
      ensures consentPrompts == old(consentPrompts) && hasNetworkCleanup == old(hasNetworkCleanup)
      ensures networkListeners == old(networkListeners) && apiHost == old(apiHost)
    {
      storage := storage[ConsentKey := ConsentRecord(status.Text(), now, "1.0")];
      notifications := notifications + Announce(consentCallbacks, status.Text());
      if status == Granted {
        InitPostHog();
      }
    }

    /** `onConsentChange`: the callback is registered last. */
    method OnConsentChange(cb: nat)
      modifies this
      ensures consentCallbacks == old(consentCallbacks) + [cb]
      ensures storage == old(storage) && captured == old(captured) && notifications == old(notifications)
      ensures isInitialized == old(isInitialized) && initCalls == old(initCalls)
      ensures consentPrompts == old(consentPrompts)
      ensures hasNetworkCleanup == old(hasNetworkCleanup) && networkListeners == old(networkListeners)
      ensures projectToken == old(projectToken) && apiHost == old(apiHost)
    {
      consentCallbacks := consentCallbacks + [cb];
    }

    /** The function `onConsentChange` returns: every registration of that
        callback is dropped, the others stay in order. */
    method Unsubscribe(cb: nat)
      modifies this
      ensures consentCallbacks == RemoveAll(old(consentCallbacks), cb)
      ensures storage == old(storage) && captured == old(captured) && notifications == old(notifications)
      ensures isInitialized == old(isInitialized) && initCalls == old(initCalls)
      ensures consentPrompts == old(consentPrompts)
      ensures hasNetworkCleanup == old(hasNetworkCleanup) && networkListeners == old(networkListeners)
      ensures projectToken == old(projectToken) && apiHost == old(apiHost)
    {
      consentCallbacks := RemoveAll(consentCallbacks, cb);
    }

    /** `flushOfflineEvents`: a non-empty cached list is captured in stored
        order and the item removed; an absent, blank, empty, unparsable or
        non-list item changes nothing. */
    method FlushOfflineEvents()
      modifies this
      ensures captured == old(captured) + FlushedCaptures(Pending(old(storage)))
      ensures storage == if Pending(old(storage)) == [] then old(storage)
                         else old(storage) - {OfflineEventsKey}
      ensures isInitialized == old(isInitialized) && initCalls == old(initCalls)
      ensures hasNetworkCleanup == old(hasNetworkCleanup) && networkListeners == old(networkListeners)
      ensures consentCallbacks == old(consentCallbacks) && notifications == old(notifications)
      ensures consentPrompts == old(consentPrompts)
      ensures projectToken == old(projectToken) && apiHost == old(apiHost)
    {
      if OfflineEventsKey !in storage {
        return;
      }
      match storage[OfflineEventsKey]
      case EventList(events) =>
        if |events| == 0 {
          return;
        }
        var i := 0;
        while i < |events|
          invariant 0 <= i <= |events|
          invariant captured == old(captured) + FlushedCaptures(events[..i])
          invariant storage == old(storage)
          invariant isInitialized == old(isInitialized) && initCalls == old(initCalls)
          invariant hasNetworkCleanup == old(hasNetworkCleanup) && networkListeners == old(networkListeners)
          invariant consentCallbacks == old(consentCallbacks) && notifications == old(notifications)
          invariant consentPrompts == old(consentPrompts)
          invariant projectToken == old(projectToken) && apiHost == old(apiHost)
        {
          assert FlushedCaptures(events[..i + 1]) == FlushedCaptures(events[..i]) + [FlushedCapture(events[i])];
          captured := captured + [FlushedCapture(events[i])];
          i := i + 1;
        }
        assert events[..|events|] == events;
        storage := storage - {OfflineEventsKey};
      case _ =>
    }

    /** `cacheOfflineEvent`. */
    method CacheOfflineEvent(e: AnalyticsEvent)
      modifies this
      ensures storage == WithCached(old(storage), e)
      ensures captured == old(captured) && isInitialized == old(isInitialized) && initCalls == old(initCalls)
      ensures hasNetworkCleanup == old(hasNetworkCleanup) && networkListeners == old(networkListeners)
      ensures consentCallbacks == old(consentCallbacks) && notifications == old(notifications)
      ensures consentPrompts == old(consentPrompts)
      ensures projectToken == old(projectToken) && apiHost == old(apiHost)
    {
      if OfflineEventsKey !in storage || storage[OfflineEventsKey] == Blank {
        storage := storage[OfflineEventsKey := EventList([e])];
      } else if storage[OfflineEventsKey].EventList? {
        var events := storage[OfflineEventsKey].events + [e];
        if |events| > MaxOfflineEvents {
          events := events[|events| - MaxOfflineEvents..];
        }
        storage := storage[OfflineEventsKey := EventList(events)];
      }
    }

    /** `trackEvent`: once the client is initialized the event is captured;
        before that it is cached, but only while the browser reports being
        online (`navigator.onLine`), and dropped while offline. */
    method TrackEvent(name: string, properties: Option<Properties>, online: bool)
      requires Valid()
      modifies this
      ensures Valid()
      ensures old(isInitialized) ==> captured == old(captured) + [Capture(name, properties)]
                                     && storage == old(storage)
      ensures !old(isInitialized) ==> captured == old(captured)
      ensures !old(isInitialized) && !online ==> storage == old(storage)
      ensures !old(isInitialized) && online ==> storage == WithCached(old(storage), AnalyticsEvent(name, properties))
      ensures isInitialized == old(isInitialized) && initCalls == old(initCalls)
      ensures consentCallbacks == old(consentCallbacks) && notifications == old(notifications)
      ensures consentPrompts == old(consentPrompts)
      ensures hasNetworkCleanup == old(hasNetworkCleanup) && networkListeners == old(networkListeners)
      ensures projectToken == old(projectToken) && apiHost == old(apiHost)
    {
      if !isInitialized {
        if online {
          CacheOfflineEvent(AnalyticsEvent(name, properties));
        }
        return;
      }
      captured := captured + [Capture(name, properties)];
    }

    /** The properties of the `app_started` event: the build's version (or
        "unknown"), the platform read from the user agent, and the browser
        language. */
    static function StartProperties(appVersion: string, userAgent: string, language: string): (p: Properties)
      ensures p.Keys == {"app_version", "platform", "language"}
      ensures p["app_version"] != "" && (appVersion != "" ==> p["app_version"] == appVersion)
      ensures p["platform"] == PlatformInfo(userAgent) && p["language"] == language
    {
      map["app_version" := if appVersion == "" then "unknown" else appVersion,
          "platform" := PlatformInfo(userAgent),
          "language" := language]
    }

    /** The `loaded` callback PostHog runs once `posthog.init` finished:
        the flag is raised, the offline cache flushed, then `app_started`
        captured. */
    method OnPostHogLoaded(appVersion: string, userAgent: string, language: string)
      requires Valid() && initCalls >= 1
      modifies this
      ensures Valid() && isInitialized
      ensures captured == old(captured) + FlushedCaptures(Pending(old(storage)))
                          + [Capture("app_started", Some(StartProperties(appVersion, userAgent, language)))]
      ensures storage == if Pending(old(storage)) == [] then old(storage)
                         else old(storage) - {OfflineEventsKey}
      ensures Pending(storage) == []
      ensures initCalls == old(initCalls) && consentCallbacks == old(consentCallbacks)
      ensures notifications == old(notifications) && consentPrompts == old(consentPrompts)
      ensures hasNetworkCleanup == old(hasNetworkCleanup) && networkListeners == old(networkListeners)
      ensures projectToken == old(projectToken) && apiHost == old(apiHost)
    {
      isInitialized := true;
      FlushOfflineEvents();
      captured := captured + [Capture("app_started", Some(StartProperties(appVersion, userAgent, language)))];
    }

    /** What the consent-dependent handlers of `initAnalytics` do when the
        network is available: act on the stored consent. */
    method ReactToConsent()
      requires Valid()
      modifies this
      ensures Valid()
      ensures ActionFor(old(ConsentStatus())) == StartTracking ==>
                initCalls == (if old(isInitialized) || old(projectToken) == "" then old(initCalls)
                              else old(initCalls) + 1)
                && consentPrompts == old(consentPrompts)
      ensures ActionFor(old(ConsentStatus())) == AskUser ==>
                consentPrompts == old(consentPrompts) + 1 && initCalls == old(initCalls)
      ensures ActionFor(old(ConsentStatus())) == StaySilent ==>
                consentPrompts == old(consentPrompts) && initCalls == old(initCalls)
      ensures storage == old(storage) && captured == old(captured) && isInitialized == old(isInitialized)
      ensures consentCallbacks == old(consentCallbacks) && notifications == old(notifications)
      ensures hasNetworkCleanup == old(hasNetworkCleanup) && networkListeners == old(networkListeners)
      ensures projectToken == old(projectToken) && apiHost == old(apiHost)
    {
      match ActionFor(ConsentStatus())
      case StartTracking => InitPostHog();
      case AskUser => consentPrompts := consentPrompts + 1;
      case StaySilent =>
    }

    /** `initAnalytics`: registers the online/offline listeners (keeping
        only the newest cleanup function, so an earlier pair stays
        registered for good) and schedules the first network check;
        `ReactToConsent` is what both then run when the network is found
        available. */
    method InitAnalytics()
      requires Valid()
      modifies this
      ensures Valid() && hasNetworkCleanup
      ensures networkListeners == old(networkListeners) + 1
      ensures storage == old(storage) && captured == old(captured) && consentCallbacks == old(consentCallbacks)
      ensures isInitialized == old(isInitialized) && initCalls == old(initCalls)
      ensures notifications == old(notifications) && consentPrompts == old(consentPrompts)
      ensures projectToken == old(projectToken) && apiHost == old(apiHost)
    {
      networkListeners := networkListeners + 1;
      hasNetworkCleanup := true;
    }

    /** The scheduled network check reports: offline waits silently,
        online acts on the stored consent. */
    method OnNetworkChecked(online: bool)
      requires Valid()
      modifies this
      ensures Valid()
      ensures !online ==> initCalls == old(initCalls) && consentPrompts == old(consentPrompts)
      ensures online && ActionFor(old(ConsentStatus())) == StartTracking ==>
                initCalls == (if old(isInitialized) || old(projectToken) == "" then old(initCalls)
                              else old(initCalls) + 1)
                && consentPrompts == old(consentPrompts)
      ensures online && ActionFor(old(ConsentStatus())) == AskUser ==>
                consentPrompts == old(consentPrompts) + 1 && initCalls == old(initCalls)
      ensures online && ActionFor(old(ConsentStatus())) == StaySilent ==>
                consentPrompts == old(consentPrompts) && initCalls == old(initCalls)
      ensures storage == old(storage) && captured == old(captured) && isInitialized == old(isInitialized)
      ensures consentCallbacks == old(consentCallbacks) && notifications == old(notifications)
      ensures hasNetworkCleanup == old(hasNetworkCleanup) && networkListeners == old(networkListeners)
      ensures projectToken == old(projectToken) && apiHost == old(apiHost)
    {
      if !online {
        return;
      }
      ReactToConsent();
    }

    /** `cleanup`: the registered listener pair is removed, if any, and
        every consent callback is dropped. */
    method Cleanup()
      requires Valid()
      modifies this
      ensures Valid() && !hasNetworkCleanup && consentCallbacks == []
      ensures networkListeners == if old(hasNetworkCleanup) then old(networkListeners) - 1 else old(networkListeners)
      ensures storage == old(storage) && captured == old(captured) && isInitialized == old(isInitialized)
      ensures initCalls == old(initCalls) && notifications == old(notifications)
      ensures consentPrompts == old(consentPrompts)
      ensures projectToken == old(projectToken) && apiHost == old(apiHost)
    {
      if hasNetworkCleanup {
        networkListeners := networkListeners - 1;
        hasNetworkCleanup := false;
      }
      consentCallbacks := [];
    }
  }
}
