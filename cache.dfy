/**
 * The client-side cache of the dashboard (services/cacheService.ts): a single
 * snapshot of the record collections served with stale-while-revalidate tiers,
 * reloads that keep the previous snapshot when they fail, a deduplicated
 * background revalidation, notification of subscribers, and the calendar-day
 * reconciliation of `filterByDateRange`.
 *
 * Each `await` splits an operation into atomic steps: the outcome of a load is
 * a parameter of the step that receives it, and the clock is a parameter too.
 */
module Cache {
  import opened Common
  import opened Types

  /** Data younger than this is served without a fetch (5 minutes). */
  const StaleTime: int := 300000
  /** Data younger than this is served and revalidated in the background (30 minutes). */
  const MaxAge: int := 1800000

  /** A thrown value: an `Error` with its message, or anything else. */
  datatype Thrown = ErrorValue(message: string) | NonError

  /** A `DateRange | null | undefined` argument. */
  datatype RangeArg = Undefined | Null | Given(range: DateRange)

  /** `dateRange || null`, as stored in a snapshot: a range object is always truthy. */
  function OrNull(r: RangeArg): (o: Option<DateRange>)
    ensures o.Some? <==> r.Given?
    ensures r.Given? ==> o.value == r.range
  {
    if r.Given? then Some(r.range) else None
  }

  /** `dateRange || null`, as stored in `currentDateRange`: never `undefined` again. */
  function Stored(r: RangeArg): (s: RangeArg)
    ensures s != Undefined
    ensures OrNull(s) == OrNull(r)
  {
    if r.Given? then r else Null
  }

  // ---------------------------------------------------------------------------
  // Network errors
  // ---------------------------------------------------------------------------

  /** The fragments whose presence in a lower-cased message marks a network error. */
  const NetworkMarkers: seq<string> := [
    "network", "timeout", "timed_out", "err_internet_disconnected",
    "err_connection", "failed to fetch", "networkerror", "abort"]

  /** `isNetworkError`: an `Error` whose lower-cased message contains one of the markers. */
  function IsNetworkError(e: Thrown): (b: bool)
    ensures b <==> e.ErrorValue? && exists k :: 0 <= k < |NetworkMarkers| && Contains(Lower(e.message), NetworkMarkers[k])
  {
    match e
    case NonError => false
    case ErrorValue(m) =>
      var s := Lower(m);
      var b := Contains(s, "network") || Contains(s, "timeout") || Contains(s, "timed_out")
        || Contains(s, "err_internet_disconnected") || Contains(s, "err_connection")
        || Contains(s, "failed to fetch") || Contains(s, "networkerror") || Contains(s, "abort");
      MarkersListed(s);
      b
  }

  /** The markers, one by one. */
  lemma MarkersListed(s: string)
    ensures (exists k :: 0 <= k < |NetworkMarkers| && Contains(s, NetworkMarkers[k]))
        <==> (Contains(s, "network") || Contains(s, "timeout") || Contains(s, "timed_out")
              || Contains(s, "err_internet_disconnected") || Contains(s, "err_connection")
              || Contains(s, "failed to fetch") || Contains(s, "networkerror") || Contains(s, "abort"))
  {
    if exists k :: 0 <= k < |NetworkMarkers| && Contains(s, NetworkMarkers[k]) {
      var k :| 0 <= k < |NetworkMarkers| && Contains(s, NetworkMarkers[k]);
      assert k < 8;
    } else {
      assert !Contains(s, NetworkMarkers[0]) && !Contains(s, NetworkMarkers[1]);
      assert !Contains(s, NetworkMarkers[2]) && !Contains(s, NetworkMarkers[3]);
      assert !Contains(s, NetworkMarkers[4]) && !Contains(s, NetworkMarkers[5]);
      assert !Contains(s, NetworkMarkers[6]) && !Contains(s, NetworkMarkers[7]);
    }
  }

  /** The rejection of a request that outlives its timeout counts as a network error. */
  lemma TimeoutIsNetworkError(rest: string)
    ensures IsNetworkError(ErrorValue("Timeout: " + rest))
  {
    var m := "Timeout: " + rest;
    var s := Lower(m);
    assert s[0] == 't' && s[1] == 'i' && s[2] == 'm' && s[3] == 'e';
    assert s[4] == 'o' && s[5] == 'u' && s[6] == 't';
    assert s[..7] == "timeout";
    ContainsAt(s, 0, "timeout");
    assert Contains(Lower(m), NetworkMarkers[1]);
  }

  /** A thrown value that is not an `Error` is never a network error. */
  lemma NonErrorNotNetwork()
    ensures !IsNetworkError(NonError)
  {
  }

  /** The message of the `Error` the cache stores for a thrown value. */
  function ErrorMessage(e: Thrown): (m: string)
    ensures e.ErrorValue? ==> m == e.message
    ensures e.NonError? ==> m == "Error desconocido"
  {
    match e
    case ErrorValue(msg) => msg
    case NonError => "Error desconocido"
  }

  // ---------------------------------------------------------------------------
  // Snapshots and the load of all collections
  // ---------------------------------------------------------------------------

  /** `CachedData`: one load of the collections, with every contact for the funnel. */
  datatype CachedData = CachedData(
    sellers: seq<Seller>,
    contacts: seq<Contact>,
    allContacts: seq<Contact>,
    interactions: seq<Interaction>,
    sales: seq<Sale>,
    attempts: seq<PurchaseAttempt>,
    timestamp: int,
    isDemo: bool,
    dateRange: Option<DateRange>)

  /**
   * What each fetcher yields for this load, a request that times out being a
   * failure: the record fetchers take the range as passed, the funnel fetch
   * takes the fixed list of funnel statuses.
   */
  datatype Sources = Sources(
    sellers: Result<seq<Seller>, Thrown>,
    sales: RangeArg -> Result<seq<Sale>, Thrown>,
    contacts: RangeArg -> Result<seq<Contact>, Thrown>,
    funnelContacts: Result<seq<Contact>, Thrown>,
    interactions: RangeArg -> Result<seq<Interaction>, Thrown>,
    attempts: RangeArg -> Result<seq<PurchaseAttempt>, Thrown>)

  /** The five record fetches of a load all succeed. */
  predicate AllFetched(range: RangeArg, src: Sources) {
    src.sellers.Ok? && src.sales(range).Ok? && src.contacts(range).Ok?
    && src.interactions(range).Ok? && src.attempts(range).Ok?
  }

  /**
   * `fetchAllData(dateRange)` finishing at `now`: empty demo collections without
   * a configured API; otherwise sellers, sales, contacts, the funnel contacts,
   * interactions and attempts one after another, the first failure of a record
   * fetch aborting the load. A failed or empty funnel fetch falls back to the
   * range's contacts.
   */
  function FetchAllData(range: RangeArg, apiConfigured: bool, src: Sources, now: int): (r: Result<CachedData, Thrown>)
    ensures !apiConfigured ==> r == Ok(CachedData([], [], [], [], [], [], now, true, OrNull(range)))
    ensures apiConfigured ==> (r.Ok? <==> AllFetched(range, src))
    ensures apiConfigured && r.Ok? ==>
      r.value.sellers == src.sellers.value && r.value.contacts == src.contacts(range).value
      && r.value.sales == src.sales(range).value && r.value.interactions == src.interactions(range).value
      && r.value.attempts == src.attempts(range).value
      && r.value.allContacts == (if src.funnelContacts.Ok? && |src.funnelContacts.value| > 0
                                 then src.funnelContacts.value else src.contacts(range).value)
      && r.value.timestamp == now && !r.value.isDemo && r.value.dateRange == OrNull(range)
  {
    if !apiConfigured then
      Ok(CachedData([], [], [], [], [], [], now, true, OrNull(range)))
    else if src.sellers.Err? then Err(src.sellers.error)
    else if src.sales(range).Err? then Err(src.sales(range).error)
    else if src.contacts(range).Err? then Err(src.contacts(range).error)
    else
      var contacts := src.contacts(range).value;
      var all := if src.funnelContacts.Ok? && |src.funnelContacts.value| > 0 then src.funnelContacts.value else contacts;
      if src.interactions(range).Err? then Err(src.interactions(range).error)
      else if src.attempts(range).Err? then Err(src.attempts(range).error)
      else
        Ok(CachedData(src.sellers.value, contacts, all, src.interactions(range).value,
          src.sales(range).value, src.attempts(range).value, now, false, OrNull(range)))
  }

  /** A failed funnel fetch never fails a load: it counts as an empty one. */
  lemma FunnelFailureHarmless(range: RangeArg, src: Sources, e: Thrown, now: int)
    ensures FetchAllData(range, true, src.(funnelContacts := Err(e)), now)
         == FetchAllData(range, true, src.(funnelContacts := Ok([])), now)
  {
  }

  /** The first record fetch to fail in load order decides the error of the load. */
  lemma FirstFailureWins(range: RangeArg, src: Sources, now: int)
    requires !AllFetched(range, src)
    ensures var r := FetchAllData(range, true, src, now);
      r.Err?
      && (src.sellers.Err? ==> r.error == src.sellers.error)
      && (src.sellers.Ok? && src.sales(range).Err? ==> r.error == src.sales(range).error)
      && (src.sellers.Ok? && src.sales(range).Ok? && src.contacts(range).Err? ==> r.error == src.contacts(range).error)
  {
  }

  // ---------------------------------------------------------------------------
  // Cache state and its transitions
  // ---------------------------------------------------------------------------

  /** `CacheState`; `error` is the message of the stored `Error`. */
  datatype CacheState = CacheState(
    data: Option<CachedData>,
    isLoading: bool,
    error: Option<string>,
    lastFetch: Option<int>,
    isNetworkError: bool,
    currentDateRange: RangeArg)

  /** The state before any load: no data, nothing loading, no range recorded. */
  const InitialState: CacheState := CacheState(None, false, None, None, false, Undefined)

  /**
   * What every transition keeps: data and the time of the last fetch come and
   * go together, and a state that has never recorded a range is the initial one.
   */
  predicate Coherent(s: CacheState) {
    (s.data.Some? <==> s.lastFetch.Some?)
    && (s.currentDateRange == Undefined ==> s.data.None? && !s.isLoading && s.error.None?)
  }

  /** The first step of `invalidateCache(range)`, before any fetch. */
  function Loading(s: CacheState, range: RangeArg): (t: CacheState)
    ensures t.isLoading && t.error.None? && !t.isNetworkError
    ensures t.currentDateRange == Stored(range)
    ensures t.data == s.data && t.lastFetch == s.lastFetch
  {
    s.(isLoading := true, error := None, isNetworkError := false, currentDateRange := Stored(range))
  }

  /** A successful load for `range` completed at `now`: the snapshot is replaced wholesale. */
  function Replaced(range: RangeArg, data: CachedData, now: int): (t: CacheState)
    ensures t.data == Some(data) && t.lastFetch == Some(now)
    ensures !t.isLoading && t.error.None? && !t.isNetworkError
    ensures t.currentDateRange == Stored(range)
  {
    CacheState(Some(data), false, None, Some(now), false, Stored(range))
  }

  /** The last step of `invalidateCache(range)`, given the outcome of the load. */
  function Settled(s: CacheState, range: RangeArg, load: Result<CachedData, Thrown>, now: int): (t: CacheState)
    ensures !t.isLoading
    ensures load.Ok? ==> t == Replaced(range, load.value, now)
    ensures load.Err? ==>
      t.data == s.data && t.lastFetch == s.lastFetch && t.currentDateRange == s.currentDateRange
      && t.error == Some(ErrorMessage(load.error)) && t.isNetworkError == IsNetworkError(load.error)
  {
    match load
    case Ok(data) => Replaced(range, data, now)
    case Err(e) => s.(isLoading := false, error := Some(ErrorMessage(e)), isNetworkError := IsNetworkError(e))
  }

  /** Every transition keeps a coherent state coherent. */
  lemma TransitionsCoherent(s: CacheState, range: RangeArg, load: Result<CachedData, Thrown>, data: CachedData, now: int)
    requires Coherent(s)
    ensures Coherent(Loading(s, range))
    ensures Coherent(Settled(Loading(s, range), range, load, now))
    ensures Coherent(Replaced(range, data, now))
  {
  }

  /**
   * `datesEqual`: two absent ranges are equal, an absent and a present one are
   * not, and two present ones are equal when both ends agree to the millisecond.
   */
  function DatesEqual(a: RangeArg, b: RangeArg): (e: bool)
    ensures e <==> OrNull(a) == OrNull(b)
  {
    if !a.Given? && !b.Given? then true
    else if !a.Given? || !b.Given? then false
    else a.range.start == b.range.start && a.range.end == b.range.end
  }

  /** The test of `getData` that forces a reload: both ranges defined and not `datesEqual`. */
  function RangeChanged(current: RangeArg, requested: RangeArg): (b: bool)
    ensures b <==> current != Undefined && requested != Undefined && OrNull(current) != OrNull(requested)
    ensures current == Undefined ==> !b
  {
    current != Undefined && requested != Undefined && !DatesEqual(current, requested)
  }

  /**
   * A failed reload for a new range still records that range: the next request
   * for it is not a range change, and the data of the old range is served.
   */
  lemma FailedReloadAdoptsRange(s: CacheState, range: RangeArg, e: Thrown, now: int)
    requires range != Undefined
    ensures var t := Settled(Loading(s, range), range, Err(e), now);
      t.data == s.data && !RangeChanged(t.currentDateRange, range)
  {
  }

  /** The freshness tier of the cached data for a request at `now`. */
  datatype Tier = Fresh | Stale | Expired

  function TierOf(s: CacheState, forceRefresh: bool, now: int): (t: Tier)
    ensures t == Fresh <==> s.data.Some? && !forceRefresh && now - s.data.value.timestamp < StaleTime
    ensures t == Stale <==> s.data.Some? && !forceRefresh && StaleTime <= now - s.data.value.timestamp < MaxAge
    ensures s.data.None? || forceRefresh ==> t == Expired
  {
    if s.data.Some? && !forceRefresh then
      var age := now - s.data.value.timestamp;
      if age < StaleTime then Fresh
      else if age < MaxAge then Stale
      else Expired
    else Expired
  }

  /** What a subscriber receives: the subscribers at the time and the state they are handed. */
  datatype Notice = Notice(recipients: set<nat>, state: CacheState)

  /**
   * The module-level cache: its state, its subscribers (by callback identity),
   * the range of the background revalidation in flight (`revalidationPromise`),
   * and the log of every notification sent.
   */
  class CacheService {
    var state: CacheState
    var subscribers: set<nat>
    var revalidation: Option<RangeArg>
    var notices: seq<Notice>

    constructor ()
      ensures state == InitialState && subscribers == {} && revalidation == None && notices == []
    {
      state := InitialState;
      subscribers := {};
      revalidation := None;
      notices := [];
    }

    /** `subscribe(callback)`; adding a callback already present changes nothing. */
    method Subscribe(id: nat)
      modifies this
      ensures subscribers == old(subscribers) + {id}
      ensures state == old(state) && revalidation == old(revalidation) && notices == old(notices)
    {
      subscribers := subscribers + {id};
    }

    /** The function `subscribe` returns: the callback is no longer notified. */
    method Unsubscribe(id: nat)
      modifies this
      ensures subscribers == old(subscribers) - {id}
      ensures state == old(state) && revalidation == old(revalidation) && notices == old(notices)
    {
      subscribers := subscribers - {id};
    }

    /** `notifySubscribers`: every current subscriber is handed the current state. */
    method Notify()
      modifies this
      ensures notices == old(notices) + [Notice(subscribers, state)]
      ensures state == old(state) && subscribers == old(subscribers) && revalidation == old(revalidation)
    {
      notices := notices + [Notice(subscribers, state)];
    }

    /** `invalidateCache(range)` up to its `await`: mark the load and tell the subscribers. */
    method BeginInvalidate(range: RangeArg)
      modifies this
      ensures state == Loading(old(state), range)
      ensures notices == old(notices) + [Notice(subscribers, state)]
      ensures subscribers == old(subscribers) && revalidation == old(revalidation)
    {
      state := Loading(state, range);
      Notify();
    }

    /** `invalidateCache(range)` after its `await`, given the outcome of the load. */
    method FinishInvalidate(range: RangeArg, load: Result<CachedData, Thrown>, now: int)
      modifies this
      ensures state == Settled(old(state), range, load, now)
      ensures notices == old(notices) + [Notice(subscribers, state)]
      ensures subscribers == old(subscribers) && revalidation == old(revalidation)
    {
      state := Settled(state, range, load, now);
      Notify();
    }

    /** `invalidateCache(range)` with nothing interleaved: two notifications, loading then settled. */
    method InvalidateCache(range: RangeArg, load: Result<CachedData, Thrown>, now: int)
      modifies this
      ensures state == Settled(Loading(old(state), range), range, load, now)
      ensures notices == old(notices) + [Notice(subscribers, Loading(old(state), range)), Notice(subscribers, state)]
      ensures subscribers == old(subscribers) && revalidation == old(revalidation)
    {
      BeginInvalidate(range);
      FinishInvalidate(range, load, now);
    }

    /** `revalidateInBackground(range)` up to its `await`: a no-op while one is in flight. */
    method RevalidateInBackground(range: RangeArg)
      modifies this
      ensures revalidation == if old(revalidation).Some? then old(revalidation) else Some(range)
      ensures state == old(state) && subscribers == old(subscribers) && notices == old(notices)
    {
      if revalidation.Some? {
        return;
      }
      revalidation := Some(range);
    }

    /**
     * The revalidation in flight receives the outcome of its load: a success
     * replaces the snapshot and notifies, a failure changes nothing and is not
     * notified; either way no revalidation is pending afterwards.
     */
    method CompleteRevalidation(load: Result<CachedData, Thrown>, now: int)
      requires revalidation.Some?
      modifies this
      ensures revalidation == None && subscribers == old(subscribers)
      ensures load.Ok? ==>
        state == Replaced(old(revalidation).value, load.value, now)
        && notices == old(notices) + [Notice(subscribers, state)]
      ensures load.Err? ==> state == old(state) && notices == old(notices)
    {
      var range := revalidation.value;
      if load.Ok? {
        state := Replaced(range, load.value, now);
        Notify();
      }
      revalidation := None;
    }

    /**
     * `getData(forceRefresh, range)` at `now`. A load it waits for has outcome
     * `load` and completes at `done`. The result is the data held afterwards.
     */
    method GetData(forceRefresh: bool, range: RangeArg, now: int, load: Result<CachedData, Thrown>, done: int)
      returns (r: Option<CachedData>)
      modifies this
      ensures r == state.data && subscribers == old(subscribers)
      ensures old(notices) <= notices
      ensures RangeChanged(old(state).currentDateRange, range) ==>
        state == Settled(Loading(old(state), range), range, load, done)
        && notices == old(notices) + [Notice(subscribers, Loading(old(state), range)), Notice(subscribers, state)]
        && revalidation == old(revalidation)
      ensures !RangeChanged(old(state).currentDateRange, range) && TierOf(old(state), forceRefresh, now) == Fresh ==>
        state == old(state) && notices == old(notices) && revalidation == old(revalidation)
      ensures !RangeChanged(old(state).currentDateRange, range) && TierOf(old(state), forceRefresh, now) == Stale ==>
        state == old(state) && notices == old(notices)
        && revalidation == if old(revalidation).Some? then old(revalidation) else Some(range)
      ensures !RangeChanged(old(state).currentDateRange, range) && TierOf(old(state), forceRefresh, now) == Expired ==>
        revalidation == old(revalidation)
        && (old(state).isLoading ==> state == old(state) && notices == old(notices))
        && (!old(state).isLoading ==>
              state == Settled(Loading(old(state), range), range, load, done)
              && notices == old(notices) + [Notice(subscribers, Loading(old(state), range)), Notice(subscribers, state)])
    {
      if RangeChanged(state.currentDateRange, range) {
        InvalidateCache(range, load, done);
        return state.data;
      }
      var tier := TierOf(state, forceRefresh, now);
      if tier == Fresh {
        return state.data;
      }
      if tier == Stale {
        RevalidateInBackground(range);
        return state.data;
      }
      if !state.isLoading {
        InvalidateCache(range, load, done);
      }
      r := state.data;
    }
  }

  // ---------------------------------------------------------------------------
  // Reconciliation with the selected range
  // ---------------------------------------------------------------------------

  /** `isSameCalendarDay`: same local year, month and day, that is, the same local day. */
  function SameCalendarDay(a: int, b: int, tz: int): (same: bool)
    ensures same <==> DayStart(a, tz) <= b <= DayEnd(a, tz)
    ensures same <==> DayStart(b, tz) <= a <= DayEnd(b, tz)
  {
    DayWindow(b, a, tz);
    DayWindow(a, b, tz);
    DayOf(a, tz) == DayOf(b, tz)
  }

  /** `isSameDateRange`: false without a stored range, else both ends on the same local days. */
  function SameDateRange(stored: Option<DateRange>, startMs: int, endMs: int, tz: int): (b: bool)
    ensures b <==> stored.Some? && SameCalendarDay(stored.value.start, startMs, tz) && SameCalendarDay(stored.value.end, endMs, tz)
  {
    match stored
    case None => false
    case Some(r) => SameCalendarDay(r.start, startMs, tz) && SameCalendarDay(r.end, endMs, tz)
  }

  /** The four date-bearing collections `filterByDateRange` returns. */
  datatype Filtered = Filtered(
    contacts: seq<Contact>,
    interactions: seq<Interaction>,
    sales: seq<Sale>,
    attempts: seq<PurchaseAttempt>)

  /**
   * `filterByDateRange(data, start, end)`: the stored collections as they are
   * when the snapshot was loaded for the same local days, else each reduced, in
   * order, to the records whose date parses and lies in [start, end].
   */
  function FilterByDateRange(data: CachedData, startMs: int, endMs: int, tz: int): (r: Filtered)
    ensures SameDateRange(data.dateRange, startMs, endMs, tz) ==>
      r == Filtered(data.contacts, data.interactions, data.sales, data.attempts)
    ensures !SameDateRange(data.dateRange, startMs, endMs, tz) ==>
      (forall c :: c in r.contacts <==> c in data.contacts && WithinMs(c.createdAt, startMs, endMs))
      && (forall i :: i in r.interactions <==> i in data.interactions && WithinMs(i.date, startMs, endMs))
      && (forall s :: s in r.sales <==> s in data.sales && WithinMs(s.date, startMs, endMs))
      && (forall a :: a in r.attempts <==> a in data.attempts && WithinMs(a.date, startMs, endMs))
    ensures !SameDateRange(data.dateRange, startMs, endMs, tz) ==>
      r.contacts == Filter(data.contacts, ContactWithin(startMs, endMs))
      && r.interactions == Filter(data.interactions, InteractionWithin(startMs, endMs))
      && r.sales == Filter(data.sales, SaleWithin(startMs, endMs))
      && r.attempts == Filter(data.attempts, AttemptWithin(startMs, endMs))
    ensures |r.contacts| <= |data.contacts| && |r.interactions| <= |data.interactions|
    ensures |r.sales| <= |data.sales| && |r.attempts| <= |data.attempts|
  {
    if SameDateRange(data.dateRange, startMs, endMs, tz) then
      Filtered(data.contacts, data.interactions, data.sales, data.attempts)
    else
      Filtered(
        Filter(data.contacts, ContactWithin(startMs, endMs)),
        Filter(data.interactions, InteractionWithin(startMs, endMs)),
        Filter(data.sales, SaleWithin(startMs, endMs)),
        Filter(data.attempts, AttemptWithin(startMs, endMs)))
  }

  /**
   * Filtering by a window keeps exactly the records of an earlier filter by a
   * wider window that fall in the narrower one, in the same order.
   */
  lemma FilterNarrows(data: CachedData, a: int, b: int, c: int, d: int, tz: int)
    requires a <= c && d <= b
    requires !SameDateRange(data.dateRange, a, b, tz) && !SameDateRange(data.dateRange, c, d, tz)
    ensures Filter(FilterByDateRange(data, a, b, tz).sales, SaleWithin(c, d)) == FilterByDateRange(data, c, d, tz).sales
    ensures Filter(FilterByDateRange(data, a, b, tz).contacts, ContactWithin(c, d)) == FilterByDateRange(data, c, d, tz).contacts
  {
    FilterFilter(data.sales, SaleWithin(a, b), SaleWithin(c, d), SaleWithin(c, d));
    FilterFilter(data.contacts, ContactWithin(a, b), ContactWithin(c, d), ContactWithin(c, d));
  }

  /**
   * A snapshot loaded for a range is passed through unchanged for any window on
   * the same local days, even one that excludes some of its records.
   */
  lemma SameDaysPassThrough(data: CachedData, startMs: int, endMs: int, tz: int, s: Sale)
    requires data.dateRange.Some? && s in data.sales && !WithinMs(s.date, startMs, endMs)
    requires SameCalendarDay(data.dateRange.value.start, startMs, tz)
    requires SameCalendarDay(data.dateRange.value.end, endMs, tz)
    ensures s in FilterByDateRange(data, startMs, endMs, tz).sales
  {
  }
}
