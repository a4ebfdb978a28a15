/**
 * The dashboard hook (hooks/useDashboardData.ts) as an object whose fields are
 * its React state: the date-filtered collections, sellers, every contact, the
 * demo flag, the error, the network-error flag and `isInitialLoad`, plus the
 * `mountedRef` guard. The hook is subscribed to the cache under `id`; each
 * notification the cache sends during one of the hook's calls is delivered to
 * the subscriber callback before the call resumes.
 */
module Hook {
  import opened Common
  import opened Types
  import opened Cache

  /** The React state of the hook, as one value. */
  datatype HookState = HookState(
    filtered: Filtered,
    allContacts: seq<Contact>,
    sellers: seq<Seller>,
    isDemo: bool,
    error: Option<string>,
    isInitialLoad: bool,
    isNetworkError: bool)

  const InitialHookState: HookState := HookState(Filtered([], [], [], []), [], [], false, None, true, false)

  /** A snapshot taken over: its sellers, demo flag and contacts, and its collections filtered to the window. */
  function Shown(h: HookState, data: CachedData, startMs: int, endMs: int, tz: int): (g: HookState)
    ensures g.sellers == data.sellers && g.isDemo == data.isDemo && g.allContacts == data.allContacts
    ensures g.filtered == FilterByDateRange(data, startMs, endMs, tz)
    ensures g.error == h.error && g.isInitialLoad == h.isInitialLoad && g.isNetworkError == h.isNetworkError
  {
    h.(filtered := FilterByDateRange(data, startMs, endMs, tz), allContacts := data.allContacts,
       sellers := data.sellers, isDemo := data.isDemo)
  }

  /**
   * The subscriber callback receiving `s`: nothing once unmounted; otherwise a
   * snapshot is taken over when there is one, and an error is taken over when
   * there is one, an absent error clearing nothing.
   */
  function Received(h: HookState, s: CacheState, mounted: bool, startMs: int, endMs: int, tz: int): (g: HookState)
    ensures !mounted ==> g == h
    ensures mounted && s.data.Some? ==> g.filtered == FilterByDateRange(s.data.value, startMs, endMs, tz)
    ensures s.data.None? ==> g.filtered == h.filtered && g.sellers == h.sellers && g.allContacts == h.allContacts && g.isDemo == h.isDemo
    ensures s.error.None? ==> g.error == h.error && g.isNetworkError == h.isNetworkError
    ensures mounted && s.error.Some? ==> g.error == s.error && g.isNetworkError == s.isNetworkError
    ensures g.isInitialLoad == h.isInitialLoad
  {
    if !mounted then h
    else
      var g := if s.data.Some? then Shown(h, s.data.value, startMs, endMs, tz) else h;
      if s.error.Some? then g.(error := s.error, isNetworkError := s.isNetworkError) else g
  }

  /** A run of notifications, in order, as the subscriber `id` receives them. */
  function Replayed(h: HookState, ns: seq<Notice>, id: nat, mounted: bool, startMs: int, endMs: int, tz: int): HookState
    decreases |ns|
  {
    if ns == [] then h
    else
      var g := Replayed(h, ns[..|ns| - 1], id, mounted, startMs, endMs, tz);
      var n := ns[|ns| - 1];
      if id in n.recipients then Received(g, n.state, mounted, startMs, endMs, tz) else g
  }

  /** Once unmounted, no notification changes the hook's state. */
  lemma {:induction false} UnmountedIgnoresNotices(h: HookState, ns: seq<Notice>, id: nat, startMs: int, endMs: int, tz: int)
    ensures Replayed(h, ns, id, false, startMs, endMs, tz) == h
    decreases |ns|
  {
    if ns != [] {
      UnmountedIgnoresNotices(h, ns[..|ns| - 1], id, startMs, endMs, tz);
    }
  }

  /** The subscriber never clears an error and never touches `isInitialLoad`. */
  lemma {:induction false} NoticesKeepErrorAndPhase(h: HookState, ns: seq<Notice>, id: nat, mounted: bool, startMs: int, endMs: int, tz: int)
    ensures h.error.Some? ==> Replayed(h, ns, id, mounted, startMs, endMs, tz).error.Some?
    ensures Replayed(h, ns, id, mounted, startMs, endMs, tz).isInitialLoad == h.isInitialLoad
    decreases |ns|
  {
    if ns != [] {
      NoticesKeepErrorAndPhase(h, ns[..|ns| - 1], id, mounted, startMs, endMs, tz);
    }
  }

  /**
   * A reload that fails, seen by a mounted subscriber: the error of the cache
   * and its network flag end up in the hook, and the data shown before stays.
   */
  lemma FailedReloadShown(h: HookState, s: CacheState, subs: set<nat>, id: nat, range: RangeArg, e: Thrown,
                          done: int, startMs: int, endMs: int, tz: int)
    requires id in subs && s.data.None?
    ensures var loading := Loading(s, range);
      var ns := [Notice(subs, loading), Notice(subs, Settled(loading, range, Err(e), done))];
      var g := Replayed(h, ns, id, true, startMs, endMs, tz);
      g.error == Some(ErrorMessage(e)) && g.isNetworkError == IsNetworkError(e)
      && g.filtered == h.filtered && g.sellers == h.sellers
  {
    var loading := Loading(s, range);
    var settled := Settled(loading, range, Err(e), done);
    var ns := [Notice(subs, loading), Notice(subs, settled)];
    ReplayedSnoc(h, ns[..1], id, true, startMs, endMs, tz);
    assert ns[..1][..0] == [];
    var g1 := Replayed(h, ns[..1], id, true, startMs, endMs, tz);
    assert g1 == Received(h, loading, true, startMs, endMs, tz);
    ReplayedSnoc(h, ns, id, true, startMs, endMs, tz);
    assert ns[..|ns| - 1] == ns[..1];
    assert Replayed(h, ns, id, true, startMs, endMs, tz) == Received(g1, settled, true, startMs, endMs, tz);
  }

  /** One more notification at the end of a run. */
  lemma ReplayedSnoc(h: HookState, ns: seq<Notice>, id: nat, mounted: bool, startMs: int, endMs: int, tz: int)
    requires ns != []
    ensures var g := Replayed(h, ns[..|ns| - 1], id, mounted, startMs, endMs, tz);
      var n := ns[|ns| - 1];
      Replayed(h, ns, id, mounted, startMs, endMs, tz)
      == if id in n.recipients then Received(g, n.state, mounted, startMs, endMs, tz) else g
  {
  }

  class DashboardHook {
    const cache: CacheService
    /** The identity of the subscriber callback of effect 2. */
    const id: nat
    /** The viewer's offset from UTC, for the calendar-day comparisons. */
    const tz: int
    var startMs: int
    var endMs: int

    var filtered: Filtered
    var allContacts: seq<Contact>
    var sellers: seq<Seller>
    var isDemo: bool
    var error: Option<string>
    var isInitialLoad: bool
    var isNetworkError: bool
    /** `mountedRef.current`. */
    var mounted: bool

    function View(): HookState
      reads this
    {
      HookState(filtered, allContacts, sellers, isDemo, error, isInitialLoad, isNetworkError)
    }

    /** The `isLoading` the hook returns: the cache is loading and the first load is not over. */
    function IsLoading(): (r: bool)
      reads this, cache
      ensures r ==> cache.state.isLoading
      ensures !isInitialLoad ==> !r
      ensures isInitialLoad ==> (r <==> cache.state.isLoading)
    {
      cache.state.isLoading && isInitialLoad
    }

    /** Mounting: the initial React state, and the subscription of effect 2. */
    constructor (cache: CacheService, id: nat, startMs: int, endMs: int, tz: int)
      modifies cache
      ensures this.cache == cache && this.id == id && this.tz == tz
      ensures this.startMs == startMs && this.endMs == endMs
      ensures View() == InitialHookState && mounted
      ensures cache.subscribers == old(cache.subscribers) + {id}
      ensures cache.state == old(cache.state) && cache.notices == old(cache.notices)
      ensures cache.revalidation == old(cache.revalidation)
    {
      this.cache := cache;
      this.id := id;
      this.tz := tz;
      this.startMs := startMs;
      this.endMs := endMs;
      filtered := Filtered([], [], [], []);
      allContacts := [];
      sellers := [];
      isDemo := false;
      error := None;
      isInitialLoad := true;
      isNetworkError := false;
      mounted := true;
      new;
      cache.Subscribe(id);
    }

    /** Unmounting: the guard drops and the subscription is cancelled. */
    method Unmount()
      modifies this, cache
      ensures !mounted && View() == old(View()) && startMs == old(startMs) && endMs == old(endMs)
      ensures cache.subscribers == old(cache.subscribers) - {id}
      ensures cache.state == old(cache.state) && cache.notices == old(cache.notices)
      ensures cache.revalidation == old(cache.revalidation)
    {
      mounted := false;
      cache.Unsubscribe(id);
    }

    method Show(data: CachedData)
      modifies this
      ensures View() == Shown(old(View()), data, startMs, endMs, tz)
      ensures mounted == old(mounted) && startMs == old(startMs) && endMs == old(endMs)
    {
      sellers := data.sellers;
      isDemo := data.isDemo;
      allContacts := data.allContacts;
      filtered := FilterByDateRange(data, startMs, endMs, tz);
    }

    /** The subscriber callback of effect 2. */
    method Notified(s: CacheState)
      modifies this
      ensures View() == Received(old(View()), s, mounted, startMs, endMs, tz)
      ensures mounted == old(mounted) && startMs == old(startMs) && endMs == old(endMs)
    {
      if !mounted {
        return;
      }
      if s.data.Some? {
        Show(s.data.value);
      }
      if s.error.Some? {
        error := s.error;
        isNetworkError := s.isNetworkError;
      }
    }

    /** Delivers the cache's notifications from index `from` on, in order. */
    method Deliver(from: nat)
      requires from <= |cache.notices|
      modifies this
      ensures View() == Replayed(old(View()), cache.notices[from..], id, mounted, startMs, endMs, tz)
      ensures mounted == old(mounted) && startMs == old(startMs) && endMs == old(endMs)
    {
      var i := from;
      while i < |cache.notices|
        invariant from <= i <= |cache.notices|
        invariant mounted == old(mounted) && startMs == old(startMs) && endMs == old(endMs)
        invariant View() == Replayed(old(View()), cache.notices[from..i], id, mounted, startMs, endMs, tz)
      {
        var n := cache.notices[i];
        ghost var before := View();
        if id in n.recipients {
          Notified(n.state);
        }
        assert View() == if id in n.recipients then Received(before, n.state, mounted, startMs, endMs, tz) else before;
        ReplayedSnoc(old(View()), cache.notices[from..i + 1], id, mounted, startMs, endMs, tz);
        assert cache.notices[from..i + 1][..i - from] == cache.notices[from..i];
        i := i + 1;
      }
      assert cache.notices[from..i] == cache.notices[from..];
    }

    /**
     * `loadInitialData`: `getData(false, range)` for the hook's window; when the
     * component stays mounted and data came back, the snapshot is taken over and
     * the first load is over. `unmounted` says whether the component unmounted
     * while the call was pending; without data `isInitialLoad` stays set.
     */
    method LoadInitialData(now: int, load: Result<CachedData, Thrown>, done: int, unmounted: bool)
      modifies this, cache
      ensures startMs == old(startMs) && endMs == old(endMs)
      ensures mounted == (old(mounted) && !unmounted)
      ensures old(cache.notices) <= cache.notices
      ensures var delivered := Replayed(old(View()), cache.notices[|old(cache.notices)|..], id, old(mounted), startMs, endMs, tz);
        if mounted && cache.state.data.Some? then
          View() == Shown(delivered, cache.state.data.value, startMs, endMs, tz).(isInitialLoad := false, isNetworkError := false)
        else View() == delivered
    {
      var n0 := |cache.notices|;
      var cached := cache.GetData(false, Given(DateRange(startMs, endMs)), now, load, done);
      Deliver(n0);
      if unmounted && mounted {
        Unmount();
      }
      if mounted {
        FinishFirstLoad(cached);
      }
    }

    /** The end of a first load that found data: show it, and clear the first-load and network flags. */
    method FinishFirstLoad(cached: Option<CachedData>)
      modifies this
      ensures mounted == old(mounted) && startMs == old(startMs) && endMs == old(endMs)
      ensures cached.Some? ==>
        View() == Shown(old(View()), cached.value, startMs, endMs, tz).(isInitialLoad := false, isNetworkError := false)
      ensures cached.None? ==> View() == old(View())
    {
      if cached.Some? {
        Show(cached.value);
        isInitialLoad := false;
        isNetworkError := false;
      }
    }

    /**
     * `refresh`: clear the error, mark a first load, reload the hook's window
     * through `invalidateCache`, take over the snapshot, and end the first load
     * if still mounted. It never throws, since `invalidateCache` does not.
     */
    method Refresh(load: Result<CachedData, Thrown>, done: int, unmounted: bool)
      modifies this, cache
      ensures startMs == old(startMs) && endMs == old(endMs)
      ensures mounted == (old(mounted) && !unmounted)
      ensures var range := Given(DateRange(startMs, endMs));
        cache.state == Settled(Loading(old(cache.state), range), range, load, done)
      ensures old(cache.notices) <= cache.notices
      ensures var cleared := old(View()).(error := None, isInitialLoad := true, isNetworkError := false);
        var delivered := Replayed(cleared, cache.notices[|old(cache.notices)|..], id, old(mounted), startMs, endMs, tz);
        if !mounted then View() == delivered
        else if cache.state.data.Some? then
          View() == Shown(delivered, cache.state.data.value, startMs, endMs, tz).(isInitialLoad := false)
        else View() == delivered.(isInitialLoad := false)
      ensures mounted ==> !IsLoading()
    {
      isInitialLoad := true;
      error := None;
      isNetworkError := false;
      var n0 := |cache.notices|;
      cache.InvalidateCache(Given(DateRange(startMs, endMs)), load, done);
      Deliver(n0);
      if unmounted && mounted {
        Unmount();
      }
      var cached := cache.state.data;
      if cached.Some? && mounted {
        Show(cached.value);
      }
      if mounted {
        isInitialLoad := false;
      }
    }

    /**
     * Effect 3, on a new window: once the first load is over it starts
     * `invalidateCache` for the new range without waiting for it; during the
     * first load it only records the window.
     */
    method RangeChange(newStart: int, newEnd: int)
      modifies this, cache
      ensures startMs == newStart && endMs == newEnd && mounted == old(mounted)
      ensures old(isInitialLoad) ==>
        cache.state == old(cache.state) && cache.notices == old(cache.notices) && View() == old(View())
      ensures !old(isInitialLoad) ==>
        cache.state == Loading(old(cache.state), Given(DateRange(newStart, newEnd)))
        && |cache.notices| == |old(cache.notices)| + 1 && old(cache.notices) <= cache.notices
        && View() == Replayed(old(View()), cache.notices[|old(cache.notices)|..], id, mounted, newStart, newEnd, tz)
      ensures cache.subscribers == old(cache.subscribers) && cache.revalidation == old(cache.revalidation)
    {
      startMs := newStart;
      endMs := newEnd;
      if !isInitialLoad {
        var n0 := |cache.notices|;
        cache.BeginInvalidate(Given(DateRange(newStart, newEnd)));
        Deliver(n0);
      }
    }
  }
}
