/**
 * The loading path of the data service (services/dataService.ts): retry with
 * exponential back-off, the fixed order in which the five collections are
 * loaded, and the range filtering and error fallback of `getDashboardData`.
 */
module DataService {
  import opened Common
  import opened Types

  /** A thrown error, as far as the retry policy looks at it: its `message`, if it has one. */
  datatype Failure = Failure(message: Option<string>)

  /** Rate limiting (429, Too Many Requests) and server errors 500, 502 and 503 are worth retrying. */
  predicate IsRetryable(e: Failure) {
    e.message.Some?
    && (Contains(e.message.value, "429") || Contains(e.message.value, "Too Many Requests")
        || Contains(e.message.value, "500") || Contains(e.message.value, "502")
        || Contains(e.message.value, "503"))
  }

  const DefaultMaxRetries: nat := 3
  const DefaultBaseDelay: nat := 500

  /**
   * The outcome of `withRetry` from attempt `attempt` on, where `call(k)` is what
   * the k-th invocation of `fn` yields: the first success, the first error that
   * is not retryable, or the error of the last permitted attempt.
   */
  function Retried<T>(call: nat -> Result<T, Failure>, maxRetries: nat, attempt: nat): Result<T, Failure>
    requires attempt <= maxRetries
    decreases maxRetries - attempt
  {
    var outcome := call(attempt);
    if outcome.Ok? || !IsRetryable(outcome.error) || attempt == maxRetries then outcome
    else Retried(call, maxRetries, attempt + 1)
  }

  /**
   * `withRetry(fn, maxRetries, baseDelay)`. Besides the outcome it reports how
   * many times `fn` ran and the waits between the runs.
   */
  method WithRetry<T>(call: nat -> Result<T, Failure>, maxRetries: nat, baseDelay: nat)
    returns (r: Result<T, Failure>, calls: nat, waits: seq<nat>)
    ensures r == Retried(call, maxRetries, 0)
    ensures 1 <= calls <= maxRetries + 1 && r == call(calls - 1)
    ensures forall k :: 0 <= k < calls - 1 ==> call(k).Err? && IsRetryable(call(k).error)
    ensures r.Err? ==> !IsRetryable(r.error) || calls == maxRetries + 1
    ensures |waits| == calls - 1
    ensures forall k :: 0 <= k < |waits| ==> waits[k] == baseDelay * Pow2(k)
  {
    var attempt: nat := 0;
    waits := [];
    // The loop of the source runs while attempt <= maxRetries, but every path
    // through its last turn returns or throws.
    while true
      invariant attempt <= maxRetries
      invariant Retried(call, maxRetries, 0) == Retried(call, maxRetries, attempt)
      invariant |waits| == attempt
      invariant forall k :: 0 <= k < attempt ==> waits[k] == baseDelay * Pow2(k)
      invariant forall k :: 0 <= k < attempt ==> call(k).Err? && IsRetryable(call(k).error)
      decreases maxRetries - attempt
    {
      var outcome := call(attempt);
      if outcome.Ok? {
        return outcome, attempt + 1, waits;
      }
      if !IsRetryable(outcome.error) || attempt == maxRetries {
        return outcome, attempt + 1, waits;
      }
      waits := waits + [baseDelay * Pow2(attempt)];
      attempt := attempt + 1;
    }
  }

  /** A rate-limited first call followed by a success takes two calls and one 500 ms wait. */
  lemma RetryAfterRateLimit<T>(call: nat -> Result<T, Failure>, v: T)
    requires call(0) == Err(Failure(Some("429")))
    requires call(1) == Ok(v)
    ensures Retried(call, DefaultMaxRetries, 0) == Ok(v)
  {
    ContainsSelf("429");
  }

  /** The total back-off before the last of `n + 1` calls is `baseDelay * (2^n - 1)`. */
  function TotalWait(waits: seq<nat>): nat {
    if waits == [] then 0 else waits[0] + TotalWait(waits[1..])
  }

  lemma {:induction false} TotalWaitGeometric(waits: seq<nat>, baseDelay: nat, n: nat)
    requires |waits| == n
    requires forall k :: 0 <= k < n ==> waits[k] == baseDelay * Pow2(k)
    ensures TotalWait(waits) == baseDelay * (Pow2(n) - 1)
  {
    if n > 0 {
      var init := waits[..n - 1];
      TotalWaitGeometric(init, baseDelay, n - 1);
      TotalWaitSnoc(init, waits[n - 1]);
      assert waits == init + [waits[n - 1]];
      var p := Pow2(n - 1);
      assert waits[n - 1] == baseDelay * p;
      assert Pow2(n) - 1 == 2 * p - 1;
      Doubling(baseDelay, p);
    }
  }

  lemma Doubling(b: int, p: int)
    ensures b * (p - 1) + b * p == b * (2 * p - 1)
  {
  }

  lemma {:induction false} TotalWaitSnoc(a: seq<nat>, x: nat)
    ensures TotalWait(a + [x]) == TotalWait(a) + x
  {
    if a == [] {
      assert a + [x] == [x];
    } else {
      assert (a + [x])[1..] == a[1..] + [x];
      TotalWaitSnoc(a[1..], x);
    }
  }

  // ---------------------------------------------------------------------------
  // Sequential load
  // ---------------------------------------------------------------------------

  datatype Collection = SellersCol | SalesCol | ContactsCol | InteractionsCol | AttemptsCol

  /** The order of `loadDataSequentially`. */
  const LoadOrder: seq<Collection> := [SellersCol, SalesCol, ContactsCol, InteractionsCol, AttemptsCol]

  datatype Snapshot = Snapshot(
    sellers: seq<Seller>,
    contacts: seq<Contact>,
    interactions: seq<Interaction>,
    sales: seq<Sale>,
    attempts: seq<PurchaseAttempt>)

  const EmptySnapshot: Snapshot := Snapshot([], [], [], [], [])

  /** The five record fetchers, each as the outcomes of its successive invocations. */
  datatype Fetchers = Fetchers(
    sellers: nat -> Result<seq<Seller>, Failure>,
    sales: nat -> Result<seq<Sale>, Failure>,
    contacts: nat -> Result<seq<Contact>, Failure>,
    interactions: nat -> Result<seq<Interaction>, Failure>,
    attempts: nat -> Result<seq<PurchaseAttempt>, Failure>)

  /** The outcome of loading the five collections in `LoadOrder`, stopping at the first failure. */
  function Loaded(f: Fetchers): Result<Snapshot, Failure> {
    var sellers := Retried(f.sellers, DefaultMaxRetries, 0);
    var sales := Retried(f.sales, DefaultMaxRetries, 0);
    var contacts := Retried(f.contacts, DefaultMaxRetries, 0);
    var interactions := Retried(f.interactions, DefaultMaxRetries, 0);
    var attempts := Retried(f.attempts, DefaultMaxRetries, 0);
    if sellers.Err? then Err(sellers.error)
    else if sales.Err? then Err(sales.error)
    else if contacts.Err? then Err(contacts.error)
    else if interactions.Err? then Err(interactions.error)
    else if attempts.Err? then Err(attempts.error)
    else Ok(Snapshot(sellers.value, contacts.value, interactions.value, sales.value, attempts.value))
  }

  /**
   * `loadDataSequentially`: each collection through `withRetry` with the default
   * policy, one after another; the first failure aborts the load. `started`
   * lists the collections whose loading began.
   */
  method LoadDataSequentially(f: Fetchers) returns (r: Result<Snapshot, Failure>, started: seq<Collection>)
    ensures r == Loaded(f)
    ensures 1 <= |started| <= |LoadOrder| && started == LoadOrder[..|started|]
    ensures r.Ok? ==> started == LoadOrder
    ensures r.Err? ==> !LoadSucceeded(f, started[|started| - 1])
    ensures forall k :: 0 <= k < |started| - 1 ==> LoadSucceeded(f, LoadOrder[k])
  {
    started := [SellersCol];
    var sellers, _, _ := WithRetry(f.sellers, DefaultMaxRetries, DefaultBaseDelay);
    if sellers.Err? {
      return Err(sellers.error), started;
    }
    started := started + [SalesCol];
    var sales, _, _ := WithRetry(f.sales, DefaultMaxRetries, DefaultBaseDelay);
    if sales.Err? {
      return Err(sales.error), started;
    }
    started := started + [ContactsCol];
    var contacts, _, _ := WithRetry(f.contacts, DefaultMaxRetries, DefaultBaseDelay);
    if contacts.Err? {
      return Err(contacts.error), started;
    }
    started := started + [InteractionsCol];
    var interactions, _, _ := WithRetry(f.interactions, DefaultMaxRetries, DefaultBaseDelay);
    if interactions.Err? {
      return Err(interactions.error), started;
    }
    started := started + [AttemptsCol];
    var attempts, _, _ := WithRetry(f.attempts, DefaultMaxRetries, DefaultBaseDelay);
    if attempts.Err? {
      return Err(attempts.error), started;
    }
    r := Ok(Snapshot(sellers.value, contacts.value, interactions.value, sales.value, attempts.value));
  }

  // ---------------------------------------------------------------------------
  // Range filtering
  // ---------------------------------------------------------------------------

  /**
   * Interactions, sales and attempts reduced to those dated inside
   * [startMs, endMs]; sellers and contacts are left as they are.
   */
  function FilterSnapshot(s: Snapshot, startMs: int, endMs: int): (r: Snapshot)
    ensures r.sellers == s.sellers && r.contacts == s.contacts
    ensures forall x :: x in r.sales <==> x in s.sales && WithinMs(x.date, startMs, endMs)
    ensures forall x :: x in r.interactions <==> x in s.interactions && WithinMs(x.date, startMs, endMs)
    ensures forall x :: x in r.attempts <==> x in s.attempts && WithinMs(x.date, startMs, endMs)
    ensures r.sales == Filter(s.sales, SaleWithin(startMs, endMs))
    ensures r.interactions == Filter(s.interactions, InteractionWithin(startMs, endMs))
    ensures r.attempts == Filter(s.attempts, AttemptWithin(startMs, endMs))
  {
    Snapshot(
      s.sellers,
      s.contacts,
      Filter(s.interactions, InteractionWithin(startMs, endMs)),
      Filter(s.sales, SaleWithin(startMs, endMs)),
      Filter(s.attempts, AttemptWithin(startMs, endMs)))
  }

  /** Narrowing twice is narrowing once to the intersection of the two windows. */
  lemma FilterSnapshotTwice(s: Snapshot, a: int, b: int, c: int, d: int)
    ensures FilterSnapshot(FilterSnapshot(s, a, b), c, d)
         == FilterSnapshot(s, if a < c then c else a, if b < d then b else d)
  {
    var lo := if a < c then c else a;
    var hi := if b < d then b else d;
    FilterFilter(s.interactions, InteractionWithin(a, b), InteractionWithin(c, d), InteractionWithin(lo, hi));
    FilterFilter(s.sales, SaleWithin(a, b), SaleWithin(c, d), SaleWithin(lo, hi));
    FilterFilter(s.attempts, AttemptWithin(a, b), AttemptWithin(c, d), AttemptWithin(lo, hi));
  }

  /** Whether the retried fetcher of collection `c` ends in success. */
  predicate LoadSucceeded(f: Fetchers, c: Collection) {
    match c
    case SellersCol => Retried(f.sellers, DefaultMaxRetries, 0).Ok?
    case SalesCol => Retried(f.sales, DefaultMaxRetries, 0).Ok?
    case ContactsCol => Retried(f.contacts, DefaultMaxRetries, 0).Ok?
    case InteractionsCol => Retried(f.interactions, DefaultMaxRetries, 0).Ok?
    case AttemptsCol => Retried(f.attempts, DefaultMaxRetries, 0).Ok?
  }

  /** The load succeeds exactly when every collection's fetch does. */
  lemma LoadedOkIffAll(f: Fetchers)
    ensures Loaded(f).Ok? <==> forall c :: LoadSucceeded(f, c)
  {
    if Loaded(f).Ok? {
      forall c ensures LoadSucceeded(f, c) {
        match c
        case SellersCol =>
        case SalesCol =>
        case ContactsCol =>
        case InteractionsCol =>
        case AttemptsCol =>
      }
    } else {
      assert !LoadSucceeded(f, SellersCol) || !LoadSucceeded(f, SalesCol) || !LoadSucceeded(f, ContactsCol)
          || !LoadSucceeded(f, InteractionsCol) || !LoadSucceeded(f, AttemptsCol);
    }
  }

  datatype DashboardData = DashboardData(data: Snapshot, isDemo: bool)

  /**
   * `getDashboardData(start, end)`. Without a configured API the demo data
   * (an input here) is filtered and flagged; otherwise the real load is
   * filtered, and a failed load yields empty collections, not an error.
   */
  method GetDashboardData(startMs: int, endMs: int, apiConfigured: bool, demo: Snapshot, f: Fetchers)
    returns (r: DashboardData)
    ensures !apiConfigured ==> r == DashboardData(FilterSnapshot(demo, startMs, endMs), true)
    ensures apiConfigured && Loaded(f).Err? ==> r == DashboardData(EmptySnapshot, false)
    ensures apiConfigured && Loaded(f).Ok? ==> r == DashboardData(FilterSnapshot(Loaded(f).value, startMs, endMs), false)
  {
    if !apiConfigured {
      return DashboardData(FilterSnapshot(demo, startMs, endMs), true);
    }
    var loaded, _ := LoadDataSequentially(f);
    match loaded
    case Err(_) =>
      r := DashboardData(EmptySnapshot, false);
    case Ok(s) =>
      r := DashboardData(FilterSnapshot(s, startMs, endMs), false);
  }
}
