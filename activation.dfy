/**
  * Activation, the summary endpoint and the update schedule.
  *
  * The site's state is the transient store (key to cached rows and their
  * expiry time) and the pending update event. The clock, the caller's
  * capability, the posted form field and the probes' answers are inputs.
  */
module Activation {
  import opened Strings
  import opened Status
  import opened Registry
  import opened Table

  // ---------------------------------------------------------------------
  // Transients
  // ---------------------------------------------------------------------

  /** A cached list of rows and the time after which it is gone. */
  datatype Transient = Transient(value: seq<Row>, expires: int)

  type Store = map<string, Transient>

  /** How long cached checks live: twelve hours. */
  const CacheTtl := 43200

  /** The key under which a category's checks are cached. */
  function CacheKey(category: string): string {
    "site_vitals_" + category
  }

  lemma CacheKeyInjective(a: string, b: string)
    ensures CacheKey(a) == CacheKey(b) <==> a == b
  {
    if CacheKey(a) == CacheKey(b) {
      assert a == CacheKey(a)[12..] && b == CacheKey(b)[12..];
    }
  }

  /** get_transient: the stored value while it has not expired. */
  function GetTransient(store: Store, key: string, now: int): Option<seq<Row>> {
    if key in store && now <= store[key].expires then Some(store[key].value) else None
  }

  /** set_transient with a time to live. */
  function SetTransient(store: Store, key: string, value: seq<Row>, now: int, ttl: int): Store {
    store[key := Transient(value, now + ttl)]
  }

  /** A value set with a time to live reads back until it runs out, and not after. */
  lemma SetThenGet(store: Store, key: string, value: seq<Row>, now: int, ttl: int, later: int)
    ensures GetTransient(SetTransient(store, key, value, now, ttl), key, later) ==
      if later <= now + ttl then Some(value) else None
  {
  }

  /** Setting one key leaves every other key as it was. */
  lemma SetKeepsOthers(store: Store, key: string, value: seq<Row>, now: int, ttl: int, other: string, later: int)
    requires other != key
    ensures GetTransient(SetTransient(store, key, value, now, ttl), other, later) == GetTransient(store, other, later)
  {
  }

  // ---------------------------------------------------------------------
  // Counting the summary's buckets
  // ---------------------------------------------------------------------

  /** The number of rows the summary puts in bucket `b`. */
  function Count(rows: seq<Row>, b: Bucket): nat {
    if rows == [] then 0
    else Count(rows[..|rows| - 1], b) + (if Severity(rows[|rows| - 1].result) == b then 1 else 0)
  }

  /** Every row is counted exactly once. */
  lemma {:induction false} CountPartition(rows: seq<Row>)
    ensures Count(rows, Good) + Count(rows, Warning) + Count(rows, Danger) == |rows|
  {
    if rows != [] {
      CountPartition(rows[..|rows| - 1]);
    }
  }

  /** A bucket is non-empty exactly when some row falls in it. */
  lemma {:induction false} CountPositive(rows: seq<Row>, b: Bucket)
    ensures Count(rows, b) > 0 <==> exists i :: 0 <= i < |rows| && Severity(rows[i].result) == b
  {
    if rows != [] {
      var n := |rows| - 1;
      CountPositive(rows[..n], b);
      if exists i :: 0 <= i < n && Severity(rows[..n][i].result) == b {
        var i :| 0 <= i < n && Severity(rows[..n][i].result) == b;
        assert rows[i] == rows[..n][i];
      }
      if exists i :: 0 <= i < |rows| && Severity(rows[i].result) == b {
        var i :| 0 <= i < |rows| && Severity(rows[i].result) == b;
        if i < n {
          assert rows[..n][i] == rows[i];
        }
      }
    }
  }

  /** Danger is counted only for a row whose status mentions "needs improvement". */
  lemma DangerRowsNeedImprovement(rows: seq<Row>)
    requires Count(rows, Danger) > 0
    ensures exists i :: 0 <= i < |rows| && Contains(Lower(rows[i].result), "needs improvement")
  {
    CountPositive(rows, Danger);
    var i :| 0 <= i < |rows| && Severity(rows[i].result) == Danger;
    DangerOnlyNeedsImprovement(rows[i].result);
  }

  /** The counting loop of the summary endpoint. */
  method CountSeverities(checks: seq<Row>) returns (good: nat, warning: nat, danger: nat)
    ensures good == Count(checks, Good) && warning == Count(checks, Warning) && danger == Count(checks, Danger)
    ensures good + warning + danger == |checks|
  {
    good, warning, danger := 0, 0, 0;
    for i := 0 to |checks|
      invariant good == Count(checks[..i], Good)
      invariant warning == Count(checks[..i], Warning)
      invariant danger == Count(checks[..i], Danger)
    {
      assert checks[..i + 1][..i] == checks[..i];
      var status := Lower(checks[i].result);
      if Contains(status, "good") || Contains(status, "caching active") {
        good := good + 1;
      } else if Contains(status, "needs attention") || Contains(status, "needs optimization")
        || Contains(status, "no caching detected") || Contains(status, "no seo plugins detected")
        || Contains(status, "no sitemap found") || Contains(status, "fair")
      {
        warning := warning + 1;
      } else if Contains(status, "needs improvement") {
        danger := danger + 1;
      } else {
        warning := warning + 1;
      }
    }
    assert checks[..|checks|] == checks;
    CountPartition(checks);
  }

  // ---------------------------------------------------------------------
  // The summary endpoint
  // ---------------------------------------------------------------------

  /** The JSON answer: an error message, or the three counts. */
  datatype Response = Failure(message: string) | Success(good: nat, warning: nat, danger: nat)

  /** PHP's empty() on the posted string: "" and "0" are empty. */
  predicate EmptyField(s: string) {
    s == "" || s == "0"
  }

  /**
    * sanitize_text_field, left abstract: it strips tags, line breaks and
    * extra whitespace, so a field such as " seo" or "<b></b>" may become
    * another category or an empty one.
    */
  type Sanitizer = string -> string

  /** The category the request names: the sanitized field, "" when the field is absent. */
  function PostedCategory(posted: Option<string>, sanitize: Sanitizer): string {
    if posted.Some? then sanitize(posted.value) else ""
  }

  /** The rows the endpoint counts, and the store afterwards: the cache, or a fresh computation that is cached. */
  function FetchChecks(store: Store, category: string, now: int, oracle: Oracle): (Store, seq<Row>) {
    var key := CacheKey(category);
    match GetTransient(store, key, now)
    case Some(rows) => (store, rows)
    case None =>
      var rows := Checks(Fallback(category), oracle);
      (SetTransient(store, key, rows, now, CacheTtl), rows)
  }

  function Tally(rows: seq<Row>): Response {
    Success(Count(rows, Good), Count(rows, Warning), Count(rows, Danger))
  }

  /** The endpoint as a function of the store: its answer and the store afterwards. */
  function CategoryData(store: Store, now: int, canManage: bool, posted: Option<string>, sanitize: Sanitizer, oracle: Oracle): (Response, Store) {
    if !canManage then (Failure("No permission."), store)
    else if EmptyField(PostedCategory(posted, sanitize)) then (Failure("No category provided."), store)
    else
      var (store', rows) := FetchChecks(store, PostedCategory(posted, sanitize), now, oracle);
      (Tally(rows), store')
  }

  /** A caller without the capability is refused before the cache is touched. */
  lemma RefusedWithoutCapability(store: Store, now: int, posted: Option<string>, sanitize: Sanitizer, oracle: Oracle)
    ensures CategoryData(store, now, false, posted, sanitize, oracle) == (Failure("No permission."), store)
  {
  }

  /** An absent field, or one that sanitizes to "" or "0", is refused and the store is left alone. */
  lemma RefusedWithoutCategory(store: Store, now: int, posted: Option<string>, sanitize: Sanitizer, oracle: Oracle)
    requires posted.None? || sanitize(posted.value) == "" || sanitize(posted.value) == "0"
    ensures CategoryData(store, now, true, posted, sanitize, oracle) == (Failure("No category provided."), store)
  {
  }

  /** On a hit the cached rows are counted as they are, and nothing is written. */
  lemma HitCountsCache(store: Store, now: int, raw: string, sanitize: Sanitizer, category: string, oracle: Oracle)
    requires sanitize(raw) == category && !EmptyField(category)
    requires GetTransient(store, CacheKey(category), now).Some?
    ensures CategoryData(store, now, true, Some(raw), sanitize, oracle)
            == (Tally(GetTransient(store, CacheKey(category), now).value), store)
  {
  }

  /**
    * On a miss the checks of the table's category are computed, cached
    * under the sanitized requested name for twelve hours, and counted.
    */
  lemma MissComputesAndCaches(store: Store, now: int, raw: string, sanitize: Sanitizer, category: string, oracle: Oracle)
    requires sanitize(raw) == category && !EmptyField(category)
    requires GetTransient(store, CacheKey(category), now).None?
    ensures CategoryData(store, now, true, Some(raw), sanitize, oracle) ==
      (Tally(Checks(Fallback(category), oracle)),
       store[CacheKey(category) := Transient(Checks(Fallback(category), oracle), now + CacheTtl)])
  {
  }

  /** An unknown category name caches the performance checks under its own key. */
  lemma UnknownCategoryCachesPerformance(store: Store, now: int, raw: string, sanitize: Sanitizer, category: string, oracle: Oracle)
    requires sanitize(raw) == category && !EmptyField(category) && !IsCategory(category)
    requires GetTransient(store, CacheKey(category), now).None?
    ensures CategoryData(store, now, true, Some(raw), sanitize, oracle).1[CacheKey(category)].value == Checks("performance", oracle)
    ensures CacheKey("performance") in store ==>
      CategoryData(store, now, true, Some(raw), sanitize, oracle).1[CacheKey("performance")] == store[CacheKey("performance")]
  {
    CategorySlugs("performance");
    CacheKeyInjective(category, "performance");
  }

  /** A successful answer accounts for every counted row. */
  lemma SuccessCountsAll(store: Store, now: int, raw: string, sanitize: Sanitizer, oracle: Oracle)
    requires !EmptyField(sanitize(raw))
    ensures var (store', rows) := FetchChecks(store, sanitize(raw), now, oracle);
            var r := CategoryData(store, now, true, Some(raw), sanitize, oracle).0;
            r.Success? && r.good + r.warning + r.danger == |rows|
  {
    var (store', rows) := FetchChecks(store, sanitize(raw), now, oracle);
    CountPartition(rows);
  }

  /**
    * Within twelve hours of a miss, asking again gives the same answer and
    * writes nothing, whatever the probes would answer by then.
    */
  lemma AnswerStableWhileCached(store: Store, now: int, later: int, raw: string, sanitize: Sanitizer, o1: Oracle, o2: Oracle)
    requires !EmptyField(sanitize(raw))
    requires GetTransient(store, CacheKey(sanitize(raw)), now).None?
    requires now <= later <= now + CacheTtl
    ensures var (r1, s1) := CategoryData(store, now, true, Some(raw), sanitize, o1);
            CategoryData(s1, later, true, Some(raw), sanitize, o2) == (r1, s1)
  {
    var category := sanitize(raw);
    MissComputesAndCaches(store, now, raw, sanitize, category, o1);
    var s1 := CategoryData(store, now, true, Some(raw), sanitize, o1).1;
    SetThenGet(store, CacheKey(category), Checks(Fallback(category), o1), now, CacheTtl, later);
    HitCountsCache(s1, later, raw, sanitize, category, o2);
  }

  // ---------------------------------------------------------------------
  // Activation
  // ---------------------------------------------------------------------

  /** Each registry entry paired with the rows its table prepares. */
  function Prepared(entries: seq<(string, string)>, oracle: Oracle): (r: seq<(string, seq<Row>)>)
    ensures |r| == |entries|
    ensures forall i :: 0 <= i < |entries| ==> r[i] == (entries[i].0, Checks(Fallback(entries[i].0), oracle))
  {
    seq(|entries|, i requires 0 <= i < |entries| => (entries[i].0, Checks(Fallback(entries[i].0), oracle)))
  }

  /** The store after caching each slug's rows in order, for twelve hours from `now`. */
  function CacheAll(store: Store, prepared: seq<(string, seq<Row>)>, now: int): Store {
    if prepared == [] then store
    else
      var last := prepared[|prepared| - 1];
      SetTransient(CacheAll(store, prepared[..|prepared| - 1], now), CacheKey(last.0), last.1, now, CacheTtl)
  }

  /** One more entry caches its rows on top of the store the earlier entries left. */
  lemma CacheAllSnoc(store: Store, prepared: seq<(string, seq<Row>)>, now: int, i: nat)
    requires i < |prepared|
    ensures CacheAll(store, prepared[..i + 1], now)
            == SetTransient(CacheAll(store, prepared[..i], now), CacheKey(prepared[i].0), prepared[i].1, now, CacheTtl)
  {
    assert prepared[..i + 1][..i] == prepared[..i];
  }

  /** Caching leaves a key that no entry names as it was. */
  lemma {:induction false} CacheAllKeeps(store: Store, prepared: seq<(string, seq<Row>)>, now: int, key: string)
    requires forall i :: 0 <= i < |prepared| ==> key != CacheKey(prepared[i].0)
    ensures key in CacheAll(store, prepared, now) <==> key in store
    ensures key in store ==> CacheAll(store, prepared, now)[key] == store[key]
  {
    if prepared != [] {
      var n := |prepared| - 1;
      assert forall i :: 0 <= i < n ==> prepared[..n][i] == prepared[i];
      CacheAllKeeps(store, prepared[..n], now, key);
    }
  }

  /** The last entry naming a slug decides what is cached under its key, for twelve hours. */
  lemma {:induction false} CacheAllWrites(store: Store, prepared: seq<(string, seq<Row>)>, now: int, i: nat)
    requires i < |prepared|
    requires forall j :: i < j < |prepared| ==> prepared[j].0 != prepared[i].0
    ensures CacheKey(prepared[i].0) in CacheAll(store, prepared, now)
    ensures CacheAll(store, prepared, now)[CacheKey(prepared[i].0)] == Transient(prepared[i].1, now + CacheTtl)
  {
    var n := |prepared| - 1;
    var last := prepared[n];
    var prev := CacheAll(store, prepared[..n], now);
    assert CacheAll(store, prepared, now) == prev[CacheKey(last.0) := Transient(last.1, now + CacheTtl)];
    if i < n {
      CacheKeyInjective(last.0, prepared[i].0);
      assert prepared[..n][i] == prepared[i];
      assert forall j :: i < j < n ==> prepared[..n][j] == prepared[j];
      CacheAllWrites(store, prepared[..n], now, i);
    }
  }

  /** After activation every registered category's checks are cached for twelve hours. */
  lemma ActivationCachesEveryCategory(store: Store, now: int, oracle: Oracle, i: nat)
    requires i < |Categories|
    ensures CacheKey(Categories[i].0) in CacheAll(store, Prepared(Categories, oracle), now)
    ensures CacheAll(store, Prepared(Categories, oracle), now)[CacheKey(Categories[i].0)]
            == Transient(Checks(Categories[i].0, oracle), now + CacheTtl)
  {
    var prepared := Prepared(Categories, oracle);
    SlugsDistinct();
    CacheAllWrites(store, prepared, now, i);
    assert IsCategory(Categories[i].0);
  }

  /** Activation writes nothing but the registry's seven keys. */
  lemma ActivationKeepsOtherKeys(store: Store, now: int, oracle: Oracle, key: string)
    requires forall i :: 0 <= i < |Categories| ==> key != CacheKey(Categories[i].0)
    ensures key in CacheAll(store, Prepared(Categories, oracle), now) <==> key in store
    ensures key in store ==> CacheAll(store, Prepared(Categories, oracle), now)[key] == store[key]
  {
    CacheAllKeeps(store, Prepared(Categories, oracle), now, key);
  }

  // ---------------------------------------------------------------------
  // The update schedule
  // ---------------------------------------------------------------------

  /** wp_next_scheduled's answer counts as pending only when it is a non-zero timestamp. */
  predicate Pending(next: Option<int>) {
    next.Some? && next.value != 0
  }

  /** Scheduling: an hourly event from now, unless one is already pending. */
  function Schedule(next: Option<int>, now: int): (r: Option<int>)
    ensures Pending(next) ==> r == next
    ensures !Pending(next) ==> r == Some(now)
  {
    if !Pending(next) then Some(now) else next
  }

  /** Unscheduling: the pending event is removed; a zero or absent timestamp is left as it is. */
  function Unschedule(next: Option<int>): (r: Option<int>)
    ensures !Pending(r)
    ensures !Pending(next) ==> r == next
  {
    if Pending(next) then None else next
  }

  /** Scheduling twice schedules once. */
  lemma ScheduleIdempotent(next: Option<int>, now: int, later: int)
    requires now != 0
    ensures Schedule(Schedule(next, now), later) == Schedule(next, now)
  {
  }

  /** Deactivation after activation leaves nothing pending. */
  lemma UnscheduleAfterSchedule(next: Option<int>, now: int)
    ensures !Pending(Unschedule(Schedule(next, now)))
  {
  }

  // ---------------------------------------------------------------------
  // The site
  // ---------------------------------------------------------------------

  class Site {
    var transients: Store
    var nextEvent: Option<int>

    constructor (transients: Store, nextEvent: Option<int>)
      ensures this.transients == transients && this.nextEvent == nextEvent
    {
      this.transients := transients;
      this.nextEvent := nextEvent;
    }

    /**
      * The summary endpoint: permission and field checks with early
      * exits, the cache lookup, the recomputation on a miss, the count.
      */
    method GetCategoryData(now: int, canManage: bool, posted: Option<string>, sanitize: Sanitizer, oracle: Oracle) returns (response: Response)
      modifies this
      ensures (response, transients) == CategoryData(old(transients), now, canManage, posted, sanitize, oracle)
      ensures nextEvent == old(nextEvent)
    {
      if !canManage {
        return Failure("No permission.");
      }
      var category := if posted.Some? then sanitize(posted.value) else "";
      if category == "" || category == "0" {
        return Failure("No category provided.");
      }
      var key := "site_vitals_" + category;
      var cached := GetTransient(transients, key, now);
      var checks: seq<Row>;
      if cached.None? {
        var table := new SiteVitalsTable(category);
        table.PrepareItems(oracle);
        checks := table.items;
        transients := SetTransient(transients, key, checks, now, 43200);
      } else {
        checks := cached.value;
      }
      var good, warning, danger := CountSeverities(checks);
      response := Success(good, warning, danger);
    }

    /** Activation: every registered category's table is prepared and cached for twelve hours. */
    method PluginActivate(now: int, oracle: Oracle)
      modifies this
      ensures transients == CacheAll(old(transients), Prepared(Categories, oracle), now)
      ensures nextEvent == old(nextEvent)
    {
      CacheCategories(Categories, now, oracle);
    }

    /** The activation loop over the registry entries, in order. */
    method CacheCategories(categories: seq<(string, string)>, now: int, oracle: Oracle)
      modifies this
      ensures transients == CacheAll(old(transients), Prepared(categories, oracle), now)
      ensures nextEvent == old(nextEvent)
    {
      ghost var prepared := Prepared(categories, oracle);
      for i := 0 to |categories|
        invariant transients == CacheAll(old(transients), prepared[..i], now)
        invariant nextEvent == old(nextEvent)
      {
        var slug := categories[i].0;
        var table := new SiteVitalsTable(slug);
        table.PrepareItems(oracle);
        CacheAllSnoc(old(transients), prepared, now, i);
        assert prepared[i] == (slug, table.items);
        transients := SetTransient(transients, "site_vitals_" + slug, table.items, now, 43200);
      }
      assert prepared[..|categories|] == prepared;
    }

    method ScheduleUpdate(now: int)
      modifies this
      ensures nextEvent == Schedule(old(nextEvent), now)
      ensures transients == old(transients)
    {
      if !(nextEvent.Some? && nextEvent.value != 0) {
        nextEvent := Some(now);
      }
    }

    method UnscheduleUpdate()
      modifies this
      ensures nextEvent == Unschedule(old(nextEvent))
      ensures transients == old(transients)
    {
      var timestamp := nextEvent;
      if timestamp.Some? && timestamp.value != 0 {
        nextEvent := None;
      }
    }
  }
}
