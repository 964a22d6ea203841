/** The store-settings cache of `lib/settings.ts`: module-level state holding the
    last settings row read and the time it was read, a 60 000 ms time to live,
    the find-or-create of the single settings row, one retry when the failure
    looks like a missing table, and a fallback object when nothing works. The
    clock, the store's failures and the row the schema's defaults produce are
    inputs. */
module Settings {
  import opened Common
  import opened Store

  const CacheTtl: int := 60000

  /** The values of `settingsCache` and `cacheTime`. */
  datatype CacheState = CacheState(cache: Option<StoreSettings>, cacheTime: int)

  /** Whether a cached value may be returned at time `now`. */
  predicate IsFresh(s: CacheState, now: int) {
    s.cache.Some? && now - s.cacheTime < CacheTtl
  }

  /** The failure of a store access, when there is one: the `message` of the
      thrown error, which may be absent. */
  type Fault = Option<Option<string>>

  /** The catch's test: the message mentions `does not exist`, `relation` or `table`. */
  predicate LooksLikeMissingTable(message: Option<string>) {
    message.Some? && (Contains(message.value, "does not exist") || Contains(message.value, "relation")
                      || Contains(message.value, "table"))
  }

  /** `findFirst()`, and `create({ data: {} })` when it finds nothing: the row
      read and the table after. `created` is the row the schema's column
      defaults give. */
  function FindOrCreate(rows: seq<StoreSettings>, created: StoreSettings): (r: (StoreSettings, seq<StoreSettings>))
    ensures r.1 != [] && r.0 == r.1[0]
    ensures rows != [] ==> r.1 == rows
    ensures rows == [] ==> r.1 == [created]
  {
    if rows != [] then (rows[0], rows) else (created, [created])
  }

  /** The object returned when the store cannot be read. */
  function Defaults(): (d: StoreSettings)
    ensures d.id == 0 && d.profile == map[]
    ensures d.primaryColor == Some("#111827") && d.secondaryColor == Some("#f3f4f6")
    ensures d.visibility == Visibility(true, true, true, true, true, true, true, true)
    ensures d.shippingMode == "flat" && d.flatShippingRateCents == 0 && d.flatShippingLabel == "Standard Shipping"
  {
    StoreSettings(0, Some("#111827"), Some("#f3f4f6"), map[],
      Visibility(true, true, true, true, true, true, true, true), "flat", 0, "Standard Shipping")
  }

  /** What one call returns, and the cache and table after it. */
  datatype Outcome = Outcome(settings: StoreSettings, state: CacheState, rows: seq<StoreSettings>)

  /** One call of `getStoreSettings`: `now` is the time read on entry,
      `retryNow` the time read after the retry, `firstFault` and `retryFault`
      the failures of the first attempt and of the retry. */
  function Get(s: CacheState, rows: seq<StoreSettings>, created: StoreSettings,
               now: int, firstFault: Fault, retryNow: int, retryFault: Fault): (o: Outcome)
    ensures IsFresh(s, now) ==> o == Outcome(s.cache.value, s, rows)
    ensures !IsFresh(s, now) && firstFault.None? ==>
      o.settings == FindOrCreate(rows, created).0 && o.rows == FindOrCreate(rows, created).1
      && o.state == CacheState(Some(o.settings), now)
    ensures !IsFresh(s, now) && firstFault.Some? && LooksLikeMissingTable(firstFault.value) && retryFault.None? ==>
      o.settings == FindOrCreate(rows, created).0 && o.rows == FindOrCreate(rows, created).1
      && o.state == CacheState(Some(o.settings), retryNow)
    ensures !IsFresh(s, now) && firstFault.Some? && (!LooksLikeMissingTable(firstFault.value) || retryFault.Some?) ==>
      o == Outcome(Defaults(), s, rows)
  {
    if IsFresh(s, now) then Outcome(s.cache.value, s, rows)
    else if firstFault.None? then
      var (row, rows') := FindOrCreate(rows, created);
      Outcome(row, CacheState(Some(row), now), rows')
    else if LooksLikeMissingTable(firstFault.value) && retryFault.None? then
      var (row, rows') := FindOrCreate(rows, created);
      Outcome(row, CacheState(Some(row), retryNow), rows')
    else Outcome(Defaults(), s, rows)
  }

  /** `clearSettingsCache`. */
  function Cleared(): (s: CacheState)
    ensures s.cache.None? && s.cacheTime == 0
  {
    CacheState(None, 0)
  }

  /** A call that reads the store caches the row it read; any call before
      the time to live has passed then returns that row again, whatever the
      store would do, and leaves the store alone. */
  lemma RepeatWithinTtlIsCached(s: CacheState, rows: seq<StoreSettings>, created: StoreSettings,
                                now: int, retryNow: int, retryFault: Fault,
                                later: StoreSettings, now2: int, firstFault2: Fault, retryNow2: int, retryFault2: Fault)
    requires !IsFresh(s, now)
    requires now2 - now < CacheTtl
    ensures var first := Get(s, rows, created, now, None, retryNow, retryFault);
            Get(first.state, first.rows, later, now2, firstFault2, retryNow2, retryFault2)
              == Outcome(first.settings, first.state, first.rows)
  {
  }

  /** After the cache is cleared the next call reads the store, at any time. */
  lemma ClearForcesRead(rows: seq<StoreSettings>, created: StoreSettings, now: int, retryNow: int, retryFault: Fault)
    ensures Get(Cleared(), rows, created, now, None, retryNow, retryFault).settings == FindOrCreate(rows, created).0
  {
  }

  /** Once the time to live has passed, a call reads the store again. */
  lemma StaleCacheIsRefreshed(s: CacheState, rows: seq<StoreSettings>, created: StoreSettings,
                              now: int, retryNow: int, retryFault: Fault)
    requires s.cache.Some? && now - s.cacheTime >= CacheTtl
    ensures Get(s, rows, created, now, None, retryNow, retryFault).state == CacheState(Some(FindOrCreate(rows, created).0), now)
  {
  }

  /** Calls never add a second settings row: the table grows only from empty,
      and then to one row. */
  lemma AtMostOneRowCreated(s: CacheState, rows: seq<StoreSettings>, created: StoreSettings,
                            now: int, firstFault: Fault, retryNow: int, retryFault: Fault)
    ensures var o := Get(s, rows, created, now, firstFault, retryNow, retryFault);
            (rows != [] ==> o.rows == rows) && (rows == [] ==> |o.rows| <= 1)
  {
  }

  /** A failure that is not a missing table, or a failed retry, returns the
      defaults and leaves the cache as it was, so a stale cached row stays. */
  lemma FailureKeepsCache(s: CacheState, rows: seq<StoreSettings>, created: StoreSettings,
                          now: int, message: Option<string>, retryNow: int, retryFault: Fault)
    requires !IsFresh(s, now)
    requires !LooksLikeMissingTable(message) || retryFault.Some?
    ensures Get(s, rows, created, now, Some(message), retryNow, retryFault) == Outcome(Defaults(), s, rows)
  {
  }

  /** The module-level cache. */
  class SettingsCache {
    var cache: Option<StoreSettings>
    var cacheTime: int

    /** The state when the module is loaded: `null` and 0. */
    constructor ()
      ensures cache.None? && cacheTime == 0
    {
      cache := None;
      cacheTime := 0;
    }

    function State(): CacheState
      reads this
    {
      CacheState(cache, cacheTime)
    }

    /** `getStoreSettings`. */
    method GetStoreSettings(db: Db, now: int, firstFault: Fault, retryNow: int, retryFault: Fault, created: StoreSettings)
      returns (settings: StoreSettings)
      modifies this, db
      ensures Outcome(settings, State(), db.settingsRows)
        == Get(old(State()), old(db.settingsRows), created, now, firstFault, retryNow, retryFault)
      ensures db.products == old(db.products) && db.variants == old(db.variants)
      ensures db.orders == old(db.orders) && db.users == old(db.users)
    {
      if cache.Some? && now - cacheTime < CacheTtl {
        return cache.value;
      }
      if firstFault.None? {
        if db.settingsRows != [] {
          settings := db.settingsRows[0];
        } else {
          settings := created;
          db.settingsRows := [created];
        }
        cache := Some(settings);
        cacheTime := now;
        return;
      }
      var message := firstFault.value;
      if LooksLikeMissingTable(message) && retryFault.None? {
        if db.settingsRows != [] {
          settings := db.settingsRows[0];
        } else {
          settings := created;
          db.settingsRows := [created];
        }
        cache := Some(settings);
        cacheTime := retryNow;
        return;
      }
      settings := Defaults();
    }

    /** `clearSettingsCache`. */
    method ClearSettingsCache()
      modifies this
      ensures State() == Cleared()
    {
      cache := None;
      cacheTime := 0;
    }
  }
}
