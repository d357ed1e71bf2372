/** The shared cache as the functions of events/caching.py change it: read, fill on a miss, delete. */
module CacheStore {
  import opened Wrappers
  import opened Rows
  import opened CacheModel

  class SharedCache {
    var details: map<Id, Cached<Entry>>
    var listings: map<Listing, Cached<map<Id, Entry>>>
    /** Whether the backend can delete keys by pattern. */
    const byPattern: bool

    ghost function Now(): Cache
      reads this
    {
      Cache(details, listings)
    }

    constructor (byPattern: bool)
      ensures this.byPattern == byPattern && Now() == Cache(map[], map[])
    {
      this.byPattern := byPattern;
      details, listings := map[], map[];
    }

    /** `db` is what a query would see at `now`; an event that is not found is an error and is not cached. */
    method GetEventDetail(db: State, e: Id, now: Time) returns (found: Option<Entry>)
      modifies this`details
      ensures (Now(), found) == ReadDetail(db, old(Now()), e, now)
    {
      if e in details {
        if Fresh(details[e], now) { return Some(details[e].value); }
        details := details - {e};
      }
      assert details == old(details) - {e};
      found := DetailQuery(db, e, now);
      if found.Some? {
        details := details[e := Cached(found.value, now)];
        assert details == old(details)[e := Cached(found.value, now)];
      }
    }

    method GetEventsList(db: State, q: Listing, now: Time) returns (found: map<Id, Entry>)
      modifies this`listings
      ensures (Now(), found) == ReadListing(db, old(Now()), q, now)
    {
      if q in listings && Fresh(listings[q], now) { return listings[q].value; }
      found := ListQuery(db, q, now);
      listings := listings[q := Cached(found, now)];
    }

    method InvalidateEvent(e: Id)
      modifies this
      ensures Now() == Invalidate(old(Now()), {e}, byPattern)
    {
      details := details - {e};
      if byPattern { listings := map[]; }
    }
  }
}
