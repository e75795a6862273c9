/** The rows the views read and write, as one mutable store: saved searches,
    search results and ads keyed by primary key, the auto-increment counters,
    and the outbox of notification events sent through signals. */
module Database {
  import opened Records

  /** Every saved search is stored under its own id, below the next id to hand out. */
  predicate SearchesKeyed(searches: map<nat, AdSearch>, nextId: nat) {
    forall k :: k in searches ==> searches[k].id == k && k < nextId
  }

  /** Every search result is stored under its own id, below the next id. */
  predicate ResultsKeyed(results: map<nat, AdSearchResult>, nextId: nat) {
    forall k :: k in results ==> results[k].id == k && k < nextId
  }

  /** Every search result points at a stored saved search (a foreign key). */
  predicate ResultsLinked(results: map<nat, AdSearchResult>, searches: map<nat, AdSearch>) {
    forall k :: k in results ==> results[k].searchId in searches
  }

  predicate AdsKeyed(ads: map<nat, Ad>) {
    forall k :: k in ads ==> ads[k].id == k
  }

  class Store {
    var searches: map<nat, AdSearch>
    var nextSearchId: nat
    var results: map<nat, AdSearchResult>
    var nextResultId: nat
    var ads: map<nat, Ad>
    var outbox: seq<Event>

    ghost predicate Valid()
      reads this
    {
      && SearchesKeyed(searches, nextSearchId)
      && ResultsKeyed(results, nextResultId)
      && ResultsLinked(results, searches)
      && AdsKeyed(ads)
    }

    constructor ()
      ensures Valid()
      ensures searches == map[] && results == map[] && ads == map[] && outbox == []
      ensures nextSearchId == 1 && nextResultId == 1
    {
      searches, results, ads, outbox := map[], map[], map[], [];
      nextSearchId, nextResultId := 1, 1;
    }
  }
}
