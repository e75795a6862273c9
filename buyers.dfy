/** Buyer matching: listing the saved searches an ad matched, split into the
    buyers already contacted and those still to contact (each offered a
    contact form), and contacting one of them. */
module Buyers {
  import opened Records
  import opened Database

  /** A result is listed for ad `pk` when it points at that ad, through the
      ad model, and its saved search is public. */
  predicate IsListedBuyer(searches: map<nat, AdSearch>, r: AdSearchResult, pk: nat) {
    r.objectPk == pk && r.contentType == AdModel && r.searchId in searches && searches[r.searchId].public
  }

  /** A listed result exactly as it is stored. */
  predicate StoredBuyer(results: map<nat, AdSearchResult>, searches: map<nat, AdSearch>,
                        r: AdSearchResult, pk: nat) {
    r.id in results && results[r.id] == r && IsListedBuyer(searches, r, pk)
  }

  /** The listing query over the results with ids below n, in id order. */
  function QuerySet(results: map<nat, AdSearchResult>, searches: map<nat, AdSearch>, pk: nat, n: nat)
    : (rows: seq<AdSearchResult>)
    requires forall k :: k in results ==> results[k].id == k
    ensures forall i :: 0 <= i < |rows| ==> rows[i].id < n && StoredBuyer(results, searches, rows[i], pk)
    ensures forall k :: 0 <= k < n && k in results && IsListedBuyer(searches, results[k], pk) ==> results[k] in rows
    ensures IdsIncrease(rows)
  {
    if n == 0 then []
    else
      var prefix := QuerySet(results, searches, pk, n - 1);
      if n - 1 in results && IsListedBuyer(searches, results[n - 1], pk) then prefix + [results[n - 1]]
      else prefix
  }

  /** Rows listed in strictly increasing id order, hence each at most once. */
  predicate IdsIncrease(rows: seq<AdSearchResult>) {
    forall i, j :: 0 <= i < j < |rows| ==> rows[i].id < rows[j].id
  }

  /** The rows whose contacted flag is `flag`, in their order: `filter(contacted=True)`
      for true, `exclude(contacted=True)` for false. */
  function WithFlag(rows: seq<AdSearchResult>, flag: bool): (out: seq<AdSearchResult>)
    ensures forall r :: r in out <==> r in rows && r.contacted == flag
    ensures |out| <= |rows|
    ensures IdsIncrease(rows) ==> IdsIncrease(out)
  {
    if rows == [] then []
    else
      var rest := WithFlag(rows[1..], flag);
      if rows[0].contacted == flag then
        if IdsIncrease(rows) then TailIdsAbove(rows); ConsIdsIncrease(rows[0], rest); [rows[0]] + rest
        else [rows[0]] + rest
      else rest
  }

  /** In an increasing listing the tail is increasing and lies above the head. */
  lemma TailIdsAbove(rows: seq<AdSearchResult>)
    requires rows != [] && IdsIncrease(rows)
    ensures IdsIncrease(rows[1..])
    ensures forall r :: r in rows[1..] ==> rows[0].id < r.id
  {
    forall r | r in rows[1..]
      ensures rows[0].id < r.id
    {
      var k :| 0 <= k < |rows[1..]| && rows[1..][k] == r;
      assert rows[k + 1] == r;
    }
  }

  /** A row below every row of an increasing listing can head it. */
  lemma ConsIdsIncrease(x: AdSearchResult, rows: seq<AdSearchResult>)
    requires IdsIncrease(rows) && forall r :: r in rows ==> x.id < r.id
    ensures IdsIncrease([x] + rows)
  {
    var s := [x] + rows;
    forall i, j | 0 <= i < j < |s|
      ensures s[i].id < s[j].id
    {
      assert s[j] == rows[j - 1];
      if i > 0 {
        assert s[i] == rows[i - 1];
      }
    }
  }

  /** The listing's promise: the contacted list and the offers split the
      listed results of ad `pk` by their flag, and each offer's form posts
      to the contact URL of its own result. Both lists are in increasing id
      order, so no buyer is listed twice. */
  ghost predicate PartitionsBuyers(results: map<nat, AdSearchResult>, searches: map<nat, AdSearch>, pk: nat,
                                   contacted: seq<AdSearchResult>, offers: seq<Offer>)
  {
    && IdsIncrease(contacted)
    && (forall i, j :: 0 <= i < j < |offers| ==> offers[i].result.id < offers[j].result.id)
    && (forall r :: r in contacted ==> r.contacted && StoredBuyer(results, searches, r, pk))
    && (forall i :: 0 <= i < |offers| ==>
          && !offers[i].result.contacted
          && StoredBuyer(results, searches, offers[i].result, pk)
          && offers[i].action == ContactBuyerPage(offers[i].result.id))
    && (forall k :: k in results && IsListedBuyer(searches, results[k], pk) ==>
          if results[k].contacted then results[k] in contacted
          else exists i :: 0 <= i < |offers| && offers[i].result == results[k])
  }

  /** One contact offer per listed result not yet contacted, in listing
      order, completes the partition. */
  lemma OffersPartition(results: map<nat, AdSearchResult>, searches: map<nat, AdSearch>, pk: nat,
                        nextResultId: nat, offers: seq<Offer>)
    requires ResultsKeyed(results, nextResultId)
    requires var pending := WithFlag(QuerySet(results, searches, pk, nextResultId), false);
             && |offers| == |pending|
             && forall j :: 0 <= j < |offers| ==> offers[j] == Offer(pending[j], ContactBuyerPage(pending[j].id))
    ensures PartitionsBuyers(results, searches, pk, WithFlag(QuerySet(results, searches, pk, nextResultId), true), offers)
  {
    var queryset := QuerySet(results, searches, pk, nextResultId);
    var pending := WithFlag(queryset, false);
    assert IdsIncrease(pending);
    forall i, j | 0 <= i < j < |offers|
      ensures offers[i].result.id < offers[j].result.id
    {
      assert offers[i].result == pending[i] && offers[j].result == pending[j];
    }
    forall k | k in results && IsListedBuyer(searches, results[k], pk) && !results[k].contacted
      ensures exists i :: 0 <= i < |offers| && offers[i].result == results[k]
    {
      assert results[k] in pending;
      var i :| 0 <= i < |pending| && pending[i] == results[k];
      assert offers[i].result == results[k];
    }
  }

  /** The loop over the results not contacted: each gets a contact form and
      the URL that form posts to, in listing order. */
  method AttachForms(pending: seq<AdSearchResult>) returns (offers: seq<Offer>)
    ensures |offers| == |pending|
    ensures forall j :: 0 <= j < |offers| ==> offers[j] == Offer(pending[j], ContactBuyerPage(pending[j].id))
  {
    offers := [];
    for i := 0 to |pending|
      invariant |offers| == i
      invariant forall j :: 0 <= j < i ==> offers[j] == Offer(pending[j], ContactBuyerPage(pending[j].id))
    {
      offers := offers + [Offer(pending[i], ContactBuyerPage(pending[i].id))];
    }
  }

  /** `AdPotentialBuyersView` for ad `pk`: a login is required; the listed
      results are split by their contacted flag, and each one not contacted
      gets a contact form and the URL it posts to. The page then looks the ad
      up directly, so a missing ad is an uncaught lookup error. No check is
      made that the requester owns the ad. */
  method PotentialBuyers(results: map<nat, AdSearchResult>, searches: map<nat, AdSearch>,
                         ads: map<nat, Ad>, nextResultId: nat, user: Requester, pk: nat)
    returns (o: Outcome)
    requires ResultsKeyed(results, nextResultId)
    ensures user.Anonymous? ==> o == Outcome(Redirect(LoginPage), [])
    ensures user.Authenticated? && pk !in ads ==> o == Outcome(Fault, [])
    ensures user.Authenticated? && pk in ads ==>
              && o.messages == []
              && o.response.BuyerList? && o.response.ad == ads[pk]
              && PartitionsBuyers(results, searches, pk, o.response.contacted, o.response.notContacted)
  {
    if user.Anonymous? {
      return Outcome(Redirect(LoginPage), []);
    }
    var queryset := QuerySet(results, searches, pk, nextResultId);
    var contacted := WithFlag(queryset, true);
    var notContacted := WithFlag(queryset, false);
    var offers := AttachForms(notContacted);
    if pk !in ads {
      return Outcome(Fault, []);
    }
    OffersPartition(results, searches, pk, nextResultId, offers);
    o := Outcome(BuyerList(ads[pk], contacted, offers), []);
  }

  /** The results after result `id` is marked contacted: that record's flag
      is set and every other record is as it was. */
  function Contacted(results: map<nat, AdSearchResult>, id: nat): (r: map<nat, AdSearchResult>)
    requires id in results
    ensures r.Keys == results.Keys
    ensures r[id] == results[id].(contacted := true)
    ensures forall k :: k in results && k != id ==> r[k] == results[k]
  {
    results[id := results[id].(contacted := true)]
  }

  /** Contacting the same buyer twice leaves the results as contacting once. */
  lemma ContactedIdempotent(results: map<nat, AdSearchResult>, id: nat)
    requires id in results
    ensures Contacted(Contacted(results, id), id) == Contacted(results, id)
  {
  }

  /** After a contact, listing the ad's buyers again shows that result as
      contacted and no longer offers it a contact form; every other listed
      result keeps its side of the split. */
  lemma ContactMovesBuyer(results: map<nat, AdSearchResult>, searches: map<nat, AdSearch>, nextResultId: nat,
                          id: nat, pk: nat)
    requires ResultsKeyed(results, nextResultId) && id in results
    requires IsListedBuyer(searches, results[id], pk)
    ensures var after := Contacted(results, id);
            var rows := QuerySet(after, searches, pk, nextResultId);
            && after[id] in WithFlag(rows, true)
            && (forall r :: r in WithFlag(rows, false) ==> r.id != id)
            && (forall k :: k in results && k != id && IsListedBuyer(searches, results[k], pk) ==>
                  results[k] in WithFlag(rows, results[k].contacted))
  {
  }

  /** `AdPotentialBuyerContactView`: a login is required. The view names no
      template, so an invalid contact form cannot be shown again and the
      request fails. A missing result is an uncaught lookup error. Otherwise
      the result is marked contacted, one vendor message carrying the ad, the
      search, its owner and the text is sent, and the user goes back to the
      ad's buyer list. The form's message arrives as `message`, None when the
      form is invalid. */
  method ContactBuyer(db: Store, user: Requester, resultId: nat, message: Option<string>)
    returns (o: Outcome)
    requires db.Valid()
    modifies db
    ensures db.Valid()
    ensures user.Anonymous? ==> o == Outcome(Redirect(LoginPage), [])
    ensures user.Authenticated? && (message.None? || resultId !in old(db.results)) ==> o == Outcome(Fault, [])
    ensures user.Authenticated? && message.Some? && resultId in old(db.results) ==>
              var r := old(db.results)[resultId];
              && o == Outcome(Redirect(BuyersPage(r.objectPk)), [])
              && db.results == Contacted(old(db.results), resultId)
              && db.outbox == old(db.outbox) + [VendorMessage(r.objectPk, r.searchId,
                                                              old(db.searches)[r.searchId].owner, message.value)]
    ensures !o.response.Redirect? || o.response.target == LoginPage ==>
              db.results == old(db.results) && db.outbox == old(db.outbox)
    ensures db.searches == old(db.searches) && db.nextSearchId == old(db.nextSearchId)
    ensures db.nextResultId == old(db.nextResultId) && db.ads == old(db.ads)
  {
    if user.Anonymous? {
      return Outcome(Redirect(LoginPage), []);
    }
    if message.None? || resultId !in db.results {
      return Outcome(Fault, []);
    }
    var result := db.results[resultId];
    result := result.(contacted := true);
    db.results := db.results[resultId := result];
    var search := db.searches[result.searchId];
    db.outbox := db.outbox + [VendorMessage(result.objectPk, result.searchId, search.owner, message.value)];
    o := Outcome(Redirect(BuyersPage(result.objectPk)), []);
  }
}
