/** The edit and delete views around saved searches and ads. Three of them
    fetch their object through a hook that answers "not found" when the
    requester does not own it, before anything is changed; the settings view
    of a saved search has no such hook. */
module OwnerViews {
  import opened Records
  import opened Database

  /** The object a view works on, or the response that ends the request. */
  datatype Fetch<T> = Fetched(obj: T) | Refused(response: Response)

  /** `AdSearchDeleteView.get_object`: the generic lookup answers not found
      for a missing id, and the hook answers not found for another user's
      search (the view does not require a login; the anonymous user owns
      nothing). */
  function SearchToDelete(searches: map<nat, AdSearch>, id: nat, user: Requester): (f: Fetch<AdSearch>)
    ensures f.Fetched? <==> id in searches && IsOwner(searches[id].owner, user)
    ensures f.Fetched? ==> f.obj == searches[id]
    ensures f.Refused? ==> f.response == NotFound
  {
    if id !in searches then Refused(NotFound)
    else if !IsOwner(searches[id].owner, user) then Refused(NotFound)
    else Fetched(searches[id])
  }

  /** `AdUpdateView.get_object`: a direct lookup, so a missing ad is an
      uncaught lookup error; another user's ad is not found. */
  function AdToUpdate(ads: map<nat, Ad>, pk: nat, user: Requester): (f: Fetch<Ad>)
    ensures f.Fetched? <==> pk in ads && IsOwner(ads[pk].owner, user)
    ensures f.Fetched? ==> f.obj == ads[pk]
    ensures f.Refused? ==> f.response == (if pk in ads then NotFound else Fault)
  {
    if pk !in ads then Refused(Fault)
    else if !IsOwner(ads[pk].owner, user) then Refused(NotFound)
    else Fetched(ads[pk])
  }

  /** `AdDeleteView.get_object`: the generic lookup answers not found for a
      missing ad, and the hook for another user's ad. */
  function AdToDelete(ads: map<nat, Ad>, pk: nat, user: Requester): (f: Fetch<Ad>)
    ensures f.Fetched? <==> pk in ads && IsOwner(ads[pk].owner, user)
    ensures f.Fetched? ==> f.obj == ads[pk]
    ensures f.Refused? ==> f.response == NotFound
  {
    if pk !in ads then Refused(NotFound)
    else if !IsOwner(ads[pk].owner, user) then Refused(NotFound)
    else Fetched(ads[pk])
  }

  /** The search results that survive deleting a saved search: those of
      other searches (the foreign key cascades). */
  function CascadeDelete(results: map<nat, AdSearchResult>, searchId: nat): (r: map<nat, AdSearchResult>)
    ensures forall k :: k in r <==> k in results && results[k].searchId != searchId
    ensures forall k :: k in r ==> r[k] == results[k]
  {
    map k | k in results && results[k].searchId != searchId :: results[k]
  }

  /** Deleting a saved search (the POST of `AdSearchDeleteView`): refused
      before any change unless the requester owns it; otherwise the search
      and its results go, and the user is sent to the account page. */
  method DeleteSearch(db: Store, user: Requester, id: nat) returns (o: Outcome)
    requires db.Valid()
    modifies db
    ensures db.Valid()
    ensures var f := SearchToDelete(old(db.searches), id, user);
            && (f.Refused? ==> o == Outcome(NotFound, []) && db.searches == old(db.searches)
                                && db.results == old(db.results))
            && (f.Fetched? ==> o == Outcome(Redirect(LoginRedirectUrl), [])
                                && db.searches == old(db.searches) - {id}
                                && db.results == CascadeDelete(old(db.results), id))
    ensures db.nextSearchId == old(db.nextSearchId) && db.nextResultId == old(db.nextResultId)
    ensures db.ads == old(db.ads) && db.outbox == old(db.outbox)
  {
    var f := SearchToDelete(db.searches, id, user);
    if f.Refused? {
      return Outcome(f.response, []);
    }
    db.searches := db.searches - {id};
    db.results := CascadeDelete(db.results, id);
    o := Outcome(Redirect(LoginRedirectUrl), []);
  }

  /** `AdSearchUpdateView`: a generic edit view with a login requirement and
      no ownership hook. Its form is taken to edit the search's public flag
      (None when the posted data is invalid). Any logged-in user can change
      the flag of any stored search. */
  method UpdateSearchSettings(db: Store, user: Requester, id: nat, public: Option<bool>) returns (o: Outcome)
    requires db.Valid()
    modifies db
    ensures db.Valid()
    ensures user.Anonymous? ==> o == Outcome(Redirect(LoginPage), []) && db.searches == old(db.searches)
    ensures user.Authenticated? && id !in old(db.searches) ==>
              o == Outcome(NotFound, []) && db.searches == old(db.searches)
    ensures user.Authenticated? && id in old(db.searches) && public.None? ==>
              o == Outcome(FormPage, []) && db.searches == old(db.searches)
    ensures user.Authenticated? && id in old(db.searches) && public.Some? ==>
              && o == Outcome(Redirect(LoginRedirectUrl), [])
              && db.searches == old(db.searches)[id := old(db.searches)[id].(public := public.value)]
    ensures db.nextSearchId == old(db.nextSearchId) && db.results == old(db.results)
    ensures db.nextResultId == old(db.nextResultId) && db.ads == old(db.ads) && db.outbox == old(db.outbox)
  {
    if user.Anonymous? {
      return Outcome(Redirect(LoginPage), []);
    }
    if id !in db.searches {
      return Outcome(NotFound, []);
    }
    if public.None? {
      return Outcome(FormPage, []);
    }
    db.searches := db.searches[id := db.searches[id].(public := public.value)];
    o := Outcome(Redirect(LoginRedirectUrl), []);
  }

  /** A geocoder's answer: the structured address and the point. */
  datatype GeoInfo = GeoInfo(address: Address, location: string)

  /** What the ad edit view calls but does not define: binding posted data to
      an ad through its form (None when invalid), validating the picture
      formset, the `BYPASS_GEOCODE` setting and the geocoder. */
  datatype AdCollaborators = AdCollaborators(
    bindAd: (QueryDict, Ad) -> Option<Ad>,
    picturesValid: QueryDict -> bool,
    bypassGeocode: bool,
    geocode: string -> GeoInfo)

  const BypassLocation: string := "POINT (2.3303780000000001 48.8683559999999986)"

  /** `s.encode('ascii', 'ignore')`: the characters of s below 128, in order. */
  function AsciiIgnore(s: string): (r: string)
    ensures |r| <= |s|
    ensures forall i :: 0 <= i < |r| ==> (r[i] as int) < 128
    ensures forall i :: 0 <= i < |s| && (s[i] as int) < 128 ==> s[i] in r
    ensures (forall i :: 0 <= i < |s| ==> (s[i] as int) < 128) ==> r == s
    ensures |s| == 1 ==> r == if (s[0] as int) < 128 then s else []
  {
    if s == [] then []
    else (if (s[0] as int) < 128 then [s[0]] else []) + AsciiIgnore(s[1..])
  }

  /** Character by character: the ASCII part of a concatenation is the
      concatenation of the ASCII parts, so with the one-character case the
      result is fixed in order and multiplicity. */
  lemma {:induction false} AsciiIgnoreAppend(s: string, t: string)
    ensures AsciiIgnore(s + t) == AsciiIgnore(s) + AsciiIgnore(t)
  {
    if s != [] {
      assert (s + t)[1..] == s[1..] + t;
      AsciiIgnoreAppend(s[1..], t);
    } else {
      assert s + t == t;
    }
  }

  /** Where an edited ad is placed: the fixed address and point when
      geocoding is bypassed, whatever the entered text; otherwise what the
      geocoder answers for the ASCII part of the entered address. */
  function Located(collab: AdCollaborators, entered: string): (g: GeoInfo)
    ensures collab.bypassGeocode ==> g == GeoInfo(BypassAddress, BypassLocation)
    ensures !collab.bypassGeocode ==> g == collab.geocode(AsciiIgnore(entered))
  {
    if collab.bypassGeocode then GeoInfo(BypassAddress, BypassLocation)
    else collab.geocode(AsciiIgnore(entered))
  }

  /** The row an accepted ad edit writes: the bound ad under its own key,
      placed where `Located` says. */
  function EditedAd(collab: AdCollaborators, pk: nat, bound: Ad): (a: Ad)
    ensures a.id == pk
    ensures a.address == Located(collab, bound.userEnteredAddress).address
    ensures a.location == Located(collab, bound.userEnteredAddress).location
    ensures a.owner == bound.owner && a.description == bound.description
    ensures a.userEnteredAddress == bound.userEnteredAddress && a.visible == bound.visible
  {
    var geo := Located(collab, bound.userEnteredAddress);
    bound.(id := pk, address := geo.address, location := geo.location)
  }

  /** The POST of `AdUpdateView`: a login is required; the ownership hook
      runs before anything else; invalid ad data shows the form again;
      invalid pictures produce no response; otherwise the edited ad is
      stored and the user is sent to the completion page. Only an accepted
      edit changes anything. */
  method UpdateAd(db: Store, collab: AdCollaborators, user: Requester, pk: nat, post: QueryDict)
    returns (o: Outcome)
    requires db.Valid()
    modifies db
    ensures db.Valid()
    ensures user.Anonymous? ==> o == Outcome(Redirect(LoginPage), [])
    ensures user.Authenticated? && AdToUpdate(old(db.ads), pk, user).Refused? ==>
              o == Outcome(AdToUpdate(old(db.ads), pk, user).response, [])
    ensures user.Authenticated? && AdToUpdate(old(db.ads), pk, user).Fetched? ==>
              var bound := collab.bindAd(post, old(db.ads)[pk]);
              && (bound.None? ==> o == Outcome(FormPage, []))
              && (bound.Some? && !collab.picturesValid(post) ==> o == Outcome(NoResponse, []))
              && (bound.Some? && collab.picturesValid(post) ==>
                    o == Outcome(Redirect(CompletePage), [])
                    && db.ads == old(db.ads)[pk := EditedAd(collab, pk, bound.value)])
    ensures o.response != Redirect(CompletePage) ==> db.ads == old(db.ads)
    ensures db.searches == old(db.searches) && db.nextSearchId == old(db.nextSearchId)
    ensures db.results == old(db.results) && db.nextResultId == old(db.nextResultId)
    ensures db.outbox == old(db.outbox)
  {
    if user.Anonymous? {
      return Outcome(Redirect(LoginPage), []);
    }
    var f := AdToUpdate(db.ads, pk, user);
    if f.Refused? {
      return Outcome(f.response, []);
    }
    var bound := collab.bindAd(post, f.obj);
    if bound.None? {
      return Outcome(FormPage, []);
    }
    if !collab.picturesValid(post) {
      return Outcome(NoResponse, []);
    }
    db.ads := db.ads[pk := EditedAd(collab, pk, bound.value)];
    o := Outcome(Redirect(CompletePage), []);
  }

  const AdDeletedMsg: string := "Votre annonce a bien été supprimée."

  /** The POST of `AdDeleteView`: a login is required; the ownership hook
      refuses before any change; otherwise the ad goes, with a confirmation,
      and the user is sent to the account page. */
  method DeleteAd(db: Store, user: Requester, pk: nat) returns (o: Outcome)
    requires db.Valid()
    modifies db
    ensures db.Valid()
    ensures user.Anonymous? ==> o == Outcome(Redirect(LoginPage), []) && db.ads == old(db.ads)
    ensures user.Authenticated? ==>
              var f := AdToDelete(old(db.ads), pk, user);
              && (f.Refused? ==> o == Outcome(NotFound, []) && db.ads == old(db.ads))
              && (f.Fetched? ==> o == Outcome(Redirect(LoginRedirectUrl), [Info(AdDeletedMsg)])
                                 && db.ads == old(db.ads) - {pk})
    ensures db.searches == old(db.searches) && db.nextSearchId == old(db.nextSearchId)
    ensures db.results == old(db.results) && db.nextResultId == old(db.nextResultId)
    ensures db.outbox == old(db.outbox)
  {
    if user.Anonymous? {
      return Outcome(Redirect(LoginPage), []);
    }
    var f := AdToDelete(db.ads, pk, user);
    if f.Refused? {
      return Outcome(f.response, []);
    }
    db.ads := db.ads - {pk};
    o := Outcome(Redirect(LoginRedirectUrl), [Info(AdDeletedMsg)]);
  }

  /** The three ownership hooks agree: whenever the object exists and the
      requester is not its owner, each answers not found. */
  lemma HooksRefuseNonOwners(searches: map<nat, AdSearch>, ads: map<nat, Ad>, id: nat, pk: nat,
                             user: Requester)
    requires id in searches && !IsOwner(searches[id].owner, user)
    requires pk in ads && !IsOwner(ads[pk].owner, user)
    ensures SearchToDelete(searches, id, user) == Refused(NotFound)
    ensures AdToUpdate(ads, pk, user) == Refused(NotFound)
    ensures AdToDelete(ads, pk, user) == Refused(NotFound)
  {
  }
}
