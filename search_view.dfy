/** The search page (`AdSearchView`): the five handlers its dispatcher picks
    from, each specified by a pure function of the stored searches and the
    request, and the view object whose methods carry them out step by step. */
module SearchView {
  import opened Records
  import opened SearchMessages
  import opened Dispatch
  import opened Database

  /** What the view calls but does not define: the ad filter engine
      (`Ad.filterset()`, given no query or a query dictionary), parsing a
      stored query string (`QueryDict(s)`), encoding a query dictionary
      (`urlencode`), the search form's validation (the cleaned search string,
      or None when the posted data is invalid) and the ads newest first. */
  datatype Collaborators = Collaborators(
    filterset: Option<QueryDict> -> seq<Ad>,
    decode: string -> QueryDict,
    urlencode: QueryDict -> string,
    searchForm: QueryDict -> Option<string>,
    newestFirst: seq<Ad>)

  /** The per-view message overrides and `settings.LOGIN_REDIRECT_URL`. */
  datatype ViewConfig = ViewConfig(noResultsMsg: Option<string>, resultsMsg: Option<string>,
                                   loginRedirectUrl: string)

  const SavedMsg: string := "Votre recherche a bien été sauvegardée dans votre compte</a>."
  /** The update confirmation: a link to the account page around `%s`. */
  const UpdatedHead: string := "Votre recherche a bien été mise à jour " + "dans <a href=\""
  const UpdatedTail: string := "\">votre compte</a>."
  const UpdatedTemplate: string := UpdatedHead + "%s" + UpdatedTail

  /** The update confirmation links to the account URL it is given, verbatim. */
  lemma UpdatedMsgLinksAccount(url: string)
    ensures Interpolate(UpdatedTemplate, url) == UpdatedHead + url + UpdatedTail
  {
    assert '%' !in UpdatedHead && '%' !in UpdatedTail;
    UnescapePlain(UpdatedHead);
    UnescapePlain(UpdatedTail);
    InterpolateFillsSlot(UpdatedHead, UpdatedTail, url);
  }

  /** The home page's `initial_ads`: the first ten ads, newest first. */
  function InitialAds(newestFirst: seq<Ad>): (r: seq<Ad>)
    ensures |r| == if |newestFirst| < 10 then |newestFirst| else 10
    ensures r == newestFirst[..|r|]
  {
    if |newestFirst| <= 10 then newestFirst else newestFirst[..10]
  }

  /** The one result-count message a search adds for `count` results. */
  function CountMsg(cfg: ViewConfig, count: nat): Message {
    GetMsg(cfg.noResultsMsg, cfg.resultsMsg, count)
  }

  /** The ads a saved search finds: its stored query string, parsed, through the filter. */
  function SavedResults(env: Collaborators, s: AdSearch): seq<Ad> {
    env.filterset(Some(env.decode(s.search)))
  }

  /** `home`: the unfiltered ads, the ten newest alongside, and no message. */
  function HomeOutcome(env: Collaborators): (o: Outcome)
    ensures o.response.Render? && o.response.results == env.filterset(None)
    ensures o.response.context.initialAds == Some(InitialAds(env.newestFirst))
    ensures o.response.context.searchId.None? && o.response.context.searchForm.None?
    ensures o.messages == []
  {
    Outcome(Render(env.filterset(None), Context(None, Some(InitialAds(env.newestFirst)), None)), [])
  }

  /** `filter_ads`: the ads the query selects, a save-this-search form
      pre-filled with the requester and the encoded query, and exactly one
      count message. */
  function FilterOutcome(env: Collaborators, cfg: ViewConfig, query: QueryDict, user: Requester): (o: Outcome)
    ensures o.response.Render? && o.response.results == env.filterset(Some(query))
    ensures o.response.context.searchForm == Some(Prefilled(user, env.urlencode(query)))
    ensures o.messages == [CountMsg(cfg, |o.response.results|)]
  {
    var results := env.filterset(Some(query));
    Outcome(Render(results, Context(None, None, Some(Prefilled(user, env.urlencode(query))))),
            [CountMsg(cfg, |results|)])
  }

  /** `read_search`: a missing search is an uncaught lookup error; a search
      the requester does not own is reported as not found, with no results
      and no message; the owner sees what the stored query finds, with
      exactly one count message. */
  function ReadOutcome(env: Collaborators, cfg: ViewConfig, searches: map<nat, AdSearch>,
                       id: nat, user: Requester): (o: Outcome)
    ensures id !in searches ==> o == Outcome(Fault, [])
    ensures id in searches && !IsOwner(searches[id].owner, user) ==> o == Outcome(NotFound, [])
    ensures o.response.Render? <==> id in searches && IsOwner(searches[id].owner, user)
    ensures o.response.Render? ==>
              && o.response.results == SavedResults(env, searches[id])
              && o.response.context.searchId == Some(id)
              && o.messages == [CountMsg(cfg, |o.response.results|)]
  {
    if id !in searches then Outcome(Fault, [])
    else if !IsOwner(searches[id].owner, user) then Outcome(NotFound, [])
    else
      var results := SavedResults(env, searches[id]);
      Outcome(Render(results, Context(Some(id), None, None)), [CountMsg(cfg, |results|)])
  }

  /** A handler's outcome together with the saved searches afterwards. */
  datatype Effect = Effect(outcome: Outcome, searches: map<nat, AdSearch>, nextSearchId: nat)

  /** `create_search`: an anonymous requester is sent to log in; invalid
      posted data stores nothing and produces no response; valid data stores
      a new public search over ads, owned by the requester, under the next
      id, and redirects to that search's page with a confirmation. */
  function CreateEffect(env: Collaborators, searches: map<nat, AdSearch>, nextId: nat, req: Request): (e: Effect)
    requires SearchesKeyed(searches, nextId)
    ensures req.user.Anonymous? ==> e == Effect(Outcome(Redirect(LoginPage), []), searches, nextId)
    ensures req.user.Authenticated? && env.searchForm(req.post).None? ==>
              e == Effect(Outcome(NoResponse, []), searches, nextId)
    ensures (e.searches != searches) <==> req.user.Authenticated? && env.searchForm(req.post).Some?
    ensures e.searches != searches ==>
              && e.searches.Keys == searches.Keys + {nextId}
              && (forall k :: k in searches ==> e.searches[k] == searches[k])
              && e.searches[nextId] == AdSearch(nextId, env.searchForm(req.post).value, req.user.id, AdModel, true)
              && e.nextSearchId == nextId + 1
              && e.outcome == Outcome(Redirect(SearchPage(nextId)), [Info(SavedMsg)])
    ensures SearchesKeyed(e.searches, e.nextSearchId)
  {
    if req.user.Anonymous? then Effect(Outcome(Redirect(LoginPage), []), searches, nextId)
    else match env.searchForm(req.post)
      case None => Effect(Outcome(NoResponse, []), searches, nextId)
      case Some(search) =>
        var created := AdSearch(nextId, search, req.user.id, AdModel, true);
        assert nextId !in searches && nextId in searches[nextId := created];
        Effect(Outcome(Redirect(SearchPage(nextId)), [Info(SavedMsg)]),
               searches[nextId := created], nextId + 1)
  }

  /** `update_search`: an anonymous requester is sent to log in and a missing
      search is an uncaught lookup error. Otherwise, WHOEVER the owner, valid
      posted data replaces the search string (nothing else of the row, and no
      other row, changes) with a confirmation naming the account page, and
      the page shows what the possibly updated search finds, ending with
      exactly one count message. */
  function UpdateEffect(env: Collaborators, cfg: ViewConfig, searches: map<nat, AdSearch>,
                        nextId: nat, id: nat, req: Request): (e: Effect)
    ensures e.nextSearchId == nextId && e.searches.Keys == searches.Keys
    ensures forall k :: k in searches && k != id ==> e.searches[k] == searches[k]
    ensures req.user.Anonymous? ==> e == Effect(Outcome(Redirect(LoginPage), []), searches, nextId)
    ensures req.user.Authenticated? && id !in searches ==> e == Effect(Outcome(Fault, []), searches, nextId)
    ensures req.user.Authenticated? && id in searches ==>
              var form := env.searchForm(req.post);
              && e.searches[id] == (if form.Some? then searches[id].(search := form.value) else searches[id])
              && e.outcome.response == Render(SavedResults(env, e.searches[id]), Context(Some(id), None, None))
              && e.outcome.messages ==
                   (if form.Some? then [Info(Interpolate(UpdatedTemplate, cfg.loginRedirectUrl))] else [])
                   + [CountMsg(cfg, |e.outcome.response.results|)]
  {
    if req.user.Anonymous? then Effect(Outcome(Redirect(LoginPage), []), searches, nextId)
    else if id !in searches then Effect(Outcome(Fault, []), searches, nextId)
    else
      var form := env.searchForm(req.post);
      var stored := if form.Some? then searches[id].(search := form.value) else searches[id];
      var confirmation := if form.Some? then [Info(Interpolate(UpdatedTemplate, cfg.loginRedirectUrl))] else [];
      var results := SavedResults(env, stored);
      Effect(Outcome(Render(results, Context(Some(id), None, None)), confirmation + [CountMsg(cfg, |results|)]),
             searches[id := stored], nextId)
  }

  /** One request to the search page, dispatched. Reads never change the
      stored searches; the store stays keyed; a not-found answer arises only
      from reading a search someone else owns; and every rendered page ends
      with exactly one count message for the results it shows, except the
      home page, which shows no message. */
  function Handle(env: Collaborators, cfg: ViewConfig, searches: map<nat, AdSearch>, nextId: nat,
                  req: Request): (e: Effect)
    requires SearchesKeyed(searches, nextId)
    ensures SearchesKeyed(e.searches, e.nextSearchId)
    ensures !Route(req).IsWrite() ==> e.searches == searches && e.nextSearchId == nextId
    ensures e.outcome.response == NotFound ==>
              && Route(req) == ReadSearch
              && req.searchId.value in searches
              && !IsOwner(searches[req.searchId.value].owner, req.user)
    ensures e.outcome.response.Render? && Route(req) != Home ==>
              && |e.outcome.messages| >= 1
              && e.outcome.messages[|e.outcome.messages| - 1] == CountMsg(cfg, |e.outcome.response.results|)
  {
    match Route(req)
    case UpdateSearch => UpdateEffect(env, cfg, searches, nextId, req.searchId.value, req)
    case CreateSearch => CreateEffect(env, searches, nextId, req)
    case ReadSearch => Effect(ReadOutcome(env, cfg, searches, req.searchId.value, req.user), searches, nextId)
    case FilterAds => Effect(FilterOutcome(env, cfg, req.query, req.user), searches, nextId)
    case Home => Effect(HomeOutcome(env), searches, nextId)
  }

  /** A saved search is never shown to anyone but its owner: a read of it by
      anybody else, whatever the query, is not found, with no results and no
      message, and leaves the store as it was. */
  lemma ReadByNonOwnerIsNotFound(env: Collaborators, cfg: ViewConfig, searches: map<nat, AdSearch>,
                                 nextId: nat, req: Request)
    requires SearchesKeyed(searches, nextId)
    requires req.httpMethod != "POST" && req.searchId.Some? && req.searchId.value in searches
    requires !IsOwner(searches[req.searchId.value].owner, req.user)
    ensures Handle(env, cfg, searches, nextId, req) == Effect(Outcome(NotFound, []), searches, nextId)
  {
  }

  /** Following the redirect after a successful save: the creator reading the
      new search sees what its search string finds, with one count message;
      anybody else reading it gets not found. */
  lemma CreateThenRead(env: Collaborators, cfg: ViewConfig, searches: map<nat, AdSearch>, nextId: nat,
                       post: Request, read: Request)
    requires SearchesKeyed(searches, nextId)
    requires post.httpMethod == "POST" && post.searchId.None? && post.user.Authenticated?
    requires env.searchForm(post.post).Some?
    requires read.httpMethod != "POST" && read.searchId == Some(nextId)
    ensures var e := Handle(env, cfg, searches, nextId, post);
            && e.outcome.response == Redirect(SearchPage(nextId))
            && var r := Handle(env, cfg, e.searches, e.nextSearchId, read).outcome;
               if read.user == post.user then
                 var results := env.filterset(Some(env.decode(env.searchForm(post.post).value)));
                 r == Outcome(Render(results, Context(Some(nextId), None, None)), [CountMsg(cfg, |results|)])
               else r == Outcome(NotFound, [])
  {
  }

  /** `update_search` makes no ownership check: any logged-in user who posts
      valid data to another user's search rewrites that search's string and
      is shown its results. */
  lemma UpdateByNonOwnerGoesThrough(env: Collaborators, cfg: ViewConfig, searches: map<nat, AdSearch>,
                                    nextId: nat, req: Request)
    requires SearchesKeyed(searches, nextId)
    requires req.httpMethod == "POST" && req.searchId.Some? && req.searchId.value in searches
    requires req.user.Authenticated? && !IsOwner(searches[req.searchId.value].owner, req.user)
    requires env.searchForm(req.post).Some?
    ensures var e := Handle(env, cfg, searches, nextId, req);
            && e.searches[req.searchId.value].search == env.searchForm(req.post).value
            && e.searches[req.searchId.value].owner == searches[req.searchId.value].owner
            && e.outcome.response.Render?
  {
  }

  /** The search page as an object: the fields `dispatch` and the handlers
      set on the view (the route's search id, the query the filter runs on,
      the filtered ads, the loaded search and the search form), the store
      the handlers read and write, and what the view is configured with. */
  class AdSearchView {
    const env: Collaborators
    const cfg: ViewConfig
    const db: Store
    var searchId: Option<nat>
    var q: Option<QueryDict>
    var objectList: seq<Ad>
    var adSearch: Option<AdSearch>
    var searchForm: Option<SearchForm>

    /** A fresh view, as the framework builds one per request. */
    constructor (env: Collaborators, cfg: ViewConfig, db: Store)
      ensures this.env == env && this.cfg == cfg && this.db == db
      ensures searchId.None? && q.None? && objectList == [] && adSearch.None? && searchForm.None?
    {
      this.env, this.cfg, this.db := env, cfg, db;
      searchId, q, objectList, adSearch, searchForm := None, None, [], None, None;
    }

    method Dispatch(req: Request) returns (o: Outcome)
      requires db.Valid() && searchId.None?
      modifies this, db
      ensures db.Valid()
      ensures var e := Handle(env, cfg, old(db.searches), old(db.nextSearchId), req);
              o == e.outcome && db.searches == e.searches && db.nextSearchId == e.nextSearchId
      ensures db.results == old(db.results) && db.nextResultId == old(db.nextResultId)
      ensures db.ads == old(db.ads) && db.outbox == old(db.outbox)
    {
      if req.searchId.Some? {
        searchId := req.searchId;
      }
      if req.httpMethod == "POST" {
        if searchId.Some? {
          o := UpdateSearch(req);
        } else {
          o := CreateSearch(req);
        }
      } else {
        if searchId.Some? {
          o := ReadSearch(req);
        } else if req.query != map[] {
          o := FilterAds(req);
        } else {
          o := Home();
        }
      }
    }

    method Home() returns (o: Outcome)
      requires searchId.None?
      modifies this
      ensures o == HomeOutcome(env)
      ensures q.None? && objectList == env.filterset(None)
      ensures searchId == old(searchId) && adSearch == old(adSearch) && searchForm == old(searchForm)
    {
      q := None;
      objectList := env.filterset(q);
      var context := Context(searchId, Some(InitialAds(env.newestFirst)), None);
      o := Outcome(Render(objectList, context), []);
    }

    method FilterAds(req: Request) returns (o: Outcome)
      requires searchId.None?
      modifies this
      ensures o == FilterOutcome(env, cfg, req.query, req.user)
      ensures q == Some(req.query) && objectList == env.filterset(q)
      ensures searchForm == Some(Prefilled(req.user, env.urlencode(req.query)))
      ensures searchId == old(searchId) && adSearch == old(adSearch)
    {
      q := Some(req.query);
      objectList := env.filterset(q);
      searchForm := Some(Prefilled(req.user, env.urlencode(req.query)));
      var context := Context(searchId, None, searchForm);
      o := Outcome(Render(objectList, context), [CountMsg(cfg, |objectList|)]);
    }

    method ReadSearch(req: Request) returns (o: Outcome)
      requires searchId.Some?
      modifies this
      ensures searchId == old(searchId) && searchForm == old(searchForm)
      ensures o == ReadOutcome(env, cfg, db.searches, searchId.value, req.user)
      ensures searchId.value in db.searches ==> adSearch == Some(db.searches[searchId.value])
      ensures o.response.Render? ==>
                q == Some(env.decode(adSearch.value.search)) && objectList == o.response.results
    {
      var id := searchId.value;
      if id !in db.searches {
        return Outcome(Fault, []);
      }
      adSearch := Some(db.searches[id]);
      if !IsOwner(adSearch.value.owner, req.user) {
        return Outcome(NotFound, []);
      }
      q := Some(env.decode(adSearch.value.search));
      objectList := env.filterset(q);
      var context := Context(searchId, None, None);
      o := Outcome(Render(objectList, context), [CountMsg(cfg, |objectList|)]);
    }

    method CreateSearch(req: Request) returns (o: Outcome)
      requires db.Valid() && searchId.None?
      modifies this, db
      ensures db.Valid()
      ensures var e := CreateEffect(env, old(db.searches), old(db.nextSearchId), req);
              o == e.outcome && db.searches == e.searches && db.nextSearchId == e.nextSearchId
      ensures db.results == old(db.results) && db.nextResultId == old(db.nextResultId)
      ensures db.ads == old(db.ads) && db.outbox == old(db.outbox)
      ensures req.user.Authenticated? ==> searchForm == Some(Posted(req.post))
      ensures o.response.Redirect? && req.user.Authenticated? ==>
                searchId == Some(old(db.nextSearchId)) && adSearch == Some(db.searches[searchId.value])
    {
      if req.user.Anonymous? {
        return Outcome(Redirect(LoginPage), []);
      }
      searchForm := Some(Posted(req.post));
      var cleaned := env.searchForm(req.post);
      if cleaned.Some? {
        // the unsaved instance gets its model, owner and visibility, then
        // saving it hands out the next id
        var id := db.nextSearchId;
        var created := AdSearch(id, cleaned.value, req.user.id, AdModel, true);
        db.searches := db.searches[id := created];
        db.nextSearchId := id + 1;
        adSearch := Some(created);
        searchId := Some(id);
        o := Outcome(Redirect(SearchPage(id)), [Info(SavedMsg)]);
      } else {
        o := Outcome(NoResponse, []);
      }
    }

    method UpdateSearch(req: Request) returns (o: Outcome)
      requires db.Valid() && searchId.Some?
      modifies this, db
      ensures db.Valid()
      ensures searchId == old(searchId)
      ensures var e := UpdateEffect(env, cfg, old(db.searches), old(db.nextSearchId), searchId.value, req);
              o == e.outcome && db.searches == e.searches && db.nextSearchId == e.nextSearchId
      ensures db.results == old(db.results) && db.nextResultId == old(db.nextResultId)
      ensures db.ads == old(db.ads) && db.outbox == old(db.outbox)
      ensures o.response.Render? ==>
                && adSearch == Some(db.searches[searchId.value])
                && q == Some(env.decode(adSearch.value.search)) && objectList == o.response.results
    {
      if req.user.Anonymous? {
        return Outcome(Redirect(LoginPage), []);
      }
      var id := searchId.value;
      if id !in db.searches {
        return Outcome(Fault, []);
      }
      var stored := db.searches[id];
      searchForm := Some(Posted(req.post));
      var messages: seq<Message> := [];
      var cleaned := env.searchForm(req.post);
      if cleaned.Some? {
        stored := stored.(search := cleaned.value);
        db.searches := db.searches[id := stored];
        messages := messages + [Info(Interpolate(UpdatedTemplate, cfg.loginRedirectUrl))];
      }
      adSearch := Some(stored);
      q := Some(env.decode(stored.search));
      objectList := env.filterset(q);
      var context := Context(searchId, None, None);
      messages := messages + [CountMsg(cfg, |objectList|)];
      o := Outcome(Render(objectList, context), messages);
    }
  }
}
