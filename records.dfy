/** Record shapes shared by the views of the ads application: the stored rows
    (Ad, AdSearch, AdSearchResult), the requester, the symbolic URLs the views
    reverse, flash messages, outgoing notification events and responses. */
module Records {

  datatype Option<+T> = None | Some(value: T)

  type UserId = nat

  /** `request.user`: Django's anonymous user, or a logged-in user. */
  datatype Requester = Anonymous | Authenticated(id: UserId)

  /** The ownership test `obj.user == request.user`: the anonymous user owns nothing. */
  predicate IsOwner(owner: UserId, user: Requester) {
    user == Authenticated(owner)
  }

  /** `ContentType.objects.get_for_model(...)`: the ad model, or any other model. */
  datatype ContentType = AdModel | OtherModel(name: string)

  /** A query dictionary: each parameter name with its list of values. */
  type QueryDict = map<string, seq<string>>

  /** The structured address of an ad: the fixed payload used when geocoding is
      bypassed, or whatever the geocoder returned. */
  datatype Address = BypassAddress | GeocodedAddress(payload: string)

  datatype Ad = Ad(id: nat, owner: UserId, description: string,
                   userEnteredAddress: string, address: Address,
                   location: string, visible: bool)

  /** A saved search: the encoded query string, its owner, the model it
      searches and whether it may be matched against other users' ads. */
  datatype AdSearch = AdSearch(id: nat, search: string, owner: UserId,
                               contentType: ContentType, public: bool)

  /** One (saved search, ad) match; the ad is the generic reference
      (contentType, objectPk). */
  datatype AdSearchResult = AdSearchResult(id: nat, searchId: nat,
                                           contentType: ContentType,
                                           objectPk: nat, contacted: bool)

  /** The URLs the views build with `reverse` or read from settings. */
  datatype Url =
    | SearchPage(searchId: nat)       // reverse('search', search_id=...)
    | BuyersPage(adId: nat)           // reverse('contact_buyers', pk=...)
    | ContactBuyerPage(resultId: nat) // reverse('contact_buyer', adsearchresult_id=...)
    | LoginPage                       // where login_required sends an anonymous user
    | LoginRedirectUrl                // settings.LOGIN_REDIRECT_URL, the account page
    | CompletePage                    // redirect('complete')

  /** A flash message at level INFO, returned to the caller instead of being
      pushed onto a framework-managed queue. */
  datatype Message = Info(text: string)

  /** Notifications handed to the signal dispatcher, kept as an outbox. */
  datatype Event =
    | VendorMessage(adPk: nat, searchId: nat, recipient: UserId, message: string)

  /** The search form the search page shows: pre-filled from the current
      query, or bound to posted data. */
  datatype SearchForm = Prefilled(user: Requester, search: string) | Posted(data: QueryDict)

  /** The template context of the search page that the views fill in. */
  datatype Context = Context(searchId: Option<nat>, initialAds: Option<seq<Ad>>,
                             searchForm: Option<SearchForm>)

  /** A not-yet-contacted buyer as listed: the record (its contact form is
      built for this instance) and the URL the form posts to. */
  datatype Offer = Offer(result: AdSearchResult, action: Url)

  datatype Response =
    | Render(results: seq<Ad>, context: Context)
    | BuyerList(ad: Ad, contacted: seq<AdSearchResult>, notContacted: seq<Offer>)
    | FormPage      // an edit form shown again with its errors
    | Redirect(target: Url)
    | NotFound      // Http404
    | NoResponse    // the handler returned None
    | Fault         // an exception the view does not catch (server error)

  /** What a handler hands back: its response and the flash messages it added. */
  datatype Outcome = Outcome(response: Response, messages: seq<Message>)
}
