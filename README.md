# geoads views: search, saved searches and buyer contact

A Dafny model of the decision and bookkeeping code in the views of the
`geoads` classified-ads application (`geoads/views.py`). It covers:

- the search page `AdSearchView`. Its `dispatch` picks one of five handlers
  (`update_search`, `create_search`, `read_search`, `filter_ads`, `home`)
  from the request method, whether the route names a saved search, and
  whether the query dictionary is empty.
- each of those handlers, and the result-count message the search handlers
  add (`get_msg`, `get_no_results_msg`, `get_results_msg`).
- the ownership hooks (`get_object`) of `AdSearchDeleteView`, `AdUpdateView`
  and `AdDeleteView`, with the deletions and the ad edit they guard.
- `AdSearchUpdateView`, which edits a saved search without any ownership hook.
- the buyer list of an ad (`AdPotentialBuyersView.get_queryset`) and the
  contact of one buyer (`AdPotentialBuyerContactView.get_success_url`).

How the model is laid out:

- `Database.Store` holds the stored rows: saved searches, search results and
  ads, keyed by primary key. It also holds an outbox of the notification
  events the views send.
- `SearchView.AdSearchView` holds the fields the handlers set on the view.
  Its methods are proved against pure functions (`Handle`, `ReadOutcome`,
  `CreateEffect`, ...), and the lemmas are stated over those functions.
- Flash messages are returned as values (`Outcome.messages`), not pushed
  onto a framework queue.

The filter engine (`Ad.filterset()`), `QueryDict` parsing, `urlencode`,
form validation and the geocoder are not defined here. They are fields of
type function in `SearchView.Collaborators` and `OwnerViews.AdCollaborators`,
and callers pass them in, so every result holds whatever those functions do.

Responses:

- `Render`: the search page.
- `BuyerList`: the buyer list of an ad.
- `FormPage`: an edit form shown again.
- `Redirect`: to a symbolic URL (`Url`).
- `NotFound`: `Http404`.
- `NoResponse`: the handler returned `None`.
- `Fault`: an exception the view does not catch. That is an
  `objects.get(...)` on a missing row, or rendering a view that names no
  template.

Behaviour of the code worth knowing:

- `update_search` and `AdSearchUpdateView` make no ownership check. Any
  logged-in user can rewrite another user's saved search
  (`SearchView.UpdateByNonOwnerGoesThrough`).
- A saved search that does not exist makes `read_search` and
  `update_search` fail with an uncaught lookup error, not `NotFound`. So does
  a missing ad in `AdUpdateView.get_object` and in the buyer list page, and a
  missing search result when a buyer is contacted.
- `dispatch` sends every GET with a non-empty query to `filter_ads`,
  including one that carries only paging or sorting parameters.
- `AdSearchDeleteView` does not require a login (the mixin is commented
  out). An anonymous requester still gets `NotFound`, because the anonymous
  user owns nothing.
- An invalid contact form makes the contact view fail, because the view's
  template name is empty.

## Model

| member | source | states |
|---|---|---|
| `Dispatch.Route` | geoads/views.py:55-76 | POST requests go to a writing handler and only they do; a route search id selects a saved-search handler and only it does; `filter_ads` is chosen exactly for a non-POST without search id and with a non-empty query; so the handler is fully determined |
| `Dispatch.RouteFollowsTable` | geoads/views.py:65-76 | every request matches exactly one row of the five-row dispatch table, and the dispatcher returns that row's handler |
| `Dispatch.RouteIgnoresQuery` | geoads/views.py:65-76 | for a POST, or with a search id, the query dictionary does not influence the handler chosen |
| `SearchMessages.GetMsg` | geoads/views.py:171-180 | a search adds exactly one message: the no-results text when the count is 0, the results text otherwise |
| `SearchMessages.NoResultsMsg` | geoads/views.py:182-189 | a non-None override is returned unchanged; otherwise the default no-results text |
| `SearchMessages.ResultsMsg` | geoads/views.py:191-202 | a non-None override is returned unchanged; otherwise "1" and the singular wording for one result, the decimal count and the plural wording for two or more |
| `SearchMessages.Ngettext` | geoads/views.py:197-199 | the singular or the plural message id: the singular one for a count of 1, the plural one for every count of at least two |
| `SearchMessages.InterpolateFillsSlot` | geoads/views.py:147-149 | `Interpolate`, the model of Python's `%` operator: formatting a template made of literal text, `%s` and more text puts the argument in place of `%s` and reads every `%%` on either side as one `%` |
| `SearchMessages.UnescapePlain` | geoads/views.py:197-200 | text without `%` is literal and stands for itself |
| `SearchMessages.EscapeRoundTrip` | geoads/views.py:147-149 | a check of the formatting model, not of a step of the view: doubling every `%` gives literal text that stands for exactly the original text, so `Unescape` loses nothing |
| `SearchMessages.DefaultResultsMsg` | geoads/views.py:197-200 | formatting the message id `ungettext` picks with the count gives the decimal count followed by the singular tail for 1, the plural tail otherwise |
| `SearchMessages.Decimal` | geoads/views.py:197-200 | the count substituted for `%s` is a non-empty string of decimal digits with no leading zero |
| `SearchMessages.DecimalRoundTrip` | geoads/views.py:197-200 | reading the substituted digits back gives the count |
| `SearchMessages.ResultsMsgCarriesCount` | geoads/views.py:196-201 | the leading number of the default results message is exactly the result count |
| `SearchMessages.ResultsMsgDistinguishesCounts` | geoads/views.py:196-201 | two different positive counts never produce the same default results message |
| `SearchView.InitialAds` | geoads/views.py:163-165 | the home page's initial ads are the first min(10, n) ads of the newest-first order |
| `SearchView.HomeOutcome` | geoads/views.py:80-86 | home runs the filter on no query, carries `InitialAds` of the newest-first ads (the ten newest), no search id, no search form and no message |
| `SearchView.FilterOutcome` | geoads/views.py:88-98 | filter shows the ads the query selects, a save form pre-filled with the requester and the encoded query, and exactly one count message |
| `SearchView.ReadOutcome` | geoads/views.py:100-109 | missing search: uncaught error; not the owner: NotFound with no results and no message; the owner and only the owner sees the results of the stored query with exactly one count message |
| `SearchView.CreateEffect` | geoads/views.py:111-131 | anonymous: login redirect; invalid form: nothing stored and no response; valid: a new search owned by the requester, public, over ads, under a fresh id, all other searches unchanged, redirect to that id with the saved confirmation |
| `SearchView.UpdateEffect` | geoads/views.py:138-155 | anonymous: login redirect; missing: uncaught error; otherwise, whoever owns it, a valid form replaces only the search string of that one row; the page shows the (updated) search's results, the confirmation when saved, then exactly one count message |
| `SearchView.Handle` | geoads/views.py:55-76 | a dispatched request: reads never change the stored searches, the store stays keyed, NotFound comes only from a non-owner reading an existing search, and every rendered page except home ends with the count message for its results |
| `SearchView.UpdatedMsgLinksAccount` | geoads/views.py:146-149 | the update confirmation is its fixed text with the account URL inserted verbatim as the link target |
| `SearchView.ReadByNonOwnerIsNotFound` | geoads/views.py:100-104 | a GET of another user's saved search, whatever the query, is NotFound with no message and leaves the store unchanged |
| `SearchView.CreateThenRead` | geoads/views.py:117-131 | after a valid save the redirect names the new id; the creator following it sees the results of the saved string with one count message, anyone else gets NotFound |
| `SearchView.UpdateByNonOwnerGoesThrough` | geoads/views.py:138-149 | a logged-in non-owner posting valid data rewrites another user's search string (owner kept) and is shown its results |
| `SearchView.AdSearchView.constructor` | geoads/views.py:45-52 | a fresh view has no search id, query, result list, loaded search or form |
| `SearchView.AdSearchView.Dispatch` | geoads/views.py:55-76 | the view's branching yields exactly `Handle`'s outcome and new stored searches, keeps the store valid and touches no other table or the outbox |
| `SearchView.AdSearchView.Home` | geoads/views.py:80-86 | returns `HomeOutcome`; the view's query is None and its list the unfiltered ads |
| `SearchView.AdSearchView.FilterAds` | geoads/views.py:88-98 | returns `FilterOutcome`; the view keeps the request query, its results and the pre-filled form |
| `SearchView.AdSearchView.ReadSearch` | geoads/views.py:100-109 | returns `ReadOutcome`; the loaded search is kept even when refused; when rendered, the view's query is the parsed stored string |
| `SearchView.AdSearchView.CreateSearch` | geoads/views.py:111-131 | returns `CreateEffect`'s outcome and stores its searches and next id; on success the view's search id is the new id |
| `SearchView.AdSearchView.UpdateSearch` | geoads/views.py:138-155 | returns `UpdateEffect`'s outcome and stores its searches; the view's query is the parsed string of the possibly updated search |
| `OwnerViews.SearchToDelete` | geoads/views.py:226-231 | a saved search is handed to the delete view exactly when it exists and the requester owns it; otherwise NotFound |
| `OwnerViews.AdToUpdate` | geoads/views.py:356-362 | an ad is handed to the edit view exactly when it exists and the requester owns it; a missing ad is an uncaught error, another user's ad NotFound |
| `OwnerViews.AdToDelete` | geoads/views.py:390-395 | an ad is handed to the delete view exactly when it exists and the requester owns it; otherwise NotFound |
| `OwnerViews.HooksRefuseNonOwners` | geoads/views.py:226-231 | all three hooks answer NotFound to a requester who does not own an existing object |
| `OwnerViews.CascadeDelete` | geoads/views.py:217-231 | deleting a saved search keeps exactly the results of other searches, unchanged |
| `OwnerViews.DeleteSearch` | geoads/views.py:217-231 | a non-owner (or anonymous) gets NotFound and nothing changes; the owner's search and its results are deleted and the user is sent to the account page |
| `OwnerViews.UpdateSearchSettings` | geoads/views.py:205-214 | login required; missing search NotFound; invalid form re-shown with nothing changed; valid form sets that search's public flag whoever owns it |
| `OwnerViews.AsciiIgnore` | geoads/views.py:346-347 | keeps only characters below 128, at most as many as given; a one-character string is kept when ASCII and dropped otherwise; a pure-ASCII address is unchanged |
| `OwnerViews.AsciiIgnoreAppend` | geoads/views.py:346-347 | the ASCII part of a concatenation is the concatenation of the ASCII parts; with the one-character case this fixes the result to the characters below 128, in order |
| `OwnerViews.Located` | geoads/views.py:342-349 | with the bypass setting the fixed address and point whatever was entered; otherwise the geocoder's answer for the ASCII part of the entered address |
| `OwnerViews.EditedAd` | geoads/views.py:340-350 | the saved ad keeps its key, owner, bound description, entered address and visibility, and takes the located address and point |
| `OwnerViews.UpdateAd` | geoads/views.py:327-362 | login required; the ownership hook refuses before any change; invalid ad form re-shown, invalid pictures no response, both changing nothing; otherwise only that ad is replaced by the edited one and the user is sent to the completion page |
| `OwnerViews.DeleteAd` | geoads/views.py:383-400 | login required; non-owners get NotFound and nothing changes; the owner's ad is deleted, with the deletion message and a redirect to the account page |
| `Buyers.QuerySet` | geoads/views.py:422-423 | exactly the stored results pointing at the ad through the ad model whose search is public, each once (listed in id order, see below) |
| `Buyers.WithFlag` | geoads/views.py:424-425 | exactly the rows with the given contacted flag; an input in increasing id order stays in increasing id order, so each row is listed once |
| `Buyers.AttachForms` | geoads/views.py:426-428 | the loop gives every result not contacted, in listing order, one offer whose form posts to that result's own contact URL |
| `Buyers.OffersPartition` | geoads/views.py:422-428 | one offer per pending result, in order, together with the contacted rows, partitions the listed results by their flag with both lists in increasing id order |
| `Buyers.PotentialBuyers` | geoads/views.py:412-435 | login required; missing ad an uncaught error; otherwise the contacted list and the offers partition the ad's listed results by their flag, and every offer's form posts to its own result's contact URL; both lists are in increasing id order, so no buyer appears twice |
| `Buyers.Contacted` | geoads/views.py:459-460 | that one record's flag becomes true; every other record is unchanged |
| `Buyers.ContactedIdempotent` | geoads/views.py:459-460 | contacting a result twice leaves the same results as contacting it once |
| `Buyers.ContactMovesBuyer` | geoads/views.py:422-428 | after a contact, re-listing the ad shows that result as contacted, offers it no form, and leaves every other listed result on its side |
| `Buyers.ContactBuyer` | geoads/views.py:446-463 | login required; invalid form or missing result: failure with nothing changed; otherwise that result is marked contacted, one vendor message (ad, search, search owner, text) is appended to the outbox, and the user goes back to the ad's buyer list |

## Left out

- Template rendering, `get_context_data` plumbing and pagination. The
  context holds only the search id, the initial ads and the search form.
- The filter engine, `QueryDict` parsing and `urlencode` are opaque
  functions. No round trip between encoding and decoding is claimed.
- The order of the initial ads is the newest-first order the collaborator
  supplies. The model takes its first ten and does not sort.
- Translation (`_`, `ungettext`). Messages are the untranslated message ids.
  The plural choice is "singular exactly for 1", which agrees with the French
  rule for every count of at least one.
- `%` formatting is modelled for one `%s` and the `%%` escape, the only
  conversions the templates use. A malformed template (a lone `%`, a second
  `%s`, no `%s` at all) raises an error in Python. The model does not
  produce that error, because every template it formats is a well-formed
  constant.
- Buyers.QuerySet: lists the results in ascending id order. The query has
  no `order_by`, so the real order is whatever the database returns (the
  `Meta` of `AdSearchResult` is not part of this model). The id order is a
  modelling choice. The partition promised by `Buyers.PotentialBuyers` does
  not depend on it.
- `fail_silently` on messages is not modelled.
- Authentication. `login_required` and `LoginRequiredMixin` are a branch
  that redirects an anonymous requester to the login page.
- Django's `as_view` builds a fresh view for each request.
  `AdSearchView.Dispatch` requires that fresh state (no search id yet).
- Form internals are not modelled:
  - The search form yields only the cleaned search string.
  - The saved-search settings form yields only the `public` flag.
  - Binding posted data to an ad is an opaque function.
  - `geoads/forms.py` is not part of this model. If the search form also
    binds `user`, `update_search` could change a search's owner, and the
    model does not show that.
  - An invalid bound form leaves the in-memory instance as it was.
- The GET paths of the generic edit and delete views (showing the form or
  the confirmation page) are not modelled. They fetch their object through
  the same hooks.
- Picture formsets are reduced to a validity flag. Saving the pictures is
  not modelled.
- Geocoding is an opaque function that always answers. Network failure is
  not modelled. The bypass address is a symbolic value, not its literal
  payload.
- Signals and mail: the vendor message is an outbox record. Delivery is
  not modelled.
- `AdCreateView`, `AdDetailView.post`, `CompleteView`: these are outside the
  modelled core. They are form handling, geocoding and mail.
- The identifier-or-object test in the contact view: the result is always
  named by its id.
- The process that creates search results is not part of this model. Results
  are only read, flagged and cascaded here.
- `geoads/models.py` gives only the record shapes. `AdSearchResult` and the
  `public` flag of a saved search are declared from how the views use them.
- Timestamps, slugs, soft deletion and pictures of ads are not modelled.
