# Landmark image finder: dispatch and response shaping

This project models the decision layer of the landmark image finder (`app.py`). A user prompt is
classified by a language model as a city (strategy "A") or a description (strategy "B"):

- **City lookup** (`get_landmarks_by_city`). It runs a place search for "famous landmarks in
  <city>". It then turns those of the first ten results that carry photos into photo-retrieval URLs, or
  returns one message.
- **Description lookup** (`get_landmarks_by_description`). It runs an image search and returns
  the `link` of every item, or one message.
- **Dispatcher** (`determine_strategy_and_fetch_images`). It maps every exception to a generic
  message.
- **UI guard** (`gradio_interface`). It makes sure the gallery always gets a non-empty list.

Every external call is an input of the model. `App.Services` holds the classifier as a function
from prompt to `Classification`, and each search service as a function from its request (a
datatype of the GET parameters) to a decoded reply. `App.Config` holds the credentials.

Modules:
- `Wrappers` (wrappers.dfy): `Option`, and `Outcome`. An `Outcome` is either the list a provider
  returns, or `Crash`, meaning an exception that the provider's own handler does not catch.
- `Places` (places.dfy): the city lookup. Its loop is the method `CollectPhotoLinks`, proved
  against the functions `PhotoLinks` and `AnyRaises`.
- `CustomSearch` (custom_search.dfy): the description lookup.
- `App` (app.dfy): the dispatcher and the UI guard.

Modelling decisions:
- **Crashes.** Some entries pass the `"photos" in landmark` test but have an empty `photos` list,
  or a first photo without `photo_reference`. Reading such an entry raises IndexError or KeyError
  (app.py:141). That is not a `RequestException`, so it leaves `get_landmarks_by_city`. The model
  returns `Crash`, and `App.Caught` turns it into the generic message (app.py:105-107). An item
  without `link` in the description lookup (app.py:190) is handled the same way.
- **Request failures.** `RequestFailed` covers three cases: a transport error, a non-2xx status
  raised by `raise_for_status`, and a body that does not decode as JSON. In current versions of
  `requests`, `response.json()` raises `requests.exceptions.JSONDecodeError`, which is a
  `RequestException`. So all three reach the provider's own handler.
- **Classification.** `ParseFailure` stands for every way of not getting a JSON object from the
  classifier: the completion call raising, a reply without content, or content that is not a
  JSON object.

Two behaviours of the code worth knowing:
- The description lookup applies no cap of its own. It returns one link per item received, and
  the only bound is the `num=10` request parameter (app.py:173). `CustomSearch.LinksInOrder`
  states the length as the number of items; `CustomSearch.BoundedWhenServiceHonoursNum` gives the
  bound of ten when the service sends at most `num` items.
- An entry with a `photos` key raises (app.py:141) when its list is empty or its first photo has
  no `photo_reference`; it is not skipped.

## Model

| member | source | states |
|---|---|---|
| Places.Query | app.py:119 | the query is "famous landmarks in " followed by the city unchanged |
| Places.QueryInjective | app.py:118-121 | different cities give different queries |
| Places.SearchRequest | app.py:118-121 | the text-search request carries the places key and a query from which the city is recovered verbatim |
| Places.Examined | app.py:136 | the examined entries are a prefix of `results` of length min(number of results, 10) |
| Places.WithPhotos | app.py:139-140 | keeping only entries that have a `photos` key never lengthens the list, and every kept entry has photos |
| Places.PhotoLinks | app.py:139-143 | the loop's list is no longer than its input, and every element is a photo URL signed with the places key |
| Places.CollectPhotoLinks | app.py:136-143 | the loop over `results[:10]` stops with an exception exactly when an examined entry raises; otherwise it returns one URL per usable entry, in order |
| Places.GetLandmarksByCity | app.py:115-151 | one request, no retry: a returned list holds 1 to 10 strings, and a failed request gives exactly one "Failed to retrieve landmarks" string |
| Places.CityLookup | app.py:125-151 | whenever the city lookup returns, its list holds between 1 and 10 strings |
| Places.WithPhotosAppend | app.py:139-143 | entries are filtered one at a time, so the filter of a concatenation is the concatenation of the filters (order is preserved) |
| Places.WithPhotosMembers | app.py:139-140 | an entry is kept if and only if it occurs in the input and has a `photos` key |
| Places.PhotoLinksFilterMap | app.py:139-143 | with no raising entry, there is exactly one URL per entry with photos, built from its first photo's reference, in the entries' order |
| Places.ApiErrorTakesPrecedence | app.py:131-133 | an `error_message` gives exactly ["Google API Error: " + msg], whatever `results` holds |
| Places.RequestFailureIsOneMessage | app.py:149-151 | a request-level failure gives exactly one "Failed to retrieve landmarks" string, and nothing is raised |
| Places.OnlyFirstTenExamined | app.py:136 | entries after the tenth never change the outcome, even ones that would raise |
| Places.CityLinksInOrder | app.py:136-145 | on success the list is the URLs of the examined entries that have photos, in order, at most 10 of them |
| Places.NoPhotosFallback | app.py:145 | when no examined entry has photos, the list is ["No results found for this city."] |
| Places.MissingResultsFallback | app.py:147 | with no error field and no `results`, the list is ["No results found."] |
| Places.CityRaisesExactly | app.py:139-141 | with `Places.Raises` naming the IndexError/KeyError of app.py:141, the lookup raises if and only if the body has `results`, has no error field, and one of its first ten entries has empty `photos` or a first photo without reference |
| Places.CityResultsAreUrls | app.py:142-145 | a returned list for a body with results is either the "no results for this city" message or photo URLs only |
| CustomSearch.Links | app.py:190 | the comprehension succeeds if and only if every item has a `link`; it then holds each item's link at the same index |
| CustomSearch.SearchRequest | app.py:169-175 | the image-search request sends the description unchanged as `q`, with the engine id, the key, `searchType=image` and `num=10` |
| CustomSearch.GetLandmarksByDescription | app.py:166-197 | one request, no retry: a returned list is non-empty, and a failed request gives exactly one "Failed to retrieve images" string |
| CustomSearch.DescriptionLookup | app.py:179-197 | whenever the description lookup returns, its list is non-empty |
| CustomSearch.LinksInOrder | app.py:189-191 | for a non-empty `items` whose entries all have links, the list is every link in received order, one per item, with no cap |
| CustomSearch.BoundedWhenServiceHonoursNum | app.py:169-175 | the list has at most 10 strings when the service returns no more items than the `num=10` it was asked for |
| CustomSearch.ApiErrorTakesPrecedence | app.py:185-187 | an `error_message` gives exactly ["Google CSE API Error: " + msg], whatever `items` holds |
| CustomSearch.RequestFailureIsOneMessage | app.py:195-197 | a request-level failure gives exactly one "Failed to retrieve images" string, and nothing is raised |
| CustomSearch.EmptyAndMissingItems | app.py:189-193 | an empty `items` gives ["No images found."]; a missing `items` gives ["No matching images found."] |
| CustomSearch.DescriptionRaisesExactly | app.py:190 | the lookup raises if and only if the body has `items`, has no error field, and some item lacks `link` |
| App.Caught | app.py:105-107 | a list a provider returns passes through unchanged; an exception escaping it becomes ["An error occurred while processing your request."] |
| App.Route | app.py:93-107 | the dispatcher's list is never empty, whatever the classification and the providers return |
| App.DetermineStrategyAndFetchImages | app.py:75-107 | classifying and routing any prompt gives a non-empty list |
| App.NonEmptyOrPlaceholder | app.py:217-220 | the guard returns a non-empty list unchanged and replaces an empty one with ["No images found."] |
| App.GradioInterface | app.py:214-220 | the guard never fires: the UI shows exactly the dispatcher's list, and that list is never empty |
| App.RoutesCity | app.py:93-95 | strategy "A" with a city returns the city lookup of that city, and the answer does not depend on the image-search service |
| App.RoutesDescription | app.py:97-99 | strategy "B" with a description returns the description lookup of it, and the answer does not depend on the place-search service |
| App.UnknownStrategyMessage | app.py:101-103 | any strategy value other than "A" and "B" gives ["Unable to determine strategy. Please try a different prompt."] |
| App.FailuresGiveGenericMessage | app.py:89-107 | a parse failure, a missing `strategy`, a missing field the chosen branch reads, or a provider that raises each give ["An error occurred while processing your request."] |
| App.CityRouteAtMostTen | app.py:93-95 | on the city route the list has at most 10 strings |
| App.TokyoScenario | app.py:89-95 | a prompt classified as the city "Tokyo" queries "famous landmarks in Tokyo" with the places key and shows the city lookup's answer |
| App.CastleScenario | app.py:169-175 | a prompt classified as a description sends it unchanged as `q`, with the engine id, `searchType=image` and `num=10` |
| App.RefusedPlaceSearch | app.py:125-151 | a refused place search (for example HTTP 403) reaches the UI as exactly one failure string |
| App.ZeroImageItems | app.py:189-191 | an image search with zero items reaches the UI as exactly ["No images found."] |

## Left out

- The language-model call and its prompt template (app.py:58-86) are left out. Only their outcome is modelled, as a function from prompt to `Classification`.
- `requests.get`, `raise_for_status` and `response.json()` (app.py:126-128, app.py:180-182) are left out. They are HTTP and JSON plumbing; each search service is a function from its request to a decoded reply.
- The text of exception messages (`{e}` at app.py:151 and app.py:197) is kept as an opaque `reason` string.
- JSON values of unexpected types are not modelled: for example a `strategy` that is a number, `photos` that is null, or an `error_message` that is not a string. Fields are either absent or strings and lists.
- Environment-variable reads and the debug `print`s (app.py:14-28 and throughout) are left out. The credentials are the constant fields of `App.Config`.
- The test calls and `display` loops that run at import (app.py:155-161, app.py:200-206) are left out. They are network side effects left over from debugging.
- The Gradio layout and `demo.launch` (app.py:223-234) are left out: they are UI plumbing. The `isinstance(results, list)` test at app.py:217 is always true in the model, because the dispatcher always returns a list.
- The unused `PIL` and `BytesIO` imports (app.py:6-7) are left out.
