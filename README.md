# Pokémon catalogue proxy: a verified model of `PokemonViewSet`

The backend of this application answers two REST calls with a cache-aside
proxy in front of the public PokeAPI catalogue:

- `GET /api/pokemon/?page=&page_size=` (`list`) resolves the total item
  count, from the cache or from one `limit=1` upstream request. It turns the
  page number and page size into an upstream window (offset, limit) and looks
  up the assembled page under a key built from that window. On a miss it
  walks the upstream reference list in order. For each reference it parses the
  id from the last URL segment and resolves the record through a per-record
  cache. An entry whose details fail gets a placeholder record. The finished
  page is cached.
- `GET /api/pokemon/<pk>/` (`retrieve`) checks that the id is an integer.
  It serves the record from the same per-record cache or fetches it,
  normalises it the same way and caches it, and forwards upstream error
  statuses.

The model keeps that structure:

| module (file) | what it holds |
|---|---|
| `Json` (Json.dfy) | JSON values, `dict.get` with a default, Python truthiness |
| `Ids` (Ids.dfy) | `rstrip('/')`, `split('/')`, `int()`, decimal rendering, the id-from-URL parse |
| `Keys` (Keys.dfy) | the three cache-key families and their disjointness and injectivity |
| `Detail` (Detail.dfy) | the record normalisation and the list view's placeholder records |
| `Pagination` (Pagination.dfy) | page size, page number, upstream window, the paginated envelope |
| `Cache` (Cache.dfy) | class `Store`: the cache as a map plus a ghost log of writes with their TTLs |
| `Upstream` (Upstream.dfy) | class `Api`: upstream answers as a fixed table plus a ghost log of requests |
| `Views` (Views.dfy) | `ListSpec`/`RetrieveSpec` as functions of (cache, upstream, request), and the imperative methods `List`/`Retrieve` proved equal to them |
| `ListProperties`, `RetrieveProperties` | the promised properties, proved about the specification functions |

Each view is specified by a function that returns a `Run`: the response, the
cache afterwards, the writes made (key, value, TTL) and the upstream requests
made, in order. The methods `Views.List` and `Views.Retrieve` work step by
step on a `Store` and an `Api`, as the views do. Their postconditions equate
the response, the new cache contents and the appended logs with that
function of the old state. The lemmas then state what the views promise about
these functions.

The model also follows the code where it departs from the design (the two
defects listed under "## Findings" are modelled as written and corrected):

- An invalid page number is not clamped to the last page. The paginator
  rejects it, and the view then answers 404 `{"detail": "Invalid page."}`
  (`Views.InvalidPage`).
- The guard on the dedicated not-found answer of `retrieve`
  (backend/api/views.py:277) tests the truthiness of the upstream response.
  An error response is never truthy, so that branch cannot be taken. An
  upstream 404 is forwarded as 404 with an `error` body, like every other
  upstream error (`RetrieveProperties.ForwardedErrorKeepsStatus`).
- A total count that is present but not a number is a 500. The comparison
  `total_count == 0` (backend/api/views.py:71) never raises. The list
  multiplication `[None] * total_count` (backend/api/views.py:82) raises,
  outside any handler. A `count` that is `None` is written to the cache like
  any count, and the same call then fails with 500; a later call finds no
  count and fetches it again.
- The design says the page size is clamped to 1..100, so a requested size
  of 0 would give 1. The code reads it as a strictly positive integer and
  falls back to the default of 20 for zero, negative or unreadable values,
  and caps it at 100 (`Pagination.PageSize`).

## Model

| member | source | states |
|---|---|---|
| `Json.Truthy` | backend/api/views.py:153 | a value is truthy exactly when it is not null, `false`, `0`, the empty string, the empty list or the empty dictionary |
| `Ids.RStrip` | backend/api/views.py:144 | the result is a prefix of the input that does not end in the stripped character, and everything removed is that character |
| `Ids.ParseInt` | backend/api/views.py:145 | a string parses exactly when it is one or more decimal digits, optionally after a single `+` or `-`; the digits read as their value, negated after `-` |
| `Ids.DigitsValueLeadingZero` | backend/api/views.py:145 | a leading zero leaves the value of a digit string unchanged |
| `Ids.Show` | backend/api/views.py:150 | the rendering of an id is non-empty and holds no `/` or `_`, so it cannot run into the key prefix or a URL separator |
| `Ids.Split` | backend/api/views.py:144 | at least one segment; no segment contains the separator; joining the segments with it gives back the input |
| `Ids.Digits` | backend/api/views.py:150 | the decimal digits of a natural number, whose value read back is the number |
| `Ids.ParseShow` | backend/api/views.py:145 | parsing the decimal rendering of any integer gives that integer back |
| `Ids.ShowInjective` | backend/api/views.py:150 | distinct ids render differently |
| `Ids.IdFromUrlOfShow` | backend/api/views.py:144-145 | a URL whose last segment is the id, followed by any number of slashes, parses to that id |
| `Ids.IdFromUrlIgnoresPrefix` | backend/api/views.py:144-145 | only the last non-empty segment decides the id |
| `Ids.IdFromUrl` | backend/api/views.py:144-145 | a URL made only of slashes names no id (its other properties are `Ids.IdFromUrlOfShow` and `Ids.IdFromUrlIgnoresPrefix`) |
| `Keys.KeysDisjoint` | backend/api/views.py:49 | count, page and record keys never collide |
| `Keys.DetailKeyInjective` | backend/api/views.py:150 | two ids share a record entry only if they are equal |
| `Keys.PageKeyInjective` | backend/api/views.py:116 | a page key determines its offset and limit |
| `Detail.ItemJson` | backend/api/views.py:162-170 | the cached record dictionary is truthy and reads back as the record it was built from |
| `Detail.TypeNames` | backend/api/views.py:166 | the type names exist exactly when every entry has `type.name`, and then have the same length and order |
| `Detail.Normalize` | backend/api/views.py:162-170 | only a dictionary normalises; the scalar fields are copied with null for missing ones, and a `types` list keeps its length |
| `Detail.NormalizeDefinedness` | backend/api/views.py:162-170 | normalisation succeeds exactly when `types` is readable and `sprites`, if present, is a dictionary; the scalar fields are copied, and missing ones become null |
| `Detail.NormalizeNeedsObject` | backend/api/views.py:161-163 | a payload that is not a dictionary does not normalise |
| `Detail.NormalizeTypesInOrder` | backend/api/views.py:166 | `types` becomes the type names, same length, same order |
| `Detail.NormalizeMissingTypes` | backend/api/views.py:166 | an absent or null `types` becomes `[]` |
| `Detail.NormalizeSprite` | backend/api/views.py:168 | the sprite is `sprites.front_default`, or null when `sprites` is absent |
| `Detail.TypeEntries` | backend/api/views.py:166 | builds a `types` list whose entries name the given types in order |
| `Detail.NormalizeRecoversRecord` | backend/api/views.py:254-264 | normalising a well-formed upstream record recovers its fields, with the type names in order |
| `Detail.Placeholder` | backend/api/views.py:177-180 | a placeholder has exactly `id`, `name` (the reference's name, or "Unknown") and `error` |
| `Pagination.PageSize` | backend/api/views.py:26-28 | the page size is between 1 and 100; it is 20 when none is requested, and also when the requested text is not an integer or is zero or negative |
| `Pagination.PageSizeHonoursRequest` | backend/api/views.py:27-28 | a requested size within bounds is used as is, and a larger one is capped at 100 |
| `Pagination.NumPages` | backend/api/views.py:82-87 | the number of pages is the least n ≥ 1 with max(1, count) ≤ n·size |
| `Pagination.RequestedPage` | backend/api/views.py:87 | no or an empty `?page=` selects page 1 and `last` the last page; any other text selects the integer it reads as when that lies between 1 and the number of pages, and no page otherwise |
| `Pagination.Window` | backend/api/views.py:95-101 | offset ≥ 0 and limit = the selected page size ≥ 1; for a non-empty catalogue offset = (page-1)·size < count, and 0 for an empty one |
| `Pagination.WindowIdentifiesPage` | backend/api/views.py:95-101 | two valid pages with the same window are the same page of the same size |
| `Pagination.AsWrittenLimitIgnoresPageSize` | backend/api/views.py:97 | as written, page 2 of size 50 fetches 20 items at offset 50 |
| `Pagination.WindowAsWritten` | backend/api/views.py:95-101 | as written, the limit is always the default 20, while the offset is (page-1)·size |
| `Pagination.AsWrittenWindowsCollide` | backend/api/views.py:97 | as written, page 6 of size 10 and page 2 of size 50 share a window although their envelopes differ |
| `Pagination.PaginatedResponse` | backend/api/views.py:188 | an envelope exists exactly when a page was selected; it is a truthy dictionary whose `results` are the records given and whose `count` is the page's total |
| `Pagination.Envelope` | backend/api/views.py:188 | the envelope is truthy, and carries the results and the total count |
| `Pagination.EmptyEnvelopeIsFirstPageOfNothing` | backend/api/views.py:71-74 | the empty envelope is the one page of an empty catalogue |
| `Views.ZeroCountAsWrittenFails` | backend/api/views.py:71-74 | as written, a stored count of 0 gives a 500; the model serves the empty envelope with 200 |
| `Views.ZeroCountAsWritten` | backend/api/views.py:71-74 | as written, the empty-catalogue branch answers 500 |
| `Views.ResolveCount` | backend/api/views.py:49-68 | a cached count other than null is used with no effect; otherwise the count request is made once; the call stops exactly when that request failed or its body is not a dictionary (with status 503 exactly when the request failed), with nothing written; otherwise the count is the body's `count`, 0 when absent, written with the 24-hour TTL |
| `Views.CountNumber` | backend/api/views.py:71-82 | integers and booleans are usable counts, anything else is not; the count is 0 exactly for `0` and `False` |
| `Views.ReferenceList` | backend/api/views.py:135-140 | references exist only for a dictionary payload; an absent `results` means none, and a `results` list is walked as is |
| `Views.ServePage` | backend/api/views.py:116-197 | a cached page is returned with no effect; otherwise the page's window is requested first |
| `Views.FetchPage` | backend/api/views.py:128-207 | the window is requested first; the answer is 200 exactly when the request succeeded, listed references and the loop did not raise, and then the body is truthy, cached under the page key and written last with the 15-minute TTL |
| `Views.ListFromCount` | backend/api/views.py:71-197 | the call only touches the upstream or the cache when the count is a non-zero number and `?page=` names a page, and its first request is then the window's |
| `Views.ListSpec` | backend/api/views.py:38-214 | the first request is the count request exactly when no count is cached |
| `Views.FetchValidPage` | backend/api/views.py:128-197 | the imperative page fetch equals `FetchPage` on the old state |
| `Views.ServeValidPage` | backend/api/views.py:116-197 | the imperative page call equals `ServePage` on the old state |
| `Views.ForwardedError` | backend/api/views.py:274-287 | every upstream error status is answered with that status and an `error` body |
| `Views.RetrieveSpec` | backend/api/views.py:217-294 | the upstream is asked only for the record of the requested id, and only when it is not cached; a write comes only with 200 |
| `Views.EntryStep` | backend/api/views.py:140-180 | one reference raises iff it has no string `url`, and adds one record iff its id parses; it requests its detail iff the record is not cached, and then only its own url; it writes exactly when that request yields a record that normalises, and then writes that record under its own key with the detail TTL and adds it; otherwise it leaves the cache unchanged |
| `Views.AssembleStopsAtAbort` | backend/api/views.py:208-214 | once an entry has raised, later entries change nothing |
| `Views.SelectPage` | backend/api/views.py:82-87 | a page is selected exactly when `?page=` names one; it is then that page, valid, of max(0, count) items and the requested size |
| `Views.ResolveEntry` | backend/api/views.py:143-180 | one loop pass on the store and upstream equals `EntryStep` on the old state |
| `Views.LookUpEntry` | backend/api/views.py:150-180 | a pass for a reference whose id parsed equals `EntryStep` on the old state |
| `Views.FetchEntry` | backend/api/views.py:156-180 | a pass for a reference whose record is not cached equals `EntryStep` on the old state |
| `Views.Visit` | backend/api/views.py:139-181 | after a raise nothing changes; a pass raises exactly when the loop already had or the reference has no string `url`; records, writes and requests only grow, by at most one record and one request, and by no more writes than requests |
| `Views.Assemble` | backend/api/views.py:139-181 | the loop yields at most one record per reference, makes at most one request per reference, and writes no more often than it requests |
| `Views.AssembleItems` | backend/api/views.py:139-181 | the loop equals `Assemble` on the old state |
| `Views.LoadCount` | backend/api/views.py:49-68 | the count stage equals `ResolveCount` on the old state |
| `Views.List` | backend/api/views.py:38-214 | response, cache and logs equal `ListSpec` of the old state |
| `Views.Retrieve` | backend/api/views.py:217-294 | response, cache and logs equal `RetrieveSpec` of the old state |
| `Cache.Store.Get` | backend/api/views.py:50 | a read returns the stored value, or null, and changes nothing |
| `Cache.Store.Set` | backend/api/views.py:61 | a write overwrites that one entry and is logged with its TTL |
| `Upstream.Api.Get` | backend/api/views.py:56 | a request returns the upstream's answer and is logged |
| `ListProperties.NotDetailKeys` | backend/api/views.py:116-150 | the count key and page keys are not record keys |
| `ListProperties.Parsed` | backend/api/views.py:144-148 | the references that yield an item are no more than the upstream list, and all parse |
| `ListProperties.AssembleAbortsOnMissingUrl` | backend/api/views.py:144-148 | the loop raises exactly when some reference has no string `url` |
| `ListProperties.AssembleOneItemPerParsed` | backend/api/views.py:144-155 | a loop that did not raise yields one record per parseable reference |
| `ListProperties.AssembleEffects` | backend/api/views.py:150-180 | the loop only requests details, and only writes normalised records under record keys with the 15-minute TTL |
| `ListProperties.AssembleFrame` | backend/api/views.py:150-180 | the loop changes no key outside the record family, and no record of an id it did not parse |
| `ListProperties.FailedDetailIsPlaceholder` | backend/api/views.py:175-180 | a detail that cannot be fetched or normalised gives a placeholder with the id, name and reason, and caches nothing |
| `ListProperties.EntryStepReadsOwnKey` | backend/api/views.py:150-153 | what a reference adds, writes and requests depends on the cache only through its own record |
| `ListProperties.AssembleInUpstreamOrder` | backend/api/views.py:139-181 | when no id repeats, the k-th record is what the k-th parseable reference alone yields against the cache before the loop, so upstream order is kept |
| `ListProperties.ServePageEffects` | backend/api/views.py:116-197 | a page call only requests its window and details, and writes only records and its page key; the page key is written only with a 200 whose body is the stored value |
| `ListProperties.ServePageFrame` | backend/api/views.py:116-197 | a page call changes no key outside the record family except its page key |
| `ListProperties.PageKeyIdentifiesPage` | backend/api/views.py:95-116 | with the corrected window, two valid pages that share a page key are the same page |
| `ListProperties.PageNumberSelectsWindow` | backend/api/views.py:82-101 | `?page=k` for an existing page selects page k of the requested size, whose window starts at item (k-1)·size; an integer outside 1..number of pages selects nothing |
| `ListProperties.LastPageHoldsLastItem` | backend/api/views.py:82-101 | `?page=last` selects the last page, whose window holds the catalogue's last item |
| `ListProperties.PageHitServesCachedPage` | backend/api/views.py:116-122 | a cached page is returned unchanged, with no request and no write |
| `ListProperties.ListFetchFailureForwardsStatus` | backend/api/views.py:200-207 | a failed list request answers with the upstream status, or 503 without one, after that single request and with no write |
| `ListProperties.DetailFailuresKeepPage` | backend/api/views.py:175-197 | when every reference has a url, failed details never fail the page: it is served with 200, has one record per parseable reference and is cached |
| `ListProperties.MissingUrlFailsPage` | backend/api/views.py:144-214 | a reference without a string `url` fails the page with 500, and the page is neither written nor cached |
| `ListProperties.FromCountLeavesCountAlone` | backend/api/views.py:71-214 | after the count stage, the call never requests or writes the count again |
| `ListProperties.CountHitIsRest` | backend/api/views.py:50-52 | with a cached count, the call is the rest of the call from that count |
| `ListProperties.CountMissIsRest` | backend/api/views.py:52-61 | without one, the fetched count is written first and the call goes on from the updated cache |
| `ListProperties.CountMissThenHit` | backend/api/views.py:49-61 | a miss that reads a non-null count is one request and one write followed by exactly what a hit does |
| `ListProperties.CountedFirstAfter` | backend/api/views.py:56-61 | a count request and write followed by a stage that does neither are the only ones of the call |
| `ListProperties.CountMissFetchesOnce` | backend/api/views.py:52-61 | on a miss, exactly one count request is made and its `count` (default 0) is the first write, with the 24-hour TTL |
| `ListProperties.CountFailureIsUnavailable` | backend/api/views.py:63-68 | a failed count request gives 503 with no other request and no write |
| `ListProperties.CountHitSkipsCountQuery` | backend/api/views.py:50-52 | a cached count, even a stored 0, means no count request and no count write |
| `ListProperties.ZeroCountServesEmptyPage` | backend/api/views.py:71-74 | a count of 0 answers the empty envelope, with no request and no write but the count's own and the cache as the count stage left it |
| `ListProperties.NonNumericCountIsServerError` | backend/api/views.py:71-82 | a count that is not a number ends the call with 500 after the count stage alone |
| `ListProperties.InvalidPageIsNotFound` | backend/api/views.py:82-87 | a `?page=` naming no page is answered with 404 `Invalid page.` after the count stage alone |
| `ListProperties.ServedPageIsCached` | backend/api/views.py:188-197 | a page served with 200 leaves the count alone and is left cached under its key |
| `ListProperties.FromCountTwice` | backend/api/views.py:116-197 | after a 200, the rest of the call from the same count is served from the cache |
| `ListProperties.ListTwiceServesFromCache` | backend/api/views.py:38-197 | repeating a page request that got 200 gives the same response from the cache, with no request and no write |
| `RetrieveProperties.BadIdIsClientError` | backend/api/views.py:222-233 | a missing or non-integer id is a 400 `detail` answer before any cache or upstream access |
| `RetrieveProperties.CachedRecordIsServed` | backend/api/views.py:236-243 | for any spelling of the id that `int()` accepts, a cached record is returned as stored, with no request and no write |
| `RetrieveProperties.MissCachesNormalisedRecord` | backend/api/views.py:249-272 | for any spelling of the id, a miss makes the one detail request, returns the record, which reads back as the normalised item, and caches it once with the 15-minute TTL |
| `RetrieveProperties.UpstreamStatusIsForwarded` | backend/api/views.py:274-287 | for any spelling of the id, an upstream error status, 404 included, is forwarded with an `error` body, and nothing is cached |
| `RetrieveProperties.ForwardedErrorKeepsStatus` | backend/api/views.py:277-287 | the dedicated not-found answer is unreachable: every error status is forwarded as is |
| `RetrieveProperties.TransportFailureIsUnavailable` | backend/api/views.py:283-287 | for any spelling of the id, a failure without a response is a 503 and nothing is cached |
| `RetrieveProperties.OnlyOwnRecordWritten` | backend/api/views.py:236-272 | a call writes at most the record of its own id, and only with a 200 whose body is the stored value |
| `RetrieveProperties.RetrieveTwiceServesFromCache` | backend/api/views.py:236-272 | repeating a retrieve that got 200 gives the same response from the cache |
| `RetrieveProperties.ListAndRetrieveCacheTheSameRecord` | backend/api/views.py:150-267 | on a miss, and for any spelling of the id, the list loop and the detail view cache the same record under the same key, and the loop appends what retrieve returns |
| `RetrieveProperties.CachedRecordServesBothViews` | backend/api/views.py:150-243 | a record cached by either view is what both serve for any spelling of that id, with no request |
| `RetrieveProperties.LeadingZerosAndPlus` | backend/api/views.py:227-233 | any digit string reads as the same id with a leading zero or a leading `+`, so such spellings name the same record |

## Left out

- HTTP transport: `requests.get`, `raise_for_status` and `.json()` are
  abstracted into the `Upstream.Fetch` outcomes. A body that is not JSON
  counts as a failure without a response.
- Cache expiry and eviction: TTLs are recorded with each write but never
  consulted. Concurrent requests sharing the cache are not modelled.
- Console output and traceback printing.
- Exception text inside messages: the model's `error` strings stop before
  the `{e}` part, which depends on the HTTP library.
- `Ids.ParseInt`: models `int()` on optional sign plus ASCII digits. Python's
  acceptance of surrounding whitespace, `_` separators and non-ASCII digits
  is not modelled. Since Python 3.11, `int()` also rejects digit strings
  longer than 4300 characters; the model accepts them.
- `Pagination.NextLink`, `Pagination.PreviousLink`: `next`/`previous` are
  modelled as the target page number, not the absolute URL built from the
  request.
- The serializer round trip in `retrieve` (`PokemonSerializer(...).data`) is
  treated as the identity on the normalised record. Field coercion by the
  serializer is not modelled.
- JSON numbers other than integers, and dictionary key order.
- The framework's HTML error page for an exception outside the handlers is
  modelled as status 500 with a null body (`Views.ServerError`).
- The frontend, URL routing and settings are not part of this model.
- `ListProperties.AssembleInUpstreamOrder`: it is stated for reference lists
  without repeated ids. With a repeated id, the second occurrence reads the
  record the first one cached. That is covered only by
  `ListProperties.EntryStepReadsOwnKey` and the frame lemmas.

## Findings

| source | as written | input that shows it | evidently intended | confidence | as-written member | corrected member |
|---|---|---|---|---|---|---|
| backend/api/views.py:97 | the upstream `limit` is `paginator.page_size`, the class default 20; the requested size is never stored there | `?page=2&page_size=50` on 1000 items: offset 50, limit 20, so items 71-100 are missing; page 6 of size 10 then shares the cache key `..._offset_50_limit_20` with it | limit = the page size the request selected | high, not executed | `Pagination.WindowAsWritten`, `Pagination.AsWrittenLimitIgnoresPageSize`, `Pagination.AsWrittenWindowsCollide` | `Pagination.Window`, `Pagination.WindowIdentifiesPage`, `ListProperties.PageKeyIdentifiesPage` |
| backend/api/views.py:71-74 | with a count of 0 the paginated response is requested before any page was selected, so the paginator has no page state and the call fails with 500 | a cached or fetched total count of 0 | an empty envelope `{count: 0, next: null, previous: null, results: []}` with 200 | high, not executed | `Views.ZeroCountAsWritten`, `Views.ZeroCountAsWrittenFails` | `Pagination.EmptyEnvelopeIsFirstPageOfNothing`, `ListProperties.ZeroCountServesEmptyPage` |
