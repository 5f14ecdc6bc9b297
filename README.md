# NewPipe Extractor: YouTube search listing and pagination, in Dafny

This project models two pieces of NewPipe Extractor's listing machinery and
proves properties of them. Together they decide which items a YouTube search
page holds and whether another page follows.

- **`ListExtractor`** (`list_extractor.dfy`): the immutable page value
  `InfoItemsPage`. It holds the items, the next-page URL and the extraction
  errors, with `hasNextPage` and the shared empty page. This file also holds
  the `ITEM_COUNT_*` constants.
- **`YoutubeSearchExtractor`** (`youtube_search_extractor.dfy`): how the JSON
  payload of a search becomes a page.
  - `collectStreamsFrom` classifies each entry by its discriminator key and
    commits it to the collector.
  - `getInitialPage` walks every section of the first payload.
  - `getNextPageUrl`/`getNextPageUrlFrom` build the continuation cursor,
    from the first section only.
  - `getPage` refuses a null or empty cursor and otherwise walks the
    continuation region of the payload it fetched.
  - `getSearchSuggestion` and `isCorrectedSearch` are read-only queries on
    the cached `initialData`.

Supporting modules:

- `json.dfy`: nanojson's tree and its total lookups. A missing key, or a value
  of another type, yields an empty object, an empty array or null.
- `collector.dfy`: the item collector, which appends one item or one error
  per commit.
- `exceptions.dfy`, `utils.dfy`, `wrappers.dfy`: Java exceptions as values,
  `isNullOrEmpty`, and Option/Result.

The pure lookup chains are functions. The extractor is a class whose
`initialData` field is assigned by `OnFetchPage`. Its page methods loop
over entries and sections and feed one `InfoItemsCollector` object. Each
method is proved equal to a specification function: `Collect`,
`CollectSections`, `InitialPageOf` or `PageAt`. The lemmas state their
properties:

- the error split: a thrown NothingFound or a failed cast aborts the page,
  while an unknown kind is skipped;
- commit order and the priority between keys;
- the exact cursor format;
- the first-section-only rule for the cursor;
- `hasNextPage` holds exactly when the relevant continuations array is
  non-empty.

Three behaviours of the code that are easy to misread:

- With neither correction renderer present, `getSearchSuggestion` returns
  `getTextFromObject` applied to an empty object. The
  `showingResultsForRenderer` lookup yields an empty object, never null
  (`QueriesTolerateMissingFields`). This model leaves `getTextFromObject`
  abstract, so it does not say whether that text is `""`. The literal `""`
  branch is unreachable and is not modelled.
- The cursor is built from `getUrl()`, which already carries `&gl=<country>`,
  followed by `&pbj=1&ctoken=`.
- A non-object entry or section is not skipped. The Java cast throws
  (ClassCastException, or NullPointerException for a JSON null), and that
  aborts the call like NothingFound.

## Model

| member | source | states |
|---|---|---|
| ListExtractor.ItemCountConstants | extractor/src/main/java/org/schabi/newpipe/extractor/ListExtractor.java:24-34 | The three item-count constants are negative and pairwise distinct (-1, -2, -3) |
| ListExtractor.InfoItemsPage.HasNextPage | extractor/src/main/java/org/schabi/newpipe/extractor/ListExtractor.java:127-129 | A page has a next page iff its next-page URL is non-null and non-empty |
| ListExtractor.EmptyPage | extractor/src/main/java/org/schabi/newpipe/extractor/ListExtractor.java:86-97 | The empty page has no items, no errors, "" as URL, and so no next page |
| ListExtractor.FromCollector | extractor/src/main/java/org/schabi/newpipe/extractor/ListExtractor.java:117-119 | The collector constructor's page holds exactly the collector's items and errors and the given URL |
| Collector.InfoItemsCollector.Commit | extractor/src/main/java/org/schabi/newpipe/extractor/services/youtube/extractors/YoutubeSearchExtractor.java:143-148 | A commit appends the extracted item to the items, or the fault to the errors, and nothing else |
| Collector.OutcomesPartition | extractor/src/main/java/org/schabi/newpipe/extractor/services/youtube/extractors/YoutubeSearchExtractor.java:143-148 | Every committed entry contributes exactly one item or exactly one error |
| YoutubeSearch.ClassifyDecides | extractor/src/main/java/org/schabi/newpipe/extractor/services/youtube/extractors/YoutubeSearchExtractor.java:139-150 | The no-results marker wins over every other key. Otherwise the first of video, channel, playlist present decides the kind and renderer. With none of the four keys the entry is skipped. A non-object entry aborts with the cast's fault |
| YoutubeSearch.CollectAppend | extractor/src/main/java/org/schabi/newpipe/extractor/services/youtube/extractors/YoutubeSearchExtractor.java:139-150 | Walking a concatenation is walking the first part and then, unless it aborted, the second |
| YoutubeSearch.CollectStopPersists | extractor/src/main/java/org/schabi/newpipe/extractor/services/youtube/extractors/YoutubeSearchExtractor.java:140-142 | Once an entry has aborted the walk, later entries change nothing |
| YoutubeSearch.CollectCompletesIff | extractor/src/main/java/org/schabi/newpipe/extractor/services/youtube/extractors/YoutubeSearchExtractor.java:139-150 | The walk runs to the end iff no entry aborts it |
| YoutubeSearch.FirstAbortStopsCollect | extractor/src/main/java/org/schabi/newpipe/extractor/services/youtube/extractors/YoutubeSearchExtractor.java:139-142 | The first aborting entry's fault is the walk's result, and only the entries before it were committed |
| YoutubeSearch.SkippedEntryChangesNothing | extractor/src/main/java/org/schabi/newpipe/extractor/services/youtube/extractors/YoutubeSearchExtractor.java:139-150 | Inserting an entry with none of the four keys anywhere leaves the walk unchanged |
| YoutubeSearch.CollectIsWalk | extractor/src/main/java/org/schabi/newpipe/extractor/services/youtube/extractors/YoutubeSearchExtractor.java:139-150 | The loop's walk equals a front-to-back reference reading: one request per committing entry in payload order, ended by the first abort |
| YoutubeSearch.CommitsMatchEntries | extractor/src/main/java/org/schabi/newpipe/extractor/services/youtube/extractors/YoutubeSearchExtractor.java:143-148 | A walk commits at most once per recognised entry, and exactly once per recognised entry when it is not aborted |
| YoutubeSearch.CollectSectionsStopPersists | extractor/src/main/java/org/schabi/newpipe/extractor/services/youtube/extractors/YoutubeSearchExtractor.java:104-106 | Once a section has aborted the first page, later sections change nothing |
| YoutubeSearch.CollectSectionsFlattens | extractor/src/main/java/org/schabi/newpipe/extractor/services/youtube/extractors/YoutubeSearchExtractor.java:101-106 | When all sections are objects, walking them is one walk over all their entries in section order |
| YoutubeSearch.NextPageUrlFrom | extractor/src/main/java/org/schabi/newpipe/extractor/services/youtube/extractors/YoutubeSearchExtractor.java:153-164 | The cursor is "" iff the continuations array is empty; otherwise it starts with the extractor's URL |
| YoutubeSearch.NextPageUrlCarriesTokens | extractor/src/main/java/org/schabi/newpipe/extractor/services/youtube/extractors/YoutubeSearchExtractor.java:158-163 | The cursor is URL, "&pbj=1&ctoken=", token, "&continuation=", token, "&itct=", tracking parameter: both copied verbatim, the token at both positions |
| YoutubeSearch.NextPageUrl | extractor/src/main/java/org/schabi/newpipe/extractor/services/youtube/extractors/YoutubeSearchExtractor.java:111-116 | The first page's cursor is "" iff the first section has no continuations |
| YoutubeSearch.CursorIgnoresLaterSections | extractor/src/main/java/org/schabi/newpipe/extractor/services/youtube/extractors/YoutubeSearchExtractor.java:111-116 | For any two payloads with the same first section, the first page's cursor is the same: it is built from that section's continuations, and later sections are ignored |
| YoutubeSearch.PageFrom | extractor/src/main/java/org/schabi/newpipe/extractor/services/youtube/extractors/YoutubeSearchExtractor.java:130-133 | A walk yields a page iff it was not aborted; the fault otherwise. The page has the given URL, its next-page flag is "URL non-empty", and items plus errors number the commits |
| YoutubeSearch.InitialPageOf | extractor/src/main/java/org/schabi/newpipe/extractor/services/youtube/extractors/YoutubeSearchExtractor.java:96-109 | The first page fails iff the sections' walk aborted; a page it yields has a next page iff the first section has continuations |
| YoutubeSearch.PageAt | extractor/src/main/java/org/schabi/newpipe/extractor/services/youtube/extractors/YoutubeSearchExtractor.java:118-134 | A null or empty page URL gives ExtractionException whatever the fetcher does; a failed fetch propagates; after a successful fetch the page fails iff the walk of the continuation region's contents aborts; a page's items plus errors number that walk's commits, and it has a next page iff the region has continuations |
| YoutubeSearch.NothingFoundAbortsInitialPage | extractor/src/main/java/org/schabi/newpipe/extractor/services/youtube/extractors/YoutubeSearchExtractor.java:139-142 | A first entry with the no-results marker (even with other keys) makes the first page NothingFound with the marker's body text, whatever follows |
| YoutubeSearch.ScenarioWalk | extractor/src/main/java/org/schabi/newpipe/extractor/services/youtube/extractors/YoutubeSearchExtractor.java:139-150 | Video, channel and unknown entries commit a stream and a channel request, in that order, and nothing for the third |
| YoutubeSearch.ScenarioCursor | extractor/src/main/java/org/schabi/newpipe/extractor/services/youtube/extractors/YoutubeSearchExtractor.java:153-164 | A first section with continuation "T1"/"C1" gives the cursor URL + "&pbj=1&ctoken=T1&continuation=T1&itct=C1" |
| YoutubeSearch.VideoChannelUnknownScenario | extractor/src/main/java/org/schabi/newpipe/extractor/services/youtube/extractors/YoutubeSearchExtractor.java:98-109 | That payload gives a page of the video's and channel's items in order, no errors, and that cursor |
| YoutubeSearch.PayloadRegions | extractor/src/main/java/org/schabi/newpipe/extractor/services/youtube/extractors/YoutubeSearchExtractor.java:101-102 | The payload builders put sections, entries and continuations exactly where the lookup chains read them |
| YoutubeSearch.FirstEntryOfPayload | extractor/src/main/java/org/schabi/newpipe/extractor/services/youtube/extractors/YoutubeSearchExtractor.java:65-94 | The payload builder puts the given entry exactly where both queries read the first entry |
| YoutubeSearch.DidYouMeanWins | extractor/src/main/java/org/schabi/newpipe/extractor/services/youtube/extractors/YoutubeSearchExtractor.java:72-78 | On any payload whose first entry's spelling suggestion carries a query string, the suggestion is that query, whatever the substituted-query renderer holds |
| YoutubeSearch.DidYouMeanWithoutQuery | extractor/src/main/java/org/schabi/newpipe/extractor/services/youtube/extractors/YoutubeSearchExtractor.java:72-78 | A non-empty spelling suggestion without a query string makes the suggestion a ParsingException "Unable to get correctedQueryEndpoint.searchEndpoint.query" |
| YoutubeSearch.ShowingResultsForFallback | extractor/src/main/java/org/schabi/newpipe/extractor/services/youtube/extractors/YoutubeSearchExtractor.java:79-80 | On any payload whose first entry has no non-empty spelling-suggestion object, the suggestion is the text of the substituted query |
| YoutubeSearch.CorrectedSearchIff | extractor/src/main/java/org/schabi/newpipe/extractor/services/youtube/extractors/YoutubeSearchExtractor.java:86-94 | On any payload, the search is corrected iff the first entry's substituted-query renderer is non-empty |
| YoutubeSearch.QueriesTolerateMissingFields | extractor/src/main/java/org/schabi/newpipe/extractor/services/youtube/extractors/YoutubeSearchExtractor.java:65-94 | On any payload whose first entry has neither correction renderer, the suggestion is the text of an empty object and the search is not corrected |
| YoutubeSearch.YoutubeSearchExtractor.constructor | extractor/src/main/java/org/schabi/newpipe/extractor/services/youtube/extractors/YoutubeSearchExtractor.java:46-48 | A new extractor has not fetched its first page |
| YoutubeSearch.YoutubeSearchExtractor.GetUrl | extractor/src/main/java/org/schabi/newpipe/extractor/services/youtube/extractors/YoutubeSearchExtractor.java:59-63 | The URL is the search URL followed by "&gl=" and the content country code |
| YoutubeSearch.YoutubeSearchExtractor.OnFetchPage | extractor/src/main/java/org/schabi/newpipe/extractor/services/youtube/extractors/YoutubeSearchExtractor.java:50-57 | Fetching getUrl() + "&pbj=1" stores the response object of the answer's second element; a failed fetch changes nothing |
| YoutubeSearch.YoutubeSearchExtractor.SearchSuggestion | extractor/src/main/java/org/schabi/newpipe/extractor/services/youtube/extractors/YoutubeSearchExtractor.java:65-84 | The corrected query of a non-empty spelling suggestion, else the text of the substituted query |
| YoutubeSearch.YoutubeSearchExtractor.IsCorrectedSearch | extractor/src/main/java/org/schabi/newpipe/extractor/services/youtube/extractors/YoutubeSearchExtractor.java:86-94 | True iff the first entry's substituted-query renderer is non-empty |
| YoutubeSearch.YoutubeSearchExtractor.GetNextPageUrl | extractor/src/main/java/org/schabi/newpipe/extractor/services/youtube/extractors/YoutubeSearchExtractor.java:111-116 | "" iff the first section of the stored payload has no continuations |
| YoutubeSearch.YoutubeSearchExtractor.HasNextPage | extractor/src/main/java/org/schabi/newpipe/extractor/ListExtractor.java:68-70 | True iff getNextPageUrl is neither null nor empty, i.e. iff the first section has continuations |
| YoutubeSearch.YoutubeSearchExtractor.CollectStreamsFrom | extractor/src/main/java/org/schabi/newpipe/extractor/services/youtube/extractors/YoutubeSearchExtractor.java:136-151 | The loop returns the walk's abort, if any, and appends to the collector exactly the outcomes of the walk's commits |
| YoutubeSearch.YoutubeSearchExtractor.GetInitialPage | extractor/src/main/java/org/schabi/newpipe/extractor/services/youtube/extractors/YoutubeSearchExtractor.java:96-109 | The loop over sections with one shared collector returns exactly InitialPageOf of the stored payload |
| YoutubeSearch.YoutubeSearchExtractor.GetPage | extractor/src/main/java/org/schabi/newpipe/extractor/services/youtube/extractors/YoutubeSearchExtractor.java:118-134 | Returns exactly PageAt: refusal of an empty URL, else the page of the fetched continuation region |

## Left out

- Network I/O: `getJsonResponse`, the `Downloader` and localisation are a
  `Fetcher` function parameter (URL to JSON array or fault). Only the URL
  asked for and the use of the answer are modelled.
- Country negotiation: the search URL (`super.getUrl()`) and the content
  country code are given strings. A `ParsingException` from `getUrl` is not
  modelled.
- The per-kind item extractors (stream, channel, playlist) and `TimeAgoParser`
  are the `extract` function. It takes a kind and a renderer object and gives
  an item or a fault. Item fields are not modelled.
- `getTextFromObject` (YoutubeParsingHelper) is the `textOf` function. It
  cannot fail in the model; its exceptions are not modelled.
- `InfoItemsSearchCollector.commit`: its internals are not part of this model.
  A commit appends one item or one error to the collector.
- `JsonUtils.getString` is not part of this model. It is modelled as walking
  `correctedQueryEndpoint` and `searchEndpoint` with `getObject`, then
  reading the string at `query`. Any other result is
  `ParsingException("Unable to get correctedQueryEndpoint.searchEndpoint.query")`.
- nanojson is not part of this model. Its lookups are modelled as total, and
  an index past the end of an array reads as a missing value.
- The unreachable `""` branch of `getSearchSuggestion`
  (`showingResultsForRenderer` is never null).
- Java generics and casts without meaning here: the unchecked cast in
  `emptyPage`, and `getLinkHandler`'s cast. `serviceId` is not modelled.
- The `ITEM_COUNT_*` constants are mathematical integers, not 64-bit longs.
  Nothing here computes with them.
- The exception wrapping in `getPage` is modelled by its message only. The
  message is the one `ExtractionException(new IllegalArgumentException(...))`
  gets from its cause.
- YoutubeSearch.NextPageUrlCarriesTokens: the token is proved to sit verbatim
  at its two token positions. This is weaker than "occurs exactly twice in the
  cursor": the search URL or the tracking parameter may contain the token too.
- YoutubeSearch.YoutubeSearchExtractor.SearchSuggestion: requires the first
  page to have been fetched. In the source, calling the query earlier
  dereferences a null `initialData`. The same holds for IsCorrectedSearch,
  GetNextPageUrl, HasNextPage and GetInitialPage.
- Concurrency: none. An extractor instance is used by one caller at a time.
