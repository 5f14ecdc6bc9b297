/**
 * The listing abstraction every paginated extractor implements: the page
 * value it returns and the item-count constants.
 */
module ListExtractor {
  import opened Wrappers
  import opened Exceptions
  import opened Utils
  import opened Collector

  /** Item counts a list reports when it cannot give a number (Java `long`s). */
  const ITEM_COUNT_UNKNOWN: int := -1
  const ITEM_COUNT_INFINITE: int := -2
  const ITEM_COUNT_MORE_THAN_100: int := -3

  lemma ItemCountConstants()
    ensures ITEM_COUNT_UNKNOWN < 0 && ITEM_COUNT_INFINITE < 0 && ITEM_COUNT_MORE_THAN_100 < 0
    ensures ITEM_COUNT_UNKNOWN != ITEM_COUNT_INFINITE
    ensures ITEM_COUNT_UNKNOWN != ITEM_COUNT_MORE_THAN_100
    ensures ITEM_COUNT_INFINITE != ITEM_COUNT_MORE_THAN_100
  {
  }

  /**
   * One fetched page: its items, the URL of the page after it (null or empty
   * when there is none) and the errors met while extracting it. The getters
   * are the datatype's destructors.
   */
  datatype InfoItemsPage<T> = InfoItemsPage(itemsList: seq<T>, nextPageUrl: Option<string>, errors: seq<Fault>)
  {
    function HasNextPage(): (b: bool)
      ensures b <==> nextPageUrl.Some? && |nextPageUrl.value| > 0
    {
      !IsNullOrEmpty(nextPageUrl)
    }
  }

  /** The shared empty page: no items, no errors, and "" as the next-page URL. */
  function EmptyPage<T>(): (p: InfoItemsPage<T>)
    ensures p.itemsList == [] && p.errors == [] && p.nextPageUrl == Some("")
    ensures !p.HasNextPage()
  {
    InfoItemsPage([], Some(""), [])
  }

  /** The page built from a collector: its items and errors as they stand, with the given URL. */
  function FromCollector<T>(collector: InfoItemsCollector<T>, nextPageUrl: Option<string>): (p: InfoItemsPage<T>)
    reads collector
    ensures p.itemsList == collector.items && p.errors == collector.errors
    ensures p.nextPageUrl == nextPageUrl
  {
    InfoItemsPage(collector.items, nextPageUrl, collector.errors)
  }
}
