/**
 * The YouTube search extractor: how one search payload becomes a page of
 * items, how the cursor for the next page is built, and the two read-only
 * queries on the first payload (spelling suggestion, auto-correction).
 *
 * The pure lookups and the specification of each walk are module-level
 * functions; the extractor itself is a class whose `initialData` field is set
 * by a fetch, and whose page methods drive an item collector in a loop.
 */
module YoutubeSearch {
  import opened Wrappers
  import opened Exceptions
  import opened Utils
  import opened Json
  import opened Collector
  import opened ListExtractor

  /** The kinds of result the search page can hold. */
  datatype ItemKind = Stream | Channel | Playlist

  /** One extracted search result. */
  datatype InfoItem = InfoItem(infoType: ItemKind, name: string, url: string, thumbnailUrl: string)

  type Page = InfoItemsPage<InfoItem>

  /** getTextFromObject: the plain text of a formatted-text object. */
  type TextReader = JsonObject -> string

  /** The per-kind info-item extractor a commit runs on one renderer object. */
  type ItemExtractor = (ItemKind, JsonObject) -> Result<InfoItem, Fault>

  /** getJsonResponse: the JSON array the service answers at a URL, or the failure. */
  type Fetcher = string -> Result<JsonArray, Fault>

  const PROMO_RENDERER := "backgroundPromoRenderer"
  const VIDEO_RENDERER := "videoRenderer"
  const CHANNEL_RENDERER := "channelRenderer"
  const PLAYLIST_RENDERER := "playlistRenderer"

  /** The discriminator key of each kind. */
  function RendererKey(kind: ItemKind): string
  {
    match kind
    case Stream => VIDEO_RENDERER
    case Channel => CHANNEL_RENDERER
    case Playlist => PLAYLIST_RENDERER
  }

  /** The order in which the kinds' keys are tested. */
  function Rank(kind: ItemKind): nat
  {
    match kind
    case Stream => 0
    case Channel => 1
    case Playlist => 2
  }

  /** The cast `(JsonObject) item`: null dereferences fail, other values fail the cast. */
  function AsObject(j: Json): Result<JsonObject, Fault>
  {
    match j
    case JObject(o) => Ok(o)
    case JNull => Err(NullPointerException)
    case _ => Err(ClassCastException)
  }

  /*************************************************************************
   * Classifying one entry
   *************************************************************************/

  /** One commit: the kind of extractor and the renderer object it is given. */
  datatype Request = Request(kind: ItemKind, renderer: JsonObject)

  /** What one entry does to the walk: abort it, commit once, or nothing. */
  datatype Entry = Abort(fault: Fault) | Commit(request: Request) | Skip

  /**
   * The if-chain of collectStreamsFrom on one entry. The no-results marker
   * is tested before every other key; among the three result keys the first
   * present in the order video, channel, playlist wins; an entry with none of
   * the four keys is skipped.
   */
  function Classify(item: Json, textOf: TextReader): Entry
  {
    match item
    case JObject(o) =>
      if Has(o, PROMO_RENDERER) then
        Abort(NothingFoundException(textOf(GetObject(GetObject(o, PROMO_RENDERER), "bodyText"))))
      else if Has(o, VIDEO_RENDERER) then Commit(Request(Stream, GetObject(o, VIDEO_RENDERER)))
      else if Has(o, CHANNEL_RENDERER) then Commit(Request(Channel, GetObject(o, CHANNEL_RENDERER)))
      else if Has(o, PLAYLIST_RENDERER) then Commit(Request(Playlist, GetObject(o, PLAYLIST_RENDERER)))
      else Skip
    case _ => Abort(AsObject(item).error)
  }

  /**
   * The decision table of Classify: the marker first, then the first result
   * key present in the order video, channel, playlist, else nothing.
   */
  lemma ClassifyDecides(item: Json, textOf: TextReader)
    ensures var e := Classify(item, textOf);
      && (!item.JObject? ==> e == Abort(AsObject(item).error))
      && (item.JObject? && Has(item.fields, PROMO_RENDERER) ==>
            e == Abort(NothingFoundException(textOf(GetObject(GetObject(item.fields, PROMO_RENDERER), "bodyText")))))
      && (e.Commit? <==>
            item.JObject? && !Has(item.fields, PROMO_RENDERER) && (exists k :: Has(item.fields, RendererKey(k))))
      && (e.Commit? ==>
            && Has(item.fields, RendererKey(e.request.kind))
            && e.request.renderer == GetObject(item.fields, RendererKey(e.request.kind))
            && forall k :: Rank(k) < Rank(e.request.kind) ==> !Has(item.fields, RendererKey(k)))
      && (e.Skip? <==>
            item.JObject? && !Has(item.fields, PROMO_RENDERER) && (forall k :: !Has(item.fields, RendererKey(k))))
  {
    var e := Classify(item, textOf);
    if item.JObject? {
      var o := item.fields;
      if !Has(o, PROMO_RENDERER) {
        if Has(o, VIDEO_RENDERER) {
          assert RendererKey(Stream) == VIDEO_RENDERER;
        } else if Has(o, CHANNEL_RENDERER) {
          assert RendererKey(Channel) == CHANNEL_RENDERER;
        } else if Has(o, PLAYLIST_RENDERER) {
          assert RendererKey(Playlist) == PLAYLIST_RENDERER;
        } else {
          NoRendererKey(o);
        }
      }
    }
  }

  lemma NoRendererKey(o: JsonObject)
    requires !Has(o, VIDEO_RENDERER) && !Has(o, CHANNEL_RENDERER) && !Has(o, PLAYLIST_RENDERER)
    ensures forall k :: !Has(o, RendererKey(k))
  {
    forall k ensures !Has(o, RendererKey(k)) {
      match k
      case Stream =>
      case Channel =>
      case Playlist =>
    }
  }

  /*************************************************************************
   * Walking a list of entries
   *************************************************************************/

  /** The effect of a walk: the commits it made, in order, and the fault that stopped it, if any. */
  datatype Scan = Scan(requests: seq<Request>, stop: Option<Fault>)

  /** One more entry; a stopped walk stays as it is. */
  function Step(prev: Scan, e: Entry): Scan
  {
    if prev.stop.Some? then prev
    else
      match e
      case Abort(f) => Scan(prev.requests, Some(f))
      case Commit(r) => Scan(prev.requests + [r], None)
      case Skip => prev
  }

  /** The walk of collectStreamsFrom over `entries`, left to right. */
  function Collect(entries: JsonArray, textOf: TextReader): Scan
    decreases |entries|
  {
    if entries == [] then Scan([], None)
    else Step(Collect(entries[..|entries| - 1], textOf), Classify(entries[|entries| - 1], textOf))
  }

  /** Two walks feeding one collector, one after the other. */
  function Combine(first: Scan, second: Scan): Scan
  {
    if first.stop.Some? then first else Scan(first.requests + second.requests, second.stop)
  }

  /** Walking `a + b` is walking `a` and then, unless it stopped, `b`. */
  lemma {:induction false} CollectAppend(a: JsonArray, b: JsonArray, textOf: TextReader)
    ensures Collect(a + b, textOf) == Combine(Collect(a, textOf), Collect(b, textOf))
    decreases |b|
  {
    if b == [] {
      assert a + b == a;
    } else {
      var b' := b[..|b| - 1];
      assert (a + b)[..|a + b| - 1] == a + b';
      assert (a + b)[|a + b| - 1] == b[|b| - 1];
      CollectAppend(a, b', textOf);
      var ca, cb := Collect(a, textOf), Collect(b', textOf);
      if ca.stop.None? && cb.stop.None? {
        match Classify(b[|b| - 1], textOf)
        case Commit(r) =>
          assert (ca.requests + cb.requests) + [r] == ca.requests + (cb.requests + [r]);
        case _ =>
      }
    }
  }

  /** Once a prefix of the entries has stopped the walk, the rest changes nothing. */
  lemma {:induction false} CollectStopPersists(entries: JsonArray, k: nat, textOf: TextReader)
    requires k <= |entries|
    requires Collect(entries[..k], textOf).stop.Some?
    ensures Collect(entries, textOf) == Collect(entries[..k], textOf)
  {
    assert entries == entries[..k] + entries[k..];
    CollectAppend(entries[..k], entries[k..], textOf);
  }

  /** The loop's view of one more entry that commits `r`. */
  lemma {:induction false} CommitStep(entries: JsonArray, i: nat, r: Request, extract: ItemExtractor, textOf: TextReader)
    requires i < |entries| && Collect(entries[..i], textOf).stop.None?
    requires Classify(entries[i], textOf) == Commit(r)
    ensures Collect(entries[..i + 1], textOf) == Scan(Collect(entries[..i], textOf).requests + [r], None)
    ensures ItemsOf(Outcomes(Collect(entries[..i + 1], textOf).requests, extract))
      == ItemsOf(Outcomes(Collect(entries[..i], textOf).requests, extract)) + ItemsOf([extract(r.kind, r.renderer)])
    ensures ErrorsOf(Outcomes(Collect(entries[..i + 1], textOf).requests, extract))
      == ErrorsOf(Outcomes(Collect(entries[..i], textOf).requests, extract)) + ErrorsOf([extract(r.kind, r.renderer)])
  {
    assert entries[..i + 1][..i] == entries[..i];
    var done := Collect(entries[..i], textOf).requests;
    OutcomesAppend(done, [r], extract);
    assert Outcomes([r], extract) == [extract(r.kind, r.renderer)];
    ItemsOfAppend(Outcomes(done, extract), [extract(r.kind, r.renderer)]);
    ErrorsOfAppend(Outcomes(done, extract), [extract(r.kind, r.renderer)]);
  }

  /** The loop invariant after committing the outcome of one more entry that commits `r`. */
  lemma {:induction false} CommitKeeps(entries: JsonArray, i: nat, r: Request, extract: ItemExtractor, textOf: TextReader,
                                       baseItems: seq<InfoItem>, baseErrors: seq<Fault>, items: seq<InfoItem>, errors: seq<Fault>)
    requires i < |entries| && Collect(entries[..i], textOf).stop.None?
    requires Classify(entries[i], textOf) == Commit(r)
    requires items == baseItems + ItemsOf(Outcomes(Collect(entries[..i], textOf).requests, extract)) + ItemsOf([extract(r.kind, r.renderer)])
    requires errors == baseErrors + ErrorsOf(Outcomes(Collect(entries[..i], textOf).requests, extract)) + ErrorsOf([extract(r.kind, r.renderer)])
    ensures Collect(entries[..i + 1], textOf).stop.None?
    ensures items == baseItems + ItemsOf(Outcomes(Collect(entries[..i + 1], textOf).requests, extract))
    ensures errors == baseErrors + ErrorsOf(Outcomes(Collect(entries[..i + 1], textOf).requests, extract))
  {
    CommitStep(entries, i, r, extract, textOf);
  }

  /** The loop's view of one more entry that is skipped. */
  lemma {:induction false} SkipStep(entries: JsonArray, i: nat, textOf: TextReader)
    requires i < |entries| && Collect(entries[..i], textOf).stop.None?
    requires Classify(entries[i], textOf) == Skip
    ensures Collect(entries[..i + 1], textOf) == Collect(entries[..i], textOf)
  {
    assert entries[..i + 1][..i] == entries[..i];
  }

  /** The loop's view of one more entry that aborts with `f`: the whole walk ends there. */
  lemma {:induction false} AbortStep(entries: JsonArray, i: nat, f: Fault, textOf: TextReader)
    requires i < |entries| && Collect(entries[..i], textOf).stop.None?
    requires Classify(entries[i], textOf) == Abort(f)
    ensures Collect(entries, textOf) == Scan(Collect(entries[..i], textOf).requests, Some(f))
  {
    var prefix := entries[..i + 1];
    assert prefix[..|prefix| - 1] == entries[..i];
    assert prefix[|prefix| - 1] == entries[i];
    assert Collect(prefix, textOf) == Scan(Collect(entries[..i], textOf).requests, Some(f));
    CollectStopPersists(entries, i + 1, textOf);
  }

  /** The walk runs to the end exactly when no entry aborts it. */
  lemma {:induction false} CollectCompletesIff(entries: JsonArray, textOf: TextReader)
    ensures Collect(entries, textOf).stop.None? <==>
      forall j :: 0 <= j < |entries| ==> !Classify(entries[j], textOf).Abort?
    decreases |entries|
  {
    if entries != [] {
      var prefix := entries[..|entries| - 1];
      CollectCompletesIff(prefix, textOf);
      assert forall j :: 0 <= j < |prefix| ==> prefix[j] == entries[j];
    }
  }

  /**
   * The first aborting entry decides the fault, and only the entries before
   * it have been committed.
   */
  lemma {:induction false} FirstAbortStopsCollect(entries: JsonArray, k: nat, textOf: TextReader)
    requires k < |entries| && Classify(entries[k], textOf).Abort?
    requires forall j :: 0 <= j < k ==> !Classify(entries[j], textOf).Abort?
    ensures Collect(entries, textOf).stop == Some(Classify(entries[k], textOf).fault)
    ensures Collect(entries, textOf).requests == Collect(entries[..k], textOf).requests
  {
    var prefix := entries[..k];
    assert forall j :: 0 <= j < |prefix| ==> prefix[j] == entries[j];
    CollectCompletesIff(prefix, textOf);
    assert entries[..k + 1][..k] == prefix;
    CollectStopPersists(entries, k + 1, textOf);
  }

  /** An entry with none of the four keys leaves the walk exactly as it was. */
  lemma {:induction false} SkippedEntryChangesNothing(a: JsonArray, x: Json, b: JsonArray, textOf: TextReader)
    requires Classify(x, textOf).Skip?
    ensures Collect(a + [x] + b, textOf) == Collect(a + b, textOf)
  {
    CollectAppend(a + [x], b, textOf);
    CollectAppend(a, [x], textOf);
    assert [x][..0] == [];
    CollectAppend(a, b, textOf);
  }

  /**
   * An independent reading of the walk, front to back: each entry is
   * classified in payload order, a commit contributes exactly one request,
   * and the first abort ends the walk.
   */
  function Walk(entries: JsonArray, textOf: TextReader): Scan
    decreases |entries|
  {
    if entries == [] then Scan([], None)
    else
      match Classify(entries[0], textOf)
      case Abort(f) => Scan([], Some(f))
      case Commit(r) => var rest := Walk(entries[1..], textOf); Scan([r] + rest.requests, rest.stop)
      case Skip => Walk(entries[1..], textOf)
  }

  lemma {:induction false} CollectIsWalk(entries: JsonArray, textOf: TextReader)
    ensures Collect(entries, textOf) == Walk(entries, textOf)
    decreases |entries|
  {
    if entries != [] {
      var head, rest := entries[..1], entries[1..];
      assert entries == head + rest;
      assert head[..0] == [];
      CollectAppend(head, rest, textOf);
      CollectIsWalk(rest, textOf);
    }
  }

  /** The number of entries that commit. */
  function CommitCount(entries: JsonArray, textOf: TextReader): nat
    decreases |entries|
  {
    if entries == [] then 0
    else CommitCount(entries[1..], textOf) + (if Classify(entries[0], textOf).Commit? then 1 else 0)
  }

  /** A walk that is not aborted commits once for every recognised entry, and never more. */
  lemma {:induction false} CommitsMatchEntries(entries: JsonArray, textOf: TextReader)
    ensures |Walk(entries, textOf).requests| <= CommitCount(entries, textOf)
    ensures Walk(entries, textOf).stop.None? ==> |Walk(entries, textOf).requests| == CommitCount(entries, textOf)
    decreases |entries|
  {
    if entries != [] {
      CommitsMatchEntries(entries[1..], textOf);
    }
  }

  /** The extraction outcome of each commit, in commit order. */
  function Outcomes(requests: seq<Request>, extract: ItemExtractor): (r: seq<Result<InfoItem, Fault>>)
    ensures |r| == |requests|
    ensures forall i :: 0 <= i < |requests| ==> r[i] == extract(requests[i].kind, requests[i].renderer)
  {
    seq(|requests|, i requires 0 <= i < |requests| => extract(requests[i].kind, requests[i].renderer))
  }

  lemma OutcomesAppend(a: seq<Request>, b: seq<Request>, extract: ItemExtractor)
    ensures Outcomes(a + b, extract) == Outcomes(a, extract) + Outcomes(b, extract)
  {
    var l, r := Outcomes(a + b, extract), Outcomes(a, extract) + Outcomes(b, extract);
    assert |l| == |r|;
    forall i | 0 <= i < |l| ensures l[i] == r[i] {
      if i < |a| {
        assert (a + b)[i] == a[i];
      } else {
        assert (a + b)[i] == b[i - |a|];
      }
    }
  }

  /*************************************************************************
   * The regions of a payload
   *************************************************************************/

  /** contents.twoColumnSearchResultsRenderer.primaryContents.sectionListRenderer.contents */
  function PrimarySections(data: JsonObject): JsonArray
  {
    var results := GetObject(GetObject(data, "contents"), "twoColumnSearchResultsRenderer");
    GetArray(GetObject(GetObject(results, "primaryContents"), "sectionListRenderer"), "contents")
  }

  function SectionEntries(section: JsonObject): JsonArray
  {
    GetArray(GetObject(section, "itemSectionRenderer"), "contents")
  }

  function SectionContinuations(section: JsonObject): JsonArray
  {
    GetArray(GetObject(section, "itemSectionRenderer"), "continuations")
  }

  function FirstSection(data: JsonObject): JsonObject
  {
    ObjectAt(PrimarySections(data), 0)
  }

  /** The first entry of the first section, where the service puts its correction renderers. */
  function FirstEntry(data: JsonObject): JsonObject
  {
    ObjectAt(SectionEntries(FirstSection(data)), 0)
  }

  /** response, the second element of a fetched JSON array. */
  function ResponseOf(ajaxJson: JsonArray): JsonObject
  {
    GetObject(ObjectAt(ajaxJson, 1), "response")
  }

  /** response.continuationContents.itemSectionContinuation, the region of a follow-up page. */
  function ContinuationRegion(ajaxJson: JsonArray): JsonObject
  {
    GetObject(GetObject(ResponseOf(ajaxJson), "continuationContents"), "itemSectionContinuation")
  }

  /** Builders for the payload shapes above, used to state properties about concrete payloads. */
  function SearchPayload(sections: JsonArray): JsonObject
  {
    var sectionList := JObject(map["contents" := JArray(sections)]);
    var primary := JObject(map["sectionListRenderer" := sectionList]);
    var results := JObject(map["primaryContents" := primary]);
    map["contents" := JObject(map["twoColumnSearchResultsRenderer" := results])]
  }

  function SectionWith(entries: JsonArray, continuations: JsonArray): Json
  {
    JObject(map["itemSectionRenderer" := JObject(map["contents" := JArray(entries), "continuations" := JArray(continuations)])])
  }

  function ContinuationWith(token: string, tracking: string): Json
  {
    JObject(map["nextContinuationData" := JObject(map["continuation" := JString(token), "clickTrackingParams" := JString(tracking)])])
  }

  lemma PayloadRegions(sections: JsonArray, entries: JsonArray, continuations: JsonArray)
    ensures PrimarySections(SearchPayload(sections)) == sections
    ensures SectionEntries(SectionWith(entries, continuations).fields) == entries
    ensures SectionContinuations(SectionWith(entries, continuations).fields) == continuations
  {
  }

  /*************************************************************************
   * Walking the sections of the first page
   *************************************************************************/

  /** One more section: cast it, then walk its entries, unless the walk has already stopped. */
  function Feed(prev: Scan, section: Json, textOf: TextReader): Scan
  {
    if prev.stop.Some? then prev
    else
      match AsObject(section)
      case Err(f) => Scan(prev.requests, Some(f))
      case Ok(o) => Combine(prev, Collect(SectionEntries(o), textOf))
  }

  /** The loop of getInitialPage: every section, in order, feeds the same walk. */
  function CollectSections(sections: JsonArray, textOf: TextReader): Scan
    decreases |sections|
  {
    if sections == [] then Scan([], None)
    else Feed(CollectSections(sections[..|sections| - 1], textOf), sections[|sections| - 1], textOf)
  }

  lemma {:induction false} CollectSectionsSnoc(sections: JsonArray, i: nat, textOf: TextReader)
    requires i < |sections|
    ensures CollectSections(sections[..i + 1], textOf) == Feed(CollectSections(sections[..i], textOf), sections[i], textOf)
  {
    var prefix := sections[..i + 1];
    assert prefix[..|prefix| - 1] == sections[..i];
    assert prefix[|prefix| - 1] == sections[i];
  }

  lemma {:induction false} CollectSectionsStopPersists(sections: JsonArray, k: nat, textOf: TextReader)
    requires k <= |sections|
    requires CollectSections(sections[..k], textOf).stop.Some?
    ensures CollectSections(sections, textOf) == CollectSections(sections[..k], textOf)
    decreases |sections|
  {
    if k < |sections| {
      var prefix := sections[..|sections| - 1];
      assert prefix[..k] == sections[..k];
      CollectSectionsStopPersists(prefix, k, textOf);
    } else {
      assert sections[..k] == sections;
    }
  }

  /** The loop's view of one more section whose walk ran to its end. */
  lemma {:induction false} SectionStep(sections: JsonArray, i: nat, section: JsonObject, extract: ItemExtractor, textOf: TextReader)
    requires i < |sections| && CollectSections(sections[..i], textOf).stop.None?
    requires AsObject(sections[i]) == Ok(section) && Collect(SectionEntries(section), textOf).stop.None?
    ensures CollectSections(sections[..i + 1], textOf).stop.None?
    ensures ItemsOf(Outcomes(CollectSections(sections[..i + 1], textOf).requests, extract))
      == ItemsOf(Outcomes(CollectSections(sections[..i], textOf).requests, extract))
       + ItemsOf(Outcomes(Collect(SectionEntries(section), textOf).requests, extract))
    ensures ErrorsOf(Outcomes(CollectSections(sections[..i + 1], textOf).requests, extract))
      == ErrorsOf(Outcomes(CollectSections(sections[..i], textOf).requests, extract))
       + ErrorsOf(Outcomes(Collect(SectionEntries(section), textOf).requests, extract))
  {
    CollectSectionsSnoc(sections, i, textOf);
    var done := CollectSections(sections[..i], textOf).requests;
    var walked := Collect(SectionEntries(section), textOf).requests;
    OutcomesAppend(done, walked, extract);
    ItemsOfAppend(Outcomes(done, extract), Outcomes(walked, extract));
    ErrorsOfAppend(Outcomes(done, extract), Outcomes(walked, extract));
  }

  /** The loop's view of one more section that aborts with `f`: the first page fails with it. */
  lemma {:induction false} SectionAbort(sections: JsonArray, i: nat, f: Fault, textOf: TextReader)
    requires i < |sections|
    requires Feed(CollectSections(sections[..i], textOf), sections[i], textOf).stop == Some(f)
    ensures CollectSections(sections, textOf).stop == Some(f)
  {
    CollectSectionsSnoc(sections, i, textOf);
    CollectSectionsStopPersists(sections, i + 1, textOf);
  }

  /** The entries of all sections, concatenated in section order. */
  function AllEntries(sections: JsonArray): JsonArray
    decreases |sections|
  {
    if sections == [] then []
    else
      var last := sections[|sections| - 1];
      AllEntries(sections[..|sections| - 1]) + (if last.JObject? then SectionEntries(last.fields) else [])
  }

  /** When every section is an object, the sections' walk is one walk over all their entries in order. */
  lemma {:induction false} CollectSectionsFlattens(sections: JsonArray, textOf: TextReader)
    requires forall i :: 0 <= i < |sections| ==> sections[i].JObject?
    ensures CollectSections(sections, textOf) == Collect(AllEntries(sections), textOf)
    decreases |sections|
  {
    if sections != [] {
      var prefix := sections[..|sections| - 1];
      var last := sections[|sections| - 1];
      CollectSectionsFlattens(prefix, textOf);
      CollectAppend(AllEntries(prefix), SectionEntries(last.fields), textOf);
    }
  }

  /*************************************************************************
   * The cursor
   *************************************************************************/

  /** Java's string concatenation of a possibly null string. */
  function JavaString(s: Option<string>): string
  {
    if s.Some? then s.value else "null"
  }

  const CTOKEN := "&pbj=1&ctoken="
  const CONTINUATION := "&continuation="
  const ITCT := "&itct="

  /** getNextPageUrlFrom: "" without continuations, else the follow-up URL built from the first one. */
  function NextPageUrlFrom(url: string, continuations: JsonArray): (r: string)
    ensures r == "" <==> |continuations| == 0
    ensures |continuations| > 0 ==> |r| > |url| && r[..|url|] == url
  {
    if |continuations| == 0 then ""
    else
      var nextContinuationData := GetObject(ObjectAt(continuations, 0), "nextContinuationData");
      var continuation := JavaString(GetString(nextContinuationData, "continuation"));
      var clickTrackingParams := JavaString(GetString(nextContinuationData, "clickTrackingParams"));
      var r := url + CTOKEN + continuation + CONTINUATION + continuation + ITCT + clickTrackingParams;
      assert r[..|url|] == url;
      r
  }

  /**
   * The cursor carries the continuation token verbatim at both token
   * positions and the tracking parameter verbatim at the end, between the
   * fixed separators.
   */
  lemma NextPageUrlCarriesTokens(url: string, continuations: JsonArray, token: string, tracking: string)
    requires |continuations| > 0
    requires GetString(GetObject(ObjectAt(continuations, 0), "nextContinuationData"), "continuation") == Some(token)
    requires GetString(GetObject(ObjectAt(continuations, 0), "nextContinuationData"), "clickTrackingParams") == Some(tracking)
    ensures var r := NextPageUrlFrom(url, continuations);
      var p := |url| + |CTOKEN|;
      var q := p + |token| + |CONTINUATION|;
      && |r| == q + |token| + |ITCT| + |tracking|
      && r[..|url|] == url
      && r[|url|..p] == CTOKEN
      && r[p..p + |token|] == token
      && r[p + |token|..q] == CONTINUATION
      && r[q..q + |token|] == token
      && r[q + |token|..q + |token| + |ITCT|] == ITCT
      && r[q + |token| + |ITCT|..] == tracking
  {
    var r := NextPageUrlFrom(url, continuations);
    var p := |url| + |CTOKEN|;
    var q := p + |token| + |CONTINUATION|;
    var s := q + |token| + |ITCT|;
    assert r == url + CTOKEN + token + CONTINUATION + token + ITCT + tracking;
    assert r[|url|..p] == CTOKEN;
    assert r[p..p + |token|] == token;
    assert r[p + |token|..q] == CONTINUATION;
    assert r[q..q + |token|] == token;
    assert r[q + |token|..s] == ITCT;
    assert r[s..] == tracking;
  }

  /** getNextPageUrl: the cursor of the first page, from the first section's continuations only. */
  function NextPageUrl(url: string, data: JsonObject): (r: string)
    ensures r == "" <==> |SectionContinuations(FirstSection(data))| == 0
  {
    NextPageUrlFrom(url, SectionContinuations(FirstSection(data)))
  }

  /** Continuations in sections after the first never reach the cursor. */
  lemma CursorIgnoresLaterSections(url: string, data: JsonObject, data': JsonObject, first: Json, later: JsonArray, later': JsonArray)
    requires PrimarySections(data) == [first] + later
    requires PrimarySections(data') == [first] + later'
    ensures NextPageUrl(url, data) == NextPageUrl(url, data')
    ensures first.JObject? ==> NextPageUrl(url, data) == NextPageUrlFrom(url, SectionContinuations(first.fields))
  {
  }

  /*************************************************************************
   * Pages
   *************************************************************************/

  /** The page a finished walk yields, or the fault that stopped it: no page at all. */
  function PageFrom(scan: Scan, nextPageUrl: string, extract: ItemExtractor): (r: Result<Page, Fault>)
    ensures r.Err? <==> scan.stop.Some?
    ensures r.Err? ==> r.error == scan.stop.value
    ensures r.Ok? ==> r.value.nextPageUrl == Some(nextPageUrl)
    ensures r.Ok? ==> (r.value.HasNextPage() <==> nextPageUrl != "")
    ensures r.Ok? ==> |r.value.itemsList| + |r.value.errors| == |scan.requests|
  {
    if scan.stop.Some? then Err(scan.stop.value)
    else
      var outcomes := Outcomes(scan.requests, extract);
      OutcomesPartition(outcomes);
      Ok(InfoItemsPage(ItemsOf(outcomes), Some(nextPageUrl), ErrorsOf(outcomes)))
  }

  /** getInitialPage on the fetched payload `data`, with `url` the extractor's URL. */
  function InitialPageOf(data: JsonObject, url: string, extract: ItemExtractor, textOf: TextReader): (r: Result<Page, Fault>)
    ensures r.Err? <==> CollectSections(PrimarySections(data), textOf).stop.Some?
    ensures r.Ok? ==> (r.value.HasNextPage() <==> |SectionContinuations(FirstSection(data))| > 0)
  {
    PageFrom(CollectSections(PrimarySections(data), textOf), NextPageUrl(url, data), extract)
  }

  const EMPTY_PAGE_URL := "java.lang.IllegalArgumentException: Page url is empty or null"

  /** getPage(pageUrl): a null or empty URL is refused before anything is fetched. */
  function PageAt(pageUrl: Option<string>, fetch: Fetcher, url: string, extract: ItemExtractor, textOf: TextReader)
    : (r: Result<Page, Fault>)
    ensures IsNullOrEmpty(pageUrl) ==> r == Err(ExtractionException(EMPTY_PAGE_URL))
    ensures !IsNullOrEmpty(pageUrl) && fetch(pageUrl.value).Err? ==> r == Err(fetch(pageUrl.value).error)
    ensures r.Ok? ==>
      (r.value.HasNextPage() <==> |GetArray(ContinuationRegion(fetch(pageUrl.value).value), "continuations")| > 0)
    ensures !IsNullOrEmpty(pageUrl) && fetch(pageUrl.value).Ok? ==>
      (r.Err? <==> Collect(GetArray(ContinuationRegion(fetch(pageUrl.value).value), "contents"), textOf).stop.Some?)
    ensures r.Ok? ==>
      |r.value.itemsList| + |r.value.errors| == |Collect(GetArray(ContinuationRegion(fetch(pageUrl.value).value), "contents"), textOf).requests|
  {
    if IsNullOrEmpty(pageUrl) then Err(ExtractionException(EMPTY_PAGE_URL))
    else
      match fetch(pageUrl.value)
      case Err(f) => Err(f)
      case Ok(ajaxJson) =>
        var region := ContinuationRegion(ajaxJson);
        PageFrom(Collect(GetArray(region, "contents"), textOf),
                 NextPageUrlFrom(url, GetArray(region, "continuations")), extract)
  }

  /** An entry carrying the no-results marker as the very first entry aborts the first page, whatever follows. */
  lemma {:induction false} NothingFoundAbortsInitialPage(fields: JsonObject, rest: JsonArray, continuations: JsonArray, later: JsonArray,
                                      url: string, extract: ItemExtractor, textOf: TextReader)
    requires Has(fields, PROMO_RENDERER)
    ensures InitialPageOf(SearchPayload([SectionWith([JObject(fields)] + rest, continuations)] + later), url, extract, textOf)
      == Err(NothingFoundException(textOf(GetObject(GetObject(fields, PROMO_RENDERER), "bodyText"))))
  {
    var sections := [SectionWith([JObject(fields)] + rest, continuations)] + later;
    var entries := [JObject(fields)] + rest;
    PayloadRegions(sections, entries, continuations);
    FirstAbortStopsCollect(entries, 0, textOf);
    assert sections[..1][..0] == [];
    assert sections[..1][0] == SectionWith(entries, continuations);
    CollectSectionsStopPersists(sections, 1, textOf);
  }

  /** The walk over one video entry, one channel entry and one unrecognised entry. */
  lemma {:induction false} ScenarioWalk(video: JsonObject, channel: JsonObject, other: JsonObject, textOf: TextReader)
    requires !Has(other, PROMO_RENDERER) && !Has(other, VIDEO_RENDERER)
    requires !Has(other, CHANNEL_RENDERER) && !Has(other, PLAYLIST_RENDERER)
    ensures Collect([JObject(map[VIDEO_RENDERER := JObject(video)]), JObject(map[CHANNEL_RENDERER := JObject(channel)]),
                     JObject(other)], textOf)
      == Scan([Request(Stream, video), Request(Channel, channel)], None)
  {
    var v, c, o := JObject(map[VIDEO_RENDERER := JObject(video)]), JObject(map[CHANNEL_RENDERER := JObject(channel)]), JObject(other);
    var entries := [v, c, o];
    assert Classify(v, textOf) == Commit(Request(Stream, video));
    assert Classify(c, textOf) == Commit(Request(Channel, channel));
    assert Classify(o, textOf) == Skip;
    CollectIsWalk(entries, textOf);
    assert Walk([o], textOf) == Scan([], None) by { assert [o][1..] == []; }
    assert Walk([c, o], textOf) == Scan([Request(Channel, channel)], None) by { assert [c, o][1..] == [o]; }
    assert entries[1..] == [c, o];
  }

  /** The cursor of a first page whose first section carries the continuation "T1"/"C1". */
  lemma ScenarioCursor(url: string, entries: JsonArray, later: JsonArray)
    ensures NextPageUrl(url, SearchPayload([SectionWith(entries, [ContinuationWith("T1", "C1")])] + later))
      == url + "&pbj=1&ctoken=T1&continuation=T1&itct=C1"
  {
    var sections := [SectionWith(entries, [ContinuationWith("T1", "C1")])] + later;
    PayloadRegions(sections, entries, [ContinuationWith("T1", "C1")]);
    assert FirstSection(SearchPayload(sections)) == SectionWith(entries, [ContinuationWith("T1", "C1")]).fields;
  }

  /**
   * A section of one video, one channel and one unrecognised entry, with the
   * continuation "T1"/"C1", gives a page of the video's and the channel's
   * items in that order, no errors, and the cursor with both tokens.
   */
  lemma {:induction false} VideoChannelUnknownScenario(video: JsonObject, channel: JsonObject, other: JsonObject,
                                                       url: string, extract: ItemExtractor, textOf: TextReader)
    requires !Has(other, PROMO_RENDERER) && !Has(other, VIDEO_RENDERER)
    requires !Has(other, CHANNEL_RENDERER) && !Has(other, PLAYLIST_RENDERER)
    requires extract(Stream, video).Ok? && extract(Channel, channel).Ok?
    ensures InitialPageOf(SearchPayload([SectionWith([JObject(map[VIDEO_RENDERER := JObject(video)]),
                                                      JObject(map[CHANNEL_RENDERER := JObject(channel)]),
                                                      JObject(other)],
                                                     [ContinuationWith("T1", "C1")])]), url, extract, textOf)
      == Ok(InfoItemsPage([extract(Stream, video).value, extract(Channel, channel).value],
                          Some(url + "&pbj=1&ctoken=T1&continuation=T1&itct=C1"), []))
  {
    var entries := [JObject(map[VIDEO_RENDERER := JObject(video)]), JObject(map[CHANNEL_RENDERER := JObject(channel)]), JObject(other)];
    var sections := [SectionWith(entries, [ContinuationWith("T1", "C1")])];
    var requests := [Request(Stream, video), Request(Channel, channel)];
    PayloadRegions(sections, entries, [ContinuationWith("T1", "C1")]);
    ScenarioWalk(video, channel, other, textOf);
    ScenarioCursor(url, entries, []);
    assert sections == [SectionWith(entries, [ContinuationWith("T1", "C1")])] + [];
    CollectSectionsSnoc(sections, 0, textOf);
    assert sections[..1] == sections && sections[..0] == [];
    assert CollectSections(sections, textOf) == Scan(requests, None);
    TwoSuccessfulOutcomes(requests, extract);
  }

  /** Two requests whose extractions both succeed give those two items and no error. */
  lemma {:induction false} TwoSuccessfulOutcomes(requests: seq<Request>, extract: ItemExtractor)
    requires |requests| == 2
    requires extract(requests[0].kind, requests[0].renderer).Ok? && extract(requests[1].kind, requests[1].renderer).Ok?
    ensures ItemsOf(Outcomes(requests, extract))
      == [extract(requests[0].kind, requests[0].renderer).value, extract(requests[1].kind, requests[1].renderer).value]
    ensures ErrorsOf(Outcomes(requests, extract)) == []
  {
    var x, y := extract(requests[0].kind, requests[0].renderer), extract(requests[1].kind, requests[1].renderer);
    var outcomes := Outcomes(requests, extract);
    assert outcomes == [x] + [y];
    assert [x][..0] == [] && [y][..0] == [];
    ItemsOfAppend([x], [y]);
    ErrorsOfAppend([x], [y]);
  }

  /*************************************************************************
   * The two read-only queries on the first payload
   *************************************************************************/

  const SUGGESTION_PATH := "correctedQueryEndpoint.searchEndpoint.query"

  function DidYouMean(data: JsonObject): JsonObject
  {
    GetObject(FirstEntry(data), "didYouMeanRenderer")
  }

  function ShowingResultsFor(data: JsonObject): JsonObject
  {
    GetObject(FirstEntry(data), "showingResultsForRenderer")
  }

  /** JsonUtils.getString(renderer, "correctedQueryEndpoint.searchEndpoint.query"). */
  function CorrectedQuery(renderer: JsonObject): Result<string, Fault>
  {
    var query := GetString(GetObject(GetObject(renderer, "correctedQueryEndpoint"), "searchEndpoint"), "query");
    if query.Some? then Ok(query.value) else Err(ParsingException("Unable to get " + SUGGESTION_PATH))
  }

  /** getSearchSuggestion on the first page's payload `data`. */
  function SuggestionOf(data: JsonObject, textOf: TextReader): Result<string, Fault>
  {
    if DidYouMean(data) != map[] then CorrectedQuery(DidYouMean(data))
    else Ok(textOf(GetObject(ShowingResultsFor(data), "correctedQuery")))
  }

  /** isCorrectedSearch on the first page's payload `data`. */
  function CorrectedOf(data: JsonObject): bool
  {
    ShowingResultsFor(data) != map[]
  }

  /** A payload whose first entry is `entry`, the places the queries read. */
  function FirstEntryPayload(entry: JsonObject, rest: JsonArray, continuations: JsonArray, later: JsonArray): JsonObject
  {
    SearchPayload([SectionWith([JObject(entry)] + rest, continuations)] + later)
  }

  /** The builder puts `entry` where the queries look for the first entry. */
  lemma FirstEntryOfPayload(entry: JsonObject, rest: JsonArray, continuations: JsonArray, later: JsonArray)
    ensures FirstEntry(FirstEntryPayload(entry, rest, continuations, later)) == entry
  {
    var entries := [JObject(entry)] + rest;
    PayloadRegions([SectionWith(entries, continuations)] + later, entries, continuations);
    assert FirstSection(FirstEntryPayload(entry, rest, continuations, later)) == SectionWith(entries, continuations).fields;
  }

  /** The query under didYouMeanRenderer of a payload's first entry, whatever else the payload holds. */
  function SuggestedQuery(entry: JsonObject): Option<string>
  {
    GetString(GetObject(GetObject(GetObject(entry, "didYouMeanRenderer"), "correctedQueryEndpoint"), "searchEndpoint"), "query")
  }

  /** A spelling suggestion carrying a query wins whatever the substituted-query renderer holds. */
  lemma DidYouMeanWins(data: JsonObject, entry: JsonObject, query: string, textOf: TextReader)
    requires FirstEntry(data) == entry
    requires SuggestedQuery(entry) == Some(query)
    ensures SuggestionOf(data, textOf) == Ok(query)
  {
    assert "correctedQueryEndpoint" in DidYouMean(data);
    assert CorrectedQuery(DidYouMean(data)) == Ok(query);
  }

  /** A non-empty spelling suggestion without a query string is a ParsingException naming the path. */
  lemma DidYouMeanWithoutQuery(data: JsonObject, entry: JsonObject, textOf: TextReader)
    requires FirstEntry(data) == entry
    requires GetObject(entry, "didYouMeanRenderer") != map[] && SuggestedQuery(entry) == None
    ensures SuggestionOf(data, textOf) == Err(ParsingException("Unable to get " + SUGGESTION_PATH))
  {
    assert DidYouMean(data) == GetObject(entry, "didYouMeanRenderer");
  }

  /** Without a (non-empty) spelling suggestion, the substituted query's text is the suggestion. */
  lemma ShowingResultsForFallback(data: JsonObject, entry: JsonObject, textOf: TextReader)
    requires FirstEntry(data) == entry
    requires GetObject(entry, "didYouMeanRenderer") == map[]
    ensures SuggestionOf(data, textOf) == Ok(textOf(GetObject(GetObject(entry, "showingResultsForRenderer"), "correctedQuery")))
  {
  }

  /** The search counts as corrected exactly when the first entry's substituted-query renderer is non-empty. */
  lemma CorrectedSearchIff(data: JsonObject, entry: JsonObject)
    requires FirstEntry(data) == entry
    ensures CorrectedOf(data) <==> GetObject(entry, "showingResultsForRenderer") != map[]
  {
  }

  /** Both queries tolerate a payload whose first entry has neither correction renderer. */
  lemma QueriesTolerateMissingFields(data: JsonObject, textOf: TextReader)
    requires !Has(FirstEntry(data), "didYouMeanRenderer") && !Has(FirstEntry(data), "showingResultsForRenderer")
    ensures SuggestionOf(data, textOf) == Ok(textOf(map[]))
    ensures !CorrectedOf(data)
  {
  }

  /*************************************************************************
   * The extractor
   *************************************************************************/

  class YoutubeSearchExtractor {
    /** The search URL of the query's link handler (super.getUrl()). */
    const searchUrl: string
    /** The country code of the extractor's content country. */
    const contentCountry: string
    const textOf: TextReader
    const extract: ItemExtractor
    /** The payload of the first page; null until the page is fetched. */
    var initialData: Option<JsonObject>

    constructor (searchUrl: string, contentCountry: string, textOf: TextReader, extract: ItemExtractor)
      ensures this.searchUrl == searchUrl && this.contentCountry == contentCountry
      ensures this.textOf == textOf && this.extract == extract
      ensures initialData == None
    {
      this.searchUrl := searchUrl;
      this.contentCountry := contentCountry;
      this.textOf := textOf;
      this.extract := extract;
      initialData := None;
    }

    /** getUrl: the search URL followed by the content country parameter. */
    function GetUrl(): (url: string)
      ensures |url| == |searchUrl| + 4 + |contentCountry|
      ensures url[..|searchUrl|] == searchUrl && url[|searchUrl|..] == "&gl=" + contentCountry
    {
      var url := searchUrl + "&gl=" + contentCountry;
      assert url[..|searchUrl|] == searchUrl;
      url
    }

    /** onFetchPage: fetch the first page and keep its response object; a failed fetch changes nothing. */
    method OnFetchPage(fetch: Fetcher) returns (failure: Option<Fault>)
      modifies this`initialData
      ensures fetch(GetUrl() + "&pbj=1").Ok? ==>
        failure == None && initialData == Some(ResponseOf(fetch(GetUrl() + "&pbj=1").value))
      ensures fetch(GetUrl() + "&pbj=1").Err? ==>
        failure == Some(fetch(GetUrl() + "&pbj=1").error) && initialData == old(initialData)
    {
      var url := GetUrl() + "&pbj=1";
      var ajaxJson := fetch(url);
      if ajaxJson.Err? {
        return Some(ajaxJson.error);
      }
      initialData := Some(ResponseOf(ajaxJson.value));
      return None;
    }

    function SearchSuggestion(): (r: Result<string, Fault>)
      reads this
      requires initialData.Some?
      ensures DidYouMean(initialData.value) != map[] ==> r == CorrectedQuery(DidYouMean(initialData.value))
      ensures DidYouMean(initialData.value) == map[] ==>
        r == Ok(textOf(GetObject(ShowingResultsFor(initialData.value), "correctedQuery")))
    {
      SuggestionOf(initialData.value, textOf)
    }

    function IsCorrectedSearch(): (b: bool)
      reads this
      requires initialData.Some?
      ensures b <==> ShowingResultsFor(initialData.value) != map[]
    {
      CorrectedOf(initialData.value)
    }

    function GetNextPageUrl(): (r: string)
      reads this
      requires initialData.Some?
      ensures r == "" <==> |SectionContinuations(FirstSection(initialData.value))| == 0
    {
      NextPageUrl(GetUrl(), initialData.value)
    }

    /** ListExtractor.hasNextPage: whether getNextPageUrl is neither null nor empty. */
    function HasNextPage(): (b: bool)
      reads this
      requires initialData.Some?
      ensures b <==> |SectionContinuations(FirstSection(initialData.value))| > 0
    {
      !IsNullOrEmpty(Some(GetNextPageUrl()))
    }

    /**
     * collectStreamsFrom: walk `videos` in order, committing one outcome per
     * recognised entry, and stop at the first entry that aborts the walk.
     */
    method CollectStreamsFrom(collector: InfoItemsCollector<InfoItem>, videos: JsonArray) returns (stop: Option<Fault>)
      modifies collector
      ensures stop == Collect(videos, textOf).stop
      ensures collector.items == old(collector.items) + ItemsOf(Outcomes(Collect(videos, textOf).requests, extract))
      ensures collector.errors == old(collector.errors) + ErrorsOf(Outcomes(Collect(videos, textOf).requests, extract))
    {
      var i := 0;
      while i < |videos|
        invariant 0 <= i <= |videos|
        invariant Collect(videos[..i], textOf).stop.None?
        invariant collector.items == old(collector.items) + ItemsOf(Outcomes(Collect(videos[..i], textOf).requests, extract))
        invariant collector.errors == old(collector.errors) + ErrorsOf(Outcomes(Collect(videos[..i], textOf).requests, extract))
      {
        if !videos[i].JObject? {
          AbortStep(videos, i, AsObject(videos[i]).error, textOf);
          return Some(AsObject(videos[i]).error);
        }
        var item := videos[i].fields;
        if Has(item, PROMO_RENDERER) {
          var bodyText := textOf(GetObject(GetObject(item, PROMO_RENDERER), "bodyText"));
          AbortStep(videos, i, NothingFoundException(bodyText), textOf);
          return Some(NothingFoundException(bodyText));
        } else if Has(item, VIDEO_RENDERER) {
          var renderer := GetObject(item, VIDEO_RENDERER);
          collector.Commit(extract(Stream, renderer));
          CommitKeeps(videos, i, Request(Stream, renderer), extract, textOf, old(collector.items), old(collector.errors),
                      collector.items, collector.errors);
        } else if Has(item, CHANNEL_RENDERER) {
          var renderer := GetObject(item, CHANNEL_RENDERER);
          collector.Commit(extract(Channel, renderer));
          CommitKeeps(videos, i, Request(Channel, renderer), extract, textOf, old(collector.items), old(collector.errors),
                      collector.items, collector.errors);
        } else if Has(item, PLAYLIST_RENDERER) {
          var renderer := GetObject(item, PLAYLIST_RENDERER);
          collector.Commit(extract(Playlist, renderer));
          CommitKeeps(videos, i, Request(Playlist, renderer), extract, textOf, old(collector.items), old(collector.errors),
                      collector.items, collector.errors);
        } else {
          SkipStep(videos, i, textOf);
        }
        i := i + 1;
      }
      assert videos[..i] == videos;
      return None;
    }

    /** getInitialPage: every section of the first payload feeds one collector; the cursor is getNextPageUrl's. */
    method GetInitialPage() returns (r: Result<Page, Fault>)
      requires initialData.Some?
      ensures r == InitialPageOf(initialData.value, GetUrl(), extract, textOf)
    {
      var collector := new InfoItemsCollector<InfoItem>();
      var sections := PrimarySections(initialData.value);
      ghost var nextPageUrl := NextPageUrl(GetUrl(), initialData.value);
      assert InitialPageOf(initialData.value, GetUrl(), extract, textOf)
        == PageFrom(CollectSections(sections, textOf), nextPageUrl, extract);
      var i := 0;
      while i < |sections|
        invariant 0 <= i <= |sections|
        invariant CollectSections(sections[..i], textOf).stop.None?
        invariant collector.items == ItemsOf(Outcomes(CollectSections(sections[..i], textOf).requests, extract))
        invariant collector.errors == ErrorsOf(Outcomes(CollectSections(sections[..i], textOf).requests, extract))
      {
        var section := AsObject(sections[i]);
        if section.Err? {
          assert Feed(CollectSections(sections[..i], textOf), sections[i], textOf).stop == Some(section.error);
          SectionAbort(sections, i, section.error, textOf);
          return Err(section.error);
        }
        var stop := CollectStreamsFrom(collector, SectionEntries(section.value));
        if stop.Some? {
          assert Feed(CollectSections(sections[..i], textOf), sections[i], textOf).stop == Some(stop.value);
          SectionAbort(sections, i, stop.value, textOf);
          return Err(stop.value);
        }
        SectionStep(sections, i, section.value, extract, textOf);
        i := i + 1;
      }
      assert sections[..i] == sections;
      assert GetNextPageUrl() == nextPageUrl;
      return Ok(FromCollector(collector, Some(GetNextPageUrl())));
    }

    /** getPage: refuse a null or empty URL, else fetch it and walk its continuation region. */
    method GetPage(pageUrl: Option<string>, fetch: Fetcher) returns (r: Result<Page, Fault>)
      ensures r == PageAt(pageUrl, fetch, GetUrl(), extract, textOf)
    {
      if IsNullOrEmpty(pageUrl) {
        return Err(ExtractionException(EMPTY_PAGE_URL));
      }
      var collector := new InfoItemsCollector<InfoItem>();
      var ajaxJson := fetch(pageUrl.value);
      if ajaxJson.Err? {
        return Err(ajaxJson.error);
      }
      var itemSectionRenderer := ContinuationRegion(ajaxJson.value);
      ghost var scan := Collect(GetArray(itemSectionRenderer, "contents"), textOf);
      ghost var expected := PageFrom(scan, NextPageUrlFrom(GetUrl(), GetArray(itemSectionRenderer, "continuations")), extract);
      assert PageAt(pageUrl, fetch, GetUrl(), extract, textOf) == expected;
      var stop := CollectStreamsFrom(collector, GetArray(itemSectionRenderer, "contents"));
      if stop.Some? {
        return Err(stop.value);
      }
      var continuations := GetArray(itemSectionRenderer, "continuations");
      assert collector.items == ItemsOf(Outcomes(scan.requests, extract));
      assert collector.errors == ErrorsOf(Outcomes(scan.requests, extract));
      return Ok(FromCollector(collector, Some(NextPageUrlFrom(GetUrl(), continuations))));
    }
  }
}
