/**
 * The news module: reading the feeds of each section (date filter, recency filter,
 * stripping, de-duplication, stable sort by `published` text, largest first), scoring
 * every item with the language model and sorting by importance, and assembling the
 * summary prompt of a section.
 *
 * The world outside is passed in: `fetch` is the feed parser applied to a URL, `parse`
 * the date parser applied to a field, `now` the wall clock in microseconds, and the
 * language model is a function from a (system, user) message pair to its reply.
 */
module News {
  import opened Wrappers
  import opened Text
  import opened Sorting
  import opened Lists

  // ---------------------------------------------------------------------------
  // Data
  // ---------------------------------------------------------------------------

  /**
   * A parsed date. `wall` is its wall-clock reading in microseconds with any time zone
   * dropped (what `dt.replace(tzinfo=None)` keeps), `utcOffset` the zone's offset in
   * microseconds if the text named one, and `iso` the text `dt.isoformat()` gives.
   */
  datatype Stamp = Stamp(wall: int, utcOffset: Option<int>, iso: string)

  /** One feed entry; every field may be missing. */
  datatype Entry = Entry(
    title: Option<string>,
    link: Option<string>,
    summary: Option<string>,
    published: Option<string>,
    updated: Option<string>)

  /** What the feed parser returns for one URL: the feed's own title and its entries. */
  datatype Feed = Feed(title: Option<string>, entries: seq<Entry>)

  /** The configuration of a section: its feed URLs and its focus prompt. */
  datatype FeedConfig = FeedConfig(urls: seq<string>, prompt: string)

  /** An item kept by `fetch_feeds`. */
  datatype NewsItem = NewsItem(title: string, url: string, summary: string, published: string, source: string)

  /** An item after scoring: the unchanged item plus `importance` and `importance_reason`. */
  datatype ScoredItem = ScoredItem(item: NewsItem, importance: int, reason: string)

  /** A scoring reply: text that is not JSON, or a JSON object with optional fields. */
  datatype Reply = Unparseable | Json(score: Option<int>, reason: Option<string>)

  const MicrosPerHour: int := 3_600_000_000

  // ---------------------------------------------------------------------------
  // parse_date
  // ---------------------------------------------------------------------------

  /** The field is present and the date parser accepts it. */
  predicate Parses(field: Option<string>, parse: string -> Option<Stamp>) {
    field.Some? && parse(field.value).Some?
  }

  /** `parse_date`: the first of `published`, `updated` that is present and parses. */
  function ParseDate(e: Entry, parse: string -> Option<Stamp>): (r: Option<Stamp>)
    ensures Parses(e.published, parse) ==> r == parse(e.published.value)
    ensures !Parses(e.published, parse) && Parses(e.updated, parse) ==> r == parse(e.updated.value)
    ensures r.None? <==> !Parses(e.published, parse) && !Parses(e.updated, parse)
  {
    if Parses(e.published, parse) then parse(e.published.value)
    else if e.updated.Some? then parse(e.updated.value)
    else None
  }

  // ---------------------------------------------------------------------------
  // fetch_feeds, as functions
  // ---------------------------------------------------------------------------

  /** `utcnow() - timedelta(hours=since_hours)`. */
  function Cutoff(now: int, sinceHours: int): int {
    now - sinceHours * MicrosPerHour
  }

  /** The `source` of an item: the feed's title when it is present and non-empty, else the section. */
  function SourceLabel(feed: Feed, section: string): string {
    if feed.title.Some? && feed.title.value != "" then feed.title.value else section
  }

  /** The item an entry contributes, if it has a date whose wall-clock reading is not before the cutoff. */
  function Admit(section: string, feed: Feed, e: Entry, cutoff: int, parse: string -> Option<Stamp>): Option<NewsItem> {
    var dt := ParseDate(e, parse);
    if dt.None? || dt.value.wall < cutoff then None
    else Some(NewsItem(Strip(e.title.GetOr("")), Strip(e.link.GetOr("")), e.summary.GetOr(""),
                       dt.value.iso, SourceLabel(feed, section)))
  }

  /** `Admit` for one feed, as a function of the entry. */
  function AdmitFrom(section: string, feed: Feed, cutoff: int, parse: string -> Option<Stamp>): Entry -> Option<NewsItem> {
    e => Admit(section, feed, e, cutoff, parse)
  }

  /** The items the entries of `feed` contribute, in entry order. */
  function FeedItems(section: string, feed: Feed, cutoff: int, parse: string -> Option<Stamp>): seq<NewsItem> {
    FilterMap(feed.entries, AdmitFrom(section, feed, cutoff, parse))
  }

  /** `FeedItems` of the feed at a URL, as a function of the URL. */
  function ItemsAt(section: string, fetch: string -> Feed, cutoff: int, parse: string -> Option<Stamp>): string -> seq<NewsItem> {
    u => FeedItems(section, fetch(u), cutoff, parse)
  }

  /** The items of all feeds at `urls`, URL by URL, entry by entry. */
  function UrlItems(section: string, urls: seq<string>, fetch: string -> Feed, cutoff: int, parse: string -> Option<Stamp>): seq<NewsItem> {
    FlatMap(urls, ItemsAt(section, fetch, cutoff, parse))
  }

  /** The de-duplication key `(title, url)`. */
  function Key(x: NewsItem): (string, string) {
    (x.title, x.url)
  }

  function Published(x: NewsItem): string {
    x.published
  }

  function KeySet(s: seq<NewsItem>): set<(string, string)> {
    if s == [] then {} else KeySet(s[..|s| - 1]) + {Key(s[|s| - 1])}
  }

  /** The first index in `s` whose item has key `k`. */
  function FirstIndex(s: seq<NewsItem>, k: (string, string)): (i: nat)
    requires k in KeySet(s)
    ensures i < |s| && Key(s[i]) == k
    ensures forall j :: 0 <= j < i ==> Key(s[j]) != k
  {
    var p := s[..|s| - 1];
    if k in KeySet(p) then
      var i := FirstIndex(p, k);
      assert s[i] == p[i];
      i
    else
      KeySetHasAll(p);
      |s| - 1
  }

  /** The de-duplication loop: keep an item unless an earlier item has the same key. */
  function Dedupe(s: seq<NewsItem>): seq<NewsItem> {
    if s == [] then []
    else
      var p, x := s[..|s| - 1], s[|s| - 1];
      if Key(x) in KeySet(p) then Dedupe(p) else Dedupe(p) + [x]
  }

  /**
   * De-duplication loses no key, keeps no two items with the same key, and keeps only
   * items of its input.
   */
  lemma DedupeSpec(s: seq<NewsItem>)
    ensures KeySet(Dedupe(s)) == KeySet(s)
    ensures DistinctBy(Dedupe(s), Key)
    ensures forall y :: y in Dedupe(s) ==> y in s
  {
    DedupeKeys(s);
    DedupeFromInput(s);
  }

  lemma {:induction false} DedupeKeys(s: seq<NewsItem>)
    ensures KeySet(Dedupe(s)) == KeySet(s)
    ensures DistinctBy(Dedupe(s), Key)
  {
    if s != [] {
      var p, x := s[..|s| - 1], s[|s| - 1];
      var d := Dedupe(p);
      DedupeKeys(p);
      if Key(x) !in KeySet(p) {
        KeySetHasAll(d);
        assert (d + [x])[..|d|] == d;
      }
    }
  }

  lemma {:induction false} DedupeFromInput(s: seq<NewsItem>)
    ensures forall y :: y in Dedupe(s) ==> y in s
  {
    if s != [] {
      var p := s[..|s| - 1];
      DedupeFromInput(p);
      assert forall i :: 0 <= i < |p| ==> p[i] in s;
    }
  }

  /** The section's items as `fetch_feeds` leaves them: de-duplicated, stably sorted by `published` text, largest first. */
  function SectionItems(section: string, urls: seq<string>, fetch: string -> Feed, cutoff: int, parse: string -> Option<Stamp>): seq<NewsItem> {
    SortDesc(Dedupe(UrlItems(section, urls, fetch, cutoff, parse)), Published, LexLe)
  }

  lemma {:induction false} KeySetHasAll(s: seq<NewsItem>)
    ensures forall i :: 0 <= i < |s| ==> Key(s[i]) in KeySet(s)
    ensures forall k :: k in KeySet(s) ==> exists i :: 0 <= i < |s| && Key(s[i]) == k
  {
    if s != [] {
      var p := s[..|s| - 1];
      KeySetHasAll(p);
      forall k | k in KeySet(s) ensures exists i :: 0 <= i < |s| && Key(s[i]) == k {
        if k in KeySet(p) {
          var i :| 0 <= i < |p| && Key(p[i]) == k;
          assert s[i] == p[i];
        } else {
          assert Key(s[|s| - 1]) == k;
        }
      }
      forall i | 0 <= i < |s| ensures Key(s[i]) in KeySet(s) {
        if i < |p| {
          assert s[i] == p[i];
        }
      }
    }
  }

  /** The items that reach the section's list. */
  ghost predicate FromEntry(x: NewsItem, section: string, urls: seq<string>, fetch: string -> Feed, cutoff: int, parse: string -> Option<Stamp>) {
    exists u, k :: 0 <= u < |urls| && 0 <= k < |fetch(urls[u]).entries| &&
      Admit(section, fetch(urls[u]), fetch(urls[u]).entries[k], cutoff, parse) == Some(x)
  }

  /** An item is collected for a section exactly when some entry of some feed admits it. */
  lemma UrlItemsMember(section: string, urls: seq<string>, fetch: string -> Feed, cutoff: int, parse: string -> Option<Stamp>, x: NewsItem)
    ensures x in UrlItems(section, urls, fetch, cutoff, parse) <==> FromEntry(x, section, urls, fetch, cutoff, parse)
  {
    var g := ItemsAt(section, fetch, cutoff, parse);
    FlatMapMember(urls, g, x);
    if x in UrlItems(section, urls, fetch, cutoff, parse) {
      var u :| 0 <= u < |urls| && x in g(urls[u]);
      var feed := fetch(urls[u]);
      FilterMapMember(feed.entries, AdmitFrom(section, feed, cutoff, parse), x);
      var k :| 0 <= k < |feed.entries| && AdmitFrom(section, feed, cutoff, parse)(feed.entries[k]) == Some(x);
      assert Admit(section, fetch(urls[u]), fetch(urls[u]).entries[k], cutoff, parse) == Some(x);
    }
    if FromEntry(x, section, urls, fetch, cutoff, parse) {
      var u, k :| 0 <= u < |urls| && 0 <= k < |fetch(urls[u]).entries| &&
        Admit(section, fetch(urls[u]), fetch(urls[u]).entries[k], cutoff, parse) == Some(x);
      var feed := fetch(urls[u]);
      FilterMapMember(feed.entries, AdmitFrom(section, feed, cutoff, parse), x);
      assert x in g(urls[u]);
    }
  }

  // ---------------------------------------------------------------------------
  // Properties of fetch_feeds
  // ---------------------------------------------------------------------------

  /**
   * What an entry of `feed` contributes when it is admitted: it has a date whose
   * wall-clock reading, time zone dropped, is not before the cutoff; the item carries the
   * stripped title and link, the summary, the date's ISO text and the source label.
   */
  ghost predicate Yields(x: NewsItem, section: string, feed: Feed, e: Entry, cutoff: int, parse: string -> Option<Stamp>) {
    && ParseDate(e, parse).Some?
    && ParseDate(e, parse).value.wall >= cutoff
    && x == NewsItem(Strip(e.title.GetOr("")), Strip(e.link.GetOr("")), e.summary.GetOr(""),
                     ParseDate(e, parse).value.iso, SourceLabel(feed, section))
  }

  /** Sorting and de-duplication only drop items. */
  lemma SectionItemsFromInput(section: string, urls: seq<string>, fetch: string -> Feed, cutoff: int, parse: string -> Option<Stamp>, x: NewsItem)
    requires x in SectionItems(section, urls, fetch, cutoff, parse)
    ensures x in UrlItems(section, urls, fetch, cutoff, parse)
  {
    var items := UrlItems(section, urls, fetch, cutoff, parse);
    SortDescPermutation(Dedupe(items), Published, LexLe);
    assert x in multiset(SectionItems(section, urls, fetch, cutoff, parse));
    DedupeFromInput(items);
  }

  /** Every item kept comes from a recent, dated entry of one of the section's feeds. */
  lemma SectionItemsAreRecent(section: string, urls: seq<string>, fetch: string -> Feed, cutoff: int, parse: string -> Option<Stamp>, x: NewsItem)
    requires x in SectionItems(section, urls, fetch, cutoff, parse)
    ensures exists u, k :: (0 <= u < |urls| && 0 <= k < |fetch(urls[u]).entries| &&
      Yields(x, section, fetch(urls[u]), fetch(urls[u]).entries[k], cutoff, parse))
  {
    SectionItemsFromInput(section, urls, fetch, cutoff, parse, x);
    UrlItemsMember(section, urls, fetch, cutoff, parse, x);
    var u, k :| 0 <= u < |urls| && 0 <= k < |fetch(urls[u]).entries| &&
      Admit(section, fetch(urls[u]), fetch(urls[u]).entries[k], cutoff, parse) == Some(x);
    assert Yields(x, section, fetch(urls[u]), fetch(urls[u]).entries[k], cutoff, parse);
  }

  /** Conversely, every recent entry of every feed is represented: its key is in the section. */
  lemma SectionItemsComplete(section: string, urls: seq<string>, fetch: string -> Feed, cutoff: int, parse: string -> Option<Stamp>, u: nat, k: nat)
    requires u < |urls| && k < |fetch(urls[u]).entries|
    requires Admit(section, fetch(urls[u]), fetch(urls[u]).entries[k], cutoff, parse).Some?
    ensures Key(Admit(section, fetch(urls[u]), fetch(urls[u]).entries[k], cutoff, parse).value) in
            KeySet(SectionItems(section, urls, fetch, cutoff, parse))
  {
    var x := Admit(section, fetch(urls[u]), fetch(urls[u]).entries[k], cutoff, parse).value;
    var items := UrlItems(section, urls, fetch, cutoff, parse);
    var d := Dedupe(items);
    DedupeSpec(items);
    UrlItemsMember(section, urls, fetch, cutoff, parse, x);
    assert FromEntry(x, section, urls, fetch, cutoff, parse);
    KeyIn(items, x);
    KeyWitness(d, Key(x));
    var y :| y in d && Key(y) == Key(x);
    SortDescPermutation(d, Published, LexLe);
    assert y in multiset(SectionItems(section, urls, fetch, cutoff, parse));
    KeyIn(SectionItems(section, urls, fetch, cutoff, parse), y);
  }

  lemma KeyIn(s: seq<NewsItem>, y: NewsItem)
    requires y in s
    ensures Key(y) in KeySet(s)
  {
    KeySetHasAll(s);
    var i :| 0 <= i < |s| && s[i] == y;
  }

  lemma KeyWitness(s: seq<NewsItem>, k: (string, string))
    requires k in KeySet(s)
    ensures exists y :: y in s && Key(y) == k
  {
    KeySetHasAll(s);
    var i :| 0 <= i < |s| && Key(s[i]) == k;
    assert s[i] in s;
  }

  /** No two items of a section share their `(title, url)` pair. */
  lemma SectionItemsDistinct(section: string, urls: seq<string>, fetch: string -> Feed, cutoff: int, parse: string -> Option<Stamp>)
    ensures DistinctBy(SectionItems(section, urls, fetch, cutoff, parse), Key)
  {
    DedupeSpec(UrlItems(section, urls, fetch, cutoff, parse));
    SortDescDistinct(Dedupe(UrlItems(section, urls, fetch, cutoff, parse)), Published, LexLe, Key);
  }

  lemma LexLeIsTotalPreorder()
    ensures TotalPreorder(LexLe)
  {
    forall a, b ensures LexLe(a, b) || LexLe(b, a) {
      LexLeTotal(a, b);
    }
    forall a, b, c | LexLe(a, b) && LexLe(b, c) ensures LexLe(a, c) {
      LexLeTransitive(a, b, c);
    }
  }

  /**
   * A section is ordered by its `published` text, largest first, and items with the
   * same text keep the order de-duplication left them in.
   */
  lemma SectionItemsSorted(section: string, urls: seq<string>, fetch: string -> Feed, cutoff: int, parse: string -> Option<Stamp>, p: string)
    ensures SortedDesc(SectionItems(section, urls, fetch, cutoff, parse), Published, LexLe)
    ensures WithKey(SectionItems(section, urls, fetch, cutoff, parse), Published, p) ==
            WithKey(Dedupe(UrlItems(section, urls, fetch, cutoff, parse)), Published, p)
  {
    LexLeIsTotalPreorder();
    var d := Dedupe(UrlItems(section, urls, fetch, cutoff, parse));
    SortDescSorted(d, Published, LexLe);
    SortDescStable(d, Published, LexLe, p);
  }

  /** De-duplication keeps, for each key, the first item with that key. */
  lemma {:induction false} DedupeKeepsFirst(s: seq<NewsItem>)
    ensures forall j :: 0 <= j < |Dedupe(s)| ==> (Key(Dedupe(s)[j]) in KeySet(s) &&
      Dedupe(s)[j] == s[FirstIndex(s, Key(Dedupe(s)[j]))])
  {
    if s != [] {
      var p, x := s[..|s| - 1], s[|s| - 1];
      var d := Dedupe(p);
      DedupeKeepsFirst(p);
      KeySetHasAll(d);
      forall j | 0 <= j < |d| ensures FirstIndex(s, Key(d[j])) == FirstIndex(p, Key(d[j])) {
        FirstIndexPrefix(s, Key(d[j]));
      }
      if Key(x) !in KeySet(p) {
        KeySetHasAll(s);
        var n := FirstIndex(s, Key(x));
        assert n == |s| - 1 by {
          KeySetHasAll(p);
        }
      }
    }
  }

  /** The first occurrences kept by de-duplication stay in their original order. */
  lemma {:induction false} DedupeKeepsOrder(s: seq<NewsItem>)
    ensures forall j :: 0 <= j < |Dedupe(s)| ==> Key(Dedupe(s)[j]) in KeySet(s)
    ensures forall j, j' :: 0 <= j < j' < |Dedupe(s)| ==>
      FirstIndex(s, Key(Dedupe(s)[j])) < FirstIndex(s, Key(Dedupe(s)[j']))
  {
    DedupeSpec(s);
    KeySetHasAll(Dedupe(s));
    if s != [] {
      var p, x := s[..|s| - 1], s[|s| - 1];
      var d := Dedupe(p);
      DedupeKeepsOrder(p);
      forall j | 0 <= j < |d| ensures FirstIndex(s, Key(d[j])) == FirstIndex(p, Key(d[j])) {
        FirstIndexPrefix(s, Key(d[j]));
      }
    }
  }

  lemma {:induction false} FirstIndexPrefix(s: seq<NewsItem>, k: (string, string))
    requires s != [] && k in KeySet(s[..|s| - 1])
    ensures k in KeySet(s) && FirstIndex(s, k) == FirstIndex(s[..|s| - 1], k)
  {
  }

  /** The item kept for a key is the first one read, in URL order then entry order. */
  lemma SectionKeepsFirst(section: string, urls: seq<string>, fetch: string -> Feed, cutoff: int, parse: string -> Option<Stamp>, x: NewsItem)
    requires x in SectionItems(section, urls, fetch, cutoff, parse)
    ensures Key(x) in KeySet(UrlItems(section, urls, fetch, cutoff, parse))
    ensures var items := UrlItems(section, urls, fetch, cutoff, parse); x == items[FirstIndex(items, Key(x))]
  {
    var items := UrlItems(section, urls, fetch, cutoff, parse);
    var d := Dedupe(items);
    SortDescPermutation(Dedupe(UrlItems(section, urls, fetch, cutoff, parse)), Published, LexLe);
    assert x in multiset(SectionItems(section, urls, fetch, cutoff, parse));
    var j :| 0 <= j < |d| && d[j] == x;
    DedupeKeepsFirst(items);
  }

  /** Titles and URLs of kept items carry no surrounding whitespace. */
  lemma SectionItemsStripped(section: string, urls: seq<string>, fetch: string -> Feed, cutoff: int, parse: string -> Option<Stamp>, x: NewsItem)
    requires x in SectionItems(section, urls, fetch, cutoff, parse)
    ensures Strip(x.title) == x.title && Strip(x.url) == x.url
  {
    SectionItemsAreRecent(section, urls, fetch, cutoff, parse, x);
    var u, k :| 0 <= u < |urls| && 0 <= k < |fetch(urls[u]).entries| &&
      Yields(x, section, fetch(urls[u]), fetch(urls[u]).entries[k], cutoff, parse);
    var e := fetch(urls[u]).entries[k];
    StripIdempotent(e.title.GetOr(""));
    StripIdempotent(e.link.GetOr(""));
  }

  /**
   * The recency test compares the wall-clock reading against a UTC cutoff without
   * converting: whether a dated entry is kept depends on its wall-clock reading and the
   * cutoff alone, whatever UTC offset the date names. So an entry stamped at the cutoff's
   * wall-clock time in a zone ahead of UTC is kept, although its instant is earlier.
   */
  lemma WallClockNotInstant(section: string, feed: Feed, e: Entry, cutoff: int, parse: string -> Option<Stamp>)
    requires ParseDate(e, parse).Some?
    ensures Admit(section, feed, e, cutoff, parse).Some? <==> ParseDate(e, parse).value.wall >= cutoff
  {
  }

  // ---------------------------------------------------------------------------
  // fetch_feeds, as the loops that compute it
  // ---------------------------------------------------------------------------

  /** The entry loop of one feed: the items its recent, dated entries give, in entry order. */
  method CollectFeed(section: string, parsed: Feed, cutoff: int, parse: string -> Option<Stamp>)
    returns (found: seq<NewsItem>)
    ensures found == FeedItems(section, parsed, cutoff, parse)
  {
    var admit := AdmitFrom(section, parsed, cutoff, parse);
    found := [];
    for k := 0 to |parsed.entries|
      invariant found == FilterMap(parsed.entries[..k], admit)
    {
      var item := Admit(section, parsed, parsed.entries[k], cutoff, parse);
      assert parsed.entries[..k + 1][..k] == parsed.entries[..k];
      assert admit(parsed.entries[k]) == item;
      found := found + item.ToSeq();
    }
    assert parsed.entries[..|parsed.entries|] == parsed.entries;
  }

  /** The URL loop of one section: every feed's items, URL by URL. */
  method CollectSection(section: string, urls: seq<string>, fetch: string -> Feed, cutoff: int, parse: string -> Option<Stamp>)
    returns (items: seq<NewsItem>)
    ensures items == UrlItems(section, urls, fetch, cutoff, parse)
  {
    items := [];
    for u := 0 to |urls|
      invariant items == UrlItems(section, urls[..u], fetch, cutoff, parse)
    {
      var found := CollectFeed(section, fetch(urls[u]), cutoff, parse);
      assert urls[..u + 1][..u] == urls[..u];
      assert ItemsAt(section, fetch, cutoff, parse)(urls[u]) == found;
      items := items + found;
    }
    assert urls[..|urls|] == urls;
  }

  /** The de-duplication loop, with the set of keys seen so far. */
  method DedupeByKey(items: seq<NewsItem>) returns (deduped: seq<NewsItem>)
    ensures deduped == Dedupe(items)
  {
    var seen: set<(string, string)> := {};
    deduped := [];
    for m := 0 to |items|
      invariant seen == KeySet(items[..m]) && deduped == Dedupe(items[..m])
    {
      var key := (items[m].title, items[m].url);
      assert items[..m + 1][..m] == items[..m];
      if key !in seen {
        seen := seen + {key};
        deduped := deduped + [items[m]];
      }
    }
    assert items[..|items|] == items;
  }

  /** A section paired with its items. */
  function SectionOf(fetch: string -> Feed, cutoff: int, parse: string -> Option<Stamp>): ((string, FeedConfig)) -> (string, seq<NewsItem>) {
    (src: (string, FeedConfig)) => (src.0, SectionItems(src.0, src.1.urls, fetch, cutoff, parse))
  }

  /** Every section paired with its items, in section order. */
  function Fetched(sources: seq<(string, FeedConfig)>, fetch: string -> Feed, cutoff: int, parse: string -> Option<Stamp>)
    : seq<(string, seq<NewsItem>)>
  {
    Map(sources, SectionOf(fetch, cutoff, parse))
  }

  /** Section `i` of the result is the `i`-th configured section with its items. */
  lemma FetchedAt(sources: seq<(string, FeedConfig)>, fetch: string -> Feed, cutoff: int, parse: string -> Option<Stamp>, i: nat)
    requires i < |sources|
    ensures |Fetched(sources, fetch, cutoff, parse)| == |sources|
    ensures Fetched(sources, fetch, cutoff, parse)[i] == (sources[i].0, SectionItems(sources[i].0, sources[i].1.urls, fetch, cutoff, parse))
  {
    MapAt(sources, SectionOf(fetch, cutoff, parse), i);
  }

  /**
   * `fetch_feeds`: for every section, in order, the section's items collected from its
   * feeds, filtered, stripped, de-duplicated and sorted.
   */
  method FetchFeeds(sources: seq<(string, FeedConfig)>, sinceHours: int, now: int,
                    fetch: string -> Feed, parse: string -> Option<Stamp>)
    returns (result: seq<(string, seq<NewsItem>)>)
    ensures result == Fetched(sources, fetch, Cutoff(now, sinceHours), parse)
  {
    var cutoff := now - sinceHours * MicrosPerHour;
    assert cutoff == Cutoff(now, sinceHours);
    result := [];
    for i := 0 to |sources|
      invariant result == Fetched(sources[..i], fetch, cutoff, parse)
    {
      var section := sources[i].0;
      var items := FetchSection(section, sources[i].1.urls, fetch, cutoff, parse);
      assert sources[..i + 1][..i] == sources[..i];
      result := result + [(section, items)];
    }
    assert sources[..|sources|] == sources;
  }

  /** The body of the section loop: collect, de-duplicate, then sort by `published` text, largest first. */
  method FetchSection(section: string, urls: seq<string>, fetch: string -> Feed, cutoff: int, parse: string -> Option<Stamp>)
    returns (items: seq<NewsItem>)
    ensures items == SectionItems(section, urls, fetch, cutoff, parse)
  {
    var collected := CollectSection(section, urls, fetch, cutoff, parse);
    items := DedupeByKey(collected);
    items := SortDesc(items, Published, LexLe);
  }

  // ---------------------------------------------------------------------------
  // chat_json and score_items
  // ---------------------------------------------------------------------------

  const SystemScore: string :=
    "You are a news prioritization model. Score the IMPORTANCE of a news item from 0 to 100 " +
    "for a busy founder in Montreal. Consider recency (last 24h), broad impact, " +
    "business/tech relevance (esp. AI), Canada/Montreal relevance, and credibility. " +
    "Return ONLY a JSON object: {\"score\": <0-100>, \"reason\": \"...\"}."

  /** A system prompt with the section's focus appended when there is one. */
  function WithFocus(system: string, prompt: string): (r: string)
    ensures prompt == [] ==> r == system
    ensures prompt != [] ==> r == system + " Focus on: " + prompt
  {
    system + (if prompt != "" then " Focus on: " + prompt else "")
  }

  /** The user message that asks for one item's score. */
  function ScoreRequest(it: NewsItem): string {
    "Title: " + it.title + "\nURL: " + it.url + "\nPublished: " + it.published + "\nSummary: " + it.summary
  }

  /** `chat_json`: the decoded reply, or `{"score": 0, "reason": "Parse error"}` when it is not JSON. */
  function ChatJson(reply: Reply): (js: Reply)
    ensures js.Json?
    ensures reply.Json? ==> js == reply
    ensures reply.Unparseable? ==> js.score == Some(0) && js.reason == Some("Parse error")
  {
    if reply.Unparseable? then Json(Some(0), Some("Parse error")) else reply
  }

  /** The item with `importance` and `importance_reason` read from the model's reply. */
  function Annotate(it: NewsItem, reply: Reply): (s: ScoredItem)
    ensures s.item == it
    ensures reply.Unparseable? ==> s.importance == 0 && s.reason == "Parse error"
    ensures reply.Json? ==> s.importance == reply.score.GetOr(0) && s.reason == reply.reason.GetOr("")
  {
    var js := ChatJson(reply);
    ScoredItem(it, js.score.GetOr(0), js.reason.GetOr(""))
  }

  /** Every item annotated with the reply to its own request, in input order. */
  function Annotated(items: seq<NewsItem>, system: string, llm: (string, string) -> Reply): (r: seq<ScoredItem>)
    ensures |r| == |items|
    ensures forall i :: 0 <= i < |items| ==> r[i] == Annotate(items[i], llm(system, ScoreRequest(items[i])))
  {
    if items == [] then []
    else Annotated(items[..|items| - 1], system, llm) + [Annotate(items[|items| - 1], llm(system, ScoreRequest(items[|items| - 1])))]
  }

  function Importance(s: ScoredItem): int {
    s.importance
  }

  function ItemOf(s: ScoredItem): NewsItem {
    s.item
  }

  predicate IntLe(a: int, b: int) {
    a <= b
  }

  /** What `score_items` returns: the annotated items, highest importance first. */
  function ScoreOrder(items: seq<NewsItem>, prompt: string, llm: (string, string) -> Reply): seq<ScoredItem> {
    SortDesc(Annotated(items, WithFocus(SystemScore, prompt), llm), Importance, IntLe)
  }

  /**
   * `score_items`: one request per item, with the focus-extended scoring prompt; each item
   * gets the importance and reason of its reply; the list is sorted by importance.
   */
  method ScoreItems(items: seq<NewsItem>, prompt: string, llm: (string, string) -> Reply)
    returns (scored: seq<ScoredItem>, requests: seq<(string, string)>)
    ensures |requests| == |items|
    ensures forall i :: 0 <= i < |items| ==> requests[i] == (WithFocus(SystemScore, prompt), ScoreRequest(items[i]))
    ensures scored == ScoreOrder(items, prompt, llm)
  {
    var system := SystemScore + (if prompt != "" then " Focus on: " + prompt else "");
    scored, requests := [], [];
    for i := 0 to |items|
      invariant scored == Annotated(items[..i], system, llm)
      invariant |requests| == i
      invariant forall j :: 0 <= j < i ==> requests[j] == (system, ScoreRequest(items[j]))
    {
      var it := items[i];
      var user := "Title: " + it.title + "\nURL: " + it.url + "\nPublished: " + it.published + "\nSummary: " + it.summary;
      var js := ChatJson(llm(system, user));
      assert items[..i + 1][..i] == items[..i];
      scored := scored + [ScoredItem(it, js.score.GetOr(0), js.reason.GetOr(""))];
      requests := requests + [(system, user)];
    }
    assert items[..|items|] == items;
    scored := SortDesc(scored, Importance, IntLe);
  }

  lemma IntLeIsTotalPreorder()
    ensures TotalPreorder(IntLe)
  {
  }

  /** Scoring neither loses nor invents items: the scored list is a rearrangement of the input. */
  lemma ScoreOrderPermutation(items: seq<NewsItem>, prompt: string, llm: (string, string) -> Reply)
    ensures |ScoreOrder(items, prompt, llm)| == |items|
    ensures multiset(MapSeq(ItemOf, ScoreOrder(items, prompt, llm))) == multiset(items)
  {
    var a := Annotated(items, WithFocus(SystemScore, prompt), llm);
    var r := ScoreOrder(items, prompt, llm);
    SortDescPermutation(a, Importance, IntLe);
    MapSeqPermutation(ItemOf, r, a);
    assert MapSeq(ItemOf, a) == items;
  }

  /**
   * The scored list is ordered by importance, highest first, and items of equal importance
   * keep their input order.
   */
  lemma ScoreOrderSorted(items: seq<NewsItem>, prompt: string, llm: (string, string) -> Reply, v: int)
    ensures SortedDesc(ScoreOrder(items, prompt, llm), Importance, IntLe)
    ensures WithKey(ScoreOrder(items, prompt, llm), Importance, v) ==
            WithKey(Annotated(items, WithFocus(SystemScore, prompt), llm), Importance, v)
  {
    var a := Annotated(items, WithFocus(SystemScore, prompt), llm);
    IntLeIsTotalPreorder();
    SortDescSorted(a, Importance, IntLe);
    SortDescStable(a, Importance, IntLe, v);
  }

  /** Each scored item carries the importance and reason of the reply to its own request. */
  lemma ScoreOrderAnnotations(items: seq<NewsItem>, prompt: string, llm: (string, string) -> Reply, s: ScoredItem)
    requires s in ScoreOrder(items, prompt, llm)
    ensures s.item in items
    ensures s == Annotate(s.item, llm(WithFocus(SystemScore, prompt), ScoreRequest(s.item)))
  {
    var a := Annotated(items, WithFocus(SystemScore, prompt), llm);
    SortDescPermutation(a, Importance, IntLe);
    assert s in multiset(a);
    var i :| 0 <= i < |a| && a[i] == s;
  }

  // ---------------------------------------------------------------------------
  // summarize_items
  // ---------------------------------------------------------------------------

  const SystemSummary: string :=
    "You summarize news items for a busy founder in Montreal. " +
    "Write crisp, factual bullets (2\U{E2}\U{20AC}\U{201C}3) for each article. " +
    "Add (Date: YYYY-MM-DD). End each item with 'Why it matters' (one line)."

  const SummaryInstruction: string := "Summarize the following articles as bullet points for a quick brief:\n"

  const NoFreshItems: string := "_No fresh items found._"

  /** The Markdown heading of a section. */
  function SectionHeading(name: string): string {
    "## " + Title(name)
  }

  /** The first line an item gets in the summary request: its bold title and its date. */
  function Headline(it: NewsItem): string {
    "- **" + it.title + "** (Date: " + Prefix(it.published, 10) + ")"
  }

  /** The two lines an item gets in the summary request. */
  function SummaryLine(s: ScoredItem): string {
    Headline(s.item) + "\n  " + s.item.url
  }

  /** The lines of the summary request's item list, two per item. */
  function SummaryRows(xs: seq<ScoredItem>): seq<string> {
    if xs == [] then [] else [Headline(xs[0].item), "  " + xs[0].item.url] + SummaryRows(xs[1..])
  }

  /** The number of items a summary request lists: `items[:max_items]`. */
  function Shown(n: nat, maxItems: nat): (k: nat)
    ensures k <= n && k <= maxItems && (k == n || k == maxItems)
  {
    if n <= maxItems then n else maxItems
  }

  /** The user message of a summary request. */
  function SummaryRequest(items: seq<ScoredItem>, maxItems: nat): string {
    SummaryInstruction + Join("\n", MapSeq(SummaryLine, items[..Shown(|items|, maxItems)]))
  }

  /** The Markdown `summarize_items` returns, given the model's completion function. */
  function SummaryMarkdown(sectionName: string, items: seq<ScoredItem>, maxItems: nat, prompt: string,
                           complete: (string, string) -> string): string {
    if items == [] then SectionHeading(sectionName) + "\n" + NoFreshItems
    else SectionHeading(sectionName) + "\n" + Strip(complete(WithFocus(SystemSummary, prompt), SummaryRequest(items, maxItems)))
  }

  /**
   * `summarize_items`: with no items, the section heading and the "no fresh items" note and
   * no request; otherwise one request listing the first `max_items` items, and the section
   * heading followed by the stripped reply.
   */
  method SummarizeItems(sectionName: string, items: seq<ScoredItem>, maxItems: nat, prompt: string,
                        complete: (string, string) -> string)
    returns (md: string, request: Option<(string, string)>)
    ensures items == [] ==> request == None && md == SectionHeading(sectionName) + "\n" + NoFreshItems
    ensures items != [] ==> request == Some((WithFocus(SystemSummary, prompt), SummaryRequest(items, maxItems)))
    ensures items != [] ==> md == SectionHeading(sectionName) + "\n" + Strip(complete(request.value.0, request.value.1))
    ensures md == SummaryMarkdown(sectionName, items, maxItems, prompt, complete)
  {
    var system := SystemSummary + (if prompt != "" then " Focus on: " + prompt else "");
    if items == [] {
      return SectionHeading(sectionName) + "\n" + NoFreshItems, None;
    }
    var n := if |items| <= maxItems then |items| else maxItems;
    var lines: seq<string> := [];
    for i := 0 to n
      invariant |lines| == i
      invariant forall j :: 0 <= j < i ==> lines[j] == SummaryLine(items[j])
    {
      lines := lines + [SummaryLine(items[i])];
    }
    assert lines == MapSeq(SummaryLine, items[..n]);
    var user := SummaryInstruction + Join("\n", lines);
    var reply := complete(system, user);
    md := SectionHeading(sectionName) + "\n" + Strip(reply);
    request := Some((system, user));
  }

  /** Joining `a + sep + b` in front of a list equals joining `a` and `b` as two entries. */
  lemma JoinSplitEntry(sep: string, a: string, b: string, m: seq<string>, rows: seq<string>)
    requires Join(sep, m) == Join(sep, rows) && (m == [] <==> rows == [])
    ensures Join(sep, [a + sep + b] + m) == Join(sep, [a] + ([b] + rows))
  {
    JoinCons(sep, a + sep + b, m);
    JoinCons(sep, b, rows);
    JoinCons(sep, a, [b] + rows);
  }

  /** Joining the two-line entries equals joining their lines. */
  lemma {:induction false} JoinSummaryLines(xs: seq<ScoredItem>)
    ensures Join("\n", MapSeq(SummaryLine, xs)) == Join("\n", SummaryRows(xs))
  {
    if xs != [] {
      var h, u := Headline(xs[0].item), "  " + xs[0].item.url;
      var m, rows := MapSeq(SummaryLine, xs[1..]), SummaryRows(xs[1..]);
      assert SummaryLine(xs[0]) == h + "\n" + u;
      assert MapSeq(SummaryLine, xs) == [h + "\n" + u] + m;
      assert SummaryRows(xs) == [h] + ([u] + rows);
      JoinSummaryLines(xs[1..]);
      JoinSplitEntry("\n", h, u, m, rows);
    }
  }

  predicate OneLine(it: NewsItem) {
    NoLineBreak(it.title) && NoLineBreak(it.published) && NoLineBreak(it.url)
  }

  lemma NoLineBreakConcat(a: string, b: string)
    requires NoLineBreak(a) && NoLineBreak(b)
    ensures NoLineBreak(a + b)
  {
  }

  lemma {:induction false} SummaryRowsOneLine(xs: seq<ScoredItem>)
    requires forall i :: 0 <= i < |xs| ==> OneLine(xs[i].item)
    ensures forall k :: 0 <= k < |SummaryRows(xs)| ==> NoLineBreak(SummaryRows(xs)[k])
    ensures xs != [] ==> |SummaryRows(xs)| >= 2 && SummaryRows(xs)[|SummaryRows(xs)| - 1] != []
  {
    if xs != [] {
      var it := xs[0].item;
      SummaryRowsOneLine(xs[1..]);
      var d := Prefix(it.published, 10);
      assert d == it.published[..|d|];
      NoLineBreakConcat("- **", it.title);
      NoLineBreakConcat("- **" + it.title, "** (Date: ");
      NoLineBreakConcat("- **" + it.title + "** (Date: ", d);
      NoLineBreakConcat("- **" + it.title + "** (Date: " + d, ")");
      NoLineBreakConcat("  ", it.url);
    }
  }

  /**
   * When titles, dates and URLs hold no line break, the item list of a summary request
   * reads back, line by line, as the headline and the indented URL of each of the first
   * `max_items` items, in order.
   */
  lemma SummaryRequestLines(items: seq<ScoredItem>, maxItems: nat)
    requires forall i :: 0 <= i < |items| ==> OneLine(items[i].item)
    ensures var shown := items[..Shown(|items|, maxItems)];
      SummaryRequest(items, maxItems) == SummaryInstruction + Join("\n", SummaryRows(shown)) &&
      SplitLines(Join("\n", SummaryRows(shown))) == SummaryRows(shown)
  {
    var shown := items[..Shown(|items|, maxItems)];
    JoinSummaryLines(shown);
    SummaryRowsOneLine(shown);
    SplitLinesJoin(SummaryRows(shown));
  }
}
