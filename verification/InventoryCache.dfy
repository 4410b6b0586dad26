/**
 * The cache of a store's active listings (ebay-inventory-management-service.ts): one site's sync reads pages of
 * listings, upserts a row per listing, and at the end removes the site's rows that it did not see.
 */
module InventoryCache {
  import opened Wrappers

  // ----- source keys

  predicate StartsWith(s: string, prefix: string) {
    |prefix| <= |s| && s[..|prefix|] == prefix
  }

  function Without(s: string, prefix: string): string {
    if StartsWith(s, prefix) then s[|prefix|..] else s
  }

  const TRADING := "TRADING:"

  /** The key under which a listing is cached: marketplace and source, each prefix exactly once. */
  function SourceKey(marketplace: string, raw: string): string {
    TRADING + (marketplace + ":" + Without(Without(raw, TRADING), marketplace + ":"))
  }

  lemma PrefixComesOff(prefix: string, s: string)
    ensures StartsWith(prefix + s, prefix) && Without(prefix + s, prefix) == s
  {
  }

  /** Keying a row again by the key it has changes nothing. */
  lemma SourceKeyIsCanonical(marketplace: string, raw: string)
    ensures SourceKey(marketplace, SourceKey(marketplace, raw)) == SourceKey(marketplace, raw)
  {
    var source := Without(Without(raw, TRADING), marketplace + ":");
    PrefixComesOff(TRADING, marketplace + ":" + source);
    PrefixComesOff(marketplace + ":", source);
  }

  /** No key belongs to two marketplaces whose names have no colon. */
  lemma SourceKeysAreApart(m: string, n: string, raw: string, other: string)
    requires ':' !in m && ':' !in n && SourceKey(m, raw) == SourceKey(n, other)
    ensures m == n
  {
    var a, b := m + ":" + Without(Without(raw, TRADING), m + ":"), n + ":" + Without(Without(other, TRADING), n + ":");
    assert a == SourceKey(m, raw)[|TRADING|..] && b == SourceKey(n, other)[|TRADING|..];
    ColonAt(m, n, a, b);
    ColonAt(n, m, b, a);
    assert m == a[..|m|] && n == b[..|n|];
  }

  lemma ColonAt(m: string, n: string, a: string, b: string)
    requires a == b && ':' !in n && |m| < |a| && |n| < |b| && a[|m|] == ':' && b[..|n|] == n
    ensures |n| <= |m|
  {
    PrefixUnits(n, b);
  }

  lemma PrefixUnits(n: string, b: string)
    requires |n| <= |b| && b[..|n|] == n
    ensures forall i :: 0 <= i < |n| ==> b[i] in n
  {
    assert forall i :: 0 <= i < |n| ==> b[..|n|][i] == b[i];
  }

  // ----- rows

  datatype Listing = Listing(source: Option<string>, listingId: string, sku: Option<string>, quantity: Option<int>, sold: int, content: string)

  datatype Row = Row(marketplace: string, sku: string, quantity: Option<int>, content: string, syncedAt: int)

  datatype Key = Key(connection: nat, sourceKey: string)

  datatype Site = Site(connection: nat, marketplace: string, startedAt: int)

  function KeyOf(site: Site, l: Listing): Key {
    var raw := if l.source.Some? && l.source.value != "" then l.source.value else TRADING + l.listingId;
    Key(site.connection, SourceKey(site.marketplace, raw))
  }

  function Available(l: Listing): Option<int> {
    if l.quantity.None? then None else Some(if l.quantity.value - l.sold < 0 then 0 else l.quantity.value - l.sold)
  }

  /** An existing row keeps its marketplace and its SKU. */
  function Upsert(rows: map<Key, Row>, site: Site, l: Listing): map<Key, Row> {
    var k := KeyOf(site, l);
    if k in rows then rows[k := rows[k].(quantity := Available(l), content := l.content, syncedAt := site.startedAt)]
    else rows[k := Row(site.marketplace, if l.sku.Some? then l.sku.value else l.listingId, Available(l), l.content, site.startedAt)]
  }

  function UpsertAll(rows: map<Key, Row>, site: Site, listings: seq<Listing>): map<Key, Row> {
    if listings == [] then rows else Upsert(UpsertAll(rows, site, listings[..|listings| - 1]), site, listings[|listings| - 1])
  }

  /** Does the final delete remove the row? */
  predicate Stale(site: Site, k: Key, row: Row) {
    && k.connection == site.connection && row.marketplace == site.marketplace
    && (row.syncedAt < site.startedAt || !StartsWith(k.sourceKey, TRADING))
  }

  function Swept(rows: map<Key, Row>, site: Site): map<Key, Row> {
    map k | k in rows && !Stale(site, k, rows[k]) :: rows[k]
  }

  // ----- pages

  /** A page, or an error after the given listings of a page were cached. */
  datatype Page = Page(listings: seq<Listing>, total: int, hasMore: bool) | Broken(listings: seq<Listing>)

  const MAX_PAGES := 1000

  function PageAt(pages: seq<Page>, n: nat): Page {
    if n < |pages| then pages[n] else Page([], 0, false)
  }

  predicate IsLast(page: Page, fetched: nat) {
    page.Page? && (!page.hasMore || fetched >= page.total || page.listings == [])
  }

  /** The listings that a sync caches from the given page on, after so many before. */
  function Fetched(pages: seq<Page>, n: nat, before: nat): seq<Listing>
    decreases MAX_PAGES - n
  {
    if n >= MAX_PAGES then []
    else
      var page := PageAt(pages, n);
      var fetched := before + |page.listings|;
      if page.Broken? || IsLast(page, fetched) then page.listings else page.listings + Fetched(pages, n + 1, fetched)
  }

  predicate Reaches(pages: seq<Page>, n: nat, before: nat)
    decreases MAX_PAGES - n
  {
    n >= MAX_PAGES
    || var page := PageAt(pages, n);
       var fetched := before + |page.listings|;
       page.Page? && (IsLast(page, fetched) || Reaches(pages, n + 1, fetched))
  }

  // ----- what is fetched, page by page

  /** The listings of the first pages. */
  function Concat(pages: seq<Page>, n: nat): seq<Listing> {
    if n == 0 then [] else Concat(pages, n - 1) + PageAt(pages, n - 1).listings
  }

  /** Does eBay's answer leave something to be read after so many listings? */
  predicate LeavesMore(page: Page, fetched: nat) {
    page.Page? && page.hasMore && page.listings != [] && fetched < page.total
  }

  /**
   * The first `n` pages are read: each but the last leaves more, the last is broken if reading failed, and otherwise leaves
   * nothing or is the thousandth.
   */
  ghost predicate ReadsPages(pages: seq<Page>, n: nat, failed: bool) {
    && 1 <= n <= 1000
    && (forall i :: 1 <= i < n ==> LeavesMore(PageAt(pages, i - 1), |Concat(pages, i)|))
    && (failed <==> PageAt(pages, n - 1).Broken?)
    && (n < 1000 ==> !LeavesMore(PageAt(pages, n - 1), |Concat(pages, n)|))
  }

  lemma {:induction false} FetchReadsPages(pages: seq<Page>, k: nat) returns (n: nat)
    requires k < MAX_PAGES
    requires forall i :: 1 <= i <= k ==> LeavesMore(PageAt(pages, i - 1), |Concat(pages, i)|)
    ensures ReadsPages(pages, n, !Reaches(pages, k, |Concat(pages, k)|))
    ensures Concat(pages, n) == Concat(pages, k) + Fetched(pages, k, |Concat(pages, k)|)
    decreases MAX_PAGES - k
  {
    hide PageAt, Fetched, Reaches, IsLast, LeavesMore;
    var page, before := PageAt(pages, k), Concat(pages, k);
    FetchesOn(pages, k, |before|);
    LastLeavesNothing(page, |Concat(pages, k + 1)|);
    if page.Broken? || IsLast(page, |Concat(pages, k + 1)|) {
      n := k + 1;
    } else if k + 1 == MAX_PAGES {
      n := k + 1;
      FetchesOn(pages, n, |Concat(pages, n)|);
    } else {
      n := FetchReadsPages(pages, k + 1);
      assert before + (page.listings + Fetched(pages, k + 1, |Concat(pages, k + 1)|))
          == Concat(pages, k + 1) + Fetched(pages, k + 1, |Concat(pages, k + 1)|);
    }
  }

  lemma LastLeavesNothing(page: Page, fetched: nat)
    ensures page.Broken? || IsLast(page, fetched) <==> !LeavesMore(page, fetched)
  {
  }

  /** eBay announces what it has: no page claims or hides listings that come later, and every total is the true one. */
  ghost predicate Announced(pages: seq<Page>) {
    && |pages| <= 1000
    && forall i :: 0 <= i < |pages| && pages[i].Page? ==>
         && pages[i].total == |Concat(pages, |pages|)|
         && (!pages[i].hasMore || pages[i].listings == [] ==> |Concat(pages, i + 1)| == |Concat(pages, |pages|)|)
  }

  lemma {:induction false} ConcatGrows(pages: seq<Page>, m: nat, n: nat)
    requires m <= n
    ensures |Concat(pages, m)| <= |Concat(pages, n)| && Concat(pages, n)[..|Concat(pages, m)|] == Concat(pages, m)
    decreases n
  {
    if m < n {
      ConcatGrows(pages, m, n - 1);
    }
  }

  /** If eBay announces what it has, reading that does not fail has read every listing. */
  lemma ReadsAllAnnounced(pages: seq<Page>, n: nat)
    requires Announced(pages) && ReadsPages(pages, n, false)
    ensures Concat(pages, n) == Concat(pages, |pages|)
  {
    if n <= |pages| {
      ConcatGrows(pages, n, |pages|);
      if n < 1000 {
        assert PageAt(pages, n - 1) == pages[n - 1];
      }
    } else {
      assert LeavesMore(PageAt(pages, |pages|), |Concat(pages, |pages| + 1)|) || n == |pages| + 1;
      assert Concat(pages, |pages| + 1) == Concat(pages, |pages|) + [];
    }
  }

  class Cache {
    var rows: map<Key, Row>

    method SyncSite(site: Site, pages: seq<Page>, deleteWorks: bool) returns (ok: bool)
      modifies this
      ensures ok == (Reaches(pages, 0, 0) && deleteWorks)
      ensures rows == var cached := UpsertAll(old(rows), site, Fetched(pages, 0, 0));
                      if ok then Swept(cached, site) else cached
      ensures exists n, failed ::
                && ReadsPages(pages, n, failed) && ok == (!failed && deleteWorks)
                && rows == var cached := UpsertAll(old(rows), site, Concat(pages, n));
                           if ok then Swept(cached, site) else cached
    {
      hide Reaches, Fetched, UpsertAll, Swept, ReadsPages;
      ghost var n := FetchReadsPages(pages, 0);
      assert Concat(pages, 0) + Fetched(pages, 0, 0) == Fetched(pages, 0, 0);
      var reached := FetchPages(site, pages);
      if !reached || !deleteWorks {
        return false;
      }
      rows := Swept(rows, site);
      return true;
    }

    method FetchPages(site: Site, pages: seq<Page>) returns (reached: bool)
      modifies this
      ensures reached == Reaches(pages, 0, 0)
      ensures rows == UpsertAll(old(rows), site, Fetched(pages, 0, 0))
    {
      hide UpsertAll, IsLast, PageAt, Fetched, Reaches;
      ghost var all := Fetched(pages, 0, 0);
      ghost var done: seq<Listing> := [];
      ghost var was := rows;
      var n, fetched := 0, 0;
      assert done + all == all;
      assert rows == UpsertAll(was, site, []) by { NothingCached(rows, site); }
      while n < MAX_PAGES
        invariant n <= MAX_PAGES && fetched == |done|
        invariant done + Fetched(pages, n, fetched) == all
        invariant Reaches(pages, n, fetched) == Reaches(pages, 0, 0)
        invariant rows == UpsertAll(was, site, done)
      {
        var page := PageAt(pages, n);
        FetchesOn(pages, n, fetched);
        CacheListings(site, page.listings);
        UpsertAllAppends(was, site, done, page.listings);
        fetched := fetched + |page.listings|;
        if page.Broken? {
          return false;
        }
        if IsLast(page, fetched) {
          return true;
        }
        assert done + (page.listings + Fetched(pages, n + 1, fetched)) == (done + page.listings) + Fetched(pages, n + 1, fetched);
        done := done + page.listings;
        n := n + 1;
      }
      FetchesOn(pages, n, fetched);
      assert done == all;
      return true;
    }

    method CacheListings(site: Site, listings: seq<Listing>)
      modifies this
      ensures rows == UpsertAll(old(rows), site, listings)
    {
      for i := 0 to |listings|
        invariant rows == UpsertAll(old(rows), site, listings[..i])
      {
        assert listings[..i + 1][..i] == listings[..i];
        rows := Upsert(rows, site, listings[i]);
      }
      assert listings[..|listings|] == listings;
    }
  }

  /** One page of a fetch, or its end. */
  lemma FetchesOn(pages: seq<Page>, n: nat, before: nat)
    ensures n >= MAX_PAGES ==> Fetched(pages, n, before) == [] && Reaches(pages, n, before)
    ensures var page := PageAt(pages, n);
            var fetched := before + |page.listings|;
            n < MAX_PAGES ==>
              if page.Broken? || IsLast(page, fetched)
              then Fetched(pages, n, before) == page.listings && Reaches(pages, n, before) == page.Page?
              else Fetched(pages, n, before) == page.listings + Fetched(pages, n + 1, fetched)
                   && Reaches(pages, n, before) == Reaches(pages, n + 1, fetched)
  {
    hide IsLast, PageAt;
  }

  lemma NothingCached(rows: map<Key, Row>, site: Site)
    ensures UpsertAll(rows, site, []) == rows
  {
  }

  lemma {:induction false} UpsertAllAppends(rows: map<Key, Row>, site: Site, xs: seq<Listing>, ys: seq<Listing>)
    ensures UpsertAll(rows, site, xs + ys) == UpsertAll(UpsertAll(rows, site, xs), site, ys)
    decreases |ys|
  {
    if ys == [] {
      assert xs + ys == xs;
    } else {
      assert (xs + ys)[..|xs + ys| - 1] == xs + ys[..|ys| - 1];
      UpsertAllAppends(rows, site, xs, ys[..|ys| - 1]);
    }
  }

  // ----- what a sync leaves

  predicate IsFetched(site: Site, listings: seq<Listing>, k: Key) {
    exists i :: 0 <= i < |listings| && KeyOf(site, listings[i]) == k
  }

  lemma KeysAreTrading(site: Site, l: Listing)
    ensures KeyOf(site, l).connection == site.connection && StartsWith(KeyOf(site, l).sourceKey, TRADING)
  {
  }

  lemma {:induction false} FetchedAppends(site: Site, listings: seq<Listing>, k: Key)
    requires listings != []
    ensures IsFetched(site, listings, k) <==>
              IsFetched(site, listings[..|listings| - 1], k) || KeyOf(site, listings[|listings| - 1]) == k
  {
    hide KeyOf;
    var front := listings[..|listings| - 1];
    if IsFetched(site, front, k) {
      var i :| 0 <= i < |front| && KeyOf(site, front[i]) == k;
      assert KeyOf(site, listings[i]) == k;
    }
    if IsFetched(site, listings, k) && KeyOf(site, listings[|listings| - 1]) != k {
      var i :| 0 <= i < |listings| && KeyOf(site, listings[i]) == k;
      assert KeyOf(site, front[i]) == k;
    }
  }

  /** The row of a key before and after the upserts of a sync. */
  ghost predicate RowKept(rows: map<Key, Row>, r: map<Key, Row>, site: Site, fetched: bool, k: Key) {
    && (k in r <==> k in rows || fetched)
    && (!fetched && k in rows ==> r[k] == rows[k])
    && (fetched ==>
          && r[k].syncedAt == site.startedAt
          && r[k].marketplace == (if k in rows then rows[k].marketplace else site.marketplace)
          && (k in rows ==> r[k].sku == rows[k].sku))
  }

  lemma UpsertKeepsRow(rows: map<Key, Row>, mid: map<Key, Row>, site: Site, l: Listing, fetched: bool, k: Key)
    requires RowKept(rows, mid, site, fetched, k)
    ensures RowKept(rows, Upsert(mid, site, l), site, fetched || KeyOf(site, l) == k, k)
  {
    hide KeyOf, Available;
  }

  /** Fetched rows are fresh and keep marketplace and SKU if they existed; others are untouched. */
  lemma {:induction false} UpsertedRow(rows: map<Key, Row>, site: Site, listings: seq<Listing>, k: Key)
    ensures RowKept(rows, UpsertAll(rows, site, listings), site, IsFetched(site, listings, k), k)
  {
    if listings != [] {
      hide KeyOf, IsFetched, RowKept, Upsert;
      var front, last := listings[..|listings| - 1], listings[|listings| - 1];
      UpsertedRow(rows, site, front, k);
      FetchedAppends(site, listings, k);
      UpsertKeepsRow(rows, UpsertAll(rows, site, front), site, last, IsFetched(site, front, k), k);
    }
  }

  /** A source with or without its prefixes, or else the listing's number, is the third part of the key. */
  lemma KeyOfListing(site: Site, l: Listing, name: string)
    requires !StartsWith(name, TRADING) && !StartsWith(name, site.marketplace + ":")
    requires !StartsWith(site.marketplace + ":" + name, TRADING)
    requires l.source == Some(name) || l.source == Some(TRADING + name) || l.source == Some(site.marketplace + ":" + name)
             || l.source == Some(TRADING + (site.marketplace + ":" + name)) || (l.source.None? && l.listingId == name)
    requires name != ""
    ensures KeyOf(site, l) == Key(site.connection, "TRADING:" + (site.marketplace + ":" + name))
  {
    PrefixComesOff(TRADING, name);
    PrefixComesOff(site.marketplace + ":", name);
    PrefixComesOff(TRADING, site.marketplace + ":" + name);
  }

  /** Is the listing the last one of its key? */
  predicate IsLatest(site: Site, listings: seq<Listing>, j: nat)
    requires j < |listings|
  {
    forall i :: j < i < |listings| ==> KeyOf(site, listings[i]) != KeyOf(site, listings[j])
  }

  /** The row shows the listing's content and what is left of its quantity, if that is known. */
  predicate Shows(rows: map<Key, Row>, k: Key, l: Listing) {
    && k in rows && rows[k].content == l.content
    && (rows[k].quantity.Some? <==> l.quantity.Some?)
    && (l.quantity.Some? && l.sold <= l.quantity.value ==> rows[k].quantity.value + l.sold == l.quantity.value)
    && (l.quantity.Some? && l.sold > l.quantity.value ==> rows[k].quantity.value == 0)
  }

  /** Is the listing the first one of its key? */
  predicate IsFirst(site: Site, listings: seq<Listing>, j: nat)
    requires j < |listings|
  {
    forall i :: 0 <= i < j ==> KeyOf(site, listings[i]) != KeyOf(site, listings[j])
  }

  /** The first listing of a key that was not cached gives its row the SKU, or the listing's number in its place. */
  lemma {:induction false} FirstListingNames(rows: map<Key, Row>, site: Site, listings: seq<Listing>, j: nat)
    requires j < |listings| && IsFirst(site, listings, j) && KeyOf(site, listings[j]) !in rows
    ensures var k, r := KeyOf(site, listings[j]), UpsertAll(rows, site, listings);
            && k in r && r[k].marketplace == site.marketplace
            && (listings[j].sku.Some? ==> Some(r[k].sku) == listings[j].sku)
            && (listings[j].sku.None? ==> r[k].sku == listings[j].listingId)
    decreases |listings|
  {
    hide KeyOf, Available, SourceKey;
    var last := |listings| - 1;
    var front := listings[..last];
    if j < last {
      assert IsFirst(site, front, j);
      FirstListingNames(rows, site, front, j);
    } else {
      UpsertedRow(rows, site, front, KeyOf(site, listings[j]));
      assert !IsFetched(site, front, KeyOf(site, listings[j]));
    }
  }

  /** The last listing of a key decides what its row shows. */
  lemma {:induction false} LatestListingShows(rows: map<Key, Row>, site: Site, listings: seq<Listing>, j: nat)
    requires j < |listings| && IsLatest(site, listings, j)
    ensures Shows(UpsertAll(rows, site, listings), KeyOf(site, listings[j]), listings[j])
    decreases |listings|
  {
    hide KeyOf, SourceKey;
    var last := |listings| - 1;
    if j < last {
      assert IsLatest(site, listings[..last], j);
      LatestListingShows(rows, site, listings[..last], j);
    }
  }

  predicate OfSite(site: Site, k: Key, row: Row) {
    k.connection == site.connection && row.marketplace == site.marketplace
  }

  /**
   * A sync that finishes leaves, for its connection and marketplace, exactly the fetched rows that are the site's and the
   * rows that cannot be told from them: those with a trading key whose time is not before the sync's start.  Rows of other
   * sites keep everything, unless a listing was fetched under their key.
   */
  lemma FinishedSyncLeaves(rows: map<Key, Row>, site: Site, listings: seq<Listing>, k: Key)
    ensures var r := Swept(UpsertAll(rows, site, listings), site);
            var fetched := IsFetched(site, listings, k);
            && (k in r && OfSite(site, k, r[k]) <==>
                  if fetched then k !in rows || OfSite(site, k, rows[k])
                  else k in rows && OfSite(site, k, rows[k]) && !Stale(site, k, rows[k]))
            && (k in rows && !OfSite(site, k, rows[k]) ==> k in r && (!fetched ==> r[k] == rows[k]))
  {
    UpsertedRow(rows, site, listings, k);
    if IsFetched(site, listings, k) {
      var i :| 0 <= i < |listings| && KeyOf(site, listings[i]) == k;
      KeysAreTrading(site, listings[i]);
    }
    hide UpsertAll, IsFetched, KeyOf, StartsWith;
  }

  /** Rows are cached under keys of their own marketplace, whose name has no colon, and before any later sync starts. */
  ghost predicate Orderly(rows: map<Key, Row>, before: int) {
    forall k :: k in rows ==>
      && ':' !in rows[k].marketplace
      && rows[k].syncedAt < before
      && exists raw :: k.sourceKey == SourceKey(rows[k].marketplace, raw)
  }

  /**
   * In an orderly cache a finished sync leaves exactly the fetched listings for its connection and marketplace, each with
   * the content and the quantity of the last listing under its key; it leaves every other site as it was, and the cache
   * orderly for the next sync.
   */
  lemma OrderlySyncIsExact(rows: map<Key, Row>, site: Site, listings: seq<Listing>, next: int)
    requires Orderly(rows, site.startedAt) && ':' !in site.marketplace && site.startedAt < next
    ensures var r := Swept(UpsertAll(rows, site, listings), site);
            && (forall k :: k in r && OfSite(site, k, r[k]) <==> IsFetched(site, listings, k))
            && (forall j :: 0 <= j < |listings| && IsLatest(site, listings, j) ==> Shows(r, KeyOf(site, listings[j]), listings[j]))
            && (forall k :: k in rows && !OfSite(site, k, rows[k]) ==> k in r && r[k] == rows[k])
            && Orderly(r, next)
  {
    hide KeyOf, UpsertAll, Available;
    var r := Swept(UpsertAll(rows, site, listings), site);
    forall j | 0 <= j < |listings| && IsLatest(site, listings, j)
      ensures Shows(r, KeyOf(site, listings[j]), listings[j])
    {
      LatestListingShows(rows, site, listings, j);
      OrderlyRow(rows, site, listings, next, KeyOf(site, listings[j]));
    }
    forall k
      ensures k in r && OfSite(site, k, r[k]) <==> IsFetched(site, listings, k)
      ensures k in rows && !OfSite(site, k, rows[k]) ==> k in r && r[k] == rows[k]
      ensures k in r ==> ':' !in r[k].marketplace && r[k].syncedAt < next && exists raw :: k.sourceKey == SourceKey(r[k].marketplace, raw)
    {
      OrderlyRow(rows, site, listings, next, k);
    }
  }

  lemma OrderlyRow(rows: map<Key, Row>, site: Site, listings: seq<Listing>, next: int, k: Key)
    requires Orderly(rows, site.startedAt) && ':' !in site.marketplace && site.startedAt < next
    ensures var r := Swept(UpsertAll(rows, site, listings), site);
            && (k in r && OfSite(site, k, r[k]) <==> IsFetched(site, listings, k))
            && (k in rows && !OfSite(site, k, rows[k]) ==> k in r && r[k] == rows[k])
            && (k in r ==> ':' !in r[k].marketplace && r[k].syncedAt < next && exists raw :: k.sourceKey == SourceKey(r[k].marketplace, raw))
  {
    FinishedSyncLeaves(rows, site, listings, k);
    UpsertedRow(rows, site, listings, k);
    if IsFetched(site, listings, k) {
      FetchedKeyIsSites(rows, site, listings, k);
    }
    hide UpsertAll, IsFetched, SourceKey, StartsWith;
  }

  lemma FetchedKeyIsSites(rows: map<Key, Row>, site: Site, listings: seq<Listing>, k: Key)
    requires Orderly(rows, site.startedAt) && ':' !in site.marketplace && IsFetched(site, listings, k)
    ensures exists raw :: k.sourceKey == SourceKey(site.marketplace, raw)
    ensures k in rows ==> OfSite(site, k, rows[k])
  {
    var i :| 0 <= i < |listings| && KeyOf(site, listings[i]) == k;
    var l := listings[i];
    var raw := if l.source.Some? && l.source.value != "" then l.source.value else TRADING + l.listingId;
    assert k.sourceKey == SourceKey(site.marketplace, raw);
    if k in rows {
      var other :| k.sourceKey == SourceKey(rows[k].marketplace, other);
      SourceKeysAreApart(site.marketplace, rows[k].marketplace, raw, other);
    }
  }

  /** A sync that fails removes nothing. */
  lemma FailedSyncRemovesNothing(rows: map<Key, Row>, site: Site, listings: seq<Listing>)
    ensures rows.Keys <= UpsertAll(rows, site, listings).Keys
  {
    forall k | k in rows
      ensures k in UpsertAll(rows, site, listings)
    {
      UpsertedRow(rows, site, listings, k);
    }
  }
}
