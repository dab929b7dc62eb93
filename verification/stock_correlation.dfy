/** The futures and stock correlation table read from a market data page:
    which listed stocks are related to which commodity futures, built in one
    pass over the page, and the lookups over it in both directions. The page
    download, the regular expression that cuts the JSON out of it and the
    clock of the cache are inputs here. */
module StockCorrelation {
  import opened Wrappers
  import opened Seqs
  import opened Strings
  import opened Dicts

  /* ----------------------------------------------------------- the page */

  /** One entry of an item's `scss` list; a missing key reads as `''`. */
  datatype StockData = StockData(code: string, name: string)

  /** One entry of a category's `list`; missing keys read as `''` or `[]`. */
  datatype ItemData = ItemData(name: string, price: string, zdf: string, scss: seq<StockData>)

  /** One entry of `datas`. */
  datatype CategoryData = CategoryData(name: string, items: seq<ItemData>)

  /** The decoded `pagedata` object; `datas` may be missing. */
  datatype PageData = PageData(datas: Option<seq<CategoryData>>)

  /** An item together with the name of the category it was listed under:
      one turn of the inner parsing loop. */
  datatype Listing = Listing(category: string, item: ItemData)

  /** The items of the page in loop order: category by category, and within
      a category in list order. */
  function Listings(datas: seq<CategoryData>): (ls: seq<Listing>)
    ensures forall l | l in ls :: exists c | c in datas :: l.category == c.name && l.item in c.items
    ensures forall c, it | c in datas && it in c.items :: Listing(c.name, it) in ls
    decreases |datas|
  {
    if |datas| == 0 then []
    else
      var last := datas[|datas| - 1];
      var init := Listings(datas[..|datas| - 1]);
      var own := seq(|last.items|, i requires 0 <= i < |last.items| => Listing(last.name, last.items[i]));
      assert forall it | it in last.items :: Listing(last.name, it) in own by {
        forall it | it in last.items
          ensures Listing(last.name, it) in own
        {
          var i :| 0 <= i < |last.items| && last.items[i] == it;
          assert own[i] == Listing(last.name, it);
        }
      }
      assert forall c | c in datas[..|datas| - 1] :: c in datas;
      assert forall c | c in datas :: c in datas[..|datas| - 1] || c == last;
      init + own
  }

  /* ------------------------------------------------------------ records */

  /** `StockInfo`. */
  datatype StockInfo = StockInfo(code: string, name: string)

  /** `FutureInfo`: price and change are kept as the page's strings. */
  datatype FutureInfo = FutureInfo(
    name: string,
    category: string,
    price: string,
    changePct: string,
    relatedStocks: seq<StockInfo>)

  /** A stock entry is kept only when both its code and its name are
      non-empty. */
  predicate Usable(d: StockData)
  {
    d.code != "" && d.name != ""
  }

  /** The item lists a usable stock of this name. */
  predicate ListsStock(scss: seq<StockData>, stock: string)
  {
    exists d | d in scss :: Usable(d) && d.name == stock
  }

  /** `related_stocks`: the usable entries, in order. */
  function RelatedStocks(scss: seq<StockData>): (r: seq<StockInfo>)
    ensures |r| <= |scss|
    ensures forall x | x in r :: x.code != "" && x.name != "" && StockData(x.code, x.name) in scss
    ensures forall d | d in scss && Usable(d) :: StockInfo(d.code, d.name) in r
    decreases |scss|
  {
    if |scss| == 0 then []
    else
      var d := scss[|scss| - 1];
      var init := RelatedStocks(scss[..|scss| - 1]);
      assert forall e | e in scss[..|scss| - 1] :: e in scss;
      assert forall e | e in scss :: e in scss[..|scss| - 1] || e == d;
      if Usable(d) then init + [StockInfo(d.code, d.name)] else init
  }

  /** The record an item is stored as. */
  function InfoOf(l: Listing): FutureInfo
  {
    FutureInfo(l.item.name, l.category, l.item.price, l.item.zdf, RelatedStocks(l.item.scss))
  }

  /** The futures stored for a stock, `[]` when the stock has no entry. */
  function FuturesOf(m: Dict<string, seq<string>>, stock: string): seq<string>
  {
    if stock in m.entries then m.entries[stock] else []
  }

  ghost predicate ListsNoDup(m: Dict<string, seq<string>>)
  {
    forall s | s in m.entries :: NoDup(m.entries[s])
  }

  /** `futures_data` and `stock_to_futures`. */
  datatype Correlation = Correlation(futures: Dict<string, FutureInfo>, stockToFutures: Dict<string, seq<string>>)
  {
    /** What parsing keeps true: both dictionaries are well formed; every
        future is stored under its own non-empty name with usable stocks,
        each of which links back to it; every stock has a non-empty name and
        a repetition-free list of known futures. */
    ghost predicate Valid()
    {
      && futures.Valid() && stockToFutures.Valid()
      && (forall n | n in futures.entries :: n != "" && futures.entries[n].name == n)
      && (forall n | n in futures.entries ::
            forall x | x in futures.entries[n].relatedStocks ::
              x.code != "" && x.name != "" && n in FuturesOf(stockToFutures, x.name))
      && (forall s | s in stockToFutures.entries :: s != "" && NoDup(stockToFutures.entries[s]))
      && (forall s | s in stockToFutures.entries :: forall f | f in stockToFutures.entries[s] :: f in futures.entries)
    }
  }

  /* ------------------------------------------------------------ parsing */

  /** One link of the reverse map: create the stock's list if needed, then
      append the future unless it is already there. */
  function Link(m: Dict<string, seq<string>>, stock: string, future: string): (r: Dict<string, seq<string>>)
    requires m.Valid()
    ensures r.Valid()
    ensures forall s :: s in r.entries <==> s in m.entries || s == stock
    ensures forall s | s != stock :: FuturesOf(r, s) == FuturesOf(m, s)
    ensures forall f :: f in FuturesOf(r, stock) <==> f in FuturesOf(m, stock) || f == future
    ensures |FuturesOf(m, stock)| <= |FuturesOf(r, stock)|
    ensures FuturesOf(r, stock)[..|FuturesOf(m, stock)|] == FuturesOf(m, stock)
    ensures NoDup(FuturesOf(m, stock)) ==> NoDup(FuturesOf(r, stock))
  {
    var fs := FuturesOf(m, stock);
    Put(m, stock, if future in fs then fs else fs + [future])
  }

  /** The stocks an item lists are those of all but its last entry, plus
      the last entry when it is usable. */
  lemma ListsStockSnoc(scss: seq<StockData>)
    requires |scss| > 0
    ensures var d := scss[|scss| - 1];
            forall s :: ListsStock(scss, s) <==> ListsStock(scss[..|scss| - 1], s) || (Usable(d) && d.name == s)
  {
    var init := scss[..|scss| - 1];
    assert forall e | e in init :: e in scss;
    assert forall e | e in scss :: e in init || e == scss[|scss| - 1];
  }

  /** A link keeps every list free of repetitions. */
  lemma LinkKeepsNoDup(m: Dict<string, seq<string>>, stock: string, future: string)
    requires m.Valid()
    ensures ListsNoDup(m) ==> ListsNoDup(Link(m, stock, future))
  {
    var r := Link(m, stock, future);
    if ListsNoDup(m) {
      forall s | s in r.entries
        ensures NoDup(r.entries[s])
      {
        assert r.entries[s] == FuturesOf(r, s);
        if s != stock {
          assert FuturesOf(r, s) == FuturesOf(m, s);
        } else if stock in m.entries {
          assert FuturesOf(m, s) == m.entries[s];
        }
      }
    }
  }

  /** The reverse-map part of the stock loop of one item. */
  function LinkAll(m: Dict<string, seq<string>>, scss: seq<StockData>, future: string): (r: Dict<string, seq<string>>)
    requires m.Valid()
    ensures r.Valid()
    ensures forall s :: s in r.entries <==> s in m.entries || ListsStock(scss, s)
    ensures forall s, f :: f in FuturesOf(r, s) <==> f in FuturesOf(m, s) || (f == future && ListsStock(scss, s))
    ensures ListsNoDup(m) ==> ListsNoDup(r)
    decreases |scss|
  {
    if |scss| == 0 then m
    else
      var d := scss[|scss| - 1];
      var r0 := LinkAll(m, scss[..|scss| - 1], future);
      ListsStockSnoc(scss);
      if Usable(d) then
        LinkKeepsNoDup(r0, d.name, future);
        Link(r0, d.name, future)
      else r0
  }

  /** The `futures_data` part of one turn of the inner loop: an item with
      an empty name is skipped; otherwise it is stored under its name,
      replacing an earlier item of that name. */
  function StoreItem(d: Dict<string, FutureInfo>, l: Listing): (r: Dict<string, FutureInfo>)
    requires d.Valid()
    ensures r.Valid()
    ensures forall n :: n in r.entries <==> n in d.entries || (n == l.item.name && n != "")
    ensures l.item.name != "" ==> r.entries[l.item.name] == InfoOf(l)
    ensures forall n | n in d.entries && n != l.item.name :: r.entries[n] == d.entries[n]
  {
    if l.item.name == "" then d else Put(d, l.item.name, InfoOf(l))
  }

  /** The `stock_to_futures` part of one turn: the usable stocks of an item
      with a non-empty name are linked back to it. */
  function LinkItem(m: Dict<string, seq<string>>, l: Listing): (r: Dict<string, seq<string>>)
    requires m.Valid()
    ensures r.Valid()
    ensures forall s, f :: f in FuturesOf(r, s) <==>
              f in FuturesOf(m, s) || (f == l.item.name && f != "" && ListsStock(l.item.scss, s))
    ensures ListsNoDup(m) ==> ListsNoDup(r)
  {
    if l.item.name == "" then m else LinkAll(m, l.item.scss, l.item.name)
  }

  /** The two dictionaries are filled independently of each other: the
      `futures_data` half of the parsing loop. */
  function StoreAll(ls: seq<Listing>): (d: Dict<string, FutureInfo>)
    ensures d.Valid()
    decreases |ls|
  {
    if |ls| == 0 then Empty() else StoreItem(StoreAll(ls[..|ls| - 1]), ls[|ls| - 1])
  }

  /** The `stock_to_futures` half of the parsing loop. */
  function LinkListings(ls: seq<Listing>): (m: Dict<string, seq<string>>)
    ensures m.Valid() && ListsNoDup(m)
    decreases |ls|
  {
    if |ls| == 0 then Empty() else LinkItem(LinkListings(ls[..|ls| - 1]), ls[|ls| - 1])
  }

  /** One whole turn keeps the invariant of the pair. */
  lemma ParseItemValid(c: Correlation, l: Listing)
    requires c.Valid()
    ensures Correlation(StoreItem(c.futures, l), LinkItem(c.stockToFutures, l)).Valid()
  {
    if l.item.name != "" {
      var f := l.item.name;
      var fs := StoreItem(c.futures, l);
      var m := LinkItem(c.stockToFutures, l);
      assert m == LinkAll(c.stockToFutures, l.item.scss, f);
      forall n, x | n in fs.entries && x in fs.entries[n].relatedStocks
        ensures x.code != "" && x.name != "" && n in FuturesOf(m, x.name)
      {
        if n == f {
          assert StockData(x.code, x.name) in l.item.scss;
          assert ListsStock(l.item.scss, x.name);
        } else {
          assert n in FuturesOf(c.stockToFutures, x.name);
        }
      }
      forall s | s in m.entries
        ensures s != ""
      {
        if s !in c.stockToFutures.entries {
          var d :| d in l.item.scss && Usable(d) && d.name == s;
        }
      }
      assert ListsNoDup(c.stockToFutures);
      forall s, g | s in m.entries && g in m.entries[s]
        ensures g in fs.entries
      {
        assert g in FuturesOf(m, s);
      }
    }
  }

  /** The loop's result keeps the invariant. */
  lemma {:induction false} ParsedValid(ls: seq<Listing>)
    ensures Correlation(StoreAll(ls), LinkListings(ls)).Valid()
    decreases |ls|
  {
    if |ls| > 0 {
      ParsedValid(ls[..|ls| - 1]);
      ParseItemValid(Correlation(StoreAll(ls[..|ls| - 1]), LinkListings(ls[..|ls| - 1])), ls[|ls| - 1]);
    }
  }

  function EmptyCorrelation(): (c: Correlation)
    ensures c.Valid() && |c.futures.order| == 0 && |c.stockToFutures.order| == 0
  {
    Correlation(Empty(), Empty())
  }

  /** The parsing loop over the items in order, from empty dictionaries. */
  function ParseListings(ls: seq<Listing>): (c: Correlation)
    ensures c.Valid()
    ensures c.futures == StoreAll(ls) && c.stockToFutures == LinkListings(ls)
  {
    ParsedValid(ls);
    Correlation(StoreAll(ls), LinkListings(ls))
  }

  /** `_parse_pagedata`: both dictionaries start empty, whatever they held
      before, and stay empty when the page has no `datas`. */
  function ParsePageData(p: PageData): (c: Correlation)
    ensures c.Valid()
    ensures p.datas.None? ==> |c.futures.order| == 0 && |c.stockToFutures.order| == 0
  {
    match p.datas
    case None => EmptyCorrelation()
    case Some(ds) => ParseListings(Listings(ds))
  }

  /* ------------------------------------------------ what parsing stores */

  /** Item `i` is the last one named `n`. */
  predicate LastNamed(ls: seq<Listing>, n: string, i: int)
  {
    0 <= i < |ls| && ls[i].item.name == n && forall j | i < j < |ls| :: ls[j].item.name != n
  }

  /** Some item carries the name. */
  predicate Carries(ls: seq<Listing>, n: string)
  {
    exists i | 0 <= i < |ls| :: ls[i].item.name == n
  }

  /** A name is stored exactly when some item carries it and it is not
      empty. */
  lemma {:induction false} StoredNames(ls: seq<Listing>, n: string)
    ensures n in StoreAll(ls).entries <==> n != "" && Carries(ls, n)
    decreases |ls|
  {
    if |ls| > 0 {
      var k := |ls| - 1;
      var init := ls[..k];
      StoredNames(init, n);
      if Carries(init, n) {
        var i :| 0 <= i < k && init[i].item.name == n;
        assert ls[i].item.name == n;
      }
      if Carries(ls, n) && ls[k].item.name != n {
        var i :| 0 <= i < |ls| && ls[i].item.name == n;
        assert init[i].item.name == n;
      }
    }
  }

  /** A stored name holds the record of the LAST item carrying it: a later
      item of the same name replaces the earlier one. */
  lemma {:induction false} StoredRecords(ls: seq<Listing>, n: string, i: int)
    requires n != "" && LastNamed(ls, n, i)
    ensures n in StoreAll(ls).entries && StoreAll(ls).entries[n] == InfoOf(ls[i])
    decreases |ls|
  {
    var k := |ls| - 1;
    var init := ls[..k];
    if i < k {
      assert LastNamed(init, n, i);
      StoredRecords(init, n, i);
    }
  }

  /** Some item named `future` lists the stock. */
  predicate ListedUnder(ls: seq<Listing>, stock: string, future: string)
  {
    exists i | 0 <= i < |ls| :: ls[i].item.name == future && ListsStock(ls[i].item.scss, stock)
  }

  lemma ListedUnderSnoc(ls: seq<Listing>, stock: string, future: string)
    requires |ls| > 0
    ensures var k := |ls| - 1;
            ListedUnder(ls, stock, future) <==>
              ListedUnder(ls[..k], stock, future) || (ls[k].item.name == future && ListsStock(ls[k].item.scss, stock))
  {
    var k := |ls| - 1;
    if ListedUnder(ls, stock, future) {
      var i :| 0 <= i < |ls| && ls[i].item.name == future && ListsStock(ls[i].item.scss, stock);
      if i < k {
        assert ls[..k][i] == ls[i];
      }
    }
    if ListedUnder(ls[..k], stock, future) {
      var i :| 0 <= i < k && ls[..k][i].item.name == future && ListsStock(ls[..k][i].item.scss, stock);
      assert ls[i] == ls[..k][i];
    }
  }

  /** A stock lists a future exactly when some item of that non-empty name
      lists the stock with a non-empty code. */
  lemma {:induction false} StoredLinks(ls: seq<Listing>, stock: string, future: string)
    ensures future in FuturesOf(LinkListings(ls), stock) <==> future != "" && ListedUnder(ls, stock, future)
    decreases |ls|
  {
    if |ls| > 0 {
      var k := |ls| - 1;
      StoredLinks(ls[..k], stock, future);
      ListedUnderSnoc(ls, stock, future);
    }
  }

  /** A later item of a name replaces the earlier item's record, but the
      stocks of the earlier item keep their link to the name. */
  lemma ReplacedItemKeepsOldLinks()
    ensures var first := Listing("c", ItemData("X", "", "", [StockData("1", "A")]));
            var second := Listing("c", ItemData("X", "", "", [StockData("2", "B")]));
            && StoreAll([first, second]).entries["X"].relatedStocks == [StockInfo("2", "B")]
            && "X" in FuturesOf(LinkListings([first, second]), "A")
  {
    var first := Listing("c", ItemData("X", "", "", [StockData("1", "A")]));
    var second := Listing("c", ItemData("X", "", "", [StockData("2", "B")]));
    var ls := [first, second];
    StoredRecords(ls, "X", 1);
    assert [StockData("2", "B")][..0] == [];
    assert ListsStock(ls[0].item.scss, "A") by {
      assert StockData("1", "A") in ls[0].item.scss;
    }
    StoredLinks(ls, "A", "X");
  }

  /* ------------------------------------------------------------ queries */

  /** The cache lifetime in seconds, `cache_duration`. */
  const CacheDuration: int := 360000

  /** `_ensure_data_fresh`: past the cache lifetime the data is fetched
      again and the outcome of the fetch decides; otherwise the data counts
      as upToDate when it holds at least one future. */
  function EnsureDataFresh(c: Correlation, elapsed: real, fetched: bool): (upToDate: bool)
    ensures elapsed <= CacheDuration as real ==> (upToDate <==> |c.futures.order| > 0)
    ensures elapsed > CacheDuration as real ==> upToDate == fetched
  {
    if elapsed > CacheDuration as real then fetched else |c.futures.order| > 0
  }

  /** `a in b or b in a`. */
  predicate Fuzzy(name: string, query: string)
  {
    Contains(name, query) || Contains(query, name)
  }

  /** The position of the first name related to the query either way. */
  function FirstFuzzy(names: seq<string>, query: string): (r: Option<nat>)
    ensures r.Some? ==> r.value < |names| && Fuzzy(names[r.value], query)
    ensures r.Some? ==> forall j | 0 <= j < r.value :: !Fuzzy(names[j], query)
    ensures r.None? ==> forall j | 0 <= j < |names| :: !Fuzzy(names[j], query)
    decreases |names|
  {
    if |names| == 0 then None
    else if Fuzzy(names[0], query) then Some(0)
    else
      match FirstFuzzy(names[1..], query)
      case None => None
      case Some(i) => Some(i + 1)
  }

  /** `get_stocks_by_future`: nothing when the data is not upToDate; the
      stocks of the exact name; else those of the first stored name related
      to the query either way; else nothing. */
  function GetStocksByFuture(c: Correlation, upToDate: bool, query: string): (r: seq<StockInfo>)
    requires c.Valid()
    ensures !upToDate ==> r == []
    ensures upToDate && query in c.futures.entries ==> r == c.futures.entries[query].relatedStocks
    ensures upToDate && query !in c.futures.entries ==>
              || (r == [] && forall n | n in c.futures.entries :: !Fuzzy(n, query))
              || exists i | 0 <= i < |c.futures.order| ::
                   && Fuzzy(c.futures.order[i], query)
                   && (forall j | 0 <= j < i :: !Fuzzy(c.futures.order[j], query))
                   && r == c.futures.entries[c.futures.order[i]].relatedStocks
  {
    if !upToDate then []
    else if query in c.futures.entries then c.futures.entries[query].relatedStocks
    else
      match FirstFuzzy(c.futures.order, query)
      case None => []
      case Some(i) => c.futures.entries[c.futures.order[i]].relatedStocks
  }

  /** The futures of every name related to the query either way, in order,
      repeats included: `result.extend(futures)` over the matches. */
  function GatherFuzzy(m: Dict<string, seq<string>>, names: seq<string>, query: string): (r: seq<string>)
    ensures forall f :: f in r <==> exists i | 0 <= i < |names| :: Fuzzy(names[i], query) && f in FuturesOf(m, names[i])
    decreases |names|
  {
    if |names| == 0 then []
    else
      var init := GatherFuzzy(m, names[..|names| - 1], query);
      var n := names[|names| - 1];
      assert forall i | 0 <= i < |names| - 1 :: names[..|names| - 1][i] == names[i];
      if Fuzzy(n, query) then init + FuturesOf(m, n) else init
  }

  /** `get_futures_by_stock`: nothing when the data is not upToDate; the stored
      list of the exact name; else every future of a stock whose name is
      related to the query either way, each once. */
  function GetFuturesByStock(c: Correlation, upToDate: bool, query: string): (r: seq<string>)
    requires c.Valid()
    ensures !upToDate ==> r == []
    ensures NoDup(r)
    ensures upToDate && query in c.stockToFutures.entries ==> r == c.stockToFutures.entries[query]
    ensures upToDate && query !in c.stockToFutures.entries ==>
              forall f :: f in r <==> exists s | s in c.stockToFutures.entries ::
                                      Fuzzy(s, query) && f in c.stockToFutures.entries[s]
  {
    if !upToDate then []
    else if query in c.stockToFutures.entries then c.stockToFutures.entries[query]
    else
      var m := c.stockToFutures;
      var r := Dedup(GatherFuzzy(m, m.order, query));
      assert forall f :: f in r <==> exists s | s in m.entries :: Fuzzy(s, query) && f in m.entries[s] by {
        forall f
          ensures f in r <==> exists s | s in m.entries :: Fuzzy(s, query) && f in m.entries[s]
        {
          if f in r {
            var i :| 0 <= i < |m.order| && Fuzzy(m.order[i], query) && f in FuturesOf(m, m.order[i]);
            assert m.order[i] in m.entries;
          }
          if exists s | s in m.entries :: Fuzzy(s, query) && f in m.entries[s] {
            var s :| s in m.entries && Fuzzy(s, query) && f in m.entries[s];
            var i :| 0 <= i < |m.order| && m.order[i] == s;
            assert f in FuturesOf(m, m.order[i]);
          }
        }
      }
      r
  }

  /** A `(name, category)` pair of `search_futures`. */
  datatype FutureHit = FutureHit(name: string, category: string)

  /** The keyword occurs in the lower-cased name or category. */
  predicate FutureMatches(name: string, category: string, keyword: string)
  {
    Contains(Lower(name), keyword) || Contains(Lower(category), keyword)
  }

  /** The future names of a list of hits. */
  function HitNames(r: seq<FutureHit>): (ns: seq<string>)
    ensures |ns| == |r|
    ensures forall i :: 0 <= i < |r| ==> ns[i] == r[i].name
  {
    seq(|r|, i requires 0 <= i < |r| => r[i].name)
  }

  /** The search loop over the given names, in order. */
  function FutureHits(futures: Dict<string, FutureInfo>, names: seq<string>, keyword: string): (r: seq<FutureHit>)
    requires forall n | n in names :: n in futures.entries
    ensures forall h | h in r :: h.name in names && h.category == futures.entries[h.name].category
                                 && FutureMatches(h.name, h.category, keyword)
    ensures forall n | n in names && FutureMatches(n, futures.entries[n].category, keyword) ::
              FutureHit(n, futures.entries[n].category) in r
    decreases |names|
  {
    if |names| == 0 then []
    else
      var n := names[|names| - 1];
      var init := FutureHits(futures, names[..|names| - 1], keyword);
      assert forall x | x in names[..|names| - 1] :: x in names;
      assert forall x | x in names :: x in names[..|names| - 1] || x == n;
      var cat := futures.entries[n].category;
      if FutureMatches(n, cat, keyword) then init + [FutureHit(n, cat)] else init
  }

  /** One more name either adds its hit at the end or adds nothing. */
  lemma FutureHitsSnoc(futures: Dict<string, FutureInfo>, names: seq<string>, keyword: string)
    requires forall n | n in names :: n in futures.entries
    requires |names| > 0
    ensures var n := names[|names| - 1];
            var init := FutureHits(futures, names[..|names| - 1], keyword);
            && (forall i | 0 <= i < |init| :: HitNames(init)[i] in names[..|names| - 1])
            && (FutureMatches(n, futures.entries[n].category, keyword) ==>
                  HitNames(FutureHits(futures, names, keyword)) == HitNames(init) + [n])
            && (!FutureMatches(n, futures.entries[n].category, keyword) ==>
                  FutureHits(futures, names, keyword) == init && n !in HitNames(init))
  {
    var k := |names| - 1;
    var n := names[k];
    assert forall x | x in names[..k] :: x in names;
    var init := FutureHits(futures, names[..k], keyword);
    forall i | 0 <= i < |init| ensures HitNames(init)[i] in names[..k] && (HitNames(init)[i] == n ==> FutureMatches(n, futures.entries[n].category, keyword)) {
      assert init[i] in init;
    }
    var cat := futures.entries[n].category;
    if FutureMatches(n, cat, keyword) {
      assert HitNames(init + [FutureHit(n, cat)]) == HitNames(init) + [n];
    }
  }

  /** The hits keep the order of the names. */
  lemma {:induction false} FutureHitsOrder(futures: Dict<string, FutureInfo>, names: seq<string>, keyword: string)
    requires forall n | n in names :: n in futures.entries
    ensures Subsequence(HitNames(FutureHits(futures, names, keyword)), names)
    decreases |names|
  {
    if |names| > 0 {
      var k := |names| - 1;
      var n := names[k];
      assert forall x | x in names[..k] :: x in names;
      FutureHitsOrder(futures, names[..k], keyword);
      FutureHitsSnoc(futures, names, keyword);
      var init := HitNames(FutureHits(futures, names[..k], keyword));
      assert names == names[..k] + [n];
      if FutureMatches(n, futures.entries[n].category, keyword) {
        SubsequenceSnoc(init, names[..k], n);
      } else {
        SubsequenceSkip(init, names[..k], n);
      }
    }
  }

  /** A name listed once is reported once. */
  lemma {:induction false} FutureHitsDistinct(futures: Dict<string, FutureInfo>, names: seq<string>, keyword: string)
    requires forall n | n in names :: n in futures.entries
    requires NoDup(names)
    ensures NoDup(HitNames(FutureHits(futures, names, keyword)))
    decreases |names|
  {
    if |names| > 0 {
      var k := |names| - 1;
      var n := names[k];
      assert forall x | x in names[..k] :: x in names;
      assert NoDup(names[..k]);
      FutureHitsDistinct(futures, names[..k], keyword);
      FutureHitsSnoc(futures, names, keyword);
      var init := HitNames(FutureHits(futures, names[..k], keyword));
      if FutureMatches(n, futures.entries[n].category, keyword) {
        assert n !in names[..k];
        NoDupSnoc(init, n);
      }
    }
  }

  /** `search_futures`: nothing when the data is not upToDate; otherwise every
      stored future whose lower-cased name or category contains the
      lower-cased keyword, with its category. */
  function SearchFutures(c: Correlation, upToDate: bool, keyword: string): (r: seq<FutureHit>)
    requires c.Valid()
    ensures !upToDate ==> r == []
    ensures forall h | h in r :: h.name in c.futures.entries && h.category == c.futures.entries[h.name].category
                                 && FutureMatches(h.name, h.category, Lower(keyword))
    ensures upToDate ==> forall n | n in c.futures.entries && FutureMatches(n, c.futures.entries[n].category, Lower(keyword)) ::
                        FutureHit(n, c.futures.entries[n].category) in r
    ensures NoDup(HitNames(r))
    ensures upToDate ==> Subsequence(HitNames(r), c.futures.order)
  {
    if !upToDate then []
    else
      FutureHitsOrder(c.futures, c.futures.order, Lower(keyword));
      FutureHitsDistinct(c.futures, c.futures.order, Lower(keyword));
      FutureHits(c.futures, c.futures.order, Lower(keyword))
  }

  /** The keyword occurs in the lower-cased stock name or code. */
  predicate StockMatches(x: StockInfo, keyword: string)
  {
    Contains(Lower(x.name), keyword) || Contains(Lower(x.code), keyword)
  }

  /** The matching stocks of the given futures, in order, repeats included. */
  function StockHits(futures: Dict<string, FutureInfo>, names: seq<string>, keyword: string): (r: seq<StockInfo>)
    requires forall n | n in names :: n in futures.entries
    ensures forall x :: x in r <==> StockMatches(x, keyword) &&
                                    exists n | n in names :: x in futures.entries[n].relatedStocks
    decreases |names|
  {
    if |names| == 0 then []
    else
      var n := names[|names| - 1];
      var init := StockHits(futures, names[..|names| - 1], keyword);
      assert forall x | x in names[..|names| - 1] :: x in names;
      assert forall x | x in names :: x in names[..|names| - 1] || x == n;
      init + Filter(futures.entries[n].relatedStocks, (x: StockInfo) => StockMatches(x, keyword))
  }

  /** `search_stocks`: nothing when the data is not upToDate; otherwise each
      related stock of a stored future whose lower-cased name or code
      contains the lower-cased keyword, once. */
  function SearchStocks(c: Correlation, upToDate: bool, keyword: string): (r: seq<StockInfo>)
    requires c.Valid()
    ensures !upToDate ==> r == []
    ensures NoDup(r)
    ensures upToDate ==> forall x :: x in r <==> (StockMatches(x, Lower(keyword)) &&
                                   exists n | n in c.futures.entries :: x in c.futures.entries[n].relatedStocks)
  {
    if !upToDate then [] else Dedup(StockHits(c.futures, c.futures.order, Lower(keyword)))
  }

  /** `get_future_info`. */
  function GetFutureInfo(c: Correlation, upToDate: bool, name: string): (r: Option<FutureInfo>)
    requires c.Valid()
    ensures !upToDate ==> r == None
    ensures upToDate ==> (r.Some? <==> name in c.futures.entries)
    ensures r.Some? ==> r.value == c.futures.entries[name] && r.value.name == name
  {
    if upToDate then Get(c.futures, name) else None
  }

  /** The categories of the given futures, in order, repeats included. */
  function CategoriesOf(futures: Dict<string, FutureInfo>, names: seq<string>): (r: seq<string>)
    requires forall n | n in names :: n in futures.entries
    ensures forall k :: k in r <==> exists n | n in names :: futures.entries[n].category == k
    decreases |names|
  {
    if |names| == 0 then []
    else
      var n := names[|names| - 1];
      assert forall x | x in names[..|names| - 1] :: x in names;
      assert forall x | x in names :: x in names[..|names| - 1] || x == n;
      CategoriesOf(futures, names[..|names| - 1]) + [futures.entries[n].category]
  }

  /** `get_all_categories`: each category of a stored future, once. */
  function GetAllCategories(c: Correlation, upToDate: bool): (r: seq<string>)
    requires c.Valid()
    ensures !upToDate ==> r == []
    ensures NoDup(r)
    ensures upToDate ==> forall k :: k in r <==> exists n | n in c.futures.entries :: c.futures.entries[n].category == k
  {
    if !upToDate then [] else Dedup(CategoriesOf(c.futures, c.futures.order))
  }

  /** `get_futures_by_category`: the stored names whose category is exactly
      the given one, in stored order. */
  function GetFuturesByCategory(c: Correlation, upToDate: bool, category: string): (r: seq<string>)
    requires c.Valid()
    ensures !upToDate ==> r == []
    ensures NoDup(r)
    ensures upToDate ==> forall n :: n in r <==> n in c.futures.entries && c.futures.entries[n].category == category
    ensures upToDate ==> Subsequence(r, c.futures.order)
  {
    if !upToDate then []
    else
      var inCategory := (n: string) => n in c.futures.entries && c.futures.entries[n].category == category;
      FilterOrder(c.futures.order, inCategory);
      Filter(c.futures.order, inCategory)
  }

  /* ----------------------------------------------------------- examples */

  /** Before the cache lifetime, an empty table is not upToDate and every
      query answers nothing. */
  lemma EmptyTableAnswersNothing(c: Correlation, elapsed: real, fetched: bool, query: string)
    requires c.Valid() && |c.futures.order| == 0 && elapsed <= CacheDuration as real
    ensures var upToDate := EnsureDataFresh(c, elapsed, fetched);
            && GetStocksByFuture(c, upToDate, query) == []
            && GetFuturesByStock(c, upToDate, query) == []
            && SearchFutures(c, upToDate, query) == []
            && SearchStocks(c, upToDate, query) == []
            && GetFutureInfo(c, upToDate, query) == None
            && GetAllCategories(c, upToDate) == []
            && GetFuturesByCategory(c, upToDate, query) == []
  {
  }

  /** The empty query is contained in every name, so on a upToDate table
      without an empty key it answers with the first stored future's
      stocks. */
  lemma EmptyQueryTakesFirst(c: Correlation)
    requires c.Valid() && |c.futures.order| > 0
    ensures GetStocksByFuture(c, true, "") == c.futures.entries[c.futures.order[0]].relatedStocks
  {
    var n := c.futures.order[0];
    assert n in c.futures.entries;
    assert StartsWith(n, "");
    assert Fuzzy(n, "");
  }

  /* ------------------------------------------------- a sample page */

  function CokingCoal(): ItemData
  {
    ItemData("炼焦煤", "1391.25", "-1.22",
             [StockData("000937", "冀中能源"), StockData("000983", "山西焦煤"), StockData("600123", "兰花科创")])
  }

  function ThermalCoal(): ItemData
  {
    ItemData("动力煤", "763.75", "-4.83", [StockData("601918", "新集能源"), StockData("000937", "冀中能源")])
  }

  function Gold(): ItemData
  {
    ItemData("黄金", "766.83", "5.59", [StockData("600489", "中金黄金"), StockData("600547", "山东黄金")])
  }

  /** Two categories, three futures, one stock listed under both coals. */
  function SamplePage(): PageData
  {
    PageData(Some([CategoryData("能源", [CokingCoal(), ThermalCoal()]), CategoryData("有色", [Gold()])]))
  }

  function SampleListings(): seq<Listing>
  {
    [Listing("能源", CokingCoal()), Listing("能源", ThermalCoal()), Listing("有色", Gold())]
  }

  lemma SampleLoopOrder()
    ensures Listings(SamplePage().datas.value) == SampleListings()
  {
    var ds := SamplePage().datas.value;
    assert ds[..1][..0] == [];
    assert ds[..1] == [ds[0]];
  }

  /** The sample page is parsed from its three items, in that order. */
  lemma SampleParsed(p: PageData, ls: seq<Listing>)
    requires p == SamplePage() && ls == SampleListings()
    ensures ParsePageData(p).futures == StoreAll(ls)
    ensures ParsePageData(p).stockToFutures == LinkListings(ls)
  {
    SampleLoopOrder();
  }

  /** The sample items carry exactly three names. */
  lemma SampleCarries(ls: seq<Listing>, n: string)
    requires ls == SampleListings()
    ensures Carries(ls, n) <==> n in SampleNameSet()
  {
    if Carries(ls, n) {
      var i :| 0 <= i < |ls| && ls[i].item.name == n;
    }
    if n == "炼焦煤" { assert ls[0].item.name == n; }
    if n == "动力煤" { assert ls[1].item.name == n; }
    if n == "黄金" { assert ls[2].item.name == n; }
  }

  lemma SampleCarriesAll(ls: seq<Listing>)
    requires ls == SampleListings()
    ensures forall n :: Carries(ls, n) <==> n in SampleNameSet()
  {
    forall n
      ensures Carries(ls, n) <==> n in SampleNameSet()
    {
      SampleCarries(ls, n);
    }
  }

  /** The three sample futures. */
  function SampleNameSet(): set<string>
  {
    {"炼焦煤", "动力煤", "黄金"}
  }

  lemma SampleNameCount()
    ensures |SampleNameSet()| == 3
  {
  }

  /** The two coal futures. */
  function CoalSet(): set<string>
  {
    {"炼焦煤", "动力煤"}
  }

  lemma CoalCount()
    ensures |CoalSet()| == 2
  {
  }

  /** When the items carry exactly the non-empty names in `e`, those
      names are stored, each once. */
  lemma StoredExactly(ls: seq<Listing>, e: set<string>)
    requires "" !in e
    requires forall n :: Carries(ls, n) <==> n in e
    ensures forall n :: n in StoreAll(ls).entries <==> n in e
    ensures |StoreAll(ls).order| == |e|
  {
    var d := StoreAll(ls);
    forall n
      ensures n in d.entries <==> n in e
    {
      StoredNames(ls, n);
    }
    NoDupCount(d.order, e);
  }

  /** The sample items store exactly three futures. */
  lemma SampleStoredNames(ls: seq<Listing>)
    requires ls == SampleListings()
    ensures forall n :: n in StoreAll(ls).entries <==> n in SampleNameSet()
    ensures |StoreAll(ls).order| == |SampleNameSet()|
  {
    SampleCarriesAll(ls);
    StoredExactly(ls, SampleNameSet());
  }

  /** The sample page stores exactly its three futures. */
  lemma SampleFutures(p: PageData)
    requires p == SamplePage()
    ensures var d := ParsePageData(p).futures;
            && (forall n :: n in d.entries <==> n in SampleNameSet())
            && |d.order| == 3
  {
    var ls :| ls == SampleListings();
    SampleParsed(p, ls);
    SampleStoredNames(ls);
    SampleNameCount();
  }

  function CokingCoalStocks(): seq<StockInfo>
  {
    [StockInfo("000937", "冀中能源"), StockInfo("000983", "山西焦煤"), StockInfo("600123", "兰花科创")]
  }

  /** All three coking coal stocks are usable. */
  lemma CokingCoalRelated()
    ensures RelatedStocks(CokingCoal().scss) == CokingCoalStocks()
  {
    var scss := CokingCoal().scss;
    assert scss[..2][..1][..0] == [];
    assert scss[..2][..1] == [scss[0]];
    assert scss[..2] == [scss[0], scss[1]];
  }

  lemma SampleCokingRecord(ls: seq<Listing>)
    requires ls == SampleListings()
    ensures "炼焦煤" in StoreAll(ls).entries
    ensures StoreAll(ls).entries["炼焦煤"] == FutureInfo("炼焦煤", "能源", "1391.25", "-1.22", CokingCoalStocks())
  {
    assert LastNamed(ls, "炼焦煤", 0);
    StoredRecords(ls, "炼焦煤", 0);
    CokingCoalRelated();
  }

  /** The coking coal record is stored as listed, with its three stocks. */
  lemma SampleCokingCoal(p: PageData)
    requires p == SamplePage()
    ensures "炼焦煤" in ParsePageData(p).futures.entries
    ensures ParsePageData(p).futures.entries["炼焦煤"]
            == FutureInfo("炼焦煤", "能源", "1391.25", "-1.22", CokingCoalStocks())
  {
    var ls :| ls == SampleListings();
    SampleParsed(p, ls);
    SampleCokingRecord(ls);
  }

  /** Exactly the two coal items list 冀中能源. */
  lemma SampleListers(ls: seq<Listing>, f: string)
    requires ls == SampleListings()
    ensures ListedUnder(ls, "冀中能源", f) <==> f == "炼焦煤" || f == "动力煤"
  {
    assert ListsStock(ls[0].item.scss, "冀中能源") by {
      assert StockData("000937", "冀中能源") in ls[0].item.scss;
    }
    assert ListsStock(ls[1].item.scss, "冀中能源") by {
      assert StockData("000937", "冀中能源") in ls[1].item.scss;
    }
    assert !ListsStock(ls[2].item.scss, "冀中能源") by {
      assert forall d | d in ls[2].item.scss :: d.name != "冀中能源";
    }
    if f == "炼焦煤" { assert ls[0].item.name == f; }
    if f == "动力煤" { assert ls[1].item.name == f; }
  }

  lemma SampleListerSet(ls: seq<Listing>)
    requires ls == SampleListings()
    ensures forall f :: ListedUnder(ls, "冀中能源", f) <==> f in CoalSet()
  {
    forall f
      ensures ListedUnder(ls, "冀中能源", f) <==> f in CoalSet()
    {
      SampleListers(ls, f);
    }
  }

  /** When the items listing a stock carry exactly the names in `e`, the
      stock is linked to exactly those futures, each once. */
  lemma {:induction false} LinkedExactly(ls: seq<Listing>, stock: string, e: set<string>)
    requires "" !in e
    requires forall f :: ListedUnder(ls, stock, f) <==> f in e
    ensures forall f :: f in FuturesOf(LinkListings(ls), stock) <==> f in e
    ensures |FuturesOf(LinkListings(ls), stock)| == |e|
  {
    var m := LinkListings(ls);
    forall f
      ensures f in FuturesOf(m, stock) <==> f in e
    {
      StoredLinks(ls, stock, f);
    }
    if stock in m.entries {
      assert FuturesOf(m, stock) == m.entries[stock];
    }
    NoDupCount(FuturesOf(m, stock), e);
  }

  /** The sample items link 冀中能源 to both coals, once each. */
  lemma SampleLinks(ls: seq<Listing>)
    requires ls == SampleListings()
    ensures forall f :: f in FuturesOf(LinkListings(ls), "冀中能源") <==> f in CoalSet()
    ensures |FuturesOf(LinkListings(ls), "冀中能源")| == |CoalSet()|
  {
    SampleListerSet(ls);
    LinkedExactly(ls, "冀中能源", CoalSet());
  }

  /** On the sample page, 冀中能源 is linked to both coals, once each. */
  lemma SampleStockLinks(p: PageData)
    requires p == SamplePage()
    ensures var fs := FuturesOf(ParsePageData(p).stockToFutures, "冀中能源");
            && (forall f :: f in fs <==> f in CoalSet())
            && |fs| == 2
  {
    var ls :| ls == SampleListings();
    SampleParsed(p, ls);
    SampleLinks(ls);
    CoalCount();
  }
}
