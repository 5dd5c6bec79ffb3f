/** The Paris adapter: reads the store's catalogue search API, where each
    product carries its offer under `items[0].sellers[0].commertialOffer`. */
module Paris {
  import opened Prelude
  import opened Text
  import opened Json
  import opened Base
  import Listing

  const Store := "Paris"
  const SearchApi := "https://www.paris.cl/api/catalog_system/pub/products/search/"

  /** `[{}]`, the default of the `items` and `sellers` lookups. */
  const OneEmpty := Array([Object([])])

  // ------------------------------------------------------------ offer

  /** `v[0].get(key, default)`. */
  function FirstGet(v: Value, key: string, default: Value): Result<Value, PyError>
  {
    var first :- First(v);
    Get(first, key, default)
  }

  /** The commercial offer of a product: the first seller of its first SKU,
      with `{}` standing in for a missing level. */
  function Offer(item: Value): Result<Value, PyError>
  {
    var itemsData :- Get(item, "items", OneEmpty);
    var sellers :- if Truthy(itemsData) then FirstGet(itemsData, "sellers", OneEmpty) else Ok(OneEmpty);
    if Truthy(sellers) then FirstGet(sellers, "commertialOffer", Object([])) else Ok(Object([]))
  }

  /** `float(price) if price else None`. */
  function PriceOf(price: Value): (r: Result<Option<real>, PyError>)
    ensures r.Ok? ==> (r.value.Some? <==> Truthy(price))
    ensures Truthy(price) ==> r == (match ToFloat(price) case Ok(x) => Ok(Some(x)) case Err(e) => Err(e))
  {
    if Truthy(price) then
      var x :- ToFloat(price);
      Ok(Some(x))
    else Ok(None)
  }

  /** `float(original) if original and original != price else None`. */
  function OriginalOf(original: Value, price: Value): (r: Result<Option<real>, PyError>)
    ensures r.Ok? ==> (r.value.Some? <==> Truthy(original) && !PyEq(original, price))
  {
    if Truthy(original) && !PyEq(original, price) then
      var x :- ToFloat(original);
      Ok(Some(x))
    else Ok(None)
  }

  /** The amounts of an offer: `Price` is the price; `ListPrice` is reported
      as the original only when present and different from `Price`. */
  function OfferPrices(price: Value, original: Value): (r: Result<Prices, PyError>)
    ensures r.Ok? ==> (r.value.price.Some? <==> Truthy(price))
    ensures r.Ok? ==> (r.value.original.Some? <==> Truthy(original) && !PyEq(original, price))
  {
    var p :- PriceOf(price);
    var o :- OriginalOf(original, price);
    Ok(Prices(p, o))
  }

  /** Integer amounts are reported as they are; a list price equal to the
      price, or zero, is no original price, and a zero price is no price. */
  lemma IntegerOffer(price: int, listPrice: int)
    ensures OfferPrices(Int(price), Int(listPrice)) ==
      Ok(Prices(if price != 0 then Some(price as real) else None,
                if listPrice != 0 && listPrice != price then Some(listPrice as real) else None))
  {
  }

  /** A discount is visible only when both amounts are set and differ: then
      the original is strictly above the price exactly when `ListPrice` is. */
  lemma DiscountShown(price: int, listPrice: int)
    requires price != 0 && listPrice != 0 && listPrice != price
    ensures var r := OfferPrices(Int(price), Int(listPrice));
      r.Ok? && r.value.original.Some? && (r.value.original.value > r.value.price.value <==> listPrice > price)
  {
    IntegerOffer(price, listPrice);
  }

  /** The amounts as the source reads them from an item: the offer's `Price`
      and `ListPrice` (a `null` member reads as absent). */
  function ItemAmounts(item: Value): Result<(Value, Value), PyError>
  {
    var offer :- Offer(item);
    var price :- Get(offer, "Price", Null);
    var original :- Get(offer, "ListPrice", Null);
    Ok((price, original))
  }

  /** Whenever the `[{}]` defaults and the `if items_data` / `if sellers`
      guards leave no offer — `items` missing, empty or falsy, or the first
      SKU's `sellers` missing, empty or falsy — the empty offer is used: no
      price, no original, no error. */
  lemma NoSkusNoPrice(item: Value)
    requires Get(item, "items", OneEmpty).Ok?
    requires var skus := Get(item, "items", OneEmpty).value;
             || !Truthy(skus)
             || FirstGet(skus, "sellers", OneEmpty) == Ok(OneEmpty)
             || (FirstGet(skus, "sellers", OneEmpty).Ok? && !Truthy(FirstGet(skus, "sellers", OneEmpty).value))
    ensures ItemAmounts(item) == Ok((Null, Null))
    ensures OfferPrices(Null, Null) == Ok(Prices(None, None))
  {
    assert FirstGet(OneEmpty, "commertialOffer", Object([])) == Ok(Object([]));
    assert Get(Object([]), "Price", Null) == Ok(Null);
    assert Get(Object([]), "ListPrice", Null) == Ok(Null);
  }

  /** An object item without an `items` key takes the defaults all the way. */
  lemma NoItemsKey(item: Value)
    requires item.Object? && (forall i :: 0 <= i < |item.fields| ==> item.fields[i].0 != "items")
    ensures ItemAmounts(item) == Ok((Null, Null))
  {
    assert Get(item, "items", OneEmpty) == Ok(OneEmpty);
    assert FirstGet(OneEmpty, "sellers", OneEmpty) == Ok(OneEmpty);
    NoSkusNoPrice(item);
  }

  /** A first SKU with an empty `sellers` list gives the empty offer. */
  lemma NoSellersNoPrice(item: Value, sku: seq<(string, Value)>)
    requires Get(item, "items", OneEmpty) == Ok(Array([Object(sku)]))
    requires Get(Object(sku), "sellers", OneEmpty) == Ok(Array([]))
    ensures ItemAmounts(item) == Ok((Null, Null))
  {
    NoSkusNoPrice(item);
  }

  /** The `ProductPrice` built from a product that was read without error. */
  function Priced(name: Value, url: Value, prices: Prices, sku: Value, today: Date): (o: Observation)
    ensures o.store == Store && o.productName == name && o.url == url && o.date == today
    ensures o.price == prices.price && o.originalPrice == prices.original
    ensures o.currency == DefaultCurrency && o.sku == Some(sku) && o.error.None?
  {
    NewObservation(Store, name, url, prices.price, today).(originalPrice := prices.original, sku := Some(sku))
  }

  // ------------------------------------------------------------ slug

  /** The product slug of a URL: the segment after the last "/p/" (up to the
      next '/') when the URL contains "/p/", else the last path segment; a
      trailing '/' is ignored in both cases. */
  function Slug(url: string): (slug: string)
    ensures forall i :: 0 <= i < |slug| ==> slug[i] != '/'
  {
    if Contains(url, "/p/") then FirstPiece(LastPiece(RStrip(url, '/'), "/p/"), '/')
    else
      var last := LastPiece(RStrip(url, '/'), "/");
      NotContainedChar(last, '/');
      last
  }

  /** The product part of a URL: the text after a "/p/" marker that the
      left-to-right split does reach (the text before it does not end in
      "/p", which would make an earlier "/p/" swallow the marker's '/') and
      after which no "/p/" follows. A trailing '/', further segments and
      earlier markers are allowed. */
  lemma SlugOfProductUrl(url: string, base: string, tail: string)
    requires RStrip(url, '/') == base + "/p/" + tail
    requires !Contains(tail, "/p/")
    requires !(|base| >= 2 && base[|base| - 2..] == "/p")
    ensures Slug(url) == FirstPiece(tail, '/')
  {
    var stripped := RStrip(url, '/');
    assert OccursAt(url, "/p/", |base|) by {
      assert url[..|stripped|] == stripped;
      assert url[|base|..|base| + 3] == stripped[|base|..|base| + 3] == "/p/";
    }
    ContainsIff(url, "/p/");
    LastPieceAfterMarker(base, tail);
  }

  /** Splitting on "/p/" ends with `tail` when the marker after `base` is
      reached by the scan and no marker follows it. */
  lemma {:induction false} LastPieceAfterMarker(base: string, tail: string)
    requires !Contains(tail, "/p/")
    requires !(|base| >= 2 && base[|base| - 2..] == "/p")
    ensures LastPiece(base + "/p/" + tail, "/p/") == tail
    decreases |base|
  {
    var s := base + "/p/" + tail;
    var i := FirstMarker(base, tail);
    assert LastPiece(s, "/p/") == LastPiece(s[i + 3..], "/p/");
    if i == |base| {
      assert s[i + 3..] == tail;
      assert FindFrom(tail, "/p/", 0).None?;
    } else {
      var before := base[i + 3..];
      DropFromFront(base + "/p/", tail, i + 3);
      DropFromFront(base, "/p/", i + 3);
      assert !(|before| >= 2 && before[|before| - 2..] == "/p") by {
        if |before| >= 2 {
          assert before[|before| - 2..] == base[|base| - 2..];
        }
      }
      LastPieceAfterMarker(before, tail);
    }
  }

  /** Dropping a prefix of the front part of a concatenation. */
  lemma DropFromFront(a: string, b: string, k: nat)
    requires k <= |a|
    ensures (a + b)[k..] == a[k..] + b
  {
  }

  /** The scan's first marker is the one after `base`, or lies wholly
      inside `base`: it cannot straddle the two. */
  lemma FirstMarker(base: string, tail: string) returns (i: nat)
    requires !(|base| >= 2 && base[|base| - 2..] == "/p")
    ensures FindFrom(base + "/p/" + tail, "/p/", 0) == Some(i)
    ensures i == |base| || i + 3 <= |base|
  {
    var s := base + "/p/" + tail;
    assert s[|base|] == '/';
    if |base| >= 2 {
      assert base[|base| - 2..] == [base[|base| - 2], base[|base| - 1]];
    }
    assert OccursAt(s, "/p/", |base|) by {
      assert s[|base|..|base| + 3] == "/p/";
    }
    i := FindFrom(s, "/p/", 0).value;
    OccursAtStart(s, "/p/", i);
    if i == |base| - 1 || i == |base| - 2 {
      assert false;
    }
  }

  /** Python's split does not overlap matches: in "a/p/p/x" the "/p/" at 1
      is taken and the one at 3 is skipped, so the slug is "p", not "x". */
  lemma OverlappingMarker()
    ensures Slug("a/p/p/x") == "p"
  {
    var url := "a/p/p/x";
    assert url[1..4] == "/p/";
    assert Contains(url, "/p/") by {
      ContainsIff(url, "/p/");
    }
    assert RStrip(url, '/') == url;
    assert !OccursAt(url, "/p/", 0) by {
      assert url[0] == 'a';
      if OccursAt(url, "/p/", 0) {
        OccursAtStart(url, "/p/", 0);
        assert false;
      }
    }
    assert FindFrom(url, "/p/", 0) == Some(1);
    var rest := url[4..];
    assert rest == "p/x";
    assert !OccursAt(rest, "/p/", 0) by {
      assert rest[0] == 'p';
      if OccursAt(rest, "/p/", 0) {
        OccursAtStart(rest, "/p/", 0);
        assert false;
      }
    }
    assert FindFrom(rest, "/p/", 0).None?;
    assert FirstPiece(rest, '/') == "p";
  }

  lemma NoSlashNoMarker(s: string)
    requires forall i :: 0 <= i < |s| ==> s[i] != '/'
    ensures FindFrom(s, "/p/", 0).None?
  {
    forall j | 0 <= j ensures !OccursAt(s, "/p/", j) {
      if j + 3 <= |s| {
        assert s[j..j + 3][0] == s[j];
      }
    }
    ContainsIff(s, "/p/");
  }

  /** A URL without "/p/" yields its last path segment. */
  lemma SlugOfPlainUrl(base: string, slug: string)
    requires slug != [] && forall i :: 0 <= i < |slug| ==> slug[i] != '/'
    requires !Contains(base + "/" + slug, "/p/")
    ensures Slug(base + "/" + slug) == slug
  {
    var url := base + "/" + slug;
    assert url[|url| - 1] == slug[|slug| - 1];
    assert RStrip(url, '/') == url;
    LastPieceAfterLast(base, '/', slug);
  }

  lemma {:induction false} NoSlashFirstPiece(s: string)
    requires forall i :: 0 <= i < |s| ==> s[i] != '/'
    ensures FirstPiece(s, '/') == s
  {
    if s != [] {
      NoSlashFirstPiece(s[1..]);
    }
  }

  // ------------------------------------------------------------ scrape_url

  function ProductRequest(slug: string): Request
  {
    Request(SearchApi + slug + "/p", [])
  }

  /** The body of `scrape_url`'s `try`: the first product of the reply (or
      `{}` when the reply is empty). */
  function UrlAttempt(url: string, productName: string, fetch: Fetcher, today: Date): (r: Result<Observation, PyError>)
    ensures r.Ok? ==> r.value.store == Store && r.value.url == Str(url) && r.value.date == today
    ensures r.Ok? ==> r.value.error.None? && r.value.currency == DefaultCurrency
    ensures r.Ok? && productName != [] ==> r.value.productName == Str(productName)
  {
    var data :- Fetch(fetch, ProductRequest(Slug(url)));
    var item :- if Truthy(data) then First(data) else Ok(Object([]));
    var amounts :- ItemAmounts(item);
    var name :- if productName != [] then Ok(Str(productName)) else Get(item, "productName", Str(url));
    var prices :- OfferPrices(amounts.0, amounts.1);
    var sku :- Get(item, "productId", Str(""));
    Ok(Priced(name, Str(url), prices, sku, today))
  }

  /** `scrape_url(url, product_name)`: never raises; any exception becomes an
      observation with its text and no price. */
  function UrlObservation(url: string, productName: string, fetch: Fetcher, today: Date): (o: Observation)
    ensures o.store == Store && o.url == Str(url) && o.date == today && o.currency == DefaultCurrency
    ensures o.error.Some? ==> o.price.None? && o.originalPrice.None? && o.sku.None?
    ensures o.error.Some? ==> o.productName == Str(if productName != [] then productName else url)
    ensures o.error.None? && productName != [] ==> o.productName == Str(productName)
  {
    match UrlAttempt(url, productName, fetch, today)
    case Ok(obs) => obs
    case Err(e) => Failure(Store, Str(if productName != [] then productName else url), Str(url), e, today)
  }

  /** A reply that is empty (`[]`, `{}` or `null`) is read as an empty product:
      no price, named after the given name or the URL. */
  lemma EmptyReply(url: string, productName: string, fetch: Fetcher, today: Date)
    requires fetch(ProductRequest(Slug(url))).Ok? && !Truthy(fetch(ProductRequest(Slug(url))).value)
    ensures var o := UrlObservation(url, productName, fetch, today);
      o.error.None? && o.price.None? && o.originalPrice.None?
      && o.productName == Str(if productName != [] then productName else url)
      && o.sku == Some(Str(""))
  {
    NoSkusNoPrice(Object([]));
  }

  // ------------------------------------------------------------ search

  function SearchRequest(query: string, limit: int): Request
  {
    Request(SearchApi, [("ft", query), ("_from", "0"), ("_to", IntToString(limit - 1))])
  }

  /** What `for item in (data or [])[:limit]` visits. */
  function ListedItems(data: Value, limit: int): (r: Result<seq<Value>, PyError>)
    ensures r.Ok? && limit >= 0 ==> |r.value| <= limit
    ensures !Truthy(data) ==> r == Ok([])
  {
    var sliced :- SliceTo(if Truthy(data) then data else Array([]), limit);
    Elements(sliced)
  }

  /** One iteration of the search loop. */
  function ItemObservation(query: string, item: Value, today: Date): (r: Result<Observation, PyError>)
    ensures r.Ok? ==> r.value.store == Store && r.value.error.None? && r.value.date == today
  {
    var amounts :- ItemAmounts(item);
    var link :- Get(item, "link", Str(""));
    var name :- Get(item, "productName", Str(query));
    var prices :- OfferPrices(amounts.0, amounts.1);
    var sku :- Get(item, "productId", Str(""));
    Ok(Priced(name, link, prices, sku, today))
  }

  function ItemReader(query: string, today: Date): Value -> Result<Observation, PyError>
  {
    x => ItemObservation(query, x, today)
  }

  function SearchFailure(query: string, today: Date): PyError -> Observation
  {
    e => Failure(Store, Str(query), Str(""), e, today)
  }

  /** `search(query, limit)`: the observations of the first `limit` products,
      in order; an exception adds one error observation after those read. */
  function SearchResults(query: string, limit: int, fetch: Fetcher, today: Date): seq<Observation>
  {
    match Fetch(fetch, SearchRequest(query, limit))
    case Err(e) => [SearchFailure(query, today)(e)]
    case Ok(data) =>
      match ListedItems(data, limit)
      case Err(e) => [SearchFailure(query, today)(e)]
      case Ok(items) => Listing.Collect(items, ItemReader(query, today), SearchFailure(query, today))
  }

  method Search(query: string, limit: int, fetch: Fetcher, today: Date) returns (results: seq<Observation>)
    ensures results == SearchResults(query, limit, fetch, today)
  {
    var data := Fetch(fetch, SearchRequest(query, limit));
    if data.Err? {
      return [SearchFailure(query, today)(data.error)];
    }
    var listed := ListedItems(data.value, limit);
    if listed.Err? {
      return [SearchFailure(query, today)(listed.error)];
    }
    results := ReadItems(query, listed.value, today);
  }

  /** The loop of `search`, appending one observation per product. */
  method ReadItems(query: string, items: seq<Value>, today: Date) returns (results: seq<Observation>)
    ensures results == Listing.Collect(items, ItemReader(query, today), SearchFailure(query, today))
  {
    var onError := SearchFailure(query, today);
    var read := ItemReader(query, today);
    results := [];
    var i := 0;
    while i < |items|
      invariant 0 <= i <= |items|
      invariant results + Listing.Collect(items[i..], read, onError) == Listing.Collect(items, read, onError)
    {
      var o := ItemObservation(query, items[i], today);
      assert read(items[i]) == o;
      if o.Err? {
        Listing.CollectStop(items, i, read, onError);
        return results + [onError(o.error)];
      }
      Listing.CollectStep(items, i, read, onError);
      results := results + [o.value];
      i := i + 1;
    }
    assert items[i..] == [];
  }

  /** Every search observation is Paris's; only the last can carry an
      error, and with a non-negative `limit` there are at most `limit` item
      observations besides it. */
  lemma SearchBounds(query: string, limit: int, fetch: Fetcher, today: Date)
    ensures var r := SearchResults(query, limit, fetch, today);
      && (forall i :: 0 <= i < |r| ==> r[i].store == Store)
      && (forall i :: 0 <= i < |r| - 1 ==> r[i].error.None?)
      && (limit >= 0 ==> |r| <= limit || (|r| == 1 && r[0].error.Some?))
  {
    match Fetch(fetch, SearchRequest(query, limit))
    case Err(e) =>
    case Ok(data) =>
      match ListedItems(data, limit)
      case Err(e) =>
      case Ok(items) =>
        var read := ItemReader(query, today);
        var onError := SearchFailure(query, today);
        assert forall x :: read(x) == ItemObservation(query, x, today);
        assert forall e :: onError(e) == Failure(Store, Str(query), Str(""), e, today);
        Listing.CollectFromOneStore(items, read, onError, Store);
        assert SearchResults(query, limit, fetch, today) == Listing.Collect(items, read, onError);
  }

  /** An empty reply (`[]`, `{}` or `null`) gives no observation at all. */
  lemma EmptySearchReply(query: string, limit: int, fetch: Fetcher, today: Date)
    requires fetch(SearchRequest(query, limit)).Ok? && !Truthy(fetch(SearchRequest(query, limit)).value)
    ensures SearchResults(query, limit, fetch, today) == []
  {
    assert Fetch(fetch, SearchRequest(query, limit)) == Ok(fetch(SearchRequest(query, limit)).value);
  }
}
