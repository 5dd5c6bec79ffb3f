/** The Sodimac adapter: reads the store's JSON search and product endpoints,
    where a product's `prices` object holds an internet and a normal price. */
module Sodimac {
  import opened Prelude
  import opened Text
  import opened Json
  import opened Base
  import Listing

  const Store := "Sodimac"
  const SearchApi := "https://www.sodimac.cl/sodimac-cl/search/results"
  const ProductPage := "https://www.sodimac.cl/sodimac-cl/product/"
  const InvalidUrl := "URL no válida para Sodimac"

  // ------------------------------------------------------------ prices

  /** The raw amounts of a `prices` object: the internet price when truthy,
      else the normal price; the normal price is the original only when an
      internet price is set. */
  function Amounts(prices: Value): Result<(Value, Value), PyError>
  {
    var internet :- Get(prices, "internetPrice", Null);
    var normal :- Get(prices, "normalPrice", Null);
    if Truthy(internet) then Ok((internet, normal)) else Ok((normal, Null))
  }

  /** `float(x) if x else None`. */
  function FloatIf(x: Value): (r: Result<Option<real>, PyError>)
    ensures r.Ok? ==> (r.value.Some? <==> Truthy(x))
    ensures x.Int? ==> r == Ok(if x.i != 0 then Some(x.i as real) else None)
  {
    if Truthy(x) then
      var f :- ToFloat(x);
      Ok(Some(f))
    else Ok(None)
  }

  function AmountPrices(amounts: (Value, Value)): Result<Prices, PyError>
  {
    var p :- FloatIf(amounts.0);
    var o :- FloatIf(amounts.1);
    Ok(Prices(p, o))
  }

  /** With integer amounts: the price is the internet price, or the normal
      price when there is no internet price; the original is the normal price
      only beside an internet price (even when it is not higher). */
  lemma IntegerPrices(internet: int, normal: int)
    ensures var prices := Object([("internetPrice", Int(internet)), ("normalPrice", Int(normal))]);
      var r := Amounts(prices);
      r.Ok? && AmountPrices(r.value) == Ok(Prices(
        if internet != 0 then Some(internet as real) else if normal != 0 then Some(normal as real) else None,
        if internet != 0 && normal != 0 then Some(normal as real) else None))
  {
    var prices := Object([("internetPrice", Int(internet)), ("normalPrice", Int(normal))]);
    LookupUnique(prices.fields, 0);
    LookupUnique(prices.fields, 1);
  }

  /** An original price is reported only when an internet price is. */
  lemma OriginalNeedsInternetPrice(prices: Value)
    requires Amounts(prices).Ok? && AmountPrices(Amounts(prices).value).Ok?
    ensures AmountPrices(Amounts(prices).value).value.original.Some? ==>
      Truthy(Get(prices, "internetPrice", Null).value)
  {
  }

  // ------------------------------------------------------------ product id

  const Marker := "/product/"

  /** End of the run of characters other than '/' that starts at `k`. */
  function SegmentEnd(s: string, k: nat): (e: nat)
    requires k <= |s|
    decreases |s| - k
    ensures k <= e <= |s|
    ensures forall j :: k <= j < e ==> s[j] != '/'
    ensures e < |s| ==> s[e] == '/'
  {
    if k < |s| && s[k] != '/' then SegmentEnd(s, k + 1) else k
  }

  /** `re.search(r"/product/([^/]+)", url)` can match at `i`: the marker and
      at least one character other than '/'. */
  predicate IdMatchAt(url: string, i: int)
  {
    OccursAt(url, Marker, i) && i + |Marker| < |url| && url[i + |Marker|] != '/'
  }

  function IdMatchFrom(url: string, from: nat): (r: Option<nat>)
    decreases |url| - from
    ensures r.Some? ==> from <= r.value && IdMatchAt(url, r.value)
    ensures r.Some? ==> forall j :: from <= j < r.value ==> !IdMatchAt(url, j)
    ensures r.None? ==> forall j :: from <= j ==> !IdMatchAt(url, j)
  {
    if from + |Marker| >= |url| then None
    else if IdMatchAt(url, from) then Some(from)
    else IdMatchFrom(url, from + 1)
  }

  /** `match.group(1)`: the whole path segment after the leftmost
      "/product/" that is followed by one. */
  function ProductId(url: string): (pid: Option<string>)
    ensures pid.Some? ==> pid.value != [] && forall i :: 0 <= i < |pid.value| ==> pid.value[i] != '/'
    ensures pid.Some? ==> exists i :: (IdMatchAt(url, i) && (forall j :: 0 <= j < i ==> !IdMatchAt(url, j))
      && pid.value == url[i + |Marker|..SegmentEnd(url, i + |Marker|)])
    ensures pid.None? <==> forall j :: 0 <= j ==> !IdMatchAt(url, j)
  {
    match IdMatchFrom(url, 0)
    case None => None
    case Some(i) => Some(url[i + |Marker|..SegmentEnd(url, i + |Marker|)])
  }

  /** A product page URL ".../product/<id>" or ".../product/<id>/<more>"
      gives its id, when no earlier position matches. */
  lemma ProductIdOfPage(base: string, pid: string, rest: string)
    requires pid != [] && forall i :: 0 <= i < |pid| ==> pid[i] != '/'
    requires rest == [] || rest[0] == '/'
    requires forall j :: 0 <= j < |base| ==> !IdMatchAt(base + Marker + pid + rest, j)
    ensures ProductId(base + Marker + pid + rest) == Some(pid)
  {
    var url := base + Marker + pid + rest;
    var k := |base| + |Marker|;
    assert url[|base|..k] == Marker;
    assert url[k] == pid[0];
    assert IdMatchAt(url, |base|);
    forall j | k <= j < k + |pid| ensures url[j] != '/' {
      assert url[j] == pid[j - k];
    }
    SegmentEndSkip(url, k, |pid|);
    if rest != [] {
      assert url[k + |pid|] == rest[0];
    }
    assert SegmentEnd(url, k + |pid|) == k + |pid|;
    assert url[k..k + |pid|] == pid;
  }

  /** A run of characters other than '/' is skipped over by `SegmentEnd`. */
  lemma {:induction false} SegmentEndSkip(s: string, k: nat, n: nat)
    requires k + n <= |s|
    requires forall j :: k <= j < k + n ==> s[j] != '/'
    ensures SegmentEnd(s, k) == SegmentEnd(s, k + n)
    decreases n
  {
    if n > 0 {
      SegmentEndSkip(s, k + 1, n - 1);
    }
  }

  /** The site part of a product page URL, before the marker. */
  const Site := "https://www.sodimac.cl/sodimac-cl"

  /** No match starts inside the site part: every '/' in it is followed by
      something other than 'p'. */
  lemma SiteHasNoMatch(rest: string)
    ensures forall j :: 0 <= j < |Site| ==> !IdMatchAt(Site + Marker + rest, j)
  {
    var url := Site + Marker + rest;
    forall j | 0 <= j < |Site| ensures !IdMatchAt(url, j) {
      if OccursAt(url, Marker, j) {
        OccursAtStart(url, Marker, j);
        assert false;
      }
    }
  }

  /** The page URL that `search` builds for an item reads back, through
      `scrape_url`'s pattern, as the item's id. */
  lemma ItemUrlRoundTrip(pid: string)
    requires pid != [] && forall i :: 0 <= i < |pid| ==> pid[i] != '/'
    ensures ProductId(ItemUrl(Str(pid))) == Some(pid)
  {
    assert ProductPage == Site + Marker;
    SiteHasNoMatch(pid);
    assert Site + Marker + pid + [] == Site + Marker + pid;
    ProductIdOfPage(Site, pid, []);
  }

  // ------------------------------------------------------------ scrape_url

  function ProductRequest(pid: string): Request
  {
    Request(ProductPage + pid + "/json", [])
  }

  function Priced(name: Value, url: Value, prices: Prices, sku: string, today: Date): (o: Observation)
    ensures o.store == Store && o.productName == name && o.url == url && o.date == today
    ensures o.price == prices.price && o.originalPrice == prices.original
    ensures o.currency == DefaultCurrency && o.sku == Some(Str(sku)) && o.error.None?
  {
    NewObservation(Store, name, url, prices.price, today).(originalPrice := prices.original, sku := Some(Str(sku)))
  }

  /** The body of `scrape_url`'s `try`. */
  function UrlAttempt(url: string, productName: string, fetch: Fetcher, today: Date): (r: Result<Observation, PyError>)
    ensures r.Ok? ==> r.value.store == Store && r.value.url == Str(url) && r.value.date == today
    ensures r.Ok? ==> r.value.error.None? && ProductId(url).Some? && r.value.sku == Some(Str(ProductId(url).value))
    ensures r.Ok? && productName != [] ==> r.value.productName == Str(productName)
  {
    match ProductId(url)
    case None => Err(ValueError(InvalidUrl))
    case Some(pid) =>
      var data :- Fetch(fetch, ProductRequest(pid));
      var prices :- Get(data, "prices", Object([]));
      var amounts :- Amounts(prices);
      var name :- if productName != [] then Ok(Str(productName)) else Get(data, "name", Str(url));
      var picked :- AmountPrices(amounts);
      Ok(Priced(name, Str(url), picked, pid, today))
  }

  /** `scrape_url(url, product_name)`: never raises. A URL without a
      "/product/<id>" segment, a failed request or a malformed document gives
      an observation with the error text and no price. */
  function UrlObservation(url: string, productName: string, fetch: Fetcher, today: Date): (o: Observation)
    ensures o.store == Store && o.url == Str(url) && o.date == today
    ensures o.error.Some? ==> o.price.None? && o.originalPrice.None? && o.sku.None?
    ensures o.error.Some? ==> o.productName == Str(if productName != [] then productName else url)
    ensures ProductId(url).None? ==> o.error == Some(InvalidUrl)
    ensures o.error.None? ==> ProductId(url).Some? && o.sku == Some(Str(ProductId(url).value))
  {
    match UrlAttempt(url, productName, fetch, today)
    case Ok(obs) => obs
    case Err(e) => Failure(Store, Str(if productName != [] then productName else url), Str(url), e, today)
  }

  // ------------------------------------------------------------ search

  function SearchRequest(query: string, limit: int): Request
  {
    Request(SearchApi, [("Ntt", query), ("No", "0"), ("Nrpp", IntToString(limit)), ("sortBy", "Default"), ("v", "json")])
  }

  /** What `for item in items[:limit]` visits, `items` being the results of
      the first result set. */
  function ListedItems(data: Value, limit: int): (r: Result<seq<Value>, PyError>)
    ensures r.Ok? && limit >= 0 ==> |r.value| <= limit
  {
    var inner :- Get(data, "data", Object([]));
    var searchResults :- Get(inner, "searchResults", Object([]));
    var resultSets :- Get(searchResults, "resultsets", Array([Object([])]));
    var first :- First(resultSets);
    var results :- Get(first, "results", Array([]));
    var sliced :- SliceTo(results, limit);
    Elements(sliced)
  }

  /** The product page of a listed item: ".../product/{id}" when the id is
      truthy, "" otherwise. */
  function ItemUrl(pid: Value): string
  {
    if Truthy(pid) then ProductPage + ToText(pid) else ""
  }

  /** One iteration of the search loop. */
  function ItemObservation(query: string, item: Value, today: Date): (r: Result<Observation, PyError>)
    ensures r.Ok? ==> r.value.store == Store && r.value.error.None? && r.value.date == today
  {
    var prices :- Get(item, "prices", Object([]));
    var amounts :- Amounts(prices);
    var pid :- Get(item, "id", Str(""));
    var name :- Get(item, "name", Str(query));
    var picked :- AmountPrices(amounts);
    Ok(Priced(name, Str(ItemUrl(pid)), picked, ToText(pid), today))
  }

  function ItemReader(query: string, today: Date): Value -> Result<Observation, PyError>
  {
    x => ItemObservation(query, x, today)
  }

  function SearchFailure(query: string, today: Date): PyError -> Observation
  {
    e => Failure(Store, Str(query), Str(""), e, today)
  }

  /** `search(query, limit)`: the observations of the first `limit` results,
      in order; an exception adds one error observation after those read. */
  function SearchResults(query: string, limit: int, fetch: Fetcher, today: Date): seq<Observation>
  {
    match Fetch(fetch, SearchRequest(query, limit))
    case Err(e) => [SearchFailure(query, today)(e)]
    case Ok(data) =>
      match ListedItems(data, limit)
      case Err(e) => [SearchFailure(query, today)(e)]
      case Ok(items) => Listing.Collect(items, ItemReader(query, today), SearchFailure(query, today))
  }

  method Search(query: string, limit: int, fetch: Fetcher, today: Date) returns (results: seq<Observation>)
    ensures results == SearchResults(query, limit, fetch, today)
  {
    var data := Fetch(fetch, SearchRequest(query, limit));
    if data.Err? {
      return [SearchFailure(query, today)(data.error)];
    }
    var listed := ListedItems(data.value, limit);
    if listed.Err? {
      return [SearchFailure(query, today)(listed.error)];
    }
    results := ReadItems(query, listed.value, today);
  }

  /** The loop of `search`, appending one observation per result. */
  method ReadItems(query: string, items: seq<Value>, today: Date) returns (results: seq<Observation>)
    ensures results == Listing.Collect(items, ItemReader(query, today), SearchFailure(query, today))
  {
    var onError := SearchFailure(query, today);
    var read := ItemReader(query, today);
    results := [];
    var i := 0;
    while i < |items|
      invariant 0 <= i <= |items|
      invariant results + Listing.Collect(items[i..], read, onError) == Listing.Collect(items, read, onError)
    {
      var o := ItemObservation(query, items[i], today);
      assert read(items[i]) == o;
      if o.Err? {
        Listing.CollectStop(items, i, read, onError);
        return results + [onError(o.error)];
      }
      Listing.CollectStep(items, i, read, onError);
      results := results + [o.value];
      i := i + 1;
    }
    assert items[i..] == [];
  }

  /** Every search observation is Sodimac's; only the last can carry an
      error, and with a non-negative `limit` there are at most `limit` item
      observations besides it. */
  lemma SearchBounds(query: string, limit: int, fetch: Fetcher, today: Date)
    ensures var r := SearchResults(query, limit, fetch, today);
      && (forall i :: 0 <= i < |r| ==> r[i].store == Store)
      && (forall i :: 0 <= i < |r| - 1 ==> r[i].error.None?)
      && (limit >= 0 ==> |r| <= limit || (|r| == 1 && r[0].error.Some?))
  {
    match Fetch(fetch, SearchRequest(query, limit))
    case Err(e) =>
    case Ok(data) =>
      match ListedItems(data, limit)
      case Err(e) =>
      case Ok(items) =>
        var read := ItemReader(query, today);
        var onError := SearchFailure(query, today);
        assert forall x :: read(x) == ItemObservation(query, x, today);
        assert forall e :: onError(e) == Failure(Store, Str(query), Str(""), e, today);
        Listing.CollectFromOneStore(items, read, onError, Store);
        assert SearchResults(query, limit, fetch, today) == Listing.Collect(items, read, onError);
  }
}
