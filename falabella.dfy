/** The Falabella adapter: reads the store's JSON browse API. Prices arrive as
    a list of labelled entries whose amounts are text. */
module Falabella {
  import opened Prelude
  import opened Text
  import opened Json
  import opened Base
  import Listing

  const Store := "Falabella"
  const Zone := "RM_13_1"
  const ListingApi := "https://www.falabella.com/s/browse/v1/listing/cl"
  const ProductApi := "https://www.falabella.com/s/browse/v1/product/cl/"
  const ProductPage := "https://www.falabella.com/falabella-cl/product/"
  const InvalidUrl := "URL no válida para Falabella"

  // ------------------------------------------------------------ amounts

  /** `_parse_price(val)`: `None` stays `None`; otherwise every character of
      `str(val)` that is neither a digit nor '.' is removed and the rest read
      by `float`, which raises on "" or on a second '.'; zero becomes `None`. */
  function ParsePrice(val: Value): (r: Result<Option<real>, PyError>)
    ensures val.Null? ==> r == Ok(None)
    ensures r.Ok? && r.value.Some? ==> r.value.value > 0.0
  {
    if val.Null? then Ok(None)
    else
      var cleaned := KeepDigitsDots(ToText(val));
      match Numeral(cleaned)
      case None => Err(ValueError("could not convert string to float: " + Repr(Str(cleaned))))
      case Some(x) => Ok(if x == 0.0 then None else Some(x))
  }

  /** A JSON integer is read as its absolute value (the sign is stripped with
      the other non-digits); zero is no price. */
  lemma ParsePriceOfInt(n: int)
    ensures ParsePrice(Int(n)) == Ok(if n == 0 then None else Some((if n < 0 then -n else n) as real))
  {
    var m := if n < 0 then -n else n;
    var cleaned := KeepDigitsDots(ToText(Int(n)));
    assert cleaned == NatToString(m) by {
      IntToStringCleaned(n);
    }
    NumeralOfDigits(cleaned);
    NatToStringRoundTrip(m);
    assert Numeral(cleaned) == Some(m as real);
  }

  /** Text without a '.' is read as the integer its digits spell, whatever
      currency signs or spaces surround them ("$ 1990" is 1990); text with no
      digit at all makes `float` raise. */
  lemma ParsePriceOfUndottedText(s: string)
    requires forall i :: 0 <= i < |s| ==> s[i] != '.'
    ensures KeepDigits(s) == [] ==> ParsePrice(Str(s)).Err?
    ensures KeepDigits(s) != [] ==>
      var v := DigitsValue(KeepDigits(s));
      ParsePrice(Str(s)) == Ok(if v == 0 then None else Some(v as real))
  {
    KeepDigitsDotsWithoutDot(s);
    assert KeepDigitsDots(ToText(Str(s))) == KeepDigits(s);
    if KeepDigits(s) != [] {
      NumeralOfDigits(KeepDigits(s));
      ParsePriceOfNumeral(Str(s), DigitsValue(KeepDigits(s)) as real);
    } else {
      assert Numeral([]) == None;
      ParsePriceOfBadNumeral(Str(s));
    }
  }

  /** The '.' is a decimal point, not a thousands separator: "1.234" is 1.234. */
  lemma ParsePriceOfDecimal(whole: string, frac: string)
    requires AllDigits(whole) && AllDigits(frac) && (whole != [] || frac != [])
    ensures
      var v := DecimalValue(whole, frac);
      ParsePrice(Str(whole + "." + frac)) == Ok(if v == 0.0 then None else Some(v))
  {
    DottedIsClean(whole, frac);
    NumeralOfDotted(whole, frac);
    ParsePriceOfNumeral(Str(whole + "." + frac), DecimalValue(whole, frac));
  }

  lemma NumeralOfDotted(whole: string, frac: string)
    requires AllDigits(whole) && AllDigits(frac) && (whole != [] || frac != [])
    ensures Numeral(whole + "." + frac) == Some(DecimalValue(whole, frac))
  {
    var s := whole + "." + frac;
    DottedIsClean(whole, frac);
    FirstDotAt(whole, frac);
    assert s[..|whole|] == whole && s[|whole| + 1..] == frac;
    NoDotInDigits(frac);
    NumeralOfDecimal(s, |whole|);
  }

  /** Digits around one '.' pass the digit-and-dot filter unchanged. */
  lemma DottedIsClean(whole: string, frac: string)
    requires AllDigits(whole) && AllDigits(frac)
    ensures KeepDigitsDots(whole + "." + frac) == whole + "." + frac
  {
    var s := whole + "." + frac;
    forall i | 0 <= i < |s| ensures IsDigitOrDot(s[i]) {
      if i < |whole| { assert s[i] == whole[i]; }
      else if i > |whole| { assert s[i] == frac[i - |whole| - 1]; }
    }
    KeepDigitsDotsOfClean(s);
  }

  lemma ParsePriceOfNumeral(val: Value, x: real)
    requires !val.Null? && Numeral(KeepDigitsDots(ToText(val))) == Some(x)
    ensures ParsePrice(val) == Ok(if x == 0.0 then None else Some(x))
  {
  }

  lemma ParsePriceOfBadNumeral(val: Value)
    requires !val.Null? && Numeral(KeepDigitsDots(ToText(val))).None?
    ensures ParsePrice(val).Err?
  {
  }

  lemma NumeralOfDecimal(s: string, k: nat)
    requires forall i :: 0 <= i < |s| ==> IsDigitOrDot(s[i])
    requires FindFrom(s, ".", 0) == Some(k)
    requires AllDigits(s[..k]) && AllDigits(s[k + 1..]) && !Contains(s[k + 1..], ".")
    requires s[..k] != [] || s[k + 1..] != []
    ensures Numeral(s) == Some(DecimalValue(s[..k], s[k + 1..]))
  {
  }

  /** A second '.' (as in "1.234.567") makes `float` raise. */
  lemma ParsePriceOfTwoDots(a: string, b: string, c: string)
    requires AllDigits(a) && AllDigits(b) && AllDigits(c)
    ensures ParsePrice(Str(a + "." + b + "." + c)).Err?
  {
    var rest := b + "." + c;
    var s := a + "." + rest;
    assert s == a + "." + b + "." + c;
    DottedIsClean(b, c);
    DottedIsClean(a, []);
    assert a + "." + [] == a + ".";
    KeepDigitsDotsAppend(a + ".", rest);
    assert a + "." + rest == (a + ".") + rest;
    FirstDotAt(a, rest);
    assert s[|a| + 1..] == rest;
    assert OccursAt(rest, ".", |b|) by {
      assert rest[|b|..|b| + 1] == ".";
    }
    ContainsIff(rest, ".");
    NumeralOfTwoDots(s, |a|);
    ParsePriceOfBadNumeral(Str(s));
  }

  lemma NumeralOfTwoDots(s: string, k: nat)
    requires FindFrom(s, ".", 0) == Some(k)
    requires Contains(s[k + 1..], ".")
    ensures Numeral(s) == None
  {
  }

  lemma FirstDotAt(whole: string, rest: string)
    requires AllDigits(whole)
    ensures FindFrom(whole + "." + rest, ".", 0) == Some(|whole|)
  {
    var s := whole + "." + rest;
    assert OccursAt(s, ".", |whole|);
    forall j | 0 <= j < |whole| ensures !OccursAt(s, ".", j) {
      assert s[j..j + 1] == [whole[j]];
    }
  }

  lemma NoDotInDigits(s: string)
    requires AllDigits(s)
    ensures !Contains(s, ".")
  {
    ContainsIff(s, ".");
    forall j | 0 <= j < |s| ensures !OccursAt(s, ".", j) {
      assert s[j..j + 1] == [s[j]];
    }
  }

  // ------------------------------------------------------------ labelled entries

  /** What an entry's lower-cased label makes of its amount. */
  datatype Kind = Current | Original | Other

  function KindOf(tag: string): Kind
  {
    if Contains(tag, "internet") || Contains(tag, "cmr") then Current
    else if Contains(tag, "normal") then Original
    else Other
  }

  /** One entry as the loop body reads it: `p.get("label", "").lower()`, then
      `_parse_price(p.get("price"))` (computed for every entry). */
  function ReadEntry(p: Value): Result<(Kind, Option<real>), PyError>
  {
    var tag :- Get(p, "label", Str(""));
    var lowered :- Lower(tag);
    var amount :- Get(p, "price", Null);
    var val :- ParsePrice(amount);
    Ok((KindOf(lowered), val))
  }

  function Step(acc: Prices, entry: (Kind, Option<real>)): Prices
  {
    match entry.0
    case Current => acc.(price := entry.1)
    case Original => acc.(original := entry.1)
    case Other => acc
  }

  /** The loop over the entries, from the accumulated `acc`; the first entry
      that raises ends it. */
  function Scan(entries: seq<Value>, acc: Prices): Result<Prices, PyError>
  {
    if entries == [] then Ok(acc)
    else
      var entry :- ReadEntry(entries[0]);
      Scan(entries[1..], Step(acc, entry))
  }

  /** The prices of an item: the entry loop, then the fallback to the first
      entry when no price was set (`if price is None and prices`). */
  function ItemPrices(prices: Value): Result<Prices, PyError>
  {
    var entries :- Elements(prices);
    var scanned :- Scan(entries, Prices(None, None));
    if scanned.price.None? && Truthy(prices) then
      var first :- First(prices);
      var amount :- Get(first, "price", Null);
      var p :- ParsePrice(amount);
      Ok(scanned.(price := p))
    else Ok(scanned)
  }

  /** The loop as the source runs it, overwriting `price` and `original`. */
  method PickPrices(prices: Value) returns (r: Result<Prices, PyError>)
    ensures r == ItemPrices(prices)
  {
    var elements := Elements(prices);
    if elements.Err? {
      return Err(elements.error);
    }
    var entries := elements.value;
    var price: Option<real> := None;
    var original: Option<real> := None;
    var i := 0;
    while i < |entries|
      invariant 0 <= i <= |entries|
      invariant Scan(entries, Prices(None, None)) == Scan(entries[i..], Prices(price, original))
    {
      assert entries[i..][1..] == entries[i + 1..];
      var entry := ReadEntry(entries[i]);
      if entry.Err? {
        return Err(entry.error);
      }
      match entry.value.0 {
        case Current => price := entry.value.1;
        case Original => original := entry.value.1;
        case Other =>
      }
      i := i + 1;
    }
    if price.None? && Truthy(prices) {
      var first := First(prices);
      if first.Err? {
        return Err(first.error);
      }
      var amount := Get(first.value, "price", Null);
      if amount.Err? {
        return Err(amount.error);
      }
      var p := ParsePrice(amount.value);
      if p.Err? {
        return Err(p.error);
      }
      price := p.value;
    }
    return Ok(Prices(price, original));
  }

  // Reference reading of the loop: every entry is read, and the last entry
  // of each kind decides that price.

  function ReadAll(entries: seq<Value>): Result<seq<(Kind, Option<real>)>, PyError>
  {
    if entries == [] then Ok([])
    else
      var entry :- ReadEntry(entries[0]);
      var rest :- ReadAll(entries[1..]);
      Ok([entry] + rest)
  }

  /** The amount of the last entry of kind `k`, or `d` when there is none. */
  function LastOf(read: seq<(Kind, Option<real>)>, k: Kind, d: Option<real>): Option<real>
  {
    if read == [] then d
    else if read[|read| - 1].0 == k then read[|read| - 1].1
    else LastOf(read[..|read| - 1], k, d)
  }

  function Apply(read: seq<(Kind, Option<real>)>, acc: Prices): Prices
  {
    if read == [] then acc else Apply(read[1..], Step(acc, read[0]))
  }

  lemma {:induction false} ApplySnoc(read: seq<(Kind, Option<real>)>, acc: Prices)
    requires read != []
    ensures Apply(read, acc) == Step(Apply(read[..|read| - 1], acc), read[|read| - 1])
  {
    if |read| > 1 {
      assert read[1..][..|read[1..]| - 1] == read[..|read| - 1][1..];
      ApplySnoc(read[1..], Step(acc, read[0]));
    }
  }

  lemma {:induction false} ApplyIsLastWins(read: seq<(Kind, Option<real>)>, acc: Prices)
    ensures Apply(read, acc) == Prices(LastOf(read, Current, acc.price), LastOf(read, Original, acc.original))
  {
    if read != [] {
      ApplySnoc(read, acc);
      ApplyIsLastWins(read[..|read| - 1], acc);
    }
  }

  lemma {:induction false} ScanIsApply(entries: seq<Value>, acc: Prices)
    ensures Scan(entries, acc) == (match ReadAll(entries)
                                    case Err(e) => Err(e)
                                    case Ok(read) => Ok(Apply(read, acc)))
  {
    if entries != [] {
      match ReadEntry(entries[0])
      case Err(_) =>
      case Ok(entry) =>
        ScanIsApply(entries[1..], Step(acc, entry));
        match ReadAll(entries[1..])
        case Err(_) =>
        case Ok(rest) => assert ([entry] + rest)[1..] == rest;
    }
  }

  /** The entry loop reads every entry (the first one that raises is the
      error), and then the price is that of the last entry labelled
      "internet" or "cmr" and the original that of the last entry labelled
      "normal" but neither of those: later entries overwrite earlier ones. */
  lemma ScanIsLastWins(entries: seq<Value>)
    ensures Scan(entries, Prices(None, None)) == (match ReadAll(entries)
      case Err(e) => Err(e)
      case Ok(read) => Ok(Prices(LastOf(read, Current, None), LastOf(read, Original, None))))
  {
    ScanIsApply(entries, Prices(None, None));
    if ReadAll(entries).Ok? {
      ApplyIsLastWins(ReadAll(entries).value, Prices(None, None));
    }
  }

  /** For a non-empty list whose entries all read: with no labelled current
      price the price falls back to the first entry's amount; otherwise it is
      the last labelled one. The original is the last "normal" entry's. */
  lemma ItemPricesChoice(entries: seq<Value>)
    requires entries != [] && ReadAll(entries).Ok?
    ensures
      var read := ReadAll(entries).value;
      var labelled := LastOf(read, Current, None);
      ItemPrices(Array(entries)) == (
        if labelled.None? then
          Ok(Prices(ParsePrice(Get(entries[0], "price", Null).value).value, LastOf(read, Original, None)))
        else Ok(Prices(labelled, LastOf(read, Original, None))))
  {
    ScanIsLastWins(entries);
    var first := ReadEntry(entries[0]);
    assert first.Ok?;
  }

  // ------------------------------------------------------------ product id

  const Marker := "/product/"

  /** End of the run of digits that starts at `k`. */
  function DigitRunEnd(s: string, k: nat): (e: nat)
    requires k <= |s|
    decreases |s| - k
    ensures k <= e <= |s|
    ensures forall j :: k <= j < e ==> IsDigit(s[j])
    ensures e < |s| ==> !IsDigit(s[e])
  {
    if k < |s| && IsDigit(s[k]) then DigitRunEnd(s, k + 1) else k
  }

  /** `re.search(r"/product/(\d+)/", url)` can match at `i`: the marker, then
      a digit run that (being greedy) must end just before a '/'. */
  predicate IdMatchAt(url: string, i: int)
  {
    OccursAt(url, Marker, i)
    && var k := i + |Marker|;
    var e := DigitRunEnd(url, k);
    k < e < |url| && url[e] == '/'
  }

  /** The leftmost position at or after `from` where the pattern matches. */
  function IdMatchFrom(url: string, from: nat): (r: Option<nat>)
    decreases |url| - from
    ensures r.Some? ==> from <= r.value && IdMatchAt(url, r.value)
    ensures r.Some? ==> forall j :: from <= j < r.value ==> !IdMatchAt(url, j)
    ensures r.None? ==> forall j :: from <= j ==> !IdMatchAt(url, j)
  {
    if from + |Marker| > |url| then None
    else if IdMatchAt(url, from) then Some(from)
    else IdMatchFrom(url, from + 1)
  }

  /** `match.group(1)`: the digits of the leftmost match. */
  function ProductId(url: string): (pid: Option<string>)
    ensures pid.Some? ==> pid.value != [] && AllDigits(pid.value)
    ensures pid.Some? ==> exists i :: (IdMatchAt(url, i) && (forall j :: 0 <= j < i ==> !IdMatchAt(url, j))
      && pid.value == url[i + |Marker|..DigitRunEnd(url, i + |Marker|)])
    ensures pid.None? <==> forall j :: 0 <= j ==> !IdMatchAt(url, j)
  {
    match IdMatchFrom(url, 0)
    case None => None
    case Some(i) => Some(url[i + |Marker|..DigitRunEnd(url, i + |Marker|)])
  }

  /** A run of digits is skipped over by `DigitRunEnd`. */
  lemma {:induction false} DigitRunEndSkip(s: string, k: nat, n: nat)
    requires k + n <= |s|
    requires forall j :: k <= j < k + n ==> IsDigit(s[j])
    ensures DigitRunEnd(s, k) == DigitRunEnd(s, k + n)
    decreases n
  {
    if n > 0 {
      DigitRunEndSkip(s, k + 1, n - 1);
    }
  }

  /** A product page URL ".../product/<digits>/<more>" gives its digits,
      when no earlier position matches. */
  lemma ProductIdOfPage(base: string, digits: string, rest: string)
    requires digits != [] && AllDigits(digits)
    requires rest != [] && rest[0] == '/'
    requires forall j :: 0 <= j < |base| ==> !IdMatchAt(base + Marker + digits + rest, j)
    ensures ProductId(base + Marker + digits + rest) == Some(digits)
  {
    var url := base + Marker + digits + rest;
    var k := |base| + |Marker|;
    var e := k + |digits|;
    assert url[|base|..k] == Marker;
    forall j | k <= j < e ensures IsDigit(url[j]) {
      assert url[j] == digits[j - k];
    }
    DigitRunEndSkip(url, k, |digits|);
    assert url[e] == rest[0];
    assert DigitRunEnd(url, e) == e;
    assert IdMatchAt(url, |base|);
    assert url[k..e] == digits;
  }

  /** The site part of a product page URL, before the marker. */
  const Site := "https://www.falabella.com/falabella-cl"

  /** No match starts inside the site part: every '/' in it is followed by
      something other than 'p'. */
  lemma SiteHasNoMatch(rest: string)
    ensures forall j :: 0 <= j < |Site| ==> !IdMatchAt(Site + Marker + rest, j)
  {
    var url := Site + Marker + rest;
    forall j | 0 <= j < |Site| ensures !IdMatchAt(url, j) {
      if OccursAt(url, Marker, j) {
        OccursAtStart(url, Marker, j);
        assert false;
      }
    }
  }

  lemma PageRoundTrip(digits: string, tail: string)
    requires digits != [] && AllDigits(digits)
    ensures ProductId(Site + Marker + digits + "/" + tail) == Some(digits)
  {
    var rest := "/" + tail;
    SiteHasNoMatch(digits + rest);
    assert Site + Marker + (digits + rest) == Site + Marker + digits + rest == Site + Marker + digits + "/" + tail;
    ProductIdOfPage(Site, digits, rest);
  }

  /** The page URL that `search` builds for an item whose id is a digit
      string reads back, through `scrape_url`'s pattern, as that id. */
  lemma ItemUrlRoundTrip(digits: string, slug: Value)
    requires digits != [] && AllDigits(digits)
    ensures ProductId(ItemUrl(Str(digits), slug)) == Some(digits)
  {
    var tail := ToText(slug);
    assert ItemUrl(Str(digits), slug) == ProductPage + digits + "/" + tail;
    assert ProductPage == Site + Marker;
    PageRoundTrip(digits, tail);
  }

  /** The same for a positive integer id: the id read back is `str(id)`. */
  lemma ItemUrlRoundTripOfInt(n: int, slug: Value)
    requires n > 0
    ensures ProductId(ItemUrl(Int(n), slug)) == Some(NatToString(n))
  {
    ItemUrlRoundTrip(NatToString(n), slug);
    assert ItemUrl(Int(n), slug) == ItemUrl(Str(NatToString(n)), slug);
  }

  // ------------------------------------------------------------ scrape_url

  function ProductRequest(pid: string): Request
  {
    Request(ProductApi + pid, [("zones", Zone)])
  }

  /** The body of `scrape_url`'s `try`. */
  function UrlAttempt(url: string, productName: string, fetch: Fetcher, today: Date): Result<Observation, PyError>
  {
    match ProductId(url)
    case None => Err(ValueError(InvalidUrl))
    case Some(pid) =>
      var data :- Fetch(fetch, ProductRequest(pid));
      var product :- Get(data, "data", Object([]));
      var prices :- Get(product, "prices", Array([]));
      var picked :- ItemPrices(prices);
      var name :- if productName != [] then Ok(Str(productName)) else Get(product, "displayName", Str(url));
      Ok(NewObservation(Store, name, Str(url), picked.price, today)
        .(originalPrice := picked.original, sku := Some(Str(pid))))
  }

  /** `scrape_url(url, product_name)`: never raises. A URL without a
      "/product/<digits>/" segment, a failed request or a malformed document
      gives an observation with the error text and no price. */
  function UrlObservation(url: string, productName: string, fetch: Fetcher, today: Date): (o: Observation)
    ensures o.store == Store && o.url == Str(url) && o.date == today
    ensures o.error.Some? ==> o.price.None? && o.originalPrice.None?
    ensures ProductId(url).None? ==> o.error == Some(InvalidUrl) && o.price.None?
    ensures o.error.None? ==> o.sku == Some(Str(ProductId(url).value))
  {
    match UrlAttempt(url, productName, fetch, today)
    case Ok(obs) => obs
    case Err(e) => Failure(Store, Str(if productName != [] then productName else url), Str(url), e, today)
  }

  method ScrapeUrl(url: string, productName: string, fetch: Fetcher, today: Date) returns (o: Observation)
    ensures o == UrlObservation(url, productName, fetch, today)
  {
    var fallbackName := Str(if productName != [] then productName else url);
    var pid := ProductId(url);
    if pid.None? {
      return Failure(Store, fallbackName, Str(url), ValueError(InvalidUrl), today);
    }
    var data := Fetch(fetch, ProductRequest(pid.value));
    if data.Err? {
      return Failure(Store, fallbackName, Str(url), data.error, today);
    }
    var product := Get(data.value, "data", Object([]));
    if product.Err? {
      return Failure(Store, fallbackName, Str(url), product.error, today);
    }
    var prices := Get(product.value, "prices", Array([]));
    if prices.Err? {
      return Failure(Store, fallbackName, Str(url), prices.error, today);
    }
    var picked := PickPrices(prices.value);
    if picked.Err? {
      return Failure(Store, fallbackName, Str(url), picked.error, today);
    }
    var name := if productName != [] then Ok(Str(productName)) else Get(product.value, "displayName", Str(url));
    return NewObservation(Store, name.value, Str(url), picked.value.price, today)
      .(originalPrice := picked.value.original, sku := Some(Str(pid.value)));
  }

  // ------------------------------------------------------------ search

  function ListingRequest(query: string, limit: int): Request
  {
    Request(ListingApi, [("query", query), ("page", "1"), ("limit", IntToString(limit)), ("zones", Zone)])
  }

  /** What `for item in data.get("data", {}).get("results", [])[:limit]` visits. */
  function ListedItems(data: Value, limit: int): (r: Result<seq<Value>, PyError>)
    ensures r.Ok? && limit >= 0 ==> |r.value| <= limit
  {
    var inner :- Get(data, "data", Object([]));
    var results :- Get(inner, "results", Array([]));
    var sliced :- SliceTo(results, limit);
    Elements(sliced)
  }

  /** The product page of a listed item: ".../product/{id}/{slug}" when the
      id is truthy, "" otherwise. */
  function ItemUrl(pid: Value, slug: Value): string
  {
    if Truthy(pid) then ProductPage + ToText(pid) + "/" + ToText(slug) else ""
  }

  /** One iteration of the search loop. */
  function ItemObservation(query: string, item: Value, today: Date): (r: Result<Observation, PyError>)
    ensures r.Ok? ==> r.value.store == Store && r.value.error.None? && r.value.date == today
  {
    var prices :- Get(item, "prices", Array([]));
    var picked :- ItemPrices(prices);
    var slug :- Get(item, "slug", Str(""));
    var pid :- Get(item, "id", Str(""));
    var name :- Get(item, "displayName", Str(query));
    Ok(NewObservation(Store, name, Str(ItemUrl(pid, slug)), picked.price, today)
      .(originalPrice := picked.original, sku := Some(Str(ToText(pid)))))
  }

  method ReadItem(query: string, item: Value, today: Date) returns (r: Result<Observation, PyError>)
    ensures r == ItemObservation(query, item, today)
  {
    var prices := Get(item, "prices", Array([]));
    if prices.Err? {
      return Err(prices.error);
    }
    var picked := PickPrices(prices.value);
    if picked.Err? {
      return Err(picked.error);
    }
    var slug := Get(item, "slug", Str(""));
    var pid := Get(item, "id", Str(""));
    var name := Get(item, "displayName", Str(query));
    return Ok(NewObservation(Store, name.value, Str(ItemUrl(pid.value, slug.value)), picked.value.price, today)
      .(originalPrice := picked.value.original, sku := Some(Str(ToText(pid.value)))));
  }

  function SearchFailure(query: string, today: Date): PyError -> Observation
  {
    e => Failure(Store, Str(query), Str(""), e, today)
  }

  function ItemReader(query: string, today: Date): Value -> Result<Observation, PyError>
  {
    x => ItemObservation(query, x, today)
  }

  /** `search(query, limit)`: the observations of the listed items, in order;
      an exception (from the request, the document's shape or an item) adds
      one error observation after the items already read. */
  function SearchResults(query: string, limit: int, fetch: Fetcher, today: Date): seq<Observation>
  {
    match Fetch(fetch, ListingRequest(query, limit))
    case Err(e) => [SearchFailure(query, today)(e)]
    case Ok(data) =>
      match ListedItems(data, limit)
      case Err(e) => [SearchFailure(query, today)(e)]
      case Ok(items) => Listing.Collect(items, ItemReader(query, today), SearchFailure(query, today))
  }

  method Search(query: string, limit: int, fetch: Fetcher, today: Date) returns (results: seq<Observation>)
    ensures results == SearchResults(query, limit, fetch, today)
  {
    var data := Fetch(fetch, ListingRequest(query, limit));
    if data.Err? {
      return [SearchFailure(query, today)(data.error)];
    }
    var listed := ListedItems(data.value, limit);
    if listed.Err? {
      return [SearchFailure(query, today)(listed.error)];
    }
    results := ReadItems(query, listed.value, today);
  }

  /** The loop of `search`, appending one observation per listed item. */
  method ReadItems(query: string, items: seq<Value>, today: Date) returns (results: seq<Observation>)
    ensures results == Listing.Collect(items, ItemReader(query, today), SearchFailure(query, today))
  {
    var onError := SearchFailure(query, today);
    var read := ItemReader(query, today);
    results := [];
    var i := 0;
    while i < |items|
      invariant 0 <= i <= |items|
      invariant results + Listing.Collect(items[i..], read, onError) == Listing.Collect(items, read, onError)
    {
      var o := ReadItem(query, items[i], today);
      assert read(items[i]) == o;
      if o.Err? {
        Listing.CollectStop(items, i, read, onError);
        return results + [onError(o.error)];
      }
      Listing.CollectStep(items, i, read, onError);
      results := results + [o.value];
      i := i + 1;
    }
    assert items[i..] == [];
  }

  /** Every search observation is Falabella's; only the last can carry an
      error, and with a non-negative `limit` there are at most `limit` item
      observations besides it. */
  lemma SearchBounds(query: string, limit: int, fetch: Fetcher, today: Date)
    ensures var r := SearchResults(query, limit, fetch, today);
      && (forall i :: 0 <= i < |r| ==> r[i].store == Store)
      && (forall i :: 0 <= i < |r| - 1 ==> r[i].error.None?)
      && (limit >= 0 ==> |r| <= limit || (|r| == 1 && r[0].error.Some?))
  {
    var r := SearchResults(query, limit, fetch, today);
    match Fetch(fetch, ListingRequest(query, limit))
    case Err(e) =>
    case Ok(data) =>
      match ListedItems(data, limit)
      case Err(e) =>
      case Ok(items) =>
        var read := ItemReader(query, today);
        Listing.CollectShape(items, read, SearchFailure(query, today));
        forall i | 0 <= i < |r| ensures r[i].store == Store && (i < |r| - 1 ==> r[i].error.None?) {
          if read(items[i]).Ok? {
            assert r[i] == ItemObservation(query, items[i], today).value;
          }
        }
  }
}
