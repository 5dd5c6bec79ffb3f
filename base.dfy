/** The price observation every adapter returns (`ProductPrice`) and the
    abstract HTTP request (`fetch`) the JSON adapters issue. */
module Base {
  import opened Prelude
  import Json

  /** A calendar day. ISO `YYYY-MM-DD` strings, as stored, compare like day numbers. */
  type Date = int

  const DefaultCurrency := "CLP"

  /** One adapter result. The name, URL and SKU are whatever the upstream
      document held (Python does not enforce the `str` annotations). */
  datatype Observation = Observation(
    store: string,
    productName: Json.Value,
    url: Json.Value,
    price: Option<real>,
    originalPrice: Option<real>,
    currency: string,
    date: Date,
    sku: Option<Json.Value>,
    error: Option<string>)

  /** `ProductPrice(store=..., product_name=..., url=..., price=...)`: every
      other field takes its default, the date being the day it was built. */
  function NewObservation(store: string, name: Json.Value, url: Json.Value, price: Option<real>, today: Date): (o: Observation)
    ensures o.store == store && o.productName == name && o.url == url && o.price == price
    ensures o.originalPrice.None? && o.currency == "CLP" && o.sku.None? && o.error.None?
    ensures o.date == today
  {
    Observation(store, name, url, price, None, DefaultCurrency, today, None, None)
  }

  /** The current and the original (pre-discount) price read from a product. */
  datatype Prices = Prices(price: Option<real>, original: Option<real>)

  /** The observation an adapter returns from its `except` clause. */
  function Failure(store: string, name: Json.Value, url: Json.Value, e: PyError, today: Date): (o: Observation)
    ensures o.store == store && o.productName == name && o.url == url && o.date == today
    ensures o.price.None? && o.originalPrice.None? && o.sku.None? && o.error == Some(Describe(e))
  {
    NewObservation(store, name, url, None, today).(error := Some(Describe(e)))
  }

  /** `if p.price`: a price is present and non-zero. */
  predicate HasPrice(o: Observation)
  {
    o.price.Some? && o.price.value != 0.0
  }

  /** `if p.error`: an error text is present and non-empty. */
  predicate HasError(o: Observation)
  {
    o.error.Some? && o.error.value != []
  }

  /** An HTTP GET: the URL and its query parameters, in order. */
  datatype Request = Request(url: string, params: seq<(string, string)>)

  /** What `await fetch(...)` gives for a request: the decoded JSON body, or
      the text of the exception it raised (timeout, non-2xx status, bad JSON). */
  type Fetcher = Request -> Result<Json.Value, string>

  /** `await fetch(...)` inside a `try`: a failure surfaces as an exception. */
  function Fetch(fetch: Fetcher, request: Request): Result<Json.Value, PyError>
  {
    match fetch(request)
    case Ok(v) => Ok(v)
    case Err(message) => Err(FetchFailed(message))
  }
}
