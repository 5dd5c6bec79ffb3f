# Price tracker core, modelled in Dafny

This project models the core of a price tracker for Chilean retail stores. Its parts are:

- **Per-store adapters.** Each adapter turns a store's JSON reply into a price observation (`ProductPrice`). Falabella, Paris and Sodimac are modelled. So are the selector helpers that the page-rendering adapters use.
- **The collection run (`main.py`).** For every product it plans one task per store in registry order: look up the product's URL, search for its query, or skip the store. It runs the tasks, flattens their outcomes in order, saves the observations and counts prices and errors.
- **The SQLite price store (`db.py`).** It has three tables: `products`, `urls` and `prices`. A class holds them in memory. Its mutating operations are methods, and the read-only queries are functions of the table contents.

The network (`fetch`) and the rendered page are parameters. The day of the run ("today") is also a parameter. Prices are exact `real`s, since amounts are whole pesos. Dates are day numbers: stored ISO dates compare the same way.

Modules, one per file:

| file | module | models |
|---|---|---|
| prelude.dfy | Prelude | `Option`, `Result`, the Python exceptions the code can raise |
| text.dfy | Text | `str.strip`, `lower`, `rstrip`, `split`, `in`, the `re.sub` digit filters, `str(int)` |
| json.dfy | Json | decoded JSON values and Python's partial operations on them: `.get`, `[0]`, `[:n]`, iteration, truthiness, `float`, `str` |
| base.dfy | Base | `ProductPrice` and its defaults; `fetch` as a `Fetcher` function |
| selectors.dfy | Selectors | `BaseScraper._get_text` and `_get_price` |
| listing.dfy | Listing | the item loop that the JSON adapters' `search` functions share |
| falabella.dfy, paris.dfy, sodimac.dfy | Falabella, Paris, Sodimac | the three JSON adapters |
| order.dfy | Order | SQLite's BINARY text order; a stable sort for `ORDER BY` |
| rows.dfy | Rows | how `save_prices` binds an observation to a `prices` row |
| db.dfy | Db | the tables as class `PriceDb`: `init_db`, `save_prices`, `add_product`, `delete_product`, `get_products` |
| queries.dfy | Queries | `get_price_history`, `get_latest_prices`, `get_summary_stats` |
| collector.dfy | Collector | `scrape_product`, `_search_first`, `run_all` |

Each loop of the source is a method whose `ensures` ties its result to a specification function. Lemmas state the properties of those functions.

Falabella's `_parse_price` keeps '.' as a decimal point, so "$1.234" is 1.234. Text without digits makes `float("")` raise, and the caller records an error observation.

Where files disagree with each other, the model takes this line:

- `main.py` imports `STORES` from the `scrapers` package, but `scrapers/__init__.py` defines `SCRAPERS` (classes, among them `easy` and `travelclub`, which this model does not cover). The top-level `__init__.py` defines `STORES` as the module registry that `main.py` uses. The registry is modelled after that file.
- The adapters build `ProductPrice(..., sku=...)`, which only the top-level `base.py` record has. The observation is modelled after that record.
- The other two mismatches (`db.init` and the two-argument `save_prices`) are under Findings.

## Model

| member | source | states |
|---|---|---|
| Base.NewObservation | base.py:7-17 | A new `ProductPrice` has no original price, currency "CLP", no SKU, no error, and today's date |
| Base.Failure | scrapers/falabella.py:86-87 | An adapter's `except` observation has no price, no original and no SKU; its error is `str(e)` |
| Text.StripEmptyIffBlank | main.py:21-22 | `s.strip()` is empty exactly when every character of `s` is whitespace |
| Text.KeepDigitsAppend | scrapers/base.py:49 | The digit-only filter distributes over concatenation |
| Text.NatToStringRoundTrip | scrapers/falabella.py:11 | Reading back the decimal text `str(n)` of a number gives the number |
| Selectors.GetText | scrapers/base.py:30-40 | The result is "" exactly when no selector has an element with non-blank text; otherwise it is the stripped text of the first selector that has one, earlier ones having none |
| Selectors.GetPrice | scrapers/base.py:42-54 | The result is `None` exactly when no selector's element has a digit; otherwise it is the digits of the first such selector, read as a number |
| Selectors.ZeroTextIsZeroPrice | scrapers/base.py:49-51 | An element reading "0" gives price 0, not `None` |
| Selectors.NonDigitsAreIgnored | scrapers/base.py:49-51 | Removing any non-digit (such as '.' or ',') from an element's text does not change the price |
| Listing.CollectShape | scrapers/falabella.py:22-49 | The search results are the items read, in order; the first item that raises ends them with one error observation; the results are fewer than the items only after such an error |
| Listing.CollectFromOneStore | scrapers/paris.py:14-30 | If every item observation and every error observation belongs to one store, so do all results, and only the last can carry an error |
| Falabella.ParsePrice | scrapers/falabella.py:8-11 | `None` gives `None`; a parsed price is never 0 |
| Falabella.ParsePriceOfInt | scrapers/falabella.py:11 | An integer is read as its absolute value (the sign is stripped); 0 is no price |
| Falabella.ParsePriceOfUndottedText | scrapers/falabella.py:11 | Text without '.' reads as the number its digits spell ("$ 1990" is 1990); text with no digit raises |
| Falabella.ParsePriceOfDecimal | scrapers/falabella.py:11 | Digits around one '.' read as a decimal ("1.234" is 1.234), 0 giving `None` |
| Falabella.ParsePriceOfTwoDots | scrapers/falabella.py:11 | Text such as "1.234.567" makes the conversion raise |
| Falabella.PickPrices | scrapers/falabella.py:23-34 | The price loop with its fallback computes `ItemPrices`, errors included |
| Falabella.ScanIsLastWins | scrapers/falabella.py:26-32 | Every entry is read, and the first one that raises is the error. The price comes from the last entry labelled "internet" or "cmr". The original comes from the last entry labelled "normal" but neither of those |
| Falabella.ItemPricesChoice | scrapers/falabella.py:26-34 | With no labelled current price, the price falls back to the first entry's parsed amount; otherwise it is the last labelled one |
| Falabella.ProductId | scrapers/falabella.py:56-59 | No id exactly when "/product/<digits>/" occurs nowhere; otherwise the id is the digits of the leftmost match |
| Falabella.UrlObservation | scrapers/falabella.py:53-87 | `scrape_url` never raises and keeps the store, URL and date. A URL without an id gives error "URL no válida para Falabella" and no price. An error observation has no prices. A success carries the pid as its SKU |
| Falabella.ScrapeUrl | scrapers/falabella.py:53-87 | The step-by-step `scrape_url` equals `UrlObservation` |
| Falabella.ListedItems | scrapers/falabella.py:21-22 | At most `limit` items are visited |
| Falabella.ProductIdOfPage | scrapers/falabella.py:56-59 | A URL ".../product/<digits>/<more>" gives those digits as the id, when no earlier position matches the pattern |
| Falabella.SiteHasNoMatch | scrapers/falabella.py:56 | No match of "/product/(\d+)/" starts inside "https://www.falabella.com/falabella-cl" |
| Falabella.PageRoundTrip | scrapers/falabella.py:56-59 | A product page URL with a non-empty digit id, whatever follows its '/', reads back as that id |
| Falabella.ItemUrlRoundTrip | scrapers/falabella.py:36-59 | The URL `search` builds for an item with a non-empty digit-string id, whatever its slug, is read back by `scrape_url` as that id, the value `search` also records as SKU |
| Falabella.ItemUrlRoundTripOfInt | scrapers/falabella.py:36-59 | For a positive integer id, the id read back is `str(id)`, the recorded SKU |
| Falabella.ItemObservation | scrapers/falabella.py:23-47 | An item read without error is a Falabella observation, dated today, with no error |
| Falabella.ReadItem | scrapers/falabella.py:23-47 | The loop body as run equals `ItemObservation` |
| Falabella.ReadItems | scrapers/falabella.py:22-49 | The append loop builds exactly the collected observations |
| Falabella.Search | scrapers/falabella.py:14-50 | The step-by-step `search` equals `SearchResults` |
| Falabella.SearchBounds | scrapers/falabella.py:14-50 | Every result is Falabella's. Only the last can carry an error. With `limit` ≥ 0 there are at most `limit` results, or a single error observation |
| Paris.PriceOf | scrapers/paris.py:25 | The price is present exactly when `Price` is truthy, and is then `float(Price)` |
| Paris.OriginalOf | scrapers/paris.py:26 | The original is present exactly when `ListPrice` is truthy and differs from `Price` under Python `==` |
| Paris.OfferPrices | scrapers/paris.py:18-26 | The price and original of an offer obey both rules above |
| Paris.IntegerOffer | scrapers/paris.py:25-26 | For integer amounts, a zero price is no price; a list price of 0 or equal to the price is no original |
| Paris.DiscountShown | scrapers/paris.py:26 | When both amounts are set and differ, the original is reported and exceeds the price exactly when `ListPrice` does |
| Paris.NoSkusNoPrice | scrapers/paris.py:15-17 | When `items` is missing, empty or falsy, or the first SKU's `sellers` is missing, empty or falsy, the `[{}]` defaults and the `if` guards give the empty offer: no price, no original, no error |
| Paris.NoItemsKey | scrapers/paris.py:39-41 | An object item without an `items` key takes the defaults down to the empty offer |
| Paris.NoSellersNoPrice | scrapers/paris.py:39-41 | A first SKU whose `sellers` is an empty list gives the empty offer |
| Paris.Slug | scrapers/paris.py:36 | The slug never contains '/' |
| Paris.SlugOfProductUrl | scrapers/paris.py:36 | If the right-stripped URL is `base + "/p/" + tail`, no "/p/" occurs in `tail` and `base` does not end in "/p", the slug is `tail` up to its first '/': a trailing '/', later segments and earlier "/p/"s are all covered |
| Paris.LastPieceAfterMarker | scrapers/paris.py:36 | Splitting on "/p/" ends with the text after the marker that the non-overlapping scan reaches, when no marker follows it |
| Paris.OverlappingMarker | scrapers/paris.py:36 | Split matches do not overlap: "a/p/p/x" gives slug "p", not "x", which is why `base` must not end in "/p" |
| Paris.SlugOfPlainUrl | scrapers/paris.py:36 | A URL without "/p/" gives its last path segment |
| Paris.Priced | scrapers/paris.py:44-51 | A product read without error gives the name, URL, prices and SKU read, with no error |
| Paris.UrlAttempt | scrapers/paris.py:36-51 | A success keeps store, URL, date and currency, and a given product name takes precedence over the upstream one |
| Paris.UrlObservation | scrapers/paris.py:34-53 | `scrape_url` never raises. An error observation has no prices and no SKU, and is named `product_name or url`. A given name wins |
| Paris.EmptyReply | scrapers/paris.py:38-50 | An empty reply reads as `{}`: no error and no price, named `product_name or url`, with SKU "" |
| Paris.ListedItems | scrapers/paris.py:14 | At most `limit` products; an empty reply visits none |
| Paris.ItemObservation | scrapers/paris.py:15-28 | A product read without error is a Paris observation, dated today, with no error |
| Paris.ReadItems | scrapers/paris.py:14-30 | The append loop builds exactly the collected observations |
| Paris.Search | scrapers/paris.py:7-31 | The step-by-step `search` equals `SearchResults` |
| Paris.SearchBounds | scrapers/paris.py:7-31 | Every result is Paris's. Only the last can carry an error. With `limit` ≥ 0 there are at most `limit` results, or a single error observation |
| Paris.EmptySearchReply | scrapers/paris.py:14 | An empty reply gives no observations |
| Sodimac.FloatIf | scrapers/sodimac.py:25-26 | An amount is present exactly when truthy; an integer is read as itself |
| Sodimac.IntegerPrices | scrapers/sodimac.py:17-18 | The price is `internetPrice` when non-zero, else `normalPrice`. The original is `normalPrice`, whatever its value, only beside an internet price |
| Sodimac.OriginalNeedsInternetPrice | scrapers/sodimac.py:18 | An original is reported only when `internetPrice` is truthy |
| Sodimac.ProductId | scrapers/sodimac.py:36-39 | No id exactly when "/product/" followed by a non-'/' occurs nowhere; otherwise the id is the maximal non-'/' run after the leftmost match |
| Sodimac.ProductIdOfPage | scrapers/sodimac.py:36-39 | ".../product/<id>" or ".../product/<id>/..." gives `<id>` when nothing earlier matches |
| Sodimac.Priced | scrapers/sodimac.py:44-51 | A product read without error gives the name, URL and prices read, SKU `str(pid)` and no error |
| Sodimac.UrlAttempt | scrapers/sodimac.py:35-51 | A success keeps store, URL and date, has the URL's id as its SKU, and a given name wins |
| Sodimac.UrlObservation | scrapers/sodimac.py:34-53 | `scrape_url` never raises. A URL without an id gives error "URL no válida para Sodimac". An error observation has no prices and no SKU. A success carries the id as its SKU |
| Sodimac.ListedItems | scrapers/sodimac.py:14-15 | At most `limit` results are visited |
| Sodimac.SiteHasNoMatch | scrapers/sodimac.py:36 | No match of "/product/([^/]+)" starts inside "https://www.sodimac.cl/sodimac-cl" |
| Sodimac.ItemUrlRoundTrip | scrapers/sodimac.py:19-39 | The URL `search` builds for an item whose id is non-empty text without '/' is read back by `scrape_url` as that id, the value `search` also records as SKU |
| Sodimac.ItemObservation | scrapers/sodimac.py:16-28 | A result read without error is a Sodimac observation, dated today, with no error |
| Sodimac.ReadItems | scrapers/sodimac.py:15-30 | The append loop builds exactly the collected observations |
| Sodimac.Search | scrapers/sodimac.py:7-31 | The step-by-step `search` equals `SearchResults` |
| Sodimac.SearchBounds | scrapers/sodimac.py:7-31 | Every result is Sodimac's. Only the last can carry an error. With `limit` ≥ 0 there are at most `limit` results, or a single error observation |
| Order.StrLtTotal | db.py:67 | Any two different names are ordered one way or the other |
| Order.StrLtTransitive | db.py:67 | The text order is transitive |
| Order.SortSorted | db.py:67 | Under a total preorder, the sort's output is ordered |
| Order.SortMembers | db.py:67 | Sorting keeps exactly the input's members |
| Rows.Column | db.py:56-60 | A list or dict cannot be bound. NULL is bound exactly for `None`. A string is bound as itself |
| Rows.Bind | db.py:56-60 | An observation is stored exactly when its name and URL bind and the name is not NULL; a NULL name is an IntegrityError. A stored row keeps the observation's fields |
| Rows.BindAllRows | db.py:56-60 | The batch binds exactly when every observation does, and then gives one row per observation, in order |
| Rows.BindAllFirstError | db.py:56-61 | A failing batch reports its first failing observation's error |
| Rows.StringFieldsBind | db.py:56-60 | Observations with string names and URLs always store |
| Db.Upsert | db.py:90-93 | An upsert adds the product's id to the table and nothing else |
| Db.UpsertAllMeaning | db.py:87-93 | Per store, the product's URL becomes the last non-empty URL given, or keeps its old value. Other products' URLs are unchanged |
| Db.EntryOf | db.py:69-73 | A listed product carries its id, name, query and its own URLs |
| Db.Catalog | db.py:69-73 | One entry per product, in the given order |
| Db.FindByName | db.py:84-86 | An id is found exactly when a product has that name, and it is that product's id |
| Db.WithoutId | db.py:102 | The products kept are exactly those with another id |
| Db.WithoutIdUnique | db.py:99-104 | Deleting keeps ids and names unique |
| Db.NameOrderIsTotal | db.py:67 | `ORDER BY name` is a total preorder |
| Db.PriceDb.constructor | db.py:15-51 | A fresh database has three empty tables |
| Db.PriceDb.SavePrices | db.py:54-62 | If every observation binds, one row per observation is appended; otherwise the error is returned and nothing is stored. Existing rows never change |
| Db.PriceDb.AddProduct | db.py:78-96 | An existing name keeps its id and its search query. A new name gets the next, never reused, id. The URLs become `UpsertAll` of the given ones. Prices are untouched and the table invariant holds |
| Db.PriceDb.UpsertUrls | db.py:87-93 | The URL loop applies exactly `UpsertAll` of the given pairs |
| Db.PriceDb.DeleteProduct | db.py:99-104 | The product and all its URLs go. Price rows and the id counter stay |
| Db.PriceDb.GetProducts | db.py:65-75 | The loop returns the catalog of the products sorted by name |
| Db.CatalogMeaning | db.py:65-75 | The listing is in name order and has one entry per product. An entry is listed exactly when it is some product with its own URLs |
| Queries.HistoryOf | db.py:121-124 | A history entry carries the row's columns unchanged |
| Queries.Cutoff | db.py:112-114 | A window exists exactly for a non-negative day count, and it never starts after today |
| Queries.Window | db.py:109-117 | The window never has more entries than the table |
| Queries.WindowMembers | db.py:109-117 | An entry is in the window exactly when it comes from a row on or after the cutoff whose name contains the filter |
| Queries.WindowAppend | db.py:109-117 | Rows are never merged: the window of two batches is the two windows, concatenated |
| Queries.HistoryOrderIsTotal | db.py:118 | `ORDER BY date DESC, store` is a total preorder |
| Queries.PriceHistoryOfWindow | db.py:107-125 | A negative day count gives nothing; otherwise the history is the window, sorted |
| Queries.PriceHistoryMeaning | db.py:107-125 | The history is sorted newest first and by store within a day, and is a permutation of the window. Its members are exactly the matching rows |
| Queries.HistoryGrowsWithRows | db.py:109-125 | No same-day deduplication: added rows add as many entries as they match |
| Queries.LatestOf | db.py:145-148 | A latest entry carries the row's columns and its (non-NULL) price |
| Queries.MaxDateOf | db.py:134-140 | A group has no maximum date exactly when it has no rows; otherwise every row of the group is dated on or before it |
| Queries.MaxDateAttained | db.py:135-137 | Some row of the group carries the maximum date |
| Queries.LatestOrderIsTotal | db.py:142 | `ORDER BY product_name, price` is a total preorder |
| Queries.LatestPricedIff | db.py:131-141 | A row survives the join and the `WHERE` exactly when it is priced and no row of its store and product, priced or not, is later |
| Queries.LatestPricesMeaning | db.py:128-149 | The output is sorted by product and price and is a permutation of the surviving rows. Its members are exactly the priced rows on their group's latest date |
| Queries.NullNewestHidesPair | db.py:134-141 | When a group's newest rows have no price, that store and product is absent, older priced rows included |
| Queries.LastRun | db.py:156 | `last_run` is NULL exactly for an empty table; otherwise it is the greatest date, and some row has it |
| Queries.Names | db.py:155 | The distinct names are exactly the table's names, no more than its rows |
| Queries.InsertNewSorted | db.py:157 | Adding a store to the ascending distinct list keeps it ascending and distinct |
| Queries.StoresMeaning | db.py:157 | `stores` is strictly ascending and holds exactly the table's stores |
| Queries.SummaryMeaning | db.py:152-164 | `total_records` counts every row. `total_products` is at most that. `last_run` is NULL only for an empty table. `stores` is sorted and distinct |
| Collector.TaskFor | main.py:20-27 | A planned task belongs to the store it was planned for |
| Collector.Plan | main.py:20-27 | There are never more tasks than store keys; `Collector.PlanInKeyOrder` states one task per store and their order |
| Collector.PlanInKeyOrder | main.py:20-27 | For distinct keys every task's store is a key, the stores' positions among the keys strictly increase along the tasks, and no store gets two tasks |
| Collector.RegistryPlanInOrder | main.py:20-27 | `scrape_product` plans at most one task per registry store, in registry order, which `gather` keeps in its output |
| Collector.MissingInPlan | main.py:20-24 | A non-blank URL for a store whose module has no `scrape_url` puts a call to it in the plan |
| Collector.PlanTasks | main.py:17-27 | The planning loop computes `Plan` over the registry, and raises AttributeError exactly when some URL task's module has no module-level `scrape_url` |
| Collector.PlanMembers | main.py:20-27 | A task is planned exactly when it is some store's decision |
| Collector.UrlWins | main.py:21-26 | A store with a non-blank URL is looked up and never searched |
| Collector.NothingToDo | main.py:20-27 | No URLs and a blank query plan no task |
| Collector.SearchFirst | main.py:43-49 | A search that raises raises. The first hit is returned, renamed after the product. No hit gives the store's "Sin resultados" observation with no price |
| Collector.Gather | main.py:30 | One outcome per task, in task order, each being that task's run |
| Collector.Unknown | main.py:32-34 | A raised task becomes a "unknown" observation with URL "", no price and error `str(e)` |
| Collector.Flatten | main.py:31-38 | The outcome loop computes `Flattened` |
| Collector.FlattenedAppend | main.py:31-38 | Flattening distributes over concatenated outcomes |
| Collector.OutcomeKeepsItsPlace | main.py:30-38 | Each outcome's contribution appears intact at its own place in the results, whatever its siblings did |
| Collector.OneResultPerTask | main.py:31-38 | Without list outcomes there is one result per task |
| Collector.ScrapeProduct | main.py:11-40 | `scrape_product` computes `ProductObservations`: a NULL query raises, and so does a URL for a store module without `scrape_url` |
| Collector.NoTasksNoResults | main.py:20-40 | No URLs and a blank query give no observations |
| Collector.OneResultPerStore | main.py:20-38 | The product raises exactly when a URL task's module has no `scrape_url`. Otherwise, when no lookup returns a list, there is one observation per planned store |
| Collector.MissingScrapeUrlRaises | main.py:20-24 | A URL for a store whose module lacks `scrape_url` makes the whole product raise AttributeError, so no store's observation survives |
| Collector.ClassOnlyUrlFailsProduct | main.py:20-24 | In the repository's registry, a product with a Ripley or MercadoLibre URL raises AttributeError and `run_all` counts it as one error and no prices. Those modules define only a class (scrapers/ripley.py:4, scrapers/mercadolibre.py:4) |
| Collector.ClassOnlySearchIsUnknown | main.py:43-44 | Searching Ripley or MercadoLibre raises inside its own task, with the text "module 'scrapers.<key>' has no attribute 'search'", and becomes an "unknown" observation beside the others |
| Collector.JsonStoresNeverRaise | main.py:20-26 | A Falabella, Paris or Sodimac task never raises; a URL task gives one observation of that store, for that URL |
| Collector.Scrapes | main.py:63-66 | One scrape result per product |
| Collector.ScrapesAt | main.py:63-66 | Each product's scrape result is `scrape_product` of that product |
| Collector.CountPriced | main.py:68 | Priced observations are no more than observations |
| Collector.CountErrors | main.py:69 | Error observations are no more than observations |
| Collector.TallySnoc | main.py:63-75 | One more product adds its own counts to the counters and its own rows to the table |
| Collector.SaveAndCount | main.py:66-75 | A product adds its priced and error counts and stores its rows. A scrape or save that raises adds one error and stores nothing |
| Collector.ScrapeOne | main.py:66 | The awaited scrape of the product at `i` is its scrape result |
| Collector.ScrapeAndSaveEach | main.py:63-75 | The loop's counters are the tally of all products' results, and the table gains exactly their stored rows, in order |
| Collector.RunAll | main.py:52-82 | `scraped` is the product count. The date is absent only for an empty catalog. The counters are the tally over the name-ordered catalog. The table gains exactly the rows stored for it |
| Collector.RowsWhereAppend | main.py:68-69 | Counting rows distributes over concatenation |
| Collector.CountsSurviveBinding | main.py:67-69 | Counting a product's observations agrees with counting the rows stored for them |
| Collector.CountersMatchStoredRows | main.py:63-75 | The price counter equals the stored priced rows. The error counter equals the stored error rows plus one per product that raised |
| Collector.RunAllAsWrittenRaises | main.py:53 | As written, the run raises AttributeError, while `init_db` exists |
| Collector.EveryProductFailsAsWritten | main.py:67 | As written, every save raises: no price is counted and each product counts as one error |
| Collector.SavedProductCounts | main.py:66-71 | With the one-argument save, a product whose observations bind counts its prices and errors, and the save succeeds |

## Left out

- Network access: `fetch` (httpx, headers, 15 s timeout, redirects, `raise_for_status`) is the `Fetcher` parameter. It gives the decoded body or the text of the exception.
- The Ripley and MercadoLibre adapters drive a browser. Their modules define only a scraper class, so the collection run reaches them only through missing attributes (`Collector.RepositoryStores`). The browser scraping itself is not modelled; the selector helpers it uses are modelled over an abstract page. The Easy module is not part of this model and enters the run only through the `Adapters` parameter.
- The concurrency of `asyncio.gather`: it is modelled as an ordered map over the tasks, each yielding a value or an exception.
- Logging, `server.py` (HTTP routes, dashboard, background thread) and `STORE_LABELS`/`STORE_COLORS`.
- SQLite engine details: connections, DDL, indexes and `created_at`. `date('now', ...)` is the `today` parameter.
- `LIKE` is modelled as plain substring containment. SQLite's ASCII case folding and the `%`/`_` wildcards inside the filter are not modelled.
- Ties that `ORDER BY` leaves open are resolved in table order (a stable sort); SQLite does not specify an order there.
- Dates are day numbers. The ISO text that `ProductPrice.date` holds, and its comparison as text, are not modelled.
- Json.ParseFloat: reads only an optionally signed decimal numeral with at most one '.'. Python's `float` also accepts exponents ("1e3"), digit underscores ("1_000") and "inf"/"nan"; the model raises ValueError for these, so a Paris `Price` or Sodimac amount sent as such text gives an error observation here and a price in the source. A `real` cannot hold inf or nan.
- `float` is exact: IEEE rounding is not modelled. Decoded JSON numbers are integers only; fractional JSON numbers and exponents are not modelled.
- Python regex `\d`, `str.lower` and `str.isspace` cover ASCII digits, ASCII letters and a fixed list of whitespace code points. Other Unicode digits and letters are not modelled.
- Built-in exceptions are identified by class; their message texts are not modelled. Two texts are: a `ValueError` raised by the code carries its message, and the AttributeError of a missing store-module attribute carries Python's "module 'scrapers.<key>' has no attribute '<name>'" (`Collector.MissingAttribute`).
- Selectors.Page: the rendered page is a map from selector to probe outcome. Playwright waits and in-page scripts are not modelled.
- Collector.SearchFirst: the in-place rename of the first hit is a functional update. The search result list is not used afterwards, so aliasing is not observable.
- Collector.Scrapes: its contract states only the length; the element at each index is stated by `Collector.ScrapesAt`.
- Collector.RunAll: with no products, the source returns a dict without a `"date"` key; the model returns `date == None`.
- Db.PriceDb.AddProduct: the `urls` dict is a sequence of pairs in the dict's iteration order. `search_query` is an optional string, so a NULL query can be stored.
- Text.StripLeft: its contract states only the length bound; what it removes and keeps is stated by `Text.StripLeftShape`. The same holds for Text.StripRight and `Text.StripRightShape`.

## Findings

| source | as written | input that shows it | evidently intended | confidence | as-written member | corrected member |
|---|---|---|---|---|---|---|
| main.py:53 | `run_all` calls `db.init()`, but `db.py` defines `init_db` and no `init` | any run, with or without products | `db.init_db()` | high; not executed | Collector.RunAllAsWrittenRaises | Collector.RunAll |
| main.py:67 | `db.save_prices(product["id"], prices)` passes two arguments to a function that takes one | any product: the save raises TypeError, caught by the `except` | `db.save_prices(prices)` | high; not executed | Collector.EveryProductFailsAsWritten | Collector.CountersMatchStoredRows |

`Collector.RunAllAsWritten` and `Collector.TallyAsWritten` model the run as written. `Collector.RunAll`, built on `Db.PriceDb.SavePrices`, models it corrected.
