/** The collection run (`main.py`): for each product, one task per store in
    registry order (look the URL up, search, or skip), the tasks' outcomes
    flattened in order, and the run's counters over all products. The store
    adapters are a parameter; `asyncio.gather` keeps the order of its
    tasks, so the run is an ordered map over them. */
module Collector {
  import opened Prelude
  import opened Base
  import opened Rows
  import Json
  import Text
  import Order
  import Db
  import Falabella
  import Paris
  import Sodimac

  /** The store keys of the registry, in declaration order. */
  const Registry: seq<string> := ["falabella", "ripley", "paris", "mercadolibre", "sodimac", "easy"]

  /** The result of one awaited task, as `gather(..., return_exceptions=True)`
      hands it back: the exception it raised, or the value it returned. */
  datatype Outcome = Raised(message: string) | One(obs: Observation) | Many(list: seq<Observation>)

  /** The store modules, seen through what `main.py` uses of them:
      `scrape_url(url, name)`, `search(query, limit=1)` (a raised exception
      is its text), the `STORE` constant, and whether the module defines a
      module-level `scrape_url` at all. */
  datatype Adapters = Adapters(
    scrapeUrl: (string, string, string) -> Outcome,
    search: (string, string) -> Result<seq<Observation>, string>,
    storeName: string -> string,
    hasScrapeUrl: string -> bool)

  // ------------------------------------------------------------ planning

  datatype Task = ByUrl(key: string, url: string) | BySearch(key: string, query: string)

  /** `urls.get(store_key, "").strip()`. */
  function UrlFor(urls: map<string, string>, key: string): string
  {
    Text.Strip(if key in urls then urls[key] else "")
  }

  /** The decision for one store: its URL when not blank, else the (already
      stripped) query when not empty, else nothing. */
  function TaskFor(urls: map<string, string>, query: string, key: string): (t: Option<Task>)
    ensures t.Some? ==> t.value.key == key
  {
    if UrlFor(urls, key) != "" then Some(ByUrl(key, UrlFor(urls, key)))
    else if query != "" then Some(BySearch(key, query))
    else None
  }

  /** The tasks for the given store keys, in their order. */
  function Plan(keys: seq<string>, urls: map<string, string>, query: string): (tasks: seq<Task>)
    ensures |tasks| <= |keys|
    decreases |keys|
  {
    if keys == [] then []
    else
      var before := Plan(keys[..|keys| - 1], urls, query);
      match TaskFor(urls, query, keys[|keys| - 1])
      case None => before
      case Some(t) => before + [t]
  }

  /** Whether some task looks a URL up in a store module that defines no
      module-level `scrape_url`. */
  predicate CallsMissingScrapeUrl(tasks: seq<Task>, adapters: Adapters)
  {
    exists i :: 0 <= i < |tasks| && tasks[i].ByUrl? && !adapters.hasScrapeUrl(tasks[i].key)
  }

  /** The task list `scrape_product` builds. `module.scrape_url(url, name)`
      is looked up while the list is built, so a module without it raises
      AttributeError before any task runs. */
  function Planned(urls: map<string, string>, query: string, adapters: Adapters): Result<seq<Task>, PyError>
  {
    var tasks := Plan(Registry, urls, query);
    if CallsMissingScrapeUrl(tasks, adapters) then Err(AttributeError) else Ok(tasks)
  }

  /** A URL for a store without `scrape_url` puts a call to it in the plan. */
  lemma MissingInPlan(keys: seq<string>, i: nat, urls: map<string, string>, query: string, adapters: Adapters)
    requires i < |keys| && UrlFor(urls, keys[i]) != "" && !adapters.hasScrapeUrl(keys[i])
    ensures CallsMissingScrapeUrl(Plan(keys, urls, query), adapters)
  {
    var tasks := Plan(keys, urls, query);
    UrlWins(keys, urls, query, keys[i]);
    var j :| 0 <= j < |tasks| && tasks[j] == ByUrl(keys[i], UrlFor(urls, keys[i]));
  }

  /** The planning loop of `scrape_product`. */
  method PlanTasks(urls: map<string, string>, query: string, adapters: Adapters) returns (r: Result<seq<Task>, PyError>)
    ensures r == Planned(urls, query, adapters)
  {
    var tasks: seq<Task> := [];
    var i := 0;
    while i < |Registry|
      invariant 0 <= i <= |Registry|
      invariant tasks == Plan(Registry[..i], urls, query)
      invariant !CallsMissingScrapeUrl(tasks, adapters)
    {
      assert Registry[..i + 1][..i] == Registry[..i];
      var key := Registry[i];
      var url := UrlFor(urls, key);
      if url != "" {
        if !adapters.hasScrapeUrl(key) {
          MissingInPlan(Registry, i, urls, query, adapters);
          return Err(AttributeError);
        }
        tasks := tasks + [ByUrl(key, url)];
      } else if query != "" {
        tasks := tasks + [BySearch(key, query)];
      }
      i := i + 1;
    }
    assert Registry[..i] == Registry;
    return Ok(tasks);
  }

  /** Whether no key occurs twice. */
  predicate Distinct(keys: seq<string>)
  {
    forall i, j :: 0 <= i < j < |keys| ==> keys[i] != keys[j]
  }

  /** The position of `key` in `keys`: its first occurrence. */
  function IndexOf(keys: seq<string>, key: string): (p: nat)
    requires key in keys
    ensures p < |keys| && keys[p] == key
    ensures forall q :: 0 <= q < p ==> keys[q] != key
  {
    if keys[0] == key then 0 else 1 + IndexOf(keys[1..], key)
  }

  /** The tasks follow the order of the keys: with distinct keys, each key
      gives at most one task and a later task belongs to a later key. */
  lemma {:induction false} PlanInKeyOrder(keys: seq<string>, urls: map<string, string>, query: string)
    requires Distinct(keys)
    ensures forall i :: 0 <= i < |Plan(keys, urls, query)| ==> Plan(keys, urls, query)[i].key in keys
    ensures forall i, j :: 0 <= i < j < |Plan(keys, urls, query)| ==>
              IndexOf(keys, Plan(keys, urls, query)[i].key) < IndexOf(keys, Plan(keys, urls, query)[j].key)
    ensures forall i, j :: 0 <= i < j < |Plan(keys, urls, query)| ==>
              Plan(keys, urls, query)[i].key != Plan(keys, urls, query)[j].key
    decreases |keys|
  {
    if keys != [] {
      var n := |keys| - 1;
      var init := keys[..n];
      PlanInKeyOrder(init, urls, query);
      forall k | k in init ensures IndexOf(keys, k) == IndexOf(init, k) {
        IndexOfInit(keys, k);
      }
      assert IndexOf(keys, keys[n]) == n;
      var before := Plan(init, urls, query);
      forall i | 0 <= i < |before| ensures IndexOf(keys, before[i].key) < n {
      }
    }
  }

  /** A key before the last keeps its position when the last key is dropped. */
  lemma IndexOfInit(keys: seq<string>, k: string)
    requires keys != [] && k in keys[..|keys| - 1]
    ensures IndexOf(keys, k) == IndexOf(keys[..|keys| - 1], k)
  {
    var init := keys[..|keys| - 1];
    var p0 := IndexOf(init, k);
    assert keys[p0] == k;
  }

  /** The registry names each store once, so `scrape_product` plans at most
      one task per store, in registry order. */
  lemma RegistryPlanInOrder(urls: map<string, string>, query: string)
    ensures forall i :: 0 <= i < |Plan(Registry, urls, query)| ==> Plan(Registry, urls, query)[i].key in Registry
    ensures forall i, j :: 0 <= i < j < |Plan(Registry, urls, query)| ==>
              IndexOf(Registry, Plan(Registry, urls, query)[i].key) < IndexOf(Registry, Plan(Registry, urls, query)[j].key)
    ensures forall i, j :: 0 <= i < j < |Plan(Registry, urls, query)| ==>
              Plan(Registry, urls, query)[i].key != Plan(Registry, urls, query)[j].key
  {
    assert Distinct(Registry);
    PlanInKeyOrder(Registry, urls, query);
  }

  /** A task is planned exactly when it is the decision for one of the keys. */
  lemma {:induction false} PlanMembers(keys: seq<string>, urls: map<string, string>, query: string, t: Task)
    ensures t in Plan(keys, urls, query) <==> exists k :: k in keys && TaskFor(urls, query, k) == Some(t)
    decreases |keys|
  {
    if keys != [] {
      var init := keys[..|keys| - 1];
      PlanMembers(init, urls, query, t);
      assert keys == init + [keys[|keys| - 1]];
      assert forall k :: k in keys <==> k in init || k == keys[|keys| - 1];
    }
  }

  /** A URL wins over the query: a store with a non-blank URL is looked up
      and never searched. */
  lemma UrlWins(keys: seq<string>, urls: map<string, string>, query: string, key: string)
    requires key in keys && UrlFor(urls, key) != ""
    ensures ByUrl(key, UrlFor(urls, key)) in Plan(keys, urls, query)
    ensures BySearch(key, query) !in Plan(keys, urls, query)
  {
    PlanMembers(keys, urls, query, ByUrl(key, UrlFor(urls, key)));
    PlanMembers(keys, urls, query, BySearch(key, query));
  }

  /** With no URL and a blank query there is nothing to do. */
  lemma NothingToDo(keys: seq<string>, urls: map<string, string>)
    requires forall k :: k in keys ==> UrlFor(urls, k) == ""
    ensures Plan(keys, urls, "") == []
  {
    if Plan(keys, urls, "") != [] {
      var t := Plan(keys, urls, "")[0];
      PlanMembers(keys, urls, "", t);
    }
  }

  // ------------------------------------------------------------ running the tasks

  const NoResults := "Sin resultados"

  /** `_search_first`: the first hit, renamed after the product; no hit gives
      a "Sin resultados" observation of the store; a search that raises
      raises. */
  function SearchFirst(adapters: Adapters, key: string, query: string, name: string, today: Date): (o: Outcome)
    ensures o.Raised? <==> adapters.search(key, query).Err?
    ensures o.Raised? ==> o.message == adapters.search(key, query).error
    ensures !o.Many?
    ensures adapters.search(key, query).Ok? && adapters.search(key, query).value != [] ==>
              o.obs == adapters.search(key, query).value[0].(productName := Json.Str(name))
    ensures adapters.search(key, query).Ok? && adapters.search(key, query).value == [] ==>
              && o.obs.store == adapters.storeName(key) && o.obs.productName == Json.Str(name)
              && o.obs.url == Json.Str("") && o.obs.price.None? && o.obs.error == Some(NoResults)
  {
    match adapters.search(key, query)
    case Err(message) => Raised(message)
    case Ok(found) =>
      if found != [] then One(found[0].(productName := Json.Str(name)))
      else One(NewObservation(adapters.storeName(key), Json.Str(name), Json.Str(""), None, today)
                 .(error := Some(NoResults)))
  }

  function RunTask(adapters: Adapters, name: string, today: Date, t: Task): Outcome
  {
    match t
    case ByUrl(key, url) => adapters.scrapeUrl(key, url, name)
    case BySearch(key, query) => SearchFirst(adapters, key, query, name, today)
  }

  /** `await asyncio.gather(*tasks, return_exceptions=True)`. */
  function Gather(adapters: Adapters, name: string, today: Date, tasks: seq<Task>): (r: seq<Outcome>)
    ensures |r| == |tasks|
    ensures forall i :: 0 <= i < |tasks| ==> r[i] == RunTask(adapters, name, today, tasks[i])
  {
    seq(|tasks|, i requires 0 <= i < |tasks| => RunTask(adapters, name, today, tasks[i]))
  }

  // ------------------------------------------------------------ flattening

  /** The record that stands for a task that raised. */
  function Unknown(name: string, message: string, today: Date): (o: Observation)
    ensures o.store == "unknown" && o.productName == Json.Str(name) && o.url == Json.Str("")
    ensures o.price.None? && o.error == Some(message)
  {
    NewObservation("unknown", Json.Str(name), Json.Str(""), None, today).(error := Some(message))
  }

  /** What one outcome contributes to the results. */
  function Spliced(o: Outcome, name: string, today: Date): seq<Observation>
  {
    match o
    case Raised(message) => [Unknown(name, message, today)]
    case One(obs) => [obs]
    case Many(list) => list
  }

  function Flattened(outcomes: seq<Outcome>, name: string, today: Date): seq<Observation>
    decreases |outcomes|
  {
    if outcomes == [] then []
    else Flattened(outcomes[..|outcomes| - 1], name, today) + Spliced(outcomes[|outcomes| - 1], name, today)
  }

  /** The loop of `scrape_product` over the outcomes. */
  method Flatten(outcomes: seq<Outcome>, name: string, today: Date) returns (results: seq<Observation>)
    ensures results == Flattened(outcomes, name, today)
  {
    results := [];
    var i := 0;
    while i < |outcomes|
      invariant 0 <= i <= |outcomes|
      invariant results == Flattened(outcomes[..i], name, today)
    {
      assert outcomes[..i + 1][..i] == outcomes[..i];
      match outcomes[i] {
        case Raised(message) =>
          results := results + [Unknown(name, message, today)];
        case Many(list) =>
          results := results + list;
        case One(obs) =>
          results := results + [obs];
      }
      i := i + 1;
    }
    assert outcomes[..i] == outcomes;
  }

  lemma {:induction false} FlattenedAppend(a: seq<Outcome>, b: seq<Outcome>, name: string, today: Date)
    ensures Flattened(a + b, name, today) == Flattened(a, name, today) + Flattened(b, name, today)
    decreases |b|
  {
    if b != [] {
      var b' := b[..|b| - 1];
      assert (a + b)[..|a + b| - 1] == a + b';
      FlattenedAppend(a, b', name, today);
    } else {
      assert a + b == a;
    }
  }

  /** Every outcome keeps its place: the results are the outcomes'
      contributions laid end to end, so a task that raised takes nothing
      away from its siblings. */
  lemma OutcomeKeepsItsPlace(outcomes: seq<Outcome>, i: nat, name: string, today: Date)
    requires i < |outcomes|
    ensures var start := |Flattened(outcomes[..i], name, today)|;
            var piece := Spliced(outcomes[i], name, today);
            && start + |piece| <= |Flattened(outcomes, name, today)|
            && Flattened(outcomes, name, today)[start..start + |piece|] == piece
  {
    var before := outcomes[..i];
    var after := outcomes[i + 1..];
    assert outcomes == before + [outcomes[i]] + after;
    FlattenedAppend(before + [outcomes[i]], after, name, today);
    FlattenedAppend(before, [outcomes[i]], name, today);
    assert Flattened([outcomes[i]], name, today) == Spliced(outcomes[i], name, today) by {
      assert [outcomes[i]][..0] == [];
    }
  }

  /** Without list outcomes there is exactly one result per task. */
  lemma {:induction false} OneResultPerTask(outcomes: seq<Outcome>, name: string, today: Date)
    requires forall i :: 0 <= i < |outcomes| ==> !outcomes[i].Many?
    ensures |Flattened(outcomes, name, today)| == |outcomes|
    decreases |outcomes|
  {
    if outcomes != [] {
      OneResultPerTask(outcomes[..|outcomes| - 1], name, today);
    }
  }

  // ------------------------------------------------------------ scrape_product

  /** `scrape_product(product)`: a NULL search query fails on `.strip()`
      before any task is planned. */
  function ProductObservations(entry: Db.CatalogEntry, adapters: Adapters, today: Date): Result<seq<Observation>, PyError>
  {
    match entry.searchQuery
    case None => Err(AttributeError)
    case Some(q) =>
      var tasks :- Planned(entry.urls, Text.Strip(q), adapters);
      Ok(Flattened(Gather(adapters, entry.name, today, tasks), entry.name, today))
  }

  method ScrapeProduct(entry: Db.CatalogEntry, adapters: Adapters, today: Date) returns (r: Result<seq<Observation>, PyError>)
    ensures r == ProductObservations(entry, adapters, today)
  {
    if entry.searchQuery.None? {
      return Err(AttributeError);
    }
    var query := Text.Strip(entry.searchQuery.value);
    var planned := PlanTasks(entry.urls, query, adapters);
    if planned.Err? {
      return Err(planned.error);
    }
    var tasks := planned.value;
    var results: seq<Observation> := [];
    if tasks != [] {
      var outcomes := Gather(adapters, entry.name, today, tasks);
      results := Flatten(outcomes, entry.name, today);
    }
    r := Ok(results);
  }

  /** A product with no URL for any store and a blank query yields no
      observations. */
  lemma NoTasksNoResults(entry: Db.CatalogEntry, adapters: Adapters, today: Date)
    requires entry.searchQuery.Some? && Text.Strip(entry.searchQuery.value) == ""
    requires forall k :: k in Registry ==> UrlFor(entry.urls, k) == ""
    ensures ProductObservations(entry, adapters, today) == Ok([])
  {
    NothingToDo(Registry, entry.urls);
  }

  /** Every task run through `_search_first` or `scrape_url` returns one
      value or raises, so each planned task gives exactly one result. */
  lemma OneResultPerStore(entry: Db.CatalogEntry, adapters: Adapters, today: Date)
    requires entry.searchQuery.Some?
    requires forall k, u, n :: !adapters.scrapeUrl(k, u, n).Many?
    ensures ProductObservations(entry, adapters, today).Err?
            <==> CallsMissingScrapeUrl(Plan(Registry, entry.urls, Text.Strip(entry.searchQuery.value)), adapters)
    ensures ProductObservations(entry, adapters, today).Ok? ==>
            |ProductObservations(entry, adapters, today).value|
            == |Plan(Registry, entry.urls, Text.Strip(entry.searchQuery.value))|
  {
    var tasks := Plan(Registry, entry.urls, Text.Strip(entry.searchQuery.value));
    OneResultPerTask(Gather(adapters, entry.name, today, tasks), entry.name, today);
  }

  /** A URL for a store whose module lacks `scrape_url` makes the whole
      product raise: no store's observation survives. */
  lemma MissingScrapeUrlRaises(entry: Db.CatalogEntry, adapters: Adapters, today: Date, key: string)
    requires entry.searchQuery.Some?
    requires key in Registry && UrlFor(entry.urls, key) != "" && !adapters.hasScrapeUrl(key)
    ensures ProductObservations(entry, adapters, today) == Err(AttributeError)
  {
    var i :| 0 <= i < |Registry| && Registry[i] == key;
    MissingInPlan(Registry, i, entry.urls, Text.Strip(entry.searchQuery.value), adapters);
  }

  // ------------------------------------------------------------ the modelled stores

  /** The adapters with the three JSON stores filled in by their models;
      the other stores come from `others`. */
  function JsonStores(fetch: Fetcher, today: Date, others: Adapters): Adapters
  {
    Adapters(
      (key: string, url: string, name: string) =>
        if key == "falabella" then One(Falabella.UrlObservation(url, name, fetch, today))
        else if key == "paris" then One(Paris.UrlObservation(url, name, fetch, today))
        else if key == "sodimac" then One(Sodimac.UrlObservation(url, name, fetch, today))
        else others.scrapeUrl(key, url, name),
      (key: string, query: string) =>
        if key == "falabella" then Ok(Falabella.SearchResults(query, 1, fetch, today))
        else if key == "paris" then Ok(Paris.SearchResults(query, 1, fetch, today))
        else if key == "sodimac" then Ok(Sodimac.SearchResults(query, 1, fetch, today))
        else others.search(key, query),
      (key: string) =>
        if key == "falabella" then Falabella.Store
        else if key == "paris" then Paris.Store
        else if key == "sodimac" then Sodimac.Store
        else others.storeName(key),
      (key: string) =>
        key == "falabella" || key == "paris" || key == "sodimac" || others.hasScrapeUrl(key))
  }

  /** The registry's stores whose modules hold only a scraper class. */
  const ClassOnly: set<string> := {"ripley", "mercadolibre"}

  /** Python's text for an attribute missing from a store module. */
  function MissingAttribute(key: string, attribute: string): string
  {
    "module 'scrapers." + key + "' has no attribute '" + attribute + "'"
  }

  /** The registry's modules as the repository has them: the three JSON
      stores by their models, and the class-only modules, on which looking
      up `scrape_url` or `search` raises AttributeError. */
  function RepositoryStores(fetch: Fetcher, today: Date, others: Adapters): Adapters
  {
    var json := JsonStores(fetch, today, others);
    json.(search := (key: string, query: string) =>
            if key in ClassOnly then Err(MissingAttribute(key, "search")) else json.search(key, query),
          hasScrapeUrl := (key: string) => key !in ClassOnly && json.hasScrapeUrl(key))
  }

  /** A product with a URL for a class-only store fails as a whole, and the
      run counts it as one error. */
  lemma ClassOnlyUrlFailsProduct(entry: Db.CatalogEntry, fetch: Fetcher, today: Date, others: Adapters, key: string)
    requires entry.searchQuery.Some?
    requires key in ClassOnly && UrlFor(entry.urls, key) != ""
    ensures ProductObservations(entry, RepositoryStores(fetch, today, others), today) == Err(AttributeError)
    ensures Counted(ProductObservations(entry, RepositoryStores(fetch, today, others), today)) == (0, 1)
  {
    MissingScrapeUrlRaises(entry, RepositoryStores(fetch, today, others), today, key);
  }

  /** Searching a class-only store fails inside its own task, which
      `gather` hands back as the exception: the product gets an "unknown"
      observation with the missing attribute's text, beside the others. */
  lemma ClassOnlySearchIsUnknown(fetch: Fetcher, today: Date, others: Adapters, name: string, key: string, query: string)
    requires key in ClassOnly
    ensures RunTask(RepositoryStores(fetch, today, others), name, today, BySearch(key, query))
            == Raised(MissingAttribute(key, "search"))
  {
  }

  /** The JSON stores' tasks never raise: a URL task's result carries the
      store's name and the URL looked up. */
  lemma JsonStoresNeverRaise(fetch: Fetcher, today: Date, others: Adapters, name: string, t: Task)
    requires t.key in {"falabella", "paris", "sodimac"}
    ensures !RunTask(JsonStores(fetch, today, others), name, today, t).Raised?
    ensures t.ByUrl? ==>
              && RunTask(JsonStores(fetch, today, others), name, today, t).One?
              && RunTask(JsonStores(fetch, today, others), name, today, t).obs.url == Json.Str(t.url)
              && RunTask(JsonStores(fetch, today, others), name, today, t).obs.store
                 == (if t.key == "falabella" then "Falabella" else if t.key == "paris" then "Paris" else "Sodimac")
  {
    var a := JsonStores(fetch, today, others);
    if t.ByUrl? {
      var o := a.scrapeUrl(t.key, t.url, name);
      if t.key == "falabella" {
        assert o == One(Falabella.UrlObservation(t.url, name, fetch, today));
      } else if t.key == "paris" {
        assert o == One(Paris.UrlObservation(t.url, name, fetch, today));
      } else {
        assert o == One(Sodimac.UrlObservation(t.url, name, fetch, today));
      }
    } else {
      assert a.search(t.key, t.query).Ok?;
    }
  }

  // ------------------------------------------------------------ run_all

  datatype Report = Report(scraped: nat, prices: nat, errors: nat, date: Option<Date>)

  /** What `scrape_product` gives for each product, in order. */
  function Scrapes(entries: seq<Db.CatalogEntry>, adapters: Adapters, today: Date): (r: seq<Result<seq<Observation>, PyError>>)
    ensures |r| == |entries|
    decreases |entries|
  {
    if entries == [] then []
    else Scrapes(entries[..|entries| - 1], adapters, today) + [ProductObservations(entries[|entries| - 1], adapters, today)]
  }

  /** Product `i` is scraped on its own catalog entry. */
  lemma {:induction false} ScrapesAt(entries: seq<Db.CatalogEntry>, adapters: Adapters, today: Date, i: nat)
    requires i < |entries|
    ensures Scrapes(entries, adapters, today)[i] == ProductObservations(entries[i], adapters, today)
    decreases |entries|
  {
    if i < |entries| - 1 {
      ScrapesAt(entries[..|entries| - 1], adapters, today, i);
    }
  }

  /** `sum(1 for p in prices if p.price)`. */
  function CountPriced(obs: seq<Observation>): (n: nat)
    ensures n <= |obs|
  {
    if obs == [] then 0 else (if HasPrice(obs[0]) then 1 else 0) + CountPriced(obs[1..])
  }

  /** `sum(1 for p in prices if p.error)`. */
  function CountErrors(obs: seq<Observation>): (n: nat)
    ensures n <= |obs|
  {
    if obs == [] then 0 else (if HasError(obs[0]) then 1 else 0) + CountErrors(obs[1..])
  }

  /** The `try` block for one product once scraped: the save, with the rows
      it stores; an exception from either step is the error. */
  function Saved(scrape: Result<seq<Observation>, PyError>): Result<(seq<Observation>, seq<PriceRow>), PyError>
  {
    var obs :- scrape;
    var rows :- BindAll(obs);
    Ok((obs, rows))
  }

  /** What one product adds to the price and error counters: its counts,
      or one error when the scrape or the save raised. */
  function Counted(scrape: Result<seq<Observation>, PyError>): (nat, nat)
  {
    match Saved(scrape)
    case Err(_) => (0, 1)
    case Ok((obs, _)) => (CountPriced(obs), CountErrors(obs))
  }

  function Tally(scrapes: seq<Result<seq<Observation>, PyError>>): (nat, nat)
    decreases |scrapes|
  {
    if scrapes == [] then (0, 0)
    else
      var before := Tally(scrapes[..|scrapes| - 1]);
      var one := Counted(scrapes[|scrapes| - 1]);
      (before.0 + one.0, before.1 + one.1)
  }

  /** The rows the run appends to `prices`, product by product. */
  function Stored(scrapes: seq<Result<seq<Observation>, PyError>>): seq<PriceRow>
    decreases |scrapes|
  {
    if scrapes == [] then []
    else
      var before := Stored(scrapes[..|scrapes| - 1]);
      match Saved(scrapes[|scrapes| - 1])
      case Err(_) => before
      case Ok((_, rows)) => before + rows
  }

  /** The number of products whose scrape or save raised. */
  function Raising(scrapes: seq<Result<seq<Observation>, PyError>>): (n: nat)
    ensures n <= |scrapes|
    decreases |scrapes|
  {
    if scrapes == [] then 0
    else Raising(scrapes[..|scrapes| - 1]) + (if Saved(scrapes[|scrapes| - 1]).Err? then 1 else 0)
  }

  lemma TallySnoc(scrapes: seq<Result<seq<Observation>, PyError>>, i: nat)
    requires i < |scrapes|
    ensures Tally(scrapes[..i + 1]).0 == Tally(scrapes[..i]).0 + Counted(scrapes[i]).0
    ensures Tally(scrapes[..i + 1]).1 == Tally(scrapes[..i]).1 + Counted(scrapes[i]).1
    ensures Saved(scrapes[i]).Err? ==> Stored(scrapes[..i + 1]) == Stored(scrapes[..i])
    ensures Saved(scrapes[i]).Ok? ==> Stored(scrapes[..i + 1]) == Stored(scrapes[..i]) + Saved(scrapes[i]).value.1
  {
    assert scrapes[..i + 1][..i] == scrapes[..i];
  }

  /** The body of `run_all`'s `try` after the scrape: save, then count. */
  method SaveAndCount(db: Db.PriceDb, scrape: Result<seq<Observation>, PyError>) returns (prices: nat, errors: nat)
    modifies db`prices
    ensures (prices, errors) == Counted(scrape)
    ensures Saved(scrape).Ok? ==> db.prices == old(db.prices) + Saved(scrape).value.1
    ensures Saved(scrape).Err? ==> db.prices == old(db.prices)
  {
    if scrape.Err? {
      return 0, 1;
    }
    var saved := db.SavePrices(scrape.value);
    if saved.Err? {
      return 0, 1;
    }
    prices := CountPriced(scrape.value);
    errors := CountErrors(scrape.value);
  }

  /** `run_all` with `init_db` and a one-argument `save_prices`: every
      product is scraped and saved in name order; one that raises counts
      one error and the loop goes on. */
  method RunAll(db: Db.PriceDb, adapters: Adapters, today: Date) returns (report: Report)
    modifies db`prices
    ensures report.scraped == |old(db.products)|
    ensures report.date == (if old(db.products) == [] then None else Some(today))
    ensures (report.prices, report.errors)
            == Tally(Scrapes(Db.Catalog(Order.Sort(old(db.products), Db.NameLe), old(db.urls)), adapters, today))
    ensures db.prices
            == old(db.prices) + Stored(Scrapes(Db.Catalog(Order.Sort(old(db.products), Db.NameLe), old(db.urls)), adapters, today))
  {
    var products := db.GetProducts();
    if products == [] {
      return Report(0, 0, 0, None);
    }
    ghost var scrapes := Scrapes(products, adapters, today);
    forall j | 0 <= j < |products|
      ensures scrapes[j] == ProductObservations(products[j], adapters, today)
    {
      ScrapesAt(products, adapters, today, j);
    }
    var totalPrices, totalErrors := ScrapeAndSaveEach(db, products, adapters, today, scrapes);
    report := Report(|products|, totalPrices, totalErrors, Some(today));
  }

  /** `await scrape_product(product)` for the product at `i`. */
  method ScrapeOne(products: seq<Db.CatalogEntry>, i: nat, adapters: Adapters, today: Date,
                   ghost scrapes: seq<Result<seq<Observation>, PyError>>)
    returns (r: Result<seq<Observation>, PyError>)
    requires i < |products| == |scrapes|
    requires forall j {:trigger ProductObservations(products[j], adapters, today)} ::
               0 <= j < |products| ==> scrapes[j] == ProductObservations(products[j], adapters, today)
    ensures r == scrapes[i]
  {
    r := ScrapeProduct(products[i], adapters, today);
  }

  /** The `for product in products` loop of `run_all`, given what each
      product's scrape gives. */
  method ScrapeAndSaveEach(db: Db.PriceDb, products: seq<Db.CatalogEntry>, adapters: Adapters, today: Date,
                           ghost scrapes: seq<Result<seq<Observation>, PyError>>)
    returns (totalPrices: nat, totalErrors: nat)
    requires |scrapes| == |products|
    requires forall j {:trigger ProductObservations(products[j], adapters, today)} ::
               0 <= j < |products| ==> scrapes[j] == ProductObservations(products[j], adapters, today)
    modifies db`prices
    ensures (totalPrices, totalErrors) == Tally(scrapes)
    ensures db.prices == old(db.prices) + Stored(scrapes)
  {
    totalPrices, totalErrors := 0, 0;
    var i := 0;
    while i < |products|
      invariant 0 <= i <= |products|
      invariant (totalPrices, totalErrors) == Tally(scrapes[..i])
      invariant db.prices == old(db.prices) + Stored(scrapes[..i])
    {
      TallySnoc(scrapes, i);
      var scraped := ScrapeOne(products, i, adapters, today, scrapes);
      var ok, err := SaveAndCount(db, scraped);
      totalPrices := totalPrices + ok;
      totalErrors := totalErrors + err;
      i := i + 1;
    }
    assert scrapes[..i] == scrapes;
  }

  /** The stored rows with a non-zero price (`priced`) or with a non-empty
      error (`!priced`). */
  function RowsWhere(rows: seq<PriceRow>, priced: bool): (r: seq<PriceRow>)
    ensures |r| <= |rows|
  {
    if rows == [] then []
    else
      var keep := if priced then rows[0].price.Some? && rows[0].price.value != 0.0
                  else rows[0].error.Some? && rows[0].error.value != [];
      (if keep then [rows[0]] else []) + RowsWhere(rows[1..], priced)
  }

  lemma {:induction false} RowsWhereAppend(a: seq<PriceRow>, b: seq<PriceRow>, priced: bool)
    ensures RowsWhere(a + b, priced) == RowsWhere(a, priced) + RowsWhere(b, priced)
  {
    if a != [] {
      assert (a + b)[1..] == a[1..] + b;
      RowsWhereAppend(a[1..], b, priced);
    } else {
      assert a + b == b;
    }
  }

  /** Counting the observations agrees with counting the rows they became. */
  lemma {:induction false} CountsSurviveBinding(obs: seq<Observation>)
    requires BindAll(obs).Ok?
    ensures CountPriced(obs) == |RowsWhere(BindAll(obs).value, true)|
    ensures CountErrors(obs) == |RowsWhere(BindAll(obs).value, false)|
  {
    if obs != [] {
      BindAllRows(obs);
      BindAllRows(obs[1..]);
      assert BindAll(obs).value == [Bind(obs[0]).value] + BindAll(obs[1..]).value;
      CountsSurviveBinding(obs[1..]);
    }
  }

  /** The run's price counter is the number of priced rows it stored, and
      its error counter the number of stored error rows plus one per
      product that raised. */
  lemma {:induction false} CountersMatchStoredRows(scrapes: seq<Result<seq<Observation>, PyError>>)
    ensures Tally(scrapes).0 == |RowsWhere(Stored(scrapes), true)|
    ensures Tally(scrapes).1 == |RowsWhere(Stored(scrapes), false)| + Raising(scrapes)
    decreases |scrapes|
  {
    if scrapes != [] {
      var init := scrapes[..|scrapes| - 1];
      CountersMatchStoredRows(init);
      match Saved(scrapes[|scrapes| - 1])
      case Err(_) =>
      case Ok((obs, rows)) =>
        CountsSurviveBinding(obs);
        RowsWhereAppend(Stored(init), rows, true);
        RowsWhereAppend(Stored(init), rows, false);
    }
  }

  // ------------------------------------------------------------ run_all as written

  /** The functions module `db` defines; `main.py` calls `db.init`, which
      is not among them. */
  const DbFunctions: set<string> := {"get_conn", "init_db", "save_prices", "get_products", "add_product",
                                      "delete_product", "get_price_history", "get_latest_prices", "get_summary_stats"}

  /** `db.<attr>(...)`: an attribute the module lacks raises. */
  function CallDb(attr: string): Result<(), PyError>
  {
    if attr in DbFunctions then Ok(()) else Err(AttributeError)
  }

  /** `save_prices` called with `args` positional arguments; it takes one. */
  function CallSavePrices(args: nat, obs: seq<Observation>): Result<seq<PriceRow>, PyError>
  {
    if args != 1 then Err(TypeError) else BindAll(obs)
  }

  /** The per-product counters as written, where the save passes the
      product id as an extra first argument. */
  function TallyAsWritten(scrapes: seq<Result<seq<Observation>, PyError>>): (nat, nat)
    decreases |scrapes|
  {
    if scrapes == [] then (0, 0)
    else
      var before := TallyAsWritten(scrapes[..|scrapes| - 1]);
      var one :=
        match scrapes[|scrapes| - 1]
        case Err(_) => (0, 1)
        case Ok(obs) =>
          match CallSavePrices(2, obs)
          case Err(_) => (0, 1)
          case Ok(_) => (CountPriced(obs), CountErrors(obs));
      (before.0 + one.0, before.1 + one.1)
  }

  /** `run_all` as written: `db.init()`, then the loop. */
  function RunAllAsWritten(scrapes: seq<Result<seq<Observation>, PyError>>, today: Date): Result<Report, PyError>
  {
    var _ :- CallDb("init");
    var t := TallyAsWritten(scrapes);
    Ok(Report(|scrapes|, t.0, t.1, if scrapes == [] then None else Some(today)))
  }

  /** As written, the run raises before it reads a single product, while
      the function the database module does define would have succeeded. */
  lemma RunAllAsWrittenRaises(scrapes: seq<Result<seq<Observation>, PyError>>, today: Date)
    ensures RunAllAsWritten(scrapes, today) == Err(AttributeError)
    ensures CallDb("init_db").Ok?
  {
    assert "init" !in DbFunctions;
  }

  /** As written, even past `db.init`, every save raises: no price is
      counted and every product counts as one error. */
  lemma {:induction false} EveryProductFailsAsWritten(scrapes: seq<Result<seq<Observation>, PyError>>)
    ensures TallyAsWritten(scrapes) == (0, |scrapes|)
    decreases |scrapes|
  {
    if scrapes != [] {
      EveryProductFailsAsWritten(scrapes[..|scrapes| - 1]);
    }
  }

  /** Corrected, a product whose observations all bind is counted in full,
      and every price it carries is counted. */
  lemma SavedProductCounts(obs: seq<Observation>)
    requires BindAll(obs).Ok?
    ensures Counted(Ok(obs)) == (CountPriced(obs), CountErrors(obs))
    ensures CallSavePrices(1, obs).Ok?
    ensures Tally([Ok(obs)]).0 == |RowsWhere(BindAll(obs).value, true)|
  {
    CountsSurviveBinding(obs);
    var one: seq<Result<seq<Observation>, PyError>> := [Ok(obs)];
    assert one[..0] == [];
  }
}
