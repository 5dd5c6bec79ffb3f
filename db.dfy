/** The SQLite database of the price tracker: the `products`, `urls` and
    `prices` tables, held in memory, and the operations that change them.
    The read-only queries over `prices` are in module `Queries`. */
module Db {
  import opened Prelude
  import opened Base
  import opened Rows
  import Order

  /** A row of `products` (`created_at` aside). */
  datatype ProductRow = ProductRow(id: nat, name: string, searchQuery: Option<string>)

  /** The `urls` table: `UNIQUE(product_id, store)` makes it a map from a
      product id and a store key to one URL. */
  type UrlTable = map<nat, map<string, string>>

  /** One product as `get_products` returns it. */
  datatype CatalogEntry = CatalogEntry(id: nat, name: string, searchQuery: Option<string>, urls: map<string, string>)

  /** `SELECT store, url FROM urls WHERE product_id=?`, as a dict. */
  function UrlsOf(urls: UrlTable, id: nat): map<string, string>
  {
    if id in urls then urls[id] else map[]
  }

  /** `INSERT OR REPLACE INTO urls`: the pair's URL, replaced or added. */
  function Upsert(urls: UrlTable, id: nat, store: string, url: string): (r: UrlTable)
    ensures r.Keys == urls.Keys + {id}
  {
    urls[id := UrlsOf(urls, id)[store := url]]
  }

  /** The upserts `add_product` issues, in order: one per store whose URL
      is not empty. */
  function UpsertAll(urls: UrlTable, id: nat, given: seq<(string, string)>): (r: UrlTable)
    ensures r.Keys <= urls.Keys + {id}
    decreases |given|
  {
    if given == [] then urls
    else
      var before := UpsertAll(urls, id, given[..|given| - 1]);
      var (store, url) := given[|given| - 1];
      if url == "" then before else Upsert(before, id, store, url)
  }

  /** The last non-empty URL given for a store, if any. */
  function LastUrl(given: seq<(string, string)>, store: string): Option<string>
    decreases |given|
  {
    if given == [] then None
    else if given[|given| - 1].0 == store && given[|given| - 1].1 != "" then Some(given[|given| - 1].1)
    else LastUrl(given[..|given| - 1], store)
  }

  /** Store by store, the product's URLs after `add_product` are the last
      non-empty URL given for the store, or else what the store had; no
      other product's URLs change. */
  lemma {:induction false} UpsertAllMeaning(urls: UrlTable, id: nat, given: seq<(string, string)>, store: string)
    ensures forall other :: other != id ==> UrlsOf(UpsertAll(urls, id, given), other) == UrlsOf(urls, other)
    ensures LastUrl(given, store).Some? ==>
              && store in UrlsOf(UpsertAll(urls, id, given), id)
              && UrlsOf(UpsertAll(urls, id, given), id)[store] == LastUrl(given, store).value
    ensures LastUrl(given, store).None? ==>
              && (store in UrlsOf(UpsertAll(urls, id, given), id) <==> store in UrlsOf(urls, id))
              && (store in UrlsOf(urls, id) ==> UrlsOf(UpsertAll(urls, id, given), id)[store] == UrlsOf(urls, id)[store])
    decreases |given|
  {
    if given != [] {
      UpsertAllMeaning(urls, id, given[..|given| - 1], store);
    }
  }

  function EntryOf(p: ProductRow, urls: UrlTable): (e: CatalogEntry)
    ensures e.id == p.id && e.name == p.name && e.searchQuery == p.searchQuery
    ensures e.urls == UrlsOf(urls, p.id)
  {
    CatalogEntry(p.id, p.name, p.searchQuery, UrlsOf(urls, p.id))
  }

  /** The products, each with its URLs, in the order given. */
  function Catalog(ps: seq<ProductRow>, urls: UrlTable): (c: seq<CatalogEntry>)
    ensures |c| == |ps|
    ensures forall i :: 0 <= i < |ps| ==> c[i] == EntryOf(ps[i], urls)
  {
    seq(|ps|, i requires 0 <= i < |ps| => EntryOf(ps[i], urls))
  }

  /** `ORDER BY name`. */
  predicate NameLe(a: ProductRow, b: ProductRow)
  {
    Order.StrLe(a.name, b.name)
  }

  lemma NameOrderIsTotal()
    ensures Order.TotalPreorder(NameLe)
  {
    forall a, b ensures NameLe(a, b) || NameLe(b, a) {
      Order.StrLeTotal(a.name, b.name);
    }
    forall a, b, c | NameLe(a, b) && NameLe(b, c) ensures NameLe(a, c) {
      Order.StrLeTransitive(a.name, b.name, c.name);
    }
  }

  /** The id of the product with this name, if there is one. */
  function FindByName(ps: seq<ProductRow>, name: string): (r: Option<nat>)
    ensures r.Some? <==> exists p :: p in ps && p.name == name
    ensures r.Some? ==> exists p :: p in ps && p.name == name && p.id == r.value
  {
    if ps == [] then None
    else if ps[0].name == name then Some(ps[0].id)
    else
      assert forall p :: p in ps <==> p == ps[0] || p in ps[1..];
      FindByName(ps[1..], name)
  }

  /** `DELETE FROM products WHERE id=?`. */
  function WithoutId(ps: seq<ProductRow>, id: nat): (r: seq<ProductRow>)
    ensures forall p :: p in r <==> p in ps && p.id != id
  {
    if ps == [] then []
    else
      assert forall p :: p in ps <==> p == ps[0] || p in ps[1..];
      (if ps[0].id == id then [] else [ps[0]]) + WithoutId(ps[1..], id)
  }

  /** Ids and names are unique (the primary key and `name ... UNIQUE`). */
  predicate Unique(ps: seq<ProductRow>)
  {
    forall i, j :: 0 <= i < j < |ps| ==> ps[i].id != ps[j].id && ps[i].name != ps[j].name
  }

  lemma {:induction false} WithoutIdUnique(ps: seq<ProductRow>, id: nat)
    requires Unique(ps)
    ensures Unique(WithoutId(ps, id))
  {
    if ps != [] {
      var tail := WithoutId(ps[1..], id);
      assert Unique(ps[1..]) by {
        assert forall i :: 0 <= i < |ps[1..]| ==> ps[1..][i] == ps[i + 1];
      }
      WithoutIdUnique(ps[1..], id);
      if ps[0].id != id {
        var r := [ps[0]] + tail;
        forall k | 0 <= k < |tail| ensures ps[0].id != tail[k].id && ps[0].name != tail[k].name {
          assert tail[k] in ps[1..];
          var m :| 0 <= m < |ps[1..]| && ps[1..][m] == tail[k];
          assert ps[m + 1] == tail[k];
        }
        forall i, j | 0 <= i < j < |r| ensures r[i].id != r[j].id && r[i].name != r[j].name {
          if i == 0 {
            assert r[j] == tail[j - 1];
          } else {
            assert r[i] == tail[i - 1] && r[j] == tail[j - 1];
          }
        }
      }
    }
  }

  class PriceDb {
    var products: seq<ProductRow>
    var urls: UrlTable
    var prices: seq<PriceRow>
    /** The AUTOINCREMENT counter of `products`: ids are never reused. */
    var lastId: nat

    /** Unique ids and names, every id issued by the counter, and no URL
        row for a product that is not there. */
    ghost predicate Valid()
      reads this
    {
      && Unique(products)
      && (forall p :: p in products ==> 0 < p.id <= lastId)
      && (forall k :: k in urls ==> exists p :: p in products && p.id == k)
    }

    /** `init_db` on a new database file: the three tables, empty. */
    constructor ()
      ensures Valid()
      ensures products == [] && urls == map[] && prices == [] && lastId == 0
    {
      products := [];
      urls := map[];
      prices := [];
      lastId := 0;
    }

    /** `save_prices`: one row appended per observation, or, when any of
        them cannot be stored, nothing at all; no row is ever changed. */
    method SavePrices(obs: seq<Observation>) returns (r: Result<(), PyError>)
      modifies this`prices
      ensures BindAll(obs).Ok? ==> r.Ok? && prices == old(prices) + BindAll(obs).value
      ensures BindAll(obs).Err? ==> r == Err(BindAll(obs).error) && prices == old(prices)
      ensures r.Ok? ==> |prices| == |old(prices)| + |obs|
    {
      var rows := BindAll(obs);
      if rows.Err? {
        return Err(rows.error);
      }
      BindAllRows(obs);
      prices := prices + rows.value;
      r := Ok(());
    }

    /** `add_product`: a new name gets the next id; an existing one keeps
        its id and its search query. Then each non-empty URL is upserted
        for its store. */
    method AddProduct(name: string, searchQuery: Option<string>, given: seq<(string, string)>) returns (id: nat)
      requires Valid()
      modifies this
      ensures Valid()
      ensures FindByName(old(products), name).Some? ==>
                && id == FindByName(old(products), name).value
                && products == old(products) && lastId == old(lastId)
      ensures FindByName(old(products), name).None? ==>
                && id == old(lastId) + 1 && lastId == id
                && products == old(products) + [ProductRow(id, name, searchQuery)]
      ensures urls == UpsertAll(old(urls), id, given)
      ensures prices == old(prices)
    {
      var existing := FindByName(products, name);
      if existing.Some? {
        id := existing.value;
      } else {
        lastId := lastId + 1;
        id := lastId;
        var row := ProductRow(id, name, searchQuery);
        forall i, j | 0 <= i < j < |products + [row]|
          ensures (products + [row])[i].id != (products + [row])[j].id
          ensures (products + [row])[i].name != (products + [row])[j].name
        {
          if j == |products| {
            assert products[i] in products;
          }
        }
        products := products + [row];
      }
      assert exists p :: p in products && p.id == id;
      UpsertUrls(id, given);
    }

    /** The loop of `add_product` over the given URLs: an empty URL is
        skipped, any other replaces the store's URL for the product. */
    method UpsertUrls(id: nat, given: seq<(string, string)>)
      requires Valid() && exists p :: p in products && p.id == id
      modifies this`urls
      ensures Valid()
      ensures urls == UpsertAll(old(urls), id, given)
    {
      var i := 0;
      while i < |given|
        invariant 0 <= i <= |given|
        invariant urls == UpsertAll(old(urls), id, given[..i])
        invariant Valid()
      {
        assert given[..i + 1][..i] == given[..i];
        var (store, url) := given[i];
        if url != "" {
          urls := Upsert(urls, id, store, url);
        }
        i := i + 1;
      }
      assert given[..i] == given;
    }

    /** `delete_product`: the product and its URLs go; its price rows stay,
        and its id is not issued again. */
    method DeleteProduct(id: nat)
      requires Valid()
      modifies this
      ensures Valid()
      ensures products == WithoutId(old(products), id)
      ensures urls == old(urls) - {id}
      ensures prices == old(prices) && lastId == old(lastId)
    {
      WithoutIdUnique(products, id);
      urls := urls - {id};
      products := WithoutId(products, id);
    }

    /** `get_products`: the products by name, each with its URLs. */
    method GetProducts() returns (result: seq<CatalogEntry>)
      ensures result == Catalog(Order.Sort(products, NameLe), urls)
    {
      var rows := Order.Sort(products, NameLe);
      result := [];
      var i := 0;
      while i < |rows|
        invariant 0 <= i <= |rows|
        invariant result == Catalog(rows[..i], urls)
      {
        result := result + [EntryOf(rows[i], urls)];
        i := i + 1;
      }
      assert rows[..i] == rows;
    }
  }

  /** The catalog lists every product once, with exactly its own URLs,
      in name order. */
  lemma CatalogMeaning(ps: seq<ProductRow>, urls: UrlTable, e: CatalogEntry)
    ensures |Catalog(Order.Sort(ps, NameLe), urls)| == |ps|
    ensures Order.Sorted(Order.Sort(ps, NameLe), NameLe)
    ensures e in Catalog(Order.Sort(ps, NameLe), urls) <==> exists p :: p in ps && e == EntryOf(p, urls)
  {
    var sorted := Order.Sort(ps, NameLe);
    NameOrderIsTotal();
    Order.SortSorted(ps, NameLe);
    forall p ensures p in sorted <==> p in ps {
      Order.SortMembers(ps, NameLe, p);
    }
    var c := Catalog(sorted, urls);
    if e in c {
      var i :| 0 <= i < |c| && c[i] == e;
      assert sorted[i] in sorted;
    }
    if exists p :: p in ps && e == EntryOf(p, urls) {
      var p :| p in ps && e == EntryOf(p, urls);
      var i :| 0 <= i < |sorted| && sorted[i] == p;
      assert c[i] == e;
    }
  }
}
