/** The `prices` table's rows, and how `save_prices` turns observations into
    them: the eight columns of its INSERT, bound from each observation in
    order, inside one transaction. */
module Rows {
  import opened Prelude
  import opened Base
  import Json
  import Text

  /** One row of `prices` (its `id` and `created_at` columns aside). */
  datatype PriceRow = PriceRow(
    date: Date,
    store: string,
    productName: string,
    url: Option<string>,
    price: Option<real>,
    originalPrice: Option<real>,
    currency: string,
    error: Option<string>)

  /** An upstream value bound to a TEXT column: `None` is NULL, an integer
      (and a Python bool, which is one) is stored as its decimal text, and
      a list or dict cannot be bound at all. */
  function Column(v: Json.Value): (r: Result<Option<string>, PyError>)
    ensures r.Err? <==> v.Array? || v.Object?
    ensures r.Ok? ==> (r.value.None? <==> v.Null?)
    ensures v.Str? ==> r == Ok(Some(v.s))
  {
    match v
    case Null => Ok(None)
    case Bool(b) => Ok(Some(if b then "1" else "0"))
    case Int(i) => Ok(Some(Text.IntToString(i)))
    case Str(s) => Ok(Some(s))
    case _ => Err(BindingError)
  }

  /** The row `save_prices` inserts for one observation. Parameters are
      bound before the row is stored, so an unbindable name or URL is
      reported before the NOT NULL check on `product_name`; the SKU has no
      column and is dropped. */
  function Bind(o: Observation): (r: Result<PriceRow, PyError>)
    ensures r.Ok? <==> Column(o.productName).Ok? && !o.productName.Null? && Column(o.url).Ok?
    ensures Column(o.productName).Ok? && Column(o.url).Ok? && o.productName.Null? ==> r == Err(IntegrityError)
    ensures r.Ok? ==>
              && r.value.date == o.date && r.value.store == o.store
              && Some(r.value.productName) == Column(o.productName).value
              && r.value.url == Column(o.url).value
              && r.value.price == o.price && r.value.originalPrice == o.originalPrice
              && r.value.currency == o.currency && r.value.error == o.error
  {
    var name :- Column(o.productName);
    var url :- Column(o.url);
    if name.None? then Err(IntegrityError)
    else Ok(PriceRow(o.date, o.store, name.value, url, o.price, o.originalPrice, o.currency, o.error))
  }

  /** `executemany` over the observations: the first row that fails aborts
      the statement, and the uncommitted transaction stores nothing. */
  function BindAll(obs: seq<Observation>): Result<seq<PriceRow>, PyError>
  {
    if obs == [] then Ok([])
    else
      var row :- Bind(obs[0]);
      var rest :- BindAll(obs[1..]);
      Ok([row] + rest)
  }

  /** All observations bind exactly when each one does, and then there is
      one row per observation, in order. */
  lemma {:induction false} BindAllRows(obs: seq<Observation>)
    ensures BindAll(obs).Ok? <==> forall i :: 0 <= i < |obs| ==> Bind(obs[i]).Ok?
    ensures BindAll(obs).Ok? ==>
              && |BindAll(obs).value| == |obs|
              && forall i :: 0 <= i < |obs| ==> BindAll(obs).value[i] == Bind(obs[i]).value
  {
    if obs != [] {
      BindAllRows(obs[1..]);
      assert forall i :: 1 <= i < |obs| ==> obs[1..][i - 1] == obs[i];
      if Bind(obs[0]).Ok? && BindAll(obs[1..]).Ok? {
        var r := BindAll(obs).value;
        assert r == [Bind(obs[0]).value] + BindAll(obs[1..]).value;
      }
    }
  }

  /** A failing batch reports the error of its first failing observation. */
  lemma {:induction false} BindAllFirstError(obs: seq<Observation>, k: nat)
    requires k < |obs| && Bind(obs[k]).Err?
    requires forall j :: 0 <= j < k ==> Bind(obs[j]).Ok?
    ensures BindAll(obs) == Err(Bind(obs[k]).error)
  {
    if k > 0 {
      assert forall j :: 0 <= j < k - 1 ==> obs[1..][j] == obs[j + 1];
      BindAllFirstError(obs[1..], k - 1);
    }
  }

  /** Observations whose name and URL are strings, as every adapter's are
      when the upstream document holds strings, always store. */
  lemma StringFieldsBind(obs: seq<Observation>)
    requires forall i :: 0 <= i < |obs| ==> obs[i].productName.Str? && obs[i].url.Str?
    ensures BindAll(obs).Ok? && |BindAll(obs).value| == |obs|
  {
    BindAllRows(obs);
  }
}
