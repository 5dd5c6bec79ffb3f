/** The loop shared by the JSON adapters' `search`: each listed item becomes
    an observation, in order, until one raises; that exception becomes one
    final error observation and the items already read are kept. */
module Listing {
  import opened Prelude
  import opened Base
  import Json

  function Collect(items: seq<Json.Value>, read: Json.Value -> Result<Observation, PyError>,
                   onError: PyError -> Observation): (r: seq<Observation>)
    ensures |r| <= |items|
  {
    if items == [] then []
    else match read(items[0])
      case Err(e) => [onError(e)]
      case Ok(o) => [o] + Collect(items[1..], read, onError)
  }

  /** Item by item, the observations are the items read, in order, except
      that the first item that raises gives its error observation and ends
      them; so they are fewer than the items only after an exception. */
  lemma {:induction false} CollectShape(items: seq<Json.Value>, read: Json.Value -> Result<Observation, PyError>,
                                        onError: PyError -> Observation)
    ensures var r := Collect(items, read, onError);
      && (forall i :: 0 <= i < |r| ==>
            (read(items[i]).Ok? && r[i] == read(items[i]).value)
            || (i == |r| - 1 && read(items[i]).Err? && r[i] == onError(read(items[i]).error)))
      && (|r| < |items| ==> |r| > 0 && read(items[|r| - 1]).Err?)
      && ((forall i :: 0 <= i < |items| ==> read(items[i]).Ok?) ==> |r| == |items|)
  {
    if items != [] && read(items[0]).Ok? {
      var rest := Collect(items[1..], read, onError);
      CollectShape(items[1..], read, onError);
      var r := Collect(items, read, onError);
      assert r == [read(items[0]).value] + rest;
      forall i | 1 <= i < |r| ensures r[i] == rest[i - 1] && items[i] == items[1..][i - 1] { }
      if forall i :: 0 <= i < |items| ==> read(items[i]).Ok? {
        assert forall i :: 0 <= i < |items[1..]| ==> read(items[1..][i]).Ok?;
      }
    }
  }

  /** One more item read without an exception extends the observations by one. */
  lemma CollectStep(items: seq<Json.Value>, i: nat, read: Json.Value -> Result<Observation, PyError>,
                    onError: PyError -> Observation)
    requires i < |items| && read(items[i]).Ok?
    ensures Collect(items[i..], read, onError) == [read(items[i]).value] + Collect(items[i + 1..], read, onError)
  {
    assert items[i..][1..] == items[i + 1..];
  }

  /** An item that raises ends the observations with its error. */
  lemma CollectStop(items: seq<Json.Value>, i: nat, read: Json.Value -> Result<Observation, PyError>,
                    onError: PyError -> Observation)
    requires i < |items| && read(items[i]).Err?
    ensures Collect(items[i..], read, onError) == [onError(read(items[i]).error)]
  {
    assert items[i..][0] == items[i];
  }

  /** When every item read and every error observation belongs to `store`,
      so do all the observations, and only the last can carry an error. */
  lemma CollectFromOneStore(items: seq<Json.Value>, read: Json.Value -> Result<Observation, PyError>,
                            onError: PyError -> Observation, store: string)
    requires forall x :: read(x).Ok? ==> read(x).value.store == store && read(x).value.error.None?
    requires forall e :: onError(e).store == store
    ensures forall i :: 0 <= i < |Collect(items, read, onError)| ==> Collect(items, read, onError)[i].store == store
    ensures forall i :: 0 <= i < |Collect(items, read, onError)| - 1 ==> Collect(items, read, onError)[i].error.None?
  {
    CollectShape(items, read, onError);
  }
}
