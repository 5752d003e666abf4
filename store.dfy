/** The records of one resource and the list operations the handler performs
    on them between loading and saving the data file: the first-match search
    by id, the `{'id': ..., **data}` record literal, and append, replace and
    pop. */
module Store {
  import opened Wrappers
  import opened Json

  /** The index of the first record whose `str(id)` equals the path id
      (`next((index for index, item in enumerate(items) if ...), None)`). */
  function FindIndex(items: seq<Record>, id: string): (r: Option<nat>)
    ensures r.Some? ==> r.value < |items| && IdText(items[r.value]) == id
    ensures r.Some? ==> forall j :: 0 <= j < r.value ==> IdText(items[j]) != id
    ensures r.None? ==> forall j :: 0 <= j < |items| ==> IdText(items[j]) != id
  {
    if items == [] then None
    else if IdText(items[0]) == id then Some(0)
    else match FindIndex(items[1..], id)
      case None => None
      case Some(k) => Some(k + 1)
  }

  /** The first record whose `str(id)` equals the path id
      (`next((i for i in items if ...), None)`). */
  function Lookup(items: seq<Record>, id: string): (r: Option<Record>)
    ensures r.Some? <==> exists j :: 0 <= j < |items| && IdText(items[j]) == id
    ensures r.Some? ==> r.value in items && IdText(r.value) == id
    ensures r.Some? ==> r.value == items[FindIndex(items, id).value]
  {
    match FindIndex(items, id)
    case None => None
    case Some(k) => Some(items[k])
  }

  /** The literal `{'id': id, **data}`: the payload's fields, with `id` added
      only when the payload has none; a payload `id` wins. */
  function WithId(id: Value, data: Record): (r: Record)
    ensures "id" in r && r["id"] == if "id" in data then data["id"] else id
    ensures r.Keys == data.Keys + {"id"}
    ensures forall k :: k in data ==> r[k] == data[k]
  {
    map["id" := id] + data
  }

  /** `items.append({'id': len(items) + 1, **data})`. */
  function Appended(items: seq<Record>, data: Record): (r: seq<Record>)
    ensures |r| == |items| + 1 && r[..|items|] == items
    ensures r[|items|] == WithId(Int(|items| + 1), data)
  {
    items + [WithId(Int(|items| + 1), data)]
  }

  /** `items[k] = {'id': items[k]['id'], **data}`: the record is replaced by
      the payload's fields plus the old id; no other old field survives. */
  function Replaced(items: seq<Record>, k: nat, data: Record): (r: seq<Record>)
    requires k < |items| && "id" in items[k]
    ensures |r| == |items|
    ensures forall j :: 0 <= j < |items| && j != k ==> r[j] == items[j]
    ensures r[k].Keys == data.Keys + {"id"}
    ensures forall f :: f in data ==> r[k][f] == data[f]
    ensures r[k]["id"] == if "id" in data then data["id"] else items[k]["id"]
  {
    items[k := WithId(items[k]["id"], data)]
  }

  /** `items.pop(k)`: the others keep their order and their ids. */
  function Removed(items: seq<Record>, k: nat): (r: seq<Record>)
    requires k < |items|
    ensures |r| == |items| - 1
    ensures forall j :: 0 <= j < k ==> r[j] == items[j]
    ensures forall j :: k <= j < |r| ==> r[j] == items[j + 1]
  {
    items[..k] + items[k + 1..]
  }

  /** Delete loses exactly the removed record: the multiset of records left
      plus that record is the multiset before. */
  lemma RemovedLosesOnlyIt(items: seq<Record>, k: nat)
    requires k < |items|
    ensures multiset(Removed(items, k)) + multiset{items[k]} == multiset(items)
  {
    assert items == items[..k] + [items[k]] + items[k + 1..];
  }

  // ---------------------------------------------------------------------
  // How ids behave

  /** The ids a resource gets when records are only ever created, from an
      empty file, by bodies without `id`: 1, 2, 3, ... */
  ghost predicate Dense(items: seq<Record>) {
    forall i :: 0 <= i < |items| ==> "id" in items[i] && items[i]["id"] == Int(i + 1)
  }

  /** Creating from a body without `id` keeps the ids dense. */
  lemma CreateKeepsDense(items: seq<Record>, data: Record)
    requires Dense(items) && "id" !in data
    ensures Dense(Appended(items, data))
  {
  }

  /** The search returns an index exactly when it is the first match. */
  lemma FirstMatch(items: seq<Record>, id: string, m: nat)
    requires m < |items| && IdText(items[m]) == id
    requires forall j :: 0 <= j < m ==> IdText(items[j]) != id
    ensures FindIndex(items, id) == Some(m)
  {
    var r := FindIndex(items, id);
    assert r.Some?;
    assert !(r.value < m) && !(m < r.value);
  }

  /** In a dense store the path id `str(k+1)` finds record k and nothing earlier. */
  lemma DenseLookup(items: seq<Record>, k: nat)
    requires Dense(items) && k < |items|
    ensures FindIndex(items, IntText(k + 1)) == Some(k)
  {
    forall j | 0 <= j < k
      ensures IdText(items[j]) != IntText(k + 1)
    {
      if IdText(items[j]) == IntText(k + 1) {
        IntTextInjective(j + 1, k + 1);
      }
    }
    FirstMatch(items, IntText(k + 1), k);
  }

  /** After deleting record k from a dense store, the survivors keep the ids
      they had: those before k keep ids 1..k, the others ids k+2..n. */
  lemma RemovedFromDense(items: seq<Record>, k: nat, j: nat)
    requires Dense(items) && k < |items| && j < |items| - 1
    ensures var i := if j < k then j else j + 1;
            Removed(items, k)[j] == items[i] && "id" in items[i] && items[i]["id"] == Int(i + 1)
  {
  }

  /** After deleting record k from a dense store and creating one, the
      records before the last survivor answer to other ids than `str(n)`. */
  lemma EarlierIdsDiffer(items: seq<Record>, k: nat, data: Record, j: nat)
    requires Dense(items) && k + 1 < |items| && j < |items| - 2
    ensures IdText(Appended(Removed(items, k), data)[j]) != IntText(|items|)
  {
    RemovedFromDense(items, k, j);
    var i := if j < k then j else j + 1;
    var after := Appended(Removed(items, k), data);
    assert after[j] == Removed(items, k)[j];
    if IdText(after[j]) == IntText(|items|) {
      IntTextInjective(i + 1, |items|);
    }
  }

  /** After deleting record k (not the last) from a dense store and creating
      one, the last two records both have id n. */
  lemma LastTwoShareId(items: seq<Record>, k: nat, data: Record)
    requires Dense(items) && k + 1 < |items| && "id" !in data
    ensures var after := Appended(Removed(items, k), data);
            |after| == |items|
            && "id" in after[|items| - 2] && after[|items| - 2]["id"] == Int(|items|)
            && "id" in after[|items| - 1] && after[|items| - 1]["id"] == Int(|items|)
  {
    var n := |items|;
    var removed := Removed(items, k);
    RemovedFromDense(items, k, n - 2);
    assert Appended(removed, data)[n - 2] == removed[n - 2] == items[n - 1];
  }

  /** Ids are not unique: deleting any record but the last from a dense store
      (path id `str(k+1)` finds it, by `DenseLookup`) and then creating one
      gives the new record the id of the surviving last record, and a lookup
      of that id finds the older record. */
  lemma DeleteThenCreateDuplicatesId(items: seq<Record>, k: nat, data: Record)
    requires Dense(items) && k + 1 < |items| && "id" !in data
    ensures var after := Appended(Removed(items, k), data);
            |after| == |items|
            && after[|items| - 2]["id"] == after[|items| - 1]["id"] == Int(|items|)
            && FindIndex(after, IntText(|items|)) == Some(|items| - 2)
  {
    var n := |items|;
    var after := Appended(Removed(items, k), data);
    LastTwoShareId(items, k, data);
    forall j | 0 <= j < n - 2
      ensures IdText(after[j]) != IntText(n)
    {
      EarlierIdsDiffer(items, k, data, j);
    }
    FirstMatch(after, IntText(n), n - 2);
  }

  /** Create then get: when no stored record answers to the new id, looking
      up `str(len(items) + 1)` after a create returns the created record. */
  lemma CreateThenLookup(items: seq<Record>, data: Record)
    requires "id" !in data
    requires forall j :: 0 <= j < |items| ==> IdText(items[j]) != IntText(|items| + 1)
    ensures Lookup(Appended(items, data), IntText(|items| + 1)) == Some(WithId(Int(|items| + 1), data))
  {
    var after := Appended(items, data);
    assert IdText(after[|items|]) == IntText(|items| + 1);
    FirstMatch(after, IntText(|items| + 1), |items|);
  }

  /** A payload carrying `id` rewrites a record's id on update. */
  lemma UpdateCanChangeId(items: seq<Record>, k: nat, data: Record)
    requires k < |items| && "id" in items[k]
    requires "id" in data && data["id"] != items[k]["id"]
    ensures Replaced(items, k, data)[k]["id"] != items[k]["id"]
  {
  }
}
