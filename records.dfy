/** The persisted IRS Publication 78 record (`IRSNonprofitData`) and the
    attribute-level operations the update routine performs on one row:
    `getattr`, `setattr`, `model(**data)` and the fold that detects a change. */
module Records {

  datatype Option<T> = None | Some(value: T)

  /** The six columns of `IRSNonprofitData`; `Ein` is the primary key. */
  datatype Field = Ein | Name | City | State | Country | DeductabilityCode

  datatype Record = Record(ein: string, name: string, city: string, state: string,
                           country: string, deductabilityCode: string)

  /** The table: primary key to row. */
  type Store = map<string, Record>

  /** Every row is filed under its own primary key. */
  predicate Keyed(store: Store) {
    forall k :: k in store ==> store[k].ein == k
  }

  /** `getattr(row, f)` */
  function Get(r: Record, f: Field): string {
    match f
    case Ein => r.ein
    case Name => r.name
    case City => r.city
    case State => r.state
    case Country => r.country
    case DeductabilityCode => r.deductabilityCode
  }

  /** `setattr(row, f, v)`: only attribute `f` changes. */
  function Set(r: Record, f: Field, v: string): (r': Record)
    ensures Get(r', f) == v
    ensures forall g :: g != f ==> Get(r', g) == Get(r, g)
  {
    match f
    case Ein => r.(ein := v)
    case Name => r.(name := v)
    case City => r.(city := v)
    case State => r.(state := v)
    case Country => r.(country := v)
    case DeductabilityCode => r.(deductabilityCode := v)
  }

  /** Two rows are equal when every attribute is. */
  lemma RecordExtensionality(a: Record, b: Record)
    requires forall f :: Get(a, f) == Get(b, f)
    ensures a == b
  {
    assert Get(a, Ein) == Get(b, Ein) && Get(a, Name) == Get(b, Name);
    assert Get(a, City) == Get(b, City) && Get(a, State) == Get(b, State);
    assert Get(a, Country) == Get(b, Country);
    assert Get(a, DeductabilityCode) == Get(b, DeductabilityCode);
  }

  /** Two tables are equal when they hold the same keys with the same rows. */
  lemma StoreExtensionality(x: Store, y: Store)
    requires x.Keys == y.Keys
    requires forall k :: k in x ==> x[k] == y[k]
    ensures x == y
  {
  }

  /** The dict a feed line converts to, as the list of its (attribute, value) items. */
  type Data = seq<(Field, string)>

  /** `data[f]`, or None when `f` is not a key of the dict (the last item wins,
      as in dict construction). */
  function Lookup(data: Data, f: Field): (v: Option<string>)
    ensures v.Some? <==> exists i :: 0 <= i < |data| && data[i].0 == f
    ensures v.Some? ==> exists i :: 0 <= i < |data| && data[i] == (f, v.value)
  {
    if data == [] then None
    else if data[|data| - 1].0 == f then Some(data[|data| - 1].1)
    else Lookup(data[..|data| - 1], f)
  }

  /** No attribute occurs twice among the items. */
  predicate DistinctFields(data: Data) {
    forall i, j :: 0 <= i < j < |data| ==> data[i].0 != data[j].0
  }

  /** In a dict every item is found under its own key. */
  lemma {:induction false} LookupItem(data: Data, i: nat)
    requires DistinctFields(data) && i < |data|
    ensures Lookup(data, data[i].0) == Some(data[i].1)
  {
    if i < |data| - 1 {
      LookupItem(data[..|data| - 1], i);
    }
  }

  /** The loop `for attr, value in data.items(): setattr(row, attr, value)`. */
  function SetFields(r: Record, data: Data): Record {
    if data == [] then r
    else Set(SetFields(r, data[..|data| - 1]), data[|data| - 1].0, data[|data| - 1].1)
  }

  /** After the loop, the attributes named in `data` hold its values (the last
      item of a name wins) and every other attribute keeps its own. */
  lemma {:induction false} SetFieldsGet(r: Record, data: Data)
    ensures forall f :: Get(SetFields(r, data), f) == match Lookup(data, f) case Some(v) => v case None => Get(r, f)
  {
    if data != [] {
      SetFieldsGet(r, data[..|data| - 1]);
    }
  }

  /** A row with every attribute at the column default, the empty string. */
  const Blank := Record("", "", "", "", "", "")

  /** `model(**data)`. */
  function FromData(data: Data): Record {
    SetFields(Blank, data)
  }

  /** `model(**data)`: the attributes in `data` take its values, the rest the
      default `''` of a CharField. */
  lemma FromDataGet(data: Data)
    ensures forall f :: Get(FromData(data), f) == match Lookup(data, f) case Some(v) => v case None => ""
  {
    SetFieldsGet(Blank, data);
  }

  /** The change test `reduce(lambda acc, (n, v): (getattr(row, n) != v) or acc,
      data.items(), acc)`, folded from the left. */
  function DiffFold(row: Record, items: Data, acc: bool): (changed: bool)
    ensures changed <==> acc || exists i :: 0 <= i < |items| && Get(row, items[i].0) != items[i].1
  {
    if items == [] then acc
    else
      var rest := DiffFold(row, items[1..], (Get(row, items[0].0) != items[0].1) || acc);
      assert forall i :: 1 <= i < |items| ==> items[i] == items[1..][i - 1];
      rest
  }

  /** When the fold finds no difference, overwriting would leave the row as it
      is: skipping the save loses nothing. */
  lemma {:induction false} NoDifferenceNoChange(row: Record, data: Data)
    requires !DiffFold(row, data, false)
    ensures SetFields(row, data) == row
  {
    SetFieldsGet(row, data);
    forall f ensures Get(SetFields(row, data), f) == Get(row, f) {
      match Lookup(data, f)
      case None =>
      case Some(v) =>
        var i :| 0 <= i < |data| && data[i] == (f, v);
        assert Get(row, data[i].0) == data[i].1;
    }
    RecordExtensionality(SetFields(row, data), row);
  }

  /** Once a dict's items are written into a row, the fold finds no difference
      between that row and the same dict. */
  lemma {:induction false} SetFieldsAgrees(row: Record, data: Data)
    requires DistinctFields(data)
    ensures !DiffFold(SetFields(row, data), data, false)
  {
    SetFieldsGet(row, data);
    forall i | 0 <= i < |data|
      ensures Get(SetFields(row, data), data[i].0) == data[i].1
    {
      LookupItem(data, i);
    }
  }

  /** A second overwrite with the same dict changes nothing. */
  lemma {:induction false} SetFieldsIdempotent(row: Record, data: Data)
    ensures SetFields(SetFields(row, data), data) == SetFields(row, data)
  {
    var once := SetFields(row, data);
    SetFieldsGet(row, data);
    SetFieldsGet(once, data);
    forall f ensures Get(SetFields(once, data), f) == Get(once, f) {
    }
    RecordExtensionality(SetFields(once, data), once);
  }
}
