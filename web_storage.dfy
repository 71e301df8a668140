/** The browser's `localStorage` as the application uses it: string values
    under string keys, some of them JSON lists of records and some decimal
    numbers, and writes that fail when the origin's quota is exhausted. */
module WebStorage {
  import opened Base
  import opened Pokedex

  /** A stored string, by what `JSON.parse` and `parseInt` make of it: the
      JSON text of a list of records, the decimal text of an integer, or any
      other string. */
  datatype Text = ListJson(items: seq<Pokemon>) | NumberText(n: int) | OtherText(s: string)

  /** `if (value)`: `getItem` gave a string and it is not empty (the JSON
      text of a list and the text of a number never are). */
  predicate Truthy(v: Option<Text>)
  {
    v.Some? && v.value != OtherText("")
  }

  /** `JSON.parse(text)` read as a list of records; `None` is a thrown
      SyntaxError. */
  function ParseList(t: Text): (r: Option<seq<Pokemon>>)
    ensures r.Some? <==> t.ListJson?
    ensures r.Some? ==> t == ListJson(r.value)
  {
    match t
    case ListJson(items) => Some(items)
    case _ => None
  }

  /** `parseInt(text)`; `None` is NaN. */
  function ParseInt(t: Text): (r: Option<int>)
    ensures r.Some? <==> t.NumberText?
    ensures r.Some? ==> t == NumberText(r.value)
  {
    match t
    case NumberText(n) => Some(n)
    case _ => None
  }

  /** The storage's contents and its quota: `quota[i]` says whether the
      i-th write from now fits; once the sequence is used up every write
      fits. */
  datatype Store = Store(items: map<string, Text>, quota: seq<bool>)
  {
    /** `getItem(key)`: `None` is null. */
    function Get(key: string): Option<Text>
    {
      if key in items then Some(items[key]) else None
    }

    predicate Fits()
    {
      quota == [] || quota[0]
    }

    /** `setItem(key, v)`: the value is written when it fits; otherwise a
        QuotaExceededError is thrown (`ok` false) and nothing is written.
        Either way one quota answer is used up. */
    function Set(key: string, v: Text): (r: (Store, bool))
      ensures r.1 <==> Fits()
      ensures r.0.Get(key) == if Fits() then Some(v) else Get(key)
      ensures forall k :: k != key ==> r.0.Get(k) == Get(k)
      ensures r.0.quota == if quota == [] then [] else quota[1..]
    {
      var rest := if quota == [] then [] else quota[1..];
      if Fits() then (Store(items[key := v], rest), true) else (Store(items, rest), false)
    }

    /** `removeItem(key)`: never fails, uses no quota answer. */
    function Remove(key: string): (s: Store)
      ensures s.Get(key).None?
      ensures forall k :: k != key ==> s.Get(k) == Get(k)
      ensures s.quota == quota
    {
      Store(items - {key}, quota)
    }
  }

  class LocalStorage {
    var items: map<string, Text>
    var quota: seq<bool>

    constructor (initial: map<string, Text>, quota: seq<bool>)
      ensures State() == Store(initial, quota)
    {
      this.items := initial;
      this.quota := quota;
    }

    function State(): Store
      reads this
    {
      Store(items, quota)
    }

    function GetItem(key: string): Option<Text>
      reads this
    {
      State().Get(key)
    }

    method SetItem(key: string, v: Text) returns (ok: bool)
      modifies this
      ensures (State(), ok) == old(State()).Set(key, v)
    {
      ok := quota == [] || quota[0];
      if ok {
        items := items[key := v];
      }
      quota := if quota == [] then [] else quota[1..];
    }

    method RemoveItem(key: string)
      modifies this
      ensures State() == old(State()).Remove(key)
    {
      items := items - {key};
    }
  }
}
