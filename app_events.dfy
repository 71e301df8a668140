/** What the loaders hand to the user interface: the React state setters
    they call, in order. Rendering itself is not modelled. */
module AppEvents {
  import opened Base
  import opened Pokedex

  datatype Event =
    | SetLoading(on: bool)        // setLoading
    | Publish(items: seq<Pokemon>) // setPokemon
    | SetCacheLoaded(on: bool)    // setCacheLoaded
    | Milestones(count: nat)      // checkMilestones + the "captured" notification

  /** One `setPokemon` per list, in order. */
  function Publications(lists: seq<seq<Pokemon>>): (es: seq<Event>)
    ensures |es| == |lists|
    ensures forall k :: 0 <= k < |es| ==> es[k] == Publish(lists[k])
  {
    seq(|lists|, k requires 0 <= k < |lists| => Publish(lists[k]))
  }

  /** The progress a batched load publishes: one list per slice of 50. */
  function Progress(ds: seq<Option<Detail>>): seq<Event>
  {
    Publications(BatchPrefixes(ds))
  }
}
