/** The application's data: the detail record the upstream API returns for
    one Pokémon, the record the application keeps, the batched loading loop
    shared by both application versions, and the search filter. */
module Pokedex {
  import opened Base

  datatype Stat = Stat(name: string, value: int)

  /** The fields of one detail answer the application reads, already
      projected out of the JSON (`types[].type.name`,
      `abilities[].ability.name`, `stats[].stat.name` / `base_stat`).
      `baseExperience` is `None` when the API sends null. */
  datatype Detail = Detail(
    id: nat,
    name: string,
    types: seq<string>,
    height: int,
    weight: int,
    abilities: seq<string>,
    stats: seq<Stat>,
    baseExperience: Option<int>)

  /** The record the application lists, stores and searches. */
  datatype Pokemon = Pokemon(
    id: nat,
    name: string,
    image: string,
    types: seq<string>,
    height: int,
    weight: int,
    abilities: seq<string>,
    stats: seq<Stat>,
    baseExperience: int)

  const SpriteHost: string := "raw.githubusercontent.com"
  const SpritePrefix: string :=
    "https://" + SpriteHost + "/PokeAPI/" + "sprites" + "/master/sprites/pokemon/other/official-artwork/"

  function Digit(d: nat): char
    requires d < 10
  {
    "0123456789"[d]
  }

  /** The decimal text of a natural number, as a template literal prints it. */
  function Decimal(n: nat): (s: string)
    ensures |s| >= 1
    ensures forall i :: 0 <= i < |s| ==> '0' <= s[i] <= '9'
  {
    if n < 10 then [Digit(n)] else Decimal(n / 10) + [Digit(n % 10)]
  }

  /** The official-artwork sprite of a Pokémon. */
  function SpriteUrl(id: nat): string
  {
    SpritePrefix + Decimal(id) + ".png"
  }

  /** The record built from one detail answer: the fields are copied, the
      image is the sprite URL of the id, and a missing (or zero) base
      experience becomes 0 (`base_experience || 0`). */
  function ToPokemon(d: Detail): Pokemon
  {
    Pokemon(d.id, d.name, SpriteUrl(d.id), d.types, d.height, d.weight, d.abilities, d.stats,
            match d.baseExperience case Some(b) => b case None => 0)
  }

  /** Every sprite URL is on the sprite host, under a "sprites" path, and
      ends in ".png" whatever the case: the facts the workers' image tests
      look at. */
  lemma SpriteUrlIsImage(id: nat)
    ensures var u := SpriteUrl(id);
      Contains(u, "raw.githubusercontent.com") && Contains(u, "sprites")
      && EndsWith(Lower(u), ".png")
  {
    var tail := "/master/sprites/pokemon/other/official-artwork/" + Decimal(id) + ".png";
    SpriteUrlParts(id, tail);
    OccursInMiddle("https://", SpriteHost, "/PokeAPI/" + "sprites" + tail);
    OccursInMiddle("https://" + SpriteHost + "/PokeAPI/", "sprites", tail);
    LowerKeepsSuffix(SpritePrefix + Decimal(id), ".png");
  }

  /** A sprite URL never contains "pokeapi.co" (no "e" in it is followed by
      "a") nor "/static/" (no "t" in it is followed by "a"), so no worker
      mistakes it for an API call or a bundled asset. */
  lemma SpriteUrlAvoids(id: nat)
    ensures !Contains(SpriteUrl(id), "pokeapi.co")
    ensures !Contains(SpriteUrl(id), "/static/")
  {
    SpriteUrlNoPair(id, 'e', 'a');
    NoPairExcludes(SpriteUrl(id), "pokeapi.co", 3);
    SpriteUrlNoPair(id, 't', 'a');
    NoPairExcludes(SpriteUrl(id), "/static/", 2);
  }

  lemma SpriteUrlNoPair(id: nat, a: char, b: char)
    requires (a, b) in {('e', 'a'), ('t', 'a')}
    ensures NoPair(SpriteUrl(id), a, b)
  {
    var c1, c2, c3, c4, c5 := "https://", "raw.githubusercontent.com", "/PokeAPI/", "sprites", "/master/sprites/";
    var c6, c7 := "pokemon/other/", "official-artwork/";
    assert SpritePrefix == c1 + c2 + c3 + c4 + c5 + c6 + c7;
    NoPairAppend(c1, c2, a, b);
    NoPairAppend(c1 + c2, c3, a, b);
    NoPairAppend(c1 + c2 + c3, c4, a, b);
    NoPairAppend(c1 + c2 + c3 + c4, c5, a, b);
    NoPairAppend(c1 + c2 + c3 + c4 + c5, c6, a, b);
    NoPairAppend(c1 + c2 + c3 + c4 + c5 + c6, c7, a, b);
    var d := Decimal(id);
    NoPairAppend(SpritePrefix, d, a, b);
    NoPairAppend(SpritePrefix + d, ".png", a, b);
  }

  lemma SpriteUrlParts(id: nat, tail: string)
    requires tail == "/master/sprites/pokemon/other/official-artwork/" + Decimal(id) + ".png"
    ensures SpriteUrl(id) == "https://" + SpriteHost + ("/PokeAPI/" + "sprites" + tail)
    ensures SpriteUrl(id) == ("https://" + SpriteHost + "/PokeAPI/") + "sprites" + tail
    ensures SpriteUrl(id) == (SpritePrefix + Decimal(id)) + ".png"
  {
  }

  /** Lower-casing a string whose suffix is already lower case keeps that
      suffix. */
  lemma LowerKeepsSuffix(s: string, t: string)
    requires Lower(t) == t
    ensures EndsWith(Lower(s + t), t)
  {
    var l := Lower(s + t);
    forall j | 0 <= j < |t|
      ensures l[|s| + j] == t[j]
    {
      assert (s + t)[|s| + j] == t[j];
      assert Lower(t)[j] == LowerChar(t[j]);
    }
    assert l[|l| - |t|..] == t;
  }

  lemma OccursInMiddle(a: string, t: string, b: string)
    ensures OccursAt(a + t + b, t, |a|)
  {
    assert (a + t + b)[|a|..|a| + |t|] == t;
  }

  /** The records of the successful detail fetches, in order; a failed
      fetch (`None`) is dropped. */
  function Successes(ds: seq<Option<Detail>>): seq<Pokemon>
  {
    if ds == [] then []
    else Record(ds[0]) + Successes(ds[1..])
  }

  /** The record of one detail answer, none for a failed fetch. */
  function Record(o: Option<Detail>): seq<Pokemon>
  {
    match o
    case Some(d) => [ToPokemon(d)]
    case None => []
  }

  /** Accumulating batch by batch gives the same list as accumulating all at
      once: the order of the answers is kept across batches. */
  lemma {:induction false} SuccessesAppend(a: seq<Option<Detail>>, b: seq<Option<Detail>>)
    ensures Successes(a + b) == Successes(a) + Successes(b)
  {
    if a == [] {
      assert a + b == b;
    } else {
      assert (a + b)[0] == a[0];
      assert (a + b)[1..] == a[1..] + b;
      SuccessesAppend(a[1..], b);
      calc {
        Successes(a + b);
        Record(a[0]) + Successes(a[1..] + b);
        Record(a[0]) + (Successes(a[1..]) + Successes(b));
        (Record(a[0]) + Successes(a[1..])) + Successes(b);
      }
    }
  }

  /** Exactly the failed items are dropped: a record is in the list iff some
      fetch succeeded with a detail that yields it, and the list is shorter
      than the answers by exactly the number of failed fetches. */
  lemma {:induction false} SuccessesExactly(ds: seq<Option<Detail>>)
    ensures forall p :: p in Successes(ds) <==> exists i :: 0 <= i < |ds| && ds[i].Some? && ToPokemon(ds[i].value) == p
    ensures |Successes(ds)| + multiset(ds)[None] == |ds|
  {
    if ds != [] {
      SuccessesExactly(ds[1..]);
      assert ds == [ds[0]] + ds[1..];
      forall p | p in Successes(ds)
        ensures exists i :: 0 <= i < |ds| && ds[i].Some? && ToPokemon(ds[i].value) == p
      {
        if !(ds[0].Some? && ToPokemon(ds[0].value) == p) {
          var i :| 0 <= i < |ds[1..]| && ds[1..][i].Some? && ToPokemon(ds[1..][i].value) == p;
          assert ds[i + 1] == ds[1..][i];
        }
      }
      forall p | exists i :: 0 <= i < |ds| && ds[i].Some? && ToPokemon(ds[i].value) == p
        ensures p in Successes(ds)
      {
        var i :| 0 <= i < |ds| && ds[i].Some? && ToPokemon(ds[i].value) == p;
        if i > 0 {
          assert ds[1..][i - 1] == ds[i];
        }
      }
    }
  }

  const BatchSize: nat := 50

  /** The number of slices of 50 in `n` answers (`Math.ceil(n / 50)`). */
  function BatchCount(n: nat): nat
  {
    (n + BatchSize - 1) / BatchSize
  }

  /** The lists published while loading: after slice k, the records of the
      answers in slices 0..k. */
  function BatchPrefixes(ds: seq<Option<Detail>>): seq<seq<Pokemon>>
  {
    seq(BatchCount(|ds|), k requires 0 <= k < BatchCount(|ds|) => Successes(ds[..Min(BatchSize * (k + 1), |ds|)]))
  }

  /** Progress is monotone: every published list is a prefix of the final
      list (and so of every later published list). */
  lemma BatchPrefixesGrow(ds: seq<Option<Detail>>)
    ensures forall k :: 0 <= k < |BatchPrefixes(ds)| ==> BatchPrefixes(ds)[k] <= Successes(ds)
  {
    var m := BatchCount(|ds|);
    forall k | 0 <= k < m
      ensures BatchPrefixes(ds)[k] <= Successes(ds)
    {
      SuccessesOfPrefix(ds, Min(BatchSize * (k + 1), |ds|));
    }
  }

  /** The last list published is the final list. */
  lemma {:induction false} LastPrefixIsAll(ds: seq<Option<Detail>>)
    requires BatchCount(|ds|) > 0
    ensures BatchPrefixes(ds)[BatchCount(|ds|) - 1] == Successes(ds)
  {
    var m := BatchCount(|ds|);
    BatchCountCovers(|ds|);
    var e := Min(BatchSize * m, |ds|);
    assert e == |ds|;
    assert ds[..e] == ds;
    var bp := BatchPrefixes(ds);
    assert |bp| == m;
    assert bp[m - 1] == Successes(ds[..Min(BatchSize * (m - 1 + 1), |ds|)]);
  }

  lemma {:induction false} SuccessesOfPrefix(ds: seq<Option<Detail>>, end: nat)
    requires end <= |ds|
    ensures Successes(ds[..end]) <= Successes(ds)
  {
    assert ds == ds[..end] + ds[end..];
    SuccessesAppend(ds[..end], ds[end..]);
  }

  /** The slices cover the answers exactly: the last one starts before the
      end and reaches it. */
  lemma BatchCountCovers(n: nat)
    ensures BatchSize * BatchCount(n) >= n
    ensures n > 0 ==> BatchCount(n) > 0 && BatchSize * (BatchCount(n) - 1) < n
  {
    var m := (n + 49) / 50;
    assert 50 * m <= n + 49 < 50 * m + 50;
  }

  /** The loading loop: the detail answers are taken in slices of 50; after
      each slice its successful records are appended and the running list
      is published. `ds[i]` is the outcome of the i-th listed Pokémon's
      detail fetch (`Promise.all` over a slice is taken in order). Returns
      the final list and every list published, in order. */
  method LoadInBatches(ds: seq<Option<Detail>>) returns (all: seq<Pokemon>, published: seq<seq<Pokemon>>)
    ensures all == Successes(ds)
    ensures published == BatchPrefixes(ds)
  {
    all := [];
    published := [];
    var i := 0;
    while i < |ds|
      invariant 0 <= i < |ds| + BatchSize
      invariant i == BatchSize * |published|
      invariant all == Successes(ds[..Min(i, |ds|)])
      invariant forall k :: 0 <= k < |published| ==> published[k] == Successes(ds[..Min(BatchSize * (k + 1), |ds|)])
    {
      var end := Min(i + BatchSize, |ds|);
      var batch := ds[i..end];
      SuccessesAppend(ds[..i], batch);
      assert ds[..i] + batch == ds[..end];
      all := all + Successes(batch);
      published := published + [all];
      i := i + BatchSize;
    }
    assert ds[..Min(i, |ds|)] == ds;
    assert |published| == BatchCount(|ds|);
  }

  /** The search filter's test: the lower-cased name contains the
      lower-cased term. */
  predicate Matches(p: Pokemon, term: string)
  {
    Contains(Lower(p.name), Lower(term))
  }

  /** `pokemon.filter(p => p.name.toLowerCase().includes(term.toLowerCase()))`:
      exactly the matching records, and no others. */
  function FilterByName(list: seq<Pokemon>, term: string): (r: seq<Pokemon>)
    ensures |r| <= |list|
    ensures forall p :: p in r <==> p in list && Matches(p, term)
  {
    if list == [] then []
    else
      var rest := FilterByName(list[1..], term);
      assert list == [list[0]] + list[1..];
      if Matches(list[0], term) then [list[0]] + rest else rest
  }

  /** The filter keeps the original order: filtering a concatenation is the
      concatenation of the filtered parts. */
  lemma {:induction false} FilterAppend(a: seq<Pokemon>, b: seq<Pokemon>, term: string)
    ensures FilterByName(a + b, term) == FilterByName(a, term) + FilterByName(b, term)
  {
    if a == [] {
      assert a + b == b;
    } else {
      assert (a + b)[0] == a[0];
      assert (a + b)[1..] == a[1..] + b;
      FilterAppend(a[1..], b, term);
    }
  }

  /** The filter keeps every matching record as many times as the list holds
      it, and drops every other record entirely. */
  lemma {:induction false} FilterCounts(list: seq<Pokemon>, term: string, p: Pokemon)
    ensures multiset(FilterByName(list, term))[p] == if Matches(p, term) then multiset(list)[p] else 0
  {
    if list != [] {
      FilterCounts(list[1..], term, p);
      assert list == [list[0]] + list[1..];
    }
  }

  /** An empty search term keeps the whole list. */
  lemma {:induction false} EmptyTermKeepsAll(list: seq<Pokemon>)
    ensures FilterByName(list, "") == list
  {
    if list != [] {
      assert OccursAt(Lower(list[0].name), Lower(""), 0);
      EmptyTermKeepsAll(list[1..]);
    }
  }

  /** Filtering twice with the same term changes nothing. */
  lemma {:induction false} FilterIdempotent(list: seq<Pokemon>, term: string)
    ensures FilterByName(FilterByName(list, term), term) == FilterByName(list, term)
  {
    if list != [] {
      FilterIdempotent(list[1..], term);
    }
  }
}
