/** The per-page availability cache that SearchResults.tsx and Home.tsx both
    keep (`availCache: Record<string, boolean>`): one flag per venue id,
    written on the first check of that id and returned unchanged afterwards.
    `check` stands for the uncached check of one id. */
module AvailabilityCache {
  import opened VenueTypes
  import opened Seqs

  /** The ids of a venue list. */
  function Ids(vs: seq<Venue>): set<string> {
    set i | 0 <= i < |vs| :: vs[i].id
  }

  /** The flag a cached check answers for `id`: the stored flag on a hit,
      the uncached check on a miss. */
  function Lookup(cache: map<string, bool>, id: string, check: string -> bool): bool {
    if id in cache then cache[id] else check(id)
  }

  /** The flag of a venue under a cache: stored, or checked on a miss. */
  function CachedFlag(cache: map<string, bool>, check: string -> bool): Venue -> bool {
    (v: Venue) => Lookup(cache, v.id, check)
  }

  /** Keeping the venues whose looked-up flag is set is filtering by the
      cached check. */
  lemma FilterByCachedFlags(vs: seq<Venue>, flags: seq<bool>, cache: map<string, bool>, check: string -> bool)
    requires |flags| == |vs|
    requires forall k :: 0 <= k < |vs| ==> flags[k] == Lookup(cache, vs[k].id, check)
    ensures FilterByFlags(vs, flags) == Filter(CachedFlag(cache, check), vs)
  {
    FilterByFlagsIsFilter(vs, flags, CachedFlag(cache, check));
  }

  /** The cache after checking every venue of `vs` in order. */
  function Resolve(cache: map<string, bool>, vs: seq<Venue>, check: string -> bool): map<string, bool>
    decreases |vs|
  {
    if vs == [] then cache
    else
      var before := Resolve(cache, vs[..|vs| - 1], check);
      var id := vs[|vs| - 1].id;
      if id in before then before else before[id := check(id)]
  }

  /** Old entries stay, and every new id gets its uncached check. */
  lemma {:induction false} ResolveSpec(cache: map<string, bool>, vs: seq<Venue>, check: string -> bool)
    ensures Resolve(cache, vs, check).Keys == cache.Keys + Ids(vs)
    ensures forall id :: id in cache ==> Resolve(cache, vs, check)[id] == cache[id]
    ensures forall id :: id in Resolve(cache, vs, check) && id !in cache ==>
              Resolve(cache, vs, check)[id] == check(id)
    decreases |vs|
  {
    if vs != [] {
      var front := vs[..|vs| - 1];
      ResolveSpec(cache, front, check);
      IdsSnoc(front, vs[|vs| - 1]);
      assert front + [vs[|vs| - 1]] == vs;
    }
  }

  lemma IdsSnoc(vs: seq<Venue>, v: Venue)
    ensures Ids(vs + [v]) == Ids(vs) + {v.id}
  {
    var ws := vs + [v];
    assert ws[|vs|] == v;
    forall id | id in Ids(ws) ensures id in Ids(vs) + {v.id} {
      var i :| 0 <= i < |ws| && ws[i].id == id;
      if i < |vs| {
        assert vs[i] == ws[i];
      }
    }
    forall id | id in Ids(vs) ensures id in Ids(ws) {
      var i :| 0 <= i < |vs| && vs[i].id == id;
      assert ws[i] == vs[i];
    }
  }

  /** One more cached check: a hit leaves the cache as it is, a miss stores
      the uncached answer under the new id. */
  lemma ResolveStep(cache: map<string, bool>, vs: seq<Venue>, v: Venue, check: string -> bool)
    ensures var before := Resolve(cache, vs, check);
            Resolve(cache, vs + [v], check) ==
              if v.id in before then before else before[v.id := check(v.id)]
  {
    assert (vs + [v])[..|vs + [v]| - 1] == vs;
  }

  /** Looking an id up in the cache built so far answers what looking it up
      in the starting cache answers. */
  lemma LookupAfter(cache: map<string, bool>, vs: seq<Venue>, id: string, check: string -> bool)
    ensures Lookup(Resolve(cache, vs, check), id, check) == Lookup(cache, id, check)
  {
    ResolveSpec(cache, vs, check);
  }

  /** The ids whose check missed the cache, in the order they were fetched. */
  function Misses(cache: map<string, bool>, vs: seq<Venue>): seq<string> {
    if vs == [] then []
    else
      var front := vs[..|vs| - 1];
      var id := vs[|vs| - 1].id;
      Misses(cache, front) + (if id in cache || id in Ids(front) then [] else [id])
  }

  /** One more check fetches exactly when it misses the cache built so far. */
  lemma MissesStep(cache: map<string, bool>, vs: seq<Venue>, v: Venue, check: string -> bool)
    ensures Misses(cache, vs + [v]) ==
      Misses(cache, vs) + (if v.id in Resolve(cache, vs, check) then [] else [v.id])
  {
    assert (vs + [v])[..|vs + [v]| - 1] == vs;
    ResolveSpec(cache, vs, check);
    assert v.id in Resolve(cache, vs, check) <==> v.id in cache || v.id in Ids(vs);
  }

  /** Every id that was not cached beforehand is fetched, and fetched once:
      a cache hit never fetches, and repeated ids fetch only the first time. */
  lemma {:induction false} MissesFetchEachNewIdOnce(cache: map<string, bool>, vs: seq<Venue>)
    ensures forall k :: 0 <= k < |Misses(cache, vs)| ==> Misses(cache, vs)[k] in Ids(vs) - cache.Keys
    ensures forall id :: id in Ids(vs) - cache.Keys ==> id in Misses(cache, vs)
    ensures forall j, k :: 0 <= j < k < |Misses(cache, vs)| ==> Misses(cache, vs)[j] != Misses(cache, vs)[k]
    decreases |vs|
  {
    if vs != [] {
      var front := vs[..|vs| - 1];
      var v := vs[|vs| - 1];
      assert vs == front + [v];
      MissesFetchEachNewIdOnce(cache, front);
      IdsSnoc(front, v);
    }
  }
}
