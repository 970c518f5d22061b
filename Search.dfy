/** `search_nearby_stores_enhanced` in bot.py: the category filter, the
    priority grouping, the search-term fallback, the per-place filters, the
    quality score and the cached pipeline. The maps provider is abstract:
    `nearby` is the outcome of a nearby search for one keyword (a failure is
    a raised request), `detailsOf` the outcome of a details request for one
    place id (None when the request raised), `log10` the logarithm on review
    counts. */
module Search {
  import opened Wrappers
  import opened Text
  import opened Config
  import opened Stores
  import opened StoreCache
  import opened Seqs

  datatype StoreConfig = StoreConfig(query: string, chain: string, icon: string, category: string,
                                     priority: int, searchTerms: seq<string>)

  /** A nearby-search hit. */
  datatype Place = Place(placeId: string, coord: Coord, name: Option<string>, vicinity: Option<string>)

  /** The fields of a details response the core reads; None is an absent key. */
  datatype Details = Details(name: Option<string>, address: Option<string>,
                             businessStatus: Option<string>, rating: Option<real>,
                             reviewCount: Option<int>, phone: Option<string>,
                             website: Option<string>, openNow: Option<bool>)

  type Nearby = string -> Result<seq<Place>, string>
  type DetailsFn = string -> Option<Details>
  type LogFn = int -> real

  /** `get_comprehensive_store_database`. */
  function Catalog(): seq<StoreConfig> {
    [ StoreConfig("Target", "Target", "🎯", "Department", 1, ["Target", "Target Store", "Target Corporation", "Target Superstore"]),
      StoreConfig("Walmart", "Walmart", "🏪", "Superstore", 1, ["Walmart", "Walmart Supercenter"]),
      StoreConfig("BJ's Wholesale Club", "BJs", "🛒", "Wholesale", 1, ["BJ's", "BJs", "BJ's Wholesale"]),
      StoreConfig("Best Buy", "Best Buy", "🔌", "Electronics", 1, ["Best Buy", "BestBuy"]) ]
  }

  // ------------------------------------------------------- category filter

  predicate Matches(c: StoreConfig, category: string) {
    Lower(c.category) == Lower(category)
  }

  function MatchingCategory(cs: seq<StoreConfig>, category: string): (r: seq<StoreConfig>)
    ensures |r| <= |cs|
    ensures forall c :: c in r ==> c in cs && Matches(c, category)
    ensures forall c :: c in cs && Matches(c, category) ==> c in r
  {
    if cs == [] then []
    else if Matches(cs[0], category) then [cs[0]] + MatchingCategory(cs[1..], category)
    else MatchingCategory(cs[1..], category)
  }

  /** A truthy category keeps the configs whose category matches it case-insensitively. */
  function FilterByCategory(cs: seq<StoreConfig>, category: Option<string>): (r: seq<StoreConfig>)
    ensures !Truthy(category) ==> r == cs
    ensures Truthy(category) ==> r == MatchingCategory(cs, category.value)
  {
    if Truthy(category) then MatchingCategory(cs, category.value) else cs
  }

  lemma {:induction false} NoMatchNothingSelected(cs: seq<StoreConfig>, category: string)
    requires forall c :: c in cs ==> !Matches(c, category)
    ensures MatchingCategory(cs, category) == []
  {
    if cs != [] {
      assert forall c :: c in cs[1..] ==> c in cs;
      NoMatchNothingSelected(cs[1..], category);
    }
  }

  lemma {:induction false} AtMostOneMatch(cs: seq<StoreConfig>, category: string)
    requires forall i, j :: 0 <= i < j < |cs| ==> !(Matches(cs[i], category) && Matches(cs[j], category))
    ensures |MatchingCategory(cs, category)| <= 1
  {
    if cs != [] {
      AtMostOneMatch(cs[1..], category);
      if Matches(cs[0], category) {
        assert forall c :: c in cs[1..] ==> !Matches(c, category) by {
          forall k | 0 <= k < |cs| - 1 ensures !Matches(cs[1..][k], category) {
            assert cs[1..][k] == cs[k + 1];
          }
        }
        NoMatchNothingSelected(cs[1..], category);
      }
    }
  }

  /** Categories with pairwise different lower-cased first letters select at most one config. */
  lemma DistinctInitialsSelectOne(cs: seq<StoreConfig>, category: string)
    requires forall i :: 0 <= i < |cs| ==> |cs[i].category| > 0
    requires forall i, j :: 0 <= i < j < |cs| ==> LowerChar(cs[i].category[0]) != LowerChar(cs[j].category[0])
    ensures |MatchingCategory(cs, category)| <= 1
  {
    forall i, j | 0 <= i < j < |cs| ensures !(Matches(cs[i], category) && Matches(cs[j], category)) {
      assert Lower(cs[i].category)[0] != Lower(cs[j].category)[0];
    }
    AtMostOneMatch(cs, category);
  }

  /** The catalogue's categories start with different letters, so a category selects at most one config. */
  lemma CategorySelectsAtMostOne(category: string)
    ensures |MatchingCategory(Catalog(), category)| <= 1
  {
    var cs := Catalog();
    assert cs[0].category[0] == 'D' && cs[1].category[0] == 'S';
    assert cs[2].category[0] == 'W' && cs[3].category[0] == 'E';
    DistinctInitialsSelectOne(cs, category);
  }

  // ------------------------------------------------------ priority groups

  function MinPriority(cs: seq<StoreConfig>): (p: int)
    requires cs != []
    ensures forall c :: c in cs ==> p <= c.priority
    ensures exists c :: c in cs && c.priority == p
  {
    if |cs| == 1 then cs[0].priority
    else
      var m := MinPriority(cs[1..]);
      if cs[0].priority <= m then cs[0].priority else m
  }

  function WithPriority(cs: seq<StoreConfig>, p: int): (r: seq<StoreConfig>)
    ensures forall c :: c in r ==> c in cs && c.priority == p
  {
    if cs == [] then []
    else if cs[0].priority == p then [cs[0]] + WithPriority(cs[1..], p)
    else WithPriority(cs[1..], p)
  }

  function WithoutPriority(cs: seq<StoreConfig>, p: int): (r: seq<StoreConfig>)
    ensures forall c :: c in r ==> c in cs && c.priority != p
    ensures |r| <= |cs|
    ensures (exists c :: c in cs && c.priority == p) ==> |r| < |cs|
  {
    if cs == [] then []
    else if cs[0].priority == p then WithoutPriority(cs[1..], p)
    else [cs[0]] + WithoutPriority(cs[1..], p)
  }

  lemma {:induction false} PrioritySplit(cs: seq<StoreConfig>, p: int)
    ensures multiset(WithPriority(cs, p)) + multiset(WithoutPriority(cs, p)) == multiset(cs)
  {
    if cs != [] {
      PrioritySplit(cs[1..], p);
      assert cs == [cs[0]] + cs[1..];
    }
  }

  /** A group at priority p followed by a sorted list of higher priorities is sorted. */
  lemma GroupThenHigher(group: seq<StoreConfig>, rest: seq<StoreConfig>, p: int)
    requires forall c :: c in group ==> c.priority == p
    requires forall c :: c in rest ==> c.priority > p
    requires forall i, j :: 0 <= i < j < |rest| ==> rest[i].priority <= rest[j].priority
    ensures forall i, j :: 0 <= i < j < |group + rest| ==> (group + rest)[i].priority <= (group + rest)[j].priority
  {
    var r := group + rest;
    forall i, j | 0 <= i < j < |r| ensures r[i].priority <= r[j].priority {
      if j < |group| {
        assert r[i] in group && r[j] in group;
      } else if i < |group| {
        assert r[i] in group && r[j] == rest[j - |group|] && rest[j - |group|] in rest;
      } else {
        assert r[i] == rest[i - |group|] && r[j] == rest[j - |group|];
      }
    }
  }

  /** The visiting order of the search loop: the groups in ascending priority, each in catalogue order. */
  function PriorityOrder(cs: seq<StoreConfig>): (r: seq<StoreConfig>)
    ensures multiset(r) == multiset(cs)
    ensures forall i, j :: 0 <= i < j < |r| ==> r[i].priority <= r[j].priority
    decreases |cs|
  {
    if cs == [] then []
    else
      var p := MinPriority(cs);
      var rest := PriorityOrder(WithoutPriority(cs, p));
      PrioritySplit(cs, p);
      assert forall c :: c in rest ==> c.priority > p by {
        forall c | c in rest ensures c.priority > p {
          assert c in multiset(WithoutPriority(cs, p));
        }
      }
      GroupThenHigher(WithPriority(cs, p), rest, p);
      WithPriority(cs, p) + rest
  }

  lemma {:induction false} SamePriorityGroups(cs: seq<StoreConfig>, p: int)
    requires forall c :: c in cs ==> c.priority == p
    ensures WithPriority(cs, p) == cs && WithoutPriority(cs, p) == []
  {
    if cs != [] {
      assert forall c :: c in cs[1..] ==> c in cs;
      SamePriorityGroups(cs[1..], p);
      assert cs == [cs[0]] + cs[1..];
    }
  }

  /** With a single priority level the loop visits the configs in their own order. */
  lemma SinglePriorityKeepsOrder(cs: seq<StoreConfig>, p: int)
    requires cs != [] && forall c :: c in cs ==> c.priority == p
    ensures PriorityOrder(cs) == cs
  {
    assert MinPriority(cs) == p;
    SamePriorityGroups(cs, p);
  }

  /** Every catalogue config has priority 1, so the catalogue order is the search order. */
  lemma CatalogSearchOrder(category: Option<string>)
    ensures PriorityOrder(FilterByCategory(Catalog(), category)) == FilterByCategory(Catalog(), category)
  {
    var cs := FilterByCategory(Catalog(), category);
    assert forall c :: c in cs ==> c in Catalog();
    if cs != [] {
      SinglePriorityKeepsOrder(cs, 1);
    }
  }

  // ----------------------------------------------------- search terms

  /** `store_config.search_terms or [store_config.query]`. */
  function Terms(c: StoreConfig): (r: seq<string>)
    ensures |r| > 0
    ensures |c.searchTerms| > 0 ==> r == c.searchTerms
    ensures |c.searchTerms| == 0 ==> r == [c.query]
  {
    if |c.searchTerms| > 0 then c.searchTerms else [c.query]
  }

  /** The value of `found_places` after the search-term loop, starting from
      its value `prev` left by the previous config (None while unbound). A
      successful search assigns it; a non-empty one ends the loop; a raised
      search leaves it as it was. */
  function TermsOutcome(terms: seq<string>, nearby: Nearby, prev: Option<seq<Place>>): Option<seq<Place>>
    decreases |terms|
  {
    if terms == [] then prev
    else match nearby(terms[0])
      case Failure(_) => TermsOutcome(terms[1..], nearby, prev)
      case Success(ps) => if |ps| > 0 then Some(ps) else TermsOutcome(terms[1..], nearby, Some(ps))
  }

  /** The first keyword with a non-empty answer decides, whatever follows it. */
  lemma {:induction false} FirstHitWins(terms: seq<string>, nearby: Nearby, prev: Option<seq<Place>>, k: int)
    requires 0 <= k < |terms|
    requires nearby(terms[k]).Success? && |nearby(terms[k]).value| > 0
    requires forall i :: 0 <= i < k ==> nearby(terms[i]).Failure? || |nearby(terms[i]).value| == 0
    ensures TermsOutcome(terms, nearby, prev) == Some(nearby(terms[k]).value)
  {
    if k > 0 {
      var p' := if nearby(terms[0]).Failure? then prev else Some(nearby(terms[0]).value);
      FirstHitWins(terms[1..], nearby, p', k - 1);
    }
  }

  /** When every keyword's request raises, `found_places` keeps the previous
      config's places (the variable is not reset per config). */
  lemma {:induction false} AllFailedKeepsPrevious(terms: seq<string>, nearby: Nearby, prev: Option<seq<Place>>)
    requires forall i :: 0 <= i < |terms| ==> nearby(terms[i]).Failure?
    ensures TermsOutcome(terms, nearby, prev) == prev
  {
    if terms != [] {
      AllFailedKeepsPrevious(terms[1..], nearby, prev);
    }
  }

  /** The search-term loop with its `break` on the first non-empty answer. */
  method SearchTerms(terms: seq<string>, nearby: Nearby, prev: Option<seq<Place>>)
    returns (found: Option<seq<Place>>)
    ensures found == TermsOutcome(terms, nearby, prev)
  {
    found := prev;
    var i := 0;
    while i < |terms|
      invariant 0 <= i <= |terms|
      invariant TermsOutcome(terms[i..], nearby, found) == TermsOutcome(terms, nearby, prev)
    {
      assert terms[i..][1..] == terms[i + 1..];
      var answer := nearby(terms[i]);
      if answer.Success? {
        found := Some(answer.value);
        if |answer.value| > 0 {
          break;
        }
      }
      i := i + 1;
    }
  }

  // ---------------------------------------------------- quality score

  function MinReal(a: real, b: real): real { if a <= b then a else b }
  function MaxReal(a: real, b: real): real { if a >= b then a else b }

  /** `if rating: score += rating` (a rating of 0 is falsy). */
  function RatingPoints(d: Details): real {
    if d.rating.Some? && d.rating.value != 0.0 then d.rating.value else 0.0
  }

  /** `calculate_quality_score`: rating, up to two points for reviews, minus a
      distance penalty of at most three, and bonuses for phone, website and
      being open now, floored at zero. */
  function QualityScore(d: Details, distance: real, log10: LogFn): (r: real)
    ensures r >= 0.0
    ensures distance >= 0.0 ==> r <= MaxReal(0.0, RatingPoints(d) + 4.0)
    ensures (distance >= 15.0 && !Truthy(d.phone) && !Truthy(d.website) && d.openNow != Some(true)
             && RatingPoints(d) <= 1.0) ==> r == 0.0
  {
    var count := d.reviewCount.GetOr(0);
    var reviews := if count > 0 then MinReal(2.0, log10(count)) else 0.0;
    var penalty := MinReal(3.0, distance / 5.0);
    var phone := if Truthy(d.phone) then 0.5 else 0.0;
    var website := if Truthy(d.website) then 0.5 else 0.0;
    var open := if d.openNow == Some(true) then 1.0 else 0.0;
    MaxReal(0.0, RatingPoints(d) + reviews - penalty + phone + website + open)
  }

  // --------------------------------------------------- per-place filters

  /** `found_places[:n]` with Python's slice semantics (a negative `n` counts from the end). */
  function PyPrefix(ps: seq<Place>, n: int): (r: seq<Place>)
    ensures |r| <= |ps|
    ensures n >= 0 ==> |r| == if n <= |ps| then n else |ps|
    // A negative bound drops that many elements from the end.
    ensures n < 0 ==> |r| == if |ps| + n >= 0 then |ps| + n else 0
    ensures r == ps[..|r|]
  {
    if n >= 0 then (if n <= |ps| then ps[..n] else ps)
    else if |ps| + n >= 0 then ps[..|ps| + n] else []
  }

  predicate Closed(status: string) {
    status == "CLOSED_PERMANENTLY" || status == "CLOSED_TEMPORARILY"
  }

  /** The store record built from one place, or None when the place is
      skipped: too far (compared in miles), a details request that raised,
      or a closed business. */
  function PlaceToStore(origin: Coord, place: Place, c: StoreConfig, radiusMeters: int,
                        dist: DistanceFn, detailsOf: DetailsFn, log10: LogFn): (r: Option<Store>)
    ensures r.Some? <==> dist(origin, place.coord) <= radiusMeters as real / MetersPerMile
                         && detailsOf(place.placeId).Some?
                         && !Closed(detailsOf(place.placeId).value.businessStatus.GetOr("OPERATIONAL"))
    ensures r.Some? ==> r.value.placeId == place.placeId && r.value.coord == place.coord
                        && r.value.chain == c.chain && r.value.category == c.category
                        && r.value.priority == c.priority
                        && r.value.distance == dist(origin, place.coord)
                        && r.value.quality >= 0.0
  {
    var distance := dist(origin, place.coord);
    if distance > radiusMeters as real / MetersPerMile then None
    else match detailsOf(place.placeId)
      case None => None
      case Some(d) =>
        if Closed(d.businessStatus.GetOr("OPERATIONAL")) then None
        else Some(Store(place.placeId, d.name.GetOr(place.name.GetOr("Unknown Store")),
                        d.address.GetOr(place.vicinity.GetOr("Unknown Address")),
                        place.coord, c.chain, c.category, c.priority, distance,
                        QualityScore(d, distance, log10)))
  }

  /** The stores built from a list of places, in order. */
  function BuiltStores(origin: Coord, ps: seq<Place>, c: StoreConfig, radiusMeters: int,
                       dist: DistanceFn, detailsOf: DetailsFn, log10: LogFn): seq<Store>
    decreases |ps|
  {
    if ps == [] then []
    else
      var last := PlaceToStore(origin, ps[|ps| - 1], c, radiusMeters, dist, detailsOf, log10);
      BuiltStores(origin, ps[..|ps| - 1], c, radiusMeters, dist, detailsOf, log10)
        + (if last.Some? then [last.value] else [])
  }

  /** Every built store comes from one of the places, lies within the radius
      and carries the config's chain, category and priority. */
  lemma {:induction false} BuiltStoresFacts(origin: Coord, ps: seq<Place>, c: StoreConfig, radiusMeters: int,
                                            dist: DistanceFn, detailsOf: DetailsFn, log10: LogFn)
    ensures var r := BuiltStores(origin, ps, c, radiusMeters, dist, detailsOf, log10);
            |r| <= |ps|
            && forall s :: s in r ==>
                 (exists p :: p in ps && p.placeId == s.placeId)
                 && s.distance <= radiusMeters as real / MetersPerMile
                 && s.chain == c.chain && s.category == c.category && s.priority == c.priority
                 && s.quality >= 0.0
    decreases |ps|
  {
    if ps != [] {
      var init := ps[..|ps| - 1];
      BuiltStoresFacts(origin, init, c, radiusMeters, dist, detailsOf, log10);
      var r := BuiltStores(origin, ps, c, radiusMeters, dist, detailsOf, log10);
      forall s | s in r
        ensures exists p :: p in ps && p.placeId == s.placeId
      {
        if s in BuiltStores(origin, init, c, radiusMeters, dist, detailsOf, log10) {
          var p :| p in init && p.placeId == s.placeId;
          assert p in ps;
        } else {
          assert ps[|ps| - 1] in ps;
        }
      }
    }
  }

  /** The loop over `found_places[:max_stores_per_type]` for one config. */
  method ProcessPlaces(origin: Coord, found: seq<Place>, c: StoreConfig, maxPerType: int, radiusMeters: int,
                       dist: DistanceFn, detailsOf: DetailsFn, log10: LogFn) returns (stores: seq<Store>)
    ensures stores == BuiltStores(origin, PyPrefix(found, maxPerType), c, radiusMeters, dist, detailsOf, log10)
    ensures maxPerType >= 0 ==> |stores| <= maxPerType
    ensures forall s :: s in stores ==>
              (s.distance <= radiusMeters as real / MetersPerMile && s.chain == c.chain && s.priority == c.priority)
  {
    var places := PyPrefix(found, maxPerType);
    stores := [];
    var i := 0;
    while i < |places|
      invariant 0 <= i <= |places|
      invariant stores == BuiltStores(origin, places[..i], c, radiusMeters, dist, detailsOf, log10)
    {
      assert places[..i + 1][..i] == places[..i];
      var store := PlaceToStore(origin, places[i], c, radiusMeters, dist, detailsOf, log10);
      if store.Some? {
        stores := stores + [store.value];
      }
      i := i + 1;
    }
    assert places[..i] == places;
    BuiltStoresFacts(origin, places, c, radiusMeters, dist, detailsOf, log10);
  }

  // ------------------------------------------------------------ pipeline

  /** The provider and distance a search runs against. */
  datatype Env = Env(origin: Coord, radiusMeters: int, maxPerType: int, nearby: Nearby,
                     detailsOf: DetailsFn, dist: DistanceFn, log10: LogFn)

  /** All candidate stores, config by config, with `found_places` carried over. */
  function Candidates(e: Env, cs: seq<StoreConfig>, prev: Option<seq<Place>>): seq<Store>
    decreases |cs|
  {
    if cs == [] then []
    else
      var found := TermsOutcome(Terms(cs[0]), e.nearby, prev);
      var here := if found.Some? && |found.value| > 0
                  then BuiltStores(e.origin, PyPrefix(found.value, e.maxPerType), cs[0],
                                   e.radiusMeters, e.dist, e.detailsOf, e.log10)
                  else [];
      here + Candidates(e, cs[1..], found)
  }

  /** The result of a fresh search: deduplicated, then ranked. */
  function FreshResult(e: Env, category: Option<string>): seq<Store> {
    Rank(Deduplicated(e.dist, Candidates(e, PriorityOrder(FilterByCategory(Catalog(), category)), None)))
  }

  /** `cache_ttl = 1800 if len(unique_stores) > 0 else 300`. */
  function ResultTtl(n: int): (r: int)
    ensures r == 1800 || r == 300
    ensures r == 300 <==> n <= 0
  {
    if n > 0 then 1800 else 300
  }

  /** A fresh result has distinct place ids and is in ranking order. */
  lemma FreshResultProperties(e: Env, category: Option<string>)
    ensures DistinctIds(FreshResult(e, category)) && RankedOrder(FreshResult(e, category))
  {
    var cands := Candidates(e, PriorityOrder(FilterByCategory(Catalog(), category)), None);
    DeduplicatedProperties(e.dist, cands);
    RankKeepsDistinctIds(Deduplicated(e.dist, cands));
  }

  /** The loop over configs in priority order, collecting candidates. */
  method CollectCandidates(e: Env, cs: seq<StoreConfig>) returns (all: seq<Store>)
    ensures all == Candidates(e, cs, None)
  {
    all := [];
    var found: Option<seq<Place>> := None;
    var i := 0;
    while i < |cs|
      invariant 0 <= i <= |cs|
      invariant all + Candidates(e, cs[i..], found) == Candidates(e, cs, None)
    {
      assert cs[i..][1..] == cs[i + 1..];
      ghost var prev := found;
      found := SearchTerms(Terms(cs[i]), e.nearby, found);
      var stores := [];
      if found.Some? && |found.value| > 0 {
        stores := ProcessPlaces(e.origin, found.value, cs[i], e.maxPerType, e.radiusMeters,
                                e.dist, e.detailsOf, e.log10);
      }
      assert Candidates(e, cs[i..], prev) == stores + Candidates(e, cs[i + 1..], found);
      AppendAssociative(all, stores, Candidates(e, cs[i + 1..], found));
      all := all + stores;
      i := i + 1;
    }
    assert cs[i..] == [];
  }

  /** The whole search: a non-empty cached result is returned as is; without
      a maps client the answer is empty; otherwise a fresh result is computed
      and cached for 30 minutes, or 5 minutes when it is empty. The clock is
      read twice: `now` when the cache is consulted and `storedAt` when the
      fresh result is stored. */
  method SearchNearbyStores<K(==,!new)>(cache: MemoryCache<K, seq<Store>>, key: K, now: int, storedAt: int,
                                        mapsAvailable: bool, e: Env, category: Option<string>)
    returns (r: seq<Store>)
    modifies cache
    ensures var hit := Lookup(old(cache.entries), key, now);
            var afterGet := if key in old(cache.entries) && now >= old(cache.entries)[key].1
                            then old(cache.entries) - {key} else old(cache.entries);
            if hit.Some? && |hit.value| > 0 then r == hit.value && cache.entries == afterGet
            else if !mapsAvailable then r == [] && cache.entries == afterGet
            else r == FreshResult(e, category)
                 && cache.entries == afterGet[key := (r, storedAt + ResultTtl(|r|))]
    ensures cache.defaultTtl == old(cache.defaultTtl)
  {
    var cached := cache.Get(key, now);
    if cached.Some? && |cached.value| > 0 {
      return cached.value;
    }
    if !mapsAvailable {
      return [];
    }
    var configs := FilterByCategory(Catalog(), category);
    var all := CollectCandidates(e, PriorityOrder(configs));
    var unique := RemoveDuplicateStores(all, e.dist);
    unique := Rank(unique);
    cache.Set(key, unique, storedAt, Some(ResultTtl(|unique|)));
    r := unique;
  }

  /** A cached empty result is falsy, so it never short-circuits a search. */
  lemma EmptyCachedResultIsMiss<K>(m: Entries<K, seq<Store>>, key: K, now: int)
    requires key in m && m[key].0 == [] && now < m[key].1
    ensures Lookup(m, key, now) == Some([])
    ensures !(Lookup(m, key, now).Some? && |Lookup(m, key, now).value| > 0)
  {
  }
}
