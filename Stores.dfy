/** Post-processing of the candidate list in bot.py: `remove_duplicate_stores`
    and the ranking sort of `search_nearby_stores_enhanced`. The great-circle
    distance `calculate_distance` is a parameter `dist` (miles between two
    points); nothing is assumed about it. */
module Stores {

  datatype Coord = Coord(lat: real, lng: real)

  /** The fields of a store record that the core reads. */
  datatype Store = Store(placeId: string, name: string, address: string, coord: Coord,
                         chain: string, category: string, priority: int,
                         distance: real, quality: real)

  type DistanceFn = (Coord, Coord) -> real

  const MetersPerMile: real := 1609.34

  /** Two stores closer than 100 meters (arguments in the order of the source call). */
  predicate Near(dist: DistanceFn, s: Store, existing: Store) {
    dist(s.coord, existing.coord) * MetersPerMile < 100.0
  }

  predicate DistinctIds(s: seq<Store>) {
    forall i, j :: 0 <= i < j < |s| ==> s[i].placeId != s[j].placeId
  }

  function RemoveAt(s: seq<Store>, j: nat): (r: seq<Store>)
    requires j < |s|
    ensures |r| == |s| - 1
    ensures forall i :: 0 <= i < j ==> r[i] == s[i]
    ensures forall i :: j <= i < |r| ==> r[i] == s[i + 1]
  {
    s[..j] + s[j + 1..]
  }

  // ------------------------------------------------------------ dedup spec

  /** Index of the first kept store near `s`, or |kept| when there is none. */
  function FirstNear(dist: DistanceFn, s: Store, kept: seq<Store>): (j: nat)
    ensures j <= |kept|
    ensures forall i :: 0 <= i < j ==> !Near(dist, s, kept[i])
    ensures j < |kept| ==> Near(dist, s, kept[j])
  {
    if kept == [] then 0
    else if Near(dist, s, kept[0]) then 0
    else 1 + FirstNear(dist, s, kept[1..])
  }

  /** The loop state of `remove_duplicate_stores`. */
  datatype DedupState = DedupState(seen: set<string>, kept: seq<Store>)

  /** One iteration of the outer loop, for the next input store `s`. */
  function DedupStep(dist: DistanceFn, st: DedupState, s: Store): DedupState {
    if s.placeId in st.seen then st
    else
      var j := FirstNear(dist, s, st.kept);
      if j < |st.kept| && s.quality <= st.kept[j].quality then st
      else if j < |st.kept| then DedupState(st.seen + {s.placeId}, RemoveAt(st.kept, j) + [s])
      else DedupState(st.seen + {s.placeId}, st.kept + [s])
  }

  function DedupFrom(dist: DistanceFn, st: DedupState, rest: seq<Store>): DedupState
    decreases |rest|
  {
    if rest == [] then st else DedupFrom(dist, DedupStep(dist, st, rest[0]), rest[1..])
  }

  /** The list `remove_duplicate_stores` returns. */
  function Deduplicated(dist: DistanceFn, stores: seq<Store>): seq<Store> {
    DedupFrom(dist, DedupState({}, []), stores).kept
  }

  // ---------------------------------------------------- dedup properties

  /** Every kept place id has been recorded as seen, and kept ids are pairwise distinct. */
  predicate Consistent(st: DedupState) {
    DistinctIds(st.kept) && forall i :: 0 <= i < |st.kept| ==> st.kept[i].placeId in st.seen
  }

  lemma StepKeepsConsistent(dist: DistanceFn, st: DedupState, s: Store)
    requires Consistent(st)
    ensures var st' := DedupStep(dist, st, s);
            Consistent(st')
            && |st'.kept| <= |st.kept| + 1
            && (forall x :: x in st'.kept ==> x in st.kept || x == s)
            && st.seen <= st'.seen
  {
    if s.placeId !in st.seen {
      var j := FirstNear(dist, s, st.kept);
      if j < |st.kept| && s.quality > st.kept[j].quality {
        var r := RemoveAt(st.kept, j);
        assert forall x :: x in r ==> x in st.kept by {
          forall x | x in r ensures x in st.kept {
            var i :| 0 <= i < |r| && r[i] == x;
            if i < j { assert st.kept[i] == x; } else { assert st.kept[i + 1] == x; }
          }
        }
        assert forall i :: 0 <= i < |r| ==> r[i].placeId in st.seen by {
          forall i | 0 <= i < |r| ensures r[i].placeId in st.seen {
            if i < j { assert r[i] == st.kept[i]; } else { assert r[i] == st.kept[i + 1]; }
          }
        }
        assert DistinctIds(r) by {
          forall a, b | 0 <= a < b < |r| ensures r[a].placeId != r[b].placeId {
            var a' := if a < j then a else a + 1;
            var b' := if b < j then b else b + 1;
            assert r[a] == st.kept[a'] && r[b] == st.kept[b'];
          }
        }
      }
    }
  }

  lemma {:induction false} DedupFromProperties(dist: DistanceFn, st: DedupState, rest: seq<Store>)
    requires Consistent(st)
    ensures var r := DedupFrom(dist, st, rest);
            Consistent(r)
            && |r.kept| <= |st.kept| + |rest|
            && (forall x :: x in r.kept ==> x in st.kept || x in rest)
            && st.seen <= r.seen
    decreases |rest|
  {
    if rest != [] {
      var st' := DedupStep(dist, st, rest[0]);
      StepKeepsConsistent(dist, st, rest[0]);
      DedupFromProperties(dist, st', rest[1..]);
      var r := DedupFrom(dist, st', rest[1..]);
      forall x | x in r.kept ensures x in st.kept || x in rest {
        if x !in st'.kept { assert x in rest[1..]; }
      }
    }
  }

  /** Output ids are pairwise distinct, every output store is an input store,
      and the output is no longer than the input. */
  lemma DeduplicatedProperties(dist: DistanceFn, stores: seq<Store>)
    ensures DistinctIds(Deduplicated(dist, stores))
    ensures forall x :: x in Deduplicated(dist, stores) ==> x in stores
    ensures |Deduplicated(dist, stores)| <= |stores|
  {
    DedupFromProperties(dist, DedupState({}, []), stores);
  }

  /** The proximity rule on two stores with different ids: the later, nearby
      store wins only with a strictly higher quality score; a tie keeps the earlier. */
  lemma NearPairRule(dist: DistanceFn, a: Store, b: Store)
    requires a.placeId != b.placeId
    requires Near(dist, b, a)
    ensures Deduplicated(dist, [a, b]) == if b.quality <= a.quality then [a] else [b]
  {
    var st1 := DedupStep(dist, DedupState({}, []), a);
    assert st1 == DedupState({a.placeId}, [a]);
    assert FirstNear(dist, b, [a]) == 0;
    assert RemoveAt([a], 0) == [];
    assert [a, b][1..] == [b];
    var st2 := DedupStep(dist, st1, b);
    assert DedupFrom(dist, st1, [b]) == DedupFrom(dist, st2, []) == st2;
  }

  /** A store rejected as a near duplicate does not mark its id as seen: a
      later store with that id is judged again on its own. */
  lemma RejectedIdNotSeen(dist: DistanceFn, a: Store, b: Store)
    requires a.placeId != b.placeId
    requires Near(dist, b, a) && b.quality <= a.quality
    ensures b.placeId !in DedupFrom(dist, DedupState({}, []), [a, b]).seen
  {
    var st1 := DedupStep(dist, DedupState({}, []), a);
    assert st1 == DedupState({a.placeId}, [a]);
    assert FirstNear(dist, b, [a]) == 0;
    assert [a, b][1..] == [b];
    var st2 := DedupStep(dist, st1, b);
    assert st2 == st1;
    assert DedupFrom(dist, st1, [b]) == DedupFrom(dist, st2, []) == st2;
  }

  /** Only the first near match is compared, so two kept stores can still be
      near each other: with points near when their latitudes differ by at most
      5, A and B are far apart, C lies between them and beats A. */
  lemma NearStoresCanSurvive()
    ensures var dist := (p: Coord, q: Coord) => if p.lat - q.lat <= 5.0 && q.lat - p.lat <= 5.0 then 0.0 else 1.0;
            var a := Store("a", "A", "", Coord(0.0, 0.0), "", "", 1, 0.0, 1.0);
            var b := Store("b", "B", "", Coord(10.0, 0.0), "", "", 1, 0.0, 1.0);
            var c := Store("c", "C", "", Coord(5.0, 0.0), "", "", 1, 0.0, 2.0);
            Deduplicated(dist, [a, b, c]) == [b, c] && Near(dist, c, b)
  {
    var dist := (p: Coord, q: Coord) => if p.lat - q.lat <= 5.0 && q.lat - p.lat <= 5.0 then 0.0 else 1.0;
    var a := Store("a", "A", "", Coord(0.0, 0.0), "", "", 1, 0.0, 1.0);
    var b := Store("b", "B", "", Coord(10.0, 0.0), "", "", 1, 0.0, 1.0);
    var c := Store("c", "C", "", Coord(5.0, 0.0), "", "", 1, 0.0, 2.0);
    var st0 := DedupState({}, []);
    var st1 := DedupStep(dist, st0, a);
    assert st1 == DedupState({"a"}, [a]);
    assert dist(b.coord, a.coord) == 1.0;
    assert !Near(dist, b, a);
    assert FirstNear(dist, b, [a]) == 1;
    var st2 := DedupStep(dist, st1, b);
    assert st2 == DedupState({"a", "b"}, [a, b]);
    assert dist(c.coord, a.coord) == 0.0;
    assert Near(dist, c, a);
    assert FirstNear(dist, c, [a, b]) == 0;
    assert RemoveAt([a, b], 0) == [b];
    var st3 := DedupStep(dist, st2, c);
    assert st3.kept == [b, c];
    assert [a, b, c][1..] == [b, c] && [b, c][1..] == [c];
    assert DedupFrom(dist, st0, [a, b, c]) == DedupFrom(dist, st1, [b, c]);
    assert DedupFrom(dist, st1, [b, c]) == DedupFrom(dist, st2, [c]);
    assert DedupFrom(dist, st2, [c]) == DedupFrom(dist, st3, []);
    assert dist(c.coord, b.coord) == 0.0;
  }

  // --------------------------------------------------------- dedup method

  /** `remove_duplicate_stores`, loop for loop. */
  method RemoveDuplicateStores(stores: seq<Store>, dist: DistanceFn) returns (unique: seq<Store>)
    ensures unique == Deduplicated(dist, stores)
    ensures DistinctIds(unique)
    ensures forall x :: x in unique ==> x in stores
    ensures |unique| <= |stores|
  {
    var seen: set<string> := {};
    unique := [];
    var i := 0;
    while i < |stores|
      invariant 0 <= i <= |stores|
      invariant DedupFrom(dist, DedupState(seen, unique), stores[i..]) == DedupFrom(dist, DedupState({}, []), stores)
    {
      var store := stores[i];
      ghost var before := DedupState(seen, unique);
      if store.placeId !in seen {
        var isDuplicate := false;
        var j := 0;
        while j < |unique|
          invariant 0 <= j <= |unique|
          invariant unique == before.kept
          invariant forall k :: 0 <= k < j ==> !Near(dist, store, unique[k])
        {
          if Near(dist, store, unique[j]) {
            if store.quality <= unique[j].quality {
              isDuplicate := true;
            } else {
              // `list.remove` drops the first equal element, which is index j
              // because kept ids are distinct.
              unique := RemoveAt(unique, j);
            }
            break;
          }
          j := j + 1;
        }
        assert j == FirstNear(dist, store, before.kept);
        if !isDuplicate {
          seen := seen + {store.placeId};
          unique := unique + [store];
        }
      }
      assert DedupState(seen, unique) == DedupStep(dist, before, store);
      assert stores[i..][1..] == stores[i + 1..];
      i := i + 1;
    }
    assert stores[i..] == [];
    DeduplicatedProperties(dist, stores);
  }

  // ---------------------------------------------------------------- rank

  /** The sort key `(priority, distance, -quality_score)`, compared lexicographically. */
  predicate RankLe(a: Store, b: Store) {
    a.priority < b.priority
    || (a.priority == b.priority
        && (a.distance < b.distance || (a.distance == b.distance && a.quality >= b.quality)))
  }

  predicate RankedOrder(s: seq<Store>) {
    forall i, j :: 0 <= i < j < |s| ==> RankLe(s[i], s[j])
  }

  lemma RankLeTotal(a: Store, b: Store)
    ensures RankLe(a, b) || RankLe(b, a)
  {
  }

  lemma RankLeTransitive(a: Store, b: Store, c: Store)
    requires RankLe(a, b) && RankLe(b, c)
    ensures RankLe(a, c)
  {
  }

  function Ids(s: seq<Store>): set<string> {
    set i | 0 <= i < |s| :: s[i].placeId
  }

  lemma IdsCons(x: Store, s: seq<Store>)
    ensures Ids([x] + s) == {x.placeId} + Ids(s)
  {
    var r := [x] + s;
    forall id | id in Ids(r) ensures id in {x.placeId} + Ids(s) {
      var i :| 0 <= i < |r| && r[i].placeId == id;
      if i > 0 { assert r[i] == s[i - 1]; }
    }
    forall id | id in Ids(s) ensures id in Ids(r) {
      var i :| 0 <= i < |s| && s[i].placeId == id;
      assert r[i + 1] == s[i];
    }
    assert r[0] == x;
  }

  /** Lists with the same elements have the same place ids. */
  lemma SameElementsSameIds(a: seq<Store>, b: seq<Store>)
    requires multiset(a) == multiset(b)
    ensures Ids(a) == Ids(b)
  {
    forall id | id in Ids(a) ensures id in Ids(b) {
      var i :| 0 <= i < |a| && a[i].placeId == id;
      assert a[i] in multiset(b);
      var j :| 0 <= j < |b| && b[j] == a[i];
    }
    forall id | id in Ids(b) ensures id in Ids(a) {
      var j :| 0 <= j < |b| && b[j].placeId == id;
      assert b[j] in multiset(a);
      var i :| 0 <= i < |a| && a[i] == b[j];
    }
  }

  function Insert(x: Store, s: seq<Store>): (r: seq<Store>)
    requires RankedOrder(s)
    ensures RankedOrder(r)
    ensures multiset(r) == multiset(s) + multiset{x}
  {
    if s == [] then [x]
    else if RankLe(x, s[0]) then
      assert forall j :: 0 <= j < |s| ==> RankLe(x, s[j]) by {
        forall j | 0 <= j < |s| ensures RankLe(x, s[j]) {
          if j > 0 { RankLeTransitive(x, s[0], s[j]); }
        }
      }
      [x] + s
    else
      var rest := Insert(x, s[1..]);
      assert s == [s[0]] + s[1..];
      RankLeTotal(x, s[0]);
      assert forall e :: e in rest ==> RankLe(s[0], e) by {
        forall e | e in rest ensures RankLe(s[0], e) {
          assert e in multiset(rest);
          if e != x { assert e in multiset(s[1..]); }
        }
      }
      [s[0]] + rest
  }

  /** Ids are distinct exactly when there are as many ids as stores. */
  lemma {:induction false} DistinctIdsByCount(s: seq<Store>)
    ensures |Ids(s)| <= |s|
    ensures DistinctIds(s) <==> |Ids(s)| == |s|
  {
    if s != [] {
      var t := s[1..];
      DistinctIdsByCount(t);
      assert s == [s[0]] + t;
      IdsCons(s[0], t);
      if s[0].placeId in Ids(t) {
        var k :| 0 <= k < |t| && t[k].placeId == s[0].placeId;
        assert s[k + 1] == t[k];
        assert !DistinctIds(s);
      } else {
        assert DistinctIds(s) <==> DistinctIds(t) by {
          if DistinctIds(t) {
            forall a, b | 0 <= a < b < |s| ensures s[a].placeId != s[b].placeId {
              assert s[b] == t[b - 1];
              if a > 0 { assert s[a] == t[a - 1]; } else { assert s[b].placeId in Ids(t); }
            }
          }
          if DistinctIds(s) {
            forall a, b | 0 <= a < b < |t| ensures t[a].placeId != t[b].placeId {
              assert t[a] == s[a + 1] && t[b] == s[b + 1];
            }
          }
        }
      }
    }
  }

  /** The ranked list: a permutation of the input in ascending key order. */
  function Rank(s: seq<Store>): (r: seq<Store>)
    ensures RankedOrder(r)
    ensures multiset(r) == multiset(s)
  {
    if s == [] then []
    else
      assert s == [s[0]] + s[1..];
      Insert(s[0], Rank(s[1..]))
  }

  /** Ranking keeps place ids distinct. */
  lemma RankKeepsDistinctIds(s: seq<Store>)
    requires DistinctIds(s)
    ensures DistinctIds(Rank(s))
  {
    var r := Rank(s);
    assert |r| == |multiset(r)| == |multiset(s)| == |s|;
    SameElementsSameIds(r, s);
    DistinctIdsByCount(s);
    DistinctIdsByCount(r);
  }
}
