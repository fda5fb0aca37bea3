/**
  `InMemoryVectorStore` (backend/services/vector_store.py): two parallel lists
  of identifiers and mean vectors. `upsert` appends; `search` scores every
  stored vector against the mean of the query batch and returns the `top_k`
  best.

  The cosine similarity is the parameter `sim`: the model states the ordering,
  slicing and state rules for any scoring function.
 */
module VectorStore {
  import opened Vectors
  import opened Sorting

  /** A position paired with its score. */
  function ScoreOf(p: (int, real)): real { p.1 }

  function Min(a: nat, b: nat): nat { if a <= b then a else b }

  /** No value occurs twice. */
  ghost predicate Distinct<T>(s: seq<T>) {
    forall a, b :: 0 <= a < b < |s| ==> s[a] != s[b]
  }

  lemma {:induction false} DistinctOccursOnce<T>(t: seq<T>, x: T)
    requires Distinct(t)
    ensures multiset(t)[x] <= 1
  {
    if t != [] {
      assert t == [t[0]] + t[1..];
      assert Distinct(t[1..]);
      DistinctOccursOnce(t[1..], x);
      if t[0] == x {
        assert x !in t[1..];
      }
    }
  }

  /** A permutation of a list without repetitions has no repetitions either. */
  lemma PermutationOfDistinct<T>(s: seq<T>, t: seq<T>)
    requires multiset(s) == multiset(t) && Distinct(t)
    ensures Distinct(s)
  {
    forall a, b | 0 <= a < b < |s| ensures s[a] != s[b] {
      if s[a] == s[b] {
        var x := s[a];
        assert s == s[..b] + [s[b]] + s[b+1..];
        assert x in s[..b];
        assert multiset(s)[x] >= multiset(s[..b])[x] + 1;
        DistinctOccursOnce(t, x);
        assert false;
      }
    }
  }

  /** `(i, sims[i])` for every position `i`. */
  function Indexed(sims: seq<real>): (r: seq<(int, real)>)
    ensures |r| == |sims|
    ensures forall i :: 0 <= i < |r| ==> r[i] == (i, sims[i])
  {
    seq(|sims|, i requires 0 <= i < |sims| => (i, sims[i]))
  }

  /**
    Each entry of a permutation of `Indexed(sims)` is a position with its own
    score, and no position occurs twice.
   */
  lemma IndexedPermutation(sims: seq<real>, ranked: seq<(int, real)>)
    requires multiset(ranked) == multiset(Indexed(sims))
    ensures |ranked| == |sims|
    ensures forall k :: 0 <= k < |ranked| ==> 0 <= ranked[k].0 < |sims| && ranked[k].1 == sims[ranked[k].0]
    ensures forall a, b :: 0 <= a < b < |ranked| ==> ranked[a].0 != ranked[b].0
    ensures forall i :: 0 <= i < |sims| ==> exists p :: 0 <= p < |ranked| && ranked[p] == (i, sims[i])
  {
    var scored := Indexed(sims);
    assert |ranked| == |multiset(ranked)| == |multiset(scored)| == |scored|;
    forall k | 0 <= k < |ranked| ensures 0 <= ranked[k].0 < |sims| && ranked[k].1 == sims[ranked[k].0] {
      assert ranked[k] in multiset(scored);
    }
    assert Distinct(scored);
    PermutationOfDistinct(ranked, scored);
    forall a, b | 0 <= a < b < |ranked| ensures ranked[a].0 != ranked[b].0 {
      assert ranked[a] in multiset(scored) && ranked[b] in multiset(scored);
    }
    forall i | 0 <= i < |sims| ensures exists p :: 0 <= p < |ranked| && ranked[p] == (i, sims[i]) {
      assert scored[i] in multiset(ranked);
    }
  }

  /**
    `np.argsort(-sims)[:top_k]`: the positions of the `top_k` best scores, best
    first. numpy's default sort is not stable, so the contract says nothing
    about the order of positions with equal scores.
   */
  function TopK(sims: seq<real>, topK: nat): (idx: seq<int>)
    ensures |idx| == Min(topK, |sims|)
    ensures forall k :: 0 <= k < |idx| ==> 0 <= idx[k] < |sims|
    ensures Distinct(idx)
    ensures forall a, b :: 0 <= a < b < |idx| ==> sims[idx[a]] >= sims[idx[b]]
    ensures forall i, k :: 0 <= i < |sims| && i !in idx && 0 <= k < |idx| ==> sims[i] <= sims[idx[k]]
    ensures topK >= |sims| ==> forall i :: 0 <= i < |sims| ==> i in idx
  {
    var ranked := SortDesc(Indexed(sims), ScoreOf);
    var m := Min(topK, |sims|);
    IndexedPermutation(sims, ranked);
    var idx := Positions(ranked, m);
    TopKProperties(sims, ranked, m, idx);
    idx
  }

  /** The positions of the first `m` ranked entries. */
  function Positions(ranked: seq<(int, real)>, m: nat): (idx: seq<int>)
    requires m <= |ranked|
    ensures |idx| == m && forall k :: 0 <= k < m ==> idx[k] == ranked[k].0
  {
    seq(m, k requires 0 <= k < m => ranked[k].0)
  }

  lemma TopKProperties(sims: seq<real>, ranked: seq<(int, real)>, m: nat, idx: seq<int>)
    requires |ranked| == |sims| && m <= |sims|
    requires forall k :: 0 <= k < |ranked| ==> 0 <= ranked[k].0 < |sims| && ranked[k].1 == sims[ranked[k].0]
    requires forall a, b :: 0 <= a < b < |ranked| ==> ranked[a].0 != ranked[b].0
    requires forall i :: 0 <= i < |sims| ==> exists p :: 0 <= p < |ranked| && ranked[p] == (i, sims[i])
    requires Descending(ranked, ScoreOf)
    requires |idx| == m && forall k :: 0 <= k < m ==> idx[k] == ranked[k].0
    ensures forall k :: 0 <= k < |idx| ==> 0 <= idx[k] < |sims|
    ensures Distinct(idx)
    ensures forall a, b :: 0 <= a < b < |idx| ==> sims[idx[a]] >= sims[idx[b]]
    ensures forall i, k :: 0 <= i < |sims| && i !in idx && 0 <= k < |idx| ==> sims[i] <= sims[idx[k]]
    ensures m == |sims| ==> forall i :: 0 <= i < |sims| ==> i in idx
  {
    forall a, b | 0 <= a < b < |idx| ensures sims[idx[a]] >= sims[idx[b]] {
      assert ScoreOf(ranked[a]) >= ScoreOf(ranked[b]);
    }
    forall i, k | 0 <= i < |sims| && i !in idx && 0 <= k < |idx| ensures sims[i] <= sims[idx[k]] {
      var p :| 0 <= p < |ranked| && ranked[p] == (i, sims[i]);
      assert p >= m;
      assert ScoreOf(ranked[k]) >= ScoreOf(ranked[p]);
    }
    if m == |sims| {
      forall i | 0 <= i < |sims| ensures i in idx {
        var p :| 0 <= p < |ranked| && ranked[p] == (i, sims[i]);
        assert idx[p] == i;
      }
    }
  }

  class InMemoryVectorStore {
    /** `_ids`: the identifier of each entry, in insertion order. */
    var ids: seq<string>
    /** `_vecs`: the mean vector of each entry, parallel to `ids`. */
    var vecs: seq<Vector>

    /** The two lists always have the same length. */
    ghost predicate Valid()
      reads this
    {
      |ids| == |vecs|
    }

    /** A new store is empty. */
    constructor ()
      ensures Valid()
      ensures ids == [] && vecs == []
    {
      ids := [];
      vecs := [];
    }

    /**
      Stores the mean of `vectors` under `id` by appending one entry at the
      end; an existing entry with the same id is neither replaced nor changed.
     */
    method Upsert(id: string, vectors: seq<Vector>)
      requires Valid()
      requires WellFormedBatch(vectors)
      modifies this
      ensures Valid()
      ensures ids == old(ids) + [id]
      ensures vecs == old(vecs) + [Mean(vectors)]
    {
      var mean := Mean(vectors);
      ids := ids + [id];
      vecs := vecs + [mean];
    }

    /**
      What numpy needs to score the store against the query: nothing when the
      store is empty (the early return comes first), otherwise a well-formed
      query batch whose dimension every stored vector shares.
     */
    predicate Searchable(vectors: seq<Vector>)
      reads this
    {
      |vecs| == 0 || (WellFormedBatch(vectors) && Uniform(vecs, |vectors[0]|))
    }

    /** `sims`: the score of every stored vector against the query vector `q`. */
    function Sims(q: Vector, sim: (Vector, Vector) -> real): (r: seq<real>)
      reads this
      ensures |r| == |vecs|
      ensures forall i :: 0 <= i < |r| ==> r[i] == sim(vecs[i], q)
    {
      var vs := vecs;
      seq(|vs|, i requires 0 <= i < |vs| => sim(vs[i], q))
    }

    /**
      `search`: on an empty store `[]`, whatever the query; otherwise the
      identifier and score of each of the `top_k` best-scoring entries, best
      first.
     */
    function Search(vectors: seq<Vector>, topK: nat, sim: (Vector, Vector) -> real): (r: seq<(string, real)>)
      reads this
      requires Valid() && Searchable(vectors)
      ensures |vecs| == 0 ==> r == []
      ensures |r| == Min(topK, |vecs|)
      ensures |vecs| > 0 ==>
                var idx := TopK(Sims(Mean(vectors), sim), topK);
                forall k :: 0 <= k < |r| ==> r[k] == (ids[idx[k]], sim(vecs[idx[k]], Mean(vectors)))
      ensures forall k :: 0 <= k < |r| ==> r[k].0 in ids
      ensures forall a, b :: 0 <= a < b < |r| ==> r[a].1 >= r[b].1
    {
      if |vecs| == 0 then []
      else
        var q := Mean(vectors);
        var sims := Sims(q, sim);
        var idx := TopK(sims, topK);
        var ids0 := ids;
        seq(|idx|, k requires 0 <= k < |idx| => (ids0[idx[k]], sims[idx[k]]))
    }
  }

  /** The identifiers of a list of search results, in order. */
  function Identifiers(r: seq<(string, real)>): (ids: seq<string>)
    ensures |ids| == |r| && forall k :: 0 <= k < |r| ==> ids[k] == r[k].0
  {
    seq(|r|, k requires 0 <= k < |r| => r[k].0)
  }

  /** When `top_k` is at least the number of entries, every stored entry is among the results. */
  lemma SearchReturnsEveryEntry(store: InMemoryVectorStore, vectors: seq<Vector>, topK: nat, sim: (Vector, Vector) -> real)
    requires store.Valid() && store.Searchable(vectors) && topK >= |store.ids|
    ensures forall i :: 0 <= i < |store.ids| ==> store.ids[i] in Identifiers(store.Search(vectors, topK, sim))
  {
    var r := store.Search(vectors, topK, sim);
    if |store.vecs| > 0 {
      var idx := TopK(store.Sims(Mean(vectors), sim), topK);
      forall i | 0 <= i < |store.ids| ensures store.ids[i] in Identifiers(r) {
        assert i in idx;
        var k :| 0 <= k < |idx| && idx[k] == i;
        assert Identifiers(r)[k] == store.ids[i];
      }
    }
  }

  /** All stored vectors have one length: what `np.stack` needs. */
  predicate Homogeneous(vs: seq<Vector>) {
    forall i, j :: 0 <= i < |vs| && 0 <= j < |vs| ==> |vs[i]| == |vs[j]|
  }

  /**
    Once two stored vectors differ in length, `np.stack` raises on every
    later search, whatever the query: no query is searchable any more.
   */
  lemma MixedStoreUnsearchable(store: InMemoryVectorStore, i: nat, j: nat)
    requires i < |store.vecs| && j < |store.vecs| && |store.vecs[i]| != |store.vecs[j]|
    ensures forall v :: !store.Searchable(v)
  {}

  /**
    Upserting the same id twice leaves two more entries under that id, both
    holding the same mean: nothing is replaced.
   */
  method UpsertTwice(store: InMemoryVectorStore, id: string, vectors: seq<Vector>)
    requires store.Valid() && WellFormedBatch(vectors)
    modifies store
    ensures store.Valid()
    ensures store.ids == old(store.ids) + [id, id]
    ensures store.vecs == old(store.vecs) + [Mean(vectors), Mean(vectors)]
    ensures multiset(store.ids)[id] == multiset(old(store.ids))[id] + 2
  {
    store.Upsert(id, vectors);
    store.Upsert(id, vectors);
    assert store.ids == old(store.ids) + [id] + [id];
  }

  /** A fresh store answers every search with `[]`. */
  method SearchEmptyStore(vectors: seq<Vector>, topK: nat, sim: (Vector, Vector) -> real) returns (r: seq<(string, real)>)
    ensures r == []
  {
    var store := new InMemoryVectorStore();
    r := store.Search(vectors, topK, sim);
  }

  /** Upsert `u1` with `[[1,0],[1,0]]`, then search `[[1,0]]` with `top_k=1`: the single result is `u1`. */
  method SingleEntryScenario(sim: (Vector, Vector) -> real) returns (r: seq<(string, real)>)
    ensures r == [("u1", sim([1.0, 0.0], [1.0, 0.0]))]
  {
    var store := new InMemoryVectorStore();
    MeanOfCopies([[1.0, 0.0], [1.0, 0.0]], [1.0, 0.0]);
    store.Upsert("u1", [[1.0, 0.0], [1.0, 0.0]]);
    MeanOfCopies([[1.0, 0.0]], [1.0, 0.0]);
    r := store.Search([[1.0, 0.0]], 1, sim);
  }

  /**
    Upsert `u1` with `[[1,0]]` and `u2` with `[[0,1]]`, then search `[[1,0]]`
    with `top_k=2`: when `u1` scores higher, as cosine similarity does (1 and
    0), `u1` comes first.
   */
  method TwoEntryScenario(sim: (Vector, Vector) -> real) returns (r: seq<(string, real)>)
    requires sim([1.0, 0.0], [1.0, 0.0]) > sim([0.0, 1.0], [1.0, 0.0])
    ensures r == [("u1", sim([1.0, 0.0], [1.0, 0.0])), ("u2", sim([0.0, 1.0], [1.0, 0.0]))]
  {
    var store := new InMemoryVectorStore();
    MeanOfCopies([[1.0, 0.0]], [1.0, 0.0]);
    MeanOfCopies([[0.0, 1.0]], [0.0, 1.0]);
    store.Upsert("u1", [[1.0, 0.0]]);
    store.Upsert("u2", [[0.0, 1.0]]);
    SearchTwoEntries(store, sim);
    r := store.Search([[1.0, 0.0]], 2, sim);
  }

  lemma SearchTwoEntries(store: InMemoryVectorStore, sim: (Vector, Vector) -> real)
    requires store.ids == ["u1", "u2"] && store.vecs == [[1.0, 0.0], [0.0, 1.0]]
    requires sim([1.0, 0.0], [1.0, 0.0]) > sim([0.0, 1.0], [1.0, 0.0])
    ensures store.Valid() && store.Searchable([[1.0, 0.0]])
    ensures store.Search([[1.0, 0.0]], 2, sim) == [("u1", sim([1.0, 0.0], [1.0, 0.0])), ("u2", sim([0.0, 1.0], [1.0, 0.0]))]
  {
    MeanOfCopies([[1.0, 0.0]], [1.0, 0.0]);
    var sims := store.Sims([1.0, 0.0], sim);
    assert sims == [sim([1.0, 0.0], [1.0, 0.0]), sim([0.0, 1.0], [1.0, 0.0])];
    TopKOfTwo(sims[0], sims[1]);
    var r := store.Search([[1.0, 0.0]], 2, sim);
    assert r[0] == ("u1", sims[0]) && r[1] == ("u2", sims[1]);
  }

  /** With two scores, the higher one comes first. */
  lemma TopKOfTwo(x: real, y: real)
    requires x > y
    ensures TopK([x, y], 2) == [0, 1]
  {
    var idx := TopK([x, y], 2);
    assert 0 in idx && 1 in idx;
    assert idx[0] == 0;
  }
}
