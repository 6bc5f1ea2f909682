/** Index-buffer construction for the octree mesh: `generate_octree_indices`
    moves the vertex list aside, keeps the first occurrence of every vertex
    and replaces each original vertex with the index of its kept copy. The
    vertex type only needs equality. */
module OctreeIndices {

  /** `std::numeric_limits<std::uint32_t>::max()`. */
  const MaxU32: nat := 0xFFFF_FFFF

  /** The vertices of `s` without repetitions, in order of first occurrence. */
  ghost function Distinct<V>(s: seq<V>): seq<V>
  {
    if |s| == 0 then []
    else
      var d := Distinct(s[..|s| - 1]);
      if s[|s| - 1] in d then d else d + [s[|s| - 1]]
  }

  /** The position of `x` in `d`, the first one if `x` is there more than once. */
  ghost function IndexOf<V>(d: seq<V>, x: V): (i: nat)
    requires x in d
    ensures i < |d| && d[i] == x
    ensures forall j :: 0 <= j < i ==> d[j] != x
  {
    if d[0] == x then 0 else 1 + IndexOf(d[1..], x)
  }

  /** The index list: for every vertex of `s`, the position of its kept copy. */
  ghost function Indices<V>(s: seq<V>): seq<nat>
  {
    if |s| == 0 then []
    else Indices(s[..|s| - 1]) + [IndexOf(Distinct(s), s[|s| - 1])]
  }

  /** A sequence without repeated elements. */
  ghost predicate NoDuplicates<V>(d: seq<V>) {
    forall i, j :: 0 <= i < j < |d| ==> d[i] != d[j]
  }

  /** The first position of `x` in `s`. */
  ghost function FirstAt<V>(s: seq<V>, x: V): (i: nat)
    requires x in s
    ensures i < |s| && s[i] == x
  {
    IndexOf(s, x)
  }

  /** The kept vertices are exactly the vertices of the input, each once, and
      never more of them than the input has. */
  lemma {:induction false} DistinctElements<V>(s: seq<V>)
    ensures forall x :: x in Distinct(s) <==> x in s
    ensures NoDuplicates(Distinct(s))
    ensures |Distinct(s)| <= |s|
  {
    if |s| > 0 {
      var t := s[..|s| - 1];
      DistinctElements(t);
      assert s == t + [s[|s| - 1]];
    }
  }

  /** Appending a vertex extends the kept list only if the vertex is new. */
  lemma DistinctPrefix<V>(s: seq<V>, x: V)
    ensures Distinct(s + [x]) == if x in Distinct(s) then Distinct(s) else Distinct(s) + [x]
  {
    assert (s + [x])[..|s + [x]| - 1] == s;
  }

  /** The kept list of a prefix is a prefix of the kept list. */
  lemma {:induction false} DistinctGrows<V>(s: seq<V>, n: nat)
    requires n <= |s|
    ensures Distinct(s[..n]) <= Distinct(s)
    decreases |s| - n
  {
    if n < |s| {
      DistinctGrows(s, n + 1);
      assert s[..n + 1] == s[..n] + [s[n]];
      DistinctPrefix(s[..n], s[n]);
    } else {
      assert s[..n] == s;
    }
  }

  /** First-occurrence order: a vertex kept earlier first occurs earlier in the input. */
  lemma {:induction false} DistinctOrder<V>(s: seq<V>, i: nat, j: nat)
    requires i < j < |Distinct(s)|
    ensures Distinct(s)[i] in s && Distinct(s)[j] in s
    ensures FirstAt(s, Distinct(s)[i]) < FirstAt(s, Distinct(s)[j])
  {
    DistinctElements(s);
    var d := Distinct(s);
    var a, b := FirstAt(s, d[i]), FirstAt(s, d[j]);
    // The kept list of the prefix ending at the first occurrence of d[j]
    // ends with d[j], so it has length j + 1 and holds d[i].
    DistinctGrows(s, b + 1);
    DistinctGrows(s, b);
    DistinctElements(s[..b]);
    assert s[..b + 1] == s[..b] + [s[b]];
    DistinctPrefix(s[..b], s[b]);
    assert d[j] !in s[..b] by {
      forall c | 0 <= c < b ensures s[..b][c] != d[j] {
        assert s[..b][c] == s[c];
      }
    }
    var p := Distinct(s[..b + 1]);
    assert p == Distinct(s[..b]) + [d[j]];
    DistinctElements(s);
    assert p[|p| - 1] == d[|p| - 1];
    assert |p| - 1 == j;
    assert d[i] == p[i];
    assert d[i] in s[..b] by {
      assert d[i] in Distinct(s[..b]);
    }
    var c :| 0 <= c < b && s[..b][c] == d[i];
    assert s[c] == d[i];
    assert a <= c;
  }

  /** The index list has one entry per input vertex, each naming a kept
      vertex equal to that input vertex: the input is reconstructed through
      the indices. */
  lemma {:induction false} IndicesReconstruct<V>(s: seq<V>)
    ensures |Indices(s)| == |s|
    ensures forall k :: 0 <= k < |s| ==> Indices(s)[k] < |Distinct(s)| && Distinct(s)[Indices(s)[k]] == s[k]
  {
    if |s| > 0 {
      var t := s[..|s| - 1];
      IndicesReconstruct(t);
      assert s == t + [s[|s| - 1]];
      DistinctElements(s);
      DistinctGrows(s, |s| - 1);
      forall k | 0 <= k < |s|
        ensures Indices(s)[k] < |Distinct(s)| && Distinct(s)[Indices(s)[k]] == s[k]
      {
        if k < |t| {
          assert Indices(s)[k] == Indices(t)[k];
          assert Distinct(t)[Indices(t)[k]] == Distinct(s)[Indices(t)[k]];
        }
      }
    }
  }

  /** Every index fits in a `std::uint32_t`, given the source's assertion
      that the map never reaches the `uint32` maximum before an insertion. */
  lemma IndicesFitU32<V>(s: seq<V>)
    requires |Distinct(s)| <= MaxU32
    ensures forall k :: 0 <= k < |Indices(s)| ==> Indices(s)[k] < MaxU32
  {
    IndicesReconstruct(s);
  }

  /** The octree geometry the renderer uploads: its vertex list and, after
      deduplication, its index list. */
  class OctreeGeometry<V(==,!new)> {
    var vertices: seq<V>
    var indices: seq<nat>

    constructor(vertices: seq<V>)
      ensures this.vertices == vertices && indices == []
    {
      this.vertices := vertices;
      indices := [];
    }

    /** generate_octree_indices: every vertex is looked up in a map from
        vertex to its new index; an unseen vertex is appended to the new
        vertex list with the map's current size as its index. The source
        asserts the map stays below the `uint32` maximum before each
        insertion. */
    method GenerateOctreeIndices()
      requires |Distinct(vertices)| <= MaxU32
      modifies this`vertices, this`indices
      ensures vertices == Distinct(old(vertices))
      ensures indices == Indices(old(vertices))
    {
      var oldVertices := vertices;
      // The two lists are built in locals and stored at the end; nothing
      // reads the fields in between.
      var newVertices: seq<V> := [];
      var newIndices: seq<nat> := [];
      var vertexMap: map<V, nat> := map[];
      var i := 0;
      assert oldVertices[..0] == [];
      while i < |oldVertices|
        invariant Scanned(oldVertices, i, newVertices, newIndices, vertexMap)
      {
        var vertex := oldVertices[i];
        if vertex !in vertexMap {
          ScanNew(oldVertices, i, newVertices, newIndices, vertexMap);
          vertexMap := vertexMap[vertex := |vertexMap.Keys|];
          newVertices := newVertices + [vertex];
        } else {
          ScanSeen(oldVertices, i, newVertices, newIndices, vertexMap);
        }
        newIndices := newIndices + [vertexMap[vertex]];
        i := i + 1;
      }
      vertices, indices := newVertices, newIndices;
      assert oldVertices[..i] == oldVertices;
    }
  }

  /** The state of `generate_octree_indices` after the first `i` input
      vertices: the kept vertices and indices of that prefix, and a map
      holding exactly the kept vertices, each with its position. */
  ghost predicate Scanned<V(!new)>(s: seq<V>, i: nat, vertices: seq<V>, indices: seq<nat>, vertexMap: map<V, nat>) {
    && i <= |s|
    && vertices == Distinct(s[..i]) && indices == Indices(s[..i])
    && (forall x :: x in vertexMap <==> x in vertices)
    && (forall x :: x in vertexMap ==> vertexMap[x] == IndexOf(vertices, x))
  }

  /** An unseen vertex: the map is below the `uint32` maximum, and inserting
      the vertex with the map's size as index keeps the scan state. */
  lemma ScanNew<V(!new)>(s: seq<V>, i: nat, vertices: seq<V>, indices: seq<nat>, vertexMap: map<V, nat>)
    requires i < |s| && Scanned(s, i, vertices, indices, vertexMap) && s[i] !in vertexMap
    requires |Distinct(s)| <= MaxU32
    ensures |vertexMap.Keys| < MaxU32
    ensures var m := vertexMap[s[i] := |vertexMap.Keys|];
            Scanned(s, i + 1, vertices + [s[i]], indices + [m[s[i]]], m)
  {
    ScanBound(s, i, vertices, indices, vertexMap);
    var vertex := s[i];
    var m := vertexMap[vertex := |vertexMap.Keys|];
    var v := vertices + [vertex];
    assert s[..i + 1] == s[..i] + [vertex];
    assert s[..i + 1][..i] == s[..i];
    DistinctPrefix(s[..i], vertex);
    assert v == Distinct(s[..i + 1]);
    InsertKeepsPositions(vertexMap, vertices, vertex);
  }

  /** Appending a new vertex to the kept list with the map's size as its
      index keeps every key's index its position in the list. */
  lemma InsertKeepsPositions<V(!new)>(vertexMap: map<V, nat>, vertices: seq<V>, vertex: V)
    requires vertex !in vertices && |vertexMap.Keys| == |vertices|
    requires forall x :: x in vertexMap <==> x in vertices
    requires forall x :: x in vertexMap ==> vertexMap[x] == IndexOf(vertices, x)
    ensures var m := vertexMap[vertex := |vertexMap.Keys|];
            && (forall x :: x in m <==> x in vertices + [vertex])
            && (forall x :: x in m ==> m[x] == IndexOf(vertices + [vertex], x))
  {
    var m := vertexMap[vertex := |vertexMap.Keys|];
    IndexOfAppend(vertices, vertex);
    forall x | x in m ensures m[x] == IndexOf(vertices + [vertex], x) {
      if x != vertex {
        IndexOfExtend(vertices, vertex, x);
      }
    }
  }

  /** Before an insertion the map holds one key per kept vertex, fewer than
      there are distinct input vertices, so below the `uint32` maximum. */
  lemma ScanBound<V(!new)>(s: seq<V>, i: nat, vertices: seq<V>, indices: seq<nat>, vertexMap: map<V, nat>)
    requires i < |s| && Scanned(s, i, vertices, indices, vertexMap) && s[i] !in vertexMap
    requires |Distinct(s)| <= MaxU32
    ensures |vertexMap.Keys| == |vertices| < MaxU32
  {
    assert s[..i + 1] == s[..i] + [s[i]];
    DistinctPrefix(s[..i], s[i]);
    DistinctGrows(s, i + 1);
    DistinctElements(s[..i]);
    MapSize(vertexMap, vertices);
  }

  /** A vertex already in the map: its index is appended and nothing else
      changes. */
  lemma ScanSeen<V(!new)>(s: seq<V>, i: nat, vertices: seq<V>, indices: seq<nat>, vertexMap: map<V, nat>)
    requires i < |s| && Scanned(s, i, vertices, indices, vertexMap) && s[i] in vertexMap
    ensures Scanned(s, i + 1, vertices, indices + [vertexMap[s[i]]], vertexMap)
  {
    var vertex := s[i];
    assert s[..i + 1] == s[..i] + [vertex];
    assert s[..i + 1][..i] == s[..i];
    DistinctPrefix(s[..i], vertex);
  }

  /** A map whose keys are exactly the elements of a duplicate-free
      sequence has as many keys as the sequence has elements. */
  lemma {:induction false} MapSize<V>(m: map<V, nat>, d: seq<V>)
    requires NoDuplicates(d)
    requires forall x :: x in m <==> x in d
    ensures |m.Keys| == |d|
  {
    if |d| == 0 {
      assert m.Keys == {};
    } else {
      var x := d[|d| - 1];
      var m' := map y | y in m && y != x :: m[y];
      MapSize(m', d[..|d| - 1]);
      assert m.Keys == m'.Keys + {x};
    }
  }

  lemma IndexOfAppend<V>(d: seq<V>, x: V)
    requires x !in d
    ensures IndexOf(d + [x], x) == |d|
  {
    var i := IndexOf(d + [x], x);
    assert (d + [x])[|d|] == x;
  }

  lemma {:induction false} IndexOfExtend<V>(d: seq<V>, y: V, x: V)
    requires x in d
    ensures x in d + [y] && IndexOf(d + [y], x) == IndexOf(d, x)
  {
    var i, j := IndexOf(d + [y], x), IndexOf(d, x);
    assert (d + [y])[j] == x;
  }
}
