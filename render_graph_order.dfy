/** The logical render graph and the stage order `compile` derives from it:
    the writers map and the post-order depth-first search over it. */
module RenderGraphOrder {
  import opened Vk

  datatype BufferUsage = IndexBuffer | VertexBuffer | UniformBuffer

  datatype TextureUsage = BackBuffer | DepthStencilBuffer | NormalTexture

  /** A reference to a logical resource: an index into the graph's buffer or
      texture list. */
  datatype ResourceRef = BufferRef(buffer: nat) | TextureRef(texture: nat)

  /** A logical buffer. `dataSize` stands for the bytes `upload_data` stages;
      `dataUploadNeeded` is the dirty flag. */
  datatype BufferResource = BufferResource(
    name: string,
    usage: BufferUsage,
    vertexAttributes: seq<VertexInputAttribute>,
    elementSize: nat,
    dataSize: nat,
    dataUploadNeeded: bool)

  datatype TextureResource = TextureResource(name: string, usage: TextureUsage, format: Format)

  /** A graphics stage as declared: what it writes and reads, in call order,
      the buffer binding slots, and its fixed-function options. */
  datatype GraphicsStage = GraphicsStage(
    name: string,
    writesTo: seq<ResourceRef>,
    readsFrom: seq<ResourceRef>,
    bufferBindings: map<nat, nat>,
    shaders: seq<ShaderStage>,
    descriptorLayouts: seq<Handle>,
    pushConstantRanges: seq<PushConstantRange>,
    clearsScreen: bool,
    depthTest: bool,
    depthWrite: bool,
    blendAttachment: ColorBlendAttachment)

  function NewStage(name: string): GraphicsStage {
    GraphicsStage(name, [], [], map[], [], [], [], false, false, false, ZeroBlendAttachment)
  }

  /** The map from a resource to the stages writing it. */
  type Writers = map<ResourceRef, seq<nat>>

  /** `writers[resource]`: a resource nobody writes has no writers. */
  function Lookup(w: Writers, r: ResourceRef): seq<nat> {
    if r in w then w[r] else []
  }

  function Repeat<T>(x: T, n: nat): (r: seq<T>)
    ensures |r| == n && forall i :: 0 <= i < n ==> r[i] == x
  {
    if n == 0 then [] else Repeat(x, n - 1) + [x]
  }

  /** Appends stage `s` to the writer list of every resource in `ws`, in order. */
  function AddWrites(w: Writers, s: nat, ws: seq<ResourceRef>): Writers
    decreases |ws|
  {
    if ws == [] then w
    else
      var before := AddWrites(w, s, ws[..|ws| - 1]);
      var r := ws[|ws| - 1];
      before[r := Lookup(before, r) + [s]]
  }

  /** The writers map after the first `n` stages have been visited. */
  function WritersUpTo(stages: seq<GraphicsStage>, n: nat): Writers
    requires n <= |stages|
  {
    if n == 0 then map[] else AddWrites(WritersUpTo(stages, n - 1), n - 1, stages[n - 1].writesTo)
  }

  function WritersMap(stages: seq<GraphicsStage>): Writers {
    WritersUpTo(stages, |stages|)
  }

  /** An independent description of a resource's writer list: every stage
      below `n` in registration order, once per time it writes `r`. */
  function WriterList(stages: seq<GraphicsStage>, n: nat, r: ResourceRef): seq<nat>
    requires n <= |stages|
  {
    if n == 0 then [] else WriterList(stages, n - 1, r) + Repeat(n - 1, multiset(stages[n - 1].writesTo)[r])
  }

  lemma {:induction false} AddWritesLookup(w: Writers, s: nat, ws: seq<ResourceRef>, r: ResourceRef)
    ensures Lookup(AddWrites(w, s, ws), r) == Lookup(w, r) + Repeat(s, multiset(ws)[r])
    decreases |ws|
  {
    if ws != [] {
      var init := ws[..|ws| - 1];
      assert ws == init + [ws[|ws| - 1]];
      assert multiset(ws) == multiset(init) + multiset{ws[|ws| - 1]};
      AddWritesLookup(w, s, init, r);
    }
  }

  /** The writers map lists, per resource, its writers in registration order. */
  lemma {:induction false} WritersMapIsWriterList(stages: seq<GraphicsStage>, n: nat, r: ResourceRef)
    requires n <= |stages|
    ensures Lookup(WritersUpTo(stages, n), r) == WriterList(stages, n, r)
  {
    if n > 0 {
      var before := WritersUpTo(stages, n - 1);
      var ws := stages[n - 1].writesTo;
      var tail := Repeat(n - 1, multiset(ws)[r]);
      assert WritersUpTo(stages, n) == AddWrites(before, n - 1, ws);
      assert Lookup(AddWrites(before, n - 1, ws), r) == Lookup(before, r) + tail by {
        AddWritesLookup(before, n - 1, ws, r);
      }
      assert Lookup(before, r) == WriterList(stages, n - 1, r) by {
        WritersMapIsWriterList(stages, n - 1, r);
      }
      assert WriterList(stages, n, r) == WriterList(stages, n - 1, r) + tail;
    }
  }

  lemma {:induction false} WriterListMembership(stages: seq<GraphicsStage>, n: nat, r: ResourceRef, s: nat)
    requires n <= |stages|
    ensures s in WriterList(stages, n, r) <==> s < n && r in stages[s].writesTo
  {
    if n > 0 {
      WriterListMembership(stages, n - 1, r, s);
      var k := multiset(stages[n - 1].writesTo)[r];
      assert s in Repeat(n - 1, k) <==> s == n - 1 && k > 0 by {
        if s in Repeat(n - 1, k) { var i :| 0 <= i < k && Repeat(n - 1, k)[i] == s; }
        if s == n - 1 && k > 0 { assert Repeat(n - 1, k)[0] == s; }
      }
    }
  }

  /** A stage is a writer of `r` exactly when it writes `r`. */
  lemma WritersMembership(stages: seq<GraphicsStage>, r: ResourceRef, s: nat)
    ensures s in Lookup(WritersMap(stages), r) <==> s < |stages| && r in stages[s].writesTo
  {
    WritersMapIsWriterList(stages, |stages|, r);
    WriterListMembership(stages, |stages|, r, s);
  }

  /** Writer lists are in registration order. */
  lemma {:induction false} WriterListSorted(stages: seq<GraphicsStage>, n: nat, r: ResourceRef)
    requires n <= |stages|
    ensures forall i, j :: 0 <= i < j < |WriterList(stages, n, r)| ==>
      WriterList(stages, n, r)[i] <= WriterList(stages, n, r)[j]
  {
    if n > 0 {
      WriterListSorted(stages, n - 1, r);
      var prev := WriterList(stages, n - 1, r);
      var tail := Repeat(n - 1, multiset(stages[n - 1].writesTo)[r]);
      var all := WriterList(stages, n, r);
      assert all == prev + tail;
      forall i, j | 0 <= i < j < |all| ensures all[i] <= all[j] {
        if j < |prev| {
          assert all[i] == prev[i] && all[j] == prev[j];
        } else {
          assert all[j] == n - 1;
          if i < |prev| {
            assert prev[i] in prev;
            WriterListMembership(stages, n - 1, r, prev[i]);
          }
        }
      }
    }
  }

  /** Stage `w` writes a resource stage `s` reads. */
  predicate Feeds(stages: seq<GraphicsStage>, w: nat, s: nat)
    requires w < |stages| && s < |stages|
  {
    exists r :: r in stages[s].readsFrom && r in stages[w].writesTo
  }

  /** The stage graph is acyclic, witnessed by a rank that strictly grows
      along every producer-to-consumer edge. */
  predicate Ranked(stages: seq<GraphicsStage>, rank: seq<nat>) {
    && |rank| == |stages|
    && forall w, s | 0 <= w < |stages| && 0 <= s < |stages| && Feeds(stages, w, s) :: rank[w] < rank[s]
  }

  /** The same ranking, read off a writers map. */
  ghost predicate RankedWriters(w: Writers, stages: seq<GraphicsStage>, rank: seq<nat>) {
    && |rank| == |stages|
    && (forall r, x | x in Lookup(w, r) :: x < |stages|)
    && forall s, r, x | 0 <= s < |stages| && r in stages[s].readsFrom && x in Lookup(w, r) :: rank[x] < rank[s]
  }

  lemma RankedWritersMap(stages: seq<GraphicsStage>, rank: seq<nat>)
    requires Ranked(stages, rank)
    ensures RankedWriters(WritersMap(stages), stages, rank)
  {
    var w := WritersMap(stages);
    forall r, x | x in Lookup(w, r) ensures x < |stages| {
      WritersMembership(stages, r, x);
    }
    forall s, r, x | 0 <= s < |stages| && r in stages[s].readsFrom && x in Lookup(w, r) ensures rank[x] < rank[s] {
      WritersMembership(stages, r, x);
      assert Feeds(stages, x, s);
    }
  }

  /** What the DFS appends for stage `s`: the visits of the writers of each
      resource it reads, in read order and writer order, then `s` itself.
      There is no visited set, so a stage reached twice is visited twice. */
  ghost function Visit(w: Writers, stages: seq<GraphicsStage>, rank: seq<nat>, s: nat): (o: seq<nat>)
    requires s < |stages| && RankedWriters(w, stages, rank)
    ensures |o| > 0 && o[|o| - 1] == s
    ensures forall i :: 0 <= i < |o| ==> o[i] < |stages|
    decreases rank[s], 2, 0
  {
    VisitReads(w, stages, rank, s, |stages[s].readsFrom|) + [s]
  }

  ghost function VisitReads(w: Writers, stages: seq<GraphicsStage>, rank: seq<nat>, s: nat, n: nat): (o: seq<nat>)
    requires s < |stages| && n <= |stages[s].readsFrom| && RankedWriters(w, stages, rank)
    ensures forall i :: 0 <= i < |o| ==> o[i] < |stages|
    decreases rank[s], 1, n
  {
    if n == 0 then []
    else
      var r := stages[s].readsFrom[n - 1];
      VisitReads(w, stages, rank, s, n - 1) + VisitWriters(w, stages, rank, s, r, |Lookup(w, r)|)
  }

  ghost function VisitWriters(w: Writers, stages: seq<GraphicsStage>, rank: seq<nat>, s: nat, r: ResourceRef, m: nat)
    : (o: seq<nat>)
    requires s < |stages| && r in stages[s].readsFrom && m <= |Lookup(w, r)| && RankedWriters(w, stages, rank)
    ensures forall i :: 0 <= i < |o| ==> o[i] < |stages|
    decreases rank[s], 0, m
  {
    if m == 0 then []
    else
      var x := Lookup(w, r)[m - 1];
      assert x in Lookup(w, r);
      VisitWriters(w, stages, rank, s, r, m - 1) + Visit(w, stages, rank, x)
  }

  /** The DFS from the first `n` roots, one after the other. */
  ghost function VisitAll(w: Writers, stages: seq<GraphicsStage>, rank: seq<nat>, roots: seq<nat>, n: nat): (o: seq<nat>)
    requires n <= |roots| && (forall i :: 0 <= i < |roots| ==> roots[i] < |stages|) && RankedWriters(w, stages, rank)
    ensures forall i :: 0 <= i < |o| ==> o[i] < |stages|
  {
    if n == 0 then [] else VisitAll(w, stages, rank, roots, n - 1) + Visit(w, stages, rank, roots[n - 1])
  }

  /** The stage order compile appends: the DFS from every writer of the
      target, in registration order. */
  ghost function Order(stages: seq<GraphicsStage>, rank: seq<nat>, target: ResourceRef): (o: seq<nat>)
    requires Ranked(stages, rank)
    ensures forall i :: 0 <= i < |o| ==> o[i] < |stages|
  {
    RankedWritersMap(stages, rank);
    var w := WritersMap(stages);
    var roots := Lookup(w, target);
    assert forall i :: 0 <= i < |roots| ==> roots[i] < |stages| by {
      forall i | 0 <= i < |roots| ensures roots[i] < |stages| { assert roots[i] in roots; }
    }
    VisitAll(w, stages, rank, roots, |roots|)
  }

  /** `t` is `s` or a transitive producer of `s`. */
  ghost predicate Reaches(stages: seq<GraphicsStage>, rank: seq<nat>, s: nat, t: nat)
    requires s < |stages| && Ranked(stages, rank)
    decreases rank[s]
  {
    t == s || exists x :: 0 <= x < |stages| && Feeds(stages, x, s) && Reaches(stages, rank, x, t)
  }

  /** In `o`, every occurrence of a stage is preceded by an occurrence of each
      of its producers. */
  ghost predicate ProducersFirst(stages: seq<GraphicsStage>, o: seq<nat>) {
    forall k, x | 0 <= k < |o| && o[k] < |stages| && 0 <= x < |stages| && Feeds(stages, x, o[k]) ::
      exists j :: 0 <= j < k && o[j] == x
  }

  /** The preconditions every lemma about the search shares. */
  ghost predicate SearchReady(w: Writers, stages: seq<GraphicsStage>, rank: seq<nat>) {
    w == WritersMap(stages) && Ranked(stages, rank) && RankedWriters(w, stages, rank)
  }

  /** `x` writes a resource `s` reads, seen through the writers map. */
  lemma FeedsThroughWriters(w: Writers, stages: seq<GraphicsStage>, rank: seq<nat>, x: nat, s: nat)
    requires SearchReady(w, stages, rank) && x < |stages| && s < |stages|
    ensures Feeds(stages, x, s) <==>
      exists i, j :: 0 <= i < |stages[s].readsFrom| && 0 <= j < |Lookup(w, stages[s].readsFrom[i])| &&
                     Lookup(w, stages[s].readsFrom[i])[j] == x
  {
    if Feeds(stages, x, s) {
      var r :| r in stages[s].readsFrom && r in stages[x].writesTo;
      var i :| 0 <= i < |stages[s].readsFrom| && stages[s].readsFrom[i] == r;
      WritersMembership(stages, r, x);
      var j :| 0 <= j < |Lookup(w, r)| && Lookup(w, r)[j] == x;
    }
    if exists i, j :: 0 <= i < |stages[s].readsFrom| && 0 <= j < |Lookup(w, stages[s].readsFrom[i])| &&
                      Lookup(w, stages[s].readsFrom[i])[j] == x {
      var i, j :| 0 <= i < |stages[s].readsFrom| && 0 <= j < |Lookup(w, stages[s].readsFrom[i])| &&
                  Lookup(w, stages[s].readsFrom[i])[j] == x;
      var r := stages[s].readsFrom[i];
      assert x in Lookup(w, r);
      WritersMembership(stages, r, x);
    }
  }

  /** A stage in the search of the `j`-th writer of `r` is in the search of
      the first `m` writers, for `j` below `m`. */
  lemma {:induction false} VisitWritersHas(w: Writers, stages: seq<GraphicsStage>, rank: seq<nat>,
                                           s: nat, r: ResourceRef, m: nat, j: nat, t: nat)
    requires RankedWriters(w, stages, rank)
    requires s < |stages| && r in stages[s].readsFrom && j < m <= |Lookup(w, r)|
    ensures Lookup(w, r)[j] < |stages|
    ensures t in Visit(w, stages, rank, Lookup(w, r)[j]) ==> t in VisitWriters(w, stages, rank, s, r, m)
    decreases m
  {
    assert Lookup(w, r)[j] in Lookup(w, r);
    var x := Lookup(w, r)[m - 1];
    assert x in Lookup(w, r);
    assert VisitWriters(w, stages, rank, s, r, m) == VisitWriters(w, stages, rank, s, r, m - 1) + Visit(w, stages, rank, x);
    if j < m - 1 {
      VisitWritersHas(w, stages, rank, s, r, m - 1, j, t);
    }
  }

  /** A stage in the search of the first `m` writers of `r` comes from the
      search of one of them. */
  lemma {:induction false} VisitWritersSource(w: Writers, stages: seq<GraphicsStage>, rank: seq<nat>,
                                              s: nat, r: ResourceRef, m: nat, t: nat) returns (j: nat)
    requires RankedWriters(w, stages, rank)
    requires s < |stages| && r in stages[s].readsFrom && m <= |Lookup(w, r)|
    requires t in VisitWriters(w, stages, rank, s, r, m)
    ensures j < m && Lookup(w, r)[j] < |stages| && t in Visit(w, stages, rank, Lookup(w, r)[j])
  {
    var x := Lookup(w, r)[m - 1];
    assert x in Lookup(w, r);
    var prev := VisitWriters(w, stages, rank, s, r, m - 1);
    assert VisitWriters(w, stages, rank, s, r, m) == prev + Visit(w, stages, rank, x);
    if t in prev {
      j := VisitWritersSource(w, stages, rank, s, r, m - 1, t);
    } else {
      j := m - 1;
    }
  }

  /** A stage in the search of the writers of the `i`-th read is in the
      search of the first `n` reads, for `i` below `n`. */
  lemma {:induction false} VisitReadsHas(w: Writers, stages: seq<GraphicsStage>, rank: seq<nat>,
                                         s: nat, n: nat, i: nat, t: nat)
    requires RankedWriters(w, stages, rank)
    requires s < |stages| && i < n <= |stages[s].readsFrom|
    ensures t in VisitWriters(w, stages, rank, s, stages[s].readsFrom[i], |Lookup(w, stages[s].readsFrom[i])|) ==>
            t in VisitReads(w, stages, rank, s, n)
    decreases n
  {
    if i < n - 1 {
      VisitReadsHas(w, stages, rank, s, n - 1, i, t);
    }
  }

  /** A stage in the search of the first `n` reads comes from the search of
      the writers of one of them. */
  lemma {:induction false} VisitReadsSource(w: Writers, stages: seq<GraphicsStage>, rank: seq<nat>,
                                            s: nat, n: nat, t: nat) returns (i: nat)
    requires RankedWriters(w, stages, rank)
    requires s < |stages| && n <= |stages[s].readsFrom|
    requires t in VisitReads(w, stages, rank, s, n)
    ensures i < n
    ensures t in VisitWriters(w, stages, rank, s, stages[s].readsFrom[i], |Lookup(w, stages[s].readsFrom[i])|)
  {
    var r := stages[s].readsFrom[n - 1];
    var prev := VisitReads(w, stages, rank, s, n - 1);
    assert VisitReads(w, stages, rank, s, n) == prev + VisitWriters(w, stages, rank, s, r, |Lookup(w, r)|);
    if t in prev {
      i := VisitReadsSource(w, stages, rank, s, n - 1, t);
    } else {
      i := n - 1;
    }
  }

  /** A stage occurs in the search from `s` exactly when it is `s` or one of
      its transitive producers. */
  lemma {:induction false} VisitReaches(w: Writers, stages: seq<GraphicsStage>, rank: seq<nat>, s: nat, t: nat)
    requires SearchReady(w, stages, rank) && s < |stages|
    ensures t in Visit(w, stages, rank, s) <==> Reaches(stages, rank, s, t)
    decreases rank[s]
  {
    var rs := stages[s].readsFrom;
    var o := Visit(w, stages, rank, s);
    assert o == VisitReads(w, stages, rank, s, |rs|) + [s];
    if t in o && t != s {
      var i := VisitReadsSource(w, stages, rank, s, |rs|, t);
      var j := VisitWritersSource(w, stages, rank, s, rs[i], |Lookup(w, rs[i])|, t);
      var x := Lookup(w, rs[i])[j];
      assert x in Lookup(w, rs[i]);
      FeedsThroughWriters(w, stages, rank, x, s);
      VisitReaches(w, stages, rank, x, t);
    }
    if Reaches(stages, rank, s, t) && t != s {
      var x :| 0 <= x < |stages| && Feeds(stages, x, s) && Reaches(stages, rank, x, t);
      VisitReaches(w, stages, rank, x, t);
      FeedsThroughWriters(w, stages, rank, x, s);
      var i, j :| 0 <= i < |rs| && 0 <= j < |Lookup(w, rs[i])| && Lookup(w, rs[i])[j] == x;
      VisitWritersHas(w, stages, rank, s, rs[i], |Lookup(w, rs[i])|, j, t);
      VisitReadsHas(w, stages, rank, s, |rs|, i, t);
    }
  }

  lemma ProducersFirstConcat(stages: seq<GraphicsStage>, a: seq<nat>, b: seq<nat>)
    requires ProducersFirst(stages, a) && ProducersFirst(stages, b)
    ensures ProducersFirst(stages, a + b)
  {
    var o := a + b;
    forall k, x | 0 <= k < |o| && o[k] < |stages| && 0 <= x < |stages| && Feeds(stages, x, o[k])
      ensures exists j :: 0 <= j < k && o[j] == x
    {
      if k < |a| {
        assert o[k] == a[k];
        var j :| 0 <= j < k && a[j] == x;
        assert o[j] == x;
      } else {
        assert o[k] == b[k - |a|];
        var j :| 0 <= j < k - |a| && b[j] == x;
        assert o[|a| + j] == x;
      }
    }
  }

  lemma {:induction false} VisitProducersFirst(w: Writers, stages: seq<GraphicsStage>, rank: seq<nat>, s: nat)
    requires SearchReady(w, stages, rank) && s < |stages|
    ensures ProducersFirst(stages, Visit(w, stages, rank, s))
    decreases rank[s], 2, 0
  {
    var rs := stages[s].readsFrom;
    var prefix := VisitReads(w, stages, rank, s, |rs|);
    VisitReadsProducersFirst(w, stages, rank, s, |rs|);
    var o := prefix + [s];
    forall k, x | 0 <= k < |o| && o[k] < |stages| && 0 <= x < |stages| && Feeds(stages, x, o[k])
      ensures exists j :: 0 <= j < k && o[j] == x
    {
      if k < |prefix| {
        assert o[k] == prefix[k];
        var j :| 0 <= j < k && prefix[j] == x;
        assert o[j] == x;
      } else {
        ProducerVisitedBefore(w, stages, rank, s, x);
        var p :| 0 <= p < |prefix| && prefix[p] == x;
        assert o[p] == x;
      }
    }
  }

  /** Every producer of `s` occurs in the search of what `s` reads. */
  lemma ProducerVisitedBefore(w: Writers, stages: seq<GraphicsStage>, rank: seq<nat>, s: nat, x: nat)
    requires SearchReady(w, stages, rank) && s < |stages| && x < |stages| && Feeds(stages, x, s)
    ensures x in VisitReads(w, stages, rank, s, |stages[s].readsFrom|)
  {
    var rs := stages[s].readsFrom;
    FeedsThroughWriters(w, stages, rank, x, s);
    var i, j :| 0 <= i < |rs| && 0 <= j < |Lookup(w, rs[i])| && Lookup(w, rs[i])[j] == x;
    VisitWritersHas(w, stages, rank, s, rs[i], |Lookup(w, rs[i])|, j, x);
    VisitReadsHas(w, stages, rank, s, |rs|, i, x);
  }

  lemma {:induction false} VisitReadsProducersFirst(w: Writers, stages: seq<GraphicsStage>, rank: seq<nat>,
                                                    s: nat, n: nat)
    requires SearchReady(w, stages, rank) && s < |stages| && n <= |stages[s].readsFrom|
    ensures ProducersFirst(stages, VisitReads(w, stages, rank, s, n))
    decreases rank[s], 1, n
  {
    if n > 0 {
      var r := stages[s].readsFrom[n - 1];
      VisitReadsProducersFirst(w, stages, rank, s, n - 1);
      VisitWritersProducersFirst(w, stages, rank, s, r, |Lookup(w, r)|);
      ProducersFirstConcat(stages, VisitReads(w, stages, rank, s, n - 1),
                           VisitWriters(w, stages, rank, s, r, |Lookup(w, r)|));
    }
  }

  lemma {:induction false} VisitWritersProducersFirst(w: Writers, stages: seq<GraphicsStage>, rank: seq<nat>,
                                                      s: nat, r: ResourceRef, m: nat)
    requires SearchReady(w, stages, rank) && s < |stages| && r in stages[s].readsFrom && m <= |Lookup(w, r)|
    ensures ProducersFirst(stages, VisitWriters(w, stages, rank, s, r, m))
    decreases rank[s], 0, m
  {
    if m > 0 {
      var x := Lookup(w, r)[m - 1];
      assert x in Lookup(w, r);
      VisitWritersProducersFirst(w, stages, rank, s, r, m - 1);
      VisitProducersFirst(w, stages, rank, x);
      ProducersFirstConcat(stages, VisitWriters(w, stages, rank, s, r, m - 1), Visit(w, stages, rank, x));
    }
  }

  lemma {:induction false} VisitAllFacts(w: Writers, stages: seq<GraphicsStage>, rank: seq<nat>,
                                         roots: seq<nat>, n: nat, t: nat)
    requires SearchReady(w, stages, rank)
    requires n <= |roots| && forall i :: 0 <= i < |roots| ==> roots[i] < |stages|
    ensures ProducersFirst(stages, VisitAll(w, stages, rank, roots, n))
    ensures t in VisitAll(w, stages, rank, roots, n) <==>
      exists i :: 0 <= i < n && Reaches(stages, rank, roots[i], t)
  {
    if n > 0 {
      VisitAllFacts(w, stages, rank, roots, n - 1, t);
      VisitProducersFirst(w, stages, rank, roots[n - 1]);
      ProducersFirstConcat(stages, VisitAll(w, stages, rank, roots, n - 1), Visit(w, stages, rank, roots[n - 1]));
      VisitReaches(w, stages, rank, roots[n - 1], t);
    }
  }

  /** The compiled order puts every producer occurrence before its consumer,
      and holds exactly the target's writers and their transitive producers. */
  lemma OrderFacts(stages: seq<GraphicsStage>, rank: seq<nat>, target: ResourceRef, t: nat)
    requires Ranked(stages, rank)
    ensures ProducersFirst(stages, Order(stages, rank, target))
    ensures t in Order(stages, rank, target) <==>
      exists root :: 0 <= root < |stages| && target in stages[root].writesTo && Reaches(stages, rank, root, t)
  {
    RankedWritersMap(stages, rank);
    var w := WritersMap(stages);
    var roots := Lookup(w, target);
    forall i | 0 <= i < |roots| ensures roots[i] < |stages| { assert roots[i] in roots; }
    VisitAllFacts(w, stages, rank, roots, |roots|, t);
    if exists root :: 0 <= root < |stages| && target in stages[root].writesTo && Reaches(stages, rank, root, t) {
      var root :| 0 <= root < |stages| && target in stages[root].writesTo && Reaches(stages, rank, root, t);
      WritersMembership(stages, target, root);
      var i :| 0 <= i < |roots| && roots[i] == root;
    }
    if t in Order(stages, rank, target) {
      var i :| 0 <= i < |roots| && Reaches(stages, rank, roots[i], t);
      assert roots[i] in roots;
      WritersMembership(stages, target, roots[i]);
    }
  }

  /** A target nobody writes yields no stages. */
  lemma OrderOfUnwritten(stages: seq<GraphicsStage>, rank: seq<nat>, target: ResourceRef)
    requires Ranked(stages, rank)
    requires forall s :: 0 <= s < |stages| ==> target !in stages[s].writesTo
    ensures Order(stages, rank, target) == []
  {
    RankedWritersMap(stages, rank);
    var roots := Lookup(WritersMap(stages), target);
    if roots != [] {
      assert roots[0] in roots;
      WritersMembership(stages, target, roots[0]);
    }
  }

  /** A diamond: stage 0 feeds stages 1 and 2, which both feed stage 3. */
  function Diamond(): seq<GraphicsStage> {
    [ NewStage("a").(writesTo := [TextureRef(0)]),
      NewStage("b").(readsFrom := [TextureRef(0)], writesTo := [TextureRef(1)]),
      NewStage("c").(readsFrom := [TextureRef(0)], writesTo := [TextureRef(2)]),
      NewStage("d").(readsFrom := [TextureRef(1), TextureRef(2)], writesTo := [TextureRef(3)]) ]
  }

  lemma DiamondRanked()
    ensures Ranked(Diamond(), [0, 1, 1, 2])
  {
    var stages, rank := Diamond(), [0, 1, 1, 2];
    forall x, y | 0 <= x < 4 && 0 <= y < 4 && Feeds(stages, x, y) ensures rank[x] < rank[y] {
      var r :| r in stages[y].readsFrom && r in stages[x].writesTo;
    }
  }

  lemma AddOneWrite(w: Writers, s: nat, r: ResourceRef)
    ensures AddWrites(w, s, [r]) == w[r := Lookup(w, r) + [s]]
  {
    assert [r][..0] == [];
  }

  lemma DiamondWriters()
    ensures WritersMap(Diamond()) ==
      map[TextureRef(0) := [0], TextureRef(1) := [1], TextureRef(2) := [2], TextureRef(3) := [3]]
  {
    var stages := Diamond();
    var w1 := map[TextureRef(0) := [0]];
    var w2 := w1[TextureRef(1) := [1]];
    var w3 := w2[TextureRef(2) := [2]];
    forall k | 0 <= k < 4 ensures stages[k].writesTo == [TextureRef(k)] { }
    assert WritersUpTo(stages, 1) == w1 by {
      assert WritersUpTo(stages, 1) == AddWrites(map[], 0, [TextureRef(0)]);
      AddOneWrite(map[], 0, TextureRef(0));
      assert Lookup(map[], TextureRef(0)) + [0] == [0];
    }
    assert WritersUpTo(stages, 2) == w2 by {
      assert WritersUpTo(stages, 2) == AddWrites(WritersUpTo(stages, 1), 1, [TextureRef(1)]);
      AddOneWrite(w1, 1, TextureRef(1));
      assert Lookup(w1, TextureRef(1)) + [1] == [1];
    }
    assert WritersUpTo(stages, 3) == w3 by {
      assert WritersUpTo(stages, 3) == AddWrites(WritersUpTo(stages, 2), 2, [TextureRef(2)]);
      AddOneWrite(w2, 2, TextureRef(2));
      assert Lookup(w2, TextureRef(2)) + [2] == [2];
    }
    assert WritersUpTo(stages, 4) == w3[TextureRef(3) := [3]] by {
      assert WritersUpTo(stages, 4) == AddWrites(WritersUpTo(stages, 3), 3, [TextureRef(3)]);
      AddOneWrite(w3, 3, TextureRef(3));
      assert Lookup(w3, TextureRef(3)) + [3] == [3];
    }
  }

  lemma VisitNoReads(w: Writers, stages: seq<GraphicsStage>, rank: seq<nat>, s: nat)
    requires s < |stages| && stages[s].readsFrom == [] && RankedWriters(w, stages, rank)
    ensures Visit(w, stages, rank, s) == [s]
  {
    assert VisitReads(w, stages, rank, s, 0) == [];
  }

  lemma VisitOneRead(w: Writers, stages: seq<GraphicsStage>, rank: seq<nat>, s: nat, r: ResourceRef, x: nat)
    requires s < |stages| && stages[s].readsFrom == [r] && RankedWriters(w, stages, rank)
    requires Lookup(w, r) == [x]
    ensures x < |stages|
    ensures Visit(w, stages, rank, s) == Visit(w, stages, rank, x) + [s]
  {
    assert x in Lookup(w, r);
    assert VisitWriters(w, stages, rank, s, r, 1) == Visit(w, stages, rank, x);
    assert VisitReads(w, stages, rank, s, 1) == VisitReads(w, stages, rank, s, 0) + VisitWriters(w, stages, rank, s, r, 1);
  }

  lemma VisitTwoReads(w: Writers, stages: seq<GraphicsStage>, rank: seq<nat>, s: nat, r: ResourceRef, x: nat,
                      q: ResourceRef, y: nat)
    requires s < |stages| && stages[s].readsFrom == [r, q] && RankedWriters(w, stages, rank)
    requires Lookup(w, r) == [x] && Lookup(w, q) == [y]
    ensures x < |stages| && y < |stages|
    ensures Visit(w, stages, rank, s) == Visit(w, stages, rank, x) + Visit(w, stages, rank, y) + [s]
  {
    assert x in Lookup(w, r) && y in Lookup(w, q);
    assert VisitWriters(w, stages, rank, s, r, 1) == Visit(w, stages, rank, x);
    assert VisitWriters(w, stages, rank, s, q, 1) == Visit(w, stages, rank, y);
    assert VisitReads(w, stages, rank, s, 1) == VisitReads(w, stages, rank, s, 0) + VisitWriters(w, stages, rank, s, r, 1);
    assert VisitReads(w, stages, rank, s, 2) == VisitReads(w, stages, rank, s, 1) + VisitWriters(w, stages, rank, s, q, 1);
  }

  /** The search over any graph shaped as the diamond. */
  lemma DiamondVisits(w: Writers, stages: seq<GraphicsStage>, rank: seq<nat>, t0: ResourceRef, t1: ResourceRef,
                      t2: ResourceRef)
    requires |stages| == 4 && RankedWriters(w, stages, rank)
    requires Lookup(w, t0) == [0] && Lookup(w, t1) == [1] && Lookup(w, t2) == [2]
    requires stages[0].readsFrom == [] && stages[1].readsFrom == [t0] && stages[2].readsFrom == [t0]
    requires stages[3].readsFrom == [t1, t2]
    ensures Visit(w, stages, rank, 3) == [0, 1, 0, 2, 3]
  {
    VisitNoReads(w, stages, rank, 0);
    VisitOneRead(w, stages, rank, 1, t0, 0);
    VisitOneRead(w, stages, rank, 2, t0, 0);
    VisitTwoReads(w, stages, rank, 3, t1, 1, t2, 2);
  }

  /** With no visited set, the stage reachable along two paths is recorded
      twice, once before each of its consumers. */
  lemma DiamondRepeatsSharedProducer()
    ensures Ranked(Diamond(), [0, 1, 1, 2])
    ensures Order(Diamond(), [0, 1, 1, 2], TextureRef(3)) == [0, 1, 0, 2, 3]
  {
    var stages, rank := Diamond(), [0, 1, 1, 2];
    DiamondRanked();
    DiamondWriters();
    RankedWritersMap(stages, rank);
    var w := WritersMap(stages);
    assert Lookup(w, TextureRef(3)) == [3];
    assert stages[3].readsFrom == [TextureRef(1), TextureRef(2)];
    DiamondVisits(w, stages, rank, TextureRef(0), TextureRef(1), TextureRef(2));
    assert VisitAll(w, stages, rank, [3], 1) == Visit(w, stages, rank, 3);
  }

  /** Every resource any stage writes is a texture. */
  predicate WritesOnlyTextures(stages: seq<GraphicsStage>) {
    forall s, i | 0 <= s < |stages| && 0 <= i < |stages[s].writesTo| :: stages[s].writesTo[i].TextureRef?
  }

  /** Every resource any stage reads is a buffer. */
  predicate ReadsOnlyBuffers(stages: seq<GraphicsStage>) {
    forall s, i | 0 <= s < |stages| && 0 <= i < |stages[s].readsFrom| :: stages[s].readsFrom[i].BufferRef?
  }

  /** When stages only read buffers and only write textures, no stage feeds
      another, so any ranking witnesses acyclicity. */
  lemma UnfedRanked(stages: seq<GraphicsStage>, rank: seq<nat>)
    requires |rank| == |stages| && WritesOnlyTextures(stages) && ReadsOnlyBuffers(stages)
    ensures Ranked(stages, rank)
  {
    forall w, s, r | 0 <= w < |stages| && 0 <= s < |stages| && r in stages[s].readsFrom
      ensures r !in stages[w].writesTo
    {
      var i :| 0 <= i < |stages[s].readsFrom| && stages[s].readsFrom[i] == r;
      assert r.BufferRef?;
    }
  }

  /** No stage writes a buffer: every buffer has no writers. */
  lemma BuffersUnwritten(stages: seq<GraphicsStage>, r: ResourceRef)
    requires WritesOnlyTextures(stages) && r.BufferRef?
    ensures Lookup(WritersMap(stages), r) == []
  {
    var roots := Lookup(WritersMap(stages), r);
    if roots != [] {
      assert roots[0] in roots;
      WritersMembership(stages, r, roots[0]);
    }
  }

  /** A stage reading two resources nobody writes is visited alone. */
  lemma VisitTwoUnwrittenReads(w: Writers, stages: seq<GraphicsStage>, rank: seq<nat>, s: nat, r: ResourceRef,
                               q: ResourceRef)
    requires s < |stages| && stages[s].readsFrom == [r, q] && RankedWriters(w, stages, rank)
    requires Lookup(w, r) == [] && Lookup(w, q) == []
    ensures Visit(w, stages, rank, s) == [s]
  {
    assert VisitWriters(w, stages, rank, s, r, 0) == [];
    assert VisitWriters(w, stages, rank, s, q, 0) == [];
    assert VisitReads(w, stages, rank, s, 1) == VisitReads(w, stages, rank, s, 0) + VisitWriters(w, stages, rank, s, r, 0);
    assert VisitReads(w, stages, rank, s, 2) == VisitReads(w, stages, rank, s, 1) + VisitWriters(w, stages, rank, s, q, 0);
  }

  /** Two stages both writing `t`, the first also writing another resource:
      `t`'s writers are both stages, in registration order. */
  lemma TwoWritersOf(stages: seq<GraphicsStage>, t: ResourceRef, u: ResourceRef)
    requires |stages| == 2 && t != u
    requires stages[0].writesTo == [t, u] && stages[1].writesTo == [t]
    ensures Lookup(WritersMap(stages), t) == [0, 1]
  {
    WritersMapIsWriterList(stages, 2, t);
    assert multiset(stages[0].writesTo)[t] == 1;
    assert multiset(stages[1].writesTo)[t] == 1;
    assert WriterList(stages, 1, t) == [0];
  }

  /** Two stages that read two buffers each and write only textures: the
      graph is acyclic, and the order for a resource both write is the two
      stages in registration order, each visited alone. */
  lemma UnfedPairOrder(stages: seq<GraphicsStage>, rank: seq<nat>, target: ResourceRef)
    requires |stages| == 2 && |rank| == 2 && WritesOnlyTextures(stages) && ReadsOnlyBuffers(stages)
    requires |stages[0].readsFrom| == 2 && |stages[1].readsFrom| == 2
    requires Lookup(WritersMap(stages), target) == [0, 1]
    ensures Ranked(stages, rank)
    ensures Order(stages, rank, target) == [0, 1]
  {
    UnfedRanked(stages, rank);
    RankedWritersMap(stages, rank);
    var w := WritersMap(stages);
    UnfedVisitAlone(stages, rank, 0);
    UnfedVisitAlone(stages, rank, 1);
    VisitAllAlone(w, stages, rank);
  }

  /** Two roots each visited alone are searched in turn. */
  lemma VisitAllAlone(w: Writers, stages: seq<GraphicsStage>, rank: seq<nat>)
    requires |stages| == 2 && RankedWriters(w, stages, rank)
    requires Visit(w, stages, rank, 0) == [0] && Visit(w, stages, rank, 1) == [1]
    ensures VisitAll(w, stages, rank, [0, 1], 2) == [0, 1]
  {
    var roots := [0, 1];
    assert roots[0] == 0 && roots[1] == 1;
    assert VisitAll(w, stages, rank, roots, 1) == VisitAll(w, stages, rank, roots, 0) + Visit(w, stages, rank, 0);
    assert VisitAll(w, stages, rank, roots, 2) == VisitAll(w, stages, rank, roots, 1) + Visit(w, stages, rank, 1);
  }

  /** In a graph that only reads buffers and only writes textures, a stage
      reading two buffers is visited alone. */
  lemma UnfedVisitAlone(stages: seq<GraphicsStage>, rank: seq<nat>, s: nat)
    requires WritesOnlyTextures(stages) && ReadsOnlyBuffers(stages) && RankedWriters(WritersMap(stages), stages, rank)
    requires s < |stages| && |stages[s].readsFrom| == 2
    ensures Visit(WritersMap(stages), stages, rank, s) == [s]
  {
    var r, q := stages[s].readsFrom[0], stages[s].readsFrom[1];
    assert r.BufferRef? && q.BufferRef?;
    BuffersUnwritten(stages, r);
    BuffersUnwritten(stages, q);
    assert stages[s].readsFrom == [r, q];
    VisitTwoUnwrittenReads(WritersMap(stages), stages, rank, s, r, q);
  }

  /** One stage reading two buffers and writing `target` and one other
      resource: acyclic, and the order for `target` is that stage alone. */
  lemma UnfedSingleOrder(stages: seq<GraphicsStage>, rank: seq<nat>, target: ResourceRef, u: ResourceRef)
    requires |stages| == 1 && |rank| == 1 && WritesOnlyTextures(stages) && ReadsOnlyBuffers(stages)
    requires |stages[0].readsFrom| == 2 && stages[0].writesTo == [target, u] && target != u
    ensures Ranked(stages, rank)
    ensures Order(stages, rank, target) == [0]
  {
    UnfedRanked(stages, rank);
    RankedWritersMap(stages, rank);
    var w := WritersMap(stages);
    assert Lookup(w, target) == [0] by {
      WritersMapIsWriterList(stages, 1, target);
      assert multiset(stages[0].writesTo)[target] == 1;
    }
    UnfedVisitAlone(stages, rank, 0);
    assert VisitAll(w, stages, rank, [0], 1) == [0];
  }
}
