/** Topological sorting of the stream graph. */
module TopoSort {
  import opened Wrappers

  type Adjacency = seq<seq<nat>>

  /** The source's map from numbers to kernels, in which a null pointer can stand for a kernel. */
  type Registry = map<nat, Option<nat>>

  /** A stream by identity, the numbers of the kernels at its ends (None for no kernel), and whether it has been
      allocated. */
  datatype Stream = Stream(id: nat, src: Option<nat>, dst: Option<nat>, ready: bool)
  {
    predicate Joins(u: nat, v: nat) {
      ready && src == Some(u) && dst == Some(v)
    }
  }

  datatype Ends = Ends(ins: seq<Stream>, outs: seq<Stream>)

  predicate Registered(m: Registry, id: nat) {
    id in m && m[id].Some?
  }

  /** q is a stream of the kernel registered under this number. */
  predicate Holds(m: Registry, streams: map<nat, Ends>, id: nat, q: Stream) {
    Registered(m, id) && m[id].value in streams && (q in streams[m[id].value].ins || q in streams[m[id].value].outs)
  }

  /** Some registered kernel has a stream from u to v. */
  ghost predicate Linked(m: Registry, streams: map<nat, Ends>, u: nat, v: nat) {
    exists id, q {:trigger Holds(m, streams, id, q)} :: Holds(m, streams, id, q) && q.Joins(u, v)
  }

  /** Some registered kernel has a stream that leaves u, which the map does not know. */
  ghost predicate Dangling(m: Registry, streams: map<nat, Ends>, u: nat) {
    u !in m && exists v {:trigger Linked(m, streams, u, v)} :: Linked(m, streams, u, v)
  }

  /** Every registered kernel's streams are known and end at numbers below n. */
  ghost predicate Known(m: Registry, streams: map<nat, Ends>, n: nat) {
    && (forall id :: Registered(m, id) ==> m[id].value in streams)
    && (forall id, q {:trigger Holds(m, streams, id, q)} :: Holds(m, streams, id, q) ==>
          (q.src.Some? ==> q.src.value < n) && (q.dst.Some? ==> q.dst.value < n))
  }

  predicate Edge(adj: Adjacency, u: nat, v: nat) {
    u < |adj| && v in adj[u]
  }

  ghost predicate Path(adj: Adjacency, p: seq<nat>) {
    p != [] && forall i :: 0 <= i < |p| - 1 ==> Edge(adj, p[i], p[i + 1])
  }

  /** There is a way along edges from a to b. */
  ghost predicate Reaches(adj: Adjacency, a: nat, b: nat) {
    exists p {:trigger Path(adj, p)} :: Path(adj, p) && p[0] == a && p[|p| - 1] == b
  }

  lemma ReachesSelf(adj: Adjacency, a: nat)
    ensures Reaches(adj, a, a)
  {
    assert Path(adj, [a]);
  }

  lemma ReachesNext(adj: Adjacency, a: nat, b: nat, c: nat)
    requires Reaches(adj, a, b) && Edge(adj, b, c)
    ensures Reaches(adj, a, c)
  {
    var p :| Path(adj, p) && p[0] == a && p[|p| - 1] == b;
    assert Path(adj, p + [c]);
  }

  /** v comes after u in s. */
  predicate Before(s: seq<nat>, u: nat, v: nat) {
    exists i, j :: 0 <= i < j < |s| && s[i] == u && s[j] == v
  }

  lemma BeforeInRest(s: seq<nat>, k: nat, u: nat, v: nat)
    requires Before(s, u, v)
    ensures Before([k] + s, u, v)
  {
    var i, j :| 0 <= i < j < |s| && s[i] == u && s[j] == v;
    assert ([k] + s)[i + 1] == u && ([k] + s)[j + 1] == v;
  }

  lemma FirstBefore(s: seq<nat>, k: nat, v: nat)
    requires v in s
    ensures Before([k] + s, k, v)
  {
    var j :| 0 <= j < |s| && s[j] == v;
    assert ([k] + s)[0] == k && ([k] + s)[j + 1] == v;
  }

  predicate Distinct(s: seq<nat>) {
    forall i, j :: 0 <= i < j < |s| ==> s[i] != s[j]
  }

  /** Every edge between registered kernels goes forward in s, unless it lies on a cycle. */
  ghost predicate Forward(adj: Adjacency, registered: set<nat>, s: seq<nat>) {
    forall u: nat, v: nat {:trigger Edge(adj, u, v)} :: u in s && Edge(adj, u, v) && v in registered ==>
        Before(s, u, v) || Reaches(adj, v, u)
  }

  ghost predicate Joined(seen: set<Stream>, u: nat, v: nat) {
    exists q :: q in seen && q.Joins(u, v)
  }

  ghost predicate Leaves(seen: set<Stream>, u: nat) {
    exists v :: Joined(seen, u, v)
  }

  lemma OneMore(seen: set<Stream>, q: Stream)
    ensures forall u, v :: Joined(seen + {q}, u, v) <==> Joined(seen, u, v) || q.Joins(u, v)
    ensures forall u: nat :: Leaves(seen + {q}, u) <==> Leaves(seen, u) || (q.ready && q.src == Some(u) && q.dst.Some?)
  {
    assert forall u, v :: Joined(seen, u, v) ==> Joined(seen + {q}, u, v);
    if q.ready && q.src.Some? && q.dst.Some? {
      assert q.Joins(q.src.value, q.dst.value) && Joined(seen + {q}, q.src.value, q.dst.value);
    }
  }

  lemma SeenAreLinks(m: Registry, streams: map<nat, Ends>, n: nat, seen: set<Stream>)
    requires forall id :: id in m ==> id < n
    requires forall q :: q in seen <==> exists id :: 0 <= id < n && Holds(m, streams, id, q)
    ensures forall u, v :: Linked(m, streams, u, v) <==> Joined(seen, u, v)
    ensures forall u :: Dangling(m, streams, u) <==> u !in m && Leaves(seen, u)
  {
    forall u: nat, v: nat
      ensures Linked(m, streams, u, v) <==> Joined(seen, u, v)
    {
    }
    hide Linked, Joined;
  }

  class RuntimeGraph {
    const n: nat
    var adj: Adjacency
    var id2kernel: Registry

    constructor (n: nat)
      ensures Valid() && this.n == n && id2kernel == map[]
    {
      this.n, adj, id2kernel := n, seq(n, _ => []), map[];
    }

    ghost predicate Valid()
      reads this
    {
      && |adj| == n && (forall k :: k in id2kernel ==> k < n)
      && (forall u: nat, v: nat {:trigger Edge(adj, u, v)} :: Edge(adj, u, v) ==> Registered(id2kernel, u) && v < n)
    }

    method AddKernel(id: nat, kernel: nat)
      requires Valid() && id < n
      modifies this
      ensures Valid() && id2kernel == old(id2kernel)[id := Some(kernel)]
      ensures adj == if id in old(id2kernel) && old(id2kernel)[id] == Some(kernel) then old(adj) else old(adj)[id := []]
    {
      if id in id2kernel && id2kernel[id] == Some(kernel) { return; }
      assert forall u: nat, v: nat {:trigger Edge(adj[id := []], u, v)} :: Edge(adj[id := []], u, v) ==>
          Edge(adj, u, v);
      adj, id2kernel := adj[id := []], id2kernel[id := Some(kernel)];
    }

    method RemoveKernel(id: nat)
      requires Valid() && id < n
      modifies this
      ensures Valid() && id2kernel == old(id2kernel) - {id} && adj == old(adj)[id := []]
    {
      assert forall u: nat, v: nat {:trigger Edge(adj[id := []], u, v)} :: Edge(adj[id := []], u, v) ==>
          Edge(adj, u, v) && u != id;
      adj, id2kernel := adj[id := []], id2kernel - {id};
    }

    /** Looking the source up registers it as a null pointer when it is not registered. */
    method AddEdge(src: Option<nat>, dst: Option<nat>)
      requires Valid() && (src.Some? ==> src.value < n) && (dst.Some? ==> dst.value < n)
      modifies this
      ensures Valid()
      ensures id2kernel == if src.Some? && dst.Some? && src.value !in old(id2kernel)
                           then old(id2kernel)[src.value := None] else old(id2kernel)
      ensures adj == if src.Some? && dst.Some? && Registered(old(id2kernel), src.value)
                     then old(adj)[src.value := old(adj)[src.value] + [dst.value]] else old(adj)
      ensures forall u: nat, v: nat :: Edge(adj, u, v) <==>
                Edge(old(adj), u, v) || (src == Some(u) && dst == Some(v) && Registered(old(id2kernel), u))
    {
      ghost var adj0 := adj;
      if src.None? || dst.None? { return; }
      var id := src.value;
      if id !in id2kernel {
        id2kernel := id2kernel[id := None];
      }
      if id2kernel[id].None? { return; }
      adj := adj[id := adj[id] + [dst.value]];
      forall u: nat, v: nat
        ensures Edge(adj, u, v) <==> Edge(adj0, u, v) || (u == id && dst == Some(v))
      {
      }
    }

    /** The edges and entries that the streams in `seen` have given to a graph that began with the map m. */
    ghost predicate Collected(m: Registry, seen: set<Stream>)
      reads this
    {
      && Valid() && (forall u :: u in m ==> u in id2kernel && id2kernel[u] == m[u])
      && (forall u :: u in id2kernel && u !in m ==> id2kernel[u].None?)
      && (forall u :: u in id2kernel <==> u in m || Leaves(seen, u))
      && (forall u: nat, v: nat {:trigger Edge(adj, u, v)} :: Edge(adj, u, v) <==>
          Registered(m, u) && Joined(seen, u, v))
    }

    method AddStream(q: Stream, visited0: set<Stream>, ghost m: Registry) returns (visited: set<Stream>)
      requires Collected(m, visited0) && (q.src.Some? ==> q.src.value < n) && (q.dst.Some? ==> q.dst.value < n)
      modifies this
      ensures Collected(m, visited) && visited == visited0 + {q}
    {
      OneMore(visited0, q);
      hide Joined, Leaves;
      visited := visited0 + {q};
      if q in visited0 {
        assert visited == visited0;
      } else if q.ready {
        AddEdge(q.src, q.dst);
      }
    }

    method AddEdges(ss: seq<Stream>, visited0: set<Stream>, ghost m: Registry) returns (visited: set<Stream>)
      requires Collected(m, visited0)
      requires forall q :: q in ss ==> (q.src.Some? ==> q.src.value < n) && (q.dst.Some? ==> q.dst.value < n)
      modifies this
      ensures Collected(m, visited) && visited == visited0 + set q | q in ss
    {
      hide Collected;
      visited := visited0;
      for i := 0 to |ss|
        invariant Collected(m, visited) && visited == visited0 + set q | q in ss[..i]
      {
        assert ss[..i + 1] == ss[..i] + [ss[i]];
        visited := AddStream(ss[i], visited, m);
      }
    }

    /** Makes the edges again from the streams of the registered kernels. A kernel that a stream leaves and that is
        not registered gets an entry with a null pointer. */
    method RefreshAdjList(streams: map<nat, Ends>)
      requires Valid() && Known(id2kernel, streams, n)
      modifies this
      ensures Valid() && forall u: nat, v: nat ::
                Edge(adj, u, v) <==> Registered(old(id2kernel), u) && Linked(old(id2kernel), streams, u, v)
      ensures forall u :: u in old(id2kernel) ==> u in id2kernel && id2kernel[u] == old(id2kernel)[u]
      ensures forall u :: u in id2kernel && u !in old(id2kernel) <==> Dangling(old(id2kernel), streams, u)
      ensures forall u :: Dangling(old(id2kernel), streams, u) ==> id2kernel[u] == None
    {
      ghost var m := id2kernel;
      adj := seq(n, _ => []);
      var visited := {};
      for id := 0 to n
        invariant Collected(m, visited)
        invariant forall q :: q in visited <==> exists k :: 0 <= k < id && Holds(m, streams, k, q)
      {
        if id in id2kernel && id2kernel[id].Some? {
          var ends := streams[id2kernel[id].value];
          assert forall q :: q in ends.ins || q in ends.outs ==> Holds(m, streams, id, q);
          visited := AddEdges(ends.ins, visited, m);
          visited := AddEdges(ends.outs, visited, m);
        }
      }
      SeenAreLinks(m, streams, n, visited);
      hide Linked, Joined, Holds, Leaves;
    }

    /** Everything visited and registered is sorted or still on the way (grey). */
    ghost predicate Visiting(c: array<bool>, sorted: seq<nat>, grey: set<nat>)
      reads this, c
    {
      && c.Length == n && Distinct(sorted)
      && (forall x :: x in sorted || x in grey ==> x < n && x in id2kernel && c[x])
      && (forall x :: 0 <= x < n && c[x] && x in id2kernel ==> x in sorted || x in grey)
      && (forall x :: x in sorted ==> x !in grey)
      && Forward(adj, id2kernel.Keys, sorted)
    }

    ghost function Unvisited(c: array<bool>): set<nat>
      reads this, c
      requires c.Length == n
    {
      set x: nat | x < n && !c[x]
    }

    /** Depth-first visit of k; `grey` are the kernels whose visits led here. */
    method Visit(k: nat, c: array<bool>, sorted0: seq<nat>, ghost grey: set<nat>) returns (sorted: seq<nat>)
      requires Valid() && k < n && Visiting(c, sorted0, grey) && !c[k]
      requires forall g :: g in grey ==> Reaches(adj, g, k)
      modifies c
      ensures Visiting(c, sorted, grey) && c[k]
      ensures forall x :: 0 <= x < n && old(c[x]) ==> c[x]
      ensures Unvisited(c) <= old(Unvisited(c))
      decreases Unvisited(c)
    {
      sorted := sorted0;
      ghost var before := Unvisited(c);
      assert k in before;
      c[k] := true;
      assert Unvisited(c) == before - {k};
      if k !in id2kernel { return; }
      ReachesSelf(adj, k);
      ghost var path := grey + {k};
      var i := |adj[k]| - 1;
      while i >= 0
        invariant -1 <= i < |adj[k]| && Visiting(c, sorted, path) && c[k]
        invariant forall x :: 0 <= x < n && old(c[x]) ==> c[x]
        invariant Unvisited(c) < before
        invariant forall j :: i < j < |adj[k]| ==> adj[k][j] < n && c[adj[k][j]]
      {
        var w := adj[k][i];
        assert Edge(adj, k, w);
        if !c[w] {
          forall g | g in path
            ensures Reaches(adj, g, w)
          {
            ReachesNext(adj, g, k, w);
          }
          sorted := Visit(w, c, sorted, path);
        }
        i := i - 1;
      }
      PushFront(c, sorted, grey, k);
      sorted := [k] + sorted;
    }

    lemma PushFront(c: array<bool>, sorted: seq<nat>, grey: set<nat>, k: nat)
      requires Valid() && k < n && Visiting(c, sorted, grey + {k}) && k !in grey
      requires forall g :: g in grey + {k} ==> Reaches(adj, g, k)
      requires forall v: nat :: Edge(adj, k, v) ==> v < n && c[v]
      ensures Visiting(c, [k] + sorted, grey)
    {
      forall u: nat, v: nat | u in [k] + sorted && Edge(adj, u, v) && v in id2kernel.Keys
        ensures Before([k] + sorted, u, v) || Reaches(adj, v, u)
      {
        if u == k {
          if v in sorted {
            FirstBefore(sorted, k, v);
          }
        } else if Before(sorted, u, v) {
          BeforeInRest(sorted, k, u, v);
        }
      }
    }

    /** Ends on every graph; lists every entry of the map exactly once, and for every edge between two of them
        that is on no cycle the source before the target. Some entry listed is a null pointer if and only if one
        was in the map before, or a stream of a registered kernel leaves a kernel the map did not know. */
    method TopoSort(streams: map<nat, Ends>) returns (sorted: seq<nat>)
      requires Valid() && Known(id2kernel, streams, n)
      modifies this
      ensures Valid() && Distinct(sorted) && forall x :: x in sorted <==> x in id2kernel
      ensures forall x :: x in old(id2kernel) ==> x in id2kernel && id2kernel[x] == old(id2kernel)[x]
      ensures forall x :: x in id2kernel && x !in old(id2kernel) <==> Dangling(old(id2kernel), streams, x)
      ensures forall x :: Dangling(old(id2kernel), streams, x) ==> id2kernel[x] == None
      ensures forall u: nat, v: nat ::
                Edge(adj, u, v) <==> Registered(old(id2kernel), u) && Linked(old(id2kernel), streams, u, v)
      ensures forall u: nat, v: nat :: Edge(adj, u, v) && v in id2kernel ==> Before(sorted, u, v) || Reaches(adj, v, u)
      ensures (exists x :: x in sorted && id2kernel[x].None?) <==>
              (exists x :: x in old(id2kernel) && old(id2kernel)[x].None?)
                  || (exists x :: Dangling(old(id2kernel), streams, x))
    {
      RefreshAdjList(streams);
      var c := new bool[n](_ => false);
      sorted := [];
      var i := 0;
      while i < n
        invariant 0 <= i <= n && Visiting(c, sorted, {})
        invariant forall x :: 0 <= x < i ==> c[x]
        modifies c
      {
        if !c[i] {
          sorted := Visit(i, c, sorted, {});
        }
        i := i + 1;
      }
    }
  }

  const PIPE := Stream(0, Some(0), Some(1), true)
  const PIPED := map[0 := Ends([], [PIPE]), 1 := Ends([PIPE], [])]

  lemma PipeDangles()
    ensures Known(map[1 := Some(1)], PIPED, 2)
    ensures forall u :: Dangling(map[1 := Some(1)], PIPED, u) <==> u == 0
  {
    var m: Registry := map[1 := Some(1)];
    assert Holds(m, PIPED, 1, PIPE) && PIPE.Joins(0, 1);
    assert Linked(m, PIPED, 0, 1);
  }

  /** Kernel 0 feeds kernel 1 and is removed: the sort lists it all the same, as a null pointer. */
  method RemovedKernelIsListed() returns (g: RuntimeGraph, sorted: seq<nat>)
    ensures g.id2kernel == map[0 := None, 1 := Some(1)] && 0 in sorted
  {
    PipeDangles();
    hide Dangling, Known;
    g := new RuntimeGraph(2);
    g.AddKernel(0, 0);
    g.AddKernel(1, 1);
    g.RemoveKernel(0);
    assert g.id2kernel == map[1 := Some(1)];
    sorted := g.TopoSort(PIPED);
  }
}
