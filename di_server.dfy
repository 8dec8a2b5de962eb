/** Model of diServer.ts: DependencyInjector.getService, the resolver that
    builds an object graph from constructor parameter-type metadata.

    The reflection metadata ('design:paramtypes') becomes an explicit
    Registry. An object is an Instance: its identity, its class, and the
    arguments its constructor received. Object identity is the allocation
    number: every construction takes the next free number, so the counter
    threaded through the resolver is the part of the heap it touches. */
module DiServer {

  /** The identity of a class, as used both as a request and as a parameter type. */
  type ClassId = string

  /** Parameter-type metadata: for each class that carries it, the classes of
      its constructor's parameters, in declaration order. */
  type Registry = map<ClassId, seq<ClassId>>

  /** A constructed object: `id` is its allocation number, `cls` its class and
      `args` the objects passed to its constructor, in order. */
  datatype Instance = Instance(id: nat, cls: ClassId, args: seq<Instance>)

  /** A constructed object graph with identities forgotten: its shape. */
  datatype Tree = Tree(cls: ClassId, args: seq<Tree>)

  /** The metadata lookup: a class without metadata reads as an empty list,
      which is how the source treats a missing and an empty list alike. */
  function ParamTypes(reg: Registry, c: ClassId): seq<ClassId>
  {
    if c in reg then reg[c] else []
  }

  /** `rank` is closed under dependency edges and strictly decreases along them:
      the classes in its domain reach no dependency cycle. */
  ghost predicate Ranked(reg: Registry, rank: map<ClassId, nat>)
  {
    forall c, i :: c in rank && 0 <= i < |ParamTypes(reg, c)| ==>
      ParamTypes(reg, c)[i] in rank && rank[ParamTypes(reg, c)[i]] < rank[c]
  }

  /** Every class in `ps` is ranked below `bound`. */
  ghost predicate RankedBelow(rank: map<ClassId, nat>, ps: seq<ClassId>, bound: nat)
  {
    forall i :: 0 <= i < |ps| ==> ps[i] in rank && rank[ps[i]] < bound
  }

  /** getService(c) with the first free identity `next`: the object built and
      the first identity still free afterwards. */
  function Resolve(reg: Registry, ghost rank: map<ClassId, nat>, c: ClassId, next: nat): (r: (Instance, nat))
    requires Ranked(reg, rank) && c in rank
    ensures r.0.cls == c
    ensures next < r.1 && r.0.id == r.1 - 1
    ensures |r.0.args| == |ParamTypes(reg, c)|
    ensures forall i :: 0 <= i < |r.0.args| ==> r.0.args[i].cls == ParamTypes(reg, c)[i]
    ensures ParamTypes(reg, c) == [] ==> r == (Instance(next, c, []), next + 1)
    decreases rank[c], 1, 0
  {
    var ps := ParamTypes(reg, c);
    if ps == [] then
      (Instance(next, c, []), next + 1)
    else
      var (args, after) := ResolveAll(reg, rank, rank[c], ps, next);
      (Instance(after, c, args), after + 1)
  }

  /** The argument loop: resolves `ps` left to right, each resolution starting
      where the previous one left the allocation counter. */
  function ResolveAll(reg: Registry, ghost rank: map<ClassId, nat>, ghost bound: nat,
                      ps: seq<ClassId>, next: nat): (r: (seq<Instance>, nat))
    requires Ranked(reg, rank) && RankedBelow(rank, ps, bound)
    ensures |r.0| == |ps| && next <= r.1
    ensures forall i :: 0 <= i < |ps| ==> r.0[i].cls == ps[i]
    decreases bound, 0, |ps|
  {
    if ps == [] then
      ([], next)
    else
      var (init, mid) := ResolveAll(reg, rank, bound, ps[..|ps| - 1], next);
      var (last, after) := Resolve(reg, rank, ps[|ps| - 1], mid);
      (init + [last], after)
  }

  /** DependencyInjector.getService: the `parameters` array is filled by a loop
      that resolves each parameter type recursively and pushes the result. */
  method GetService(reg: Registry, ghost rank: map<ClassId, nat>, c: ClassId, next: nat)
    returns (service: Instance, after: nat)
    requires Ranked(reg, rank) && c in rank
    ensures (service, after) == Resolve(reg, rank, c, next)
    decreases rank[c]
  {
    var paramtypes := ParamTypes(reg, c);
    if paramtypes == [] {
      return Instance(next, c, []), next + 1;
    }
    var parameters: seq<Instance> := [];
    var free := next;
    for i := 0 to |paramtypes|
      invariant (parameters, free) == ResolveAll(reg, rank, rank[c], paramtypes[..i], next)
    {
      assert paramtypes[..i + 1][..i] == paramtypes[..i];
      var parameter, nextFree := GetService(reg, rank, paramtypes[i], free);
      parameters := parameters + [parameter];
      free := nextFree;
    }
    assert paramtypes[..|paramtypes|] == paramtypes;
    return Instance(free, c, parameters), free + 1;
  }

  // ---------------------------------------------------------------------------
  // Argument order

  /** The i-th argument is exactly what resolving the i-th parameter type gives,
      started where the arguments before it left the allocation counter. */
  lemma {:induction false} ArgumentIsResolution(reg: Registry, rank: map<ClassId, nat>, bound: nat,
                                                ps: seq<ClassId>, next: nat, i: nat)
    requires Ranked(reg, rank) && RankedBelow(rank, ps, bound) && i < |ps|
    ensures ResolveAll(reg, rank, bound, ps, next).0[i]
         == Resolve(reg, rank, ps[i], ResolveAll(reg, rank, bound, ps[..i], next).1).0
    decreases |ps|
  {
    var n := |ps|;
    if i < n - 1 {
      ArgumentIsResolution(reg, rank, bound, ps[..n - 1], next, i);
      assert ps[..n - 1][..i] == ps[..i];
    } else {
      assert ps[..i] == ps[..n - 1];
    }
  }

  /** The arguments of getService(c), in order, are the resolutions of c's
      parameter types, in order. */
  lemma ArgumentsInOrder(reg: Registry, rank: map<ClassId, nat>, c: ClassId, next: nat, i: nat)
    requires Ranked(reg, rank) && c in rank && i < |ParamTypes(reg, c)|
    ensures Resolve(reg, rank, c, next).0.args[i]
         == Resolve(reg, rank, ParamTypes(reg, c)[i],
                    ResolveAll(reg, rank, rank[c], ParamTypes(reg, c)[..i], next).1).0
  {
    ArgumentIsResolution(reg, rank, rank[c], ParamTypes(reg, c), next, i);
  }

  // ---------------------------------------------------------------------------
  // Construction order and object identity

  /** The identities of a graph in post-order: every argument subtree, left to
      right, and then the object that received them. */
  function PostOrder(t: Instance): seq<nat>
    decreases t, 1
  {
    PostOrderAll(t.args) + [t.id]
  }

  function PostOrderAll(ts: seq<Instance>): seq<nat>
    decreases ts, 0
  {
    if ts == [] then [] else PostOrderAll(ts[..|ts| - 1]) + PostOrder(ts[|ts| - 1])
  }

  /** The identities lo, lo + 1, ..., hi - 1. */
  function Range(lo: nat, hi: nat): (s: seq<nat>)
    requires lo <= hi
    ensures |s| == hi - lo && forall k :: 0 <= k < |s| ==> s[k] == lo + k
  {
    seq(hi - lo, k => lo + k)
  }

  /** Construction is depth-first and left to right: the k-th object that
      getService constructs is the k-th object of the result in post-order, so
      every argument is built before the object that receives it and no object
      appears twice. */
  lemma {:induction false} ConstructionIsPostOrder(reg: Registry, rank: map<ClassId, nat>,
                                                   c: ClassId, next: nat)
    requires Ranked(reg, rank) && c in rank
    ensures PostOrder(Resolve(reg, rank, c, next).0)
         == Range(next, Resolve(reg, rank, c, next).1)
    decreases rank[c], 1
  {
    var ps := ParamTypes(reg, c);
    var (t, after) := Resolve(reg, rank, c, next);
    if ps == [] {
      assert PostOrderAll(t.args) == [];
    } else {
      ArgumentsArePostOrder(reg, rank, rank[c], ps, next);
      assert Range(next, after - 1) + [after - 1] == Range(next, after);
    }
  }

  lemma {:induction false} ArgumentsArePostOrder(reg: Registry, rank: map<ClassId, nat>, bound: nat,
                                                 ps: seq<ClassId>, next: nat)
    requires Ranked(reg, rank) && RankedBelow(rank, ps, bound)
    ensures PostOrderAll(ResolveAll(reg, rank, bound, ps, next).0)
         == Range(next, ResolveAll(reg, rank, bound, ps, next).1)
    decreases bound, 0, |ps|
  {
    if ps == [] {
    } else {
      var (init, mid) := ResolveAll(reg, rank, bound, ps[..|ps| - 1], next);
      var (last, after) := Resolve(reg, rank, ps[|ps| - 1], mid);
      var all := init + [last];
      assert all[..|all| - 1] == init;
      ArgumentsArePostOrder(reg, rank, bound, ps[..|ps| - 1], next);
      ConstructionIsPostOrder(reg, rank, ps[|ps| - 1], mid);
      assert Range(next, mid) + Range(mid, after) == Range(next, after);
    }
  }

  /** Every object of the graph getService returns is new: its identity lies
      in the range allocated by this call, and no two objects of the graph
      share one, even when the same class is needed twice. */
  lemma FreshGraph(reg: Registry, rank: map<ClassId, nat>, c: ClassId, next: nat)
    requires Ranked(reg, rank) && c in rank
    ensures var (t, after) := Resolve(reg, rank, c, next);
      (forall k :: 0 <= k < |PostOrder(t)| ==> next <= PostOrder(t)[k] < after) &&
      (forall j, k :: 0 <= j < k < |PostOrder(t)| ==> PostOrder(t)[j] != PostOrder(t)[k])
  {
    ConstructionIsPostOrder(reg, rank, c, next);
  }

  // ---------------------------------------------------------------------------
  // No caching: equal shapes, disjoint identities

  /** The shape of a graph: the same tree with identities forgotten. */
  function Erase(t: Instance): Tree
    decreases t, 1
  {
    Tree(t.cls, EraseAll(t.args))
  }

  function EraseAll(ts: seq<Instance>): (r: seq<Tree>)
    ensures |r| == |ts|
    decreases ts, 0
  {
    if ts == [] then [] else EraseAll(ts[..|ts| - 1]) + [Erase(ts[|ts| - 1])]
  }

  /** The shape getService builds depends only on the registry and the class,
      never on what was allocated before. */
  lemma {:induction false} ShapeIgnoresHeap(reg: Registry, rank: map<ClassId, nat>, c: ClassId,
                                            n1: nat, n2: nat)
    requires Ranked(reg, rank) && c in rank
    ensures Erase(Resolve(reg, rank, c, n1).0) == Erase(Resolve(reg, rank, c, n2).0)
    decreases rank[c], 1
  {
    var ps := ParamTypes(reg, c);
    if ps != [] {
      ArgumentShapesIgnoreHeap(reg, rank, rank[c], ps, n1, n2);
    }
  }

  lemma {:induction false} ArgumentShapesIgnoreHeap(reg: Registry, rank: map<ClassId, nat>, bound: nat,
                                                    ps: seq<ClassId>, n1: nat, n2: nat)
    requires Ranked(reg, rank) && RankedBelow(rank, ps, bound)
    ensures EraseAll(ResolveAll(reg, rank, bound, ps, n1).0)
         == EraseAll(ResolveAll(reg, rank, bound, ps, n2).0)
    decreases bound, 0, |ps|
  {
    if ps != [] {
      var (init1, mid1) := ResolveAll(reg, rank, bound, ps[..|ps| - 1], n1);
      var (init2, mid2) := ResolveAll(reg, rank, bound, ps[..|ps| - 1], n2);
      var last1 := Resolve(reg, rank, ps[|ps| - 1], mid1).0;
      var last2 := Resolve(reg, rank, ps[|ps| - 1], mid2).0;
      assert (init1 + [last1])[..|ps| - 1] == init1;
      assert (init2 + [last2])[..|ps| - 1] == init2;
      ArgumentShapesIgnoreHeap(reg, rank, bound, ps[..|ps| - 1], n1, n2);
      ShapeIgnoresHeap(reg, rank, ps[|ps| - 1], mid1, mid2);
    }
  }

  /** Two calls of getService for the same class, one after the other, give
      graphs of the same shape that share no object: nothing is cached. */
  lemma IndependentCalls(reg: Registry, rank: map<ClassId, nat>, c: ClassId, next: nat)
    requires Ranked(reg, rank) && c in rank
    ensures var (first, mid) := Resolve(reg, rank, c, next);
      var (second, _) := Resolve(reg, rank, c, mid);
      Erase(first) == Erase(second) &&
      forall j, k :: 0 <= j < |PostOrder(first)| && 0 <= k < |PostOrder(second)| ==>
        PostOrder(first)[j] < PostOrder(second)[k]
  {
    var (first, mid) := Resolve(reg, rank, c, next);
    ShapeIgnoresHeap(reg, rank, c, next, mid);
    ConstructionIsPostOrder(reg, rank, c, next);
    ConstructionIsPostOrder(reg, rank, c, mid);
  }

  // ---------------------------------------------------------------------------
  // Termination

  /** `p` follows dependency edges: each class is a parameter type of the one before. */
  ghost predicate IsDependencyPath(reg: Registry, p: seq<ClassId>)
  {
    forall k :: 0 < k < |p| ==> p[k] in ParamTypes(reg, p[k - 1])
  }

  /** Ranks drop by at least one along every dependency edge. */
  lemma {:induction false} RankFallsAlongPath(reg: Registry, rank: map<ClassId, nat>, p: seq<ClassId>)
    requires Ranked(reg, rank) && IsDependencyPath(reg, p) && |p| > 0 && p[0] in rank
    ensures p[|p| - 1] in rank && rank[p[|p| - 1]] + |p| - 1 <= rank[p[0]]
    decreases |p|
  {
    var n := |p|;
    if n > 1 {
      var q := p[..n - 1];
      assert IsDependencyPath(reg, q) by {
        forall k | 0 < k < |q| ensures q[k] in ParamTypes(reg, q[k - 1]) {
          assert q[k] == p[k] && q[k - 1] == p[k - 1];
        }
      }
      RankFallsAlongPath(reg, rank, q);
      assert p[n - 1] in ParamTypes(reg, p[n - 2]);
      var i :| 0 <= i < |ParamTypes(reg, p[n - 2])| && ParamTypes(reg, p[n - 2])[i] == p[n - 1];
    }
  }

  /** The source has no cycle check, so a class on a dependency cycle makes
      getService recurse without end; in the model such a class can never
      satisfy Resolve's precondition. */
  lemma CycleIsUnranked(reg: Registry, rank: map<ClassId, nat>, p: seq<ClassId>)
    requires IsDependencyPath(reg, p) && |p| > 1 && p[0] == p[|p| - 1]
    requires Ranked(reg, rank)
    ensures p[0] !in rank
  {
    if p[0] in rank {
      RankFallsAlongPath(reg, rank, p);
    }
  }
}
