/** Sorting types for C++ definitions: contained types first, although the methods of
    resources can make the references cyclic. */
module TypeSort {
  import opened UnionFind
  import opened TypeGraph
  import opened TypeUsage

  /** A resolved set of types with the parameter and result types of every resource's methods. */
  datatype World = World(r: Resolve, methodTypes: seq<seq<Type>>) {
    predicate Valid() {
      && r.Valid() && |methodTypes| == |r.kinds|
      && forall id, t | 0 <= id < |methodTypes| && t in methodTypes[id] :: r.Known(t)
    }

    predicate IsResource(id: TypeId) {
      r.Has(id) && r.kinds[id].Resource?
    }

    /** Nothing but a resource has methods. */
    function MethodTypes(id: TypeId): seq<Type> {
      if IsResource(id) && id < |methodTypes| then methodTypes[id] else []
    }
  }

  function Resources(w: World): set<TypeId> {
    set id: TypeId | id in Below(|w.r.kinds|) && w.IsResource(id)
  }

  function Below(n: nat): (s: set<nat>)
    ensures forall i: nat :: i in s <==> i < n
  {
    if n == 0 then {} else Below(n - 1) + {n - 1}
  }

  /** `c` is among the first `n` of `sorted`. */
  ghost predicate Within(sorted: seq<TypeId>, n: int, c: TypeId) {
    exists j :: 0 <= j < n && j < |sorted| && sorted[j] == c
  }

  /** The definition of `a` mentions `b`, or a method of `a` takes or returns it. */
  predicate Needs(w: World, a: TypeId, b: TypeId) {
    w.r.Has(a) && (Id(b) in Refs(w.r.kinds[a]) || Id(b) in w.MethodTypes(a))
  }

  /** Each id of the path needs the next. */
  ghost predicate Path(w: World, p: seq<TypeId>) {
    forall i | 0 <= i < |p| - 1 :: Needs(w, p[i], p[i + 1])
  }

  /** From `a` to `b` through what is needed. */
  ghost predicate Leads(w: World, a: TypeId, b: TypeId) {
    exists p: seq<TypeId> :: |p| >= 2 && p[0] == a && p[|p| - 1] == b && Path(w, p)
  }

  lemma LeadsOne(w: World, a: TypeId, b: TypeId)
    requires Needs(w, a, b)
    ensures Leads(w, a, b)
  {
    assert Path(w, [a, b]) && [a, b][0] == a && [a, b][1] == b;
  }

  lemma LeadsOn(w: World, a: TypeId, b: TypeId, c: TypeId)
    requires Leads(w, a, b) && Needs(w, b, c)
    ensures Leads(w, a, c)
  {
    var p: seq<TypeId> :| |p| >= 2 && p[0] == a && p[|p| - 1] == b && Path(w, p);
    var q := p + [c];
    assert Path(w, q) && q[0] == a && q[|q| - 1] == c;
  }

  /** Every type comes after the non-resource types that its definition mentions, every
      resource after those that its methods take and return; and every type after each resource
      that it needs, unless that leads back to it. */
  ghost predicate Ordered(w: World, sorted: seq<TypeId>) {
    && (forall i, j | 0 <= i < j < |sorted| :: sorted[i] != sorted[j])
    && (forall i | 0 <= i < |sorted| :: w.r.Has(sorted[i]))
    && (forall i, c | 0 <= i < |sorted| && Id(c) in Refs(w.r.kinds[sorted[i]]) && !w.IsResource(c) :: Within(sorted, i, c))
    && (forall i, c | 0 <= i < |sorted| && Id(c) in w.MethodTypes(sorted[i]) && !w.IsResource(c) :: Within(sorted, i, c))
    && (forall i, c | 0 <= i < |sorted| && Needs(w, sorted[i], c) && w.IsResource(c) :: Within(sorted, i, c) || Leads(w, c, sorted[i]))
  }

  class Visitor {
    var sorted: seq<TypeId>
    var visited: set<TypeId>

    /** Resources whose visit has begun and not yet ended. */
    ghost var open: set<TypeId>

    ghost predicate Valid(w: World)
      reads this
    {
      && w.Valid() && Ordered(w, sorted)
      && visited <= Resources(w) && forall id | id in visited :: id in sorted || id in open
    }

    constructor ()
      ensures sorted == [] && visited == {} && open == {}
    {
      sorted, visited, open := [], {}, {};
    }

    /** A resource is entered once; any other type is visited again whenever it is met. */
    method VisitTypeId(w: World, id: TypeId)
      requires Valid(w) && w.r.Has(id) && forall o | o in open :: Leads(w, o, id)
      modifies this
      ensures Valid(w) && open == old(open) && old(sorted) <= sorted && old(visited) <= visited
      ensures id in sorted || (w.IsResource(id) && id in open)
      decreases Resources(w) - visited, w.r.rank[id] + 1, 2
    {
      hide Ordered;
      if w.r.kinds[id].Resource? {
        if id in visited { return; }
        assert id in Resources(w);
        ghost var was := visited;
        visited := visited + {id};
        open := open + {id};
        assert Resources(w) - visited < Resources(w) - was;
        VisitMethods(w, id);
        NoRefs(w, id);
        forall c | Needs(w, id, c) && w.IsResource(c) && c == id ensures Leads(w, c, id) { LeadsOne(w, id, c); }
        After(w, id);
        open := old(open);
      } else {
        RefsUnder(w.r, id);
        VisitAll(w, id, Refs(w.r.kinds[id]), w.r.rank[id]);
        After(w, id);
      }
    }

    /** The parameter and result types of a resource's methods. */
    method VisitMethods(w: World, id: TypeId)
      requires Valid(w) && w.IsResource(id) && forall o | o in open :: o == id || Leads(w, o, id)
      modifies this
      ensures Valid(w) && open == old(open) && old(sorted) <= sorted && old(visited) <= visited
      ensures forall c | Id(c) in w.methodTypes[id] :: c in sorted || (w.IsResource(c) && c in open)
      decreases Resources(w) - visited, MaxHeight(w, w.methodTypes[id]) + 1, 2
    {
      HeightsBelow(w, w.methodTypes[id]);
      VisitAll(w, id, w.methodTypes[id], MaxHeight(w, w.methodTypes[id]));
    }

    method VisitAll(w: World, ghost from: TypeId, tys: seq<Type>, ghost h: nat)
      requires Valid(w) && forall t | t in tys :: w.r.Known(t) && w.r.Height(t) <= h
      requires (forall c | Id(c) in tys :: Needs(w, from, c)) && forall o | o in open :: o == from || Leads(w, o, from)
      modifies this
      ensures Valid(w) && open == old(open) && old(sorted) <= sorted && old(visited) <= visited
      ensures forall c | Id(c) in tys :: c in sorted || (w.IsResource(c) && c in open)
      decreases Resources(w) - visited, h + 1, 1
    {
      hide Ordered, Leads, Needs;
      var i := 0;
      while i < |tys|
        invariant 0 <= i <= |tys| && Valid(w) && open == old(open) && old(sorted) <= sorted && old(visited) <= visited
        invariant forall j, c | 0 <= j < i && tys[j] == Id(c) :: c in sorted || (w.IsResource(c) && c in open)
      {
        if tys[i].Id? {
          assert tys[i] in tys && Id(tys[i].id) in tys;
          Smaller(w, old(visited), visited);
          OpenLead(w, open, from, tys[i].id);
          VisitTypeId(w, tys[i].id);
        }
        i := i + 1;
      }
    }

    /** `after_visit_type_id`: an id that is already there keeps its place. */
    method After(w: World, id: TypeId)
      requires w.Valid() && Ordered(w, sorted) && w.r.Has(id)
      requires forall c | Needs(w, id, c) :: c in sorted || (w.IsResource(c) && Leads(w, c, id))
      modifies this`sorted
      ensures Ordered(w, sorted) && old(sorted) <= sorted && id in sorted
      ensures forall x :: x in sorted <==> x in old(sorted) || x == id
    {
      if id !in sorted {
        Appended(w, sorted, id);
        sorted := sorted + [id];
      }
    }
  }

  function MaxHeight(w: World, tys: seq<Type>): nat
    requires w.Valid() && forall t | t in tys :: w.r.Known(t)
  {
    if tys == [] then 0
    else
      var rest := MaxHeight(w, tys[1..]);
      if w.r.Height(tys[0]) > rest then w.r.Height(tys[0]) else rest
  }

  lemma HeightsBelow(w: World, tys: seq<Type>)
    requires w.Valid() && forall t | t in tys :: w.r.Known(t)
    ensures forall t | t in tys :: w.r.Height(t) <= MaxHeight(w, tys)
  {
  }

  lemma Smaller(w: World, a: set<TypeId>, b: set<TypeId>)
    requires a <= b
    ensures Resources(w) - b <= Resources(w) - a
  {
  }

  /** Whatever leads to `from` leads to what `from` needs. */
  lemma OpenLead(w: World, open: set<TypeId>, from: TypeId, c: TypeId)
    requires Needs(w, from, c) && forall o | o in open :: o == from || Leads(w, o, from)
    ensures forall o | o in open :: Leads(w, o, c)
  {
    hide Leads, Needs;
    LeadsOne(w, from, c);
    forall o | o in open && o != from ensures Leads(w, o, c) { LeadsOn(w, o, from, c); }
  }

  lemma NoRefs(w: World, id: TypeId)
    requires w.IsResource(id)
    ensures Refs(w.r.kinds[id]) == []
  {
  }

  lemma Appended(w: World, sorted: seq<TypeId>, id: TypeId)
    requires w.Valid() && Ordered(w, sorted) && w.r.Has(id) && id !in sorted
    requires forall c | Needs(w, id, c) :: c in sorted || (w.IsResource(c) && Leads(w, c, id))
    ensures Ordered(w, sorted + [id])
  {
    hide Refs, Resolve.Valid, World.MethodTypes, Leads;
    var next := sorted + [id];
    forall i, c | 0 <= i < |next| && Needs(w, next[i], c) && w.IsResource(c) && !Leads(w, c, next[i]) ensures Within(next, i, c) {
      if i < |sorted| {
        assert sorted[i] == next[i] && Within(sorted, i, c);
        var j :| 0 <= j < i && j < |sorted| && sorted[j] == c;
        assert next[j] == c;
      } else {
        var j :| 0 <= j < |sorted| && sorted[j] == c;
        assert next[j] == c;
      }
    }
    forall i, c | 0 <= i < |next| && Id(c) in w.MethodTypes(next[i]) && !w.IsResource(c) ensures Within(next, i, c) {
      if i < |sorted| {
        var j :| 0 <= j < i && j < |sorted| && sorted[j] == c;
        assert next[j] == c;
      } else {
        var j :| 0 <= j < |sorted| && sorted[j] == c;
        assert next[j] == c;
      }
    }
    forall i, c | 0 <= i < |next| && Id(c) in Refs(w.r.kinds[next[i]]) && !w.IsResource(c) ensures Within(next, i, c) {
      if i < |sorted| {
        var j :| 0 <= j < i && j < |sorted| && sorted[j] == c;
        assert next[j] == c;
      } else {
        var j :| 0 <= j < |sorted| && sorted[j] == c;
        assert next[j] == c;
      }
    }
  }

  // ----- what contains what -----

  /** In an ordered sequence, everything that a type contains, however deep, comes before it. */
  lemma {:induction false} ContainedFirst(w: World, sorted: seq<TypeId>, i: nat, c: TypeId)
    requires w.Valid() && Ordered(w, sorted) && i < |sorted|
    requires c in Reach(w.r, Id(sorted[i])) && c != sorted[i] && !w.IsResource(c)
    ensures Within(sorted, i, c)
    decreases w.r.rank[sorted[i]]
  {
    hide Resolve.Valid, Ordered;
    var b := sorted[i];
    OrderedAt(w, sorted, i);
    RefsUnder(w.r, b);
    var t := ReachThrough(w.r, b, c);
    if t.id == c {
      InOrder(w, sorted, i, c);
    } else {
      ReachedHasRefs(w.r, t.id, c);
      InOrder(w, sorted, i, t.id);
      var j :| 0 <= j < i && j < |sorted| && sorted[j] == t.id;
      ContainedFirst(w, sorted, j, c);
      var k :| 0 <= k < j && k < |sorted| && sorted[k] == c;
      assert sorted[k] == c;
    }
  }

  /** So does everything that a method of a resource takes or returns, however deep. */
  lemma MethodsFirst(w: World, sorted: seq<TypeId>, i: nat, c: TypeId)
    requires w.Valid() && Ordered(w, sorted) && i < |sorted| && c in MethodReach(w, sorted[i]) && !w.IsResource(c)
    ensures Within(sorted, i, c)
  {
    hide Resolve.Valid, Ordered, World.MethodTypes;
    MethodsKnown(w, sorted[i]);
    var t :| t in w.MethodTypes(sorted[i]) && c in Reach(w.r, t);
    if t.id == c {
      MethodInOrder(w, sorted, i, c);
    } else {
      ReachedHasRefs(w.r, t.id, c);
      MethodInOrder(w, sorted, i, t.id);
      var j :| 0 <= j < i && j < |sorted| && sorted[j] == t.id;
      ContainedFirst(w, sorted, j, c);
      var k :| 0 <= k < j && k < |sorted| && sorted[k] == c;
      assert sorted[k] == c;
    }
  }

  lemma ResourceInOrder(w: World, sorted: seq<TypeId>, i: nat, c: TypeId)
    requires Ordered(w, sorted) && i < |sorted| && Needs(w, sorted[i], c) && w.IsResource(c)
    ensures Within(sorted, i, c) || Leads(w, c, sorted[i])
  {
    hide Needs, Leads;
  }

  lemma MethodsKnown(w: World, id: TypeId)
    requires w.Valid()
    ensures forall t | t in w.MethodTypes(id) :: w.r.Known(t)
  {
  }

  lemma MethodInOrder(w: World, sorted: seq<TypeId>, i: nat, c: TypeId)
    requires Ordered(w, sorted) && i < |sorted| && Id(c) in w.MethodTypes(sorted[i]) && !w.IsResource(c)
    ensures Within(sorted, i, c)
  {
  }

  lemma OrderedAt(w: World, sorted: seq<TypeId>, i: nat)
    requires Ordered(w, sorted) && i < |sorted|
    ensures w.r.Has(sorted[i])
  {
  }

  lemma InOrder(w: World, sorted: seq<TypeId>, i: nat, c: TypeId)
    requires Ordered(w, sorted) && i < |sorted| && w.r.Has(sorted[i]) && Id(c) in Refs(w.r.kinds[sorted[i]]) && !w.IsResource(c)
    ensures Within(sorted, i, c)
  {
  }

  /** What is reached from a definition is reached through one of its references. */
  lemma ReachThrough(r: Resolve, b: TypeId, c: TypeId) returns (t: Type)
    requires r.Valid() && r.Has(b) && c in Reach(r, Id(b)) && c != b
    ensures t in Refs(r.kinds[b]) && t.Id? && r.Has(t.id) && r.rank[t.id] < r.rank[b] && c in Reach(r, t)
  {
    hide Refs;
    RefsUnder(r, b);
    t := ReachOne(r, Refs(r.kinds[b]), r.rank[b], c);
  }

  lemma {:induction false} ReachOne(r: Resolve, ts: seq<Type>, h: nat, c: TypeId) returns (t: Type)
    requires Under(r, ts, h) && c in ReachAll(r, ts, h)
    ensures t in ts && t.Id? && r.Has(t.id) && r.rank[t.id] < h && c in Reach(r, t)
    decreases |ts|
  {
    if c in Reach(r, ts[0]) {
      t := ts[0];
    } else {
      t := ReachOne(r, ts[1..], h, c);
    }
  }

  /** A resource refers to nothing, so nothing but itself is reached from it. */
  lemma ReachedHasRefs(r: Resolve, b: TypeId, c: TypeId)
    requires r.Valid() && r.Has(b) && c in Reach(r, Id(b)) && c != b
    ensures !r.kinds[b].Resource?
  {
    RefsUnder(r, b);
  }

  // ----- the whole sort -----

  /** No id twice; every type after the non-resource types of `inputs` that it contains, and
      every resource after those that its methods' types are or contain; every type after
      the resources of `inputs` that it needs itself, unless these need it in turn. */
  ghost predicate ContainedEarlier(w: World, result: seq<TypeId>, inputs: seq<TypeId>)
    requires w.Valid()
  {
    && (forall id | id in result :: w.r.Has(id))
    && (forall i, j | 0 <= i < j < |result| :: result[i] != result[j])
    && (forall i, c | 0 <= i < |result| && c in Reach(w.r, Id(result[i])) && c != result[i] && !w.IsResource(c) && c in inputs ::
          Within(result, i, c))
    && (forall i, c | 0 <= i < |result| && c in MethodReach(w, result[i]) && !w.IsResource(c) && c in inputs :: Within(result, i, c))
    && forall i, c | 0 <= i < |result| && Needs(w, result[i], c) && w.IsResource(c) && c in inputs :: Within(result, i, c) || Leads(w, c, result[i])
  }

  /** All that the types of a resource's methods are and contain. */
  ghost function MethodReach(w: World, id: TypeId): set<TypeId>
    requires w.Valid()
  {
    set t, c | t in w.MethodTypes(id) && c in Reach(w.r, t) :: c
  }

  /** The input types in the order of the definitions: each exactly once, every input type
      after the non-resource input types that it contains, and every resource after those
      that its methods take and return, and after all that these contain. */
  method SortTypes(w: World, inputs: seq<TypeId>) returns (result: seq<TypeId>)
    requires w.Valid() && forall id | id in inputs :: w.r.Has(id)
    ensures forall id :: id in result <==> id in inputs
    ensures ContainedEarlier(w, result, inputs)
  {
    hide Ordered, ContainedEarlier;
    var visitor := new Visitor();
    assert Ordered(w, []) by { NothingSorted(w); }
    var i := 0;
    while i < |inputs|
      invariant 0 <= i <= |inputs| && visitor.Valid(w) && visitor.open == {}
      invariant forall j | 0 <= j < i :: inputs[j] in visitor.sorted
    {
      visitor.VisitTypeId(w, inputs[i]);
      i := i + 1;
    }
    var sorted := visitor.sorted;
    result := Kept(sorted, inputs);
    assert forall id | id in inputs :: id in sorted;
    KeptOrder(w, sorted, inputs);
  }

  lemma NothingSorted(w: World)
    ensures Ordered(w, [])
  {
  }

  /** The sorted ids that are inputs. */
  function Kept(sorted: seq<TypeId>, inputs: seq<TypeId>): (r: seq<TypeId>)
    ensures forall id :: id in r <==> id in sorted && id in inputs
  {
    if sorted == [] then []
    else
      var rest := Kept(sorted[..|sorted| - 1], inputs);
      if sorted[|sorted| - 1] in inputs then rest + [sorted[|sorted| - 1]] else rest
  }

  lemma {:induction false} KeptOrder(w: World, sorted: seq<TypeId>, inputs: seq<TypeId>)
    requires w.Valid() && Ordered(w, sorted)
    ensures ContainedEarlier(w, Kept(sorted, inputs), inputs)
  {
    hide Ordered, Reach, Resolve.Valid, ContainedEarlier, MethodReach, Needs, Leads;
    if sorted == [] {
      NoneEarlier(w, inputs);
    } else {
      var last := |sorted| - 1;
      PrefixOrdered(w, sorted);
      KeptOrder(w, sorted[..last], inputs);
      LastIsNew(w, sorted);
      if sorted[last] in inputs {
        forall c | c in Reach(w.r, Id(sorted[last])) && c != sorted[last] && !w.IsResource(c) && c in inputs
          ensures c in Kept(sorted[..last], inputs)
        {
          ContainedFirst(w, sorted, last, c);
          var j :| 0 <= j < last && j < |sorted| && sorted[j] == c;
          assert sorted[..last][j] == c;
        }
        forall c | c in MethodReach(w, sorted[last]) && !w.IsResource(c) && c in inputs ensures c in Kept(sorted[..last], inputs) {
          MethodsFirst(w, sorted, last, c);
          var j :| 0 <= j < last && j < |sorted| && sorted[j] == c;
          assert sorted[..last][j] == c;
        }
        forall c | Needs(w, sorted[last], c) && w.IsResource(c) && c in inputs && !Leads(w, c, sorted[last])
          ensures c in Kept(sorted[..last], inputs)
        {
          ResourceInOrder(w, sorted, last, c);
          var j :| 0 <= j < last && j < |sorted| && sorted[j] == c;
          assert sorted[..last][j] == c;
        }
        OneMore(w, Kept(sorted[..last], inputs), inputs, sorted[last]);
      }
    }
  }

  lemma NoneEarlier(w: World, inputs: seq<TypeId>)
    requires w.Valid()
    ensures ContainedEarlier(w, [], inputs)
  {
  }

  lemma OneMore(w: World, rest: seq<TypeId>, inputs: seq<TypeId>, x: TypeId)
    requires w.Valid() && ContainedEarlier(w, rest, inputs) && x !in rest && w.r.Has(x)
    requires forall c | c in Reach(w.r, Id(x)) && c != x && !w.IsResource(c) && c in inputs :: c in rest
    requires forall c | c in MethodReach(w, x) && !w.IsResource(c) && c in inputs :: c in rest
    requires forall c | Needs(w, x, c) && w.IsResource(c) && c in inputs :: c in rest || Leads(w, c, x)
    ensures ContainedEarlier(w, rest + [x], inputs)
  {
    hide Reach, Resolve.Valid, MethodReach, Needs, Leads;
    var r := rest + [x];
    forall i, c | 0 <= i < |r| && Needs(w, r[i], c) && w.IsResource(c) && c in inputs && !Leads(w, c, r[i]) ensures Within(r, i, c) {
      if i < |rest| {
        assert rest[i] == r[i] && Within(rest, i, c);
        var j :| 0 <= j < i && j < |rest| && rest[j] == c;
        assert r[j] == c;
      } else {
        var k :| 0 <= k < |rest| && rest[k] == c;
        assert r[k] == c;
      }
    }
    forall i, c | 0 <= i < |r| && c in MethodReach(w, r[i]) && !w.IsResource(c) && c in inputs ensures Within(r, i, c) {
      if i < |rest| {
        assert rest[i] == r[i] && Within(rest, i, c);
        var j :| 0 <= j < i && j < |rest| && rest[j] == c;
        assert r[j] == c;
      } else {
        var k :| 0 <= k < |rest| && rest[k] == c;
        assert r[k] == c;
      }
    }
    forall i, c | 0 <= i < |r| && c in Reach(w.r, Id(r[i])) && c != r[i] && !w.IsResource(c) && c in inputs ensures Within(r, i, c) {
      if i < |rest| {
        assert rest[i] == r[i] && Within(rest, i, c);
        var j :| 0 <= j < i && j < |rest| && rest[j] == c;
        assert r[j] == c;
      } else {
        var k :| 0 <= k < |rest| && rest[k] == c;
        assert r[k] == c;
      }
    }
  }

  lemma PrefixOrdered(w: World, sorted: seq<TypeId>)
    requires Ordered(w, sorted) && sorted != []
    ensures Ordered(w, sorted[..|sorted| - 1])
  {
    hide Refs, World.MethodTypes, Leads, Needs;
    var pre := sorted[..|sorted| - 1];
    forall i, c | 0 <= i < |pre| && Needs(w, pre[i], c) && w.IsResource(c) && !Leads(w, c, pre[i]) ensures Within(pre, i, c) {
      assert sorted[i] == pre[i];
      var j :| 0 <= j < i && j < |sorted| && sorted[j] == c;
      assert pre[j] == c;
    }
    forall i, c | 0 <= i < |pre| && Id(c) in w.MethodTypes(pre[i]) && !w.IsResource(c) ensures Within(pre, i, c) {
      assert sorted[i] == pre[i];
      var j :| 0 <= j < i && j < |sorted| && sorted[j] == c;
      assert pre[j] == c;
    }
    forall i, c | 0 <= i < |pre| && Id(c) in Refs(w.r.kinds[pre[i]]) && !w.IsResource(c) ensures Within(pre, i, c) {
      assert sorted[i] == pre[i];
      var j :| 0 <= j < i && j < |sorted| && sorted[j] == c;
      assert pre[j] == c;
    }
  }

  lemma LastIsNew(w: World, sorted: seq<TypeId>)
    requires Ordered(w, sorted) && sorted != []
    ensures sorted[|sorted| - 1] !in sorted[..|sorted| - 1] && w.r.Has(sorted[|sorted| - 1])
  {
  }
}
