/** Union-find over type ids, with path compression; the smaller id becomes the root. */
module UnionFind {

  type TypeId = nat

  /** Parent links lead to smaller ids. */
  ghost predicate Descending(parent: map<TypeId, TypeId>) {
    forall i | i in parent :: parent[i] < i
  }

  /** The representative of `id`: follow the links to the end. */
  ghost function Root(parent: map<TypeId, TypeId>, id: TypeId): (r: TypeId)
    requires Descending(parent)
    ensures r <= id && r !in parent
  {
    if id in parent then Root(parent, parent[id]) else id
  }

  ghost predicate Same(parent: map<TypeId, TypeId>, a: TypeId, b: TypeId)
    requires Descending(parent)
  {
    Root(parent, a) == Root(parent, b)
  }

  /** The way from `id` to its root meets `x`, which is not the root itself. */
  ghost predicate Passes(parent: map<TypeId, TypeId>, id: TypeId, x: TypeId)
    requires Descending(parent)
  {
    id in parent && (x == id || Passes(parent, parent[id], x))
  }

  lemma RootOfRoot(parent: map<TypeId, TypeId>, id: TypeId)
    requires Descending(parent)
    ensures Root(parent, Root(parent, id)) == Root(parent, id)
  {
  }

  /** The representative is the smallest id of its class. */
  lemma RootIsLeast(parent: map<TypeId, TypeId>, a: TypeId, b: TypeId)
    requires Descending(parent) && Same(parent, a, b)
    ensures Root(parent, a) <= b && Same(parent, Root(parent, a), b)
  {
    RootOfRoot(parent, a);
  }

  /** Pointing an id at its own root changes no representative. */
  lemma {:induction false} CompressionKeeps(parent: map<TypeId, TypeId>, id: TypeId, x: TypeId)
    requires Descending(parent) && id in parent
    ensures Descending(parent[id := Root(parent, id)])
    ensures Root(parent[id := Root(parent, id)], x) == Root(parent, x)
    decreases x
  {
    var next := parent[id := Root(parent, id)];
    if x == id {
      assert Root(next, x) == Root(next, Root(parent, id)) == Root(parent, id);
    } else if x in parent {
      CompressionKeeps(parent, id, parent[x]);
    }
  }

  /** Linking one root under a smaller one moves exactly the first one's class. */
  lemma {:induction false} LinkMoves(parent: map<TypeId, TypeId>, low: TypeId, high: TypeId, x: TypeId)
    requires Descending(parent) && low < high && low !in parent && high !in parent
    ensures Descending(parent[high := low])
    ensures Root(parent[high := low], x) == if Root(parent, x) == high then low else Root(parent, x)
    decreases x
  {
    if x in parent {
      LinkMoves(parent, low, high, parent[x]);
    }
  }

  class UnionFind {
    var parent: map<TypeId, TypeId>

    ghost predicate Valid()
      reads this
    {
      Descending(parent)
    }

    constructor ()
      ensures Valid() && parent == map[]
    {
      parent := map[];
    }

    /** The representative of `id`; no class changes, and exactly the links on the way to the
        representative are shortened to lead there. */
    method Find(id: TypeId) returns (root: TypeId)
      requires Valid()
      modifies this
      ensures Valid() && root == Root(old(parent), id)
      ensures forall x :: Root(parent, x) == Root(old(parent), x)
      ensures parent.Keys == old(parent).Keys
      ensures forall x | x in parent :: parent[x] == if Passes(old(parent), id, x) then root else old(parent)[x]
      decreases id
    {
      var up := if id in parent then parent[id] else id;
      if up != id {
        root := Find(up);
        ghost var was := parent;
        StillLinked(old(parent), was, id);
        forall x ensures Root(was[id := root], x) == Root(was, x) {
          CompressionKeeps(was, id, x);
        }
        parent := parent[id := root];
      } else {
        root := id;
      }
    }

    /** Merges the classes of `a` and `b`, and no others, under the smaller root. */
    method Union(a: TypeId, b: TypeId)
      requires Valid()
      modifies this
      ensures Valid()
      ensures forall x, y :: Same(parent, x, y) <==>
                || Same(old(parent), x, y)
                || (Same(old(parent), x, a) && Same(old(parent), b, y))
                || (Same(old(parent), x, b) && Same(old(parent), a, y))
    {
      var ra := Find(a);
      var rb := Find(b);
      ghost var was := parent;
      assert forall x :: Root(was, x) == Root(old(parent), x);
      if ra != rb {
        var low, high := if ra < rb then ra else rb, if ra < rb then rb else ra;
        forall x ensures Root(was[high := low], x) == if Root(was, x) == high then low else Root(was, x) {
          LinkMoves(was, low, high, x);
        }
        if ra < rb {
          parent := parent[rb := ra];
        } else {
          parent := parent[ra := rb];
        }
      }
    }
  }

  lemma StillLinked(before: map<TypeId, TypeId>, after: map<TypeId, TypeId>, id: TypeId)
    requires Descending(before) && Descending(after) && id in before && Root(before, id) == Root(after, id)
    ensures id in after
  {
    assert Root(before, id) < id;
  }
}
