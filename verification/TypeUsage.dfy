/** How definitions are used: the plain recursive meaning of what the analysis caches. */
module TypeUsage {
  import opened Wrappers
  import opened UnionFind
  import opened TypeGraph

  datatype Use = Borrowed | Owned | Error | HasList | HasTuple | HasResource | HasBorrowHandle | HasOwnHandle

  /** A record of flags, as the set of those that are true. */
  type TypeInfo = set<Use>

  // ----- what a type contains -----

  /** The parts of a definition that are stored in its values; a handle, future or stream
      is a number whatever it refers to. */
  function Parts(k: Kind): seq<Type> {
    if k.Handle? || k.Future? || k.Stream? then [] else Refs(k)
  }

  /** What a definition adds to what its parts have. */
  function OwnInfo(k: Kind): TypeInfo {
    match k
    case Resource => {HasResource}
    case Handle(hk, _) => {HasResource, if hk == BorrowHandle then HasBorrowHandle else HasOwnHandle}
    case Future(_) | Stream(_) => {HasResource, HasOwnHandle}
    case Tuple(_) => {HasTuple}
    case List(_) | Map(_, _) => {HasList}
    case _ => {}
  }

  function PrimInfo(p: Primitive): TypeInfo {
    if p == String then {HasList} else if p == ErrorContext then {HasResource} else {}
  }

  lemma PartsUnder(r: Resolve, id: TypeId)
    requires r.Valid() && r.Has(id)
    ensures Under(r, Parts(r.kinds[id]), r.rank[id])
  {
    RefsUnder(r, id);
  }

  /** What a definition has, transitively. */
  function Info(r: Resolve, id: TypeId): TypeInfo
    requires r.Valid() && r.Has(id)
    decreases r.rank[id] + 1, 0
  {
    PartsUnder(r, id);
    OwnInfo(r.kinds[id]) + InfoAll(r, Parts(r.kinds[id]), r.rank[id])
  }

  function InfoType(r: Resolve, t: Type): TypeInfo
    requires r.Valid() && r.Known(t)
    decreases r.Height(t), 1
  {
    if t.Prim? then PrimInfo(t.p) else Info(r, t.id)
  }

  function InfoAll(r: Resolve, ts: seq<Type>, h: nat): TypeInfo
    requires Under(r, ts, h)
    decreases h, 2, |ts|
  {
    if ts == [] then {} else InfoType(r, ts[0]) + InfoAll(r, ts[1..], h)
  }

  /** `t` and everything stored in its values. */
  function Within(r: Resolve, t: Type): set<Type>
    requires r.Valid() && r.Known(t)
    decreases r.Height(t), 1
  {
    if t.Prim? then {t}
    else
      PartsUnder(r, t.id);
      {t} + WithinAll(r, Parts(r.kinds[t.id]), r.rank[t.id])
  }

  function WithinAll(r: Resolve, ts: seq<Type>, h: nat): set<Type>
    requires Under(r, ts, h)
    decreases h, 2, |ts|
  {
    if ts == [] then {} else Within(r, ts[0]) + WithinAll(r, ts[1..], h)
  }

  /** What `t` has by itself. */
  function Alone(r: Resolve, t: Type): TypeInfo {
    if t.Prim? then PrimInfo(t.p) else if r.Has(t.id) then OwnInfo(r.kinds[t.id]) else {}
  }

  /** A flag is set exactly when something within the type has it by itself. */
  lemma {:induction false} InfoIsTransitive(r: Resolve, t: Type, u: Use)
    requires r.Valid() && r.Known(t)
    ensures u in InfoType(r, t) <==> exists s :: s in Within(r, t) && u in Alone(r, s)
    decreases r.Height(t), 1
  {
    if t.Id? {
      PartsUnder(r, t.id);
      InfoAllTransitive(r, Parts(r.kinds[t.id]), r.rank[t.id], u);
      if u in OwnInfo(r.kinds[t.id]) {
        assert t in Within(r, t) && u in Alone(r, t);
      }
    } else {
      assert t in Within(r, t);
    }
  }

  lemma {:induction false} InfoAllTransitive(r: Resolve, ts: seq<Type>, h: nat, u: Use)
    requires Under(r, ts, h)
    ensures u in InfoAll(r, ts, h) <==> exists s :: s in WithinAll(r, ts, h) && u in Alone(r, s)
    decreases h, 2, |ts|
  {
    hide InfoType, Within, Alone;
    if ts != [] {
      InfoIsTransitive(r, ts[0], u);
      InfoAllTransitive(r, ts[1..], h, u);
    }
  }

  // ----- the same by kind -----

  /** Values of the definition hold a value of `t`.  Handles, futures and streams are
      numbers, and resources, flags and enums hold nothing. */
  ghost predicate Stores(k: Kind, t: Type) {
    match k
    case Record(fs) => exists i :: 0 <= i < |fs| && fs[i].ty == t
    case Tuple(ts) => t in ts
    case Variant(cs) => exists i :: 0 <= i < |cs| && cs[i].ty == Some(t)
    case Optional(u) => t == u
    case Result(ok, err) => ok == Some(t) || err == Some(t)
    case List(u) => t == u
    case Map(key, value) => t == key || t == value
    case FixedLengthList(u, _) => t == u
    case Alias(u) => t == u
    case _ => false
  }

  /** What has a flag by itself. */
  predicate Gives(r: Resolve, t: Type, u: Use) {
    if t.Prim? then (u == HasList && t.p == String) || (u == HasResource && t.p == ErrorContext)
    else
      r.Has(t.id) &&
      var k := r.kinds[t.id];
      match u
      case HasList => k.List? || k.Map?
      case HasTuple => k.Tuple?
      case HasResource => k.Resource? || k.Handle? || k.Future? || k.Stream?
      case HasBorrowHandle => k.Handle? && k.hk == BorrowHandle
      case HasOwnHandle => (k.Handle? && k.hk == OwnHandle) || k.Future? || k.Stream?
      case _ => false
  }

  /** From `t` to `s`, each type stores the next. */
  ghost predicate Chain(r: Resolve, p: seq<Type>, t: Type, s: Type) {
    && p != [] && p[0] == t && p[|p| - 1] == s
    && forall i | 0 <= i < |p| - 1 :: p[i].Id? && r.Has(p[i].id) && Stores(r.kinds[p[i].id], p[i + 1])
  }

  /** A flag is set exactly when something stored in the type's values, however deep, has it. */
  lemma InfoByKind(r: Resolve, t: Type, u: Use)
    requires r.Valid() && r.Known(t)
    ensures u in InfoType(r, t) <==> exists p, s :: Chain(r, p, t, s) && Gives(r, s, u)
  {
    hide InfoType, Gives, Chain, Alone, Resolve.Valid;
    InfoIsTransitive(r, t, u);
    if s :| s in Within(r, t) && u in Alone(r, s) {
      AloneGives(r, s, u);
      var p := WithinChain(r, t, s);
    }
    if p, s :| Chain(r, p, t, s) && Gives(r, s, u) {
      AloneGives(r, s, u);
      ChainWithin(r, p, t, s);
    }
  }

  lemma AloneGives(r: Resolve, t: Type, u: Use)
    ensures u in Alone(r, t) <==> Gives(r, t, u)
  {
  }

  lemma {:induction false} CaseTypesAre(cs: seq<Case>, t: Type)
    ensures t in CaseTypes(cs) <==> exists i :: 0 <= i < |cs| && cs[i].ty == Some(t)
  {
    if cs != [] {
      CaseTypesAre(cs[1..], t);
      if t in CaseTypes(cs[1..]) {
        var i :| 0 <= i < |cs[1..]| && cs[1..][i].ty == Some(t);
        assert cs[i + 1].ty == Some(t);
      }
      if i :| 0 <= i < |cs| && cs[i].ty == Some(t) {
        if i > 0 { assert cs[1..][i - 1].ty == Some(t); }
      }
    }
  }

  lemma PartsAreStored(k: Kind, t: Type)
    ensures t in Parts(k) <==> Stores(k, t)
  {
    match k
    case Record(fs) =>
      if i :| 0 <= i < |fs| && fs[i].ty == t { assert FieldTypes(fs)[i] == t; }
    case Variant(cs) => CaseTypesAre(cs, t);
    case _ =>
  }

  lemma {:induction false} WithinChain(r: Resolve, t: Type, s: Type) returns (p: seq<Type>)
    requires r.Valid() && r.Known(t) && s in Within(r, t)
    ensures Chain(r, p, t, s)
    decreases r.Height(t), 1
  {
    hide Stores, Parts;
    if s == t {
      p := [t];
    } else {
      PartsUnder(r, t.id);
      var part, q := WithinAllChain(r, Parts(r.kinds[t.id]), r.rank[t.id], s);
      PartsAreStored(r.kinds[t.id], part);
      p := [t] + q;
      assert forall i | 0 < i < |p| - 1 :: p[i] == q[i - 1] && p[i + 1] == q[i];
    }
  }

  lemma {:induction false} WithinAllChain(r: Resolve, ts: seq<Type>, h: nat, s: Type) returns (part: Type, p: seq<Type>)
    requires Under(r, ts, h) && s in WithinAll(r, ts, h)
    ensures part in ts && Chain(r, p, part, s)
    decreases h, 2, |ts|
  {
    hide Within, Chain;
    if s in Within(r, ts[0]) {
      part := ts[0];
      p := WithinChain(r, part, s);
    } else {
      part, p := WithinAllChain(r, ts[1..], h, s);
    }
  }

  lemma {:induction false} ChainWithin(r: Resolve, p: seq<Type>, t: Type, s: Type)
    requires r.Valid() && r.Known(t) && Chain(r, p, t, s)
    ensures s in Within(r, t)
    decreases |p|
  {
    hide Stores, Parts;
    if |p| > 1 {
      PartsAreStored(r.kinds[t.id], p[1]);
      PartsUnder(r, t.id);
      ChainWithin(r, p[1..], p[1], s);
      PartWithin(r, Parts(r.kinds[t.id]), r.rank[t.id], p[1], s);
    } else {
      assert t in Within(r, t);
    }
  }

  lemma {:induction false} PartWithin(r: Resolve, ts: seq<Type>, h: nat, part: Type, s: Type)
    requires Under(r, ts, h) && part in ts && s in Within(r, part)
    ensures s in WithinAll(r, ts, h)
    decreases |ts|
  {
    hide Within;
    if part != ts[0] {
      PartWithin(r, ts[1..], h, part, s);
    }
  }

  // ----- where a definition is used -----

  /** `t` and everything it refers to. */
  function Reach(r: Resolve, t: Type): set<TypeId>
    requires r.Valid() && r.Known(t)
    decreases r.Height(t), 1
  {
    if t.Prim? then {}
    else
      RefsUnder(r, t.id);
      {t.id} + ReachAll(r, Refs(r.kinds[t.id]), r.rank[t.id])
  }

  function ReachAll(r: Resolve, ts: seq<Type>, h: nat): set<TypeId>
    requires Under(r, ts, h)
    decreases h, 2, |ts|
  {
    if ts == [] then {} else Reach(r, ts[0]) + ReachAll(r, ts[1..], h)
  }

  lemma {:induction false} ReachExists(r: Resolve, t: Type, id: TypeId)
    requires r.Valid() && r.Known(t) && id in Reach(r, t)
    ensures r.Has(id)
    decreases r.Height(t), 1
  {
    if t.Id? && id != t.id {
      RefsUnder(r, t.id);
      ReachAllExists(r, Refs(r.kinds[t.id]), r.rank[t.id], id);
    }
  }

  lemma {:induction false} ReachAllExists(r: Resolve, ts: seq<Type>, h: nat, id: TypeId)
    requires Under(r, ts, h) && id in ReachAll(r, ts, h)
    ensures r.Has(id)
    decreases h, 2, |ts|
  {
    if id in Reach(r, ts[0]) {
      ReachExists(r, ts[0], id);
    } else {
      ReachAllExists(r, ts[1..], h, id);
    }
  }

  /** The definition mentions `t`: stores it, is a handle to it, or carries it. */
  ghost predicate Mentions(k: Kind, t: Type) {
    || Stores(k, t)
    || (k.Handle? && t == Id(k.resource))
    || ((k.Future? || k.Stream?) && k.payload == Some(t))
  }

  /** From `t` to `s`, each type mentions the next. */
  ghost predicate Trail(r: Resolve, p: seq<Type>, t: Type, s: Type) {
    && p != [] && p[0] == t && p[|p| - 1] == s
    && forall i | 0 <= i < |p| - 1 :: p[i].Id? && r.Has(p[i].id) && Mentions(r.kinds[p[i].id], p[i + 1])
  }

  /** What is reached is what a trail of mentions leads to. */
  lemma ReachByTrail(r: Resolve, t: Type, id: TypeId)
    requires r.Valid() && r.Known(t)
    ensures id in Reach(r, t) <==> exists p :: Trail(r, p, t, Id(id))
  {
    hide Reach, Trail, Resolve.Valid;
    if id in Reach(r, t) {
      var p := ReachTrail(r, t, id);
    }
    if p :| Trail(r, p, t, Id(id)) {
      TrailReach(r, p, t, id);
    }
  }

  lemma RefsAreMentioned(k: Kind, t: Type)
    ensures t in Refs(k) <==> Mentions(k, t)
  {
    hide Stores;
    if !k.Handle? && !k.Future? && !k.Stream? {
      PartsAreStored(k, t);
    } else {
      StoresNothing(k, t);
    }
  }

  lemma StoresNothing(k: Kind, t: Type)
    requires k.Handle? || k.Future? || k.Stream?
    ensures !Stores(k, t)
  {
  }

  lemma {:induction false} ReachTrail(r: Resolve, t: Type, id: TypeId) returns (p: seq<Type>)
    requires r.Valid() && r.Known(t) && id in Reach(r, t)
    ensures Trail(r, p, t, Id(id))
    decreases r.Height(t), 1
  {
    hide Mentions, Refs;
    if id == t.id {
      p := [t];
    } else {
      RefsUnder(r, t.id);
      var ref, q := ReachAllTrail(r, Refs(r.kinds[t.id]), r.rank[t.id], id);
      RefsAreMentioned(r.kinds[t.id], ref);
      p := [t] + q;
      assert forall i | 0 < i < |p| - 1 :: p[i] == q[i - 1] && p[i + 1] == q[i];
    }
  }

  lemma {:induction false} ReachAllTrail(r: Resolve, ts: seq<Type>, h: nat, id: TypeId) returns (ref: Type, p: seq<Type>)
    requires Under(r, ts, h) && id in ReachAll(r, ts, h)
    ensures ref in ts && Trail(r, p, ref, Id(id))
    decreases h, 2, |ts|
  {
    hide Reach, Trail;
    if id in Reach(r, ts[0]) {
      ref := ts[0];
      p := ReachTrail(r, ref, id);
    } else {
      ref, p := ReachAllTrail(r, ts[1..], h, id);
    }
  }

  lemma {:induction false} TrailReach(r: Resolve, p: seq<Type>, t: Type, id: TypeId)
    requires r.Valid() && r.Known(t) && Trail(r, p, t, Id(id))
    ensures id in Reach(r, t)
    decreases |p|
  {
    hide Mentions, Refs;
    if |p| > 1 {
      RefsAreMentioned(r.kinds[t.id], p[1]);
      RefsUnder(r, t.id);
      TrailReach(r, p[1..], p[1], id);
      RefReach(r, Refs(r.kinds[t.id]), r.rank[t.id], p[1], id);
    }
  }

  lemma {:induction false} RefReach(r: Resolve, ts: seq<Type>, h: nat, ref: Type, id: TypeId)
    requires Under(r, ts, h) && ref in ts && id in Reach(r, ref)
    ensures id in ReachAll(r, ts, h)
    decreases |ts|
  {
    hide Reach;
    if ref != ts[0] {
      RefReach(r, ts[1..], h, ref, id);
    }
  }

  /** A function of a world, imported or exported. */
  datatype Func = Func(params: seq<Type>, result: Option<Type>, isImport: bool) {
    function Results(): seq<Type> {
      Present(result)
    }

    predicate Valid(r: Resolve) {
      r.Valid() && (forall t | t in params :: r.Known(t)) && (result.Some? ==> r.Known(result.value))
    }
  }

  ghost predicate InParams(r: Resolve, f: Func, id: TypeId)
    requires f.Valid(r)
  {
    exists t :: t in f.params && id in Reach(r, t)
  }

  ghost predicate InResult(r: Resolve, f: Func, id: TypeId)
    requires f.Valid(r)
  {
    f.result.Some? && id in Reach(r, f.result.value)
  }

  /** Follows aliases of other definitions. */
  function Definition(r: Resolve, id: TypeId): (d: TypeId)
    requires r.Valid() && r.Has(id)
    ensures r.Has(d) && !(r.kinds[d].Alias? && r.kinds[d].ty.Id?)
    decreases r.rank[id]
  {
    if r.kinds[id].Alias? && r.kinds[id].ty.Id? then
      RefsUnder(r, id);
      assert r.kinds[id].ty in Refs(r.kinds[id]);
      Definition(r, r.kinds[id].ty.id)
    else id
  }

  /** The definition of the error type of a function that returns a `result`. */
  function ErrorOf(r: Resolve, f: Func): Option<TypeId>
    requires f.Valid(r)
  {
    if f.result.Some? && f.result.value.Id? && r.kinds[f.result.value.id].Result?
       && r.kinds[f.result.value.id].errTy.Some? && r.kinds[f.result.value.id].errTy.value.Id? then
      var k := r.kinds[f.result.value.id];
      RefsUnder(r, f.result.value.id);
      assert k.errTy.value in Present(k.errTy) && k.errTy.value in Refs(k);
      Some(Definition(r, k.errTy.value.id))
    else None
  }

  /** What one function says about one definition: named types of its parameters are
      borrowed (imports) or owned (exports), those of its result owned. */
  ghost function Marks(r: Resolve, f: Func, id: TypeId): TypeInfo
    requires f.Valid(r) && r.Has(id)
  {
    (if r.named[id] && f.isImport && InParams(r, f, id) then {Borrowed} else {})
    + (if r.named[id] && ((!f.isImport && InParams(r, f, id)) || InResult(r, f, id)) then {Owned} else {})
    + (if ErrorOf(r, f) == Some(id) then {Error} else {})
  }

  /** The contents of a definition never say how it is used. */
  lemma {:induction false} InfoIsNoMark(r: Resolve, t: Type)
    requires r.Valid() && r.Known(t)
    ensures Borrowed !in InfoType(r, t) && Owned !in InfoType(r, t) && Error !in InfoType(r, t)
  {
    InfoIsTransitive(r, t, Borrowed);
    InfoIsTransitive(r, t, Owned);
    InfoIsTransitive(r, t, Error);
  }
}
