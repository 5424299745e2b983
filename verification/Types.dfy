/** The analysis of a resolved set of types: which definitions are structurally equal,
    and how each of them is used. */
module Types {
  import opened Wrappers
  import opened UnionFind
  import opened TypeGraph
  import opened TypeShapes
  import opened TypeUsage

  /** `p` and `q` represent the same classes. */
  ghost predicate SameClasses(p: map<TypeId, TypeId>, q: map<TypeId, TypeId>)
    requires Descending(p) && Descending(q)
  {
    forall x :: Root(p, x) == Root(q, x)
  }

  /** Only definitions that unfold to the same shape share a class. */
  ghost predicate Faithful(r: Resolve, p: map<TypeId, TypeId>)
    requires r.Valid() && Descending(p)
  {
    forall a, b | r.Has(a) && r.Has(b) && Same(p, a, b) :: Unfold(r, a) == Unfold(r, b)
  }

  class Types {
    var typeInfo: map<TypeId, TypeInfo>
    const equalTypes: UnionFind

    constructor ()
      ensures fresh(equalTypes) && equalTypes.Valid() && equalTypes.parent == map[] && typeInfo == map[]
    {
      equalTypes := new UnionFind();
      typeInfo := map[];
    }

    ghost predicate Sound(r: Resolve)
      reads equalTypes
    {
      r.Valid() && equalTypes.Valid() && Faithful(r, equalTypes.parent)
    }

    // ----- structural equality -----

    /** Decides equality of unfoldings, with the classes found so far as a shortcut. */
    method IsStructurallyEqual(r: Resolve, a: TypeId, b: TypeId) returns (eq: bool)
      requires Sound(r) && r.Has(a) && r.Has(b)
      modifies equalTypes
      ensures Sound(r) && SameClasses(old(equalTypes.parent), equalTypes.parent)
      ensures eq <==> Unfold(r, a) == Unfold(r, b)
      decreases r.rank[a] + r.rank[b] + 2, 0
    {
      hide Unfold, UnfoldType, Faithful;
      var ra := equalTypes.Find(a);
      var rb := equalTypes.Find(b);
      StillFaithful(r, old(equalTypes.parent), equalTypes.parent);
      if ra == rb {
        SameUnfolds(r, equalTypes.parent, a, b);
        return true;
      }
      var ka, kb := r.kinds[a], r.kinds[b];
      if ka.Alias? {
        AliasUnfolds(r, a);
        eq := TypeIdEqualToType(r, b, ka.ty);
      } else if kb.Alias? {
        AliasUnfolds(r, b);
        eq := TypeIdEqualToType(r, a, kb.ty);
      } else {
        eq := KindsEqual(r, a, b);
      }
    }

    /** Two definitions that are not aliases. */
    method KindsEqual(r: Resolve, a: TypeId, b: TypeId) returns (eq: bool)
      requires Sound(r) && r.Has(a) && r.Has(b) && !r.kinds[a].Alias? && !r.kinds[b].Alias?
      requires !Same(equalTypes.parent, a, b)
      modifies equalTypes
      ensures Sound(r) && SameClasses(old(equalTypes.parent), equalTypes.parent)
      ensures eq <==> Unfold(r, a) == Unfold(r, b)
      decreases r.rank[a] + r.rank[b] + 1, 3
    {
      hide UnfoldType, Faithful, Unfold;
      var ka, kb := r.kinds[a], r.kinds[b];
      if KindTag(ka) != KindTag(kb) {
        TagsDiffer(r, a, b);
        return false;
      }
      if ka.Record? {
        RecordsMatch(r, a, b);
        eq := |ka.fields| == |kb.fields|;
        if eq { eq := FieldsEqual(r, ka.fields, kb.fields, r.rank[a], r.rank[b]); }
      } else if ka.Variant? {
        VariantsMatch(r, a, b);
        eq := |ka.cases| == |kb.cases|;
        if eq { eq := CasesEqual(r, ka.cases, kb.cases, r.rank[a], r.rank[b]); }
      } else if ka.Tuple? {
        TuplesMatch(r, a, b);
        eq := |ka.types| == |kb.types|;
        if eq { eq := AllEqual(r, ka.types, kb.types, r.rank[a], r.rank[b]); }
      } else {
        eq := SmallKindsEqual(r, a, b);
      }
    }

    /** Definitions with no list of parts, or with names only. */
    method SmallKindsEqual(r: Resolve, a: TypeId, b: TypeId) returns (eq: bool)
      requires Sound(r) && r.Has(a) && r.Has(b) && KindTag(r.kinds[a]) == KindTag(r.kinds[b])
      requires !r.kinds[a].Alias? && !r.kinds[a].Record? && !r.kinds[a].Variant? && !r.kinds[a].Tuple?
      requires !Same(equalTypes.parent, a, b)
      modifies equalTypes
      ensures Sound(r) && SameClasses(old(equalTypes.parent), equalTypes.parent)
      ensures eq <==> Unfold(r, a) == Unfold(r, b)
      decreases r.rank[a] + r.rank[b] + 1, 2
    {
      hide UnfoldType, Faithful, Unfold, Refs, Same;
      var ka, kb := r.kinds[a], r.kinds[b];
      UnfoldsTo(r, a);
      UnfoldsTo(r, b);
      match ka
      case Enum(na) => eq := NamesEqual(na, kb.names);
      case Flags(na) => eq := NamesEqual(na, kb.flags);
      case List(ta) => eq := TypesEqual(r, ta, kb.ty);
      case FixedLengthList(ta, n) =>
        eq := n == kb.size;
        if eq { eq := TypesEqual(r, ta, kb.ty); }
      case Optional(ta) => eq := TypesEqual(r, ta, kb.ty);
      case Result(oka, erra) =>
        eq := OptionalTypesEqual(r, oka, kb.okTy);
        if eq { eq := OptionalTypesEqual(r, erra, kb.errTy); }
      case Map(keya, vala) =>
        eq := TypesEqual(r, keya, kb.key);
        if eq { eq := TypesEqual(r, vala, kb.value); }
      case Future(ta) => eq := OptionalTypesEqual(r, ta, kb.payload);
      case Stream(ta) => eq := OptionalTypesEqual(r, ta, kb.payload);
      case Handle(hk, res) =>
        if hk == kb.hk { eq := IsStructurallyEqual(r, res, kb.resource); } else { eq := false; }
      case Resource => eq := a == b;
    }

    method TypesEqual(r: Resolve, a: Type, b: Type) returns (eq: bool)
      requires Sound(r) && r.Known(a) && r.Known(b)
      modifies equalTypes
      ensures Sound(r) && SameClasses(old(equalTypes.parent), equalTypes.parent)
      ensures eq <==> UnfoldType(r, a) == UnfoldType(r, b)
      decreases r.Height(a) + r.Height(b), 2
    {
      hide Unfold, Faithful;
      if a.Id? {
        eq := TypeIdEqualToType(r, a.id, b);
      } else if b.Id? {
        eq := TypeIdEqualToType(r, b.id, a);
      } else {
        eq := a == b;
      }
    }

    method TypeIdEqualToType(r: Resolve, a: TypeId, b: Type) returns (eq: bool)
      requires Sound(r) && r.Has(a) && r.Known(b)
      modifies equalTypes
      ensures Sound(r) && SameClasses(old(equalTypes.parent), equalTypes.parent)
      ensures eq <==> Unfold(r, a) == UnfoldType(r, b)
      decreases r.rank[a] + 1 + r.Height(b), 1
    {
      hide Faithful, Unfold;
      var ak := r.kinds[a];
      if ak.Alias? {
        AliasUnfolds(r, a);
        eq := TypesEqual(r, ak.ty, b);
      } else if b.Id? {
        eq := IsStructurallyEqual(r, a, b.id);
      } else {
        NotPrimitive(r, a);
        eq := false;
      }
    }

    method OptionalTypesEqual(r: Resolve, a: Option<Type>, b: Option<Type>) returns (eq: bool)
      requires Sound(r) && (a.Some? ==> r.Known(a.value)) && (b.Some? ==> r.Known(b.value))
      modifies equalTypes
      ensures Sound(r) && SameClasses(old(equalTypes.parent), equalTypes.parent)
      ensures eq <==> OptMatch(r, a, b)
      decreases (if a.Some? then r.Height(a.value) else 0) + (if b.Some? then r.Height(b.value) else 0), 3
    {
      hide Faithful, UnfoldType;
      if a.Some? && b.Some? {
        eq := TypesEqual(r, a.value, b.value);
      } else {
        eq := a.None? && b.None?;
      }
    }

    method NamesEqual(a: seq<string>, b: seq<string>) returns (eq: bool)
      ensures eq <==> a == b
    {
      if |a| != |b| { return false; }
      var i := 0;
      while i < |a|
        invariant 0 <= i <= |a| && a[..i] == b[..i]
      {
        if a[i] != b[i] { return false; }
        i := i + 1;
      }
      assert a[..i] == a && b[..i] == b;
      eq := true;
    }

    method FieldsEqual(r: Resolve, fa: seq<Field>, fb: seq<Field>, ghost ha: nat, ghost hb: nat) returns (eq: bool)
      requires Sound(r) && |fa| == |fb|
      requires forall i | 0 <= i < |fa| :: r.Known(fa[i].ty) && r.Height(fa[i].ty) <= ha
      requires forall i | 0 <= i < |fb| :: r.Known(fb[i].ty) && r.Height(fb[i].ty) <= hb
      modifies equalTypes
      ensures Sound(r) && SameClasses(old(equalTypes.parent), equalTypes.parent)
      ensures eq <==> FieldsMatch(r, fa, fb)
      decreases ha + hb + 1, 1
    {
      hide Faithful, UnfoldType, Resolve.Height, Resolve.Valid;
      var i := 0;
      while i < |fa|
        invariant 0 <= i <= |fa| && Sound(r) && SameClasses(old(equalTypes.parent), equalTypes.parent)
        invariant forall j | 0 <= j < i :: fa[j].name == fb[j].name && UnfoldType(r, fa[j].ty) == UnfoldType(r, fb[j].ty)
      {
        if fa[i].name != fb[i].name { return false; }
        eq := TypesEqual(r, fa[i].ty, fb[i].ty);
        if !eq { return; }
        i := i + 1;
      }
      eq := true;
    }

    method CasesEqual(r: Resolve, ca: seq<Case>, cb: seq<Case>, ghost ha: nat, ghost hb: nat) returns (eq: bool)
      requires Sound(r) && |ca| == |cb| && PayloadsFit(r, ca, ha) && PayloadsFit(r, cb, hb)
      modifies equalTypes
      ensures Sound(r) && SameClasses(old(equalTypes.parent), equalTypes.parent)
      ensures eq <==> CasesMatch(r, ca, cb)
      decreases ha + hb + 1, 1
    {
      hide Faithful, OptMatch, Resolve.Height, Resolve.Valid;
      var i := 0;
      while i < |ca|
        invariant 0 <= i <= |ca| && Sound(r) && SameClasses(old(equalTypes.parent), equalTypes.parent)
        invariant forall j | 0 <= j < i :: ca[j].name == cb[j].name && OptMatch(r, ca[j].ty, cb[j].ty)
      {
        if ca[i].name != cb[i].name { return false; }
        eq := OptionalTypesEqual(r, ca[i].ty, cb[i].ty);
        if !eq { return; }
        i := i + 1;
      }
      eq := true;
    }

    method AllEqual(r: Resolve, ta: seq<Type>, tb: seq<Type>, ghost ha: nat, ghost hb: nat) returns (eq: bool)
      requires Sound(r) && |ta| == |tb|
      requires forall i | 0 <= i < |ta| :: r.Known(ta[i]) && r.Height(ta[i]) <= ha
      requires forall i | 0 <= i < |tb| :: r.Known(tb[i]) && r.Height(tb[i]) <= hb
      modifies equalTypes
      ensures Sound(r) && SameClasses(old(equalTypes.parent), equalTypes.parent)
      ensures eq <==> TypesMatch(r, ta, tb)
      decreases ha + hb + 1, 1
    {
      hide Faithful, UnfoldType, Resolve.Height, Resolve.Valid;
      var i := 0;
      while i < |ta|
        invariant 0 <= i <= |ta| && Sound(r) && SameClasses(old(equalTypes.parent), equalTypes.parent)
        invariant forall j | 0 <= j < i :: UnfoldType(r, ta[j]) == UnfoldType(r, tb[j])
      {
        eq := TypesEqual(r, ta[i], tb[i]);
        if !eq { return; }
        i := i + 1;
      }
      eq := true;
    }

    // ----- collecting equal types -----

    /** Merges every live type that may alias another with the first live type equal to it. */
    method CollectEqualTypes(r: Resolve, live: seq<TypeId>, mayAlias: TypeId -> bool)
      requires Sound(r) && equalTypes.parent == map[] && Distinct(live) && forall id | id in live :: r.Has(id)
      modifies equalTypes
      ensures Sound(r) && Collected(r, live, mayAlias, |live|, equalTypes.parent)
    {
      hide Unfold, Faithful, Collected;
      StartCollecting(r, live, mayAlias);
      var i := 0;
      while i < |live|
        invariant 0 <= i <= |live| && Sound(r) && Collected(r, live, mayAlias, i, equalTypes.parent)
      {
        if mayAlias(live[i]) {
          JoinEarlier(r, live, mayAlias, i);
        } else {
          StaysAlone(r, live, mayAlias, i, equalTypes.parent);
        }
        i := i + 1;
      }
    }

    /** Looks for an earlier type equal to `live[i]`, and joins the first one found. */
    method JoinEarlier(r: Resolve, live: seq<TypeId>, mayAlias: TypeId -> bool, i: nat)
      requires Sound(r) && Distinct(live) && forall id | id in live :: r.Has(id)
      requires i < |live| && mayAlias(live[i]) && Collected(r, live, mayAlias, i, equalTypes.parent)
      modifies equalTypes
      ensures Sound(r) && Collected(r, live, mayAlias, i + 1, equalTypes.parent)
    {
      hide Unfold, Faithful, Collected;
      ghost var was := equalTypes.parent;
      var ty := live[i];
      var e := 0;
      while e < i
        invariant 0 <= e <= i && Sound(r) && SameClasses(was, equalTypes.parent)
        invariant forall h | 0 <= h < e && Unfold(r, live[h]) == Unfold(r, ty) :: Same(was, ty, live[h])
      {
        var earlier := live[e];
        var rt := equalTypes.Find(ty);
        var re := equalTypes.Find(earlier);
        StillFaithful(r, was, equalTypes.parent) by { BackFaithful(r, was, equalTypes.parent); }
        if rt != re {
          var eq := IsStructurallyEqual(r, ty, earlier);
          if eq {
            ghost var now := equalTypes.parent;
            equalTypes.Union(ty, earlier);
            UnionFaithful(r, now, equalTypes.parent, ty, earlier);
            JoinsFirst(r, live, mayAlias, i, e, was, now, equalTypes.parent);
            return;
          }
        }
        e := e + 1;
      }
      CollectedStill(r, live, mayAlias, i, was, equalTypes.parent);
      FoundNone(r, live, mayAlias, i, equalTypes.parent);
    }

    /** All members of a class get the flags of the whole class. */
    method MergeInfo()
      requires equalTypes.Valid()
      modifies this`typeInfo, equalTypes
      ensures equalTypes.Valid() && SameClasses(old(equalTypes.parent), equalTypes.parent)
      ensures typeInfo.Keys == old(typeInfo).Keys
      ensures forall id, u | id in typeInfo ::
                u in typeInfo[id] <==> exists y :: y in old(typeInfo) && Same(old(equalTypes.parent), y, id) && u in old(typeInfo)[y]
    {
      hide Root, MergedSoFar;
      ghost var p := equalTypes.parent;
      ghost var was := typeInfo;
      var merged := CollectInfo();
      assert MergedSoFar(p, was, was.Keys, merged);
      var todo := typeInfo.Keys;
      while todo != {}
        invariant todo <= typeInfo.Keys == was.Keys && equalTypes.Valid() && SameClasses(p, equalTypes.parent)
        invariant forall id | id in todo :: typeInfo[id] == was[id]
        invariant forall id | id in typeInfo.Keys - todo :: Root(p, id) in merged && typeInfo[id] == merged[Root(p, id)]
        decreases |todo|
      {
        var id :| id in todo;
        var rep := equalTypes.Find(id);
        HasEntry(p, was, merged, id);
        if rep in merged {
          typeInfo := typeInfo[id := merged[rep]];
        }
        todo := todo - {id};
      }
      forall id, u | id in typeInfo
        ensures u in typeInfo[id] <==> exists y :: y in was && Same(p, y, id) && u in was[y]
      {
        EntryIs(p, was, merged, id, u);
      }
    }

    /** The flags of every class, under its representative; the order of the entries does
        not matter. */
    method CollectInfo() returns (merged: map<TypeId, TypeInfo>)
      requires equalTypes.Valid()
      modifies equalTypes
      ensures equalTypes.Valid() && SameClasses(old(equalTypes.parent), equalTypes.parent)
      ensures MergedSoFar(old(equalTypes.parent), typeInfo, typeInfo.Keys, merged)
    {
      hide Root, MergedSoFar;
      ghost var p := equalTypes.parent;
      merged := map[];
      var todo := typeInfo.Keys;
      NothingMerged(p, typeInfo);
      assert typeInfo.Keys - todo == {};
      while todo != {}
        invariant todo <= typeInfo.Keys && equalTypes.Valid() && SameClasses(p, equalTypes.parent)
        invariant MergedSoFar(p, typeInfo, typeInfo.Keys - todo, merged)
        decreases |todo|
      {
        var id :| id in todo;
        var rep := equalTypes.Find(id);
        MergeOne(p, typeInfo, typeInfo.Keys - todo, merged, id);
        merged := merged[rep := (if rep in merged then merged[rep] else {}) + typeInfo[id]];
        assert (typeInfo.Keys - todo) + {id} == typeInfo.Keys - (todo - {id});
        todo := todo - {id};
      }
      assert typeInfo.Keys - {} == typeInfo.Keys;
    }

    // ----- usage -----

    /** What is cached is what the plain recursive definition says. */
    ghost predicate Memo(r: Resolve)
      reads this
    {
      r.Valid() && forall id | id in typeInfo :: r.Has(id) && typeInfo[id] == Info(r, id)
    }

    /** New entries since `before` are of smaller rank than `h`. */
    ghost predicate NewBelow(r: Resolve, before: set<TypeId>, h: nat)
      reads this
    {
      before <= typeInfo.Keys && forall id | id in typeInfo.Keys - before :: r.Has(id) && |r.rank| == |r.kinds| && r.rank[id] < h
    }

    method TypeIdInfo(r: Resolve, ty: TypeId) returns (info: TypeInfo)
      requires r.Valid() && r.Has(ty) && (ty in typeInfo || Memo(r))
      modifies this`typeInfo
      ensures ty in typeInfo && info == typeInfo[ty]
      ensures ty in old(typeInfo) ==> typeInfo == old(typeInfo)
      ensures old(Memo(r)) ==> Memo(r) && info == Info(r, ty)
      ensures NewBelow(r, old(typeInfo).Keys, r.rank[ty] + 1)
      decreases r.rank[ty] + 1, 0
    {
      hide Info, InfoAll, InfoType;
      if ty in typeInfo {
        return typeInfo[ty];
      }
      PartsUnder(r, ty);
      var parts := TypeInfoAll(r, Parts(r.kinds[ty]), r.rank[ty]);
      InfoIs(r, ty);
      info := OwnInfo(r.kinds[ty]) + parts;
      assert ty !in typeInfo;
      typeInfo := typeInfo[ty := info];
    }

    method TypeInfoOf(r: Resolve, ty: Type) returns (info: TypeInfo)
      requires r.Valid() && r.Known(ty) && (Memo(r) || (ty.Id? ==> ty.id in typeInfo))
      modifies this`typeInfo
      ensures ty.Id? && ty.id in old(typeInfo) ==> typeInfo == old(typeInfo)
      ensures ty.Prim? ==> typeInfo == old(typeInfo)
      ensures old(Memo(r)) ==> Memo(r) && info == InfoType(r, ty)
      ensures NewBelow(r, old(typeInfo).Keys, r.Height(ty))
      decreases r.Height(ty), 1
    {
      hide Info;
      if ty.Id? {
        info := TypeIdInfo(r, ty.id);
      } else {
        info := PrimInfo(ty.p);
      }
    }

    method TypeInfoAll(r: Resolve, tys: seq<Type>, ghost h: nat) returns (info: TypeInfo)
      requires Under(r, tys, h) && Memo(r)
      modifies this`typeInfo
      ensures Memo(r) && info == InfoAll(r, tys, h) && NewBelow(r, old(typeInfo).Keys, h)
      decreases h, 2
    {
      hide Info, InfoType, InfoAll;
      info := {};
      var i := 0;
      AllUnder(r, tys, h, 0);
      assert tys[0..] == tys;
      while i < |tys|
        invariant 0 <= i <= |tys| && Memo(r) && NewBelow(r, old(typeInfo).Keys, h) && Under(r, tys[i..], h)
        invariant info + InfoAll(r, tys[i..], h) == InfoAll(r, tys, h)
      {
        AllUnder(r, tys, h, i);
        var one := TypeInfoOf(r, tys[i]);
        NextInfo(r, tys, h, i);
        info := info + one;
        i := i + 1;
      }
      NoInfo(r, tys[i..], h);
    }

    /** The whole analysis: contents first, then the functions of all worlds. */
    method Analyze(r: Resolve, funcs: seq<Func>)
      requires r.Valid() && typeInfo == map[] && forall f | f in funcs :: f.Valid(r)
      modifies this`typeInfo
      ensures forall id :: id in typeInfo <==> r.Has(id)
      ensures forall id: TypeId, u: Use | r.Has(id) ::
                u in typeInfo[id] <==> u in Info(r, id) || exists i :: 0 <= i < |funcs| && u in Marks(r, funcs[i], id)
    {
      hide Info, Marks;
      var id := 0;
      while id < |r.kinds|
        invariant 0 <= id <= |r.kinds| && Memo(r) && forall x | 0 <= x < id :: x in typeInfo
      {
        var _ := TypeIdInfo(r, id);
        id := id + 1;
      }
      var i := 0;
      while i < |funcs|
        invariant 0 <= i <= |funcs| && forall id :: id in typeInfo <==> r.Has(id)
        invariant forall id: TypeId, u: Use | r.Has(id) ::
                    u in typeInfo[id] <==> u in Info(r, id) || exists j :: 0 <= j < i && u in Marks(r, funcs[j], id)
      {
        ghost var was := typeInfo;
        TypeInfoFunc(r, funcs[i]);
        forall id: TypeId, u: Use | r.Has(id)
          ensures u in typeInfo[id] <==> u in Info(r, id) || exists j :: 0 <= j < i + 1 && u in Marks(r, funcs[j], id)
        {
          assert typeInfo[id] == was[id] + Marks(r, funcs[i], id);
        }
        i := i + 1;
      }
    }

    /** Marks what one function uses. */
    method TypeInfoFunc(r: Resolve, f: Func)
      requires f.Valid(r) && forall id :: id in typeInfo <==> r.Has(id)
      modifies this`typeInfo
      ensures typeInfo.Keys == old(typeInfo).Keys
      ensures forall id: TypeId | r.Has(id) :: typeInfo[id] == old(typeInfo)[id] + Marks(r, f, id)
    {
      hide Marks, Definition, Resolve.Valid, Refs, Marked, Reach, ErrorOf;
      FuncTypes(r, f);
      ghost var i0 := typeInfo;
      var params := LiveTypes(r, f.params);
      Mark(r, params, if f.isImport then Borrowed else Owned);
      ghost var i1 := typeInfo;
      AllHere(r, params, if f.isImport then Borrowed else Owned, i0, i1);
      var results := LiveTypes(r, f.Results());
      Mark(r, results, Owned);
      ghost var i2 := typeInfo;
      AllHere(r, results, Owned, i1, i2);
      MarkError(r, f);
      forall id: TypeId | r.Has(id) ensures typeInfo[id] == i0[id] + Marks(r, f, id) {
        AllMarked(r, f, params, results, i0, i1, i2, typeInfo, id);
      }
    }

    method MarkError(r: Resolve, f: Func)
      requires f.Valid(r) && forall id :: id in typeInfo <==> r.Has(id)
      modifies this`typeInfo
      ensures typeInfo.Keys == old(typeInfo).Keys
      ensures forall id: TypeId | r.Has(id) :: typeInfo[id] == old(typeInfo)[id] + (if ErrorOf(r, f) == Some(id) then {Error} else {})
    {
      hide Definition;
      if f.result.Some? && f.result.value.Id? {
        var k := r.kinds[f.result.value.id];
        if k.Result? && k.errTy.Some? && k.errTy.value.Id? {
          PartsAreRefs(k);
          RefsUnder(r, f.result.value.id);
          var id := ResolveTypeDefinitionId(r, k.errTy.value.id);
          typeInfo := typeInfo[id := typeInfo[id] + {Error}];
        }
      }
    }

    /** Analyses the types `tys`, and collects everything that is reachable from them. */
    method LiveTypes(r: Resolve, tys: seq<Type>) returns (live: set<TypeId>)
      requires r.Valid() && (forall t | t in tys :: r.Known(t)) && forall id :: id in typeInfo <==> r.Has(id)
      modifies this`typeInfo
      ensures typeInfo == old(typeInfo)
      ensures forall id :: id in live <==> exists t :: t in tys && id in Reach(r, t)
      ensures forall id | id in live :: r.Has(id)
    {
      hide Info, Reach;
      live := {};
      for i := 0 to |tys|
        invariant typeInfo == old(typeInfo)
        invariant forall id :: id in live <==> exists t :: t in tys[..i] && id in Reach(r, t)
        invariant forall id | id in live :: r.Has(id)
      {
        var _ := TypeInfoOf(r, tys[i]);
        forall id | id in Reach(r, tys[i]) ensures r.Has(id) { ReachExists(r, tys[i], id); }
        live := live + Reach(r, tys[i]);
        assert tys[..i + 1] == tys[..i] + [tys[i]];
      }
      assert tys[..|tys|] == tys;
    }

    /** Sets a flag of every named type of `live`. */
    method Mark(r: Resolve, live: set<TypeId>, u: Use)
      requires |r.named| == |r.kinds| && (forall id | id in live :: r.Has(id)) && forall id :: id in typeInfo <==> r.Has(id)
      modifies this`typeInfo
      ensures Marked(r, live, u, old(typeInfo), typeInfo)
    {
      hide Marked;
      var todo := live;
      NothingMarked(r, u, typeInfo);
      assert live - todo == {};
      while todo != {}
        invariant todo <= live && Marked(r, live - todo, u, old(typeInfo), typeInfo)
        decreases |todo|
      {
        var id :| id in todo;
        MarkNext(r, live - todo, u, old(typeInfo), typeInfo, id);
        if r.named[id] {
          typeInfo := typeInfo[id := typeInfo[id] + {u}];
        }
        assert (live - todo) + {id} == live - (todo - {id});
        todo := todo - {id};
      }
      assert live - {} == live;
    }

    method ResolveTypeDefinitionId(r: Resolve, id: TypeId) returns (d: TypeId)
      requires r.Valid() && r.Has(id)
      ensures d == Definition(r, id)
    {
      d := id;
      while r.kinds[d].Alias? && r.kinds[d].ty.Id?
        invariant r.Has(d) && Definition(r, d) == Definition(r, id)
        decreases r.rank[d]
      {
        RefsUnder(r, d);
        assert r.kinds[d].ty in Refs(r.kinds[d]);
        d := r.kinds[d].ty.id;
      }
    }
  }

  /** `q` is `p` with `u` added to the named types of `live`. */
  ghost predicate Marked(r: Resolve, live: set<TypeId>, u: Use, p: map<TypeId, TypeInfo>, q: map<TypeId, TypeInfo>) {
    && |r.named| == |r.kinds|
    && (forall id :: id in p <==> r.Has(id)) && (forall id :: id in q <==> r.Has(id))
    && forall id, x | id in q :: x in q[id] <==> x in p[id] || (x == u && id in live && r.named[id])
  }

  lemma NothingMarked(r: Resolve, u: Use, p: map<TypeId, TypeInfo>)
    requires |r.named| == |r.kinds| && forall id :: id in p <==> r.Has(id)
    ensures Marked(r, {}, u, p, p)
  {
  }

  lemma MarkNext(r: Resolve, live: set<TypeId>, u: Use, p: map<TypeId, TypeInfo>, q: map<TypeId, TypeInfo>, id: TypeId)
    requires Marked(r, live, u, p, q) && r.Has(id)
    ensures id in q && Marked(r, live + {id}, u, p, if r.named[id] then q[id := q[id] + {u}] else q)
  {
  }

  lemma AllHere(r: Resolve, live: set<TypeId>, u: Use, p: map<TypeId, TypeInfo>, q: map<TypeId, TypeInfo>)
    requires Marked(r, live, u, p, q)
    ensures forall id :: id in q <==> r.Has(id)
    ensures p.Keys == q.Keys
  {
  }

  /** The three steps that mark what a function uses, taken together. */
  lemma AllMarked(r: Resolve, f: Func, params: set<TypeId>, results: set<TypeId>,
                  i0: map<TypeId, TypeInfo>, i1: map<TypeId, TypeInfo>, i2: map<TypeId, TypeInfo>, i3: map<TypeId, TypeInfo>, id: TypeId)
    requires f.Valid(r) && r.Has(id)
    requires id in params <==> exists t :: t in f.params && id in Reach(r, t)
    requires id in results <==> exists t :: t in f.Results() && id in Reach(r, t)
    requires Marked(r, params, if f.isImport then Borrowed else Owned, i0, i1) && Marked(r, results, Owned, i1, i2)
    requires id in i3 && i3[id] == i2[id] + (if ErrorOf(r, f) == Some(id) then {Error} else {})
    ensures i3[id] == i0[id] + Marks(r, f, id)
  {
    hide Marks, ErrorOf, Reach;
    MarksAre(r, f, id, params, results);
  }

  lemma FuncTypes(r: Resolve, f: Func)
    requires f.Valid(r)
    ensures r.Valid() && (forall t | t in f.params :: r.Known(t)) && (forall t | t in f.Results() :: r.Known(t))
    ensures |r.named| == |r.kinds|
  {
  }

  lemma MarksAre(r: Resolve, f: Func, id: TypeId, params: set<TypeId>, results: set<TypeId>)
    requires f.Valid(r) && r.Has(id)
    requires id in params <==> exists t :: t in f.params && id in Reach(r, t)
    requires id in results <==> exists t :: t in f.Results() && id in Reach(r, t)
    ensures Marks(r, f, id) ==
              (if id in params && r.named[id] then {if f.isImport then Borrowed else Owned} else {})
              + (if id in results && r.named[id] then {Owned} else {})
              + (if ErrorOf(r, f) == Some(id) then {Error} else {})
  {
    hide Reach, ErrorOf;
    assert f.result.Some? ==> f.result.value in f.Results();
  }

  /** `merged` holds, for every root, the flags of the members of its class in `done`. */
  ghost predicate MergedSoFar(p: map<TypeId, TypeId>, info: map<TypeId, TypeInfo>, done: set<TypeId>, merged: map<TypeId, TypeInfo>)
    requires Descending(p)
  {
    && done <= info.Keys
    && (forall rep :: rep in merged <==> exists y :: y in done && Root(p, y) == rep)
    && (forall rep, u | rep in merged :: u in merged[rep] <==> exists y :: y in done && Root(p, y) == rep && u in info[y])
  }

  lemma NothingMerged(p: map<TypeId, TypeId>, info: map<TypeId, TypeInfo>)
    requires Descending(p)
    ensures MergedSoFar(p, info, {}, map[])
  {
  }

  lemma HasEntry(p: map<TypeId, TypeId>, info: map<TypeId, TypeInfo>, merged: map<TypeId, TypeInfo>, id: TypeId)
    requires Descending(p) && MergedSoFar(p, info, info.Keys, merged) && id in info
    ensures Root(p, id) in merged
  {
  }

  lemma EntryIs(p: map<TypeId, TypeId>, info: map<TypeId, TypeInfo>, merged: map<TypeId, TypeInfo>, id: TypeId, u: Use)
    requires Descending(p) && MergedSoFar(p, info, info.Keys, merged) && id in info && Root(p, id) in merged
    ensures u in merged[Root(p, id)] <==> exists y :: y in info && Same(p, y, id) && u in info[y]
  {
    hide Root;
  }

  lemma MergeOne(p: map<TypeId, TypeId>, info: map<TypeId, TypeInfo>, done: set<TypeId>, merged: map<TypeId, TypeInfo>, id: TypeId)
    requires Descending(p) && MergedSoFar(p, info, done, merged) && id in info && id !in done
    ensures var rep := Root(p, id);
            MergedSoFar(p, info, done + {id}, merged[rep := (if rep in merged then merged[rep] else {}) + info[id]])
  {
    var rep := Root(p, id);
    var next := merged[rep := (if rep in merged then merged[rep] else {}) + info[id]];
    forall q, u | q in next ensures u in next[q] <==> exists y :: y in done + {id} && Root(p, y) == q && u in info[y] {
      if q == rep {
        if rep in merged {
          assert u in merged[rep] <==> exists y :: y in done && Root(p, y) == rep && u in info[y];
        }
      } else {
        assert u in merged[q] <==> exists y :: y in done && Root(p, y) == q && u in info[y];
      }
    }
  }

  lemma InfoIs(r: Resolve, id: TypeId)
    requires r.Valid() && r.Has(id)
    ensures Under(r, Parts(r.kinds[id]), r.rank[id])
    ensures Info(r, id) == OwnInfo(r.kinds[id]) + InfoAll(r, Parts(r.kinds[id]), r.rank[id])
  {
    hide InfoAll;
    PartsUnder(r, id);
  }

  lemma AllUnder(r: Resolve, tys: seq<Type>, h: nat, i: nat)
    requires Under(r, tys, h) && i <= |tys|
    ensures Under(r, tys[i..], h) && (i < |tys| ==> r.Known(tys[i]) && r.Height(tys[i]) <= h)
  {
  }

  lemma NextInfo(r: Resolve, tys: seq<Type>, h: nat, i: nat)
    requires Under(r, tys, h) && i < |tys|
    ensures Under(r, tys[i..], h) && Under(r, tys[i + 1..], h)
    ensures InfoAll(r, tys[i..], h) == InfoType(r, tys[i]) + InfoAll(r, tys[i + 1..], h)
  {
    hide InfoType;
    AllUnder(r, tys, h, i);
    AllUnder(r, tys, h, i + 1);
    assert tys[i..][0] == tys[i] && tys[i..][1..] == tys[i + 1..];
  }

  lemma NoInfo(r: Resolve, tys: seq<Type>, h: nat)
    requires Under(r, tys, h) && tys == []
    ensures InfoAll(r, tys, h) == {}
  {
  }

  /** If every type may alias another, live types share a class exactly when they unfold to
      the same shape. */
  lemma EqualTypesShareAClass(r: Resolve, live: seq<TypeId>, mayAlias: TypeId -> bool, p: map<TypeId, TypeId>)
    requires r.Valid() && Descending(p) && (forall id | id in live :: r.Has(id)) && forall id | id in live :: mayAlias(id)
    requires Collected(r, live, mayAlias, |live|, p)
    ensures forall i, j | 0 <= i < |live| && 0 <= j < |live| ::
              Same(p, live[i], live[j]) <==> Unfold(r, live[i]) == Unfold(r, live[j])
  {
    hide Unfold, First;
  }

  ghost predicate Distinct(live: seq<TypeId>) {
    forall i, j | 0 <= i < j < |live| :: live[i] != live[j]
  }

  /** The first live type with its unfolding. */
  ghost predicate First(r: Resolve, live: seq<TypeId>, i: nat)
    requires r.Valid() && i < |live| && forall id | id in live :: r.Has(id)
  {
    forall j | 0 <= j < i :: Unfold(r, live[j]) != Unfold(r, live[i])
  }

  /** Two live types that end up in one class: they are equal, and each may alias another
      type or is the first of its kind. */
  ghost predicate Together(r: Resolve, live: seq<TypeId>, mayAlias: TypeId -> bool, i: nat, j: nat)
    requires r.Valid() && i < |live| && j < |live| && forall id | id in live :: r.Has(id)
  {
    && Unfold(r, live[i]) == Unfold(r, live[j])
    && (mayAlias(live[i]) || First(r, live, i))
    && (mayAlias(live[j]) || First(r, live, j))
  }

  /** The classes once the first `n` live types have been looked at. */
  ghost predicate Collected(r: Resolve, live: seq<TypeId>, mayAlias: TypeId -> bool, n: nat, p: map<TypeId, TypeId>)
    requires r.Valid() && Descending(p) && forall id | id in live :: r.Has(id)
  {
    && (forall i, j | 0 <= i < |live| && 0 <= j < |live| ::
          Same(p, live[i], live[j]) <==> i == j || (i < n && j < n && Together(r, live, mayAlias, i, j)))
    && (forall x, y | Same(p, x, y) && x != y :: x in live && y in live)
  }

  lemma StartCollecting(r: Resolve, live: seq<TypeId>, mayAlias: TypeId -> bool)
    requires r.Valid() && Distinct(live) && forall id | id in live :: r.Has(id)
    ensures Collected(r, live, mayAlias, 0, map[])
  {
    hide Unfold;
    assert forall x: TypeId :: Root(map[], x) == x;
  }

  lemma CollectedStill(r: Resolve, live: seq<TypeId>, mayAlias: TypeId -> bool, n: nat, p: map<TypeId, TypeId>, q: map<TypeId, TypeId>)
    requires r.Valid() && Descending(p) && Descending(q) && SameClasses(p, q) && forall id | id in live :: r.Has(id)
    requires Collected(r, live, mayAlias, n, p)
    ensures Collected(r, live, mayAlias, n, q)
  {
    hide Unfold, Together;
    assert forall x, y :: Same(p, x, y) <==> Same(q, x, y);
  }

  lemma BackFaithful(r: Resolve, p: map<TypeId, TypeId>, q: map<TypeId, TypeId>)
    requires r.Valid() && Descending(p) && Descending(q) && SameClasses(p, q)
    ensures Faithful(r, p) <==> Faithful(r, q)
  {
    hide Unfold;
    assert forall x, y :: Same(p, x, y) <==> Same(q, x, y);
  }

  lemma StaysAlone(r: Resolve, live: seq<TypeId>, mayAlias: TypeId -> bool, i: nat, p: map<TypeId, TypeId>)
    requires r.Valid() && Descending(p) && (forall id | id in live :: r.Has(id)) && i < |live| && !mayAlias(live[i])
    requires Collected(r, live, mayAlias, i, p)
    ensures Collected(r, live, mayAlias, i + 1, p)
  {
    hide Unfold;
  }

  lemma FoundNone(r: Resolve, live: seq<TypeId>, mayAlias: TypeId -> bool, i: nat, p: map<TypeId, TypeId>)
    requires r.Valid() && Descending(p) && (forall id | id in live :: r.Has(id)) && i < |live|
    requires Collected(r, live, mayAlias, i, p)
    requires forall h | 0 <= h < i && Unfold(r, live[h]) == Unfold(r, live[i]) :: Same(p, live[i], live[h])
    ensures Collected(r, live, mayAlias, i + 1, p)
  {
    hide Unfold;
    assert First(r, live, i);
  }

  /** The relation after merging the classes of `a` and `b`. */
  ghost predicate Merged(p: map<TypeId, TypeId>, q: map<TypeId, TypeId>, a: TypeId, b: TypeId)
    requires Descending(p) && Descending(q)
  {
    forall x, y :: Same(q, x, y) <==>
      || Same(p, x, y)
      || (Same(p, x, a) && Same(p, b, y))
      || (Same(p, x, b) && Same(p, a, y))
  }

  lemma UnionFaithful(r: Resolve, p: map<TypeId, TypeId>, q: map<TypeId, TypeId>, a: TypeId, b: TypeId)
    requires r.Valid() && Descending(p) && Descending(q) && Faithful(r, p) && r.Has(a) && r.Has(b)
    requires Unfold(r, a) == Unfold(r, b) && Merged(p, q, a, b)
    ensures Faithful(r, q)
  {
    hide Unfold;
  }

  lemma JoinsFirst(r: Resolve, live: seq<TypeId>, mayAlias: TypeId -> bool, i: nat, e: nat,
                   was: map<TypeId, TypeId>, now: map<TypeId, TypeId>, q: map<TypeId, TypeId>)
    requires r.Valid() && Descending(was) && Descending(now) && Descending(q) && (forall id | id in live :: r.Has(id))
    requires e < i < |live| && mayAlias(live[i]) && Distinct(live)
    requires Collected(r, live, mayAlias, i, was) && SameClasses(was, now) && Merged(now, q, live[i], live[e])
    requires Unfold(r, live[i]) == Unfold(r, live[e])
    requires forall h | 0 <= h < e && Unfold(r, live[h]) == Unfold(r, live[i]) :: Same(was, live[i], live[h])
    ensures Collected(r, live, mayAlias, i + 1, q)
  {
    hide Unfold, Collected, Merged, Together, First, Distinct;
    CollectedStill(r, live, mayAlias, i, was, now);
    IsFirst(r, live, mayAlias, i, e, was);
    forall j, k | 0 <= j < |live| && 0 <= k < |live|
      ensures Same(q, live[j], live[k]) <==> j == k || (j < i + 1 && k < i + 1 && Together(r, live, mayAlias, j, k))
    {
      JoinedPair(r, live, mayAlias, i, e, now, q, j, k);
    }
    JoinedMembers(r, live, mayAlias, i, e, now, q);
    assert Collected(r, live, mayAlias, i + 1, q) by { Gather(r, live, mayAlias, i + 1, q); }
  }

  lemma Gather(r: Resolve, live: seq<TypeId>, mayAlias: TypeId -> bool, n: nat, p: map<TypeId, TypeId>)
    requires r.Valid() && Descending(p) && forall id | id in live :: r.Has(id)
    requires forall i, j | 0 <= i < |live| && 0 <= j < |live| ::
               Same(p, live[i], live[j]) <==> i == j || (i < n && j < n && Together(r, live, mayAlias, i, j))
    requires forall x, y | Same(p, x, y) && x != y :: x in live && y in live
    ensures Collected(r, live, mayAlias, n, p)
  {
    hide Unfold, Together;
  }

  lemma IsFirst(r: Resolve, live: seq<TypeId>, mayAlias: TypeId -> bool, i: nat, e: nat, was: map<TypeId, TypeId>)
    requires r.Valid() && Descending(was) && (forall id | id in live :: r.Has(id))
    requires e < i < |live| && Collected(r, live, mayAlias, i, was) && Unfold(r, live[i]) == Unfold(r, live[e])
    requires forall h | 0 <= h < e && Unfold(r, live[h]) == Unfold(r, live[i]) :: Same(was, live[i], live[h])
    ensures First(r, live, e)
  {
    hide Unfold, Together;
    forall h | 0 <= h < e ensures Unfold(r, live[h]) != Unfold(r, live[e]) {
      assert !Same(was, live[i], live[h]);
    }
  }

  lemma JoinedPair(r: Resolve, live: seq<TypeId>, mayAlias: TypeId -> bool, i: nat, e: nat,
                   p: map<TypeId, TypeId>, q: map<TypeId, TypeId>, j: nat, k: nat)
    requires r.Valid() && Descending(p) && Descending(q) && (forall id | id in live :: r.Has(id))
    requires e < i < |live| && mayAlias(live[i]) && First(r, live, e) && Unfold(r, live[i]) == Unfold(r, live[e])
    requires Collected(r, live, mayAlias, i, p) && Merged(p, q, live[i], live[e]) && j < |live| && k < |live|
    ensures Same(q, live[j], live[k]) <==> j == k || (j < i + 1 && k < i + 1 && Together(r, live, mayAlias, j, k))
  {
    hide Unfold, First, Together;
    assert Same(p, live[j], live[i]) <==> i == j;
    assert Same(p, live[i], live[k]) <==> i == k;
    assert Same(p, live[e], live[k]) <==> e == k || (k < i && Together(r, live, mayAlias, e, k));
    assert Same(p, live[j], live[e]) <==> e == j || (j < i && Together(r, live, mayAlias, j, e));
    assert Same(p, live[j], live[k]) <==> j == k || (j < i && k < i && Together(r, live, mayAlias, j, k));
    TogetherLike(r, live, mayAlias, i, e, k);
    TogetherLike(r, live, mayAlias, i, e, j);
  }

  /** The newcomer is together with exactly those that `e` is together with. */
  lemma TogetherLike(r: Resolve, live: seq<TypeId>, mayAlias: TypeId -> bool, i: nat, e: nat, k: nat)
    requires r.Valid() && (forall id | id in live :: r.Has(id)) && e < |live| && i < |live| && k < |live|
    requires mayAlias(live[i]) && First(r, live, e) && Unfold(r, live[i]) == Unfold(r, live[e])
    ensures Together(r, live, mayAlias, i, k) <==> Together(r, live, mayAlias, e, k)
    ensures Together(r, live, mayAlias, k, i) <==> Together(r, live, mayAlias, k, e)
    ensures Together(r, live, mayAlias, e, e)
    ensures Together(r, live, mayAlias, i, k) <==> Together(r, live, mayAlias, k, i)
  {
    hide Unfold, First;
  }

  lemma JoinedMembers(r: Resolve, live: seq<TypeId>, mayAlias: TypeId -> bool, i: nat, e: nat, p: map<TypeId, TypeId>, q: map<TypeId, TypeId>)
    requires r.Valid() && Descending(p) && Descending(q) && (forall id | id in live :: r.Has(id))
    requires e < i < |live| && Collected(r, live, mayAlias, i, p) && Merged(p, q, live[i], live[e])
    ensures forall x, y | Same(q, x, y) && x != y :: x in live && y in live
  {
    hide Unfold, Together;
    forall x, y | Same(q, x, y) && x != y ensures x in live && y in live {
      if !Same(p, x, y) {
        assert live[i] in live && live[e] in live;
      }
    }
  }

  lemma StillFaithful(r: Resolve, p: map<TypeId, TypeId>, q: map<TypeId, TypeId>)
    requires r.Valid() && Descending(p) && Descending(q) && Faithful(r, p) && SameClasses(p, q)
    ensures Faithful(r, q)
  {
    hide Unfold;
    forall a, b | r.Has(a) && r.Has(b) && Same(q, a, b) ensures Unfold(r, a) == Unfold(r, b) {
      assert Same(p, a, b);
    }
  }

  lemma SameUnfolds(r: Resolve, p: map<TypeId, TypeId>, a: TypeId, b: TypeId)
    requires r.Valid() && Descending(p) && Faithful(r, p) && r.Has(a) && r.Has(b) && Root(p, a) == Root(p, b)
    ensures Unfold(r, a) == Unfold(r, b)
  {
    hide Unfold;
    assert Same(p, a, b);
  }

  lemma AliasUnfolds(r: Resolve, a: TypeId)
    requires r.Valid() && r.Has(a) && r.kinds[a].Alias?
    ensures r.Known(r.kinds[a].ty) && r.Height(r.kinds[a].ty) <= r.rank[a] && Unfold(r, a) == UnfoldType(r, r.kinds[a].ty)
  {
    hide UnfoldType;
    assert r.kinds[a].ty in Refs(r.kinds[a]);
  }

  /** What the smaller kinds unfold to, and that their parts are of smaller height. */
  lemma UnfoldsTo(r: Resolve, a: TypeId)
    requires r.Valid() && r.Has(a)
    ensures var k := r.kinds[a]; k.Optional? || k.List? || k.FixedLengthList? ==> r.Known(k.ty) && r.Height(k.ty) <= r.rank[a]
    ensures var k := r.kinds[a]; k.Map? ==> r.Known(k.key) && r.Height(k.key) <= r.rank[a] && r.Known(k.value) && r.Height(k.value) <= r.rank[a]
    ensures var k := r.kinds[a]; (k.Future? || k.Stream?) && k.payload.Some? ==> r.Known(k.payload.value) && r.Height(k.payload.value) <= r.rank[a]
    ensures var k := r.kinds[a]; k.Result? && k.okTy.Some? ==> r.Known(k.okTy.value) && r.Height(k.okTy.value) <= r.rank[a]
    ensures var k := r.kinds[a]; k.Result? && k.errTy.Some? ==> r.Known(k.errTy.value) && r.Height(k.errTy.value) <= r.rank[a]
    ensures var k := r.kinds[a]; k.Handle? ==> r.Has(k.resource) && r.rank[k.resource] < r.rank[a]
    ensures var k := r.kinds[a];
            && (k.Resource? ==> Unfold(r, a) == ResourceShape(a))
            && (k.Handle? ==> Unfold(r, a) == HandleShape(k.hk, Unfold(r, k.resource)))
            && (k.Flags? ==> Unfold(r, a) == FlagsShape(k.flags))
            && (k.Enum? ==> Unfold(r, a) == EnumShape(k.names))
            && (k.Optional? ==> Unfold(r, a) == OptionShape(UnfoldType(r, k.ty)))
            && (k.List? ==> Unfold(r, a) == ListShape(UnfoldType(r, k.ty)))
            && (k.FixedLengthList? ==> Unfold(r, a) == FixedShape(UnfoldType(r, k.ty), k.size))
            && (k.Map? ==> Unfold(r, a) == MapShape(UnfoldType(r, k.key), UnfoldType(r, k.value)))
            && (k.Result? ==> Unfold(r, a) == ResultShape(OptShape(r, k.okTy, r.rank[a]), OptShape(r, k.errTy, r.rank[a])))
            && (k.Future? ==> Unfold(r, a) == FutureShape(OptShape(r, k.payload, r.rank[a])))
            && (k.Stream? ==> Unfold(r, a) == StreamShape(OptShape(r, k.payload, r.rank[a])))
  {
    hide UnfoldType, OptShape, Shapes, PayloadShapes, FieldTypes, CaseTypes;
    RefsUnder(r, a);
    PartsAreRefs(r.kinds[a]);
  }

  lemma PartsAreRefs(k: Kind)
    ensures k.Optional? || k.List? || k.FixedLengthList? ==> k.ty in Refs(k)
    ensures k.Map? ==> k.key in Refs(k) && k.value in Refs(k)
    ensures (k.Future? || k.Stream?) && k.payload.Some? ==> k.payload.value in Refs(k)
    ensures k.Result? && k.okTy.Some? ==> k.okTy.value in Refs(k)
    ensures k.Result? && k.errTy.Some? ==> k.errTy.value in Refs(k)
    ensures k.Handle? ==> Id(k.resource) in Refs(k)
  {
    hide FieldTypes, CaseTypes;
    if k.Result? && k.okTy.Some? { assert k.okTy.value in Present(k.okTy); }
    if k.Result? && k.errTy.Some? { assert k.errTy.value in Present(k.errTy); }
  }
}
