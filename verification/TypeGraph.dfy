/** WIT type definitions, which refer to each other by id, and their unfoldings. */
module TypeGraph {
  import opened Wrappers
  import opened UnionFind

  /** Builtin types, without their meaning: only whether two are the same matters. */
  datatype Primitive = Bool | U8 | U16 | U32 | U64 | S8 | S16 | S32 | S64 | F32 | F64 | Char | String | ErrorContext

  datatype Type = Prim(p: Primitive) | Id(id: TypeId)

  datatype Field = Field(name: string, ty: Type)
  datatype Case = Case(name: string, ty: Option<Type>)
  datatype HandleKind = OwnHandle | BorrowHandle

  datatype Kind =
    | Record(fields: seq<Field>)
    | Resource
    | Handle(hk: HandleKind, resource: TypeId)
    | Flags(flags: seq<string>)
    | Tuple(types: seq<Type>)
    | Variant(cases: seq<Case>)
    | Enum(names: seq<string>)
    | Optional(ty: Type)
    | Result(okTy: Option<Type>, errTy: Option<Type>)
    | List(ty: Type)
    | Map(key: Type, value: Type)
    | FixedLengthList(ty: Type, size: nat)
    | Future(payload: Option<Type>)
    | Stream(payload: Option<Type>)
    | Alias(ty: Type)

  /** `rank` witnesses that definitions are acyclic; `named` tells which have a name. */
  datatype Resolve = Resolve(kinds: seq<Kind>, named: seq<bool>, rank: seq<nat>) {
    predicate Has(id: TypeId) {
      id < |kinds|
    }

    /** Definitions refer only to existing definitions of smaller rank. */
    predicate Valid() {
      && |named| == |kinds| == |rank|
      && forall id, t | 0 <= id < |kinds| && t in Refs(kinds[id]) :: Known(t) && Height(t) <= rank[id]
    }

    predicate Known(t: Type) {
      t.Id? ==> Has(t.id)
    }

    function Height(t: Type): nat
      requires Known(t) && |rank| == |kinds|
    {
      if t.Id? then rank[t.id] + 1 else 0
    }
  }

  function Present(t: Option<Type>): seq<Type> {
    if t.Some? then [t.value] else []
  }

  function FieldTypes(fs: seq<Field>): (r: seq<Type>)
    ensures |r| == |fs| && forall i | 0 <= i < |fs| :: r[i] == fs[i].ty
  {
    if fs == [] then [] else [fs[0].ty] + FieldTypes(fs[1..])
  }

  function CaseTypes(cs: seq<Case>): (r: seq<Type>)
    ensures forall i | 0 <= i < |cs| && cs[i].ty.Some? :: cs[i].ty.value in r
  {
    if cs == [] then [] else Present(cs[0].ty) + CaseTypes(cs[1..])
  }

  /** The types that a definition mentions. */
  function Refs(k: Kind): seq<Type> {
    match k
    case Record(fs) => FieldTypes(fs)
    case Handle(_, id) => [Id(id)]
    case Tuple(ts) => ts
    case Variant(cs) => CaseTypes(cs)
    case Optional(t) => [t]
    case Result(ok, err) => Present(ok) + Present(err)
    case List(t) => [t]
    case Map(key, value) => [key, value]
    case FixedLengthList(t, _) => [t]
    case Future(t) => Present(t)
    case Stream(t) => Present(t)
    case Alias(t) => [t]
    case _ => []
  }

  /** A type with all ids replaced by what they stand for.  Aliases are peeled;
      resources stand for themselves. */
  datatype Shape =
    | PrimShape(p: Primitive)
    | RecordShape(names: seq<string>, shapes: seq<Shape>)
    | ResourceShape(id: TypeId)
    | HandleShape(hk: HandleKind, resource: Shape)
    | FlagsShape(names: seq<string>)
    | TupleShape(shapes: seq<Shape>)
    | VariantShape(names: seq<string>, payloads: seq<Option<Shape>>)
    | EnumShape(names: seq<string>)
    | OptionShape(shape: Shape)
    | ResultShape(ok: Option<Shape>, err: Option<Shape>)
    | ListShape(shape: Shape)
    | MapShape(key: Shape, value: Shape)
    | FixedShape(shape: Shape, size: nat)
    | FutureShape(payload: Option<Shape>)
    | StreamShape(payload: Option<Shape>)

  /** All types of `ts` can be unfolded below height `h`. */
  predicate Under(r: Resolve, ts: seq<Type>, h: nat) {
    r.Valid() && forall t | t in ts :: r.Known(t) && r.Height(t) <= h
  }

  lemma RefsUnder(r: Resolve, id: TypeId)
    requires r.Valid() && r.Has(id)
    ensures Under(r, Refs(r.kinds[id]), r.rank[id])
  {
  }

  function Unfold(r: Resolve, id: TypeId): Shape
    requires r.Valid() && r.Has(id)
    decreases r.rank[id] + 1, 0
  {
    RefsUnder(r, id);
    match r.kinds[id]
    case Record(fs) => RecordShape(seq(|fs|, i requires 0 <= i < |fs| => fs[i].name), Shapes(r, FieldTypes(fs), r.rank[id]))
    case Resource => ResourceShape(id)
    case Handle(hk, res) => assert Id(res) in Refs(r.kinds[id]); HandleShape(hk, Unfold(r, res))
    case Flags(names) => FlagsShape(names)
    case Tuple(ts) => TupleShape(Shapes(r, ts, r.rank[id]))
    case Variant(cs) =>
      PayloadsUnder(r, cs, r.rank[id]);
      VariantShape(seq(|cs|, i requires 0 <= i < |cs| => cs[i].name), PayloadShapes(r, cs, r.rank[id]))
    case Enum(names) => EnumShape(names)
    case Optional(t) => assert t in Refs(r.kinds[id]); OptionShape(UnfoldType(r, t))
    case Result(ok, err) =>
      assert ok.Some? ==> ok.value in Present(ok) && ok.value in Refs(r.kinds[id]);
      assert err.Some? ==> err.value in Present(err) && err.value in Refs(r.kinds[id]);
      ResultShape(OptShape(r, ok, r.rank[id]), OptShape(r, err, r.rank[id]))
    case List(t) => assert t in Refs(r.kinds[id]); ListShape(UnfoldType(r, t))
    case Map(key, value) =>
      assert key in Refs(r.kinds[id]) && value in Refs(r.kinds[id]);
      MapShape(UnfoldType(r, key), UnfoldType(r, value))
    case FixedLengthList(t, n) => assert t in Refs(r.kinds[id]); FixedShape(UnfoldType(r, t), n)
    case Future(t) => assert t.Some? ==> t.value in Refs(r.kinds[id]); FutureShape(OptShape(r, t, r.rank[id]))
    case Stream(t) => assert t.Some? ==> t.value in Refs(r.kinds[id]); StreamShape(OptShape(r, t, r.rank[id]))
    case Alias(t) => assert t in Refs(r.kinds[id]); UnfoldType(r, t)
  }

  function UnfoldType(r: Resolve, t: Type): Shape
    requires r.Valid() && r.Known(t)
    decreases r.Height(t), 1
  {
    if t.Prim? then PrimShape(t.p) else Unfold(r, t.id)
  }

  function Shapes(r: Resolve, ts: seq<Type>, h: nat): (s: seq<Shape>)
    requires Under(r, ts, h)
    ensures |s| == |ts| && forall i | 0 <= i < |ts| :: r.Known(ts[i]) && s[i] == UnfoldType(r, ts[i])
    decreases h, 2, |ts|
  {
    if ts == [] then [] else [UnfoldType(r, ts[0])] + Shapes(r, ts[1..], h)
  }

  function OptShape(r: Resolve, t: Option<Type>, h: nat): Option<Shape>
    requires r.Valid() && (t.Some? ==> r.Known(t.value) && r.Height(t.value) <= h)
    decreases h, 2
  {
    if t.Some? then Some(UnfoldType(r, t.value)) else None
  }

  predicate PayloadsFit(r: Resolve, cs: seq<Case>, h: nat) {
    r.Valid() && forall i | 0 <= i < |cs| && cs[i].ty.Some? :: r.Known(cs[i].ty.value) && r.Height(cs[i].ty.value) <= h
  }

  lemma PayloadsUnder(r: Resolve, cs: seq<Case>, h: nat)
    requires Under(r, CaseTypes(cs), h)
    ensures PayloadsFit(r, cs, h)
  {
  }

  function PayloadShapes(r: Resolve, cs: seq<Case>, h: nat): (s: seq<Option<Shape>>)
    requires PayloadsFit(r, cs, h)
    ensures |s| == |cs| && forall i | 0 <= i < |cs| :: s[i] == OptShape(r, cs[i].ty, h)
    decreases h, 3, |cs|
  {
    if cs == [] then [] else [OptShape(r, cs[0].ty, h)] + PayloadShapes(r, cs[1..], h)
  }

  /** Only aliases unfold to a builtin. */
  lemma NotPrimitive(r: Resolve, id: TypeId)
    requires r.Valid() && r.Has(id) && !r.kinds[id].Alias?
    ensures !Unfold(r, id).PrimShape?
  {
  }
}
