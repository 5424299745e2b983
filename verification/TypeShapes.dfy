/** When two definitions unfold to the same shape, constructor by constructor. */
module TypeShapes {
  import opened Wrappers
  import opened UnionFind
  import opened TypeGraph

  function KindTag(k: Kind): nat {
    match k
    case Record(_) => 1
    case Resource => 2
    case Handle(_, _) => 3
    case Flags(_) => 4
    case Tuple(_) => 5
    case Variant(_) => 6
    case Enum(_) => 7
    case Optional(_) => 8
    case Result(_, _) => 9
    case List(_) => 10
    case Map(_, _) => 11
    case FixedLengthList(_, _) => 12
    case Future(_) => 13
    case Stream(_) => 14
    case Alias(_) => 15
  }

  function ShapeTag(s: Shape): nat {
    match s
    case PrimShape(_) => 0
    case RecordShape(_, _) => 1
    case ResourceShape(_) => 2
    case HandleShape(_, _) => 3
    case FlagsShape(_) => 4
    case TupleShape(_) => 5
    case VariantShape(_, _) => 6
    case EnumShape(_) => 7
    case OptionShape(_) => 8
    case ResultShape(_, _) => 9
    case ListShape(_) => 10
    case MapShape(_, _) => 11
    case FixedShape(_, _) => 12
    case FutureShape(_) => 13
    case StreamShape(_) => 14
  }

  lemma TagKept(r: Resolve, id: TypeId)
    requires r.Valid() && r.Has(id) && !r.kinds[id].Alias?
    ensures ShapeTag(Unfold(r, id)) == KindTag(r.kinds[id])
  {
    hide UnfoldType, Shapes, OptShape, PayloadShapes;
  }

  /** Definitions of different kinds are never equal. */
  lemma TagsDiffer(r: Resolve, a: TypeId, b: TypeId)
    requires r.Valid() && r.Has(a) && r.Has(b) && !r.kinds[a].Alias? && !r.kinds[b].Alias?
    requires KindTag(r.kinds[a]) != KindTag(r.kinds[b])
    ensures Unfold(r, a) != Unfold(r, b)
  {
    hide Unfold;
    TagKept(r, a);
    TagKept(r, b);
  }

  predicate FieldsMatch(r: Resolve, fa: seq<Field>, fb: seq<Field>)
    requires r.Valid() && |fa| == |fb|
    requires forall i | 0 <= i < |fa| :: r.Known(fa[i].ty) && r.Known(fb[i].ty)
  {
    forall i | 0 <= i < |fa| :: fa[i].name == fb[i].name && UnfoldType(r, fa[i].ty) == UnfoldType(r, fb[i].ty)
  }

  lemma FieldsKnown(r: Resolve, fs: seq<Field>, h: nat)
    requires Under(r, FieldTypes(fs), h)
    ensures forall i | 0 <= i < |fs| :: r.Known(fs[i].ty) && r.Height(fs[i].ty) <= h
  {
    hide FieldTypes, Refs, Resolve.Height;
    var ts := FieldTypes(fs);
    forall i | 0 <= i < |fs| ensures r.Known(fs[i].ty) && r.Height(fs[i].ty) <= h {
      assert ts[i] in ts && ts[i] == fs[i].ty;
    }
  }

  lemma RecordsMatch(r: Resolve, a: TypeId, b: TypeId)
    requires r.Valid() && r.Has(a) && r.Has(b) && r.kinds[a].Record? && r.kinds[b].Record?
    ensures forall i | 0 <= i < |r.kinds[a].fields| :: r.Known(r.kinds[a].fields[i].ty) && r.Height(r.kinds[a].fields[i].ty) <= r.rank[a]
    ensures forall i | 0 <= i < |r.kinds[b].fields| :: r.Known(r.kinds[b].fields[i].ty) && r.Height(r.kinds[b].fields[i].ty) <= r.rank[b]
    ensures Unfold(r, a) == Unfold(r, b) <==>
              |r.kinds[a].fields| == |r.kinds[b].fields| && FieldsMatch(r, r.kinds[a].fields, r.kinds[b].fields)
  {
    hide Unfold, UnfoldType, Resolve.Height;
    RecordUnfolds(r, a);
    RecordUnfolds(r, b);
    var fa, fb := r.kinds[a].fields, r.kinds[b].fields;
    var sa, sb := Unfold(r, a), Unfold(r, b);
    if |fa| == |fb| && FieldsMatch(r, fa, fb) {
      assert sa.names == sb.names && sa.shapes == sb.shapes;
    }
  }

  /** What a record unfolds to, field by field. */
  lemma RecordUnfolds(r: Resolve, a: TypeId)
    requires r.Valid() && r.Has(a) && r.kinds[a].Record?
    ensures var fs := r.kinds[a].fields;
            && (forall i | 0 <= i < |fs| :: r.Known(fs[i].ty) && r.Height(fs[i].ty) <= r.rank[a])
            && var s := Unfold(r, a);
               && s.RecordShape? && |s.names| == |s.shapes| == |fs|
               && forall i | 0 <= i < |fs| :: s.names[i] == fs[i].name && s.shapes[i] == UnfoldType(r, fs[i].ty)
  {
    hide UnfoldType, FieldTypes, Resolve.Height;
    RefsUnder(r, a);
    FieldsKnown(r, r.kinds[a].fields, r.rank[a]);
  }

  predicate TypesMatch(r: Resolve, ta: seq<Type>, tb: seq<Type>)
    requires r.Valid() && |ta| == |tb|
    requires forall i | 0 <= i < |ta| :: r.Known(ta[i]) && r.Known(tb[i])
  {
    forall i | 0 <= i < |ta| :: UnfoldType(r, ta[i]) == UnfoldType(r, tb[i])
  }

  lemma TuplesMatch(r: Resolve, a: TypeId, b: TypeId)
    requires r.Valid() && r.Has(a) && r.Has(b) && r.kinds[a].Tuple? && r.kinds[b].Tuple?
    ensures forall i | 0 <= i < |r.kinds[a].types| :: r.Known(r.kinds[a].types[i]) && r.Height(r.kinds[a].types[i]) <= r.rank[a]
    ensures forall i | 0 <= i < |r.kinds[b].types| :: r.Known(r.kinds[b].types[i]) && r.Height(r.kinds[b].types[i]) <= r.rank[b]
    ensures Unfold(r, a) == Unfold(r, b) <==>
              |r.kinds[a].types| == |r.kinds[b].types| && TypesMatch(r, r.kinds[a].types, r.kinds[b].types)
  {
    hide UnfoldType;
    var ta, tb := r.kinds[a].types, r.kinds[b].types;
    RefsUnder(r, a);
    RefsUnder(r, b);
    var sa, sb := Unfold(r, a), Unfold(r, b);
    assert |sa.shapes| == |ta| && |sb.shapes| == |tb|;
    if |ta| == |tb| && TypesMatch(r, ta, tb) {
      assert sa.shapes == sb.shapes;
    }
  }

  /** Two optional types: both absent, or both present and equal. */
  predicate OptMatch(r: Resolve, a: Option<Type>, b: Option<Type>)
    requires r.Valid() && (a.Some? ==> r.Known(a.value)) && (b.Some? ==> r.Known(b.value))
  {
    if a.Some? && b.Some? then UnfoldType(r, a.value) == UnfoldType(r, b.value) else a.None? && b.None?
  }

  predicate CasesMatch(r: Resolve, ca: seq<Case>, cb: seq<Case>)
    requires r.Valid() && |ca| == |cb|
    requires forall i | 0 <= i < |ca| :: (ca[i].ty.Some? ==> r.Known(ca[i].ty.value)) && (cb[i].ty.Some? ==> r.Known(cb[i].ty.value))
  {
    forall i | 0 <= i < |ca| :: ca[i].name == cb[i].name && OptMatch(r, ca[i].ty, cb[i].ty)
  }

  lemma VariantsMatch(r: Resolve, a: TypeId, b: TypeId)
    requires r.Valid() && r.Has(a) && r.Has(b) && r.kinds[a].Variant? && r.kinds[b].Variant?
    ensures PayloadsFit(r, r.kinds[a].cases, r.rank[a]) && PayloadsFit(r, r.kinds[b].cases, r.rank[b])
    ensures Unfold(r, a) == Unfold(r, b) <==>
              |r.kinds[a].cases| == |r.kinds[b].cases| && CasesMatch(r, r.kinds[a].cases, r.kinds[b].cases)
  {
    hide UnfoldType, CaseTypes;
    var ca, cb := r.kinds[a].cases, r.kinds[b].cases;
    RefsUnder(r, a);
    RefsUnder(r, b);
    PayloadsUnder(r, ca, r.rank[a]);
    PayloadsUnder(r, cb, r.rank[b]);
    var sa, sb := Unfold(r, a), Unfold(r, b);
    assert |sa.names| == |sa.payloads| == |ca| && |sb.names| == |sb.payloads| == |cb|;
    assert forall i | 0 <= i < |ca| :: sa.names[i] == ca[i].name && sa.payloads[i] == OptShape(r, ca[i].ty, r.rank[a]);
    assert forall i | 0 <= i < |cb| :: sb.names[i] == cb[i].name && sb.payloads[i] == OptShape(r, cb[i].ty, r.rank[b]);
    if |ca| == |cb| && CasesMatch(r, ca, cb) {
      assert sa.names == sb.names && sa.payloads == sb.payloads;
    }
    if sa == sb {
      forall i | 0 <= i < |ca| ensures ca[i].name == cb[i].name && OptMatch(r, ca[i].ty, cb[i].ty) {
        assert sa.payloads[i] == sb.payloads[i];
      }
    }
  }
}
