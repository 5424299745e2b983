/** Flat lowering yields words of the flattened types, and widening a case's words
    to the shared payload slots loses nothing. */
module AbiFlat {
  import opened Wrappers
  import opened CoreTypes
  import opened Layout
  import opened Memory
  import opened Values
  import opened CanonicalAbi

  /** `xs` are words of the types `ts`. */
  predicate Typed(xs: seq<Core>, ts: seq<WasmType>, p: PtrSize) {
    |xs| == |ts| && forall i | 0 <= i < |xs| :: xs[i].ty == ts[i] && xs[i].Valid(p)
  }

  lemma TypedConcat(xs: seq<Core>, ys: seq<Core>, a: seq<WasmType>, b: seq<WasmType>, p: PtrSize)
    requires Typed(xs, a, p) && Typed(ys, b, p)
    ensures Typed(xs + ys, a + b, p)
  {
  }

  /** The words of `xs` read at the first slots of `to`. */
  function Retyped(to: seq<WasmType>, xs: seq<Core>): (ys: seq<Core>)
    requires |xs| <= |to|
    ensures |ys| == |xs|
  {
    seq(|xs|, i requires 0 <= i < |xs| => Core(to[i], xs[i].bits))
  }

  lemma {:induction false} CastsPointwise(cs: seq<Bitcast>, xs: seq<Core>, ys: seq<Core>, p: PtrSize)
    requires |cs| == |xs| == |ys|
    requires forall i | 0 <= i < |cs| :: ApplyCast(cs[i], xs[i], p) == Ok(ys[i])
    ensures ApplyCasts(cs, xs, p) == Ok(ys)
  {
    hide ApplyCast;
    if cs != [] {
      assert ApplyCast(cs[0], xs[0], p) == Ok(ys[0]);
      forall i | 0 <= i < |cs[1..]| ensures ApplyCast(cs[1..][i], xs[1..][i], p) == Ok(ys[1..][i]) {
        assert ApplyCast(cs[i + 1], xs[i + 1], p) == Ok(ys[i + 1]);
      }
      CastsPointwise(cs[1..], xs[1..], ys[1..], p);
      assert ys == [ys[0]] + ys[1..];
    }
  }

  lemma CastsRoundTrip(from: seq<WasmType>, to: seq<WasmType>, xs: seq<Core>, p: PtrSize)
    requires Below(from, to) && Typed(xs, from, p)
    ensures ApplyCasts(CastsUp(from, to), xs, p) == Ok(Retyped(to, xs))
    ensures ApplyCasts(CastsDown(from, to), Retyped(to, xs), p) == Ok(xs)
    ensures Typed(Retyped(to, xs), to[..|from|], p)
  {
    hide ApplyCast, ApplyCasts, Cast, Leq, Modulus;
    var up, down, ys := CastsUp(from, to), CastsDown(from, to), Retyped(to, xs);
    forall i | 0 <= i < |from|
      ensures ApplyCast(up[i], xs[i], p) == Ok(ys[i])
      ensures ApplyCast(down[i], ys[i], p) == Ok(xs[i])
      ensures ys[i].ty == to[i] && ys[i].Valid(p)
    {
      CastRoundTrip(from[i], to[i], xs[i], p);
    }
    CastsPointwise(up, xs, ys, p);
    CastsPointwise(down, ys, xs, p);
  }

  /** Every case produces the same words, whatever its own payload needs, and its
      own words can be recovered from them. */
  lemma WidenRoundTrip(p: PtrSize, from: seq<WasmType>, to: seq<WasmType>, xs: seq<Core>)
    requires Below(from, to) && Typed(xs, from, p)
    ensures Widen(p, from, to, xs).Ok?
    ensures var ys := Widen(p, from, to, xs).value;
            Typed(ys, to, p) && ApplyCasts(CastsDown(from, to), ys[..|from|], p) == Ok(xs)
  {
    hide ApplyCasts, CastsUp, CastsDown;
    CastsRoundTrip(from, to, xs, p);
    var zs := Zeros(to[|from|..]);
    var ys := Widen(p, from, to, xs).value;
    assert ys == Retyped(to, xs) + zs;
    assert ys[..|from|] == Retyped(to, xs);
    assert to == to[..|from|] + to[|from|..];
    TypedConcat(Retyped(to, xs), zs, to[..|from|], to[|from|..], p);
  }

  // ----- the words of a lowered value -----

  /** Flat lowering leaves exactly the words that flattening announces. */
  lemma {:induction false} LowerTyped(c: Cfg, t: Ty, v: Val, w: World)
    requires WellFormed(t) && HasType(c.p, t, v) && LowerFlat(c, t, v, w).Ok?
    ensures Typed(LowerFlat(c, t, v, w).value.flat, Flat(t), c.p)
    decreases t, 2
  {
    match t
    case Scalar(s) => ScalarFlat(s, v.n, c.p);
    case Alias(u) => LowerTyped(c, u, v, w);
    case Str | List(_) | Map(_) => BufferValid(c, t, v, w);
    case FixedList(e, n) => LowerRepeatTyped(c, e, v.elems, w);
    case Record(_, fs) => LowerFieldsTyped(c, fs, v.fields, w);
    case Flags(n) => FlagsTyped(c.p, v.bits);
    case Enum(n) =>
    case Variant(k, arms) => LowerVariantTyped(c, k, arms, v, w);
  }

  lemma {:induction false} LowerVariantTyped(c: Cfg, k: VariantKind, arms: seq<Option<Ty>>, v: Val, w: World)
    requires var t := Variant(k, arms); WellFormed(t) && HasType(c.p, t, v) && LowerFlat(c, t, v, w).Ok?
    ensures Typed(LowerFlat(c, Variant(k, arms), v, w).value.flat, Flat(Variant(k, arms)), c.p)
    ensures Typed(LowerArm(c, arms[v.arm], v.payload, w).value.flat, FlatArm(arms[v.arm]), c.p)
    decreases arms, 1
  {
    hide Widen, LowerFlat;
    var arm := arms[v.arm];
    assert arm in arms;
    assert LowerArm(c, arm, v.payload, w).Ok? by { VariantParts(c, k, arms, v, w); }
    if arm.Some? {
      LowerTyped(c, arm.value, v.payload.value, w);
    }
    ArmBelow(arms, v.arm);
    var xs := LowerArm(c, arm, v.payload, w).value.flat;
    WidenRoundTrip(c.p, FlatArm(arm), FlatArms(arms), xs);
    VariantParts(c, k, arms, v, w);
    TypedConcat([Core(I32, v.arm)], Widen(c.p, FlatArm(arm), FlatArms(arms), xs).value, [I32], FlatArms(arms), c.p);
  }

  lemma VariantParts(c: Cfg, k: VariantKind, arms: seq<Option<Ty>>, v: Val, w: World)
    requires v.VariantV? && v.arm < |arms| && LowerFlat(c, Variant(k, arms), v, w).Ok?
    ensures LowerArm(c, arms[v.arm], v.payload, w).Ok?
    ensures Below(FlatArm(arms[v.arm]), FlatArms(arms))
    ensures var r := LowerArm(c, arms[v.arm], v.payload, w).value;
            var ys := Widen(c.p, FlatArm(arms[v.arm]), FlatArms(arms), r.flat);
            ys.Ok? && LowerFlat(c, Variant(k, arms), v, w).value == Lowered([Core(I32, v.arm)] + ys.value, r.w)
  {
    ArmBelow(arms, v.arm);
  }

  lemma WidenBits(p: PtrSize, from: seq<WasmType>, to: seq<WasmType>, xs: seq<Core>)
    requires Below(from, to) && Typed(xs, from, p)
    ensures var ys := Widen(p, from, to, xs);
            && ys.Ok? && |xs| <= |ys.value| == |to|
            && (forall i | 0 <= i < |xs| :: ys.value[i].bits == xs[i].bits)
            && forall i | |xs| <= i < |to| :: ys.value[i].bits == 0
  {
    hide ApplyCasts, CastsUp, CastsDown;
    CastsRoundTrip(from, to, xs, p);
    assert Widen(p, from, to, xs).value == Retyped(to, xs) + Zeros(to[|from|..]);
  }

  /** A lowered variant begins with its case; the words of the payload follow with their
      bits, and the slots that the case does not need are zero. */
  lemma VariantWords(c: Cfg, k: VariantKind, arms: seq<Option<Ty>>, v: Val, w: World)
    requires var t := Variant(k, arms); WellFormed(t) && HasType(c.p, t, v) && LowerFlat(c, t, v, w).Ok?
    ensures LowerArm(c, arms[v.arm], v.payload, w).Ok?
    ensures var flat, own := LowerFlat(c, Variant(k, arms), v, w).value.flat, LowerArm(c, arms[v.arm], v.payload, w).value.flat;
            && |own| < |flat| && flat[0] == Core(I32, v.arm)
            && (forall i | 0 <= i < |own| :: flat[1 + i].bits == own[i].bits)
            && forall i | |own| < i < |flat| :: flat[i].bits == 0
  {
    hide Widen, LowerFlat, LowerArm, FlatArms, FlatArm, Typed, Below, WellFormed, HasType, JoinSeq;
    assert v.VariantV? && v.arm < |arms| by { VariantHas(c.p, k, arms, v); }
    LowerVariantTyped(c, k, arms, v, w);
    VariantParts(c, k, arms, v, w);
    var own := LowerArm(c, arms[v.arm], v.payload, w).value.flat;
    WidenBits(c.p, FlatArm(arms[v.arm]), FlatArms(arms), own);
    var ys := Widen(c.p, FlatArm(arms[v.arm]), FlatArms(arms), own).value;
    assert LowerFlat(c, Variant(k, arms), v, w).value.flat == [Core(I32, v.arm)] + ys;
  }

  lemma VariantHas(p: PtrSize, k: VariantKind, arms: seq<Option<Ty>>, v: Val)
    requires HasType(p, Variant(k, arms), v)
    ensures v.VariantV? && v.arm < |arms|
  {
  }

  lemma FlagsTyped(p: PtrSize, bits: seq<bool>)
    ensures Typed(I32s(ToWords(bits)), Flat(Flags(|bits|)), p)
  {
    hide ToWords, FlagWords;
    var ws := ToWords(bits);
    var ts := Flat(Flags(|bits|));
    WordsFit(bits);
    FlagWordsAreInts(|bits|);
    forall i | 0 <= i < |ws| ensures I32s(ws)[i].ty == ts[i] && I32s(ws)[i].Valid(p) {
      assert ws[i] in ws;
      assert I32s(ws)[i] == Core(I32, ws[i]) && ts[i] == I32;
    }
  }

  lemma FlagWordsAreInts(n: nat)
    ensures |Flat(Flags(n))| == FlagWords(n) && forall i | 0 <= i < FlagWords(n) :: Flat(Flags(n))[i] == I32
  {
  }

  lemma BufferValid(c: Cfg, t: Ty, v: Val, w: World)
    requires HasType(c.p, t, v) && StoreBuffer(c, t, v, w).Ok?
    ensures var b := StoreBuffer(c, t, v, w).value; b.ptr < PtrLimit(c.p) && b.len < PtrLimit(c.p)
  {
    match t
    case Str => AllocGrows(w, |v.bytes|, 1, c.p, c.own);
    case List(e) => AllocGrows(w, Times(|v.elems|, Size(c.p, e)), Align(c.p, e), c.p, c.own);
    case Map(e) => AllocGrows(w, Times(|v.elems|, Size(c.p, e)), Align(c.p, e), c.p, c.own);
    case _ =>
  }

  lemma {:induction false} LowerFieldsTyped(c: Cfg, fs: seq<Ty>, vs: seq<Val>, w: World)
    requires |vs| == |fs| && LowerFields(c, fs, vs, w).Ok?
    requires forall f | f in fs :: WellFormed(f)
    requires forall i | 0 <= i < |fs| :: HasType(c.p, fs[i], vs[i])
    ensures Typed(LowerFields(c, fs, vs, w).value.flat, FlatFields(fs), c.p)
    decreases fs, 0
  {
    hide LowerFlat, HasType, Flat, Core.Valid, WellFormed;
    if fs != [] {
      var r := LowerFlat(c, fs[0], vs[0], w).value;
      LowerTyped(c, fs[0], vs[0], w);
      LowerFieldsTyped(c, fs[1..], vs[1..], r.w);
      TypedConcat(r.flat, LowerFields(c, fs[1..], vs[1..], r.w).value.flat, Flat(fs[0]), FlatFields(fs[1..]), c.p);
    }
  }

  lemma {:induction false} LowerRepeatTyped(c: Cfg, e: Ty, vs: seq<Val>, w: World)
    requires WellFormed(e) && LowerRepeat(c, e, vs, w).Ok?
    requires forall x | x in vs :: HasType(c.p, e, x)
    ensures Typed(LowerRepeat(c, e, vs, w).value.flat, FlatRepeat(e, |vs|), c.p)
    decreases e, |vs| + 3
  {
    hide LowerFlat, HasType, Flat, Core.Valid, WellFormed;
    if vs != [] {
      var r := LowerFlat(c, e, vs[0], w).value;
      LowerTyped(c, e, vs[0], w);
      LowerRepeatTyped(c, e, vs[1..], r.w);
      TypedConcat(r.flat, LowerRepeat(c, e, vs[1..], r.w).value.flat, Flat(e), FlatRepeat(e, |vs| - 1), c.p);
    }
  }
}
