/** Flat lifting undoes flat lowering. */
module AbiLift {
  import opened Wrappers
  import opened CoreTypes
  import opened Layout
  import opened Memory
  import opened Values
  import opened CanonicalAbi
  import opened AbiFrame
  import opened AbiFlat
  import opened AbiRoundTrip

  /** `v` was lowered in `w`, and `m` still holds the buffers that this allocated. */
  ghost predicate LoweredInto(c: Cfg, t: Ty, v: Val, w: World, m: Mem) {
    && WellFormed(t) && HasType(c.p, t, v) && LowerFlat(c, t, v, w).Ok?
    && Keeps(w, LowerFlat(c, t, v, w).value.w, 0, 0, m)
  }

  /** Flat round trip, through nested variants whose slots are cast, shared and padded. */
  lemma {:induction false} LiftAfterLower(c: Cfg, t: Ty, v: Val, w: World, m: Mem)
    requires LoweredInto(c, t, v, w, m)
    ensures |LowerFlat(c, t, v, w).value.flat| == |Flat(t)|
    ensures LiftFlat(c.p, t, LowerFlat(c, t, v, w).value.flat, m) == Ok(v)
    decreases t, 2
  {
    hide Keeps, Grows, LoadBuffer, StoreBuffer, FromWords, ToWords;
    LowerTyped(c, t, v, w);
    match t
    case Scalar(s) => ScalarFlat(s, v.n, c.p);
    case Alias(u) => LiftAfterLower(c, u, v, w, m);
    case Str | List(_) | Map(_) => LoadBufferAfterStore(c, t, v, w, m);
    case FixedList(e, n) => LiftRepeatAfterLower(c, e, v.elems, w, m);
    case Record(_, fs) => LiftFieldsAfterLower(c, fs, v.fields, w, m);
    case Flags(n) => WordsRoundTrip(v.bits); assert Words(I32s(ToWords(v.bits))) == ToWords(v.bits);
    case Enum(n) =>
    case Variant(k, arms) => LiftVariantAfterLower(c, k, arms, v, w, m);
  }

  lemma {:induction false} LiftVariantAfterLower(c: Cfg, k: VariantKind, arms: seq<Option<Ty>>, v: Val, w: World, m: Mem)
    requires LoweredInto(c, Variant(k, arms), v, w, m)
    requires Typed(LowerFlat(c, Variant(k, arms), v, w).value.flat, Flat(Variant(k, arms)), c.p)
    ensures LiftFlat(c.p, Variant(k, arms), LowerFlat(c, Variant(k, arms), v, w).value.flat, m) == Ok(v)
    decreases arms, 1
  {
    hide Keeps, LowerFlat, Widen, ApplyCasts, CastsDown, HasType, WellFormed, Core.Valid;
    VariantTyped(c.p, k, arms, v);
    var arm := arms[v.arm];
    VariantParts(c, k, arms, v, w);
    LowerVariantTyped(c, k, arms, v, w);
    var r := LowerArm(c, arm, v.payload, w).value;
    var flat, slots := FlatArm(arm), FlatArms(arms);
    WidenRoundTrip(c.p, flat, slots, r.flat);
    var ys := Widen(c.p, flat, slots, r.flat).value;
    var xs := LowerFlat(c, Variant(k, arms), v, w).value.flat;
    assert xs[1..] == ys;
    LiftVariantStep(c.p, k, arms, xs, m);
    if arm.Some? {
      LiftAfterLower(c, arm.value, v.payload.value, w, m);
      assert LiftArm(c.p, arm, slots, ys, m) == Ok(v.payload);
    }
  }

  lemma LiftVariantStep(p: PtrSize, k: VariantKind, arms: seq<Option<Ty>>, xs: seq<Core>, m: Mem)
    requires |xs| == 1 + |FlatArms(arms)| && xs[0].ty == I32 && xs[0].bits < |arms|
    ensures |Flat(Variant(k, arms))| == |xs|
    ensures Below(FlatArm(arms[xs[0].bits]), FlatArms(arms))
    ensures var payload := LiftArm(p, arms[xs[0].bits], FlatArms(arms), xs[1..], m);
            payload.Ok? ==> LiftFlat(p, Variant(k, arms), xs, m) == Ok(VariantV(xs[0].bits, payload.value))
  {
    ArmBelow(arms, xs[0].bits);
  }

  lemma {:induction false} LiftFieldsAfterLower(c: Cfg, fs: seq<Ty>, vs: seq<Val>, w: World, m: Mem)
    requires |vs| == |fs| && LowerFields(c, fs, vs, w).Ok?
    requires forall f | f in fs :: WellFormed(f)
    requires forall i | 0 <= i < |fs| :: HasType(c.p, fs[i], vs[i])
    requires Keeps(w, LowerFields(c, fs, vs, w).value.w, 0, 0, m)
    ensures |LowerFields(c, fs, vs, w).value.flat| == |FlatFields(fs)|
    ensures LiftFields(c.p, fs, LowerFields(c, fs, vs, w).value.flat, m) == Ok(vs)
    decreases fs, 0
  {
    hide LowerFlat, LiftFlat, HasType, Flat, WellFormed, Keeps, Grows;
    LowerFieldsTyped(c, fs, vs, w);
    if fs != [] {
      var r := LowerFlat(c, fs[0], vs[0], w).value;
      var rest := LowerFields(c, fs[1..], vs[1..], r.w).value;
      LowerFrame(c, fs[0], vs[0], w);
      LowerFieldsFrame(c, fs[1..], vs[1..], r.w);
      SplitNone(w, r.w, rest.w, m);
      LiftAfterLower(c, fs[0], vs[0], w, m);
      LiftFieldsAfterLower(c, fs[1..], vs[1..], r.w, m);
      assert (r.flat + rest.flat)[..|r.flat|] == r.flat && (r.flat + rest.flat)[|r.flat|..] == rest.flat;
      assert vs == [vs[0]] + vs[1..];
    }
  }

  lemma SplitNone(w0: World, w1: World, w2: World, m: Mem)
    requires Grows(w0, w1, 0, 0) && Grows(w1, w2, 0, 0) && Keeps(w0, w2, 0, 0, m)
    ensures Keeps(w0, w1, 0, 0, m) && Keeps(w1, w2, 0, 0, m)
  {
    KeepsFirst(w0, w1, w2, 0, 0, 0, 0, 0, 0, m);
    KeepsSecond(w0, w1, w2, 0, 0, 0, 0, 0, 0, m);
  }

  lemma {:induction false} LiftRepeatAfterLower(c: Cfg, e: Ty, vs: seq<Val>, w: World, m: Mem)
    requires WellFormed(e) && LowerRepeat(c, e, vs, w).Ok?
    requires forall x | x in vs :: HasType(c.p, e, x)
    requires Keeps(w, LowerRepeat(c, e, vs, w).value.w, 0, 0, m)
    ensures |LowerRepeat(c, e, vs, w).value.flat| == |FlatRepeat(e, |vs|)|
    ensures LiftRepeat(c.p, e, |vs|, LowerRepeat(c, e, vs, w).value.flat, m) == Ok(vs)
    decreases e, |vs| + 3
  {
    hide LowerFlat, LiftFlat, HasType, Flat, WellFormed, Keeps, Grows;
    LowerRepeatTyped(c, e, vs, w);
    if vs != [] {
      var r := LowerFlat(c, e, vs[0], w).value;
      var rest := LowerRepeat(c, e, vs[1..], r.w).value;
      LowerFrame(c, e, vs[0], w);
      LowerRepeatFrame(c, e, vs[1..], r.w);
      SplitNone(w, r.w, rest.w, m);
      LiftAfterLower(c, e, vs[0], w, m);
      LiftRepeatAfterLower(c, e, vs[1..], r.w, m);
      assert (r.flat + rest.flat)[..|r.flat|] == r.flat && (r.flat + rest.flat)[|r.flat|..] == rest.flat;
      assert vs == [vs[0]] + vs[1..];
    }
  }
}
