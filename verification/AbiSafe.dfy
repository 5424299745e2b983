/** Lowering a well-typed value to an aligned, mapped target never traps: the only
    way to fail is to run out of memory. */
module AbiSafe {
  import opened Wrappers
  import opened CoreTypes
  import opened Layout
  import opened Memory
  import opened Values
  import opened CanonicalAbi
  import opened AbiFrame
  import opened AbiFlat
  import opened AbiRoundTrip

  /** A place where a `t` can be stored. */
  ghost predicate Target(p: PtrSize, t: Ty, a: nat, w: World) {
    Aligned(a, Align(p, t)) && Mapped(w.mem, a, Size(p, t))
  }

  lemma IntSafe(w: World, a: nat, n: nat, k: nat)
    requires IsAlign(k) && Aligned(a, k) && Mapped(w.mem, a, k)
    ensures StoreInt(w, a, n, k).Ok?
  {
  }

  /** All stores are aligned and inside the target or a fresh block. */
  lemma {:induction false} StoreSafe(c: Cfg, t: Ty, v: Val, a: nat, w: World)
    requires WellFormed(t) && HasType(c.p, t, v) && Target(c.p, t, a, w)
    ensures !Store(c, t, v, a, w).Trap?
    decreases t, 2
  {
    match t
    case Alias(u) => StoreSafe(c, u, v, a, w);
    case Str | List(_) | Map(_) => PairSafe(c, t, v, a, w);
    case FixedList(e, n) => ElemsSafe(c, e, v.elems, a, w);
    case Record(_, fs) => FieldsSafe(c, fs, v.fields, a, 0, w, a, Size(c.p, t), Align(c.p, t));
    case Flags(n) => FlagsSafe(n, ToWords(v.bits), a, w);
    case Variant(k, arms) => VariantSafe(c, k, arms, v, a, w);
    case _ =>
  }

  lemma {:induction false} PairSafe(c: Cfg, t: Ty, v: Val, a: nat, w: World)
    requires (t.Str? || t.List? || t.Map?) && WellFormed(t) && HasType(c.p, t, v) && Target(c.p, t, a, w)
    ensures !Store(c, t, v, a, w).Trap?
    decreases t, 1
  {
    hide StoreInt, StoreBuffer, HasType, Grows;
    BufferSafe(c, t, v, w);
    if StoreBuffer(c, t, v, w).Ok? {
      var b := StoreBuffer(c, t, v, w).value;
      BufferFrame(c, t, v, w);
      MappedLater(w, b.w, 0, 0, a, 2 * c.p, a, 2 * c.p);
      AlignAdd(a, c.p, c.p);
      IntSafe(b.w, a + c.p, b.len, c.p);
      IntFrame(b.w, a + c.p, b.len, c.p);
      IntSafe(StoreInt(b.w, a + c.p, b.len, c.p).value, a, b.ptr, c.p);
    }
  }

  lemma {:induction false} BufferSafe(c: Cfg, t: Ty, v: Val, w: World)
    requires (t.Str? || t.List? || t.Map?) && WellFormed(t) && HasType(c.p, t, v)
    ensures !StoreBuffer(c, t, v, w).Trap?
    decreases t, 0
  {
    match t
    case Str =>
      if Alloc(w, |v.bytes|, 1, c.p, c.own).Ok? { AllocGrows(w, |v.bytes|, 1, c.p, c.own); }
    case List(e) => ListSafe(c, e, v.elems, w);
    case Map(e) => ListSafe(c, e, v.elems, w);
  }

  lemma {:induction false} ListSafe(c: Cfg, e: Ty, vs: seq<Val>, w: World)
    requires WellFormed(e) && forall x | x in vs :: HasType(c.p, e, x)
    ensures !StoreList(c, e, vs, w).Trap?
    decreases e, |vs| + 4
  {
    hide Size, Align, HasType, WellFormed, Times, StoreElems;
    var n := Times(|vs|, Size(c.p, e));
    if Alloc(w, n, Align(c.p, e), c.p, c.own).Ok? {
      var al := Alloc(w, n, Align(c.p, e), c.p, c.own).value;
      AllocGrows(w, n, Align(c.p, e), c.p, c.own);
      ElemsSafe(c, e, vs, al.addr, al.w);
    }
  }

  lemma {:induction false} ElemsSafe(c: Cfg, e: Ty, vs: seq<Val>, a: nat, w: World)
    requires WellFormed(e) && forall x | x in vs :: HasType(c.p, e, x)
    requires Aligned(a, Align(c.p, e)) && Mapped(w.mem, a, Times(|vs|, Size(c.p, e)))
    ensures !StoreElems(c, e, vs, a, w).Trap?
    decreases e, |vs| + 3
  {
    hide Store, Size, Align, Aligned, HasType, WellFormed, Times, Grows, Mapped;
    if vs != [] {
      var s := Size(c.p, e);
      var n, n1 := Times(|vs|, s), Times(|vs| - 1, s);
      TimesStep(|vs|, s);
      MappedLater0(w, a, s, a, n);
      StoreSafe(c, e, vs[0], a, w);
      if Store(c, e, vs[0], a, w).Ok? {
        var w1 := Store(c, e, vs[0], a, w).value;
        StoreFrame(c, e, vs[0], a, w);
        MappedLater(w, w1, a, s, a + s, n1, a, n);
        SizeAligned(c.p, e);
        AlignAdd(a, s, Align(c.p, e));
        ElemsSafe(c, e, vs[1..], a + s, w1);
      }
    }
  }

  lemma MappedLater0(w: World, a: nat, n: nat, A: nat, N: nat)
    requires Mapped(w.mem, A, N) && A <= a && a + n <= A + N
    ensures Mapped(w.mem, a, n)
  {
  }

  /** `A`, `N`, `al` describe the record around the remaining fields. */
  lemma {:induction false} FieldsSafe(c: Cfg, fs: seq<Ty>, vs: seq<Val>, a: nat, off: nat, w: World, A: nat, N: nat, al: nat)
    requires |vs| == |fs|
    requires forall f | f in fs :: WellFormed(f)
    requires forall i | 0 <= i < |fs| :: HasType(c.p, fs[i], vs[i])
    requires A <= a + off && a + FieldsEnd(c.p, fs, off) <= A + N && Mapped(w.mem, A, N)
    requires IsAlign(al) && Aligned(a, al) && FieldsAlign(c.p, fs) <= al
    ensures !StoreFields(c, fs, vs, a, off, w).Trap?
    decreases fs, 0
  {
    hide Store, Size, Align, Aligned, HasType, WellFormed, Grows, Mapped;
    if fs != [] {
      var o := FieldOffset(c.p, fs[0], off);
      var s := Size(c.p, fs[0]);
      AlignDivides(a, al, Align(c.p, fs[0]));
      AlignAdd(a, o, Align(c.p, fs[0]));
      MappedLater0(w, a + o, s, A, N);
      StoreSafe(c, fs[0], vs[0], a + o, w);
      if Store(c, fs[0], vs[0], a + o, w).Ok? {
        var w1 := Store(c, fs[0], vs[0], a + o, w).value;
        StoreFrame(c, fs[0], vs[0], a + o, w);
        MappedLater(w, w1, a + o, s, A, N, A, N);
        FieldsSafe(c, fs[1..], vs[1..], a, o + s, w1, A, N, al);
      }
    }
  }

  lemma {:induction false} VariantSafe(c: Cfg, k: VariantKind, arms: seq<Option<Ty>>, v: Val, a: nat, w: World)
    requires WellFormed(Variant(k, arms)) && HasType(c.p, Variant(k, arms), v) && Target(c.p, Variant(k, arms), a, w)
    ensures !Store(c, Variant(k, arms), v, a, w).Trap?
    decreases arms, 1
  {
    hide StoreInt, HasType, WellFormed, Grows, Mapped, Aligned, PayloadOffset;
    var t := Variant(k, arms);
    VariantTyped(c.p, k, arms, v);
    var tag := TagSize(|arms|);
    TagFits(c.p, k, arms);
    AlignDivides(a, Align(c.p, t), tag);
    MappedLater0(w, a, tag, a, Size(c.p, t));
    IntSafe(w, a, v.arm, tag);
    IntFrame(w, a, v.arm, tag);
    var w1 := StoreInt(w, a, v.arm, tag).value;
    if arms[v.arm].Some? {
      var u := arms[v.arm].value;
      var o := PayloadOffset(c.p, arms);
      PayloadFits(c.p, k, arms, v.arm);
      AlignDivides(a, Align(c.p, t), Align(c.p, u));
      AlignAdd(a, o, Align(c.p, u));
      MappedLater(w, w1, a, tag, a + o, Size(c.p, u), a, Size(c.p, t));
      StoreSafe(c, u, v.payload.value, a + o, w1);
    }
  }

  lemma FlagsSafe(n: nat, ws: seq<nat>, a: nat, w: World)
    requires |ws| == FlagWords(n) && Aligned(a, FlagAlign(n)) && Mapped(w.mem, a, FlagBytes(n))
    ensures StoreFlags(n, ws, a, w).Ok?
  {
    if 0 < n <= 16 {
      IntSafe(w, a, ws[0] % Pow256(FlagBytes(n)), FlagBytes(n));
    } else {
      WordsSafe(ws, a, w);
    }
  }

  lemma {:induction false} WordsSafe(ws: seq<nat>, a: nat, w: World)
    requires Aligned(a, 4) && Mapped(w.mem, a, 4 * |ws|)
    ensures StoreWords(ws, a, w).Ok?
  {
    hide StoreInt, Grows, Mapped;
    if ws != [] {
      var i := |ws| - 1;
      MappedLater0(w, a + 4 * i, 4, a, 4 * |ws|);
      IntSafe(w, a + 4 * i, ws[i], 4);
      IntFrame(w, a + 4 * i, ws[i], 4);
      var w1 := StoreInt(w, a + 4 * i, ws[i], 4).value;
      MappedLater(w, w1, a + 4 * i, 4, a, 4 * i, a, 4 * |ws|);
      WordsSafe(ws[..i], a, w1);
    }
  }

  // ----- flat lowering -----

  lemma {:induction false} LowerSafe(c: Cfg, t: Ty, v: Val, w: World)
    requires WellFormed(t) && HasType(c.p, t, v)
    ensures !LowerFlat(c, t, v, w).Trap?
    decreases t, 2
  {
    match t
    case Alias(u) => LowerSafe(c, u, v, w);
    case Str | List(_) | Map(_) => BufferSafe(c, t, v, w);
    case FixedList(e, n) => LowerRepeatSafe(c, e, v.elems, w);
    case Record(_, fs) => LowerFieldsSafe(c, fs, v.fields, w);
    case Variant(k, arms) => LowerVariantSafe(c, k, arms, v, w);
    case _ =>
  }

  lemma {:induction false} LowerVariantSafe(c: Cfg, k: VariantKind, arms: seq<Option<Ty>>, v: Val, w: World)
    requires WellFormed(Variant(k, arms)) && HasType(c.p, Variant(k, arms), v)
    ensures !LowerFlat(c, Variant(k, arms), v, w).Trap?
    decreases arms, 1
  {
    hide HasType, WellFormed, Widen;
    VariantTyped(c.p, k, arms, v);
    var arm := arms[v.arm];
    ArmBelow(arms, v.arm);
    if arm.Some? {
      LowerSafe(c, arm.value, v.payload.value, w);
      if LowerFlat(c, arm.value, v.payload.value, w).Ok? {
        LowerTyped(c, arm.value, v.payload.value, w);
      }
    }
    if LowerArm(c, arm, v.payload, w).Ok? {
      WidenRoundTrip(c.p, FlatArm(arm), FlatArms(arms), LowerArm(c, arm, v.payload, w).value.flat);
    }
  }

  lemma {:induction false} LowerFieldsSafe(c: Cfg, fs: seq<Ty>, vs: seq<Val>, w: World)
    requires |vs| == |fs|
    requires forall f | f in fs :: WellFormed(f)
    requires forall i | 0 <= i < |fs| :: HasType(c.p, fs[i], vs[i])
    ensures !LowerFields(c, fs, vs, w).Trap?
    decreases fs, 0
  {
    if fs != [] {
      LowerSafe(c, fs[0], vs[0], w);
      if LowerFlat(c, fs[0], vs[0], w).Ok? {
        LowerFieldsSafe(c, fs[1..], vs[1..], LowerFlat(c, fs[0], vs[0], w).value.w);
      }
    }
  }

  lemma {:induction false} LowerRepeatSafe(c: Cfg, e: Ty, vs: seq<Val>, w: World)
    requires WellFormed(e) && forall x | x in vs :: HasType(c.p, e, x)
    ensures !LowerRepeat(c, e, vs, w).Trap?
    decreases e, |vs| + 3
  {
    if vs != [] {
      LowerSafe(c, e, vs[0], w);
      if LowerFlat(c, e, vs[0], w).Ok? {
        LowerRepeatSafe(c, e, vs[1..], LowerFlat(c, e, vs[0], w).value.w);
      }
    }
  }
}
