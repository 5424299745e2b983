/** Lowering a value touches nothing but its target and the blocks it allocates. */
module AbiFrame {
  import opened Wrappers
  import opened CoreTypes
  import opened Layout
  import opened Memory
  import opened Values
  import opened CanonicalAbi

  lemma IntFrame(w: World, a: nat, n: nat, k: nat)
    requires StoreInt(w, a, n, k).Ok?
    ensures Grows(w, StoreInt(w, a, n, k).value, a, k)
    ensures StoreInt(w, a, n, k).value.mem.Keys == w.mem.Keys
  {
    StoreGrows(w, a, Encode(n, k));
  }

  lemma {:induction false} StoreFrame(c: Cfg, t: Ty, v: Val, a: nat, w: World)
    requires Store(c, t, v, a, w).Ok?
    ensures Grows(w, Store(c, t, v, a, w).value, a, Size(c.p, t))
    decreases t, 2
  {
    hide Grows, StoreInt;
    match t
    case Scalar(s) => IntFrame(w, a, LowBits(s, ToCore(s, v.n)), Width(s));
    case Alias(u) => StoreFrame(c, u, v, a, w);
    case Str | List(_) | Map(_) =>
      var b := StoreBuffer(c, t, v, w).value;
      BufferFrame(c, t, v, w);
      PairFrame(c, b, a);
      GrowsTrans(w, b.w, StorePair(c, b, a).value, 0, 0, a, 2 * c.p, a, 2 * c.p);
    case FixedList(e, n) => ElemsFrame(c, e, v.elems, a, w);
    case Record(_, fs) =>
      FieldsFrame(c, fs, v.fields, a, 0, w);
      GrowsWiden(w, Store(c, t, v, a, w).value, a, FieldsEnd(c.p, fs, 0), a, Size(c.p, t));
    case Flags(n) => FlagsFrame(n, ToWords(v.bits), a, w);
    case Enum(n) => IntFrame(w, a, v.arm, TagSize(n));
    case Variant(k, arms) => VariantFrame(c, k, arms, v, a, w);
  }

  lemma GrowsWiden(w0: World, w1: World, a: nat, n: nat, A: nat, N: nat)
    requires Grows(w0, w1, a, n)
    requires n == 0 || (A <= a && a + n <= A + N)
    ensures Grows(w0, w1, A, N)
  {
  }

  lemma {:induction false} VariantFrame(c: Cfg, k: VariantKind, arms: seq<Option<Ty>>, v: Val, a: nat, w: World)
    requires Store(c, Variant(k, arms), v, a, w).Ok?
    ensures Grows(w, Store(c, Variant(k, arms), v, a, w).value, a, Size(c.p, Variant(k, arms)))
    decreases arms, 1
  {
    hide Grows, StoreInt, TagSize, PayloadOffset, Size, Align;
    var t := Variant(k, arms);
    var w1 := StoreInt(w, a, v.arm, TagSize(|arms|)).value;
    IntFrame(w, a, v.arm, TagSize(|arms|));
    var arm := arms[v.arm];
    var o := PayloadOffset(c.p, arms);
    if arm.Some? {
      PayloadFits(c.p, k, arms, v.arm);
      StoreFrame(c, arm.value, v.payload.value, a + o, w1);
      GrowsTrans(w, w1, Store(c, t, v, a, w).value, a, TagSize(|arms|), a + o, Size(c.p, arm.value), a, Size(c.p, t));
    } else {
      TagFits(c.p, k, arms);
      GrowsWiden(w, w1, a, TagSize(|arms|), a, Size(c.p, t));
    }
  }

  lemma TagFits(p: PtrSize, k: VariantKind, arms: seq<Option<Ty>>)
    ensures TagSize(|arms|) <= PayloadOffset(p, arms) <= Size(p, Variant(k, arms))
  {
  }

  lemma PairFrame(c: Cfg, b: Buffer, a: nat)
    requires StorePair(c, b, a).Ok?
    ensures Grows(b.w, StorePair(c, b, a).value, a, 2 * c.p)
  {
    hide Grows, StoreInt;
    var w1 := StoreInt(b.w, a + c.p, b.len, c.p).value;
    IntFrame(b.w, a + c.p, b.len, c.p);
    IntFrame(w1, a, b.ptr, c.p);
    GrowsTrans(b.w, w1, StorePair(c, b, a).value, a + c.p, c.p, a, c.p, a, 2 * c.p);
  }

  lemma {:induction false} FlagsFrame(n: nat, ws: seq<nat>, a: nat, w: World)
    requires |ws| == FlagWords(n) && StoreFlags(n, ws, a, w).Ok?
    ensures Grows(w, StoreFlags(n, ws, a, w).value, a, FlagBytes(n))
  {
    if 0 < n <= 16 {
      IntFrame(w, a, ws[0] % Pow256(FlagBytes(n)), FlagBytes(n));
    } else {
      WordsFrame(ws, a, w);
    }
  }

  lemma {:induction false} WordsFrame(ws: seq<nat>, a: nat, w: World)
    requires StoreWords(ws, a, w).Ok?
    ensures Grows(w, StoreWords(ws, a, w).value, a, 4 * |ws|)
  {
    hide Grows, StoreInt;
    if ws != [] {
      var i := |ws| - 1;
      var w1 := StoreInt(w, a + 4 * i, ws[i], 4).value;
      IntFrame(w, a + 4 * i, ws[i], 4);
      WordsFrame(ws[..i], a, w1);
      GrowsTrans(w, w1, StoreWords(ws, a, w).value, a + 4 * i, 4, a, 4 * i, a, 4 * |ws|);
    } else {
      GrowsRefl(w, a, 0);
    }
  }

  lemma {:induction false} BufferFrame(c: Cfg, t: Ty, v: Val, w: World)
    requires StoreBuffer(c, t, v, w).Ok?
    ensures Grows(w, StoreBuffer(c, t, v, w).value.w, 0, 0)
    decreases t, 1
  {
    match t
    case Str =>
      var al := Alloc(w, |v.bytes|, 1, c.p, c.own).value;
      AllocGrows(w, |v.bytes|, 1, c.p, c.own);
      StoreGrows(al.w, al.addr, v.bytes);
      GrowsTrans(w, al.w, StoreBuffer(c, t, v, w).value.w, al.addr, 0, al.addr, |v.bytes|, 0, 0);
    case List(e) => ListFrame(c, e, v.elems, w);
    case Map(e) => ListFrame(c, e, v.elems, w);
    case _ =>
  }

  lemma {:induction false} ListFrame(c: Cfg, e: Ty, vs: seq<Val>, w: World)
    requires StoreList(c, e, vs, w).Ok?
    ensures Grows(w, StoreList(c, e, vs, w).value.w, 0, 0)
    decreases e, |vs| + 4
  {
    hide Grows, StoreInt;
    var n := Times(|vs|, Size(c.p, e));
    var al := Alloc(w, n, Align(c.p, e), c.p, c.own).value;
    AllocGrows(w, n, Align(c.p, e), c.p, c.own);
    ElemsFrame(c, e, vs, al.addr, al.w);
    GrowsTrans(w, al.w, StoreList(c, e, vs, w).value.w, al.addr, 0, al.addr, n, 0, 0);
  }

  lemma {:induction false} ElemsFrame(c: Cfg, e: Ty, vs: seq<Val>, a: nat, w: World)
    requires StoreElems(c, e, vs, a, w).Ok?
    ensures Grows(w, StoreElems(c, e, vs, a, w).value, a, Times(|vs|, Size(c.p, e)))
    decreases e, |vs| + 3
  {
    hide Grows, StoreInt;
    if vs != [] {
      var s := Size(c.p, e);
      var w1 := Store(c, e, vs[0], a, w).value;
      StoreFrame(c, e, vs[0], a, w);
      ElemsFrame(c, e, vs[1..], a + s, w1);
      TimesStep(|vs|, s);
      GrowsTrans(w, w1, StoreElems(c, e, vs, a, w).value, a, s, a + s, Times(|vs| - 1, s), a, Times(|vs|, s));
    } else {
      GrowsRefl(w, a, Times(0, Size(c.p, e)));
    }
  }

  lemma {:induction false} FieldsFrame(c: Cfg, fs: seq<Ty>, vs: seq<Val>, a: nat, off: nat, w: World)
    requires StoreFields(c, fs, vs, a, off, w).Ok?
    ensures Grows(w, StoreFields(c, fs, vs, a, off, w).value, a + off, FieldsEnd(c.p, fs, off) - off)
    decreases fs, 0
  {
    hide Grows, Store, Size, FieldOffset;
    if fs != [] {
      var o := FieldOffset(c.p, fs[0], off);
      var s := Size(c.p, fs[0]);
      var w1 := Store(c, fs[0], vs[0], a + o, w).value;
      StoreFrame(c, fs[0], vs[0], a + o, w);
      FieldsFrame(c, fs[1..], vs[1..], a, o + s, w1);
      var end := FieldsEnd(c.p, fs, off);
      GrowsTrans(w, w1, StoreFields(c, fs, vs, a, off, w).value,
                 a + o, s, a + o + s, end - (o + s), a + off, end - off);
    } else {
      GrowsRefl(w, a + off, 0);
    }
  }

  // ----- flat lowering -----

  /** Flat lowering changes no existing byte at all. */
  lemma {:induction false} LowerFrame(c: Cfg, t: Ty, v: Val, w: World)
    requires LowerFlat(c, t, v, w).Ok?
    ensures Grows(w, LowerFlat(c, t, v, w).value.w, 0, 0)
    decreases t, 2
  {
    match t
    case Alias(u) => LowerFrame(c, u, v, w);
    case Str | List(_) | Map(_) => BufferFrame(c, t, v, w);
    case FixedList(e, n) => LowerRepeatFrame(c, e, v.elems, w);
    case Record(_, fs) => LowerFieldsFrame(c, fs, v.fields, w);
    case Variant(_, arms) =>
      if arms[v.arm].Some? { LowerFrame(c, arms[v.arm].value, v.payload.value, w); }
    case _ =>
  }

  lemma {:induction false} LowerFieldsFrame(c: Cfg, fs: seq<Ty>, vs: seq<Val>, w: World)
    requires LowerFields(c, fs, vs, w).Ok?
    ensures Grows(w, LowerFields(c, fs, vs, w).value.w, 0, 0)
    decreases fs, 0
  {
    if fs != [] {
      var r := LowerFlat(c, fs[0], vs[0], w).value;
      LowerFrame(c, fs[0], vs[0], w);
      LowerFieldsFrame(c, fs[1..], vs[1..], r.w);
      GrowsTrans(w, r.w, LowerFields(c, fs, vs, w).value.w, 0, 0, 0, 0, 0, 0);
    }
  }

  lemma {:induction false} LowerRepeatFrame(c: Cfg, e: Ty, vs: seq<Val>, w: World)
    requires LowerRepeat(c, e, vs, w).Ok?
    ensures Grows(w, LowerRepeat(c, e, vs, w).value.w, 0, 0)
    decreases e, |vs| + 3
  {
    if vs != [] {
      var r := LowerFlat(c, e, vs[0], w).value;
      LowerFrame(c, e, vs[0], w);
      LowerRepeatFrame(c, e, vs[1..], r.w);
      GrowsTrans(w, r.w, LowerRepeat(c, e, vs, w).value.w, 0, 0, 0, 0, 0, 0);
    }
  }
}
