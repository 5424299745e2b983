/** Loading and lifting undo storing and lowering, in any later memory that kept
    what the lowering left behind. */
module AbiRoundTrip {
  import opened Wrappers
  import opened CoreTypes
  import opened Layout
  import opened Memory
  import opened Values
  import opened CanonicalAbi
  import opened AbiFrame
  import opened AbiFlat

  lemma IntRoundTrip(w: World, a: nat, n: nat, k: nat, m: Mem)
    requires StoreInt(w, a, n, k).Ok? && n < Pow256(k)
    requires Keeps(w, StoreInt(w, a, n, k).value, a, k, m)
    ensures LoadInt(m, a, k) == Ok(n)
  {
    LoadStoredInt(w, a, n, k, m);
  }

  lemma PtrPow(p: PtrSize)
    ensures Pow256(p) == PtrLimit(p)
  {
    Pow256Values();
  }

  lemma TagPow(n: nat, i: nat)
    requires i < n <= TWO_32
    ensures i < Pow256(TagSize(n))
  {
    Pow256Values();
  }

  /** What `Load` needs of the memory in which a value was stored. */
  ghost predicate Stored(c: Cfg, t: Ty, v: Val, a: nat, w: World, m: Mem) {
    && WellFormed(t) && HasType(c.p, t, v) && Mapped(w.mem, a, Size(c.p, t))
    && Store(c, t, v, a, w).Ok?
    && Keeps(w, Store(c, t, v, a, w).value, a, Size(c.p, t), m)
  }

  /** Memory round trip. */
  lemma {:induction false} LoadAfterStore(c: Cfg, t: Ty, v: Val, a: nat, w: World, m: Mem)
    requires Stored(c, t, v, a, w, m)
    ensures Load(c.p, t, a, m) == Ok(v)
    decreases t, 2
  {
    match t
    case Scalar(s) =>
      ScalarMemory(s, v.n);
      ScalarFlat(s, v.n, c.p);
      IntRoundTrip(w, a, LowBits(s, ToCore(s, v.n)), Width(s), m);
    case Alias(u) => LoadAfterStore(c, u, v, a, w, m);
    case Str | List(_) | Map(_) => LoadPairAfterStore(c, t, v, a, w, m);
    case FixedList(e, n) => LoadElemsAfterStore(c, e, v.elems, a, w, m);
    case Record(_, fs) => LoadRecordAfterStore(c, t, v, a, w, m);
    case Flags(n) => LoadFlagsAfterStore(v.bits, a, w, m);
    case Enum(n) => TagPow(n, v.arm); IntRoundTrip(w, a, v.arm, TagSize(n), m);
    case Variant(k, arms) => LoadVariantAfterStore(c, k, arms, v, a, w, m);
  }

  lemma {:induction false} LoadRecordAfterStore(c: Cfg, t: Ty, v: Val, a: nat, w: World, m: Mem)
    requires t.Record? && Stored(c, t, v, a, w, m)
    ensures Load(c.p, t, a, m) == Ok(v)
    decreases t, 1
  {
    LoadFieldsAfterStore(c, t.fields, v.fields, a, 0, w, m, a, Size(c.p, t));
  }

  /** `A`, `N` is the record around the remaining fields. */
  lemma {:induction false} LoadFieldsAfterStore(c: Cfg, fs: seq<Ty>, vs: seq<Val>, a: nat, off: nat, w: World, m: Mem,
                                                A: nat, N: nat)
    requires |vs| == |fs| && StoreFields(c, fs, vs, a, off, w).Ok?
    requires forall f | f in fs :: WellFormed(f)
    requires forall i | 0 <= i < |fs| :: HasType(c.p, fs[i], vs[i])
    requires A <= a + off && a + FieldsEnd(c.p, fs, off) <= A + N && Mapped(w.mem, A, N)
    requires Keeps(w, StoreFields(c, fs, vs, a, off, w).value, A, N, m)
    ensures LoadFields(c.p, fs, a, off, m) == Ok(vs)
    decreases fs, 0
  {
    hide Store, Load, Size, FieldOffset, HasType, WellFormed, Keeps, Grows, Mapped;
    if fs != [] {
      var o := FieldOffset(c.p, fs[0], off);
      var s := Size(c.p, fs[0]);
      var w1 := Store(c, fs[0], vs[0], a + o, w).value;
      var w2 := StoreFields(c, fs, vs, a, off, w).value;
      var end := FieldsEnd(c.p, fs, off);
      StoreFrame(c, fs[0], vs[0], a + o, w);
      FieldsFrame(c, fs[1..], vs[1..], a, o + s, w1);
      SplitSteps(w, w1, w2, a + o, s, a + o + s, end - (o + s), A, N, m);
      LoadAfterStore(c, fs[0], vs[0], a + o, w, m);
      LoadFieldsAfterStore(c, fs[1..], vs[1..], a, o + s, w1, m, a + o + s, end - (o + s));
      assert vs == [vs[0]] + vs[1..];
    }
  }

  lemma {:induction false} LoadElemsAfterStore(c: Cfg, e: Ty, vs: seq<Val>, a: nat, w: World, m: Mem)
    requires WellFormed(e) && StoreElems(c, e, vs, a, w).Ok?
    requires forall x | x in vs :: HasType(c.p, e, x)
    requires Mapped(w.mem, a, Times(|vs|, Size(c.p, e)))
    requires Keeps(w, StoreElems(c, e, vs, a, w).value, a, Times(|vs|, Size(c.p, e)), m)
    ensures LoadElems(c.p, e, a, |vs|, m) == Ok(vs)
    decreases e, |vs| + 3
  {
    hide Store, Load, Size, HasType, WellFormed, Keeps, Grows, Mapped, Times;
    if vs != [] {
      var s := Size(c.p, e);
      var w1 := Store(c, e, vs[0], a, w).value;
      var n, n1 := Times(|vs|, s), Times(|vs| - 1, s);
      TimesStep(|vs|, s);
      StoreFrame(c, e, vs[0], a, w);
      ElemsFrame(c, e, vs[1..], a + s, w1);
      SplitSteps(w, w1, StoreElems(c, e, vs, a, w).value, a, s, a + s, n1, a, n, m);
      LoadAfterStore(c, e, vs[0], a, w, m);
      LoadElemsAfterStore(c, e, vs[1..], a + s, w1, m);
      assert vs == [vs[0]] + vs[1..];
    }
  }

  lemma {:induction false} LoadVariantAfterStore(c: Cfg, k: VariantKind, arms: seq<Option<Ty>>, v: Val, a: nat, w: World, m: Mem)
    requires Stored(c, Variant(k, arms), v, a, w, m)
    ensures Load(c.p, Variant(k, arms), a, m) == Ok(v)
    decreases arms, 1
  {
    hide Keeps, Grows, Size, LoadInt, StoreInt, HasType, Store, Mapped, WellFormed;
    VariantTyped(c.p, k, arms, v);
    VariantOrder(c, k, arms, v, a, w, m);
    var o := PayloadOffset(c.p, arms);
    var w1 := StoreInt(w, a, v.arm, TagSize(|arms|)).value;
    TagPow(|arms|, v.arm);
    IntRoundTrip(w, a, v.arm, TagSize(|arms|), m);
    if arms[v.arm].Some? {
      LoadAfterStore(c, arms[v.arm].value, v.payload.value, a + o, w1, m);
    }
  }

  lemma VariantTyped(p: PtrSize, k: VariantKind, arms: seq<Option<Ty>>, v: Val)
    requires WellFormed(Variant(k, arms)) && HasType(p, Variant(k, arms), v)
    ensures v.VariantV? && v.arm < |arms| <= TWO_32
    ensures arms[v.arm].None? ==> v.payload.None?
    ensures arms[v.arm].Some? ==>
              v.payload.Some? && WellFormed(arms[v.arm].value) && HasType(p, arms[v.arm].value, v.payload.value)
  {
    assert arms[v.arm] in arms;
    assert ArmHasType(p, arms[v.arm], v.payload);
  }

  lemma VariantOrder(c: Cfg, k: VariantKind, arms: seq<Option<Ty>>, v: Val, a: nat, w: World, m: Mem)
    requires Stored(c, Variant(k, arms), v, a, w, m)
    ensures v.VariantV? && v.arm < |arms| && StoreInt(w, a, v.arm, TagSize(|arms|)).Ok?
    ensures var w1 := StoreInt(w, a, v.arm, TagSize(|arms|)).value;
            var arm := arms[v.arm];
            && Keeps(w, w1, a, TagSize(|arms|), m)
            && (arm.Some? ==> v.payload.Some? && Stored(c, arm.value, v.payload.value, a + PayloadOffset(c.p, arms), w1, m))
  {
    hide Size, StoreInt, TagSize, PayloadOffset, HasType, WellFormed, Grows, Keeps, Mapped;
    VariantTyped(c.p, k, arms, v);
    var t := Variant(k, arms);
    var arm := arms[v.arm];
    var o := PayloadOffset(c.p, arms);
    var w1 := StoreInt(w, a, v.arm, TagSize(|arms|)).value;
    var w2 := Store(c, t, v, a, w).value;
    IntFrame(w, a, v.arm, TagSize(|arms|));
    if arm.Some? {
      PayloadFits(c.p, k, arms, v.arm);
      assert StoreArm(c, arm, v.payload, a + o, w1) == Ok(w2);
      StoreFrame(c, arm.value, v.payload.value, a + o, w1);
      SplitSteps(w, w1, w2, a, TagSize(|arms|), a + o, Size(c.p, arm.value), a, Size(c.p, t), m);
    } else {
      TagFits(c.p, k, arms);
      assert StoreArm(c, arm, v.payload, a + o, w1) == Ok(w1);
      KeepsShrink(w, w1, a, TagSize(|arms|), a, Size(c.p, t), m);
    }
  }

  lemma KeepsShrink(w0: World, w1: World, a: nat, n: nat, A: nat, N: nat, m: Mem)
    requires Keeps(w0, w1, A, N, m) && A <= a && a + n <= A + N
    ensures Keeps(w0, w1, a, n, m)
  {
  }

  lemma LoadFlagsAfterStore(bits: seq<bool>, a: nat, w: World, m: Mem)
    requires StoreFlags(|bits|, ToWords(bits), a, w).Ok?
    requires Mapped(w.mem, a, FlagBytes(|bits|))
    requires Keeps(w, StoreFlags(|bits|, ToWords(bits), a, w).value, a, FlagBytes(|bits|), m)
    ensures LoadFlags(|bits|, a, m) == Ok(ToWords(bits))
    ensures FromWords(ToWords(bits), |bits|) == bits
  {
    hide Keeps, LoadInt, StoreInt, FromWords, ToWords, Mapped, Pow256;
    var n, ws := |bits|, ToWords(bits);
    WordsRoundTrip(bits);
    WordsFit(bits);
    if 0 < n <= 16 {
      OneWord(bits);
      IntRoundTrip(w, a, ws[0], FlagBytes(n), m);
    } else {
      LoadWordsAfterStore(ws, a, w, m);
    }
  }

  lemma OneWord(bits: seq<bool>)
    requires 0 < |bits| <= 16
    ensures |ToWords(bits)| == 1 && ToWords(bits) == [ToWords(bits)[0]]
    ensures ToWords(bits)[0] < Pow256(FlagBytes(|bits|))
    ensures ToWords(bits)[0] % Pow256(FlagBytes(|bits|)) == ToWords(bits)[0]
  {
    hide ToWords;
    WordsFit(bits);
    assert ToWords(bits)[0] in ToWords(bits);
    Pow256Values();
  }

  lemma {:induction false} LoadWordsAfterStore(ws: seq<nat>, a: nat, w: World, m: Mem)
    requires forall x | x in ws :: x < TWO_32
    requires StoreWords(ws, a, w).Ok? && Mapped(w.mem, a, 4 * |ws|)
    requires Keeps(w, StoreWords(ws, a, w).value, a, 4 * |ws|, m)
    ensures LoadWords(|ws|, a, m) == Ok(ws)
  {
    hide Keeps, StoreInt, LoadInt, Mapped, Pow256;
    if ws != [] {
      var i := |ws| - 1;
      var w1 := StoreInt(w, a + 4 * i, ws[i], 4).value;
      WordOrder(ws, a, w, m);
      assert ws[i] in ws;
      Pow256Values();
      IntRoundTrip(w, a + 4 * i, ws[i], 4, m);
      forall x | x in ws[..i] ensures x < TWO_32 { assert x in ws; }
      LoadWordsAfterStore(ws[..i], a, w1, m);
      LoadWordsSnoc(i, a, ws[..i], ws[i], m);
      assert ws == ws[..i] + [ws[i]];
    }
  }

  lemma WordOrder(ws: seq<nat>, a: nat, w: World, m: Mem)
    requires ws != [] && StoreWords(ws, a, w).Ok? && Mapped(w.mem, a, 4 * |ws|)
    requires Keeps(w, StoreWords(ws, a, w).value, a, 4 * |ws|, m)
    ensures var i := |ws| - 1;
            var w1 := StoreInt(w, a + 4 * i, ws[i], 4).value;
            && Keeps(w, w1, a + 4 * i, 4, m)
            && Mapped(w1.mem, a, 4 * i)
            && Keeps(w1, StoreWords(ws, a, w).value, a, 4 * i, m)
  {
    hide StoreInt;
    var i := |ws| - 1;
    var w1 := StoreInt(w, a + 4 * i, ws[i], 4).value;
    var w2 := StoreWords(ws, a, w).value;
    IntFrame(w, a + 4 * i, ws[i], 4);
    WordsFrame(ws[..i], a, w1);
    KeepsFirst(w, w1, w2, a + 4 * i, 4, a, 4 * i, a, 4 * |ws|, m);
    KeepsSecond(w, w1, w2, a + 4 * i, 4, a, 4 * i, a, 4 * |ws|, m);
  }

  lemma {:induction false} LoadWordsSnoc(k: nat, a: nat, ws: seq<nat>, x: nat, m: Mem)
    requires |ws| == k && LoadWords(k, a, m) == Ok(ws) && LoadInt(m, a + 4 * k, 4) == Ok(x)
    ensures LoadWords(k + 1, a, m) == Ok(ws + [x])
    decreases k
  {
    hide LoadInt;
    if k > 0 {
      var rest := LoadWords(k - 1, a + 4, m).value;
      assert ws == [ws[0]] + rest;
      LoadWordsSnoc(k - 1, a + 4, rest, x, m);
      assert ws + [x] == [ws[0]] + (rest + [x]);
    } else {
      assert LoadWords(0, a + 4, m) == Ok([]);
      assert ws + [x] == [x] + [];
    }
  }

  // ----- buffers -----

  lemma {:induction false} LoadPairAfterStore(c: Cfg, t: Ty, v: Val, a: nat, w: World, m: Mem)
    requires (t.Str? || t.List? || t.Map?) && Stored(c, t, v, a, w, m)
    ensures Load(c.p, t, a, m) == Ok(v)
    decreases t, 1
  {
    hide Keeps, Grows, LoadInt, StoreInt, StoreBuffer, LoadBuffer, Size, HasType;
    var b := StoreBuffer(c, t, v, w).value;
    BufferValid(c, t, v, w);
    PairOrder(c, t, v, a, w, m);
    LoadBufferAfterStore(c, t, v, w, m);
  }

  lemma PairOrder(c: Cfg, t: Ty, v: Val, a: nat, w: World, m: Mem)
    requires (t.Str? || t.List? || t.Map?) && Stored(c, t, v, a, w, m)
    ensures StoreBuffer(c, t, v, w).Ok?
    ensures var b := StoreBuffer(c, t, v, w).value;
            && Keeps(w, b.w, 0, 0, m)
            && LoadInt(m, a, c.p) == Ok(b.ptr) && LoadInt(m, a + c.p, c.p) == Ok(b.len)
  {
    hide StoreInt, StoreBuffer, HasType, LoadInt;
    var b := StoreBuffer(c, t, v, w).value;
    var w1 := StoreInt(b.w, a + c.p, b.len, c.p).value;
    var w2 := Store(c, t, v, a, w).value;
    PtrPow(c.p);
    BufferValid(c, t, v, w);
    BufferFrame(c, t, v, w);
    PairFrame(c, b, a);
    IntFrame(b.w, a + c.p, b.len, c.p);
    IntFrame(w1, a, b.ptr, c.p);
    KeepsFirst(w, b.w, w2, 0, 0, a, 2 * c.p, a, 2 * c.p, m);
    KeepsSecond(w, b.w, w2, 0, 0, a, 2 * c.p, a, 2 * c.p, m);
    KeepsFirst(b.w, w1, w2, a + c.p, c.p, a, c.p, a, 2 * c.p, m);
    KeepsSecond(b.w, w1, w2, a + c.p, c.p, a, c.p, a, 2 * c.p, m);
    IntRoundTrip(b.w, a + c.p, b.len, c.p, m);
    IntRoundTrip(w1, a, b.ptr, c.p, m);
  }

  lemma {:induction false} LoadBufferAfterStore(c: Cfg, t: Ty, v: Val, w: World, m: Mem)
    requires (t.Str? || t.List? || t.Map?) && WellFormed(t) && HasType(c.p, t, v)
    requires StoreBuffer(c, t, v, w).Ok? && Keeps(w, StoreBuffer(c, t, v, w).value.w, 0, 0, m)
    ensures var b := StoreBuffer(c, t, v, w).value; LoadBuffer(c.p, t, b.ptr, b.len, m) == Ok(v)
    decreases t, 0
  {
    match t
    case Str =>
      var al := Alloc(w, |v.bytes|, 1, c.p, c.own).value;
      var w1 := StoreBuffer(c, t, v, w).value.w;
      AllocGrows(w, |v.bytes|, 1, c.p, c.own);
      KeepsSecond(w, al.w, w1, al.addr, 0, al.addr, |v.bytes|, 0, 0, m);
      LoadStoredBytes(al.w, al.addr, v.bytes, m);
    case List(e) => LoadListAfterStore(c, e, v.elems, w, m);
    case Map(e) => LoadListAfterStore(c, e, v.elems, w, m);
  }

  lemma {:induction false} LoadListAfterStore(c: Cfg, e: Ty, vs: seq<Val>, w: World, m: Mem)
    requires WellFormed(e) && (forall x | x in vs :: HasType(c.p, e, x))
    requires StoreList(c, e, vs, w).Ok? && Keeps(w, StoreList(c, e, vs, w).value.w, 0, 0, m)
    ensures var b := StoreList(c, e, vs, w).value; b.len == |vs| && LoadElems(c.p, e, b.ptr, b.len, m) == Ok(vs)
    decreases e, |vs| + 4
  {
    hide Keeps, Size, HasType, WellFormed, Times, Alloc;
    var n := Times(|vs|, Size(c.p, e));
    var al := Alloc(w, n, Align(c.p, e), c.p, c.own).value;
    var w1 := StoreList(c, e, vs, w).value.w;
    AllocGrows(w, n, Align(c.p, e), c.p, c.own);
    KeepsSecond(w, al.w, w1, al.addr, 0, al.addr, n, 0, 0, m);
    LoadElemsAfterStore(c, e, vs, al.addr, al.w, m);
  }
}
