/** What can be lifted: lifting and loading give values of the type and, scalar by scalar,
    every value of it; and where each bit of a number or a flag goes. */
module ValueSpace {
  import opened Wrappers
  import opened CoreTypes
  import opened Layout
  import opened Memory
  import opened Values
  import opened CanonicalAbi
  import opened AbiFlat

  // ----- scalars -----

  /** `n` is what some core word stands for. */
  ghost predicate Stands(s: Prim, n: int) {
    exists x: nat :: WordStands(s, x, n)
  }

  predicate WordStands(s: Prim, x: nat, n: int) {
    Core(CoreOf(s), x).Valid(4) && FromCore(s, Core(CoreOf(s), x)) == Ok(n)
  }

  /** The values of a scalar are exactly what its core words stand for. */
  lemma ValuesAreWords(s: Prim, n: int)
    ensures InRange(s, n) <==> Stands(s, n)
  {
    if InRange(s, n) {
      ScalarFlat(s, n, 4);
      assert WordStands(s, ToCore(s, n).bits, n);
    }
    if x: nat :| WordStands(s, x, n) {
      WordInRange(s, x);
    }
  }

  lemma WordInRange(s: Prim, x: nat)
    requires x < Modulus(CoreOf(s), 4) && FromCore(s, Core(CoreOf(s), x)).Ok?
    ensures InRange(s, FromCore(s, Core(CoreOf(s), x)).value)
  {
  }

  lemma ExtendValid(s: Prim, n: nat)
    requires n < Pow256(Width(s))
    ensures Extend(s, n).ty == CoreOf(s) && Extend(s, n).bits < Modulus(CoreOf(s), 4)
  {
    Pow256Values();
  }

  // ----- loading -----

  lemma {:induction false} DecodeBound(bs: seq<Byte>)
    ensures Decode(bs) < Pow256(|bs|)
  {
    if bs != [] { DecodeBound(bs[1..]); }
  }

  lemma LoadIntBound(m: Mem, a: nat, k: nat)
    requires LoadInt(m, a, k).Ok?
    ensures LoadInt(m, a, k).value < Pow256(k)
  {
    DecodeBound(Read(m, a, k));
  }

  lemma PtrLimitIs(p: PtrSize)
    ensures PtrLimit(p) == Pow256(p)
  {
    Pow256Values();
  }

  /** Whatever bytes are loaded, the outcome is a value of the type, or a trap. */
  lemma {:induction false} LoadedHasType(p: PtrSize, t: Ty, a: nat, m: Mem)
    requires Load(p, t, a, m).Ok?
    ensures HasType(p, t, Load(p, t, a, m).value)
    decreases t, 1
  {
    hide LoadInt, LoadBuffer, LoadElems, LoadFields, LoadArm, LoadFlags, InRange, FromCore, Extend, FromWords;
    match t
    case Scalar(s) =>
      LoadIntBound(m, a, Width(s));
      ExtendValid(s, LoadInt(m, a, Width(s)).value);
      WordInRange(s, Extend(s, LoadInt(m, a, Width(s)).value).bits);
    case Alias(u) => LoadedHasType(p, u, a, m);
    case Str => BufferHasType(p, t, LoadInt(m, a, p).value, LoadInt(m, a + p, p).value, m) by { LengthFits(p, a + p, m); }
    case List(_) => BufferHasType(p, t, LoadInt(m, a, p).value, LoadInt(m, a + p, p).value, m) by { LengthFits(p, a + p, m); }
    case Map(_) => BufferHasType(p, t, LoadInt(m, a, p).value, LoadInt(m, a + p, p).value, m) by { LengthFits(p, a + p, m); }
    case FixedList(e, n) => ElemsHaveType(p, e, a, n, m);
    case Record(_, fs) => FieldsHaveType(p, fs, a, 0, m);
    case Variant(_, arms) =>
      var i := LoadInt(m, a, TagSize(|arms|)).value;
      LoadedArmHasType(p, arms[i], a + PayloadOffset(p, arms), m);
    case _ =>
  }

  lemma LengthFits(p: PtrSize, a: nat, m: Mem)
    requires LoadInt(m, a, p).Ok?
    ensures LoadInt(m, a, p).value < PtrLimit(p)
  {
    LoadIntBound(m, a, p);
    PtrLimitIs(p);
  }

  lemma {:induction false} LoadedArmHasType(p: PtrSize, arm: Option<Ty>, a: nat, m: Mem)
    requires LoadArm(p, arm, a, m).Ok?
    ensures ArmHasType(p, arm, LoadArm(p, arm, a, m).value)
    decreases arm, 0
  {
    hide Load, HasType;
    if arm.Some? { LoadedHasType(p, arm.value, a, m); }
  }

  /** So for the contents of a buffer, wherever its pointer leads. */
  lemma {:induction false} BufferHasType(p: PtrSize, t: Ty, ptr: nat, len: nat, m: Mem)
    requires len < PtrLimit(p) && LoadBuffer(p, t, ptr, len, m).Ok?
    ensures HasType(p, t, LoadBuffer(p, t, ptr, len, m).value)
    decreases t, 0
  {
    hide LoadElems;
    match t
    case List(e) => ElemsHaveType(p, e, ptr, len, m);
    case Map(e) => ElemsHaveType(p, e, ptr, len, m);
    case _ =>
  }

  lemma {:induction false} ElemsHaveType(p: PtrSize, e: Ty, a: nat, n: nat, m: Mem)
    requires LoadElems(p, e, a, n, m).Ok?
    ensures forall x | x in LoadElems(p, e, a, n, m).value :: HasType(p, e, x)
    decreases e, n + 2
  {
    hide Load, HasType;
    if n > 0 {
      LoadedHasType(p, e, a, m);
      ElemsHaveType(p, e, a + Size(p, e), n - 1, m);
    }
  }

  lemma {:induction false} FieldsHaveType(p: PtrSize, fs: seq<Ty>, a: nat, off: nat, m: Mem)
    requires LoadFields(p, fs, a, off, m).Ok?
    ensures var vs := LoadFields(p, fs, a, off, m).value; forall i | 0 <= i < |fs| :: HasType(p, fs[i], vs[i])
    decreases fs, 0
  {
    hide Load, HasType;
    if fs != [] {
      var o := FieldOffset(p, fs[0], off);
      LoadedHasType(p, fs[0], a + o, m);
      FieldsHaveType(p, fs[1..], a, o + Size(p, fs[0]), m);
    }
  }

  // ----- lifting -----

  /** Whatever words of the flattened types are lifted, the outcome is a value of the type. */
  lemma {:induction false} LiftedHasType(p: PtrSize, t: Ty, xs: seq<Core>, m: Mem)
    requires Typed(xs, Flat(t), p) && LiftFlat(p, t, xs, m).Ok?
    ensures HasType(p, t, LiftFlat(p, t, xs, m).value)
    decreases t, 1
  {
    hide LoadBuffer, LiftRepeat, LiftFields, LiftArm, InRange, FromCore, FromWords, FlatFields, FlatRepeat, FlatArms;
    match t
    case Scalar(s) => WordInRange(s, xs[0].bits);
    case Alias(u) => LiftedHasType(p, u, xs, m);
    case Str => BufferHasType(p, t, xs[0].bits, xs[1].bits, m);
    case List(_) => BufferHasType(p, t, xs[0].bits, xs[1].bits, m);
    case Map(_) => BufferHasType(p, t, xs[0].bits, xs[1].bits, m);
    case FixedList(e, n) => LiftedElemsHaveType(p, e, n, xs, m);
    case Record(_, fs) => LiftedFieldsHaveType(p, fs, xs, m);
    case Variant(_, arms) =>
      ArmBelow(arms, xs[0].bits);
      LiftedArmHasType(p, arms[xs[0].bits], FlatArms(arms), xs[1..], m);
    case _ =>
  }

  lemma {:induction false} LiftedElemsHaveType(p: PtrSize, e: Ty, n: nat, xs: seq<Core>, m: Mem)
    requires Typed(xs, FlatRepeat(e, n), p) && LiftRepeat(p, e, n, xs, m).Ok?
    ensures forall x | x in LiftRepeat(p, e, n, xs, m).value :: HasType(p, e, x)
    decreases e, n + 2
  {
    hide LiftFlat, HasType, Flat;
    if n > 0 {
      TypedSplit(xs, Flat(e), FlatRepeat(e, n - 1), p);
      LiftedHasType(p, e, xs[..|Flat(e)|], m);
      LiftedElemsHaveType(p, e, n - 1, xs[|Flat(e)|..], m);
    }
  }

  lemma {:induction false} LiftedFieldsHaveType(p: PtrSize, fs: seq<Ty>, xs: seq<Core>, m: Mem)
    requires Typed(xs, FlatFields(fs), p) && LiftFields(p, fs, xs, m).Ok?
    ensures var vs := LiftFields(p, fs, xs, m).value; forall i | 0 <= i < |fs| :: HasType(p, fs[i], vs[i])
    decreases fs, 0
  {
    hide LiftFlat, HasType, Flat;
    if fs != [] {
      var k := |Flat(fs[0])|;
      TypedSplit(xs, Flat(fs[0]), FlatFields(fs[1..]), p);
      LiftedHasType(p, fs[0], xs[..k], m);
      LiftedFieldsHaveType(p, fs[1..], xs[k..], m);
    }
  }

  lemma {:induction false} LiftedArmHasType(p: PtrSize, arm: Option<Ty>, slots: seq<WasmType>, xs: seq<Core>, m: Mem)
    requires Below(FlatArm(arm), slots) && Typed(xs, slots, p) && LiftArm(p, arm, slots, xs, m).Ok?
    ensures ArmHasType(p, arm, LiftArm(p, arm, slots, xs, m).value)
    decreases arm, 0
  {
    hide LiftFlat, HasType, Flat;
    if arm.Some? {
      var a := FlatArm(arm);
      TypedSplit(xs, slots[..|a|], slots[|a|..], p);
      CastsDownTyped(a, slots, xs[..|a|], p);
      LiftedHasType(p, arm.value, ApplyCasts(CastsDown(a, slots), xs[..|a|], p).value, m);
    }
  }

  lemma TypedSplit(xs: seq<Core>, a: seq<WasmType>, b: seq<WasmType>, p: PtrSize)
    requires Typed(xs, a + b, p)
    ensures Typed(xs[..|a|], a, p) && Typed(xs[|a|..], b, p)
  {
    assert forall i | 0 <= i < |a| :: (a + b)[i] == a[i];
    assert forall i | 0 <= i < |b| :: (a + b)[|a| + i] == b[i];
  }

  // ----- casts -----

  /** A cast ends in its target type. */
  lemma CastLands(from: WasmType, to: WasmType, x: Core, p: PtrSize)
    requires Cast(from, to).Some? && x.ty == from && x.Valid(p)
    ensures var y := ApplyCast(Cast(from, to).value, x, p); y.Ok? && y.value.ty == to && y.value.Valid(p)
  {
    if Direct(from, to).Some? {
      DirectLands(from, to, x, p);
    } else {
      var m := Middle(from, to);
      CastMiddle(from, to);
      DirectLands(from, m, x, p);
      DirectLands(m, to, ApplyCast(Direct(from, m).value, x, p).value, p);
    }
  }

  lemma DirectLands(from: WasmType, to: WasmType, x: Core, p: PtrSize)
    requires Direct(from, to).Some? && x.ty == from && x.Valid(p)
    ensures var y := ApplyCast(Direct(from, to).value, x, p); y.Ok? && y.value.ty == to && y.value.Valid(p)
  {
    if from != to { DirectEnds(from, to); }
  }

  lemma CastsDownTyped(a: seq<WasmType>, b: seq<WasmType>, xs: seq<Core>, p: PtrSize)
    requires Below(a, b) && Typed(xs, b[..|a|], p)
    ensures var r := ApplyCasts(CastsDown(a, b), xs, p); r.Ok? && Typed(r.value, a, p)
  {
    hide ApplyCast, ApplyCasts, Cast, Leq, Modulus;
    var cs := CastsDown(a, b);
    forall i | 0 <= i < |a|
      ensures ApplyCast(cs[i], xs[i], p).Ok? && ApplyCast(cs[i], xs[i], p).value.ty == a[i] && ApplyCast(cs[i], xs[i], p).value.Valid(p)
    {
      CastDefined(b[i], a[i]);
      CastLands(b[i], a[i], xs[i], p);
    }
    var ys := seq(|a|, i requires 0 <= i < |a| && ApplyCast(cs[i], xs[i], p).Ok? => ApplyCast(cs[i], xs[i], p).value);
    CastsPointwise(cs, xs, ys, p);
  }

  // ----- where the bits go -----

  /** Dividing by a product is dividing twice. */
  lemma DivTwice(n: nat, a: nat, m: nat)
    requires a > 0 && m > 0
    ensures a * m > 0 && n / (a * m) == n / a / m
  {
    var h, b := n / a, n % a;
    var q, r := h / m, h % m;
    DivMod(n, a);
    DivMod(h, m);
    RowEnds(a, m, r, b);
    Distribute(a, q, m, r);
    Quotient(n, a * m, q, a * r + b);
  }

  lemma DivMod(n: nat, d: nat)
    requires d > 0
    ensures n == d * (n / d) + n % d && n % d < d
  {
  }

  lemma Distribute(a: nat, q: nat, m: nat, r: nat)
    ensures a * (m * q + r) == q * (a * m) + a * r
  {
    assert a * (m * q + r) == a * (m * q) + a * r;
    assert a * (m * q) == (a * m) * q == q * (a * m);
  }

  lemma RowEnds(a: nat, m: nat, r: nat, b: nat)
    requires b < a && r < m
    ensures a * r + b < a * m
  {
    if r + 1 == m {
      assert a * m == a * r + a;
    } else {
      RowEnds(a, m - 1, r, b);
      assert a * m == a * (m - 1) + a;
    }
  }

  lemma Quotient(n: nat, d: nat, q: nat, r: nat)
    requires d > 0 && r < d && n == q * d + r
    ensures n / d == q
  {
    DivMod(n, d);
    var e := n / d - q;
    assert e * d == (n / d) * d - q * d;
    AtLeast(e, d);
  }

  lemma AtLeast(e: int, d: nat)
    requires d > 0
    ensures e > 0 ==> e * d >= d
    ensures e < 0 ==> e * d <= 0 - d
    decreases if e > 0 then e else -e
  {
    if e > 1 { AtLeast(e - 1, d); } else if e < -1 { AtLeast(e + 1, d); }
  }

  /** Byte `i` in memory holds bits `8 * i` and up: the order is little-endian. */
  lemma {:induction false} LittleEndian(n: nat, k: nat, i: nat)
    requires i < k
    ensures Encode(n, k)[i] == n / Pow256(i) % 256
  {
    if i > 0 {
      LittleEndian(n / 256, k - 1, i - 1);
      DivTwice(n, 256, Pow256(i - 1));
    }
  }

  lemma {:induction false} PackedBit(bits: seq<bool>, i: nat)
    requires i < |bits|
    ensures Pack(bits) / Pow2(i) % 2 == if bits[i] then 1 else 0
  {
    if i > 0 {
      PackedBit(bits[1..], i - 1);
      assert Pack(bits) / 2 == Pack(bits[1..]);
      DivTwice(Pack(bits), 2, Pow2(i - 1));
    }
  }

  /** Flag `i` is bit `i % 32` of word `i / 32`. */
  lemma {:induction false} FlagIsBit(bits: seq<bool>, i: nat)
    requires i < |bits|
    ensures i / 32 < |ToWords(bits)|
    ensures ToWords(bits)[i / 32] / Pow2(i % 32) % 2 == if bits[i] then 1 else 0
    decreases |bits|
  {
    hide Pack, Pow2;
    var k := Chunk(|bits|);
    if i < 32 {
      PackedBit(bits[..k], i);
    } else {
      FlagIsBit(bits[k..], i - 32);
      assert ToWords(bits)[1..] == ToWords(bits[k..]);
      assert i / 32 == (i - 32) / 32 + 1 && i % 32 == (i - 32) % 32;
    }
  }
}
