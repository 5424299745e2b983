/** Interface types, their flattening and their layout in linear memory
    (sections "Alignment", "Element Size" and "Flattening" of the Canonical ABI). */
module Layout {
  import opened Wrappers
  import opened CoreTypes

  /** Types that travel as one core value: builtins and handles. */
  datatype Prim =
    | Bool | S8 | U8 | S16 | U16 | S32 | U32 | S64 | U64 | Char | Float32 | Float64
    | ErrorContext | Own | Borrow | Future | Stream

  datatype RecordKind = RecordType | TupleType
  datatype VariantKind = VariantType | OptionType | ResultType

  /** `Map` holds its entry type, the tuple of key and value. */
  datatype Ty =
    | Scalar(p: Prim)
    | Str
    | Alias(target: Ty)
    | List(elem: Ty)
    | Map(entry: Ty)
    | FixedList(elem: Ty, len: nat)
    | Record(rk: RecordKind, fields: seq<Ty>)
    | Flags(count: nat)
    | Enum(cases: nat)
    | Variant(vk: VariantKind, arms: seq<Option<Ty>>)

  /** What `wit-parser` guarantees of a resolved type. */
  predicate WellFormed(t: Ty) {
    match t
    case Alias(u) => WellFormed(u)
    case List(e) => WellFormed(e)
    case Map(e) => WellFormed(e) && e.Record? && e.rk == TupleType && |e.fields| == 2
    case FixedList(e, n) => WellFormed(e) && n > 0
    case Record(_, fs) => forall f | f in fs :: WellFormed(f)
    case Enum(n) => n <= TWO_32
    case Variant(k, arms) =>
      && |arms| <= TWO_32
      && (forall a | a in arms && a.Some? :: WellFormed(a.value))
      && (k == OptionType ==> |arms| == 2 && arms[0].None? && arms[1].Some?)
      && (k == ResultType ==> |arms| == 2)
    case _ => true
  }

  // ----- scalars -----

  /** The core type of a scalar. */
  function CoreOf(p: Prim): WasmType {
    match p
    case S64 | U64 => I64
    case Float32 => F32
    case Float64 => F64
    case _ => I32
  }

  /** Bytes a scalar takes in memory. */
  function Width(p: Prim): (r: nat)
    ensures r in {1, 2, 4, 8}
  {
    match p
    case Bool | S8 | U8 => 1
    case S16 | U16 => 2
    case S64 | U64 | Float64 => 8
    case _ => 4
  }

  // ----- flags, enums and discriminants -----

  /** Words a flags value is lowered to. */
  function FlagWords(n: nat): nat {
    (n + 31) / 32
  }

  function FlagBytes(n: nat): nat {
    if n == 0 then 0 else if n <= 8 then 1 else if n <= 16 then 2 else 4 * FlagWords(n)
  }

  function FlagAlign(n: nat): (r: nat)
    ensures r in {1, 2, 4}
  {
    if n == 0 then 4 else if n <= 8 then 1 else if n <= 16 then 2 else 4
  }

  /** Bytes of the discriminant of a type with `n` cases. */
  function TagSize(n: nat): (r: nat)
    ensures r in {1, 2, 4}
  {
    if n <= 0x100 then 1 else if n <= 0x1_0000 then 2 else 4
  }

  // ----- alignment and size -----

  predicate IsAlign(a: nat) {
    a == 1 || a == 2 || a == 4 || a == 8
  }

  function Max(a: nat, b: nat): nat {
    if a < b then b else a
  }

  /** `x` is a multiple of the alignment `a`. */
  predicate Aligned(x: nat, a: nat) {
    a == 1 || (a == 2 && x % 2 == 0) || (a == 4 && x % 4 == 0) || (a == 8 && x % 8 == 0)
  }

  function Round2(n: nat): (r: nat)
    ensures r % 2 == 0 && n <= r < n + 2 && (n % 2 == 0 ==> r == n)
  {
    n + n % 2
  }

  function Round4(n: nat): (r: nat)
    ensures r % 4 == 0 && n <= r < n + 4 && (n % 4 == 0 ==> r == n)
  {
    if n % 4 == 0 then n else n + (4 - n % 4)
  }

  function Round8(n: nat): (r: nat)
    ensures r % 8 == 0 && n <= r < n + 8 && (n % 8 == 0 ==> r == n)
  {
    if n % 8 == 0 then n else n + (8 - n % 8)
  }

  function AlignTo(n: nat, a: nat): (r: nat)
    requires IsAlign(a)
    ensures Aligned(r, a) && n <= r < n + a
    ensures Aligned(n, a) ==> r == n
  {
    if a == 1 then n else if a == 2 then Round2(n) else if a == 4 then Round4(n) else Round8(n)
  }

  function Times(n: nat, x: nat): nat {
    n * x
  }

  function Align(p: PtrSize, t: Ty): (r: nat)
    ensures IsAlign(r)
    decreases t
  {
    match t
    case Scalar(s) => Width(s)
    case Str | List(_) | Map(_) => p
    case Alias(u) => Align(p, u)
    case FixedList(e, _) => Align(p, e)
    case Record(_, fs) => FieldsAlign(p, fs)
    case Flags(n) => FlagAlign(n)
    case Enum(n) => TagSize(n)
    case Variant(_, arms) => Max(TagSize(|arms|), ArmsAlign(p, arms))
  }

  function FieldsAlign(p: PtrSize, fs: seq<Ty>): (r: nat)
    ensures IsAlign(r)
    decreases fs
  {
    if fs == [] then 1 else Max(Align(p, fs[0]), FieldsAlign(p, fs[1..]))
  }

  function ArmsAlign(p: PtrSize, arms: seq<Option<Ty>>): (r: nat)
    ensures IsAlign(r)
    decreases arms
  {
    if arms == [] then 1 else Max(ArmAlign(p, arms[0]), ArmsAlign(p, arms[1..]))
  }

  function ArmAlign(p: PtrSize, arm: Option<Ty>): (r: nat)
    ensures IsAlign(r)
    decreases arm
  {
    if arm.Some? then Align(p, arm.value) else 1
  }

  function Size(p: PtrSize, t: Ty): nat
    decreases t
  {
    match t
    case Scalar(s) => Width(s)
    case Str | List(_) | Map(_) => 2 * p
    case Alias(u) => Size(p, u)
    case FixedList(e, n) => Times(n, Size(p, e))
    case Record(_, fs) => AlignTo(FieldsEnd(p, fs, 0), FieldsAlign(p, fs))
    case Flags(n) => FlagBytes(n)
    case Enum(n) => TagSize(n)
    case Variant(_, arms) =>
      AlignTo(PayloadOffset(p, arms) + ArmsSize(p, arms), Max(TagSize(|arms|), ArmsAlign(p, arms)))
  }

  /** Where field `fs[0]` goes when the preceding fields end at `off`. */
  function FieldOffset(p: PtrSize, t: Ty, off: nat): (r: nat)
    ensures off <= r && Aligned(r, Align(p, t))
  {
    AlignTo(off, Align(p, t))
  }

  /** Where a run of fields starting after `off` ends. */
  function FieldsEnd(p: PtrSize, fs: seq<Ty>, off: nat): (r: nat)
    ensures off <= r
    decreases fs
  {
    if fs == [] then off
    else FieldsEnd(p, fs[1..], FieldOffset(p, fs[0], off) + Size(p, fs[0]))
  }

  function PayloadOffset(p: PtrSize, arms: seq<Option<Ty>>): nat {
    AlignTo(TagSize(|arms|), ArmsAlign(p, arms))
  }

  function ArmsSize(p: PtrSize, arms: seq<Option<Ty>>): nat
    decreases arms
  {
    if arms == [] then 0 else Max(ArmSize(p, arms[0]), ArmsSize(p, arms[1..]))
  }

  function ArmSize(p: PtrSize, arm: Option<Ty>): nat
    decreases arm
  {
    if arm.Some? then Size(p, arm.value) else 0
  }

  // ----- flattening -----

  const MAX_FLAT_PARAMS := 16
  const MAX_FLAT_RESULTS := 1

  function Flat(t: Ty): seq<WasmType>
    decreases t, 0
  {
    match t
    case Scalar(s) => [CoreOf(s)]
    case Str | List(_) | Map(_) => [Pointer, Length]
    case Alias(u) => Flat(u)
    case FixedList(e, n) => FlatRepeat(e, n)
    case Record(_, fs) => FlatFields(fs)
    case Flags(n) => seq(FlagWords(n), _ => I32)
    case Enum(_) => [I32]
    case Variant(_, arms) => [I32] + FlatArms(arms)
  }

  function FlatFields(fs: seq<Ty>): seq<WasmType>
    decreases fs, 0
  {
    if fs == [] then [] else Flat(fs[0]) + FlatFields(fs[1..])
  }

  function FlatRepeat(e: Ty, n: nat): seq<WasmType>
    decreases e, n + 1
  {
    if n == 0 then [] else Flat(e) + FlatRepeat(e, n - 1)
  }

  function FlatArms(arms: seq<Option<Ty>>): seq<WasmType>
    decreases arms, 0
  {
    if arms == [] then []
    else JoinSeq(FlatArm(arms[0]), FlatArms(arms[1..]))
  }

  function FlatArm(arm: Option<Ty>): seq<WasmType>
    decreases arm, 0
  {
    if arm.Some? then Flat(arm.value) else []
  }

  /** Slot-wise join; the longer sequence keeps its tail. */
  function JoinSeq(a: seq<WasmType>, b: seq<WasmType>): (r: seq<WasmType>)
    ensures |r| == Max(|a|, |b|)
    ensures forall i | 0 <= i < |a| :: Leq(a[i], r[i])
    ensures forall i | 0 <= i < |b| :: Leq(b[i], r[i])
    decreases |a|
  {
    if a == [] then b
    else if b == [] then a
    else [Join(a[0], b[0])] + JoinSeq(a[1..], b[1..])
  }

  /** `flat_types`: `None` once more than `max` words would be needed. */
  function FlatTypes(t: Ty, max: nat): Option<seq<WasmType>> {
    if |Flat(t)| <= max then Some(Flat(t)) else None
  }

  /** No `flat_types(..).unwrap()` met while lowering `t` fails. */
  predicate LowerFits(t: Ty)
    decreases t
  {
    match t
    case Alias(u) => LowerFits(u)
    case FixedList(e, _) => LowerFits(e)
    case Record(_, fs) => forall f | f in fs :: LowerFits(f)
    case Variant(_, arms) => |Flat(t)| <= MAX_FLAT_PARAMS && forall a | a in arms :: ArmLowerFits(a)
    case _ => true
  }

  predicate ArmLowerFits(arm: Option<Ty>)
    decreases arm
  {
    arm.Some? ==> LowerFits(arm.value) && |Flat(arm.value)| <= MAX_FLAT_PARAMS
  }

  /** No `flat_types(..).unwrap()` met while lifting `t`, or freeing its words, fails. */
  predicate LiftFits(t: Ty)
    decreases t
  {
    match t
    case Alias(u) => LiftFits(u)
    case FixedList(e, _) => |Flat(e)| <= MAX_FLAT_PARAMS && LiftFits(e)
    case Record(_, fs) => |Flat(t)| <= MAX_FLAT_PARAMS && forall f | f in fs :: LiftFits(f) && |Flat(f)| <= MAX_FLAT_PARAMS
    case Variant(_, arms) => |Flat(t)| <= MAX_FLAT_PARAMS && forall a | a in arms :: ArmLiftFits(a)
    case _ => true
  }

  predicate ArmLiftFits(arm: Option<Ty>)
    decreases arm
  {
    arm.Some? ==> LiftFits(arm.value) && |Flat(arm.value)| <= MAX_FLAT_PARAMS
  }

  /** Slot by slot, `a` fits inside `b`. */
  predicate Below(a: seq<WasmType>, b: seq<WasmType>) {
    |a| <= |b| && forall i | 0 <= i < |a| :: Leq(a[i], b[i])
  }

  lemma BelowTrans(a: seq<WasmType>, b: seq<WasmType>, c: seq<WasmType>)
    requires Below(a, b) && Below(b, c)
    ensures Below(a, c)
  {
    forall i | 0 <= i < |a| ensures Leq(a[i], c[i]) {
      assert Leq(a[i], b[i]) && Leq(b[i], c[i]);
      JoinIsLub(a[i], b[i], c[i]);
    }
  }

  /** Each case of a variant fits, slot by slot, inside the shared payload. */
  lemma {:induction false} ArmBelow(arms: seq<Option<Ty>>, i: nat)
    requires i < |arms|
    ensures Below(FlatArm(arms[i]), FlatArms(arms))
  {
    if i > 0 {
      ArmBelow(arms[1..], i - 1);
      assert arms[1..][i - 1] == arms[i];
      BelowTrans(FlatArm(arms[i]), FlatArms(arms[1..]), FlatArms(arms));
    }
  }

  /** A type that flattens within the limit can be lowered and lifted flat. */
  lemma {:induction false} FlatFits(t: Ty)
    requires WellFormed(t) && |Flat(t)| <= MAX_FLAT_PARAMS
    ensures LowerFits(t) && LiftFits(t)
    decreases t
  {
    match t
    case Alias(u) => FlatFits(u);
    case FixedList(e, n) => FlatFits(e);
    case Record(_, fs) =>
      forall f | f in fs ensures LowerFits(f) && LiftFits(f) && |Flat(f)| <= MAX_FLAT_PARAMS {
        var i :| 0 <= i < |fs| && fs[i] == f;
        FieldFlat(fs, i);
        FlatFits(f);
      }
    case Variant(_, arms) =>
      forall a | a in arms ensures ArmLowerFits(a) && ArmLiftFits(a) {
        var i :| 0 <= i < |arms| && arms[i] == a;
        ArmBelow(arms, i);
        if a.Some? { FlatFits(a.value); }
      }
    case _ =>
  }

  lemma {:induction false} FieldFlat(fs: seq<Ty>, i: nat)
    requires i < |fs|
    ensures |Flat(fs[i])| <= |FlatFields(fs)|
  {
    if i > 0 {
      assert fs[1..][i - 1] == fs[i];
      FieldFlat(fs[1..], i - 1);
    }
  }

  // ----- layout facts -----

  lemma AlignDivides(x: nat, big: nat, small: nat)
    requires IsAlign(big) && IsAlign(small) && small <= big && Aligned(x, big)
    ensures Aligned(x, small)
  {
  }

  lemma AlignAdd(x: nat, y: nat, a: nat)
    requires IsAlign(a) && Aligned(x, a) && Aligned(y, a)
    ensures Aligned(x + y, a)
  {
    if a == 8 { Add8(x, y); } else if a == 4 { Add4(x, y); }
  }

  lemma Add8(x: nat, y: nat)
    requires x % 8 == 0 && y % 8 == 0
    ensures (x + y) % 8 == 0
  {
  }

  lemma Add4(x: nat, y: nat)
    requires x % 4 == 0 && y % 4 == 0
    ensures (x + y) % 4 == 0
  {
  }

  lemma AlignMul(n: nat, x: nat, a: nat)
    requires IsAlign(a) && Aligned(x, a)
    ensures Aligned(Times(n, x), a)
  {
    if n > 0 {
      AlignMul(n - 1, x, a);
      TimesStep(n, x);
      AlignAdd(Times(n - 1, x), x, a);
    }
  }

  lemma TimesStep(n: nat, x: nat)
    requires n > 0
    ensures Times(n, x) == x + Times(n - 1, x)
  {
    assert n * x == (1 + (n - 1)) * x == x + (n - 1) * x;
  }

  /** Sizes are multiples of alignments, so that list elements stay aligned. */
  lemma {:induction false} SizeAligned(p: PtrSize, t: Ty)
    ensures Aligned(Size(p, t), Align(p, t))
    decreases t
  {
    match t
    case Alias(u) => SizeAligned(p, u);
    case FixedList(e, n) =>
      SizeAligned(p, e);
      AlignMul(n, Size(p, e), Align(p, e));
    case Flags(n) => FlagsAligned(n);
    case _ =>
  }

  lemma FlagsAligned(n: nat)
    ensures Aligned(FlagBytes(n), FlagAlign(n))
  {
  }

  lemma ArmLayout(p: PtrSize, arms: seq<Option<Ty>>, i: nat)
    requires i < |arms| && arms[i].Some?
    ensures Align(p, arms[i].value) <= ArmsAlign(p, arms)
    ensures Size(p, arms[i].value) <= ArmsSize(p, arms)
  {
    if i > 0 {
      assert arms[1..][i - 1] == arms[i];
      ArmLayout(p, arms[1..], i - 1);
    }
  }

  /** The payload of any case lies inside the variant, past the tag and aligned. */
  lemma PayloadFits(p: PtrSize, vk: VariantKind, arms: seq<Option<Ty>>, i: nat)
    requires i < |arms| && arms[i].Some?
    ensures var t := Variant(vk, arms);
            && TagSize(|arms|) <= PayloadOffset(p, arms)
            && PayloadOffset(p, arms) + Size(p, arms[i].value) <= Size(p, t)
            && Aligned(PayloadOffset(p, arms), Align(p, arms[i].value))
            && Align(p, arms[i].value) <= Align(p, t)
  {
    ArmLayout(p, arms, i);
    AlignDivides(PayloadOffset(p, arms), ArmsAlign(p, arms), Align(p, arms[i].value));
  }
}
