/** Layout and flattening give a type the room it needs and no more. */
module LayoutLeast {
  import opened Wrappers
  import opened CoreTypes
  import opened Layout
  import opened Memory
  import opened Values

  // ----- scalars, flags and discriminants -----

  /** Half the bytes would not do for every value of a scalar, and eight bytes go with a
      64-bit core type. */
  lemma WidthIsLeast(s: Prim)
    ensures Width(s) > 1 ==> InRange(s, Pow256(Width(s) / 2))
    ensures CoreOf(s) in {I32, I64, F32, F64}
    ensures Width(s) == 8 <==> CoreOf(s) == I64 || CoreOf(s) == F64
    ensures CoreOf(s) == F32 || CoreOf(s) == F64 <==> s == Float32 || s == Float64
  {
    Pow256Values();
  }

  /** A discriminant numbers all cases, and half its bytes would not. */
  lemma TagSizeIsLeast(n: nat)
    requires n <= TWO_32
    ensures n <= Pow256(TagSize(n))
    ensures TagSize(n) > 1 ==> n > Pow256(TagSize(n) / 2)
  {
    Pow256Values();
  }

  /** Flags take one, two or four bytes or several words of four, as few as hold them all. */
  lemma FlagBytesAreLeast(n: nat)
    ensures n <= 8 * FlagBytes(n)
    ensures forall k: nat | n <= 8 * k && (k <= 2 || k % 4 == 0) :: FlagBytes(n) <= k
    ensures n <= 32 * FlagWords(n) < n + 32
    ensures FlagAlign(n) == if FlagBytes(n) in {1, 2} then FlagBytes(n) else 4
  {
  }

  // ----- alignment -----

  /** Some part of `t` wants the alignment `a`. */
  ghost predicate Wants(p: PtrSize, t: Ty, a: nat)
    decreases t
  {
    match t
    case Scalar(s) => a == Width(s)
    case Str | List(_) | Map(_) => a == p
    case Alias(u) => Wants(p, u, a)
    case FixedList(e, _) => Wants(p, e, a)
    case Record(_, fs) => exists i :: 0 <= i < |fs| && Wants(p, fs[i], a)
    case Flags(n) => a == FlagAlign(n)
    case Enum(n) => a == TagSize(n)
    case Variant(_, arms) => a == TagSize(|arms|) || exists i :: 0 <= i < |arms| && ArmWants(p, arms[i], a)
  }

  ghost predicate ArmWants(p: PtrSize, arm: Option<Ty>, a: nat)
    decreases arm
  {
    arm.Some? && Wants(p, arm.value, a)
  }

  /** The alignment of a type is the largest that a part of it wants. */
  lemma {:induction false} AlignIsLargest(p: PtrSize, t: Ty)
    ensures forall a: nat | Wants(p, t, a) :: a <= Align(p, t)
    ensures Align(p, t) == 1 || Wants(p, t, Align(p, t))
    decreases t, 1
  {
    match t
    case Alias(u) => AlignIsLargest(p, u);
    case FixedList(e, _) => AlignIsLargest(p, e);
    case Record(_, fs) => FieldsAlignIsLargest(p, fs);
    case Variant(_, arms) => ArmsAlignIsLargest(p, arms);
    case _ =>
  }

  lemma {:induction false} FieldsAlignIsLargest(p: PtrSize, fs: seq<Ty>)
    ensures forall a: nat, i | 0 <= i < |fs| && Wants(p, fs[i], a) :: a <= FieldsAlign(p, fs)
    ensures FieldsAlign(p, fs) == 1 || exists i :: 0 <= i < |fs| && Wants(p, fs[i], FieldsAlign(p, fs))
    decreases fs, 0
  {
    hide Wants, Align;
    if fs != [] {
      AlignIsLargest(p, fs[0]);
      FieldsAlignIsLargest(p, fs[1..]);
      var a := FieldsAlign(p, fs);
      forall b: nat, i | 0 <= i < |fs| && Wants(p, fs[i], b) ensures b <= a {
        if i > 0 { assert fs[1..][i - 1] == fs[i]; }
      }
      if a != 1 && a != Align(p, fs[0]) {
        var i :| 0 <= i < |fs[1..]| && Wants(p, fs[1..][i], a);
        assert fs[i + 1] == fs[1..][i];
      }
    }
  }

  lemma {:induction false} ArmsAlignIsLargest(p: PtrSize, arms: seq<Option<Ty>>)
    ensures forall a: nat, i | 0 <= i < |arms| && ArmWants(p, arms[i], a) :: a <= ArmsAlign(p, arms)
    ensures ArmsAlign(p, arms) == 1 || exists i :: 0 <= i < |arms| && ArmWants(p, arms[i], ArmsAlign(p, arms))
    decreases arms, 0
  {
    hide Wants, Align, ArmWants, ArmAlign;
    if arms != [] {
      ArmAlignIsLargest(p, arms[0]);
      ArmsAlignIsLargest(p, arms[1..]);
      var a := ArmsAlign(p, arms);
      forall b: nat, i | 0 <= i < |arms| && ArmWants(p, arms[i], b) ensures b <= a {
        if i > 0 { assert arms[1..][i - 1] == arms[i]; }
      }
      if a != 1 && !ArmWants(p, arms[0], a) {
        var i :| 0 <= i < |arms[1..]| && ArmWants(p, arms[1..][i], a);
        assert arms[i + 1] == arms[1..][i];
      }
    }
  }

  lemma {:induction false} ArmAlignIsLargest(p: PtrSize, arm: Option<Ty>)
    ensures forall a: nat | ArmWants(p, arm, a) :: a <= ArmAlign(p, arm)
    ensures ArmAlign(p, arm) == 1 || ArmWants(p, arm, ArmAlign(p, arm))
    decreases arm, 0
  {
    if arm.Some? { AlignIsLargest(p, arm.value); }
  }

  // ----- size -----

  /** Fields of types `fs` at the offsets `at` lie one after another, aligned, in `[off, n)`. */
  ghost predicate Placed(p: PtrSize, fs: seq<Ty>, at: seq<nat>, off: nat, n: nat)
    requires |at| == |fs|
    decreases |fs|
  {
    if fs == [] then off <= n
    else off <= at[0] && Aligned(at[0], Align(p, fs[0])) && Placed(p, fs[1..], at[1..], at[0] + Size(p, fs[0]), n)
  }

  /** All payloads fit between `o`, past the discriminant, and `n`. */
  ghost predicate PayloadsPlaced(p: PtrSize, arms: seq<Option<Ty>>, o: nat, n: nat) {
    TagSize(|arms|) <= o <= n && Aligned(o, ArmsAlign(p, arms)) && forall a | a in arms :: o + ArmSize(p, a) <= n
  }

  /** `n` bytes have room for a `t`. */
  ghost predicate Room(p: PtrSize, t: Ty, n: nat)
    decreases t
  {
    match t
    case Scalar(s) => Width(s) <= n
    case Str | List(_) | Map(_) => p + p <= n
    case Alias(u) => Room(p, u, n)
    case FixedList(e, k) => k * Size(p, e) <= n
    case Record(_, fs) => exists at: seq<nat> | |at| == |fs| :: Placed(p, fs, at, 0, n)
    case Flags(k) => k <= 8 * n
    case Enum(k) => TagSize(k) <= n
    case Variant(_, arms) => exists o: nat :: PayloadsPlaced(p, arms, o, n)
  }

  /** The size of a type is the least multiple of its alignment with room for it. */
  lemma {:induction false} SizeIsLeast(p: PtrSize, t: Ty)
    ensures Room(p, t, Size(p, t)) && Aligned(Size(p, t), Align(p, t))
    ensures forall n | Room(p, t, n) && Aligned(n, Align(p, t)) :: Size(p, t) <= n
    decreases t
  {
    hide Placed, PayloadsPlaced, Aligned;
    SizeAligned(p, t);
    match t
    case Alias(u) => SizeIsLeast(p, u);
    case Record(k, fs) => RecordSizeIsLeast(p, k, fs);
    case Flags(k) => FlagsSizeIsLeast(p, k);
    case Variant(k, arms) => VariantSizeIsLeast(p, k, arms);
    case _ =>
  }

  lemma FlagsSizeIsLeast(p: PtrSize, k: nat)
    ensures k <= 8 * FlagBytes(k)
    ensures forall n | Room(p, Flags(k), n) && Aligned(n, FlagAlign(k)) :: FlagBytes(k) <= n
  {
  }

  lemma RecordSizeIsLeast(p: PtrSize, k: RecordKind, fs: seq<Ty>)
    ensures var t := Record(k, fs);
            Room(p, t, Size(p, t)) && forall n | Room(p, t, n) && Aligned(n, Align(p, t)) :: Size(p, t) <= n
  {
    hide Placed, Aligned;
    var t, end := Record(k, fs), FieldsEnd(p, fs, 0);
    var at := Places(p, fs, 0);
    PlacedMore(p, fs, at, 0, end, Size(p, t));
    forall n | Room(p, t, n) && Aligned(n, Align(p, t)) ensures Size(p, t) <= n {
      var at: seq<nat> :| |at| == |fs| && Placed(p, fs, at, 0, n);
      PlacedIsMore(p, fs, at, 0, 0, n);
      AlignIsLeast(end, Align(p, t), n);
    }
  }

  lemma VariantSizeIsLeast(p: PtrSize, k: VariantKind, arms: seq<Option<Ty>>)
    ensures var t := Variant(k, arms);
            Room(p, t, Size(p, t)) && forall n | Room(p, t, n) && Aligned(n, Align(p, t)) :: Size(p, t) <= n
  {
    hide Aligned;
    var t, o := Variant(k, arms), PayloadOffset(p, arms);
    ArmsSizeIsLargest(p, arms);
    assert PayloadsPlaced(p, arms, o, Size(p, t));
    forall n | Room(p, t, n) && Aligned(n, Align(p, t)) ensures Size(p, t) <= n {
      var x: nat :| PayloadsPlaced(p, arms, x, n);
      AlignIsLeast(TagSize(|arms|), ArmsAlign(p, arms), x);
      AlignIsLeast(o + ArmsSize(p, arms), Align(p, t), n);
    }
  }

  /** Rounding up goes to the next multiple. */
  lemma AlignIsLeast(n: nat, a: nat, x: nat)
    requires IsAlign(a) && n <= x && Aligned(x, a)
    ensures AlignTo(n, a) <= x
  {
    var r := AlignTo(n, a);
    if a == 2 { assert r % 2 == 0 && x % 2 == 0; }
    else if a == 4 { assert r % 4 == 0 && x % 4 == 0; }
    else if a == 8 { assert r % 8 == 0 && x % 8 == 0; }
  }

  lemma {:induction false} PlacedIsMore(p: PtrSize, fs: seq<Ty>, at: seq<nat>, off: nat, low: nat, n: nat)
    requires |at| == |fs| && Placed(p, fs, at, off, n) && low <= off
    ensures FieldsEnd(p, fs, low) <= n
    decreases |fs|
  {
    hide Aligned, Align, Size, AlignTo;
    if fs != [] {
      AlignIsLeast(low, Align(p, fs[0]), at[0]);
      PlacedIsMore(p, fs[1..], at[1..], at[0] + Size(p, fs[0]), FieldOffset(p, fs[0], low) + Size(p, fs[0]), n);
    }
  }

  lemma {:induction false} PlacedMore(p: PtrSize, fs: seq<Ty>, at: seq<nat>, off: nat, m: nat, n: nat)
    requires |at| == |fs| && Placed(p, fs, at, off, m) && m <= n
    ensures Placed(p, fs, at, off, n)
    decreases |fs|
  {
    hide Aligned, Align, Size, AlignTo;
    if fs != [] {
      PlacedMore(p, fs[1..], at[1..], at[0] + Size(p, fs[0]), m, n);
    }
  }

  lemma {:induction false} Places(p: PtrSize, fs: seq<Ty>, off: nat) returns (at: seq<nat>)
    ensures |at| == |fs| && Placed(p, fs, at, off, FieldsEnd(p, fs, off))
    decreases |fs|
  {
    hide Aligned, Align, Size, AlignTo;
    if fs == [] {
      at := [];
    } else {
      var o := FieldOffset(p, fs[0], off);
      var rest := Places(p, fs[1..], o + Size(p, fs[0]));
      at := [o] + rest;
      assert at[1..] == rest;
    }
  }

  lemma {:induction false} ArmsSizeIsLargest(p: PtrSize, arms: seq<Option<Ty>>)
    ensures forall a | a in arms :: ArmSize(p, a) <= ArmsSize(p, arms)
    ensures ArmsSize(p, arms) == 0 || exists a :: a in arms && ArmSize(p, a) == ArmsSize(p, arms)
  {
    hide ArmSize;
    if arms != [] {
      ArmsSizeIsLargest(p, arms[1..]);
      assert arms[0] in arms && forall a | a in arms :: a == arms[0] || a in arms[1..];
    }
  }

  // ----- flattening -----

  /** The slots shared by the cases of a variant are the least that every case fits below. */
  lemma {:induction false} ArmsAreLub(arms: seq<Option<Ty>>, s: seq<WasmType>)
    ensures Below(FlatArms(arms), s) <==> forall a | a in arms :: Below(FlatArm(a), s)
  {
    hide Below, FlatArm;
    if arms == [] {
      NoneBelow(s);
    } else {
      ArmsAreLub(arms[1..], s);
      JoinSeqIsLub(FlatArm(arms[0]), FlatArms(arms[1..]), s);
      assert arms[0] in arms && forall a | a in arms :: a == arms[0] || a in arms[1..];
    }
  }

  lemma NoneBelow(s: seq<WasmType>)
    ensures Below([], s)
  {
  }

  lemma {:induction false} JoinSeqIsLub(a: seq<WasmType>, b: seq<WasmType>, s: seq<WasmType>)
    ensures Below(JoinSeq(a, b), s) <==> Below(a, s) && Below(b, s)
    decreases |a|
  {
    hide Leq, Join;
    if a == [] || b == [] {
      NoneBelow(s);
    } else if s != [] {
      JoinSeqIsLub(a[1..], b[1..], s[1..]);
      JoinIsLub(a[0], b[0], s[0]);
      JoinIsLub(a[0], Join(a[0], b[0]), s[0]);
      JoinIsLub(b[0], Join(a[0], b[0]), s[0]);
      BelowStep(a, s);
      BelowStep(b, s);
      BelowStep(JoinSeq(a, b), s);
    }
  }

  lemma BelowStep(a: seq<WasmType>, s: seq<WasmType>)
    requires a != [] && s != []
    ensures Below(a, s) <==> Leq(a[0], s[0]) && Below(a[1..], s[1..])
  {
    hide Leq;
    if Leq(a[0], s[0]) && Below(a[1..], s[1..]) {
      forall i | 0 <= i < |a| ensures Leq(a[i], s[i]) {
        if i > 0 { assert Leq(a[1..][i - 1], s[1..][i - 1]); }
      }
    }
  }
}
