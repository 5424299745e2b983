/** Core wasm types, their join, and the bitcasts between them. */
module CoreTypes {
  import opened Wrappers

  /** Pointer width in bytes: wasm32 or wasm64. */
  type PtrSize = p: nat | p == 4 || p == 8 witness 4

  datatype WasmType = I32 | I64 | F32 | F64 | Pointer | PointerOrI64 | Length

  const TWO_32: nat := 0x1_0000_0000
  const TWO_64: nat := 0x1_0000_0000_0000_0000

  /** Exclusive bound on the addresses and lengths of a memory. */
  function PtrLimit(p: PtrSize): nat {
    if p == 4 then TWO_32 else TWO_64
  }

  /** How many bit patterns a value of type `t` can have. */
  function Modulus(t: WasmType, p: PtrSize): nat {
    match t
    case I32 | F32 => TWO_32
    case I64 | F64 | PointerOrI64 => TWO_64
    case Pointer | Length => PtrLimit(p)
  }

  /** A core value: its static type and its bits. */
  datatype Core = Core(ty: WasmType, bits: nat) {
    predicate Valid(p: PtrSize) {
      bits < Modulus(ty, p)
    }
  }

  /** The order in which flat types are widened. */
  predicate Leq(a: WasmType, b: WasmType) {
    || a == b
    || b == PointerOrI64
    || (a == F32 && b in {I32, Length, Pointer, I64})
    || (a == I32 && b in {Length, Pointer, I64})
    || (a == Length && b in {Pointer, I64})
    || (a == F64 && b == I64)
  }

  /** The type of a payload slot shared by cases that need `a` and `b`. */
  function Join(a: WasmType, b: WasmType): WasmType {
    match (a, b)
    case (I32, F32) => I32
    case (F32, I32) => I32
    case (Length, I32) => Length
    case (Length, F32) => Length
    case (I32, Length) => Length
    case (F32, Length) => Length
    case (Length, I64) => I64
    case (Length, F64) => I64
    case (I64, Length) => I64
    case (F64, Length) => I64
    case (Pointer, I32) => Pointer
    case (Pointer, F32) => Pointer
    case (Pointer, Length) => Pointer
    case (I32, Pointer) => Pointer
    case (F32, Pointer) => Pointer
    case (Length, Pointer) => Pointer
    case (Pointer, I64) => PointerOrI64
    case (Pointer, F64) => PointerOrI64
    case (I64, Pointer) => PointerOrI64
    case (F64, Pointer) => PointerOrI64
    case (_, _) =>
      if a == b then a
      else if a == PointerOrI64 || b == PointerOrI64 then PointerOrI64
      else I64
  }

  /** `Join` is the least upper bound of `Leq`, which is a partial order. */
  lemma JoinIsLub(a: WasmType, b: WasmType, c: WasmType)
    ensures Leq(a, Join(a, b)) && Leq(b, Join(a, b))
    ensures Leq(a, c) && Leq(b, c) ==> Leq(Join(a, b), c)
    ensures Leq(a, b) && Leq(b, a) ==> a == b
    ensures Leq(a, b) && Leq(b, c) ==> Leq(a, c)
  {
  }

  /** Hence the order in which cases are merged does not matter. */
  lemma JoinLaws(a: WasmType, b: WasmType, c: WasmType)
    ensures Join(a, Join(b, c)) == Join(Join(a, b), c)
    ensures Join(a, b) == Join(b, a)
    ensures Join(a, a) == a
  {
    var l, r := Join(a, Join(b, c)), Join(Join(a, b), c);
    JoinIsLub(b, c, l);
    JoinIsLub(a, Join(b, c), r);
    JoinIsLub(a, b, r);
    JoinIsLub(Join(a, b), c, l);
    assert Leq(l, r) && Leq(r, l) by {
      JoinIsLub(a, Join(a, b), r); JoinIsLub(b, Join(a, b), r); JoinIsLub(c, r, r);
      JoinIsLub(b, c, r);
      JoinIsLub(a, b, l); JoinIsLub(b, Join(b, c), l); JoinIsLub(c, Join(b, c), l);
      JoinIsLub(a, Join(b, c), l);
    }
    JoinIsLub(l, r, l);
    JoinIsLub(a, b, Join(b, a)); JoinIsLub(b, a, Join(a, b));
    JoinIsLub(Join(a, b), Join(b, a), a);
  }

  datatype Bitcast =
    | F32ToI32 | F64ToI64 | I32ToI64 | F32ToI64
    | I32ToF32 | I64ToF64 | I64ToI32 | I64ToF32
    | P64ToI64 | I64ToP64 | P64ToP | PToP64
    | I32ToP | PToI32 | PToL | LToP
    | I32ToL | LToI32 | I64ToL | LToI64
    | Sequence(first: Bitcast, second: Bitcast)
    | NoCast

  /** The pairs that `cast` maps to a single bitcast. */
  function Direct(from: WasmType, to: WasmType): Option<Bitcast> {
    match (from, to)
    case (I32, I64) => Some(I32ToI64)
    case (F32, I32) => Some(F32ToI32)
    case (F64, I64) => Some(F64ToI64)
    case (I64, I32) => Some(I64ToI32)
    case (I32, F32) => Some(I32ToF32)
    case (I64, F64) => Some(I64ToF64)
    case (F32, I64) => Some(F32ToI64)
    case (I64, F32) => Some(I64ToF32)
    case (I64, PointerOrI64) => Some(I64ToP64)
    case (Pointer, PointerOrI64) => Some(PToP64)
    case (PointerOrI64, I64) => Some(P64ToI64)
    case (PointerOrI64, Pointer) => Some(P64ToP)
    case (I32, Pointer) => Some(I32ToP)
    case (Pointer, I32) => Some(PToI32)
    case (I32, Length) => Some(I32ToL)
    case (Length, I32) => Some(LToI32)
    case (I64, Length) => Some(I64ToL)
    case (Length, I64) => Some(LToI64)
    case (Pointer, Length) => Some(PToL)
    case (Length, Pointer) => Some(LToP)
    case (_, _) => if from == to then Some(NoCast) else None
  }

  /** `cast`: the bitcast from one flat type to another; `None` where the source
      reaches `unreachable!`. */
  function Cast(from: WasmType, to: WasmType): Option<Bitcast>
    decreases if Direct(from, to).Some? then 0 else 1
  {
    if Direct(from, to).Some? then Direct(from, to)
    else if to == PointerOrI64 then Chain(Cast(from, I64), Cast(I64, PointerOrI64))
    else if from == PointerOrI64 then Chain(Cast(PointerOrI64, I64), Cast(I64, to))
    else if from == F32 && to in {Pointer, Length} then Chain(Cast(F32, I32), Cast(I32, to))
    else if from in {Pointer, Length} && to == F32 then Chain(Cast(from, I32), Cast(I32, F32))
    else None
  }

  function Chain(a: Option<Bitcast>, b: Option<Bitcast>): Option<Bitcast> {
    if a.Some? && b.Some? then Some(Sequence(a.value, b.value)) else None
  }

  /** Source and target type of a primitive bitcast. */
  function Ends(c: Bitcast): (WasmType, WasmType)
    requires !c.Sequence? && !c.NoCast?
  {
    match c
    case F32ToI32 => (F32, I32)
    case F64ToI64 => (F64, I64)
    case I32ToI64 => (I32, I64)
    case F32ToI64 => (F32, I64)
    case I32ToF32 => (I32, F32)
    case I64ToF64 => (I64, F64)
    case I64ToI32 => (I64, I32)
    case I64ToF32 => (I64, F32)
    case P64ToI64 => (PointerOrI64, I64)
    case I64ToP64 => (I64, PointerOrI64)
    case P64ToP => (PointerOrI64, Pointer)
    case PToP64 => (Pointer, PointerOrI64)
    case I32ToP => (I32, Pointer)
    case PToI32 => (Pointer, I32)
    case PToL => (Pointer, Length)
    case LToP => (Length, Pointer)
    case I32ToL => (I32, Length)
    case LToI32 => (Length, I32)
    case I64ToL => (I64, Length)
    case LToI64 => (Length, I64)
  }

  /** What a bitcast does at run time: zero-extend or wrap to the target width.
      Applying one to a value of another type is an error. */
  function ApplyCast(c: Bitcast, x: Core, p: PtrSize): Outcome<Core> {
    match c
    case NoCast => Ok(x)
    case Sequence(first, second) =>
      var y :- ApplyCast(first, x, p);
      ApplyCast(second, y, p)
    case _ =>
      if x.ty == Ends(c).0 then Ok(Core(Ends(c).1, x.bits % Modulus(Ends(c).1, p))) else Trap
  }

  /** The `unreachable!` arm of `cast` is exactly the incomparable pairs. */
  lemma CastDefined(a: WasmType, b: WasmType)
    ensures Cast(a, b).Some? <==> Leq(a, b) || Leq(b, a)
  {
  }

  lemma DirectEnds(from: WasmType, to: WasmType)
    requires from != to && Direct(from, to).Some?
    ensures !Direct(from, to).value.Sequence? && !Direct(from, to).value.NoCast?
    ensures Ends(Direct(from, to).value) == (from, to)
  {
  }

  lemma DirectKeeps(from: WasmType, to: WasmType, x: Core, p: PtrSize)
    requires Direct(from, to).Some? && x.ty == from && x.bits < Modulus(to, p)
    ensures ApplyCast(Direct(from, to).value, x, p) == Ok(Core(to, x.bits))
  {
    if from != to {
      DirectEnds(from, to);
      assert x.bits % Modulus(to, p) == x.bits;
    }
  }

  /** The type that the two-step casts go through. */
  function Middle(from: WasmType, to: WasmType): WasmType {
    if from == PointerOrI64 || to == PointerOrI64 then I64 else I32
  }

  lemma CastMiddle(from: WasmType, to: WasmType)
    requires Cast(from, to).Some? && Direct(from, to).None?
    ensures var m := Middle(from, to);
            Direct(from, m).Some? && Direct(m, to).Some? &&
            Cast(from, to) == Some(Sequence(Direct(from, m).value, Direct(m, to).value))
    ensures forall p: PtrSize :: Modulus(from, p) <= Modulus(Middle(from, to), p) || Modulus(to, p) <= Modulus(Middle(from, to), p)
  {
  }

  /** A cast between comparable types keeps every pattern that fits both. */
  lemma CastKeeps(from: WasmType, to: WasmType, x: Core, p: PtrSize)
    requires Cast(from, to).Some? && x.ty == from
    requires x.bits < Modulus(from, p) && x.bits < Modulus(to, p)
    ensures ApplyCast(Cast(from, to).value, x, p) == Ok(Core(to, x.bits))
  {
    if Direct(from, to).Some? {
      DirectKeeps(from, to, x, p);
    } else {
      var m := Middle(from, to);
      CastMiddle(from, to);
      DirectKeeps(from, m, x, p);
      DirectKeeps(m, to, Core(m, x.bits), p);
    }
  }

  /** Casting up and back down is the identity on bits. */
  lemma CastRoundTrip(a: WasmType, b: WasmType, x: Core, p: PtrSize)
    requires Leq(a, b) && x.ty == a && x.Valid(p)
    ensures Cast(a, b).Some? && Cast(b, a).Some?
    ensures ApplyCast(Cast(a, b).value, x, p) == Ok(Core(b, x.bits)) && x.bits < Modulus(b, p)
    ensures ApplyCast(Cast(b, a).value, Core(b, x.bits), p) == Ok(x)
  {
    CastDefined(a, b);
    CastKeeps(a, b, x, p);
    CastKeeps(b, a, Core(b, x.bits), p);
  }
}
