/** Interface-level values, their types, and the scalar conversions. */
module Values {
  import opened Wrappers
  import opened CoreTypes
  import opened Layout
  import opened Memory

  /** A value of a language binding.  Integers, characters, float bits and handles
      are numbers; a map is the list of its entries; an enum case has no payload. */
  datatype Val =
    | Num(n: int)
    | StrV(bytes: seq<Byte>)
    | ListV(elems: seq<Val>)
    | RecordV(fields: seq<Val>)
    | FlagsV(bits: seq<bool>)
    | VariantV(arm: nat, payload: Option<Val>)

  predicate InRange(s: Prim, n: int) {
    match s
    case Bool => 0 <= n < 2
    case S8 => -0x80 <= n < 0x80
    case U8 => 0 <= n < 0x100
    case S16 => -0x8000 <= n < 0x8000
    case U16 => 0 <= n < 0x1_0000
    case S32 => -0x8000_0000 <= n < 0x8000_0000
    case S64 => -0x8000_0000_0000_0000 <= n < 0x8000_0000_0000_0000
    case U64 | Float64 => 0 <= n < TWO_64
    case Char => 0 <= n < 0xD800 || 0xE000 <= n < 0x11_0000
    case _ => 0 <= n < TWO_32
  }

  predicate HasType(p: PtrSize, t: Ty, v: Val)
    decreases t
  {
    match t
    case Scalar(s) => v.Num? && InRange(s, v.n)
    case Str => v.StrV? && |v.bytes| < PtrLimit(p)
    case Alias(u) => HasType(p, u, v)
    case List(e) => v.ListV? && |v.elems| < PtrLimit(p) && forall x | x in v.elems :: HasType(p, e, x)
    case Map(e) => v.ListV? && |v.elems| < PtrLimit(p) && forall x | x in v.elems :: HasType(p, e, x)
    case FixedList(e, n) => v.ListV? && |v.elems| == n && forall x | x in v.elems :: HasType(p, e, x)
    case Record(_, fs) =>
      v.RecordV? && |v.fields| == |fs| && forall i | 0 <= i < |fs| :: HasType(p, fs[i], v.fields[i])
    case Flags(n) => v.FlagsV? && |v.bits| == n
    case Enum(n) => v.VariantV? && v.arm < n && v.payload.None?
    case Variant(_, arms) => v.VariantV? && v.arm < |arms| && ArmHasType(p, arms[v.arm], v.payload)
  }

  predicate ArmHasType(p: PtrSize, arm: Option<Ty>, payload: Option<Val>)
    decreases arm
  {
    if arm.Some? then payload.Some? && HasType(p, arm.value, payload.value) else payload.None?
  }

  // ----- scalars -----

  /** Two's complement of `n` in `m` values. */
  function Wrap(n: int, m: nat): nat
    requires m > 0
  {
    n % m
  }

  /** The signed reading of the low `m` values. */
  function Signed(n: nat, m: nat): int
    requires m > 0
  {
    if n % m < m - n % m then n % m else n % m - m
  }

  /** The `I32From*`, `I64From*` and `Core*From*` instructions. */
  function ToCore(s: Prim, n: int): Core {
    Core(CoreOf(s), Wrap(n, if CoreOf(s) in {I64, F64} then TWO_64 else TWO_32))
  }

  /** The `*FromI32`, `*FromI64` and `*FromCore*` instructions. */
  function FromCore(s: Prim, x: Core): Outcome<int> {
    if x.ty != CoreOf(s) then Trap else
    match s
    case Bool => if x.bits < 2 then Ok(x.bits) else Trap
    case S8 => Ok(Signed(x.bits, 0x100))
    case U8 => Ok(x.bits % 0x100)
    case S16 => Ok(Signed(x.bits, 0x1_0000))
    case U16 => Ok(x.bits % 0x1_0000)
    case S32 => Ok(Signed(x.bits, TWO_32))
    case S64 => Ok(Signed(x.bits, TWO_64))
    case Char => if InRange(Char, x.bits) then Ok(x.bits) else Trap
    case _ => Ok(x.bits)
  }

  /** What a scalar load leaves on the stack, given the bytes read as `n`: signed
      narrow loads extend the sign, all others extend with zeros. */
  function Extend(s: Prim, n: nat): Core {
    match s
    case S8 => Core(I32, Wrap(Signed(n, 0x100), TWO_32))
    case S16 => Core(I32, Wrap(Signed(n, 0x1_0000), TWO_32))
    case _ => Core(CoreOf(s), n)
  }

  lemma ScalarFlat(s: Prim, n: int, p: PtrSize)
    requires InRange(s, n)
    ensures ToCore(s, n).Valid(p)
    ensures FromCore(s, ToCore(s, n)) == Ok(n)
  {
    if s == S8 { Narrow(n, 0x100); }
    else if s == S16 { Narrow(n, 0x1_0000); }
    else if s == S32 { Wide(n, TWO_32); }
    else if s == S64 { Wide(n, TWO_64); }
    else { Unsigned(s, n); }
  }

  lemma Unsigned(s: Prim, n: int)
    requires InRange(s, n) && s !in {S8, S16, S32, S64}
    ensures ToCore(s, n).bits == n && n < Pow256(Width(s))
  {
    Pow256Values();
  }

  lemma Wide(n: int, m: nat)
    requires m == TWO_32 || m == TWO_64
    requires 0 <= n + n + m && n + n < m
    ensures Wrap(n, m) < m && Signed(Wrap(n, m), m) == n
  {
    if n < 0 {
      assert Wrap(n, m) == n + m;
    }
  }

  lemma Narrow(n: int, m: nat)
    requires m == 0x100 || m == 0x1_0000
    requires 0 <= n + n + m && n + n < m
    ensures Signed(Wrap(n, TWO_32), m) == n
    ensures Signed(Wrap(n, TWO_32) % m, m) == n
    ensures Wrap(n, TWO_32) % m < m
  {
    if n < 0 {
      assert Wrap(n, TWO_32) == n + TWO_32;
      assert Wrap(n, TWO_32) % m == n + m;
    }
  }

  /** The bytes a scalar store writes, as a number. */
  function LowBits(s: Prim, x: Core): nat {
    x.bits % Pow256(Width(s))
  }

  /** Storing keeps the low bytes; loading extends them back. */
  lemma ScalarMemory(s: Prim, n: int)
    requires InRange(s, n)
    ensures LowBits(s, ToCore(s, n)) < Pow256(Width(s))
    ensures Extend(s, LowBits(s, ToCore(s, n))) == ToCore(s, n)
  {
    Pow256Values();
    if s == S8 { Narrow(n, 0x100); }
    else if s == S16 { Narrow(n, 0x1_0000); }
    else if s == S32 { Wide(n, TWO_32); }
    else if s == S64 { Wide(n, TWO_64); }
    else { Unsigned(s, n); }
  }

  // ----- flags -----

  /** A group of flags as bits, the first flag in the lowest one. */
  function Pack(bits: seq<bool>): nat {
    if bits == [] then 0 else (if bits[0] then 1 else 0) + 2 * Pack(bits[1..])
  }

  function Unpack(w: nat, n: nat): (bits: seq<bool>)
    ensures |bits| == n
  {
    if n == 0 then [] else [w % 2 == 1] + Unpack(w / 2, n - 1)
  }

  function Chunk(n: nat): nat {
    if n < 32 then n else 32
  }

  /** `FlagsLower`: one 32-bit word for each group of 32 flags. */
  function ToWords(bits: seq<bool>): (ws: seq<nat>)
    ensures |ws| == FlagWords(|bits|)
  {
    if bits == [] then []
    else [Pack(bits[..Chunk(|bits|)])] + ToWords(bits[Chunk(|bits|)..])
  }

  /** `FlagsLift`. */
  function FromWords(ws: seq<nat>, n: nat): (bits: seq<bool>)
    requires |ws| == FlagWords(n)
    ensures |bits| == n
  {
    if n == 0 then []
    else Unpack(ws[0], Chunk(n)) + FromWords(ws[1..], n - Chunk(n))
  }

  function Pow2(n: nat): (r: nat)
    ensures r > 0
  {
    if n == 0 then 1 else 2 * Pow2(n - 1)
  }

  lemma {:induction false} PackUnpack(bits: seq<bool>)
    ensures Pack(bits) < Pow2(|bits|)
    ensures Unpack(Pack(bits), |bits|) == bits
  {
    if bits != [] {
      PackUnpack(bits[1..]);
      assert Pack(bits) / 2 == Pack(bits[1..]);
      assert bits == [bits[0]] + bits[1..];
    }
  }

  lemma {:induction false} WordsRoundTrip(bits: seq<bool>)
    ensures FromWords(ToWords(bits), |bits|) == bits
  {
    hide Pack, Unpack;
    if bits != [] {
      var k := Chunk(|bits|);
      PackUnpack(bits[..k]);
      WordsRoundTrip(bits[k..]);
      assert ToWords(bits)[1..] == ToWords(bits[k..]);
      assert bits == bits[..k] + bits[k..];
    }
  }

  lemma Pow2Mono(m: nat, n: nat)
    requires m <= n
    ensures Pow2(m) <= Pow2(n)
    decreases n
  {
    if m < n {
      Pow2Mono(m, n - 1);
    }
  }

  lemma Pow2Values()
    ensures Pow2(8) == 0x100 && Pow2(16) == 0x1_0000 && Pow2(32) == TWO_32
  {
    assert Pow2(4) == 2 * Pow2(3) == 4 * Pow2(2) == 16;
    assert Pow2(8) == 2 * Pow2(7) == 4 * Pow2(6) == 8 * Pow2(5) == 16 * Pow2(4);
    assert Pow2(12) == 2 * Pow2(11) == 4 * Pow2(10) == 8 * Pow2(9) == 16 * Pow2(8);
    assert Pow2(16) == 2 * Pow2(15) == 4 * Pow2(14) == 8 * Pow2(13) == 16 * Pow2(12);
    assert Pow2(20) == 2 * Pow2(19) == 4 * Pow2(18) == 8 * Pow2(17) == 16 * Pow2(16);
    assert Pow2(24) == 2 * Pow2(23) == 4 * Pow2(22) == 8 * Pow2(21) == 16 * Pow2(20);
    assert Pow2(28) == 2 * Pow2(27) == 4 * Pow2(26) == 8 * Pow2(25) == 16 * Pow2(24);
    assert Pow2(32) == 2 * Pow2(31) == 4 * Pow2(30) == 8 * Pow2(29) == 16 * Pow2(28);
  }

  /** Every word fits 32 bits, and the only word of a narrow group fits its bytes. */
  lemma {:induction false} WordsFit(bits: seq<bool>)
    ensures forall w | w in ToWords(bits) :: w < TWO_32
    ensures |bits| <= 8 ==> forall w | w in ToWords(bits) :: w < 0x100
    ensures |bits| <= 16 ==> forall w | w in ToWords(bits) :: w < 0x1_0000
  {
    if bits != [] {
      var k := Chunk(|bits|);
      PackUnpack(bits[..k]);
      Pow2Values();
      Pow2Mono(k, 32);
      if |bits| <= 16 { Pow2Mono(k, 16); }
      if |bits| <= 8 { Pow2Mono(k, 8); }
      WordsFit(bits[k..]);
    }
  }
}
