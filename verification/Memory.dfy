/** Linear memory, its allocator and little-endian accesses. */
module Memory {
  import opened Wrappers
  import opened CoreTypes
  import opened Layout

  type Byte = b: nat | b < 256

  /** The bytes that code may touch: static areas and blocks handed out by the allocator. */
  type Mem = map<nat, Byte>

  /** A block handed out by the allocator. */
  datatype Block = Block(addr: nat, size: nat, align: nat)

  /** `live` are the blocks whose ownership travels with the lowered value, `temps`
      the ones the lowering side cleans up itself, `dropped` the handles dropped so far. */
  datatype World = World(mem: Mem, live: set<Block>, temps: set<Block>, dropped: seq<nat>)

  // ----- integers as bytes -----

  function Pow256(k: nat): (r: nat)
    ensures r > 0
  {
    if k == 0 then 1 else 256 * Pow256(k - 1)
  }

  function Encode(n: nat, k: nat): (bs: seq<Byte>)
    ensures |bs| == k
  {
    if k == 0 then [] else [n % 256] + Encode(n / 256, k - 1)
  }

  function Decode(bs: seq<Byte>): nat {
    if bs == [] then 0 else bs[0] + 256 * Decode(bs[1..])
  }

  lemma {:induction false} DecodeEncode(n: nat, k: nat)
    requires n < Pow256(k)
    ensures Decode(Encode(n, k)) == n
  {
    if k > 0 {
      DecodeEncode(n / 256, k - 1);
      assert Encode(n, k)[1..] == Encode(n / 256, k - 1);
    }
  }

  lemma Pow256Values()
    ensures Pow256(1) == 0x100 && Pow256(2) == 0x1_0000 && Pow256(4) == TWO_32 && Pow256(8) == TWO_64
  {
    assert Pow256(2) == 256 * Pow256(1);
    assert Pow256(4) == 256 * Pow256(3) == 256 * (256 * Pow256(2));
    assert Pow256(6) == 256 * Pow256(5) == 256 * (256 * Pow256(4));
    assert Pow256(8) == 256 * Pow256(7) == 256 * (256 * Pow256(6));
  }

  // ----- reading and writing -----

  ghost predicate Mapped(m: Mem, a: nat, n: nat) {
    forall x: nat | a <= x < a + n :: x in m
  }

  function Range(a: nat, n: nat): (r: set<nat>)
    ensures forall x :: x in r <==> a <= x < a + n
    decreases n
  {
    if n == 0 then {} else {a} + Range(a + 1, n - 1)
  }

  ghost function Write(m: Mem, a: nat, bs: seq<Byte>): (r: Mem)
    ensures r.Keys == m.Keys
  {
    map x: nat | x in m :: if a <= x < a + |bs| then bs[x - a] else m[x]
  }

  ghost function Read(m: Mem, a: nat, n: nat): (bs: seq<Byte>)
    requires Mapped(m, a, n)
    ensures |bs| == n
    decreases n
  {
    if n == 0 then [] else [m[a]] + Read(m, a + 1, n - 1)
  }

  /** `m` and `r` hold the same bytes in `[a, a + n)`. */
  ghost predicate SameBytes(m: Mem, r: Mem, a: nat, n: nat) {
    forall x: nat | a <= x < a + n && x in m :: x in r && r[x] == m[x]
  }

  lemma {:induction false} ReadBack(m: Mem, a: nat, bs: seq<Byte>)
    requires Mapped(m, a, |bs|)
    requires forall i | 0 <= i < |bs| :: m[a + i] == bs[i]
    ensures Read(m, a, |bs|) == bs
    decreases |bs|
  {
    if bs != [] {
      forall i | 0 <= i < |bs[1..]| ensures m[a + 1 + i] == bs[1..][i] {
        assert m[a + (i + 1)] == bs[i + 1];
      }
      ReadBack(m, a + 1, bs[1..]);
      assert m[a + 0] == bs[0];
      assert bs == [bs[0]] + bs[1..];
    }
  }

  ghost function StoreBytes(w: World, a: nat, bs: seq<Byte>): Outcome<World> {
    if Mapped(w.mem, a, |bs|) then Ok(w.(mem := Write(w.mem, a, bs))) else Trap
  }

  ghost function LoadBytes(m: Mem, a: nat, n: nat): Outcome<seq<Byte>> {
    if Mapped(m, a, n) then Ok(Read(m, a, n)) else Trap
  }

  /** Every store of an integer must be aligned. */
  ghost function StoreInt(w: World, a: nat, n: nat, k: nat): Outcome<World> {
    if IsAlign(k) && Aligned(a, k) then StoreBytes(w, a, Encode(n, k)) else Trap
  }

  ghost function LoadInt(m: Mem, a: nat, k: nat): Outcome<nat> {
    if IsAlign(k) && Aligned(a, k) && Mapped(m, a, k) then Ok(Decode(Read(m, a, k))) else Trap
  }

  /** An access of one, two, four or eight bytes succeeds exactly at a multiple of its width
      where all of them may be touched. */
  lemma AccessIsAligned(w: World, a: nat, n: nat, k: nat)
    ensures StoreInt(w, a, n, k).Ok? <==> LoadInt(w.mem, a, k).Ok?
    ensures StoreInt(w, a, n, k).Ok? <==>
              k in {1, 2, 4, 8} && a % k == 0 && forall x: nat | a <= x < a + k :: x in w.mem
  {
  }

  lemma LoadStoredBytes(w: World, a: nat, bs: seq<Byte>, m: Mem)
    requires Mapped(w.mem, a, |bs|)
    requires SameBytes(StoreBytes(w, a, bs).value.mem, m, a, |bs|)
    ensures LoadBytes(m, a, |bs|) == Ok(bs)
  {
    var s := StoreBytes(w, a, bs).value.mem;
    assert Mapped(m, a, |bs|) by {
      forall x: nat | a <= x < a + |bs| ensures x in m { assert x in s; }
    }
    forall i | 0 <= i < |bs| ensures m[a + i] == bs[i] {
      assert a + i in s && s[a + i] == bs[i];
    }
    ReadBack(m, a, bs);
  }

  lemma LoadStoredInt(w: World, a: nat, n: nat, k: nat, m: Mem)
    requires StoreInt(w, a, n, k).Ok? && n < Pow256(k)
    requires SameBytes(StoreInt(w, a, n, k).value.mem, m, a, k)
    ensures LoadInt(m, a, k) == Ok(n)
  {
    LoadStoredBytes(w, a, Encode(n, k), m);
    DecodeEncode(n, k);
  }

  // ----- the allocator -----

  /** `a` is an admissible answer of `cabi_realloc`: aligned, inside the address
      space and disjoint from everything in use. */
  ghost predicate Fits(m: Mem, size: nat, align: nat, p: PtrSize, a: nat) {
    && IsAlign(align) && Aligned(a, align)
    && a + size <= PtrLimit(p)
    && forall x: nat | a <= x < a + size :: x !in m
  }

  ghost function MapFresh(m: Mem, a: nat, n: nat): (r: Mem)
    ensures r.Keys == m.Keys + Range(a, n)
    ensures forall x | x in m :: r[x] == m[x]
  {
    map x: nat | x in m.Keys + Range(a, n) :: if x in m then m[x] else 0
  }

  datatype Allocation = Allocation(addr: nat, w: World)

  /** An allocator that answers admissibly, and gives up only when nothing fits.
      Empty requests are answered without a block. */
  ghost function Alloc(w: World, size: nat, align: nat, p: PtrSize, own: bool): Outcome<Allocation> {
    if size == 0 then Ok(Allocation(0, w))
    else if exists a :: Fits(w.mem, size, align, p, a) then
      var a :| Fits(w.mem, size, align, p, a);
      var m := MapFresh(w.mem, a, size);
      Ok(Allocation(a, if own then w.(mem := m, live := w.live + {Block(a, size, align)})
                              else w.(mem := m, temps := w.temps + {Block(a, size, align)})))
    else OutOfMemory
  }

  /** Freeing anything but a live block is an error; its bytes become untouchable. */
  ghost function Free(w: World, a: nat, size: nat, align: nat): Outcome<World> {
    if size == 0 then Ok(w)
    else if Block(a, size, align) in w.live then
      Ok(w.(mem := w.mem - Range(a, size), live := w.live - {Block(a, size, align)}))
    else Trap
  }

  /** What was freed cannot be freed again. */
  lemma FreedOnce(w: World, a: nat, size: nat, align: nat)
    requires size > 0 && Free(w, a, size, align).Ok?
    ensures Free(Free(w, a, size, align).value, a, size, align) == Trap
  {
  }

  // ----- frames -----

  /** Every live block lies inside touchable memory. */
  ghost predicate Sound(w: World) {
    forall b | b in w.live :: b.size > 0 && Mapped(w.mem, b.addr, b.size)
  }

  /** From `w0` to `w1`: bytes outside `[a, a + n)` are unchanged, and blocks that
      appeared live in memory that appeared. */
  ghost predicate Grows(w0: World, w1: World, a: nat, n: nat) {
    && w0.mem.Keys <= w1.mem.Keys
    && (forall x | x in w0.mem && !(a <= x < a + n) :: w1.mem[x] == w0.mem[x])
    && w0.live <= w1.live
    && (forall b, x: nat | b in w1.live - w0.live && b.addr <= x < b.addr + b.size :: x in w1.mem && x !in w0.mem)
    && (forall b | b in w1.live - w0.live :: b.size > 0)
    && w1.dropped == w0.dropped
  }

  /** `m` still holds all bytes that appeared since `w0`, and those of `[a, a + n)`. */
  ghost predicate Keeps(w0: World, w1: World, a: nat, n: nat, m: Mem) {
    forall x | x in w1.mem && (a <= x < a + n || x !in w0.mem) :: x in m && m[x] == w1.mem[x]
  }

  lemma GrowsRefl(w: World, a: nat, n: nat)
    ensures Grows(w, w, a, n)
  {
  }

  lemma GrowsTrans(w0: World, w1: World, w2: World, a: nat, n: nat, a': nat, n': nat, A: nat, N: nat)
    requires Grows(w0, w1, a, n) && Grows(w1, w2, a', n')
    requires n == 0 || (A <= a && a + n <= A + N)
    requires n' == 0 || (A <= a' && a' + n' <= A + N) || forall x: nat | a' <= x < a' + n' :: x !in w0.mem
    ensures Grows(w0, w2, A, N)
  {
    forall b, x: nat | b in w2.live - w0.live && b.addr <= x < b.addr + b.size
      ensures x in w2.mem && x !in w0.mem
    {
      if b in w1.live { assert b in w1.live - w0.live; } else { assert b in w2.live - w1.live; }
    }
  }

  lemma StoreGrows(w: World, a: nat, bs: seq<Byte>)
    requires StoreBytes(w, a, bs).Ok?
    ensures Grows(w, StoreBytes(w, a, bs).value, a, |bs|)
    ensures w.mem.Keys == StoreBytes(w, a, bs).value.mem.Keys
  {
  }

  lemma AllocGrows(w: World, size: nat, align: nat, p: PtrSize, own: bool)
    requires IsAlign(align)
    requires Alloc(w, size, align, p, own).Ok?
    ensures var r := Alloc(w, size, align, p, own).value;
            && Grows(w, r.w, r.addr, 0)
            && Mapped(r.w.mem, r.addr, size)
            && (size > 0 ==> forall x: nat | r.addr <= x < r.addr + size :: x !in w.mem)
            && Aligned(r.addr, align) && r.addr < PtrLimit(p) && r.addr + size <= PtrLimit(p)
  {
  }

  lemma GrowsSound(w0: World, w1: World, a: nat, n: nat)
    requires Sound(w0) && Grows(w0, w1, a, n)
    ensures Sound(w1)
  {
    forall b | b in w1.live ensures b.size > 0 && Mapped(w1.mem, b.addr, b.size) {
      if b in w0.live {
        assert Mapped(w0.mem, b.addr, b.size);
      } else {
        assert b in w1.live - w0.live;
      }
    }
  }

  /** Later growth elsewhere does not disturb what an earlier step left behind. */
  lemma KeepsFirst(w0: World, w1: World, w2: World, a: nat, n: nat, a': nat, n': nat, A: nat, N: nat, m: Mem)
    requires Grows(w1, w2, a', n') && Keeps(w0, w2, A, N, m)
    requires n == 0 || (A <= a && a + n <= A + N)
    requires n == 0 || n' == 0 || a + n <= a' || a' + n' <= a
    requires Mapped(w0.mem, a', n')
    ensures Keeps(w0, w1, a, n, m)
  {
  }

  lemma KeepsSecond(w0: World, w1: World, w2: World, a: nat, n: nat, a': nat, n': nat, A: nat, N: nat, m: Mem)
    requires Grows(w0, w1, a, n) && Keeps(w0, w2, A, N, m)
    requires n' == 0 || (A <= a' && a' + n' <= A + N) || forall x: nat | a' <= x < a' + n' :: x !in w0.mem
    ensures Keeps(w1, w2, a', n', m)
  {
  }

  lemma MappedLater(w0: World, w1: World, a: nat, n: nat, a': nat, n': nat, A: nat, N: nat)
    requires Grows(w0, w1, a, n) && Mapped(w0.mem, A, N)
    requires n' == 0 || (A <= a' && a' + n' <= A + N)
    ensures Mapped(w0.mem, a', n') && Mapped(w1.mem, a', n')
  {
  }

  /** Two steps that write one after the other inside `[A, A + N)`, seen from `m`. */
  lemma SplitSteps(w0: World, w1: World, w2: World, a: nat, n: nat, a': nat, n': nat, A: nat, N: nat, m: Mem)
    requires Grows(w0, w1, a, n) && Grows(w1, w2, a', n')
    requires Keeps(w0, w2, A, N, m) && Mapped(w0.mem, A, N)
    requires A <= a && a + n <= a' && a' + n' <= A + N
    ensures Mapped(w0.mem, a, n) && Keeps(w0, w1, a, n, m)
    ensures Mapped(w1.mem, a', n') && Keeps(w1, w2, a', n', m)
  {
    hide Grows, Keeps, Mapped;
    MappedLater(w0, w1, a, n, a, n, A, N);
    MappedLater(w0, w1, a, n, a', n', A, N);
    KeepsFirst(w0, w1, w2, a, n, a', n', A, N, m);
    KeepsSecond(w0, w1, w2, a, n, a', n', A, N, m);
  }
}
