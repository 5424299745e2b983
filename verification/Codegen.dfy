/** What the generator emits for `lower`, `lift`, `write_to_memory` and
    `read_from_memory`, as functions of the type: the statements, the variables left
    on the stack, and the next unused variable. */
module Codegen {
  import opened Wrappers
  import opened CoreTypes
  import opened Layout
  import opened Values
  import opened CanonicalAbi
  import opened Code

  /** Pointer width, whether a `realloc` is given, and which element types the
      backend stores in the canonical layout. */
  datatype Gen = Gen(p: PtrSize, own: bool, canonical: Ty -> bool)

  datatype Chunk = Chunk(code: seq<Stmt>, outs: seq<Var>, next: Var)

  /** A finished block. */
  datatype Writer = Writer(block: CodeBlock, next: Var)

  /** The blocks of all cases, and their payload names where there are any. */
  datatype Arms = Arms(blocks: seq<CodeBlock>, payloads: seq<Var>, next: Var)

  function Fresh(n: Var, k: nat): (xs: seq<Var>)
    ensures |xs| == k
    ensures forall x | x in xs :: n <= x < n + k
  {
    seq(k, i requires 0 <= i < k => n + i)
  }

  /** What a chunk leaves was defined before its `next`. */
  predicate Scoped(c: Chunk) {
    AllBelow(c.outs, c.next)
  }

  predicate AllBelow(xs: seq<Var>, n: Var) {
    forall x | x in xs :: x < n
  }

  /** One instruction that takes finished blocks. */
  function Take(i: Inst, args: seq<Var>, n: Var, blocks: seq<CodeBlock>, payloads: seq<Var>): (c: Chunk)
    ensures |c.outs| == ResultsLen(i) && c.next == n + ResultsLen(i) && Scoped(c)
  {
    Chunk([Stmt(i, args, Fresh(n, ResultsLen(i)), blocks, payloads)], Fresh(n, ResultsLen(i)), n + ResultsLen(i))
  }

  /** One instruction without blocks. */
  function One(i: Inst, args: seq<Var>, n: Var): (c: Chunk)
    ensures |c.outs| == ResultsLen(i) && c.next == n + ResultsLen(i) && Scoped(c)
  {
    Take(i, args, n, [], [])
  }

  /** `a`, then `b`, keeping what `b` leaves. */
  function Then(a: Chunk, b: Chunk): Chunk {
    Chunk(a.code + b.code, b.outs, b.next)
  }

  /** `a`, then `b`, keeping what both leave. */
  function Both(a: Chunk, b: Chunk): (c: Chunk)
    ensures Scoped(a) && Scoped(b) && a.next <= b.next ==> Scoped(c)
  {
    Chunk(a.code + b.code, a.outs + b.outs, b.next)
  }

  predicate AllWellFormed(fs: seq<Ty>) {
    forall f | f in fs :: WellFormed(f)
  }

  predicate ArmsWellFormed(arms: seq<Option<Ty>>) {
    forall a | a in arms && a.Some? :: WellFormed(a.value)
  }

  /** All cases fit the shared payload slots. */
  predicate ArmsBelow(arms: seq<Option<Ty>>, slots: seq<WasmType>) {
    forall i | 0 <= i < |arms| :: Below(FlatArm(arms[i]), slots)
  }

  lemma AllArmsBelow(arms: seq<Option<Ty>>)
    ensures ArmsBelow(arms, FlatArms(arms))
  {
    forall i | 0 <= i < |arms| ensures Below(FlatArm(arms[i]), FlatArms(arms)) {
      ArmBelow(arms, i);
    }
  }

  // ----- choosing instructions -----

  function LoadOpOf(s: Prim): LoadOp {
    match s
    case Bool | U8 => I32Load8U
    case S8 => I32Load8S
    case U16 => I32Load16U
    case S16 => I32Load16S
    case U64 | S64 => I64Load
    case Float32 => F32Load
    case Float64 => F64Load
    case _ => I32Load
  }

  function StoreOpOf(s: Prim): StoreOp {
    match s
    case Bool | U8 | S8 => I32Store8
    case U16 | S16 => I32Store16
    case U64 | S64 => I64Store
    case Float32 => F32Store
    case Float64 => F64Store
    case _ => I32Store
  }

  /** `load_intrepr` and `store_intrepr`. */
  function LoadTag(size: nat): LoadOp {
    if size == 1 then I32Load8U else if size == 2 then I32Load16U else I32Load
  }

  function StoreTag(size: nat): StoreOp {
    if size == 1 then I32Store8 else if size == 2 then I32Store16 else I32Store
  }

  function ValueOffset(p: PtrSize, entry: Ty): nat
    requires entry.Record? && |entry.fields| == 2
  {
    FieldOffset(p, entry.fields[1], Size(p, entry.fields[0]))
  }

  /** Bitcasts are emitted only when one of them does something. */
  function CastCode(casts: seq<Bitcast>, xs: seq<Var>, n: Var): (c: Chunk)
    requires |casts| == |xs|
    ensures |c.outs| == |xs| && n <= c.next
    ensures AllBelow(xs, n) ==> Scoped(c)
  {
    if forall i | 0 <= i < |casts| :: casts[i] == NoCast then Chunk([], xs, n)
    else One(Bitcasts(casts), xs, n)
  }

  // ----- lower -----

  function LowerCode(g: Gen, t: Ty, x: Var, n: Var): (c: Chunk)
    requires WellFormed(t)
    ensures n <= c.next && |c.outs| == |Flat(t)| && Scoped(c)
    decreases t, 2
  {
    hide LowerCode, LowerListCode, LowerMapCode, LowerRepeatCode, LowerFieldsCode, LowerVariantCode, FlatFields, FlatRepeat, FlatArms;
    match t
    case Scalar(s) => One(ScalarLower(s), [x], n)
    case Str => One(StringLower(g.own), [x], n)
    case Alias(u) => LowerCode(g, u, x, n)
    case List(e) => LowerListCode(g, e, x, n)
    case Map(e) => LowerMapCode(g, e, x, n)
    case FixedList(e, len) =>
      var d := One(FixedListLower(e, len), [x], n);
      Then(d, LowerRepeatCode(g, e, d.outs, d.next))
    case Record(rk, fs) =>
      var d := One(RecordLower(rk, |fs|), [x], n);
      Then(d, LowerFieldsCode(g, fs, d.outs, d.next))
    case Flags(k) => One(FlagsLower(k), [x], n)
    case Enum(k) => One(EnumLower(k), [x], n)
    case Variant(vk, arms) => LowerVariantCode(g, vk, arms, x, n)
  }

  function LowerListCode(g: Gen, e: Ty, x: Var, n: Var): (c: Chunk)
    requires WellFormed(e)
    ensures n <= c.next && |c.outs| == 2 && Scoped(c)
    decreases e, 6
  {
    hide ElemWriter;
    if g.canonical(e) then One(ListCanonLower(e, g.own), [x], n)
    else
      var w := ElemWriter(g, e, 0, n);
      Take(ListLower(e, g.own), [x], w.next, [w.block], [])
  }

  function LowerMapCode(g: Gen, e: Ty, x: Var, n: Var): (c: Chunk)
    requires WellFormed(e) && e.Record? && |e.fields| == 2
    ensures n <= c.next && |c.outs| == 2 && Scoped(c)
    decreases e, 6
  {
    hide EntryWriter;
    var w := EntryWriter(g, e, n);
    Take(MapLower(e, g.own), [x], w.next, [w.block], [])
  }

  function LowerVariantCode(g: Gen, vk: VariantKind, arms: seq<Option<Ty>>, x: Var, n: Var): (c: Chunk)
    requires ArmsWellFormed(arms)
    ensures n <= c.next && |c.outs| == 1 + |FlatArms(arms)| && Scoped(c)
    decreases arms, 1
  {
    hide LowerArmsCode, FlatArms;
    AllArmsBelow(arms);
    var a := LowerArmsCode(g, arms, 0, FlatArms(arms), n);
    Take(VariantLower(vk, arms, [I32] + FlatArms(arms)), [x], a.next, a.blocks, a.payloads)
  }

  function LowerFieldsCode(g: Gen, fs: seq<Ty>, xs: seq<Var>, n: Var): (c: Chunk)
    requires |xs| == |fs| && AllWellFormed(fs)
    ensures n <= c.next && |c.outs| == |FlatFields(fs)| && Scoped(c)
    decreases fs, 0
  {
    if fs == [] then Chunk([], [], n)
    else
      var c := LowerCode(g, fs[0], xs[0], n);
      Both(c, LowerFieldsCode(g, fs[1..], xs[1..], c.next))
  }

  function LowerRepeatCode(g: Gen, e: Ty, xs: seq<Var>, n: Var): (c: Chunk)
    requires WellFormed(e)
    ensures n <= c.next && |c.outs| == |FlatRepeat(e, |xs|)| && Scoped(c)
    decreases e, |xs| + 4
  {
    if xs == [] then Chunk([], [], n)
    else
      var c := LowerCode(g, e, xs[0], n);
      Both(c, LowerRepeatCode(g, e, xs[1..], c.next))
  }

  function LowerArmsCode(g: Gen, arms: seq<Option<Ty>>, i: nat, slots: seq<WasmType>, n: Var): (r: Arms)
    requires ArmsWellFormed(arms) && ArmsBelow(arms, slots)
    ensures n <= r.next && |r.blocks| == |r.payloads| == |arms|
    decreases arms, 0
  {
    if arms == [] then Arms([], [], n)
    else
      assert arms[0] in arms;
      var w := LowerArmCode(g, arms[0], i, slots, n);
      var rest := LowerArmsCode(g, arms[1..], i + 1, slots, w.next);
      Arms([w.block] + rest.blocks, [n] + rest.payloads, rest.next)
  }

  /** The block of one case; its payload name is `n`. */
  function LowerArmCode(g: Gen, arm: Option<Ty>, i: nat, slots: seq<WasmType>, n: Var): (r: Writer)
    requires (arm.Some? ==> WellFormed(arm.value)) && Below(FlatArm(arm), slots)
    ensures n < r.next && |r.block.results| == 1 + |slots| && AllBelow(r.block.results, r.next)
    decreases arm, 0
  {
    var tag := One(I32Const(i), [], n + 1);
    if arm.None? then
      PadBlock(tag, Chunk([], [], tag.next), slots)
    else
      var l := LowerCode(g, arm.value, n, tag.next);
      var b := CastCode(CastsUp(FlatArm(arm), slots), l.outs, l.next);
      PadBlock(tag, Then(l, b), slots)
  }

  /** Discriminant, payload words, and zeros for the slots that are left. */
  function PadBlock(tag: Chunk, c: Chunk, slots: seq<WasmType>): (r: Writer)
    requires |tag.outs| == 1 && |c.outs| <= |slots| && Scoped(tag) && Scoped(c) && tag.next <= c.next
    ensures c.next <= r.next && |r.block.results| == 1 + |slots| && AllBelow(r.block.results, r.next)
  {
    if |c.outs| == |slots| then Writer(CodeBlock(tag.code + c.code, tag.outs + c.outs), c.next)
    else
      var z := One(ConstZero(slots[|c.outs|..]), [], c.next);
      Writer(CodeBlock(tag.code + c.code + z.code, tag.outs + c.outs + z.outs), z.next)
  }

  /** Fetches a value with an `Iter*` instruction and stores it at `off` from the loop's address. */
  function IterWriteCode(g: Gen, i: Inst, t: Ty, off: nat, n: Var): (c: Chunk)
    requires (i.IterElem? || i.IterMapKey? || i.IterMapValue?) && WellFormed(t)
    ensures n <= c.next && c.outs == []
    decreases t, 4
  {
    hide WriteCode;
    var x := One(i, [], n);
    var a := One(IterBasePointer, [], x.next);
    Then(Then(x, a), WriteCode(g, t, x.outs[0], a.outs[0], off, a.next))
  }

  /** The block that stores one list element. */
  function ElemWriter(g: Gen, e: Ty, off: nat, n: Var): (r: Writer)
    requires WellFormed(e)
    ensures n <= r.next
    decreases e, 5
  {
    hide IterWriteCode;
    var c := IterWriteCode(g, IterElem, e, off, n);
    Writer(CodeBlock(c.code, []), c.next)
  }

  /** The block that stores one map entry: the key, then the value. */
  function EntryWriter(g: Gen, e: Ty, n: Var): (r: Writer)
    requires WellFormed(e) && e.Record? && |e.fields| == 2
    ensures n <= r.next
    decreases e, 5
  {
    hide IterWriteCode;
    var key, val := e.fields[0], e.fields[1];
    assert key in e.fields && val in e.fields;
    var first := IterWriteCode(g, IterMapKey, key, 0, n);
    var second := IterWriteCode(g, IterMapValue, val, ValueOffset(g.p, e), first.next);
    Writer(CodeBlock(Then(first, second).code, []), second.next)
  }

  // ----- write_to_memory -----

  function WriteCode(g: Gen, t: Ty, x: Var, a: Var, off: nat, n: Var): (c: Chunk)
    requires WellFormed(t)
    ensures n <= c.next && c.outs == []
    decreases t, 3
  {
    hide LowerCode, WriteCode, WritePairCode, ElemWriter, WriteFieldsCode, WriteWordsCode, WriteVariantCode, TagSize, FlagBytes;
    match t
    case Scalar(s) =>
      var l := LowerCode(g, t, x, n);
      Then(l, One(StoreTo(StoreOpOf(s), off), l.outs + [a], l.next))
    case Alias(u) => WriteCode(g, u, x, a, off, n)
    case Str | List(_) | Map(_) => WritePairCode(g, LowerCode(g, t, x, n), a, off)
    case FixedList(e, len) =>
      var w := ElemWriter(g, e, off, n);
      Take(FixedListLowerToMemory(e, len), [x, a], w.next, [w.block], [])
    case Record(rk, fs) =>
      var d := One(RecordLower(rk, |fs|), [x], n);
      Then(d, WriteFieldsCode(g, fs, d.outs, a, off, 0, d.next))
    case Flags(k) =>
      var l := LowerCode(g, t, x, n);
      Then(l, if 0 < k <= 16 then One(StoreTo(StoreTag(FlagBytes(k)), off), l.outs + [a], l.next)
              else WriteWordsCode(l.outs, a, off, l.next))
    case Enum(k) =>
      var l := LowerCode(g, t, x, n);
      Then(l, One(StoreTo(StoreTag(TagSize(k)), off), l.outs + [a], l.next))
    case Variant(vk, arms) => WriteVariantCode(g, vk, arms, x, a, off, n)
  }

  /** `write_list_to_memory`: the length above the pointer. */
  function WritePairCode(g: Gen, l: Chunk, a: Var, off: nat): (c: Chunk)
    requires |l.outs| == 2
    ensures l.next <= c.next && c.outs == []
  {
    var s := One(StoreTo(LengthStore, off + g.p), [l.outs[1], a], l.next);
    Then(l, Then(s, One(StoreTo(PointerStore, off), [l.outs[0], a], s.next)))
  }

  function WriteVariantCode(g: Gen, vk: VariantKind, arms: seq<Option<Ty>>, x: Var, a: Var, off: nat, n: Var): (c: Chunk)
    requires ArmsWellFormed(arms)
    ensures n <= c.next && c.outs == []
    decreases arms, 1
  {
    hide WriteArmsCode, TagSize, PayloadOffset;
    var r := WriteArmsCode(g, arms, 0, a, off, off + PayloadOffset(g.p, arms), TagSize(|arms|), n);
    Take(VariantLower(vk, arms, []), [x], r.next, r.blocks, r.payloads)
  }

  /** Flags words are stored last word first. */
  function WriteWordsCode(xs: seq<Var>, a: Var, off: nat, n: Var): (c: Chunk)
    ensures n <= c.next && c.outs == []
  {
    if xs == [] then Chunk([], [], n)
    else
      var i := |xs| - 1;
      var c := One(StoreTo(I32Store, off + 4 * i), [xs[i], a], n);
      Then(c, WriteWordsCode(xs[..i], a, off, c.next))
  }

  function WriteFieldsCode(g: Gen, fs: seq<Ty>, xs: seq<Var>, a: Var, off: nat, pos: nat, n: Var): (c: Chunk)
    requires |xs| == |fs| && AllWellFormed(fs)
    ensures n <= c.next && c.outs == []
    decreases fs, 0
  {
    if fs == [] then Chunk([], [], n)
    else
      var o := FieldOffset(g.p, fs[0], pos);
      var c := WriteCode(g, fs[0], xs[0], a, off + o, n);
      Then(c, WriteFieldsCode(g, fs[1..], xs[1..], a, off, o + Size(g.p, fs[0]), c.next))
  }

  function WriteArmsCode(g: Gen, arms: seq<Option<Ty>>, i: nat, a: Var, off: nat, payload: nat, tag: nat, n: Var): (r: Arms)
    requires ArmsWellFormed(arms)
    ensures n <= r.next && |r.blocks| == |r.payloads| == |arms|
    decreases arms, 0
  {
    if arms == [] then Arms([], [], n)
    else
      assert arms[0] in arms;
      var w := WriteArmCode(g, arms[0], i, a, off, payload, tag, n);
      var rest := WriteArmsCode(g, arms[1..], i + 1, a, off, payload, tag, w.next);
      Arms([w.block] + rest.blocks, [n] + rest.payloads, rest.next)
  }

  /** Stores the discriminant, then the payload if there is one. */
  function WriteArmCode(g: Gen, arm: Option<Ty>, i: nat, a: Var, off: nat, payload: nat, tag: nat, n: Var): (r: Writer)
    requires arm.Some? ==> WellFormed(arm.value)
    ensures n < r.next
    decreases arm, 0
  {
    var c := One(I32Const(i), [], n + 1);
    var s := Then(c, One(StoreTo(StoreTag(tag), off), c.outs + [a], c.next));
    if arm.None? then Writer(CodeBlock(s.code, []), s.next)
    else
      var b := Then(s, WriteCode(g, arm.value, n, a, payload, s.next));
      Writer(CodeBlock(b.code, []), b.next)
  }

  // ----- lift -----

  function LiftCode(g: Gen, t: Ty, xs: seq<Var>, n: Var): (c: Chunk)
    requires WellFormed(t) && |xs| == |Flat(t)|
    ensures n <= c.next && |c.outs| == 1 && Scoped(c)
    decreases t, 2
  {
    hide LiftCode, LiftListCode, LiftMapCode, LiftRepeatCode, LiftFieldsCode, LiftVariantCode, FlatFields, FlatRepeat, FlatArms;
    match t
    case Scalar(s) => One(ScalarLift(s), xs, n)
    case Str => One(StringLift, xs, n)
    case Alias(u) => LiftCode(g, u, xs, n)
    case List(e) => LiftListCode(g, e, xs, n)
    case Map(e) => LiftMapCode(g, e, xs, n)
    case FixedList(e, len) =>
      var c := LiftRepeatCode(g, e, len, xs, n);
      Then(c, One(FixedListLift(e, len), c.outs, c.next))
    case Record(rk, fs) =>
      var c := LiftFieldsCode(g, fs, xs, n);
      Then(c, One(RecordLift(rk, |fs|), c.outs, c.next))
    case Flags(k) => One(FlagsLift(k), xs, n)
    case Enum(k) => One(EnumLift(k), xs, n)
    case Variant(vk, arms) => LiftVariantCode(g, vk, arms, xs, n)
  }

  function LiftListCode(g: Gen, e: Ty, xs: seq<Var>, n: Var): (c: Chunk)
    requires WellFormed(e)
    ensures n <= c.next && |c.outs| == 1 && Scoped(c)
    decreases e, 5
  {
    hide ElemReader;
    if g.canonical(e) then One(ListCanonLift(e), xs, n)
    else
      var w := ElemReader(g, e, 0, n);
      Take(ListLift(e), xs, w.next, [w.block], [])
  }

  function LiftMapCode(g: Gen, e: Ty, xs: seq<Var>, n: Var): (c: Chunk)
    requires WellFormed(e) && e.Record? && |e.fields| == 2
    ensures n <= c.next && |c.outs| == 1 && Scoped(c)
    decreases e, 5
  {
    hide EntryReader;
    var w := EntryReader(g, e, n);
    Take(MapLift(e), xs, w.next, [w.block], [])
  }

  function LiftVariantCode(g: Gen, vk: VariantKind, arms: seq<Option<Ty>>, xs: seq<Var>, n: Var): (c: Chunk)
    requires ArmsWellFormed(arms) && |xs| == 1 + |FlatArms(arms)|
    ensures n <= c.next && |c.outs| == 1 && Scoped(c)
    decreases arms, 1
  {
    hide LiftArmsCode, FlatArms;
    AllArmsBelow(arms);
    var a := LiftArmsCode(g, arms, FlatArms(arms), xs[1..], n);
    Take(VariantLift(vk, arms), [xs[0]], a.next, a.blocks, [])
  }

  function LiftFieldsCode(g: Gen, fs: seq<Ty>, xs: seq<Var>, n: Var): (c: Chunk)
    requires AllWellFormed(fs) && |xs| == |FlatFields(fs)|
    ensures n <= c.next && |c.outs| == |fs| && Scoped(c)
    decreases fs, 0
  {
    if fs == [] then Chunk([], [], n)
    else
      var k := |Flat(fs[0])|;
      var c := LiftCode(g, fs[0], xs[..k], n);
      Both(c, LiftFieldsCode(g, fs[1..], xs[k..], c.next))
  }

  function LiftRepeatCode(g: Gen, e: Ty, len: nat, xs: seq<Var>, n: Var): (c: Chunk)
    requires WellFormed(e) && |xs| == |FlatRepeat(e, len)|
    ensures n <= c.next && |c.outs| == len && Scoped(c)
    decreases e, len + 4
  {
    if len == 0 then Chunk([], [], n)
    else
      var k := |Flat(e)|;
      var c := LiftCode(g, e, xs[..k], n);
      Both(c, LiftRepeatCode(g, e, len - 1, xs[k..], c.next))
  }

  /** Every case reads the same variables. */
  function LiftArmsCode(g: Gen, arms: seq<Option<Ty>>, slots: seq<WasmType>, xs: seq<Var>, n: Var): (r: Arms)
    requires ArmsWellFormed(arms) && ArmsBelow(arms, slots) && |xs| == |slots|
    ensures n <= r.next && |r.blocks| == |arms|
    decreases arms, 0
  {
    if arms == [] then Arms([], [], n)
    else
      assert arms[0] in arms;
      var w := LiftArmCode(g, arms[0], slots, xs, n);
      var rest := LiftArmsCode(g, arms[1..], slots, xs, w.next);
      Arms([w.block] + rest.blocks, [], rest.next)
  }

  function LiftArmCode(g: Gen, arm: Option<Ty>, slots: seq<WasmType>, xs: seq<Var>, n: Var): (r: Writer)
    requires (arm.Some? ==> WellFormed(arm.value)) && Below(FlatArm(arm), slots) && |xs| == |slots|
    ensures n <= r.next
    decreases arm, 0
  {
    if arm.None? then Writer(CodeBlock([], []), n)
    else
      var b := CastCode(CastsDown(FlatArm(arm), slots), xs[..|FlatArm(arm)|], n);
      var c := Then(b, LiftCode(g, arm.value, b.outs, b.next));
      Writer(CodeBlock(c.code, c.outs), c.next)
  }

  /** The block that loads one list element. */
  function ElemReader(g: Gen, e: Ty, off: nat, n: Var): (r: Writer)
    requires WellFormed(e)
    ensures n <= r.next
    decreases e, 4
  {
    hide ReadCode;
    var a := One(IterBasePointer, [], n);
    var c := ReadCode(g, e, a.outs[0], off, a.next);
    Writer(CodeBlock(a.code + c.code, c.outs), c.next)
  }

  function EntryReader(g: Gen, e: Ty, n: Var): (r: Writer)
    requires WellFormed(e) && e.Record? && |e.fields| == 2
    ensures n <= r.next
    decreases e, 4
  {
    hide ReadCode;
    var key, val := e.fields[0], e.fields[1];
    assert key in e.fields && val in e.fields;
    var a := One(IterBasePointer, [], n);
    var kc := ReadCode(g, key, a.outs[0], 0, a.next);
    var vc := ReadCode(g, val, a.outs[0], ValueOffset(g.p, e), kc.next);
    var c := Then(a, Both(kc, vc));
    Writer(CodeBlock(c.code, c.outs), c.next)
  }

  // ----- read_from_memory -----

  function ReadCode(g: Gen, t: Ty, a: Var, off: nat, n: Var): (c: Chunk)
    requires WellFormed(t)
    ensures n <= c.next && |c.outs| == 1 && Scoped(c)
    decreases t, 3
  {
    hide LiftCode, ReadCode, ReadPairCode, ElemReader, ReadFieldsCode, ReadWordsCode, ReadVariantCode, TagSize, FlagBytes;
    match t
    case Scalar(s) =>
      var l := One(LoadFrom(LoadOpOf(s), off), [a], n);
      Then(l, LiftCode(g, t, l.outs, l.next))
    case Alias(u) => ReadCode(g, u, a, off, n)
    case Str | List(_) | Map(_) =>
      var b := ReadPairCode(g, a, off, n);
      Then(b, LiftCode(g, t, b.outs, b.next))
    case FixedList(e, len) =>
      var w := ElemReader(g, e, off, n);
      Take(FixedListLiftFromMemory(e, len), [a], w.next, [w.block], [])
    case Record(rk, fs) =>
      var c := ReadFieldsCode(g, fs, a, off, 0, n);
      Then(c, One(RecordLift(rk, |fs|), c.outs, c.next))
    case Flags(k) =>
      var l := if 0 < k <= 16 then One(LoadFrom(LoadTag(FlagBytes(k)), off), [a], n)
               else ReadWordsCode(FlagWords(k), a, off, n);
      Then(l, LiftCode(g, t, l.outs, l.next))
    case Enum(k) =>
      var l := One(LoadFrom(LoadTag(TagSize(k)), off), [a], n);
      Then(l, LiftCode(g, t, l.outs, l.next))
    case Variant(vk, arms) => ReadVariantCode(g, vk, arms, a, off, n)
  }

  /** `read_list_from_memory`, up to the lifting. */
  function ReadPairCode(g: Gen, a: Var, off: nat, n: Var): (c: Chunk)
    ensures n <= c.next && |c.outs| == 2 && Scoped(c)
  {
    var ptr := One(LoadFrom(PointerLoad, off), [a], n);
    Both(ptr, One(LoadFrom(LengthLoad, off + g.p), [a], ptr.next))
  }

  function ReadVariantCode(g: Gen, vk: VariantKind, arms: seq<Option<Ty>>, a: Var, off: nat, n: Var): (c: Chunk)
    requires ArmsWellFormed(arms)
    ensures n <= c.next && |c.outs| == 1 && Scoped(c)
    decreases arms, 1
  {
    hide ReadArmsCode, TagSize, PayloadOffset;
    var l := One(LoadFrom(LoadTag(TagSize(|arms|)), off), [a], n);
    var r := ReadArmsCode(g, arms, a, off + PayloadOffset(g.p, arms), l.next);
    Then(l, Take(VariantLift(vk, arms), l.outs, r.next, r.blocks, []))
  }

  function ReadWordsCode(k: nat, a: Var, off: nat, n: Var): (c: Chunk)
    ensures n <= c.next && |c.outs| == k && Scoped(c)
    decreases k
  {
    if k == 0 then Chunk([], [], n)
    else
      var c := One(LoadFrom(I32Load, off), [a], n);
      Both(c, ReadWordsCode(k - 1, a, off + 4, c.next))
  }

  function ReadFieldsCode(g: Gen, fs: seq<Ty>, a: Var, off: nat, pos: nat, n: Var): (c: Chunk)
    requires AllWellFormed(fs)
    ensures n <= c.next && |c.outs| == |fs| && Scoped(c)
    decreases fs, 0
  {
    if fs == [] then Chunk([], [], n)
    else
      var o := FieldOffset(g.p, fs[0], pos);
      var c := ReadCode(g, fs[0], a, off + o, n);
      Both(c, ReadFieldsCode(g, fs[1..], a, off, o + Size(g.p, fs[0]), c.next))
  }

  function ReadArmsCode(g: Gen, arms: seq<Option<Ty>>, a: Var, off: nat, n: Var): (r: Arms)
    requires ArmsWellFormed(arms)
    ensures n <= r.next && |r.blocks| == |arms|
    decreases arms, 0
  {
    if arms == [] then Arms([], [], n)
    else
      assert arms[0] in arms;
      var w := ReadArmCode(g, arms[0], a, off, n);
      var rest := ReadArmsCode(g, arms[1..], a, off, w.next);
      Arms([w.block] + rest.blocks, [], rest.next)
  }

  function ReadArmCode(g: Gen, arm: Option<Ty>, a: Var, off: nat, n: Var): (r: Writer)
    requires arm.Some? ==> WellFormed(arm.value)
    ensures n <= r.next
    decreases arm, 0
  {
    if arm.None? then Writer(CodeBlock([], []), n)
    else
      var c := ReadCode(g, arm.value, a, off, n);
      Writer(CodeBlock(c.code, c.outs), c.next)
  }
}
