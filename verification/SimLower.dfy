/** The code emitted by `lower` and `write_to_memory` does exactly what the Canonical
    ABI's flat lowering and storing say, for every type, value and memory. */
module SimLower {
  import opened Wrappers
  import opened CoreTypes
  import opened Layout
  import opened Memory
  import opened Values
  import opened CanonicalAbi
  import opened AbiFlat
  import opened AbiRoundTrip
  import opened Code
  import opened Codegen
  import opened Simulation

  function CfgOf(g: Gen): Cfg {
    Cfg(g.p, g.own)
  }

  function FlatEffect(o: Outcome<Lowered>): Outcome<Effect> {
    var r :- o;
    Ok(Effect(CoreOps(r.flat), r.w))
  }

  function WorldEffect(o: Outcome<World>): Outcome<Effect> {
    var w :- o;
    Ok(Effect([], w))
  }

  function BufferEffect(o: Outcome<Buffer>): Outcome<Effect> {
    var b :- o;
    Ok(Effect(CoreOps([Core(Pointer, b.ptr), Core(Length, b.len)]), b.w))
  }

  function CastEffect(o: Outcome<seq<Core>>, w: World): Outcome<Effect> {
    var ys :- o;
    Ok(Effect(CoreOps(ys), w))
  }

  /** The operand `x` holds `v`, of type `t`. */
  ghost predicate Holds(k: Ctx, g: Gen, t: Ty, v: Val, x: Var, n: Var, s: Machine) {
    && k.p == g.p && WellFormed(t) && HasType(g.p, t, v)
    && x < n && x in s.env && s.env[x] == ValOp(v)
  }

  /** The operand `a` holds the address `addr`. */
  ghost predicate Points(a: Var, addr: nat, n: Var, s: Machine) {
    a < n && a in s.env && s.env[a] == CoreOp(Core(Pointer, addr))
  }

  lemma PointsLater(k: Ctx, c: Chunk, n: Var, s: Machine, o: Outcome<Effect>, a: Var, addr: nat)
    requires Yields(k, c, n, s, o) && o.Ok? && Points(a, addr, n, s) && n <= c.next
    ensures Points(a, addr, c.next, After(k, c, s))
  {
    hide Run;
  }

  lemma Single(env: Env, x: Var)
    requires x in env
    ensures Lookup(env, [x]) == Ok([env[x]])
  {
    assert [x][1..] == [] && Lookup(env, []) == Ok([]);
    assert [env[x]] + [] == [env[x]];
  }

  lemma Pair(env: Env, x: Var, y: Var)
    requires x in env && y in env
    ensures Lookup(env, [x, y]) == Ok([env[x], env[y]])
  {
    Single(env, y);
    assert [x, y][1..] == [y];
    assert [env[x]] + [env[y]] == [env[x], env[y]];
  }

  // ----- bitcasts -----

  lemma {:induction false} NoCasts(casts: seq<Bitcast>, xs: seq<Core>, p: PtrSize)
    requires |casts| == |xs| && forall i | 0 <= i < |casts| :: casts[i] == NoCast
    ensures ApplyCasts(casts, xs, p) == Ok(xs)
    decreases |casts|
  {
    if casts != [] {
      forall i | 0 <= i < |casts[1..]| ensures casts[1..][i] == NoCast { assert casts[i + 1] == NoCast; }
      NoCasts(casts[1..], xs[1..], p);
      assert xs == [xs[0]] + xs[1..];
    }
  }

  lemma CastSim(k: Ctx, casts: seq<Bitcast>, xs: seq<Var>, cs: seq<Core>, n: Var, s: Machine)
    requires |casts| == |xs| && Lookup(s.env, xs) == Ok(CoreOps(cs))
    ensures |cs| == |casts|
    ensures Yields(k, CastCode(casts, xs, n), n, s, CastEffect(ApplyCasts(casts, cs, k.p), s.w))
  {
    hide Yields, ApplyCast, Run;
    if forall i | 0 <= i < |casts| :: casts[i] == NoCast {
      NoCasts(casts, cs, k.p);
      YieldsNothing(k, n, s, xs, CoreOps(cs));
    } else {
      CoresOf(cs);
      YieldsOne(k, Bitcasts(casts), xs, n, n, s, CoreOps(cs), CastEffect(ApplyCasts(casts, cs, k.p), s.w));
    }
  }

  // ----- lower -----

  lemma {:induction false} LowerSim(k: Ctx, g: Gen, t: Ty, v: Val, x: Var, n: Var, s: Machine)
    requires Holds(k, g, t, v, x, n, s)
    ensures Yields(k, LowerCode(g, t, x, n), n, s, FlatEffect(LowerFlat(CfgOf(g), t, v, s.w)))
    decreases t, 2
  {
    hide Yields, Run, Simple, StoreBuffer, LowerListCode, LowerMapCode, LowerVariantCode, LowerRepeatCode, LowerFieldsCode;
    Single(s.env, x);
    match t
    case Scalar(p) => LowerScalarSim(k, CfgOf(g), p, v, x, n, s);
    case Str => LowerStringSim(k, g.own, v, x, n, s);
    case Alias(u) => LowerSim(k, g, u, v, x, n, s);
    case List(e) => LowerListSim(k, g, e, v, x, n, s);
    case Map(e) => LowerMapSim(k, g, e, v, x, n, s);
    case FixedList(e, len) => LowerFixedSim(k, g, e, len, v, x, n, s);
    case Record(rk, fs) => LowerRecordSim(k, g, rk, fs, v, x, n, s);
    case Flags(c) => LowerFlagsSim(k, CfgOf(g), c, v, x, n, s);
    case Enum(c) => LowerEnumSim(k, CfgOf(g), c, v, x, n, s);
    case Variant(vk, arms) => LowerVariantSim(k, g, vk, arms, v, x, n, s);
  }

  /** Types lowered by one instruction. */
  lemma LowerScalarSim(k: Ctx, c: Cfg, p: Prim, v: Val, x: Var, n: Var, s: Machine)
    requires v.Num? && Lookup(s.env, [x]) == Ok([ValOp(v)])
    ensures Yields(k, One(ScalarLower(p), [x], n), n, s, FlatEffect(LowerFlat(c, Scalar(p), v, s.w)))
  {
    hide Yields, Run, ToCore;
    assert CoreOps([ToCore(p, v.n)]) == [CoreOp(ToCore(p, v.n))];
    YieldsOne(k, ScalarLower(p), [x], n, n, s, [ValOp(v)], FlatEffect(LowerFlat(c, Scalar(p), v, s.w)));
  }

  lemma LowerStringSim(k: Ctx, own: bool, v: Val, x: Var, n: Var, s: Machine)
    requires Lookup(s.env, [x]) == Ok([ValOp(v)])
    ensures Yields(k, One(StringLower(own), [x], n), n, s, FlatEffect(LowerFlat(Cfg(k.p, own), Str, v, s.w)))
  {
    hide Yields, Run, StoreBuffer, CanonLower, LowerFlat;
    StringEffect(k, own, v, s.w);
    YieldsOne(k, StringLower(own), [x], n, n, s, [ValOp(v)], BufferEffect(StoreBuffer(Cfg(k.p, own), Str, v, s.w)));
  }

  lemma LowerFlagsSim(k: Ctx, c: Cfg, count: nat, v: Val, x: Var, n: Var, s: Machine)
    requires v.FlagsV? && |v.bits| == count && Lookup(s.env, [x]) == Ok([ValOp(v)])
    ensures Yields(k, One(FlagsLower(count), [x], n), n, s, FlatEffect(LowerFlat(c, Flags(count), v, s.w)))
  {
    hide Yields, Run, ToWords;
    YieldsOne(k, FlagsLower(count), [x], n, n, s, [ValOp(v)], FlatEffect(LowerFlat(c, Flags(count), v, s.w)));
  }

  lemma LowerEnumSim(k: Ctx, c: Cfg, count: nat, v: Val, x: Var, n: Var, s: Machine)
    requires v.VariantV? && v.arm < count && Lookup(s.env, [x]) == Ok([ValOp(v)])
    ensures Yields(k, One(EnumLower(count), [x], n), n, s, FlatEffect(LowerFlat(c, Enum(count), v, s.w)))
  {
    hide Yields, Run;
    assert CoreOps([Core(I32, v.arm)]) == [CoreOp(Core(I32, v.arm))];
    YieldsOne(k, EnumLower(count), [x], n, n, s, [ValOp(v)], FlatEffect(LowerFlat(c, Enum(count), v, s.w)));
  }

  lemma PairOps(a: Core, b: Core)
    ensures CoreOps([a, b]) == [CoreOp(a), CoreOp(b)]
  {
  }

  lemma StringEffect(k: Ctx, own: bool, v: Val, w: World)
    ensures CanonLower(k, Str, own, ValOp(v), w) == FlatEffect(LowerFlat(Cfg(k.p, own), Str, v, w))
    ensures CanonLower(k, Str, own, ValOp(v), w) == BufferEffect(StoreBuffer(Cfg(k.p, own), Str, v, w))
  {
    hide StoreBuffer;
    var o := StoreBuffer(Cfg(k.p, own), Str, v, w);
    if o.Ok? { PairOps(Core(Pointer, o.value.ptr), Core(Length, o.value.len)); }
  }

  lemma ListEffect(c: Cfg, t: Ty, v: Val, w: World)
    requires t.List? || t.Map? || t.Str?
    ensures FlatEffect(LowerFlat(c, t, v, w)) == BufferEffect(StoreBuffer(c, t, v, w))
  {
    hide StoreBuffer;
  }

  lemma {:induction false} LowerListSim(k: Ctx, g: Gen, e: Ty, v: Val, x: Var, n: Var, s: Machine)
    requires Holds(k, g, List(e), v, x, n, s)
    ensures Yields(k, LowerListCode(g, e, x, n), n, s, FlatEffect(LowerFlat(CfgOf(g), List(e), v, s.w)))
    decreases e, 8
  {
    hide Yields, Run, ElemWriter, LowerFlat, StoreList, Perform;
    ListEffect(CfgOf(g), List(e), v, s.w);
    Single(s.env, x);
    var o := BufferEffect(StoreBuffer(CfgOf(g), List(e), v, s.w));
    if g.canonical(e) {
      CanonListLowerSim(k, g, e, v, x, n, s);
    } else {
      var b := ElemWriter(g, e, 0, n);
      FillSim(k, g, e, v, s, b.block, ListLower(e, g.own), [x], b.next, false, n);
      YieldsTake(k, ListLower(e, g.own), [x], b.next, [b.block], [], n, s, [ValOp(v)], o);
    }
  }

  lemma CanonListLowerSim(k: Ctx, g: Gen, e: Ty, v: Val, x: Var, n: Var, s: Machine)
    requires k.p == g.p && Lookup(s.env, [x]) == Ok([ValOp(v)])
    ensures Yields(k, One(ListCanonLower(e, g.own), [x], n), n, s, BufferEffect(StoreBuffer(CfgOf(g), List(e), v, s.w)))
  {
    hide Yields, Run, Lookup, StoreBuffer, CanonLower;
    CanonEffect(k, e, g.own, v, s.w);
    YieldsOne(k, ListCanonLower(e, g.own), [x], n, n, s, [ValOp(v)], BufferEffect(StoreBuffer(CfgOf(g), List(e), v, s.w)));
  }

  lemma CanonEffect(k: Ctx, e: Ty, own: bool, v: Val, w: World)
    ensures CanonLower(k, List(e), own, ValOp(v), w) == BufferEffect(StoreBuffer(Cfg(k.p, own), List(e), v, w))
  {
    hide StoreBuffer;
    var o := StoreBuffer(Cfg(k.p, own), List(e), v, w);
    if o.Ok? { PairOps(Core(Pointer, o.value.ptr), Core(Length, o.value.len)); }
  }

  lemma {:induction false} LowerMapSim(k: Ctx, g: Gen, e: Ty, v: Val, x: Var, n: Var, s: Machine)
    requires Holds(k, g, Map(e), v, x, n, s)
    ensures Yields(k, LowerMapCode(g, e, x, n), n, s, FlatEffect(LowerFlat(CfgOf(g), Map(e), v, s.w)))
    decreases e, 8
  {
    hide Yields, Run, EntryWriter, LowerFlat, StoreList, Perform, Take, Lookup;
    ListEffect(CfgOf(g), Map(e), v, s.w);
    Single(s.env, x);
    var o := BufferEffect(StoreBuffer(CfgOf(g), Map(e), v, s.w));
    var b := EntryWriter(g, e, n);
    FillSim(k, g, e, v, s, b.block, MapLower(e, g.own), [x], b.next, true, n);
    YieldsTake(k, MapLower(e, g.own), [x], b.next, [b.block], [], n, s, [ValOp(v)], o);
  }

  /** `ListLower` and `MapLower` allocate and fill the buffer that the ABI asks for. */
  lemma {:induction false} FillSim(k: Ctx, g: Gen, e: Ty, v: Val, s: Machine, b: CodeBlock, i: Inst, args: seq<Var>,
                                   m: Var, isMap: bool, n: Var)
    requires k.p == g.p && WellFormed(e) && (isMap ==> WellFormed(Map(e)))
    requires v.ListV? && forall y | y in v.elems :: HasType(g.p, e, y)
    requires b == if isMap then EntryWriter(g, e, n).block else ElemWriter(g, e, 0, n).block
    requires i == if isMap then MapLower(e, g.own) else ListLower(e, g.own)
    ensures Perform(k, Take(i, args, m, [b], []).code[0], [ValOp(v)], s)
         == BufferEffect(StoreList(CfgOf(g), e, v.elems, s.w))
    decreases e, 7
  {
    hide Run, ElemWriter, EntryWriter, EachElem, StoreElems, Size, Times, HasType, WellFormed, Perform;
    var c := CfgOf(g);
    var al := Alloc(s.w, Times(|v.elems|, Size(g.p, e)), Align(g.p, e), g.p, g.own);
    if al.Ok? {
      var s1 := s.(w := al.value.w);
      EachElemSim(k, g, e, v.elems, al.value.addr, 0, b, isMap, n, s1);
      PairOps(Core(Pointer, al.value.addr), Core(Length, |v.elems|));
    }
    FillPerform(k, e, g.own, i, args, m, b, v, s);
  }

  lemma FillPerform(k: Ctx, e: Ty, own: bool, i: Inst, args: seq<Var>, m: Var, b: CodeBlock, v: Val, s: Machine)
    requires i == MapLower(e, own) || i == ListLower(e, own)
    ensures var st := Take(i, args, m, [b], []).code[0];
            Perform(k, st, [ValOp(v)], s) == FillList(k, st, e, own, [ValOp(v)], s)
  {
    hide FillList, Simple;
  }

  /** Running the element block for every element stores them one after the other. */
  lemma {:induction false} EachElemSim(k: Ctx, g: Gen, e: Ty, vs: seq<Val>, base: nat, off: nat, b: CodeBlock, isMap: bool,
                                       n: Var, s: Machine)
    requires k.p == g.p && WellFormed(e) && (isMap ==> WellFormed(Map(e)) && off == 0)
    requires forall y | y in vs :: HasType(g.p, e, y)
    requires b == if isMap then EntryWriter(g, e, n).block else ElemWriter(g, e, off, n).block
    ensures EachElem(k, b, vs, base, Size(g.p, e), s) == StoreElems(CfgOf(g), e, vs, base + off, s.w)
    decreases e, 6, |vs|
  {
    hide Run, ElemWriter, EntryWriter, Store, Size, HasType, WellFormed;
    if vs != [] {
      if isMap {
        EntryWriterSim(k, g, e, vs[0], base, n, s);
      } else {
        ElemWriterSim(k, g, e, vs[0], base, off, n, s);
      }
      var o := Store(CfgOf(g), e, vs[0], base + off, s.w);
      if o.Ok? {
        EachElemSim(k, g, e, vs[1..], base + Size(g.p, e), off, b, isMap, n, s.(w := o.value));
        assert base + Size(g.p, e) + off == base + off + Size(g.p, e);
      }
    }
  }

  /** The world a run ends in. */
  ghost function RunWorld(k: Ctx, code: seq<Stmt>, s: Machine): Outcome<World> {
    var r :- Run(k, code, s);
    Ok(r.w)
  }

  lemma YieldsWorld(k: Ctx, c: Chunk, n: Var, s: Machine, o: Outcome<World>)
    requires Yields(k, c, n, s, WorldEffect(o))
    ensures RunWorld(k, c.code, s) == o
  {
    hide Run;
  }

  lemma IterSim(k: Ctx, i: Inst, n: Var, s: Machine, op: Operand)
    requires (i.IterElem? && k.elem.Some? && op == ValOp(k.elem.value))
          || (i.IterBasePointer? && op == CoreOp(Core(Pointer, k.base)))
          || ((i.IterMapKey? || i.IterMapValue?) && k.elem.Some? && k.elem.value.RecordV? && |k.elem.value.fields| == 2
              && op == ValOp(k.elem.value.fields[if i.IterMapKey? then 0 else 1]))
    ensures Yields(k, One(i, [], n), n, s, Ok(Effect([op], s.w)))
  {
    hide Yields;
    YieldsOne(k, i, [], n, n, s, [], Ok(Effect([op], s.w)));
  }

  /** Reading back the only variable a chunk left. */
  lemma Left(k: Ctx, c: Chunk, n: Var, s: Machine, op: Operand, w: World)
    requires Yields(k, c, n, s, Ok(Effect([op], w))) && |c.outs| == 1 && Scoped(c)
    ensures c.outs[0] in After(k, c, s).env && After(k, c, s).env[c.outs[0]] == op && c.outs[0] < c.next
    ensures After(k, c, s).w == w
  {
    hide Run;
    LookupAt(After(k, c, s).env, c.outs, 0);
    assert c.outs[0] in c.outs;
  }

  /** One value, fetched by an `Iter*` instruction, is stored at the loop's address. */
  lemma {:induction false} IterWriteSim(k: Ctx, g: Gen, i: Inst, t: Ty, v: Val, off: nat, n: Var, s: Machine)
    requires k.p == g.p && WellFormed(t) && HasType(g.p, t, v) && k.elem.Some?
    requires (i.IterElem? && v == k.elem.value)
          || ((i.IterMapKey? || i.IterMapValue?) && k.elem.value.RecordV? && |k.elem.value.fields| == 2
              && v == k.elem.value.fields[if i.IterMapKey? then 0 else 1])
    ensures Yields(k, IterWriteCode(g, i, t, off, n), n, s, WorldEffect(Store(CfgOf(g), t, v, k.base + off, s.w)))
    decreases t, 4
  {
    hide Run, Yields, Store, HasType, WellFormed, WriteCode, Points;
    var x := One(i, [], n);
    IterSim(k, i, n, s, ValOp(v));
    Left(k, x, n, s, ValOp(v), s.w);
    var s1 := After(k, x, s);
    var a := One(IterBasePointer, [], x.next);
    var addr := CoreOp(Core(Pointer, k.base));
    IterSim(k, IterBasePointer, x.next, s1, addr);
    Left(k, a, x.next, s1, addr, s.w);
    var s2 := After(k, a, s1);
    HoldsLater(k, g, t, v, a, x.next, s1, Ok(Effect([addr], s.w)), x.outs[0]);
    MakePoints(a.outs[0], k.base, a.next, s2);
    var c := WriteCode(g, t, x.outs[0], a.outs[0], off, a.next);
    WriteSim(k, g, t, v, x.outs[0], a.outs[0], k.base, off, a.next, s2);
    var o := Store(CfgOf(g), t, v, k.base + off, s.w);
    YieldsThen(k, x, a, n, s, Ok(Effect([ValOp(v)], s.w)), Ok(Effect([addr], s.w)));
    AfterThen(k, x, a, n, s, Ok(Effect([ValOp(v)], s.w)), Ok(Effect([addr], s.w)));
    YieldsThen(k, Then(x, a), c, n, s, Ok(Effect([addr], s.w)), WorldEffect(o));
  }

  lemma {:induction false} ElemWriterSim(k: Ctx, g: Gen, e: Ty, v: Val, base: nat, off: nat, n: Var, s: Machine)
    requires k.p == g.p && WellFormed(e) && HasType(g.p, e, v)
    ensures RunWorld(k.(elem := Some(v), base := base), ElemWriter(g, e, off, n).block.code, s)
         == Store(CfgOf(g), e, v, base + off, s.w)
    decreases e, 5
  {
    hide Run, Yields, Store, HasType, WellFormed, IterWriteCode, RunWorld;
    var k1 := k.(elem := Some(v), base := base);
    IterWriteSim(k1, g, IterElem, e, v, off, n, s);
    YieldsWorld(k1, IterWriteCode(g, IterElem, e, off, n), n, s, Store(CfgOf(g), e, v, base + off, s.w));
  }

  /** A map entry is stored as the tuple of its key and value. */
  lemma {:induction false} EntryWriterSim(k: Ctx, g: Gen, e: Ty, v: Val, base: nat, n: Var, s: Machine)
    requires k.p == g.p && WellFormed(Map(e)) && HasType(g.p, e, v)
    ensures RunWorld(k.(elem := Some(v), base := base), EntryWriter(g, e, n).block.code, s)
         == Store(CfgOf(g), e, v, base, s.w)
    decreases e, 5
  {
    hide Run, Yields, Store, HasType, WellFormed, IterWriteCode, RunWorld, ValueOffset;
    EntryTypes(g.p, e, v);
    var key, val := e.fields[0], e.fields[1];
    var k1 := k.(elem := Some(v), base := base);
    IterWriteSim(k1, g, IterMapKey, key, v.fields[0], 0, n, s);
    var first := IterWriteCode(g, IterMapKey, key, 0, n);
    var o1 := Store(CfgOf(g), key, v.fields[0], base, s.w);
    var s1 := After(k1, first, s);
    var vo := ValueOffset(g.p, e);
    var second := IterWriteCode(g, IterMapValue, val, vo, first.next);
    IterWriteSim(k1, g, IterMapValue, val, v.fields[1], vo, first.next, s1);
    var o2 := if o1.Ok? then Store(CfgOf(g), val, v.fields[1], base + vo, o1.value) else o1;
    if o1.Ok? { AfterYields(k1, first, n, s, [], o1.value); }
    YieldsThen(k1, first, second, n, s, WorldEffect(o1), WorldEffect(o2));
    YieldsWorld(k1, Then(first, second), n, s, o2);
    StoreEntry(CfgOf(g), e, v, base, s.w);
  }

  lemma EntryTypes(p: PtrSize, e: Ty, v: Val)
    requires WellFormed(Map(e)) && HasType(p, e, v)
    ensures WellFormed(e) && e.Record? && |e.fields| == 2 && WellFormed(e.fields[0]) && WellFormed(e.fields[1])
    ensures v.RecordV? && |v.fields| == 2 && HasType(p, e.fields[0], v.fields[0]) && HasType(p, e.fields[1], v.fields[1])
  {
    assert e.fields[0] in e.fields && e.fields[1] in e.fields;
  }

  lemma StoreEntry(c: Cfg, e: Ty, v: Val, a: nat, w: World)
    requires e.Record? && |e.fields| == 2 && v.RecordV? && |v.fields| == 2
    ensures var o1 := Store(c, e.fields[0], v.fields[0], a, w);
            Store(c, e, v, a, w)
            == (if o1.Ok? then Store(c, e.fields[1], v.fields[1], a + ValueOffset(c.p, e), o1.value) else o1)
  {
    hide Size, Align;
    var fs, vs := e.fields, v.fields;
    assert FieldOffset(c.p, fs[0], 0) == 0;
    var o1 := Store(c, fs[0], vs[0], a, w);
    assert StoreFields(c, fs, vs, a, 0, w) == if o1.Ok? then StoreFields(c, fs[1..], vs[1..], a, Size(c.p, fs[0]), o1.value) else o1;
    if o1.Ok? {
      var o2 := Store(c, fs[1], vs[1], a + ValueOffset(c.p, e), o1.value);
      assert fs[1..][1..] == [] && vs[1..][1..] == [];
      assert StoreFields(c, fs[1..], vs[1..], a, Size(c.p, fs[0]), o1.value)
          == if o2.Ok? then StoreFields(c, [], [], a, ValueOffset(c.p, e) + Size(c.p, fs[1]), o2.value) else o2;
    }
  }

  lemma MakePoints(a: Var, addr: nat, n: Var, s: Machine)
    requires a < n && a in s.env && s.env[a] == CoreOp(Core(Pointer, addr))
    ensures Points(a, addr, n, s)
  {
  }

  lemma HoldsLater(k: Ctx, g: Gen, t: Ty, v: Val, c: Chunk, n: Var, s: Machine, o: Outcome<Effect>, x: Var)
    requires Yields(k, c, n, s, o) && o.Ok? && n <= c.next
    requires k.p == g.p && WellFormed(t) && HasType(g.p, t, v)
    requires x < n && x in s.env && s.env[x] == ValOp(v)
    ensures Holds(k, g, t, v, x, c.next, After(k, c, s))
  {
    hide Run, HasType, WellFormed;
  }

  lemma AfterThen(k: Ctx, a: Chunk, b: Chunk, n: Var, s: Machine, oa: Outcome<Effect>, ob: Outcome<Effect>)
    requires Yields(k, a, n, s, oa) && oa.Ok? && Yields(k, b, a.next, After(k, a, s), ob) && ob.Ok?
    ensures After(k, Then(a, b), s) == After(k, b, After(k, a, s))
  {
    hide Run;
    RunConcat(k, a.code, b.code, s);
  }

  // ----- records and fixed-length lists -----

  lemma {:induction false} LowerRecordSim(k: Ctx, g: Gen, rk: RecordKind, fs: seq<Ty>, v: Val, x: Var, n: Var, s: Machine)
    requires Holds(k, g, Record(rk, fs), v, x, n, s)
    ensures var d := One(RecordLower(rk, |fs|), [x], n);
            Yields(k, Then(d, LowerFieldsCode(g, fs, d.outs, d.next)), n, s,
                   FlatEffect(LowerFlat(CfgOf(g), Record(rk, fs), v, s.w)))
    decreases fs, 1
  {
    hide Yields, Run, LowerFieldsCode, LowerFields;
    var d := One(RecordLower(rk, |fs|), [x], n);
    SplitSim(k, RecordLower(rk, |fs|), v, v.fields, x, n, s);
    var s1 := After(k, d, s);
    LowerFieldsSim(k, g, fs, v.fields, d.outs, d.next, s1);
    YieldsThen(k, d, LowerFieldsCode(g, fs, d.outs, d.next), n, s, Ok(Effect(ValOps(v.fields), s.w)),
               FlatEffect(LowerFields(CfgOf(g), fs, v.fields, s.w)));
  }

  /** Taking a record or an array apart. */
  lemma SplitSim(k: Ctx, i: Inst, v: Val, vs: seq<Val>, x: Var, n: Var, s: Machine)
    requires x in s.env && s.env[x] == ValOp(v)
    requires (i.RecordLower? && v == RecordV(vs) && i.len == |vs|) || (i.FixedListLower? && v == ListV(vs) && i.len == |vs|)
    ensures var d := One(i, [x], n);
            && Yields(k, d, n, s, Ok(Effect(ValOps(vs), s.w)))
            && Lookup(After(k, d, s).env, d.outs) == Ok(ValOps(vs)) && After(k, d, s).w == s.w
            && AllBelow(d.outs, d.next)
  {
    hide Run;
    Single(s.env, x);
    YieldsOne(k, i, [x], n, n, s, [ValOp(v)], Ok(Effect(ValOps(vs), s.w)));
  }

  lemma {:induction false} LowerFieldsSim(k: Ctx, g: Gen, fs: seq<Ty>, vs: seq<Val>, xs: seq<Var>, n: Var, s: Machine)
    requires k.p == g.p && |xs| == |fs| == |vs| && AllWellFormed(fs)
    requires forall i | 0 <= i < |fs| :: HasType(g.p, fs[i], vs[i])
    requires AllBelow(xs, n) && Lookup(s.env, xs) == Ok(ValOps(vs))
    ensures Yields(k, LowerFieldsCode(g, fs, xs, n), n, s, FlatEffect(LowerFields(CfgOf(g), fs, vs, s.w)))
    decreases fs, 0
  {
    hide Yields, Run, LowerCode, LowerFlat, HasType, WellFormed, Flat;
    if fs == [] {
      assert CoreOps([]) == [];
      assert Lookup(s.env, []) == Ok([]);
      YieldsNothing(k, n, s, [], []);
    } else {
      var c := LowerCode(g, fs[0], xs[0], n);
      var oa := FlatEffect(LowerFlat(CfgOf(g), fs[0], vs[0], s.w));
      LookupAt(s.env, xs, 0);
      assert xs[0] in xs;
      LowerSim(k, g, fs[0], vs[0], xs[0], n, s);
      var rest := LowerFieldsCode(g, fs[1..], xs[1..], c.next);
      if oa.Ok? {
        var s1 := After(k, c, s);
        RestThere(k, c, n, s, oa, xs, vs);
        LowerFieldsSim(k, g, fs[1..], vs[1..], xs[1..], c.next, s1);
        var ob := FlatEffect(LowerFields(CfgOf(g), fs[1..], vs[1..], oa.value.w));
        YieldsBoth(k, c, rest, n, s, oa, ob);
        JoinEffects(LowerFlat(CfgOf(g), fs[0], vs[0], s.w).value, LowerFields(CfgOf(g), fs[1..], vs[1..], oa.value.w));
      } else {
        YieldsBoth(k, c, rest, n, s, oa, oa);
      }
    }
  }

  lemma JoinEffects(a: Lowered, b: Outcome<Lowered>)
    ensures b.Ok? ==> SeqBoth(FlatEffect(Ok(a)), FlatEffect(b)) == Ok(Effect(CoreOps(a.flat + b.value.flat), b.value.w))
  {
    if b.Ok? { CoreOpsConcat(a.flat, b.value.flat); }
  }

  /** The operands for the remaining fields survive the first one. */
  lemma RestThere(k: Ctx, c: Chunk, n: Var, s: Machine, o: Outcome<Effect>, xs: seq<Var>, vs: seq<Val>)
    requires Yields(k, c, n, s, o) && o.Ok? && n <= c.next
    requires xs != [] && |xs| == |vs| && AllBelow(xs, n) && Lookup(s.env, xs) == Ok(ValOps(vs))
    ensures Lookup(After(k, c, s).env, xs[1..]) == Ok(ValOps(vs[1..])) && AllBelow(xs[1..], c.next)
    ensures After(k, c, s).w == o.value.w
  {
    hide Run;
    LookupSlice(s.env, xs, 1, |xs|);
    assert xs[1..|xs|] == xs[1..];
    assert ValOps(vs)[1..|vs|] == ValOps(vs[1..]);
    assert forall y | y in xs[1..] :: y in xs;
    StillThere(k, c, n, s, o, xs[1..], ValOps(vs[1..]));
  }

  lemma {:induction false} LowerFixedSim(k: Ctx, g: Gen, e: Ty, len: nat, v: Val, x: Var, n: Var, s: Machine)
    requires Holds(k, g, FixedList(e, len), v, x, n, s)
    ensures var d := One(FixedListLower(e, len), [x], n);
            Yields(k, Then(d, LowerRepeatCode(g, e, d.outs, d.next)), n, s,
                   FlatEffect(LowerFlat(CfgOf(g), FixedList(e, len), v, s.w)))
    decreases e, len + 5
  {
    hide Yields, Run, LowerRepeatCode, LowerRepeat;
    var d := One(FixedListLower(e, len), [x], n);
    SplitSim(k, FixedListLower(e, len), v, v.elems, x, n, s);
    var s1 := After(k, d, s);
    LowerRepeatSim(k, g, e, v.elems, d.outs, d.next, s1);
    YieldsThen(k, d, LowerRepeatCode(g, e, d.outs, d.next), n, s, Ok(Effect(ValOps(v.elems), s.w)),
               FlatEffect(LowerRepeat(CfgOf(g), e, v.elems, s.w)));
  }

  lemma {:induction false} LowerRepeatSim(k: Ctx, g: Gen, e: Ty, vs: seq<Val>, xs: seq<Var>, n: Var, s: Machine)
    requires k.p == g.p && |xs| == |vs| && WellFormed(e)
    requires forall y | y in vs :: HasType(g.p, e, y)
    requires AllBelow(xs, n) && Lookup(s.env, xs) == Ok(ValOps(vs))
    ensures Yields(k, LowerRepeatCode(g, e, xs, n), n, s, FlatEffect(LowerRepeat(CfgOf(g), e, vs, s.w)))
    decreases e, |vs| + 4
  {
    hide Yields, Run, LowerCode, LowerFlat, HasType, WellFormed, Flat;
    if vs == [] {
      assert CoreOps([]) == [];
      assert Lookup(s.env, []) == Ok([]);
      YieldsNothing(k, n, s, [], []);
    } else {
      var c := LowerCode(g, e, xs[0], n);
      var oa := FlatEffect(LowerFlat(CfgOf(g), e, vs[0], s.w));
      LookupAt(s.env, xs, 0);
      assert xs[0] in xs;
      LowerSim(k, g, e, vs[0], xs[0], n, s);
      var rest := LowerRepeatCode(g, e, xs[1..], c.next);
      if oa.Ok? {
        var s1 := After(k, c, s);
        RestThere(k, c, n, s, oa, xs, vs);
        LowerRepeatSim(k, g, e, vs[1..], xs[1..], c.next, s1);
        var ob := FlatEffect(LowerRepeat(CfgOf(g), e, vs[1..], oa.value.w));
        YieldsBoth(k, c, rest, n, s, oa, ob);
        JoinEffects(LowerFlat(CfgOf(g), e, vs[0], s.w).value, LowerRepeat(CfgOf(g), e, vs[1..], oa.value.w));
      } else {
        YieldsBoth(k, c, rest, n, s, oa, oa);
      }
    }
  }

  // ----- variants -----

  /** The block and payload name of case `i` start at the variable `m`. */
  lemma {:induction false} ArmAt(g: Gen, arms: seq<Option<Ty>>, j: nat, slots: seq<WasmType>, n: Var, i: nat) returns (m: Var)
    requires ArmsWellFormed(arms) && ArmsBelow(arms, slots) && i < |arms|
    ensures n <= m && (arms[i].Some? ==> WellFormed(arms[i].value)) && Below(FlatArm(arms[i]), slots)
    ensures var a := LowerArmsCode(g, arms, j, slots, n);
            a.blocks[i] == LowerArmCode(g, arms[i], j + i, slots, m).block && a.payloads[i] == m
  {
    hide LowerArmCode, Below, FlatArm, WellFormed;
    assert arms[0] in arms;
    if i == 0 {
      m := n;
    } else {
      var w := LowerArmCode(g, arms[0], j, slots, n);
      m := ArmAt(g, arms[1..], j + 1, slots, w.next, i - 1);
      assert arms[1..][i - 1] == arms[i];
    }
  }

  lemma {:induction false} LowerVariantSim(k: Ctx, g: Gen, vk: VariantKind, arms: seq<Option<Ty>>, v: Val, x: Var, n: Var, s: Machine)
    requires Holds(k, g, Variant(vk, arms), v, x, n, s)
    ensures Yields(k, LowerVariantCode(g, vk, arms, x, n), n, s, FlatEffect(LowerFlat(CfgOf(g), Variant(vk, arms), v, s.w)))
    decreases arms, 2
  {
    hide Yields, Run, LowerArmsCode, LowerFlat, WellFormed, HasType, FlatArms, Widen, LowerArmCode, RunBlock, Take;
    var t := Variant(vk, arms);
    var slots := FlatArms(arms);
    VariantTyped(g.p, vk, arms, v);
    AllArmsBelow(arms);
    ArmsOf(vk, arms);
    var i := v.arm;
    var a := LowerArmsCode(g, arms, 0, slots, n);
    var m := ArmAt(g, arms, 0, slots, n, i);
    var s1 := s.(env := if v.payload.Some? then s.env[m := ValOp(v.payload.value)] else s.env);
    LowerArmSim(k, g, arms[i], v.payload, i, slots, m, s1);
    var o := FlatEffect(LowerFlat(CfgOf(g), t, v, s.w));
    ArmEffectIs(CfgOf(g), vk, arms, v, s.w);
    VariantRuns(k, VariantLower(vk, arms, [I32] + slots), x, a.next, a.blocks, a.payloads, v, m, n, s, o);
  }

  lemma ArmsOf(vk: VariantKind, arms: seq<Option<Ty>>)
    requires WellFormed(Variant(vk, arms))
    ensures ArmsWellFormed(arms)
  {
  }

  lemma VariantRuns(k: Ctx, inst: Inst, x: Var, next: Var, blocks: seq<CodeBlock>, payloads: seq<Var>, v: Val, m: Var,
                    n: Var, s: Machine, o: Outcome<Effect>)
    requires inst.VariantLower? && |blocks| == |payloads| == |inst.arms| && n <= next && x in s.env && s.env[x] == ValOp(v)
    requires v.VariantV? && v.arm < |inst.arms| && payloads[v.arm] == m
    requires RunBlock(k, blocks[v.arm], s.(env := if v.payload.Some? then s.env[m := ValOp(v.payload.value)] else s.env)) == o
    requires o.Ok? ==> HaveTypes(o.value.outs, inst.results)
    ensures Yields(k, Take(inst, [x], next, blocks, payloads), n, s, o)
  {
    hide Yields, RunBlock, Perform;
    Single(s.env, x);
    VariantPerform(k, inst, [x], next, blocks, payloads, v, s, m, o);
    YieldsTake(k, inst, [x], next, blocks, payloads, n, s, [ValOp(v)], o);
  }

  /** `VariantLower` runs the block of the value's own case on its own payload. */
  lemma VariantPerform(k: Ctx, inst: Inst, args: seq<Var>, next: Var, blocks: seq<CodeBlock>, payloads: seq<Var>,
                       v: Val, s: Machine, m: Var, o: Outcome<Effect>)
    requires inst.VariantLower? && |blocks| == |payloads| == |inst.arms|
    requires v.VariantV? && v.arm < |inst.arms| && payloads[v.arm] == m
    requires RunBlock(k, blocks[v.arm], s.(env := if v.payload.Some? then s.env[m := ValOp(v.payload.value)] else s.env)) == o
    requires o.Ok? ==> HaveTypes(o.value.outs, inst.results)
    ensures Perform(k, Take(inst, args, next, blocks, payloads).code[0], [ValOp(v)], s) == o
  {
    hide RunBlock, Simple;
  }

  function ArmEffect(c: Cfg, arm: Option<Ty>, payload: Option<Val>, i: nat, slots: seq<WasmType>, r: Outcome<Lowered>): Outcome<Effect>
    requires Below(FlatArm(arm), slots)
  {
    var l :- r;
    var ys :- Widen(c.p, FlatArm(arm), slots, l.flat);
    Ok(Effect(CoreOps([Core(I32, i)] + ys), l.w))
  }

  lemma ArmEffectIs(c: Cfg, vk: VariantKind, arms: seq<Option<Ty>>, v: Val, w: World)
    requires WellFormed(Variant(vk, arms)) && HasType(c.p, Variant(vk, arms), v)
    ensures v.VariantV? && v.arm < |arms| && Below(FlatArm(arms[v.arm]), FlatArms(arms))
    ensures var o := FlatEffect(LowerFlat(c, Variant(vk, arms), v, w));
            && o == ArmEffect(c, arms[v.arm], v.payload, v.arm, FlatArms(arms), LowerArm(c, arms[v.arm], v.payload, w))
            && (o.Ok? ==> HaveTypes(o.value.outs, [I32] + FlatArms(arms)))
  {
    hide Widen, HasType, WellFormed, LowerArm;
    VariantTyped(c.p, vk, arms, v);
    ArmBelow(arms, v.arm);
    var r := LowerFlat(c, Variant(vk, arms), v, w);
    if r.Ok? {
      LowerTyped(c, Variant(vk, arms), v, w);
      TypedOps(r.value.flat, [I32] + FlatArms(arms), c.p);
    }
  }

  lemma TypedOps(xs: seq<Core>, ts: seq<WasmType>, p: PtrSize)
    requires Typed(xs, ts, p)
    ensures HaveTypes(CoreOps(xs), ts)
  {
  }

  /** The block of one case: discriminant, payload words cast to their slots, zeros. */
  lemma {:induction false} LowerArmSim(k: Ctx, g: Gen, arm: Option<Ty>, payload: Option<Val>, i: nat, slots: seq<WasmType>, m: Var, s: Machine)
    requires k.p == g.p && i < TWO_32 && Below(FlatArm(arm), slots)
    requires arm.None? ==> payload.None?
    requires arm.Some? ==> payload.Some? && WellFormed(arm.value) && HasType(g.p, arm.value, payload.value)
    requires arm.Some? ==> m in s.env && s.env[m] == ValOp(payload.value)
    ensures RunBlock(k, LowerArmCode(g, arm, i, slots, m).block, s)
         == ArmEffect(CfgOf(g), arm, payload, i, slots, LowerArm(CfgOf(g), arm, payload, s.w))
    decreases arm, 1
  {
    hide Yields, Run, LowerFlat, LowerCode, HasType, WellFormed, Flat, CastCode, RunBlock, PadBlock, CastsUp, Leq, Widen;
    var tag := One(I32Const(i), [], m + 1);
    var c0 := CoreOp(Core(I32, i));
    YieldsOne(k, I32Const(i), [], m + 1, m + 1, s, [], Ok(Effect([c0], s.w)));
    var s1 := After(k, tag, s);
    if arm.None? {
      var c := Chunk([], [], tag.next);
      TagWorld(k, tag, m + 1, s, c0);
      YieldsNothing(k, tag.next, s1, [], []);
      assert CoreOps([]) == [];
      PadSim(k, tag, c, slots, i, [], s.w, m + 1, s);
      WidenNone(g.p, slots);
    } else {
      TagWorld(k, tag, m + 1, s, c0);
      var l := LowerCode(g, arm.value, m, tag.next);
      var casts := CastsUp(FlatArm(arm), slots);
      var b := CastCode(casts, l.outs, l.next);
      TagHolds(k, g, arm.value, payload.value, tag, m, s, c0);
      LowerSim(k, g, arm.value, payload.value, m, tag.next, s1);
      var r := LowerFlat(CfgOf(g), arm.value, payload.value, s.w);
      if r.Ok? {
        LowerTyped(CfgOf(g), arm.value, payload.value, s.w);
        WidenRoundTrip(g.p, FlatArm(arm), slots, r.value.flat);
        var s2 := After(k, l, s1);
        AfterYields(k, l, tag.next, s1, CoreOps(r.value.flat), r.value.w);
        CastSim(k, casts, l.outs, r.value.flat, l.next, s2);
        var ys := ApplyCasts(casts, r.value.flat, g.p);
        YieldsThen(k, l, b, tag.next, s1, FlatEffect(r), CastEffect(ys, r.value.w));
        WidenParts(g.p, FlatArm(arm), slots, r.value.flat);
        PadSim(k, tag, Then(l, b), slots, i, ys.value, r.value.w, m + 1, s);
      } else {
        YieldsThen(k, l, b, tag.next, s1, FlatEffect(r), FlatEffect(r));
        PadFails(k, tag, Then(l, b), slots, m + 1, s, c0, FlatEffect(r));
      }
    }
  }

  lemma TagWorld(k: Ctx, c: Chunk, n: Var, s: Machine, op: Operand)
    requires Yields(k, c, n, s, Ok(Effect([op], s.w)))
    ensures Run(k, c.code, s).Ok? && After(k, c, s).w == s.w
    ensures Lookup(After(k, c, s).env, c.outs) == Ok([op]) && Lookup(After(k, c, s).env, []) == Ok([])
  {
    hide Run;
  }

  lemma TagHolds(k: Ctx, g: Gen, t: Ty, v: Val, tag: Chunk, m: Var, s: Machine, op: Operand)
    requires Yields(k, tag, m + 1, s, Ok(Effect([op], s.w))) && m + 1 <= tag.next
    requires k.p == g.p && WellFormed(t) && HasType(g.p, t, v) && m in s.env && s.env[m] == ValOp(v)
    ensures Holds(k, g, t, v, m, tag.next, After(k, tag, s))
  {
    hide Run, HasType, WellFormed;
  }

  lemma AfterYields(k: Ctx, c: Chunk, n: Var, s: Machine, ops: seq<Operand>, w: World)
    requires Yields(k, c, n, s, Ok(Effect(ops, w)))
    ensures Run(k, c.code, s).Ok? && Lookup(After(k, c, s).env, c.outs) == Ok(ops) && After(k, c, s).w == w
  {
    hide Run;
  }

  lemma WidenNone(p: PtrSize, slots: seq<WasmType>)
    requires Below([], slots)
    ensures Widen(p, [], slots, []) == Ok([] + Zeros(slots))
  {
    assert slots[0..] == slots;
  }

  lemma WidenParts(p: PtrSize, from: seq<WasmType>, to: seq<WasmType>, xs: seq<Core>)
    requires Below(from, to) && |xs| == |from| && Widen(p, from, to, xs).Ok?
    ensures ApplyCasts(CastsUp(from, to), xs, p).Ok?
    ensures Widen(p, from, to, xs).value == ApplyCasts(CastsUp(from, to), xs, p).value + Zeros(to[|from|..])
  {
  }

  lemma YieldsBlock(k: Ctx, c: Chunk, n: Var, s: Machine, o: Outcome<Effect>)
    requires Yields(k, c, n, s, o)
    ensures RunBlock(k, CodeBlock(c.code, c.outs), s) == o
  {
    hide Run;
  }

  /** Discriminant, payload, and zeros for the slots that are left. */
  lemma PadSim(k: Ctx, tag: Chunk, c: Chunk, slots: seq<WasmType>, i: nat, ys: seq<Core>, w: World, n: Var, s: Machine)
    requires |tag.outs| == 1 && |c.outs| == |ys| <= |slots| && Scoped(tag) && Scoped(c) && n <= tag.next <= c.next
    requires Yields(k, tag, n, s, Ok(Effect([CoreOp(Core(I32, i))], s.w)))
    requires Yields(k, c, tag.next, After(k, tag, s), Ok(Effect(CoreOps(ys), w)))
    ensures RunBlock(k, PadBlock(tag, c, slots).block, s)
         == Ok(Effect(CoreOps([Core(I32, i)] + (ys + Zeros(slots[|ys|..]))), w))
  {
    hide Yields, Run, RunBlock;
    var ea := Effect([CoreOp(Core(I32, i))], s.w);
    var ec := Effect(CoreOps(ys), w);
    var all := Both(tag, c);
    YieldsBoth(k, tag, c, n, s, Ok(ea), Ok(ec));
    var ops := [CoreOp(Core(I32, i))] + CoreOps(ys);
    if |c.outs| == |slots| {
      YieldsBlock(k, all, n, s, Ok(Effect(ops, w)));
      assert slots[|ys|..] == [];
    } else {
      var z := One(ConstZero(slots[|c.outs|..]), [], c.next);
      AfterYields(k, all, n, s, ops, w);
      var zs := CoreOps(Zeros(slots[|ys|..]));
      YieldsOne(k, z.code[0].inst, [], c.next, c.next, After(k, all, s), [], Ok(Effect(zs, w)));
      YieldsBoth(k, all, z, n, s, Ok(Effect(ops, w)), Ok(Effect(zs, w)));
      YieldsBlock(k, Both(all, z), n, s, Ok(Effect(ops + zs, w)));
    }
    PadOps(i, ys, Zeros(slots[|ys|..]));
    if |c.outs| == |slots| { assert ops + CoreOps(Zeros(slots[|ys|..])) == ops; }
  }

  lemma PadOps(i: nat, ys: seq<Core>, zs: seq<Core>)
    ensures ([CoreOp(Core(I32, i))] + CoreOps(ys)) + CoreOps(zs) == CoreOps([Core(I32, i)] + (ys + zs))
  {
  }

  lemma PadFails(k: Ctx, tag: Chunk, c: Chunk, slots: seq<WasmType>, n: Var, s: Machine, op: Operand, o: Outcome<Effect>)
    requires |tag.outs| == 1 && |c.outs| <= |slots| && Scoped(tag) && Scoped(c) && n <= tag.next <= c.next
    requires Yields(k, tag, n, s, Ok(Effect([op], s.w)))
    requires !o.Ok? && Yields(k, c, tag.next, After(k, tag, s), o)
    ensures RunBlock(k, PadBlock(tag, c, slots).block, s) == o
  {
    hide Yields, Run, RunBlock;
    var all := Both(tag, c);
    YieldsBoth(k, tag, c, n, s, Ok(Effect([op], s.w)), o);
    if |c.outs| == |slots| {
      YieldsBlock(k, all, n, s, o);
    } else {
      var z := One(ConstZero(slots[|c.outs|..]), [], c.next);
      YieldsBoth(k, all, z, n, s, o, o);
      YieldsBlock(k, Both(all, z), n, s, o);
    }
  }

  // ----- write_to_memory -----

  lemma {:induction false} WriteSim(k: Ctx, g: Gen, t: Ty, v: Val, x: Var, a: Var, addr: nat, off: nat, n: Var, s: Machine)
    requires Holds(k, g, t, v, x, n, s) && Points(a, addr, n, s)
    ensures Yields(k, WriteCode(g, t, x, a, off, n), n, s, WorldEffect(Store(CfgOf(g), t, v, addr + off, s.w)))
    decreases t, 3
  {
    hide Yields, Run, Store, LowerCode, ElemWriter, WriteFieldsCode, WriteWordsCode, WriteVariantCode, WritePairCode, Points, FlagBytes, TagSize;
    match t
    case Scalar(p) => WriteLeafSim(k, g, t, StoreOpOf(p), v, x, a, addr, off, n, s);
    case Alias(u) =>
      WriteSim(k, g, u, v, x, a, addr, off, n, s);
      StoreAlias(CfgOf(g), u, v, addr + off, s.w);
    case Str | List(_) | Map(_) => WritePairSim(k, g, t, v, x, a, addr, off, n, s);
    case FixedList(e, len) => WriteFixedSim(k, g, e, len, v, x, a, addr, off, n, s);
    case Record(rk, fs) => WriteRecordSim(k, g, rk, fs, v, x, a, addr, off, n, s);
    case Flags(c) =>
      if 0 < c <= 16 { WriteLeafSim(k, g, t, StoreTag(FlagBytes(c)), v, x, a, addr, off, n, s); }
      else { WriteFlagsSim(k, g, c, v, x, a, addr, off, n, s); }
    case Enum(c) => WriteLeafSim(k, g, t, StoreTag(TagSize(c)), v, x, a, addr, off, n, s);
    case Variant(vk, arms) => WriteVariantSim(k, g, vk, arms, v, x, a, addr, off, n, s);
  }

  lemma StoreAlias(c: Cfg, u: Ty, v: Val, a: nat, w: World)
    ensures Store(c, Alias(u), v, a, w) == Store(c, u, v, a, w)
  {
  }

  lemma StoreSim(k: Ctx, op: StoreOp, off: nat, x: Var, a: Var, c: Core, addr: nat, n: Var, s: Machine)
    requires x in s.env && s.env[x] == CoreOp(c) && c.ty == StoreType(op)
    requires a in s.env && s.env[a] == CoreOp(Core(Pointer, addr))
    ensures var w := StoreWidth(op, k.p);
            Yields(k, One(StoreTo(op, off), [x, a], n), n, s, WorldEffect(StoreInt(s.w, addr + off, c.bits % Pow256(w), w)))
  {
    hide Yields, StoreInt, Pow256;
    var w := StoreWidth(op, k.p);
    Pair(s.env, x, a);
    YieldsOne(k, StoreTo(op, off), [x, a], n, n, s, [CoreOp(c), CoreOp(Core(Pointer, addr))],
              WorldEffect(StoreInt(s.w, addr + off, c.bits % Pow256(w), w)));
  }

  /** `lower_and_emit`: types stored by one instruction. */
  lemma {:induction false} WriteLeafSim(k: Ctx, g: Gen, t: Ty, op: StoreOp, v: Val, x: Var, a: Var, addr: nat, off: nat, n: Var, s: Machine)
    requires Holds(k, g, t, v, x, n, s) && Points(a, addr, n, s)
    requires match t
             case Scalar(p) => op == StoreOpOf(p)
             case Flags(c) => 0 < c <= 16 && op == StoreTag(FlagBytes(c))
             case Enum(c) => op == StoreTag(TagSize(c))
             case _ => false
    ensures |LowerCode(g, t, x, n).outs| == 1
    ensures var l := LowerCode(g, t, x, n);
            Yields(k, Then(l, One(StoreTo(op, off), l.outs + [a], l.next)), n, s,
                   WorldEffect(Store(CfgOf(g), t, v, addr + off, s.w)))
    decreases t, 3, 0
  {
    hide Yields, Run, LowerCode, LowerFlat, Store, Points, StoreInt, StoreTag, StoreOpOf, StoreType, StoreWidth, HasType;
    var l := LowerCode(g, t, x, n);
    LeafWord(CfgOf(g), t, op, v, addr + off, s.w);
    var c := LowerFlat(CfgOf(g), t, v, s.w).value.flat[0];
    LowerSim(k, g, t, v, x, n, s);
    var oa := Effect([CoreOp(c)], s.w);
    assert CoreOps([c]) == [CoreOp(c)];
    Left(k, l, n, s, CoreOp(c), s.w);
    PointsLater(k, l, n, s, Ok(oa), a, addr);
    var s1 := After(k, l, s);
    PointsIs(a, addr, l.next, s1);
    StoreSim(k, op, off, l.outs[0], a, c, addr, l.next, s1);
    assert l.outs + [a] == [l.outs[0], a];
    YieldsThen(k, l, One(StoreTo(op, off), l.outs + [a], l.next), n, s, Ok(oa), WorldEffect(Store(CfgOf(g), t, v, addr + off, s.w)));
  }

  lemma PointsIs(a: Var, addr: nat, n: Var, s: Machine)
    requires Points(a, addr, n, s)
    ensures a < n && a in s.env && s.env[a] == CoreOp(Core(Pointer, addr))
  {
  }

  /** One word `x` of type `op`'s, stored at its width, is what the ABI stores for `t`. */
  ghost predicate StoresWord(c: Cfg, t: Ty, op: StoreOp, v: Val, a: nat, w: World) {
    var r := LowerFlat(c, t, v, w);
    && r.Ok? && |r.value.flat| == 1 && r.value == Lowered([r.value.flat[0]], w)
    && r.value.flat[0].ty == StoreType(op)
    && Store(c, t, v, a, w) == StoreInt(w, a, r.value.flat[0].bits % Pow256(StoreWidth(op, c.p)), StoreWidth(op, c.p))
  }

  lemma LeafWord(c: Cfg, t: Ty, op: StoreOp, v: Val, a: nat, w: World)
    requires HasType(c.p, t, v) && WellFormed(t)
    requires match t
             case Scalar(p) => op == StoreOpOf(p)
             case Flags(n) => 0 < n <= 16 && op == StoreTag(FlagBytes(n))
             case Enum(n) => op == StoreTag(TagSize(n))
             case _ => false
    ensures |Flat(t)| == 1 && StoresWord(c, t, op, v, a, w)
  {
    hide StoresWord;
    match t
    case Scalar(p) => ScalarWord(c, p, v, a, w);
    case Flags(n) => FlagWord(c, n, v, a, w);
    case Enum(n) => EnumWord(c, n, v, a, w);
  }

  lemma ScalarWord(c: Cfg, p: Prim, v: Val, a: nat, w: World)
    requires v.Num?
    ensures StoresWord(c, Scalar(p), StoreOpOf(p), v, a, w)
  {
    hide StoreInt, Pow256, Wrap;
    assert StoreWidth(StoreOpOf(p), c.p) == Width(p) && StoreType(StoreOpOf(p)) == CoreOf(p);
  }

  lemma FlagWord(c: Cfg, n: nat, v: Val, a: nat, w: World)
    requires 0 < n <= 16 && v.FlagsV? && |v.bits| == n
    ensures StoresWord(c, Flags(n), StoreTag(FlagBytes(n)), v, a, w)
  {
    hide StoreInt, Pow256, ToWords;
    OneFlagWord(v.bits);
  }

  lemma EnumWord(c: Cfg, n: nat, v: Val, a: nat, w: World)
    requires n <= TWO_32 && v.VariantV? && v.arm < n
    ensures StoresWord(c, Enum(n), StoreTag(TagSize(n)), v, a, w)
  {
    hide StoreInt, Pow256, TagSize, StoreTag, StoreType, StoreWidth, Store, LowerFlat;
    TagStore(n, c.p);
    TagPow(n, v.arm);
    EnumIs(c, n, v, a, w);
  }

  lemma EnumIs(c: Cfg, n: nat, v: Val, a: nat, w: World)
    requires v.VariantV? && v.arm < n
    ensures Store(c, Enum(n), v, a, w) == StoreInt(w, a, v.arm, TagSize(n))
    ensures LowerFlat(c, Enum(n), v, w) == Ok(Lowered([Core(I32, v.arm)], w))
  {
    hide StoreInt, TagSize;
  }

  lemma OneFlagWord(bits: seq<bool>)
    requires 0 < |bits| <= 16
    ensures |ToWords(bits)| == 1 && |I32s(ToWords(bits))| == 1 && I32s(ToWords(bits)) == [Core(I32, ToWords(bits)[0])]
  {
    hide ToWords;
  }

  lemma {:induction false} WritePairSim(k: Ctx, g: Gen, t: Ty, v: Val, x: Var, a: Var, addr: nat, off: nat, n: Var, s: Machine)
    requires (t.Str? || t.List? || t.Map?) && Holds(k, g, t, v, x, n, s) && Points(a, addr, n, s)
    ensures Yields(k, WritePairCode(g, LowerCode(g, t, x, n), a, off), n, s, WorldEffect(Store(CfgOf(g), t, v, addr + off, s.w)))
    decreases t, 3, 0
  {
    hide Yields, Run, LowerCode, Store, Points, StoreInt, HasType, StoreBuffer, Pow256, PairStores, After, Lookup, One, ResultsLen;
    var l := LowerCode(g, t, x, n);
    LowerSim(k, g, t, v, x, n, s);
    ListEffect(CfgOf(g), t, v, s.w);
    var ob := StoreBuffer(CfgOf(g), t, v, s.w);
    StorePairIs(CfgOf(g), t, v, addr + off, s.w);
    var st := One(StoreTo(LengthStore, off + g.p), [l.outs[1], a], l.next);
    var st2 := One(StoreTo(PointerStore, off), [l.outs[0], a], st.next);
    if ob.Ok? {
      var b := ob.value;
      PairOps(Core(Pointer, b.ptr), Core(Length, b.len));
      AfterYields(k, l, n, s, [CoreOp(Core(Pointer, b.ptr)), CoreOp(Core(Length, b.len))], b.w);
      PointsLater(k, l, n, s, BufferEffect(ob), a, addr);
      PairTailSim(k, g, b, l.outs, a, addr, off, l.next, After(k, l, s));
      YieldsThen(k, l, Then(st, st2), n, s, BufferEffect(ob), WorldEffect(PairStores(g.p, b, addr + off)));
    } else {
      YieldsThen(k, l, Then(st, st2), n, s, BufferEffect(ob), BufferEffect(ob));
    }
  }

  /** Length, then pointer, as the store instructions write them. */
  ghost function PairStores(p: PtrSize, b: Buffer, a: nat): Outcome<World> {
    var w1 :- StoreInt(b.w, a + p, b.len % Pow256(p), p);
    StoreInt(w1, a, b.ptr % Pow256(p), p)
  }

  lemma PointerWidths(p: PtrSize)
    ensures StoreWidth(LengthStore, p) == p && StoreWidth(PointerStore, p) == p
    ensures StoreType(LengthStore) == Length && StoreType(PointerStore) == Pointer
  {
  }

  lemma PairTailSim(k: Ctx, g: Gen, b: Buffer, xs: seq<Var>, a: Var, addr: nat, off: nat, n: Var, s: Machine)
    requires k.p == g.p && |xs| == 2 && AllBelow(xs, n) && Points(a, addr, n, s) && s.w == b.w
    requires Lookup(s.env, xs) == Ok([CoreOp(Core(Pointer, b.ptr)), CoreOp(Core(Length, b.len))])
    ensures var st := One(StoreTo(LengthStore, off + g.p), [xs[1], a], n);
            var st2 := One(StoreTo(PointerStore, off), [xs[0], a], st.next);
            Yields(k, Then(st, st2), n, s, WorldEffect(PairStores(g.p, b, addr + off)))
  {
    hide Yields, Run, Points, StoreInt, Pow256, StoreWidth, StoreType, Lookup, After, One;
    var st := One(StoreTo(LengthStore, off + g.p), [xs[1], a], n);
    var st2 := One(StoreTo(PointerStore, off), [xs[0], a], st.next);
    PointsIs(a, addr, n, s);
    LookupAt(s.env, xs, 0);
    LookupAt(s.env, xs, 1);
    assert xs[0] in xs;
    PointerWidths(g.p);
    StoreSim(k, LengthStore, off + g.p, xs[1], a, Core(Length, b.len), addr, n, s);
    assert addr + (off + g.p) == addr + off + g.p;
    var o1 := StoreInt(b.w, addr + off + g.p, b.len % Pow256(g.p), g.p);
    if o1.Ok? {
      var s2 := After(k, st, s);
      StoreLeaves(k, st, n, s, o1.value, a);
      StoreLeaves(k, st, n, s, o1.value, xs[0]);
      StoreSim(k, PointerStore, off, xs[0], a, Core(Pointer, b.ptr), addr, st.next, s2);
      YieldsThen(k, st, st2, n, s, WorldEffect(o1), WorldEffect(StoreInt(o1.value, addr + off, b.ptr % Pow256(g.p), g.p)));
    } else {
      YieldsThen(k, st, st2, n, s, WorldEffect(o1), WorldEffect(o1));
    }
  }

  lemma StoreLeaves(k: Ctx, st: Chunk, n: Var, s: Machine, w: World, x: Var)
    requires st.outs == [] && Yields(k, st, n, s, Ok(Effect([], w))) && x < n && x in s.env
    ensures After(k, st, s).w == w && x in After(k, st, s).env && After(k, st, s).env[x] == s.env[x]
  {
    hide Yields, After;
    AfterYields(k, st, n, s, [], w);
    KeepVar(k, st, n, s, Ok(Effect([], w)), x);
  }

  lemma KeepVar(k: Ctx, c: Chunk, n: Var, s: Machine, o: Outcome<Effect>, x: Var)
    requires Yields(k, c, n, s, o) && o.Ok? && x < n && x in s.env
    ensures x in After(k, c, s).env && After(k, c, s).env[x] == s.env[x]
  {
    hide Run;
  }

  lemma StorePairIs(c: Cfg, t: Ty, v: Val, a: nat, w: World)
    requires (t.Str? || t.List? || t.Map?) && HasType(c.p, t, v)
    ensures var ob := StoreBuffer(c, t, v, w);
            Store(c, t, v, a, w) == (if ob.Ok? then PairStores(c.p, ob.value, a) else ob.PropagateFailure())
  {
    hide StoreInt, StoreBuffer, Pow256, HasType;
    if StoreBuffer(c, t, v, w).Ok? {
      BufferValid(c, t, v, w);
      PtrPow(c.p);
    }
  }
  lemma {:induction false} WriteFixedSim(k: Ctx, g: Gen, e: Ty, len: nat, v: Val, x: Var, a: Var, addr: nat, off: nat, n: Var, s: Machine)
    requires Holds(k, g, FixedList(e, len), v, x, n, s) && Points(a, addr, n, s)
    ensures var w := ElemWriter(g, e, off, n);
            Yields(k, Take(FixedListLowerToMemory(e, len), [x, a], w.next, [w.block], []), n, s,
                   WorldEffect(Store(CfgOf(g), FixedList(e, len), v, addr + off, s.w)))
    decreases e, 8
  {
    hide Yields, Run, ElemWriter, Size, EachElem, StoreElems, Perform, Take;
    var b := ElemWriter(g, e, off, n);
    EachElemSim(k, g, e, v.elems, addr, off, b.block, false, n, s);
    FixedPerform(k, e, len, v, addr, [x, a], b.next, b.block, s);
    Pair(s.env, x, a);
    var o := WorldEffect(Store(CfgOf(g), FixedList(e, len), v, addr + off, s.w));
    YieldsTake(k, FixedListLowerToMemory(e, len), [x, a], b.next, [b.block], [], n, s,
               [ValOp(v), CoreOp(Core(Pointer, addr))], o);
  }

  lemma FixedPerform(k: Ctx, e: Ty, len: nat, v: Val, addr: nat, args: seq<Var>, m: Var, b: CodeBlock, s: Machine)
    requires v.ListV? && |v.elems| == len
    ensures Perform(k, Take(FixedListLowerToMemory(e, len), args, m, [b], []).code[0], [ValOp(v), CoreOp(Core(Pointer, addr))], s)
         == WorldEffect(EachElem(k, b, v.elems, addr, Size(k.p, e), s))
  {
    hide EachElem, Simple, Size;
  }

  lemma {:induction false} WriteRecordSim(k: Ctx, g: Gen, rk: RecordKind, fs: seq<Ty>, v: Val, x: Var, a: Var, addr: nat, off: nat,
                                          n: Var, s: Machine)
    requires Holds(k, g, Record(rk, fs), v, x, n, s) && Points(a, addr, n, s)
    ensures var d := One(RecordLower(rk, |fs|), [x], n);
            Yields(k, Then(d, WriteFieldsCode(g, fs, d.outs, a, off, 0, d.next)), n, s,
                   WorldEffect(Store(CfgOf(g), Record(rk, fs), v, addr + off, s.w)))
    decreases fs, 1
  {
    hide Yields, Run, WriteFieldsCode, StoreFields, Points;
    var d := One(RecordLower(rk, |fs|), [x], n);
    SplitSim(k, RecordLower(rk, |fs|), v, v.fields, x, n, s);
    var s1 := After(k, d, s);
    PointsLater(k, d, n, s, Ok(Effect(ValOps(v.fields), s.w)), a, addr);
    WriteFieldsSim(k, g, fs, v.fields, d.outs, a, addr, off, 0, d.next, s1);
    YieldsThen(k, d, WriteFieldsCode(g, fs, d.outs, a, off, 0, d.next), n, s, Ok(Effect(ValOps(v.fields), s.w)),
               WorldEffect(StoreFields(CfgOf(g), fs, v.fields, addr + off, 0, s.w)));
  }

  lemma {:induction false} WriteFieldsSim(k: Ctx, g: Gen, fs: seq<Ty>, vs: seq<Val>, xs: seq<Var>, a: Var, addr: nat, off: nat,
                                          pos: nat, n: Var, s: Machine)
    requires k.p == g.p && |xs| == |fs| == |vs| && AllWellFormed(fs)
    requires forall i | 0 <= i < |fs| :: HasType(g.p, fs[i], vs[i])
    requires AllBelow(xs, n) && Lookup(s.env, xs) == Ok(ValOps(vs)) && Points(a, addr, n, s)
    ensures Yields(k, WriteFieldsCode(g, fs, xs, a, off, pos, n), n, s,
                   WorldEffect(StoreFields(CfgOf(g), fs, vs, addr + off, pos, s.w)))
    decreases fs, 0
  {
    hide Yields, Run, WriteCode, Store, HasType, WellFormed, Points, FieldOffset, Size;
    if fs == [] {
      assert Lookup(s.env, []) == Ok([]);
      YieldsNothing(k, n, s, [], []);
    } else {
      var o := FieldOffset(g.p, fs[0], pos);
      var c := WriteCode(g, fs[0], xs[0], a, off + o, n);
      var st := Store(CfgOf(g), fs[0], vs[0], addr + off + o, s.w);
      assert addr + (off + o) == addr + off + o;
      LookupAt(s.env, xs, 0);
      assert xs[0] in xs;
      WriteSim(k, g, fs[0], vs[0], xs[0], a, addr, off + o, n, s);
      var rest := WriteFieldsCode(g, fs[1..], xs[1..], a, off, o + Size(g.p, fs[0]), c.next);
      if st.Ok? {
        RestThere(k, c, n, s, WorldEffect(st), xs, vs);
        PointsLater(k, c, n, s, WorldEffect(st), a, addr);
        WriteFieldsSim(k, g, fs[1..], vs[1..], xs[1..], a, addr, off, o + Size(g.p, fs[0]), c.next, After(k, c, s));
        YieldsThen(k, c, rest, n, s, WorldEffect(st),
                   WorldEffect(StoreFields(CfgOf(g), fs[1..], vs[1..], addr + off, o + Size(g.p, fs[0]), st.value)));
      } else {
        YieldsThen(k, c, rest, n, s, WorldEffect(st), WorldEffect(st));
      }
    }
  }

  lemma {:induction false} WriteFlagsSim(k: Ctx, g: Gen, c: nat, v: Val, x: Var, a: Var, addr: nat, off: nat, n: Var, s: Machine)
    requires !(0 < c <= 16) && Holds(k, g, Flags(c), v, x, n, s) && Points(a, addr, n, s)
    ensures var l := LowerCode(g, Flags(c), x, n);
            Yields(k, Then(l, WriteWordsCode(l.outs, a, off, l.next)), n, s,
                   WorldEffect(Store(CfgOf(g), Flags(c), v, addr + off, s.w)))
    decreases Flags(c), 3, 0
  {
    hide Yields, Run, LowerCode, Points, WriteWordsCode, StoreWords, ToWords, FromWords;
    var l := LowerCode(g, Flags(c), x, n);
    var ws := ToWords(v.bits);
    LowerSim(k, g, Flags(c), v, x, n, s);
    var oa := Effect(CoreOps(I32s(ws)), s.w);
    AfterYields(k, l, n, s, CoreOps(I32s(ws)), s.w);
    PointsLater(k, l, n, s, Ok(oa), a, addr);
    WordsFit(v.bits);
    WriteWordsSim(k, ws, l.outs, a, addr, off, l.next, After(k, l, s));
    YieldsThen(k, l, WriteWordsCode(l.outs, a, off, l.next), n, s, Ok(oa), WorldEffect(StoreWords(ws, addr + off, s.w)));
  }

  lemma {:induction false} WriteWordsSim(k: Ctx, ws: seq<nat>, xs: seq<Var>, a: Var, addr: nat, off: nat, n: Var, s: Machine)
    requires |xs| == |ws| && AllBelow(xs, n) && Lookup(s.env, xs) == Ok(CoreOps(I32s(ws))) && Points(a, addr, n, s)
    requires forall y | y in ws :: y < TWO_32
    ensures Yields(k, WriteWordsCode(xs, a, off, n), n, s, WorldEffect(StoreWords(ws, addr + off, s.w)))
  {
    hide Yields, Run, Points, StoreInt, Pow256, StoreWidth, Lookup, After, I32s, CoreOps;
    if xs == [] {
      EmptyLookup(s.env);
      YieldsNothing(k, n, s, [], []);
    } else {
      var i := |xs| - 1;
      var c := One(StoreTo(I32Store, off + 4 * i), [xs[i], a], n);
      var st := StoreInt(s.w, addr + off + 4 * i, ws[i], 4);
      WordStoreSim(k, ws, xs, i, a, addr, off, n, s);
      var rest := WriteWordsCode(xs[..i], a, off, c.next);
      if st.Ok? {
        WordsInit(s.env, xs, ws, n);
        StillThere(k, c, n, s, WorldEffect(st), xs[..i], CoreOps(I32s(ws[..i])));
        PointsLater(k, c, n, s, WorldEffect(st), a, addr);
        AfterYields(k, c, n, s, [], st.value);
        AllBelowUp(xs[..i], n, c.next);
        WriteWordsSim(k, ws[..i], xs[..i], a, addr, off, c.next, After(k, c, s));
        YieldsThen(k, c, rest, n, s, WorldEffect(st), WorldEffect(StoreWords(ws[..i], addr + off, st.value)));
      } else {
        YieldsThen(k, c, rest, n, s, WorldEffect(st), WorldEffect(st));
      }
    }
  }

  lemma EmptyLookup(env: Env)
    ensures Lookup(env, []) == Ok([])
  {
  }

  lemma AllBelowUp(xs: seq<Var>, n: Var, m: Var)
    requires AllBelow(xs, n) && n <= m
    ensures AllBelow(xs, m)
  {
  }

  lemma WordStoreSim(k: Ctx, ws: seq<nat>, xs: seq<Var>, i: nat, a: Var, addr: nat, off: nat, n: Var, s: Machine)
    requires i < |xs| == |ws| && AllBelow(xs, n) && Lookup(s.env, xs) == Ok(CoreOps(I32s(ws))) && Points(a, addr, n, s)
    requires forall y | y in ws :: y < TWO_32
    ensures Yields(k, One(StoreTo(I32Store, off + 4 * i), [xs[i], a], n), n, s,
                   WorldEffect(StoreInt(s.w, addr + off + 4 * i, ws[i], 4)))
  {
    hide Yields, Run, Points, StoreInt, Pow256;
    LookupAt(s.env, xs, i);
    PointsIs(a, addr, n, s);
    StoreSim(k, I32Store, off + 4 * i, xs[i], a, Core(I32, ws[i]), addr, n, s);
    assert ws[i] in ws;
    Pow256Values();
    assert addr + (off + 4 * i) == addr + off + 4 * i;
  }

  lemma WordsInit(env: Env, xs: seq<Var>, ws: seq<nat>, n: Var)
    requires |xs| == |ws| > 0 && AllBelow(xs, n) && Lookup(env, xs) == Ok(CoreOps(I32s(ws)))
    requires forall y | y in ws :: y < TWO_32
    ensures var i := |xs| - 1;
            && Lookup(env, xs[..i]) == Ok(CoreOps(I32s(ws[..i]))) && AllBelow(xs[..i], n)
            && forall y | y in ws[..i] :: y < TWO_32
  {
    var i := |xs| - 1;
    LookupSlice(env, xs, 0, i);
    assert xs[0..i] == xs[..i] && CoreOps(I32s(ws))[0..i] == CoreOps(I32s(ws[..i]));
    assert forall y | y in xs[..i] :: y in xs;
    assert forall y | y in ws[..i] :: y in ws;
  }

  // ----- variants in memory -----

  lemma {:induction false} WriteArmAt(g: Gen, arms: seq<Option<Ty>>, j: nat, a: Var, off: nat, payload: nat, tag: nat, n: Var, i: nat)
    returns (m: Var)
    requires ArmsWellFormed(arms) && i < |arms|
    ensures n <= m && (arms[i].Some? ==> WellFormed(arms[i].value))
    ensures var r := WriteArmsCode(g, arms, j, a, off, payload, tag, n);
            r.blocks[i] == WriteArmCode(g, arms[i], j + i, a, off, payload, tag, m).block && r.payloads[i] == m
  {
    hide WriteArmCode, WellFormed;
    assert arms[0] in arms;
    if i == 0 {
      m := n;
    } else {
      var w := WriteArmCode(g, arms[0], j, a, off, payload, tag, n);
      m := WriteArmAt(g, arms[1..], j + 1, a, off, payload, tag, w.next, i - 1);
      assert arms[1..][i - 1] == arms[i];
    }
  }

  lemma {:induction false} WriteVariantSim(k: Ctx, g: Gen, vk: VariantKind, arms: seq<Option<Ty>>, v: Val, x: Var, a: Var, addr: nat,
                                           off: nat, n: Var, s: Machine)
    requires Holds(k, g, Variant(vk, arms), v, x, n, s) && Points(a, addr, n, s)
    ensures Yields(k, WriteVariantCode(g, vk, arms, x, a, off, n), n, s,
                   WorldEffect(Store(CfgOf(g), Variant(vk, arms), v, addr + off, s.w)))
    decreases arms, 2
  {
    hide Yields, Run, WriteArmsCode, Store, WellFormed, HasType, WriteArmCode, RunBlock, Points, TagSize, PayloadOffset, Take;
    var t := Variant(vk, arms);
    VariantTyped(g.p, vk, arms, v);
    ArmsOf(vk, arms);
    var i := v.arm;
    var tag, payload := TagSize(|arms|), off + PayloadOffset(g.p, arms);
    var r := WriteArmsCode(g, arms, 0, a, off, payload, tag, n);
    var m := WriteArmAt(g, arms, 0, a, off, payload, tag, n, i);
    var s1 := s.(env := if v.payload.Some? then s.env[m := ValOp(v.payload.value)] else s.env);
    PayloadPoints(a, addr, n, m, v, s);
    var o := WorldEffect(Store(CfgOf(g), t, v, addr + off, s.w));
    WriteArmSim(k, g, arms[i], v.payload, i, a, addr, off, payload, |arms|, m, s1);
    StoreVariantIs(CfgOf(g), vk, arms, v, addr + off, s.w);
    VariantRuns(k, VariantLower(vk, arms, []), x, r.next, r.blocks, r.payloads, v, m, n, s, o);
  }

  lemma PayloadPoints(a: Var, addr: nat, n: Var, m: Var, v: Val, s: Machine)
    requires Points(a, addr, n, s) && n <= m && v.VariantV?
    ensures Points(a, addr, m, s.(env := if v.payload.Some? then s.env[m := ValOp(v.payload.value)] else s.env))
  {
  }

  lemma StoreVariantIs(c: Cfg, vk: VariantKind, arms: seq<Option<Ty>>, v: Val, a: nat, w: World)
    requires v.VariantV? && v.arm < |arms| <= TWO_32
    ensures var tag := TagSize(|arms|);
            var o1 := StoreInt(w, a, v.arm % Pow256(tag), tag);
            Store(c, Variant(vk, arms), v, a, w)
            == (if o1.Ok? then StoreArm(c, arms[v.arm], v.payload, a + PayloadOffset(c.p, arms), o1.value) else o1)
  {
    hide StoreInt, TagSize, Pow256, PayloadOffset;
    TagPow(|arms|, v.arm);
  }

  lemma TagStore(n: nat, p: PtrSize)
    ensures StoreType(StoreTag(TagSize(n))) == I32 && StoreWidth(StoreTag(TagSize(n)), p) == TagSize(n)
  {
  }

  lemma {:induction false} WriteArmSim(k: Ctx, g: Gen, arm: Option<Ty>, payload: Option<Val>, i: nat, a: Var, addr: nat, off: nat,
                                       poff: nat, cases: nat, m: Var, s: Machine)
    requires k.p == g.p && i < TWO_32 && Points(a, addr, m, s)
    requires arm.None? ==> payload.None?
    requires arm.Some? ==> payload.Some? && WellFormed(arm.value) && HasType(g.p, arm.value, payload.value)
    requires arm.Some? ==> m in s.env && s.env[m] == ValOp(payload.value)
    ensures var tag := TagSize(cases);
            var o1 := StoreInt(s.w, addr + off, i % Pow256(tag), tag);
            RunBlock(k, WriteArmCode(g, arm, i, a, off, poff, tag, m).block, s)
            == WorldEffect(if o1.Ok? then StoreArm(CfgOf(g), arm, payload, addr + poff, o1.value) else o1)
    decreases arm, 1
  {
    hide Yields, Run, WriteCode, Store, HasType, WellFormed, Points, StoreInt, Pow256, RunBlock, TagSize, StoreTag;
    var tag := TagSize(cases);
    var o1 := StoreInt(s.w, addr + off, i % Pow256(tag), tag);
    var c := One(I32Const(i), [], m + 1);
    var c0 := CoreOp(Core(I32, i));
    YieldsOne(k, I32Const(i), [], m + 1, m + 1, s, [], Ok(Effect([c0], s.w)));
    Left(k, c, m + 1, s, c0, s.w);
    var s1 := After(k, c, s);
    PointsUp(a, addr, m, s);
    PointsLater(k, c, m + 1, s, Ok(Effect([c0], s.w)), a, addr);
    PointsIs(a, addr, c.next, s1);
    TagStore(cases, g.p);
    StoreSim(k, StoreTag(tag), off, c.outs[0], a, Core(I32, i), addr, c.next, s1);
    var st := One(StoreTo(StoreTag(tag), off), c.outs + [a], c.next);
    assert c.outs + [a] == [c.outs[0], a];
    YieldsThen(k, c, st, m + 1, s, Ok(Effect([c0], s.w)), WorldEffect(o1));
    var both := Then(c, st);
    if arm.None? {
      YieldsBlock(k, both, m + 1, s, WorldEffect(o1));
    } else {
      var body := WriteCode(g, arm.value, m, a, poff, both.next);
      if o1.Ok? {
        TagHolds2(k, g, arm.value, payload.value, both, m, s, o1.value);
        PointsLater(k, both, m + 1, s, WorldEffect(o1), a, addr);
        AfterYields(k, both, m + 1, s, [], o1.value);
        WriteSim(k, g, arm.value, payload.value, m, a, addr, poff, both.next, After(k, both, s));
        var o2 := Store(CfgOf(g), arm.value, payload.value, addr + poff, o1.value);
        YieldsThen(k, both, body, m + 1, s, WorldEffect(o1), WorldEffect(o2));
        YieldsBlock(k, Then(both, body), m + 1, s, WorldEffect(o2));
      } else {
        YieldsThen(k, both, body, m + 1, s, WorldEffect(o1), WorldEffect(o1));
        YieldsBlock(k, Then(both, body), m + 1, s, WorldEffect(o1));
      }
    }
  }

  lemma PointsUp(a: Var, addr: nat, m: Var, s: Machine)
    requires Points(a, addr, m, s)
    ensures Points(a, addr, m + 1, s)
  {
  }

  lemma TagHolds2(k: Ctx, g: Gen, t: Ty, v: Val, c: Chunk, m: Var, s: Machine, w: World)
    requires Yields(k, c, m + 1, s, WorldEffect(Ok(w))) && m + 1 <= c.next
    requires k.p == g.p && WellFormed(t) && HasType(g.p, t, v) && m in s.env && s.env[m] == ValOp(v)
    ensures Holds(k, g, t, v, m, c.next, After(k, c, s))
  {
    hide Run, HasType, WellFormed;
  }
}
