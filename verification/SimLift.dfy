/** The code emitted by `lift` and `read_from_memory` does exactly what the Canonical
    ABI's flat lifting and loading say, traps included, for every type and memory. */
module SimLift {
  import opened Wrappers
  import opened CoreTypes
  import opened Layout
  import opened Memory
  import opened Values
  import opened CanonicalAbi
  import opened Code
  import opened Codegen
  import opened Simulation
  import opened SimLower

  function LiftEffect(o: Outcome<Val>, w: World): Outcome<Effect> {
    var v :- o;
    Ok(Effect([ValOp(v)], w))
  }

  function ValsEffect(o: Outcome<seq<Val>>, w: World): Outcome<Effect> {
    var vs :- o;
    Ok(Effect(ValOps(vs), w))
  }

  function ArmLiftEffect(o: Outcome<Option<Val>>, w: World): Outcome<Effect> {
    var p :- o;
    Ok(Effect(if p.Some? then [ValOp(p.value)] else [], w))
  }

  /** The operands `xs` hold the words `fs`. */
  ghost predicate HoldsFlat(k: Ctx, g: Gen, ts: seq<WasmType>, fs: seq<Core>, xs: seq<Var>, n: Var, s: Machine) {
    && k.p == g.p && |fs| == |ts| == |xs| && AllBelow(xs, n) && Lookup(s.env, xs) == Ok(CoreOps(fs))
  }

  lemma FlatSlice(k: Ctx, g: Gen, ts: seq<WasmType>, fs: seq<Core>, xs: seq<Var>, n: Var, s: Machine, i: nat, j: nat, us: seq<WasmType>)
    requires HoldsFlat(k, g, ts, fs, xs, n, s) && i <= j <= |xs| && |us| == j - i
    ensures HoldsFlat(k, g, us, fs[i..j], xs[i..j], n, s)
  {
    LookupSlice(s.env, xs, i, j);
    assert CoreOps(fs)[i..j] == CoreOps(fs[i..j]);
    assert forall y | y in xs[i..j] :: y in xs;
  }

  lemma FlatLater(k: Ctx, g: Gen, ts: seq<WasmType>, fs: seq<Core>, xs: seq<Var>, n: Var, s: Machine, c: Chunk, o: Outcome<Effect>)
    requires HoldsFlat(k, g, ts, fs, xs, n, s) && Yields(k, c, n, s, o) && o.Ok? && n <= c.next
    ensures HoldsFlat(k, g, ts, fs, xs, c.next, After(k, c, s))
  {
    hide Yields;
    StillThere(k, c, n, s, o, xs, CoreOps(fs));
    AllBelowUp(xs, n, c.next);
  }

  // ----- lift -----

  lemma {:induction false} LiftSim(k: Ctx, g: Gen, t: Ty, fs: seq<Core>, xs: seq<Var>, n: Var, s: Machine)
    requires WellFormed(t) && HoldsFlat(k, g, Flat(t), fs, xs, n, s)
    ensures Yields(k, LiftCode(g, t, xs, n), n, s, LiftEffect(LiftFlat(g.p, t, fs, s.w.mem), s.w))
    decreases t, 2
  {
    hide Yields, Run, LiftListCode, LiftMapCode, LiftRepeatCode, LiftFieldsCode, LiftVariantCode, HoldsFlat,
      LoadBuffer, LiftRepeat, LiftFields, LiftArm, FlatFields, FlatRepeat, FlatArms;
    match t
    case Scalar(p) => LiftScalarSim(k, g, p, fs, xs, n, s);
    case Str => LiftStringSim(k, g, fs, xs, n, s);
    case Alias(u) => LiftSim(k, g, u, fs, xs, n, s);
    case List(e) => LiftListSim(k, g, e, fs, xs, n, s);
    case Map(e) => LiftMapSim(k, g, e, fs, xs, n, s);
    case FixedList(e, len) => LiftFixedSim(k, g, e, len, fs, xs, n, s);
    case Record(rk, tys) => LiftRecordSim(k, g, rk, tys, fs, xs, n, s);
    case Flags(c) => LiftFlagsSim(k, g, c, fs, xs, n, s);
    case Enum(c) => LiftEnumSim(k, g, c, fs, xs, n, s);
    case Variant(vk, arms) => LiftVariantSim(k, g, vk, arms, fs, xs, n, s);
  }

  lemma LiftScalarSim(k: Ctx, g: Gen, p: Prim, fs: seq<Core>, xs: seq<Var>, n: Var, s: Machine)
    requires HoldsFlat(k, g, [CoreOf(p)], fs, xs, n, s)
    ensures Yields(k, One(ScalarLift(p), xs, n), n, s, LiftEffect(LiftFlat(g.p, Scalar(p), fs, s.w.mem), s.w))
  {
    hide Yields, Run, FromCore;
    YieldsOne(k, ScalarLift(p), xs, n, n, s, CoreOps(fs), LiftEffect(LiftFlat(g.p, Scalar(p), fs, s.w.mem), s.w));
  }

  lemma LiftStringSim(k: Ctx, g: Gen, fs: seq<Core>, xs: seq<Var>, n: Var, s: Machine)
    requires HoldsFlat(k, g, [Pointer, Length], fs, xs, n, s)
    ensures Yields(k, One(StringLift, xs, n), n, s, LiftEffect(LiftFlat(g.p, Str, fs, s.w.mem), s.w))
  {
    hide Yields, Run, LoadBuffer;
    YieldsOne(k, StringLift, xs, n, n, s, CoreOps(fs), LiftEffect(LiftFlat(g.p, Str, fs, s.w.mem), s.w));
  }

  lemma LiftFlagsSim(k: Ctx, g: Gen, c: nat, fs: seq<Core>, xs: seq<Var>, n: Var, s: Machine)
    requires HoldsFlat(k, g, Flat(Flags(c)), fs, xs, n, s)
    ensures Yields(k, One(FlagsLift(c), xs, n), n, s, LiftEffect(LiftFlat(g.p, Flags(c), fs, s.w.mem), s.w))
  {
    hide Yields, Run, FromWords;
    CoresOf(fs);
    YieldsOne(k, FlagsLift(c), xs, n, n, s, CoreOps(fs), LiftEffect(LiftFlat(g.p, Flags(c), fs, s.w.mem), s.w));
  }

  lemma LiftEnumSim(k: Ctx, g: Gen, c: nat, fs: seq<Core>, xs: seq<Var>, n: Var, s: Machine)
    requires HoldsFlat(k, g, [I32], fs, xs, n, s)
    ensures Yields(k, One(EnumLift(c), xs, n), n, s, LiftEffect(LiftFlat(g.p, Enum(c), fs, s.w.mem), s.w))
  {
    hide Yields, Run;
    YieldsOne(k, EnumLift(c), xs, n, n, s, CoreOps(fs), LiftEffect(LiftFlat(g.p, Enum(c), fs, s.w.mem), s.w));
  }

  lemma CanonListSim(k: Ctx, g: Gen, e: Ty, fs: seq<Core>, xs: seq<Var>, n: Var, s: Machine)
    requires HoldsFlat(k, g, [Pointer, Length], fs, xs, n, s)
    ensures Yields(k, One(ListCanonLift(e), xs, n), n, s, LiftEffect(LiftFlat(g.p, List(e), fs, s.w.mem), s.w))
  {
    hide Yields, Run, LoadElems;
    YieldsOne(k, ListCanonLift(e), xs, n, n, s, CoreOps(fs), LiftEffect(LiftFlat(g.p, List(e), fs, s.w.mem), s.w));
  }

  lemma {:induction false} LiftListSim(k: Ctx, g: Gen, e: Ty, fs: seq<Core>, xs: seq<Var>, n: Var, s: Machine)
    requires WellFormed(e) && HoldsFlat(k, g, [Pointer, Length], fs, xs, n, s)
    ensures Yields(k, LiftListCode(g, e, xs, n), n, s, LiftEffect(LiftFlat(g.p, List(e), fs, s.w.mem), s.w))
    decreases e, 8
  {
    hide Yields, Run, ElemReader, LiftFlat, Perform, Size, Take, Lookup;
    var o := LiftEffect(LiftFlat(g.p, List(e), fs, s.w.mem), s.w);
    if g.canonical(e) {
      CanonListSim(k, g, e, fs, xs, n, s);
    } else {
      var b := ElemReader(g, e, 0, n);
      ReadListSim(k, g, e, fs, s, b.block, ListLift(e), xs, b.next, false, n);
      ListyIs(g.p, e, false, fs, s.w.mem);
      YieldsTake(k, ListLift(e), xs, b.next, [b.block], [], n, s, CoreOps(fs), o);
    }
  }

  lemma {:induction false} LiftMapSim(k: Ctx, g: Gen, e: Ty, fs: seq<Core>, xs: seq<Var>, n: Var, s: Machine)
    requires WellFormed(Map(e)) && HoldsFlat(k, g, [Pointer, Length], fs, xs, n, s)
    ensures Yields(k, LiftMapCode(g, e, xs, n), n, s, LiftEffect(LiftFlat(g.p, Map(e), fs, s.w.mem), s.w))
    decreases e, 8
  {
    hide Yields, Run, EntryReader, LiftFlat, Perform, Size, Take, Lookup;
    var o := LiftEffect(LiftFlat(g.p, Map(e), fs, s.w.mem), s.w);
    var b := EntryReader(g, e, n);
    ReadListSim(k, g, e, fs, s, b.block, MapLift(e), xs, b.next, true, n);
    ListyIs(g.p, e, true, fs, s.w.mem);
    YieldsTake(k, MapLift(e), xs, b.next, [b.block], [], n, s, CoreOps(fs), o);
  }

  function ListValue(o: Outcome<seq<Val>>): Outcome<Val> {
    var vs :- o;
    Ok(ListV(vs))
  }

  /** The list whose pointer and length are `fs`. */
  ghost function LiftedList(p: PtrSize, e: Ty, fs: seq<Core>, m: Mem): Outcome<Val>
    requires |fs| == 2
  {
    if fs[0].ty == Pointer && fs[1].ty == Length then ListValue(LoadElems(p, e, fs[0].bits, fs[1].bits, m)) else Trap
  }

  function Listy(e: Ty, isMap: bool): Ty {
    if isMap then Map(e) else List(e)
  }

  lemma {:induction false} ReadListSim(k: Ctx, g: Gen, e: Ty, fs: seq<Core>, s: Machine, b: CodeBlock, i: Inst, args: seq<Var>,
                                       m: Var, isMap: bool, n: Var)
    requires k.p == g.p && WellFormed(e) && (isMap ==> WellFormed(Map(e))) && |fs| == 2
    requires b == Reader(g, e, 0, isMap, n) && i == if isMap then MapLift(e) else ListLift(e)
    ensures Perform(k, Take(i, args, m, [b], []).code[0], CoreOps(fs), s)
         == LiftEffect(LiftedList(g.p, e, fs, s.w.mem), s.w)
    decreases e, 7
  {
    hide Run, Reader, LoadElems, Size, WellFormed, Collect, Perform;
    if fs[0].ty == Pointer && fs[1].ty == Length {
      CollectSim(k, g, e, fs[1].bits, fs[0].bits, 0, b, isMap, n, s);
    }
    ReadPerform(k, i, e, args, m, b, fs, s);
  }

  lemma ListyIs(p: PtrSize, e: Ty, isMap: bool, fs: seq<Core>, m: Mem)
    requires |fs| == 2
    ensures |Flat(Listy(e, isMap))| == 2 && LiftFlat(p, Listy(e, isMap), fs, m) == LiftedList(p, e, fs, m)
  {
    hide LoadElems;
  }

  lemma ReadPerform(k: Ctx, i: Inst, e: Ty, args: seq<Var>, m: Var, b: CodeBlock, fs: seq<Core>, s: Machine)
    requires (i == MapLift(e) || i == ListLift(e)) && |fs| == 2
    ensures var st := Take(i, args, m, [b], []).code[0];
            Perform(k, st, CoreOps(fs), s) == ReadList(k, st, e, CoreOps(fs), s)
  {
    hide ReadList, Simple;
  }

  function CollectedAs(o: Outcome<seq<Val>>, w: World): Outcome<Collected> {
    var vs :- o;
    Ok(Collected(vs, w))
  }

  /** The block that loads one element, or one map entry. */
  function Reader(g: Gen, e: Ty, off: nat, isMap: bool, n: Var): CodeBlock
    requires WellFormed(e) && (isMap ==> WellFormed(Map(e)))
  {
    if isMap then EntryReader(g, e, n).block else ElemReader(g, e, off, n).block
  }

  /** What one run of that block leaves. */
  function ReaderOps(v: Val, isMap: bool): seq<Operand> {
    if isMap then EntryOps(v) else [ValOp(v)]
  }

  lemma {:induction false} ReaderSim(k: Ctx, g: Gen, e: Ty, base: nat, off: nat, isMap: bool, n: Var, s: Machine)
    requires k.p == g.p && WellFormed(e) && (isMap ==> WellFormed(Map(e)) && off == 0)
    ensures var o := Load(g.p, e, base + off, s.w.mem);
            var r := RunBlock(k.(base := base), Reader(g, e, off, isMap, n), s);
            if o.Ok? then r == Ok(Effect(ReaderOps(o.value, isMap), s.w)) && Gathers(ReaderOps(o.value, isMap), o.value)
            else r == o.PropagateFailure()
    decreases e, 5, 1
  {
    hide Run, ElemReader, EntryReader, Load, WellFormed, RunBlock;
    var o := Load(g.p, e, base + off, s.w.mem);
    if isMap {
      EntryReaderSim(k, g, e, base, n, s);
      if o.Ok? { assert Vals(EntryOps(o.value)).value == o.value.fields; }
    } else {
      ElemReaderSim(k, g, e, base, off, n, s);
      if o.Ok? { assert Vals([ValOp(o.value)]).value == [o.value]; }
    }
  }

  /** `Collect` makes `v` of the results `ops` of one run. */
  predicate Gathers(ops: seq<Operand>, v: Val) {
    var vs := Vals(ops);
    vs.Ok? && |vs.value| > 0 && v == if |vs.value| == 1 then vs.value[0] else RecordV(vs.value)
  }

  lemma CollectStep(k: Ctx, b: CodeBlock, n: nat, base: nat, size: nat, s: Machine, ops: seq<Operand>, v: Val)
    requires n > 0 && RunBlock(k.(base := base), b, s) == Ok(Effect(ops, s.w)) && Gathers(ops, v)
    ensures var rest := Collect(k, b, n - 1, base + size, size, s);
            Collect(k, b, n, base, size, s)
            == if rest.Ok? then Ok(Collected([v] + rest.value.vals, rest.value.w)) else rest
  {
    hide RunBlock, Vals;
    assert s.(w := s.w) == s;
  }

  lemma CollectFails(k: Ctx, b: CodeBlock, n: nat, base: nat, size: nat, s: Machine)
    requires n > 0 && !RunBlock(k.(base := base), b, s).Ok?
    ensures Collect(k, b, n, base, size, s) == RunBlock(k.(base := base), b, s).PropagateFailure()
  {
    hide RunBlock;
  }

  /** Running the element block for every address collects what loading collects. */
  lemma {:induction false} CollectSim(k: Ctx, g: Gen, e: Ty, len: nat, base: nat, off: nat, b: CodeBlock, isMap: bool, n: Var, s: Machine)
    requires k.p == g.p && WellFormed(e) && (isMap ==> WellFormed(Map(e)) && off == 0)
    requires b == Reader(g, e, off, isMap, n)
    ensures Collect(k, b, len, base, Size(g.p, e), s) == CollectedAs(LoadElems(g.p, e, base + off, len, s.w.mem), s.w)
    decreases e, 6, len
  {
    hide Run, Reader, ReaderOps, Gathers, Load, Size, WellFormed, RunBlock, Collect;
    if len > 0 {
      var o := Load(g.p, e, base + off, s.w.mem);
      ReaderSim(k, g, e, base, off, isMap, n, s);
      if o.Ok? {
        CollectStep(k, b, len, base, Size(g.p, e), s, ReaderOps(o.value, isMap), o.value);
        CollectSim(k, g, e, len - 1, base + Size(g.p, e), off, b, isMap, n, s);
        assert base + Size(g.p, e) + off == base + off + Size(g.p, e);
      } else {
        CollectFails(k, b, len, base, Size(g.p, e), s);
      }
    } else {
      CollectNone(k, b, base, Size(g.p, e), s);
    }
  }

  lemma CollectNone(k: Ctx, b: CodeBlock, base: nat, size: nat, s: Machine)
    ensures Collect(k, b, 0, base, size, s) == Ok(Collected([], s.w))
  {
  }

  lemma {:induction false} ElemReaderSim(k: Ctx, g: Gen, e: Ty, base: nat, off: nat, n: Var, s: Machine)
    requires k.p == g.p && WellFormed(e)
    ensures RunBlock(k.(base := base), ElemReader(g, e, off, n).block, s)
         == LiftEffect(Load(g.p, e, base + off, s.w.mem), s.w)
    decreases e, 5, 0
  {
    hide Run, Yields, Load, WellFormed, ReadCode, RunBlock;
    var k1 := k.(base := base);
    var a := One(IterBasePointer, [], n);
    var addr := CoreOp(Core(Pointer, base));
    BaseSim(k1, n, s);
    var c := ReadCode(g, e, a.outs[0], off, a.next);
    ReadSim(k1, g, e, a.outs[0], base, off, a.next, After(k1, a, s));
    var o := LiftEffect(Load(g.p, e, base + off, s.w.mem), s.w);
    YieldsThen(k1, a, c, n, s, Ok(Effect([addr], s.w)), o);
    YieldsBlock(k1, Then(a, c), n, s, o);
  }

  lemma BaseSim(k: Ctx, n: Var, s: Machine)
    ensures var a := One(IterBasePointer, [], n);
            && Yields(k, a, n, s, Ok(Effect([CoreOp(Core(Pointer, k.base))], s.w)))
            && Points(a.outs[0], k.base, a.next, After(k, a, s)) && After(k, a, s).w == s.w
  {
    hide Run, Yields, Points;
    var a := One(IterBasePointer, [], n);
    var addr := CoreOp(Core(Pointer, k.base));
    IterSim(k, IterBasePointer, n, s, addr);
    Left(k, a, n, s, addr, s.w);
    MakePoints(a.outs[0], k.base, a.next, After(k, a, s));
  }

  function EntryOps(v: Val): seq<Operand> {
    if v.RecordV? then ValOps(v.fields) else []
  }

  function EntryEffect(o: Outcome<Val>, w: World): Outcome<Effect> {
    var v :- o;
    Ok(Effect(EntryOps(v), w))
  }

  lemma {:induction false} EntryReaderSim(k: Ctx, g: Gen, e: Ty, base: nat, n: Var, s: Machine)
    requires k.p == g.p && WellFormed(Map(e))
    ensures RunBlock(k.(base := base), EntryReader(g, e, n).block, s) == EntryEffect(Load(g.p, e, base, s.w.mem), s.w)
    ensures Load(g.p, e, base, s.w.mem).Ok? ==>
              Load(g.p, e, base, s.w.mem).value.RecordV? && |Load(g.p, e, base, s.w.mem).value.fields| == 2
    decreases e, 5, 0
  {
    hide Run, Yields, Load, WellFormed, ReadCode, RunBlock, ValueOffset, Points;
    EntryWell(e);
    var key, val := e.fields[0], e.fields[1];
    var k1 := k.(base := base);
    var a := One(IterBasePointer, [], n);
    var addr := Effect([CoreOp(Core(Pointer, base))], s.w);
    BaseSim(k1, n, s);
    var s1 := After(k1, a, s);
    var vo := ValueOffset(g.p, e);
    var kc := ReadCode(g, key, a.outs[0], 0, a.next);
    var vc := ReadCode(g, val, a.outs[0], vo, kc.next);
    ReadSim(k1, g, key, a.outs[0], base, 0, a.next, s1);
    var o1 := Load(g.p, key, base, s.w.mem);
    var o2 := Load(g.p, val, base + vo, s.w.mem);
    if o1.Ok? {
      AfterYields(k1, kc, a.next, s1, [ValOp(o1.value)], s.w);
      PointsLater(k1, kc, a.next, s1, LiftEffect(o1, s.w), a.outs[0], base);
      ReadSim(k1, g, val, a.outs[0], base, vo, kc.next, After(k1, kc, s1));
    }
    var both := SeqBoth(LiftEffect(o1, s.w), LiftEffect(o2, s.w));
    YieldsBoth(k1, kc, vc, a.next, s1, LiftEffect(o1, s.w), LiftEffect(o2, s.w));
    YieldsThen(k1, a, Both(kc, vc), n, s, Ok(addr), both);
    YieldsBlock(k1, Then(a, Both(kc, vc)), n, s, both);
    LoadEntry(g.p, e, base, s.w.mem);
    if o1.Ok? && o2.Ok? { assert [ValOp(o1.value)] + [ValOp(o2.value)] == ValOps([o1.value, o2.value]); }
  }

  lemma EntryWell(e: Ty)
    requires WellFormed(Map(e))
    ensures WellFormed(e) && e.Record? && |e.fields| == 2 && WellFormed(e.fields[0]) && WellFormed(e.fields[1])
  {
    assert e.fields[0] in e.fields && e.fields[1] in e.fields;
  }

  lemma LoadEntry(p: PtrSize, e: Ty, a: nat, m: Mem)
    requires e.Record? && |e.fields| == 2
    ensures var o1 := Load(p, e.fields[0], a, m);
            var o2 := Load(p, e.fields[1], a + ValueOffset(p, e), m);
            Load(p, e, a, m)
            == (if o1.Ok? then (if o2.Ok? then Ok(RecordV([o1.value, o2.value])) else o2) else o1)
  {
    hide Size, Align, LoadFields, FieldOffset;
    LoadTwo(p, e.fields, a, m);
  }

  lemma LoadTwo(p: PtrSize, fs: seq<Ty>, a: nat, m: Mem)
    requires |fs| == 2
    ensures var o1 := Load(p, fs[0], a, m);
            var o2 := Load(p, fs[1], a + FieldOffset(p, fs[1], Size(p, fs[0])), m);
            LoadFields(p, fs, a, 0, m)
            == if !o1.Ok? then o1.PropagateFailure() else if !o2.Ok? then o2.PropagateFailure() else Ok([o1.value, o2.value])
  {
    hide Size, Align, Load;
    assert FieldOffset(p, fs[0], 0) == 0;
    var o1 := Load(p, fs[0], a, m);
    LoadLast(p, fs[1..], a, Size(p, fs[0]), m);
    var o2 := Load(p, fs[1], a + FieldOffset(p, fs[1], Size(p, fs[0])), m);
    if o1.Ok? && o2.Ok? { assert [o1.value] + [o2.value] == [o1.value, o2.value]; }
  }

  lemma LoadLast(p: PtrSize, fs: seq<Ty>, a: nat, off: nat, m: Mem)
    requires |fs| == 1
    ensures var o := Load(p, fs[0], a + FieldOffset(p, fs[0], off), m);
            LoadFields(p, fs, a, off, m) == if o.Ok? then Ok([o.value]) else o.PropagateFailure()
  {
    hide Size, Align, Load, FieldOffset;
    assert fs[1..] == [];
    var o := Load(p, fs[0], a + FieldOffset(p, fs[0], off), m);
    if o.Ok? { assert [o.value] + [] == [o.value]; }
  }

  // ----- records and fixed-length lists -----

  lemma {:induction false} LiftRecordSim(k: Ctx, g: Gen, rk: RecordKind, tys: seq<Ty>, fs: seq<Core>, xs: seq<Var>, n: Var, s: Machine)
    requires AllWellFormed(tys) && HoldsFlat(k, g, FlatFields(tys), fs, xs, n, s)
    ensures |fs| == |Flat(Record(rk, tys))|
    ensures var c := LiftFieldsCode(g, tys, xs, n);
            Yields(k, Then(c, One(RecordLift(rk, |tys|), c.outs, c.next)), n, s,
                   LiftEffect(LiftFlat(g.p, Record(rk, tys), fs, s.w.mem), s.w))
    decreases tys, 1
  {
    hide Yields, Run, LiftFieldsCode, LiftFields, FlatFields;
    var c := LiftFieldsCode(g, tys, xs, n);
    LiftFieldsSim(k, g, tys, fs, xs, n, s);
    GatherSim(k, RecordLift(rk, |tys|), c, n, s, LiftFields(g.p, tys, fs, s.w.mem), s.w);
  }

  /** Putting a record or an array together. */
  lemma GatherSim(k: Ctx, i: Inst, c: Chunk, n: Var, s: Machine, o: Outcome<seq<Val>>, w: World)
    requires i.RecordLift? || i.FixedListLift?
    requires |c.outs| == i.len && n <= c.next && Yields(k, c, n, s, ValsEffect(o, w))
    ensures Yields(k, Then(c, One(i, c.outs, c.next)), n, s,
                   if o.Ok? then Ok(Effect([ValOp(if i.RecordLift? then RecordV(o.value) else ListV(o.value))], w)) else ValsEffect(o, w))
  {
    hide Yields, Run;
    var last := One(i, c.outs, c.next);
    if o.Ok? {
      AfterYields(k, c, n, s, ValOps(o.value), w);
      ValsOf(o.value);
      var e := Effect([ValOp(if i.RecordLift? then RecordV(o.value) else ListV(o.value))], w);
      YieldsOne(k, i, c.outs, c.next, c.next, After(k, c, s), ValOps(o.value), Ok(e));
      YieldsThen(k, c, last, n, s, ValsEffect(o, w), Ok(e));
    } else {
      YieldsThen(k, c, last, n, s, ValsEffect(o, w), ValsEffect(o, w));
    }
  }

  /** One value in front of the values of the rest. */
  lemma ConsSim(k: Ctx, c: Chunk, rest: Chunk, n: Var, s: Machine, o: Outcome<Val>, os: Outcome<seq<Val>>, w: World)
    requires n <= c.next && Scoped(c) && Yields(k, c, n, s, LiftEffect(o, w))
    requires o.Ok? ==> Yields(k, rest, c.next, After(k, c, s), ValsEffect(os, w))
    ensures Yields(k, Both(c, rest), n, s,
                   if !o.Ok? then o.PropagateFailure() else ValsEffect(if os.Ok? then Ok([o.value] + os.value) else os, w))
  {
    hide Yields, Run;
    YieldsBoth(k, c, rest, n, s, LiftEffect(o, w), ValsEffect(os, w));
    if o.Ok? && os.Ok? { assert [ValOp(o.value)] + ValOps(os.value) == ValOps([o.value] + os.value); }
  }

  lemma {:induction false} LiftFieldsSim(k: Ctx, g: Gen, tys: seq<Ty>, fs: seq<Core>, xs: seq<Var>, n: Var, s: Machine)
    requires AllWellFormed(tys) && HoldsFlat(k, g, FlatFields(tys), fs, xs, n, s)
    ensures Yields(k, LiftFieldsCode(g, tys, xs, n), n, s, ValsEffect(LiftFields(g.p, tys, fs, s.w.mem), s.w))
    decreases tys, 0
  {
    hide Yields, Run, LiftCode, LiftFlat, WellFormed, Flat, HoldsFlat;
    if tys == [] {
      EmptyLookup(s.env);
      assert ValOps([]) == [];
      YieldsNothing(k, n, s, [], []);
    } else {
      var h := |Flat(tys[0])|;
      FlatLength(k, g, FlatFields(tys), fs, xs, n, s);
      FlatSlice(k, g, FlatFields(tys), fs, xs, n, s, 0, h, Flat(tys[0]));
      FlatSlice(k, g, FlatFields(tys), fs, xs, n, s, h, |xs|, FlatFields(tys[1..]));
      assert fs[0..h] == fs[..h] && xs[0..h] == xs[..h] && fs[h..|fs|] == fs[h..] && xs[h..|xs|] == xs[h..];
      var c := LiftCode(g, tys[0], xs[..h], n);
      LiftSim(k, g, tys[0], fs[..h], xs[..h], n, s);
      var o := LiftFlat(g.p, tys[0], fs[..h], s.w.mem);
      var rest := LiftFieldsCode(g, tys[1..], xs[h..], c.next);
      if o.Ok? {
        AfterYields(k, c, n, s, [ValOp(o.value)], s.w);
        FlatLater(k, g, FlatFields(tys[1..]), fs[h..], xs[h..], n, s, c, LiftEffect(o, s.w));
        LiftFieldsSim(k, g, tys[1..], fs[h..], xs[h..], c.next, After(k, c, s));
      }
      ConsSim(k, c, rest, n, s, o, LiftFields(g.p, tys[1..], fs[h..], s.w.mem), s.w);
    }
  }

  lemma FlatLength(k: Ctx, g: Gen, ts: seq<WasmType>, fs: seq<Core>, xs: seq<Var>, n: Var, s: Machine)
    requires HoldsFlat(k, g, ts, fs, xs, n, s)
    ensures k.p == g.p && |fs| == |ts| == |xs|
  {
  }

  lemma {:induction false} LiftFixedSim(k: Ctx, g: Gen, e: Ty, len: nat, fs: seq<Core>, xs: seq<Var>, n: Var, s: Machine)
    requires WellFormed(e) && HoldsFlat(k, g, FlatRepeat(e, len), fs, xs, n, s)
    ensures |fs| == |Flat(FixedList(e, len))|
    ensures var c := LiftRepeatCode(g, e, len, xs, n);
            Yields(k, Then(c, One(FixedListLift(e, len), c.outs, c.next)), n, s,
                   LiftEffect(LiftFlat(g.p, FixedList(e, len), fs, s.w.mem), s.w))
    decreases e, len + 5
  {
    hide Yields, Run, LiftRepeatCode, LiftRepeat, FlatRepeat;
    var c := LiftRepeatCode(g, e, len, xs, n);
    LiftRepeatSim(k, g, e, len, fs, xs, n, s);
    GatherSim(k, FixedListLift(e, len), c, n, s, LiftRepeat(g.p, e, len, fs, s.w.mem), s.w);
  }

  lemma {:induction false} LiftRepeatSim(k: Ctx, g: Gen, e: Ty, len: nat, fs: seq<Core>, xs: seq<Var>, n: Var, s: Machine)
    requires WellFormed(e) && HoldsFlat(k, g, FlatRepeat(e, len), fs, xs, n, s)
    ensures Yields(k, LiftRepeatCode(g, e, len, xs, n), n, s, ValsEffect(LiftRepeat(g.p, e, len, fs, s.w.mem), s.w))
    decreases e, len + 4
  {
    hide Yields, Run, LiftCode, LiftFlat, WellFormed, Flat, HoldsFlat;
    if len == 0 {
      EmptyLookup(s.env);
      assert ValOps([]) == [];
      YieldsNothing(k, n, s, [], []);
    } else {
      var h := |Flat(e)|;
      var all, more := FlatRepeat(e, len), FlatRepeat(e, len - 1);
      FlatLength(k, g, all, fs, xs, n, s);
      FlatSlice(k, g, all, fs, xs, n, s, 0, h, Flat(e));
      FlatSlice(k, g, all, fs, xs, n, s, h, |xs|, more);
      assert fs[0..h] == fs[..h] && xs[0..h] == xs[..h] && fs[h..|fs|] == fs[h..] && xs[h..|xs|] == xs[h..];
      var c := LiftCode(g, e, xs[..h], n);
      LiftSim(k, g, e, fs[..h], xs[..h], n, s);
      var o := LiftFlat(g.p, e, fs[..h], s.w.mem);
      var rest := LiftRepeatCode(g, e, len - 1, xs[h..], c.next);
      if o.Ok? {
        AfterYields(k, c, n, s, [ValOp(o.value)], s.w);
        FlatLater(k, g, more, fs[h..], xs[h..], n, s, c, LiftEffect(o, s.w));
        LiftRepeatSim(k, g, e, len - 1, fs[h..], xs[h..], c.next, After(k, c, s));
      }
      ConsSim(k, c, rest, n, s, o, LiftRepeat(g.p, e, len - 1, fs[h..], s.w.mem), s.w);
    }
  }

  // ----- variants -----

  lemma {:induction false} LiftArmAt(g: Gen, arms: seq<Option<Ty>>, slots: seq<WasmType>, xs: seq<Var>, n: Var, i: nat) returns (m: Var)
    requires ArmsWellFormed(arms) && ArmsBelow(arms, slots) && |xs| == |slots| && i < |arms|
    ensures n <= m && (arms[i].Some? ==> WellFormed(arms[i].value)) && Below(FlatArm(arms[i]), slots)
    ensures LiftArmsCode(g, arms, slots, xs, n).blocks[i] == LiftArmCode(g, arms[i], slots, xs, m).block
  {
    hide LiftArmCode, Below, FlatArm, WellFormed;
    assert arms[0] in arms;
    if i == 0 {
      m := n;
    } else {
      var w := LiftArmCode(g, arms[0], slots, xs, n);
      m := LiftArmAt(g, arms[1..], slots, xs, w.next, i - 1);
      assert arms[1..][i - 1] == arms[i];
    }
  }

  lemma {:induction false} LiftVariantSim(k: Ctx, g: Gen, vk: VariantKind, arms: seq<Option<Ty>>, fs: seq<Core>, xs: seq<Var>,
                                          n: Var, s: Machine)
    requires ArmsWellFormed(arms) && HoldsFlat(k, g, [I32] + FlatArms(arms), fs, xs, n, s)
    ensures |fs| == |Flat(Variant(vk, arms))|
    ensures Yields(k, LiftVariantCode(g, vk, arms, xs, n), n, s, LiftEffect(LiftFlat(g.p, Variant(vk, arms), fs, s.w.mem), s.w))
    decreases arms, 2
  {
    hide Yields, Run, LiftArmsCode, LiftArmCode, WellFormed, LiftArm, HoldsFlat, FlatArms, RunBlock, LiftFlat;
    var slots := FlatArms(arms);
    FlatLength(k, g, [I32] + slots, fs, xs, n, s);
    AllArmsBelow(arms);
    var a := LiftArmsCode(g, arms, slots, xs[1..], n);
    var inst := VariantLift(vk, arms);
    var o := LiftEffect(LiftFlat(g.p, Variant(vk, arms), fs, s.w.mem), s.w);
    TagLookup(k, g, slots, fs, xs, n, s);
    if fs[0].ty == I32 && fs[0].bits < |arms| {
      var i := fs[0].bits;
      var m := LiftArmAt(g, arms, slots, xs[1..], n, i);
      ShiftFlat(k, g, slots, fs[1..], xs[1..], n, s, m);
      LiftArmSim(k, g, arms[i], slots, fs[1..], xs[1..], m, s);
      LiftVariantIs(g.p, vk, arms, fs, s.w.mem);
      LiftPerform(k, inst, [xs[0]], a.next, a.blocks, fs[0], s, LiftArm(g.p, arms[i], slots, fs[1..], s.w.mem));
    } else {
      assert o == Trap by { LiftVariantTraps(g.p, vk, arms, fs, s.w.mem); }
      LiftPerformTraps(k, inst, [xs[0]], a.next, a.blocks, fs[0], s);
    }
    YieldsTake(k, inst, [xs[0]], a.next, a.blocks, [], n, s, [CoreOp(fs[0])], o);
  }

  lemma ShiftFlat(k: Ctx, g: Gen, ts: seq<WasmType>, fs: seq<Core>, xs: seq<Var>, n: Var, s: Machine, m: Var)
    requires HoldsFlat(k, g, ts, fs, xs, n, s) && n <= m
    ensures HoldsFlat(k, g, ts, fs, xs, m, s)
  {
    AllBelowUp(xs, n, m);
  }

  lemma TagLookup(k: Ctx, g: Gen, slots: seq<WasmType>, fs: seq<Core>, xs: seq<Var>, n: Var, s: Machine)
    requires HoldsFlat(k, g, [I32] + slots, fs, xs, n, s)
    ensures Lookup(s.env, [xs[0]]) == Ok([CoreOp(fs[0])])
    ensures HoldsFlat(k, g, slots, fs[1..], xs[1..], n, s)
  {
    LookupAt(s.env, xs, 0);
    Single(s.env, xs[0]);
    FlatSlice(k, g, [I32] + slots, fs, xs, n, s, 1, |xs|, slots);
    assert fs[1..|fs|] == fs[1..] && xs[1..|xs|] == xs[1..];
  }

  function VariantValue(i: nat, o: Outcome<Option<Val>>): Outcome<Val> {
    var p :- o;
    Ok(VariantV(i, p))
  }

  lemma LiftVariantIs(p: PtrSize, vk: VariantKind, arms: seq<Option<Ty>>, fs: seq<Core>, m: Mem)
    requires |fs| == 1 + |FlatArms(arms)| && fs[0].ty == I32 && fs[0].bits < |arms|
    ensures |fs| == |Flat(Variant(vk, arms))| && Below(FlatArm(arms[fs[0].bits]), FlatArms(arms))
    ensures LiftFlat(p, Variant(vk, arms), fs, m)
         == VariantValue(fs[0].bits, LiftArm(p, arms[fs[0].bits], FlatArms(arms), fs[1..], m))
  {
    hide LiftArm, FlatArms;
    ArmBelow(arms, fs[0].bits);
  }

  lemma LiftVariantTraps(p: PtrSize, vk: VariantKind, arms: seq<Option<Ty>>, fs: seq<Core>, m: Mem)
    requires |fs| == 1 + |FlatArms(arms)| && !(fs[0].ty == I32 && fs[0].bits < |arms|)
    ensures |fs| == |Flat(Variant(vk, arms))| && LiftFlat(p, Variant(vk, arms), fs, m).Trap?
  {
  }

  lemma LiftPerform(k: Ctx, inst: Inst, args: seq<Var>, next: Var, blocks: seq<CodeBlock>, x: Core, s: Machine, o: Outcome<Option<Val>>)
    requires inst.VariantLift? && |blocks| == |inst.arms| && x.ty == I32 && x.bits < |inst.arms|
    requires RunBlock(k, blocks[x.bits], s) == ArmLiftEffect(o, s.w)
    requires o.Ok? ==> (o.value.Some? <==> inst.arms[x.bits].Some?)
    ensures Perform(k, Take(inst, args, next, blocks, []).code[0], [CoreOp(x)], s) == LiftEffect(VariantValue(x.bits, o), s.w)
  {
    hide RunBlock, Simple;
  }

  lemma LiftPerformTraps(k: Ctx, inst: Inst, args: seq<Var>, next: Var, blocks: seq<CodeBlock>, x: Core, s: Machine)
    requires inst.VariantLift? && |blocks| == |inst.arms| && !(x.ty == I32 && x.bits < |inst.arms|)
    ensures Perform(k, Take(inst, args, next, blocks, []).code[0], [CoreOp(x)], s) == Trap
  {
    hide RunBlock, Simple;
  }

  /** The block of one case reads the first shared words and casts them back. */
  lemma {:induction false} LiftArmSim(k: Ctx, g: Gen, arm: Option<Ty>, slots: seq<WasmType>, fs: seq<Core>, xs: seq<Var>, m: Var, s: Machine)
    requires Below(FlatArm(arm), slots) && HoldsFlat(k, g, slots, fs, xs, m, s)
    requires arm.Some? ==> WellFormed(arm.value)
    ensures var o := LiftArm(g.p, arm, slots, fs, s.w.mem);
            && RunBlock(k, LiftArmCode(g, arm, slots, xs, m).block, s) == ArmLiftEffect(o, s.w)
            && (o.Ok? ==> (o.value.Some? <==> arm.Some?))
    decreases arm, 1
  {
    hide Yields, Run, LiftFlat, LiftCode, WellFormed, Flat, CastCode, RunBlock, CastsDown, Leq, HoldsFlat, ApplyCasts;
    FlatLength(k, g, slots, fs, xs, m, s);
    if arm.None? {
      EmptyLookup(s.env);
      YieldsNothing(k, m, s, [], []);
      YieldsBlock(k, Chunk([], [], m), m, s, Ok(Effect([], s.w)));
    } else {
      var flat := FlatArm(arm);
      var h := |flat|;
      FlatSlice(k, g, slots, fs, xs, m, s, 0, h, flat);
      assert fs[0..h] == fs[..h] && xs[0..h] == xs[..h];
      FlatLookup(k, g, flat, fs[..h], xs[..h], m, s);
      var casts := CastsDown(flat, slots);
      var b := CastCode(casts, xs[..h], m);
      CastSim(k, casts, xs[..h], fs[..h], m, s);
      var ys := ApplyCasts(casts, fs[..h], g.p);
      var c := LiftCode(g, arm.value, b.outs, b.next);
      if ys.Ok? {
        AfterYields(k, b, m, s, CoreOps(ys.value), s.w);
        MakeFlat(k, g, flat, ys.value, b.outs, b.next, After(k, b, s));
        LiftSim(k, g, arm.value, ys.value, b.outs, b.next, After(k, b, s));
        var o := LiftEffect(LiftFlat(g.p, arm.value, ys.value, s.w.mem), s.w);
        YieldsThen(k, b, c, m, s, CastEffect(ys, s.w), o);
        YieldsBlock(k, Then(b, c), m, s, o);
      } else {
        YieldsThen(k, b, c, m, s, CastEffect(ys, s.w), CastEffect(ys, s.w));
        YieldsBlock(k, Then(b, c), m, s, CastEffect(ys, s.w));
      }
    }
  }

  lemma FlatLookup(k: Ctx, g: Gen, ts: seq<WasmType>, fs: seq<Core>, xs: seq<Var>, n: Var, s: Machine)
    requires HoldsFlat(k, g, ts, fs, xs, n, s)
    ensures AllBelow(xs, n) && Lookup(s.env, xs) == Ok(CoreOps(fs))
  {
  }

  lemma MakeFlat(k: Ctx, g: Gen, ts: seq<WasmType>, fs: seq<Core>, xs: seq<Var>, n: Var, s: Machine)
    requires k.p == g.p && |fs| == |ts| == |xs| && AllBelow(xs, n) && Lookup(s.env, xs) == Ok(CoreOps(fs))
    ensures HoldsFlat(k, g, ts, fs, xs, n, s)
  {
  }

  // ----- read_from_memory -----

  lemma {:induction false} ReadSim(k: Ctx, g: Gen, t: Ty, a: Var, addr: nat, off: nat, n: Var, s: Machine)
    requires k.p == g.p && WellFormed(t) && Points(a, addr, n, s)
    ensures Yields(k, ReadCode(g, t, a, off, n), n, s, LiftEffect(Load(g.p, t, addr + off, s.w.mem), s.w))
    decreases t, 3
  {
    hide Yields, Run, Load, LiftCode, ReadPairCode, ElemReader, ReadFieldsCode, ReadWordsCode, ReadVariantCode, Points, FlagBytes, TagSize;
    match t
    case Scalar(p) => ReadScalarSim(k, g, p, a, addr, off, n, s);
    case Alias(u) =>
      ReadSim(k, g, u, a, addr, off, n, s);
      LoadAlias(g.p, u, addr + off, s.w.mem);
    case Str | List(_) | Map(_) => ReadPairSim(k, g, t, a, addr, off, n, s);
    case FixedList(e, len) => ReadFixedSim(k, g, e, len, a, addr, off, n, s);
    case Record(rk, tys) => ReadRecordSim(k, g, rk, tys, a, addr, off, n, s);
    case Flags(c) =>
      if 0 < c <= 16 { ReadTagSim(k, g, t, FlagBytes(c), a, addr, off, n, s); }
      else { ReadFlagsSim(k, g, c, a, addr, off, n, s); }
    case Enum(c) => ReadTagSim(k, g, t, TagSize(c), a, addr, off, n, s);
    case Variant(vk, arms) => ReadVariantSim(k, g, vk, arms, a, addr, off, n, s);
  }

  lemma LoadAlias(p: PtrSize, u: Ty, a: nat, m: Mem)
    ensures Load(p, Alias(u), a, m) == Load(p, u, a, m)
  {
  }

  function LoadedEffect(l: LoadOp, o: Outcome<nat>, w: World): Outcome<Effect> {
    var i :- o;
    Ok(Effect([CoreOp(LoadResult(l, i))], w))
  }

  lemma LoadSim(k: Ctx, l: LoadOp, off: nat, a: Var, addr: nat, n: Var, s: Machine)
    requires Points(a, addr, n, s)
    ensures Yields(k, One(LoadFrom(l, off), [a], n), n, s, LoadedEffect(l, LoadInt(s.w.mem, addr + off, LoadWidth(l, k.p)), s.w))
  {
    hide Yields, LoadInt, LoadWidth, LoadResult;
    Single(s.env, a);
    YieldsOne(k, LoadFrom(l, off), [a], n, n, s, [CoreOp(Core(Pointer, addr))],
              LoadedEffect(l, LoadInt(s.w.mem, addr + off, LoadWidth(l, k.p)), s.w));
  }

  /** `emit_and_lift`: one load, then the lifting of the word it leaves. */
  lemma {:induction false} LoadLiftSim(k: Ctx, g: Gen, t: Ty, l: LoadOp, a: Var, addr: nat, off: nat, n: Var, s: Machine)
    requires k.p == g.p && WellFormed(t) && |Flat(t)| == 1 && Points(a, addr, n, s)
    ensures var c := One(LoadFrom(l, off), [a], n);
            var o := LoadInt(s.w.mem, addr + off, LoadWidth(l, g.p));
            Yields(k, Then(c, LiftCode(g, t, c.outs, c.next)), n, s,
                   if o.Ok? then LiftEffect(LiftFlat(g.p, t, [LoadResult(l, o.value)], s.w.mem), s.w) else LoadedEffect(l, o, s.w))
    decreases t, 3, 0
  {
    hide Yields, Run, LiftCode, LiftFlat, Points, LoadInt, LoadResult, LoadWidth, HoldsFlat, WellFormed, Flat;
    var c := One(LoadFrom(l, off), [a], n);
    var o := LoadInt(s.w.mem, addr + off, LoadWidth(l, g.p));
    var lift := LiftCode(g, t, c.outs, c.next);
    LoadSim(k, l, off, a, addr, n, s);
    if o.Ok? {
      var x := LoadResult(l, o.value);
      AfterYields(k, c, n, s, [CoreOp(x)], s.w);
      assert CoreOps([x]) == [CoreOp(x)];
      MakeFlat(k, g, Flat(t), [x], c.outs, c.next, After(k, c, s));
      LiftSim(k, g, t, [x], c.outs, c.next, After(k, c, s));
      YieldsThen(k, c, lift, n, s, LoadedEffect(l, o, s.w), LiftEffect(LiftFlat(g.p, t, [x], s.w.mem), s.w));
    } else {
      YieldsThen(k, c, lift, n, s, LoadedEffect(l, o, s.w), LoadedEffect(l, o, s.w));
    }
  }

  lemma {:induction false} ReadScalarSim(k: Ctx, g: Gen, p: Prim, a: Var, addr: nat, off: nat, n: Var, s: Machine)
    requires k.p == g.p && Points(a, addr, n, s)
    ensures var c := One(LoadFrom(LoadOpOf(p), off), [a], n);
            Yields(k, Then(c, LiftCode(g, Scalar(p), c.outs, c.next)), n, s,
                   LiftEffect(Load(g.p, Scalar(p), addr + off, s.w.mem), s.w))
    decreases Scalar(p), 3, 1
  {
    hide Yields, Run, LiftCode, Points, LoadInt, LoadWidth, LoadResult, LoadOpOf, FromCore, Extend;
    LoadLiftSim(k, g, Scalar(p), LoadOpOf(p), a, addr, off, n, s);
    var o := LoadInt(s.w.mem, addr + off, Width(p));
    LoadOpWidth(p, g.p);
    if o.Ok? { LoadOpResult(p, o.value); }
  }

  lemma LoadOpWidth(s: Prim, p: PtrSize)
    ensures LoadWidth(LoadOpOf(s), p) == Width(s)
  {
  }

  lemma LoadOpResult(s: Prim, i: nat)
    ensures LoadResult(LoadOpOf(s), i) == Extend(s, i)
  {
    hide Signed, Wrap;
  }

  lemma {:induction false} ReadTagSim(k: Ctx, g: Gen, t: Ty, size: nat, a: Var, addr: nat, off: nat, n: Var, s: Machine)
    requires k.p == g.p && WellFormed(t) && Points(a, addr, n, s)
    requires match t
             case Flags(c) => 0 < c <= 16 && size == FlagBytes(c)
             case Enum(c) => size == TagSize(c)
             case _ => false
    ensures |Flat(t)| == 1
    ensures var c := One(LoadFrom(LoadTag(size), off), [a], n);
            Yields(k, Then(c, LiftCode(g, t, c.outs, c.next)), n, s, LiftEffect(Load(g.p, t, addr + off, s.w.mem), s.w))
    decreases t, 3, 1
  {
    hide Yields, Run, LiftCode, Points, LoadInt, LoadWidth, LoadResult, LoadTag, FromWords;
    LoadLiftSim(k, g, t, LoadTag(size), a, addr, off, n, s);
    var o := LoadInt(s.w.mem, addr + off, size);
    TagLoad(size, g.p);
    if o.Ok? {
      TagResult(size, o.value);
      assert Words([Core(I32, o.value)]) == [o.value];
    }
  }

  lemma TagLoad(size: nat, p: PtrSize)
    requires size in {1, 2, 4}
    ensures LoadWidth(LoadTag(size), p) == size
  {
  }

  lemma TagResult(size: nat, i: nat)
    ensures LoadResult(LoadTag(size), i) == Core(I32, i)
  {
  }

  lemma {:induction false} ReadPairSim(k: Ctx, g: Gen, t: Ty, a: Var, addr: nat, off: nat, n: Var, s: Machine)
    requires (t.Str? || t.List? || t.Map?) && k.p == g.p && WellFormed(t) && Points(a, addr, n, s)
    ensures var b := ReadPairCode(g, a, off, n);
            Yields(k, Then(b, LiftCode(g, t, b.outs, b.next)), n, s, LiftEffect(Load(g.p, t, addr + off, s.w.mem), s.w))
    decreases t, 3, 1
  {
    hide Yields, Run, LiftCode, Points, LoadInt, HoldsFlat, WellFormed, LoadBuffer, ReadPairCode;
    var b := ReadPairCode(g, a, off, n);
    PairLoadSim(k, g, a, addr, off, n, s);
    var o1, o2 := LoadInt(s.w.mem, addr + off, g.p), LoadInt(s.w.mem, addr + off + g.p, g.p);
    var lift := LiftCode(g, t, b.outs, b.next);
    if o1.Ok? && o2.Ok? {
      var fs := [Core(Pointer, o1.value), Core(Length, o2.value)];
      AfterYields(k, b, n, s, CoreOps(fs), s.w);
      MakeFlat(k, g, [Pointer, Length], fs, b.outs, b.next, After(k, b, s));
      LiftSim(k, g, t, fs, b.outs, b.next, After(k, b, s));
      YieldsThen(k, b, lift, n, s, Ok(Effect(CoreOps(fs), s.w)), LiftEffect(LiftFlat(g.p, t, fs, s.w.mem), s.w));
    } else {
      YieldsThen(k, b, lift, n, s, Trap, Trap);
      LoadNeverOom(s.w.mem, addr + off, g.p);
      LoadNeverOom(s.w.mem, addr + off + g.p, g.p);
    }
  }

  lemma LoadNeverOom(m: Mem, a: nat, k: nat)
    ensures !LoadInt(m, a, k).OutOfMemory?
  {
  }

  lemma PairLoadSim(k: Ctx, g: Gen, a: Var, addr: nat, off: nat, n: Var, s: Machine)
    requires k.p == g.p && Points(a, addr, n, s)
    ensures var o1, o2 := LoadInt(s.w.mem, addr + off, g.p), LoadInt(s.w.mem, addr + off + g.p, g.p);
            Yields(k, ReadPairCode(g, a, off, n), n, s,
                   if o1.Ok? && o2.Ok? then Ok(Effect(CoreOps([Core(Pointer, o1.value), Core(Length, o2.value)]), s.w)) else Trap)
  {
    hide Yields, Run, Points, LoadInt, Lookup, After, One, ResultsLen;
    var o1, o2 := LoadInt(s.w.mem, addr + off, g.p), LoadInt(s.w.mem, addr + off + g.p, g.p);
    LoadNeverOom(s.w.mem, addr + off, g.p);
    LoadNeverOom(s.w.mem, addr + off + g.p, g.p);
    var ptr := One(LoadFrom(PointerLoad, off), [a], n);
    var len := One(LoadFrom(LengthLoad, off + g.p), [a], ptr.next);
    LoadSim(k, PointerLoad, off, a, addr, n, s);
    assert addr + (off + g.p) == addr + off + g.p;
    var e1, e2 := LoadedEffect(PointerLoad, o1, s.w), LoadedEffect(LengthLoad, o2, s.w);
    if o1.Ok? {
      AfterYields(k, ptr, n, s, [CoreOp(Core(Pointer, o1.value))], s.w);
      PointsLater(k, ptr, n, s, e1, a, addr);
      LoadSim(k, LengthLoad, off + g.p, a, addr, ptr.next, After(k, ptr, s));
      if o2.Ok? {
        PairOps(Core(Pointer, o1.value), Core(Length, o2.value));
        assert e1.value.outs + e2.value.outs == CoreOps([Core(Pointer, o1.value), Core(Length, o2.value)]);
      }
    }
    YieldsBoth(k, ptr, len, n, s, e1, e2);
  }

  lemma {:induction false} ReadFixedSim(k: Ctx, g: Gen, e: Ty, len: nat, a: Var, addr: nat, off: nat, n: Var, s: Machine)
    requires k.p == g.p && WellFormed(e) && Points(a, addr, n, s)
    ensures var w := ElemReader(g, e, off, n);
            Yields(k, Take(FixedListLiftFromMemory(e, len), [a], w.next, [w.block], []), n, s,
                   LiftEffect(Load(g.p, FixedList(e, len), addr + off, s.w.mem), s.w))
    decreases e, 8
  {
    hide Yields, Run, ElemReader, LoadElems, Collect, Size, Perform, Take, Lookup;
    var w := ElemReader(g, e, off, n);
    Single(s.env, a);
    CollectSim(k, g, e, len, addr, off, w.block, false, n, s);
    FixedPerform(k, e, len, [a], w.next, w.block, addr, s);
    YieldsTake(k, FixedListLiftFromMemory(e, len), [a], w.next, [w.block], [], n, s, [CoreOp(Core(Pointer, addr))],
               LiftEffect(Load(g.p, FixedList(e, len), addr + off, s.w.mem), s.w));
  }

  lemma FixedPerform(k: Ctx, e: Ty, len: nat, args: seq<Var>, m: Var, b: CodeBlock, addr: nat, s: Machine)
    ensures Perform(k, Take(FixedListLiftFromMemory(e, len), args, m, [b], []).code[0], [CoreOp(Core(Pointer, addr))], s)
         == ListedEffect(Collect(k, b, len, addr, Size(k.p, e), s))
  {
    hide Collect, Size, Simple;
  }

  function ListedEffect(o: Outcome<Collected>): Outcome<Effect> {
    var r :- o;
    Ok(Effect([ValOp(ListV(r.vals))], r.w))
  }

  lemma {:induction false} ReadRecordSim(k: Ctx, g: Gen, rk: RecordKind, tys: seq<Ty>, a: Var, addr: nat, off: nat, n: Var, s: Machine)
    requires k.p == g.p && AllWellFormed(tys) && Points(a, addr, n, s)
    ensures var c := ReadFieldsCode(g, tys, a, off, 0, n);
            Yields(k, Then(c, One(RecordLift(rk, |tys|), c.outs, c.next)), n, s,
                   LiftEffect(Load(g.p, Record(rk, tys), addr + off, s.w.mem), s.w))
    decreases tys, 1
  {
    hide Yields, Run, ReadFieldsCode, LoadFields, Points;
    var c := ReadFieldsCode(g, tys, a, off, 0, n);
    ReadFieldsSim(k, g, tys, a, addr, off, 0, n, s);
    GatherSim(k, RecordLift(rk, |tys|), c, n, s, LoadFields(g.p, tys, addr + off, 0, s.w.mem), s.w);
  }

  lemma {:induction false} ReadFieldsSim(k: Ctx, g: Gen, tys: seq<Ty>, a: Var, addr: nat, off: nat, pos: nat, n: Var, s: Machine)
    requires k.p == g.p && AllWellFormed(tys) && Points(a, addr, n, s)
    ensures Yields(k, ReadFieldsCode(g, tys, a, off, pos, n), n, s, ValsEffect(LoadFields(g.p, tys, addr + off, pos, s.w.mem), s.w))
    decreases tys, 0
  {
    hide Yields, Run, ReadCode, Load, WellFormed, Points, FieldOffset, Size;
    if tys == [] {
      EmptyLookup(s.env);
      assert ValOps([]) == [];
      YieldsNothing(k, n, s, [], []);
    } else {
      var o := FieldOffset(g.p, tys[0], pos);
      var end := o + Size(g.p, tys[0]);
      var c := ReadCode(g, tys[0], a, off + o, n);
      assert addr + (off + o) == addr + off + o;
      ReadSim(k, g, tys[0], a, addr, off + o, n, s);
      var v := Load(g.p, tys[0], addr + off + o, s.w.mem);
      var rest := ReadFieldsCode(g, tys[1..], a, off, end, c.next);
      if v.Ok? {
        AfterYields(k, c, n, s, [ValOp(v.value)], s.w);
        PointsLater(k, c, n, s, LiftEffect(v, s.w), a, addr);
        ReadFieldsSim(k, g, tys[1..], a, addr, off, end, c.next, After(k, c, s));
      }
      ConsSim(k, c, rest, n, s, v, LoadFields(g.p, tys[1..], addr + off, end, s.w.mem), s.w);
    }
  }

  function WordsEffect(o: Outcome<seq<nat>>, w: World): Outcome<Effect> {
    var ws :- o;
    Ok(Effect(CoreOps(I32s(ws)), w))
  }

  lemma {:induction false} ReadFlagsSim(k: Ctx, g: Gen, c: nat, a: Var, addr: nat, off: nat, n: Var, s: Machine)
    requires !(0 < c <= 16) && k.p == g.p && Points(a, addr, n, s)
    ensures var l := ReadWordsCode(FlagWords(c), a, off, n);
            Yields(k, Then(l, LiftCode(g, Flags(c), l.outs, l.next)), n, s,
                   LiftEffect(Load(g.p, Flags(c), addr + off, s.w.mem), s.w))
    decreases Flags(c), 3, 1
  {
    hide Yields, Run, LiftCode, Points, ReadWordsCode, LoadWords, FromWords, HoldsFlat;
    var l := ReadWordsCode(FlagWords(c), a, off, n);
    ReadWordsSim(k, FlagWords(c), a, addr, off, n, s);
    var o := LoadWords(FlagWords(c), addr + off, s.w.mem);
    var lift := LiftCode(g, Flags(c), l.outs, l.next);
    if o.Ok? {
      var fs := I32s(o.value);
      AfterYields(k, l, n, s, CoreOps(fs), s.w);
      MakeFlat(k, g, Flat(Flags(c)), fs, l.outs, l.next, After(k, l, s));
      LiftSim(k, g, Flags(c), fs, l.outs, l.next, After(k, l, s));
      assert Words(fs) == o.value;
      YieldsThen(k, l, lift, n, s, WordsEffect(o, s.w), LiftEffect(LiftFlat(g.p, Flags(c), fs, s.w.mem), s.w));
    } else {
      YieldsThen(k, l, lift, n, s, WordsEffect(o, s.w), WordsEffect(o, s.w));
    }
  }

  lemma {:induction false} ReadWordsSim(k: Ctx, c: nat, a: Var, addr: nat, off: nat, n: Var, s: Machine)
    requires Points(a, addr, n, s)
    ensures Yields(k, ReadWordsCode(c, a, off, n), n, s, WordsEffect(LoadWords(c, addr + off, s.w.mem), s.w))
    decreases c
  {
    hide Yields, Run, Points, LoadInt, CoreOps, I32s, LoadResult, Lookup, After, One, ResultsLen;
    if c == 0 {
      EmptyLookup(s.env);
      NoWords();
      YieldsNothing(k, n, s, [], []);
    } else {
      var o := LoadInt(s.w.mem, addr + off, 4);
      var ch := One(LoadFrom(I32Load, off), [a], n);
      var rest := ReadWordsCode(c - 1, a, off + 4, ch.next);
      var os := LoadWords(c - 1, addr + off + 4, s.w.mem);
      assert addr + (off + 4) == addr + off + 4;
      if o.Ok? {
        WordSim(k, o.value, a, addr, off, n, s);
        ReadWordsSim(k, c - 1, a, addr, off + 4, ch.next, After(k, ch, s));
        if os.Ok? { MoreWords(o.value, os.value); }
        YieldsBoth(k, ch, rest, n, s, Ok(Effect([CoreOp(Core(I32, o.value))], s.w)), WordsEffect(os, s.w));
      } else {
        WordLoadSim(k, a, addr, off, n, s);
        var oa := LoadedEffect(I32Load, o, s.w);
        YieldsBoth(k, ch, rest, n, s, oa, oa);
      }
    }
  }

  /** The load of a word that is there. */
  lemma WordSim(k: Ctx, i: nat, a: Var, addr: nat, off: nat, n: Var, s: Machine)
    requires Points(a, addr, n, s) && LoadInt(s.w.mem, addr + off, 4) == Ok(i)
    ensures var l := One(LoadFrom(I32Load, off), [a], n);
            && Yields(k, l, n, s, Ok(Effect([CoreOp(Core(I32, i))], s.w)))
            && After(k, l, s).w == s.w && Points(a, addr, l.next, After(k, l, s))
  {
    hide Yields, Run, Points, LoadInt, LoadResult, After, Lookup;
    var l := One(LoadFrom(I32Load, off), [a], n);
    WordLoadSim(k, a, addr, off, n, s);
    WordLoaded(i);
    AfterYields(k, l, n, s, [CoreOp(Core(I32, i))], s.w);
    PointsLater(k, l, n, s, Ok(Effect([CoreOp(Core(I32, i))], s.w)), a, addr);
  }

  lemma WordLoadSim(k: Ctx, a: Var, addr: nat, off: nat, n: Var, s: Machine)
    requires Points(a, addr, n, s)
    ensures Yields(k, One(LoadFrom(I32Load, off), [a], n), n, s, LoadedEffect(I32Load, LoadInt(s.w.mem, addr + off, 4), s.w))
  {
    hide Yields, Run, Points, LoadInt;
    LoadSim(k, I32Load, off, a, addr, n, s);
  }

  lemma WordLoaded(x: nat)
    ensures LoadResult(I32Load, x) == Core(I32, x)
  {
  }

  lemma NoWords()
    ensures CoreOps(I32s([])) == []
  {
  }

  lemma MoreWords(x: nat, ws: seq<nat>)
    ensures [CoreOp(Core(I32, x))] + CoreOps(I32s(ws)) == CoreOps(I32s([x] + ws))
  {
  }

  // ----- variants in memory -----

  lemma {:induction false} ReadArmAt(g: Gen, arms: seq<Option<Ty>>, a: Var, off: nat, n: Var, i: nat) returns (m: Var)
    requires ArmsWellFormed(arms) && i < |arms|
    ensures n <= m && (arms[i].Some? ==> WellFormed(arms[i].value))
    ensures ReadArmsCode(g, arms, a, off, n).blocks[i] == ReadArmCode(g, arms[i], a, off, m).block
  {
    hide ReadArmCode, WellFormed;
    assert arms[0] in arms;
    if i == 0 {
      m := n;
    } else {
      var w := ReadArmCode(g, arms[0], a, off, n);
      m := ReadArmAt(g, arms[1..], a, off, w.next, i - 1);
      assert arms[1..][i - 1] == arms[i];
    }
  }

  lemma {:induction false} ReadVariantSim(k: Ctx, g: Gen, vk: VariantKind, arms: seq<Option<Ty>>, a: Var, addr: nat, off: nat, n: Var, s: Machine)
    requires k.p == g.p && ArmsWellFormed(arms) && Points(a, addr, n, s)
    ensures Yields(k, ReadVariantCode(g, vk, arms, a, off, n), n, s,
                   LiftEffect(Load(g.p, Variant(vk, arms), addr + off, s.w.mem), s.w))
    decreases arms, 2
  {
    hide Yields, Run, ReadArmsCode, WellFormed, LoadArm, Points, TagSize, PayloadOffset, LoadInt, LoadTag, Load, LoadWidth, LoadResult,
      One, Take, After;
    var size := TagSize(|arms|);
    var l := One(LoadFrom(LoadTag(size), off), [a], n);
    var poff := off + PayloadOffset(g.p, arms);
    var r := ReadArmsCode(g, arms, a, poff, l.next);
    var last := Take(VariantLift(vk, arms), l.outs, r.next, r.blocks, []);
    var tag := LoadInt(s.w.mem, addr + off, size);
    LoadVariantIs(g.p, vk, arms, addr + off, s.w.mem);
    if tag.Ok? {
      var i := tag.value;
      TagSim(k, size, i, a, addr, off, n, s);
      assert addr + poff == addr + off + PayloadOffset(g.p, arms);
      ReadDispatchSim(k, g, vk, arms, i, l.outs, a, addr, poff, l.next, After(k, l, s));
      YieldsThen(k, l, last, n, s, Ok(Effect([CoreOp(Core(I32, i))], s.w)),
                 LiftEffect(Load(g.p, Variant(vk, arms), addr + off, s.w.mem), s.w));
    } else {
      LoadSim(k, LoadTag(size), off, a, addr, n, s);
      TagLoad(size, g.p);
      var o := LoadedEffect(LoadTag(size), tag, s.w);
      YieldsThen(k, l, last, n, s, o, o);
    }
  }

  /** The load of a tag that holds `i`. */
  lemma TagSim(k: Ctx, size: nat, i: nat, x: Var, addr: nat, off: nat, n: Var, s: Machine)
    requires size in {1, 2, 4} && Points(x, addr, n, s) && LoadInt(s.w.mem, addr + off, size) == Ok(i)
    ensures var l := One(LoadFrom(LoadTag(size), off), [x], n);
            && Yields(k, l, n, s, Ok(Effect([CoreOp(Core(I32, i))], s.w)))
            && Lookup(After(k, l, s).env, l.outs) == Ok([CoreOp(Core(I32, i))])
            && After(k, l, s).w == s.w && Points(x, addr, l.next, After(k, l, s))
  {
    hide Yields, Run, Points, LoadInt, LoadWidth, LoadResult, After, Lookup;
    var l := One(LoadFrom(LoadTag(size), off), [x], n);
    LoadSim(k, LoadTag(size), off, x, addr, n, s);
    TagLoad(size, k.p);
    TagResult(size, i);
    AfterYields(k, l, n, s, [CoreOp(Core(I32, i))], s.w);
    PointsLater(k, l, n, s, Ok(Effect([CoreOp(Core(I32, i))], s.w)), x, addr);
  }

  /** The block of the case that the tag names runs; there may be none. */
  lemma {:induction false} ReadDispatchSim(k: Ctx, g: Gen, vk: VariantKind, arms: seq<Option<Ty>>, i: nat, tag: seq<Var>, a: Var,
                                           addr: nat, off: nat, n: Var, s: Machine)
    requires k.p == g.p && ArmsWellFormed(arms) && Points(a, addr, n, s)
    requires Lookup(s.env, tag) == Ok([CoreOp(Core(I32, i))])
    ensures var r := ReadArmsCode(g, arms, a, off, n);
            Yields(k, Take(VariantLift(vk, arms), tag, r.next, r.blocks, []), n, s,
                   LiftEffect(if i < |arms| then VariantValue(i, LoadArm(g.p, arms[i], addr + off, s.w.mem)) else Trap, s.w))
    decreases arms, 1
  {
    hide Yields, ReadArmsCode, ReadArmCode, WellFormed, LoadArm, RunBlock, Points, Perform, Lookup;
    var r := ReadArmsCode(g, arms, a, off, n);
    var inst := VariantLift(vk, arms);
    if i < |arms| {
      var m := ReadArmAt(g, arms, a, off, n, i);
      PointsShift(a, addr, n, m, s);
      ReadArmSim(k, g, arms[i], a, addr, off, m, s);
      LiftPerform(k, inst, tag, r.next, r.blocks, Core(I32, i), s, LoadArm(g.p, arms[i], addr + off, s.w.mem));
    } else {
      LiftPerformTraps(k, inst, tag, r.next, r.blocks, Core(I32, i), s);
    }
    YieldsTake(k, inst, tag, r.next, r.blocks, [], n, s, [CoreOp(Core(I32, i))],
               LiftEffect(if i < |arms| then VariantValue(i, LoadArm(g.p, arms[i], addr + off, s.w.mem)) else Trap, s.w));
  }

  lemma PointsShift(a: Var, addr: nat, n: Var, m: Var, s: Machine)
    requires Points(a, addr, n, s) && n <= m
    ensures Points(a, addr, m, s)
  {
  }

  lemma LoadVariantIs(p: PtrSize, vk: VariantKind, arms: seq<Option<Ty>>, a: nat, m: Mem)
    ensures var tag := LoadInt(m, a, TagSize(|arms|));
            Load(p, Variant(vk, arms), a, m)
            == (if !tag.Ok? then tag.PropagateFailure()
                else if tag.value < |arms| then
                  VariantValue(tag.value, LoadArm(p, arms[tag.value], a + PayloadOffset(p, arms), m))
                else Trap)
  {
    hide LoadInt, LoadArm, TagSize, PayloadOffset;
  }

  lemma {:induction false} ReadArmSim(k: Ctx, g: Gen, arm: Option<Ty>, a: Var, addr: nat, off: nat, m: Var, s: Machine)
    requires k.p == g.p && Points(a, addr, m, s)
    requires arm.Some? ==> WellFormed(arm.value)
    ensures var o := LoadArm(g.p, arm, addr + off, s.w.mem);
            && RunBlock(k, ReadArmCode(g, arm, a, off, m).block, s) == ArmLiftEffect(o, s.w)
            && (o.Ok? ==> (o.value.Some? <==> arm.Some?))
    decreases arm, 1
  {
    hide Yields, Run, Load, ReadCode, WellFormed, RunBlock, Points;
    if arm.None? {
      EmptyLookup(s.env);
      YieldsNothing(k, m, s, [], []);
      YieldsBlock(k, Chunk([], [], m), m, s, Ok(Effect([], s.w)));
    } else {
      ReadSim(k, g, arm.value, a, addr, off, m, s);
      YieldsBlock(k, ReadCode(g, arm.value, a, off, m), m, s, LiftEffect(Load(g.p, arm.value, addr + off, s.w.mem), s.w));
    }
  }
}
