/** What the pieces of the glue around a call do when they run. */
module CallSim {
  import opened Wrappers
  import opened CoreTypes
  import opened Layout
  import opened Memory
  import opened Values
  import opened CanonicalAbi
  import opened Code
  import opened Codegen
  import opened Simulation
  import opened SimLower
  import opened SimLift
  import opened CallCodegen

  predicate AllTyped(p: PtrSize, tys: seq<Ty>, vs: seq<Val>) {
    |vs| == |tys| && forall i | 0 <= i < |tys| :: HasType(p, tys[i], vs[i])
  }

  /** Arguments `i`, `i + 1`, … are `ops`. */
  predicate Passes(k: Ctx, i: nat, ops: seq<Operand>) {
    i + |ops| <= |k.args| && k.args[i..i + |ops|] == ops
  }

  lemma PassesFirst(k: Ctx, i: nat, ops: seq<Operand>, h: nat)
    requires Passes(k, i, ops) && h <= |ops|
    ensures Passes(k, i, ops[..h]) && Passes(k, i + h, ops[h..])
  {
    assert k.args[i..i + h] == ops[..h];
    assert k.args[i + h..i + |ops|] == ops[h..];
  }

  lemma ArgSim(k: Ctx, i: nat, n: Var, s: Machine)
    requires i < |k.args|
    ensures Yields(k, One(GetArg(i), [], n), n, s, Ok(Effect([k.args[i]], s.w)))
  {
    hide Yields;
    EmptyLookup(s.env);
    YieldsOne(k, GetArg(i), [], n, n, s, [], Ok(Effect([k.args[i]], s.w)));
  }

  /** Fetching an argument that is a value of type `t`. */
  lemma ArgHolds(k: Ctx, g: Gen, t: Ty, v: Val, i: nat, n: Var, s: Machine)
    requires k.p == g.p && WellFormed(t) && HasType(g.p, t, v) && Passes(k, i, [ValOp(v)])
    ensures var x := One(GetArg(i), [], n);
            && Yields(k, x, n, s, Ok(Effect([ValOp(v)], s.w)))
            && Holds(k, g, t, v, x.outs[0], x.next, After(k, x, s)) && After(k, x, s).w == s.w
  {
    hide Yields, Run, HasType, WellFormed;
    assert k.args[i] == k.args[i..i + 1][0];
    var x := One(GetArg(i), [], n);
    ArgSim(k, i, n, s);
    Left(k, x, n, s, ValOp(v), s.w);
  }

  // ----- lowering the arguments -----

  lemma ArgFlatSim(k: Ctx, g: Gen, t: Ty, v: Val, i: nat, n: Var, s: Machine)
    requires k.p == g.p && WellFormed(t) && HasType(g.p, t, v) && Passes(k, i, [ValOp(v)])
    ensures Yields(k, ArgFlatCode(g, t, i, n), n, s, FlatEffect(LowerFlat(CfgOf(g), t, v, s.w)))
  {
    hide Yields, Run, LowerCode, LowerFlat, HasType, WellFormed, Passes, Holds;
    var x := One(GetArg(i), [], n);
    ArgHolds(k, g, t, v, i, n, s);
    var l := LowerCode(g, t, x.outs[0], x.next);
    LowerSim(k, g, t, v, x.outs[0], x.next, After(k, x, s));
    YieldsThen(k, x, l, n, s, Ok(Effect([ValOp(v)], s.w)), FlatEffect(LowerFlat(CfgOf(g), t, v, s.w)));
  }

  lemma ArgStoreSim(k: Ctx, g: Gen, t: Ty, v: Val, i: nat, a: Var, addr: nat, off: nat, n: Var, s: Machine)
    requires k.p == g.p && WellFormed(t) && HasType(g.p, t, v) && Passes(k, i, [ValOp(v)]) && Points(a, addr, n, s)
    ensures Yields(k, ArgStoreCode(g, t, i, a, off, n), n, s, WorldEffect(Store(CfgOf(g), t, v, addr + off, s.w)))
  {
    hide Yields, Run, WriteCode, Store, HasType, WellFormed, Passes, Points, Holds;
    var x := One(GetArg(i), [], n);
    ArgHolds(k, g, t, v, i, n, s);
    PointsLater(k, x, n, s, Ok(Effect([ValOp(v)], s.w)), a, addr);
    var w := WriteCode(g, t, x.outs[0], a, off, x.next);
    WriteSim(k, g, t, v, x.outs[0], a, addr, off, x.next, After(k, x, s));
    YieldsThen(k, x, w, n, s, Ok(Effect([ValOp(v)], s.w)), WorldEffect(Store(CfgOf(g), t, v, addr + off, s.w)));
  }

  lemma {:induction false} ArgsFlatSim(k: Ctx, g: Gen, tys: seq<Ty>, vs: seq<Val>, i: nat, n: Var, s: Machine)
    requires k.p == g.p && AllWellFormed(tys) && AllTyped(g.p, tys, vs) && Passes(k, i, ValOps(vs))
    ensures Yields(k, ArgsFlatCode(g, tys, i, n), n, s, FlatEffect(LowerFields(CfgOf(g), tys, vs, s.w)))
    decreases tys
  {
    hide Yields, Run, ArgFlatCode, LowerFlat, HasType, WellFormed, Flat, Passes;
    if tys == [] {
      EmptyLookup(s.env);
      assert CoreOps([]) == [];
      YieldsNothing(k, n, s, [], []);
    } else {
      FirstArg(k, i, vs);
      ArgFlatSim(k, g, tys[0], vs[0], i, n, s);
      var o := LowerFlat(CfgOf(g), tys[0], vs[0], s.w);
      var c := ArgFlatCode(g, tys[0], i, n);
      var rest := ArgsFlatCode(g, tys[1..], i + 1, c.next);
      if o.Ok? {
        AfterYields(k, c, n, s, CoreOps(o.value.flat), o.value.w);
        ArgsFlatSim(k, g, tys[1..], vs[1..], i + 1, c.next, After(k, c, s));
        var ob := LowerFields(CfgOf(g), tys[1..], vs[1..], o.value.w);
        YieldsBoth(k, c, rest, n, s, FlatEffect(o), FlatEffect(ob));
        JoinEffects(o.value, ob);
      } else {
        YieldsBoth(k, c, rest, n, s, FlatEffect(o), FlatEffect(o));
      }
    }
  }

  lemma FirstArg(k: Ctx, i: nat, vs: seq<Val>)
    requires vs != [] && Passes(k, i, ValOps(vs))
    ensures Passes(k, i, [ValOp(vs[0])]) && Passes(k, i + 1, ValOps(vs[1..]))
  {
    PassesFirst(k, i, ValOps(vs), 1);
    assert ValOps(vs)[..1] == [ValOp(vs[0])] && ValOps(vs)[1..] == ValOps(vs[1..]);
  }

  lemma {:induction false} ArgsToMemorySim(k: Ctx, g: Gen, tys: seq<Ty>, vs: seq<Val>, i: nat, a: Var, addr: nat, pos: nat, n: Var, s: Machine)
    requires k.p == g.p && AllWellFormed(tys) && AllTyped(g.p, tys, vs) && Passes(k, i, ValOps(vs)) && Points(a, addr, n, s)
    ensures Yields(k, ArgsToMemoryCode(g, tys, i, a, pos, n), n, s, WorldEffect(StoreFields(CfgOf(g), tys, vs, addr, pos, s.w)))
    decreases tys
  {
    hide Yields, Run, ArgStoreCode, Store, HasType, WellFormed, Passes, Points, FieldOffset, Size;
    if tys == [] {
      EmptyLookup(s.env);
      YieldsNothing(k, n, s, [], []);
    } else {
      FirstArg(k, i, vs);
      var o := FieldOffset(g.p, tys[0], pos);
      ArgStoreSim(k, g, tys[0], vs[0], i, a, addr, o, n, s);
      var st := Store(CfgOf(g), tys[0], vs[0], addr + o, s.w);
      var c := ArgStoreCode(g, tys[0], i, a, o, n);
      var end := o + Size(g.p, tys[0]);
      var rest := ArgsToMemoryCode(g, tys[1..], i + 1, a, end, c.next);
      if st.Ok? {
        AfterYields(k, c, n, s, [], st.value);
        PointsLater(k, c, n, s, WorldEffect(st), a, addr);
        ArgsToMemorySim(k, g, tys[1..], vs[1..], i + 1, a, addr, end, c.next, After(k, c, s));
        YieldsThen(k, c, rest, n, s, WorldEffect(st), WorldEffect(StoreFields(CfgOf(g), tys[1..], vs[1..], addr, end, st.value)));
      } else {
        YieldsThen(k, c, rest, n, s, WorldEffect(st), WorldEffect(st));
      }
    }
  }

  datatype Space = Space(addr: nat, w: World)

  /** The memory that carries indirect parameters. */
  ghost function ParamsSpace(k: Ctx, v: AbiVariant, f: Func, w: World): Outcome<Space> {
    if v == GuestImport then Ok(Space(k.area(ForParams), w))
    else
      var al :- Alloc(w, Size(k.p, f.ParamsTuple()), Align(k.p, f.ParamsTuple()), k.p, true);
      Ok(Space(al.addr, al.w))
  }

  /** The words of the arguments. */
  ghost function LoweredParams(k: Ctx, g: Gen, v: AbiVariant, f: Func, vs: seq<Val>, w: World): Outcome<Lowered> {
    if IndirectParams(f) then
      var sp :- ParamsSpace(k, v, f, w);
      var w1 :- StoreFields(CfgOf(g), f.params, vs, sp.addr, 0, sp.w);
      Ok(Lowered([Core(Pointer, sp.addr)], w1))
    else LowerFields(CfgOf(g), f.params, vs, w)
  }

  function SpaceEffect(o: Outcome<Space>): Outcome<Effect> {
    var sp :- o;
    Ok(Effect([CoreOp(Core(Pointer, sp.addr))], sp.w))
  }

  lemma SpaceSim(k: Ctx, g: Gen, v: AbiVariant, f: Func, n: Var, s: Machine)
    requires k.p == g.p
    ensures Yields(k, One(SpaceInst(g.p, v, f), [], n), n, s, SpaceEffect(ParamsSpace(k, v, f, s.w)))
  {
    hide Yields, Size, Align, Alloc;
    EmptyLookup(s.env);
    YieldsOne(k, SpaceInst(g.p, v, f), [], n, n, s, [], SpaceEffect(ParamsSpace(k, v, f, s.w)));
  }

  lemma LowerParamsSim(k: Ctx, g: Gen, v: AbiVariant, f: Func, vs: seq<Val>, n: Var, s: Machine)
    requires k.p == g.p && f.Valid() && AllTyped(g.p, f.params, vs) && Passes(k, 0, ValOps(vs))
    ensures Yields(k, LowerParamsCode(g, v, f, n), n, s, FlatEffect(LoweredParams(k, g, v, f, vs, s.w)))
  {
    hide Yields, Run, ArgsFlatCode, LowerFields, AllTyped, Passes, FlatFields;
    if IndirectParams(f) {
      IndirectSim(k, g, v, f, vs, n, s);
    } else {
      ArgsFlatSim(k, g, f.params, vs, 0, n, s);
    }
  }

  lemma IndirectSim(k: Ctx, g: Gen, v: AbiVariant, f: Func, vs: seq<Val>, n: Var, s: Machine)
    requires k.p == g.p && f.Valid() && AllTyped(g.p, f.params, vs) && Passes(k, 0, ValOps(vs)) && IndirectParams(f)
    ensures Yields(k, LowerParamsCode(g, v, f, n), n, s, FlatEffect(LoweredParams(k, g, v, f, vs, s.w)))
  {
    hide Yields, Run, ArgsToMemoryCode, AllTyped, Passes, FlatFields, IndirectParams, StoreFields, ParamsSpace, Points, SpaceInst;
    var a := One(SpaceInst(g.p, v, f), [], n);
    var c := ArgsToMemoryCode(g, f.params, 0, a.outs[0], 0, a.next);
    SpaceSim(k, g, v, f, n, s);
    var sp := ParamsSpace(k, v, f, s.w);
    if sp.Ok? {
      var ptr := CoreOp(Core(Pointer, sp.value.addr));
      Left(k, a, n, s, ptr, sp.value.w);
      MakePoints(a.outs[0], sp.value.addr, a.next, After(k, a, s));
      ArgsToMemorySim(k, g, f.params, vs, 0, a.outs[0], sp.value.addr, 0, a.next, After(k, a, s));
      var st := StoreFields(CfgOf(g), f.params, vs, sp.value.addr, 0, sp.value.w);
      YieldsKeep(k, a, c, n, s, Effect([ptr], sp.value.w), WorldEffect(st));
      assert CoreOps([Core(Pointer, sp.value.addr)]) == [ptr];
    } else {
      YieldsFail(k, a, c, n, s, SpaceEffect(sp));
    }
  }

  /** `b` after `a`, keeping only what `a` left. */
  lemma YieldsKeep(k: Ctx, a: Chunk, b: Chunk, n: Var, s: Machine, ea: Effect, ob: Outcome<Effect>)
    requires Yields(k, a, n, s, Ok(ea)) && n <= a.next && Scoped(a)
    requires Yields(k, b, a.next, After(k, a, s), ob) && b.outs == []
    ensures Yields(k, Chunk(a.code + b.code, a.outs, b.next), n, s, if ob.Ok? then Ok(Effect(ea.outs, ob.value.w)) else ob)
  {
    hide Yields, Run;
    YieldsBoth(k, a, b, n, s, Ok(ea), ob);
    assert a.outs + [] == a.outs;
    if ob.Ok? {
      NoOuts(k, b, a.next, After(k, a, s), ob);
      assert ea.outs + ob.value.outs == ea.outs;
    }
  }

  lemma NoOuts(k: Ctx, b: Chunk, n: Var, s: Machine, ob: Outcome<Effect>)
    requires Yields(k, b, n, s, ob) && ob.Ok? && b.outs == []
    ensures ob.value.outs == []
  {
    hide Run;
  }

  lemma YieldsFail(k: Ctx, a: Chunk, b: Chunk, n: Var, s: Machine, o: Outcome<Effect>)
    requires Yields(k, a, n, s, o) && !o.Ok? && n <= a.next && Scoped(a) && b.outs == []
    ensures Yields(k, Chunk(a.code + b.code, a.outs, b.next), n, s, o)
  {
    hide Yields, Run;
    YieldsBoth(k, a, b, n, s, o, o);
    assert a.outs + [] == a.outs;
  }

  // ----- lifting the arguments -----

  lemma {:induction false} GetArgsSim(k: Ctx, i: nat, ops: seq<Operand>, n: Var, s: Machine)
    requires Passes(k, i, ops)
    ensures Yields(k, GetArgsCode(i, |ops|, n), n, s, Ok(Effect(ops, s.w)))
    decreases |ops|
  {
    hide Yields, Run;
    if ops == [] {
      EmptyLookup(s.env);
      YieldsNothing(k, n, s, [], []);
    } else {
      PassesFirst(k, i, ops, 1);
      assert k.args[i] == k.args[i..i + |ops|][0];
      var x := One(GetArg(i), [], n);
      ArgSim(k, i, n, s);
      AfterYields(k, x, n, s, [ops[0]], s.w);
      GetArgsSim(k, i + 1, ops[1..], x.next, After(k, x, s));
      YieldsBoth(k, x, GetArgsCode(i + 1, |ops| - 1, x.next), n, s, Ok(Effect([ops[0]], s.w)), Ok(Effect(ops[1..], s.w)));
      assert [ops[0]] + ops[1..] == ops;
    }
  }

  lemma {:induction false} ParamsFlatSim(k: Ctx, g: Gen, tys: seq<Ty>, cs: seq<Core>, i: nat, n: Var, s: Machine)
    requires k.p == g.p && AllWellFormed(tys) && |cs| == |FlatFields(tys)| && Passes(k, i, CoreOps(cs))
    ensures Yields(k, ParamsFlatCode(g, tys, i, n), n, s, ValsEffect(LiftFields(g.p, tys, cs, s.w.mem), s.w))
    decreases tys
  {
    hide Yields, Run, LiftCode, LiftFlat, WellFormed, Flat, HoldsFlat, Passes, GetArgsCode;
    if tys == [] {
      EmptyLookup(s.env);
      assert ValOps([]) == [];
      YieldsNothing(k, n, s, [], []);
    } else {
      var h := |Flat(tys[0])|;
      FirstWords(k, i, cs, h);
      var xs := GetArgsCode(i, h, n);
      GetArgsSim(k, i, CoreOps(cs[..h]), n, s);
      AfterYields(k, xs, n, s, CoreOps(cs[..h]), s.w);
      MakeFlat(k, g, Flat(tys[0]), cs[..h], xs.outs, xs.next, After(k, xs, s));
      LiftSim(k, g, tys[0], cs[..h], xs.outs, xs.next, After(k, xs, s));
      var l := LiftCode(g, tys[0], xs.outs, xs.next);
      var o := LiftFlat(g.p, tys[0], cs[..h], s.w.mem);
      YieldsThen(k, xs, l, n, s, Ok(Effect(CoreOps(cs[..h]), s.w)), LiftEffect(o, s.w));
      var c := Then(xs, l);
      if o.Ok? {
        AfterYields(k, c, n, s, [ValOp(o.value)], s.w);
        ParamsFlatSim(k, g, tys[1..], cs[h..], i + h, c.next, After(k, c, s));
      }
      ConsSim(k, c, ParamsFlatCode(g, tys[1..], i + h, c.next), n, s, o, LiftFields(g.p, tys[1..], cs[h..], s.w.mem), s.w);
    }
  }

  lemma FirstWords(k: Ctx, i: nat, cs: seq<Core>, h: nat)
    requires h <= |cs| && Passes(k, i, CoreOps(cs))
    ensures Passes(k, i, CoreOps(cs[..h])) && Passes(k, i + h, CoreOps(cs[h..]))
  {
    PassesFirst(k, i, CoreOps(cs), h);
    assert CoreOps(cs)[..h] == CoreOps(cs[..h]) && CoreOps(cs)[h..] == CoreOps(cs[h..]);
  }

  /** The values of the arguments, from their words. */
  ghost function LiftedParams(p: PtrSize, f: Func, cs: seq<Core>, m: Mem): Outcome<seq<Val>>
    requires |cs| == if IndirectParams(f) then 1 else |FlatFields(f.params)|
  {
    if !IndirectParams(f) then LiftFields(p, f.params, cs, m)
    else if cs[0].ty == Pointer then LoadFields(p, f.params, cs[0].bits, 0, m)
    else Trap
  }

  lemma LiftParamsSim(k: Ctx, g: Gen, f: Func, cs: seq<Core>, n: Var, s: Machine)
    requires k.p == g.p && f.Valid() && |cs| == (if IndirectParams(f) then 1 else |FlatFields(f.params)|)
    requires IndirectParams(f) ==> cs[0].ty == Pointer
    requires Passes(k, 0, CoreOps(cs))
    ensures Yields(k, LiftParamsCode(g, f, n), n, s, ValsEffect(LiftedParams(g.p, f, cs, s.w.mem), s.w))
  {
    hide Yields, Run, ReadFieldsCode, ParamsFlatCode, FlatFields, LoadFields, LiftFields, Passes, Points;
    if IndirectParams(f) {
      var a := One(GetArg(0), [], n);
      var ptr := Core(Pointer, cs[0].bits);
      FirstIs(k, cs);
      ArgSim(k, 0, n, s);
      Left(k, a, n, s, CoreOp(ptr), s.w);
      MakePoints(a.outs[0], ptr.bits, a.next, After(k, a, s));
      ReadFieldsSim(k, g, f.params, a.outs[0], ptr.bits, 0, 0, a.next, After(k, a, s));
      YieldsThen(k, a, ReadFieldsCode(g, f.params, a.outs[0], 0, 0, a.next), n, s, Ok(Effect([CoreOp(ptr)], s.w)),
                 ValsEffect(LoadFields(g.p, f.params, ptr.bits, 0, s.w.mem), s.w));
    } else {
      ParamsFlatSim(k, g, f.params, cs, 0, n, s);
    }
  }

  lemma FirstIs(k: Ctx, cs: seq<Core>)
    requires cs != [] && Passes(k, 0, CoreOps(cs))
    ensures |k.args| > 0 && k.args[0] == CoreOp(cs[0])
  {
    assert k.args[0..|cs|][0] == CoreOps(cs)[0];
  }

  // ----- the result -----

  /** The values of the result: none or one. */
  ghost function LiftedResult(p: PtrSize, f: Func, ptr: nat, ys: seq<Core>, m: Mem): Outcome<seq<Val>>
    requires !RetPtr(f) ==> |ys| == |ResultFlat(f)|
  {
    if RetPtr(f) then LoadFields(p, f.Results(), ptr, 0, m)
    else if f.result.Some? then
      var v :- LiftFlat(p, f.result.value, ys, m);
      Ok([v])
    else Ok([])
  }

  lemma LiftResultSim(k: Ctx, g: Gen, f: Func, x: Var, ptr: nat, xs: seq<Var>, ys: seq<Core>, n: Var, s: Machine)
    requires k.p == g.p && f.Valid() && |xs| == |ys| && (!RetPtr(f) ==> |ys| == |ResultFlat(f)|)
    requires RetPtr(f) ==> Points(x, ptr, n, s)
    requires AllBelow(xs, n) && Lookup(s.env, xs) == Ok(CoreOps(ys))
    ensures Yields(k, LiftResultCode(g, f, x, xs, n), n, s, ValsEffect(LiftedResult(g.p, f, ptr, ys, s.w.mem), s.w))
  {
    hide Yields, Run, ReadFieldsCode, LiftCode, LoadFields, LiftFlat, HoldsFlat, Points, Flat;
    if RetPtr(f) {
      var c := ReadFieldsCode(g, f.Results(), x, 0, 0, n);
      ReadFieldsSim(k, g, f.Results(), x, ptr, 0, 0, n, s);
      FlushSim(k, c, n, s, LoadFields(g.p, f.Results(), ptr, 0, s.w.mem), s.w);
    } else if f.result.Some? {
      MakeFlat(k, g, Flat(f.result.value), ys, xs, n, s);
      LiftSim(k, g, f.result.value, ys, xs, n, s);
      var o := LiftFlat(g.p, f.result.value, ys, s.w.mem);
      if o.Ok? { assert ValOps([o.value]) == [ValOp(o.value)]; }
    } else {
      EmptyLookup(s.env);
      assert ValOps([]) == [];
      YieldsNothing(k, n, s, [], []);
    }
  }

  lemma FlushSim(k: Ctx, c: Chunk, n: Var, s: Machine, o: Outcome<seq<Val>>, w: World)
    requires Yields(k, c, n, s, ValsEffect(o, w)) && n <= c.next && (o.Ok? ==> |o.value| == |c.outs|)
    ensures Yields(k, Then(c, One(Flush(|c.outs|), c.outs, c.next)), n, s, ValsEffect(o, w))
  {
    hide Yields, Run, Lookup, Take;
    var last := One(Flush(|c.outs|), c.outs, c.next);
    if o.Ok? {
      AfterYields(k, c, n, s, ValOps(o.value), w);
      YieldsOne(k, Flush(|c.outs|), c.outs, c.next, c.next, After(k, c, s), ValOps(o.value), Ok(Effect(ValOps(o.value), w)));
    }
    YieldsThen(k, c, last, n, s, ValsEffect(o, w), ValsEffect(o, w));
  }

  /** The `Return` at the end. */
  lemma ReturnSim(k: Ctx, c: Chunk, n: Var, s: Machine, o: Outcome<Effect>)
    requires Yields(k, c, n, s, o)
    ensures var r := Run(k, Then(c, One(Return(|c.outs|), c.outs, c.next)).code, s);
            && (o.Ok? ==> r.Ok? && r.value.returned == o.value.outs && r.value.w == o.value.w)
            && (o.OutOfMemory? ==> r.OutOfMemory?) && (o.Trap? ==> r.Trap?)
  {
    hide Run, Step, Lookup;
    var ret := One(Return(|c.outs|), c.outs, c.next);
    RunConcat(k, c.code, ret.code, s);
    if o.Ok? {
      var s1 := Run(k, c.code, s).value;
      RunSingle(k, ret.code[0], s1);
      ReturnStep(k, c.outs, c.next, s1, o.value.outs);
    }
  }

  lemma ReturnStep(k: Ctx, xs: seq<Var>, n: Var, s: Machine, ops: seq<Operand>)
    requires Lookup(s.env, xs) == Ok(ops)
    ensures var r := Step(k, One(Return(|xs|), xs, n).code[0], s);
            r.Ok? && r.value.returned == ops && r.value.w == s.w
  {
    hide Lookup, Bind;
  }

  // ----- lowering the result -----

  /** The words of a result, when it is small; otherwise it is stored at `ptr`. */
  ghost function LoweredResult(c: Cfg, v: AbiVariant, f: Func, vs: seq<Val>, ptr: nat, w: World): Outcome<Lowered>
    requires |vs| == |f.Results()|
  {
    if RetPtr(f) then
      var w1 :- StoreFields(c, f.Results(), vs, ptr, 0, w);
      Ok(Lowered(if v == GuestImport then [] else [Core(Pointer, ptr)], w1))
    else if f.result.Some? then LowerFlat(c, f.result.value, vs[0], w)
    else Ok(Lowered([], w))
  }

  /** Where the callee finds the space for a large result. */
  ghost predicate ResultAt(k: Ctx, v: AbiVariant, f: Func, ptr: nat) {
    if v == GuestImport then
      |WasmSignature(v, f).params| > 0 && Passes(k, |WasmSignature(v, f).params| - 1, [CoreOp(Core(Pointer, ptr))])
    else ptr == k.area(ForResult)
  }

  function ResultSpace(p: PtrSize, v: AbiVariant, f: Func): (i: Inst)
    requires v == GuestImport ==> |WasmSignature(v, f).params| > 0
    ensures OperandsLen(i) == 0 && ResultsLen(i) == 1
  {
    if v == GuestImport then GetArg(|WasmSignature(v, f).params| - 1) else AreaFor(p, f.ResultTuple(), ForResult)
  }

  lemma ResultSpaceSim(k: Ctx, v: AbiVariant, f: Func, ptr: nat, n: Var, s: Machine)
    requires ResultAt(k, v, f, ptr)
    ensures Yields(k, One(ResultSpace(k.p, v, f), [], n), n, s, Ok(Effect([CoreOp(Core(Pointer, ptr))], s.w)))
  {
    hide Yields, Size, Align, WasmSignature;
    EmptyLookup(s.env);
    if v == GuestImport {
      var i := |WasmSignature(v, f).params| - 1;
      assert k.args[i] == k.args[i..i + 1][0];
      ArgSim(k, i, n, s);
    } else {
      YieldsOne(k, ResultSpace(k.p, v, f), [], n, n, s, [], Ok(Effect([CoreOp(Core(Pointer, ptr))], s.w)));
    }
  }

  lemma LowerResultSim(k: Ctx, g: Gen, v: AbiVariant, f: Func, vs: seq<Val>, xs: seq<Var>, ptr: nat, n: Var, s: Machine)
    requires k.p == g.p && f.Valid() && AllTyped(g.p, f.Results(), vs) && |xs| == |vs|
    requires AllBelow(xs, n) && Lookup(s.env, xs) == Ok(ValOps(vs))
    requires RetPtr(f) ==> ResultAt(k, v, f, ptr)
    ensures Yields(k, LowerResultCode(g, v, f, xs, n), n, s, FlatEffect(LoweredResult(CfgOf(g), v, f, vs, ptr, s.w)))
  {
    hide Yields, Run, LowerCode, WriteFieldsCode, LowerFlat, ResultAt, Flat, HasType, WellFormed, WasmSignature;
    if RetPtr(f) {
      LargeResultSim(k, g, v, f, vs, xs, ptr, n, s);
    } else if f.result.Some? {
      SmallResultIs(g, v, f, xs, n);
      LookupAt(s.env, xs, 0);
      assert xs[0] in xs;
      LowerSim(k, g, f.result.value, vs[0], xs[0], n, s);
    } else {
      SmallResultIs(g, v, f, xs, n);
      EmptyLookup(s.env);
      assert CoreOps([]) == [];
      YieldsNothing(k, n, s, [], []);
    }
  }

  lemma SmallResultIs(g: Gen, v: AbiVariant, f: Func, xs: seq<Var>, n: Var)
    requires f.Valid() && |xs| == |f.Results()| && !RetPtr(f)
    ensures LowerResultCode(g, v, f, xs, n) == if f.result.Some? then LowerCode(g, f.result.value, xs[0], n) else Chunk([], [], n)
  {
    hide LowerCode, Flat;
  }

  /** Finding the space, then storing the result there. */
  lemma StoreResultSim(k: Ctx, g: Gen, v: AbiVariant, f: Func, vs: seq<Val>, xs: seq<Var>, ptr: nat, n: Var, s: Machine)
    requires k.p == g.p && f.Valid() && AllTyped(g.p, f.Results(), vs) && |xs| == |vs|
    requires AllBelow(xs, n) && Lookup(s.env, xs) == Ok(ValOps(vs)) && ResultAt(k, v, f, ptr)
    requires v == GuestImport ==> |WasmSignature(v, f).params| > 0
    ensures var a := One(ResultSpace(g.p, v, f), [], n);
            var c := WriteFieldsCode(g, f.Results(), xs, a.outs[0], 0, 0, a.next);
            && Yields(k, a, n, s, Ok(Effect([CoreOp(Core(Pointer, ptr))], s.w)))
            && Yields(k, c, a.next, After(k, a, s), WorldEffect(StoreFields(CfgOf(g), f.Results(), vs, ptr, 0, s.w)))
  {
    hide Yields, Run, WriteFieldsCode, ResultAt, WasmSignature, RetPtr, Points, StoreFields, HasType, ResultSpace;
    var a := One(ResultSpace(g.p, v, f), [], n);
    ResultSpaceSim(k, v, f, ptr, n, s);
    var here := Effect([CoreOp(Core(Pointer, ptr))], s.w);
    Left(k, a, n, s, here.outs[0], s.w);
    var s1 := After(k, a, s);
    MakePoints(a.outs[0], ptr, a.next, s1);
    StillThere(k, a, n, s, Ok(here), xs, ValOps(vs));
    AllBelowUp(xs, n, a.next);
    WriteFieldsSim(k, g, f.Results(), vs, xs, a.outs[0], ptr, 0, 0, a.next, s1);
  }

  lemma LargeResultSim(k: Ctx, g: Gen, v: AbiVariant, f: Func, vs: seq<Val>, xs: seq<Var>, ptr: nat, n: Var, s: Machine)
    requires k.p == g.p && f.Valid() && AllTyped(g.p, f.Results(), vs) && |xs| == |vs| && RetPtr(f)
    requires AllBelow(xs, n) && Lookup(s.env, xs) == Ok(ValOps(vs)) && ResultAt(k, v, f, ptr)
    ensures Yields(k, LowerResultCode(g, v, f, xs, n), n, s, FlatEffect(LoweredResult(CfgOf(g), v, f, vs, ptr, s.w)))
  {
    hide Yields, Run, WriteFieldsCode, ResultAt, WasmSignature, RetPtr, StoreFields, HasType, ResultSpace, LowerResultCode, Lookup;
    SignatureParams(v, f);
    StoreResultSim(k, g, v, f, vs, xs, ptr, n, s);
    var a := One(ResultSpace(g.p, v, f), [], n);
    var here := Effect([CoreOp(Core(Pointer, ptr))], s.w);
    var c := WriteFieldsCode(g, f.Results(), xs, a.outs[0], 0, 0, a.next);
    var st := StoreFields(CfgOf(g), f.Results(), vs, ptr, 0, s.w);
    assert CoreOps([Core(Pointer, ptr)]) == here.outs && CoreOps([]) == [];
    if v == GuestImport {
      YieldsThen(k, a, c, n, s, Ok(here), WorldEffect(st));
    } else {
      YieldsKeep(k, a, c, n, s, here, WorldEffect(st));
    }
    LargeResultIs(g, v, f, xs, n);
  }

  lemma SignatureParams(v: AbiVariant, f: Func)
    ensures RetPtr(f) && v == GuestImport ==> |WasmSignature(v, f).params| > 0
  {
  }

  lemma LargeResultIs(g: Gen, v: AbiVariant, f: Func, xs: seq<Var>, n: Var)
    requires f.Valid() && |xs| == |f.Results()| && RetPtr(f) && (v == GuestImport ==> |WasmSignature(v, f).params| > 0)
    ensures var a := One(ResultSpace(g.p, v, f), [], n);
            var c := WriteFieldsCode(g, f.Results(), xs, a.outs[0], 0, 0, a.next);
            LowerResultCode(g, v, f, xs, n) == Chunk(a.code + c.code, if v == GuestImport then [] else a.outs, c.next)
  {
    hide WriteFieldsCode, WasmSignature, RetPtr;
  }
}
