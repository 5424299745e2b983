/** Call transparency: the glue of a caller, run against the glue of a callee, hands the
    callee exactly the caller's arguments and the caller exactly the callee's result. */
module Transparency {
  import opened Wrappers
  import opened CoreTypes
  import opened Layout
  import opened Memory
  import opened Values
  import opened CanonicalAbi
  import opened AbiSafe
  import opened Ownership
  import opened Code
  import opened Codegen
  import opened Simulation
  import opened SimLower
  import opened SimFree
  import opened CallCodegen
  import opened CallSim
  import opened CallRoundTrip

  function AnswerVals(answer: Option<Val>): seq<Val> {
    if answer.Some? then [answer.value] else []
  }

  /** Called with `vs` in this one world, the implementation answers with a value of the
      result type.  Nothing is said of any other arguments or worlds. */
  ghost predicate Answers(p: PtrSize, f: Func, impl: (seq<Val>, World) -> Outcome<Called>, vs: seq<Val>, w: World) {
    var r := impl(vs, w);
    r.Ok? && AllTyped(p, f.Results(), AnswerVals(r.value.result))
  }

  // ----- the callee -----

  /** Between the implementation's return and the lowering of its result. */
  ghost function Cleaned(p: PtrSize, v: AbiVariant, f: Func, cs: seq<Core>, w: World): Outcome<World>
    requires cs != [] || !IndirectParams(f)
  {
    if v == GuestExport && IndirectParams(f) then Free(w, cs[0].bits, Size(p, f.ParamsTuple()), Align(p, f.ParamsTuple()))
    else Ok(w)
  }

  lemma ImplementationSim(k: Ctx, g: Gen, f: Func, cs: seq<Core>, vs: seq<Val>, n: Var, s: Machine)
    requires k.p == g.p && f.Valid() && |cs| == (if IndirectParams(f) then 1 else |FlatFields(f.params)|)
    requires (IndirectParams(f) ==> cs[0].ty == Pointer) && Passes(k, 0, CoreOps(cs))
    requires LiftedParams(g.p, f, cs, s.w.mem) == Ok(vs) && |vs| == |f.params|
    requires Answers(g.p, f, k.callInterface, vs, s.w)
    ensures var r := k.callInterface(vs, s.w).value;
            Yields(k, CallInterfaceCode(g, f, n), n, s, Ok(Effect(ValOps(AnswerVals(r.result)), r.w)))
  {
    hide Yields, Run, LiftParamsCode, LiftedParams, Passes, FlatFields, HasType, Lookup, Take;
    var answer := k.callInterface(vs, s.w).value.result;
    var c := LiftParamsCode(g, f, n);
    LiftParamsSim(k, g, f, cs, n, s);
    AfterYields(k, c, n, s, ValOps(vs), s.w);
    ValsOf(vs);
    var i := CallInterface(|f.params|, f.result.Some?);
    var w2 := k.callInterface(vs, s.w).value.w;
    var o := Ok(Effect(ValOps(AnswerVals(answer)), w2));
    assert answer.Some? ==> ValOps(AnswerVals(answer)) == [ValOp(answer.value)];
    assert answer.None? ==> ValOps(AnswerVals(answer)) == [];
    YieldsOne(k, i, c.outs, c.next, c.next, After(k, c, s), ValOps(vs), o);
    YieldsThen(k, c, One(i, c.outs, c.next), n, s, Ok(Effect(ValOps(vs), s.w)), o);
  }

  lemma FreeParamsSim(k: Ctx, g: Gen, v: AbiVariant, f: Func, cs: seq<Core>, n: Var, s: Machine)
    requires k.p == g.p && Passes(k, 0, CoreOps(cs)) && (IndirectParams(f) ==> cs != [] && cs[0].ty == Pointer)
    requires Cleaned(g.p, v, f, cs, s.w).Ok?
    ensures Yields(k, FreeParamsCode(g, v, f, n), n, s, Silent(Cleaned(g.p, v, f, cs, s.w).value))
  {
    hide Yields, Run, Size, Align, Free, Passes, IndirectParams, Lookup, Take;
    if v == GuestExport && IndirectParams(f) {
      var a := One(GetArg(0), [], n);
      FirstIs(k, cs);
      ArgSim(k, 0, n, s);
      AfterYields(k, a, n, s, [CoreOp(cs[0])], s.w);
      var i := GuestDeallocate(Size(g.p, f.ParamsTuple()), Align(g.p, f.ParamsTuple()));
      var o := Silent(Cleaned(g.p, v, f, cs, s.w).value);
      YieldsOne(k, i, a.outs, a.next, a.next, After(k, a, s), [CoreOp(cs[0])], o);
      YieldsThen(k, a, One(i, a.outs, a.next), n, s, Ok(Effect([CoreOp(cs[0])], s.w)), o);
    } else {
      NoCode(k, n, s);
    }
  }

  lemma ReturnCodeSim(k: Ctx, g: Gen, v: AbiVariant, f: Func, cs: seq<Core>, vs: seq<Val>, xs: seq<Var>, ptr: nat, n: Var, s: Machine)
    requires k.p == g.p && f.Valid() && Passes(k, 0, CoreOps(cs)) && (IndirectParams(f) ==> cs != [] && cs[0].ty == Pointer)
    requires Cleaned(g.p, v, f, cs, s.w).Ok?
    requires AllTyped(g.p, f.Results(), vs) && |xs| == |vs| && AllBelow(xs, n) && Lookup(s.env, xs) == Ok(ValOps(vs))
    requires RetPtr(f) ==> ResultAt(k, v, f, ptr)
    ensures Yields(k, ReturnCode(g, v, f, xs, n), n, s,
                   FlatEffect(LoweredResult(CfgOf(g), v, f, vs, ptr, Cleaned(g.p, v, f, cs, s.w).value)))
  {
    hide Yields, Run, FreeParamsCode, LowerResultCode, LoweredResult, ResultAt, HasType, Passes, WasmSignature, Cleaned, IndirectParams, RetPtr;
    var freed := FreeParamsCode(g, v, f, n);
    var w3 := Cleaned(g.p, v, f, cs, s.w).value;
    FreeParamsSim(k, g, v, f, cs, n, s);
    AfterYields(k, freed, n, s, [], w3);
    StillThere(k, freed, n, s, Silent(w3), xs, ValOps(vs));
    AllBelowUp(xs, n, freed.next);
    LowerResultSim(k, g, v, f, vs, xs, ptr, freed.next, After(k, freed, s));
    YieldsThen(k, freed, LowerResultCode(g, v, f, xs, freed.next), n, s, Silent(w3), FlatEffect(LoweredResult(CfgOf(g), v, f, vs, ptr, w3)));
  }

  /** A core function made of the callee's glue around an implementation. */
  ghost function Callee(k: Ctx, g: Gen, v: AbiVariant, f: Func, cs: seq<Core>, w: World): Outcome<Lowered>
    requires f.Valid()
  {
    var r :- Run(k.(args := CoreOps(cs)), CallCode(g, v, LiftArgsLowerResults, f, 0).code, Machine(map[], w, []));
    var ys :- Cores(r.returned);
    Ok(Lowered(ys, r.w))
  }

  /** The callee's glue: the implementation gets `vs`, and its answer is lowered. */
  lemma CalleeSim(k: Ctx, g: Gen, v: AbiVariant, f: Func, ps: seq<Core>, cs: seq<Core>, vs: seq<Val>, ptr: nat, w: World)
    requires k.p == g.p && f.Valid() && |ps| == (if IndirectParams(f) then 1 else |FlatFields(f.params)|)
    requires (IndirectParams(f) ==> ps[0].ty == Pointer) && Passes(k.(args := CoreOps(cs)), 0, CoreOps(ps))
    requires LiftedParams(g.p, f, ps, w.mem) == Ok(vs) && |vs| == |f.params|
    requires Answers(g.p, f, k.callInterface, vs, w)
    requires Cleaned(g.p, v, f, ps, k.callInterface(vs, w).value.w).Ok?
    requires RetPtr(f) ==> ResultAt(k.(args := CoreOps(cs)), v, f, ptr)
    ensures var r := k.callInterface(vs, w).value;
            Callee(k, g, v, f, cs, w)
            == LoweredResult(Cfg(g.p, true), v, f, AnswerVals(r.result), ptr, Cleaned(g.p, v, f, ps, r.w).value)
  {
    hide Yields, Run, CallInterfaceCode, ReturnCode, LoweredResult, LiftedParams, ResultAt, HasType, Passes, WasmSignature, FlatFields,
      Cleaned, IndirectParams, RetPtr;
    var k1 := k.(args := CoreOps(cs));
    var h := g.(own := true);
    var s := Machine(map[], w, []);
    var ans := AnswerVals(k.callInterface(vs, w).value.result);
    var call := CallInterfaceCode(g.(own := false), f, 0);
    ImplementationSim(k1, g.(own := false), f, ps, vs, 0, s);
    var w2 := k.callInterface(vs, w).value.w;
    AfterYields(k1, call, 0, s, ValOps(ans), w2);
    var ret := ReturnCode(h, v, f, call.outs, call.next);
    ReturnCodeSim(k1, h, v, f, ps, ans, call.outs, ptr, call.next, After(k1, call, s));
    var o := LoweredResult(Cfg(g.p, true), v, f, ans, ptr, Cleaned(g.p, v, f, ps, w2).value);
    YieldsThen(k1, call, ret, 0, s, Ok(Effect(ValOps(ans), w2)), FlatEffect(o));
    ReturnSim(k1, Then(call, ret), 0, s, FlatEffect(o));
    LiftingCode(g, v, f);
    if o.Ok? { CoresOf(o.value.flat); }
  }

  lemma LiftingCode(g: Gen, v: AbiVariant, f: Func)
    requires f.Valid()
    ensures var call := CallInterfaceCode(g.(own := false), f, 0);
            var all := Then(call, ReturnCode(g.(own := true), v, f, call.outs, call.next));
            |all.outs| == |WasmSignature(v, f).results|
            && CallCode(g, v, LiftArgsLowerResults, f, 0) == Then(all, One(Return(|all.outs|), all.outs, all.next))
  {
    hide CallInterfaceCode, ReturnCode, WasmSignature, One;
  }

  // ----- the caller -----

  /** The pointer argument that follows the parameters of an import with a large result. */
  function RetArg(k: Ctx, v: AbiVariant, f: Func): seq<Core> {
    if v == GuestImport && RetPtr(f) then [Core(Pointer, k.area(ForResult))] else []
  }

  lemma ResultSpaceCodeSim(k: Ctx, g: Gen, v: AbiVariant, f: Func, n: Var, s: Machine)
    requires k.p == g.p
    ensures Yields(k, ResultSpaceCode(g, v, f, n), n, s, Ok(Effect(CoreOps(RetArg(k, v, f)), s.w)))
  {
    hide Yields, Size, Align, RetPtr;
    EmptyLookup(s.env);
    if v == GuestImport && RetPtr(f) {
      var o := Ok(Effect([CoreOp(Core(Pointer, k.area(ForResult)))], s.w));
      assert CoreOps(RetArg(k, v, f)) == o.value.outs;
      YieldsOne(k, AreaFor(g.p, f.ResultTuple(), ForResult), [], n, n, s, [], o);
    } else {
      assert CoreOps([]) == [];
      YieldsNothing(k, n, s, [], []);
    }
  }

  function WithRetArg(k: Ctx, v: AbiVariant, f: Func, o: Outcome<Lowered>): Outcome<Lowered> {
    var r :- o;
    Ok(Lowered(r.flat + RetArg(k, v, f), r.w))
  }

  lemma CallArgsSim(k: Ctx, g: Gen, v: AbiVariant, f: Func, vs: seq<Val>, n: Var, s: Machine)
    requires k.p == g.p && f.Valid() && AllTyped(g.p, f.params, vs) && Passes(k, 0, ValOps(vs))
    ensures Yields(k, CallArgsCode(g, v, f, n), n, s, FlatEffect(WithRetArg(k, v, f, LoweredParams(k, g, v, f, vs, s.w))))
  {
    hide Yields, Run, LowerParamsCode, ResultSpaceCode, LoweredParams, AllTyped, Passes, RetArg;
    var c := LowerParamsCode(g, v, f, n);
    var rest := ResultSpaceCode(g, v, f, c.next);
    LowerParamsSim(k, g, v, f, vs, n, s);
    var o := LoweredParams(k, g, v, f, vs, s.w);
    if o.Ok? {
      AfterYields(k, c, n, s, CoreOps(o.value.flat), o.value.w);
      ResultSpaceCodeSim(k, g, v, f, c.next, After(k, c, s));
      YieldsBoth(k, c, rest, n, s, FlatEffect(o), Ok(Effect(CoreOps(RetArg(k, v, f)), o.value.w)));
      CoreOpsConcat(o.value.flat, RetArg(k, v, f));
    } else {
      YieldsBoth(k, c, rest, n, s, FlatEffect(o), FlatEffect(o));
    }
  }

  /** The words that the core function is called with. */
  ghost function CallWords(k: Ctx, g: Gen, v: AbiVariant, f: Func, vs: seq<Val>, w: World): Outcome<Lowered> {
    WithRetArg(k, v, f, LoweredParams(k, g, v, f, vs, w))
  }

  ghost function CallEffect(k: Ctx, g: Gen, v: AbiVariant, f: Func, vs: seq<Val>, w: World): Outcome<Lowered> {
    var r :- CallWords(k, g, v, f, vs, w);
    k.callWasm(r.flat, r.w)
  }

  lemma CallWasmSim(k: Ctx, g: Gen, v: AbiVariant, f: Func, vs: seq<Val>, n: Var, s: Machine)
    requires k.p == g.p && f.Valid() && AllTyped(g.p, f.params, vs) && Passes(k, 0, ValOps(vs))
    requires var r := CallEffect(k, g, v, f, vs, s.w); r.Ok? ==> |r.value.flat| == |WasmSignature(v, f).results|
    ensures Yields(k, CallWasmCode(g, v, f, n), n, s, FlatEffect(CallEffect(k, g, v, f, vs, s.w)))
  {
    hide Yields, Run, CallArgsCode, CallWords, AllTyped, Passes, WasmSignature, One, FlatEffect, WithRetArg, LoweredParams;
    assert CallWords(k, g, v, f, vs, s.w) == WithRetArg(k, v, f, LoweredParams(k, g, v, f, vs, s.w)) by { CallWordsIs(k, g, v, f, vs, s.w); }
    var args := CallArgsCode(g, v, f, n);
    CallArgsSim(k, g, v, f, vs, n, s);
    var o := CallWords(k, g, v, f, vs, s.w);
    CoreCallSim(k, args, |WasmSignature(v, f).results|, n, s, o);
  }

  /** The core function is called with the words that `args` leaves. */
  lemma CoreCallSim(k: Ctx, args: Chunk, results: nat, n: Var, s: Machine, o: Outcome<Lowered>)
    requires Yields(k, args, n, s, FlatEffect(o)) && n <= args.next
    requires o.Ok? && k.callWasm(o.value.flat, o.value.w).Ok? ==> |k.callWasm(o.value.flat, o.value.w).value.flat| == results
    ensures Yields(k, Then(args, One(CallWasm(|args.outs|, results), args.outs, args.next)), n, s,
                   FlatEffect(if o.Ok? then k.callWasm(o.value.flat, o.value.w) else o))
  {
    hide Yields, Run, Then;
    var i := CallWasm(|args.outs|, results);
    var last := One(i, args.outs, args.next);
    if o.Ok? {
      AfterYields(k, args, n, s, CoreOps(o.value.flat), o.value.w);
      CoresOf(o.value.flat);
      var r := FlatEffect(k.callWasm(o.value.flat, o.value.w));
      YieldsOne(k, i, args.outs, args.next, args.next, After(k, args, s), CoreOps(o.value.flat), r);
      YieldsThen(k, args, last, n, s, FlatEffect(o), r);
    } else {
      YieldsThen(k, args, last, n, s, FlatEffect(o), FlatEffect(o));
    }
  }

  lemma CallWordsIs(k: Ctx, g: Gen, v: AbiVariant, f: Func, vs: seq<Val>, w: World)
    ensures CallWords(k, g, v, f, vs, w) == WithRetArg(k, v, f, LoweredParams(k, g, v, f, vs, w))
  {
    hide WithRetArg, LoweredParams;
  }

  /** Where the caller finds a large result. */
  lemma ResultPtrPoints(k: Ctx, g: Gen, v: AbiVariant, f: Func, vs: seq<Val>, ptr: nat, n: Var, s: Machine)
    requires k.p == g.p && f.Valid() && AllTyped(g.p, f.params, vs) && Passes(k, 0, ValOps(vs)) && RetPtr(f)
    requires var r := CallEffect(k, g, v, f, vs, s.w); r.Ok? && |r.value.flat| == |WasmSignature(v, f).results|
    requires if v == GuestImport then ptr == k.area(ForResult) else CallEffect(k, g, v, f, vs, s.w).value.flat == [Core(Pointer, ptr)]
    ensures var call := CallWasmCode(g, v, f, n);
            Points(ResultPtr(v, f, call), ptr, call.next, After(k, call, s))
  {
    hide Yields, Run, LoweredParams, AllTyped, Passes, WasmSignature, Points, LowerParamsCode;
    CallWasmSim(k, g, v, f, vs, n, s);
    var call := CallWasmCode(g, v, f, n);
    if v == GuestExport {
      OnePointer(k, call, ptr, n, s, CallEffect(k, g, v, f, vs, s.w).value);
    } else {
      ImportPointer(k, g, f, vs, n, s);
    }
  }

  lemma OnePointer(k: Ctx, call: Chunk, ptr: nat, n: Var, s: Machine, r: Lowered)
    requires Yields(k, call, n, s, FlatEffect(Ok(r))) && r.flat == [Core(Pointer, ptr)] && |call.outs| == 1 && Scoped(call)
    ensures Points(call.outs[0], ptr, call.next, After(k, call, s))
  {
    hide Run, Yields;
    assert CoreOps(r.flat) == [CoreOp(Core(Pointer, ptr))];
    Left(k, call, n, s, CoreOp(Core(Pointer, ptr)), r.w);
  }

  lemma ImportPointer(k: Ctx, g: Gen, f: Func, vs: seq<Val>, n: Var, s: Machine)
    requires k.p == g.p && f.Valid() && AllTyped(g.p, f.params, vs) && Passes(k, 0, ValOps(vs)) && RetPtr(f)
    requires var r := CallEffect(k, g, GuestImport, f, vs, s.w); r.Ok? && |r.value.flat| == |WasmSignature(GuestImport, f).results|
    ensures var call := CallWasmCode(g, GuestImport, f, n);
            Points(ResultPtr(GuestImport, f, call), k.area(ForResult), call.next, After(k, call, s))
  {
    hide Yields, Run, LoweredParams, AllTyped, Passes, WasmSignature, Points, CallArgsCode, CallWords, Lookup, Take;
    var args := CallArgsCode(g, GuestImport, f, n);
    var o := CallWords(k, g, GuestImport, f, vs, s.w);
    CallWordsIs(k, g, GuestImport, f, vs, s.w);
    CallArgsSim(k, g, GuestImport, f, vs, n, s);
    LastWord(k, g, f, args, n, s, o.value);
    ResultWordsNone(f);
    var i := CallWasm(|args.outs|, 0);
    var last := One(i, args.outs, args.next);
    var s1 := After(k, args, s);
    AfterYields(k, args, n, s, CoreOps(o.value.flat), o.value.w);
    CoresOf(o.value.flat);
    var r := FlatEffect(k.callWasm(o.value.flat, o.value.w));
    YieldsOne(k, i, args.outs, args.next, args.next, s1, CoreOps(o.value.flat), r);
    PointsLater(k, last, args.next, s1, r, args.next - 1, k.area(ForResult));
    AfterThen(k, args, last, n, s, FlatEffect(o), r);
  }

  lemma ResultWordsNone(f: Func)
    requires RetPtr(f)
    ensures WasmSignature(GuestImport, f).results == []
  {
  }

  /** The last operand of the core call is the pointer made last. */
  lemma LastWord(k: Ctx, g: Gen, f: Func, args: Chunk, n: Var, s: Machine, r: Lowered)
    requires f.Valid() && RetPtr(f) && args == CallArgsCode(g, GuestImport, f, n) && Yields(k, args, n, s, FlatEffect(Ok(r)))
    requires r.flat != [] && r.flat[|r.flat| - 1] == Core(Pointer, k.area(ForResult))
    ensures args.next > 0 && Points(args.next - 1, k.area(ForResult), args.next, After(k, args, s))
  {
    hide Yields, Run, LowerParamsCode, RetPtr, Size, Align;
    AfterYields(k, args, n, s, CoreOps(r.flat), r.w);
    var env := After(k, args, s).env;
    LookupAt(env, args.outs, |args.outs| - 1);
    var l := LowerParamsCode(g, GuestImport, f, n);
    var space := ResultSpaceCode(g, GuestImport, f, l.next);
    assert space.outs == [l.next] && args.outs == l.outs + space.outs;
  }

  // ----- the two together -----

  /** The caller's core call runs the callee's glue. */
  ghost predicate Linked(kl: Ctx, kr: Ctx, gr: Gen, v: AbiVariant, f: Func)
    requires f.Valid()
  {
    forall cs: seq<Core>, w: World :: kl.callWasm(cs, w) == Callee(kr, gr, v, f, cs, w)
  }

  /** A large result goes into the caller's area for imports, into the callee's for exports. */
  function ResultArea(kl: Ctx, kr: Ctx, v: AbiVariant): nat {
    if v == GuestImport then kl.area(ForResult) else kr.area(ForResult)
  }

  /** The scratch areas are large enough and aligned.  They may overlap, or be one and the same. */
  ghost predicate AreasReady(kl: Ctx, kr: Ctx, v: AbiVariant, f: Func, w: World) {
    && (v == GuestImport && IndirectParams(f) ==> Target(kl.p, f.ParamsTuple(), kl.area(ForParams), w))
    && (RetPtr(f) ==> Target(kl.p, f.ResultTuple(), ResultArea(kl, kr, v), w))
  }

  ghost function Caller(k: Ctx, g: Gen, v: AbiVariant, f: Func, vs: seq<Val>, w: World): Outcome<Machine>
    requires f.Valid()
  {
    Run(k.(args := ValOps(vs)), CallCode(g, v, LowerArgsLiftResults, f, 0).code, Machine(map[], w, []))
  }

  /** The arguments as they arrive at the callee: the words, and the world. */
  ghost function Arrival(k: Ctx, g: Gen, v: AbiVariant, f: Func, vs: seq<Val>, w: World): Outcome<Lowered> {
    LoweredParams(k, g.(own := PassesOwnership(v, LowerArgsLiftResults)), v, f, vs, w)
  }

  /** Called with `vs` where they arrived, the implementation answers.  It may write any byte,
      allocate, and free any block but the one that carries the indirect parameters of an
      export, which its glue frees; the area for a large result stays. */
  ghost predicate Serves(k: Ctx, v: AbiVariant, f: Func, area: nat, vs: seq<Val>, at: Lowered) {
    && Answers(k.p, f, k.callInterface, vs, at.w)
    && var w2 := k.callInterface(vs, at.w).value.w;
       && (v == GuestExport && IndirectParams(f) ==> at.flat != [] && Held(ParamsBlock(k.p, f, at.flat[0]), w2))
       && (RetPtr(f) ==> Mapped(w2.mem, area, Size(k.p, f.ResultTuple())))
  }

  /** Everything that a call needs. */
  ghost predicate Ready(kl: Ctx, kr: Ctx, gl: Gen, gr: Gen, v: AbiVariant, f: Func, vs: seq<Val>, w: World) {
    && f.Valid() && kl.p == gl.p == gr.p == kr.p
    && AllTyped(gl.p, f.params, vs) && AreasReady(kl, kr, v, f, w)
    && var at := Arrival(kl, gl, v, f, vs, w);
       at.Ok? ==> Serves(kr, v, f, ResultArea(kl, kr, v), vs, at.value)
  }

  /** What the implementation answers to `vs` in the world `w`. */
  function Answer(k: Ctx, vs: seq<Val>, w: World): seq<Val>
    requires k.callInterface(vs, w).Ok?
  {
    AnswerVals(k.callInterface(vs, w).value.result)
  }

  /** What leaves the callee: the implementation's answer, lowered after the block of the
      indirect parameters was freed, and the world. */
  ghost function Departure(k: Ctx, v: AbiVariant, f: Func, area: nat, vs: seq<Val>, at: Lowered): Outcome<Lowered>
    requires IndirectParams(f) ==> at.flat != []
  {
    var called :- k.callInterface(vs, at.w);
    var w :- Cleaned(k.p, v, f, at.flat, called.w);
    var answer := AnswerVals(called.result);
    if |answer| == |f.Results()| then LoweredResult(Cfg(k.p, true), v, f, answer, area, w) else Trap
  }

  /** What the arguments take in memory stays with the caller of an import, which keeps it in
      temporary blocks, and is handed over to an export. */
  ghost predicate ArgumentsOwned(v: AbiVariant, w: World, at: Lowered) {
    && Allots(w, at.w, v == GuestExport)
    && (v == GuestImport ==> at.w.live == w.live)
    && (v == GuestExport ==> at.w.temps == w.temps)
  }

  /** What the answer takes in memory is handed over. */
  ghost predicate AnswerOwned(k: Ctx, v: AbiVariant, f: Func, vs: seq<Val>, at: Lowered, w: World)
    requires IndirectParams(f) ==> at.flat != []
  {
    var called := k.callInterface(vs, at.w);
    called.Ok? &&
    var w3 := Cleaned(k.p, v, f, at.flat, called.value.w);
    w3.Ok? && Allots(w3.value, w, true) && w.temps == called.value.w.temps
  }

  lemma ArrivalAllots(k: Ctx, g: Gen, v: AbiVariant, f: Func, vs: seq<Val>, w: World)
    requires Arrival(k, g, v, f, vs, w).Ok?
    ensures ArgumentsOwned(v, w, Arrival(k, g, v, f, vs, w).value)
  {
    hide IndirectParams, StoreFields, LowerFields, Alloc, Appeared, Size, Align;
    var c := Cfg(g.p, v == GuestExport);
    if IndirectParams(f) {
      var sp := ParamsSpace(k, v, f, w).value;
      if v == GuestExport {
        AllocAllots(w, Size(k.p, f.ParamsTuple()), Align(k.p, f.ParamsTuple()), k.p, true);
      } else {
        AllotsNothing(w, sp.w, false);
      }
      FieldsAllot(c, f.params, vs, sp.addr, 0, sp.w);
      AllotsTwice(w, sp.w, Arrival(k, g, v, f, vs, w).value.w, c.own);
    } else {
      LowerFieldsAllot(c, f.params, vs, w);
    }
  }

  lemma DepartureAllots(k: Ctx, v: AbiVariant, f: Func, area: nat, vs: seq<Val>, at: Lowered)
    requires (IndirectParams(f) ==> at.flat != []) && Departure(k, v, f, area, vs, at).Ok?
    ensures AnswerOwned(k, v, f, vs, at, Departure(k, v, f, area, vs, at).value.w)
  {
    hide IndirectParams, RetPtr, StoreFields, LowerFlat, Appeared, Size, Align;
    var called := k.callInterface(vs, at.w).value;
    var w3 := Cleaned(k.p, v, f, at.flat, called.w).value;
    var c := Cfg(k.p, true);
    if RetPtr(f) {
      FieldsAllot(c, f.Results(), AnswerVals(called.result), area, 0, w3);
    } else if f.result.Some? {
      LowerAllots(c, f.result.value, AnswerVals(called.result)[0], w3);
    } else {
      AllotsNothing(w3, w3, true);
    }
  }

  lemma TargetIsMapped(p: PtrSize, t: Ty, a: nat, w: World)
    requires Target(p, t, a, w)
    ensures Mapped(w.mem, a, Size(p, t))
  {
    hide Size, Mapped;
  }

  lemma TargetAgain(p: PtrSize, t: Ty, a: nat, w: World, w1: World)
    requires Target(p, t, a, w) && Mapped(w1.mem, a, Size(p, t))
    ensures Target(p, t, a, w1)
  {
    hide Size, Align, Aligned, Mapped;
  }

  lemma PassesPrefix(k: Ctx, cs: seq<Core>, ds: seq<Core>)
    requires k.args == CoreOps(cs + ds)
    ensures Passes(k, 0, CoreOps(cs)) && Passes(k, |cs|, CoreOps(ds))
  {
    CoreOpsConcat(cs, ds);
  }

  /** The callee's glue called with the caller's words `cs`. */
  lemma CalleeAnswers(kl: Ctx, kr: Ctx, gl: Gen, gr: Gen, v: AbiVariant, f: Func, vs: seq<Val>, w: World)
    requires Ready(kl, kr, gl, gr, v, f, vs, w)
    ensures var o := Arrival(kl, gl, v, f, vs, w);
            && !o.Trap?
            && (o.Ok? ==>
                  && kr.callInterface(vs, o.value.w).Ok? && (IndirectParams(f) ==> o.value.flat != [])
                  &&
                  var ptr := ResultArea(kl, kr, v);
                  var r := Callee(kr, gr, v, f, o.value.flat + RetArg(kl, v, f), o.value.w);
                  && !r.Trap? && r == Departure(kr, v, f, ptr, vs, o.value)
                  && (r.Ok? ==>
                        && |r.value.flat| == |WasmSignature(v, f).results|
                        && (RetPtr(f) && v == GuestExport ==> r.value.flat == [Core(Pointer, ptr)])
                        && LiftedResult(gl.p, f, ptr, r.value.flat, r.value.w.mem) == Ok(Answer(kr, vs, o.value.w))))
  {
    hide Callee, LoweredParams, LoweredResult, LiftedParams, LiftedResult, HasType, Target, Passes, ResultAt, FlatFields, Flat, Held, FreshBlock,
      RetArg, WasmSignature, Cleaned, IndirectParams, Mapped, Size;
    ParamsRoundTrip(kl, gl.(own := PassesOwnership(v, LowerArgsLiftResults)), v, f, vs, w);
    var o := Arrival(kl, gl, v, f, vs, w);
    if o.Ok? {
      var ps, ds := o.value.flat, RetArg(kl, v, f);
      var ptr := ResultArea(kl, kr, v);
      PassesPrefix(kr.(args := CoreOps(ps + ds)), ps, ds);
      RetArgAt(kl, kr, v, f, ps);
      var w2 := kr.callInterface(vs, o.value.w).value.w;
      var answer := Answer(kr, vs, o.value.w);
      if RetPtr(f) { TargetIsMapped(gl.p, f.ResultTuple(), ptr, w); }
      CleanedOk(gl.p, v, f, ps, w, w2, ptr);
      var w3 := Cleaned(gl.p, v, f, ps, w2).value;
      CalleeSim(kr, gr, v, f, ps, ps + ds, vs, ptr, o.value.w);
      if RetPtr(f) { TargetAgain(gl.p, f.ResultTuple(), ptr, w, w3); }
      ResultRoundTrip(Cfg(gl.p, true), v, f, answer, ptr, w3);
      ResultCount(Cfg(gl.p, true), v, f, answer, ptr, w3);
    }
  }

  lemma RetArgAt(kl: Ctx, kr: Ctx, v: AbiVariant, f: Func, ps: seq<Core>)
    requires |ps| == if IndirectParams(f) then 1 else |FlatFields(f.params)|
    ensures RetPtr(f) ==> ResultAt(kr.(args := CoreOps(ps + RetArg(kl, v, f))), v, f, ResultArea(kl, kr, v))
  {
    hide Flat, FlatFields;
    var k := kr.(args := CoreOps(ps + RetArg(kl, v, f)));
    if RetPtr(f) && v == GuestImport {
      assert |WasmSignature(v, f).params| == |ps| + 1;
      var op := CoreOp(Core(Pointer, kl.area(ForResult)));
      assert k.args[|ps|] == op;
      assert k.args[|ps|..|ps| + 1] == [op];
    }
  }

  /** Freeing the parameters does not touch the area for the result, which was there before them. */
  lemma CleanedOk(p: PtrSize, v: AbiVariant, f: Func, ps: seq<Core>, w: World, w2: World, area: nat)
    requires v == GuestExport && IndirectParams(f) ==>
               ps != [] && Held(ParamsBlock(p, f, ps[0]), w2) && FreshBlock(ParamsBlock(p, f, ps[0]), w)
    requires IndirectParams(f) ==> ps != []
    requires RetPtr(f) ==> Mapped(w.mem, area, Size(p, f.ResultTuple())) && Mapped(w2.mem, area, Size(p, f.ResultTuple()))
    ensures Cleaned(p, v, f, ps, w2).Ok?
    ensures RetPtr(f) ==> Mapped(Cleaned(p, v, f, ps, w2).value.mem, area, Size(p, f.ResultTuple()))
  {
    hide IndirectParams, RetPtr, Size, Align;
    if RetPtr(f) && v == GuestExport && IndirectParams(f) {
      var b := ParamsBlock(p, f, ps[0]);
      forall x: nat | area <= x < area + Size(p, f.ResultTuple()) ensures x in Cleaned(p, v, f, ps, w2).value.mem {
        assert x in w.mem && x in w2.mem;
        assert x !in Range(b.addr, b.size);
      }
    }
  }

  lemma ResultCount(c: Cfg, v: AbiVariant, f: Func, vs: seq<Val>, ptr: nat, w: World)
    requires |vs| == |f.Results()|
    ensures var r := LoweredResult(c, v, f, vs, ptr, w);
            r.Ok? && (!RetPtr(f) ==> |r.value.flat| == |ResultFlat(f)|) ==>
              && |r.value.flat| == |WasmSignature(v, f).results|
              && (RetPtr(f) && v == GuestExport ==> r.value.flat == [Core(Pointer, ptr)])
  {
    hide Flat, StoreFields, LowerFlat;
  }

  /** For every synchronous function, in both variants, with direct or indirect parameters
      and a flat or a returned-through-memory result: a linked call never traps, it succeeds
      unless memory runs out on the way in or out, the caller gets the answer that the
      implementation gives to the caller's arguments, and its glue changes nothing in the
      world in which that answer was lowered.  What the arguments take in memory stays the
      caller's for an import, in blocks that the callee never gets to own, and is handed over
      to an export; what the answer takes is handed over. */
  lemma CallIsTransparent(kl: Ctx, kr: Ctx, gl: Gen, gr: Gen, v: AbiVariant, f: Func, vs: seq<Val>, w: World)
    requires Ready(kl, kr, gl, gr, v, f, vs, w) && Linked(kl, kr, gr, v, f)
    ensures var at, r := Arrival(kl, gl, v, f, vs, w), Caller(kl, gl, v, f, vs, w);
            && !at.Trap? && !r.Trap? && (at.Ok? && IndirectParams(f) ==> at.value.flat != [])
            && (r.Ok? <==> at.Ok? && Departure(kr, v, f, ResultArea(kl, kr, v), vs, at.value).Ok?)
            && (at.Ok? ==> ArgumentsOwned(v, w, at.value))
            && (r.Ok? ==>
                  && kr.callInterface(vs, at.value.w).Ok? && r.value.returned == ValOps(Answer(kr, vs, at.value.w))
                  && r.value.w == Departure(kr, v, f, ResultArea(kl, kr, v), vs, at.value).value.w
                  && AnswerOwned(kr, v, f, vs, at.value, r.value.w))
  {
    hide Yields, Run, Callee, LoweredParams, LiftedResult, HasType, FlatFields, Flat, RetArg, WasmSignature, AreasReady, Serves,
      CallWasmCode, LiftResultCode, Points, Passes, RetPtr, IndirectParams, Departure, ArgumentsOwned, AnswerOwned;
    var h := gl.(own := PassesOwnership(v, LowerArgsLiftResults));
    var k := kl.(args := ValOps(vs));
    var s := Machine(map[], w, []);
    var at := Arrival(kl, gl, v, f, vs, w);
    if at.Ok? { ArrivalAllots(kl, gl, v, f, vs, w); }
    ReadyFor(kl, kr, gl, gr, v, f, vs, w);
    CalleeAnswers(k, kr, h, gr, v, f, vs, w);
    var ptr := ResultArea(kl, kr, v);
    AllPassed(k, vs);
    LinkedEffect(k, kr, h, gr, v, f, vs, w);
    var r := CallEffect(k, h, v, f, vs, w);
    var call := CallWasmCode(h, v, f, 0);
    CallWasmSim(k, h, v, f, vs, 0, s);
    var x := ResultPtr(v, f, call);
    LoweringCode(gl, v, f);
    var lifted := LiftResultCode(gl.(own := false), f, x, call.outs, call.next);
    if r.Ok? {
      var ans := Answer(kr, vs, at.value.w);
      DepartureAllots(kr, v, f, ptr, vs, at.value);
      AfterYields(k, call, 0, s, CoreOps(r.value.flat), r.value.w);
      if RetPtr(f) { ResultPtrPoints(k, h, v, f, vs, ptr, 0, s); }
      WordsScoped(h, v, f);
      WordCount(v, f);
      LiftResultSim(k, gl.(own := false), f, x, ptr, call.outs, r.value.flat, call.next, After(k, call, s));
      YieldsThen(k, call, lifted, 0, s, FlatEffect(r), Ok(Effect(ValOps(ans), r.value.w)));
      ReturnSim(k, Then(call, lifted), 0, s, Ok(Effect(ValOps(ans), r.value.w)));
    } else {
      YieldsThen(k, call, lifted, 0, s, FlatEffect(r), FlatEffect(r));
      ReturnSim(k, Then(call, lifted), 0, s, FlatEffect(r));
    }
  }

  /** The arguments of the caller's function are not what its scratch areas depend on. */
  lemma ReadyFor(kl: Ctx, kr: Ctx, gl: Gen, gr: Gen, v: AbiVariant, f: Func, vs: seq<Val>, w: World)
    requires Ready(kl, kr, gl, gr, v, f, vs, w)
    ensures Arrival(kl.(args := ValOps(vs)), gl.(own := PassesOwnership(v, LowerArgsLiftResults)), v, f, vs, w) == Arrival(kl, gl, v, f, vs, w)
    ensures Ready(kl.(args := ValOps(vs)), kr, gl.(own := PassesOwnership(v, LowerArgsLiftResults)), gr, v, f, vs, w)
  {
    hide HasType, Target, Serves, StoreFields, LowerFields, Alloc, RetPtr, IndirectParams;
  }

  lemma AllPassed(k: Ctx, vs: seq<Val>)
    requires k.args == ValOps(vs)
    ensures Passes(k, 0, ValOps(vs))
  {
    assert k.args[0..|vs|] == ValOps(vs);
  }

  lemma LinkedEffect(k: Ctx, kr: Ctx, g: Gen, gr: Gen, v: AbiVariant, f: Func, vs: seq<Val>, w: World)
    requires f.Valid() && Linked(k, kr, gr, v, f)
    ensures var o := LoweredParams(k, g, v, f, vs, w);
            CallEffect(k, g, v, f, vs, w)
            == if o.Ok? then Callee(kr, gr, v, f, o.value.flat + RetArg(k, v, f), o.value.w) else o
  {
    hide Callee, LoweredParams, RetArg;
  }

  lemma LoweringCode(g: Gen, v: AbiVariant, f: Func)
    requires f.Valid()
    ensures var h := g.(own := PassesOwnership(v, LowerArgsLiftResults));
            var call := CallWasmCode(h, v, f, 0);
            && (!RetPtr(f) ==> |call.outs| == |ResultFlat(f)|)
            && var both := Then(call, LiftResultCode(g.(own := false), f, ResultPtr(v, f, call), call.outs, call.next));
               && |both.outs| == |f.Results()|
               && CallCode(g, v, LowerArgsLiftResults, f, 0) == Then(both, One(Return(|both.outs|), both.outs, both.next))
  {
    hide CallWasmCode, LiftResultCode, Flat, One;
  }

  lemma WordsScoped(g: Gen, v: AbiVariant, f: Func)
    requires f.Valid()
    ensures Scoped(CallWasmCode(g, v, f, 0))
  {
    hide CallArgsCode, WasmSignature;
  }

  lemma WordCount(v: AbiVariant, f: Func)
    ensures !RetPtr(f) ==> |WasmSignature(v, f).results| == |ResultFlat(f)|
  {
  }

  // ----- one scratch area -----

  /** The glue of the guest has one area for everything, of at least the size and alignment
      that its backend has recorded for this function. */
  ghost predicate OneArea(kl: Ctx, kr: Ctx, v: AbiVariant, f: Func, size: nat, align: nat, w: World) {
    var k, d := if v == GuestImport then kl else kr, if v == GuestImport then LowerArgsLiftResults else LiftArgsLowerResults;
    && AreaServes(k.p, v, d, f, size, align) && IsAlign(align)
    && k.area(ForParams) == k.area(ForResult)
    && Aligned(k.area(ForResult), align) && Mapped(w.mem, k.area(ForResult), size)
  }

  lemma OneAreaIsReady(kl: Ctx, kr: Ctx, v: AbiVariant, f: Func, size: nat, align: nat, w: World)
    requires kl.p == kr.p && OneArea(kl, kr, v, f, size, align, w)
    ensures AreasReady(kl, kr, v, f, w)
  {
    hide Size, Align, Aligned, Mapped, IndirectParams, RetPtr, Target;
    if v == GuestImport && IndirectParams(f) { PartOfArea(kl.p, f.ParamsTuple(), kl.area(ForParams), size, align, w); }
    if RetPtr(f) { PartOfArea(kl.p, f.ResultTuple(), ResultArea(kl, kr, v), size, align, w); }
  }

  lemma PartOfArea(p: PtrSize, t: Ty, a: nat, size: nat, align: nat, w: World)
    requires IsAlign(align) && Aligned(a, align) && Mapped(w.mem, a, size)
    requires Size(p, t) <= size && Align(p, t) <= align
    ensures Target(p, t, a, w)
  {
    hide Size, Align, Aligned;
    AlignDivides(a, align, Align(p, t));
  }

  /** Moving the result into the area that carried the parameters goes unnoticed: the
      arguments arrive with the same words in the same world, neither run traps, and both
      return what the implementation answers there.  All that can differ is that memory
      runs out in one of them. */
  lemma SharedAreaIsInvisible(kl: Ctx, kr: Ctx, ks: Ctx, kt: Ctx, gl: Gen, gr: Gen, v: AbiVariant, f: Func, vs: seq<Val>, w: World,
                              size: nat, align: nat)
    requires Ready(kl, kr, gl, gr, v, f, vs, w) && Linked(kl, kr, gr, v, f)
    requires OneArea(ks, kt, v, f, size, align, w) && Linked(ks, kt, gr, v, f)
    requires ks.p == kl.p && kt.p == kr.p && kt.callInterface == kr.callInterface
    requires v == GuestImport ==> ks.area(ForParams) == kl.area(ForParams)
    requires var at := Arrival(kl, gl, v, f, vs, w); at.Ok? ==> Serves(kt, v, f, ResultArea(ks, kt, v), vs, at.value)
    ensures Arrival(ks, gl, v, f, vs, w) == Arrival(kl, gl, v, f, vs, w)
    ensures var r, q := Caller(kl, gl, v, f, vs, w), Caller(ks, gl, v, f, vs, w);
            !r.Trap? && !q.Trap? && (r.Ok? && q.Ok? ==> r.value.returned == q.value.returned)
  {
    hide Run, CallCode, HasType, AreasReady, OneArea, Serves, StoreFields, LowerFields, Alloc, IndirectParams, RetPtr, Linked, Departure, ArgumentsOwned, AnswerOwned;
    OneAreaIsReady(ks, kt, v, f, size, align, w);
    assert Arrival(ks, gl, v, f, vs, w) == Arrival(kl, gl, v, f, vs, w);
    CallIsTransparent(kl, kr, gl, gr, v, f, vs, w);
    CallIsTransparent(ks, kt, gl, gr, v, f, vs, w);
  }
}
