/** When deallocation gives back all that was allocated, and post-return clean-up. */
module PostReturn {
  import opened Wrappers
  import opened CoreTypes
  import opened Layout
  import opened Memory
  import opened Values
  import opened CanonicalAbi
  import opened AbiFrame
  import opened AbiSafe
  import opened Code
  import opened Codegen
  import opened Simulation
  import opened SimLower
  import opened DeallocCodegen
  import opened Freeing
  import opened Shares
  import opened SimFree
  import opened CallCodegen
  import opened CallSim
  import opened CallRoundTrip
  import opened Transparency

  // ----- `Lists` drops no handle -----

  lemma {:induction false} ListsDropNothing(t: Ty, v: Val)
    ensures Handles(t, v, Lists) == []
    decreases t, 1
  {
    match t
    case Alias(u) => ListsDropNothing(u, v);
    case List(e) => if v.ListV? { ElemsDropNothing(e, v.elems); }
    case Map(e) => if v.ListV? { ElemsDropNothing(e, v.elems); }
    case FixedList(e, _) => if v.ListV? { ElemsDropNothing(e, v.elems); }
    case Record(_, fs) => if v.RecordV? { FieldsDropNothing(fs, v.fields); }
    case Variant(_, arms) =>
      if v.VariantV? && v.arm < |arms| && arms[v.arm].Some? && v.payload.Some? {
        ListsDropNothing(arms[v.arm].value, v.payload.value);
      }
    case _ =>
  }

  lemma {:induction false} ElemsDropNothing(e: Ty, vs: seq<Val>)
    ensures ElemHandles(e, vs, Lists) == []
    decreases e, |vs| + 2
  {
    if vs != [] {
      ListsDropNothing(e, vs[0]);
      ElemsDropNothing(e, vs[1..]);
    }
  }

  lemma {:induction false} FieldsDropNothing(fs: seq<Ty>, vs: seq<Val>)
    ensures FieldHandles(fs, vs, Lists) == []
    decreases fs, 0
  {
    if fs != [] && vs != [] {
      ListsDropNothing(fs[0], vs[0]);
      FieldsDropNothing(fs[1..], vs[1..]);
    }
  }

  // ----- all or less -----

  /** For every type: indirect deallocation frees each block that storing the value allocated,
      drops each handle, and nothing else, if and only if every fixed-length list in the value
      owns nothing. */
  lemma FreesAllIfVisited(k: Ctx, g: Gen, what: Deallocate, t: Ty, v: Val, x: Var, addr: nat, off: nat, w0: World, n: Var, s: Machine)
    requires k.p == g.p && Points(x, addr, n, s) && Debt(g, t, v, addr + off, w0, s.w)
    ensures var w1 := StoreEnd(Owning(g), t, v, addr + off, w0);
            var r := Run(k, FreeCode(g, what, t, x, off, n).code, s);
            r.Ok? && (r.value.w == Freed(w0, w1, s.w, Handles(t, v, what)) <==> Visited(g.p, t, v, what))
  {
    hide Run, Yields, FreeCode, Store, StoreEnd, WellFormed, Size, Freed, Handles, Visited, Points, Debt, Rest, Keeps;
    DebtShape(g, t, v, addr + off, w0, s.w);
    FreeSim(k, g, what, t, v, x, addr, off, w0, n, s);
    AfterYields(k, FreeCode(g, what, t, x, off, n), n, s, [], Rest(g, what, t, v, addr + off, w0, s.w));
    RestIsAll(g, what, t, v, addr + off, w0, s.w);
  }

  lemma RestIsAll(g: Gen, what: Deallocate, t: Ty, v: Val, a: nat, w0: World, w: World)
    requires Debt(g, t, v, a, w0, w)
    ensures Rest(g, what, t, v, a, w0, w) == Freed(w0, StoreEnd(Owning(g), t, v, a, w0), w, Handles(t, v, what)) <==> Visited(g.p, t, v, what)
  {
    hide Store, StoreEnd, Freed, Released, Takes, Handles, Visited, Settles, Owing, Mapped, Size, Keeps, HasType, WellFormed;
    DebtShape(g, t, v, a, w0, w);
    var w1 := StoreEnd(Owning(g), t, v, a, w0);
    TakesAllThatIsVisited(Owning(g), what, t, v, a, w0);
    StillMapped(w0, w1, a, Size(g.p, t), w);
    PaidIfWhole(Takes(Owning(g), what, t, v, a, w0), w0, w1, w, Handles(t, v, what), Visited(g.p, t, v, what));
  }

  lemma DebtShape(g: Gen, t: Ty, v: Val, a: nat, w0: World, w: World)
    requires Debt(g, t, v, a, w0, w)
    ensures WellFormed(t) && Store(Owning(g), t, v, a, w0) == Ok(StoreEnd(Owning(g), t, v, a, w0))
    ensures Keeps(w0, StoreEnd(Owning(g), t, v, a, w0), a, Size(g.p, t), w.mem)
  {
    hide Store, Keeps, Mapped, Owing, HasType, WellFormed, Size;
  }

  lemma StillMapped(w0: World, w1: World, a: nat, n: nat, w: World)
    requires Keeps(w0, w1, a, n, w.mem)
    ensures w1.mem.Keys - w0.mem.Keys <= w.mem.Keys
  {
    forall x | x in w1.mem.Keys - w0.mem.Keys ensures x in w.mem.Keys { assert x in w1.mem && x !in w0.mem; }
  }

  /** The same for flat deallocation. */
  lemma DeallocatesAllIfVisited(k: Ctx, g: Gen, what: Deallocate, t: Ty, v: Val, xs: seq<Var>, w0: World, n: Var, s: Machine)
    requires k.p == g.p && FlatDebt(g, t, v, w0, s.w) && Unfixed(t) && HoldsLowered(k, g, t, v, w0, xs, n, s)
    ensures |xs| == |Flat(t)|
    ensures var r := Run(k, DeallocCode(g, what, t, xs, n).code, s);
            r.Ok? && (r.value.w == Freed(w0, FlatEnd(Owning(g), t, v, w0), s.w, Handles(t, v, what)) <==> Visited(g.p, t, v, what))
  {
    hide Run, Yields, LowerFlat, Freed, Released, FlatTakes, Handles, Visited, Settles, Owing, Unfixed;
    DeallocSim(k, g, what, t, v, xs, w0, n, s);
    AfterYields(k, DeallocCode(g, what, t, xs, n), n, s, [], FlatRest(g, what, t, v, w0, s.w));
    FlatTakesAllThatIsVisited(Owning(g), what, t, v, w0);
    StillMapped(w0, FlatEnd(Owning(g), t, v, w0), 0, 0, s.w);
    PaidIfWhole(FlatTakes(Owning(g), what, t, v, w0), w0, FlatEnd(Owning(g), t, v, w0), s.w, Handles(t, v, what), Visited(g.p, t, v, what));
  }

  /** A fixed-length list of one non-empty string keeps the string's block, in both modes. */
  lemma FixedListOfStringsLeaks(k: Ctx, g: Gen, what: Deallocate, x: Var, addr: nat, off: nat, w0: World, n: Var, s: Machine)
    requires k.p == g.p && Points(x, addr, n, s) && Debt(g, FixedList(Str, 1), ListV([StrV([7])]), addr + off, w0, s.w)
    ensures var t, v := FixedList(Str, 1), ListV([StrV([7])]);
            var r := Run(k, FreeCode(g, what, t, x, off, n).code, s);
            && !Visited(g.p, t, v, what) && r == Ok(s)
            && r.value.w != Freed(w0, StoreEnd(Owning(g), t, v, addr + off, w0), s.w, Handles(t, v, what))
  {
    hide Run, Store, Freed, Points, Owing, Keeps, Mapped;
    var t, v := FixedList(Str, 1), ListV([StrV([7])]);
    assert Owns(g.p, Str, v.elems[0], what);
    FreesAllIfVisited(k, g, what, t, v, x, addr, off, w0, n, s);
    NothingRuns(k, g, what, Str, 1, x, off, n, s);
  }

  lemma NothingRuns(k: Ctx, g: Gen, what: Deallocate, e: Ty, len: nat, x: Var, off: nat, n: Var, s: Machine)
    requires WellFormed(FixedList(e, len))
    ensures Run(k, FreeCode(g, what, FixedList(e, len), x, off, n).code, s) == Ok(s)
  {
    hide NeedsDeallocate, WellFormed;
  }

  // ----- which functions have something to return to -----

  /** A buffer takes two words, so a result with one is returned through memory: for those,
      the assertion of `post_return` holds. */
  lemma BuffersNeedAPointer(f: Func, u: Ty)
    requires f.Valid() && f.result.Some? && Carries(f.result.value, u) && (u.Str? || u.List? || u.Map?)
    ensures RetPtr(f)
  {
    hide Flat, Carries;
    TwoWords(f.result.value, u);
  }

  lemma {:induction false} TwoWords(t: Ty, u: Ty)
    requires WellFormed(t) && Carries(t, u) && (u.Str? || u.List? || u.Map?)
    ensures |Flat(t)| > 1
    decreases t
  {
    hide FlatFields, FlatArms;
    match t
    case Alias(x) => TwoWords(x, u);
    case FixedList(e, n) =>
      TwoWords(e, u);
      assert Flat(t) == Flat(e) + FlatRepeat(e, n - 1);
    case Record(_, fs) =>
      var i :| 0 <= i < |fs| && Carries(fs[i], u);
      TwoWords(fs[i], u);
      FieldFlat(fs, i);
    case Variant(_, arms) =>
      var i :| 0 <= i < |arms| && ArmCarries(arms[i], u);
      assert arms[i] in arms;
      TwoWords(arms[i].value, u);
      ArmBelow(arms, i);
    case _ =>
  }

  /** A function that needs post-return without a pointer has nothing but error contexts to
      show for it. */
  lemma OnlyErrorContexts(f: Func)
    requires f.Valid() && f.result.Some? && NeedsDeallocate(f.result.value, Lists) && !RetPtr(f)
    ensures Carries(f.result.value, Scalar(ErrorContext))
    ensures forall u | Carries(f.result.value, u) && Visits(u, Lists) :: u == Scalar(ErrorContext)
  {
    hide Carries, NeedsDeallocate, RetPtr;
    NeedsIsExact(f.result.value, Lists);
    forall u | Carries(f.result.value, u) && Visits(u, Lists) ensures u == Scalar(ErrorContext) {
      if u != Scalar(ErrorContext) { BuffersNeedAPointer(f, u); }
    }
  }

  /** And there is one: a bare error context. */
  lemma BareErrorContextHasNoPointer()
    ensures var f := Func([], Some(Scalar(ErrorContext)));
            f.Valid() && NeedsDeallocate(f.result.value, Lists) && !RetPtr(f)
  {
  }

  // ----- post_return -----

  /** A large result stored at `ptr`, from `w3` to `w4`, is still there in `w`. */
  ghost predicate ResultHeld(p: PtrSize, f: Func, vs: seq<Val>, ptr: nat, w3: World, w4: World, w: World) {
    && f.Valid() && AllTyped(p, f.Results(), vs)
    && Target(p, f.ResultTuple(), ptr, w3)
    && StoreFields(Cfg(p, true), f.Results(), vs, ptr, 0, w3) == Ok(w4)
    && Keeps(w3, w4, ptr, Size(p, f.ResultTuple()), w.mem) && Owing(w3, w4, w)
  }

  lemma HeldIsDebt(g: Gen, f: Func, vs: seq<Val>, ptr: nat, w3: World, w4: World, w: World)
    requires ResultHeld(g.p, f, vs, ptr, w3, w4, w)
    ensures FieldsDebt(g, f.Results(), vs, ptr, 0, w3, w, ptr, Size(g.p, f.ResultTuple()))
    ensures FieldsEndWorld(Owning(g), f.Results(), vs, ptr, 0, w3) == w4
  {
    hide Size, Align, HasType, WellFormed, Keeps, Owing, StoreFields;
    TupleLayout(g.p, f.Results());
  }

  /** Post-return frees each block that lowering the result allocated, and nothing else, if
      and only if every fixed-length list in the result owns nothing; it drops no handle. */
  lemma PostReturnFreesTheResult(k: Ctx, g: Gen, f: Func, vs: seq<Val>, ptr: nat, w3: World, w4: World, w: World)
    requires k.p == g.p && ResultHeld(g.p, f, vs, ptr, w3, w4, w) && k.args == [CoreOp(Core(Pointer, ptr))]
    ensures var r := Run(k, PostReturnCode(g, f, 0).code, Machine(map[], w, []));
            && r.Ok? && r.value.returned == [] && r.value.w == Released(w, FieldsTake(Owning(g), Lists, f.Results(), vs, ptr, 0, w3))
            && (r.value.w == Freed(w3, w4, w, []) <==> FieldsVisited(g.p, f.Results(), vs, Lists))
  {
    hide Yields, Run, FreeFieldsCode, FieldsDebt, Freed, Released, Points, ResultHeld, FieldsTake, FieldsVisited, Settles, One;
    assert f.Valid() by { HeldShape(g, f, vs, ptr, w3, w4, w); }
    var s := Machine(map[], w, []);
    var a := One(GetArg(0), [], 0);
    var here := Effect([CoreOp(Core(Pointer, ptr))], w);
    ArgSim(k, 0, 0, s);
    Left(k, a, 0, s, here.outs[0], w);
    var s1 := After(k, a, s);
    MakePoints(a.outs[0], ptr, a.next, s1);
    HeldIsDebt(g, f, vs, ptr, w3, w4, w);
    var c := FreeFieldsCode(g, Lists, f.Results(), a.outs[0], 0, 0, a.next);
    FreeFieldsSim(k, g, Lists, f.Results(), vs, a.outs[0], ptr, 0, 0, w3, a.next, s1, ptr, Size(g.p, f.ResultTuple()));
    var taken := FieldsTake(Owning(g), Lists, f.Results(), vs, ptr, 0, w3);
    var end := Silent(Released(w, taken));
    YieldsThen(k, a, c, 0, s, Ok(here), end);
    ReturnSim(k, Then(a, c), 0, s, end);
    HeldShape(g, f, vs, ptr, w3, w4, w);
    PaidIfWhole(taken, w3, w4, w, [], FieldsVisited(g.p, f.Results(), vs, Lists));
  }

  lemma HeldShape(g: Gen, f: Func, vs: seq<Val>, ptr: nat, w3: World, w4: World, w: World)
    requires ResultHeld(g.p, f, vs, ptr, w3, w4, w)
    ensures f.Valid() && Owing(w3, w4, w) && w4.mem.Keys - w3.mem.Keys <= w.mem.Keys
    ensures Settles(FieldsTake(Owning(g), Lists, f.Results(), vs, ptr, 0, w3), w3, w4, [], FieldsVisited(g.p, f.Results(), vs, Lists))
  {
    hide StoreFields, FieldsTake, FieldsVisited, Settles, HasType, WellFormed, Target, Owing, Size;
    StillMapped(w3, w4, ptr, Size(g.p, f.ResultTuple()), w);
    FieldsTakeAll(Owning(g), Lists, f.Results(), vs, ptr, 0, w3);
    FieldsDropNothing(f.Results(), vs);
  }

  /** An exported function and its post-return: running the glue, and then post-return on the
      pointer it returned, drops no handle, and ends with the blocks and the memory that the
      implementation left if and only if every fixed-length list in the answer owns nothing. */
  lemma ExportThenPostReturn(k: Ctx, g: Gen, f: Func, ps: seq<Core>, vs: seq<Val>, w: World, w3: World)
    requires k.p == g.p && f.Valid() && RetPtr(f) && |ps| == (if IndirectParams(f) then 1 else |FlatFields(f.params)|)
    requires IndirectParams(f) ==> ps[0].ty == Pointer
    requires LiftedParams(g.p, f, ps, w.mem) == Ok(vs) && |vs| == |f.params|
    requires Answers(g.p, f, k.callInterface, vs, w)
    requires Cleaned(g.p, GuestExport, f, ps, k.callInterface(vs, w).value.w) == Ok(w3)
    requires Target(g.p, f.ResultTuple(), k.area(ForResult), w3) && Sound(w3)
    ensures var r := Callee(k, g, GuestExport, f, ps, w);
            && !r.Trap?
            && (r.Ok? ==>
                  && r.value.flat == [Core(Pointer, k.area(ForResult))]
                  && var q := Run(k.(args := CoreOps(r.value.flat)), PostReturnCode(g, f, 0).code, Machine(map[], r.value.w, []));
                     && q.Ok? && q.value.w.dropped == r.value.w.dropped
                     && (q.value.w.live == w3.live && q.value.w.mem.Keys == w3.mem.Keys
                         <==> FieldsVisited(g.p, f.Results(), Answer(k, vs, w), Lists)))
  {
    hide Run, Callee, PostReturnCode, LiftedParams, HasType, WellFormed, StoreFields, Target, FlatFields, Flat, IndirectParams,
      Cleaned, RetPtr, Size, Align, Mapped;
    var ptr, ans := k.area(ForResult), Answer(k, vs, w);
    AllWords(k, ps);
    CalleeSim(k, g, GuestExport, f, ps, ps, vs, ptr, w);
    FieldsRoundTrip(Cfg(g.p, true), f.Results(), ans, ptr, w3);
    var st := StoreFields(Cfg(g.p, true), f.Results(), ans, ptr, 0, w3);
    if st.Ok? {
      HeldNow(g.p, f, ans, ptr, w3, st.value);
      assert CoreOps([Core(Pointer, ptr)]) == [CoreOp(Core(Pointer, ptr))];
      PostReturnFreesTheResult(k.(args := CoreOps([Core(Pointer, ptr)])), g, f, ans, ptr, w3, st.value, st.value);
      HeldShape(g, f, ans, ptr, w3, st.value, st.value);
      ReleasedBack(FieldsTake(Owning(g), Lists, f.Results(), ans, ptr, 0, w3), w3, st.value, FieldsVisited(g.p, f.Results(), ans, Lists));
    }
  }

  lemma AllWords(k: Ctx, ps: seq<Core>)
    ensures Passes(k.(args := CoreOps(ps)), 0, CoreOps(ps))
  {
    assert CoreOps(ps)[0..|ps|] == CoreOps(ps);
  }

  lemma HeldNow(p: PtrSize, f: Func, vs: seq<Val>, ptr: nat, w3: World, w4: World)
    requires f.Valid() && AllTyped(p, f.Results(), vs)
    requires Target(p, f.ResultTuple(), ptr, w3) && StoreFields(Cfg(p, true), f.Results(), vs, ptr, 0, w3) == Ok(w4) && Sound(w3)
    ensures ResultHeld(p, f, vs, ptr, w3, w4, w4) && w3.mem.Keys <= w4.mem.Keys && w3.live <= w4.live
  {
    hide StoreFields, HasType, WellFormed, Target, Size, Align;
    FieldsFrame(Cfg(p, true), f.Results(), vs, ptr, 0, w3);
  }

  lemma ReleasedBack(s: Share, w0: World, w1: World, fully: bool)
    requires w0.mem.Keys <= w1.mem.Keys && w0.live <= w1.live && Settles(s, w0, w1, [], fully)
    ensures Released(w1, s).dropped == w1.dropped
    ensures Released(w1, s).live == w0.live && Released(w1, s).mem.Keys == w0.mem.Keys <==> fully
  {
    var r := Released(w1, s);
    assert w1.dropped + [] == w1.dropped;
    assert r.mem.Keys == w1.mem.Keys - s.bytes;
    if r.live == w0.live && r.mem.Keys == w0.mem.Keys {
      assert s.bytes == w1.mem.Keys - w0.mem.Keys && s.blocks == w1.live - w0.live;
    }
  }
}
