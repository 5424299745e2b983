/** The values that cross a call arrive unchanged, whichever way they travel. */
module CallRoundTrip {
  import opened Wrappers
  import opened CoreTypes
  import opened Layout
  import opened Memory
  import opened Values
  import opened CanonicalAbi
  import opened AbiFrame
  import opened AbiRoundTrip
  import opened AbiLift
  import opened AbiSafe
  import opened Code
  import opened Codegen
  import opened SimLower
  import opened CallCodegen
  import opened CallSim

  lemma KeepsSelf(w0: World, w1: World, a: nat, n: nat)
    ensures Keeps(w0, w1, a, n, w1.mem)
  {
  }

  /** What running code may do to the world between lowering and lifting: nothing goes away. */
  ghost predicate Extends(w0: World, w1: World) {
    w0.mem.Keys <= w1.mem.Keys && w0.live <= w1.live
  }

  /** `vs` were stored like the fields of a record at `a`, and are found there again. */
  lemma FieldsRoundTrip(c: Cfg, tys: seq<Ty>, vs: seq<Val>, a: nat, w: World)
    requires AllWellFormed(tys) && AllTyped(c.p, tys, vs) && Target(c.p, Record(TupleType, tys), a, w)
    ensures var r := StoreFields(c, tys, vs, a, 0, w);
            !r.Trap? && (r.Ok? ==> LoadFields(c.p, tys, a, 0, r.value.mem) == Ok(vs) && Extends(w, r.value))
  {
    hide Store, Load, Size, Align, HasType, WellFormed, Keeps, Mapped, Aligned, Grows;
    var n := Size(c.p, Record(TupleType, tys));
    TupleLayout(c.p, tys);
    FieldsSafe(c, tys, vs, a, 0, w, a, n, FieldsAlign(c.p, tys));
    var r := StoreFields(c, tys, vs, a, 0, w);
    if r.Ok? {
      FieldsFrame(c, tys, vs, a, 0, w);
      GrowsExtends(w, r.value, a, FieldsEnd(c.p, tys, 0));
      KeepsSelf(w, r.value, a, n);
      LoadFieldsAfterStore(c, tys, vs, a, 0, w, r.value.mem, a, n);
    }
  }

  lemma TupleLayout(p: PtrSize, tys: seq<Ty>)
    ensures FieldsEnd(p, tys, 0) <= Size(p, Record(TupleType, tys)) && Align(p, Record(TupleType, tys)) == FieldsAlign(p, tys)
  {
  }

  lemma GrowsExtends(w0: World, w1: World, a: nat, n: nat)
    requires Grows(w0, w1, a, n)
    ensures Extends(w0, w1)
  {
  }

  /** `vs` were lowered to flat words, and are lifted from them again. */
  lemma FlatFieldsRoundTrip(c: Cfg, tys: seq<Ty>, vs: seq<Val>, w: World)
    requires AllWellFormed(tys) && AllTyped(c.p, tys, vs)
    ensures var r := LowerFields(c, tys, vs, w);
            !r.Trap? && (r.Ok? ==> |r.value.flat| == |FlatFields(tys)| && LiftFields(c.p, tys, r.value.flat, r.value.w.mem) == Ok(vs)
                                   && Extends(w, r.value.w))
  {
    hide LowerFlat, LiftFlat, HasType, WellFormed, Keeps, Grows, Flat;
    LowerFieldsSafe(c, tys, vs, w);
    var r := LowerFields(c, tys, vs, w);
    if r.Ok? {
      LowerFieldsFrame(c, tys, vs, w);
      GrowsExtends(w, r.value.w, 0, 0);
      KeepsSelf(w, r.value.w, 0, 0);
      LiftFieldsAfterLower(c, tys, vs, w, r.value.w.mem);
    }
  }

  // ----- parameters -----

  /** The block that carries the indirect parameters of an export. */
  function ParamsBlock(p: PtrSize, f: Func, x: Core): Block {
    Block(x.bits, Size(p, f.ParamsTuple()), Align(p, f.ParamsTuple()))
  }

  /** A block that may be freed; an empty one is none at all. */
  predicate Held(b: Block, w: World) {
    b.size > 0 ==> b in w.live
  }

  /** A block where nothing was in use before. */
  ghost predicate FreshBlock(b: Block, w: World) {
    forall x: nat | b.addr <= x < b.addr + b.size :: x !in w.mem
  }

  /** The arguments reach the callee, in registers or in memory. */
  lemma ParamsRoundTrip(k: Ctx, g: Gen, v: AbiVariant, f: Func, vs: seq<Val>, w: World)
    requires k.p == g.p && f.Valid() && AllTyped(g.p, f.params, vs)
    requires v == GuestImport && IndirectParams(f) ==> Target(g.p, f.ParamsTuple(), k.area(ForParams), w)
    ensures var r := LoweredParams(k, g, v, f, vs, w);
            && !r.Trap?
            && (r.Ok? ==>
                  var cs := r.value.flat;
                  && |cs| == (if IndirectParams(f) then 1 else |FlatFields(f.params)|)
                  && (IndirectParams(f) ==> cs[0].ty == Pointer)
                  && LiftedParams(g.p, f, cs, r.value.w.mem) == Ok(vs)
                  && w.mem.Keys <= r.value.w.mem.Keys
                  && (v == GuestExport && IndirectParams(f) ==> Held(ParamsBlock(g.p, f, cs[0]), r.value.w) && FreshBlock(ParamsBlock(g.p, f, cs[0]), w)))
  {
    hide LowerFields, LiftFields, StoreFields, LoadFields, Size, Align, AllTyped, Held, FreshBlock, FlatFields, Alloc, Mapped, Aligned, Target;
    var c := CfgOf(g);
    if !IndirectParams(f) {
      FlatFieldsRoundTrip(c, f.params, vs, w);
    } else if v == GuestImport {
      FieldsRoundTrip(c, f.params, vs, k.area(ForParams), w);
    } else {
      var size, align := Size(g.p, f.ParamsTuple()), Align(g.p, f.ParamsTuple());
      var al := Alloc(w, size, align, g.p, true);
      if al.Ok? {
        FreshTarget(g.p, f, w);
        FieldsRoundTrip(c, f.params, vs, al.value.addr, al.value.w);
        var r := StoreFields(c, f.params, vs, al.value.addr, 0, al.value.w);
        if r.Ok? { BlockHeld(g.p, f, w, r.value); }
      } else {
        AllocNeverTraps(w, size, align, g.p);
      }
    }
  }

  lemma AllocNeverTraps(w: World, size: nat, align: nat, p: PtrSize)
    ensures !Alloc(w, size, align, p, true).Trap?
  {
  }

  lemma FreshTarget(p: PtrSize, f: Func, w: World)
    requires Alloc(w, Size(p, f.ParamsTuple()), Align(p, f.ParamsTuple()), p, true).Ok?
    ensures var al := Alloc(w, Size(p, f.ParamsTuple()), Align(p, f.ParamsTuple()), p, true).value;
            Target(p, f.ParamsTuple(), al.addr, al.w) && w.mem.Keys <= al.w.mem.Keys
  {
    hide Size, Align, Aligned;
    AllocGrows(w, Size(p, f.ParamsTuple()), Align(p, f.ParamsTuple()), p, true);
  }

  lemma BlockHeld(p: PtrSize, f: Func, w: World, w1: World)
    requires Alloc(w, Size(p, f.ParamsTuple()), Align(p, f.ParamsTuple()), p, true).Ok?
    requires Extends(Alloc(w, Size(p, f.ParamsTuple()), Align(p, f.ParamsTuple()), p, true).value.w, w1)
    ensures var b := ParamsBlock(p, f, Core(Pointer, Alloc(w, Size(p, f.ParamsTuple()), Align(p, f.ParamsTuple()), p, true).value.addr));
            Held(b, w1) && FreshBlock(b, w)
  {
    hide Size, Align, Aligned;
  }

  // ----- results -----

  /** The result reaches the caller, in a register or in memory. */
  lemma ResultRoundTrip(c: Cfg, v: AbiVariant, f: Func, vs: seq<Val>, ptr: nat, w: World)
    requires f.Valid() && AllTyped(c.p, f.Results(), vs)
    requires RetPtr(f) ==> Target(c.p, f.ResultTuple(), ptr, w)
    ensures var r := LoweredResult(c, v, f, vs, ptr, w);
            && !r.Trap?
            && (r.Ok? ==>
                  && (!RetPtr(f) ==> |r.value.flat| == |ResultFlat(f)|)
                  && LiftedResult(c.p, f, ptr, r.value.flat, r.value.w.mem) == Ok(vs))
  {
    hide LowerFlat, LiftFlat, StoreFields, LoadFields, Size, Align, Flat, Mapped, Aligned, Target, HasType, WellFormed;
    if RetPtr(f) {
      FieldsRoundTrip(c, f.Results(), vs, ptr, w);
    } else if f.result.Some? {
      SmallRoundTrip(c, f.result.value, vs[0], w);
      assert vs == [vs[0]];
    } else {
      assert vs == [];
    }
  }

  lemma SmallRoundTrip(c: Cfg, t: Ty, v: Val, w: World)
    requires WellFormed(t) && HasType(c.p, t, v)
    ensures var r := LowerFlat(c, t, v, w);
            !r.Trap? && (r.Ok? ==> |r.value.flat| == |Flat(t)| && LiftFlat(c.p, t, r.value.flat, r.value.w.mem) == Ok(v))
  {
    hide LowerFlat, LiftFlat, HasType, WellFormed, Flat, Keeps;
    LowerSafe(c, t, v, w);
    var r := LowerFlat(c, t, v, w);
    if r.Ok? {
      KeepsSelf(w, r.value.w, 0, 0);
      LiftAfterLower(c, t, v, w, r.value.w.mem);
    }
  }
}
