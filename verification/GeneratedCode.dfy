/** What the emitted code guarantees, stated about the code itself. */
module GeneratedCode {
  import opened Wrappers
  import opened CoreTypes
  import opened Layout
  import opened Memory
  import opened Values
  import opened CanonicalAbi
  import opened AbiFrame
  import opened AbiFlat
  import opened AbiRoundTrip
  import opened AbiLift
  import opened AbiSafe
  import opened Code
  import opened Codegen
  import opened Simulation
  import opened SimLower
  import opened SimLift

  /** Storing code, run on a typed value and an aligned, mapped target: it does not trap;
      it changes no byte outside the target and the blocks it allocates; and loading code
      (of any backend), run in any later memory that kept those bytes, reads the value back. */
  lemma WriteThenRead(k: Ctx, g: Gen, r: Gen, t: Ty, v: Val, x: Var, a: Var, addr: nat, off: nat, n: Var, s: Machine,
                      k2: Ctx, b: Var, m: Var, s2: Machine)
    requires Holds(k, g, t, v, x, n, s) && Points(a, addr, n, s) && Target(g.p, t, addr + off, s.w)
    requires k2.p == r.p == g.p && Points(b, addr, m, s2)
    ensures var w := Run(k, WriteCode(g, t, x, a, off, n).code, s);
            && !w.Trap?
            && (w.Ok? ==>
                  && Grows(s.w, w.value.w, addr + off, Size(g.p, t))
                  && (Keeps(s.w, w.value.w, addr + off, Size(g.p, t), s2.w.mem) ==>
                        Yields(k2, ReadCode(r, t, b, off, m), m, s2, Ok(Effect([ValOp(v)], s2.w)))))
  {
    hide Run, WriteCode, ReadCode, Store, Load, HasType, WellFormed, Grows, Keeps, Mapped, Aligned, Size, Align, Points;
    WriteSim(k, g, t, v, x, a, addr, off, n, s);
    StoreSafe(CfgOf(g), t, v, addr + off, s.w);
    var st := Store(CfgOf(g), t, v, addr + off, s.w);
    if st.Ok? {
      StoreFrame(CfgOf(g), t, v, addr + off, s.w);
      if Keeps(s.w, st.value, addr + off, Size(g.p, t), s2.w.mem) {
        LoadAfterStore(CfgOf(g), t, v, addr + off, s.w, s2.w.mem);
        ReadSim(k2, r, t, b, addr, off, m, s2);
      }
    }
  }

  /** Lowering code replaces its operand by words typed as flattening announces; lifting
      code, run on those words in any later memory that kept the buffers, gives the value back. */
  lemma LowerThenLift(k: Ctx, g: Gen, r: Gen, t: Ty, v: Val, x: Var, n: Var, s: Machine, k2: Ctx, ys: seq<Var>, m: Var, s2: Machine,
                      fs: seq<Core>)
    requires Holds(k, g, t, v, x, n, s) && k2.p == r.p == g.p
    requires HoldsFlat(k2, r, Flat(t), fs, ys, m, s2)
    ensures var c := LowerCode(g, t, x, n);
            var w := Run(k, c.code, s);
            && !w.Trap?
            && (w.Ok? ==>
                  && Grows(s.w, w.value.w, 0, 0)
                  && (exists ws :: Lookup(w.value.env, c.outs) == Ok(CoreOps(ws)) && Typed(ws, Flat(t), g.p)
                                   && (ws == fs && Keeps(s.w, w.value.w, 0, 0, s2.w.mem) ==>
                                         Yields(k2, LiftCode(r, t, ys, m), m, s2, Ok(Effect([ValOp(v)], s2.w))))))
  {
    hide Run, LowerCode, LiftCode, LowerFlat, LiftFlat, HasType, WellFormed, Grows, Keeps, Flat, HoldsFlat, Typed;
    LowerSim(k, g, t, v, x, n, s);
    LowerSafe(CfgOf(g), t, v, s.w);
    var o := LowerFlat(CfgOf(g), t, v, s.w);
    if o.Ok? {
      var ws := o.value.flat;
      LowerTyped(CfgOf(g), t, v, s.w);
      LowerFrame(CfgOf(g), t, v, s.w);
      if ws == fs && Keeps(s.w, o.value.w, 0, 0, s2.w.mem) {
        LiftAfterLower(CfgOf(g), t, v, s.w, s2.w.mem);
        LiftSim(k2, r, t, fs, ys, m, s2);
      }
      assert Lookup(Run(k, LowerCode(g, t, x, n).code, s).value.env, LowerCode(g, t, x, n).outs) == Ok(CoreOps(ws));
    }
  }

  /** A map is stored, and loaded, exactly as the list of its key-value tuples is. */
  lemma MapsAreListsOfTuples(k: Ctx, g: Gen, e: Ty, v: Val, x: Var, a: Var, addr: nat, off: nat, n: Var, s: Machine)
    requires Holds(k, g, Map(e), v, x, n, s) && Points(a, addr, n, s)
    ensures WellFormed(List(e))
    ensures var m := Run(k, WriteCode(g, Map(e), x, a, off, n).code, s);
            var l := Run(k, WriteCode(g, List(e), x, a, off, n).code, s);
            && m.Ok? == l.Ok? && m.Trap? == l.Trap? && (m.Ok? ==> m.value.w == l.value.w)
    ensures Load(g.p, Map(e), addr + off, s.w.mem) == Load(g.p, List(e), addr + off, s.w.mem)
  {
    hide Run, WriteCode, StoreList, Points, LoadElems, LoadInt, StorePair;
    assert Holds(k, g, List(e), v, x, n, s);
    WriteSim(k, g, Map(e), v, x, a, addr, off, n, s);
    WriteSim(k, g, List(e), v, x, a, addr, off, n, s);
    assert Store(CfgOf(g), Map(e), v, addr + off, s.w) == Store(CfgOf(g), List(e), v, addr + off, s.w);
  }
}
