/** Which handles deallocation drops, said of the scalars of a value. */
module HandleLeaves {
  import opened Wrappers
  import opened CoreTypes
  import opened Layout
  import opened Memory
  import opened Values
  import opened CanonicalAbi
  import opened Code
  import opened Codegen
  import opened Simulation
  import opened SimLower
  import opened DeallocCodegen
  import opened Freeing
  import opened Shares
  import opened SimFree

  // ----- the scalars of a value -----

  datatype Leaf = Leaf(prim: Prim, number: int)

  /** The scalars of `v` in order; those in fixed-length lists only if `fixed`. */
  function Leaves(t: Ty, v: Val, fixed: bool): seq<Leaf>
    decreases t, 1
  {
    match t
    case Scalar(p) => if v.Num? then [Leaf(p, v.n)] else []
    case Alias(u) => Leaves(u, v, fixed)
    case List(e) => if v.ListV? then ElemLeaves(e, v.elems, fixed) else []
    case Map(e) => if v.ListV? then ElemLeaves(e, v.elems, fixed) else []
    case FixedList(e, _) => if fixed && v.ListV? then ElemLeaves(e, v.elems, fixed) else []
    case Record(_, fs) => if v.RecordV? then FieldLeaves(fs, v.fields, fixed) else []
    case Variant(_, arms) => if v.VariantV? && v.arm < |arms| then ArmLeaves(arms[v.arm], v.payload, fixed) else []
    case _ => []
  }

  function ElemLeaves(e: Ty, vs: seq<Val>, fixed: bool): seq<Leaf>
    decreases e, |vs| + 2
  {
    if vs == [] then [] else Leaves(e, vs[0], fixed) + ElemLeaves(e, vs[1..], fixed)
  }

  function FieldLeaves(fs: seq<Ty>, vs: seq<Val>, fixed: bool): seq<Leaf>
    decreases fs, 0
  {
    if fs == [] || vs == [] then [] else Leaves(fs[0], vs[0], fixed) + FieldLeaves(fs[1..], vs[1..], fixed)
  }

  function ArmLeaves(arm: Option<Ty>, payload: Option<Val>, fixed: bool): seq<Leaf>
    decreases arm, 0
  {
    if arm.Some? && payload.Some? then Leaves(arm.value, payload.value, fixed) else []
  }

  /** The numbers of the leaves that are owned handles, futures or streams; never those of
      borrowed handles, error contexts or anything else. */
  function Owned(ls: seq<Leaf>): seq<int> {
    if ls == [] then []
    else (if ls[0].prim == Own || ls[0].prim == Future || ls[0].prim == Stream then [ls[0].number] else []) + Owned(ls[1..])
  }

  /** What the mode makes of them. */
  function Dropped(what: Deallocate, ls: seq<Leaf>): seq<int> {
    if what.ListsAndOwn? then Owned(ls) else []
  }

  lemma {:induction false} OwnedConcat(a: seq<Leaf>, b: seq<Leaf>)
    ensures Owned(a + b) == Owned(a) + Owned(b)
  {
    if a == [] {
      assert a + b == b;
    } else {
      assert (a + b)[0] == a[0] && (a + b)[1..] == a[1..] + b;
      OwnedConcat(a[1..], b);
      var head := if a[0].prim == Own || a[0].prim == Future || a[0].prim == Stream then [a[0].number] else [];
      assert Owned(a + b) == head + (Owned(a[1..]) + Owned(b)) == (head + Owned(a[1..])) + Owned(b);
    }
  }

  lemma DroppedConcat(what: Deallocate, a: seq<Leaf>, b: seq<Leaf>)
    ensures Dropped(what, a + b) == Dropped(what, a) + Dropped(what, b)
  {
    hide Owned;
    OwnedConcat(a, b);
  }

  lemma DroppedNone(what: Deallocate)
    ensures Dropped(what, []) == []
  {
  }

  lemma ScalarDropped(what: Deallocate, p: PtrSize, s: Prim, v: Val)
    requires HasType(p, Scalar(s), v)
    ensures Handles(Scalar(s), v, what) == Dropped(what, [Leaf(s, v.n)])
  {
    var one := [Leaf(s, v.n)];
    assert one[1..] == [];
    var own := s == Own || s == Future || s == Stream;
    assert Owned(one) == (if own then [v.n] else []) + Owned([]) == if own then [v.n] else [];
    assert InRange(s, v.n) && (own ==> v.n >= 0);
  }

  // ----- the handles of a value -----

  /** The handles that a value owns are its leaves of the three owned kinds. */
  lemma {:induction false} HandlesAreLeaves(p: PtrSize, what: Deallocate, t: Ty, v: Val)
    requires HasType(p, t, v)
    ensures Handles(t, v, what) == Dropped(what, Leaves(t, v, true))
    decreases t, 1
  {
    hide Dropped;
    DroppedNone(what);
    match t
    case Scalar(s) => ScalarDropped(what, p, s, v);
    case Alias(u) => HandlesAreLeaves(p, what, u, v);
    case List(e) => ElemsAreLeaves(p, what, e, v.elems);
    case Map(e) => ElemsAreLeaves(p, what, e, v.elems);
    case FixedList(e, _) => ElemsAreLeaves(p, what, e, v.elems);
    case Record(_, fs) => FieldsAreLeaves(p, what, fs, v.fields);
    case Variant(_, arms) => ArmIsLeaves(p, what, arms[v.arm], v.payload);
    case _ =>
  }

  lemma {:induction false} ElemsAreLeaves(p: PtrSize, what: Deallocate, e: Ty, vs: seq<Val>)
    requires forall x | x in vs :: HasType(p, e, x)
    ensures ElemHandles(e, vs, what) == Dropped(what, ElemLeaves(e, vs, true))
    decreases e, |vs| + 2
  {
    hide Dropped, Handles, Leaves, HasType;
    DroppedNone(what);
    if vs != [] {
      HandlesAreLeaves(p, what, e, vs[0]);
      ElemsAreLeaves(p, what, e, vs[1..]);
      DroppedConcat(what, Leaves(e, vs[0], true), ElemLeaves(e, vs[1..], true));
    }
  }

  lemma {:induction false} FieldsAreLeaves(p: PtrSize, what: Deallocate, fs: seq<Ty>, vs: seq<Val>)
    requires |vs| == |fs| && forall i | 0 <= i < |fs| :: HasType(p, fs[i], vs[i])
    ensures FieldHandles(fs, vs, what) == Dropped(what, FieldLeaves(fs, vs, true))
    decreases fs, 0
  {
    hide Dropped, Handles, Leaves, HasType;
    DroppedNone(what);
    if fs != [] {
      assert forall i | 0 <= i < |fs[1..]| :: fs[1..][i] == fs[i + 1] && vs[1..][i] == vs[i + 1];
      HandlesAreLeaves(p, what, fs[0], vs[0]);
      FieldsAreLeaves(p, what, fs[1..], vs[1..]);
      DroppedConcat(what, Leaves(fs[0], vs[0], true), FieldLeaves(fs[1..], vs[1..], true));
    }
  }

  lemma {:induction false} ArmIsLeaves(p: PtrSize, what: Deallocate, arm: Option<Ty>, payload: Option<Val>)
    requires ArmHasType(p, arm, payload)
    ensures ArmHandles(arm, payload, what) == Dropped(what, ArmLeaves(arm, payload, true))
    decreases arm, 0
  {
    hide Dropped;
    DroppedNone(what);
    if arm.Some? { HandlesAreLeaves(p, what, arm.value, payload.value); }
  }

  // ----- the handles that are taken -----

  lemma {:induction false} TakenAreLeaves(c: Cfg, what: Deallocate, t: Ty, v: Val, a: nat, w: World)
    requires HasType(c.p, t, v) && Store(c, t, v, a, w).Ok?
    ensures Takes(c, what, t, v, a, w).handles == Dropped(what, Leaves(t, v, false))
    decreases t, 2
  {
    hide Dropped, StoreInt, StorePair, StoreBuffer, TagSize, PayloadOffset, Size, BufferTakes, Handles;
    DroppedNone(what);
    match t
    case Scalar(s) => ScalarDropped(what, c.p, s, v);
    case Alias(u) => TakenAreLeaves(c, what, u, v, a, w);
    case Str | List(_) | Map(_) => BufferTaken(c, what, t, v, w);
    case Record(_, fs) => FieldsTaken(c, what, fs, v.fields, a, 0, w);
    case Variant(_, arms) =>
      ArmTaken(c, what, arms[v.arm], v.payload, a + PayloadOffset(c.p, arms), TagEnd(arms, v.arm, a, w));
    case _ =>
  }

  lemma {:induction false} ArmTaken(c: Cfg, what: Deallocate, arm: Option<Ty>, payload: Option<Val>, a: nat, w: World)
    requires ArmHasType(c.p, arm, payload) && StoreArm(c, arm, payload, a, w).Ok?
    ensures ArmTakes(c, what, arm, payload, a, w).handles == Dropped(what, ArmLeaves(arm, payload, false))
    decreases arm, 0
  {
    hide Dropped, Takes, Leaves;
    DroppedNone(what);
    if arm.Some? { TakenAreLeaves(c, what, arm.value, payload.value, a, w); }
  }

  lemma {:induction false} FieldsTaken(c: Cfg, what: Deallocate, fs: seq<Ty>, vs: seq<Val>, a: nat, off: nat, w: World)
    requires |vs| == |fs| && (forall i | 0 <= i < |fs| :: HasType(c.p, fs[i], vs[i])) && StoreFields(c, fs, vs, a, off, w).Ok?
    ensures FieldsTake(c, what, fs, vs, a, off, w).handles == Dropped(what, FieldLeaves(fs, vs, false))
    decreases fs, 0
  {
    hide Dropped, Takes, Leaves, HasType, Store, Size, FieldOffset;
    DroppedNone(what);
    if fs != [] {
      assert forall i | 0 <= i < |fs[1..]| :: fs[1..][i] == fs[i + 1] && vs[1..][i] == vs[i + 1];
      var o := FieldOffset(c.p, fs[0], off);
      TakenAreLeaves(c, what, fs[0], vs[0], a + o, w);
      FieldsTaken(c, what, fs[1..], vs[1..], a, o + Size(c.p, fs[0]), StoreEnd(c, fs[0], vs[0], a + o, w));
      DroppedConcat(what, Leaves(fs[0], vs[0], false), FieldLeaves(fs[1..], vs[1..], false));
    }
  }

  lemma {:induction false} ElemsTaken(c: Cfg, what: Deallocate, e: Ty, vs: seq<Val>, a: nat, w: World)
    requires (forall x | x in vs :: HasType(c.p, e, x)) && StoreElems(c, e, vs, a, w).Ok?
    ensures ElemsTake(c, what, e, vs, a, w).handles == Dropped(what, ElemLeaves(e, vs, false))
    decreases e, |vs| + 3
  {
    hide Dropped, Takes, Leaves, HasType, Store, Size;
    DroppedNone(what);
    if vs != [] {
      TakenAreLeaves(c, what, e, vs[0], a, w);
      ElemsTaken(c, what, e, vs[1..], a + Size(c.p, e), StoreEnd(c, e, vs[0], a, w));
      DroppedConcat(what, Leaves(e, vs[0], false), ElemLeaves(e, vs[1..], false));
    }
  }

  lemma {:induction false} BufferTaken(c: Cfg, what: Deallocate, t: Ty, v: Val, w: World)
    requires (t.Str? || t.List? || t.Map?) && HasType(c.p, t, v) && StoreBuffer(c, t, v, w).Ok?
    ensures BufferTakes(c, what, t, v, w).handles == Dropped(what, Leaves(t, v, false))
    decreases t, 1
  {
    hide Dropped, StoreList, Alloc, ListTakes, ElemLeaves;
    DroppedNone(what);
    match t
    case Str =>
    case List(e) => ListTaken(c, what, e, v.elems, w);
    case Map(e) => ListTaken(c, what, e, v.elems, w);
  }

  lemma {:induction false} ListTaken(c: Cfg, what: Deallocate, e: Ty, vs: seq<Val>, w: World)
    requires (forall x | x in vs :: HasType(c.p, e, x)) && StoreList(c, e, vs, w).Ok?
    ensures ListTakes(c, what, e, vs, w).handles == Dropped(what, ElemLeaves(e, vs, false))
    decreases e, |vs| + 4
  {
    hide Dropped, Alloc, ElemsTake, StoreElems, ElemLeaves, HasType, Size, Align, Times;
    var al := Alloc(w, Times(|vs|, Size(c.p, e)), Align(c.p, e), c.p, c.own).value;
    ElemsTaken(c, what, e, vs, al.addr, al.w);
  }

  lemma {:induction false} FlatTaken(c: Cfg, what: Deallocate, t: Ty, v: Val, w: World)
    requires HasType(c.p, t, v) && LowerFlat(c, t, v, w).Ok?
    ensures FlatTakes(c, what, t, v, w).handles == Dropped(what, Leaves(t, v, false))
    decreases t, 2
  {
    hide Dropped, StoreBuffer, Widen, FlatArms, FlatArm, ToWords, Handles, BufferTakes;
    DroppedNone(what);
    match t
    case Scalar(s) => ScalarDropped(what, c.p, s, v);
    case Alias(u) => FlatTaken(c, what, u, v, w);
    case Str | List(_) | Map(_) => BufferTaken(c, what, t, v, w);
    case Record(_, fs) => FlatFieldsTaken(c, what, fs, v.fields, w);
    case Variant(_, arms) => FlatArmTaken(c, what, arms[v.arm], v.payload, w);
    case _ =>
  }

  lemma {:induction false} FlatArmTaken(c: Cfg, what: Deallocate, arm: Option<Ty>, payload: Option<Val>, w: World)
    requires ArmHasType(c.p, arm, payload) && LowerArm(c, arm, payload, w).Ok?
    ensures FlatArmTakes(c, what, arm, payload, w).handles == Dropped(what, ArmLeaves(arm, payload, false))
    decreases arm, 0
  {
    hide Dropped, FlatTakes, Leaves;
    DroppedNone(what);
    if arm.Some? { FlatTaken(c, what, arm.value, payload.value, w); }
  }

  lemma {:induction false} FlatFieldsTaken(c: Cfg, what: Deallocate, fs: seq<Ty>, vs: seq<Val>, w: World)
    requires |vs| == |fs| && (forall i | 0 <= i < |fs| :: HasType(c.p, fs[i], vs[i])) && LowerFields(c, fs, vs, w).Ok?
    ensures FlatFieldsTake(c, what, fs, vs, w).handles == Dropped(what, FieldLeaves(fs, vs, false))
    decreases fs, 0
  {
    hide Dropped, FlatTakes, Leaves, HasType, LowerFlat;
    DroppedNone(what);
    if fs != [] {
      assert forall i | 0 <= i < |fs[1..]| :: fs[1..][i] == fs[i + 1] && vs[1..][i] == vs[i + 1];
      FlatTaken(c, what, fs[0], vs[0], w);
      FlatFieldsTaken(c, what, fs[1..], vs[1..], FlatEnd(c, fs[0], vs[0], w));
      DroppedConcat(what, Leaves(fs[0], vs[0], false), FieldLeaves(fs[1..], vs[1..], false));
    }
  }

  // ----- running the code -----

  /** The deallocating code, run on any stored value, drops exactly the numbers of its owned
      handles, futures and streams outside fixed-length lists, each once and in order, if
      handles are to be dropped, and nothing otherwise. */
  lemma DropsItsHandles(k: Ctx, g: Gen, what: Deallocate, t: Ty, v: Val, x: Var, addr: nat, off: nat, w0: World, n: Var, s: Machine)
    requires k.p == g.p && Points(x, addr, n, s) && Debt(g, t, v, addr + off, w0, s.w)
    ensures var r := Run(k, FreeCode(g, what, t, x, off, n).code, s);
            r.Ok? && r.value.w.dropped == s.w.dropped + Dropped(what, Leaves(t, v, false))
  {
    hide Run, Yields, FreeCode, Takes, Store, HasType, WellFormed, Size, Points, Keeps, Mapped, Owing, Dropped, Leaves;
    FreeSim(k, g, what, t, v, x, addr, off, w0, n, s);
    AfterYields(k, FreeCode(g, what, t, x, off, n), n, s, [], Rest(g, what, t, v, addr + off, w0, s.w));
    TakenAreLeaves(Owning(g), what, t, v, addr + off, w0);
  }

  /** The same for the words of a value. */
  lemma FlatDropsItsHandles(k: Ctx, g: Gen, what: Deallocate, t: Ty, v: Val, xs: seq<Var>, w0: World, n: Var, s: Machine)
    requires k.p == g.p && FlatDebt(g, t, v, w0, s.w) && Unfixed(t) && HoldsLowered(k, g, t, v, w0, xs, n, s)
    ensures |xs| == |Flat(t)|
    ensures var r := Run(k, DeallocCode(g, what, t, xs, n).code, s);
            r.Ok? && r.value.w.dropped == s.w.dropped + Dropped(what, Leaves(t, v, false))
  {
    hide Run, Yields, DeallocCode, FlatTakes, LowerFlat, HasType, WellFormed, Flat, Keeps, Owing, Dropped, Leaves, HoldsLowered, Unfixed;
    DeallocSim(k, g, what, t, v, xs, w0, n, s);
    AfterYields(k, DeallocCode(g, what, t, xs, n), n, s, [], FlatRest(g, what, t, v, w0, s.w));
    FlatTaken(Owning(g), what, t, v, w0);
  }
}
