/** The code emitted by `deallocate` and `deallocate_indirect` gives back exactly its share of
    what lowering the value allocated, and of the handles it holds, each once, and touches
    nothing else.  The share is all of it exactly if fixed-length lists own nothing. */
module SimFree {
  import opened Wrappers
  import opened CoreTypes
  import opened Layout
  import opened Memory
  import opened Values
  import opened CanonicalAbi
  import opened AbiFrame
  import opened AbiFlat
  import opened AbiRoundTrip
  import opened AbiLift
  import opened Code
  import opened Codegen
  import opened Simulation
  import opened SimLower
  import opened SimLift
  import opened DeallocCodegen
  import opened Freeing
  import opened Shares

  /** A lowering whose buffers become the receiver's. */
  function Owning(g: Gen): Cfg {
    Cfg(g.p, true)
  }

  /** `v` was stored at `a` from `w0` on, and in `w` all of it is still there. */
  ghost predicate Debt(g: Gen, t: Ty, v: Val, a: nat, w0: World, w: World) {
    && Stored(Owning(g), t, v, a, w0, w.mem)
    && Owing(w0, StoreEnd(Owning(g), t, v, a, w0), w)
  }

  /** `w` once deallocation has taken its share of `v`. */
  ghost function Rest(g: Gen, what: Deallocate, t: Ty, v: Val, a: nat, w0: World, w: World): World {
    Released(w, Takes(Owning(g), what, t, v, a, w0))
  }

  function Silent(w: World): Outcome<Effect> {
    Ok(Effect([], w))
  }

  // ----- deallocate_indirect -----

  lemma {:induction false} FreeSim(k: Ctx, g: Gen, what: Deallocate, t: Ty, v: Val, x: Var, addr: nat, off: nat, w0: World,
                                   n: Var, s: Machine)
    requires k.p == g.p && Points(x, addr, n, s) && Debt(g, t, v, addr + off, w0, s.w)
    ensures Yields(k, FreeCode(g, what, t, x, off, n), n, s, Silent(Rest(g, what, t, v, addr + off, w0, s.w)))
    decreases t, 3
  {
    hide Yields, Run, FreeBufferCode, FreeFieldsCode, FreeVariantCode, FreeHandleCode, Released, Points, Keeps, Mapped, Owing,
      HasType, StoreInt, Grows, StoreBuffer, FieldsTake, ArmTakes, BufferTakes, TagEnd;
    ReleasedNothing(s.w);
    if !NeedsDeallocate(t, what) {
      TakesNothing(Owning(g), what, t, v, addr + off, w0);
      NoCode(k, n, s);
    } else {
      match t
      case Scalar(p) =>
        if OwnedHandle(p) && what.Handles() { FreeHandleSim(k, g, what, p, v, x, addr, off, w0, n, s); }
        else { NoCode(k, n, s); }
      case FixedList(_, _) => NoCode(k, n, s);
      case Alias(u) =>
        AliasDebt(g, what, u, v, addr + off, w0, s.w);
        FreeSim(k, g, what, u, v, x, addr, off, w0, n, s);
      case Str | List(_) | Map(_) => FreeBufferSim(k, g, what, t, v, x, addr, off, w0, n, s);
      case Record(rk, fs) => FreeRecordSim(k, g, what, rk, fs, v, x, addr, off, w0, n, s);
      case Variant(vk, arms) => FreeVariantSim(k, g, what, vk, arms, v, x, addr, off, w0, n, s);
    }
  }

  lemma AliasDebt(g: Gen, what: Deallocate, u: Ty, v: Val, a: nat, w0: World, w: World)
    requires Debt(g, Alias(u), v, a, w0, w)
    ensures Debt(g, u, v, a, w0, w) && Rest(g, what, u, v, a, w0, w) == Rest(g, what, Alias(u), v, a, w0, w)
  {
    hide Mapped, Keeps, Owing, Released;
    assert Size(g.p, Alias(u)) == Size(g.p, u);
    StoreAlias(Owning(g), u, v, a, w0);
  }

  lemma NoCode(k: Ctx, n: Var, s: Machine)
    ensures Yields(k, Chunk([], [], n), n, s, Silent(s.w))
  {
    EmptyLookup(s.env);
    YieldsNothing(k, n, s, [], []);
  }

  /** Dropping a handle that was just lifted. */
  lemma DropSim(k: Ctx, p: Prim, l: Chunk, v: Val, n: Var, s: Machine)
    requires v.Num? && v.n >= 0 && |l.outs| == 1 && n <= l.next && Yields(k, l, n, s, Ok(Effect([ValOp(v)], s.w)))
    ensures Yields(k, Then(l, One(DropHandle(p), l.outs, l.next)), n, s, Silent(s.w.(dropped := s.w.dropped + [v.n])))
  {
    hide Yields, Run;
    AfterYields(k, l, n, s, [ValOp(v)], s.w);
    var o := Silent(s.w.(dropped := s.w.dropped + [v.n]));
    YieldsOne(k, DropHandle(p), l.outs, l.next, l.next, After(k, l, s), [ValOp(v)], o);
    YieldsThen(k, l, One(DropHandle(p), l.outs, l.next), n, s, Ok(Effect([ValOp(v)], s.w)), o);
  }

  lemma HandleLeft(g: Gen, what: Deallocate, p: Prim, v: Val, a: nat, w0: World, w: World)
    requires OwnedHandle(p) && what.Handles() && Debt(g, Scalar(p), v, a, w0, w)
    ensures v.Num? && v.n >= 0 && Rest(g, what, Scalar(p), v, a, w0, w) == w.(dropped := w.dropped + [v.n])
  {
    hide StoreInt;
    assert w.mem - {} == w.mem && w.live - {} == w.live;
  }

  lemma FreeHandleSim(k: Ctx, g: Gen, what: Deallocate, p: Prim, v: Val, x: Var, addr: nat, off: nat, w0: World, n: Var, s: Machine)
    requires OwnedHandle(p) && what.Handles()
    requires k.p == g.p && Points(x, addr, n, s) && Debt(g, Scalar(p), v, addr + off, w0, s.w)
    ensures Yields(k, FreeHandleCode(g, p, x, off, n), n, s, Silent(Rest(g, what, Scalar(p), v, addr + off, w0, s.w)))
  {
    hide Yields, Run, ReadCode, Load, Store, Rest, Points, Owing, Stored;
    LoadAfterStore(Owning(g), Scalar(p), v, addr + off, w0, s.w.mem);
    ReadSim(k, g, Scalar(p), x, addr, off, n, s);
    HandleLeft(g, what, p, v, addr + off, w0, s.w);
    DropSim(k, p, ReadCode(g, Scalar(p), x, off, n), v, n, s);
  }

  // ----- records -----

  lemma {:induction false} FreeRecordSim(k: Ctx, g: Gen, what: Deallocate, rk: RecordKind, fs: seq<Ty>, v: Val, x: Var,
                                         addr: nat, off: nat, w0: World, n: Var, s: Machine)
    requires k.p == g.p && Points(x, addr, n, s) && Debt(g, Record(rk, fs), v, addr + off, w0, s.w)
    ensures Yields(k, FreeFieldsCode(g, what, fs, x, off, 0, n), n, s, Silent(Rest(g, what, Record(rk, fs), v, addr + off, w0, s.w)))
    decreases fs, 1
  {
    hide Yields, FreeFieldsCode, StoreFields, Points, Released, Keeps, Mapped, Owing, FieldsTake;
    FreeFieldsSim(k, g, what, fs, v.fields, x, addr, off, 0, w0, n, s, addr + off, Size(g.p, Record(rk, fs)));
  }

  ghost function FieldsEndWorld(c: Cfg, fs: seq<Ty>, vs: seq<Val>, a: nat, pos: nat, w: World): World {
    var r := StoreFields(c, fs, vs, a, pos, w);
    if r.Ok? then r.value else w
  }

  /** `A`, `N` is the record around the remaining fields. */
  ghost predicate FieldsDebt(g: Gen, fs: seq<Ty>, vs: seq<Val>, a: nat, pos: nat, w0: World, w: World, A: nat, N: nat) {
    && |vs| == |fs| && AllWellFormed(fs)
    && (forall i | 0 <= i < |fs| :: HasType(g.p, fs[i], vs[i]))
    && StoreFields(Owning(g), fs, vs, a, pos, w0).Ok?
    && A <= a + pos && a + FieldsEnd(g.p, fs, pos) <= A + N && Mapped(w0.mem, A, N)
    && Keeps(w0, FieldsEndWorld(Owning(g), fs, vs, a, pos, w0), A, N, w.mem)
    && Owing(w0, FieldsEndWorld(Owning(g), fs, vs, a, pos, w0), w)
  }

  /** Splitting a record's debt into its first field's and the others'. */
  lemma SplitFields(g: Gen, what: Deallocate, fs: seq<Ty>, vs: seq<Val>, a: nat, pos: nat, w0: World, w: World, A: nat, N: nat)
    requires fs != [] && FieldsDebt(g, fs, vs, a, pos, w0, w, A, N)
    ensures var o := FieldOffset(g.p, fs[0], pos);
            var end := o + Size(g.p, fs[0]);
            var w1 := StoreEnd(Owning(g), fs[0], vs[0], a + o, w0);
            var mid := Rest(g, what, fs[0], vs[0], a + o, w0, w);
            && Debt(g, fs[0], vs[0], a + o, w0, w)
            && FieldsDebt(g, fs[1..], vs[1..], a, end, w1, mid, a + end, FieldsEnd(g.p, fs[1..], end) - end)
            && FieldsEndWorld(Owning(g), fs, vs, a, pos, w0) == FieldsEndWorld(Owning(g), fs[1..], vs[1..], a, end, w1)
            && Between(w0, w1, FieldsEndWorld(Owning(g), fs, vs, a, pos, w0))
  {
    hide Store, Size, FieldOffset, HasType, WellFormed, Keeps, Grows, Mapped, Owing, Released, Between, Handles, Takes, Settles;
    var c := Owning(g);
    var o := FieldOffset(g.p, fs[0], pos);
    var sz := Size(g.p, fs[0]);
    var w1 := StoreEnd(c, fs[0], vs[0], a + o, w0);
    var w2 := FieldsEndWorld(c, fs, vs, a, pos, w0);
    var end := FieldsEnd(g.p, fs, pos);
    StoreFrame(c, fs[0], vs[0], a + o, w0);
    FieldsFrame(c, fs[1..], vs[1..], a, o + sz, w1);
    SplitSteps(w0, w1, w2, a + o, sz, a + o + sz, end - (o + sz), A, N, w.mem);
    GrowsBetween(w0, w1, w2, a + o, sz, a + o + sz, end - (o + sz));
    OwingFirst(w0, w1, w2, w);
    MappedLater(w0, w1, a + o, sz, a + o + sz, end - (o + sz), A, N);
    TakesAllThatIsVisited(c, what, fs[0], vs[0], a + o, w0);
    OwingAfter(Takes(c, what, fs[0], vs[0], a + o, w0), w0, w1, w2, w, Handles(fs[0], vs[0], what), Visited(g.p, fs[0], vs[0], what),
               a + o, sz, a + o + sz, end - (o + sz));
  }

  lemma {:induction false} FreeFieldsSim(k: Ctx, g: Gen, what: Deallocate, fs: seq<Ty>, vs: seq<Val>, x: Var, addr: nat, off: nat,
                                         pos: nat, w0: World, n: Var, s: Machine, A: nat, N: nat)
    requires k.p == g.p && Points(x, addr, n, s) && FieldsDebt(g, fs, vs, addr + off, pos, w0, s.w, A, N)
    ensures Yields(k, FreeFieldsCode(g, what, fs, x, off, pos, n), n, s,
                   Silent(Released(s.w, FieldsTake(Owning(g), what, fs, vs, addr + off, pos, w0))))
    decreases fs, 0
  {
    hide Yields, Run, FreeCode, Points, FieldsDebt, Debt, Released, StoreEnd, Between, Takes, FieldOffset, Size, FieldsEndWorld;
    if fs == [] {
      ReleasedNothing(s.w);
      NoCode(k, n, s);
    } else {
      FieldsShape(g, fs, vs, addr + off, pos, w0, s.w, A, N);
      SplitFields(g, what, fs, vs, addr + off, pos, w0, s.w, A, N);
      var o := FieldOffset(g.p, fs[0], pos);
      var end := o + Size(g.p, fs[0]);
      var w1 := StoreEnd(Owning(g), fs[0], vs[0], addr + off + o, w0);
      var mid := Rest(g, what, fs[0], vs[0], addr + off + o, w0, s.w);
      var c := FreeCode(g, what, fs[0], x, off + o, n);
      assert addr + (off + o) == addr + off + o;
      FreeSim(k, g, what, fs[0], vs[0], x, addr, off + o, w0, n, s);
      var s1 := After(k, c, s);
      AfterYields(k, c, n, s, [], mid);
      PointsLater(k, c, n, s, Silent(mid), x, addr);
      FreeFieldsSim(k, g, what, fs[1..], vs[1..], x, addr, off, end, w1, c.next, s1,
                    addr + off + end, FieldsEnd(g.p, fs[1..], end) - end);
      var others := FieldsTake(Owning(g), what, fs[1..], vs[1..], addr + off, end, w1);
      var last := Released(mid, others);
      ReleasedTwice(s.w, Takes(Owning(g), what, fs[0], vs[0], addr + off + o, w0), others);
      YieldsThen(k, c, FreeFieldsCode(g, what, fs[1..], x, off, end, c.next), n, s, Silent(mid), Silent(last));
    }
  }

  lemma FieldsShape(g: Gen, fs: seq<Ty>, vs: seq<Val>, a: nat, pos: nat, w0: World, w: World, A: nat, N: nat)
    requires FieldsDebt(g, fs, vs, a, pos, w0, w, A, N)
    ensures |vs| == |fs| && AllWellFormed(fs)
  {
  }

  // ----- variants -----

  lemma {:induction false} FreeArmAt(g: Gen, what: Deallocate, arms: seq<Option<Ty>>, a: Var, off: nat, n: Var, i: nat) returns (m: Var)
    requires ArmsWellFormed(arms) && i < |arms|
    ensures n <= m && (arms[i].Some? ==> WellFormed(arms[i].value))
    ensures FreeArmsCode(g, what, arms, a, off, n).blocks[i] == FreeArmCode(g, what, arms[i], a, off, m).block
  {
    hide FreeArmCode, WellFormed;
    assert arms[0] in arms;
    if i == 0 {
      m := n;
    } else {
      var w := FreeArmCode(g, what, arms[0], a, off, n);
      m := FreeArmAt(g, what, arms[1..], a, off, w.next, i - 1);
      assert arms[1..][i - 1] == arms[i];
    }
  }

  /** A variant's debt is its payload's, from the moment its tag is written. */
  lemma SplitVariant(g: Gen, what: Deallocate, vk: VariantKind, arms: seq<Option<Ty>>, v: Val, a: nat, w0: World, w: World)
    requires Debt(g, Variant(vk, arms), v, a, w0, w)
    ensures v.VariantV? && v.arm < |arms| && ArmsWellFormed(arms)
    ensures LoadInt(w.mem, a, TagSize(|arms|)) == Ok(v.arm) && StoreInt(w0, a, v.arm, TagSize(|arms|)).Ok?
    ensures var w1 := StoreInt(w0, a, v.arm, TagSize(|arms|)).value;
            var arm := arms[v.arm];
            && (arm.Some? ==>
                 && v.payload.Some? && Debt(g, arm.value, v.payload.value, a + PayloadOffset(g.p, arms), w1, w)
                 && Rest(g, what, Variant(vk, arms), v, a, w0, w)
                    == Rest(g, what, arm.value, v.payload.value, a + PayloadOffset(g.p, arms), w1, w))
            && (arm.None? ==> Rest(g, what, Variant(vk, arms), v, a, w0, w) == w)
  {
    hide StoreInt, LoadInt, TagSize, PayloadOffset, HasType, WellFormed, Grows, Keeps, Mapped, Size, Stored, Released, Store, Takes, StoreEnd;
    var c := Owning(g);
    var tag := TagSize(|arms|);
    ArmsShape(g, vk, arms, v, a, w0, w);
    VariantTyped(g.p, vk, arms, v);
    VariantOrder(c, vk, arms, v, a, w0, w.mem);
    var w1 := StoreInt(w0, a, v.arm, tag).value;
    TagPow(|arms|, v.arm);
    IntRoundTrip(w0, a, v.arm, tag, w.mem);
    IntOwnsNothing(w0, a, v.arm, tag);
    IntFrame(w0, a, v.arm, tag);
    GrowsSound(w0, w1, a, tag);
    VariantEnd(c, vk, arms, v, a, w0);
    VariantTakes(c, what, vk, arms, v, a, w0);
    ReleasedNothing(w);
  }

  lemma VariantTakes(c: Cfg, what: Deallocate, vk: VariantKind, arms: seq<Option<Ty>>, v: Val, a: nat, w0: World)
    requires v.VariantV? && v.arm < |arms| && StoreInt(w0, a, v.arm, TagSize(|arms|)).Ok?
    ensures var w1 := StoreInt(w0, a, v.arm, TagSize(|arms|)).value;
            Takes(c, what, Variant(vk, arms), v, a, w0)
            == if arms[v.arm].Some? && v.payload.Some? then Takes(c, what, arms[v.arm].value, v.payload.value, a + PayloadOffset(c.p, arms), w1)
               else NOTHING
  {
    hide StoreInt, TagSize, PayloadOffset;
    var w1 := StoreInt(w0, a, v.arm, TagSize(|arms|)).value;
    assert Takes(c, what, Variant(vk, arms), v, a, w0) == ArmTakes(c, what, arms[v.arm], v.payload, a + PayloadOffset(c.p, arms), w1);
  }

  lemma ArmsShape(g: Gen, vk: VariantKind, arms: seq<Option<Ty>>, v: Val, a: nat, w0: World, w: World)
    requires Stored(Owning(g), Variant(vk, arms), v, a, w0, w.mem)
    ensures WellFormed(Variant(vk, arms)) && HasType(g.p, Variant(vk, arms), v) && ArmsWellFormed(arms)
    ensures Store(Owning(g), Variant(vk, arms), v, a, w0).Ok?
  {
    hide HasType, Store, Mapped, Keeps, Size;
  }

  lemma VariantEnd(c: Cfg, vk: VariantKind, arms: seq<Option<Ty>>, v: Val, a: nat, w0: World)
    requires v.VariantV? && v.arm < |arms| && Store(c, Variant(vk, arms), v, a, w0).Ok?
    requires (arms[v.arm].Some? ==> v.payload.Some?) && StoreInt(w0, a, v.arm, TagSize(|arms|)).Ok?
    ensures var w1 := StoreInt(w0, a, v.arm, TagSize(|arms|)).value;
            StoreEnd(c, Variant(vk, arms), v, a, w0)
            == if arms[v.arm].Some? then StoreEnd(c, arms[v.arm].value, v.payload.value, a + PayloadOffset(c.p, arms), w1) else w1
  {
    hide StoreInt, TagSize, PayloadOffset;
  }

  lemma {:induction false} FreeVariantSim(k: Ctx, g: Gen, what: Deallocate, vk: VariantKind, arms: seq<Option<Ty>>, v: Val, x: Var,
                                          addr: nat, off: nat, w0: World, n: Var, s: Machine)
    requires k.p == g.p && Points(x, addr, n, s) && Debt(g, Variant(vk, arms), v, addr + off, w0, s.w) && ArmsWellFormed(arms)
    ensures Yields(k, FreeVariantCode(g, what, arms, x, off, n), n, s, Silent(Rest(g, what, Variant(vk, arms), v, addr + off, w0, s.w)))
    decreases arms, 2
  {
    hide Yields, Run, FreeArmsCode, WellFormed, Points, TagSize, PayloadOffset, LoadInt, StoreInt, LoadTag, Debt, Rest, After, One, Take;
    SplitVariant(g, what, vk, arms, v, addr + off, w0, s.w);
    var size, i := TagSize(|arms|), v.arm;
    var l := One(LoadFrom(LoadTag(size), off), [x], n);
    var poff := off + PayloadOffset(g.p, arms);
    var w1 := StoreInt(w0, addr + off, i, size).value;
    var r := FreeArmsCode(g, what, arms, x, poff, l.next);
    TagSim(k, size, i, x, addr, off, n, s);
    assert addr + poff == addr + off + PayloadOffset(g.p, arms);
    FreeDispatchSim(k, g, what, arms, i, v.payload, l.outs, x, addr, poff, w1, l.next, After(k, l, s));
    var o := Silent(Rest(g, what, Variant(vk, arms), v, addr + off, w0, s.w));
    YieldsThen(k, l, Take(GuestDeallocateVariant(|arms|), l.outs, r.next, r.blocks, []), n, s, Ok(Effect([CoreOp(Core(I32, i))], s.w)), o);
  }

  /** The block of the case that the tag names runs. */
  lemma {:induction false} FreeDispatchSim(k: Ctx, g: Gen, what: Deallocate, arms: seq<Option<Ty>>, i: nat, payload: Option<Val>, tag: seq<Var>,
                                           x: Var, addr: nat, off: nat, w0: World, n: Var, s: Machine)
    requires k.p == g.p && Points(x, addr, n, s) && ArmsWellFormed(arms) && i < |arms|
    requires Lookup(s.env, tag) == Ok([CoreOp(Core(I32, i))])
    requires arms[i].Some? ==> payload.Some? && Debt(g, arms[i].value, payload.value, addr + off, w0, s.w)
    ensures var r := FreeArmsCode(g, what, arms, x, off, n);
            Yields(k, Take(GuestDeallocateVariant(|arms|), tag, r.next, r.blocks, []), n, s,
                   Silent(if arms[i].Some? then Rest(g, what, arms[i].value, payload.value, addr + off, w0, s.w) else s.w))
    decreases arms, 1
  {
    hide Yields, FreeArmsCode, FreeArmCode, WellFormed, RunBlock, Points, Perform, Debt, Rest, Lookup;
    var r := FreeArmsCode(g, what, arms, x, off, n);
    var m := FreeArmAt(g, what, arms, x, off, n, i);
    PointsShift(x, addr, n, m, s);
    FreeArmSim(k, g, what, arms[i], payload, x, addr, off, w0, m, s);
    var o := Silent(if arms[i].Some? then Rest(g, what, arms[i].value, payload.value, addr + off, w0, s.w) else s.w);
    FreePerform(k, tag, r.next, r.blocks, i, s, o);
    YieldsTake(k, GuestDeallocateVariant(|arms|), tag, r.next, r.blocks, [], n, s, [CoreOp(Core(I32, i))], o);
  }

  lemma FreePerform(k: Ctx, args: seq<Var>, next: Var, blocks: seq<CodeBlock>, i: nat, s: Machine, o: Outcome<Effect>)
    requires i < |blocks| && RunBlock(k, blocks[i], s) == o && o.Ok? && o.value.outs == []
    ensures Perform(k, Take(GuestDeallocateVariant(|blocks|), args, next, blocks, []).code[0], [CoreOp(Core(I32, i))], s) == o
  {
    hide RunBlock, Simple;
  }

  lemma {:induction false} FreeArmSim(k: Ctx, g: Gen, what: Deallocate, arm: Option<Ty>, payload: Option<Val>, x: Var,
                                      addr: nat, off: nat, w0: World, m: Var, s: Machine)
    requires k.p == g.p && Points(x, addr, m, s) && (arm.Some? ==> WellFormed(arm.value))
    requires arm.Some? ==> payload.Some? && Debt(g, arm.value, payload.value, addr + off, w0, s.w)
    ensures RunBlock(k, FreeArmCode(g, what, arm, x, off, m).block, s)
         == Silent(if arm.Some? then Rest(g, what, arm.value, payload.value, addr + off, w0, s.w) else s.w)
    decreases arm, 1
  {
    hide Yields, Run, FreeCode, RunBlock, Points, WellFormed, Debt, Rest;
    if arm.None? {
      NoCode(k, m, s);
      YieldsBlock(k, Chunk([], [], m), m, s, Silent(s.w));
    } else {
      var o := Silent(Rest(g, what, arm.value, payload.value, addr + off, w0, s.w));
      FreeSim(k, g, what, arm.value, payload.value, x, addr, off, w0, m, s);
      YieldsBlock(k, FreeCode(g, what, arm.value, x, off, m), m, s, o);
    }
  }

  // ----- lists, maps and strings -----

  ghost function ElemsEnd(c: Cfg, e: Ty, vs: seq<Val>, a: nat, w: World): World {
    var r := StoreElems(c, e, vs, a, w);
    if r.Ok? then r.value else w
  }

  ghost predicate ElemsDebt(g: Gen, e: Ty, vs: seq<Val>, a: nat, w0: World, w: World) {
    && WellFormed(e) && (forall x | x in vs :: HasType(g.p, e, x))
    && StoreElems(Owning(g), e, vs, a, w0).Ok?
    && Mapped(w0.mem, a, Times(|vs|, Size(g.p, e)))
    && Keeps(w0, ElemsEnd(Owning(g), e, vs, a, w0), a, Times(|vs|, Size(g.p, e)), w.mem)
    && Owing(w0, ElemsEnd(Owning(g), e, vs, a, w0), w)
  }

  lemma SplitElems(g: Gen, what: Deallocate, e: Ty, vs: seq<Val>, a: nat, w0: World, w: World)
    requires vs != [] && ElemsDebt(g, e, vs, a, w0, w)
    ensures var w1 := StoreEnd(Owning(g), e, vs[0], a, w0);
            var mid := Rest(g, what, e, vs[0], a, w0, w);
            && Debt(g, e, vs[0], a, w0, w)
            && ElemsDebt(g, e, vs[1..], a + Size(g.p, e), w1, mid)
            && ElemsEnd(Owning(g), e, vs, a, w0) == ElemsEnd(Owning(g), e, vs[1..], a + Size(g.p, e), w1)
            && Between(w0, w1, ElemsEnd(Owning(g), e, vs, a, w0))
  {
    hide Store, Size, HasType, WellFormed, Keeps, Grows, Mapped, Owing, Released, Between, Handles, Times, Takes, Settles;
    var c := Owning(g);
    var sz := Size(g.p, e);
    var n, n1 := Times(|vs|, sz), Times(|vs| - 1, sz);
    TimesStep(|vs|, sz);
    var w1 := StoreEnd(c, e, vs[0], a, w0);
    var w2 := ElemsEnd(c, e, vs, a, w0);
    StoreFrame(c, e, vs[0], a, w0);
    ElemsFrame(c, e, vs[1..], a + sz, w1);
    SplitSteps(w0, w1, w2, a, sz, a + sz, n1, a, n, w.mem);
    GrowsBetween(w0, w1, w2, a, sz, a + sz, n1);
    OwingFirst(w0, w1, w2, w);
    MappedLater(w0, w1, a, sz, a + sz, n1, a, n);
    TakesAllThatIsVisited(c, what, e, vs[0], a, w0);
    OwingAfter(Takes(c, what, e, vs[0], a, w0), w0, w1, w2, w, Handles(e, vs[0], what), Visited(g.p, e, vs[0], what), a, sz, a + sz, n1);
  }

  /** The block that frees what one element, or one map entry, owns. */
  function Freer(g: Gen, what: Deallocate, e: Ty, isMap: bool, n: Var): CodeBlock
    requires WellFormed(e) && (isMap ==> WellFormed(Map(e)))
  {
    if isMap then EntryFreer(g, what, e, n).block else ElemFreer(g, what, e, n).block
  }

  lemma {:induction false} FreerSim(k: Ctx, g: Gen, what: Deallocate, e: Ty, v: Val, a: nat, isMap: bool, w0: World, n: Var, s: Machine)
    requires k.p == g.p && Debt(g, e, v, a, w0, s.w) && WellFormed(e) && (isMap ==> WellFormed(Map(e)))
    ensures var r := Run(k.(base := a), Freer(g, what, e, isMap, n).code, s);
            r.Ok? && r.value.w == Rest(g, what, e, v, a, w0, s.w)
    decreases e, 5
  {
    hide Run, Yields, WellFormed, FreeCode, FreeFieldsCode, Debt, Rest, EntryFreer, ElemFreer;
    var k1 := k.(base := a);
    var x := One(IterBasePointer, [], n);
    var here := Ok(Effect([CoreOp(Core(Pointer, a))], s.w));
    BaseSim(k1, n, s);
    var s1 := After(k1, x, s);
    var o := Silent(Rest(g, what, e, v, a, w0, s.w));
    if isMap {
      EntryWell(e);
      EntryIsTuple(e);
      FreeRecordSim(k1, g, what, TupleType, e.fields, v, x.outs[0], a, 0, w0, x.next, s1);
      EntryFreerIs(g, what, e, n);
      var c := FreeFieldsCode(g, what, e.fields, x.outs[0], 0, 0, x.next);
      YieldsThen(k1, x, c, n, s, here, o);
      YieldsRun(k1, Then(x, c), n, s, o);
    } else {
      FreeSim(k1, g, what, e, v, x.outs[0], a, 0, w0, x.next, s1);
      var c := FreeCode(g, what, e, x.outs[0], 0, x.next);
      ElemFreerIs(g, what, e, n);
      YieldsThen(k1, x, c, n, s, here, o);
      YieldsRun(k1, Then(x, c), n, s, o);
    }
  }

  lemma EntryIsTuple(e: Ty)
    requires WellFormed(Map(e))
    ensures e == Record(TupleType, e.fields)
  {
  }

  lemma YieldsRun(k: Ctx, c: Chunk, n: Var, s: Machine, o: Outcome<Effect>)
    requires Yields(k, c, n, s, o) && o.Ok?
    ensures Run(k, c.code, s).Ok? && Run(k, c.code, s).value.w == o.value.w
  {
    hide Run;
  }

  lemma ElemFreerIs(g: Gen, what: Deallocate, e: Ty, n: Var)
    requires WellFormed(e)
    ensures var x := One(IterBasePointer, [], n);
            ElemFreer(g, what, e, n).block.code == Then(x, FreeCode(g, what, e, x.outs[0], 0, x.next)).code
  {
    hide FreeCode, WellFormed, One;
  }

  lemma EntryFreerIs(g: Gen, what: Deallocate, e: Ty, n: Var)
    requires WellFormed(e) && e.Record? && |e.fields| == 2 && WellFormed(e.fields[0]) && WellFormed(e.fields[1])
    ensures AllWellFormed(e.fields)
    ensures var x := One(IterBasePointer, [], n);
            EntryFreer(g, what, e, n).block.code == Then(x, FreeFieldsCode(g, what, e.fields, x.outs[0], 0, 0, x.next)).code
  {
    hide FreeCode, WellFormed, One, Size, Align;
    var fs := e.fields;
    var x := One(IterBasePointer, [], n);
    var a := x.outs[0];
    assert FieldOffset(g.p, fs[0], 0) == 0;
    var kc := FreeCode(g, what, fs[0], a, 0, x.next);
    var vc := FreeCode(g, what, fs[1], a, ValueOffset(g.p, e), kc.next);
    assert fs[1..][0] == fs[1] && fs[1..][1..] == [];
    var rest := FreeFieldsCode(g, what, fs[1..], a, 0, Size(g.p, fs[0]), kc.next);
    assert FreeFieldsCode(g, what, [], a, 0, ValueOffset(g.p, e) + Size(g.p, fs[1]), vc.next) == Chunk([], [], vc.next);
    assert rest.code == vc.code + [];
    assert FreeFieldsCode(g, what, fs, a, 0, 0, x.next).code == kc.code + rest.code;
    assert x.code + kc.code + vc.code == x.code + (kc.code + (vc.code + []));
  }

  lemma {:induction false} EachAddrSim(k: Ctx, g: Gen, what: Deallocate, e: Ty, vs: seq<Val>, a: nat, isMap: bool, w0: World,
                                       n: Var, s: Machine)
    requires k.p == g.p && ElemsDebt(g, e, vs, a, w0, s.w) && WellFormed(e) && (isMap ==> WellFormed(Map(e)))
    ensures EachAddr(k, Freer(g, what, e, isMap, n), |vs|, a, Size(g.p, e), s)
         == Ok(Released(s.w, ElemsTake(Owning(g), what, e, vs, a, w0)))
    decreases e, 6, |vs|
  {
    hide Run, Freer, ElemsDebt, Debt, Released, Takes, WellFormed, Size, StoreEnd, Between, ElemsEnd;
    if vs == [] {
      ReleasedNothing(s.w);
    } else {
      SplitElems(g, what, e, vs, a, w0, s.w);
      var w1 := StoreEnd(Owning(g), e, vs[0], a, w0);
      var mid := Rest(g, what, e, vs[0], a, w0, s.w);
      FreerSim(k, g, what, e, vs[0], a, isMap, w0, n, s);
      EachAddrSim(k, g, what, e, vs[1..], a + Size(g.p, e), isMap, w1, n, s.(w := mid));
      ReleasedTwice(s.w, Takes(Owning(g), what, e, vs[0], a, w0), ElemsTake(Owning(g), what, e, vs[1..], a + Size(g.p, e), w1));
    }
  }

  /** `v`'s buffer was allocated from `w0` on, and in `w` all of it is still there. */
  ghost predicate BufferDebt(g: Gen, t: Ty, v: Val, w0: World, w: World) {
    && (t.Str? || t.List? || t.Map?) && WellFormed(t) && HasType(g.p, t, v)
    && StoreBuffer(Owning(g), t, v, w0).Ok?
    && Keeps(w0, StoreBuffer(Owning(g), t, v, w0).value.w, 0, 0, w.mem)
    && Owing(w0, StoreBuffer(Owning(g), t, v, w0).value.w, w)
  }

  lemma OwingLater(w0: World, w1: World, w2: World, w: World, a: nat, n: nat)
    requires Grows(w0, w1, a, n) && Owing(w0, w2, w)
    ensures Owing(w1, w2, w)
  {
    GrowsSound(w0, w1, a, n);
  }

  /** Emptying a list, then freeing its block. */
  lemma {:induction false} ListFreed(k: Ctx, g: Gen, what: Deallocate, e: Ty, vs: seq<Val>, isMap: bool, w0: World, n: Var, s: Machine)
    requires k.p == g.p && BufferDebt(g, Listy(e, isMap), ListV(vs), w0, s.w)
    ensures WellFormed(e)
    ensures var b := StoreList(Owning(g), e, vs, w0).value;
            var mid := EachAddr(k, Freer(g, what, e, isMap, n), b.len, b.ptr, Size(g.p, e), s);
            && mid.Ok?
            && Free(mid.value, b.ptr, Times(b.len, Size(g.p, e)), Align(g.p, e)) == Ok(Released(s.w, ListTakes(Owning(g), what, e, vs, w0)))
    decreases e, 7
  {
    hide Run, Freer, Freed, Released, Size, Align, Keeps, Mapped, Grows, Free, Alloc, Owing, Between, Times, All, Together, ElemsTake, Settles;
    var c := Owning(g);
    ListShape(g, e, vs, isMap);
    ListOf(c, e, vs, isMap, w0);
    var size, al := Times(|vs|, Size(g.p, e)), Align(g.p, e);
    var start := Alloc(w0, size, al, g.p, true).value;
    var w1 := StoreList(c, e, vs, w0).value.w;
    AllocGrows(w0, size, al, g.p, true);
    ElemsFrame(c, e, vs, start.addr, start.w);
    KeepsSecond(w0, start.w, w1, start.addr, 0, start.addr, size, 0, 0, s.w.mem);
    GrowsBetween(w0, start.w, w1, start.addr, 0, start.addr, size);
    OwingLater(w0, start.w, w1, s.w, start.addr, 0);
    EachAddrSim(k, g, what, e, vs, start.addr, isMap, start.w, n, s);
    var elems := ElemsTake(c, what, e, vs, start.addr, start.w);
    ElemsTakeAll(c, what, e, vs, start.addr, start.w);
    BlockStays(elems, w0, start.w, w1, s.w, ElemHandles(e, vs, what), ElemsVisited(g.p, e, vs, what));
    FreeAllocated(w0, size, al, g.p, Released(s.w, elems));
    BlockLast(s.w, elems, w0, start.w);
  }

  /** Emptying the elements leaves the block that holds them. */
  lemma BlockStays(s: Share, w0: World, w1: World, w2: World, w: World, hs: seq<nat>, fully: bool)
    requires Settles(s, w1, w2, hs, fully) && Between(w0, w1, w2) && Owing(w0, w2, w)
    ensures Owing(w0, w1, Released(w, s))
  {
  }

  lemma BlockLast(w: World, s: Share, w0: World, w1: World)
    ensures Freed(w0, w1, Released(w, s), []) == Released(w, Together(All(w0, w1, []), s))
  {
    ReleasedAll(w0, w1, Released(w, s), []);
    ReleasedBefore(w, s, All(w0, w1, []));
  }

  lemma ListOf(c: Cfg, e: Ty, vs: seq<Val>, isMap: bool, w0: World)
    ensures StoreBuffer(c, Listy(e, isMap), ListV(vs), w0) == StoreList(c, e, vs, w0)
    ensures StoreList(c, e, vs, w0).Ok? ==> Alloc(w0, Times(|vs|, Size(c.p, e)), Align(c.p, e), c.p, c.own).Ok?
  {
    hide Alloc, Size, Align, Times, StoreElems;
  }

  lemma ListShape(g: Gen, e: Ty, vs: seq<Val>, isMap: bool)
    requires var t := Listy(e, isMap);
             WellFormed(t) && HasType(g.p, t, ListV(vs))
    ensures WellFormed(e) && (isMap ==> WellFormed(Map(e))) && forall x | x in vs :: HasType(g.p, e, x)
  {
  }

  lemma StringFreed(g: Gen, what: Deallocate, v: Val, w0: World, w: World)
    requires BufferDebt(g, Str, v, w0, w)
    ensures var b := StoreBuffer(Owning(g), Str, v, w0).value;
            Free(w, b.ptr, b.len, 1) == Ok(BufferRest(g, what, Str, v, w0, w))
  {
    var al := Alloc(w0, |v.bytes|, 1, g.p, true).value;
    StoreGrows(al.w, al.addr, v.bytes);
    FreeAllocated(w0, |v.bytes|, 1, g.p, w);
    ReleasedAll(w0, al.w, w, []);
  }

  ghost function BufferRest(g: Gen, what: Deallocate, t: Ty, v: Val, w0: World, w: World): World {
    Released(w, BufferTakes(Owning(g), what, t, v, w0))
  }

  ghost function BufferWords(g: Gen, t: Ty, v: Val, w0: World): seq<Core>
    requires StoreBuffer(Owning(g), t, v, w0).Ok?
  {
    var b := StoreBuffer(Owning(g), t, v, w0).value;
    [Core(Pointer, b.ptr), Core(Length, b.len)]
  }

  /** Freeing a string, list or map by its pointer and length. */
  lemma {:induction false} BufferFreeSim(k: Ctx, g: Gen, what: Deallocate, t: Ty, v: Val, xs: seq<Var>, w0: World, n: Var, s: Machine)
    requires k.p == g.p && BufferDebt(g, t, v, w0, s.w)
    requires HoldsFlat(k, g, [Pointer, Length], BufferWords(g, t, v, w0), xs, n, s)
    ensures Unfixed(t) && |xs| == |Flat(t)|
    ensures Yields(k, DeallocCode(g, what, t, xs, n), n, s, Silent(BufferRest(g, what, t, v, w0, s.w)))
    decreases t, 2
  {
    hide Yields, Run, Released, Keeps, Mapped, Owing, BufferDebt, HoldsFlat, DeallocListCode, DeallocMapCode, StoreList, StoreBuffer, ListTakes;
    BufferShape(g, t, v, w0, s.w);
    var fs := BufferWords(g, t, v, w0);
    FlatLookup(k, g, [Pointer, Length], fs, xs, n, s);
    FlatLength(k, g, [Pointer, Length], fs, xs, n, s);
    PairOps(fs[0], fs[1]);
    var o := Silent(BufferRest(g, what, t, v, w0, s.w));
    match t
    case Str => StringFreeSim(k, g, what, v, xs, w0, n, s);
    case List(e) => EmptySim(k, g, what, e, v.elems, false, xs, w0, n, s);
    case Map(e) => EmptySim(k, g, what, e, v.elems, true, xs, w0, n, s);
  }

  lemma StringFreeSim(k: Ctx, g: Gen, what: Deallocate, v: Val, xs: seq<Var>, w0: World, n: Var, s: Machine)
    requires k.p == g.p && BufferDebt(g, Str, v, w0, s.w) && Lookup(s.env, xs) == Ok(CoreOps(BufferWords(g, Str, v, w0)))
    ensures Yields(k, One(GuestDeallocateString, xs, n), n, s, Silent(BufferRest(g, what, Str, v, w0, s.w)))
  {
    hide Yields, Released, Keeps, Mapped, Owing, BufferDebt, Take, One, StoreBuffer, ListTakes, Lookup;
    BufferShape(g, Str, v, w0, s.w);
    StringFreed(g, what, v, w0, s.w);
    YieldsOne(k, GuestDeallocateString, xs, n, n, s, CoreOps(BufferWords(g, Str, v, w0)), Silent(BufferRest(g, what, Str, v, w0, s.w)));
  }

  function EmptyCode(g: Gen, what: Deallocate, e: Ty, isMap: bool, xs: seq<Var>, n: Var): Chunk
    requires WellFormed(e) && (isMap ==> WellFormed(Map(e)))
  {
    if isMap then DeallocMapCode(g, what, e, xs, n) else DeallocListCode(g, what, e, xs, n)
  }

  lemma {:induction false} EmptySim(k: Ctx, g: Gen, what: Deallocate, e: Ty, vs: seq<Val>, isMap: bool, xs: seq<Var>, w0: World,
                                    n: Var, s: Machine)
    requires WellFormed(e) && (isMap ==> WellFormed(Map(e)))
    requires k.p == g.p && BufferDebt(g, Listy(e, isMap), ListV(vs), w0, s.w)
    requires Lookup(s.env, xs) == Ok(CoreOps(BufferWords(g, Listy(e, isMap), ListV(vs), w0)))
    ensures Yields(k, EmptyCode(g, what, e, isMap, xs, n), n, s,
                   Silent(BufferRest(g, what, Listy(e, isMap), ListV(vs), w0, s.w)))
    decreases e, 8
  {
    hide Yields, Run, Freer, Released, ListTakes, Size, Align, BufferDebt, ElemFreer, EntryFreer, StoreList, Perform, Free, EachAddr, Times, StoreBuffer, WellFormed,
      Take, Lookup, CoreOps;
    BufferShape(g, Listy(e, isMap), ListV(vs), w0, s.w);
    ListOf(Owning(g), e, vs, isMap, w0);
    ListFreed(k, g, what, e, vs, isMap, w0, n, s);
    FreerIs(g, what, e, n);
    if isMap { EntryWell(e); }
    var w := if isMap then EntryFreer(g, what, e, n) else ElemFreer(g, what, e, n);
    var i := if isMap then GuestDeallocateMap(e) else GuestDeallocateList(e);
    var fs := BufferWords(g, Listy(e, isMap), ListV(vs), w0);
    var o := Silent(BufferRest(g, what, Listy(e, isMap), ListV(vs), w0, s.w));
    EmptyPerform(k, i, e, xs, w.next, w.block, fs, s, o);
    YieldsTake(k, i, xs, w.next, [w.block], [], n, s, CoreOps(fs), o);
  }

  lemma FreerIs(g: Gen, what: Deallocate, e: Ty, n: Var)
    requires WellFormed(e)
    ensures Freer(g, what, e, false, n) == ElemFreer(g, what, e, n).block
    ensures WellFormed(Map(e)) ==> Freer(g, what, e, true, n) == EntryFreer(g, what, e, n).block
  {
    hide ElemFreer, EntryFreer;
  }

  lemma BufferShape(g: Gen, t: Ty, v: Val, w0: World, w: World)
    requires BufferDebt(g, t, v, w0, w)
    ensures (t.Str? || t.List? || t.Map?) && WellFormed(t) && StoreBuffer(Owning(g), t, v, w0).Ok?
    ensures t.Str? ==> v.StrV?
    ensures t.List? ==> v.ListV? && WellFormed(t.elem) && StoreBuffer(Owning(g), t, v, w0) == StoreList(Owning(g), t.elem, v.elems, w0)
    ensures t.Map? ==> v.ListV? && WellFormed(t.entry) && StoreBuffer(Owning(g), t, v, w0) == StoreList(Owning(g), t.entry, v.elems, w0)
    ensures t.List? || t.Map? ==> v == ListV(v.elems)
  {
    hide StoreList, Keeps, Owing;
  }

  lemma EmptyPerform(k: Ctx, i: Inst, e: Ty, args: seq<Var>, next: Var, b: CodeBlock, fs: seq<Core>, s: Machine, o: Outcome<Effect>)
    requires i == GuestDeallocateList(e) || i == GuestDeallocateMap(e)
    requires |fs| == 2 && fs[0].ty == Pointer && fs[1].ty == Length
    requires var mid := EachAddr(k, b, fs[1].bits, fs[0].bits, Size(k.p, e), s);
             mid.Ok? && o.Ok? && Free(mid.value, fs[0].bits, Times(fs[1].bits, Size(k.p, e)), Align(k.p, e)) == Ok(o.value.w) && o.value.outs == []
    ensures Perform(k, Take(i, args, next, [b], []).code[0], CoreOps(fs), s) == o
  {
    hide EachAddr, Free, Size, Align, Simple, Times;
    assert Perform(k, Take(i, args, next, [b], []).code[0], CoreOps(fs), s)
        == EmptyList(k, Take(i, args, next, [b], []).code[0], e, CoreOps(fs), s);
  }

  /** Where a buffer is reached through memory: storing its pointer and length added nothing. */
  lemma PairDebt(g: Gen, what: Deallocate, t: Ty, v: Val, a: nat, w0: World, w: World)
    requires (t.Str? || t.List? || t.Map?) && Debt(g, t, v, a, w0, w)
    ensures BufferDebt(g, t, v, w0, w) && BufferRest(g, what, t, v, w0, w) == Rest(g, what, t, v, a, w0, w)
    ensures var fs := BufferWords(g, t, v, w0);
            LoadInt(w.mem, a, g.p) == Ok(fs[0].bits) && LoadInt(w.mem, a + g.p, g.p) == Ok(fs[1].bits)
  {
    hide StoreInt, LoadInt, StoreBuffer, HasType, Keeps, Mapped, Handles;
    PairOrder(Owning(g), t, v, a, w0, w.mem);
    var b := StoreBuffer(Owning(g), t, v, w0).value;
    var w1 := StoreInt(b.w, a + g.p, b.len, g.p).value;
    IntOwnsNothing(b.w, a + g.p, b.len, g.p);
    IntOwnsNothing(w1, a, b.ptr, g.p);
  }

  lemma {:induction false} FreeBufferSim(k: Ctx, g: Gen, what: Deallocate, t: Ty, v: Val, x: Var, addr: nat, off: nat, w0: World,
                                         n: Var, s: Machine)
    requires (t.Str? || t.List? || t.Map?) && WellFormed(t)
    requires k.p == g.p && Points(x, addr, n, s) && Debt(g, t, v, addr + off, w0, s.w)
    ensures Yields(k, FreeBufferCode(g, what, t, x, off, n), n, s, Silent(Rest(g, what, t, v, addr + off, w0, s.w)))
    decreases t, 3, 0
  {
    hide Yields, Run, DeallocCode, ReadPairCode, Debt, Rest, BufferDebt, BufferRest, Points, LoadInt, HoldsFlat;
    PairDebt(g, what, t, v, addr + off, w0, s.w);
    BufferShape(g, t, v, w0, s.w);
    var fs := BufferWords(g, t, v, w0);
    var b := ReadPairCode(g, x, off, n);
    PairLoadSim(k, g, x, addr, off, n, s);
    AfterYields(k, b, n, s, CoreOps(fs), s.w);
    MakeFlat(k, g, [Pointer, Length], fs, b.outs, b.next, After(k, b, s));
    BufferFreeSim(k, g, what, t, v, b.outs, w0, b.next, After(k, b, s));
    YieldsThen(k, b, DeallocCode(g, what, t, b.outs, b.next), n, s, Ok(Effect(CoreOps(fs), s.w)),
               Silent(BufferRest(g, what, t, v, w0, s.w)));
  }

  // ----- deallocate -----

  /** `v` was lowered flat from `w0` on, and in `w` all of its buffers are still there. */
  ghost predicate FlatDebt(g: Gen, t: Ty, v: Val, w0: World, w: World) {
    && LoweredInto(Owning(g), t, v, w0, w.mem)
    && Owing(w0, LowerFlat(Owning(g), t, v, w0).value.w, w)
  }

  ghost function FlatRest(g: Gen, what: Deallocate, t: Ty, v: Val, w0: World, w: World): World {
    Released(w, FlatTakes(Owning(g), what, t, v, w0))
  }

  /** The words left by lowering, and where they are. */
  ghost predicate HoldsLowered(k: Ctx, g: Gen, t: Ty, v: Val, w0: World, xs: seq<Var>, n: Var, s: Machine)
    requires LowerFlat(Owning(g), t, v, w0).Ok?
  {
    HoldsFlat(k, g, Flat(t), LowerFlat(Owning(g), t, v, w0).value.flat, xs, n, s)
  }

  lemma FlatDebtShape(g: Gen, t: Ty, v: Val, w0: World, w: World)
    requires FlatDebt(g, t, v, w0, w)
    ensures WellFormed(t) && HasType(g.p, t, v) && LowerFlat(Owning(g), t, v, w0).Ok?
  {
  }

  lemma {:induction false} DeallocSim(k: Ctx, g: Gen, what: Deallocate, t: Ty, v: Val, xs: seq<Var>, w0: World, n: Var, s: Machine)
    requires k.p == g.p && FlatDebt(g, t, v, w0, s.w) && Unfixed(t) && HoldsLowered(k, g, t, v, w0, xs, n, s)
    ensures |xs| == |Flat(t)|
    ensures Yields(k, DeallocCode(g, what, t, xs, n), n, s, Silent(FlatRest(g, what, t, v, w0, s.w)))
    decreases t, 2, 1
  {
    hide Yields, Run, Released, Keeps, Owing, HoldsFlat, DeallocListCode, DeallocMapCode, DeallocFieldsCode, DeallocVariantCode, DropCode,
      StoreBuffer, FlatFields, FlatArms, FlatRest, FlatDebt, ToWords;
    FlatDebtShape(g, t, v, w0, s.w);
    FlatLength(k, g, Flat(t), LowerFlat(Owning(g), t, v, w0).value.flat, xs, n, s);
    match t
    case Scalar(p) => DropScalarSim(k, g, what, p, v, xs, w0, n, s);
    case Alias(u) => AliasFlatDebt(g, what, u, v, w0, s.w); DeallocSim(k, g, what, u, v, xs, w0, n, s);
    case Str | List(_) | Map(_) =>
      FlatBufferDebt(g, what, t, v, w0, s.w);
      BufferFreeSim(k, g, what, t, v, xs, w0, n, s);
    case Record(rk, fs) => DeallocRecordSim(k, g, what, rk, fs, v, xs, w0, n, s);
    case Variant(vk, arms) => DeallocVariantSim(k, g, what, vk, arms, v, xs, w0, n, s);
    case Flags(_) | Enum(_) => FlatNothing(g, what, t, v, w0, s.w); NoCode(k, n, s);
  }

  lemma AliasFlatDebt(g: Gen, what: Deallocate, u: Ty, v: Val, w0: World, w: World)
    requires FlatDebt(g, Alias(u), v, w0, w)
    ensures FlatDebt(g, u, v, w0, w) && FlatRest(g, what, u, v, w0, w) == FlatRest(g, what, Alias(u), v, w0, w)
  {
    hide Keeps, Owing, Released;
  }

  lemma FlatBufferDebt(g: Gen, what: Deallocate, t: Ty, v: Val, w0: World, w: World)
    requires (t.Str? || t.List? || t.Map?) && FlatDebt(g, t, v, w0, w)
    ensures BufferDebt(g, t, v, w0, w) && FlatRest(g, what, t, v, w0, w) == BufferRest(g, what, t, v, w0, w)
    ensures LowerFlat(Owning(g), t, v, w0).value.flat == BufferWords(g, t, v, w0)
  {
    hide Keeps, Owing, Released, StoreBuffer, BufferTakes;
  }

  lemma FlatNothing(g: Gen, what: Deallocate, t: Ty, v: Val, w0: World, w: World)
    requires t.Flags? || t.Enum?
    ensures FlatRest(g, what, t, v, w0, w) == w
  {
    ReleasedNothing(w);
  }

  lemma DropScalarSim(k: Ctx, g: Gen, what: Deallocate, p: Prim, v: Val, xs: seq<Var>, w0: World, n: Var, s: Machine)
    requires k.p == g.p && FlatDebt(g, Scalar(p), v, w0, s.w) && HoldsLowered(k, g, Scalar(p), v, w0, xs, n, s)
    ensures Yields(k, DropCode(p, what, xs, n), n, s, Silent(FlatRest(g, what, Scalar(p), v, w0, s.w)))
  {
    hide Yields, Run, HoldsLowered, FlatDebt, DropCode;
    assert s.w.mem - {} == s.w.mem && s.w.live - {} == s.w.live;
    if OwnedHandle(p) && what.Handles() {
      HandleNumber(g, p, v, w0, s.w);
      DropHandleSim(k, g, what, p, v, xs, w0, n, s);
    } else {
      NoDrop(p, what, xs, n);
      NoCode(k, n, s);
      assert s.w.dropped + [] == s.w.dropped;
    }
  }

  lemma NoDrop(p: Prim, what: Deallocate, xs: seq<Var>, n: Var)
    requires !(OwnedHandle(p) && what.Handles())
    ensures DropCode(p, what, xs, n) == Chunk([], [], n)
  {
  }

  lemma HandleNumber(g: Gen, p: Prim, v: Val, w0: World, w: World)
    requires FlatDebt(g, Scalar(p), v, w0, w) && OwnedHandle(p)
    ensures v.Num? && v.n >= 0
  {
    hide LowerFlat, Keeps, Owing;
  }

  /** An owned handle is lifted from its word and dropped. */
  lemma DropHandleSim(k: Ctx, g: Gen, what: Deallocate, p: Prim, v: Val, xs: seq<Var>, w0: World, n: Var, s: Machine)
    requires k.p == g.p && FlatDebt(g, Scalar(p), v, w0, s.w) && HoldsLowered(k, g, Scalar(p), v, w0, xs, n, s)
    requires v.Num? && v.n >= 0 && OwnedHandle(p) && what.Handles()
    ensures Yields(k, DropCode(p, what, xs, n), n, s, Silent(s.w.(dropped := s.w.dropped + [v.n])))
  {
    hide Yields, HoldsFlat, ToCore, FromCore, Keeps, Owing, Take;
    var fs := LowerFlat(Owning(g), Scalar(p), v, w0).value.flat;
    LiftScalarSim(k, g, p, fs, xs, n, s);
    LiftAfterLower(Owning(g), Scalar(p), v, w0, s.w.mem);
    DropSim(k, p, One(ScalarLift(p), xs, n), v, n, s);
  }

  ghost predicate FlatFieldsDebt(g: Gen, fs: seq<Ty>, vs: seq<Val>, w0: World, w: World) {
    && |vs| == |fs| && AllWellFormed(fs)
    && (forall i | 0 <= i < |fs| :: HasType(g.p, fs[i], vs[i]))
    && (forall f | f in fs :: Unfixed(f))
    && LowerFields(Owning(g), fs, vs, w0).Ok?
    && Keeps(w0, LowerFields(Owning(g), fs, vs, w0).value.w, 0, 0, w.mem)
    && Owing(w0, LowerFields(Owning(g), fs, vs, w0).value.w, w)
  }

  lemma SplitFlat(g: Gen, what: Deallocate, fs: seq<Ty>, vs: seq<Val>, w0: World, w: World)
    requires fs != [] && FlatFieldsDebt(g, fs, vs, w0, w)
    ensures FlatDebt(g, fs[0], vs[0], w0, w) && Unfixed(fs[0]) && LowerFlat(Owning(g), fs[0], vs[0], w0).Ok?
    ensures var r := LowerFlat(Owning(g), fs[0], vs[0], w0).value;
            && FlatFieldsDebt(g, fs[1..], vs[1..], r.w, FlatRest(g, what, fs[0], vs[0], w0, w))
            && LowerFields(Owning(g), fs[1..], vs[1..], r.w).Ok? && LowerFields(Owning(g), fs, vs, w0).Ok?
            && LowerFields(Owning(g), fs, vs, w0).value.w == LowerFields(Owning(g), fs[1..], vs[1..], r.w).value.w
            && LowerFields(Owning(g), fs, vs, w0).value.flat == r.flat + LowerFields(Owning(g), fs[1..], vs[1..], r.w).value.flat
            && Between(w0, r.w, LowerFields(Owning(g), fs, vs, w0).value.w)
            && |r.flat| == |Flat(fs[0])|
  {
    hide LowerFlat, HasType, Flat, WellFormed, Keeps, Grows, Owing, Released, Unfixed, Between, Mapped, Handles, FlatTakes, Settles;
    var c := Owning(g);
    var r := LowerFlat(c, fs[0], vs[0], w0).value;
    var rest := LowerFields(c, fs[1..], vs[1..], r.w).value;
    LowerFrame(c, fs[0], vs[0], w0);
    LowerFieldsFrame(c, fs[1..], vs[1..], r.w);
    SplitNone(w0, r.w, rest.w, w.mem);
    GrowsBetween(w0, r.w, rest.w, 0, 0, 0, 0);
    OwingFirst(w0, r.w, rest.w, w);
    MappedNothing(w0);
    FlatTakesAllThatIsVisited(c, what, fs[0], vs[0], w0);
    OwingAfter(FlatTakes(c, what, fs[0], vs[0], w0), w0, r.w, rest.w, w, Handles(fs[0], vs[0], what), Visited(g.p, fs[0], vs[0], what),
               0, 0, 0, 0);
    LowerTyped(c, fs[0], vs[0], w0);
  }

  lemma MappedNothing(w: World)
    ensures Mapped(w.mem, 0, 0)
  {
  }

  lemma {:induction false} DeallocRecordSim(k: Ctx, g: Gen, what: Deallocate, rk: RecordKind, fs: seq<Ty>, v: Val, xs: seq<Var>,
                                            w0: World, n: Var, s: Machine)
    requires k.p == g.p && FlatDebt(g, Record(rk, fs), v, w0, s.w) && Unfixed(Record(rk, fs))
    requires HoldsLowered(k, g, Record(rk, fs), v, w0, xs, n, s) && |xs| == |FlatFields(fs)| && AllWellFormed(fs)
    ensures Yields(k, DeallocFieldsCode(g, what, fs, xs, n), n, s, Silent(FlatRest(g, what, Record(rk, fs), v, w0, s.w)))
    decreases fs, 1
  {
    hide Yields, Run, DeallocFieldsCode, LowerFields, Released, Keeps, Owing, HoldsFlat, FlatFields, FlatFieldsTake;
    DeallocFieldsSim(k, g, what, fs, v.fields, xs, w0, n, s);
  }

  lemma {:induction false} DeallocFieldsSim(k: Ctx, g: Gen, what: Deallocate, fs: seq<Ty>, vs: seq<Val>, xs: seq<Var>, w0: World,
                                            n: Var, s: Machine)
    requires k.p == g.p && FlatFieldsDebt(g, fs, vs, w0, s.w) && |xs| == |FlatFields(fs)|
    requires HoldsFlat(k, g, FlatFields(fs), LowerFields(Owning(g), fs, vs, w0).value.flat, xs, n, s)
    ensures AllWellFormed(fs) && forall f | f in fs :: Unfixed(f)
    ensures Yields(k, DeallocFieldsCode(g, what, fs, xs, n), n, s,
                   Silent(Released(s.w, FlatFieldsTake(Owning(g), what, fs, vs, w0))))
    decreases fs, 0
  {
    hide Yields, Run, DeallocCode, Released, HoldsFlat, FlatDebt, FlatFieldsDebt, LowerFlat, LowerFields, Between, FlatTakes, Unfixed, WellFormed, Flat;
    FlatFieldsShape(g, fs, vs, w0, s.w);
    if fs == [] {
      ReleasedNothing(s.w);
      NoCode(k, n, s);
    } else {
      SplitFlat(g, what, fs, vs, w0, s.w);
      var h := |Flat(fs[0])|;
      var r := LowerFlat(Owning(g), fs[0], vs[0], w0).value;
      var rest := LowerFields(Owning(g), fs[1..], vs[1..], r.w).value;
      var all := r.flat + rest.flat;
      FlatSlice(k, g, FlatFields(fs), all, xs, n, s, 0, h, Flat(fs[0]));
      FlatSlice(k, g, FlatFields(fs), all, xs, n, s, h, |xs|, FlatFields(fs[1..]));
      FlatLength(k, g, FlatFields(fs), all, xs, n, s);
      assert all[0..h] == r.flat && all[h..|xs|] == rest.flat && xs[0..h] == xs[..h] && xs[h..|xs|] == xs[h..];
      var c := DeallocCode(g, what, fs[0], xs[..h], n);
      var mid := FlatRest(g, what, fs[0], vs[0], w0, s.w);
      DeallocSim(k, g, what, fs[0], vs[0], xs[..h], w0, n, s);
      AfterYields(k, c, n, s, [], mid);
      FlatLater(k, g, FlatFields(fs[1..]), rest.flat, xs[h..], n, s, c, Silent(mid));
      DeallocFieldsSim(k, g, what, fs[1..], vs[1..], xs[h..], r.w, c.next, After(k, c, s));
      var others := FlatFieldsTake(Owning(g), what, fs[1..], vs[1..], r.w);
      var last := Released(mid, others);
      ReleasedTwice(s.w, FlatTakes(Owning(g), what, fs[0], vs[0], w0), others);
      YieldsThen(k, c, DeallocFieldsCode(g, what, fs[1..], xs[h..], c.next), n, s, Silent(mid), Silent(last));
    }
  }

  lemma FlatFieldsShape(g: Gen, fs: seq<Ty>, vs: seq<Val>, w0: World, w: World)
    requires FlatFieldsDebt(g, fs, vs, w0, w)
    ensures |vs| == |fs| && AllWellFormed(fs) && (forall f | f in fs :: Unfixed(f)) && LowerFields(Owning(g), fs, vs, w0).Ok?
  {
  }

  // ----- flat variants -----

  lemma {:induction false} DeallocArmAt(g: Gen, what: Deallocate, arms: seq<Option<Ty>>, slots: seq<WasmType>, xs: seq<Var>, n: Var, i: nat)
    returns (m: Var)
    requires ArmsWellFormed(arms) && (forall a | a in arms :: ArmUnfixed(a)) && ArmsBelow(arms, slots) && |xs| == |slots| && i < |arms|
    ensures n <= m && (arms[i].Some? ==> WellFormed(arms[i].value)) && ArmUnfixed(arms[i]) && Below(FlatArm(arms[i]), slots)
    ensures DeallocArmsCode(g, what, arms, slots, xs, n).blocks[i] == DeallocArmCode(g, what, arms[i], slots, xs, m).block
  {
    hide DeallocArmCode, WellFormed, ArmUnfixed, Below, FlatArm;
    assert arms[0] in arms;
    if i == 0 {
      m := n;
    } else {
      var w := DeallocArmCode(g, what, arms[0], slots, xs, n);
      m := DeallocArmAt(g, what, arms[1..], slots, xs, w.next, i - 1);
      assert arms[1..][i - 1] == arms[i];
    }
  }

  /** A variant's flat debt is its payload's; its payload's words can be recovered. */
  lemma SplitFlatVariant(g: Gen, what: Deallocate, vk: VariantKind, arms: seq<Option<Ty>>, v: Val, w0: World, w: World)
    requires FlatDebt(g, Variant(vk, arms), v, w0, w) && Unfixed(Variant(vk, arms))
    ensures LowerFlat(Owning(g), Variant(vk, arms), v, w0).Ok? && ArmsWellFormed(arms) && v.VariantV? && v.arm < |arms|
    ensures forall a | a in arms :: ArmUnfixed(a)
    ensures var fs := LowerFlat(Owning(g), Variant(vk, arms), v, w0).value.flat;
            var arm := arms[v.arm];
            && |fs| == 1 + |FlatArms(arms)| && fs[0] == Core(I32, v.arm) && Below(FlatArm(arm), FlatArms(arms))
            && (arm.Some? ==>
                 && v.payload.Some? && FlatDebt(g, arm.value, v.payload.value, w0, w)
                 && LowerFlat(Owning(g), arm.value, v.payload.value, w0).Ok?
                 && FlatRest(g, what, Variant(vk, arms), v, w0, w) == FlatRest(g, what, arm.value, v.payload.value, w0, w)
                 && ApplyCasts(CastsDown(FlatArm(arm), FlatArms(arms)), fs[1..][..|FlatArm(arm)|], g.p)
                    == Ok(LowerFlat(Owning(g), arm.value, v.payload.value, w0).value.flat))
            && (arm.None? ==> FlatRest(g, what, Variant(vk, arms), v, w0, w) == w)
  {
    hide LowerFlat, Widen, ApplyCasts, CastsDown, HasType, WellFormed, Keeps, Owing, Released, Core.Valid, Unfixed, Below;
    var c := Owning(g);
    FlatVariantShape(g, vk, arms, v, w0, w);
    var arm := arms[v.arm];
    VariantParts(c, vk, arms, v, w0);
    LowerVariantTyped(c, vk, arms, v, w0);
    assert FlatTakes(c, what, Variant(vk, arms), v, w0) == FlatArmTakes(c, what, arm, v.payload, w0);
    ReleasedNothing(w);
    var r := LowerArm(c, arm, v.payload, w0).value;
    WidenRoundTrip(g.p, FlatArm(arm), FlatArms(arms), r.flat);
    var ys := Widen(g.p, FlatArm(arm), FlatArms(arms), r.flat).value;
    assert ([Core(I32, v.arm)] + ys)[1..] == ys;
  }

  lemma FlatVariantShape(g: Gen, vk: VariantKind, arms: seq<Option<Ty>>, v: Val, w0: World, w: World)
    requires FlatDebt(g, Variant(vk, arms), v, w0, w) && Unfixed(Variant(vk, arms))
    ensures WellFormed(Variant(vk, arms)) && HasType(g.p, Variant(vk, arms), v) && ArmsWellFormed(arms)
    ensures v.VariantV? && v.arm < |arms| && (arms[v.arm].Some? ==> v.payload.Some? && WellFormed(arms[v.arm].value) && HasType(g.p, arms[v.arm].value, v.payload.value))
    ensures forall a | a in arms :: ArmUnfixed(a)
    ensures LowerFlat(Owning(g), Variant(vk, arms), v, w0).Ok?
  {
    hide LowerFlat, Keeps, Owing;
    VariantTyped(g.p, vk, arms, v);
  }

  lemma {:induction false} DeallocVariantSim(k: Ctx, g: Gen, what: Deallocate, vk: VariantKind, arms: seq<Option<Ty>>, v: Val,
                                             xs: seq<Var>, w0: World, n: Var, s: Machine)
    requires k.p == g.p && FlatDebt(g, Variant(vk, arms), v, w0, s.w) && Unfixed(Variant(vk, arms))
    requires HoldsLowered(k, g, Variant(vk, arms), v, w0, xs, n, s)
    ensures ArmsWellFormed(arms) && (forall a | a in arms :: ArmUnfixed(a)) && |xs| == 1 + |FlatArms(arms)|
    ensures Yields(k, DeallocVariantCode(g, what, arms, xs, n), n, s, Silent(FlatRest(g, what, Variant(vk, arms), v, w0, s.w)))
    decreases arms, 2
  {
    hide Yields, Run, DeallocArmsCode, DeallocArmCode, WellFormed, HoldsFlat, FlatArms, FlatArm, RunBlock, LowerFlat, Perform, FlatDebt, FlatRest,
      ArmUnfixed, Unfixed, Below, ApplyCasts, CastsDown;
    var slots := FlatArms(arms);
    SplitFlatVariant(g, what, vk, arms, v, w0, s.w);
    var fs := LowerFlat(Owning(g), Variant(vk, arms), v, w0).value.flat;
    VariantFlat(vk, arms);
    FlatLength(k, g, [I32] + slots, fs, xs, n, s);
    AllArmsBelow(arms);
    var a := DeallocArmsCode(g, what, arms, slots, xs[1..], n);
    TagLookup(k, g, slots, fs, xs, n, s);
    var i := v.arm;
    var m := DeallocArmAt(g, what, arms, slots, xs[1..], n, i);
    ShiftFlat(k, g, slots, fs[1..], xs[1..], n, s, m);
    var o := Silent(FlatRest(g, what, Variant(vk, arms), v, w0, s.w));
    DeallocArmSim(k, g, what, arms[i], v.payload, slots, fs[1..], xs[1..], w0, m, s);
    FreePerform(k, [xs[0]], a.next, a.blocks, i, s, o);
    YieldsTake(k, GuestDeallocateVariant(|arms|), [xs[0]], a.next, a.blocks, [], n, s, [CoreOp(fs[0])], o);
  }

  lemma VariantFlat(vk: VariantKind, arms: seq<Option<Ty>>)
    ensures Flat(Variant(vk, arms)) == [I32] + FlatArms(arms)
  {
    hide FlatArms;
  }

  lemma {:induction false} DeallocArmSim(k: Ctx, g: Gen, what: Deallocate, arm: Option<Ty>, payload: Option<Val>, slots: seq<WasmType>,
                                         fs: seq<Core>, xs: seq<Var>, w0: World, m: Var, s: Machine)
    requires k.p == g.p && Below(FlatArm(arm), slots) && HoldsFlat(k, g, slots, fs, xs, m, s) && |xs| == |slots| == |fs|
    requires (arm.Some? ==> WellFormed(arm.value)) && ArmUnfixed(arm)
    requires arm.Some? ==>
               && payload.Some? && FlatDebt(g, arm.value, payload.value, w0, s.w)
               && LowerFlat(Owning(g), arm.value, payload.value, w0).Ok?
               && ApplyCasts(CastsDown(FlatArm(arm), slots), fs[..|FlatArm(arm)|], g.p)
                  == Ok(LowerFlat(Owning(g), arm.value, payload.value, w0).value.flat)
    ensures RunBlock(k, DeallocArmCode(g, what, arm, slots, xs, m).block, s)
         == Silent(if arm.Some? then FlatRest(g, what, arm.value, payload.value, w0, s.w) else s.w)
    decreases arm, 1
  {
    hide Yields, Run, DeallocCode, WellFormed, Flat, CastCode, RunBlock, CastsDown, Leq, HoldsFlat, ApplyCasts, FlatDebt, FlatRest, LowerFlat, Unfixed;
    if arm.None? {
      NoCode(k, m, s);
      YieldsBlock(k, Chunk([], [], m), m, s, Silent(s.w));
    } else {
      var flat := FlatArm(arm);
      var h := |flat|;
      FlatSlice(k, g, slots, fs, xs, m, s, 0, h, flat);
      assert fs[0..h] == fs[..h] && xs[0..h] == xs[..h];
      FlatLookup(k, g, flat, fs[..h], xs[..h], m, s);
      var casts := CastsDown(flat, slots);
      var b := CastCode(casts, xs[..h], m);
      CastSim(k, casts, xs[..h], fs[..h], m, s);
      var ys := LowerFlat(Owning(g), arm.value, payload.value, w0).value.flat;
      AfterYields(k, b, m, s, CoreOps(ys), s.w);
      MakeFlat(k, g, flat, ys, b.outs, b.next, After(k, b, s));
      var o := Silent(FlatRest(g, what, arm.value, payload.value, w0, s.w));
      DeallocSim(k, g, what, arm.value, payload.value, b.outs, w0, b.next, After(k, b, s));
      var c := DeallocCode(g, what, arm.value, b.outs, b.next);
      YieldsThen(k, b, c, m, s, CastEffect(Ok(ys), s.w), o);
      YieldsBlock(k, Then(b, c), m, s, o);
    }
  }
}
