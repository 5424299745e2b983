/** What a lowered value owns, and the world once all of it has been freed. */
module Freeing {
  import opened Wrappers
  import opened CoreTypes
  import opened Layout
  import opened Memory
  import opened Values
  import opened CanonicalAbi
  import opened DeallocCodegen

  // ----- the handles of a value -----

  /** The handles that `what` drops, in the order in which they are reached. */
  function Handles(t: Ty, v: Val, what: Deallocate): seq<nat>
    decreases t, 1
  {
    match t
    case Scalar(p) => if OwnedHandle(p) && what.Handles() && v.Num? && v.n >= 0 then [v.n] else []
    case Alias(u) => Handles(u, v, what)
    case List(e) => if v.ListV? then ElemHandles(e, v.elems, what) else []
    case Map(e) => if v.ListV? then ElemHandles(e, v.elems, what) else []
    case FixedList(e, _) => if v.ListV? then ElemHandles(e, v.elems, what) else []
    case Record(_, fs) => if v.RecordV? then FieldHandles(fs, v.fields, what) else []
    case Variant(_, arms) => if v.VariantV? && v.arm < |arms| then ArmHandles(arms[v.arm], v.payload, what) else []
    case _ => []
  }

  function ElemHandles(e: Ty, vs: seq<Val>, what: Deallocate): seq<nat>
    decreases e, |vs| + 2
  {
    if vs == [] then [] else Handles(e, vs[0], what) + ElemHandles(e, vs[1..], what)
  }

  function FieldHandles(fs: seq<Ty>, vs: seq<Val>, what: Deallocate): seq<nat>
    decreases fs, 0
  {
    if fs == [] || vs == [] then [] else Handles(fs[0], vs[0], what) + FieldHandles(fs[1..], vs[1..], what)
  }

  function ArmHandles(arm: Option<Ty>, payload: Option<Val>, what: Deallocate): seq<nat>
    decreases arm, 0
  {
    if arm.Some? && payload.Some? then Handles(arm.value, payload.value, what) else []
  }

  /** A `u` occurs in a `t`, also in lists and maps. */
  ghost predicate Holds(t: Ty, u: Ty)
    decreases t
  {
    || t == u
    || match t
       case Alias(x) => Holds(x, u)
       case List(e) => Holds(e, u)
       case Map(e) => Holds(e, u)
       case FixedList(e, _) => Holds(e, u)
       case Record(_, fs) => exists i :: 0 <= i < |fs| && Holds(fs[i], u)
       case Variant(_, arms) => exists i :: 0 <= i < |arms| && ArmHolds(arms[i], u)
       case _ => false
  }

  ghost predicate ArmHolds(arm: Option<Ty>, u: Ty)
    decreases arm
  {
    arm.Some? && Holds(arm.value, u)
  }

  /** Types that are freed completely: the elements of a fixed-length list, which are
      never visited, must own nothing. */
  ghost predicate Freeable(t: Ty, what: Deallocate) {
    forall e: Ty, n: nat | Holds(t, FixedList(e, n)) :: !NeedsDeallocate(e, what)
  }

  // ----- types that own nothing -----

  /** Nothing that has to be freed appeared between `w0` and `w1`. */
  ghost predicate NothingOwned(w0: World, w1: World) {
    w1.mem.Keys == w0.mem.Keys && w1.live == w0.live
  }

  /** The early return of `deallocate_indirect` skips only types that own nothing. */
  lemma {:induction false} OwnsNothing(c: Cfg, t: Ty, v: Val, a: nat, w: World, what: Deallocate)
    requires !NeedsDeallocate(t, what) && Store(c, t, v, a, w).Ok?
    ensures NothingOwned(w, Store(c, t, v, a, w).value) && Handles(t, v, what) == []
    decreases t, 2
  {
    hide StoreInt, NothingOwned, ToCore, LowBits, TagSize, Width, PayloadOffset, ToWords, StoreArm;
    match t
    case Scalar(s) => IntOwnsNothing(w, a, LowBits(s, ToCore(s, v.n)), Width(s));
    case Alias(u) => OwnsNothing(c, u, v, a, w, what);
    case FixedList(e, n) => ElemsOwnNothing(c, e, v.elems, a, w, what);
    case Record(_, fs) => FieldsOwnNothing(c, fs, v.fields, a, 0, w, what);
    case Flags(n) => FlagsOwnNothing(n, ToWords(v.bits), a, w);
    case Enum(n) => IntOwnsNothing(w, a, v.arm, TagSize(n));
    case Variant(_, arms) =>
      var w1 := StoreInt(w, a, v.arm, TagSize(|arms|)).value;
      IntOwnsNothing(w, a, v.arm, TagSize(|arms|));
      assert !ArmNeeds(arms[v.arm], what);
      ArmOwnsNothing(c, arms[v.arm], v.payload, a + PayloadOffset(c.p, arms), w1, what);
      NothingTwice(w, w1, Store(c, t, v, a, w).value);
  }

  lemma {:induction false} ArmOwnsNothing(c: Cfg, arm: Option<Ty>, payload: Option<Val>, a: nat, w: World, what: Deallocate)
    requires !ArmNeeds(arm, what) && StoreArm(c, arm, payload, a, w).Ok?
    ensures NothingOwned(w, StoreArm(c, arm, payload, a, w).value) && ArmHandles(arm, payload, what) == []
    decreases arm, 0
  {
    hide Store, Handles, NeedsDeallocate;
    if arm.Some? { OwnsNothing(c, arm.value, payload.value, a, w, what); }
  }

  lemma NothingTwice(w0: World, w1: World, w2: World)
    requires NothingOwned(w0, w1) && NothingOwned(w1, w2)
    ensures NothingOwned(w0, w2)
  {
  }

  lemma IntOwnsNothing(w: World, a: nat, n: nat, k: nat)
    requires StoreInt(w, a, n, k).Ok?
    ensures NothingOwned(w, StoreInt(w, a, n, k).value)
  {
    StoreGrows(w, a, Encode(n, k));
  }

  lemma FlagsOwnNothing(n: nat, ws: seq<nat>, a: nat, w: World)
    requires |ws| == FlagWords(n) && StoreFlags(n, ws, a, w).Ok?
    ensures NothingOwned(w, StoreFlags(n, ws, a, w).value)
  {
    if 0 < n <= 16 {
      IntOwnsNothing(w, a, ws[0] % Pow256(FlagBytes(n)), FlagBytes(n));
    } else {
      WordsOwnNothing(ws, a, w);
    }
  }

  lemma {:induction false} WordsOwnNothing(ws: seq<nat>, a: nat, w: World)
    requires StoreWords(ws, a, w).Ok?
    ensures NothingOwned(w, StoreWords(ws, a, w).value)
  {
    hide StoreInt;
    if ws != [] {
      var i := |ws| - 1;
      IntOwnsNothing(w, a + 4 * i, ws[i], 4);
      WordsOwnNothing(ws[..i], a, StoreInt(w, a + 4 * i, ws[i], 4).value);
    }
  }

  lemma {:induction false} ElemsOwnNothing(c: Cfg, e: Ty, vs: seq<Val>, a: nat, w: World, what: Deallocate)
    requires !NeedsDeallocate(e, what) && StoreElems(c, e, vs, a, w).Ok?
    ensures NothingOwned(w, StoreElems(c, e, vs, a, w).value) && ElemHandles(e, vs, what) == []
    decreases e, |vs| + 3
  {
    hide Store, Handles, NeedsDeallocate;
    if vs != [] {
      OwnsNothing(c, e, vs[0], a, w, what);
      ElemsOwnNothing(c, e, vs[1..], a + Size(c.p, e), Store(c, e, vs[0], a, w).value, what);
    }
  }

  lemma {:induction false} FieldsOwnNothing(c: Cfg, fs: seq<Ty>, vs: seq<Val>, a: nat, off: nat, w: World, what: Deallocate)
    requires (forall i | 0 <= i < |fs| :: !NeedsDeallocate(fs[i], what)) && StoreFields(c, fs, vs, a, off, w).Ok?
    ensures NothingOwned(w, StoreFields(c, fs, vs, a, off, w).value) && FieldHandles(fs, vs, what) == []
    decreases fs, 0
  {
    hide Store, Handles, NeedsDeallocate;
    if fs != [] {
      var o := FieldOffset(c.p, fs[0], off);
      OwnsNothing(c, fs[0], vs[0], a + o, w, what);
      FieldsOwnNothing(c, fs[1..], vs[1..], a, o + Size(c.p, fs[0]), Store(c, fs[0], vs[0], a + o, w).value, what);
    }
  }

  // ----- debts -----

  /** Everything that appeared between `w0` and `w1` is still owned in `w`. */
  ghost predicate Owing(w0: World, w1: World, w: World) {
    Sound(w0) && w1.live - w0.live <= w.live
  }

  /** `w` after freeing exactly what appeared between `w0` and `w1`, and dropping `hs`. */
  ghost function Freed(w0: World, w1: World, w: World, hs: seq<nat>): World {
    World(w.mem - (w1.mem.Keys - w0.mem.Keys), w.live - (w1.live - w0.live), w.temps, w.dropped + hs)
  }

  lemma FreedNothing(w0: World, w1: World, w: World)
    requires NothingOwned(w0, w1)
    ensures Freed(w0, w1, w, []) == w
  {
    var f := Freed(w0, w1, w, []);
    assert w1.mem.Keys - w0.mem.Keys == {} && w1.live - w0.live == {};
    assert w.mem - {} == w.mem && w.live - {} == w.live && w.dropped + [] == w.dropped;
  }

  /** Between `w0` and `w2` by way of `w1`, nothing disappears. */
  ghost predicate Between(w0: World, w1: World, w2: World) {
    w0.mem.Keys <= w1.mem.Keys <= w2.mem.Keys && w0.live <= w1.live <= w2.live
  }

  lemma GrowsBetween(w0: World, w1: World, w2: World, a: nat, n: nat, a': nat, n': nat)
    requires Grows(w0, w1, a, n) && Grows(w1, w2, a', n')
    ensures Between(w0, w1, w2)
  {
  }

  lemma OwingFirst(w0: World, w1: World, w2: World, w: World)
    requires Between(w0, w1, w2) && Owing(w0, w2, w)
    ensures Owing(w0, w1, w)
  {
  }

  /** Freeing the block of one allocation pays exactly its debt. */
  lemma FreeAllocated(w0: World, size: nat, align: nat, p: PtrSize, w: World)
    requires IsAlign(align) && Alloc(w0, size, align, p, true).Ok?
    requires Owing(w0, Alloc(w0, size, align, p, true).value.w, w)
    ensures var al := Alloc(w0, size, align, p, true).value;
            Free(w, al.addr, size, align) == Ok(Freed(w0, al.w, w, []))
  {
    var al := Alloc(w0, size, align, p, true).value;
    if size == 0 {
      FreedNothing(w0, al.w, w);
    } else {
      var b := Block(al.addr, size, align);
      assert b.addr !in w0.mem && b.addr <= b.addr < b.addr + b.size;
      assert b !in w0.live;
      assert al.w.live - w0.live == {b};
      assert al.w.mem.Keys - w0.mem.Keys == Range(al.addr, size) by {
        forall x | x in Range(al.addr, size) ensures x !in w0.mem.Keys { AllocGrows(w0, size, align, p, true); }
      }
      assert w.dropped + [] == w.dropped;
    }
  }
}
