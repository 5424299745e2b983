/** What the generator emits to free the buffers, and drop the handles, of lowered values. */
module DeallocCodegen {
  import opened Wrappers
  import opened CoreTypes
  import opened Layout
  import opened CanonicalAbi
  import opened Code
  import opened Codegen

  /** `Lists` frees buffers only; `ListsAndOwn` also drops handles. */
  datatype Deallocate = Lists | ListsAndOwn {
    predicate Handles() {
      ListsAndOwn?
    }
  }

  predicate OwnedHandle(p: Prim) {
    p == Own || p == Future || p == Stream
  }

  /** `needs_deallocate`. */
  predicate NeedsDeallocate(t: Ty, what: Deallocate)
    decreases t
  {
    match t
    case Scalar(p) => p == ErrorContext || (OwnedHandle(p) && what.Handles())
    case Str | List(_) | Map(_) => true
    case Alias(u) => NeedsDeallocate(u, what)
    case FixedList(e, _) => NeedsDeallocate(e, what)
    case Record(_, fs) => exists i :: 0 <= i < |fs| && NeedsDeallocate(fs[i], what)
    case Variant(_, arms) => exists i :: 0 <= i < |arms| && ArmNeeds(arms[i], what)
    case _ => false
  }

  predicate ArmNeeds(arm: Option<Ty>, what: Deallocate)
    decreases arm
  {
    arm.Some? && NeedsDeallocate(arm.value, what)
  }

  /** No fixed-length list outside lists and maps. */
  predicate Unfixed(t: Ty)
    decreases t
  {
    match t
    case Alias(u) => Unfixed(u)
    case FixedList(_, _) => false
    case Record(_, fs) => forall f | f in fs :: Unfixed(f)
    case Variant(_, arms) => forall a | a in arms :: ArmUnfixed(a)
    case _ => true
  }

  predicate ArmUnfixed(arm: Option<Ty>)
    decreases arm
  {
    arm.Some? ==> Unfixed(arm.value)
  }

  // ----- the types that are visited -----

  /** A `u` occurs in a `t` outside lists and maps. */
  ghost predicate Carries(t: Ty, u: Ty)
    decreases t
  {
    || t == u
    || match t
       case Alias(x) => Carries(x, u)
       case FixedList(e, _) => Carries(e, u)
       case Record(_, fs) => exists i :: 0 <= i < |fs| && Carries(fs[i], u)
       case Variant(_, arms) => exists i :: 0 <= i < |arms| && ArmCarries(arms[i], u)
       case _ => false
  }

  ghost predicate ArmCarries(arm: Option<Ty>, u: Ty)
    decreases arm
  {
    arm.Some? && Carries(arm.value, u)
  }

  /** Buffers and error contexts are visited in both modes, owned handles, futures and
      streams if handles are to be dropped, and nothing else. */
  predicate Visits(u: Ty, what: Deallocate) {
    || u.Str? || u.List? || u.Map? || u == Scalar(ErrorContext)
    || (what.ListsAndOwn? && (u == Scalar(Own) || u == Scalar(Future) || u == Scalar(Stream)))
  }

  /** Deallocation does not return early exactly if something in the type is visited. */
  lemma {:induction false} NeedsIsExact(t: Ty, what: Deallocate)
    ensures NeedsDeallocate(t, what) <==> exists u :: Carries(t, u) && Visits(u, what)
    decreases t, 1
  {
    hide Visits;
    match t
    case Alias(x) => NeedsIsExact(x, what); NotItself(t, what);
    case FixedList(e, _) => NeedsIsExact(e, what); NotItself(t, what);
    case Record(_, fs) =>
      forall i | 0 <= i < |fs| ensures NeedsDeallocate(fs[i], what) <==> exists u :: Carries(fs[i], u) && Visits(u, what) {
        NeedsIsExact(fs[i], what);
      }
      NotItself(t, what);
    case Variant(_, arms) =>
      forall i | 0 <= i < |arms| ensures ArmNeeds(arms[i], what) <==> exists u :: ArmCarries(arms[i], u) && Visits(u, what) {
        ArmNeedsIsExact(arms[i], what);
      }
      NotItself(t, what);
    case _ => LeafNeeds(t, what);
  }

  lemma NotItself(t: Ty, what: Deallocate)
    requires t.Alias? || t.FixedList? || t.Record? || t.Variant?
    ensures !Visits(t, what)
  {
  }

  lemma LeafNeeds(t: Ty, what: Deallocate)
    requires !t.Alias? && !t.FixedList? && !t.Record? && !t.Variant?
    ensures NeedsDeallocate(t, what) <==> Visits(t, what)
    ensures forall u :: Carries(t, u) <==> t == u
  {
  }

  lemma {:induction false} ArmNeedsIsExact(arm: Option<Ty>, what: Deallocate)
    ensures ArmNeeds(arm, what) <==> exists u :: ArmCarries(arm, u) && Visits(u, what)
    decreases arm, 0
  {
    hide Visits;
    if arm.Some? { NeedsIsExact(arm.value, what); }
  }

  // ----- deallocate -----

  function DeallocCode(g: Gen, what: Deallocate, t: Ty, xs: seq<Var>, n: Var): (c: Chunk)
    requires WellFormed(t) && Unfixed(t) && |xs| == |Flat(t)|
    ensures n <= c.next && c.outs == []
    decreases t, 2
  {
    hide DeallocCode, DeallocListCode, DeallocMapCode, DeallocFieldsCode, DeallocVariantCode, FlatFields, FlatArms;
    match t
    case Str => One(GuestDeallocateString, xs, n)
    case Scalar(p) => DropCode(p, what, xs, n)
    case Alias(u) => DeallocCode(g, what, u, xs, n)
    case List(e) => DeallocListCode(g, what, e, xs, n)
    case Map(e) => DeallocMapCode(g, what, e, xs, n)
    case Record(_, fs) => DeallocFieldsCode(g, what, fs, xs, n)
    case Variant(_, arms) => DeallocVariantCode(g, what, arms, xs, n)
    case _ => Chunk([], [], n)
  }

  /** Owned handles are lifted and dropped; other scalars are discarded. */
  function DropCode(p: Prim, what: Deallocate, xs: seq<Var>, n: Var): (c: Chunk)
    ensures n <= c.next && c.outs == []
  {
    if OwnedHandle(p) && what.Handles() then
      var l := One(ScalarLift(p), xs, n);
      Then(l, One(DropHandle(p), l.outs, l.next))
    else Chunk([], [], n)
  }

  function DeallocListCode(g: Gen, what: Deallocate, e: Ty, xs: seq<Var>, n: Var): (c: Chunk)
    requires WellFormed(e)
    ensures n <= c.next && c.outs == []
    decreases e, 5
  {
    hide ElemFreer;
    var w := ElemFreer(g, what, e, n);
    Take(GuestDeallocateList(e), xs, w.next, [w.block], [])
  }

  function DeallocMapCode(g: Gen, what: Deallocate, e: Ty, xs: seq<Var>, n: Var): (c: Chunk)
    requires WellFormed(e) && e.Record? && |e.fields| == 2
    ensures n <= c.next && c.outs == []
    decreases e, 5
  {
    hide EntryFreer;
    var w := EntryFreer(g, what, e, n);
    Take(GuestDeallocateMap(e), xs, w.next, [w.block], [])
  }

  function DeallocFieldsCode(g: Gen, what: Deallocate, fs: seq<Ty>, xs: seq<Var>, n: Var): (c: Chunk)
    requires AllWellFormed(fs) && (forall f | f in fs :: Unfixed(f)) && |xs| == |FlatFields(fs)|
    ensures n <= c.next && c.outs == []
    decreases fs, 0
  {
    if fs == [] then Chunk([], [], n)
    else
      var k := |Flat(fs[0])|;
      var c := DeallocCode(g, what, fs[0], xs[..k], n);
      Then(c, DeallocFieldsCode(g, what, fs[1..], xs[k..], c.next))
  }

  function DeallocVariantCode(g: Gen, what: Deallocate, arms: seq<Option<Ty>>, xs: seq<Var>, n: Var): (c: Chunk)
    requires ArmsWellFormed(arms) && (forall a | a in arms :: ArmUnfixed(a)) && |xs| == 1 + |FlatArms(arms)|
    ensures n <= c.next && c.outs == []
    decreases arms, 1
  {
    hide DeallocArmsCode, FlatArms;
    AllArmsBelow(arms);
    var a := DeallocArmsCode(g, what, arms, FlatArms(arms), xs[1..], n);
    Take(GuestDeallocateVariant(|arms|), [xs[0]], a.next, a.blocks, [])
  }

  function DeallocArmsCode(g: Gen, what: Deallocate, arms: seq<Option<Ty>>, slots: seq<WasmType>, xs: seq<Var>, n: Var): (r: Arms)
    requires ArmsWellFormed(arms) && (forall a | a in arms :: ArmUnfixed(a))
    requires ArmsBelow(arms, slots) && |xs| == |slots|
    ensures n <= r.next && |r.blocks| == |arms|
    decreases arms, 0
  {
    if arms == [] then Arms([], [], n)
    else
      assert arms[0] in arms;
      var w := DeallocArmCode(g, what, arms[0], slots, xs, n);
      var rest := DeallocArmsCode(g, what, arms[1..], slots, xs, w.next);
      Arms([w.block] + rest.blocks, [], rest.next)
  }

  function DeallocArmCode(g: Gen, what: Deallocate, arm: Option<Ty>, slots: seq<WasmType>, xs: seq<Var>, n: Var): (r: Writer)
    requires (arm.Some? ==> WellFormed(arm.value)) && ArmUnfixed(arm) && Below(FlatArm(arm), slots) && |xs| == |slots|
    ensures n <= r.next
    decreases arm, 0
  {
    if arm.None? then Writer(CodeBlock([], []), n)
    else
      var b := CastCode(CastsDown(FlatArm(arm), slots), xs[..|FlatArm(arm)|], n);
      var c := Then(b, DeallocCode(g, what, arm.value, b.outs, b.next));
      Writer(CodeBlock(c.code, []), c.next)
  }

  /** The block that frees what one list element owns. */
  function ElemFreer(g: Gen, what: Deallocate, e: Ty, n: Var): (r: Writer)
    requires WellFormed(e)
    ensures n <= r.next
    decreases e, 4
  {
    var a := One(IterBasePointer, [], n);
    var c := FreeCode(g, what, e, a.outs[0], 0, a.next);
    Writer(CodeBlock(a.code + c.code, []), c.next)
  }

  function EntryFreer(g: Gen, what: Deallocate, e: Ty, n: Var): (r: Writer)
    requires WellFormed(e) && e.Record? && |e.fields| == 2
    ensures n <= r.next
    decreases e, 4
  {
    hide FreeCode;
    var key, val := e.fields[0], e.fields[1];
    assert key in e.fields && val in e.fields;
    var a := One(IterBasePointer, [], n);
    var kc := FreeCode(g, what, key, a.outs[0], 0, a.next);
    var vc := FreeCode(g, what, val, a.outs[0], ValueOffset(g.p, e), kc.next);
    var c := Then(a, Then(kc, vc));
    Writer(CodeBlock(c.code, []), c.next)
  }

  // ----- deallocate_indirect -----

  /** Nothing at all is emitted for types that own nothing. */
  function FreeCode(g: Gen, what: Deallocate, t: Ty, a: Var, off: nat, n: Var): (c: Chunk)
    requires WellFormed(t)
    ensures n <= c.next && c.outs == []
    decreases t, 3
  {
    hide FreeCode, FreeBufferCode, FreeFieldsCode, FreeVariantCode;
    if !NeedsDeallocate(t, what) then Chunk([], [], n)
    else
      match t
      case Scalar(p) => if OwnedHandle(p) && what.Handles() then FreeHandleCode(g, p, a, off, n) else Chunk([], [], n)
      case Str | List(_) | Map(_) => FreeBufferCode(g, what, t, a, off, n)
      case Alias(u) => FreeCode(g, what, u, a, off, n)
      case Record(_, fs) => FreeFieldsCode(g, what, fs, a, off, 0, n)
      case Variant(_, arms) => FreeVariantCode(g, what, arms, a, off, n)
      case _ => Chunk([], [], n)
  }

  function FreeHandleCode(g: Gen, p: Prim, a: Var, off: nat, n: Var): (c: Chunk)
    ensures n <= c.next && c.outs == []
  {
    hide ReadCode;
    var l := ReadCode(g, Scalar(p), a, off, n);
    Then(l, One(DropHandle(p), l.outs, l.next))
  }

  function FreeBufferCode(g: Gen, what: Deallocate, t: Ty, a: Var, off: nat, n: Var): (c: Chunk)
    requires WellFormed(t) && (t.Str? || t.List? || t.Map?)
    ensures n <= c.next && c.outs == []
    decreases t, 3, 0
  {
    hide DeallocCode, ReadPairCode;
    var b := ReadPairCode(g, a, off, n);
    Then(b, DeallocCode(g, what, t, b.outs, b.next))
  }

  function FreeFieldsCode(g: Gen, what: Deallocate, fs: seq<Ty>, a: Var, off: nat, pos: nat, n: Var): (c: Chunk)
    requires AllWellFormed(fs)
    ensures n <= c.next && c.outs == []
    decreases fs, 0
  {
    if fs == [] then Chunk([], [], n)
    else
      var o := FieldOffset(g.p, fs[0], pos);
      var c := FreeCode(g, what, fs[0], a, off + o, n);
      Then(c, FreeFieldsCode(g, what, fs[1..], a, off, o + Size(g.p, fs[0]), c.next))
  }

  function FreeVariantCode(g: Gen, what: Deallocate, arms: seq<Option<Ty>>, a: Var, off: nat, n: Var): (c: Chunk)
    requires ArmsWellFormed(arms)
    ensures n <= c.next && c.outs == []
    decreases arms, 1
  {
    hide FreeArmsCode, TagSize, PayloadOffset;
    var l := One(LoadFrom(LoadTag(TagSize(|arms|)), off), [a], n);
    var r := FreeArmsCode(g, what, arms, a, off + PayloadOffset(g.p, arms), l.next);
    Then(l, Take(GuestDeallocateVariant(|arms|), l.outs, r.next, r.blocks, []))
  }

  function FreeArmsCode(g: Gen, what: Deallocate, arms: seq<Option<Ty>>, a: Var, off: nat, n: Var): (r: Arms)
    requires ArmsWellFormed(arms)
    ensures n <= r.next && |r.blocks| == |arms|
    decreases arms, 0
  {
    if arms == [] then Arms([], [], n)
    else
      assert arms[0] in arms;
      var w := FreeArmCode(g, what, arms[0], a, off, n);
      var rest := FreeArmsCode(g, what, arms[1..], a, off, w.next);
      Arms([w.block] + rest.blocks, [], rest.next)
  }

  function FreeArmCode(g: Gen, what: Deallocate, arm: Option<Ty>, a: Var, off: nat, n: Var): (r: Writer)
    requires arm.Some? ==> WellFormed(arm.value)
    ensures n <= r.next
    decreases arm, 0
  {
    if arm.None? then Writer(CodeBlock([], []), n)
    else
      var c := FreeCode(g, what, arm.value, a, off, n);
      Writer(CodeBlock(c.code, []), c.next)
  }
}
