/** What deallocation takes away, exactly, and when that is all that a lowered value owns.
    The elements of a fixed-length list are never visited. */
module Shares {
  import opened Wrappers
  import opened CoreTypes
  import opened Layout
  import opened Memory
  import opened Values
  import opened CanonicalAbi
  import opened AbiFrame
  import opened DeallocCodegen
  import opened Freeing

  // ----- which values own something -----

  /** A value owns something: a string with bytes, a list or map with bytes, or a handle
      that `what` drops. */
  predicate Owns(p: PtrSize, t: Ty, v: Val, what: Deallocate)
    decreases t, 1
  {
    match t
    case Scalar(_) => Handles(t, v, what) != []
    case Str => v.StrV? && v.bytes != []
    case Alias(u) => Owns(p, u, v, what)
    case List(e) => v.ListV? && (Times(|v.elems|, Size(p, e)) > 0 || ElemsOwn(p, e, v.elems, what))
    case Map(e) => v.ListV? && (Times(|v.elems|, Size(p, e)) > 0 || ElemsOwn(p, e, v.elems, what))
    case FixedList(e, _) => v.ListV? && ElemsOwn(p, e, v.elems, what)
    case Record(_, fs) => v.RecordV? && FieldsOwn(p, fs, v.fields, what)
    case Variant(_, arms) => v.VariantV? && v.arm < |arms| && ArmOwns(p, arms[v.arm], v.payload, what)
    case _ => false
  }

  predicate ElemsOwn(p: PtrSize, e: Ty, vs: seq<Val>, what: Deallocate)
    decreases e, |vs| + 2
  {
    vs != [] && (Owns(p, e, vs[0], what) || ElemsOwn(p, e, vs[1..], what))
  }

  predicate FieldsOwn(p: PtrSize, fs: seq<Ty>, vs: seq<Val>, what: Deallocate)
    decreases fs, 0
  {
    fs != [] && vs != [] && (Owns(p, fs[0], vs[0], what) || FieldsOwn(p, fs[1..], vs[1..], what))
  }

  predicate ArmOwns(p: PtrSize, arm: Option<Ty>, payload: Option<Val>, what: Deallocate)
    decreases arm, 0
  {
    arm.Some? && payload.Some? && Owns(p, arm.value, payload.value, what)
  }

  /** Deallocation reaches all that the value owns: every fixed-length list in it owns nothing. */
  predicate Visited(p: PtrSize, t: Ty, v: Val, what: Deallocate)
    decreases t, 1
  {
    match t
    case Alias(u) => Visited(p, u, v, what)
    case List(e) => v.ListV? ==> ElemsVisited(p, e, v.elems, what)
    case Map(e) => v.ListV? ==> ElemsVisited(p, e, v.elems, what)
    case FixedList(_, _) => !Owns(p, t, v, what)
    case Record(_, fs) => v.RecordV? ==> FieldsVisited(p, fs, v.fields, what)
    case Variant(_, arms) => v.VariantV? && v.arm < |arms| ==> ArmVisited(p, arms[v.arm], v.payload, what)
    case _ => true
  }

  predicate ElemsVisited(p: PtrSize, e: Ty, vs: seq<Val>, what: Deallocate)
    decreases e, |vs| + 2
  {
    vs != [] ==> Visited(p, e, vs[0], what) && ElemsVisited(p, e, vs[1..], what)
  }

  predicate FieldsVisited(p: PtrSize, fs: seq<Ty>, vs: seq<Val>, what: Deallocate)
    decreases fs, 0
  {
    fs != [] && vs != [] ==> Visited(p, fs[0], vs[0], what) && FieldsVisited(p, fs[1..], vs[1..], what)
  }

  predicate ArmVisited(p: PtrSize, arm: Option<Ty>, payload: Option<Val>, what: Deallocate)
    decreases arm, 0
  {
    arm.Some? && payload.Some? ==> Visited(p, arm.value, payload.value, what)
  }

  // ----- shares -----

  /** Bytes and blocks that are given back, and handles that are dropped. */
  datatype Share = Share(bytes: set<nat>, blocks: set<Block>, handles: seq<nat>)

  const NOTHING := Share({}, {}, [])

  function Together(s: Share, r: Share): Share {
    Share(s.bytes + r.bytes, s.blocks + r.blocks, s.handles + r.handles)
  }

  /** Everything that appeared between `w0` and `w1`. */
  ghost function All(w0: World, w1: World, hs: seq<nat>): Share {
    Share(w1.mem.Keys - w0.mem.Keys, w1.live - w0.live, hs)
  }

  ghost predicate Part(s: Share, w0: World, w1: World, hs: seq<nat>) {
    s.bytes <= w1.mem.Keys - w0.mem.Keys && s.blocks <= w1.live - w0.live && |s.handles| <= |hs|
  }

  ghost function Released(w: World, s: Share): World {
    World(w.mem - s.bytes, w.live - s.blocks, w.temps, w.dropped + s.handles)
  }

  lemma ReleasedAll(w0: World, w1: World, w: World, hs: seq<nat>)
    ensures Released(w, All(w0, w1, hs)) == Freed(w0, w1, w, hs)
  {
  }

  lemma ReleasedNothing(w: World)
    ensures Released(w, NOTHING) == w
  {
    assert w.mem - {} == w.mem && w.live - {} == w.live && w.dropped + [] == w.dropped;
  }

  lemma ReleasedTwice(w: World, s: Share, r: Share)
    ensures Released(Released(w, s), r) == Released(w, Together(s, r))
  {
    assert (w.mem - s.bytes) - r.bytes == w.mem - (s.bytes + r.bytes);
    assert (w.live - s.blocks) - r.blocks == w.live - (s.blocks + r.blocks);
    assert (w.dropped + s.handles) + r.handles == w.dropped + (s.handles + r.handles);
  }

  /** A share that is given back last, but comes first and drops nothing. */
  lemma ReleasedBefore(w: World, s: Share, r: Share)
    requires r.handles == []
    ensures Released(Released(w, s), r) == Released(w, Together(r, s))
  {
    ReleasedTwice(w, s, r);
    assert Together(s, r) == Together(r, s) by {
      assert s.bytes + r.bytes == r.bytes + s.bytes && s.blocks + r.blocks == r.blocks + s.blocks;
      assert s.handles + [] == [] + s.handles;
    }
  }

  /** What two steps leave is all of it exactly if each leaves all of its own. */
  lemma JoinParts(s: Share, r: Share, w0: World, w1: World, w2: World, hs: seq<nat>, gs: seq<nat>)
    requires Between(w0, w1, w2) && Part(s, w0, w1, hs) && Part(r, w1, w2, gs)
    ensures Part(Together(s, r), w0, w2, hs + gs)
    ensures Together(s, r) == All(w0, w2, hs + gs) <==> s == All(w0, w1, hs) && r == All(w1, w2, gs)
  {
    var k1, k2 := w1.mem.Keys - w0.mem.Keys, w2.mem.Keys - w1.mem.Keys;
    assert w2.mem.Keys - w0.mem.Keys == k1 + k2;
    var b1, b2 := w1.live - w0.live, w2.live - w1.live;
    assert w2.live - w0.live == b1 + b2;
    Halves(s.bytes, r.bytes, k1, k2);
    Halves(s.blocks, r.blocks, b1, b2);
    HalvesInOrder(s.handles, r.handles, hs, gs);
  }

  lemma Halves<T>(s: set<T>, r: set<T>, a: set<T>, b: set<T>)
    requires s <= a && r <= b && a !! b
    ensures s + r == a + b <==> s == a && r == b
  {
    if s + r == a + b {
      forall x | x in a ensures x in s { assert x in s + r; }
      forall x | x in b ensures x in r { assert x in s + r; }
    }
  }

  lemma HalvesInOrder<T>(s: seq<T>, r: seq<T>, a: seq<T>, b: seq<T>)
    requires |s| <= |a| && |r| <= |b|
    ensures s + r == a + b <==> s == a && r == b
  {
    if s + r == a + b {
      assert |s| == |a|;
      assert s == (s + r)[..|s|] && a == (a + b)[..|a|];
      assert r == (s + r)[|s|..] && b == (a + b)[|a|..];
    }
  }

  /** A first step that brought nothing to be given back does not count. */
  lemma PartLater(s: Share, w0: World, w1: World, w2: World, hs: seq<nat>)
    requires NothingOwned(w0, w1)
    ensures Part(s, w1, w2, hs) <==> Part(s, w0, w2, hs)
    ensures All(w1, w2, hs) == All(w0, w2, hs)
  {
  }

  lemma PartEarlier(s: Share, w0: World, w1: World, w2: World, hs: seq<nat>)
    requires NothingOwned(w1, w2)
    ensures Part(s, w0, w1, hs) <==> Part(s, w0, w2, hs)
    ensures All(w0, w1, hs) == All(w0, w2, hs)
  {
  }

  // ----- what deallocation takes of a stored value -----

  ghost function StoreEnd(c: Cfg, t: Ty, v: Val, a: nat, w: World): World {
    var r := Store(c, t, v, a, w);
    if r.Ok? then r.value else w
  }

  /** Of `v`, stored at `a` from `w` on.  Nothing is taken of a fixed-length list. */
  ghost function Takes(c: Cfg, what: Deallocate, t: Ty, v: Val, a: nat, w: World): Share
    decreases t, 2
  {
    match t
    case Scalar(_) => Share({}, {}, Handles(t, v, what))
    case Alias(u) => Takes(c, what, u, v, a, w)
    case Str | List(_) | Map(_) => BufferTakes(c, what, t, v, w)
    case Record(_, fs) => if v.RecordV? then FieldsTake(c, what, fs, v.fields, a, 0, w) else NOTHING
    case Variant(_, arms) =>
      if v.VariantV? && v.arm < |arms| then
        ArmTakes(c, what, arms[v.arm], v.payload, a + PayloadOffset(c.p, arms), TagEnd(arms, v.arm, a, w))
      else NOTHING
    case _ => NOTHING
  }

  ghost function TagEnd(arms: seq<Option<Ty>>, i: nat, a: nat, w: World): World {
    var r := StoreInt(w, a, i, TagSize(|arms|));
    if r.Ok? then r.value else w
  }

  ghost function ArmTakes(c: Cfg, what: Deallocate, arm: Option<Ty>, payload: Option<Val>, a: nat, w: World): Share
    decreases arm, 0
  {
    if arm.Some? && payload.Some? then Takes(c, what, arm.value, payload.value, a, w) else NOTHING
  }

  ghost function FieldsTake(c: Cfg, what: Deallocate, fs: seq<Ty>, vs: seq<Val>, a: nat, off: nat, w: World): Share
    decreases fs, 0
  {
    if fs == [] || vs == [] then NOTHING
    else
      var o := FieldOffset(c.p, fs[0], off);
      Together(Takes(c, what, fs[0], vs[0], a + o, w),
           FieldsTake(c, what, fs[1..], vs[1..], a, o + Size(c.p, fs[0]), StoreEnd(c, fs[0], vs[0], a + o, w)))
  }

  /** The elements' shares, and the block itself. */
  ghost function BufferTakes(c: Cfg, what: Deallocate, t: Ty, v: Val, w: World): Share
    decreases t, 1
  {
    match t
    case Str => if v.StrV? then BlockTakes(w, |v.bytes|, 1, c) else NOTHING
    case List(e) => if v.ListV? then ListTakes(c, what, e, v.elems, w) else NOTHING
    case Map(e) => if v.ListV? then ListTakes(c, what, e, v.elems, w) else NOTHING
    case _ => NOTHING
  }

  ghost function BlockTakes(w: World, size: nat, align: nat, c: Cfg): Share {
    var al := Alloc(w, size, align, c.p, c.own);
    if al.Ok? then All(w, al.value.w, []) else NOTHING
  }

  ghost function ListTakes(c: Cfg, what: Deallocate, e: Ty, vs: seq<Val>, w: World): Share
    decreases e, |vs| + 4
  {
    var al := Alloc(w, Times(|vs|, Size(c.p, e)), Align(c.p, e), c.p, c.own);
    if al.Ok? then Together(All(w, al.value.w, []), ElemsTake(c, what, e, vs, al.value.addr, al.value.w)) else NOTHING
  }

  ghost function ElemsTake(c: Cfg, what: Deallocate, e: Ty, vs: seq<Val>, a: nat, w: World): Share
    decreases e, |vs| + 3
  {
    if vs == [] then NOTHING
    else Together(Takes(c, what, e, vs[0], a, w), ElemsTake(c, what, e, vs[1..], a + Size(c.p, e), StoreEnd(c, e, vs[0], a, w)))
  }

  // ----- owning, in terms of what storing leaves -----

  ghost predicate OwnsNone(w0: World, w1: World, hs: seq<nat>) {
    NothingOwned(w0, w1) && hs == []
  }

  lemma NoneTwice(w0: World, w1: World, w2: World, hs: seq<nat>, gs: seq<nat>)
    requires Between(w0, w1, w2)
    ensures OwnsNone(w0, w2, hs + gs) <==> OwnsNone(w0, w1, hs) && OwnsNone(w1, w2, gs)
  {
  }

  lemma NoneLater(w0: World, w1: World, w2: World, hs: seq<nat>)
    requires NothingOwned(w0, w1)
    ensures OwnsNone(w1, w2, hs) <==> OwnsNone(w0, w2, hs)
  {
  }

  lemma NoneEarlier(w0: World, w1: World, w2: World, hs: seq<nat>)
    requires NothingOwned(w1, w2)
    ensures OwnsNone(w0, w1, hs) <==> OwnsNone(w0, w2, hs)
  {
  }

  /** Storing a value leaves something to be given back exactly if the value owns something. */
  lemma {:induction false} OwnsWhatIsLeft(c: Cfg, what: Deallocate, t: Ty, v: Val, a: nat, w: World)
    requires Store(c, t, v, a, w).Ok?
    ensures OwnsNone(w, Store(c, t, v, a, w).value, Handles(t, v, what)) <==> !Owns(c.p, t, v, what)
    decreases t, 2
  {
    hide StoreInt, NothingOwned, StoreBuffer, StorePair, TagSize, PayloadOffset;
    match t
    case Scalar(s) => IntOwnsNothing(w, a, LowBits(s, ToCore(s, v.n)), Width(s));
    case Alias(u) => OwnsWhatIsLeft(c, what, u, v, a, w);
    case Str | List(_) | Map(_) =>
      var b := StoreBuffer(c, t, v, w).value;
      PairOwnsNothing(c, b, a);
      BufferOwns(c, what, t, v, w);
      NoneEarlier(w, b.w, Store(c, t, v, a, w).value, Handles(t, v, what));
    case FixedList(e, n) => ElemsOwnWhatIsLeft(c, what, e, v.elems, a, w);
    case Record(_, fs) => FieldsOwnWhatIsLeft(c, what, fs, v.fields, a, 0, w);
    case Flags(n) => FlagsOwnNothing(n, ToWords(v.bits), a, w);
    case Enum(n) => IntOwnsNothing(w, a, v.arm, TagSize(n));
    case Variant(vk, arms) => VariantOwns(c, what, vk, arms, v, a, w);
  }

  lemma PairOwnsNothing(c: Cfg, b: Buffer, a: nat)
    requires StorePair(c, b, a).Ok?
    ensures NothingOwned(b.w, StorePair(c, b, a).value)
  {
    hide StoreInt;
    var w1 := StoreInt(b.w, a + c.p, b.len, c.p).value;
    IntOwnsNothing(b.w, a + c.p, b.len, c.p);
    IntOwnsNothing(w1, a, b.ptr, c.p);
  }

  lemma {:induction false} VariantOwns(c: Cfg, what: Deallocate, vk: VariantKind, arms: seq<Option<Ty>>, v: Val, a: nat, w: World)
    requires Store(c, Variant(vk, arms), v, a, w).Ok?
    ensures var t := Variant(vk, arms);
            OwnsNone(w, Store(c, t, v, a, w).value, Handles(t, v, what)) <==> !Owns(c.p, t, v, what)
    decreases arms, 1
  {
    hide StoreInt, TagSize, PayloadOffset, OwnsNone, NothingOwned;
    var t := Variant(vk, arms);
    var arm := arms[v.arm];
    assert arm in arms;
    var w1 := StoreInt(w, a, v.arm, TagSize(|arms|)).value;
    IntOwnsNothing(w, a, v.arm, TagSize(|arms|));
    assert Handles(t, v, what) == ArmHandles(arm, v.payload, what);
    if arm.Some? {
      OwnsWhatIsLeft(c, what, arm.value, v.payload.value, a + PayloadOffset(c.p, arms), w1);
      NoneLater(w, w1, Store(c, t, v, a, w).value, Handles(t, v, what));
    } else {
      NothingIsNone(w, w1);
    }
  }

  lemma NothingIsNone(w0: World, w1: World)
    requires NothingOwned(w0, w1)
    ensures OwnsNone(w0, w1, [])
  {
  }

  lemma {:induction false} FieldsOwnWhatIsLeft(c: Cfg, what: Deallocate, fs: seq<Ty>, vs: seq<Val>, a: nat, off: nat, w: World)
    requires StoreFields(c, fs, vs, a, off, w).Ok?
    ensures OwnsNone(w, StoreFields(c, fs, vs, a, off, w).value, FieldHandles(fs, vs, what)) <==> !FieldsOwn(c.p, fs, vs, what)
    decreases fs, 0
  {
    hide Store, Handles, Owns, OwnsNone, NothingOwned, Between, Size, FieldOffset;
    if fs == [] {
      SameIsNone(w);
    } else {
      var o := FieldOffset(c.p, fs[0], off);
      var end := o + Size(c.p, fs[0]);
      var w1 := Store(c, fs[0], vs[0], a + o, w).value;
      var w2 := StoreFields(c, fs, vs, a, off, w).value;
      OwnsWhatIsLeft(c, what, fs[0], vs[0], a + o, w);
      FieldsOwnWhatIsLeft(c, what, fs[1..], vs[1..], a, end, w1);
      StoreFrame(c, fs[0], vs[0], a + o, w);
      FieldsFrame(c, fs[1..], vs[1..], a, end, w1);
      GrowsBetween(w, w1, w2, a + o, Size(c.p, fs[0]), a + end, FieldsEnd(c.p, fs[1..], end) - end);
      NoneTwice(w, w1, w2, Handles(fs[0], vs[0], what), FieldHandles(fs[1..], vs[1..], what));
    }
  }

  lemma SameIsNone(w: World)
    ensures OwnsNone(w, w, [])
  {
  }

  lemma {:induction false} ElemsOwnWhatIsLeft(c: Cfg, what: Deallocate, e: Ty, vs: seq<Val>, a: nat, w: World)
    requires StoreElems(c, e, vs, a, w).Ok?
    ensures OwnsNone(w, StoreElems(c, e, vs, a, w).value, ElemHandles(e, vs, what)) <==> !ElemsOwn(c.p, e, vs, what)
    decreases e, |vs| + 3
  {
    hide Store, Handles, Owns, OwnsNone, NothingOwned, Between, Size;
    if vs == [] {
      SameIsNone(w);
    } else {
      var sz := Size(c.p, e);
      var w1 := Store(c, e, vs[0], a, w).value;
      var w2 := StoreElems(c, e, vs, a, w).value;
      OwnsWhatIsLeft(c, what, e, vs[0], a, w);
      ElemsOwnWhatIsLeft(c, what, e, vs[1..], a + sz, w1);
      StoreFrame(c, e, vs[0], a, w);
      ElemsFrame(c, e, vs[1..], a + sz, w1);
      GrowsBetween(w, w1, w2, a, sz, a + sz, Times(|vs[1..]|, sz));
      NoneTwice(w, w1, w2, Handles(e, vs[0], what), ElemHandles(e, vs[1..], what));
    }
  }

  /** A block leaves something exactly if it has bytes. */
  lemma BlockOwns(w: World, size: nat, align: nat, c: Cfg)
    requires IsAlign(align) && Alloc(w, size, align, c.p, c.own).Ok?
    ensures OwnsNone(w, Alloc(w, size, align, c.p, c.own).value.w, []) <==> size == 0
  {
    var al := Alloc(w, size, align, c.p, c.own).value;
    AllocGrows(w, size, align, c.p, c.own);
    if size > 0 {
      assert al.addr <= al.addr < al.addr + size;
      assert al.addr in al.w.mem && al.addr !in w.mem;
    }
  }

  lemma {:induction false} BufferOwns(c: Cfg, what: Deallocate, t: Ty, v: Val, w: World)
    requires (t.Str? || t.List? || t.Map?) && StoreBuffer(c, t, v, w).Ok?
    ensures OwnsNone(w, StoreBuffer(c, t, v, w).value.w, Handles(t, v, what)) <==> !Owns(c.p, t, v, what)
    decreases t, 1
  {
    hide OwnsNone, NothingOwned, Alloc, Size, Align, Times, StoreList;
    match t
    case Str =>
      var al := Alloc(w, |v.bytes|, 1, c.p, c.own).value;
      BlockOwns(w, |v.bytes|, 1, c);
      BytesOwnNothing(al.w, al.addr, v.bytes);
      NoneEarlier(w, al.w, StoreBuffer(c, t, v, w).value.w, []);
    case List(e) => ListOwns(c, what, e, v.elems, w);
    case Map(e) => ListOwns(c, what, e, v.elems, w);
  }

  lemma BytesOwnNothing(w: World, a: nat, bs: seq<Byte>)
    requires StoreBytes(w, a, bs).Ok?
    ensures NothingOwned(w, StoreBytes(w, a, bs).value)
  {
    StoreGrows(w, a, bs);
  }

  lemma {:induction false} ListOwns(c: Cfg, what: Deallocate, e: Ty, vs: seq<Val>, w: World)
    requires StoreList(c, e, vs, w).Ok?
    ensures OwnsNone(w, StoreList(c, e, vs, w).value.w, ElemHandles(e, vs, what))
       <==> !(Times(|vs|, Size(c.p, e)) > 0 || ElemsOwn(c.p, e, vs, what))
    decreases e, |vs| + 4
  {
    hide OwnsNone, NothingOwned, Between, Alloc, Size, Align, Times, StoreElems;
    var size := Times(|vs|, Size(c.p, e));
    var al := Alloc(w, size, Align(c.p, e), c.p, c.own).value;
    var w2 := StoreList(c, e, vs, w).value.w;
    BlockOwns(w, size, Align(c.p, e), c);
    ElemsOwnWhatIsLeft(c, what, e, vs, al.addr, al.w);
    AllocGrows(w, size, Align(c.p, e), c.p, c.own);
    ElemsFrame(c, e, vs, al.addr, al.w);
    GrowsBetween(w, al.w, w2, al.addr, 0, al.addr, size);
    NoneTwice(w, al.w, w2, [], ElemHandles(e, vs, what));
    assert [] + ElemHandles(e, vs, what) == ElemHandles(e, vs, what);
  }

  // ----- when deallocation takes all -----

  /** `s` is a part of what appeared, and all of it exactly if `fully`. */
  ghost predicate Settles(s: Share, w0: World, w1: World, hs: seq<nat>, fully: bool) {
    Part(s, w0, w1, hs) && (s == All(w0, w1, hs) <==> fully)
  }

  lemma SettlesTwice(s: Share, r: Share, w0: World, w1: World, w2: World, hs: seq<nat>, gs: seq<nat>, first: bool, second: bool)
    requires Between(w0, w1, w2) && Settles(s, w0, w1, hs, first) && Settles(r, w1, w2, gs, second)
    ensures Settles(Together(s, r), w0, w2, hs + gs, first && second)
  {
    JoinParts(s, r, w0, w1, w2, hs, gs);
  }

  lemma SettlesLater(s: Share, w0: World, w1: World, w2: World, hs: seq<nat>, fully: bool)
    requires NothingOwned(w0, w1) && Settles(s, w1, w2, hs, fully)
    ensures Settles(s, w0, w2, hs, fully)
  {
    PartLater(s, w0, w1, w2, hs);
  }

  lemma SettlesEarlier(s: Share, w0: World, w1: World, w2: World, hs: seq<nat>, fully: bool)
    requires NothingOwned(w1, w2) && Settles(s, w0, w1, hs, fully)
    ensures Settles(s, w0, w2, hs, fully)
  {
    PartEarlier(s, w0, w1, w2, hs);
  }

  lemma HandlesSettle(w0: World, w1: World, hs: seq<nat>)
    requires NothingOwned(w0, w1)
    ensures Settles(Share({}, {}, hs), w0, w1, hs, true)
  {
  }

  lemma NothingSettles(w0: World, w1: World, hs: seq<nat>)
    requires w0.mem.Keys <= w1.mem.Keys && w0.live <= w1.live
    ensures Settles(NOTHING, w0, w1, hs, OwnsNone(w0, w1, hs))
  {
    if NOTHING == All(w0, w1, hs) {
      assert w1.mem.Keys == w0.mem.Keys + (w1.mem.Keys - w0.mem.Keys);
      assert w1.live == w0.live + (w1.live - w0.live);
    }
  }

  lemma GrowsOnly(w0: World, w1: World, a: nat, n: nat)
    requires Grows(w0, w1, a, n)
    ensures w0.mem.Keys <= w1.mem.Keys && w0.live <= w1.live
  {
  }

  /** Deallocation never takes more than the value owns, and takes all of it exactly if
      every fixed-length list in the value owns nothing. */
  lemma {:induction false} TakesAllThatIsVisited(c: Cfg, what: Deallocate, t: Ty, v: Val, a: nat, w: World)
    requires Store(c, t, v, a, w).Ok?
    ensures Settles(Takes(c, what, t, v, a, w), w, Store(c, t, v, a, w).value, Handles(t, v, what), Visited(c.p, t, v, what))
    decreases t, 2
  {
    hide StoreInt, NothingOwned, StoreBuffer, StorePair, TagSize, PayloadOffset, Settles, OwnsNone, Owns, Size;
    match t
    case Scalar(s) =>
      IntOwnsNothing(w, a, LowBits(s, ToCore(s, v.n)), Width(s));
      HandlesSettle(w, Store(c, t, v, a, w).value, Handles(t, v, what));
    case Alias(u) => TakesAllThatIsVisited(c, what, u, v, a, w);
    case Str | List(_) | Map(_) =>
      var b := StoreBuffer(c, t, v, w).value;
      PairOwnsNothing(c, b, a);
      BufferTakesAll(c, what, t, v, w);
      SettlesEarlier(Takes(c, what, t, v, a, w), w, b.w, Store(c, t, v, a, w).value, Handles(t, v, what), Visited(c.p, t, v, what));
    case FixedList(e, n) =>
      OwnsWhatIsLeft(c, what, t, v, a, w);
      StoreFrame(c, t, v, a, w);
      GrowsOnly(w, Store(c, t, v, a, w).value, a, Size(c.p, t));
      NothingSettles(w, Store(c, t, v, a, w).value, Handles(t, v, what));
    case Record(_, fs) => FieldsTakeAll(c, what, fs, v.fields, a, 0, w);
    case Flags(n) =>
      FlagsOwnNothing(n, ToWords(v.bits), a, w);
      HandlesSettle(w, Store(c, t, v, a, w).value, []);
    case Enum(n) =>
      IntOwnsNothing(w, a, v.arm, TagSize(n));
      HandlesSettle(w, Store(c, t, v, a, w).value, []);
    case Variant(vk, arms) => VariantTakesAll(c, what, vk, arms, v, a, w);
  }

  lemma {:induction false} VariantTakesAll(c: Cfg, what: Deallocate, vk: VariantKind, arms: seq<Option<Ty>>, v: Val, a: nat, w: World)
    requires Store(c, Variant(vk, arms), v, a, w).Ok?
    ensures var t := Variant(vk, arms);
            Settles(Takes(c, what, t, v, a, w), w, Store(c, t, v, a, w).value, Handles(t, v, what), Visited(c.p, t, v, what))
    decreases arms, 1
  {
    hide StoreInt, TagSize, PayloadOffset, Settles, NothingOwned;
    var t := Variant(vk, arms);
    var arm := arms[v.arm];
    assert arm in arms;
    var w1 := StoreInt(w, a, v.arm, TagSize(|arms|)).value;
    var w2 := Store(c, t, v, a, w).value;
    IntOwnsNothing(w, a, v.arm, TagSize(|arms|));
    assert Handles(t, v, what) == ArmHandles(arm, v.payload, what);
    assert Takes(c, what, t, v, a, w) == ArmTakes(c, what, arm, v.payload, a + PayloadOffset(c.p, arms), w1);
    assert Visited(c.p, t, v, what) == ArmVisited(c.p, arm, v.payload, what);
    if arm.Some? {
      TakesAllThatIsVisited(c, what, arm.value, v.payload.value, a + PayloadOffset(c.p, arms), w1);
      SettlesLater(Takes(c, what, t, v, a, w), w, w1, w2, Handles(t, v, what), Visited(c.p, t, v, what));
    } else {
      HandlesSettle(w, w2, []);
    }
  }

  lemma SameSettles(w: World)
    ensures Settles(NOTHING, w, w, [], true)
  {
  }

  lemma {:induction false} FieldsTakeAll(c: Cfg, what: Deallocate, fs: seq<Ty>, vs: seq<Val>, a: nat, off: nat, w: World)
    requires StoreFields(c, fs, vs, a, off, w).Ok?
    ensures Settles(FieldsTake(c, what, fs, vs, a, off, w), w, StoreFields(c, fs, vs, a, off, w).value, FieldHandles(fs, vs, what),
                    FieldsVisited(c.p, fs, vs, what))
    decreases fs, 0
  {
    hide Store, Takes, Handles, Visited, Settles, Between, Size, FieldOffset;
    if fs == [] {
      SameSettles(w);
    } else {
      var o := FieldOffset(c.p, fs[0], off);
      var end := o + Size(c.p, fs[0]);
      var w1 := Store(c, fs[0], vs[0], a + o, w).value;
      var w2 := StoreFields(c, fs, vs, a, off, w).value;
      TakesAllThatIsVisited(c, what, fs[0], vs[0], a + o, w);
      FieldsTakeAll(c, what, fs[1..], vs[1..], a, end, w1);
      StoreFrame(c, fs[0], vs[0], a + o, w);
      FieldsFrame(c, fs[1..], vs[1..], a, end, w1);
      GrowsBetween(w, w1, w2, a + o, Size(c.p, fs[0]), a + end, FieldsEnd(c.p, fs[1..], end) - end);
      SettlesTwice(Takes(c, what, fs[0], vs[0], a + o, w), FieldsTake(c, what, fs[1..], vs[1..], a, end, w1), w, w1, w2,
                   Handles(fs[0], vs[0], what), FieldHandles(fs[1..], vs[1..], what),
                   Visited(c.p, fs[0], vs[0], what), FieldsVisited(c.p, fs[1..], vs[1..], what));
    }
  }

  lemma {:induction false} ElemsTakeAll(c: Cfg, what: Deallocate, e: Ty, vs: seq<Val>, a: nat, w: World)
    requires StoreElems(c, e, vs, a, w).Ok?
    ensures Settles(ElemsTake(c, what, e, vs, a, w), w, StoreElems(c, e, vs, a, w).value, ElemHandles(e, vs, what),
                    ElemsVisited(c.p, e, vs, what))
    decreases e, |vs| + 3
  {
    hide Store, Takes, Handles, Visited, Settles, Between, Size;
    if vs == [] {
      SameSettles(w);
    } else {
      var sz := Size(c.p, e);
      var w1 := Store(c, e, vs[0], a, w).value;
      var w2 := StoreElems(c, e, vs, a, w).value;
      TakesAllThatIsVisited(c, what, e, vs[0], a, w);
      ElemsTakeAll(c, what, e, vs[1..], a + sz, w1);
      StoreFrame(c, e, vs[0], a, w);
      ElemsFrame(c, e, vs[1..], a + sz, w1);
      GrowsBetween(w, w1, w2, a, sz, a + sz, Times(|vs[1..]|, sz));
      SettlesTwice(Takes(c, what, e, vs[0], a, w), ElemsTake(c, what, e, vs[1..], a + sz, w1), w, w1, w2,
                   Handles(e, vs[0], what), ElemHandles(e, vs[1..], what),
                   Visited(c.p, e, vs[0], what), ElemsVisited(c.p, e, vs[1..], what));
    }
  }

  lemma AllSettles(w0: World, w1: World)
    ensures Settles(All(w0, w1, []), w0, w1, [], true)
  {
  }

  lemma {:induction false} BufferTakesAll(c: Cfg, what: Deallocate, t: Ty, v: Val, w: World)
    requires (t.Str? || t.List? || t.Map?) && StoreBuffer(c, t, v, w).Ok?
    ensures Settles(BufferTakes(c, what, t, v, w), w, StoreBuffer(c, t, v, w).value.w, Handles(t, v, what), Visited(c.p, t, v, what))
    decreases t, 1
  {
    hide NothingOwned, Alloc, Size, Align, Times, StoreList, Settles, ListTakes;
    match t
    case Str =>
      var al := Alloc(w, |v.bytes|, 1, c.p, c.own).value;
      AllSettles(w, al.w);
      BytesOwnNothing(al.w, al.addr, v.bytes);
      SettlesEarlier(All(w, al.w, []), w, al.w, StoreBuffer(c, t, v, w).value.w, [], true);
    case List(e) => ListTakesAll(c, what, e, v.elems, w);
    case Map(e) => ListTakesAll(c, what, e, v.elems, w);
  }

  lemma {:induction false} ListTakesAll(c: Cfg, what: Deallocate, e: Ty, vs: seq<Val>, w: World)
    requires StoreList(c, e, vs, w).Ok?
    ensures Settles(ListTakes(c, what, e, vs, w), w, StoreList(c, e, vs, w).value.w, ElemHandles(e, vs, what), ElemsVisited(c.p, e, vs, what))
    decreases e, |vs| + 4
  {
    hide Settles, Between, Alloc, Size, Align, Times, StoreElems, ElemsTake, ElemHandles, ElemsVisited;
    var size := Times(|vs|, Size(c.p, e));
    var al := Alloc(w, size, Align(c.p, e), c.p, c.own).value;
    var w2 := StoreList(c, e, vs, w).value.w;
    AllSettles(w, al.w);
    ElemsTakeAll(c, what, e, vs, al.addr, al.w);
    AllocGrows(w, size, Align(c.p, e), c.p, c.own);
    ElemsFrame(c, e, vs, al.addr, al.w);
    GrowsBetween(w, al.w, w2, al.addr, 0, al.addr, size);
    SettlesTwice(All(w, al.w, []), ElemsTake(c, what, e, vs, al.addr, al.w), w, al.w, w2, [], ElemHandles(e, vs, what),
                 true, ElemsVisited(c.p, e, vs, what));
    assert [] + ElemHandles(e, vs, what) == ElemHandles(e, vs, what);
  }

  // ----- types that deallocation skips -----

  lemma NeedlessParts(t: Ty, what: Deallocate)
    requires !NeedsDeallocate(t, what)
    ensures t.Scalar? ==> !(OwnedHandle(t.p) && what.Handles())
    ensures !t.Str? && !t.List? && !t.Map?
    ensures t.Alias? ==> !NeedsDeallocate(t.target, what)
    ensures t.Record? ==> forall i | 0 <= i < |t.fields| :: !NeedsDeallocate(t.fields[i], what)
    ensures t.Variant? ==> forall i | 0 <= i < |t.arms| && t.arms[i].Some? :: !NeedsDeallocate(t.arms[i].value, what)
  {
    if t.Variant? { assert forall i | 0 <= i < |t.arms| :: !ArmNeeds(t.arms[i], what); }
  }

  /** The early return of `deallocate_indirect` takes nothing of anything it skips. */
  lemma {:induction false} TakesNothing(c: Cfg, what: Deallocate, t: Ty, v: Val, a: nat, w: World)
    requires !NeedsDeallocate(t, what)
    ensures Takes(c, what, t, v, a, w) == NOTHING
    decreases t, 2
  {
    hide TagEnd, PayloadOffset, FieldsTake, BufferTakes, NeedsDeallocate;
    NeedlessParts(t, what);
    match t
    case Alias(u) => TakesNothing(c, what, u, v, a, w);
    case Record(_, fs) => if v.RecordV? { FieldsTakeNothing(c, what, fs, v.fields, a, 0, w); }
    case Variant(_, arms) =>
      if v.VariantV? && v.arm < |arms| {
        if arms[v.arm].Some? && v.payload.Some? {
          TakesNothing(c, what, arms[v.arm].value, v.payload.value, a + PayloadOffset(c.p, arms), TagEnd(arms, v.arm, a, w));
        }
      }
    case _ =>
  }

  lemma {:induction false} FieldsTakeNothing(c: Cfg, what: Deallocate, fs: seq<Ty>, vs: seq<Val>, a: nat, off: nat, w: World)
    requires forall i | 0 <= i < |fs| :: !NeedsDeallocate(fs[i], what)
    ensures FieldsTake(c, what, fs, vs, a, off, w) == NOTHING
    decreases fs, 0
  {
    hide Takes, NeedsDeallocate, Size, FieldOffset, StoreEnd;
    if fs != [] && vs != [] {
      var o := FieldOffset(c.p, fs[0], off);
      TakesNothing(c, what, fs[0], vs[0], a + o, w);
      FieldsTakeNothing(c, what, fs[1..], vs[1..], a, o + Size(c.p, fs[0]), StoreEnd(c, fs[0], vs[0], a + o, w));
    }
  }

  /** Types without fixed-length lists of something that needs deallocation are always visited. */
  lemma {:induction false} FreeableIsVisited(p: PtrSize, t: Ty, v: Val, what: Deallocate)
    requires Freeable(t, what)
    ensures Visited(p, t, v, what)
    decreases t, 1
  {
    hide Owns, NeedsDeallocate;
    match t
    case Alias(u) => FreeableIsVisited(p, u, v, what);
    case List(e) => if v.ListV? { ElemsAreVisited(p, e, v.elems, what); }
    case Map(e) => if v.ListV? { ElemsAreVisited(p, e, v.elems, what); }
    case FixedList(e, n) =>
      assert Holds(t, FixedList(e, n));
      FixedNeeds(e, n, what);
      NeedlessOwnsNothing(p, t, v, what);
    case Record(_, fs) => if v.RecordV? { FieldsAreVisited(p, fs, v.fields, what); }
    case Variant(_, arms) =>
      if v.VariantV? && v.arm < |arms| {
        if arms[v.arm].Some? && v.payload.Some? {
          assert forall u | Holds(arms[v.arm].value, u) :: ArmHolds(arms[v.arm], u) && Holds(t, u);
          FreeableIsVisited(p, arms[v.arm].value, v.payload.value, what);
        }
      }
    case _ =>
  }

  lemma FixedNeeds(e: Ty, n: nat, what: Deallocate)
    ensures NeedsDeallocate(FixedList(e, n), what) == NeedsDeallocate(e, what)
  {
  }

  lemma {:induction false} ElemsAreVisited(p: PtrSize, e: Ty, vs: seq<Val>, what: Deallocate)
    requires Freeable(e, what)
    ensures ElemsVisited(p, e, vs, what)
    decreases e, |vs| + 2
  {
    if vs != [] {
      FreeableIsVisited(p, e, vs[0], what);
      ElemsAreVisited(p, e, vs[1..], what);
    }
  }

  lemma {:induction false} FieldsAreVisited(p: PtrSize, fs: seq<Ty>, vs: seq<Val>, what: Deallocate)
    requires forall f | f in fs :: Freeable(f, what)
    ensures FieldsVisited(p, fs, vs, what)
    decreases fs, 0
  {
    if fs != [] && vs != [] {
      FreeableIsVisited(p, fs[0], vs[0], what);
      FieldsAreVisited(p, fs[1..], vs[1..], what);
    }
  }

  lemma {:induction false} NeedlessOwnsNothing(p: PtrSize, t: Ty, v: Val, what: Deallocate)
    requires !NeedsDeallocate(t, what)
    ensures !Owns(p, t, v, what)
    decreases t, 1
  {
    match t
    case Alias(u) => NeedlessOwnsNothing(p, u, v, what);
    case FixedList(e, _) => if v.ListV? { NeedlessElems(p, e, v.elems, what); }
    case Record(_, fs) => if v.RecordV? { NeedlessFields(p, fs, v.fields, what); }
    case Variant(_, arms) =>
      if v.VariantV? && v.arm < |arms| {
        assert !ArmNeeds(arms[v.arm], what);
        if arms[v.arm].Some? && v.payload.Some? { NeedlessOwnsNothing(p, arms[v.arm].value, v.payload.value, what); }
      }
    case _ =>
  }

  lemma {:induction false} NeedlessElems(p: PtrSize, e: Ty, vs: seq<Val>, what: Deallocate)
    requires !NeedsDeallocate(e, what)
    ensures !ElemsOwn(p, e, vs, what)
    decreases e, |vs| + 2
  {
    if vs != [] {
      NeedlessOwnsNothing(p, e, vs[0], what);
      NeedlessElems(p, e, vs[1..], what);
    }
  }

  lemma {:induction false} NeedlessFields(p: PtrSize, fs: seq<Ty>, vs: seq<Val>, what: Deallocate)
    requires forall i | 0 <= i < |fs| :: !NeedsDeallocate(fs[i], what)
    ensures !FieldsOwn(p, fs, vs, what)
    decreases fs, 0
  {
    if fs != [] && vs != [] {
      NeedlessOwnsNothing(p, fs[0], vs[0], what);
      NeedlessFields(p, fs[1..], vs[1..], what);
    }
  }

  // ----- what deallocation takes of flat words -----

  ghost function FlatEnd(c: Cfg, t: Ty, v: Val, w: World): World {
    var r := LowerFlat(c, t, v, w);
    if r.Ok? then r.value.w else w
  }

  /** Of `v`, lowered flat from `w` on. */
  ghost function FlatTakes(c: Cfg, what: Deallocate, t: Ty, v: Val, w: World): Share
    decreases t, 2
  {
    match t
    case Scalar(_) => Share({}, {}, Handles(t, v, what))
    case Alias(u) => FlatTakes(c, what, u, v, w)
    case Str | List(_) | Map(_) => BufferTakes(c, what, t, v, w)
    case Record(_, fs) => if v.RecordV? then FlatFieldsTake(c, what, fs, v.fields, w) else NOTHING
    case Variant(_, arms) => if v.VariantV? && v.arm < |arms| then FlatArmTakes(c, what, arms[v.arm], v.payload, w) else NOTHING
    case _ => NOTHING
  }

  ghost function FlatArmTakes(c: Cfg, what: Deallocate, arm: Option<Ty>, payload: Option<Val>, w: World): Share
    decreases arm, 0
  {
    if arm.Some? && payload.Some? then FlatTakes(c, what, arm.value, payload.value, w) else NOTHING
  }

  ghost function FlatFieldsTake(c: Cfg, what: Deallocate, fs: seq<Ty>, vs: seq<Val>, w: World): Share
    decreases fs, 0
  {
    if fs == [] || vs == [] then NOTHING
    else Together(FlatTakes(c, what, fs[0], vs[0], w), FlatFieldsTake(c, what, fs[1..], vs[1..], FlatEnd(c, fs[0], vs[0], w)))
  }

  lemma {:induction false} FlatTakesAllThatIsVisited(c: Cfg, what: Deallocate, t: Ty, v: Val, w: World)
    requires LowerFlat(c, t, v, w).Ok? && Unfixed(t)
    ensures Settles(FlatTakes(c, what, t, v, w), w, LowerFlat(c, t, v, w).value.w, Handles(t, v, what), Visited(c.p, t, v, what))
    decreases t, 2
  {
    hide NothingOwned, StoreBuffer, Settles, Widen, FlatArms, ToWords;
    match t
    case Alias(u) => FlatTakesAllThatIsVisited(c, what, u, v, w);
    case Str | List(_) | Map(_) => BufferTakesAll(c, what, t, v, w);
    case Record(_, fs) => FlatFieldsTakeAll(c, what, fs, v.fields, w);
    case Variant(vk, arms) => FlatVariantTakesAll(c, what, vk, arms, v, w);
    case Scalar(_) | Flags(_) | Enum(_) =>
      NothingIsOwned(w);
      HandlesSettle(w, w, Handles(t, v, what));
  }

  lemma NothingIsOwned(w: World)
    ensures NothingOwned(w, w)
  {
  }

  lemma {:induction false} FlatVariantTakesAll(c: Cfg, what: Deallocate, vk: VariantKind, arms: seq<Option<Ty>>, v: Val, w: World)
    requires LowerFlat(c, Variant(vk, arms), v, w).Ok? && forall a | a in arms :: ArmUnfixed(a)
    ensures var t := Variant(vk, arms);
            Settles(FlatTakes(c, what, t, v, w), w, LowerFlat(c, t, v, w).value.w, Handles(t, v, what), Visited(c.p, t, v, what))
    decreases arms, 1
  {
    hide Settles, Widen, FlatArms, FlatArm, Below;
    var t := Variant(vk, arms);
    var arm := arms[v.arm];
    assert arm in arms && ArmUnfixed(arm);
    assert Handles(t, v, what) == ArmHandles(arm, v.payload, what);
    assert FlatTakes(c, what, t, v, w) == FlatArmTakes(c, what, arm, v.payload, w);
    assert Visited(c.p, t, v, what) == ArmVisited(c.p, arm, v.payload, what);
    if arm.Some? {
      FlatTakesAllThatIsVisited(c, what, arm.value, v.payload.value, w);
    } else {
      SameSettles(w);
    }
  }

  lemma {:induction false} FlatFieldsTakeAll(c: Cfg, what: Deallocate, fs: seq<Ty>, vs: seq<Val>, w: World)
    requires LowerFields(c, fs, vs, w).Ok? && forall f | f in fs :: Unfixed(f)
    ensures Settles(FlatFieldsTake(c, what, fs, vs, w), w, LowerFields(c, fs, vs, w).value.w, FieldHandles(fs, vs, what),
                    FieldsVisited(c.p, fs, vs, what))
    decreases fs, 0
  {
    hide LowerFlat, FlatTakes, Handles, Visited, Settles, Between, Unfixed;
    if fs == [] {
      SameSettles(w);
    } else {
      var w1 := LowerFlat(c, fs[0], vs[0], w).value.w;
      var w2 := LowerFields(c, fs, vs, w).value.w;
      FlatTakesAllThatIsVisited(c, what, fs[0], vs[0], w);
      FlatFieldsTakeAll(c, what, fs[1..], vs[1..], w1);
      LowerFrame(c, fs[0], vs[0], w);
      LowerFieldsFrame(c, fs[1..], vs[1..], w1);
      GrowsBetween(w, w1, w2, 0, 0, 0, 0);
      SettlesTwice(FlatTakes(c, what, fs[0], vs[0], w), FlatFieldsTake(c, what, fs[1..], vs[1..], w1), w, w1, w2,
                   Handles(fs[0], vs[0], what), FieldHandles(fs[1..], vs[1..], what),
                   Visited(c.p, fs[0], vs[0], what), FieldsVisited(c.p, fs[1..], vs[1..], what));
    }
  }

  // ----- paid debts -----

  /** With all bytes and blocks still there, releasing a part pays everything exactly if it
      is not a part only. */
  lemma PaidIfWhole(s: Share, w0: World, w1: World, w: World, hs: seq<nat>, fully: bool)
    requires Settles(s, w0, w1, hs, fully) && Owing(w0, w1, w) && w1.mem.Keys - w0.mem.Keys <= w.mem.Keys
    ensures Released(w, s) == Freed(w0, w1, w, hs) <==> fully
  {
    var all := All(w0, w1, hs);
    ReleasedAll(w0, w1, w, hs);
    var r, f := Released(w, s), Released(w, all);
    if r == f {
      forall x | x in all.bytes ensures x in s.bytes { assert x in w.mem && x !in f.mem; }
      forall b | b in all.blocks ensures b in s.blocks { assert b in w.live && b !in f.live; }
      assert s.handles == r.dropped[|w.dropped|..] && hs == f.dropped[|w.dropped|..];
      assert s == all;
    }
  }

  /** Releasing a part of what appeared first leaves what appeared later. */
  lemma OwingAfter(s: Share, w0: World, w1: World, w2: World, w: World, hs: seq<nat>, fully: bool, a: nat, n: nat, b: nat, m: nat)
    requires Settles(s, w0, w1, hs, fully) && Grows(w0, w1, a, n) && Between(w0, w1, w2) && Owing(w0, w2, w)
    requires Keeps(w1, w2, b, m, w.mem) && Mapped(w0.mem, b, m)
    ensures Owing(w1, w2, Released(w, s)) && Keeps(w1, w2, b, m, Released(w, s).mem)
  {
    GrowsSound(w0, w1, a, n);
  }
}
