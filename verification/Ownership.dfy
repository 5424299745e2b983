/** Who owns what lowering allocates: the callee, or the lowering side. */
module Ownership {
  import opened Wrappers
  import opened CoreTypes
  import opened Layout
  import opened Memory
  import opened Values
  import opened CanonicalAbi

  ghost predicate Inside(x: nat, bs: set<Block>) {
    exists b :: b in bs && b.addr <= x < b.addr + b.size
  }

  /** From `w0` to `w1` memory appeared: all of it in blocks of one of the two sets, whose new
      blocks hold nothing else, and the other set is unchanged. */
  ghost predicate Allots(w0: World, w1: World, own: bool) {
    if own then w1.temps == w0.temps && Appeared(w0, w1, w0.live, w1.live)
    else w1.live == w0.live && Appeared(w0, w1, w0.temps, w1.temps)
  }

  ghost predicate Appeared(w0: World, w1: World, old0: set<Block>, new1: set<Block>) {
    && w0.mem.Keys <= w1.mem.Keys && old0 <= new1
    && (forall x | x in w1.mem && x !in w0.mem :: Inside(x, new1))
    && (forall b, x: nat | b in new1 - old0 && b.addr <= x < b.addr + b.size :: x in w1.mem && x !in w0.mem)
  }

  lemma AppearedTwice(w0: World, w1: World, w2: World, bs0: set<Block>, bs1: set<Block>, bs2: set<Block>)
    requires Appeared(w0, w1, bs0, bs1) && Appeared(w1, w2, bs1, bs2)
    ensures Appeared(w0, w2, bs0, bs2)
  {
    forall x | x in w2.mem && x !in w0.mem ensures Inside(x, bs2) {
      if x in w1.mem {
        var b :| b in bs1 && b.addr <= x < b.addr + b.size;
        assert b in bs2;
      }
    }
    forall b, x: nat | b in bs2 - bs0 && b.addr <= x < b.addr + b.size ensures x in w2.mem && x !in w0.mem {
      if b in bs1 { assert b in bs1 - bs0; } else { assert b in bs2 - bs1; }
    }
  }

  lemma AllotsTwice(w0: World, w1: World, w2: World, own: bool)
    requires Allots(w0, w1, own) && Allots(w1, w2, own)
    ensures Allots(w0, w2, own)
  {
    hide Appeared;
    if own { AppearedTwice(w0, w1, w2, w0.live, w1.live, w2.live); }
    else { AppearedTwice(w0, w1, w2, w0.temps, w1.temps, w2.temps); }
  }

  lemma AllotsNothing(w0: World, w1: World, own: bool)
    requires w1.mem.Keys == w0.mem.Keys && w1.live == w0.live && w1.temps == w0.temps
    ensures Allots(w0, w1, own)
  {
  }

  lemma BytesAllot(w: World, a: nat, bs: seq<Byte>, own: bool)
    requires StoreBytes(w, a, bs).Ok?
    ensures Allots(w, StoreBytes(w, a, bs).value, own)
  {
    hide Allots;
    AllotsNothing(w, StoreBytes(w, a, bs).value, own);
  }

  lemma IntAllots(w: World, a: nat, n: nat, k: nat, own: bool)
    requires StoreInt(w, a, n, k).Ok?
    ensures Allots(w, StoreInt(w, a, n, k).value, own)
  {
    hide Allots;
    BytesAllot(w, a, Encode(n, k), own);
  }

  lemma AllocAllots(w: World, size: nat, align: nat, p: PtrSize, own: bool)
    requires Alloc(w, size, align, p, own).Ok?
    ensures Allots(w, Alloc(w, size, align, p, own).value.w, own)
  {
    var r := Alloc(w, size, align, p, own).value;
    if size > 0 {
      var b := Block(r.addr, size, align);
      var bs := if own then r.w.live else r.w.temps;
      assert b in bs;
      forall x | x in r.w.mem && x !in w.mem ensures Inside(x, bs) { assert x in Range(r.addr, size); }
    }
  }

  // ----- storing -----

  lemma {:induction false} StoreAllots(c: Cfg, t: Ty, v: Val, a: nat, w: World)
    requires Store(c, t, v, a, w).Ok?
    ensures Allots(w, Store(c, t, v, a, w).value, c.own)
    decreases t, 2
  {
    hide Allots, StoreInt, StoreBuffer, StorePair, TagSize, PayloadOffset, StoreArm;
    match t
    case Scalar(s) => IntAllots(w, a, LowBits(s, ToCore(s, v.n)), Width(s), c.own);
    case Alias(u) => StoreAllots(c, u, v, a, w);
    case Str | List(_) | Map(_) =>
      var b := StoreBuffer(c, t, v, w).value;
      BufferAllots(c, t, v, w);
      PairAllots(c, b, a);
      AllotsTwice(w, b.w, Store(c, t, v, a, w).value, c.own);
    case FixedList(e, n) => ElemsAllot(c, e, v.elems, a, w);
    case Record(_, fs) => FieldsAllot(c, fs, v.fields, a, 0, w);
    case Flags(n) => FlagsAllot(n, ToWords(v.bits), a, w, c.own);
    case Enum(n) => IntAllots(w, a, v.arm, TagSize(n), c.own);
    case Variant(_, arms) =>
      var w1 := StoreInt(w, a, v.arm, TagSize(|arms|)).value;
      IntAllots(w, a, v.arm, TagSize(|arms|), c.own);
      ArmAllots(c, arms[v.arm], v.payload, a + PayloadOffset(c.p, arms), w1);
      AllotsTwice(w, w1, Store(c, t, v, a, w).value, c.own);
  }

  lemma {:induction false} ArmAllots(c: Cfg, arm: Option<Ty>, payload: Option<Val>, a: nat, w: World)
    requires StoreArm(c, arm, payload, a, w).Ok?
    ensures Allots(w, StoreArm(c, arm, payload, a, w).value, c.own)
    decreases arm, 0
  {
    hide Allots, Store;
    if arm.Some? { StoreAllots(c, arm.value, payload.value, a, w); } else { AllotsNothing(w, w, c.own); }
  }

  lemma PairAllots(c: Cfg, b: Buffer, a: nat)
    requires StorePair(c, b, a).Ok?
    ensures Allots(b.w, StorePair(c, b, a).value, c.own)
  {
    hide Allots, StoreInt;
    var w1 := StoreInt(b.w, a + c.p, b.len, c.p).value;
    IntAllots(b.w, a + c.p, b.len, c.p, c.own);
    IntAllots(w1, a, b.ptr, c.p, c.own);
    AllotsTwice(b.w, w1, StorePair(c, b, a).value, c.own);
  }

  lemma {:induction false} BufferAllots(c: Cfg, t: Ty, v: Val, w: World)
    requires StoreBuffer(c, t, v, w).Ok?
    ensures Allots(w, StoreBuffer(c, t, v, w).value.w, c.own)
    decreases t, 1
  {
    hide Allots, StoreList, Alloc, StoreBytes;
    match t
    case Str =>
      var al := Alloc(w, |v.bytes|, 1, c.p, c.own).value;
      AllocAllots(w, |v.bytes|, 1, c.p, c.own);
      BytesAllot(al.w, al.addr, v.bytes, c.own);
      AllotsTwice(w, al.w, StoreBuffer(c, t, v, w).value.w, c.own);
    case List(e) => ListAllots(c, e, v.elems, w);
    case Map(e) => ListAllots(c, e, v.elems, w);
  }

  lemma {:induction false} ListAllots(c: Cfg, e: Ty, vs: seq<Val>, w: World)
    requires StoreList(c, e, vs, w).Ok?
    ensures Allots(w, StoreList(c, e, vs, w).value.w, c.own)
    decreases e, |vs| + 4
  {
    hide Allots, Alloc, StoreElems, Size, Align, Times;
    var n := Times(|vs|, Size(c.p, e));
    var al := Alloc(w, n, Align(c.p, e), c.p, c.own).value;
    AllocAllots(w, n, Align(c.p, e), c.p, c.own);
    ElemsAllot(c, e, vs, al.addr, al.w);
    AllotsTwice(w, al.w, StoreList(c, e, vs, w).value.w, c.own);
  }

  lemma {:induction false} ElemsAllot(c: Cfg, e: Ty, vs: seq<Val>, a: nat, w: World)
    requires StoreElems(c, e, vs, a, w).Ok?
    ensures Allots(w, StoreElems(c, e, vs, a, w).value, c.own)
    decreases e, |vs| + 3
  {
    hide Allots, Store, Size;
    if vs == [] {
      AllotsNothing(w, w, c.own);
    } else {
      var w1 := Store(c, e, vs[0], a, w).value;
      StoreAllots(c, e, vs[0], a, w);
      ElemsAllot(c, e, vs[1..], a + Size(c.p, e), w1);
      AllotsTwice(w, w1, StoreElems(c, e, vs, a, w).value, c.own);
    }
  }

  lemma {:induction false} FieldsAllot(c: Cfg, fs: seq<Ty>, vs: seq<Val>, a: nat, off: nat, w: World)
    requires StoreFields(c, fs, vs, a, off, w).Ok?
    ensures Allots(w, StoreFields(c, fs, vs, a, off, w).value, c.own)
    decreases fs, 0
  {
    hide Allots, Store, Size, FieldOffset;
    if fs == [] {
      AllotsNothing(w, w, c.own);
    } else {
      var o := FieldOffset(c.p, fs[0], off);
      var w1 := Store(c, fs[0], vs[0], a + o, w).value;
      StoreAllots(c, fs[0], vs[0], a + o, w);
      FieldsAllot(c, fs[1..], vs[1..], a, o + Size(c.p, fs[0]), w1);
      AllotsTwice(w, w1, StoreFields(c, fs, vs, a, off, w).value, c.own);
    }
  }

  lemma FlagsAllot(n: nat, ws: seq<nat>, a: nat, w: World, own: bool)
    requires |ws| == FlagWords(n) && StoreFlags(n, ws, a, w).Ok?
    ensures Allots(w, StoreFlags(n, ws, a, w).value, own)
  {
    hide Allots, StoreInt, StoreWords;
    if 0 < n <= 16 { IntAllots(w, a, ws[0] % Pow256(FlagBytes(n)), FlagBytes(n), own); } else { WordsAllot(ws, a, w, own); }
  }

  lemma {:induction false} WordsAllot(ws: seq<nat>, a: nat, w: World, own: bool)
    requires StoreWords(ws, a, w).Ok?
    ensures Allots(w, StoreWords(ws, a, w).value, own)
  {
    hide Allots, StoreInt;
    if ws == [] {
      AllotsNothing(w, w, own);
    } else {
      var i := |ws| - 1;
      var w1 := StoreInt(w, a + 4 * i, ws[i], 4).value;
      IntAllots(w, a + 4 * i, ws[i], 4, own);
      WordsAllot(ws[..i], a, w1, own);
      AllotsTwice(w, w1, StoreWords(ws, a, w).value, own);
    }
  }

  // ----- flat lowering -----

  /** Lowering puts all that it allocates where its configuration says. */
  lemma {:induction false} LowerAllots(c: Cfg, t: Ty, v: Val, w: World)
    requires LowerFlat(c, t, v, w).Ok?
    ensures Allots(w, LowerFlat(c, t, v, w).value.w, c.own)
    decreases t, 2
  {
    hide Allots, StoreBuffer, Widen, FlatArms, FlatArm, LowerArm, ToWords;
    match t
    case Alias(u) => LowerAllots(c, u, v, w);
    case Str | List(_) | Map(_) => BufferAllots(c, t, v, w);
    case FixedList(e, n) => RepeatAllots(c, e, v.elems, w);
    case Record(_, fs) => LowerFieldsAllot(c, fs, v.fields, w);
    case Variant(_, arms) => LowerArmAllots(c, arms[v.arm], v.payload, w);
    case Scalar(_) | Flags(_) | Enum(_) => AllotsNothing(w, w, c.own);
  }

  lemma {:induction false} LowerArmAllots(c: Cfg, arm: Option<Ty>, payload: Option<Val>, w: World)
    requires LowerArm(c, arm, payload, w).Ok?
    ensures Allots(w, LowerArm(c, arm, payload, w).value.w, c.own)
    decreases arm, 0
  {
    hide Allots, LowerFlat;
    if arm.Some? { LowerAllots(c, arm.value, payload.value, w); } else { AllotsNothing(w, w, c.own); }
  }

  lemma {:induction false} LowerFieldsAllot(c: Cfg, fs: seq<Ty>, vs: seq<Val>, w: World)
    requires LowerFields(c, fs, vs, w).Ok?
    ensures Allots(w, LowerFields(c, fs, vs, w).value.w, c.own)
    decreases fs, 0
  {
    hide Allots, LowerFlat;
    if fs == [] {
      AllotsNothing(w, w, c.own);
    } else {
      var r := LowerFlat(c, fs[0], vs[0], w).value;
      LowerAllots(c, fs[0], vs[0], w);
      LowerFieldsAllot(c, fs[1..], vs[1..], r.w);
      AllotsTwice(w, r.w, LowerFields(c, fs, vs, w).value.w, c.own);
    }
  }

  lemma {:induction false} RepeatAllots(c: Cfg, e: Ty, vs: seq<Val>, w: World)
    requires LowerRepeat(c, e, vs, w).Ok?
    ensures Allots(w, LowerRepeat(c, e, vs, w).value.w, c.own)
    decreases e, |vs| + 3
  {
    hide Allots, LowerFlat;
    if vs == [] {
      AllotsNothing(w, w, c.own);
    } else {
      var r := LowerFlat(c, e, vs[0], w).value;
      LowerAllots(c, e, vs[0], w);
      RepeatAllots(c, e, vs[1..], r.w);
      AllotsTwice(w, r.w, LowerRepeat(c, e, vs, w).value.w, c.own);
    }
  }
}
