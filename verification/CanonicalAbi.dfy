/** The reference meaning of lowering and lifting: sections "Storing", "Loading",
    "Flat Lowering" and "Flat Lifting" of the Canonical ABI, as functions of values
    and memory.  Nothing here mentions generated code. */
module CanonicalAbi {
  import opened Wrappers
  import opened CoreTypes
  import opened Layout
  import opened Memory
  import opened Values

  /** Pointer width, and whether lowered buffers become the receiver's. */
  datatype Cfg = Cfg(p: PtrSize, own: bool)

  datatype Lowered = Lowered(flat: seq<Core>, w: World)
  datatype Buffer = Buffer(ptr: nat, len: nat, w: World)

  // ----- storing -----

  ghost function Store(c: Cfg, t: Ty, v: Val, a: nat, w: World): Outcome<World>
    decreases t, 2
  {
    match t
    case Scalar(s) => if v.Num? then StoreInt(w, a, LowBits(s, ToCore(s, v.n)), Width(s)) else Trap
    case Alias(u) => Store(c, u, v, a, w)
    case Str | List(_) | Map(_) =>
      var b :- StoreBuffer(c, t, v, w);
      StorePair(c, b, a)
    case FixedList(e, n) => if v.ListV? && |v.elems| == n then StoreElems(c, e, v.elems, a, w) else Trap
    case Record(_, fs) => if v.RecordV? then StoreFields(c, fs, v.fields, a, 0, w) else Trap
    case Flags(n) => if v.FlagsV? && |v.bits| == n then StoreFlags(n, ToWords(v.bits), a, w) else Trap
    case Enum(n) => if v.VariantV? && v.arm < n then StoreInt(w, a, v.arm, TagSize(n)) else Trap
    case Variant(_, arms) =>
      if v.VariantV? && v.arm < |arms| then
        var w1 :- StoreInt(w, a, v.arm, TagSize(|arms|));
        StoreArm(c, arms[v.arm], v.payload, a + PayloadOffset(c.p, arms), w1)
      else Trap
  }

  ghost function StoreArm(c: Cfg, arm: Option<Ty>, payload: Option<Val>, a: nat, w: World): Outcome<World>
    decreases arm, 0
  {
    if arm.None? then Ok(w)
    else if payload.Some? then Store(c, arm.value, payload.value, a, w)
    else Trap
  }

  /** Pointer and length of a list, map or string. */
  ghost function StorePair(c: Cfg, b: Buffer, a: nat): Outcome<World> {
    var w1 :- StoreInt(b.w, a + c.p, b.len, c.p);
    StoreInt(w1, a, b.ptr, c.p)
  }

  /** Allocates and fills the buffer of a list, map or string. */
  ghost function StoreBuffer(c: Cfg, t: Ty, v: Val, w: World): Outcome<Buffer>
    decreases t, 1
  {
    match t
    case Str =>
      if v.StrV? then
        var al :- Alloc(w, |v.bytes|, 1, c.p, c.own);
        var w1 :- StoreBytes(al.w, al.addr, v.bytes);
        Ok(Buffer(al.addr, |v.bytes|, w1))
      else Trap
    case List(e) => if v.ListV? then StoreList(c, e, v.elems, w) else Trap
    case Map(e) => if v.ListV? then StoreList(c, e, v.elems, w) else Trap
    case _ => Trap
  }

  ghost function StoreList(c: Cfg, e: Ty, vs: seq<Val>, w: World): Outcome<Buffer>
    decreases e, |vs| + 4
  {
    var al :- Alloc(w, Times(|vs|, Size(c.p, e)), Align(c.p, e), c.p, c.own);
    var w1 :- StoreElems(c, e, vs, al.addr, al.w);
    Ok(Buffer(al.addr, |vs|, w1))
  }

  ghost function StoreElems(c: Cfg, e: Ty, vs: seq<Val>, a: nat, w: World): Outcome<World>
    decreases e, |vs| + 3
  {
    if vs == [] then Ok(w)
    else
      var w1 :- Store(c, e, vs[0], a, w);
      StoreElems(c, e, vs[1..], a + Size(c.p, e), w1)
  }

  ghost function StoreFields(c: Cfg, fs: seq<Ty>, vs: seq<Val>, a: nat, off: nat, w: World): Outcome<World>
    decreases fs, 0
  {
    if fs == [] then Ok(w)
    else if vs == [] then Trap
    else
      var o := FieldOffset(c.p, fs[0], off);
      var w1 :- Store(c, fs[0], vs[0], a + o, w);
      StoreFields(c, fs[1..], vs[1..], a, o + Size(c.p, fs[0]), w1)
  }

  ghost function StoreFlags(n: nat, ws: seq<nat>, a: nat, w: World): Outcome<World>
    requires |ws| == FlagWords(n)
  {
    if 0 < n <= 16 then StoreInt(w, a, ws[0] % Pow256(FlagBytes(n)), FlagBytes(n))
    else StoreWords(ws, a, w)
  }

  /** The last word first. */
  ghost function StoreWords(ws: seq<nat>, a: nat, w: World): Outcome<World> {
    if ws == [] then Ok(w)
    else
      var i := |ws| - 1;
      var w1 :- StoreInt(w, a + 4 * i, ws[i], 4);
      StoreWords(ws[..i], a, w1)
  }

  // ----- loading -----

  ghost function Load(p: PtrSize, t: Ty, a: nat, m: Mem): Outcome<Val>
    decreases t, 2
  {
    match t
    case Scalar(s) =>
      var n :- LoadInt(m, a, Width(s));
      var r :- FromCore(s, Extend(s, n));
      Ok(Num(r))
    case Alias(u) => Load(p, u, a, m)
    case Str | List(_) | Map(_) =>
      var ptr :- LoadInt(m, a, p);
      var len :- LoadInt(m, a + p, p);
      LoadBuffer(p, t, ptr, len, m)
    case FixedList(e, n) =>
      var vs :- LoadElems(p, e, a, n, m);
      Ok(ListV(vs))
    case Record(_, fs) =>
      var vs :- LoadFields(p, fs, a, 0, m);
      Ok(RecordV(vs))
    case Flags(n) =>
      var ws :- LoadFlags(n, a, m);
      Ok(FlagsV(FromWords(ws, n)))
    case Enum(n) =>
      var i :- LoadInt(m, a, TagSize(n));
      if i < n then Ok(VariantV(i, None)) else Trap
    case Variant(_, arms) =>
      var i :- LoadInt(m, a, TagSize(|arms|));
      if i < |arms| then
        var payload :- LoadArm(p, arms[i], a + PayloadOffset(p, arms), m);
        Ok(VariantV(i, payload))
      else Trap
  }

  ghost function LoadArm(p: PtrSize, arm: Option<Ty>, a: nat, m: Mem): Outcome<Option<Val>>
    decreases arm, 0
  {
    if arm.None? then Ok(None)
    else
      var v :- Load(p, arm.value, a, m);
      Ok(Some(v))
  }

  ghost function LoadBuffer(p: PtrSize, t: Ty, ptr: nat, len: nat, m: Mem): Outcome<Val>
    decreases t, 1
  {
    match t
    case Str =>
      var bs :- LoadBytes(m, ptr, len);
      Ok(StrV(bs))
    case List(e) =>
      var vs :- LoadElems(p, e, ptr, len, m);
      Ok(ListV(vs))
    case Map(e) =>
      var vs :- LoadElems(p, e, ptr, len, m);
      Ok(ListV(vs))
    case _ => Trap
  }

  ghost function LoadElems(p: PtrSize, e: Ty, a: nat, n: nat, m: Mem): (r: Outcome<seq<Val>>)
    ensures r.Ok? ==> |r.value| == n
    decreases e, n + 3
  {
    if n == 0 then Ok([])
    else
      var v :- Load(p, e, a, m);
      var vs :- LoadElems(p, e, a + Size(p, e), n - 1, m);
      Ok([v] + vs)
  }

  ghost function LoadFields(p: PtrSize, fs: seq<Ty>, a: nat, off: nat, m: Mem): (r: Outcome<seq<Val>>)
    ensures r.Ok? ==> |r.value| == |fs|
    decreases fs, 0
  {
    if fs == [] then Ok([])
    else
      var o := FieldOffset(p, fs[0], off);
      var v :- Load(p, fs[0], a + o, m);
      var vs :- LoadFields(p, fs[1..], a, o + Size(p, fs[0]), m);
      Ok([v] + vs)
  }

  ghost function LoadFlags(n: nat, a: nat, m: Mem): (r: Outcome<seq<nat>>)
    ensures r.Ok? ==> |r.value| == FlagWords(n)
  {
    if 0 < n <= 16 then
      var i :- LoadInt(m, a, FlagBytes(n));
      Ok([i])
    else LoadWords(FlagWords(n), a, m)
  }

  ghost function LoadWords(k: nat, a: nat, m: Mem): (r: Outcome<seq<nat>>)
    ensures r.Ok? ==> |r.value| == k
    decreases k
  {
    if k == 0 then Ok([])
    else
      var i :- LoadInt(m, a, 4);
      var ws :- LoadWords(k - 1, a + 4, m);
      Ok([i] + ws)
  }

  // ----- bitcasts of whole payloads -----

  function CastsUp(a: seq<WasmType>, b: seq<WasmType>): (cs: seq<Bitcast>)
    requires Below(a, b)
    ensures |cs| == |a|
  {
    seq(|a|, i requires 0 <= i < |a| => CastDefined(a[i], b[i]); Cast(a[i], b[i]).value)
  }

  function CastsDown(a: seq<WasmType>, b: seq<WasmType>): (cs: seq<Bitcast>)
    requires Below(a, b)
    ensures |cs| == |a|
  {
    seq(|a|, i requires 0 <= i < |a| => CastDefined(a[i], b[i]); Cast(b[i], a[i]).value)
  }

  function ApplyCasts(cs: seq<Bitcast>, xs: seq<Core>, p: PtrSize): (r: Outcome<seq<Core>>)
    requires |cs| == |xs|
    ensures r.Ok? ==> |r.value| == |xs|
    decreases |cs|
  {
    if cs == [] then Ok([])
    else
      var y :- ApplyCast(cs[0], xs[0], p);
      var ys :- ApplyCasts(cs[1..], xs[1..], p);
      Ok([y] + ys)
  }

  function Zeros(tys: seq<WasmType>): (xs: seq<Core>)
    ensures |xs| == |tys|
  {
    seq(|tys|, i requires 0 <= i < |tys| => Core(tys[i], 0))
  }

  // ----- flat lowering -----

  ghost function LowerFlat(c: Cfg, t: Ty, v: Val, w: World): Outcome<Lowered>
    decreases t, 2
  {
    match t
    case Scalar(s) => if v.Num? then Ok(Lowered([ToCore(s, v.n)], w)) else Trap
    case Alias(u) => LowerFlat(c, u, v, w)
    case Str | List(_) | Map(_) =>
      var b :- StoreBuffer(c, t, v, w);
      Ok(Lowered([Core(Pointer, b.ptr), Core(Length, b.len)], b.w))
    case FixedList(e, n) => if v.ListV? && |v.elems| == n then LowerRepeat(c, e, v.elems, w) else Trap
    case Record(_, fs) => if v.RecordV? then LowerFields(c, fs, v.fields, w) else Trap
    case Flags(n) =>
      if v.FlagsV? && |v.bits| == n then Ok(Lowered(I32s(ToWords(v.bits)), w)) else Trap
    case Enum(n) => if v.VariantV? && v.arm < n then Ok(Lowered([Core(I32, v.arm)], w)) else Trap
    case Variant(_, arms) =>
      if v.VariantV? && v.arm < |arms| then
        var r :- LowerArm(c, arms[v.arm], v.payload, w);
        ArmBelow(arms, v.arm);
        var xs :- Widen(c.p, FlatArm(arms[v.arm]), FlatArms(arms), r.flat);
        Ok(Lowered([Core(I32, v.arm)] + xs, r.w))
      else Trap
  }

  function I32s(ws: seq<nat>): (xs: seq<Core>)
    ensures |xs| == |ws|
  {
    seq(|ws|, i requires 0 <= i < |ws| => Core(I32, ws[i]))
  }

  ghost function LowerArm(c: Cfg, arm: Option<Ty>, payload: Option<Val>, w: World): Outcome<Lowered>
    decreases arm, 0
  {
    if arm.None? then Ok(Lowered([], w))
    else if payload.Some? then LowerFlat(c, arm.value, payload.value, w)
    else Trap
  }

  /** Casts a case's words to the shared payload slots and fills the rest with zeros. */
  function Widen(p: PtrSize, from: seq<WasmType>, to: seq<WasmType>, xs: seq<Core>): Outcome<seq<Core>>
    requires Below(from, to)
  {
    if |xs| != |from| then Trap
    else
      var ys :- ApplyCasts(CastsUp(from, to), xs, p);
      Ok(ys + Zeros(to[|from|..]))
  }

  ghost function LowerFields(c: Cfg, fs: seq<Ty>, vs: seq<Val>, w: World): Outcome<Lowered>
    decreases fs, 0
  {
    if fs == [] then Ok(Lowered([], w))
    else if vs == [] then Trap
    else
      var r :- LowerFlat(c, fs[0], vs[0], w);
      var rest :- LowerFields(c, fs[1..], vs[1..], r.w);
      Ok(Lowered(r.flat + rest.flat, rest.w))
  }

  ghost function LowerRepeat(c: Cfg, e: Ty, vs: seq<Val>, w: World): Outcome<Lowered>
    decreases e, |vs| + 3
  {
    if vs == [] then Ok(Lowered([], w))
    else
      var r :- LowerFlat(c, e, vs[0], w);
      var rest :- LowerRepeat(c, e, vs[1..], r.w);
      Ok(Lowered(r.flat + rest.flat, rest.w))
  }

  // ----- flat lifting -----

  ghost function LiftFlat(p: PtrSize, t: Ty, xs: seq<Core>, m: Mem): Outcome<Val>
    requires |xs| == |Flat(t)|
    decreases t, 2
  {
    match t
    case Scalar(s) =>
      var n :- FromCore(s, xs[0]);
      Ok(Num(n))
    case Alias(u) => LiftFlat(p, u, xs, m)
    case Str | List(_) | Map(_) =>
      if xs[0].ty == Pointer && xs[1].ty == Length then LoadBuffer(p, t, xs[0].bits, xs[1].bits, m) else Trap
    case FixedList(e, n) =>
      var vs :- LiftRepeat(p, e, n, xs, m);
      Ok(ListV(vs))
    case Record(_, fs) =>
      var vs :- LiftFields(p, fs, xs, m);
      Ok(RecordV(vs))
    case Flags(n) => if IsI32s(xs) then Ok(FlagsV(FromWords(Words(xs), n))) else Trap
    case Enum(n) => if xs[0].ty == I32 && xs[0].bits < n then Ok(VariantV(xs[0].bits, None)) else Trap
    case Variant(_, arms) =>
      if xs[0].ty == I32 && xs[0].bits < |arms| then
        ArmBelow(arms, xs[0].bits);
        var payload :- LiftArm(p, arms[xs[0].bits], FlatArms(arms), xs[1..], m);
        Ok(VariantV(xs[0].bits, payload))
      else Trap
  }

  predicate IsI32s(xs: seq<Core>) {
    forall i | 0 <= i < |xs| :: xs[i].ty == I32
  }

  function Words(xs: seq<Core>): (ws: seq<nat>)
    ensures |ws| == |xs|
  {
    seq(|xs|, i requires 0 <= i < |xs| => xs[i].bits)
  }

  ghost function LiftArm(p: PtrSize, arm: Option<Ty>, slots: seq<WasmType>, xs: seq<Core>, m: Mem): Outcome<Option<Val>>
    requires Below(FlatArm(arm), slots) && |xs| == |slots|
    decreases arm, 0
  {
    if arm.None? then Ok(None)
    else
      var n := |FlatArm(arm)|;
      var ys :- ApplyCasts(CastsDown(FlatArm(arm), slots), xs[..n], p);
      var v :- LiftFlat(p, arm.value, ys, m);
      Ok(Some(v))
  }

  ghost function LiftFields(p: PtrSize, fs: seq<Ty>, xs: seq<Core>, m: Mem): (r: Outcome<seq<Val>>)
    requires |xs| == |FlatFields(fs)|
    ensures r.Ok? ==> |r.value| == |fs|
    decreases fs, 0
  {
    if fs == [] then Ok([])
    else
      var k := |Flat(fs[0])|;
      var v :- LiftFlat(p, fs[0], xs[..k], m);
      var vs :- LiftFields(p, fs[1..], xs[k..], m);
      Ok([v] + vs)
  }

  ghost function LiftRepeat(p: PtrSize, e: Ty, n: nat, xs: seq<Core>, m: Mem): (r: Outcome<seq<Val>>)
    requires |xs| == |FlatRepeat(e, n)|
    ensures r.Ok? ==> |r.value| == n
    decreases e, n + 3
  {
    if n == 0 then Ok([])
    else
      var k := |Flat(e)|;
      var v :- LiftFlat(p, e, xs[..k], m);
      var vs :- LiftRepeat(p, e, n - 1, xs[k..], m);
      Ok([v] + vs)
  }
}
