/** The instructions the generator emits, with their nested blocks, and a machine
    that runs them.  Operands are variables; every statement names what it reads and
    what it defines. */
module Code {
  import opened Wrappers
  import opened CoreTypes
  import opened Layout
  import opened Memory
  import opened Values
  import opened CanonicalAbi

  type Var = nat

  datatype LoadOp =
    | I32Load | I32Load8U | I32Load8S | I32Load16U | I32Load16S
    | I64Load | F32Load | F64Load | PointerLoad | LengthLoad

  datatype StoreOp =
    | I32Store | I32Store8 | I32Store16
    | I64Store | F32Store | F64Store | PointerStore | LengthStore

  /** What scratch space is asked for; a backend may serve both from one area. */
  datatype AreaUse = ForParams | ForResult

  /** `own` tells whether a lowering instruction was given a `realloc`. */
  datatype Inst =
    | GetArg(nth: nat)
    | I32Const(val: nat)
    | Bitcasts(casts: seq<Bitcast>)
    | ConstZero(tys: seq<WasmType>)
    | LoadFrom(load: LoadOp, offset: nat)
    | StoreTo(store: StoreOp, offset: nat)
    | ScalarLower(p: Prim)
    | ScalarLift(p: Prim)
    | StringLower(own: bool)
    | StringLift
    | ListCanonLower(elem: Ty, own: bool)
    | ListCanonLift(elem: Ty)
    | ListLower(elem: Ty, own: bool)
    | ListLift(elem: Ty)
    | MapLower(entry: Ty, own: bool)
    | MapLift(entry: Ty)
    | FixedListLower(elem: Ty, len: nat)
    | FixedListLift(elem: Ty, len: nat)
    | FixedListLowerToMemory(elem: Ty, len: nat)
    | FixedListLiftFromMemory(elem: Ty, len: nat)
    | IterElem
    | IterMapKey
    | IterMapValue
    | IterBasePointer
    | RecordLower(rk: RecordKind, len: nat)
    | RecordLift(rk: RecordKind, len: nat)
    | FlagsLower(count: nat)
    | FlagsLift(count: nat)
    | EnumLower(count: nat)
    | EnumLift(count: nat)
    | VariantPayloadName
    | VariantLower(vk: VariantKind, arms: seq<Option<Ty>>, results: seq<WasmType>)
    | VariantLift(vk: VariantKind, arms: seq<Option<Ty>>)
    | CallWasm(params: nat, rets: nat)
    | CallInterface(params: nat, hasResult: bool)
    | Return(amt: nat)
    | Malloc(size: nat, align: nat)
    | GuestDeallocate(size: nat, align: nat)
    | GuestDeallocateString
    | GuestDeallocateList(elem: Ty)
    | GuestDeallocateMap(entry: Ty)
    | GuestDeallocateVariant(blocks: nat)
    | DropHandle(p: Prim)
    | Flush(amt: nat)
    | ReturnArea(size: nat, align: nat, use: AreaUse)

  datatype Stmt = Stmt(inst: Inst, args: seq<Var>, outs: seq<Var>, blocks: seq<CodeBlock>, payloads: seq<Var>)
  datatype CodeBlock = CodeBlock(code: seq<Stmt>, results: seq<Var>)

  // ----- arities -----

  /** How many operands an instruction pops from the generator's stack. */
  function OperandsLen(i: Inst): nat {
    match i
    case Bitcasts(casts) => |casts|
    case StoreTo(_, _) => 2
    case StringLift | ListCanonLift(_) | ListLift(_) | MapLift(_) => 2
    case FixedListLift(_, n) => n
    case FixedListLowerToMemory(_, _) => 2
    case RecordLift(_, n) => n
    case FlagsLift(n) => FlagWords(n)
    case CallWasm(n, _) => n
    case CallInterface(n, _) => n
    case Return(n) => n
    case GuestDeallocateString | GuestDeallocateList(_) | GuestDeallocateMap(_) => 2
    case Flush(n) => n
    case GetArg(_) | I32Const(_) | ConstZero(_) | IterElem | IterMapKey | IterMapValue | IterBasePointer
      | VariantPayloadName | Malloc(_, _) | ReturnArea(_, _, _) => 0
    case _ => 1
  }

  /** How many results it pushes. */
  function ResultsLen(i: Inst): nat {
    match i
    case Bitcasts(casts) => |casts|
    case ConstZero(tys) => |tys|
    case StoreTo(_, _) => 0
    case StringLower(_) | ListCanonLower(_, _) | ListLower(_, _) | MapLower(_, _) => 2
    case FixedListLower(_, n) => n
    case FixedListLowerToMemory(_, _) => 0
    case RecordLower(_, n) => n
    case FlagsLower(n) => FlagWords(n)
    case VariantLower(_, _, results) => |results|
    case CallWasm(_, n) => n
    case CallInterface(_, has) => if has then 1 else 0
    case Return(_) | GuestDeallocate(_, _) | GuestDeallocateString | GuestDeallocateList(_)
      | GuestDeallocateMap(_) | GuestDeallocateVariant(_) | DropHandle(_) => 0
    case Flush(n) => n
    case _ => 1
  }

  /** How many finished blocks it takes from the block stack. */
  function BlocksLen(i: Inst): nat {
    match i
    case ListLower(_, _) | ListLift(_) | MapLower(_, _) | MapLift(_)
      | FixedListLowerToMemory(_, _) | FixedListLiftFromMemory(_, _)
      | GuestDeallocateList(_) | GuestDeallocateMap(_) => 1
    case VariantLower(_, arms, _) => |arms|
    case VariantLift(_, arms) => |arms|
    case GuestDeallocateVariant(n) => n
    case _ => 0
  }

  /** How many payload names it takes from the payload stack. */
  function PayloadsLen(i: Inst): nat {
    match i
    case VariantLower(_, arms, _) => |arms|
    case _ => 0
  }

  // ----- memory instructions -----

  function LoadWidth(l: LoadOp, p: PtrSize): nat {
    match l
    case I32Load8U | I32Load8S => 1
    case I32Load16U | I32Load16S => 2
    case I32Load | F32Load => 4
    case I64Load | F64Load => 8
    case PointerLoad | LengthLoad => p
  }

  function LoadResult(l: LoadOp, n: nat): Core {
    match l
    case I32Load8S => Core(I32, Wrap(Signed(n, 0x100), TWO_32))
    case I32Load16S => Core(I32, Wrap(Signed(n, 0x1_0000), TWO_32))
    case I64Load => Core(I64, n)
    case F32Load => Core(F32, n)
    case F64Load => Core(F64, n)
    case PointerLoad => Core(Pointer, n)
    case LengthLoad => Core(Length, n)
    case _ => Core(I32, n)
  }

  function StoreWidth(s: StoreOp, p: PtrSize): nat {
    match s
    case I32Store8 => 1
    case I32Store16 => 2
    case I32Store | F32Store => 4
    case I64Store | F64Store => 8
    case PointerStore | LengthStore => p
  }

  function StoreType(s: StoreOp): WasmType {
    match s
    case I64Store => I64
    case F32Store => F32
    case F64Store => F64
    case PointerStore => Pointer
    case LengthStore => Length
    case _ => I32
  }

  // ----- the machine -----

  datatype Operand = CoreOp(x: Core) | ValOp(v: Val)

  type Env = map<Var, Operand>

  /** What a function of the source language gives back; it may have changed the memory. */
  datatype Called = Called(result: Option<Val>, w: World)

  /** `area` gives the scratch areas; `elem` and `base` belong to the innermost loop. */
  datatype Ctx = Ctx(p: PtrSize, args: seq<Operand>, area: AreaUse -> nat, elem: Option<Val>, base: nat,
                     callWasm: (seq<Core>, World) -> Outcome<Lowered>,
                     callInterface: (seq<Val>, World) -> Outcome<Called>)

  datatype Machine = Machine(env: Env, w: World, returned: seq<Operand>)

  datatype Effect = Effect(outs: seq<Operand>, w: World)

  datatype Collected = Collected(vals: seq<Val>, w: World)

  function Lookup(env: Env, xs: seq<Var>): (r: Outcome<seq<Operand>>)
    ensures r.Ok? ==> |r.value| == |xs|
  {
    if xs == [] then Ok([])
    else if xs[0] !in env then Trap
    else
      var rest :- Lookup(env, xs[1..]);
      Ok([env[xs[0]]] + rest)
  }

  function Bind(env: Env, xs: seq<Var>, ops: seq<Operand>): Env
    requires |xs| == |ops|
    decreases |xs|
  {
    if xs == [] then env else Bind(env[xs[0] := ops[0]], xs[1..], ops[1..])
  }

  function CoreOps(xs: seq<Core>): (ops: seq<Operand>)
    ensures |ops| == |xs|
  {
    seq(|xs|, i requires 0 <= i < |xs| => CoreOp(xs[i]))
  }

  function ValOps(vs: seq<Val>): (ops: seq<Operand>)
    ensures |ops| == |vs|
  {
    seq(|vs|, i requires 0 <= i < |vs| => ValOp(vs[i]))
  }

  function Cores(ops: seq<Operand>): Outcome<seq<Core>> {
    if forall i | 0 <= i < |ops| :: ops[i].CoreOp?
    then Ok(seq(|ops|, i requires 0 <= i < |ops| && ops[i].CoreOp? => ops[i].x))
    else Trap
  }

  function Vals(ops: seq<Operand>): Outcome<seq<Val>> {
    if forall i | 0 <= i < |ops| :: ops[i].ValOp?
    then Ok(seq(|ops|, i requires 0 <= i < |ops| && ops[i].ValOp? => ops[i].v))
    else Trap
  }

  predicate IsCore(op: Operand, t: WasmType) {
    op.CoreOp? && op.x.ty == t
  }

  // ----- running -----

  ghost function Run(k: Ctx, code: seq<Stmt>, s: Machine): Outcome<Machine>
    decreases code, 0
  {
    if code == [] then Ok(s)
    else
      var s1 :- Step(k, code[0], s);
      Run(k, code[1..], s1)
  }

  ghost function Step(k: Ctx, st: Stmt, s: Machine): Outcome<Machine>
    decreases st, 1
  {
    var xs :- Lookup(s.env, st.args);
    var e :- Perform(k, st, xs, s);
    if |e.outs| != |st.outs| then Trap
    else Ok(Machine(Bind(s.env, st.outs, e.outs), e.w, if st.inst.Return? then xs else s.returned))
  }

  ghost function Perform(k: Ctx, st: Stmt, xs: seq<Operand>, s: Machine): Outcome<Effect>
    decreases st, 0
  {
    if |xs| != OperandsLen(st.inst) || |st.blocks| != BlocksLen(st.inst) || |st.payloads| != PayloadsLen(st.inst) then Trap
    else if BlocksLen(st.inst) == 0 then
      match st.inst
      case VariantLower(_, _, _) => Trap
      case VariantLift(_, _) => Trap
      case GuestDeallocateVariant(_) => Trap
      case _ => Simple(k, st.inst, xs, s.w)
    else
      match st.inst
      case ListLower(e, own) => FillList(k, st, e, own, xs, s)
      case MapLower(e, own) => FillList(k, st, e, own, xs, s)
      case FixedListLowerToMemory(e, n) =>
        if xs[0].ValOp? && xs[0].v.ListV? && |xs[0].v.elems| == n && IsCore(xs[1], Pointer) then
          var w1 :- EachElem(k, st.blocks[0], xs[0].v.elems, xs[1].x.bits, Size(k.p, e), s);
          Ok(Effect([], w1))
        else Trap
      case ListLift(e) => ReadList(k, st, e, xs, s)
      case MapLift(e) => ReadList(k, st, e, xs, s)
      case FixedListLiftFromMemory(e, n) =>
        if IsCore(xs[0], Pointer) then
          var r :- Collect(k, st.blocks[0], n, xs[0].x.bits, Size(k.p, e), s);
          Ok(Effect([ValOp(ListV(r.vals))], r.w))
        else Trap
      case VariantLower(_, arms, results) =>
        if xs[0].ValOp? && xs[0].v.VariantV? && xs[0].v.arm < |arms| then
          var i := xs[0].v.arm;
          var env := if xs[0].v.payload.Some? then s.env[st.payloads[i] := ValOp(xs[0].v.payload.value)] else s.env;
          var r :- RunBlock(k, st.blocks[i], s.(env := env));
          if HaveTypes(r.outs, results) then Ok(r) else Trap
        else Trap
      case VariantLift(_, arms) =>
        if IsCore(xs[0], I32) && xs[0].x.bits < |arms| then
          var i := xs[0].x.bits;
          var r :- RunBlock(k, st.blocks[i], s);
          if arms[i].None? && r.outs == [] then Ok(Effect([ValOp(VariantV(i, None))], r.w))
          else if arms[i].Some? && |r.outs| == 1 && r.outs[0].ValOp? then
            Ok(Effect([ValOp(VariantV(i, Some(r.outs[0].v)))], r.w))
          else Trap
        else Trap
      case GuestDeallocateList(e) => EmptyList(k, st, e, xs, s)
      case GuestDeallocateMap(e) => EmptyList(k, st, e, xs, s)
      case GuestDeallocateVariant(n) =>
        if IsCore(xs[0], I32) && xs[0].x.bits < n then
          var r :- RunBlock(k, st.blocks[xs[0].x.bits], s);
          if r.outs == [] then Ok(r) else Trap
        else Trap
      case _ => Trap
  }

  predicate HaveTypes(ops: seq<Operand>, tys: seq<WasmType>) {
    |ops| == |tys| && forall i | 0 <= i < |ops| :: IsCore(ops[i], tys[i])
  }

  ghost function RunBlock(k: Ctx, b: CodeBlock, s: Machine): Outcome<Effect>
    decreases b, 0
  {
    var r :- Run(k, b.code, s);
    var ops :- Lookup(r.env, b.results);
    Ok(Effect(ops, r.w))
  }

  /** `ListLower` and `MapLower`: allocate, then run the block for every element. */
  ghost function FillList(k: Ctx, st: Stmt, e: Ty, own: bool, xs: seq<Operand>, s: Machine): Outcome<Effect>
    requires |xs| == 1 && |st.blocks| == 1
    decreases st, 0, 0
  {
    if xs[0].ValOp? && xs[0].v.ListV? then
      var vs := xs[0].v.elems;
      var al :- Alloc(s.w, Times(|vs|, Size(k.p, e)), Align(k.p, e), k.p, own);
      var w1 :- EachElem(k, st.blocks[0], vs, al.addr, Size(k.p, e), s.(w := al.w));
      Ok(Effect([CoreOp(Core(Pointer, al.addr)), CoreOp(Core(Length, |vs|))], w1))
    else Trap
  }

  /** `ListLift` and `MapLift`: run the block for every element and collect. */
  ghost function ReadList(k: Ctx, st: Stmt, e: Ty, xs: seq<Operand>, s: Machine): Outcome<Effect>
    requires |xs| == 2 && |st.blocks| == 1
    decreases st, 0, 0
  {
    if IsCore(xs[0], Pointer) && IsCore(xs[1], Length) then
      var r :- Collect(k, st.blocks[0], xs[1].x.bits, xs[0].x.bits, Size(k.p, e), s);
      Ok(Effect([ValOp(ListV(r.vals))], r.w))
    else Trap
  }

  /** `GuestDeallocateList` and `GuestDeallocateMap`: run the block for every
      element, then free the buffer. */
  ghost function EmptyList(k: Ctx, st: Stmt, e: Ty, xs: seq<Operand>, s: Machine): Outcome<Effect>
    requires |xs| == 2 && |st.blocks| == 1
    decreases st, 0, 0
  {
    if IsCore(xs[0], Pointer) && IsCore(xs[1], Length) then
      var n := xs[1].x.bits;
      var w1 :- EachAddr(k, st.blocks[0], n, xs[0].x.bits, Size(k.p, e), s);
      var w2 :- Free(w1, xs[0].x.bits, Times(n, Size(k.p, e)), Align(k.p, e));
      Ok(Effect([], w2))
    else Trap
  }

  ghost function EachElem(k: Ctx, b: CodeBlock, vs: seq<Val>, base: nat, size: nat, s: Machine): Outcome<World>
    decreases b, |vs| + 1
  {
    if vs == [] then Ok(s.w)
    else
      var r :- Run(k.(elem := Some(vs[0]), base := base), b.code, s);
      EachElem(k, b, vs[1..], base + size, size, s.(w := r.w))
  }

  ghost function EachAddr(k: Ctx, b: CodeBlock, n: nat, base: nat, size: nat, s: Machine): Outcome<World>
    decreases b, n + 1
  {
    if n == 0 then Ok(s.w)
    else
      var r :- Run(k.(base := base), b.code, s);
      EachAddr(k, b, n - 1, base + size, size, s.(w := r.w))
  }

  ghost function Collect(k: Ctx, b: CodeBlock, n: nat, base: nat, size: nat, s: Machine): Outcome<Collected>
    decreases b, n + 1
  {
    if n == 0 then Ok(Collected([], s.w))
    else
      var r :- RunBlock(k.(base := base), b, s);
      var vs :- Vals(r.outs);
      if |vs| == 0 then Trap else
      var rest :- Collect(k, b, n - 1, base + size, size, s.(w := r.w));
      Ok(Collected([if |vs| == 1 then vs[0] else RecordV(vs)] + rest.vals, rest.w))
  }

  /** Instructions without blocks. */
  ghost function Simple(k: Ctx, i: Inst, xs: seq<Operand>, w: World): Outcome<Effect>
    requires |xs| == OperandsLen(i)
  {
    match i
    case GetArg(n) => if n < |k.args| then Ok(Effect([k.args[n]], w)) else Trap
    case I32Const(n) => Ok(Effect([CoreOp(Core(I32, n % TWO_32))], w))
    case Bitcasts(casts) =>
      var cs :- Cores(xs);
      var ys :- ApplyCasts(casts, cs, k.p);
      Ok(Effect(CoreOps(ys), w))
    case ConstZero(tys) => Ok(Effect(CoreOps(Zeros(tys)), w))
    case LoadFrom(l, off) =>
      if IsCore(xs[0], Pointer) then
        var n :- LoadInt(w.mem, xs[0].x.bits + off, LoadWidth(l, k.p));
        Ok(Effect([CoreOp(LoadResult(l, n))], w))
      else Trap
    case StoreTo(s, off) =>
      if IsCore(xs[0], StoreType(s)) && IsCore(xs[1], Pointer) then
        var k1 := StoreWidth(s, k.p);
        var w1 :- StoreInt(w, xs[1].x.bits + off, xs[0].x.bits % Pow256(k1), k1);
        Ok(Effect([], w1))
      else Trap
    case ScalarLower(p) => if xs[0].ValOp? && xs[0].v.Num? then Ok(Effect([CoreOp(ToCore(p, xs[0].v.n))], w)) else Trap
    case ScalarLift(p) =>
      if xs[0].CoreOp? then
        var n :- FromCore(p, xs[0].x);
        Ok(Effect([ValOp(Num(n))], w))
      else Trap
    case StringLower(own) => CanonLower(k, Str, own, xs[0], w)
    case ListCanonLower(e, own) => CanonLower(k, List(e), own, xs[0], w)
    case StringLift => CanonLift(k, Str, xs, w)
    case ListCanonLift(e) => CanonLift(k, List(e), xs, w)
    case FixedListLower(_, n) =>
      if xs[0].ValOp? && xs[0].v.ListV? && |xs[0].v.elems| == n then Ok(Effect(ValOps(xs[0].v.elems), w)) else Trap
    case FixedListLift(_, _) =>
      var vs :- Vals(xs);
      Ok(Effect([ValOp(ListV(vs))], w))
    case IterElem => if k.elem.Some? then Ok(Effect([ValOp(k.elem.value)], w)) else Trap
    case IterMapKey => IterEntry(k, 0, w)
    case IterMapValue => IterEntry(k, 1, w)
    case IterBasePointer => Ok(Effect([CoreOp(Core(Pointer, k.base))], w))
    case RecordLower(_, n) =>
      if xs[0].ValOp? && xs[0].v.RecordV? && |xs[0].v.fields| == n then Ok(Effect(ValOps(xs[0].v.fields), w)) else Trap
    case RecordLift(_, _) =>
      var vs :- Vals(xs);
      Ok(Effect([ValOp(RecordV(vs))], w))
    case FlagsLower(n) =>
      if xs[0].ValOp? && xs[0].v.FlagsV? && |xs[0].v.bits| == n then Ok(Effect(CoreOps(I32s(ToWords(xs[0].v.bits))), w)) else Trap
    case FlagsLift(n) =>
      var cs :- Cores(xs);
      if |cs| == FlagWords(n) && IsI32s(cs) then Ok(Effect([ValOp(FlagsV(FromWords(Words(cs), n)))], w)) else Trap
    case EnumLower(n) =>
      if xs[0].ValOp? && xs[0].v.VariantV? && xs[0].v.arm < n then Ok(Effect([CoreOp(Core(I32, xs[0].v.arm))], w)) else Trap
    case EnumLift(n) =>
      if IsCore(xs[0], I32) && xs[0].x.bits < n then Ok(Effect([ValOp(VariantV(xs[0].x.bits, None))], w)) else Trap
    case CallWasm(_, _) =>
      var cs :- Cores(xs);
      var r :- k.callWasm(cs, w);
      Ok(Effect(CoreOps(r.flat), r.w))
    case CallInterface(_, has) =>
      var vs :- Vals(xs);
      var r :- k.callInterface(vs, w);
      if has != r.result.Some? then Trap else Ok(Effect(if has then [ValOp(r.result.value)] else [], r.w))
    case Return(_) => Ok(Effect([], w))
    case Malloc(size, align) =>
      var al :- Alloc(w, size, align, k.p, true);
      Ok(Effect([CoreOp(Core(Pointer, al.addr))], al.w))
    case GuestDeallocate(size, align) =>
      if IsCore(xs[0], Pointer) then
        var w1 :- Free(w, xs[0].x.bits, size, align);
        Ok(Effect([], w1))
      else Trap
    case GuestDeallocateString =>
      if IsCore(xs[0], Pointer) && IsCore(xs[1], Length) then
        var w1 :- Free(w, xs[0].x.bits, xs[1].x.bits, 1);
        Ok(Effect([], w1))
      else Trap
    case DropHandle(_) =>
      if xs[0].ValOp? && xs[0].v.Num? && xs[0].v.n >= 0 then Ok(Effect([], w.(dropped := w.dropped + [xs[0].v.n]))) else Trap
    case Flush(_) => Ok(Effect(xs, w))
    case ReturnArea(_, _, use) => Ok(Effect([CoreOp(Core(Pointer, k.area(use)))], w))
    case _ => Trap
  }

  ghost function IterEntry(k: Ctx, i: nat, w: World): Outcome<Effect>
    requires i < 2
  {
    if k.elem.Some? && k.elem.value.RecordV? && |k.elem.value.fields| == 2 then Ok(Effect([ValOp(k.elem.value.fields[i])], w))
    else Trap
  }

  /** Strings, and lists whose native layout is already the canonical one. */
  ghost function CanonLower(k: Ctx, t: Ty, own: bool, x: Operand, w: World): Outcome<Effect> {
    if x.ValOp? then
      var b :- StoreBuffer(Cfg(k.p, own), t, x.v, w);
      Ok(Effect([CoreOp(Core(Pointer, b.ptr)), CoreOp(Core(Length, b.len))], b.w))
    else Trap
  }

  ghost function CanonLift(k: Ctx, t: Ty, xs: seq<Operand>, w: World): Outcome<Effect>
    requires |xs| == 2
  {
    if IsCore(xs[0], Pointer) && IsCore(xs[1], Length) then
      var v :- LoadBuffer(k.p, t, xs[0].x.bits, xs[1].x.bits, w.mem);
      Ok(Effect([ValOp(v)], w))
    else Trap
  }
}
