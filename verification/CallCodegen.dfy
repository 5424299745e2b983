/** What the generator emits for a whole synchronous function: the glue around a call,
    and the post-return clean-up. */
module CallCodegen {
  import opened Wrappers
  import opened CoreTypes
  import opened Layout
  import opened Code
  import opened Codegen
  import opened DeallocCodegen

  datatype Func = Func(params: seq<Ty>, result: Option<Ty>) {
    predicate Valid() {
      AllWellFormed(params) && (result.Some? ==> WellFormed(result.value))
    }

    /** The parameters as they are laid out in memory. */
    function ParamsTuple(): Ty {
      Record(TupleType, params)
    }

    function Results(): seq<Ty> {
      if result.Some? then [result.value] else []
    }

    function ResultTuple(): Ty {
      Record(TupleType, Results())
    }
  }

  datatype AbiVariant = GuestImport | GuestExport
  datatype LiftLower = LowerArgsLiftResults | LiftArgsLowerResults

  datatype Signature = Signature(params: seq<WasmType>, results: seq<WasmType>, indirectParams: bool, retptr: bool)

  function ResultFlat(f: Func): seq<WasmType> {
    if f.result.Some? then Flat(f.result.value) else []
  }

  function IndirectParams(f: Func): bool {
    |FlatFields(f.params)| > MAX_FLAT_PARAMS
  }

  function RetPtr(f: Func): bool {
    |ResultFlat(f)| > MAX_FLAT_RESULTS
  }

  /** The core signature of `f` ("flatten_functype"): too many parameters travel behind one
      pointer, too large a result behind a pointer passed in (imports) or returned (exports). */
  function WasmSignature(v: AbiVariant, f: Func): Signature {
    var params := if IndirectParams(f) then [Pointer] else FlatFields(f.params);
    if !RetPtr(f) then Signature(params, ResultFlat(f), IndirectParams(f), false)
    else if v == GuestImport then Signature(params + [Pointer], [], IndirectParams(f), true)
    else Signature(params, [Pointer], IndirectParams(f), true)
  }

  /** Up to sixteen words of parameters and one of result travel as they are; what does not
      is behind a pointer, and an import's caller passes the pointer to the result last. */
  lemma SignatureIs(v: AbiVariant, f: Func)
    ensures var s, params, result := WasmSignature(v, f), Flat(f.ParamsTuple()), Flat(f.ResultTuple());
            var extra := if v == GuestImport && |result| > 1 then [Pointer] else [];
            && s.params == (if |params| > 16 then [Pointer] else params) + extra
            && s.results == (if |result| <= 1 then result else if v == GuestImport then [] else [Pointer])
            && (s.indirectParams <==> |params| > 16) && (s.retptr <==> |result| > 1)
  {
    var params, sig := Flat(f.ParamsTuple()), WasmSignature(v, f);
    assert params + [] == params && sig.params + [] == sig.params && [Pointer] + [] == [Pointer];
    if f.result.Some? {
      assert f.Results()[1..] == [] && FlatFields([]) == [];
      assert Flat(f.ResultTuple()) == Flat(f.result.value) + [] == Flat(f.result.value);
    }
  }

  /** Ownership of lowered buffers passes on, except from a guest to an import. */
  function PassesOwnership(v: AbiVariant, d: LiftLower): bool {
    !(v == GuestImport && d == LowerArgsLiftResults)
  }

  function AreaFor(p: PtrSize, t: Ty, use: AreaUse): Inst {
    ReturnArea(Size(p, t), Align(p, t), use)
  }

  // ----- lowering the arguments -----

  /** One argument, stored. */
  function ArgStoreCode(g: Gen, t: Ty, i: nat, a: Var, off: nat, n: Var): (c: Chunk)
    requires WellFormed(t)
    ensures n <= c.next && c.outs == []
  {
    hide WriteCode;
    var x := One(GetArg(i), [], n);
    Then(x, WriteCode(g, t, x.outs[0], a, off, x.next))
  }

  /** One argument, lowered. */
  function ArgFlatCode(g: Gen, t: Ty, i: nat, n: Var): (c: Chunk)
    requires WellFormed(t)
    ensures n <= c.next && |c.outs| == |Flat(t)| && Scoped(c)
  {
    hide LowerCode;
    var x := One(GetArg(i), [], n);
    Then(x, LowerCode(g, t, x.outs[0], x.next))
  }

  /** Arguments `i`, `i + 1`, … stored one after the other, like the fields of a record. */
  function ArgsToMemoryCode(g: Gen, tys: seq<Ty>, i: nat, a: Var, pos: nat, n: Var): (c: Chunk)
    requires AllWellFormed(tys)
    ensures n <= c.next && c.outs == []
    decreases tys
  {
    hide ArgStoreCode;
    if tys == [] then Chunk([], [], n)
    else
      var o := FieldOffset(g.p, tys[0], pos);
      var c := ArgStoreCode(g, tys[0], i, a, o, n);
      Then(c, ArgsToMemoryCode(g, tys[1..], i + 1, a, o + Size(g.p, tys[0]), c.next))
  }

  function ArgsFlatCode(g: Gen, tys: seq<Ty>, i: nat, n: Var): (c: Chunk)
    requires AllWellFormed(tys)
    ensures n <= c.next && |c.outs| == |FlatFields(tys)| && Scoped(c)
    decreases tys
  {
    hide ArgFlatCode;
    if tys == [] then Chunk([], [], n)
    else
      var c := ArgFlatCode(g, tys[0], i, n);
      Both(c, ArgsFlatCode(g, tys[1..], i + 1, c.next))
  }

  /** The space for indirect parameters: the guest's own area, or memory of the callee. */
  function SpaceInst(p: PtrSize, v: AbiVariant, f: Func): (i: Inst)
    ensures OperandsLen(i) == 0 && ResultsLen(i) == 1
  {
    if v == GuestImport then AreaFor(p, f.ParamsTuple(), ForParams)
    else Malloc(Size(p, f.ParamsTuple()), Align(p, f.ParamsTuple()))
  }

  function LowerParamsCode(g: Gen, v: AbiVariant, f: Func, n: Var): (c: Chunk)
    requires f.Valid()
    ensures n <= c.next && Scoped(c)
    ensures |c.outs| == if IndirectParams(f) then 1 else |FlatFields(f.params)|
  {
    hide ArgsToMemoryCode, ArgsFlatCode, FlatFields, SpaceInst, IndirectParams, ResultsLen;
    if IndirectParams(f) then
      var a := One(SpaceInst(g.p, v, f), [], n);
      var c := ArgsToMemoryCode(g, f.params, 0, a.outs[0], 0, a.next);
      Chunk(a.code + c.code, a.outs, c.next)
    else ArgsFlatCode(g, f.params, 0, n)
  }

  // ----- LowerArgsLiftResults -----

  /** The pointer argument under which an import leaves a large result. */
  function ResultSpaceCode(g: Gen, v: AbiVariant, f: Func, n: Var): (c: Chunk)
    ensures n <= c.next && Scoped(c) && |c.outs| == (if v == GuestImport && RetPtr(f) then 1 else 0)
    ensures v == GuestImport && RetPtr(f) ==> c.next == n + 1
  {
    if v == GuestImport && RetPtr(f) then One(AreaFor(g.p, f.ResultTuple(), ForResult), [], n) else Chunk([], [], n)
  }

  /** Lifting the result: `ptr` is where a large one is, `xs` are the words of a small one. */
  function LiftResultCode(g: Gen, f: Func, ptr: Var, xs: seq<Var>, n: Var): (c: Chunk)
    requires f.Valid() && (!RetPtr(f) ==> |xs| == |ResultFlat(f)|)
    ensures n <= c.next && |c.outs| == |f.Results()|
  {
    hide ReadFieldsCode, LiftCode;
    if RetPtr(f) then
      var c := ReadFieldsCode(g, f.Results(), ptr, 0, 0, n);
      Then(c, One(Flush(|f.Results()|), c.outs, c.next))
    else if f.result.Some? then LiftCode(g, f.result.value, xs, n)
    else Chunk([], [], n)
  }

  /** The operands of the core call. */
  function CallArgsCode(g: Gen, v: AbiVariant, f: Func, n: Var): (c: Chunk)
    requires f.Valid()
    ensures n <= c.next && Scoped(c) && |c.outs| == |WasmSignature(v, f).params|
    ensures v == GuestImport && RetPtr(f) ==> c.next > 0 && WasmSignature(v, f).results == []
  {
    hide LowerParamsCode, ResultSpaceCode, FlatFields;
    var lowered := LowerParamsCode(g, v, f, n);
    Both(lowered, ResultSpaceCode(g, v, f, lowered.next))
  }

  /** Up to and including the core call. */
  function CallWasmCode(g: Gen, v: AbiVariant, f: Func, n: Var): (c: Chunk)
    requires f.Valid()
    ensures n <= c.next && |c.outs| == |WasmSignature(v, f).results|
    ensures v == GuestImport && RetPtr(f) ==> c.next > 0
  {
    hide CallArgsCode, WasmSignature;
    var sig := WasmSignature(v, f);
    var args := CallArgsCode(g, v, f, n);
    Then(args, One(CallWasm(|sig.params|, |sig.results|), args.outs, args.next))
  }

  /** Where a large result is: an import's own pointer, made just before the call, or the
      pointer that an export returned. */
  function ResultPtr(v: AbiVariant, f: Func, call: Chunk): Var
    requires |call.outs| == |WasmSignature(v, f).results| && (v == GuestImport && RetPtr(f) ==> call.next > 0)
  {
    if !RetPtr(f) then 0 else if v == GuestImport then call.next - 1 else call.outs[0]
  }

  function LowerArgsCode(g: Gen, v: AbiVariant, f: Func, n: Var): (c: Chunk)
    requires f.Valid()
    ensures n <= c.next && c.outs == []
  {
    hide CallWasmCode, LiftResultCode, Flat;
    var call := CallWasmCode(g, v, f, n);
    var lifted := LiftResultCode(g.(own := false), f, ResultPtr(v, f, call), call.outs, call.next);
    var both := Then(call, lifted);
    Then(both, One(Return(|f.Results()|), both.outs, both.next))
  }

  // ----- LiftArgsLowerResults -----

  function GetArgsCode(i: nat, k: nat, n: Var): (c: Chunk)
    ensures n <= c.next && |c.outs| == k && Scoped(c)
    decreases k
  {
    if k == 0 then Chunk([], [], n)
    else
      var x := One(GetArg(i), [], n);
      Both(x, GetArgsCode(i + 1, k - 1, x.next))
  }

  /** One flat parameter: its words, from argument `i` on, and their lifting. */
  function ParamCode(g: Gen, t: Ty, i: nat, n: Var): (c: Chunk)
    requires WellFormed(t)
    ensures n <= c.next && |c.outs| == 1 && Scoped(c)
  {
    hide LiftCode;
    var xs := GetArgsCode(i, |Flat(t)|, n);
    Then(xs, LiftCode(g, t, xs.outs, xs.next))
  }

  function ParamsFlatCode(g: Gen, tys: seq<Ty>, i: nat, n: Var): (c: Chunk)
    requires AllWellFormed(tys)
    ensures n <= c.next && |c.outs| == |tys| && Scoped(c)
    decreases tys
  {
    hide ParamCode, Flat;
    if tys == [] then Chunk([], [], n)
    else
      var c := ParamCode(g, tys[0], i, n);
      Both(c, ParamsFlatCode(g, tys[1..], i + |Flat(tys[0])|, c.next))
  }

  function LiftParamsCode(g: Gen, f: Func, n: Var): (c: Chunk)
    requires f.Valid()
    ensures n <= c.next && |c.outs| == |f.params| && Scoped(c)
  {
    hide ReadFieldsCode, ParamsFlatCode, FlatFields;
    if IndirectParams(f) then
      var a := One(GetArg(0), [], n);
      Then(a, ReadFieldsCode(g, f.params, a.outs[0], 0, 0, a.next))
    else ParamsFlatCode(g, f.params, 0, n)
  }

  /** An export frees the memory that carried its parameters. */
  function FreeParamsCode(g: Gen, v: AbiVariant, f: Func, n: Var): (c: Chunk)
    ensures n <= c.next && c.outs == []
  {
    if v == GuestExport && IndirectParams(f) then
      var a := One(GetArg(0), [], n);
      Then(a, One(GuestDeallocate(Size(g.p, f.ParamsTuple()), Align(g.p, f.ParamsTuple())), a.outs, a.next))
    else Chunk([], [], n)
  }

  /** Lowering the result `xs` (none or one value). */
  function LowerResultCode(g: Gen, v: AbiVariant, f: Func, xs: seq<Var>, n: Var): (c: Chunk)
    requires f.Valid() && |xs| == |f.Results()|
    ensures n <= c.next && |c.outs| == |WasmSignature(v, f).results|
  {
    hide LowerCode, WriteFieldsCode, FlatFields;
    if !RetPtr(f) then
      if f.result.Some? then LowerCode(g, f.result.value, xs[0], n) else Chunk([], [], n)
    else
      var a := if v == GuestImport then One(GetArg(|WasmSignature(v, f).params| - 1), [], n)
               else One(AreaFor(g.p, f.ResultTuple(), ForResult), [], n);
      var c := WriteFieldsCode(g, f.Results(), xs, a.outs[0], 0, 0, a.next);
      Chunk(a.code + c.code, if v == GuestImport then [] else a.outs, c.next)
  }

  /** Up to and including the call of the source-language function. */
  function CallInterfaceCode(g: Gen, f: Func, n: Var): (c: Chunk)
    requires f.Valid()
    ensures n <= c.next && |c.outs| == |f.Results()| && Scoped(c)
  {
    hide LiftParamsCode;
    var params := LiftParamsCode(g, f, n);
    Then(params, One(CallInterface(|f.params|, f.result.Some?), params.outs, params.next))
  }

  function ReturnCode(g: Gen, v: AbiVariant, f: Func, xs: seq<Var>, n: Var): (c: Chunk)
    requires f.Valid() && |xs| == |f.Results()|
    ensures n <= c.next && |c.outs| == |WasmSignature(v, f).results|
  {
    hide FreeParamsCode, LowerResultCode, WasmSignature;
    var freed := FreeParamsCode(g, v, f, n);
    Then(freed, LowerResultCode(g, v, f, xs, freed.next))
  }

  function LiftArgsCode(g: Gen, v: AbiVariant, f: Func, n: Var): (c: Chunk)
    requires f.Valid()
    ensures n <= c.next && c.outs == []
  {
    hide CallInterfaceCode, ReturnCode, WasmSignature;
    var call := CallInterfaceCode(g.(own := false), f, n);
    var all := Then(call, ReturnCode(g, v, f, call.outs, call.next));
    Then(all, One(Return(|WasmSignature(v, f).results|), all.outs, all.next))
  }

  /** `call`: `g.own` is replaced by what the direction demands. */
  function CallCode(g: Gen, v: AbiVariant, d: LiftLower, f: Func, n: Var): (c: Chunk)
    requires f.Valid()
    ensures n <= c.next && c.outs == []
  {
    var h := g.(own := PassesOwnership(v, d));
    if d == LowerArgsLiftResults then LowerArgsCode(h, v, f, n) else LiftArgsCode(h, v, f, n)
  }

  /** The scratch space that a direction of the glue asks for. */
  predicate UsesParamsArea(v: AbiVariant, d: LiftLower, f: Func) {
    v == GuestImport && d == LowerArgsLiftResults && IndirectParams(f)
  }

  predicate UsesResultArea(v: AbiVariant, d: LiftLower, f: Func) {
    RetPtr(f) && (if v == GuestImport then d == LowerArgsLiftResults else d == LiftArgsLowerResults)
  }

  /** One area of this size and alignment serves every request of the glue. */
  predicate AreaServes(p: PtrSize, v: AbiVariant, d: LiftLower, f: Func, size: nat, align: nat) {
    && (UsesParamsArea(v, d, f) ==> Size(p, f.ParamsTuple()) <= size && Align(p, f.ParamsTuple()) <= align)
    && (UsesResultArea(v, d, f) ==> Size(p, f.ResultTuple()) <= size && Align(p, f.ResultTuple()) <= align)
  }

  // ----- post_return -----

  /** Frees what the result owns; the caller hands back the pointer it was given. */
  function PostReturnCode(g: Gen, f: Func, n: Var): (c: Chunk)
    requires f.Valid()
    ensures n <= c.next && c.outs == []
  {
    hide FreeFieldsCode;
    var a := One(GetArg(0), [], n);
    var c := Then(a, FreeFieldsCode(g, Lists, f.Results(), a.outs[0], 0, 0, a.next));
    Then(c, One(Return(0), [], c.next))
  }
}
