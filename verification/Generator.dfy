/** The code generator: an operand stack driven over a backend that keeps a stack of
    open blocks, a stack of finished blocks and a stack of payload names. */
module Generator {
  import opened Wrappers
  import opened CoreTypes
  import opened Layout
  import CanonicalAbi
  import opened Code
  import opened Codegen
  import opened DeallocCodegen
  import opened DeallocStack
  import opened CallCodegen
  import opened Snapshots

  /** A backend, reduced to what it does with blocks, payload names and its return area. */
  class FunctionBindgen {
    const p: PtrSize
    const canonical: Ty -> bool
    var src: seq<Stmt>
    var blockStorage: seq<seq<Stmt>>
    var blocks: seq<CodeBlock>
    var payloads: seq<Var>
    var next: Var
    var areaSize: nat
    var areaAlign: nat

    constructor (p: PtrSize, canonical: Ty -> bool, next: Var)
      ensures this.p == p && this.canonical == canonical && this.next == next
      ensures src == [] && blockStorage == [] && blocks == [] && payloads == []
      ensures areaSize == 0 && areaAlign == 1
    {
      this.p, this.canonical, this.next := p, canonical, next;
      src, blockStorage, blocks, payloads := [], [], [], [];
      areaSize, areaAlign := 0, 1;
    }

    /** The statements so far become an enclosing block. */
    method PushBlock()
      modifies this`src, this`blockStorage
      ensures src == [] && blockStorage == old(blockStorage) + [old(src)]
    {
      blockStorage := blockStorage + [src];
      src := [];
    }

    method FinishBlock(operands: seq<Var>)
      requires blockStorage != []
      modifies this`src, this`blockStorage, this`blocks
      ensures blockStorage == old(blockStorage)[..|old(blockStorage)| - 1] && src == old(blockStorage)[|old(blockStorage)| - 1]
      ensures blocks == old(blocks) + [CodeBlock(old(src), operands)]
    {
      var last := |blockStorage| - 1;
      blocks := blocks + [CodeBlock(src, operands)];
      src := blockStorage[last];
      blockStorage := blockStorage[..last];
    }

    /** Names the results, and takes the blocks and payload names the instruction needs
        off the ends of their stacks. */
    method Emit(i: Inst, operands: seq<Var>) returns (results: seq<Var>)
      requires |operands| == OperandsLen(i) && BlocksLen(i) <= |blocks| && PayloadsLen(i) <= |payloads|
      modifies this`src, this`blocks, this`payloads, this`next
      ensures |results| == ResultsLen(i)
      ensures results == Fresh(old(next), ResultsLen(i)) && next == old(next) + ResultsLen(i)
      ensures i.VariantPayloadName? ==>
                src == old(src) && blocks == old(blocks) && payloads == old(payloads) + results
      ensures !i.VariantPayloadName? ==>
                var b, c := |old(blocks)| - BlocksLen(i), |old(payloads)| - PayloadsLen(i);
                && src == old(src) + [Stmt(i, operands, results, old(blocks)[b..], old(payloads)[c..])]
                && blocks == old(blocks)[..b] && payloads == old(payloads)[..c]
    {
      results := Fresh(next, ResultsLen(i));
      next := next + ResultsLen(i);
      if i.VariantPayloadName? {
        payloads := payloads + results;
      } else {
        var b, c := |blocks| - BlocksLen(i), |payloads| - PayloadsLen(i);
        src := src + [Stmt(i, operands, results, blocks[b..], payloads[c..])];
        blocks, payloads := blocks[..b], payloads[..c];
      }
    }

    /** Every request is served from one area; its size and alignment are running maxima. */
    method ReturnPointer(size: nat, align: nat, use: AreaUse) returns (ptr: Var)
      modifies this`src, this`next, this`areaSize, this`areaAlign
      ensures ptr == old(next) && next == old(next) + 1
      ensures src == old(src) + [Stmt(ReturnArea(size, align, use), [], [ptr], [], [])]
      ensures areaSize == Max(old(areaSize), size) && areaAlign == Max(old(areaAlign), align)
    {
      ptr := next;
      next := next + 1;
      areaSize, areaAlign := Max(areaSize, size), Max(areaAlign, align);
      src := src + [Stmt(ReturnArea(size, align, use), [], [ptr], [], [])];
    }
  }

  class Generator {
    const bindgen: FunctionBindgen
    var stack: seq<Var>
    var realloc: Option<bool>
    var returnPointer: Option<Var>

    constructor (bindgen: FunctionBindgen)
      ensures this.bindgen == bindgen && stack == [] && realloc.None? && returnPointer.None?
    {
      this.bindgen, stack, realloc, returnPointer := bindgen, [], None, None;
    }

    ghost function Snap(): Snapshot
      reads this, bindgen
    {
      Snapshot(stack, bindgen.src, bindgen.blockStorage, bindgen.blocks, bindgen.payloads, bindgen.next)
    }

    ghost function G(): Gen
      reads this
    {
      Gen(bindgen.p, realloc.Some? && realloc.value, bindgen.canonical)
    }

    /** Pops the operands, has the backend emit, and pushes the results. */
    method Emit(i: Inst)
      requires CanEmit(Snap(), i)
      modifies this`stack, bindgen`src, bindgen`blocks, bindgen`payloads, bindgen`next
      ensures Snap() == Emitted(old(Snap()), i)
    {
      var a := |stack| - OperandsLen(i);
      var operands := stack[a..];
      stack := stack[..a];
      var results := bindgen.Emit(i, operands);
      stack := stack + results;
    }

    /** An instruction that takes no blocks. */
    method EmitPlain(i: Inst)
      requires OperandsLen(i) <= |stack| && BlocksLen(i) == 0 && PayloadsLen(i) == 0 && !i.VariantPayloadName?
      modifies this`stack, bindgen`src, bindgen`blocks, bindgen`payloads, bindgen`next
      ensures Snap() == Did(old(Snap()), OperandsLen(i), One(i, Top(old(Snap()), OperandsLen(i)), old(bindgen.next)))
    {
      EmitOne(Snap(), i);
      Emit(i);
    }

    /** One more instruction, on everything that `c` left. */
    method EmitOn(ghost s: Snapshot, ghost pops: nat, ghost c: Chunk, i: Inst)
      requires pops <= |s.stack| && Snap() == Did(s, pops, c) && |c.outs| == OperandsLen(i)
      requires BlocksLen(i) == 0 && PayloadsLen(i) == 0 && !i.VariantPayloadName?
      modifies this`stack, bindgen`src, bindgen`blocks, bindgen`payloads, bindgen`next
      ensures Snap() == Did(s, pops, Then(c, One(i, c.outs, c.next)))
    {
      Gathered(s, pops, c, One(i, c.outs, c.next));
      EmitPlain(i);
    }

    /** The return of everything that `c` leaves. */
    method EmitReturn(ghost s: Snapshot, ghost c: Chunk, n: nat)
      requires Snap() == Did(s, 0, c) && |c.outs| == n
      modifies this`stack, bindgen`src, bindgen`blocks, bindgen`payloads, bindgen`next
      ensures Snap() == Did(s, 0, Then(c, One(Return(n), c.outs, c.next)))
    {
      hide Did, One;
      EmitOn(s, 0, c, Return(n));
    }

    /** An instruction that takes exactly the blocks and names that wait for it. */
    method EmitTaking(ghost s: Snapshot, ghost blocks: seq<CodeBlock>, ghost payloads: seq<Var>, ghost next: Var, i: Inst)
      requires Snap() == Waiting(s, blocks, payloads, next) && |blocks| == BlocksLen(i) && |payloads| == PayloadsLen(i)
      requires OperandsLen(i) <= |s.stack| && !i.VariantPayloadName?
      modifies this`stack, bindgen`src, bindgen`blocks, bindgen`payloads, bindgen`next
      ensures Snap() == Did(s, OperandsLen(i), Take(i, Top(s, OperandsLen(i)), next, blocks, payloads))
    {
      EmitTake(s, i, blocks, payloads, next);
      Emit(i);
    }

    method Arg(nth: nat)
      modifies this`stack, bindgen`src, bindgen`blocks, bindgen`payloads, bindgen`next
      ensures Snap() == Did(old(Snap()), 0, One(GetArg(nth), [], old(bindgen.next)))
    {
      TopNone(Snap());
      EmitPlain(GetArg(nth));
    }

    /** Opens the block of a case, and takes its payload name. */
    method OpenCaseBlock() returns (payloadName: Var)
      modifies this`stack, bindgen`src, bindgen`blockStorage, bindgen`blocks, bindgen`payloads, bindgen`next
      ensures Snap() == Named(old(Snap())) && payloadName == old(bindgen.next)
      ensures bindgen.next == old(bindgen.next) + 1 && stack == old(stack)
    {
      hide CanEmit, Emitted, Named, Opened, Top, Drop;
      OpenArm(Snap());
      PushBlock();
      Emit(VariantPayloadName);
      payloadName := Pop();
    }

    /** Opens the block of a loop, and fetches the address of the loop's element. */
    method OpenLoopBlock() returns (addr: Var)
      modifies this`stack, bindgen`src, bindgen`blockStorage, bindgen`blocks, bindgen`payloads, bindgen`next
      ensures var a := One(IterBasePointer, [], old(bindgen.next));
              && addr == a.outs[0] && bindgen.next == a.next
              && Did(Opened(old(Snap())), 0, a).stack != [] && Snap() == Drop(Did(Opened(old(Snap())), 0, a), 1)
    {
      hide Did, Opened, Top, Drop;
      ghost var s := Snap();
      ghost var a := One(IterBasePointer, [], s.next);
      OpenedIs(s);
      PushBlock();
      TopNone(Snap());
      EmitPlain(IterBasePointer);
      BasePopped(s, a);
      addr := Pop();
    }

    method PushBlock()
      modifies bindgen`src, bindgen`blockStorage
      ensures Snap() == Opened(old(Snap()))
    {
      bindgen.PushBlock();
    }

    method FinishBlock(size: nat)
      requires size <= |stack| && bindgen.blockStorage != []
      modifies this`stack, bindgen`src, bindgen`blockStorage, bindgen`blocks
      ensures Snap() == Closed(old(Snap()), size)
    {
      var a := |stack| - size;
      var operands := stack[a..];
      stack := stack[..a];
      bindgen.FinishBlock(operands);
    }

    method Pop() returns (x: Var)
      requires stack != []
      modifies this`stack
      ensures [x] == Top(old(Snap()), 1) && Snap() == Drop(old(Snap()), 1)
    {
      x := stack[|stack| - 1];
      stack := stack[..|stack| - 1];
    }

    /** The end of the block that `OpenLoopBlock` began. */
    method CloseLoopBlock(ghost s: Snapshot, ghost a: Chunk, ghost c: Chunk, size: nat)
      requires |a.outs| == 1 && |c.outs| == size && Did(Opened(s), 0, a).stack != []
      requires Snap() == Did(Drop(Did(Opened(s), 0, a), 1), 0, c)
      modifies this`stack, bindgen`src, bindgen`blockStorage, bindgen`blocks
      ensures Snap() == Waiting(s, [CodeBlock(a.code + c.code, c.outs)], [], c.next)
    {
      hide Did, Opened, Waiting, Closed, Drop;
      BaseThen(s, a, c);
      DidOpen(s, Then(a, c));
      BlockDone(s, Then(a, c));
      FinishBlock(size);
    }

    method Drain(n: nat) returns (xs: seq<Var>)
      requires n <= |stack|
      modifies this`stack
      ensures |xs| == n && xs == Top(old(Snap()), n) && Snap() == Drop(old(Snap()), n)
    {
      xs := stack[|stack| - n..];
      stack := stack[..|stack| - n];
    }

    // ----- lower -----

    /** An instruction that lowers the value on top of the stack. */
    method LowerPlain(i: Inst)
      requires i.ScalarLower? || i.StringLower? || i.FlagsLower? || i.EnumLower?
      requires stack != []
      modifies this`stack, bindgen`src, bindgen`blockStorage, bindgen`blocks, bindgen`payloads, bindgen`next
      ensures Snap() == Did(old(Snap()), 1, One(i, [old(stack)[|old(stack)| - 1]], old(bindgen.next)))
    {
      hide Did, Top, One;
      TopIs(Snap());
      EmitPlain(i);
    }

    /** An instruction that lifts a value from the words on top of the stack. */
    method LiftPlain(i: Inst, words: nat)
      requires i.ScalarLift? || i.StringLift? || i.FlagsLift? || i.EnumLift?
      requires words <= |stack| && words == if i.StringLift? then 2 else if i.FlagsLift? then FlagWords(i.count) else 1
      modifies this`stack, bindgen`src, bindgen`blockStorage, bindgen`blocks, bindgen`payloads, bindgen`next
      ensures Snap() == Did(old(Snap()), words, One(i, Top(old(Snap()), words), old(bindgen.next)))
    {
      hide Did, Top, One;
      EmitPlain(i);
    }

    method Lower(t: Ty)
      requires WellFormed(t) && LowerFits(t) && stack != [] && realloc.Some?
      modifies this`stack, bindgen`src, bindgen`blockStorage, bindgen`blocks, bindgen`payloads, bindgen`next
      ensures Snap() == Did(old(Snap()), 1, LowerCode(G(), t, old(stack)[|old(stack)| - 1], old(bindgen.next)))
      decreases t, 2
    {
      hide LowerListCode, LowerMapCode, LowerFieldsCode, LowerRepeatCode, LowerVariantCode, FlatFields, FlatRepeat, FlatArms, Did, One;
      match t
      case Scalar(p) => LowerPlain(ScalarLower(p));
      case Str => LowerPlain(StringLower(realloc.value));
      case Alias(u) => Lower(u);
      case List(e) => LowerList(e);
      case Map(e) => LowerMap(e);
      case FixedList(e, len) => LowerFixedList(e, len);
      case Record(rk, fs) => LowerRecord(rk, fs);
      case Flags(c) => LowerPlain(FlagsLower(c));
      case Enum(c) => LowerPlain(EnumLower(c));
      case Variant(vk, arms) => LowerVariant(vk, arms);
    }

    method LowerFixedList(e: Ty, len: nat)
      requires WellFormed(e) && LowerFits(e) && stack != [] && realloc.Some?
      modifies this`stack, bindgen`src, bindgen`blockStorage, bindgen`blocks, bindgen`payloads, bindgen`next
      ensures var d := One(FixedListLower(e, len), [old(stack)[|old(stack)| - 1]], old(bindgen.next));
              Snap() == Did(old(Snap()), 1, Then(d, LowerRepeatCode(G(), e, d.outs, d.next)))
      decreases e, 6
    {
      hide LowerRepeatCode, Did, Top;
      ghost var s := Snap();
      TopIs(s);
      Split(FixedListLower(e, len));
      LowerRepeat(e, len);
      SplitDone(s, FixedListLower(e, len), LowerRepeatCode(G(), e, Fresh(s.next, len), s.next + len));
    }

    method LowerRecord(rk: RecordKind, fs: seq<Ty>)
      requires AllWellFormed(fs) && (forall f | f in fs :: LowerFits(f)) && stack != [] && realloc.Some?
      modifies this`stack, bindgen`src, bindgen`blockStorage, bindgen`blocks, bindgen`payloads, bindgen`next
      ensures var d := One(RecordLower(rk, |fs|), [old(stack)[|old(stack)| - 1]], old(bindgen.next));
              Snap() == Did(old(Snap()), 1, Then(d, LowerFieldsCode(G(), fs, d.outs, d.next)))
      decreases fs, 2
    {
      hide LowerFieldsCode, Did, Top;
      ghost var s := Snap();
      TopIs(s);
      Split(RecordLower(rk, |fs|));
      LowerFields(fs);
      SplitDone(s, RecordLower(rk, |fs|), LowerFieldsCode(G(), fs, Fresh(s.next, |fs|), s.next + |fs|));
    }

    /** Takes a record or an array apart. */
    method Split(i: Inst)
      requires (i.RecordLower? || i.FixedListLower?) && stack != []
      modifies this`stack, bindgen`src, bindgen`blockStorage, bindgen`blocks, bindgen`payloads, bindgen`next
      ensures Snap() == Did(old(Snap()), 1, One(i, Top(old(Snap()), 1), old(bindgen.next)))
      ensures Top(Snap(), i.len) == Fresh(old(bindgen.next), i.len) && bindgen.next == old(bindgen.next) + i.len
      ensures |stack| == |old(stack)| - 1 + i.len
    {
      hide Did, Top, One, Fresh;
      SplitLeaves(Snap(), i);
      EmitPlain(i);
    }

    lemma SplitLeaves(s: Snapshot, i: Inst)
      requires (i.RecordLower? || i.FixedListLower?) && s.stack != []
      ensures var r := Did(s, 1, One(i, Top(s, 1), s.next));
              && |r.stack| == |s.stack| - 1 + i.len && r.next == s.next + i.len
              && Top(r, i.len) == Fresh(s.next, i.len)
    {
      hide Top, Fresh;
      Gathered(s, 1, One(i, Top(s, 1), s.next), Chunk([], [], s.next));
    }

    lemma SplitDone(s: Snapshot, i: Inst, c: Chunk)
      requires (i.RecordLower? || i.FixedListLower?) && s.stack != []
      ensures var d := One(i, Top(s, 1), s.next); Did(Did(s, 1, d), i.len, c) == Did(s, 1, Then(d, c))
    {
      hide Did;
      DidThen(s, 1, One(i, Top(s, 1), s.next), c);
    }

    method LowerFields(fs: seq<Ty>)
      requires AllWellFormed(fs) && (forall f | f in fs :: LowerFits(f)) && |fs| <= |stack| && realloc.Some?
      modifies this`stack, bindgen`src, bindgen`blockStorage, bindgen`blocks, bindgen`payloads, bindgen`next
      ensures Snap() == Did(old(Snap()), |fs|, LowerFieldsCode(G(), fs, Top(old(Snap()), |fs|), old(bindgen.next)))
      decreases fs, 1
    {
      hide LowerCode, Flat, Did, Drop;
      ghost var s0 := Snap();
      var values := Drain(|fs|);
      ghost var s := Snap();
      ghost var all := LowerFieldsCode(G(), fs, values, s.next);
      var i := 0;
      assert fs[0..] == fs && values[0..] == values;
      while i < |fs|
        invariant 0 <= i <= |fs| && G() == old(G()) && realloc.Some?
        invariant Did(Snap(), 0, LowerFieldsCode(G(), fs[i..], values[i..], bindgen.next)) == Did(s, 0, all)
      {
        ghost var s1 := Snap();
        assert fs[i..][0] == fs[i] && fs[i..][1..] == fs[i + 1..] && values[i..][0] == values[i] && values[i..][1..] == values[i + 1..];
        ghost var c := LowerCode(G(), fs[i], values[i], s1.next);
        LowerValue(fs[i], values[i]);
        DidNext(s1, 0, c);
        DidBoth(s1, 0, c, LowerFieldsCode(G(), fs[i + 1..], values[i + 1..], c.next));
        i := i + 1;
      }
      assert fs[i..] == [];
      DidNothing(Snap());
      DrainDid(s0, |fs|, all);
    }

    method LowerRepeat(e: Ty, n: nat)
      requires WellFormed(e) && LowerFits(e) && n <= |stack| && realloc.Some?
      modifies this`stack, bindgen`src, bindgen`blockStorage, bindgen`blocks, bindgen`payloads, bindgen`next
      ensures Snap() == Did(old(Snap()), n, LowerRepeatCode(G(), e, Top(old(Snap()), n), old(bindgen.next)))
      decreases e, 5
    {
      hide LowerCode, LowerRepeatCode, Flat, Did, Drop;
      ghost var s0 := Snap();
      var values := Drain(n);
      ghost var s := Snap();
      ghost var all := LowerRepeatCode(G(), e, values, s.next);
      var i := 0;
      assert values[0..] == values;
      while i < n
        invariant 0 <= i <= n && G() == old(G()) && realloc.Some?
        invariant Did(Snap(), 0, LowerRepeatCode(G(), e, values[i..], bindgen.next)) == Did(s, 0, all)
      {
        ghost var s1 := Snap();
        LowerRepeatStep(G(), e, values, i, s1.next);
        ghost var c := LowerCode(G(), e, values[i], s1.next);
        LowerValue(e, values[i]);
        DidNext(s1, 0, c);
        DidBoth(s1, 0, c, LowerRepeatCode(G(), e, values[i + 1..], c.next));
        i := i + 1;
      }
      LowerRepeatEnd(G(), e, values[i..], bindgen.next);
      DidNothing(Snap());
      DrainDid(s0, n, all);
    }

    /** Pushes a drained operand back, and lowers it. */
    method LowerValue(t: Ty, x: Var)
      requires WellFormed(t) && LowerFits(t) && realloc.Some?
      modifies this`stack, bindgen`src, bindgen`blockStorage, bindgen`blocks, bindgen`payloads, bindgen`next
      ensures Snap() == Did(old(Snap()), 0, LowerCode(G(), t, x, old(bindgen.next)))
      decreases t, 3
    {
      hide LowerCode, Did;
      ghost var s := Snap();
      stack := stack + [x];
      Lower(t);
      DidPushed(s, [x], LowerCode(G(), t, x, s.next));
    }

    method LowerList(e: Ty)
      requires WellFormed(e) && stack != [] && realloc.Some?
      modifies this`stack, bindgen`src, bindgen`blockStorage, bindgen`blocks, bindgen`payloads, bindgen`next
      ensures Snap() == Did(old(Snap()), 1, LowerListCode(G(), e, old(stack)[|old(stack)| - 1], old(bindgen.next)))
      decreases e, 7
    {
      hide ElemWriter, Did, Waiting, Emitted, Top, Take, One;
      ghost var s := Snap();
      TopIs(s);
      if bindgen.canonical(e) {
        EmitPlain(ListCanonLower(e, realloc.value));
      } else {
        ghost var w := ElemWriter(G(), e, 0, s.next);
        WriteElemBlock(e, 0);
        EmitTaking(s, [w.block], [], w.next, ListLower(e, realloc.value));
      }
    }

    method LowerMap(e: Ty)
      requires WellFormed(e) && e.Record? && |e.fields| == 2 && stack != [] && realloc.Some?
      modifies this`stack, bindgen`src, bindgen`blockStorage, bindgen`blocks, bindgen`payloads, bindgen`next
      ensures Snap() == Did(old(Snap()), 1, LowerMapCode(G(), e, old(stack)[|old(stack)| - 1], old(bindgen.next)))
      decreases e, 7
    {
      hide EntryWriter, Did, Waiting, Emitted, Top, Take, One;
      ghost var s := Snap();
      TopIs(s);
      ghost var w := EntryWriter(G(), e, s.next);
      WriteEntryBlock(e);
      EmitTaking(s, [w.block], [], w.next, MapLower(e, realloc.value));
    }

    /** Fetches a value with an `Iter*` instruction and stores it at the loop's address. */
    method IterWrite(i: Inst, t: Ty, off: nat)
      requires (i.IterElem? || i.IterMapKey? || i.IterMapValue?) && WellFormed(t) && realloc.Some?
      modifies this`stack, bindgen`src, bindgen`blockStorage, bindgen`blocks, bindgen`payloads, bindgen`next
      ensures Snap() == Did(old(Snap()), 0, IterWriteCode(G(), i, t, off, old(bindgen.next)))
      decreases t, 5
    {
      hide WriteCode, Did, Emitted, Drop, Top, OperandsLen, ResultsLen, BlocksLen, PayloadsLen;
      IterArity(i);
      ghost var s := Snap();
      ghost var x := One(i, [], s.next);
      ghost var a := One(IterBasePointer, [], x.next);
      ghost var c := WriteCode(G(), t, x.outs[0], a.outs[0], off, a.next);
      TopNone(s);
      EmitPlain(i);
      TopNone(Snap());
      DidNext(s, 0, x);
      EmitPlain(IterBasePointer);
      DidAddressed(s, x, a, c);
      DidNext(Did(s, 0, x), 0, a);
      TopIs(Snap());
      var addr := Pop();
      WriteToMemory(t, addr, off);
    }

    /** The block that stores one list element. */
    method WriteElemBlock(e: Ty, off: nat)
      requires WellFormed(e) && realloc.Some?
      modifies this`stack, bindgen`src, bindgen`blockStorage, bindgen`blocks, bindgen`payloads, bindgen`next
      ensures var w := ElemWriter(G(), e, off, old(bindgen.next)); Snap() == Waiting(old(Snap()), [w.block], [], w.next)
      decreases e, 6
    {
      hide IterWriteCode, Did, Opened, Waiting, Closed;
      ghost var s := Snap();
      OpenedIs(s);
      PushBlock();
      IterWrite(IterElem, e, off);
      ghost var c := IterWriteCode(G(), IterElem, e, off, s.next);
      DidOpen(s, c);
      BlockDone(s, c);
      FinishBlock(0);
    }

    /** The block that stores one map entry. */
    method WriteEntryBlock(e: Ty)
      requires WellFormed(e) && e.Record? && |e.fields| == 2 && realloc.Some?
      modifies this`stack, bindgen`src, bindgen`blockStorage, bindgen`blocks, bindgen`payloads, bindgen`next
      ensures var w := EntryWriter(G(), e, old(bindgen.next)); Snap() == Waiting(old(Snap()), [w.block], [], w.next)
      decreases e, 6
    {
      hide IterWriteCode, Did, Opened, Waiting, Closed, ValueOffset;
      ghost var s := Snap();
      var key, val := e.fields[0], e.fields[1];
      assert key in e.fields && val in e.fields;
      var valueOffset := ValueOffset(bindgen.p, e);
      OpenedIs(s);
      PushBlock();
      IterWrite(IterMapKey, key, 0);
      ghost var first := IterWriteCode(G(), IterMapKey, key, 0, s.next);
      DidNext(Opened(s), 0, first);
      IterWrite(IterMapValue, val, valueOffset);
      ghost var second := IterWriteCode(G(), IterMapValue, val, valueOffset, first.next);
      DidThen(Opened(s), 0, first, second);
      DidOpen(s, Then(first, second));
      BlockDone(s, Then(first, second));
      FinishBlock(0);
    }

    method LowerVariant(vk: VariantKind, arms: seq<Option<Ty>>)
      requires ArmsWellFormed(arms) && LowerFits(Variant(vk, arms)) && stack != [] && realloc.Some?
      modifies this`stack, bindgen`src, bindgen`blockStorage, bindgen`blocks, bindgen`payloads, bindgen`next
      ensures Snap() == Did(old(Snap()), 1, LowerVariantCode(G(), vk, arms, old(stack)[|old(stack)| - 1], old(bindgen.next)))
      decreases arms, 3
    {
      hide LowerArmsCode, Did, Waiting, Emitted, FlatArms;
      ghost var s := Snap();
      TopIs(s);
      AllArmsBelow(arms);
      ghost var a := LowerArmsCode(G(), arms, 0, FlatArms(arms), s.next);
      var results := LowerVariantArms(vk, arms);
      EmitTaking(s, a.blocks, a.payloads, a.next, VariantLower(vk, arms, results));
    }

    /** `lower_variant_arms`: one block for each case, all with the same results. */
    method LowerVariantArms(vk: VariantKind, arms: seq<Option<Ty>>) returns (results: seq<WasmType>)
      requires ArmsWellFormed(arms) && ArmsBelow(arms, FlatArms(arms)) && LowerFits(Variant(vk, arms)) && realloc.Some?
      modifies this`stack, bindgen`src, bindgen`blockStorage, bindgen`blocks, bindgen`payloads, bindgen`next
      ensures results == [I32] + FlatArms(arms)
      ensures var a := LowerArmsCode(G(), arms, 0, FlatArms(arms), old(bindgen.next));
              Snap() == Waiting(old(Snap()), a.blocks, a.payloads, a.next)
      decreases arms, 2
    {
      hide LowerArmCode, Waiting, FlatArms, FlatArm, Below;
      results := FlatTypes(Variant(vk, arms), MAX_FLAT_PARAMS).value;
      ghost var s := Snap();
      ghost var slots := FlatArms(arms);
      assert results[1..] == slots;
      ghost var all := LowerArmsCode(G(), arms, 0, slots, s.next);
      var i := 0;
      assert arms[0..] == arms;
      while i < |arms|
        invariant 0 <= i <= |arms| && G() == old(G()) && realloc.Some?
        invariant ArmsWellFormed(arms[i..]) && ArmsBelow(arms[i..], slots)
        invariant var rest := LowerArmsCode(G(), arms[i..], i, slots, bindgen.next);
                  Waiting(Snap(), rest.blocks, rest.payloads, rest.next) == Waiting(s, all.blocks, all.payloads, all.next)
      {
        ghost var s1 := Snap();
        assert arms[i..][0] == arms[i] && arms[i..][1..] == arms[i + 1..] && arms[i] in arms;
        ghost var w := LowerArmCode(G(), arms[i], i, slots, s1.next);
        ghost var rest := LowerArmsCode(G(), arms[i + 1..], i + 1, slots, w.next);
        LowerVariantArm(arms[i], i, results);
        WaitingNext(s1, [w.block], [s1.next], w.next);
        WaitingMore(s1, [w.block], [s1.next], w.next, rest.blocks, rest.payloads, rest.next);
        i := i + 1;
      }
      assert arms[i..] == [];
      WaitingNone(Snap());
    }

    method LowerVariantArm(arm: Option<Ty>, i: nat, results: seq<WasmType>)
      requires (arm.Some? ==> WellFormed(arm.value)) && ArmLowerFits(arm) && realloc.Some?
      requires results != [] && Below(FlatArm(arm), results[1..])
      modifies this`stack, bindgen`src, bindgen`blockStorage, bindgen`blocks, bindgen`payloads, bindgen`next
      ensures var w := LowerArmCode(G(), arm, i, results[1..], old(bindgen.next));
              Snap() == Waiting(old(Snap()), [w.block], [old(bindgen.next)], w.next)
      decreases arm, 1
    {
      hide LowerCode, Did, Waiting, Closed, Emitted, Leq, CastCode, Named, Drop, Top, Opened, CanEmit;
      ghost var s := Snap();
      var slots := results[1..];
      ghost var n0 := Named(s);
      var payloadName := OpenCaseBlock();
      ghost var tag := One(I32Const(i), [], s.next + 1);
      TopNone(Snap());
      EmitPlain(I32Const(i));
      ghost var c := Chunk([], [], tag.next);
      DidNext(n0, 0, tag);
      var pushed := 1;
      if arm.Some? {
        LowerPayload(arm.value, payloadName, slots);
        c := PayloadCode(G(), arm.value, s.next, slots, tag.next);
        pushed := 1 + |FlatTypes(arm.value, MAX_FLAT_PARAMS).value|;
      } else {
        DidNothing(Snap());
      }
      DidBoth(n0, 0, tag, c);
      PadArm(s, tag, c, results, pushed);
      FinishBlock(|results|);
      ArmDone(s, Padded(tag, c, slots));
    }

    /** Zeros for the slots that a case leaves unused. */
    method PadArm(ghost s: Snapshot, ghost tag: Chunk, ghost c: Chunk, results: seq<WasmType>, pushed: nat)
      requires |tag.outs| == 1 && results != [] && pushed == 1 + |c.outs| <= |results|
      requires Snap() == Did(Named(s), 0, Both(tag, c))
      modifies this`stack, bindgen`src, bindgen`blockStorage, bindgen`blocks, bindgen`payloads, bindgen`next
      ensures Snap() == Did(Named(s), 0, Padded(tag, c, results[1..]))
      ensures |Padded(tag, c, results[1..]).outs| == |results| <= |stack| && bindgen.blockStorage != []
    {
      hide Did, Emitted;
      ghost var done := Both(tag, c);
      DidNext(Named(s), 0, done);
      DidNamed(s, done);
      if pushed < |results| {
        ghost var z := One(ConstZero(results[1..][|c.outs|..]), [], c.next);
        assert results[pushed..] == results[1..][|c.outs|..];
        TopNone(Snap());
        EmitPlain(ConstZero(results[pushed..]));
        DidBoth(Named(s), 0, done, z);
        DidNamed(s, Both(done, z));
      }
    }

    /** Lowers a case's payload and casts its words to the shared slots. */
    method LowerPayload(u: Ty, payloadName: Var, slots: seq<WasmType>)
      requires WellFormed(u) && LowerFits(u) && |Flat(u)| <= MAX_FLAT_PARAMS && Below(Flat(u), slots) && realloc.Some?
      modifies this`stack, bindgen`src, bindgen`blockStorage, bindgen`blocks, bindgen`payloads, bindgen`next
      ensures Snap() == Did(old(Snap()), 0, PayloadCode(G(), u, payloadName, slots, old(bindgen.next)))
      decreases u, 3
    {
      hide LowerCode, Did, Flat, Leq, CastCode, Top;
      ghost var s1 := Snap();
      stack := stack + [payloadName];
      Lower(u);
      ghost var l := LowerCode(G(), u, payloadName, s1.next);
      DidPushed(s1, [payloadName], l);
      var temp := FlatTypes(u, MAX_FLAT_PARAMS).value;
      var casts := CanonicalAbi.CastsUp(temp, slots);
      DidTop(s1, l);
      EmitCasts(casts);
      DidThen(s1, 0, l, CastCode(casts, l.outs, l.next));
    }

    /** Bitcasts are emitted only if one of them is not the identity. */
    method EmitCasts(casts: seq<Bitcast>)
      requires |casts| <= |stack|
      modifies this`stack, bindgen`src, bindgen`blockStorage, bindgen`blocks, bindgen`payloads, bindgen`next
      ensures Snap() == Did(old(Snap()), |casts|, CastCode(casts, Top(old(Snap()), |casts|), old(bindgen.next)))
    {
      ghost var s := Snap();
      var i := 0;
      while i < |casts| && casts[i] == NoCast
        invariant 0 <= i <= |casts| && forall j | 0 <= j < i :: casts[j] == NoCast
      {
        i := i + 1;
      }
      if i < |casts| {
        EmitPlain(Bitcasts(casts));
      } else {
        assert s.stack[..|s.stack| - |casts|] + Top(s, |casts|) == s.stack && s.src + [] == s.src;
      }
    }

    // ----- write_to_memory -----

    method WriteToMemory(t: Ty, addr: Var, off: nat)
      requires WellFormed(t) && stack != [] && realloc.Some?
      modifies this`stack, bindgen`src, bindgen`blockStorage, bindgen`blocks, bindgen`payloads, bindgen`next
      ensures Snap() == Did(old(Snap()), 1, WriteCode(G(), t, old(stack)[|old(stack)| - 1], addr, off, old(bindgen.next)))
      decreases t, 3
    {
      hide LowerCode, WritePairCode, WriteVariantCode, WriteFieldsCode, WriteWordsCode, ElemWriter, Did, Top, TagSize, FlagBytes, FlatFields, FlatArms, FlatRepeat;
      ghost var s := Snap();
      TopIs(s);
      match t
      case Scalar(p) => LowerAndEmit(t, addr, StoreOpOf(p), off);
      case Alias(u) => WriteToMemory(u, addr, off);
      case Str | List(_) | Map(_) => WriteListToMemory(t, addr, off);
      case FixedList(e, len) => WriteFixedList(e, len, addr, off);
      case Record(rk, fs) => WriteRecord(rk, fs, addr, off);
      case Flags(c) =>
        if 0 < c <= 16 { LowerAndEmit(t, addr, StoreTag(FlagBytes(c)), off); } else { WriteFlags(c, addr, off); }
      case Enum(c) => LowerAndEmit(t, addr, StoreTag(TagSize(c)), off);
      case Variant(vk, arms) => WriteVariant(vk, arms, addr, off);
    }

    method WriteRecord(rk: RecordKind, fs: seq<Ty>, addr: Var, off: nat)
      requires AllWellFormed(fs) && stack != [] && realloc.Some?
      modifies this`stack, bindgen`src, bindgen`blockStorage, bindgen`blocks, bindgen`payloads, bindgen`next
      ensures var d := One(RecordLower(rk, |fs|), [old(stack)[|old(stack)| - 1]], old(bindgen.next));
              Snap() == Did(old(Snap()), 1, Then(d, WriteFieldsCode(G(), fs, d.outs, addr, off, 0, d.next)))
      decreases fs, 2
    {
      hide WriteFieldsCode, Did, Top;
      ghost var s := Snap();
      TopIs(s);
      Split(RecordLower(rk, |fs|));
      WriteFieldsToMemory(fs, addr, off);
      SplitDone(s, RecordLower(rk, |fs|), WriteFieldsCode(G(), fs, Fresh(s.next, |fs|), addr, off, 0, s.next + |fs|));
    }

    /** `lower_and_emit`. */
    method LowerAndEmit(t: Ty, addr: Var, op: StoreOp, off: nat)
      requires WellFormed(t) && |Flat(t)| == 1 && LowerFits(t) && stack != [] && realloc.Some?
      modifies this`stack, bindgen`src, bindgen`blockStorage, bindgen`blocks, bindgen`payloads, bindgen`next
      ensures var l := LowerCode(G(), t, old(stack)[|old(stack)| - 1], old(bindgen.next));
              Snap() == Did(old(Snap()), 1, Then(l, One(StoreTo(op, off), l.outs + [addr], l.next)))
      decreases t, 3, 0
    {
      hide LowerCode, Did, Flat;
      ghost var s := Snap();
      ghost var l := LowerCode(G(), t, s.stack[|s.stack| - 1], s.next);
      Lower(t);
      DidLast(s, 1, l);
      assert l.outs + [addr] == [l.outs[0], addr];
      StoreAt(addr, op, off);
      DidThen(s, 1, l, One(StoreTo(op, off), l.outs + [addr], l.next));
    }

    /** Stores the topmost operand. */
    method StoreAt(addr: Var, op: StoreOp, off: nat)
      requires stack != []
      modifies this`stack, bindgen`src, bindgen`blockStorage, bindgen`blocks, bindgen`payloads, bindgen`next
      ensures Snap() == Did(old(Snap()), 1, One(StoreTo(op, off), [old(stack)[|old(stack)| - 1], addr], old(bindgen.next)))
      ensures G() == old(G()) && |stack| == |old(stack)| - 1
    {
      ghost var s := Snap();
      stack := stack + [addr];
      ghost var top := [s.stack[|s.stack| - 1], addr];
      assert stack == s.stack[..|s.stack| - 1] + top;
      EmitPlain(StoreTo(op, off));
    }

    /** `write_list_to_memory`. */
    method WriteListToMemory(t: Ty, addr: Var, off: nat)
      requires (t.Str? || t.List? || t.Map?) && WellFormed(t) && stack != [] && realloc.Some?
      modifies this`stack, bindgen`src, bindgen`blockStorage, bindgen`blocks, bindgen`payloads, bindgen`next
      ensures var l := LowerCode(G(), t, old(stack)[|old(stack)| - 1], old(bindgen.next));
              Snap() == Did(old(Snap()), 1, WritePairCode(G(), l, addr, off))
      decreases t, 3, 0
    {
      hide LowerCode, Did, WritePairCode;
      ghost var s := Snap();
      ghost var l := LowerCode(G(), t, s.stack[|s.stack| - 1], s.next);
      Lower(t);
      StorePair(s, l, addr, off);
    }

    /** The length and the pointer on top of the stack, in memory. */
    method StorePair(ghost s: Snapshot, ghost l: Chunk, addr: Var, off: nat)
      requires s.stack != [] && |l.outs| == 2 && Snap() == Did(s, 1, l)
      modifies this`stack, bindgen`src, bindgen`blockStorage, bindgen`blocks, bindgen`payloads, bindgen`next
      ensures Snap() == Did(s, 1, WritePairCode(G(), l, addr, off))
    {
      hide Did, One;
      ghost var st := One(StoreTo(LengthStore, off + bindgen.p), [l.outs[1], addr], l.next);
      PairStored(s, l, st, One(StoreTo(PointerStore, off), [l.outs[0], addr], st.next));
      StoreAt(addr, LengthStore, off + bindgen.p);
      StoreAt(addr, PointerStore, off);
    }

    method WriteFixedList(e: Ty, len: nat, addr: Var, off: nat)
      requires WellFormed(e) && stack != [] && realloc.Some?
      modifies this`stack, bindgen`src, bindgen`blockStorage, bindgen`blocks, bindgen`payloads, bindgen`next
      ensures var w := ElemWriter(G(), e, off, old(bindgen.next));
              Snap() == Did(old(Snap()), 1, Take(FixedListLowerToMemory(e, len), [old(stack)[|old(stack)| - 1], addr], w.next, [w.block], []))
      decreases e, 7
    {
      hide ElemWriter, Did, Waiting, Emitted;
      ghost var s := Snap();
      ghost var w := ElemWriter(G(), e, off, s.next);
      WriteElemBlock(e, off);
      stack := stack + [addr];
      FixedTake(s, addr, FixedListLowerToMemory(e, len), w);
      Emit(FixedListLowerToMemory(e, len));
    }

    /** `write_fields_to_memory`. */
    method WriteFieldsToMemory(fs: seq<Ty>, addr: Var, off: nat)
      requires AllWellFormed(fs) && |fs| <= |stack| && realloc.Some?
      modifies this`stack, bindgen`src, bindgen`blockStorage, bindgen`blocks, bindgen`payloads, bindgen`next
      ensures Snap() == Did(old(Snap()), |fs|, WriteFieldsCode(G(), fs, Top(old(Snap()), |fs|), addr, off, 0, old(bindgen.next)))
      decreases fs, 1
    {
      hide WriteCode, WriteFieldsCode, FieldOffset, Size, Did, Drop;
      ghost var s0 := Snap();
      var fields := Drain(|fs|);
      ghost var s := Snap();
      ghost var all := WriteFieldsCode(G(), fs, fields, addr, off, 0, s.next);
      var i: nat, pos: nat := 0, 0;
      assert fs[0..] == fs && fields[0..] == fields;
      while i < |fs|
        invariant 0 <= i <= |fs| && G() == old(G()) && realloc.Some?
        invariant Did(Snap(), 0, WriteFieldsCode(G(), fs[i..], fields[i..], addr, off, pos, bindgen.next)) == Did(s, 0, all)
      {
        ghost var s1 := Snap();
        WriteFieldsStep(G(), fs, fields, i, addr, off, pos, s1.next);
        var o := FieldOffset(bindgen.p, fs[i], pos);
        ghost var c := WriteCode(G(), fs[i], fields[i], addr, off + o, s1.next);
        stack := stack + [fields[i]];
        WriteToMemory(fs[i], addr, off + o);
        pos := o + Size(bindgen.p, fs[i]);
        DidPushed(s1, [fields[i]], c);
        DidNext(s1, 0, c);
        DidThen(s1, 0, c, WriteFieldsCode(G(), fs[i + 1..], fields[i + 1..], addr, off, pos, c.next));
        i := i + 1;
      }
      WriteFieldsEnd(G(), fs[i..], fields[i..], addr, off, pos, bindgen.next);
      DidNothing(Snap());
      DrainDid(s0, |fs|, all);
    }

    /** Flags of more than one word: the last word first. */
    method WriteFlags(c: nat, addr: Var, off: nat)
      requires !(0 < c <= 16) && stack != [] && realloc.Some?
      modifies this`stack, bindgen`src, bindgen`blockStorage, bindgen`blocks, bindgen`payloads, bindgen`next
      ensures var l := LowerCode(G(), Flags(c), old(stack)[|old(stack)| - 1], old(bindgen.next));
              Snap() == Did(old(Snap()), 1, Then(l, WriteWordsCode(l.outs, addr, off, l.next)))
      decreases Flags(c), 3, 0
    {
      hide LowerCode, Did, Top, WriteWordsCode, FlagWords;
      ghost var s := Snap();
      FlagsFlat(c);
      ghost var l := LowerCode(G(), Flags(c), s.stack[|s.stack| - 1], s.next);
      Lower(Flags(c));
      DidNext(s, 1, l);
      WordsStart(s, l);
      WriteWords(FlagWords(c), l.outs, addr, off);
      DidThen(s, 1, l, WriteWordsCode(l.outs, addr, off, l.next));
    }

    /** Stores the topmost `k` operands, the last one first. */
    method WriteWords(k: nat, ghost xs: seq<Var>, addr: Var, off: nat)
      requires k == |xs| <= |stack| && Top(Snap(), k) == xs
      modifies this`stack, bindgen`src, bindgen`blockStorage, bindgen`blocks, bindgen`payloads, bindgen`next
      ensures Snap() == Did(old(Snap()), k, WriteWordsCode(xs, addr, off, old(bindgen.next))) && G() == old(G())
    {
      hide Did, Top, WriteWordsCode;
      ghost var s1 := Snap();
      var i := k;
      assert xs[..i] == xs;
      while i > 0
        invariant 0 <= i <= k && i <= |stack| && G() == old(G())
        invariant Top(Snap(), i) == xs[..i]
        invariant Did(Snap(), i, WriteWordsCode(xs[..i], addr, off, bindgen.next)) == Did(s1, k, WriteWordsCode(xs, addr, off, s1.next))
      {
        ghost var s2 := Snap();
        i := i - 1;
        ghost var st := One(StoreTo(I32Store, off + 4 * i), [xs[i], addr], s2.next);
        WriteWordsStep(xs[..i + 1], addr, off, s2.next);
        WordStored(s2, xs[..i + 1], st, WriteWordsCode(xs[..i], addr, off, st.next));
        StoreAt(addr, I32Store, off + 4 * i);
        assert xs[..i + 1][..i] == xs[..i];
      }
      WriteWordsEnd(xs[..i], addr, off, bindgen.next);
      DidNothing(Snap());
    }

    method WriteVariant(vk: VariantKind, arms: seq<Option<Ty>>, addr: Var, off: nat)
      requires ArmsWellFormed(arms) && stack != [] && realloc.Some?
      modifies this`stack, bindgen`src, bindgen`blockStorage, bindgen`blocks, bindgen`payloads, bindgen`next
      ensures Snap() == Did(old(Snap()), 1, WriteVariantCode(G(), vk, arms, old(stack)[|old(stack)| - 1], addr, off, old(bindgen.next)))
      decreases arms, 3
    {
      hide WriteArmsCode, Did, Waiting, Emitted, TagSize, PayloadOffset;
      ghost var s := Snap();
      TopIs(s);
      var tag, payloadOffset := TagSize(|arms|), off + PayloadOffset(bindgen.p, arms);
      ghost var a := WriteArmsCode(G(), arms, 0, addr, off, payloadOffset, tag, s.next);
      WriteVariantArms(arms, addr, off, payloadOffset, tag);
      EmitTaking(s, a.blocks, a.payloads, a.next, VariantLower(vk, arms, []));
    }

    /** `write_variant_arms_to_memory`. */
    method WriteVariantArms(arms: seq<Option<Ty>>, addr: Var, off: nat, payloadOffset: nat, tag: nat)
      requires ArmsWellFormed(arms) && realloc.Some?
      modifies this`stack, bindgen`src, bindgen`blockStorage, bindgen`blocks, bindgen`payloads, bindgen`next
      ensures var a := WriteArmsCode(G(), arms, 0, addr, off, payloadOffset, tag, old(bindgen.next));
              Snap() == Waiting(old(Snap()), a.blocks, a.payloads, a.next)
      decreases arms, 2
    {
      hide WriteArmCode, Waiting;
      ghost var s := Snap();
      ghost var all := WriteArmsCode(G(), arms, 0, addr, off, payloadOffset, tag, s.next);
      var i := 0;
      assert arms[0..] == arms;
      while i < |arms|
        invariant 0 <= i <= |arms| && G() == old(G()) && realloc.Some? && ArmsWellFormed(arms[i..])
        invariant var rest := WriteArmsCode(G(), arms[i..], i, addr, off, payloadOffset, tag, bindgen.next);
                  Waiting(Snap(), rest.blocks, rest.payloads, rest.next) == Waiting(s, all.blocks, all.payloads, all.next)
      {
        ghost var s1 := Snap();
        assert arms[i..][0] == arms[i] && arms[i..][1..] == arms[i + 1..] && arms[i] in arms;
        ghost var w := WriteArmCode(G(), arms[i], i, addr, off, payloadOffset, tag, s1.next);
        ghost var rest := WriteArmsCode(G(), arms[i + 1..], i + 1, addr, off, payloadOffset, tag, w.next);
        WriteVariantArm(arms[i], i, addr, off, payloadOffset, tag);
        WaitingNext(s1, [w.block], [s1.next], w.next);
        WaitingMore(s1, [w.block], [s1.next], w.next, rest.blocks, rest.payloads, rest.next);
        i := i + 1;
      }
      assert arms[i..] == [];
      WaitingNone(Snap());
    }

    /** The number of the case, as the discriminant. */
    method WriteTag(i: nat, addr: Var, off: nat, tag: nat)
      modifies this`stack, bindgen`src, bindgen`blockStorage, bindgen`blocks, bindgen`payloads, bindgen`next
      ensures var c := One(I32Const(i), [], old(bindgen.next));
              Snap() == Did(old(Snap()), 0, Then(c, One(StoreTo(StoreTag(tag), off), c.outs + [addr], c.next)))
    {
      hide Did, Top, StoreTag;
      ghost var s := Snap();
      TopNone(s);
      EmitPlain(I32Const(i));
      ghost var c := One(I32Const(i), [], s.next);
      DidLast(s, 0, c);
      assert c.outs + [addr] == [c.outs[0], addr];
      StoreAt(addr, StoreTag(tag), off);
      DidThen(s, 0, c, One(StoreTo(StoreTag(tag), off), c.outs + [addr], c.next));
    }

    method WritePayload(t: Ty, x: Var, addr: Var, off: nat)
      requires WellFormed(t) && realloc.Some?
      modifies this`stack, bindgen`src, bindgen`blockStorage, bindgen`blocks, bindgen`payloads, bindgen`next
      ensures Snap() == Did(old(Snap()), 0, WriteCode(G(), t, x, addr, off, old(bindgen.next)))
      decreases t, 5
    {
      hide WriteCode, Did;
      ghost var s := Snap();
      stack := stack + [x];
      WriteToMemory(t, addr, off);
      DidPushed(s, [x], WriteCode(G(), t, x, addr, off, s.next));
    }

    method WriteVariantArm(arm: Option<Ty>, i: nat, addr: Var, off: nat, payloadOffset: nat, tag: nat)
      requires (arm.Some? ==> WellFormed(arm.value)) && realloc.Some?
      modifies this`stack, bindgen`src, bindgen`blockStorage, bindgen`blocks, bindgen`payloads, bindgen`next
      ensures var w := WriteArmCode(G(), arm, i, addr, off, payloadOffset, tag, old(bindgen.next));
              Snap() == Waiting(old(Snap()), [w.block], [old(bindgen.next)], w.next)
      decreases arm, 1
    {
      hide WriteCode, Did, Waiting, Closed, Named, Opened, StoreTag, One;
      ghost var s := Snap();
      ghost var n0 := Named(s);
      var payloadName := OpenCaseBlock();
      WriteTag(i, addr, off, tag);
      ghost var c := One(I32Const(i), [], s.next + 1);
      ghost var done := Then(c, One(StoreTo(StoreTag(tag), off), c.outs + [addr], c.next));
      DidNext(n0, 0, done);
      if arm.Some? {
        ghost var body := WriteCode(G(), arm.value, payloadName, addr, payloadOffset, done.next);
        WritePayload(arm.value, payloadName, addr, payloadOffset);
        DidThen(n0, 0, done, body);
        done := Then(done, body);
      }
      DidNamed(s, done);
      ArmDone(s, done);
      FinishBlock(0);
    }

    // ----- lift -----

    method Lift(t: Ty)
      requires WellFormed(t) && LiftFits(t) && |Flat(t)| <= |stack|
      modifies this`stack, bindgen`src, bindgen`blockStorage, bindgen`blocks, bindgen`payloads, bindgen`next
      ensures Snap() == Did(old(Snap()), |Flat(t)|, LiftCode(G(), t, Top(old(Snap()), |Flat(t)|), old(bindgen.next)))
      decreases t, 2
    {
      hide LiftListCode, LiftMapCode, LiftFieldsCode, LiftRepeatCode, LiftVariantCode, FlatFields, FlatRepeat, FlatArms, Did, Top, One;
      match t
      case Scalar(p) => LiftPlain(ScalarLift(p), 1);
      case Str => LiftPlain(StringLift, 2);
      case Alias(u) => Lift(u);
      case List(e) => LiftList(e);
      case Map(e) => LiftMap(e);
      case FixedList(e, len) => LiftFixedList(e, len);
      case Record(rk, fs) => LiftRecord(rk, fs);
      case Flags(c) => LiftPlain(FlagsLift(c), FlagWords(c));
      case Enum(c) => LiftPlain(EnumLift(c), 1);
      case Variant(vk, arms) => LiftVariant(vk, arms);
    }

    method LiftList(e: Ty)
      requires WellFormed(e) && 2 <= |stack|
      modifies this`stack, bindgen`src, bindgen`blockStorage, bindgen`blocks, bindgen`payloads, bindgen`next
      ensures Snap() == Did(old(Snap()), 2, LiftListCode(G(), e, Top(old(Snap()), 2), old(bindgen.next)))
      decreases e, 7
    {
      hide ElemReader, Did, Waiting, Emitted, Top;
      ghost var s := Snap();
      if bindgen.canonical(e) {
        EmitPlain(ListCanonLift(e));
      } else {
        ghost var w := ElemReader(G(), e, 0, s.next);
        ReadElemBlock(e, 0);
        EmitTaking(s, [w.block], [], w.next, ListLift(e));
      }
    }

    method LiftMap(e: Ty)
      requires WellFormed(e) && e.Record? && |e.fields| == 2 && 2 <= |stack|
      modifies this`stack, bindgen`src, bindgen`blockStorage, bindgen`blocks, bindgen`payloads, bindgen`next
      ensures Snap() == Did(old(Snap()), 2, LiftMapCode(G(), e, Top(old(Snap()), 2), old(bindgen.next)))
      decreases e, 7
    {
      hide EntryReader, Did, Waiting, Emitted, Top;
      ghost var s := Snap();
      ghost var w := EntryReader(G(), e, s.next);
      ReadEntryBlock(e);
      EmitTaking(s, [w.block], [], w.next, MapLift(e));
    }

    /** The block that loads one list element. */
    method ReadElemBlock(e: Ty, off: nat)
      requires WellFormed(e)
      modifies this`stack, bindgen`src, bindgen`blockStorage, bindgen`blocks, bindgen`payloads, bindgen`next
      ensures var w := ElemReader(G(), e, off, old(bindgen.next)); Snap() == Waiting(old(Snap()), [w.block], [], w.next)
      decreases e, 6
    {
      hide ReadCode, Did, Opened, Waiting, Closed, Top, Drop;
      ghost var s := Snap();
      ghost var a := One(IterBasePointer, [], s.next);
      var addr := OpenLoopBlock();
      ReadFromMemory(e, addr, off);
      ghost var c := ReadCode(G(), e, a.outs[0], off, a.next);
      CloseLoopBlock(s, a, c, 1);
    }

    method ReadEntryBlock(e: Ty)
      requires WellFormed(e) && e.Record? && |e.fields| == 2
      modifies this`stack, bindgen`src, bindgen`blockStorage, bindgen`blocks, bindgen`payloads, bindgen`next
      ensures var w := EntryReader(G(), e, old(bindgen.next)); Snap() == Waiting(old(Snap()), [w.block], [], w.next)
      decreases e, 6
    {
      hide ReadCode, Did, Opened, Waiting, Drop, ValueOffset;
      ghost var s := Snap();
      ghost var a := One(IterBasePointer, [], s.next);
      assert e.fields[0] in e.fields && e.fields[1] in e.fields;
      var addr := OpenLoopBlock();
      ghost var kc := ReadCode(G(), e.fields[0], addr, 0, a.next);
      ghost var vc := ReadCode(G(), e.fields[1], addr, ValueOffset(bindgen.p, e), kc.next);
      ReadEntry(e, addr);
      CloseLoopBlock(s, a, Both(kc, vc), 2);
    }

    method ReadEntry(e: Ty, addr: Var)
      requires e.Record? && |e.fields| == 2 && WellFormed(e.fields[0]) && WellFormed(e.fields[1])
      modifies this`stack, bindgen`src, bindgen`blockStorage, bindgen`blocks, bindgen`payloads, bindgen`next
      ensures var kc := ReadCode(G(), e.fields[0], addr, 0, old(bindgen.next));
              var vc := ReadCode(G(), e.fields[1], addr, ValueOffset(bindgen.p, e), kc.next);
              Snap() == Did(old(Snap()), 0, Both(kc, vc))
      decreases e, 5
    {
      hide ReadCode, Did, ValueOffset;
      ghost var s := Snap();
      var key, val := e.fields[0], e.fields[1];
      var valueOffset := ValueOffset(bindgen.p, e);
      ReadFromMemory(key, addr, 0);
      ghost var kc := ReadCode(G(), key, addr, 0, s.next);
      DidNext(s, 0, kc);
      ReadFromMemory(val, addr, valueOffset);
      DidBoth(s, 0, kc, ReadCode(G(), val, addr, valueOffset, kc.next));
    }

    method LiftRecord(rk: RecordKind, fs: seq<Ty>)
      requires AllWellFormed(fs) && LiftFits(Record(rk, fs)) && |FlatFields(fs)| <= |stack|
      modifies this`stack, bindgen`src, bindgen`blockStorage, bindgen`blocks, bindgen`payloads, bindgen`next
      ensures var c := LiftFieldsCode(G(), fs, Top(old(Snap()), |FlatFields(fs)|), old(bindgen.next));
              Snap() == Did(old(Snap()), |FlatFields(fs)|, Then(c, One(RecordLift(rk, |fs|), c.outs, c.next)))
      decreases fs, 2
    {
      hide LiftFieldsCode, FlatFields, Did, Top;
      ghost var s := Snap();
      TopLength(s, |FlatFields(fs)|);
      ghost var c := LiftFieldsCode(G(), fs, Top(s, |FlatFields(fs)|), s.next);
      LiftFields(rk, fs);
      EmitOn(s, |FlatFields(fs)|, c, RecordLift(rk, |fs|));
    }

    /** `flat_for_each_record_type` with `lift`. */
    method LiftFields(rk: RecordKind, fs: seq<Ty>)
      requires AllWellFormed(fs) && LiftFits(Record(rk, fs)) && |FlatFields(fs)| <= |stack|
      modifies this`stack, bindgen`src, bindgen`blockStorage, bindgen`blocks, bindgen`payloads, bindgen`next
      ensures Snap() == Did(old(Snap()), |FlatFields(fs)|, LiftFieldsCode(G(), fs, Top(old(Snap()), |FlatFields(fs)|), old(bindgen.next)))
      decreases fs, 1
    {
      hide LiftCode, Flat, Did, Drop, Top;
      ghost var s0 := Snap();
      RecordFlat(rk, fs);
      var args := Drain(|FlatTypes(Record(rk, fs), MAX_FLAT_PARAMS).value|);
      ghost var s := Snap();
      ghost var all := LiftFieldsCode(G(), fs, args, s.next);
      var i := 0;
      assert fs[0..] == fs;
      while i < |fs|
        invariant 0 <= i <= |fs| && G() == old(G()) && |args| == |FlatFields(fs[i..])|
        invariant Did(Snap(), 0, LiftFieldsCode(G(), fs[i..], args, bindgen.next)) == Did(s, 0, all)
      {
        ghost var s1 := Snap();
        assert fs[i..][0] == fs[i] && fs[i..][1..] == fs[i + 1..] && fs[i] in fs;
        var k := |FlatTypes(fs[i], MAX_FLAT_PARAMS).value|;
        ghost var c := LiftCode(G(), fs[i], args[..k], s1.next);
        stack := stack + args[..k];
        PushedTop(s1, args[..k]);
        Lift(fs[i]);
        DidPushed(s1, args[..k], c);
        DidNext(s1, 0, c);
        args := args[k..];
        DidBoth(s1, 0, c, LiftFieldsCode(G(), fs[i + 1..], args, c.next));
        i := i + 1;
      }
      assert fs[i..] == [];
      DidNothing(Snap());
      DrainDid(s0, |FlatFields(fs)|, all);
    }

    method LiftFixedList(e: Ty, len: nat)
      requires WellFormed(e) && LiftFits(FixedList(e, len)) && |FlatRepeat(e, len)| <= |stack|
      modifies this`stack, bindgen`src, bindgen`blockStorage, bindgen`blocks, bindgen`payloads, bindgen`next
      ensures var c := LiftRepeatCode(G(), e, len, Top(old(Snap()), |FlatRepeat(e, len)|), old(bindgen.next));
              Snap() == Did(old(Snap()), |FlatRepeat(e, len)|, Then(c, One(FixedListLift(e, len), c.outs, c.next)))
      decreases e, 7
    {
      hide LiftRepeatCode, FlatRepeat, Did, Top, Flat;
      ghost var s := Snap();
      TopLength(s, |FlatRepeat(e, len)|);
      ghost var c := LiftRepeatCode(G(), e, len, Top(s, |FlatRepeat(e, len)|), s.next);
      LiftRepeat(e, len);
      EmitOn(s, |FlatRepeat(e, len)|, c, FixedListLift(e, len));
    }

    method LiftRepeat(e: Ty, len: nat)
      requires WellFormed(e) && LiftFits(e) && |Flat(e)| <= MAX_FLAT_PARAMS && |FlatRepeat(e, len)| <= |stack|
      modifies this`stack, bindgen`src, bindgen`blockStorage, bindgen`blocks, bindgen`payloads, bindgen`next
      ensures Snap() == Did(old(Snap()), |FlatRepeat(e, len)|, LiftRepeatCode(G(), e, len, Top(old(Snap()), |FlatRepeat(e, len)|), old(bindgen.next)))
      decreases e, 6
    {
      hide LiftCode, Flat, Did, Drop, Top, LiftFits;
      ghost var s0 := Snap();
      var k := |FlatTypes(e, MAX_FLAT_PARAMS).value|;
      RepeatLength(e, len);
      var args := Drain(Times(len, k));
      ghost var s := Snap();
      ghost var all := LiftRepeatCode(G(), e, len, args, s.next);
      var i := len;
      while i > 0
        invariant 0 <= i <= len && G() == old(G()) && |args| == |FlatRepeat(e, i)|
        invariant Did(Snap(), 0, LiftRepeatCode(G(), e, i, args, bindgen.next)) == Did(s, 0, all)
      {
        ghost var s1 := Snap();
        ghost var c := LiftCode(G(), e, args[..k], s1.next);
        stack := stack + args[..k];
        PushedTop(s1, args[..k]);
        Lift(e);
        DidPushed(s1, args[..k], c);
        DidNext(s1, 0, c);
        args := args[k..];
        i := i - 1;
        DidBoth(s1, 0, c, LiftRepeatCode(G(), e, i, args, c.next));
      }
      DidNothing(Snap());
      DrainDid(s0, |FlatRepeat(e, len)|, all);
    }

    method LiftVariant(vk: VariantKind, arms: seq<Option<Ty>>)
      requires ArmsWellFormed(arms) && LiftFits(Variant(vk, arms)) && 1 + |FlatArms(arms)| <= |stack|
      modifies this`stack, bindgen`src, bindgen`blockStorage, bindgen`blocks, bindgen`payloads, bindgen`next
      ensures Snap() == Did(old(Snap()), 1 + |FlatArms(arms)|, LiftVariantCode(G(), vk, arms, Top(old(Snap()), 1 + |FlatArms(arms)|), old(bindgen.next)))
      decreases arms, 3
    {
      hide LiftArmsCode, Did, Waiting, Emitted, FlatArms, Drop, Top, Flat, LiftFits;
      VariantWords(vk, arms);
      ghost var s := Snap();
      ghost var xs := Top(s, 1 + |FlatArms(arms)|);
      TopLength(s, 1 + |FlatArms(arms)|);
      AllArmsBelow(arms);
      ghost var a := LiftArmsCode(G(), arms, FlatArms(arms), xs[1..], s.next);
      DrainTail(s, |FlatArms(arms)|);
      var blockInputs := Drain(|FlatTypes(Variant(vk, arms), MAX_FLAT_PARAMS).value| - 1);
      ghost var s1 := Snap();
      LiftVariantArms(vk, arms, blockInputs);
      EmitTaking(s1, a.blocks, [], a.next, VariantLift(vk, arms));
      DrainTake(s, |FlatArms(arms)|, Take(VariantLift(vk, arms), [xs[0]], a.next, a.blocks, []));
    }

    /** `flat_for_each_variant_arm` with `lift`. */
    method LiftVariantArms(vk: VariantKind, arms: seq<Option<Ty>>, blockInputs: seq<Var>)
      requires ArmsWellFormed(arms) && ArmsBelow(arms, FlatArms(arms)) && LiftFits(Variant(vk, arms)) && |blockInputs| == |FlatArms(arms)|
      modifies this`stack, bindgen`src, bindgen`blockStorage, bindgen`blocks, bindgen`payloads, bindgen`next
      ensures var a := LiftArmsCode(G(), arms, FlatArms(arms), blockInputs, old(bindgen.next));
              Snap() == Waiting(old(Snap()), a.blocks, [], a.next)
      decreases arms, 2
    {
      hide LiftArmCode, Waiting, FlatArms, FlatArm, Below;
      var params := FlatTypes(Variant(vk, arms), MAX_FLAT_PARAMS).value;
      ghost var s := Snap();
      var slots := params[1..];
      assert slots == FlatArms(arms);
      ghost var all := LiftArmsCode(G(), arms, slots, blockInputs, s.next);
      var i := 0;
      assert arms[0..] == arms;
      while i < |arms|
        invariant 0 <= i <= |arms| && G() == old(G())
        invariant ArmsWellFormed(arms[i..]) && ArmsBelow(arms[i..], slots)
        invariant var rest := LiftArmsCode(G(), arms[i..], slots, blockInputs, bindgen.next);
                  Waiting(Snap(), rest.blocks, [], rest.next) == Waiting(s, all.blocks, [], all.next)
      {
        ghost var s1 := Snap();
        assert arms[i..][0] == arms[i] && arms[i..][1..] == arms[i + 1..] && arms[i] in arms;
        ghost var w := LiftArmCode(G(), arms[i], slots, blockInputs, s1.next);
        ghost var rest := LiftArmsCode(G(), arms[i + 1..], slots, blockInputs, w.next);
        LiftVariantArm(arms[i], slots, blockInputs);
        WaitingNext(s1, [w.block], [], w.next);
        WaitingBlocks(s1, [w.block], w.next, rest.blocks, rest.next);
        i := i + 1;
      }
      assert arms[i..] == [];
      WaitingNone(Snap());
    }

    method LiftVariantArm(arm: Option<Ty>, slots: seq<WasmType>, blockInputs: seq<Var>)
      requires (arm.Some? ==> WellFormed(arm.value)) && ArmLiftFits(arm) && Below(FlatArm(arm), slots) && |blockInputs| == |slots|
      modifies this`stack, bindgen`src, bindgen`blockStorage, bindgen`blocks, bindgen`payloads, bindgen`next
      ensures var w := LiftArmCode(G(), arm, slots, blockInputs, old(bindgen.next));
              Snap() == Waiting(old(Snap()), [w.block], [], w.next)
      decreases arm, 1
    {
      hide LiftCode, Did, Waiting, Closed, Leq, CastCode, Drop, Top, Opened, Flat;
      ghost var s := Snap();
      OpenedIs(s);
      PushBlock();
      ghost var done := Chunk([], [], s.next);
      DidNothing(Opened(s));
      if arm.Some? {
        var temp := FlatTypes(arm.value, MAX_FLAT_PARAMS).value;
        var casts := CanonicalAbi.CastsDown(temp, slots);
        stack := stack + blockInputs[..|temp|];
        ghost var b := CastCode(casts, blockInputs[..|temp|], s.next);
        PushedTop(Opened(s), blockInputs[..|temp|]);
        EmitCasts(casts);
        DidPushed(Opened(s), blockInputs[..|temp|], b);
        DidTop(Opened(s), b);
        Lift(arm.value);
        ghost var c := LiftCode(G(), arm.value, b.outs, b.next);
        DidThen(Opened(s), 0, b, c);
        done := Then(b, c);
      }
      DidOpen(s, done);
      BlockDone(s, done);
      FinishBlock(if arm.Some? then 1 else 0);
    }

    // ----- read_from_memory -----

    method ReadFromMemory(t: Ty, addr: Var, off: nat)
      requires WellFormed(t)
      modifies this`stack, bindgen`src, bindgen`blockStorage, bindgen`blocks, bindgen`payloads, bindgen`next
      ensures Snap() == Did(old(Snap()), 0, ReadCode(G(), t, addr, off, old(bindgen.next)))
      decreases t, 3
    {
      hide LiftCode, ReadPairCode, ReadVariantCode, ReadFieldsCode, ReadWordsCode, ElemReader, Did, Top, TagSize, FlagBytes, FlatFields, FlatArms, FlatRepeat;
      match t
      case Scalar(p) => EmitAndLift(t, addr, LoadOpOf(p), off);
      case Alias(u) => ReadFromMemory(u, addr, off);
      case Str | List(_) | Map(_) => ReadListFromMemory(t, addr, off);
      case FixedList(e, len) => ReadFixedList(e, len, addr, off);
      case Record(rk, fs) => ReadRecord(rk, fs, addr, off);
      case Flags(c) =>
        if 0 < c <= 16 { EmitAndLift(t, addr, LoadTag(FlagBytes(c)), off); } else { ReadFlags(c, addr, off); }
      case Enum(c) => EmitAndLift(t, addr, LoadTag(TagSize(c)), off);
      case Variant(vk, arms) => ReadVariant(vk, arms, addr, off);
    }

    /** Loads one value at an address. */
    method LoadAt(addr: Var, op: LoadOp, off: nat)
      modifies this`stack, bindgen`src, bindgen`blockStorage, bindgen`blocks, bindgen`payloads, bindgen`next
      ensures Snap() == Did(old(Snap()), 0, One(LoadFrom(op, off), [addr], old(bindgen.next)))
    {
      ghost var s := Snap();
      stack := stack + [addr];
      PushedTop(s, [addr]);
      EmitPlain(LoadFrom(op, off));
      DidPushed(s, [addr], One(LoadFrom(op, off), [addr], s.next));
    }

    /** `emit_and_lift`. */
    method EmitAndLift(t: Ty, addr: Var, op: LoadOp, off: nat)
      requires WellFormed(t) && |Flat(t)| == 1 && LiftFits(t)
      modifies this`stack, bindgen`src, bindgen`blockStorage, bindgen`blocks, bindgen`payloads, bindgen`next
      ensures var c := One(LoadFrom(op, off), [addr], old(bindgen.next));
              Snap() == Did(old(Snap()), 0, Then(c, LiftCode(G(), t, c.outs, c.next)))
      decreases t, 3, 0
    {
      hide LiftCode, Did, Top, Flat;
      ghost var s := Snap();
      LoadAt(addr, op, off);
      ghost var c := One(LoadFrom(op, off), [addr], s.next);
      DidTop(s, c);
      Lift(t);
      DidThen(s, 0, c, LiftCode(G(), t, c.outs, c.next));
    }

    /** `read_list_from_memory`. */
    method ReadListFromMemory(t: Ty, addr: Var, off: nat)
      requires (t.Str? || t.List? || t.Map?) && WellFormed(t)
      modifies this`stack, bindgen`src, bindgen`blockStorage, bindgen`blocks, bindgen`payloads, bindgen`next
      ensures var b := ReadPairCode(G(), addr, off, old(bindgen.next));
              Snap() == Did(old(Snap()), 0, Then(b, LiftCode(G(), t, b.outs, b.next)))
      decreases t, 3, 0
    {
      hide LiftCode, Did, Top, ReadPairCode;
      ghost var s := Snap();
      ReadPair(addr, off);
      ghost var b := ReadPairCode(G(), addr, off, s.next);
      DidTop(s, b);
      Lift(t);
      DidThen(s, 0, b, LiftCode(G(), t, b.outs, b.next));
    }

    /** Pointer, then length. */
    method ReadPair(addr: Var, off: nat)
      modifies this`stack, bindgen`src, bindgen`blockStorage, bindgen`blocks, bindgen`payloads, bindgen`next
      ensures Snap() == Did(old(Snap()), 0, ReadPairCode(G(), addr, off, old(bindgen.next)))
    {
      hide Did;
      ghost var s := Snap();
      LoadAt(addr, PointerLoad, off);
      ghost var ptr := One(LoadFrom(PointerLoad, off), [addr], s.next);
      DidNext(s, 0, ptr);
      LoadAt(addr, LengthLoad, off + bindgen.p);
      DidBoth(s, 0, ptr, One(LoadFrom(LengthLoad, off + bindgen.p), [addr], ptr.next));
    }

    method ReadFixedList(e: Ty, len: nat, addr: Var, off: nat)
      requires WellFormed(e)
      modifies this`stack, bindgen`src, bindgen`blockStorage, bindgen`blocks, bindgen`payloads, bindgen`next
      ensures var w := ElemReader(G(), e, off, old(bindgen.next));
              Snap() == Did(old(Snap()), 0, Take(FixedListLiftFromMemory(e, len), [addr], w.next, [w.block], []))
      decreases e, 7
    {
      hide ElemReader, Did, Waiting, Emitted, Top;
      ghost var s := Snap();
      ghost var w := ElemReader(G(), e, off, s.next);
      ReadElemBlock(e, off);
      stack := stack + [addr];
      PushedTake(s, addr, FixedListLiftFromMemory(e, len), w);
      Emit(FixedListLiftFromMemory(e, len));
    }

    method ReadRecord(rk: RecordKind, fs: seq<Ty>, addr: Var, off: nat)
      requires AllWellFormed(fs)
      modifies this`stack, bindgen`src, bindgen`blockStorage, bindgen`blocks, bindgen`payloads, bindgen`next
      ensures var c := ReadFieldsCode(G(), fs, addr, off, 0, old(bindgen.next));
              Snap() == Did(old(Snap()), 0, Then(c, One(RecordLift(rk, |fs|), c.outs, c.next)))
      decreases fs, 2
    {
      hide ReadFieldsCode, Did, Top;
      ghost var s := Snap();
      ghost var c := ReadFieldsCode(G(), fs, addr, off, 0, s.next);
      ReadFields(fs, addr, off);
      EmitOn(s, 0, c, RecordLift(rk, |fs|));
    }

    /** `read_fields_from_memory`. */
    method ReadFields(fs: seq<Ty>, addr: Var, off: nat)
      requires AllWellFormed(fs)
      modifies this`stack, bindgen`src, bindgen`blockStorage, bindgen`blocks, bindgen`payloads, bindgen`next
      ensures Snap() == Did(old(Snap()), 0, ReadFieldsCode(G(), fs, addr, off, 0, old(bindgen.next)))
      decreases fs, 1
    {
      hide ReadCode, ReadFieldsCode, FieldOffset, Size, Did;
      ghost var s := Snap();
      ghost var all := ReadFieldsCode(G(), fs, addr, off, 0, s.next);
      var i: nat, pos: nat := 0, 0;
      assert fs[0..] == fs;
      while i < |fs|
        invariant 0 <= i <= |fs| && G() == old(G())
        invariant Did(Snap(), 0, ReadFieldsCode(G(), fs[i..], addr, off, pos, bindgen.next)) == Did(s, 0, all)
      {
        ghost var s1 := Snap();
        ReadFieldsStep(G(), fs, i, addr, off, pos, s1.next);
        var o := FieldOffset(bindgen.p, fs[i], pos);
        ghost var c := ReadCode(G(), fs[i], addr, off + o, s1.next);
        ReadFromMemory(fs[i], addr, off + o);
        pos := o + Size(bindgen.p, fs[i]);
        DidNext(s1, 0, c);
        DidBoth(s1, 0, c, ReadFieldsCode(G(), fs[i + 1..], addr, off, pos, c.next));
        i := i + 1;
      }
      ReadFieldsEnd(G(), fs[i..], addr, off, pos, bindgen.next);
      DidNothing(Snap());
    }

    method ReadFlags(c: nat, addr: Var, off: nat)
      requires !(0 < c <= 16)
      modifies this`stack, bindgen`src, bindgen`blockStorage, bindgen`blocks, bindgen`payloads, bindgen`next
      ensures var l := ReadWordsCode(FlagWords(c), addr, off, old(bindgen.next));
              Snap() == Did(old(Snap()), 0, Then(l, LiftCode(G(), Flags(c), l.outs, l.next)))
      decreases Flags(c), 3, 0
    {
      hide LiftCode, Did, Top, FlagWords;
      ghost var s := Snap();
      ghost var all := ReadWordsCode(FlagWords(c), addr, off, s.next);
      ReadWords(FlagWords(c), addr, off);
      DidTop(s, all);
      FlagsFlat(c);
      Lift(Flags(c));
      DidThen(s, 0, all, LiftCode(G(), Flags(c), all.outs, all.next));
    }

    method ReadWords(k: nat, addr: Var, off: nat)
      modifies this`stack, bindgen`src, bindgen`blockStorage, bindgen`blocks, bindgen`payloads, bindgen`next
      ensures Snap() == Did(old(Snap()), 0, ReadWordsCode(k, addr, off, old(bindgen.next)))
    {
      hide Did, Top, ReadWordsCode;
      ghost var s := Snap();
      ghost var all := ReadWordsCode(k, addr, off, s.next);
      var i: nat, at: nat := 0, off;
      while i < k
        invariant 0 <= i <= k && at == off + 4 * i && G() == old(G())
        invariant Did(Snap(), 0, ReadWordsCode(k - i, addr, at, bindgen.next)) == Did(s, 0, all)
      {
        ghost var s1 := Snap();
        ghost var d := One(LoadFrom(I32Load, at), [addr], s1.next);
        ReadWordsStep(k - i, addr, at, s1.next);
        LoadAt(addr, I32Load, at);
        DidNext(s1, 0, d);
        i, at := i + 1, at + 4;
        DidBoth(s1, 0, d, ReadWordsCode(k - i, addr, at, d.next));
      }
      ReadWordsEnd(addr, at, bindgen.next);
      DidNothing(Snap());
    }

    method ReadVariant(vk: VariantKind, arms: seq<Option<Ty>>, addr: Var, off: nat)
      requires ArmsWellFormed(arms)
      modifies this`stack, bindgen`src, bindgen`blockStorage, bindgen`blocks, bindgen`payloads, bindgen`next
      ensures Snap() == Did(old(Snap()), 0, ReadVariantCode(G(), vk, arms, addr, off, old(bindgen.next)))
      decreases arms, 3
    {
      hide ReadArmsCode, Did, Waiting, Emitted, TagSize, PayloadOffset, Top, LoadTag, Take;
      ghost var s := Snap();
      var tag := LoadTag(TagSize(|arms|));
      ghost var l := One(LoadFrom(tag, off), [addr], s.next);
      LoadAt(addr, tag, off);
      DidTop(s, l);
      ghost var s1 := Snap();
      var payloadOffset := off + PayloadOffset(bindgen.p, arms);
      ghost var r := ReadArmsCode(G(), arms, addr, payloadOffset, l.next);
      ReadVariantArms(arms, addr, payloadOffset);
      EmitTaking(s1, r.blocks, [], r.next, VariantLift(vk, arms));
      DidThen(s, 0, l, Take(VariantLift(vk, arms), l.outs, r.next, r.blocks, []));
    }

    /** `read_variant_arms_from_memory`, after the discriminant. */
    method ReadVariantArms(arms: seq<Option<Ty>>, addr: Var, payloadOffset: nat)
      requires ArmsWellFormed(arms)
      modifies this`stack, bindgen`src, bindgen`blockStorage, bindgen`blocks, bindgen`payloads, bindgen`next
      ensures var a := ReadArmsCode(G(), arms, addr, payloadOffset, old(bindgen.next));
              Snap() == Waiting(old(Snap()), a.blocks, [], a.next)
      decreases arms, 2
    {
      hide ReadArmCode, Waiting;
      ghost var s := Snap();
      ghost var all := ReadArmsCode(G(), arms, addr, payloadOffset, s.next);
      var i := 0;
      assert arms[0..] == arms;
      while i < |arms|
        invariant 0 <= i <= |arms| && G() == old(G()) && ArmsWellFormed(arms[i..])
        invariant var rest := ReadArmsCode(G(), arms[i..], addr, payloadOffset, bindgen.next);
                  Waiting(Snap(), rest.blocks, [], rest.next) == Waiting(s, all.blocks, [], all.next)
      {
        ghost var s1 := Snap();
        assert arms[i..][0] == arms[i] && arms[i..][1..] == arms[i + 1..] && arms[i] in arms;
        ghost var w := ReadArmCode(G(), arms[i], addr, payloadOffset, s1.next);
        ghost var rest := ReadArmsCode(G(), arms[i + 1..], addr, payloadOffset, w.next);
        ReadVariantArm(arms[i], addr, payloadOffset);
        WaitingNext(s1, [w.block], [], w.next);
        WaitingBlocks(s1, [w.block], w.next, rest.blocks, rest.next);
        i := i + 1;
      }
      assert arms[i..] == [];
      WaitingNone(Snap());
    }

    method ReadVariantArm(arm: Option<Ty>, addr: Var, payloadOffset: nat)
      requires arm.Some? ==> WellFormed(arm.value)
      modifies this`stack, bindgen`src, bindgen`blockStorage, bindgen`blocks, bindgen`payloads, bindgen`next
      ensures var w := ReadArmCode(G(), arm, addr, payloadOffset, old(bindgen.next));
              Snap() == Waiting(old(Snap()), [w.block], [], w.next)
      decreases arm, 1
    {
      hide ReadCode, Did, Waiting, Closed, Opened;
      ghost var s := Snap();
      OpenedIs(s);
      PushBlock();
      ghost var done := Chunk([], [], s.next);
      DidNothing(Opened(s));
      if arm.Some? {
        ReadFromMemory(arm.value, addr, payloadOffset);
        done := ReadCode(G(), arm.value, addr, payloadOffset, s.next);
      }
      DidOpen(s, done);
      BlockDone(s, done);
      FinishBlock(if arm.Some? then 1 else 0);
    }

    // ----- deallocate -----

    /** Wherever the generator does not panic, the stack is as deep as `Depth` says, the
        operands that are not needed (`keep` of them) stay, and no block or payload name is left
        or missing.  For clean types, the freeing code is appended. */
    method Deallocate(t: Ty, what: Deallocate, ghost keep: nat)
      requires WellFormed(t) && keep <= |stack| && Depth(t, |stack| - keep).Some?
      modifies this`stack, bindgen`src, bindgen`blockStorage, bindgen`blocks, bindgen`payloads, bindgen`next
      ensures Kept(old(Snap()), Snap(), keep, 0, keep + Depth(t, |old(stack)| - keep).value)
      ensures Clean(t) && |Flat(t)| <= |old(stack)| ==>
                Bare(Snap()) == Did(Bare(old(Snap())), 0, DeallocCode(G(), what, t, Top(old(Snap()), |Flat(t)|), old(bindgen.next)))
      decreases t, 2
    {
      hide DeallocListCode, DeallocMapCode, DeallocFieldsCode, DeallocVariantCode, DropCode, FlatFields, FlatArms, Did, Top, Kept, FieldsDepth,
        ArmsDepth, Bare;
      match t
      case Str | List(_) | Map(_) | Scalar(_) | Flags(_) | Enum(_) => DeallocateWords(t, what, keep);
      case Alias(u) => Deallocate(u, what, keep);
      case Record(rk, fs) => DeallocateFields(rk, fs, what, keep);
      case Variant(vk, arms) => DeallocateVariant(vk, arms, what, keep);
    }

    /** What is not made of other types: two operands go for a pointer and a length, and one
        for everything else, flags of any size included. */
    method DeallocateWords(t: Ty, what: Deallocate, ghost keep: nat)
      requires t.Str? || t.List? || t.Map? || t.Scalar? || t.Flags? || t.Enum?
      requires WellFormed(t) && keep <= |stack| && Depth(t, |stack| - keep).Some?
      modifies this`stack, bindgen`src, bindgen`blockStorage, bindgen`blocks, bindgen`payloads, bindgen`next
      ensures Kept(old(Snap()), Snap(), keep, 0, keep + Depth(t, |old(stack)| - keep).value)
      ensures |Flat(t)| <= |old(stack)| ==>
                Bare(Snap()) == Did(Bare(old(Snap())), 0, DeallocCode(G(), what, t, Top(old(Snap()), |Flat(t)|), old(bindgen.next)))
      decreases t, 1, 1
    {
      hide DeallocListCode, DeallocMapCode, DropCode, Did, Top, Kept, Bare, One;
      ghost var s := Snap();
      match t
      case Str | List(_) | Map(_) =>
        DeallocatePair(t, what);
        DidKeeps(s, keep, 2, DeallocCode(G(), what, t, Top(s, 2), s.next));
        BareDid(s, 2, DeallocCode(G(), what, t, Top(s, 2), s.next));
      case Scalar(p) =>
        DeallocateScalar(p, what);
        DidKeeps(s, keep, 1, DropCode(p, what, Top(s, 1), s.next));
        BareDid(s, 1, DropCode(p, what, Top(s, 1), s.next));
      case Flags(_) | Enum(_) =>
        Discard();
        DidKeeps(s, keep, 1, Chunk([], [], s.next));
        BareDid(s, 1, Chunk([], [], s.next));
    }

    /** Drops the topmost operand. */
    method Discard()
      requires stack != []
      modifies this`stack, bindgen`src, bindgen`blockStorage, bindgen`blocks, bindgen`payloads, bindgen`next
      ensures Snap() == Did(old(Snap()), 1, Chunk([], [], old(bindgen.next)))
    {
      ghost var s := Snap();
      var _ := Pop();
      DrainDid(s, 1, Chunk([], [], s.next));
      DidNothing(Snap());
    }

    /** What is a pointer and a length. */
    method DeallocatePair(t: Ty, what: Deallocate)
      requires (t.Str? || t.List? || t.Map?) && WellFormed(t) && 2 <= |stack|
      modifies this`stack, bindgen`src, bindgen`blockStorage, bindgen`blocks, bindgen`payloads, bindgen`next
      ensures |Top(old(Snap()), 2)| == |Flat(t)| && Clean(t)
      ensures Snap() == Did(old(Snap()), 2, DeallocCode(G(), what, t, Top(old(Snap()), 2), old(bindgen.next)))
      decreases t, 1, 0
    {
      hide Did, Top, One, DeallocListCode, DeallocMapCode;
      TopLength(Snap(), 2);
      match t
      case Str => EmitPlain(GuestDeallocateString);
      case List(e) => DeallocateList(e, what);
      case Map(e) => DeallocateMap(e, what);
    }

    method DeallocateScalar(p: Prim, what: Deallocate)
      requires stack != []
      modifies this`stack, bindgen`src, bindgen`blockStorage, bindgen`blocks, bindgen`payloads, bindgen`next
      ensures Snap() == Did(old(Snap()), 1, DropCode(p, what, Top(old(Snap()), 1), old(bindgen.next)))
    {
      hide Did, Top, One;
      if OwnedHandle(p) && what.Handles() {
        DeallocateHandle(p);
      } else {
        Discard();
      }
    }

    /** An owned handle is lifted and dropped. */
    method DeallocateHandle(p: Prim)
      requires stack != []
      modifies this`stack, bindgen`src, bindgen`blockStorage, bindgen`blocks, bindgen`payloads, bindgen`next
      ensures var l := One(ScalarLift(p), Top(old(Snap()), 1), old(bindgen.next));
              Snap() == Did(old(Snap()), 1, Then(l, One(DropHandle(p), l.outs, l.next)))
    {
      hide Did, Top, One;
      ghost var s := Snap();
      ghost var l := One(ScalarLift(p), Top(s, 1), s.next);
      LiftScalar(p);
      EmitOn(s, 1, l, DropHandle(p));
    }

    method LiftScalar(p: Prim)
      requires stack != []
      modifies this`stack, bindgen`src, bindgen`blockStorage, bindgen`blocks, bindgen`payloads, bindgen`next
      ensures Snap() == Did(old(Snap()), 1, One(ScalarLift(p), Top(old(Snap()), 1), old(bindgen.next)))
    {
      hide Did, Top, LiftCode, Flat, LiftFits, One;
      ghost var s := Snap();
      TopLength(s, 1);
      ScalarIs(G(), p, Top(s, 1), s.next);
      Lift(Scalar(p));
    }

    method DeallocateList(e: Ty, what: Deallocate)
      requires WellFormed(e) && 2 <= |stack|
      modifies this`stack, bindgen`src, bindgen`blockStorage, bindgen`blocks, bindgen`payloads, bindgen`next
      ensures Snap() == Did(old(Snap()), 2, DeallocListCode(G(), what, e, Top(old(Snap()), 2), old(bindgen.next)))
      decreases e, 7
    {
      hide ElemFreer, Did, Waiting, Emitted, Top;
      ghost var s := Snap();
      ghost var w := ElemFreer(G(), what, e, s.next);
      FreeElemBlock(e, what);
      EmitTaking(s, [w.block], [], w.next, GuestDeallocateList(e));
    }

    method DeallocateMap(e: Ty, what: Deallocate)
      requires WellFormed(e) && e.Record? && |e.fields| == 2 && 2 <= |stack|
      modifies this`stack, bindgen`src, bindgen`blockStorage, bindgen`blocks, bindgen`payloads, bindgen`next
      ensures Snap() == Did(old(Snap()), 2, DeallocMapCode(G(), what, e, Top(old(Snap()), 2), old(bindgen.next)))
      decreases e, 7
    {
      hide EntryFreer, Did, Waiting, Emitted, Top;
      ghost var s := Snap();
      ghost var w := EntryFreer(G(), what, e, s.next);
      FreeEntryBlock(e, what);
      EmitTaking(s, [w.block], [], w.next, GuestDeallocateMap(e));
    }

    /** The block that frees what one list element owns. */
    method FreeElemBlock(e: Ty, what: Deallocate)
      requires WellFormed(e)
      modifies this`stack, bindgen`src, bindgen`blockStorage, bindgen`blocks, bindgen`payloads, bindgen`next
      ensures var w := ElemFreer(G(), what, e, old(bindgen.next)); Snap() == Waiting(old(Snap()), [w.block], [], w.next)
      decreases e, 6
    {
      hide FreeCode, Did, Opened, Waiting, Closed, Top, Drop;
      ghost var s := Snap();
      ghost var a := One(IterBasePointer, [], s.next);
      var elemaddr := OpenLoopBlock();
      DeallocateIndirect(e, elemaddr, 0, what);
      ghost var c := FreeCode(G(), what, e, a.outs[0], 0, a.next);
      CloseLoopBlock(s, a, c, 0);
    }

    method FreeEntryBlock(e: Ty, what: Deallocate)
      requires WellFormed(e) && e.Record? && |e.fields| == 2
      modifies this`stack, bindgen`src, bindgen`blockStorage, bindgen`blocks, bindgen`payloads, bindgen`next
      ensures var w := EntryFreer(G(), what, e, old(bindgen.next)); Snap() == Waiting(old(Snap()), [w.block], [], w.next)
      decreases e, 6
    {
      hide FreeCode, Did, Opened, Waiting, Closed, Top, Drop, ValueOffset;
      ghost var s := Snap();
      var key, val := e.fields[0], e.fields[1];
      assert key in e.fields && val in e.fields;
      var valueOffset := ValueOffset(bindgen.p, e);
      ghost var a := One(IterBasePointer, [], s.next);
      var entryAddr := OpenLoopBlock();
      ghost var s1 := Snap();
      DeallocateIndirect(key, entryAddr, 0, what);
      ghost var kc := FreeCode(G(), what, key, a.outs[0], 0, a.next);
      DidNext(s1, 0, kc);
      DeallocateIndirect(val, entryAddr, valueOffset, what);
      ghost var vc := FreeCode(G(), what, val, a.outs[0], valueOffset, kc.next);
      DidThen(s1, 0, kc, vc);
      CloseLoopBlock(s, a, Then(kc, vc), 0);
    }

    /** `flat_for_each_record_type` with `deallocate`. */
    method DeallocateFields(rk: RecordKind, fs: seq<Ty>, what: Deallocate, ghost keep: nat)
      requires AllWellFormed(fs) && keep <= |stack| && Depth(Record(rk, fs), |stack| - keep).Some?
      modifies this`stack, bindgen`src, bindgen`blockStorage, bindgen`blocks, bindgen`payloads, bindgen`next
      ensures Kept(old(Snap()), Snap(), keep, 0, keep + Depth(Record(rk, fs), |old(stack)| - keep).value)
      ensures |FlatFields(fs)| <= |old(stack)|
      ensures AllClean(fs) ==>
                Bare(Snap()) == Did(Bare(old(Snap())), 0,
                                    DeallocFieldsCode(G(), what, fs, Top(old(Snap()), |FlatFields(fs)|), old(bindgen.next)))
      decreases fs, 1
    {
      hide Did, Drop, Top, Kept, Depth, FieldsDepth, FieldsCode, DeallocCode, DeallocFieldsCode, FlatFields, Clean;
      ghost var s0 := Snap();
      RecordDepth(rk, fs, |stack| - keep);
      var args := Drain(|FlatTypes(Record(rk, fs), MAX_FLAT_PARAMS).value|);
      ghost var s := Snap();
      ghost var all := FieldsCode(G(), what, fs, args, s.next);
      DropIs(s0, |FlatFields(fs)|);
      KeptStack(s0, s.stack, keep);
      KeptStack(s, s.stack, keep);
      var i := 0;
      assert fs[0..] == fs;
      while i < |fs|
        invariant 0 <= i <= |fs| && G() == old(G()) && |args| == |FlatFields(fs[i..])|
        invariant keep <= |stack| && Kept(s, Snap(), keep, 0, |stack|) && FieldsDepth(fs[i..], |stack| - keep).Some?
        invariant FieldsDepth(fs[i..], |stack| - keep) == FieldsDepth(fs, |s.stack| - keep)
        invariant AllClean(fs) ==> Did(Bare(Snap()), 0, FieldsCode(G(), what, fs[i..], args, bindgen.next)) == Did(Bare(s), 0, all)
      {
        ghost var s1 := Snap();
        FieldsDepthStep(fs, i, |stack| - keep);
        var k := |FlatTypes(fs[i], MAX_FLAT_PARAMS).value|;
        DeallocateField(fs[i], args[..k], what, keep);
        KeptDepth(s1, Snap(), keep, 0, keep + Depth(fs[i], |s1.stack| - keep + k).value);
        KeptTwice(s, s1, Snap(), keep, 0, 0, |s1.stack|, |stack|);
        if AllClean(fs) {
          FieldsCodeStep(G(), what, fs, i, args, s1.next);
          ghost var c := DeallocCode(G(), what, fs[i], args[..k], s1.next);
          DidNext(Bare(s1), 0, c);
          DidThen(Bare(s1), 0, c, FieldsCode(G(), what, fs[i + 1..], args[k..], c.next));
        }
        args := args[k..];
        i := i + 1;
      }
      FieldsCodeEnd(G(), what, fs[i..], args, bindgen.next, |stack| - keep);
      KeptTwice(s0, s, Snap(), keep, 0, 0, |s.stack|, |stack|);
      if AllClean(fs) {
        DidNothing(Bare(Snap()));
        FieldsCodeIs(G(), what, fs, Top(s0, |FlatFields(fs)|), s.next);
      }
    }

    /** Pushes the words of one field again, and frees it. */
    method DeallocateField(t: Ty, xs: seq<Var>, what: Deallocate, ghost keep: nat)
      requires WellFormed(t) && |xs| == |Flat(t)| && keep <= |stack| && Depth(t, |stack| - keep + |xs|).Some?
      modifies this`stack, bindgen`src, bindgen`blockStorage, bindgen`blocks, bindgen`payloads, bindgen`next
      ensures Kept(old(Snap()), Snap(), keep, 0, keep + Depth(t, |old(stack)| - keep + |xs|).value)
      ensures Clean(t) ==> Bare(Snap()) == Did(Bare(old(Snap())), 0, DeallocCode(G(), what, t, xs, old(bindgen.next)))
      decreases t, 3
    {
      hide DeallocCode, Flat, Did, Top, Clean, Kept, Depth;
      ghost var s := Snap();
      stack := stack + xs;
      ghost var s1 := Snap();
      KeptStack(s, s1.stack, keep);
      PushedTop(s, xs);
      Deallocate(t, what, keep);
      KeptDepth(s1, Snap(), keep, 0, keep + Depth(t, |s1.stack| - keep).value);
      KeptTwice(s, s1, Snap(), keep, 0, 0, |s1.stack|, |stack|);
    }

    method DeallocateVariant(vk: VariantKind, arms: seq<Option<Ty>>, what: Deallocate, ghost keep: nat)
      requires ArmsWellFormed(arms) && keep <= |stack| && Depth(Variant(vk, arms), |stack| - keep).Some?
      modifies this`stack, bindgen`src, bindgen`blockStorage, bindgen`blocks, bindgen`payloads, bindgen`next
      ensures Kept(old(Snap()), Snap(), keep, 0, keep + Depth(Variant(vk, arms), |old(stack)| - keep).value)
      ensures AllCleanArms(arms) && Level(arms) && 1 + |FlatArms(arms)| <= |old(stack)| ==>
                Bare(Snap()) == Did(Bare(old(Snap())), 0,
                                    DeallocVariantCode(G(), what, arms, Top(old(Snap()), 1 + |FlatArms(arms)|), old(bindgen.next)))
      decreases arms, 4
    {
      hide DeallocArmsCode, DeallocVariantCode, Did, Waiting, Emitted, FlatArms, Drop, Top, Flat, CleanArm, Kept, Depth, ArmsDepth, CanEmit,
        Level, Bare;
      VariantDepth(vk, arms, |stack| - keep);
      ghost var s := Snap();
      AllArmsBelow(arms);
      DropIs(s, |FlatArms(arms)|);
      var blockInputs := Drain(|FlatTypes(Variant(vk, arms), MAX_FLAT_PARAMS).value| - 1);
      ghost var s1 := Snap();
      KeptStack(s, s1.stack, keep);
      DeallocateVariantCases(vk, arms, blockInputs, what, keep);
      KeptTwice(s, s1, Snap(), keep, 0, 0, |s1.stack|, |stack|);
      if AllCleanArms(arms) && Level(arms) && 1 + |FlatArms(arms)| <= |s.stack| {
        VariantTaken(G(), what, arms, s, blockInputs);
        BareDid(s, 1 + |FlatArms(arms)|, DeallocVariantCode(G(), what, arms, Top(s, 1 + |FlatArms(arms)|), s.next));
      }
    }

    /** The blocks of all cases, and the choice between them by what is then on top of the
        stack: the discriminant, if the cases are level. */
    method DeallocateVariantCases(vk: VariantKind, arms: seq<Option<Ty>>, blockInputs: seq<Var>, what: Deallocate, ghost keep: nat)
      requires ArmsWellFormed(arms) && FlatTypes(Variant(vk, arms), MAX_FLAT_PARAMS).Some?
      requires keep <= |stack| && ArmsDepth(arms, |stack| - keep).Some? && ArmsDepth(arms, |stack| - keep).value > 0
      requires ArmsBelow(arms, FlatArms(arms)) && |blockInputs| == |FlatArms(arms)|
      modifies this`stack, bindgen`src, bindgen`blockStorage, bindgen`blocks, bindgen`payloads, bindgen`next
      ensures |stack| == keep + ArmsDepth(arms, |old(stack)| - keep).value - 1 && Kept(old(Snap()), Snap(), keep, 0, |stack|)
      ensures AllCleanArms(arms) && Level(arms) ==>
                var a := DeallocArmsCode(G(), what, arms, FlatArms(arms), blockInputs, old(bindgen.next));
                var w := Waiting(old(Snap()), a.blocks, [], a.next);
                CanEmit(w, GuestDeallocateVariant(|arms|)) && Snap() == Emitted(w, GuestDeallocateVariant(|arms|))
      decreases arms, 3
    {
      hide DeallocArmsCode, Waiting, Emitted, FlatArms, CleanArm, Kept, ArmsDepth, CanEmit, FlatTypes, Level, Bare;
      ghost var s := Snap();
      LevelArmsStay(arms, |stack| - keep);
      DeallocateVariantArms(vk, arms, blockInputs, what, if Level(arms) then |stack| else keep);
      ghost var r := Snap();
      if Level(arms) {
        KeptAll(s, r, keep, |arms|);
        if AllCleanArms(arms) {
          ghost var a := DeallocArmsCode(G(), what, arms, FlatArms(arms), blockInputs, s.next);
          BareWaiting(s, a.blocks, a.next);
          BareSame(Waiting(s, a.blocks, [], a.next), r);
        }
      }
      KeptDepth(s, r, keep, |arms|, keep + ArmsDepth(arms, |s.stack| - keep).value);
      TakeKept(s, r, GuestDeallocateVariant(|arms|), keep, |r.stack|);
      Emit(GuestDeallocateVariant(|arms|));
      KeptDepth(s, Snap(), keep, 0, |r.stack| - 1);
    }

    /** `flat_for_each_variant_arm` with `deallocate`. */
    method DeallocateVariantArms(vk: VariantKind, arms: seq<Option<Ty>>, blockInputs: seq<Var>, what: Deallocate, ghost keep: nat)
      requires ArmsWellFormed(arms) && FlatTypes(Variant(vk, arms), MAX_FLAT_PARAMS).Some?
      requires keep <= |stack| && ArmsDepth(arms, |stack| - keep).Some?
      requires ArmsBelow(arms, FlatArms(arms)) && |blockInputs| == |FlatArms(arms)|
      modifies this`stack, bindgen`src, bindgen`blockStorage, bindgen`blocks, bindgen`payloads, bindgen`next
      ensures Kept(old(Snap()), Snap(), keep, |arms|, keep + ArmsDepth(arms, |old(stack)| - keep).value)
      ensures AllCleanArms(arms) ==>
                var a := DeallocArmsCode(G(), what, arms, FlatArms(arms), blockInputs, old(bindgen.next));
                Bare(Snap()) == Waiting(Bare(old(Snap())), a.blocks, [], a.next)
      decreases arms, 2
    {
      hide Waiting, FlatArms, FlatArm, Below, CleanArm, Kept, ArmsDepth, ArmDepth, ArmsCode;
      var params := FlatTypes(Variant(vk, arms), MAX_FLAT_PARAMS).value;
      ghost var s := Snap();
      KeptStack(s, s.stack, keep);
      var slots := params[1..];
      assert slots == FlatArms(arms);
      ghost var all := ArmsCode(G(), what, arms, slots, blockInputs, s.next);
      var i := 0;
      assert arms[0..] == arms;
      while i < |arms|
        invariant 0 <= i <= |arms| && G() == old(G())
        invariant keep <= |stack| && Kept(s, Snap(), keep, i, |stack|) && ArmsDepth(arms[i..], |stack| - keep).Some?
        invariant ArmsDepth(arms[i..], |stack| - keep) == ArmsDepth(arms, |s.stack| - keep)
        invariant AllCleanArms(arms) ==>
                    var rest := ArmsCode(G(), what, arms[i..], slots, blockInputs, bindgen.next);
                    Waiting(Bare(Snap()), rest.blocks, [], rest.next) == Waiting(Bare(s), all.blocks, [], all.next)
      {
        ghost var s1 := Snap();
        ArmsDepthStep(arms, i, |stack| - keep);
        DeallocateVariantArm(arms[i], slots, blockInputs, what, keep);
        KeptDepth(s1, Snap(), keep, 1, keep + ArmDepth(arms[i], |s1.stack| - keep).value);
        KeptTwice(s, s1, Snap(), keep, i, 1, |s1.stack|, |stack|);
        if AllCleanArms(arms) {
          ArmsCodeStep(G(), what, arms, i, slots, blockInputs, s1.next);
          ghost var w := DeallocArmCode(G(), what, arms[i], slots, blockInputs, s1.next);
          ghost var rest := ArmsCode(G(), what, arms[i + 1..], slots, blockInputs, w.next);
          WaitingNext(Bare(s1), [w.block], [], w.next);
          WaitingBlocks(Bare(s1), [w.block], w.next, rest.blocks, rest.next);
        }
        i := i + 1;
      }
      ArmsCodeEnd(G(), what, arms[i..], slots, blockInputs, bindgen.next, |stack| - keep);
      WaitingNone(Bare(Snap()));
      if AllCleanArms(arms) { ArmsCodeIs(G(), what, arms, slots, blockInputs, s.next); }
    }

    method DeallocateVariantArm(arm: Option<Ty>, slots: seq<WasmType>, blockInputs: seq<Var>, what: Deallocate, ghost keep: nat)
      requires (arm.Some? ==> WellFormed(arm.value)) && keep <= |stack| && ArmDepth(arm, |stack| - keep).Some?
      requires Below(FlatArm(arm), slots) && |blockInputs| == |slots|
      modifies this`stack, bindgen`src, bindgen`blockStorage, bindgen`blocks, bindgen`payloads, bindgen`next
      ensures Kept(old(Snap()), Snap(), keep, 1, keep + ArmDepth(arm, |old(stack)| - keep).value)
      ensures CleanArm(arm) ==>
                var w := DeallocArmCode(G(), what, arm, slots, blockInputs, old(bindgen.next));
                Bare(Snap()) == Waiting(Bare(old(Snap())), [w.block], [], w.next)
      decreases arm, 1
    {
      hide DeallocCode, Did, Waiting, Closed, Leq, CastCode, Drop, Top, Opened, Flat, Kept, Depth, Clean;
      ghost var s := Snap();
      OpenedIs(s);
      PushBlock();
      KeptStack(Snap(), stack, keep);
      DidNothing(Bare(Opened(s)));
      if arm.Some? {
        DeallocatePayload(arm.value, slots, blockInputs, what, keep);
      }
      ghost var r := Snap();
      KeptDepth(Opened(s), r, keep, 0, keep + ArmDepth(arm, |s.stack| - keep).value);
      BlockKept(s, r, keep, |r.stack|);
      FinishBlock(0);
      if CleanArm(arm) { BareBlock(s, r, ArmDoneCode(G(), what, arm, slots, blockInputs, s.next)); }
    }

    /** Pushes the words of one case, casts them down and frees them. */
    method DeallocatePayload(u: Ty, slots: seq<WasmType>, blockInputs: seq<Var>, what: Deallocate, ghost keep: nat)
      requires WellFormed(u) && keep <= |stack| && ArmDepth(Some(u), |stack| - keep).Some?
      requires Below(Flat(u), slots) && |blockInputs| == |slots|
      modifies this`stack, bindgen`src, bindgen`blockStorage, bindgen`blocks, bindgen`payloads, bindgen`next
      ensures Kept(old(Snap()), Snap(), keep, 0, keep + ArmDepth(Some(u), |old(stack)| - keep).value)
      ensures Clean(u) ==> Bare(Snap()) == Did(Bare(old(Snap())), 0, ArmDoneCode(G(), what, Some(u), slots, blockInputs, old(bindgen.next)))
      decreases u, 4
    {
      hide DeallocCode, Did, Leq, CastCode, Drop, Top, Flat, Kept, Depth, Clean, Bare;
      ghost var s := Snap();
      var temp := FlatTypes(u, MAX_FLAT_PARAMS).value;
      var casts := CanonicalAbi.CastsDown(temp, slots);
      stack := stack + blockInputs[..|temp|];
      ghost var b := CastCode(casts, blockInputs[..|temp|], s.next);
      PushedTop(s, blockInputs[..|temp|]);
      EmitCasts(casts);
      DidPushed(s, blockInputs[..|temp|], b);
      DidTop(s, b);
      DidKeeps(s, keep, 0, b);
      BareDid(s, 0, b);
      ghost var s1 := Snap();
      Deallocate(u, what, keep);
      KeptDepth(s1, Snap(), keep, 0, keep + Depth(u, |s1.stack| - keep).value);
      KeptTwice(s, s1, Snap(), keep, 0, 0, |s1.stack|, |stack|);
      if Clean(u) { DidThen(Bare(s), 0, Chunk(b.code, [], b.next), DeallocCode(G(), what, u, b.outs, b.next)); }
    }

    // ----- deallocate_indirect -----

    method DeallocateIndirect(t: Ty, addr: Var, off: nat, what: Deallocate)
      requires WellFormed(t)
      modifies this`stack, bindgen`src, bindgen`blockStorage, bindgen`blocks, bindgen`payloads, bindgen`next
      ensures Snap() == Did(old(Snap()), 0, FreeCode(G(), what, t, addr, off, old(bindgen.next)))
      decreases t, 3
    {
      hide FreeBufferCode, FreeHandleCode, FreeFieldsCode, FreeVariantCode, Did, NeedsDeallocate;
      DidNothing(Snap());
      if !NeedsDeallocate(t, what) {
        return;
      }
      match t
      case Scalar(p) =>
        OtherHandlesAreSkipped(p, what);
        if OwnedHandle(p) && what.Handles() {
          DropAt(p, addr, off);
        } else if OwnedHandle(p) || p == Borrow {
          // The arms that the generator calls unreachable.
          assert false;
        }
      case Str | List(_) | Map(_) => DeallocateBuffer(t, addr, off, what);
      case Alias(u) => DeallocateIndirect(u, addr, off, what);
      case Record(_, fs) => DeallocateIndirectFields(fs, addr, off, what);
      case Variant(_, arms) => DeallocateIndirectVariant(arms, addr, off, what);
      case Flags(_) | Enum(_) | FixedList(_, _) =>
    }

    method DropAt(p: Prim, addr: Var, off: nat)
      modifies this`stack, bindgen`src, bindgen`blockStorage, bindgen`blocks, bindgen`payloads, bindgen`next
      ensures Snap() == Did(old(Snap()), 0, FreeHandleCode(G(), p, addr, off, old(bindgen.next)))
    {
      hide ReadCode, Did, Top;
      ghost var s := Snap();
      ReadFromMemory(Scalar(p), addr, off);
      ghost var l := ReadCode(G(), Scalar(p), addr, off, s.next);
      EmitOn(s, 0, l, DropHandle(p));
    }

    method DeallocateBuffer(t: Ty, addr: Var, off: nat, what: Deallocate)
      requires (t.Str? || t.List? || t.Map?) && WellFormed(t)
      modifies this`stack, bindgen`src, bindgen`blockStorage, bindgen`blocks, bindgen`payloads, bindgen`next
      ensures Snap() == Did(old(Snap()), 0, FreeBufferCode(G(), what, t, addr, off, old(bindgen.next)))
      decreases t, 3, 0
    {
      hide DeallocCode, Did, Top, ReadPairCode, Kept, Bare;
      ghost var s := Snap();
      ReadPair(addr, off);
      ghost var b := ReadPairCode(G(), addr, off, s.next);
      DidTop(s, b);
      ghost var s1 := Snap();
      Deallocate(t, what, |stack| - 2);
      BareIsDid(s1, Snap(), 2, DeallocCode(G(), what, t, b.outs, b.next));
      DidThen(s, 0, b, DeallocCode(G(), what, t, b.outs, b.next));
    }

    /** `deallocate_indirect_fields`. */
    method DeallocateIndirectFields(fs: seq<Ty>, addr: Var, off: nat, what: Deallocate)
      requires AllWellFormed(fs)
      modifies this`stack, bindgen`src, bindgen`blockStorage, bindgen`blocks, bindgen`payloads, bindgen`next
      ensures Snap() == Did(old(Snap()), 0, FreeFieldsCode(G(), what, fs, addr, off, 0, old(bindgen.next)))
      decreases fs, 1
    {
      hide FreeCode, FreeFieldsCode, FieldOffset, Size, Did;
      ghost var s := Snap();
      ghost var all := FreeFieldsCode(G(), what, fs, addr, off, 0, s.next);
      var i: nat, pos: nat := 0, 0;
      assert fs[0..] == fs;
      while i < |fs|
        invariant 0 <= i <= |fs| && G() == old(G())
        invariant Did(Snap(), 0, FreeFieldsCode(G(), what, fs[i..], addr, off, pos, bindgen.next)) == Did(s, 0, all)
      {
        ghost var s1 := Snap();
        FreeFieldsStep(G(), what, fs, i, addr, off, pos, s1.next);
        var o := FieldOffset(bindgen.p, fs[i], pos);
        ghost var c := FreeCode(G(), what, fs[i], addr, off + o, s1.next);
        DeallocateIndirect(fs[i], addr, off + o, what);
        pos := o + Size(bindgen.p, fs[i]);
        DidNext(s1, 0, c);
        DidThen(s1, 0, c, FreeFieldsCode(G(), what, fs[i + 1..], addr, off, pos, c.next));
        i := i + 1;
      }
      FreeFieldsEnd(G(), what, fs[i..], addr, off, pos, bindgen.next);
      DidNothing(Snap());
    }

    /** `deallocate_indirect_variant`, with the instruction that follows it. */
    method DeallocateIndirectVariant(arms: seq<Option<Ty>>, addr: Var, off: nat, what: Deallocate)
      requires ArmsWellFormed(arms)
      modifies this`stack, bindgen`src, bindgen`blockStorage, bindgen`blocks, bindgen`payloads, bindgen`next
      ensures Snap() == Did(old(Snap()), 0, FreeVariantCode(G(), what, arms, addr, off, old(bindgen.next)))
      decreases arms, 4
    {
      hide FreeArmsCode, Did, TagSize, PayloadOffset, Top, LoadTag, Take;
      ghost var s := Snap();
      var tag := LoadTag(TagSize(|arms|));
      ghost var l := One(LoadFrom(tag, off), [addr], s.next);
      LoadAt(addr, tag, off);
      DidTop(s, l);
      var payloadOffset := off + PayloadOffset(bindgen.p, arms);
      ghost var r := FreeArmsCode(G(), what, arms, addr, payloadOffset, l.next);
      DeallocateIndirectCases(arms, addr, payloadOffset, what);
      DidThen(s, 0, l, Take(GuestDeallocateVariant(|arms|), l.outs, r.next, r.blocks, []));
    }

    /** The blocks of all cases, and the choice between them by the tag on the stack. */
    method DeallocateIndirectCases(arms: seq<Option<Ty>>, addr: Var, payloadOffset: nat, what: Deallocate)
      requires ArmsWellFormed(arms) && stack != []
      modifies this`stack, bindgen`src, bindgen`blockStorage, bindgen`blocks, bindgen`payloads, bindgen`next
      ensures var r := FreeArmsCode(G(), what, arms, addr, payloadOffset, old(bindgen.next));
              Snap() == Did(old(Snap()), 1, Take(GuestDeallocateVariant(|arms|), Top(old(Snap()), 1), r.next, r.blocks, []))
      decreases arms, 3
    {
      hide FreeArmsCode, Did, Waiting, Top, Take;
      ghost var s := Snap();
      ghost var r := FreeArmsCode(G(), what, arms, addr, payloadOffset, s.next);
      DeallocateIndirectArms(arms, addr, payloadOffset, what);
      EmitTaking(s, r.blocks, [], r.next, GuestDeallocateVariant(|arms|));
    }

    method DeallocateIndirectArms(arms: seq<Option<Ty>>, addr: Var, payloadOffset: nat, what: Deallocate)
      requires ArmsWellFormed(arms)
      modifies this`stack, bindgen`src, bindgen`blockStorage, bindgen`blocks, bindgen`payloads, bindgen`next
      ensures var a := FreeArmsCode(G(), what, arms, addr, payloadOffset, old(bindgen.next));
              Snap() == Waiting(old(Snap()), a.blocks, [], a.next)
      decreases arms, 2
    {
      hide FreeArmCode, Waiting;
      ghost var s := Snap();
      ghost var all := FreeArmsCode(G(), what, arms, addr, payloadOffset, s.next);
      var i := 0;
      assert arms[0..] == arms;
      while i < |arms|
        invariant 0 <= i <= |arms| && G() == old(G()) && ArmsWellFormed(arms[i..])
        invariant var rest := FreeArmsCode(G(), what, arms[i..], addr, payloadOffset, bindgen.next);
                  Waiting(Snap(), rest.blocks, [], rest.next) == Waiting(s, all.blocks, [], all.next)
      {
        ghost var s1 := Snap();
        assert arms[i..][0] == arms[i] && arms[i..][1..] == arms[i + 1..] && arms[i] in arms;
        ghost var w := FreeArmCode(G(), what, arms[i], addr, payloadOffset, s1.next);
        ghost var rest := FreeArmsCode(G(), what, arms[i + 1..], addr, payloadOffset, w.next);
        DeallocateIndirectArm(arms[i], addr, payloadOffset, what);
        WaitingNext(s1, [w.block], [], w.next);
        WaitingBlocks(s1, [w.block], w.next, rest.blocks, rest.next);
        i := i + 1;
      }
      assert arms[i..] == [];
      WaitingNone(Snap());
    }

    method DeallocateIndirectArm(arm: Option<Ty>, addr: Var, payloadOffset: nat, what: Deallocate)
      requires arm.Some? ==> WellFormed(arm.value)
      modifies this`stack, bindgen`src, bindgen`blockStorage, bindgen`blocks, bindgen`payloads, bindgen`next
      ensures var w := FreeArmCode(G(), what, arm, addr, payloadOffset, old(bindgen.next));
              Snap() == Waiting(old(Snap()), [w.block], [], w.next)
      decreases arm, 1
    {
      hide FreeCode, Did, Waiting, Closed, Opened;
      ghost var s := Snap();
      OpenedIs(s);
      PushBlock();
      ghost var done := Chunk([], [], s.next);
      DidNothing(Opened(s));
      if arm.Some? {
        DeallocateIndirect(arm.value, addr, payloadOffset, what);
        done := FreeCode(G(), what, arm.value, addr, payloadOffset, s.next);
      }
      DidOpen(s, done);
      BlockDone(s, done);
      FinishBlock(0);
    }
    // ----- call -----

    method Call(v: AbiVariant, d: LiftLower, f: Func)
      requires f.Valid() && stack == [] && realloc.None? && returnPointer.None? && IsAlign(bindgen.areaAlign)
      modifies this, bindgen
      ensures Snap() == Did(old(Snap()), 0, CallCode(G(), v, d, f, old(bindgen.next)))
      ensures stack == [] && realloc.None? && returnPointer.None?
      ensures AreaServes(bindgen.p, v, d, f, bindgen.areaSize, bindgen.areaAlign) && IsAlign(bindgen.areaAlign)
      ensures old(bindgen.areaSize) <= bindgen.areaSize && old(bindgen.areaAlign) <= bindgen.areaAlign
    {
      hide LowerArgsCode, LiftArgsCode, Did;
      match d {
        case LowerArgsLiftResults => CallLowering(v, f);
        case LiftArgsLowerResults => CallLifting(v, f);
      }
      DidNext(old(Snap()), 0, CallCode(G(), v, d, f, old(bindgen.next)));
    }

    method CallLowering(v: AbiVariant, f: Func)
      requires f.Valid() && stack == [] && returnPointer.None? && IsAlign(bindgen.areaAlign)
      modifies this, bindgen
      ensures realloc.None? && returnPointer.None?
      ensures Snap() == Did(old(Snap()), 0, LowerArgsCode(G().(own := PassesOwnership(v, LowerArgsLiftResults)), v, f, old(bindgen.next)))
      ensures AreaServes(bindgen.p, v, LowerArgsLiftResults, f, bindgen.areaSize, bindgen.areaAlign) && IsAlign(bindgen.areaAlign)
      ensures old(bindgen.areaSize) <= bindgen.areaSize && old(bindgen.areaAlign) <= bindgen.areaAlign
    {
      hide CallWasmCode, LiftResultCode, Did, Top, Flat, Size, Align, WasmSignature, AreaServes, One, PassesOwnership;
      ghost var s := Snap();
      ghost var call := CallWasmCode(G().(own := PassesOwnership(v, LowerArgsLiftResults)), v, f, s.next);
      CallAndLift(v, f);
      ghost var lifted := LiftResultCode(G(), f, ResultPtr(v, f, call), call.outs, call.next);
      EmitReturn(s, Then(call, lifted), |f.Results()|);
    }

    /** Calls the core function and lifts what it returns. */
    method CallAndLift(v: AbiVariant, f: Func)
      requires f.Valid() && stack == [] && returnPointer.None? && IsAlign(bindgen.areaAlign)
      modifies this, bindgen
      ensures realloc.None? && returnPointer.None?
      ensures var call := CallWasmCode(G().(own := PassesOwnership(v, LowerArgsLiftResults)), v, f, old(bindgen.next));
              (!RetPtr(f) ==> |call.outs| == |ResultFlat(f)|)
              && Snap() == Did(old(Snap()), 0, Then(call, LiftResultCode(G(), f, ResultPtr(v, f, call), call.outs, call.next)))
      ensures AreaServes(bindgen.p, v, LowerArgsLiftResults, f, bindgen.areaSize, bindgen.areaAlign) && IsAlign(bindgen.areaAlign)
      ensures old(bindgen.areaSize) <= bindgen.areaSize && old(bindgen.areaAlign) <= bindgen.areaAlign
    {
      hide CallWasmCode, LiftResultCode, Did, Top, Flat, Size, Align, WasmSignature, AreaServes, One, PassesOwnership;
      ghost var s := Snap();
      ghost var call := CallWasmCode(G().(own := PassesOwnership(v, LowerArgsLiftResults)), v, f, s.next);
      CallCore(v, f);
      ghost var ptr := ResultPtr(v, f, call);
      ResultWords(v, f);
      DidTop(s, call);
      LiftResult(v, f);
      ghost var lifted := LiftResultCode(G(), f, ptr, call.outs, call.next);
      DidThen(s, 0, call, lifted);
    }

    /** Lowers the arguments and calls the core function. */
    method CallCore(v: AbiVariant, f: Func)
      requires f.Valid() && stack == [] && returnPointer.None? && IsAlign(bindgen.areaAlign)
      modifies this, bindgen
      ensures realloc.None? && (returnPointer.Some? <==> v == GuestImport && RetPtr(f))
      ensures var call := CallWasmCode(G().(own := PassesOwnership(v, LowerArgsLiftResults)), v, f, old(bindgen.next));
              && Snap() == Did(old(Snap()), 0, call)
              && (v == GuestImport && RetPtr(f) ==> returnPointer == Some(call.next - 1))
      ensures AreaServes(bindgen.p, v, LowerArgsLiftResults, f, bindgen.areaSize, bindgen.areaAlign) && IsAlign(bindgen.areaAlign)
      ensures old(bindgen.areaSize) <= bindgen.areaSize && old(bindgen.areaAlign) <= bindgen.areaAlign
    {
      hide CallArgsCode, Did, Top, Flat, Size, Align, WasmSignature;
      ghost var s := Snap();
      var sig := WasmSignature(v, f);
      ghost var args := CallArgsCode(G().(own := PassesOwnership(v, LowerArgsLiftResults)), v, f, s.next);
      CallArgs(v, f);
      DidNext(s, 0, args);
      assert |stack| == |sig.params|;
      EmitOn(s, 0, args, CallWasm(|sig.params|, |sig.results|));
    }

    method CallArgs(v: AbiVariant, f: Func)
      requires f.Valid() && stack == [] && returnPointer.None? && IsAlign(bindgen.areaAlign)
      modifies this, bindgen
      ensures realloc.None? && (returnPointer.Some? <==> v == GuestImport && RetPtr(f))
      ensures var args := CallArgsCode(G().(own := PassesOwnership(v, LowerArgsLiftResults)), v, f, old(bindgen.next));
              && Snap() == Did(old(Snap()), 0, args)
              && (v == GuestImport && RetPtr(f) ==> returnPointer == Some(args.next - 1))
      ensures AreaServes(bindgen.p, v, LowerArgsLiftResults, f, bindgen.areaSize, bindgen.areaAlign) && IsAlign(bindgen.areaAlign)
      ensures old(bindgen.areaSize) <= bindgen.areaSize && old(bindgen.areaAlign) <= bindgen.areaAlign
    {
      hide LowerParamsCode, Did, Top, FlatFields, Flat, Size, Align;
      ghost var s := Snap();
      realloc := Some(PassesOwnership(v, LowerArgsLiftResults));
      ghost var lowered := LowerParamsCode(G(), v, f, s.next);
      LowerParams(v, f);
      realloc := None;
      DidNext(s, 0, lowered);
      ghost var space := ResultSpaceCode(G(), v, f, lowered.next);
      ResultSpace(v, f);
      DidBoth(s, 0, lowered, space);
    }

    method LowerParams(v: AbiVariant, f: Func)
      requires f.Valid() && realloc.Some? && IsAlign(bindgen.areaAlign)
      modifies this`stack, bindgen`src, bindgen`blockStorage, bindgen`blocks, bindgen`payloads, bindgen`next, bindgen`areaSize, bindgen`areaAlign
      ensures Snap() == Did(old(Snap()), 0, LowerParamsCode(G(), v, f, old(bindgen.next)))
      ensures old(bindgen.areaSize) <= bindgen.areaSize && old(bindgen.areaAlign) <= bindgen.areaAlign && IsAlign(bindgen.areaAlign)
      ensures UsesParamsArea(v, LowerArgsLiftResults, f) ==>
                Size(bindgen.p, f.ParamsTuple()) <= bindgen.areaSize && Align(bindgen.p, f.ParamsTuple()) <= bindgen.areaAlign
    {
      hide ArgsToMemoryCode, ArgsFlatCode, Did, FlatFields, Size, Align;
      ghost var s := Snap();
      if IndirectParams(f) {
        ghost var a := One(SpaceInst(bindgen.p, v, f), [], s.next);
        var ptr := ParamsSpace(v, f);
        ghost var d := Chunk(a.code, [], a.next);
        DidNext(s, 0, d);
        LowerToMemory(f.params, ptr);
        SpaceThen(s, a, ArgsToMemoryCode(G(), f.params, 0, ptr, 0, a.next), ptr);
        assert a.outs == [ptr];
        stack := stack + [ptr];
      } else {
        LowerDirect(f.params);
      }
    }

    /** Room for indirect parameters. */
    method ParamsSpace(v: AbiVariant, f: Func) returns (ptr: Var)
      requires IsAlign(bindgen.areaAlign)
      modifies this`stack, bindgen`src, bindgen`blockStorage, bindgen`blocks, bindgen`payloads, bindgen`next, bindgen`areaSize, bindgen`areaAlign
      ensures var a := One(SpaceInst(bindgen.p, v, f), [], old(bindgen.next));
              ptr == a.outs[0] && Snap() == Did(old(Snap()), 0, Chunk(a.code, [], a.next))
      ensures old(bindgen.areaSize) <= bindgen.areaSize && old(bindgen.areaAlign) <= bindgen.areaAlign && IsAlign(bindgen.areaAlign)
      ensures v == GuestImport ==>
                Size(bindgen.p, f.ParamsTuple()) <= bindgen.areaSize && Align(bindgen.p, f.ParamsTuple()) <= bindgen.areaAlign
    {
      hide Size, Align;
      ghost var s := Snap();
      var size, align := Size(bindgen.p, f.ParamsTuple()), Align(bindgen.p, f.ParamsTuple());
      if v == GuestImport {
        ptr := bindgen.ReturnPointer(size, align, ForParams);
        assert Fresh(s.next, 1) == [ptr] && s.stack[..|s.stack|] + [] == s.stack;
      } else {
        ptr := ParamsMalloc(size, align);
      }
    }

    /** Memory for the parameters of an export, which the export frees. */
    method ParamsMalloc(size: nat, align: nat) returns (ptr: Var)
      modifies this`stack, bindgen`src, bindgen`blocks, bindgen`payloads, bindgen`next
      ensures var a := One(Malloc(size, align), [], old(bindgen.next));
              ptr == a.outs[0] && Snap() == Did(old(Snap()), 0, Chunk(a.code, [], a.next))
    {
      ghost var s := Snap();
      TopNone(s);
      EmitPlain(Malloc(size, align));
      ptr := Pop();
      assert (s.stack[..|s.stack|] + [ptr])[..|s.stack|] == s.stack[..|s.stack|] + [];
    }

    /** The closure `lower_to_memory`, up to pushing the pointer. */
    method LowerToMemory(tys: seq<Ty>, ptr: Var)
      requires AllWellFormed(tys) && realloc.Some?
      modifies this`stack, bindgen`src, bindgen`blockStorage, bindgen`blocks, bindgen`payloads, bindgen`next
      ensures Snap() == Did(old(Snap()), 0, ArgsToMemoryCode(G(), tys, 0, ptr, 0, old(bindgen.next)))
    {
      hide ArgsToMemoryCode, ArgStoreCode, FieldOffset, Size, Did;
      ghost var s := Snap();
      ghost var all := ArgsToMemoryCode(G(), tys, 0, ptr, 0, s.next);
      var i: nat, offset: nat := 0, 0;
      assert tys[0..] == tys;
      while i < |tys|
        invariant 0 <= i <= |tys| && G() == old(G()) && realloc.Some?
        invariant Did(Snap(), 0, ArgsToMemoryCode(G(), tys[i..], i, ptr, offset, bindgen.next)) == Did(s, 0, all)
      {
        ghost var s1 := Snap();
        ArgsToMemoryStep(G(), tys, i, ptr, offset, s1.next);
        offset := FieldOffset(bindgen.p, tys[i], offset);
        ghost var c := ArgToMemory(i, tys[i], ptr, offset);
        offset := offset + Size(bindgen.p, tys[i]);
        DidNext(s1, 0, c);
        DidThen(s1, 0, c, ArgsToMemoryCode(G(), tys[i + 1..], i + 1, ptr, offset, c.next));
        i := i + 1;
      }
      ArgsToMemoryEnd(G(), tys[i..], i, ptr, offset, bindgen.next);
      DidNothing(Snap());
    }

    method ArgToMemory(i: nat, t: Ty, ptr: Var, offset: nat) returns (ghost c: Chunk)
      requires WellFormed(t) && realloc.Some?
      modifies this`stack, bindgen`src, bindgen`blockStorage, bindgen`blocks, bindgen`payloads, bindgen`next
      ensures c == ArgStoreCode(G(), t, i, ptr, offset, old(bindgen.next)) && Snap() == Did(old(Snap()), 0, c)
    {
      hide WriteCode, Did;
      ghost var s := Snap();
      ghost var x := One(GetArg(i), [], s.next);
      Arg(i);
      DidLast(s, 0, x);
      ghost var w := WriteCode(G(), t, x.outs[0], ptr, offset, x.next);
      WriteToMemory(t, ptr, offset);
      DidThen(s, 0, x, w);
      c := Then(x, w);
    }

    /** Direct parameters: every argument lowered in turn. */
    method LowerDirect(tys: seq<Ty>)
      requires AllWellFormed(tys) && realloc.Some? && |FlatFields(tys)| <= MAX_FLAT_PARAMS
      modifies this`stack, bindgen`src, bindgen`blockStorage, bindgen`blocks, bindgen`payloads, bindgen`next
      ensures Snap() == Did(old(Snap()), 0, ArgsFlatCode(G(), tys, 0, old(bindgen.next)))
    {
      hide ArgsFlatCode, ArgFlatCode, Did, FlatFields, Flat;
      ghost var s := Snap();
      ghost var all := ArgsFlatCode(G(), tys, 0, s.next);
      var i: nat := 0;
      assert tys[0..] == tys;
      while i < |tys|
        invariant 0 <= i <= |tys| && G() == old(G()) && realloc.Some?
        invariant Did(Snap(), 0, ArgsFlatCode(G(), tys[i..], i, bindgen.next)) == Did(s, 0, all)
      {
        ghost var s1 := Snap();
        ArgsFlatStep(G(), tys, i, s1.next);
        FieldFits(tys, i);
        ghost var c := LowerArg(i, tys[i]);
        DidNext(s1, 0, c);
        DidBoth(s1, 0, c, ArgsFlatCode(G(), tys[i + 1..], i + 1, c.next));
        i := i + 1;
      }
      ArgsFlatEnd(G(), tys[i..], i, bindgen.next);
      DidNothing(Snap());
    }

    method LowerArg(i: nat, t: Ty) returns (ghost c: Chunk)
      requires WellFormed(t) && LowerFits(t) && realloc.Some?
      modifies this`stack, bindgen`src, bindgen`blockStorage, bindgen`blocks, bindgen`payloads, bindgen`next
      ensures c == ArgFlatCode(G(), t, i, old(bindgen.next)) && Snap() == Did(old(Snap()), 0, c)
    {
      hide LowerCode, Did;
      ghost var s := Snap();
      ghost var x := One(GetArg(i), [], s.next);
      Arg(i);
      DidLast(s, 0, x);
      ghost var l := LowerCode(G(), t, x.outs[0], x.next);
      Lower(t);
      DidThen(s, 0, x, l);
      c := Then(x, l);
    }

    /** Prepares the return pointer of an import. */
    method ResultSpace(v: AbiVariant, f: Func)
      requires returnPointer.None? && IsAlign(bindgen.areaAlign)
      modifies this`returnPointer
      modifies this`stack, bindgen`src, bindgen`blockStorage, bindgen`blocks, bindgen`payloads, bindgen`next, bindgen`areaSize, bindgen`areaAlign
      ensures Snap() == Did(old(Snap()), 0, ResultSpaceCode(G(), v, f, old(bindgen.next)))
      ensures returnPointer == (if v == GuestImport && RetPtr(f) then Some(old(bindgen.next)) else None)
      ensures old(bindgen.areaSize) <= bindgen.areaSize && old(bindgen.areaAlign) <= bindgen.areaAlign && IsAlign(bindgen.areaAlign)
      ensures UsesResultArea(v, LowerArgsLiftResults, f) ==>
                Size(bindgen.p, f.ResultTuple()) <= bindgen.areaSize && Align(bindgen.p, f.ResultTuple()) <= bindgen.areaAlign
    {
      hide Size, Align, Flat;
      ghost var s := Snap();
      if v == GuestImport && RetPtr(f) {
        var ptr := bindgen.ReturnPointer(Size(bindgen.p, f.ResultTuple()), Align(bindgen.p, f.ResultTuple()), ForResult);
        returnPointer := Some(ptr);
        stack := stack + [ptr];
        assert Fresh(s.next, 1) == [ptr] && s.stack[..|s.stack|] == s.stack;
      } else {
        DidNothing(s);
      }
    }

    /** Lifts the result of a core call, or reads it from where it was left. */
    method LiftResult(v: AbiVariant, f: Func)
      requires f.Valid() && |WasmSignature(v, f).results| <= |stack|
      requires returnPointer.Some? <==> v == GuestImport && RetPtr(f)
      modifies this`returnPointer
      modifies this`stack, bindgen`src, bindgen`blockStorage, bindgen`blocks, bindgen`payloads, bindgen`next
      ensures returnPointer.None?
      ensures var xs := Top(old(Snap()), |WasmSignature(v, f).results|);
              var ptr := if !RetPtr(f) then 0 else if v == GuestImport then old(returnPointer).value else xs[0];
              Snap() == Did(old(Snap()), |xs|, LiftResultCode(G(), f, ptr, xs, old(bindgen.next)))
    {
      hide ReadFieldsCode, LiftCode, Did, Flat;
      ghost var s := Snap();
      if RetPtr(f) {
        var ptr: Var;
        if v == GuestImport {
          ptr := returnPointer.value;
          returnPointer := None;
        } else {
          ptr := Pop();
        }
        ReadResults(f, ptr);
        if v == GuestExport { DrainDid(s, 1, LiftResultCode(G(), f, ptr, [], s.next)); }
      } else if f.result.Some? {
        FlatFits(f.result.value);
        Lift(f.result.value);
      } else {
        DidNothing(s);
      }
    }

    method ReadResults(f: Func, ptr: Var)
      requires f.Valid() && RetPtr(f)
      modifies this`stack, bindgen`src, bindgen`blockStorage, bindgen`blocks, bindgen`payloads, bindgen`next
      ensures Snap() == Did(old(Snap()), 0, LiftResultCode(G(), f, ptr, [], old(bindgen.next)))
    {
      hide ReadFieldsCode, Did, Top, Flat;
      ghost var s := Snap();
      ghost var c := ReadFieldsCode(G(), f.Results(), ptr, 0, 0, s.next);
      ReadFields(f.Results(), ptr, 0);
      EmitOn(s, 0, c, Flush(|f.Results()|));
    }

    method CallLifting(v: AbiVariant, f: Func)
      requires f.Valid() && stack == [] && realloc.None? && IsAlign(bindgen.areaAlign)
      modifies this`realloc
      modifies this`stack, bindgen`src, bindgen`blockStorage, bindgen`blocks, bindgen`payloads, bindgen`next, bindgen`areaSize, bindgen`areaAlign
      ensures realloc.None?
      ensures Snap() == Did(old(Snap()), 0, LiftArgsCode(G().(own := PassesOwnership(v, LiftArgsLowerResults)), v, f, old(bindgen.next)))
      ensures AreaServes(bindgen.p, v, LiftArgsLowerResults, f, bindgen.areaSize, bindgen.areaAlign) && IsAlign(bindgen.areaAlign)
      ensures old(bindgen.areaSize) <= bindgen.areaSize && old(bindgen.areaAlign) <= bindgen.areaAlign
    {
      hide CallInterfaceCode, ReturnCode, Did, Top, WasmSignature, Size, Align, Flat;
      ghost var s := Snap();
      ghost var call := CallInterfaceCode(G(), f, s.next);
      CallImplementation(f);
      DidTop(s, call);
      realloc := Some(PassesOwnership(v, LiftArgsLowerResults));
      ghost var lowered := ReturnCode(G(), v, f, call.outs, call.next);
      LowerReturn(v, f);
      DidThen(s, 0, call, lowered);
      ghost var all := Then(call, lowered);
      EmitReturn(s, all, |WasmSignature(v, f).results|);
      realloc := None;
    }

    /** Lifts the arguments and calls the source-language function. */
    method CallImplementation(f: Func)
      requires f.Valid()
      modifies this`stack, bindgen`src, bindgen`blockStorage, bindgen`blocks, bindgen`payloads, bindgen`next
      ensures Snap() == Did(old(Snap()), 0, CallInterfaceCode(G(), f, old(bindgen.next)))
    {
      hide LiftParamsCode, Did, Top;
      ghost var s := Snap();
      ghost var params := LiftParamsCode(G(), f, s.next);
      LiftParams(f);
      EmitOn(s, 0, params, CallInterface(|f.params|, f.result.Some?));
    }

    method LowerReturn(v: AbiVariant, f: Func)
      requires f.Valid() && |f.Results()| <= |stack| && realloc.Some? && IsAlign(bindgen.areaAlign)
      modifies this`stack, bindgen`src, bindgen`blockStorage, bindgen`blocks, bindgen`payloads, bindgen`next, bindgen`areaSize, bindgen`areaAlign
      ensures Snap() == Did(old(Snap()), |f.Results()|, ReturnCode(G(), v, f, Top(old(Snap()), |f.Results()|), old(bindgen.next)))
      ensures AreaServes(bindgen.p, v, LiftArgsLowerResults, f, bindgen.areaSize, bindgen.areaAlign) && IsAlign(bindgen.areaAlign)
      ensures old(bindgen.areaSize) <= bindgen.areaSize && old(bindgen.areaAlign) <= bindgen.areaAlign
    {
      hide FreeParamsCode, LowerResultCode, Did, Top, WasmSignature, Size, Align, Flat;
      ghost var s := Snap();
      ghost var xs := Top(s, |f.Results()|);
      TopLength(s, |f.Results()|);
      ghost var freed := FreeParamsCode(G(), v, f, s.next);
      FreeParams(v, f);
      DidNext(s, 0, freed);
      FreedBelow(s, xs, freed);
      FreedThen(s, |xs|, freed, LowerResultCode(G(), v, f, xs, freed.next));
      LowerResult(v, f);
    }

    method LiftParams(f: Func)
      requires f.Valid()
      modifies this`stack, bindgen`src, bindgen`blockStorage, bindgen`blocks, bindgen`payloads, bindgen`next
      ensures Snap() == Did(old(Snap()), 0, LiftParamsCode(G(), f, old(bindgen.next)))
    {
      hide ReadFieldsCode, ParamsFlatCode, Did, Top, Drop, FlatFields;
      if IndirectParams(f) {
        ghost var s := Snap();
        ghost var a := One(GetArg(0), [], s.next);
        Arg(0);
        PoppedThen(s, a, ReadFieldsCode(G(), f.params, a.outs[0], 0, 0, a.next));
        var ptr := Pop();
        ReadFields(f.params, ptr, 0);
      } else {
        LiftDirect(f.params);
      }
    }

    /** Direct parameters: the words of each, then its lifting. */
    method LiftDirect(tys: seq<Ty>)
      requires AllWellFormed(tys) && |FlatFields(tys)| <= MAX_FLAT_PARAMS
      modifies this`stack, bindgen`src, bindgen`blockStorage, bindgen`blocks, bindgen`payloads, bindgen`next
      ensures Snap() == Did(old(Snap()), 0, ParamsFlatCode(G(), tys, 0, old(bindgen.next)))
    {
      hide ParamsFlatCode, ParamCode, Did, FlatFields, Flat;
      ghost var s := Snap();
      ghost var all := ParamsFlatCode(G(), tys, 0, s.next);
      var i: nat, offset: nat := 0, 0;
      assert tys[0..] == tys;
      while i < |tys|
        invariant 0 <= i <= |tys| && G() == old(G())
        invariant Did(Snap(), 0, ParamsFlatCode(G(), tys[i..], offset, bindgen.next)) == Did(s, 0, all)
      {
        ghost var s1 := Snap();
        ParamsFlatStep(G(), tys, i, offset, s1.next);
        FieldFits(tys, i);
        ghost var c := LiftParam(tys[i], offset);
        offset := offset + |FlatTypes(tys[i], MAX_FLAT_PARAMS).value|;
        DidNext(s1, 0, c);
        DidBoth(s1, 0, c, ParamsFlatCode(G(), tys[i + 1..], offset, c.next));
        i := i + 1;
      }
      ParamsFlatEnd(G(), tys[i..], offset, bindgen.next);
      DidNothing(Snap());
    }

    method LiftParam(t: Ty, offset: nat) returns (ghost c: Chunk)
      requires WellFormed(t) && LiftFits(t)
      modifies this`stack, bindgen`src, bindgen`blockStorage, bindgen`blocks, bindgen`payloads, bindgen`next
      ensures c == ParamCode(G(), t, offset, old(bindgen.next)) && Snap() == Did(old(Snap()), 0, c)
    {
      hide LiftCode, Did, Flat, GetArgsCode, Top;
      ghost var s := Snap();
      ghost var xs := GetArgsCode(offset, |Flat(t)|, s.next);
      GetArgs(offset, |Flat(t)|);
      DidTop(s, xs);
      Lift(t);
      DidThen(s, 0, xs, LiftCode(G(), t, xs.outs, xs.next));
      c := Then(xs, LiftCode(G(), t, xs.outs, xs.next));
    }

    method GetArgs(offset: nat, k: nat)
      modifies this`stack, bindgen`src, bindgen`blockStorage, bindgen`blocks, bindgen`payloads, bindgen`next
      ensures Snap() == Did(old(Snap()), 0, GetArgsCode(offset, k, old(bindgen.next)))
    {
      hide Did, Top, GetArgsCode, One;
      ghost var s := Snap();
      ghost var all := GetArgsCode(offset, k, s.next);
      var i: nat := 0;
      while i < k
        invariant 0 <= i <= k && G() == old(G())
        invariant Did(Snap(), 0, GetArgsCode(offset + i, k - i, bindgen.next)) == Did(s, 0, all)
      {
        ghost var s1 := Snap();
        ghost var x := One(GetArg(offset + i), [], s1.next);
        GetArgsStep(offset + i, k - i, s1.next);
        Arg(offset + i);
        DidNext(s1, 0, x);
        i := i + 1;
        DidBoth(s1, 0, x, GetArgsCode(offset + i, k - i, x.next));
      }
      GetArgsEnd(offset + i, bindgen.next);
      DidNothing(Snap());
    }

    /** An export frees the memory that carried its parameters. */
    method FreeParams(v: AbiVariant, f: Func)
      modifies this`stack, bindgen`src, bindgen`blockStorage, bindgen`blocks, bindgen`payloads, bindgen`next
      ensures Snap() == Did(old(Snap()), 0, FreeParamsCode(G(), v, f, old(bindgen.next)))
    {
      hide Did, Top, Size, Align, FlatFields;
      ghost var s := Snap();
      if v == GuestExport && IndirectParams(f) {
        ghost var a := One(GetArg(0), [], s.next);
        var size, align := Size(bindgen.p, f.ParamsTuple()), Align(bindgen.p, f.ParamsTuple());
        Arg(0);
        EmitOn(s, 0, a, GuestDeallocate(size, align));
      } else {
        DidNothing(s);
      }
    }

    /** Lowers the result onto the stack, or into memory. */
    method LowerResult(v: AbiVariant, f: Func)
      requires f.Valid() && |f.Results()| <= |stack| && realloc.Some? && IsAlign(bindgen.areaAlign)
      modifies this`stack, bindgen`src, bindgen`blockStorage, bindgen`blocks, bindgen`payloads, bindgen`next, bindgen`areaSize, bindgen`areaAlign
      ensures Snap() == Did(old(Snap()), |f.Results()|,
                            LowerResultCode(G(), v, f, Top(old(Snap()), |f.Results()|), old(bindgen.next)))
      ensures old(bindgen.areaSize) <= bindgen.areaSize && old(bindgen.areaAlign) <= bindgen.areaAlign && IsAlign(bindgen.areaAlign)
      ensures UsesResultArea(v, LiftArgsLowerResults, f) ==>
                Size(bindgen.p, f.ResultTuple()) <= bindgen.areaSize && Align(bindgen.p, f.ResultTuple()) <= bindgen.areaAlign
    {
      hide LowerCode, Did, WasmSignature, LowerResultCode, Flat, Size, Align;
      ghost var s := Snap();
      if !RetPtr(f) {
        SmallResult(v, f, G(), Top(s, |f.Results()|), s.next);
        if f.result.Some? {
          FlatFits(f.result.value);
          Lower(f.result.value);
        } else {
          DidNothing(s);
        }
      } else if v == GuestImport {
        ResultToArgument(f);
      } else {
        ResultToArea(f);
      }
    }

    /** An import writes a large result where its last argument points. */
    method ResultToArgument(f: Func)
      requires f.Valid() && RetPtr(f) && |f.Results()| <= |stack| && realloc.Some?
      modifies this`stack, bindgen`src, bindgen`blockStorage, bindgen`blocks, bindgen`payloads, bindgen`next
      ensures Snap() == Did(old(Snap()), |f.Results()|,
                            LowerResultCode(G(), GuestImport, f, Top(old(Snap()), |f.Results()|), old(bindgen.next)))
    {
      hide WriteFieldsCode, Did, Top, Drop, WasmSignature, Flat;
      ghost var s := Snap();
      TopLength(s, |f.Results()|);
      var sig := WasmSignature(GuestImport, f);
      RetPtrLast(f);
      ghost var a := One(GetArg(|sig.params| - 1), [], s.next);
      Arg(|sig.params| - 1);
      PoppedThen(s, a, Chunk([], [], a.next));
      var ptr := Pop();
      ghost var c := WriteFieldsCode(G(), f.Results(), Top(s, |f.Results()|), ptr, 0, 0, a.next);
      PoppedDrain(s, |f.Results()|, a, c);
      WriteFieldsToMemory(f.Results(), ptr, 0);
    }

    /** An export writes a large result into its static area. */
    method ResultToArea(f: Func)
      requires f.Valid() && RetPtr(f) && |f.Results()| <= |stack| && realloc.Some? && IsAlign(bindgen.areaAlign)
      modifies this`stack, bindgen`src, bindgen`blockStorage, bindgen`blocks, bindgen`payloads, bindgen`next, bindgen`areaSize, bindgen`areaAlign
      ensures Snap() == Did(old(Snap()), |f.Results()|,
                            LowerResultCode(G(), GuestExport, f, Top(old(Snap()), |f.Results()|), old(bindgen.next)))
      ensures old(bindgen.areaSize) <= bindgen.areaSize && old(bindgen.areaAlign) <= bindgen.areaAlign && IsAlign(bindgen.areaAlign)
      ensures Size(bindgen.p, f.ResultTuple()) <= bindgen.areaSize && Align(bindgen.p, f.ResultTuple()) <= bindgen.areaAlign
    {
      hide WriteFieldsCode, Did, WasmSignature, Size, Align, Flat;
      ghost var s := Snap();
      ghost var a := One(AreaFor(bindgen.p, f.ResultTuple(), ForResult), [], s.next);
      var ptr := bindgen.ReturnPointer(Size(bindgen.p, f.ResultTuple()), Align(bindgen.p, f.ResultTuple()), ForResult);
      ghost var c := WriteFieldsCode(G(), f.Results(), Top(s, |f.Results()|), ptr, 0, 0, a.next);
      AreaDone(s, |f.Results()|, a, c, ptr);
      assert Fresh(s.next, 1) == [ptr];
      WriteFieldsToMemory(f.Results(), ptr, 0);
      stack := stack + [ptr];
    }

    // ----- post_return -----

    method PostReturn(f: Func)
      requires f.Valid() && RetPtr(f) && stack == []
      modifies this`stack, bindgen`src, bindgen`blockStorage, bindgen`blocks, bindgen`payloads, bindgen`next
      ensures Snap() == Did(old(Snap()), 0, PostReturnCode(G(), f, old(bindgen.next)))
      ensures stack == []
    {
      hide FreeFieldsCode, DeallocFieldsCode, Did, Top, Drop, Flat, FlatFields, Clean, LiftFits, One;
      ghost var s := Snap();
      ghost var a := One(GetArg(0), [], s.next);
      Arg(0);
      ghost var c := FreeFieldsCode(G(), Lists, f.Results(), a.outs[0], 0, 0, a.next);
      PoppedThen(s, a, c);
      var addr := Pop();
      DeallocateInTypes(f.Results(), [addr], true, Lists);
      EmitReturn(s, Then(a, c), 0);
      DidNext(s, 0, PostReturnCode(G(), f, s.next));
    }

    /** Directly, every type has to leave the stack empty again. */
    method DeallocateInTypes(tys: seq<Ty>, operands: seq<Var>, indirect: bool, what: Deallocate)
      requires AllWellFormed(tys) && stack == []
      requires if indirect then |operands| == 1 else |operands| == |FlatFields(tys)| && AllBalanced(tys)
      modifies this`stack, bindgen`src, bindgen`blockStorage, bindgen`blocks, bindgen`payloads, bindgen`next
      ensures indirect ==> Snap() == Did(old(Snap()), 0, FreeFieldsCode(G(), what, tys, operands[0], 0, 0, old(bindgen.next)))
      ensures !indirect && AllClean(tys) ==> Snap() == Did(old(Snap()), 0, DeallocFieldsCode(G(), what, tys, operands, old(bindgen.next)))
      ensures Kept(old(Snap()), Snap(), 0, 0, 0) && stack == []
    {
      hide FreeFieldsCode, Did, FlatFields, Kept, DeallocFieldsCode;
      ghost var s := Snap();
      if indirect {
        DeallocateIndirectFields(tys, operands[0], 0, what);
        DidNext(s, 0, FreeFieldsCode(G(), what, tys, operands[0], 0, 0, s.next));
        DidKeeps(s, 0, 0, FreeFieldsCode(G(), what, tys, operands[0], 0, 0, s.next));
      } else {
        DeallocateEach(tys, operands, what);
        KeptDepth(s, Snap(), 0, 0, 0);
      }
    }

    method DeallocateEach(tys: seq<Ty>, operands: seq<Var>, what: Deallocate)
      requires AllWellFormed(tys) && |operands| == |FlatFields(tys)| && AllBalanced(tys) && stack == []
      modifies this`stack, bindgen`src, bindgen`blockStorage, bindgen`blocks, bindgen`payloads, bindgen`next
      ensures Kept(old(Snap()), Snap(), 0, 0, 0)
      ensures AllClean(tys) ==> Snap() == Did(old(Snap()), 0, DeallocFieldsCode(G(), what, tys, operands, old(bindgen.next)))
    {
      hide Did, Kept, FieldsCode, Depth, FlatFields, Flat, Clean, DeallocFieldsCode, DeallocCode;
      ghost var s := Snap();
      KeptStack(s, s.stack, 0);
      ghost var all := FieldsCode(G(), what, tys, operands, s.next);
      var i, rest := 0, operands;
      assert tys[0..] == tys;
      while i < |tys|
        invariant 0 <= i <= |tys| && G() == old(G()) && |rest| == |FlatFields(tys[i..])| && stack == []
        invariant Kept(s, Snap(), 0, 0, 0)
        invariant AllClean(tys) ==> Did(Snap(), 0, FieldsCode(G(), what, tys[i..], rest, bindgen.next)) == Did(s, 0, all)
      {
        ghost var s1 := Snap();
        FirstField(tys, i);
        var k := |FlatTypes(tys[i], MAX_FLAT_PARAMS).value|;
        DeallocateField(tys[i], rest[..k], what, 0);
        KeptDepth(s1, Snap(), 0, 0, 0);
        KeptTwice(s, s1, Snap(), 0, 0, 0, 0, 0);
        if AllClean(tys) {
          FieldsCodeStep(G(), what, tys, i, rest, s1.next);
          ghost var c := DeallocCode(G(), what, tys[i], rest[..k], s1.next);
          DidNext(s1, 0, c);
          DidThen(s1, 0, c, FieldsCode(G(), what, tys[i + 1..], rest[k..], c.next));
        }
        rest := rest[k..];
        i := i + 1;
      }
      FieldsCodeEnd(G(), what, tys[i..], rest, bindgen.next, 0);
      DidNothing(Snap());
      if AllClean(tys) { FieldsCodeIs(G(), what, tys, operands, s.next); }
    }
  }

  // ----- how flat deallocation unfolds -----

  /** Every type consumes its words when nothing lies below them. */
  predicate AllBalanced(tys: seq<Ty>) {
    forall t | t in tys :: |Flat(t)| <= MAX_FLAT_PARAMS && Depth(t, |Flat(t)|) == Some(0)
  }

  lemma KeptDepth(s: Snapshot, r: Snapshot, keep: nat, extra: nat, depth: nat)
    requires Kept(s, r, keep, extra, depth)
    ensures |r.stack| == depth
  {
  }

  lemma FirstField(fs: seq<Ty>, i: nat)
    requires i < |fs|
    ensures fs[i] in fs && |FlatFields(fs[i..])| == |Flat(fs[i])| + |FlatFields(fs[i + 1..])|
  {
    hide Flat;
    assert fs[i..][0] == fs[i] && fs[i..][1..] == fs[i + 1..];
  }

  lemma DropIs(s: Snapshot, n: nat)
    requires n <= |s.stack|
    ensures Drop(s, n) == s.(stack := s.stack[..|s.stack| - n])
  {
  }

  predicate AllClean(fs: seq<Ty>) {
    forall f | f in fs :: Clean(f)
  }

  function FieldsCode(g: Gen, what: Deallocate, fs: seq<Ty>, xs: seq<Var>, n: Var): Chunk {
    if AllWellFormed(fs) && AllClean(fs) && |xs| == |FlatFields(fs)| then DeallocFieldsCode(g, what, fs, xs, n) else Chunk([], [], n)
  }

  lemma FieldsCodeStep(g: Gen, what: Deallocate, fs: seq<Ty>, i: nat, xs: seq<Var>, n: Var)
    requires AllWellFormed(fs) && AllClean(fs) && i < |fs| && |xs| == |FlatFields(fs[i..])|
    ensures WellFormed(fs[i]) && Clean(fs[i]) && |Flat(fs[i])| <= |xs|
    ensures var k := |Flat(fs[i])|;
            var c := DeallocCode(g, what, fs[i], xs[..k], n);
            FieldsCode(g, what, fs[i..], xs, n) == Then(c, FieldsCode(g, what, fs[i + 1..], xs[k..], c.next))
  {
    hide DeallocCode, Flat, Clean, WellFormed;
    assert fs[i..][0] == fs[i] && fs[i..][1..] == fs[i + 1..] && fs[i] in fs;
  }

  lemma FieldsCodeEnd(g: Gen, what: Deallocate, fs: seq<Ty>, xs: seq<Var>, n: Var, d: nat)
    requires fs == []
    ensures FieldsCode(g, what, fs, xs, n) == Chunk([], [], n) && FieldsDepth(fs, d) == Some(d)
  {
  }

  lemma FieldsCodeIs(g: Gen, what: Deallocate, fs: seq<Ty>, xs: seq<Var>, n: Var)
    requires AllWellFormed(fs) && AllClean(fs) && |xs| == |FlatFields(fs)|
    ensures FieldsCode(g, what, fs, xs, n) == DeallocFieldsCode(g, what, fs, xs, n)
  {
    hide DeallocFieldsCode;
  }

  lemma RecordDepth(rk: RecordKind, fs: seq<Ty>, d: nat)
    requires Depth(Record(rk, fs), d).Some?
    ensures FlatTypes(Record(rk, fs), MAX_FLAT_PARAMS) == Some(FlatFields(fs)) && |FlatFields(fs)| <= d
    ensures Depth(Record(rk, fs), d) == FieldsDepth(fs, d - |FlatFields(fs)|)
  {
    hide FlatFields, FieldsDepth;
  }

  lemma FieldsDepthStep(fs: seq<Ty>, i: nat, d: nat)
    requires i < |fs| && FieldsDepth(fs[i..], d).Some?
    ensures fs[i] in fs && FlatTypes(fs[i], MAX_FLAT_PARAMS) == Some(Flat(fs[i]))
    ensures |FlatFields(fs[i..])| == |Flat(fs[i])| + |FlatFields(fs[i + 1..])|
    ensures Depth(fs[i], d + |Flat(fs[i])|).Some? && FieldsDepth(fs[i..], d) == FieldsDepth(fs[i + 1..], Depth(fs[i], d + |Flat(fs[i])|).value)
  {
    hide Flat, Depth;
    assert fs[i..][0] == fs[i] && fs[i..][1..] == fs[i + 1..];
  }

  lemma VariantDepth(vk: VariantKind, arms: seq<Option<Ty>>, d: nat)
    requires Depth(Variant(vk, arms), d).Some?
    ensures FlatTypes(Variant(vk, arms), MAX_FLAT_PARAMS) == Some([I32] + FlatArms(arms)) && |FlatArms(arms)| <= d
    ensures var r := ArmsDepth(arms, d - |FlatArms(arms)|);
            r.Some? && r.value > 0 && Depth(Variant(vk, arms), d) == Some(r.value - 1)
  {
    hide FlatArms, ArmsDepth;
  }

  function ArmsCode(g: Gen, what: Deallocate, arms: seq<Option<Ty>>, slots: seq<WasmType>, xs: seq<Var>, n: Var): Arms {
    if ArmsWellFormed(arms) && AllCleanArms(arms) && ArmsBelow(arms, slots) && |xs| == |slots| then DeallocArmsCode(g, what, arms, slots, xs, n)
    else Arms([], [], n)
  }

  lemma ArmsCodeStep(g: Gen, what: Deallocate, arms: seq<Option<Ty>>, i: nat, slots: seq<WasmType>, xs: seq<Var>, n: Var)
    requires ArmsWellFormed(arms) && AllCleanArms(arms) && ArmsBelow(arms, slots) && |xs| == |slots| && i < |arms|
    ensures (arms[i].Some? ==> WellFormed(arms[i].value)) && CleanArm(arms[i]) && Below(FlatArm(arms[i]), slots)
    ensures var w := DeallocArmCode(g, what, arms[i], slots, xs, n);
            var rest := ArmsCode(g, what, arms[i + 1..], slots, xs, w.next);
            ArmsCode(g, what, arms[i..], slots, xs, n) == Arms([w.block] + rest.blocks, [], rest.next)
  {
    hide DeallocArmCode, CleanArm, WellFormed, FlatArm, Below;
    assert arms[i..][0] == arms[i] && arms[i..][1..] == arms[i + 1..] && arms[i] in arms;
  }

  lemma ArmsCodeEnd(g: Gen, what: Deallocate, arms: seq<Option<Ty>>, slots: seq<WasmType>, xs: seq<Var>, n: Var, d: nat)
    requires arms == []
    ensures ArmsCode(g, what, arms, slots, xs, n) == Arms([], [], n) && ArmsDepth(arms, d) == Some(d)
  {
  }

  lemma ArmsCodeIs(g: Gen, what: Deallocate, arms: seq<Option<Ty>>, slots: seq<WasmType>, xs: seq<Var>, n: Var)
    requires ArmsWellFormed(arms) && AllCleanArms(arms) && ArmsBelow(arms, slots) && |xs| == |slots|
    ensures ArmsCode(g, what, arms, slots, xs, n) == DeallocArmsCode(g, what, arms, slots, xs, n)
  {
    hide DeallocArmsCode;
  }

  lemma ArmsDepthStep(arms: seq<Option<Ty>>, i: nat, d: nat)
    requires i < |arms| && ArmsDepth(arms[i..], d).Some?
    ensures arms[i] in arms && ArmDepth(arms[i], d).Some? && ArmsDepth(arms[i..], d) == ArmsDepth(arms[i + 1..], ArmDepth(arms[i], d).value)
  {
    hide ArmDepth;
    assert arms[i..][0] == arms[i] && arms[i..][1..] == arms[i + 1..];
  }

  /** What is in the block of one case. */
  function ArmDoneCode(g: Gen, what: Deallocate, arm: Option<Ty>, slots: seq<WasmType>, xs: seq<Var>, n: Var): (c: Chunk)
    requires (arm.Some? ==> WellFormed(arm.value)) && CleanArm(arm) && Below(FlatArm(arm), slots) && |xs| == |slots|
    ensures c.outs == [] && DeallocArmCode(g, what, arm, slots, xs, n) == Writer(CodeBlock(c.code, []), c.next)
  {
    hide DeallocCode, CastCode, Flat;
    if arm.None? then Chunk([], [], n)
    else
      var b := CastCode(CanonicalAbi.CastsDown(Flat(arm.value), slots), xs[..|Flat(arm.value)|], n);
      Then(b, DeallocCode(g, what, arm.value, b.outs, b.next))
  }

  /** The variant's instruction takes the discriminant and the blocks of its cases. */
  lemma VariantTaken(g: Gen, what: Deallocate, arms: seq<Option<Ty>>, s: Snapshot, blockInputs: seq<Var>)
    requires ArmsWellFormed(arms) && AllCleanArms(arms) && 1 + |FlatArms(arms)| <= |s.stack|
    requires ArmsBelow(arms, FlatArms(arms)) && blockInputs == Top(s, |FlatArms(arms)|)
    ensures |Top(s, 1 + |FlatArms(arms)|)| == 1 + |FlatArms(arms)| && |blockInputs| == |FlatArms(arms)|
    ensures var a := DeallocArmsCode(g, what, arms, FlatArms(arms), blockInputs, s.next);
            var w := Waiting(Drop(s, |FlatArms(arms)|), a.blocks, [], a.next);
            var i := GuestDeallocateVariant(|arms|);
            CanEmit(w, i) && Emitted(w, i)
            == Did(s, 1 + |FlatArms(arms)|, DeallocVariantCode(g, what, arms, Top(s, 1 + |FlatArms(arms)|), s.next))
  {
    hide DeallocArmsCode, Did, Waiting, Emitted, FlatArms, Drop, Top, CleanArm, CanEmit;
    var k := |FlatArms(arms)|;
    var xs := Top(s, 1 + k);
    TopLength(s, 1 + k);
    TopLength(s, k);
    DrainTail(s, k);
    var a := DeallocArmsCode(g, what, arms, FlatArms(arms), blockInputs, s.next);
    EmitTake(Drop(s, k), GuestDeallocateVariant(|arms|), a.blocks, [], a.next);
    DrainTake(s, k, Take(GuestDeallocateVariant(|arms|), [xs[0]], a.next, a.blocks, []));
  }

  // ----- how the loops of `call` unfold -----

  lemma ArgsToMemoryStep(g: Gen, tys: seq<Ty>, i: nat, a: Var, pos: nat, n: Var)
    requires AllWellFormed(tys) && i < |tys|
    ensures var o := FieldOffset(g.p, tys[i], pos);
            var c := ArgStoreCode(g, tys[i], i, a, o, n);
            ArgsToMemoryCode(g, tys[i..], i, a, pos, n)
            == Then(c, ArgsToMemoryCode(g, tys[i + 1..], i + 1, a, o + Size(g.p, tys[i]), c.next))
  {
    hide ArgStoreCode, FieldOffset, Size;
    assert tys[i..][0] == tys[i] && tys[i..][1..] == tys[i + 1..];
  }

  lemma ArgsToMemoryEnd(g: Gen, tys: seq<Ty>, i: nat, a: Var, pos: nat, n: Var)
    requires tys == []
    ensures ArgsToMemoryCode(g, tys, i, a, pos, n) == Chunk([], [], n)
  {
  }

  lemma ArgsFlatStep(g: Gen, tys: seq<Ty>, i: nat, n: Var)
    requires AllWellFormed(tys) && i < |tys|
    ensures var c := ArgFlatCode(g, tys[i], i, n);
            ArgsFlatCode(g, tys[i..], i, n) == Both(c, ArgsFlatCode(g, tys[i + 1..], i + 1, c.next))
  {
    hide ArgFlatCode;
    assert tys[i..][0] == tys[i] && tys[i..][1..] == tys[i + 1..];
  }

  lemma ArgsFlatEnd(g: Gen, tys: seq<Ty>, i: nat, n: Var)
    requires tys == []
    ensures ArgsFlatCode(g, tys, i, n) == Chunk([], [], n)
  {
  }

  lemma ParamsFlatStep(g: Gen, tys: seq<Ty>, i: nat, offset: nat, n: Var)
    requires AllWellFormed(tys) && i < |tys|
    ensures var c := ParamCode(g, tys[i], offset, n);
            ParamsFlatCode(g, tys[i..], offset, n) == Both(c, ParamsFlatCode(g, tys[i + 1..], offset + |Flat(tys[i])|, c.next))
  {
    hide ParamCode, Flat;
    assert tys[i..][0] == tys[i] && tys[i..][1..] == tys[i + 1..];
  }

  lemma ParamsFlatEnd(g: Gen, tys: seq<Ty>, offset: nat, n: Var)
    requires tys == []
    ensures ParamsFlatCode(g, tys, offset, n) == Chunk([], [], n)
  {
  }

  lemma LowerRepeatStep(g: Gen, e: Ty, xs: seq<Var>, i: nat, n: Var)
    requires WellFormed(e) && i < |xs|
    ensures var c := LowerCode(g, e, xs[i], n);
            LowerRepeatCode(g, e, xs[i..], n) == Both(c, LowerRepeatCode(g, e, xs[i + 1..], c.next))
  {
    hide LowerCode;
    assert xs[i..][0] == xs[i] && xs[i..][1..] == xs[i + 1..];
  }

  lemma LowerRepeatEnd(g: Gen, e: Ty, xs: seq<Var>, n: Var)
    requires WellFormed(e) && xs == []
    ensures LowerRepeatCode(g, e, xs, n) == Chunk([], [], n)
  {
  }

  lemma ReadWordsStep(k: nat, a: Var, off: nat, n: Var)
    requires k > 0
    ensures var c := One(LoadFrom(I32Load, off), [a], n);
            ReadWordsCode(k, a, off, n) == Both(c, ReadWordsCode(k - 1, a, off + 4, c.next))
  {
  }

  lemma ReadWordsEnd(a: Var, off: nat, n: Var)
    ensures ReadWordsCode(0, a, off, n) == Chunk([], [], n)
  {
  }

  lemma GetArgsStep(i: nat, k: nat, n: Var)
    requires k > 0
    ensures var x := One(GetArg(i), [], n);
            GetArgsCode(i, k, n) == Both(x, GetArgsCode(i + 1, k - 1, x.next))
  {
  }

  lemma GetArgsEnd(i: nat, n: Var)
    ensures GetArgsCode(i, 0, n) == Chunk([], [], n)
  {
  }

  /** The instructions that fetch an element, key or value. */
  lemma IterArity(i: Inst)
    requires i.IterElem? || i.IterMapKey? || i.IterMapValue?
    ensures OperandsLen(i) == 0 && ResultsLen(i) == 1 && BlocksLen(i) == 0 && PayloadsLen(i) == 0
    ensures OperandsLen(IterBasePointer) == 0 && ResultsLen(IterBasePointer) == 1
    ensures BlocksLen(IterBasePointer) == 0 && PayloadsLen(IterBasePointer) == 0
  {
  }

  lemma FieldFits(tys: seq<Ty>, i: nat)
    requires AllWellFormed(tys) && i < |tys| && |FlatFields(tys)| <= MAX_FLAT_PARAMS
    ensures WellFormed(tys[i]) && LowerFits(tys[i]) && LiftFits(tys[i])
    ensures FlatTypes(tys[i], MAX_FLAT_PARAMS) == Some(Flat(tys[i]))
  {
    FieldFlat(tys, i);
    FlatFits(tys[i]);
  }

  lemma RetPtrLast(f: Func)
    requires RetPtr(f)
    ensures |WasmSignature(GuestImport, f).params| > 0
  {
  }

  lemma ResultWords(v: AbiVariant, f: Func)
    ensures !RetPtr(f) ==> |WasmSignature(v, f).results| == |ResultFlat(f)|
    ensures RetPtr(f) ==> |WasmSignature(v, f).results| == (if v == GuestImport then 0 else 1)
  {
  }

  lemma SmallResult(v: AbiVariant, f: Func, g: Gen, xs: seq<Var>, n: Var)
    requires f.Valid() && !RetPtr(f) && |xs| == |f.Results()|
    ensures LowerResultCode(g, v, f, xs, n)
         == if f.result.Some? then LowerCode(g, f.result.value, xs[0], n) else Chunk([], [], n)
  {
  }

  predicate AllCleanArms(arms: seq<Option<Ty>>) {
    forall a | a in arms :: CleanArm(a)
  }

  /** Nothing is emitted for borrowed handles, nor for owned ones unless handles are dropped too. */
  lemma OtherHandlesAreSkipped(p: Prim, what: Deallocate)
    ensures p == Borrow || (OwnedHandle(p) && !what.Handles()) ==> !NeedsDeallocate(Scalar(p), what)
  {
  }

  lemma VariantWords(vk: VariantKind, arms: seq<Option<Ty>>)
    requires LiftFits(Variant(vk, arms))
    ensures FlatTypes(Variant(vk, arms), MAX_FLAT_PARAMS) == Some([I32] + FlatArms(arms))
  {
    hide FlatArms;
  }

  lemma ScalarIs(g: Gen, p: Prim, xs: seq<Var>, n: Var)
    requires |xs| == 1
    ensures LiftFits(Scalar(p)) && |Flat(Scalar(p))| == 1 && LiftCode(g, Scalar(p), xs, n) == One(ScalarLift(p), xs, n)
  {
  }

  lemma FlagsFlat(c: nat)
    ensures LowerFits(Flags(c)) && LiftFits(Flags(c)) && |Flat(Flags(c))| == FlagWords(c)
  {
  }

  lemma WriteWordsStep(xs: seq<Var>, a: Var, off: nat, n: Var)
    requires xs != []
    ensures var i := |xs| - 1;
            var c := One(StoreTo(I32Store, off + 4 * i), [xs[i], a], n);
            WriteWordsCode(xs, a, off, n) == Then(c, WriteWordsCode(xs[..i], a, off, c.next))
  {
  }

  lemma WriteWordsEnd(xs: seq<Var>, a: Var, off: nat, n: Var)
    requires xs == []
    ensures WriteWordsCode(xs, a, off, n) == Chunk([], [], n)
  {
  }

  lemma FreeFieldsStep(g: Gen, what: Deallocate, fs: seq<Ty>, i: nat, a: Var, off: nat, pos: nat, n: Var)
    requires AllWellFormed(fs) && i < |fs|
    ensures var o := FieldOffset(g.p, fs[i], pos);
            var c := FreeCode(g, what, fs[i], a, off + o, n);
            FreeFieldsCode(g, what, fs[i..], a, off, pos, n)
            == Then(c, FreeFieldsCode(g, what, fs[i + 1..], a, off, o + Size(g.p, fs[i]), c.next))
  {
    hide FreeCode, FieldOffset, Size;
    assert fs[i..][0] == fs[i] && fs[i..][1..] == fs[i + 1..];
  }

  lemma FreeFieldsEnd(g: Gen, what: Deallocate, fs: seq<Ty>, a: Var, off: nat, pos: nat, n: Var)
    requires fs == []
    ensures FreeFieldsCode(g, what, fs, a, off, pos, n) == Chunk([], [], n)
  {
  }

  lemma ReadFieldsStep(g: Gen, fs: seq<Ty>, i: nat, a: Var, off: nat, pos: nat, n: Var)
    requires AllWellFormed(fs) && i < |fs|
    ensures var o := FieldOffset(g.p, fs[i], pos);
            var c := ReadCode(g, fs[i], a, off + o, n);
            ReadFieldsCode(g, fs[i..], a, off, pos, n)
            == Both(c, ReadFieldsCode(g, fs[i + 1..], a, off, o + Size(g.p, fs[i]), c.next))
  {
    hide ReadCode, FieldOffset, Size;
    assert fs[i..][0] == fs[i] && fs[i..][1..] == fs[i + 1..];
  }

  lemma ReadFieldsEnd(g: Gen, fs: seq<Ty>, a: Var, off: nat, pos: nat, n: Var)
    requires fs == []
    ensures ReadFieldsCode(g, fs, a, off, pos, n) == Chunk([], [], n)
  {
  }

  lemma WriteFieldsStep(g: Gen, fs: seq<Ty>, xs: seq<Var>, i: nat, a: Var, off: nat, pos: nat, n: Var)
    requires |xs| == |fs| && AllWellFormed(fs) && i < |fs|
    ensures var o := FieldOffset(g.p, fs[i], pos);
            var c := WriteCode(g, fs[i], xs[i], a, off + o, n);
            WriteFieldsCode(g, fs[i..], xs[i..], a, off, pos, n)
            == Then(c, WriteFieldsCode(g, fs[i + 1..], xs[i + 1..], a, off, o + Size(g.p, fs[i]), c.next))
  {
    hide WriteCode, FieldOffset, Size;
    assert fs[i..][0] == fs[i] && fs[i..][1..] == fs[i + 1..] && xs[i..][0] == xs[i] && xs[i..][1..] == xs[i + 1..];
  }

  lemma WriteFieldsEnd(g: Gen, fs: seq<Ty>, xs: seq<Var>, a: Var, off: nat, pos: nat, n: Var)
    requires fs == [] && xs == []
    ensures WriteFieldsCode(g, fs, xs, a, off, pos, n) == Chunk([], [], n)
  {
  }

  function PayloadCode(g: Gen, u: Ty, x: Var, slots: seq<WasmType>, n: Var): (c: Chunk)
    requires WellFormed(u) && Below(Flat(u), slots)
    ensures n <= c.next && |c.outs| == |Flat(u)|
  {
    hide LowerCode, CastCode, Flat;
    var l := LowerCode(g, u, x, n);
    Then(l, CastCode(CanonicalAbi.CastsUp(Flat(u), slots), l.outs, l.next))
  }

  function Padded(tag: Chunk, c: Chunk, slots: seq<WasmType>): Chunk
    requires |c.outs| <= |slots|
  {
    if |c.outs| == |slots| then Both(tag, c)
    else Both(Both(tag, c), One(ConstZero(slots[|c.outs|..]), [], c.next))
  }

  lemma RecordFlat(rk: RecordKind, fs: seq<Ty>)
    requires LiftFits(Record(rk, fs))
    ensures FlatTypes(Record(rk, fs), MAX_FLAT_PARAMS) == Some(FlatFields(fs))
    ensures forall f | f in fs :: LiftFits(f) && FlatTypes(f, MAX_FLAT_PARAMS) == Some(Flat(f))
  {
  }

  lemma {:induction false} RepeatLength(e: Ty, n: nat)
    ensures |FlatRepeat(e, n)| == Times(n, |Flat(e)|)
  {
    hide Flat;
    if n > 0 {
      RepeatLength(e, n - 1);
      TimesStep(n, |Flat(e)|);
    }
  }
}
