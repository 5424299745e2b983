/** The state shared by the generator and a backend, as a value, and what single
    steps do to it. */
module Snapshots {
  import opened Code
  import opened Codegen

  /** The generator's operand stack; the backend's current source, the sources of the
      enclosing blocks, the finished blocks and the payload names; the next variable. */
  datatype Snapshot = Snapshot(stack: seq<Var>, src: seq<Stmt>, storage: seq<seq<Stmt>>,
                               blocks: seq<CodeBlock>, payloads: seq<Var>, next: Var)

  /** Enough operands, blocks and payload names for an instruction. */
  predicate CanEmit(s: Snapshot, i: Inst) {
    OperandsLen(i) <= |s.stack| && BlocksLen(i) <= |s.blocks| && PayloadsLen(i) <= |s.payloads|
  }

  function Emitted(s: Snapshot, i: Inst): Snapshot
    requires CanEmit(s, i)
  {
    if i.VariantPayloadName? then
      s.(stack := s.stack + [s.next], payloads := s.payloads + [s.next], next := s.next + 1)
    else
      var a, b, c := |s.stack| - OperandsLen(i), |s.blocks| - BlocksLen(i), |s.payloads| - PayloadsLen(i);
      var outs := Fresh(s.next, ResultsLen(i));
      Snapshot(s.stack[..a] + outs, s.src + [Stmt(i, s.stack[a..], outs, s.blocks[b..], s.payloads[c..])],
               s.storage, s.blocks[..b], s.payloads[..c], s.next + ResultsLen(i))
  }

  function Opened(s: Snapshot): Snapshot {
    s.(src := [], storage := s.storage + [s.src])
  }

  function Closed(s: Snapshot, size: nat): Snapshot
    requires size <= |s.stack| && s.storage != []
  {
    var a, b := |s.stack| - size, |s.storage| - 1;
    s.(stack := s.stack[..a], src := s.storage[b], storage := s.storage[..b],
       blocks := s.blocks + [CodeBlock(s.src, s.stack[a..])])
  }

  /** `pops` operands were replaced by what `c` leaves, and `c`'s statements appended;
      every block and payload name opened on the way has been consumed. */
  function Did(s: Snapshot, pops: nat, c: Chunk): Snapshot
    requires pops <= |s.stack|
  {
    s.(stack := s.stack[..|s.stack| - pops] + c.outs, src := s.src + c.code, next := c.next)
  }

  function Push(s: Snapshot, x: Var): Snapshot {
    s.(stack := s.stack + [x])
  }

  function Top(s: Snapshot, n: nat): seq<Var>
    requires n <= |s.stack|
  {
    s.stack[|s.stack| - n..]
  }

  function Drop(s: Snapshot, n: nat): Snapshot
    requires n <= |s.stack|
  {
    s.(stack := s.stack[..|s.stack| - n])
  }

  /** Finished blocks, and payload names, waiting for their instruction. */
  function Waiting(s: Snapshot, blocks: seq<CodeBlock>, payloads: seq<Var>, next: Var): Snapshot {
    s.(blocks := s.blocks + blocks, payloads := s.payloads + payloads, next := next)
  }

  lemma EmitOne(s: Snapshot, i: Inst)
    requires CanEmit(s, i) && BlocksLen(i) == 0 && PayloadsLen(i) == 0 && !i.VariantPayloadName?
    ensures Emitted(s, i) == Did(s, OperandsLen(i), One(i, Top(s, OperandsLen(i)), s.next))
  {
    assert s.blocks[|s.blocks|..] == [] && s.blocks[..|s.blocks|] == s.blocks;
    assert s.payloads[|s.payloads|..] == [] && s.payloads[..|s.payloads|] == s.payloads;
  }

  /** A block-consuming instruction takes exactly the blocks and names that wait for it. */
  lemma EmitTake(s: Snapshot, i: Inst, blocks: seq<CodeBlock>, payloads: seq<Var>, next: Var)
    requires |blocks| == BlocksLen(i) && |payloads| == PayloadsLen(i) && OperandsLen(i) <= |s.stack| && !i.VariantPayloadName?
    ensures CanEmit(Waiting(s, blocks, payloads, next), i)
    ensures Emitted(Waiting(s, blocks, payloads, next), i)
         == Did(s, OperandsLen(i), Take(i, Top(s, OperandsLen(i)), next, blocks, payloads))
  {
    var w := Waiting(s, blocks, payloads, next);
    assert w.blocks[..|s.blocks|] == s.blocks && w.blocks[|s.blocks|..] == blocks;
    assert w.payloads[..|s.payloads|] == s.payloads && w.payloads[|s.payloads|..] == payloads;
  }

  lemma DidThen(s: Snapshot, pops: nat, a: Chunk, b: Chunk)
    requires pops <= |s.stack|
    ensures Did(Did(s, pops, a), |a.outs|, b) == Did(s, pops, Then(a, b))
  {
    assert (s.stack[..|s.stack| - pops] + a.outs)[..|s.stack| - pops] == s.stack[..|s.stack| - pops];
    assert (s.src + a.code) + b.code == s.src + (a.code + b.code);
  }

  lemma DidBoth(s: Snapshot, pops: nat, a: Chunk, b: Chunk)
    requires pops <= |s.stack|
    ensures Did(Did(s, pops, a), 0, b) == Did(s, pops, Both(a, b))
  {
    assert (s.stack[..|s.stack| - pops] + a.outs) + b.outs == s.stack[..|s.stack| - pops] + (a.outs + b.outs);
    assert (s.src + a.code) + b.code == s.src + (a.code + b.code);
  }

  lemma DidNothing(s: Snapshot)
    ensures Did(s, 0, Chunk([], [], s.next)) == s
  {
    assert s.stack[..|s.stack|] == s.stack && s.stack + [] == s.stack && s.src + [] == s.src;
  }

  /** A block opened, filled by `c` and closed with `c`'s results. */
  lemma BlockDone(s: Snapshot, c: Chunk)
    ensures Closed(Did(Opened(s), 0, c), |c.outs|) == Waiting(s, [CodeBlock(c.code, c.outs)], [], c.next)
  {
    var o := Did(Opened(s), 0, c);
    assert o.stack[..|s.stack|] == s.stack && o.stack[|s.stack|..] == c.outs;
    assert [] + c.code == c.code && s.payloads + [] == s.payloads;
    assert (s.storage + [s.src])[..|s.storage|] == s.storage;
  }

  /** Pushing operands that `b` then consumes. */
  lemma DidPushed(s: Snapshot, xs: seq<Var>, c: Chunk)
    ensures Did(s.(stack := s.stack + xs), |xs|, c) == Did(s, 0, c)
  {
    assert (s.stack + xs)[..|s.stack|] == s.stack == s.stack[..|s.stack|];
  }

  /** A case block: its payload name is taken, then it is filled by `c` and closed. */
  function Named(s: Snapshot): Snapshot {
    var o := Opened(s);
    o.(payloads := s.payloads + [s.next], next := s.next + 1)
  }

  lemma ArmDone(s: Snapshot, c: Chunk)
    ensures Closed(Did(Named(s), 0, c), |c.outs|) == Waiting(s, [CodeBlock(c.code, c.outs)], [s.next], c.next)
  {
    var o := Did(Named(s), 0, c);
    assert o.stack[..|s.stack|] == s.stack && o.stack[|s.stack|..] == c.outs;
    assert [] + c.code == c.code;
    assert (s.storage + [s.src])[..|s.storage|] == s.storage;
  }

  lemma WaitingMore(s: Snapshot, bs: seq<CodeBlock>, ps: seq<Var>, n: Var, cs: seq<CodeBlock>, qs: seq<Var>, m: Var)
    ensures Waiting(Waiting(s, bs, ps, n), cs, qs, m) == Waiting(s, bs + cs, ps + qs, m)
  {
    assert (s.blocks + bs) + cs == s.blocks + (bs + cs);
    assert (s.payloads + ps) + qs == s.payloads + (ps + qs);
  }

  lemma WaitingNone(s: Snapshot)
    ensures Waiting(s, [], [], s.next) == s
  {
    assert s.blocks + [] == s.blocks && s.payloads + [] == s.payloads;
  }

  lemma DrainDid(s: Snapshot, n: nat, c: Chunk)
    requires n <= |s.stack|
    ensures Did(Drop(s, n), 0, c) == Did(s, n, c)
  {
    assert Drop(s, n).stack[..|Drop(s, n).stack|] == s.stack[..|s.stack| - n];
  }

  /** A value left by `a`, an address left by `b` and popped again, then `c` on both. */
  lemma DidAddressed(s: Snapshot, a: Chunk, b: Chunk, c: Chunk)
    requires |b.outs| == 1 && c.outs == []
    ensures Did(Drop(Did(Did(s, 0, a), 0, b), 1), |a.outs|, c) == Did(s, 0, Then(Then(a, b), c))
    ensures Top(Did(Did(s, 0, a), 0, b), 1) == b.outs && Drop(Did(Did(s, 0, a), 0, b), 1).stack == s.stack + a.outs
  {
    var d := Did(Did(s, 0, a), 0, b);
    assert s.stack[..|s.stack|] == s.stack;
    assert d.stack == s.stack + a.outs + b.outs;
    assert d.stack[..|d.stack| - 1] == s.stack + a.outs;
    assert (s.stack + a.outs)[..|s.stack|] == s.stack;
    assert ((s.src + a.code) + b.code) + c.code == s.src + ((a.code + b.code) + c.code);
  }

  lemma DidNext(s: Snapshot, pops: nat, c: Chunk)
    requires pops <= |s.stack|
    ensures Did(s, pops, c).next == c.next && |Did(s, pops, c).stack| == |s.stack| - pops + |c.outs|
  {
  }

  lemma DidTop(s: Snapshot, c: Chunk)
    ensures |Did(s, 0, c).stack| >= |c.outs| && Top(Did(s, 0, c), |c.outs|) == c.outs
    ensures Did(s, 0, c).next == c.next
  {
    assert (s.stack[..|s.stack|] + c.outs)[|s.stack|..] == c.outs;
  }

  lemma TopNone(s: Snapshot)
    ensures Top(s, 0) == []
  {
  }

  lemma TopIs(s: Snapshot)
    requires s.stack != []
    ensures Top(s, 1) == [s.stack[|s.stack| - 1]]
  {
  }

  lemma OpenedIs(s: Snapshot)
    ensures Opened(s).next == s.next && Opened(s).storage != [] && Opened(s).stack == s.stack
  {
  }

  lemma DidOpen(s: Snapshot, c: Chunk)
    ensures Did(Opened(s), 0, c).storage != [] && |Did(Opened(s), 0, c).stack| == |s.stack| + |c.outs|
  {
  }

  lemma DidNamed(s: Snapshot, c: Chunk)
    ensures Did(Named(s), 0, c).storage != [] && |Did(Named(s), 0, c).stack| == |s.stack| + |c.outs|
  {
  }

  /** Opening a block and popping its payload name off the operand stack. */
  lemma OpenArm(s: Snapshot)
    ensures CanEmit(Opened(s), VariantPayloadName)
    ensures var e := Emitted(Opened(s), VariantPayloadName);
            e.stack != [] && Top(e, 1) == [s.next] && Drop(e, 1) == Named(s)
    ensures Named(s).next == s.next + 1 && Named(s).stack == s.stack
  {
    assert (s.stack + [s.next])[..|s.stack|] == s.stack;
  }

  lemma WaitingNext(s: Snapshot, bs: seq<CodeBlock>, ps: seq<Var>, n: Var)
    ensures Waiting(s, bs, ps, n).next == n && Waiting(s, bs, ps, n).stack == s.stack
  {
  }

  // ----- particular shapes -----

  lemma FixedTake(s: Snapshot, a: Var, i: Inst, w: Writer)
    requires s.stack != [] && BlocksLen(i) == 1 && PayloadsLen(i) == 0 && OperandsLen(i) == 2 && ResultsLen(i) == 0 && !i.VariantPayloadName?
    ensures var d := Waiting(s, [w.block], [], w.next);
            var e := d.(stack := d.stack + [a]);
            && CanEmit(e, i)
            && Emitted(e, i) == Did(s, 1, Take(i, [s.stack[|s.stack| - 1], a], w.next, [w.block], []))
  {
    var t := s.(stack := s.stack + [a]);
    EmitTake(t, i, [w.block], [], w.next);
    assert Top(t, 2) == [s.stack[|s.stack| - 1], a];
    assert t.stack[..|t.stack| - 2] == s.stack[..|s.stack| - 1];
  }

  lemma PushedTake(s: Snapshot, a: Var, i: Inst, w: Writer)
    requires BlocksLen(i) == 1 && PayloadsLen(i) == 0 && OperandsLen(i) == 1 && !i.VariantPayloadName?
    ensures var d := Waiting(s, [w.block], [], w.next);
            var e := d.(stack := d.stack + [a]);
            && CanEmit(e, i)
            && Emitted(e, i) == Did(s, 0, Take(i, [a], w.next, [w.block], []))
  {
    var t := s.(stack := s.stack + [a]);
    EmitTake(t, i, [w.block], [], w.next);
    assert Top(t, 1) == [a];
    DidPushed(s, [a], Take(i, [a], w.next, [w.block], []));
  }

  lemma WordsStart(s: Snapshot, l: Chunk)
    requires s.stack != []
    ensures Top(Did(s, 1, l), |l.outs|) == l.outs
  {
    assert Did(s, 1, l).stack[|s.stack| - 1..] == l.outs;
  }

  lemma DidLast(s: Snapshot, pops: nat, c: Chunk)
    requires pops <= |s.stack| && c.outs != []
    ensures var d := Did(s, pops, c);
            d.stack != [] && d.stack[|d.stack| - 1] == c.outs[|c.outs| - 1] && d.next == c.next
  {
  }

  /** Storing the length of a pair, then its pointer. */
  lemma PairStored(s: Snapshot, l: Chunk, st: Chunk, st2: Chunk)
    requires s.stack != [] && |l.outs| == 2 && st.outs == [] && st2.outs == []
    ensures var d := Did(s, 1, l);
            && |d.stack| >= 2 && d.stack[|d.stack| - 1] == l.outs[1] && d.next == l.next
            && var e := Did(d, 1, st);
               && e.stack != [] && e.stack[|e.stack| - 1] == l.outs[0] && e.next == st.next
               && Did(e, 1, st2) == Did(s, 1, Then(l, Then(st, st2)))
  {
    var base := s.stack[..|s.stack| - 1];
    var d := Did(s, 1, l);
    var e := Did(d, 1, st);
    assert d.stack == base + [l.outs[0], l.outs[1]];
    assert e.stack == base + [l.outs[0]];
    assert e.stack[..|e.stack| - 1] == base;
    assert (s.src + l.code) + st.code + st2.code == s.src + (l.code + (st.code + st2.code));
  }

  /** Storing the topmost of the words `xs`. */
  lemma WordStored(s: Snapshot, xs: seq<Var>, st: Chunk, rest: Chunk)
    requires xs != [] && |xs| <= |s.stack| && Top(s, |xs|) == xs && st.outs == []
    ensures var i := |xs| - 1;
            var d := Did(s, 1, st);
            && s.stack[|s.stack| - 1] == xs[i]
            && Top(d, i) == xs[..i] && d.next == st.next && |d.stack| == |s.stack| - 1
            && Did(d, i, rest) == Did(s, |xs|, Then(st, rest))
  {
    var i := |xs| - 1;
    var base := s.stack[..|s.stack| - |xs|];
    assert s.stack == base + xs && xs == xs[..i] + [xs[i]];
    assert Did(s, 1, st).stack == base + xs[..i];
    assert (s.src + st.code) + rest.code == s.src + (st.code + rest.code);
  }

  lemma PushedTop(s: Snapshot, xs: seq<Var>)
    ensures Top(s.(stack := s.stack + xs), |xs|) == xs
  {
  }

  /** The loop's address, emitted into a fresh block and popped again. */
  lemma BasePopped(s: Snapshot, a: Chunk)
    requires |a.outs| == 1
    ensures var d := Did(Opened(s), 0, a); d.stack != [] && Top(d, 1) == a.outs && Drop(d, 1).next == a.next
  {
    DidTop(Opened(s), a);
  }

  lemma BaseThen(s: Snapshot, a: Chunk, c: Chunk)
    requires |a.outs| == 1
    ensures Did(Opened(s), 0, a).stack != []
    ensures Did(Drop(Did(Opened(s), 0, a), 1), 0, c) == Did(Opened(s), 0, Then(a, c))
  {
    var o := Opened(s);
    DidTop(o, a);
    DrainDid(Did(o, 0, a), 1, c);
    DidThen(o, 0, a, c);
  }

  /** All results of `c`, gathered by one instruction. */
  lemma Gathered(s: Snapshot, pops: nat, c: Chunk, last: Chunk)
    requires pops <= |s.stack|
    ensures var d := Did(s, pops, c);
            && |c.outs| <= |d.stack| && Top(d, |c.outs|) == c.outs && d.next == c.next
            && Did(d, |c.outs|, last) == Did(s, pops, Then(c, last))
  {
    assert (s.stack[..|s.stack| - pops] + c.outs)[|s.stack| - pops..] == c.outs;
    DidThen(s, pops, c, last);
  }

  /** An operand left by `a` and popped again, then `c`. */
  lemma PoppedThen(s: Snapshot, a: Chunk, c: Chunk)
    requires |a.outs| == 1
    ensures var d := Did(s, 0, a);
            && d.stack != [] && Top(d, 1) == a.outs && Drop(d, 1).next == a.next
            && Drop(d, 1).stack == s.stack
            && Did(Drop(d, 1), 0, c) == Did(s, 0, Then(a, c))
  {
    DidTop(s, a);
    DrainDid(Did(s, 0, a), 1, c);
    DidThen(s, 0, a, c);
    assert s.stack[..|s.stack|] == s.stack;
    assert (s.stack + a.outs)[..|s.stack|] == s.stack;
  }

  /** `a` leaves nothing on the stack but defines `x`; after `c`, `x` is pushed. */
  lemma SpaceThen(s: Snapshot, a: Chunk, c: Chunk, x: Var)
    requires c.outs == []
    ensures var d := Did(Did(s, 0, Chunk(a.code, [], a.next)), 0, c);
            d.(stack := d.stack + [x]) == Did(s, 0, Chunk(a.code + c.code, [x], c.next))
  {
    assert s.stack[..|s.stack|] == s.stack && s.stack + [] == s.stack;
    assert (s.src + a.code) + c.code == s.src + (a.code + c.code);
  }

  /** `freed` leaves the operands `xs` where they are. */
  lemma FreedBelow(s: Snapshot, xs: seq<Var>, freed: Chunk)
    requires |xs| <= |s.stack| && Top(s, |xs|) == xs && freed.outs == []
    ensures Did(s, 0, freed).stack == s.stack && Top(Did(s, 0, freed), |xs|) == xs
  {
    assert s.stack[..|s.stack|] + [] == s.stack;
  }

  lemma FreedThen(s: Snapshot, k: nat, freed: Chunk, c: Chunk)
    requires k <= |s.stack| && freed.outs == []
    ensures Did(s, 0, freed).stack == s.stack && Did(Did(s, 0, freed), k, c) == Did(s, k, Then(freed, c))
  {
    assert s.stack[..|s.stack|] + [] == s.stack;
    assert (s.src + freed.code) + c.code == s.src + (freed.code + c.code);
  }

  /** An address left by `a` and popped again, then `c` on the operands below it. */
  lemma PoppedDrain(s: Snapshot, k: nat, a: Chunk, c: Chunk)
    requires k <= |s.stack| && |a.outs| == 1 && c.outs == []
    ensures Did(s, 0, a).stack != []
    ensures var d := Drop(Did(s, 0, a), 1);
            d.stack == s.stack && Top(d, k) == Top(s, k) && Did(d, k, c) == Did(s, k, Chunk(a.code + c.code, [], c.next))
  {
    var d := Drop(Did(s, 0, a), 1);
    assert s.stack[..|s.stack|] == s.stack;
    assert d.stack == s.stack;
    assert (s.src + a.code) + c.code == s.src + (a.code + c.code);
  }

  /** Like `PoppedDrain`, for an address that was never pushed but is at the end. */
  lemma AreaDone(s: Snapshot, k: nat, a: Chunk, c: Chunk, x: Var)
    requires k <= |s.stack| && c.outs == []
    ensures var d := Did(s.(src := s.src + a.code, next := a.next), k, c);
            d.(stack := d.stack + [x]) == Did(s, k, Chunk(a.code + c.code, [x], c.next))
  {
    assert s.stack[..|s.stack| - k] + [] == s.stack[..|s.stack| - k];
    assert (s.src + a.code) + c.code == s.src + (a.code + c.code);
  }

  /** Taking a variant's payload words from above its discriminant. */
  lemma DrainTail(s: Snapshot, k: nat)
    requires 1 + k <= |s.stack|
    ensures Top(s, k) == Top(s, 1 + k)[1..] && Top(Drop(s, k), 1) == [Top(s, 1 + k)[0]]
    ensures Drop(s, k).next == s.next && |Drop(s, k).stack| == |s.stack| - k
  {
  }

  lemma DrainTake(s: Snapshot, k: nat, c: Chunk)
    requires 1 + k <= |s.stack|
    ensures Did(Drop(s, k), 1, c) == Did(s, 1 + k, c)
  {
    assert Drop(s, k).stack[..|s.stack| - k - 1] == s.stack[..|s.stack| - (1 + k)];
  }

  lemma TopLength(s: Snapshot, n: nat)
    requires n <= |s.stack|
    ensures |Top(s, n)| == n
  {
  }

  lemma WaitingBlocks(s: Snapshot, bs: seq<CodeBlock>, n: Var, cs: seq<CodeBlock>, m: Var)
    ensures Waiting(Waiting(s, bs, [], n), cs, [], m) == Waiting(s, bs + cs, [], m)
  {
    WaitingMore(s, bs, [], n, cs, [], m);
    var none: seq<Var> := [];
    assert none + none == none;
  }

  // ----- whatever the stack -----

  /** Everything but the operands. */
  function Bare(s: Snapshot): Snapshot {
    s.(stack := [])
  }

  lemma BareDid(s: Snapshot, pops: nat, c: Chunk)
    requires pops <= |s.stack|
    ensures Bare(Did(s, pops, c)) == Did(Bare(s), 0, Chunk(c.code, [], c.next))
  {
  }

  lemma BareSame(s: Snapshot, r: Snapshot)
    requires r.stack == s.stack && Bare(r) == Bare(s)
    ensures r == s
  {
  }

  lemma BareWaiting(s: Snapshot, blocks: seq<CodeBlock>, n: Var)
    ensures Bare(Waiting(s, blocks, [], n)) == Waiting(Bare(s), blocks, [], n)
    ensures Waiting(s, blocks, [], n).stack == s.stack
  {
  }

  /** A block filled by `c`, whatever that leaves on the stack. */
  lemma BareBlock(s: Snapshot, r: Snapshot, c: Chunk)
    requires Bare(r) == Did(Bare(Opened(s)), 0, c) && c.outs == []
    ensures r.storage != [] && Bare(Closed(r, 0)) == Waiting(Bare(s), [CodeBlock(c.code, [])], [], c.next)
  {
    assert Bare(Opened(s)) == Opened(Bare(s));
    DidOpen(Bare(s), c);
    BlockDone(Bare(s), c);
    assert r.stack[|r.stack|..] == [] && r.stack[..|r.stack|] == r.stack;
    assert Bare(Closed(r, 0)) == Closed(Bare(r), 0);
  }

  /** From `s` to `r`, statements were added, `extra` blocks finished, and `depth` operands
      left, of which the first `keep` are the old ones. */
  predicate Kept(s: Snapshot, r: Snapshot, keep: nat, extra: nat, depth: nat) {
    && r.storage == s.storage && r.payloads == s.payloads && s.src <= r.src
    && s.blocks <= r.blocks && |r.blocks| == |s.blocks| + extra && |r.stack| == depth
    && keep <= |s.stack| && keep <= depth && r.stack[..keep] == s.stack[..keep]
  }

  lemma KeptStack(s: Snapshot, xs: seq<Var>, keep: nat)
    requires keep <= |s.stack| && keep <= |xs| && xs[..keep] == s.stack[..keep]
    ensures Kept(s, s.(stack := xs), keep, 0, |xs|)
  {
  }

  lemma DidKeeps(s: Snapshot, keep: nat, pops: nat, c: Chunk)
    requires keep + pops <= |s.stack|
    ensures Kept(s, Did(s, pops, c), keep, 0, |s.stack| - pops + |c.outs|)
  {
  }

  lemma KeptTwice(s: Snapshot, r: Snapshot, q: Snapshot, keep: nat, some: nat, more: nat, d: nat, e: nat)
    requires Kept(s, r, keep, some, d) && Kept(r, q, keep, more, e)
    ensures Kept(s, q, keep, some + more, e)
  {
  }

  /** Keeping everything, and ending as deep as before, changes no operand. */
  lemma KeptAll(s: Snapshot, r: Snapshot, keep: nat, extra: nat)
    requires Kept(s, r, |s.stack|, extra, |s.stack|) && keep <= |s.stack|
    ensures r.stack == s.stack && Kept(s, r, keep, extra, |s.stack|)
  {
    assert r.stack[..|s.stack|] == r.stack && s.stack[..|s.stack|] == s.stack;
    assert r.stack[..keep] == s.stack[..keep];
  }

  lemma BareIsDid(s: Snapshot, r: Snapshot, pops: nat, c: Chunk)
    requires pops <= |s.stack| && Kept(s, r, |s.stack| - pops, 0, |s.stack| - pops)
    requires Bare(r) == Did(Bare(s), 0, c) && c.outs == []
    ensures r == Did(s, pops, c)
  {
    assert r.stack[..|s.stack| - pops] == r.stack;
  }

  lemma BlockKept(s: Snapshot, r: Snapshot, keep: nat, d: nat)
    requires Kept(Opened(s), r, keep, 0, d)
    ensures r.storage != [] && Kept(s, Closed(r, 0), keep, 1, d)
  {
    assert (s.storage + [s.src])[..|s.storage|] == s.storage;
  }

  /** The blocks that were finished are the ones that the instruction takes. */
  lemma TakeKept(s: Snapshot, r: Snapshot, i: Inst, keep: nat, d: nat)
    requires Kept(s, r, keep, BlocksLen(i), d) && PayloadsLen(i) == 0 && !i.VariantPayloadName? && keep + OperandsLen(i) <= d
    ensures CanEmit(r, i) && Kept(s, Emitted(r, i), keep, 0, d - OperandsLen(i) + ResultsLen(i))
  {
  }
}
