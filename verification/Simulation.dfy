/** How runs of emitted code compose. */
module Simulation {
  import opened Wrappers
  import opened CoreTypes
  import opened Values
  import opened CanonicalAbi
  import opened Code
  import opened Codegen

  /** Variables below `n` keep their values. */
  ghost predicate Agrees(env: Env, later: Env, n: Var) {
    forall x | x in env && x < n :: x in later && later[x] == env[x]
  }

  /** Running `c` from `s` has exactly the effect `o`: its results are in `c.outs`, and
      no variable below `n` has changed. */
  ghost predicate Yields(k: Ctx, c: Chunk, n: Var, s: Machine, o: Outcome<Effect>) {
    var r := Run(k, c.code, s);
    match o
    case Ok(e) =>
      r.Ok? && r.value.w == e.w && r.value.returned == s.returned
      && Lookup(r.value.env, c.outs) == Ok(e.outs) && Agrees(s.env, r.value.env, n)
    case OutOfMemory => r.OutOfMemory?
    case Trap => r.Trap?
  }

  lemma {:induction false} RunConcat(k: Ctx, a: seq<Stmt>, b: seq<Stmt>, s: Machine)
    ensures Run(k, a + b, s) == if Run(k, a, s).Ok? then Run(k, b, Run(k, a, s).value) else Run(k, a, s)
    decreases |a|
  {
    hide Step;
    if a == [] {
      assert a + b == b;
    } else {
      assert (a + b)[0] == a[0] && (a + b)[1..] == a[1..] + b;
      if Step(k, a[0], s).Ok? {
        RunConcat(k, a[1..], b, Step(k, a[0], s).value);
      }
    }
  }

  lemma {:induction false} LookupKeeps(env: Env, later: Env, xs: seq<Var>, n: Var)
    requires Agrees(env, later, n) && AllBelow(xs, n) && Lookup(env, xs).Ok?
    ensures Lookup(later, xs) == Lookup(env, xs)
  {
    if xs != [] {
      assert xs[0] in xs && forall x | x in xs[1..] :: x in xs;
      LookupKeeps(env, later, xs[1..], n);
    }
  }

  lemma {:induction false} LookupConcat(env: Env, xs: seq<Var>, ys: seq<Var>)
    requires Lookup(env, xs).Ok? && Lookup(env, ys).Ok?
    ensures Lookup(env, xs + ys) == Ok(Lookup(env, xs).value + Lookup(env, ys).value)
  {
    if xs == [] {
      assert xs + ys == ys;
      assert [] + Lookup(env, ys).value == Lookup(env, ys).value;
    } else {
      assert (xs + ys)[0] == xs[0] && (xs + ys)[1..] == xs[1..] + ys;
      LookupConcat(env, xs[1..], ys);
      assert [env[xs[0]]] + (Lookup(env, xs[1..]).value + Lookup(env, ys).value)
          == ([env[xs[0]]] + Lookup(env, xs[1..]).value) + Lookup(env, ys).value;
    }
  }

  lemma {:induction false} LookupAt(env: Env, xs: seq<Var>, i: nat)
    requires Lookup(env, xs).Ok? && i < |xs|
    ensures xs[i] in env && env[xs[i]] == Lookup(env, xs).value[i]
  {
    if i > 0 {
      LookupAt(env, xs[1..], i - 1);
    }
  }

  lemma {:induction false} LookupAll(env: Env, xs: seq<Var>, ops: seq<Operand>)
    requires |xs| == |ops|
    requires forall i | 0 <= i < |xs| :: xs[i] in env && env[xs[i]] == ops[i]
    ensures Lookup(env, xs) == Ok(ops)
  {
    if xs != [] {
      assert xs[0] in env && env[xs[0]] == ops[0];
      forall i | 0 <= i < |xs[1..]| ensures xs[1..][i] in env && env[xs[1..][i]] == ops[1..][i] {
        assert xs[i + 1] in env && env[xs[i + 1]] == ops[i + 1];
      }
      LookupAll(env, xs[1..], ops[1..]);
      assert ops == [ops[0]] + ops[1..];
    }
  }

  lemma LookupSlice(env: Env, xs: seq<Var>, i: nat, j: nat)
    requires Lookup(env, xs).Ok? && i <= j <= |xs|
    ensures Lookup(env, xs[i..j]) == Ok(Lookup(env, xs).value[i..j])
  {
    var ops := Lookup(env, xs).value;
    forall h | 0 <= h < |xs[i..j]| ensures xs[i..j][h] in env && env[xs[i..j][h]] == ops[i..j][h] {
      LookupAt(env, xs, i + h);
    }
    LookupAll(env, xs[i..j], ops[i..j]);
  }

  lemma {:induction false} BindFresh(env: Env, n: Var, ops: seq<Operand>)
    ensures var e := Bind(env, Fresh(n, |ops|), ops);
            Agrees(env, e, n) && Lookup(e, Fresh(n, |ops|)) == Ok(ops)
  {
    var xs := Fresh(n, |ops|);
    BindAt(env, xs, ops);
    LookupAll(Bind(env, xs, ops), xs, ops);
  }

  lemma {:induction false} BindAt(env: Env, xs: seq<Var>, ops: seq<Operand>)
    requires |xs| == |ops| && forall i, j | 0 <= i < j < |xs| :: xs[i] != xs[j]
    ensures forall i | 0 <= i < |xs| :: xs[i] in Bind(env, xs, ops) && Bind(env, xs, ops)[xs[i]] == ops[i]
    ensures forall x | x in env && x !in xs :: x in Bind(env, xs, ops) && Bind(env, xs, ops)[x] == env[x]
    decreases |xs|
  {
    if xs != [] {
      var e1 := env[xs[0] := ops[0]];
      BindAt(e1, xs[1..], ops[1..]);
      var e := Bind(e1, xs[1..], ops[1..]);
      assert xs[0] !in xs[1..];
      forall i | 0 <= i < |xs| ensures xs[i] in e && e[xs[i]] == ops[i] {
        if i > 0 { assert xs[i] == xs[1..][i - 1]; }
      }
    }
  }

  // ----- composing chunks -----

  lemma RunSingle(k: Ctx, st: Stmt, s: Machine)
    ensures Run(k, [st], s) == Step(k, st, s)
  {
    hide Step;
    if Step(k, st, s).Ok? {
      assert [st][1..] == [];
      assert Run(k, [], Step(k, st, s).value) == Step(k, st, s);
    }
  }

  lemma YieldsTake(k: Ctx, i: Inst, args: seq<Var>, m: Var, blocks: seq<CodeBlock>, payloads: seq<Var>,
                   n: Var, s: Machine, xs: seq<Operand>, o: Outcome<Effect>)
    requires n <= m && !i.Return? && Lookup(s.env, args) == Ok(xs)
    requires Perform(k, Take(i, args, m, blocks, payloads).code[0], xs, s) == o
    requires o.Ok? ==> |o.value.outs| == ResultsLen(i)
    ensures Yields(k, Take(i, args, m, blocks, payloads), n, s, o)
  {
    hide Perform;
    hide Run;
    var c := Take(i, args, m, blocks, payloads);
    RunSingle(k, c.code[0], s);
    if o.Ok? {
      BindFresh(s.env, m, o.value.outs);
    }
  }

  lemma YieldsOne(k: Ctx, i: Inst, args: seq<Var>, m: Var, n: Var, s: Machine, xs: seq<Operand>, o: Outcome<Effect>)
    requires n <= m && !i.Return? && BlocksLen(i) == 0 && !i.VariantLower? && !i.VariantLift? && !i.GuestDeallocateVariant?
    requires Lookup(s.env, args) == Ok(xs) && |xs| == OperandsLen(i)
    requires Simple(k, i, xs, s.w) == o
    requires o.Ok? ==> |o.value.outs| == ResultsLen(i)
    ensures Yields(k, One(i, args, m), n, s, o)
  {
    hide Simple;
    YieldsTake(k, i, args, m, [], [], n, s, xs, o);
  }

  /** The machine after a chunk that succeeded. */
  ghost function After(k: Ctx, c: Chunk, s: Machine): Machine {
    var r := Run(k, c.code, s);
    if r.Ok? then r.value else s
  }

  /** The effect of `a` then `b`, given `b`'s effect when `a` succeeds. */
  function Seq(a: Outcome<Effect>, b: Outcome<Effect>): Outcome<Effect> {
    if a.Ok? then b else a
  }

  function SeqBoth(a: Outcome<Effect>, b: Outcome<Effect>): Outcome<Effect> {
    if a.Ok? && b.Ok? then Ok(Effect(a.value.outs + b.value.outs, b.value.w)) else Seq(a, b)
  }

  lemma YieldsThen(k: Ctx, a: Chunk, b: Chunk, n: Var, s: Machine, oa: Outcome<Effect>, ob: Outcome<Effect>)
    requires Yields(k, a, n, s, oa) && n <= a.next
    requires oa.Ok? ==> Yields(k, b, a.next, After(k, a, s), ob)
    ensures Yields(k, Then(a, b), n, s, Seq(oa, ob))
  {
    hide Run;
    RunConcat(k, a.code, b.code, s);
  }

  lemma YieldsBoth(k: Ctx, a: Chunk, b: Chunk, n: Var, s: Machine, oa: Outcome<Effect>, ob: Outcome<Effect>)
    requires Yields(k, a, n, s, oa) && n <= a.next && Scoped(a)
    requires oa.Ok? ==> Yields(k, b, a.next, After(k, a, s), ob)
    ensures Yields(k, Both(a, b), n, s, SeqBoth(oa, ob))
  {
    hide Run;
    RunConcat(k, a.code, b.code, s);
    if oa.Ok? && ob.Ok? {
      var s1 := After(k, a, s);
      var s2 := Run(k, b.code, s1).value;
      LookupKeeps(s1.env, s2.env, a.outs, a.next);
      LookupConcat(s2.env, a.outs, b.outs);
    }
  }

  lemma YieldsNothing(k: Ctx, n: Var, s: Machine, xs: seq<Var>, ops: seq<Operand>)
    requires Lookup(s.env, xs) == Ok(ops)
    ensures Yields(k, Chunk([], xs, n), n, s, Ok(Effect(ops, s.w)))
  {
  }

  /** Reading a variable that an earlier chunk left alone. */
  lemma StillThere(k: Ctx, c: Chunk, n: Var, s: Machine, o: Outcome<Effect>, xs: seq<Var>, ops: seq<Operand>)
    requires Yields(k, c, n, s, o) && o.Ok?
    requires AllBelow(xs, n) && Lookup(s.env, xs) == Ok(ops)
    ensures Lookup(After(k, c, s).env, xs) == Ok(ops)
  {
    LookupKeeps(s.env, After(k, c, s).env, xs, n);
  }

  lemma CoresOf(xs: seq<Core>)
    ensures Cores(CoreOps(xs)) == Ok(xs)
  {
    assert Cores(CoreOps(xs)).value == xs;
  }

  lemma ValsOf(vs: seq<Val>)
    ensures Vals(ValOps(vs)) == Ok(vs)
  {
    assert Vals(ValOps(vs)).value == vs;
  }

  lemma CoreOpsConcat(a: seq<Core>, b: seq<Core>)
    ensures CoreOps(a + b) == CoreOps(a) + CoreOps(b)
  {
  }
}
