/** How many operands the flat `deallocate` leaves on the generator's stack, for every type. */
module DeallocStack {
  import opened Wrappers
  import opened Layout
  import opened DeallocCodegen

  function Popped(d: nat, n: nat): Option<nat> {
    if n <= d then Some(d - n) else None
  }

  /** The stack's depth after `deallocate(t)`, run at depth `d`; `None` where the
      generator panics: an empty stack, too many flat words, or `todo!`. */
  function Depth(t: Ty, d: nat): Option<nat>
    decreases t, 1
  {
    match t
    case Str | List(_) | Map(_) => Popped(d, 2)
    case Scalar(_) | Flags(_) | Enum(_) => Popped(d, 1)
    case Alias(u) => Depth(u, d)
    case FixedList(_, _) => None
    case Record(_, fs) =>
      if FlatTypes(t, MAX_FLAT_PARAMS).None? || |Flat(t)| > d then None
      else FieldsDepth(fs, d - |Flat(t)|)
    case Variant(_, arms) =>
      if FlatTypes(t, MAX_FLAT_PARAMS).None? || |Flat(t)| > d + 1 then None
      else
        var r := ArmsDepth(arms, d + 1 - |Flat(t)|);
        if r.None? then None else Popped(r.value, 1)
  }

  /** The words of every field are pushed again just before the field is freed. */
  function FieldsDepth(fs: seq<Ty>, d: nat): Option<nat>
    decreases fs, 0
  {
    if fs == [] then Some(d)
    else if FlatTypes(fs[0], MAX_FLAT_PARAMS).None? then None
    else
      var r := Depth(fs[0], d + |Flat(fs[0])|);
      if r.None? then None else FieldsDepth(fs[1..], r.value)
  }

  /** So are those of every case; what a case leaves stays under the next one. */
  function ArmsDepth(arms: seq<Option<Ty>>, d: nat): Option<nat>
    decreases arms, 0
  {
    if arms == [] then Some(d)
    else
      var r := ArmDepth(arms[0], d);
      if r.None? then None else ArmsDepth(arms[1..], r.value)
  }

  function ArmDepth(arm: Option<Ty>, d: nat): Option<nat>
    decreases arm, 0
  {
    if arm.None? then Some(d)
    else if FlatTypes(arm.value, MAX_FLAT_PARAMS).None? then None
    else Depth(arm.value, d + |Flat(arm.value)|)
  }

  // ----- what is left, exactly -----

  /** Words that are not consumed, over all flags of the type and all cases; flags without
      a flag count as one word too many. */
  function Excess(t: Ty): int
    decreases t, 1
  {
    match t
    case Alias(u) => Excess(u)
    case Record(_, fs) => FieldsExcess(fs)
    case Flags(n) => FlagWords(n) - 1
    case Variant(_, arms) => ArmsExcess(arms)
    case _ => 0
  }

  function FieldsExcess(fs: seq<Ty>): int
    decreases fs, 0
  {
    if fs == [] then 0 else Excess(fs[0]) + FieldsExcess(fs[1..])
  }

  function ArmsExcess(arms: seq<Option<Ty>>): int
    decreases arms, 0
  {
    if arms == [] then 0 else ArmExcess(arms[0]) + ArmsExcess(arms[1..])
  }

  function ArmExcess(arm: Option<Ty>): int
    decreases arm, 0
  {
    if arm.Some? then Excess(arm.value) else 0
  }

  /** How many operands below its own words freeing reaches for. */
  function Dip(t: Ty): nat
    decreases t, 1
  {
    match t
    case Alias(u) => Dip(u)
    case Record(_, fs) => FieldsDip(fs)
    case Flags(n) => if n == 0 then 1 else 0
    case Variant(_, arms) => Floor(ArmsDip(arms) - 1, -ArmsExcess(arms))
    case _ => 0
  }

  function Floor(a: int, b: int): nat {
    if a >= b && a >= 0 then a else if b >= 0 then b else 0
  }

  function FieldsDip(fs: seq<Ty>): nat
    decreases fs, 0
  {
    if fs == [] then 0 else Floor(Dip(fs[0]), FieldsDip(fs[1..]) - Excess(fs[0]))
  }

  function ArmsDip(arms: seq<Option<Ty>>): nat
    decreases arms, 0
  {
    if arms == [] then 0 else Floor(ArmDip(arms[0]), ArmsDip(arms[1..]) - ArmExcess(arms[0]))
  }

  function ArmDip(arm: Option<Ty>): nat
    decreases arm, 0
  {
    if arm.Some? then Dip(arm.value) else 0
  }

  /** With its words on top of `d` operands, freeing succeeds exactly if it meets no
      fixed-length list and finds enough operands; then it leaves exactly the excess. */
  lemma {:induction false} LeavesTheExcess(t: Ty, d: nat)
    requires LiftFits(t)
    ensures Depth(t, d + |Flat(t)|).Some? <==> Unfixed(t) && Dip(t) <= d
    ensures Depth(t, d + |Flat(t)|).Some? ==> Depth(t, d + |Flat(t)|).value == d + Excess(t)
    decreases t, 1
  {
    hide FlatFields, FlatArms, FieldsDepth, ArmsDepth, FieldsDip, ArmsDip, FieldsExcess, ArmsExcess;
    match t
    case Alias(u) => LeavesTheExcess(u, d);
    case Record(_, fs) => FieldsLeave(fs, d);
    case Variant(_, arms) => ArmsLeave(arms, d + 1);
    case _ =>
  }

  lemma {:induction false} FieldsLeave(fs: seq<Ty>, d: nat)
    requires forall f | f in fs :: LiftFits(f) && |Flat(f)| <= MAX_FLAT_PARAMS
    ensures FieldsDepth(fs, d).Some? <==> (forall f | f in fs :: Unfixed(f)) && FieldsDip(fs) <= d
    ensures FieldsDepth(fs, d).Some? ==> FieldsDepth(fs, d).value == d + FieldsExcess(fs)
    decreases fs, 0
  {
    hide Flat, LiftFits, Depth, Dip, Excess, Unfixed;
    if fs != [] {
      assert fs == [fs[0]] + fs[1..];
      LeavesTheExcess(fs[0], d);
      var r := Depth(fs[0], d + |Flat(fs[0])|);
      if r.Some? { FieldsLeave(fs[1..], r.value); }
    }
  }

  lemma {:induction false} ArmsLeave(arms: seq<Option<Ty>>, d: nat)
    requires forall a | a in arms :: ArmLiftFits(a)
    ensures ArmsDepth(arms, d).Some? <==> (forall a | a in arms :: ArmUnfixed(a)) && ArmsDip(arms) <= d
    ensures ArmsDepth(arms, d).Some? ==> ArmsDepth(arms, d).value == d + ArmsExcess(arms)
    decreases arms, 0
  {
    hide ArmLiftFits, ArmDepth, ArmDip, ArmExcess, ArmUnfixed;
    if arms != [] {
      assert arms == [arms[0]] + arms[1..];
      ArmLeaves(arms[0], d);
      var r := ArmDepth(arms[0], d);
      if r.Some? { ArmsLeave(arms[1..], r.value); }
    }
  }

  lemma {:induction false} ArmLeaves(arm: Option<Ty>, d: nat)
    requires ArmLiftFits(arm)
    ensures ArmDepth(arm, d).Some? <==> ArmUnfixed(arm) && ArmDip(arm) <= d
    ensures ArmDepth(arm, d).Some? ==> ArmDepth(arm, d).value == d + ArmExcess(arm)
    decreases arm, 0
  {
    if arm.Some? { LeavesTheExcess(arm.value, d); }
  }

  /** Freeing consumes the words of the type, no more and no fewer, exactly if it meets no
      fixed-length list, the words of all flags add up, and what they borrow is there. */
  lemma ConsumesItsWords(t: Ty, d: nat)
    requires LiftFits(t)
    ensures Depth(t, d + |Flat(t)|) == Some(d) <==> Unfixed(t) && Excess(t) == 0 && Dip(t) <= d
  {
    LeavesTheExcess(t, d);
  }

  /** Whatever the stack, freeing a type that succeeds meets no failing `unwrap` and no
      fixed-length list. */
  lemma {:induction false} SuccessFits(t: Ty, d: nat)
    requires Depth(t, d).Some?
    ensures LiftFits(t) && Unfixed(t)
    decreases t, 1
  {
    hide FlatFields, FlatArms, FieldsDepth, ArmsDepth;
    match t
    case Alias(u) => SuccessFits(u, d);
    case Record(_, fs) => FieldsSuccess(fs, d - |Flat(t)|);
    case Variant(_, arms) => ArmsSuccess(arms, d + 1 - |Flat(t)|);
    case _ =>
  }

  lemma {:induction false} FieldsSuccess(fs: seq<Ty>, d: nat)
    requires FieldsDepth(fs, d).Some?
    ensures forall f | f in fs :: LiftFits(f) && |Flat(f)| <= MAX_FLAT_PARAMS && Unfixed(f)
    decreases fs, 0
  {
    hide Flat, LiftFits, Depth, Unfixed;
    if fs != [] {
      assert fs == [fs[0]] + fs[1..];
      SuccessFits(fs[0], d + |Flat(fs[0])|);
      FieldsSuccess(fs[1..], Depth(fs[0], d + |Flat(fs[0])|).value);
    }
  }

  lemma {:induction false} ArmsSuccess(arms: seq<Option<Ty>>, d: nat)
    requires ArmsDepth(arms, d).Some?
    ensures forall a | a in arms :: ArmLiftFits(a) && ArmUnfixed(a)
    decreases arms, 0
  {
    hide ArmLiftFits, ArmDepth, ArmUnfixed;
    if arms != [] {
      assert arms == [arms[0]] + arms[1..];
      ArmSuccess(arms[0], d);
      ArmsSuccess(arms[1..], ArmDepth(arms[0], d).value);
    }
  }

  lemma {:induction false} ArmSuccess(arm: Option<Ty>, d: nat)
    requires ArmDepth(arm, d).Some?
    ensures ArmLiftFits(arm) && ArmUnfixed(arm)
    decreases arm, 0
  {
    if arm.Some? { SuccessFits(arm.value, d + |Flat(arm.value)|); }
  }

  // ----- whether a variant's instruction gets its discriminant -----

  /** The cases together leave nothing and reach for nothing. */
  predicate Level(arms: seq<Option<Ty>>) {
    ArmsExcess(arms) == 0 && ArmsDip(arms) == 0
  }

  /** Types without fixed-length lists in which every variant's instruction gets its own
      discriminant, not a word of flags. */
  predicate Clean(t: Ty): (r: bool)
    ensures r ==> Unfixed(t)
    decreases t
  {
    match t
    case Alias(u) => Clean(u)
    case FixedList(_, _) => false
    case Record(_, fs) => forall f | f in fs :: Clean(f)
    case Variant(_, arms) => Level(arms) && forall a | a in arms :: CleanArm(a)
    case _ => true
  }

  predicate CleanArm(arm: Option<Ty>): (r: bool)
    ensures r ==> ArmUnfixed(arm)
    decreases arm
  {
    arm.Some? ==> Clean(arm.value)
  }

  /** The cases run above the discriminant.  It is still there and on top after them exactly
      if they are level, and then it is so on every stack. */
  lemma LevelArmsStay(arms: seq<Option<Ty>>, d: nat)
    requires ArmsDepth(arms, d).Some?
    ensures ArmsDepth(arms, 0) == Some(0) <==> Level(arms)
    ensures Level(arms) ==> ArmsDepth(arms, d) == Some(d)
  {
    hide ArmsDepth, ArmsExcess, ArmsDip, ArmLiftFits, ArmUnfixed;
    ArmsSuccess(arms, d);
    ArmsLeave(arms, 0);
    ArmsLeave(arms, d);
  }

  /** No fixed-length list, and one word for every flags type. */
  predicate OneWord(t: Ty)
    decreases t
  {
    match t
    case Alias(u) => OneWord(u)
    case FixedList(_, _) => false
    case Record(_, fs) => forall f | f in fs :: OneWord(f)
    case Flags(n) => FlagWords(n) == 1
    case Variant(_, arms) => forall a | a in arms :: OneWordArm(a)
    case _ => true
  }

  predicate OneWordArm(arm: Option<Ty>)
    decreases arm
  {
    arm.Some? ==> OneWord(arm.value)
  }

  /** Such types are clean, and freeing them consumes their words on any stack. */
  lemma {:induction false} OneWordIsClean(t: Ty)
    requires OneWord(t)
    ensures Clean(t) && Excess(t) == 0 && Dip(t) == 0
    decreases t, 1
  {
    match t
    case Alias(u) => OneWordIsClean(u);
    case Record(_, fs) => OneWordFields(fs);
    case Variant(_, arms) => OneWordArms(arms);
    case _ =>
  }

  lemma {:induction false} OneWordFields(fs: seq<Ty>)
    requires forall f | f in fs :: OneWord(f)
    ensures (forall f | f in fs :: Clean(f)) && FieldsExcess(fs) == 0 && FieldsDip(fs) == 0
    decreases fs, 0
  {
    hide OneWord, Clean, Excess, Dip;
    if fs != [] {
      assert fs == [fs[0]] + fs[1..];
      OneWordIsClean(fs[0]);
      OneWordFields(fs[1..]);
    }
  }

  lemma {:induction false} OneWordArms(arms: seq<Option<Ty>>)
    requires forall a | a in arms :: OneWordArm(a)
    ensures (forall a | a in arms :: CleanArm(a)) && ArmsExcess(arms) == 0 && ArmsDip(arms) == 0
    decreases arms, 0
  {
    hide OneWordArm, CleanArm, ArmExcess, ArmDip;
    if arms != [] {
      assert arms == [arms[0]] + arms[1..];
      OneWordArmIsClean(arms[0]);
      OneWordArms(arms[1..]);
    }
  }

  lemma {:induction false} OneWordArmIsClean(arm: Option<Ty>)
    requires OneWordArm(arm)
    ensures CleanArm(arm) && ArmExcess(arm) == 0 && ArmDip(arm) == 0
    decreases arm, 0
  {
    if arm.Some? { OneWordIsClean(arm.value); }
  }

  /** A flags type of 33 flags is lowered to two words, of which freeing consumes one;
      next to a flags type without flags, the two add up. */
  lemma FlagsThatAreNotOneWord(d: nat)
    ensures |Flat(Flags(33))| == 2 && Depth(Flags(33), d + 2) == Some(d + 1)
    ensures Flat(Flags(0)) == [] && Depth(Flags(0), 0).None? && Depth(Flags(0), d + 1) == Some(d)
    ensures var t := Record(TupleType, [Flags(33), Flags(0)]);
            Clean(t) && |Flat(t)| == 2 && Depth(t, d + 2) == Some(d)
  {
    var t := Record(TupleType, [Flags(33), Flags(0)]);
    assert [Flags(33), Flags(0)][1..] == [Flags(0)] && [Flags(0)][1..] == [];
    assert FlatFields([Flags(33), Flags(0)]) == Flat(Flags(33)) + FlatFields([Flags(0)]);
    assert FlatFields([Flags(0)]) == Flat(Flags(0)) + FlatFields([]);
    assert FieldsDepth([Flags(0)], d + 1) == Some(d);
    assert FieldsDepth(t.fields, d) == Some(d);
  }

  /** A case without a flag takes the discriminant off the stack, and one of 33 flags leaves
      a word in its place: all words are consumed, and the instruction gets the wrong one.
      The other way around, all is well. */
  lemma CasesThatAreNotLevel(d: nat)
    ensures var arms := [Some(Flags(0)), Some(Flags(33))];
            && !Level(arms) && !Clean(Variant(VariantType, arms))
            && ArmsDepth(arms, 0).None? && ArmsDepth(arms, d + 1) == Some(d + 1)
    ensures var arms := [Some(Flags(33)), Some(Flags(0))];
            Level(arms) && Clean(Variant(VariantType, arms)) && ArmsDepth(arms, d) == Some(d)
  {
    var a, b := Some(Flags(0)), Some(Flags(33));
    assert [a, b][1..] == [b] && [b][1..] == [] && [b, a][1..] == [a] && [a][1..] == [];
    assert ArmDepth(a, d + 1) == Some(d) && ArmDepth(b, d) == Some(d + 1) && ArmDepth(a, 0).None?;
    assert ArmsExcess([b]) == 1 && ArmsExcess([a]) == -1 && ArmsDip([b]) == 0 && ArmsDip([a]) == 1;
    assert ArmsDepth([b], d) == Some(d + 1) && ArmsDepth([a], d + 1) == Some(d);
  }
}
