/** The table that names exported resources by small integers, reusing vacant slots. */
module RepTable {
  import opened Wrappers

  datatype Slot<+T> = Live(value: T) | Vacant(next: Option<nat>)

  /** Where the slots that `free` lists begin. */
  function Head(free: seq<nat>): Option<nat> {
    if free == [] then None else Some(free[0])
  }

  /** `free` is the chain of vacant slots: all of them, each once, each linked to the next. */
  ghost predicate Chained<T>(list: seq<Slot<T>>, free: seq<nat>) {
    && (forall i, j | 0 <= i < j < |free| :: free[i] != free[j])
    && (forall i | 0 <= i < |free| :: free[i] < |list| && list[free[i]] == Vacant(Head(free[i + 1..])))
    && (forall i | 0 <= i < |list| && list[i].Vacant? :: i in free)
  }

  /** The slots met by following the links from `at`, at most `steps` of them. */
  function Walk<T>(list: seq<Slot<T>>, at: Option<nat>, steps: nat): seq<nat>
    decreases steps
  {
    if steps == 0 || at.None? || at.value >= |list| || list[at.value].Live? then []
    else [at.value] + Walk(list, list[at.value].next, steps - 1)
  }

  /** Following the links visits exactly the chain, and then ends. */
  lemma {:induction false} WalkVisitsTheChain<T>(list: seq<Slot<T>>, free: seq<nat>, steps: nat)
    requires |free| <= steps
    requires forall i | 0 <= i < |free| :: free[i] < |list| && list[free[i]] == Vacant(Head(free[i + 1..]))
    ensures Walk(list, Head(free), steps) == free
  {
    if free != [] {
      var rest := free[1..];
      forall i | 0 <= i < |rest| ensures rest[i] < |list| && list[rest[i]] == Vacant(Head(rest[i + 1..])) {
        assert free[i + 1..][1..] == rest[i + 1..] && free[i + 2..] == rest[i + 1..];
        assert list[free[i + 1]] == Vacant(Head(free[i + 2..]));
      }
      WalkVisitsTheChain(list, rest, steps - 1);
      assert list[free[0]] == Vacant(Head(free[1..]));
    }
  }

  /** The live entries. */
  ghost function Entries<T>(list: seq<Slot<T>>): map<nat, T> {
    map i: nat | i < |list| && list[i].Live? :: list[i].value
  }

  function UpTo(n: nat): (s: set<nat>)
    ensures forall i: nat :: i in s <==> i < n
    ensures |s| == n
  {
    if n == 0 then {} else UpTo(n - 1) + {n - 1}
  }

  function Slots(free: seq<nat>): (s: set<nat>)
    ensures forall i :: i in s <==> i in free
  {
    if free == [] then {} else {free[0]} + Slots(free[1..])
  }

  lemma {:induction false} SlotsCounted(free: seq<nat>)
    requires forall i, j | 0 <= i < j < |free| :: free[i] != free[j]
    ensures |Slots(free)| == |free|
  {
    if free != [] {
      SlotsCounted(free[1..]);
      assert free[0] !in free[1..];
    }
  }

  /** Every slot is either live or vacant. */
  lemma Counted<T>(list: seq<Slot<T>>, free: seq<nat>)
    requires Chained(list, free)
    ensures |Entries(list)| + |free| == |list|
  {
    var live := Entries(list).Keys;
    forall i: nat ensures i in live + Slots(free) <==> i < |list| {
      if i in free {
        var j :| 0 <= j < |free| && free[j] == i;
      }
    }
    assert live + Slots(free) == UpTo(|list|);
    forall i | i in free ensures i !in live {
      var j :| 0 <= j < |free| && free[j] == i;
    }
    assert live !! Slots(free);
    SlotsCounted(free);
    assert |live + Slots(free)| == |live| + |Slots(free)|;
  }

  lemma EntryAdded<T>(list: seq<Slot<T>>, rep: nat, v: T)
    requires rep < |list|
    ensures Entries(list[rep := Live(v)]) == Entries(list)[rep := v]
  {
  }

  lemma EntryAppended<T>(list: seq<Slot<T>>, v: T)
    ensures Entries(list + [Live(v)]) == Entries(list)[|list| := v]
  {
  }

  lemma EntryRemoved<T>(list: seq<Slot<T>>, rep: nat, next: Option<nat>)
    requires rep < |list|
    ensures Entries(list[rep := Vacant(next)]) == Entries(list) - {rep}
  {
  }

  class RepTable<T> {
    var list: seq<Slot<T>>
    var firstVacant: Option<nat>

    /** The chain of vacant slots, and the largest number of entries ever live at once. */
    ghost var free: seq<nat>
    ghost var peak: nat

    ghost predicate Valid()
      reads this
    {
      && Chained(list, free) && firstVacant == Head(free)
      && |list| == peak
    }

    ghost function Contents(): map<nat, T>
      reads this
    {
      Entries(list)
    }

    constructor ()
      ensures Valid() && Contents() == map[] && peak == 0
    {
      list, firstVacant, free, peak := [], None, [], 0;
    }

    /** The new entry's id was not in use.  The list grows only when it is full, so that it
        is never longer than the largest number of entries that were live at once. */
    method Add(v: T) returns (rep: nat)
      requires Valid()
      modifies this
      ensures Valid() && rep !in old(Contents()) && Contents() == old(Contents())[rep := v]
      ensures peak == if |Contents()| > old(peak) then |Contents()| else old(peak)
    {
      Counted(list, free);
      if firstVacant.Some? {
        rep := firstVacant.value;
        Unlinked(list, free, v);
        EntryAdded(list, rep, v);
        firstVacant := list[rep].next;
        list := list[rep := Live(v)];
        free := free[1..];
      } else {
        rep := |list|;
        EntryAppended(list, v);
        list := list + [Live(v)];
        peak := peak + 1;
      }
      Counted(list, free);
    }

    /** `None` stands for the exceptions thrown for ids that are vacant or out of range. */
    method Get(rep: int) returns (v: Option<T>)
      requires Valid()
      ensures v == if rep in Contents() then Some(Contents()[rep]) else None
    {
      if 0 <= rep < |list| && list[rep].Live? {
        v := Some(list[rep].value);
      } else {
        v := None;
      }
    }

    method Remove(rep: int) returns (v: Option<T>)
      requires Valid()
      modifies this
      ensures Valid() && peak == old(peak)
      ensures v == if rep in old(Contents()) then Some(old(Contents())[rep]) else None
      ensures Contents() == if v.Some? then old(Contents()) - {rep} else old(Contents())
    {
      hide Entries, Chained;
      v := Get(rep);
      if v.Some? {
        LiveEntry(list, rep);
        Linked(list, free, rep);
        EntryRemoved(list, rep, firstVacant);
        list := list[rep := Vacant(firstVacant)];
        firstVacant := Some(rep);
        free := [rep] + free;
      }
    }
  }

  lemma LiveEntry<T>(list: seq<Slot<T>>, rep: nat)
    requires rep in Entries(list)
    ensures rep < |list| && list[rep].Live?
  {
  }

  lemma Unlinked<T>(list: seq<Slot<T>>, free: seq<nat>, v: T)
    requires Chained(list, free) && free != []
    ensures Chained(list[free[0] := Live(v)], free[1..]) && list[free[0]] == Vacant(Head(free[1..]))
  {
    hide Head;
    var rest := free[1..];
    var next := list[free[0] := Live(v)];
    forall i | 0 <= i < |rest| ensures rest[i] < |next| && next[rest[i]] == Vacant(Head(rest[i + 1..])) {
      assert free[i + 2..] == rest[i + 1..] && free[i + 1] != free[0];
      assert list[free[i + 1]] == Vacant(Head(free[i + 2..]));
    }
    forall i | 0 <= i < |next| && next[i].Vacant? ensures i in rest {
      assert i in free && i != free[0];
    }
  }

  lemma Linked<T>(list: seq<Slot<T>>, free: seq<nat>, rep: nat)
    requires Chained(list, free) && rep < |list| && list[rep].Live?
    ensures Chained(list[rep := Vacant(Head(free))], [rep] + free)
  {
    var next := list[rep := Vacant(Head(free))];
    var chain := [rep] + free;
    assert rep !in free;
    assert chain[1..] == free;
    forall i | 0 <= i < |chain| ensures chain[i] < |next| && next[chain[i]] == Vacant(Head(chain[i + 1..])) {
      if i > 0 {
        assert chain[i + 1..] == free[i..];
        assert list[free[i - 1]] == Vacant(Head(free[i - 1 + 1..]));
      }
    }
  }
}
