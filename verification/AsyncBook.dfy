/** The C# support for asynchronous exports, seen by one task: status words, what waits, and
    what code that runs does to it. */
module AsyncBook {
  import opened Wrappers
  import opened CoreTypes

  // ----- status words -----

  const TWO_28: nat := 0x1000_0000

  type Word = n: nat | n < TWO_32

  /** The low four bits of a status word. */
  function State(status: Word): nat {
    status % 16
  }

  /** The other bits. */
  function Count(status: Word): nat {
    status / 16
  }

  /** The other bits of an event's word, which is made signed before it is shifted. */
  function WaitableCount(code: Word): int {
    (if code < TWO_32 / 2 then code else code - TWO_32) / 16
  }

  /** A count arrives by way of the callback as it does at once exactly below 2^27. */
  lemma CountsAgree(status: Word)
    ensures WaitableCount(status) == Count(status) <==> Count(status) < TWO_28 / 2
    ensures Count(status) < TWO_28
    ensures Count(status) >= TWO_28 / 2 ==> WaitableCount(status) == Count(status) - TWO_28 < 0
  {
  }

  const BLOCKED: Word := 0xFFFF_FFFF

  /** `CallbackCode.Wait` below the handle of the set to wait for, in 32 bits. */
  function WaitCode(handle: nat): nat {
    2 + (handle * 16) % TWO_32
  }

  /** The code decodes to its handle exactly for handles below 2^28, and is never taken
      for Exit. */
  lemma WaitCodeDecodes(handle: nat)
    ensures WaitCode(handle) / 16 == handle <==> handle < TWO_28
    ensures WaitCode(handle) < TWO_32 && State(WaitCode(handle)) == 2
  {
    if handle < TWO_28 {
      assert (handle * 16) % TWO_32 == handle * 16;
    } else {
      assert (handle * 16) % TWO_32 < TWO_32;
    }
    LowBits(handle);
  }

  /** The first handle that is lost: its code is that of handle zero. */
  lemma FirstLostHandle()
    ensures WaitCode(TWO_28) == WaitCode(0) == 2 && WaitCode(TWO_28) / 16 != TWO_28
  {
  }

  lemma LowBits(handle: nat)
    ensures ((handle * 16) % TWO_32) % 16 == 0
  {
    var q := (handle * 16) / TWO_32;
    assert handle * 16 == q * TWO_32 + (handle * 16) % TWO_32;
    assert (handle * 16) % TWO_32 == 16 * (handle - q * TWO_28);
  }

  // ----- state -----

  type Handle = nat
  type TaskId = nat
  type EndId = nat

  /** A pending operation: the task to resolve, and for futures and streams the end it is on. */
  datatype Info = Info(task: TaskId, end: Option<EndId>)

  datatype TaskResult = Done(count: int) | Faulted

  /** A reader or writer: its handle, zero once taken; whether the other side is gone. */
  datatype End = End(handle: Handle, dropped: bool, canDrop: bool)

  /** Decoded from an event code, a waitable and its status word. */
  datatype Event = Event(isSubtask: bool, waitable: Handle, code: Word) {
    predicate IsDropped() {
      !isSubtask && State(code) == 1
    }

    predicate IsCompleted() {
      if isSubtask then State(code) == 2 else State(code) == 0
    }
  }

  /** What resumed code does: it starts reads, writes and calls; `status` is the host's answer. */
  datatype Action = Read(end: EndId, status: Word) | Write(end: EndId, status: Word) | Call(status: Word)

  /** One step of a run: code of a task runs, or an event arrives and code is resumed. */
  datatype Occasion = Runs(me: nat, actions: seq<Action>) | Arrives(me: nat, event: Event, resume: seq<Action>) {
    function Does(): seq<Action> {
      if Runs? then actions else resume
    }
  }

  datatype Started = Pending(task: TaskId) | Finished(task: TaskId) | AlreadyTaken | OtherSideGone | Refused | NotImplemented

  datatype Answer = Exit | Wait(handle: Handle) | Failed

  /** The number that the callback returns to the host. */
  function Code(a: Answer): nat
    requires !a.Failed?
  {
    if a.Exit? then 0 else WaitCode(a.handle)
  }

  /** The host can tell all answers apart. */
  lemma AnswersDiffer(a: Answer, b: Answer)
    requires !a.Failed? && !b.Failed? && (a.Wait? ==> a.handle < TWO_28) && (b.Wait? ==> b.handle < TWO_28)
    ensures Code(a) == Code(b) <==> a == b
  {
    if a.Wait? { WaitCodeDecodes(a.handle); }
    if b.Wait? { WaitCodeDecodes(b.handle); }
  }

  // ----- what a task sees -----

  /** What waits in the set of one task, and what all tasks share. */
  datatype Book = Book(waiting: map<Handle, Info>, ends: map<EndId, End>, next: TaskId, results: map<TaskId, TaskResult>,
                       calls: seq<EndId>, resolved: seq<TaskId>)

  /** A new task waits for `w`. */
  function Joins(b: Book, w: Handle, end: Option<EndId>): Book {
    b.(waiting := b.waiting[w := Info(b.next, end)], next := b.next + 1)
  }

  /** A new task is finished at once. */
  function Finishes(b: Book, count: int): Book {
    b.(results := b.results[b.next := Done(count)], resolved := b.resolved + [b.next], next := b.next + 1)
  }

  /** What becomes of the host's answer to a read or a write. */
  function Takes(b: Book, e: EndId, status: Word): Book
    requires e in b.ends
  {
    if status == BLOCKED then Joins(b, b.ends[e].handle, Some(e))
    else if State(status) == 0 then Finishes(b, Count(status))
    else b
  }

  /** A read or, if `mark`, a write. */
  function Starts(b: Book, e: EndId, status: Word, mark: bool): Book
    requires e in b.ends
  {
    var end := b.ends[e];
    if end.handle == 0 || end.dropped then b
    else
      var c := b.(calls := b.calls + [e]);
      if end.handle in b.waiting then c
      else Takes(if mark then c.(ends := c.ends[e := end.(canDrop := true)]) else c, e, status)
  }

  function Calls(b: Book, status: Word): Book {
    if State(status) == 0 || State(status) == 1 then (if status / 16 in b.waiting then b else Joins(b, status / 16, None))
    else if State(status) == 2 then Finishes(b, 0)
    else b
  }

  /** Code only uses readers and writers that exist. */
  predicate Known(ends: map<EndId, End>, a: Action) {
    a.Call? || a.end in ends
  }

  predicate AllKnown(ends: map<EndId, End>, actions: seq<Action>) {
    forall a | a in actions :: Known(ends, a)
  }

  function Acts(b: Book, a: Action): (r: Book)
    requires Known(b.ends, a)
    ensures r.ends.Keys == b.ends.Keys
  {
    match a
    case Read(e, status) => Starts(b, e, status, false)
    case Write(e, status) => Starts(b, e, status, true)
    case Call(status) => Calls(b, status)
  }

  function ActsAll(b: Book, actions: seq<Action>): (r: Book)
    requires AllKnown(b.ends, actions)
    ensures r.ends.Keys == b.ends.Keys
    decreases |actions|
  {
    if actions == [] then b
    else
      assert actions[0] in actions;
      var c := Acts(b, actions[0]);
      assert forall a | a in actions[1..] :: a in actions && Known(b.ends, a);
      ActsAll(c, actions[1..])
  }

  /** An event for an operation of the task, that tells of its end. */
  predicate Expected(waiting: map<Handle, Info>, e: Event) {
    e.waitable in waiting && (e.IsCompleted() || e.IsDropped()) && (e.IsDropped() ==> waiting[e.waitable].end.Some?)
  }

  /** By code: a call that returned, or a read or write that completed or, if it is on an end,
      whose other side was dropped.  A call is never taken for dropped. */
  lemma EventsThatEnd(waiting: map<Handle, Info>, e: Event)
    ensures Expected(waiting, e) <==>
              e.waitable in waiting
              && (if e.isSubtask then e.code % 16 == 2
                  else e.code % 16 == 0 || (e.code % 16 == 1 && waiting[e.waitable].end.Some?))
    ensures e.IsDropped() ==> !e.isSubtask
  {
  }

  /** The ends once an event has told of a drop. */
  function Marked(ends: map<EndId, End>, waiting: map<Handle, Info>, e: Event): (r: map<EndId, End>)
    requires Expected(waiting, e)
    ensures waiting[e.waitable].end.Some? && waiting[e.waitable].end.value in ends ==> r.Keys == ends.Keys
  {
    var end := waiting[e.waitable].end;
    if e.IsDropped() && end.value in ends then ends[end.value := ends[end.value].(dropped := true)] else ends
  }

  /** The event's operation is over and its task resolved. */
  function Arrived(b: Book, e: Event): (r: Book)
    requires Expected(b.waiting, e)
    ensures r.ends.Keys == b.ends.Keys
  {
    var t := b.waiting[e.waitable].task;
    b.(waiting := b.waiting - {e.waitable}, ends := Marked(b.ends, b.waiting, e),
       results := b.results[t := if e.IsDropped() then Faulted else Done(WaitableCount(e.code))], resolved := b.resolved + [t])
  }

  // ----- what code does, all in all -----

  /** The end can be used: its handle is there, and no event told that the other side is gone. */
  predicate Usable(ends: map<EndId, End>, e: EndId) {
    e in ends && ends[e].handle != 0 && !ends[e].dropped
  }

  /** The ends of the reads and writes that reach the host, in order: those that can be used. */
  function HostCalls(ends: map<EndId, End>, actions: seq<Action>): seq<EndId> {
    if actions == [] then [] else HostCall(ends, actions[0]) + HostCalls(ends, actions[1..])
  }

  function HostCall(ends: map<EndId, End>, a: Action): seq<EndId> {
    if !a.Call? && Usable(ends, a.end) then [a.end] else []
  }

  /** The action waits for the host, or is refused because its handle is waited for already. */
  predicate Blocks(ends: map<EndId, End>, a: Action) {
    if a.Call? then a.status % 16 < 2 else Usable(ends, a.end) && a.status == 0xFFFF_FFFF
  }

  function WaitsOn(ends: map<EndId, End>, a: Action): Handle
    requires Known(ends, a)
  {
    if a.Call? then a.status / 16 else ends[a.end].handle
  }

  function EndOf(a: Action): Option<EndId> {
    if a.Call? then None else Some(a.end)
  }

  /** The handles that are waited for once `actions` have run. */
  function WaitedFor(ends: map<EndId, End>, hs: set<Handle>, actions: seq<Action>): set<Handle>
    requires AllKnown(ends, actions)
  {
    hs + set a | a in actions && Blocks(ends, a) :: WaitsOn(ends, a)
  }

  /** Whether the host finishes an action at once, with handles `hs` waited for. */
  predicate AtOnce(ends: map<EndId, End>, hs: set<Handle>, a: Action) {
    if a.Call? then a.status % 16 == 2
    else Usable(ends, a.end) && ends[a.end].handle !in hs && a.status != 0xFFFF_FFFF && a.status % 16 == 0
  }

  /** The counts of the actions that are finished at once, in order. */
  function Counts(ends: map<EndId, End>, hs: set<Handle>, actions: seq<Action>): seq<int>
    requires AllKnown(ends, actions)
    decreases |actions|
  {
    if actions == [] then []
    else
      assert actions[0] in actions;
      var a := actions[0];
      (if AtOnce(ends, hs, a) then [if a.Call? then 0 else a.status / 16] else [])
      + Counts(ends, if Blocks(ends, a) then hs + {WaitsOn(ends, a)} else hs, actions[1..])
  }

  /** Handles stay and nothing is marked but what may be dropped. */
  ghost predicate SameUse(ends: map<EndId, End>, after: map<EndId, End>) {
    after.Keys == ends.Keys && forall e | e in ends :: after[e].handle == ends[e].handle && after[e].dropped == ends[e].dropped
  }

  lemma UseKept(b: Book, a: Action)
    requires Known(b.ends, a)
    ensures SameUse(b.ends, Acts(b, a).ends)
  {
  }

  lemma {:induction false} SameUseSame(ends: map<EndId, End>, after: map<EndId, End>, hs: set<Handle>, actions: seq<Action>)
    requires SameUse(ends, after) && AllKnown(ends, actions)
    ensures AllKnown(after, actions) && HostCalls(after, actions) == HostCalls(ends, actions)
    ensures WaitedFor(after, hs, actions) == WaitedFor(ends, hs, actions) && Counts(after, hs, actions) == Counts(ends, hs, actions)
    decreases |actions|
  {
    assert forall a | a in actions :: Known(after, a) && (Blocks(after, a) <==> Blocks(ends, a)) && WaitsOn(after, a) == WaitsOn(ends, a);
    if actions != [] {
      assert actions[0] in actions;
      SameUseSame(ends, after, hs, actions[1..]);
      SameUseSame(ends, after, if Blocks(ends, actions[0]) then hs + {WaitsOn(ends, actions[0])} else hs, actions[1..]);
    }
  }

  /** The host is called for exactly the reads and writes on ends that are there and not gone. */
  lemma {:induction false} CallsAre(b: Book, actions: seq<Action>)
    requires AllKnown(b.ends, actions)
    ensures ActsAll(b, actions).calls == b.calls + HostCalls(b.ends, actions)
    decreases |actions|
  {
    hide Acts, HostCalls;
    if actions == [] {
      NoCalls(b.ends);
    } else {
      var a, c := actions[0], Acts(b, actions[0]);
      assert a in actions;
      UseKept(b, a);
      SameUseSame(b.ends, c.ends, {}, actions[1..]);
      CallsAre(c, actions[1..]);
      OneCall(b, actions);
    }
  }

  lemma NoCalls(ends: map<EndId, End>)
    ensures HostCalls(ends, []) == []
  {
  }

  lemma OneCall(b: Book, actions: seq<Action>)
    requires actions != [] && Known(b.ends, actions[0])
    ensures Acts(b, actions[0]).calls + HostCalls(b.ends, actions[1..]) == b.calls + HostCalls(b.ends, actions)
  {
    hide Acts, HostCall;
    CallOf(b, actions[0]);
    var one, rest := HostCall(b.ends, actions[0]), HostCalls(b.ends, actions[1..]);
    assert (b.calls + one) + rest == b.calls + (one + rest);
  }

  lemma CallOf(b: Book, a: Action)
    requires Known(b.ends, a)
    ensures Acts(b, a).calls == b.calls + HostCall(b.ends, a)
  {
    assert b.calls + [] == b.calls;
  }

  /** Exactly the handles of blocked operations are waited for in addition. */
  lemma {:induction false} WaitingIs(b: Book, actions: seq<Action>)
    requires AllKnown(b.ends, actions)
    ensures ActsAll(b, actions).waiting.Keys == WaitedFor(b.ends, b.waiting.Keys, actions)
    decreases |actions|
  {
    hide Acts;
    if actions != [] {
      var a, c := actions[0], Acts(b, actions[0]);
      assert a in actions && actions == [a] + actions[1..];
      UseKept(b, a);
      OneWait(b, a);
      SameUseSame(b.ends, c.ends, c.waiting.Keys, actions[1..]);
      WaitingIs(c, actions[1..]);
      assert WaitedFor(b.ends, b.waiting.Keys, actions)
          == WaitedFor(b.ends, if Blocks(b.ends, a) then b.waiting.Keys + {WaitsOn(b.ends, a)} else b.waiting.Keys, actions[1..]);
    }
  }

  lemma OneWait(b: Book, a: Action)
    requires Known(b.ends, a)
    ensures Acts(b, a).waiting.Keys == if Blocks(b.ends, a) then b.waiting.Keys + {WaitsOn(b.ends, a)} else b.waiting.Keys
  {
  }

  /** Whatever waited still does, and what is new was begun by one of the actions. */
  lemma {:induction false} WaitingGrows(b: Book, actions: seq<Action>)
    requires AllKnown(b.ends, actions)
    ensures var r := ActsAll(b, actions);
            && b.next <= r.next
            && (forall h | h in b.waiting :: h in r.waiting && r.waiting[h] == b.waiting[h])
            && forall h | h in r.waiting && h !in b.waiting ::
                 b.next <= r.waiting[h].task < r.next
                 && exists a :: a in actions && Blocks(b.ends, a) && WaitsOn(b.ends, a) == h && EndOf(a) == r.waiting[h].end
    decreases |actions|
  {
    hide Acts, Blocks;
    if actions != [] {
      var a, c := actions[0], Acts(b, actions[0]);
      assert a in actions;
      UseKept(b, a);
      OneMoreWaits(b, a);
      BlocksKept(b.ends, c.ends, actions);
      RestKnown(c.ends, actions);
      WaitingGrows(c, actions[1..]);
      var r := ActsAll(b, actions);
      forall h | h in r.waiting && h !in b.waiting
        ensures exists x :: x in actions && Blocks(b.ends, x) && WaitsOn(b.ends, x) == h && EndOf(x) == r.waiting[h].end
      {
        if h !in c.waiting {
          var x :| x in actions[1..] && Blocks(c.ends, x) && WaitsOn(c.ends, x) == h && EndOf(x) == r.waiting[h].end;
          assert x in actions;
        }
      }
    }
  }

  lemma BlocksKept(ends: map<EndId, End>, after: map<EndId, End>, actions: seq<Action>)
    requires SameUse(ends, after) && AllKnown(ends, actions)
    ensures AllKnown(after, actions)
    ensures forall a | a in actions :: (Blocks(after, a) <==> Blocks(ends, a)) && WaitsOn(after, a) == WaitsOn(ends, a)
  {
    assert forall a | a in actions :: Known(ends, a);
  }

  lemma RestKnown(ends: map<EndId, End>, actions: seq<Action>)
    requires AllKnown(ends, actions) && actions != []
    ensures AllKnown(ends, actions[1..])
  {
    assert forall a | a in actions[1..] :: a in actions;
  }

  lemma OneMoreWaits(b: Book, a: Action)
    requires Known(b.ends, a)
    ensures var r := Acts(b, a);
            && b.next <= r.next && (forall h | h in b.waiting :: h in r.waiting && r.waiting[h] == b.waiting[h])
            && forall h | h in r.waiting && h !in b.waiting ::
                 b.next <= r.waiting[h].task < r.next && Blocks(b.ends, a) && WaitsOn(b.ends, a) == h && EndOf(a) == r.waiting[h].end
  {
  }

  /** `r` records tasks from `next` on with these counts in addition. */
  ghost predicate Records(b: Book, r: Book, counts: seq<int>) {
    && b.resolved <= r.resolved && |r.resolved| == |b.resolved| + |counts|
    && (forall t | t in b.results && t < b.next :: t in r.results && r.results[t] == b.results[t])
    && forall i | 0 <= i < |counts| :: Records1(b, r, |b.resolved| + i, counts[i])
  }

  predicate Records1(b: Book, r: Book, i: nat, count: int) {
    i < |r.resolved| && b.next <= r.resolved[i] < r.next && r.resolved[i] in r.results && r.results[r.resolved[i]] == Done(count)
  }

  /** Exactly the operations that the host finishes at once are recorded, in order and with
      their counts. */
  lemma {:induction false} ResultsAre(b: Book, actions: seq<Action>)
    requires AllKnown(b.ends, actions)
    ensures Records(b, ActsAll(b, actions), Counts(b.ends, b.waiting.Keys, actions)) && b.next <= ActsAll(b, actions).next
    decreases |actions|
  {
    hide Acts, Records, AtOnce, Blocks;
    if actions == [] {
      NoRecords(b);
    } else {
      var a, c := actions[0], Acts(b, actions[0]);
      assert a in actions;
      UseKept(b, a);
      OneWait(b, a);
      OneRecord(b, a);
      SameUseSame(b.ends, c.ends, c.waiting.Keys, actions[1..]);
      ResultsAre(c, actions[1..]);
      RecordsTwice(b, c, ActsAll(b, actions), if AtOnce(b.ends, b.waiting.Keys, a) then [if a.Call? then 0 else a.status / 16] else [],
                   Counts(c.ends, c.waiting.Keys, actions[1..]));
    }
  }

  lemma NoRecords(b: Book)
    ensures Records(b, b, [])
  {
  }

  lemma OneRecord(b: Book, a: Action)
    requires Known(b.ends, a)
    ensures Records(b, Acts(b, a), if AtOnce(b.ends, b.waiting.Keys, a) then [if a.Call? then 0 else a.status / 16] else [])
    ensures b.next <= Acts(b, a).next
  {
  }

  lemma RecordsTwice(b: Book, c: Book, r: Book, xs: seq<int>, ys: seq<int>)
    requires Records(b, c, xs) && Records(c, r, ys) && b.next <= c.next <= r.next
    ensures Records(b, r, xs + ys)
  {
    forall i | 0 <= i < |xs + ys| ensures Records1(b, r, |b.resolved| + i, (xs + ys)[i]) {
      if i < |xs| {
        assert Records1(b, c, |b.resolved| + i, xs[i]);
      } else {
        assert Records1(c, r, |c.resolved| + (i - |xs|), ys[i - |xs|]);
      }
    }
  }

  /** No end is taken or marked gone, and one may be dropped exactly if it might before or was
      written with nothing waiting for it. */
  lemma {:induction false} EndsAre(b: Book, actions: seq<Action>)
    requires AllKnown(b.ends, actions)
    ensures SameUse(b.ends, ActsAll(b, actions).ends)
    ensures forall e | e in b.ends ::
              ActsAll(b, actions).ends[e].canDrop <==> b.ends[e].canDrop || Written(b.ends, b.waiting.Keys, actions, e)
    decreases |actions|
  {
    hide Acts, Blocks, SameUse, Usable;
    if actions != [] {
      var a, c := actions[0], Acts(b, actions[0]);
      assert a in actions;
      UseKept(b, a);
      OneWait(b, a);
      SameUseSame(b.ends, c.ends, c.waiting.Keys, actions[1..]);
      EndsAre(c, actions[1..]);
      UseTwice(b.ends, c.ends, ActsAll(b, actions).ends);
      forall e | e in b.ends ensures ActsAll(b, actions).ends[e].canDrop <==> b.ends[e].canDrop || Written(b.ends, b.waiting.Keys, actions, e) {
        OneMark(b, a, e);
        WrittenKept(b.ends, c.ends, c.waiting.Keys, actions[1..], e);
      }
    } else {
      UseSame(b.ends);
    }
  }

  lemma UseSame(ends: map<EndId, End>)
    ensures SameUse(ends, ends)
  {
  }

  lemma UseTwice(ends: map<EndId, End>, mid: map<EndId, End>, after: map<EndId, End>)
    requires SameUse(ends, mid) && SameUse(mid, after)
    ensures SameUse(ends, after)
  {
  }

  /** A write of `e` reaches the host while nothing waits for its handle. */
  predicate Written(ends: map<EndId, End>, hs: set<Handle>, actions: seq<Action>, e: EndId)
    requires AllKnown(ends, actions)
    decreases |actions|
  {
    actions != [] &&
    (assert actions[0] in actions;
     var a := actions[0];
     || (a.Write? && a.end == e && Usable(ends, e) && ends[e].handle !in hs)
     || Written(ends, if Blocks(ends, a) then hs + {WaitsOn(ends, a)} else hs, actions[1..], e))
  }

  lemma OneMark(b: Book, a: Action, e: EndId)
    requires Known(b.ends, a) && e in b.ends
    ensures Acts(b, a).ends[e].canDrop
       <==> b.ends[e].canDrop || (a.Write? && a.end == e && Usable(b.ends, e) && b.ends[e].handle !in b.waiting.Keys)
  {
  }

  lemma {:induction false} WrittenKept(ends: map<EndId, End>, after: map<EndId, End>, hs: set<Handle>, actions: seq<Action>, e: EndId)
    requires SameUse(ends, after) && AllKnown(ends, actions)
    ensures AllKnown(after, actions) && (Written(after, hs, actions, e) <==> Written(ends, hs, actions, e))
    decreases |actions|
  {
    assert forall a | a in actions :: Known(after, a) && (Blocks(after, a) <==> Blocks(ends, a)) && WaitsOn(after, a) == WaitsOn(ends, a);
    if actions != [] {
      assert actions[0] in actions;
      WrittenKept(ends, after, if Blocks(ends, actions[0]) then hs + {WaitsOn(ends, actions[0])} else hs, actions[1..], e);
    }
  }

  /** After an event, something is left to wait for exactly if another operation was waiting
      or the resumed code began one. */
  lemma LeftToWaitFor(b: Book, e: Event, resume: seq<Action>)
    requires Expected(b.waiting, e) && AllKnown(b.ends, resume)
    ensures ActsAll(Arrived(b, e), resume).waiting != map[]
       <==> b.waiting.Keys != {e.waitable} || exists a :: a in resume && Blocks(Marked(b.ends, b.waiting, e), a)
  {
    hide Blocks, ActsAll, Marked;
    var c := Arrived(b, e);
    WaitingIs(c, resume);
    var r := ActsAll(c, resume);
    assert r.waiting != map[] <==> r.waiting.Keys != {};
    assert c.waiting.Keys == b.waiting.Keys - {e.waitable};
    if a :| a in resume && Blocks(c.ends, a) {
      assert WaitsOn(c.ends, a) in r.waiting.Keys;
    }
    if h :| h in b.waiting.Keys && h != e.waitable {
      assert h in r.waiting.Keys;
    }
  }
}
