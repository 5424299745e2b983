/** The C# support for asynchronous exports: which operations are pending, and what the
    callback answers. */
module AsyncSupport {
  import opened Wrappers
  import opened AsyncBook

  /** The operations that wait in set `h`. */
  function In(pending: map<Handle, map<Handle, Info>>, h: Handle): map<Handle, Info> {
    if h in pending then pending[h] else map[]
  }

  ghost predicate IsPending(pending: map<Handle, map<Handle, Info>>, h: Handle, w: Handle) {
    w in In(pending, h)
  }

  /** `place` says where every unresolved task waits; each waits in one place only. */
  ghost predicate Placed(pending: map<Handle, map<Handle, Info>>, place: map<TaskId, (Handle, Handle)>,
                         results: map<TaskId, TaskResult>, next: TaskId) {
    WaitsThere(pending, place) && OnePlace(pending, place) && AllKept(place, results, next)
  }

  ghost predicate WaitsThere(pending: map<Handle, map<Handle, Info>>, place: map<TaskId, (Handle, Handle)>) {
    forall t | t in place :: IsPending(pending, place[t].0, place[t].1) && In(pending, place[t].0)[place[t].1].task == t
  }

  ghost predicate OnePlace(pending: map<Handle, map<Handle, Info>>, place: map<TaskId, (Handle, Handle)>) {
    forall h: Handle, w: Handle | IsPending(pending, h, w) :: In(pending, h)[w].task in place && place[In(pending, h)[w].task] == (h, w)
  }

  /** Every task made so far waits or has its result, and none does both. */
  ghost predicate AllKept(place: map<TaskId, (Handle, Handle)>, results: map<TaskId, TaskResult>, next: TaskId) {
    && (forall t: TaskId :: t < next <==> t in place || t in results)
    && (forall t | t in place :: t !in results)
  }

  /** `p` is `pending` with `info` put under a waitable that had none. */
  ghost predicate Adds(pending: map<Handle, map<Handle, Info>>, p: map<Handle, map<Handle, Info>>, h: Handle, w: Handle, info: Info) {
    && (forall g: Handle, x: Handle :: IsPending(p, g, x) <==> IsPending(pending, g, x) || (g == h && x == w))
    && (forall g: Handle, x: Handle | IsPending(pending, g, x) :: In(p, g)[x] == In(pending, g)[x])
    && IsPending(p, h, w) && In(p, h)[w] == info
  }

  /** No call to the host was made on an end after an event reported the other side of it gone. */
  ghost predicate Quiet(calls: seq<EndId>, goneAt: map<EndId, nat>, ends: map<EndId, End>) {
    && (forall e | e in ends :: ends[e].dropped <==> e in goneAt)
    && (forall e, i | e in goneAt && goneAt[e] <= i < |calls| :: calls[i] != e)
    && (forall e | e in goneAt :: goneAt[e] <= |calls|)
  }

  /** Every result was recorded once. */
  ghost predicate Logged(resolved: seq<TaskId>, results: map<TaskId, TaskResult>) {
    && (forall t :: t in resolved <==> t in results)
    && (forall i, j | 0 <= i < j < |resolved| :: resolved[i] != resolved[j])
  }

  /** What has happened stays in the records. */
  ghost predicate Continues(calls0: seq<EndId>, gone0: map<EndId, nat>, resolved0: seq<TaskId>,
                            calls: seq<EndId>, goneAt: map<EndId, nat>, resolved: seq<TaskId>) {
    && calls0 <= calls && resolved0 <= resolved
    && (forall e | e in gone0 :: e in goneAt && goneAt[e] == gone0[e])
    && (forall e | e in goneAt && e !in gone0 :: goneAt[e] >= |calls0|)
  }

  /** Pending operations on ends are on ends that exist. */
  ghost predicate EndsKnown(pending: map<Handle, map<Handle, Info>>, ends: map<EndId, End>) {
    forall h: Handle, w: Handle | IsPending(pending, h, w) && In(pending, h)[w].end.Some? :: In(pending, h)[w].end.value in ends
  }

  /** Whatever waited still waits, where it was. */
  ghost predicate StillWaiting(before: map<TaskId, (Handle, Handle)>, after: map<TaskId, (Handle, Handle)>) {
    forall t | t in before :: t in after && after[t] == before[t]
  }

  /** Everything at one moment. */
  datatype Moment = Moment(pendingTasks: map<Handle, map<Handle, Info>>, contexts: map<nat, Handle>, ends: map<EndId, End>,
                           results: map<TaskId, TaskResult>, nextTask: TaskId, calls: seq<EndId>, resolved: seq<TaskId>)

  /** What waits in the set of task `me`. */
  function SetOf(contexts: map<nat, Handle>, pending: map<Handle, map<Handle, Info>>, me: nat): map<Handle, Info> {
    if me in contexts then In(pending, contexts[me]) else map[]
  }

  /** What task `me` sees. */
  function SeenBy(m: Moment, me: nat): Book {
    Book(SetOf(m.contexts, m.pendingTasks, me), m.ends, m.nextTask, m.results, m.calls, m.resolved)
  }

  /** No two tasks share a set, and every set is known. */
  ghost predicate Separate(contexts: map<nat, Handle>, pending: map<Handle, map<Handle, Info>>) {
    && (forall me | me in contexts :: contexts[me] in pending)
    && forall me, you | me in contexts && you in contexts && me != you :: contexts[me] != contexts[you]
  }

  /** Nothing happened to the sets of the other tasks. */
  ghost predicate OthersSame(contexts0: map<nat, Handle>, pending0: map<Handle, map<Handle, Info>>,
                             contexts: map<nat, Handle>, pending: map<Handle, map<Handle, Info>>, me: nat) {
    forall you: nat | you != me :: (you in contexts <==> you in contexts0) && SetOf(contexts, pending, you) == SetOf(contexts0, pending0, you)
  }

  /** One occasion of a run, between two moments: the task's code has done what its actions
      say, after the event's operation was over if there was one; the answer is Exit if nothing
      is left to wait for, and Wait if something is. */
  ghost predicate Follows(m: Moment, o: Occasion, answer: Option<Answer>, n: Moment) {
    && (o.Runs? || Expected(SeenBy(m, o.me).waiting, o.event) ==> OthersSame(m.contexts, m.pendingTasks, n.contexts, n.pendingTasks, o.me))
    && match o
       case Runs(me, actions) => answer.None? && AllKnown(m.ends, actions) && SeenBy(n, me) == ActsAll(SeenBy(m, me), actions)
       case Arrives(me, e, resume) =>
         answer.Some? && AllKnown(m.ends, resume)
         && if Expected(SeenBy(m, me).waiting, e) then
              var b := ActsAll(Arrived(SeenBy(m, me), e), resume);
              SeenBy(n, me) == b && (if b.waiting == map[] then answer.value.Exit? && me !in n.contexts
                                     else me in n.contexts && answer.value == Wait(n.contexts[me]))
            else answer.value.Failed? && n == m
  }

  class AsyncSupport {
    var pendingTasks: map<Handle, map<Handle, Info>>
    /** The waitable set of every task that has a context. */
    var contexts: map<nat, Handle>
    var ends: map<EndId, End>
    var results: map<TaskId, TaskResult>
    var nextTask: TaskId

    ghost var place: map<TaskId, (Handle, Handle)>
    ghost var hostCalls: seq<EndId>
    ghost var goneAt: map<EndId, nat>
    ghost var resolved: seq<TaskId>

    ghost predicate Valid()
      reads this
    {
      && Placed(pendingTasks, place, results, nextTask)
      && Quiet(hostCalls, goneAt, ends)
      && EndsKnown(pendingTasks, ends)
      && Logged(resolved, results)
      && Separate(contexts, pendingTasks)
    }

    /** What waits in the set of task `me`. */
    function Waiting(me: nat): map<Handle, Info>
      reads this
    {
      SetOf(contexts, pendingTasks, me)
    }

    ghost function Now(): Moment
      reads this
    {
      Moment(pendingTasks, contexts, ends, results, nextTask, hostCalls, resolved)
    }

    ghost function Seen(me: nat): Book
      reads this
    {
      SeenBy(Now(), me)
    }

    constructor (ends: map<EndId, End>)
      requires forall e | e in ends :: !ends[e].dropped
      ensures Valid() && this.ends == ends && pendingTasks == map[] && contexts == map[] && results == map[]
    {
      this.ends := ends;
      pendingTasks, contexts, results, nextTask := map[], map[], map[], 0;
      place, hostCalls, goneAt, resolved := map[], [], map[], [];
    }

    /** The host hands out a set that is not in use. */
    method NewSet() returns (h: Handle)
      ensures h !in pendingTasks
    {
      SomeUnused(pendingTasks.Keys);
      h :| h !in pendingTasks;
    }

    /** A new task of `me` waits for `w`; the set of `me` is made on first use. */
    method Join(me: nat, w: Handle, end: Option<EndId>) returns (task: TaskId)
      requires Valid() && w !in Waiting(me) && (end.Some? ==> end.value in ends)
      modifies this`contexts, this`pendingTasks, this`nextTask, this`place
      ensures Valid() && task == old(nextTask) && nextTask == old(nextTask) + 1
      ensures me in contexts && contexts == old(contexts)[me := contexts[me]]
      ensures if me in old(contexts) then contexts[me] == old(contexts)[me] else contexts[me] !in old(pendingTasks)
      ensures Waiting(me) == old(Waiting(me))[w := Info(task, end)] && StillWaiting(old(place), place)
      ensures Seen(me) == Joins(old(Seen(me)), w, end)
      ensures OthersSame(old(contexts), old(pendingTasks), contexts, pendingTasks, me)
    {
      hide Placed, EndsKnown, Quiet, Logged, Separate, OthersSame, SetOf, In;
      var h: Handle;
      if me in contexts { h := contexts[me]; } else { h := NewSet(); }
      task := nextTask;
      NewIsEmpty(contexts, pendingTasks, me, h);
      JoinPlaced(pendingTasks, place, results, nextTask, h, w, end);
      JoinKnown(pendingTasks, ends, h, w, Info(task, end));
      SetUpdated(contexts, pendingTasks, me, h, In(pendingTasks, h)[w := Info(task, end)]);
      nextTask := nextTask + 1;
      contexts := contexts[me := h];
      AddTaskToWaitables(h, w, Info(task, end));
      place := place[task := (h, w)];
    }

    method AddTaskToWaitables(h: Handle, w: Handle, info: Info)
      modifies this`pendingTasks
      ensures pendingTasks == old(pendingTasks)[h := In(old(pendingTasks), h)[w := info]]
    {
      var waitables := In(pendingTasks, h);
      pendingTasks := pendingTasks[h := waitables[w := info]];
    }

    /** A task that is finished as soon as it is made. */
    method FromResult(count: int, ghost me: nat) returns (task: TaskId)
      requires Valid()
      modifies this`results, this`nextTask, this`resolved
      ensures Valid() && resolved == old(resolved) + [task]
      ensures task == old(nextTask) && task !in old(results) && results == old(results)[task := Done(count)]
      ensures Seen(me) == Finishes(old(Seen(me)), count)
    {
      hide EndsKnown, Quiet, Logged, Separate, In;
      task := nextTask;
      LogOnce(resolved, results, task, Done(count));
      resolved := resolved + [task];
      results := results[task := Done(count)];
      nextTask := nextTask + 1;
    }

    /** What a read or a write does with the host's answer. */
    method TakeAnswer(me: nat, e: EndId, status: Word) returns (r: Started)
      requires Valid() && e in ends && ends[e].handle !in Waiting(me)
      modifies this`contexts, this`pendingTasks, this`nextTask, this`place, this`results, this`resolved
      ensures Valid() && Answered(status, r) && Seen(me) == Takes(old(Seen(me)), e, status)
      ensures r.Pending? ==> Waiting(me) == old(Waiting(me))[ends[e].handle := Info(r.task, Some(e))] && results == old(results)
      ensures !r.Pending? ==> Waiting(me) == old(Waiting(me))
      ensures r.Finished? ==> r.task !in old(results) && results == old(results)[r.task := Done(Count(status))]
      ensures !r.Pending? && !r.Finished? ==> results == old(results)
      ensures me in old(contexts) ==> contexts == old(contexts)
      ensures OthersSame(old(contexts), old(pendingTasks), contexts, pendingTasks, me)
      ensures StillWaiting(old(place), place) && old(resolved) <= resolved
    {
      hide Placed, EndsKnown, Quiet, Logged, Count, State, Separate, In;
      if status == BLOCKED {
        var task := Join(me, ends[e].handle, Some(e));
        return Pending(task);
      }
      if State(status) == 0 {
        var task := FromResult(Count(status), me);
        return Finished(task);
      }
      return NotImplemented;
    }

    /** `ReadInternal`: `status` is the host's answer. */
    method ReadInternal(me: nat, e: EndId, status: Word) returns (r: Started)
      requires Valid() && e in ends
      modifies this
      ensures Valid() && ends == old(ends) && goneAt == old(goneAt)
      ensures Begun(old(ends)[e], old(Waiting(me)), status, r) && Seen(me) == Acts(old(Seen(me)), Read(e, status))
      ensures hostCalls == old(hostCalls) + (if r.AlreadyTaken? || r.OtherSideGone? then [] else [e])
      ensures r.Pending? ==> Waiting(me) == old(Waiting(me))[ends[e].handle := Info(r.task, Some(e))] && results == old(results)
      ensures !r.Pending? ==> Waiting(me) == old(Waiting(me))
      ensures r.Finished? ==> r.task !in old(results) && results == old(results)[r.task := Done(Count(status))]
      ensures !r.Pending? && !r.Finished? ==> results == old(results)
      ensures me in old(contexts) ==> contexts == old(contexts)
      ensures OthersSame(old(contexts), old(pendingTasks), contexts, pendingTasks, me)
      ensures StillWaiting(old(place), place)
      ensures Continues(old(hostCalls), old(goneAt), old(resolved), hostCalls, goneAt, resolved)
    {
      hide Placed, EndsKnown, Quiet, Logged, Count, State, Separate, In, Takes;
      if ends[e].handle == 0 { return AlreadyTaken; }
      if ends[e].dropped { return OtherSideGone; }
      CallKept(hostCalls, goneAt, ends, e);
      hostCalls := hostCalls + [e];
      // The host refuses a second operation on a handle that has one pending.
      if ends[e].handle in Waiting(me) { return Refused; }
      r := TakeAnswer(me, e, status);
    }

    /** `WriteInternal`: once something has been written, the end may be dropped. */
    method WriteInternal(me: nat, e: EndId, status: Word) returns (r: Started)
      requires Valid() && e in ends
      modifies this
      ensures Valid() && goneAt == old(goneAt)
      ensures ends == old(ends)[e := old(ends)[e].(canDrop := old(ends)[e].canDrop || r.Pending? || r.Finished? || r.NotImplemented?)]
      ensures Begun(old(ends)[e], old(Waiting(me)), status, r) && Seen(me) == Acts(old(Seen(me)), Write(e, status))
      ensures hostCalls == old(hostCalls) + (if r.AlreadyTaken? || r.OtherSideGone? then [] else [e])
      ensures r.Pending? ==> Waiting(me) == old(Waiting(me))[ends[e].handle := Info(r.task, Some(e))] && results == old(results)
      ensures !r.Pending? ==> Waiting(me) == old(Waiting(me))
      ensures r.Finished? ==> r.task !in old(results) && results == old(results)[r.task := Done(Count(status))]
      ensures !r.Pending? && !r.Finished? ==> results == old(results)
      ensures me in old(contexts) ==> contexts == old(contexts)
      ensures OthersSame(old(contexts), old(pendingTasks), contexts, pendingTasks, me)
      ensures StillWaiting(old(place), place)
      ensures Continues(old(hostCalls), old(goneAt), old(resolved), hostCalls, goneAt, resolved)
    {
      hide Placed, EndsKnown, Quiet, Logged, Count, State, Separate, In, Takes;
      assert old(ends)[e := old(ends)[e]] == old(ends);
      if ends[e].handle == 0 { return AlreadyTaken; }
      if ends[e].dropped { return OtherSideGone; }
      CallKept(hostCalls, goneAt, ends, e);
      hostCalls := hostCalls + [e];
      if ends[e].handle in Waiting(me) { return Refused; }
      MarkKept(hostCalls, goneAt, pendingTasks, ends, e);
      ends := ends[e := ends[e].(canDrop := true)];
      r := TakeAnswer(me, e, status);
    }

    /** `TaskFromStatus`: a call of an asynchronous import. */
    method TaskFromStatus(me: nat, status: Word) returns (r: Started)
      requires Valid()
      modifies this`contexts, this`pendingTasks, this`nextTask, this`place, this`results, this`resolved
      ensures Valid() && Seen(me) == Acts(old(Seen(me)), Call(status))
      ensures r.Pending? ==> State(status) in {0, 1} && Waiting(me) == old(Waiting(me))[status / 16 := Info(r.task, None)] && results == old(results)
      ensures !r.Pending? ==> Waiting(me) == old(Waiting(me))
      ensures r.Finished? <==> State(status) == 2
      ensures r.NotImplemented? <==> State(status) !in {0, 1, 2}
      ensures r.Refused? <==> State(status) in {0, 1} && status / 16 in old(Waiting(me))
      ensures r.Finished? ==> r.task !in old(results) && results == old(results)[r.task := Done(0)]
      ensures !r.Pending? && !r.Finished? ==> results == old(results)
      ensures me in old(contexts) ==> contexts == old(contexts)
      ensures OthersSame(old(contexts), old(pendingTasks), contexts, pendingTasks, me)
      ensures StillWaiting(old(place), place)
      ensures Continues(old(hostCalls), old(goneAt), old(resolved), hostCalls, goneAt, resolved)
    {
      hide Placed, EndsKnown, Quiet, Logged, State, Separate, In;
      if State(status) == 0 || State(status) == 1 {
        // The host never hands out a handle that is in use.
        if status / 16 in Waiting(me) { return Refused; }
        var task := Join(me, status / 16, None);
        return Pending(task);
      }
      if State(status) == 2 {
        var task := FromResult(0, me);
        return Finished(task);
      }
      return NotImplemented;
    }

    /** Code runs until it waits again, and does exactly what its actions say. */
    method Resume(me: nat, actions: seq<Action>)
      requires Valid() && AllKnown(ends, actions)
      modifies this
      ensures Valid() && goneAt == old(goneAt) && StillWaiting(old(place), place)
      ensures Seen(me) == ActsAll(old(Seen(me)), actions)
      ensures OthersSame(old(contexts), old(pendingTasks), contexts, pendingTasks, me)
      ensures me in old(contexts) ==> contexts == old(contexts)
      ensures forall t | t in old(results) :: t in results && results[t] == old(results)[t]
      ensures forall e | e in old(ends) :: e in ends && ends[e].dropped == old(ends)[e].dropped
      ensures Continues(old(hostCalls), old(goneAt), old(resolved), hostCalls, goneAt, resolved)
    {
      hide Placed, EndsKnown, Quiet, Logged, Separate, In, Acts, ActsAll, AllKnown;
      assert actions[0..] == actions;
      for i := 0 to |actions|
        invariant Valid() && goneAt == old(goneAt) && StillWaiting(old(place), place)
        invariant AllKnown(ends, actions[i..]) && ActsAll(Seen(me), actions[i..]) == ActsAll(old(Seen(me)), actions)
        invariant OthersSame(old(contexts), old(pendingTasks), contexts, pendingTasks, me)
        invariant me in old(contexts) ==> contexts == old(contexts)
        invariant forall t | t in old(results) :: t in results && results[t] == old(results)[t]
        invariant forall e | e in old(ends) :: e in ends && ends[e].dropped == old(ends)[e].dropped
        invariant Continues(old(hostCalls), old(goneAt), old(resolved), hostCalls, goneAt, resolved)
      {
        ActsStep(Seen(me), actions, i);
        Act(me, actions[i]);
      }
      ActsNone(Seen(me), actions[|actions|..]);
    }

    method Act(me: nat, a: Action)
      requires Valid() && Known(ends, a)
      modifies this
      ensures Valid() && goneAt == old(goneAt) && StillWaiting(old(place), place)
      ensures Seen(me) == Acts(old(Seen(me)), a)
      ensures OthersSame(old(contexts), old(pendingTasks), contexts, pendingTasks, me)
      ensures me in old(contexts) ==> contexts == old(contexts)
      ensures forall t | t in old(results) :: t in results && results[t] == old(results)[t]
      ensures forall e | e in old(ends) :: e in ends && ends[e].dropped == old(ends)[e].dropped
      ensures Continues(old(hostCalls), old(goneAt), old(resolved), hostCalls, goneAt, resolved)
    {
      hide Placed, EndsKnown, Quiet, Logged, Separate, In, OthersSame, Acts;
      match a
      case Read(e, status) => var _ := ReadInternal(me, e, status);
      case Write(e, status) => var _ := WriteInternal(me, e, status);
      case Call(status) => var _ := TaskFromStatus(me, status);
    }

    /** Takes an operation off its set, and resolves its task. */
    method Settle(me: nat, e: Event)
      requires Valid() && me in contexts && Expected(Waiting(me), e)
      modifies this`pendingTasks, this`place, this`results, this`ends, this`goneAt, this`resolved
      ensures Valid() && pendingTasks == old(pendingTasks)[contexts[me] := old(Waiting(me)) - {e.waitable}]
      ensures Seen(me) == Arrived(old(Seen(me)), e) && OthersSame(contexts, old(pendingTasks), contexts, pendingTasks, me)
      ensures var info := old(Waiting(me))[e.waitable];
              && info.task !in old(results)
              && results == old(results)[info.task := if e.IsDropped() then Faulted else Done(WaitableCount(e.code))]
              && place == old(place) - {info.task} && resolved == old(resolved) + [info.task]
              && (e.IsDropped() ==> info.end.value in old(ends) && ends == old(ends)[info.end.value := old(ends)[info.end.value].(dropped := true)])
              && (!e.IsDropped() ==> ends == old(ends))
      ensures Continues(hostCalls, old(goneAt), old(resolved), hostCalls, goneAt, resolved)
    {
      hide Placed, EndsKnown, Quiet, Logged, WaitableCount, Separate, OthersSame, In;
      var h := contexts[me];
      var info := In(pendingTasks, h)[e.waitable];
      PendingIsKnown(pendingTasks, place, results, nextTask, ends, h, e.waitable);
      if e.IsDropped() {
        OtherSideDropped(info.end.value);
      }
      var rest := In(pendingTasks, h) - {e.waitable};
      ResolvePlaced(pendingTasks, place, results, nextTask, h, e.waitable, if e.IsDropped() then Faulted else Done(WaitableCount(e.code)));
      ResolveKnown(pendingTasks, ends, h, e.waitable);
      SetUpdated(contexts, pendingTasks, me, h, rest);
      pendingTasks := pendingTasks[h := rest];
      place := place - {info.task};
      LogOnce(resolved, results, info.task, if e.IsDropped() then Faulted else Done(WaitableCount(e.code)));
      resolved := resolved + [info.task];
      results := results[info.task := if e.IsDropped() then Faulted else Done(WaitableCount(e.code))];
    }

    /** An expected event: its task is resolved and the code waiting for it runs. */
    method Deliver(me: nat, e: Event, resume: seq<Action>) returns (answer: Answer)
      requires Valid() && me in contexts && Expected(Waiting(me), e) && AllKnown(ends, resume)
      modifies this
      ensures Valid() && !answer.Failed?
      ensures Continues(old(hostCalls), old(goneAt), old(resolved), hostCalls, goneAt, resolved)
      ensures forall e | e in old(ends) :: e in ends && (old(ends)[e].dropped ==> ends[e].dropped)
      ensures Seen(me) == ActsAll(Arrived(old(Seen(me)), e), resume)
      ensures OthersSame(old(contexts), old(pendingTasks), contexts, pendingTasks, me)
      ensures var info := old(Waiting(me))[e.waitable];
              && info.task !in old(results) && info.task in results
              && results[info.task] == (if e.IsDropped() then Faulted else Done(WaitableCount(e.code)))
              && (e.IsDropped() ==> info.end.value in ends && ends[info.end.value].dropped)
              && StillWaiting(old(place) - {info.task}, place)
      ensures forall t | t in old(results) :: t in results && results[t] == old(results)[t]
      ensures answer.Exit? ==> contexts == old(contexts) - {me} && In(pendingTasks, old(contexts)[me]) == map[] && Seen(me).waiting == map[]
      ensures answer.Wait? ==> contexts == old(contexts) && answer.handle == contexts[me] && Waiting(me) != map[]
    {
      hide Placed, EndsKnown, Quiet, Logged, WaitableCount, Continues, StillWaiting, In, ActsAll, Arrived, OthersSame, AllKnown;
      var h := contexts[me];
      Settle(me, e);
      ghost var calls, gone, log := hostCalls, goneAt, resolved;
      ghost var sets, pending := contexts, pendingTasks;
      KnownStill(old(ends), ends, resume);
      Resume(me, resume);
      ContinuesTwice(old(hostCalls), old(goneAt), old(resolved), calls, gone, log, hostCalls, goneAt, resolved);
      OthersTwice(old(contexts), old(pendingTasks), sets, pending, contexts, pendingTasks, me);
      if In(pendingTasks, h) == map[] {
        LeaveKeeps(contexts, pendingTasks, me);
        OthersTwice(old(contexts), old(pendingTasks), contexts, pendingTasks, contexts - {me}, pendingTasks, me);
        contexts := contexts - {me};
        return Exit;
      }
      return Wait(h);
    }

    /** The callback: the event's operation is taken off its set, its task is resolved, and
        the code waiting for it runs (`resume`), perhaps starting new operations.  The answer
        is Wait if another operation was waiting or the code began one, and Exit otherwise. */
    method Callback(me: nat, e: Event, resume: seq<Action>) returns (answer: Answer)
      requires Valid() && AllKnown(ends, resume)
      modifies this
      ensures Valid()
      ensures answer.Failed? <==> !Expected(old(Waiting(me)), e)
      ensures answer.Failed? ==> Now() == old(Now()) && place == old(place)
      ensures Continues(old(hostCalls), old(goneAt), old(resolved), hostCalls, goneAt, resolved)
      ensures forall e | e in old(ends) :: e in ends && (old(ends)[e].dropped ==> ends[e].dropped)
      ensures !answer.Failed? ==>
                && Seen(me) == ActsAll(Arrived(old(Seen(me)), e), resume)
                && OthersSame(old(contexts), old(pendingTasks), contexts, pendingTasks, me)
                && (answer.Wait? <==> old(Waiting(me)).Keys != {e.waitable}
                                      || exists a :: a in resume && Blocks(Marked(old(ends), old(Waiting(me)), e), a))
      ensures !answer.Failed? ==>
                var info := old(Waiting(me))[e.waitable];
                && info.task !in old(results) && info.task in results
                && results[info.task] == (if e.IsDropped() then Faulted else Done(WaitableCount(e.code)))
                && (e.IsDropped() ==> info.end.value in ends && ends[info.end.value].dropped)
                && StillWaiting(old(place) - {info.task}, place)
      ensures forall t | t in old(results) :: t in results && results[t] == old(results)[t]
      ensures answer.Exit? ==> me in old(contexts) && contexts == old(contexts) - {me} && In(pendingTasks, old(contexts)[me]) == map[]
      ensures answer.Wait? ==> contexts == old(contexts) && me in contexts && answer.handle == contexts[me] && Waiting(me) != map[]
    {
      hide Placed, EndsKnown, Quiet, Logged, WaitableCount, Continues, StillWaiting, ActsAll, Arrived, OthersSame, AllKnown, Marked, Blocks;
      SoFar(hostCalls, goneAt, resolved, ends, results);
      if me !in contexts { return Failed; }
      var h := contexts[me];
      if e.waitable !in In(pendingTasks, h) { return Failed; }
      var info := In(pendingTasks, h)[e.waitable];
      if e.IsDropped() && info.end.None? { return Failed; }
      if !e.IsCompleted() && !e.IsDropped() { return Failed; }
      LeftToWaitFor(Seen(me), e, resume);
      answer := Deliver(me, e, resume);
    }

    /** Any run, of any tasks in any order: every occasion does what it says (`Follows`); the
        records only grow; no call to the host is made on an end after an event reported the
        other side of it gone; every task that waited is resolved once, for good, or still
        waits where it was. */
    method Run(steps: seq<Occasion>) returns (answers: seq<Option<Answer>>, ghost history: seq<Moment>)
      requires Valid() && forall o | o in steps :: AllKnown(ends, o.Does())
      modifies this
      ensures Valid() && Continues(old(hostCalls), old(goneAt), old(resolved), hostCalls, goneAt, resolved)
      ensures |answers| == |steps| && |history| == |steps| + 1 && history[0] == old(Now()) && history[|steps|] == Now()
      ensures forall i | 0 <= i < |steps| :: Follows(history[i], steps[i], answers[i], history[i + 1])
      ensures forall e, i | e in goneAt && goneAt[e] <= i < |hostCalls| :: hostCalls[i] != e
      ensures forall t | t in old(place) :: if t in place then place[t] == old(place)[t] && t !in resolved else t in resolved
      ensures forall i, j | 0 <= i < j < |resolved| :: resolved[i] != resolved[j]
      ensures forall t | t in old(results) :: t in results && results[t] == old(results)[t]
    {
      hide Placed, EndsKnown, Quiet, Logged, Continues, Follows, AllKnown, Separate;
      answers, history := [], [Now()];
      SoFar(hostCalls, goneAt, resolved, ends, results);
      for i := 0 to |steps|
        invariant Valid() && Continues(old(hostCalls), old(goneAt), old(resolved), hostCalls, goneAt, resolved)
        invariant |answers| == i && |history| == i + 1 && history[0] == old(Now()) && history[i] == Now()
        invariant ends.Keys == old(ends).Keys
        invariant forall j | 0 <= j < i :: Follows(history[j], steps[j], answers[j], history[j + 1])
        invariant forall t | t in old(place) :: t in results || (t in place && place[t] == old(place)[t])
        invariant forall t | t in old(results) :: t in results && results[t] == old(results)[t]
      {
        ghost var calls, gone, log := hostCalls, goneAt, resolved;
        KnownStill(old(ends), ends, steps[i].Does());
        var answer := Happen(steps[i]);
        answers := answers + [answer];
        history := history + [Now()];
        ContinuesTwice(old(hostCalls), old(goneAt), old(resolved), calls, gone, log, hostCalls, goneAt, resolved);
      }
      SoFar(hostCalls, goneAt, resolved, ends, results);
      Apart(pendingTasks, place, results, nextTask);
    }

    /** One step of a run, with the callback's answer if there is one. */
    method Happen(o: Occasion) returns (answer: Option<Answer>)
      requires Valid() && AllKnown(ends, o.Does())
      modifies this
      ensures Valid() && Continues(old(hostCalls), old(goneAt), old(resolved), hostCalls, goneAt, resolved)
      ensures Follows(old(Now()), o, answer, Now()) && ends.Keys == old(ends).Keys
      ensures forall t | t in old(place) :: t in results || (t in place && place[t] == old(place)[t])
      ensures forall t | t in old(results) :: t in results && results[t] == old(results)[t]
    {
      hide Placed, EndsKnown, Quiet, Logged, Continues, ActsAll, Arrived, OthersSame, AllKnown, Separate;
      match o
      case Runs(me, actions) =>
        Resume(me, actions);
        answer := None;
      case Arrives(me, event, resume) =>
        var a := Callback(me, event, resume);
        answer := Some(a);
    }

    method OtherSideDropped(e: EndId)
      requires Quiet(hostCalls, goneAt, ends) && EndsKnown(pendingTasks, ends) && e in ends
      modifies this`ends, this`goneAt
      ensures Quiet(hostCalls, goneAt, ends) && EndsKnown(pendingTasks, ends)
      ensures ends == old(ends)[e := old(ends)[e].(dropped := true)]
      ensures goneAt == if e in old(goneAt) then old(goneAt) else old(goneAt)[e := |hostCalls|]
    {
      ends := ends[e := ends[e].(dropped := true)];
      if e !in goneAt {
        goneAt := goneAt[e := |hostCalls|];
      }
    }
  }

  /** The host takes a new operation on this end. */
  predicate Free(end: End, waiting: map<Handle, Info>) {
    end.handle != 0 && !end.dropped && end.handle !in waiting
  }

  /** How an operation that the host has taken comes out. */
  predicate Answered(status: Word, r: Started) {
    && (r.Pending? <==> status == BLOCKED)
    && (r.Finished? <==> status != BLOCKED && State(status) == 0)
    && (r.NotImplemented? <==> status != BLOCKED && State(status) != 0)
  }

  /** How starting an operation on an end comes out. */
  predicate Begun(end: End, waiting: map<Handle, Info>, status: Word, r: Started) {
    && (r.AlreadyTaken? <==> end.handle == 0)
    && (r.OtherSideGone? <==> end.handle != 0 && end.dropped)
    && (r.Refused? <==> end.handle != 0 && !end.dropped && end.handle in waiting)
    && (Free(end, waiting) ==> Answered(status, r))
  }

  /** An event that tells of a drop stops further operations.  The host's answer to a call
      does not, though its state be Dropped: the operation fails as not implemented, and the
      next one on the end calls the host again. */
  lemma DroppedAtTheCallIsForgotten(end: End, waiting: map<Handle, Info>, status: Word, r: Started, canDrop: bool, next: Word, again: Started,
                                    told: Started)
    requires State(status) == 1 && Free(end, waiting)
    requires Begun(end, waiting, status, r) && Begun(end.(canDrop := canDrop), waiting, next, again)
    requires Begun(end.(dropped := true), waiting, next, told)
    ensures r.NotImplemented? && Answered(next, again) && told.OtherSideGone?
  {
    assert State(BLOCKED) == 15;
  }

  lemma {:induction false} SomeUnused(hs: set<Handle>)
    ensures exists h: Handle :: h !in hs
  {
    var n := AboveAll(hs);
    assert n !in hs;
  }

  lemma {:induction false} AboveAll(hs: set<Handle>) returns (n: Handle)
    ensures forall h | h in hs :: h < n
  {
    if hs == {} {
      n := 0;
    } else {
      var h :| h in hs;
      var m := AboveAll(hs - {h});
      n := if m <= h then h + 1 else m;
      assert forall x | x in hs :: x == h || x in hs - {h};
    }
  }

  lemma ActsStep(b: Book, actions: seq<Action>, i: nat)
    requires i < |actions| && AllKnown(b.ends, actions[i..])
    ensures Known(b.ends, actions[i]) && AllKnown(Acts(b, actions[i]).ends, actions[i + 1..])
    ensures ActsAll(b, actions[i..]) == ActsAll(Acts(b, actions[i]), actions[i + 1..])
  {
    hide Acts;
    assert actions[i] in actions[i..] && actions[i..][0] == actions[i] && actions[i..][1..] == actions[i + 1..];
    KnownStill(b.ends, Acts(b, actions[i]).ends, actions[i..]);
    RestKnown(Acts(b, actions[i]).ends, actions[i..]);
  }

  lemma ActsNone(b: Book, actions: seq<Action>)
    requires actions == []
    ensures AllKnown(b.ends, actions) && ActsAll(b, actions) == b
  {
  }

  lemma KnownStill(ends: map<EndId, End>, after: map<EndId, End>, actions: seq<Action>)
    requires AllKnown(ends, actions) && after.Keys == ends.Keys
    ensures AllKnown(after, actions)
  {
    forall a | a in actions ensures Known(after, a) { assert Known(ends, a) && (a.Call? || a.end in ends.Keys); }
  }

  lemma OthersTwice(contexts0: map<nat, Handle>, pending0: map<Handle, map<Handle, Info>>, contexts1: map<nat, Handle>,
                    pending1: map<Handle, map<Handle, Info>>, contexts2: map<nat, Handle>, pending2: map<Handle, map<Handle, Info>>, me: nat)
    requires OthersSame(contexts0, pending0, contexts1, pending1, me) && OthersSame(contexts1, pending1, contexts2, pending2, me)
    ensures OthersSame(contexts0, pending0, contexts2, pending2, me)
  {
    hide SetOf;
  }

  lemma LeaveKeeps(contexts: map<nat, Handle>, pending: map<Handle, map<Handle, Info>>, me: nat)
    ensures OthersSame(contexts, pending, contexts - {me}, pending, me)
  {
  }

  lemma ContinuesTwice(calls0: seq<EndId>, gone0: map<EndId, nat>, log0: seq<TaskId>, calls1: seq<EndId>, gone1: map<EndId, nat>, log1: seq<TaskId>,
                       calls2: seq<EndId>, gone2: map<EndId, nat>, log2: seq<TaskId>)
    requires Continues(calls0, gone0, log0, calls1, gone1, log1) && Continues(calls1, gone1, log1, calls2, gone2, log2)
    ensures Continues(calls0, gone0, log0, calls2, gone2, log2)
  {
  }

  lemma SoFar(calls: seq<EndId>, goneAt: map<EndId, nat>, resolved: seq<TaskId>, ends: map<EndId, End>, results: map<TaskId, TaskResult>)
    requires Quiet(calls, goneAt, ends) && Logged(resolved, results)
    ensures Continues(calls, goneAt, resolved, calls, goneAt, resolved)
    ensures forall e, i | e in goneAt && goneAt[e] <= i < |calls| :: calls[i] != e
    ensures forall i, j | 0 <= i < j < |resolved| :: resolved[i] != resolved[j]
    ensures forall t :: t in resolved <==> t in results
  {
  }

  lemma Apart(pending: map<Handle, map<Handle, Info>>, place: map<TaskId, (Handle, Handle)>, results: map<TaskId, TaskResult>, next: TaskId)
    requires Placed(pending, place, results, next)
    ensures forall t | t in place :: t !in results
  {
  }

  lemma LogOnce(resolved: seq<TaskId>, results: map<TaskId, TaskResult>, t: TaskId, r: TaskResult)
    requires Logged(resolved, results) && t !in results
    ensures Logged(resolved + [t], results[t := r])
  {
  }

  lemma CallKept(calls: seq<EndId>, goneAt: map<EndId, nat>, ends: map<EndId, End>, e: EndId)
    requires Quiet(calls, goneAt, ends) && e in ends && !ends[e].dropped
    ensures Quiet(calls + [e], goneAt, ends)
  {
  }

  lemma MarkKept(calls: seq<EndId>, goneAt: map<EndId, nat>, pending: map<Handle, map<Handle, Info>>, ends: map<EndId, End>, e: EndId)
    requires Quiet(calls, goneAt, ends) && EndsKnown(pending, ends) && e in ends
    ensures Quiet(calls, goneAt, ends[e := ends[e].(canDrop := true)])
    ensures EndsKnown(pending, ends[e := ends[e].(canDrop := true)])
  {
  }

  lemma JoinKnown(pending: map<Handle, map<Handle, Info>>, ends: map<EndId, End>, h: Handle, w: Handle, info: Info)
    requires EndsKnown(pending, ends) && (info.end.Some? ==> info.end.value in ends)
    ensures EndsKnown(pending[h := In(pending, h)[w := info]], ends)
  {
    hide In;
    InUpdated(pending, h, In(pending, h)[w := info]);
    var p := pending[h := In(pending, h)[w := info]];
    forall g: Handle, x: Handle | IsPending(p, g, x) && In(p, g)[x].end.Some? ensures In(p, g)[x].end.value in ends {
      if g != h || x != w { assert IsPending(pending, g, x); }
    }
  }

  lemma ResolveKnown(pending: map<Handle, map<Handle, Info>>, ends: map<EndId, End>, h: Handle, w: Handle)
    requires EndsKnown(pending, ends) && IsPending(pending, h, w)
    ensures EndsKnown(pending[h := In(pending, h) - {w}], ends)
  {
    hide In;
    InUpdated(pending, h, In(pending, h) - {w});
    var p := pending[h := In(pending, h) - {w}];
    forall g: Handle, x: Handle | IsPending(p, g, x) && In(p, g)[x].end.Some? ensures In(p, g)[x].end.value in ends {
      assert IsPending(pending, g, x);
    }
  }

  /** A pending task is not resolved yet, and its end exists. */
  lemma PendingIsKnown(pending: map<Handle, map<Handle, Info>>, place: map<TaskId, (Handle, Handle)>,
                       results: map<TaskId, TaskResult>, next: TaskId, ends: map<EndId, End>, h: Handle, w: Handle)
    requires Placed(pending, place, results, next) && EndsKnown(pending, ends) && w in In(pending, h)
    ensures IsPending(pending, h, w) && In(pending, h)[w].task !in results
    ensures In(pending, h)[w].end.Some? ==> In(pending, h)[w].end.value in ends
  {
    hide In;
    assert IsPending(pending, h, w);
  }

  lemma Removed(pending: map<Handle, map<Handle, Info>>, h: Handle, w: Handle)
    requires IsPending(pending, h, w)
    ensures var p := pending[h := In(pending, h) - {w}];
            && (forall g: Handle, x: Handle :: IsPending(p, g, x) <==> IsPending(pending, g, x) && !(g == h && x == w))
            && forall g: Handle, x: Handle | IsPending(p, g, x) :: In(p, g)[x] == In(pending, g)[x]
  {
    hide In;
    InUpdated(pending, h, In(pending, h) - {w});
  }

  /** Resolving a task: it leaves its place and gets its result. */
  lemma ResolvePlaced(pending: map<Handle, map<Handle, Info>>, place: map<TaskId, (Handle, Handle)>,
                      results: map<TaskId, TaskResult>, next: TaskId, h: Handle, w: Handle, result: TaskResult)
    requires Placed(pending, place, results, next) && IsPending(pending, h, w)
    ensures var t := In(pending, h)[w].task;
            Placed(pending[h := In(pending, h) - {w}], place - {t}, results[t := result], next)
  {
    hide In;
    var t := In(pending, h)[w].task;
    var p := pending[h := In(pending, h) - {w}];
    var q, r := place - {t}, results[t := result];
    Removed(pending, h, w);
    forall u | u in q ensures IsPending(p, q[u].0, q[u].1) && In(p, q[u].0)[q[u].1].task == u && u !in r {
      assert u in place && u != t;
    }
    forall g: Handle, x: Handle | IsPending(p, g, x) ensures In(p, g)[x].task in q && q[In(p, g)[x].task] == (g, x) {
      assert IsPending(pending, g, x) && In(p, g)[x].task in place;
    }
    forall u: TaskId ensures u < next <==> u in q || u in r {
      assert u < next <==> u in place || u in results;
    }
  }

  /** Replacing one set leaves the others alone. */
  lemma InUpdated(pending: map<Handle, map<Handle, Info>>, h: Handle, m: map<Handle, Info>)
    ensures forall g: Handle :: In(pending[h := m], g) == if g == h then m else In(pending, g)
  {
    forall g: Handle ensures In(pending[h := m], g) == if g == h then m else In(pending, g) {
      if g == h {
        assert In(pending[h := m], g) == m;
      } else {
        assert g in pending[h := m] <==> g in pending;
      }
    }
  }

  /** A task's own set is replaced, or made: the other tasks do not notice. */
  lemma SetUpdated(contexts: map<nat, Handle>, pending: map<Handle, map<Handle, Info>>, me: nat, h: Handle, m: map<Handle, Info>)
    requires Separate(contexts, pending) && if me in contexts then h == contexts[me] else h !in pending
    ensures Separate(contexts[me := h], pending[h := m]) && SetOf(contexts[me := h], pending[h := m], me) == m
    ensures OthersSame(contexts, pending, contexts[me := h], pending[h := m], me)
    ensures me in contexts ==> contexts[me := h] == contexts
  {
    InUpdated(pending, h, m);
    var c := contexts[me := h];
    forall you: nat | you in contexts && you != me ensures contexts[you] in pending && contexts[you] != h {
      assert contexts[you] in pending;
    }
    forall you: nat | you != me
      ensures (you in c <==> you in contexts) && SetOf(c, pending[h := m], you) == SetOf(contexts, pending, you)
    {
      if you in contexts { assert contexts[you] != h; }
    }
  }

  lemma NewIsEmpty(contexts: map<nat, Handle>, pending: map<Handle, map<Handle, Info>>, me: nat, h: Handle)
    requires if me in contexts then h == contexts[me] else h !in pending
    ensures In(pending, h) == SetOf(contexts, pending, me)
  {
  }

  lemma Joined(pending: map<Handle, map<Handle, Info>>, h: Handle, w: Handle, info: Info)
    requires !IsPending(pending, h, w)
    ensures Adds(pending, pending[h := In(pending, h)[w := info]], h, w, info)
  {
    hide In;
    InUpdated(pending, h, In(pending, h)[w := info]);
  }

  lemma JoinWaitsThere(pending: map<Handle, map<Handle, Info>>, p: map<Handle, map<Handle, Info>>, place: map<TaskId, (Handle, Handle)>,
                       h: Handle, w: Handle, info: Info)
    requires WaitsThere(pending, place) && Adds(pending, p, h, w, info)
    ensures WaitsThere(p, place[info.task := (h, w)])
  {
    hide In;
    var q := place[info.task := (h, w)];
    forall u | u in q ensures IsPending(p, q[u].0, q[u].1) && In(p, q[u].0)[q[u].1].task == u {
      assert u == info.task || u in place;
    }
  }

  lemma JoinOnePlace(pending: map<Handle, map<Handle, Info>>, p: map<Handle, map<Handle, Info>>, place: map<TaskId, (Handle, Handle)>,
                     h: Handle, w: Handle, info: Info)
    requires OnePlace(pending, place) && Adds(pending, p, h, w, info) && info.task !in place
    ensures OnePlace(p, place[info.task := (h, w)])
  {
    hide In;
    var q := place[info.task := (h, w)];
    forall g: Handle, x: Handle | IsPending(p, g, x) ensures In(p, g)[x].task in q && q[In(p, g)[x].task] == (g, x) {
      if g != h || x != w { assert In(pending, g)[x].task in place; }
    }
  }

  lemma JoinAllKept(place: map<TaskId, (Handle, Handle)>, results: map<TaskId, TaskResult>, next: TaskId, at: (Handle, Handle))
    requires AllKept(place, results, next)
    ensures next !in place && next !in results && AllKept(place[next := at], results, next + 1)
  {
    var q := place[next := at];
    assert next !in place && next !in results;
    forall u: TaskId ensures u < next + 1 <==> u in q || u in results {
      assert u < next <==> u in place || u in results;
    }
  }

  /** A new task takes its place. */
  lemma JoinPlaced(pending: map<Handle, map<Handle, Info>>, place: map<TaskId, (Handle, Handle)>,
                   results: map<TaskId, TaskResult>, next: TaskId, h: Handle, w: Handle, end: Option<EndId>)
    requires Placed(pending, place, results, next) && !IsPending(pending, h, w)
    ensures Placed(pending[h := In(pending, h)[w := Info(next, end)]], place[next := (h, w)], results, next + 1)
    ensures next !in place
  {
    hide In, IsPending, WaitsThere, OnePlace, AllKept, Adds;
    var p := pending[h := In(pending, h)[w := Info(next, end)]];
    Joined(pending, h, w, Info(next, end));
    JoinAllKept(place, results, next, (h, w));
    JoinWaitsThere(pending, p, place, h, w, Info(next, end));
    JoinOnePlace(pending, p, place, h, w, Info(next, end));
  }
}
