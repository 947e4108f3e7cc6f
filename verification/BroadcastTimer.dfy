/**
 The activation timer. What matters to the page is one optional task; the program keeps it as
 a handle to a timeout of the browser, and no other timeout may be left behind.
 */
module BroadcastTimer {
  import opened Common

  const SETTLE_MS: nat := 1000
  const POLL_MS: nat := 100

  /** A timeout that is to poll, or, once settled, to deliver. */
  datatype Task = Task(settled: bool, due: nat)

  // ---------- one task ----------

  /** The timer runs while a request is pending, and a running one is not restarted. */
  function Refreshed(task: Option<Task>, pending: bool, now: nat): Option<Task> {
    if !pending then None else if task.None? then Some(Task(false, now)) else task
  }

  /** What a firing leaves scheduled: poll until the document listens, then let it settle. */
  function Rescheduled(task: Task, pending: bool, subscribed: bool, now: nat): Option<Task> {
    if !pending then None
    else if !subscribed then Some(Task(false, now + POLL_MS))
    else if !task.settled then Some(Task(true, now + SETTLE_MS))
    else None
  }

  predicate FiringDelivers(task: Task, pending: bool, subscribed: bool) {
    pending && subscribed && task.settled
  }

  // ---------- handles and timeouts ----------

  /** The browser's scheduled timeouts by handle, and the handle the program keeps. */
  datatype Timers = Timers(live: map<nat, Task>, task: Option<nat>, next: nat)

  const NoTimers := Timers(map[], None, 0)

  function Cancelled(t: Timers): Timers {
    t.(live := if t.task.Some? then t.live - {t.task.value} else t.live, task := None)
  }

  function Scheduled(t: Timers, task: Task): Timers {
    Timers(t.live[t.next := task], Some(t.next), t.next + 1)
  }

  function Updated(t: Timers, pending: bool, now: nat): Timers {
    if !pending then Cancelled(t) else if t.task.None? then Scheduled(t, Task(false, now)) else t
  }

  /** A timeout that fires is no longer scheduled; its callback forgets the kept handle, which
      it takes for its own. */
  function Fired(t: Timers, handle: nat, pending: bool, subscribed: bool, now: nat): Timers
    requires handle in t.live
  {
    var again := Rescheduled(t.live[handle], pending, subscribed, now);
    var t := t.(live := t.live - {handle}, task := None);
    if again.Some? then Scheduled(t, again.value) else t
  }

  /** No timeout is scheduled but the one whose handle is kept. */
  ghost predicate OnlyTask(t: Timers) {
    && (forall h :: h in t.live ==> h < t.next)
    && (forall h :: h in t.live <==> t.task == Some(h))
  }

  /** What the kept handle stands for. */
  function Kept(t: Timers): Option<Task> {
    if t.task.Some? && t.task.value in t.live then Some(t.live[t.task.value]) else None
  }

  lemma CancelledKeeps(t: Timers)
    requires OnlyTask(t)
    ensures OnlyTask(Cancelled(t)) && Kept(Cancelled(t)).None?
  {
  }

  lemma UpdatedKeeps(t: Timers, pending: bool, now: nat)
    requires OnlyTask(t)
    ensures OnlyTask(Updated(t, pending, now)) && Kept(Updated(t, pending, now)) == Refreshed(Kept(t), pending, now)
  {
  }

  lemma FiredKeeps(t: Timers, handle: nat, pending: bool, subscribed: bool, now: nat)
    requires OnlyTask(t) && handle in t.live
    ensures t.task == Some(handle)
    ensures OnlyTask(Fired(t, handle, pending, subscribed, now))
    ensures Kept(Fired(t, handle, pending, subscribed, now)) == Rescheduled(t.live[handle], pending, subscribed, now)
  {
  }

  /** Anything the page or the browser does with the timer; a firing names any timeout at all
      and has an effect if that one is scheduled and due. */
  datatype Event =
    | DoCancel
    | DoUpdate(pending: bool, now: nat)
    | DoFire(handle: nat, pending: bool, subscribed: bool, now: nat)

  function Step(t: Timers, e: Event): Timers {
    match e
    case DoCancel => Cancelled(t)
    case DoUpdate(pending, now) => Updated(t, pending, now)
    case DoFire(handle, pending, subscribed, now) =>
      if handle in t.live && t.live[handle].due <= now then Fired(t, handle, pending, subscribed, now) else t
  }

  function Run(t: Timers, es: seq<Event>): Timers
    decreases |es|
  {
    if es == [] then t else Run(Step(t, es[0]), es[1..])
  }

  lemma StepKeeps(t: Timers, e: Event)
    requires OnlyTask(t)
    ensures OnlyTask(Step(t, e))
  {
    match e
    case DoCancel => CancelledKeeps(t);
    case DoUpdate(pending, now) => UpdatedKeeps(t, pending, now);
    case DoFire(handle, pending, subscribed, now) =>
      if handle in t.live && t.live[handle].due <= now {
        FiredKeeps(t, handle, pending, subscribed, now);
      }
  }

  lemma {:induction false} RunKeeps(t: Timers, es: seq<Event>)
    requires OnlyTask(t)
    ensures OnlyTask(Run(t, es))
    decreases |es|
  {
    if es != [] {
      StepKeeps(t, es[0]);
      RunKeeps(Step(t, es[0]), es[1..]);
    }
  }

  /** However the timer is used, at most one timeout is outstanding. */
  lemma AtMostOneTimeout(es: seq<Event>)
    ensures |Run(NoTimers, es).live| <= 1
  {
    var t := Run(NoTimers, es);
    RunKeeps(NoTimers, es);
    if t.task.Some? {
      assert t.live.Keys == {t.task.value};
      assert |t.live| == |t.live.Keys|;
    } else {
      assert t.live == map[];
    }
  }

  // ---------- the objects ----------

  /** The browser's timeouts. */
  class Clock {
    var live: map<nat, Task>
    var next: nat

    constructor ()
      ensures live == map[] && next == 0
    {
      live, next := map[], 0;
    }

    method SetTimeout(task: Task) returns (handle: nat)
      modifies this
      ensures handle == old(next) && next == old(next) + 1 && live == old(live)[handle := task]
    {
      handle := next;
      live, next := live[next := task], next + 1;
    }

    method ClearTimeout(handle: nat)
      modifies this`live
      ensures live == old(live) - {handle}
    {
      live := live - {handle};
    }
  }

  class Activation {
    const clock: Clock
    var task: Option<nat>

    ghost function Now(): Timers
      reads this, clock
    {
      Timers(clock.live, task, clock.next)
    }

    constructor (clock: Clock)
      requires clock.live == map[]
      ensures this.clock == clock && task.None? && OnlyTask(Now())
    {
      this.clock, task := clock, None;
    }

    method Cancel()
      modifies this, clock
      ensures Now() == Cancelled(old(Now()))
    {
      if task.Some? {
        clock.ClearTimeout(task.value);
      }
      task := None;
    }

    method Schedule(settled: bool, due: nat)
      modifies this, clock
      ensures Now() == Scheduled(old(Now()), Task(settled, due))
    {
      var handle := clock.SetTimeout(Task(settled, due));
      task := Some(handle);
    }

    method Update(pending: bool, now: nat)
      modifies this, clock
      ensures Now() == Updated(old(Now()), pending, now)
    {
      if !pending {
        Cancel();
      } else if task.None? {
        Schedule(false, now);
      }
    }

    /** The browser runs the callback of a timeout; the answer says whether to deliver. */
    method Fire(handle: nat, pending: bool, subscribed: bool, now: nat) returns (deliver: bool)
      requires handle in clock.live
      modifies this, clock
      ensures deliver == FiringDelivers(old(clock.live)[handle], pending, subscribed)
      ensures Now() == Fired(old(Now()), handle, pending, subscribed, now)
    {
      var settled := clock.live[handle].settled;
      clock.ClearTimeout(handle);
      task := None;
      if !pending {
        return false;
      }
      if !subscribed {
        Schedule(false, now + POLL_MS);
        return false;
      }
      if !settled {
        Schedule(true, now + SETTLE_MS);
        return false;
      }
      return true;
    }
  }
}
