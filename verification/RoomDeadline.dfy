/**
  * The pausable deadline of a room turn, and the registry that ends a stalled one. The deadline is
  * compared with a reference that only counts the time during which nobody was asked anything.
  */
module RoomDeadline {
  import opened Wrappers

  /** The fields of the deadline. `armedAt` is the time of the live timer; `leaked` are the due times
    * of timers the object no longer knows, which are still going to fire. */
  datatype Deadline = Deadline(remaining: int, armedAt: Option<int>, open: nat, stopped: bool, fired: bool,
                               leaked: seq<int>)

  /** The reference: does the clock run (from `start`, or from the last request closed before it), how
    * many requests are open, how long has the turn worked. */
  datatype Work = Work(started: bool, open: nat, over: bool, worked: int)

  datatype World = World(now: int, d: Deadline, work: Work, fires: nat)

  function Expired(w: World): World {
    if w.d.stopped || w.d.fired then w
    else w.(d := w.d.(fired := true), work := w.work.(over := true), fires := w.fires + 1)
  }

  function Arm(w: World): World {
    if w.d.stopped || w.d.fired || w.d.open > 0 then w
    else if w.d.remaining <= 0 then Expired(w)
    else
      var due := if w.d.armedAt.Some? then [w.d.armedAt.value + w.d.remaining] else [];
      w.(d := w.d.(armedAt := Some(w.now), leaked := w.d.leaked + due))
  }

  function Hold(w: World): World {
    if w.d.armedAt.None? then w
    else
      var held := w.(d := w.d.(remaining := w.d.remaining - (w.now - w.d.armedAt.value), armedAt := None));
      if held.d.remaining <= 0 then Expired(held) else held
  }

  function Waiting(w: World, waiting: bool): World {
    if w.d.stopped || w.d.fired then w
    else if waiting then
      var asked := w.(d := w.d.(open := w.d.open + 1));
      if w.d.open == 0 then Hold(asked) else asked
    else if w.d.open > 0 then
      var resolved := w.(d := w.d.(open := w.d.open - 1));
      if resolved.d.open == 0 then Arm(resolved) else resolved
    else w
  }

  datatype Step = Start | Opened | Resolved | Stop | Elapse(dt: nat) | TimerFires | LeakFires

  predicate Enabled(w: World, s: Step) {
    match s
    case TimerFires => w.d.armedAt.Some? && w.now >= w.d.armedAt.value + w.d.remaining
    case LeakFires => w.d.leaked != [] && w.now >= w.d.leaked[0]
    case _ => true
  }

  /** How the reference sees a step; it never looks at the deadline's fields. */
  function Reference(r: Work, s: Step): Work {
    match s
    case Start => r.(started := true)
    case Opened => r.(open := r.open + 1)
    case Resolved => if r.open > 0 then r.(open := r.open - 1, started := r.started || r.open == 1) else r
    case Stop => r.(over := true)
    case Elapse(dt) => if r.started && r.open == 0 && !r.over then r.(worked := r.worked + dt) else r
    case _ => r
  }

  function Apply(w: World, s: Step): World
    requires Enabled(w, s)
  {
    var v := w.(work := if w.work.over then w.work else Reference(w.work, s));
    match s
    case Start => Arm(v)
    case Opened => Waiting(v, true)
    case Resolved => Waiting(v, false)
    case Stop => v.(d := v.d.(stopped := true, armedAt := None))
    case Elapse(dt) => v.(now := v.now + dt)
    case TimerFires => Expired(v.(d := v.d.(armedAt := None)))
    case LeakFires => Expired(v.(d := v.d.(armedAt := None, leaked := v.d.leaked[1..])))
  }

  ghost predicate Run(w: World, steps: seq<Step>, v: World)
    decreases |steps|
  {
    if steps == [] then w == v
    else Enabled(w, steps[0]) && Run(Apply(w, steps[0]), steps[1..], v)
  }

  function New(minutes: int, now: int): World {
    World(now, Deadline(minutes * 60_000, None, 0, false, false, []), Work(false, 0, false, 0), 0)
  }

  /** The caller's side: no start on a clock that runs. */
  predicate StartsClean(w: World, s: Step) {
    s.Start? ==> w.work.over || w.work.open > 0 || !w.work.started
  }

  ghost predicate CleanRun(w: World, steps: seq<Step>, v: World)
    decreases |steps|
  {
    if steps == [] then w == v
    else Enabled(w, steps[0]) && StartsClean(w, steps[0]) && CleanRun(Apply(w, steps[0]), steps[1..], v)
  }

  /** Time in the armed interval that is not accounted for yet. */
  function Running(w: World): int {
    if w.d.armedAt.Some? then w.now - w.d.armedAt.value else 0
  }

  /** The deadline agrees with the reference: while the turn lasts, its timer is armed exactly when the
    * turn was started and nobody is asked anything, and remaining budget plus work is the ceiling. */
  predicate Agrees(w: World, ceiling: int) {
    && w.d.leaked == [] && w.fires == (if w.d.fired then 1 else 0)
    && (w.work.over <==> w.d.stopped || w.d.fired)
    && (w.d.fired ==> w.work.worked >= ceiling)
    && (!w.work.over ==>
          && w.work.open == w.d.open
          && (w.d.armedAt.Some? <==> w.work.started && w.work.open == 0)
          && w.d.remaining - Running(w) + w.work.worked == ceiling
          && (w.d.armedAt.Some? ==> w.d.armedAt.value <= w.now && w.d.remaining > 0)
          && (!w.work.started ==> w.work.worked == 0))
  }

  lemma {:induction false} RunAgrees(w: World, steps: seq<Step>, v: World, ceiling: int)
    requires Agrees(w, ceiling) && CleanRun(w, steps, v)
    ensures Agrees(v, ceiling)
    decreases |steps|
  {
    if steps != [] {
      RunAgrees(Apply(w, steps[0]), steps[1..], v, ceiling);
    }
  }

  /** For any order of opens, resolves, starts, timer and stop without a start on a running clock: while
    * the turn lasts the remaining budget is the ceiling less the work done, no timer is forgotten, and
    * the deadline fires at most once and only when the work has reached the ceiling. */
  lemma DeadlineCountsWorkOnly(minutes: int, now: int, steps: seq<Step>, v: World)
    requires CleanRun(New(minutes, now), steps, v)
    ensures v.fires <= 1 && v.d.leaked == []
    ensures v.d.fired ==> v.work.worked >= minutes * 60_000
    ensures !v.work.over ==> v.d.remaining - Running(v) + v.work.worked == minutes * 60_000
    ensures !v.work.over ==> (v.d.armedAt.Some? <==> v.work.started && v.work.open == 0)
  {
    RunAgrees(New(minutes, now), steps, v, minutes * 60_000);
  }

  /** Once stopped or fired it never fires (again), whatever comes, leaked timers included. */
  lemma {:induction false} NeverFiresAfterTheEnd(w: World, steps: seq<Step>, v: World)
    requires (w.d.stopped || w.d.fired) && Run(w, steps, v)
    ensures v.fires == w.fires && (v.d.stopped || v.d.fired)
    decreases |steps|
  {
    if steps != [] {
      NeverFiresAfterTheEnd(Apply(w, steps[0]), steps[1..], v);
    }
  }

  lemma {:induction false} FiresWhenFired(w: World, steps: seq<Step>, v: World)
    requires w.fires == (if w.d.fired then 1 else 0) && Run(w, steps, v)
    ensures v.fires == (if v.d.fired then 1 else 0)
    decreases |steps|
  {
    if steps != [] {
      FiresWhenFired(Apply(w, steps[0]), steps[1..], v);
    }
  }

  /** Whatever the caller does, and with however many timers forgotten, a turn is ended at most once. */
  lemma FiresAtMostOnce(minutes: int, now: int, steps: seq<Step>, v: World)
    requires Run(New(minutes, now), steps, v)
    ensures v.fires <= 1
  {
    FiresWhenFired(New(minutes, now), steps, v);
  }

  /** The timer that is set fires once the budget is used up, so an unattended turn does end. */
  lemma ArmedTimerIsDueWithTheBudget(w: World, ceiling: int)
    requires Agrees(w, ceiling) && w.d.armedAt.Some? && !w.work.over
    ensures Enabled(w, TimerFires) <==> w.work.worked >= ceiling
    ensures Enabled(w, TimerFires) ==> Apply(w, TimerFires).d.fired
  {
  }

  /** The other half of `DeadlineCountsWorkOnly`. A start on a running clock breaks the guard, and forgets
    * the armed timer: a card that is then open does not hold it, and it fires before the work is done. */
  lemma StartOnAnArmedClockFiresEarly(w: World, ceiling: int)
    requires Agrees(w, ceiling) && !StartsClean(w, Start) && Running(w) < w.d.remaining
    ensures var rest := w.d.remaining - Running(w);
            var v := Apply(Apply(Apply(w, Start), Opened), Elapse(rest));
            Enabled(v, LeakFires) && Apply(v, LeakFires).d.fired && Apply(v, LeakFires).work.worked < ceiling
  {
  }

  /** A card opened and closed before the start leads there: the clock already runs when `start` arms it. */
  lemma CardBeforeStartArmsTheClock(minutes: int, now: int)
    requires minutes > 0
    ensures var w := Apply(Apply(New(minutes, now), Opened), Resolved);
            w.d.armedAt.Some? && !StartsClean(w, Start) && Apply(w, Start).d.leaked != []
  {
  }

  // ---- The objects as the program keeps them ----

  class RoomTurnDeadline {
    var remainingMs: int
    var timer: bool
    var armedAt: int
    var openRequests: nat
    var stopped: bool
    var fired: bool
    ghost var leaked: seq<int>
    ghost var fires: nat

    ghost function State(now: int, work: Work): World
      reads this
    {
      World(now, Deadline(remainingMs, if timer then Some(armedAt) else None, openRequests, stopped, fired, leaked),
            work, fires)
    }

    constructor (minutes: int, ghost now: int)
      ensures State(now, Work(false, 0, false, 0)) == New(minutes, now)
    {
      remainingMs := minutes * 60_000;
      timer, armedAt, openRequests, stopped, fired, leaked, fires := false, 0, 0, false, false, [], 0;
    }

    method Expire(ghost w: World)
      requires w == State(w.now, w.work)
      modifies this`fired, this`fires
      ensures State(w.now, Expired(w).work) == Expired(w)
    {
      if stopped || fired {
        return;
      }
      fired, fires := true, fires + 1;
    }

    method ArmTimer(now: int, ghost w: World)
      requires w == State(now, w.work)
      modifies this`fired, this`fires, this`timer, this`armedAt, this`leaked
      ensures State(now, Arm(w).work) == Arm(w)
    {
      if stopped || fired || openRequests > 0 {
        return;
      }
      if remainingMs <= 0 {
        Expire(w);
        return;
      }
      leaked := leaked + if timer then [armedAt + remainingMs] else [];
      armedAt, timer := now, true;
    }

    method HoldTimer(now: int, ghost w: World)
      requires w == State(now, w.work)
      modifies this`fired, this`fires, this`timer, this`remainingMs
      ensures State(now, Hold(w).work) == Hold(w)
    {
      if !timer {
        return;
      }
      remainingMs := remainingMs - (now - armedAt);
      timer := false;
      if remainingMs <= 0 {
        Expire(w.(d := w.d.(remaining := remainingMs, armedAt := None)));
      }
    }

    method SetWaitingOnHuman(waiting: bool, now: int, ghost w: World)
      requires w == State(now, w.work)
      modifies this
      ensures State(now, Waiting(w, waiting).work) == Waiting(w, waiting)
    {
      if stopped || fired {
        return;
      }
      if waiting {
        var wasIdle := openRequests == 0;
        openRequests := openRequests + 1;
        if wasIdle {
          HoldTimer(now, w.(d := w.d.(open := openRequests)));
        }
      } else if openRequests > 0 {
        openRequests := openRequests - 1;
        if openRequests == 0 {
          ArmTimer(now, w.(d := w.d.(open := openRequests)));
        }
      }
    }

    method StopTimer(now: int, ghost w: World)
      requires w == State(now, w.work)
      modifies this`stopped, this`timer
      ensures State(now, Apply(w, Stop).work) == Apply(w, Stop)
    {
      stopped, timer := true, false;
    }
  }

  type Thread = nat
  type Handler = nat

  /** One handler per thread; an unregister removes only the handler it was made for. */
  class RoomTurnStallRegistry {
    var handlers: map<Thread, Handler>

    constructor ()
      ensures handlers == map[]
    {
      handlers := map[];
    }

    method Register(t: Thread, h: Handler)
      modifies this
      ensures handlers == old(handlers)[t := h]
    {
      handlers := handlers[t := h];
    }

    /** The function `register` returns. */
    method Unregister(t: Thread, h: Handler)
      modifies this
      ensures t in old(handlers) && old(handlers)[t] == h ==> handlers == old(handlers) - {t}
      ensures t in old(handlers) && old(handlers)[t] != h ==> handlers == old(handlers)
      ensures t !in old(handlers) ==> handlers == old(handlers)
    {
      if t in handlers && handlers[t] == h {
        handlers := handlers - {t};
      }
    }

    /** The handler to call: it leaves the registry first, so it is called at most once. */
    method Stall(t: Thread) returns (call: Option<Handler>)
      modifies this
      ensures call == if t in old(handlers) then Some(old(handlers)[t]) else None
      ensures handlers == old(handlers) - {t}
    {
      if t !in handlers {
        return None;
      }
      call := Some(handlers[t]);
      handlers := handlers - {t};
    }
  }
}
