/**
  * The routine scheduler: a persisted list of run receipts, a scheduling pass that turns due
  * routines into receipts, and a tick that hands queued receipts to `startTurn` one `await` at a
  * time while cancellations, webhooks, runtime events and restarts interleave with it.
  */
module Routines {
  import opened Wrappers
  import opened Calendar

  const CATCH_UP_MS: int := 12 * 60 * 60_000
  const MAX_RUNS: nat := 2000

  type Id = nat
  type Thread = nat

  datatype Status = Queued | Running | Waiting | Completed | Failed | Cancelled | Missed {
    predicate Active() { Running? || Waiting? }
    predicate Live() { Queued? || Active() }
    predicate Terminal() { !Live() }
  }

  datatype Trigger = FromCalendar | ByHand | FromWebhook

  /** `revision` is the edit of the routine a scheduled receipt was made under; only the model keeps it. */
  datatype Run = Run(owner: Id, revision: nat, trigger: Trigger, bot: Id, prompt: Option<string>,
                     scheduledFor: int, createdAt: int,
                     status: Status, thread: Option<Thread>, finishedAt: Option<int>)

  datatype Routine = Routine(id: Id, revision: nat, bot: Id, prompt: string, enabled: bool,
                             schedule: Schedule, nextRunAt: Option<int>)

  /** What `save` writes: the routines and the runs. `table` holds the run objects `runs` refers to,
    * `next` is the next unused id and `offset` the computer's distance from UTC. */
  datatype Book = Book(routines: seq<Routine>, runs: seq<Id>, table: map<Id, Run>, next: Id, offset: int)

  /** `queue` is the part of the tick's snapshot of `runs` it has not visited yet; `handed` lists the
    * runs given to `startTurn`, oldest first. */
  datatype Manager = Manager(book: Book, disk: Book, ticking: bool, queue: seq<Id>, handed: seq<Id>)

  // ---- Editing one book ----

  function Trim(runs: seq<Id>): seq<Id> {
    if |runs| > MAX_RUNS then runs[|runs| - MAX_RUNS..] else runs
  }

  function Push(b: Book, run: Run): Book {
    b.(runs := Trim(b.runs + [b.next]), table := b.table[b.next := run], next := b.next + 1)
  }

  function NewRun(r: Routine, scheduledFor: int, trigger: Trigger, now: int): Run {
    Run(r.id, r.revision, trigger, r.bot, Some(r.prompt), scheduledFor, now, Queued, None, None)
  }

  predicate Due(r: Routine, now: int) {
    r.enabled && r.nextRunAt.Some? && r.nextRunAt.value <= now
  }

  /** The receipt of a due routine: to be run when it is late by at most the catch-up window, else missed. */
  function Receipt(r: Routine, now: int): Run
    requires Due(r, now)
  {
    var run := NewRun(r, r.nextRunAt.value, FromCalendar, now);
    if now - r.nextRunAt.value > CATCH_UP_MS
    then run.(status := Missed, finishedAt := Some(now))
    else run
  }

  function Max(a: int, b: int): int {
    if a > b then a else b
  }

  function Advanced(r: Routine, now: int, offset: int): Routine
    requires Due(r, now)
  {
    if r.schedule.Once? then r.(enabled := false, nextRunAt := None)
    else r.(nextRunAt := Next(r.schedule, Max(now, r.nextRunAt.value), offset))
  }

  function PassOne(b: Book, k: nat, now: int): Book
    requires k < |b.routines|
  {
    var r := b.routines[k];
    if !Due(r, now) then b
    else Push(b, Receipt(r, now)).(routines := b.routines[k := Advanced(r, now, b.offset)])
  }

  /** The scheduling pass of a tick over the routines from `k` on. */
  function Pass(b: Book, k: nat, now: int): (r: Book)
    requires k <= |b.routines|
    decreases |b.routines| - k
  {
    if k == |b.routines| then b else Pass(PassOne(b, k, now), k + 1, now)
  }

  function Ended(run: Run, status: Status, now: int): Run {
    run.(status := status, finishedAt := Some(now))
  }

  function SetRun(b: Book, id: Id, run: Run): Book {
    b.(table := b.table[id := run])
  }

  datatype Scope =
    | QueuedOf(owner: Id)
    | QueuedWebhook(webhook: Id)
    | LiveOfBot(bot: Id)
    | LiveRun(run: Id)

  predicate Selects(scope: Scope, id: Id, run: Run) {
    match scope
    case QueuedOf(owner) => run.owner == owner && run.status.Queued?
    case QueuedWebhook(webhook) => run.trigger.FromWebhook? && run.owner == webhook && run.status.Queued?
    case LiveOfBot(bot) => run.bot == bot && run.status.Live()
    case LiveRun(wanted) => id == wanted && run.status.Live()
  }

  /** Every run of `listed` the scope selects ends as cancelled. */
  function CancelledIn(t: map<Id, Run>, listed: seq<Id>, scope: Scope, now: int): map<Id, Run> {
    map id | id in t :: if id in listed && Selects(scope, id, t[id]) then Ended(t[id], Cancelled, now) else t[id]
  }

  function Cancelling(b: Book, scope: Scope, now: int): Book {
    b.(table := CancelledIn(b.table, b.runs, scope, now))
  }

  function InitialOccurrence(schedule: Schedule, now: int, offset: int): Option<int> {
    if schedule.Once? then Some(Max(schedule.at, now)) else Next(schedule, now, offset)
  }

  function StartingAt(enabled: bool, schedule: Schedule, now: int, offset: int): Option<int> {
    if enabled then InitialOccurrence(schedule, now, offset) else None
  }

  datatype Patch = Patch(bot: Option<Id>, prompt: Option<string>, enabled: Option<bool>, schedule: Option<Schedule>)

  function Patched(r: Routine, p: Patch, now: int, offset: int): Routine {
    var enabled := p.enabled.GetOr(r.enabled);
    var schedule := p.schedule.GetOr(r.schedule);
    Routine(r.id, r.revision + 1, p.bot.GetOr(r.bot), p.prompt.GetOr(r.prompt), enabled, schedule,
            StartingAt(enabled, schedule, now, offset))
  }

  /** Index of the routine with this id, or the number of routines. */
  function IndexOf(routines: seq<Routine>, id: Id): (k: nat)
    ensures k <= |routines| && (k < |routines| ==> routines[k].id == id)
    ensures forall j :: 0 <= j < k ==> routines[j].id != id
  {
    if routines == [] then 0
    else if routines[0].id == id then 0
    else 1 + IndexOf(routines[1..], id)
  }

  function Idle(r: Routine): Routine {
    r.(enabled := false, nextRunAt := None)
  }

  function Idled(routines: seq<Routine>, bot: Id): (r: seq<Routine>)
    ensures |r| == |routines|
    ensures forall k :: 0 <= k < |r| ==> r[k] == if routines[k].bot == bot && routines[k].enabled
                                                 then Idle(routines[k]) else routines[k]
  {
    seq(|routines|, k requires 0 <= k < |routines| =>
      if routines[k].bot == bot && routines[k].enabled then Idle(routines[k]) else routines[k])
  }

  /** The first listed run that is active on `thread`. */
  function FindActive(runs: seq<Id>, table: map<Id, Run>, thread: Thread): (r: Option<Id>)
    ensures r.Some? ==> r.value in runs && r.value in table
                        && table[r.value].status.Active() && table[r.value].thread == Some(thread)
  {
    if runs == [] then None
    else if runs[0] in table && table[runs[0]].thread == Some(thread) && table[runs[0]].status.Active()
    then Some(runs[0])
    else FindActive(runs[1..], table, thread)
  }

  datatype Event = RequestOpened | RequestResolved | Noted | Retrying | TurnCompleted(ok: bool) | Other

  function Observed(run: Run, e: Event, now: int): Run {
    match e
    case RequestOpened => run.(status := Waiting)
    case RequestResolved => run.(status := Running)
    case TurnCompleted(ok) => Ended(run, if ok then Completed else Failed, now)
    case _ => run
  }

  function FailedIn(t: map<Id, Run>, listed: seq<Id>, now: int): map<Id, Run> {
    map id | id in t :: if id in listed && t[id].status.Active() then Ended(t[id], Failed, now) else t[id]
  }

  /** Startup: no turn of an earlier process is still running. */
  function Recovered(disk: Book, next: Id, now: int): Book {
    disk.(next := next, table := FailedIn(disk.table, disk.runs, now))
  }

  // ---- One synchronous segment of the manager ----

  datatype BotState = Ready | Busy | Gone

  /** `saved` says whether the write to disk in that segment succeeded. */
  datatype Step =
    | Create(bot: Id, prompt: string, enabled: bool, schedule: Schedule, now: int, saved: bool)
    | Update(id: Id, patch: Patch, now: int, saved: bool)
    | Remove(id: Id, now: int, saved: bool)
    | DisableBot(bot: Id, now: int, saved: bool)
    | RunNow(id: Id, now: int, saved: bool)
    | Webhook(webhook: Id, bot: Id, prompt: string, receivedAt: int, now: int, saved: bool)
    | Cancel(scope: Scope, now: int, saved: bool)
    | Seen(saved: bool)
    | Runtime(thread: Thread, event: Event, now: int, saved: bool)
    | Rejected(thread: Thread, now: int, saved: bool, inTick: bool)
    | TickStart(now: int, saved: bool)
    | Visit(state: BotState, task: Option<Thread>, now: int, saved: bool, savedAgain: bool)
    | Restart(now: int, saved: bool)

  /** The file holds the runs that `runs` lists; what the table says of a run that dropped off the list
    * is the object's own, and on no file. */
  function Saving(m: Manager, saved: bool): Manager {
    if saved then m.(disk := m.book) else m
  }

  /** Replace the book and write it, unless nothing changed. */
  function Writing(m: Manager, b: Book, saved: bool): Manager {
    if b == m.book then m else Saving(m.(book := b), saved)
  }

  function Stopped(m: Manager): Manager {
    m.(ticking := false, queue := [])
  }

  /** A write that throws inside the tick ends it. */
  function InTick(m: Manager, saved: bool): Manager {
    if saved then m else Stopped(m)
  }

  function Failing(b: Book, thread: Thread, now: int): Book {
    var found := FindActive(b.runs, b.table, thread);
    if found.None? then b else SetRun(b, found.value, Ended(b.table[found.value], Failed, now))
  }

  function Edited(b: Book, id: Id, p: Patch, now: int): Book {
    var k := IndexOf(b.routines, id);
    if k == |b.routines| then b
    else
      var edited := b.(routines := b.routines[k := Patched(b.routines[k], p, now, b.offset)]);
      if p.enabled == Some(false) then Cancelling(edited, QueuedOf(id), now) else edited
  }

  function Removed(b: Book, id: Id, now: int): Book {
    var k := IndexOf(b.routines, id);
    if k == |b.routines| then b
    else Cancelling(b.(routines := Without(b.routines, k)), QueuedOf(id), now)
  }

  function Created(b: Book, bot: Id, prompt: string, enabled: bool, schedule: Schedule, now: int): Book {
    var routine := Routine(b.next, 0, bot, prompt, enabled, schedule, StartingAt(enabled, schedule, now, b.offset));
    b.(routines := [routine] + b.routines, next := b.next + 1)
  }

  function RunByHand(b: Book, id: Id, now: int): Book {
    var k := IndexOf(b.routines, id);
    if k == |b.routines| then b else Push(b, NewRun(b.routines[k], now, ByHand, now))
  }

  function WebhookRun(webhook: Id, bot: Id, prompt: string, receivedAt: int, now: int): Run {
    Run(webhook, 0, FromWebhook, bot, Some(prompt), receivedAt, now, Queued, None, None)
  }

  function Observing(b: Book, thread: Thread, e: Event, now: int): Book {
    var found := FindActive(b.runs, b.table, thread);
    if found.None? then b else SetRun(b, found.value, Observed(b.table[found.value], e, now))
  }

  /** Whether an event is written to disk at all. */
  predicate Recorded(b: Book, thread: Thread, e: Event) {
    FindActive(b.runs, b.table, thread).Some? && !e.Retrying? && !e.Other?
  }

  function Reversed(s: seq<Id>): (r: seq<Id>)
    ensures |r| == |s| && forall k :: 0 <= k < |s| ==> r[k] == s[|s| - 1 - k]
  {
    if s == [] then [] else Reversed(s[1..]) + [s[0]]
  }

  /** The run's own prompt, or else its routine's, and not an empty one. */
  predicate HasPrompt(b: Book, run: Run) {
    var k := IndexOf(b.routines, run.owner);
    if run.prompt.Some? then run.prompt.value != "" else k < |b.routines| && b.routines[k].prompt != ""
  }

  /** A queued run that cannot start ends at once. */
  function Dropped(m: Manager, id: Id, now: int, saved: bool): Manager
    requires id in m.book.table
  {
    InTick(Saving(m.(book := SetRun(m.book, id, Ended(m.book.table[id], Failed, now))), saved), saved)
  }

  function Started(b: Book, id: Id, thread: Thread): Book
    requires id in b.table
  {
    SetRun(b, id, b.table[id].(status := Running, thread := Some(thread)))
  }

  /** A queued run gets its task, is written as running, and only then is handed over. */
  function Launched(m: Manager, id: Id, thread: Thread, now: int, saved: bool, savedAgain: bool): Manager
    requires id in m.book.table
  {
    var started := Saving(m.(book := Started(m.book, id, thread)), saved);
    if !saved then Stopped(started)
    else if HasPrompt(m.book, m.book.table[id]) then started.(handed := m.handed + [id])
    else Unprompted(started, thread, now, savedAgain)
  }

  /** A run without a prompt fails. The loop catches a failed write here, and goes on. */
  function Unprompted(m: Manager, thread: Thread, now: int, saved: bool): Manager {
    if FindActive(m.book.runs, m.book.table, thread).None? then m
    else Saving(m.(book := Failing(m.book, thread, now)), saved)
  }

  /** One turn of the tick's loop, up to the call of `startTurn`. */
  function Visited(m: Manager, s: Step): Manager
    requires s.Visit?
  {
    if m.queue == [] then Stopped(m)
    else
      var id, rest := m.queue[0], m.(queue := m.queue[1..]);
      if id !in m.book.table || !m.book.table[id].status.Queued? || s.state.Busy? then rest
      else if s.state.Gone? || s.task.None? then Dropped(rest, id, s.now, s.saved)
      else Launched(rest, id, s.task.value, s.now, s.saved, s.savedAgain)
  }

  function Apply(m: Manager, s: Step): Manager {
    match s
    case Create(bot, prompt, enabled, schedule, now, saved) =>
      Writing(m, Created(m.book, bot, prompt, enabled, schedule, now), saved)
    case Update(id, patch, now, saved) => Writing(m, Edited(m.book, id, patch, now), saved)
    case Remove(id, now, saved) => Writing(m, Removed(m.book, id, now), saved)
    case DisableBot(bot, now, saved) =>
      Writing(m, Cancelling(m.book.(routines := Idled(m.book.routines, bot)), LiveOfBot(bot), now), saved)
    case RunNow(id, now, saved) => Writing(m, RunByHand(m.book, id, now), saved)
    case Webhook(webhook, bot, prompt, receivedAt, now, saved) =>
      Writing(m, Push(m.book, WebhookRun(webhook, bot, prompt, receivedAt, now)), saved)
    case Cancel(scope, now, saved) => Writing(m, Cancelling(m.book, scope, now), saved)
    case Seen(saved) => Saving(m, saved)
    case Runtime(thread, event, now, saved) =>
      if Recorded(m.book, thread, event)
      then Saving(m.(book := Observing(m.book, thread, event, now)), saved)
      else m
    case Rejected(thread, now, saved, inTick) =>
      if FindActive(m.book.runs, m.book.table, thread).None? then m
      else
        var after := Saving(m.(book := Failing(m.book, thread, now)), saved);
        if inTick then InTick(after, saved) else after
    case TickStart(now, saved) =>
      if m.ticking then m
      else
        var passed := Pass(m.book, 0, now);
        if passed != m.book && !saved then m.(book := passed)
        else Writing(m, passed, saved).(ticking := true, queue := Reversed(passed.runs))
    case Visit(_, _, _, _, _) => Visited(m, s)
    case Restart(now, saved) =>
      var b := Recovered(m.disk, m.book.next, now);
      Stopped(if b.table == m.disk.table then m.(book := b) else Saving(m.(book := b), saved))
  }

  /** The steps lead from `m` to `n`. */
  ghost predicate Leads(m: Manager, steps: seq<Step>, n: Manager)
    decreases |steps|
  {
    if steps == [] then m == n else Leads(Apply(m, steps[0]), steps[1..], n)
  }

  // ---- What one run object may become ----

  /** The same run, at most moved forward: an ended run keeps its end, and nothing is queued again. */
  predicate Later(r: Run, s: Run) {
    && s.owner == r.owner && s.revision == r.revision && s.trigger == r.trigger
    && s.scheduledFor == r.scheduledFor && s.createdAt == r.createdAt
    && (r.status.Terminal() ==> s.status == r.status && s.finishedAt == r.finishedAt)
    && (!r.status.Queued? ==> !s.status.Queued?)
    && (Sound(r) ==> Sound(s))
  }

  predicate Sound(r: Run) {
    r.finishedAt.Some? <==> r.status.Terminal()
  }

  ghost predicate AllSound(t: map<Id, Run>) {
    forall id :: id in t ==> Sound(t[id])
  }

  ghost predicate Evolves(a: Book, b: Book) {
    && a.next <= b.next
    && (forall id :: id in a.table ==> id in b.table && Later(a.table[id], b.table[id]))
    && (forall id :: id in b.table && id < a.next ==> id in a.table)
  }

  ghost predicate Filed(b: Book) {
    && (forall id :: id in b.table ==> id < b.next)
    && (forall id :: id in b.runs ==> id in b.table)
  }

  /** A change of the book that files what it adds. */
  ghost predicate Grows(a: Book, b: Book) {
    && Evolves(a, b)
    && (Filed(a) ==> Filed(b))
    && (AllSound(a.table) ==> AllSound(b.table))
  }

  lemma GrowsOn(a: Book, b: Book, c: Book)
    requires Grows(a, b) && Grows(b, c)
    ensures Grows(a, c)
  {
    forall id | id in a.table ensures id in c.table && Later(a.table[id], c.table[id]) {
      assert Later(a.table[id], b.table[id]) && Later(b.table[id], c.table[id]);
    }
  }

  lemma PushGrows(b: Book, run: Run, routines: seq<Routine>)
    requires Filed(b) && Sound(run)
    ensures Grows(b, Push(b, run).(routines := routines))
  {
    var c := Push(b, run).(routines := routines);
    forall id | id in c.runs ensures id in c.table {
      assert id in b.runs + [b.next];
    }
  }

  lemma SetRunGrows(b: Book, id: Id, run: Run)
    requires id in b.table && Later(b.table[id], run)
    ensures Grows(b, SetRun(b, id, run))
  {
  }

  lemma CancellingGrows(b: Book, scope: Scope, now: int)
    ensures Grows(b, Cancelling(b, scope, now))
  {
  }

  lemma {:induction false} PassGrows(b: Book, k: nat, now: int)
    requires k <= |b.routines| && Filed(b)
    ensures Grows(b, Pass(b, k, now)) && |Pass(b, k, now).routines| == |b.routines|
    decreases |b.routines| - k
  {
    if k < |b.routines| {
      var c := PassOne(b, k, now);
      if Due(b.routines[k], now) {
        PushGrows(b, Receipt(b.routines[k], now), c.routines);
        assert c == Push(b, Receipt(b.routines[k], now)).(routines := c.routines);
      }
      assert Grows(b, c);
      PassGrows(c, k + 1, now);
      GrowsOn(b, c, Pass(c, k + 1, now));
    }
  }

  lemma FailingGrows(b: Book, thread: Thread, now: int)
    ensures Grows(b, Failing(b, thread, now))
  {
    var found := FindActive(b.runs, b.table, thread);
    if found.Some? {
      SetRunGrows(b, found.value, Ended(b.table[found.value], Failed, now));
    }
  }

  lemma ObservingGrows(b: Book, thread: Thread, e: Event, now: int)
    ensures Grows(b, Observing(b, thread, e, now))
  {
    var found := FindActive(b.runs, b.table, thread);
    if found.Some? {
      SetRunGrows(b, found.value, Observed(b.table[found.value], e, now));
    }
  }

  lemma EditedGrows(b: Book, id: Id, p: Patch, now: int)
    ensures Grows(b, Edited(b, id, p, now))
  {
    var k := IndexOf(b.routines, id);
    if k < |b.routines| {
      var edited := b.(routines := b.routines[k := Patched(b.routines[k], p, now, b.offset)]);
      CancellingGrows(edited, QueuedOf(id), now);
    }
  }

  lemma RemovedGrows(b: Book, id: Id, now: int)
    ensures Grows(b, Removed(b, id, now))
  {
    var k := IndexOf(b.routines, id);
    if k < |b.routines| {
      CancellingGrows(b.(routines := Without(b.routines, k)), QueuedOf(id), now);
    }
  }

  lemma RunByHandGrows(b: Book, id: Id, now: int)
    requires Filed(b)
    ensures Grows(b, RunByHand(b, id, now))
  {
    var k := IndexOf(b.routines, id);
    if k < |b.routines| {
      PushGrows(b, NewRun(b.routines[k], now, ByHand, now), b.routines);
    }
  }

  lemma CreatedGrows(b: Book, bot: Id, prompt: string, enabled: bool, schedule: Schedule, now: int)
    requires Filed(b)
    ensures Grows(b, Created(b, bot, prompt, enabled, schedule, now))
  {
  }

  /** The book a step other than a visit or a restart leaves in memory. */
  function BookAfter(b: Book, ticking: bool, s: Step): Book
    requires !s.Visit? && !s.Restart?
  {
    match s
    case Create(bot, prompt, enabled, schedule, now, _) => Created(b, bot, prompt, enabled, schedule, now)
    case Update(id, patch, now, _) => Edited(b, id, patch, now)
    case Remove(id, now, _) => Removed(b, id, now)
    case DisableBot(bot, now, _) => Cancelling(b.(routines := Idled(b.routines, bot)), LiveOfBot(bot), now)
    case RunNow(id, now, _) => RunByHand(b, id, now)
    case Webhook(webhook, bot, prompt, receivedAt, now, _) => Push(b, WebhookRun(webhook, bot, prompt, receivedAt, now))
    case Cancel(scope, now, _) => Cancelling(b, scope, now)
    case Seen(_) => b
    case Runtime(thread, event, now, _) =>
      if Recorded(b, thread, event) then Observing(b, thread, event, now) else b
    case Rejected(thread, now, _, _) => Failing(b, thread, now)
    case TickStart(now, _) => if ticking then b else Pass(b, 0, now)
  }

  lemma EditGrows(b: Book, s: Step)
    requires Filed(b) && (s.Create? || s.Update? || s.Remove? || s.DisableBot? || s.Cancel?)
    ensures Grows(b, BookAfter(b, false, s))
  {
    match s
    case Create(bot, prompt, enabled, schedule, now, _) => CreatedGrows(b, bot, prompt, enabled, schedule, now);
    case Update(id, patch, now, _) => EditedGrows(b, id, patch, now);
    case Remove(id, now, _) => RemovedGrows(b, id, now);
    case DisableBot(bot, now, _) => CancellingGrows(b.(routines := Idled(b.routines, bot)), LiveOfBot(bot), now);
    case Cancel(scope, now, _) => CancellingGrows(b, scope, now);
  }

  lemma BookAfterGrows(b: Book, ticking: bool, s: Step)
    requires Filed(b) && !s.Visit? && !s.Restart?
    ensures Grows(b, BookAfter(b, ticking, s))
  {
    match s
    case RunNow(id, now, _) => RunByHandGrows(b, id, now);
    case Webhook(webhook, bot, prompt, receivedAt, now, _) =>
      PushGrows(b, WebhookRun(webhook, bot, prompt, receivedAt, now), b.routines);
    case Seen(_) =>
    case Runtime(thread, event, now, _) => ObservingGrows(b, thread, event, now);
    case Rejected(thread, now, _, _) => FailingGrows(b, thread, now);
    case TickStart(now, _) => PassGrows(b, 0, now);
    case _ => EditGrows(b, s);
  }

  // ---- Invariants of the manager ----

  /** A handed run is not queued in this book, so no later tick can pick it up again. */
  ghost predicate Spent(b: Book, handed: seq<Id>) {
    forall id :: id in handed && id in b.table ==> !b.table[id].status.Queued?
  }

  /** An end that was written to disk is the end in memory too. */
  ghost predicate Durable(disk: Book, book: Book) {
    forall id :: id in disk.table && disk.table[id].status.Terminal() ==>
      id in book.table && SameEnd(disk.table[id], book.table[id])
  }

  predicate SameEnd(r: Run, s: Run) {
    s.status == r.status && s.finishedAt == r.finishedAt
  }

  ghost predicate NoRepeats(s: seq<Id>) {
    forall i, j :: 0 <= i < j < |s| ==> s[i] != s[j]
  }

  ghost predicate Valid(m: Manager) {
    && Filed(m.book) && Filed(m.disk) && m.disk.next <= m.book.next
    && (forall id :: id in m.queue ==> id in m.book.table)
    && AllSound(m.book.table) && AllSound(m.disk.table)
    && (forall id :: id in m.handed ==> id < m.book.next)
    && NoRepeats(m.handed) && Spent(m.book, m.handed) && Spent(m.disk, m.handed)
    && Durable(m.disk, m.book)
  }

  lemma BookKeeps(m: Manager, b: Book)
    requires Valid(m) && Grows(m.book, b)
    ensures Valid(m.(book := b))
  {
  }

  lemma SavingKeeps(m: Manager, saved: bool)
    requires Valid(m)
    ensures Valid(Saving(m, saved))
  {
  }

  lemma QueueKeeps(m: Manager, ticking: bool, queue: seq<Id>)
    requires Valid(m) && forall id :: id in queue ==> id in m.book.table
    ensures Valid(m.(ticking := ticking, queue := queue))
  {
  }

  lemma WritingKeeps(m: Manager, b: Book, saved: bool)
    requires Valid(m) && Grows(m.book, b)
    ensures Valid(Writing(m, b, saved))
  {
    BookKeeps(m, b);
    SavingKeeps(m.(book := b), saved);
  }

  lemma HandingKeeps(m: Manager, id: Id)
    requires Valid(m) && id !in m.handed && id < m.book.next
    requires id in m.book.table ==> !m.book.table[id].status.Queued?
    requires id in m.disk.table ==> !m.disk.table[id].status.Queued?
    ensures Valid(m.(handed := m.handed + [id]))
  {
  }

  lemma FailVisitKeeps(m: Manager, b: Book, saved: bool)
    requires Valid(m) && Grows(m.book, b)
    ensures Valid(InTick(Saving(m.(book := b), saved), saved))
  {
    BookKeeps(m, b);
    SavingKeeps(m.(book := b), saved);
    QueueKeeps(m.(book := b), false, []);
  }

  lemma DroppedKeeps(m: Manager, id: Id, now: int, saved: bool)
    requires Valid(m) && id in m.book.table && m.book.table[id].status.Queued?
    ensures Valid(Dropped(m, id, now, saved))
  {
    SetRunGrows(m.book, id, Ended(m.book.table[id], Failed, now));
    FailVisitKeeps(m, SetRun(m.book, id, Ended(m.book.table[id], Failed, now)), saved);
  }

  lemma StartedGrows(b: Book, id: Id, thread: Thread)
    requires id in b.table && b.table[id].status.Queued?
    ensures Grows(b, Started(b, id, thread))
  {
    SetRunGrows(b, id, b.table[id].(status := Running, thread := Some(thread)));
  }

  lemma UnpromptedKeeps(m: Manager, thread: Thread, now: int, saved: bool)
    requires Valid(m)
    ensures Valid(Unprompted(m, thread, now, saved))
  {
    FailingGrows(m.book, thread, now);
    BookKeeps(m, Failing(m.book, thread, now));
    SavingKeeps(m.(book := Failing(m.book, thread, now)), saved);
  }

  lemma LaunchedKeeps(m: Manager, id: Id, thread: Thread, now: int, saved: bool, savedAgain: bool)
    requires Valid(m) && id in m.book.table && m.book.table[id].status.Queued?
    ensures Valid(Launched(m, id, thread, now, saved, savedAgain))
  {
    var b := Started(m.book, id, thread);
    StartedGrows(m.book, id, thread);
    BookKeeps(m, b);
    SavingKeeps(m.(book := b), saved);
    var started := Saving(m.(book := b), saved);
    QueueKeeps(started, false, []);
    if saved {
      HandingKeeps(started, id);
      UnpromptedKeeps(started, thread, now, savedAgain);
    }
  }

  lemma VisitKeeps(m: Manager, s: Step)
    requires Valid(m) && s.Visit?
    ensures Valid(Visited(m, s))
  {
    QueueKeeps(m, false, []);
    if m.queue != [] {
      var id, rest := m.queue[0], m.(queue := m.queue[1..]);
      QueueKeeps(m, m.ticking, m.queue[1..]);
      if m.book.table[id].status.Queued? && !s.state.Busy? {
        if s.state.Gone? || s.task.None? {
          DroppedKeeps(rest, id, s.now, s.saved);
        } else {
          LaunchedKeeps(rest, id, s.task.value, s.now, s.saved, s.savedAgain);
        }
      }
    }
  }

  lemma RestartKeeps(m: Manager, now: int)
    requires Valid(m)
    ensures Valid(m.(book := Recovered(m.disk, m.book.next, now), queue := []))
  {
  }

  lemma ReversedMembers(s: seq<Id>, id: Id)
    requires id in Reversed(s)
    ensures id in s
  {
    var k :| 0 <= k < |s| && Reversed(s)[k] == id;
    assert s[|s| - 1 - k] == id;
  }

  lemma TickStartKeeps(m: Manager, s: Step)
    requires Valid(m) && s.TickStart?
    ensures Valid(Apply(m, s))
  {
    if !m.ticking {
      PassGrows(m.book, 0, s.now);
      var passed := Pass(m.book, 0, s.now);
      BookKeeps(m, passed);
      WritingKeeps(m, passed, s.saved);
      forall id | id in Reversed(passed.runs) ensures id in passed.table {
        ReversedMembers(passed.runs, id);
      }
      QueueKeeps(Writing(m, passed, s.saved), true, Reversed(passed.runs));
    }
  }

  lemma RestartStepKeeps(m: Manager, s: Step)
    requires Valid(m) && s.Restart?
    ensures Valid(Apply(m, s))
  {
    RestartKeeps(m, s.now);
    var r := m.(book := Recovered(m.disk, m.book.next, s.now), queue := []);
    SavingKeeps(r, s.saved);
    QueueKeeps(r, false, []);
    QueueKeeps(Saving(r, s.saved), false, []);
  }

  lemma EventKeeps(m: Manager, s: Step)
    requires Valid(m) && (s.Seen? || s.Runtime? || s.Rejected?)
    ensures Valid(Apply(m, s))
  {
    var b := BookAfter(m.book, m.ticking, s);
    BookAfterGrows(m.book, m.ticking, s);
    SavingKeeps(m, s.saved);
    BookKeeps(m, b);
    SavingKeeps(m.(book := b), s.saved);
    QueueKeeps(Saving(m.(book := b), s.saved), false, []);
  }

  lemma StepKeeps(m: Manager, s: Step)
    requires Valid(m)
    ensures Valid(Apply(m, s))
  {
    match s
    case Visit(_, _, _, _, _) => VisitKeeps(m, s);
    case Restart(_, _) => RestartStepKeeps(m, s);
    case TickStart(_, _) => TickStartKeeps(m, s);
    case Seen(_) => EventKeeps(m, s);
    case Runtime(_, _, _, _) => EventKeeps(m, s);
    case Rejected(_, _, _, _) => EventKeeps(m, s);
    case _ =>
      BookAfterGrows(m.book, m.ticking, s);
      WritingKeeps(m, BookAfter(m.book, m.ticking, s), s.saved);
  }

  /** A start from any saved book none of whose runs was handed over yet. */
  ghost predicate Boot(m: Manager) {
    && m.book == m.disk && m.handed == [] && m.queue == [] && !m.ticking
    && Filed(m.disk) && AllSound(m.disk.table)
  }

  lemma {:induction false} RunKeeps(m: Manager, steps: seq<Step>, n: Manager)
    requires Valid(m) && Leads(m, steps, n)
    ensures Valid(n)
    decreases |steps|
  {
    if steps != [] {
      StepKeeps(m, steps[0]);
      RunKeeps(Apply(m, steps[0]), steps[1..], n);
    }
  }

  /** Over any interleaving, crashes and failed writes included, no run is handed to `startTurn` twice. */
  lemma EachRunStartsAtMostOnce(m: Manager, steps: seq<Step>, n: Manager)
    requires Boot(m) && Leads(m, steps, n)
    ensures NoRepeats(n.handed)
  {
    RunKeeps(m, steps, n);
  }

  /** A run carries a finishing time exactly when it has ended, in memory and on disk. */
  lemma FinishedExactlyWhenEnded(m: Manager, steps: seq<Step>, n: Manager, id: Id)
    requires Boot(m) && Leads(m, steps, n)
    ensures id in n.book.table ==> Sound(n.book.table[id])
    ensures id in n.disk.table ==> Sound(n.disk.table[id])
  {
    RunKeeps(m, steps, n);
  }

  // ---- Ends are final ----

  /** The book moved on without new runs or changes to routines. */
  ghost predicate InPlace(a: Book, b: Book) {
    && Evolves(a, b) && b.table.Keys == a.table.Keys
    && b.routines == a.routines && b.runs == a.runs && b.next == a.next
  }

  lemma FailingInPlace(b: Book, thread: Thread, now: int)
    ensures InPlace(b, Failing(b, thread, now))
  {
    FailingGrows(b, thread, now);
  }

  lemma LaunchedInPlace(m: Manager, id: Id, thread: Thread, now: int, saved: bool, savedAgain: bool)
    requires id in m.book.table && m.book.table[id].status.Queued?
    ensures var r := Launched(m, id, thread, now, saved, savedAgain);
            InPlace(m.book, r.book) && (r.disk == m.disk || InPlace(m.book, r.disk))
  {
    var b := Started(m.book, id, thread);
    StartedGrows(m.book, id, thread);
    FailingInPlace(b, thread, now);
    FailingGrows(b, thread, now);
    GrowsOn(m.book, b, Failing(b, thread, now));
    assert InPlace(m.book, b) && InPlace(m.book, Failing(b, thread, now));
  }

  lemma DroppedInPlace(m: Manager, id: Id, now: int, saved: bool)
    requires id in m.book.table && m.book.table[id].status.Queued?
    ensures var r := Dropped(m, id, now, saved);
            InPlace(m.book, r.book) && (r.disk == m.disk || InPlace(m.book, r.disk))
  {
    SetRunGrows(m.book, id, Ended(m.book.table[id], Failed, now));
  }

  lemma VisitInPlace(m: Manager, s: Step)
    requires s.Visit?
    ensures InPlace(m.book, Visited(m, s).book)
    ensures Visited(m, s).disk == m.disk || InPlace(m.book, Visited(m, s).disk)
  {
    if m.queue != [] && m.queue[0] in m.book.table && m.book.table[m.queue[0]].status.Queued? && !s.state.Busy? {
      var id, rest := m.queue[0], m.(queue := m.queue[1..]);
      if s.state.Gone? || s.task.None? {
        DroppedInPlace(rest, id, s.now, s.saved);
      } else {
        LaunchedInPlace(rest, id, s.task.value, s.now, s.saved, s.savedAgain);
      }
    }
  }

  /** Within one process every step moves each run object forward only. */
  lemma StepEvolves(m: Manager, s: Step)
    requires Valid(m) && !s.Restart?
    ensures Evolves(m.book, Apply(m, s).book)
  {
    if s.Visit? {
      VisitInPlace(m, s);
    } else {
      BookAfterGrows(m.book, m.ticking, s);
      BookIsBookAfter(m, s);
    }
  }

  /** Within one process an ended run keeps its status and its finishing time. */
  lemma {:induction false} EndIsAbsorbing(m: Manager, steps: seq<Step>, n: Manager, id: Id)
    requires Valid(m) && id in m.book.table && m.book.table[id].status.Terminal()
    requires Leads(m, steps, n) && forall s :: s in steps ==> !s.Restart?
    ensures id in n.book.table && SameEnd(m.book.table[id], n.book.table[id])
    decreases |steps|
  {
    if steps != [] {
      StepKeeps(m, steps[0]);
      StepEvolves(m, steps[0]);
      EndIsAbsorbing(Apply(m, steps[0]), steps[1..], n, id);
    }
  }

  lemma DiskKeepsEnd(m: Manager, s: Step, id: Id)
    requires Valid(m) && id in m.disk.table && m.disk.table[id].status.Terminal()
    ensures id in Apply(m, s).disk.table && SameEnd(m.disk.table[id], Apply(m, s).disk.table[id])
  {
    if !s.Restart? {
      DiskIsOldOrNew(m, s);
      DiskEndInMemory(m, id);
      StepEvolves(m, s);
    }
  }

  lemma DiskEndInMemory(m: Manager, id: Id)
    requires Valid(m) && id in m.disk.table && m.disk.table[id].status.Terminal()
    ensures id in m.book.table && SameEnd(m.disk.table[id], m.book.table[id])
  {
  }

  /** Within a step the disk is left alone, or holds the book before or after a second change. */
  lemma DiskIsOldOrNew(m: Manager, s: Step)
    requires Valid(m) && !s.Restart?
    ensures Apply(m, s).disk == m.disk || Evolves(m.book, Apply(m, s).disk)
  {
    if s.Visit? {
      VisitInPlace(m, s);
    } else {
      StepEvolves(m, s);
    }
  }

  /** Once an end was written, no step, crash or restart ever changes it, on disk or in memory, as long as
    * the run is listed there. */
  lemma {:induction false} WrittenEndIsFinal(m: Manager, steps: seq<Step>, n: Manager, id: Id)
    requires Valid(m) && id in m.disk.table && m.disk.table[id].status.Terminal() && Leads(m, steps, n)
    ensures id in n.disk.table && SameEnd(m.disk.table[id], n.disk.table[id])
    ensures id in n.book.table && SameEnd(m.disk.table[id], n.book.table[id])
    decreases |steps|
  {
    DiskEndInMemory(m, id);
    if steps != [] {
      StepKeeps(m, steps[0]);
      DiskKeepsEnd(m, steps[0], id);
      WrittenEndIsFinal(Apply(m, steps[0]), steps[1..], n, id);
    }
  }

  /** A run whose end was written before it was handed over is never handed over: neither a cancelled
    * nor a missed run can start later, whatever crashes and restarts come in between. */
  lemma {:induction false} EndedNeverStarts(m: Manager, steps: seq<Step>, n: Manager, id: Id)
    requires Valid(m) && id in m.disk.table && m.disk.table[id].status.Terminal() && id !in m.handed
    requires Leads(m, steps, n)
    ensures id !in n.handed
    decreases |steps|
  {
    if steps != [] {
      StepKeeps(m, steps[0]);
      DiskKeepsEnd(m, steps[0], id);
      DiskEndInMemory(m, id);
      if Apply(m, steps[0]).handed != m.handed {
        HandoverIsWritten(m, steps[0]);
      }
      EndedNeverStarts(Apply(m, steps[0]), steps[1..], n, id);
    }
  }

  /** A run that ended in memory is not handed over later in the same process, written or not. */
  lemma {:induction false} EndedHereNeverStarts(m: Manager, steps: seq<Step>, n: Manager, id: Id)
    requires Valid(m) && id in m.book.table && m.book.table[id].status.Terminal() && id !in m.handed
    requires Leads(m, steps, n) && forall s :: s in steps ==> !s.Restart?
    ensures id !in n.handed
    decreases |steps|
  {
    if steps != [] {
      StepKeeps(m, steps[0]);
      StepEvolves(m, steps[0]);
      if Apply(m, steps[0]).handed != m.handed {
        HandoverIsWritten(m, steps[0]);
      }
      EndedHereNeverStarts(Apply(m, steps[0]), steps[1..], n, id);
    }
  }

  // ---- Receipts follow the calendar ----

  predicate SameSeries(r: Run, s: Run) {
    r.trigger.FromCalendar? && s.trigger.FromCalendar? && r.owner == s.owner && r.revision == s.revision
  }

  /** Receipts of one edit of a routine were made in the order of their scheduled times. */
  ghost predicate Ordered(t: map<Id, Run>) {
    forall i, j :: i in t && j in t && i < j && SameSeries(t[i], t[j]) ==> t[i].scheduledFor < t[j].scheduledFor
  }

  ghost predicate Punctual(t: map<Id, Run>) {
    forall i :: i in t && t[i].trigger.FromCalendar? ==> t[i].scheduledFor <= t[i].createdAt
  }

  ghost predicate OwnersBelow(t: map<Id, Run>, next: Id) {
    forall i :: i in t && t[i].trigger.FromCalendar? ==> t[i].owner < next
  }

  /** The routine's next time lies after every receipt of its current edit. */
  ghost predicate Bounded(t: map<Id, Run>, r: Routine) {
    forall i :: i in t && t[i].trigger.FromCalendar? && t[i].owner == r.id ==>
      t[i].revision <= r.revision
      && (t[i].revision == r.revision && r.nextRunAt.Some? ==> t[i].scheduledFor < r.nextRunAt.value)
  }

  ghost predicate Distinct(routines: seq<Routine>) {
    forall j, k :: 0 <= j < k < |routines| ==> routines[j].id != routines[k].id
  }

  ghost predicate Tidy(b: Book) {
    && Filed(b) && Ordered(b.table) && Punctual(b.table) && OwnersBelow(b.table, b.next) && Distinct(b.routines)
    && forall r :: r in b.routines ==> r.id < b.next && Bounded(b.table, r)
  }

  /** The routine after a change that keeps its bound: another edit, or the same times or none. */
  predicate Continues(r: Routine, s: Routine) {
    s.id == r.id && (s.revision > r.revision
                     || (s.revision == r.revision && (s.nextRunAt == None || s.nextRunAt == r.nextRunAt)))
  }

  ghost predicate RoutinesContinue(a: Book, routines: seq<Routine>) {
    forall s :: s in routines ==> s.id >= a.next || exists r :: r in a.routines && Continues(r, s)
  }

  ghost predicate NoNewReceipts(a: Book, t: map<Id, Run>) {
    forall id :: id in t && id !in a.table ==> !t[id].trigger.FromCalendar?
  }

  lemma BoundCarries(a: Book, b: Book, s: Routine)
    requires Tidy(a) && Evolves(a, b) && NoNewReceipts(a, b.table)
    requires s.id >= a.next || exists r :: r in a.routines && Continues(r, s)
    ensures Bounded(b.table, s)
  {
    if s.id < a.next {
      var r :| r in a.routines && Continues(r, s);
      assert Bounded(a.table, r);
    }
  }

  lemma QuietChangeTidy(a: Book, b: Book)
    requires Tidy(a) && Evolves(a, b) && Filed(b) && NoNewReceipts(a, b.table)
    requires RoutinesContinue(a, b.routines) && Distinct(b.routines)
    requires forall s :: s in b.routines ==> s.id < b.next
    ensures Tidy(b)
  {
    forall s | s in b.routines ensures Bounded(b.table, s) {
      BoundCarries(a, b, s);
    }
  }

  lemma SameRoutinesContinue(a: Book, b: Book)
    requires Tidy(a) && Evolves(a, b) && b.routines == a.routines
    ensures RoutinesContinue(a, b.routines) && Distinct(b.routines)
    ensures forall s :: s in b.routines ==> s.id < b.next
  {
    forall s | s in b.routines ensures exists r :: r in a.routines && Continues(r, s) {
      assert s in a.routines && Continues(s, s);
    }
  }

  lemma PatchedContinues(a: Book, k: nat, s: Routine)
    requires Tidy(a) && k < |a.routines| && Continues(a.routines[k], s)
    ensures RoutinesContinue(a, a.routines[k := s]) && Distinct(a.routines[k := s])
    ensures forall r :: r in a.routines[k := s] ==> r.id < a.next
  {
    forall q | q in a.routines[k := s] ensures q.id < a.next && exists r :: r in a.routines && Continues(r, q) {
      if q == s {
        assert a.routines[k] in a.routines && Continues(a.routines[k], q);
      } else {
        assert q in a.routines && Continues(q, q);
      }
    }
  }

  lemma EditTidy(a: Book, s: Step)
    requires Tidy(a) && s.Update?
    ensures Tidy(BookAfter(a, false, s))
  {
    var k, b := IndexOf(a.routines, s.id), BookAfter(a, false, s);
    EditedGrows(a, s.id, s.patch, s.now);
    if k < |a.routines| {
      PatchedContinues(a, k, Patched(a.routines[k], s.patch, s.now, a.offset));
      QuietChangeTidy(a, b);
    }
  }

  function Without(routines: seq<Routine>, k: nat): (r: seq<Routine>)
    requires k < |routines|
    ensures |r| == |routines| - 1
    ensures forall j :: 0 <= j < |r| ==> r[j] == routines[if j < k then j else j + 1]
  {
    routines[..k] + routines[k + 1..]
  }

  lemma WithoutContinues(a: Book, k: nat)
    requires Tidy(a) && k < |a.routines|
    ensures RoutinesContinue(a, Without(a.routines, k)) && Distinct(Without(a.routines, k))
    ensures forall r :: r in Without(a.routines, k) ==> r.id < a.next
  {
    var kept := Without(a.routines, k);
    forall q | q in kept ensures q.id < a.next && exists r :: r in a.routines && Continues(r, q) {
      var j :| 0 <= j < |kept| && kept[j] == q;
      assert q in a.routines && Continues(q, q);
    }
  }

  lemma RemoveTidy(a: Book, s: Step)
    requires Tidy(a) && s.Remove?
    ensures Tidy(BookAfter(a, false, s))
  {
    var k := IndexOf(a.routines, s.id);
    RemovedGrows(a, s.id, s.now);
    if k < |a.routines| {
      WithoutContinues(a, k);
      QuietChangeTidy(a, BookAfter(a, false, s));
    }
  }

  lemma IdledContinue(a: Book, bot: Id)
    requires Tidy(a)
    ensures RoutinesContinue(a, Idled(a.routines, bot)) && Distinct(Idled(a.routines, bot))
    ensures forall r :: r in Idled(a.routines, bot) ==> r.id < a.next
  {
    var idled := Idled(a.routines, bot);
    forall q | q in idled ensures q.id < a.next && exists r :: r in a.routines && Continues(r, q) {
      var k :| 0 <= k < |a.routines| && idled[k] == q;
      assert a.routines[k] in a.routines && Continues(a.routines[k], q);
    }
  }

  lemma DisableTidy(a: Book, s: Step)
    requires Tidy(a) && s.DisableBot?
    ensures Tidy(BookAfter(a, false, s))
  {
    BookAfterGrows(a, false, s);
    IdledContinue(a, s.bot);
    QuietChangeTidy(a, BookAfter(a, false, s));
  }

  lemma CreateTidy(a: Book, s: Step)
    requires Tidy(a) && s.Create?
    ensures Tidy(BookAfter(a, false, s))
  {
    var b := BookAfter(a, false, s);
    assert b.table == a.table && b.next == a.next + 1;
    forall q | q in b.routines ensures q.id < b.next && Bounded(b.table, q) {
      if q.id < a.next {
        assert q in a.routines && Bounded(a.table, q);
      }
    }
  }

  lemma NextIsLater(r: Routine, now: int, offset: int)
    requires Due(r, now)
    ensures Advanced(r, now, offset).nextRunAt.Some? ==>
              Advanced(r, now, offset).nextRunAt.value > now
    ensures r.schedule.Daily? ==> Advanced(r, now, offset).nextRunAt.Some?
  {
    if r.schedule.Daily? {
      NextIsFirst(r.schedule, now, offset);
    }
  }

  lemma PassOneTidy(a: Book, k: nat, now: int)
    requires Tidy(a) && k < |a.routines|
    ensures Tidy(PassOne(a, k, now))
  {
    var r := a.routines[k];
    if Due(r, now) {
      var b := PassOne(a, k, now);
      PushGrows(a, Receipt(r, now), b.routines);
      NextIsLater(r, now, a.offset);
      assert Bounded(a.table, r);
      forall s | s in b.routines ensures s.id < b.next && Bounded(b.table, s) {
        var j :| 0 <= j < |b.routines| && b.routines[j] == s;
        assert Bounded(a.table, a.routines[j]);
      }
    }
  }

  lemma {:induction false} PassTidy(a: Book, k: nat, now: int)
    requires Tidy(a) && k <= |a.routines|
    ensures Tidy(Pass(a, k, now))
    decreases |a.routines| - k
  {
    if k < |a.routines| {
      PassOneTidy(a, k, now);
      PassTidy(PassOne(a, k, now), k + 1, now);
    }
  }

  lemma OtherTidy(a: Book, ticking: bool, s: Step)
    requires Tidy(a)
    requires s.RunNow? || s.Webhook? || s.Cancel? || s.Seen? || s.Runtime? || s.Rejected?
    ensures Tidy(BookAfter(a, ticking, s))
  {
    BookAfterGrows(a, ticking, s);
    SameRoutinesContinue(a, BookAfter(a, ticking, s));
    QuietChangeTidy(a, BookAfter(a, ticking, s));
  }

  lemma InPlaceTidy(a: Book, b: Book)
    requires Tidy(a) && InPlace(a, b)
    ensures Tidy(b)
  {
    SameRoutinesContinue(a, b);
    QuietChangeTidy(a, b);
  }

  lemma VisitTidy(m: Manager, s: Step)
    requires Valid(m) && Tidy(m.book) && Tidy(m.disk) && s.Visit?
    ensures Tidy(Visited(m, s).book) && Tidy(Visited(m, s).disk)
  {
    VisitInPlace(m, s);
    InPlaceTidy(m.book, Visited(m, s).book);
    if Visited(m, s).disk != m.disk {
      InPlaceTidy(m.book, Visited(m, s).disk);
    }
  }

  lemma BookAfterTidy(a: Book, ticking: bool, s: Step)
    requires Tidy(a) && !s.Visit? && !s.Restart?
    ensures Tidy(BookAfter(a, ticking, s))
  {
    match s
    case Create(_, _, _, _, _, _) => CreateTidy(a, s);
    case Update(_, _, _, _) => EditTidy(a, s);
    case Remove(_, _, _) => RemoveTidy(a, s);
    case DisableBot(_, _, _) => DisableTidy(a, s);
    case TickStart(now, _) => PassTidy(a, 0, now);
    case _ => OtherTidy(a, ticking, s);
  }

  lemma BookIsBookAfter(m: Manager, s: Step)
    requires !s.Visit? && !s.Restart?
    ensures Apply(m, s).book == BookAfter(m.book, m.ticking, s)
  {
  }

  lemma StepTidy(m: Manager, s: Step)
    requires Valid(m) && Tidy(m.book) && Tidy(m.disk)
    ensures Tidy(Apply(m, s).book)
  {
    if s.Visit? {
      VisitTidy(m, s);
    } else if s.Restart? {
      RestartTidy(m, s.now);
    } else {
      BookAfterTidy(m.book, m.ticking, s);
      BookIsBookAfter(m, s);
    }
  }

  lemma RestartTidy(m: Manager, now: int)
    requires Valid(m) && Tidy(m.disk)
    ensures Tidy(Recovered(m.disk, m.book.next, now))
  {
    var b := Recovered(m.disk, m.book.next, now);
    assert Evolves(m.disk, b);
    SameRoutinesContinue(m.disk, b);
    QuietChangeTidy(m.disk, b);
  }

  lemma StepDisk(m: Manager, s: Step)
    requires !s.Visit?
    ensures Apply(m, s).disk == m.disk || Apply(m, s).disk == Apply(m, s).book
  {
  }

  lemma StepDiskTidy(m: Manager, s: Step)
    requires Valid(m) && Tidy(m.book) && Tidy(m.disk)
    ensures Tidy(Apply(m, s).book) && Tidy(Apply(m, s).disk)
  {
    StepTidy(m, s);
    if s.Visit? {
      VisitTidy(m, s);
    } else {
      StepDisk(m, s);
    }
  }

  lemma {:induction false} RunTidy(m: Manager, steps: seq<Step>, n: Manager)
    requires Valid(m) && Tidy(m.book) && Tidy(m.disk) && Leads(m, steps, n)
    ensures Tidy(n.book) && Tidy(n.disk)
    decreases |steps|
  {
    if steps != [] {
      StepKeeps(m, steps[0]);
      StepDiskTidy(m, steps[0]);
      RunTidy(Apply(m, steps[0]), steps[1..], n);
    }
  }

  /** Between two edits of a routine its scheduled receipts carry strictly increasing times, and none
    * was made before its time. */
  lemma ReceiptsFollowTheCalendar(m: Manager, steps: seq<Step>, n: Manager, i: Id, j: Id)
    requires Boot(m) && Tidy(m.disk) && Leads(m, steps, n)
    requires i in n.book.table && j in n.book.table && i < j && SameSeries(n.book.table[i], n.book.table[j])
    ensures n.book.table[i].scheduledFor < n.book.table[j].scheduledFor
    ensures n.book.table[j].scheduledFor <= n.book.table[j].createdAt
  {
    RunTidy(m, steps, n);
  }

  /** The routines a pass finds due, in list order. */
  function DueFrom(routines: seq<Routine>, k: nat, now: int): seq<Routine>
    requires k <= |routines|
    decreases |routines| - k
  {
    if k == |routines| then []
    else (if Due(routines[k], now) then [routines[k]] else []) + DueFrom(routines, k + 1, now)
  }

  lemma {:induction false} DueFromDue(routines: seq<Routine>, k: nat, now: int)
    requires k <= |routines|
    ensures forall r :: r in DueFrom(routines, k, now) ==> Due(r, now)
    decreases |routines| - k
  {
    if k < |routines| {
      DueFromDue(routines, k + 1, now);
    }
  }

  lemma {:induction false} DueFromSame(a: seq<Routine>, b: seq<Routine>, k: nat, now: int)
    requires k <= |a| == |b| && forall j :: k <= j < |a| ==> a[j] == b[j]
    ensures DueFrom(a, k, now) == DueFrom(b, k, now)
    decreases |a| - k
  {
    if k < |a| {
      DueFromSame(a, b, k + 1, now);
    }
  }

  /** The receipt for `r`: at its stored time, and queued exactly when it is not too late. */
  predicate OnlyReceipt(r: Routine, run: Run, now: int) {
    && run.owner == r.id && run.trigger.FromCalendar? && r.nextRunAt == Some(run.scheduledFor)
    && run.createdAt == now
    && (run.status.Queued? <==> now - run.scheduledFor <= CATCH_UP_MS)
    && (run.status.Missed? <==> now - run.scheduledFor > CATCH_UP_MS)
  }

  predicate Made(r: Routine, t: map<Id, Run>, id: Id, now: int) {
    id in t && OnlyReceipt(r, t[id], now)
  }

  /** `t` extends `b` by the receipts of `due`, numbered from `b.next` on, and changes nothing else. */
  ghost predicate Makes(b: Book, due: seq<Routine>, t: map<Id, Run>, now: int) {
    && (forall j :: 0 <= j < |due| ==> Made(due[j], t, b.next + j, now))
    && (forall id :: id in t && id < b.next ==> id in b.table && t[id] == b.table[id])
  }

  lemma MakesFirst(b: Book, c: Book, r: Routine, rest: seq<Routine>, due: seq<Routine>, t: map<Id, Run>, now: int)
    requires Due(r, now) && c.next == b.next + 1 && c.table == b.table[b.next := Receipt(r, now)]
    requires due == [r] + rest && Makes(c, rest, t, now) && b.next in t
    ensures Makes(b, due, t, now)
  {
    assert t[b.next] == Receipt(r, now) && OnlyReceipt(r, Receipt(r, now), now);
    forall j | 0 <= j < |due| ensures Made(due[j], t, b.next + j, now) {
      if j > 0 {
        assert Made(rest[j - 1], t, c.next + (j - 1), now);
        assert due[j] == rest[j - 1] && b.next + j == c.next + (j - 1);
      }
    }
    forall id | id in t && id < b.next ensures id in b.table && t[id] == b.table[id] {
      assert id in c.table && t[id] == c.table[id];
    }
  }

  lemma PassOneMakes(b: Book, k: nat, now: int)
    requires k < |b.routines|
    ensures var c := PassOne(b, k, now);
            && |c.routines| == |b.routines| && (forall j :: k < j < |b.routines| ==> c.routines[j] == b.routines[j])
            && (Due(b.routines[k], now) ==>
                  c.next == b.next + 1 && c.table == b.table[b.next := Receipt(b.routines[k], now)])
            && (!Due(b.routines[k], now) ==> c == b)
  {
  }

  lemma DueCons(routines: seq<Routine>, after: seq<Routine>, k: nat, now: int)
    requires k < |routines| == |after| && forall j :: k < j < |routines| ==> after[j] == routines[j]
    ensures DueFrom(routines, k, now)
            == (if Due(routines[k], now) then [routines[k]] else []) + DueFrom(after, k + 1, now)
  {
    DueFromSame(routines, after, k + 1, now);
  }

  lemma {:induction false} PassMakes(b: Book, k: nat, now: int)
    requires k <= |b.routines| && Filed(b)
    ensures Pass(b, k, now).next == b.next + |DueFrom(b.routines, k, now)|
    ensures Makes(b, DueFrom(b.routines, k, now), Pass(b, k, now).table, now)
    decreases |b.routines| - k
  {
    if k < |b.routines| {
      var r, c := b.routines[k], PassOne(b, k, now);
      if Due(r, now) {
        PushGrows(b, Receipt(r, now), c.routines);
        PassGrows(c, k + 1, now);
        assert b.next in c.table;
      }
      PassMakes(c, k + 1, now);
      PassOneMakes(b, k, now);
      DueCons(b.routines, c.routines, k, now);
      var rest, due := DueFrom(c.routines, k + 1, now), DueFrom(b.routines, k, now);
      if Due(r, now) {
        MakesFirst(b, c, r, rest, due, Pass(c, k + 1, now).table, now);
      } else {
        assert due == rest;
      }
    }
  }

  lemma {:induction false} PassMoves(b: Book, k: nat, now: int)
    requires k <= |b.routines|
    ensures |Pass(b, k, now).routines| == |b.routines| && Pass(b, k, now).offset == b.offset
    ensures forall j :: 0 <= j < |b.routines| ==>
              Pass(b, k, now).routines[j] ==
                if j >= k && Due(b.routines[j], now) then Advanced(b.routines[j], now, b.offset) else b.routines[j]
    decreases |b.routines| - k
  {
    if k < |b.routines| {
      PassMoves(PassOne(b, k, now), k + 1, now);
    }
  }

  /** A scheduling pass makes exactly one receipt for each due routine, however many of its occurrences
    * went by, runs it when it is at most twelve hours late, and leaves no routine due. */
  lemma PassCatchesUp(m: Manager, now: int, saved: bool)
    requires Valid(m) && Tidy(m.book) && !m.ticking
    ensures Apply(m, TickStart(now, saved)).book.next == m.book.next + |DueFrom(m.book.routines, 0, now)|
    ensures Makes(m.book, DueFrom(m.book.routines, 0, now), Apply(m, TickStart(now, saved)).book.table, now)
    ensures forall r :: r in Apply(m, TickStart(now, saved)).book.routines ==> !Due(r, now)
  {
    PassMakes(m.book, 0, now);
    PassMoves(m.book, 0, now);
    var b := Pass(m.book, 0, now);
    assert Apply(m, TickStart(now, saved)).book == b;
    forall r | r in b.routines ensures !Due(r, now) {
      var k :| 0 <= k < |b.routines| && b.routines[k] == r;
      if Due(m.book.routines[k], now) {
        NextIsLater(m.book.routines[k], now, m.book.offset);
      }
    }
  }

  /** An edit never schedules into the past: a single time that is over becomes now, and a daily
    * schedule starts at its first time after now. */
  lemma EditSchedulesAhead(r: Routine, p: Patch, now: int, offset: int)
    ensures var s := Patched(r, p, now, offset);
            && (s.nextRunAt.Some? <==> s.enabled)
            && (s.enabled && s.schedule.Once? ==>
                  s.nextRunAt.value >= now && s.nextRunAt.value >= s.schedule.at
                  && (s.nextRunAt.value == now || s.nextRunAt.value == s.schedule.at))
            && (s.enabled && s.schedule.Daily? ==>
                  FirstAfter(s.nextRunAt.value, s.schedule.time, CleanDays(s.schedule.weekdays), offset, now))
  {
    var s := Patched(r, p, now, offset);
    if s.schedule.Daily? {
      NextIsFirst(s.schedule, now, offset);
    }
  }

  /** Every occurrence up to now is skipped at once: the next time is the first one after now. */
  lemma SkipsToTheFirstAfterNow(r: Routine, now: int, offset: int)
    requires Due(r, now) && r.schedule.Daily?
    ensures Advanced(r, now, offset).nextRunAt.Some?
    ensures FirstAfter(Advanced(r, now, offset).nextRunAt.value,
                       r.schedule.time, CleanDays(r.schedule.weekdays), offset, now)
  {
    NextIsFirst(r.schedule, now, offset);
  }

  /** A run is handed over only from the queue, to a ready bot, and after its object was written as running;
    * the file lists it exactly when the list had not dropped it since it was queued. */
  lemma HandoverIsWritten(m: Manager, s: Step)
    requires Valid(m) && Apply(m, s).handed != m.handed
    ensures s.Visit? && s.state.Ready? && m.queue != [] && m.queue[0] in m.book.table
    ensures m.book.table[m.queue[0]].status.Queued? && HasPrompt(m.book, m.book.table[m.queue[0]])
    ensures Apply(m, s).handed == m.handed + [m.queue[0]]
    ensures m.queue[0] in Apply(m, s).disk.table && s.task.Some?
    ensures Apply(m, s).disk.table[m.queue[0]].status.Running?
    ensures Apply(m, s).disk.table[m.queue[0]].thread == s.task
    ensures m.queue[0] in Apply(m, s).disk.runs <==> m.queue[0] in m.book.runs
  {
    assert s.Visit?;
  }

  /** After a restart no listed run is active, and what was queued or ended on disk still is. */
  lemma RestartLeavesNoneActive(m: Manager, now: int, saved: bool, id: Id)
    requires Valid(m) && id in m.disk.runs
    ensures var b := Apply(m, Restart(now, saved)).book;
            && b.runs == m.disk.runs && id in b.table && !b.table[id].status.Active()
            && (m.disk.table[id].status.Queued? <==> b.table[id].status.Queued?)
            && (m.disk.table[id].status.Active() ==> b.table[id].status.Failed?)
  {
    assert id in m.disk.table;
  }

  // ---- The manager as the program keeps it ----

  lemma CancelStep(t: map<Id, Run>, runs: seq<Id>, i: nat, scope: Scope, now: int)
    requires i < |runs| && runs[i] in t
    ensures var done, id := CancelledIn(t, runs[..i], scope, now), runs[i];
            var more := CancelledIn(t, runs[..i + 1], scope, now);
            if Selects(scope, id, done[id])
            then more == done[id := Ended(done[id], Cancelled, now)] && more[id].status != t[id].status
            else more == done
  {
    assert runs[..i + 1] == runs[..i] + [runs[i]];
  }

  lemma FailStep(t: map<Id, Run>, runs: seq<Id>, i: nat, now: int)
    requires i < |runs| && runs[i] in t
    ensures var done, id := FailedIn(t, runs[..i], now), runs[i];
            var more := FailedIn(t, runs[..i + 1], now);
            if done[id].status.Active()
            then more == done[id := Ended(done[id], Failed, now)] && more[id].status != t[id].status
            else more == done
  {
    assert runs[..i + 1] == runs[..i] + [runs[i]];
  }

  class RoutineManager {
    var routines: seq<Routine>
    var runs: seq<Id>
    var table: map<Id, Run>
    var next: Id
    const offset: int
    var ticking: bool
    var queue: seq<Id>
    var disk: Book
    var handed: seq<Id>

    function Current(): Book
      reads this
    {
      Book(routines, runs, table, next, offset)
    }

    function State(): Manager
      reads this
    {
      Manager(Current(), disk, ticking, queue, handed)
    }

    /** Read the file and fail the runs an earlier process left active. */
    constructor (saved: Book, unused: Id, now: int, written: bool)
      requires Filed(saved)
      ensures Current() == Recovered(saved, unused, now)
      ensures disk == if written && table != saved.table then Current() else saved
      ensures !ticking && queue == [] && handed == []
    {
      routines, runs, table, next, offset := saved.routines, saved.runs, saved.table, unused, saved.offset;
      ticking, queue, handed, disk := false, [], [], saved;
      new;
      var i := 0;
      var recovered := false;
      while i < |runs|
        invariant 0 <= i <= |runs|
        invariant routines == saved.routines && runs == saved.runs && next == unused
        invariant disk == saved && !ticking && queue == [] && handed == []
        invariant table == FailedIn(saved.table, runs[..i], now)
        invariant recovered <==> table != saved.table
      {
        var id := runs[i];
        FailStep(saved.table, runs, i, now);
        if table[id].status.Active() {
          table := table[id := Ended(table[id], Failed, now)];
          recovered := true;
        }
        i := i + 1;
      }
      assert runs[..i] == runs;
      if recovered && written {
        disk := Current();
      }
    }

    method Save(saved: bool)
      modifies this`disk
      ensures State() == Saving(old(State()), saved)
    {
      if saved {
        disk := Current();
      }
    }

    /** The loop that ends every listed run it selects. */
    method CancelWhere(scope: Scope, now: int) returns (changed: bool)
      requires Filed(Current())
      modifies this`table
      ensures Current() == Cancelling(old(Current()), scope, now)
      ensures changed <==> table != old(table)
    {
      var i := 0;
      changed := false;
      while i < |runs|
        invariant 0 <= i <= |runs|
        invariant table == CancelledIn(old(table), runs[..i], scope, now)
        invariant changed <==> table != old(table)
      {
        var id := runs[i];
        CancelStep(old(table), runs, i, scope, now);
        if Selects(scope, id, table[id]) {
          table := table[id := Ended(table[id], Cancelled, now)];
          changed := true;
        }
        i := i + 1;
      }
      assert runs[..i] == runs;
    }

    /** `cancelRun`, `cancelQueuedWebhook`. */
    method CancelRuns(scope: Scope, now: int, saved: bool)
      requires Valid(State())
      modifies this`table, this`disk
      ensures State() == Apply(old(State()), Cancel(scope, now, saved))
    {
      var changed := CancelWhere(scope, now);
      if changed {
        Save(saved);
      }
    }

    method Add(run: Run)
      modifies this`runs, this`table, this`next
      ensures Current() == Push(old(Current()), run)
    {
      runs, table, next := runs + [next], table[next := run], next + 1;
      if |runs| > MAX_RUNS {
        runs := runs[|runs| - MAX_RUNS..];
      }
    }

    method EnqueueWebhook(webhook: Id, bot: Id, prompt: string, receivedAt: int, now: int, saved: bool)
      requires Valid(State())
      modifies this`runs, this`table, this`next, this`disk
      ensures State() == Apply(old(State()), Step.Webhook(webhook, bot, prompt, receivedAt, now, saved))
    {
      Add(WebhookRun(webhook, bot, prompt, receivedAt, now));
      Save(saved);
    }

    method FindRoutine(id: Id) returns (k: nat)
      ensures k == IndexOf(routines, id)
    {
      k := 0;
      while k < |routines|
        invariant k <= |routines|
        invariant forall j :: 0 <= j < k ==> routines[j].id != id
      {
        if routines[k].id == id {
          return;
        }
        k := k + 1;
      }
    }

    method UpdateRoutine(id: Id, patch: Patch, now: int, saved: bool)
      requires Valid(State())
      modifies this`routines, this`table, this`disk
      ensures State() == Apply(old(State()), Step.Update(id, patch, now, saved))
    {
      var k := FindRoutine(id);
      if k == |routines| {
        return;
      }
      var before := routines[k];
      routines := routines[k := Patched(before, patch, now, offset)];
      assert routines[k].revision != before.revision;
      if patch.enabled == Some(false) {
        var _ := CancelWhere(QueuedOf(id), now);
      }
      Save(saved);
    }

    method RemoveRoutine(id: Id, now: int, saved: bool)
      requires Valid(State())
      modifies this`routines, this`table, this`disk
      ensures State() == Apply(old(State()), Step.Remove(id, now, saved))
    {
      var k := FindRoutine(id);
      if k == |routines| {
        return;
      }
      routines := routines[..k] + routines[k + 1..];
      var _ := CancelWhere(QueuedOf(id), now);
      Save(saved);
    }

    /** The first part of `tick`: turn due routines into receipts, then take the snapshot. */
    method StartTick(now: int, saved: bool)
      requires Valid(State())
      modifies this`routines, this`runs, this`table, this`next, this`disk, this`ticking, this`queue
      ensures State() == Apply(old(State()), Step.TickStart(now, saved))
    {
      if ticking {
        return;
      }
      var k := 0;
      var changed := false;
      ghost var passed := Pass(Current(), 0, now);
      while k < |routines|
        invariant k <= |routines|
        invariant Pass(Current(), k, now) == passed
        invariant disk == old(disk) && !ticking && queue == old(queue) && handed == old(handed)
        invariant if changed then next > old(next) else Current() == old(Current())
      {
        var r := routines[k];
        if Due(r, now) {
          Add(Receipt(r, now));
          routines := routines[k := Advanced(r, now, offset)];
          changed := true;
        }
        k := k + 1;
      }
      assert Current() == passed;
      if changed {
        if !saved {
          return;
        }
        Save(saved);
      }
      ticking, queue := true, Reversed(runs);
    }

    method FindActiveRun(thread: Thread) returns (found: Option<Id>)
      requires Filed(Current())
      ensures found == FindActive(runs, table, thread)
    {
      var i := 0;
      while i < |runs|
        invariant 0 <= i <= |runs|
        invariant FindActive(runs[i..], table, thread) == FindActive(runs, table, thread)
      {
        if table[runs[i]].thread == Some(thread) && table[runs[i]].status.Active() {
          return Some(runs[i]);
        }
        assert runs[i..][1..] == runs[i + 1..];
        i := i + 1;
      }
      return None;
    }

    method HandleRuntimeEvent(thread: Thread, event: Event, now: int, saved: bool)
      requires Valid(State())
      modifies this`table, this`disk
      ensures State() == Apply(old(State()), Step.Runtime(thread, event, now, saved))
    {
      var found := FindActiveRun(thread);
      if found.None? || event.Retrying? || event.Other? {
        return;
      }
      var run := table[found.value];
      match event {
        case RequestOpened => run := run.(status := Waiting);
        case RequestResolved => run := run.(status := Running);
        case TurnCompleted(ok) => run := run.(status := if ok then Completed else Failed, finishedAt := Some(now));
        case _ =>
      }
      table := table[found.value := run];
      Save(saved);
    }

    /** `failThread` outside the tick; false when its write failed. */
    method FailThread(thread: Thread, now: int, saved: bool) returns (ok: bool)
      requires Filed(Current())
      modifies this`table, this`disk
      ensures ok == (FindActive(old(runs), old(table), thread).None? || saved)
      ensures FindActive(old(runs), old(table), thread).None? ==> State() == old(State())
      ensures FindActive(old(runs), old(table), thread).Some? ==>
                State() == Saving(old(State()).(book := Failing(old(Current()), thread, now)), saved)
    {
      var found := FindActiveRun(thread);
      if found.None? {
        return true;
      }
      table := table[found.value := Ended(table[found.value], Failed, now)];
      Save(saved);
      return saved;
    }

    method Drop(id: Id, now: int, saved: bool)
      requires id in table
      modifies this`table, this`disk, this`ticking, this`queue
      ensures State() == Dropped(old(State()), id, now, saved)
    {
      table := table[id := Ended(table[id], Failed, now)];
      Save(saved);
      if !saved {
        ticking, queue := false, [];
      }
    }

    method Launch(id: Id, thread: Thread, now: int, saved: bool, savedAgain: bool) returns (start: bool)
      requires id in table && Filed(Current())
      modifies this`table, this`disk, this`ticking, this`queue, this`handed
      ensures State() == Launched(old(State()), id, thread, now, saved, savedAgain)
      ensures handed == if start then old(handed) + [id] else old(handed)
    {
      var run := table[id];
      table := table[id := run.(status := Running, thread := Some(thread))];
      Save(saved);
      if !saved {
        ticking, queue := false, [];
        return false;
      }
      var k := FindRoutine(run.owner);
      if if run.prompt.Some? then run.prompt.value != "" else k < |routines| && routines[k].prompt != "" {
        handed := handed + [id];
        return true;
      }
      var _ := FailThread(thread, now, savedAgain);
      return false;
    }

    /** One turn of the tick's loop, up to the call of `startTurn`; `start` names the run to hand over. */
    method VisitNext(state: BotState, task: Option<Thread>, now: int, saved: bool, savedAgain: bool)
      returns (start: Option<Id>)
      requires Filed(Current()) && forall id :: id in queue ==> id in table
      modifies this`table, this`disk, this`ticking, this`queue, this`handed
      ensures State() == Apply(old(State()), Step.Visit(state, task, now, saved, savedAgain))
      ensures handed == if start.Some? then old(handed) + [start.value] else old(handed)
    {
      start := None;
      if queue == [] {
        ticking := false;
        return;
      }
      var id := queue[0];
      queue := queue[1..];
      if !table[id].status.Queued? || state.Busy? {
        return;
      }
      if state.Gone? || task.None? {
        Drop(id, now, saved);
        return;
      }
      var launched := Launch(id, task.value, now, saved, savedAgain);
      if launched {
        start := Some(id);
      }
    }
  }
}
