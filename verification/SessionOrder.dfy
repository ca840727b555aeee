/** An order of steps that needs no record: the turns of a task follow one another, the start and the
  * marks of a turn come before the next one begins, the branch changes between turns, and a rewound turn
  * clears the flag only when no other task's branch changed. Every step that keeps this order leaves the
  * owner of a task with a session that was given every line sent, and is `Careful` and harmless.
  */
module SessionOrder {
  import opened Wrappers
  import opened NativeSession
  import opened SessionSteps
  import opened SessionGuards

  // ---- the order of steps --------------------------------------------------

  /** The dispatch of the turn returned and its completion was folded, or it failed. */
  predicate Done(turn: Turn) {
    turn.failed || (turn.over && turn.marked)
  }

  predicate AllDone(t: Task) {
    forall n :: 0 <= n < |t.turns| ==> Done(t.turns[n])
  }

  /** All turns are done, and the start of the last one is recorded if an older cursor could be
    * confused with it. */
  predicate Idle(t: Task) {
    AllDone(t) && (t.turns == [] || t.turns[|t.turns| - 1].failed || Recorded(t, t.turns[|t.turns| - 1]))
  }

  /** `changed` are the tasks whose branch changed and that took no rewound turn since. */
  ghost function ChangedBy(b: Bot, s: Step, changed: set<ThreadId>): set<ThreadId>
    requires BotShape(b) && Enabled(b, s)
  {
    match s
    case Begin(thread, _, _, edit, _) => if edit.Some? then changed + {thread} else changed
    case Dispatched(thread, n) => if b.tasks[thread].turns[n].rewound then changed - {thread} else changed
    case SwitchBranch(_) => changed + {b.active}
    case _ => changed
  }

  /** Read off the flags of the turns, the active task and the steps so far. */
  ghost predicate InOrder(b: Bot, s: Step, changed: set<ThreadId>)
    requires BotShape(b) && Enabled(b, s)
  {
    match s
    case Begin(thread, instance, _, _, native) =>
      var t, p := b.tasks[thread], PlanTurn(b, s);
      && Idle(t) && (thread in changed ==> thread == b.active)
      && (p.rewound || Owner(t, instance) || WindowShowsUser(p)
          || (instance !in t.cursors && (native || forall i :: i in p.history ==> i !in t.delivered)))
    case SessionStarted(thread, n) => n == |b.tasks[thread].turns| - 1
    case DispatchFailed(thread, n) => !b.tasks[thread].turns[n].over
    case Dispatched(thread, n) => b.tasks[thread].turns[n].rewound ==> changed <= {thread}
    case SwitchBranch(_) => AllDone(b.tasks[b.active])
    case _ => true
  }

  // ---- what it keeps -------------------------------------------------------

  /** The last turn of a task: the record trusts the session it goes to, or the branch changed since it was
    * done; before it is sent its lines are on the branch; once marked it owns the task; and as long as
    * nothing of it counts the owner before it is as fit as it was. */
  ghost predicate LastOk(t: Task, turn: Turn, changed: bool)
    requires TreeOf(t)
  {
    && (Trusted(t, Goes(t, turn)) || (Done(turn) && changed))
    && (turn.InFlight() && !turn.sent ==> turn.said <= PathOf(t))
    && (turn.marked || turn.over || turn.started ==> turn.sent)
    && (turn.marked ==> t.last == Some(turn.instance))
    && (turn.started ==> turn.instance in t.cursors && t.cursors[turn.instance] == turn.session)
    && (turn.failed || !turn.Counted() ==> OwnerTrusted(t) || changed)
  }

  ghost predicate TaskInOrder(t: Task, changed: bool)
    requires TreeOf(t)
  {
    if t.turns == [] then OwnerTrusted(t) || changed
    else
      && (forall n :: 0 <= n < |t.turns| - 1 ==> Done(t.turns[n]))
      && LastOk(t, t.turns[|t.turns| - 1], changed)
  }

  ghost predicate Ordered(b: Bot, changed: set<ThreadId>)
    requires BotShape(b)
  {
    && (changed != {} ==> b.rewound)
    && forall k :: k in b.tasks ==> TaskInOrder(b.tasks[k], k in changed)
  }

  /** Between turns the owner of a task was given every line sent, or the branch changed. */
  lemma IdleOwner(t: Task, changed: bool)
    requires TreeOf(t) && TaskInOrder(t, changed) && Idle(t)
    ensures OwnerTrusted(t) || changed
  {
  }

  /** Only the last turn is in flight, and it goes to a session that follows the branch. */
  lemma OrderIsSafe(t: Task, changed: bool)
    requires TreeOf(t) && TaskInOrder(t, changed)
    ensures Safe(t)
  {
    forall n | 0 <= n < |t.turns| && t.turns[n].InFlight() ensures Trusted(t, Goes(t, t.turns[n])) {
      assert n < |t.turns| - 1 ==> Done(t.turns[n]);
    }
  }

  // ---- every step in order keeps it ----------------------------------------

  lemma NoteInOrder(t: Task, role: Role, isText: bool, changed: bool)
    requires TaskOk(t) && TaskInOrder(t, changed)
    ensures TreeOf(Append(t, t.leaf, role, isText)) && TaskInOrder(Append(t, t.leaf, role, isText), changed)
  {
    AppendTexts(t, t.leaf, role, isText);
    assert forall i :: Owner(Append(t, t.leaf, role, isText), i) <==> Owner(t, i);
  }

  /** The turn that is not done is the last. */
  lemma NotDoneIsLast(t: Task, n: nat, changed: bool)
    requires TreeOf(t) && TaskInOrder(t, changed) && n < |t.turns| && !Done(t.turns[n])
    ensures n == |t.turns| - 1
  {
  }

  lemma SentInOrder(t: Task, n: nat, changed: bool)
    requires TaskOk(t) && TaskInOrder(t, changed) && n < |t.turns| && t.turns[n].InFlight() && !t.turns[n].sent
    ensures TaskInOrder(SentTask(t, n), changed)
  {
    NotDoneIsLast(t, n, changed);
    assert forall i :: Owner(SentTask(t, n), i) <==> Owner(t, i);
  }

  lemma StartedInOrder(t: Task, n: nat, changed: bool)
    requires TaskOk(t) && TaskInOrder(t, changed) && n == |t.turns| - 1 && t.turns[n].sent
    ensures TaskInOrder(StartedTask(t, n), changed)
  {
    var u, turn := StartedTask(t, n), t.turns[n];
    if OwnerTrusted(t) && Trusted(t, turn.session) {
      forall i | Owner(u, i) ensures Trusted(u, u.cursors[i]) {
        if i != turn.instance {
          assert i in u.cursors.Keys && turn.instance in u.cursors.Keys;
          assert Owner(t, i);
        }
      }
    }
  }

  lemma ReplyInOrder(t: Task, n: nat, role: Role, isText: bool, changed: bool)
    requires TaskOk(t) && TaskInOrder(t, changed) && n < |t.turns| && t.turns[n].InFlight() && t.turns[n].sent
    ensures TreeOf(ReplyTask(t, n, role, isText)) && TaskInOrder(ReplyTask(t, n, role, isText), changed)
  {
    NotDoneIsLast(t, n, changed);
    ReplyOk(t, n, role, isText);
    assert TurnOk(t, t.turns[n]);
    assert forall i :: Owner(ReplyTask(t, n, role, isText), i) <==> Owner(t, i);
  }

  lemma MarkedInOrder(t: Task, n: nat, changed: bool)
    requires TaskOk(t) && TaskInOrder(t, changed) && n < |t.turns|
    requires t.turns[n].sent && !t.turns[n].marked && !t.turns[n].failed
    ensures TaskInOrder(MarkedTask(t, n), changed) && TaskInOrder(MarkedTask(t, n), false)
  {
    NotDoneIsLast(t, n, changed);
    assert TurnOk(t, t.turns[n]);
  }

  lemma OverInOrder(t: Task, n: nat, changed: bool)
    requires TaskOk(t) && TaskInOrder(t, changed) && n < |t.turns| && t.turns[n].InFlight() && t.turns[n].sent
    ensures TaskInOrder(OverTask(t, n), changed)
  {
    NotDoneIsLast(t, n, changed);
    assert TurnOk(t, t.turns[n]);
  }

  lemma FailedInOrder(t: Task, n: nat, changed: bool)
    requires TaskOk(t) && TaskInOrder(t, changed) && n < |t.turns|
    requires !t.turns[n].marked && !t.turns[n].failed && !t.turns[n].over
    ensures TaskInOrder(FailedTask(t, n), changed)
  {
    NotDoneIsLast(t, n, changed);
    assert forall i :: Owner(FailedTask(t, n), i) <==> Owner(t, i);
  }

  lemma TurnedInOrder(t: Task, leaf: Option<nat>, changed: bool)
    requires TaskOk(t) && TaskInOrder(t, changed) && AllDone(t) && Node(t.messages, leaf)
    ensures TaskInOrder(Turned(t, leaf), true) && AllDone(Turned(t, leaf))
  {
  }

  lemma BeganInOrder(at: Task, p: Plan, instance: InstanceId, lines: nat, changed: bool)
    requires PlanOk(at, p, lines) && AllDone(at) && (OwnerTrusted(at) || changed)
    requires if Resumes(p, instance) then Trusted(p.task, p.task.cursors[instance]) else !Unheard(p, p.task.delivered)
    ensures TreeOf(BeginTask(p, instance)) && TaskInOrder(BeginTask(p, instance), changed)
  {
    AppendLinesTree(at, lines);
    AppendLinesTexts(at, lines);
    var u := BeginTask(p, instance);
    assert TaskOk(at);
    forall n | 0 <= n < |u.turns| - 1 ensures Done(u.turns[n]) {
      assert Done(at.turns[n]);
    }
    assert forall i :: Owner(u, i) <==> Owner(at, i);
  }

  // ---- the bot -------------------------------------------------------------

  lemma BeginIsSound(b: Bot, s: Step, changed: set<ThreadId>)
    requires Inv(b) && BotShape(b) && Ordered(b, changed) && Enabled(b, s) && s.Begin? && InOrder(b, s, changed)
    ensures Sound(b, s)
  {
    var t, p := b.tasks[s.thread], PlanTurn(b, s);
    PlanKeepsRecord(b, s);
    ResumesExactly(b, s);
    UnheardExactly(b, s, t.delivered);
    if !p.rewound {
      IdleOwner(t, s.thread in changed);
    }
  }

  lemma ChangeInOrder(b: Bot, c: Bot, k: ThreadId, changed: set<ThreadId>, after: set<ThreadId>)
    requires BotShape(b) && BotShape(c) && Ordered(b, changed) && k in c.tasks && (after != {} ==> c.rewound)
    requires TaskInOrder(c.tasks[k], k in after)
    requires forall j :: j in c.tasks && j != k ==>
               j in b.tasks && c.tasks[j] == b.tasks[j] && (j in changed <==> j in after)
    ensures Ordered(c, after)
  {
  }

  lemma BeginTaskInOrder(b: Bot, s: Step, changed: set<ThreadId>)
    requires Inv(b) && BotShape(b) && Ordered(b, changed) && Enabled(b, s) && s.Begin? && InOrder(b, s, changed)
    ensures
      var u := BeginTask(PlanTurn(b, s), s.instance);
      TreeOf(u) && TaskInOrder(u, s.edit.Some? || s.thread in changed)
  {
    var t, at, p := b.tasks[s.thread], Rebase(b.tasks[s.thread], s.edit), PlanTurn(b, s);
    BeginIsSound(b, s, changed);
    PlanIsOk(b, s);
    IdleOwner(t, s.thread in changed);
    if s.edit.Some? {
      TurnedInOrder(t, t.messages[s.edit.value].parent, s.thread in changed);
    }
    BeganInOrder(at, p, s.instance, s.lines, s.edit.Some? || s.thread in changed);
  }

  lemma BeginKeepsOrder(b: Bot, s: Step, changed: set<ThreadId>)
    requires Inv(b) && BotShape(b) && Ordered(b, changed) && Enabled(b, s) && s.Begin? && InOrder(b, s, changed)
    requires BotShape(Next(b, s))
    ensures Ordered(Next(b, s), ChangedBy(b, s, changed))
  {
    BeginTaskInOrder(b, s, changed);
    ChangeInOrder(b, Next(b, s), s.thread, changed, ChangedBy(b, s, changed));
  }

  lemma DispatchedKeepsOrder(b: Bot, s: Step, changed: set<ThreadId>)
    requires Inv(b) && BotShape(b) && Ordered(b, changed) && Enabled(b, s) && s.Dispatched?
    requires InOrder(b, s, changed)
    requires BotShape(Next(b, s))
    ensures Ordered(Next(b, s), ChangedBy(b, s, changed))
  {
    MarkedInOrder(b.tasks[s.thread], s.n, s.thread in changed);
    ChangeInOrder(b, Next(b, s), s.thread, changed, ChangedBy(b, s, changed));
  }

  lemma SwitchKeepsOrder(b: Bot, s: Step, changed: set<ThreadId>)
    requires Inv(b) && BotShape(b) && Ordered(b, changed) && Enabled(b, s) && s.SwitchBranch?
    requires InOrder(b, s, changed)
    requires BotShape(Next(b, s))
    ensures Ordered(Next(b, s), ChangedBy(b, s, changed))
  {
    var t := b.tasks[b.active];
    TurnedInOrder(t, Some(Descend(t.messages, s.message, |t.messages|)), b.active in changed);
    ChangeInOrder(b, Next(b, s), b.active, changed, ChangedBy(b, s, changed));
  }

  lemma SentKeepsOrder(b: Bot, s: Step, changed: set<ThreadId>)
    requires Inv(b) && BotShape(b) && Ordered(b, changed) && Enabled(b, s) && s.Sent? && InOrder(b, s, changed)
    requires BotShape(Next(b, s))
    ensures Ordered(Next(b, s), ChangedBy(b, s, changed))
  {
    SentInOrder(b.tasks[s.thread], s.n, s.thread in changed);
    ChangeInOrder(b, Next(b, s), s.thread, changed, changed);
  }

  lemma StartedKeepsOrder(b: Bot, s: Step, changed: set<ThreadId>)
    requires Inv(b) && BotShape(b) && Ordered(b, changed) && Enabled(b, s) && s.SessionStarted?
    requires InOrder(b, s, changed)
    requires BotShape(Next(b, s))
    ensures Ordered(Next(b, s), ChangedBy(b, s, changed))
  {
    StartedInOrder(b.tasks[s.thread], s.n, s.thread in changed);
    ChangeInOrder(b, Next(b, s), s.thread, changed, changed);
  }

  lemma ReplyKeepsOrder(b: Bot, s: Step, changed: set<ThreadId>)
    requires Inv(b) && BotShape(b) && Ordered(b, changed) && Enabled(b, s) && s.Reply? && InOrder(b, s, changed)
    requires BotShape(Next(b, s))
    ensures Ordered(Next(b, s), ChangedBy(b, s, changed))
  {
    ReplyInOrder(b.tasks[s.thread], s.n, s.role, s.isText, s.thread in changed);
    ChangeInOrder(b, Next(b, s), s.thread, changed, changed);
  }

  lemma FailedKeepsOrder(b: Bot, s: Step, changed: set<ThreadId>)
    requires Inv(b) && BotShape(b) && Ordered(b, changed) && Enabled(b, s) && s.DispatchFailed?
    requires InOrder(b, s, changed)
    requires BotShape(Next(b, s))
    ensures Ordered(Next(b, s), ChangedBy(b, s, changed))
  {
    FailedInOrder(b.tasks[s.thread], s.n, s.thread in changed);
    ChangeInOrder(b, Next(b, s), s.thread, changed, changed);
  }

  lemma SettledKeepsOrder(b: Bot, s: Step, changed: set<ThreadId>)
    requires Inv(b) && BotShape(b) && Ordered(b, changed) && Enabled(b, s) && s.Settled? && InOrder(b, s, changed)
    requires BotShape(Next(b, s))
    ensures Ordered(Next(b, s), ChangedBy(b, s, changed))
  {
    OverInOrder(b.tasks[s.thread], s.n, s.thread in changed);
    ChangeInOrder(b, Next(b, s), s.thread, changed, changed);
  }

  lemma NoteKeepsOrder(b: Bot, s: Step, changed: set<ThreadId>)
    requires Inv(b) && BotShape(b) && Ordered(b, changed) && Enabled(b, s) && s.Note? && InOrder(b, s, changed)
    requires BotShape(Next(b, s))
    ensures Ordered(Next(b, s), ChangedBy(b, s, changed))
  {
    NoteInOrder(b.tasks[s.thread], s.role, s.isText, s.thread in changed);
    ChangeInOrder(b, Next(b, s), s.thread, changed, changed);
  }

  lemma NewTaskKeepsOrder(b: Bot, s: Step, changed: set<ThreadId>)
    requires BotShape(b) && Ordered(b, changed) && changed <= b.tasks.Keys && Enabled(b, s) && s.NewTask?
    requires BotShape(Next(b, s))
    ensures Ordered(Next(b, s), changed)
  {
    ChangeInOrder(b, Next(b, s), s.thread, changed, changed);
  }

  lemma ChangedKnown(b: Bot, s: Step, changed: set<ThreadId>)
    requires BotShape(b) && Enabled(b, s) && changed <= b.tasks.Keys
    ensures ChangedBy(b, s, changed) <= Next(b, s).tasks.Keys
  {
  }

  /** Every step in order keeps the order. */
  lemma StepKeepsOrder(b: Bot, s: Step, changed: set<ThreadId>)
    requires Inv(b) && BotShape(b) && Ordered(b, changed) && changed <= b.tasks.Keys
    requires Enabled(b, s) && InOrder(b, s, changed)
    ensures BotShape(Next(b, s)) && Ordered(Next(b, s), ChangedBy(b, s, changed))
    ensures ChangedBy(b, s, changed) <= Next(b, s).tasks.Keys
  {
    StepKeeps(b, s);
    ChangedKnown(b, s, changed);
    match s
    case Begin(_, _, _, _, _) => BeginKeepsOrder(b, s, changed);
    case Sent(_, _) => SentKeepsOrder(b, s, changed);
    case SessionStarted(_, _) => StartedKeepsOrder(b, s, changed);
    case Reply(_, _, _, _) => ReplyKeepsOrder(b, s, changed);
    case Dispatched(_, _) => DispatchedKeepsOrder(b, s, changed);
    case DispatchFailed(_, _) => FailedKeepsOrder(b, s, changed);
    case Settled(_, _) => SettledKeepsOrder(b, s, changed);
    case SwitchBranch(_) => SwitchKeepsOrder(b, s, changed);
    case Note(_, _, _) => NoteKeepsOrder(b, s, changed);
    case NewTask(_, _) => NewTaskKeepsOrder(b, s, changed);
    case _ =>
  }

  // ---- what follows for the guard ------------------------------------------

  lemma OrderCloses(t: Task, changed: bool, rewound: bool)
    requires TreeOf(t) && TaskInOrder(t, changed) && (changed ==> rewound)
    ensures Closes(t, rewound)
  {
    if !Open(t) {
      forall n | 0 <= n < |t.turns| ensures Closed(t, t.turns[n]) {
      }
      IdleOwner(t, changed);
    }
  }

  lemma OrderIsGuarded(b: Bot, changed: set<ThreadId>)
    requires BotShape(b) && Ordered(b, changed)
    ensures Guarded(b) && AllSafe(b)
    ensures changed == {} ==> forall k :: k in b.tasks ==> Closes(b.tasks[k], false)
  {
    forall k | k in b.tasks
      ensures Closes(b.tasks[k], b.rewound) && Safe(b.tasks[k]) && (changed == {} ==> Closes(b.tasks[k], false)) {
      OrderCloses(b.tasks[k], k in changed, b.rewound);
      OrderIsSafe(b.tasks[k], k in changed);
      if changed == {} {
        OrderCloses(b.tasks[k], false, false);
      }
    }
  }

  /** A step in order spares every turn in flight. */
  lemma OrderedStepIsHarmless(b: Bot, s: Step, changed: set<ThreadId>)
    requires Inv(b) && BotShape(b) && Ordered(b, changed) && changed <= b.tasks.Keys
    requires Enabled(b, s) && InOrder(b, s, changed)
    ensures Harmless(b, s)
  {
    StepKeepsOrder(b, s, changed);
    OrderIsGuarded(b, changed);
    OrderIsGuarded(Next(b, s), ChangedBy(b, s, changed));
    StepSafeExactly(b, s);
  }

  /** A dispatch in order clears the flag only when no other task needs it. */
  lemma OrderedDispatchIsCareful(b: Bot, s: Step, changed: set<ThreadId>)
    requires BotShape(b) && Enabled(b, s) && BotShape(Next(b, s)) && s.Dispatched?
    requires InOrder(b, s, changed) && Ordered(Next(b, s), ChangedBy(b, s, changed))
    ensures Careful(b, s)
  {
    var c, after := Next(b, s), ChangedBy(b, s, changed);
    OrderIsGuarded(c, after);
    assert Closes(c.tasks[s.thread], c.rewound);
    if b.rewound && !c.rewound {
      forall k | k in b.tasks && k != s.thread ensures Closes(b.tasks[k], false) {
        assert c.tasks[k] == b.tasks[k];
      }
    }
  }

  /** What the record would have asked of a step in order holds. */
  lemma OrderedStepIsCareful(b: Bot, s: Step, changed: set<ThreadId>)
    requires Inv(b) && BotShape(b) && Ordered(b, changed) && changed <= b.tasks.Keys
    requires Enabled(b, s) && InOrder(b, s, changed)
    ensures Careful(b, s)
  {
    StepKeepsOrder(b, s, changed);
    OrderIsGuarded(b, changed);
    if s.Begin? {
      BeginIsSound(b, s, changed);
      CarefulExactlyWhenSound(b, s);
    } else if s.Dispatched? {
      OrderedDispatchIsCareful(b, s, changed);
    } else if s.SessionStarted? || s.DispatchFailed? || s.Settled? {
      OrderIsGuarded(Next(b, s), ChangedBy(b, s, changed));
      assert Closes(Next(b, s).tasks[s.thread], b.rewound);
    }
  }
}
