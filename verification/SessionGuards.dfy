/** What a step may do to the turns in flight, and what the harness itself goes by: the flag of the bot,
  * the last instance of a task, and which instances have a cursor. `Harmless` is the exact condition on
  * a step to leave every turn in flight with a session that follows its branch; a turn's beginning is so
  * exactly when it is `Careful`, in a state that the harness keeps in order (`Guarded`).
  */
module SessionGuards {
  import opened Wrappers
  import opened NativeSession
  import opened SessionSteps

  // ---- turns in flight -----------------------------------------------------

  /** Every turn in flight goes to a session the record trusts. */
  ghost predicate Safe(t: Task) {
    forall n :: 0 <= n < |t.turns| && t.turns[n].InFlight() ==> Trusted(t, Goes(t, t.turns[n]))
  }

  ghost predicate AllSafe(b: Bot) {
    forall k :: k in b.tasks ==> Safe(b.tasks[k])
  }

  /** The turn goes to the session on record. */
  predicate Resumes(p: Plan, instance: InstanceId) {
    p.context.resume && instance in p.task.cursors
  }

  /** The test on the record a turn must pass: a session is resumed only when it missed nothing and knows
    * nothing off the branch, and one is opened with the last lines or where nothing was delivered. */
  ghost predicate Sound(b: Bot, s: Step)
    requires BotShape(b) && Enabled(b, s) && s.Begin?
  {
    var p := PlanTurn(b, s);
    if Resumes(p, s.instance) then Trusted(p.task, p.task.cursors[s.instance]) else !Unheard(p, p.task.delivered)
  }

  /** No turn in flight goes to one of these sessions. */
  ghost predicate NoneGoes(t: Task, sessions: set<nat>) {
    forall m :: 0 <= m < |t.turns| && t.turns[m].InFlight() ==> Goes(t, t.turns[m]) !in sessions
  }

  /** The turn has begun and is going to take the cursor of `i`. */
  predicate Awaits(turn: Turn, i: InstanceId) {
    turn.InFlight() && !turn.sent && turn.resume && turn.instance == i
  }

  /** What a step must not do to the turns in flight: change the branch under one, tell one the lines of
    * another branch, let it miss a line, or point it to another session that does not follow. */
  ghost predicate Spares(b: Bot, s: Step)
    requires BotShape(b) && Enabled(b, s)
  {
    match s
    case Begin(thread, _, _, edit, _) => Safe(Rebase(b.tasks[thread], edit))
    case Sent(thread, n) => b.tasks[thread].turns[n].said <= PathOf(b.tasks[thread])
    case SessionStarted(thread, n) =>
      var t := b.tasks[thread];
      forall m :: 0 <= m < |t.turns| && Awaits(t.turns[m], t.turns[n].instance) ==> Trusted(t, t.turns[n].session)
    case Reply(thread, n, _, isText) =>
      var t := b.tasks[thread];
      t.turns[n].Counted() && isText ==> NoneGoes(t, Others(t, t.turns[n].session))
    case Dispatched(thread, n) => NoneGoes(b.tasks[thread], b.tasks[thread].turns[n].deaf)
    case Settled(thread, n) => NoneGoes(b.tasks[thread], b.tasks[thread].turns[n].deaf)
    case SwitchBranch(message) => Safe(SwitchedTask(b.tasks[b.active], message))
    case _ => true
  }

  ghost predicate Harmless(b: Bot, s: Step)
    requires BotShape(b) && Enabled(b, s)
  {
    (s.Begin? ==> Sound(b, s)) && Spares(b, s)
  }

  // ---- the condition is exact ----------------------------------------------

  lemma CountedSafe(t: Task, u: Task, n: nat)
    requires TaskOk(t) && Safe(t) && n < |t.turns| && t.turns[n].sent && |u.turns| == |t.turns|
    requires u.missed == t.missed + t.turns[n].deaf && u.strayed == t.strayed
    requires forall m :: 0 <= m < |t.turns| ==> Goes(u, u.turns[m]) == Goes(t, t.turns[m])
    requires forall m :: 0 <= m < |t.turns| && u.turns[m].InFlight() ==> t.turns[m].InFlight()
    requires forall m :: 0 <= m < |t.turns| && t.turns[m].InFlight() && m != n ==> u.turns[m].InFlight()
    ensures Safe(u) <==> NoneGoes(t, t.turns[n].deaf)
  {
    assert TurnOk(t, t.turns[n]);
    if Safe(u) {
      forall m | 0 <= m < |t.turns| && t.turns[m].InFlight() ensures Goes(t, t.turns[m]) !in t.turns[n].deaf {
        assert m != n ==> Trusted(u, Goes(u, u.turns[m]));
      }
    }
    if NoneGoes(t, t.turns[n].deaf) {
      forall m | 0 <= m < |u.turns| && u.turns[m].InFlight() ensures Trusted(u, Goes(u, u.turns[m])) {
        assert Trusted(t, Goes(t, t.turns[m]));
      }
    }
  }

  lemma ReplySafe(t: Task, n: nat, role: Role, isText: bool)
    requires TaskOk(t) && Spent(t.turns) && Safe(t) && n < |t.turns| && t.turns[n].sent && t.turns[n].InFlight()
    ensures Safe(ReplyTask(t, n, role, isText)) <==>
              (t.turns[n].Counted() && isText ==> NoneGoes(t, Others(t, t.turns[n].session)))
  {
    var u := ReplyTask(t, n, role, isText);
    forall m | 0 <= m < |t.turns|
      ensures Goes(u, u.turns[m]) == Goes(t, t.turns[m]) && (u.turns[m].InFlight() <==> t.turns[m].InFlight()) {
    }
    if Safe(u) {
      forall m | 0 <= m < |t.turns| && t.turns[m].InFlight() ensures Trusted(u, Goes(t, t.turns[m])) {
        assert u.turns[m].InFlight();
      }
    }
  }

  lemma SentSafe(t: Task, n: nat)
    requires TaskOk(t) && Safe(t) && n < |t.turns| && !t.turns[n].sent && t.turns[n].InFlight()
    ensures Safe(SentTask(t, n)) <==> t.turns[n].said <= PathOf(t)
  {
    var u := SentTask(t, n);
    assert u.turns[n].InFlight() && Goes(u, u.turns[n]) == Goes(t, t.turns[n]);
    forall m | 0 <= m < |t.turns|
      ensures Goes(u, u.turns[m]) == Goes(t, t.turns[m]) && (u.turns[m].InFlight() <==> t.turns[m].InFlight()) {
    }
    if t.turns[n].said <= PathOf(t) {
      assert u.strayed == t.strayed;
    }
  }

  lemma StartedSafe(t: Task, n: nat)
    requires TaskOk(t) && Safe(t) && n < |t.turns| && t.turns[n].sent
    ensures
      Safe(StartedTask(t, n)) <==>
        forall m :: 0 <= m < |t.turns| && Awaits(t.turns[m], t.turns[n].instance) ==> Trusted(t, t.turns[n].session)
  {
    var u := StartedTask(t, n);
    forall m | 0 <= m < |t.turns|
      ensures (u.turns[m].InFlight() <==> t.turns[m].InFlight())
              && Goes(u, u.turns[m]) ==
                 if !t.turns[m].sent && t.turns[m].resume && t.turns[m].instance == t.turns[n].instance
                 then t.turns[n].session else Goes(t, t.turns[m]) {
    }
    if Safe(u) {
      forall m | 0 <= m < |t.turns| && Awaits(t.turns[m], t.turns[n].instance)
        ensures Trusted(t, t.turns[n].session) {
        assert Trusted(u, Goes(u, u.turns[m]));
      }
    }
  }

  lemma BeginSafe(at: Task, p: Plan, instance: InstanceId, lines: nat)
    requires PlanOk(at, p, lines)
    ensures
      Safe(BeginTask(p, instance)) <==>
        Safe(at) && (if Resumes(p, instance) then Trusted(at, p.task.cursors[instance]) else !Unheard(p, at.delivered))
  {
    AppendLinesTree(at, lines);
    var u, id := BeginTask(p, instance), |at.sessions|;
    assert TaskOk(at);
    forall m | 0 <= m < |at.turns|
      ensures Goes(u, u.turns[m]) == Goes(at, at.turns[m]) && (u.turns[m].InFlight() <==> at.turns[m].InFlight())
              && Goes(at, at.turns[m]) < id {
    }
    assert u.turns[|at.turns|].InFlight();
    if Safe(u) {
      forall m | 0 <= m < |at.turns| && at.turns[m].InFlight() ensures Trusted(at, Goes(at, at.turns[m])) {
        assert Trusted(u, Goes(u, u.turns[m]));
      }
      assert Trusted(u, Goes(u, u.turns[|at.turns|]));
    }
  }

  lemma TaskSafe(b: Bot, c: Bot, k: ThreadId)
    requires AllSafe(b) && k in b.tasks && k in c.tasks
    requires forall j :: j in c.tasks && j != k ==> j in b.tasks && c.tasks[j] == b.tasks[j]
    ensures AllSafe(c) <==> Safe(c.tasks[k])
  {
  }

  lemma BeginTaskSafe(b: Bot, s: Step)
    requires Inv(b) && BotShape(b) && Enabled(b, s) && s.Begin?
    ensures Safe(BeginTask(PlanTurn(b, s), s.instance)) <==> Harmless(b, s)
  {
    PlanIsOk(b, s);
    AppendLinesTree(Rebase(b.tasks[s.thread], s.edit), s.lines);
    BeginSafe(Rebase(b.tasks[s.thread], s.edit), PlanTurn(b, s), s.instance, s.lines);
  }

  lemma BeginSafeExactly(b: Bot, s: Step)
    requires Inv(b) && BotShape(b) && AllSafe(b) && Enabled(b, s) && s.Begin?
    ensures AllSafe(Next(b, s)) <==> Harmless(b, s)
  {
    BeginTaskSafe(b, s);
    TaskSafe(b, Next(b, s), s.thread);
  }

  lemma MarkedSafe(t: Task, n: nat)
    requires TaskOk(t) && Safe(t) && n < |t.turns| && t.turns[n].sent
    ensures Safe(MarkedTask(t, n)) <==> NoneGoes(t, t.turns[n].deaf)
  {
    CountedSafe(t, MarkedTask(t, n), n);
  }

  lemma OverSafe(t: Task, n: nat)
    requires TaskOk(t) && Safe(t) && n < |t.turns| && t.turns[n].sent
    ensures Safe(OverTask(t, n)) <==> NoneGoes(t, t.turns[n].deaf)
  {
    CountedSafe(t, OverTask(t, n), n);
  }

  lemma FailedSafe(t: Task, n: nat)
    requires Safe(t) && n < |t.turns|
    ensures Safe(FailedTask(t, n))
  {
    var u := FailedTask(t, n);
    forall m | 0 <= m < |u.turns| && u.turns[m].InFlight() ensures Trusted(u, Goes(u, u.turns[m])) {
      assert Trusted(t, Goes(t, t.turns[m]));
    }
  }

  lemma SentSafeExactly(b: Bot, s: Step)
    requires Inv(b) && BotShape(b) && AllSafe(b) && Enabled(b, s) && s.Sent?
    ensures AllSafe(Next(b, s)) <==> Harmless(b, s)
  {
    SentSafe(b.tasks[s.thread], s.n);
    TaskSafe(b, Next(b, s), s.thread);
  }

  lemma StartedSafeExactly(b: Bot, s: Step)
    requires Inv(b) && BotShape(b) && AllSafe(b) && Enabled(b, s) && s.SessionStarted?
    ensures AllSafe(Next(b, s)) <==> Harmless(b, s)
  {
    StartedSafe(b.tasks[s.thread], s.n);
    TaskSafe(b, Next(b, s), s.thread);
  }

  lemma ReplySafeExactly(b: Bot, s: Step)
    requires Inv(b) && BotShape(b) && AllSafe(b) && Enabled(b, s) && s.Reply?
    ensures AllSafe(Next(b, s)) <==> Harmless(b, s)
  {
    ReplySafe(b.tasks[s.thread], s.n, s.role, s.isText);
    TaskSafe(b, Next(b, s), s.thread);
  }

  lemma DispatchedSafeExactly(b: Bot, s: Step)
    requires Inv(b) && BotShape(b) && AllSafe(b) && Enabled(b, s) && s.Dispatched?
    ensures AllSafe(Next(b, s)) <==> Harmless(b, s)
  {
    MarkedSafe(b.tasks[s.thread], s.n);
    TaskSafe(b, Next(b, s), s.thread);
  }

  lemma SettledSafeExactly(b: Bot, s: Step)
    requires Inv(b) && BotShape(b) && AllSafe(b) && Enabled(b, s) && s.Settled?
    ensures AllSafe(Next(b, s)) <==> Harmless(b, s)
  {
    OverSafe(b.tasks[s.thread], s.n);
    TaskSafe(b, Next(b, s), s.thread);
  }

  lemma FailedSafeExactly(b: Bot, s: Step)
    requires Inv(b) && BotShape(b) && AllSafe(b) && Enabled(b, s) && s.DispatchFailed?
    ensures AllSafe(Next(b, s)) <==> Harmless(b, s)
  {
    FailedSafe(b.tasks[s.thread], s.n);
    TaskSafe(b, Next(b, s), s.thread);
  }

  /** A step leaves every turn in flight with a session that follows its branch exactly when it is harmless. */
  lemma StepSafeExactly(b: Bot, s: Step)
    requires Inv(b) && BotShape(b) && AllSafe(b) && Enabled(b, s)
    ensures AllSafe(Next(b, s)) <==> Harmless(b, s)
  {
    match s
    case Begin(_, _, _, _, _) => BeginSafeExactly(b, s);
    case Sent(_, _) => SentSafeExactly(b, s);
    case SessionStarted(_, _) => StartedSafeExactly(b, s);
    case Reply(_, _, _, _) => ReplySafeExactly(b, s);
    case Dispatched(_, _) => DispatchedSafeExactly(b, s);
    case DispatchFailed(_, _) => FailedSafeExactly(b, s);
    case Settled(_, _) => SettledSafeExactly(b, s);
    case Note(k, _, _) => TaskSafe(b, Next(b, s), k);
    case SwitchBranch(_) => TaskSafe(b, Next(b, s), b.active);
    case _ =>
  }

  // ---- what the harness goes by --------------------------------------------

  /** The instance the harness would let resume: it took the last turn, or holds the only cursor. */
  predicate Owner(t: Task, i: InstanceId) {
    i in t.cursors && (t.last == Some(i) || (t.last.None? && t.cursors.Keys == {i}))
  }

  ghost predicate OwnerTrusted(t: Task) {
    forall i :: Owner(t, i) ==> Trusted(t, t.cursors[i])
  }

  /** Nothing more is to come of the turn: it failed, or it is over, its marks are set, and the start of
    * its session is recorded if an older cursor could be confused with it. */
  predicate Closed(t: Task, turn: Turn) {
    turn.failed || (turn.over && turn.marked && Recorded(t, turn))
  }

  predicate Recorded(t: Task, turn: Turn) {
    turn.started || turn.instance !in t.cursors || t.cursors[turn.instance] == turn.session
  }

  ghost predicate Open(t: Task) {
    exists n :: 0 <= n < |t.turns| && !Closed(t, t.turns[n])
  }

  /** Once its turns are closed the owner of a task may resume, unless the flag is up. */
  ghost predicate Guarded(b: Bot) {
    forall k :: k in b.tasks ==> Open(b.tasks[k]) || b.rewound || OwnerTrusted(b.tasks[k])
  }

  ghost predicate WindowShowsUser(p: Plan) {
    User in Roles(p.task, LastN(p.history, TRANSCRIPT_CAP))
  }

  /** What the record asks of a step for the guard to hold after it, and of a turn's beginning to pass the
    * test. The harness cannot see the record; `SessionOrder` has an order of steps that implies this. */
  ghost predicate Careful(b: Bot, s: Step)
    requires BotShape(b) && Enabled(b, s)
  {
    match s
    case Begin(thread, instance, _, _, native) =>
      var t, p := b.tasks[thread], PlanTurn(b, s);
      || p.rewound
      || (if Owner(t, instance) then (thread == b.active && !Open(t)) || Trusted(t, t.cursors[instance])
          else if WindowShowsUser(p) then true
          else if instance in t.cursors then Trusted(t, t.cursors[instance])
          else native || forall i :: i in p.history ==> i !in t.delivered)
    case SessionStarted(thread, n) => Closes(StartedTask(b.tasks[thread], n), b.rewound)
    case Dispatched(thread, n) =>
      var rewound := b.rewound && !b.tasks[thread].turns[n].rewound;
      && Closes(MarkedTask(b.tasks[thread], n), rewound)
      && (rewound || !b.rewound || forall k :: k in b.tasks && k != thread ==> Closes(b.tasks[k], false))
    case DispatchFailed(thread, n) => Closes(FailedTask(b.tasks[thread], n), b.rewound)
    case Settled(thread, n) => Closes(OverTask(b.tasks[thread], n), b.rewound)
    case _ => true
  }

  ghost predicate Closes(t: Task, rewound: bool) {
    Open(t) || rewound || OwnerTrusted(t)
  }

  lemma PlanKeepsRecord(b: Bot, s: Step)
    requires BotShape(b) && Enabled(b, s) && s.Begin?
    ensures
      var t, p := b.tasks[s.thread], PlanTurn(b, s);
      && p.task.cursors == t.cursors && p.task.last == t.last && p.task.delivered == t.delivered
      && (s.edit.None? ==> p.task.missed == t.missed && p.task.strayed == t.strayed)
      && (s.edit.Some? ==> p.rewound)
  {
    AppendLinesTree(Rebase(b.tasks[s.thread], s.edit), s.lines);
  }

  /** When exactly a turn goes to the session on record. */
  lemma ResumesExactly(b: Bot, s: Step)
    requires BotShape(b) && Enabled(b, s) && s.Begin?
    ensures
      var p := PlanTurn(b, s);
      Resumes(p, s.instance) <==>
        !p.rewound && s.instance in b.tasks[s.thread].cursors
        && (Owner(b.tasks[s.thread], s.instance) || !WindowShowsUser(p))
  {
    PlanKeepsRecord(b, s);
  }

  /** A turn that does not resume hears the last lines, unless it may resume but has nothing to. */
  lemma UnheardExactly(b: Bot, s: Step, ids: set<nat>)
    requires BotShape(b) && Enabled(b, s) && s.Begin?
    ensures
      var p := PlanTurn(b, s);
      Unheard(p, ids) <==>
        p.context.resume && !s.native && exists i :: i in p.history && i in ids
  {
  }

  /** What the harness goes by at a turn's beginning agrees with the record. */
  lemma CarefulExactlyWhenSound(b: Bot, s: Step)
    requires BotShape(b) && Guarded(b) && Enabled(b, s) && s.Begin?
    ensures Careful(b, s) <==> Sound(b, s)
  {
    var t, p := b.tasks[s.thread], PlanTurn(b, s);
    PlanKeepsRecord(b, s);
    ResumesExactly(b, s);
    UnheardExactly(b, s, t.delivered);
    if !p.rewound && Owner(t, s.instance) && s.thread == b.active && !Open(t) {
      assert OwnerTrusted(t);
    }
  }

  // ---- every careful step keeps the guard ----------------------------------

  lemma StaysOpen(t: Task, u: Task, n: nat)
    requires n < |t.turns| && n < |u.turns| && !u.turns[n].failed && !(u.turns[n].over && u.turns[n].marked)
    ensures Open(u)
  {
    assert !Closed(u, u.turns[n]);
  }

  lemma ChangeGuarded(b: Bot, c: Bot, k: ThreadId)
    requires Guarded(b) && k in c.tasks && Closes(c.tasks[k], c.rewound)
    requires forall j :: j in c.tasks && j != k ==> j in b.tasks && c.tasks[j] == b.tasks[j]
    requires c.rewound || !b.rewound || forall j :: j in c.tasks && j != k ==> Closes(c.tasks[j], false)
    ensures Guarded(c)
  {
  }

  lemma NoteCloses(t: Task, role: Role, isText: bool, rewound: bool)
    requires Closes(t, rewound)
    ensures Closes(Append(t, t.leaf, role, isText), rewound)
  {
    var u := Append(t, t.leaf, role, isText);
    if Open(t) {
      var n :| 0 <= n < |t.turns| && !Closed(t, t.turns[n]);
      assert !Closed(u, u.turns[n]);
    } else if !rewound {
      assert forall i :: Owner(u, i) ==> Owner(t, i);
    }
  }

  lemma BeginGuarded(b: Bot, s: Step)
    requires Inv(b) && BotShape(b) && Guarded(b) && Enabled(b, s) && s.Begin?
    ensures Guarded(Next(b, s))
  {
    var u := BeginTask(PlanTurn(b, s), s.instance);
    assert !Closed(u, u.turns[|u.turns| - 1]);
    ChangeGuarded(b, Next(b, s), s.thread);
  }

  /** A turn in flight keeps its task open. */
  lemma FlightGuarded(b: Bot, s: Step)
    requires Inv(b) && BotShape(b) && Guarded(b) && Enabled(b, s) && (s.Sent? || s.Reply?)
    ensures Guarded(Next(b, s))
  {
    var u := Next(b, s).tasks[s.thread];
    assert s.n < |u.turns| && !u.turns[s.n].failed && !u.turns[s.n].over;
    StaysOpen(b.tasks[s.thread], u, s.n);
    ChangeGuarded(b, Next(b, s), s.thread);
  }

  lemma NoteGuarded(b: Bot, s: Step)
    requires Inv(b) && BotShape(b) && Guarded(b) && Enabled(b, s) && s.Note?
    ensures Guarded(Next(b, s))
  {
    NoteCloses(b.tasks[s.thread], s.role, s.isText, b.rewound);
    ChangeGuarded(b, Next(b, s), s.thread);
  }

  /** The steps that can close a turn. */
  lemma ClosingGuarded(b: Bot, s: Step)
    requires Inv(b) && BotShape(b) && Guarded(b) && Enabled(b, s) && Careful(b, s)
    requires s.SessionStarted? || s.Dispatched? || s.DispatchFailed? || s.Settled?
    ensures Guarded(Next(b, s))
  {
    ChangeGuarded(b, Next(b, s), s.thread);
  }

  lemma StepGuarded(b: Bot, s: Step)
    requires Inv(b) && BotShape(b) && Guarded(b) && Enabled(b, s) && Careful(b, s)
    ensures Guarded(Next(b, s))
  {
    match s
    case Begin(_, _, _, _, _) => BeginGuarded(b, s);
    case Sent(_, _) => FlightGuarded(b, s);
    case Reply(_, _, _, _) => FlightGuarded(b, s);
    case Note(_, _, _) => NoteGuarded(b, s);
    case SwitchBranch(_) => ChangeGuarded(b, Next(b, s), b.active);
    case NewTask(k, _) => ChangeGuarded(b, Next(b, s), k);
    case Activity(_) =>
    case CheckBranch =>
    case SwitchTask(_) =>
    case _ => ClosingGuarded(b, s);
  }
}
