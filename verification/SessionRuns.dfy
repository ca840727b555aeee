/** Whole runs of the native-session model: what every turn talks to, and what goes wrong. */
module SessionRuns {
  import opened Wrappers
  import opened NativeSession
  import opened SessionSteps
  import opened SessionGuards
  import opened SessionOrder

  /** Any run: each state comes from the one before by an enabled step. */
  ghost predicate Trace(b: Bot, states: seq<Bot>, steps: seq<Step>, c: Bot) {
    && |states| == |steps| + 1 && states[0] == b && states[|steps|] == c
    && forall n :: 0 <= n < |steps| ==> Stepped(states, steps, n)
  }

  ghost predicate Stepped(states: seq<Bot>, steps: seq<Step>, n: nat)
    requires |states| == |steps| + 1 && n < |steps|
  {
    BotShape(states[n]) && Enabled(states[n], steps[n]) && states[n + 1] == Next(states[n], steps[n])
  }

  ghost predicate HarmlessAt(states: seq<Bot>, steps: seq<Step>, n: nat)
    requires |states| == |steps| + 1 && n < |steps|
  {
    BotShape(states[n]) && Enabled(states[n], steps[n]) && Harmless(states[n], steps[n])
  }

  ghost predicate CarefulAt(states: seq<Bot>, steps: seq<Step>, n: nat)
    requires |states| == |steps| + 1 && n < |steps|
  {
    && BotShape(states[n]) && Enabled(states[n], steps[n])
    && Careful(states[n], steps[n]) && Spares(states[n], steps[n])
  }

  /** A bot as created or loaded: no turn has begun in this process, and what its sessions were given is
    * compared with the branches. */
  ghost predicate Init(b: Bot) {
    BotShape(b) && !b.busy && b.checked == 0 && forall k :: k in b.tasks ==> Loaded(b.tasks[k])
  }

  ghost predicate Loaded(t: Task)
    requires Shape(t)
  {
    && t.turns == [] && InRange(t.delivered, |t.messages|)
    && (forall s :: s in t.sessions ==> InRange(s.given, |t.messages|) && RootOk(t.messages, s))
    && t.missed == Lacking(TextsOf(t), t.delivered, t.sessions) && t.strayed == OffPath(PathOf(t), t.sessions)
  }

  lemma InitOk(b: Bot)
    requires Init(b)
    ensures Inv(b) && AllSafe(b)
  {
    forall k | k in b.tasks ensures TaskOk(b.tasks[k]) && Safe(b.tasks[k]) {
      assert Loaded(b.tasks[k]);
    }
  }

  lemma SteppedKeeps(states: seq<Bot>, steps: seq<Step>, n: nat)
    requires |states| == |steps| + 1 && 0 < n <= |steps| && Stepped(states, steps, n - 1) && Inv(states[n - 1])
    ensures Inv(states[n])
  {
    StepKeeps(states[n - 1], steps[n - 1]);
  }

  lemma {:induction false} TraceKeeps(b: Bot, states: seq<Bot>, steps: seq<Step>, c: Bot, n: nat)
    requires Inv(b) && Trace(b, states, steps, c) && n <= |steps|
    ensures Inv(states[n])
  {
    if n > 0 {
      TraceKeeps(b, states, steps, c, n - 1);
      SteppedKeeps(states, steps, n);
    }
  }

  lemma TaskTurnFollows(t: Task, n: nat)
    requires TaskOk(t) && n < |t.turns|
    ensures TurnFollows(t, t.turns[n]) <==> Trusted(t, Goes(t, t.turns[n]))
  {
    FollowsExactly(t, Goes(t, t.turns[n]));
  }

  /** The main result, for every run there is: the session a turn talks to, or would be sent to now, knows
    * nothing off the active branch and every delivered line of it from the line it was opened with,
    * exactly when the record shows no line sent past it and none given to it off the branch. */
  lemma EveryTurnFollowsExactly(b: Bot, states: seq<Bot>, steps: seq<Step>, c: Bot, k: ThreadId, n: nat)
    requires Init(b) && Trace(b, states, steps, c) && k in c.tasks && n < |c.tasks[k].turns|
    ensures TaskOk(c.tasks[k])
    ensures TurnFollows(c.tasks[k], c.tasks[k].turns[n])
            <==> Trusted(c.tasks[k], Goes(c.tasks[k], c.tasks[k].turns[n]))
  {
    InitOk(b);
    TraceKeeps(b, states, steps, c, |steps|);
    TaskTurnFollows(c.tasks[k], n);
  }

  // ---- what keeps the turns in flight safe ---------------------------------

  lemma StaysSafe(states: seq<Bot>, steps: seq<Step>, n: nat)
    requires |states| == |steps| + 1 && 0 < n <= |steps| && Stepped(states, steps, n - 1)
    requires Inv(states[n - 1]) && AllSafe(states[n - 1])
    ensures AllSafe(states[n]) <==> HarmlessAt(states, steps, n - 1)
  {
    StepSafeExactly(states[n - 1], steps[n - 1]);
  }

  lemma {:induction false} HarmlessKeeps(b: Bot, states: seq<Bot>, steps: seq<Step>, c: Bot, n: nat)
    requires Inv(b) && AllSafe(b) && Trace(b, states, steps, c) && n <= |steps|
    requires forall m: nat :: m < |steps| ==> HarmlessAt(states, steps, m)
    ensures AllSafe(states[n])
  {
    if n > 0 {
      HarmlessKeeps(b, states, steps, c, n - 1);
      TraceKeeps(b, states, steps, c, n - 1);
      StaysSafe(states, steps, n);
    }
  }

  /** Along a run every turn in flight follows its branch all the time exactly when every step is harmless:
    * a turn that begins passes the test, and no step changes the branch under a turn in flight, tells it
    * lines of another branch, or sends a line past it. */
  lemma RunSafeExactly(b: Bot, states: seq<Bot>, steps: seq<Step>, c: Bot)
    requires Inv(b) && AllSafe(b) && Trace(b, states, steps, c)
    ensures (forall n: nat :: n <= |steps| ==> AllSafe(states[n]))
            <==> (forall n: nat :: n < |steps| ==> HarmlessAt(states, steps, n))
  {
    if forall n: nat :: n <= |steps| ==> AllSafe(states[n]) {
      forall n: nat | n < |steps| ensures HarmlessAt(states, steps, n) {
        TraceKeeps(b, states, steps, c, n);
        StaysSafe(states, steps, n + 1);
      }
    }
    if forall n: nat :: n < |steps| ==> HarmlessAt(states, steps, n) {
      forall n: nat | n <= |steps| ensures AllSafe(states[n]) {
        HarmlessKeeps(b, states, steps, c, n);
      }
    }
  }

  lemma CarefulStep(states: seq<Bot>, steps: seq<Step>, n: nat)
    requires |states| == |steps| + 1 && 0 < n <= |steps| && Stepped(states, steps, n - 1)
    requires Inv(states[n - 1]) && Guarded(states[n - 1]) && CarefulAt(states, steps, n - 1)
    ensures Guarded(states[n]) && HarmlessAt(states, steps, n - 1)
  {
    if steps[n - 1].Begin? {
      CarefulExactlyWhenSound(states[n - 1], steps[n - 1]);
    }
    StepGuarded(states[n - 1], steps[n - 1]);
  }

  /** A run all of whose steps are careful and spare the turns in flight. */
  ghost predicate CarefulTrace(b: Bot, states: seq<Bot>, steps: seq<Step>, c: Bot) {
    Trace(b, states, steps, c) && forall m: nat :: m < |steps| ==> CarefulAt(states, steps, m)
  }

  lemma CarefulTraceStep(b: Bot, states: seq<Bot>, steps: seq<Step>, c: Bot, n: nat)
    requires Inv(b) && CarefulTrace(b, states, steps, c) && 0 < n <= |steps| && Guarded(states[n - 1])
    ensures Guarded(states[n]) && HarmlessAt(states, steps, n - 1)
  {
    TraceKeeps(b, states, steps, c, n - 1);
    CarefulStep(states, steps, n);
  }

  lemma {:induction false} CarefulKeeps(b: Bot, states: seq<Bot>, steps: seq<Step>, c: Bot, n: nat)
    requires Inv(b) && Guarded(b) && CarefulTrace(b, states, steps, c) && n <= |steps|
    ensures Guarded(states[n])
  {
    if n > 0 {
      CarefulKeeps(b, states, steps, c, n - 1);
      CarefulTraceStep(b, states, steps, c, n);
    }
  }

  /** Along a careful run the harness's own decisions pass the test at every turn's beginning. */
  lemma CarefulRunIsHarmless(b: Bot, states: seq<Bot>, steps: seq<Step>, c: Bot)
    requires Inv(b) && Guarded(b) && CarefulTrace(b, states, steps, c)
    ensures Guarded(c) && forall m: nat :: m < |steps| ==> HarmlessAt(states, steps, m)
  {
    CarefulKeeps(b, states, steps, c, |steps|);
    forall m: nat | m < |steps| ensures HarmlessAt(states, steps, m) {
      CarefulKeeps(b, states, steps, c, m);
      CarefulTraceStep(b, states, steps, c, m + 1);
    }
  }

  // ---- runs in order -------------------------------------------------------

  /** The tasks whose branch changed and that took no rewound turn since, after `n` steps. */
  ghost function ChangedAt(states: seq<Bot>, steps: seq<Step>, first: set<ThreadId>, n: nat): set<ThreadId>
    requires |states| == |steps| + 1 && n <= |steps|
  {
    if n == 0 then first
    else if BotShape(states[n - 1]) && Enabled(states[n - 1], steps[n - 1])
    then ChangedBy(states[n - 1], steps[n - 1], ChangedAt(states, steps, first, n - 1))
    else {}
  }

  ghost predicate InOrderAt(states: seq<Bot>, steps: seq<Step>, first: set<ThreadId>, n: nat)
    requires |states| == |steps| + 1 && n < |steps|
  {
    && BotShape(states[n]) && Enabled(states[n], steps[n])
    && InOrder(states[n], steps[n], ChangedAt(states, steps, first, n))
  }

  /** The tasks of a loaded bot whose branch changed before it was loaded: their owner does not follow it. */
  ghost function Changed(b: Bot): set<ThreadId> {
    set k | k in b.tasks && !OwnerTrusted(b.tasks[k])
  }

  ghost predicate OrderedTrace(b: Bot, states: seq<Bot>, steps: seq<Step>, c: Bot) {
    Trace(b, states, steps, c) && forall m: nat :: m < |steps| ==> InOrderAt(states, steps, Changed(b), m)
  }

  /** What holds of a state of a run in order. */
  ghost predicate KeepsOrder(b: Bot, changed: set<ThreadId>) {
    Inv(b) && BotShape(b) && Ordered(b, changed) && changed <= b.tasks.Keys
  }

  lemma InitOrdered(b: Bot)
    requires Init(b) && Guarded(b)
    ensures KeepsOrder(b, Changed(b))
  {
    InitOk(b);
    forall k | k in b.tasks ensures TaskInOrder(b.tasks[k], k in Changed(b)) && !Open(b.tasks[k]) {
      assert Loaded(b.tasks[k]);
    }
  }

  lemma OrderedStep(states: seq<Bot>, steps: seq<Step>, first: set<ThreadId>, n: nat)
    requires |states| == |steps| + 1 && 0 < n <= |steps| && Stepped(states, steps, n - 1)
    requires KeepsOrder(states[n - 1], ChangedAt(states, steps, first, n - 1))
    requires InOrderAt(states, steps, first, n - 1)
    ensures KeepsOrder(states[n], ChangedAt(states, steps, first, n)) && CarefulAt(states, steps, n - 1)
  {
    var changed := ChangedAt(states, steps, first, n - 1);
    StepKeeps(states[n - 1], steps[n - 1]);
    StepKeepsOrder(states[n - 1], steps[n - 1], changed);
    OrderedStepIsHarmless(states[n - 1], steps[n - 1], changed);
    OrderedStepIsCareful(states[n - 1], steps[n - 1], changed);
  }

  lemma OrderedTraceStep(b: Bot, states: seq<Bot>, steps: seq<Step>, c: Bot, n: nat)
    requires OrderedTrace(b, states, steps, c) && 0 < n <= |steps|
    requires KeepsOrder(states[n - 1], ChangedAt(states, steps, Changed(b), n - 1))
    ensures KeepsOrder(states[n], ChangedAt(states, steps, Changed(b), n)) && CarefulAt(states, steps, n - 1)
  {
    assert InOrderAt(states, steps, Changed(b), n - 1);
    OrderedStep(states, steps, Changed(b), n);
  }

  lemma {:induction false} TraceKeepsOrder(b: Bot, states: seq<Bot>, steps: seq<Step>, c: Bot, n: nat)
    requires Init(b) && Guarded(b) && OrderedTrace(b, states, steps, c) && n <= |steps|
    ensures KeepsOrder(states[n], ChangedAt(states, steps, Changed(b), n))
  {
    if n == 0 {
      InitOrdered(b);
    } else {
      TraceKeepsOrder(b, states, steps, c, n - 1);
      OrderedTraceStep(b, states, steps, c, n);
    }
  }

  lemma OrderedIsCarefulAt(b: Bot, states: seq<Bot>, steps: seq<Step>, c: Bot, n: nat)
    requires Init(b) && Guarded(b) && OrderedTrace(b, states, steps, c) && n < |steps|
    ensures CarefulAt(states, steps, n)
  {
    TraceKeepsOrder(b, states, steps, c, n);
    OrderedTraceStep(b, states, steps, c, n + 1);
  }

  /** The main result on what the harness does: in a run whose steps keep the order, with answers, edits,
    * notes, switches of engine, task and branch anywhere, every turn in flight talks to a session that
    * knows every delivered line of its branch from the line it was opened with and nothing off it. */
  lemma EveryTurnTalksToItsBranch(b: Bot, states: seq<Bot>, steps: seq<Step>, c: Bot, k: ThreadId, n: nat)
    requires Init(b) && Guarded(b) && OrderedTrace(b, states, steps, c)
    requires k in c.tasks && n < |c.tasks[k].turns| && c.tasks[k].turns[n].InFlight()
    ensures TaskOk(c.tasks[k]) && TurnFollows(c.tasks[k], c.tasks[k].turns[n])
  {
    TraceKeepsOrder(b, states, steps, c, |steps|);
    OrderIsSafe(c.tasks[k], k in ChangedAt(states, steps, Changed(b), |steps|));
    EveryTurnFollowsExactly(b, states, steps, c, k, n);
  }

  /** Along such a run, whenever a task is between turns and its branch did not change, the engine that took
    * the last turn was given every line sent, so that it may resume. */
  lemma OwnerMayResume(b: Bot, states: seq<Bot>, steps: seq<Step>, c: Bot, k: ThreadId, i: InstanceId)
    requires Init(b) && Guarded(b) && OrderedTrace(b, states, steps, c)
    requires k in c.tasks && Idle(c.tasks[k]) && Owner(c.tasks[k], i)
    requires k !in ChangedAt(states, steps, Changed(b), |steps|)
    ensures TaskOk(c.tasks[k]) && Coherent(c.tasks[k], c.tasks[k].sessions[c.tasks[k].cursors[i]])
  {
    TraceKeepsOrder(b, states, steps, c, |steps|);
    IdleOwner(c.tasks[k], false);
    FollowsExactly(c.tasks[k], c.tasks[k].cursors[i]);
  }

  /** Such a run is careful and spares the turns in flight, so every step of it is harmless. */
  lemma OrderedRunIsCareful(b: Bot, states: seq<Bot>, steps: seq<Step>, c: Bot)
    requires Init(b) && Guarded(b) && OrderedTrace(b, states, steps, c)
    ensures CarefulTrace(b, states, steps, c)
    ensures forall m: nat :: m < |steps| ==> HarmlessAt(states, steps, m)
  {
    forall m: nat | m < |steps| ensures CarefulAt(states, steps, m) {
      OrderedIsCarefulAt(b, states, steps, c, m);
    }
    InitOk(b);
    CarefulRunIsHarmless(b, states, steps, c);
  }

  // ---- given steps ---------------------------------------------------------

  ghost predicate Accepted(b: Bot, steps: seq<Step>, c: Bot) {
    exists states :: Trace(b, states, steps, c)
  }

  lemma AcceptedNone(b: Bot)
    ensures Accepted(b, [], b)
  {
    assert Trace(b, [b], [], b);
  }

  lemma AcceptedCons(b: Bot, s: Step, rest: seq<Step>, c: Bot)
    requires BotShape(b) && Enabled(b, s) && Accepted(Next(b, s), rest, c)
    ensures Accepted(b, [s] + rest, c)
  {
    var states :| Trace(Next(b, s), states, rest, c);
    var all, steps := [b] + states, [s] + rest;
    forall n | 0 <= n < |steps| ensures Stepped(all, steps, n) {
      if n > 0 {
        assert Stepped(states, rest, n - 1);
      }
    }
    assert Trace(b, all, steps, c);
  }

  /** Whatever `c` leads to, `b` leads to by way of `s`. */
  ghost predicate Leads(b: Bot, s: Step, c: Bot) {
    forall rest, d :: Accepted(c, rest, d) ==> Accepted(b, [s] + rest, d)
  }

  lemma LeadsOn(b: Bot, s: Step, c: Bot, rest: seq<Step>, d: Bot)
    requires Leads(b, s, c) && Accepted(c, rest, d)
    ensures Accepted(b, [s] + rest, d)
  {
  }

  lemma Go(b: Bot, s: Step) returns (c: Bot)
    requires Inv(b) && BotShape(b) && Enabled(b, s)
    ensures c == Next(b, s) && Inv(c) && BotShape(c) && Leads(b, s, c)
  {
    c := Next(b, s);
    StepKeeps(b, s);
    forall rest, d | Accepted(c, rest, d) ensures Accepted(b, [s] + rest, d) {
      AcceptedCons(b, s, rest, d);
    }
  }

  lemma TurnSent(b: Bot, k: ThreadId, n: nat) returns (c: Bot)
    requires Inv(b) && BotShape(b) && TurnAt(b, k, n)
    requires !b.tasks[k].turns[n].sent && b.tasks[k].turns[n].InFlight()
    ensures Inv(c) && BotShape(c) && Leads(b, Sent(k, n), c)
    ensures c == Change(b, k, SentTask(b.tasks[k], n))
  {
    c := Go(b, Sent(k, n));
  }

  lemma StartRecorded(b: Bot, k: ThreadId, n: nat) returns (c: Bot)
    requires Inv(b) && BotShape(b) && TurnAt(b, k, n)
    requires b.tasks[k].turns[n].sent && !b.tasks[k].turns[n].started
    ensures Inv(c) && BotShape(c) && Leads(b, SessionStarted(k, n), c)
    ensures c == Change(b, k, StartedTask(b.tasks[k], n))
  {
    c := Go(b, SessionStarted(k, n));
  }

  lemma TurnMarked(b: Bot, k: ThreadId, n: nat) returns (c: Bot)
    requires Inv(b) && BotShape(b) && TurnAt(b, k, n)
    requires
      var turn := b.tasks[k].turns[n];
      turn.sent && !turn.marked && !turn.failed
    ensures Inv(c) && BotShape(c) && Leads(b, Dispatched(k, n), c)
    ensures c == Change(b, k, MarkedTask(b.tasks[k], n)).(rewound := b.rewound && !b.tasks[k].turns[n].rewound)
  {
    c := Go(b, Dispatched(k, n));
  }

  lemma TurnEnds(b: Bot, k: ThreadId, n: nat) returns (c: Bot)
    requires Inv(b) && BotShape(b) && TurnAt(b, k, n)
    requires b.tasks[k].turns[n].sent && b.tasks[k].turns[n].InFlight()
    ensures Inv(c) && BotShape(c) && Leads(b, Settled(k, n), c)
    ensures c == Change(b, k, OverTask(b.tasks[k], n)).(busy := false)
  {
    c := Go(b, Settled(k, n));
  }

  // ---- a turn begins -------------------------------------------------------

  /** The turn that just began, as it stands after `s`. */
  ghost predicate NewTurnFollows(b: Bot, s: Step)
    requires Inv(b) && BotShape(b) && Enabled(b, s) && s.Begin?
  {
    StepKeeps(b, s);
    var t := Next(b, s).tasks[s.thread];
    t.turns != [] && TurnFollows(t, t.turns[|t.turns| - 1])
  }

  lemma NewTurnSound(at: Task, p: Plan, instance: InstanceId, lines: nat)
    requires PlanOk(at, p, lines)
    ensures
      var u := BeginTask(p, instance);
      Trusted(u, Goes(u, u.turns[|u.turns| - 1])) <==>
        if Resumes(p, instance) then Trusted(p.task, p.task.cursors[instance]) else !Unheard(p, p.task.delivered)
  {
    AppendLinesTree(at, lines);
    assert TaskOk(at);
  }

  /** In any state of any run: the turn that begins goes to a session that follows the branch exactly when
    * it resumes one that missed nothing and knows nothing else, or opens one with the last lines of the
    * branch, or opens one where nothing was delivered. */
  lemma FollowsExactlyWhenSound(b: Bot, s: Step)
    requires Inv(b) && BotShape(b) && Enabled(b, s) && s.Begin?
    ensures NewTurnFollows(b, s) <==> Sound(b, s)
  {
    var p, at := PlanTurn(b, s), Rebase(b.tasks[s.thread], s.edit);
    PlanIsOk(b, s);
    NewTurnSound(at, p, s.instance, s.lines);
    StepKeeps(b, s);
    var u := BeginTask(p, s.instance);
    assert Next(b, s).tasks[s.thread] == u;
    TaskTurnFollows(u, |u.turns| - 1);
  }

  /** A session a turn is about to resume follows its branch, before and after the turn begins, exactly when
    * the record trusts it, in whatever way the run came about. */
  lemma ResumedSessionFollowsBranch(b: Bot, states: seq<Bot>, steps: seq<Step>, c: Bot, s: Step)
    requires Init(b) && Trace(b, states, steps, c) && BotShape(c) && s.Begin? && Enabled(c, s)
    requires Resumes(PlanTurn(c, s), s.instance)
    ensures
      var t := c.tasks[s.thread];
      && s.instance in t.cursors && Inv(c)
      && (Coherent(t, t.sessions[t.cursors[s.instance]]) <==> Trusted(t, t.cursors[s.instance]))
      && (NewTurnFollows(c, s) <==> Trusted(t, t.cursors[s.instance]))
  {
    InitOk(b);
    TraceKeeps(b, states, steps, c, |steps|);
    PlanKeepsRecord(c, s);
    FollowsExactlyWhenSound(c, s);
    FollowsExactly(c.tasks[s.thread], c.tasks[s.thread].cursors[s.instance]);
  }

  /** No user line within the window: an engine with a cursor is resumed whoever took the last turn, rightly
    * exactly when the record trusts its session; one without a cursor is opened on a conversation it was
    * never told, rightly exactly when nothing on the branch was delivered. */
  lemma WindowWithoutUser(b: Bot, s: Step)
    requires Inv(b) && BotShape(b) && Enabled(b, s) && s.Begin? && !s.native
    requires !PlanTurn(b, s).rewound && !WindowShowsUser(PlanTurn(b, s))
    ensures
      var t := b.tasks[s.thread];
      NewTurnFollows(b, s) <==>
        if s.instance in t.cursors then Trusted(t, t.cursors[s.instance])
        else forall i :: i in TextsOf(t) ==> i !in t.delivered
  {
    PlanIs(b, s);
    PlanKeepsRecord(b, s);
    ResumesExactly(b, s);
    UnheardExactly(b, s, b.tasks[s.thread].delivered);
    FollowsExactlyWhenSound(b, s);
  }

  // ---- a long answer -------------------------------------------------------

  /** A turn that says `count` text lines and completes. */
  function LongAnswer(k: ThreadId, n: nat, count: nat): seq<Step> {
    if count == 0 then [Settled(k, n)] + []
    else [Reply(k, n, Assistant, true)] + LongAnswer(k, n, count - 1)
  }

  /** The last `m` text lines of the branch are the assistant's. */
  ghost predicate AnswerTail(t: Task, m: nat)
    requires TreeOf(t)
  {
    && m <= |TextsOf(t)|
    && forall j :: |TextsOf(t)| - m <= j < |TextsOf(t)| ==>
         TextsOf(t)[j] < |t.messages| && t.messages[TextsOf(t)[j]].role == Assistant
  }

  /** `i` has a session on record for the task that the last `m` lines, all answers of another, went past. */
  ghost predicate Answered(t: Task, i: InstanceId, m: nat) {
    TreeOf(t) && AnswerTail(t, m) && i in t.cursors && (m > 0 ==> t.cursors[i] in t.missed)
  }

  ghost predicate Answering(t: Task, n: nat, i: InstanceId, m: nat) {
    && Answered(t, i, m) && n < |t.turns| && t.turns[n].sent && t.turns[n].InFlight() && t.turns[n].marked
    && t.cursors[i] != t.turns[n].session
  }

  lemma ReplyTail(t: Task, n: nat, i: InstanceId, m: nat)
    requires TaskOk(t) && Answering(t, n, i, m)
    ensures Answering(ReplyTask(t, n, Assistant, true), n, i, m + 1)
  {
    var u := ReplyTask(t, n, Assistant, true);
    AppendTexts(t, t.leaf, Assistant, true);
    assert TextsOf(u) == TextsOf(t) + [|t.messages|];
    TextsInRange(t);
  }

  lemma OneAnswer(b: Bot, k: ThreadId, n: nat, i: InstanceId, m: nat) returns (c: Bot)
    requires Inv(b) && BotShape(b) && k in b.tasks && Answering(b.tasks[k], n, i, m)
    ensures Inv(c) && BotShape(c) && Leads(b, Reply(k, n, Assistant, true), c)
    ensures k in c.tasks && Answering(c.tasks[k], n, i, m + 1) && c.active == b.active && c.rewound == b.rewound
  {
    c := Go(b, Reply(k, n, Assistant, true));
    ReplyTail(b.tasks[k], n, i, m);
  }

  lemma AnswerEnds(b: Bot, k: ThreadId, n: nat, i: InstanceId, m: nat) returns (c: Bot)
    requires Inv(b) && BotShape(b) && k in b.tasks && Answering(b.tasks[k], n, i, m)
    ensures Inv(c) && BotShape(c) && Accepted(b, LongAnswer(k, n, 0), c) && !c.busy
    ensures k in c.tasks && Answered(c.tasks[k], i, m) && c.active == b.active && c.rewound == b.rewound
  {
    c := Go(b, Settled(k, n));
    AcceptedNone(c);
    LeadsOn(b, Settled(k, n), c, [], c);
  }

  lemma AnswersOn(b: Bot, c: Bot, k: ThreadId, n: nat, count: nat, d: Bot)
    requires count > 0 && Leads(b, Reply(k, n, Assistant, true), c) && Accepted(c, LongAnswer(k, n, count - 1), d)
    ensures Accepted(b, LongAnswer(k, n, count), d)
  {
    LeadsOn(b, Reply(k, n, Assistant, true), c, LongAnswer(k, n, count - 1), d);
  }

  lemma {:induction false} Answers(b: Bot, k: ThreadId, n: nat, count: nat, m: nat, i: InstanceId) returns (c: Bot)
    requires Inv(b) && BotShape(b) && k in b.tasks && Answering(b.tasks[k], n, i, m)
    ensures Inv(c) && BotShape(c) && Accepted(b, LongAnswer(k, n, count), c) && !c.busy
    ensures k in c.tasks && Answered(c.tasks[k], i, m + count) && c.active == b.active && c.rewound == b.rewound
    decreases count
  {
    if count == 0 {
      c := AnswerEnds(b, k, n, i, m);
    } else {
      var d := OneAnswer(b, k, n, i, m);
      c := Answers(d, k, n, count - 1, m + 1, i);
      AnswersOn(b, d, k, n, count, c);
    }
  }

  lemma TailHidesUser(b: Bot, s: Step)
    requires BotShape(b) && Enabled(b, s) && s.Begin? && s.edit.None?
    requires AnswerTail(b.tasks[s.thread], TRANSCRIPT_CAP)
    ensures !WindowShowsUser(PlanTurn(b, s))
  {
    var t, p := b.tasks[s.thread], PlanTurn(b, s);
    PlanIs(b, s);
    AppendLinesTree(t, s.lines);
    var window := LastN(TextsOf(t), TRANSCRIPT_CAP);
    forall x | 0 <= x < |window| ensures Roles(p.task, window)[x] == Assistant {
      assert window[x] == TextsOf(t)[|TextsOf(t)| - TRANSCRIPT_CAP + x];
      assert p.task.messages[window[x]] == t.messages[window[x]];
    }
  }

  /** Another engine's turn of forty or more lines hides every user line: the engine that comes back
    * resumes its own session, which never saw that turn. */
  lemma LongAnswerHidesUser(b: Bot, k: ThreadId, n: nat, count: nat, i: InstanceId, lines: nat, native: bool)
    returns (c: Bot)
    requires Inv(b) && BotShape(b) && TurnAt(b, k, n) && count >= TRANSCRIPT_CAP && (b.rewound ==> k != b.active)
    requires
      var t, turn := b.tasks[k], b.tasks[k].turns[n];
      turn.sent && turn.InFlight() && turn.marked && i in t.cursors && t.cursors[i] != turn.session
    ensures Accepted(b, LongAnswer(k, n, count), c) && Inv(c) && BotShape(c)
    ensures
      var s := Begin(k, i, lines, None, native);
      Enabled(c, s) && Resumes(PlanTurn(c, s), i) && !NewTurnFollows(c, s)
  {
    c := Answers(b, k, n, count, 0, i);
    var s := Begin(k, i, lines, None, native);
    TailHidesUser(c, s);
    PlanKeepsRecord(c, s);
    ResumesExactly(c, s);
    FollowsExactlyWhenSound(c, s);
  }

  // ---- the flag belongs to the bot -----------------------------------------

  /** A turn of `i` that begins on `home` resumes a session that does not follow its branch. */
  ghost predicate ResumesAbandoned(c: Bot, home: ThreadId, i: InstanceId, lines: nat) {
    var s := Begin(home, i, lines, None, false);
    && Inv(c) && BotShape(c) && Enabled(c, s) && Resumes(PlanTurn(c, s), i)
    && i in c.tasks[home].cursors && !Trusted(c.tasks[home], c.tasks[home].cursors[i])
    && !NewTurnFollows(c, s)
  }

  /** The owner of a task resumes unless the task is the active one and the flag is up. */
  lemma OwnerResumes(c: Bot, home: ThreadId, i: InstanceId, lines: nat)
    requires Inv(c) && BotShape(c) && !c.busy && home in c.tasks && Owner(c.tasks[home], i)
    requires home == c.active ==> !c.rewound
    requires !Trusted(c.tasks[home], c.tasks[home].cursors[i])
    ensures ResumesAbandoned(c, home, i, lines)
  {
    var s := Begin(home, i, lines, None, false);
    ResumesExactly(c, s);
    PlanKeepsRecord(c, s);
    FollowsExactlyWhenSound(c, s);
  }

  /** Being given the turn's lines makes no session follow that did not. */
  lemma AbandonedStaysAbandoned(t: Task, n: nat)
    requires TaskOk(t) && n < |t.turns| && !Trusted(t, Goes(t, t.turns[n]))
    ensures Shape(SentTask(t, n)) && !TurnFollows(SentTask(t, n), SentTask(t, n).turns[n])
  {
    SentOk(t, n);
    TaskTurnFollows(SentTask(t, n), n);
  }

  /** A turn of `k` whose lines are about to count, and nothing of it is in the other tasks. */
  lemma ChangeTwice(b: Bot, k: ThreadId, t: Task, u: Task)
    ensures Change(Change(b, k, t), k, u).tasks == b.tasks[k := u]
  {
  }

  lemma MarksAccepted(b: Bot, k: ThreadId, n: nat) returns (c: Bot)
    requires Inv(b) && BotShape(b) && TurnAt(b, k, n)
    requires var turn := b.tasks[k].turns[n]; turn.sent && turn.InFlight() && !turn.marked && turn.rewound
    ensures Inv(c) && BotShape(c) && !c.busy && !c.rewound && c.active == b.active
    ensures c.tasks == b.tasks[k := OverTask(MarkedTask(b.tasks[k], n), n)]
    ensures c.tasks[k].cursors == b.tasks[k].cursors
    ensures Accepted(b, [Dispatched(k, n)] + ([Settled(k, n)] + []), c)
  {
    var d := TurnMarked(b, k, n);
    c := TurnEnds(d, k, n);
    ChangeTwice(b, k, MarkedTask(b.tasks[k], n), OverTask(MarkedTask(b.tasks[k], n), n));
    AcceptedNone(c);
    LeadsOn(d, Settled(k, n), c, [], c);
    LeadsOn(b, Dispatched(k, n), d, [Settled(k, n)] + [], c);
  }

  /** What a rewound turn's dispatch does to every other task whose branch changed: whoever owns it
    * resumes the abandoned session there. */
  lemma DispatchSpendsEveryRewind(b: Bot, k: ThreadId, n: nat, home: ThreadId, i: InstanceId, lines: nat)
    returns (c: Bot)
    requires Inv(b) && BotShape(b) && TurnAt(b, k, n)
    requires var turn := b.tasks[k].turns[n]; turn.sent && turn.InFlight() && !turn.marked && turn.rewound
    requires home in b.tasks && home != k && Owner(b.tasks[home], i)
    requires !Trusted(b.tasks[home], b.tasks[home].cursors[i])
    ensures Accepted(b, [Dispatched(k, n)] + ([Settled(k, n)] + []), c)
    ensures ResumesAbandoned(c, home, i, lines)
  {
    c := MarksAccepted(b, k, n);
    OwnerResumes(c, home, i, lines);
  }

  /** A turn that goes well from its first record to its last. */
  function GoodTurn(k: ThreadId, n: nat, i: InstanceId, lines: nat): seq<Step> {
    [Begin(k, i, lines, None, false)] + Records(k, n)
  }

  function Records(k: ThreadId, n: nat): seq<Step> {
    [Sent(k, n)] + ([SessionStarted(k, n)] + ([Dispatched(k, n)] + ([Settled(k, n)] + [])))
  }

  lemma StartAndMarks(b: Bot, k: ThreadId, n: nat) returns (c: Bot)
    requires Inv(b) && BotShape(b) && TurnAt(b, k, n)
    requires
      var turn := b.tasks[k].turns[n];
      turn.sent && !turn.started && turn.InFlight() && !turn.marked && turn.rewound
    ensures Inv(c) && BotShape(c) && !c.busy && !c.rewound && c.active == b.active && c.tasks.Keys == b.tasks.Keys
    ensures forall j :: j in b.tasks && j != k ==> c.tasks[j] == b.tasks[j]
    ensures
      var t, turn := c.tasks[k], b.tasks[k].turns[n];
      turn.instance in t.cursors && t.cursors[turn.instance] == turn.session
    ensures Accepted(b, [SessionStarted(k, n)] + ([Dispatched(k, n)] + ([Settled(k, n)] + [])), c)
  {
    var d := StartRecorded(b, k, n);
    c := MarksAccepted(d, k, n);
    LeadsOn(b, SessionStarted(k, n), d, [Dispatched(k, n)] + ([Settled(k, n)] + []), c);
  }

  lemma RecordsAccepted(b: Bot, k: ThreadId, n: nat) returns (c: Bot)
    requires Inv(b) && BotShape(b) && TurnAt(b, k, n)
    requires
      var turn := b.tasks[k].turns[n];
      !turn.sent && !turn.started && turn.InFlight() && !turn.marked && turn.rewound && !turn.resume
    ensures Inv(c) && BotShape(c) && !c.busy && !c.rewound && c.active == b.active && c.tasks.Keys == b.tasks.Keys
    ensures forall j :: j in b.tasks && j != k ==> c.tasks[j] == b.tasks[j]
    ensures
      var t, turn := c.tasks[k], b.tasks[k].turns[n];
      turn.instance in t.cursors && t.cursors[turn.instance] == turn.session
    ensures Accepted(b, Records(k, n), c)
  {
    var d := TurnSent(b, k, n);
    c := StartAndMarks(d, k, n);
    LeadsOn(b, Sent(k, n), d, [SessionStarted(k, n)] + ([Dispatched(k, n)] + ([Settled(k, n)] + [])), c);
  }

  lemma RewoundBegin(b: Bot, i: InstanceId, lines: nat) returns (c: Bot)
    requires Inv(b) && BotShape(b) && !b.busy && b.rewound
    ensures
      var s := Begin(b.active, i, lines, None, false);
      && Enabled(b, s) && Inv(c) && BotShape(c) && Leads(b, s, c) && c == Next(b, s)
      && !PlanTurn(b, s).context.resume && NewTurnFollows(b, s)
    ensures c.active == b.active && c.tasks.Keys == b.tasks.Keys && c.rewound
    ensures forall k :: k in b.tasks && k != b.active ==> c.tasks[k] == b.tasks[k]
    ensures
      var n := |b.tasks[b.active].turns|;
      && TurnAt(c, b.active, n)
      && c.tasks[b.active].turns[n] ==
           Turn(i, |b.tasks[b.active].sessions|, c.tasks[b.active].turns[n].said, c.tasks[b.active].turns[n].deaf,
                true, false, false, false, false, false, false)
  {
    var s := Begin(b.active, i, lines, None, false);
    c := Go(b, s);
    PlanKeepsRecord(b, s);
    FollowsExactlyWhenSound(b, s);
    UnheardExactly(b, s, b.tasks[b.active].delivered);
    AppendLinesTree(b.tasks[b.active], lines);
  }

  /** One ordinary turn on the active task of a rewound bot opens a new session that follows the branch,
    * puts it on record, spends the flag and touches no other task. */
  lemma RewoundTurn(b: Bot, i: InstanceId, lines: nat) returns (c: Bot)
    requires Inv(b) && BotShape(b) && !b.busy && b.rewound
    ensures
      var s := Begin(b.active, i, lines, None, false);
      Enabled(b, s) && !PlanTurn(b, s).context.resume && NewTurnFollows(b, s)
    ensures Accepted(b, GoodTurn(b.active, |b.tasks[b.active].turns|, i, lines), c)
    ensures Inv(c) && BotShape(c) && !c.busy && !c.rewound && c.active == b.active && c.tasks.Keys == b.tasks.Keys
    ensures i in c.tasks[b.active].cursors && c.tasks[b.active].cursors[i] == |b.tasks[b.active].sessions|
    ensures forall k :: k in b.tasks && k != b.active ==> c.tasks[k] == b.tasks[k]
  {
    var d := RewoundBegin(b, i, lines);
    var n := |b.tasks[b.active].turns|;
    c := RecordsAccepted(d, b.active, n);
    LeadsOn(b, Begin(b.active, i, lines, None, false), d, Records(b.active, n), c);
  }

  /** `rewound` belongs to the bot, not to the task whose branch changed.
    * Change the branch of a task, take a turn in another task and come back:
    * from every such state, the next turn resumes the abandoned session. */
  lemma RewindSpentElsewhere(b: Bot, other: ThreadId, i: InstanceId, j: InstanceId, lines: nat)
    returns (a: Bot, d: Bot, c: Bot)
    requires Inv(b) && BotShape(b) && !b.busy && b.rewound && other in b.tasks && other != b.active
    requires Owner(b.tasks[b.active], i) && !Trusted(b.tasks[b.active], b.tasks[b.active].cursors[i])
    ensures Enabled(b, SwitchTask(other)) && a == Next(b, SwitchTask(other))
    ensures Accepted(a, GoodTurn(other, |a.tasks[other].turns|, j, lines), d)
    ensures BotShape(d) && Enabled(d, SwitchTask(b.active)) && c == Next(d, SwitchTask(b.active))
    ensures ResumesAbandoned(c, b.active, i, lines)
  {
    a := Go(b, SwitchTask(other));
    d := RewoundTurn(a, j, lines);
    c := Go(d, SwitchTask(b.active));
    OwnerResumes(c, b.active, i, lines);
  }

  // ---- the branch changes under a turn -------------------------------------

  /** The turn knows a line that is not on the branch `message` leads to. */
  ghost predicate LeftBehind(t: Task, n: nat, message: nat)
    requires Shape(t) && n < |t.turns| && message < |t.messages|
  {
    !(t.sessions[Goes(t, t.turns[n])].given
      <= OnPath(t.messages, Some(Descend(t.messages, message, |t.messages|))))
  }

  lemma LeftBehindStrays(t: Task, n: nat, message: nat)
    requires TaskOk(t) && n < |t.turns| && message < |t.messages| && LeftBehind(t, n, message)
    ensures
      var u := SwitchedTask(t, message);
      Goes(u, u.turns[n]) == Goes(t, t.turns[n]) && Goes(t, t.turns[n]) in u.strayed
  {
  }

  lemma BranchChanges(b: Bot, message: nat) returns (c: Bot)
    requires Inv(b) && BotShape(b) && b.checked > 0 && message < |b.tasks[b.active].messages|
    ensures Inv(c) && BotShape(c) && Leads(b, SwitchBranch(message), c)
    ensures c.rewound && c.active == b.active && c.busy == b.busy
    ensures c.tasks == b.tasks[b.active := SwitchedTask(b.tasks[b.active], message)]
  {
    c := Go(b, SwitchBranch(message));
  }

  /** The branch route asks whether the bot is busy and then waits for its body: by the time it changes the
    * branch a turn may have begun. From every such state the turn stops following its branch, and if it
    * is rewound its dispatch clears the newer flag, so that its engine resumes the session once more. */
  lemma BranchChangesUnderATurn(b: Bot, n: nat, message: nat, lines: nat) returns (c: Bot, d: Bot)
    requires Inv(b) && BotShape(b) && b.checked > 0 && TurnAt(b, b.active, n)
    requires message < |b.tasks[b.active].messages| && LeftBehind(b.tasks[b.active], n, message)
    requires var turn := b.tasks[b.active].turns[n]; turn.sent && turn.InFlight() && !turn.marked
    ensures Accepted(b, [SwitchBranch(message)] + [], c) && Inv(c) && TurnAt(c, b.active, n)
    ensures !TurnFollows(c.tasks[b.active], c.tasks[b.active].turns[n])
    ensures
      var t, turn := b.tasks[b.active], b.tasks[b.active].turns[n];
      turn.rewound && turn.instance in t.cursors && t.cursors[turn.instance] == turn.session ==>
        && Accepted(c, [Dispatched(b.active, n)] + ([Settled(b.active, n)] + []), d)
        && ResumesAbandoned(d, b.active, turn.instance, lines)
  {
    var t, turn := b.tasks[b.active], b.tasks[b.active].turns[n];
    c := BranchChanges(b, message);
    AcceptedNone(c);
    LeadsOn(b, SwitchBranch(message), c, [], c);
    LeftBehindStrays(t, n, message);
    TaskTurnFollows(c.tasks[b.active], n);
    d := c;
    if turn.rewound && turn.instance in t.cursors && t.cursors[turn.instance] == turn.session {
      d := MarksAccepted(c, b.active, n);
      OwnerResumes(d, b.active, turn.instance, lines);
    }
  }

  /** A failed dispatch makes the bot idle although another turn of it is in flight: the next turn and the
    * next branch change find it so. */
  lemma FailureFreesTheBot(b: Bot, k: ThreadId, n: nat, j: ThreadId, m: nat) returns (c: Bot)
    requires Inv(b) && BotShape(b) && TurnAt(b, k, n) && TurnAt(b, j, m) && (k != j || n != m)
    requires !b.tasks[k].turns[n].marked && !b.tasks[k].turns[n].failed && b.tasks[j].turns[m].InFlight()
    ensures Accepted(b, [DispatchFailed(k, n)] + [], c) && Inv(c) && BotShape(c)
    ensures TurnAt(c, j, m) && c.tasks[j].turns[m].InFlight()
    ensures Enabled(c, CheckBranch)
    ensures forall thread, i, lines :: thread in c.tasks ==> Enabled(c, Begin(thread, i, lines, None, false))
  {
    c := Go(b, DispatchFailed(k, n));
    AcceptedNone(c);
    LeadsOn(b, DispatchFailed(k, n), c, [], c);
  }

  /** A rewound turn completes before its dispatch returns, the branch changes, and then the marks come:
    * they clear the flag of the newer change, and the next turn resumes the abandoned session. */
  lemma LateMarkSpendsNewerRewind(b: Bot, n: nat, message: nat, lines: nat) returns (c: Bot)
    requires Inv(b) && BotShape(b) && TurnAt(b, b.active, n)
    requires message < |b.tasks[b.active].messages| && LeftBehind(b.tasks[b.active], n, message)
    requires
      var t, turn := b.tasks[b.active], b.tasks[b.active].turns[n];
      && turn.sent && turn.InFlight() && !turn.marked && turn.rewound
      && turn.instance in t.cursors && t.cursors[turn.instance] == turn.session
    ensures Accepted(b, LateMark(b.active, n, message), c)
    ensures ResumesAbandoned(c, b.active, b.tasks[b.active].turns[n].instance, lines)
  {
    var k, turn := b.active, b.tasks[b.active].turns[n];
    var d := TurnEnds(b, k, n);
    var e := BotChecked(d);
    assert LeftBehind(d.tasks[k], n, message);
    LeftBehindStrays(d.tasks[k], n, message);
    var f := BranchChanges(e, message);
    c := MarkComes(f, k, n);
    LeadsOn(e, SwitchBranch(message), f, [Dispatched(k, n)] + [], c);
    LeadsOn(d, CheckBranch, e, [SwitchBranch(message)] + ([Dispatched(k, n)] + []), c);
    LeadsOn(b, Settled(k, n), d, [CheckBranch] + ([SwitchBranch(message)] + ([Dispatched(k, n)] + [])), c);
    OwnerResumes(c, k, turn.instance, lines);
  }

  function LateMark(k: ThreadId, n: nat, message: nat): seq<Step> {
    [Settled(k, n)] + ([CheckBranch] + ([SwitchBranch(message)] + ([Dispatched(k, n)] + [])))
  }

  lemma BotChecked(b: Bot) returns (c: Bot)
    requires Inv(b) && BotShape(b) && !b.busy
    ensures Inv(c) && BotShape(c) && Leads(b, CheckBranch, c) && c == b.(checked := b.checked + 1)
  {
    c := Go(b, CheckBranch);
  }

  lemma MarkComes(b: Bot, k: ThreadId, n: nat) returns (c: Bot)
    requires Inv(b) && BotShape(b) && TurnAt(b, k, n)
    requires
      var turn := b.tasks[k].turns[n];
      turn.sent && !turn.marked && !turn.failed && turn.rewound
    ensures Inv(c) && BotShape(c) && Accepted(b, [Dispatched(k, n)] + [], c)
    ensures c.tasks == b.tasks[k := MarkedTask(b.tasks[k], n)]
    ensures !c.rewound && c.busy == b.busy && c.active == b.active
  {
    c := TurnMarked(b, k, n);
    AcceptedNone(c);
    LeadsOn(b, Dispatched(k, n), c, [], c);
  }
}
