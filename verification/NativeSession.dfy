/** Whether an engine's native session may be resumed.
  *
  * A bot owns several tasks. Each task is a tree of messages with one active
  * leaf, the native sessions of engines, the resume cursor of each engine
  * instance, the instance that took the last turn, and the turns begun on it.
  * `Next` is one synchronous segment of the harness; turns of one bot can
  * overlap, and every segment keeps the record of `SessionSteps`.
  */
module NativeSession {
  import opened Wrappers

  type ThreadId = nat
  type InstanceId = nat

  const TRANSCRIPT_CAP: nat := 40

  datatype Role = User | Assistant

  /** A node of the message tree; its id is its index in `Task.messages`. */
  datatype Message = Message(parent: Option<nat>, role: Role, isText: bool)

  /** What a native session was given: message ids, the index in the branch's text lines from which it
    * was told the conversation, and the last line it was opened with. */
  datatype Session = Session(given: set<nat>, from: nat, root: Option<nat>)

  /** A turn, from `startTurn` on. `session` is the session opened for it, or once it was `sent` the one
    * it talks to. `said` are its lines that do not count as sent yet, and `deaf` the sessions that a
    * text line of them did not reach. Its dispatch returned when it is `marked` or `failed`, and it is
    * `over` when its completion was folded. */
  datatype Turn = Turn(
    instance: InstanceId,
    session: nat,
    said: set<nat>,
    deaf: set<nat>,
    rewound: bool,
    resume: bool,
    sent: bool,
    started: bool,
    marked: bool,
    over: bool,
    failed: bool) {
    predicate InFlight() { !over && !failed }
    predicate Counted() { marked || over }
  }

  /** `missed` and `strayed` are a record the harness itself does not keep: the sessions that a text line
    * sent on the branch did not reach, and those that were given a line off it. */
  datatype Task = Task(
    messages: seq<Message>,
    leaf: Option<nat>,
    sessions: seq<Session>,
    cursors: map<InstanceId, nat>,
    last: Option<InstanceId>,
    delivered: set<nat>,
    missed: set<nat>,
    strayed: set<nat>,
    turns: seq<Turn>)

  /** `checked` counts the branch requests that found the bot idle and wait for their body. */
  datatype Bot = Bot(tasks: map<ThreadId, Task>, active: ThreadId, rewound: bool, busy: bool, checked: nat)

  datatype Step =
    | Note(thread: ThreadId, role: Role, isText: bool)
    | Begin(thread: ThreadId, instance: InstanceId, lines: nat, edit: Option<nat>, native: bool)
    | Sent(thread: ThreadId, n: nat)
    | SessionStarted(thread: ThreadId, n: nat)
    | Reply(thread: ThreadId, n: nat, role: Role, isText: bool)
    | Dispatched(thread: ThreadId, n: nat)
    | DispatchFailed(thread: ThreadId, n: nat)
    | Settled(thread: ThreadId, n: nat)
    | Activity(busy: bool)
    | CheckBranch
    | SwitchBranch(message: nat)
    | SwitchTask(thread: ThreadId)
    | NewTask(thread: ThreadId, activate: bool)

  // ---- the message tree ----------------------------------------------------

  ghost predicate Tree(ms: seq<Message>) {
    forall i :: 0 <= i < |ms| && ms[i].parent.Some? ==> ms[i].parent.value < i
  }

  ghost predicate Node(ms: seq<Message>, leaf: Option<nat>) {
    leaf.Some? ==> leaf.value < |ms|
  }

  /** The text lines from the root to `leaf`, oldest first. */
  ghost function Texts(ms: seq<Message>, leaf: Option<nat>): (r: seq<nat>)
    requires Tree(ms) && Node(ms, leaf)
    ensures forall i :: 0 <= i < |r| ==> leaf.Some? && r[i] <= leaf.value
    decreases if leaf.Some? then leaf.value + 1 else 0
  {
    if leaf.None? then []
    else Texts(ms, ms[leaf.value].parent) + (if ms[leaf.value].isText then [leaf.value] else [])
  }

  /** Every node from the root to `leaf`. */
  ghost function OnPath(ms: seq<Message>, leaf: Option<nat>): (r: set<nat>)
    requires Tree(ms) && Node(ms, leaf)
    ensures forall i :: i in r ==> leaf.Some? && i <= leaf.value
    decreases if leaf.Some? then leaf.value + 1 else 0
  {
    if leaf.None? then {} else OnPath(ms, ms[leaf.value].parent) + {leaf.value}
  }

  lemma {:induction false} TextsStable(ms: seq<Message>, more: seq<Message>, leaf: Option<nat>)
    requires Tree(ms) && Node(ms, leaf) && Tree(ms + more)
    ensures Texts(ms + more, leaf) == Texts(ms, leaf)
    ensures OnPath(ms + more, leaf) == OnPath(ms, leaf)
    decreases if leaf.Some? then leaf.value + 1 else 0
  {
    if leaf.Some? {
      assert (ms + more)[leaf.value] == ms[leaf.value];
      TextsStable(ms, more, ms[leaf.value].parent);
    }
  }

  lemma {:induction false} TextsOnPath(ms: seq<Message>, leaf: Option<nat>)
    requires Tree(ms) && Node(ms, leaf)
    ensures forall i :: 0 <= i < |Texts(ms, leaf)| ==> Texts(ms, leaf)[i] in OnPath(ms, leaf)
    decreases if leaf.Some? then leaf.value + 1 else 0
  {
    if leaf.Some? {
      TextsOnPath(ms, ms[leaf.value].parent);
    }
  }

  /** `branchMessage` and `appendMessage`: a new node under `parent` becomes the leaf. */
  function Append(t: Task, parent: Option<nat>, role: Role, isText: bool): Task {
    t.(messages := t.messages + [Message(parent, role, isText)], leaf := Some(|t.messages|))
  }

  /** `lines` user lines, each under the one before. */
  function AppendLines(t: Task, lines: nat): Task {
    if lines == 0 then t
    else
      var u := AppendLines(t, lines - 1);
      Append(u, u.leaf, User, true)
  }

  /** `setActiveLeaf`: from `cur`, keep taking the newest child until there is none. */
  function Descend(ms: seq<Message>, cur: nat, i: nat): (leaf: nat)
    requires cur < |ms| && i <= |ms|
    ensures cur <= leaf < |ms|
    decreases |ms| - cur, i
  {
    if i <= cur + 1 then cur
    else if ms[i - 1].parent == Some(cur) then Descend(ms, i - 1, |ms|)
    else Descend(ms, cur, i - 1)
  }

  // ---- server/turn-context.ts ----------------------------------------------

  predicate EngineIsFresh(instance: InstanceId, last: Option<InstanceId>, cursors: map<InstanceId, nat>,
                          roles: seq<Role>)
  {
    if User !in roles then false
    else if last.Some? then last.value != instance || instance !in cursors
    else cursors.Keys != {instance}
  }

  /** `replay` is the history the engine is handed with this turn, inline or natively. */
  datatype TurnContext = TurnContext(replay: seq<nat>, resume: bool)

  function BuildTurnContext(transcript: seq<nat>, rewound: bool, joining: bool, replaysNatively: bool): TurnContext {
    var resume := !rewound && !joining;
    TurnContext(if !resume || replaysNatively then transcript else [], resume)
  }

  // ---- server/index.ts: one turn -------------------------------------------

  function Without(s: seq<nat>, skip: set<nat>): seq<nat> {
    if s == [] then []
    else Without(s[..|s| - 1], skip) + (if s[|s| - 1] in skip then [] else [s[|s| - 1]])
  }

  function LastN(s: seq<nat>, n: nat): seq<nat> {
    if |s| <= n then s else s[|s| - n..]
  }

  /** Settled text lines of the active branch except the turn's own, oldest first. */
  ghost function History(t: Task, own: set<nat>): seq<nat>
    requires TreeOf(t)
  {
    Without(TextsOf(t), own)
  }

  function Roles(t: Task, ids: seq<nat>): seq<Role> {
    seq(|ids|, i requires 0 <= i < |ids| => if ids[i] < |t.messages| then t.messages[ids[i]].role else Assistant)
  }

  function NewIds(t: Task, lines: nat): set<nat> {
    set i | i in Fresh(|t.messages|, lines)
  }

  function Fresh(from: nat, lines: nat): seq<nat> {
    seq(lines, i => from + i)
  }

  ghost predicate TreeOf(t: Task) {
    Tree(t.messages) && Node(t.messages, t.leaf)
  }

  ghost function TextsOf(t: Task): seq<nat>
    requires TreeOf(t)
  {
    Texts(t.messages, t.leaf)
  }

  ghost function PathOf(t: Task): set<nat>
    requires TreeOf(t)
  {
    OnPath(t.messages, t.leaf)
  }

  ghost predicate Shape(t: Task) {
    && TreeOf(t)
    && (forall i :: i in t.cursors ==> t.cursors[i] < |t.sessions|)
    && (forall n :: 0 <= n < |t.turns| ==> t.turns[n].session < |t.sessions|)
  }

  ghost predicate BotShape(b: Bot) {
    b.active in b.tasks && forall k :: k in b.tasks ==> Shape(b.tasks[k])
  }

  // ---- the record ----------------------------------------------------------

  /** Some line of `ids` on the branch, from the session's start on, was not given to it. */
  predicate Lacks(texts: seq<nat>, ids: set<nat>, s: Session) {
    exists j :: s.from <= j < |texts| && texts[j] in ids && texts[j] !in s.given
  }

  ghost function Lacking(texts: seq<nat>, ids: set<nat>, sessions: seq<Session>): (r: set<nat>)
    ensures forall n: nat :: n in r <==> n < |sessions| && Lacks(texts, ids, sessions[n])
  {
    set n: nat | n < |sessions| && Lacks(texts, ids, sessions[n])
  }

  ghost function OffPath(path: set<nat>, sessions: seq<Session>): (r: set<nat>)
    ensures forall n: nat :: n in r <==> n < |sessions| && !(sessions[n].given <= path)
  {
    set n: nat | n < |sessions| && !(sessions[n].given <= path)
  }

  function Below(k: nat): (r: set<nat>)
    ensures forall n: nat :: n in r <==> n < k
  {
    if k == 0 then {} else Below(k - 1) + {k - 1}
  }

  function Others(t: Task, session: nat): (r: set<nat>)
    ensures forall n: nat :: n in r <==> n < |t.sessions| && n != session
  {
    Below(|t.sessions|) - {session}
  }

  /** When the branch changes, the record is compared with the branch anew. */
  ghost function Turned(t: Task, leaf: Option<nat>): Task
    requires Tree(t.messages) && Node(t.messages, leaf)
  {
    var texts := Texts(t.messages, leaf);
    t.(leaf := leaf,
       missed := Lacking(texts, t.delivered, t.sessions),
       strayed := OffPath(OnPath(t.messages, leaf), t.sessions),
       turns := seq(|t.turns|, i requires 0 <= i < |t.turns| =>
         t.turns[i].(deaf := Lacking(texts, t.turns[i].said, t.sessions))))
  }

  // ---- a turn begins -------------------------------------------------------

  /** What `startTurn` decides before anything is awaited. */
  datatype Plan = Plan(task: Task, own: set<nat>, rewound: bool, context: TurnContext, history: seq<nat>)

  /** An edit makes a new branch under the parent of the edited line. */
  ghost function Rebase(t: Task, edit: Option<nat>): Task
    requires TreeOf(t) && (edit.Some? ==> edit.value < |t.messages|)
  {
    if edit.None? then t else Turned(t, t.messages[edit.value].parent)
  }

  ghost function PlanTurn(b: Bot, s: Step): (p: Plan)
    requires BotShape(b) && Enabled(b, s) && s.Begin?
    ensures TreeOf(p.task)
  {
    var t := b.tasks[s.thread];
    var at := Rebase(t, s.edit);
    AppendLinesTree(at, s.lines);
    var u := AppendLines(at, s.lines);
    var own := NewIds(t, s.lines);
    var history := History(u, own);
    var transcript := LastN(history, TRANSCRIPT_CAP);
    var rewound := s.thread == b.active && (b.rewound || s.edit.Some?);
    var joining := !rewound && EngineIsFresh(s.instance, u.last, u.cursors, Roles(u, transcript));
    Plan(u, own, rewound, BuildTurnContext(transcript, rewound, joining, s.native), history)
  }

  function IdSet(s: seq<nat>): set<nat> {
    set i | i in s
  }

  /** The session a turn opens unless it resumes one. */
  function Opened(p: Plan): Session {
    var replay := p.context.replay;
    if replay == [] then Session(p.own, 0, None)
    else Session(IdSet(replay) + p.own, if |p.history| < |replay| then 0 else |p.history| - |replay|,
                 Some(replay[|replay| - 1]))
  }

  /** A session opened without history where these lines were said never hears of them. */
  ghost predicate Unheard(p: Plan, ids: set<nat>) {
    p.context.replay == [] && exists i :: i in p.history && i in ids
  }

  /** The session is opened beside the others. */
  ghost function OpenTask(p: Plan): Task {
    var u, id := p.task, |p.task.sessions|;
    u.(sessions := u.sessions + [Opened(p)],
       missed := if Unheard(p, u.delivered) then u.missed + {id} else u.missed,
       turns := seq(|u.turns|, i requires 0 <= i < |u.turns| =>
         if Unheard(p, u.turns[i].said) then u.turns[i].(deaf := u.turns[i].deaf + {id}) else u.turns[i]))
  }

  /** The turn's lines are on the branch; no other session was given them. */
  ghost function BeginTask(p: Plan, instance: InstanceId): Task {
    var u, id := OpenTask(p), |p.task.sessions|;
    var deaf := if p.own == {} then {} else Others(u, id);
    u.(turns := u.turns + [Turn(instance, id, p.own, deaf, p.rewound, p.context.resume,
                                false, false, false, false, false)])
  }

  // ---- a turn goes on ------------------------------------------------------

  /** The session a turn talks to, or would be sent to now. */
  function Goes(t: Task, turn: Turn): nat {
    if !turn.sent && turn.resume && turn.instance in t.cursors then t.cursors[turn.instance] else turn.session
  }

  function Give(s: Session, ids: set<nat>): Session {
    s.(given := s.given + ids)
  }

  /** `sendTurn`: only now the cursor is read, and the session is given the turn's lines. */
  ghost function SentTask(t: Task, n: nat): Task
    requires Shape(t) && n < |t.turns|
  {
    var turn := t.turns[n];
    var session := Goes(t, turn);
    t.(sessions := t.sessions[session := Give(t.sessions[session], turn.said)],
       strayed := if turn.said <= PathOf(t) then t.strayed else t.strayed + {session},
       turns := t.turns[n := turn.(session := session, deaf := turn.deaf - {session}, sent := true)])
  }

  function StartedTask(t: Task, n: nat): Task
    requires n < |t.turns|
  {
    t.(cursors := t.cursors[t.turns[n].instance := t.turns[n].session],
       turns := t.turns[n := t.turns[n].(started := true)])
  }

  /** A line the session says, or is told by steering: no other session was given it. */
  function SaidTask(t: Task, n: nat, role: Role, isText: bool): Task
    requires n < |t.turns| && t.turns[n].session < |t.sessions|
  {
    var turn, id := t.turns[n], |t.messages|;
    Append(t, t.leaf, role, isText)
    .(sessions := t.sessions[turn.session := Give(t.sessions[turn.session], {id})],
      turns := t.turns[n := turn.(said := turn.said + {id},
                                  deaf := if isText then Others(t, turn.session) else turn.deaf)])
  }

  /** The turn's lines now count as sent. */
  function CountedTask(t: Task, n: nat): Task
    requires n < |t.turns|
  {
    t.(delivered := t.delivered + t.turns[n].said,
       missed := t.missed + t.turns[n].deaf,
       turns := t.turns[n := t.turns[n].(said := {}, deaf := {})])
  }

  function ReplyTask(t: Task, n: nat, role: Role, isText: bool): Task
    requires n < |t.turns| && t.turns[n].session < |t.sessions|
  {
    var u := SaidTask(t, n, role, isText);
    if t.turns[n].Counted() then CountedTask(u, n) else u
  }

  function MarkedTask(t: Task, n: nat): Task
    requires n < |t.turns|
  {
    var u := CountedTask(t, n);
    u.(last := Some(t.turns[n].instance), turns := u.turns[n := u.turns[n].(marked := true)])
  }

  function OverTask(t: Task, n: nat): Task
    requires n < |t.turns|
  {
    var u := CountedTask(t, n);
    u.(turns := u.turns[n := u.turns[n].(over := true)])
  }

  function FailedTask(t: Task, n: nat): Task
    requires n < |t.turns|
  {
    t.(turns := t.turns[n := t.turns[n].(failed := true)])
  }

  ghost function SwitchedTask(t: Task, message: nat): Task
    requires TreeOf(t) && message < |t.messages|
  {
    Turned(t, Some(Descend(t.messages, message, |t.messages|)))
  }

  const EMPTY_TASK := Task([], None, [], map[], None, {}, {}, {}, [])

  // ---- steps ---------------------------------------------------------------

  predicate TurnAt(b: Bot, thread: ThreadId, n: nat) {
    thread in b.tasks && n < |b.tasks[thread].turns|
  }

  /** What the routes and the turn engine accept in state `b`. The branch route asks whether the bot is
    * busy before it reads its body, and never again. */
  ghost predicate Enabled(b: Bot, s: Step)
    requires BotShape(b)
  {
    match s
    case Note(thread, _, _) => thread in b.tasks
    case Begin(thread, _, lines, edit, _) =>
      && !b.busy
      && thread in b.tasks
      && (edit.Some? ==>
            && thread == b.active && lines == 1
            && edit.value < |b.tasks[thread].messages|
            && b.tasks[thread].messages[edit.value].role.User?
            && b.tasks[thread].messages[edit.value].isText)
    case Sent(thread, n) =>
      TurnAt(b, thread, n) && !b.tasks[thread].turns[n].sent && b.tasks[thread].turns[n].InFlight()
    case SessionStarted(thread, n) =>
      TurnAt(b, thread, n) && b.tasks[thread].turns[n].sent && !b.tasks[thread].turns[n].started
    case Reply(thread, n, _, _) =>
      TurnAt(b, thread, n) && b.tasks[thread].turns[n].sent && b.tasks[thread].turns[n].InFlight()
    case Dispatched(thread, n) =>
      && TurnAt(b, thread, n) && b.tasks[thread].turns[n].sent
      && !b.tasks[thread].turns[n].marked && !b.tasks[thread].turns[n].failed
    case DispatchFailed(thread, n) =>
      TurnAt(b, thread, n) && !b.tasks[thread].turns[n].marked && !b.tasks[thread].turns[n].failed
    case Settled(thread, n) =>
      TurnAt(b, thread, n) && b.tasks[thread].turns[n].sent && b.tasks[thread].turns[n].InFlight()
    case Activity(_) => true
    case CheckBranch => !b.busy
    case SwitchBranch(message) => b.checked > 0 && message < |b.tasks[b.active].messages|
    case SwitchTask(thread) => thread in b.tasks
    case NewTask(thread, _) => thread !in b.tasks
  }

  function Change(b: Bot, k: ThreadId, t: Task): Bot {
    b.(tasks := b.tasks[k := t])
  }

  /** Completion and a failed dispatch make the bot idle, whatever else it does. */
  ghost function Next(b: Bot, s: Step): Bot
    requires BotShape(b) && Enabled(b, s)
  {
    match s
    case Note(thread, role, isText) =>
      Change(b, thread, Append(b.tasks[thread], b.tasks[thread].leaf, role, isText))
    case Begin(thread, instance, _, edit, _) =>
      Change(b, thread, BeginTask(PlanTurn(b, s), instance)).(busy := true, rewound := b.rewound || edit.Some?)
    case Sent(thread, n) => Change(b, thread, SentTask(b.tasks[thread], n))
    case SessionStarted(thread, n) => Change(b, thread, StartedTask(b.tasks[thread], n))
    case Reply(thread, n, role, isText) => Change(b, thread, ReplyTask(b.tasks[thread], n, role, isText))
    case Dispatched(thread, n) =>
      Change(b, thread, MarkedTask(b.tasks[thread], n))
      .(rewound := b.rewound && !b.tasks[thread].turns[n].rewound)
    case DispatchFailed(thread, n) => Change(b, thread, FailedTask(b.tasks[thread], n)).(busy := false)
    case Settled(thread, n) => Change(b, thread, OverTask(b.tasks[thread], n)).(busy := false)
    case Activity(busy) => b.(busy := busy)
    case CheckBranch => b.(checked := b.checked + 1)
    case SwitchBranch(message) =>
      Change(b, b.active, SwitchedTask(b.tasks[b.active], message)).(rewound := true, checked := b.checked - 1)
    case SwitchTask(thread) => b.(active := thread)
    case NewTask(thread, activate) =>
      Change(b, thread, EMPTY_TASK).(active := if activate then thread else b.active)
  }

  // ---- coherence -----------------------------------------------------------

  /** `s` knows nothing off the active branch, and from its starting line on it
    * knows every delivered line of it; a session that does not start at the
    * beginning was opened with a full window of history. */
  ghost predicate Coherent(t: Task, s: Session)
    requires TreeOf(t)
  {
    var texts := TextsOf(t);
    && s.given <= PathOf(t)
    && (forall j :: s.from <= j < |texts| && texts[j] in t.delivered ==> texts[j] in s.given)
    && (s.from > 0 ==>
          && s.from + TRANSCRIPT_CAP <= |texts|
          && forall j :: s.from <= j < s.from + TRANSCRIPT_CAP ==> texts[j] in s.given)
  }

  /** The session the turn talks to, or would be sent to now, follows the branch. */
  ghost predicate TurnFollows(t: Task, turn: Turn)
    requires Shape(t) && turn.session < |t.sessions|
  {
    Coherent(t, t.sessions[Goes(t, turn)])
  }

  /** The record shows no line it missed and none it should not know. */
  predicate Trusted(t: Task, session: nat) {
    session !in t.missed && session !in t.strayed
  }

  // ---- lemmas about appending ----------------------------------------------

  lemma {:induction false} AppendLinesTree(t: Task, lines: nat)
    requires TreeOf(t)
    ensures
      var u := AppendLines(t, lines);
      && TreeOf(u) && |u.messages| == |t.messages| + lines && t.messages <= u.messages
      && u == t.(messages := u.messages, leaf := u.leaf)
  {
    if lines > 0 {
      AppendLinesTree(t, lines - 1);
    }
  }

  lemma InFresh(from: nat, lines: nat, i: nat)
    ensures i in Fresh(from, lines) <==> from <= i < from + lines
  {
    if from <= i < from + lines {
      assert Fresh(from, lines)[i - from] == i;
    }
  }

  lemma NewIdsStep(t: Task, lines: nat)
    ensures NewIds(t, lines + 1) == NewIds(t, lines) + {|t.messages| + lines}
  {
    forall i: nat
      ensures i in NewIds(t, lines + 1) <==> i in NewIds(t, lines) || i == |t.messages| + lines
    {
      InFresh(|t.messages|, lines + 1, i);
      InFresh(|t.messages|, lines, i);
    }
  }

  /** One more line on top of the others. */
  lemma AppendLine(t: Task, lines: nat)
    requires TreeOf(t) && lines > 0
    ensures TreeOf(AppendLines(t, lines - 1)) && TreeOf(AppendLines(t, lines))
    ensures
      var u, v, id := AppendLines(t, lines - 1), AppendLines(t, lines), |t.messages| + lines - 1;
      PathOf(v) == PathOf(u) + {id} && TextsOf(v) == TextsOf(u) + [id]
  {
    AppendLinesTree(t, lines - 1);
    var u := AppendLines(t, lines - 1);
    AppendTexts(u, u.leaf, User, true);
  }

  lemma {:induction false} AppendLinesPath(t: Task, lines: nat)
    requires TreeOf(t)
    ensures TreeOf(AppendLines(t, lines))
    ensures PathOf(AppendLines(t, lines)) == PathOf(t) + NewIds(t, lines)
  {
    if lines > 0 {
      AppendLinesPath(t, lines - 1);
      AppendLine(t, lines);
      NewIdsStep(t, lines - 1);
    }
  }

  lemma {:induction false} AppendLinesText(t: Task, lines: nat)
    requires TreeOf(t)
    ensures TreeOf(AppendLines(t, lines))
    ensures TextsOf(AppendLines(t, lines)) == TextsOf(t) + Fresh(|t.messages|, lines)
  {
    if lines > 0 {
      AppendLinesText(t, lines - 1);
      AppendLine(t, lines);
      FreshStep(TextsOf(t), |t.messages|, lines - 1);
    }
  }

  lemma AppendLinesTexts(t: Task, lines: nat)
    requires TreeOf(t)
    ensures TreeOf(AppendLines(t, lines))
    ensures TextsOf(AppendLines(t, lines)) == TextsOf(t) + Fresh(|t.messages|, lines)
    ensures PathOf(AppendLines(t, lines)) == PathOf(t) + NewIds(t, lines)
  {
    AppendLinesText(t, lines);
    AppendLinesPath(t, lines);
  }

  lemma FreshStep(s: seq<nat>, from: nat, lines: nat)
    ensures s + Fresh(from, lines) + [from + lines] == s + Fresh(from, lines + 1)
  {
  }

  lemma AppendTexts(t: Task, parent: Option<nat>, role: Role, isText: bool)
    requires TreeOf(t) && Node(t.messages, parent)
    ensures
      var u := Append(t, parent, role, isText);
      && TreeOf(u)
      && Texts(u.messages, u.leaf) == Texts(t.messages, parent) + (if isText then [|t.messages|] else [])
      && OnPath(u.messages, u.leaf) == OnPath(t.messages, parent) + {|t.messages|}
  {
    TextsStable(t.messages, [Message(parent, role, isText)], parent);
  }

  lemma {:induction false} WithoutTail(s: seq<nat>, tail: seq<nat>, skip: set<nat>)
    requires forall i :: 0 <= i < |s| ==> s[i] !in skip
    requires forall i :: 0 <= i < |tail| ==> tail[i] in skip
    ensures Without(s + tail, skip) == s
    decreases |s| + |tail|
  {
    if tail == [] {
      assert s + tail == s;
      if s != [] {
        WithoutTail(s[..|s| - 1], [], skip);
        assert s[..|s| - 1] + [] == s[..|s| - 1];
      }
    } else {
      assert (s + tail)[..|s + tail| - 1] == s + tail[..|tail| - 1];
      WithoutTail(s, tail[..|tail| - 1], skip);
    }
  }

  /** The history a turn replays is the branch as it was before the turn's own lines. */
  lemma HistoryIsPrior(t: Task, lines: nat)
    requires TreeOf(t)
    ensures TreeOf(AppendLines(t, lines))
    ensures History(AppendLines(t, lines), NewIds(t, lines)) == TextsOf(t)
  {
    AppendLinesTexts(t, lines);
    forall i | 0 <= i < |TextsOf(t)| ensures TextsOf(t)[i] !in NewIds(t, lines) {
      InFresh(|t.messages|, lines, TextsOf(t)[i]);
    }
    WithoutTail(TextsOf(t), Fresh(|t.messages|, lines), NewIds(t, lines));
  }

  /** What a plan is made of: the turn's lines on top of the branch, and the branch before them. */
  lemma PlanIs(b: Bot, s: Step)
    requires BotShape(b) && Enabled(b, s) && s.Begin?
    ensures
      var p := PlanTurn(b, s);
      var at := Rebase(b.tasks[s.thread], s.edit);
      && Shape(at) && at.messages == b.tasks[s.thread].messages
      && p.task == AppendLines(at, s.lines)
      && p.own == NewIds(at, s.lines)
      && p.history == TextsOf(at)
      && (p.context.replay == [] || p.context.replay == LastN(TextsOf(at), TRANSCRIPT_CAP))
  {
    HistoryIsPrior(Rebase(b.tasks[s.thread], s.edit), s.lines);
  }
}
