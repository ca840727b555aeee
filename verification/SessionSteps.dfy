/** Every step of the native-session model keeps the record of what each session was given.
  *
  * A line is appended to a branch, given to a session, or counted as sent, a session is opened, and the
  * branch may change. What each of these does to `Lacks` is said once, on values, and then for the
  * sessions and the turns of a task. At the end `StepKeeps` asks nothing of a step: whatever happens,
  * the record tells exactly which sessions follow their branch.
  */
module SessionSteps {
  import opened Wrappers
  import opened NativeSession

  // ---- what the record means -----------------------------------------------

  /** A session that does not start at the beginning was opened with a full window of lines. */
  ghost predicate RootOk(ms: seq<Message>, s: Session)
    requires Tree(ms)
  {
    s.from > 0 ==>
      && s.root.Some? && s.root.value < |ms| && s.root.value in s.given
      && |Texts(ms, s.root)| == s.from + TRANSCRIPT_CAP
      && forall j :: s.from <= j < s.from + TRANSCRIPT_CAP ==> Texts(ms, s.root)[j] in s.given
  }

  ghost predicate InRange(ids: set<nat>, bound: nat) {
    forall i :: i in ids ==> i < bound
  }

  ghost predicate SessionOk(t: Task, n: nat)
    requires Shape(t) && n < |t.sessions|
  {
    var s := t.sessions[n];
    && InRange(s.given, |t.messages|) && RootOk(t.messages, s)
    && (n in t.strayed <==> !(s.given <= PathOf(t)))
    && (n !in t.strayed ==> (n in t.missed <==> Lacks(TextsOf(t), t.delivered, s)))
  }

  /** `deaf` are the sessions that what the turn said did not reach. */
  ghost predicate DeafOk(t: Task, turn: Turn, n: nat)
    requires Shape(t) && n < |t.sessions|
  {
    n != turn.session && n !in t.strayed ==> (n in turn.deaf <==> Lacks(TextsOf(t), turn.said, t.sessions[n]))
  }

  ghost predicate TurnOk(t: Task, turn: Turn)
    requires Shape(t) && turn.session < |t.sessions|
  {
    && InRange(turn.said, |t.messages|) && turn.said !! t.delivered
    && turn.said <= t.sessions[turn.session].given && turn.session !in turn.deaf
    && InRange(turn.deaf, |t.sessions|)
    && forall n: nat :: n < |t.sessions| ==> DeafOk(t, turn, n)
  }

  ghost predicate Apart(turns: seq<Turn>) {
    forall m, n :: 0 <= m < |turns| && 0 <= n < |turns| && m != n ==> turns[m].said !! turns[n].said
  }

  ghost predicate TaskOk(t: Task) {
    && Shape(t) && InRange(t.delivered, |t.messages|) && Apart(t.turns)
    && InRange(t.missed, |t.sessions|) && InRange(t.strayed, |t.sessions|)
    && (forall n: nat :: n < |t.sessions| ==> SessionOk(t, n))
    && (forall n: nat :: n < |t.turns| ==> TurnOk(t, t.turns[n]))
  }

  /** Lines that count as sent are no longer the turn's. */
  predicate Spent(turns: seq<Turn>) {
    forall n :: 0 <= n < |turns| && turns[n].Counted() ==> turns[n].said == {} && turns[n].deaf == {}
  }

  ghost predicate Inv(b: Bot) {
    b.active in b.tasks && forall k :: k in b.tasks ==> TaskOk(b.tasks[k]) && Spent(b.tasks[k].turns)
  }

  // ---- the window ----------------------------------------------------------

  /** A node on the path was reached by the path's own first text lines. */
  lemma {:induction false} TextsPrefix(ms: seq<Message>, leaf: Option<nat>, x: nat)
    requires Tree(ms) && Node(ms, leaf) && x in OnPath(ms, leaf)
    ensures x < |ms| && Texts(ms, Some(x)) <= Texts(ms, leaf)
    decreases if leaf.Some? then leaf.value + 1 else 0
  {
    if x != leaf.value {
      TextsPrefix(ms, ms[leaf.value].parent, x);
    }
  }

  /** A session on the branch starts within it, and the window it was opened with is of the branch. */
  lemma Rooted(t: Task, s: Session)
    requires Shape(t) && RootOk(t.messages, s) && s.given <= PathOf(t)
    ensures s.from <= |TextsOf(t)|
    ensures s.from > 0 ==>
              && s.from + TRANSCRIPT_CAP <= |TextsOf(t)|
              && forall j :: s.from <= j < s.from + TRANSCRIPT_CAP ==> TextsOf(t)[j] in s.given
  {
    if s.from > 0 {
      TextsPrefix(t.messages, t.leaf, s.root.value);
      assert Some(s.root.value) == s.root;
    }
  }

  /** The record tells exactly which sessions follow the branch. */
  lemma FollowsExactly(t: Task, n: nat)
    requires Shape(t) && n < |t.sessions| && SessionOk(t, n)
    ensures Coherent(t, t.sessions[n]) <==> Trusted(t, n)
  {
    if n !in t.strayed {
      Rooted(t, t.sessions[n]);
    }
  }

  lemma RootStays(ms: seq<Message>, more: seq<Message>, s: Session, ids: set<nat>)
    requires Tree(ms) && Tree(ms + more) && RootOk(ms, s)
    ensures RootOk(ms + more, s) && RootOk(ms + more, Give(s, ids))
  {
    if s.from > 0 {
      TextsStable(ms, more, s.root);
    }
  }

  // ---- branches that grow --------------------------------------------------

  /** New lines change nothing of what was lacking, whether or not the session is given them. */
  lemma LacksGrows(texts: seq<nat>, tail: seq<nat>, ids: set<nat>, s: Session, own: set<nat>)
    requires (forall x :: x in tail ==> x in own) && ids !! own
    ensures Lacks(texts + tail, ids, s) <==> Lacks(texts, ids, s)
    ensures Lacks(texts + tail, ids, Give(s, own)) <==> Lacks(texts, ids, s)
  {
    if Lacks(texts, ids, s) {
      var j :| s.from <= j < |texts| && texts[j] in ids && texts[j] !in s.given;
      assert (texts + tail)[j] == texts[j];
    }
    forall j | s.from <= j < |texts + tail| && (texts + tail)[j] in ids ensures j < |texts| {
    }
  }

  /** `u` is `t` with new lines `own` under its leaf, of which `tail` are texts; some sessions were given
    * all of them, and the record is as before. */
  ghost predicate Grown(t: Task, u: Task, tail: seq<nat>, own: set<nat>) {
    && TreeOf(t) && Shape(u) && t.messages <= u.messages
    && u.cursors == t.cursors && u.delivered == t.delivered && u.missed == t.missed && u.strayed == t.strayed
    && u.turns == t.turns && |u.sessions| == |t.sessions|
    && TextsOf(u) == TextsOf(t) + tail && PathOf(u) == PathOf(t) + own
    && (forall x :: x in own ==> |t.messages| <= x < |u.messages|) && (forall x :: x in tail ==> x in own)
    && forall n: nat :: n < |t.sessions| ==> u.sessions[n] == t.sessions[n] || u.sessions[n] == Give(t.sessions[n], own)
  }

  lemma SessionGrows(t: Task, u: Task, tail: seq<nat>, own: set<nat>, n: nat)
    requires Shape(t) && Grown(t, u, tail, own) && n < |t.sessions| && SessionOk(t, n)
    requires InRange(t.delivered, |t.messages|)
    ensures SessionOk(u, n)
  {
    var s := t.sessions[n];
    LacksGrows(TextsOf(t), tail, t.delivered, s, own);
    assert u.messages == t.messages + u.messages[|t.messages|..];
    RootStays(t.messages, u.messages[|t.messages|..], s, own);
  }

  lemma TurnGrows(t: Task, u: Task, tail: seq<nat>, own: set<nat>, turn: Turn)
    requires Shape(t) && Grown(t, u, tail, own) && turn.session < |t.sessions| && TurnOk(t, turn)
    ensures TurnOk(u, turn)
  {
    forall n: nat | n < |u.sessions| ensures DeafOk(u, turn, n) {
      assert DeafOk(t, turn, n);
      LacksGrows(TextsOf(t), tail, turn.said, t.sessions[n], own);
    }
  }

  lemma TaskGrows(t: Task, u: Task, tail: seq<nat>, own: set<nat>)
    requires TaskOk(t) && Grown(t, u, tail, own)
    ensures TaskOk(u)
  {
    forall n: nat | n < |u.sessions| ensures SessionOk(u, n) {
      SessionGrows(t, u, tail, own, n);
    }
    forall n: nat | n < |u.turns| ensures TurnOk(u, u.turns[n]) {
      TurnGrows(t, u, tail, own, u.turns[n]);
    }
  }

  lemma NoteOk(t: Task, role: Role, isText: bool)
    requires TaskOk(t)
    ensures TaskOk(Append(t, t.leaf, role, isText))
  {
    AppendTexts(t, t.leaf, role, isText);
    TaskGrows(t, Append(t, t.leaf, role, isText), if isText then [|t.messages|] else [], {|t.messages|});
  }

  lemma LinesOk(t: Task, lines: nat)
    requires TaskOk(t)
    ensures TaskOk(AppendLines(t, lines))
    ensures Grown(t, AppendLines(t, lines), Fresh(|t.messages|, lines), NewIds(t, lines))
  {
    AppendLinesTree(t, lines);
    AppendLinesTexts(t, lines);
    forall x | x in NewIds(t, lines) ensures |t.messages| <= x < |t.messages| + lines {
      InFresh(|t.messages|, lines, x);
    }
    TaskGrows(t, AppendLines(t, lines), Fresh(|t.messages|, lines), NewIds(t, lines));
  }

  // ---- a turn says a line --------------------------------------------------

  /** The session of turn `n` is given a new line; that the turn said it is not recorded yet. */
  function TellTask(t: Task, n: nat, role: Role, isText: bool): Task
    requires n < |t.turns| && t.turns[n].session < |t.sessions|
  {
    var session := t.turns[n].session;
    Append(t, t.leaf, role, isText).(sessions := t.sessions[session := Give(t.sessions[session], {|t.messages|})])
  }

  lemma TellOk(t: Task, n: nat, role: Role, isText: bool)
    requires TaskOk(t) && n < |t.turns|
    ensures TaskOk(TellTask(t, n, role, isText))
    ensures Grown(t, TellTask(t, n, role, isText), if isText then [|t.messages|] else [], {|t.messages|})
  {
    AppendTexts(t, t.leaf, role, isText);
    TaskGrows(t, TellTask(t, n, role, isText), if isText then [|t.messages|] else [], {|t.messages|});
  }

  /** Whoever was not given the new text line lacks it; a line that is no text is lacking nowhere. */
  lemma LacksNew(t: Task, u: Task, n: nat, said: set<nat>, tail: seq<nat>, x: nat)
    requires Shape(t) && Grown(t, u, tail, {x}) && n < |u.sessions| && SessionOk(u, n) && n !in u.strayed
    requires x !in u.sessions[n].given && InRange(said, |t.messages|) && (tail == [] || tail == [x])
    ensures Lacks(TextsOf(u), said + {x}, u.sessions[n]) <==> tail == [x] || Lacks(TextsOf(u), said, u.sessions[n])
  {
    var s := u.sessions[n];
    Rooted(u, s);
    if tail == [x] {
      RootedBefore(t, u, s, x);
      assert TextsOf(u)[|TextsOf(t)|] == x;
    } else {
      TextsInRange(t);
      assert forall j :: 0 <= j < |TextsOf(u)| ==> TextsOf(u)[j] == TextsOf(t)[j];
    }
  }

  lemma TextsInRange(t: Task)
    requires TreeOf(t)
    ensures forall j :: 0 <= j < |TextsOf(t)| ==> TextsOf(t)[j] < |t.messages|
    ensures forall x :: x in PathOf(t) ==> x < |t.messages|
  {
  }

  /** A session that was not given the new line starts before it. */
  lemma RootedBefore(t: Task, u: Task, s: Session, x: nat)
    requires Shape(t) && Grown(t, u, [x], {x}) && RootOk(u.messages, s) && s.given <= PathOf(u) && x !in s.given
    ensures s.from <= |TextsOf(t)|
  {
    Rooted(u, s);
  }

  lemma SaidDeaf(t: Task, n: nat, role: Role, isText: bool, m: nat)
    requires TaskOk(t) && n < |t.turns| && m < |t.sessions|
    ensures Shape(SaidTask(t, n, role, isText))
    ensures DeafOk(SaidTask(t, n, role, isText), SaidTask(t, n, role, isText).turns[n], m)
  {
    var u, turn, x := TellTask(t, n, role, isText), t.turns[n], |t.messages|;
    TellOk(t, n, role, isText);
    assert SaidTask(t, n, role, isText) == u.(turns := SaidTask(t, n, role, isText).turns);
    if m != turn.session && m !in t.strayed {
      assert SessionOk(t, m) && SessionOk(u, m);
      assert TurnOk(u, turn) && DeafOk(u, turn, m);
      LacksNew(t, u, m, turn.said, if isText then [x] else [], x);
    }
  }

  /** A change of the turns alone: what `TaskOk` asks of them. */
  lemma TurnsOk(t: Task, u: Task, n: nat)
    requires TaskOk(t) && n < |t.turns| == |u.turns| && u == t.(turns := u.turns)
    requires forall m :: 0 <= m < |t.turns| && m != n ==> u.turns[m] == t.turns[m]
    requires u.turns[n].session == t.turns[n].session && TurnOk(t, u.turns[n])
    requires forall m :: 0 <= m < |t.turns| && m != n ==> t.turns[m].said !! u.turns[n].said
    ensures TaskOk(u)
  {
    forall m: nat | m < |u.sessions| ensures SessionOk(u, m) {
      assert SessionOk(t, m);
    }
    forall m: nat | m < |u.turns| ensures TurnOk(u, u.turns[m]) {
      assert TurnOk(t, u.turns[m]);
      SameTurnOk(t, u, u.turns[m]);
    }
  }

  lemma SameSessionOk(t: Task, u: Task, n: nat)
    requires Shape(t) && Shape(u) && n < |t.sessions| && SessionOk(t, n) && u == t.(turns := u.turns)
    ensures SessionOk(u, n)
  {
  }

  lemma SameTurnOk(t: Task, u: Task, turn: Turn)
    requires Shape(t) && Shape(u) && turn.session < |t.sessions| && TurnOk(t, turn)
    requires u.messages == t.messages && u.leaf == t.leaf && u.sessions == t.sessions
    requires u.strayed == t.strayed && u.delivered == t.delivered
    ensures TurnOk(u, turn)
  {
    forall n: nat | n < |u.sessions| ensures DeafOk(u, turn, n) {
      assert DeafOk(t, turn, n);
    }
  }

  lemma SaidTurnOk(t: Task, n: nat, role: Role, isText: bool)
    requires TaskOk(t) && n < |t.turns|
    ensures Shape(SaidTask(t, n, role, isText))
    ensures TurnOk(TellTask(t, n, role, isText), SaidTask(t, n, role, isText).turns[n])
  {
    var u, v := TellTask(t, n, role, isText), SaidTask(t, n, role, isText);
    TellOk(t, n, role, isText);
    assert TurnOk(u, t.turns[n]);
    forall m: nat | m < |u.sessions| ensures DeafOk(u, v.turns[n], m) {
      SaidDeaf(t, n, role, isText, m);
      assert DeafOk(v, v.turns[n], m);
    }
  }

  lemma SaidOk(t: Task, n: nat, role: Role, isText: bool)
    requires TaskOk(t) && n < |t.turns|
    ensures TaskOk(SaidTask(t, n, role, isText))
  {
    var u, v := TellTask(t, n, role, isText), SaidTask(t, n, role, isText);
    TellOk(t, n, role, isText);
    SaidTurnOk(t, n, role, isText);
    forall m | 0 <= m < |t.turns| && m != n ensures u.turns[m].said !! v.turns[n].said {
      assert TurnOk(t, t.turns[m]);
    }
    TurnsOk(u, v, n);
  }

  // ---- lines that count as sent --------------------------------------------

  /** What is lacking of two sets of lines is lacking of one of them. */
  lemma LacksUnion(texts: seq<nat>, a: set<nat>, b: set<nat>, s: Session)
    ensures Lacks(texts, a + b, s) <==> Lacks(texts, a, s) || Lacks(texts, b, s)
  {
  }

  lemma CountedSessionOk(t: Task, n: nat, m: nat)
    requires TaskOk(t) && n < |t.turns| && m < |t.sessions|
    ensures Shape(CountedTask(t, n)) && SessionOk(CountedTask(t, n), m)
  {
    var turn := t.turns[n];
    assert SessionOk(t, m) && TurnOk(t, turn) && DeafOk(t, turn, m);
    LacksUnion(TextsOf(t), t.delivered, turn.said, t.sessions[m]);
  }

  lemma CountedTurnOk(t: Task, n: nat, m: nat)
    requires TaskOk(t) && n < |t.turns| && m < |t.turns|
    ensures Shape(CountedTask(t, n)) && TurnOk(CountedTask(t, n), CountedTask(t, n).turns[m])
  {
    var u := CountedTask(t, n);
    assert TurnOk(t, t.turns[m]);
    forall k: nat | k < |u.sessions| ensures DeafOk(u, u.turns[m], k) {
      assert DeafOk(t, t.turns[m], k);
    }
  }

  /** Counting the lines of a turn: exactly the sessions they did not reach have missed one. */
  lemma CountedOk(t: Task, n: nat)
    requires TaskOk(t) && n < |t.turns|
    ensures TaskOk(CountedTask(t, n))
  {
    var u := CountedTask(t, n);
    assert TurnOk(t, t.turns[n]);
    forall m: nat | m < |u.sessions| ensures SessionOk(u, m) {
      CountedSessionOk(t, n, m);
    }
    forall m: nat | m < |u.turns| ensures TurnOk(u, u.turns[m]) {
      CountedTurnOk(t, n, m);
    }
  }

  lemma ReplyOk(t: Task, n: nat, role: Role, isText: bool)
    requires TaskOk(t) && n < |t.turns|
    ensures TaskOk(ReplyTask(t, n, role, isText))
  {
    SaidOk(t, n, role, isText);
    if t.turns[n].Counted() {
      CountedOk(SaidTask(t, n, role, isText), n);
    }
  }

  /** Flags, cursors and the last instance mean nothing to the record. */
  lemma FlagsOk(t: Task, u: Task)
    requires TaskOk(t) && Shape(u) && u == t.(cursors := u.cursors, last := u.last, turns := u.turns)
    requires |u.turns| == |t.turns|
    requires forall n :: 0 <= n < |t.turns| ==>
               u.turns[n].session == t.turns[n].session && u.turns[n].said == t.turns[n].said
               && u.turns[n].deaf == t.turns[n].deaf
    ensures TaskOk(u)
  {
    forall m: nat | m < |u.sessions| ensures SessionOk(u, m) {
      assert SessionOk(t, m);
    }
    forall n: nat | n < |u.turns| ensures TurnOk(u, u.turns[n]) {
      FlagTurnOk(t, u, n);
    }
  }

  lemma FlagTurnOk(t: Task, u: Task, n: nat)
    requires Shape(t) && Shape(u) && u == t.(cursors := u.cursors, last := u.last, turns := u.turns)
    requires n < |u.turns| == |t.turns| && TurnOk(t, t.turns[n])
    requires u.turns[n].session == t.turns[n].session && u.turns[n].said == t.turns[n].said
             && u.turns[n].deaf == t.turns[n].deaf
    ensures TurnOk(u, u.turns[n])
  {
    forall m: nat | m < |u.sessions| ensures DeafOk(u, u.turns[n], m) {
      assert DeafOk(t, t.turns[n], m);
    }
  }

  lemma MarkedOk(t: Task, n: nat)
    requires TaskOk(t) && n < |t.turns|
    ensures TaskOk(MarkedTask(t, n))
  {
    CountedOk(t, n);
    FlagsOk(CountedTask(t, n), MarkedTask(t, n));
  }

  lemma OverOk(t: Task, n: nat)
    requires TaskOk(t) && n < |t.turns|
    ensures TaskOk(OverTask(t, n))
  {
    CountedOk(t, n);
    FlagsOk(CountedTask(t, n), OverTask(t, n));
  }

  lemma FailedOk(t: Task, n: nat)
    requires TaskOk(t) && n < |t.turns|
    ensures TaskOk(FailedTask(t, n))
  {
    FlagsOk(t, FailedTask(t, n));
  }

  lemma StartedOk(t: Task, n: nat)
    requires TaskOk(t) && n < |t.turns|
    ensures TaskOk(StartedTask(t, n))
  {
    FlagsOk(t, StartedTask(t, n));
  }

  // ---- the branch changes --------------------------------------------------

  lemma TurnedTurnOk(t: Task, leaf: Option<nat>, n: nat)
    requires TaskOk(t) && Node(t.messages, leaf) && n < |t.turns|
    ensures Shape(Turned(t, leaf)) && TurnOk(Turned(t, leaf), Turned(t, leaf).turns[n])
  {
    var u := Turned(t, leaf);
    assert TurnOk(t, t.turns[n]);
    assert !Lacks(TextsOf(u), t.turns[n].said, t.sessions[t.turns[n].session]);
  }

  lemma TurnedOk(t: Task, leaf: Option<nat>)
    requires TaskOk(t) && Node(t.messages, leaf)
    ensures TaskOk(Turned(t, leaf))
  {
    var u := Turned(t, leaf);
    forall m: nat | m < |u.sessions| ensures SessionOk(u, m) {
      assert SessionOk(t, m);
    }
    forall n: nat | n < |u.turns| ensures TurnOk(u, u.turns[n]) {
      TurnedTurnOk(t, leaf, n);
    }
  }

  // ---- a session is given the turn's lines ---------------------------------

  /** Being given lines of one set changes nothing of what is lacking of another. */
  lemma LacksApart(texts: seq<nat>, ids: set<nat>, own: set<nat>, s: Session)
    requires ids !! own
    ensures Lacks(texts, ids, Give(s, own)) <==> Lacks(texts, ids, s)
  {
  }

  lemma SentSessionOk(t: Task, n: nat, m: nat)
    requires TaskOk(t) && n < |t.turns| && m < |t.sessions|
    ensures Shape(SentTask(t, n)) && SessionOk(SentTask(t, n), m)
  {
    var turn := t.turns[n];
    assert SessionOk(t, m) && TurnOk(t, turn);
    LacksApart(TextsOf(t), t.delivered, turn.said, t.sessions[m]);
    RootStays(t.messages, [], t.sessions[m], turn.said);
    assert t.messages + [] == t.messages;
  }

  lemma SentDeafOk(t: Task, n: nat, m: nat, k: nat)
    requires TaskOk(t) && n < |t.turns| && m < |t.turns| && k < |t.sessions|
    ensures Shape(SentTask(t, n)) && DeafOk(SentTask(t, n), SentTask(t, n).turns[m], k)
  {
    var turn := t.turns[n];
    assert TurnOk(t, turn) && TurnOk(t, t.turns[m]) && DeafOk(t, t.turns[m], k);
    if m != n {
      LacksApart(TextsOf(t), t.turns[m].said, turn.said, t.sessions[k]);
    }
  }

  lemma SentTurnOk(t: Task, n: nat, m: nat)
    requires TaskOk(t) && n < |t.turns| && m < |t.turns|
    ensures Shape(SentTask(t, n)) && TurnOk(SentTask(t, n), SentTask(t, n).turns[m])
  {
    var u := SentTask(t, n);
    assert TurnOk(t, t.turns[n]) && TurnOk(t, t.turns[m]);
    forall k: nat | k < |u.sessions| ensures DeafOk(u, u.turns[m], k) {
      SentDeafOk(t, n, m, k);
    }
  }

  lemma SentOk(t: Task, n: nat)
    requires TaskOk(t) && n < |t.turns|
    ensures TaskOk(SentTask(t, n))
  {
    var u := SentTask(t, n);
    forall m: nat | m < |u.sessions| ensures SessionOk(u, m) {
      SentSessionOk(t, n, m);
    }
    forall m: nat | m < |u.turns| ensures TurnOk(u, u.turns[m]) {
      SentTurnOk(t, n, m);
    }
  }

  // ---- a turn begins -------------------------------------------------------

  /** A plan laid on the task `at`: its own lines under the branch, and a replay of it or none. */
  ghost predicate PlanOk(at: Task, p: Plan, lines: nat) {
    && TaskOk(at) && p.task == AppendLines(at, lines) && p.own == NewIds(at, lines) && p.history == TextsOf(at)
    && (p.context.replay == [] || p.context.replay == LastN(TextsOf(at), TRANSCRIPT_CAP))
  }

  lemma PlanIsOk(b: Bot, s: Step)
    requires Inv(b) && BotShape(b) && Enabled(b, s) && s.Begin?
    ensures PlanOk(Rebase(b.tasks[s.thread], s.edit), PlanTurn(b, s), s.lines)
  {
    PlanIs(b, s);
    if s.edit.Some? {
      TurnedOk(b.tasks[s.thread], b.tasks[s.thread].messages[s.edit.value].parent);
    }
  }

  /** The path to the last text line of a branch has all its text lines. */
  lemma {:induction false} LastText(ms: seq<Message>, leaf: Option<nat>)
    requires Tree(ms) && Node(ms, leaf) && Texts(ms, leaf) != []
    ensures
      var last := Texts(ms, leaf)[|Texts(ms, leaf)| - 1];
      last < |ms| && Texts(ms, Some(last)) == Texts(ms, leaf)
    decreases if leaf.Some? then leaf.value + 1 else 0
  {
    if !ms[leaf.value].isText {
      LastText(ms, ms[leaf.value].parent);
    }
  }

  lemma OpenedGiven(at: Task, p: Plan, lines: nat)
    requires PlanOk(at, p, lines)
    ensures TreeOf(p.task) && InRange(Opened(p).given, |p.task.messages|) && Opened(p).given <= PathOf(p.task)
  {
    LinesOk(at, lines);
    TextsOnPath(at.messages, at.leaf);
    TextsInRange(p.task);
  }

  lemma OpenedRoot(at: Task, p: Plan, lines: nat)
    requires PlanOk(at, p, lines)
    ensures TreeOf(p.task) && RootOk(p.task.messages, Opened(p))
  {
    LinesOk(at, lines);
    var s, texts := Opened(p), TextsOf(at);
    if s.from > 0 {
      LastText(at.messages, at.leaf);
      assert p.task.messages == at.messages + p.task.messages[|at.messages|..];
      TextsStable(at.messages, p.task.messages[|at.messages|..], s.root);
      forall j | s.from <= j < |texts| ensures texts[j] in s.given {
        assert texts[j] == p.context.replay[j - s.from];
      }
    }
  }

  lemma UnheardLacks(at: Task, p: Plan, lines: nat, ids: set<nat>)
    requires PlanOk(at, p, lines) && Unheard(p, ids)
    ensures TreeOf(p.task) && Lacks(TextsOf(p.task), ids, Opened(p))
  {
    LinesOk(at, lines);
    var texts := TextsOf(at);
    var i :| i in p.history && i in ids;
    var j :| 0 <= j < |texts| && texts[j] == i;
    assert (texts + Fresh(|at.messages|, lines))[j] == i;
    TextsInRange(at);
  }

  lemma HeardLine(at: Task, p: Plan, lines: nat, ids: set<nat>, j: nat)
    requires PlanOk(at, p, lines) && InRange(ids, |at.messages|) && !Unheard(p, ids)
    requires TreeOf(p.task) && Opened(p).from <= j < |TextsOf(p.task)| && TextsOf(p.task)[j] in ids
    ensures TextsOf(p.task)[j] in Opened(p).given
  {
    LinesOk(at, lines);
    var texts := TextsOf(at);
    assert TextsOf(p.task) == texts + Fresh(|at.messages|, lines);
    assert j < |texts| && texts[j] in p.history;
    assert texts[j] == p.context.replay[j - Opened(p).from];
  }

  /** A session opened with the last lines lacks nothing; one opened without lacks what it never heard. */
  lemma OpenedLacks(at: Task, p: Plan, lines: nat, ids: set<nat>)
    requires PlanOk(at, p, lines) && InRange(ids, |at.messages|)
    ensures TreeOf(p.task) && (Lacks(TextsOf(p.task), ids, Opened(p)) <==> Unheard(p, ids))
  {
    LinesOk(at, lines);
    if Unheard(p, ids) {
      UnheardLacks(at, p, lines, ids);
    } else if Lacks(TextsOf(p.task), ids, Opened(p)) {
      var j :| Opened(p).from <= j < |TextsOf(p.task)| && TextsOf(p.task)[j] in ids
               && TextsOf(p.task)[j] !in Opened(p).given;
      HeardLine(at, p, lines, ids, j);
    }
  }

  lemma OpenSessionOk(at: Task, p: Plan, lines: nat, n: nat)
    requires PlanOk(at, p, lines) && n < |OpenTask(p).sessions|
    ensures Shape(OpenTask(p)) && SessionOk(OpenTask(p), n)
  {
    LinesOk(at, lines);
    var u, v := p.task, OpenTask(p);
    if n < |u.sessions| {
      assert SessionOk(u, n);
    } else {
      OpenedGiven(at, p, lines);
      OpenedRoot(at, p, lines);
      OpenedLacks(at, p, lines, at.delivered);
    }
  }

  lemma OpenTurnOk(at: Task, p: Plan, lines: nat, n: nat)
    requires PlanOk(at, p, lines) && n < |p.task.turns|
    ensures Shape(OpenTask(p)) && n < |OpenTask(p).turns| && TurnOk(OpenTask(p), OpenTask(p).turns[n])
  {
    LinesOk(at, lines);
    var u, v := p.task, OpenTask(p);
    assert TurnOk(at, at.turns[n]) && TurnOk(u, u.turns[n]);
    OpenedLacks(at, p, lines, at.turns[n].said);
    forall m: nat | m < |v.sessions| ensures DeafOk(v, v.turns[n], m) {
      if m < |u.sessions| {
        assert DeafOk(u, u.turns[n], m);
      }
    }
  }

  lemma OpenOk(at: Task, p: Plan, lines: nat)
    requires PlanOk(at, p, lines)
    ensures TaskOk(OpenTask(p))
  {
    LinesOk(at, lines);
    var v := OpenTask(p);
    forall n: nat | n < |v.sessions| ensures SessionOk(v, n) {
      OpenSessionOk(at, p, lines, n);
    }
    forall n: nat | n < |v.turns| ensures TurnOk(v, v.turns[n]) {
      OpenTurnOk(at, p, lines, n);
    }
  }

  /** A session opened with the last lines of the branch, or where nothing was delivered, follows it. */
  lemma OpenedCoherent(at: Task, p: Plan, lines: nat)
    requires PlanOk(at, p, lines)
    requires p.context.replay == LastN(TextsOf(at), TRANSCRIPT_CAP)
             || forall i :: i in TextsOf(at) ==> i !in at.delivered
    ensures TreeOf(OpenTask(p)) && Coherent(OpenTask(p), Opened(p))
  {
    LinesOk(at, lines);
    OpenOk(at, p, lines);
    FollowsExactly(OpenTask(p), |p.task.sessions|);
  }

  /** The turn's own lines reached no session but its own. */
  lemma OwnDeaf(at: Task, p: Plan, lines: nat, n: nat)
    requires PlanOk(at, p, lines) && n < |at.sessions| && n !in at.strayed
    ensures TreeOf(p.task) && (Lacks(TextsOf(p.task), p.own, at.sessions[n]) <==> p.own != {})
  {
    LinesOk(at, lines);
    var texts, s := TextsOf(at), at.sessions[n];
    assert SessionOk(at, n);
    Rooted(at, s);
    if lines > 0 {
      InFresh(|at.messages|, lines, |at.messages|);
      assert (texts + Fresh(|at.messages|, lines))[|texts|] == |at.messages|;
    } else {
      assert Fresh(|at.messages|, 0) == [];
    }
  }

  /** Opening a session leaves the others and the branch alone. */
  lemma OpenKeeps(at: Task, p: Plan, lines: nat, n: nat)
    requires PlanOk(at, p, lines) && n < |at.sessions|
    ensures
      var v := OpenTask(p);
      && Shape(v) && TextsOf(v) == TextsOf(p.task) && v.strayed == at.strayed && |v.sessions| == |at.sessions| + 1
      && v.sessions[n] == at.sessions[n] && |v.turns| == |at.turns| == |p.task.turns|
  {
    AppendLinesTree(at, lines);
    OpenOk(at, p, lines);
  }

  lemma NewTurnOk(at: Task, p: Plan, instance: InstanceId, lines: nat)
    requires PlanOk(at, p, lines)
    ensures Shape(OpenTask(p)) && TurnOk(OpenTask(p), BeginTask(p, instance).turns[|p.task.turns|])
  {
    LinesOk(at, lines);
    OpenOk(at, p, lines);
    AppendLinesTree(at, lines);
    var v, turn := OpenTask(p), BeginTask(p, instance).turns[|p.task.turns|];
    forall m: nat | m < |v.sessions| ensures DeafOk(v, turn, m) {
      if m != turn.session && m !in v.strayed {
        OwnDeaf(at, p, lines, m);
        OpenKeeps(at, p, lines, m);
      }
    }
  }

  lemma AddTurnOk(t: Task, turn: Turn)
    requires TaskOk(t) && turn.session < |t.sessions| && TurnOk(t, turn)
    requires forall n :: 0 <= n < |t.turns| ==> t.turns[n].said !! turn.said
    ensures TaskOk(t.(turns := t.turns + [turn]))
  {
    var u := t.(turns := t.turns + [turn]);
    forall n: nat | n < |u.sessions| ensures SessionOk(u, n) {
      SameSessionOk(t, u, n);
    }
    forall n: nat | n < |u.turns| ensures TurnOk(u, u.turns[n]) {
      assert TurnOk(t, u.turns[n]);
      SameTurnOk(t, u, u.turns[n]);
    }
  }

  lemma BeginOk(at: Task, p: Plan, instance: InstanceId, lines: nat)
    requires PlanOk(at, p, lines)
    ensures TaskOk(BeginTask(p, instance))
  {
    LinesOk(at, lines);
    OpenOk(at, p, lines);
    NewTurnOk(at, p, instance, lines);
    var v := OpenTask(p);
    forall n | 0 <= n < |v.turns| ensures v.turns[n].said !! p.own {
      assert TurnOk(at, at.turns[n]);
    }
    AddTurnOk(v, BeginTask(p, instance).turns[|p.task.turns|]);
  }

  // ---- every step ----------------------------------------------------------

  lemma OpenSpent(p: Plan)
    requires Spent(p.task.turns)
    ensures Spent(OpenTask(p).turns)
  {
  }

  lemma BeginSpent(b: Bot, s: Step)
    requires Inv(b) && BotShape(b) && Enabled(b, s) && s.Begin?
    ensures Spent(BeginTask(PlanTurn(b, s), s.instance).turns)
  {
    PlanIs(b, s);
    AppendLinesTree(Rebase(b.tasks[s.thread], s.edit), s.lines);
    OpenSpent(PlanTurn(b, s));
  }

  /** The task a step changes, if it is not one that begins a turn. */
  lemma ChangeKeeps(b: Bot, k: ThreadId, t: Task)
    requires Inv(b) && TaskOk(t) && Spent(t.turns)
    ensures Inv(Change(b, k, t))
  {
  }

  lemma BeginKeeps(b: Bot, s: Step)
    requires Inv(b) && BotShape(b) && Enabled(b, s) && s.Begin?
    ensures Inv(Next(b, s))
  {
    var p := PlanTurn(b, s);
    PlanIsOk(b, s);
    BeginOk(Rebase(b.tasks[s.thread], s.edit), p, s.instance, s.lines);
    BeginSpent(b, s);
    ChangeKeeps(b, s.thread, BeginTask(p, s.instance));
  }

  lemma SentKeeps(b: Bot, s: Step)
    requires Inv(b) && BotShape(b) && Enabled(b, s) && s.Sent?
    ensures Inv(Next(b, s))
  {
    SentOk(b.tasks[s.thread], s.n);
    ChangeKeeps(b, s.thread, SentTask(b.tasks[s.thread], s.n));
  }

  lemma StartedKeeps(b: Bot, s: Step)
    requires Inv(b) && BotShape(b) && Enabled(b, s) && s.SessionStarted?
    ensures Inv(Next(b, s))
  {
    StartedOk(b.tasks[s.thread], s.n);
    ChangeKeeps(b, s.thread, StartedTask(b.tasks[s.thread], s.n));
  }

  lemma ReplyKeeps(b: Bot, s: Step)
    requires Inv(b) && BotShape(b) && Enabled(b, s) && s.Reply?
    ensures Inv(Next(b, s))
  {
    ReplyOk(b.tasks[s.thread], s.n, s.role, s.isText);
    ChangeKeeps(b, s.thread, ReplyTask(b.tasks[s.thread], s.n, s.role, s.isText));
  }

  lemma DispatchedKeeps(b: Bot, s: Step)
    requires Inv(b) && BotShape(b) && Enabled(b, s) && s.Dispatched?
    ensures Inv(Next(b, s))
  {
    MarkedOk(b.tasks[s.thread], s.n);
    ChangeKeeps(b, s.thread, MarkedTask(b.tasks[s.thread], s.n));
  }

  lemma FailedKeeps(b: Bot, s: Step)
    requires Inv(b) && BotShape(b) && Enabled(b, s) && s.DispatchFailed?
    ensures Inv(Next(b, s))
  {
    FailedOk(b.tasks[s.thread], s.n);
    ChangeKeeps(b, s.thread, FailedTask(b.tasks[s.thread], s.n));
  }

  lemma SettledKeeps(b: Bot, s: Step)
    requires Inv(b) && BotShape(b) && Enabled(b, s) && s.Settled?
    ensures Inv(Next(b, s))
  {
    OverOk(b.tasks[s.thread], s.n);
    ChangeKeeps(b, s.thread, OverTask(b.tasks[s.thread], s.n));
  }

  lemma SwitchKeeps(b: Bot, s: Step)
    requires Inv(b) && BotShape(b) && Enabled(b, s) && s.SwitchBranch?
    ensures Inv(Next(b, s))
  {
    var t := b.tasks[b.active];
    TurnedOk(t, Some(Descend(t.messages, s.message, |t.messages|)));
    ChangeKeeps(b, b.active, SwitchedTask(t, s.message));
  }

  lemma NoteKeeps(b: Bot, s: Step)
    requires Inv(b) && BotShape(b) && Enabled(b, s) && s.Note?
    ensures Inv(Next(b, s))
  {
    NoteOk(b.tasks[s.thread], s.role, s.isText);
    ChangeKeeps(b, s.thread, Append(b.tasks[s.thread], b.tasks[s.thread].leaf, s.role, s.isText));
  }

  /** Every step keeps the record, whatever the harness decides and however turns overlap. */
  lemma StepKeeps(b: Bot, s: Step)
    requires Inv(b) && BotShape(b) && Enabled(b, s)
    ensures Inv(Next(b, s)) && BotShape(Next(b, s))
  {
    match s
    case Note(_, _, _) => NoteKeeps(b, s);
    case Begin(_, _, _, _, _) => BeginKeeps(b, s);
    case Sent(_, _) => SentKeeps(b, s);
    case SessionStarted(_, _) => StartedKeeps(b, s);
    case Reply(_, _, _, _) => ReplyKeeps(b, s);
    case Dispatched(_, _) => DispatchedKeeps(b, s);
    case DispatchFailed(_, _) => FailedKeeps(b, s);
    case Settled(_, _) => SettledKeeps(b, s);
    case SwitchBranch(_) => SwitchKeeps(b, s);
    case NewTask(k, _) => ChangeKeeps(b, k, EMPTY_TASK);
    case _ =>
  }
}
