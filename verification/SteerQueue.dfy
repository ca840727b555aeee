/**
  * Messages sent to a busy bot wait off the transcript; a drain appends them and starts one
  * follow-up turn per thread whose bot is idle.
  */
module SteerQueue {
  import opened Collections

  type BotId = nat

  /** A thread is a task of one bot. */
  datatype Thread = Thread(bot: BotId, task: nat)

  datatype Item = Item(id: nat, text: string, prompt: string)

  datatype Entry = Entry(thread: Thread, bot: BotId, items: seq<Item>)

  /** A line of a transcript; ids are drawn in the order lines are appended. */
  datatype Line = Line(id: nat, thread: Thread, item: Item)

  /** A call of `run`: `excludeIds` are the ids of `lines`, `userMessage` is the last of them. */
  datatype Call = Call(bot: BotId, thread: Thread, prompt: string, userMessage: Line, excludeIds: seq<nat>)

  datatype Sent = Sent(thread: Thread, item: Item)

  /** `queues` is the map in insertion order; `bots` says of each bot whether it is busy. `sent`,
    * `lines`, `calls` and `lost` record what was queued, appended, run and given up, in order. */
  datatype Desk = Desk(queues: seq<Entry>, bots: map<BotId, bool>,
                       sent: seq<Sent>, lines: seq<Line>, calls: seq<Call>, lost: seq<Sent>)

  function Waiting(queues: seq<Entry>, t: Thread): seq<Item> {
    if queues == [] then []
    else if queues[0].thread == t then queues[0].items
    else Waiting(queues[1..], t)
  }

  /** `get ?? new`, push, `set`: an existing key keeps its place. */
  function Push(queues: seq<Entry>, t: Thread, item: Item): seq<Entry> {
    if queues == [] then [Entry(t, t.bot, [item])]
    else if queues[0].thread == t then [queues[0].(items := queues[0].items + [item])] + queues[1..]
    else [queues[0]] + Push(queues[1..], t, item)
  }

  function Remove(queues: seq<Entry>, t: Thread): seq<Entry> {
    if queues == [] then []
    else if queues[0].thread == t then queues[1..]
    else [queues[0]] + Remove(queues[1..], t)
  }

  function PromptsOf(items: seq<Item>): (r: seq<string>)
    ensures |r| == |items|
  {
    seq(|items|, k requires 0 <= k < |items| => items[k].prompt)
  }

  /** The items as transcript lines numbered from `from`. */
  function LinesFrom(t: Thread, items: seq<Item>, from: nat): (r: seq<Line>)
    ensures |r| == |items| && forall k :: 0 <= k < |r| ==> r[k] == Line(from + k, t, items[k])
  {
    seq(|items|, k requires 0 <= k < |items| => Line(from + k, t, items[k]))
  }

  function IdsOf(lines: seq<Line>): (r: seq<nat>)
    ensures |r| == |lines| && forall k :: 0 <= k < |r| ==> r[k] == lines[k].id
  {
    seq(|lines|, k requires 0 <= k < |lines| => lines[k].id)
  }

  function SentOf(t: Thread, items: seq<Item>): (r: seq<Sent>)
    ensures |r| == |items| && forall k :: 0 <= k < |r| ==> r[k] == Sent(t, items[k])
  {
    seq(|items|, k requires 0 <= k < |items| => Sent(t, items[k]))
  }

  function NewCall(e: Entry, from: nat): Call
    requires e.items != []
  {
    var appended := LinesFrom(e.thread, e.items, from);
    Call(e.bot, e.thread, Join(PromptsOf(e.items)), appended[|appended| - 1], IdsOf(appended))
  }

  /** One entry of the drain loop. `marks` says whether starting the turn makes the bot busy at once. */
  function DrainOne(d: Desk, e: Entry, marks: bool): Desk {
    if e.bot !in d.bots then d.(queues := Remove(d.queues, e.thread), lost := d.lost + SentOf(e.thread, e.items))
    else if d.bots[e.bot] then d
    else
      var out := d.(queues := Remove(d.queues, e.thread),
                    lines := d.lines + LinesFrom(e.thread, e.items, |d.lines|));
      if e.items == [] then out
      else
        out.(calls := d.calls + [NewCall(e, |d.lines|)],
             bots := if marks then d.bots[e.bot := true] else d.bots)
  }

  function DrainAll(d: Desk, entries: seq<Entry>, marks: bool): Desk
    decreases |entries|
  {
    if entries == [] then d else DrainAll(DrainOne(d, entries[0], marks), entries[1..], marks)
  }

  datatype Step =
    | Send(t: Thread, item: Item)
    | Settle(bot: BotId)
    | Start(bot: BotId)
    | Delete(bot: BotId)
    | Create(bot: BotId)
    | Drain(marks: bool)

  predicate Enabled(d: Desk, s: Step) {
    match s
    case Send(t, _) => t.bot in d.bots
    case Settle(bot) => bot in d.bots
    case Start(bot) => bot in d.bots
    case Create(bot) => forall x :: x in d.sent ==> x.thread.bot != bot
    case _ => true
  }

  function Apply(d: Desk, s: Step): Desk {
    match s
    case Send(t, item) => d.(queues := Push(d.queues, t, item), sent := d.sent + [Sent(t, item)])
    case Settle(bot) => d.(bots := d.bots[bot := false])
    case Start(bot) => d.(bots := d.bots[bot := true])
    case Delete(bot) => d.(bots := d.bots - {bot})
    case Create(bot) => d.(bots := d.bots[bot := false])
    case Drain(marks) => DrainAll(d, d.queues, marks)
  }

  ghost predicate Run(d: Desk, steps: seq<Step>, e: Desk)
    decreases |steps|
  {
    if steps == [] then d == e
    else Enabled(d, steps[0]) && Run(Apply(d, steps[0]), steps[1..], e)
  }

  // ---- Per thread ----

  function ItemsSent(xs: seq<Sent>, t: Thread): seq<Item> {
    if xs == [] then []
    else ItemsSent(xs[..|xs| - 1], t) + if xs[|xs| - 1].thread == t then [xs[|xs| - 1].item] else []
  }

  function ItemsAppended(xs: seq<Line>, t: Thread): seq<Item> {
    if xs == [] then []
    else ItemsAppended(xs[..|xs| - 1], t) + if xs[|xs| - 1].thread == t then [xs[|xs| - 1].item] else []
  }

  /** The ids excluded by all runs of a thread, in order. */
  function IdsRun(calls: seq<Call>, t: Thread): seq<nat> {
    if calls == [] then []
    else IdsRun(calls[..|calls| - 1], t) + if calls[|calls| - 1].thread == t then calls[|calls| - 1].excludeIds else []
  }

  function IdsAppended(xs: seq<Line>, t: Thread): seq<nat> {
    if xs == [] then []
    else IdsAppended(xs[..|xs| - 1], t) + if xs[|xs| - 1].thread == t then [xs[|xs| - 1].id] else []
  }

  lemma {:induction false} ItemsSentAppend(xs: seq<Sent>, u: Thread, items: seq<Item>, t: Thread)
    ensures ItemsSent(xs + SentOf(u, items), t) == ItemsSent(xs, t) + if u == t then items else []
    decreases |items|
  {
    if items == [] {
      assert xs + SentOf(u, items) == xs;
    } else {
      var init, last := items[..|items| - 1], items[|items| - 1];
      ItemsSentAppend(xs, u, init, t);
      assert xs + SentOf(u, items) == (xs + SentOf(u, init)) + [Sent(u, last)];
      if u == t {
        Regroup(ItemsSent(xs, t), init, [last]);
        assert init + [last] == items;
      }
    }
  }

  lemma LinesFromPush(u: Thread, init: seq<Item>, item: Item, from: nat)
    ensures LinesFrom(u, init + [item], from) == LinesFrom(u, init, from) + [Line(from + |init|, u, item)]
    ensures IdsOf(LinesFrom(u, init + [item], from)) == IdsOf(LinesFrom(u, init, from)) + [from + |init|]
  {
  }

  lemma {:induction false} AppendedAppend(xs: seq<Line>, u: Thread, items: seq<Item>, from: nat, t: Thread)
    ensures ItemsAppended(xs + LinesFrom(u, items, from), t) == ItemsAppended(xs, t) + (if u == t then items else [])
    ensures IdsAppended(xs + LinesFrom(u, items, from), t)
            == IdsAppended(xs, t) + (if u == t then IdsOf(LinesFrom(u, items, from)) else [])
    decreases |items|
  {
    if items == [] {
      assert xs + LinesFrom(u, items, from) == xs;
    } else {
      var init, item := items[..|items| - 1], items[|items| - 1];
      var most, last := LinesFrom(u, init, from), Line(from + |init|, u, item);
      assert items == init + [item];
      LinesFromPush(u, init, item, from);
      AppendedAppend(xs, u, init, from, t);
      Regroup(xs, most, [last]);
      if u == t {
        Regroup(ItemsAppended(xs, t), init, [item]);
        Regroup(IdsAppended(xs, t), IdsOf(most), [last.id]);
      }
    }
  }

  // ---- The map of queues ----

  ghost predicate QueuesValid(queues: seq<Entry>) {
    && (forall e :: e in queues ==> e.bot == e.thread.bot && e.items != [])
    && forall i, j :: 0 <= i < j < |queues| ==> queues[i].thread != queues[j].thread
  }

  lemma {:induction false} PushValid(queues: seq<Entry>, t: Thread, item: Item)
    requires QueuesValid(queues)
    ensures QueuesValid(Push(queues, t, item))
    ensures forall e :: e in Push(queues, t, item) ==> e.thread == t || e in queues
  {
    if queues != [] {
      PushValid(queues[1..], t, item);
    }
  }

  lemma {:induction false} PushWaiting(queues: seq<Entry>, t: Thread, item: Item, u: Thread)
    ensures Waiting(Push(queues, t, item), u) == Waiting(queues, u) + if u == t then [item] else []
  {
    if queues != [] && queues[0].thread != t {
      PushWaiting(queues[1..], t, item, u);
      assert Push(queues, t, item)[1..] == Push(queues[1..], t, item);
    }
  }

  lemma {:induction false} RemoveValid(queues: seq<Entry>, t: Thread)
    requires QueuesValid(queues)
    ensures QueuesValid(Remove(queues, t))
    ensures forall e :: e in Remove(queues, t) <==> e in queues && e.thread != t
  {
    if queues != [] {
      RemoveValid(queues[1..], t);
      assert forall e :: e in queues[1..] ==> e.thread != queues[0].thread;
    }
  }

  lemma {:induction false} RemoveWaiting(queues: seq<Entry>, t: Thread, u: Thread)
    requires QueuesValid(queues)
    ensures Waiting(Remove(queues, t), u) == if u == t then [] else Waiting(queues, u)
  {
    if queues != [] {
      if queues[0].thread == t {
        WaitingAbsent(queues[1..], t);
      } else {
        RemoveWaiting(queues[1..], t, u);
        assert Remove(queues, t)[1..] == Remove(queues[1..], t);
      }
    }
  }

  lemma {:induction false} WaitingAbsent(queues: seq<Entry>, t: Thread)
    requires forall e :: e in queues ==> e.thread != t
    ensures Waiting(queues, t) == []
  {
    if queues != [] {
      WaitingAbsent(queues[1..], t);
    }
  }

  lemma {:induction false} WaitingEntry(queues: seq<Entry>, e: Entry)
    requires QueuesValid(queues) && e in queues
    ensures Waiting(queues, e.thread) == e.items
  {
    if queues[0] != e {
      var k :| 0 <= k < |queues| && queues[k] == e;
      assert queues[1..][k - 1] == e;
      WaitingEntry(queues[1..], e);
    }
  }

  // ---- Conservation ----

  predicate Chain(sent: seq<Item>, appended: seq<Item>, lost: seq<Item>, waiting: seq<Item>) {
    sent == appended + lost + waiting
  }

  /** What was sent to a thread is what was appended, then what was given up, then what waits. */
  predicate Conserved(d: Desk, t: Thread) {
    && Chain(ItemsSent(d.sent, t), ItemsAppended(d.lines, t), ItemsSent(d.lost, t), Waiting(d.queues, t))
    && (ItemsSent(d.lost, t) != [] ==> t.bot !in d.bots && ItemsSent(d.sent, t) != [])
  }

  /** The runs of a thread exclude exactly its appended lines, in order. */
  predicate Excluded(d: Desk, t: Thread) {
    IdsRun(d.calls, t) == IdsAppended(d.lines, t)
  }

  predicate Balanced(d: Desk, t: Thread) {
    Conserved(d, t) && Excluded(d, t)
  }

  /** A call carries the joined prompts of the lines it excludes, and its message is the last of them. */
  predicate CallValid(lines: seq<Line>, c: Call) {
    exists from, to | 0 <= from < to <= |lines| :: Spans(lines, c, from, to)
  }

  predicate Spans(lines: seq<Line>, c: Call, from: nat, to: nat)
    requires from < to <= |lines|
  {
    && c.bot == c.thread.bot && (forall k :: from <= k < to ==> lines[k].thread == c.thread)
    && c.excludeIds == IdsOf(lines[from..to]) && c.userMessage == lines[to - 1]
    && c.prompt == Join(PromptsOf(ItemsOf(lines[from..to])))
  }

  function ItemsOf(lines: seq<Line>): (r: seq<Item>)
    ensures |r| == |lines|
  {
    seq(|lines|, k requires 0 <= k < |lines| => lines[k].item)
  }

  ghost predicate Valid(d: Desk) {
    && QueuesValid(d.queues) && (forall t: Thread :: Balanced(d, t))
    && (forall i :: 0 <= i < |d.lines| ==> d.lines[i].id == i)
    && (forall c :: c in d.calls ==> CallValid(d.lines, c))
  }

  lemma CallStays(lines: seq<Line>, more: seq<Line>, c: Call)
    requires CallValid(lines, c)
    ensures CallValid(lines + more, c)
  {
    var from, to :| 0 <= from < to <= |lines| && Spans(lines, c, from, to);
    assert (lines + more)[from..to] == lines[from..to];
    assert Spans(lines + more, c, from, to);
  }

  lemma LostConserved(d: Desk, e: Entry, marks: bool, t: Thread)
    requires QueuesValid(d.queues) && Conserved(d, t) && e in d.queues && e.bot !in d.bots
    ensures Conserved(DrainOne(d, e, marks), t)
  {
    var r := DrainOne(d, e, marks);
    WaitingEntry(d.queues, e);
    RemoveWaiting(d.queues, e.thread, t);
    ItemsSentAppend(d.lost, e.thread, e.items, t);
    var sent, a, l, w := ItemsSent(d.sent, t), ItemsAppended(d.lines, t), ItemsSent(d.lost, t), Waiting(d.queues, t);
    if e.thread == t {
      assert ItemsSent(r.lost, t) == l + w && Waiting(r.queues, t) == [];
      LostChain(sent, a, l, w);
    } else {
      assert ItemsSent(r.lost, t) == l && Waiting(r.queues, t) == w;
    }
  }

  /** What waited is given up. */
  lemma LostChain(sent: seq<Item>, appended: seq<Item>, lost: seq<Item>, waiting: seq<Item>)
    requires Chain(sent, appended, lost, waiting)
    ensures Chain(sent, appended, lost + waiting, [])
    ensures waiting != [] ==> sent != []
  {
    Regroup(appended, lost, waiting);
  }

  /** What waited is appended; nothing was given up before. */
  lemma RunChain(sent: seq<Item>, appended: seq<Item>, waiting: seq<Item>)
    requires Chain(sent, appended, [], waiting)
    ensures Chain(sent, appended + waiting, [], [])
  {
  }

  /** What a run leaves: the entry is gone and its items are lines. */
  ghost predicate Moved(d: Desk, e: Entry, r: Desk) {
    && r.queues == Remove(d.queues, e.thread) && r.lines == d.lines + LinesFrom(e.thread, e.items, |d.lines|)
    && r.sent == d.sent && r.lost == d.lost && r.bots.Keys == d.bots.Keys
  }

  lemma RunConserved(d: Desk, e: Entry, r: Desk, t: Thread)
    requires QueuesValid(d.queues) && Conserved(d, t) && e in d.queues && e.thread.bot in d.bots && Moved(d, e, r)
    ensures Conserved(r, t)
  {
    WaitingEntry(d.queues, e);
    RemoveWaiting(d.queues, e.thread, t);
    AppendedAppend(d.lines, e.thread, e.items, |d.lines|, t);
    var sent, a, l, w := ItemsSent(d.sent, t), ItemsAppended(d.lines, t), ItemsSent(d.lost, t), Waiting(d.queues, t);
    if e.thread == t {
      assert l == [] && ItemsAppended(r.lines, t) == a + w && Waiting(r.queues, t) == [];
      RunChain(sent, a, w);
    } else {
      assert ItemsAppended(r.lines, t) == a && Waiting(r.queues, t) == w;
    }
  }

  lemma RunExcluded(d: Desk, e: Entry, r: Desk, t: Thread)
    requires Excluded(d, t) && e.items != []
    requires r.lines == d.lines + LinesFrom(e.thread, e.items, |d.lines|)
    requires r.calls == d.calls + [NewCall(e, |d.lines|)]
    ensures Excluded(r, t)
  {
    AppendedAppend(d.lines, e.thread, e.items, |d.lines|, t);
  }

  lemma NewCallValid(lines: seq<Line>, e: Entry)
    requires e.items != [] && e.bot == e.thread.bot
    ensures CallValid(lines + LinesFrom(e.thread, e.items, |lines|), NewCall(e, |lines|))
  {
    var appended := LinesFrom(e.thread, e.items, |lines|);
    var all := lines + appended;
    assert all[|lines|..|all|] == appended;
    assert ItemsOf(appended) == e.items;
    assert Spans(all, NewCall(e, |lines|), |lines|, |all|);
  }

  lemma RunCallsValid(d: Desk, e: Entry, r: Desk)
    requires (forall c :: c in d.calls ==> CallValid(d.lines, c)) && e.items != [] && e.bot == e.thread.bot
    requires r.lines == d.lines + LinesFrom(e.thread, e.items, |d.lines|)
    requires r.calls == d.calls + [NewCall(e, |d.lines|)]
    ensures forall c :: c in r.calls ==> CallValid(r.lines, c)
  {
    NewCallValid(d.lines, e);
    forall c | c in r.calls ensures CallValid(r.lines, c) {
      if c in d.calls {
        CallStays(d.lines, LinesFrom(e.thread, e.items, |d.lines|), c);
      } else {
        assert c == NewCall(e, |d.lines|);
      }
    }
  }

  lemma RunValidOne(d: Desk, e: Entry, r: Desk)
    requires Valid(d) && e in d.queues && e.bot in d.bots && Moved(d, e, r)
    requires r.calls == d.calls + [NewCall(e, |d.lines|)]
    ensures Valid(r)
  {
    RemoveValid(d.queues, e.thread);
    RunCallsValid(d, e, r);
    forall t: Thread ensures Balanced(r, t) {
      assert Balanced(d, t);
      RunConserved(d, e, r, t);
      RunExcluded(d, e, r, t);
    }
  }

  lemma LostValid(d: Desk, e: Entry, marks: bool)
    requires Valid(d) && e in d.queues && e.bot !in d.bots
    ensures Valid(DrainOne(d, e, marks))
  {
    RemoveValid(d.queues, e.thread);
    forall t: Thread ensures Balanced(DrainOne(d, e, marks), t) {
      assert Balanced(d, t);
      LostConserved(d, e, marks, t);
    }
  }

  lemma DrainOneValid(d: Desk, e: Entry, marks: bool)
    requires Valid(d) && e in d.queues
    ensures Valid(DrainOne(d, e, marks))
    ensures forall f :: f in d.queues && f.thread != e.thread ==> f in DrainOne(d, e, marks).queues
    ensures DrainOne(d, e, marks).bots.Keys == d.bots.Keys
  {
    RemoveValid(d.queues, e.thread);
    if e.bot !in d.bots {
      LostValid(d, e, marks);
    } else if !d.bots[e.bot] {
      RunValidOne(d, e, DrainOne(d, e, marks));
    }
  }

  lemma {:induction false} DrainAllValid(d: Desk, entries: seq<Entry>, marks: bool)
    requires Valid(d) && QueuesValid(entries) && forall e :: e in entries ==> e in d.queues
    ensures Valid(DrainAll(d, entries, marks))
    decreases |entries|
  {
    if entries != [] {
      DrainOneValid(d, entries[0], marks);
      assert forall e :: e in entries[1..] ==> e.thread != entries[0].thread;
      DrainAllValid(DrainOne(d, entries[0], marks), entries[1..], marks);
    }
  }

  lemma SendValid(d: Desk, t: Thread, item: Item)
    requires Valid(d) && t.bot in d.bots
    ensures Valid(Apply(d, Send(t, item)))
  {
    PushValid(d.queues, t, item);
    forall u: Thread ensures Balanced(Apply(d, Send(t, item)), u) {
      assert Balanced(d, u);
      PushWaiting(d.queues, t, item, u);
    }
  }

  lemma {:induction false} SentMember(xs: seq<Sent>, t: Thread)
    requires ItemsSent(xs, t) != []
    ensures exists x :: x in xs && x.thread == t
  {
    if xs[|xs| - 1].thread != t {
      SentMember(xs[..|xs| - 1], t);
    } else {
      assert xs[|xs| - 1] in xs;
    }
  }

  lemma BotsValid(d: Desk, s: Step)
    requires Valid(d) && Enabled(d, s) && (s.Settle? || s.Start? || s.Delete? || s.Create?)
    ensures Valid(Apply(d, s))
  {
    forall t: Thread ensures Balanced(Apply(d, s), t) {
      assert Balanced(d, t);
      if s.Create? && ItemsSent(d.sent, t) != [] {
        SentMember(d.sent, t);
      }
    }
  }

  lemma StepValid(d: Desk, s: Step)
    requires Valid(d) && Enabled(d, s)
    ensures Valid(Apply(d, s))
  {
    match s
    case Send(t, item) => SendValid(d, t, item);
    case Drain(marks) => DrainAllValid(d, d.queues, marks);
    case Settle(_) => BotsValid(d, s);
    case Start(_) => BotsValid(d, s);
    case Delete(_) => BotsValid(d, s);
    case Create(_) => BotsValid(d, s);
  }

  lemma {:induction false} RunValid(d: Desk, steps: seq<Step>, e: Desk)
    requires Valid(d) && Run(d, steps, e)
    ensures Valid(e)
    decreases |steps|
  {
    if steps != [] {
      StepValid(d, steps[0]);
      RunValid(Apply(d, steps[0]), steps[1..], e);
    }
  }

  /** The process starts with nothing queued. */
  function Fresh(bots: map<BotId, bool>): Desk {
    Desk([], bots, [], [], [], [])
  }

  lemma FreshValid(bots: map<BotId, bool>)
    ensures Valid(Fresh(bots))
  {
    forall t: Thread ensures Balanced(Fresh(bots), t) {}
  }

  /** Over every run: while a thread's bot exists, what was appended to it and what still waits are
    * together exactly what was sent to it, each message once and in order. */
  lemma EverySendIsAppendedOnceInOrder(bots: map<BotId, bool>, steps: seq<Step>, d: Desk, t: Thread)
    requires Run(Fresh(bots), steps, d) && t.bot in d.bots
    ensures ItemsSent(d.sent, t) == ItemsAppended(d.lines, t) + Waiting(d.queues, t)
  {
    FreshValid(bots);
    RunValid(Fresh(bots), steps, d);
    assert Balanced(d, t);
  }

  /** Every appended line belongs to exactly one run: the runs of a thread exclude its lines in order,
    * with no id twice, and each run speaks for exactly the lines it excludes. */
  lemma EveryLineHasItsRun(bots: map<BotId, bool>, steps: seq<Step>, d: Desk, t: Thread)
    requires Run(Fresh(bots), steps, d)
    ensures IdsRun(d.calls, t) == IdsAppended(d.lines, t)
    ensures forall i, j :: 0 <= i < j < |d.lines| ==> d.lines[i].id != d.lines[j].id
    ensures forall c :: c in d.calls ==> CallValid(d.lines, c)
  {
    FreshValid(bots);
    RunValid(Fresh(bots), steps, d);
    assert Balanced(d, t);
  }

  // ---- One start per bot ----

  ghost predicate DistinctBots(calls: seq<Call>, from: nat) {
    forall i, j :: from <= i < j < |calls| ==> calls[i].bot != calls[j].bot
  }

  /** The calls of a drain so far went to bots that were idle before it and are busy now. */
  ghost predicate StartedIdle(before: Desk, d: Desk) {
    && before.calls <= d.calls && d.bots.Keys == before.bots.Keys
    && (forall b :: b in d.bots && !d.bots[b] ==> !before.bots[b])
    && forall k :: |before.calls| <= k < |d.calls| ==>
         d.calls[k].bot in before.bots && !before.bots[d.calls[k].bot] && d.bots[d.calls[k].bot]
  }

  lemma {:induction false} DrainAllStarts(before: Desk, d: Desk, entries: seq<Entry>)
    requires StartedIdle(before, d) && DistinctBots(d.calls, |before.calls|)
    ensures StartedIdle(before, DrainAll(d, entries, true))
    ensures DistinctBots(DrainAll(d, entries, true).calls, |before.calls|)
    decreases |entries|
  {
    if entries != [] {
      DrainAllStarts(before, DrainOne(d, entries[0], true), entries[1..]);
    }
  }

  /** When starting a turn marks its bot busy at once, a drain starts every bot at most once, and only
    * bots that were idle. */
  lemma NoBotStartsTwice(d: Desk)
    ensures StartedIdle(d, Apply(d, Drain(true)))
    ensures DistinctBots(Apply(d, Drain(true)).calls, |d.calls|)
  {
    DrainAllStarts(d, d, d.queues);
  }

  predicate Idle(bots: map<BotId, bool>, bot: BotId) {
    bot in bots && !bots[bot]
  }

  /** The bots an unmarked drain starts, in order: one start for each entry of an idle bot. */
  function Starts(bots: map<BotId, bool>, entries: seq<Entry>): seq<BotId> {
    if entries == [] then []
    else (if Idle(bots, entries[0].bot) then [entries[0].bot] else []) + Starts(bots, entries[1..])
  }

  function BotsOf(calls: seq<Call>): (r: seq<BotId>)
    ensures |r| == |calls| && forall k :: 0 <= k < |r| ==> r[k] == calls[k].bot
  {
    seq(|calls|, k requires 0 <= k < |calls| => calls[k].bot)
  }

  lemma {:induction false} UnmarkedStarts(d: Desk, entries: seq<Entry>)
    requires forall e :: e in entries ==> e.items != []
    ensures BotsOf(DrainAll(d, entries, false).calls) == BotsOf(d.calls) + Starts(d.bots, entries)
    decreases |entries|
  {
    if entries != [] {
      var e, next := entries[0], DrainOne(d, entries[0], false);
      UnmarkedStarts(next, entries[1..]);
      if Idle(d.bots, e.bot) {
        assert BotsOf(next.calls) == BotsOf(d.calls) + [e.bot];
        Regroup(BotsOf(d.calls), [e.bot], Starts(d.bots, entries[1..]));
      }
    }
  }

  ghost predicate TwoWait(bots: map<BotId, bool>, entries: seq<Entry>) {
    exists i, j :: 0 <= i < j < |entries| && entries[i].bot == entries[j].bot && Idle(bots, entries[i].bot)
  }

  ghost predicate Repeats(s: seq<BotId>) {
    exists i, j :: 0 <= i < j < |s| && s[i] == s[j]
  }

  lemma {:induction false} StartsHas(bots: map<BotId, bool>, entries: seq<Entry>, bot: BotId)
    ensures bot in Starts(bots, entries) <==> Idle(bots, bot) && exists k :: 0 <= k < |entries| && entries[k].bot == bot
  {
    if entries != [] {
      StartsHas(bots, entries[1..], bot);
      assert forall k :: 0 < k < |entries| ==> entries[k] == entries[1..][k - 1];
    }
  }

  lemma RepeatsCons(b: BotId, s: seq<BotId>)
    ensures Repeats([b] + s) <==> b in s || Repeats(s)
  {
    var all := [b] + s;
    if Repeats(s) {
      var i, j :| 0 <= i < j < |s| && s[i] == s[j];
      assert all[i + 1] == all[j + 1];
    }
    if b in s {
      var j :| 0 <= j < |s| && s[j] == b;
      assert all[0] == all[j + 1];
    }
    if Repeats(all) {
      var i, j :| 0 <= i < j < |all| && all[i] == all[j];
      assert i > 0 ==> s[i - 1] == s[j - 1];
      assert i == 0 ==> s[j - 1] == b;
    }
  }

  lemma TwoWaitCons(bots: map<BotId, bool>, entries: seq<Entry>)
    requires entries != []
    ensures TwoWait(bots, entries) <==>
              || TwoWait(bots, entries[1..])
              || (Idle(bots, entries[0].bot)
                  && exists k :: 0 <= k < |entries[1..]| && entries[1..][k].bot == entries[0].bot)
  {
    var e, rest := entries[0], entries[1..];
    if TwoWait(bots, rest) {
      var i, j :| 0 <= i < j < |rest| && rest[i].bot == rest[j].bot && Idle(bots, rest[i].bot);
      assert entries[i + 1].bot == entries[j + 1].bot;
    }
    if Idle(bots, e.bot) && exists k :: 0 <= k < |rest| && rest[k].bot == e.bot {
      var k :| 0 <= k < |rest| && rest[k].bot == e.bot;
      assert entries[0].bot == entries[k + 1].bot;
    }
    if TwoWait(bots, entries) {
      var i, j :| 0 <= i < j < |entries| && entries[i].bot == entries[j].bot && Idle(bots, entries[i].bot);
      assert i > 0 ==> rest[i - 1].bot == rest[j - 1].bot;
      assert rest[j - 1].bot == entries[i].bot;
    }
  }

  lemma {:induction false} StartsRepeat(bots: map<BotId, bool>, entries: seq<Entry>)
    ensures Repeats(Starts(bots, entries)) <==> TwoWait(bots, entries)
  {
    if entries != [] {
      var e, rest := entries[0], entries[1..];
      StartsRepeat(bots, rest);
      TwoWaitCons(bots, entries);
      StartsHas(bots, rest, e.bot);
      if Idle(bots, e.bot) {
        RepeatsCons(e.bot, Starts(bots, rest));
      } else {
        assert Starts(bots, entries) == Starts(bots, rest);
      }
    }
  }

  /** The calls from `from` on go to these bots. */
  ghost predicate GoTo(calls: seq<Call>, from: nat, starts: seq<BotId>) {
    |calls| == from + |starts| && forall n :: from <= n < |calls| ==> calls[n].bot == starts[n - from]
  }

  lemma UnmarkedCalls(d: Desk)
    requires QueuesValid(d.queues)
    ensures GoTo(Apply(d, Drain(false)).calls, |d.calls|, Starts(d.bots, d.queues))
  {
    var after, starts := Apply(d, Drain(false)).calls, Starts(d.bots, d.queues);
    UnmarkedStarts(d, d.queues);
    assert |BotsOf(after)| == |BotsOf(d.calls) + starts|;
    forall n | |d.calls| <= n < |after| ensures after[n].bot == starts[n - |d.calls|] {
      assert BotsOf(after)[n] == (BotsOf(d.calls) + starts)[n];
    }
  }

  lemma RepeatedBots(calls: seq<Call>, from: nat, starts: seq<BotId>)
    requires GoTo(calls, from, starts)
    ensures DistinctBots(calls, from) <==> !Repeats(starts)
  {
    if !DistinctBots(calls, from) {
      var i, j :| from <= i < j < |calls| && calls[i].bot == calls[j].bot;
      assert starts[i - from] == starts[j - from];
    }
    if Repeats(starts) {
      var i, j :| 0 <= i < j < |starts| && starts[i] == starts[j];
      assert calls[from + i].bot == calls[from + j].bot;
    }
  }

  /** Without that mark, a drain starts some bot twice exactly when two entries of one idle bot wait. */
  lemma UnmarkedStartsTwice(d: Desk)
    requires QueuesValid(d.queues)
    ensures !DistinctBots(Apply(d, Drain(false)).calls, |d.calls|) <==> TwoWait(d.bots, d.queues)
  {
    UnmarkedCalls(d);
    StartsRepeat(d.bots, d.queues);
    RepeatedBots(Apply(d, Drain(false)).calls, |d.calls|, Starts(d.bots, d.queues));
  }

  // ---- Nothing stays behind ----

  lemma {:induction false} DrainSkipsOnlyBusy(d: Desk, entries: seq<Entry>, marks: bool)
    requires Valid(d) && QueuesValid(entries) && (forall e :: e in entries ==> e in d.queues)
    requires forall e :: e in d.queues && e !in entries ==> e.bot in d.bots && d.bots[e.bot]
    ensures forall e :: e in DrainAll(d, entries, marks).queues ==>
              e.bot in DrainAll(d, entries, marks).bots && DrainAll(d, entries, marks).bots[e.bot]
    decreases |entries|
  {
    if entries != [] {
      var next := DrainOne(d, entries[0], marks);
      DrainOneValid(d, entries[0], marks);
      RemoveValid(d.queues, entries[0].thread);
      assert forall e :: e in entries[1..] ==> e.thread != entries[0].thread;
      assert forall e :: e in entries <==> e == entries[0] || e in entries[1..];
      DrainSkipsOnlyBusy(next, entries[1..], marks);
    }
  }

  /** After a drain only threads of bots that are busy now still wait. */
  lemma OnlyBusyBotsWait(d: Desk, marks: bool, e: Entry)
    requires Valid(d) && e in Apply(d, Drain(marks)).queues
    ensures e.bot in Apply(d, Drain(marks)).bots && Apply(d, Drain(marks)).bots[e.bot]
  {
    DrainSkipsOnlyBusy(d, d.queues, marks);
  }

  // ---- The module's state as the program keeps it ----

  lemma {:induction false} PushAt(queues: seq<Entry>, t: Thread, item: Item, i: nat)
    requires i <= |queues| && (forall j :: 0 <= j < i ==> queues[j].thread != t)
    requires i < |queues| ==> queues[i].thread == t
    ensures Push(queues, t, item) == if i < |queues| then queues[i := queues[i].(items := queues[i].items + [item])]
                                     else queues + [Entry(t, t.bot, [item])]
  {
    if i > 0 {
      PushAt(queues[1..], t, item, i - 1);
    }
  }

  class SteerDesk {
    var queues: seq<Entry>
    var bots: map<BotId, bool>
    ghost var sent: seq<Sent>
    var lines: seq<Line>
    var calls: seq<Call>
    ghost var lost: seq<Sent>

    ghost function State(): Desk
      reads this
    {
      Desk(queues, bots, sent, lines, calls, lost)
    }

    method QueueSteeredMessage(t: Thread, item: Item)
      modifies this`queues, this`sent
      ensures State() == Apply(old(State()), Send(t, item))
    {
      var i := 0;
      while i < |queues| && queues[i].thread != t
        invariant 0 <= i <= |queues|
        invariant forall j :: 0 <= j < i ==> queues[j].thread != t
      {
        i := i + 1;
      }
      PushAt(queues, t, item, i);
      if i < |queues| {
        queues := queues[i := queues[i].(items := queues[i].items + [item])];
      } else {
        queues := queues + [Entry(t, t.bot, [item])];
      }
      sent := sent + [Sent(t, item)];
    }

    /** The inner loop: append every held line. */
    method AppendLines(e: Entry) returns (appended: seq<Line>)
      modifies this`lines
      ensures appended == LinesFrom(e.thread, e.items, |old(lines)|)
      ensures lines == old(lines) + appended
    {
      appended := [];
      for k := 0 to |e.items|
        invariant appended == LinesFrom(e.thread, e.items[..k], |old(lines)|)
        invariant lines == old(lines) + appended
      {
        var line := Line(|lines|, e.thread, e.items[k]);
        lines := lines + [line];
        appended := appended + [line];
      }
      assert e.items[..|e.items|] == e.items;
    }

    method DrainEntry(e: Entry, marks: bool)
      modifies this`queues, this`bots, this`lines, this`calls, this`lost
      ensures State() == DrainOne(old(State()), e, marks)
    {
      if e.bot !in bots {
        queues := Remove(queues, e.thread);
        lost := lost + SentOf(e.thread, e.items);
        return;
      }
      if bots[e.bot] {
        return;
      }
      queues := Remove(queues, e.thread);
      var appended := AppendLines(e);
      if |appended| == 0 {
        return;
      }
      calls := calls + [Call(e.bot, e.thread, Join(PromptsOf(e.items)), appended[|appended| - 1], IdsOf(appended))];
      if marks {
        bots := bots[e.bot := true];
      }
    }

    method DrainSteeredMessages(marks: bool)
      modifies this`queues, this`bots, this`lines, this`calls, this`lost
      ensures State() == Apply(old(State()), Drain(marks))
    {
      var entries := queues;
      ghost var done := DrainAll(State(), entries, marks);
      for i := 0 to |entries|
        invariant DrainAll(State(), entries[i..], marks) == done
        invariant sent == old(sent)
      {
        assert entries[i..][1..] == entries[i + 1..];
        DrainEntry(entries[i], marks);
      }
    }
  }
}
