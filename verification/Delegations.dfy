/**
  * The asynchronous handoff queue: accepted delegations wait per source thread, are written to disk
  * on every change, and one drain per thread works through a snapshot item by item.
  */
module Delegations {
  import opened Wrappers

  const MAX_QUEUED_PER_THREAD: nat := 4

  type BotId = nat
  type Thread = nat

  /** Ids are drawn in the order items are accepted. */
  datatype Item = Item(id: nat, source: Thread, to: BotId, depth: nat)

  datatype QueueResult = Accepted | NoTarget | Self | TooDeep | TooMany

  type Queues = map<Thread, seq<Item>>

  /** Where the drain of a thread stands: between two items, waiting for the user's verdict on the
    * first item of `items`, or waiting for that item's dispatch to settle. */
  datatype Phase = Between | Approving | Settling

  datatype Drain = Drain(items: seq<Item>, phase: Phase)

  /** What happened in this process (`begun`, and `ran`: the calls of `runTarget`), and ever: all
    * accepted items, in the order of their ids, and the ids that were settled or dropped. */
  datatype History = History(begun: seq<Item>, ran: seq<Item>, accepted: seq<Item>,
                             settled: set<nat>, dropped: set<nat>)

  datatype Desk = Desk(pending: Queues, file: Queues, drains: map<Thread, Drain>, past: History)

  function ListOf(q: Queues, t: Thread): seq<Item> {
    if t in q then q[t] else []
  }

  /** An empty list leaves the map, as it does in the source. */
  function WithList(q: Queues, t: Thread, list: seq<Item>): Queues {
    if list == [] then q - {t} else q[t := list]
  }

  function Drop(items: seq<Item>, id: nat): (r: seq<Item>)
    ensures forall x :: x in r <==> x in items && x.id != id
    ensures |r| <= |items|
  {
    if items == [] then [] else (if items[0].id == id then [] else [items[0]]) + Drop(items[1..], id)
  }

  function Saving(d: Desk, saved: bool): Desk {
    if saved then d.(file := d.pending) else d
  }

  function IdsOf(items: seq<Item>): (r: set<nat>)
    ensures forall i :: i in r <==> exists x :: x in items && x.id == i
  {
    set x | x in items :: x.id
  }

  /** What `queueDelegation` decides, in the order it checks. */
  function Judge(d: Desk, t: Thread, from: BotId, to: BotId, depth: nat, maxDepth: nat, exists_: bool): QueueResult {
    if to == from then Self
    else if depth >= maxDepth then TooDeep
    else if !exists_ then NoTarget
    else if |ListOf(d.pending, t)| >= MAX_QUEUED_PER_THREAD then TooMany
    else Accepted
  }

  function Queued(d: Desk, t: Thread, to: BotId, depth: nat, saved: bool): Desk {
    var item := Item(|d.past.accepted|, t, to, depth);
    Saving(d.(pending := d.pending[t := ListOf(d.pending, t) + [item]],
              past := d.past.(accepted := d.past.accepted + [item])), saved)
  }

  function Dropped(d: Desk, t: Thread, saved: bool): Desk {
    var list := ListOf(d.pending, t);
    if list == [] then d
    else Saving(d.(pending := d.pending - {t}, past := d.past.(dropped := d.past.dropped + IdsOf(list))), saved)
  }

  /** `drainDelegations`: `sender` says whether the thread still belongs to a bot. */
  function Draining(d: Desk, t: Thread, sender: bool, saved: bool): Desk {
    if t in d.drains || ListOf(d.pending, t) == [] then d
    else if !sender then Dropped(d, t, saved)
    else d.(drains := d.drains[t := Drain(d.pending[t], Between)])
  }

  /** What the drain sees of an item's target when it looks at it, and whether fetching the channel and
    * mirroring the exchange there, which follow in the same segment, succeed. */
  datatype Look = Look(present: bool, busy: bool, mirrored: bool)

  function SetPhase(d: Desk, t: Thread, phase: Phase): Desk
    requires t in d.drains
  {
    d.(drains := d.drains[t := d.drains[t].(phase := phase)])
  }

  function Dispatched(d: Desk, t: Thread): Desk
    requires t in d.drains && d.drains[t].items != []
  {
    SetPhase(d, t, Settling).(past := d.past.(ran := d.past.ran + [d.drains[t].items[0]]))
  }

  predicate CanBegin(d: Desk, t: Thread) {
    t in d.drains && d.drains[t].phase.Between? && d.drains[t].items != []
  }

  /** The next item of the snapshot, up to the first `await`. */
  function Beginning(d: Desk, t: Thread, look: Look, mustAsk: bool): Desk
    requires CanBegin(d, t)
  {
    var b := d.(past := d.past.(begun := d.past.begun + [d.drains[t].items[0]]));
    if !look.present || look.busy then SetPhase(b, t, Settling)
    else if mustAsk then SetPhase(b, t, Approving)
    else if look.mirrored then Dispatched(b, t)
    else SetPhase(b, t, Settling)
  }

  predicate CanDecide(d: Desk, t: Thread) {
    t in d.drains && d.drains[t].phase.Approving? && d.drains[t].items != []
  }

  /** After the verdict both bots and the task are read again. */
  function Deciding(d: Desk, t: Thread, allow: bool, sender: bool, look: Look): Desk
    requires CanDecide(d, t)
  {
    if allow && sender && look.present && !look.busy && look.mirrored then Dispatched(d, t)
    else SetPhase(d, t, Settling)
  }

  predicate CanSettle(d: Desk, t: Thread) {
    t in d.drains && d.drains[t].phase.Settling? && d.drains[t].items != []
  }

  /** `acknowledgeDelegation` */
  function Settled(d: Desk, t: Thread, saved: bool): Desk
    requires CanSettle(d, t)
  {
    var item, rest := d.drains[t].items[0], d.drains[t].items[1..];
    var done := d.(drains := d.drains[t := Drain(rest, Between)],
                   past := d.past.(settled := d.past.settled + {item.id}));
    if t !in d.pending then done
    else Saving(done.(pending := WithList(d.pending, t, Drop(d.pending[t], item.id))), saved)
  }

  predicate CanEnd(d: Desk, t: Thread) {
    t in d.drains && d.drains[t].phase.Between? && d.drains[t].items == []
  }

  function Ending(d: Desk, t: Thread, sender: bool, saved: bool): Desk {
    Draining(d.(drains := d.drains - {t}), t, sender, saved)
  }

  /** A crash and the load that follows it. */
  function Reloaded(d: Desk): Desk {
    d.(pending := d.file, drains := map[], past := d.past.(begun := [], ran := []))
  }

  datatype Step =
    | Queue(t: Thread, from: BotId, to: BotId, depth: nat, maxDepth: nat, present: bool, saved: bool)
    | StartDrain(t: Thread, sender: bool, saved: bool)
    | Begin(t: Thread, look: Look, mustAsk: bool)
    | Decide(t: Thread, allow: bool, sender: bool, look: Look)
    | Settle(t: Thread, saved: bool)
    | EndDrain(t: Thread, sender: bool, saved: bool)
    | Discard(t: Thread, saved: bool)
    | Restart

  predicate Enabled(d: Desk, s: Step) {
    match s
    case Begin(t, _, _) => CanBegin(d, t)
    case Decide(t, _, _, _) => CanDecide(d, t)
    case Settle(t, _) => CanSettle(d, t)
    case EndDrain(t, _, _) => CanEnd(d, t)
    case _ => true
  }

  function Apply(d: Desk, s: Step): Desk
    requires Enabled(d, s)
  {
    match s
    case Queue(t, from, to, depth, maxDepth, present, saved) =>
      if Judge(d, t, from, to, depth, maxDepth, present).Accepted? then Queued(d, t, to, depth, saved) else d
    case StartDrain(t, sender, saved) => Draining(d, t, sender, saved)
    case Begin(t, look, mustAsk) => Beginning(d, t, look, mustAsk)
    case Decide(t, allow, sender, look) => Deciding(d, t, allow, sender, look)
    case Settle(t, saved) => Settled(d, t, saved)
    case EndDrain(t, sender, saved) => Ending(d, t, sender, saved)
    case Discard(t, saved) => Dropped(d, t, saved)
    case Restart => Reloaded(d)
  }

  ghost predicate Run(d: Desk, steps: seq<Step>, e: Desk)
    decreases |steps|
  {
    if steps == [] then d == e
    else Enabled(d, steps[0]) && Run(Apply(d, steps[0]), steps[1..], e)
  }

  const EMPTY := Desk(map[], map[], map[], History([], [], [], {}, {}))

  // ---- Lists ----

  ghost predicate Ascending(items: seq<Item>) {
    forall i, j :: 0 <= i < j < |items| ==> items[i].id < items[j].id
  }

  predicate Known(accepted: seq<Item>, x: Item) {
    x.id < |accepted| && accepted[x.id] == x
  }

  ghost predicate Belongs(items: seq<Item>, t: Thread, accepted: seq<Item>) {
    Ascending(items) && forall x :: x in items ==> x.source == t && Known(accepted, x)
  }

  ghost predicate ListValid(list: seq<Item>, t: Thread, accepted: seq<Item>) {
    |list| <= MAX_QUEUED_PER_THREAD && Belongs(list, t, accepted)
  }

  lemma {:induction false} DropAscending(items: seq<Item>, id: nat)
    requires Ascending(items)
    ensures Ascending(Drop(items, id))
  {
    if items != [] {
      DropAscending(items[1..], id);
      assert forall x :: x in items[1..] ==> items[0].id < x.id;
    }
  }

  // ---- One thread ----

  /** The items of a drain not begun yet. */
  function Waiting(dr: Drain): seq<Item> {
    if dr.phase.Between? || dr.items == [] then dr.items else dr.items[1..]
  }

  predicate IsCurrent(dr: Option<Drain>, x: Item) {
    dr.Some? && !dr.value.phase.Between? && dr.value.items != [] && x.id == dr.value.items[0].id
  }

  ghost predicate After(mine: seq<Item>, x: Item) {
    forall b :: b in mine ==> b.id < x.id
  }

  /** A pending item is part of the snapshot or younger than all of it. */
  ghost predicate NotOvertaken(items: seq<Item>, list: seq<Item>) {
    forall x, w :: x in list && w in items ==> x in items || w.id < x.id
  }

  ghost predicate DrainValid(dr: Drain, list: seq<Item>, mine: seq<Item>, t: Thread, accepted: seq<Item>) {
    && Belongs(dr.items, t, accepted)
    && (!dr.phase.Between? ==> dr.items != [] && forall b :: b in mine ==> b.id <= dr.items[0].id)
    && NotOvertaken(dr.items, list)
    && forall x :: x in Waiting(dr) ==> After(mine, x)
  }

  ghost predicate Unbegun(list: seq<Item>, dr: Option<Drain>, mine: seq<Item>) {
    forall x :: x in list ==> After(mine, x) || IsCurrent(dr, x)
  }

  /** One thread: its queue, its drain if there is one, and its items begun in this process. */
  ghost predicate ThreadValid(list: seq<Item>, dr: Option<Drain>, mine: seq<Item>, t: Thread, accepted: seq<Item>) {
    && ListValid(list, t, accepted) && Belongs(mine, t, accepted)
    && (dr.Some? ==> DrainValid(dr.value, list, mine, t, accepted))
    && Unbegun(list, dr, mine)
  }

  lemma QueueThread(list: seq<Item>, dr: Option<Drain>, mine: seq<Item>, t: Thread, accepted: seq<Item>, x: Item)
    requires ThreadValid(list, dr, mine, t, accepted) && |list| < MAX_QUEUED_PER_THREAD
    requires x.id == |accepted| && x.source == t
    ensures ThreadValid(list + [x], dr, mine, t, accepted + [x])
  {
  }

  lemma BeginThread(list: seq<Item>, dr: Drain, phase: Phase, mine: seq<Item>, t: Thread, accepted: seq<Item>)
    requires ThreadValid(list, Some(dr), mine, t, accepted)
    requires dr.phase.Between? && dr.items != [] && !phase.Between?
    ensures ThreadValid(list, Some(dr.(phase := phase)), mine + [dr.items[0]], t, accepted)
  {
    var head := dr.items[0];
    assert After(mine, head) by {
      assert head in Waiting(dr);
    }
    forall x | x in dr.items[1..] ensures After(mine + [head], x) {
      assert x in Waiting(dr);
    }
    forall x | x in list ensures After(mine + [head], x) || x.id == head.id {
      assert After(mine, x);
      assert x in dr.items || head.id < x.id;
    }
  }

  lemma SettleList(list: seq<Item>, dr: Drain, mine: seq<Item>, t: Thread, accepted: seq<Item>)
    requires ThreadValid(list, Some(dr), mine, t, accepted) && !dr.phase.Between?
    ensures ListValid(Drop(list, dr.items[0].id), t, accepted)
    ensures Unbegun(Drop(list, dr.items[0].id), Some(Drain(dr.items[1..], Between)), mine)
  {
    DropAscending(list, dr.items[0].id);
  }

  lemma SettleThread(list: seq<Item>, dr: Drain, mine: seq<Item>, t: Thread, accepted: seq<Item>)
    requires ThreadValid(list, Some(dr), mine, t, accepted) && !dr.phase.Between?
    ensures ThreadValid(Drop(list, dr.items[0].id), Some(Drain(dr.items[1..], Between)), mine, t, accepted)
  {
    SettleList(list, dr, mine, t, accepted);
    var left, rest := Drop(list, dr.items[0].id), dr.items[1..];
    assert Belongs(rest, t, accepted);
    forall x, w | x in left && w in rest ensures x in rest || w.id < x.id {
      assert x in list && w in dr.items;
    }
    assert NotOvertaken(rest, left);
  }

  // ---- All threads ----

  function DrainOf(drains: map<Thread, Drain>, t: Thread): Option<Drain> {
    if t in drains then Some(drains[t]) else None
  }

  /** The items of thread `t`, in order. */
  function Of(items: seq<Item>, t: Thread): seq<Item> {
    if items == [] then []
    else
      var init, last := items[..|items| - 1], items[|items| - 1];
      Of(init, t) + if last.source == t then [last] else []
  }

  lemma OfAppend(items: seq<Item>, x: Item, t: Thread)
    ensures Of(items + [x], t) == Of(items, t) + if x.source == t then [x] else []
  {
    assert (items + [x])[..|items|] == items;
  }

  ghost predicate At(d: Desk, t: Thread) {
    && ThreadValid(ListOf(d.pending, t), DrainOf(d.drains, t), Of(d.past.begun, t), t, d.past.accepted)
    && ListValid(ListOf(d.file, t), t, d.past.accepted)
  }

  ghost predicate Numbered(accepted: seq<Item>) {
    forall i :: 0 <= i < |accepted| ==> accepted[i].id == i
  }

  ghost predicate Ordered(d: Desk) {
    Numbered(d.past.accepted) && forall t: Thread :: At(d, t)
  }

  lemma QueuedOrdered(d: Desk, t: Thread, to: BotId, depth: nat, saved: bool)
    requires Ordered(d) && |ListOf(d.pending, t)| < MAX_QUEUED_PER_THREAD
    ensures Ordered(Queued(d, t, to, depth, saved))
  {
    var item, e := Item(|d.past.accepted|, t, to, depth), Queued(d, t, to, depth, saved);
    forall u: Thread ensures At(e, u) {
      assert At(d, u);
      if u == t {
        QueueThread(ListOf(d.pending, u), DrainOf(d.drains, u), Of(d.past.begun, u), u, d.past.accepted, item);
      }
    }
  }

  lemma DroppedOrdered(d: Desk, t: Thread, saved: bool)
    requires Ordered(d)
    ensures Ordered(Dropped(d, t, saved))
  {
    forall u: Thread ensures At(Dropped(d, t, saved), u) {
      assert At(d, u);
    }
  }

  lemma DrainingOrdered(d: Desk, t: Thread, sender: bool, saved: bool)
    requires Ordered(d)
    ensures Ordered(Draining(d, t, sender, saved))
  {
    DroppedOrdered(d, t, saved);
    forall u: Thread ensures At(Draining(d, t, sender, saved), u) {
      assert At(d, u) && At(Dropped(d, t, saved), u);
    }
  }

  lemma BeginningShape(d: Desk, t: Thread, look: Look, mustAsk: bool)
    requires CanBegin(d, t)
    ensures var e := Beginning(d, t, look, mustAsk);
            && e.pending == d.pending && e.file == d.file && t in e.drains && !e.drains[t].phase.Between?
            && e.drains == d.drains[t := d.drains[t].(phase := e.drains[t].phase)]
            && e.past == d.past.(begun := d.past.begun + [d.drains[t].items[0]], ran := e.past.ran)
  {
  }

  lemma BeginningAt(d: Desk, t: Thread, phase: Phase, u: Thread)
    requires At(d, u) && At(d, t) && CanBegin(d, t) && !phase.Between?
    ensures ThreadValid(ListOf(d.pending, u), DrainOf(d.drains[t := d.drains[t].(phase := phase)], u),
                        Of(d.past.begun + [d.drains[t].items[0]], u), u, d.past.accepted)
  {
    var dr := d.drains[t];
    OfAppend(d.past.begun, dr.items[0], u);
    assert dr.items[0].source == t;
    if u == t {
      BeginThread(ListOf(d.pending, t), dr, phase, Of(d.past.begun, t), t, d.past.accepted);
    } else {
      assert Of(d.past.begun + [dr.items[0]], u) == Of(d.past.begun, u);
    }
  }

  lemma BeginningOrdered(d: Desk, t: Thread, look: Look, mustAsk: bool)
    requires Ordered(d) && CanBegin(d, t)
    ensures Ordered(Beginning(d, t, look, mustAsk))
  {
    var e := Beginning(d, t, look, mustAsk);
    BeginningShape(d, t, look, mustAsk);
    assert At(d, t);
    forall u: Thread ensures At(e, u) {
      assert At(d, u);
      BeginningAt(d, t, e.drains[t].phase, u);
    }
  }

  lemma DecidingOrdered(d: Desk, t: Thread, allow: bool, sender: bool, look: Look)
    requires Ordered(d) && CanDecide(d, t)
    ensures Ordered(Deciding(d, t, allow, sender, look))
  {
    var e := Deciding(d, t, allow, sender, look);
    forall u: Thread ensures At(e, u) {
      assert At(d, u);
    }
  }

  lemma SettledOrdered(d: Desk, t: Thread, saved: bool)
    requires Ordered(d) && CanSettle(d, t)
    ensures Ordered(Settled(d, t, saved))
  {
    var e := Settled(d, t, saved);
    var id, left := d.drains[t].items[0].id, ListOf(d.pending, t);
    forall u: Thread ensures At(e, u) {
      assert At(d, u);
      if u == t {
        SettleThread(left, d.drains[t], Of(d.past.begun, t), t, d.past.accepted);
        assert ListOf(e.pending, t) == Drop(left, id);
      } else {
        assert ListOf(e.pending, u) == ListOf(d.pending, u);
      }
    }
  }

  lemma EndingOrdered(d: Desk, t: Thread, sender: bool, saved: bool)
    requires Ordered(d) && CanEnd(d, t)
    ensures Ordered(Ending(d, t, sender, saved))
  {
    var e := d.(drains := d.drains - {t});
    forall u: Thread ensures At(e, u) {
      assert At(d, u);
    }
    DrainingOrdered(e, t, sender, saved);
  }

  lemma ReloadedOrdered(d: Desk)
    requires Ordered(d)
    ensures Ordered(Reloaded(d))
  {
    forall u: Thread ensures At(Reloaded(d), u) {
      assert At(d, u);
    }
  }

  lemma StepOrdered(d: Desk, s: Step)
    requires Ordered(d) && Enabled(d, s)
    ensures Ordered(Apply(d, s))
  {
    match s
    case Queue(t, from, to, depth, maxDepth, present, saved) =>
      if Judge(d, t, from, to, depth, maxDepth, present).Accepted? {
        QueuedOrdered(d, t, to, depth, saved);
      }
    case StartDrain(t, sender, saved) => DrainingOrdered(d, t, sender, saved);
    case Begin(t, look, mustAsk) => BeginningOrdered(d, t, look, mustAsk);
    case Decide(t, allow, sender, look) => DecidingOrdered(d, t, allow, sender, look);
    case Settle(t, saved) => SettledOrdered(d, t, saved);
    case EndDrain(t, sender, saved) => EndingOrdered(d, t, sender, saved);
    case Discard(t, saved) => DroppedOrdered(d, t, saved);
    case Restart => ReloadedOrdered(d);
  }

  // ---- Nothing accepted is lost ----

  predicate Holds(q: Queues, x: Item) {
    x in ListOf(q, x.source)
  }

  predicate AccountedFor(d: Desk, x: Item) {
    Holds(d.pending, x) <==> x.id !in d.past.settled && x.id !in d.past.dropped
  }

  /** Every accepted item is queued, or was settled or dropped, and never both. */
  ghost predicate Accounted(d: Desk) {
    && (forall x :: x in d.past.accepted ==> AccountedFor(d, x))
    && (forall id :: id in d.past.settled || id in d.past.dropped ==> id < |d.past.accepted|)
  }

  /** With every write done, the file is the queue. */
  predicate Mirrored(d: Desk) {
    d.file == d.pending
  }

  /** `saved` in a step says that its write of the file succeeded. */
  predicate Saves(s: Step) {
    match s
    case Queue(_, _, _, _, _, _, saved) => saved
    case StartDrain(_, _, saved) => saved
    case Settle(_, saved) => saved
    case EndDrain(_, _, saved) => saved
    case Discard(_, saved) => saved
    case _ => true
  }

  lemma AcceptedKnown(d: Desk, x: Item)
    requires Ordered(d)
    ensures x in d.past.accepted <==> Known(d.past.accepted, x)
    ensures Holds(d.pending, x) ==> Known(d.past.accepted, x)
  {
    assert At(d, x.source);
  }

  lemma DroppedAccounted(d: Desk, t: Thread, saved: bool)
    requires Ordered(d) && Accounted(d)
    ensures Accounted(Dropped(d, t, saved))
  {
    var e := Dropped(d, t, saved);
    assert At(d, t);
    forall x | x in e.past.accepted ensures AccountedFor(e, x) {
      AcceptedKnown(d, x);
      assert AccountedFor(d, x);
      assert t in d.pending && x.source == t && Holds(d.pending, x) ==> x.id in e.past.dropped;
    }
  }

  lemma SettledItem(d: Desk, t: Thread, saved: bool, x: Item)
    requires CanSettle(d, t) && d.drains[t].items[0].source == t && AccountedFor(d, x)
    requires x.id == d.drains[t].items[0].id ==> x == d.drains[t].items[0]
    ensures AccountedFor(Settled(d, t, saved), x)
  {
    var item, e := d.drains[t].items[0], Settled(d, t, saved);
    if x.source == t && t in d.pending {
      assert Holds(e.pending, x) <==> x in Drop(d.pending[t], item.id);
    } else {
      assert Holds(e.pending, x) <==> Holds(d.pending, x);
    }
  }

  lemma SettledAccounted(d: Desk, t: Thread, saved: bool)
    requires Ordered(d) && Accounted(d) && CanSettle(d, t)
    ensures Accounted(Settled(d, t, saved))
  {
    var item, e := d.drains[t].items[0], Settled(d, t, saved);
    assert At(d, t) && Known(d.past.accepted, item) && item.source == t;
    forall x | x in e.past.accepted ensures AccountedFor(e, x) {
      AcceptedKnown(d, x);
      SettledItem(d, t, saved, x);
    }
  }

  lemma DrainingAccounted(d: Desk, t: Thread, sender: bool, saved: bool)
    requires Ordered(d) && Accounted(d)
    ensures Accounted(Draining(d, t, sender, saved))
  {
    DroppedAccounted(d, t, saved);
  }

  lemma StepAccounted(d: Desk, s: Step)
    requires Ordered(d) && Accounted(d) && Mirrored(d) && Enabled(d, s) && Saves(s)
    ensures Accounted(Apply(d, s)) && Mirrored(Apply(d, s))
  {
    match s
    case Queue(_, _, _, _, _, _, _) =>
    case StartDrain(t, sender, saved) => DrainingAccounted(d, t, sender, saved);
    case Begin(t, look, mustAsk) =>
    case Decide(t, allow, sender, look) =>
    case Settle(t, saved) => SettledAccounted(d, t, saved);
    case EndDrain(t, sender, saved) =>
      var e := d.(drains := d.drains - {t});
      assert forall u: Thread :: At(d, u) ==> At(e, u);
      assert forall u: Thread :: At(e, u) by {
        forall u: Thread ensures At(e, u) { assert At(d, u); }
      }
      DrainingAccounted(e, t, sender, saved);
    case Discard(t, saved) => DroppedAccounted(d, t, saved);
    case Restart =>
  }

  // ---- One at a time, once each ----

  ghost predicate OneAtATime(d: Desk) {
    forall b :: b in d.past.begun ==> b.id in d.past.settled || IsCurrent(DrainOf(d.drains, b.source), b)
  }

  ghost predicate NoRepeats(items: seq<Item>) {
    forall i, j :: 0 <= i < j < |items| ==> items[i] != items[j]
  }

  /** Only begun items run, each once; one that waits for its verdict has not run. */
  ghost predicate RanOnce(d: Desk) {
    && (forall x :: x in d.past.ran ==> x in d.past.begun) && NoRepeats(d.past.ran)
    && forall t :: t in d.drains && d.drains[t].phase.Approving? && d.drains[t].items != [] ==>
         d.drains[t].items[0] !in d.past.ran
  }

  lemma NextIsUnbegun(d: Desk, t: Thread)
    requires Ordered(d) && CanBegin(d, t)
    ensures d.drains[t].items[0] !in d.past.begun
  {
    var x := d.drains[t].items[0];
    assert At(d, t) && x in Waiting(d.drains[t]) && x.source == t;
    if x in d.past.begun {
      InOf(d.past.begun, x);
    }
  }

  lemma {:induction false} InOf(items: seq<Item>, x: Item)
    requires x in items
    ensures x in Of(items, x.source)
  {
    var init := items[..|items| - 1];
    if x in init {
      InOf(init, x);
    }
  }

  lemma DispatchedRanOnce(d: Desk, t: Thread)
    requires Ordered(d) && RanOnce(d) && t in d.drains && d.drains[t].items != []
    requires d.drains[t].items[0] in d.past.begun && d.drains[t].items[0] !in d.past.ran
    ensures RanOnce(Dispatched(d, t))
  {
    var x := d.drains[t].items[0];
    assert At(d, t) && x.source == t;
    forall u | u in d.drains && d.drains[u].phase.Approving? && d.drains[u].items != [] && u != t
      ensures d.drains[u].items[0] !in d.past.ran + [x] {
      assert At(d, u) && d.drains[u].items[0].source == u;
    }
  }

  lemma BeginningRanOnce(d: Desk, t: Thread, look: Look, mustAsk: bool)
    requires Ordered(d) && RanOnce(d) && CanBegin(d, t)
    ensures RanOnce(Beginning(d, t, look, mustAsk))
  {
    var x := d.drains[t].items[0];
    NextIsUnbegun(d, t);
    assert x !in d.past.ran;
    if look.present && !look.busy && !mustAsk && look.mirrored {
      assert At(d, t) && x.source == t;
      forall u | u in d.drains && d.drains[u].phase.Approving? && d.drains[u].items != [] && u != t
        ensures d.drains[u].items[0] !in d.past.ran + [x] {
        assert At(d, u) && d.drains[u].items[0].source == u;
      }
    }
  }

  lemma DecidingRanOnce(d: Desk, t: Thread, allow: bool, sender: bool, look: Look)
    requires Ordered(d) && RanOnce(d) && OneAtATime(d) && CanDecide(d, t) && CurrentBegun(d)
    ensures RanOnce(Deciding(d, t, allow, sender, look))
  {
    if allow && sender && look.present && !look.busy && look.mirrored {
      DispatchedRanOnce(d, t);
    }
  }

  /** The item in hand was begun. */
  ghost predicate CurrentBegun(d: Desk) {
    forall t :: t in d.drains && !d.drains[t].phase.Between? && d.drains[t].items != [] ==>
      d.drains[t].items[0] in d.past.begun
  }

  ghost predicate Orderly(d: Desk) {
    Ordered(d) && OneAtATime(d) && CurrentBegun(d) && RanOnce(d)
  }

  lemma BeginningOneAtATime(d: Desk, t: Thread, look: Look, mustAsk: bool)
    requires Ordered(d) && OneAtATime(d) && CurrentBegun(d) && CanBegin(d, t)
    ensures OneAtATime(Beginning(d, t, look, mustAsk)) && CurrentBegun(Beginning(d, t, look, mustAsk))
  {
    var e, x := Beginning(d, t, look, mustAsk), d.drains[t].items[0];
    assert At(d, t) && x.source == t;
    forall b | b in e.past.begun ensures b.id in e.past.settled || IsCurrent(DrainOf(e.drains, b.source), b) {
      assert b == x || b in d.past.begun;
    }
  }

  lemma SettledOneAtATime(d: Desk, t: Thread, saved: bool)
    requires Ordered(d) && OneAtATime(d) && CurrentBegun(d) && CanSettle(d, t)
    ensures OneAtATime(Settled(d, t, saved)) && CurrentBegun(Settled(d, t, saved))
  {
    var e := Settled(d, t, saved);
    forall b | b in e.past.begun ensures b.id in e.past.settled || IsCurrent(DrainOf(e.drains, b.source), b) {
      assert b.id in d.past.settled || IsCurrent(DrainOf(d.drains, b.source), b);
    }
  }

  lemma DrainingOneAtATime(d: Desk, s: Step)
    requires Orderly(d) && Enabled(d, s) && (s.StartDrain? || s.EndDrain?)
    ensures OneAtATime(Apply(d, s))
  {
    var e := Apply(d, s);
    forall b | b in e.past.begun ensures b.id in e.past.settled || IsCurrent(DrainOf(e.drains, b.source), b) {
      assert b.id in d.past.settled || IsCurrent(DrainOf(d.drains, b.source), b);
    }
  }

  lemma DrainingOrderly(d: Desk, s: Step)
    requires Orderly(d) && Enabled(d, s) && (s.StartDrain? || s.EndDrain?)
    ensures OneAtATime(Apply(d, s)) && CurrentBegun(Apply(d, s)) && RanOnce(Apply(d, s))
  {
    DrainingOneAtATime(d, s);
  }

  lemma StepOrderly(d: Desk, s: Step)
    requires Orderly(d) && Enabled(d, s)
    ensures Orderly(Apply(d, s))
  {
    StepOrdered(d, s);
    match s
    case Queue(_, _, _, _, _, _, _) =>
    case StartDrain(_, _, _) => DrainingOrderly(d, s);
    case Begin(t, look, mustAsk) =>
      BeginningOneAtATime(d, t, look, mustAsk);
      BeginningRanOnce(d, t, look, mustAsk);
    case Decide(t, allow, sender, look) => DecidingRanOnce(d, t, allow, sender, look);
    case Settle(t, saved) => SettledOneAtATime(d, t, saved);
    case EndDrain(_, _, _) => DrainingOrderly(d, s);
    case Discard(_, _) =>
    case Restart =>
  }

  lemma {:induction false} RunOrderly(d: Desk, steps: seq<Step>, e: Desk)
    requires Orderly(d) && Run(d, steps, e)
    ensures Orderly(e)
    decreases |steps|
  {
    if steps != [] {
      StepOrderly(d, steps[0]);
      RunOrderly(Apply(d, steps[0]), steps[1..], e);
    }
  }

  lemma EmptyOrderly()
    ensures Orderly(EMPTY) && Accounted(EMPTY) && Mirrored(EMPTY)
  {
    forall t: Thread ensures At(EMPTY, t) {}
  }

  lemma {:induction false} OfKeepsOrder(items: seq<Item>, i: nat, j: nat)
    requires i < j < |items| && items[i].source == items[j].source
    requires Ascending(Of(items, items[i].source))
    ensures items[i].id < items[j].id
  {
    var t, init, last := items[i].source, items[..|items| - 1], items[|items| - 1];
    assert Of(items, t) == Of(init, t) + if last.source == t then [last] else [];
    if j == |items| - 1 {
      InOf(init, items[i]);
      var k :| 0 <= k < |Of(init, t)| && Of(init, t)[k] == items[i];
      assert Of(items, t)[k] == items[i] && Of(items, t)[|Of(init, t)|] == last;
    } else {
      assert forall a, b :: 0 <= a < b < |Of(init, t)| ==>
                              Of(items, t)[a] == Of(init, t)[a] && Of(items, t)[b] == Of(init, t)[b];
      OfKeepsOrder(init, i, j);
    }
  }

  /** In one process the delegations of a thread begin in the order they were accepted, so none twice,
    * and never before the one ahead of it was acknowledged. */
  lemma HandoffsBeginInOrderOneByOne(steps: seq<Step>, d: Desk, i: nat, j: nat)
    requires Run(EMPTY, steps, d) && i < j < |d.past.begun| && d.past.begun[i].source == d.past.begun[j].source
    ensures d.past.begun[i].id < d.past.begun[j].id
    ensures d.past.begun[i].id in d.past.settled
  {
    EmptyOrderly();
    RunOrderly(EMPTY, steps, d);
    var t, mine := d.past.begun[i].source, d.past.begun;
    assert At(d, t);
    OfKeepsOrder(mine, i, j);
    CurrentIsNewest(d, i, j);
  }

  lemma CurrentIsNewest(d: Desk, i: nat, j: nat)
    requires Orderly(d) && i < j < |d.past.begun| && d.past.begun[i].source == d.past.begun[j].source
    requires d.past.begun[i].id < d.past.begun[j].id
    ensures d.past.begun[i].id in d.past.settled
  {
    var t := d.past.begun[i].source;
    assert At(d, t);
    InOf(d.past.begun, d.past.begun[j]);
  }

  /** No handoff reaches `runTarget` twice in one process. */
  lemma HandoffsRunOnce(steps: seq<Step>, d: Desk)
    requires Run(EMPTY, steps, d)
    ensures NoRepeats(d.past.ran)
    ensures forall x :: x in d.past.ran ==> x in d.past.begun
  {
    EmptyOrderly();
    RunOrderly(EMPTY, steps, d);
  }

  lemma {:induction false} RunAccounted(d: Desk, steps: seq<Step>, e: Desk)
    requires Ordered(d) && Accounted(d) && Mirrored(d) && Run(d, steps, e)
    requires forall s :: s in steps ==> Saves(s)
    ensures Ordered(e) && Accounted(e) && Mirrored(e)
    decreases |steps|
  {
    if steps != [] {
      StepOrdered(d, steps[0]);
      StepAccounted(d, steps[0]);
      RunAccounted(Apply(d, steps[0]), steps[1..], e);
    }
  }

  /** With successful writes a crash at any point loses nothing: what the next process loads holds
    * exactly the accepted items that were neither settled nor dropped, per thread in their order. */
  lemma CrashLosesNothing(steps: seq<Step>, d: Desk, x: Item)
    requires Run(EMPTY, steps, d) && (forall s :: s in steps ==> Saves(s)) && x in d.past.accepted
    ensures Holds(Reloaded(d).pending, x) <==> x.id !in d.past.settled && x.id !in d.past.dropped
    ensures Ascending(ListOf(Reloaded(d).pending, x.source))
  {
    EmptyOrderly();
    RunAccounted(EMPTY, steps, d);
    assert AccountedFor(d, x) && At(d, x.source);
  }

  /** When a drain ends, whatever was queued meanwhile is the snapshot of a new drain, unless the
    * thread lost its bot: then it is dropped. Nothing stays parked. */
  lemma FollowUpTakesTheRest(d: Desk, t: Thread, sender: bool, saved: bool)
    requires Ordered(d) && CanEnd(d, t)
    ensures var e := Ending(d, t, sender, saved);
            if ListOf(d.pending, t) == [] then t !in e.drains && ListOf(e.pending, t) == []
            else if sender then t in e.drains && e.drains[t] == Drain(d.pending[t], Between) && e.pending == d.pending
            else ListOf(e.pending, t) == [] && forall x :: x in d.pending[t] ==> x.id in e.past.dropped
  {
  }

  /** No thread ever has more than four handoffs queued, in memory or on disk. */
  lemma QueueStaysSmall(steps: seq<Step>, d: Desk, t: Thread)
    requires Run(EMPTY, steps, d)
    ensures |ListOf(d.pending, t)| <= MAX_QUEUED_PER_THREAD && |ListOf(d.file, t)| <= MAX_QUEUED_PER_THREAD
  {
    EmptyOrderly();
    RunOrderly(EMPTY, steps, d);
    assert At(d, t);
  }

  /** A handoff reaches `runTarget` exactly when its target is there and idle, where the sender must ask the
    * user allowed it and both bots and the task are still there, and the exchange could be mirrored. */
  lemma DispatchedExactlyWhenCleared(d: Desk, s: Step)
    requires Enabled(d, s) && !s.Restart?
    ensures Apply(d, s).past.ran != d.past.ran <==>
              (s.Begin? && s.look.present && !s.look.busy && !s.mustAsk && s.look.mirrored)
              || (s.Decide? && s.allow && s.sender && s.look.present && !s.look.busy && s.look.mirrored)
    ensures Apply(d, s).past.ran != d.past.ran ==>
              Apply(d, s).past.ran == d.past.ran + [d.drains[s.t].items[0]]
  {
    assert |Apply(d, s).past.ran| == |d.past.ran| ==> Apply(d, s).past.ran == d.past.ran;
  }

  // ---- The module's state as the program keeps it ----

  lemma {:induction false} DropAppend(items: seq<Item>, x: Item, id: nat)
    ensures Drop(items + [x], id) == Drop(items, id) + if x.id == id then [] else [x]
  {
    if items != [] {
      assert (items + [x])[1..] == items[1..] + [x];
      DropAppend(items[1..], x, id);
    }
  }

  class DelegationDesk {
    var pending: Queues
    var file: Queues
    var drains: map<Thread, Drain>
    ghost var past: History

    ghost function State(): Desk
      reads this
    {
      Desk(pending, file, drains, past)
    }

    /** `_loadPending` at boot. */
    constructor (saved: Queues, ghost before: History)
      ensures State() == Reloaded(Desk(pending, saved, map[], before)) && file == saved
    {
      pending, file, drains := saved, saved, map[];
      past := before.(begun := [], ran := []);
    }

    method SavePending(saved: bool)
      modifies this`file
      ensures State() == Saving(old(State()), saved)
    {
      if saved {
        file := pending;
      }
    }

    method QueueDelegation(t: Thread, from: BotId, to: BotId, depth: nat, maxDepth: nat, present: bool,
                           id: nat, saved: bool) returns (r: QueueResult)
      requires id == |past.accepted|
      modifies this`pending, this`file, this`past
      ensures State() == Apply(old(State()), Queue(t, from, to, depth, maxDepth, present, saved))
      ensures r == Judge(old(State()), t, from, to, depth, maxDepth, present)
    {
      if to == from {
        return Self;
      }
      if depth >= maxDepth {
        return TooDeep;
      }
      if !present {
        return NoTarget;
      }
      var list := if t in pending then pending[t] else [];
      if |list| >= MAX_QUEUED_PER_THREAD {
        return TooMany;
      }
      var item := Item(id, t, to, depth);
      pending := pending[t := list + [item]];
      past := past.(accepted := past.accepted + [item]);
      SavePending(saved);
      return Accepted;
    }

    method DrainDelegations(t: Thread, sender: bool, saved: bool)
      modifies this`pending, this`file, this`drains, this`past
      ensures State() == Apply(old(State()), StartDrain(t, sender, saved))
    {
      if t in drains || t !in pending || pending[t] == [] {
        return;
      }
      if !sender {
        DiscardDelegations(t, saved);
        return;
      }
      drains := drains[t := Drain(pending[t], Between)];
    }

    method DiscardDelegations(t: Thread, saved: bool)
      modifies this`pending, this`file, this`past
      ensures State() == Apply(old(State()), Discard(t, saved))
    {
      if t !in pending || pending[t] == [] {
        return;
      }
      past := past.(dropped := past.dropped + IdsOf(pending[t]));
      pending := pending - {t};
      SavePending(saved);
    }

    /** The `filter` of `acknowledgeDelegation`. */
    static method Without(list: seq<Item>, id: nat) returns (remaining: seq<Item>)
      ensures remaining == Drop(list, id)
    {
      remaining := [];
      for i := 0 to |list|
        invariant remaining == Drop(list[..i], id)
      {
        DropAppend(list[..i], list[i], id);
        assert list[..i + 1] == list[..i] + [list[i]];
        if list[i].id != id {
          remaining := remaining + [list[i]];
        }
      }
      assert list[..|list|] == list;
    }

    method Acknowledge(t: Thread, saved: bool)
      requires CanSettle(State(), t)
      modifies this`pending, this`file, this`drains, this`past
      ensures State() == Apply(old(State()), Settle(t, saved))
    {
      var item := drains[t].items[0];
      drains := drains[t := Drain(drains[t].items[1..], Between)];
      past := past.(settled := past.settled + {item.id});
      if t !in pending {
        return;
      }
      var remaining := Without(pending[t], item.id);
      pending := if remaining == [] then pending - {t} else pending[t := remaining];
      SavePending(saved);
    }

    /** The `finally` of a drain. */
    method FinishDrain(t: Thread, sender: bool, saved: bool)
      requires CanEnd(State(), t)
      modifies this`pending, this`file, this`drains, this`past
      ensures State() == Apply(old(State()), EndDrain(t, sender, saved))
    {
      drains := drains - {t};
      DrainDelegations(t, sender, saved);
    }
  }
}
