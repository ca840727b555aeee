/**
  * The approval gate of peer communication: a card in the asking bot's thread, a promise, and an
  * in-memory entry that joins them until the user answers, the timer fires or the ask is cancelled.
  */
module PeerApproval {
  import opened Wrappers

  type BotId = nat
  type Thread = nat
  type Request = nat

  datatype Verdict = Allow | Deny

  datatype Tool = AskBot | DelegateBot | OtherTool {
    predicate Peer() { !OtherTool? }
  }

  datatype Card = Card(request: Option<Request>, tool: Tool, answered: Option<Verdict>, dismissed: bool) {
    predicate Open() { answered.None? && !dismissed }
    predicate PeerAsk() { request.Some? && tool.Peer() }
  }

  datatype Message = Message(id: nat, card: Option<Card>)

  type Store = map<Thread, seq<Message>>

  datatype Pending = Pending(request: Request, from: BotId, to: BotId, thread: Thread, message: nat)

  datatype Answer = Answer(request: Request, verdict: Verdict)

  /** `pending` is the map, in insertion order. `owned` are the threads of bots. `asked` and `resolved`
    * are the promises of this process and their resolutions, in order; `patched` are the messages whose
    * card a client wrote over since the boot; `next` is an unused id. */
  datatype Desk = Desk(store: Store, owned: set<Thread>, pending: seq<Pending>,
                       asked: set<Request>, resolved: seq<Answer>, patched: set<nat>, next: nat)

  function ListOf(store: Store, t: Thread): seq<Message> {
    if t in store then store[t] else []
  }

  /** Index of the message with this id, or the number of messages. */
  function Find(list: seq<Message>, id: nat): (k: nat)
    ensures k <= |list| && (k < |list| ==> list[k].id == id)
    ensures forall j :: 0 <= j < k ==> list[j].id != id
  {
    if list == [] then 0 else if list[0].id == id then 0 else 1 + Find(list[1..], id)
  }

  function Settled(c: Card, verdict: Verdict, byUser: bool): Card {
    c.(answered := Some(verdict), dismissed := !byUser)
  }

  /** `settleCard` */
  function SettleCard(store: Store, p: Pending, verdict: Verdict, byUser: bool): Store {
    var list := ListOf(store, p.thread);
    var k := Find(list, p.message);
    if k == |list| || list[k].card.None? || list[k].card.value.answered.Some? then store
    else store[p.thread := list[k := list[k].(card := Some(Settled(list[k].card.value, verdict, byUser)))]]
  }

  /** `delete` of the entry with this key. */
  function Without(ps: seq<Pending>, r: Request): (q: seq<Pending>)
    ensures forall p :: p in q <==> p in ps && p.request != r
  {
    if ps == [] then [] else (if ps[0].request == r then [] else [ps[0]]) + Without(ps[1..], r)
  }

  /** Take one entry out, settle its card and resolve its promise. */
  function End(d: Desk, p: Pending, verdict: Verdict, byUser: bool): Desk {
    d.(pending := Without(d.pending, p.request),
       store := SettleCard(d.store, p, verdict, byUser),
       resolved := d.resolved + [Answer(p.request, verdict)])
  }

  datatype Scope = OfBot(bot: BotId) | OfThread(thread: Thread)

  predicate InScope(scope: Scope, p: Pending) {
    match scope
    case OfBot(bot) => p.from == bot || p.to == bot
    case OfThread(thread) => p.thread == thread
  }

  /** The cancel loop over a list of entries. */
  function Cancelled(d: Desk, ps: seq<Pending>, scope: Scope): Desk
    decreases |ps|
  {
    if ps == [] then d
    else Cancelled(if InScope(scope, ps[0]) then End(d, ps[0], Deny, false) else d, ps[1..], scope)
  }

  function Lookup(ps: seq<Pending>, r: Request): (o: Option<Pending>)
    ensures o.Some? ==> o.value in ps && o.value.request == r
    ensures o.None? ==> forall p :: p in ps ==> p.request != r
  {
    if ps == [] then None else if ps[0].request == r then Some(ps[0]) else Lookup(ps[1..], r)
  }

  /** `requestPeerApproval` when the contact is not always allowed. */
  function Asked(d: Desk, from: BotId, to: BotId, tool: Tool, t: Thread): Desk {
    var request, message := d.next, d.next + 1;
    var card := Card(Some(request), tool, None, false);
    d.(store := d.store[t := ListOf(d.store, t) + [Message(message, Some(card))]],
       pending := d.pending + [Pending(request, from, to, t, message)],
       asked := d.asked + {request}, next := d.next + 2)
  }

  function SweptMessage(m: Message, live: seq<Pending>): Message {
    if m.card.Some? && m.card.value.PeerAsk() && m.card.value.Open()
       && Lookup(live, m.card.value.request.value).None?
    then m.(card := Some(Settled(m.card.value, Deny, false)))
    else m
  }

  function SweptList(list: seq<Message>, live: seq<Pending>): (r: seq<Message>)
    ensures |r| == |list| && forall k :: 0 <= k < |r| ==> r[k] == SweptMessage(list[k], live)
  {
    seq(|list|, k requires 0 <= k < |list| => SweptMessage(list[k], live))
  }

  /** `dismissStalePeerCards` over these threads. */
  function Swept(store: Store, threads: set<Thread>, live: seq<Pending>): Store {
    map t | t in store :: if t in threads then SweptList(store[t], live) else store[t]
  }

  datatype Step =
    | Ask(from: BotId, to: BotId, tool: Tool, thread: Thread, always: bool)
    | Respond(request: Request, allow: bool)
    | Timeout(request: Request)
    | Cancel(scope: Scope)
    | Append(thread: Thread, card: Option<Card>)
    | Patch(thread: Thread, message: nat, answered: Option<Option<Verdict>>, dismissed: Option<bool>)
    | Open(thread: Thread)
    | Delete(thread: Thread)
    | Restart

  predicate Enabled(d: Desk, s: Step) {
    match s
    case Ask(_, _, tool, _, _) => tool.Peer()
    case Append(_, card) => card.Some? ==> !card.value.PeerAsk()
    case Open(thread) => thread !in d.store
    case _ => true
  }

  function EndIfPending(d: Desk, r: Request, verdict: Verdict, byUser: bool): Desk {
    var found := Lookup(d.pending, r);
    if found.None? then d else End(d, found.value, verdict, byUser)
  }

  /** The card route writes what the client sends over any card, whoever waits for it. */
  function Patched(d: Desk, t: Thread, id: nat, answered: Option<Option<Verdict>>, dismissed: Option<bool>): Desk {
    var list := ListOf(d.store, t);
    var k := Find(list, id);
    if k == |list| || list[k].card.None? then d
    else
      var card := list[k].card.value;
      var next := card.(answered := answered.GetOr(card.answered), dismissed := dismissed.GetOr(card.dismissed));
      d.(store := d.store[t := list[k := list[k].(card := Some(next))]], patched := d.patched + {id})
  }

  function Apply(d: Desk, s: Step): Desk {
    match s
    case Ask(from, to, tool, thread, always) => if always then d else Asked(d, from, to, tool, thread)
    case Respond(request, allow) => EndIfPending(d, request, if allow then Allow else Deny, true)
    case Timeout(request) => EndIfPending(d, request, Deny, false)
    case Cancel(scope) => Cancelled(d, d.pending, scope)
    case Append(thread, card) =>
      d.(store := d.store[thread := ListOf(d.store, thread) + [Message(d.next, card)]], next := d.next + 1)
    case Patch(thread, message, answered, dismissed) => Patched(d, thread, message, answered, dismissed)
    case Open(thread) => d.(owned := d.owned + {thread})
    case Delete(thread) => d.(owned := d.owned - {thread}, store := d.store - {thread})
    case Restart => d.(pending := [], asked := {}, resolved := [], patched := {}, store := Swept(d.store, d.owned, []))
  }

  ghost predicate Run(d: Desk, steps: seq<Step>, e: Desk)
    decreases |steps|
  {
    if steps == [] then d == e
    else Enabled(d, steps[0]) && Run(Apply(d, steps[0]), steps[1..], e)
  }

  // ---- Promises ----

  ghost predicate DistinctEntries(ps: seq<Pending>) {
    forall i, j :: 0 <= i < j < |ps| ==> ps[i].request != ps[j].request
  }

  ghost predicate DistinctAnswers(rs: seq<Answer>) {
    forall i, j :: 0 <= i < j < |rs| ==> rs[i].request != rs[j].request
  }

  predicate IsPending(d: Desk, r: Request) {
    Lookup(d.pending, r).Some?
  }

  ghost predicate IsResolved(d: Desk, r: Request) {
    exists a :: a in d.resolved && a.request == r
  }

  /** Every promise of this process is either pending or resolved, and resolved at most once. */
  ghost predicate Promised(d: Desk) {
    && DistinctEntries(d.pending) && DistinctAnswers(d.resolved)
    && (forall p :: p in d.pending ==> p.request in d.asked && !IsResolved(d, p.request))
    && (forall a :: a in d.resolved ==> a.request in d.asked)
    && (forall r :: r in d.asked ==> r < d.next && (IsPending(d, r) || IsResolved(d, r)))
  }

  // ---- Cards ----

  ghost predicate DistinctIds(list: seq<Message>) {
    forall i, j :: 0 <= i < j < |list| ==> list[i].id != list[j].id
  }

  ghost predicate Filed(d: Desk) {
    forall t :: t in d.store ==>
      DistinctIds(d.store[t]) && forall m :: m in d.store[t] ==> MessageFiled(m, d.next)
  }

  predicate MessageFiled(m: Message, next: nat) {
    m.id < next && (m.card.Some? && m.card.value.PeerAsk() ==> m.card.value.request.value < next)
  }

  /** The entry that would settle this card. */
  predicate HasResolver(pending: seq<Pending>, r: Request, t: Thread, id: nat) {
    var p := Lookup(pending, r);
    p.Some? && p.value.thread == t && p.value.message == id
  }

  /** An open peer card of a bot's thread, or of this process, has its live entry; an answered one of
    * this process tells what its promise resolved to. */
  predicate CardOk(c: Card, t: Thread, id: nat, d: Desk) {
    c.PeerAsk() ==>
      (if c.Open() then
         t in d.owned || c.request.value in d.asked ==> HasResolver(d.pending, c.request.value, t, id)
       else
         c.request.value in d.asked ==>
           c.answered.Some? && Answer(c.request.value, c.answered.value) in d.resolved)
  }

  predicate MessageOk(m: Message, t: Thread, d: Desk) {
    m.card.Some? && m.id !in d.patched ==> CardOk(m.card.value, t, m.id, d)
  }

  ghost predicate CardsOk(d: Desk) {
    forall t, m :: t in d.store && m in d.store[t] ==> MessageOk(m, t, d)
  }

  predicate Holds(m: Message, p: Pending) {
    m.id == p.message ==> m.card.Some? && m.card.value.PeerAsk() && m.card.value.request.value == p.request
  }

  /** The message an entry points at, if it is still there, is its card. */
  ghost predicate EntriesFiled(d: Desk) {
    && (forall p :: p in d.pending ==> p.message < d.next)
    && forall p, m :: p in d.pending && p.thread in d.store && m in d.store[p.thread] ==> Holds(m, p)
  }

  ghost predicate Valid(d: Desk) {
    Promised(d) && Filed(d) && EntriesFiled(d) && CardsOk(d)
  }

  lemma {:induction false} WithoutDistinct(ps: seq<Pending>, r: Request)
    requires DistinctEntries(ps)
    ensures DistinctEntries(Without(ps, r))
  {
    if ps != [] {
      WithoutDistinct(ps[1..], r);
      assert forall p :: p in ps[1..] ==> p.request != ps[0].request;
    }
  }

  lemma {:induction false} WithoutLookup(ps: seq<Pending>, r: Request, q: Request)
    ensures Lookup(Without(ps, r), q) == if q == r then None else Lookup(ps, q)
  {
    if ps != [] {
      WithoutLookup(ps[1..], r, q);
      assert ps[0].request == r ==> Without(ps, r) == Without(ps[1..], r);
      if ps[0].request != r {
        assert Without(ps, r)[1..] == Without(ps[1..], r);
      }
    }
  }

  lemma EndPromised(d: Desk, p: Pending, verdict: Verdict, byUser: bool)
    requires Promised(d) && p in d.pending
    ensures Promised(End(d, p, verdict, byUser))
  {
    var e := End(d, p, verdict, byUser);
    WithoutDistinct(d.pending, p.request);
    assert DistinctAnswers(e.resolved) by {
      assert forall a :: a in d.resolved ==> a.request != p.request;
    }
    forall q | q in e.pending ensures q.request in e.asked && !IsResolved(e, q.request) {
      assert q in d.pending && !IsResolved(d, q.request);
    }
    forall r | r in e.asked ensures r < e.next && (IsPending(e, r) || IsResolved(e, r)) {
      WithoutLookup(d.pending, p.request, r);
      if IsResolved(d, r) {
        var a :| a in d.resolved && a.request == r;
        assert a in e.resolved;
      }
      assert Answer(p.request, verdict) in e.resolved;
    }
  }

  /** What a settled list holds: the old messages, except that the entry's own card is answered. */
  lemma SettleMembers(d: Desk, p: Pending, verdict: Verdict, byUser: bool, t: Thread, m: Message)
    requires Valid(d) && p in d.pending
    requires t in SettleCard(d.store, p, verdict, byUser) && m in SettleCard(d.store, p, verdict, byUser)[t]
    ensures t in d.store
    ensures exists o :: o in d.store[t] && MessageAfter(o, m, p, t, verdict)
  {
    var list := ListOf(d.store, p.thread);
    var k := Find(list, p.message);
    var next := SettleCard(d.store, p, verdict, byUser);
    var j :| 0 <= j < |next[t]| && next[t][j] == m;
    var o := d.store[t][j];
    assert o in d.store[t];
    if t == p.thread {
      assert Holds(o, p);
    }
    assert MessageAfter(o, m, p, t, verdict);
  }

  predicate MessageAfter(o: Message, m: Message, p: Pending, t: Thread, verdict: Verdict) {
    && m.id == o.id
    && (if t == p.thread && o.id == p.message
        then o.card.Some? && o.card.value.PeerAsk() && o.card.value.request.value == p.request
             && m.card.Some? && m.card.value.answered.Some?
             && m.card.value.tool == o.card.value.tool && m.card.value.request == o.card.value.request
             && (o.card.value.answered.None? ==> m.card.value.answered == Some(verdict))
             && (o.card.value.answered.Some? ==> m == o)
        else m == o)
  }

  lemma EndFiled(d: Desk, p: Pending, verdict: Verdict, byUser: bool)
    requires Valid(d) && p in d.pending
    ensures Filed(End(d, p, verdict, byUser)) && EntriesFiled(End(d, p, verdict, byUser))
  {
    var e := End(d, p, verdict, byUser);
    forall t | t in e.store ensures DistinctIds(e.store[t]) && forall m :: m in e.store[t] ==> MessageFiled(m, e.next) {
      forall m | m in e.store[t] ensures MessageFiled(m, e.next) {
        SettleMembers(d, p, verdict, byUser, t, m);
        var o :| o in d.store[t] && MessageAfter(o, m, p, t, verdict);
        assert MessageFiled(o, d.next);
      }
    }
    forall q, m | q in e.pending && q.thread in e.store && m in e.store[q.thread] ensures Holds(m, q) {
      SettleMembers(d, p, verdict, byUser, q.thread, m);
      var o :| o in d.store[q.thread] && MessageAfter(o, m, p, q.thread, verdict);
      assert Holds(o, q);
    }
  }

  lemma EntryByRequest(d: Desk)
    requires Promised(d)
    ensures forall p, q :: p in d.pending && q in d.pending && p.request == q.request ==> p == q
  {
  }

  lemma EndLookups(d: Desk, p: Pending, verdict: Verdict, byUser: bool, r: Request)
    requires Promised(d) && p in d.pending
    ensures var e := End(d, p, verdict, byUser);
            && Lookup(e.pending, r) == (if r == p.request then None else Lookup(d.pending, r))
            && Answer(p.request, verdict) in e.resolved && forall a :: a in d.resolved ==> a in e.resolved
  {
    WithoutLookup(d.pending, p.request, r);
  }

  lemma EndMessageOk(d: Desk, p: Pending, verdict: Verdict, byUser: bool, t: Thread, m: Message)
    requires Valid(d) && p in d.pending
    requires t in End(d, p, verdict, byUser).store && m in End(d, p, verdict, byUser).store[t]
    ensures MessageOk(m, t, End(d, p, verdict, byUser))
  {
    SettleMembers(d, p, verdict, byUser, t, m);
    var o :| o in d.store[t] && MessageAfter(o, m, p, t, verdict);
    assert MessageOk(o, t, d);
    if m.card.Some? && m.card.value.PeerAsk() && m.id !in d.patched {
      var r := m.card.value.request.value;
      EndLookups(d, p, verdict, byUser, r);
      EntryByRequest(d);
      assert IsResolved(d, p.request) <==> exists a :: a in d.resolved && a.request == p.request;
      if r == p.request && t == p.thread && m.id == p.message {
        assert o.card.value.answered.Some? ==> m == o;
      }
    }
  }

  lemma EndValid(d: Desk, p: Pending, verdict: Verdict, byUser: bool)
    requires Valid(d) && p in d.pending
    ensures Valid(End(d, p, verdict, byUser))
  {
    var e := End(d, p, verdict, byUser);
    EndPromised(d, p, verdict, byUser);
    EndFiled(d, p, verdict, byUser);
    forall t, m | t in e.store && m in e.store[t] ensures MessageOk(m, t, e) {
      EndMessageOk(d, p, verdict, byUser, t, m);
    }
  }

  lemma {:induction false} CancelledValid(d: Desk, ps: seq<Pending>, scope: Scope)
    requires Valid(d) && DistinctEntries(ps) && forall p :: p in ps ==> p in d.pending
    ensures Valid(Cancelled(d, ps, scope))
    ensures forall q :: q in Cancelled(d, ps, scope).pending <==> q in d.pending && !(q in ps && InScope(scope, q))
    decreases |ps|
  {
    if ps != [] {
      var e := if InScope(scope, ps[0]) then End(d, ps[0], Deny, false) else d;
      if InScope(scope, ps[0]) {
        EndValid(d, ps[0], Deny, false);
      }
      assert forall p :: p in ps[1..] ==> p.request != ps[0].request;
      assert forall q :: q in ps <==> q == ps[0] || q in ps[1..];
      EntryByRequest(d);
      CancelledValid(e, ps[1..], scope);
    }
  }

  lemma {:induction false} LookupAppend(ps: seq<Pending>, q: Pending, r: Request)
    ensures Lookup(ps + [q], r) == if Lookup(ps, r).Some? then Lookup(ps, r)
                                   else if r == q.request then Some(q) else None
  {
    if ps != [] {
      assert (ps + [q])[1..] == ps[1..] + [q];
      LookupAppend(ps[1..], q, r);
    }
  }

  lemma AppendIds(list: seq<Message>, m: Message)
    requires DistinctIds(list) && forall x :: x in list ==> x.id < m.id
    ensures DistinctIds(list + [m])
  {
  }

  lemma AskedFiled(d: Desk, from: BotId, to: BotId, tool: Tool, t: Thread)
    requires Valid(d) && tool.Peer()
    ensures Filed(Asked(d, from, to, tool, t)) && EntriesFiled(Asked(d, from, to, tool, t))
  {
    var e, list := Asked(d, from, to, tool, t), ListOf(d.store, t);
    AppendIds(list, Message(d.next + 1, Some(Card(Some(d.next), tool, None, false))));
    forall u, m | u in e.store && m in e.store[u] ensures MessageFiled(m, e.next) {
      assert u in d.store && m in d.store[u] ==> MessageFiled(m, d.next);
    }
    forall p, m | p in e.pending && p.thread in e.store && m in e.store[p.thread] ensures Holds(m, p) {
      assert p in d.pending && p.thread in d.store && m in d.store[p.thread] ==> Holds(m, p);
      assert p.thread in d.store && m in d.store[p.thread] ==> MessageFiled(m, d.next);
    }
  }

  lemma AskedMessageOk(d: Desk, from: BotId, to: BotId, tool: Tool, t: Thread, u: Thread, m: Message)
    requires Valid(d) && u in d.store && m in d.store[u]
    ensures MessageOk(m, u, Asked(d, from, to, tool, t))
  {
    assert MessageOk(m, u, d) && MessageFiled(m, d.next);
    if m.card.Some? && m.card.value.PeerAsk() {
      LookupAppend(d.pending, Pending(d.next, from, to, t, d.next + 1), m.card.value.request.value);
    }
  }

  lemma AskedPromised(d: Desk, from: BotId, to: BotId, tool: Tool, t: Thread)
    requires Valid(d) && tool.Peer()
    ensures Promised(Asked(d, from, to, tool, t))
  {
    var e, q := Asked(d, from, to, tool, t), Pending(d.next, from, to, t, d.next + 1);
    assert e.pending == d.pending + [q];
    forall r | r in e.asked ensures r < e.next && (IsPending(e, r) || IsResolved(e, r)) {
      LookupAppend(d.pending, q, r);
      assert r in d.asked ==> r < d.next && (IsPending(d, r) || IsResolved(d, r));
    }
    forall p | p in e.pending ensures p.request in e.asked && !IsResolved(e, p.request) {
      assert p in d.pending || p == q;
    }
  }

  lemma AskedValid(d: Desk, from: BotId, to: BotId, tool: Tool, t: Thread)
    requires Valid(d) && tool.Peer()
    ensures Valid(Asked(d, from, to, tool, t))
  {
    var e, q := Asked(d, from, to, tool, t), Pending(d.next, from, to, t, d.next + 1);
    AskedFiled(d, from, to, tool, t);
    AskedPromised(d, from, to, tool, t);
    LookupAppend(d.pending, q, d.next);
    forall u, m | u in e.store && m in e.store[u] ensures MessageOk(m, u, e) {
      if u in d.store && m in d.store[u] {
        AskedMessageOk(d, from, to, tool, t, u, m);
      }
    }
  }

  lemma AppendValid(d: Desk, s: Step)
    requires Valid(d) && s.Append? && Enabled(d, s)
    ensures Valid(Apply(d, s))
  {
    var e, added := Apply(d, s), Message(d.next, s.card);
    AppendIds(ListOf(d.store, s.thread), added);
    forall r ensures IsPending(e, r) == IsPending(d, r) && IsResolved(e, r) == IsResolved(d, r) {
    }
    forall t, m | t in e.store && m in e.store[t] ensures MessageOk(m, t, e) && MessageFiled(m, e.next) {
      assert t in d.store && m in d.store[t] ==> MessageOk(m, t, d) && MessageFiled(m, d.next);
    }
    forall p, m | p in e.pending && p.thread in e.store && m in e.store[p.thread] ensures Holds(m, p) {
      assert p.thread in d.store && m in d.store[p.thread] ==> Holds(m, p);
    }
  }

  lemma PatchedMember(d: Desk, s: Step, t: Thread, m: Message)
    requires s.Patch? && t in Apply(d, s).store && m in Apply(d, s).store[t]
    ensures t in d.store
    ensures m in d.store[t]
            || (m.id in Apply(d, s).patched && m.card.Some?
                && exists o :: o in d.store[t] && o.id == m.id && o.card.Some?
                               && m.card.value.request == o.card.value.request
                               && m.card.value.tool == o.card.value.tool)
  {
    var list := ListOf(d.store, s.thread);
    var j :| 0 <= j < |Apply(d, s).store[t]| && Apply(d, s).store[t][j] == m;
    if t == s.thread && Apply(d, s) != d {
      assert list[j] in d.store[t];
    }
  }

  lemma PatchValid(d: Desk, s: Step)
    requires Valid(d) && s.Patch?
    ensures Valid(Apply(d, s))
  {
    var e := Apply(d, s);
    forall r ensures IsPending(e, r) == IsPending(d, r) && IsResolved(e, r) == IsResolved(d, r) {
    }
    forall t, m | t in e.store && m in e.store[t] ensures MessageOk(m, t, e) && MessageFiled(m, e.next) {
      PatchedMember(d, s, t, m);
      assert m in d.store[t] ==> MessageOk(m, t, d) && MessageFiled(m, d.next);
    }
    forall p, m | p in e.pending && p.thread in e.store && m in e.store[p.thread] ensures Holds(m, p) {
      PatchedMember(d, s, p.thread, m);
      assert m in d.store[p.thread] ==> Holds(m, p);
    }
  }

  lemma ThreadsValid(d: Desk, s: Step)
    requires Valid(d) && (s.Open? || s.Delete?) && Enabled(d, s)
    ensures Valid(Apply(d, s))
  {
    var e := Apply(d, s);
    forall r | r in e.asked ensures IsPending(e, r) || IsResolved(e, r) {
      assert IsResolved(d, r) ==> IsResolved(e, r);
    }
    forall p | p in e.pending ensures !IsResolved(e, p.request) {
      assert !IsResolved(d, p.request);
    }
    forall t, m | t in e.store && m in e.store[t] ensures MessageOk(m, t, e) {
      assert MessageOk(m, t, d);
    }
  }

  /** After the sweep no thread of a bot shows an open peer card. */
  lemma RestartValid(d: Desk)
    requires Filed(d)
    ensures Valid(Apply(d, Restart))
  {
    var e := Apply(d, Restart);
    forall t, m | t in e.store && m in e.store[t] ensures MessageOk(m, t, e) && MessageFiled(m, e.next) {
      var k :| 0 <= k < |e.store[t]| && e.store[t][k] == m;
      assert MessageFiled(d.store[t][k], d.next);
    }
  }

  lemma StepValid(d: Desk, s: Step)
    requires Valid(d) && Enabled(d, s)
    ensures Valid(Apply(d, s))
  {
    match s
    case Ask(from, to, tool, thread, always) =>
      if !always {
        AskedValid(d, from, to, tool, thread);
      }
    case Respond(request, allow) =>
      if IsPending(d, request) {
        EndValid(d, Lookup(d.pending, request).value, if allow then Allow else Deny, true);
      }
    case Timeout(request) =>
      if IsPending(d, request) {
        EndValid(d, Lookup(d.pending, request).value, Deny, false);
      }
    case Cancel(scope) => CancelledValid(d, d.pending, scope);
    case Append(_, _) => AppendValid(d, s);
    case Patch(_, _, _, _) => PatchValid(d, s);
    case Open(_) => ThreadsValid(d, s);
    case Delete(_) => ThreadsValid(d, s);
    case Restart => RestartValid(d);
  }

  lemma {:induction false} RunValid(d: Desk, steps: seq<Step>, e: Desk)
    requires Valid(d) && Run(d, steps, e)
    ensures Valid(e)
    decreases |steps|
  {
    if steps != [] {
      StepValid(d, steps[0]);
      RunValid(Apply(d, steps[0]), steps[1..], e);
    }
  }

  /** A boot from whatever a previous process left on disk. */
  ghost predicate Booted(d: Desk) {
    exists disk :: Filed(disk) && d == Apply(disk, Restart)
  }

  /** Over every run each promise of the process is resolved at most once, and it has its entry in the
    * map exactly as long as it is not resolved. */
  lemma EachPromiseResolvesOnce(d: Desk, steps: seq<Step>, e: Desk, r: Request)
    requires Booted(d) && Run(d, steps, e) && r in e.asked
    ensures DistinctAnswers(e.resolved)
    ensures IsPending(e, r) <==> !IsResolved(e, r)
  {
    var disk :| Filed(disk) && d == Apply(disk, Restart);
    RestartValid(disk);
    RunValid(d, steps, e);
    assert forall p :: p in e.pending ==> !IsResolved(e, p.request);
  }

  /** After the boot sweep, and until a client writes over it, an open peer card in a thread of a bot, or
    * asked by this process, has the live entry that settles this very card; and a settled card of this
    * process shows its promise's verdict. */
  lemma EveryOpenCardHasItsResolver(d: Desk, steps: seq<Step>, e: Desk, t: Thread, m: Message)
    requires Booted(d) && Run(d, steps, e)
    requires t in e.store && m in e.store[t] && m.card.Some? && m.card.value.PeerAsk() && m.id !in e.patched
    ensures m.card.value.Open() && (t in e.owned || m.card.value.request.value in e.asked) ==>
              HasResolver(e.pending, m.card.value.request.value, t, m.id)
    ensures forall a :: a in e.resolved && a.request == m.card.value.request.value ==>
              m.card.value.answered == Some(a.verdict)
  {
    var disk :| Filed(disk) && d == Apply(disk, Restart);
    RestartValid(disk);
    RunValid(d, steps, e);
    assert MessageOk(m, t, e);
    forall a | a in e.resolved && a.request == m.card.value.request.value
      ensures m.card.value.answered == Some(a.verdict) {
      assert IsResolved(e, a.request) && a.request in e.asked;
      assert forall p :: p in e.pending ==> !IsResolved(e, p.request);
    }
  }

  /** A client that clears the answer of a settled card leaves it open for a request nobody waits for. */
  lemma PatchReopens(d: Desk, t: Thread, m: Message)
    requires Valid(d) && t in d.store && m in d.store[t] && m.card.Some? && m.card.value.PeerAsk()
    requires IsResolved(d, m.card.value.request.value)
    ensures var e := Apply(d, Patch(t, m.id, Some(None), Some(false)));
            exists n :: t in e.store && n in e.store[t] && n.id == m.id && n.card.Some?
              && n.card.value.PeerAsk() && n.card.value.Open() && n.card.value.request == m.card.value.request
              && Lookup(e.pending, n.card.value.request.value).None?
  {
    var e, list := Apply(d, Patch(t, m.id, Some(None), Some(false))), d.store[t];
    var j :| 0 <= j < |list| && list[j] == m;
    assert Find(list, m.id) == j;
    assert e.store[t][j] in e.store[t];
  }

  /** The user's answer, or the denial of a timeout, is what the promise resolves to and what a card that
    * no client wrote over shows; a request that is not pending is left to others. */
  lemma AnswerReachesPromiseAndCard(d: Desk, s: Step, t: Thread, m: Message)
    requires Valid(d) && (s.Respond? || s.Timeout?) && Enabled(d, s)
    requires t in Apply(d, s).store && m in Apply(d, s).store[t] && m.card.Some? && m.card.value.PeerAsk()
    requires m.card.value.request.value == s.request
    ensures var verdict := if s.Respond? && s.allow then Allow else Deny;
            if IsPending(d, s.request)
            then Apply(d, s).resolved == d.resolved + [Answer(s.request, verdict)]
                 && (m.id !in d.patched ==> m.card.value.answered == Some(verdict))
            else Apply(d, s) == d
  {
    var e, verdict := Apply(d, s), if s.Respond? && s.allow then Allow else Deny;
    StepValid(d, s);
    if IsPending(d, s.request) {
      var answer := Answer(s.request, verdict);
      assert e.resolved[|d.resolved|] == answer && IsResolved(e, s.request) && s.request in e.asked;
      assert MessageOk(m, t, e);
      assert forall p :: p in e.pending ==> !IsResolved(e, p.request);
    }
  }

  /** Cancelling leaves no entry of the bot or thread, and touches no other. */
  lemma CancelTakesExactlyItsScope(d: Desk, scope: Scope, p: Pending)
    requires Valid(d) && p in d.pending
    ensures p in Apply(d, Cancel(scope)).pending <==> !InScope(scope, p)
    ensures InScope(scope, p) ==> IsResolved(Apply(d, Cancel(scope)), p.request)
  {
    CancelledValid(d, d.pending, scope);
    CancelledPromises(d, d.pending, scope);
    var e := Apply(d, Cancel(scope));
    assert p.request in e.asked;
    if InScope(scope, p) && IsPending(e, p.request) {
      EntryByRequest(d);
    }
  }

  lemma {:induction false} CancelledPromises(d: Desk, ps: seq<Pending>, scope: Scope)
    ensures Cancelled(d, ps, scope).asked == d.asked && d.resolved <= Cancelled(d, ps, scope).resolved
    decreases |ps|
  {
    if ps != [] {
      CancelledPromises(if InScope(scope, ps[0]) then End(d, ps[0], Deny, false) else d, ps[1..], scope);
    }
  }

  function SetOf(threads: seq<Thread>): set<Thread> {
    set t | t in threads
  }

  /** Cards the sweep has to dismiss. */
  predicate Stale(m: Message, live: seq<Pending>) {
    m.card.Some? && m.card.value.PeerAsk() && m.card.value.Open() && Lookup(live, m.card.value.request.value).None?
  }

  function CountStale(list: seq<Message>, live: seq<Pending>): nat {
    if list == [] then 0
    else CountStale(list[..|list| - 1], live) + if Stale(list[|list| - 1], live) then 1 else 0
  }

  function CountAll(store: Store, threads: seq<Thread>, live: seq<Pending>): nat {
    if threads == [] then 0
    else CountAll(store, threads[..|threads| - 1], live) + CountStale(ListOf(store, threads[|threads| - 1]), live)
  }

  // ---- The module's state as the program keeps it ----

  class ApprovalDesk {
    var store: Store
    var owned: set<Thread>
    var pendingComms: seq<Pending>
    ghost var asked: set<Request>
    ghost var resolved: seq<Answer>
    ghost var patched: set<nat>
    var next: nat

    ghost function State(): Desk
      reads this
    {
      Desk(store, owned, pendingComms, asked, resolved, patched, next)
    }

    /** Taking an entry out of the map, settling its card and resolving its promise. */
    method Finish(p: Pending, verdict: Verdict, byUser: bool)
      modifies this`pendingComms, this`store, this`resolved
      ensures State() == End(old(State()), p, verdict, byUser)
    {
      pendingComms := Without(pendingComms, p.request);
      var list := if p.thread in store then store[p.thread] else [];
      var k := Find(list, p.message);
      if k < |list| && list[k].card.Some? && list[k].card.value.answered.None? {
        var card := Settled(list[k].card.value, verdict, byUser);
        store := store[p.thread := list[k := list[k].(card := Some(card))]];
      }
      resolved := resolved + [Answer(p.request, verdict)];
    }

    method RequestPeerApproval(from: BotId, to: BotId, tool: Tool, thread: Thread, always: bool)
      returns (answer: Option<Verdict>)
      modifies this`store, this`pendingComms, this`asked, this`next
      ensures State() == Apply(old(State()), Ask(from, to, tool, thread, always))
      ensures answer == if always then Some(Allow) else None
    {
      if always {
        return Some(Allow);
      }
      var request, message := next, next + 1;
      var list := if thread in store then store[thread] else [];
      store := store[thread := list + [Message(message, Some(Card(Some(request), tool, None, false)))]];
      pendingComms := pendingComms + [Pending(request, from, to, thread, message)];
      asked, next := asked + {request}, next + 2;
      return None;
    }

    /** True when the request was a peer approval; false leaves it to the provider. */
    method ResolvePeerComms(request: Request, allow: bool) returns (mine: bool)
      modifies this`store, this`pendingComms, this`resolved
      ensures State() == Apply(old(State()), Respond(request, allow))
      ensures mine <==> IsPending(old(State()), request)
    {
      var found := Lookup(pendingComms, request);
      if found.None? {
        return false;
      }
      Finish(found.value, if allow then Allow else Deny, true);
      return true;
    }

    method CancelPeerApprovals(scope: Scope)
      modifies this`store, this`pendingComms, this`resolved
      ensures State() == Apply(old(State()), Cancel(scope))
    {
      var entries := pendingComms;
      ghost var done := Cancelled(State(), entries, scope);
      for i := 0 to |entries|
        invariant Cancelled(State(), entries[i..], scope) == done
        invariant owned == old(owned) && asked == old(asked) && patched == old(patched) && next == old(next)
      {
        assert entries[i..][1..] == entries[i + 1..];
        if InScope(scope, entries[i]) {
          Finish(entries[i], Deny, false);
        }
      }
      assert entries[|entries|..] == [];
    }

    /** The boot sweep over the threads of all bots, each listed once. */
    method DismissStalePeerCards(threads: seq<Thread>) returns (dismissed: nat)
      requires forall i, j :: 0 <= i < j < |threads| ==> threads[i] != threads[j]
      modifies this`store
      ensures store == Swept(old(store), SetOf(threads), pendingComms)
      ensures dismissed == CountAll(old(store), threads, pendingComms)
    {
      dismissed := 0;
      for i := 0 to |threads|
        invariant store == Swept(old(store), SetOf(threads[..i]), pendingComms)
        invariant dismissed == CountAll(old(store), threads[..i], pendingComms)
      {
        assert threads[..i + 1] == threads[..i] + [threads[i]];
        SweptStep(old(store), threads[..i], threads[i], pendingComms);
        if threads[i] in store {
          var swept, n := SweepThread(store[threads[i]], pendingComms);
          store := store[threads[i] := swept];
          dismissed := dismissed + n;
        }
      }
      assert threads[..|threads|] == threads;
    }
  }

  /** The inner loop of `dismissStalePeerCards`. */
  method SweepThread(list: seq<Message>, live: seq<Pending>) returns (swept: seq<Message>, dismissed: nat)
    ensures swept == SweptList(list, live)
    ensures dismissed == CountStale(list, live)
  {
    swept, dismissed := list, 0;
    for k := 0 to |list|
      invariant swept == SweptList(list[..k], live) + list[k..]
      invariant dismissed == CountStale(list[..k], live)
    {
      SweptAppend(list, k, live);
      if Stale(list[k], live) {
        swept := swept[k := list[k].(card := Some(Settled(list[k].card.value, Deny, false)))];
        dismissed := dismissed + 1;
      }
    }
    assert list[..|list|] == list && list[|list|..] == [];
  }

  lemma SweptAppend(list: seq<Message>, k: nat, live: seq<Pending>)
    requires k < |list|
    ensures SweptList(list[..k + 1], live) + list[k + 1..]
            == (SweptList(list[..k], live) + list[k..])[k := SweptMessage(list[k], live)]
    ensures (SweptList(list[..k], live) + list[k..])[k] == list[k]
    ensures CountStale(list[..k + 1], live) == CountStale(list[..k], live) + if Stale(list[k], live) then 1 else 0
  {
    assert list[..k + 1][..k] == list[..k];
  }

  lemma SweptStep(store: Store, ts: seq<Thread>, t: Thread, live: seq<Pending>)
    requires t !in ts
    ensures var before := Swept(store, SetOf(ts), live);
            if t in store
            then t in before && before[t] == store[t]
                 && Swept(store, SetOf(ts + [t]), live) == before[t := SweptList(store[t], live)]
            else t !in before && Swept(store, SetOf(ts + [t]), live) == before
    ensures CountAll(store, ts + [t], live) == CountAll(store, ts, live) + CountStale(ListOf(store, t), live)
  {
    assert (ts + [t])[..|ts|] == ts;
    assert SetOf(ts + [t]) == SetOf(ts) + {t};
  }
}
