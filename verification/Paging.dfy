/**
  * Pages of a transcript: the page before a message, and the window around one. Messages are only
  * ever added at the end while a client reads, and pixels are left out of every page.
  */
module Paging {
  import opened Wrappers

  const MESSAGE_PAGE_MAX: nat := 200
  const DEFAULT_PAGE: nat := 50

  type Id = nat

  datatype Message = Message(id: Id, text: string, pixels: Option<string>, hasImage: bool)

  datatype Page = Page(messages: seq<Message>, hasMore: bool)

  datatype Raw = Absent | Unreadable | Number(n: int)

  datatype Response = Fetched(page: Page) | NotFound | BadRequest

  /** `pageSize`: absent, unusable, or a size of at most the maximum. */
  function PageSize(raw: Raw): Option<Option<nat>> {
    match raw
    case Absent => Some(None)
    case Unreadable => None
    case Number(n) => if n < 0 then None else Some(Some(if n < MESSAGE_PAGE_MAX then n else MESSAGE_PAGE_MAX))
  }

  /** A message without its pixels. */
  function Slim(m: Message): Message {
    if m.pixels.None? then m else m.(pixels := None, hasImage := true)
  }

  function SlimAll(list: seq<Message>): (r: seq<Message>)
    ensures |r| == |list| && forall k :: 0 <= k < |r| ==> r[k] == Slim(list[k])
  {
    seq(|list|, k requires 0 <= k < |list| => Slim(list[k]))
  }

  /** Index of the message, or the number of messages. */
  function IndexOf(all: seq<Message>, id: Id): (k: nat)
    ensures k <= |all| && (k < |all| ==> all[k].id == id) && forall j :: 0 <= j < k ==> all[j].id != id
  {
    if all == [] then 0 else if all[0].id == id then 0 else 1 + IndexOf(all[1..], id)
  }

  function Min(a: int, b: int): int {
    if a < b then a else b
  }

  function Max(a: int, b: int): int {
    if a > b then a else b
  }

  /** `messagePage` with a limit; an unknown `before` counts as none. */
  function MessagePage(all: seq<Message>, limit: nat, before: Option<Id>): Page {
    var stop := if before.Some? then IndexOf(all, before.value) else |all|;
    var start := Max(0, stop - limit);
    Page(SlimAll(all[start..stop]), start > 0)
  }

  /** `messageWindow` */
  function MessageWindow(all: seq<Message>, id: Id, limit: nat): Option<Page> {
    var index := IndexOf(all, id);
    if index == |all| then None
    else
      var before := (limit - 1) / 2;
      var start := Max(0, Min(index - before, |all| - limit));
      var stop := Min(|all|, start + limit);
      Some(Page(SlimAll(all[start..stop]), start > 0))
  }

  /** The scrollback route. */
  function Scrollback(all: seq<Message>, raw: Raw, before: Option<Id>, around: Option<Id>): Response {
    var limit := PageSize(raw);
    if limit.None? then BadRequest
    else if before.Some? && around.Some? then BadRequest
    else
      var size := limit.value.GetOr(DEFAULT_PAGE);
      if around.Some? then
        var window := MessageWindow(all, around.value, size);
        if window.None? then NotFound else Fetched(window.value)
      else if before.Some? && IndexOf(all, before.value) == |all| then NotFound
      else Fetched(MessagePage(all, size, before))
  }

  ghost predicate Distinct(all: seq<Message>) {
    forall i, j :: 0 <= i < j < |all| ==> all[i].id != all[j].id
  }

  lemma IndexIs(all: seq<Message>, k: nat)
    requires Distinct(all) && k < |all|
    ensures IndexOf(all, all[k].id) == k
  {
    assert forall j :: 0 <= j < k ==> all[j].id != all[k].id;
  }

  /** A transcript that only grew at its end: a page before a message of the earlier one is the same. */
  lemma PageIgnoresNewMessages(first: seq<Message>, now: seq<Message>, limit: nat, stop: nat)
    requires Distinct(now) && first <= now && stop < |first|
    ensures var start := Max(0, stop - limit);
            MessagePage(now, limit, Some(first[stop].id)) == Page(SlimAll(first[start..stop]), start > 0)
  {
    IndexIs(now, stop);
    var start := Max(0, stop - limit);
    assert now[start..stop] == first[start..stop];
  }

  /** What the transcript is at each request: it may have grown meanwhile. */
  ghost predicate Growing(world: nat -> seq<Message>) {
    && (forall t :: Distinct(world(t)))
    && forall t, u :: t <= u ==> world(t) <= world(u)
  }

  lemma SlimSplit(all: seq<Message>, start: nat, stop: nat)
    requires start <= stop <= |all|
    ensures SlimAll(all[start..]) == SlimAll(all[start..stop]) + SlimAll(all[stop..])
  {
  }

  lemma NewestPage(all: seq<Message>, limit: nat)
    ensures var start := Max(0, |all| - limit);
            MessagePage(all, limit, None) == Page(SlimAll(all[start..]), start > 0)
  {
    assert all[..|all|] == all;
    var start := Max(0, |all| - limit);
    assert all[start..|all|] == all[start..];
  }

  /** The page before the first message held joins on to what is held. */
  lemma NextPage(first: seq<Message>, now: seq<Message>, limit: nat, start: nat)
    requires Distinct(now) && first <= now && start < |first|
    ensures var next := Max(0, start - limit);
            var page := MessagePage(now, limit, Some(first[start].id));
            page.messages + SlimAll(first[start..]) == SlimAll(first[next..]) && (page.hasMore <==> next > 0)
  {
    PageIgnoresNewMessages(first, now, limit, start);
    SlimSplit(first, Max(0, start - limit), start);
  }

  lemma FirstHeld(first: seq<Message>, start: nat)
    requires start < |first|
    ensures SlimAll(first[start..]) != [] && SlimAll(first[start..])[0].id == first[start].id
  {
  }

  /** The count of requests goes with what is left to read. */
  predicate Paced(requests: nat, limit: nat, start: nat, total: nat) {
    && (start > 0 ==> requests * limit + start == total)
    && requests * limit < total + limit + 1
  }

  lemma KeepsPace(requests: nat, limit: nat, start: nat, total: nat)
    requires 0 < start <= total && Paced(requests, limit, start, total)
    ensures Paced(requests + 1, limit, Max(0, start - limit), total)
  {
    assert (requests + 1) * limit == requests * limit + limit;
  }

  /** A client that reads the newest page and then keeps asking for the page before the first message it
    * holds gets the whole transcript of its first request, each message once and in order, whatever
    * arrives while it reads. */
  method ReadWholeTranscript(world: nat -> seq<Message>, limit: nat) returns (held: seq<Message>, requests: nat)
    requires limit >= 1 && Growing(world)
    ensures held == SlimAll(world(0))
    ensures requests * limit < |world(0)| + limit + 1
  {
    ghost var first := world(0);
    NewestPage(first, limit);
    var page := MessagePage(world(0), limit, None);
    ghost var start := Max(0, |first| - limit);
    held, requests := page.messages, 1;
    var more := page.hasMore;
    while more
      invariant 0 <= start <= |first| && (more <==> start > 0)
      invariant held == SlimAll(first[start..])
      invariant start == |first| ==> !more
      invariant Paced(requests, limit, start, |first|)
      decreases start
    {
      FirstHeld(first, start);
      NextPage(first, world(requests), limit, start);
      KeepsPace(requests, limit, start, |first|);
      page := MessagePage(world(requests), limit, Some(held[0].id));
      held, requests, more := page.messages + held, requests + 1, page.hasMore;
      start := Max(0, start - limit);
    }
    assert first[0..] == first;
  }

  /** A page of size zero never gets anywhere: it is empty and still announces more. */
  lemma ZeroPageIsStuck(all: seq<Message>)
    ensures MessagePage(all, 0, None).messages == []
    ensures MessagePage(all, 0, None).hasMore <==> all != []
  {
  }

  /** The window has as many messages as it may, and holds its target exactly when it may hold any. */
  lemma WindowHoldsItsTarget(all: seq<Message>, k: nat, limit: nat)
    requires Distinct(all) && k < |all|
    ensures var w := MessageWindow(all, all[k].id, limit);
            w.Some? && |w.value.messages| == Min(limit, |all|) && (Slim(all[k]) in w.value.messages <==> limit >= 1)
  {
    IndexIs(all, k);
    var before := (limit - 1) / 2;
    var start := Max(0, Min(k - before, |all| - limit));
    var stop := Min(|all|, start + limit);
    var page := MessageWindow(all, all[k].id, limit).value;
    assert page.messages == SlimAll(all[start..stop]);
    if limit >= 1 {
      assert start <= k < stop;
      assert page.messages[k - start] == Slim(all[start..stop][k - start]);
    }
  }

  /** The route finds a page exactly when its numbers are usable and its cursors known. */
  lemma ScrollbackAnswers(all: seq<Message>, raw: Raw, before: Option<Id>, around: Option<Id>)
    requires Distinct(all)
    ensures Scrollback(all, raw, before, around).BadRequest? <==>
              raw.Unreadable? || (raw.Number? && raw.n < 0) || (before.Some? && around.Some?)
    ensures Scrollback(all, raw, before, around).NotFound? <==>
              && !Scrollback(all, raw, before, around).BadRequest?
              && ((before.Some? && forall m :: m in all ==> m.id != before.value)
                  || (around.Some? && forall m :: m in all ==> m.id != around.value))
    ensures Scrollback(all, raw, before, around).Fetched? ==>
              |Scrollback(all, raw, before, around).page.messages| <= MESSAGE_PAGE_MAX
  {
    if before.Some? {
      KnownExactlyWhenFound(all, before.value);
    }
    if around.Some? {
      KnownExactlyWhenFound(all, around.value);
      var k := IndexOf(all, around.value);
      if k < |all| {
        WindowHoldsItsTarget(all, k, PageSize(raw).GetOr(None).GetOr(DEFAULT_PAGE));
      }
    }
  }

  lemma KnownExactlyWhenFound(all: seq<Message>, id: Id)
    ensures IndexOf(all, id) == |all| <==> forall m :: m in all ==> m.id != id
  {
    var k := IndexOf(all, id);
    if k < |all| {
      assert all[k] in all;
    }
  }
}
