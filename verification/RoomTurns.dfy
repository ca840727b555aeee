/**
  * The room engine: one user message starts its responders one after the other, and a reply may
  * bring in further members by mentioning them, one hop deep.
  */
module RoomTurns {
  import opened Wrappers

  const MAX_GROUP_HOPS: nat := 1

  type BotId = nat

  datatype Outcome = Settled | DispatchFailed | Stalled | TimedOut {
    /** The provider still owns the room. */
    predicate Hangs() { Stalled? || TimedOut? }
  }

  /** What comes of asking a member: it is gone, it is passed over (model or apps unavailable, or busy
    * elsewhere), or it runs, and its reply mentions these bots. */
  datatype Reply = Gone | PassedOver | Ran(outcome: Outcome, mentions: seq<BotId>)

  /** A member that was asked, at which hop, what came of it, and who owned the room before. */
  datatype Ask = Ask(bot: BotId, hop: nat, reply: Reply, owner: Option<BotId>)

  /** `busy` is the room's `busyBotId`; `asks` are the members asked for this message, in order. */
  datatype Room = Room(spoken: set<BotId>, asks: seq<Ask>, busy: Option<BotId>)

  /** The n-th ask of a message is answered by `world(n)`. */
  type World = nat -> Reply

  function Others(mentions: seq<BotId>, members: set<BotId>, self: BotId): (r: seq<BotId>)
    ensures forall b :: b in r <==> b in mentions && b in members && b != self
  {
    if mentions == [] then []
    else
      (if mentions[0] in members && mentions[0] != self then [mentions[0]] else [])
      + Others(mentions[1..], members, self)
  }

  /** The bookkeeping of one ask. */
  function Asked(room: Room, bot: BotId, hop: nat, reply: Reply): Room {
    var asked := room.(asks := room.asks + [Ask(bot, hop, reply, room.busy)]);
    if reply.Gone? then asked
    else
      asked.(spoken := room.spoken + {bot},
             busy := if reply.Ran? then (if reply.outcome.Hangs() then Some(bot) else None) else room.busy)
  }

  predicate Continues(reply: Reply) {
    reply.PassedOver? || (reply.Ran? && !reply.outcome.Hangs())
  }

  /** `runGroupMemberTurn`; the flag says whether the next member may be asked. */
  function RunMember(world: World, members: set<BotId>, room: Room, bot: BotId, hop: nat): (Room, bool)
    decreases MAX_GROUP_HOPS + 1 - hop, 0
  {
    var reply := world(|room.asks|);
    var asked := Asked(room, bot, hop, reply);
    if !Continues(reply) then (asked, false)
    else if reply.Ran? && hop < MAX_GROUP_HOPS then
      RunAll(world, members, asked, Others(reply.mentions, members, bot), hop + 1)
    else (asked, true)
  }

  /** The loop over responders: who has spoken is skipped, and the first stop ends it. */
  function RunAll(world: World, members: set<BotId>, room: Room, responders: seq<BotId>, hop: nat): (Room, bool)
    decreases MAX_GROUP_HOPS + 1 - hop, 1, |responders|
  {
    if responders == [] then (room, true)
    else if responders[0] in room.spoken then RunAll(world, members, room, responders[1..], hop)
    else
      var (after, ok) := RunMember(world, members, room, responders[0], hop);
      if ok then RunAll(world, members, after, responders[1..], hop) else (after, false)
  }

  /** One user message: refused while an earlier turn still owns the room. */
  function Message(world: World, members: set<BotId>, busy: Option<BotId>, responders: seq<BotId>): Room {
    var room := Room({}, [], busy);
    if busy.Some? then room else RunAll(world, members, room, responders, 0).0
  }

  // ---- Who is asked ----

  /** Every ask but a last one that stopped the message left its bot among those who spoke. */
  ghost predicate AsksValid(room: Room, members: set<BotId>) {
    && (forall i, j :: 0 <= i < j < |room.asks| ==> room.asks[i].bot != room.asks[j].bot)
    && (forall a :: a in room.asks ==> a.bot in members && a.hop <= MAX_GROUP_HOPS && a.owner == None)
    && room.spoken <= members
    && (forall b :: b in room.spoken ==> exists a :: a in room.asks && a.bot == b)
  }

  /** The message may go on: everybody asked has spoken, nobody stopped it, and the room is free. */
  ghost predicate Flowing(room: Room) {
    && (forall a :: a in room.asks ==> a.bot in room.spoken && Continues(a.reply))
    && room.busy == None
  }

  /** Somebody stopped the message, and nobody was asked after that. */
  ghost predicate Stopped(room: Room) {
    && room.asks != [] && !Continues(room.asks[|room.asks| - 1].reply)
    && (forall i :: 0 <= i < |room.asks| - 1 ==> Continues(room.asks[i].reply))
    && (room.busy.Some? <==> room.asks[|room.asks| - 1].reply.Ran?)
  }

  ghost predicate After(room: Room, result: (Room, bool), members: set<BotId>) {
    && AsksValid(result.0, members) && room.asks <= result.0.asks && room.spoken <= result.0.spoken
    && (if result.1 then Flowing(result.0) else Stopped(result.0))
  }

  lemma AskedValid(room: Room, members: set<BotId>, bot: BotId, hop: nat, reply: Reply)
    requires AsksValid(room, members) && Flowing(room) && bot in members && bot !in room.spoken && hop <= MAX_GROUP_HOPS
    ensures var r := Asked(room, bot, hop, reply);
            && AsksValid(r, members) && room.asks <= r.asks && room.spoken <= r.spoken
            && (if Continues(reply) then Flowing(r) && bot in r.spoken else Stopped(r))
  {
    var r := Asked(room, bot, hop, reply);
    assert r.asks[|room.asks|].bot == bot && r.asks[|room.asks|] in r.asks;
    forall b | b in r.spoken ensures exists a :: a in r.asks && a.bot == b {
      if b in room.spoken {
        var a :| a in room.asks && a.bot == b;
        assert a in r.asks;
      }
    }
  }

  lemma {:induction false} RunMemberValid(world: World, members: set<BotId>, room: Room, bot: BotId, hop: nat)
    requires AsksValid(room, members) && Flowing(room) && bot in members && bot !in room.spoken && hop <= MAX_GROUP_HOPS
    ensures After(room, RunMember(world, members, room, bot, hop), members)
    ensures RunMember(world, members, room, bot, hop).1 ==> bot in RunMember(world, members, room, bot, hop).0.spoken
    decreases MAX_GROUP_HOPS + 1 - hop, 0
  {
    var reply := world(|room.asks|);
    var asked := Asked(room, bot, hop, reply);
    AskedValid(room, members, bot, hop, reply);
    if Continues(reply) && reply.Ran? && hop < MAX_GROUP_HOPS {
      RunAllValid(world, members, asked, Others(reply.mentions, members, bot), hop + 1);
    }
  }

  lemma {:induction false} RunAllValid(world: World, members: set<BotId>, room: Room, responders: seq<BotId>, hop: nat)
    requires AsksValid(room, members) && Flowing(room) && hop <= MAX_GROUP_HOPS
    requires forall b :: b in responders ==> b in members
    ensures After(room, RunAll(world, members, room, responders, hop), members)
    ensures RunAll(world, members, room, responders, hop).1 ==>
              forall b :: b in responders ==> b in RunAll(world, members, room, responders, hop).0.spoken
    decreases MAX_GROUP_HOPS + 1 - hop, 1, |responders|
  {
    if responders != [] {
      var head, rest := responders[0], responders[1..];
      if head in room.spoken {
        RunAllValid(world, members, room, rest, hop);
      } else {
        RunMemberValid(world, members, room, head, hop);
        var (after, ok) := RunMember(world, members, room, head, hop);
        if ok {
          RunAllValid(world, members, after, rest, hop);
        }
      }
    }
  }

  function BotsOf(asks: seq<Ask>): (r: seq<BotId>)
    ensures |r| == |asks| && forall i :: 0 <= i < |r| ==> r[i] == asks[i].bot
  {
    seq(|asks|, i requires 0 <= i < |asks| => asks[i].bot)
  }

  lemma {:induction false} DistinctFit(s: seq<BotId>, members: set<BotId>)
    requires (forall i, j :: 0 <= i < j < |s| ==> s[i] != s[j]) && forall b :: b in s ==> b in members
    ensures |s| <= |members|
  {
    if s != [] {
      var last := s[|s| - 1];
      DistinctFit(s[..|s| - 1], members - {last});
    }
  }

  /** For one message no member is asked twice, whoever mentions whom, so there are at most as many
    * asks as members; none is asked while another turn owns the room; and after a stalled or timed-out
    * turn nobody is asked any more. */
  lemma EachMemberAtMostOnce(world: World, members: set<BotId>, busy: Option<BotId>, responders: seq<BotId>)
    requires forall b :: b in responders ==> b in members
    ensures var room := Message(world, members, busy, responders);
            && (forall i, j :: 0 <= i < j < |room.asks| ==> room.asks[i].bot != room.asks[j].bot)
            && |room.asks| <= |members|
            && (forall a :: a in room.asks ==> a.bot in members && a.hop <= MAX_GROUP_HOPS && a.owner == None)
            && (forall i :: 0 <= i < |room.asks| - 1 ==> Continues(room.asks[i].reply))
  {
    if busy.None? {
      var start := Room({}, [], busy);
      RunAllValid(world, members, start, responders, 0);
      var room := Message(world, members, busy, responders);
      DistinctFit(BotsOf(room.asks), members);
      if RunAll(world, members, start, responders, 0).1 {
        assert forall i :: 0 <= i < |room.asks| ==> room.asks[i] in room.asks;
      }
    }
  }

  /** A turn that lets the message go on leaves every member its first-hop reply mentioned among those that
    * have spoken. */
  lemma {:induction false} MentionsReached(world: World, members: set<BotId>, room: Room, bot: BotId, hop: nat)
    requires AsksValid(room, members) && Flowing(room) && bot in members && bot !in room.spoken && hop < MAX_GROUP_HOPS
    requires RunMember(world, members, room, bot, hop).1 && world(|room.asks|).Ran?
    ensures forall b :: b in world(|room.asks|).mentions && b in members ==>
              b in RunMember(world, members, room, bot, hop).0.spoken
  {
    var reply := world(|room.asks|);
    AskedValid(room, members, bot, hop, reply);
    RunAllValid(world, members, Asked(room, bot, hop, reply), Others(reply.mentions, members, bot), hop + 1);
  }

  /** Unless somebody stopped the message, every responder was asked. */
  lemma EveryResponderIsAsked(world: World, members: set<BotId>, responders: seq<BotId>)
    requires forall b :: b in responders ==> b in members
    ensures var room := Message(world, members, None, responders);
            || (forall b :: b in responders ==> exists a :: a in room.asks && a.bot == b)
            || (room.asks != [] && !Continues(room.asks[|room.asks| - 1].reply))
  {
    RunAllValid(world, members, Room({}, [], None), responders, 0);
  }

  /** A turn that hangs keeps the room, so the next message asks nobody until its owner lets go. */
  lemma HangingTurnBlocksTheNextMessage(world: World, members: set<BotId>, responders: seq<BotId>,
                                        later: World, next: seq<BotId>)
    requires forall b :: b in responders ==> b in members
    requires var room := Message(world, members, None, responders);
             room.asks != [] && room.asks[|room.asks| - 1].reply.Ran?
             && room.asks[|room.asks| - 1].reply.outcome.Hangs()
    ensures Message(later, members, Message(world, members, None, responders).busy, next).asks == []
  {
    RunAllValid(world, members, Room({}, [], None), responders, 0);
    var room := Message(world, members, None, responders);
    assert room.asks[|room.asks| - 1] in room.asks;
  }

  // ---- The engine as the program keeps it ----

  class RoomEngine {
    var spoken: set<BotId>
    var asks: seq<Ask>
    var busy: Option<BotId>

    constructor ()
      ensures State() == Room({}, [], None)
    {
      spoken, asks, busy := {}, [], None;
    }

    function State(): Room
      reads this
    {
      Room(spoken, asks, busy)
    }

    method RunGroupMemberTurn(world: World, members: set<BotId>, bot: BotId, hop: nat) returns (ok: bool)
      modifies this
      ensures (State(), ok) == RunMember(world, members, old(State()), bot, hop)
      decreases MAX_GROUP_HOPS + 1 - hop
    {
      var reply := world(|asks|);
      asks := asks + [Ask(bot, hop, reply, busy)];
      if reply.Gone? {
        return false;
      }
      spoken := spoken + {bot};
      if reply.PassedOver? {
        return true;
      }
      busy := Some(bot);
      if reply.outcome.Hangs() {
        return false;
      }
      busy := None;
      if hop < MAX_GROUP_HOPS {
        var next := Others(reply.mentions, members, bot);
        ghost var done := RunAll(world, members, State(), next, hop + 1);
        for i := 0 to |next|
          invariant RunAll(world, members, State(), next[i..], hop + 1) == done
        {
          assert next[i..][1..] == next[i + 1..];
          if next[i] !in spoken {
            ok := RunGroupMemberTurn(world, members, next[i], hop + 1);
            if !ok {
              return false;
            }
          }
        }
      }
      return true;
    }

    /** The queued part of `startGroupTurn`. */
    method StartGroupTurn(world: World, members: set<BotId>, responders: seq<BotId>)
      modifies this
      ensures State() == Message(world, members, old(busy), responders)
    {
      spoken, asks := {}, [];
      if busy.Some? {
        return;
      }
      ghost var done := RunAll(world, members, State(), responders, 0);
      for i := 0 to |responders|
        invariant RunAll(world, members, State(), responders[i..], 0) == done
      {
        assert responders[i..][1..] == responders[i + 1..];
        if responders[i] !in spoken {
          var ok := RunGroupMemberTurn(world, members, responders[i], 0);
          if !ok {
            return;
          }
        }
      }
    }
  }
}
