/**
  * Exporting a workspace as a package, and the checks of uniqueness and reference that reading a
  * package makes. Slugs are a parameter; only keys, references and playbooks are kept.
  */
module PackageExport {
  import opened Collections
  import opened Wrappers
  import opened PackageKeys

  type Id = nat

  datatype Playbook = Playbook(key: string, name: string, summary: string, instructions: string, triggers: seq<string>)

  datatype Bot = Bot(id: Id, name: string, hidden: bool, chief: bool, playbooks: seq<Playbook>)

  datatype Responder<+A> = Agent(agent: A) | Everyone | Mentions

  datatype Group = Group(name: string, dm: bool, members: seq<Id>, responder: Responder<Id>)

  datatype Routine = Routine(name: string, bot: Id)

  datatype PackageAgent = PackageAgent(key: string, name: string, playbooks: seq<string>)

  datatype PackageRoom = PackageRoom(key: string, members: seq<string>, responder: Responder<string>)

  datatype PackageRoutine = PackageRoutine(key: string, agent: string)

  datatype Package = Package(agents: seq<PackageAgent>, playbooks: seq<Playbook>, rooms: seq<PackageRoom>,
                             routines: seq<PackageRoutine>, chief: Option<string>)

  datatype Problem =
    | DuplicateAgent | DuplicatePlaybook | DuplicateRoom | DuplicateRoutine | UnknownChief
    | UnknownPlaybook | DuplicateMember | UnknownMember | UnknownResponder | UnknownRoutineAgent
    | NoBots

  ghost predicate NoDuplicates<T>(s: seq<T>) {
    forall i, j :: 0 <= i < j < |s| ==> s[i] != s[j]
  }

  function AgentKeys(p: Package): (r: seq<string>)
    ensures |r| == |p.agents| && forall i :: 0 <= i < |r| ==> r[i] == p.agents[i].key
  {
    seq(|p.agents|, i requires 0 <= i < |p.agents| => p.agents[i].key)
  }

  function PlaybookKeys(s: seq<Playbook>): (r: seq<string>)
    ensures |r| == |s| && forall i :: 0 <= i < |r| ==> r[i] == s[i].key
  {
    seq(|s|, i requires 0 <= i < |s| => s[i].key)
  }

  function RoomKeys(s: seq<PackageRoom>): (r: seq<string>)
    ensures |r| == |s| && forall i :: 0 <= i < |r| ==> r[i] == s[i].key
  {
    seq(|s|, i requires 0 <= i < |s| => s[i].key)
  }

  function RoutineKeys(s: seq<PackageRoutine>): (r: seq<string>)
    ensures |r| == |s| && forall i :: 0 <= i < |r| ==> r[i] == s[i].key
  {
    seq(|s|, i requires 0 <= i < |s| => s[i].key)
  }

  // ---- Reading a package ----

  /** What a package must meet to be read. */
  ghost predicate RoomFits(r: PackageRoom, agents: seq<string>) {
    && NoDuplicates(r.members) && (forall k :: k in r.members ==> k in agents)
    && (r.responder.Agent? ==> r.responder.agent in r.members)
  }

  ghost predicate Fits(p: Package) {
    && NoDuplicates(AgentKeys(p)) && NoDuplicates(PlaybookKeys(p.playbooks))
    && NoDuplicates(RoomKeys(p.rooms)) && NoDuplicates(RoutineKeys(p.routines))
    && (p.chief.Some? ==> p.chief.value in AgentKeys(p))
    && (forall a, k :: a in p.agents && k in a.playbooks ==> k in PlaybookKeys(p.playbooks))
    && (forall r :: r in p.rooms ==> RoomFits(r, AgentKeys(p)))
    && (forall r :: r in p.routines ==> r.agent in AgentKeys(p))
  }

  /** Problems in the order the reader looks for them. */
  ghost function RoomProblem(r: PackageRoom, agents: seq<string>): Option<Problem> {
    if !NoDuplicates(r.members) then Some(DuplicateMember)
    else if exists k :: k in r.members && k !in agents then Some(UnknownMember)
    else if r.responder.Agent? && r.responder.agent !in r.members then Some(UnknownResponder)
    else None
  }

  /** The problem of the first room that has one. */
  ghost function RoomsProblem(rooms: seq<PackageRoom>, agents: seq<string>): Option<Problem> {
    if rooms == [] then None
    else if RoomsProblem(rooms[..|rooms| - 1], agents).Some? then RoomsProblem(rooms[..|rooms| - 1], agents)
    else RoomProblem(rooms[|rooms| - 1], agents)
  }

  ghost function FirstProblem(p: Package): Option<Problem> {
    if !NoDuplicates(AgentKeys(p)) then Some(DuplicateAgent)
    else if !NoDuplicates(PlaybookKeys(p.playbooks)) then Some(DuplicatePlaybook)
    else if !NoDuplicates(RoomKeys(p.rooms)) then Some(DuplicateRoom)
    else if !NoDuplicates(RoutineKeys(p.routines)) then Some(DuplicateRoutine)
    else if p.chief.Some? && p.chief.value !in AgentKeys(p) then Some(UnknownChief)
    else if exists a, k :: a in p.agents && k in a.playbooks && k !in PlaybookKeys(p.playbooks)
      then Some(UnknownPlaybook)
    else if RoomsProblem(p.rooms, AgentKeys(p)).Some? then RoomsProblem(p.rooms, AgentKeys(p))
    else if exists r :: r in p.routines && r.agent !in AgentKeys(p) then Some(UnknownRoutineAgent)
    else None
  }

  lemma OneRoom(r: PackageRoom, agents: seq<string>)
    ensures RoomProblem(r, agents).None? <==> RoomFits(r, agents)
  {
  }

  lemma {:induction false} NoRoomProblem(rooms: seq<PackageRoom>, agents: seq<string>)
    ensures RoomsProblem(rooms, agents).None? <==> forall r :: r in rooms ==> RoomFits(r, agents)
  {
    if rooms != [] {
      var init, last := rooms[..|rooms| - 1], rooms[|rooms| - 1];
      NoRoomProblem(init, agents);
      OneRoom(last, agents);
      assert forall r :: r in rooms <==> r in init || r == last;
      assert RoomsProblem(rooms, agents).None? <==> RoomsProblem(init, agents).None? && RoomProblem(last, agents).None?;
    }
  }

  /** A package is read without a problem exactly when it fits. */
  lemma ReadExactlyWhenFit(p: Package)
    ensures FirstProblem(p).None? <==> Fits(p)
  {
    NoRoomProblem(p.rooms, AgentKeys(p));
  }

  /** The `unique` helper: the set of the values, or nothing when one repeats. */
  method Unique(values: seq<string>) returns (seen: Option<set<string>>)
    ensures seen.Some? <==> NoDuplicates(values)
    ensures seen.Some? ==> forall v :: v in seen.value <==> v in values
  {
    var found: set<string> := {};
    for i := 0 to |values|
      invariant forall v :: v in found <==> v in values[..i]
      invariant NoDuplicates(values[..i])
    {
      if values[i] in found {
        var j :| 0 <= j < i && values[j] == values[i];
        return None;
      }
      assert values[..i + 1] == values[..i] + [values[i]];
      found := found + {values[i]};
    }
    assert values[..|values|] == values;
    return Some(found);
  }

  method CheckAgents(agents: seq<PackageAgent>, playbooks: set<string>) returns (ok: bool)
    ensures ok <==> forall a, k :: a in agents && k in a.playbooks ==> k in playbooks
  {
    for i := 0 to |agents|
      invariant forall a, k :: a in agents[..i] && k in a.playbooks ==> k in playbooks
    {
      var list := agents[i].playbooks;
      for j := 0 to |list|
        invariant forall k :: k in list[..j] ==> k in playbooks
      {
        if list[j] !in playbooks {
          assert agents[i] in agents && list[j] in agents[i].playbooks;
          return false;
        }
        assert list[..j + 1] == list[..j] + [list[j]];
      }
      assert list[..|list|] == list;
      assert agents[..i + 1] == agents[..i] + [agents[i]];
    }
    assert agents[..|agents|] == agents;
    return true;
  }

  method CheckRoom(room: PackageRoom, agents: set<string>, ghost keys: seq<string>) returns (problem: Option<Problem>)
    requires forall k :: k in agents <==> k in keys
    ensures problem == RoomProblem(room, keys)
  {
    var members := Unique(room.members);
    if members.None? {
      return Some(DuplicateMember);
    }
    var list := room.members;
    for j := 0 to |list|
      invariant forall k :: k in list[..j] ==> k in agents
    {
      if list[j] !in agents {
        return Some(UnknownMember);
      }
      assert list[..j + 1] == list[..j] + [list[j]];
    }
    assert list[..|list|] == list;
    if room.responder.Agent? && room.responder.agent !in members.value {
      return Some(UnknownResponder);
    }
    return None;
  }

  lemma {:induction false} FirstRoomProblem(rooms: seq<PackageRoom>, i: nat, keys: seq<string>)
    requires i < |rooms| && RoomsProblem(rooms[..i], keys).None? && RoomProblem(rooms[i], keys).Some?
    ensures RoomsProblem(rooms, keys) == RoomProblem(rooms[i], keys)
  {
    var init := rooms[..|rooms| - 1];
    if i < |init| {
      assert init[..i] == rooms[..i];
      FirstRoomProblem(init, i, keys);
    }
  }

  method CheckRooms(rooms: seq<PackageRoom>, agents: set<string>, ghost keys: seq<string>)
    returns (problem: Option<Problem>)
    requires forall k :: k in agents <==> k in keys
    ensures problem == RoomsProblem(rooms, keys)
  {
    for i := 0 to |rooms|
      invariant RoomsProblem(rooms[..i], keys).None?
    {
      problem := CheckRoom(rooms[i], agents, keys);
      assert rooms[..i + 1][..i] == rooms[..i];
      if problem.Some? {
        FirstRoomProblem(rooms, i, keys);
        return;
      }
    }
    assert rooms[..|rooms|] == rooms;
    return None;
  }

  method CheckRoutines(routines: seq<PackageRoutine>, agents: set<string>) returns (ok: bool)
    ensures ok <==> forall r :: r in routines ==> r.agent in agents
  {
    for i := 0 to |routines|
      invariant forall r :: r in routines[..i] ==> r.agent in agents
    {
      if routines[i].agent !in agents {
        assert routines[i] in routines;
        return false;
      }
      assert routines[..i + 1] == routines[..i] + [routines[i]];
    }
    assert routines[..|routines|] == routines;
    return true;
  }

  /** The cross-reference part of `parseBotPackage`: the first problem it meets, or none. */
  method ParsePackage(p: Package) returns (problem: Option<Problem>)
    ensures problem == FirstProblem(p)
  {
    var agents := Unique(AgentKeys(p));
    if agents.None? {
      return Some(DuplicateAgent);
    }
    var playbooks := Unique(PlaybookKeys(p.playbooks));
    if playbooks.None? {
      return Some(DuplicatePlaybook);
    }
    var rooms := Unique(RoomKeys(p.rooms));
    if rooms.None? {
      return Some(DuplicateRoom);
    }
    var routines := Unique(RoutineKeys(p.routines));
    if routines.None? {
      return Some(DuplicateRoutine);
    }
    if p.chief.Some? && p.chief.value !in agents.value {
      return Some(UnknownChief);
    }
    var known := CheckAgents(p.agents, playbooks.value);
    if !known {
      return Some(UnknownPlaybook);
    }
    problem := CheckRooms(p.rooms, agents.value, AgentKeys(p));
    if problem.Some? {
      return;
    }
    var staffed := CheckRoutines(p.routines, agents.value);
    return if staffed then None else Some(UnknownRoutineAgent);
  }

  // ---- Making a package ----

  predicate SamePlaybook(a: Playbook, b: Playbook) {
    && a.name == b.name && a.summary == b.summary && a.instructions == b.instructions
    && Join(a.triggers) == Join(b.triggers)
  }

  function Visible(bots: seq<Bot>): (r: seq<Bot>)
    ensures forall b :: b in r <==> b in bots && !b.hidden
  {
    if bots == [] then [] else (if bots[0].hidden then [] else [bots[0]]) + Visible(bots[1..])
  }

  /** Every bot id has a used key, and different ids have different keys. */
  ghost predicate Keyed(bots: seq<Bot>, keys: map<Id, string>, used: set<string>) {
    && (forall b :: b in bots ==> b.id in keys && keys[b.id] in used)
    && (forall id :: id in keys ==> exists b :: b in bots && b.id == id)
    && forall i, j :: i in keys && j in keys && i != j ==> keys[i] != keys[j]
  }

  method AssignKeys(slug: string -> string, bots: seq<Bot>) returns (keys: map<Id, string>)
    ensures exists used :: Keyed(bots, keys, used)
  {
    var used: set<string> := {};
    keys := map[];
    for i := 0 to |bots|
      invariant Keyed(bots[..i], keys, used)
    {
      var key, now := PortableKey(slug, bots[i].name, "bot-" + Decimal(i + 1), used);
      assert bots[..i + 1] == bots[..i] + [bots[i]];
      assert forall id :: id in keys ==> keys[id] in used;
      keys, used := keys[bots[i].id := key], now;
    }
    assert bots[..|bots|] == bots;
  }

  /** The entry of a playbook list with this key. */
  function FindPlaybook(list: seq<Playbook>, key: string): (r: Option<Playbook>)
    ensures r.Some? ==> r.value in list && r.value.key == key
    ensures r.None? ==> forall p :: p in list ==> p.key != key
  {
    if list == [] then None else if list[0].key == key then Some(list[0]) else FindPlaybook(list[1..], key)
  }

  /** The i-th assigned key names an entry that says what the i-th playbook says. */
  ghost predicate Faithful(own: seq<Playbook>, chosen: seq<string>, list: seq<Playbook>) {
    |chosen| == |own| && forall i :: 0 <= i < |own| ==> Names(chosen[i], own[i], list)
  }

  ghost predicate Names(key: string, own: Playbook, list: seq<Playbook>) {
    exists p :: p in list && p.key == key && SamePlaybook(own, p)
  }

  ghost predicate ListKeyed(list: seq<Playbook>, used: set<string>) {
    NoDuplicates(PlaybookKeys(list)) && forall p :: p in list ==> p.key in used
  }

  /** One playbook of one bot. */
  method AssignPlaybook(slug: string -> string, agentKey: string, own: Playbook, list: seq<Playbook>, used: set<string>)
    returns (key: string, after: seq<Playbook>, now: set<string>)
    requires ListKeyed(list, used)
    ensures ListKeyed(after, now) && list <= after
    ensures Names(key, own, after)
    ensures FindPlaybook(list, own.key).Some? && SamePlaybook(own, FindPlaybook(list, own.key).value) ==>
              key == own.key && after == list
  {
    var existing := FindPlaybook(list, own.key);
    if existing.Some? && SamePlaybook(own, existing.value) {
      return existing.value.key, list, used;
    }
    key := own.key;
    if existing.Some? {
      key := agentKey + "-" + own.key;
    }
    key, now := PortableKey(slug, key, agentKey + "-playbook", used);
    after := list + [own.(key := key)];
    assert own.(key := key) in after;
    assert PlaybookKeys(after) == PlaybookKeys(list) + [key];
    assert forall k :: k in PlaybookKeys(list) ==> k in used;
  }

  method AssignToBot(slug: string -> string, agentKey: string, own: seq<Playbook>, list: seq<Playbook>,
                     used: set<string>)
    returns (chosen: seq<string>, after: seq<Playbook>, now: set<string>)
    requires ListKeyed(list, used)
    ensures ListKeyed(after, now) && list <= after
    ensures Faithful(own, chosen, after)
  {
    chosen, after, now := [], list, used;
    for i := 0 to |own|
      invariant ListKeyed(after, now) && list <= after
      invariant Faithful(own[..i], chosen, after)
    {
      var key, longer, more := AssignPlaybook(slug, agentKey, own[i], after, now);
      assert own[..i + 1] == own[..i] + [own[i]];
      chosen, after, now := chosen + [key], longer, more;
    }
    assert own[..|own|] == own;
  }

  /** Per bot id the keys of that bot's playbooks; a later bot with the same id overrides. */
  ghost predicate AllFaithful(bots: seq<Bot>, byBot: map<Id, seq<string>>, list: seq<Playbook>) {
    && (forall b :: b in bots ==> b.id in byBot)
    && forall id :: id in byBot ==> exists b :: b in bots && b.id == id && Faithful(b.playbooks, byBot[id], list)
  }

  method AssignPlaybooks(slug: string -> string, bots: seq<Bot>, keys: map<Id, string>)
    returns (list: seq<Playbook>, byBot: map<Id, seq<string>>)
    requires forall b :: b in bots ==> b.id in keys
    ensures NoDuplicates(PlaybookKeys(list)) && AllFaithful(bots, byBot, list)
  {
    var used: set<string> := {};
    list, byBot := [], map[];
    for i := 0 to |bots|
      invariant ListKeyed(list, used) && AllFaithful(bots[..i], byBot, list)
    {
      var chosen, longer, now := AssignToBot(slug, keys[bots[i].id], bots[i].playbooks, list, used);
      assert bots[..i + 1] == bots[..i] + [bots[i]];
      list, used, byBot := longer, now, byBot[bots[i].id := chosen];
    }
    assert bots[..|bots|] == bots;
  }

  /** The members that are exported, as bots and as keys. */
  function Exported(members: seq<Id>, keys: map<Id, string>): (r: seq<Id>)
    ensures forall m :: m in r <==> m in members && m in keys
  {
    if members == [] then []
    else Exported(members[..|members| - 1], keys)
         + if members[|members| - 1] in keys then [members[|members| - 1]] else []
  }

  function KeysOf(members: seq<Id>, keys: map<Id, string>): (r: seq<string>)
    requires forall m :: m in members ==> m in keys
    ensures |r| == |members| && forall i :: 0 <= i < |r| ==> r[i] == keys[members[i]]
  {
    seq(|members|, i requires 0 <= i < |members| => keys[members[i]])
  }

  predicate Kept(g: Group, keys: map<Id, string>) {
    !g.dm && Exported(g.members, keys) != []
  }

  function KeptGroups(groups: seq<Group>, keys: map<Id, string>): (r: seq<Group>)
    ensures forall g :: g in r <==> g in groups && Kept(g, keys)
  {
    if groups == [] then []
    else KeptGroups(groups[..|groups| - 1], keys)
         + if Kept(groups[|groups| - 1], keys) then [groups[|groups| - 1]] else []
  }

  function ResponderOf(g: Group, keys: map<Id, string>): Responder<string> {
    match g.responder
    case Agent(id) => if id in keys then Agent(keys[id]) else Mentions
    case Everyone => Everyone
    case Mentions => Mentions
  }

  /** The room of a group: its exported members and its responder, under their keys. */
  predicate RoomOf(g: Group, keys: map<Id, string>, r: PackageRoom) {
    r.members == KeysOf(Exported(g.members, keys), keys) && r.responder == ResponderOf(g, keys)
  }

  ghost predicate RoomsOf(groups: seq<Group>, keys: map<Id, string>, rooms: seq<PackageRoom>) {
    var kept := KeptGroups(groups, keys);
    && |rooms| == |kept| && NoDuplicates(RoomKeys(rooms))
    && forall i :: 0 <= i < |rooms| ==> RoomOf(kept[i], keys, rooms[i])
  }

  method ExportedKeys(members: seq<Id>, keys: map<Id, string>) returns (list: seq<string>)
    ensures list == KeysOf(Exported(members, keys), keys)
  {
    list := [];
    for i := 0 to |members|
      invariant list == KeysOf(Exported(members[..i], keys), keys)
    {
      assert members[..i + 1][..i] == members[..i];
      if members[i] in keys {
        list := list + [keys[members[i]]];
      }
    }
    assert members[..|members|] == members;
  }

  lemma RoomsOfStep(groups: seq<Group>, g: Group, keys: map<Id, string>, rooms: seq<PackageRoom>, r: PackageRoom)
    requires RoomsOf(groups, keys, rooms) && Kept(g, keys) && RoomOf(g, keys, r) && r.key !in RoomKeys(rooms)
    ensures RoomsOf(groups + [g], keys, rooms + [r])
  {
    assert (groups + [g])[..|groups|] == groups;
    assert RoomKeys(rooms + [r]) == RoomKeys(rooms) + [r.key];
  }

  method ExportRooms(slug: string -> string, groups: seq<Group>, keys: map<Id, string>)
    returns (rooms: seq<PackageRoom>)
    ensures RoomsOf(groups, keys, rooms)
  {
    var used: set<string> := {};
    var index := 0;
    rooms := [];
    for i := 0 to |groups|
      invariant RoomsOf(groups[..i], keys, rooms) && forall r :: r in rooms ==> r.key in used
    {
      var g := groups[i];
      assert groups[..i + 1] == groups[..i] + [g];
      var members := ExportedKeys(g.members, keys);
      if g.dm || members == [] {
      } else {
        var key, now := PortableKey(slug, g.name, "room-" + Decimal(index + 1), used);
        var room := PackageRoom(key, members, ResponderOf(g, keys));
        assert forall k :: k in RoomKeys(rooms) ==> k in used;
        RoomsOfStep(groups[..i], g, keys, rooms, room);
        rooms, used := rooms + [room], now;
      }
      index := if g.dm then index else index + 1;
    }
    assert groups[..|groups|] == groups;
  }

  function KeptRoutines(routines: seq<Routine>, keys: map<Id, string>): (r: seq<Routine>)
    ensures forall x :: x in r <==> x in routines && x.bot in keys
  {
    if routines == [] then []
    else KeptRoutines(routines[..|routines| - 1], keys)
         + if routines[|routines| - 1].bot in keys then [routines[|routines| - 1]] else []
  }

  ghost predicate RoutinesOf(routines: seq<Routine>, keys: map<Id, string>, out: seq<PackageRoutine>) {
    var kept := KeptRoutines(routines, keys);
    && |out| == |kept| && NoDuplicates(RoutineKeys(out))
    && forall i :: 0 <= i < |out| ==> out[i].agent == keys[kept[i].bot]
  }

  method ExportRoutines(slug: string -> string, routines: seq<Routine>, keys: map<Id, string>)
    returns (out: seq<PackageRoutine>)
    ensures RoutinesOf(routines, keys, out)
  {
    var used: set<string> := {};
    out := [];
    for i := 0 to |routines|
      invariant RoutinesOf(routines[..i], keys, out) && forall r :: r in out ==> r.key in used
    {
      assert routines[..i + 1][..i] == routines[..i];
      if routines[i].bot in keys {
        var key, now := PortableKey(slug, routines[i].name, "routine-" + Decimal(i + 1), used);
        assert RoutineKeys(out + [PackageRoutine(key, keys[routines[i].bot])]) == RoutineKeys(out) + [key];
        assert forall k :: k in RoutineKeys(out) ==> k in used;
        out, used := out + [PackageRoutine(key, keys[routines[i].bot])], now;
      }
    }
    assert routines[..|routines|] == routines;
  }

  /** Each bot's agent carries its key and its playbook keys, in order. */
  ghost predicate AgentsOf(bots: seq<Bot>, keys: map<Id, string>, byBot: map<Id, seq<string>>,
                           agents: seq<PackageAgent>)
  {
    |agents| == |bots| && forall i :: 0 <= i < |bots| ==> AgentOf(bots[i], keys, byBot, agents[i])
  }

  predicate AgentOf(b: Bot, keys: map<Id, string>, byBot: map<Id, seq<string>>, a: PackageAgent) {
    b.id in keys && b.id in byBot && a == PackageAgent(keys[b.id], b.name, byBot[b.id])
  }

  ghost predicate ChiefOf(bots: seq<Bot>, keys: map<Id, string>, chief: Option<string>) {
    (chief.None? <==> forall b :: b in bots ==> !b.chief)
    && (chief.Some? ==> exists b :: b in bots && b.chief && b.id in keys && keys[b.id] == chief.value)
  }

  /** How a package comes from the visible bots, the groups and the routines. */
  ghost predicate Built(bots: seq<Bot>, groups: seq<Group>, routines: seq<Routine>,
                        keys: map<Id, string>, byBot: map<Id, seq<string>>, p: Package) {
    && (exists used :: Keyed(bots, keys, used))
    && AgentsOf(bots, keys, byBot, p.agents)
    && NoDuplicates(PlaybookKeys(p.playbooks)) && AllFaithful(bots, byBot, p.playbooks)
    && RoomsOf(groups, keys, p.rooms) && RoutinesOf(routines, keys, p.routines) && ChiefOf(bots, keys, p.chief)
  }

  method FindChief(bots: seq<Bot>, keys: map<Id, string>) returns (chief: Option<string>)
    requires forall b :: b in bots ==> b.id in keys
    ensures ChiefOf(bots, keys, chief)
  {
    for i := 0 to |bots|
      invariant forall b :: b in bots[..i] ==> !b.chief
    {
      if bots[i].chief {
        assert bots[i] in bots;
        return Some(keys[bots[i].id]);
      }
      assert bots[..i + 1] == bots[..i] + [bots[i]];
    }
    assert bots[..|bots|] == bots;
    return None;
  }

  method BuildPackage(slug: string -> string, bots: seq<Bot>, groups: seq<Group>, routines: seq<Routine>)
    returns (p: Package, ghost keys: map<Id, string>, ghost byBot: map<Id, seq<string>>)
    ensures Built(bots, groups, routines, keys, byBot, p)
  {
    var idToKey := AssignKeys(slug, bots);
    var playbooks, agentPlaybooks := AssignPlaybooks(slug, bots, idToKey);
    var rooms := ExportRooms(slug, groups, idToKey);
    var out := ExportRoutines(slug, routines, idToKey);
    var agents := seq(|bots|, i requires 0 <= i < |bots| && bots[i] in bots && bots[i].id in idToKey
                                         && bots[i].id in agentPlaybooks =>
      PackageAgent(idToKey[bots[i].id], bots[i].name, agentPlaybooks[bots[i].id]));
    var chief := FindChief(bots, idToKey);
    p := Package(agents, playbooks, rooms, out, chief);
    keys, byBot := idToKey, agentPlaybooks;
  }

  // ---- When the export can be read back ----

  function Ids(bots: seq<Bot>): (r: seq<Id>)
    ensures |r| == |bots| && forall i :: 0 <= i < |r| ==> r[i] == bots[i].id
  {
    seq(|bots|, i requires 0 <= i < |bots| => bots[i].id)
  }

  function IdSet(bots: seq<Bot>): (r: set<Id>)
    ensures forall id :: id in r <==> id in Ids(bots)
  {
    set id | id in Ids(bots)
  }

  function Among(members: seq<Id>, ids: set<Id>): (r: seq<Id>)
    ensures forall m :: m in r <==> m in members && m in ids
  {
    if members == [] then []
    else Among(members[..|members| - 1], ids)
         + if members[|members| - 1] in ids then [members[|members| - 1]] else []
  }

  /** A group no visible member of which is listed twice, and whose visible responder is a member. */
  ghost predicate GroupSane(g: Group, ids: set<Id>) {
    && NoDuplicates(Among(g.members, ids))
    && (g.responder.Agent? && g.responder.agent in ids ==> g.responder.agent in g.members)
  }

  ghost predicate Sane(bots: seq<Bot>, groups: seq<Group>) {
    && NoDuplicates(Ids(bots))
    && forall g :: g in groups && !g.dm && Among(g.members, IdSet(bots)) != [] ==> GroupSane(g, IdSet(bots))
  }

  lemma {:induction false} ExportedIsAmong(members: seq<Id>, keys: map<Id, string>, ids: set<Id>)
    requires keys.Keys == ids
    ensures Exported(members, keys) == Among(members, ids)
  {
    if members != [] {
      ExportedIsAmong(members[..|members| - 1], keys, ids);
    }
  }

  ghost predicate Injective(keys: map<Id, string>) {
    forall i, j :: i in keys && j in keys && i != j ==> keys[i] != keys[j]
  }

  lemma RoomFitsIffSane(g: Group, keys: map<Id, string>, ids: set<Id>, r: PackageRoom, agents: seq<string>)
    requires Injective(keys) && keys.Keys == ids && RoomOf(g, keys, r)
    requires forall id :: id in ids ==> keys[id] in agents
    ensures RoomFits(r, agents) <==> GroupSane(g, ids)
  {
    ExportedIsAmong(g.members, keys, ids);
    var list := Exported(g.members, keys);
    forall k | k in r.members ensures k in agents {
      var i :| 0 <= i < |list| && k == keys[list[i]];
      assert list[i] in list;
    }
    if g.responder.Agent? && g.responder.agent in ids {
      var a := g.responder.agent;
      if a in g.members {
        var i :| 0 <= i < |list| && list[i] == a;
        assert r.members[i] == keys[a];
      }
      if keys[a] in r.members {
        var i :| 0 <= i < |list| && keys[list[i]] == keys[a];
        assert list[i] in list;
      }
    }
  }

  lemma AgentKeysDistinct(bots: seq<Bot>, keys: map<Id, string>, byBot: map<Id, seq<string>>, p: Package)
    requires Injective(keys) && AgentsOf(bots, keys, byBot, p.agents)
    ensures NoDuplicates(AgentKeys(p)) <==> NoDuplicates(Ids(bots))
    ensures forall b :: b in bots ==> b.id in keys && keys[b.id] in AgentKeys(p)
  {
    var list := AgentKeys(p);
    forall b | b in bots ensures b.id in keys && keys[b.id] in list {
      var i :| 0 <= i < |bots| && bots[i] == b;
      assert AgentOf(bots[i], keys, byBot, p.agents[i]) && list[i] == keys[b.id];
    }
    assert forall i :: 0 <= i < |bots| ==> AgentOf(bots[i], keys, byBot, p.agents[i]);
    if !NoDuplicates(Ids(bots)) {
      var i, j :| 0 <= i < j < |bots| && bots[i].id == bots[j].id;
      assert list[i] == list[j];
    }
  }

  lemma PlaybooksKnown(bots: seq<Bot>, keys: map<Id, string>, byBot: map<Id, seq<string>>, p: Package)
    requires AgentsOf(bots, keys, byBot, p.agents) && AllFaithful(bots, byBot, p.playbooks)
    ensures forall a, k :: a in p.agents && k in a.playbooks ==> k in PlaybookKeys(p.playbooks)
  {
    forall a, k | a in p.agents && k in a.playbooks ensures k in PlaybookKeys(p.playbooks) {
      var i :| 0 <= i < |p.agents| && p.agents[i] == a;
      var id := bots[i].id;
      assert AgentOf(bots[i], keys, byBot, a) && a.playbooks == byBot[id];
      var b :| b in bots && b.id == id && Faithful(b.playbooks, byBot[id], p.playbooks);
    }
  }

  lemma KeysAreIds(bots: seq<Bot>, keys: map<Id, string>, used: set<string>)
    requires Keyed(bots, keys, used)
    ensures keys.Keys == IdSet(bots) && Injective(keys)
  {
    forall id ensures id in keys <==> id in IdSet(bots) {
      if id in keys {
        var b :| b in bots && b.id == id;
        var i :| 0 <= i < |bots| && bots[i] == b;
        assert Ids(bots)[i] == id;
      }
      if id in IdSet(bots) {
        var i :| 0 <= i < |bots| && Ids(bots)[i] == id;
        assert bots[i] in bots;
      }
    }
  }

  lemma RoomsFit(bots: seq<Bot>, groups: seq<Group>, keys: map<Id, string>, rooms: seq<PackageRoom>,
                 agents: seq<string>)
    requires RoomsOf(groups, keys, rooms) && Injective(keys) && keys.Keys == IdSet(bots)
    requires forall id :: id in keys ==> keys[id] in agents
    ensures (forall r :: r in rooms ==> RoomFits(r, agents)) <==>
            forall g :: g in groups && !g.dm && Among(g.members, IdSet(bots)) != [] ==> GroupSane(g, IdSet(bots))
  {
    var kept, ids := KeptGroups(groups, keys), IdSet(bots);
    forall i | 0 <= i < |rooms| ensures RoomFits(rooms[i], agents) <==> GroupSane(kept[i], ids) {
      RoomFitsIffSane(kept[i], keys, ids, rooms[i], agents);
    }
    forall g | g in groups ensures (!g.dm && Among(g.members, ids) != []) <==> g in kept {
      ExportedIsAmong(g.members, keys, ids);
    }
    if forall r :: r in rooms ==> RoomFits(r, agents) {
      forall g | g in kept ensures GroupSane(g, ids) {
        var i :| 0 <= i < |kept| && kept[i] == g;
        assert rooms[i] in rooms;
      }
    }
    if forall g :: g in kept ==> GroupSane(g, ids) {
      forall r | r in rooms ensures RoomFits(r, agents) {
        var i :| 0 <= i < |rooms| && rooms[i] == r;
        assert kept[i] in kept;
      }
    }
  }

  /** An export passes every uniqueness and reference check of the reader exactly when the bot ids are
    * distinct, no exported room lists a visible bot twice, and every visible default responder is a member. */
  lemma ExportFitsExactlyWhenSane(bots: seq<Bot>, groups: seq<Group>, routines: seq<Routine>,
                                  keys: map<Id, string>, byBot: map<Id, seq<string>>, p: Package)
    requires Built(bots, groups, routines, keys, byBot, p)
    ensures Fits(p) <==> Sane(bots, groups)
  {
    var used :| Keyed(bots, keys, used);
    KeysAreIds(bots, keys, used);
    AgentKeysDistinct(bots, keys, byBot, p);
    var agents := AgentKeys(p);
    forall id | id in keys ensures keys[id] in agents {
      var b :| b in bots && b.id == id;
    }
    PlaybooksKnown(bots, keys, byBot, p);
    RoomsFit(bots, groups, keys, p.rooms, agents);
  }

  /** With distinct ids every agent of the package names, in order, entries that say what its own
    * playbooks say. */
  lemma PlaybooksSurviveExport(bots: seq<Bot>, groups: seq<Group>, routines: seq<Routine>,
                               keys: map<Id, string>, byBot: map<Id, seq<string>>, p: Package, i: nat)
    requires Built(bots, groups, routines, keys, byBot, p) && NoDuplicates(Ids(bots)) && i < |bots|
    ensures Faithful(bots[i].playbooks, p.agents[i].playbooks, p.playbooks)
  {
    var id := bots[i].id;
    assert AgentOf(bots[i], keys, byBot, p.agents[i]);
    var b :| b in bots && b.id == id && Faithful(b.playbooks, byBot[id], p.playbooks);
  }

  /** Triggers are compared joined, so a list and its one-element join count as the same playbook. */
  lemma JoinedTriggersHideTheirSplit(p: Playbook, a: string, b: string)
    ensures SamePlaybook(p.(triggers := [a, b]), p.(triggers := [a + "\n" + b]))
  {
    assert [a, b][..1] == [a];
  }

  /** `createBotPackageExport` */
  method CreateBotPackageExport(slug: string -> string, bots: seq<Bot>, groups: seq<Group>, routines: seq<Routine>)
    returns (r: Result<Package, Problem>)
    ensures r.Ok? <==> Visible(bots) != [] && Sane(Visible(bots), groups)
    ensures Visible(bots) == [] ==> r == Err(NoBots)
    ensures r.Ok? ==>
              Fits(r.value) && exists keys, byBot :: Built(Visible(bots), groups, routines, keys, byBot, r.value)
  {
    var visible := Visible(bots);
    if visible == [] {
      return Err(NoBots);
    }
    var p, keys, byBot := BuildPackage(slug, visible, groups, routines);
    ExportFitsExactlyWhenSane(visible, groups, routines, keys, byBot, p);
    ReadExactlyWhenFit(p);
    var problem := ParsePackage(p);
    return if problem.Some? then Err(problem.value) else Ok(p);
  }
}
