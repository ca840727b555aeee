/** Everything that shares a Local VM desktop: turns, lifecycle routes, idle
  * expiry, per-bot creation under a limit, and the isolation mode.
  *
  * A state is what the harness holds between two awaits; a step is one
  * synchronous segment, so any run of steps is an interleaving of requests.
  */
module LocalVmFences {
  import opened Collections
  import opened Wrappers
  import opened LocalVmLease

  type OpId = nat

  datatype Mode = SharedMode | PerBotMode

  datatype Target = SharedVm | BotVm(bot: BotId)

  datatype Action = Pull | RunVm | Start | Stop | Remove

  /** How far a per-bot creation has come in deciding whether it fits; `found`
    * are the bots whose desktops the count has come across. */
  datatype Phase =
    | Asking
    | Counting(left: set<BotId>, found: set<BotId>)
    | Acting

  /** A container request in flight. `room` is the limit a creation was let in under. */
  datatype Op =
    | Route(target: Target, action: Action, phase: Phase, room: Option<nat>)
    | IdleRemove(target: Target)

  /** What the user and the clock change on their own. */
  datatype World = World(mode: Mode, limit: nat, bots: set<BotId>, busy: set<BotId>, now: int)

  /** Who uses which desktop: leases, `localVmThreadTargets`, `localVmActiveThreads`. */
  datatype Hold = Hold(leases: map<Target, Record>, threads: map<Thread, Target>, active: map<Target, Thread>)

  /** `localVmLifecycleBusy`, `localVmImageBusy`, `localVmProvisionBusy`, and the mode change under way. */
  datatype Gate = Gate(lifecycle: set<Target>, image: bool, provision: bool, change: Option<Mode>)

  datatype Vm = Vm(
    world: World,
    hold: Hold,
    gate: Gate,
    idle: map<Target, int>,
    ops: map<OpId, Op>,
    containers: set<Target>)

  const LEASE_MS: int := 30 * 60_000
  const IDLE_MS: int := 8 * 60 * 60_000

  datatype Step =
    | Wait(ms: nat)
    | Work(bot: BotId, busy: bool)
    | AddBot(bot: BotId)
    | DeleteBot(bot: BotId)
    | SetLimit(limit: nat)
    | TakeTurn(thread: Thread)
    | RuntimeEvent(thread: Thread)
    | EndTurn(thread: Thread)
    | SharedRoute(id: OpId, action: Action)
    | BotRoute(id: OpId, bot: BotId, action: Action)
    | Asked(id: OpId, runtime: bool)
    | Probed(id: OpId, bot: BotId)
    | Counted(id: OpId)
    | Finished(id: OpId, happened: bool, ok: bool)
    | IdleFires(id: OpId, target: Target)
    | Shown(target: Target)
    | ModeRequest(mode: Mode)
    | ModeSettled(commit: bool)

  // ---- who uses which desktop --------------------------------------------------

  function Get(m: map<Target, Record>, k: Target): Option<Record> {
    if k in m then Some(m[k]) else None
  }

  function Put(m: map<Target, Record>, k: Target, r: Option<Record>): map<Target, Record> {
    if r.Some? then m[k := r.value] else m - {k}
  }

  function TargetFor(mode: Mode, bot: BotId): Target {
    if mode.PerBotMode? then BotVm(bot) else SharedVm
  }

  /** `releaseLocalVmThread`. */
  function Release(h: Hold, t: Thread): Hold {
    if t !in h.threads then h
    else
      var k := h.threads[t];
      Hold(Put(h.leases, k, Released(Get(h.leases, k), t)),
           h.threads - {t},
           if k in h.active && h.active[k] == t then h.active - {k} else h.active)
  }

  function Take(h: Hold, k: Target, r: Record): Hold {
    Hold(h.leases[k := r], h.threads[r.thread := k], h.active[k := r.thread])
  }

  /** `LocalVmLease.current` drops a record that no longer holds. */
  function Inspect(h: Hold, k: Target, w: World): Hold {
    h.(leases := Put(h.leases, k, Checked(Get(h.leases, k), w.busy, w.now)))
  }

  // ---- the segments --------------------------------------------------------------

  /** May `t` have its desktop now? The tests `startTurn` makes before its first await. */
  predicate MayTakeTurn(v: Vm, t: Thread) {
    var k := TargetFor(v.world.mode, t.bot);
    && !v.gate.image && v.gate.change.None? && k !in v.gate.lifecycle
    && MayClaim(Get(v.hold.leases, k), t, v.world.busy, v.world.now)
  }

  /** The idle timer of a desktop starts anew. A screenshot and the loop at boot do no more than this. */
  function Touch(v: Vm, k: Target): Vm {
    v.(idle := v.idle[k := v.world.now + IDLE_MS])
  }

  /** A refusal runs the dispatch error path, which releases the thread. */
  function TakeTurnIn(v: Vm, t: Thread): Vm {
    var k := TargetFor(v.world.mode, t.bot);
    if MayTakeTurn(v, t) then Touch(v.(hold := Take(v.hold, k, Record(t, v.world.now + LEASE_MS))), k)
    else v.(hold := Release(v.hold, t))
  }

  function Fence(v: Vm, id: OpId, op: Op): Vm {
    v.(gate := v.gate.(lifecycle := v.gate.lifecycle + {op.target}, provision := v.gate.provision || Creates(op)),
       ops := v.ops[id := op])
  }

  /** A creation through a bot's own route; only these count against the limit. */
  predicate Creates(op: Op) {
    op.Route? && op.action.RunVm? && op.target.BotVm?
  }

  function SharedRouteIn(v: Vm, id: OpId, action: Action): Vm {
    if v.gate.image || v.gate.change.Some? || SharedVm in v.gate.lifecycle then v
    else if v.world.mode.PerBotMode? && action.RunVm? then v
    else
      var w := v.(hold := Inspect(v.hold, SharedVm, v.world));
      if SharedVm in w.hold.leases && (action.Stop? || action.Remove? || action.RunVm?) then w
      else if action.Pull? then
        w.(gate := w.gate.(image := true), ops := w.ops[id := Route(SharedVm, Pull, Acting, None)])
      else Fence(w, id, Route(SharedVm, action, Acting, None))
  }

  function BotRouteIn(v: Vm, id: OpId, bot: BotId, action: Action): Vm {
    var k := TargetFor(v.world.mode, bot);
    if bot !in v.world.bots || k.SharedVm? then v
    else if v.gate.image || v.gate.change.Some? || k in v.gate.lifecycle then v
    else if action.RunVm? && v.gate.provision then v
    else
      var w := v.(hold := Inspect(v.hold, k, v.world));
      if k in w.hold.leases then w
      else Fence(w, id, Route(k, action, if action.RunVm? then Asking else Acting, None))
  }

  /** The `finally` of a request: its fences open again. */
  function Close(v: Vm, id: OpId): Vm
    requires id in v.ops
  {
    var op := v.ops[id];
    v.(gate :=
         if OnTarget(op) then
           v.gate.(lifecycle := v.gate.lifecycle - {op.target}, provision := v.gate.provision && !Creates(op))
         else v.gate.(image := false),
       ops := v.ops - {id})
  }

  /** A pull works on the image; every other operation works on a desktop. */
  predicate OnTarget(op: Op) {
    op.IdleRemove? || !op.action.Pull?
  }

  /** On failure the container runtime may or may not have acted. */
  function Acted(op: Op, containers: set<Target>, happened: bool): set<Target> {
    if !happened then containers
    else if op.IdleRemove? || op.action.Remove? then containers - {op.target}
    else if op.action.RunVm? then containers + {op.target}
    else containers
  }

  function Rearmed(v: Vm, op: Op, ok: bool): map<Target, int> {
    if op.IdleRemove? then (if ok then v.idle else Touch(v, op.target).idle)
    else if !ok || op.action.Pull? then v.idle
    else if op.action.RunVm? || op.action.Start? then Touch(v, op.target).idle
    else v.idle - {op.target}
  }

  function FinishIn(v: Vm, id: OpId, happened: bool, ok: bool): Vm
    requires id in v.ops
  {
    Close(v, id).(containers := Acted(v.ops[id], v.containers, happened), idle := Rearmed(v, v.ops[id], ok))
  }

  function IdleFiresIn(v: Vm, id: OpId, k: Target): Vm {
    var w := v.(idle := v.idle - {k});
    if v.gate.image || k in v.gate.lifecycle || k in v.hold.active then Touch(w, k)
    else Fence(w, id, IdleRemove(k))
  }

  /** The answer of one container query moves a creation on, or turns it away. */
  function Decide(v: Vm, s: Step): Vm
    requires Enabled(v, s) && (s.Asked? || s.Probed? || s.Counted?)
  {
    var op := v.ops[s.id];
    match s
    case Asked(id, runtime) =>
      if !runtime then Close(v, id)
      else
        v.(ops := v.ops[id := op.(phase := if op.target in v.containers then Acting else Counting(v.world.bots, {}))])
    case Probed(id, bot) =>
      var found := if BotVm(bot) in v.containers then op.phase.found + {bot} else op.phase.found;
      v.(ops := v.ops[id := op.(phase := Counting(op.phase.left - {bot}, found))])
    case Counted(id) =>
      if |op.phase.found| >= v.world.limit then Close(v, id)
      else v.(ops := v.ops[id := op.(phase := Acting, room := Some(v.world.limit))])
  }

  predicate Enabled(v: Vm, s: Step) {
    match s
    case AddBot(bot) => bot !in v.world.bots && BotVm(bot) !in v.containers
    case SharedRoute(id, _) => id !in v.ops
    case BotRoute(id, _, action) => id !in v.ops && (action.RunVm? || action.Stop? || action.Remove?)
    case Asked(id, _) => id in v.ops && v.ops[id].Route? && v.ops[id].phase.Asking?
    case Probed(id, bot) => id in v.ops && v.ops[id].Route? && v.ops[id].phase.Counting? && bot in v.ops[id].phase.left
    case Counted(id) => id in v.ops && v.ops[id].Route? && v.ops[id].phase.Counting? && v.ops[id].phase.left == {}
    case Finished(id, _, _) => id in v.ops && (v.ops[id].Route? ==> v.ops[id].phase.Acting?)
    case IdleFires(id, k) => id !in v.ops && k in v.idle && v.idle[k] <= v.world.now
    case ModeRequest(_) => v.gate.change.None?
    case ModeSettled(_) => v.gate.change.Some?
    case _ => true
  }

  function NextWorld(w: World, s: Step): World {
    match s
    case Wait(ms) => w.(now := w.now + ms)
    case Work(bot, busy) => w.(busy := if busy then w.busy + {bot} else w.busy - {bot})
    case AddBot(bot) => w.(bots := w.bots + {bot})
    case DeleteBot(bot) => w.(bots := w.bots - {bot}, busy := w.busy - {bot})
    case SetLimit(limit) => w.(limit := limit)
    case _ => w
  }

  function Next(v: Vm, s: Step): Vm
    requires Enabled(v, s)
  {
    match s
    case TakeTurn(t) => TakeTurnIn(v, t)
    case RuntimeEvent(t) =>
      if t !in v.hold.threads then v
      else
        var k := v.hold.threads[t];
        Touch(v.(hold := v.hold.(leases :=
          Put(v.hold.leases, k, Touched(Get(v.hold.leases, k), t, v.world.now, LEASE_MS)))), k)
    case EndTurn(t) => v.(hold := Release(v.hold, t))
    case SharedRoute(id, action) => SharedRouteIn(v, id, action)
    case BotRoute(id, bot, action) => BotRouteIn(v, id, bot, action)
    case Asked(_, _) => Decide(v, s)
    case Probed(_, _) => Decide(v, s)
    case Counted(_) => Decide(v, s)
    case Finished(id, happened, ok) => FinishIn(v, id, happened, ok)
    case IdleFires(id, k) => IdleFiresIn(v, id, k)
    case Shown(k) => Touch(v, k)
    case ModeRequest(mode) =>
      if mode == v.world.mode || v.hold.active != map[] || v.gate.lifecycle != {} || v.gate.image then v
      else v.(gate := v.gate.(change := Some(mode)))
    case ModeSettled(commit) =>
      v.(world := v.world.(mode := if commit then v.gate.change.value else v.world.mode),
         gate := v.gate.(change := None))
    case DeleteBot(bot) => v.(world := NextWorld(v.world, s), idle := v.idle - {BotVm(bot)})
    case _ => v.(world := NextWorld(v.world, s))
  }

  // ---- what every interleaving keeps -----------------------------------------

  /** Operations that pull the desktop from under whoever uses it. */
  predicate Disrupts(op: Op) {
    op.IdleRemove? || op.action.RunVm? || op.action.Stop? || op.action.Remove?
  }

  /** Lease, thread and target records agree. */
  ghost predicate Owners(h: Hold, mode: Mode) {
    && (forall k :: k in h.leases ==> k in h.active && h.active[k] == h.leases[k].thread)
    && (forall k :: k in h.active ==> h.active[k] in h.threads && h.threads[h.active[k]] == k)
    && (forall k :: k in h.active ==> k == TargetFor(mode, h.active[k].bot))
  }

  ghost predicate Fences(ops: map<OpId, Op>, gate: Gate, leases: map<Target, Record>) {
    && (forall i :: i in ops && OnTarget(ops[i]) ==> ops[i].target in gate.lifecycle)
    && (forall i :: i in ops && !OnTarget(ops[i]) ==> gate.image)
    && (forall i, j :: i in ops && j in ops && i != j && OnTarget(ops[i]) && OnTarget(ops[j]) ==>
          ops[i].target != ops[j].target)
    && (forall i, j :: i in ops && j in ops && i != j ==> OnTarget(ops[i]) || OnTarget(ops[j]))
    && (forall i :: i in ops && Disrupts(ops[i]) ==> ops[i].target !in leases)
  }

  /** The bots' own desktops that exist. */
  function LiveVms(v: Vm): set<BotId> {
    Among(v.world.bots, v.containers)
  }

  function Among(bots: set<BotId>, containers: set<Target>): set<BotId> {
    set b | b in bots && BotVm(b) in containers
  }

  /** What a creation in flight knows about the number of desktops. */
  ghost predicate Sized(op: Op, bots: set<BotId>, containers: set<Target>)
    requires op.Route?
  {
    match op.phase
    case Asking => op.room.None?
    case Counting(left, found) =>
      op.room.None? && op.target !in containers && Among(bots, containers) <= found + left
    case Acting =>
      if op.room.None? then op.target in containers
      else op.target !in containers && |Among(bots, containers)| < op.room.value
  }

  /** At most one creation is in flight, and it knows its room. */
  ghost predicate Capacity(ops: map<OpId, Op>, provision: bool, bots: set<BotId>, containers: set<Target>) {
    && (forall i :: i in ops && Creates(ops[i]) ==> provision && Sized(ops[i], bots, containers))
    && (forall i, j :: i in ops && j in ops && i != j ==> !(Creates(ops[i]) && Creates(ops[j])))
  }

  ghost predicate OwnersOk(v: Vm) {
    Owners(v.hold, v.world.mode) && (v.gate.change.Some? ==> v.hold.active == map[])
  }

  ghost predicate FencesOk(v: Vm) {
    Fences(v.ops, v.gate, v.hold.leases)
  }

  ghost predicate CapacityOk(v: Vm) {
    Capacity(v.ops, v.gate.provision, v.world.bots, v.containers)
  }

  ghost predicate Inv(v: Vm) {
    OwnersOk(v) && FencesOk(v) && CapacityOk(v)
  }

  // -- owners

  lemma ReleaseOwners(h: Hold, t: Thread, mode: Mode)
    requires Owners(h, mode)
    ensures Owners(Release(h, t), mode)
    ensures forall k :: k in Release(h, t).active ==> k in h.active
    ensures forall k :: k in Release(h, t).leases ==> k in h.leases
  {
  }

  lemma InspectOwners(h: Hold, k: Target, w: World, mode: Mode)
    requires Owners(h, mode)
    ensures Owners(Inspect(h, k, w), mode)
    ensures forall j :: j in Inspect(h, k, w).leases ==> j in h.leases
  {
  }

  lemma TouchOwners(h: Hold, t: Thread, k: Target, now: int, mode: Mode)
    requires Owners(h, mode)
    ensures Owners(h.(leases := Put(h.leases, k, Touched(Get(h.leases, k), t, now, LEASE_MS))), mode)
  {
  }

  lemma OwnersKept(v: Vm, s: Step)
    requires OwnersOk(v) && Enabled(v, s)
    ensures OwnersOk(Next(v, s))
  {
    match s
    case TakeTurn(t) =>
      ReleaseOwners(v.hold, t, v.world.mode);
    case EndTurn(t) => ReleaseOwners(v.hold, t, v.world.mode);
    case RuntimeEvent(t) =>
      if t in v.hold.threads {
        TouchOwners(v.hold, t, v.hold.threads[t], v.world.now, v.world.mode);
      }
    case SharedRoute(_, _) => InspectOwners(v.hold, SharedVm, v.world, v.world.mode);
    case BotRoute(_, bot, _) => InspectOwners(v.hold, TargetFor(v.world.mode, bot), v.world, v.world.mode);
    case _ =>
  }

  // -- fences

  lemma FencesFrame(ops: map<OpId, Op>, gate: Gate, leases: map<Target, Record>, leases': map<Target, Record>)
    requires Fences(ops, gate, leases)
    requires forall k :: k in leases' ==> k in leases || k !in gate.lifecycle
    ensures Fences(ops, gate, leases')
  {
  }

  lemma FenceFences(v: Vm, id: OpId, op: Op)
    requires FencesOk(v) && id !in v.ops && OnTarget(op) && op.target !in v.gate.lifecycle
    requires Disrupts(op) ==> op.target !in v.hold.leases
    ensures FencesOk(Fence(v, id, op))
  {
  }

  lemma RouteFences(v: Vm, s: Step)
    requires OwnersOk(v) && FencesOk(v) && Enabled(v, s) && (s.SharedRoute? || s.BotRoute?)
    ensures FencesOk(Next(v, s))
  {
    var k := if s.SharedRoute? then SharedVm else TargetFor(v.world.mode, s.bot);
    InspectOwners(v.hold, k, v.world, v.world.mode);
    var w := v.(hold := Inspect(v.hold, k, v.world));
    FencesFrame(v.ops, v.gate, v.hold.leases, w.hold.leases);
    if k !in v.gate.lifecycle && !v.gate.image {
      if s.action.Pull? {
      } else if k !in w.hold.leases || s.action.Start? {
        FenceFences(w, s.id, Route(k, s.action, if s.BotRoute? && s.action.RunVm? then Asking else Acting, None));
      }
    }
  }

  lemma DecideFences(v: Vm, s: Step)
    requires FencesOk(v) && Enabled(v, s) && (s.Asked? || s.Probed? || s.Counted?)
    ensures FencesOk(Decide(v, s))
  {
    var w := Decide(v, s);
    if s.id in w.ops {
    }
  }

  lemma FencesKept(v: Vm, s: Step)
    requires OwnersOk(v) && FencesOk(v) && Enabled(v, s)
    ensures FencesOk(Next(v, s))
  {
    match s
    case SharedRoute(_, _) => RouteFences(v, s);
    case BotRoute(_, _, _) => RouteFences(v, s);
    case Asked(_, _) => DecideFences(v, s);
    case Probed(_, _) => DecideFences(v, s);
    case Counted(_) => DecideFences(v, s);
    case Finished(id, _, _) =>
    case IdleFires(id, k) =>
      if k !in v.gate.lifecycle && k !in v.hold.active && !v.gate.image {
        FenceFences(v.(idle := v.idle - {k}), id, IdleRemove(k));
      }
    case ModeRequest(_) =>
    case ModeSettled(_) =>
    case _ => FencesFrame(v.ops, v.gate, v.hold.leases, Next(v, s).hold.leases);
  }

  // -- capacity

  /** Desktops that go away, and the shared one that comes, leave a creation its room. */
  lemma CapacityShrinks(ops: map<OpId, Op>, provision: bool, bots: set<BotId>, containers: set<Target>,
                        ops': map<OpId, Op>, provision': bool, bots': set<BotId>, containers': set<Target>)
    requires Capacity(ops, provision, bots, containers)
    requires Among(bots', containers') <= Among(bots, containers)
    requires forall i :: i in ops' && Creates(ops'[i]) ==>
               && i in ops && ops[i] == ops'[i] && provision'
               && (ops'[i].target in containers <==> ops'[i].target in containers')
    ensures Capacity(ops', provision', bots', containers')
  {
    SubsetSize(Among(bots', containers'), Among(bots, containers));
  }

  lemma RouteCapacity(v: Vm, s: Step)
    requires CapacityOk(v) && Enabled(v, s) && (s.SharedRoute? || s.BotRoute?)
    ensures CapacityOk(Next(v, s))
  {
  }

  lemma DecideCapacity(v: Vm, s: Step)
    requires CapacityOk(v) && Enabled(v, s) && (s.Asked? || s.Probed? || s.Counted?)
    ensures CapacityOk(Decide(v, s))
  {
    if s.Counted? && Creates(v.ops[s.id]) {
      SubsetSize(LiveVms(v), v.ops[s.id].phase.found);
    }
  }

  lemma FinishCapacity(v: Vm, id: OpId, happened: bool, ok: bool)
    requires FencesOk(v) && CapacityOk(v) && Enabled(v, Finished(id, happened, ok))
    ensures CapacityOk(FinishIn(v, id, happened, ok))
  {
    var x := FinishIn(v, id, happened, ok);
    if !Creates(v.ops[id]) {
      CapacityShrinks(v.ops, v.gate.provision, v.world.bots, v.containers,
                      x.ops, x.gate.provision, x.world.bots, x.containers);
    }
  }

  lemma CapacityKept(v: Vm, s: Step)
    requires FencesOk(v) && CapacityOk(v) && Enabled(v, s)
    ensures CapacityOk(Next(v, s))
  {
    match s
    case SharedRoute(_, _) => RouteCapacity(v, s);
    case BotRoute(_, _, _) => RouteCapacity(v, s);
    case Asked(_, _) => DecideCapacity(v, s);
    case Probed(_, _) => DecideCapacity(v, s);
    case Counted(_) => DecideCapacity(v, s);
    case Finished(id, happened, ok) => FinishCapacity(v, id, happened, ok);
    case _ =>
      var w := Next(v, s);
      CapacityShrinks(v.ops, v.gate.provision, v.world.bots, v.containers,
                      w.ops, w.gate.provision, w.world.bots, w.containers);
  }

  lemma StepKeeps(v: Vm, s: Step)
    requires Inv(v) && Enabled(v, s)
    ensures Inv(Next(v, s))
  {
    OwnersKept(v, s);
    FencesKept(v, s);
    CapacityKept(v, s);
  }

  // -- no fence outlives its request

  ghost predicate Working(ops: map<OpId, Op>, k: Target) {
    exists i :: i in ops && OnTarget(ops[i]) && ops[i].target == k
  }

  ghost predicate Pulling(ops: map<OpId, Op>) {
    exists i :: i in ops && !OnTarget(ops[i])
  }

  ghost predicate Creating(ops: map<OpId, Op>) {
    exists i :: i in ops && Creates(ops[i])
  }

  ghost predicate NoLeak(ops: map<OpId, Op>, gate: Gate) {
    && (forall k :: k in gate.lifecycle ==> Working(ops, k))
    && (gate.image ==> Pulling(ops))
    && (gate.provision ==> Creating(ops))
  }

  lemma LeakAdd(ops: map<OpId, Op>, gate: Gate, gate': Gate, id: OpId, op: Op)
    requires NoLeak(ops, gate)
    requires id in ops ==>
               OnTarget(ops[id]) == OnTarget(op) && ops[id].target == op.target && Creates(ops[id]) == Creates(op)
    requires gate'.lifecycle <= gate.lifecycle + (if OnTarget(op) then {op.target} else {})
    requires gate'.image ==> gate.image || !OnTarget(op)
    requires gate'.provision ==> gate.provision || Creates(op)
    ensures NoLeak(ops[id := op], gate')
  {
    var ops' := ops[id := op];
    assert id in ops' && ops'[id] == op;
    forall k | k in gate'.lifecycle ensures Working(ops', k) {
      if k in gate.lifecycle {
        var i :| i in ops && OnTarget(ops[i]) && ops[i].target == k;
        assert i in ops' && OnTarget(ops'[i]) && ops'[i].target == k;
      }
    }
    if gate'.image && OnTarget(op) {
      var i :| i in ops && !OnTarget(ops[i]);
      assert i in ops' && !OnTarget(ops'[i]);
    }
    if gate'.provision && !Creates(op) {
      var i :| i in ops && Creates(ops[i]);
      assert i in ops' && Creates(ops'[i]);
    }
  }

  lemma LeakClose(v: Vm, id: OpId)
    requires FencesOk(v) && CapacityOk(v) && NoLeak(v.ops, v.gate) && id in v.ops
    ensures NoLeak(Close(v, id).ops, Close(v, id).gate)
  {
    var w := Close(v, id);
    forall k | k in w.gate.lifecycle ensures Working(w.ops, k) {
      var i :| i in v.ops && OnTarget(v.ops[i]) && v.ops[i].target == k;
      assert i in w.ops && w.ops[i] == v.ops[i];
    }
    if w.gate.image {
      var i :| i in v.ops && !OnTarget(v.ops[i]);
      assert i in w.ops && w.ops[i] == v.ops[i];
    }
    if w.gate.provision {
      var i :| i in v.ops && Creates(v.ops[i]);
      assert i in w.ops && w.ops[i] == v.ops[i];
    }
  }

  lemma LeakRoute(v: Vm, s: Step)
    requires NoLeak(v.ops, v.gate) && Enabled(v, s) && (s.SharedRoute? || s.BotRoute? || s.IdleFires?)
    ensures NoLeak(Next(v, s).ops, Next(v, s).gate)
  {
    var w := Next(v, s);
    if s.id in w.ops {
      LeakAdd(v.ops, v.gate, w.gate, s.id, w.ops[s.id]);
    }
  }

  lemma LeakDecide(v: Vm, s: Step)
    requires FencesOk(v) && CapacityOk(v) && NoLeak(v.ops, v.gate) && Enabled(v, s)
    requires s.Asked? || s.Probed? || s.Counted?
    ensures NoLeak(Decide(v, s).ops, Decide(v, s).gate)
  {
    var w := Decide(v, s);
    if s.id in w.ops {
      LeakAdd(v.ops, v.gate, w.gate, s.id, w.ops[s.id]);
    } else {
      LeakClose(v, s.id);
    }
  }

  lemma LeakKept(v: Vm, s: Step)
    requires FencesOk(v) && CapacityOk(v) && NoLeak(v.ops, v.gate) && Enabled(v, s)
    ensures NoLeak(Next(v, s).ops, Next(v, s).gate)
  {
    match s
    case SharedRoute(_, _) => LeakRoute(v, s);
    case BotRoute(_, _, _) => LeakRoute(v, s);
    case IdleFires(_, _) => LeakRoute(v, s);
    case Asked(_, _) => LeakDecide(v, s);
    case Probed(_, _) => LeakDecide(v, s);
    case Counted(_) => LeakDecide(v, s);
    case Finished(id, _, _) => LeakClose(v, id);
    case _ =>
  }
}
