/** Whole runs of the Local VM model: who may disturb whom. */
module LocalVmRuns {
  import opened Collections
  import opened Wrappers
  import opened LocalVmLease
  import opened LocalVmFences

  ghost predicate Run(v: Vm, steps: seq<Step>, w: Vm)
    decreases |steps|
  {
    if steps == [] then v == w
    else Enabled(v, steps[0]) && Run(Next(v, steps[0]), steps[1..], w)
  }

  /** A server that just booted: whatever desktops exist, nothing is in flight. */
  ghost predicate Boot(v: Vm) {
    v.hold == Hold(map[], map[], map[]) && v.gate == Gate({}, false, false, None) && v.ops == map[]
  }

  lemma {:induction false} RunKeeps(v: Vm, steps: seq<Step>, w: Vm)
    requires Inv(v) && NoLeak(v.ops, v.gate) && Run(v, steps, w)
    ensures Inv(w) && NoLeak(w.ops, w.gate)
    decreases |steps|
  {
    if steps != [] {
      StepKeeps(v, steps[0]);
      LeakKept(v, steps[0]);
      RunKeeps(Next(v, steps[0]), steps[1..], w);
    }
  }

  /** No create, stop, replace or idle removal is ever in flight on a desktop
    * whose lease some turn holds, and no two requests work on one desktop. */
  lemma NoDisruptionUnderALease(v: Vm, steps: seq<Step>, w: Vm)
    requires Boot(v) && Run(v, steps, w)
    ensures forall i, t :: i in w.ops && Disrupts(w.ops[i]) ==>
              !Holds(Get(w.hold.leases, w.ops[i].target), t, w.world.busy, w.world.now)
    ensures forall i, j :: i in w.ops && j in w.ops && i != j && OnTarget(w.ops[i]) && OnTarget(w.ops[j]) ==>
              w.ops[i].target != w.ops[j].target
  {
    RunKeeps(v, steps, w);
  }

  /** A turn that gets the desktop finds no request in flight on it, no image
    * pull and no mode change, and nobody else holding its lease. */
  lemma TurnGetsAQuietDesktop(v: Vm, steps: seq<Step>, w: Vm, t: Thread)
    requires Boot(v) && Run(v, steps, w) && MayTakeTurn(w, t)
    ensures
      var k := TargetFor(w.world.mode, t.bot);
      && (forall i :: i in w.ops ==> OnTarget(w.ops[i]) && w.ops[i].target != k)
      && w.gate.change.None?
      && (forall u :: u != t ==> !Holds(Get(w.hold.leases, k), u, w.world.busy, w.world.now))
      && (t.bot in w.world.busy ==> Holds(Get(TakeTurnIn(w, t).hold.leases, k), t, w.world.busy, w.world.now))
  {
    RunKeeps(v, steps, w);
  }

  /** A late release by a thread that lost the desktop takes nothing from its new owner. */
  lemma StaleReleaseIsHarmless(v: Vm, steps: seq<Step>, w: Vm, t: Thread, k: Target)
    requires Boot(v) && Run(v, steps, w)
    requires k in w.hold.active && w.hold.active[k] != t
    ensures
      var h := w.hold;
      var x := Release(h, t);
      && k in x.active && x.active[k] == h.active[k]
      && Get(x.leases, k) == Get(h.leases, k)
      && h.active[k] in x.threads && x.threads[h.active[k]] == k
  {
    RunKeeps(v, steps, w);
  }

  /** Nothing stays fenced once its request has ended: with no request in
    * flight, only a lease or a mode change can turn a turn away. */
  lemma FencesEndWithTheirRequests(v: Vm, steps: seq<Step>, w: Vm, t: Thread)
    requires Boot(v) && Run(v, steps, w)
    ensures NoLeak(w.ops, w.gate)
    ensures w.ops == map[] && w.gate.change.None? ==>
              (MayTakeTurn(w, t) <==>
                 MayClaim(Get(w.hold.leases, TargetFor(w.world.mode, t.bot)), t, w.world.busy, w.world.now))
  {
    RunKeeps(v, steps, w);
    assert TargetFor(w.world.mode, t.bot) in w.gate.lifecycle ==> Working(w.ops, TargetFor(w.world.mode, t.bot));
  }

  lemma FinishedCreation(v: Vm, id: OpId, happened: bool, ok: bool)
    requires CapacityOk(v) && Enabled(v, Finished(id, happened, ok)) && Creates(v.ops[id])
    ensures
      var x := FinishIn(v, id, happened, ok);
      LiveVms(x) <= LiveVms(v) || (v.ops[id].room.Some? && |LiveVms(x)| <= v.ops[id].room.value)
  {
    var op := v.ops[id];
    SubsetSize(LiveVms(FinishIn(v, id, happened, ok)), LiveVms(v) + {op.target.bot});
  }

  lemma OnlyCreationsCreate(v: Vm, s: Step)
    requires Enabled(v, s) && !(s.Finished? && Creates(v.ops[s.id]))
    ensures LiveVms(Next(v, s)) <= LiveVms(v)
  {
  }

  /** A creation through a bot's route never takes the number of the live bots'
    * desktops above the limit it was let in under; nothing else adds one. */
  lemma CreationRespectsLimit(v: Vm, steps: seq<Step>, w: Vm, s: Step)
    requires Boot(v) && Run(v, steps, w) && Enabled(w, s)
    ensures
      var x := Next(w, s);
      LiveVms(x) <= LiveVms(w) ||
      (&& s.Finished? && Creates(w.ops[s.id]) && w.ops[s.id].room.Some?
       && |LiveVms(x)| <= w.ops[s.id].room.value)
  {
    RunKeeps(v, steps, w);
    if s.Finished? && Creates(w.ops[s.id]) {
      FinishedCreation(w, s.id, s.happened, s.ok);
    } else {
      OnlyCreationsCreate(w, s);
    }
  }
}
