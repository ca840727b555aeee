/** The ownership fence of one Local VM desktop, the pool of fences, and the idle deadline. */
module LocalVmLease {
  import opened Wrappers

  type BotId = nat

  /** A task's thread belongs to one bot. */
  datatype Thread = Thread(bot: BotId, task: nat)

  datatype Record = Record(thread: Thread, expiresAt: int)

  /** The owner of the lease at `now`, if any: unexpired, and its bot still at work. */
  predicate Holds(r: Option<Record>, thread: Thread, busy: set<BotId>, now: int) {
    r.Some? && r.value.thread == thread && now < r.value.expiresAt && thread.bot in busy
  }

  function Checked(r: Option<Record>, busy: set<BotId>, now: int): Option<Record> {
    if r.Some? && (r.value.expiresAt <= now || r.value.thread.bot !in busy) then None else r
  }

  predicate MayClaim(r: Option<Record>, thread: Thread, busy: set<BotId>, now: int) {
    var current := Checked(r, busy, now);
    current.None? || current.value.thread == thread
  }

  function Touched(r: Option<Record>, thread: Thread, now: int, ttl: int): Option<Record> {
    if r.Some? && r.value.expiresAt <= now then None
    else if r.Some? && r.value.thread == thread then Some(Record(thread, now + ttl))
    else r
  }

  function Released(r: Option<Record>, thread: Thread): Option<Record> {
    if r.Some? && r.value.thread == thread then None else r
  }

  class LocalVmLease {
    var record: Option<Record>
    const ttlMs: int

    constructor (ttlMs: int)
      requires ttlMs > 0
      ensures record == None && this.ttlMs == ttlMs
    {
      this.ttlMs := ttlMs;
      record := None;
    }

    method Current(busy: set<BotId>, now: int) returns (owner: Option<Record>)
      modifies this
      ensures owner == record == Checked(old(record), busy, now)
      ensures owner.Some? <==> exists t :: Holds(old(record), t, busy, now)
    {
      if record.Some? && (record.value.expiresAt <= now || record.value.thread.bot !in busy) {
        record := None;
      }
      owner := record;
      assert record.Some? ==> Holds(old(record), record.value.thread, busy, now);
    }

    /** Refused exactly when another thread holds the lease. */
    method Claim(thread: Thread, busy: set<BotId>, now: int) returns (ok: bool)
      modifies this
      ensures ok <==> !exists t :: t != thread && Holds(old(record), t, busy, now)
      ensures ok == MayClaim(old(record), thread, busy, now)
      ensures ok ==> record == Some(Record(thread, now + ttlMs))
      ensures !ok ==> record == old(record)
    {
      var current := Current(busy, now);
      if current.Some? && current.value.thread != thread {
        assert Holds(old(record), current.value.thread, busy, now);
        return false;
      }
      record := Some(Record(thread, now + ttlMs));
      return true;
    }

    method Touch(thread: Thread, now: int)
      modifies this
      ensures record == Touched(old(record), thread, now, ttlMs)
    {
      if record.Some? && record.value.expiresAt <= now {
        record := None;
        return;
      }
      if record.Some? && record.value.thread == thread {
        record := Some(record.value.(expiresAt := now + ttlMs));
      }
    }

    method Release(thread: Thread)
      modifies this
      ensures record == Released(old(record), thread)
    {
      if record.Some? && record.value.thread == thread {
        record := None;
      }
    }
  }

  /** One lease per target, created on first use and never shared between targets. */
  class LocalVmLeasePool {
    var leases: map<string, LocalVmLease>
    const ttlMs: int

    ghost predicate Valid()
      reads this, leases.Values
    {
      && ttlMs > 0
      && (forall k :: k in leases ==> leases[k].ttlMs == ttlMs)
      && (forall j, k :: j in leases && k in leases && j != k ==> leases[j] != leases[k])
    }

    constructor (ttlMs: int)
      requires ttlMs > 0
      ensures Valid() && leases == map[] && this.ttlMs == ttlMs
    {
      this.ttlMs := ttlMs;
      leases := map[];
    }

    method ForTarget(targetKey: string) returns (lease: LocalVmLease)
      requires Valid()
      modifies this
      ensures Valid()
      ensures targetKey in leases && leases[targetKey] == lease
      ensures leases.Keys == old(leases.Keys) + {targetKey}
      ensures forall k :: k in old(leases) ==> leases[k] == old(leases[k])
      ensures targetKey !in old(leases) ==> fresh(lease) && lease.record == None
    {
      if targetKey in leases {
        lease := leases[targetKey];
      } else {
        lease := new LocalVmLease(ttlMs);
        leases := leases[targetKey := lease];
      }
    }
  }

  // ---- runs of one lease -----------------------------------------------------

  datatype Event =
    | Claimed(thread: Thread)
    | Noted(thread: Thread)
    | Dropped(thread: Thread)
    | Inspected

  /** `busy` and `now` are what the harness sees at the event. */
  datatype Moment = Moment(event: Event, busy: set<BotId>, now: int)

  function After(r: Option<Record>, m: Moment, ttl: int): Option<Record> {
    match m.event
    case Claimed(t) => if MayClaim(r, t, m.busy, m.now) then Some(Record(t, m.now + ttl)) else r
    case Noted(t) => Touched(r, t, m.now, ttl)
    case Dropped(t) => Released(r, t)
    case Inspected => Checked(r, m.busy, m.now)
  }

  /** Nobody takes the lease from an owner that stays at work, keeps speaking
    * within the time to live and does not let go: every claim by another thread
    * along the run is refused, and the owner still holds at the end. */
  lemma {:induction false} OwnerUndisturbed(r: Option<Record>, t: Thread, run: seq<Moment>, ttl: int)
    requires r.Some? && r.value.thread == t && ttl > 0
    requires forall i :: 0 <= i < |run| ==> t.bot in run[i].busy && run[i].event != Dropped(t)
    requires Spoken(r.value.expiresAt, t, run, ttl)
    ensures Final(r, run, ttl).Some? && Final(r, run, ttl).value.thread == t
    ensures forall i :: 0 <= i < |run| && run[i].event.Claimed? && run[i].event.thread != t ==>
              !MayClaim(Final(r, run[..i], ttl), run[i].event.thread, run[i].busy, run[i].now)
    decreases |run|
  {
    if run != [] {
      var n := After(r, run[0], ttl);
      OwnerUndisturbed(n, t, run[1..], ttl);
      forall i | 0 <= i < |run| && run[i].event.Claimed? && run[i].event.thread != t
        ensures !MayClaim(Final(r, run[..i], ttl), run[i].event.thread, run[i].busy, run[i].now)
      {
        if i > 0 {
          assert run[..i][0] == run[0] && run[..i][1..] == run[1..][..i - 1];
          assert run[1..][i - 1] == run[i];
        }
      }
    }
  }

  function Final(r: Option<Record>, run: seq<Moment>, ttl: int): Option<Record>
    decreases |run|
  {
    if run == [] then r else Final(After(r, run[0], ttl), run[1..], ttl)
  }

  /** Every moment comes before the deadline the owner's last event set. */
  predicate Spoken(deadline: int, t: Thread, run: seq<Moment>, ttl: int)
    decreases |run|
  {
    run == [] ||
    (&& run[0].now < deadline
     && Spoken(if run[0].event in {Claimed(t), Noted(t)} then run[0].now + ttl else deadline, t, run[1..], ttl))
  }

  // ---- idle deadline ---------------------------------------------------------

  datatype Expiry = Deferred | Suspending

  class LocalVmIdleTimer {
    var timer: Option<int>
    const idleMs: int

    constructor (idleMs: int)
      requires idleMs > 0
      ensures timer == None && this.idleMs == idleMs
    {
      this.idleMs := idleMs;
      timer := None;
    }

    /** Activity resets the full window: whatever was armed before is gone. */
    method Touch(now: int)
      modifies this
      ensures timer == Some(now + idleMs)
    {
      Cancel();
      timer := Some(now + idleMs);
    }

    method Cancel()
      modifies this
      ensures timer == None
    {
      timer := None;
    }

    /** The timer fires: busy work defers it by another full window. */
    method Expire(busy: bool, now: int) returns (e: Expiry)
      requires timer.Some? && timer.value <= now
      modifies this
      ensures e.Deferred? <==> busy
      ensures timer == if busy then Some(now + idleMs) else None
    {
      timer := None;
      if busy {
        Touch(now);
        return Deferred;
      }
      return Suspending;
    }

    /** The suspend work ends; a failure re-arms, a success leaves what was armed meanwhile. */
    method Suspended(ok: bool, now: int)
      modifies this
      ensures timer == if ok then old(timer) else Some(now + idleMs)
    {
      if !ok {
        Touch(now);
      }
    }
  }
}
