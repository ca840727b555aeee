/** The resumable event stream: numbered frames, a bounded replay buffer, and
  * the clients that reconnect to it (section 9.2 of the WHATWG HTML standard
  * defines the event id and `Last-Event-ID`).
  */
module EventStream {
  import opened Wrappers

  const REPLAY_MAX: nat := 500
  const MAX_SAFE_INTEGER: int := 0x1F_FFFF_FFFF_FFFF

  /** The kind of a payload: live screens are the one kind a client can decline. */
  datatype Kind = Screen | Named(name: string)

  /** A frame as written to a client. */
  datatype Frame = Frame(number: nat, kind: Kind, data: string)

  /** A frame as retained: a screen frame keeps its slot and loses its payload. */
  datatype Slot = Slot(number: nat, kind: Kind, frame: Option<Frame>)

  /** An offered cursor after the split at `:`; the number is absent when it is not a safe integer. */
  datatype Cursor = Cursor(stream: string, position: Option<int>)

  predicate IsScreen(f: Frame) {
    f.kind.Screen?
  }

  function CursorSeq(raw: Option<Cursor>, streamId: string): Option<nat> {
    if raw.None? || raw.value.stream != streamId then None
    else
      match raw.value.position
      case Some(n) => if 0 <= n <= MAX_SAFE_INTEGER then Some(n) else None
      case None => None
  }

  // ---- specification of the buffer -------------------------------------------

  /** `history[i]` is the frame numbered `i + 1`; `slots` are the last of them. */
  ghost predicate Window(history: seq<Frame>, slots: seq<Slot>) {
    && (forall i :: 0 <= i < |history| ==> history[i].number == i + 1)
    && |slots| == (if |history| < REPLAY_MAX then |history| else REPLAY_MAX)
    && forall i :: 0 <= i < |slots| ==> slots[i] == SlotOf(history[|history| - |slots| + i])
  }

  function SlotOf(f: Frame): Slot {
    Slot(f.number, f.kind, if IsScreen(f) then None else Some(f))
  }

  function Pushed(slots: seq<Slot>, f: Frame): seq<Slot> {
    var more := slots + [SlotOf(f)];
    if |more| > REPLAY_MAX then more[1..] else more
  }

  function Resumable(slots: seq<Slot>, lastSeq: nat, since: nat): bool {
    since <= lastSeq && (if slots == [] then since == lastSeq else slots[0].number <= since + 1)
  }

  /** The frames after `since`, from `history` or from what is retained of it. */
  function Replay(slots: seq<Slot>, since: nat): seq<Frame> {
    if slots == [] then []
    else if slots[0].number > since && slots[0].frame.Some? then [slots[0].frame.value] + Replay(slots[1..], since)
    else Replay(slots[1..], since)
  }

  function Visible(frames: seq<Frame>): seq<Frame> {
    if frames == [] then []
    else (if IsScreen(frames[0]) then [] else [frames[0]]) + Visible(frames[1..])
  }

  /** Every frame after `since` still has its slot. */
  ghost predicate Retained(history: seq<Frame>, slots: seq<Slot>, since: nat) {
    since <= |history| && forall n :: since <= n < |history| ==> SlotOf(history[n]) in slots
  }

  /** A cursor can be honoured exactly when no frame it missed has left the buffer. */
  lemma ResumableExactly(history: seq<Frame>, slots: seq<Slot>, since: nat)
    requires Window(history, slots)
    ensures Resumable(slots, |history|, since) <==> Retained(history, slots, since)
  {
    if Resumable(slots, |history|, since) {
      forall n | since <= n < |history| ensures SlotOf(history[n]) in slots {
        assert slots[n - (|history| - |slots|)] == SlotOf(history[n]);
      }
    } else if since <= |history| {
      var gone := |history| - |slots| - 1;
      assert since <= gone;
      assert SlotOf(history[gone]) !in slots;
    }
  }

  /** A replay is the missed part of the stream, minus the screens. */
  lemma {:induction false} ReplayIsTheGap(history: seq<Frame>, slots: seq<Slot>, since: nat)
    requires forall i :: 0 <= i < |history| ==> history[i].number == i + 1
    requires |slots| <= |history|
    requires forall i :: 0 <= i < |slots| ==> slots[i] == SlotOf(history[|history| - |slots| + i])
    requires |history| - |slots| <= since <= |history|
    ensures Replay(slots, since) == Visible(history[since..])
    decreases |slots|
  {
    if slots != [] {
      if slots[0].number > since {
        assert history[since..][0] == history[since];
        assert history[since..][1..] == history[since + 1..];
        ReplaySkips(slots[1..], since);
        ReplayIsTheGap(history, slots[1..], since + 1);
      } else {
        ReplayIsTheGap(history, slots[1..], since);
      }
    }
  }

  lemma {:induction false} ReplaySkips(slots: seq<Slot>, since: nat)
    requires forall i :: 0 <= i < |slots| ==> slots[i].number > since + 1
    ensures Replay(slots, since) == Replay(slots, since + 1)
  {
    if slots != [] {
      ReplaySkips(slots[1..], since);
    }
  }

  // ---- the server ------------------------------------------------------------

  class EventStream {
    const streamId: string
    var lastSeq: nat
    var replayBuffer: seq<Slot>
    ghost var history: seq<Frame>

    ghost predicate Valid()
      reads this
    {
      lastSeq == |history| && Window(history, replayBuffer)
    }

    constructor (streamId: string)
      ensures Valid() && history == [] && this.streamId == streamId
    {
      this.streamId := streamId;
      lastSeq := 0;
      replayBuffer := [];
      history := [];
    }

    method Broadcast(kind: Kind, data: string) returns (frame: Frame)
      requires Valid()
      modifies this
      ensures Valid()
      ensures frame == Frame(old(lastSeq) + 1, kind, data)
      ensures history == old(history) + [frame]
    {
      lastSeq := lastSeq + 1;
      frame := Frame(lastSeq, kind, data);
      replayBuffer := replayBuffer + [Slot(lastSeq, kind, if kind.Screen? then None else Some(frame))];
      if |replayBuffer| > REPLAY_MAX {
        replayBuffer := replayBuffer[1..];
      }
      history := history + [frame];
    }

    /** The `/api/events` handler: the hello answer and what is written after it. */
    method Connect(raw: Option<Cursor>) returns (resumed: bool, written: seq<Frame>)
      requires Valid()
      ensures
        var since := CursorSeq(raw, streamId);
        && (resumed <==> since.Some? && Retained(history, replayBuffer, since.value))
        && written == if resumed then Visible(history[since.value..]) else []
    {
      var since := CursorSeq(raw, streamId);
      if since.None? {
        return false, [];
      }
      var from := since.value;
      ResumableExactly(history, replayBuffer, from);
      resumed := Resumable(replayBuffer, lastSeq, from);
      if !resumed {
        return false, [];
      }
      written := Missed(replayBuffer, from);
      ReplayIsTheGap(history, replayBuffer, from);
    }
  }

  method Missed(slots: seq<Slot>, since: nat) returns (written: seq<Frame>)
    ensures written == Replay(slots, since)
  {
    written := [];
    var i := 0;
    while i < |slots|
      invariant 0 <= i <= |slots|
      invariant written + Replay(slots[i..], since) == Replay(slots, since)
    {
      var slot := slots[i];
      assert slots[i..][1..] == slots[i + 1..];
      if slot.number > since && slot.frame.Some? {
        written := written + [slot.frame.value];
      }
      i := i + 1;
    }
    assert slots[|slots|..] == [];
  }

  // ---- one client over any number of connections -------------------------------

  /** `base` is where the client last hydrated, `cursor` the last frame it took
    * in, `received` what it took in since; `wire` is what the server wrote to
    * the open connection and the client has not read yet. */
  datatype World = World(
    history: seq<Frame>,
    slots: seq<Slot>,
    base: nat,
    cursor: nat,
    received: seq<Frame>,
    wire: Option<seq<Frame>>,
    screens: bool)

  datatype Step =
    | Broadcast(kind: Kind, data: string)
    | Read
    | Disconnect
    | Connect(offers: bool, screens: bool)

  predicate Enabled(w: World, s: Step) {
    match s
    case Read => w.wire.Some? && w.wire.value != []
    case Connect(_, _) => w.wire.None?
    case _ => true
  }

  function Next(w: World, s: Step): World
    requires Enabled(w, s)
  {
    match s
    case Broadcast(kind, data) =>
      var frame := Frame(|w.history| + 1, kind, data);
      var wire :=
        if w.wire.Some? && (!kind.Screen? || w.screens) then Some(w.wire.value + [frame]) else w.wire;
      w.(history := w.history + [frame], slots := Pushed(w.slots, frame), wire := wire)
    case Read =>
      var frame := w.wire.value[0];
      w.(received := w.received + [frame], cursor := frame.number, wire := Some(w.wire.value[1..]))
    case Disconnect => w.(wire := None)
    case Connect(offers, screens) =>
      if offers && Resumable(w.slots, |w.history|, w.cursor) then
        w.(wire := Some(Replay(w.slots, w.cursor)), screens := screens)
      else
        w.(base := |w.history|, cursor := |w.history|, received := [], wire := Some([]), screens := screens)
  }

  /** `frames` are frames of the stream in order, and every non-screen frame numbered in `(from, to]` is there. */
  ghost predicate Covers(history: seq<Frame>, frames: seq<Frame>, from: nat, to: nat) {
    && from <= to <= |history|
    && (forall i :: 0 <= i < |frames| ==> from < frames[i].number <= to && frames[i] == history[frames[i].number - 1])
    && (forall i, j :: 0 <= i < j < |frames| ==> frames[i].number < frames[j].number)
    && (forall n :: from <= n < to && !IsScreen(history[n]) ==> history[n] in frames)
  }

  ghost predicate Inv(w: World) {
    && Window(w.history, w.slots)
    && Covers(w.history, w.received, w.base, w.cursor)
    && (w.wire.Some? ==> Covers(w.history, w.wire.value, w.cursor, |w.history|))
  }

  /** Frames that cover a stretch are, screens aside, that stretch of the stream. */
  lemma {:induction false} CoversIsVisible(history: seq<Frame>, frames: seq<Frame>, from: nat, to: nat)
    requires forall i :: 0 <= i < |history| ==> history[i].number == i + 1
    requires from <= to <= |history| && Covers(history, frames, from, to)
    ensures Visible(frames) == Visible(history[from..to])
    decreases |history| - from
  {
    if from == to {
      assert frames == [] && history[from..to] == [];
    } else {
      VisibleStep(history, from, to);
      if frames != [] && frames[0].number == from + 1 {
        CoversTail(history, frames, from, to);
        CoversIsVisible(history, frames[1..], from + 1, to);
      } else {
        CoversSkip(history, frames, from, to);
        CoversIsVisible(history, frames, from + 1, to);
      }
    }
  }

  lemma VisibleStep(history: seq<Frame>, from: nat, to: nat)
    requires from < to <= |history|
    ensures Visible(history[from..to])
            == (if IsScreen(history[from]) then [] else [history[from]]) + Visible(history[from + 1..to])
  {
    assert history[from..to][0] == history[from];
    assert history[from..to][1..] == history[from + 1..to];
  }

  lemma CoversSkip(history: seq<Frame>, frames: seq<Frame>, from: nat, to: nat)
    requires forall i :: 0 <= i < |history| ==> history[i].number == i + 1
    requires from < to && Covers(history, frames, from, to) && (frames != [] ==> frames[0].number != from + 1)
    ensures Covers(history, frames, from + 1, to) && IsScreen(history[from])
  {
    assert forall i :: 0 <= i < |frames| ==> frames[i].number > from + 1;
    assert history[from] !in frames;
  }

  lemma {:induction false} VisibleCovers(history: seq<Frame>, from: nat)
    requires forall i :: 0 <= i < |history| ==> history[i].number == i + 1
    requires from <= |history|
    ensures Covers(history, Visible(history[from..]), from, |history|)
    decreases |history| - from
  {
    if from < |history| {
      assert history[from..][0] == history[from];
      assert history[from..][1..] == history[from + 1..];
      VisibleCovers(history, from + 1);
      CoversBefore(history, Visible(history[from + 1..]), from);
    }
  }

  lemma CoversBefore(history: seq<Frame>, frames: seq<Frame>, from: nat)
    requires from < |history| && Covers(history, frames, from + 1, |history|)
    requires history[from].number == from + 1
    ensures Covers(history, (if IsScreen(history[from]) then [] else [history[from]]) + frames, from, |history|)
  {
    var all := (if IsScreen(history[from]) then [] else [history[from]]) + frames;
    forall n | from <= n < |history| && !IsScreen(history[n]) ensures history[n] in all {
      if n == from {
        assert all[0] == history[from];
      } else {
        assert history[n] in frames;
      }
    }
  }

  lemma CoversTail(history: seq<Frame>, frames: seq<Frame>, from: nat, to: nat)
    requires from <= to <= |history| && Covers(history, frames, from, to) && frames != []
    requires forall i :: 0 <= i < |history| ==> history[i].number == i + 1
    ensures Covers(history, frames[1..], frames[0].number, to)
    ensures forall n :: from <= n < frames[0].number - 1 ==> IsScreen(history[n])
  {
    forall n | from <= n < to && !IsScreen(history[n])
      ensures n >= frames[0].number - 1 && (n >= frames[0].number ==> history[n] in frames[1..])
    {
      var i :| 0 <= i < |frames| && frames[i] == history[n];
      if i > 0 {
        assert frames[1..][i - 1] == history[n];
      }
    }
  }

  lemma CoversMore(history: seq<Frame>, received: seq<Frame>, base: nat, cursor: nat, f: Frame)
    requires Covers(history, received, base, cursor)
    requires cursor < f.number <= |history| && f == history[f.number - 1]
    requires forall n :: cursor <= n < f.number - 1 ==> IsScreen(history[n])
    ensures Covers(history, received + [f], base, f.number)
  {
    forall n | base <= n < f.number && !IsScreen(history[n]) ensures history[n] in received + [f] {
      if n >= cursor {
        assert (received + [f])[|received|] == history[n];
      }
    }
  }

  lemma CoversLater(history: seq<Frame>, frames: seq<Frame>, from: nat, to: nat, f: Frame)
    requires Covers(history, frames, from, to)
    ensures Covers(history + [f], frames, from, to)
  {
  }

  /** The stream grows by a frame that is written to the client, or is a screen it declined. */
  lemma CoversBroadcast(history: seq<Frame>, frames: seq<Frame>, from: nat, f: Frame, sent: bool)
    requires Covers(history, frames, from, |history|) && f.number == |history| + 1
    requires !sent ==> IsScreen(f)
    ensures Covers(history + [f], if sent then frames + [f] else frames, from, |history| + 1)
  {
    CoversLater(history, frames, from, |history|, f);
    if sent {
      CoversMore(history + [f], frames, from, |history|, f);
    }
  }

  lemma BroadcastWire(w: World, s: Step)
    requires Inv(w) && s.Broadcast?
    ensures
      var x := Next(w, s);
      x.wire.Some? ==> Covers(x.history, x.wire.value, x.cursor, |x.history|)
  {
    if w.wire.Some? {
      CoversBroadcast(w.history, w.wire.value, w.cursor, Frame(|w.history| + 1, s.kind, s.data),
                      !s.kind.Screen? || w.screens);
    }
  }

  lemma BroadcastKeeps(w: World, s: Step)
    requires Inv(w) && s.Broadcast?
    ensures Inv(Next(w, s))
  {
    BroadcastWire(w, s);
    var f := Frame(|w.history| + 1, s.kind, s.data);
    CoversLater(w.history, w.received, w.base, w.cursor, f);
  }

  lemma ConnectKeeps(w: World, s: Step)
    requires Inv(w) && Enabled(w, s) && s.Connect?
    ensures Inv(Next(w, s))
  {
    if s.offers && Resumable(w.slots, |w.history|, w.cursor) {
      ReplayIsTheGap(w.history, w.slots, w.cursor);
      VisibleCovers(w.history, w.cursor);
    }
  }

  lemma StepKeeps(w: World, s: Step)
    requires Inv(w) && Enabled(w, s)
    ensures Inv(Next(w, s))
  {
    match s
    case Broadcast(_, _) => BroadcastKeeps(w, s);
    case Read =>
      CoversTail(w.history, w.wire.value, w.cursor, |w.history|);
      CoversMore(w.history, w.received, w.base, w.cursor, w.wire.value[0]);
    case Disconnect =>
    case Connect(_, _) => ConnectKeeps(w, s);
  }

  ghost predicate Run(w: World, steps: seq<Step>, x: World)
    decreases |steps|
  {
    if steps == [] then w == x
    else Enabled(w, steps[0]) && Run(Next(w, steps[0]), steps[1..], x)
  }

  lemma {:induction false} RunKeeps(w: World, steps: seq<Step>, x: World)
    requires Inv(w) && Run(w, steps, x)
    ensures Inv(x)
    decreases |steps|
  {
    if steps != [] {
      StepKeeps(w, steps[0]);
      RunKeeps(Next(w, steps[0]), steps[1..], x);
    }
  }

  lemma CoversExtends(history: seq<Frame>, received: seq<Frame>, base: nat, cursor: nat)
    requires Covers(history, received, base, cursor) && Covers(history, [], cursor, |history|)
    ensures Covers(history, received, base, |history|)
  {
  }

  /** However often a client drops and comes back, what it has taken in since it
    * last hydrated is, screens aside, the stream itself: no gap, no duplicate. */
  lemma ReconnectsAreSeamless(w: World, steps: seq<Step>, x: World)
    requires Inv(w) && Run(w, steps, x)
    ensures x.base <= x.cursor <= |x.history|
    ensures Visible(x.received) == Visible(x.history[x.base..x.cursor])
  {
    RunKeeps(w, steps, x);
    CoversIsVisible(x.history, x.received, x.base, x.cursor);
  }

  /** A connected client that has read everything written to it is up to date. */
  lemma ConnectedClientsCatchUp(w: World, steps: seq<Step>, x: World)
    requires Inv(w) && Run(w, steps, x) && x.wire == Some([])
    ensures x.base <= |x.history|
    ensures Visible(x.received) == Visible(x.history[x.base..])
  {
    RunKeeps(w, steps, x);
    CoversExtends(x.history, x.received, x.base, x.cursor);
    CoversIsVisible(x.history, x.received, x.base, |x.history|);
    assert x.history[x.base..|x.history|] == x.history[x.base..];
  }
}
