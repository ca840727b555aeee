/**
  * The approval log: rows are appended to a live file that is renamed over its predecessor when it
  * has reached a size, one write at a time per directory, while crashes and reads may come in between.
  */
module DecisionLog {
  /** `whole` tells a row that reads back from a fragment or a foreign line. */
  datatype Row = Row(id: nat, size: nat, whole: bool)

  /** Both files, oldest row first; a missing file holds nothing. `queue` are the rows not written yet;
    * `rotated` says that the write of the first one has done its stat and rename. `written` are all
    * rows that ever reached the disk. */
  datatype Log = Log(prior: seq<Row>, live: seq<Row>, queue: seq<Row>, rotated: bool, written: seq<Row>)

  function Bytes(rows: seq<Row>): nat {
    if rows == [] then 0 else Bytes(rows[..|rows| - 1]) + rows[|rows| - 1].size
  }

  /** `renames` says whether the rename, if one is tried, succeeds. */
  function Rotated(g: Log, maxBytes: nat, renames: bool): Log {
    var full := g.live != [] && Bytes(g.live) >= maxBytes;
    if full && renames then g.(prior := g.live, live := [], rotated := true) else g.(rotated := true)
  }

  /** `appends` says whether the append succeeds; a failed one is swallowed. */
  function Appended(g: Log, appends: bool): Log
    requires g.queue != []
  {
    var row, rest := g.queue[0], g.(queue := g.queue[1..], rotated := false);
    if appends then rest.(live := g.live + [row], written := g.written + [row]) else rest
  }

  datatype Step = Submit(row: Row) | Rotate(renames: bool) | Append(appends: bool) | Crash

  predicate Enabled(g: Log, s: Step) {
    match s
    case Rotate(_) => g.queue != [] && !g.rotated
    case Append(_) => g.queue != [] && g.rotated
    case _ => true
  }

  function Apply(g: Log, s: Step, maxBytes: nat): Log
    requires Enabled(g, s)
  {
    match s
    case Submit(row) => g.(queue := g.queue + [row])
    case Rotate(renames) => Rotated(g, maxBytes, renames)
    case Append(appends) => Appended(g, appends)
    case Crash => g.(queue := [], rotated := false)
  }

  ghost predicate Run(g: Log, steps: seq<Step>, maxBytes: nat, h: Log)
    decreases |steps|
  {
    if steps == [] then g == h
    else Enabled(g, steps[0]) && Run(Apply(g, steps[0], maxBytes), steps[1..], maxBytes, h)
  }

  const EMPTY := Log([], [], [], false, [])

  // ---- What is retained ----

  predicate IsSuffix(s: seq<Row>, all: seq<Row>) {
    |s| <= |all| && forall i :: 0 <= i < |s| ==> s[i] == all[|all| - |s| + i]
  }

  /** Both files together are the newest rows without a gap, and when anything older is gone, the
    * rotated file alone holds the cap. */
  predicate Retains(prior: seq<Row>, live: seq<Row>, written: seq<Row>, maxBytes: nat) {
    && IsSuffix(prior + live, written)
    && (|prior| + |live| < |written| ==> Bytes(prior) >= maxBytes)
  }

  lemma SuffixOf(a: seq<Row>, b: seq<Row>)
    ensures IsSuffix(b, a + b)
  {
  }

  lemma SuffixTransitive(a: seq<Row>, b: seq<Row>, c: seq<Row>)
    requires IsSuffix(a, b) && IsSuffix(b, c)
    ensures IsSuffix(a, c)
  {
    assert c[|c| - |b|..][|b| - |a|..] == c[|c| - |a|..];
  }

  lemma RotationRetains(prior: seq<Row>, live: seq<Row>, written: seq<Row>, maxBytes: nat)
    requires Retains(prior, live, written, maxBytes) && Bytes(live) >= maxBytes
    ensures Retains(live, [], written, maxBytes)
  {
    SuffixOf(prior, live);
    SuffixTransitive(live, prior + live, written);
    assert live + [] == live;
  }

  lemma AppendRetains(prior: seq<Row>, live: seq<Row>, written: seq<Row>, row: Row, maxBytes: nat)
    requires Retains(prior, live, written, maxBytes)
    ensures Retains(prior, live + [row], written + [row], maxBytes)
  {
    var k := |written| - |prior + live|;
    assert (written + [row])[k..] == written[k..] + [row];
    assert (prior + live) + [row] == prior + (live + [row]);
  }

  lemma {:induction false} BytesConcat(a: seq<Row>, b: seq<Row>)
    ensures Bytes(a + b) == Bytes(a) + Bytes(b)
    decreases |b|
  {
    if b == [] {
      assert a + b == a;
    } else {
      var init := b[..|b| - 1];
      BytesConcat(a, init);
      assert a + b == (a + init) + [b[|b| - 1]];
    }
  }

  lemma StepRetains(g: Log, s: Step, maxBytes: nat)
    requires Retains(g.prior, g.live, g.written, maxBytes) && Enabled(g, s)
    ensures var h := Apply(g, s, maxBytes); Retains(h.prior, h.live, h.written, maxBytes)
  {
    if s.Rotate? && Bytes(g.live) >= maxBytes {
      RotationRetains(g.prior, g.live, g.written, maxBytes);
    } else if s.Append? {
      AppendRetains(g.prior, g.live, g.written, g.queue[0], maxBytes);
    }
  }

  lemma {:induction false} RunRetains(g: Log, steps: seq<Step>, maxBytes: nat, h: Log)
    requires Retains(g.prior, g.live, g.written, maxBytes) && Run(g, steps, maxBytes, h)
    ensures Retains(h.prior, h.live, h.written, maxBytes)
    decreases |steps|
  {
    if steps != [] {
      StepRetains(g, steps[0], maxBytes);
      RunRetains(Apply(g, steps[0], maxBytes), steps[1..], maxBytes, h);
    }
  }

  /** Over every run, with failing renames, failing appends and crashes: the rotated file followed by
    * the live file is a contiguous end of what was written, and a row is gone only when at least
    * `maxBytes` of newer rows are kept. */
  lemma NewestRowsAreKept(steps: seq<Step>, maxBytes: nat, g: Log)
    requires Run(EMPTY, steps, maxBytes, g)
    ensures IsSuffix(g.prior + g.live, g.written)
    ensures |g.prior + g.live| < |g.written| ==> Bytes(g.prior + g.live) >= maxBytes
  {
    RunRetains(EMPTY, steps, maxBytes, g);
    BytesConcat(g.prior, g.live);
  }

  // ---- Order ----

  /** Rows reach the disk in the order they were submitted, some possibly not at all. */
  ghost predicate InOrder(g: Log) {
    && (forall i, j :: 0 <= i < j < |g.written| ==> g.written[i].id < g.written[j].id)
    && (forall i, j :: 0 <= i < j < |g.queue| ==> g.queue[i].id < g.queue[j].id)
    && (forall i, j :: 0 <= i < |g.written| && 0 <= j < |g.queue| ==> g.written[i].id < g.queue[j].id)
  }

  /** Ids are drawn when rows are submitted. */
  ghost predicate Newer(g: Log, s: Step) {
    s.Submit? ==> (forall r :: r in g.written || r in g.queue ==> r.id < s.row.id)
  }

  ghost predicate NumberedRun(g: Log, steps: seq<Step>, maxBytes: nat, h: Log)
    decreases |steps|
  {
    if steps == [] then g == h
    else
      && Enabled(g, steps[0]) && Newer(g, steps[0])
      && NumberedRun(Apply(g, steps[0], maxBytes), steps[1..], maxBytes, h)
  }

  lemma {:induction false} WritesFollowSubmissions(g: Log, steps: seq<Step>, maxBytes: nat, h: Log)
    requires InOrder(g) && NumberedRun(g, steps, maxBytes, h)
    ensures InOrder(h)
    decreases |steps|
  {
    if steps != [] {
      WritesFollowSubmissions(Apply(g, steps[0], maxBytes), steps[1..], maxBytes, h);
    }
  }

  // ---- Size ----

  /** Failed renames since the last one that worked. */
  function Misses(s: Step, k: nat): nat {
    match s
    case Rotate(renames) => if renames then 0 else k + 1
    case _ => k
  }

  function Streak(steps: seq<Step>, k: nat): nat {
    if steps == [] then k else Streak(steps[1..], Misses(steps[0], k))
  }

  /** The longest such streak, past ones included. */
  function Worst(steps: seq<Step>, k: nat, worst: nat): nat {
    if steps == [] then worst
    else Worst(steps[1..], Misses(steps[0], k), Max(worst, Misses(steps[0], k)))
  }

  function Max(a: nat, b: nat): nat {
    if a < b then b else a
  }

  predicate Small(s: Step, maxRow: nat) {
    s.Submit? ==> s.row.size <= maxRow
  }

  /** The cap and `rows` more rows. */
  function Room(maxBytes: nat, maxRow: nat, rows: nat): nat {
    maxBytes + rows * maxRow
  }

  lemma MoreRoom(maxBytes: nat, maxRow: nat, rows: nat, more: nat)
    requires rows <= more
    ensures Room(maxBytes, maxRow, rows) <= Room(maxBytes, maxRow, more)
    ensures Room(maxBytes, maxRow, rows + 1) == Room(maxBytes, maxRow, rows) + maxRow
  {
    assert more * maxRow == rows * maxRow + (more - rows) * maxRow;
  }

  ghost predicate RowsSmall(rows: seq<Row>, maxRow: nat) {
    forall r :: r in rows ==> r.size <= maxRow
  }

  /** The live file is below the cap and one row for each missed rename before a row is added to it, and
    * the rotated one was so when it was renamed. */
  ghost predicate Sized(g: Log, maxBytes: nat, maxRow: nat, k: nat, worst: nat) {
    && k <= worst
    && Bytes(g.live) < Room(maxBytes, maxRow, if g.rotated then k else k + 1)
    && Bytes(g.prior) < Room(maxBytes, maxRow, worst + 1)
    && RowsSmall(g.queue, maxRow)
  }

  lemma BytesPush(rows: seq<Row>, row: Row)
    ensures Bytes(rows + [row]) == Bytes(rows) + row.size
  {
    assert (rows + [row])[..|rows|] == rows;
  }

  lemma QueueStaysSmall(g: Log, s: Step, maxBytes: nat, maxRow: nat)
    requires Enabled(g, s) && Small(s, maxRow) && RowsSmall(g.queue, maxRow)
    ensures RowsSmall(Apply(g, s, maxBytes).queue, maxRow)
  {
  }

  /** A rename that works leaves less than the cap. */
  lemma RotateBytes(g: Log, maxBytes: nat, renames: bool, most: nat)
    requires maxBytes > 0 && Bytes(g.live) < most && Bytes(g.prior) < most
    ensures Bytes(Rotated(g, maxBytes, renames).prior) < most
    ensures Bytes(Rotated(g, maxBytes, renames).live) <= Bytes(g.live)
    ensures renames ==> Bytes(Rotated(g, maxBytes, renames).live) < maxBytes
  {
  }

  lemma AppendBytes(g: Log, appends: bool, maxRow: nat)
    requires g.queue != [] && RowsSmall(g.queue, maxRow)
    ensures Bytes(Appended(g, appends).live) <= Bytes(g.live) + maxRow
  {
    BytesPush(g.live, g.queue[0]);
    assert g.queue[0] in g.queue;
  }

  lemma StepSized(g: Log, s: Step, maxBytes: nat, maxRow: nat, k: nat, worst: nat)
    requires maxBytes > 0 && Sized(g, maxBytes, maxRow, k, worst) && Enabled(g, s) && Small(s, maxRow)
    ensures Sized(Apply(g, s, maxBytes), maxBytes, maxRow, Misses(s, k), Max(worst, Misses(s, k)))
  {
    MoreRoom(maxBytes, maxRow, k, k + 1);
    MoreRoom(maxBytes, maxRow, k + 1, worst + 1);
    MoreRoom(maxBytes, maxRow, worst + 1, Max(worst, Misses(s, k)) + 1);
    QueueStaysSmall(g, s, maxBytes, maxRow);
    match s
    case Rotate(renames) => RotateBytes(g, maxBytes, renames, Room(maxBytes, maxRow, worst + 1));
    case Append(appends) => AppendBytes(g, appends, maxRow);
    case _ =>
  }

  lemma {:induction false} RunSized(g: Log, steps: seq<Step>, maxBytes: nat, maxRow: nat, h: Log, k: nat, worst: nat)
    requires maxBytes > 0 && Sized(g, maxBytes, maxRow, k, worst) && Run(g, steps, maxBytes, h)
    requires forall s :: s in steps ==> Small(s, maxRow)
    ensures Sized(h, maxBytes, maxRow, Streak(steps, k), Worst(steps, k, worst))
    decreases |steps|
  {
    if steps != [] {
      StepSized(g, steps[0], maxBytes, maxRow, k, worst);
      RunSized(Apply(g, steps[0], maxBytes), steps[1..], maxBytes, maxRow, h, Misses(steps[0], k),
               Max(worst, Misses(steps[0], k)));
    }
  }

  lemma {:induction false} NeverMisses(steps: seq<Step>)
    requires forall s :: s in steps && s.Rotate? ==> s.renames
    ensures Worst(steps, 0, 0) == 0
  {
    if steps != [] {
      NeverMisses(steps[1..]);
    }
  }

  /** The live file stays under the cap and one row more than the renames that failed since the last one
    * that worked; both files together under twice that for the longest such streak, which is twice the
    * cap plus one row as long as renames work. */
  lemma LogStaysBounded(steps: seq<Step>, maxBytes: nat, maxRow: nat, g: Log)
    requires maxBytes > 0 && Run(EMPTY, steps, maxBytes, g) && forall s :: s in steps ==> Small(s, maxRow)
    ensures Bytes(g.live) < maxBytes + (Streak(steps, 0) + 1) * maxRow
    ensures Bytes(g.prior + g.live) < 2 * (maxBytes + (Worst(steps, 0, 0) + 1) * maxRow)
    ensures (forall s :: s in steps && s.Rotate? ==> s.renames) ==> Bytes(g.prior + g.live) < 2 * (maxBytes + maxRow)
  {
    var k, worst := Streak(steps, 0), Worst(steps, 0, 0);
    RunSized(EMPTY, steps, maxBytes, maxRow, g, 0, 0);
    MoreRoom(maxBytes, maxRow, k, k + 1);
    MoreRoom(maxBytes, maxRow, k + 1, worst + 1);
    BytesConcat(g.prior, g.live);
    if forall s :: s in steps && s.Rotate? ==> s.renames {
      NeverMisses(steps);
    }
  }

  /** One row of one byte, written while the rename fails. */
  function Stuck(id: nat): seq<Step> {
    [Submit(Row(id, 1, true)), Rotate(false), Append(true)]
  }

  function StuckRuns(n: nat): seq<Step> {
    if n == 0 then [] else Stuck(n - 1) + StuckRuns(n - 1)
  }

  /** When renames keep failing the live file has no bound: `n` more rows make it `n` bytes longer. */
  lemma {:induction false} FailingRenamesUnboundTheLog(g: Log, n: nat, maxBytes: nat) returns (h: Log)
    requires g.queue == [] && !g.rotated
    decreases n
    ensures Run(g, StuckRuns(n), maxBytes, h) && Bytes(h.live) == Bytes(g.live) + n
    ensures h.queue == [] && !h.rotated
  {
    if n == 0 {
      return g;
    }
    var row := Row(n - 1, 1, true);
    var a := Apply(g, Submit(row), maxBytes);
    var b := Apply(a, Rotate(false), maxBytes);
    var c := Apply(b, Append(true), maxBytes);
    h := FailingRenamesUnboundTheLog(c, n - 1, maxBytes);
    var steps := StuckRuns(n);
    assert steps[1..][1..][1..] == StuckRuns(n - 1);
    assert Run(b, steps[1..][1..], maxBytes, h);
    assert Run(a, steps[1..], maxBytes, h);
  }

  // ---- Reading ----

  function Whole(rows: seq<Row>): (r: seq<Row>)
    ensures |r| <= |rows|
  {
    if rows == [] then []
    else Whole(rows[..|rows| - 1]) + if rows[|rows| - 1].whole then [rows[|rows| - 1]] else []
  }

  lemma {:induction false} WholeConcat(a: seq<Row>, b: seq<Row>)
    ensures Whole(a + b) == Whole(a) + Whole(b)
    decreases |b|
  {
    if b == [] {
      assert a + b == a;
    } else {
      var init := b[..|b| - 1];
      WholeConcat(a, init);
      assert (a + b)[..|a + b| - 1] == a + init;
    }
  }

  /** `slice(-limit)`: the last `limit` elements, all of them for 0, and for a negative limit all but
    * the first ones. */
  function SliceFromEnd(rows: seq<Row>, limit: int): seq<Row> {
    if limit > 0 then (if limit >= |rows| then rows else rows[|rows| - limit..])
    else if -limit >= |rows| then [] else rows[-limit..]
  }

  /** The loop over the lines of one file. */
  method ReadFile(lines: seq<Row>, before: seq<Row>) returns (rows: seq<Row>)
    ensures rows == before + Whole(lines)
  {
    rows := before;
    for i := 0 to |lines|
      invariant rows == before + Whole(lines[..i])
    {
      WholeStep(lines, i);
      if lines[i].whole {
        assert before + (Whole(lines[..i]) + [lines[i]]) == (before + Whole(lines[..i])) + [lines[i]];
        rows := rows + [lines[i]];
      }
    }
    assert lines[..|lines|] == lines;
  }

  lemma WholeStep(lines: seq<Row>, i: nat)
    requires i < |lines|
    ensures Whole(lines[..i + 1]) == if lines[i].whole then Whole(lines[..i]) + [lines[i]] else Whole(lines[..i])
  {
    assert lines[..i + 1][..i] == lines[..i];
  }

  method ReadBoth(prior: seq<Row>, live: seq<Row>) returns (rows: seq<Row>)
    ensures rows == Whole(prior + live)
  {
    WholeConcat(prior, live);
    var older := ReadFile(prior, []);
    assert older == Whole(prior);
    rows := ReadFile(live, older);
  }

  method ReadDecisions(g: Log, limit: int) returns (rows: seq<Row>)
    ensures rows == SliceFromEnd(Whole(g.prior + g.live), limit)
  {
    var all := ReadBoth(g.prior, g.live);
    return SliceFromEnd(all, limit);
  }

  /** A positive limit reads the newest whole rows ever written that are still kept, oldest first, and
    * as many of them as the limit allows. */
  lemma ReadIsTheNewest(steps: seq<Step>, maxBytes: nat, g: Log, limit: int)
    requires Run(EMPTY, steps, maxBytes, g) && limit >= 1
    ensures var kept := Whole(g.prior + g.live);
            var rows := SliceFromEnd(kept, limit);
            && |rows| == (if limit <= |kept| then limit else |kept|)
            && IsSuffix(rows, kept) && IsSuffix(kept, Whole(g.written)) && IsSuffix(rows, Whole(g.written))
  {
    NewestRowsAreKept(steps, maxBytes, g);
    WholeSuffix(g.prior + g.live, g.written);
    var kept := Whole(g.prior + g.live);
    SliceIsSuffix(kept, limit);
    SuffixTransitive(SliceFromEnd(kept, limit), kept, Whole(g.written));
  }

  lemma WholeSuffix(rows: seq<Row>, all: seq<Row>)
    requires IsSuffix(rows, all)
    ensures IsSuffix(Whole(rows), Whole(all))
  {
    var k := |all| - |rows|;
    assert all == all[..k] + rows;
    WholeConcat(all[..k], rows);
    SuffixOf(Whole(all[..k]), Whole(rows));
  }

  lemma SliceIsSuffix(rows: seq<Row>, limit: int)
    requires limit >= 1
    ensures IsSuffix(SliceFromEnd(rows, limit), rows)
    ensures |SliceFromEnd(rows, limit)| == if limit <= |rows| then limit else |rows|
  {
  }

  /** A read obeys its limit exactly when the limit is positive or nothing whole is kept: 0 reads all. */
  lemma LimitHoldsExactlyWhenPositive(g: Log, limit: nat)
    ensures |SliceFromEnd(Whole(g.prior + g.live), limit)| <= limit <==> limit >= 1 || Whole(g.prior + g.live) == []
  {
  }

  // ---- The log as the program keeps it ----

  class DecisionLogFiles {
    const maxBytes: nat
    var prior: seq<Row>
    var live: seq<Row>
    var queue: seq<Row>
    var rotated: bool
    ghost var written: seq<Row>

    ghost function State(): Log
      reads this
    {
      Log(prior, live, queue, rotated, written)
    }

    constructor (maxBytes: nat)
      ensures State() == EMPTY && this.maxBytes == maxBytes
    {
      this.maxBytes := maxBytes;
      prior, live, queue, rotated, written := [], [], [], false, [];
    }

    /** Join the chain of writes of this directory. */
    method AppendDecision(row: Row)
      modifies this`queue
      ensures State() == Apply(old(State()), Submit(row), maxBytes)
    {
      queue := queue + [row];
    }

    method StatAndRotate(renames: bool)
      requires Enabled(State(), Rotate(renames))
      modifies this`prior, this`live, this`rotated
      ensures State() == Apply(old(State()), Rotate(renames), maxBytes)
    {
      if live != [] && Bytes(live) >= maxBytes && renames {
        prior, live := live, [];
      }
      rotated := true;
    }

    method AppendRow(appends: bool)
      requires Enabled(State(), Append(appends))
      modifies this`live, this`queue, this`rotated, this`written
      ensures State() == Apply(old(State()), Append(appends), maxBytes)
    {
      if appends {
        live, written := live + [queue[0]], written + [queue[0]];
      }
      queue, rotated := queue[1..], false;
    }
  }
}
