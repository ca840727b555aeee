/**
  * Counting repeated calls in bounded memory: per thread at most `maxKeysPerThread` keys in the order
  * they were last seen, compared with the whole history of the turn.
  */
module RepeatDetector {
  import opened Collections

  type ThreadId = nat

  /** Tool name and normalized arguments. */
  datatype Key = Key(text: string)

  /** A JavaScript `Map` keeps its entries in insertion order. */
  datatype Entry = Entry(key: Key, count: nat)

  // ---- reference: the full history ---------------------------------------------

  /** The distinct keys recorded after the last record of `k`. */
  function Since(h: seq<Key>, k: Key): set<Key> {
    if h == [] || h[|h| - 1] == k then {}
    else Since(h[..|h| - 1], k) + {h[|h| - 1]}
  }

  /** Fewer than `max` other keys came since `k`. */
  predicate Tracked(h: seq<Key>, k: Key, max: nat) {
    k in h && |Since(h, k)| < max
  }

  /** The number of records of `k` since it was last out of sight. */
  function RunLength(h: seq<Key>, k: Key, max: nat): nat {
    if !Tracked(h, k, max) then 0
    else RunLength(h[..|h| - 1], k, max) + (if h[|h| - 1] == k then 1 else 0)
  }

  function Occurrences(h: seq<Key>, k: Key): nat {
    if h == [] then 0 else Occurrences(h[..|h| - 1], k) + (if h[|h| - 1] == k then 1 else 0)
  }

  // ---- the recency-ordered map ---------------------------------------------------

  predicate Has(per: seq<Entry>, k: Key) {
    exists i :: 0 <= i < |per| && per[i].key == k
  }

  function Find(per: seq<Entry>, k: Key): (i: nat)
    ensures i <= |per|
    ensures i < |per| ==> per[i].key == k
    ensures i == |per| <==> !Has(per, k)
  {
    if per == [] then 0
    else if per[0].key == k then 0
    else
      var i := Find(per[1..], k);
      assert forall j :: 0 < j < |per| ==> per[j] == per[1..][j - 1];
      i + 1
  }

  function CountOf(per: seq<Entry>, k: Key): nat {
    var i := Find(per, k);
    if i < |per| then per[i].count else 0
  }

  /** Room for `k` at the back: its old entry goes, or the oldest one when full. */
  function Without(per: seq<Entry>, k: Key, max: nat): seq<Entry> {
    var i := Find(per, k);
    if i < |per| then per[..i] + per[i + 1..]
    else if |per| >= max && per != [] then per[1..]
    else per
  }

  function Touched(per: seq<Entry>, k: Key, max: nat): seq<Entry> {
    Without(per, k, max) + [Entry(k, CountOf(per, k) + 1)]
  }

  function KeySet(per: seq<Entry>): set<Key> {
    if per == [] then {} else {per[0].key} + KeySet(per[1..])
  }

  ghost predicate Distinct(per: seq<Entry>) {
    forall i, j :: 0 <= i < j < |per| ==> per[i].key != per[j].key
  }

  /** Each entry's keys seen later in `per` are those recorded after it in `h`. */
  ghost predicate Ordered(per: seq<Entry>, h: seq<Key>) {
    forall i :: 0 <= i < |per| ==> per[i].key in h && Since(h, per[i].key) == KeySet(per[i + 1..])
  }

  /** `per` is what the full history `h` leaves in sight. */
  ghost predicate Represents(per: seq<Entry>, h: seq<Key>, max: nat) {
    && Distinct(per) && |per| <= max
    && Ordered(per, h)
    && (forall k :: Tracked(h, k, max) ==> Has(per, k))
    && (forall i :: 0 <= i < |per| ==> per[i].count == RunLength(h, per[i].key, max))
  }

  lemma {:induction false} KeySetHas(per: seq<Entry>, k: Key)
    ensures k in KeySet(per) <==> Has(per, k)
  {
    if per != [] {
      KeySetHas(per[1..], k);
      assert forall j :: 0 < j < |per| ==> per[j] == per[1..][j - 1];
    }
  }

  lemma {:induction false} KeySetSize(per: seq<Entry>)
    requires Distinct(per)
    ensures |KeySet(per)| == |per|
  {
    if per != [] {
      KeySetHas(per[1..], per[0].key);
      KeySetSize(per[1..]);
    }
  }

  lemma {:induction false} KeySetConcat(a: seq<Entry>, b: seq<Entry>)
    ensures KeySet(a + b) == KeySet(a) + KeySet(b)
  {
    if a == [] {
      assert a + b == b;
    } else {
      assert (a + b)[1..] == a[1..] + b;
      KeySetConcat(a[1..], b);
    }
  }

  /** Entries in sight are tracked: too few others came since. */
  lemma InSightIsTracked(per: seq<Entry>, h: seq<Key>, max: nat, i: nat)
    requires Distinct(per) && |per| <= max && Ordered(per, h) && i < |per|
    ensures Tracked(h, per[i].key, max)
  {
    KeySetSize(per[i + 1..]);
  }

  /** What a record of `k` does to the reference for every other key. */
  lemma RecordOther(h: seq<Key>, k: Key, e: Key, max: nat)
    requires e != k
    ensures Since(h + [k], e) == Since(h, e) + {k}
    ensures e in h + [k] <==> e in h
    ensures Tracked(h + [k], e, max) ==> Tracked(h, e, max) && RunLength(h + [k], e, max) == RunLength(h, e, max)
  {
    assert (h + [k])[..|h|] == h;
    SubsetSize(Since(h, e), Since(h + [k], e));
  }

  /** The place in `per` of the entry that stays at `i` when room is made for `k`. */
  function Origin(per: seq<Entry>, k: Key, max: nat, i: nat): nat {
    var f := Find(per, k);
    if f < |per| then (if i < f then i else i + 1)
    else if |per| >= max && per != [] then i + 1
    else i
  }

  lemma WithoutFacts(per: seq<Entry>, k: Key, max: nat, i: nat)
    requires Distinct(per) && i < |Without(per, k, max)|
    ensures Origin(per, k, max, i) < |per| && Without(per, k, max)[i] == per[Origin(per, k, max, i)]
    ensures per[Origin(per, k, max, i)].key != k
    ensures KeySet(Without(per, k, max)[i + 1..]) + {k} == KeySet(per[Origin(per, k, max, i) + 1..]) + {k}
  {
    var f := Find(per, k);
    var w := Without(per, k, max);
    var o := Origin(per, k, max, i);
    if f < |per| {
      if i < f {
        assert w[i + 1..] == per[i + 1..f] + per[f + 1..];
        assert per[i + 1..] == per[i + 1..f] + ([per[f]] + per[f + 1..]);
        KeySetConcat(per[i + 1..f], per[f + 1..]);
        KeySetConcat(per[i + 1..f], [per[f]] + per[f + 1..]);
        KeySetConcat([per[f]], per[f + 1..]);
      } else {
        assert w[i + 1..] == per[o + 1..];
      }
    } else {
      assert w[i + 1..] == per[o + 1..];
    }
  }

  lemma TouchedDistinct(per: seq<Entry>, k: Key, max: nat)
    requires max > 0 && Distinct(per) && |per| <= max
    ensures Distinct(Touched(per, k, max)) && |Touched(per, k, max)| <= max
  {
    var w := Without(per, k, max);
    forall i, j | 0 <= i < j < |w| ensures w[i].key != w[j].key {
      WithoutFacts(per, k, max, i);
      WithoutFacts(per, k, max, j);
    }
    forall i | 0 <= i < |w| ensures w[i].key != k {
      WithoutFacts(per, k, max, i);
    }
  }

  lemma TouchedOrder(per: seq<Entry>, h: seq<Key>, k: Key, max: nat, i: nat)
    requires max > 0 && Distinct(per) && Ordered(per, h) && i < |Touched(per, k, max)|
    ensures
      var t := Touched(per, k, max);
      t[i].key in h + [k] && Since(h + [k], t[i].key) == KeySet(t[i + 1..])
  {
    var w := Without(per, k, max);
    var t := Touched(per, k, max);
    if i < |w| {
      WithoutFacts(per, k, max, i);
      RecordOther(h, k, t[i].key, max);
      assert t[i + 1..] == w[i + 1..] + [t[|w|]];
      KeySetConcat(w[i + 1..], [t[|w|]]);
    } else {
    }
  }

  lemma TouchedOrdered(per: seq<Entry>, h: seq<Key>, k: Key, max: nat)
    requires max > 0 && Represents(per, h, max)
    ensures Distinct(Touched(per, k, max)) && |Touched(per, k, max)| <= max
    ensures Ordered(Touched(per, k, max), h + [k])
  {
    TouchedDistinct(per, k, max);
    forall i | 0 <= i < |Touched(per, k, max)|
      ensures
        var t := Touched(per, k, max);
        t[i].key in h + [k] && Since(h + [k], t[i].key) == KeySet(t[i + 1..])
    {
      TouchedOrder(per, h, k, max, i);
    }
  }

  /** The entry that falls out of a full map has met its bound. */
  lemma EvictedIsUntracked(per: seq<Entry>, h: seq<Key>, k: Key, max: nat)
    requires max > 0 && Represents(per, h, max) && |per| == max && !Has(per, k)
    ensures !Tracked(h + [k], per[0].key, max)
  {
    assert per[0].key != k;
    RecordOther(h, k, per[0].key, max);
    KeySetHas(per[1..], k);
    assert forall j :: 0 <= j < |per[1..]| ==> per[1..][j] == per[j + 1];
    KeySetSize(per[1..]);
  }

  /** What is neither moved nor evicted stays in sight. */
  lemma StaysInSight(per: seq<Entry>, k: Key, max: nat, i: nat)
    requires i < |per| && per[i].key != k && (i == 0 && |per| >= max ==> Has(per, k))
    ensures Has(Touched(per, k, max), per[i].key)
  {
    var t, f := Touched(per, k, max), Find(per, k);
    if f < |per| {
      assert t[if i < f then i else i - 1].key == per[i].key;
    } else if |per| >= max {
      assert t[i - 1].key == per[i].key;
    } else {
      assert t[i].key == per[i].key;
    }
  }

  lemma TouchedComplete(per: seq<Entry>, h: seq<Key>, k: Key, max: nat, e: Key)
    requires max > 0 && Represents(per, h, max) && Tracked(h + [k], e, max)
    ensures Has(Touched(per, k, max), e)
  {
    if e == k {
      assert Touched(per, k, max)[|Without(per, k, max)|].key == k;
    } else {
      RecordOther(h, k, e, max);
      var i := Find(per, e);
      if i == 0 && |per| == max && !Has(per, k) {
        EvictedIsUntracked(per, h, k, max);
      }
      StaysInSight(per, k, max, i);
    }
  }

  lemma TouchedCounts(per: seq<Entry>, h: seq<Key>, k: Key, max: nat, i: nat)
    requires max > 0 && Represents(per, h, max) && i < |Touched(per, k, max)|
    ensures Touched(per, k, max)[i].count == RunLength(h + [k], Touched(per, k, max)[i].key, max)
  {
    var w := Without(per, k, max);
    var t := Touched(per, k, max);
    TouchedOrdered(per, h, k, max);
    if i < |w| {
      WithoutFacts(per, k, max, i);
      InSightIsTracked(t, h + [k], max, i);
      RecordOther(h, k, t[i].key, max);
    } else {
    }
  }

  /** One record keeps the bounded map what the full history leaves in sight. */
  lemma TouchedRepresents(per: seq<Entry>, h: seq<Key>, k: Key, max: nat)
    requires max > 0 && Represents(per, h, max)
    ensures Represents(Touched(per, k, max), h + [k], max)
  {
    TouchedOrdered(per, h, k, max);
    forall e | Tracked(h + [k], e, max) ensures Has(Touched(per, k, max), e) {
      TouchedComplete(per, h, k, max, e);
    }
    forall i | 0 <= i < |Touched(per, k, max)|
      ensures Touched(per, k, max)[i].count == RunLength(h + [k], Touched(per, k, max)[i].key, max)
    {
      TouchedCounts(per, h, k, max, i);
    }
  }

  // ---- whole turns ---------------------------------------------------------------

  /** The map after the records `h` of one turn. */
  function After(h: seq<Key>, max: nat): seq<Entry> {
    if h == [] then [] else Touched(After(h[..|h| - 1], max), h[|h| - 1], max)
  }

  lemma AfterStep(g: seq<Key>, k: Key, max: nat)
    ensures After(g + [k], max) == Touched(After(g, max), k, max)
  {
    assert (g + [k])[..|g|] == g && (g + [k])[|g|] == k;
  }

  lemma {:induction false} AfterRepresents(h: seq<Key>, max: nat) returns (per: seq<Entry>)
    requires max > 0
    ensures per == After(h, max) && Represents(per, h, max)
  {
    if h == [] {
      per := [];
    } else {
      var g, k := h[..|h| - 1], h[|h| - 1];
      assert h == g + [k];
      var before := AfterRepresents(g, max);
      AfterStep(g, k, max);
      TouchedRepresents(before, g, k, max);
      per := Touched(before, k, max);
    }
  }

  /** A key is in the map exactly when fewer than `max` other keys came since its
    * last record, and then it counts its records since it was last out of sight. */
  lemma TrackedExactly(h: seq<Key>, max: nat, k: Key)
    requires max > 0
    ensures Has(After(h, max), k) <==> Tracked(h, k, max)
    ensures CountOf(After(h, max), k) == RunLength(h, k, max)
    ensures |After(h, max)| <= max
  {
    var per := AfterRepresents(h, max);
    if Has(per, k) {
      InSightIsTracked(per, h, max, Find(per, k));
    }
  }

  /** The count never exceeds the number of records. */
  lemma {:induction false} NeverOvercounts(h: seq<Key>, k: Key, max: nat)
    ensures RunLength(h, k, max) <= Occurrences(h, k)
  {
    if Tracked(h, k, max) {
      NeverOvercounts(h[..|h| - 1], k, max);
    }
  }

  /** `k` was never out of sight once it had been recorded. */
  predicate AlwaysInSight(h: seq<Key>, k: Key, max: nat) {
    h == [] || (AlwaysInSight(h[..|h| - 1], k, max) && (k in h ==> Tracked(h, k, max)))
  }

  lemma {:induction false} NoRecordNoCount(h: seq<Key>, k: Key)
    requires k !in h
    ensures Occurrences(h, k) == 0
  {
    if h != [] {
      NoRecordNoCount(h[..|h| - 1], k);
    }
  }

  /** It is the number of records as long as every gap stays under the bound. */
  lemma {:induction false} ExactWhileInSight(h: seq<Key>, k: Key, max: nat)
    requires AlwaysInSight(h, k, max)
    ensures RunLength(h, k, max) == Occurrences(h, k)
  {
    if k !in h {
      NoRecordNoCount(h, k);
    } else {
      ExactWhileInSight(h[..|h| - 1], k, max);
    }
  }

  // ---- server/repeat-detector.ts -----------------------------------------------

  lemma CountIsRunLength(per: seq<Entry>, h: seq<Key>, k: Key, max: nat)
    requires max > 0 && Represents(per, h, max)
    ensures CountOf(per, k) + 1 == RunLength(h + [k], k, max)
  {
  }

  /** Move `key` to the back with one more record, making room when the map is full. */
  method Bump(per: seq<Entry>, key: Key, max: nat) returns (next: seq<Entry>, count: nat)
    requires max > 0
    ensures next == Touched(per, key, max) && count == CountOf(per, key) + 1
  {
    var at := 0;
    while at < |per| && per[at].key != key
      invariant 0 <= at <= |per|
      invariant forall j :: 0 <= j < at ==> per[j].key != key
    {
      at := at + 1;
    }
    assert at < |per| ==> Has(per, key);
    FindIsFirst(per, key, at);
    var previous := if at < |per| then per[at].count else 0;
    next := per;
    if at < |per| {
      next := per[..at] + per[at + 1..];
    } else if |per| >= max {
      next := per[1..];
    }
    count := previous + 1;
    next := next + [Entry(key, count)];
  }

  lemma {:induction false} FindIsFirst(per: seq<Entry>, k: Key, at: nat)
    requires at <= |per| && (forall j :: 0 <= j < at ==> per[j].key != k)
    requires at < |per| ==> per[at].key == k
    ensures Find(per, k) == at
  {
    if at > 0 {
      FindIsFirst(per[1..], k, at - 1);
    }
  }

  lemma NothingRepresentsNothing(max: nat)
    ensures Represents([], [], max)
  {
  }

  ghost predicate AllRepresent(counts: map<ThreadId, seq<Entry>>, history: map<ThreadId, seq<Key>>, max: nat) {
    counts.Keys == history.Keys && forall t :: t in counts ==> Represents(counts[t], history[t], max)
  }

  lemma OneMoreRepresents(counts: map<ThreadId, seq<Entry>>, history: map<ThreadId, seq<Key>>, max: nat,
                          t: ThreadId, per: seq<Entry>, h: seq<Key>)
    requires AllRepresent(counts, history, max) && Represents(per, h, max)
    ensures AllRepresent(counts[t := per], history[t := h], max)
  {
  }

  class RepeatDetector {
    var counts: map<ThreadId, seq<Entry>>
    const thresholds: set<nat>
    const maxKeysPerThread: nat
    ghost var history: map<ThreadId, seq<Key>>

    ghost predicate Valid()
      reads this
    {
      maxKeysPerThread > 0 && AllRepresent(counts, history, maxKeysPerThread)
    }

    /** What has been recorded on `t` since its last settle. */
    ghost function Recorded(t: ThreadId): seq<Key>
      reads this
    {
      if t in history then history[t] else []
    }

    constructor (thresholds: set<nat>, maxKeysPerThread: nat)
      requires maxKeysPerThread > 0
      ensures Valid() && history == map[]
      ensures this.thresholds == thresholds && this.maxKeysPerThread == maxKeysPerThread
    {
      this.thresholds := thresholds;
      this.maxKeysPerThread := maxKeysPerThread;
      counts := map[];
      history := map[];
    }

    method Record(t: ThreadId, key: Key) returns (count: nat, threshold: bool)
      requires Valid()
      modifies this
      ensures Valid()
      ensures history == old(history)[t := old(Recorded(t)) + [key]]
      ensures count == RunLength(old(Recorded(t)) + [key], key, maxKeysPerThread)
      ensures threshold <==> count in thresholds
    {
      var per := if t in counts then counts[t] else [];
      ghost var h := Recorded(t);
      NothingRepresentsNothing(maxKeysPerThread);
      var next: seq<Entry>;
      next, count := Bump(per, key, maxKeysPerThread);
      CountIsRunLength(per, h, key, maxKeysPerThread);
      TouchedRepresents(per, h, key, maxKeysPerThread);
      OneMoreRepresents(counts, history, maxKeysPerThread, t, next, h + [key]);
      counts := counts[t := next];
      history := history[t := h + [key]];
      threshold := count in thresholds;
    }

    /** Forgets everything recorded on `t`. */
    method Settle(t: ThreadId)
      requires Valid()
      modifies this
      ensures Valid()
      ensures history == old(history) - {t}
    {
      counts := counts - {t};
      history := history - {t};
    }
  }
}
