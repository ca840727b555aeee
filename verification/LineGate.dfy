/**
  * The bridge between an agent and its computer driver: a splitter that turns chunks into lines, and
  * a gate that answers tool calls itself while a person is driving.
  */
module LineGate {
  import opened Collections
  import opened Wrappers

  const NEWLINE: char := '\n'

  // ---- The splitter ----

  /** The lines of a text that are ended by a newline. */
  function Complete(text: string): seq<string>
    decreases |text|
  {
    var k := IndexOf(text, NEWLINE);
    if k == |text| then [] else [text[..k]] + Complete(text[k + 1..])
  }

  /** What follows the last newline. */
  function Rest(text: string): string
    decreases |text|
  {
    var k := IndexOf(text, NEWLINE);
    if k == |text| then text else Rest(text[k + 1..])
  }

  /** Position of the first `c`, or the length. */
  function IndexOf(text: string, c: char): (k: nat)
    ensures k <= |text| && (k < |text| ==> text[k] == c) && forall i :: 0 <= i < k ==> text[i] != c
  {
    if text == "" then 0 else if text[0] == c then 0 else 1 + IndexOf(text[1..], c)
  }

  lemma IndexOfIs(text: string, c: char, k: nat)
    requires k < |text| && text[k] == c && forall i :: 0 <= i < k ==> text[i] != c
    ensures IndexOf(text, c) == k
  {
  }

  /** Taking the first line off a text. */
  lemma FirstLine(text: string, k: nat)
    requires k == IndexOf(text, NEWLINE) < |text|
    ensures Complete(text) == [text[..k]] + Complete(text[k + 1..]) && Rest(text) == Rest(text[k + 1..])
    ensures text == (text[..k] + [NEWLINE]) + text[k + 1..]
  {
    CutAt(text, k);
  }

  lemma CutAt(text: string, k: nat)
    requires k < |text|
    ensures text == (text[..k] + [text[k]]) + text[k + 1..]
  {
  }

  /** Splitting a longer text splits what was left over together with the new part. */
  lemma {:induction false} SplitResumes(text: string, more: string)
    ensures Complete(text + more) == Complete(text) + Complete(Rest(text) + more)
    ensures Rest(text + more) == Rest(Rest(text) + more)
    decreases |text|
  {
    var k := IndexOf(text, NEWLINE);
    if k < |text| {
      IndexOfIs(text + more, NEWLINE, k);
      assert (text + more)[k + 1..] == text[k + 1..] + more;
      assert (text + more)[..k] == text[..k];
      SplitResumes(text[k + 1..], more);
      FirstLine(text, k);
      FirstLine(text + more, k);
      Regroup([text[..k]], Complete(text[k + 1..]), Complete(Rest(text) + more));
    }
  }

  /** The lines, each with its newline. */
  function Terminated(lines: seq<string>): string {
    if lines == [] then "" else lines[0] + [NEWLINE] + Terminated(lines[1..])
  }

  /** Nothing is lost or invented: the lines and the rest spell the text. */
  lemma {:induction false} LinesSpellTheText(text: string)
    ensures Terminated(Complete(text)) + Rest(text) == text
    decreases |text|
  {
    var k := IndexOf(text, NEWLINE);
    if k < |text| {
      var tail := text[k + 1..];
      LinesSpellTheText(tail);
      FirstLine(text, k);
      assert Complete(text)[1..] == Complete(tail);
      Regroup(text[..k] + [NEWLINE], Terminated(Complete(tail)), Rest(tail));
    }
  }

  /** No line holds a newline, and neither does the rest. */
  lemma {:induction false} LinesHoldNoNewline(text: string)
    ensures NEWLINE !in Rest(text) && forall line :: line in Complete(text) ==> NEWLINE !in line
    decreases |text|
  {
    var k := IndexOf(text, NEWLINE);
    if k < |text| {
      FirstLine(text, k);
      LinesHoldNoNewline(text[k + 1..]);
    }
  }

  function Joined(lines: seq<string>): string {
    if lines == [] then "" else if |lines| == 1 then lines[0] else lines[0] + [NEWLINE] + Joined(lines[1..])
  }

  /** All lines after a flush: the rest counts as a line unless it is empty. */
  function Flushed(text: string): seq<string> {
    Complete(text) + if Rest(text) == "" then [] else [Rest(text)]
  }

  lemma {:induction false} JoinedIsTerminated(lines: seq<string>, last: string)
    ensures Joined(lines + [last]) == Terminated(lines) + last
    ensures lines != [] ==> Terminated(lines) == Joined(lines) + [NEWLINE]
  {
    if lines != [] {
      assert (lines + [last])[1..] == lines[1..] + [last];
      JoinedIsTerminated(lines[1..], last);
      Regroup(lines[0] + [NEWLINE], Terminated(lines[1..]), last);
      if |lines| > 1 {
        Regroup(lines[0] + [NEWLINE], Joined(lines[1..]), [NEWLINE]);
      } else {
        assert lines[0] + [NEWLINE] + Terminated([]) == lines[0] + [NEWLINE];
      }
    }
  }

  /** Joining the flushed lines with newlines gives the text back, less the newline at its very end. */
  lemma JoinGivesTheTextBack(text: string)
    ensures Rest(text) != "" ==> Joined(Flushed(text)) == text
    ensures Rest(text) == "" && text != "" ==> Joined(Flushed(text)) + [NEWLINE] == text
  {
    LinesSpellTheText(text);
    JoinedIsTerminated(Complete(text), Rest(text));
    assert Complete(text) + [] == Complete(text);
    assert Terminated(Complete(text)) + "" == Terminated(Complete(text));
  }

  function Concat(chunks: seq<string>): string {
    if chunks == [] then "" else Concat(chunks[..|chunks| - 1]) + chunks[|chunks| - 1]
  }

  class LineSplitter {
    var pending: string
    /** Everything passed to `onLine` so far. */
    var lines: seq<string>
    ghost var chunks: seq<string>

    constructor ()
      ensures Valid() && chunks == [] && lines == []
    {
      pending, lines, chunks := "", [], [];
    }

    /** The state depends on the chunks only through the text they spell. */
    ghost predicate Valid()
      reads this
    {
      lines == Complete(Concat(chunks)) && pending == Rest(Concat(chunks))
    }

    method Push(chunk: string)
      requires Valid()
      modifies this
      ensures Valid() && chunks == old(chunks) + [chunk]
    {
      SplitResumes(Concat(chunks), chunk);
      assert (chunks + [chunk])[..|chunks|] == chunks;
      chunks := chunks + [chunk];
      pending := pending + chunk;
      ghost var all := lines + Complete(pending);
      ghost var rest := Rest(pending);
      var newline := IndexOf(pending, NEWLINE);
      while newline < |pending|
        invariant newline == IndexOf(pending, NEWLINE)
        invariant lines + Complete(pending) == all && Rest(pending) == rest
        invariant chunks == old(chunks) + [chunk]
        decreases |pending|
      {
        var line := pending[..newline];
        FirstLine(pending, newline);
        Regroup(lines, [line], Complete(pending[newline + 1..]));
        pending := pending[newline + 1..];
        lines := lines + [line];
        newline := IndexOf(pending, NEWLINE);
      }
    }

    /** The end of the input: what is left over is a line of its own. */
    method Flush()
      requires Valid()
      modifies this
      ensures lines == Flushed(Concat(chunks)) && pending == "" && chunks == old(chunks)
    {
      if pending != "" {
        lines := lines + [pending];
      }
      pending := "";
    }
  }

  /** Two ways to cut the same text into chunks give the same lines. */
  lemma ChunkingDoesNotMatter(a: LineSplitter, b: LineSplitter)
    requires a.Valid() && b.Valid() && Concat(a.chunks) == Concat(b.chunks)
    ensures a.lines == b.lines && a.pending == b.pending
  {
  }

  // ---- The gate ----

  datatype Out = Forward(line: string) | Refuse(line: string)

  /** `queue` are the lines handed to the gate and not decided yet; `asking` says that the first of
    * them waits for the answer to `isHeld`. `answers` are the answers so far, with their lines. */
  datatype Gate = Gate(queue: seq<string>, asking: bool, out: seq<Out>, answers: seq<Answer>)

  datatype Answer = Answer(at: nat, held: bool)

  /** Whether a line is a `tools/call` frame; everything else, also what is not JSON, is not. */
  type Classifier = string -> bool

  /** `held == None` is a failed check, which counts as not held. */
  datatype Step = Submit(line: string) | Take | Check(held: Option<bool>)

  predicate Enabled(g: Gate, s: Step) {
    match s
    case Submit(_) => true
    case Take => g.queue != [] && !g.asking
    case Check(_) => g.queue != [] && g.asking
  }

  function Apply(isCall: Classifier, g: Gate, s: Step): Gate
    requires Enabled(g, s)
  {
    match s
    case Submit(line) => g.(queue := g.queue + [line])
    case Take =>
      if isCall(g.queue[0]) then g.(asking := true)
      else g.(queue := g.queue[1..], out := g.out + [Forward(g.queue[0])])
    case Check(held) =>
      var refused := held == Some(true);
      g.(queue := g.queue[1..], asking := false,
         out := g.out + [if refused then Refuse(g.queue[0]) else Forward(g.queue[0])],
         answers := g.answers + [Answer(|g.out|, refused)])
  }

  ghost predicate Run(isCall: Classifier, g: Gate, steps: seq<Step>, h: Gate)
    decreases |steps|
  {
    if steps == [] then g == h
    else Enabled(g, steps[0]) && Run(isCall, Apply(isCall, g, steps[0]), steps[1..], h)
  }

  function LinesOf(out: seq<Out>): (r: seq<string>)
    ensures |r| == |out| && forall k :: 0 <= k < |r| ==> r[k] == out[k].line
  {
    seq(|out|, k requires 0 <= k < |out| => out[k].line)
  }

  function Submitted(steps: seq<Step>): seq<string> {
    if steps == [] then [] else (if steps[0].Submit? then [steps[0].line] else []) + Submitted(steps[1..])
  }

  /** A line was refused exactly when it is a tool call whose check said that a person holds the controls. */
  ghost predicate Judged(isCall: Classifier, g: Gate) {
    && (g.asking ==> g.queue != [] && isCall(g.queue[0]))
    && (forall k :: 0 <= k < |g.out| ==>
         (g.out[k].Refuse? <==> Answer(k, true) in g.answers) && (g.out[k].Refuse? ==> isCall(g.out[k].line)))
    && (forall a :: a in g.answers ==> a.at < |g.out| && isCall(g.out[a.at].line))
    && (forall k :: 0 <= k < |g.out| && isCall(g.out[k].line) ==> Answer(k, g.out[k].Refuse?) in g.answers)
  }

  lemma StepJudged(isCall: Classifier, g: Gate, s: Step)
    requires Judged(isCall, g) && Enabled(g, s)
    ensures Judged(isCall, Apply(isCall, g, s))
  {
  }

  lemma StepKeepsLines(isCall: Classifier, g: Gate, s: Step)
    requires Enabled(g, s)
    ensures var h := Apply(isCall, g, s);
            LinesOf(h.out) + h.queue == LinesOf(g.out) + g.queue + if s.Submit? then [s.line] else []
  {
  }

  lemma {:induction false} RunKeepsLines(isCall: Classifier, g: Gate, steps: seq<Step>, h: Gate)
    requires Judged(isCall, g) && Run(isCall, g, steps, h)
    ensures Judged(isCall, h)
    ensures LinesOf(h.out) + h.queue == LinesOf(g.out) + g.queue + Submitted(steps)
    decreases |steps|
  {
    if steps != [] {
      var next := Apply(isCall, g, steps[0]);
      StepJudged(isCall, g, steps[0]);
      StepKeepsLines(isCall, g, steps[0]);
      RunKeepsLines(isCall, next, steps[1..], h);
      var head := if steps[0].Submit? then [steps[0].line] else [];
      assert (LinesOf(g.out) + g.queue + head) + Submitted(steps[1..])
             == LinesOf(g.out) + g.queue + (head + Submitted(steps[1..]));
    }
  }

  const IDLE := Gate([], false, [], [])

  /** For any schedule of answers each submitted line is forwarded or refused exactly once, in order,
    * and only a tool call that was checked and held is refused. */
  lemma EveryLineIsDecidedOnceInOrder(isCall: Classifier, steps: seq<Step>, g: Gate)
    requires Run(isCall, IDLE, steps, g)
    ensures LinesOf(g.out) + g.queue == Submitted(steps)
    ensures forall k :: 0 <= k < |g.out| ==>
              (g.out[k].Refuse? <==> isCall(g.out[k].line) && Answer(k, true) in g.answers)
  {
    RunKeepsLines(isCall, IDLE, steps, g);
  }

  /** Splitter and gate together: whatever the chunks and the answers, what went out and what still
    * waits are the complete lines of the input text. */
  lemma BridgeKeepsTheProtocolInOrder(splitter: LineSplitter, isCall: Classifier, steps: seq<Step>, g: Gate)
    requires splitter.Valid() && Run(isCall, IDLE, steps, g) && Submitted(steps) == splitter.lines
    ensures LinesOf(g.out) + g.queue == Complete(Concat(splitter.chunks))
    ensures Terminated(LinesOf(g.out) + g.queue) + splitter.pending == Concat(splitter.chunks)
  {
    EveryLineIsDecidedOnceInOrder(isCall, steps, g);
    LinesSpellTheText(Concat(splitter.chunks));
  }

  class GateInterceptor {
    const isCall: Classifier
    var queue: seq<string>
    var asking: bool
    var out: seq<Out>
    ghost var answers: seq<Answer>

    ghost function State(): Gate
      reads this
    {
      Gate(queue, asking, out, answers)
    }

    constructor (isCall: Classifier)
      ensures State() == IDLE && this.isCall == isCall
    {
      this.isCall := isCall;
      queue, asking, out, answers := [], false, [], [];
    }

    method Line(line: string)
      modifies this`queue
      ensures State() == Apply(isCall, old(State()), Submit(line))
    {
      queue := queue + [line];
    }

    /** The first queued line comes up. */
    method Next()
      requires Enabled(State(), Take)
      modifies this`queue, this`asking, this`out
      ensures State() == Apply(isCall, old(State()), Take)
    {
      if isCall(queue[0]) {
        asking := true;
        return;
      }
      out, queue := out + [Forward(queue[0])], queue[1..];
    }

    method Answered(held: Option<bool>)
      requires Enabled(State(), Check(held))
      modifies this
      ensures State() == Apply(isCall, old(State()), Check(held))
    {
      var refused := held.Some? && held.value;
      answers := answers + [Answer(|out|, refused)];
      out := out + [if refused then Refuse(queue[0]) else Forward(queue[0])];
      queue, asking := queue[1..], false;
    }
  }
}
