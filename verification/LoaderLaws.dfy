/** What the turns of a loaded session are, declaratively. */
module LoaderLaws {
  import opened Messages
  import opened Replay
  import opened Loader

  // ---------------------------------------------------------------- maximal runs

  /** a[lo..hi] is a longest stretch of assistant events for one request. */
  ghost predicate MaximalRun(a: seq<Event>, lo: nat, hi: nat) {
    && lo < hi <= |a| && a[lo].AssistantEvent?
    && (forall j :: lo <= j < hi ==> SameRequest(a, lo, j))
    && (lo > 0 ==> !SameRequest(a, lo - 1, lo))
    && (hi < |a| ==> !SameRequest(a, lo, hi))
  }

  lemma RunPairs(a: seq<Event>, lo: nat, hi: nat)
    requires MaximalRun(a, lo, hi)
    ensures forall m: nat, n: nat :: lo <= m < hi && lo <= n < hi ==> SameRequest(a, m, n)
  {
    forall m: nat, n: nat | lo <= m < hi && lo <= n < hi
      ensures SameRequest(a, m, n)
    {
      assert SameRequest(a, lo, m) && SameRequest(a, lo, n);
    }
  }

  /** Two maximal runs that share an event are the same run. */
  lemma MaximalRunsDisjoint(a: seq<Event>, lo: nat, hi: nat, lo': nat, hi': nat, j: nat)
    requires MaximalRun(a, lo, hi) && MaximalRun(a, lo', hi')
    requires lo <= j < hi && lo' <= j < hi'
    ensures lo == lo' && hi == hi'
  {
    RunPairs(a, lo, hi);
    RunPairs(a, lo', hi');
  }

  /** The user message directly in front of position i, if there is one. */
  function InputBefore(a: seq<Event>, i: nat): seq<Message>
    requires i <= |a|
  {
    if i > 0 && a[i - 1].UserEvent? then [a[i - 1].message] else []
  }

  datatype Span = Span(lo: nat, hi: nat)

  function Spans(a: seq<Event>, i: nat): seq<Span>
    requires i <= |a| && forall j :: 0 <= j < |a| ==> !a[j].OtherEvent?
    decreases |a| - i
  {
    if i == |a| then []
    else if a[i].UserEvent? then Spans(a, i + 1)
    else [Span(i, RunEnd(a, i, i + 1))] + Spans(a, RunEnd(a, i, i + 1))
  }

  ghost predicate NoRunAcross(a: seq<Event>, i: nat)
    requires i <= |a|
  {
    0 < i < |a| ==> !SameRequest(a, i - 1, i)
  }

  ghost predicate SpanIsTurn(key: BlockKey, a: seq<Event>, span: Span, turn: ReplayTurn) {
    && MaximalRun(a, span.lo, span.hi)
    && RunAt(a, span.lo) == a[span.lo..span.hi]
    && turn == TurnOf(key, RunAt(a, span.lo), InputBefore(a, span.lo))
  }

  lemma RunIsMaximal(key: BlockKey, a: seq<Event>, i: nat)
    requires i < |a| && a[i].AssistantEvent? && NoRunAcross(a, i)
    ensures SpanIsTurn(key, a, Span(i, RunEnd(a, i, i + 1)), TurnOf(key, RunAt(a, i), InputBefore(a, i)))
    ensures NoRunAcross(a, RunEnd(a, i, i + 1))
    ensures RunEnd(a, i, i + 1) > 0 && InputBefore(a, RunEnd(a, i, i + 1)) == []
  {
    hide TurnOf;
    var e := RunEnd(a, i, i + 1);
    assert SameRequest(a, i, i);
    assert SameRequest(a, i, e - 1);
  }

  /** Turn by turn: each turn is one maximal run with the user message directly before it
      as its input (none when another run comes first), and turns come in transcript order. */
  lemma {:induction false} TurnsAreMaximalRuns(key: BlockKey, a: seq<Event>, i: nat, k: nat)
    requires i <= |a| && forall j :: 0 <= j < |a| ==> !a[j].OtherEvent?
    requires NoRunAcross(a, i)
    requires k < |Spans(a, i)|
    ensures |TurnsFrom(key, a, i, InputBefore(a, i))| == |Spans(a, i)|
    ensures SpanIsTurn(key, a, Spans(a, i)[k], TurnsFrom(key, a, i, InputBefore(a, i))[k])
    ensures i <= Spans(a, i)[k].lo
    ensures k > 0 ==> Spans(a, i)[k - 1].hi <= Spans(a, i)[k].lo
    decreases |a| - i
  {
    hide TurnOf;
    if a[i].UserEvent? {
      TurnsAreMaximalRuns(key, a, i + 1, k);
    } else {
      var e := RunEnd(a, i, i + 1);
      RunIsMaximal(key, a, i);
      if |Spans(a, e)| > 0 {
        TurnsAreMaximalRuns(key, a, e, if k == 0 then 0 else k - 1);
      } else {
        NoSpansNoTurns(key, a, e, []);
      }
    }
  }

  lemma {:induction false} NoSpansNoTurns(key: BlockKey, a: seq<Event>, i: nat, input: seq<Message>)
    requires i <= |a| && forall j :: 0 <= j < |a| ==> !a[j].OtherEvent?
    ensures |TurnsFrom(key, a, i, input)| == |Spans(a, i)|
    decreases |a| - i
  {
    hide TurnOf;
    if i < |a| {
      if a[i].UserEvent? {
        NoSpansNoTurns(key, a, i + 1, [a[i].message]);
      } else {
        NoSpansNoTurns(key, a, RunEnd(a, i, i + 1), []);
      }
    }
  }

  /** Every assistant event lands in some turn. */
  lemma {:induction false} EveryEventHasATurn(a: seq<Event>, i: nat, j: nat) returns (k: nat)
    requires i <= j < |a| && a[j].AssistantEvent? && forall n :: 0 <= n < |a| ==> !a[n].OtherEvent?
    ensures k < |Spans(a, i)| && Spans(a, i)[k].lo <= j < Spans(a, i)[k].hi
    decreases |a| - i
  {
    if a[i].UserEvent? {
      k := EveryEventHasATurn(a, i + 1, j);
    } else if j < RunEnd(a, i, i + 1) {
      k := 0;
    } else {
      k := EveryEventHasATurn(a, RunEnd(a, i, i + 1), j);
      k := k + 1;
    }
  }

  /** The loaded session: exactly the maximal runs of the accepted events, each once and in order. */
  lemma LoaderMeetsSpecification(key: BlockKey, events: seq<Event>)
    ensures var a, spans, turns := Accepted(events), Spans(Accepted(events), 0), SessionTurns(key, events);
            && |turns| == |spans|
            && (forall k :: 0 <= k < |spans| ==> SpanIsTurn(key, a, spans[k], turns[k]))
            && (forall k :: 0 < k < |spans| ==> spans[k - 1].hi <= spans[k].lo)
            && (forall lo: nat, hi: nat :: MaximalRun(a, lo, hi) ==> Span(lo, hi) in spans)
            && (forall j :: 0 <= j < |a| && a[j].AssistantEvent?
                  ==> exists k :: 0 <= k < |spans| && spans[k].lo <= j < spans[k].hi)
  {
    hide TurnOf;
    var a := Accepted(events);
    var spans := Spans(a, 0);
    NoSpansNoTurns(key, a, 0, []);
    forall k | 0 <= k < |spans|
      ensures SpanIsTurn(key, a, spans[k], SessionTurns(key, events)[k])
      ensures k > 0 ==> spans[k - 1].hi <= spans[k].lo
    {
      TurnsAreMaximalRuns(key, a, 0, k);
    }
    forall j | 0 <= j < |a| && a[j].AssistantEvent?
      ensures exists k :: 0 <= k < |spans| && spans[k].lo <= j < spans[k].hi
    {
      var k := EveryEventHasATurn(a, 0, j);
    }
    forall lo: nat, hi: nat | MaximalRun(a, lo, hi)
      ensures Span(lo, hi) in spans
    {
      assert SameRequest(a, lo, lo);
      var k := EveryEventHasATurn(a, 0, lo);
      assert SpanIsTurn(key, a, spans[k], SessionTurns(key, events)[k]);
      MaximalRunsDisjoint(a, lo, hi, spans[k].lo, spans[k].hi, lo);
    }
  }

  // ---------------------------------------------------------------- blocks of a turn

  /** No earlier block has the key of block j. */
  predicate IsFirst(key: BlockKey, all: seq<Block>, j: nat)
    requires j < |all|
  {
    forall i :: 0 <= i < j ==> key(all[i]) != key(all[j])
  }

  function FirstSeen(key: BlockKey, all: seq<Block>, n: nat): (f: seq<nat>)
    requires n <= |all|
    ensures forall k :: 0 <= k < |f| ==> f[k] < n && IsFirst(key, all, f[k])
    ensures forall k :: 0 < k < |f| ==> f[k - 1] < f[k]
    ensures forall j :: 0 <= j < n && IsFirst(key, all, j) ==> j in f
  {
    if n == 0 then []
    else FirstSeen(key, all, n - 1) + if IsFirst(key, all, n - 1) then [n - 1] else []
  }

  lemma {:induction false} SeenMeansPresent(key: BlockKey, all: seq<Block>, n: nat, k: string)
    requires n <= |all|
    ensures Seen(key, AddBlocks(key, [], all[..n]), k) <==> exists j :: 0 <= j < n && key(all[j]) == k
  {
    if n > 0 {
      SeenMeansPresent(key, all, n - 1, k);
      assert all[..n][..n - 1] == all[..n - 1];
      SeenAppend(key, AddBlocks(key, [], all[..n - 1]), all[n - 1]);
      SeenMeansPresent(key, all, n - 1, key(all[n - 1]));
    }
  }

  /** A turn keeps one block per key, the first, in first-seen order. */
  lemma {:induction false} BlocksInFirstSeenOrder(key: BlockKey, all: seq<Block>, n: nat)
    requires n <= |all|
    ensures var f, b := FirstSeen(key, all, n), AddBlocks(key, [], all[..n]);
            && |b| == |f|
            && forall k :: 0 <= k < |f| ==> b[k] == all[f[k]]
  {
    hide Seen;
    if n > 0 {
      BlocksInFirstSeenOrder(key, all, n - 1);
      assert all[..n][..n - 1] == all[..n - 1];
      SeenMeansPresent(key, all, n - 1, key(all[n - 1]));
    }
  }

  /** The token fields are maxima over the run, and at least zero. */
  lemma {:induction false} MaxOfIsMaximum(run: seq<Event>, field: Usage -> int)
    requires forall j :: 0 <= j < |run| ==> run[j].AssistantEvent?
    ensures forall j :: 0 <= j < |run| ==> field(run[j].usage) <= MaxOf(run, field)
    ensures MaxOf(run, field) == 0 || exists j :: 0 <= j < |run| && field(run[j].usage) == MaxOf(run, field)
  {
    if run != [] {
      var front := run[..|run| - 1];
      MaxOfIsMaximum(front, field);
      assert forall j :: 0 <= j < |front| ==> front[j] == run[j];
      if MaxOf(run, field) != 0 && field(run[|run| - 1].usage) != MaxOf(run, field) {
        var j :| 0 <= j < |front| && field(front[j].usage) == MaxOf(front, field);
        assert field(run[j].usage) == MaxOf(run, field);
      }
    }
  }

  // ---------------------------------------------------------------- every field of a turn

  /** n is the largest of the values, but at least zero. */
  ghost predicate LargestOf(n: nat, values: seq<int>) {
    (forall j :: 0 <= j < |values| ==> values[j] <= n) && (n == 0 || n in values)
  }

  function Usages(run: seq<Event>): (u: seq<Usage>)
    requires forall j :: 0 <= j < |run| ==> run[j].AssistantEvent?
    ensures |u| == |run| && forall j :: 0 <= j < |u| ==> u[j] == run[j].usage
  {
    seq(|run|, j requires 0 <= j < |run| => run[j].usage)
  }

  /** The four token fields of a turn are the largest of its run. */
  ghost predicate UsageOf(turn: ReplayTurn, u: seq<Usage>) {
    && LargestOf(turn.outputTokens, seq(|u|, j requires 0 <= j < |u| => u[j].output))
    && LargestOf(turn.observedInput, seq(|u|, j requires 0 <= j < |u| => u[j].input))
    && LargestOf(turn.observedCacheRead, seq(|u|, j requires 0 <= j < |u| => u[j].cacheRead))
    && LargestOf(turn.observedCacheWrite, seq(|u|, j requires 0 <= j < |u| => u[j].cacheWrite))
  }

  /** The answer of a turn: the first block of every key of its run, in order. */
  ghost predicate AnswerOf(key: BlockKey, answer: Message, all: seq<Block>) {
    && answer.role == "assistant" && answer.extra == map[]
    && (all == [] ==> answer.content == Text(""))
    && (all != [] ==> answer.content.Blocks?
                      && FirstBlocks(key, answer.content.blocks, all))
  }

  ghost predicate FirstBlocks(key: BlockKey, kept: seq<Block>, all: seq<Block>) {
    var f := FirstSeen(key, all, |all|);
    |kept| == |f| && forall k :: 0 <= k < |f| ==> kept[k] == all[f[k]]
  }

  lemma LargestOfRun(run: seq<Event>, field: Usage -> int, values: seq<int>)
    requires forall j :: 0 <= j < |run| ==> run[j].AssistantEvent?
    requires |values| == |run| && forall j :: 0 <= j < |run| ==> values[j] == field(run[j].usage)
    ensures LargestOf(MaxOf(run, field), values)
  {
    MaxOfIsMaximum(run, field);
    if MaxOf(run, field) != 0 {
      var j :| 0 <= j < |run| && field(run[j].usage) == MaxOf(run, field);
      assert values[j] == MaxOf(run, field);
    }
  }

  lemma FirstBlockIsFirst(key: BlockKey, all: seq<Block>)
    requires all != []
    ensures FirstSeen(key, all, |all|) != []
  {
    assert IsFirst(key, all, 0);
  }

  lemma RunFields(key: BlockKey, run: seq<Event>, input: seq<Message>)
    requires run != [] && forall j :: 0 <= j < |run| ==> run[j].AssistantEvent?
    ensures var turn := TurnOf(key, run, input);
            && turn.requestId == run[0].requestId && turn.model == run[0].model && turn.timestamp == run[0].timestamp
            && turn.input == input
            && UsageOf(turn, Usages(run))
            && AnswerOf(key, turn.assistant, AllBlocks(run))
  {
    hide MaxOf, AddBlocks, AllBlocks, LargestOf, FirstBlocks;
    RunUsage(run, TurnOf(key, run, input));
    RunAnswer(key, AllBlocks(run));
  }

  lemma RunUsage(run: seq<Event>, turn: ReplayTurn)
    requires run != [] && forall j :: 0 <= j < |run| ==> run[j].AssistantEvent?
    requires turn.outputTokens == MaxOf(run, (v: Usage) => v.output)
    requires turn.observedInput == MaxOf(run, (v: Usage) => v.input)
    requires turn.observedCacheRead == MaxOf(run, (v: Usage) => v.cacheRead)
    requires turn.observedCacheWrite == MaxOf(run, (v: Usage) => v.cacheWrite)
    ensures UsageOf(turn, Usages(run))
  {
    hide MaxOf, LargestOf;
    var u := Usages(run);
    LargestOfRun(run, (v: Usage) => v.output, seq(|u|, j requires 0 <= j < |u| => u[j].output));
    LargestOfRun(run, (v: Usage) => v.input, seq(|u|, j requires 0 <= j < |u| => u[j].input));
    LargestOfRun(run, (v: Usage) => v.cacheRead, seq(|u|, j requires 0 <= j < |u| => u[j].cacheRead));
    LargestOfRun(run, (v: Usage) => v.cacheWrite, seq(|u|, j requires 0 <= j < |u| => u[j].cacheWrite));
  }

  lemma RunAnswer(key: BlockKey, all: seq<Block>)
    ensures FirstBlocks(key, AddBlocks(key, [], all), all)
    ensures AddBlocks(key, [], all) == [] <==> all == []
  {
    hide AddBlocks;
    BlocksInFirstSeenOrder(key, all, |all|);
    assert all[..|all|] == all;
    if all != [] {
      FirstBlockIsFirst(key, all);
    }
  }

  /** Turn by turn, every field of a loaded session: id, model and time of the first event of
      its run, the user message directly before it, the largest token numbers, and the
      first-seen blocks of everything the run said. */
  lemma LoadedFields(key: BlockKey, events: seq<Event>, k: nat)
    requires k < |SessionTurns(key, events)|
    ensures k < |Spans(Accepted(events), 0)|
    ensures var a, turn, span := Accepted(events), SessionTurns(key, events)[k], Spans(Accepted(events), 0)[k];
            && MaximalRun(a, span.lo, span.hi)
            && (forall j :: 0 <= j < span.hi - span.lo ==> a[span.lo..span.hi][j].AssistantEvent?)
            && turn.requestId == a[span.lo].requestId
            && turn.model == a[span.lo].model && turn.timestamp == a[span.lo].timestamp
            && turn.input == (if span.lo > 0 && a[span.lo - 1].UserEvent? then [a[span.lo - 1].message] else [])
            && UsageOf(turn, Usages(a[span.lo..span.hi]))
            && AnswerOf(key, turn.assistant, AllBlocks(a[span.lo..span.hi]))
  {
    hide SessionTurns, Spans, Accepted, TurnOf, RunAt, UsageOf, AnswerOf;
    LoaderMeetsSpecification(key, events);
    var a, span := Accepted(events), Spans(Accepted(events), 0)[k];
    assert SpanIsTurn(key, a, span, SessionTurns(key, events)[k]);
    SpanFields(key, a, span, SessionTurns(key, events)[k]);
  }

  lemma SpanFields(key: BlockKey, a: seq<Event>, span: Span, turn: ReplayTurn)
    requires SpanIsTurn(key, a, span, turn)
    ensures var run := a[span.lo..span.hi];
            && (forall j :: 0 <= j < |run| ==> run[j].AssistantEvent?)
            && turn.requestId == a[span.lo].requestId
            && turn.model == a[span.lo].model && turn.timestamp == a[span.lo].timestamp
            && turn.input == (if span.lo > 0 && a[span.lo - 1].UserEvent? then [a[span.lo - 1].message] else [])
            && UsageOf(turn, Usages(run)) && AnswerOf(key, turn.assistant, AllBlocks(run))
  {
    hide TurnOf, UsageOf, AnswerOf;
    RunFields(key, RunAt(a, span.lo), InputBefore(a, span.lo));
  }

  /** The blocks of a run are those of its events, one event after the other. */
  lemma {:induction false} AllBlocksAppend(run: seq<Event>, more: seq<Event>)
    requires forall j :: 0 <= j < |run| ==> run[j].AssistantEvent?
    requires forall j :: 0 <= j < |more| ==> more[j].AssistantEvent?
    ensures AllBlocks(run + more) == AllBlocks(run) + AllBlocks(more)
    ensures |more| == 1 ==> AllBlocks(more) == BlocksOf(more[0].content)
  {
    hide BlocksOf;
    if more == [] {
      assert run + more == run;
      assert AllBlocks(run) + [] == AllBlocks(run);
    } else {
      var front, last := more[..|more| - 1], more[|more| - 1];
      AllBlocksAppend(run, front);
      assert (run + more)[..|run + more| - 1] == run + front;
      AppendAssociates(AllBlocks(run), AllBlocks(front), BlocksOf(last.content));
      assert |more| == 1 ==> AllBlocks(front) + BlocksOf(last.content) == BlocksOf(last.content);
    }
  }

  lemma AppendAssociates(a: seq<Block>, b: seq<Block>, c: seq<Block>)
    ensures a + b + c == a + (b + c)
  {
  }

  /** A text is one plain text block unless it is empty; of a list the objects are kept in order. */
  lemma {:induction false} BlocksOfMeaning(text: string, a: seq<Block>, b: seq<Block>)
    ensures BlocksOf(Text(text)) == if text == "" then [] else [Dict("text", text, false, map[])]
    ensures BlocksOf(Missing) == []
    ensures BlocksOf(Blocks(a + b)) == BlocksOf(Blocks(a)) + BlocksOf(Blocks(b))
    ensures |b| == 1 ==> BlocksOf(Blocks(b)) == if b[0].Dict? then b else []
    decreases |b|
  {
    if b == [] {
      assert a + b == a;
    } else {
      var front, last := b[..|b| - 1], b[|b| - 1];
      BlocksOfMeaning(text, a, front);
      assert (a + b)[..|a + b| - 1] == a + front;
      AppendAssociates(Objects(a), Objects(front), if last.Dict? then [last] else []);
      assert |b| == 1 ==> front == [] && b == [last];
    }
  }

  /** Skipping drops the other events and nothing else. */
  lemma {:induction false} AcceptedAppend(a: seq<Event>, b: seq<Event>)
    ensures Accepted(a + b) == Accepted(a) + Accepted(b)
  {
    if b == [] {
      assert a + b == a;
      assert Accepted(a) + [] == Accepted(a);
    } else {
      var front, last := b[..|b| - 1], b[|b| - 1];
      AcceptedAppend(a, front);
      AcceptedStep(a + b);
      AcceptedStep(b);
      assert (a + b)[..|a + b| - 1] == a + front && (a + b)[|a + b| - 1] == last;
      hide Accepted;
      Associates(Accepted(a), Accepted(front), if last.OtherEvent? then [] else [last]);
    }
  }

  lemma AcceptedStep(e: seq<Event>)
    requires e != []
    ensures Accepted(e) == Accepted(e[..|e| - 1]) + if e[|e| - 1].OtherEvent? then [] else [e[|e| - 1]]
    ensures |e| == 1 ==> Accepted(e) == if e[0].OtherEvent? then [] else e
  {
  }

  lemma Associates(a: seq<Event>, b: seq<Event>, c: seq<Event>)
    ensures a + b + c == a + (b + c)
  {
  }
}
