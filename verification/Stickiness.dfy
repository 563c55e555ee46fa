/** Once delta replay has changed something, how the later turns are classified. */
module Stickiness {
  import opened Messages
  import opened Replay
  import opened CacheMode
  import opened Loader
  import opened LoaderLaws

  // ---------------------------------------------------------------- sessions and pipelines

  predicate NoAnswers(s: seq<Message>) {
    forall i :: 0 <= i < |s| ==> s[i].role != "assistant"
  }

  /** Answers are the assistant's, and inputs are not: the roles of every loaded session. */
  predicate LoadedRoles(turns: seq<ReplayTurn>) {
    forall i :: 0 <= i < |turns| ==> NoAnswers(turns[i].input) && turns[i].assistant.role == "assistant"
  }

  ghost predicate CountPreserving(p: Pipeline) {
    forall turn, model, messages :: |p(turn, model, messages)| == |messages|
  }

  ghost predicate NeverLonger(p: Pipeline) {
    forall turn, model, messages :: |p(turn, model, messages)| <= |messages|
  }

  /** b is all of a and then an answer. */
  predicate ContinuesWithAnswer(a: seq<Message>, b: seq<Message>) {
    |a| < |b| && (forall k :: 0 <= k < |a| ==> b[k] == a[k]) && b[|a|].role == "assistant"
  }

  /** After the first turn the pipeline never leaves an input as it is and puts an answer behind it. */
  ghost predicate NeverAnswers(p: Pipeline) {
    forall turn: nat, model, messages ::
      turn > 0 && messages != [] && NoAnswers(messages) ==> !ContinuesWithAnswer(messages, p(turn, model, messages))
  }

  /** No delta leaves its input as it is and goes on with the answer that its turn will get. */
  ghost predicate NoOwnAnswer(p: Pipeline, turns: seq<ReplayTurn>) {
    forall k :: 0 < k < |turns| ==> !(turns[k].input + [turns[k].assistant] <= Delta(p, turns, k))
  }

  ghost predicate Changed(p: Pipeline, turns: seq<ReplayTurn>, i: nat)
    requires i < |turns|
  {
    Delta(p, turns, i) != turns[i].input
  }

  /** Turn i is counted as a rewrite exactly when some delta up to it was changed. */
  ghost predicate RewriteSticks(p: Pipeline, turns: seq<ReplayTurn>, i: nat)
    requires i < |turns|
  {
    Forwarded(Cache(p), turns, i) != Conversation(turns, i) <==> exists j :: 0 <= j <= i && Changed(p, turns, j)
  }

  /** And as retroactive exactly when some delta before it was. */
  ghost predicate RetroactiveSticks(p: Pipeline, turns: seq<ReplayTurn>, i: nat)
    requires i < |turns|
  {
    RewritesHistory(Conversation(turns, i), Forwarded(Cache(p), turns, i), |Before(turns, i)|)
    <==> exists j :: 0 <= j < i && Changed(p, turns, j)
  }

  // ---------------------------------------------------------------- loaded sessions

  lemma {:induction false} AcceptedFrom(events: seq<Event>, k: nat)
    requires k < |Accepted(events)|
    ensures Accepted(events)[k] in events
  {
    var front := events[..|events| - 1];
    if k < |Accepted(front)| {
      AcceptedFrom(front, k);
      assert Accepted(events)[k] == Accepted(front)[k] && front <= events;
    }
  }

  /** The user messages of a transcript have the user's role. */
  ghost predicate UserRoles(events: seq<Event>) {
    forall e :: e in events && e.UserEvent? ==> e.message.role == "user"
  }

  predicate DistinctKeys(key: BlockKey, bs: seq<Block>) {
    forall i, j :: 0 <= i < j < |bs| ==> key(bs[i]) != key(bs[j])
  }

  predicate AllObjects(bs: seq<Block>) {
    forall i :: 0 <= i < |bs| ==> bs[i].Dict?
  }

  /** The answers the loader can build. */
  predicate LoaderAnswer(key: BlockKey, m: Message) {
    && m.role == "assistant" && m.extra == map[]
    && (m.content == Text("")
        || (m.content.Blocks? && m.content.blocks != [] && AllObjects(m.content.blocks)
            && DistinctKeys(key, m.content.blocks)))
  }

  predicate LoadedTurn(key: BlockKey, turn: ReplayTurn) {
    LoaderAnswer(key, turn.assistant) && (turn.input == [] || (|turn.input| == 1 && turn.input[0].role == "user"))
  }

  lemma {:induction false} AllBlocksAreObjects(run: seq<Event>)
    requires forall j :: 0 <= j < |run| ==> run[j].AssistantEvent?
    ensures AllObjects(AllBlocks(run))
  {
    hide BlocksOf;
    if run != [] {
      AllBlocksAreObjects(run[..|run| - 1]);
    }
  }

  lemma KeptBlocks(key: BlockKey, all: seq<Block>)
    requires AllObjects(all)
    ensures AllObjects(AddBlocks(key, [], all)) && DistinctKeys(key, AddBlocks(key, [], all))
  {
    hide AddBlocks;
    BlocksInFirstSeenOrder(key, all, |all|);
    assert all[..|all|] == all;
    var f, b := FirstSeen(key, all, |all|), AddBlocks(key, [], all);
    forall i, j | 0 <= i < j < |b|
      ensures key(b[i]) != key(b[j])
    {
      Increasing(f, i, j);
      assert IsFirst(key, all, f[j]);
    }
  }

  lemma {:induction false} Increasing(f: seq<nat>, i: nat, j: nat)
    requires forall k :: 0 < k < |f| ==> f[k - 1] < f[k]
    requires i < j < |f|
    ensures f[i] < f[j]
    decreases j
  {
    if i < j - 1 {
      Increasing(f, i, j - 1);
    }
  }

  lemma TurnOfRun(key: BlockKey, run: seq<Event>, input: seq<Message>)
    requires run != [] && forall j :: 0 <= j < |run| ==> run[j].AssistantEvent?
    ensures TurnOf(key, run, input).input == input && LoaderAnswer(key, TurnOf(key, run, input).assistant)
  {
    hide AddBlocks, MaxOf, AllBlocks, AllObjects, DistinctKeys;
    AllBlocksAreObjects(run);
    KeptBlocks(key, AllBlocks(run));
  }

  lemma SpanIsLoaded(key: BlockKey, events: seq<Event>, span: Span, turn: ReplayTurn)
    requires UserRoles(events) && SpanIsTurn(key, Accepted(events), span, turn)
    ensures LoadedTurn(key, turn)
  {
    hide TurnOf, RunAt, RunEnd, Accepted, LoaderAnswer;
    var a, lo := Accepted(events), span.lo;
    TurnOfRun(key, RunAt(a, lo), InputBefore(a, lo));
    if lo > 0 && a[lo - 1].UserEvent? {
      AcceptedFrom(events, lo - 1);
    }
  }

  /** The loader gives every turn at most one message as input, the user's, and builds every
      answer itself. */
  lemma LoadedSessions(key: BlockKey, events: seq<Event>)
    requires UserRoles(events)
    ensures forall k :: 0 <= k < |SessionTurns(key, events)| ==> LoadedTurn(key, SessionTurns(key, events)[k])
  {
    hide SessionTurns, Spans, Accepted, SpanIsTurn, LoadedTurn;
    LoaderMeetsSpecification(key, events);
    var turns := SessionTurns(key, events);
    forall k | 0 <= k < |turns|
      ensures LoadedTurn(key, turns[k])
    {
      SpanIsLoaded(key, events, Spans(Accepted(events), 0)[k], turns[k]);
    }
  }

  lemma LoadedSessionsHaveRoles(key: BlockKey, events: seq<Event>)
    requires UserRoles(events)
    ensures LoadedRoles(SessionTurns(key, events))
  {
    hide SessionTurns;
    LoadedSessions(key, events);
  }

  // ---------------------------------------------------------------- the rewrite half

  /** Number of answers in a list of messages. */
  function Answers(s: seq<Message>): nat {
    if s == [] then 0 else Answers(s[..|s| - 1]) + if s[|s| - 1].role == "assistant" then 1 else 0
  }

  lemma {:induction false} AnswersAppend(a: seq<Message>, b: seq<Message>)
    ensures Answers(a + b) == Answers(a) + Answers(b)
  {
    if b == [] {
      assert a + b == a;
    } else {
      AnswersAppend(a, b[..|b| - 1]);
      assert (a + b)[..|a + b| - 1] == a + b[..|b| - 1];
    }
  }

  lemma {:induction false} AnswersNoneIff(s: seq<Message>)
    ensures Answers(s) == 0 <==> NoAnswers(s)
  {
    if s != [] {
      var front := s[..|s| - 1];
      AnswersNoneIff(front);
      assert NoAnswers(s) ==> NoAnswers(front);
      assert s == front + [s[|s| - 1]];
    }
  }

  lemma AnswersOfRequest(c: seq<Message>, m: Message, input: seq<Message>)
    requires m.role == "assistant"
    ensures Answers(c + [m] + input) == Answers(c) + 1 + Answers(input)
  {
    AnswersAppend(c + [m], input);
    AnswersAppend(c, [m]);
    assert Answers([m]) == Answers([m][..0]) + 1;
  }

  lemma ConversationStep(turns: seq<ReplayTurn>, i: nat)
    requires i < |turns|
    ensures i == 0 ==> Conversation(turns, i) == turns[i].input
    ensures i > 0 ==> Conversation(turns, i) == Conversation(turns, i - 1) + [turns[i - 1].assistant] + turns[i].input
    ensures i > 0 ==> Before(turns, i) == Conversation(turns, i - 1) + [turns[i - 1].assistant]
  {
  }

  /** The conversation has one answer for each earlier turn, the request at least as many. */
  lemma {:induction false} AnswerCounts(p: Pipeline, turns: seq<ReplayTurn>, i: nat)
    requires i < |turns| && LoadedRoles(turns)
    ensures Answers(Conversation(turns, i)) == i
    ensures Answers(Forwarded(Cache(p), turns, i)) >= i
  {
    hide Forwarded, Conversation, Delta, Answers;
    FirstTurnIsRaw(p, turns);
    ConversationStep(turns, i);
    AnswersNoneIff(turns[i].input);
    if i > 0 {
      AnswerCounts(p, turns, i - 1);
      DeltaReplayExtends(p, turns, i);
      AnswersOfRequest(Conversation(turns, i - 1), turns[i - 1].assistant, turns[i].input);
      AnswersOfRequest(Forwarded(Cache(p), turns, i - 1), turns[i - 1].assistant, Delta(p, turns, i));
    }
  }

  /** The last answer aligns two lists whose tails hold none. */
  lemma AlignedByAnswer(c: seq<Message>, f: seq<Message>, m: Message, input: seq<Message>, delta: seq<Message>)
    requires m.role == "assistant" && NoAnswers(input) && NoAnswers(delta)
    ensures c + [m] + input == f + [m] + delta <==> c == f && input == delta
  {
    var c', f' := c + [m] + input, f + [m] + delta;
    assert c'[|c|] == m && f'[|f|] == m;
    assert |c| < |f| < |c'| ==> c'[|f|] == input[|f| - |c| - 1];
    assert |f| < |c| < |f'| ==> f'[|c|] == delta[|c| - |f| - 1];
    assert c == c'[..|c|] && input == c'[|c| + 1..];
    assert f == f'[..|f|] && delta == f'[|f| + 1..];
  }

  lemma {:induction false} NeverLongerRequests(p: Pipeline, turns: seq<ReplayTurn>, i: nat)
    requires i < |turns| && NeverLonger(p)
    ensures |Forwarded(Cache(p), turns, i)| <= |Conversation(turns, i)|
  {
    if i > 0 {
      NeverLongerRequests(p, turns, i - 1);
      DeltaReplayExtends(p, turns, i);
    }
  }

  lemma RewriteStep(p: Pipeline, turns: seq<ReplayTurn>, i: nat)
    requires 0 < i < |turns| && (LoadedRoles(turns) || NeverLonger(p))
    ensures Forwarded(Cache(p), turns, i) != Conversation(turns, i)
            <==> Forwarded(Cache(p), turns, i - 1) != Conversation(turns, i - 1) || Changed(p, turns, i)
  {
    hide Forwarded, Conversation, Delta, Answers, NeverLonger;
    DeltaReplayExtends(p, turns, i);
    ConversationStep(turns, i);
    var c, f, m := Conversation(turns, i - 1), Forwarded(Cache(p), turns, i - 1), turns[i - 1].assistant;
    var input, delta := turns[i].input, Delta(p, turns, i);
    if Forwarded(Cache(p), turns, i) == Conversation(turns, i) {
      if LoadedRoles(turns) {
        AnswerCounts(p, turns, i);
        AnswerCounts(p, turns, i - 1);
        AnswersOfRequest(f, m, delta);
        AnswersNoneIff(delta);
        AlignedByAnswer(c, f, m, input, delta);
      } else {
        NeverLongerRequests(p, turns, i - 1);
        DeltaNeverLonger(p, turns, i);
        SameLengthAligned(c, f, m, input, delta);
      }
    }
  }

  lemma DeltaNeverLonger(p: Pipeline, turns: seq<ReplayTurn>, i: nat)
    requires i < |turns| && NeverLonger(p)
    ensures |Delta(p, turns, i)| <= |turns[i].input|
  {
  }

  lemma SameLengthAligned(c: seq<Message>, f: seq<Message>, m: Message, input: seq<Message>, delta: seq<Message>)
    requires |f| <= |c| && |delta| <= |input| && c + [m] + input == f + [m] + delta
    ensures c == f && input == delta
  {
    var c' := c + [m] + input;
    assert |c'| == |f| + 1 + |delta|;
    assert c == c'[..|c|] && input == c'[|c| + 1..];
  }

  lemma FirstTurnIsRaw(p: Pipeline, turns: seq<ReplayTurn>)
    requires turns != []
    ensures Forwarded(Cache(p), turns, 0) == Conversation(turns, 0) && !Changed(p, turns, 0)
    ensures !RewritesHistory(Conversation(turns, 0), Forwarded(Cache(p), turns, 0), |Before(turns, 0)|)
  {
  }

  /** On every loaded session, with any pipeline at all, a turn is a rewrite iff some delta up
      to it was changed; and on any session if the pipeline never returns more than it got. */
  lemma {:induction false} RewriteIffChanged(p: Pipeline, turns: seq<ReplayTurn>, i: nat)
    requires i < |turns| && (LoadedRoles(turns) || NeverLonger(p))
    ensures RewriteSticks(p, turns, i)
  {
    hide Forwarded, Conversation, Changed, LoadedRoles, NeverLonger;
    FirstTurnIsRaw(p, turns);
    if i > 0 {
      RewriteIffChanged(p, turns, i - 1);
      RewriteStep(p, turns, i);
    }
  }

  // ---------------------------------------------------------------- the retroactive half

  /** Where an input and its answer lead a delta and the same answer, the delta is the input. */
  lemma InputFits(input: seq<Message>, delta: seq<Message>, a: Message, tail: seq<Message>)
    requires NoAnswers(input) && a.role == "assistant" && !(input + [a] <= delta)
    requires input + [a] <= delta + [a] + tail
    ensures input == delta
  {
    var l, r := input + [a], delta + [a] + tail;
    PrefixByIndex(l, delta);
    assert forall k :: 0 <= k < |l| ==> l[k] == r[k];
    assert forall k :: 0 <= k < |input| ==> l[k] == input[k];
    assert forall k :: 0 <= k < |delta| ==> r[k] == delta[k];
    assert r[|delta|] == a && l[|input|] == a;
  }

  lemma PrefixByIndex(a: seq<Message>, b: seq<Message>)
    ensures a <= b <==> |a| <= |b| && forall k :: 0 <= k < |a| ==> a[k] == b[k]
  {
  }

  lemma CancelPrefix(c: seq<Message>, x: seq<Message>, y: seq<Message>)
    requires c + x <= c + y
    ensures x <= y
  {
    assert forall k :: 0 <= k < |x| ==> x[k] == (c + x)[|c| + k] == (c + y)[|c| + k] == y[k];
  }

  lemma {:induction false} PrefixMeansUnchanged(p: Pipeline, turns: seq<ReplayTurn>, k: nat, tail: seq<Message>)
    requires k < |turns| && LoadedRoles(turns) && NoOwnAnswer(p, turns)
    requires Conversation(turns, k) + [turns[k].assistant]
             <= Forwarded(Cache(p), turns, k) + [turns[k].assistant] + tail
    ensures Conversation(turns, k) == Forwarded(Cache(p), turns, k)
  {
    hide Forwarded, NoOwnAnswer, Conversation, Delta;
    FirstTurnIsRaw(p, turns);
    if k > 0 {
      DeltaReplayExtends(p, turns, k);
      ConversationStep(turns, k);
      var c, f, m := Conversation(turns, k - 1), Forwarded(Cache(p), turns, k - 1), turns[k - 1].assistant;
      var input, delta, a := turns[k].input, Delta(p, turns, k), turns[k].assistant;
      Regroup(c, m, input, a, f, delta, tail);
      PrefixMeansUnchanged(p, turns, k - 1, delta + [a] + tail);
      CancelPrefix(c + [m], input + [a], delta + [a] + tail);
      OwnAnswerAt(p, turns, k);
      InputFits(input, delta, a, tail);
    }
  }

  lemma Regroup(c: seq<Message>, m: Message, input: seq<Message>, a: Message, f: seq<Message>,
                delta: seq<Message>, tail: seq<Message>)
    requires c + [m] + input + [a] <= f + [m] + delta + [a] + tail
    ensures c + [m] <= f + [m] + (delta + [a] + tail)
    ensures (c + [m]) + (input + [a]) <= (f + [m]) + (delta + [a] + tail)
  {
    assert c + [m] + input + [a] == (c + [m]) + (input + [a]);
    assert f + [m] + delta + [a] + tail == (f + [m]) + (delta + [a] + tail);
  }

  lemma OwnAnswerAt(p: Pipeline, turns: seq<ReplayTurn>, k: nat)
    requires 0 < k < |turns| && NoOwnAnswer(p, turns)
    ensures !(turns[k].input + [turns[k].assistant] <= Delta(p, turns, k))
  {
  }

  lemma NeverAnswersMeansNoOwn(p: Pipeline, turns: seq<ReplayTurn>)
    requires LoadedRoles(turns) && NeverAnswers(p)
    ensures NoOwnAnswer(p, turns)
  {
    forall k | 0 < k < |turns|
      ensures !(turns[k].input + [turns[k].assistant] <= Delta(p, turns, k))
    {
      var x := turns[k].input + [turns[k].assistant];
      PrefixByIndex(x, Delta(p, turns, k));
      assert forall j :: 0 <= j < |turns[k].input| ==> x[j] == turns[k].input[j];
      assert x[|turns[k].input|] == turns[k].assistant;
    }
  }

  lemma RetroactiveStep(p: Pipeline, turns: seq<ReplayTurn>, i: nat)
    requires 0 < i < |turns| && LoadedRoles(turns) && NoOwnAnswer(p, turns)
    ensures RewritesHistory(Conversation(turns, i), Forwarded(Cache(p), turns, i), |Before(turns, i)|)
            <==> Forwarded(Cache(p), turns, i - 1) != Conversation(turns, i - 1)
  {
    DeltaReplayExtends(p, turns, i);
    hide Forwarded, NoOwnAnswer, Delta, RewritesHistory;
    var c, f, m := Conversation(turns, i - 1), Forwarded(Cache(p), turns, i - 1), turns[i - 1].assistant;
    HistoryIffNotPrefix(c + [m], Conversation(turns, i), Forwarded(Cache(p), turns, i));
    if c + [m] <= f + [m] + Delta(p, turns, i) {
      PrefixMeansUnchanged(p, turns, i - 1, Delta(p, turns, i));
    }
  }

  lemma {:induction false} ForwardedLength(p: Pipeline, turns: seq<ReplayTurn>, i: nat)
    requires i < |turns| && CountPreserving(p)
    ensures |Forwarded(Cache(p), turns, i)| == |Conversation(turns, i)|
  {
    if i > 0 {
      ForwardedLength(p, turns, i - 1);
      DeltaReplayExtends(p, turns, i);
    }
  }

  lemma RetroactiveStepByCount(p: Pipeline, turns: seq<ReplayTurn>, i: nat)
    requires 0 < i < |turns| && CountPreserving(p)
    ensures RewritesHistory(Conversation(turns, i), Forwarded(Cache(p), turns, i), |Before(turns, i)|)
            <==> Forwarded(Cache(p), turns, i - 1) != Conversation(turns, i - 1)
  {
    ForwardedLength(p, turns, i - 1);
    DeltaReplayExtends(p, turns, i);
    hide Forwarded, Delta, RewritesHistory;
    var c, f, m := Conversation(turns, i - 1), Forwarded(Cache(p), turns, i - 1), turns[i - 1].assistant;
    HistoryIffNotPrefix(c + [m], Conversation(turns, i), Forwarded(Cache(p), turns, i));
    assert (f + [m] + Delta(p, turns, i))[..|f|] == f && (c + [m])[..|c|] == c;
  }

  /** What the retroactive half asks: on sessions with the roles of loaded ones, that no delta
      gives its turn's answer away; on any session, preserved message counts. */
  ghost predicate Sticky(p: Pipeline, turns: seq<ReplayTurn>) {
    (LoadedRoles(turns) && NoOwnAnswer(p, turns)) || CountPreserving(p)
  }

  lemma {:induction false} RetroactiveIffChangedBefore(p: Pipeline, turns: seq<ReplayTurn>, i: nat)
    requires i < |turns| && Sticky(p, turns)
    ensures RetroactiveSticks(p, turns, i)
  {
    FirstTurnIsRaw(p, turns);
    if i > 0 {
      RewriteIffChanged(p, turns, i - 1);
      hide Forwarded, Conversation, Before, Changed, RewritesHistory, LoadedRoles, NoOwnAnswer, CountPreserving;
      if CountPreserving(p) {
        RetroactiveStepByCount(p, turns, i);
      } else {
        RetroactiveStep(p, turns, i);
      }
    }
  }

  // ---------------------------------------------------------------- the condition is exact

  /** Neighbours differ. */
  function Alternate(j: nat): string {
    if j % 2 == 0 then "even" else "odd"
  }

  function SmallTurn(id: string, model: string, input: seq<Message>, answer: Message): ReplayTurn {
    ReplayTurn(id, model, 0, input, answer, 0, 0, 0, 0)
  }

  /** Nothing happens before turn t; at turn t the pipeline is given `messages`, and the
      session's answer is the message `a`. */
  function AnsweredSession(t: nat, model: string, messages: seq<Message>, a: Message): (turns: seq<ReplayTurn>)
    ensures |turns| == t + 2
  {
    seq(t + 2, j requires 0 <= j < t + 2 => SmallTurn(Alternate(j), model, if j == t then messages else [], a))
  }

  lemma AnswerHidesRewrite(p: Pipeline, t: nat, model: string, messages: seq<Message>)
    requires t > 0 && messages != [] && NoAnswers(messages)
    requires ContinuesWithAnswer(messages, p(t, model, messages))
    ensures var turns := AnsweredSession(t, model, messages, p(t, model, messages)[|messages|]);
            LoadedRoles(turns) && Changed(p, turns, t) && !RetroactiveSticks(p, turns, t + 1)
  {
    hide Forwarded, Conversation, Before, RewritesHistory, Delta, AnsweredSession, LoadedRoles;
    var out := p(t, model, messages);
    var a := out[|messages|];
    var turns := AnsweredSession(t, model, messages, a);
    UnchangedBefore(p, t, model, messages, a);
    DeltaIsOutput(p, turns, t, model, messages);
    DeltaReplayExtends(p, turns, t);
    DeltaReplayExtends(p, turns, t + 1);
    ConversationStep(turns, t);
    ConversationStep(turns, t + 1);
    var c, f, rest := Conversation(turns, t), Forwarded(Cache(p), turns, t + 1), out[|messages| + 1..];
    assert out == messages + [a] + rest;
    HiddenRewrite(Conversation(turns, t - 1), a, messages, rest, Delta(p, turns, t + 1));
    HistoryIffNotPrefix(c + [a], Conversation(turns, t + 1), f);
  }

  lemma DeltaIsOutput(p: Pipeline, turns: seq<ReplayTurn>, t: nat, model: string, messages: seq<Message>)
    requires 0 < t < |turns| && turns[t].input == messages != [] && turns[t].model == model
    requires p(t, model, messages) != messages
    ensures Delta(p, turns, t) == p(t, model, messages) && Changed(p, turns, t)
  {
  }

  /** The answer inside the delta stands where the conversation has its own. */
  lemma HiddenRewrite(c: seq<Message>, a: Message, messages: seq<Message>, rest: seq<Message>, delta: seq<Message>)
    ensures c + [a] + messages + [a] <= c + [a] + (messages + [a] + rest) + [a] + delta
  {
    assert c + [a] + (messages + [a] + rest) + [a] + delta == (c + [a] + messages + [a]) + (rest + [a] + delta);
  }

  lemma UnchangedBefore(p: Pipeline, t: nat, model: string, messages: seq<Message>, a: Message)
    requires t > 0 && NoAnswers(messages) && a.role == "assistant"
    ensures var turns := AnsweredSession(t, model, messages, a);
            && LoadedRoles(turns)
            && Forwarded(Cache(p), turns, t - 1) == Conversation(turns, t - 1)
            && turns[t].input == messages && turns[t].model == model
            && turns[t].assistant == turns[t - 1].assistant == a && turns[t + 1].input == []
  {
    hide Forwarded, Conversation;
    var turns := AnsweredSession(t, model, messages, a);
    RewriteIffChanged(p, turns, t - 1);
    assert forall j :: 0 <= j < t ==> !Changed(p, turns, j);
  }

  /** On sessions with the roles of loaded ones, but any inputs and answers, the retroactive half
      holds for a pipeline iff it never leaves an input as it is and puts an answer behind it. */
  lemma RetroactiveExactly(p: Pipeline)
    ensures NeverAnswers(p)
            <==> forall turns: seq<ReplayTurn>, i: nat ::
                   LoadedRoles(turns) && i < |turns| ==> RetroactiveSticks(p, turns, i)
  {
    hide RetroactiveSticks, LoadedRoles, Changed;
    if NeverAnswers(p) {
      forall turns: seq<ReplayTurn>, i: nat | LoadedRoles(turns) && i < |turns|
        ensures RetroactiveSticks(p, turns, i)
      {
        NeverAnswersMeansNoOwn(p, turns);
        RetroactiveIffChangedBefore(p, turns, i);
      }
    } else {
      var t: nat, model, messages :|
        t > 0 && messages != [] && NoAnswers(messages) && ContinuesWithAnswer(messages, p(t, model, messages));
      AnswerHidesRewrite(p, t, model, messages);
    }
  }

  // ---------------------------------------------------------------- loaded witnesses

  function SmallAnswer(id: string, model: string, content: Content): (e: Event)
    ensures e.AssistantEvent?
  {
    AssistantEvent(id, model, 0, content, Usage(0, 0, 0, 0))
  }

  lemma {:induction false} NothingSkipped(events: seq<Event>)
    requires forall j :: 0 <= j < |events| ==> !events[j].OtherEvent?
    ensures Accepted(events) == events
  {
    if events != [] {
      NothingSkipped(events[..|events| - 1]);
    }
  }

  lemma {:induction false} ObjectsStay(bs: seq<Block>)
    requires AllObjects(bs)
    ensures Objects(bs) == bs
  {
    if bs != [] {
      ObjectsStay(bs[..|bs| - 1]);
    }
  }

  lemma NewKey(key: BlockKey, bs: seq<Block>)
    requires bs != [] && DistinctKeys(key, bs)
    ensures DistinctKeys(key, bs[..|bs| - 1]) && !Seen(key, bs[..|bs| - 1], key(bs[|bs| - 1]))
  {
  }

  lemma AddBlocksStep(key: BlockKey, bs: seq<Block>)
    ensures bs == [] ==> AddBlocks(key, [], bs) == []
    ensures bs != [] ==>
              var rest, b := AddBlocks(key, [], bs[..|bs| - 1]), bs[|bs| - 1];
              AddBlocks(key, [], bs) == if Seen(key, rest, key(b)) then rest else rest + [b]
  {
    hide Seen;
  }

  lemma {:induction false} DistinctBlocksStay(key: BlockKey, bs: seq<Block>)
    requires DistinctKeys(key, bs)
    ensures AddBlocks(key, [], bs) == bs
  {
    hide Seen, DistinctKeys, AddBlocks;
    AddBlocksStep(key, bs);
    if bs != [] {
      NewKey(key, bs);
      DistinctBlocksStay(key, bs[..|bs| - 1]);
      assert bs == bs[..|bs| - 1] + [bs[|bs| - 1]];
    }
  }

  /** What an assistant message must hold for the loader to build the answer a. */
  function ContentFor(a: Message): Content {
    if a.content.Blocks? then a.content else Blocks([])
  }

  lemma OneEventTurn(key: BlockKey, id: string, model: string, a: Message, input: seq<Message>)
    requires LoaderAnswer(key, a)
    ensures TurnOf(key, [SmallAnswer(id, model, ContentFor(a))], input) == SmallTurn(id, model, input, a)
  {
    hide AddBlocks;
    var run := [SmallAnswer(id, model, ContentFor(a))];
    var bs := if a.content.Blocks? then a.content.blocks else [];
    assert run[..0] == [];
    assert AllBlocks(run) == AllBlocks(run[..0]) + BlocksOf(ContentFor(a));
    ObjectsStay(bs);
    assert AllBlocks(run) == [] + bs == bs;
    DistinctBlocksStay(key, bs);
    ZeroUsage(run, (v: Usage) => v.output);
    ZeroUsage(run, (v: Usage) => v.input);
    ZeroUsage(run, (v: Usage) => v.cacheRead);
    ZeroUsage(run, (v: Usage) => v.cacheWrite);
  }

  lemma ZeroUsage(run: seq<Event>, field: Usage -> int)
    requires |run| == 1 && run[0].AssistantEvent? && field(run[0].usage) == 0
    ensures MaxOf(run, field) == 0
  {
    assert MaxOf(run[..0], field) == 0;
  }

  /** A run of one event is one turn. */
  lemma SmallRun(key: BlockKey, a: seq<Event>, i: nat, id: string, model: string, m: Message, input: seq<Message>)
    requires i < |a| && a[i] == SmallAnswer(id, model, ContentFor(m)) && LoaderAnswer(key, m)
    requires i + 1 < |a| ==> !SameRequest(a, i, i + 1)
    requires forall j :: 0 <= j < |a| ==> !a[j].OtherEvent?
    ensures TurnsFrom(key, a, i, input) == [SmallTurn(id, model, input, m)] + TurnsFrom(key, a, i + 1, [])
  {
    hide TurnOf, LoaderAnswer;
    assert RunEnd(a, i, i + 1) == i + 1;
    assert RunAt(a, i) == [a[i]];
    OneEventTurn(key, id, model, m, input);
  }

  lemma UserStep(key: BlockKey, a: seq<Event>, i: nat, u: Message)
    requires i < |a| && a[i] == UserEvent(u) && forall j :: 0 <= j < |a| ==> !a[j].OtherEvent?
    ensures TurnsFrom(key, a, i, []) == TurnsFrom(key, a, i + 1, [u])
  {
    hide TurnOf, RunAt, RunEnd;
  }

  // ---------------------------------------------------------------- the condition on loaded sessions

  /** t answers of different requests that follow each other directly, a question, its answer,
      and one more answer of yet another request. */
  function AnsweredTranscript(t: nat, model: string, u: Message, a: Message): (events: seq<Event>)
    ensures |events| == t + 3
    ensures forall j :: 0 <= j < t + 3 ==> events[j] == AnsweredEvent(t, model, u, a, j)
  {
    seq(t + 3, j requires 0 <= j < t + 3 => AnsweredEvent(t, model, u, a, j))
  }

  function AnsweredEvent(t: nat, model: string, u: Message, a: Message, j: nat): (e: Event)
    ensures !e.OtherEvent?
  {
    if j == t then UserEvent(u) else SmallAnswer(Alternate(if j < t then j else j - 1), model, ContentFor(a))
  }

  lemma {:induction false} AnsweredTurnsFrom(
    key: BlockKey, t: nat, model: string, u: Message, a: Message, i: nat)
    requires i <= t && LoaderAnswer(key, a)
    ensures TurnsFrom(key, AnsweredTranscript(t, model, u, a), i, []) == AnsweredSession(t, model, [u], a)[i..]
    decreases t - i
  {
    hide TurnsFrom, LoaderAnswer, SmallAnswer, SmallTurn;
    var events, turns := AnsweredTranscript(t, model, u, a), AnsweredSession(t, model, [u], a);
    if i < t {
      NeighboursDiffer(t, model, u, a, i);
      AnsweredTurnsFrom(key, t, model, u, a, i + 1);
      SmallRun(key, events, i, Alternate(i), model, a, []);
      assert turns[i..] == [turns[i]] + turns[i + 1..];
    } else {
      UserStep(key, events, t, u);
      NeighboursDiffer(t, model, u, a, t + 1);
      SmallRun(key, events, t + 1, Alternate(t), model, a, [u]);
      SmallRun(key, events, t + 2, Alternate(t + 1), model, a, []);
      AllClosed(key, events, []);
      assert turns[t..] == [turns[t]] + ([turns[t + 1]] + []);
    }
  }

  lemma NeighboursDiffer(t: nat, model: string, u: Message, a: Message, j: nat)
    requires j < t + 2
    ensures !SameRequest(AnsweredTranscript(t, model, u, a), j, j + 1)
  {
  }

  lemma AnsweredTranscriptRoles(t: nat, model: string, u: Message, a: Message)
    requires u.role == "user"
    ensures UserRoles(AnsweredTranscript(t, model, u, a))
  {
    var events := AnsweredTranscript(t, model, u, a);
    forall e | e in events && e.UserEvent?
      ensures e == UserEvent(u)
    {
      var j :| 0 <= j < |events| && events[j] == e;
    }
  }

  lemma AnsweredTranscriptLoads(key: BlockKey, t: nat, model: string, u: Message, a: Message)
    requires LoaderAnswer(key, a)
    ensures SessionTurns(key, AnsweredTranscript(t, model, u, a)) == AnsweredSession(t, model, [u], a)
  {
    hide TurnsFrom, LoaderAnswer, AnsweredTranscript, AnsweredSession;
    var turns := AnsweredSession(t, model, [u], a);
    NothingSkipped(AnsweredTranscript(t, model, u, a));
    AnsweredTurnsFrom(key, t, model, u, a, 0);
    assert turns[0..] == turns;
  }

  /** After the first turn the pipeline never leaves a user message as it is and goes on with an
      answer that the loader could have built. */
  ghost predicate NeverGivesAnswer(p: Pipeline, key: BlockKey) {
    forall turn: nat, model: string, u: Message, a: Message ::
      turn > 0 && u.role == "user" && LoaderAnswer(key, a) ==> !([u, a] <= p(turn, model, [u]))
  }

  lemma LoadedGivesNoOwnAnswer(p: Pipeline, key: BlockKey, turns: seq<ReplayTurn>)
    requires NeverGivesAnswer(p, key) && forall k :: 0 <= k < |turns| ==> LoadedTurn(key, turns[k])
    ensures NoOwnAnswer(p, turns)
  {
    hide LoaderAnswer;
    forall k | 0 < k < |turns|
      ensures !(turns[k].input + [turns[k].assistant] <= Delta(p, turns, k))
    {
      var u, a := turns[k].input, turns[k].assistant;
      assert LoadedTurn(key, turns[k]);
      assert u != [] ==> u == [u[0]] && u + [a] == [u[0], a];
    }
  }

  /** The retroactive half on every turn of a loaded session. */
  ghost predicate SticksThroughout(p: Pipeline, turns: seq<ReplayTurn>) {
    forall i :: 0 <= i < |turns| ==> RetroactiveSticks(p, turns, i)
  }

  lemma LoadedSessionSticks(p: Pipeline, key: BlockKey, events: seq<Event>)
    requires NeverGivesAnswer(p, key) && UserRoles(events)
    ensures SticksThroughout(p, SessionTurns(key, events))
  {
    hide RetroactiveSticks, LoadedRoles, SessionTurns, LoadedTurn, NoOwnAnswer;
    var turns := SessionTurns(key, events);
    LoadedSessions(key, events);
    LoadedSessionsHaveRoles(key, events);
    LoadedGivesNoOwnAnswer(p, key, turns);
    forall i | 0 <= i < |turns|
      ensures RetroactiveSticks(p, turns, i)
    {
      RetroactiveIffChangedBefore(p, turns, i);
    }
  }

  /** The exact condition on loaded sessions: over every transcript the retroactive half holds for
      a pipeline iff it never gives an answer of the loader away behind an unchanged message. */
  lemma RetroactiveExactlyLoaded(p: Pipeline, key: BlockKey)
    ensures NeverGivesAnswer(p, key)
            <==> forall events: seq<Event> :: UserRoles(events) ==> SticksThroughout(p, SessionTurns(key, events))
  {
    hide RetroactiveSticks, SessionTurns, LoaderAnswer;
    if NeverGivesAnswer(p, key) {
      forall events: seq<Event> | UserRoles(events)
        ensures SticksThroughout(p, SessionTurns(key, events))
      {
        LoadedSessionSticks(p, key, events);
      }
    } else {
      var t: nat, model: string, u: Message, a: Message :|
        t > 0 && u.role == "user" && LoaderAnswer(key, a) && [u, a] <= p(t, model, [u]);
      LoadedWitness(p, key, t, model, u, a);
    }
  }

  lemma LoadedWitness(p: Pipeline, key: BlockKey, t: nat, model: string, u: Message, a: Message)
    requires t > 0 && u.role == "user" && LoaderAnswer(key, a) && [u, a] <= p(t, model, [u])
    ensures var events := AnsweredTranscript(t, model, u, a);
            && UserRoles(events) && |SessionTurns(key, events)| == t + 2
            && !RetroactiveSticks(p, SessionTurns(key, events), t + 1)
  {
    hide RetroactiveSticks, SessionTurns, AnsweredSession;
    var out := p(t, model, [u]);
    assert out[0] == [u, a][0] && out[1] == [u, a][1];
    AnsweredTranscriptLoads(key, t, model, u, a);
    AnsweredTranscriptRoles(t, model, u, a);
    AnswerHidesRewrite(p, t, model, [u]);
  }

  // ---------------------------------------------------------------- three questions

  function SmallTranscript(u: Message, a: Message): seq<Event> {
    var content := ContentFor(a);
    [UserEvent(u), SmallAnswer("r0", "", content), UserEvent(u), SmallAnswer("r1", "", content),
     UserEvent(u), SmallAnswer("r2", "", content)]
  }

  lemma SmallSession(key: BlockKey, u: Message, a: Message)
    requires LoaderAnswer(key, a)
    ensures SessionTurns(key, SmallTranscript(u, a))
            == [SmallTurn("r0", "", [u], a), SmallTurn("r1", "", [u], a), SmallTurn("r2", "", [u], a)]
  {
    hide TurnsFrom, Accepted, RunAt, RunEnd, LoaderAnswer;
    var e := SmallTranscript(u, a);
    NothingSkipped(e);
    UserStep(key, e, 0, u);
    SmallRun(key, e, 1, "r0", "", a, [u]);
    UserStep(key, e, 2, u);
    SmallRun(key, e, 3, "r1", "", a, [u]);
    UserStep(key, e, 4, u);
    SmallRun(key, e, 5, "r2", "", a, [u]);
    AllClosed(key, e, []);
  }

  /** Answers every input by itself. */
  function AnsweringPipeline(answer: Message): Pipeline {
    (turn: nat, model: string, messages: seq<Message>) => messages + [answer]
  }

  /** A transcript of three questions with one and the same answer, and a pipeline that gives
      that answer away: the second turn's rewrite is not seen as retroactive from the third. */
  lemma RewritesNeedNotStick(key: BlockKey, u: Message, answer: Message)
    requires u.role == "user" && LoaderAnswer(key, answer)
    ensures var turns := SessionTurns(key, SmallTranscript(u, answer));
            var p := AnsweringPipeline(answer);
            && LoadedRoles(turns) && |turns| == 3
            && Changed(p, turns, 1)
            && Forwarded(Cache(p), turns, 2) != Conversation(turns, 2)
            && !RewritesHistory(Conversation(turns, 2), Forwarded(Cache(p), turns, 2), |Before(turns, 2)|)
  {
    var turns, p := SessionTurns(key, SmallTranscript(u, answer)), AnsweringPipeline(answer);
    hide Forwarded, Conversation, Before, RewritesHistory, SessionTurns, SmallTranscript;
    SmallSession(key, u, answer);
    FirstTurnIsRaw(p, turns);
    DeltaReplayExtends(p, turns, 1);
    DeltaReplayExtends(p, turns, 2);
    ConversationStep(turns, 1);
    ConversationStep(turns, 2);
    assert turns[1].input == turns[2].input == [u];
    AnsweringDelta(answer, turns, 1, u);
    AnsweringDelta(answer, turns, 2, u);
    var c := Conversation(turns, 1);
    assert Forwarded(Cache(p), turns, 2) == (c + [answer]) + [answer, u, answer];
    assert Conversation(turns, 2) == (c + [answer]) + [u];
    HistoryIffNotPrefix(c + [answer], Conversation(turns, 2), Forwarded(Cache(p), turns, 2));
    assert |Forwarded(Cache(p), turns, 2)| != |Conversation(turns, 2)|;
  }

  lemma AnsweringDelta(answer: Message, turns: seq<ReplayTurn>, i: nat, u: Message)
    requires 0 < i < |turns| && turns[i].input == [u]
    ensures Delta(AnsweringPipeline(answer), turns, i) == [u, answer]
    ensures Changed(AnsweringPipeline(answer), turns, i)
  {
    assert |Delta(AnsweringPipeline(answer), turns, i)| == 2;
  }

  // ---------------------------------------------------------------- counts

  /** Turn d is the first whose delta the pipeline changed. */
  ghost predicate FirstChange(p: Pipeline, turns: seq<ReplayTurn>, d: nat)
    requires d <= |turns|
  {
    && (forall j :: 0 <= j < d ==> !Changed(p, turns, j))
    && (d < |turns| ==> Changed(p, turns, d))
  }

  lemma RewriteOfTurn(s: Settings, p: Pipeline, turns: seq<ReplayTurn>, d: nat, i: nat)
    requires LoadedRoles(turns) || NeverLonger(p)
    requires d <= |turns| && i < |turns| && FirstChange(p, turns, d)
    ensures var r := RewritesAt(s, RunOf(Cache(p), turns), i);
            && r.rewrites == (if d <= i then 1 else 0) == r.latestOnly + r.retroactive
            && (Sticky(p, turns) ==> r.latestOnly == (if i == d then 1 else 0)
                                     && r.retroactive == (if d < i then 1 else 0))
  {
    hide Changed, Forwarded, ForwardedUpTo, RewritesHistory, Sticky, LoadedRoles, NeverLonger;
    RunOfAt(Cache(p), turns, i);
    RewriteIffChanged(p, turns, i);
    if Sticky(p, turns) {
      RetroactiveIffChangedBefore(p, turns, i);
    }
  }

  /** From the first change on every turn is a rewrite; the first one is the only
      latest-turn-only rewrite, and all later ones are retroactive. */
  lemma {:induction false} RewriteCounts(s: Settings, p: Pipeline, turns: seq<ReplayTurn>, d: nat, k: nat)
    requires LoadedRoles(turns) || NeverLonger(p)
    requires d <= |turns| && k <= |turns| && FirstChange(p, turns, d)
    ensures var r := RewritesUpTo(s, RunOf(Cache(p), turns), k);
            && r.rewrites == (if d < k then k - d else 0) == r.latestOnly + r.retroactive
            && (Sticky(p, turns) ==> r.latestOnly == (if d < k then 1 else 0)
                                     && r.retroactive == (if d < k then k - d - 1 else 0))
  {
    hide RewritesAt, FirstChange, Forwarded, ForwardedUpTo, Sticky, LoadedRoles, NeverLonger;
    if k > 0 {
      RewriteCounts(s, p, turns, d, k - 1);
      RewriteOfTurn(s, p, turns, d, k - 1);
    }
  }
}
