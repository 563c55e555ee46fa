/** The simulator as the benchmark runs it: one pass over the turns, charging each
    turn one iteration late so that its successor is known. */
module Simulator {
  import opened Messages
  import opened Tokens
  import opened Pricing
  import opened Summaries
  import opened Replay

  method ApplyTurnMetrics(
    summary: ModeSummary, s: Settings, turn: ReplayTurn, rawInput: nat, tokenizer: Tokenizer,
    forwarded: seq<Message>, previousForwarded: seq<Message>, previousTimestamp: Option<int>,
    nextForwarded: Option<seq<Message>>, nextTimestamp: Option<int>)
    requires nextForwarded.Some? ==> nextTimestamp.Some?
    requires tokenizer == s.tokenizer(turn.model)
    modifies summary`charges
    ensures summary.charges == old(summary.charges).Plus(
              ChargeOf(s, turn, rawInput, forwarded, previousForwarded, previousTimestamp,
                       nextForwarded, nextTimestamp))
  {
    hide SharedTokens, ResolveModelRates, Cost;
    var eligible, bust, expiry := 0, 0, 0;
    var forwardedTokens: int := tokenizer.CountMessages(forwarded);
    var read: int := 0;
    if CacheGapWithinTtl(turn.timestamp, previousTimestamp, s.ttl) {
      read := CommonPrefixTokens(previousForwarded, forwarded, tokenizer);
      eligible := 1;
      if previousForwarded != [] && !(previousForwarded <= forwarded) {
        bust := 1;
      }
    } else if previousTimestamp.Some? {
      expiry := 1;
    }

    var write: int := 0;
    if nextForwarded.Some? && CacheGapWithinTtl(nextTimestamp.value, Some(turn.timestamp), s.ttl) {
      var common := CommonPrefixTokens(forwarded, nextForwarded.value, tokenizer);
      write := Clamp(common - read);
    }

    var regular := Clamp(forwardedTokens - read - write);
    var r := ResolveModelRates(s.pricing(turn.model), turn.model, s.cacheWriteMultiplier);
    var paidInput := Cost(regular, r.input);
    var cacheRead := Cost(read, r.cacheRead);
    var cacheWrite := Cost(write, r.cacheWrite);
    var paidOutput := Cost(turn.outputTokens, r.output);
    summary.charges := summary.charges.Plus(Charges(
      1, rawInput, forwardedTokens, read, write, regular, turn.outputTokens,
      paidInput, cacheRead, cacheWrite, paidOutput,
      paidInput + cacheRead + cacheWrite + paidOutput,
      eligible, bust, expiry));
  }

  method ClassifyRewrite(
    summary: ModeSummary, ttl: int, conversation: seq<Message>, forwarded: seq<Message>, priorMessages: nat,
    timestamp: int, priorForwarded: seq<Message>, priorTimestamp: Option<int>)
    modifies summary`rewrites
    ensures summary.rewrites == old(summary.rewrites).Plus(
              RewritesOf(conversation, forwarded, priorMessages, timestamp, priorForwarded, priorTimestamp, ttl))
  {
    var (rewrite, retroactive) := RewriteScope(conversation, forwarded, priorMessages);
    if rewrite {
      var r := summary.rewrites;
      r := r.(rewrites := r.rewrites + 1);
      if retroactive {
        r := r.(retroactive := r.retroactive + 1);
      } else {
        r := r.(latestOnly := r.latestOnly + 1);
      }
      if priorTimestamp.Some? && CacheGapWithinTtl(timestamp, priorTimestamp, ttl) && priorForwarded != [] {
        if priorForwarded <= forwarded {
          r := r.(stable := r.stable + 1);
        } else {
          r := r.(busting := r.busting + 1);
        }
      } else {
        r := r.(nonEligible := r.nonEligible + 1);
      }
      summary.rewrites := r;
    }
  }

  /** What is known of a request until its successor arrives. */
  datatype PendingTurn = PendingTurn(
    turn: ReplayTurn, tokenizer: Tokenizer, rawInput: nat, request: seq<Message>, forwarded: seq<Message>)

  /** The conversation after the turns so far, and the pair of lists delta replay extends. */
  datatype History = History(
    conversation: seq<Message>, tokens: nat,
    original: Option<seq<Message>>, forwarded: Option<seq<Message>>)

  ghost predicate HistoryAt(h: History, s: Settings, run: Run, i: nat)
    requires i <= |run.turns|
  {
    && h.conversation == Before(run.turns, i)
    && h.tokens == RawBefore(s, run.turns, i)
    && h.original == (if i == 0 then None else Some(Before(run.turns, i)))
    && h.forwarded == (if i == 0 then None else Some(run.forwarded[i - 1] + [run.turns[i - 1].assistant]))
  }

  lemma HistoryStart(s: Settings, run: Run)
    ensures HistoryAt(History([], 0, None, None), s, run, 0)
    ensures ChargesBetween(s, run, 0, 0) == NO_CHARGES && RewritesUpTo(s, run, 0) == NO_REWRITES
  {
  }

  ghost predicate PendingAt(p: PendingTurn, s: Settings, run: Run, i: nat)
    requires i < |run.turns|
  {
    && p.turn == run.turns[i]
    && p.tokenizer == s.tokenizer(run.turns[i].model)
    && p.rawInput == RawInput(s, run.turns, i)
    && p.request == Conversation(run.turns, i)
    && p.forwarded == run.forwarded[i]
  }

  method ForwardTurn(h: History, s: Settings, mode: Mode, ghost turns: seq<ReplayTurn>, i: nat, turn: ReplayTurn)
    returns (p: PendingTurn, next: History)
    requires i < |turns| && turn == turns[i] && HistoryAt(h, s, RunOf(mode, turns), i)
    ensures PendingAt(p, s, RunOf(mode, turns), i)
    ensures p.forwarded == RunOf(mode, turns).forwarded[i]
    ensures HistoryAt(next, s, RunOf(mode, turns), i + 1)
  {
    RunOfAt(mode, turns, i);
    if i > 0 {
      RunOfAt(mode, turns, i - 1);
    }
    var tokenizer := s.tokenizer(turn.model);
    var conversation := h.conversation + turn.input;
    var rawInput := h.tokens + tokenizer.Sum(turn.input);
    var forwarded := ApplyModeToMessages(mode, i, turn.model, conversation, h.original, h.forwarded);
    p := PendingTurn(turn, tokenizer, rawInput, conversation, forwarded);
    conversation := conversation + [turn.assistant];
    next := History(conversation, rawInput + tokenizer.message(turn.assistant),
                    Some(conversation), Some(forwarded + [turn.assistant]));
  }

  /** Charges the waiting turn k of a run, now that its successor (if any) is known. */
  method ChargePending(
    summary: ModeSummary, s: Settings, p: PendingTurn, ghost run: Run, ghost k: nat,
    previousForwarded: seq<Message>, previousTimestamp: Option<int>,
    nextForwarded: Option<seq<Message>>, nextTimestamp: Option<int>)
    requires k < |run.turns| && PendingAt(p, s, run, k)
    requires previousForwarded == PreviousForwarded(run, k)
    requires previousTimestamp == PreviousTimestamp(run, k)
    requires nextForwarded == if k + 1 < |run.turns| then Some(run.forwarded[k + 1]) else None
    requires nextTimestamp == if k + 1 < |run.turns| then Some(run.turns[k + 1].timestamp) else None
    requires summary.charges == ChargesBetween(s, run, 0, k)
    modifies summary`charges
    ensures summary.charges == ChargesBetween(s, run, 0, k + 1)
    ensures p.forwarded == run.forwarded[k] && p.turn == run.turns[k]
  {
    ApplyTurnMetrics(summary, s, p.turn, p.rawInput, p.tokenizer, p.forwarded,
      previousForwarded, previousTimestamp, nextForwarded, nextTimestamp);
  }

  /** Classifies turn i of a run; its predecessor is the waiting turn, if there is one. */
  method ClassifyTurn(
    summary: ModeSummary, s: Settings, current: PendingTurn, history: History, ghost run: Run, ghost i: nat,
    pending: Option<PendingTurn>, previousForwarded: seq<Message>, previousTimestamp: Option<int>)
    requires i < |run.turns| && PendingAt(current, s, run, i) && HistoryAt(history, s, run, i)
    requires pending.Some? <==> i > 0
    requires i > 0 ==> PendingAt(pending.value, s, run, i - 1)
    requires i == 0 ==> previousForwarded == [] && previousTimestamp == None
    requires summary.rewrites == RewritesUpTo(s, run, i)
    modifies summary`rewrites
    ensures summary.rewrites == RewritesUpTo(s, run, i + 1)
  {
    var priorForwarded := if pending.Some? then pending.value.forwarded else previousForwarded;
    var priorTimestamp := if pending.Some? then Some(pending.value.turn.timestamp) else previousTimestamp;
    ClassifyRewrite(summary, s.ttl, current.request, current.forwarded, |history.conversation|, current.turn.timestamp,
      priorForwarded, priorTimestamp);
  }

  method SimulateReplay(turns: seq<ReplayTurn>, mode: Mode, s: Settings) returns (summary: ModeSummary)
    ensures fresh(summary)
    ensures summary.mode == ModeName(mode)
    ensures summary.Value() == RunTotals(s, RunOf(mode, turns))
  {
    hide ChargesBetween, RewritesUpTo, Forwarded, ForwardedUpTo, HistoryAt, PendingAt;
    summary := new ModeSummary(ModeName(mode), 1);
    var pending: Option<PendingTurn> := None;
    var history := History([], 0, None, None);
    var previousForwarded: seq<Message> := [];
    var previousTimestamp: Option<int> := None;
    ghost var run := RunOf(mode, turns);
    HistoryStart(s, run);
    ghost var charged := 0;  // turns charged so far: one behind the turns classified

    for i := 0 to |turns|
      invariant fresh(summary) && summary.mode == ModeName(mode) && summary.sessions == 1
      invariant charged == (if i == 0 then 0 else i - 1)
      invariant HistoryAt(history, s, run, i)
      invariant pending.Some? <==> i > 0
      invariant i > 0 ==> PendingAt(pending.value, s, run, charged)
      invariant previousForwarded == PreviousForwarded(run, charged)
      invariant previousTimestamp == PreviousTimestamp(run, charged)
      invariant summary.charges == ChargesBetween(s, run, 0, charged)
      invariant summary.rewrites == RewritesUpTo(s, run, i)
    {
      var turn := turns[i];
      var current, next := ForwardTurn(history, s, mode, turns, i, turn);
      ClassifyTurn(summary, s, current, history, run, i,
        pending, previousForwarded, previousTimestamp);
      if pending.Some? {
        ChargePending(summary, s, pending.value, run, charged,
          previousForwarded, previousTimestamp, Some(current.forwarded), Some(turn.timestamp));
        previousForwarded := pending.value.forwarded;
        previousTimestamp := Some(pending.value.turn.timestamp);
      }
      charged := i;
      pending := Some(current);
      history := next;
    }

    if pending.Some? {
      ChargePending(summary, s, pending.value, run, charged,
        previousForwarded, previousTimestamp, None, None);
    }
  }
}
