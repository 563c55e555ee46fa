/** The replay of one session: what each turn forwards, and what a run of
    forwarded requests is charged.

    Everything here is a function of the whole run.  The simulator, which works
    one turn behind itself, is proved against these functions in Simulator. */
module Replay {
  import opened Messages
  import opened Tokens
  import opened Pricing
  import opened Summaries

  datatype ReplayTurn = ReplayTurn(
    requestId: string, model: string, timestamp: int,
    input: seq<Message>, assistant: Message, outputTokens: nat,
    observedInput: nat, observedCacheRead: nat, observedCacheWrite: nat)

  datatype SessionReplay = SessionReplay(sessionId: string, project: string, turns: seq<ReplayTurn>)

  /** The latest turns only; no limit, or one that is not positive, keeps them all. */
  function TrimToRecentTurns(replay: SessionReplay, recent: Option<int>): SessionReplay {
    var turns := replay.turns;
    if recent.None? || recent.value <= 0 || |turns| <= recent.value then replay
    else replay.(turns := turns[|turns| - recent.value..])
  }

  /** A limit keeps the latest turns, as many as it says; none, or one that is not positive,
      keeps them all.  Nothing else of the session changes. */
  lemma TrimKeepsLatest(replay: SessionReplay, recent: Option<int>)
    ensures var kept := TrimToRecentTurns(replay, recent);
            && kept.sessionId == replay.sessionId && kept.project == replay.project
            && (recent.None? || recent.value <= 0 ==> kept == replay)
            && (recent.Some? && recent.value > 0 ==>
                  && |kept.turns| == (if recent.value < |replay.turns| then recent.value else |replay.turns|)
                  && replay.turns == replay.turns[..|replay.turns| - |kept.turns|] + kept.turns)
  {
    var n := |replay.turns| - |TrimToRecentTurns(replay, recent).turns|;
    assert replay.turns == replay.turns[..n] + replay.turns[n..];
    assert replay.turns == [] + replay.turns;
  }

  lemma SuffixUnique(older: seq<ReplayTurn>, latest: seq<ReplayTurn>, kept: seq<ReplayTurn>)
    requires |kept| == |latest| && older + latest == (older + latest)[..|older|] + kept
    ensures kept == latest
  {
    var all := older + latest;
    assert all[|older|..] == latest;
    assert (all[..|older|] + kept)[|older|..] == kept;
  }

  /** A compression pipeline: any messages out for any messages in, and a different
      answer on each turn if it likes (it may carry state of its own). */
  type Pipeline = (nat, string, seq<Message>) -> seq<Message>

  /** Token mode reprocesses the whole conversation with hidden caches, so it is
      any function of turn, model and conversation. */
  datatype Mode = Baseline | Token(rewrite: Pipeline) | Cache(pipeline: Pipeline)

  function ModeName(mode: Mode): string {
    match mode
    case Baseline => "baseline"
    case Token(_) => "token"
    case Cache(_) => "cache"
  }

  datatype Settings = Settings(
    tokenizer: string -> Tokenizer, pricing: string -> Option<Price>,
    ttl: int, cacheWriteMultiplier: real)

  // ---------------------------------------------------------------- forwarding

  /** The messages appended since the previous request, next to what was forwarded
      for everything before them; None when the history itself changed. */
  function ExtractCacheStableDelta(
    current: seq<Message>, previousOriginal: Option<seq<Message>>, previousForwarded: Option<seq<Message>>)
    : Option<(seq<Message>, seq<Message>)>
  {
    if previousOriginal.None? || previousForwarded.None? then None
    else
      var stable := |previousOriginal.value|;
      if |current| < stable then None
      else if current[..stable] != previousOriginal.value then None
      else Some((previousForwarded.value, current[stable..]))
  }

  function ApplyModeToMessages(
    mode: Mode, turn: nat, model: string, messages: seq<Message>,
    previousOriginal: Option<seq<Message>>, previousForwarded: Option<seq<Message>>): seq<Message>
  {
    match mode
    case Baseline => messages
    case Token(rewrite) => rewrite(turn, model, messages)
    case Cache(pipeline) =>
      match ExtractCacheStableDelta(messages, previousOriginal, previousForwarded)
      case Some((prefix, delta)) =>
        if delta == [] then prefix else prefix + pipeline(turn, model, delta)
      case None => messages
  }

  /** The conversation before turn i's own input. */
  function Before(turns: seq<ReplayTurn>, i: nat): seq<Message>
    requires i <= |turns|
    decreases i, 0
  {
    if i == 0 then [] else Conversation(turns, i - 1) + [turns[i - 1].assistant]
  }

  /** The uncompressed request of turn i. */
  function Conversation(turns: seq<ReplayTurn>, i: nat): seq<Message>
    requires i < |turns|
    decreases i, 1
  {
    Before(turns, i) + turns[i].input
  }

  /** Extraction succeeds iff there was a request before and its conversation only grew; it
      hands out what was forwarded and what came new. */
  lemma ExtractionIff(current: seq<Message>, original: Option<seq<Message>>, forwarded: Option<seq<Message>>)
    ensures var e := ExtractCacheStableDelta(current, original, forwarded);
            && (e.Some? <==> original.Some? && forwarded.Some? && original.value <= current)
            && (e.Some? ==> e.value.0 == forwarded.value && original.value + e.value.1 == current)
  {
    if original.Some? && |original.value| <= |current| {
      assert current == current[..|original.value|] + current[|original.value|..];
    }
  }

  /** What turn i sends, given what every earlier turn sent. */
  function Forwarded(mode: Mode, turns: seq<ReplayTurn>, i: nat): seq<Message>
    requires i < |turns|
  {
    ApplyModeToMessages(mode, i, turns[i].model, Conversation(turns, i),
      if i == 0 then None else Some(Before(turns, i)),
      if i == 0 then None else Some(Forwarded(mode, turns, i - 1) + [turns[i - 1].assistant]))
  }

  /** A session together with the request forwarded for each of its turns. */
  datatype Trace = Trace(turns: seq<ReplayTurn>, forwarded: seq<seq<Message>>)
  type Run = r: Trace | |r.turns| == |r.forwarded| witness Trace([], [])

  function ForwardedUpTo(mode: Mode, turns: seq<ReplayTurn>, k: nat): (f: seq<seq<Message>>)
    requires k <= |turns|
    ensures |f| == k
  {
    if k == 0 then [] else ForwardedUpTo(mode, turns, k - 1) + [Forwarded(mode, turns, k - 1)]
  }

  function RunOf(mode: Mode, turns: seq<ReplayTurn>): Run {
    Trace(turns, ForwardedUpTo(mode, turns, |turns|))
  }

  lemma {:induction false} ForwardedUpToAt(mode: Mode, turns: seq<ReplayTurn>, k: nat, i: nat)
    requires i < k <= |turns|
    ensures ForwardedUpTo(mode, turns, k)[i] == Forwarded(mode, turns, i)
  {
    if i < k - 1 {
      ForwardedUpToAt(mode, turns, k - 1, i);
    }
  }

  lemma RunOfAt(mode: Mode, turns: seq<ReplayTurn>, i: nat)
    requires i < |turns|
    ensures RunOf(mode, turns).forwarded[i] == Forwarded(mode, turns, i)
  {
    ForwardedUpToAt(mode, turns, |turns|, i);
  }

  // ---------------------------------------------------------------- rewrites

  /** A rewrite reaches behind the latest turn when the request lost some of the
      first `stablePrefix` messages or differs from the conversation among them. */
  predicate RewritesHistory(original: seq<Message>, forwarded: seq<Message>, stablePrefix: nat) {
    original != forwarded
    && (|forwarded| < stablePrefix || SharedLength(original, forwarded) < Min(stablePrefix, |original|))
  }

  function RewriteScope(original: seq<Message>, forwarded: seq<Message>, stablePrefix: nat): (scope: (bool, bool))
    ensures scope.0 <==> original != forwarded
    ensures scope.1 <==> RewritesHistory(original, forwarded, stablePrefix)
  {
    if original == forwarded then (false, false)
    else
      var stable := Min(stablePrefix, Min(|original|, |forwarded|));
      SharedLengthReaches(original, forwarded, stable);
      (true, |forwarded| < stablePrefix || (stable > 0 && forwarded[..stable] != original[..stable]))
  }

  /** A rewrite is retroactive iff the request does not start with as much of the conversation
      as was stable. */
  lemma RetroactiveMeaning(original: seq<Message>, forwarded: seq<Message>, stablePrefix: nat)
    ensures RewriteScope(original, forwarded, stablePrefix).1
            <==> original != forwarded
                 && !(stablePrefix <= |forwarded| && original[..Min(stablePrefix, |original|)] <= forwarded)
  {
    var n := Min(stablePrefix, |original|);
    if n <= |forwarded| {
      SharedLengthReaches(original, forwarded, n);
    }
  }

  lemma HistoryIffNotPrefix(b: seq<Message>, c: seq<Message>, f: seq<Message>)
    requires b <= c
    ensures RewritesHistory(c, f, |b|) <==> !(b <= f)
  {
    if |b| <= |f| {
      SharedLengthReaches(c, f, |b|);
      assert c[..|b|] == b;
    }
  }

  function Min(a: nat, b: nat): nat {
    if a < b then a else b
  }

  /** A gap is within the TTL also when the clock ran backwards. */
  predicate CacheGapWithinTtl(current: int, previous: Option<int>, ttl: int) {
    previous.Some? && current - previous.value <= ttl
  }

  function RewritesOf(
    original: seq<Message>, forwarded: seq<Message>, stablePrefix: nat,
    timestamp: int, priorForwarded: seq<Message>, priorTimestamp: Option<int>, ttl: int): Rewrites
  {
    var retroactive := RewritesHistory(original, forwarded, stablePrefix);
    var cached := CacheGapWithinTtl(timestamp, priorTimestamp, ttl) && priorForwarded != [];
    if original == forwarded then NO_REWRITES
    else Rewrites(1,
                  if cached && priorForwarded <= forwarded then 1 else 0,
                  if cached && !(priorForwarded <= forwarded) then 1 else 0,
                  if cached then 0 else 1,
                  if retroactive then 1 else 0,
                  if retroactive then 0 else 1)
  }

  // ---------------------------------------------------------------- charges

  function Clamp(x: int): nat {
    if x < 0 then 0 else x
  }

  /** What the accountant adds for one request, from its two neighbours. */
  function ChargeOf(
    s: Settings, turn: ReplayTurn, rawInput: nat, forwarded: seq<Message>,
    previousForwarded: seq<Message>, previousTimestamp: Option<int>,
    nextForwarded: Option<seq<Message>>, nextTimestamp: Option<int>): Charges
    requires nextForwarded.Some? ==> nextTimestamp.Some?
  {
    var t := s.tokenizer(turn.model);
    var eligible := CacheGapWithinTtl(turn.timestamp, previousTimestamp, s.ttl);
    var total := t.CountMessages(forwarded);
    var read := if eligible then SharedTokens(t, previousForwarded, forwarded) else 0;
    var kept := nextForwarded.Some? && CacheGapWithinTtl(nextTimestamp.value, Some(turn.timestamp), s.ttl);
    var write := if kept then Clamp(SharedTokens(t, forwarded, nextForwarded.value) - read) else 0;
    var regular := Clamp(total - read - write);
    var r := ResolveModelRates(s.pricing(turn.model), turn.model, s.cacheWriteMultiplier);
    var paidInput, cacheRead := Cost(regular, r.input), Cost(read, r.cacheRead);
    var cacheWrite, paidOutput := Cost(write, r.cacheWrite), Cost(turn.outputTokens, r.output);
    Charges(1, rawInput, total, read, write, regular, turn.outputTokens,
            paidInput, cacheRead, cacheWrite, paidOutput, paidInput + cacheRead + cacheWrite + paidOutput,
            if eligible then 1 else 0,
            if eligible && !(previousForwarded <= forwarded) then 1 else 0,
            if !eligible && previousTimestamp.Some? then 1 else 0)
  }

  /** The running token total when turn i is sent: each message counted once, with
      the tokenizer of the turn that brought it in. */
  function RawInput(s: Settings, turns: seq<ReplayTurn>, i: nat): nat
    requires i < |turns|
    decreases i, 1
  {
    var t := s.tokenizer(turns[i].model);
    RawBefore(s, turns, i) + t.Sum(turns[i].input)
  }

  function RawBefore(s: Settings, turns: seq<ReplayTurn>, i: nat): nat
    requires i <= |turns|
    decreases i, 0
  {
    if i == 0 then 0
    else RawInput(s, turns, i - 1) + s.tokenizer(turns[i - 1].model).message(turns[i - 1].assistant)
  }

  // ---------------------------------------------------------------- whole runs

  function PreviousForwarded(run: Run, i: nat): seq<Message>
    requires i <= |run.turns|
  {
    if i == 0 then [] else run.forwarded[i - 1]
  }

  function PreviousTimestamp(run: Run, i: nat): Option<int>
    requires i <= |run.turns|
  {
    if i == 0 then None else Some(run.turns[i - 1].timestamp)
  }

  function ChargeAt(s: Settings, run: Run, i: nat): Charges
    requires i < |run.turns|
  {
    ChargeOf(s, run.turns[i], RawInput(s, run.turns, i), run.forwarded[i],
             PreviousForwarded(run, i), PreviousTimestamp(run, i),
             if i + 1 < |run.turns| then Some(run.forwarded[i + 1]) else None,
             if i + 1 < |run.turns| then Some(run.turns[i + 1].timestamp) else None)
  }

  function RewritesAt(s: Settings, run: Run, i: nat): Rewrites
    requires i < |run.turns|
  {
    RewritesOf(Conversation(run.turns, i), run.forwarded[i], |Before(run.turns, i)|,
               run.turns[i].timestamp, PreviousForwarded(run, i), PreviousTimestamp(run, i), s.ttl)
  }

  /** Charges of turns lo..hi-1. */
  function ChargesBetween(s: Settings, run: Run, lo: nat, hi: nat): Charges
    requires lo <= hi <= |run.turns|
    decreases hi
  {
    if lo == hi then NO_CHARGES else ChargesBetween(s, run, lo, hi - 1).Plus(ChargeAt(s, run, hi - 1))
  }

  function RewritesUpTo(s: Settings, run: Run, k: nat): Rewrites
    requires k <= |run.turns|
  {
    if k == 0 then NO_REWRITES else RewritesUpTo(s, run, k - 1).Plus(RewritesAt(s, run, k - 1))
  }

  function RunTotals(s: Settings, run: Run): Totals {
    Totals(1, ChargesBetween(s, run, 0, |run.turns|), RewritesUpTo(s, run, |run.turns|))
  }

  // ---------------------------------------------------------------- readable views

  /** Turn i finds the request of turn i-1 still in the provider's cache. */
  predicate Eligible(s: Settings, run: Run, i: nat)
    requires i < |run.turns|
  {
    i > 0 && run.turns[i].timestamp - run.turns[i - 1].timestamp <= s.ttl
  }

  /** Turn i could have read the previous request from the cache but changed it. */
  predicate Busts(s: Settings, run: Run, i: nat)
    requires i < |run.turns|
  {
    Eligible(s, run, i) && !(run.forwarded[i - 1] <= run.forwarded[i])
  }

  lemma BustCharge(s: Settings, run: Run, i: nat)
    requires i < |run.turns|
    ensures ChargeAt(s, run, i).busts == if Busts(s, run, i) then 1 else 0
  {
    hide ResolveModelRates, Cost, SharedTokens;
  }

  function TokenizerAt(s: Settings, run: Run, i: nat): Tokenizer
    requires i < |run.turns|
  {
    s.tokenizer(run.turns[i].model)
  }

  function Reads(s: Settings, run: Run, i: nat): nat
    requires i < |run.turns|
  {
    if Eligible(s, run, i) then SharedTokens(TokenizerAt(s, run, i), run.forwarded[i - 1], run.forwarded[i]) else 0
  }

  /** Every message of the run is counted by one tokenizer. */
  ghost predicate OneTokenizer(s: Settings, run: Run, t: Tokenizer) {
    forall i :: 0 <= i < |run.turns| ==> TokenizerAt(s, run, i) == t
  }

  /** And at one price. */
  ghost predicate OneModel(run: Run, model: string) {
    forall i :: 0 <= i < |run.turns| ==> run.turns[i].model == model
  }

  /** Every request contains the previous one. */
  ghost predicate PrefixPreserving(run: Run) {
    forall i :: 0 < i < |run.forwarded| ==> run.forwarded[i - 1] <= run.forwarded[i]
  }
}
