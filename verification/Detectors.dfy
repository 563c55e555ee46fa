/** Two more bust detectors over the same run: one that looks at each turn at once, and
    one that, like the accountant, looks one turn late. */
module Detectors {
  import opened Messages
  import opened Tokens
  import opened Replay
  import opened Simulator
  import opened ChargeLaws
  import opened Scenarios

  /** Index of the first difference; None when the lists are equal. */
  method FirstDiffIndex(prev: seq<Message>, curr: seq<Message>) returns (index: Option<nat>)
    ensures index == if prev == curr then None else Some(SharedLength(prev, curr))
  {
    var i := 0;
    while i < |prev| && i < |curr|
      invariant i <= |prev| && i <= |curr|
      invariant forall j :: 0 <= j < i ==> prev[j] == curr[j]
    {
      if prev[i] != curr[i] {
        SharedLengthUnique(prev, curr, i);
        return Some(i);
      }
      i := i + 1;
    }
    SharedLengthUnique(prev, curr, i);
    if |prev| != |curr| {
      return Some(i);
    }
    return None;
  }

  // ---------------------------------------------------------------- the immediate detector

  datatype BustEvent = BustEvent(
    requestId: string, previousRequestId: string, divergentIndex: nat,
    previousForwarded: seq<Message>, currentForwarded: seq<Message>)

  function BustEventAt(run: Run, i: nat): BustEvent
    requires 0 < i < |run.turns|
  {
    BustEvent(run.turns[i].requestId, run.turns[i - 1].requestId,
              SharedLength(run.forwarded[i - 1], run.forwarded[i]), run.forwarded[i - 1], run.forwarded[i])
  }

  /** The turns among the first k that bust the cache, in order. */
  function BustTurns(s: Settings, run: Run, k: nat): (b: seq<nat>)
    requires k <= |run.turns|
    ensures forall j :: 0 <= j < |b| ==> 0 < b[j] < k && Busts(s, run, b[j])
  {
    if k == 0 then [] else BustTurns(s, run, k - 1) + if Busts(s, run, k - 1) then [k - 1] else []
  }

  method BuildBustEvents(turns: seq<ReplayTurn>, mode: Mode, s: Settings) returns (events: seq<BustEvent>)
    ensures var b := BustTurns(s, RunOf(mode, turns), |turns|);
            && |events| == |b|
            && forall j :: 0 <= j < |b| ==> events[j] == BustEventAt(RunOf(mode, turns), b[j])
  {
    hide Forwarded, ForwardedUpTo, HistoryAt;
    ghost var run := RunOf(mode, turns);
    HistoryStart(s, run);
    events := [];
    var history := History([], 0, None, None);
    var previous: Option<PendingTurn> := None;
    ghost var last := 0;

    for i := 0 to |turns|
      invariant HistoryAt(history, s, run, i)
      invariant previous.Some? <==> i > 0
      invariant last == if i == 0 then 0 else i - 1
      invariant i > 0 ==> PendingAt(previous.value, s, run, last)
      invariant |events| == |BustTurns(s, run, i)|
      invariant forall j :: 0 <= j < |events| ==> events[j] == BustEventAt(run, BustTurns(s, run, i)[j])
    {
      var turn := turns[i];
      var current, next := ForwardTurn(history, s, mode, turns, i, turn);
      if previous.Some? && CacheGapWithinTtl(turn.timestamp, Some(previous.value.turn.timestamp), s.ttl) {
        var before := previous.value;
        if !(before.forwarded <= current.forwarded) {
          var index := FirstDiffIndex(before.forwarded, current.forwarded);
          events := events + [BustEvent(turn.requestId, before.turn.requestId,
            index.value, before.forwarded, current.forwarded)];
        }
      }
      last := i;
      previous := Some(current);
      history := next;
    }
  }

  /** The turns that bust, all of them and in order. */
  lemma {:induction false} BustTurnsInOrder(s: Settings, run: Run, k: nat)
    requires k <= |run.turns|
    ensures forall i, j :: 0 <= i < j < |BustTurns(s, run, k)| ==> BustTurns(s, run, k)[i] < BustTurns(s, run, k)[j]
    ensures forall i: nat :: i in BustTurns(s, run, k) <==> i < k && Busts(s, run, i)
  {
    hide Busts;
    if k > 0 {
      BustTurnsInOrder(s, run, k - 1);
    }
  }

  /** d is where two lists part: they agree before it, and one ends there or they differ. */
  predicate PartAt(a: seq<Message>, b: seq<Message>, d: nat) {
    d <= |a| && d <= |b| && a[..d] == b[..d] && (d == |a| || d == |b| || a[d] != b[d])
  }

  lemma SharedLengthParts(a: seq<Message>, b: seq<Message>)
    ensures PartAt(a, b, SharedLength(a, b))
  {
    var d := SharedLength(a, b);
    assert forall j :: 0 <= j < d ==> a[j] == b[j];
  }

  /** An event names the turn that bust and the one before it, and holds both requests and the
      place where they part. */
  lemma BustEventFields(s: Settings, run: Run, i: nat)
    requires 0 < i < |run.turns| && Busts(s, run, i)
    ensures var e := BustEventAt(run, i);
            && e.requestId == run.turns[i].requestId && e.previousRequestId == run.turns[i - 1].requestId
            && e.previousForwarded == run.forwarded[i - 1] && e.currentForwarded == run.forwarded[i]
            && PartAt(run.forwarded[i - 1], run.forwarded[i], e.divergentIndex)
            && e.divergentIndex < |run.forwarded[i - 1]|
  {
    SharedLengthParts(run.forwarded[i - 1], run.forwarded[i]);
    SharedLengthOfPrefix(run.forwarded[i - 1], run.forwarded[i]);
  }

  lemma {:induction false} BustTurnsCounted(s: Settings, run: Run, k: nat)
    requires k <= |run.turns|
    ensures |BustTurns(s, run, k)| == ChargesBetween(s, run, 0, k).busts
  {
    hide ChargeAt;
    if k > 0 {
      BustTurnsCounted(s, run, k - 1);
      BustCharge(s, run, k - 1);
    }
  }

  /** The immediate detector reports exactly the busts the delayed accountant counts,
      and puts each divergence where that turn's cache reads end: inside the lost request. */
  lemma DetectorsAgree(s: Settings, run: Run)
    ensures var b := BustTurns(s, run, |run.turns|);
            && |b| == RunTotals(s, run).charges.busts
            && forall j :: 0 <= j < |b| ==>
                 var e := BustEventAt(run, b[j]);
                 && e.divergentIndex < |e.previousForwarded|
                 && e.divergentIndex <= |e.currentForwarded|
                 && TokenizerAt(s, run, b[j]).SumFirst(e.currentForwarded, e.divergentIndex)
                    == ChargeAt(s, run, b[j]).read
  {
    BustTurnsCounted(s, run, |run.turns|);
    var b := BustTurns(s, run, |run.turns|);
    forall j | 0 <= j < |b|
      ensures BustEventAt(run, b[j]).divergentIndex < |run.forwarded[b[j] - 1]|
      ensures TokenizerAt(s, run, b[j]).SumFirst(run.forwarded[b[j]], BustEventAt(run, b[j]).divergentIndex)
              == ChargeAt(s, run, b[j]).read
    {
      TurnConserved(s, run, b[j]);
      SharedLengthOfPrefix(run.forwarded[b[j] - 1], run.forwarded[b[j]]);
    }
  }

  // ---------------------------------------------------------------- the trace report

  /** Mode, session and project, repeated in every event of a session. */
  datatype Origin = Origin(mode: string, sessionId: string, project: string)

  datatype TraceEvent = TraceEvent(
    origin: Origin, requestId: string, timestamp: int, firstDiffIndex: Option<nat>,
    previousLength: nat, currentLength: nat,
    previousMessage: Option<Message>, currentMessage: Option<Message>,
    previousTail: seq<Message>, currentTail: seq<Message>, retroactive: bool)

  function MessageAt(s: seq<Message>, i: nat): Option<Message> {
    if i < |s| then Some(s[i]) else None
  }

  /** The last four messages. */
  function Tail(s: seq<Message>): seq<Message> {
    if |s| <= 4 then s else s[|s| - 4..]
  }

  /** The event of turn i.  Its `previousTail` is not taken from the lost request: by the
      time the turn is looked at, the context already holds what turn i itself forwarded. */
  function TraceEventAt(origin: Origin, run: Run, i: nat): TraceEvent
    requires 0 < i < |run.turns|
  {
    var previous, current := run.forwarded[i - 1], run.forwarded[i];
    var index := SharedLength(previous, current);
    TraceEvent(origin, run.turns[i].requestId, run.turns[i].timestamp, Some(index), |previous|, |current|,
               MessageAt(previous, index), MessageAt(current, index),
               Tail(current + [run.turns[i].assistant]), Tail(Conversation(run.turns, i)),
               RewritesHistory(Conversation(run.turns, i), current, Clamp(|previous| - 1)))
  }

  /** The last four messages, or all of them. */
  lemma TailMeaning(s: seq<Message>)
    ensures |Tail(s)| == if |s| < 4 then |s| else 4
    ensures s == s[..|s| - |Tail(s)|] + Tail(s)
  {
    if |s| <= 4 {
      assert s == [] + s;
    }
  }

  /** Every field of the event of turn i. */
  lemma TraceEventFields(s: Settings, origin: Origin, run: Run, i: nat)
    requires 0 < i < |run.turns| && Busts(s, run, i)
    ensures var e, lost, sent := TraceEventAt(origin, run, i), run.forwarded[i - 1], run.forwarded[i];
            && e.origin == origin
            && e.requestId == run.turns[i].requestId && e.timestamp == run.turns[i].timestamp
            && e.previousLength == |lost| && e.currentLength == |sent|
            && e.firstDiffIndex.Some? && PartAt(lost, sent, e.firstDiffIndex.value)
            && e.firstDiffIndex.value < |lost|
            && e.previousMessage == Some(lost[e.firstDiffIndex.value])
            && (e.currentMessage
                == if e.firstDiffIndex.value < |sent| then Some(sent[e.firstDiffIndex.value]) else None)
            && e.previousTail == Tail(sent + [run.turns[i].assistant])
            && e.currentTail == Tail(Conversation(run.turns, i))
            && (e.retroactive <==> RewriteScope(Conversation(run.turns, i), sent, |lost| - 1).1)
  {
    hide RewritesHistory, Tail, Conversation;
    SharedLengthParts(run.forwarded[i - 1], run.forwarded[i]);
    SharedLengthOfPrefix(run.forwarded[i - 1], run.forwarded[i]);
  }

  function TraceEvents(origin: Origin, s: Settings, run: Run, k: nat): seq<TraceEvent>
    requires k <= |run.turns|
  {
    if k == 0 then []
    else TraceEvents(origin, s, run, k - 1) + if Busts(s, run, k - 1) then [TraceEventAt(origin, run, k - 1)] else []
  }

  function OriginOf(mode: Mode, replay: SessionReplay): Origin {
    Origin(ModeName(mode), replay.sessionId, replay.project)
  }

  /** The traced part of a session: its last turn is never looked at. */
  function SessionTrace(s: Settings, mode: Mode, replay: SessionReplay): seq<TraceEvent> {
    TraceEvents(OriginOf(mode, replay), s, RunOf(mode, replay.turns), Clamp(|replay.turns| - 1))
  }

  /** A session file: None when it holds no turn.  The mode may behave differently in each. */
  datatype TracePlan = TracePlan(
    s: Settings, modeOf: nat -> Mode, files: seq<Option<SessionReplay>>, recentTurns: Option<int>)

  function Traced(plan: TracePlan, i: nat): Option<SessionReplay>
    requires i < |plan.files|
  {
    match plan.files[i]
    case None => None
    case Some(replay) => Some(TrimToRecentTurns(replay, plan.recentTurns))
  }

  function FileTrace(plan: TracePlan, i: nat): seq<TraceEvent>
    requires i < |plan.files|
  {
    match Traced(plan, i)
    case None => []
    case Some(replay) => SessionTrace(plan.s, plan.modeOf(i), replay)
  }

  function FileTraces(plan: TracePlan, k: nat): seq<TraceEvent>
    requires k <= |plan.files|
  {
    if k == 0 then [] else FileTraces(plan, k - 1) + FileTrace(plan, k - 1)
  }

  /** One event is kept even when none is allowed: the limit is looked at after appending. */
  function Limit(maxEvents: int): nat {
    if maxEvents < 1 then 1 else maxEvents
  }

  predicate PrefixUpTo(events: seq<TraceEvent>, all: seq<TraceEvent>, limit: nat) {
    events == if |all| <= limit then all else all[..limit]
  }

  /** Looks at the waiting turn i, one iteration after it was sent. */
  method TraceTurn(
    origin: Origin, p: PendingTurn, s: Settings, context: History,
    previousForwarded: seq<Message>, previousTimestamp: Option<int>, ghost run: Run, ghost i: nat)
    returns (event: Option<TraceEvent>)
    requires i < |run.turns| && PendingAt(p, s, run, i) && HistoryAt(context, s, run, i + 1)
    requires previousForwarded == PreviousForwarded(run, i) && previousTimestamp == PreviousTimestamp(run, i)
    ensures event == if Busts(s, run, i) then Some(TraceEventAt(origin, run, i)) else None
    ensures p.forwarded == run.forwarded[i] && p.turn == run.turns[i]
  {
    event := None;
    if CacheGapWithinTtl(p.turn.timestamp, previousTimestamp, s.ttl) && previousForwarded != [] {
      if !(previousForwarded <= p.forwarded) {
        var index := FirstDiffIndex(previousForwarded, p.forwarded);
        var (_, retroactive) := RewriteScope(p.request, p.forwarded, Clamp(|previousForwarded| - 1));
        event := Some(TraceEvent(origin, p.turn.requestId, p.turn.timestamp, index,
          |previousForwarded|, |p.forwarded|,
          if index.Some? then MessageAt(previousForwarded, index.value) else None,
          if index.Some? then MessageAt(p.forwarded, index.value) else None,
          if context.forwarded.Some? then Tail(context.forwarded.value) else [],
          Tail(p.request), retroactive));
      }
    }
  }

  /** One session of the trace; `full` says that the limit stopped it. */
  method TraceSession(
    replay: SessionReplay, mode: Mode, s: Settings, maxEvents: int, found: seq<TraceEvent>)
    returns (events: seq<TraceEvent>, full: bool)
    requires |found| < Limit(maxEvents)
    ensures PrefixUpTo(events, found + SessionTrace(s, mode, replay), Limit(maxEvents))
    ensures full <==> |events| >= Limit(maxEvents)
  {
    hide Forwarded, ForwardedUpTo, TraceEventAt, TraceEvents, Busts, HistoryAt, PendingAt;
    var turns := replay.turns;
    var origin := OriginOf(mode, replay);
    ghost var run := RunOf(mode, turns);
    events := found;
    full := false;
    var history := History([], 0, None, None);
    HistoryStart(s, run);
    NothingTraced(origin, s, run, found);
    var pending: Option<PendingTurn> := None;
    var previousForwarded: seq<Message> := [];
    var previousTimestamp: Option<int> := None;
    ghost var last := 0;

    for i := 0 to |turns|
      invariant HistoryAt(history, s, run, i)
      invariant pending.Some? <==> i > 0
      invariant last == Clamp(i - 1)
      invariant i > 0 ==> PendingAt(pending.value, s, run, last)
      invariant previousForwarded == PreviousForwarded(run, last)
      invariant previousTimestamp == PreviousTimestamp(run, last)
      invariant !full && events == found + TraceEvents(origin, s, run, last) && |events| < Limit(maxEvents)
    {
      var turn := turns[i];
      var current, next := ForwardTurn(history, s, mode, turns, i, turn);
      if pending.Some? {
        var p := pending.value;
        var event := TraceTurn(origin, p, s, history, previousForwarded, previousTimestamp, run, last);
        TraceStep(origin, s, run, last, found);
        if event.Some? {
          events := events + [event.value];
          if |events| >= maxEvents {
            TraceEventsGrow(origin, s, run, last + 1, |turns| - 1);
            StoppedAtLimit(events, found, TraceEvents(origin, s, run, last + 1),
                           SessionTrace(s, mode, replay), Limit(maxEvents));
            return events, true;
          }
        }
        previousForwarded := p.forwarded;
        previousTimestamp := Some(p.turn.timestamp);
      }
      last := i;
      pending := Some(current);
      history := next;
    }
  }

  lemma TraceStep(origin: Origin, s: Settings, run: Run, k: nat, found: seq<TraceEvent>)
    requires k < |run.turns|
    ensures found + TraceEvents(origin, s, run, k + 1)
            == found + TraceEvents(origin, s, run, k)
               + if Busts(s, run, k) then [TraceEventAt(origin, run, k)] else []
  {
    hide TraceEventAt, Busts;
  }

  lemma NothingTraced(origin: Origin, s: Settings, run: Run, found: seq<TraceEvent>)
    ensures found + TraceEvents(origin, s, run, 0) == found
  {
  }

  lemma StoppedAtLimit(
    events: seq<TraceEvent>, found: seq<TraceEvent>, some: seq<TraceEvent>, all: seq<TraceEvent>, limit: nat)
    requires events == found + some && some <= all && |events| == limit
    ensures PrefixUpTo(events, found + all, limit)
  {
    assert found + all == events + all[|some|..];
  }

  lemma {:induction false} TraceEventsGrow(origin: Origin, s: Settings, run: Run, j: nat, k: nat)
    requires j <= k <= |run.turns|
    ensures TraceEvents(origin, s, run, j) <= TraceEvents(origin, s, run, k)
    decreases k
  {
    if j < k {
      TraceEventsGrow(origin, s, run, j, k - 1);
    }
  }

  /** The limit cuts the list behind as many events as it allows, but keeps the first. */
  lemma CutAtLimit(events: seq<TraceEvent>, all: seq<TraceEvent>, maxEvents: int)
    requires PrefixUpTo(events, all, Limit(maxEvents))
    ensures events <= all
    ensures |events| <= maxEvents || |events| <= 1
    ensures events == all || |events| == maxEvents || (maxEvents <= 0 && |events| == 1)
  {
  }

  method TraceMode(plan: TracePlan, maxEvents: int) returns (events: seq<TraceEvent>)
    ensures PrefixUpTo(events, FileTraces(plan, |plan.files|), Limit(maxEvents))
  {
    hide SessionTrace;
    events := [];
    for i := 0 to |plan.files|
      invariant events == FileTraces(plan, i) && |events| < Limit(maxEvents)
    {
      if plan.files[i].Some? {
        var replay := TrimToRecentTurns(plan.files[i].value, plan.recentTurns);
        var full;
        events, full := TraceSession(replay, plan.modeOf(i), plan.s, maxEvents, events);
        if full {
          FileTracesGrow(plan, i + 1, |plan.files|);
          return;
        }
      }
    }
  }

  lemma {:induction false} FileTracesGrow(plan: TracePlan, j: nat, k: nat)
    requires j <= k <= |plan.files|
    ensures FileTraces(plan, j) <= FileTraces(plan, k)
    decreases k
  {
    hide FileTrace;
    if j < k {
      FileTracesGrow(plan, j, k - 1);
    }
  }

  lemma {:induction false} TraceEventsCounted(origin: Origin, s: Settings, run: Run, k: nat)
    requires k <= |run.turns|
    ensures |TraceEvents(origin, s, run, k)| == ChargesBetween(s, run, 0, k).busts
  {
    hide ChargeAt, TraceEventAt;
    if k > 0 {
      TraceEventsCounted(origin, s, run, k - 1);
      BustCharge(s, run, k - 1);
    }
  }

  /** A session's events are those of its busting turns, in order. */
  lemma {:induction false} TraceInOrder(origin: Origin, s: Settings, run: Run, k: nat)
    requires k <= |run.turns|
    ensures |TraceEvents(origin, s, run, k)| == |BustTurns(s, run, k)|
    ensures forall j :: 0 <= j < |BustTurns(s, run, k)| ==>
              TraceEvents(origin, s, run, k)[j] == TraceEventAt(origin, run, BustTurns(s, run, k)[j])
  {
    hide Busts, TraceEventAt;
    if k > 0 {
      TraceInOrder(origin, s, run, k - 1);
    }
  }

  /** Every event of a file carries the name of the mode and the file's session and project, and
      comes from one of the session's latest turns but never its last. */
  lemma EventsComeFrom(plan: TracePlan, i: nat, older: seq<ReplayTurn>, latest: seq<ReplayTurn>)
    requires i < |plan.files| && plan.files[i].Some? && plan.files[i].value.turns == older + latest
    requires var r := plan.recentTurns;
             if r.Some? && r.value > 0 then |latest| == r.value || (older == [] && |latest| < r.value) else older == []
    ensures var mode, replay := plan.modeOf(i), plan.files[i].value;
            var origin, run := Origin(ModeName(mode), replay.sessionId, replay.project), RunOf(mode, latest);
            && |latest| == |run.turns|
            && FileTrace(plan, i) == TraceEvents(origin, plan.s, run, if latest == [] then 0 else |latest| - 1)
  {
    hide ForwardedUpTo, TraceEvents;
    TrimKeepsLatest(plan.files[i].value, plan.recentTurns);
    SuffixUnique(older, latest, TrimToRecentTurns(plan.files[i].value, plan.recentTurns).turns);
  }

  function LastTurnBusts(s: Settings, mode: Mode, replay: SessionReplay): nat {
    var n := |replay.turns|;
    if n > 0 && Busts(s, RunOf(mode, replay.turns), n - 1) then 1 else 0
  }

  /** The trace report has no closing flush: with room for every event it falls short of
      the accountant by one exactly when the last turn of the session busts. */
  lemma TraceMissesLastTurn(s: Settings, mode: Mode, replay: SessionReplay)
    ensures |SessionTrace(s, mode, replay)| + LastTurnBusts(s, mode, replay)
            == RunTotals(s, RunOf(mode, replay.turns)).charges.busts
  {
    hide ChargeAt, TraceEventAt, Busts;
    var run := RunOf(mode, replay.turns);
    var n := |replay.turns|;
    if n > 0 {
      TraceEventsCounted(OriginOf(mode, replay), s, run, n - 1);
      BustCharge(s, run, n - 1);
    }
  }

  /** For example on the rewrite-pressure session with whole-history compression: of its
      n-1 busts the trace shows n-2. */
  lemma PressureTraceLosesOne(s: Settings, n: nat, sessionId: string, project: string)
    requires n >= 2 && s.ttl >= 2
    ensures var replay := SessionReplay(sessionId, project, Generate(PressureTurn, n));
            && RunTotals(s, RunOf(WholeHistory(), replay.turns)).charges.busts == n - 1
            && |SessionTrace(s, WholeHistory(), replay)| == n - 2
  {
    hide Busts, PressureTurn, SessionTrace;
    TraceMissesLastTurn(s, WholeHistory(), SessionReplay(sessionId, project, Generate(PressureTurn, n)));
    WholeHistoryBusts(s, n, n);
    WholeHistoryBustsAt(s, n, n - 1);
  }

  /** `previousTail` ends with the answer to the reported turn itself, so it is not the tail of
      the lost request unless that request happens to end with the same message. */
  lemma TailIsNotTheLostRequest(origin: Origin, run: Run, i: nat)
    requires 0 < i < |run.turns|
    ensures var lost, tail := run.forwarded[i - 1], TraceEventAt(origin, run, i).previousTail;
            && tail != [] && tail[|tail| - 1] == run.turns[i].assistant
            && (tail == Tail(lost) ==> lost != [] && lost[|lost| - 1] == run.turns[i].assistant)
  {
    TailEnds(run.forwarded[i] + [run.turns[i].assistant]);
    if run.forwarded[i - 1] != [] {
      TailEnds(run.forwarded[i - 1]);
    }
  }

  lemma TailEnds(s: seq<Message>)
    requires s != []
    ensures Tail(s) != [] && Tail(s)[|Tail(s)| - 1] == s[|s| - 1]
  {
  }

  /** On the rewrite-pressure session with whole-history compression no event shows the tail
      of its lost request: that ends with a tool result, `previousTail` with an answer. */
  lemma PressureTailsAreWrong(origin: Origin, n: nat, i: nat)
    requires 0 < i < n
    ensures var run := RunOf(WholeHistory(), Generate(PressureTurn, n));
            TraceEventAt(origin, run, i).previousTail != Tail(run.forwarded[i - 1])
  {
    hide Tail, TraceEventAt, Decimal, Padded, ToolResultPayload, Conversation;
    var turns := Generate(PressureTurn, n);
    var run := RunOf(WholeHistory(), turns);
    TailIsNotTheLostRequest(origin, run, i);
    WholeHistoryForwards(turns, i - 1);
    PressureConversation(n, i - 1);
    assert turns[i].assistant.role == "assistant" && PressureTurn(i - 1).input[1].role == "user";
  }

  /** Busts counted over the first k files, and those among them on a last turn. */
  function BustsIn(plan: TracePlan, k: nat): (busts: (nat, nat))
    requires k <= |plan.files|
  {
    if k == 0 then (0, 0)
    else
      var (all, last) := BustsIn(plan, k - 1);
      match Traced(plan, k - 1)
      case None => (all, last)
      case Some(replay) =>
        var mode := plan.modeOf(k - 1);
        (all + RunTotals(plan.s, RunOf(mode, replay.turns)).charges.busts,
         last + LastTurnBusts(plan.s, mode, replay))
  }

  /** Over any number of files the trace loses exactly the busts on last turns. */
  lemma {:induction false} TraceMissesLastTurns(plan: TracePlan, k: nat)
    requires k <= |plan.files|
    ensures |FileTraces(plan, k)| == BustsIn(plan, k).0 - BustsIn(plan, k).1
  {
    hide RunTotals, LastTurnBusts, SessionTrace, TrimToRecentTurns;
    if k > 0 {
      TraceMissesLastTurns(plan, k - 1);
      var file := Traced(plan, k - 1);
      if file.Some? {
        TraceMissesLastTurn(plan.s, plan.modeOf(k - 1), file.value);
      }
    }
  }
}
