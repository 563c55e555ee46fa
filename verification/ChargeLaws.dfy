/** Laws of the charges of a run.  Unless a lemma says otherwise they hold for any
    forwarded requests at all, so for every mode. */
module ChargeLaws {
  import opened Tokens
  import opened Pricing
  import opened Summaries
  import opened Replay

  // ---------------------------------------------------------------- conservation

  /** No clamp ever loses tokens: each forwarded token is read, written or paid for. */
  lemma TurnConserved(s: Settings, run: Run, i: nat)
    requires i < |run.turns|
    ensures var c := ChargeAt(s, run, i); c.read + c.write + c.regular == c.forwarded
    ensures ChargeAt(s, run, i).read == Reads(s, run, i)
    ensures ChargeAt(s, run, i).requests == 1 && ChargeAt(s, run, i).output == run.turns[i].outputTokens
    ensures ChargeAt(s, run, i).rawInput == RawInput(s, run.turns, i)
    ensures ChargeAt(s, run, i).forwarded == TokenizerAt(s, run, i).CountMessages(run.forwarded[i])
  {
    hide ResolveModelRates, Cost;
    var t := TokenizerAt(s, run, i);
    SharedTokensBound(t, PreviousForwarded(run, i), run.forwarded[i]);
    if i + 1 < |run.turns| {
      SharedTokensBound(t, run.forwarded[i], run.forwarded[i + 1]);
    }
  }

  lemma {:induction false} RunConserved(s: Settings, run: Run, lo: nat, hi: nat)
    requires lo <= hi <= |run.turns|
    ensures var c := ChargesBetween(s, run, lo, hi); c.read + c.write + c.regular == c.forwarded
    ensures ChargesBetween(s, run, lo, hi).requests == hi - lo
    decreases hi
  {
    hide ChargeAt;
    if lo < hi {
      RunConserved(s, run, lo, hi - 1);
      TurnConserved(s, run, hi - 1);
    }
  }

  lemma {:induction false} ChargesSplit(s: Settings, run: Run, lo: nat, mid: nat, hi: nat)
    requires lo <= mid <= hi <= |run.turns|
    ensures ChargesBetween(s, run, lo, hi) == ChargesBetween(s, run, lo, mid).Plus(ChargesBetween(s, run, mid, hi))
    decreases hi
  {
    hide ChargeAt, Charges.Plus;
    if mid < hi {
      ChargesSplit(s, run, lo, mid, hi - 1);
      PlusAssociative(ChargesBetween(s, run, lo, mid), ChargesBetween(s, run, mid, hi - 1), ChargeAt(s, run, hi - 1));
    } else {
      PlusNothing(ChargesBetween(s, run, lo, mid));
    }
  }

  // ---------------------------------------------------------------- delayed accounting

  ghost predicate Counters(c: Charges, r: Rewrites) {
    && r.busting <= c.busts <= c.eligible
    && r.stable + r.busting <= c.eligible
    && r.stable + r.busting + r.nonEligible == r.rewrites <= c.requests
    && r.retroactive + r.latestOnly == r.rewrites
  }

  lemma TurnCounters(s: Settings, run: Run, i: nat)
    requires i < |run.turns|
    ensures Counters(ChargeAt(s, run, i), RewritesAt(s, run, i))
    ensures ChargeAt(s, run, i).requests == 1
    ensures ChargeAt(s, run, i).eligible + ChargeAt(s, run, i).expiries == if i == 0 then 0 else 1
  {
    hide ResolveModelRates, Cost, SharedTokens;
  }

  lemma CountersPlus(c: Charges, r: Rewrites, d: Charges, q: Rewrites)
    requires Counters(c, r) && Counters(d, q)
    ensures Counters(c.Plus(d), r.Plus(q))
  {
  }

  lemma NothingCounted()
    ensures Counters(NO_CHARGES, NO_REWRITES)
  {
  }

  lemma {:induction false} CountersOfRun(s: Settings, run: Run, k: nat)
    requires k <= |run.turns|
    ensures Counters(ChargesBetween(s, run, 0, k), RewritesUpTo(s, run, k))
  {
    hide ChargeAt, RewritesAt, Charges.Plus, Rewrites.Plus, Counters;
    NothingCounted();
    if k > 0 {
      CountersOfRun(s, run, k - 1);
      TurnCounters(s, run, k - 1);
      CountersPlus(ChargesBetween(s, run, 0, k - 1), RewritesUpTo(s, run, k - 1),
                   ChargeAt(s, run, k - 1), RewritesAt(s, run, k - 1));
    }
  }

  lemma {:induction false} TurnsOfRun(s: Settings, run: Run, k: nat)
    requires k <= |run.turns|
    ensures var c := ChargesBetween(s, run, 0, k);
            c.requests == k && c.eligible + c.expiries == if k == 0 then 0 else k - 1
  {
    hide ChargeAt, RewritesAt, Counters;
    if k > 0 {
      TurnsOfRun(s, run, k - 1);
      TurnCounters(s, run, k - 1);
    }
  }

  /** The cache counters of the late accountant and the rewrite counters of the prompt
      classifier fit together once the run is flushed. */
  lemma DelayedAccountingIsFaithful(s: Settings, run: Run)
    ensures var c, r := RunTotals(s, run).charges, RunTotals(s, run).rewrites;
            && c.requests == |run.turns|
            && c.eligible + c.expiries == (if |run.turns| == 0 then 0 else |run.turns| - 1)
            && r.busting <= c.busts <= c.eligible
            && r.stable + r.busting <= c.eligible
            && r.stable + r.busting + r.nonEligible == r.rewrites <= c.requests
            && r.retroactive + r.latestOnly == r.rewrites
  {
    hide ChargesBetween, RewritesUpTo;
    CountersOfRun(s, run, |run.turns|);
    TurnsOfRun(s, run, |run.turns|);
  }

  // ---------------------------------------------------------------- what each counter counts

  /** How many of the first k turns meet p. */
  ghost function TurnsWhere(p: nat -> bool, k: nat): nat {
    if k == 0 then 0 else TurnsWhere(p, k - 1) + if p(k - 1) then 1 else 0
  }

  ghost predicate Rewritten(run: Run, i: nat) {
    i < |run.turns| && run.forwarded[i] != Conversation(run.turns, i)
  }

  /** The turn still finds something of the request before it in the cache. */
  ghost predicate Found(s: Settings, run: Run, i: nat) {
    i < |run.turns| && Eligible(s, run, i) && run.forwarded[i - 1] != []
  }

  /** The history in front of the new input went out unchanged. */
  ghost predicate HistoryKept(run: Run, i: nat) {
    i < |run.turns| && Before(run.turns, i) <= run.forwarded[i]
  }

  /** A rewrite is stable if it extends the cached request, busting if it changes it, and not
      eligible if there is none; latest-turn-only if it kept the history, else retroactive. */
  lemma RewriteClasses(s: Settings, run: Run, i: nat)
    requires i < |run.turns|
    ensures var r := RewritesAt(s, run, i);
            && r.rewrites == (if Rewritten(run, i) then 1 else 0)
            && r.stable == (if Rewritten(run, i) && Found(s, run, i) && !Busts(s, run, i) then 1 else 0)
            && r.busting == (if Rewritten(run, i) && Busts(s, run, i) then 1 else 0)
            && r.nonEligible == (if Rewritten(run, i) && !Found(s, run, i) then 1 else 0)
            && r.retroactive == (if Rewritten(run, i) && !HistoryKept(run, i) then 1 else 0)
            && r.latestOnly == (if Rewritten(run, i) && HistoryKept(run, i) then 1 else 0)
  {
    hide RewritesHistory;
    assert Before(run.turns, i) <= Conversation(run.turns, i);
    HistoryIffNotPrefix(Before(run.turns, i), Conversation(run.turns, i), run.forwarded[i]);
  }

  ghost function AnyRewrite(run: Run): nat -> bool {
    (i: nat) => Rewritten(run, i)
  }

  ghost function StableRewrite(s: Settings, run: Run): nat -> bool {
    (i: nat) => Rewritten(run, i) && Found(s, run, i) && !Busts(s, run, i)
  }

  ghost function BustingRewrite(s: Settings, run: Run): nat -> bool {
    (i: nat) => Rewritten(run, i) && Busts(s, run, i)
  }

  ghost function UncachedRewrite(s: Settings, run: Run): nat -> bool {
    (i: nat) => Rewritten(run, i) && !Found(s, run, i)
  }

  ghost function RetroactiveRewrite(run: Run): nat -> bool {
    (i: nat) => Rewritten(run, i) && !HistoryKept(run, i)
  }

  ghost function LatestOnlyRewrite(run: Run): nat -> bool {
    (i: nat) => Rewritten(run, i) && HistoryKept(run, i)
  }

  /** Over a run every rewrite counter is the number of turns in its class. */
  lemma {:induction false} RewriteCounters(s: Settings, run: Run, k: nat)
    requires k <= |run.turns|
    ensures RewritesUpTo(s, run, k)
            == Rewrites(TurnsWhere(AnyRewrite(run), k), TurnsWhere(StableRewrite(s, run), k),
                        TurnsWhere(BustingRewrite(s, run), k), TurnsWhere(UncachedRewrite(s, run), k),
                        TurnsWhere(RetroactiveRewrite(run), k), TurnsWhere(LatestOnlyRewrite(run), k))
  {
    hide RewritesAt, Rewritten, Found, HistoryKept, Busts;
    if k > 0 {
      RewriteCounters(s, run, k - 1);
      RewriteClasses(s, run, k - 1);
    }
  }

  lemma CacheCountersOfTurn(s: Settings, run: Run, i: nat)
    requires i < |run.turns|
    ensures var c := ChargeAt(s, run, i);
            && c.eligible == (if Eligible(s, run, i) then 1 else 0)
            && c.busts == (if Busts(s, run, i) then 1 else 0)
            && c.expiries == (if i > 0 && !Eligible(s, run, i) then 1 else 0)
  {
    hide ResolveModelRates, Cost, SharedTokens;
  }

  ghost function InTtl(s: Settings, run: Run): nat -> bool {
    (i: nat) => i < |run.turns| && Eligible(s, run, i)
  }

  ghost function BustsCache(s: Settings, run: Run): nat -> bool {
    (i: nat) => i < |run.turns| && Busts(s, run, i)
  }

  ghost function Expired(s: Settings, run: Run): nat -> bool {
    (i: nat) => 0 < i < |run.turns| && !Eligible(s, run, i)
  }

  /** And every cache counter the number of turns inside the TTL, that bust, or that expired. */
  lemma {:induction false} CacheCounters(s: Settings, run: Run, k: nat)
    requires k <= |run.turns|
    ensures var c := ChargesBetween(s, run, 0, k);
            && c.eligible == TurnsWhere(InTtl(s, run), k)
            && c.busts == TurnsWhere(BustsCache(s, run), k)
            && c.expiries == TurnsWhere(Expired(s, run), k)
  {
    hide ChargeAt, Eligible, Busts;
    if k > 0 {
      CacheCounters(s, run, k - 1);
      CacheCountersOfTurn(s, run, k - 1);
    }
  }

  ghost function SumUpTo(f: nat -> nat, k: nat): nat {
    if k == 0 then 0 else SumUpTo(f, k - 1) + f(k - 1)
  }

  ghost function RawOf(s: Settings, run: Run): nat -> nat {
    (i: nat) => if i < |run.turns| then RawInput(s, run.turns, i) else 0
  }

  /** Messages and framing. */
  function Framed(s: Settings, run: Run, i: nat): nat
    requires i < |run.turns|
  {
    RequestTokens(s, run, i) + TokenizerAt(s, run, i).framing(run.forwarded[i])
  }

  ghost function ForwardedOf(s: Settings, run: Run): nat -> nat {
    (i: nat) => if i < |run.turns| then Framed(s, run, i) else 0
  }

  ghost function ReadOf(s: Settings, run: Run): nat -> nat {
    (i: nat) => if i < |run.turns| then Reads(s, run, i) else 0
  }

  ghost function OutputOf(run: Run): nat -> nat {
    (i: nat) => if i < |run.turns| then run.turns[i].outputTokens else 0
  }

  /** The token fields are sums over the turns. */
  lemma {:induction false} TokensOfRun(s: Settings, run: Run, k: nat)
    requires k <= |run.turns|
    ensures var c := ChargesBetween(s, run, 0, k);
            && c.rawInput == SumUpTo(RawOf(s, run), k)
            && c.forwarded == SumUpTo(ForwardedOf(s, run), k)
            && c.read == SumUpTo(ReadOf(s, run), k)
            && c.output == SumUpTo(OutputOf(run), k)
  {
    hide ChargeAt, RawInput, Reads, Tokenizer.Sum;
    if k > 0 {
      TokensOfRun(s, run, k - 1);
      TurnConserved(s, run, k - 1);
    }
  }

  // ---------------------------------------------------------------- reads and writes

  /** What turn i-1 leaves in the cache, read or freshly written, is what it shares
      with its successor (or what it had read, if that is more). */
  lemma CachedAfterTurn(s: Settings, run: Run, i: nat)
    requires 0 < i < |run.turns|
    ensures var c := ChargeAt(s, run, i - 1);
            var shared := if Eligible(s, run, i)
                          then SharedTokens(TokenizerAt(s, run, i - 1), run.forwarded[i - 1], run.forwarded[i]) else 0;
            c.read + c.write == if c.read < shared then shared else c.read
  {
    hide ResolveModelRates, Cost;
  }

  /** Nothing is read that was not read or written one turn earlier. */
  lemma NoReadWithoutWrite(s: Settings, run: Run, i: nat)
    requires 0 < i < |run.turns|
    requires TokenizerAt(s, run, i) == TokenizerAt(s, run, i - 1)
    ensures ChargeAt(s, run, i).read <= ChargeAt(s, run, i - 1).read + ChargeAt(s, run, i - 1).write
    ensures ChargeAt(s, run, i - 1).write <= ChargeAt(s, run, i).read
  {
    CachedAfterTurn(s, run, i);
    TurnConserved(s, run, i);
  }

  /** Every written token is read at least once: the writes of the first k turns are
      covered by the reads of the first k+1. */
  lemma {:induction false} WritesAreRead(s: Settings, run: Run, t: Tokenizer, k: nat)
    requires k <= |run.turns| && OneTokenizer(s, run, t)
    ensures var next := if k < |run.turns| then ChargeAt(s, run, k).read else 0;
            ChargesBetween(s, run, 0, k).write <= ChargesBetween(s, run, 0, k).read + next
  {
    hide ResolveModelRates, Cost, SharedTokens;
    if k > 0 {
      WritesAreRead(s, run, t, k - 1);
      if k < |run.turns| {
        NoReadWithoutWrite(s, run, k);
      }
    }
  }

  // ---------------------------------------------------------------- telescoping

  /** Turns lo..hi-1 are a longest stretch without a gap over the TTL. */
  ghost predicate IsSegment(s: Settings, run: Run, lo: nat, hi: nat) {
    && lo < hi <= |run.turns|
    && !Eligible(s, run, lo)
    && (forall j :: lo < j < hi ==> Eligible(s, run, j))
    && (hi < |run.turns| ==> !Eligible(s, run, hi))
  }

  function RequestTokens(s: Settings, run: Run, i: nat): nat
    requires i < |run.turns|
  {
    TokenizerAt(s, run, i).Sum(run.forwarded[i])
  }

  /** A turn that extends its predecessor reads all of it, and writes the rest if its
      successor comes in time. */
  lemma TurnOfPrefixRun(s: Settings, run: Run, i: nat)
    requires i < |run.turns| && PrefixPreserving(run)
    ensures var c, t := ChargeAt(s, run, i), TokenizerAt(s, run, i);
            && c.read == (if Eligible(s, run, i) then t.Sum(run.forwarded[i - 1]) else 0)
            && c.read <= RequestTokens(s, run, i)
            && c.write == (if i + 1 < |run.turns| && Eligible(s, run, i + 1)
                           then RequestTokens(s, run, i) - c.read else 0)
  {
    hide ResolveModelRates, Cost;
    if i > 0 {
      SharedTokensOfPrefix(TokenizerAt(s, run, i), run.forwarded[i - 1], run.forwarded[i]);
      SharedTokensBound(TokenizerAt(s, run, i), run.forwarded[i - 1], run.forwarded[i]);
    }
    if i + 1 < |run.turns| {
      SharedTokensOfPrefix(TokenizerAt(s, run, i), run.forwarded[i], run.forwarded[i + 1]);
    }
  }

  /** While a segment is still open everything sent so far has been written and nothing
      paid for at the base rate. */
  lemma {:induction false} OpenSegment(s: Settings, run: Run, t: Tokenizer, lo: nat, hi: nat, k: nat)
    requires IsSegment(s, run, lo, hi) && OneTokenizer(s, run, t) && PrefixPreserving(run)
    requires lo < k < hi
    ensures ChargesBetween(s, run, lo, k).write == RequestTokens(s, run, k - 1)
    ensures t.Additive() ==> ChargesBetween(s, run, lo, k).regular == 0
    decreases k
  {
    hide ChargeAt;
    if lo + 1 < k {
      OpenSegment(s, run, t, lo, hi, k - 1);
    }
    TurnOfPrefixRun(s, run, k - 1);
    TurnConserved(s, run, k - 1);
    assert Eligible(s, run, k);
  }

  /** In every segment the writes are the tokens of the second-to-last request, and the
      plain input is exactly what the last request adds to it. */
  lemma SegmentCharges(s: Settings, run: Run, t: Tokenizer, lo: nat, hi: nat)
    requires IsSegment(s, run, lo, hi) && OneTokenizer(s, run, t) && PrefixPreserving(run)
    ensures var c := ChargesBetween(s, run, lo, hi);
            && c.write == (if hi - lo > 1 then RequestTokens(s, run, hi - 2) else 0)
            && (t.Additive() ==> c.write + c.regular == RequestTokens(s, run, hi - 1))
  {
    hide ChargeAt;
    if lo + 1 < hi {
      OpenSegment(s, run, t, lo, hi, hi - 1);
      assert Eligible(s, run, hi - 1);
    }
    TurnOfPrefixRun(s, run, hi - 1);
    TurnConserved(s, run, hi - 1);
  }

  /** Turn i is the last of its segment. */
  predicate IsTail(s: Settings, run: Run, i: nat)
    requires i < |run.turns|
  {
    i + 1 == |run.turns| || !Eligible(s, run, i + 1)
  }

  function TailTokens(s: Settings, run: Run, k: nat): nat
    requires k <= |run.turns|
  {
    if k == 0 then 0
    else TailTokens(s, run, k - 1) + if IsTail(s, run, k - 1) then RequestTokens(s, run, k - 1) else 0
  }

  /** Over a whole run every token is charged as new once per segment: what was written
      or paid for is the sum of the segments' last requests. */
  lemma {:induction false} NewTokensOncePerSegment(s: Settings, run: Run, t: Tokenizer, k: nat)
    requires k <= |run.turns| && OneTokenizer(s, run, t) && PrefixPreserving(run)
    requires t.Additive()
    ensures var c := ChargesBetween(s, run, 0, k);
            var open := if k > 0 && !IsTail(s, run, k - 1) then RequestTokens(s, run, k - 1) else 0;
            c.write + c.regular == TailTokens(s, run, k) + open
  {
    hide ChargeAt;
    if k > 0 {
      NewTokensOncePerSegment(s, run, t, k - 1);
      TurnOfPrefixRun(s, run, k - 1);
      TurnConserved(s, run, k - 1);
    }
  }

  // ---------------------------------------------------------------- running total

  /** The input and the answer of a turn. */
  function OwnTokens(s: Settings, turns: seq<ReplayTurn>, j: nat): nat
    requires j < |turns|
  {
    s.tokenizer(turns[j].model).Sum(turns[j].input + [turns[j].assistant])
  }

  ghost function OwnOf(s: Settings, turns: seq<ReplayTurn>): nat -> nat {
    (j: nat) => if j < |turns| then OwnTokens(s, turns, j) else 0
  }

  /** The running token total counts every message once, by the tokenizer of the turn that
      brought it in. */
  lemma {:induction false} RunningTotalByTurn(s: Settings, turns: seq<ReplayTurn>, i: nat)
    requires i < |turns|
    ensures RawInput(s, turns, i)
            == SumUpTo(OwnOf(s, turns), i)
               + s.tokenizer(turns[i].model).Sum(turns[i].input)
  {
    hide Tokenizer.Sum;
    if i > 0 {
      RunningTotalByTurn(s, turns, i - 1);
      var t := s.tokenizer(turns[i - 1].model);
      SumAppend(t, turns[i - 1].input, [turns[i - 1].assistant]);
      SumOne(t, turns[i - 1].assistant);
    }
  }

  /** The running token total is the recount of the whole conversation. */
  lemma {:induction false} RunningTotalIsRecount(s: Settings, turns: seq<ReplayTurn>, t: Tokenizer, i: nat)
    requires i < |turns|
    requires forall j :: 0 <= j < |turns| ==> s.tokenizer(turns[j].model) == t
    ensures RawInput(s, turns, i) == t.Sum(Conversation(turns, i))
  {
    if i > 0 {
      RunningTotalIsRecount(s, turns, t, i - 1);
      SumAppend(t, Conversation(turns, i - 1), [turns[i - 1].assistant]);
      SumOne(t, turns[i - 1].assistant);
    }
    SumAppend(t, Before(turns, i), turns[i].input);
  }
}
