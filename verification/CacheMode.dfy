/** Cache mode: the frozen prefix stays identical, whatever the pipeline returns. */
module CacheMode {
  import opened Messages
  import opened Replay
  import opened ChargeLaws

  // ---------------------------------------------------------------- never busting

  /** What delta replay makes of the input of turn i: the first turn goes out as it is. */
  function Delta(p: Pipeline, turns: seq<ReplayTurn>, i: nat): seq<Message>
    requires i < |turns|
  {
    if i == 0 || turns[i].input == [] then turns[i].input else p(i, turns[i].model, turns[i].input)
  }

  /** After the first turn delta replay never falls back to the raw conversation:
      it finds exactly the new input to compress, and sends the previous request and
      the answer to it, unchanged, in front. */
  lemma DeltaReplayExtends(p: Pipeline, turns: seq<ReplayTurn>, i: nat)
    requires 0 < i < |turns|
    ensures ExtractCacheStableDelta(Conversation(turns, i), Some(Before(turns, i)),
              Some(Forwarded(Cache(p), turns, i - 1) + [turns[i - 1].assistant]))
            == Some((Forwarded(Cache(p), turns, i - 1) + [turns[i - 1].assistant], turns[i].input))
    ensures Forwarded(Cache(p), turns, i)
            == Forwarded(Cache(p), turns, i - 1) + [turns[i - 1].assistant] + Delta(p, turns, i)
  {
    var before := Before(turns, i);
    assert Conversation(turns, i)[..|before|] == before;
    assert Conversation(turns, i)[|before|..] == turns[i].input;
    var prefix := Forwarded(Cache(p), turns, i - 1) + [turns[i - 1].assistant];
    assert prefix + [] == prefix;
  }

  lemma CacheModePreservesPrefixes(p: Pipeline, turns: seq<ReplayTurn>)
    ensures PrefixPreserving(RunOf(Cache(p), turns))
  {
    forall i | 0 < i < |turns|
      ensures RunOf(Cache(p), turns).forwarded[i - 1] <= RunOf(Cache(p), turns).forwarded[i]
    {
      RunOfAt(Cache(p), turns, i - 1);
      RunOfAt(Cache(p), turns, i);
      DeltaReplayExtends(p, turns, i);
      var f := Forwarded(Cache(p), turns, i - 1);
      assert f + [turns[i - 1].assistant] + Delta(p, turns, i) == f + ([turns[i - 1].assistant] + Delta(p, turns, i));
    }
  }

  lemma BaselinePreservesPrefixes(turns: seq<ReplayTurn>)
    ensures PrefixPreserving(RunOf(Baseline, turns))
  {
    forall i | 0 < i < |turns|
      ensures RunOf(Baseline, turns).forwarded[i - 1] <= RunOf(Baseline, turns).forwarded[i]
    {
      RunOfAt(Baseline, turns, i - 1);
      RunOfAt(Baseline, turns, i);
      var c := Conversation(turns, i - 1);
      assert Conversation(turns, i) == c + ([turns[i - 1].assistant] + turns[i].input);
    }
  }

  /** No bust is counted exactly when every request found in the cache extends the one before it. */
  lemma {:induction false} NoBustsIff(s: Settings, run: Run, k: nat)
    requires k <= |run.turns|
    ensures ChargesBetween(s, run, 0, k).busts == 0 <==> forall i :: 0 <= i < k ==> !Busts(s, run, i)
  {
    hide ChargeAt;
    if k > 0 {
      NoBustsIff(s, run, k - 1);
      BustCharge(s, run, k - 1);
    }
  }

  /** The promise of cache mode, for every session, pipeline, tokenizer, price table and TTL. */
  lemma CacheModeNeverBusts(s: Settings, p: Pipeline, turns: seq<ReplayTurn>)
    ensures RunTotals(s, RunOf(Cache(p), turns)).charges.busts == 0
    ensures RunTotals(s, RunOf(Cache(p), turns)).rewrites.busting == 0
  {
    hide ChargesBetween, RewritesUpTo, Forwarded, ForwardedUpTo;
    var run := RunOf(Cache(p), turns);
    CacheModePreservesPrefixes(p, turns);
    NoBustsIff(s, run, |turns|);
    DelayedAccountingIsFaithful(s, run);
  }

  /** Without expired gaps every rewrite of cache mode is a stable one. */
  lemma {:induction false} CacheModeRewritesAreStable(s: Settings, p: Pipeline, turns: seq<ReplayTurn>, k: nat)
    requires k <= |turns| && (turns != [] ==> turns[0].input != [])
    requires forall i :: 0 < i < |turns| ==> turns[i].timestamp - turns[i - 1].timestamp <= s.ttl
    ensures var r := RewritesUpTo(s, RunOf(Cache(p), turns), k);
            r.stable == r.rewrites && r.nonEligible == r.busting == 0
  {
    hide RewritesAt, RunOf;
    if k > 0 {
      CacheModeRewritesAreStable(s, p, turns, k - 1);
      CacheModeRewriteIsStable(s, p, turns, k - 1);
    }
  }

  lemma CacheModeRewriteIsStable(s: Settings, p: Pipeline, turns: seq<ReplayTurn>, i: nat)
    requires i < |turns| && turns[0].input != []
    requires i > 0 ==> turns[i].timestamp - turns[i - 1].timestamp <= s.ttl
    ensures var r := RewritesAt(s, RunOf(Cache(p), turns), i);
            r.stable == r.rewrites && r.nonEligible == r.busting == 0
  {
    hide RewritesAt, ForwardedUpTo, Conversation, HistoryKept;
    RewriteClasses(s, RunOf(Cache(p), turns), i);
    CacheModePreservesPrefixes(p, turns);
    FirstRequest(p, turns, if i > 0 then i - 1 else 0);
  }

  /** The first request is the conversation, and every later one holds it. */
  lemma {:induction false} FirstRequest(p: Pipeline, turns: seq<ReplayTurn>, i: nat)
    requires i < |turns|
    ensures RunOf(Cache(p), turns).forwarded[0] == Conversation(turns, 0) == turns[0].input
    ensures |turns[0].input| <= |RunOf(Cache(p), turns).forwarded[i]|
  {
    hide ForwardedUpTo;
    RunOfAt(Cache(p), turns, 0);
    CacheModePreservesPrefixes(p, turns);
    if i > 0 {
      FirstRequest(p, turns, i - 1);
    }
  }

  // ---------------------------------------------------------------- meaning of delta replay

  /** The session with every input replaced by its delta. */
  function DeltaTurns(p: Pipeline, turns: seq<ReplayTurn>, k: nat): (d: seq<ReplayTurn>)
    requires k <= |turns|
    ensures |d| == k
  {
    if k == 0 then []
    else DeltaTurns(p, turns, k - 1) + [turns[k - 1].(input := Delta(p, turns, k - 1))]
  }

  lemma {:induction false} DeltaTurnsAt(p: Pipeline, turns: seq<ReplayTurn>, k: nat, i: nat)
    requires i < k <= |turns|
    ensures DeltaTurns(p, turns, k)[i] == turns[i].(input := Delta(p, turns, i))
  {
    if i < k - 1 {
      DeltaTurnsAt(p, turns, k - 1, i);
    }
  }

  /** Delta replay is the baseline replay of a session whose inputs were each compressed
      once, on the turn they arrived, and never looked at again. */
  lemma {:induction false} DeltaReplayIsBaselineOfDeltas(p: Pipeline, turns: seq<ReplayTurn>, i: nat)
    requires i < |turns|
    ensures Forwarded(Cache(p), turns, i) == Forwarded(Baseline, DeltaTurns(p, turns, |turns|), i)
  {
    var d := DeltaTurns(p, turns, |turns|);
    DeltaTurnsAt(p, turns, |turns|, i);
    if i > 0 {
      DeltaTurnsAt(p, turns, |turns|, i - 1);
      DeltaReplayIsBaselineOfDeltas(p, turns, i - 1);
      DeltaReplayExtends(p, turns, i);
      assert Before(d, i) == Forwarded(Cache(p), turns, i - 1) + [turns[i - 1].assistant];
    }
  }
}
