/** Many sessions: checkpoints, the serial loop and the worker pool. */
module Checkpoints {
  import opened Messages
  import opened Summaries
  import opened Replay
  import opened Simulator
  import opened ChargeLaws
  import opened CostLaws

  // ---------------------------------------------------------------- checkpoint payloads

  datatype CountField =
    | Sessions | Requests | RawInputTokens | ForwardedInputTokens | CacheReadTokens | CacheWriteTokens
    | RegularInputTokens | OutputTokens | CacheEligibleTurns | CacheBustTurns | TtlExpiryTurns
    | RewriteTurns | StableReplayRewriteTurns | BustingRewriteTurns | NonCacheEligibleRewriteTurns
    | RetroactiveRewriteTurns | LatestTurnOnlyRewriteTurns

  datatype CostField =
    | PaidInputCost | CacheReadCost | CacheWriteCost | PaidOutputCost | TotalCost

  datatype Payload = Payload(mode: string, counts: map<CountField, nat>, costs: map<CostField, real>)

  function CountOf(t: Totals, f: CountField): nat {
    match f
    case Sessions => t.sessions
    case Requests => t.charges.requests
    case RawInputTokens => t.charges.rawInput
    case ForwardedInputTokens => t.charges.forwarded
    case CacheReadTokens => t.charges.read
    case CacheWriteTokens => t.charges.write
    case RegularInputTokens => t.charges.regular
    case OutputTokens => t.charges.output
    case CacheEligibleTurns => t.charges.eligible
    case CacheBustTurns => t.charges.busts
    case TtlExpiryTurns => t.charges.expiries
    case RewriteTurns => t.rewrites.rewrites
    case StableReplayRewriteTurns => t.rewrites.stable
    case BustingRewriteTurns => t.rewrites.busting
    case NonCacheEligibleRewriteTurns => t.rewrites.nonEligible
    case RetroactiveRewriteTurns => t.rewrites.retroactive
    case LatestTurnOnlyRewriteTurns => t.rewrites.latestOnly
  }

  function CostOf(t: Totals, f: CostField): real {
    match f
    case PaidInputCost => t.charges.paidInput
    case CacheReadCost => t.charges.cacheRead
    case CacheWriteCost => t.charges.cacheWrite
    case PaidOutputCost => t.charges.paidOutput
    case TotalCost => t.charges.total
  }

  function ToPayload(mode: string, t: Totals): Payload {
    Payload(mode, map f: CountField | true :: CountOf(t, f), map f: CostField | true :: CostOf(t, f))
  }

  /** Absent fields read as zero. */
  function Count(p: Payload, f: CountField): nat {
    if f in p.counts then p.counts[f] else 0
  }

  function CostIn(p: Payload, f: CostField): real {
    if f in p.costs then p.costs[f] else 0.0
  }

  function FromPayload(p: Payload): Totals {
    Totals(Count(p, Sessions),
      Charges(Count(p, Requests), Count(p, RawInputTokens), Count(p, ForwardedInputTokens),
              Count(p, CacheReadTokens), Count(p, CacheWriteTokens), Count(p, RegularInputTokens),
              Count(p, OutputTokens),
              CostIn(p, PaidInputCost), CostIn(p, CacheReadCost), CostIn(p, CacheWriteCost),
              CostIn(p, PaidOutputCost), CostIn(p, TotalCost),
              Count(p, CacheEligibleTurns), Count(p, CacheBustTurns), Count(p, TtlExpiryTurns)),
      Rewrites(Count(p, RewriteTurns), Count(p, StableReplayRewriteTurns), Count(p, BustingRewriteTurns),
               Count(p, NonCacheEligibleRewriteTurns), Count(p, RetroactiveRewriteTurns),
               Count(p, LatestTurnOnlyRewriteTurns)))
  }

  /** Loading a checkpoint undoes writing it, field by field. */
  lemma LoadUndoesWrite(mode: string, t: Totals)
    ensures FromPayload(ToPayload(mode, t)) == t
  {
  }

  /** Each counter is stored under its own name, and so is each cost. */
  lemma PayloadFields(mode: string, t: Totals)
    ensures var p, c, r := ToPayload(mode, t), t.charges, t.rewrites;
            && p.mode == mode
            && Count(p, Sessions) == t.sessions && Count(p, Requests) == c.requests
            && Count(p, RawInputTokens) == c.rawInput && Count(p, ForwardedInputTokens) == c.forwarded
            && Count(p, CacheReadTokens) == c.read && Count(p, CacheWriteTokens) == c.write
            && Count(p, RegularInputTokens) == c.regular && Count(p, OutputTokens) == c.output
            && Count(p, CacheEligibleTurns) == c.eligible && Count(p, CacheBustTurns) == c.busts
            && Count(p, TtlExpiryTurns) == c.expiries
            && Count(p, RewriteTurns) == r.rewrites && Count(p, StableReplayRewriteTurns) == r.stable
            && Count(p, BustingRewriteTurns) == r.busting && Count(p, NonCacheEligibleRewriteTurns) == r.nonEligible
            && Count(p, RetroactiveRewriteTurns) == r.retroactive
            && Count(p, LatestTurnOnlyRewriteTurns) == r.latestOnly
            && CostIn(p, PaidInputCost) == c.paidInput && CostIn(p, CacheReadCost) == c.cacheRead
            && CostIn(p, CacheWriteCost) == c.cacheWrite && CostIn(p, PaidOutputCost) == c.paidOutput
            && CostIn(p, TotalCost) == c.total
  {
    StoredFields(mode, t);
    hide Count, CostIn;
  }

  lemma StoredFields(mode: string, t: Totals)
    ensures forall f :: Count(ToPayload(mode, t), f) == CountOf(t, f)
    ensures forall g :: CostIn(ToPayload(mode, t), g) == CostOf(t, g)
  {
    hide CountOf, CostOf;
  }

  /** A payload that lacks a field reads like one that holds zero there, and any field it has
      is read as it is. */
  lemma AbsentReadsZero(p: Payload, f: CountField, g: CostField)
    requires f !in p.counts && g !in p.costs
    ensures FromPayload(p) == FromPayload(p.(counts := p.counts[f := 0], costs := p.costs[g := 0.0]))
  {
    var p' := p.(counts := p.counts[f := 0], costs := p.costs[g := 0.0]);
    assert forall h :: Count(p', h) == Count(p, h);
    assert forall h :: CostIn(p', h) == CostIn(p, h);
    hide Count, CostIn;
  }

  lemma NothingStored(mode: string)
    ensures FromPayload(Payload(mode, map[], map[])) == NO_TOTALS
  {
  }

  // ---------------------------------------------------------------- jobs

  /** A session file; `replay` is None when it holds no turn. */
  datatype Job = Job(sessionId: string, replay: Option<SessionReplay>)

  datatype Plan = Plan(mode: Mode, s: Settings, recentTurns: Option<int>)

  function JobRun(p: Plan, job: Job): Run {
    match job.replay
    case None => Trace([], [])
    case Some(replay) => RunOf(p.mode, TrimToRecentTurns(replay, p.recentTurns).turns)
  }

  /** What one session adds to the merged summary. */
  function Contribution(p: Plan, job: Job): Totals {
    if job.replay.None? then NO_TOTALS else RunTotals(p.s, JobRun(p, job))
  }

  /** With a limit of n turns a session counts by its last n turns (all of them if there are no
      more), without one by all; one that holds no turn counts nothing. */
  lemma ContributionOfLatest(p: Plan, job: Job, older: seq<ReplayTurn>, latest: seq<ReplayTurn>)
    requires job.replay.Some? ==> job.replay.value.turns == older + latest
    requires var r := p.recentTurns;
             if r.Some? && r.value > 0 then |latest| == r.value || (older == [] && |latest| < r.value) else older == []
    ensures Contribution(p, job)
            == if job.replay.Some? then RunTotals(p.s, RunOf(p.mode, latest)) else NO_TOTALS
  {
    hide RunTotals, ForwardedUpTo;
    if job.replay.Some? {
      TrimKeepsLatest(job.replay.value, p.recentTurns);
      SuffixUnique(older, latest, TrimToRecentTurns(job.replay.value, p.recentTurns).turns);
    }
  }

  /** The merged summary when every session is simulated once. */
  function Expected(p: Plan, jobs: seq<Job>, k: nat): Totals
    requires k <= |jobs|
  {
    if k == 0 then NO_TOTALS else Expected(p, jobs, k - 1).Plus(Contribution(p, jobs[k - 1]))
  }

  method SimulateJob(p: Plan, job: Job) returns (summary: ModeSummary)
    ensures fresh(summary) && summary.Value() == Contribution(p, job)
  {
    match job.replay
    case None => summary := new ModeSummary(ModeName(p.mode), 0);
    case Some(replay) => summary := SimulateReplay(TrimToRecentTurns(replay, p.recentTurns).turns, p.mode, p.s);
  }

  type Store = map<(string, string), Payload>

  function Key(p: Plan, job: Job): (string, string) {
    (ModeName(p.mode), job.sessionId)
  }

  /** The file of a checkpoint. */
  function CheckpointFile(mode: Mode, sessionId: string): string {
    ModeName(mode) + "--" + sessionId + ".json"
  }

  predicate SameKind(a: Mode, b: Mode) {
    (a.Baseline? && b.Baseline?) || (a.Token? && b.Token?) || (a.Cache? && b.Cache?)
  }

  /** Checkpoints of different modes or sessions never share a file; nor a key here. */
  lemma CheckpointFilesDiffer(a: Mode, i: string, b: Mode, j: string)
    ensures CheckpointFile(a, i) == CheckpointFile(b, j) <==> SameKind(a, b) && i == j
    ensures ModeName(a) == ModeName(b) <==> SameKind(a, b)
    ensures CheckpointFile(Baseline, i) == "baseline--" + i + ".json"
    ensures a.Token? ==> CheckpointFile(a, i) == "token--" + i + ".json"
    ensures a.Cache? ==> CheckpointFile(a, i) == "cache--" + i + ".json"
  {
    ModeNamesDiffer(a, b);
    hide ModeName;
    InTheMiddle(ModeName(a) + "--", i, ".json");
    InTheMiddle(ModeName(b) + "--", j, ".json");
    assert CheckpointFile(a, i)[0] == ModeName(a)[0] && CheckpointFile(b, j)[0] == ModeName(b)[0];
  }

  lemma ModeNamesDiffer(a: Mode, b: Mode)
    ensures ModeName(a) == ModeName(b) <==> SameKind(a, b)
    ensures ModeName(a) != [] && ModeName(b) != [] && (ModeName(a)[0] == ModeName(b)[0] <==> SameKind(a, b))
    ensures ModeName(Baseline) == "baseline"
    ensures a.Token? ==> ModeName(a) == "token"
    ensures a.Cache? ==> ModeName(a) == "cache"
  {
    assert "baseline"[0] == 'b' && "token"[0] == 't' && "cache"[0] == 'c';
  }

  lemma InTheMiddle(front: string, text: string, end: string)
    ensures (front + text + end)[|front|..|front| + |text|] == text
    ensures |front + text + end| == |front| + |text| + |end|
  {
  }

  /** Every checkpoint holds what its session would contribute now. */
  ghost predicate Fresh(p: Plan, jobs: seq<Job>, store: Store) {
    forall i :: 0 <= i < |jobs| && Key(p, jobs[i]) in store ==>
      FromPayload(store[Key(p, jobs[i])]) == Contribution(p, jobs[i])
  }

  /** Sessions under one id are the same as far as the summary goes; distinct ids are enough. */
  ghost predicate OneSessionPerId(p: Plan, jobs: seq<Job>) {
    forall i, j :: 0 <= i < j < |jobs| && jobs[i].sessionId == jobs[j].sessionId ==>
      Contribution(p, jobs[i]) == Contribution(p, jobs[j])
  }

  lemma DistinctIdsSuffice(p: Plan, jobs: seq<Job>)
    requires forall i, j :: 0 <= i < j < |jobs| ==> jobs[i].sessionId != jobs[j].sessionId
    ensures OneSessionPerId(p, jobs)
  {
  }

  method LoadCheckpoint(p: Plan, job: Job, store: Store) returns (cached: Option<ModeSummary>)
    ensures cached.Some? <==> Key(p, job) in store
    ensures cached.Some? ==> fresh(cached.value) && cached.value.Value() == FromPayload(store[Key(p, job)])
  {
    if Key(p, job) in store {
      var summary := new ModeSummary(ModeName(p.mode), 0);
      var t := FromPayload(store[Key(p, job)]);
      summary.sessions, summary.charges, summary.rewrites := t.sessions, t.charges, t.rewrites;
      return Some(summary);
    }
    return None;
  }

  // ---------------------------------------------------------------- the serial loop

  /** The serial loop on any store: a session whose id has a checkpoint is never simulated. */
  function SerialRun(p: Plan, jobs: seq<Job>, k: nat, checkpoints: bool, store: Store): (Totals, Store)
    requires k <= |jobs|
  {
    if k == 0 then (NO_TOTALS, store)
    else
      var (t, st) := SerialRun(p, jobs, k - 1, checkpoints, store);
      var job := jobs[k - 1];
      var own := Contribution(p, job);
      if checkpoints && Key(p, job) in st then (t.Plus(FromPayload(st[Key(p, job)])), st)
      else if job.replay.None? then (t, st)
      else (t.Plus(own), if checkpoints then st[Key(p, job) := ToPayload(ModeName(p.mode), own)] else st)
  }

  method SimulateSerially(p: Plan, jobs: seq<Job>, checkpoints: bool, store: Store)
    returns (summary: ModeSummary, store': Store)
    ensures (summary.Value(), store') == SerialRun(p, jobs, |jobs|, checkpoints, store)
  {
    hide Contribution, FromPayload, ToPayload;
    summary := new ModeSummary(ModeName(p.mode), 0);
    store' := store;
    for i := 0 to |jobs|
      invariant fresh(summary)
      invariant (summary.Value(), store') == SerialRun(p, jobs, i, checkpoints, store)
    {
      var job := jobs[i];
      var cached := None;
      if checkpoints {
        cached := LoadCheckpoint(p, job, store');
      }
      if cached.Some? {
        summary.Merge(cached.value);
      } else if job.replay.Some? {
        var partial := SimulateJob(p, job);
        if checkpoints {
          store' := store'[Key(p, job) := ToPayload(ModeName(p.mode), partial.Value())];
        }
        summary.Merge(partial);
      }
    }
  }

  predicate Replayable(jobs: seq<Job>, i: nat, id: string)
    requires i < |jobs|
  {
    jobs[i].sessionId == id && jobs[i].replay.Some?
  }

  /** The first of the first k jobs that has this id and a replay; k if there is none. */
  function FirstUnder(jobs: seq<Job>, id: string, k: nat): (h: nat)
    requires k <= |jobs|
    ensures h <= k && (h < k ==> Replayable(jobs, h, id))
    ensures forall i :: 0 <= i < h ==> !Replayable(jobs, i, id)
  {
    if k == 0 then 0
    else
      var h := FirstUnder(jobs, id, k - 1);
      if h < k - 1 || Replayable(jobs, k - 1, id) then h else k
  }

  /** What the serial loop adds for job j: the checkpoint that was there at the start, else
      the first session under its id that has a replay. */
  function SerialShare(p: Plan, jobs: seq<Job>, j: nat, store: Store): Totals
    requires j < |jobs|
  {
    if Key(p, jobs[j]) in store then FromPayload(store[Key(p, jobs[j])])
    else Contribution(p, jobs[FirstUnder(jobs, jobs[j].sessionId, j)])
  }

  function SerialTotal(p: Plan, jobs: seq<Job>, k: nat, store: Store): Totals
    requires k <= |jobs|
  {
    if k == 0 then NO_TOTALS else SerialTotal(p, jobs, k - 1, store).Plus(SerialShare(p, jobs, k - 1, store))
  }

  /** The checkpoints after k jobs: the old ones, and per id the first session with a replay. */
  ghost predicate StoreAfter(p: Plan, jobs: seq<Job>, k: nat, store: Store, st: Store)
    requires k <= |jobs|
  {
    forall id: string ::
      var key := (ModeName(p.mode), id);
      var h := FirstUnder(jobs, id, k);
      && (key in store ==> key in st && st[key] == store[key])
      && (key !in store ==> (key in st <==> h < k))
      && (key !in store && h < k ==> st[key] == ToPayload(ModeName(p.mode), Contribution(p, jobs[h])))
  }

  lemma {:induction false} SerialStore(p: Plan, jobs: seq<Job>, k: nat, store: Store)
    requires k <= |jobs|
    ensures StoreAfter(p, jobs, k, store, SerialRun(p, jobs, k, true, store).1)
  {
    hide Contribution, FromPayload, ToPayload, Totals.Plus;
    if k > 0 {
      SerialStore(p, jobs, k - 1, store);
    }
  }

  /** The serial loop with checkpoints on any list of sessions and any store. */
  lemma {:induction false} SerialLaw(p: Plan, jobs: seq<Job>, k: nat, store: Store)
    requires k <= |jobs|
    ensures SerialRun(p, jobs, k, true, store).0 == SerialTotal(p, jobs, k, store)
  {
    hide Contribution, FromPayload, ToPayload, Totals.Plus;
    if k > 0 {
      var job := jobs[k - 1];
      SerialLaw(p, jobs, k - 1, store);
      SerialStore(p, jobs, k - 1, store);
      NoReplayNoContribution(p, job);
      NothingAdded(SerialTotal(p, jobs, k - 1, store));
      LoadUndoesWrite(ModeName(p.mode), Contribution(p, jobs[FirstUnder(jobs, job.sessionId, k - 1)]));
      assert (ModeName(p.mode), job.sessionId) == Key(p, job);
    }
  }

  lemma NoReplayNoContribution(p: Plan, job: Job)
    ensures job.replay.None? ==> Contribution(p, job) == NO_TOTALS
  {
  }

  lemma SharesAgree(p: Plan, jobs: seq<Job>, store: Store)
    requires OneSessionPerId(p, jobs)
    ensures forall j :: 0 <= j < |jobs| ==> SerialShare(p, jobs, j, store) == Share(p, jobs[j], true, store)
  {
    hide Contribution, FromPayload;
  }

  lemma {:induction false} SerialTotalIsPool(p: Plan, jobs: seq<Job>, k: nat, store: Store)
    requires k <= |jobs| && OneSessionPerId(p, jobs)
    ensures SerialTotal(p, jobs, k, store) == PoolTotal(p, jobs, k, true, store)
  {
    hide Contribution, SerialShare, Share, Totals.Plus, OneSessionPerId;
    if k > 0 {
      SharesAgree(p, jobs, store);
      SerialTotalIsPool(p, jobs, k - 1, store);
    }
  }

  /** Whatever the checkpoints hold, serial loop and pool agree if sessions under one id do. */
  lemma SerialIsPool(p: Plan, jobs: seq<Job>, k: nat, store: Store)
    requires k <= |jobs| && OneSessionPerId(p, jobs)
    ensures SerialRun(p, jobs, k, true, store).0 == PoolTotal(p, jobs, k, true, store)
  {
    hide SerialRun, PoolTotal, OneSessionPerId;
    SerialLaw(p, jobs, k, store);
    SerialTotalIsPool(p, jobs, k, store);
  }

  lemma {:induction false} WithoutCheckpoints(p: Plan, jobs: seq<Job>, k: nat, store: Store)
    requires k <= |jobs|
    ensures SerialRun(p, jobs, k, false, store) == (Expected(p, jobs, k), store)
  {
    hide Contribution, FromPayload, ToPayload, Totals.Plus;
    if k > 0 {
      NoReplayNoContribution(p, jobs[k - 1]);
      WithoutCheckpoints(p, jobs, k - 1, store);
      NothingAdded(Expected(p, jobs, k - 1));
    }
  }

  lemma StaysFresh(p: Plan, jobs: seq<Job>, k: nat, store: Store)
    requires k <= |jobs| && OneSessionPerId(p, jobs) && Fresh(p, jobs, store)
    ensures Fresh(p, jobs, SerialRun(p, jobs, k, true, store).1)
  {
    hide Contribution, FromPayload, ToPayload, SerialRun;
    var st := SerialRun(p, jobs, k, true, store).1;
    SerialStore(p, jobs, k, store);
    forall j | 0 <= j < |jobs| && Key(p, jobs[j]) in st
      ensures FromPayload(st[Key(p, jobs[j])]) == Contribution(p, jobs[j])
    {
      var id := jobs[j].sessionId;
      var h := FirstUnder(jobs, id, k);
      assert Key(p, jobs[j]) == (ModeName(p.mode), id);
      if Key(p, jobs[j]) !in store {
        LoadUndoesWrite(ModeName(p.mode), Contribution(p, jobs[h]));
      }
    }
  }

  /** Whatever subset of the sessions is restored from checkpoints, the serial loop gives the
      full sum, and the checkpoints it leaves are good for any later run. */
  lemma SerialIsExpected(p: Plan, jobs: seq<Job>, k: nat, checkpoints: bool, store: Store)
    requires k <= |jobs| && OneSessionPerId(p, jobs) && Fresh(p, jobs, store)
    ensures SerialRun(p, jobs, k, checkpoints, store).0 == Expected(p, jobs, k)
    ensures Fresh(p, jobs, SerialRun(p, jobs, k, checkpoints, store).1)
  {
    hide SerialRun, Expected, Fresh;
    if checkpoints {
      SerialIsPool(p, jobs, k, store);
      PoolIsExpected(p, jobs, k, true, store);
      StaysFresh(p, jobs, k, store);
    } else {
      WithoutCheckpoints(p, jobs, k, store);
    }
  }

  lemma NothingAdded(t: Totals)
    ensures t.Plus(NO_TOTALS) == t
  {
  }

  // ---------------------------------------------------------------- the worker pool

  lemma PlusCommutesAndAssociates(a: Totals, b: Totals, c: Totals)
    ensures a.Plus(b) == b.Plus(a)
    ensures a.Plus(b).Plus(c) == a.Plus(b.Plus(c))
  {
    PlusAssociative(a.charges, b.charges, c.charges);
  }

  /** Sum over the chosen jobs among the first k. */
  ghost function SumOf(p: Plan, jobs: seq<Job>, chosen: set<nat>, k: nat): Totals
    requires k <= |jobs|
  {
    if k == 0 then NO_TOTALS
    else if k - 1 in chosen then SumOf(p, jobs, chosen, k - 1).Plus(Contribution(p, jobs[k - 1]))
    else SumOf(p, jobs, chosen, k - 1)
  }

  /** A job's share can be taken out of the sum, wherever it stands. */
  lemma {:induction false} SumWithout(p: Plan, jobs: seq<Job>, chosen: set<nat>, i: nat, k: nat)
    requires k <= |jobs| && i in chosen
    ensures i < k ==> SumOf(p, jobs, chosen, k) == Contribution(p, jobs[i]).Plus(SumOf(p, jobs, chosen - {i}, k))
    ensures k <= i ==> SumOf(p, jobs, chosen, k) == SumOf(p, jobs, chosen - {i}, k)
  {
    hide Contribution, Totals.Plus;
    if k > 0 {
      SumWithout(p, jobs, chosen, i, k - 1);
      var rest := SumOf(p, jobs, chosen - {i}, k - 1);
      if i == k - 1 {
        PlusCommutesAndAssociates(rest, Contribution(p, jobs[i]), NO_TOTALS);
      } else if i < k - 1 {
        PlusCommutesAndAssociates(Contribution(p, jobs[i]), rest, Contribution(p, jobs[k - 1]));
      }
    }
  }

  lemma {:induction false} SumOfNone(p: Plan, jobs: seq<Job>, chosen: set<nat>, k: nat)
    requires k <= |jobs| && forall i :: 0 <= i < k ==> i !in chosen
    ensures SumOf(p, jobs, chosen, k) == NO_TOTALS
  {
    if k > 0 {
      SumOfNone(p, jobs, chosen, k - 1);
    }
  }

  lemma {:induction false} SumAgree(p: Plan, jobs: seq<Job>, c: set<nat>, d: set<nat>, k: nat)
    requires k <= |jobs| && forall i :: 0 <= i < k ==> (i in c <==> i in d)
    ensures SumOf(p, jobs, c, k) == SumOf(p, jobs, d, k)
  {
    hide Contribution, Totals.Plus;
    if k > 0 {
      SumAgree(p, jobs, c, d, k - 1);
    }
  }

  /** What the pool adds for a session: its checkpoint if one was there at the start. */
  function Share(p: Plan, job: Job, checkpoints: bool, store: Store): Totals {
    if checkpoints && Key(p, job) in store then FromPayload(store[Key(p, job)]) else Contribution(p, job)
  }

  function PoolTotal(p: Plan, jobs: seq<Job>, k: nat, checkpoints: bool, store: Store): Totals
    requires k <= |jobs|
  {
    if k == 0 then NO_TOTALS
    else PoolTotal(p, jobs, k - 1, checkpoints, store).Plus(Share(p, jobs[k - 1], checkpoints, store))
  }

  /** A checkpoint as some session of the list would write it. */
  ghost predicate OwnCheckpoint(p: Plan, jobs: seq<Job>, key: (string, string), payload: Payload) {
    exists i :: 0 <= i < |jobs| && Key(p, jobs[i]) == key
                && payload == ToPayload(ModeName(p.mode), Contribution(p, jobs[i]))
  }

  /** Checkpoints that were there stay as they are; new ones are sessions' own. */
  ghost predicate NewCheckpoints(p: Plan, jobs: seq<Job>, checkpoints: bool, store: Store, store': Store) {
    && (!checkpoints ==> store' == store)
    && (forall key :: key in store ==> key in store' && store'[key] == store[key])
    && (forall key :: key in store' && key !in store ==> OwnCheckpoint(p, jobs, key, store'[key]))
  }

  lemma NothingNew(p: Plan, jobs: seq<Job>, checkpoints: bool, store: Store)
    ensures NewCheckpoints(p, jobs, checkpoints, store, store)
  {
  }

  lemma OneMoreCheckpoint(p: Plan, jobs: seq<Job>, store: Store, store': Store, i: nat)
    requires i < |jobs| && Key(p, jobs[i]) !in store && NewCheckpoints(p, jobs, true, store, store')
    ensures var payload := ToPayload(ModeName(p.mode), Contribution(p, jobs[i]));
            NewCheckpoints(p, jobs, true, store, store'[Key(p, jobs[i]) := payload])
  {
    hide Contribution, ToPayload;
  }

  /** Restored sessions first, then the rest in whatever order the workers finish: the
      order never shows in the merged summary. */
  method SimulateInPool(p: Plan, jobs: seq<Job>, checkpoints: bool, store: Store)
    returns (summary: ModeSummary, store': Store)
    ensures summary.Value() == PoolTotal(p, jobs, |jobs|, checkpoints, store)
    ensures Fresh(p, jobs, store) && OneSessionPerId(p, jobs) ==> Fresh(p, jobs, store')
    ensures checkpoints ==> forall i :: 0 <= i < |jobs| ==> Key(p, jobs[i]) in store'
    ensures NewCheckpoints(p, jobs, checkpoints, store, store')
  {
    hide Contribution, FromPayload, ToPayload, Totals.Plus, NewCheckpoints, OwnCheckpoint;
    summary := new ModeSummary(ModeName(p.mode), 0);
    store' := store;
    NothingAdded(NO_TOTALS);
    NothingNew(p, jobs, checkpoints, store);
    var submitted: set<nat> := {};
    for i := 0 to |jobs|
      invariant fresh(summary)
      invariant forall j :: j in submitted ==> j < i
      invariant forall j :: 0 <= j < i && j !in submitted ==> checkpoints ==> Key(p, jobs[j]) in store
      invariant forall j :: j in submitted && checkpoints ==> Key(p, jobs[j]) !in store
      invariant summary.Value().Plus(SumOf(p, jobs, submitted, i)) == PoolTotal(p, jobs, i, checkpoints, store)
    {
      var cached := None;
      if checkpoints {
        cached := LoadCheckpoint(p, jobs[i], store');
      }
      ghost var own := Share(p, jobs[i], checkpoints, store);
      if cached.Some? {
        PlusCommutesAndAssociates(summary.Value(), SumOf(p, jobs, submitted, i), own);
        PlusCommutesAndAssociates(summary.Value(), own, SumOf(p, jobs, submitted, i));
        PlusCommutesAndAssociates(own, SumOf(p, jobs, submitted, i), own);
        summary.Merge(cached.value);
      } else {
        PlusCommutesAndAssociates(summary.Value(), SumOf(p, jobs, submitted, i), own);
        SumAgree(p, jobs, submitted, submitted + {i}, i);
        submitted := submitted + {i};
      }
    }

    while submitted != {}
      invariant fresh(summary)
      invariant forall j :: j in submitted ==> j < |jobs|
      invariant forall j :: j in submitted && checkpoints ==> Key(p, jobs[j]) !in store
      invariant NewCheckpoints(p, jobs, checkpoints, store, store')
      invariant forall j :: 0 <= j < |jobs| && j !in submitted ==> checkpoints ==> Key(p, jobs[j]) in store'
      invariant Fresh(p, jobs, store) && OneSessionPerId(p, jobs) ==> Fresh(p, jobs, store')
      invariant summary.Value().Plus(SumOf(p, jobs, submitted, |jobs|))
                == PoolTotal(p, jobs, |jobs|, checkpoints, store)
      decreases submitted
    {
      var i :| i in submitted;
      var partial := SimulateJob(p, jobs[i]);
      if checkpoints {
        LoadUndoesWrite(ModeName(p.mode), partial.Value());
        OneMoreCheckpoint(p, jobs, store, store', i);
        store' := store'[Key(p, jobs[i]) := ToPayload(ModeName(p.mode), partial.Value())];
      }
      SumWithout(p, jobs, submitted, i, |jobs|);
      PlusCommutesAndAssociates(summary.Value(), partial.Value(), SumOf(p, jobs, submitted - {i}, |jobs|));
      summary.Merge(partial);
      submitted := submitted - {i};
    }
    SumOfNone(p, jobs, submitted, |jobs|);
    NothingAdded(summary.Value());
  }

  lemma {:induction false} PoolIsExpected(p: Plan, jobs: seq<Job>, k: nat, checkpoints: bool, store: Store)
    requires k <= |jobs| && (checkpoints ==> Fresh(p, jobs, store))
    ensures PoolTotal(p, jobs, k, checkpoints, store) == Expected(p, jobs, k)
  {
    hide Contribution, FromPayload, Totals.Plus;
    if k > 0 {
      PoolIsExpected(p, jobs, k - 1, checkpoints, store);
    }
  }

  /** Serial loop, worker pool, fresh start or resume: all give the same merged summary. */
  lemma SchedulesAgree(p: Plan, jobs: seq<Job>, resumed: Store, scratch: Store)
    requires OneSessionPerId(p, jobs) && Fresh(p, jobs, resumed) && Fresh(p, jobs, scratch)
    ensures SerialRun(p, jobs, |jobs|, true, resumed).0
            == SerialRun(p, jobs, |jobs|, true, scratch).0
            == SerialRun(p, jobs, |jobs|, false, scratch).0
            == PoolTotal(p, jobs, |jobs|, true, resumed)
            == PoolTotal(p, jobs, |jobs|, false, scratch)
            == Expected(p, jobs, |jobs|)
  {
    SerialIsExpected(p, jobs, |jobs|, true, resumed);
    SerialIsExpected(p, jobs, |jobs|, true, scratch);
    SerialIsExpected(p, jobs, |jobs|, false, scratch);
    PoolIsExpected(p, jobs, |jobs|, true, resumed);
    PoolIsExpected(p, jobs, |jobs|, false, scratch);
  }

  /** With distinct ids nothing else is asked: a serial run, one that was interrupted after k
      sessions and resumed, by the loop or the pool, and a pool without checkpoints all agree. */
  lemma DistinctIdsAgree(p: Plan, jobs: seq<Job>, k: nat)
    requires forall i, j :: 0 <= i < j < |jobs| ==> jobs[i].sessionId != jobs[j].sessionId
    requires k <= |jobs|
    ensures var left := SerialRun(p, jobs, k, true, map[]).1;
            SerialRun(p, jobs, |jobs|, true, left).0
            == PoolTotal(p, jobs, |jobs|, true, left)
            == SerialRun(p, jobs, |jobs|, true, map[]).0
            == PoolTotal(p, jobs, |jobs|, false, map[])
            == Expected(p, jobs, |jobs|)
  {
    hide SerialRun, PoolTotal, Expected, OneSessionPerId, Contribution;
    DistinctIdsSuffice(p, jobs);
    assert Fresh(p, jobs, map[]);
    hide Fresh;
    SerialIsExpected(p, jobs, k, true, map[]);
    SchedulesAgree(p, jobs, SerialRun(p, jobs, k, true, map[]).1, map[]);
  }

  // ---------------------------------------------------------------- duplicate ids

  /** Starting without checkpoints, the serial loop and the pool agree on the first k sessions. */
  ghost predicate AgreeOn(p: Plan, jobs: seq<Job>, k: nat)
    requires k <= |jobs|
  {
    SerialRun(p, jobs, k, true, map[]).0 == PoolTotal(p, jobs, k, true, map[])
  }

  /** Session j contributes what the first session under its id with a replay contributes. */
  predicate LikeTheFirst(p: Plan, jobs: seq<Job>, j: nat)
    requires j < |jobs|
  {
    Contribution(p, jobs[FirstUnder(jobs, jobs[j].sessionId, j)]) == Contribution(p, jobs[j])
  }

  lemma AgreeOnNothing(p: Plan, jobs: seq<Job>)
    ensures AgreeOn(p, jobs, 0)
  {
  }

  lemma AgreeOnStep(p: Plan, jobs: seq<Job>, k: nat)
    requires k < |jobs| && AgreeOn(p, jobs, k)
    ensures AgreeOn(p, jobs, k + 1) <==> LikeTheFirst(p, jobs, k)
  {
    hide Contribution, Totals.Plus, FromPayload, ToPayload, SerialRun;
    SerialLaw(p, jobs, k, map[]);
    SerialLaw(p, jobs, k + 1, map[]);
    PlusCancels(SerialTotal(p, jobs, k, map[]), SerialShare(p, jobs, k, map[]), Contribution(p, jobs[k]));
    assert Share(p, jobs[k], true, map[]) == Contribution(p, jobs[k]);
  }

  /** The serial loop keeps up with the pool over every prefix of the list iff every session
      is like the first under its id. */
  lemma {:induction false} SerialKeepsUpIff(p: Plan, jobs: seq<Job>, n: nat)
    requires n <= |jobs|
    ensures (forall k :: 0 <= k <= n ==> AgreeOn(p, jobs, k)) <==> forall j :: 0 <= j < n ==> LikeTheFirst(p, jobs, j)
  {
    hide AgreeOn, LikeTheFirst;
    AgreeOnNothing(p, jobs);
    if n > 0 {
      SerialKeepsUpIff(p, jobs, n - 1);
      if AgreeOn(p, jobs, n - 1) {
        AgreeOnStep(p, jobs, n - 1);
      }
    }
  }

  /** With checkpoints, two sessions under one id are told apart by the pool (which looks
      for checkpoints before any is written) but not by the serial loop, which counts the
      first one twice.  The two schedules agree exactly when the sessions contribute the same. */
  lemma DuplicateIdsNeedThePool(p: Plan, a: Job, b: Job)
    requires a.sessionId == b.sessionId && a.replay.Some?
    ensures var serial := SerialRun(p, [a, b], 2, true, map[]).0;
            && serial == Contribution(p, a).Plus(Contribution(p, a))
            && (serial == PoolTotal(p, [a, b], 2, true, map[]) <==> Contribution(p, a) == Contribution(p, b))
  {
    hide FromPayload, ToPayload, Contribution, Totals.Plus;
    var c, d := Contribution(p, a), Contribution(p, b);
    var jobs := [a, b];
    LoadUndoesWrite(ModeName(p.mode), c);
    PlusCommutesAndAssociates(NO_TOTALS, c, d);
    NothingAdded(c);
    PlusCancels(c, c, d);
    var first := SerialRun(p, jobs, 1, true, map[]);
    assert SerialRun(p, jobs, 0, true, map[]) == (NO_TOTALS, map[]);
    assert first.0 == c && Key(p, b) in first.1 && first.1[Key(p, b)] == ToPayload(ModeName(p.mode), c);
    assert PoolTotal(p, jobs, 1, true, map[]) == NO_TOTALS.Plus(c);
  }

  lemma PlusCancels(a: Totals, b: Totals, c: Totals)
    ensures a.Plus(b) == a.Plus(c) <==> b == c
  {
    if a.Plus(b) == a.Plus(c) {
      assert b.charges == c.charges && b.rewrites == c.rewrites;
    }
  }

  // ---------------------------------------------------------------- conservation of merged summaries

  ghost predicate Conserved(t: Totals) {
    t.charges.read + t.charges.write + t.charges.regular == t.charges.forwarded
  }

  lemma MergeConserves(t: Totals, u: Totals)
    requires Conserved(t) && Conserved(u)
    ensures Conserved(t.Plus(u))
  {
  }

  lemma SessionConserved(p: Plan, job: Job)
    ensures Conserved(Contribution(p, job))
  {
    hide ChargesBetween, JobRun;
    if job.replay.Some? {
      var run := JobRun(p, job);
      RunConserved(p.s, run, 0, |run.turns|);
    }
  }

  /** Merging any number of sessions keeps every token accounted for. */
  lemma {:induction false} MergedConserved(p: Plan, jobs: seq<Job>, k: nat)
    requires k <= |jobs|
    ensures Conserved(Expected(p, jobs, k))
  {
    hide Contribution, Totals.Plus;
    if k > 0 {
      MergedConserved(p, jobs, k - 1);
      SessionConserved(p, jobs[k - 1]);
      MergeConserves(Expected(p, jobs, k - 1), Contribution(p, jobs[k - 1]));
    }
  }

  /** The merged summary counts the sessions that hold a turn, and all their (kept) requests. */
  function SessionsIn(jobs: seq<Job>, k: nat): nat
    requires k <= |jobs|
  {
    if k == 0 then 0 else SessionsIn(jobs, k - 1) + if jobs[k - 1].replay.Some? then 1 else 0
  }

  function RequestsIn(jobs: seq<Job>, recent: Option<int>, k: nat): nat
    requires k <= |jobs|
  {
    if k == 0 then 0
    else
      RequestsIn(jobs, recent, k - 1)
      + match jobs[k - 1].replay
        case None => 0
        case Some(replay) =>
          if recent.Some? && 0 < recent.value < |replay.turns| then recent.value else |replay.turns|
  }

  lemma JobCounts(p: Plan, job: Job)
    ensures Contribution(p, job).sessions == if job.replay.Some? then 1 else 0
    ensures Contribution(p, job).charges.requests == |JobRun(p, job).turns|
  {
    hide ChargesBetween, RewritesUpTo;
    RunConserved(p.s, JobRun(p, job), 0, |JobRun(p, job).turns|);
  }

  lemma {:induction false} MergedCounts(p: Plan, jobs: seq<Job>, k: nat)
    requires k <= |jobs|
    ensures Expected(p, jobs, k).sessions == SessionsIn(jobs, k)
    ensures Expected(p, jobs, k).charges.requests == RequestsIn(jobs, p.recentTurns, k)
  {
    hide Contribution;
    if k > 0 {
      MergedCounts(p, jobs, k - 1);
      JobCounts(p, jobs[k - 1]);
      if jobs[k - 1].replay.Some? {
        TrimKeepsLatest(jobs[k - 1].replay.value, p.recentTurns);
      }
    }
  }

  // ---------------------------------------------------------------- the no-cache figure of merged summaries

  /** The price of sending everything uncached, and of the written tokens at base rate. */
  function JobUncached(p: Plan, job: Job): real {
    UncachedCost(p.s, JobRun(p, job), |JobRun(p, job).turns|)
  }

  function JobWrites(p: Plan, job: Job): real {
    WritesAtBase(p.s, JobRun(p, job), |JobRun(p, job).turns|)
  }

  predicate JobWritesForFree(p: Plan, job: Job) {
    forall i :: 0 <= i < |JobRun(p, job).turns| ==> WritesForFree(p.s, JobRun(p, job), i)
  }

  function MergedUncached(p: Plan, jobs: seq<Job>, k: nat): real
    requires k <= |jobs|
  {
    if k == 0 then 0.0 else MergedUncached(p, jobs, k - 1) + JobUncached(p, jobs[k - 1])
  }

  function MergedWrites(p: Plan, jobs: seq<Job>, k: nat): real
    requires k <= |jobs|
  {
    if k == 0 then 0.0 else MergedWrites(p, jobs, k - 1) + JobWrites(p, jobs[k - 1])
  }

  lemma ChargesOfJob(p: Plan, job: Job)
    ensures Contribution(p, job).charges == ChargesBetween(p.s, JobRun(p, job), 0, |JobRun(p, job).turns|)
  {
  }

  lemma JobNoCache(p: Plan, job: Job)
    ensures var c := Contribution(p, job).charges;
            NoCacheTotalCost(c) + JobWrites(p, job) == JobUncached(p, job) + c.paidOutput
  {
    hide Contribution, JobRun, ChargesBetween, UncachedCost, WritesAtBase, NoCacheTotalCost;
    ChargesOfJob(p, job);
    NoCacheTotalIsShort(p.s, JobRun(p, job), |JobRun(p, job).turns|);
  }

  lemma JobWritesZeroIff(p: Plan, job: Job)
    ensures JobWrites(p, job) >= 0.0
    ensures JobWrites(p, job) == 0.0 <==> JobWritesForFree(p, job)
  {
    hide WritesForFree, JobRun, WritesAtBase;
    WritesAtBaseZeroIff(p.s, JobRun(p, job), |JobRun(p, job).turns|);
  }

  /** Over any sessions and models the merged figure is short of the uncached price by all
      written tokens at base rate, and equal to it exactly when every write was free. */
  lemma {:induction false} MergedNoCacheUnderstates(p: Plan, jobs: seq<Job>, k: nat)
    requires k <= |jobs|
    ensures var c := Expected(p, jobs, k).charges;
            && NoCacheTotalCost(c) + MergedWrites(p, jobs, k) == MergedUncached(p, jobs, k) + c.paidOutput
            && NoCacheTotalCost(c) <= MergedUncached(p, jobs, k) + c.paidOutput
            && (NoCacheTotalCost(c) == MergedUncached(p, jobs, k) + c.paidOutput
                <==> forall j :: 0 <= j < k ==> JobWritesForFree(p, jobs[j]))
  {
    hide Contribution, JobWrites, JobUncached, JobWritesForFree, NoCacheTotalCost, Charges.Plus;
    NoCacheAdds(NO_CHARGES, NO_CHARGES);
    if k > 0 {
      MergedNoCacheUnderstates(p, jobs, k - 1);
      JobNoCache(p, jobs[k - 1]);
      JobWritesZeroIff(p, jobs[k - 1]);
      NoCacheAdds(Expected(p, jobs, k - 1).charges, Contribution(p, jobs[k - 1]).charges);
    }
  }

  // ---------------------------------------------------------------- checkpoints of another multiplier

  /** The plan under another write multiplier; it finds the same checkpoints. */
  function Under(p: Plan, m: real): Plan {
    p.(s := p.s.(cacheWriteMultiplier := m))
  }

  function MoreWriteDollars(t: Totals, d: real): Totals {
    t.(charges := WithWriteDollars(t.charges, d))
  }

  lemma ContributionUnder(p: Plan, m: real, job: Job)
    ensures Contribution(Under(p, m), job)
            == MoreWriteDollars(Contribution(p, job), Extra(p.s, m, JobWrites(p, job)))
  {
    hide ChargesBetween, RewritesUpTo, WithWriteDollars, Extra;
    var run := JobRun(p, job);
    assert JobRun(Under(p, m), job) == run;
    MultiplierMovesWritesOnly(p.s, run, m, |run.turns|);
    MultiplierLeavesRewrites(p.s, run, m, |run.turns|);
    ExtraAdds(p.s, m, 0.0, 0.0);
    WriteDollarsAdd(NO_CHARGES, 0.0, NO_CHARGES, 0.0);
  }

  /** The written tokens, at base rate, of the sessions restored from checkpoints. */
  function RestoredWrites(p: Plan, jobs: seq<Job>, k: nat, store: Store): real
    requires k <= |jobs|
  {
    if k == 0 then 0.0
    else RestoredWrites(p, jobs, k - 1, store)
         + if Key(p, jobs[k - 1]) in store then JobWrites(p, jobs[k - 1]) else 0.0
  }

  lemma MoreDollarsAdd(t: Totals, d: real, u: Totals, e: real)
    ensures MoreWriteDollars(t, d).Plus(MoreWriteDollars(u, e)) == MoreWriteDollars(t.Plus(u), d + e)
    ensures MoreWriteDollars(t, 0.0) == t
  {
    WriteDollarsAdd(t.charges, d, u.charges, e);
  }

  /** Resuming from checkpoints of another multiplier: every token, every counter and the plain,
      read and output dollars are right, and the write dollars are off by the restored
      sessions' written tokens at base rate, times the change of multiplier. */
  lemma {:induction false} ResumedUnderMultiplier(p: Plan, m: real, jobs: seq<Job>, k: nat, store: Store)
    requires k <= |jobs| && Fresh(p, jobs, store)
    ensures Expected(Under(p, m), jobs, k)
            == MoreWriteDollars(PoolTotal(Under(p, m), jobs, k, true, store),
                                Extra(p.s, m, RestoredWrites(p, jobs, k, store)))
  {
    hide Contribution, FromPayload, JobWrites, MoreWriteDollars, Extra, Totals.Plus;
    ExtraAdds(p.s, m, 0.0, 0.0);
    MoreDollarsAdd(NO_TOTALS, 0.0, NO_TOTALS, 0.0);
    if k > 0 {
      var job := jobs[k - 1];
      ResumedUnderMultiplier(p, m, jobs, k - 1, store);
      ShareUnder(p, m, jobs, k - 1, store);
      var x, y := RestoredWrites(p, jobs, k - 1, store), if Key(p, job) in store then JobWrites(p, job) else 0.0;
      MoreDollarsAdd(PoolTotal(Under(p, m), jobs, k - 1, true, store), Extra(p.s, m, x),
                     Share(Under(p, m), job, true, store), Extra(p.s, m, y));
      ExtraAdds(p.s, m, x, y);
    }
  }

  lemma ShareUnder(p: Plan, m: real, jobs: seq<Job>, j: nat, store: Store)
    requires j < |jobs| && Fresh(p, jobs, store)
    ensures Contribution(Under(p, m), jobs[j])
            == MoreWriteDollars(Share(Under(p, m), jobs[j], true, store),
                 Extra(p.s, m, if Key(p, jobs[j]) in store then JobWrites(p, jobs[j]) else 0.0))
  {
    hide Contribution, FromPayload, JobWrites, MoreWriteDollars, Extra;
    ContributionUnder(p, m, jobs[j]);
    ExtraAdds(p.s, m, 0.0, 0.0);
    MoreDollarsAdd(Contribution(Under(p, m), jobs[j]), 0.0, NO_TOTALS, 0.0);
    assert Key(Under(p, m), jobs[j]) == Key(p, jobs[j]);
  }

  /** So the resumed summary is right exactly when the multiplier is the same or no restored
      session wrote a token that costs anything. */
  lemma ResumedUnderMultiplierIff(p: Plan, m: real, jobs: seq<Job>, k: nat, store: Store)
    requires k <= |jobs| && Fresh(p, jobs, store)
    ensures PoolTotal(Under(p, m), jobs, k, true, store) == Expected(Under(p, m), jobs, k)
            <==> m == p.s.cacheWriteMultiplier
                 || forall j :: 0 <= j < k ==> RestoredForFree(p, jobs, j, store)
  {
    hide PoolTotal, Expected, RestoredWrites, RestoredForFree, Extra, Fresh;
    ResumedUnderMultiplier(p, m, jobs, k, store);
    RestoredZeroIff(p, jobs, k, store);
    ExtraZeroIff(p.s, m, RestoredWrites(p, jobs, k, store));
  }

  lemma ExtraZeroIff(s: Settings, m: real, dollars: real)
    ensures Extra(s, m, dollars) == 0.0 <==> m == s.cacheWriteMultiplier || dollars == 0.0
  {
  }

  /** Session j is not restored, or wrote nothing that costs anything. */
  predicate RestoredForFree(p: Plan, jobs: seq<Job>, j: nat, store: Store)
    requires j < |jobs|
  {
    Key(p, jobs[j]) in store ==> JobWritesForFree(p, jobs[j])
  }

  lemma RestoredNothing(p: Plan, jobs: seq<Job>, store: Store)
    ensures RestoredWrites(p, jobs, 0, store) == 0.0
  {
  }

  lemma RestoredStep(p: Plan, jobs: seq<Job>, j: nat, store: Store)
    requires j < |jobs|
    ensures RestoredWrites(p, jobs, j + 1, store) >= RestoredWrites(p, jobs, j, store)
    ensures RestoredWrites(p, jobs, j + 1, store) == RestoredWrites(p, jobs, j, store)
            <==> RestoredForFree(p, jobs, j, store)
  {
    hide JobWrites, JobWritesForFree, Key;
    JobWritesZeroIff(p, jobs[j]);
  }

  lemma {:induction false} RestoredZeroIff(p: Plan, jobs: seq<Job>, k: nat, store: Store)
    requires k <= |jobs|
    ensures RestoredWrites(p, jobs, k, store) >= 0.0
    ensures RestoredWrites(p, jobs, k, store) == 0.0
            <==> forall j :: 0 <= j < k ==> RestoredForFree(p, jobs, j, store)
  {
    hide RestoredForFree, RestoredWrites;
    RestoredNothing(p, jobs, store);
    if k > 0 {
      RestoredZeroIff(p, jobs, k - 1, store);
      RestoredStep(p, jobs, k - 1, store);
    }
  }
}
