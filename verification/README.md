# Prefix-cache replay: a verified model

This project models the benchmarks that replay recorded coding sessions against a
provider's prompt cache, and proves what their numbers mean.

A session is a list of turns. On every turn the conversation so far is turned into a
forwarded request, by one of three modes: `Baseline` sends it as it is, `Token` reprocesses
the whole history, `Cache` (delta replay) extends the previous request by the compressed new
input. An accountant then charges cache reads, cache writes and plain input. It works one
turn behind, because what a turn writes depends on its successor; rewrites, on the other
hand, are classified at once.

The pipeline is an arbitrary function of turn, model and messages, and token mode an
arbitrary function of turn, model and conversation, so a law that does not name a mode holds
for every list of forwarded requests. Tokenizers are arbitrary non-negative counts per
message plus an arbitrary framing per list (`Additive` means no framing). Times are integers,
money is rational, and a price is not negative.

| file | contents |
|---|---|
| `Messages`, `Tokens`, `Pricing`, `Summaries` | messages, shared prefixes, rates, the mutable mode summary |
| `Replay` | what each turn forwards, and the charges of a run as a function of the whole run |
| `Simulator` | the one-pass, one-turn-late simulator, proved to compute exactly that function |
| `CacheMode` | delta replay: never busts, and what it sends |
| `Stickiness` | how the turns after a change are classified in delta replay |
| `ChargeLaws` | conservation, telescoping, the late accounting |
| `CostLaws` | what caching saves, exactly when it cannot cost more than it saves, other multipliers |
| `PrefixCosts` | the same for requests that only grow, and cache mode against baseline |
| `Detectors` | the immediate bust detector and the trace report against the accountant |
| `Scenarios` | the synthetic suite for any number of turns |
| `Loader`, `LoaderLaws` | the transcript loader and its declarative meaning |
| `SuffixMerge` | delta replay inside the last message |
| `Checkpoints` | many sessions: serial loop, worker pool, resume |
| `Markers` | cache_control breakpoints |
| `ProxyModes`, `IdleGaps` | the simpler mode benchmark and the idle-gap analysis |

## What turned out differently from what the code suggests

- The cost bound does not need prefix preservation: whatever is forwarded, every written
  token is read on the next turn. Caching never costs more than sending everything uncached,
  for any list of forwarded requests, iff at every turn inside the TTL the surcharge of
  writing a message is at most what the next model saves on reading it (`CostBoundIff`); with
  one tokenizer that is (multiplier - 1) x base(i-1) <= 0.9 x base(i)
  (`PriceConditionOneTokenizer`). One model meets it up to the multiplier 1.9, which is the
  exact limit (`CostBound`, `CostBoundIsTight`).
- In baseline and cache mode a token stays in every later request, so a dear write can be
  earned back over many cheap reads. There the exact condition is that no message is worth
  less than nothing over the rest of its session (`PrefixCostBoundIff`): at the default 1.25 a
  15-dollar turn needs five 1-dollar turns after it (`DearThenCheapIff`), and one question to
  each of two such models costs more than no cache (`MixedModelsCanCostMore`).
- `no_cache_total_cost_usd` leaves the written tokens out. For any mix of models it is the
  uncached price exactly when every write was of no token or by a free model, in one run
  (`NoCacheTotalUnderstates`) as in merged summaries (`MergedNoCacheUnderstates`).
- The trace report never flushes its waiting turn, so a bust on the last turn of a session is
  not reported: with room for all events it shows the accountant's busts less those on last
  turns (`TraceMissesLastTurn`, `TraceMissesLastTurns`), on the rewrite-pressure session n-2
  of n-1 (`PressureTraceLosesOne`). Its `prev_tail` (benchmarks/cache_bust_trace_report.py:174)
  ends with the reported turn's own answer, so it is not the tail of the lost request unless
  that request ends with the same message (`TailIsNotTheLostRequest`); on the rewrite-pressure
  session it never is (`PressureTailsAreWrong`).
- With checkpoints the serial loop counts, for each session, the first one under its id that
  has a replay (`SerialLaw`); the worker pool counts every session itself. They agree on all
  beginnings of a list exactly when each session contributes what that first one does
  (`SerialKeepsUpIff`).
- Checkpoint directories are keyed by TTL and turn limit, not by the write multiplier. Resuming
  under another multiplier keeps every token, every counter and the plain, read and output
  dollars; the write dollars are off by the restored sessions' written tokens at base rate
  times the change (`ResumedUnderMultiplier`), so the summary is right exactly when nothing
  changed or no restored write costs anything (`ResumedUnderMultiplierIff`).
- In the simpler mode benchmark the hit rate's denominator counts new tokens twice outside
  baseline, as soon as any request holds a token (`HitRateCountsNewTokensTwice`). The rate is
  the share of sent tokens that was read only for baseline or when no request begins like the
  one before it, and too low otherwise (`HitRateIsShareIff`).
- Once delta replay has changed something, every later turn of a loaded session is a rewrite,
  with any pipeline (`RewriteIffChanged`). That those turns are all retroactive holds over all
  transcripts exactly for the pipelines that never return a user message unchanged with an
  answer behind it that the loader could build (`RetroactiveExactlyLoaded`); three equal
  answers in a transcript are enough to hide one otherwise (`RewritesNeedNotStick`).

## Model

| member | source | states |
|---|---|---|
| Tokens.CommonPrefixTokens | benchmarks/claude_session_mode_benchmark.py:646-656 | the counting loop returns the tokens of the longest common prefix |
| Tokens.SharedTokensBound | benchmarks/claude_session_mode_benchmark.py:646-656 | shared tokens exceed neither request, for any tokenizer |
| Tokens.SharedTokensOfPrefix | benchmarks/claude_session_mode_benchmark.py:646-656 | a request kept whole shares all its tokens |
| Pricing.ResolveModelRates | benchmarks/claude_session_mode_benchmark.py:932-952 | input and output rates are the price table's, or else those of the model family (opus, haiku, any other) per million; none is negative, a read costs a tenth of the input rate, a write the multiplier times it |
| Pricing.ContainsIff | benchmarks/claude_session_mode_benchmark.py:935-939 | a name contains a family name iff it can be cut in front of it and behind it |
| Summaries.ModeSummary.Merge | benchmarks/claude_session_mode_benchmark.py:1016-1038 | adds every counter of the other summary, also when it is the same object |
| Replay.RewriteScope | benchmarks/claude_session_mode_benchmark.py:659-677 | rewritten iff the lists differ; retroactive iff stable messages were lost or the first difference lies among them |
| Replay.RetroactiveMeaning | benchmarks/claude_session_mode_benchmark.py:659-677 | a rewrite is retroactive iff the request does not start with as much of the conversation as was stable |
| Replay.ExtractionIff | benchmarks/claude_session_mode_benchmark.py:680-695 | extraction succeeds iff there was a request before and its conversation only grew, and hands out what was forwarded and what came new |
| Replay.TrimKeepsLatest | benchmarks/claude_session_mode_benchmark.py:455-465 | a positive limit keeps that many of the latest turns, any other all; ids stay |
| Simulator.ApplyTurnMetrics | benchmarks/claude_session_mode_benchmark.py:955-1013 | the in-place counter updates add exactly the turn's charge and nothing else |
| Simulator.ClassifyRewrite | benchmarks/claude_session_mode_benchmark.py:1179-1205 | the in-place rewrite counters add exactly the turn's classification |
| Simulator.ForwardTurn | benchmarks/claude_session_mode_benchmark.py:1158-1173 | the running conversation, token total and context pair are those of the turn |
| Simulator.SimulateReplay | benchmarks/claude_session_mode_benchmark.py:1137-1267 | the one-turn-late loop with its flush computes the totals of the whole run, for every mode and session |
| CacheMode.DeltaReplayExtends | benchmarks/claude_session_mode_benchmark.py:680-695 | after the first turn extraction never falls back, finds exactly the new input, and the request is the previous one, the answer and the compressed delta |
| CacheMode.CacheModePreservesPrefixes | benchmarks/claude_session_mode_benchmark.py:843-862 | in cache mode every request extends the one before, for any pipeline |
| CacheMode.BaselinePreservesPrefixes | benchmarks/claude_session_mode_benchmark.py:816-817 | in baseline every request extends the one before |
| CacheMode.NoBustsIff | benchmarks/claude_session_mode_benchmark.py:972-981 | the bust counter is zero iff every request inside the TTL extends the one before |
| CacheMode.CacheModeNeverBusts | README.md:323 | the frozen prefix stays identical: cache mode ends every session with no bust and no busting rewrite |
| CacheMode.CacheModeRewritesAreStable | benchmarks/claude_session_mode_benchmark.py:1179-1205 | without expired gaps and with a first input every rewrite of cache mode is a stable one, none busting or not eligible |
| CacheMode.DeltaReplayIsBaselineOfDeltas | benchmarks/claude_session_mode_benchmark.py:843-862 | delta replay equals the plain replay of the session with each input compressed once on arrival |
| Stickiness.LoadedSessions | benchmarks/claude_session_mode_benchmark.py:310-370 | every turn the loader yields has at most one message as input, the user's, and an answer of distinct object blocks or the empty text |
| Stickiness.LoadedSessionsHaveRoles | benchmarks/claude_session_mode_benchmark.py:348-370 | so inputs hold no assistant message and answers are the assistant's |
| Stickiness.RewriteIffChanged | benchmarks/claude_session_mode_benchmark.py:659-677 | on every loaded session, with any pipeline, a turn is a rewrite iff a delta so far was changed; on any session too if the pipeline returns no more than it got |
| Stickiness.RetroactiveIffChangedBefore | benchmarks/claude_session_mode_benchmark.py:669-677 | a turn is retroactive iff an earlier delta was changed, with the roles of loaded sessions if no delta is its input and then its turn's answer, on any session if the pipeline keeps counts |
| Stickiness.RetroactiveExactlyLoaded | benchmarks/claude_session_mode_benchmark.py:310-443 | over all transcripts that holds iff after the first turn the pipeline never returns a user message unchanged with a loader's answer behind it |
| Stickiness.RetroactiveExactly | benchmarks/claude_session_mode_benchmark.py:669-677 | over all sessions with those roles, any inputs and answers, iff it never puts an assistant message behind an unchanged input |
| Stickiness.RewriteCounts | benchmarks/claude_session_mode_benchmark.py:1179-1184 | no rewrite before the first change and one on every turn from it on; under the same condition the first is latest-turn-only and all later ones are retroactive |
| Stickiness.RewritesNeedNotStick | benchmarks/claude_session_mode_benchmark.py:848-860 | a loaded three-turn transcript and a pipeline whose changed second turn does not show as retroactive in the third |
| ChargeLaws.TurnConserved | benchmarks/claude_session_mode_benchmark.py:969-992 | read, written and regular tokens are the forwarded ones, clamps included; a turn reads what it shares with its predecessor inside the TTL |
| ChargeLaws.RunConserved | benchmarks/claude_session_mode_benchmark.py:1002-1008 | the same over any stretch of a run |
| ChargeLaws.ChargesSplit | benchmarks/claude_session_mode_benchmark.py:1206-1221 | the charges of a stretch are those of its parts |
| ChargeLaws.DelayedAccountingIsFaithful | benchmarks/claude_session_mode_benchmark.py:1179-1265 | eligible plus expired turns are n-1; busting rewrites <= busts <= eligible; stable plus busting rewrites <= eligible; rewrites split exactly both ways |
| ChargeLaws.RewriteClasses | benchmarks/claude_session_mode_benchmark.py:1179-1205 | a rewritten turn is stable iff it extends a cached request, busting iff it changes one, not eligible iff there is none; latest-turn-only iff it kept the history, else retroactive |
| ChargeLaws.RewriteCounters | benchmarks/claude_session_mode_benchmark.py:1179-1205 | over a run every rewrite counter is the number of turns of its class |
| ChargeLaws.CacheCounters | benchmarks/claude_session_mode_benchmark.py:969-983 | eligible, bust and expiry counters are the numbers of turns inside the TTL, that bust, and behind an expired gap |
| ChargeLaws.TokensOfRun | benchmarks/claude_session_mode_benchmark.py:1002-1010 | raw, forwarded (messages and framing), read and output tokens are the sums over the turns |
| ChargeLaws.CachedAfterTurn | benchmarks/claude_session_mode_benchmark.py:984-990 | read plus write of a turn is the larger of its read and what its successor shares |
| ChargeLaws.NoReadWithoutWrite | benchmarks/claude_session_mode_benchmark.py:971-990 | with one tokenizer a turn reads at most what the previous one read and wrote, and reads all that was written |
| ChargeLaws.WritesAreRead | benchmarks/claude_session_mode_benchmark.py:984-990 | over any run counted by one tokenizer total writes are covered by total reads |
| CostLaws.CostsAreTokensAtRates | benchmarks/claude_session_mode_benchmark.py:993-1013 | with one model accumulated dollars are accumulated tokens at its rates |
| CostLaws.InputSaving | benchmarks/claude_session_mode_benchmark.py:993-1000 | the exact saving of a one-model run over sending everything uncached |
| CostLaws.SavingIsExact | benchmarks/claude_session_mode_benchmark.py:993-1000 | the same turn by turn for any mix of models and tokenizers |
| CostLaws.PriceConditionSuffices | benchmarks/claude_session_mode_benchmark.py:947-952 | input never costs more than uncached if every in-time write surcharge is covered by the next model's read saving |
| CostLaws.CostBoundIff | benchmarks/claude_session_mode_benchmark.py:947-1000 | and it holds for every list of forwarded requests only then |
| CostLaws.TokenModeForwards | benchmarks/claude_session_mode_benchmark.py:866-901 | every list of forwarded requests is what some token mode sends |
| CostLaws.PriceConditionOneTokenizer | benchmarks/claude_session_mode_benchmark.py:947-952 | with one tokenizer the condition is (multiplier - 1) x base(i-1) <= 0.9 x base(i) at every turn inside the TTL |
| CostLaws.CostBound | benchmarks/claude_session_mode_benchmark.py:947-952 | one model and a multiplier up to 1.9 meet it, for any forwarded requests |
| CostLaws.CostBoundIsTight | benchmarks/claude_session_mode_benchmark.py:947-952 | for one message sent twice to one model the bound holds iff the multiplier is at most 1.9 |
| CostLaws.TwoModelsMeetTheBoundIff | benchmarks/claude_session_mode_benchmark.py:993-1000 | for one message sent to two models it holds iff (multiplier - 1) x first price <= 0.9 x second price |
| CostLaws.NoCacheTotalUnderstates | benchmarks/claude_session_mode_benchmark.py:129-132 | for any models the property is short of the uncached price by the written tokens at base rate, and equal to it iff every write is of no token or by a free model |
| CostLaws.NoCacheTotalOneModel | benchmarks/claude_session_mode_benchmark.py:129-132 | with one model: iff nothing was written or the model is free |
| CostLaws.MultiplierMovesWritesOnly | benchmarks/claude_session_mode_benchmark.py:947-1013 | under another write multiplier only the write dollars change, by the written tokens at base rate times the change |
| PrefixCosts.PrefixSavingIsExact | benchmarks/claude_session_mode_benchmark.py:969-1000 | what a run of growing requests saves is the worth of each message, counted once when it comes in |
| PrefixCosts.PrefixCostBoundIff | benchmarks/claude_session_mode_benchmark.py:947-1000 | over all such runs the bound holds iff no message that comes in and stays is worth less than nothing |
| PrefixCosts.StayingPaysOneTokenizer | benchmarks/claude_session_mode_benchmark.py:947-952 | with one tokenizer the condition is about base rates and gaps alone |
| PrefixCosts.SegmentConditionSuffices | benchmarks/claude_session_mode_benchmark.py:947-990 | it is enough that each token's surcharge is covered by reading it in its own segment |
| PrefixCosts.SegmentConditionIff | benchmarks/claude_session_mode_benchmark.py:947-990 | and necessary in a session without a gap over the TTL |
| PrefixCosts.DearThenCheapIff | benchmarks/claude_session_mode_benchmark.py:947-1000 | a 15-dollar turn and n 1-dollar turns at multiplier 1.25 meet the bound iff n is 0 or at least 5 |
| PrefixCosts.TwoQuestionsMeetTheBoundIff | benchmarks/claude_session_mode_benchmark.py:993-1000 | a loaded session with one question to each of two models, in baseline and cache mode: iff (multiplier - 1) x first price <= 0.9 x second price |
| PrefixCosts.MixedModelsCanCostMore | benchmarks/claude_session_mode_benchmark.py:993-1000 | so 15 against 1 dollar fails it at multiplier 1.25 |
| PrefixCosts.CacheTurnCostsNoMore | benchmarks/claude_session_mode_benchmark.py:843-862 | turn by turn, input in cache mode costs no more than in baseline if no delta has more tokens than its input |
| PrefixCosts.CacheNeverCostsMore | benchmarks/claude_session_mode_benchmark.py:1137-1267 | and so for the total cost of a whole session, with any models |
| PrefixCosts.CacheNeverCostsMoreIff | benchmarks/claude_session_mode_benchmark.py:1137-1267 | over all sessions of one model that is not free cache mode never costs more than baseline iff the pipeline never makes an input longer |
| ChargeLaws.TurnOfPrefixRun | benchmarks/claude_session_mode_benchmark.py:971-990 | in a prefix-preserving run, with any tokenizers, a turn reads all of its predecessor and writes the rest if its successor is in time |
| ChargeLaws.SegmentCharges | benchmarks/claude_session_mode_benchmark.py:969-992 | with one tokenizer, between two TTL gaps writes equal the second-to-last request (0 for one turn), writes plus regular the last one |
| ChargeLaws.NewTokensOncePerSegment | benchmarks/claude_session_mode_benchmark.py:1206-1265 | with one tokenizer, over a run writes plus regular input are the segments' last requests |
| ChargeLaws.RunningTotalIsRecount | benchmarks/claude_session_mode_benchmark.py:1158-1163 | the running raw total equals counting the whole conversation |
| ChargeLaws.RunningTotalByTurn | benchmarks/claude_session_mode_benchmark.py:1158-1163 | with any tokenizers it counts every message once, by the tokenizer of the turn that brought it in |
| Detectors.FirstDiffIndex | benchmarks/cache_bust_trace_report.py:55-61 | the first difference, none iff the lists are equal |
| Detectors.BuildBustEvents | benchmarks/synthetic_token_cache_bust_report.py:136-197 | the immediate detector reports one event per busting turn, in order |
| Detectors.BustTurnsInOrder | benchmarks/synthetic_token_cache_bust_report.py:149-174 | those are all the turns that bust, in order |
| Detectors.BustEventFields | benchmarks/synthetic_token_cache_bust_report.py:160-190 | an event names its turn and the one before and holds both requests and the place where they part |
| Detectors.DetectorsAgree | benchmarks/synthetic_token_cache_bust_report.py:149-174 | as many events as the late accountant counts busts, each diverging inside the lost request where the turn's cache reads end |
| Detectors.TraceTurn | benchmarks/cache_bust_trace_report.py:149-177 | the late look at a waiting turn reports it iff it busts |
| Detectors.TraceMode | benchmarks/cache_bust_trace_report.py:119-206 | over all files, trimmed to recent turns, the trace is a prefix, cut at the event limit (at least one), of the busts of all but each session's last turn, every field of an event included |
| Detectors.CutAtLimit | benchmarks/cache_bust_trace_report.py:178-179 | the list is cut behind as many events as allowed, but the first is kept |
| Detectors.TraceEventFields | benchmarks/cache_bust_trace_report.py:161-177 | every field of an event: ids, time, lengths, where the requests part and the messages there, tails, retroactive |
| Detectors.TraceInOrder | benchmarks/cache_bust_trace_report.py:137-180 | a session's events are those of its busting turns, in order |
| Detectors.EventsComeFrom | benchmarks/cache_bust_trace_report.py:123-164 | a file's events carry the mode, session and project and come from its latest turns except the last |
| Detectors.TraceMissesLastTurn | benchmarks/cache_bust_trace_report.py:137-206 | it falls short of the accountant by one iff the last turn busts |
| Detectors.TraceMissesLastTurns | benchmarks/cache_bust_trace_report.py:119-206 | over any number of files it loses exactly the busts on last turns |
| Detectors.TailIsNotTheLostRequest | benchmarks/cache_bust_trace_report.py:150-175 | the previous tail of an event ends with the reported turn's own answer; it is the lost request's tail only if that ends with the same message |
| Detectors.PressureTailsAreWrong | benchmarks/cache_bust_trace_report.py:150-175 | on the rewrite-pressure session it never is |
| Detectors.PressureTraceLosesOne | benchmarks/cache_bust_trace_report.py:137-206 | of the n-1 busts of the rewrite-pressure session it shows n-2 |
| Scenarios.ApplyHistoryPressure | benchmarks/synthetic_long_cache_suite_report.py:42-69 | the loop compresses tool results in all but the latest two messages |
| Scenarios.CompressMeaning | benchmarks/synthetic_long_cache_suite_report.py:52-69 | compressing replaces the content of tool results by the placeholder and nothing else |
| Scenarios.HistoryPressureMeaning | benchmarks/synthetic_long_cache_suite_report.py:45-69 | all messages but the latest two are compressed, and those two stay |
| Scenarios.HistoryPressureKeepsPrefixIff | benchmarks/synthetic_long_cache_suite_report.py:45-49 | growing a conversation keeps the compressed prefix iff no message leaving the protected tail would change |
| Scenarios.BuildScenario | benchmarks/synthetic_long_cache_suite_report.py:113-148 | the scenario loop yields the n generated turns |
| Scenarios.ScenarioTurns | benchmarks/synthetic_long_cache_suite_report.py:83-178 | what each generated turn holds: model, time steps of two and seven minutes, messages, output tokens |
| Scenarios.RequestIdsDiffer | benchmarks/synthetic_long_cache_suite_report.py:92 | request ids are the session's word and the padded turn number, and no two are equal |
| Scenarios.PaddedMeaning | benchmarks/synthetic_long_cache_suite_report.py:92 | padding fills up to four digits and keeps the number |
| Scenarios.PayloadMeaning | benchmarks/synthetic_long_cache_suite_report.py:79-80 | a tool result is eighty copies with the last blank stripped |
| Scenarios.WholeHistoryDiverges | benchmarks/synthetic_long_cache_suite_report.py:40-69 | whole-history compression diverges exactly at the previous request's last message |
| Scenarios.DeltaReplayForwardsBaseline | benchmarks/claude_session_mode_benchmark.py:843-862 | delta replay through the same pipeline forwards the conversation unchanged |
| Scenarios.Separation | benchmarks/synthetic_long_cache_suite_report.py:113-148 | for any n and any TTL of two minutes or more: n-1 busts against none, and no rewrite in cache mode |
| Scenarios.StableSessionIsOneSegment | benchmarks/synthetic_long_cache_suite_report.py:83-110 | two-minute gaps, in all three modes of the suite and in cache mode with any pipeline: one segment, writes are the second-to-last request, writes plus regular input the last |
| Scenarios.ResetSessionNeverCaches | benchmarks/synthetic_long_cache_suite_report.py:151-178 | seven-minute gaps: nothing is read or written, n-1 expiries, in every mode |
| Scenarios.SuiteAtFiveMinutes | benchmarks/synthetic_long_cache_suite_report.py:196-204 | the suite at its five minutes: one segment, n-1 busts against none, and n-1 expiries without a read or write |
| Loader.LoadSessionReplay | benchmarks/claude_session_mode_benchmark.py:339-452 | the one-pass grouping machine returns one turn per maximal run, or nothing when there is none |
| LoaderLaws.LoaderMeetsSpecification | benchmarks/claude_session_mode_benchmark.py:348-443 | turns are exactly the maximal same-request runs, each once, in order, with the user message directly before as input; every assistant event is in one |
| LoaderLaws.LoadedFields | benchmarks/claude_session_mode_benchmark.py:310-443 | every field of a loaded turn: id, model and time of its run's first event, the user message directly before, each of the four token numbers the largest of the run (at least zero), the first-seen blocks |
| LoaderLaws.AcceptedAppend | benchmarks/claude_session_mode_benchmark.py:348-361 | other events are dropped wherever they stand, and nothing else |
| LoaderLaws.AllBlocksAppend | benchmarks/claude_session_mode_benchmark.py:385-412 | the blocks of a run are those of its events, one event after the other |
| LoaderLaws.BlocksOfMeaning | benchmarks/claude_session_mode_benchmark.py:287-292 | a text is one plain text block unless empty; of a list the objects are kept in order |
| LoaderLaws.MaximalRunsDisjoint | benchmarks/claude_session_mode_benchmark.py:385-396 | an event belongs to one maximal run only |
| LoaderLaws.BlocksInFirstSeenOrder | benchmarks/claude_session_mode_benchmark.py:408-412 | a turn keeps the first block of every key, in first-seen order |
| LoaderLaws.MaxOfIsMaximum | benchmarks/claude_session_mode_benchmark.py:413-428 | token fields are maxima over the run, at least zero |
| SuffixMerge.ExtractionMeaning | benchmarks/claude_session_mode_benchmark.py:698-759 | extraction succeeds iff only the last message grew, in one role and kind; prefix and last message are the forwarded list, and original content plus delta is the current content |
| SuffixMerge.MergeNeverFails | benchmarks/claude_session_mode_benchmark.py:762-783 | a role- and kind-preserving delta always merges, and the merged content is the forwarded content and then the compressed delta |
| SuffixMerge.MergeFailsIff | benchmarks/claude_session_mode_benchmark.py:762-783 | merging fails iff there is a delta of another role or kind; otherwise content is joined behind the forwarded one |
| SuffixMerge.ExtractThenMergeIsIdentity | benchmarks/claude_session_mode_benchmark.py:698-783 | uncompressed history and identity compression give the current messages back in role and content |
| SuffixMerge.MergeKeepsForwardedKeys | benchmarks/claude_session_mode_benchmark.py:772-782 | other keys come from the forwarded message, so full equality can fail |
| Checkpoints.LoadUndoesWrite | benchmarks/claude_session_mode_benchmark.py:236-264 | a loaded checkpoint is the written summary |
| Checkpoints.PayloadFields | benchmarks/claude_session_mode_benchmark.py:236-264 | each counter and cost is stored under its own name |
| Checkpoints.AbsentReadsZero | benchmarks/claude_session_mode_benchmark.py:236-264 | a field that is missing reads as zero |
| Checkpoints.CheckpointFilesDiffer | benchmarks/claude_session_mode_benchmark.py:1060-1061 | checkpoints share a file iff mode and session are the same |
| Checkpoints.ContributionOfLatest | benchmarks/claude_session_mode_benchmark.py:455-465 | with a limit of n a session counts by its last n turns, without one by all |
| Checkpoints.SimulateSerially | benchmarks/claude_session_mode_benchmark.py:1435-1472 | the serial loop on any checkpoint store |
| Checkpoints.SimulateInPool | benchmarks/claude_session_mode_benchmark.py:1395-1434 | the pool's merged summary does not depend on the order of completion; checkpoints that were there stay, and each new one is its session's own |
| Checkpoints.SerialLaw | benchmarks/claude_session_mode_benchmark.py:1435-1472 | on any sessions and any store the serial sum takes, for each session, the checkpoint there at the start, else the first session under its id with a replay |
| Checkpoints.SerialIsPool | benchmarks/claude_session_mode_benchmark.py:1395-1472 | where sessions under one id contribute the same, serial loop and pool agree whatever the checkpoints hold |
| Checkpoints.SerialIsExpected | benchmarks/claude_session_mode_benchmark.py:1435-1472 | where sessions under one id contribute the same (distinct ids, say), any subset restored from checkpoints gives the full sum, and good checkpoints |
| Checkpoints.SchedulesAgree | benchmarks/claude_session_mode_benchmark.py:1289-1372 | under the same condition serial, pool, fresh and resumed runs merge to the same summary |
| Checkpoints.DistinctIdsAgree | benchmarks/claude_session_mode_benchmark.py:1289-1472 | with distinct ids a serial run, one interrupted anywhere and resumed by loop or pool, and a pool without checkpoints agree |
| Checkpoints.SerialKeepsUpIff | benchmarks/claude_session_mode_benchmark.py:1395-1472 | without checkpoints to start from, serial loop and pool agree on every beginning of the list iff each session contributes what the first under its id does |
| Checkpoints.DuplicateIdsNeedThePool | benchmarks/claude_session_mode_benchmark.py:1064-1072 | two sessions under one id: the serial loop counts the first twice and agrees with the pool iff the two contribute the same |
| Checkpoints.MergedConserved | benchmarks/claude_session_mode_benchmark.py:1016-1024 | merging any number of sessions keeps read + write + regular = forwarded |
| Checkpoints.MergedCounts | benchmarks/claude_session_mode_benchmark.py:1016-1038 | a merged summary counts the sessions that hold a turn and all their kept requests |
| Checkpoints.MergedNoCacheUnderstates | benchmarks/claude_session_mode_benchmark.py:129-132 | over any sessions and models the merged no-cache figure is short by all writes at base rate, and right iff all of them were free |
| Checkpoints.ResumedUnderMultiplier | benchmarks/claude_session_mode_benchmark.py:468-479 | resumed under another write multiplier everything but the write dollars is right, and those are off by the restored writes at base rate times the change |
| Checkpoints.ResumedUnderMultiplierIff | benchmarks/claude_session_mode_benchmark.py:468-479 | so the summary is right iff the multiplier is the same or no restored write costs anything |
| Markers.InjectCacheMarkers | benchmarks/prefix_cache_benchmark.py:399-447 | marks the message thirds and the end of a copy; the budget check never stops it early |
| Markers.ThirdsAreMarked | benchmarks/prefix_cache_benchmark.py:420-447 | the last message, and of three or more those at n/3 and 2n/3, end in a breakpoint if they can carry one; no other message changes |
| Markers.InjectCcStyleMarkers | benchmarks/prefix_cache_benchmark.py:455-512 | marks the last message and the nearest user message before it |
| Markers.CcStyleIsMarked | benchmarks/prefix_cache_benchmark.py:472-510 | the last message and the nearest user message before it end in a breakpoint if they can carry one; no other message changes |
| Markers.MarkMeaning | benchmarks/prefix_cache_benchmark.py:435-445 | marking a string gives one marked text block, marking a list marks its last block and nothing else, any other message stays |
| Markers.SystemIsMarked | benchmarks/prefix_cache_benchmark.py:411-415 | a non-empty string system prompt becomes one marked block |
| Markers.BreakpointBudget | benchmarks/prefix_cache_benchmark.py:399-447 | at most four new breakpoints (cc-style three), whatever the request carried |
| Markers.InjectionIsTransparentAndIdempotent | benchmarks/prefix_cache_benchmark.py:455-512 | stripping the markers gives the input back, injecting twice is injecting once |
| ProxyModes.BuildConversation | benchmarks/proxy_mode_benchmark.py:77-118 | the loop builds the answered turns and the open one |
| ProxyModes.ConversationShape | benchmarks/proxy_mode_benchmark.py:77-118 | turn j asks about the tool output of turn j and hands it over; all but the last are acknowledged |
| ProxyModes.SimulateMode | benchmarks/proxy_mode_benchmark.py:154-228 | the loop's bill, for baseline and for any forwarding |
| ProxyModes.BillFields | benchmarks/proxy_mode_benchmark.py:154-228 | original, sent and read tokens are sums over the turns, saved the tokens of the turns sent shorter than their conversation |
| ProxyModes.ReadsAndUncachedAreSent | benchmarks/proxy_mode_benchmark.py:165-171 | reads plus uncached are the sent tokens in every mode; savings cover what is missing against the original |
| ProxyModes.BaselineUncachedIsFinalConversation | benchmarks/proxy_mode_benchmark.py:158-172 | over n turns baseline's uncached tokens are those of the final conversation |
| ProxyModes.NothingUncachedIff | benchmarks/proxy_mode_benchmark.py:158-172 | no token was uncached iff none was sent, iff every request counts zero tokens |
| ProxyModes.HitRateCountsNewTokensTwice | benchmarks/proxy_mode_benchmark.py:51-59 | the denominator is the sent tokens iff baseline or every request counts zero tokens |
| ProxyModes.HitRateIsShareIff | benchmarks/proxy_mode_benchmark.py:51-59 | the hit rate is never above the share of sent tokens that was read, and equal to it iff baseline or no request shares a token with the one before |
| ProxyModes.HitRateMeaning | benchmarks/proxy_mode_benchmark.py:51-59 | the rate times the denominator is a hundred times the read tokens, and zero of nothing |
| IdleGaps.TurnsOf | claude_analysis_ttl.py:45-78 | deduplicated against earlier files and sorted by time |
| IdleGaps.KeptOncePerId | claude_analysis_ttl.py:66-70 | no id is kept twice, and none that an earlier file counted |
| IdleGaps.KeptLosesNoId | claude_analysis_ttl.py:66-70 | every id of the file is kept or was seen before |
| IdleGaps.KeptAreFirsts | claude_analysis_ttl.py:66-70 | what is kept is the first record of each new id, in file order, and every record without an id |
| IdleGaps.SortKeepsShares | claude_analysis_ttl.py:77 | sorting loses no model's tokens |
| IdleGaps.SortIsSorted | claude_analysis_ttl.py:77 | the sorted records are in time order |
| IdleGaps.SortIsPermutation | claude_analysis_ttl.py:77 | and they are the same records |
| IdleGaps.SortIsTheStableSort | claude_analysis_ttl.py:77 | the result is the only list in time order that keeps the order of records with equal times |
| IdleGaps.Analyze | claude_analysis_ttl.py:104-124 | the two dictionaries hold, for every model, its tokens in the range of each bucket and on first turns of the counted sessions, and so its split |
| IdleGaps.SplitByGaps | claude_analysis_ttl.py:83-124 | in window are a session's tokens after gaps under 300 seconds, avoidable those after 300 to under 3600, unavoidable the first turn and the rest |
| IdleGaps.AllSplitByGaps | claude_analysis_ttl.py:205-220 | the same over all counted sessions |
| IdleGaps.SessionsAreFiles | claude_analysis_ttl.py:104-112 | a counted session is the new records of one file, two or more |
| IdleGaps.FilesAreSessions | claude_analysis_ttl.py:104-112 | and every file with two new records or more is counted |
| IdleGaps.IdsCountOnce | claude_analysis_ttl.py:66-70 | no id is counted twice, in one session or in two |
| IdleGaps.SplitConserved | claude_analysis_ttl.py:205-220 | in-window, avoidable and unavoidable tokens are all cache-creation tokens of the counted sessions, model by model |
| IdleGaps.PriceTable | claude_analysis_ttl.py:15-39 | the first known name that the model name contains up to a bracket gives the price, no known name Sonnet's |
| IdleGaps.KnownPrices | claude_analysis_ttl.py:15-39 | the four known names have their own prices, with and without a bracketed suffix |
| IdleGaps.StrategyCosts | claude_analysis_ttl.py:225-239 | strategy A pays 1.25 input prices for every token, B two for every token but a tenth for the avoidable |
| IdleGaps.HourPaysIff | claude_analysis_ttl.py:225-239 | for every model the one-hour strategy is cheaper iff 23 x avoidable > 15 x the rest |
| IdleGaps.HourPaysOverallIff | claude_analysis_ttl.py:222-239 | over any mix of models B_total < A_total iff the sum of input price x (23 x avoidable - 15 x the rest) is positive |
| IdleGaps.ModelsMeaning | claude_analysis_ttl.py:205-220 | the rows are for the models of the two dictionaries, and every other model has no tokens |
| IdleGaps.CompareStrategies | claude_analysis_ttl.py:205-240 | one row per model of the two dictionaries, and totals whose difference is that sum |

## Left out

- Token mode's compression cache, prefix tracker and real pipeline are not part of this model; they enter as an arbitrary function of turn, model and conversation.
- The fallback of cache mode without delta replay, and image compression, rest on handler code that is not part of this model; delta replay is taken as supported.
- Tokenizers and the price table are arbitrary functions; floating-point rounding of money is not modelled.
- Summaries.ModeSummary.Merge: the 22 counters are grouped into two records that the methods reassign, and the per-turn list is left out because nothing ever fills it.
- Deep copies are copies of values: aliasing between the conversation, the contexts and the forwarded lists is not modelled.
- File reading, JSON and timestamp parsing, canonical block keys (an arbitrary function) and directory discovery; transcripts start as classified events.
- Observed-usage summaries, dataset counts, winners, impact tables, console, Markdown and HTML reports, command lines and worktrees.
- The two-turn token-bust replay with its own fake pipeline, a smaller instance of the separation proved for n turns.
- Percentages and medians of the idle-gap report, and its third strategy, which is described but never computed.
