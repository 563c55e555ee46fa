/** The synthetic long-session suite: a pipeline that rewrites older tool results, and
    the three generated sessions, for any number of turns. */
module Scenarios {
  import opened Messages
  import opened Tokens
  import opened Summaries
  import opened Replay
  import opened CacheMode
  import opened ChargeLaws

  // ---------------------------------------------------------------- the pipeline

  const COMPRESSED := "[compressed-older-tool-result]"

  predicate IsToolResult(b: Block) {
    b.Dict? && b.kind == "tool_result"
  }

  predicate HasToolResult(blocks: seq<Block>) {
    exists i :: 0 <= i < |blocks| && IsToolResult(blocks[i])
  }

  function CompressBlock(b: Block): Block {
    if IsToolResult(b) then b.(payload := COMPRESSED) else b
  }

  function CompressBlocks(blocks: seq<Block>): seq<Block> {
    seq(|blocks|, i requires 0 <= i < |blocks| => CompressBlock(blocks[i]))
  }

  /** A message with every tool result replaced by the placeholder. */
  function Compress(m: Message): Message {
    if m.content.Blocks? then m.(content := Blocks(CompressBlocks(m.content.blocks))) else m
  }

  /** Everything but the latest two messages is compressed. */
  function HistoryPressure(messages: seq<Message>): (r: seq<Message>)
    ensures |r| == |messages|
  {
    seq(|messages|, i requires 0 <= i < |messages| =>
      if i + 2 < |messages| then Compress(messages[i]) else messages[i])
  }

  method ApplyHistoryPressure(messages: seq<Message>) returns (rewritten: seq<Message>)
    ensures rewritten == HistoryPressure(messages)
  {
    rewritten := [];
    var protectedStart := if |messages| < 2 then 0 else |messages| - 2;
    for index := 0 to |messages|
      invariant |rewritten| == index
      invariant forall j :: 0 <= j < index ==> rewritten[j] == HistoryPressure(messages)[j]
    {
      var message := messages[index];
      if index < protectedStart && message.content.Blocks? && HasToolResult(message.content.blocks) {
        var newBlocks := [];
        for k := 0 to |message.content.blocks|
          invariant |newBlocks| == k
          invariant forall j :: 0 <= j < k ==> newBlocks[j] == CompressBlock(message.content.blocks[j])
        {
          var block := message.content.blocks[k];
          newBlocks := newBlocks + [if IsToolResult(block) then block.(payload := COMPRESSED) else block];
        }
        assert newBlocks == CompressBlocks(message.content.blocks);
        rewritten := rewritten + [message.(content := Blocks(newBlocks))];
      } else {
        assert message.content.Blocks? && !HasToolResult(message.content.blocks) ==>
            CompressBlocks(message.content.blocks) == message.content.blocks;
        rewritten := rewritten + [message];
      }
    }
  }

  /** Compressing replaces the content of tool results by the placeholder and nothing else. */
  lemma CompressMeaning(m: Message)
    ensures var c := Compress(m);
            && c.role == m.role && c.extra == m.extra
            && (!m.content.Blocks? ==> c == m)
            && (m.content.Blocks? ==> c.content.Blocks? && |c.content.blocks| == |m.content.blocks|)
            && (m.content.Blocks? ==>
                  forall i :: 0 <= i < |m.content.blocks| ==>
                    var b, d := m.content.blocks[i], c.content.blocks[i];
                    if b.Dict? && b.kind == "tool_result"
                    then d == Dict("tool_result", "[compressed-older-tool-result]", b.cacheControl, b.extra)
                    else d == b)
  {
  }

  /** All messages but the latest two are compressed, and those two stay. */
  lemma HistoryPressureMeaning(messages: seq<Message>, i: nat)
    requires i < |messages|
    ensures i >= |messages| - 2 ==> HistoryPressure(messages)[i] == messages[i]
    ensures i < |messages| - 2 ==> HistoryPressure(messages)[i] == Compress(messages[i])
  {
  }

  /** Growing a conversation keeps the compressed prefix exactly when no message that was
      protected and no longer is would change. */
  lemma HistoryPressureKeepsPrefixIff(a: seq<Message>, b: seq<Message>)
    requires a <= b
    ensures HistoryPressure(a) <= HistoryPressure(b)
            <==> forall k :: 0 <= k < |a| && |a| <= k + 2 && k + 2 < |b| ==> Compress(a[k]) == a[k]
  {
    var f, g := HistoryPressure(a), HistoryPressure(b);
    assert f <= g <==> forall k :: 0 <= k < |a| ==> f[k] == g[k];
    forall k | 0 <= k < |a|
      ensures f[k] == g[k] <==> (|a| <= k + 2 && k + 2 < |b| ==> Compress(a[k]) == a[k])
    {
      assert b[k] == a[k];
    }
  }

  // ---------------------------------------------------------------- generated sessions

  function Decimal(n: nat): (s: string)
    ensures s != []
  {
    if n < 10 then ['0' + (n as char)] else Decimal(n / 10) + ['0' + ((n % 10) as char)]
  }

  /** At least four digits. */
  function Padded(n: nat): (s: string)
    ensures |s| >= 4
  {
    var digits := Decimal(n);
    if |digits| < 4 then seq(4 - |digits|, _ => '0') + digits else digits
  }

  function Repeat(text: string, times: nat): string {
    if times == 0 then "" else text + Repeat(text, times - 1)
  }

  function Digit(c: char): int {
    c as int - '0' as int
  }

  /** The number a string of digits stands for. */
  function Value(s: string): int {
    if s == [] then 0 else 10 * Value(s[..|s| - 1]) + Digit(s[|s| - 1])
  }

  /** Decimal notation: it has the value of its number, and no leading zero. */
  lemma {:induction false} DecimalMeaning(n: nat)
    ensures Value(Decimal(n)) == n
    ensures forall i :: 0 <= i < |Decimal(n)| ==> '0' <= Decimal(n)[i] <= '9'
    ensures Decimal(n)[0] == '0' ==> n == 0 && |Decimal(n)| == 1
  {
    if n >= 10 {
      DecimalMeaning(n / 10);
      assert Decimal(n)[..|Decimal(n)| - 1] == Decimal(n / 10);
    } else {
      assert Value(Decimal(n)[..0]) == 0;
    }
  }

  lemma {:induction false} LeadingZeros(z: nat, digits: string)
    ensures Value(seq(z, _ => '0') + digits) == Value(digits)
    decreases |digits|, z
  {
    var s := seq(z, _ => '0') + digits;
    if digits != [] {
      LeadingZeros(z, digits[..|digits| - 1]);
      assert s[..|s| - 1] == seq(z, _ => '0') + digits[..|digits| - 1];
    } else if z > 0 {
      LeadingZeros(z - 1, []);
      assert s[..|s| - 1] == seq(z - 1, _ => '0') + [];
    }
  }

  /** Padding fills up to four digits and keeps the value, so different numbers stay different. */
  lemma PaddedMeaning(n: nat)
    ensures Value(Padded(n)) == n
    ensures |Padded(n)| == if |Decimal(n)| < 4 then 4 else |Decimal(n)|
  {
    DecimalMeaning(n);
    if |Decimal(n)| < 4 {
      LeadingZeros(4 - |Decimal(n)|, Decimal(n));
    }
  }

  /** Eighty copies, with the blank after the last one stripped. */
  function ToolResultPayload(turn: nat, scenario: string): string {
    var copy := scenario + "-tool-output-" + Decimal(turn);
    copy + Repeat(" " + copy, 79)
  }

  lemma {:induction false} RepeatStep(text: string, times: nat)
    ensures Repeat(text, times + 1) == Repeat(text, times) + text
    ensures Repeat(text, 0) == ""
  {
    if times > 0 {
      RepeatStep(text, times - 1);
      assert text + (Repeat(text, times - 1) + text) == text + Repeat(text, times - 1) + text;
    } else {
      assert text + "" == "" + text;
    }
  }

  lemma {:induction false} BlankMoves(copy: string, times: nat)
    ensures copy + Repeat(" " + copy, times) + " " == Repeat(copy + " ", times + 1)
  {
    if times > 0 {
      BlankMoves(copy, times - 1);
      RepeatStep(" " + copy, times - 1);
      RepeatStep(copy + " ", times);
      assert copy + (Repeat(" " + copy, times - 1) + (" " + copy)) + " "
          == (copy + Repeat(" " + copy, times - 1) + " ") + (copy + " ");
    } else {
      assert Repeat(copy + " ", 1) == copy + " " + Repeat(copy + " ", 0);
      assert copy + "" + " " == copy + " ";
    }
  }

  /** The payload and one more blank are eighty times the copy and a blank. */
  lemma PayloadMeaning(turn: nat, scenario: string)
    ensures ToolResultPayload(turn, scenario) + " "
            == Repeat(scenario + "-tool-output-" + Decimal(turn) + " ", 80)
  {
    BlankMoves(scenario + "-tool-output-" + Decimal(turn), 79);
  }

  function UserText(text: string): Message {
    Message("user", Text(text), map[])
  }

  function AssistantText(text: string): Message {
    Message("assistant", Text(text), map[])
  }

  function ToolMessage(id: string, payload: string): Message {
    Message("user", Blocks([Dict("tool_result", payload, false, map["tool_use_id" := id])]), map[])
  }

  const MODEL := "claude-sonnet-4-6"
  const TURN_GAP := 2
  const RESET_GAP := 7

  function StableTurn(index: nat): ReplayTurn {
    ReplayTurn("stable-" + Padded(index + 1), MODEL, index * TURN_GAP,
               [UserText("Stable append-only turn " + Decimal(index + 1) + ". Summarize and continue.")],
               AssistantText("ok stable " + Decimal(index + 1)), 12, 0, 0, 0)
  }

  function PressureTurn(index: nat): ReplayTurn {
    ReplayTurn("rewrite-" + Padded(index + 1), MODEL, index * TURN_GAP,
               [UserText("Inspect tool output for turn " + Decimal(index + 1) + "."),
                ToolMessage("tool-" + Decimal(index + 1), ToolResultPayload(index + 1, "rewrite"))],
               AssistantText("ok rewrite " + Decimal(index + 1)), 14, 0, 0, 0)
  }

  function ResetTurn(index: nat): ReplayTurn {
    ReplayTurn("ttl-" + Padded(index + 1), MODEL, index * RESET_GAP,
               [UserText("TTL reset turn " + Decimal(index + 1) + ". Continue the thread.")],
               AssistantText("ok ttl " + Decimal(index + 1)), 12, 0, 0, 0)
  }

  /** What the three sessions are made of, turn by turn. */
  lemma ScenarioTurns(i: nat)
    ensures var a, b, c := StableTurn(i), PressureTurn(i), ResetTurn(i);
            && a.model == b.model == c.model == "claude-sonnet-4-6"
            && StableTurn(0).timestamp == PressureTurn(0).timestamp == ResetTurn(0).timestamp == 0
            && StableTurn(i + 1).timestamp == a.timestamp + 2
            && PressureTurn(i + 1).timestamp == b.timestamp + 2
            && ResetTurn(i + 1).timestamp == c.timestamp + 7
            && a.outputTokens == c.outputTokens == 12 && b.outputTokens == 14
            && a.observedInput == a.observedCacheRead == a.observedCacheWrite == 0
            && b.observedInput == b.observedCacheRead == b.observedCacheWrite == 0
            && c.observedInput == c.observedCacheRead == c.observedCacheWrite == 0
            && a.input == [Message("user", Text("Stable append-only turn " + Decimal(i + 1)
                                                + ". Summarize and continue."), map[])]
            && c.input == [Message("user", Text("TTL reset turn " + Decimal(i + 1) + ". Continue the thread."), map[])]
            && b.input == [Message("user", Text("Inspect tool output for turn " + Decimal(i + 1) + "."), map[]),
                           Message("user", Blocks([Dict("tool_result", ToolResultPayload(i + 1, "rewrite"), false,
                                                        map["tool_use_id" := "tool-" + Decimal(i + 1)])]), map[])]
            && a.assistant == Message("assistant", Text("ok stable " + Decimal(i + 1)), map[])
            && b.assistant == Message("assistant", Text("ok rewrite " + Decimal(i + 1)), map[])
            && c.assistant == Message("assistant", Text("ok ttl " + Decimal(i + 1)), map[])
  {
  }

  /** Request ids start with the session's word and end in the turn's number, so no two are equal. */
  lemma RequestIdsDiffer(i: nat, j: nat)
    ensures StableTurn(i).requestId == "stable-" + Padded(i + 1)
    ensures PressureTurn(i).requestId == "rewrite-" + Padded(i + 1)
    ensures ResetTurn(i).requestId == "ttl-" + Padded(i + 1)
    ensures StableTurn(i).requestId == StableTurn(j).requestId ==> i == j
    ensures PressureTurn(i).requestId == PressureTurn(j).requestId ==> i == j
    ensures ResetTurn(i).requestId == ResetTurn(j).requestId ==> i == j
  {
    hide Padded, ToolResultPayload, Decimal;
    SameNumber("stable-", i + 1, j + 1);
    SameNumber("rewrite-", i + 1, j + 1);
    SameNumber("ttl-", i + 1, j + 1);
  }

  lemma SameNumber(word: string, m: nat, n: nat)
    ensures word + Padded(m) == word + Padded(n) ==> m == n
  {
    hide Padded;
    PaddedMeaning(m);
    PaddedMeaning(n);
    assert (word + Padded(m))[|word|..] == Padded(m) && (word + Padded(n))[|word|..] == Padded(n);
  }

  function Generate(turn: nat -> ReplayTurn, n: nat): (turns: seq<ReplayTurn>)
    ensures |turns| == n && forall i :: 0 <= i < n ==> turns[i] == turn(i)
  {
    seq(n, i requires 0 <= i < n => turn(i))
  }

  method BuildScenario(turn: nat -> ReplayTurn, turnsPerScenario: nat) returns (turns: seq<ReplayTurn>)
    ensures turns == Generate(turn, turnsPerScenario)
  {
    turns := [];
    for index := 0 to turnsPerScenario
      invariant |turns| == index && forall i :: 0 <= i < index ==> turns[i] == turn(i)
    {
      turns := turns + [turn(index)];
    }
  }

  // ---------------------------------------------------------------- rewrite pressure

  /** The last tool result of a request, and where it sits. */
  lemma {:induction false} PressureConversation(n: nat, i: nat)
    requires i < n
    ensures var turns := Generate(PressureTurn, n);
            && |Conversation(turns, i)| == 3 * i + 2
            && Conversation(turns, i)[3 * i] == PressureTurn(i).input[0]
            && Conversation(turns, i)[3 * i + 1] == PressureTurn(i).input[1]
  {
    if i > 0 {
      PressureConversation(n, i - 1);
    }
  }

  lemma ToolResultCompresses(i: nat)
    ensures Compress(PressureTurn(i).input[0]) == PressureTurn(i).input[0]
    ensures Compress(PressureTurn(i).input[1]) != PressureTurn(i).input[1]
  {
    var m := PressureTurn(i).input[1];
    var payload := ToolResultPayload(i + 1, "rewrite");
    assert payload[0] == 'r';
    assert m.content.blocks[0].payload[0] == 'r';
    assert Compress(m).content.blocks[0].payload == COMPRESSED;
    assert COMPRESSED[0] == '[';
  }

  /** Compressing the whole history breaks every request of the scenario exactly at the
      last message of the request before it: the tool result that just left the protected tail. */
  lemma WholeHistoryDiverges(n: nat, i: nat)
    requires 0 < i < n
    ensures var turns := Generate(PressureTurn, n);
            var previous := HistoryPressure(Conversation(turns, i - 1));
            var current := HistoryPressure(Conversation(turns, i));
            SharedLength(previous, current) == |previous| - 1
  {
    hide Padded, Decimal, ToolResultPayload;
    var turns := Generate(PressureTurn, n);
    var a, b := Conversation(turns, i - 1), Conversation(turns, i);
    PressureConversation(n, i - 1);
    PressureConversation(n, i);
    ToolResultCompresses(i - 1);
    assert b == a + ([turns[i - 1].assistant] + turns[i].input);
    assert forall k :: 0 <= k < |a| ==> b[k] == a[k];
    SharedLengthUnique(HistoryPressure(a), HistoryPressure(b), |a| - 1);
  }

  function WholeHistory(): Mode {
    Token((turn, model, messages) => HistoryPressure(messages))
  }

  lemma WholeHistoryForwards(turns: seq<ReplayTurn>, i: nat)
    requires i < |turns|
    ensures RunOf(WholeHistory(), turns).forwarded[i] == HistoryPressure(Conversation(turns, i))
  {
    RunOfAt(WholeHistory(), turns, i);
  }

  function DeltaOnly(): Mode {
    Cache((turn, model, messages) => HistoryPressure(messages))
  }

  /** The same pipeline on the deltas only never touches anything. */
  lemma {:induction false} DeltaReplayForwardsBaseline(n: nat, i: nat)
    requires i < n
    ensures Forwarded(DeltaOnly(), Generate(PressureTurn, n), i) == Conversation(Generate(PressureTurn, n), i)
  {
    var turns := Generate(PressureTurn, n);
    if i > 0 {
      var p: Pipeline := DeltaOnly().pipeline;
      DeltaReplayForwardsBaseline(n, i - 1);
      DeltaReplayExtends(p, turns, i);
      assert Delta(p, turns, i) == turns[i].input;
    }
  }

  lemma WholeHistoryBustsAt(s: Settings, n: nat, i: nat)
    requires i < n && s.ttl >= 2
    ensures Busts(s, RunOf(WholeHistory(), Generate(PressureTurn, n)), i) <==> i > 0
  {
    if i > 0 {
      var turns := Generate(PressureTurn, n);
      WholeHistoryForwards(turns, i - 1);
      WholeHistoryForwards(turns, i);
      WholeHistoryDiverges(n, i);
      PressureConversation(n, i - 1);
      SharedLengthOfPrefix(HistoryPressure(Conversation(turns, i - 1)), HistoryPressure(Conversation(turns, i)));
    }
  }

  lemma {:induction false} WholeHistoryBusts(s: Settings, n: nat, k: nat)
    requires k <= n && s.ttl >= 2
    ensures ChargesBetween(s, RunOf(WholeHistory(), Generate(PressureTurn, n)), 0, k).busts
            == if k == 0 then 0 else k - 1
  {
    hide ChargeAt, PressureTurn, Forwarded, ForwardedUpTo, Busts;
    if k > 0 {
      WholeHistoryBusts(s, n, k - 1);
      BustCharge(s, RunOf(WholeHistory(), Generate(PressureTurn, n)), k - 1);
      WholeHistoryBustsAt(s, n, k - 1);
    }
  }

  lemma {:induction false} UntouchedHasNoRewrites(s: Settings, run: Run, k: nat)
    requires k <= |run.turns| && forall i :: 0 <= i < k ==> run.forwarded[i] == Conversation(run.turns, i)
    ensures RewritesUpTo(s, run, k) == NO_REWRITES
  {
    hide RewritesHistory, Conversation, Before;
    if k > 0 {
      UntouchedHasNoRewrites(s, run, k - 1);
      assert RewritesAt(s, run, k - 1) == NO_REWRITES;
    }
  }

  /** The separation: over n turns, whole-history compression busts the cache on every
      turn after the first, delta replay with the same pipeline never does and rewrites nothing. */
  lemma Separation(s: Settings, n: nat)
    requires s.ttl >= 2
    ensures var turns := Generate(PressureTurn, n);
            var whole, delta := RunTotals(s, RunOf(WholeHistory(), turns)), RunTotals(s, RunOf(DeltaOnly(), turns));
            && whole.charges.busts == (if n == 0 then 0 else n - 1)
            && delta.charges.busts == 0
            && delta.rewrites == NO_REWRITES
  {
    var turns := Generate(PressureTurn, n);
    WholeHistoryBusts(s, n, n);
    CacheModeNeverBusts(s, DeltaOnly().pipeline, turns);
    forall i | 0 <= i < n
      ensures RunOf(DeltaOnly(), turns).forwarded[i] == Conversation(turns, i)
    {
      RunOfAt(DeltaOnly(), turns, i);
      DeltaReplayForwardsBaseline(n, i);
    }
    UntouchedHasNoRewrites(s, RunOf(DeltaOnly(), turns), n);
  }

  // ---------------------------------------------------------------- gaps

  /** Two-minute gaps make one segment of the whole session, in any prefix-preserving mode. */
  lemma PrefixPreservingSessionIsOneSegment(s: Settings, mode: Mode, n: nat)
    requires n > 0 && s.ttl >= 2 && s.tokenizer(MODEL).Additive()
    requires PrefixPreserving(RunOf(mode, Generate(StableTurn, n)))
    ensures var run := RunOf(mode, Generate(StableTurn, n));
            var c := RunTotals(s, run).charges;
            && c.write == (if n > 1 then RequestTokens(s, run, n - 2) else 0)
            && c.write + c.regular == RequestTokens(s, run, n - 1)
  {
    var run := RunOf(mode, Generate(StableTurn, n));
    assert IsSegment(s, run, 0, n);
    SegmentCharges(s, run, s.tokenizer(MODEL), 0, n);
  }

  lemma {:induction false} StableConversationIsText(n: nat, i: nat)
    requires i < n
    ensures var c := Conversation(Generate(StableTurn, n), i);
            forall k :: 0 <= k < |c| ==> Compress(c[k]) == c[k]
  {
    hide Padded, Decimal, Compress;
    var turns := Generate(StableTurn, n);
    TextStays("user", turns[i].input[0].content.text);
    assert turns[i].input == [turns[i].input[0]];
    if i > 0 {
      StableConversationIsText(n, i - 1);
      TextStays("assistant", turns[i - 1].assistant.content.text);
      assert Conversation(turns, i)
          == Conversation(turns, i - 1) + [turns[i - 1].assistant] + [turns[i].input[0]];
    } else {
      assert Conversation(turns, i) == [turns[i].input[0]];
    }
  }

  lemma TextStays(role: string, text: string)
    ensures Compress(Message(role, Text(text), map[])) == Message(role, Text(text), map[])
  {
  }

  /** Plain text is never compressed, so even the whole-history pipeline keeps every prefix. */
  lemma WholeHistoryPreservesStablePrefixes(n: nat)
    ensures PrefixPreserving(RunOf(WholeHistory(), Generate(StableTurn, n)))
  {
    hide Padded, Decimal, StableTurn, Compress, HistoryPressure;
    var turns := Generate(StableTurn, n);
    forall i | 0 < i < n
      ensures RunOf(WholeHistory(), turns).forwarded[i - 1] <= RunOf(WholeHistory(), turns).forwarded[i]
    {
      WholeHistoryForwards(turns, i - 1);
      WholeHistoryForwards(turns, i);
      StableConversationIsText(n, i - 1);
      assert Conversation(turns, i)
          == Conversation(turns, i - 1) + ([turns[i - 1].assistant] + turns[i].input);
      HistoryPressureKeepsPrefixIff(Conversation(turns, i - 1), Conversation(turns, i));
    }
  }

  /** In all three modes of the suite all but the last request of the stable session is
      written once, and only the last addition is plain input; cache mode with any pipeline. */
  lemma StableSessionIsOneSegment(s: Settings, mode: Mode, n: nat)
    requires n > 0 && s.ttl >= 2 && s.tokenizer(MODEL).Additive()
    requires mode.Token? ==> mode == WholeHistory()
    ensures var run := RunOf(mode, Generate(StableTurn, n));
            var c := RunTotals(s, run).charges;
            && c.write == (if n > 1 then RequestTokens(s, run, n - 2) else 0)
            && c.write + c.regular == RequestTokens(s, run, n - 1)
  {
    hide StableTurn, PrefixPreserving, RequestTokens, RunTotals;
    match mode {
      case Baseline => BaselinePreservesPrefixes(Generate(StableTurn, n));
      case Cache(p) => CacheModePreservesPrefixes(p, Generate(StableTurn, n));
      case Token(_) => WholeHistoryPreservesStablePrefixes(n);
    }
    PrefixPreservingSessionIsOneSegment(s, mode, n);
  }

  /** Seven-minute gaps expire the cache every time: nothing is read or written and
      every token is plain input, in every mode. */
  lemma {:induction false} ResetSessionNeverCaches(s: Settings, mode: Mode, n: nat, k: nat)
    requires k <= n && s.ttl < 7
    ensures var c := ChargesBetween(s, RunOf(mode, Generate(ResetTurn, n)), 0, k);
            && c.read == c.write == 0 && c.regular == c.forwarded
            && c.eligible == 0 && c.expiries == (if k == 0 then 0 else k - 1)
  {
    hide ChargeAt, ResetTurn, Forwarded, ForwardedUpTo;
    if k > 0 {
      ResetSessionNeverCaches(s, mode, n, k - 1);
      ResetTurnNeverCaches(s, mode, n, k - 1);
    }
  }

  lemma ResetTurnNeverCaches(s: Settings, mode: Mode, n: nat, i: nat)
    requires i < n && s.ttl < 7
    ensures var c := ChargeAt(s, RunOf(mode, Generate(ResetTurn, n)), i);
            && c.read == c.write == 0 && c.regular == c.forwarded
            && c.eligible == 0 && c.expiries == (if i == 0 then 0 else 1)
  {
  }

  /** The suite as it is run, with a TTL of five minutes: the stable session is one segment in all
      three modes; whole-history compression busts the rewrite-pressure session on every turn but
      the first and delta replay never; and the reset session never uses the cache. */
  lemma SuiteAtFiveMinutes(s: Settings, mode: Mode, n: nat)
    requires n > 0 && s.ttl == 5 && s.tokenizer("claude-sonnet-4-6").Additive()
    requires mode.Token? ==> mode == WholeHistory()
    ensures var stable := RunTotals(s, RunOf(mode, Generate(StableTurn, n))).charges;
            && stable.write == (if n > 1 then RequestTokens(s, RunOf(mode, Generate(StableTurn, n)), n - 2) else 0)
            && stable.eligible == n - 1
    ensures RunTotals(s, RunOf(WholeHistory(), Generate(PressureTurn, n))).charges.busts == n - 1
    ensures RunTotals(s, RunOf(DeltaOnly(), Generate(PressureTurn, n))).charges.busts == 0
    ensures var reset := RunTotals(s, RunOf(mode, Generate(ResetTurn, n))).charges;
            reset.read == reset.write == 0 && reset.expiries == n - 1
  {
    hide RunTotals, RequestTokens, StableTurn, PressureTurn, ResetTurn;
    StableSessionIsOneSegment(s, mode, n);
    StableTurnsInTime(s, mode, n);
    Separation(s, n);
    ResetTotals(s, mode, n);
  }

  lemma StableTurnsInTime(s: Settings, mode: Mode, n: nat)
    requires n > 0 && s.ttl >= 2
    ensures RunTotals(s, RunOf(mode, Generate(StableTurn, n))).charges.eligible == n - 1
  {
    hide ChargesBetween, ForwardedUpTo;
    var run := RunOf(mode, Generate(StableTurn, n));
    CacheCounters(s, run, n);
    AllButFirst(InTtl(s, run), n);
  }

  lemma {:induction false} AllButFirst(p: nat -> bool, k: nat)
    requires !p(0) && forall i: nat :: 0 < i < k ==> p(i)
    ensures TurnsWhere(p, k) == if k == 0 then 0 else k - 1
  {
    if k > 0 {
      AllButFirst(p, k - 1);
    }
  }

  lemma ResetTotals(s: Settings, mode: Mode, n: nat)
    requires n > 0 && s.ttl < 7
    ensures var reset := RunTotals(s, RunOf(mode, Generate(ResetTurn, n))).charges;
            reset.read == reset.write == 0 && reset.expiries == n - 1
  {
    hide ChargesBetween, ForwardedUpTo, ResetTurn;
    ResetSessionNeverCaches(s, mode, n, n);
  }
}
